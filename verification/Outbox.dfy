/** The transactional outbox: events recorded inside a unit of work, announced to peers by its commit,
    and projected at their origin afterwards. */
module Outbox {
  import opened Events
  import opened Filtering
  import opened Wrappers

  /** history is the events of the session's committed transactions, in order; projected is history too. */
  datatype Session = Session(
    origin: string,
    open: bool,
    pending: seq<Event>,
    committed: seq<Event>,
    dispatching: seq<Event>,
    projected: seq<Event>,
    history: seq<Event>)

  datatype Invocation = Invocation(handler: int, event: Event)

  /** History: a stretch of the bus, from the subscription that began it to the disconnect that ended it. */
  datatype Span = Span(start: nat, end: nat)

  /** History: one event projected at its origin, for the session that committed it. */
  datatype Projection = Projection(session: int, event: Event)

  /** History: one event projected on a replica, its own session's or a peer's. */
  datatype Arrival = Own(session: int, event: Event) | Peer(event: Event)

  /** While listening, `from` is how much of the bus had passed when it subscribed; spans are its earlier
      subscriptions. Its queue outlives the connection. relayed are the peers' events projected here,
      local those of its own sessions, and arrivals both, as they came. */
  datatype Replica = Replica(
    listening: bool,
    from: nat,
    spans: seq<Span>,
    queue: seq<Descriptor>,
    relayed: seq<Event>,
    local: seq<Projection>,
    arrivals: seq<Arrival>,
    invoked: seq<Invocation>)

  /** History: one announcement, in commit order. */
  datatype Notice = Notice(session: int, origin: string, event: Event)

  datatype World = World(sessions: map<int, Session>, replicas: map<string, Replica>, bus: seq<Notice>)

  datatype Registry = Registry(subscribers: map<Kind, seq<int>>, localOnly: set<int>)

  datatype Step =
    | Boot(name: string)
    | OpenSession(session: int, name: string)
    | Begin(session: int)
    | Record(session: int, event: Event)
    | Commit(session: int)
    | Rollback(session: int)
    | Dispatch(session: int)
    | ProjectNext(session: int)
    | Listen(name: string)
    | Silence(name: string)
    | Consume(name: string)

  // ── The buffer ────────────────────────────────────────────────────────────

  predicate Recordable(ev: Event) {
    IsInstance(ev) && Flushed(ev)
  }

  function RecordEvent(s: Session, ev: Event): Session {
    if s.open && Recordable(ev) then s.(pending := s.pending + [ev]) else s
  }

  function Promote(s: Session): Session {
    s.(open := false, committed := s.committed + s.pending, history := s.history + s.pending, pending := [])
  }

  function Discard(s: Session): Session {
    s.(open := false, pending := [])
  }

  function Describe(origin: string): Event -> Descriptor {
    (ev: Event) => ToDescriptor(origin, ev)
  }

  function Notify(session: int, origin: string): Event -> Notice {
    (ev: Event) => Notice(session, origin, ev)
  }

  /** What one commit puts on the bus, in the order it was recorded. */
  function Descriptors(origin: string, events: seq<Event>): seq<Descriptor> {
    Mapped(Describe(origin), events)
  }

  function Notices(session: int, origin: string, events: seq<Event>): seq<Notice> {
    Mapped(Notify(session, origin), events)
  }

  // ── Projection ────────────────────────────────────────────────────────────

  /** The handlers that run: all of them at the origin, only the projections elsewhere. */
  function Eligible(handlers: seq<int>, localOnly: set<int>, local: bool): seq<int> {
    if handlers == [] then []
    else
      var n := |handlers| - 1;
      Eligible(handlers[..n], localOnly, local)
      + if !local && handlers[n] in localOnly then [] else [handlers[n]]
  }

  function Subscribers(reg: Registry, ev: Event): seq<int> {
    if ev.kind in reg.subscribers then reg.subscribers[ev.kind] else []
  }

  function Invoked(handlers: seq<int>, ev: Event): seq<Invocation> {
    seq(|handlers|, i requires 0 <= i < |handlers| => Invocation(handlers[i], ev))
  }

  function Project(reg: Registry, ev: Event, local: bool): seq<Invocation> {
    Invoked(Eligible(Subscribers(reg, ev), reg.localOnly, local), ev)
  }

  /** What a replica rebuilds from one payload another replica published. */
  function Relayed(d: Descriptor, name: string): Option<Event> {
    match Decode(d)
    case None => None
    case Some(known) => if IsOwn(known, name) then None else FromDescriptor(known)
  }

  // ── Steps ─────────────────────────────────────────────────────────────────

  function Deliver(replicas: map<string, Replica>, payloads: seq<Descriptor>): map<string, Replica> {
    map name | name in replicas ::
      if replicas[name].listening then replicas[name].(queue := replicas[name].queue + payloads) else replicas[name]
  }

  function CommitSession(w: World, sid: int): World
    requires sid in w.sessions
  {
    var s := w.sessions[sid];
    if !s.open then w
    else
      World(w.sessions[sid := Promote(s)],
            Deliver(w.replicas, Descriptors(s.origin, s.pending)),
            w.bus + Notices(sid, s.origin, s.pending))
  }

  function DispatchSession(s: Session): Session {
    if s.dispatching != [] then s else s.(dispatching := s.committed, committed := [])
  }

  function ProjectSession(reg: Registry, w: World, sid: int): World
    requires sid in w.sessions
  {
    var s := w.sessions[sid];
    if s.dispatching == [] || s.origin !in w.replicas then w
    else
      var ev, r := s.dispatching[0], w.replicas[s.origin];
      w.(sessions := w.sessions[sid := s.(dispatching := s.dispatching[1..], projected := s.projected + [ev])],
         replicas := w.replicas[s.origin := r.(local := r.local + [Projection(sid, ev)],
                                                       arrivals := r.arrivals + [Own(sid, ev)],
                                                       invoked := r.invoked + Project(reg, ev, true))])
  }

  function ConsumeOne(reg: Registry, r: Replica, name: string): Replica {
    if r.queue == [] then r
    else
      var rest := r.(queue := r.queue[1..]);
      match Relayed(r.queue[0], name)
      case None => rest
      case Some(ev) =>
        rest.(relayed := r.relayed + [ev], arrivals := r.arrivals + [Peer(ev)],
              invoked := r.invoked + Project(reg, ev, false))
  }

  function Silenced(r: Replica, end: nat): Replica {
    r.(listening := false, spans := r.spans + [Span(r.from, end)])
  }

  function Apply(reg: Registry, w: World, step: Step): World {
    match step
    case Boot(name) =>
      if name in w.replicas then w else w.(replicas := w.replicas[name := Replica(false, 0, [], [], [], [], [], [])])
    case OpenSession(sid, name) =>
      if sid in w.sessions || name !in w.replicas then w
      else w.(sessions := w.sessions[sid := Session(name, false, [], [], [], [], [])])
    case Begin(sid) =>
      if sid !in w.sessions then w else w.(sessions := w.sessions[sid := w.sessions[sid].(open := true)])
    case Record(sid, ev) =>
      if sid !in w.sessions then w else w.(sessions := w.sessions[sid := RecordEvent(w.sessions[sid], ev)])
    case Commit(sid) => if sid !in w.sessions then w else CommitSession(w, sid)
    case Rollback(sid) =>
      if sid !in w.sessions then w else w.(sessions := w.sessions[sid := Discard(w.sessions[sid])])
    case Dispatch(sid) =>
      if sid !in w.sessions then w else w.(sessions := w.sessions[sid := DispatchSession(w.sessions[sid])])
    case ProjectNext(sid) => if sid !in w.sessions then w else ProjectSession(reg, w, sid)
    case Listen(name) =>
      if name !in w.replicas || w.replicas[name].listening then w
      else w.(replicas := w.replicas[name :=
                w.replicas[name].(listening := true, from := |w.bus|)])
    case Silence(name) =>
      if name !in w.replicas || !w.replicas[name].listening then w
      else w.(replicas := w.replicas[name := Silenced(w.replicas[name], |w.bus|)])
    case Consume(name) =>
      if name !in w.replicas then w
      else w.(replicas := w.replicas[name := ConsumeOne(reg, w.replicas[name], name)])
  }

  function Run(reg: Registry, w: World, steps: seq<Step>): World
    decreases |steps|
  {
    if steps == [] then w else Run(reg, Apply(reg, w, steps[0]), steps[1..])
  }

  const EMPTY := World(map[], map[], [])

  // ── What should have been announced ───────────────────────────────────────

  /** How the session's transaction in progress ends: committed, rolled back, or not yet. */
  function Fate(steps: seq<Step>, sid: int): Option<bool> {
    if steps == [] then None
    else if steps[0] == Commit(sid) then Some(true)
    else if steps[0] == Rollback(sid) then Some(false)
    else Fate(steps[1..], sid)
  }

  /** An instance of a known class, with every one of its ids flushed. */
  ghost predicate Announceable(ev: Event) {
    && (forall f :: f in ev.fields <==> f in FieldNames(ev.kind))
    && (forall f | f in ev.fields :: ev.fields[f] != Null)
  }

  /** The announceable events recorded inside a transaction whose next end is a commit, in order. */
  ghost function Survivors(steps: seq<Step>, sid: int, open: bool): seq<Event> {
    if steps == [] then []
    else if steps[0] == Begin(sid) then Survivors(steps[1..], sid, true)
    else if steps[0] == Commit(sid) || steps[0] == Rollback(sid) then Survivors(steps[1..], sid, false)
    else if steps[0].Record? && steps[0].session == sid && open && Announceable(steps[0].event)
         && Fate(steps[1..], sid) == Some(true) then
      [steps[0].event] + Survivors(steps[1..], sid, open)
    else Survivors(steps[1..], sid, open)
  }

  function BySession(sid: int): Notice -> Option<Event> {
    (n: Notice) => if n.session == sid then Some(n.event) else None
  }

  function ByOthers(name: string): Notice -> Option<Event> {
    (n: Notice) => if n.origin != name then Some(n.event) else None
  }

  function Acting(localOnly: set<int>): Invocation -> Option<Invocation> {
    (i: Invocation) => if i.handler in localOnly then Some(i) else None
  }

  function OfSession(bus: seq<Notice>, sid: int): seq<Event> {
    Kept(BySession(sid), bus)
  }

  function OfOthers(bus: seq<Notice>, name: string): seq<Event> {
    Kept(ByOthers(name), bus)
  }

  function Relay(name: string): Descriptor -> Option<Event> {
    d => Relayed(d, name)
  }

  function Rebuilt(queue: seq<Descriptor>, name: string): seq<Event> {
    Kept(Relay(name), queue)
  }

  function Acts(invoked: seq<Invocation>, localOnly: set<int>): seq<Invocation> {
    Kept(Acting(localOnly), invoked)
  }

  /** The stretches of the bus one after the other. */
  function Stretches(bus: seq<Notice>, spans: seq<Span>): seq<Notice>
    requires forall span | span in spans :: span.start <= span.end <= |bus|
  {
    if spans == [] then []
    else
      var n := |spans| - 1;
      Stretches(bus, spans[..n]) + bus[spans[n].start..spans[n].end]
  }

  /** The subscriptions so far follow one another on the bus. */
  ghost predicate SpansFollow(r: Replica, bus: seq<Notice>) {
    && (forall span | span in r.spans :: span.start <= span.end <= |bus|)
    && (forall i, j | 0 <= i < j < |r.spans| :: r.spans[i].end <= r.spans[j].start)
    && (r.listening ==> r.from <= |bus| && forall span | span in r.spans :: span.end <= r.from)
  }

  /** Every notice announced while the replica was subscribed, in order. */
  ghost function Subscribed(r: Replica, bus: seq<Notice>): seq<Notice>
    requires SpansFollow(r, bus)
  {
    Stretches(bus, r.spans) + if r.listening then bus[r.from..] else []
  }

  function ProjectedFor(sid: int): Projection -> Option<Event> {
    (p: Projection) => if p.session == sid then Some(p.event) else None
  }

  function EventOf(): Projection -> Event {
    (p: Projection) => p.event
  }

  function ArrivalEvent(): Arrival -> Event {
    (a: Arrival) => a.event
  }

  function OwnArrival(): Arrival -> Option<Projection> {
    (a: Arrival) => if a.Own? then Some(Projection(a.session, a.event)) else None
  }

  function PeerArrival(): Arrival -> Option<Event> {
    (a: Arrival) => if a.Peer? then Some(a.event) else None
  }

  function ByHandler(h: int): Invocation -> Option<Event> {
    (i: Invocation) => if i.handler == h then Some(i.event) else None
  }

  /** The events one handler was run for, in order. */
  function HandledBy(h: int, invoked: seq<Invocation>): seq<Event> {
    Kept(ByHandler(h), invoked)
  }

  /** How often the event's kind lists the handler: once, unless it was subscribed again. */
  function Listings(reg: Registry, h: int, ev: Event): nat {
    if ev.kind in reg.subscribers then multiset(reg.subscribers[ev.kind])[h] else 0
  }

  function Repeated(ev: Event, n: nat): seq<Event> {
    if n == 0 then [] else Repeated(ev, n - 1) + [ev]
  }

  /** The events whose kind lists the handler, in order, each as often as it does. */
  function ListedFor(reg: Registry, h: int, events: seq<Event>): seq<Event> {
    if events == [] then []
    else
      var n := |events| - 1;
      ListedFor(reg, h, events[..n]) + Repeated(events[n], Listings(reg, h, events[n]))
  }

  /** The acting handlers' invocations for a sequence of events, each run once. */
  function ActsFor(reg: Registry, events: seq<Event>): seq<Invocation> {
    if events == [] then []
    else
      var n := |events| - 1;
      ActsFor(reg, events[..n]) + Acts(Project(reg, events[n], true), reg.localOnly)
  }
}
