/** Exactly the committed transactions' events are projected: at the origin, and at every listening peer. */
module OutboxTheorems {
  import opened Events
  import opened Filtering
  import opened Wrappers
  import opened Outbox

  // ── Sequences ─────────────────────────────────────────────────────────────

  lemma NoticesOfSession(sid: int, origin: string, events: seq<Event>, other: int)
    ensures OfSession(Notices(sid, origin, events), other) == if other == sid then events else []
  {
    KeptMapped(BySession(other), Notify(sid, origin), events, other == sid);
  }

  lemma NoticesOfOthers(sid: int, origin: string, events: seq<Event>, name: string)
    ensures OfOthers(Notices(sid, origin, events), name) == if name != origin then events else []
  {
    KeptMapped(ByOthers(name), Notify(sid, origin), events, name != origin);
  }

  ghost predicate AllRecordable(events: seq<Event>) {
    forall i | 0 <= i < |events| :: Recordable(events[i])
  }

  lemma RelayedRoundTrip(origin: string, ev: Event, name: string)
    requires IsInstance(ev)
    ensures Relayed(ToDescriptor(origin, ev), name) == if name != origin then Some(ev) else None
  {
    DescriptorRoundTrip(origin, ev, name);
  }

  /** A peer rebuilds what a commit published; its own publications it skips. */
  lemma DescriptorsRebuild(origin: string, events: seq<Event>, name: string)
    requires AllRecordable(events)
    ensures Rebuilt(Descriptors(origin, events), name) == if name != origin then events else []
  {
    forall ev | ev in events
      ensures Relay(name)(Describe(origin)(ev)) == if name != origin then Some(ev) else None
    {
      RelayedRoundTrip(origin, ev, name);
    }
    hide Relay, Describe;
    KeptMapped(Relay(name), Describe(origin), events, name != origin);
  }

  // ── The origin ────────────────────────────────────────────────────────────

  ghost predicate Balanced(s: Session) {
    && s.projected + s.dispatching + s.committed == s.history
    && (s.pending != [] ==> s.open)
    && AllRecordable(s.pending)
  }

  ghost predicate SessionInv(w: World, sid: int)
    requires sid in w.sessions
  {
    Balanced(w.sessions[sid]) && w.sessions[sid].origin in w.replicas
  }

  lemma BufferKeepsBalance(s: Session, ev: Event)
    requires Balanced(s)
    ensures Balanced(RecordEvent(s, ev)) && Balanced(Promote(s)) && Balanced(Discard(s)) && Balanced(DispatchSession(s))
  {
    assert s.projected + s.dispatching + (s.committed + s.pending) == s.history + s.pending;
    if s.dispatching == [] { assert s.projected + s.committed + [] == s.projected + [] + s.committed; }
  }

  lemma ProjectionKeepsBalance(s: Session)
    requires Balanced(s) && s.dispatching != []
    ensures Balanced(s.(dispatching := s.dispatching[1..], projected := s.projected + [s.dispatching[0]]))
  {
    assert s.dispatching == [s.dispatching[0]] + s.dispatching[1..];
  }

  lemma ApplyKeepsSession(reg: Registry, w: World, step: Step, sid: int)
    requires sid in w.sessions && SessionInv(w, sid)
    ensures sid in Apply(reg, w, step).sessions && SessionInv(Apply(reg, w, step), sid)
    ensures Apply(reg, w, step).sessions[sid].origin == w.sessions[sid].origin
  {
    var s := w.sessions[sid];
    if step.Record? { BufferKeepsBalance(s, step.event); }
    else if step.Commit? || step.Rollback? || step.Dispatch? { BufferKeepsBalance(s, Event(SummaryGenerated, map[])); }
    else if step.ProjectNext? && s.dispatching != [] { ProjectionKeepsBalance(s); }
  }

  /** The effect of one step on what a session has announced. */
  lemma StepHistory(reg: Registry, w: World, step: Step, sid: int)
    requires sid in w.sessions && SessionInv(w, sid)
    ensures var s, s' := w.sessions[sid], Apply(reg, w, step).sessions[sid];
            && s'.history == (if step == Commit(sid) then s.history + s.pending else s.history)
            && s'.open == (if step == Begin(sid) then true
                           else if step == Commit(sid) || step == Rollback(sid) then false else s.open)
            && s'.pending == (if step == Commit(sid) || step == Rollback(sid) then []
                              else if step.Record? && step.session == sid && s.open && Recordable(step.event)
                              then s.pending + [step.event] else s.pending)
  {
  }

  lemma RecordableExactlyWhen(ev: Event)
    ensures Recordable(ev) <==> Announceable(ev)
  {
    if Announceable(ev) { assert ev.fields.Keys == FieldNames(ev.kind); }
  }

  lemma {:induction false} RunHistory(reg: Registry, w: World, steps: seq<Step>, sid: int)
    requires sid in w.sessions && SessionInv(w, sid)
    ensures var w' := Run(reg, w, steps);
            && sid in w'.sessions && SessionInv(w', sid)
            && w'.sessions[sid].history
               == w.sessions[sid].history + (if Fate(steps, sid) == Some(true) then w.sessions[sid].pending else [])
                  + Survivors(steps, sid, w.sessions[sid].open)
    decreases |steps|
  {
    hide Apply, Balanced, Recordable, Announceable;
    if steps != [] {
      ApplyKeepsSession(reg, w, steps[0], sid);
      StepHistory(reg, w, steps[0], sid);
      if steps[0].Record? { RecordableExactlyWhen(steps[0].event); }
      RunHistory(reg, Apply(reg, w, steps[0]), steps[1..], sid);
    }
  }

  // ── The bus ───────────────────────────────────────────────────────────────

  ghost predicate BusCarries(w: World, sid: int) {
    OfSession(w.bus, sid) == if sid in w.sessions then w.sessions[sid].history else []
  }

  lemma ApplyKeepsBus(reg: Registry, w: World, step: Step, sid: int)
    requires BusCarries(w, sid)
    ensures BusCarries(Apply(reg, w, step), sid)
  {
    if step.Commit? && step.session in w.sessions && w.sessions[step.session].open {
      var s := w.sessions[step.session];
      KeptConcat(BySession(sid), w.bus, Notices(step.session, s.origin, s.pending));
      NoticesOfSession(step.session, s.origin, s.pending, sid);
    }
  }

  // ── The peers ─────────────────────────────────────────────────────────────

  lemma {:induction false} StretchesStand(bus: seq<Notice>, more: seq<Notice>, spans: seq<Span>)
    requires forall span | span in spans :: span.start <= span.end <= |bus|
    ensures Stretches(bus + more, spans) == Stretches(bus, spans)
  {
    if spans != [] {
      var n := |spans| - 1;
      StretchesStand(bus, more, spans[..n]);
      assert (bus + more)[spans[n].start..spans[n].end] == bus[spans[n].start..spans[n].end];
    }
  }

  /** f tells what the replica rebuilds from a payload. */
  ghost predicate Heard(f: Descriptor -> Option<Event>, r: Replica, bus: seq<Notice>, name: string) {
    SpansFollow(r, bus) && r.relayed + Kept(f, r.queue) == OfOthers(Subscribed(r, bus), name)
  }

  ghost predicate PeerExact(w: World, name: string) {
    name in w.replicas ==> Heard(Relay(name), w.replicas[name], w.bus, name)
  }

  lemma PublishedIsHeard(f: Descriptor -> Option<Event>, r: Replica, payloads: seq<Descriptor>,
                         bus: seq<Notice>, notices: seq<Notice>, name: string)
    requires Heard(f, r, bus, name) && r.listening && Kept(f, payloads) == OfOthers(notices, name)
    ensures Heard(f, r.(queue := r.queue + payloads), bus + notices, name)
  {
    hide Kept;
    StretchesStand(bus, notices, r.spans);
    assert (bus + notices)[r.from..] == bus[r.from..] + notices;
    assert Subscribed(r, bus + notices) == Subscribed(r, bus) + notices;
    KeptConcat(ByOthers(name), Subscribed(r, bus), notices);
    KeptConcat(f, r.queue, payloads);
  }

  lemma SilentMissesNothing(f: Descriptor -> Option<Event>, r: Replica, bus: seq<Notice>, notices: seq<Notice>,
                            name: string)
    requires Heard(f, r, bus, name) && !r.listening
    ensures Heard(f, r, bus + notices, name)
  {
    StretchesStand(bus, notices, r.spans);
  }

  lemma CommitKeepsPeer(w: World, sid: int, name: string)
    requires sid in w.sessions && AllRecordable(w.sessions[sid].pending) && PeerExact(w, name)
    ensures PeerExact(CommitSession(w, sid), name)
  {
    var s := w.sessions[sid];
    if s.open && name in w.replicas {
      var notices := Notices(sid, s.origin, s.pending);
      if w.replicas[name].listening {
        DescriptorsRebuild(s.origin, s.pending, name);
        NoticesOfOthers(sid, s.origin, s.pending, name);
        PublishedIsHeard(Relay(name), w.replicas[name], Descriptors(s.origin, s.pending), w.bus, notices, name);
      } else {
        SilentMissesNothing(Relay(name), w.replicas[name], w.bus, notices, name);
      }
    }
  }

  lemma TakingIsHeard(f: Descriptor -> Option<Event>, r: Replica, r': Replica, bus: seq<Notice>, name: string)
    requires Heard(f, r, bus, name) && r.queue != [] && r'.queue == r.queue[1..]
    requires r'.listening == r.listening && r'.from == r.from && r'.spans == r.spans
    requires r'.relayed == r.relayed + if f(r.queue[0]).Some? then [f(r.queue[0]).value] else []
    ensures Heard(f, r', bus, name)
  {
    hide Kept, Stretches, OfOthers;
    assert Subscribed(r', bus) == Subscribed(r, bus);
    KeptHead(f, r.queue);
    HeadMoves(r.relayed, if f(r.queue[0]).Some? then [f(r.queue[0]).value] else [], Kept(f, r.queue[1..]));
  }

  lemma HeadMoves<T>(a: seq<T>, b: seq<T>, c: seq<T>)
    ensures a + (b + c) == (a + b) + c
  {
  }

  lemma ConsumeFields(reg: Registry, r: Replica, name: string)
    requires r.queue != []
    ensures var r', heard := ConsumeOne(reg, r, name), Relay(name)(r.queue[0]);
            && r'.queue == r.queue[1..] && r'.listening == r.listening && r'.from == r.from && r'.spans == r.spans
            && r'.relayed == r.relayed + if heard.Some? then [heard.value] else []
  {
  }

  /** A subscription begins with an empty stretch, and its end closes the stretch it heard. */
  lemma ConnectionHearsTheSame(r: Replica, bus: seq<Notice>)
    requires SpansFollow(r, bus)
    ensures var r' := if r.listening then Silenced(r, |bus|) else r.(listening := true, from := |bus|);
            SpansFollow(r', bus) && Subscribed(r', bus) == Subscribed(r, bus)
  {
    if r.listening { SilenceHearsTheSame(r, bus); } else { assert bus[|bus|..] == []; }
    hide Stretches, Silenced;
  }

  lemma SilenceHearsTheSame(r: Replica, bus: seq<Notice>)
    requires SpansFollow(r, bus) && r.listening
    ensures SpansFollow(Silenced(r, |bus|), bus) && Subscribed(Silenced(r, |bus|), bus) == Subscribed(r, bus)
  {
    var closed := Silenced(r, |bus|);
    assert SpansFollow(closed, bus) by { hide Stretches; }
    assert closed.spans[..|r.spans|] == r.spans;
    assert Stretches(bus, closed.spans) == Stretches(bus, r.spans) + bus[r.from..|bus|];
    assert bus[r.from..|bus|] == bus[r.from..];
    hide Stretches;
  }

  lemma ApplyKeepsPeer(reg: Registry, w: World, step: Step, name: string)
    requires PeerExact(w, name) && forall sid | sid in w.sessions :: SessionInv(w, sid)
    ensures PeerExact(Apply(reg, w, step), name)
  {
    if step.Commit? && step.session in w.sessions {
      assert SessionInv(w, step.session);
      CommitKeepsPeer(w, step.session, name);
    } else if step == Consume(name) && name in w.replicas {
      var r := w.replicas[name];
      if r.queue != [] {
        ConsumeFields(reg, r, name);
        TakingIsHeard(Relay(name), r, ConsumeOne(reg, r, name), w.bus, name);
      }
    } else if (step == Listen(name) || step == Silence(name)) && name in w.replicas {
      ConnectionHearsTheSame(w.replicas[name], w.bus);
    }
  }

  // ── Acting handlers ───────────────────────────────────────────────────────

  lemma {:induction false} RelayedNeverActs(handlers: seq<int>, localOnly: set<int>)
    ensures forall i | 0 <= i < |Eligible(handlers, localOnly, false)| ::
              Eligible(handlers, localOnly, false)[i] !in localOnly
  {
    if handlers != [] { RelayedNeverActs(handlers[..|handlers| - 1], localOnly); }
  }

  lemma {:induction false} NoActs(invoked: seq<Invocation>, localOnly: set<int>)
    requires forall i | 0 <= i < |invoked| :: invoked[i].handler !in localOnly
    ensures Acts(invoked, localOnly) == []
  {
    if invoked != [] { NoActs(invoked[..|invoked| - 1], localOnly); }
  }

  function LocalEvents(local: seq<Projection>): seq<Event> {
    Mapped(EventOf(), local)
  }

  /** Every acting invocation on a replica comes from one of its local projections, once each. */
  ghost predicate ActsAreLocal(reg: Registry, w: World, name: string) {
    name in w.replicas ==>
      Acts(w.replicas[name].invoked, reg.localOnly) == ActsFor(reg, LocalEvents(w.replicas[name].local))
  }

  lemma ConsumeKeepsActs(reg: Registry, r: Replica, name: string)
    ensures ConsumeOne(reg, r, name).local == r.local
    ensures Acts(ConsumeOne(reg, r, name).invoked, reg.localOnly) == Acts(r.invoked, reg.localOnly)
  {
    if r.queue != [] && Relayed(r.queue[0], name).Some? {
      var ev := Relayed(r.queue[0], name).value;
      RelayedNeverActs(Subscribers(reg, ev), reg.localOnly);
      NoActs(Project(reg, ev, false), reg.localOnly);
      KeptConcat(Acting(reg.localOnly), r.invoked, Project(reg, ev, false));
    }
  }

  lemma ProjectionActs(reg: Registry, invoked: seq<Invocation>, local: seq<Event>, ev: Event)
    requires Acts(invoked, reg.localOnly) == ActsFor(reg, local)
    ensures Acts(invoked + Project(reg, ev, true), reg.localOnly) == ActsFor(reg, local + [ev])
  {
    KeptConcat(Acting(reg.localOnly), invoked, Project(reg, ev, true));
    assert (local + [ev])[..|local|] == local;
  }

  lemma ApplyKeepsActs(reg: Registry, w: World, step: Step, name: string)
    requires ActsAreLocal(reg, w, name)
    ensures ActsAreLocal(reg, Apply(reg, w, step), name)
  {
    if step == Consume(name) && name in w.replicas {
      ConsumeKeepsActs(reg, w.replicas[name], name);
    } else if step.ProjectNext? && step.session in w.sessions && w.sessions[step.session].origin == name {
      var s := w.sessions[step.session];
      if s.dispatching != [] && name in w.replicas {
        var local := w.replicas[name].local;
        MappedAppend(EventOf(), local, Projection(step.session, s.dispatching[0]));
        ProjectionActs(reg, w.replicas[name].invoked, LocalEvents(local), s.dispatching[0]);
      }
    }
  }

  /** What a replica projected for a session is what that session of its own projected; for a session
      of another replica, or none, nothing. */
  ghost predicate LocalIsOwn(w: World, name: string, sid: int) {
    name in w.replicas ==>
      Kept(ProjectedFor(sid), w.replicas[name].local)
      == if sid in w.sessions && w.sessions[sid].origin == name then w.sessions[sid].projected else []
  }

  lemma ApplyKeepsLocal(reg: Registry, w: World, step: Step, name: string, sid: int)
    requires LocalIsOwn(w, name, sid) && (sid in w.sessions ==> w.sessions[sid].origin in w.replicas)
    ensures LocalIsOwn(Apply(reg, w, step), name, sid)
  {
    if step.ProjectNext? && step.session in w.sessions && w.sessions[step.session].dispatching != [] {
      var s := w.sessions[step.session];
      hide Kept;
      if name in w.replicas {
        KeptAppend(ProjectedFor(sid), w.replicas[name].local, Projection(step.session, s.dispatching[0]));
      }
    } else if name in w.replicas {
      hide Kept;
      OnlyDispatchProjects(reg, w, step, name, sid);
    }
  }

  lemma OnlyDispatchProjects(reg: Registry, w: World, step: Step, name: string, sid: int)
    requires step.ProjectNext? ==> step.session !in w.sessions || w.sessions[step.session].dispatching == []
    requires name in w.replicas
    ensures name in Apply(reg, w, step).replicas
    ensures Apply(reg, w, step).replicas[name].local == w.replicas[name].local
    ensures var w' := Apply(reg, w, step);
            if sid in w.sessions then
              && sid in w'.sessions && w'.sessions[sid].origin == w.sessions[sid].origin
              && w'.sessions[sid].projected == w.sessions[sid].projected
            else sid in w'.sessions ==> w'.sessions[sid].projected == []
  {
  }

  // ── Which handlers run ────────────────────────────────────────────────────

  lemma InvokedConcat(a: seq<int>, b: seq<int>, ev: Event)
    ensures Invoked(a + b, ev) == Invoked(a, ev) + Invoked(b, ev)
  {
  }

  lemma {:induction false} EligibleRunsHandler(h: int, handlers: seq<int>, localOnly: set<int>, local: bool, ev: Event)
    ensures HandledBy(h, Invoked(Eligible(handlers, localOnly, local), ev))
            == Repeated(ev, if local || h !in localOnly then multiset(handlers)[h] else 0)
  {
    if handlers == [] {
      assert Invoked([], ev) == [];
    } else {
      var n := |handlers| - 1;
      var before := Eligible(handlers[..n], localOnly, local);
      var last := if !local && handlers[n] in localOnly then [] else [handlers[n]];
      EligibleRunsHandler(h, handlers[..n], localOnly, local, ev);
      CountOneMore(h, handlers);
      InvokedConcat(before, last, ev);
      OneInvocation(h, last, ev);
      hide Kept, Invoked;
      KeptConcat(ByHandler(h), Invoked(before, ev), Invoked(last, ev));
    }
  }

  lemma CountOneMore(h: int, handlers: seq<int>)
    requires handlers != []
    ensures var n := |handlers| - 1;
            multiset(handlers)[h] == multiset(handlers[..n])[h] + if handlers[n] == h then 1 else 0
  {
    var n := |handlers| - 1;
    assert handlers == handlers[..n] + [handlers[n]];
    assert multiset(handlers) == multiset(handlers[..n]) + multiset{handlers[n]};
  }

  lemma OneInvocation(h: int, handlers: seq<int>, ev: Event)
    requires |handlers| <= 1
    ensures HandledBy(h, Invoked(handlers, ev)) == if handlers != [] && handlers[0] == h then [ev] else []
  {
    if handlers != [] {
      var only := Invocation(handlers[0], ev);
      assert Invoked(handlers, ev) == [] + [only];
      KeptAppend(ByHandler(h), [], only);
    }
  }

  /** One projection runs a handler as often as the event's kind lists it, if it may run there. */
  lemma ProjectionRunsHandler(reg: Registry, h: int, ev: Event, local: bool)
    ensures HandledBy(h, Project(reg, ev, local))
            == Repeated(ev, if local || h !in reg.localOnly then Listings(reg, h, ev) else 0)
  {
    EligibleRunsHandler(h, Subscribers(reg, ev), reg.localOnly, local, ev);
  }

  /** Every handler has run for what it is listed for: a projection for every arrival, an acting handler
      for the replica's own events. */
  ghost predicate HandlersRan(reg: Registry, r: Replica, h: int) {
    && (h !in reg.localOnly ==> HandledBy(h, r.invoked) == ListedFor(reg, h, Mapped(ArrivalEvent(), r.arrivals)))
    && (h in reg.localOnly ==> HandledBy(h, r.invoked) == ListedFor(reg, h, LocalEvents(r.local)))
  }

  ghost predicate ArrivalsSplit(r: Replica) {
    Kept(OwnArrival(), r.arrivals) == r.local && Kept(PeerArrival(), r.arrivals) == r.relayed
  }

  ghost predicate ReplicaRan(reg: Registry, w: World, name: string) {
    name in w.replicas ==> ArrivalsSplit(w.replicas[name]) && forall h :: HandlersRan(reg, w.replicas[name], h)
  }

  lemma ListedForOneMore(reg: Registry, h: int, events: seq<Event>, ev: Event)
    ensures ListedFor(reg, h, events + [ev]) == ListedFor(reg, h, events) + Repeated(ev, Listings(reg, h, ev))
  {
    assert (events + [ev])[..|events|] == events;
  }

  /** One more projection of an own event, or of a peer's. */
  lemma ArrivalRuns(reg: Registry, r: Replica, r': Replica, a: Arrival, h: int)
    requires HandlersRan(reg, r, h) && r'.arrivals == r.arrivals + [a]
    requires r'.local == if a.Own? then r.local + [Projection(a.session, a.event)] else r.local
    requires r'.invoked == r.invoked + Project(reg, a.event, a.Own?)
    ensures HandlersRan(reg, r', h)
  {
    hide Project, Kept, ListedFor, Mapped, Listings;
    ProjectionRunsHandler(reg, h, a.event, a.Own?);
    KeptConcat(ByHandler(h), r.invoked, Project(reg, a.event, a.Own?));
    MappedAppend(ArrivalEvent(), r.arrivals, a);
    ListedForOneMore(reg, h, Mapped(ArrivalEvent(), r.arrivals), a.event);
    if a.Own? {
      MappedAppend(EventOf(), r.local, Projection(a.session, a.event));
      ListedForOneMore(reg, h, LocalEvents(r.local), a.event);
    }
  }

  lemma ArrivalSplits(r: Replica, r': Replica, a: Arrival)
    requires ArrivalsSplit(r) && r'.arrivals == r.arrivals + [a]
    requires r'.local == if a.Own? then r.local + [Projection(a.session, a.event)] else r.local
    requires r'.relayed == if a.Peer? then r.relayed + [a.event] else r.relayed
    ensures ArrivalsSplit(r')
  {
    hide Kept;
    KeptAppend(OwnArrival(), r.arrivals, a);
    KeptAppend(PeerArrival(), r.arrivals, a);
  }

  /** What one step does to a replica's projections: nothing, or one arrival. */
  lemma StepArrives(reg: Registry, w: World, step: Step, name: string)
    requires name in w.replicas
    ensures name in Apply(reg, w, step).replicas
    ensures var r, r' := w.replicas[name], Apply(reg, w, step).replicas[name];
            || (r'.arrivals == r.arrivals && r'.local == r.local && r'.relayed == r.relayed && r'.invoked == r.invoked)
            || exists a ::
                 && r'.arrivals == r.arrivals + [a]
                 && r'.local == (if a.Own? then r.local + [Projection(a.session, a.event)] else r.local)
                 && r'.relayed == (if a.Peer? then r.relayed + [a.event] else r.relayed)
                 && r'.invoked == r.invoked + Project(reg, a.event, a.Own?)
  {
    hide Project, Relayed;
    var r, r' := w.replicas[name], Apply(reg, w, step).replicas[name];
    if step == Consume(name) && r.queue != [] && Relayed(r.queue[0], name).Some? {
      assert r'.arrivals == r.arrivals + [Peer(Relayed(r.queue[0], name).value)];
    } else if step.ProjectNext? && step.session in w.sessions && w.sessions[step.session].origin == name
              && w.sessions[step.session].dispatching != [] {
      assert r'.arrivals == r.arrivals + [Own(step.session, w.sessions[step.session].dispatching[0])];
    }
  }

  lemma ApplyKeepsRan(reg: Registry, w: World, step: Step, name: string)
    requires ReplicaRan(reg, w, name)
    ensures ReplicaRan(reg, Apply(reg, w, step), name)
  {
    if name in w.replicas {
      hide Apply, HandlersRan, ArrivalsSplit, Project;
      StepArrives(reg, w, step, name);
      StepKeepsRan(reg, w.replicas[name], Apply(reg, w, step).replicas[name]);
    } else if step == Boot(name) {
      FreshReplicaRan(reg);
    }
  }

  lemma FreshReplicaRan(reg: Registry)
    ensures var r := Replica(false, 0, [], [], [], [], [], []); ArrivalsSplit(r) && forall h :: HandlersRan(reg, r, h)
  {
  }

  lemma StepKeepsRan(reg: Registry, r: Replica, r': Replica)
    requires ArrivalsSplit(r) && forall h :: HandlersRan(reg, r, h)
    requires || (r'.arrivals == r.arrivals && r'.local == r.local && r'.relayed == r.relayed && r'.invoked == r.invoked)
             || exists a ::
                  && r'.arrivals == r.arrivals + [a]
                  && r'.local == (if a.Own? then r.local + [Projection(a.session, a.event)] else r.local)
                  && r'.relayed == (if a.Peer? then r.relayed + [a.event] else r.relayed)
                  && r'.invoked == r.invoked + Project(reg, a.event, a.Own?)
    ensures ArrivalsSplit(r') && forall h :: HandlersRan(reg, r', h)
  {
    if r'.arrivals == r.arrivals && r'.local == r.local && r'.relayed == r.relayed && r'.invoked == r.invoked {
      forall h ensures HandlersRan(reg, r', h) { assert HandlersRan(reg, r, h); }
    } else {
      hide HandlersRan, ArrivalsSplit, Project;
      var a :| && r'.arrivals == r.arrivals + [a]
               && r'.local == (if a.Own? then r.local + [Projection(a.session, a.event)] else r.local)
               && r'.relayed == (if a.Peer? then r.relayed + [a.event] else r.relayed)
               && r'.invoked == r.invoked + Project(reg, a.event, a.Own?);
      ArrivalSplits(r, r', a);
      forall h ensures HandlersRan(reg, r', h) { ArrivalRuns(reg, r, r', a, h); }
    }
  }

  // ── Whole runs ────────────────────────────────────────────────────────────

  ghost predicate WorldInv(reg: Registry, w: World) {
    && (forall sid | sid in w.sessions :: SessionInv(w, sid))
    && (forall sid :: BusCarries(w, sid))
    && (forall name :: PeerExact(w, name))
    && (forall name :: ActsAreLocal(reg, w, name))
    && (forall name, sid :: LocalIsOwn(w, name, sid))
    && (forall name :: ReplicaRan(reg, w, name))
  }

  lemma ApplyKeepsWorld(reg: Registry, w: World, step: Step)
    requires WorldInv(reg, w)
    ensures WorldInv(reg, Apply(reg, w, step))
  {
    var w' := Apply(reg, w, step);
    forall sid | sid in w'.sessions ensures SessionInv(w', sid) {
      if sid in w.sessions { ApplyKeepsSession(reg, w, step, sid); }
    }
    forall sid ensures BusCarries(w', sid) { ApplyKeepsBus(reg, w, step, sid); }
    forall name ensures PeerExact(w', name) { ApplyKeepsPeer(reg, w, step, name); }
    forall name ensures ActsAreLocal(reg, w', name) { ApplyKeepsActs(reg, w, step, name); }
    forall name, sid ensures LocalIsOwn(w', name, sid) {
      assert sid in w.sessions ==> SessionInv(w, sid);
      ApplyKeepsLocal(reg, w, step, name, sid);
    }
    forall name ensures ReplicaRan(reg, w', name) { ApplyKeepsRan(reg, w, step, name); }
  }

  lemma {:induction false} RunKeepsWorld(reg: Registry, w: World, steps: seq<Step>)
    requires WorldInv(reg, w)
    ensures WorldInv(reg, Run(reg, w, steps))
    decreases |steps|
  {
    if steps != [] {
      ApplyKeepsWorld(reg, w, steps[0]);
      RunKeepsWorld(reg, Apply(reg, w, steps[0]), steps[1..]);
    }
  }

  lemma EmptyWorld(reg: Registry)
    ensures WorldInv(reg, EMPTY)
  {
  }

  lemma ReachableWorld(reg: Registry, steps: seq<Step>)
    ensures WorldInv(reg, Run(reg, EMPTY, steps))
  {
    EmptyWorld(reg);
    RunKeepsWorld(reg, EMPTY, steps);
  }

  lemma SessionOfWorld(reg: Registry, w: World, sid: int)
    requires WorldInv(reg, w) && sid in w.sessions
    ensures SessionInv(w, sid) && OfSession(w.bus, sid) == w.sessions[sid].history
  {
    assert BusCarries(w, sid);
  }

  lemma FreshSession(reg: Registry, w: World, sid: int, name: string)
    requires WorldInv(reg, w) && sid !in w.sessions && name in w.replicas
    ensures var w' := Apply(reg, w, OpenSession(sid, name));
            && WorldInv(reg, w') && sid in w'.sessions
            && w'.sessions[sid] == Session(name, false, [], [], [], [], [])
  {
    ApplyKeepsWorld(reg, w, OpenSession(sid, name));
  }

  lemma SessionRunsExactly(reg: Registry, w: World, sid: int, steps: seq<Step>)
    requires WorldInv(reg, w) && sid in w.sessions
    requires !w.sessions[sid].open && w.sessions[sid].pending == [] && w.sessions[sid].history == []
    ensures var w' := Run(reg, w, steps);
            && sid in w'.sessions
            && var s := w'.sessions[sid];
               && s.projected + s.dispatching + s.committed == Survivors(steps, sid, false)
               && OfSession(w'.bus, sid) == Survivors(steps, sid, false)
  {
    hide WorldInv, Run, OfSession, Survivors, Fate;
    RunKeepsWorld(reg, w, steps);
    SessionOfWorld(reg, w, sid);
    RunHistory(reg, w, steps, sid);
    SessionOfWorld(reg, Run(reg, w, steps), sid);
  }

  // ── Main results ──────────────────────────────────────────────────────────

  /** From the moment a session opens: what it has projected, is dispatching and still holds as
      committed is, in order, exactly the events recorded in transactions that ended in a commit; and
      the bus carries exactly those, in that order. */
  lemma OriginIsExact(reg: Registry, before: seq<Step>, sid: int, name: string, after: seq<Step>)
    requires var w := Run(reg, EMPTY, before); sid !in w.sessions && name in w.replicas
    ensures var w' := Run(reg, Apply(reg, Run(reg, EMPTY, before), OpenSession(sid, name)), after);
            && sid in w'.sessions
            && var s := w'.sessions[sid];
               && s.projected + s.dispatching + s.committed == Survivors(after, sid, false)
               && OfSession(w'.bus, sid) == Survivors(after, sid, false)
  {
    var w := Run(reg, EMPTY, before);
    ReachableWorld(reg, before);
    FreshSession(reg, w, sid, name);
    SessionRunsExactly(reg, Apply(reg, w, OpenSession(sid, name)), sid, after);
  }

  /** Whatever its connection went through, a replica has relayed, followed by what is still in its
      queue, exactly the other replicas' events committed while it was subscribed, in commit order: none
      lost, none doubled, none of its own. */
  lemma PeersAreExact(reg: Registry, steps: seq<Step>, name: string)
    requires name in Run(reg, EMPTY, steps).replicas
    ensures var w := Run(reg, EMPTY, steps);
            var r := w.replicas[name];
            SpansFollow(r, w.bus) && r.relayed + Rebuilt(r.queue, name) == OfOthers(Subscribed(r, w.bus), name)
  {
    ReachableWorld(reg, steps);
    assert PeerExact(Run(reg, EMPTY, steps), name);
  }

  /** Acting handlers run on the origin replica alone, whatever its peers relay to it: there, once for
      each local projection; and the local projections interleave, session by session, a prefix of what
      each of its own sessions committed, so that no committed event is acted on twice. */
  lemma ActingHandlersRunOnlyAtOrigin(reg: Registry, steps: seq<Step>, name: string)
    requires name in Run(reg, EMPTY, steps).replicas
    ensures var w := Run(reg, EMPTY, steps);
            var local := w.replicas[name].local;
            && Acts(w.replicas[name].invoked, reg.localOnly) == ActsFor(reg, LocalEvents(local))
            && (forall sid | sid in w.sessions && w.sessions[sid].origin == name ::
                  Kept(ProjectedFor(sid), local) <= w.sessions[sid].history)
            && (forall p | p in local :: p.session in w.sessions && w.sessions[p.session].origin == name)
            && (forall sid | sid in w.sessions && w.sessions[sid].origin == name
                             && w.sessions[sid].dispatching == [] && w.sessions[sid].committed == [] ::
                  Kept(ProjectedFor(sid), local) == w.sessions[sid].history)
  {
    ReachableWorld(reg, steps);
    var w := Run(reg, EMPTY, steps);
    var local := w.replicas[name].local;
    assert ActsAreLocal(reg, w, name);
    hide ActsFor, Acts, SessionInv, BusCarries, PeerExact;
    forall sid | sid in w.sessions && w.sessions[sid].origin == name
      ensures Kept(ProjectedFor(sid), local) <= w.sessions[sid].history
      ensures w.sessions[sid].dispatching == [] && w.sessions[sid].committed == [] ==>
                Kept(ProjectedFor(sid), local) == w.sessions[sid].history
    {
      ProjectedIsCommitted(reg, w, name, sid);
    }
    forall p | p in local ensures p.session in w.sessions && w.sessions[p.session].origin == name {
      assert LocalIsOwn(w, name, p.session);
      KeptFinds(ProjectedFor(p.session), local, p);
    }
  }

  lemma ProjectedIsCommitted(reg: Registry, w: World, name: string, sid: int)
    requires WorldInv(reg, w) && name in w.replicas && sid in w.sessions && w.sessions[sid].origin == name
    ensures var s, kept := w.sessions[sid], Kept(ProjectedFor(sid), w.replicas[name].local);
            kept + s.dispatching + s.committed == s.history
  {
    assert LocalIsOwn(w, name, sid);
    SessionOfWorld(reg, w, sid);
  }

  /** Every handler runs for exactly what it is subscribed to. On any replica, what has been projected is
      its own sessions' events and its peers', merged in some order; a projection handler has run, in that
      order, for each of them whose kind lists it; an acting handler for each of its own. */
  lemma HandlersRunAsListed(reg: Registry, steps: seq<Step>, name: string, h: int)
    requires name in Run(reg, EMPTY, steps).replicas
    ensures var r := Run(reg, EMPTY, steps).replicas[name];
            && Kept(OwnArrival(), r.arrivals) == r.local && Kept(PeerArrival(), r.arrivals) == r.relayed
            && HandledBy(h, r.invoked)
               == ListedFor(reg, h, if h in reg.localOnly then LocalEvents(r.local) else Mapped(ArrivalEvent(), r.arrivals))
  {
    hide Run, Kept, ListedFor, Mapped;
    ReachableWorld(reg, steps);
    assert ReplicaRan(reg, Run(reg, EMPTY, steps), name);
    assert HandlersRan(reg, Run(reg, EMPTY, steps).replicas[name], h);
  }

  lemma {:induction false} RepeatedHas(ev: Event, n: nat)
    requires n > 0
    ensures ev in Repeated(ev, n)
  {
  }

  lemma {:induction false} ListedForHas(reg: Registry, h: int, events: seq<Event>, ev: Event)
    requires ev in events && ev.kind in reg.subscribers && h in reg.subscribers[ev.kind]
    ensures ev in ListedFor(reg, h, events)
  {
    var n := |events| - 1;
    if ev in events[..n] {
      ListedForHas(reg, h, events[..n], ev);
    } else {
      assert h in multiset(reg.subscribers[ev.kind]);
      RepeatedHas(ev, Listings(reg, h, ev));
    }
  }

  lemma {:induction false} HandledWasInvoked(h: int, invoked: seq<Invocation>, ev: Event)
    requires ev in HandledBy(h, invoked)
    ensures Invocation(h, ev) in invoked
  {
    var n := |invoked| - 1;
    if ev in HandledBy(h, invoked[..n]) { HandledWasInvoked(h, invoked[..n], ev); }
  }

  lemma {:induction false} PeerArrived(arrivals: seq<Arrival>, ev: Event)
    requires ev in Kept(PeerArrival(), arrivals)
    ensures ev in Mapped(ArrivalEvent(), arrivals)
  {
    var n := |arrivals| - 1;
    if ev in Kept(PeerArrival(), arrivals[..n]) { PeerArrived(arrivals[..n], ev); }
  }

  /** In particular, whatever a peer relays reaches every subscribed projection. */
  lemma RelayedEventsAreProjected(reg: Registry, steps: seq<Step>, name: string, ev: Event, h: int)
    requires name in Run(reg, EMPTY, steps).replicas && ev in Run(reg, EMPTY, steps).replicas[name].relayed
    requires ev.kind in reg.subscribers && h in reg.subscribers[ev.kind] && h !in reg.localOnly
    ensures Invocation(h, ev) in Run(reg, EMPTY, steps).replicas[name].invoked
  {
    hide Run, Kept, ListedFor, Mapped;
    HandlersRunAsListed(reg, steps, name, h);
    var r := Run(reg, EMPTY, steps).replicas[name];
    PeerArrived(r.arrivals, ev);
    ListedForHas(reg, h, Mapped(ArrivalEvent(), r.arrivals), ev);
    HandledWasInvoked(h, r.invoked, ev);
  }

  /** A replica rebuilds an event from a payload exactly when the payload is of version 1, of another origin,
      names the event's class and brings the value of each of its fields. */
  lemma RelayedExactlyWhen(d: Descriptor, name: string, ev: Event)
    ensures Relayed(d, name) == Some(ev)
            <==> && "v" in d && d["v"] == Number(1)
                 && ("origin" in d ==> d["origin"] != Text(name))
                 && "event" in d && d["event"] == Text(EventName(ev.kind))
                 && (forall f :: f in ev.fields <==> f in FieldNames(ev.kind))
                 && (forall f | f in ev.fields :: f in d && d[f] == ev.fields[f])
  {
    KindIsListed(ev.kind);
    KindNamedFindsKind(KINDS, ev.kind);
    if Relayed(d, name).Some? { OnlyKnownEventsAreRebuilt(d); }
    hide KindNamed, FieldNames, EventName;
    if (forall f :: f in ev.fields <==> f in FieldNames(ev.kind))
       && (forall f | f in ev.fields :: f in d && d[f] == ev.fields[f])
    {
      assert ev.fields == map f | f in FieldNames(ev.kind) :: d[f];
    }
  }
}
