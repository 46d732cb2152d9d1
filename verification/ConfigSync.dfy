/** One replica's runtime-config caches, kept in step with the database by LISTEN/NOTIFY: saves, the
    wire, the listener's bounded queue, and every task that refreshes a cache - the consumer, the
    reconnect hook, and each request that saves settings here - with its read and its install as
    separate steps. */
module ConfigSync {
  import opened Wrappers

  type Scope = string

  const SCOPES := ["proxy", "siem", "email", "general", "llm", "oidc"]

  const QUEUE_MAXSIZE := 1000

  /** What travels on the bus: a rewritten scope, or traffic of the events channel. */
  datatype Notice = Changed(scope: Scope) | Other

  datatype TaskId = Consumer | Hook | Request(n: nat)

  /** One task's refresh of a scope: the row is still to be read, or its value is held and still to be
      installed in the cache. read is history: which read of the scope returned the value. */
  datatype Task = Asked(scope: Scope) | Holding(scope: Scope, value: int, read: nat)

  /** tasks are the refreshes in progress. The last three are history. missed: scopes saved while this
      replica could not be told, or whose notification or read was lost. seen: what the successive
      reads of a scope returned. shown: the read whose value is in the cache. */
  datatype Replica = Replica(
    db: map<Scope, int>,
    cache: map<Scope, int>,
    firstConnect: bool,
    connected: bool,
    wire: seq<Notice>,
    queue: seq<Notice>,
    remaining: seq<Scope>,
    tasks: map<TaskId, Task>,
    missed: set<Scope>,
    seen: map<Scope, seq<int>>,
    shown: map<Scope, nat>)

  datatype Step =
    | Save(scope: Scope, value: int)
    | SaveHere(request: nat, scope: Scope, value: int)
    | Publish
    | Receive
    | Load(scope: Scope)
    | Connect
    | Disconnect
    | HookNext
    | Take
    | Read(task: TaskId)
    | Install(task: TaskId)
    | Fail(task: TaskId)

  predicate Known(scope: Scope) {
    scope in SCOPES
  }

  function Announced(notices: seq<Notice>): set<Scope> {
    set n | n in notices && n.Changed? && Known(n.scope) :: n.scope
  }

  function ReadsOf(r: Replica, s: Scope): seq<int> {
    if s in r.seen then r.seen[s] else []
  }

  /** A save commits its row and its notification together; only a subscriber is sent it. */
  function SaveScope(r: Replica, scope: Scope, value: int): Replica {
    r.(db := r.db[scope := value],
       wire := if r.connected then r.wire + [Changed(scope)] else r.wire,
       missed := if r.connected then r.missed else r.missed + {scope})
  }

  /** A request that saves settings on this replica goes on to refresh the cache itself. */
  function SaveScopeHere(r: Replica, request: nat, scope: Scope, value: int): Replica {
    if Request(request) in r.tasks then r
    else SaveScope(r, scope, value).(tasks := r.tasks[Request(request) := Asked(scope)])
  }

  /** The connection's callback hands one notification over, or drops it if the queue is full. */
  function ReceiveNotice(r: Replica): Replica {
    if r.wire == [] then r
    else
      var full := |r.queue| >= QUEUE_MAXSIZE;
      r.(wire := r.wire[1..],
         queue := if full then r.queue else r.queue + [r.wire[0]],
         missed := if full then r.missed + Announced([r.wire[0]]) else r.missed)
  }

  /** One more read of the scope's row. */
  function NoteRead(r: Replica, s: Scope): Replica
    requires s in r.db
  {
    r.(seen := r.seen[s := ReadsOf(r, s) + [r.db[s]]], missed := r.missed - {s})
  }

  function Put(r: Replica, s: Scope, value: int, read: nat): Replica {
    r.(cache := r.cache[s := value], shown := r.shown[s := read])
  }

  /** An uninterrupted refresh; so the startup loaders, before the listener runs. */
  function LoadScope(r: Replica, s: Scope): Replica
    requires s in r.db
  {
    Put(NoteRead(r, s), s, r.db[s], |ReadsOf(r, s)|)
  }

  /** Subscribe first; then every connect but the first re-reads all scopes. */
  function ConnectBus(r: Replica): Replica {
    if r.connected || r.remaining != [] || Hook in r.tasks then r
    else r.(connected := true, firstConnect := false, remaining := if r.firstConnect then [] else SCOPES)
  }

  /** What was on the wire is lost. */
  function DropBus(r: Replica): Replica {
    r.(connected := false, wire := [], missed := r.missed + Announced(r.wire))
  }

  function NextOfHook(r: Replica): Replica {
    if Hook in r.tasks || r.remaining == [] then r
    else r.(remaining := r.remaining[1..], tasks := r.tasks[Hook := Asked(r.remaining[0])])
  }

  function TakeNotice(r: Replica): Replica {
    if Consumer in r.tasks || r.queue == [] then r
    else
      var notice := r.queue[0];
      var handled := notice.Changed? && Known(notice.scope);
      r.(queue := r.queue[1..], tasks := if handled then r.tasks[Consumer := Asked(notice.scope)] else r.tasks)
  }

  function ReadBy(r: Replica, t: TaskId): Replica {
    if t !in r.tasks || !r.tasks[t].Asked? || r.tasks[t].scope !in r.db then r
    else
      var s := r.tasks[t].scope;
      NoteRead(r, s).(tasks := r.tasks[t := Holding(s, r.db[s], |ReadsOf(r, s)|)])
  }

  function InstallBy(r: Replica, t: TaskId): Replica {
    if t !in r.tasks || !r.tasks[t].Holding? then r
    else Put(r, r.tasks[t].scope, r.tasks[t].value, r.tasks[t].read).(tasks := r.tasks - {t})
  }

  /** A refresh that raises. What a saving request had not yet read is announced all the same. */
  function FailTask(r: Replica, t: TaskId): Replica {
    if t !in r.tasks then r
    else
      var announced := t.Request? && r.tasks[t].Asked?;
      r.(tasks := r.tasks - {t}, missed := if announced then r.missed else r.missed + {r.tasks[t].scope})
  }

  function Apply(r: Replica, step: Step): Replica {
    match step
    case Save(scope, value) => SaveScope(r, scope, value)
    case SaveHere(n, scope, value) => SaveScopeHere(r, n, scope, value)
    case Publish => if r.connected then r.(wire := r.wire + [Other]) else r
    case Receive => ReceiveNotice(r)
    case Load(scope) =>
      if r.firstConnect && !r.connected && Known(scope) && scope in r.db then LoadScope(r, scope) else r
    case Connect => ConnectBus(r)
    case Disconnect => DropBus(r)
    case HookNext => NextOfHook(r)
    case Take => TakeNotice(r)
    case Read(t) => ReadBy(r, t)
    case Install(t) => InstallBy(r, t)
    case Fail(t) => FailTask(r, t)
  }

  function Run(r: Replica, steps: seq<Step>): Replica {
    if steps == [] then r else Apply(Run(r, steps[..|steps| - 1]), steps[|steps| - 1])
  }

  /** A process that has loaded nothing yet. */
  function Started(db: map<Scope, int>): Replica {
    Replica(db, map[], true, false, [], [], [], map[], set s | s in SCOPES, map[], map[])
  }

  // ── What counts as missed ─────────────────────────────────────────────────

  /** The step loses the scope's latest save: saved while the listener is away, dropped by a full queue of a
      thousand, on the wire at a disconnect, or asked for by a refresh that raises - unless it is a saving
      request's, whose save is announced. */
  predicate Loses(r: Replica, step: Step, s: Scope) {
    match step
    case Save(scope, _) => scope == s && !r.connected
    case SaveHere(n, scope, _) => scope == s && !r.connected && Request(n) !in r.tasks
    case Receive => r.wire != [] && r.wire[0] == Changed(s) && |r.queue| >= 1000
    case Disconnect => Changed(s) in r.wire
    case Fail(t) => t in r.tasks && r.tasks[t].scope == s && !(t.Request? && r.tasks[t] == Asked(s))
    case _ => false
  }

  /** The step reads the scope's row: at startup, or as some task's refresh. */
  predicate Reads(r: Replica, step: Step, s: Scope) {
    && s in r.db
    && match step
       case Load(scope) => scope == s && r.firstConnect && !r.connected
       case Read(t) => t in r.tasks && r.tasks[t] == Asked(s)
       case _ => false
  }

  /** A scope is missed from a step that loses it until one that reads it. */
  lemma MissedExactlyWhen(r: Replica, step: Step, s: Scope)
    requires Known(s)
    ensures s in Apply(r, step).missed <==> !Reads(r, step, s) && (s in r.missed || Loses(r, step, s))
  {
    hide Known, ReceiveNotice, DropBus, ReadBy, LoadScope, FailTask;
    match step
    case Receive => ReceivingMisses(r, s);
    case Disconnect => DroppingMisses(r, s);
    case Load(_) => RefreshingMisses(r, step, s);
    case Read(_) => RefreshingMisses(r, step, s);
    case Fail(t) => FailingMisses(r, t, s);
    case _ => OthersMiss(r, step, s);
  }

  lemma ReceivingMisses(r: Replica, s: Scope)
    requires Known(s)
    ensures s in ReceiveNotice(r).missed <==> s in r.missed || Loses(r, Receive, s)
  {
    hide Known;
    if r.wire != [] { assert s in Announced([r.wire[0]]) <==> r.wire[0] == Changed(s); }
  }

  lemma DroppingMisses(r: Replica, s: Scope)
    requires Known(s)
    ensures s in DropBus(r).missed <==> s in r.missed || Loses(r, Disconnect, s)
  {
    hide Known;
    assert s in Announced(r.wire) <==> Changed(s) in r.wire;
  }

  lemma RefreshingMisses(r: Replica, step: Step, s: Scope)
    requires Known(s) && (step.Load? || step.Read?)
    ensures s in Apply(r, step).missed <==> !Reads(r, step, s) && s in r.missed
  {
  }

  lemma FailingMisses(r: Replica, t: TaskId, s: Scope)
    ensures s in FailTask(r, t).missed <==> s in r.missed || Loses(r, Fail(t), s)
  {
  }

  lemma OthersMiss(r: Replica, step: Step, s: Scope)
    requires !step.Receive? && !step.Disconnect? && !step.Load? && !step.Read? && !step.Fail?
    ensures s in Apply(r, step).missed <==> s in r.missed || Loses(r, step, s)
  {
    hide Known;
  }

  // ── Every save is read ────────────────────────────────────────────────────

  predicate Asks(r: Replica, t: TaskId, s: Scope) {
    t in r.tasks && r.tasks[t] == Asked(s)
  }

  predicate Holds(r: Replica, t: TaskId, s: Scope) {
    t in r.tasks && r.tasks[t].Holding? && r.tasks[t].scope == s
  }

  /** A read of the scope, made after everything so far, is still to come - or was missed. */
  predicate Repaired(r: Replica, s: Scope) {
    || Changed(s) in r.wire || Changed(s) in r.queue || s in r.remaining
    || Asks(r, Consumer, s) || Asks(r, Hook, s) || s in r.missed
  }

  /** The scope's last read returned the row as it is. */
  predicate LastReadIsRow(r: Replica, s: Scope) {
    var values := ReadsOf(r, s);
    s in r.db && values != [] && values[|values| - 1] == r.db[s]
  }

  /** The cache holds what the read it is credited to returned. */
  ghost predicate CacheTracked(r: Replica, s: Scope) {
    && (s in r.cache <==> s in r.shown)
    && (s in r.shown ==> r.shown[s] < |ReadsOf(r, s)| && r.cache[s] == ReadsOf(r, s)[r.shown[s]])
    && (forall t | Holds(r, t, s) ::
          r.tasks[t].read < |ReadsOf(r, s)| && r.tasks[t].value == ReadsOf(r, s)[r.tasks[t].read])
  }

  ghost predicate ScopeInv(r: Replica, s: Scope) {
    s in r.db && CacheTracked(r, s) && (Repaired(r, s) || LastReadIsRow(r, s))
  }

  lemma ReceiveKeepsRepaired(r: Replica, s: Scope)
    requires Known(s)
    ensures Repaired(r, s) ==> Repaired(ReceiveNotice(r), s)
  {
    hide Known;
    if r.wire != [] {
      assert r.wire == [r.wire[0]] + r.wire[1..];
      assert r.wire[0] == Changed(s) ==> s in Announced([r.wire[0]]);
    }
  }

  lemma TakeKeepsRepaired(r: Replica, s: Scope)
    requires Known(s)
    ensures Repaired(r, s) ==> Repaired(TakeNotice(r), s)
  {
    hide Known;
    if r.queue != [] { assert r.queue == [r.queue[0]] + r.queue[1..]; }
  }

  lemma NextKeepsRepaired(r: Replica, s: Scope)
    ensures Repaired(r, s) ==> Repaired(NextOfHook(r), s)
  {
    if r.remaining != [] { assert r.remaining == [r.remaining[0]] + r.remaining[1..]; }
  }

  lemma DropKeepsRepaired(r: Replica, s: Scope)
    requires Known(s)
    ensures Repaired(r, s) ==> Repaired(DropBus(r), s)
  {
    if Changed(s) in r.wire { assert s in Announced(r.wire); }
  }

  /** Steps other than a read of the scope leave what was to be read to be read. */
  lemma StepKeepsRepaired(r: Replica, step: Step, s: Scope)
    requires Known(s) && Repaired(r, s)
    ensures Repaired(Apply(r, step), s) || ReadsOf(Apply(r, step), s) != ReadsOf(r, s)
  {
    hide Known, ReceiveNotice, TakeNotice, NextOfHook, DropBus;
    match step
    case Receive => ReceiveKeepsRepaired(r, s);
    case Take => TakeKeepsRepaired(r, s);
    case HookNext => NextKeepsRepaired(r, s);
    case Disconnect => DropKeepsRepaired(r, s);
    case _ =>
  }

  predicate RefreshStep(step: Step) {
    step.Read? || step.Install? || step.Load?
  }

  /** Nothing a task holds changes, but that a failing task gives its own up. */
  ghost predicate TasksStand(tasks: map<TaskId, Task>, later: map<TaskId, Task>, failing: Option<TaskId>) {
    && (forall t | t in later && later[t].Holding? :: t in tasks && tasks[t] == later[t])
    && (forall t | t in tasks && tasks[t].Holding? && failing != Some(t) :: t in later && later[t] == tasks[t])
  }

  ghost predicate HeldStand(r: Replica, r': Replica, failing: Option<TaskId>) {
    r'.cache == r.cache && r'.shown == r.shown && r'.seen == r.seen && TasksStand(r.tasks, r'.tasks, failing)
  }

  lemma UnchangedStands(tasks: map<TaskId, Task>, failing: Option<TaskId>)
    ensures TasksStand(tasks, tasks, failing)
  {
  }

  lemma AskingStands(tasks: map<TaskId, Task>, t: TaskId, s: Scope)
    requires t !in tasks
    ensures TasksStand(tasks, tasks[t := Asked(s)], None)
  {
  }

  lemma FailingStands(tasks: map<TaskId, Task>, t: TaskId)
    ensures TasksStand(tasks, tasks - {t}, Some(t))
  {
  }

  lemma QuietStepTasks(r: Replica, step: Step)
    requires !RefreshStep(step)
    ensures TasksStand(r.tasks, Apply(r, step).tasks, if step.Fail? then Some(step.task) else None)
  {
    UnchangedStands(r.tasks, if step.Fail? then Some(step.task) else None);
    if step.SaveHere? && Request(step.request) !in r.tasks {
      AskingStands(r.tasks, Request(step.request), step.scope);
    } else if step.HookNext? && Hook !in r.tasks && r.remaining != [] {
      AskingStands(r.tasks, Hook, r.remaining[0]);
    } else if step.Take? && Consumer !in r.tasks && r.queue != [] && r.queue[0].Changed? {
      AskingStands(r.tasks, Consumer, r.queue[0].scope);
    } else if step.Fail? {
      FailingStands(r.tasks, step.task);
    }
    hide TasksStand, Announced, Known;
  }

  lemma BusStepFields(r: Replica, step: Step)
    requires step.Publish? || step.Receive? || step.Connect? || step.Disconnect?
    ensures var r' := Apply(r, step);
            r'.db == r.db && r'.cache == r.cache && r'.shown == r.shown && r'.seen == r.seen
  {
    hide Announced, Known;
  }

  predicate SameFields(r: Replica, r': Replica) {
    r'.db == r.db && r'.cache == r.cache && r'.shown == r.shown && r'.seen == r.seen
  }

  lemma TaskStepFields(r: Replica, step: Step)
    requires step.HookNext? || step.Take? || step.Fail?
    ensures SameFields(r, Apply(r, step))
  {
    hide Known;
    match step
    case HookNext => assert SameFields(r, NextOfHook(r));
    case Take => assert SameFields(r, TakeNotice(r));
    case Fail(t) => assert SameFields(r, FailTask(r, t));
  }

  lemma QuietStepFields(r: Replica, step: Step)
    requires !RefreshStep(step)
    ensures var r' := Apply(r, step); r'.cache == r.cache && r'.shown == r.shown && r'.seen == r.seen
    ensures !step.Save? && !step.SaveHere? ==> Apply(r, step).db == r.db
  {
    if step.HookNext? || step.Take? || step.Fail? {
      TaskStepFields(r, step);
      hide Apply;
    } else if !step.Save? && !step.SaveHere? {
      BusStepFields(r, step);
      hide Apply;
    }
  }

  lemma QuietStepStands(r: Replica, step: Step)
    requires !RefreshStep(step)
    ensures HeldStand(r, Apply(r, step), if step.Fail? then Some(step.task) else None)
  {
    hide Apply, TasksStand;
    QuietStepFields(r, step);
    QuietStepTasks(r, step);
  }

  /** Only a save changes a row, and announces it. */
  lemma StepRows(r: Replica, step: Step, s: Scope)
    requires s in r.db
    ensures s in Apply(r, step).db && (Apply(r, step).db[s] == r.db[s] || Repaired(Apply(r, step), s))
  {
    if step.Save? || step.SaveHere? {
      SaveRepairs(r, step, s);
    } else {
      if RefreshStep(step) { StepReads(r, step, s); } else { QuietStepFields(r, step); }
      hide Apply;
    }
  }

  lemma SaveRepairs(r: Replica, step: Step, s: Scope)
    requires s in r.db && (step.Save? || step.SaveHere?)
    ensures s in Apply(r, step).db && (Apply(r, step).db[s] == r.db[s] || Repaired(Apply(r, step), s))
  {
  }

  /** A read returns the row. */
  lemma StepReads(r: Replica, step: Step, s: Scope)
    requires RefreshStep(step)
    ensures var r' := Apply(r, step);
            && r'.db == r.db
            && (ReadsOf(r', s) == ReadsOf(r, s) || (s in r.db && ReadsOf(r', s) == ReadsOf(r, s) + [r.db[s]]))
  {
  }

  lemma RefreshShows(r: Replica, step: Step, s: Scope)
    requires CacheTracked(r, s) && RefreshStep(step)
    ensures CacheTracked(Apply(r, step), s)
  {
    if step.Install? { InstallShows(r, step.task, s); }
    hide InstallBy;
  }

  lemma InstallShows(r: Replica, t: TaskId, s: Scope)
    requires CacheTracked(r, s)
    ensures CacheTracked(InstallBy(r, t), s)
  {
    if t in r.tasks && r.tasks[t].Holding? {
      var r' := InstallBy(r, t);
      assert forall u | Holds(r', u, s) :: Holds(r, u, s) && r'.tasks[u] == r.tasks[u];
      if r.tasks[t].scope == s { assert Holds(r, t, s); }
      assert ReadsOf(r', s) == ReadsOf(r, s);
      hide ReadsOf;
    }
  }

  lemma QuietStepShows(r: Replica, r': Replica, failing: Option<TaskId>, s: Scope)
    requires CacheTracked(r, s) && HeldStand(r, r', failing)
    ensures CacheTracked(r', s)
  {
    assert forall t | Holds(r', t, s) :: Holds(r, t, s);
  }

  lemma ApplyKeepsScope(r: Replica, step: Step, s: Scope)
    requires Known(s) && ScopeInv(r, s)
    ensures ScopeInv(Apply(r, step), s)
  {
    StepRows(r, step, s);
    if RefreshStep(step) {
      StepReads(r, step, s);
      RefreshShows(r, step, s);
    } else {
      var failing := if step.Fail? then Some(step.task) else None;
      QuietStepStands(r, step);
      QuietStepShows(r, Apply(r, step), failing, s);
    }
    if Repaired(r, s) { StepKeepsRepaired(r, step, s); }
    hide Apply, CacheTracked, Repaired, Known;
  }

  lemma {:induction false} RunKeepsScope(db: map<Scope, int>, steps: seq<Step>, s: Scope)
    requires Known(s) && s in db
    ensures ScopeInv(Run(Started(db), steps), s)
  {
    if steps != [] {
      var n := |steps| - 1;
      RunKeepsScope(db, steps[..n], s);
      hide Apply, ScopeInv;
      ApplyKeepsScope(Run(Started(db), steps[..n]), steps[n], s);
    }
  }

  /** However saves, deliveries, disconnects and refreshing tasks interleave: the last read of a scope
      returned its row as it is, or a read of it is still to come, or was missed. */
  lemma EverySaveIsRead(db: map<Scope, int>, steps: seq<Step>, s: Scope)
    requires Known(s) && s in db
    ensures var r := Run(Started(db), steps); LastReadIsRow(r, s) || Repaired(r, s)
  {
    RunKeepsScope(db, steps, s);
  }

  /** The value shown is the one the scope's last read returned. */
  predicate ShowsLastRead(r: Replica, s: Scope) {
    var values := ReadsOf(r, s);
    s in r.shown && r.shown[s] < |values| && values[r.shown[s]] == values[|values| - 1]
  }

  predicate CacheIsRow(r: Replica, s: Scope) {
    s in r.cache && s in r.db && r.cache[s] == r.db[s]
  }

  /** Unless a read of it is still to come or was missed, a scope's cache equals its row if and only if
      the last install put in what the last read returned. */
  lemma QuietCacheEqualsRow(db: map<Scope, int>, steps: seq<Step>, s: Scope)
    requires Known(s) && s in db && !Repaired(Run(Started(db), steps), s)
    ensures var r := Run(Started(db), steps); CacheIsRow(r, s) <==> ShowsLastRead(r, s)
  {
    RunKeepsScope(db, steps, s);
  }

  /** The check that would prevent a stale cache, made before an install: with no read of the scope to
      come or missed, the install leaves the cache at the row if and only if the value held is the one
      that the last read of the scope, by whichever task, returned. */
  lemma InstallShowsRowExactlyWhen(db: map<Scope, int>, steps: seq<Step>, t: TaskId, s: Scope)
    requires Known(s) && s in db
    requires Holds(Run(Started(db), steps), t, s) && !Repaired(Run(Started(db), steps), s)
    ensures var r := Run(Started(db), steps);
            var values := ReadsOf(r, s);
            && values != []
            && (CacheIsRow(Apply(r, Install(t)), s) <==> r.tasks[t].value == values[|values| - 1])
  {
    hide Run, Repaired, ScopeInv, Apply;
    RunKeepsScope(db, steps, s);
    InstallShowsRow(Run(Started(db), steps), t, s);
  }

  lemma InstallShowsRow(r: Replica, t: TaskId, s: Scope)
    requires ScopeInv(r, s) && Holds(r, t, s) && !Repaired(r, s)
    ensures var values := ReadsOf(r, s);
            && values != []
            && (CacheIsRow(Apply(r, Install(t)), s) <==> r.tasks[t].value == values[|values| - 1])
  {
    hide Repaired, CacheTracked;
    InstalledIsHeld(r, t, s);
    hide Apply;
  }

  lemma InstalledIsHeld(r: Replica, t: TaskId, s: Scope)
    requires Holds(r, t, s)
    ensures var r' := Apply(r, Install(t)); s in r'.cache && r'.cache[s] == r.tasks[t].value && r'.db == r.db
  {
  }

  // ── Installs in the order of the reads ────────────────────────────────────

  /** An install by this task would not put an older read over a newer one. */
  predicate InOrder(r: Replica, t: TaskId) {
    t in r.tasks && r.tasks[t].Holding? && r.tasks[t].scope in r.shown ==> r.shown[r.tasks[t].scope] <= r.tasks[t].read
  }

  ghost predicate InstallsInOrder(db: map<Scope, int>, steps: seq<Step>) {
    forall n | 0 <= n < |steps| && steps[n].Install? :: InOrder(Run(Started(db), steps[..n]), steps[n].task)
  }

  predicate HoldsLastRead(r: Replica, t: TaskId, s: Scope) {
    Holds(r, t, s) && r.tasks[t].read == |ReadsOf(r, s)| - 1
  }

  /** The scope's last read is in the cache, or a task is about to put it there. */
  ghost predicate LastReadArrives(r: Replica, s: Scope) {
    (s in r.shown && r.shown[s] == |ReadsOf(r, s)| - 1) || exists t :: HoldsLastRead(r, t, s)
  }

  lemma InstallArrives(r: Replica, t: TaskId, s: Scope)
    requires CacheTracked(r, s) && LastReadArrives(r, s) && InOrder(r, t)
    ensures LastReadArrives(InstallBy(r, t), s)
  {
    var r' := InstallBy(r, t);
    if Holds(r, t, s) {
      if !HoldsLastRead(r, t, s) {
        var u :| HoldsLastRead(r, u, s);
        assert HoldsLastRead(r', u, s);
      }
    } else if exists u :: HoldsLastRead(r, u, s) {
      var u :| HoldsLastRead(r, u, s);
      assert HoldsLastRead(r', u, s);
    }
  }

  lemma ReadArrives(r: Replica, t: TaskId, s: Scope)
    requires LastReadArrives(r, s) || Repaired(r, s)
    ensures LastReadArrives(ReadBy(r, t), s) || Repaired(ReadBy(r, t), s)
  {
    var r' := ReadBy(r, t);
    if ReadsOf(r', s) != ReadsOf(r, s) {
      assert HoldsLastRead(r', t, s);
    } else if !Repaired(r', s) {
      assert r'.shown == r.shown;
      if exists u :: HoldsLastRead(r, u, s) {
        var u :| HoldsLastRead(r, u, s);
        assert HoldsLastRead(r', u, s);
      }
    }
  }

  /** A failed refresh is recorded as missed; every other step leaves held reads alone. */
  lemma QuietStepArrives(r: Replica, step: Step, s: Scope)
    requires LastReadArrives(r, s) && !RefreshStep(step)
    ensures LastReadArrives(Apply(r, step), s) || Repaired(Apply(r, step), s)
  {
    QuietStepStands(r, step);
    var r' := Apply(r, step);
    if exists u :: HoldsLastRead(r, u, s) {
      var u :| HoldsLastRead(r, u, s);
      if step == Fail(u) { assert s in r'.missed; } else { hide Apply; assert HoldsLastRead(r', u, s); }
    }
  }

  lemma ApplyArrives(r: Replica, step: Step, s: Scope)
    requires Known(s) && ScopeInv(r, s) && (LastReadArrives(r, s) || Repaired(r, s))
    requires step.Install? ==> InOrder(r, step.task)
    ensures LastReadArrives(Apply(r, step), s) || Repaired(Apply(r, step), s)
  {
    if step.Read? {
      ReadArrives(r, step.task, s);
    } else if step.Load? {
      LoadArrives(r, step.scope, s);
    } else {
      hide LastReadArrives, InOrder, CacheTracked;
      if LastReadArrives(r, s) {
        if step.Install? { InstallArrives(r, step.task, s); } else { QuietStepArrives(r, step, s); }
      } else {
        StepKeepsRepaired(r, step, s);
        if step.Install? { InstallReadsNothing(r, step.task, s); } else { QuietStepStands(r, step); }
      }
    }
  }

  lemma InstallReadsNothing(r: Replica, t: TaskId, s: Scope)
    ensures ReadsOf(InstallBy(r, t), s) == ReadsOf(r, s)
  {
  }

  lemma LoadArrives(r: Replica, scope: Scope, s: Scope)
    requires LastReadArrives(r, s) || Repaired(r, s)
    ensures LastReadArrives(Apply(r, Load(scope)), s) || Repaired(Apply(r, Load(scope)), s)
  {
    var r' := Apply(r, Load(scope));
    if s != scope && exists u :: HoldsLastRead(r, u, s) {
      var u :| HoldsLastRead(r, u, s);
      assert HoldsLastRead(r', u, s);
    }
  }

  lemma {:induction false} RunArrives(db: map<Scope, int>, steps: seq<Step>, s: Scope)
    requires Known(s) && s in db && InstallsInOrder(db, steps)
    ensures LastReadArrives(Run(Started(db), steps), s) || Repaired(Run(Started(db), steps), s)
  {
    if steps != [] {
      var n := |steps| - 1;
      forall m | 0 <= m < n ensures steps[..n][..m] == steps[..m] && steps[..n][m] == steps[m] {}
      assert InstallsInOrder(db, steps[..n]);
      RunArrives(db, steps[..n], s);
      RunKeepsScope(db, steps[..n], s);
      hide ScopeInv, Apply;
      ApplyArrives(Run(Started(db), steps[..n]), steps[n], s);
    }
  }

  /** The cache holds the row's value, or a task holding the row's value is about to put it there, or a
      read of the row is still to come or was missed. */
  ghost predicate Coherent(r: Replica, s: Scope) {
    || CacheIsRow(r, s)
    || (exists t :: Holds(r, t, s) && s in r.db && r.tasks[t].value == r.db[s])
    || Repaired(r, s)
  }

  /** However saves, deliveries, disconnects and any number of refreshing tasks interleave: as long as no
      task installs an older read of a scope over a newer one, every scope stays coherent. */
  lemma CacheIsCoherent(db: map<Scope, int>, steps: seq<Step>, s: Scope)
    requires Known(s) && s in db && InstallsInOrder(db, steps)
    ensures Coherent(Run(Started(db), steps), s)
  {
    RunKeepsScope(db, steps, s);
    RunArrives(db, steps, s);
    hide Run;
    ArrivingIsCoherent(Run(Started(db), steps), s);
  }

  lemma ArrivingIsCoherent(r: Replica, s: Scope)
    requires ScopeInv(r, s) && (LastReadArrives(r, s) || Repaired(r, s))
    ensures Coherent(r, s)
  {
    hide Repaired;
    if !Repaired(r, s) && exists t :: HoldsLastRead(r, t, s) {
      var t :| HoldsLastRead(r, t, s);
      assert Holds(r, t, s) && r.tasks[t].value == r.db[s];
    }
  }

  // ── Atomic refreshes ──────────────────────────────────────────────────────

  /** Every read is followed at once by its install. */
  predicate AtomicRefreshes(steps: seq<Step>) {
    forall n | 0 <= n < |steps| && steps[n].Read? :: n + 1 < |steps| && steps[n + 1] == Install(steps[n].task)
  }

  /** Only the given task, if any, holds a read, and that is the last one of its scope. */
  ghost predicate OneHolder(r: Replica, t: Option<TaskId>) {
    && (forall u | u in r.tasks && r.tasks[u].Holding? :: t == Some(u) && HoldsLastRead(r, u, r.tasks[u].scope))
    && (forall s | s in r.shown :: r.shown[s] < |ReadsOf(r, s)|)
  }

  /** Whoever has just read, if the last step was a read. */
  function Reader(steps: seq<Step>): Option<TaskId> {
    if steps != [] && steps[|steps| - 1].Read? then Some(steps[|steps| - 1].task) else None
  }

  lemma AtomicStep(r: Replica, step: Step, t: Option<TaskId>)
    requires OneHolder(r, t) && (t.Some? ==> step == Install(t.value))
    ensures OneHolder(Apply(r, step), if step.Read? then Some(step.task) else None)
    ensures step.Install? ==> InOrder(r, step.task)
  {
    if RefreshStep(step) {
      AtomicRefreshStep(r, step, t);
    } else {
      QuietStepStands(r, step);
      hide Apply;
    }
  }

  lemma AtomicRefreshStep(r: Replica, step: Step, t: Option<TaskId>)
    requires OneHolder(r, t) && (t.Some? ==> step == Install(t.value)) && RefreshStep(step)
    ensures OneHolder(Apply(r, step), if step.Read? then Some(step.task) else None)
    ensures step.Install? ==> InOrder(r, step.task)
  {
  }

  lemma {:induction false} AtomicRunHasOneHolder(db: map<Scope, int>, steps: seq<Step>, n: nat)
    requires AtomicRefreshes(steps) && n <= |steps|
    ensures OneHolder(Run(Started(db), steps[..n]), Reader(steps[..n]))
    ensures n < |steps| && steps[n].Install? ==> InOrder(Run(Started(db), steps[..n]), steps[n].task)
  {
    if n > 0 {
      AtomicRunHasOneHolder(db, steps, n - 1);
      assert steps[..n][..n - 1] == steps[..n - 1] && steps[..n][n - 1] == steps[n - 1];
      AtomicStep(Run(Started(db), steps[..n - 1]), steps[n - 1], Reader(steps[..n - 1]));
    }
    if n < |steps| {
      hide Apply;
      AtomicStep(Run(Started(db), steps[..n]), steps[n], Reader(steps[..n]));
    }
  }

  /** With refreshes that nothing interrupts between read and install, coherence is unconditional: the
      cache equals the row, or a read of it is still to come, or was missed. */
  lemma AtomicRefreshesAreCoherent(db: map<Scope, int>, steps: seq<Step>, s: Scope)
    requires Known(s) && s in db && AtomicRefreshes(steps)
    ensures var r := Run(Started(db), steps); CacheIsRow(r, s) || Repaired(r, s)
  {
    forall n | 0 <= n < |steps| && steps[n].Install?
      ensures InOrder(Run(Started(db), steps[..n]), steps[n].task)
    {
      AtomicRunHasOneHolder(db, steps, n);
    }
    CacheIsCoherent(db, steps, s);
    AtomicRunHasOneHolder(db, steps, |steps|);
    assert steps[..|steps|] == steps;
  }

  // ── What is missed, and how a reconnect recovers it ───────────────────────

  /** Steps by which nothing gets lost: no disconnect, no failed refresh, no overflow. */
  predicate Clean(r: Replica, step: Step) {
    !step.Disconnect? && !step.Fail? && (step.Receive? ==> |r.queue| < QUEUE_MAXSIZE)
  }

  predicate CleanRun(r: Replica, steps: seq<Step>)
    decreases |steps|
  {
    steps == [] || (CleanRun(r, steps[..|steps| - 1]) && Clean(Run(r, steps[..|steps| - 1]), steps[|steps| - 1]))
  }

  predicate MissedIsScheduled(r: Replica) {
    r.connected && forall s | s in r.missed :: s in r.remaining || Asks(r, Hook, s)
  }

  lemma CleanKeepsScheduled(r: Replica, step: Step)
    requires MissedIsScheduled(r) && Clean(r, step)
    ensures MissedIsScheduled(Apply(r, step)) && |Apply(r, step).remaining| <= |r.remaining|
    ensures r.remaining == [] && Hook !in r.tasks ==> Hook !in Apply(r, step).tasks
  {
    if step.HookNext? && r.remaining != [] { assert r.remaining == [r.remaining[0]] + r.remaining[1..]; }
  }

  lemma {:induction false} CleanRunKeepsScheduled(r: Replica, steps: seq<Step>)
    requires MissedIsScheduled(r) && CleanRun(r, steps)
    ensures MissedIsScheduled(Run(r, steps)) && |Run(r, steps).remaining| <= |r.remaining|
    ensures r.remaining == [] && Hook !in r.tasks ==> Hook !in Run(r, steps).tasks
    decreases |steps|
  {
    if steps != [] {
      var n := |steps| - 1;
      CleanRunKeepsScheduled(r, steps[..n]);
      CleanKeepsScheduled(Run(r, steps[..n]), steps[n]);
    }
  }

  /** Subscribing before re-reading leaves no gap: whatever was missed before a reconnect, once its
      hook has read every scope and nothing was lost meanwhile, nothing is missed any more. */
  lemma ReconnectRecovers(db: map<Scope, int>, before: seq<Step>, after: seq<Step>)
    requires forall n | 0 <= n < |before| && (before[n].Save? || before[n].SaveHere?) :: Known(before[n].scope)
    requires var r := Run(Started(db), before);
             !r.connected && !r.firstConnect && r.remaining == [] && Hook !in r.tasks
             && CleanRun(Apply(r, Connect), after)
             && Run(Apply(r, Connect), after).remaining == [] && Hook !in Run(Apply(r, Connect), after).tasks
    ensures Run(Apply(Run(Started(db), before), Connect), after).missed == {}
  {
    OnlyKnownIsMissed(db, before);
    CleanRunKeepsScheduled(Apply(Run(Started(db), before), Connect), after);
  }

  predicate OnlyKnown(r: Replica) {
    && (forall s | s in r.missed :: Known(s)) && (forall s | s in r.remaining :: Known(s))
    && (forall t | t in r.tasks :: Known(r.tasks[t].scope))
  }

  lemma ApplyKeepsKnown(r: Replica, step: Step)
    requires OnlyKnown(r) && (step.Save? || step.SaveHere? ==> Known(step.scope))
    ensures OnlyKnown(Apply(r, step))
  {
    hide Known;
    if RefreshStep(step) { RefreshKeepsKnown(r, step); }
    else if step.Save? || step.SaveHere? { SaveKeepsKnown(r, step); }
    else { TrafficKeepsKnown(r, step); }
  }

  lemma RefreshKeepsKnown(r: Replica, step: Step)
    requires OnlyKnown(r) && RefreshStep(step)
    ensures OnlyKnown(Apply(r, step))
  {
    hide Known, ReadsOf;
  }

  lemma SaveKeepsKnown(r: Replica, step: Step)
    requires OnlyKnown(r) && (step.Save? || step.SaveHere?) && Known(step.scope)
    ensures OnlyKnown(Apply(r, step))
  {
    hide Known;
  }

  lemma TrafficKeepsKnown(r: Replica, step: Step)
    requires OnlyKnown(r) && !RefreshStep(step) && !step.Save? && !step.SaveHere?
    ensures OnlyKnown(Apply(r, step))
  {
    if step.Connect? { assert forall s | s in SCOPES :: Known(s); }
    hide Known;
  }

  lemma {:induction false} OnlyKnownIsMissed(db: map<Scope, int>, steps: seq<Step>)
    requires forall n | 0 <= n < |steps| && (steps[n].Save? || steps[n].SaveHere?) :: Known(steps[n].scope)
    ensures OnlyKnown(Run(Started(db), steps))
  {
    if steps != [] {
      OnlyKnownIsMissed(db, steps[..|steps| - 1]);
      ApplyKeepsKnown(Run(Started(db), steps[..|steps| - 1]), steps[|steps| - 1]);
    }
  }

  /** The first connect refreshes nothing, and need not: it is enough that every scope has been loaded
      and none saved since. */
  lemma FirstConnectNeedsNoRefresh(r: Replica, after: seq<Step>)
    requires r.firstConnect && !r.connected && r.remaining == [] && Hook !in r.tasks
    requires r.missed == {} && CleanRun(Apply(r, Connect), after)
    ensures Apply(r, Connect).remaining == [] && Run(Apply(r, Connect), after).missed == {}
  {
    CleanRunKeepsScheduled(Apply(r, Connect), after);
  }

  // ── Refreshes that cross ──────────────────────────────────────────────────

  lemma {:induction false} RunFirst(r: Replica, steps: seq<Step>)
    requires steps != []
    ensures Run(r, steps) == Run(Apply(r, steps[0]), steps[1..])
  {
    var n := |steps| - 1;
    if n > 0 {
      RunFirst(r, steps[..n]);
      assert steps[1..][..n - 1] == steps[..n][1..];
    }
  }

  lemma StepsTaken(r: Replica, step: Step, rest: seq<Step>, steps: seq<Step>)
    requires steps == [step] + rest
    ensures Run(r, steps) == Run(Apply(r, step), rest)
  {
    RunFirst(r, steps);
    assert steps[1..] == rest;
  }

  /** A consumer's handling of one notification, from its arrival on. */
  function Handled(r: Replica): Replica {
    Apply(Apply(Apply(Apply(r, Receive), Take), Read(Consumer)), Install(Consumer))
  }

  const HANDLE := [Receive, Take, Read(Consumer), Install(Consumer)]

  lemma HandleTaken(r: Replica, rest: seq<Step>, steps: seq<Step>)
    requires steps == HANDLE + rest
    ensures Run(r, steps) == Run(Handled(r), rest)
  {
    var r1 := Apply(r, Receive);
    var r2 := Apply(r1, Take);
    var r3 := Apply(r2, Read(Consumer));
    hide Apply;
    StepsTaken(r, Receive, [Take, Read(Consumer), Install(Consumer)] + rest, steps);
    StepsTaken(r1, Take, [Read(Consumer), Install(Consumer)] + rest, [Take, Read(Consumer), Install(Consumer)] + rest);
    StepsTaken(r2, Read(Consumer), [Install(Consumer)] + rest, [Read(Consumer), Install(Consumer)] + rest);
    StepsTaken(r3, Install(Consumer), rest, [Install(Consumer)] + rest);
  }

  lemma HandledShowsRow(r: Replica, s: Scope)
    requires r.wire != [] && r.wire[0] == Changed(s) && r.queue == [] && Consumer !in r.tasks && Known(s) && s in r.db
    ensures var n := |ReadsOf(r, s)|;
            Handled(r) == r.(wire := r.wire[1..], cache := r.cache[s := r.db[s]], missed := r.missed - {s},
                             seen := r.seen[s := ReadsOf(r, s) + [r.db[s]]], shown := r.shown[s := n])
  {
    hide Known;
    var asked := r.tasks[Consumer := Asked(s)];
    var holding := asked[Consumer := Holding(s, r.db[s], |ReadsOf(r, s)|)];
    assert holding - {Consumer} == r.tasks;
  }

  /** A first connect, a drop and a reconnect, whose hook has read the first scope. */
  const RECONNECTING := [Connect, Disconnect, Connect, HookNext, Read(Hook)]

  function Reconnecting(db: map<Scope, int>): Replica {
    Apply(Apply(Apply(Apply(Apply(Started(db), Connect), Disconnect), Connect), HookNext), Read(Hook))
  }

  lemma ReconnectingTaken(db: map<Scope, int>, rest: seq<Step>, steps: seq<Step>)
    requires steps == RECONNECTING + rest
    ensures Run(Started(db), steps) == Run(Reconnecting(db), rest)
  {
    var r := Started(db);
    var r1 := Apply(r, Connect);
    var r2 := Apply(r1, Disconnect);
    var r3 := Apply(r2, Connect);
    var r4 := Apply(r3, HookNext);
    hide Apply;
    StepsTaken(r, Connect, [Disconnect, Connect, HookNext, Read(Hook)] + rest, steps);
    StepsTaken(r1, Disconnect, [Connect, HookNext, Read(Hook)] + rest,
               [Disconnect, Connect, HookNext, Read(Hook)] + rest);
    StepsTaken(r2, Connect, [HookNext, Read(Hook)] + rest, [Connect, HookNext, Read(Hook)] + rest);
    StepsTaken(r3, HookNext, [Read(Hook)] + rest, [HookNext, Read(Hook)] + rest);
    StepsTaken(r4, Read(Hook), rest, [Read(Hook)] + rest);
  }

  lemma ReconnectingHolds(db: map<Scope, int>)
    requires "proxy" in db
    ensures Reconnecting(db)
            == Started(db).(firstConnect := false, connected := true, remaining := SCOPES[1..],
                            tasks := map[Hook := Holding("proxy", db["proxy"], 0)],
                            missed := Started(db).missed - {"proxy"}, seen := map["proxy" := [db["proxy"]]])
  {
    var r := Started(db);
    assert Announced([]) == {};
    var asked := Apply(Apply(Apply(Apply(r, Connect), Disconnect), Connect), HookNext);
    assert asked == r.(firstConnect := false, connected := true, remaining := SCOPES[1..],
                       tasks := map[Hook := Asked("proxy")]);
    assert map[Hook := Asked("proxy")][Hook := Holding("proxy", db["proxy"], 0)]
           == map[Hook := Holding("proxy", db["proxy"], 0)];
    var none: seq<int> := [];
    assert none + [db["proxy"]] == [db["proxy"]];
    hide Known;
  }

  /** A run in which a save lands between the reconnect hook's read of a scope and its install, and the
      consumer handles the notification in between: the hook puts the old value back, and nothing is
      left that would correct it. */
  lemma CrossedRefreshGoesStale(db: map<Scope, int>, value: int)
    requires "proxy" in db && db["proxy"] != value
    ensures var r := Run(Started(db), RECONNECTING + [Save("proxy", value)] + HANDLE + [Install(Hook)]);
            && "proxy" in r.cache && r.cache["proxy"] == db["proxy"] && r.db == db["proxy" := value]
            && !Repaired(r, "proxy") && !Coherent(r, "proxy")
  {
    var steps := RECONNECTING + [Save("proxy", value)] + HANDLE + [Install(Hook)];
    var r := Reconnecting(db);
    var r1 := Apply(r, Save("proxy", value));
    ReconnectingHolds(db);
    assert Known("proxy");
    assert r1 == r.(db := db["proxy" := value], wire := [Changed("proxy")]);
    HandledShowsRow(r1, "proxy");
    var r2 := Apply(Handled(r1), Install(Hook));
    ProxyComesFirst();
    HookPutsBack(r1, r2, "proxy", db["proxy"], value);
    hide Apply, Reconnecting, Coherent, Repaired, Handled;
    ReconnectingTaken(db, [Save("proxy", value)] + HANDLE + [Install(Hook)], steps);
    StepsTaken(r, Save("proxy", value), HANDLE + [Install(Hook)], [Save("proxy", value)] + HANDLE + [Install(Hook)]);
    HandleTaken(r1, [Install(Hook)], HANDLE + [Install(Hook)]);
    StepsTaken(Handled(r1), Install(Hook), [], [Install(Hook)]);
  }

  lemma HookPutsBack(r: Replica, r': Replica, s: Scope, before: int, value: int)
    requires r.tasks == map[Hook := Holding(s, before, 0)] && r.wire == [Changed(s)] && r.queue == []
    requires Known(s) && s in r.db && r.db[s] == value && before != value && s !in r.remaining
    requires r' == Apply(Handled(r), Install(Hook))
    ensures r'.db == r.db && s in r'.cache && r'.cache[s] == before
    ensures !Repaired(r', s) && !Coherent(r', s)
  {
    HandledShowsRow(r, s);
    assert r.tasks - {Hook} == map[];
    hide Handled, Known, Coherent, Repaired;
    StaleIsIncoherent(r', s);
  }

  lemma ProxyComesFirst()
    ensures Known("proxy") && SCOPES[0] == "proxy" && "proxy" !in SCOPES[1..]
  {
  }

  lemma StaleIsIncoherent(r: Replica, s: Scope)
    requires r.wire == [] && r.queue == [] && r.tasks == map[] && s !in r.remaining && s !in r.missed
    requires !CacheIsRow(r, s)
    ensures !Repaired(r, s) && !Coherent(r, s)
  {
  }

  /** A request here has saved a scope and re-read it, and a peer has saved the scope again. */
  function SavedTwice(db: map<Scope, int>, s: Scope, mine: int, theirs: int): Replica {
    Apply(Apply(Apply(Apply(Started(db), Connect), SaveHere(0, s, mine)), Read(Request(0))), Save(s, theirs))
  }

  lemma SavedTwiceHolds(db: map<Scope, int>, s: Scope, mine: int, theirs: int)
    ensures SavedTwice(db, s, mine, theirs)
            == Started(db).(db := db[s := theirs], firstConnect := false, connected := true,
                            wire := [Changed(s), Changed(s)], tasks := map[Request(0) := Holding(s, mine, 0)],
                            missed := Started(db).missed - {s}, seen := map[s := [mine]])
  {
    var r := Started(db);
    var saved := Apply(Apply(r, Connect), SaveHere(0, s, mine));
    assert saved == r.(db := db[s := mine], firstConnect := false, connected := true, wire := [Changed(s)],
                       tasks := map[Request(0) := Asked(s)]);
    assert map[Request(0) := Asked(s)][Request(0) := Holding(s, mine, 0)] == map[Request(0) := Holding(s, mine, 0)];
    var none: seq<int> := [];
    assert none + [mine] == [mine];
    assert db[s := mine][s := theirs] == db[s := theirs];
    hide Known;
  }

  /** A run in which the consumer then handles both notifications, and the request puts its own, older
      read in the cache: the bus is quiet, nothing was missed, and the cache is not the row. */
  lemma SavingRequestGoesStale(db: map<Scope, int>, s: Scope, mine: int, theirs: int)
    requires Known(s) && s in db && mine != theirs
    ensures var r := Run(Started(db), [Connect, SaveHere(0, s, mine), Read(Request(0)), Save(s, theirs)]
                                      + HANDLE + HANDLE + [Install(Request(0))]);
            && r.wire == [] && r.queue == [] && r.remaining == [] && r.tasks == map[] && s !in r.missed
            && s in r.cache && r.cache[s] == mine && r.db == db[s := theirs]
  {
    var r := SavedTwice(db, s, mine, theirs);
    RequestPutsBack(db, s, mine, theirs);
    SavedTwiceTaken(db, s, mine, theirs, HANDLE + HANDLE + [Install(Request(0))]);
    hide Apply, Handled, SavedTwice, Known, Run;
    HandleTaken(r, HANDLE + [Install(Request(0))], HANDLE + HANDLE + [Install(Request(0))]);
    HandleTaken(Handled(r), [Install(Request(0))], HANDLE + [Install(Request(0))]);
    StepsTaken(Handled(Handled(r)), Install(Request(0)), [], [Install(Request(0))]);
    RunNothing(Apply(Handled(Handled(r)), Install(Request(0))));
    assert [Connect, SaveHere(0, s, mine), Read(Request(0)), Save(s, theirs)] + HANDLE + HANDLE + [Install(Request(0))]
           == [Connect, SaveHere(0, s, mine), Read(Request(0)), Save(s, theirs)]
              + (HANDLE + HANDLE + [Install(Request(0))]);
  }

  lemma RunNothing(r: Replica)
    ensures Run(r, []) == r
  {
  }

  lemma RequestPutsBack(db: map<Scope, int>, s: Scope, mine: int, theirs: int)
    requires Known(s) && s in db
    ensures var r := Apply(Handled(Handled(SavedTwice(db, s, mine, theirs))), Install(Request(0)));
            && r.wire == [] && r.queue == [] && r.remaining == [] && r.tasks == map[] && s !in r.missed
            && s in r.cache && r.cache[s] == mine && r.db == db[s := theirs]
  {
    hide Known, Handled, SavedTwice;
    var r := SavedTwice(db, s, mine, theirs);
    SavedTwiceHolds(db, s, mine, theirs);
    HandledShowsRow(r, s);
    HandledShowsRow(Handled(r), s);
    assert r.tasks - {Request(0)} == map[];
  }

  lemma TwoStepsTaken(r: Replica, first: Step, second: Step, rest: seq<Step>)
    ensures Run(r, [first, second] + rest) == Run(Apply(Apply(r, first), second), rest)
  {
    hide Apply;
    StepsTaken(r, first, [second] + rest, [first, second] + rest);
    StepsTaken(Apply(r, first), second, rest, [second] + rest);
  }

  lemma SavedTwiceTaken(db: map<Scope, int>, s: Scope, mine: int, theirs: int, rest: seq<Step>)
    ensures Run(Started(db), [Connect, SaveHere(0, s, mine), Read(Request(0)), Save(s, theirs)] + rest)
            == Run(SavedTwice(db, s, mine, theirs), rest)
  {
    var first, second := [Connect, SaveHere(0, s, mine)], [Read(Request(0)), Save(s, theirs)];
    hide Apply, Run;
    TwoStepsTaken(Started(db), Connect, SaveHere(0, s, mine), second + rest);
    TwoStepsTaken(Apply(Apply(Started(db), Connect), SaveHere(0, s, mine)), Read(Request(0)), Save(s, theirs), rest);
    assert first + (second + rest) == [Connect, SaveHere(0, s, mine), Read(Request(0)), Save(s, theirs)] + rest;
  }

  // ── The caches, updated in place ──────────────────────────────────────────

  /** What a task that read and installed at once has done is one refresh. */
  lemma ReadThenInstall(r: Replica, t: TaskId, s: Scope)
    requires t !in r.tasks && s in r.db
    ensures InstallBy(ReadBy(r.(tasks := r.tasks[t := Asked(s)]), t), t) == LoadScope(r, s)
  {
    var asked := r.tasks[t := Asked(s)];
    assert asked[t := Holding(s, r.db[s], |ReadsOf(r, s)|)] - {t} == r.tasks;
  }

  /** An uninterrupted refresh of every scope still to be read. */
  function RefreshRemaining(r: Replica): Replica
    requires r.tasks == map[] && forall s | s in r.remaining :: s in r.db
    decreases |r.remaining|
  {
    if r.remaining == [] then r
    else
      ReadThenInstall(r.(remaining := r.remaining[1..]), Hook, r.remaining[0]);
      RefreshRemaining(Apply(Apply(Apply(r, HookNext), Read(Hook)), Install(Hook)))
  }

  lemma HookTurn(r: Replica)
    requires Hook !in r.tasks && r.remaining != [] && r.remaining[0] in r.db
    ensures Apply(Apply(Apply(r, HookNext), Read(Hook)), Install(Hook))
            == LoadScope(r.(remaining := r.remaining[1..]), r.remaining[0])
  {
    ReadThenInstall(r.(remaining := r.remaining[1..]), Hook, r.remaining[0]);
  }

  lemma ConsumerTurn(r: Replica)
    requires Consumer !in r.tasks && r.queue != []
    requires r.queue[0].Changed? && Known(r.queue[0].scope) ==> r.queue[0].scope in r.db
    ensures Apply(Apply(Apply(r, Take), Read(Consumer)), Install(Consumer))
            == var rest := r.(queue := r.queue[1..]);
               if r.queue[0].Changed? && Known(r.queue[0].scope) then LoadScope(rest, r.queue[0].scope) else rest
  {
    hide Known, LoadScope;
    if r.queue[0].Changed? && Known(r.queue[0].scope) {
      ReadThenInstall(r.(queue := r.queue[1..]), Consumer, r.queue[0].scope);
      hide ReadBy, InstallBy;
    }
  }

  lemma RequestTurn(r: Replica, n: nat, s: Scope, value: int)
    requires Request(n) !in r.tasks
    ensures Apply(Apply(Apply(r, SaveHere(n, s, value)), Read(Request(n))), Install(Request(n)))
            == LoadScope(SaveScope(r, s, value), s)
  {
    ReadThenInstall(SaveScope(r, s, value), Request(n), s);
    hide ReadBy, InstallBy, LoadScope;
  }

  lemma {:induction false} RefreshRemainingInstalls(r: Replica, s: Scope)
    requires r.tasks == map[] && forall q | q in r.remaining :: q in r.db
    ensures var r' := RefreshRemaining(r);
            && r'.remaining == [] && r'.db == r.db && r'.missed == r.missed - (set q | q in r.remaining)
            && (s in r.remaining ==> s in r'.cache && r'.cache[s] == r.db[s])
            && (s !in r.remaining ==> (s in r'.cache <==> s in r.cache) && (s in r.cache ==> r'.cache[s] == r.cache[s]))
    decreases |r.remaining|
  {
    if r.remaining != [] {
      assert r.remaining == [r.remaining[0]] + r.remaining[1..];
      HookTurn(r);
      hide Apply;
      RefreshRemainingInstalls(LoadScope(r.(remaining := r.remaining[1..]), r.remaining[0]), s);
    }
  }

  lemma RefreshOneMore(r: Replica)
    requires r.tasks == map[] && r.remaining != [] && forall q | q in r.remaining :: q in r.db
    ensures r.remaining[0] in r.db && forall q | q in r.remaining[1..] :: q in r.db
    ensures RefreshRemaining(r) == RefreshRemaining(LoadScope(r.(remaining := r.remaining[1..]), r.remaining[0]))
  {
    HookTurn(r);
    hide Apply;
  }

  /** The process's view: caches and listener state, between two turns of its event loop. */
  class ConfigCaches {
    var rows: map<Scope, int>
    var cache: map<Scope, int>
    var firstConnect: bool
    var connected: bool
    var wire: seq<Notice>
    var queue: seq<Notice>
    var remaining: seq<Scope>
    ghost var missed: set<Scope>
    ghost var seen: map<Scope, seq<int>>
    ghost var shown: map<Scope, nat>

    ghost function Model(): Replica
      reads this
    {
      Replica(rows, cache, firstConnect, connected, wire, queue, remaining, map[], missed, seen, shown)
    }

    constructor (rows: map<Scope, int>)
      ensures Model() == Started(rows)
    {
      this.rows, cache, firstConnect, connected := rows, map[], true, false;
      wire, queue, remaining := [], [], [];
      missed, seen, shown := (set s | s in SCOPES), map[], map[];
    }

    /** The listener's callback: hand the notification over, or drop it. */
    method OnNotify()
      requires wire != []
      modifies this
      ensures Model() == Apply(old(Model()), Receive)
    {
      var notice := wire[0];
      wire := wire[1..];
      if |queue| >= QUEUE_MAXSIZE {
        missed := missed + Announced([notice]);
      } else {
        queue := queue + [notice];
      }
    }

    /** Subscribe, then run the reconnect hook: skip the first time, else re-read every scope. */
    method ConnectAndSubscribe()
      requires !connected && remaining == [] && forall s | s in SCOPES :: s in rows
      modifies this
      ensures Model() == RefreshRemaining(Apply(old(Model()), Connect))
    {
      connected := true;
      if firstConnect {
        firstConnect := false;
      } else {
        RefreshAll();
      }
    }

    method RefreshAll()
      requires remaining == [] && forall s | s in SCOPES :: s in rows
      modifies this
      ensures Model() == RefreshRemaining(old(Model()).(remaining := SCOPES))
    {
      remaining := SCOPES;
      while remaining != []
        invariant forall s | s in remaining :: s in rows
        invariant RefreshRemaining(Model()) == RefreshRemaining(old(Model()).(remaining := SCOPES))
        decreases |remaining|
      {
        RefreshOneMore(Model());
        hide RefreshRemaining;
        var scope := remaining[0];
        remaining := remaining[1..];
        RefreshScope(scope);
      }
    }

    /** Re-read one row into its cache. */
    method RefreshScope(scope: Scope)
      requires scope in rows
      modifies this`cache, this`missed, this`seen, this`shown
      ensures Model() == LoadScope(old(Model()), scope)
    {
      cache := cache[scope := rows[scope]];
      ghost var earlier := ReadsOf(Model(), scope);
      missed, shown := missed - {scope}, shown[scope := |earlier|];
      seen := seen[scope := earlier + [rows[scope]]];
    }

    /** Handle the oldest notification; a scope this build does not know is ignored. */
    method ConsumeNext()
      requires queue != [] && forall s | s in SCOPES :: s in rows
      modifies this
      ensures Model() == Apply(Apply(Apply(old(Model()), Take), Read(Consumer)), Install(Consumer))
    {
      ConsumerTurn(Model());
      hide Apply, LoadScope;
      var notice := queue[0];
      queue := queue[1..];
      if notice.Changed? && Known(notice.scope) {
        RefreshScope(notice.scope);
      }
    }

    /** A request here saves a scope, announces it, and refreshes the cache from what it then reads. */
    method UpdateSettings(scope: Scope, value: int)
      modifies this
      ensures Model() == Apply(Apply(Apply(old(Model()), SaveHere(0, scope, value)), Read(Request(0))),
                               Install(Request(0)))
    {
      RequestTurn(Model(), 0, scope, value);
      hide Apply, LoadScope;
      rows := rows[scope := value];
      if connected {
        wire := wire + [Changed(scope)];
      } else {
        missed := missed + {scope};
      }
      assert Model() == SaveScope(old(Model()), scope, value);
      RefreshScope(scope);
    }
  }
}
