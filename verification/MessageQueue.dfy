/** When queued communications run: at the delay the definition gives, counted in active time, and no
    later. Delays are whole seconds, instants whole microseconds. */
module MessageQueue {
  import opened Wrappers
  import opened Scenario
  import opened Progression
  import opened ProgressionInvariants
  import opened Scheduling
  import opened ScheduleTheorems
  import opened MessageTheorems
  import opened MessageTiming
  import L = Lifecycle
  import Clock
  import Keys = TriggerKeys
  import Sorting

  const MICROSECONDS := 1_000_000

  // ── What a release queues ─────────────────────────────────────────────────

  /** The job queued at `now` for one trigger of a node, its delay in seconds. */
  predicate QueuedFor(node: Node, id: int, now: int, j: CommJob) {
    && j.inject == id && j.node == node.id && j.index < |node.triggers|
    && j.at == now + node.triggers[j.index].delaySeconds * MICROSECONDS
    && j.lag == 0 && j.phase == Waiting
  }

  lemma {:induction false} TriggerJobsAre(node: Node, id: int, k: nat, now: int)
    requires k <= |node.triggers|
    ensures var jobs := TriggerJobs(node, id, k, now);
            && |jobs| == k
            && forall i | 0 <= i < k :: QueuedFor(node, id, now, jobs[i]) && jobs[i].index == i
  {
    if k > 0 { TriggerJobsAre(node, id, k - 1, now); }
  }

  lemma {:induction false} DistinctOccurOnce<T>(s: seq<T>)
    requires forall i, j | 0 <= i < j < |s| :: s[i] != s[j]
    ensures forall x :: multiset(s)[x] == if x in s then 1 else 0
  {
    if s != [] {
      var n := |s| - 1;
      DistinctOccurOnce(s[..n]);
      assert s == s[..n] + [s[n]];
      assert s[n] !in s[..n];
    }
  }

  lemma TriggerJobsCount(node: Node, id: int, now: int, j: CommJob)
    ensures multiset(TriggerJobs(node, id, |node.triggers|, now))[j] == if QueuedFor(node, id, now, j) then 1 else 0
  {
    var jobs := TriggerJobs(node, id, |node.triggers|, now);
    TriggerJobsAre(node, id, |node.triggers|, now);
    DistinctOccurOnce(jobs);
    if QueuedFor(node, id, now, j) {
      assert jobs[j.index] == j;
    }
  }

  /** A release, by hand or by a worker, queues exactly one job for each trigger of the first node with the
      inject's node id, due its delay later, and nothing else. */
  lemma ReleaseQueuesTriggers(r: Run, id: int, actor: Option<int>, scheduled: bool, j: CommJob)
    requires ReleaseNow(r, id, actor, scheduled).Ok?
    ensures id in r.board.injects
    ensures var queued := !Ungated(r.board.injects[id])
                          && exists n: nat :: FirstNode(r.board.def.injects, r.board.injects[id].node.value, n)
                                              && QueuedFor(r.board.def.injects[n], id, r.board.now, j);
            ReleaseNow(r, id, actor, scheduled).value.commJobs[j] == r.commJobs[j] + if queued then 1 else 0
  {
    ReleaseTouches(r.board, id, actor, scheduled);
    var b := ReleaseInject(r.board, id, actor, scheduled).value;
    hide ReleaseInject;
    if !Ungated(b.injects[id]) {
      FirstNodeIsFound(b.def.injects, b.injects[id].node.value);
      if NodeOf(b, id).Some? { TriggerJobsCount(NodeOf(b, id).value, id, b.now, j); }
    }
  }

  // ── What a re-enqueue queues ──────────────────────────────────────────────

  /** A re-enqueued job waits for what is left of its delay after `elapsed`. */
  predicate OwedAfter(node: Node, elapsed: int, now: int, j: CommJob) {
    && j.node == node.id && j.index < |node.triggers|
    && j.at == now + Max(0, node.triggers[j.index].delaySeconds * MICROSECONDS - elapsed)
    && j.lag == 0 && j.phase == Waiting
  }

  lemma {:induction false} OwedByInjectTimes(r: Run, node: Node, id: int, elapsed: int, k: nat, considered: set<string>)
    requires k <= |node.triggers|
    ensures forall j | j in OwedByInject(r, node, id, elapsed, k, considered).0 ::
              j.inject == id && OwedAfter(node, elapsed, r.board.now, j)
  {
    hide Keys.TriggerKey, CommWaiting;
    if k > 0 { OwedByInjectTimes(r, node, id, elapsed, k - 1, considered); }
  }

  function ElapsedFor(r: Run, version: nat, id: int): int
    requires version < |r.life.versions| && id in r.board.injects
  {
    Clock.ActiveElapsedSince(r.life.versions[version], r.board.injects[id].releasedAt.GetOr(0), r.life.log, r.board.now)
  }

  lemma {:induction false} OwedTimes(r: Run, version: nat, order: seq<int>, j: CommJob)
    requires version < |r.life.versions| && forall id | id in order :: id in r.board.injects
    requires j in Owed(r, version, order).0
    ensures j.inject in order && NodeOf(r.board, j.inject).Some?
    ensures OwedAfter(NodeOf(r.board, j.inject).value, ElapsedFor(r, version, j.inject), r.board.now, j)
  {
    hide Clock.ActiveElapsedSince;
    var n := |order| - 1;
    var before := Owed(r, version, order[..n]);
    if j in before.0 {
      OwedTimes(r, version, order[..n], j);
    } else if NodeOf(r.board, order[n]).Some? {
      var node := NodeOf(r.board, order[n]).value;
      var elapsed := ElapsedFor(r, version, order[n]);
      OwedByInjectTimes(r, node, order[n], elapsed, |node.triggers|, before.1);
      assert j in OwedByInject(r, node, order[n], elapsed, |node.triggers|, before.1).0;
    }
  }

  // ── Active time ───────────────────────────────────────────────────────────

  lemma {:induction false} TicksAtMost(log: seq<L.Transition>, a: int, b: int)
    requires a <= b
    ensures Clock.ActiveTicks(log, a, b) <= b - a
    decreases b - a
  {
    if a < b { TicksAtMost(log, a, b - 1); }
  }

  /** Time passes at least as fast as active time. */
  lemma TicksGrowSlowly(log: seq<L.Transition>, a: int, b: int, c: int)
    requires a <= b <= c
    ensures Clock.ActiveTicks(log, a, b) <= Clock.ActiveTicks(log, a, c) <= Clock.ActiveTicks(log, a, b) + (c - b)
  {
    Clock.TicksSplit(log, a, b, c);
    TicksAtMost(log, b, c);
  }

  /** The fold for a row that has not ended counts the active time since the release, and after the end,
      which such a row has not seen, everything since. */
  lemma UnendedFold(life: L.Life, row: L.Exercise, k: nat, releasedAt: int, now: int)
    requires L.LifeInv(life, now) && Clock.ReleasedWhileActive(life.log, k, releasedAt) && releasedAt <= now
    requires row.endedAt.None?
    ensures Clock.ActiveElapsedSince(row, releasedAt, life.log, now) >= Clock.ActiveTicks(life.log, releasedAt, now)
    ensures life.row.state != L.Completed ==>
              Clock.ActiveElapsedSince(row, releasedAt, life.log, now) == Clock.ActiveTicks(life.log, releasedAt, now)
  {
    hide Clock.ActiveTicks, Clock.FoldPauses, Sorting.Sort, Clock.StateAt;
    var log := life.log;
    var n := |log|;
    Sorting.SortKeepsSorted(Clock.Earlier, log);
    Clock.FoldAfterRelease(log, k, releasedAt, n);
    assert log[..n] == log && L.RowMatchesLog(life.row, log);
    var t := if n == k then releasedAt else log[n - 1].at;
    Clock.TicksBetween(log, n, t, now);
    Clock.TicksSplit(log, releasedAt, t, now);
  }

  // ── Jobs on time ──────────────────────────────────────────────────────────

  /** A trigger's delay in microseconds. */
  function Delay(def: Definition, node: string, index: nat): int
    requires GetNode(def, node).Some? && index < |GetNode(def, node).value.triggers|
  {
    TriggerOf(def, node, index).delaySeconds * MICROSECONDS
  }

  /** The wait ahead is at most what is left of the delay, and of the worker's lag. */
  predicate WaitFits(at: int, now: int, delay: int, lag: int, served: int) {
    at <= now + Max(0, delay + lag - served)
  }

  /** A decision to come back later was made from the active time at its reading. */
  ghost predicate ReturnFits(log: seq<L.Transition>, releasedAt: int, delay: int, now: int, verdict: CommVerdict) {
    verdict.Return? ==>
      releasedAt <= verdict.readAt <= now && verdict.remaining == delay - Clock.ActiveTicks(log, releasedAt, verdict.readAt)
  }

  ghost predicate OnTime(b: Board, log: seq<L.Transition>, j: CommJob) {
    && CommSane(b, j) && j.lag >= 0
    && b.injects[j.inject].releasedAt.Some?
    && var releasedAt, delay := b.injects[j.inject].releasedAt.value, Delay(b.def, j.node, j.index);
       && releasedAt <= b.now
       && WaitFits(j.at, b.now, delay, j.lag, Clock.ActiveTicks(log, releasedAt, b.now))
       && (j.phase.Settled? ==> ReturnFits(log, releasedAt, delay, b.now, j.phase.verdict))
  }

  ghost predicate AllOnTime(b: Board, log: seq<L.Transition>, jobs: multiset<CommJob>) {
    forall j | j in jobs :: OnTime(b, log, j)
  }

  lemma OnTimeLasts(b: Board, b': Board, log: seq<L.Transition>, j: CommJob)
    requires OnTime(b, log, j) && Extends(b, b')
    ensures OnTime(b', log, j)
  {
    TriggersStay(b, b', j.inject, j.node, j.index);
    assert SameRelease(b.injects[j.inject], b'.injects[j.inject]);
    TicksGrowSlowly(log, b.injects[j.inject].releasedAt.value, b.now, b'.now);
  }

  lemma OnTimeUnderLongerLog(b: Board, log: seq<L.Transition>, entry: L.Transition, j: CommJob)
    requires OnTime(b, log, j) && b.now <= entry.at
    ensures OnTime(b, log + [entry], j)
  {
    var releasedAt := b.injects[j.inject].releasedAt.value;
    Clock.TicksIgnoreLaterEntries(log, entry, releasedAt, b.now);
    if j.phase.Settled? && j.phase.verdict.Return? {
      Clock.TicksIgnoreLaterEntries(log, entry, releasedAt, j.phase.verdict.readAt);
    }
  }

  lemma ReleaseJobsOnTime(b: Board, log: seq<L.Transition>, id: int)
    requires Opened(b, id) && b.injects[id].releasedAt == Some(b.now)
    ensures AllOnTime(b, log, ReleaseTriggers(b, id))
  {
    ReleaseTriggersSane(b, id);
    forall j | j in ReleaseTriggers(b, id) ensures OnTime(b, log, j) {
      var node := NodeOf(b, id).value;
      NodeKeepsItsId(b.def, b.injects[id].node.value);
      assert j in TriggerJobs(node, id, |node.triggers|, b.now);
      TriggerJobsAre(node, id, |node.triggers|, b.now);
      assert Clock.ActiveTicks(log, b.now, b.now) == 0;
    }
  }

  lemma RunningHasNotEnded(r: Run, version: nat)
    requires Core(r) && version < |r.life.versions| && IsRunning(r.life.versions[version])
    ensures r.life.versions[version].endedAt.None?
  {
    assert L.RowMatchesLog(r.life.versions[version], r.life.log[..version]);
  }

  /** What a re-enqueue takes for the active time since a release is that, or more. */
  lemma ElapsedIsActive(r: Run, version: nat, id: int)
    requires Core(r) && ServedInv(r) && version < |r.life.versions| && IsRunning(r.life.versions[version])
    requires Opened(r.board, id)
    ensures r.board.injects[id].releasedAt.Some? && r.board.injects[id].releasedAt.value <= r.board.now
    ensures var served := Clock.ActiveTicks(r.life.log, r.board.injects[id].releasedAt.value, r.board.now);
            && ElapsedFor(r, version, id) >= served
            && (r.life.row.state != L.Completed ==> ElapsedFor(r, version, id) == served)
  {
    OpenedWasReleased(r.board, id);
    var releasedAt := r.board.injects[id].releasedAt.value;
    var k: nat :| Clock.ReleasedWhileActive(r.life.log, k, releasedAt);
    RunningHasNotEnded(r, version);
    hide Clock.ActiveElapsedSince, Clock.ActiveTicks;
    UnendedFold(r.life, r.life.versions[version], k, releasedAt, r.board.now);
  }

  lemma OwedJobOnTime(r: Run, version: nat, order: seq<int>, j: CommJob)
    requires Core(r) && ServedInv(r) && version < |r.life.versions| && ReleasedInOrder(r.board, order)
    requires IsRunning(r.life.versions[version]) && j in Owed(r, version, order).0
    ensures OnTime(r.board, r.life.log, j)
    ensures r.life.row.state != L.Completed ==>
              j.at == r.board.now + Max(0, Delay(r.board.def, j.node, j.index)
                                           - Clock.ActiveTicks(r.life.log, r.board.injects[j.inject].releasedAt.value, r.board.now))
  {
    hide Core, ServedInv, Owed, ElapsedFor, Clock.ActiveTicks;
    CoreInv(r);
    OwedJobIsSane(r, version, order, j);
    OwedTimes(r, version, order, j);
    NodeKeepsItsId(r.board.def, r.board.injects[j.inject].node.GetOr(""));
    ElapsedIsActive(r, version, j.inject);
  }

  lemma CoreInv(r: Run)
    requires Core(r)
    ensures Inv(r.board)
  {
  }

  // ── The worker ────────────────────────────────────────────────────────────

  /** What a worker decides from the rows as they are: nothing unless the exercise is active; otherwise to
      come back for what is left of the delay, if that is more than a second of active time, and to
      deliver the definition's communication if not. */
  lemma JudgesExactlyWhen(r: Run, j: CommJob)
    requires Core(r) && ServedInv(r) && CommSane(r.board, j)
    ensures r.board.injects[j.inject].releasedAt.Some?
    ensures r.life.row.state != L.Active ==> JudgeComm(r, j) == Drop
    ensures r.life.row.state == L.Active ==>
              var left := Delay(r.board.def, j.node, j.index)
                          - Clock.ActiveTicks(r.life.log, r.board.injects[j.inject].releasedAt.value, r.board.now);
              JudgeComm(r, j) == if left > MICROSECONDS then Return(left, r.board.now)
                                 else Deliver(TriggerOf(r.board.def, j.node, j.index))
  {
    OpenedWasReleased(r.board, j.inject);
    if r.life.row.state == L.Active { ActiveElapsed(r, j.inject); }
    hide Core, ServedInv, Clock.ActiveTicks, Clock.ActiveElapsedSince;
  }

  lemma ActiveElapsed(r: Run, id: int)
    requires Core(r) && ServedInv(r) && Opened(r.board, id) && r.life.row.state == L.Active
    ensures r.board.injects[id].releasedAt.Some?
    ensures var releasedAt := r.board.injects[id].releasedAt.value;
            Clock.ActiveElapsedSince(r.life.row, releasedAt, r.life.log, r.board.now)
            == Clock.ActiveTicks(r.life.log, releasedAt, r.board.now)
  {
    hide ServedInv, Clock.ActiveTicks, Clock.ActiveElapsedSince;
    var n := |r.life.log|;
    CoreRow(r);
    ElapsedIsActive(r, n, id);
  }

  lemma RephasedOnTime(b: Board, log: seq<L.Transition>, j: CommJob, phase: CommPhase)
    requires OnTime(b, log, j) && !phase.Settled?
    ensures OnTime(b, log, j.(phase := phase))
  {
  }

  lemma ReadOnTime(r: Run, j: CommJob)
    requires Core(r) && ServedInv(r) && OnTime(r.board, r.life.log, j)
    ensures OnTime(r.board, r.life.log, j.(phase := Settled(JudgeComm(r, j))))
  {
    hide Core, ServedInv, Clock.ActiveTicks, JudgeComm;
    JudgesExactlyWhen(r, j);
  }

  lemma SentBackOnTime(b: Board, log: seq<L.Transition>, j: CommJob)
    requires OnTime(b, log, j) && j.phase.Settled? && j.phase.verdict.Return?
    ensures OnTime(b, log, SentBack(j, j.phase.verdict.remaining, j.phase.verdict.readAt, b.now))
  {
    TicksGrowSlowly(log, b.injects[j.inject].releasedAt.value, j.phase.verdict.readAt, b.now);
  }

  /** The jobs a worker's step adds. */
  lemma WorkAdds(r: Run, work: Work, j: CommJob, k: CommJob)
    requires k in WorkMessage(r, work, j).commJobs && k !in r.commJobs
    ensures j in r.commJobs
    ensures || k == j.(phase := Waiting) || k == j.(phase := CommPhase.Running)
            || k == j.(phase := Settled(JudgeComm(r, j)))
            || (j.phase.Settled? && j.phase.verdict.Return?
                && k == SentBack(j, j.phase.verdict.remaining, j.phase.verdict.readAt, r.board.now))
  {
    hide JudgeComm, SentBack;
    if work == Finish && j in r.commJobs && j.phase.Settled? && j.phase.verdict.Deliver? {
      DeliverOnceFields(r.(commJobs := r.commJobs - multiset{j}), j, j.phase.verdict.trigger);
      hide DeliverOnce;
    }
  }

  lemma MessageKeepsOnTime(r: Run, work: Work, j: CommJob)
    requires Core(r) && ServedInv(r) && AllOnTime(r.board, r.life.log, r.commJobs)
    ensures AllOnTime(r.board, r.life.log, WorkMessage(r, work, j).commJobs)
  {
    hide OnTime, WorkMessage, Core, ServedInv, JudgeComm, SentBack;
    forall k | k in WorkMessage(r, work, j).commJobs ensures OnTime(r.board, r.life.log, k) {
      if k !in r.commJobs {
        WorkAdds(r, work, j, k);
        RephasedOnTime(r.board, r.life.log, j, Waiting);
        RephasedOnTime(r.board, r.life.log, j, CommPhase.Running);
        ReadOnTime(r, j);
        if j.phase.Settled? && j.phase.verdict.Return? { SentBackOnTime(r.board, r.life.log, j); }
      }
    }
  }

  // ── Every move ────────────────────────────────────────────────────────────

  lemma LaterBoardOnTime(r: Run, r': Run)
    requires AllOnTime(r.board, r.life.log, r.commJobs) && Extends(r.board, r'.board)
    requires r'.life == r.life && r'.commJobs == r.commJobs
    ensures AllOnTime(r'.board, r'.life.log, r'.commJobs)
  {
    hide OnTime, Extends;
    forall j | j in r.commJobs ensures OnTime(r'.board, r.life.log, j) { OnTimeLasts(r.board, r'.board, r.life.log, j); }
  }

  lemma ReleaseKeepsOnTime(r: Run, r': Run, id: int, actor: Option<int>, scheduled: bool)
    requires Core(r) && AllOnTime(r.board, r.life.log, r.commJobs) && r'.life == r.life
    requires ReleaseInject(r.board, id, actor, scheduled) == Ok(r'.board)
    requires r'.commJobs == r.commJobs + ReleaseTriggers(r'.board, id)
    ensures AllOnTime(r'.board, r'.life.log, r'.commJobs)
  {
    ReleaseKeeps(r.board, id, actor, scheduled);
    ReleaseTouches(r.board, id, actor, scheduled);
    hide OnTime, Extends, Core, ReleaseInject;
    ReleaseJobsOnTime(r'.board, r.life.log, id);
    forall j | j in r'.commJobs ensures OnTime(r'.board, r.life.log, j) {
      if j in r.commJobs { OnTimeLasts(r.board, r'.board, r.life.log, j); }
    }
  }

  lemma RequestKeepsOnTime(r: Run, request: Request)
    requires Core(r) && AllOnTime(r.board, r.life.log, r.commJobs) && Handle(r, request).Ok?
    ensures var r' := Handle(r, request).value; AllOnTime(r'.board, r'.life.log, r'.commJobs)
  {
    hide OnTime;
    if request.ReleaseByHand? {
      ReleaseIsABoardStep(r, request.inject, Some(request.actor), false);
      ReleaseKeepsOnTime(r, Handle(r, request).value, request.inject, Some(request.actor), false);
    } else {
      RequestIsABoardStep(r, request);
      CommitKeeps(r.board, RequestStep(r, request));
      LaterBoardOnTime(r, Handle(r, request).value);
    }
  }

  lemma WorkKeepsOnTime(r: Run, work: Work, j: ReleaseJob)
    requires Core(r) && AllOnTime(r.board, r.life.log, r.commJobs) && r.life.versions != []
    ensures var r' := WorkRelease(r, work, j); AllOnTime(r'.board, r'.life.log, r'.commJobs)
  {
    hide OnTime;
    if work == Finish && FinishReleases(r, j) {
      FinishIsARelease(r, j);
      ReleaseKeepsOnTime(r, FinishJob(r, j), j.inject, None, true);
    } else {
      if work == Finish { FinishIsQuiet(r, j); } else { WorkInPlace(r, work, j); }
      LaterBoardOnTime(r, WorkRelease(r, work, j));
    }
  }

  lemma ChangeKeepsOnTime(r: Run, seen: nat, target: L.Phase)
    requires Core(r) && AllOnTime(r.board, r.life.log, r.commJobs) && ChangeState(r, seen, target).Ok?
    ensures var r' := ChangeState(r, seen, target).value; AllOnTime(r'.board, r'.life.log, r'.commJobs)
  {
    hide OnTime, Core;
    var next := ChangeState(r, seen, target).value.life;
    L.TransitionOutcome(r.life, r.life.versions[seen], target, r.board.now);
    forall j | j in r.commJobs ensures OnTime(r.board, next.log, j) {
      OnTimeUnderLongerLog(r.board, r.life.log, next.log[|r.life.log|], j);
    }
  }

  lemma RearmKeepsOnTime(r: Run, version: nat, order: seq<int>)
    requires Core(r) && ServedInv(r) && AllOnTime(r.board, r.life.log, r.commJobs)
    requires version < |r.life.versions| && ReleasedInOrder(r.board, order) && IsRunning(r.life.versions[version])
    ensures var r' := ScheduleExerciseInjects(r, version, order); AllOnTime(r'.board, r'.life.log, r'.commJobs)
  {
    hide OnTime, Core, ServedInv, Owed;
    EnqueueLeavesBoard(r, version, Unqueued(r));
    RearmFields(r, version, order);
    forall j | j in r.commJobs + multiset(Owed(r, version, order).0) ensures OnTime(r.board, r.life.log, j) {
      if j !in r.commJobs { OwedJobOnTime(r, version, order, j); }
    }
    RearmKeepsLife(r, version, order);
  }

  lemma RearmKeepsLife(r: Run, version: nat, order: seq<int>)
    requires version < |r.life.versions| && ReleasedInOrder(r.board, order)
    ensures ScheduleExerciseInjects(r, version, order).life == r.life
  {
  }

  lemma MoveKeepsOnTime(r: Run, move: Move)
    requires Core(r) && ServedInv(r) && AllOnTime(r.board, r.life.log, r.commJobs)
    ensures var r' := Perform(r, move); AllOnTime(r'.board, r'.life.log, r'.commJobs)
  {
    hide Core, ServedInv, AllOnTime;
    CoreRow(r);
    match move
    case Ask(request) => if Handle(r, request).Ok? { RequestKeepsOnTime(r, request); }
    case ChangeTo(seen, target) => if ChangeState(r, seen, target).Ok? { ChangeKeepsOnTime(r, seen, target); }
    case Rearm(version, order) =>
      if version < |r.life.versions| && ReleasedInOrder(r.board, order) && IsRunning(r.life.versions[version]) {
        RearmKeepsOnTime(r, version, order);
      }
    case OnRelease(work, j) => if r.life.versions != [] { WorkKeepsOnTime(r, work, j); }
    case OnMessage(work, j) =>
      MessageLeavesBoard(r, work, j);
      MessageKeepsOnTime(r, work, j);
  }

  lemma {:induction false} PlayKeepsOnTime(def: Definition, start: int, moves: seq<TimedMove>)
    ensures var r := Play(CreateExercise(def, start), moves); AllOnTime(r.board, r.life.log, r.commJobs)
  {
    if moves != [] {
      hide Core, ServedInv, AllOnTime, QueueInv, Perform;
      var n := |moves| - 1;
      var before := Play(CreateExercise(def, start), moves[..n]);
      var waited := Wait(before, moves[n].dt);
      PlayKeeps(def, start, moves[..n]);
      PlayKeepsServed(def, start, moves[..n]);
      PlayKeepsOnTime(def, start, moves[..n]);
      WaitKeepsCore(before, moves[n].dt);
      LaterBoardOnTime(before, waited);
      WaitKeepsServed(before, moves[n].dt);
      MoveKeepsOnTime(waited, moves[n].move);
    }
  }

  lemma WaitKeepsServed(r: Run, dt: nat)
    requires Core(r) && ServedInv(r)
    ensures ServedInv(Wait(r, dt))
  {
    WaitKeepsCore(r, dt);
    LaterBoardKeepsServed(r, Wait(r, dt));
  }

  // ── Main results ──────────────────────────────────────────────────────────

  /** Every job a re-enqueue adds is for a trigger of a released inject, and waits for what is left of its
      delay after the active time since that release. */
  lemma RearmQueuesWhatIsLeft(def: Definition, start: int, moves: seq<TimedMove>, version: nat, order: seq<int>, j: CommJob)
    requires var r := Play(CreateExercise(def, start), moves);
             && version < |r.life.versions| && ReleasedInOrder(r.board, order) && IsRunning(r.life.versions[version])
             && r.life.row.state != L.Completed
             && ScheduleExerciseInjects(r, version, order).commJobs[j] > r.commJobs[j]
    ensures var r := Play(CreateExercise(def, start), moves);
            && IsTrigger(r.board, j.inject, j.node, j.index) && r.board.injects[j.inject].releasedAt.Some?
            && var served := Clock.ActiveTicks(r.life.log, r.board.injects[j.inject].releasedAt.value, r.board.now);
               j.at == r.board.now + Max(0, Delay(r.board.def, j.node, j.index) - served) && j.lag == 0 && j.phase == Waiting
  {
    hide Play, Core, ServedInv, QueueInv, ScheduleExerciseInjects, Clock.ActiveTicks;
    PlayKeeps(def, start, moves);
    PlayKeepsServed(def, start, moves);
    RearmAdds(Play(CreateExercise(def, start), moves), version, order, j);
  }

  lemma RearmAdds(r: Run, version: nat, order: seq<int>, j: CommJob)
    requires Core(r) && ServedInv(r) && version < |r.life.versions| && ReleasedInOrder(r.board, order)
    requires IsRunning(r.life.versions[version]) && r.life.row.state != L.Completed
    requires ScheduleExerciseInjects(r, version, order).commJobs[j] > r.commJobs[j]
    ensures IsTrigger(r.board, j.inject, j.node, j.index) && r.board.injects[j.inject].releasedAt.Some?
    ensures var served := Clock.ActiveTicks(r.life.log, r.board.injects[j.inject].releasedAt.value, r.board.now);
            j.at == r.board.now + Max(0, Delay(r.board.def, j.node, j.index) - served) && j.lag == 0 && j.phase == Waiting
  {
    hide Core, ServedInv, ScheduleExerciseInjects, Owed, Clock.ActiveTicks, ElapsedFor;
    RearmFields(r, version, order);
    assert j in multiset(Owed(r, version, order).0);
    OwedJobOnTime(r, version, order, j);
    OwedTimes(r, version, order, j);
  }

  /** A job sent back waits for exactly the part of its delay that was unserved when its worker read the
      rows; its lag is the time since. */
  lemma ComesBackForWhatIsLeft(def: Definition, start: int, moves: seq<TimedMove>, j: CommJob)
    requires var r := Play(CreateExercise(def, start), moves);
             j in r.commJobs && j.phase.Settled? && j.phase.verdict.Return?
    ensures var r := Play(CreateExercise(def, start), moves);
            var readAt := j.phase.verdict.readAt;
            && IsTrigger(r.board, j.inject, j.node, j.index) && r.board.injects[j.inject].releasedAt.Some?
            && r.board.injects[j.inject].releasedAt.value <= readAt <= r.board.now
            && var left := Delay(r.board.def, j.node, j.index)
                           - Clock.ActiveTicks(r.life.log, r.board.injects[j.inject].releasedAt.value, readAt);
               FinishComm(r, j).commJobs
               == r.commJobs - multiset{j}
                  + multiset{j.(at := r.board.now + Max(0, left), lag := r.board.now - readAt, phase := Waiting)}
  {
    hide Play, Clock.ActiveTicks, FinishComm, Delay;
    PlayKeepsOnTime(def, start, moves);
    var r := Play(CreateExercise(def, start), moves);
    hide OnTime;
    assert OnTime(r.board, r.life.log, j);
    OnTimeReturns(r, j);
  }

  lemma OnTimeReturns(r: Run, j: CommJob)
    requires OnTime(r.board, r.life.log, j) && j in r.commJobs && j.phase.Settled? && j.phase.verdict.Return?
    ensures IsTrigger(r.board, j.inject, j.node, j.index) && r.board.injects[j.inject].releasedAt.Some?
    ensures r.board.injects[j.inject].releasedAt.value <= j.phase.verdict.readAt <= r.board.now
    ensures var left := Delay(r.board.def, j.node, j.index)
                        - Clock.ActiveTicks(r.life.log, r.board.injects[j.inject].releasedAt.value, j.phase.verdict.readAt);
            FinishComm(r, j).commJobs
            == r.commJobs - multiset{j}
               + multiset{j.(at := r.board.now + Max(0, left), lag := r.board.now - j.phase.verdict.readAt, phase := Waiting)}
  {
    hide Clock.ActiveTicks;
  }

  /** The job is for a trigger of a released inject. Once the delay has been served in active time, a worker
      that reads the rows decides to deliver; and the job may run then, or, if it was sent back, as much
      later as its worker took to do so. */
  ghost predicate IsRunnable(r: Run, j: CommJob) {
    && IsTrigger(r.board, j.inject, j.node, j.index) && r.board.injects[j.inject].releasedAt.Some?
    && var served := Clock.ActiveTicks(r.life.log, r.board.injects[j.inject].releasedAt.value, r.board.now);
       && (served >= Delay(r.board.def, j.node, j.index) ==>
             JudgeComm(r, j) == Deliver(TriggerOf(r.board.def, j.node, j.index)))
       && (served >= Delay(r.board.def, j.node, j.index) + j.lag ==> j.at <= r.board.now)
  }

  /** Nothing due is left waiting. In an active, re-enqueued run every trigger of a released inject is
      delivered, or has a job that will act on it, and each of its jobs is runnable once the exercise has
      been active for the delay since the release it follows. */
  lemma DueMessagesAreRunnable(def: Definition, start: int, moves: seq<TimedMove>, id: int, node: string, index: nat)
    requires var r := Play(CreateExercise(def, start), moves);
             r.life.row.state == L.Active && !r.rearmOwed && IsTrigger(r.board, id, node, index) && node != ""
    ensures var r := Play(CreateExercise(def, start), moves);
            && (Keys.TriggerKey(node, index) in r.deliveries || exists j :: j in r.commJobs && CommActs(j, node, index))
            && forall j | j in r.commJobs && j.node == node && j.index == index :: IsRunnable(r, j)
  {
    hide Play, Core, ServedInv, QueueInv, AllOnTime, MessagesInv, JudgeComm, Clock.ActiveTicks, CommActs;
    PlayKeeps(def, start, moves);
    PlayKeepsServed(def, start, moves);
    PlayKeepsOnTime(def, start, moves);
    PlayKeepsMessages(def, start, moves);
    TriggerIsCovered(Play(CreateExercise(def, start), moves), id, node, index);
    forall j | j in Play(CreateExercise(def, start), moves).commJobs && j.node == node && j.index == index
      ensures IsRunnable(Play(CreateExercise(def, start), moves), j)
    {
      JobIsRunnable(Play(CreateExercise(def, start), moves), j);
    }
  }

  lemma TriggerIsCovered(r: Run, id: int, node: string, index: nat)
    requires MessagesInv(r) && r.life.row.state == L.Active && !r.rearmOwed
    requires IsTrigger(r.board, id, node, index) && node != ""
    ensures Keys.TriggerKey(node, index) in r.deliveries || exists j :: j in r.commJobs && CommActs(j, node, index)
  {
    assert MessageCovered(r, node, index);
  }

  lemma JobIsRunnable(r: Run, j: CommJob)
    requires Core(r) && ServedInv(r) && r.life.row.state == L.Active
    requires AllOnTime(r.board, r.life.log, r.commJobs) && j in r.commJobs
    ensures IsRunnable(r, j)
  {
    hide Core, ServedInv, JudgeComm, Clock.ActiveTicks;
    assert OnTime(r.board, r.life.log, j);
    JudgesExactlyWhen(r, j);
  }
}
