/** When triggered communications go out: never before their delay has passed in active time. */
module MessageTiming {
  import opened Wrappers
  import opened Scenario
  import opened Progression
  import opened ProgressionInvariants
  import opened Scheduling
  import opened ScheduleTheorems
  import opened MessageTheorems
  import L = Lifecycle
  import Clock
  import Sorting

  // ── Invariants ────────────────────────────────────────────────────────────

  /** The release instant fell while the exercise was active. */
  ghost predicate ReleasedInTime(log: seq<L.Transition>, releasedAt: int) {
    exists k :: Clock.ReleasedWhileActive(log, k, releasedAt)
  }

  ghost predicate ReleasesInTime(b: Board, log: seq<L.Transition>) {
    forall id | Opened(b, id) && b.injects[id].releasedAt.Some? :: ReleasedInTime(log, b.injects[id].releasedAt.value)
  }

  /** By `at`, the exercise had been active since the release for the delay, up to the epsilon. */
  predicate DelayServed(log: seq<L.Transition>, releasedAt: Option<int>, trigger: TriggerComm, at: int) {
    && releasedAt.Some? && releasedAt.value <= at
    && Clock.ActiveTicks(log, releasedAt.value, at) + Clock.SECOND >= trigger.delaySeconds * Clock.SECOND
  }

  ghost predicate VerdictServed(b: Board, log: seq<L.Transition>, j: CommJob) {
    j.phase.Settled? && j.phase.verdict.Deliver? ==>
      Opened(b, j.inject) && DelayServed(log, b.injects[j.inject].releasedAt, j.phase.verdict.trigger, b.now)
  }

  ghost predicate VerdictsServed(b: Board, log: seq<L.Transition>, jobs: multiset<CommJob>) {
    forall j | j in jobs :: VerdictServed(b, log, j)
  }

  ghost predicate DeliveryServed(b: Board, log: seq<L.Transition>, d: Delivery) {
    d.sentAt <= b.now && Opened(b, d.inject) && DelayServed(log, b.injects[d.inject].releasedAt, d.trigger, d.sentAt)
  }

  ghost predicate DeliveriesServed(b: Board, log: seq<L.Transition>, deliveries: map<string, Delivery>) {
    forall key | key in deliveries :: DeliveryServed(b, log, deliveries[key])
  }

  ghost predicate ServedInv(r: Run) {
    && ReleasesInTime(r.board, r.life.log)
    && VerdictsServed(r.board, r.life.log, r.commJobs)
    && DeliveriesServed(r.board, r.life.log, r.deliveries)
  }

  // ── Later boards and longer logs ──────────────────────────────────────────

  lemma ServedLonger(log: seq<L.Transition>, releasedAt: Option<int>, trigger: TriggerComm, at: int, later: int)
    requires DelayServed(log, releasedAt, trigger, at) && at <= later
    ensures DelayServed(log, releasedAt, trigger, later)
  {
    Clock.TicksSplit(log, releasedAt.value, at, later);
  }

  lemma LaterBoardKeepsServed(r: Run, r': Run)
    requires ServedInv(r) && Extends(r.board, r'.board) && OpensNothing(r.board, r'.board)
    requires r'.life == r.life && r'.commJobs == r.commJobs && r'.deliveries == r.deliveries
    ensures ServedInv(r')
  {
    var log := r.life.log;
    forall id | Opened(r'.board, id) && r'.board.injects[id].releasedAt.Some?
      ensures ReleasedInTime(log, r'.board.injects[id].releasedAt.value)
    {
      assert SameRelease(r.board.injects[id], r'.board.injects[id]);
    }
    JobsAndDeliveriesLast(r, r'.board);
  }

  lemma JobsAndDeliveriesLast(r: Run, b: Board)
    requires ServedInv(r) && Extends(r.board, b)
    ensures VerdictsServed(b, r.life.log, r.commJobs) && DeliveriesServed(b, r.life.log, r.deliveries)
  {
    forall j | j in r.commJobs ensures VerdictServed(b, r.life.log, j) {
      if j.phase.Settled? && j.phase.verdict.Deliver? {
        assert SameRelease(r.board.injects[j.inject], b.injects[j.inject]);
        ServedLonger(r.life.log, b.injects[j.inject].releasedAt, j.phase.verdict.trigger, r.board.now, b.now);
      }
    }
    forall key | key in r.deliveries ensures DeliveryServed(b, r.life.log, r.deliveries[key]) {
      assert DeliveryServed(r.board, r.life.log, r.deliveries[key]);
      assert SameRelease(r.board.injects[r.deliveries[key].inject], b.injects[r.deliveries[key].inject]);
    }
  }

  lemma ServedUnderLongerLog(log: seq<L.Transition>, entry: L.Transition, releasedAt: Option<int>,
                             trigger: TriggerComm, at: int)
    requires DelayServed(log, releasedAt, trigger, at) && at <= entry.at
    ensures DelayServed(log + [entry], releasedAt, trigger, at)
  {
    Clock.TicksIgnoreLaterEntries(log, entry, releasedAt.value, at);
  }

  lemma InTimeUnderLongerLog(log: seq<L.Transition>, entry: L.Transition, releasedAt: int)
    requires ReleasedInTime(log, releasedAt) && releasedAt <= entry.at
    ensures ReleasedInTime(log + [entry], releasedAt)
  {
    var k: nat :| Clock.ReleasedWhileActive(log, k, releasedAt);
    assert (log + [entry])[..k] == log[..k];
    assert Clock.ReleasedWhileActive(log + [entry], k, releasedAt);
  }

  lemma LongerLogKeepsServed(r: Run, log: seq<L.Transition>, entry: L.Transition)
    requires ServedInv(r) && Inv(r.board) && log == r.life.log + [entry] && r.board.now <= entry.at
    ensures ReleasesInTime(r.board, log) && VerdictsServed(r.board, log, r.commJobs)
    ensures DeliveriesServed(r.board, log, r.deliveries)
  {
    forall id | Opened(r.board, id) && r.board.injects[id].releasedAt.Some?
      ensures ReleasedInTime(log, r.board.injects[id].releasedAt.value)
    {
      OpenedWasReleased(r.board, id);
      InTimeUnderLongerLog(r.life.log, entry, r.board.injects[id].releasedAt.value);
    }
    forall j | j in r.commJobs ensures VerdictServed(r.board, log, j) {
      if j.phase.Settled? && j.phase.verdict.Deliver? {
        ServedUnderLongerLog(r.life.log, entry, r.board.injects[j.inject].releasedAt, j.phase.verdict.trigger, r.board.now);
      }
    }
    forall key | key in r.deliveries ensures DeliveryServed(r.board, log, r.deliveries[key]) {
      var d := r.deliveries[key];
      ServedUnderLongerLog(r.life.log, entry, r.board.injects[d.inject].releasedAt, d.trigger, d.sentAt);
    }
  }

  lemma OpenedWasReleased(b: Board, id: int)
    requires Inv(b) && Opened(b, id)
    ensures b.injects[id].releasedAt.Some? && b.injects[id].releasedAt.value <= b.now
  {
    assert InjectInv(b.injects[id], Rows(b, id), Answers(b, id), b.members, b.now);
  }

  // ── Releases ──────────────────────────────────────────────────────────────

  lemma ActiveNow(life: L.Life, now: int)
    requires L.LifeInv(life, now) && life.row.state == L.Active
    ensures ReleasedInTime(life.log, now)
  {
    var n := |life.log|;
    assert L.RowMatchesLog(life.versions[n], life.log[..n]);
    assert Clock.ReleasedWhileActive(life.log, n, now);
  }

  lemma FreshTriggersWait(b: Board, id: int, j: CommJob)
    requires id in b.injects && j in ReleaseTriggers(b, id)
    ensures j.phase == Waiting
  {
    var node := NodeOf(b, id).value;
    TriggerJobsComplete(node, id, |node.triggers|, b.now);
    assert j in TriggerJobs(node, id, |node.triggers|, b.now);
  }

  lemma ReleaseKeepsServed(r: Run, r': Run, id: int, actor: Option<int>, scheduled: bool)
    requires Core(r) && ServedInv(r) && r.life.row.state == L.Active && r'.life == r.life
    requires ReleaseInject(r.board, id, actor, scheduled) == Ok(r'.board)
    requires r'.deliveries == r.deliveries && r'.commJobs == r.commJobs + ReleaseTriggers(r'.board, id)
    ensures ServedInv(r')
  {
    ReleaseKeeps(r.board, id, actor, scheduled);
    ReleaseTouches(r.board, id, actor, scheduled);
    ActiveNow(r.life, r.board.now);
    JobsAndDeliveriesLast(r, r'.board);
    forall j | j in r'.commJobs ensures VerdictServed(r'.board, r.life.log, j) {
      if j !in r.commJobs { FreshTriggersWait(r'.board, id, j); }
    }
    forall q | Opened(r'.board, q) && r'.board.injects[q].releasedAt.Some?
      ensures ReleasedInTime(r.life.log, r'.board.injects[q].releasedAt.value)
    {
      if q != id { assert r'.board.injects[q] == r.board.injects[q]; }
    }
  }

  // ── The worker ────────────────────────────────────────────────────────────

  /** A decision to deliver means the delay has been served. */
  lemma DeliverVerdictIsServed(r: Run, j: CommJob)
    requires Core(r) && ServedInv(r) && JudgeComm(r, j).Deliver?
    ensures Opened(r.board, j.inject)
    ensures DelayServed(r.life.log, r.board.injects[j.inject].releasedAt, JudgeComm(r, j).trigger, r.board.now)
  {
    var log := r.life.log;
    ReleasedIsOpened(r.board, j.inject);
    OpenedWasReleased(r.board, j.inject);
    var releasedAt := r.board.injects[j.inject].releasedAt.value;
    var k: nat :| Clock.ReleasedWhileActive(log, k, releasedAt);
    Sorting.SortKeepsSorted(Clock.Earlier, log);
    Clock.OrderedFoldIsActiveTime(r.life, k, releasedAt, log, r.board.now);
  }

  lemma SwapKeepsServed(b: Board, log: seq<L.Transition>, jobs: multiset<CommJob>, jobs': multiset<CommJob>, new_: CommJob)
    requires VerdictsServed(b, log, jobs) && VerdictServed(b, log, new_)
    requires forall j | j in jobs' :: j in jobs || j == new_
    ensures VerdictsServed(b, log, jobs')
  {
  }

  lemma ReadKeepsServed(r: Run, j: CommJob)
    requires Core(r) && ServedInv(r)
    ensures VerdictsServed(r.board, r.life.log, ReadComm(r, j).commJobs)
  {
    if j in r.commJobs && j.phase == CommPhase.Running {
      var decided := j.(phase := Settled(JudgeComm(r, j)));
      if JudgeComm(r, j).Deliver? { DeliverVerdictIsServed(r, j); }
      SwapKeepsServed(r.board, r.life.log, r.commJobs, ReadComm(r, j).commJobs, decided);
    }
  }

  lemma DeliveringKeepsServed(r: Run, j: CommJob, trigger: TriggerComm)
    requires ServedInv(r) && j in r.commJobs && j.phase == Settled(Deliver(trigger))
    ensures VerdictsServed(r.board, r.life.log, FinishComm(r, j).commJobs)
    ensures DeliveriesServed(r.board, r.life.log, FinishComm(r, j).deliveries)
  {
    hide Clock.ActiveTicks, DelayServed, ReleasesInTime, Opened, DeliverOnce;
    assert VerdictServed(r.board, r.life.log, j);
    DeliverOnceFields(r.(commJobs := r.commJobs - multiset{j}), j, trigger);
    assert DeliveryServed(r.board, r.life.log, Delivery(j.inject, trigger, r.board.now));
    SwapKeepsServed(r.board, r.life.log, r.commJobs, FinishComm(r, j).commJobs, j);
  }

  lemma FinishKeepsServed(r: Run, j: CommJob)
    requires ServedInv(r)
    ensures VerdictsServed(r.board, r.life.log, FinishComm(r, j).commJobs)
    ensures DeliveriesServed(r.board, r.life.log, FinishComm(r, j).deliveries)
  {
    hide Clock.ActiveTicks, DelayServed, ReleasesInTime, Opened, DeliverOnce;
    if j in r.commJobs && j.phase.Settled? {
      assert VerdictServed(r.board, r.life.log, j);
      match j.phase.verdict
      case Drop =>
      case Return(remaining, readAt) =>
        SwapKeepsServed(r.board, r.life.log, r.commJobs, FinishComm(r, j).commJobs,
                        SentBack(j, remaining, readAt, r.board.now));
      case Deliver(trigger) =>
        DeliveringKeepsServed(r, j, trigger);
    }
  }

  lemma RephaseKeepsServed(r: Run, j: CommJob, phase: CommPhase)
    requires ServedInv(r) && !phase.Settled?
    ensures VerdictsServed(r.board, r.life.log, ReplaceComm(r.commJobs, j, j.(phase := phase)))
  {
    SwapKeepsServed(r.board, r.life.log, r.commJobs, ReplaceComm(r.commJobs, j, j.(phase := phase)), j.(phase := phase));
  }

  lemma MessageKeepsServed(r: Run, work: Work, j: CommJob)
    requires Core(r) && ServedInv(r)
    ensures ServedInv(WorkMessage(r, work, j))
  {
    match work
    case Fetch => RephaseKeepsServed(r, j, CommPhase.Running);
    case Read =>
      ReadCommLeavesRest(r, j);
      ReadKeepsServed(r, j);
    case Finish =>
      FinishCommLeavesRest(r, j);
      FinishKeepsServed(r, j);
    case Retry => RephaseKeepsServed(r, j, Waiting);
    case Rerun => SwapKeepsServed(r.board, r.life.log, r.commJobs, RerunComm(r, j).commJobs, j.(phase := Waiting));
  }

  // ── Every move ────────────────────────────────────────────────────────────

  lemma RequestKeepsServed(r: Run, request: Request)
    requires Core(r) && ServedInv(r) && Handle(r, request).Ok?
    ensures ServedInv(Handle(r, request).value)
  {
    if request.ReleaseByHand? {
      ReleaseIsABoardStep(r, request.inject, Some(request.actor), false);
      ReleaseKeepsServed(r, Handle(r, request).value, request.inject, Some(request.actor), false);
    } else {
      RequestIsABoardStep(r, request);
      CommitKeeps(r.board, RequestStep(r, request));
      OpensOnlyReleased(r.board, RequestStep(r, request));
      LaterBoardKeepsServed(r, Handle(r, request).value);
    }
  }

  lemma WorkKeepsServed(r: Run, work: Work, j: ReleaseJob)
    requires Core(r) && ServedInv(r) && r.life.versions != []
    ensures ServedInv(WorkRelease(r, work, j))
  {
    if work == Finish && FinishReleases(r, j) {
      FinishIsARelease(r, j);
      ReleaseKeepsServed(r, FinishJob(r, j), j.inject, None, true);
    } else {
      if work == Finish { FinishIsQuiet(r, j); } else { WorkInPlace(r, work, j); }
      LaterBoardKeepsServed(r, WorkRelease(r, work, j));
    }
  }

  lemma ChangeKeepsServed(r: Run, seen: nat, target: L.Phase)
    requires Core(r) && ServedInv(r) && ChangeState(r, seen, target).Ok?
    ensures ServedInv(ChangeState(r, seen, target).value)
  {
    var next := ChangeState(r, seen, target).value;
    L.TransitionOutcome(r.life, r.life.versions[seen], target, r.board.now);
    LongerLogKeepsServed(r, next.life.log, next.life.log[|r.life.log|]);
  }

  lemma RearmKeepsServed(r: Run, version: nat, order: seq<int>)
    requires ServedInv(r) && version < |r.life.versions| && ReleasedInOrder(r.board, order)
    requires IsRunning(r.life.versions[version])
    ensures ServedInv(ScheduleExerciseInjects(r, version, order))
  {
    var r' := ScheduleExerciseInjects(r, version, order);
    EnqueueLeavesBoard(r, version, Unqueued(r));
    RearmFields(r, version, order);
    forall j | j in r'.commJobs ensures VerdictServed(r.board, r.life.log, j) {
      if j !in r.commJobs { OwedJobs(r, version, order, j); }
    }
  }

  lemma MoveKeepsServed(r: Run, move: Move)
    requires Core(r) && ServedInv(r)
    ensures ServedInv(Perform(r, move))
  {
    match move
    case Ask(request) => if Handle(r, request).Ok? { RequestKeepsServed(r, request); }
    case ChangeTo(seen, target) => if ChangeState(r, seen, target).Ok? { ChangeKeepsServed(r, seen, target); }
    case Rearm(version, order) =>
      if version < |r.life.versions| && ReleasedInOrder(r.board, order) && IsRunning(r.life.versions[version]) {
        RearmKeepsServed(r, version, order);
      }
    case OnRelease(work, j) => WorkKeepsServed(r, work, j);
    case OnMessage(work, j) => MessageKeepsServed(r, work, j);
  }

  lemma {:induction false} PlayKeepsServed(def: Definition, start: int, moves: seq<TimedMove>)
    ensures ServedInv(Play(CreateExercise(def, start), moves))
  {
    if moves == [] {
      SeedInjectsPending(def.injects);
    } else {
      var n := |moves| - 1;
      var before := Play(CreateExercise(def, start), moves[..n]);
      PlayKeeps(def, start, moves[..n]);
      PlayKeepsServed(def, start, moves[..n]);
      WaitKeepsCore(before, moves[n].dt);
      LaterBoardKeepsServed(before, Wait(before, moves[n].dt));
      MoveKeepsServed(Wait(before, moves[n].dt), moves[n].move);
    }
  }

  // ── Main results ──────────────────────────────────────────────────────────

  /** Every release of a run fell while the exercise was active, so at any later instant the fold over
      the transition log is the active time since that release. */
  lemma FoldCountsActiveTimeForEveryRelease(def: Definition, start: int, moves: seq<TimedMove>, id: int)
    requires Opened(Play(CreateExercise(def, start), moves).board, id)
    ensures var r := Play(CreateExercise(def, start), moves);
            && r.board.injects[id].releasedAt.Some?
            && var releasedAt := r.board.injects[id].releasedAt.value;
               Clock.ActiveElapsedSince(r.life.row, releasedAt, r.life.log, r.board.now)
               == Clock.ActiveTicks(r.life.log, releasedAt, r.board.now)
  {
    var r := Play(CreateExercise(def, start), moves);
    PlayKeeps(def, start, moves);
    PlayKeepsServed(def, start, moves);
    OpenedWasReleased(r.board, id);
    var releasedAt := r.board.injects[id].releasedAt.value;
    var k: nat :| Clock.ReleasedWhileActive(r.life.log, k, releasedAt);
    Sorting.SortKeepsSorted(Clock.Earlier, r.life.log);
    Clock.OrderedFoldIsActiveTime(r.life, k, releasedAt, r.life.log, r.board.now);
  }

  /** Whatever pauses, retries and stale jobs a run contains, a triggered communication is sent only
      once the exercise has been active, since the release it follows, for its delay less one second. */
  lemma MessagesAreNeverEarly(def: Definition, start: int, moves: seq<TimedMove>, key: string)
    requires key in Play(CreateExercise(def, start), moves).deliveries
    ensures var r := Play(CreateExercise(def, start), moves);
            var d := r.deliveries[key];
            && Opened(r.board, d.inject) && r.board.injects[d.inject].releasedAt.Some?
            && var releasedAt := r.board.injects[d.inject].releasedAt.value;
               Clock.ActiveTicks(r.life.log, releasedAt, d.sentAt) >= d.trigger.delaySeconds * Clock.SECOND - Clock.SECOND
  {
    var r := Play(CreateExercise(def, start), moves);
    PlayKeepsServed(def, start, moves);
    assert DeliveryServed(r.board, r.life.log, r.deliveries[key]);
  }
}
