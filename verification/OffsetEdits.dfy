/** What an offset edit does to the queue: when it takes effect, and when a release is never late for the
    offset its inject now has. */
module OffsetEdits {
  import opened Wrappers
  import opened Scenario
  import opened Progression
  import opened ProgressionInvariants
  import opened Scheduling
  import opened ScheduleTheorems
  import opened ReleaseTiming
  import L = Lifecycle
  import Clock

  // ── Jobs later than the inject's own offset ───────────────────────────────

  /** The job will run, or come back to run, after the instant the offset falls due at. */
  ghost predicate Later(row: L.Exercise, j: ReleaseJob, offset: nat, now: int) {
    match j.phase
    case Todo => now < j.at && (row.startedAt.Some? ==> DueAt(row, offset) < j.at)
    case Doing => false
    case Decided(verdict) => verdict.ComeBack? && offset < verdict.offset
  }

  ghost predicate NoneLaterThan(r: Run, id: int, offset: nat) {
    forall j | j in r.jobs && j.inject == id :: !Later(r.life.row, j, offset, r.board.now)
  }

  /** No job of the inject is later than its own offset. */
  ghost predicate NoneLater(r: Run, id: int) {
    Schedulable(r.board, id) ==> NoneLaterThan(r, id, r.board.injects[id].offset.value)
  }

  lemma NewJobIsNotLater(life: L.Life, version: nat, id: int, offset: nat, now: int, redefers: nat)
    requires Paced(life) && version < |life.versions| && life.versions[version].startedAt.Some?
    requires life.versions[|life.log|] == life.row
    ensures !Later(life.row, JobFor(life.versions[version], version, id, offset, now, redefers), offset, now)
  {
    PausesGrowBetween(life, version, |life.log|);
  }

  /** A shorter offset falls due no later. */
  lemma ShorterIsNotLater(row: L.Exercise, j: ReleaseJob, shorter: nat, offset: nat, now: int)
    requires shorter <= offset && !Later(row, j, shorter, now)
    ensures !Later(row, j, offset, now)
  {
  }

  /** The queue of one inject changes only by jobs that are not later, and its offset not at all. */
  lemma QuietKeepsNoneLater(r: Run, r': Run, id: int)
    requires NoneLater(r, id) && r'.life.row == r.life.row && r.board.now <= r'.board.now
    requires Schedulable(r'.board, id) ==>
               Schedulable(r.board, id) && r'.board.injects[id].offset == r.board.injects[id].offset
    requires Schedulable(r'.board, id) ==>
               forall j | j in r'.jobs && j.inject == id && j !in r.jobs ::
                 !Later(r'.life.row, j, r'.board.injects[id].offset.value, r'.board.now)
    ensures NoneLater(r', id)
  {
  }

  lemma EnqueueKeepsNoneLater(r: Run, version: nat, ids: set<int>, id: int)
    requires Paced(r.life) && r.life.versions[|r.life.log|] == r.life.row
    requires version < |r.life.versions| && IsRunning(r.life.versions[version]) && NoneLater(r, id)
    ensures NoneLater(Enqueue(r, version, ids), id)
  {
    var r' := Enqueue(r, version, ids);
    if Schedulable(r.board, id) {
      forall j | j in r'.jobs && j.inject == id && j !in r.jobs
        ensures !Later(r.life.row, j, r.board.injects[id].offset.value, r.board.now)
      {
        assert j in JobsFor(r, version, ids);
        NewJobIsNotLater(r.life, version, id, r.board.injects[id].offset.value, r.board.now, 0);
      }
    }
  }

  // ── Requests ──────────────────────────────────────────────────────────────

  /** The edit finds no job of its inject later than the new offset. */
  ghost predicate TimelyEdit(r: Run, move: Move, id: int) {
    match move
    case Ask(Schedule(inject, Some(offset))) => inject == id ==> NoneLaterThan(r, id, offset)
    case _ => true
  }

  lemma ScheduleKeepsNoneLater(r: Run, inject: int, offset: Option<nat>, id: int)
    requires Paced(r.life) && r.life.versions[|r.life.log|] == r.life.row && NoneLater(r, id)
    requires UpdateSchedule(r, inject, offset).Ok? && TimelyEdit(r, Ask(Schedule(inject, offset)), id)
    ensures NoneLater(UpdateSchedule(r, inject, offset).value, id)
  {
    var edited := r.(board := RescheduleInject(r.board, inject, offset).value);
    assert NoneLater(edited, id);
    if IsRunning(r.life.row) { EnqueueKeepsNoneLater(edited, |r.life.log|, {inject}, id); }
    hide NoneLater, Enqueue;
  }

  lemma AnswerKeepsNoneLater(r: Run, version: nat, inject: int, user: int, group: Context, selected: Option<string>,
                             id: int)
    requires Paced(r.life) && r.life.versions[|r.life.log|] == r.life.row && NoneLater(r, id)
    requires RespondTo(r, version, inject, user, group, selected).Ok?
    ensures NoneLater(RespondTo(r, version, inject, user, group, selected).value, id)
  {
    var answered := r.(board := SubmitResponse(r.board, inject, user, group, selected).value);
    ResponseTouches(r.board, inject, user, group, selected);
    AnswerLeavesClock(r.board, inject, user, group, selected);
    hide SubmitResponse;
    QuietKeepsNoneLater(r, answered, id);
    if IsRunning(r.life.versions[version]) {
      EnqueueKeepsNoneLater(answered, version, CursorReached(answered.board), id);
    }
    hide NoneLater, Enqueue, CursorReached;
  }

  lemma EditKeepsNoneLater(r: Run, request: Request, id: int)
    requires Core(r) && NoneLater(r, id) && Handle(r, request).Ok?
    requires request.Roster? || request.Add? || request.Remove?
    ensures NoneLater(Handle(r, request).value, id)
  {
    EditIsABoardStep(r, request);
    EditLeavesOffset(r.board, RequestStep(r, request), id);
    CommitLeavesClock(r.board, RequestStep(r, request));
    QuietKeepsNoneLater(r, Handle(r, request).value, id);
  }

  lemma EditLeavesOffset(b: Board, step: Step, id: int)
    requires Attempt(b, step).Ok? && !step.Reschedule? && !step.Release? && !step.Respond?
    ensures var b' := Attempt(b, step).value;
            Schedulable(b', id) ==> Schedulable(b, id) && b'.injects[id].offset == b.injects[id].offset
  {
  }

  lemma ReleaseKeepsNoneLater(r: Run, inject: int, actor: Option<int>, scheduled: bool, id: int)
    requires NoneLater(r, id) && ReleaseNow(r, inject, actor, scheduled).Ok?
    ensures NoneLater(ReleaseNow(r, inject, actor, scheduled).value, id)
  {
    ReleaseIsABoardStep(r, inject, actor, scheduled);
    ReleaseTouches(r.board, inject, actor, scheduled);
    hide ReleaseInject;
    QuietKeepsNoneLater(r, ReleaseNow(r, inject, actor, scheduled).value, id);
  }

  lemma RequestKeepsNoneLater(r: Run, request: Request, id: int)
    requires Core(r) && Paced(r.life) && NoneLater(r, id) && Handle(r, request).Ok? && TimelyEdit(r, Ask(request), id)
    ensures NoneLater(Handle(r, request).value, id)
  {
    if request.Schedule? {
      ScheduleKeepsNoneLater(r, request.inject, request.offset, id);
    } else if request.Answer? {
      AnswerKeepsNoneLater(r, request.version, request.inject, request.user, request.group, request.selected, id);
    } else if request.ReleaseByHand? {
      ReleaseKeepsNoneLater(r, request.inject, Some(request.actor), false, id);
    } else {
      EditKeepsNoneLater(r, request, id);
    }
  }

  // ── Lifecycle and the worker ──────────────────────────────────────────────

  /** A resume only moves due instants on. */
  lemma ChangeKeepsNoneLater(r: Run, seen: nat, target: L.Phase, id: int)
    requires L.LifeInv(r.life, r.board.now) && TimedRun(r) && NoneLater(r, id)
    requires ChangeState(r, seen, target).Ok? && Paced(ChangeState(r, seen, target).value.life)
    ensures NoneLater(ChangeState(r, seen, target).value, id)
  {
    var r' := ChangeState(r, seen, target).value;
    var n := |r.life.log|;
    L.TransitionOutcome(r.life, r.life.versions[seen], target, r.board.now);
    assert r'.life.versions[n] == r.life.row && r'.life.versions[n + 1] == r'.life.row;
    if Schedulable(r.board, id) {
      var offset := r.board.injects[id].offset.value;
      forall j | j in r'.jobs && j.inject == id ensures !Later(r'.life.row, j, offset, r'.board.now) {
        assert ReleaseTiming.Timed(r.life, j, r.board.now) && !Later(r.life.row, j, offset, r.board.now);
      }
    }
  }

  lemma RephasedIsNotLater(r: Run, j: ReleaseJob, phase: Phase, offset: nat)
    requires j in r.jobs && TimedRun(r) && !Later(r.life.row, j, offset, r.board.now)
    requires phase == Todo || phase == Doing
    ensures !Later(r.life.row, j.(phase := phase), offset, r.board.now)
  {
    assert ReleaseTiming.Timed(r.life, j, r.board.now);
  }

  /** What a worker's step leaves in place of its job, or beside it. */
  lemma InPlaceAdds(r: Run, work: Work, j: ReleaseJob, k: ReleaseJob)
    requires r.life.versions != [] && work != Finish
    requires k in WorkRelease(r, work, j).jobs && k !in r.jobs
    ensures j in r.jobs
    ensures k == j.(phase := Todo) || k == j.(phase := Doing) || k == j.(phase := Decided(Judge(r, j.inject)))
  {
    hide Judge;
  }

  lemma InPlaceKeepsNoneLater(r: Run, work: Work, j: ReleaseJob, id: int)
    requires r.life.versions != [] && TimedRun(r) && NoneLater(r, id) && work != Finish
    ensures NoneLater(WorkRelease(r, work, j), id)
  {
    var r' := WorkRelease(r, work, j);
    WorkInPlace(r, work, j);
    forall k | k in r'.jobs && k.inject == id && k !in r.jobs && Schedulable(r.board, id)
      ensures !Later(r.life.row, k, r.board.injects[id].offset.value, r.board.now)
    {
      InPlaceAdds(r, work, j, k);
      hide WorkRelease, TimedRun;
      RephasedIsNotLater(r, j, Todo, r.board.injects[id].offset.value);
      RephasedIsNotLater(r, j, Doing, r.board.injects[id].offset.value);
    }
    hide WorkRelease, TimedRun;
    QuietKeepsNoneLater(r, r', id);
  }

  lemma ReleasingKeepsNoneLater(r: Run, j: ReleaseJob, id: int)
    requires NoneLater(r, id) && FinishReleases(r, j)
    ensures NoneLater(FinishJob(r, j), id)
  {
    FinishIsARelease(r, j);
    ReleaseTouches(r.board, j.inject, None, true);
    hide ReleaseInject;
    forall k | k in FinishJob(r, j).jobs ensures k in r.jobs { if k !in r.jobs { FinishAdds(r, j, k); } }
    hide FinishJob;
    QuietKeepsNoneLater(r, FinishJob(r, j), id);
  }

  lemma FinishKeepsNoneLater(r: Run, j: ReleaseJob, id: int)
    requires Core(r) && TimedRun(r) && NoneLater(r, id)
    ensures NoneLater(FinishJob(r, j), id)
  {
    hide Core, TimedRun, FinishReleases, FinishJob;
    if FinishReleases(r, j) {
      ReleasingKeepsNoneLater(r, j, id);
    } else {
      FinishIsQuiet(r, j);
      forall k | k in FinishJob(r, j).jobs && k.inject == id && k !in r.jobs && Schedulable(r.board, id)
        ensures !Later(r.life.row, k, r.board.injects[id].offset.value, r.board.now)
      {
        FinishAdds(r, j, k);
        ComeBackIsNotLater(r, j, k, r.board.injects[id].offset.value);
      }
      QuietKeepsNoneLater(r, FinishJob(r, j), id);
    }
  }

  lemma ComeBackIsNotLater(r: Run, j: ReleaseJob, k: ReleaseJob, offset: nat)
    requires Core(r) && TimedRun(r) && j in r.jobs && j.phase.Decided? && j.phase.verdict.ComeBack?
    requires !Later(r.life.row, j, offset, r.board.now)
    requires j.phase.verdict.version < |r.life.versions|
    requires var v := j.phase.verdict;
             exists redefers: nat ::
               k == JobFor(r.life.versions[v.version], v.version, j.inject, v.offset, r.board.now, redefers)
    ensures !Later(r.life.row, k, offset, r.board.now)
  {
    var v := j.phase.verdict;
    assert ReleaseTiming.Timed(r.life, j, r.board.now);
    var redefers: nat :|
      k == JobFor(r.life.versions[v.version], v.version, j.inject, v.offset, r.board.now, redefers);
    NewJobIsNotLater(r.life, v.version, j.inject, v.offset, r.board.now, redefers);
    ShorterIsNotLater(r.life.row, k, v.offset, offset, r.board.now);
  }

  // ── Whole runs ────────────────────────────────────────────────────────────

  lemma MoveKeepsNoneLater(r: Run, move: Move, id: int)
    requires Core(r) && TimedRun(r) && FreshMove(r, move) && NoneLater(r, id) && TimelyEdit(r, move, id)
    ensures NoneLater(Perform(r, move), id)
  {
    MoveKeepsTimed(r, move);
    hide TimedRun, Core;
    match move
    case Ask(request) => if Handle(r, request).Ok? { RequestKeepsNoneLater(r, request, id); }
    case ChangeTo(seen, target) => if ChangeState(r, seen, target).Ok? { ChangeKeepsNoneLater(r, seen, target, id); }
    case Rearm(version, order) =>
      if version < |r.life.versions| && ReleasedInOrder(r.board, order) && IsRunning(r.life.versions[version]) {
        EnqueueKeepsNoneLater(r, version, Unqueued(r), id);
      }
    case OnRelease(work, j) =>
      if work == Finish { FinishKeepsNoneLater(r, j, id); } else { InPlaceKeepsNoneLater(r, work, j, id); }
    case OnMessage(work, j) =>
      MessageLeavesBoard(r, work, j);
      QuietKeepsNoneLater(r, Perform(r, move), id);
  }

  /** Every edit of the inject's offset found no job of it later than the new offset. */
  ghost predicate TimelyEdits(def: Definition, start: int, moves: seq<TimedMove>, id: int) {
    forall n | 0 <= n < |moves| ::
      TimelyEdit(Wait(Play(CreateExercise(def, start), moves[..n]), moves[n].dt), moves[n].move, id)
  }

  lemma {:induction false} PlayKeepsNoneLater(def: Definition, start: int, moves: seq<TimedMove>, id: int)
    requires FreshRun(def, start, moves) && TimelyEdits(def, start, moves, id)
    ensures NoneLater(Play(CreateExercise(def, start), moves), id)
  {
    if moves != [] {
      hide Core, TimedRun, QueueInv, Perform, NoneLater, TimelyEdit;
      var n := |moves| - 1;
      forall m | 0 <= m < n ensures moves[..n][..m] == moves[..m] && moves[..n][m] == moves[m] {}
      assert FreshRun(def, start, moves[..n]) && TimelyEdits(def, start, moves[..n], id);
      PlayKeepsNoneLater(def, start, moves[..n], id);
      PlayKeepsTimed(def, start, moves[..n]);
      PlayKeeps(def, start, moves[..n]);
      StepKeepsNoneLater(Play(CreateExercise(def, start), moves[..n]), moves[n], id);
    }
  }

  lemma StepKeepsNoneLater(before: Run, tm: TimedMove, id: int)
    requires Core(before) && TimedRun(before) && FreshMove(before, tm.move) && NoneLater(before, id)
    requires TimelyEdit(Wait(before, tm.dt), tm.move, id)
    ensures NoneLater(Perform(Wait(before, tm.dt), tm.move), id)
  {
    var waited := Wait(before, tm.dt);
    WaitKeepsCore(before, tm.dt);
    QuietKeepsNoneLater(before, waited, id);
    WaitKeepsTimed(before, tm.dt);
    hide Core, TimedRun, Perform, NoneLater, TimelyEdit;
    MoveKeepsNoneLater(waited, tm.move, id);
  }

  // ── Main result ───────────────────────────────────────────────────────────

  lemma NotLaterIsRunnable(r: Run, j: ReleaseJob, offset: nat)
    requires Core(r) && TimedRun(r) && j in r.jobs && !Later(r.life.row, j, offset, r.board.now)
    requires r.life.row.startedAt.Some?
    requires Clock.ActiveTicks(r.life.log, r.life.row.startedAt.value, r.board.now) >= offset * Clock.MINUTE
    ensures j.at <= r.board.now
  {
    assert ReleaseTiming.Timed(r.life, j, r.board.now);
    if r.board.now < DueAt(r.life.row, offset) { DueAtIsDue(r.life, offset, r.board.now); }
  }

  lemma DueIsJudgedDue(r: Run, id: int)
    requires Core(r) && TimedRun(r) && r.life.row.state == L.Active && Schedulable(r.board, id)
    requires ReleaseIsAllowed(r.board, r.board.injects[id], true) && r.life.row.startedAt.Some?
    requires Clock.ActiveTicks(r.life.log, r.life.row.startedAt.value, r.board.now)
             >= r.board.injects[id].offset.value * Clock.MINUTE
    ensures r.life.versions != [] && Judge(r, id) == Proceed
  {
    Clock.AccumulatorIsActiveTime(r.life, r.board.now);
    hide Clock.ActiveTicks, ReleaseIsAllowed;
  }

  /** Nothing due is left waiting. In an active, re-enqueued run, a pending inject whose gate is open and
      whose last job was not refused has a job that will act. That job runs no later than the offset it
      was timed by; and if no edit of the inject's offset came upon a later job, then once the exercise
      has been active for the inject's own offset, every job of it may run, and a worker that reads the
      rows now will release it. */
  lemma DueReleasesAreRunnable(def: Definition, start: int, moves: seq<TimedMove>, id: int)
    requires FreshRun(def, start, moves)
    requires var r := Play(CreateExercise(def, start), moves);
             && r.life.row.state == L.Active && !r.rearmOwed && Schedulable(r.board, id)
             && ReleaseIsAllowed(r.board, r.board.injects[id], true) && id !in r.refused
    ensures var r := Play(CreateExercise(def, start), moves);
            && r.life.versions != [] && r.life.row.startedAt.Some?
            && var active := Clock.ActiveTicks(r.life.log, r.life.row.startedAt.value, r.board.now);
               && (exists j ::
                     j in r.jobs && ActsFor(j, id) && (active >= j.offset * Clock.MINUTE ==> j.at <= r.board.now))
               && (active >= r.board.injects[id].offset.value * Clock.MINUTE ==>
                     && Judge(r, id) == Proceed
                     && (TimelyEdits(def, start, moves, id) ==>
                           forall j | j in r.jobs && j.inject == id :: j.at <= r.board.now))
  {
    NoScheduledReleaseIsLost(def, start, moves, id);
    PlayKeeps(def, start, moves);
    PlayKeepsTimed(def, start, moves);
    if TimelyEdits(def, start, moves, id) { PlayKeepsNoneLater(def, start, moves, id); }
    hide Play, TimelyEdits, FreshRun, QueueInv;
    DueReleaseIsRunnable(Play(CreateExercise(def, start), moves), id);
  }

  lemma DueReleaseIsRunnable(r: Run, id: int)
    requires Core(r) && TimedRun(r) && r.life.row.state == L.Active && Schedulable(r.board, id)
    requires ReleaseIsAllowed(r.board, r.board.injects[id], true) && Covered(r.jobs, id)
    ensures r.life.versions != [] && r.life.row.startedAt.Some?
    ensures var active := Clock.ActiveTicks(r.life.log, r.life.row.startedAt.value, r.board.now);
            && (exists j ::
                  j in r.jobs && ActsFor(j, id) && (active >= j.offset * Clock.MINUTE ==> j.at <= r.board.now))
            && (active >= r.board.injects[id].offset.value * Clock.MINUTE ==>
                  && Judge(r, id) == Proceed
                  && (NoneLater(r, id) ==> forall j | j in r.jobs && j.inject == id :: j.at <= r.board.now))
  {
    CoreRow(r);
    hide TimedRun, Core, Clock.ActiveTicks, Later, ReleaseIsAllowed;
    var j :| j in r.jobs && ActsFor(j, id);
    JobIsOnlyEarly(r, j);
    var active := Clock.ActiveTicks(r.life.log, r.life.row.startedAt.value, r.board.now);
    if active >= r.board.injects[id].offset.value * Clock.MINUTE {
      DueIsJudgedDue(r, id);
      if NoneLater(r, id) {
        forall k | k in r.jobs && k.inject == id ensures k.at <= r.board.now {
          NotLaterIsRunnable(r, k, r.board.injects[id].offset.value);
        }
      }
    }
  }

  lemma ShorterJobIsNotLater(r: Run, j: ReleaseJob, offset: nat)
    requires Core(r) && TimedRun(r) && j in r.jobs && j.offset <= offset
    requires j.phase.Decided? && j.phase.verdict.ComeBack? ==> j.phase.verdict.offset <= offset
    ensures !Later(r.life.row, j, offset, r.board.now)
  {
    hide Core, TimedRun;
    JobIsOnlyEarly(r, j);
    EnqueuedBefore(r, j);
  }

  lemma EnqueuedBefore(r: Run, j: ReleaseJob)
    requires TimedRun(r) && j in r.jobs
    ensures j.enqueuedAt <= r.board.now
  {
    assert ReleaseTiming.Timed(r.life, j, r.board.now);
  }

  /** An edit that shortens nothing still to come is always in time: so is a first schedule, and every
      postponement. */
  lemma PostponingIsTimely(r: Run, id: int, offset: nat)
    requires Core(r) && TimedRun(r)
    requires forall j | j in r.jobs && j.inject == id ::
               && j.offset <= offset
               && (j.phase.Decided? && j.phase.verdict.ComeBack? ==> j.phase.verdict.offset <= offset)
    ensures NoneLaterThan(r, id, offset)
  {
    hide Core, TimedRun, Later;
    forall j | j in r.jobs && j.inject == id ensures !Later(r.life.row, j, offset, r.board.now) {
      ShorterJobIsNotLater(r, j, offset);
    }
  }

  // ── Which edits take effect ───────────────────────────────────────────────

  /** A job of the inject waits, timed by this offset. */
  predicate WaitsAt(r: Run, id: int, offset: nat) {
    exists j | j in r.jobs :: j.inject == id && j.phase == Todo && j.offset == offset
  }

  /** A move that neither works on the inject nor re-enqueues: lifecycle changes, roster edits, other
      injects and their jobs, communications. */
  predicate LeavesAlone(move: Move, id: int) {
    match move
    case Ask(Roster(_)) => true
    case Ask(Add(_, _, _)) => true
    case Ask(Remove(q)) => q != id
    case Ask(Schedule(q, _)) => q != id
    case Ask(ReleaseByHand(q, _)) => q != id
    case Ask(Answer(_, _, _, _, _)) => false
    case ChangeTo(_, _) => true
    case Rearm(_, _) => false
    case OnRelease(_, j) => j.inject != id
    case OnMessage(_, _) => true
  }

  /** The inject's row and its jobs are the same. */
  ghost predicate SameFor(r: Run, r': Run, id: int) {
    && id in r.board.injects && id in r'.board.injects && r'.board.injects[id] == r.board.injects[id]
    && forall j: ReleaseJob | j.inject == id :: r'.jobs[j] == r.jobs[j]
  }

  lemma EnqueueOthersSameFor(r: Run, version: nat, ids: set<int>, id: int)
    requires version < |r.life.versions| && id !in ids && id in r.board.injects
    ensures SameFor(r, Enqueue(r, version, ids), id)
  {
    forall j: ReleaseJob | j.inject == id ensures j !in JobsFor(r, version, ids) {}
  }

  lemma RequestLeavesAlone(r: Run, request: Request, id: int)
    requires r.life.versions != [] && id in r.board.injects && id < r.board.nextInject
    requires LeavesAlone(Ask(request), id) && Handle(r, request).Ok?
    ensures SameFor(r, Handle(r, request).value, id)
  {
    match request
    case Schedule(q, offset) =>
      var edited := r.(board := RescheduleInject(r.board, q, offset).value);
      EnqueueOthersSameFor(edited, |r.life.versions| - 1, {q}, id);
    case ReleaseByHand(q, actor) =>
      ReleaseIsABoardStep(r, q, Some(actor), false);
      ReleaseTouches(r.board, q, Some(actor), false);
    case _ =>
      EditIsABoardStep(r, request);
  }

  lemma FinishingReleaseJobs(r: Run, j: ReleaseJob)
    requires FinishReleases(r, j)
    ensures FinishJob(r, j).jobs == r.jobs - multiset{j}
  {
    hide ReleaseInject;
    ReleaseIsABoardStep(r.(jobs := r.jobs - multiset{j}), j.inject, None, true);
  }

  lemma FinishingQuietJobs(r: Run, j: ReleaseJob)
    requires !FinishReleases(r, j)
    ensures var jobs := FinishJob(r, j).jobs;
            || jobs == r.jobs || jobs == r.jobs - multiset{j}
            || exists again: ReleaseJob :: again.inject == j.inject && jobs == r.jobs - multiset{j} + multiset{again}
  {
    hide ReleaseInject, ReleaseNow;
    if j in r.jobs && j.phase == Decided(Proceed) {
      RefusedAttemptJobs(r, j);
      hide FinishJob;
    }
  }

  lemma RefusedAttemptJobs(r: Run, j: ReleaseJob)
    requires j in r.jobs && j.phase == Decided(Proceed) && !FinishReleases(r, j)
    ensures FinishJob(r, j).jobs == r.jobs - multiset{j}
  {
    hide ReleaseInject;
    assert ReleaseNow(r.(jobs := r.jobs - multiset{j}), j.inject, None, true).Err?;
  }

  lemma FinishJobsOfOthers(r: Run, j: ReleaseJob, id: int)
    requires j.inject != id
    ensures forall k: ReleaseJob | k.inject == id :: FinishJob(r, j).jobs[k] == r.jobs[k]
  {
    hide FinishReleases, FinishJob;
    if FinishReleases(r, j) { FinishingReleaseJobs(r, j); } else { FinishingQuietJobs(r, j); }
  }

  lemma FinishLeavesAlone(r: Run, j: ReleaseJob, id: int)
    requires id in r.board.injects && j.inject != id
    ensures SameFor(r, FinishJob(r, j), id)
  {
    FinishJobsOfOthers(r, j, id);
    if FinishReleases(r, j) {
      FinishIsARelease(r, j);
      ReleaseTouches(r.board, j.inject, None, true);
    } else {
      FinishIsQuiet(r, j);
    }
    hide FinishJob, ReleaseInject, FinishReleases;
  }

  lemma WorkLeavesAlone(r: Run, work: Work, j: ReleaseJob, id: int)
    requires r.life.versions != [] && id in r.board.injects && j.inject != id
    ensures SameFor(r, WorkRelease(r, work, j), id)
  {
    if work == Finish {
      FinishLeavesAlone(r, j, id);
      hide FinishJob;
    } else {
      hide WorkRelease;
      WorkInPlace(r, work, j);
      WorkJobsOfOthers(r, work, j, id);
    }
  }

  lemma WorkJobsOfOthers(r: Run, work: Work, j: ReleaseJob, id: int)
    requires r.life.versions != [] && work != Finish && j.inject != id
    ensures forall k: ReleaseJob | k.inject == id :: WorkRelease(r, work, j).jobs[k] == r.jobs[k]
  {
    hide Judge;
  }

  lemma MoveLeavesAlone(r: Run, move: Move, id: int)
    requires Core(r) && id in r.board.injects && LeavesAlone(move, id)
    ensures SameFor(r, Perform(r, move), id)
  {
    assert id < r.board.nextInject;
    hide Core, SameFor, Handle, WorkRelease, WorkMessage;
    SameAsBefore(r, r, id);
    match move
    case Ask(request) => if Handle(r, request).Ok? { RequestLeavesAlone(r, request, id); }
    case OnRelease(work, j) => WorkLeavesAlone(r, work, j, id);
    case OnMessage(work, j) =>
      MessageLeavesBoard(r, work, j);
      SameAsBefore(r, WorkMessage(r, work, j), id);
    case ChangeTo(seen, target) => SameAsBefore(r, Perform(r, move), id);
  }

  lemma SameAsBefore(r: Run, r': Run, id: int)
    requires id in r.board.injects && r'.board.injects == r.board.injects && r'.jobs == r.jobs
    ensures SameFor(r, r', id)
  {
  }

  lemma {:induction false} PlayLeavesAlone(r: Run, moves: seq<TimedMove>, id: int)
    requires Core(r) && id in r.board.injects && forall m | m in moves :: LeavesAlone(m.move, id)
    ensures Core(Play(r, moves)) && SameFor(r, Play(r, moves), id)
  {
    if moves != [] {
      var n := |moves| - 1;
      PlayLeavesAlone(r, moves[..n], id);
      var before := Play(r, moves[..n]);
      WaitKeepsCore(before, moves[n].dt);
      MoveKeepsCore(Wait(before, moves[n].dt), moves[n].move);
      MoveLeavesAlone(Wait(before, moves[n].dt), moves[n].move, id);
      hide Core, Perform, LeavesAlone;
    }
  }

  lemma SameJobsWait(r: Run, r': Run, id: int, offset: nat)
    requires forall j: ReleaseJob | j.inject == id :: r'.jobs[j] == r.jobs[j]
    ensures HasTodo(r', id) == HasTodo(r, id) && WaitsAt(r', id, offset) == WaitsAt(r, id, offset)
  {
    assert forall j: ReleaseJob | j.inject == id :: j in r'.jobs <==> j in r.jobs;
  }

  /** While the exercise runs, an edit adds a waiting job with the new offset; otherwise none. */
  lemma EditedWaits(r: Run, id: int, offset: nat)
    requires r.life.versions != [] && r.life.versions[|r.life.versions| - 1] == r.life.row
    requires UpdateSchedule(r, id, Some(offset)).Ok?
    ensures var edited := UpdateSchedule(r, id, Some(offset)).value;
            && (HasTodo(edited, id) <==> IsRunning(r.life.row) || HasTodo(r, id))
            && (WaitsAt(edited, id, offset) <==> IsRunning(r.life.row) || WaitsAt(r, id, offset))
            && Schedulable(edited.board, id) && edited.board.injects[id].offset == Some(offset)
  {
    var edited := UpdateSchedule(r, id, Some(offset)).value;
    if IsRunning(r.life.row) {
      var b := r.(board := RescheduleInject(r.board, id, Some(offset)).value);
      var latest := |r.life.versions| - 1;
      var j := JobFor(r.life.row, latest, id, offset, r.board.now, 0);
      assert j in JobsFor(b, latest, {id}) && j in edited.jobs;
    } else {
      assert edited.jobs == r.jobs;
    }
  }

  /** The re-enqueue adds a job for an inject exactly when none waits, and then with its own offset. */
  lemma RearmWaits(r: Run, version: nat, order: seq<int>, id: int, offset: nat)
    requires version < |r.life.versions| && ReleasedInOrder(r.board, order) && IsRunning(r.life.versions[version])
    requires Schedulable(r.board, id) && r.board.injects[id].offset == Some(offset)
    ensures WaitsAt(ScheduleExerciseInjects(r, version, order), id, offset)
            <==> WaitsAt(r, id, offset) || !HasTodo(r, id)
  {
    var r' := ScheduleExerciseInjects(r, version, order);
    if HasTodo(r, id) {
      RearmSkipsQueued(r, id, version, order);
      SameJobsWait(r, r', id, offset);
    } else {
      var j := JobFor(r.life.versions[version], version, id, offset, r.board.now, 0);
      assert j in JobsFor(r, version, Unqueued(r)) && j in r'.jobs;
    }
  }

  /** The re-enqueue leaves the jobs of an inject that has one waiting as they are. */
  lemma RearmSkipsQueued(r: Run, id: int, version: nat, order: seq<int>)
    requires HasTodo(r, id) && version < |r.life.versions| && ReleasedInOrder(r.board, order)
    ensures forall j: ReleaseJob | j.inject == id :: ScheduleExerciseInjects(r, version, order).jobs[j] == r.jobs[j]
  {
    if IsRunning(r.life.versions[version]) {
      var added := JobsFor(r, version, Unqueued(r));
      forall j: ReleaseJob | j.inject == id ensures j !in added {}
    }
  }

  /** An edited offset has taken effect by the next re-enqueue - some waiting job of the inject was timed
      by it - if and only if the exercise was running at the edit, or nothing waited for the inject, or
      something already waited with that offset. Whatever happens in between, as long as it neither
      works on this inject nor enqueues for it. */
  lemma EditTakesEffectExactlyWhen(r: Run, id: int, offset: nat, edited: Run, moves: seq<TimedMove>, version: nat,
                                   order: seq<int>)
    requires Core(r) && r.life.versions != [] && UpdateSchedule(r, id, Some(offset)) == Ok(edited)
    requires forall m | m in moves :: LeavesAlone(m.move, id)
    requires var later := Play(edited, moves);
             && version < |later.life.versions| && IsRunning(later.life.versions[version])
             && ReleasedInOrder(later.board, order)
    ensures WaitsAt(Perform(Play(edited, moves), Rearm(version, order)), id, offset)
            <==> IsRunning(r.life.row) || !HasTodo(r, id) || WaitsAt(r, id, offset)
  {
    CoreRow(r);
    EditedWaits(r, id, offset);
    EditKeepsCore(r, id, Some(offset));
    hide Core, Perform, Play, UpdateSchedule, HasTodo, WaitsAt, ReleasedInOrder, Schedulable;
    NextRearmWaits(edited, moves, version, order, id, offset);
  }

  lemma EditKeepsCore(r: Run, id: int, offset: Option<nat>)
    requires Core(r) && r.life.versions != [] && UpdateSchedule(r, id, offset).Ok?
    ensures Core(UpdateSchedule(r, id, offset).value)
  {
    hide Core, UpdateSchedule;
    MoveKeepsCore(r, Ask(Schedule(id, offset)));
  }

  lemma NextRearmWaits(r: Run, moves: seq<TimedMove>, version: nat, order: seq<int>, id: int, offset: nat)
    requires Core(r) && Schedulable(r.board, id) && r.board.injects[id].offset == Some(offset)
    requires forall m | m in moves :: LeavesAlone(m.move, id)
    requires var later := Play(r, moves);
             && version < |later.life.versions| && IsRunning(later.life.versions[version])
             && ReleasedInOrder(later.board, order)
    ensures WaitsAt(Perform(Play(r, moves), Rearm(version, order)), id, offset)
            <==> WaitsAt(r, id, offset) || !HasTodo(r, id)
  {
    hide Core, Perform, Play, HasTodo, WaitsAt, ReleasedInOrder;
    PlayLeavesAlone(r, moves, id);
    var later := Play(r, moves);
    SameJobsWait(r, later, id, offset);
    RearmWaits(later, version, order, id, offset);
    RearmIsTheReenqueue(later, version, order);
  }

  /** In particular, an edit of an inject that has a job waiting, made while the exercise is not running,
      leaves its jobs exactly as they were, and so does the re-enqueue that follows: the old time stands,
      however late it is for the new offset. */
  lemma PausedEditIsNotRearmed(r: Run, id: int, offset: Option<nat>, edited: Run, moves: seq<TimedMove>, version: nat,
                               order: seq<int>)
    requires Core(r) && r.life.versions != [] && UpdateSchedule(r, id, offset) == Ok(edited)
    requires !IsRunning(r.life.row) && HasTodo(r, id) && forall m | m in moves :: LeavesAlone(m.move, id)
    requires version < |Play(edited, moves).life.versions| && ReleasedInOrder(Play(edited, moves).board, order)
    ensures forall j: ReleaseJob | j.inject == id ::
              Perform(Play(edited, moves), Rearm(version, order)).jobs[j] == r.jobs[j]
  {
    CoreRow(r);
    assert edited.jobs == r.jobs && id in edited.board.injects;
    EditKeepsCore(r, id, offset);
    hide Core, Perform, Play, UpdateSchedule, HasTodo, ReleasedInOrder;
    SameJobsWait(r, edited, id, 0);
    NextRearmSkips(edited, moves, version, order, id);
  }

  lemma NextRearmSkips(r: Run, moves: seq<TimedMove>, version: nat, order: seq<int>, id: int)
    requires Core(r) && id in r.board.injects && HasTodo(r, id) && forall m | m in moves :: LeavesAlone(m.move, id)
    requires version < |Play(r, moves).life.versions| && ReleasedInOrder(Play(r, moves).board, order)
    ensures forall j: ReleaseJob | j.inject == id :: Perform(Play(r, moves), Rearm(version, order)).jobs[j] == r.jobs[j]
  {
    hide Core, Perform, Play, HasTodo, ReleasedInOrder;
    PlayLeavesAlone(r, moves, id);
    SameJobsWait(r, Play(r, moves), id, 0);
    RearmSkipsQueued(Play(r, moves), id, version, order);
    RearmIsTheReenqueue(Play(r, moves), version, order);
  }

  lemma RearmIsTheReenqueue(r: Run, version: nat, order: seq<int>)
    requires version < |r.life.versions| && ReleasedInOrder(r.board, order)
    ensures Perform(r, Rearm(version, order)) == ScheduleExerciseInjects(r, version, order)
  {
  }
}
