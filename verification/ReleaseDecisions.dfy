/** What a worker decides about a due release, and that nothing is released by schedule before its time. */
module ReleaseDecisions {
  import opened Wrappers
  import opened Scenario
  import opened Progression
  import opened ProgressionInvariants
  import opened Scheduling
  import opened ScheduleTheorems
  import opened ReleaseTiming
  import opened OffsetEdits
  import opened Outcomes
  import L = Lifecycle
  import Clock
  import Provenance

  // ── The decision ──────────────────────────────────────────────────────────

  /** The inject's offset is still to be served by this much active time; an offset is in minutes. */
  function LeftOf(r: Run, id: int): int
    requires id in r.board.injects && r.board.injects[id].offset.Some? && r.life.row.startedAt.Some?
  {
    r.board.injects[id].offset.value * 60_000_000
    - Clock.ActiveTicks(r.life.log, r.life.row.startedAt.value, r.board.now)
  }

  /** A worker's decision from the rows as they are. It stands down unless the exercise is active and the
      inject pending with an offset; it comes back, by the latest row and this offset, while more than a
      second of active time is left; and then releases if the gate is open and stands down if not. */
  ghost predicate Decides(r: Run, id: int, verdict: Verdict) {
    if r.life.row.state == L.Active && r.life.row.startedAt.Some? && id in r.board.injects
       && r.board.injects[id].state == Pending && r.board.injects[id].offset.Some?
    then
      if LeftOf(r, id) > 1_000_000 then
        verdict.ComeBack? && verdict.version + 1 == |r.life.versions| && Some(verdict.offset) == r.board.injects[id].offset
      else if GateOpen(r.board, r.board.injects[id], true) then verdict == Proceed
      else verdict == StandDown
    else verdict == StandDown
  }

  lemma JudgeDecides(r: Run, id: int)
    requires Core(r) && TimedRun(r)
    ensures r.life.versions != [] && Decides(r, id, Judge(r, id))
  {
    hide GateOpen, ReleaseIsAllowed, AllTimed, Clock.ActiveTicks, Inv;
    CoreRow(r);
    if id in r.board.injects { GateExactlyWhen(r.board, r.board.injects[id], true); }
    if r.life.row.state == L.Active { Clock.AccumulatorIsActiveTime(r.life, r.board.now); }
  }

  /** In every run whose resumes read current pause fields, workers decide so. */
  lemma WorkersDecideExactly(def: Definition, start: int, moves: seq<TimedMove>, id: int)
    requires FreshRun(def, start, moves)
    ensures var r := Play(CreateExercise(def, start), moves); r.life.versions != [] && Decides(r, id, Judge(r, id))
  {
    hide Play, FreshRun, QueueInv, TimedRun, Core, Decides;
    PlayKeeps(def, start, moves);
    PlayKeepsTimed(def, start, moves);
    JudgeDecides(Play(CreateExercise(def, start), moves), id);
  }

  // ── Where a decision comes from ───────────────────────────────────────────

  lemma EnqueueAddsTodo(r: Run, version: nat, ids: set<int>, k: ReleaseJob)
    requires version < |r.life.versions| && k in Enqueue(r, version, ids).jobs && k !in r.jobs
    ensures k.phase == Todo
  {
    assert k in JobsFor(r, version, ids);
  }

  lemma RequestAddsTodo(r: Run, request: Request, k: ReleaseJob)
    requires r.life.versions != [] && Handle(r, request).Ok? && k in Handle(r, request).value.jobs && k !in r.jobs
    ensures k.phase == Todo
  {
    hide SubmitResponse, ReleaseInject, Enqueue;
    match request
    case Schedule(id, offset) =>
      var edited := r.(board := RescheduleInject(r.board, id, offset).value);
      EnqueueAddsTodo(edited, |r.life.versions| - 1, {id}, k);
    case Answer(version, id, user, group, selected) =>
      var answered := r.(board := SubmitResponse(r.board, id, user, group, selected).value);
      EnqueueAddsTodo(answered, version, CursorReached(answered.board), k);
    case ReleaseByHand(id, actor) => ReleaseIsABoardStep(r, id, Some(actor), false);
    case _ => EditIsABoardStep(r, request);
  }

  /** Only a worker's reading of a fetched job makes a decision, and it is the one the rows call for. */
  lemma OnlyReadingDecides(r: Run, move: Move, k: ReleaseJob)
    requires k in Perform(r, move).jobs && k !in r.jobs && k.phase.Decided?
    ensures move == OnRelease(Read, k.(phase := Doing)) && k.(phase := Doing) in r.jobs
    ensures r.life.versions != [] && k.phase.verdict == Judge(r, k.inject)
  {
    hide Judge, Handle, Enqueue, FinishJob, ReadJob, FetchJob, RetryJob, RerunJob;
    match move
    case Ask(request) => if Handle(r, request).Ok? { RequestAddsTodo(r, request, k); }
    case ChangeTo(seen, target) =>
    case Rearm(version, order) =>
      if version < |r.life.versions| && ReleasedInOrder(r.board, order) && IsRunning(r.life.versions[version]) {
        EnqueueAddsTodo(r, version, Unqueued(r), k);
      }
    case OnRelease(work, j) =>
      if work == Finish { FinishAdds(r, j, k); } else { WorkDecides(r, work, j, k); }
    case OnMessage(work, j) => MessageLeavesBoard(r, work, j);
  }

  lemma WorkDecides(r: Run, work: Work, j: ReleaseJob, k: ReleaseJob)
    requires r.life.versions != [] && work != Finish
    requires k in WorkRelease(r, work, j).jobs && k !in r.jobs && k.phase.Decided?
    ensures work == Read && j == k.(phase := Doing) && j in r.jobs && k.phase.verdict == Judge(r, k.inject)
  {
    hide Judge;
  }

  /** The state in which the n-th move was made. */
  ghost function Before(def: Definition, start: int, moves: seq<TimedMove>, n: nat): Run
    requires n < |moves|
  {
    Wait(Play(CreateExercise(def, start), moves[..n]), moves[n].dt)
  }

  /** The n-th move was a worker's reading of this job, and led to this verdict. */
  ghost predicate ReadAt(def: Definition, start: int, moves: seq<TimedMove>, n: nat, j: ReleaseJob, verdict: Verdict) {
    && n < |moves| && moves[n].move == OnRelease(Read, j.(phase := Doing))
    && Before(def, start, moves, n).life.versions != [] && Judge(Before(def, start, moves, n), j.inject) == verdict
  }

  lemma {:induction false} DecidedWasRead(def: Definition, start: int, moves: seq<TimedMove>, j: ReleaseJob)
    requires j in Play(CreateExercise(def, start), moves).jobs && j.phase.Decided?
    ensures exists n: nat :: ReadAt(def, start, moves, n, j, j.phase.verdict)
  {
    if moves != [] {
      hide Perform, Judge;
      var n := |moves| - 1;
      if j in Play(CreateExercise(def, start), moves[..n]).jobs {
        DecidedWasRead(def, start, moves[..n], j);
        var m: nat :| ReadAt(def, start, moves[..n], m, j, j.phase.verdict);
        assert moves[..n][..m] == moves[..m];
        assert ReadAt(def, start, moves, m, j, j.phase.verdict);
      } else {
        OnlyReadingDecides(Before(def, start, moves, n), moves[n].move, j);
        assert ReadAt(def, start, moves, n, j, j.phase.verdict);
      }
    }
  }

  // ── Never early ───────────────────────────────────────────────────────────

  /** When the n-th move was made, the exercise was active, the inject pending with its gate open, and at
      most a second of active time short of the offset it then had. */
  ghost predicate WasDue(def: Definition, start: int, moves: seq<TimedMove>, n: nat, id: int) {
    && n < |moves|
    && var r := Before(def, start, moves, n);
       && r.life.row.state == L.Active && r.life.row.startedAt.Some?
       && id in r.board.injects && r.board.injects[id].state == Pending && r.board.injects[id].offset.Some?
       && LeftOf(r, id) <= 1_000_000 && GateOpen(r.board, r.board.injects[id], true)
  }

  lemma ReadingWasDue(def: Definition, start: int, moves: seq<TimedMove>, n: nat, j: ReleaseJob)
    requires FreshRun(def, start, moves) && ReadAt(def, start, moves, n, j, Proceed)
    ensures WasDue(def, start, moves, n, j.inject)
  {
    hide Play, Judge, TimedRun, Core, QueueInv, GateOpen, LeftOf;
    var before := Play(CreateExercise(def, start), moves[..n]);
    FreshPrefix(def, start, moves, n);
    PlayKeeps(def, start, moves[..n]);
    PlayKeepsTimed(def, start, moves[..n]);
    WaitKeepsCore(before, moves[n].dt);
    WaitKeepsTimed(before, moves[n].dt);
    JudgeDecides(Before(def, start, moves, n), j.inject);
  }

  lemma FreshPrefix(def: Definition, start: int, moves: seq<TimedMove>, n: nat)
    requires FreshRun(def, start, moves) && n <= |moves|
    ensures FreshRun(def, start, moves[..n])
  {
    forall m | 0 <= m < n ensures moves[..n][..m] == moves[..m] && moves[..n][m] == moves[m] {}
  }

  /** A release by schedule is the work of a job decided to proceed. */
  lemma ScheduledReleaseFinishes(r: Run, move: Move, id: int)
    requires Core(r) && Opened(Perform(r, move).board, id) && !Opened(r.board, id)
    requires Perform(r, move).board.injects[id].releasedBy.None?
    ensures move.OnRelease? && move.job.inject == id && move.job in r.jobs && move.job.phase == Decided(Proceed)
  {
    assert Inv(r.board);
    hide Perform, Commit, Core, Inv, Attempt, BoardStep;
    MoveIsABoardStep(r, move);
    Provenance.OnlyReleaseOpens(r.board, BoardStep(r, move), id);
    ReleaseSignsActor(r.board, BoardStep(r, move), id);
    UnsignedIsAWorkers(r, move);
    FinishNeedsItsJob(r, move, id);
  }

  lemma UnsignedIsAWorkers(r: Run, move: Move)
    requires BoardStep(r, move).Release? && BoardStep(r, move).actor.None?
    ensures move.OnRelease? && move.job.inject == BoardStep(r, move).inject
  {
  }

  lemma ReleaseSignsActor(b: Board, step: Step, id: int)
    requires step.Release? && step.inject == id && Attempt(b, step).Ok?
    ensures id in Commit(b, step).injects && Commit(b, step).injects[id].releasedBy == step.actor
  {
    hide ReleaseIsAllowed, Audience, SeedRows;
  }

  lemma FinishNeedsItsJob(r: Run, move: Move, id: int)
    requires move.OnRelease? && Perform(r, move).board != r.board
    ensures move.job in r.jobs && move.job.phase == Decided(Proceed)
  {
    if r.life.versions != [] {
      if move.work == Finish {
        if !FinishReleases(r, move.job) { FinishIsQuiet(r, move.job); }
      } else {
        WorkInPlace(r, move.work, move.job);
      }
    }
  }

  /** An inject released by schedule had been due, with its gate open, when a worker read it: whatever was
      paused, edited or retried since, active time had reached the offset it then had, less a second. */
  lemma {:induction false} ScheduledReleasesAreNeverEarly(def: Definition, start: int, moves: seq<TimedMove>, id: int)
    requires FreshRun(def, start, moves)
    requires var b := Play(CreateExercise(def, start), moves).board; Opened(b, id) && b.injects[id].releasedBy.None?
    ensures exists n: nat :: WasDue(def, start, moves, n, id)
  {
    var origin := CreateExercise(def, start);
    if moves == [] {
      SeedInjectsPending(def.injects);
    } else {
      hide Perform, Core, QueueInv, WasDue, FreshRun, ReadAt;
      var n := |moves| - 1;
      var before, waited := Play(origin, moves[..n]), Before(def, start, moves, n);
      PlayKeeps(def, start, moves[..n]);
      WaitKeepsCore(before, moves[n].dt);
      FreshPrefix(def, start, moves, n);
      if Opened(before.board, id) {
        MoveKeepsCore(waited, moves[n].move);
        StaysReleasedBy(before, waited, Perform(waited, moves[n].move), id);
        ScheduledReleasesAreNeverEarly(def, start, moves[..n], id);
        var m: nat :| WasDue(def, start, moves[..n], m, id);
        DueEarlierToo(def, start, moves, n, m, id);
      } else {
        ScheduledReleaseFinishes(waited, moves[n].move, id);
        DecidedWasRead(def, start, moves[..n], moves[n].move.job);
        var m: nat :| ReadAt(def, start, moves[..n], m, moves[n].move.job, Proceed);
        ReadingWasDue(def, start, moves[..n], m, moves[n].move.job);
        DueEarlierToo(def, start, moves, n, m, id);
      }
    }
  }

  lemma StaysReleasedBy(before: Run, waited: Run, after: Run, id: int)
    requires Opened(before.board, id) && Extends(before.board, waited.board) && Extends(waited.board, after.board)
    ensures id in after.board.injects && after.board.injects[id].releasedBy == before.board.injects[id].releasedBy
  {
    assert SameRelease(before.board.injects[id], waited.board.injects[id]);
    assert Opened(waited.board, id);
    assert SameRelease(waited.board.injects[id], after.board.injects[id]);
  }

  lemma DueEarlierToo(def: Definition, start: int, moves: seq<TimedMove>, n: nat, m: nat, id: int)
    requires n <= |moves| && WasDue(def, start, moves[..n], m, id)
    ensures WasDue(def, start, moves, m, id)
  {
    assert moves[..n][..m] == moves[..m];
  }
}
