/** When queued releases run: a stale job is only ever early, and coming back terminates. */
module ReleaseTiming {
  import opened Wrappers
  import opened Scenario
  import opened Progression
  import opened Scheduling
  import opened ScheduleTheorems
  import L = Lifecycle
  import Clock

  // ── Pacing that only grows ────────────────────────────────────────────────

  /** How often the first n transitions resumed the exercise. */
  function Resumes(log: seq<L.Transition>, n: nat): nat
    requires n <= |log|
  {
    if n == 0 then 0
    else Resumes(log, n - 1) + if log[n - 1].from == L.Paused && log[n - 1].to == L.Active then 1 else 0
  }

  lemma {:induction false} ResumesIgnoreLaterEntries(log: seq<L.Transition>, entry: L.Transition, n: nat)
    requires n <= |log|
    ensures Resumes(log + [entry], n) == Resumes(log, n)
  {
    if n > 0 { ResumesIgnoreLaterEntries(log, entry, n - 1); }
  }

  lemma {:induction false} ResumesGrow(log: seq<L.Transition>, m: nat, n: nat)
    requires m <= n <= |log|
    ensures Resumes(log, m) <= Resumes(log, n)
  {
    if m < n { ResumesGrow(log, m, n - 1); }
  }

  /** From one version of the row to the next, the pause total grows, and only by a resume. */
  ghost predicate PausesGrow(life: L.Life) {
    && |life.versions| == |life.log| + 1
    && life.versions[0].accumulatedPause == 0
    && forall i | 0 <= i < |life.log| ::
         var a, b := life.versions[i].accumulatedPause, life.versions[i + 1].accumulatedPause;
         a <= b && (a < b ==> life.log[i].from == L.Paused && life.log[i].to == L.Active)
  }

  lemma {:induction false} PausesGrowBetween(life: L.Life, m: nat, n: nat)
    requires PausesGrow(life) && m <= n <= |life.log|
    ensures life.versions[m].accumulatedPause <= life.versions[n].accumulatedPause
    ensures life.versions[m].accumulatedPause < life.versions[n].accumulatedPause ==>
              Resumes(life.log, m) < Resumes(life.log, n)
  {
    if m < n {
      PausesGrowBetween(life, m, n - 1);
      ResumesGrow(life.log, m, n - 1);
    }
  }

  /** Every version of the row after the first transition carries the same start. */
  ghost predicate StartIsFixed(life: L.Life) {
    forall v | 0 <= v < |life.versions| && life.versions[v].startedAt.Some? ::
      life.row.startedAt == life.versions[v].startedAt
  }

  ghost predicate Paced(life: L.Life) {
    PausesGrow(life) && StartIsFixed(life) && Clock.PacingExact(life)
  }

  lemma HistoryFixesStart(life: L.Life, now: int)
    requires L.LifeInv(life, now)
    ensures StartIsFixed(life)
  {
    assert L.RowMatchesLog(life.versions[|life.log|], life.log[..|life.log|]);
    forall v | 0 <= v < |life.versions| && life.versions[v].startedAt.Some?
      ensures life.row.startedAt == life.versions[v].startedAt
    {
      assert L.RowMatchesLog(life.versions[v], life.log[..v]);
      assert life.log[..v][0] == life.log[0];
    }
  }

  /** The caller of a resume read the pause fields as they stand. */
  predicate FreshResume(life: L.Life, seen: nat, target: L.Phase) {
    target == L.Active && seen < |life.versions| && life.row.state == L.Paused ==>
      Clock.PacingCurrent(life.row, life.versions[seen])
  }

  lemma PausesGrowOneMore(life: L.Life, next: L.Life, entry: L.Transition)
    requires PausesGrow(life) && life.versions[|life.log|].accumulatedPause == life.row.accumulatedPause
    requires next.log == life.log + [entry] && next.versions == life.versions + [next.row]
    requires var a, b := life.row.accumulatedPause, next.row.accumulatedPause;
             a <= b && (a < b ==> entry.from == L.Paused && entry.to == L.Active)
    ensures PausesGrow(next)
  {
    forall i | 0 <= i < |next.log|
      ensures var a, b := next.versions[i].accumulatedPause, next.versions[i + 1].accumulatedPause;
              a <= b && (a < b ==> next.log[i].from == L.Paused && next.log[i].to == L.Active)
    {
      if i < |life.log| { assert next.log[i] == life.log[i]; }
    }
  }

  lemma TransitionPaces(life: L.Life, seen: nat, target: L.Phase, now: int)
    requires L.LifeInv(life, now) && Paced(life) && FreshResume(life, seen, target)
    requires seen < |life.versions| && L.TransitionState(life, life.versions[seen], target, now).Ok?
    ensures Paced(L.TransitionState(life, life.versions[seen], target, now).value)
  {
    var next := L.TransitionState(life, life.versions[seen], target, now).value;
    L.TransitionKeeps(life, seen, target, now, now);
    HistoryFixesStart(next, now);
    Clock.PacingStaysExactExactlyWhen(life, seen, target, now, now);
    PauseTotalGrows(life, seen, target, now);
    L.TransitionOutcome(life, life.versions[seen], target, now);
    hide L.TransitionState, Clock.PacingExact, StartIsFixed, L.LifeInv;
    PausesGrowOneMore(life, next, L.Transition(life.row.state, target, now));
  }

  lemma PauseTotalGrows(life: L.Life, seen: nat, target: L.Phase, now: int)
    requires L.LifeInv(life, now) && FreshResume(life, seen, target)
    requires seen < |life.versions| && L.TransitionState(life, life.versions[seen], target, now).Ok?
    ensures var a := life.row.accumulatedPause;
            var b := L.TransitionState(life, life.versions[seen], target, now).value.row.accumulatedPause;
            a <= b && (a < b ==> life.row.state == L.Paused && target == L.Active)
  {
    assert L.RowMatchesLog(life.row, life.log[..|life.log|]);
    assert L.RowMatchesLog(life.versions[seen], life.log[..seen]);
    assert life.log[..|life.log|] == life.log;
  }

  // ── Job times ─────────────────────────────────────────────────────────────

  /** When the offset falls due, as the row counts its pauses. */
  function DueAt(row: L.Exercise, offset: nat): int
    requires row.startedAt.Some?
  {
    row.startedAt.value + row.accumulatedPause + offset * Clock.MINUTE
  }

  /** The job's time, its enqueueing, and how often it has come back, all fit the version it was
      computed from. */
  ghost predicate Timed(life: L.Life, j: ReleaseJob, now: int) {
    && j.version < |life.versions| && |life.versions| == |life.log| + 1
    && life.versions[j.version].startedAt.Some?
    && j.at == Max(j.enqueuedAt, DueAt(life.versions[j.version], j.offset))
    && j.enqueuedAt <= now
    && (j.phase != Todo ==> j.at <= now)
    && j.redefers * Clock.SECOND <= life.versions[j.version].accumulatedPause
    && j.redefers <= Resumes(life.log, j.version)
    && (j.phase.Decided? && j.phase.verdict.ComeBack? ==> PauseConsumed(life, j, j.phase.verdict))
  }

  /** Coming back with the offset unchanged means more than the epsilon of pause has been counted since. */
  ghost predicate PauseConsumed(life: L.Life, j: ReleaseJob, verdict: Verdict)
    requires verdict.ComeBack? && j.version < |life.versions|
  {
    && j.version <= verdict.version < |life.versions|
    && life.versions[verdict.version].startedAt.Some?
    && (verdict.offset == j.offset ==>
          life.versions[j.version].accumulatedPause + Clock.SECOND < life.versions[verdict.version].accumulatedPause)
  }

  ghost predicate AllTimed(life: L.Life, jobs: multiset<ReleaseJob>, now: int) {
    forall j | j in jobs :: Timed(life, j, now)
  }

  lemma TimedLasts(life: L.Life, j: ReleaseJob, now: int, later: int)
    requires Timed(life, j, now) && now <= later
    ensures Timed(life, j, later)
  {
  }

  lemma TimedSurvivesTransition(life: L.Life, next: L.Life, entry: L.Transition, j: ReleaseJob, now: int)
    requires Timed(life, j, now)
    requires next.log == life.log + [entry] && next.versions == life.versions + [next.row]
    ensures Timed(next, j, now)
  {
    ResumesIgnoreLaterEntries(life.log, entry, j.version);
    assert next.versions[j.version] == life.versions[j.version];
    if j.phase.Decided? && j.phase.verdict.ComeBack? {
      assert next.versions[j.phase.verdict.version] == life.versions[j.phase.verdict.version];
    }
  }

  lemma NewJobTimed(life: L.Life, version: nat, id: int, offset: nat, now: int, redefers: nat)
    requires version < |life.versions| && |life.versions| == |life.log| + 1
    requires life.versions[version].startedAt.Some?
    requires redefers * Clock.SECOND <= life.versions[version].accumulatedPause && redefers <= Resumes(life.log, version)
    ensures Timed(life, JobFor(life.versions[version], version, id, offset, now, redefers), now)
  {
  }

  lemma EnqueueTimed(r: Run, version: nat, ids: set<int>)
    requires version < |r.life.versions| && IsRunning(r.life.versions[version])
    requires PausesGrow(r.life) && AllTimed(r.life, r.jobs, r.board.now)
    ensures AllTimed(r.life, Enqueue(r, version, ids).jobs, r.board.now)
  {
    PausesGrowBetween(r.life, 0, version);
    forall j | j in Enqueue(r, version, ids).jobs ensures Timed(r.life, j, r.board.now) {
      if j !in r.jobs {
        assert j in JobsFor(r, version, ids);
        var id :| id in ids && Schedulable(r.board, id)
                  && j == JobFor(r.life.versions[version], version, id, r.board.injects[id].offset.value, r.board.now, 0);
        NewJobTimed(r.life, version, id, r.board.injects[id].offset.value, r.board.now, 0);
      }
    }
  }

  // ── The worker ────────────────────────────────────────────────────────────

  /** What a job that comes back knows: its time passed, yet its inject was not due. */
  lemma ComingBackConsumesPause(r: Run, j: ReleaseJob)
    requires L.LifeInv(r.life, r.board.now) && StartIsFixed(r.life)
    requires Timed(r.life, j, r.board.now) && j.phase.Doing? && Judge(r, j.inject).ComeBack?
    ensures PauseConsumed(r.life, j, Judge(r, j.inject))
  {
    var last := |r.life.log|;
    assert L.RowMatchesLog(r.life.versions[last], r.life.log[..last]);
    assert r.life.versions[last] == r.life.row;
    assert SecondsUntilDue(r.life.row, Judge(r, j.inject).offset, r.board.now) > Clock.SECOND;
  }

  lemma RephasedIsTimed(life: L.Life, j: ReleaseJob, phase: Phase, now: int)
    requires Timed(life, j, now)
    requires phase != Todo ==> j.at <= now
    requires phase.Decided? && phase.verdict.ComeBack? ==> PauseConsumed(life, j, phase.verdict)
    ensures Timed(life, j.(phase := phase), now)
  {
  }

  lemma ReplaceKeepsTimed(life: L.Life, jobs: multiset<ReleaseJob>, old_: ReleaseJob, new_: ReleaseJob, now: int)
    requires AllTimed(life, jobs, now) && Timed(life, new_, now)
    ensures AllTimed(life, Replace(jobs, old_, new_), now)
  {
    forall j | j in Replace(jobs, old_, new_) ensures Timed(life, j, now) {
      assert j == new_ || j in jobs;
    }
  }

  lemma AnotherJobKeepsTimed(life: L.Life, jobs: multiset<ReleaseJob>, j: ReleaseJob, now: int)
    requires AllTimed(life, jobs, now) && Timed(life, j, now)
    ensures AllTimed(life, jobs + multiset{j}, now)
  {
    forall k | k in jobs + multiset{j} ensures Timed(life, k, now) {
      assert k == j || k in jobs;
    }
  }

  lemma ReadKeepsTimed(r: Run, j: ReleaseJob)
    requires L.LifeInv(r.life, r.board.now) && StartIsFixed(r.life) && AllTimed(r.life, r.jobs, r.board.now)
    requires j in r.jobs && j.phase == Doing
    ensures AllTimed(r.life, ReadJob(r, j).jobs, r.board.now)
  {
    var verdict := Judge(r, j.inject);
    if verdict.ComeBack? { ComingBackConsumesPause(r, j); }
    RephasedIsTimed(r.life, j, Decided(verdict), r.board.now);
    ReplaceKeepsTimed(r.life, r.jobs, j, j.(phase := Decided(verdict)), r.board.now);
  }

  lemma ComeBackIsTimed(life: L.Life, j: ReleaseJob, verdict: Verdict, now: int)
    requires PausesGrow(life) && Timed(life, j, now) && j.phase == Decided(verdict) && verdict.ComeBack?
    ensures verdict.version < |life.versions|
    ensures Timed(life, JobFor(life.versions[verdict.version], verdict.version, j.inject, verdict.offset, now,
                               if verdict.offset == j.offset then j.redefers + 1 else 0), now)
  {
    PausesGrowBetween(life, j.version, verdict.version);
    PausesGrowBetween(life, 0, verdict.version);
    ResumesGrow(life.log, j.version, verdict.version);
    NewJobTimed(life, verdict.version, j.inject, verdict.offset, now,
                if verdict.offset == j.offset then j.redefers + 1 else 0);
  }

  /** Finishing removes the job, and adds one only by coming back. */
  lemma FinishAdds(r: Run, j: ReleaseJob, k: ReleaseJob)
    requires k in FinishJob(r, j).jobs && k !in r.jobs
    ensures j in r.jobs && j.phase.Decided? && j.phase.verdict.ComeBack? && j.phase.verdict.version < |r.life.versions|
    ensures var v := j.phase.verdict;
            k == JobFor(r.life.versions[v.version], v.version, j.inject, v.offset, r.board.now,
                        if v.offset == j.offset then j.redefers + 1 else 0)
  {
    var rest := r.(jobs := r.jobs - multiset{j});
    assert j in r.jobs && j.phase.Decided?;
    if j.phase.verdict == Proceed {
      var outcome := ReleaseNow(rest, j.inject, None, true);
      if outcome.Ok? { ReleaseIsABoardStep(rest, j.inject, None, true); }
    }
  }

  lemma WorkKeepsTimed(r: Run, work: Work, j: ReleaseJob)
    requires L.LifeInv(r.life, r.board.now) && Paced(r.life) && AllTimed(r.life, r.jobs, r.board.now)
    ensures AllTimed(r.life, WorkRelease(r, work, j).jobs, r.board.now)
  {
    match work
    case Fetch =>
      if FetchJob(r, j) != r {
        RephasedIsTimed(r.life, j, Doing, r.board.now);
        ReplaceKeepsTimed(r.life, r.jobs, j, j.(phase := Doing), r.board.now);
      }
    case Read => if j in r.jobs && j.phase == Doing { ReadKeepsTimed(r, j); }
    case Retry =>
      if j in r.jobs {
        RephasedIsTimed(r.life, j, Todo, r.board.now);
        ReplaceKeepsTimed(r.life, r.jobs, j, j.(phase := Todo), r.board.now);
      }
    case Rerun =>
      if j in r.jobs {
        RephasedIsTimed(r.life, j, Todo, r.board.now);
        AnotherJobKeepsTimed(r.life, r.jobs, j.(phase := Todo), r.board.now);
      }
    case Finish =>
      forall k | k in FinishJob(r, j).jobs ensures Timed(r.life, k, r.board.now) {
        if k !in r.jobs {
          FinishAdds(r, j, k);
          ComeBackIsTimed(r.life, j, j.phase.verdict, r.board.now);
        }
      }
  }

  // ── Every move ────────────────────────────────────────────────────────────

  lemma ScheduleKeepsTimed(r: Run, id: int, offset: Option<nat>)
    requires PausesGrow(r.life) && AllTimed(r.life, r.jobs, r.board.now)
    requires r.life.versions != [] && UpdateSchedule(r, id, offset).Ok?
    ensures AllTimed(r.life, UpdateSchedule(r, id, offset).value.jobs, r.board.now)
  {
    var edited := r.(board := RescheduleInject(r.board, id, offset).value);
    var latest := |r.life.versions| - 1;
    if IsRunning(r.life.versions[latest]) { EnqueueTimed(edited, latest, {id}); }
    hide AllTimed, PausesGrow, JobsFor;
  }

  lemma AnswerKeepsTimed(r: Run, version: nat, id: int, user: int, group: Context, selected: Option<string>)
    requires PausesGrow(r.life) && AllTimed(r.life, r.jobs, r.board.now)
    requires RespondTo(r, version, id, user, group, selected).Ok?
    ensures AllTimed(r.life, RespondTo(r, version, id, user, group, selected).value.jobs, r.board.now)
  {
    var answered := r.(board := SubmitResponse(r.board, id, user, group, selected).value);
    AnswerLeavesClock(r.board, id, user, group, selected);
    hide AllTimed, PausesGrow, JobsFor, SubmitResponse;
    if IsRunning(r.life.versions[version]) { EnqueueTimed(answered, version, CursorReached(answered.board)); }
  }

  lemma AnswerLeavesClock(b: Board, id: int, user: int, group: Context, selected: Option<string>)
    requires SubmitResponse(b, id, user, group, selected).Ok?
    ensures SubmitResponse(b, id, user, group, selected).value.now == b.now
  {
    hide SeedRows, RowsComplete, Audience;
  }

  lemma RequestKeepsTimed(r: Run, request: Request)
    requires Core(r) && PausesGrow(r.life) && AllTimed(r.life, r.jobs, r.board.now) && Handle(r, request).Ok?
    ensures AllTimed(r.life, Handle(r, request).value.jobs, r.board.now)
  {
    hide AllTimed, PausesGrow;
    if request.Schedule? {
      ScheduleKeepsTimed(r, request.inject, request.offset);
    } else if request.Answer? {
      AnswerKeepsTimed(r, request.version, request.inject, request.user, request.group, request.selected);
    } else if request.ReleaseByHand? {
      ReleaseIsABoardStep(r, request.inject, Some(request.actor), false);
    } else {
      EditIsABoardStep(r, request);
    }
  }

  lemma ChangeKeepsTimed(r: Run, seen: nat, target: L.Phase)
    requires AllTimed(r.life, r.jobs, r.board.now) && ChangeState(r, seen, target).Ok?
    ensures AllTimed(ChangeState(r, seen, target).value.life, r.jobs, r.board.now)
  {
    var next := ChangeState(r, seen, target).value.life;
    L.TransitionOutcome(r.life, r.life.versions[seen], target, r.board.now);
    forall j | j in r.jobs ensures Timed(next, j, r.board.now) {
      TimedSurvivesTransition(r.life, next, next.log[|r.life.log|], j, r.board.now);
    }
  }

  predicate FreshMove(r: Run, move: Move) {
    move.ChangeTo? ==> FreshResume(r.life, move.seen, move.target)
  }

  lemma MoveLeavesClock(r: Run, move: Move)
    ensures Perform(r, move).board.now == r.board.now
  {
    MoveIsABoardStep(r, move);
    CommitLeavesClock(r.board, BoardStep(r, move));
  }

  lemma MoveKeepsTimed(r: Run, move: Move)
    requires Core(r) && Paced(r.life) && AllTimed(r.life, r.jobs, r.board.now) && FreshMove(r, move)
    ensures Paced(Perform(r, move).life)
    ensures AllTimed(Perform(r, move).life, Perform(r, move).jobs, Perform(r, move).board.now)
  {
    MoveIsABoardStep(r, move);
    MoveLeavesClock(r, move);
    match move
    case Ask(request) => if Handle(r, request).Ok? { RequestKeepsTimed(r, request); }
    case ChangeTo(seen, target) =>
      if ChangeState(r, seen, target).Ok? {
        ChangeKeepsTimed(r, seen, target);
        TransitionPaces(r.life, seen, target, r.board.now);
      }
    case Rearm(version, order) =>
      if version < |r.life.versions| && ReleasedInOrder(r.board, order) && IsRunning(r.life.versions[version]) {
        EnqueueTimed(r, version, Unqueued(r));
      }
    case OnRelease(work, j) => WorkKeepsTimed(r, work, j);
    case OnMessage(work, j) => MessageLeavesBoard(r, work, j);
  }

  /** Every resume in the run read the pause fields as they then stood. */
  ghost predicate FreshRun(def: Definition, start: int, moves: seq<TimedMove>) {
    forall n | 0 <= n < |moves| :: FreshMove(Play(CreateExercise(def, start), moves[..n]), moves[n].move)
  }

  ghost predicate TimedRun(r: Run) {
    Paced(r.life) && AllTimed(r.life, r.jobs, r.board.now)
  }

  lemma WaitKeepsTimed(r: Run, dt: nat)
    requires TimedRun(r)
    ensures TimedRun(Wait(r, dt))
  {
    forall j | j in r.jobs ensures Timed(r.life, j, r.board.now + dt) {
      TimedLasts(r.life, j, r.board.now, r.board.now + dt);
    }
  }

  lemma StepKeepsTimed(before: Run, tm: TimedMove)
    requires Core(before) && TimedRun(before) && FreshMove(before, tm.move)
    ensures TimedRun(Perform(Wait(before, tm.dt), tm.move))
  {
    WaitKeepsCore(before, tm.dt);
    WaitKeepsTimed(before, tm.dt);
    hide Core, Paced, Timed, Perform;
    MoveKeepsTimed(Wait(before, tm.dt), tm.move);
  }

  lemma {:induction false} PlayKeepsTimed(def: Definition, start: int, moves: seq<TimedMove>)
    requires FreshRun(def, start, moves)
    ensures TimedRun(Play(CreateExercise(def, start), moves))
  {
    if moves != [] {
      var n := |moves| - 1;
      forall m | 0 <= m < n ensures moves[..n][..m] == moves[..m] && moves[..n][m] == moves[m] {}
      assert FreshRun(def, start, moves[..n]);
      PlayKeepsTimed(def, start, moves[..n]);
      PlayKeeps(def, start, moves[..n]);
      hide Core, TimedRun, QueueInv, Perform;
      StepKeepsTimed(Play(CreateExercise(def, start), moves[..n]), moves[n]);
    }
  }

  // ── Main results ──────────────────────────────────────────────────────────

  lemma DueAtIsDue(life: L.Life, offset: nat, now: int)
    requires L.LifeInv(life, now) && Paced(life) && life.row.startedAt.Some? && now < DueAt(life.row, offset)
    ensures Clock.ActiveTicks(life.log, life.row.startedAt.value, now) < offset * Clock.MINUTE
  {
    var n := |life.log|;
    assert L.RowMatchesLog(life.versions[n], life.log[..n]);
    assert life.log[..n] == life.log && life.versions[n] == life.row;
    Clock.ClientClockIsActiveTime(life, now);
  }

  lemma JobIsOnlyEarly(r: Run, j: ReleaseJob)
    requires Core(r) && TimedRun(r) && j in r.jobs
    ensures r.life.row.startedAt.Some? && j.at <= Max(j.enqueuedAt, DueAt(r.life.row, j.offset))
    ensures r.board.now < j.at ==>
              Clock.ActiveTicks(r.life.log, r.life.row.startedAt.value, r.board.now) < j.offset * Clock.MINUTE
    ensures j.redefers <= Resumes(r.life.log, |r.life.log|)
    ensures j.redefers * Clock.SECOND <= r.life.row.accumulatedPause
  {
    assert Timed(r.life, j, r.board.now);
    ResumesGrow(r.life.log, j.version, |r.life.log|);
    PausesGrowBetween(r.life, j.version, |r.life.log|);
    if r.board.now < j.at { DueAtIsDue(r.life, j.offset, r.board.now); }
  }

  /** A job is never late: its time is at most the later of its enqueueing and the due instant as the
      row now counts it, so as long as it still waits, the exercise has been active for less than its
      offset. */
  lemma StaleJobsAreOnlyEarly(def: Definition, start: int, moves: seq<TimedMove>, j: ReleaseJob)
    requires FreshRun(def, start, moves) && j in Play(CreateExercise(def, start), moves).jobs
    ensures var r := Play(CreateExercise(def, start), moves);
            && r.life.row.startedAt.Some?
            && j.at <= Max(j.enqueuedAt, DueAt(r.life.row, j.offset))
            && (r.board.now < j.at ==>
                  Clock.ActiveTicks(r.life.log, r.life.row.startedAt.value, r.board.now) < j.offset * Clock.MINUTE)
  {
    PlayKeeps(def, start, moves);
    PlayKeepsTimed(def, start, moves);
    hide Play, Core, TimedRun, QueueInv, FreshRun, Clock.ActiveTicks;
    JobIsOnlyEarly(Play(CreateExercise(def, start), moves), j);
  }

  /** A job comes back at most once for each resume, and only as often as the pauses counted so far
      contain whole seconds. */
  lemma RedefersAreBounded(def: Definition, start: int, moves: seq<TimedMove>, j: ReleaseJob)
    requires FreshRun(def, start, moves) && j in Play(CreateExercise(def, start), moves).jobs
    ensures var r := Play(CreateExercise(def, start), moves);
            && j.redefers <= Resumes(r.life.log, |r.life.log|)
            && j.redefers * Clock.SECOND <= r.life.row.accumulatedPause
  {
    PlayKeeps(def, start, moves);
    PlayKeepsTimed(def, start, moves);
    hide Play, Core, TimedRun, QueueInv, FreshRun;
    JobIsOnlyEarly(Play(CreateExercise(def, start), moves), j);
  }
}
