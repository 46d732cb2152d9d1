/** No scheduled release is lost. */
module ScheduleTheorems {
  import opened Wrappers
  import opened Scenario
  import opened Progression
  import opened ProgressionInvariants
  import opened Scheduling
  import L = Lifecycle
  import Clock

  // ── The run's rows obey the progression engine ────────────────────────────

  /** The board step a request commits. */
  function RequestStep(r: Run, request: Request): Step {
    match request
    case Roster(step) => if step.Enrol? || step.Regroup? || step.Unenrol? then step else Idle
    case Add(node, group, targets) => Create(node, group, targets, r.life.row.state != L.Draft)
    case Remove(id) => Delete(id)
    case Schedule(id, offset) => Reschedule(id, offset)
    case ReleaseByHand(id, actor) => Release(id, Some(actor), false)
    case Answer(_, id, user, group, selected) => Respond(id, user, group, selected)
  }

  lemma EnqueueLeavesBoard(r: Run, version: nat, ids: set<int>)
    requires version < |r.life.versions|
    ensures var r' := Enqueue(r, version, ids);
            r'.board == r.board && r'.life == r.life && r'.rearmOwed == r.rearmOwed
            && r'.commJobs == r.commJobs && r'.deliveries == r.deliveries && r'.announced == r.announced
  {
  }

  /** Only the board and the queues move, and the board by one committed step. */
  ghost predicate CommitsOnBoard(r: Run, r': Run, step: Step) {
    && r'.life == r.life && r'.rearmOwed == r.rearmOwed
    && r'.deliveries == r.deliveries && r'.announced == r.announced
    && Attempt(r.board, step) == Ok(r'.board)
  }

  lemma AnswerIsABoardStep(r: Run, version: nat, id: int, user: int, group: Context, selected: Option<string>)
    requires RespondTo(r, version, id, user, group, selected).Ok?
    ensures var r' := RespondTo(r, version, id, user, group, selected).value;
            CommitsOnBoard(r, r', Respond(id, user, group, selected)) && r'.commJobs == r.commJobs
  {
    var answered := r.(board := SubmitResponse(r.board, id, user, group, selected).value);
    EnqueueLeavesBoard(answered, version, CursorReached(answered.board));
  }

  lemma ScheduleIsABoardStep(r: Run, id: int, offset: Option<nat>)
    requires r.life.versions != [] && UpdateSchedule(r, id, offset).Ok?
    ensures var r' := UpdateSchedule(r, id, offset).value;
            CommitsOnBoard(r, r', Reschedule(id, offset)) && r'.commJobs == r.commJobs
  {
    var edited := r.(board := RescheduleInject(r.board, id, offset).value);
    EnqueueLeavesBoard(edited, |r.life.versions| - 1, {id});
  }

  lemma ReleaseIsABoardStep(r: Run, id: int, actor: Option<int>, scheduled: bool)
    requires ReleaseNow(r, id, actor, scheduled).Ok?
    ensures var r' := ReleaseNow(r, id, actor, scheduled).value;
            && ReleaseInject(r.board, id, actor, scheduled).Ok?
            && r'.board == ReleaseInject(r.board, id, actor, scheduled).value
            && r'.life == r.life && r'.rearmOwed == r.rearmOwed && r'.refused == r.refused && r'.jobs == r.jobs
            && r'.deliveries == r.deliveries && r'.announced == r.announced
  {
  }

  lemma EditIsABoardStep(r: Run, request: Request)
    requires r.life.versions != [] && Handle(r, request).Ok?
    requires request.Roster? || request.Add? || request.Remove?
    ensures var r' := Handle(r, request).value;
            CommitsOnBoard(r, r', RequestStep(r, request)) && r' == r.(board := r'.board)
  {
  }

  lemma ReleaseByHandIsABoardStep(r: Run, id: int, actor: int)
    requires r.life.versions != [] && ReleaseNow(r, id, Some(actor), false).Ok?
    ensures CommitsOnBoard(r, ReleaseNow(r, id, Some(actor), false).value, Release(id, Some(actor), false))
  {
    ReleaseIsABoardStep(r, id, Some(actor), false);
  }

  lemma RequestIsABoardStep(r: Run, request: Request)
    requires r.life.versions != [] && Handle(r, request).Ok?
    ensures CommitsOnBoard(r, Handle(r, request).value, RequestStep(r, request))
    ensures !request.ReleaseByHand? ==> Handle(r, request).value.commJobs == r.commJobs
  {
    if request.ReleaseByHand? {
      ReleaseByHandIsABoardStep(r, request.inject, request.actor);
    } else if request.Schedule? {
      ScheduleIsABoardStep(r, request.inject, request.offset);
    } else if request.Answer? {
      AnswerIsABoardStep(r, request.version, request.inject, request.user, request.group, request.selected);
    } else {
      EditIsABoardStep(r, request);
    }
  }

  /** The worker's attempt goes through. */
  predicate FinishReleases(r: Run, j: ReleaseJob) {
    && j in r.jobs && j.phase == Decided(Proceed)
    && r.life.row.state == L.Active && ReleaseInject(r.board, j.inject, None, true).Ok?
  }

  lemma FinishIsARelease(r: Run, j: ReleaseJob)
    requires FinishReleases(r, j)
    ensures var r' := FinishJob(r, j);
            && r'.board == ReleaseInject(r.board, j.inject, None, true).value
            && r' == r.(board := r'.board, jobs := r'.jobs,
                        commJobs := r.commJobs + ReleaseTriggers(r'.board, j.inject))
  {
  }

  lemma RefusedAttemptIsQuiet(r: Run, j: ReleaseJob)
    requires j in r.jobs && j.phase == Decided(Proceed) && !FinishReleases(r, j)
    ensures FinishJob(r, j) == r.(jobs := FinishJob(r, j).jobs, refused := FinishJob(r, j).refused)
  {
    var rest := r.(jobs := r.jobs - multiset{j});
    assert ReleaseNow(rest, j.inject, None, true).Err?;
  }

  lemma ComeBackIsQuiet(r: Run, j: ReleaseJob)
    requires j in r.jobs && j.phase.Decided? && j.phase.verdict.ComeBack?
    ensures FinishJob(r, j) == r.(jobs := FinishJob(r, j).jobs, refused := FinishJob(r, j).refused)
  {
  }

  lemma FinishIsQuiet(r: Run, j: ReleaseJob)
    requires !FinishReleases(r, j)
    ensures FinishJob(r, j) == r.(jobs := FinishJob(r, j).jobs, refused := FinishJob(r, j).refused)
  {
    if j in r.jobs && j.phase.Decided? {
      if j.phase.verdict == Proceed { RefusedAttemptIsQuiet(r, j); }
      else if j.phase.verdict.ComeBack? { ComeBackIsQuiet(r, j); }
    } else {
      assert FinishJob(r, j) == r;
    }
  }

  lemma FinishIsABoardStep(r: Run, j: ReleaseJob)
    ensures var r' := FinishJob(r, j);
            && r'.life == r.life && r'.rearmOwed == r.rearmOwed
            && r'.deliveries == r.deliveries && r'.announced == r.announced
            && (r'.board == r.board || (j.phase == Decided(Proceed)
                                        && Attempt(r.board, Release(j.inject, None, true)) == Ok(r'.board)))
  {
    if FinishReleases(r, j) { FinishIsARelease(r, j); } else { FinishIsQuiet(r, j); }
  }

  lemma WorkIsABoardStep(r: Run, work: Work, j: ReleaseJob)
    requires r.life.versions != []
    ensures WorkRelease(r, work, j).life == r.life && WorkRelease(r, work, j).rearmOwed == r.rearmOwed
    ensures WorkRelease(r, work, j).deliveries == r.deliveries && WorkRelease(r, work, j).announced == r.announced
    ensures var step := if work == Finish && j.phase == Decided(Proceed) then Release(j.inject, None, true) else Idle;
            || Attempt(r.board, step) == Ok(WorkRelease(r, work, j).board)
            || WorkRelease(r, work, j).board == r.board
    ensures work != Finish ==> WorkRelease(r, work, j).board == r.board && WorkRelease(r, work, j).commJobs == r.commJobs
  {
    match work
    case Finish => FinishIsABoardStep(r, j);
    case Fetch => WorkInPlace(r, work, j);
    case Read => WorkInPlace(r, work, j);
    case Retry => WorkInPlace(r, work, j);
    case Rerun => WorkInPlace(r, work, j);
  }

  lemma WorkInPlace(r: Run, work: Work, j: ReleaseJob)
    requires r.life.versions != [] && work != Finish
    ensures WorkRelease(r, work, j) == r.(jobs := WorkRelease(r, work, j).jobs)
  {
    match work
    case Read => assert ReadJob(r, j) == r.(jobs := ReadJob(r, j).jobs);
    case Fetch => assert FetchJob(r, j) == r.(jobs := FetchJob(r, j).jobs);
    case Retry => assert RetryJob(r, j) == r.(jobs := RetryJob(r, j).jobs);
    case Rerun => assert RerunJob(r, j) == r.(jobs := RerunJob(r, j).jobs);
  }

  lemma FinishCommLeavesRest(r: Run, j: CommJob)
    ensures var r' := FinishComm(r, j);
            r' == r.(commJobs := r'.commJobs, deliveries := r'.deliveries, announced := r'.announced)
  {
  }

  lemma ReadCommLeavesRest(r: Run, j: CommJob)
    ensures ReadComm(r, j) == r.(commJobs := ReadComm(r, j).commJobs)
  {
  }

  lemma MessageLeavesBoard(r: Run, work: Work, j: CommJob)
    ensures WorkMessage(r, work, j).board == r.board && WorkMessage(r, work, j).life == r.life
    ensures WorkMessage(r, work, j).jobs == r.jobs && WorkMessage(r, work, j).refused == r.refused
    ensures WorkMessage(r, work, j).rearmOwed == r.rearmOwed
  {
    match work
    case Fetch => assert FetchComm(r, j) == r.(commJobs := FetchComm(r, j).commJobs);
    case Read => ReadCommLeavesRest(r, j);
    case Finish => FinishCommLeavesRest(r, j);
    case Retry => assert RetryComm(r, j) == r.(commJobs := RetryComm(r, j).commJobs);
    case Rerun => assert RerunComm(r, j) == r.(commJobs := RerunComm(r, j).commJobs);
  }

  /** The board step, if any, a move commits. */
  function BoardStep(r: Run, move: Move): Step {
    match move
    case Ask(request) => RequestStep(r, request)
    case OnRelease(work, j) =>
      if work == Finish && j.phase == Decided(Proceed) then Release(j.inject, None, true) else Idle
    case _ => Idle
  }

  lemma MoveIsABoardStep(r: Run, move: Move)
    ensures Perform(r, move).board == Commit(r.board, BoardStep(r, move)) || Perform(r, move).board == r.board
    ensures !move.ChangeTo? ==> Perform(r, move).life == r.life
  {
    if r.life.versions != [] {
      match move
      case Ask(request) => if Handle(r, request).Ok? { RequestIsABoardStep(r, request); }
      case OnRelease(work, j) => WorkIsABoardStep(r, work, j);
      case OnMessage(work, j) => MessageLeavesBoard(r, work, j);
      case ChangeTo(_, _) =>
      case Rearm(_, _) =>
    }
  }

  lemma ProgressionExtends(b: Board, steps: seq<Timed>, t: Timed)
    ensures Execute(b, steps + [t]) == Apply(Execute(b, steps), t)
  {
    assert (steps + [t])[..|steps|] == steps;
  }

  lemma IdleCommitsNothing(b: Board)
    ensures Commit(b, Idle) == b
  {
  }

  lemma MoveExtendsProgression(waited: Run, move: Move, board: Board, steps: seq<Timed>, dt: nat)
    requires waited.board == Tick(Execute(board, steps), dt)
    ensures exists longer :: Perform(waited, move).board == Execute(board, longer)
  {
    IdleCommitsNothing(waited.board);
    hide Perform, BoardStep, Commit, Execute, Tick;
    MoveIsABoardStep(waited, move);
    var step := if Perform(waited, move).board == waited.board then Idle else BoardStep(waited, move);
    ProgressionExtends(board, steps, Timed(dt, step));
    assert Perform(waited, move).board == Execute(board, steps + [Timed(dt, step)]);
  }

  /** Every run is a run of the progression engine. */
  lemma {:induction false} RunIsAProgression(def: Definition, start: int, moves: seq<TimedMove>)
    ensures exists steps :: Play(CreateExercise(def, start), moves).board == Execute(Created(def, start), steps)
  {
    var origin, board := CreateExercise(def, start), Created(def, start);
    if moves == [] {
      assert Play(origin, moves).board == Execute(board, []);
    } else {
      var n := |moves| - 1;
      RunIsAProgression(def, start, moves[..n]);
      var steps :| Play(origin, moves[..n]).board == Execute(board, steps);
      var waited := Wait(Play(origin, moves[..n]), moves[n].dt);
      MoveIsABoardStep(waited, moves[n].move);
      MoveExtendsProgression(waited, moves[n].move, board, steps, moves[n].dt);
    }
  }

  // ── Invariants of the queue ───────────────────────────────────────────────

  /** A job that will still act for the inject: queued, running, or decided to act. */
  predicate ActsFor(j: ReleaseJob, id: int) {
    j.inject == id && j.phase != Decided(StandDown)
  }

  ghost predicate Covered(jobs: multiset<ReleaseJob>, id: int) {
    exists j :: j in jobs && ActsFor(j, id)
  }

  /** The inject has a job, or its gate is shut, or its last job found no audience. */
  ghost predicate NotLost(r: Run, id: int)
    requires id in r.board.injects
  {
    Covered(r.jobs, id) || !ReleaseIsAllowed(r.board, r.board.injects[id], true) || id in r.refused
  }

  ghost predicate NoneLost(r: Run) {
    r.life.row.state == L.Active && !r.rearmOwed ==>
      forall id | Schedulable(r.board, id) :: NotLost(r, id)
  }

  /** The row version a job came back with exists. */
  ghost predicate JobsSane(r: Run) {
    forall j | j in r.jobs && j.phase.Decided? && j.phase.verdict.ComeBack? ::
      j.phase.verdict.version < |r.life.versions|
  }

  /** A recorded refusal really had no audience. */
  ghost predicate RefusalsSane(r: Run) {
    forall id | id in r.refused ::
      && id < r.board.nextInject
      && (id in r.board.injects && r.board.injects[id].state == Pending ==>
            Audience(r.board.injects[id], r.refused[id]) == {})
  }

  ghost predicate QueueInv(r: Run) {
    JobsSane(r) && RefusalsSane(r) && NoneLost(r)
  }

  ghost predicate Core(r: Run) {
    Inv(r.board) && L.LifeInv(r.life, r.board.now)
  }

  lemma CoreRow(r: Run)
    requires Core(r)
    ensures |r.life.versions| > 0 && r.life.versions[|r.life.versions| - 1] == r.life.row
    ensures forall v | 0 <= v < |r.life.versions| ::
              r.life.versions[v].state == L.Active ==> IsRunning(r.life.versions[v])
    ensures r.life.row.launched == (r.life.row.state != L.Draft)
  {
    forall v | 0 <= v < |r.life.versions|
      ensures r.life.versions[v].state == L.Active ==> IsRunning(r.life.versions[v])
    {
      assert L.RowMatchesLog(r.life.versions[v], r.life.log[..v]);
    }
    assert L.RowMatchesLog(r.life.versions[|r.life.log|], r.life.log[..|r.life.log|]);
  }

  lemma MoveKeepsCore(r: Run, move: Move)
    requires Core(r)
    ensures Core(Perform(r, move)) && Extends(r.board, Perform(r, move).board)
    ensures |r.life.versions| <= |Perform(r, move).life.versions|
  {
    hide Inv, Commit, BoardStep;
    MoveIsABoardStep(r, move);
    CommitKeeps(r.board, BoardStep(r, move));
    CommitLeavesClock(r.board, BoardStep(r, move));
    if move.ChangeTo? && ChangeState(r, move.seen, move.target).Ok? {
      L.TransitionKeeps(r.life, move.seen, move.target, r.board.now, r.board.now);
    }
  }

  lemma CommitLeavesClock(b: Board, step: Step)
    ensures Commit(b, step).now == b.now && Commit(b, step).def == b.def
  {
  }

  lemma WaitKeepsCore(r: Run, dt: nat)
    requires Core(r)
    ensures Core(Wait(r, dt)) && Extends(r.board, Wait(r, dt).board)
  {
    TickKeeps(r.board, dt);
    L.LifeInvLasts(r.life, r.board.now, r.board.now + dt);
  }

  // ── Enqueueing covers ─────────────────────────────────────────────────────

  lemma EnqueueCovers(r: Run, version: nat, ids: set<int>, id: int)
    requires version < |r.life.versions|
    requires (id in ids && Schedulable(r.board, id)) || Covered(r.jobs, id)
    ensures Covered(Enqueue(r, version, ids).jobs, id)
  {
    var r' := Enqueue(r, version, ids);
    if id in ids && Schedulable(r.board, id) {
      var j := JobFor(r.life.versions[version], version, id, r.board.injects[id].offset.value, r.board.now, 0);
      assert j in JobsFor(r, version, ids);
      assert j in r'.jobs && ActsFor(j, id);
    } else {
      var j :| j in r.jobs && ActsFor(j, id);
      assert j in r'.jobs;
    }
  }

  lemma EnqueueKeepsSane(r: Run, version: nat, ids: set<int>)
    requires version < |r.life.versions| && JobsSane(r) && RefusalsSane(r)
    ensures JobsSane(Enqueue(r, version, ids)) && RefusalsSane(Enqueue(r, version, ids))
  {
    var r' := Enqueue(r, version, ids);
    assert forall j | j in r'.jobs && j.phase.Decided? :: j in r.jobs;
  }

  lemma EnqueueKeepsNotLost(r: Run, version: nat, ids: set<int>, id: int)
    requires version < |r.life.versions|
    requires Schedulable(r.board, id) && (id in ids || NotLost(r, id))
    ensures NotLost(Enqueue(r, version, ids), id)
  {
    if id in ids || Covered(r.jobs, id) { EnqueueCovers(r, version, ids, id); }
  }

  /** Replacing a job by one that acts for as much loses nothing. */
  lemma ReplaceCovers(jobs: multiset<ReleaseJob>, old_: ReleaseJob, new_: ReleaseJob, id: int)
    requires old_ in jobs && Covered(jobs, id) && (ActsFor(old_, id) ==> ActsFor(new_, id))
    ensures Covered(Replace(jobs, old_, new_), id)
  {
    var j :| j in jobs && ActsFor(j, id);
    assert new_ in Replace(jobs, old_, new_);
    if j != old_ { assert j in Replace(jobs, old_, new_); }
  }

  lemma RemoveCovers(jobs: multiset<ReleaseJob>, j: ReleaseJob, id: int)
    requires Covered(jobs, id) && !ActsFor(j, id)
    ensures Covered(jobs - multiset{j}, id)
  {
    var k :| k in jobs && ActsFor(k, id);
    assert k in jobs - multiset{j};
  }

  // ── Requests ──────────────────────────────────────────────────────────────

  /** Edits that open no gate and leave the queue alone lose nothing. */
  lemma QuietEditKeepsQueue(r: Run, r': Run)
    requires QueueInv(r)
    requires r'.life == r.life && r'.jobs == r.jobs && r'.rearmOwed == r.rearmOwed && r'.refused == r.refused
    requires r'.board.cursors == r.board.cursors && r'.board.def == r.board.def
    requires r.board.nextInject <= r'.board.nextInject
    requires forall id | id in r'.board.injects && r'.board.injects[id].state == Pending ::
      if id in r.board.injects then r'.board.injects[id] == r.board.injects[id]
      else r'.board.injects[id].offset.None? && id !in r.refused
    ensures QueueInv(r')
  {
    if r'.life.row.state == L.Active && !r'.rearmOwed {
      forall id | Schedulable(r'.board, id) ensures NotLost(r', id) { assert NotLost(r, id); }
    }
  }

  lemma RosterKeepsQueue(r: Run, step: Step)
    requires QueueInv(r) && (step.Enrol? || step.Regroup? || step.Unenrol?) && EditRoster(r, step).Ok?
    ensures QueueInv(EditRoster(r, step).value)
  {
    QuietEditKeepsQueue(r, EditRoster(r, step).value);
  }

  lemma AddKeepsQueue(r: Run, node: Option<string>, group: Context, targets: seq<string>)
    requires QueueInv(r) && AddInject(r, node, group, targets).Ok?
    requires forall id | id in r.board.injects :: id < r.board.nextInject
    ensures QueueInv(AddInject(r, node, group, targets).value)
  {
    QuietEditKeepsQueue(r, AddInject(r, node, group, targets).value);
  }

  lemma RemoveKeepsQueue(r: Run, id: int)
    requires QueueInv(r) && DeleteInject(r, id).Ok?
    ensures QueueInv(DeleteInject(r, id).value)
  {
    QuietEditKeepsQueue(r, DeleteInject(r, id).value);
  }

  lemma ReleaseTouches(b: Board, id: int, actor: Option<int>, scheduled: bool)
    requires ReleaseInject(b, id, actor, scheduled).Ok?
    ensures var b' := ReleaseInject(b, id, actor, scheduled).value;
            && b'.def == b.def && b'.cursors == b.cursors && b'.nextInject == b.nextInject && b'.members == b.members
            && b'.now == b.now && id in b.injects && b'.injects.Keys == b.injects.Keys
            && b'.injects[id].state == Released && b'.injects[id].node == b.injects[id].node
            && b'.injects[id].releasedAt == Some(b.now)
            && forall q | q in b.injects && q != id :: b'.injects[q] == b.injects[q]
  {
  }

  lemma ReleaseKeepsQueue(r: Run, id: int, actor: Option<int>, scheduled: bool)
    requires QueueInv(r) && ReleaseNow(r, id, actor, scheduled).Ok?
    ensures QueueInv(ReleaseNow(r, id, actor, scheduled).value)
  {
    ReleaseTouches(r.board, id, actor, scheduled);
    QuietEditKeepsQueue(r, ReleaseNow(r, id, actor, scheduled).value);
  }

  lemma ScheduleKeepsQueue(r: Run, id: int, offset: Option<nat>)
    requires Core(r) && QueueInv(r) && UpdateSchedule(r, id, offset).Ok?
    ensures QueueInv(UpdateSchedule(r, id, offset).value)
  {
    var b := RescheduleInject(r.board, id, offset).value;
    CoreRow(r);
    RescheduledKeepsQueue(r, id, offset, r.(board := b), |r.life.versions| - 1);
  }

  lemma RescheduledKeepsQueue(r: Run, id: int, offset: Option<nat>, edited: Run, v: nat)
    requires QueueInv(r) && RescheduleInject(r.board, id, offset).Ok?
    requires edited == r.(board := RescheduleInject(r.board, id, offset).value)
    requires v < |r.life.versions| && r.life.versions[v] == r.life.row
    requires r.life.row.state == L.Active ==> IsRunning(r.life.row)
    ensures QueueInv(ArmInjectSchedule(edited, v, id))
  {
    var armed := ArmInjectSchedule(edited, v, id);
    assert edited.board.injects[id] == r.board.injects[id].(offset := offset);
    assert JobsSane(edited) && RefusalsSane(edited);
    EnqueueKeepsSane(edited, v, {id});
    if r.life.row.state == L.Active && !r.rearmOwed {
      forall q | Schedulable(edited.board, q) ensures NotLost(armed, q) {
        if q != id { assert NotLost(r, q); }
        EnqueueKeepsNotLost(edited, v, {id}, q);
      }
    }
  }

  lemma ResolutionTouches(b: Board, id: int, group: Context, actor: int, target: Option<string>)
    requires id in b.injects && b.injects[id].state != Pending
    ensures var b' := ResolveProgression(b, id, group, actor, target);
            && b'.def == b.def && b'.nextInject == b.nextInject
            && b'.injects.Keys == b.injects.Keys && b.cursors.Keys <= b'.cursors.Keys
            && b'.injects[id].state != Pending
            && (forall q | q in b.injects && q != id :: b'.injects[q] == b.injects[q])
  {
    hide Audience, SeedRows, RowsComplete;
  }

  /** What a response can do to the gates: only open those its cursor reaches. */
  lemma ResponseTouches(b: Board, id: int, user: int, group: Context, selected: Option<string>)
    requires SubmitResponse(b, id, user, group, selected).Ok?
    ensures var b' := SubmitResponse(b, id, user, group, selected).value;
            && b'.def == b.def && b'.nextInject == b.nextInject
            && b'.injects.Keys == b.injects.Keys && b.cursors.Keys <= b'.cursors.Keys
            && (forall q | q in b.injects && b'.injects[q].state == Pending :: b'.injects[q] == b.injects[q])
  {
    ResolutionTouches(RecordResponse(b, id, user, group, selected), id, group, user,
                      ResponseTarget(b.def, b.injects[id].node, selected));
  }

  lemma GateOpensOnlyWhereReached(b: Board, b': Board, id: int)
    requires b'.def == b.def && b.cursors.Keys != {} && b.cursors.Keys <= b'.cursors.Keys
    requires id in b.injects && id in b'.injects && b'.injects[id] == b.injects[id] && Schedulable(b', id)
    requires ReleaseIsAllowed(b', b'.injects[id], true) && !ReleaseIsAllowed(b, b.injects[id], true)
    ensures id in CursorReached(b')
  {
  }

  lemma AnswerKeepsQueue(r: Run, version: nat, id: int, user: int, group: Context, selected: Option<string>)
    requires Core(r) && QueueInv(r) && RespondTo(r, version, id, user, group, selected).Ok?
    ensures QueueInv(RespondTo(r, version, id, user, group, selected).value)
  {
    CoreRow(r);
    ResponseTouches(r.board, id, user, group, selected);
    assert None in r.board.cursors;
    AnsweredKeepsQueue(r, r.(board := SubmitResponse(r.board, id, user, group, selected).value), version);
  }

  lemma AnsweredKeepsQueue(r: Run, answered: Run, version: nat)
    requires QueueInv(r) && version < |r.life.versions| && IsRunning(r.life.versions[version])
    requires answered == r.(board := answered.board)
    requires answered.board.def == r.board.def && answered.board.nextInject == r.board.nextInject
    requires r.board.cursors.Keys != {} && r.board.cursors.Keys <= answered.board.cursors.Keys
    requires answered.board.injects.Keys == r.board.injects.Keys
    requires forall q | q in r.board.injects && answered.board.injects[q].state == Pending ::
               answered.board.injects[q] == r.board.injects[q]
    ensures QueueInv(ArmCursorReachedInjects(answered, version))
  {
    assert JobsSane(answered) && RefusalsSane(answered);
    var reached := CursorReached(answered.board);
    EnqueueKeepsSane(answered, version, reached);
    if r.life.row.state == L.Active && !r.rearmOwed {
      forall q | Schedulable(answered.board, q) ensures NotLost(Enqueue(answered, version, reached), q) {
        assert NotLost(r, q);
        if q !in reached && !NotLost(answered, q) { GateOpensOnlyWhereReached(r.board, answered.board, q); }
        EnqueueKeepsNotLost(answered, version, reached, q);
      }
    }
  }

  lemma RequestKeepsQueue(r: Run, request: Request)
    requires Core(r) && QueueInv(r) && Handle(r, request).Ok?
    ensures QueueInv(Handle(r, request).value)
  {
    match request
    case Roster(step) => RosterKeepsQueue(r, step);
    case Add(node, group, targets) => AddKeepsQueue(r, node, group, targets);
    case Remove(id) => RemoveKeepsQueue(r, id);
    case Schedule(id, offset) => ScheduleKeepsQueue(r, id, offset);
    case ReleaseByHand(id, actor) => ReleaseKeepsQueue(r, id, Some(actor), false);
    case Answer(version, id, user, group, selected) => AnswerKeepsQueue(r, version, id, user, group, selected);
  }

  // ── Start, resume and reconciliation ──────────────────────────────────────

  lemma ChangeKeepsQueue(r: Run, seen: nat, target: L.Phase)
    requires QueueInv(r) && ChangeState(r, seen, target).Ok?
    ensures QueueInv(ChangeState(r, seen, target).value)
  {
    L.TransitionOutcome(r.life, r.life.versions[seen], target, r.board.now);
  }

  lemma RearmKeepsQueue(r: Run, version: nat, order: seq<int>)
    requires QueueInv(r) && version < |r.life.versions| && ReleasedInOrder(r.board, order)
    ensures QueueInv(ScheduleExerciseInjects(r, version, order))
  {
    if IsRunning(r.life.versions[version]) {
      var ids := Unqueued(r);
      EnqueueKeepsSane(r, version, ids);
      forall id | Schedulable(r.board, id) ensures Covered(Enqueue(r, version, ids).jobs, id) {
        if HasTodo(r, id) {
          var j :| j in r.jobs && j.inject == id && j.phase == Todo;
          assert ActsFor(j, id);
        }
        EnqueueCovers(r, version, ids, id);
      }
    }
  }

  // ── The worker ────────────────────────────────────────────────────────────

  lemma ReplaceKeepsQueue(r: Run, old_: ReleaseJob, new_: ReleaseJob)
    requires QueueInv(r) && old_ in r.jobs && old_.inject == new_.inject
    requires new_.phase.Decided? && new_.phase.verdict.ComeBack? ==> new_.phase.verdict.version < |r.life.versions|
    requires new_.phase != Decided(StandDown) || r.life.row.state != L.Active
             || !Schedulable(r.board, old_.inject)
             || !ReleaseIsAllowed(r.board, r.board.injects[old_.inject], true)
    ensures QueueInv(r.(jobs := Replace(r.jobs, old_, new_)))
  {
    var r' := r.(jobs := Replace(r.jobs, old_, new_));
    forall j | j in r'.jobs ensures j == new_ || j in r.jobs {}
    if r.life.row.state == L.Active && !r.rearmOwed {
      forall id | Schedulable(r.board, id) ensures NotLost(r', id) {
        assert NotLost(r, id);
        if Covered(r.jobs, id) && (ActsFor(old_, id) ==> ActsFor(new_, id)) { ReplaceCovers(r.jobs, old_, new_, id); }
      }
    }
  }

  lemma AnotherJobKeepsQueue(r: Run, j: ReleaseJob)
    requires QueueInv(r) && j.phase == Todo
    ensures QueueInv(r.(jobs := r.jobs + multiset{j}))
  {
    var r' := r.(jobs := r.jobs + multiset{j});
    forall k | k in r'.jobs ensures k == j || k in r.jobs {}
    if r.life.row.state == L.Active && !r.rearmOwed {
      forall id | Schedulable(r.board, id) ensures NotLost(r', id) {
        assert NotLost(r, id);
        if k :| k in r.jobs && ActsFor(k, id) { assert k in r'.jobs; }
      }
    }
  }

  /** A worker stands down only when the inject is settled, the exercise is not running, or the gate is shut. */
  lemma StandDownIsJustified(r: Run, id: int)
    requires r.life.versions != [] && Judge(r, id) == StandDown && r.life.row.state == L.Active
    ensures !Schedulable(r.board, id) || !ReleaseIsAllowed(r.board, r.board.injects[id], true)
  {
  }

  lemma ReadKeepsQueue(r: Run, j: ReleaseJob)
    requires QueueInv(r) && r.life.versions != []
    ensures QueueInv(ReadJob(r, j))
  {
    if j in r.jobs && j.phase == Doing {
      var verdict := Judge(r, j.inject);
      if verdict == StandDown && r.life.row.state == L.Active { StandDownIsJustified(r, j.inject); }
      assert verdict.ComeBack? ==> verdict.version < |r.life.versions|;
      ReplaceKeepsQueue(r, j, j.(phase := Decided(verdict)));
    }
  }

  lemma ComeBackKeepsQueue(r: Run, j: ReleaseJob, again: ReleaseJob)
    requires QueueInv(r) && j in r.jobs && again.inject == j.inject && again.phase == Todo
    ensures QueueInv(r.(jobs := r.jobs - multiset{j} + multiset{again}, refused := r.refused - {j.inject}))
  {
    ReplaceKeepsQueue(r, j, again);
    var replaced := r.(jobs := Replace(r.jobs, j, again));
    var r' := replaced.(refused := r.refused - {j.inject});
    if r.life.row.state == L.Active && !r.rearmOwed {
      forall id | Schedulable(r.board, id) ensures NotLost(r', id) {
        assert NotLost(replaced, id);
        if id == j.inject { assert again in r'.jobs && ActsFor(again, id); }
      }
    }
  }

  /** Removing a job is safe for every inject that job was not acting for. */
  lemma RemovalKeepsOthers(r: Run, j: ReleaseJob, id: int)
    requires NoneLost(r) && r.life.row.state == L.Active && !r.rearmOwed && Schedulable(r.board, id)
    requires !ActsFor(j, id)
    ensures NotLost(r.(jobs := r.jobs - multiset{j}), id)
  {
    assert NotLost(r, id);
    if Covered(r.jobs, id) { RemoveCovers(r.jobs, j, id); }
  }

  lemma RemovalKeepsSane(r: Run, j: ReleaseJob)
    requires JobsSane(r) && RefusalsSane(r)
    ensures JobsSane(r.(jobs := r.jobs - multiset{j})) && RefusalsSane(r.(jobs := r.jobs - multiset{j}))
  {
    assert forall k | k in r.jobs - multiset{j} :: k in r.jobs;
  }

  /** A worker's attempt removes its job only together with the reason it is no longer needed. */
  lemma ReleasingAttemptKeepsQueue(r: Run, j: ReleaseJob, r': Run)
    requires QueueInv(r) && j in r.jobs
    requires var rest := r.(jobs := r.jobs - multiset{j}); ReleaseNow(rest, j.inject, None, true) == Ok(r')
    ensures QueueInv(r')
  {
    var rest := r.(jobs := r.jobs - multiset{j});
    RemovalKeepsSane(r, j);
    ReleaseTouches(rest.board, j.inject, None, true);
    ReleaseIsABoardStep(rest, j.inject, None, true);
    if r'.life.row.state == L.Active && !r'.rearmOwed {
      forall id | Schedulable(r'.board, id) ensures NotLost(r', id) {
        assert r'.board.injects[id] == r.board.injects[id];
        RemovalKeepsOthers(r, j, id);
      }
    }
  }

  lemma RefusedAttemptKeepsQueue(r: Run, j: ReleaseJob, e: Refusal)
    requires QueueInv(r) && j in r.jobs
    requires forall id | id in r.board.injects :: id < r.board.nextInject
    requires ReleaseNow(r.(jobs := r.jobs - multiset{j}), j.inject, None, true) == Err(e)
    ensures var rest := r.(jobs := r.jobs - multiset{j});
            QueueInv(if e == NoAudience then rest.(refused := rest.refused[j.inject := r.board.members]) else rest)
  {
    var rest := r.(jobs := r.jobs - multiset{j});
    var r' := if e == NoAudience then rest.(refused := rest.refused[j.inject := r.board.members]) else rest;
    RemovalKeepsSane(r, j);
    if r.life.row.state == L.Active && !r.rearmOwed {
      forall id | Schedulable(r.board, id) ensures NotLost(r', id) {
        if id != j.inject { RemovalKeepsOthers(r, j, id); }
      }
    }
  }

  lemma AttemptKeepsQueue(r: Run, j: ReleaseJob)
    requires QueueInv(r) && j in r.jobs && j.phase == Decided(Proceed)
    requires forall id | id in r.board.injects :: id < r.board.nextInject
    ensures QueueInv(FinishJob(r, j))
  {
    match ReleaseNow(r.(jobs := r.jobs - multiset{j}), j.inject, None, true)
    case Ok(r') => ReleasingAttemptKeepsQueue(r, j, r');
    case Err(e) => RefusedAttemptKeepsQueue(r, j, e);
  }

  lemma FinishKeepsQueue(r: Run, j: ReleaseJob)
    requires QueueInv(r)
    requires forall id | id in r.board.injects :: id < r.board.nextInject
    ensures QueueInv(FinishJob(r, j))
  {
    if j in r.jobs && j.phase.Decided? {
      match j.phase.verdict
      case StandDown =>
        RemovalKeepsSane(r, j);
        if r.life.row.state == L.Active && !r.rearmOwed {
          forall id | Schedulable(r.board, id) ensures NotLost(FinishJob(r, j), id) { RemovalKeepsOthers(r, j, id); }
        }
      case ComeBack(version, offset) =>
        var again := JobFor(r.life.versions[version], version, j.inject, offset, r.board.now,
                            if offset == j.offset then j.redefers + 1 else 0);
        ComeBackKeepsQueue(r, j, again);
      case Proceed => AttemptKeepsQueue(r, j);
    }
  }

  lemma WorkKeepsQueue(r: Run, work: Work, j: ReleaseJob)
    requires QueueInv(r) && r.life.versions != []
    requires forall id | id in r.board.injects :: id < r.board.nextInject
    ensures QueueInv(WorkRelease(r, work, j))
  {
    match work
    case Fetch => if j in r.jobs { ReplaceKeepsQueue(r, j, j.(phase := Doing)); }
    case Read => ReadKeepsQueue(r, j);
    case Finish => FinishKeepsQueue(r, j);
    case Retry => if j in r.jobs { ReplaceKeepsQueue(r, j, j.(phase := Todo)); }
    case Rerun => if j in r.jobs { AnotherJobKeepsQueue(r, j.(phase := Todo)); }
  }

  // ── Whole runs ────────────────────────────────────────────────────────────

  lemma MoveKeepsQueue(r: Run, move: Move)
    requires Core(r) && QueueInv(r)
    ensures QueueInv(Perform(r, move))
  {
    match move
    case Ask(request) => if Handle(r, request).Ok? { RequestKeepsQueue(r, request); }
    case ChangeTo(seen, target) => if ChangeState(r, seen, target).Ok? { ChangeKeepsQueue(r, seen, target); }
    case Rearm(version, order) =>
      if version < |r.life.versions| && ReleasedInOrder(r.board, order) { RearmKeepsQueue(r, version, order); }
    case OnRelease(work, j) => WorkKeepsQueue(r, work, j);
    case OnMessage(work, j) => MessageLeavesBoard(r, work, j);
  }

  lemma WaitKeepsQueue(r: Run, dt: nat)
    requires QueueInv(r)
    ensures QueueInv(Wait(r, dt))
  {
    QuietEditKeepsQueue(r, Wait(r, dt));
  }

  lemma {:induction false} PlayKeeps(def: Definition, start: int, moves: seq<TimedMove>)
    ensures var r := Play(CreateExercise(def, start), moves); Core(r) && QueueInv(r)
  {
    var origin := CreateExercise(def, start);
    if moves == [] {
      CreatedSatisfies(def, start);
    } else {
      var n := |moves| - 1;
      var before := Play(origin, moves[..n]);
      PlayKeeps(def, start, moves[..n]);
      WaitKeepsCore(before, moves[n].dt);
      WaitKeepsQueue(before, moves[n].dt);
      MoveKeepsCore(Wait(before, moves[n].dt), moves[n].move);
      MoveKeepsQueue(Wait(before, moves[n].dt), moves[n].move);
    }
  }

  /** In every reachable state of an active exercise whose start or resume has re-enqueued, each
      pending scheduled inject has a job that will still act, or its gate is shut, or its last job was
      refused under a roster in which it had no audience. */
  lemma NoScheduledReleaseIsLost(def: Definition, start: int, moves: seq<TimedMove>, id: int)
    requires var r := Play(CreateExercise(def, start), moves);
             r.life.row.state == L.Active && !r.rearmOwed && Schedulable(r.board, id)
    ensures var r := Play(CreateExercise(def, start), moves);
            || (exists j :: j in r.jobs && j.inject == id && j.phase != Decided(StandDown))
            || !ReleaseIsAllowed(r.board, r.board.injects[id], true)
            || (id in r.refused && forall c :: !Eligible(r.board.injects[id], r.refused[id], c))
  {
    PlayKeeps(def, start, moves);
    var r := Play(CreateExercise(def, start), moves);
    assert NotLost(r, id);
    if id in r.refused { AudienceExactlyWhen(r.board.injects[id], r.refused[id]); }
    hide Play, Eligible, Core;
  }
}
