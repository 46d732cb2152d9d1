/** Runs in which a release runs late, is refused and left, or comes back after several short pauses. Each
    is a run of every definition, with a facilitator's inject created while the exercise is active. */
module ScheduleWitnesses {
  import opened Wrappers
  import opened Scenario
  import opened Progression
  import opened ProgressionInvariants
  import opened Scheduling
  import opened ScheduleTheorems
  import opened ReleaseTiming
  import opened OffsetEdits
  import L = Lifecycle
  import Clock

  const ADHOC := FreshInject(None, None, [], None, true)

  /** What a witness keeps track of: the inject's offset, the row's history, whether a re-enqueue is owed,
      the instant, and the inject's jobs. */
  datatype Scene = Scene(
    offset: Option<nat>,
    versions: seq<L.Exercise>,
    owed: bool,
    now: int,
    mine: multiset<ReleaseJob>)

  function Row(s: Scene): L.Exercise {
    if s.versions == [] then L.DRAFT else s.versions[|s.versions| - 1]
  }

  /** The inject is pending, its queue and the row are as the scene says, nobody is enrolled and nothing
      has been released. */
  ghost predicate Stage(r: Run, id: int, s: Scene) {
    && s.versions != [] && r.life.versions == s.versions && r.life.row == Row(s)
    && r.rearmOwed == s.owed && r.board.now == s.now && r.board.members == map[]
    && (forall q | q in r.board.injects :: Unopened(r.board.injects[q]))
    && id in r.board.injects && r.board.injects[id] == ADHOC.(offset := s.offset)
    && (forall j: ReleaseJob | j.inject == id :: r.jobs[j] == s.mine[j])
  }

  /** The run after one more move. */
  ghost function Next(r: Run, dt: nat, move: Move): Run {
    Perform(Wait(r, dt), move)
  }

  // ── One move ──────────────────────────────────────────────────────────────

  function VerdictOf(s: Scene, now: int): Verdict
    requires s.versions != [] && s.offset.Some?
  {
    if Row(s).state != L.Active then StandDown
    else if SecondsUntilDue(Row(s), s.offset.value, now) > Clock.SECOND then ComeBack(|s.versions| - 1, s.offset.value)
    else Proceed
  }

  function Armed(s: Scene, id: int): Scene {
    if IsRunning(Row(s)) && s.versions != [] && s.offset.Some? then
      s.(mine := s.mine + multiset{JobFor(Row(s), |s.versions| - 1, id, s.offset.value, s.now, 0)})
    else s
  }

  function Scheduled(s: Scene, id: int, dt: nat, offset: nat): Scene {
    Armed(s.(offset := Some(offset), now := s.now + dt), id)
  }

  function Changed(s: Scene, dt: nat, target: L.Phase): Scene {
    var row := L.Updated(Row(s), Row(s), target, s.now + dt);
    s.(versions := s.versions + [row], owed := s.owed || target == L.Active, now := s.now + dt)
  }

  function Rephased(s: Scene, dt: nat, j: ReleaseJob, phase: Phase): Scene {
    s.(now := s.now + dt, mine := Replace(s.mine, j, j.(phase := phase)))
  }

  function Dropped(s: Scene, dt: nat, j: ReleaseJob): Scene {
    s.(now := s.now + dt, mine := s.mine - multiset{j})
  }

  lemma Opening(def: Definition, start: int)
    ensures var r := Next(Next(CreateExercise(def, start), 0, ChangeTo(0, L.Active)), 0, Ask(Add(None, None, [])));
            Stage(r, Created(def, start).nextInject, Scene(None, [L.DRAFT, Running(start, 0)], true, start, multiset{}))
  {
    SeedInjectsPending(def.injects);
    assert forall q | q in Created(def, start).injects :: Unopened(Created(def, start).injects[q]);
    hide Created;
  }

  /** Active since the start, with this much paused in between. */
  function Running(start: int, paused: int): L.Exercise {
    L.Exercise(L.Active, Some(start), None, None, paused, true)
  }

  function Halted(start: int, paused: int, at: int): L.Exercise {
    L.Exercise(L.Paused, Some(start), None, Some(at), paused, true)
  }

  lemma Changes(r: Run, id: int, s: Scene, dt: nat, target: L.Phase)
    requires Stage(r, id, s) && Row(s).state != L.Draft && L.ValidTransition(Row(s).state, target)
    ensures Stage(Next(r, dt, ChangeTo(|s.versions| - 1, target)), id, Changed(s, dt, target))
    ensures FreshMove(r, ChangeTo(|s.versions| - 1, target))
  {
  }

  lemma EnqueuesOne(r: Run, version: nat, id: int)
    requires version < |r.life.versions| && Schedulable(r.board, id)
    ensures var job := JobFor(r.life.versions[version], version, id, r.board.injects[id].offset.value, r.board.now, 0);
            Enqueue(r, version, {id}) == r.(jobs := r.jobs + multiset{job}, refused := r.refused - {id})
  {
    var job := JobFor(r.life.versions[version], version, id, r.board.injects[id].offset.value, r.board.now, 0);
    assert JobsFor(r, version, {id}) == {job} by { assert job in JobsFor(r, version, {id}); }
    assert multiset({job}) == multiset{job};
  }

  /** The inject was created during the run, so its offset may be edited. */
  lemma EditIsOpen(r: Run, id: int, s: Scene, offset: nat)
    requires Stage(r, id, s) && Row(s).state != L.Completed
    ensures var edited := r.(board := r.board.(injects := r.board.injects[id := ADHOC.(offset := Some(offset))]));
            Perform(r, Ask(Schedule(id, Some(offset)))) == ArmInjectSchedule(edited, |s.versions| - 1, id)
  {
    hide ArmInjectSchedule;
  }

  lemma EditIsStaged(r: Run, id: int, s: Scene, offset: nat, edited: Run)
    requires Stage(r, id, s)
    requires edited == r.(board := r.board.(injects := r.board.injects[id := ADHOC.(offset := Some(offset))]))
    ensures Stage(edited, id, s.(offset := Some(offset)))
  {
  }

  lemma AnotherJobIsStaged(r: Run, id: int, s: Scene, job: ReleaseJob, refused: map<int, map<int, Member>>)
    requires Stage(r, id, s)
    ensures Stage(r.(jobs := r.jobs + multiset{job}, refused := refused), id, s.(mine := s.mine + multiset{job}))
  {
  }

  lemma WaitIsStaged(r: Run, id: int, s: Scene, dt: nat)
    requires Stage(r, id, s)
    ensures Stage(Wait(r, dt), id, s.(now := s.now + dt))
  {
  }

  lemma Schedules(r: Run, id: int, s: Scene, dt: nat, offset: nat)
    requires Stage(r, id, s) && Row(s).state != L.Completed
    ensures Stage(Next(r, dt, Ask(Schedule(id, Some(offset)))), id, Scheduled(s, id, dt, offset))
  {
    hide Stage, Perform, ArmInjectSchedule, JobFor, IsRunning;
    var waited := Wait(r, dt);
    var staged := s.(now := s.now + dt);
    WaitIsStaged(r, id, s, dt);
    EditIsOpen(waited, id, staged, offset);
    var injects := waited.board.injects[id := ADHOC.(offset := Some(offset))];
    var edited := waited.(board := waited.board.(injects := injects));
    EditIsStaged(waited, id, staged, offset, edited);
    hide Wait, Armed;
    ArmedIsStaged(edited, id, s.(offset := Some(offset), now := s.now + dt));
  }

  lemma ArmedIsStaged(edited: Run, id: int, s: Scene)
    requires Stage(edited, id, s) && s.offset.Some?
    ensures s.versions != [] && Stage(ArmInjectSchedule(edited, |s.versions| - 1, id), id, Armed(s, id))
  {
    if IsRunning(Row(s)) {
      EnqueuesOne(edited, |s.versions| - 1, id);
      AnotherJobIsStaged(edited, id, s, JobFor(Row(s), |s.versions| - 1, id, s.offset.value, s.now, 0),
                         edited.refused - {id});
    }
    hide Enqueue, JobFor;
  }

  lemma Rearms(r: Run, id: int, s: Scene, dt: nat, todo: ReleaseJob)
    requires Stage(r, id, s) && IsRunning(Row(s)) && todo in s.mine && todo.inject == id && todo.phase == Todo
    ensures Stage(Next(r, dt, Rearm(|s.versions| - 1, [])), id, s.(owed := false, now := s.now + dt))
  {
    var waited := Wait(r, dt);
    assert todo in r.jobs && HasTodo(waited, id);
    assert ReleasedInOrder(waited.board, []);
    RearmSkipsQueued(waited, id, |s.versions| - 1, []);
    RearmLeavesRows(waited, |s.versions| - 1);
    RearmIsTheReenqueue(waited, |s.versions| - 1, []);
    hide HasTodo, ReleasedInOrder, ScheduleExerciseInjects;
  }

  lemma RearmLeavesRows(r: Run, version: nat)
    requires version < |r.life.versions| && IsRunning(r.life.versions[version]) && ReleasedInOrder(r.board, [])
    ensures var r' := ScheduleExerciseInjects(r, version, []);
            r'.board == r.board && r'.life == r.life && !r'.rearmOwed
  {
    hide Unqueued, Owed, JobsFor, ReleasedInOrder;
  }

  lemma Fetches(r: Run, id: int, s: Scene, dt: nat, j: ReleaseJob)
    requires Stage(r, id, s) && j in s.mine && j.inject == id && j.phase == Todo && j.at <= s.now + dt
    ensures Stage(Next(r, dt, OnRelease(Fetch, j)), id, Rephased(s, dt, j, Doing))
  {
    assert j in r.jobs;
  }

  lemma Judges(r: Run, id: int, s: Scene)
    requires Stage(r, id, s) && s.offset.Some?
    ensures Judge(r, id) == VerdictOf(s, s.now)
  {
  }

  lemma Reads(r: Run, id: int, s: Scene, dt: nat, j: ReleaseJob)
    requires Stage(r, id, s) && s.offset.Some? && j in s.mine && j.inject == id && j.phase == Doing
    ensures Stage(Next(r, dt, OnRelease(Read, j)), id, Rephased(s, dt, j, Decided(VerdictOf(s, s.now + dt))))
  {
    assert j in r.jobs;
    Judges(Wait(r, dt), id, s.(now := s.now + dt));
    hide Judge, VerdictOf;
  }

  lemma StandsDown(r: Run, id: int, s: Scene, dt: nat, j: ReleaseJob)
    requires Stage(r, id, s) && j in s.mine && j.inject == id && j.phase == Decided(StandDown)
    ensures Stage(Next(r, dt, OnRelease(Finish, j)), id, Dropped(s, dt, j))
  {
    assert j in r.jobs;
  }

  lemma ComesBack(r: Run, id: int, s: Scene, dt: nat, j: ReleaseJob, version: nat)
    requires Stage(r, id, s) && j in s.mine && j.inject == id && version < |s.versions|
    requires j.phase == Decided(ComeBack(version, j.offset))
    ensures var again := JobFor(s.versions[version], version, id, j.offset, s.now + dt, j.redefers + 1);
            Stage(Next(r, dt, OnRelease(Finish, j)), id,
                  s.(now := s.now + dt, mine := s.mine - multiset{j} + multiset{again}))
  {
    assert j in r.jobs;
  }

  lemma NobodyToRelease(r: Run, id: int, offset: Option<nat>)
    requires r.life.row.state == L.Active && r.board.members == map[]
    requires id in r.board.injects && r.board.injects[id] == ADHOC.(offset := offset)
    ensures ReleaseNow(r, id, None, true) == Err(NoAudience)
  {
    assert ParticipantContexts(r.board.members) == {};
  }

  lemma FinishIs(r: Run, dt: nat, j: ReleaseJob)
    requires r.life.versions != []
    ensures Next(r, dt, OnRelease(Finish, j)) == FinishJob(Wait(r, dt), j)
  {
    hide FinishJob;
  }

  lemma RefusedFinish(r: Run, j: ReleaseJob)
    requires j in r.jobs && j.phase == Decided(Proceed)
    requires ReleaseNow(r.(jobs := r.jobs - multiset{j}), j.inject, None, true) == Err(NoAudience)
    ensures FinishJob(r, j) == r.(jobs := r.jobs - multiset{j}, refused := r.refused[j.inject := r.board.members])
  {
    hide ReleaseNow;
  }

  /** Nobody is enrolled, so the release is refused and the job is gone. */
  lemma IsRefused(r: Run, id: int, s: Scene, dt: nat, j: ReleaseJob)
    requires Stage(r, id, s) && j in s.mine && j.inject == id
    requires j.phase == Decided(Proceed) && Row(s).state == L.Active
    ensures var r' := Next(r, dt, OnRelease(Finish, j));
            Stage(r', id, Dropped(s, dt, j)) && id in r'.refused && r'.refused[id] == map[]
  {
    hide ReleaseNow, FinishJob, Unopened, Next;
    var waited := Wait(r, dt);
    NobodyToRelease(waited.(jobs := waited.jobs - multiset{j}), id, s.offset);
    assert j in r.jobs;
    RefusedFinish(waited, j);
    FinishIs(r, dt, j);
  }

  // ── Whole runs ────────────────────────────────────────────────────────────

  /** The moves lead to the scene, and every resume among them read the row as it stood. */
  ghost predicate LeadsTo(def: Definition, start: int, moves: seq<TimedMove>, s: Scene) {
    FreshRun(def, start, moves) && Stage(Play(CreateExercise(def, start), moves), Created(def, start).nextInject, s)
  }

  lemma OneMore(def: Definition, start: int, moves: seq<TimedMove>, dt: nat, move: Move)
    requires FreshRun(def, start, moves) && FreshMove(Play(CreateExercise(def, start), moves), move)
    ensures FreshRun(def, start, moves + [TimedMove(dt, move)])
    ensures Play(CreateExercise(def, start), moves + [TimedMove(dt, move)])
            == Next(Play(CreateExercise(def, start), moves), dt, move)
  {
    var longer := moves + [TimedMove(dt, move)];
    assert longer[..|moves|] == moves;
    hide FreshMove, Play;
    forall n | 0 <= n < |longer|
      ensures FreshMove(Play(CreateExercise(def, start), longer[..n]), longer[n].move)
    {
      if n < |moves| { assert longer[..n] == moves[..n]; }
    }
  }

  /** Start the exercise and create the inject. */
  const OPENING := [TimedMove(0, ChangeTo(0, L.Active)), TimedMove(0, Ask(Add(None, None, [])))]

  function Begun(start: int): Scene {
    Scene(None, [L.DRAFT, Running(start, 0)], true, start, multiset{})
  }

  lemma Begins(def: Definition, start: int)
    ensures LeadsTo(def, start, OPENING, Begun(start))
  {
    Opening(def, start);
    var first, second := TimedMove(0, ChangeTo(0, L.Active)), TimedMove(0, Ask(Add(None, None, [])));
    assert [] + [first] == [first] && [first] + [second] == OPENING;
    hide Created;
    OneMore(def, start, [], 0, ChangeTo(0, L.Active));
    OneMore(def, start, [first], 0, Ask(Add(None, None, [])));
    hide Next, Stage;
  }

  lemma ThenChanges(def: Definition, start: int, moves: seq<TimedMove>, s: Scene, dt: nat, target: L.Phase)
    requires LeadsTo(def, start, moves, s) && Row(s).state != L.Draft && L.ValidTransition(Row(s).state, target)
    requires s.versions != []
    ensures LeadsTo(def, start, moves + [TimedMove(dt, ChangeTo(|s.versions| - 1, target))], Changed(s, dt, target))
  {
    hide Play, Created, FreshRun, FreshMove, Next, Stage, Changed;
    Changes(Play(CreateExercise(def, start), moves), Created(def, start).nextInject, s, dt, target);
    OneMore(def, start, moves, dt, ChangeTo(|s.versions| - 1, target));
  }

  lemma ThenSchedules(def: Definition, start: int, moves: seq<TimedMove>, s: Scene, dt: nat, offset: nat)
    requires LeadsTo(def, start, moves, s) && Row(s).state != L.Completed
    ensures var id := Created(def, start).nextInject;
            LeadsTo(def, start, moves + [TimedMove(dt, Ask(Schedule(id, Some(offset))))], Scheduled(s, id, dt, offset))
  {
    var id := Created(def, start).nextInject;
    hide Play, Created, FreshRun, Next, Stage, Scheduled;
    Schedules(Play(CreateExercise(def, start), moves), id, s, dt, offset);
    OneMore(def, start, moves, dt, Ask(Schedule(id, Some(offset))));
  }

  lemma ThenRearms(def: Definition, start: int, moves: seq<TimedMove>, s: Scene, dt: nat, todo: ReleaseJob)
    requires LeadsTo(def, start, moves, s) && IsRunning(Row(s)) && s.versions != []
    requires todo in s.mine && todo.inject == Created(def, start).nextInject && todo.phase == Todo
    ensures LeadsTo(def, start, moves + [TimedMove(dt, Rearm(|s.versions| - 1, []))],
                    s.(owed := false, now := s.now + dt))
  {
    hide Play, Created, FreshRun, Next, Stage;
    Rearms(Play(CreateExercise(def, start), moves), Created(def, start).nextInject, s, dt, todo);
    OneMore(def, start, moves, dt, Rearm(|s.versions| - 1, []));
  }

  lemma ThenFetches(def: Definition, start: int, moves: seq<TimedMove>, s: Scene, dt: nat, j: ReleaseJob)
    requires LeadsTo(def, start, moves, s) && j in s.mine && j.inject == Created(def, start).nextInject
    requires j.phase == Todo && j.at <= s.now + dt
    ensures LeadsTo(def, start, moves + [TimedMove(dt, OnRelease(Fetch, j))], Rephased(s, dt, j, Doing))
  {
    hide Play, Created, FreshRun, Next, Stage;
    Fetches(Play(CreateExercise(def, start), moves), Created(def, start).nextInject, s, dt, j);
    OneMore(def, start, moves, dt, OnRelease(Fetch, j));
  }

  lemma ThenReads(def: Definition, start: int, moves: seq<TimedMove>, s: Scene, dt: nat, j: ReleaseJob)
    requires LeadsTo(def, start, moves, s) && s.offset.Some? && s.versions != []
    requires j in s.mine && j.inject == Created(def, start).nextInject && j.phase == Doing
    ensures LeadsTo(def, start, moves + [TimedMove(dt, OnRelease(Read, j))],
                    Rephased(s, dt, j, Decided(VerdictOf(s, s.now + dt))))
  {
    hide Play, Created, FreshRun, Next, Stage, VerdictOf;
    Reads(Play(CreateExercise(def, start), moves), Created(def, start).nextInject, s, dt, j);
    OneMore(def, start, moves, dt, OnRelease(Read, j));
  }

  lemma ThenStandsDown(def: Definition, start: int, moves: seq<TimedMove>, s: Scene, dt: nat, j: ReleaseJob)
    requires LeadsTo(def, start, moves, s) && j in s.mine && j.inject == Created(def, start).nextInject
    requires j.phase == Decided(StandDown)
    ensures LeadsTo(def, start, moves + [TimedMove(dt, OnRelease(Finish, j))], Dropped(s, dt, j))
  {
    hide Play, Created, FreshRun, Next, Stage;
    StandsDown(Play(CreateExercise(def, start), moves), Created(def, start).nextInject, s, dt, j);
    OneMore(def, start, moves, dt, OnRelease(Finish, j));
  }

  lemma ActiveInTheEnd(def: Definition, start: int, moves: seq<TimedMove>, s: Scene, paused: int)
    requires LeadsTo(def, start, moves, s) && Row(s) == Running(start, paused)
    ensures var r := Play(CreateExercise(def, start), moves);
            && r.life.row.startedAt == Some(start)
            && Clock.ActiveTicks(r.life.log, start, r.board.now) == s.now - start - paused
  {
    PlayKeeps(def, start, moves);
    PlayKeepsTimed(def, start, moves);
    hide Play, FreshRun, QueueInv, AllTimed, Clock.ActiveTicks;
    Clock.AccumulatorIsActiveTime(Play(CreateExercise(def, start), moves).life, s.now);
  }

  // ── Late releases ─────────────────────────────────────────────────────────

  /** The release is late: the exercise is active and re-enqueued, the inject pending with its gate open,
      the exercise has been active for longer than its offset, and every job it has is still to come. */
  ghost predicate Late(r: Run, id: int) {
    && r.life.row.state == L.Active && !r.rearmOwed && Schedulable(r.board, id)
    && ReleaseIsAllowed(r.board, r.board.injects[id], true)
    && r.life.row.startedAt.Some?
    && Clock.ActiveTicks(r.life.log, r.life.row.startedAt.value, r.board.now)
       > r.board.injects[id].offset.value * Clock.MINUTE
    && HasTodo(r, id) && forall j | j in r.jobs && j.inject == id :: j.phase == Todo && j.at > r.board.now
  }

  lemma SceneIsLate(def: Definition, start: int, moves: seq<TimedMove>, s: Scene, paused: int, job: ReleaseJob)
    requires LeadsTo(def, start, moves, s) && Row(s) == Running(start, paused) && !s.owed && s.offset.Some?
    requires s.now - start - paused > s.offset.value * Clock.MINUTE
    requires s.mine == multiset{job} && job.inject == Created(def, start).nextInject && job.phase == Todo
    requires job.at > s.now
    ensures Late(Play(CreateExercise(def, start), moves), Created(def, start).nextInject)
  {
    ActiveInTheEnd(def, start, moves, s, paused);
    var r, id := Play(CreateExercise(def, start), moves), Created(def, start).nextInject;
    hide Play, Created, FreshRun, Clock.ActiveTicks;
    assert job in r.jobs;
    forall j | j in r.jobs && j.inject == id ensures j == job { assert j in s.mine; }
  }

  /** The first minutes of every witness: the inject is scheduled, and its job waits. */
  function First(id: int, offset: nat): seq<TimedMove> {
    OPENING + [TimedMove(0, Ask(Schedule(id, Some(offset))))]
  }

  function FirstJob(id: int, start: int, offset: nat): ReleaseJob {
    JobFor(Running(start, 0), 1, id, offset, start, 0)
  }

  lemma SchedulesFirst(def: Definition, start: int, offset: nat)
    ensures var id := Created(def, start).nextInject;
            LeadsTo(def, start, First(id, offset),
                    Scene(Some(offset), [L.DRAFT, Running(start, 0)], true, start,
                          multiset{FirstJob(id, start, offset)}))
  {
    hide Created, LeadsTo, JobFor;
    Begins(def, start);
    ThenSchedules(def, start, OPENING, Begun(start), 0, offset);
    var job := FirstJob(Created(def, start).nextInject, start, offset);
    assert multiset{} + multiset{job} == multiset{job};
  }

  /** Start; schedule for the 60th minute; pause after one minute; shorten to the third; resume a minute
      later; re-enqueue; and four minutes on, re-enqueue once more. */
  function PausedEdit(id: int): seq<TimedMove> {
    First(id, 60)
    + [TimedMove(Clock.MINUTE, ChangeTo(1, L.Paused))]
    + [TimedMove(0, Ask(Schedule(id, Some(3))))]
    + [TimedMove(Clock.MINUTE, ChangeTo(2, L.Active))]
    + [TimedMove(0, Rearm(3, []))]
    + [TimedMove(4 * Clock.MINUTE, Rearm(3, []))]
  }

  lemma PausedEditIsPaused(def: Definition, start: int)
    ensures var id := Created(def, start).nextInject;
            LeadsTo(def, start,
                    First(id, 60) + [TimedMove(Clock.MINUTE, ChangeTo(1, L.Paused))]
                    + [TimedMove(0, Ask(Schedule(id, Some(3))))],
                    Scene(Some(3), [L.DRAFT, Running(start, 0), Halted(start, 0, start + Clock.MINUTE)], true,
                          start + Clock.MINUTE, multiset{FirstJob(id, start, 60)}))
  {
    hide Created, LeadsTo, JobFor, First, FirstJob;
    var id := Created(def, start).nextInject;
    var mine := multiset{FirstJob(id, start, 60)};
    var s := Scene(Some(60), [L.DRAFT, Running(start, 0)], true, start, mine);
    var s' := Scene(Some(60), [L.DRAFT, Running(start, 0), Halted(start, 0, start + Clock.MINUTE)], true,
                    start + Clock.MINUTE, mine);
    SchedulesFirst(def, start, 60);
    assert s.versions + [Halted(start, 0, start + Clock.MINUTE)] == s'.versions;
    assert Scheduled(s', id, 0, 3) == s'.(offset := Some(3));
    ThenPauses(def, start, First(id, 60), s, Clock.MINUTE, 0);
    ThenSchedules(def, start, First(id, 60) + [TimedMove(Clock.MINUTE, ChangeTo(1, L.Paused))], s', 0, 3);
  }

  lemma FirstJobFields(id: int, start: int, offset: nat)
    ensures var job := FirstJob(id, start, offset);
            && job.inject == id && job.phase == Todo && job.offset == offset && job.redefers == 0
            && job.at == start + offset * Clock.MINUTE
  {
  }

  /** Re-enqueueing at once and again four minutes later. */
  lemma RearmedTwiceIsLate(def: Definition, start: int, moves: seq<TimedMove>, s: Scene, paused: int, job: ReleaseJob)
    requires LeadsTo(def, start, moves, s) && |s.versions| == 4
    requires Row(s) == Running(start, paused) && s.offset == Some(3)
    requires s.mine == multiset{job} && job.inject == Created(def, start).nextInject && job.phase == Todo
    requires s.now + 4 * Clock.MINUTE < job.at && s.now - start - paused >= 0
    ensures var longer := moves + [TimedMove(0, Rearm(3, []))] + [TimedMove(4 * Clock.MINUTE, Rearm(3, []))];
            && FreshRun(def, start, longer)
            && Late(Play(CreateExercise(def, start), longer), Created(def, start).nextInject)
  {
    hide Created, LeadsTo, Late, Play, FreshRun;
    ThenRearms(def, start, moves, s, 0, job);
    var s1 := s.(owed := false);
    var moves1 := moves + [TimedMove(0, Rearm(3, []))];
    ThenRearms(def, start, moves1, s1, 4 * Clock.MINUTE, job);
    var s2 := s1.(now := s.now + 4 * Clock.MINUTE);
    var moves2 := moves1 + [TimedMove(4 * Clock.MINUTE, Rearm(3, []))];
    SceneIsLate(def, start, moves2, s2, paused, job);
    LeadsToMeans(def, start, moves2, s2);
  }

  lemma LeadsToMeans(def: Definition, start: int, moves: seq<TimedMove>, s: Scene)
    requires LeadsTo(def, start, moves, s)
    ensures FreshRun(def, start, moves)
    ensures Stage(Play(CreateExercise(def, start), moves), Created(def, start).nextInject, s)
  {
  }

  /** Once resumed and re-enqueued, the release waits for its one long job. */
  lemma ResumedIsLate(def: Definition, start: int, moves: seq<TimedMove>, now: int, dt: nat, long: ReleaseJob)
    requires var v := [L.DRAFT, Running(start, 0), Halted(start, 0, start + Clock.MINUTE)];
             LeadsTo(def, start, moves, Scene(Some(3), v, true, now, multiset{long}))
    requires long.inject == Created(def, start).nextInject && long.phase == Todo
    requires start + Clock.MINUTE <= now && now + dt + 4 * Clock.MINUTE < long.at
    ensures var longer := moves + [TimedMove(dt, ChangeTo(2, L.Active))] + [TimedMove(0, Rearm(3, []))]
                          + [TimedMove(4 * Clock.MINUTE, Rearm(3, []))];
            && FreshRun(def, start, longer)
            && Late(Play(CreateExercise(def, start), longer), Created(def, start).nextInject)
  {
    hide Created, LeadsTo, Late, Play, FreshRun;
    var v := [L.DRAFT, Running(start, 0), Halted(start, 0, start + Clock.MINUTE)];
    var paused := now + dt - (start + Clock.MINUTE);
    ThenResumes(def, start, moves, Scene(Some(3), v, true, now, multiset{long}), dt, 0, start + Clock.MINUTE);
    RearmedTwiceIsLate(def, start, moves + [TimedMove(dt, ChangeTo(2, L.Active))],
                       Scene(Some(3), v + [Running(start, paused)], true, now + dt, multiset{long}), paused, long);
  }

  /** Shortening an offset while paused leaves the release late, whatever the definition: the job timed
      by the old offset keeps the re-enqueue from adding another. */
  lemma PausedEditRunsLate(def: Definition, start: int)
    ensures var id := Created(def, start).nextInject;
            FreshRun(def, start, PausedEdit(id)) && Late(Play(CreateExercise(def, start), PausedEdit(id)), id)
  {
    hide Created, LeadsTo, First, FirstJob, Late, Play, FreshRun;
    var id := Created(def, start).nextInject;
    FirstJobFields(id, start, 60);
    PausedEditIsPaused(def, start);
    ResumedIsLate(def, start,
                  First(id, 60) + [TimedMove(Clock.MINUTE, ChangeTo(1, L.Paused))]
                  + [TimedMove(0, Ask(Schedule(id, Some(3))))],
                  start + Clock.MINUTE, Clock.MINUTE, FirstJob(id, start, 60));
  }

  // ── An edit made while running, and lost ──────────────────────────────────

  function Took(j: ReleaseJob): ReleaseJob {
    j.(phase := Doing)
  }

  function Decides(j: ReleaseJob, verdict: Verdict): ReleaseJob {
    j.(phase := Decided(verdict))
  }

  /** The offset is shortened while running, which adds a job; that job falls due in a pause. */
  function RunningEdit(id: int, start: int): seq<TimedMove> {
    First(id, 60)
    + [TimedMove(0, Ask(Schedule(id, Some(3))))]
    + [TimedMove(Clock.MINUTE, ChangeTo(1, L.Paused))]
    + [TimedMove(3 * Clock.MINUTE, OnRelease(Fetch, FirstJob(id, start, 3)))]
    + [TimedMove(0, OnRelease(Read, Took(FirstJob(id, start, 3))))]
    + [TimedMove(0, OnRelease(Finish, Decides(FirstJob(id, start, 3), StandDown)))]
    + [TimedMove(0, ChangeTo(2, L.Active))]
    + [TimedMove(0, Rearm(3, []))]
    + [TimedMove(4 * Clock.MINUTE, Rearm(3, []))]
  }

  lemma ScheduledAgain(id: int, start: int)
    ensures var v := [L.DRAFT, Running(start, 0)];
            Scheduled(Scene(Some(60), v, true, start, multiset{FirstJob(id, start, 60)}), id, 0, 3)
            == Scene(Some(3), v, true, start, multiset{FirstJob(id, start, 60), FirstJob(id, start, 3)})
  {
    hide JobFor;
    assert multiset{FirstJob(id, start, 60)} + multiset{FirstJob(id, start, 3)}
           == multiset{FirstJob(id, start, 60), FirstJob(id, start, 3)};
  }

  lemma RunningEditPauses(def: Definition, start: int)
    ensures var id := Created(def, start).nextInject;
            LeadsTo(def, start,
                    First(id, 60) + [TimedMove(0, Ask(Schedule(id, Some(3))))]
                    + [TimedMove(Clock.MINUTE, ChangeTo(1, L.Paused))],
                    Scene(Some(3), [L.DRAFT, Running(start, 0), Halted(start, 0, start + Clock.MINUTE)], true,
                          start + Clock.MINUTE, multiset{FirstJob(id, start, 60), FirstJob(id, start, 3)}))
  {
    hide Created, LeadsTo, First, FirstJob, Scheduled;
    var id := Created(def, start).nextInject;
    var s := Scene(Some(60), [L.DRAFT, Running(start, 0)], true, start, multiset{FirstJob(id, start, 60)});
    SchedulesFirst(def, start, 60);
    ThenSchedules(def, start, First(id, 60), s, 0, 3);
    ScheduledAgain(id, start);
    var mine := multiset{FirstJob(id, start, 60), FirstJob(id, start, 3)};
    assert [L.DRAFT, Running(start, 0)] + [Halted(start, 0, start + Clock.MINUTE)]
           == [L.DRAFT, Running(start, 0), Halted(start, 0, start + Clock.MINUTE)];
    ThenPauses(def, start, First(id, 60) + [TimedMove(0, Ask(Schedule(id, Some(3))))],
               Scene(Some(3), [L.DRAFT, Running(start, 0)], true, start, mine), Clock.MINUTE, 0);
  }

  lemma ThenPauses(def: Definition, start: int, moves: seq<TimedMove>, s: Scene, dt: nat, paused: int)
    requires LeadsTo(def, start, moves, s) && s.versions != [] && Row(s) == Running(start, paused)
    ensures LeadsTo(def, start, moves + [TimedMove(dt, ChangeTo(|s.versions| - 1, L.Paused))],
                    s.(versions := s.versions + [Halted(start, paused, s.now + dt)], now := s.now + dt))
  {
    hide LeadsTo;
    ThenChanges(def, start, moves, s, dt, L.Paused);
  }

  lemma ThenResumes(def: Definition, start: int, moves: seq<TimedMove>, s: Scene, dt: nat, paused: int, at: int)
    requires LeadsTo(def, start, moves, s) && s.versions != [] && Row(s) == Halted(start, paused, at)
    ensures LeadsTo(def, start, moves + [TimedMove(dt, ChangeTo(|s.versions| - 1, L.Active))],
                    s.(versions := s.versions + [Running(start, paused + (s.now + dt - at))], owed := true,
                       now := s.now + dt))
  {
    hide LeadsTo;
    ThenChanges(def, start, moves, s, dt, L.Active);
  }

  lemma TwoJobs(a: ReleaseJob, b: ReleaseJob, c: ReleaseJob)
    ensures Replace(multiset{a, b}, b, c) == multiset{a, c}
    ensures multiset{a, b} - multiset{b} == multiset{a}
  {
  }

  lemma ShortJobStandsDown(def: Definition, start: int, moves: seq<TimedMove>, s: Scene, long: ReleaseJob,
                           short: ReleaseJob)
    requires LeadsTo(def, start, moves, s) && s.mine == multiset{long, short} && s.versions != []
    requires Row(s).state == L.Paused && s.offset.Some?
    requires short.inject == Created(def, start).nextInject && short.phase == Todo
    requires short.at <= s.now + 3 * Clock.MINUTE
    ensures LeadsTo(def, start,
                    moves + [TimedMove(3 * Clock.MINUTE, OnRelease(Fetch, short))]
                    + [TimedMove(0, OnRelease(Read, Took(short)))]
                    + [TimedMove(0, OnRelease(Finish, Decides(short, StandDown)))],
                    s.(now := s.now + 3 * Clock.MINUTE, mine := multiset{long}))
  {
    hide Created, LeadsTo;
    var took, decided := Took(short), Decides(short, StandDown);
    TwoJobs(long, short, took);
    TwoJobs(long, took, decided);
    TwoJobs(long, decided, decided);
    var s1 := s.(now := s.now + 3 * Clock.MINUTE, mine := multiset{long, took});
    var s2 := s1.(mine := multiset{long, decided});
    assert Rephased(s, 3 * Clock.MINUTE, short, Doing) == s1 && VerdictOf(s1, s1.now) == StandDown;
    assert Rephased(s1, 0, took, Decided(StandDown)) == s2 && Dropped(s2, 0, decided) == s2.(mine := multiset{long});
    assert took.phase == Doing && decided.phase == Decided(StandDown) && took.inject == decided.inject == short.inject;
    hide Rephased, VerdictOf, Dropped, Replace, Took, Decides;
    ThenFetches(def, start, moves, s, 3 * Clock.MINUTE, short);
    ThenReads(def, start, moves + [TimedMove(3 * Clock.MINUTE, OnRelease(Fetch, short))], s1, 0, took);
    ThenStandsDown(def, start,
                   moves + [TimedMove(3 * Clock.MINUTE, OnRelease(Fetch, short))]
                   + [TimedMove(0, OnRelease(Read, took))],
                   s2, 0, decided);
  }

  /** An edit committed while the exercise runs can be lost all the same: if the job it adds falls due in a
      later pause, that job stands down, and the job timed by the old offset keeps the re-enqueue after
      the resume from adding another. */
  lemma RunningEditCanBeLost(def: Definition, start: int)
    ensures var id := Created(def, start).nextInject;
            && IsRunning(Play(CreateExercise(def, start), First(id, 60)).life.row)
            && FreshRun(def, start, RunningEdit(id, start))
            && Late(Play(CreateExercise(def, start), RunningEdit(id, start)), id)
  {
    hide Created, LeadsTo, JobFor, First, FirstJob, Late, Play, FreshRun;
    var id := Created(def, start).nextInject;
    var long, short := FirstJob(id, start, 60), FirstJob(id, start, 3);
    FirstJobFields(id, start, 60);
    FirstJobFields(id, start, 3);
    SchedulesFirst(def, start, 60);
    LeadsToMeans(def, start, First(id, 60), Scene(Some(60), [L.DRAFT, Running(start, 0)], true, start, multiset{long}));
    var v := [L.DRAFT, Running(start, 0), Halted(start, 0, start + Clock.MINUTE)];
    var s := Scene(Some(3), v, true, start + Clock.MINUTE, multiset{long, short});
    var moves := First(id, 60) + [TimedMove(0, Ask(Schedule(id, Some(3))))]
                 + [TimedMove(Clock.MINUTE, ChangeTo(1, L.Paused))];
    RunningEditPauses(def, start);
    ShortJobStandsDown(def, start, moves, s, long, short);
    ResumedIsLate(def, start,
                  moves + [TimedMove(3 * Clock.MINUTE, OnRelease(Fetch, short))]
                  + [TimedMove(0, OnRelease(Read, Took(short)))]
                  + [TimedMove(0, OnRelease(Finish, Decides(short, StandDown)))], start + 4 * Clock.MINUTE, 0, long);
  }

  // ── A release refused and left ────────────────────────────────────────────

  /** The job finds nobody enrolled; then somebody is. */
  function RefusedThenEnrolled(id: int, start: int, user: int): seq<TimedMove> {
    First(id, 0)
    + [TimedMove(0, Rearm(1, []))]
    + [TimedMove(0, OnRelease(Fetch, FirstJob(id, start, 0)))]
    + [TimedMove(0, OnRelease(Read, Took(FirstJob(id, start, 0))))]
    + [TimedMove(0, OnRelease(Finish, Decides(FirstJob(id, start, 0), Proceed)))]
    + [TimedMove(0, Ask(Roster(Enrol(user, None, Participant))))]
  }

  /** The exercise is active and re-enqueued, the inject pending with its gate open, due, and with an
      audience; and no job will ever release it. */
  ghost predicate Stranded(r: Run, id: int) {
    && r.life.row.state == L.Active && !r.rearmOwed && Schedulable(r.board, id)
    && ReleaseIsAllowed(r.board, r.board.injects[id], true)
    && SecondsUntilDue(r.life.row, r.board.injects[id].offset.value, r.board.now) <= 0
    && Audience(r.board.injects[id], r.board.members) != {}
    && id in r.refused && forall j | j in r.jobs :: j.inject != id
  }

  lemma EnrolStrands(r: Run, id: int, s: Scene, user: int)
    requires Stage(r, id, s) && s.offset == Some(0) && s.versions != [] && Row(s) == Running(s.now, 0) && !s.owed
    requires s.mine == multiset{} && id in r.refused
    ensures Stranded(Next(r, 0, Ask(Roster(Enrol(user, None, Participant)))), id)
  {
    var r' := Next(r, 0, Ask(Roster(Enrol(user, None, Participant))));
    assert r'.board.members == map[user := Member(None, Participant)];
    assert None in ParticipantContexts(r'.board.members) by { assert user in r'.board.members; }
    assert forall j: ReleaseJob | j in r'.jobs && j.inject == id :: j in s.mine;
  }

  lemma OneJob(a: ReleaseJob, b: ReleaseJob)
    ensures Replace(multiset{a}, a, b) == multiset{b} && multiset{a} - multiset{a} == multiset{}
  {
  }

  lemma ThenIsRefused(def: Definition, start: int, moves: seq<TimedMove>, s: Scene, j: ReleaseJob)
    requires LeadsTo(def, start, moves, s) && s.mine == multiset{j} && j.inject == Created(def, start).nextInject
    requires j.phase == Decided(Proceed) && Row(s).state == L.Active
    ensures var longer := moves + [TimedMove(0, OnRelease(Finish, j))];
            && LeadsTo(def, start, longer, s.(mine := multiset{}))
            && Created(def, start).nextInject in Play(CreateExercise(def, start), longer).refused
  {
    hide Play, Created, FreshRun, Next, Stage;
    OneJob(j, j);
    IsRefused(Play(CreateExercise(def, start), moves), Created(def, start).nextInject, s, 0, j);
    OneMore(def, start, moves, 0, OnRelease(Finish, j));
  }

  /** A due release whose job found nobody is not taken up again when somebody is enrolled. */
  lemma EnrolmentDoesNotRearm(def: Definition, start: int, user: int)
    ensures var id := Created(def, start).nextInject;
            Stranded(Play(CreateExercise(def, start), RefusedThenEnrolled(id, start, user)), id)
  {
    hide Created, LeadsTo, First, FirstJob, Play, FreshRun;
    var id := Created(def, start).nextInject;
    var j := FirstJob(id, start, 0);
    FirstJobFields(id, start, 0);
    var s := Scene(Some(0), [L.DRAFT, Running(start, 0)], true, start, multiset{j});
    var s1 := s.(owed := false);
    SchedulesFirst(def, start, 0);
    ThenRearms(def, start, First(id, 0), s, 0, j);
    var moves := First(id, 0) + [TimedMove(0, Rearm(1, []))];
    var decided := moves + [TimedMove(0, OnRelease(Fetch, j))] + [TimedMove(0, OnRelease(Read, Took(j)))];
    DecidesToProceed(def, start, moves, s1, j);
    ThenIsRefused(def, start, decided, s1.(mine := multiset{Decides(j, Proceed)}), Decides(j, Proceed));
    var refused := decided + [TimedMove(0, OnRelease(Finish, Decides(j, Proceed)))];
    LeadsToMeans(def, start, refused, s1.(mine := multiset{}));
    hide Stage, Stranded, Next;
    EnrolStrands(Play(CreateExercise(def, start), refused), id, s1.(mine := multiset{}), user);
    PlayNext(CreateExercise(def, start), refused, 0, Ask(Roster(Enrol(user, None, Participant))));
  }

  lemma PlayNext(r: Run, moves: seq<TimedMove>, dt: nat, move: Move)
    ensures Play(r, moves + [TimedMove(dt, move)]) == Next(Play(r, moves), dt, move)
  {
    assert (moves + [TimedMove(dt, move)])[..|moves|] == moves;
  }

  lemma DecidesToProceed(def: Definition, start: int, moves: seq<TimedMove>, s: Scene, j: ReleaseJob)
    requires LeadsTo(def, start, moves, s) && s.offset == Some(0) && s.mine == multiset{j}
    requires s.versions != [] && Row(s) == Running(start, 0) && s.now == start
    requires j.inject == Created(def, start).nextInject && j.phase == Todo && j.at == start
    ensures LeadsTo(def, start, moves + [TimedMove(0, OnRelease(Fetch, j))] + [TimedMove(0, OnRelease(Read, Took(j)))],
                    s.(mine := multiset{Decides(j, Proceed)}))
  {
    hide Created, LeadsTo;
    OneJob(j, Took(j));
    OneJob(Took(j), Decides(j, Proceed));
    ThenFetches(def, start, moves, s, 0, j);
    ThenReads(def, start, moves + [TimedMove(0, OnRelease(Fetch, j))], s.(mine := multiset{Took(j)}), 0, Took(j));
  }

  // ── Short pauses, together longer than the epsilon ────────────────────────

  /** A tenth of a second. */
  const TENTH: nat := 100_000

  /** A pause of seven tenths of a second, ten seconds in. */
  function OneBreak(id: int): seq<TimedMove> {
    First(id, 1) + [TimedMove(100 * TENTH, ChangeTo(1, L.Paused))] + [TimedMove(7 * TENTH, ChangeTo(2, L.Active))]
  }

  /** And a second one, twenty seconds in. */
  function TwoBreaks(id: int): seq<TimedMove> {
    OneBreak(id) + [TimedMove(93 * TENTH, ChangeTo(3, L.Paused))] + [TimedMove(7 * TENTH, ChangeTo(4, L.Active))]
  }

  /** When the first minute is up, a worker takes the job, reads the rows, and sends it back. */
  function ShortPauses(id: int, start: int): seq<TimedMove> {
    TwoBreaks(id)
    + [TimedMove(393 * TENTH, OnRelease(Fetch, FirstJob(id, start, 1)))]
    + [TimedMove(0, OnRelease(Read, Took(FirstJob(id, start, 1))))]
    + [TimedMove(0, OnRelease(Finish, Decides(FirstJob(id, start, 1), ComeBack(5, 1))))]
  }

  function OneBreakRows(start: int): seq<L.Exercise> {
    [L.DRAFT, Running(start, 0), Halted(start, 0, start + 100 * TENTH), Running(start, 7 * TENTH)]
  }

  function TwoBreaksRows(start: int): seq<L.Exercise> {
    [L.DRAFT, Running(start, 0), Halted(start, 0, start + 100 * TENTH), Running(start, 7 * TENTH),
     Halted(start, 7 * TENTH, start + 200 * TENTH), Running(start, 14 * TENTH)]
  }

  lemma ThenBreaks(def: Definition, start: int, moves: seq<TimedMove>, s: Scene, dt: nat, length: nat, paused: int,
                   n: nat)
    requires LeadsTo(def, start, moves, s) && 0 < n == |s.versions| && Row(s) == Running(start, paused)
    ensures LeadsTo(def, start,
                    moves + [TimedMove(dt, ChangeTo(n - 1, L.Paused))] + [TimedMove(length, ChangeTo(n, L.Active))],
                    s.(versions := s.versions + [Halted(start, paused, s.now + dt)] + [Running(start, paused + length)],
                       owed := true, now := s.now + dt + length))
  {
    hide LeadsTo;
    var s' := s.(versions := s.versions + [Halted(start, paused, s.now + dt)], now := s.now + dt);
    ThenPauses(def, start, moves, s, dt, paused);
    ThenResumes(def, start, moves + [TimedMove(dt, ChangeTo(n - 1, L.Paused))], s', length, paused, s.now + dt);
  }

  lemma BreaksOnce(def: Definition, start: int)
    ensures var id := Created(def, start).nextInject;
            LeadsTo(def, start, OneBreak(id),
                    Scene(Some(1), OneBreakRows(start), true, start + 107 * TENTH, multiset{FirstJob(id, start, 1)}))
  {
    hide LeadsTo, Created, First, FirstJob;
    var id := Created(def, start).nextInject;
    var v := [L.DRAFT, Running(start, 0)];
    var s := Scene(Some(1), v, true, start, multiset{FirstJob(id, start, 1)});
    assert v + [Halted(start, 0, start + 100 * TENTH)] + [Running(start, 7 * TENTH)] == OneBreakRows(start);
    assert Row(s) == Running(start, 0) && |v| == 2;
    SchedulesFirst(def, start, 1);
    ThenBreaks(def, start, First(id, 1), s, 100 * TENTH, 7 * TENTH, 0, 2);
  }

  lemma BreaksTwice(def: Definition, start: int)
    ensures var id := Created(def, start).nextInject;
            LeadsTo(def, start, TwoBreaks(id),
                    Scene(Some(1), TwoBreaksRows(start), true, start + 207 * TENTH, multiset{FirstJob(id, start, 1)}))
  {
    hide LeadsTo, Created, First, FirstJob;
    var id := Created(def, start).nextInject;
    var v := OneBreakRows(start);
    var s := Scene(Some(1), v, true, start + 107 * TENTH, multiset{FirstJob(id, start, 1)});
    assert v + [Halted(start, 7 * TENTH, start + 200 * TENTH)] + [Running(start, 14 * TENTH)] == TwoBreaksRows(start);
    assert Row(s) == Running(start, 7 * TENTH) && |v| == 4;
    BreaksOnce(def, start);
    ThenBreaks(def, start, OneBreak(id), s, 93 * TENTH, 7 * TENTH, 7 * TENTH, 4);
  }

  lemma ThenComesBack(def: Definition, start: int, moves: seq<TimedMove>, s: Scene, j: ReleaseJob, version: nat)
    requires LeadsTo(def, start, moves, s) && j in s.mine && j.inject == Created(def, start).nextInject
    requires version < |s.versions| && j.phase == Decided(ComeBack(version, j.offset))
    ensures var again := JobFor(s.versions[version], version, j.inject, j.offset, s.now, j.redefers + 1);
            LeadsTo(def, start, moves + [TimedMove(0, OnRelease(Finish, j))],
                    s.(mine := s.mine - multiset{j} + multiset{again}))
  {
    hide Play, Created, FreshRun, Next, Stage, JobFor;
    ComesBack(Play(CreateExercise(def, start), moves), Created(def, start).nextInject, s, 0, j, version);
    OneMore(def, start, moves, 0, OnRelease(Finish, j));
  }

  lemma DecidesToComeBack(def: Definition, start: int, moves: seq<TimedMove>, s: Scene, dt: nat, j: ReleaseJob,
                          version: nat)
    requires LeadsTo(def, start, moves, s) && s.offset == Some(1) && s.mine == multiset{j}
    requires |s.versions| == version + 1 && Row(s) == Running(start, 14 * TENTH) && s.now + dt == start + 600 * TENTH
    requires j.inject == Created(def, start).nextInject && j.phase == Todo && j.at == start + 600 * TENTH
    ensures LeadsTo(def, start, moves + [TimedMove(dt, OnRelease(Fetch, j))] + [TimedMove(0, OnRelease(Read, Took(j)))],
                    s.(now := start + 600 * TENTH, mine := multiset{Decides(j, ComeBack(version, 1))}))
  {
    hide Created, LeadsTo;
    OneJob(j, Took(j));
    OneJob(Took(j), Decides(j, ComeBack(version, 1)));
    var s1 := s.(now := start + 600 * TENTH, mine := multiset{Took(j)});
    ThenFetches(def, start, moves, s, dt, j);
    ThenReads(def, start, moves + [TimedMove(dt, OnRelease(Fetch, j))], s1, 0, Took(j));
  }

  lemma ComesBackAfterBreaks(def: Definition, start: int)
    ensures var id := Created(def, start).nextInject;
            var again := JobFor(Running(start, 14 * TENTH), 5, id, 1, start + 600 * TENTH, 1);
            LeadsTo(def, start, ShortPauses(id, start),
                    Scene(Some(1), TwoBreaksRows(start), true, start + 600 * TENTH, multiset{again}))
  {
    hide Created, LeadsTo, TwoBreaks, FirstJob, JobFor;
    var id := Created(def, start).nextInject;
    var j := FirstJob(id, start, 1);
    var v, back := TwoBreaksRows(start), Decides(j, ComeBack(5, 1));
    var again := JobFor(v[5], 5, id, 1, start + 600 * TENTH, 1);
    FirstJobFields(id, start, 1);
    BreaksTwice(def, start);
    OneJob(back, j);
    assert multiset{} + multiset{again} == multiset{again};
    assert |v| == 6 && v[5] == Running(start, 14 * TENTH);
    var s := Scene(Some(1), v, true, start + 207 * TENTH, multiset{j});
    DecidesToComeBack(def, start, TwoBreaks(id), s, 393 * TENTH, j, 5);
    var moves := TwoBreaks(id) + [TimedMove(393 * TENTH, OnRelease(Fetch, j))]
                 + [TimedMove(0, OnRelease(Read, Took(j)))];
    ThenComesBack(def, start, moves, Scene(Some(1), v, true, start + 600 * TENTH, multiset{back}), back, 5);
  }

  /** A job may come back although no single pause was longer than the epsilon. */
  lemma ShortPausesAddUp(def: Definition, start: int)
    ensures var id := Created(def, start).nextInject;
            var r := Play(CreateExercise(def, start), ShortPauses(id, start));
            && FreshRun(def, start, ShortPauses(id, start))
            && (forall i | 0 <= i < |r.life.versions| - 1 ::
                  r.life.versions[i + 1].accumulatedPause - r.life.versions[i].accumulatedPause < Clock.SECOND)
            && exists j :: j in r.jobs && j.inject == id && j.redefers == 1
  {
    hide Created, ShortPauses, Play, FreshRun, LeadsTo;
    var id := Created(def, start).nextInject;
    var again := JobFor(Running(start, 14 * TENTH), 5, id, 1, start + 600 * TENTH, 1);
    var s := Scene(Some(1), TwoBreaksRows(start), true, start + 600 * TENTH, multiset{again});
    ComesBackAfterBreaks(def, start);
    LeadsToMeans(def, start, ShortPauses(id, start), s);
    assert again in Play(CreateExercise(def, start), ShortPauses(id, start)).jobs;
  }
}
