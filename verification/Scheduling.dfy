/** One exercise run with its durable job queue: every committed transaction as a step. */
module Scheduling {
  import opened Wrappers
  import opened Scenario
  import opened Progression
  import L = Lifecycle
  import Clock
  import Keys = TriggerKeys

  // ── Jobs ──────────────────────────────────────────────────────────────────

  /** What a worker decided after re-reading durable state. `version` names the exercise row it read. */
  datatype Verdict = StandDown | ComeBack(version: nat, offset: nat) | Proceed

  datatype Phase = Todo | Doing | Decided(verdict: Verdict)

  /** enqueuedAt, version, offset and redefers are history: what the job's time was computed from,
      and how often it has come back since with that offset unchanged. */
  datatype ReleaseJob = ReleaseJob(
    inject: int, at: int, phase: Phase, enqueuedAt: int, version: nat, offset: nat, redefers: nat)

  /** readAt is history: when the worker read the rows. */
  datatype CommVerdict = Drop | Return(remaining: int, readAt: int) | Deliver(trigger: TriggerComm)

  datatype CommPhase = Waiting | Running | Settled(verdict: CommVerdict)

  /** lag is history: how long after reading the rows the worker sent the job back, if it did. */
  datatype CommJob = CommJob(inject: int, node: string, index: nat, at: int, lag: int, phase: CommPhase)

  /** One delivered communication, stored under its trigger key. */
  datatype Delivery = Delivery(inject: int, trigger: TriggerComm, sentAt: int)

  /** rearmOwed is history: a start or resume has committed and its re-enqueue has not.
      refused is history: the roster under which an inject's last job found no audience. */
  datatype Run = Run(
    board: Board,
    life: L.Life,
    jobs: multiset<ReleaseJob>,
    commJobs: multiset<CommJob>,
    deliveries: map<string, Delivery>,
    announced: seq<string>,
    rearmOwed: bool,
    refused: map<int, map<int, Member>>)

  function CreateExercise(def: Definition, now: int): Run {
    Run(Created(def, now), L.NewLife(), multiset{}, multiset{}, map[], [], false, map[])
  }

  // ── Enqueueing ────────────────────────────────────────────────────────────

  function SecondsUntilDue(row: L.Exercise, offset: nat, now: int): int {
    offset * Clock.MINUTE - Clock.EffectiveElapsed(row, now)
  }

  function JobFor(row: L.Exercise, version: nat, id: int, offset: nat, now: int, redefers: nat): ReleaseJob {
    ReleaseJob(id, now + Max(0, SecondsUntilDue(row, offset, now)), Todo, now, version, offset, redefers)
  }

  predicate Schedulable(b: Board, id: int) {
    id in b.injects && b.injects[id].state == Pending && b.injects[id].offset.Some?
  }

  function JobsFor(r: Run, version: nat, ids: set<int>): set<ReleaseJob>
    requires version < |r.life.versions|
  {
    set id | id in ids && Schedulable(r.board, id) ::
      JobFor(r.life.versions[version], version, id, r.board.injects[id].offset.value, r.board.now, 0)
  }

  /** Enqueue a release for each of the injects, timed against the exercise row the caller holds. */
  function Enqueue(r: Run, version: nat, ids: set<int>): Run
    requires version < |r.life.versions|
  {
    r.(jobs := r.jobs + multiset(JobsFor(r, version, ids)), refused := r.refused - ids)
  }

  predicate IsRunning(row: L.Exercise) {
    row.state == L.Active && row.startedAt.Some?
  }

  function ArmInjectSchedule(r: Run, version: nat, id: int): Run
    requires version < |r.life.versions|
  {
    if IsRunning(r.life.versions[version]) && Schedulable(r.board, id) then Enqueue(r, version, {id}) else r
  }

  /** The pending scheduled injects some cursor now stands on. */
  function CursorReached(b: Board): set<int> {
    set id | id in b.injects && Schedulable(b, id) && !Ungated(b.injects[id])
             && exists c | c in b.cursors :: b.cursors[c].node == b.injects[id].node
  }

  function ArmCursorReachedInjects(r: Run, version: nat): Run
    requires version < |r.life.versions|
  {
    if IsRunning(r.life.versions[version]) then Enqueue(r, version, CursorReached(r.board)) else r
  }

  predicate HasTodo(r: Run, id: int) {
    exists j | j in r.jobs :: j.inject == id && j.phase == Todo
  }

  /** The pending scheduled injects without a job waiting to run. */
  function Unqueued(r: Run): set<int> {
    set id | id in r.board.injects && Schedulable(r.board, id) && !HasTodo(r, id)
  }

  // ── Triggered communications ──────────────────────────────────────────────

  function NodeOf(b: Board, id: int): Option<Node>
    requires id in b.injects
  {
    GetNode(b.def, b.injects[id].node.GetOr(""))
  }

  /** The first k communications the node triggers, due after the inject's release. */
  function TriggerJobs(node: Node, id: int, k: nat, now: int): seq<CommJob>
    requires k <= |node.triggers|
  {
    if k == 0 then []
    else TriggerJobs(node, id, k - 1, now)
         + [CommJob(id, node.id, k - 1, now + node.triggers[k - 1].delaySeconds * Clock.SECOND, 0, Waiting)]
  }

  function ReleaseTriggers(b: Board, id: int): multiset<CommJob>
    requires id in b.injects
  {
    if Ungated(b.injects[id]) then multiset{}
    else
      match NodeOf(b, id)
      case None => multiset{}
      case Some(node) => multiset(TriggerJobs(node, id, |node.triggers|, b.now))
  }

  predicate CommWaiting(r: Run, node: string, index: nat) {
    exists j | j in r.commJobs :: j.node == node && j.index == index && j.phase == Waiting
  }

  /** The jobs a re-enqueue adds for one released inject's first k triggers, and every trigger key
      considered so far. */
  function OwedByInject(r: Run, node: Node, id: int, elapsed: int, k: nat, considered: set<string>)
    : (seq<CommJob>, set<string>)
    requires k <= |node.triggers|
  {
    if k == 0 then ([], considered)
    else
      var (jobs, seen) := OwedByInject(r, node, id, elapsed, k - 1, considered);
      var key := Keys.TriggerKey(node.id, k - 1);
      if key in seen then (jobs, seen)
      else if CommWaiting(r, node.id, k - 1) then (jobs, seen + {key})
      else
        var wait := Max(0, node.triggers[k - 1].delaySeconds * Clock.SECOND - elapsed);
        (jobs + [CommJob(id, node.id, k - 1, r.board.now + wait, 0, Waiting)], seen + {key})
  }

  /** The jobs a re-enqueue adds, walking the released injects in order. */
  function Owed(r: Run, version: nat, order: seq<int>): (seq<CommJob>, set<string>)
    requires version < |r.life.versions| && forall id | id in order :: id in r.board.injects
  {
    if order == [] then ([], r.deliveries.Keys)
    else
      var id := order[|order| - 1];
      var (jobs, seen) := Owed(r, version, order[..|order| - 1]);
      match NodeOf(r.board, id)
      case None => (jobs, seen)
      case Some(node) =>
        var elapsed := Clock.ActiveElapsedSince(r.life.versions[version], r.board.injects[id].releasedAt.GetOr(0),
                                                r.life.log, r.board.now);
        var (more, seen') := OwedByInject(r, node, id, elapsed, |node.triggers|, seen);
        (jobs + more, seen')
  }

  /** `order` lists the released scenario injects, earliest release first. */
  ghost predicate ReleasedInOrder(b: Board, order: seq<int>) {
    && (forall id | id in order :: id in b.injects && b.injects[id].releasedAt.Some? && b.injects[id].node.Some?)
    && (forall id | id in b.injects && b.injects[id].releasedAt.Some? && b.injects[id].node.Some? :: id in order)
    && (forall i, j | 0 <= i < j < |order| ::
          var a, c := b.injects[order[i]].releasedAt.value, b.injects[order[j]].releasedAt.value;
          a < c || (a == c && order[i] < order[j]))
  }

  /** The re-enqueue after a start or resume, or at process startup: what has no job waiting gets one. */
  ghost function ScheduleExerciseInjects(r: Run, version: nat, order: seq<int>): Run
    requires version < |r.life.versions| && ReleasedInOrder(r.board, order)
  {
    if !IsRunning(r.life.versions[version]) then r
    else
      Enqueue(r, version, Unqueued(r)).(
        commJobs := r.commJobs + multiset(Owed(r, version, order).0),
        rearmOwed := false)
  }

  // ── Requests ──────────────────────────────────────────────────────────────

  function OnBoard(r: Run, outcome: Result<Board, Refusal>): Result<Run, Refusal> {
    match outcome
    case Ok(b) => Ok(r.(board := b))
    case Err(e) => Err(e)
  }

  /** Launch-configured injects are frozen once the exercise has launched. */
  predicate ConfigurationFrozen(r: Run, id: int) {
    r.life.row.launched && id in r.board.injects && !r.board.injects[id].duringRun
  }

  function EditRoster(r: Run, step: Step): Result<Run, Refusal>
    requires step.Enrol? || step.Regroup? || step.Unenrol?
  {
    if r.life.row.state == L.Completed then Err(Immutable) else OnBoard(r, Attempt(r.board, step))
  }

  function AddInject(r: Run, node: Option<string>, group: Context, targets: seq<string>): Result<Run, Refusal> {
    if r.life.row.state == L.Completed then Err(Immutable)
    else Ok(r.(board := CreateInject(r.board, node, group, targets, r.life.row.state != L.Draft)))
  }

  function DeleteInject(r: Run, id: int): Result<Run, Refusal> {
    if r.life.row.state == L.Completed then Err(Immutable)
    else if ConfigurationFrozen(r, id) then Err(Frozen)
    else OnBoard(r, DeletePendingInject(r.board, id))
  }

  /** Set or clear a pending inject's offset, arming it if the exercise is running. */
  function UpdateSchedule(r: Run, id: int, offset: Option<nat>): Result<Run, Refusal>
    requires r.life.versions != []
  {
    if r.life.row.state == L.Completed then Err(Immutable)
    else if ConfigurationFrozen(r, id) then Err(Frozen)
    else
      match RescheduleInject(r.board, id, offset)
      case Err(e) => Err(e)
      case Ok(b) => Ok(ArmInjectSchedule(r.(board := b), |r.life.versions| - 1, id))
  }

  /** Release under the exercise lock, enqueueing what the release triggers. */
  function ReleaseNow(r: Run, id: int, actor: Option<int>, scheduled: bool): Result<Run, Refusal> {
    if r.life.row.state != L.Active then Err(NotActive)
    else
      match ReleaseInject(r.board, id, actor, scheduled)
      case Err(e) => Err(e)
      case Ok(b) => Ok(r.(board := b, commJobs := r.commJobs + ReleaseTriggers(b, id)))
  }

  /** A response whose request saw the exercise active, arming whatever its cursor reaches. */
  function RespondTo(r: Run, version: nat, id: int, user: int, group: Context, selected: Option<string>)
    : Result<Run, Refusal>
  {
    if version >= |r.life.versions| || r.life.versions[version].state != L.Active then Err(StaleRequest)
    else
      match SubmitResponse(r.board, id, user, group, selected)
      case Err(e) => Err(e)
      case Ok(b) => Ok(ArmCursorReachedInjects(r.(board := b), version))
  }

  function ChangeState(r: Run, seen: nat, target: L.Phase): Result<Run, L.Conflict> {
    if seen >= |r.life.versions| then Err(L.LostRace)
    else
      match L.TransitionState(r.life, r.life.versions[seen], target, r.board.now)
      case Err(e) => Err(e)
      case Ok(life) => Ok(r.(life := life, rearmOwed := r.rearmOwed || target == L.Active))
  }

  // ── The release worker ────────────────────────────────────────────────────

  function Replace(jobs: multiset<ReleaseJob>, old_: ReleaseJob, new_: ReleaseJob): multiset<ReleaseJob> {
    jobs - multiset{old_} + multiset{new_}
  }

  function FetchJob(r: Run, j: ReleaseJob): Run {
    if j in r.jobs && j.phase == Todo && j.at <= r.board.now then r.(jobs := Replace(r.jobs, j, j.(phase := Doing)))
    else r
  }

  /** What the worker decides from the rows as they are now. */
  function Judge(r: Run, id: int): Verdict
    requires r.life.versions != []
  {
    if id !in r.board.injects then StandDown
    else
      var inject := r.board.injects[id];
      if inject.state != Pending || r.life.row.state != L.Active || inject.offset.None? then StandDown
      else if SecondsUntilDue(r.life.row, inject.offset.value, r.board.now) > Clock.SECOND then
        ComeBack(|r.life.versions| - 1, inject.offset.value)
      else if !ReleaseIsAllowed(r.board, inject, true) then StandDown
      else Proceed
  }

  function ReadJob(r: Run, j: ReleaseJob): Run
    requires r.life.versions != []
  {
    if j in r.jobs && j.phase == Doing then
      r.(jobs := Replace(r.jobs, j, j.(phase := Decided(Judge(r, j.inject)))))
    else r
  }

  /** Act on the decision, however much has happened since it was taken. */
  function FinishJob(r: Run, j: ReleaseJob): Run {
    if j !in r.jobs || !j.phase.Decided? then r
    else
      var rest := r.(jobs := r.jobs - multiset{j});
      match j.phase.verdict
      case StandDown => rest
      case ComeBack(version, offset) =>
        if version >= |r.life.versions| then rest
        else
          var again := JobFor(r.life.versions[version], version, j.inject, offset, r.board.now,
                              if offset == j.offset then j.redefers + 1 else 0);
          rest.(jobs := rest.jobs + multiset{again}, refused := rest.refused - {j.inject})
      case Proceed =>
        match ReleaseNow(rest, j.inject, None, true)
        case Ok(released) => released
        case Err(e) => if e == NoAudience then rest.(refused := rest.refused[j.inject := r.board.members]) else rest
  }

  /** A job orphaned by a killed worker goes back to the queue. */
  function RetryJob(r: Run, j: ReleaseJob): Run {
    if j in r.jobs then r.(jobs := Replace(r.jobs, j, j.(phase := Todo))) else r
  }

  /** A job whose worker only stalled goes back to the queue as well, and that worker carries on. */
  function RerunJob(r: Run, j: ReleaseJob): Run {
    if j in r.jobs && j.phase != Todo then r.(jobs := r.jobs + multiset{j.(phase := Todo)}) else r
  }

  // ── The communication worker ──────────────────────────────────────────────

  function ReplaceComm(jobs: multiset<CommJob>, old_: CommJob, new_: CommJob): multiset<CommJob> {
    jobs - multiset{old_} + multiset{new_}
  }

  function FetchComm(r: Run, j: CommJob): Run {
    if j in r.commJobs && j.phase == Waiting && j.at <= r.board.now then
      r.(commJobs := ReplaceComm(r.commJobs, j, j.(phase := Running)))
    else r
  }

  function JudgeComm(r: Run, j: CommJob): CommVerdict {
    if r.life.row.state != L.Active || j.inject !in r.board.injects || r.board.injects[j.inject].releasedAt.None? then Drop
    else
      match GetNode(r.board.def, j.node)
      case None => Drop
      case Some(node) =>
        if j.index >= |node.triggers| then Drop
        else
          var trigger := node.triggers[j.index];
          var elapsed := Clock.ActiveElapsedSince(r.life.row, r.board.injects[j.inject].releasedAt.value,
                                                  r.life.log, r.board.now);
          var remaining := trigger.delaySeconds * Clock.SECOND - elapsed;
          if remaining > Clock.SECOND then Return(remaining, r.board.now) else Deliver(trigger)
  }

  function ReadComm(r: Run, j: CommJob): Run {
    if j in r.commJobs && j.phase == Running then
      r.(commJobs := ReplaceComm(r.commJobs, j, j.(phase := Settled(JudgeComm(r, j)))))
    else r
  }

  /** Insert the communication unless its trigger key is already there; announce only an insert. */
  function DeliverOnce(r: Run, j: CommJob, trigger: TriggerComm): Run {
    var key := Keys.TriggerKey(j.node, j.index);
    if key in r.deliveries then r
    else r.(deliveries := r.deliveries[key := Delivery(j.inject, trigger, r.board.now)],
            announced := r.announced + [key])
  }

  function SentBack(j: CommJob, remaining: int, readAt: int, now: int): CommJob {
    j.(at := now + Max(0, remaining), lag := now - readAt, phase := Waiting)
  }

  function FinishComm(r: Run, j: CommJob): Run {
    if j !in r.commJobs || !j.phase.Settled? then r
    else
      var rest := r.(commJobs := r.commJobs - multiset{j});
      match j.phase.verdict
      case Drop => rest
      case Return(remaining, readAt) =>
        rest.(commJobs := rest.commJobs + multiset{SentBack(j, remaining, readAt, r.board.now)})
      case Deliver(trigger) => DeliverOnce(rest, j, trigger)
  }

  function RetryComm(r: Run, j: CommJob): Run {
    if j in r.commJobs then r.(commJobs := ReplaceComm(r.commJobs, j, j.(phase := Waiting))) else r
  }

  function RerunComm(r: Run, j: CommJob): Run {
    if j in r.commJobs && j.phase != Waiting then r.(commJobs := r.commJobs + multiset{j.(phase := Waiting)}) else r
  }

  // ── Runs ──────────────────────────────────────────────────────────────────

  datatype Request =
    | Roster(step: Step)
    | Add(node: Option<string>, group: Context, targets: seq<string>)
    | Remove(inject: int)
    | Schedule(inject: int, offset: Option<nat>)
    | ReleaseByHand(inject: int, actor: int)
    | Answer(version: nat, inject: int, user: int, group: Context, selected: Option<string>)

  datatype Work = Fetch | Read | Finish | Retry | Rerun

  /** One committed transaction: an API request, a lifecycle change, a re-enqueue, or a worker's step. */
  datatype Move =
    | Ask(request: Request)
    | ChangeTo(seen: nat, target: L.Phase)
    | Rearm(version: nat, order: seq<int>)
    | OnRelease(work: Work, job: ReleaseJob)
    | OnMessage(work: Work, comm: CommJob)

  function Settle<E>(r: Run, outcome: Result<Run, E>): Run {
    match outcome
    case Ok(next) => next
    case Err(_) => r
  }

  function Handle(r: Run, request: Request): Result<Run, Refusal>
    requires r.life.versions != []
  {
    match request
    case Roster(step) => if step.Enrol? || step.Regroup? || step.Unenrol? then EditRoster(r, step) else Err(NotFound)
    case Add(node, group, targets) => AddInject(r, node, group, targets)
    case Remove(id) => DeleteInject(r, id)
    case Schedule(id, offset) => UpdateSchedule(r, id, offset)
    case ReleaseByHand(id, actor) => ReleaseNow(r, id, Some(actor), false)
    case Answer(version, id, user, group, selected) => RespondTo(r, version, id, user, group, selected)
  }

  function WorkRelease(r: Run, work: Work, j: ReleaseJob): Run
    requires r.life.versions != []
  {
    match work
    case Fetch => FetchJob(r, j)
    case Read => ReadJob(r, j)
    case Finish => FinishJob(r, j)
    case Retry => RetryJob(r, j)
    case Rerun => RerunJob(r, j)
  }

  function WorkMessage(r: Run, work: Work, j: CommJob): Run {
    match work
    case Fetch => FetchComm(r, j)
    case Read => ReadComm(r, j)
    case Finish => FinishComm(r, j)
    case Retry => RetryComm(r, j)
    case Rerun => RerunComm(r, j)
  }

  ghost function Perform(r: Run, move: Move): Run {
    if r.life.versions == [] then r
    else
      match move
      case Ask(request) => Settle(r, Handle(r, request))
      case ChangeTo(seen, target) => Settle(r, ChangeState(r, seen, target))
      case Rearm(version, order) =>
        if version < |r.life.versions| && ReleasedInOrder(r.board, order) then ScheduleExerciseInjects(r, version, order)
        else r
      case OnRelease(work, j) => WorkRelease(r, work, j)
      case OnMessage(work, j) => WorkMessage(r, work, j)
  }

  function Wait(r: Run, dt: nat): Run {
    r.(board := Tick(r.board, dt))
  }

  datatype TimedMove = TimedMove(dt: nat, move: Move)

  /** The run after a whole sequence of committed transactions. */
  ghost function Play(r: Run, moves: seq<TimedMove>): Run {
    if moves == [] then r
    else Perform(Wait(Play(r, moves[..|moves| - 1]), moves[|moves| - 1].dt), moves[|moves| - 1].move)
  }
}
