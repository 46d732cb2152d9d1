/** One exercise run as the services keep it: rows and queues updated in place, each method one
    transaction of the run. */
module RunStore {
  import opened Wrappers
  import opened Scenario
  import opened Progression
  import opened Scheduling
  import Clock
  import ExerciseRecord
  import Keys = TriggerKeys
  import L = Lifecycle

  class Store {
    const def: Definition
    const exercise: ExerciseRecord.Record
    var now: int
    var members: map<int, Member>
    var injects: map<int, Inject>
    var nextInject: int
    var progress: map<int, map<Context, Progress>>
    var cursors: map<Context, Cursor>
    var responses: map<int, map<int, Response>>
    var advances: seq<Advance>
    var jobs: multiset<ReleaseJob>
    var commJobs: multiset<CommJob>
    var deliveries: map<string, Delivery>
    var announced: seq<string>
    var rearmOwed: bool
    var refused: map<int, map<int, Member>>

    function BoardNow(): Board
      reads this
    {
      Board(def, now, members, injects, nextInject, progress, cursors, responses, advances)
    }

    function Model(): Run
      reads this, exercise
    {
      Run(BoardNow(), exercise.Model(), jobs, commJobs, deliveries, announced, rearmOwed, refused)
    }

    // ── Creation ──────────────────────────────────────────────────────────────

    /** Seed one pending inject per node, or per target team of a node, and a cursor per path. */
    constructor (def: Definition, now: int)
      ensures fresh(exercise)
      ensures Model() == CreateExercise(def, now)
    {
      this.def, this.now := def, now;
      exercise := new ExerciseRecord.Record();
      members, progress, responses, advances := map[], map[], map[], [];
      jobs, commJobs, deliveries, announced := multiset{}, multiset{}, map[], [];
      rearmOwed, refused := false, map[];
      var rows := SeededRows(def.injects);
      var paths := SeededCursors(def);
      injects, nextInject := (map id | 0 <= id < |rows| :: rows[id]), |rows|;
      cursors := paths;
    }

    // ── Audiences ─────────────────────────────────────────────────────────────

    /** Insert the missing audience rows of one inject, one context at a time. */
    method SeedResolutionContexts(id: int) returns (contexts: set<Context>)
      requires id in injects
      modifies this`progress
      ensures contexts == Audience(injects[id], members)
      ensures progress == old(progress)[id := SeedRows(Rows(old(BoardNow()), id), contexts)]
    {
      contexts := Audience(injects[id], members);
      var rows := FillAwaiting(if id in progress then progress[id] else map[], contexts);
      progress := progress[id := rows];
    }

    // ── The roster and the pending injects ────────────────────────────────────

    method EnrolMember(user: int, group: Context, role: Role) returns (outcome: Option<Refusal>)
      modifies this`members
      ensures Committed(old(Model()), EditRoster(old(Model()), Enrol(user, group, role)), outcome, Model())
    {
      if exercise.state == L.Completed {
        return Some(Immutable);
      }
      if SomeReleased(BoardNow()) {
        return Some(RosterLocked);
      }
      if !ValidGroup(def, group) {
        return Some(UnknownTeam);
      }
      if user !in members {
        members := members[user := Member(group, role)];
      }
      return None;
    }

    method UpdateMemberGroup(user: int, group: Context) returns (outcome: Option<Refusal>)
      modifies this`members
      ensures Committed(old(Model()), EditRoster(old(Model()), Regroup(user, group)), outcome, Model())
    {
      if exercise.state == L.Completed {
        return Some(Immutable);
      }
      if SomeReleased(BoardNow()) {
        return Some(RosterLocked);
      }
      if user !in members {
        return Some(NotFound);
      }
      if !ValidGroup(def, group) {
        return Some(UnknownTeam);
      }
      members := members[user := members[user].(group := group)];
      return None;
    }

    method RemoveMember(user: int) returns (outcome: Option<Refusal>)
      modifies this`members
      ensures Committed(old(Model()), EditRoster(old(Model()), Unenrol(user)), outcome, Model())
    {
      if exercise.state == L.Completed {
        return Some(Immutable);
      }
      if SomeReleased(BoardNow()) {
        return Some(RosterLocked);
      }
      if user !in members {
        return Some(NotFound);
      }
      members := members - {user};
      return None;
    }

    method CreateInject(node: Option<string>, group: Context, targets: seq<string>) returns (outcome: Option<Refusal>)
      modifies this`injects, this`nextInject
      ensures Committed(old(Model()), AddInject(old(Model()), node, group, targets), outcome, Model())
    {
      if exercise.state == L.Completed {
        return Some(Immutable);
      }
      var scoped := if group.None? && |targets| == 1 then Some(targets[0]) else group;
      injects := injects[nextInject := FreshInject(node, scoped, targets, None, exercise.state != L.Draft)];
      nextInject := nextInject + 1;
      return None;
    }

    method DeletePending(id: int) returns (outcome: Option<Refusal>)
      modifies this`injects, this`progress, this`responses
      ensures Committed(old(Model()), DeleteInject(old(Model()), id), outcome, Model())
    {
      if exercise.state == L.Completed {
        return Some(Immutable);
      }
      if id !in injects {
        return Some(NotFound);
      }
      if exercise.launched && !injects[id].duringRun {
        return Some(Frozen);
      }
      if injects[id].state != Pending {
        return Some(NotPending);
      }
      injects, progress, responses := injects - {id}, progress - {id}, responses - {id};
      return None;
    }

    // ── Releases ──────────────────────────────────────────────────────────────

    /** Gate, freeze the audience, and swap on `pending`; a refusal rolls the audience rows back. */
    method ReleaseRows(id: int, actor: Option<int>, scheduled: bool) returns (outcome: Option<Refusal>)
      modifies this`progress, this`injects
      ensures CommittedBoard(old(BoardNow()), Progression.ReleaseInject(old(BoardNow()), id, actor, scheduled),
                             outcome, BoardNow())
    {
      if id !in injects {
        return Some(NotFound);
      }
      if !ReleaseIsAllowed(BoardNow(), injects[id], scheduled) {
        return Some(NotCurrentBranch);
      }
      var before := progress;
      var contexts := SeedResolutionContexts(id);
      if contexts == {} {
        progress := before;
        return Some(NoAudience);
      }
      if injects[id].state != Pending {
        progress := before;
        return Some(NotPending);
      }
      injects := injects[id := injects[id].(state := Released, releasedAt := Some(now), releasedBy := actor)];
      return None;
    }

    /** Release under the lock of an active exercise, enqueueing what the release triggers. */
    method ReleaseInject(id: int, actor: Option<int>, scheduled: bool) returns (outcome: Option<Refusal>)
      modifies this`progress, this`injects, this`commJobs
      ensures Committed(old(Model()), ReleaseNow(old(Model()), id, actor, scheduled), outcome, Model())
    {
      hide Progression.ReleaseInject, ReleaseNow, ReleaseTriggers;
      ReleasesClosed(Model(), id, actor, scheduled);
      if exercise.state != L.Active {
        return Some(NotActive);
      }
      outcome := ReleaseRows(id, actor, scheduled);
      ReleaseByRows(old(Model()), id, actor, scheduled, outcome, BoardNow());
      if outcome.None? {
        var triggered := QueueTriggers(BoardNow(), id);
        commJobs := commJobs + triggered;
      }
    }

    // ── Responses ─────────────────────────────────────────────────────────────

    /** Resolve one row, and the inject with it if it was the last. */
    method MarkRow(id: int, context: Context, actor: int)
      requires id in injects
      modifies this`progress, this`injects
      ensures BoardNow() == MarkResolved(old(BoardNow()), id, context, actor)
    {
      var rows := (if id in progress then progress[id] else map[])[context := Done(now, actor)];
      progress := progress[id := rows];
      if rows.Keys != {} && forall c | c in rows :: rows[c].Done? {
        injects := injects[id := injects[id].(state := Resolved, resolvedAt := Some(now), resolvedBy := Some(actor))];
      }
    }

    /** Move the context's cursor, unless the inject is off the scenario. */
    method MoveCursor(id: int, context: Context, target: Option<string>)
      requires id in injects
      modifies this`cursors, this`advances
      ensures BoardNow() == AdvanceCursor(old(BoardNow()), id, context, target)
    {
      if injects[id].node.Some? {
        cursors := cursors[context := Cursor(target, Some(id))];
        advances := advances + [Advance(id, context, target)];
      }
    }

    /** Resolve one context's path; true only when this call made the transition. */
    method ResolvePath(id: int, group: Context, actor: int, target: Option<string>) returns (moved: bool)
      requires id in injects
      modifies this`progress, this`injects, this`cursors, this`advances
      ensures BoardNow() == ResolveProgression(old(BoardNow()), id, group, actor, target)
    {
      var context := ResponseContext(injects[id], group);
      var _ := SeedResolutionContexts(id);
      if context !in progress[id] || progress[id][context].Done? {
        return false;
      }
      MarkRow(id, context, actor);
      MoveCursor(id, context, target);
      return true;
    }

    /** One response per user, then its path. */
    method AnswerRows(id: int, user: int, group: Context, selected: Option<string>) returns (outcome: Option<Refusal>)
      modifies this`responses, this`progress, this`injects, this`cursors, this`advances
      ensures CommittedBoard(old(BoardNow()), SubmitResponse(old(BoardNow()), id, user, group, selected),
                             outcome, BoardNow())
    {
      if id !in injects {
        return Some(NotFound);
      }
      if injects[id].state == Pending {
        return Some(NotReleased);
      }
      var answers := if id in responses then responses[id] else map[];
      if user in answers {
        return Some(AlreadyAnswered);
      }
      responses := responses[id := answers[user := Response(group, selected, now)]];
      var _ := ResolvePath(id, group, user, ResponseTarget(def, injects[id].node, selected));
      return None;
    }

    /** A response whose request saw the exercise active, arming what its cursor reached. */
    method SubmitAnswer(version: nat, id: int, user: int, group: Context, selected: Option<string>)
      returns (outcome: Option<Refusal>)
      modifies this`responses, this`progress, this`injects, this`cursors, this`advances, this`jobs, this`refused
      ensures Committed(old(Model()), RespondTo(old(Model()), version, id, user, group, selected), outcome, Model())
    {
      if version >= |exercise.versions| || exercise.versions[version].state != L.Active {
        return Some(StaleRequest);
      }
      hide SubmitResponse, ArmCursorReachedInjects, RespondTo;
      outcome := AnswerRows(id, user, group, selected);
      AnswerByRows(old(Model()), version, id, user, group, selected, outcome, BoardNow());
      if outcome.None? {
        ArmCursorReached(version);
      }
    }

    // ── Scheduling ────────────────────────────────────────────────────────────

    method EnqueueReleases(version: nat, ids: set<int>)
      requires version < |exercise.versions|
      modifies this`jobs, this`refused
      ensures Model() == Enqueue(old(Model()), version, ids)
    {
      jobs := QueueReleases(Model(), version, ids);
      refused := refused - ids;
    }

    method ArmSchedule(version: nat, id: int)
      requires version < |exercise.versions|
      modifies this`jobs, this`refused
      ensures Model() == ArmInjectSchedule(old(Model()), version, id)
    {
      if IsRunning(exercise.versions[version]) && Schedulable(BoardNow(), id) {
        EnqueueReleases(version, {id});
      }
    }

    method ArmCursorReached(version: nat)
      requires version < |exercise.versions|
      modifies this`jobs, this`refused
      ensures Model() == ArmCursorReachedInjects(old(Model()), version)
    {
      if IsRunning(exercise.versions[version]) {
        EnqueueReleases(version, CursorReached(BoardNow()));
      }
    }

    method RescheduleRow(id: int, offset: Option<nat>) returns (outcome: Option<Refusal>)
      modifies this`injects
      ensures CommittedBoard(old(BoardNow()), RescheduleInject(old(BoardNow()), id, offset), outcome, BoardNow())
    {
      if id !in injects {
        return Some(NotFound);
      }
      if injects[id].state != Pending {
        return Some(NotPending);
      }
      injects := injects[id := injects[id].(offset := offset)];
      return None;
    }

    /** Set or clear a pending inject's offset, arming it in the same transaction. */
    method UpdateOffset(id: int, offset: Option<nat>) returns (outcome: Option<Refusal>)
      requires exercise.versions != []
      modifies this`injects, this`jobs, this`refused
      ensures Committed(old(Model()), UpdateSchedule(old(Model()), id, offset), outcome, Model())
    {
      hide RescheduleInject, ArmInjectSchedule, UpdateSchedule;
      EditsClosed(Model(), id, offset);
      if exercise.state == L.Completed {
        return Some(Immutable);
      }
      if exercise.launched && id in injects && !injects[id].duringRun {
        return Some(Frozen);
      }
      outcome := RescheduleRow(id, offset);
      RescheduleByRow(old(Model()), id, offset, outcome, BoardNow());
      if outcome.None? {
        ArmSchedule(|exercise.versions| - 1, id);
      }
    }

    /** Enqueue every pending scheduled inject without a job waiting, then every trigger still owed.
        `order` is the released scenario injects as the query returns them. */
    method Rearm(version: nat, order: seq<int>)
      requires version < |exercise.versions| && ReleasedInOrder(BoardNow(), order)
      modifies this`jobs, this`refused, this`commJobs, this`rearmOwed
      ensures Model() == ScheduleExerciseInjects(old(Model()), version, order)
    {
      if !IsRunning(exercise.versions[version]) {
        return;
      }
      var owed := OwedMessages(Model(), version, order);
      EnqueueReleases(version, Unqueued(Model()));
      commJobs := commJobs + multiset(owed);
      rearmOwed := false;
    }

    method ChangeState(seen: nat, target: L.Phase) returns (conflict: Option<L.Conflict>)
      requires seen < |exercise.versions|
      modifies exercise, this`rearmOwed
      ensures match Scheduling.ChangeState(old(Model()), seen, target)
              case Ok(next) => conflict.None? && Model() == next
              case Err(e) => conflict == Some(e) && Model() == old(Model())
    {
      conflict := exercise.ChangeState(exercise.versions[seen], target, now);
      if conflict.None? && target == L.Active {
        rearmOwed := true;
      }
    }

    // ── The workers ───────────────────────────────────────────────────────────

    /** Re-read the rows and decide: stand down, come back later, or release. */
    method JudgeRelease(id: int) returns (verdict: Verdict)
      requires exercise.versions != []
      ensures verdict == Judge(Model(), id)
    {
      if id !in injects {
        return StandDown;
      }
      var inject := injects[id];
      if inject.state != Pending || exercise.state != L.Active || inject.offset.None? {
        return StandDown;
      }
      var remaining := SecondsUntilDue(exercise.Row(), inject.offset.value, now);
      if remaining > Clock.SECOND {
        return ComeBack(|exercise.versions| - 1, inject.offset.value);
      }
      if !ReleaseIsAllowed(BoardNow(), inject, true) {
        return StandDown;
      }
      return Proceed;
    }

    method ReadRelease(j: ReleaseJob)
      requires exercise.versions != [] && j in jobs && j.phase == Doing
      modifies this`jobs
      ensures Model() == ReadJob(old(Model()), j)
    {
      var verdict := JudgeRelease(j.inject);
      hide Judge;
      jobs := jobs - multiset{j} + multiset{j.(phase := Decided(verdict))};
    }

    /** Put the job back, timed by the row it read. */
    method ComeBackLater(j: ReleaseJob, version: nat, offset: nat)
      requires version < |exercise.versions|
      modifies this`jobs, this`refused
      ensures var again := JobFor(old(exercise.versions)[version], version, j.inject, offset, old(now),
                                  if offset == j.offset then j.redefers + 1 else 0);
              Model() == old(Model()).(jobs := old(jobs) + multiset{again}, refused := old(refused) - {j.inject})
    {
      var redefers := if offset == j.offset then j.redefers + 1 else 0;
      jobs := jobs + multiset{JobFor(exercise.versions[version], version, j.inject, offset, now, redefers)};
      refused := refused - {j.inject};
    }

    /** Try the release; only an empty audience leaves a trace when it is refused. */
    method AttemptRelease(id: int)
      modifies this`refused, this`progress, this`injects, this`commJobs
      ensures Model() == match ReleaseNow(old(Model()), id, None, true)
                         case Ok(next) => next
                         case Err(e) => if e == NoAudience then
                                          old(Model()).(refused := old(refused)[id := old(members)])
                                        else old(Model())
    {
      var outcome := ReleaseInject(id, None, true);
      if outcome == Some(NoAudience) {
        refused := refused[id := members];
      }
    }

    /** Act on what the release worker decided. */
    method FinishRelease(j: ReleaseJob)
      requires j in jobs && j.phase.Decided?
      requires j.phase.verdict.ComeBack? ==> j.phase.verdict.version < |exercise.versions|
      modifies this`jobs, this`refused, this`progress, this`injects, this`commJobs
      ensures Model() == FinishJob(old(Model()), j)
    {
      jobs := jobs - multiset{j};
      match j.phase.verdict
      case StandDown =>
      case ComeBack(version, offset) => ComeBackLater(j, version, offset);
      case Proceed => AttemptRelease(j.inject);
    }

    /** Re-read the rows and decide: drop, come back later, or deliver what the definition says. */
    method JudgeMessage(j: CommJob) returns (verdict: CommVerdict)
      ensures verdict == JudgeComm(Model(), j)
    {
      if exercise.state != L.Active || j.inject !in injects || injects[j.inject].releasedAt.None? {
        return Drop;
      }
      var found := GetNode(def, j.node);
      if found.None? || j.index >= |found.value.triggers| {
        return Drop;
      }
      var trigger := found.value.triggers[j.index];
      var elapsed := Clock.ComputeActiveElapsed(exercise.Row(), injects[j.inject].releasedAt.value, exercise.log, now);
      var remaining := trigger.delaySeconds * Clock.SECOND - elapsed;
      if remaining > Clock.SECOND {
        return Return(remaining, now);
      }
      return CommVerdict.Deliver(trigger);
    }

    method ReadMessage(j: CommJob)
      requires j in commJobs && j.phase == CommPhase.Running
      modifies this`commJobs
      ensures Model() == ReadComm(old(Model()), j)
    {
      var verdict := JudgeMessage(j);
      hide JudgeComm;
      commJobs := commJobs - multiset{j} + multiset{j.(phase := Settled(verdict))};
    }

    /** Insert the communication unless its key is taken; announce only an insert. */
    method Deliver(j: CommJob, trigger: TriggerComm)
      modifies this`deliveries, this`announced
      ensures Model() == DeliverOnce(old(Model()), j, trigger)
    {
      var key := Keys.TriggerKey(j.node, j.index);
      if key !in deliveries {
        deliveries := deliveries[key := Delivery(j.inject, trigger, now)];
        announced := announced + [key];
      }
    }

    method FinishMessage(j: CommJob)
      requires j in commJobs && j.phase.Settled?
      modifies this`commJobs, this`deliveries, this`announced
      ensures Model() == FinishComm(old(Model()), j)
    {
      commJobs := commJobs - multiset{j};
      match j.phase.verdict
      case Drop =>
      case Return(remaining, readAt) =>
        commJobs := commJobs + multiset{j.(at := now + Max(0, remaining), lag := now - readAt, phase := Waiting)};
      case Deliver(trigger) => Deliver(j, trigger);
    }
  }

  /** The outcome the specification names, and its state: a refusal leaves everything as it was. */
  ghost predicate Committed(before: Run, spec: Result<Run, Refusal>, outcome: Option<Refusal>, after: Run) {
    match spec
    case Ok(next) => outcome.None? && after == next
    case Err(e) => outcome == Some(e) && after == before
  }

  ghost predicate CommittedBoard(before: Board, spec: Result<Board, Refusal>, outcome: Option<Refusal>, after: Board) {
    match spec
    case Ok(next) => outcome.None? && after == next
    case Err(e) => outcome == Some(e) && after == before
  }

  /** A release is its board step plus the triggers it enqueues. */
  lemma ReleaseByRows(r: Run, id: int, actor: Option<int>, scheduled: bool, outcome: Option<Refusal>, b: Board)
    requires r.life.row.state == L.Active
    requires CommittedBoard(r.board, Progression.ReleaseInject(r.board, id, actor, scheduled), outcome, b)
    ensures outcome.None? ==> id in b.injects
    ensures Committed(r, ReleaseNow(r, id, actor, scheduled), outcome,
                      if outcome.None? then r.(board := b, commJobs := r.commJobs + ReleaseTriggers(b, id)) else r)
  {
  }

  lemma EditsClosed(r: Run, id: int, offset: Option<nat>)
    requires r.life.versions != []
    ensures r.life.row.state == L.Completed ==> UpdateSchedule(r, id, offset) == Err(Immutable)
    ensures r.life.row.state != L.Completed && ConfigurationFrozen(r, id) ==> UpdateSchedule(r, id, offset) == Err(Frozen)
  {
  }

  lemma ReleasesClosed(r: Run, id: int, actor: Option<int>, scheduled: bool)
    ensures r.life.row.state != L.Active ==> ReleaseNow(r, id, actor, scheduled) == Err(NotActive)
  {
  }

  /** An offset edit is its board step plus what it arms. */
  lemma RescheduleByRow(r: Run, id: int, offset: Option<nat>, outcome: Option<Refusal>, b: Board)
    requires r.life.versions != [] && r.life.row.state != L.Completed && !ConfigurationFrozen(r, id)
    requires CommittedBoard(r.board, RescheduleInject(r.board, id, offset), outcome, b)
    ensures Committed(r, UpdateSchedule(r, id, offset), outcome,
                      if outcome.None? then ArmInjectSchedule(r.(board := b), |r.life.versions| - 1, id) else r)
  {
    hide RescheduleInject, ArmInjectSchedule;
  }

  /** A response is its board step plus what it arms. */
  lemma AnswerByRows(r: Run, version: nat, id: int, user: int, group: Context, selected: Option<string>,
                     outcome: Option<Refusal>, b: Board)
    requires version < |r.life.versions| && r.life.versions[version].state == L.Active
    requires CommittedBoard(r.board, SubmitResponse(r.board, id, user, group, selected), outcome, b)
    ensures Committed(r, RespondTo(r, version, id, user, group, selected), outcome,
                      if outcome.None? then ArmCursorReachedInjects(r.(board := b), version) else r)
  {
    hide SubmitResponse, ArmCursorReachedInjects;
  }

  // ── Loops over plain values ───────────────────────────────────────────────

  /** Insert a row for each context that has none. */
  method FillAwaiting(before: map<Context, Progress>, contexts: set<Context>) returns (rows: map<Context, Progress>)
    ensures rows == SeedRows(before, contexts)
  {
    rows := before;
    var left := contexts;
    while left != {}
      invariant before.Keys <= rows.Keys && rows.Keys + left == before.Keys + contexts
      invariant forall c | c in rows :: rows[c] == if c in before then before[c] else Awaiting
      decreases left
    {
      var c :| c in left;
      left := left - {c};
      if c !in rows {
        rows := rows[c := Awaiting];
      }
    }
  }

  method SeededTeams(node: Node) returns (rows: seq<Inject>)
    ensures rows == SeedTeams(node, 0)
  {
    rows := [];
    assert rows + SeedTeams(node, 0) == SeedTeams(node, 0);
    for k := 0 to |node.targetTeams|
      invariant rows + SeedTeams(node, k) == SeedTeams(node, 0)
    {
      var row := FreshInject(Some(node.id), Some(node.targetTeams[k]), [node.targetTeams[k]], node.releaseAtMinutes, false);
      assert SeedTeams(node, k) == [row] + SeedTeams(node, k + 1);
      assert rows + ([row] + SeedTeams(node, k + 1)) == (rows + [row]) + SeedTeams(node, k + 1);
      rows := rows + [row];
    }
    assert rows + [] == rows;
  }

  method SeededNode(node: Node) returns (rows: seq<Inject>)
    ensures rows == SeedNode(node)
  {
    if node.targetTeams == [] {
      rows := [FreshInject(Some(node.id), None, [], node.releaseAtMinutes, false)];
    } else {
      rows := SeededTeams(node);
    }
  }

  /** The rows of the scenario's injects, node by node and team by team. */
  method SeededRows(nodes: seq<Node>) returns (rows: seq<Inject>)
    ensures rows == SeedInjects(nodes)
  {
    hide SeedNode;
    rows := [];
    assert nodes[0..] == nodes && rows + SeedInjects(nodes) == SeedInjects(nodes);
    for i := 0 to |nodes|
      invariant rows + SeedInjects(nodes[i..]) == SeedInjects(nodes)
    {
      var more := SeededNode(nodes[i]);
      assert nodes[i..][0] == nodes[i] && nodes[i..][1..] == nodes[i + 1..];
      assert rows + (more + SeedInjects(nodes[i + 1..])) == (rows + more) + SeedInjects(nodes[i + 1..]);
      rows := rows + more;
    }
    assert nodes[|nodes|..] == [] && rows + [] == rows;
  }

  /** A cursor at the start for the shared path and for each team. */
  method SeededCursors(def: Definition) returns (cursors: map<Context, Cursor>)
    ensures cursors == SeedCursors(def)
  {
    cursors := map[None := Cursor(Some(def.start), None)];
    for i := 0 to |def.teams|
      invariant cursors.Keys == {None} + set t | t in def.teams[..i] :: Some(t)
      invariant forall c | c in cursors :: cursors[c] == Cursor(Some(def.start), None)
    {
      assert def.teams[..i + 1] == def.teams[..i] + [def.teams[i]];
      if Some(def.teams[i]) !in cursors {
        cursors := cursors[Some(def.teams[i]) := Cursor(Some(def.start), None)];
      }
    }
    assert def.teams[..|def.teams|] == def.teams;
  }

  lemma JobsForOneMore(r: Run, version: nat, ids: set<int>, id: int)
    requires version < |r.life.versions| && id !in ids
    ensures var more := JobsFor(r, version, ids + {id});
            if Schedulable(r.board, id) then
              var j := JobFor(r.life.versions[version], version, id, r.board.injects[id].offset.value, r.board.now, 0);
              j !in JobsFor(r, version, ids) && more == JobsFor(r, version, ids) + {j}
            else more == JobsFor(r, version, ids)
  {
  }

  /** One job per schedulable inject, added to the queue. */
  method QueueReleases(r: Run, version: nat, ids: set<int>) returns (jobs: multiset<ReleaseJob>)
    requires version < |r.life.versions|
    ensures jobs == r.jobs + multiset(JobsFor(r, version, ids))
  {
    jobs := r.jobs;
    var left := ids;
    ghost var done: set<int> := {};
    while exists id :: id in left
      invariant done + left == ids && done !! left
      invariant jobs == r.jobs + multiset(JobsFor(r, version, done))
      decreases left
    {
      var id :| id in left;
      JobsForOneMore(r, version, done, id);
      left := left - {id};
      done := done + {id};
      if Schedulable(r.board, id) {
        var j := JobFor(r.life.versions[version], version, id, r.board.injects[id].offset.value, r.board.now, 0);
        jobs := jobs + multiset{j};
      }
    }
    assert left == {};
    assert done == ids;
  }

  /** One job for each communication the inject's node triggers. */
  method QueueTriggers(b: Board, id: int) returns (jobs: multiset<CommJob>)
    requires id in b.injects
    ensures jobs == ReleaseTriggers(b, id)
  {
    if Ungated(b.injects[id]) || NodeOf(b, id).None? {
      return multiset{};
    }
    var node := NodeOf(b, id).value;
    var queued: seq<CommJob> := [];
    for k := 0 to |node.triggers|
      invariant queued == TriggerJobs(node, id, k, b.now)
    {
      queued := queued + [CommJob(id, node.id, k, b.now + node.triggers[k].delaySeconds * Clock.SECOND, 0, Waiting)];
    }
    return multiset(queued);
  }

  /** Walk the released injects and their triggers, enqueueing what is neither delivered, nor waiting,
      nor considered already. */
  method OwedMessages(r: Run, version: nat, order: seq<int>) returns (queued: seq<CommJob>)
    requires version < |r.life.versions| && forall id | id in order :: id in r.board.injects
    ensures queued == Owed(r, version, order).0
  {
    queued := [];
    var considered := r.deliveries.Keys;
    for i := 0 to |order|
      invariant (queued, considered) == Owed(r, version, order[..i])
    {
      var id := order[i];
      assert order[..i + 1][..i] == order[..i];
      var found := NodeOf(r.board, id);
      if found.Some? {
        var elapsed := Clock.ActiveElapsedSince(r.life.versions[version], r.board.injects[id].releasedAt.GetOr(0),
                                                r.life.log, r.board.now);
        var more;
        more, considered := OwedByOne(r, found.value, id, elapsed, considered);
        queued := queued + more;
      }
    }
    assert order[..|order|] == order;
  }

  method OwedByOne(r: Run, node: Node, id: int, elapsed: int, before: set<string>)
    returns (queued: seq<CommJob>, considered: set<string>)
    ensures (queued, considered) == OwedByInject(r, node, id, elapsed, |node.triggers|, before)
  {
    queued, considered := [], before;
    for k := 0 to |node.triggers|
      invariant (queued, considered) == OwedByInject(r, node, id, elapsed, k, before)
    {
      var key := Keys.TriggerKey(node.id, k);
      if key in considered {
        continue;
      }
      considered := considered + {key};
      if CommWaiting(r, node.id, k) {
        continue;
      }
      var wait := Max(0, node.triggers[k].delaySeconds * Clock.SECOND - elapsed);
      queued := queued + [CommJob(id, node.id, k, r.board.now + wait, 0, Waiting)];
    }
  }
}
