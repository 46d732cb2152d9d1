/** A release refused because nobody was there to receive it: which steps leave it refused, and which give
    it a job again. */
module Refusals {
  import opened Wrappers
  import opened Scenario
  import opened Progression
  import opened ProgressionInvariants
  import opened Scheduling
  import opened ScheduleTheorems

  /** Enrolling, regrouping or removing members touches the roster and nothing else: a refused release
      stays refused, and no job is added, whoever has joined. */
  lemma RosterLeavesQueue(r: Run, step: Step)
    requires (step.Enrol? || step.Regroup? || step.Unenrol?) && EditRoster(r, step).Ok?
    ensures var r' := EditRoster(r, step).value; r' == r.(board := r.board.(members := r'.board.members))
  {
  }

  /** The moves that take a refused release up again: an edit of its offset while the exercise runs, a
      response of a running exercise that leaves a cursor on its node, a re-enqueue that finds nothing
      waiting for it, and a job of it coming back. */
  ghost predicate TakesUpAgain(r: Run, move: Move, id: int)
    requires r.life.versions != []
  {
    match move
    case Ask(Schedule(q, offset)) =>
      q == id && offset.Some? && UpdateSchedule(r, q, offset).Ok? && IsRunning(r.life.versions[|r.life.versions| - 1])
    case Ask(Answer(version, q, user, group, selected)) =>
      && RespondTo(r, version, q, user, group, selected).Ok? && IsRunning(r.life.versions[version])
      && id in CursorReached(SubmitResponse(r.board, q, user, group, selected).value)
    case Rearm(version, order) =>
      && version < |r.life.versions| && ReleasedInOrder(r.board, order) && IsRunning(r.life.versions[version])
      && id in Unqueued(r)
    case OnRelease(Finish, j) =>
      && j.inject == id && j in r.jobs && j.phase.Decided? && j.phase.verdict.ComeBack?
      && j.phase.verdict.version < |r.life.versions|
    case _ => false
  }

  lemma EnqueueLifts(r: Run, version: nat, ids: set<int>, id: int)
    requires version < |r.life.versions| && id in r.refused && (id in ids ==> Schedulable(r.board, id))
    ensures id in Enqueue(r, version, ids).refused <==> id !in ids
    ensures id in ids ==> Covered(Enqueue(r, version, ids).jobs, id)
  {
    if id in ids { EnqueueCovers(r, version, ids, id); }
  }

  lemma ScheduleLifts(r: Run, q: int, offset: Option<nat>, id: int)
    requires r.life.versions != [] && id in r.refused && UpdateSchedule(r, q, offset).Ok?
    ensures var r' := UpdateSchedule(r, q, offset).value;
            && (id in r'.refused <==> !TakesUpAgain(r, Ask(Schedule(q, offset)), id))
            && (id !in r'.refused ==> Covered(r'.jobs, id))
  {
    var edited := r.(board := RescheduleInject(r.board, q, offset).value);
    if Schedulable(edited.board, q) { EnqueueLifts(edited, |r.life.versions| - 1, {q}, id); }
    hide Covered, Enqueue;
  }

  lemma AnswerLifts(r: Run, version: nat, q: int, user: int, group: Context, selected: Option<string>, id: int)
    requires r.life.versions != [] && id in r.refused && RespondTo(r, version, q, user, group, selected).Ok?
    ensures var r' := RespondTo(r, version, q, user, group, selected).value;
            && (id in r'.refused <==> !TakesUpAgain(r, Ask(Answer(version, q, user, group, selected)), id))
            && (id !in r'.refused ==> Covered(r'.jobs, id))
  {
    hide Covered, Enqueue, SubmitResponse;
    var answered := r.(board := SubmitResponse(r.board, q, user, group, selected).value);
    EnqueueLifts(answered, version, CursorReached(answered.board), id);
    hide CursorReached;
  }

  lemma RequestLifts(r: Run, request: Request, id: int)
    requires r.life.versions != [] && id in r.refused && Handle(r, request).Ok?
    ensures var r' := Handle(r, request).value;
            && (id in r'.refused <==> !TakesUpAgain(r, Ask(request), id))
            && (id !in r'.refused ==> Covered(r'.jobs, id))
  {
    hide Covered, UpdateSchedule, RespondTo;
    match request
    case Schedule(q, offset) => ScheduleLifts(r, q, offset, id);
    case Answer(version, q, user, group, selected) => AnswerLifts(r, version, q, user, group, selected, id);
    case ReleaseByHand(q, actor) => ReleaseIsABoardStep(r, q, Some(actor), false);
    case _ => EditIsABoardStep(r, request);
  }

  lemma RearmLifts(r: Run, version: nat, order: seq<int>, id: int)
    requires r.life.versions != [] && id in r.refused && version < |r.life.versions| && ReleasedInOrder(r.board, order)
    ensures var r' := ScheduleExerciseInjects(r, version, order);
            && (id in r'.refused <==> !TakesUpAgain(r, Rearm(version, order), id))
            && (id !in r'.refused ==> Covered(r'.jobs, id))
  {
    if IsRunning(r.life.versions[version]) { EnqueueLifts(r, version, Unqueued(r), id); }
    hide Covered, Enqueue, Unqueued;
  }

  lemma FinishLifts(r: Run, j: ReleaseJob, id: int)
    requires r.life.versions != [] && id in r.refused
    ensures id in FinishJob(r, j).refused <==> !TakesUpAgain(r, OnRelease(Finish, j), id)
    ensures id !in FinishJob(r, j).refused ==> Covered(FinishJob(r, j).jobs, id)
  {
    if FinishReleases(r, j) {
      FinishIsARelease(r, j);
    } else if TakesUpAgain(r, OnRelease(Finish, j), id) {
      var v := j.phase.verdict;
      var again := JobFor(r.life.versions[v.version], v.version, id, v.offset, r.board.now,
                          if v.offset == j.offset then j.redefers + 1 else 0);
      assert again in FinishJob(r, j).jobs && ActsFor(again, id);
    }
  }

  /** Exactly those moves lift a refusal, and each leaves the release a job that will act. In particular
      no roster edit does. */
  lemma RefusalLiftedExactlyWhen(r: Run, move: Move, id: int)
    requires r.life.versions != [] && id in r.refused
    ensures id !in Perform(r, move).refused <==> TakesUpAgain(r, move, id)
    ensures id !in Perform(r, move).refused ==> Covered(Perform(r, move).jobs, id)
  {
    match move
    case Ask(request) => if Handle(r, request).Ok? { RequestLifts(r, request, id); }
    case Rearm(version, order) =>
      if version < |r.life.versions| && ReleasedInOrder(r.board, order) { RearmLifts(r, version, order, id); }
    case OnRelease(work, j) => if work == Finish { FinishLifts(r, j, id); } else { WorkInPlace(r, work, j); }
    case OnMessage(work, j) => MessageLeavesBoard(r, work, j);
    case ChangeTo(_, _) =>
  }
}
