/** Exactly which release jobs are queued, and for when: by an offset edit, by a response, by the re-enqueue. */
module QueueOutcomes {
  import opened Wrappers
  import opened Scenario
  import opened Progression
  import opened Scheduling
  import opened ScheduleTheorems
  import opened ReleaseTiming
  import L = Lifecycle
  import Clock

  /** A job for the inject's offset, in minutes of active time as this version of the row counts it, and
      never before now. */
  predicate QueuedBy(r: Run, version: nat, j: ReleaseJob) {
    && version < |r.life.versions| && r.life.versions[version].startedAt.Some?
    && j.inject in r.board.injects && r.board.injects[j.inject].state == Pending
    && r.board.injects[j.inject].offset == Some(j.offset)
    && j.at == Max(r.board.now, r.life.versions[version].startedAt.value + r.life.versions[version].accumulatedPause
                                + j.offset * 60_000_000)
    && j.phase == Todo && j.enqueuedAt == r.board.now && j.version == version && j.redefers == 0
  }

  lemma EnqueuesExactly(r: Run, version: nat, ids: set<int>, j: ReleaseJob)
    requires version < |r.life.versions| && r.life.versions[version].startedAt.Some?
    ensures Enqueue(r, version, ids).jobs[j] == r.jobs[j] + if j.inject in ids && QueuedBy(r, version, j) then 1 else 0
  {
    if j.inject in ids && QueuedBy(r, version, j) {
      assert j == JobFor(r.life.versions[version], version, j.inject, r.board.injects[j.inject].offset.value, r.board.now, 0);
      assert j in JobsFor(r, version, ids);
    }
  }

  /** An offset edit is refused exactly after completion, on frozen launch configuration, and on an inject
      that is gone or no longer pending. It stores the offset, and queues one job for it if the exercise is
      active and the offset not cleared. */
  lemma EditQueues(r: Run, id: int, offset: Option<nat>, j: ReleaseJob)
    requires Core(r)
    ensures r.life.versions != []
    ensures UpdateSchedule(r, id, offset).Ok?
            <==> && r.life.row.state != L.Completed && id in r.board.injects && r.board.injects[id].state == Pending
                 && (r.life.row.state == L.Draft || r.board.injects[id].duringRun)
    ensures UpdateSchedule(r, id, offset).Ok? ==>
              var r' := UpdateSchedule(r, id, offset).value;
              && r'.board == r.board.(injects := r.board.injects[id := r.board.injects[id].(offset := offset)])
              && r'.jobs[j] == r.jobs[j] + if r.life.row.state == L.Active && j.inject == id
                                              && QueuedBy(r', |r.life.versions| - 1, j) then 1 else 0
  {
    CoreRow(r);
    EditStores(r, id, offset);
    if UpdateSchedule(r, id, offset).Ok? {
      var edited := r.(board := RescheduleInject(r.board, id, offset).value);
      if r.life.row.state == L.Active { EnqueuesExactly(edited, |r.life.versions| - 1, {id}, j); }
      hide Core, JobsFor;
    }
  }

  lemma EditStores(r: Run, id: int, offset: Option<nat>)
    requires r.life.versions != [] && r.life.row.launched == (r.life.row.state != L.Draft)
    ensures UpdateSchedule(r, id, offset).Ok?
            <==> && r.life.row.state != L.Completed && id in r.board.injects && r.board.injects[id].state == Pending
                 && (r.life.row.state == L.Draft || r.board.injects[id].duringRun)
  {
    hide ArmInjectSchedule;
  }

  /** Some cursor stands on the inject's scenario node. */
  ghost predicate Reached(b: Board, id: int) {
    && id in b.injects && b.injects[id].node.Some? && b.injects[id].node.value != ""
    && exists c :: c in b.cursors && b.cursors[c].node == b.injects[id].node
  }

  /** A response made against an active version of the row queues one job for each pending, scheduled inject
      some cursor now stands on, and no other. */
  lemma AnswerQueues(r: Run, version: nat, id: int, user: int, group: Context, selected: Option<string>, j: ReleaseJob)
    requires Core(r) && RespondTo(r, version, id, user, group, selected).Ok?
    ensures var r' := RespondTo(r, version, id, user, group, selected).value;
            r'.jobs[j] == r.jobs[j] + if Reached(r'.board, j.inject) && QueuedBy(r', version, j) then 1 else 0
  {
    CoreRow(r);
    hide Core, SubmitResponse, JobsFor, QueuedBy;
    var answered := r.(board := SubmitResponse(r.board, id, user, group, selected).value);
    EnqueuesExactly(answered, version, CursorReached(answered.board), j);
    ReachedExactlyWhen(answered.board, j.inject);
    SameRowsQueue(answered, RespondTo(r, version, id, user, group, selected).value, version, j);
    hide CursorReached, Reached;
  }

  lemma SameRowsQueue(r: Run, r': Run, version: nat, j: ReleaseJob)
    requires r.board == r'.board && r.life == r'.life
    ensures QueuedBy(r, version, j) <==> QueuedBy(r', version, j)
    ensures QueuedBy(r, version, j) ==> Schedulable(r.board, j.inject)
  {
  }

  lemma ReachedExactlyWhen(b: Board, id: int)
    ensures id in CursorReached(b) <==> Reached(b, id) && b.injects[id].state == Pending && b.injects[id].offset.Some?
  {
  }

  /** The re-enqueue queues one job for each pending, scheduled inject that has none waiting, and no other. */
  lemma RearmQueues(r: Run, version: nat, order: seq<int>, j: ReleaseJob)
    requires Core(r) && version < |r.life.versions| && ReleasedInOrder(r.board, order)
    ensures ScheduleExerciseInjects(r, version, order).jobs[j]
            == r.jobs[j] + if r.life.versions[version].state == L.Active && QueuedBy(r, version, j)
                              && (forall k | k in r.jobs && k.inject == j.inject :: k.phase != Todo) then 1 else 0
  {
    CoreRow(r);
    hide Core, JobsFor;
    if IsRunning(r.life.versions[version]) {
      EnqueuesExactly(r, version, Unqueued(r), j);
      UnqueuedExactlyWhen(r, j.inject);
    }
    hide Unqueued, Owed;
  }

  lemma UnqueuedExactlyWhen(r: Run, id: int)
    ensures id in Unqueued(r)
            <==> && id in r.board.injects && r.board.injects[id].state == Pending && r.board.injects[id].offset.Some?
                 && (forall k | k in r.jobs && k.inject == id :: k.phase != Todo)
  {
  }

  /** A job sent back is replaced by one for the offset its worker read, timed like any other by the version
      of the row it read; it counts how often it has come back with that offset. */
  lemma ReturnQueues(r: Run, j: ReleaseJob)
    requires j in r.jobs && j.phase.Decided? && j.phase.verdict.ComeBack? && j.phase.verdict.version < |r.life.versions|
    requires r.life.versions[j.phase.verdict.version].startedAt.Some?
    ensures var version, offset := j.phase.verdict.version, j.phase.verdict.offset;
            var row := r.life.versions[version];
            var at := Max(r.board.now, row.startedAt.value + row.accumulatedPause + offset * 60_000_000);
            var again := ReleaseJob(j.inject, at, Todo, r.board.now, version, offset,
                                    if offset == j.offset then j.redefers + 1 else 0);
            FinishJob(r, j) == r.(jobs := r.jobs - multiset{j} + multiset{again}, refused := r.refused - {j.inject})
  {
  }
}
