/** When the requests of a run go through, and what their refusals protect. */
module RunOutcomes {
  import opened Wrappers
  import opened Scenario
  import opened Progression
  import opened ProgressionInvariants
  import opened Scheduling
  import opened ScheduleTheorems
  import opened Outcomes
  import L = Lifecycle

  /** Configuration, or an inject added during the run: the former is frozen from launch on. */
  ghost predicate MayEdit(r: Run, id: int) {
    && r.life.row.state != L.Completed && id in r.board.injects && r.board.injects[id].state == Pending
    && (r.life.row.state == L.Draft || r.board.injects[id].duringRun)
  }

  /** A completed exercise takes no roster edit; any other takes those its roster takes. */
  lemma RosterRequest(r: Run, step: Step)
    requires step.Enrol? || step.Regroup? || step.Unenrol?
    ensures EditRoster(r, step).Ok?
            <==> && r.life.row.state != L.Completed && Unlocked(r.board)
                 && (step.Enrol? ==> KnownGroup(r.board.def, step.group))
                 && (step.Regroup? ==> step.user in r.board.members && KnownGroup(r.board.def, step.group))
                 && (step.Unenrol? ==> step.user in r.board.members)
    ensures EditRoster(r, step).Ok? ==>
              && Attempt(r.board, step).Ok?
              && EditRoster(r, step).value == r.(board := Attempt(r.board, step).value)
  {
    hide Unlocked, KnownGroup, EnrolMember, UpdateMemberGroup, RemoveMember;
    match step
    case Enrol(user, group, role) => RosterOutcome(r.board, user, group, role);
    case Regroup(user, group) => RosterOutcome(r.board, user, group, Participant);
    case Unenrol(user) => RosterOutcome(r.board, user, None, Participant);
  }

  /** An inject is added in any state but completed; whether it is configuration or the run's own depends on
      whether the exercise has been launched. */
  lemma AddRequest(r: Run, node: Option<string>, group: Context, targets: seq<string>)
    requires Core(r)
    ensures AddInject(r, node, group, targets).Ok? <==> r.life.row.state != L.Completed
    ensures AddInject(r, node, group, targets).Ok? ==>
              var r' := AddInject(r, node, group, targets).value;
              && r' == r.(board := r'.board) && r.board.nextInject in r'.board.injects
              && r'.board.injects[r.board.nextInject].state == Pending
              && r'.board.injects[r.board.nextInject].duringRun == (r.life.row.state != L.Draft)
              && forall q | q in r.board.injects :: q in r'.board.injects && r'.board.injects[q] == r.board.injects[q]
  {
    CoreInv(r);
    CreateOutcome(r.board, node, group, targets, r.life.row.state != L.Draft);
    hide Core, Inv, CreateInject;
  }

  lemma CoreInv(r: Run)
    requires Core(r)
    ensures Inv(r.board) && r.life.versions != [] && r.life.row.launched == (r.life.row.state != L.Draft)
  {
    CoreRow(r);
  }

  /** An inject is deleted exactly when its schedule could be edited. */
  lemma DeleteRequest(r: Run, id: int)
    requires Core(r)
    ensures DeleteInject(r, id).Ok? <==> MayEdit(r, id)
    ensures DeleteInject(r, id).Ok? ==>
              DeletePendingInject(r.board, id).Ok?
              && DeleteInject(r, id).value == r.(board := DeletePendingInject(r.board, id).value)
  {
    CoreInv(r);
    DeleteOutcome(r.board, id);
    hide Core, Inv, DeletePendingInject;
  }

  /** A release is allowed only while the exercise is active, and then on the board's own terms. */
  lemma ReleaseRequest(r: Run, id: int, actor: Option<int>, scheduled: bool)
    ensures ReleaseNow(r, id, actor, scheduled).Ok?
            <==> && r.life.row.state == L.Active && id in r.board.injects && r.board.injects[id].state == Pending
                 && GateOpen(r.board, r.board.injects[id], scheduled)
                 && exists c :: Eligible(r.board.injects[id], r.board.members, c)
    ensures ReleaseNow(r, id, actor, scheduled).Ok? ==>
              && ReleaseInject(r.board, id, actor, scheduled).Ok?
              && ReleaseNow(r, id, actor, scheduled).value.board == ReleaseInject(r.board, id, actor, scheduled).value
  {
    ReleaseSucceeds(r.board, id, actor, scheduled);
    hide ReleaseInject, GateOpen, Eligible, ReleaseTriggers;
    if ReleaseInject(r.board, id, actor, scheduled).Ok? {
      ReleaseTouches(r.board, id, actor, scheduled);
    }
  }

  /** A response needs its request to have seen the exercise active, a released inject, and a user who has
      not answered it. */
  lemma AnswerRequest(r: Run, version: nat, id: int, user: int, group: Context, selected: Option<string>)
    ensures RespondTo(r, version, id, user, group, selected).Ok?
            <==> && version < |r.life.versions| && r.life.versions[version].state == L.Active
                 && id in r.board.injects && r.board.injects[id].state != Pending && user !in Answers(r.board, id)
    ensures RespondTo(r, version, id, user, group, selected).Ok? ==>
              && SubmitResponse(r.board, id, user, group, selected).Ok?
              && RespondTo(r, version, id, user, group, selected).value.board
                 == SubmitResponse(r.board, id, user, group, selected).value
  {
    ResponseSucceeds(r.board, id, user, group, selected);
    hide SubmitResponse, ArmCursorReachedInjects;
    if RespondTo(r, version, id, user, group, selected).Ok? { ArmingKeepsBoard(r, version, id, user, group, selected); }
  }

  lemma ArmingKeepsBoard(r: Run, version: nat, id: int, user: int, group: Context, selected: Option<string>)
    requires RespondTo(r, version, id, user, group, selected).Ok?
    ensures SubmitResponse(r.board, id, user, group, selected).Ok?
    ensures RespondTo(r, version, id, user, group, selected).value.board
            == SubmitResponse(r.board, id, user, group, selected).value
  {
    hide SubmitResponse;
  }

  /** A worker takes a job up only while it waits and its time has come, and no other job. */
  lemma FetchOutcome(r: Run, j: ReleaseJob, k: ReleaseJob)
    ensures var taken := j in r.jobs && j.phase == Todo && j.at <= r.board.now;
            && FetchJob(r, j) == r.(jobs := FetchJob(r, j).jobs)
            && FetchJob(r, j).jobs[k]
               == r.jobs[k] + (if taken && k == j.(phase := Doing) then 1 else 0) - (if taken && k == j then 1 else 0)
  {
  }

  lemma FetchCommOutcome(r: Run, j: CommJob, k: CommJob)
    ensures var taken := j in r.commJobs && j.phase == Waiting && j.at <= r.board.now;
            && FetchComm(r, j) == r.(commJobs := FetchComm(r, j).commJobs)
            && FetchComm(r, j).commJobs[k]
               == r.commJobs[k] + (if taken && k == j.(phase := Running) then 1 else 0) - (if taken && k == j then 1 else 0)
  {
  }
}
