/** The progression engine's guarantees, for whole runs with workers, retries and stale requests. */
module RunTheorems {
  import opened Scenario
  import opened Progression
  import opened ProgressionInvariants
  import opened Scheduling
  import Provenance
  import ScheduleTheorems

  /** Whoever released it - a facilitator, a worker, a retried job - every released scenario inject of a
      run sits at the end of a chosen path no longer than the graph allows. */
  lemma EveryReleaseWasChosen(def: Definition, start: int, moves: seq<TimedMove>, id: int)
    requires Valid(def)
    requires var b := Play(CreateExercise(def, start), moves).board; Opened(b, id) && Provenance.OnScenario(b, id)
    ensures var b := Play(CreateExercise(def, start), moves).board;
            exists path :: Provenance.HasPath(b, id, path) && |path| < |def.injects|
  {
    ScheduleTheorems.RunIsAProgression(def, start, moves);
    var steps :| Play(CreateExercise(def, start), moves).board == Execute(Created(def, start), steps);
    Provenance.BranchProvenance(def, start, steps, id);
  }

  /** In every state of a run the rows of an opened inject are the groups of the participants it is meant
      for, under today's roster. */
  lemma EveryAudienceIsCurrent(def: Definition, start: int, moves: seq<TimedMove>, id: int)
    requires Opened(Play(CreateExercise(def, start), moves).board, id)
    ensures var b := Play(CreateExercise(def, start), moves).board;
            && Rows(b, id).Keys == Audience(b.injects[id], b.members) != {}
            && forall c :: c in Rows(b, id) <==> Eligible(b.injects[id], b.members, c)
  {
    ScheduleTheorems.RunIsAProgression(def, start, moves);
    var steps :| Play(CreateExercise(def, start), moves).board == Execute(Created(def, start), steps);
    Provenance.AudienceIsImmutable(def, start, steps, [], id);
  }
}
