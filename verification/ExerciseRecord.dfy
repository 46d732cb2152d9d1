/** The exercise row, updated in place by compare-and-swap, with the log committed beside it. */
module ExerciseRecord {
  import opened Lifecycle
  import opened Wrappers

  class Record {
    var state: Phase
    var startedAt: Option<int>
    var endedAt: Option<int>
    var pausedAt: Option<int>
    var accumulatedPause: int
    var launched: bool
    var log: seq<Transition>
    var versions: seq<Exercise>

    function Row(): Exercise
      reads this
    {
      Exercise(state, startedAt, endedAt, pausedAt, accumulatedPause, launched)
    }

    function Model(): Life
      reads this
    {
      Life(Row(), log, versions)
    }

    constructor ()
      ensures Model() == NewLife()
    {
      state, startedAt, endedAt, pausedAt, accumulatedPause, launched := Draft, None, None, None, 0, false;
      log, versions := [], [DRAFT];
    }

    /** Change the state if it is still the one the caller saw, and append the transition. The pacing
        columns are computed from the caller's copy, which may be stale. */
    method ChangeState(seen: Exercise, target: Phase, now: int) returns (conflict: Option<Conflict>)
      modifies this
      ensures match TransitionState(old(Model()), seen, target, now)
              case Ok(next) => conflict.None? && Model() == next
              case Err(e) => conflict == Some(e) && Model() == old(Model())
    {
      var held := seen;
      var launching := seen.state == Draft && target == Active;
      if launching {
        if state != Draft {
          return Some(NotDraft);
        }
        held := Row().(launched := true);
      }
      var previous := held.state;
      if !ValidTransition(previous, target) {
        return Some(InvalidTransition);
      }
      if state != previous {
        return Some(LostRace);
      }
      state := target;
      if target == Active && held.startedAt.None? {
        startedAt := Some(now);
      }
      if target == Paused {
        pausedAt := Some(now);
      }
      if target == Active && held.pausedAt.Some? {
        accumulatedPause := held.accumulatedPause + (now - held.pausedAt.value);
        pausedAt := None;
      }
      if target == Completed {
        endedAt := Some(now);
      }
      launched := launched || launching;
      log := log + [Transition(previous, target, now)];
      versions := versions + [Row()];
      return None;
    }
  }
}
