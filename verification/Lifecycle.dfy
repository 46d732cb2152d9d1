/** The exercise row, its compare-and-swap transitions, and the log committed with each of them. */
module Lifecycle {
  import opened Wrappers

  datatype Phase = Draft | Active | Paused | Completed

  datatype Exercise = Exercise(
    state: Phase,
    startedAt: Option<int>,
    endedAt: Option<int>,
    pausedAt: Option<int>,
    accumulatedPause: int,
    launched: bool)

  datatype Transition = Transition(from: Phase, to: Phase, at: int)

  /** versions[i] is the row as the i-th transition left it; a stale caller holds one of these. */
  datatype Life = Life(row: Exercise, log: seq<Transition>, versions: seq<Exercise>)

  datatype Conflict = InvalidTransition | LostRace | NotDraft

  const DRAFT := Exercise(Draft, None, None, None, 0, false)

  function NewLife(): Life {
    Life(DRAFT, [], [DRAFT])
  }

  predicate ValidTransition(from: Phase, to: Phase) {
    match from
    case Draft => to == Active
    case Active => to == Paused || to == Completed
    case Paused => to == Active || to == Completed
    case Completed => false
  }

  /** The column values one transition writes, computed from the row its caller holds. */
  function Updated(row: Exercise, held: Exercise, target: Phase, now: int): Exercise {
    var resumes := target == Active && held.pausedAt.Some?;
    row.(state := target,
         startedAt := if target == Active && held.startedAt.None? then Some(now) else row.startedAt,
         pausedAt := if target == Paused then Some(now) else if resumes then None else row.pausedAt,
         accumulatedPause :=
           if resumes then held.accumulatedPause + (now - held.pausedAt.value) else row.accumulatedPause,
         endedAt := if target == Completed then Some(now) else row.endedAt)
  }

  function Append(life: Life, row: Exercise, entry: Transition): Life {
    Life(row, life.log + [entry], life.versions + [row])
  }

  /** One lifecycle request by a caller holding `seen`. Launching re-reads the locked row; every
      other transition trusts the caller's copy and swaps on the state alone. */
  function TransitionState(life: Life, seen: Exercise, target: Phase, now: int): Result<Life, Conflict> {
    var launching := seen.state == Draft && target == Active;
    if launching && life.row.state != Draft then Err(NotDraft)
    else
      var held := if launching then life.row.(launched := true) else seen;
      if !ValidTransition(held.state, target) then Err(InvalidTransition)
      else if life.row.state != held.state then Err(LostRace)
      else
        var row := Updated(life.row, held, target, now).(launched := life.row.launched || launching);
        Ok(Append(life, row, Transition(held.state, target, now)))
  }

  // ── What the log says about the row ───────────────────────────────────────

  /** A chain from draft, each link a valid transition, in time order. */
  ghost predicate IsHistory(log: seq<Transition>) {
    && (log != [] ==> log[0].from == Draft)
    && (forall i | 0 <= i < |log| :: ValidTransition(log[i].from, log[i].to))
    && (forall i | 0 <= i < |log| - 1 :: log[i].to == log[i + 1].from)
    && (forall i, j | 0 <= i < j < |log| :: log[i].at <= log[j].at)
  }

  function EndState(log: seq<Transition>): Phase {
    if log == [] then Draft else log[|log| - 1].to
  }

  /** The instant a pause still open, or cut short by completion, began. */
  function OpenPause(log: seq<Transition>): Option<int> {
    var n := |log|;
    if n >= 1 && log[n - 1].to == Paused then Some(log[n - 1].at)
    else if n >= 2 && log[n - 1].to == Completed && log[n - 2].to == Paused then Some(log[n - 2].at)
    else None
  }

  /** Everything but the pause total is determined by the log. */
  ghost predicate RowMatchesLog(row: Exercise, log: seq<Transition>) {
    && row.state == EndState(log)
    && row.startedAt == (if log == [] then None else Some(log[0].at))
    && row.endedAt == (if row.state == Completed then Some(log[|log| - 1].at) else None)
    && row.pausedAt == OpenPause(log)
    && row.launched == (row.state != Draft)
    && (log == [] ==> row.accumulatedPause == 0)
  }

  ghost predicate LifeInv(life: Life, now: int) {
    && IsHistory(life.log)
    && (life.log != [] ==> life.log[|life.log| - 1].at <= now)
    && |life.versions| == |life.log| + 1
    && life.versions[|life.log|] == life.row
    && (forall i | 0 <= i <= |life.log| :: RowMatchesLog(life.versions[i], life.log[..i]))
  }

  lemma LifeInvLasts(life: Life, now: int, later: int)
    requires LifeInv(life, now) && now <= later
    ensures LifeInv(life, later)
  {
  }

  // ── One request ───────────────────────────────────────────────────────────

  /** A request succeeds exactly when its transition is valid for the state it saw and that is still
      the state; then it appends exactly that transition. A lost race appends nothing. */
  lemma TransitionOutcome(life: Life, seen: Exercise, target: Phase, now: int)
    ensures TransitionState(life, seen, target, now).Ok?
            <==> ValidTransition(seen.state, target) && life.row.state == seen.state
    ensures TransitionState(life, seen, target, now).Ok?
            <==> && life.row.state == seen.state
                 && ((target == Active && (seen.state == Draft || seen.state == Paused))
                     || (target == Paused && seen.state == Active)
                     || (target == Completed && (seen.state == Active || seen.state == Paused)))
    ensures TransitionState(life, seen, target, now).Ok? ==>
              var next := TransitionState(life, seen, target, now).value;
              && next.log == life.log + [Transition(seen.state, target, now)]
              && next.versions == life.versions + [next.row]
              && next.row.state == target
  {
  }

  lemma TransitionKeeps(life: Life, v: nat, target: Phase, now: int, later: int)
    requires LifeInv(life, now) && now <= later
    requires v < |life.versions| && TransitionState(life, life.versions[v], target, later).Ok?
    ensures LifeInv(TransitionState(life, life.versions[v], target, later).value, later)
  {
    var seen := life.versions[v];
    var next := TransitionState(life, seen, target, later).value;
    var n := |life.log|;
    assert RowMatchesLog(seen, life.log[..v]);
    assert life.log[..n] == life.log && RowMatchesLog(life.row, life.log);
    assert next.log[..n + 1] == next.log;
    assert v > 0 ==> life.log[..v][0] == life.log[0];
    assert RowMatchesLog(next.row, next.log);
    forall i | 0 <= i <= n + 1 ensures RowMatchesLog(next.versions[i], next.log[..i]) {
      if i <= n { assert next.log[..i] == life.log[..i]; }
    }
  }

  // ── Whole histories under stale callers ───────────────────────────────────

  /** A request arriving dt later from a caller that read the row after `seen` transitions. */
  datatype Request = Request(dt: nat, seen: nat, target: Phase)

  function Perform(life: Life, r: Request, now: int): Life {
    if r.seen >= |life.versions| then life
    else
      match TransitionState(life, life.versions[r.seen], r.target, now)
      case Ok(next) => next
      case Err(_) => life
  }

  function Elapse(start: int, requests: seq<Request>): int {
    if requests == [] then start
    else Elapse(start, requests[..|requests| - 1]) + requests[|requests| - 1].dt
  }

  function Unfold(start: int, requests: seq<Request>): Life {
    if requests == [] then NewLife()
    else
      var n := |requests| - 1;
      Perform(Unfold(start, requests[..n]), requests[n], Elapse(start, requests))
  }

  lemma {:induction false} HistoryIsTrue(start: int, requests: seq<Request>)
    ensures LifeInv(Unfold(start, requests), Elapse(start, requests))
  {
    if requests != [] {
      var n := |requests| - 1;
      var before := Unfold(start, requests[..n]);
      HistoryIsTrue(start, requests[..n]);
      var r := requests[n];
      if r.seen < |before.versions|
         && TransitionState(before, before.versions[r.seen], r.target, Elapse(start, requests)).Ok? {
        TransitionKeeps(before, r.seen, r.target, Elapse(start, requests[..n]), Elapse(start, requests));
      }
    }
  }

  /** Whatever earlier row each caller held: the log is a chain of valid transitions from draft, it
      ends in the row's state, the start was stamped once by the first transition, and the end exactly
      at completion. */
  lemma LifecycleLogIsHistory(start: int, requests: seq<Request>)
    ensures var life := Unfold(start, requests);
            && IsHistory(life.log) && |life.versions| == |life.log| + 1
            && life.row.state == EndState(life.log)
            && life.row.startedAt == (if life.log == [] then None else Some(life.log[0].at))
            && (life.row.endedAt.Some? <==> life.row.state == Completed)
            && (life.row.state == Completed ==> life.row.endedAt == Some(life.log[|life.log| - 1].at))
            && (forall i | 0 < i <= |life.log| :: life.versions[i].startedAt == life.row.startedAt)
            && (forall i | 0 <= i < |life.log| - 1 :: life.log[i].to != Completed)
  {
    var life := Unfold(start, requests);
    HistoryIsTrue(start, requests);
    assert life.log[..|life.log|] == life.log;
    forall i | 0 < i <= |life.log| ensures life.versions[i].startedAt == life.row.startedAt {
      assert RowMatchesLog(life.versions[i], life.log[..i]);
      assert life.log[..i][0] == life.log[0];
    }
  }
}
