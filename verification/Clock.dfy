/** Three pause-aware clocks - the pause accumulator, the fold over the transition log, and the
    browser's - against one definition: the number of instants the exercise spent active.
    Instants are whole microseconds. */
module Clock {
  import opened Wrappers
  import opened Lifecycle
  import Sorting

  const SECOND := 1_000_000
  const MINUTE := 60 * SECOND

  // ── The reference ─────────────────────────────────────────────────────────

  /** The state the log puts the exercise in at instant t. */
  function StateAt(log: seq<Transition>, t: int): Phase {
    if log == [] then Draft
    else if log[|log| - 1].at <= t then log[|log| - 1].to
    else StateAt(log[..|log| - 1], t)
  }

  /** How many instants of [a, b) were active. */
  function ActiveTicks(log: seq<Transition>, a: int, b: int): nat
    decreases b - a
  {
    if b <= a then 0
    else ActiveTicks(log, a, b - 1) + if StateAt(log, b - 1) == Active then 1 else 0
  }

  // ── The accumulator ───────────────────────────────────────────────────────

  function EffectiveElapsed(ex: Exercise, now: int): int {
    if ex.startedAt.None? then 0 else now - ex.startedAt.value - ex.accumulatedPause
  }

  // ── The fold over the log ─────────────────────────────────────────────────

  datatype Fold = Fold(paused: int, pauseStarted: Option<int>)

  function FoldStep(f: Fold, tr: Transition, releasedAt: int): Fold {
    if tr.at < releasedAt then f
    else if tr.to == Paused then f.(pauseStarted := Some(tr.at))
    else if tr.from == Paused && f.pauseStarted.Some? then Fold(f.paused + (tr.at - f.pauseStarted.value), None)
    else f
  }

  function FoldPauses(log: seq<Transition>, releasedAt: int): Fold {
    if log == [] then Fold(0, None)
    else FoldStep(FoldPauses(log[..|log| - 1], releasedAt), log[|log| - 1], releasedAt)
  }

  predicate Earlier(a: Transition, b: Transition) {
    a.at <= b.at
  }

  function EndOfClock(ex: Exercise, now: int): int {
    Min(ex.endedAt.GetOr(now), now)
  }

  function ActiveElapsedSince(ex: Exercise, releasedAt: int, transitions: seq<Transition>, now: int): int {
    var end := EndOfClock(ex, now);
    var f := FoldPauses(Sorting.Sort(Earlier, transitions), releasedAt);
    var paused := if f.pauseStarted.Some? then f.paused + (end - f.pauseStarted.value) else f.paused;
    Max(0, end - releasedAt - paused)
  }

  method ComputeActiveElapsed(ex: Exercise, releasedAt: int, transitions: seq<Transition>, now: int)
    returns (elapsed: int)
    ensures elapsed == ActiveElapsedSince(ex, releasedAt, transitions, now)
  {
    var end := Min(ex.endedAt.GetOr(now), now);
    var paused := 0;
    var pauseStarted: Option<int> := None;
    var ordered := Sorting.Sort(Earlier, transitions);
    for i := 0 to |ordered|
      invariant FoldPauses(ordered[..i], releasedAt) == Fold(paused, pauseStarted)
    {
      var transition := ordered[i];
      assert ordered[..i + 1][..i] == ordered[..i];
      if transition.at >= releasedAt {
        if transition.to == Paused {
          pauseStarted := Some(transition.at);
        } else if transition.from == Paused && pauseStarted.Some? {
          paused := paused + (transition.at - pauseStarted.value);
          pauseStarted := None;
        }
      }
    }
    assert ordered[..|ordered|] == ordered;
    if pauseStarted.Some? {
      paused := paused + (end - pauseStarted.value);
    }
    elapsed := Max(0, end - releasedAt - paused);
  }

  // ── The browser's clock ───────────────────────────────────────────────────

  function ExerciseElapsed(ex: Exercise, now: int): Option<int> {
    if ex.startedAt.None? then None
    else
      var reference :=
        if ex.state == Paused && ex.pausedAt.Some? then ex.pausedAt.value
        else if ex.state == Completed && ex.endedAt.Some? then ex.endedAt.value
        else now;
      Some(Max(0, reference - ex.startedAt.value - ex.accumulatedPause))
  }

  // ── Counting instants ─────────────────────────────────────────────────────

  lemma {:induction false} TicksSplit(log: seq<Transition>, a: int, b: int, c: int)
    requires a <= b <= c
    ensures ActiveTicks(log, a, c) == ActiveTicks(log, a, b) + ActiveTicks(log, b, c)
    decreases c - b
  {
    if b < c { TicksSplit(log, a, b, c - 1); }
  }

  lemma {:induction false} TicksConstant(log: seq<Transition>, a: int, b: int, state: Phase)
    requires a <= b && forall t | a <= t < b :: StateAt(log, t) == state
    ensures ActiveTicks(log, a, b) == if state == Active then b - a else 0
    decreases b - a
  {
    if a < b { TicksConstant(log, a, b - 1, state); }
  }

  lemma {:induction false} StateBetween(log: seq<Transition>, i: nat, t: int)
    requires i <= |log|
    requires i > 0 ==> log[i - 1].at <= t
    requires forall j | i <= j < |log| :: t < log[j].at
    ensures StateAt(log, t) == EndState(log[..i])
    decreases |log|
  {
    if i < |log| {
      StateBetween(log[..|log| - 1], i, t);
      assert log[..|log| - 1][..i] == log[..i];
    } else {
      assert log[..i] == log;
    }
  }

  /** Between two consecutive transitions the clock runs or it does not. */
  lemma TicksBetween(log: seq<Transition>, i: nat, a: int, b: int)
    requires i <= |log| && a <= b
    requires i > 0 ==> log[i - 1].at <= a
    requires forall j | i <= j < |log| :: b <= log[j].at
    ensures ActiveTicks(log, a, b) == if EndState(log[..i]) == Active then b - a else 0
  {
    forall t | a <= t < b ensures StateAt(log, t) == EndState(log[..i]) { StateBetween(log, i, t); }
    TicksConstant(log, a, b, EndState(log[..i]));
  }

  lemma {:induction false} TicksIgnoreLaterEntries(log: seq<Transition>, entry: Transition, a: int, b: int)
    requires b <= entry.at
    ensures ActiveTicks(log + [entry], a, b) == ActiveTicks(log, a, b)
    decreases b - a
  {
    if a < b {
      assert (log + [entry])[..|log|] == log;
      TicksIgnoreLaterEntries(log, entry, a, b - 1);
    }
  }

  // ── The fold counts active instants ───────────────────────────────────────

  /** The release happened right after the first k transitions committed, with the exercise active. */
  ghost predicate ReleasedWhileActive(log: seq<Transition>, k: nat, releasedAt: int) {
    && k <= |log|
    && EndState(log[..k]) == Active
    && (forall j | 0 <= j < k :: log[j].at <= releasedAt)
    && (forall j | k <= j < |log| :: releasedAt <= log[j].at)
  }

  /** Entries before the release leave no paused time behind. */
  lemma {:induction false} FoldBeforeRelease(log: seq<Transition>, releasedAt: int, i: nat)
    requires IsHistory(log) && i <= |log| && forall j | 0 <= j < i :: log[j].at <= releasedAt
    ensures var f := FoldPauses(log[..i], releasedAt);
            && f.paused == 0
            && (f.pauseStarted.Some? ==>
                  i > 0 && f.pauseStarted == Some(releasedAt) && log[i - 1].at == releasedAt && log[i - 1].to == Paused)
  {
    if i > 0 {
      FoldBeforeRelease(log, releasedAt, i - 1);
      assert log[..i][..i - 1] == log[..i - 1];
      assert i > 1 ==> log[i - 2].to == log[i - 1].from && log[i - 2].at <= log[i - 1].at;
    }
  }

  /** After i >= k transitions the folded pauses and the active instants together fill the time since
      the release, up to the last transition. */
  lemma {:induction false} FoldAfterRelease(log: seq<Transition>, k: nat, releasedAt: int, i: nat)
    requires IsHistory(log) && ReleasedWhileActive(log, k, releasedAt) && k <= i <= |log|
    ensures var f := FoldPauses(log[..i], releasedAt);
            var t := if i == k then releasedAt else log[i - 1].at;
            && f.pauseStarted == (if EndState(log[..i]) == Paused then Some(t) else None)
            && f.paused + ActiveTicks(log, releasedAt, t) == t - releasedAt
  {
    if i == k {
      FoldBeforeRelease(log, releasedAt, k);
    } else {
      FoldAfterRelease(log, k, releasedAt, i - 1);
      assert log[..i][..i - 1] == log[..i - 1];
      var before := if i - 1 == k then releasedAt else log[i - 2].at;
      assert i - 1 > 0 ==> log[i - 2].at <= before;
      TicksBetween(log, i - 1, before, log[i - 1].at);
      TicksSplit(log, releasedAt, before, log[i - 1].at);
      assert log[i - 1].from == EndState(log[..i - 1]);
    }
  }

  predicate StrictlyOrdered(log: seq<Transition>) {
    forall i, j | 0 <= i < j < |log| :: log[i].at < log[j].at
  }

  /** Reading the log in any order and sorting it recovers it, when no two entries share an instant. */
  lemma SortRecoversLog(log: seq<Transition>, rows: seq<Transition>)
    requires StrictlyOrdered(log) && multiset(rows) == multiset(log)
    ensures Sorting.Sort(Earlier, rows) == log
  {
    Sorting.SortCorrect(Earlier, rows);
    Sorting.SortedIsUnique(Earlier, log, Sorting.Sort(Earlier, rows));
  }

  /** The fold over a log read in its own order counts the active time since the release. */
  lemma OrderedFoldIsActiveTime(life: Life, k: nat, releasedAt: int, rows: seq<Transition>, now: int)
    requires LifeInv(life, now) && Sorting.Sort(Earlier, rows) == life.log
    requires ReleasedWhileActive(life.log, k, releasedAt) && releasedAt <= now
    ensures ActiveElapsedSince(life.row, releasedAt, rows, now) == ActiveTicks(life.log, releasedAt, now)
  {
    var log := life.log;
    var n := |log|;
    FoldAfterRelease(log, k, releasedAt, n);
    assert log[..n] == log && RowMatchesLog(life.row, log);
    var t := if n == k then releasedAt else log[n - 1].at;
    assert log[n - 1].at <= t;
    TicksBetween(log, n, t, now);
    TicksSplit(log, releasedAt, t, now);
  }

  /** For a release made while active, the log fold is the active time since then. */
  lemma FoldIsActiveTime(life: Life, k: nat, releasedAt: int, rows: seq<Transition>, now: int)
    requires LifeInv(life, now) && StrictlyOrdered(life.log) && multiset(rows) == multiset(life.log)
    requires ReleasedWhileActive(life.log, k, releasedAt) && releasedAt <= now
    ensures ActiveElapsedSince(life.row, releasedAt, rows, now) == ActiveTicks(life.log, releasedAt, now)
  {
    SortRecoversLog(life.log, rows);
    OrderedFoldIsActiveTime(life, k, releasedAt, rows, now);
  }

  /** A pause and a resume at one instant, read the other way round. */
  const TIED := [Transition(Draft, Active, 0), Transition(Active, Paused, 10), Transition(Paused, Active, 10)]
  const TIED_ROWS := [TIED[0], TIED[2], TIED[1]]

  lemma FoldOfThree(a: Transition, b: Transition, c: Transition, releasedAt: int)
    ensures FoldPauses([a, b, c], releasedAt)
            == FoldStep(FoldStep(FoldStep(Fold(0, None), a, releasedAt), b, releasedAt), c, releasedAt)
  {
    hide FoldStep;
    assert [a, b, c][..2] == [a, b] && [a, b][..1] == [a] && [a][..0] == [];
    assert FoldPauses([a], releasedAt) == FoldStep(Fold(0, None), a, releasedAt);
    assert FoldPauses([a, b], releasedAt) == FoldStep(FoldPauses([a], releasedAt), b, releasedAt);
  }

  /** Why no two entries may share an instant: the rows arrive in no particular order, and a tied pause
      sorted after its resume never ends. */
  lemma TiedRowsMisfold(row: Exercise)
    requires row.endedAt.None?
    ensures multiset(TIED_ROWS) == multiset(TIED)
    ensures ActiveElapsedSince(row, 5, TIED, 20) == 15 && ActiveElapsedSince(row, 5, TIED_ROWS, 20) == 5
  {
    hide FoldPauses, Sorting.Sort;
    Sorting.SortKeepsSorted(Earlier, TIED);
    Sorting.SortKeepsSorted(Earlier, TIED_ROWS);
    FoldOfThree(TIED[0], TIED[1], TIED[2], 5);
    FoldOfThree(TIED_ROWS[0], TIED_ROWS[1], TIED_ROWS[2], 5);
  }

  /** The tied log is one a run can have, and 15 its active time since a release at instant 5. */
  lemma TiedLogIsActive()
    ensures IsHistory(TIED) && ReleasedWhileActive(TIED, 1, 5) && ActiveTicks(TIED, 5, 20) == 15
  {
    hide ActiveTicks;
    assert TIED[..1] == [TIED[0]] && TIED[..3] == TIED;
    TicksBetween(TIED, 1, 5, 10);
    TicksBetween(TIED, 3, 10, 20);
    TicksSplit(TIED, 5, 10, 20);
  }

  // ── The accumulator counts active instants, while its readings are current ─

  /** The last instant the pause total accounts for. */
  function AccountedUntil(life: Life): int
    requires life.log != []
  {
    life.row.pausedAt.GetOr(life.log[|life.log| - 1].at)
  }

  /** The accumulated pauses and the active instants together fill the time since the start. */
  ghost predicate PacingExact(life: Life) {
    life.log != [] && life.row.startedAt.Some? ==>
      var start, until := life.row.startedAt.value, AccountedUntil(life);
      until - start - life.row.accumulatedPause == ActiveTicks(life.log, start, until)
  }

  /** The caller's pause reading would give the same total as the row's. */
  predicate PacingCurrent(row: Exercise, seen: Exercise) {
    && (seen.pausedAt.Some? <==> row.pausedAt.Some?)
    && (row.pausedAt.Some? && seen.pausedAt.Some? ==>
          seen.accumulatedPause - seen.pausedAt.value == row.accumulatedPause - row.pausedAt.value)
  }

  /** What the time up to one more transition adds. */
  lemma TicksThroughNext(log: seq<Transition>, entry: Transition, start: int)
    requires log != [] && start <= log[|log| - 1].at <= entry.at
    ensures ActiveTicks(log + [entry], start, entry.at)
            == ActiveTicks(log, start, log[|log| - 1].at)
               + if EndState(log) == Active then entry.at - log[|log| - 1].at else 0
  {
    var last := log[|log| - 1].at;
    TicksIgnoreLaterEntries(log, entry, start, last);
    assert (log + [entry])[..|log|] == log;
    TicksBetween(log + [entry], |log|, last, entry.at);
    TicksSplit(log + [entry], start, last, entry.at);
  }

  /** The facts one transition's pacing depends on. */
  lemma TransitionPacing(life: Life, v: nat, target: Phase, now: int, later: int)
    requires LifeInv(life, now) && now <= later && v < |life.versions| && life.log != []
    requires TransitionState(life, life.versions[v], target, later).Ok?
    ensures var next := TransitionState(life, life.versions[v], target, later).value;
            var seen, row, last := life.versions[v], life.row, life.log[|life.log| - 1];
            && next.log == life.log + [Transition(row.state, target, later)]
            && row.startedAt == next.row.startedAt == Some(life.log[0].at) && life.log[0].at <= last.at <= later
            && row.state == last.to && seen.state == row.state
            && AccountedUntil(life) == last.at
            && (row.state == Paused ==> seen.pausedAt.Some? && row.pausedAt.Some?)
            && AccountedUntil(next) == (if row.state == Paused && target == Completed then last.at else later)
            && next.row.accumulatedPause ==
                 if row.state == Paused && target == Active
                 then seen.accumulatedPause + (later - seen.pausedAt.value) else row.accumulatedPause
  {
    var n := |life.log|;
    var next := TransitionState(life, life.versions[v], target, later).value;
    TransitionKeeps(life, v, target, now, later);
    assert life.log[..n] == life.log && RowMatchesLog(life.row, life.log);
    assert next.log[..n + 1] == next.log && RowMatchesLog(next.row, next.log);
    assert RowMatchesLog(life.versions[v], life.log[..v]);
  }

  /** A resume keeps the pause total exact if and only if its caller's pause reading was current;
      every other transition keeps it exact whatever its caller held. */
  lemma PacingStaysExactExactlyWhen(life: Life, v: nat, target: Phase, now: int, later: int)
    requires LifeInv(life, now) && now <= later && PacingExact(life) && v < |life.versions|
    requires TransitionState(life, life.versions[v], target, later).Ok?
    ensures PacingExact(TransitionState(life, life.versions[v], target, later).value)
            <==> (life.row.state == Paused && target == Active ==> PacingCurrent(life.row, life.versions[v]))
  {
    if life.log == [] {
      assert life.log[..0] == life.log && RowMatchesLog(life.row, life.log);
      var next := TransitionState(life, life.versions[v], target, later).value;
      assert next.log == [Transition(Draft, Active, later)];
      assert v == 0;
      assert ActiveTicks(next.log, later, later) == 0;
    } else {
      TransitionPacing(life, v, target, now, later);
      var entry := Transition(life.row.state, target, later);
      TicksThroughNext(life.log, entry, life.log[0].at);
      TicksIgnoreLaterEntries(life.log, entry, life.log[0].at, life.log[|life.log| - 1].at);
    }
  }

  /** While active, the accumulator clock is the active time since the start. */
  lemma AccumulatorIsActiveTime(life: Life, now: int)
    requires LifeInv(life, now) && PacingExact(life) && life.row.state == Active
    ensures EffectiveElapsed(life.row, now) == ActiveTicks(life.log, life.row.startedAt.value, now)
  {
    var n := |life.log|;
    assert life.log[..n] == life.log && RowMatchesLog(life.row, life.log);
    TicksBetween(life.log, n, life.log[n - 1].at, now);
    TicksSplit(life.log, life.row.startedAt.value, life.log[n - 1].at, now);
  }

  /** The pause a completion cut short, which the pause total never absorbs. */
  function LastPauseLeftOut(row: Exercise): int {
    if row.state == Completed && row.pausedAt.Some? && row.endedAt.Some? then row.endedAt.value - row.pausedAt.value
    else 0
  }

  /** The browser's clock is the active time since the start, plus exactly the pause in progress if
      the exercise was completed from paused. */
  lemma ClientClockIsActiveTime(life: Life, now: int)
    requires LifeInv(life, now) && PacingExact(life) && life.log != []
    ensures ExerciseElapsed(life.row, now)
            == Some(ActiveTicks(life.log, life.row.startedAt.value, now) + LastPauseLeftOut(life.row))
    ensures LastPauseLeftOut(life.row) != 0 ==> life.row.state == Completed && life.log[|life.log| - 1].from == Paused
  {
    var n := |life.log|;
    var start := life.row.startedAt.value;
    assert life.log[..n] == life.log && RowMatchesLog(life.row, life.log);
    var last := life.log[n - 1].at;
    TicksBetween(life.log, n, last, now);
    TicksSplit(life.log, start, last, now);
    var until := AccountedUntil(life);
    if until < last {
      assert life.log[..n - 1][n - 2] == life.log[n - 2];
      TicksBetween(life.log, n - 1, until, last);
      TicksSplit(life.log, start, until, last);
    }
  }

  lemma ClocksAgreeAt(life: Life, rows: seq<Transition>, now: int)
    requires LifeInv(life, now) && PacingExact(life) && life.log != []
    requires StrictlyOrdered(life.log) && multiset(rows) == multiset(life.log)
    ensures life.row.startedAt.Some?
    ensures var fold := ActiveElapsedSince(life.row, life.row.startedAt.value, rows, now);
            && fold == ActiveTicks(life.log, life.row.startedAt.value, now)
            && (life.row.state == Active ==> EffectiveElapsed(life.row, now) == fold)
            && ExerciseElapsed(life.row, now) == Some(fold + LastPauseLeftOut(life.row))
  {
    assert life.log[..|life.log|] == life.log && RowMatchesLog(life.row, life.log);
    FoldIsActiveTime(life, 1, life.row.startedAt.value, rows, now);
    if life.row.state == Active { AccumulatorIsActiveTime(life, now); }
    ClientClockIsActiveTime(life, now);
  }

  // ── Whole histories ───────────────────────────────────────────────────────

  /** Every resume read the pause fields as they then stood. */
  ghost predicate ResumesCurrent(start: int, requests: seq<Request>) {
    forall n | 0 <= n < |requests| ::
      var life := Unfold(start, requests[..n]);
      requests[n].target == Active && requests[n].seen < |life.versions| && life.row.state == Paused
      ==> PacingCurrent(life.row, life.versions[requests[n].seen])
  }

  lemma {:induction false} PacingThroughout(start: int, requests: seq<Request>)
    requires ResumesCurrent(start, requests)
    ensures PacingExact(Unfold(start, requests))
  {
    if requests != [] {
      var n := |requests| - 1;
      forall m | 0 <= m < n ensures requests[..n][..m] == requests[..m] && requests[..n][m] == requests[m] {}
      assert ResumesCurrent(start, requests[..n]);
      PacingThroughout(start, requests[..n]);
      HistoryIsTrue(start, requests[..n]);
      var before := Unfold(start, requests[..n]);
      var r := requests[n];
      if r.seen < |before.versions|
         && TransitionState(before, before.versions[r.seen], r.target, Elapse(start, requests)).Ok? {
        PacingStaysExactExactlyWhen(before, r.seen, r.target, Elapse(start, requests[..n]), Elapse(start, requests));
      }
    }
  }

  /** Over any history of requests with current pause readings, the three clocks agree from the start
      on, except that the browser's is ahead by the last pause after completing from paused. */
  lemma ClocksAgree(start: int, requests: seq<Request>, rows: seq<Transition>, now: int)
    requires ResumesCurrent(start, requests) && Elapse(start, requests) <= now
    requires var life := Unfold(start, requests);
             life.log != [] && StrictlyOrdered(life.log) && multiset(rows) == multiset(life.log)
    ensures var life := Unfold(start, requests);
            && life.row.startedAt.Some?
            && var fold := ActiveElapsedSince(life.row, life.row.startedAt.value, rows, now);
               && fold == ActiveTicks(life.log, life.row.startedAt.value, now)
               && (life.row.state == Active ==> EffectiveElapsed(life.row, now) == fold)
               && ExerciseElapsed(life.row, now) == Some(fold + LastPauseLeftOut(life.row))
  {
    HistoryIsTrue(start, requests);
    PacingThroughout(start, requests);
    LifeInvLasts(Unfold(start, requests), Elapse(start, requests), now);
    ClocksAgreeAt(Unfold(start, requests), rows, now);
  }

  lemma UnfoldOneMore(start: int, requests: seq<Request>, r: Request)
    ensures Elapse(start, requests + [r]) == Elapse(start, requests) + r.dt
    ensures Unfold(start, requests + [r]) == Perform(Unfold(start, requests), r, Elapse(start, requests) + r.dt)
  {
    assert (requests + [r])[..|requests|] == requests;
  }

  const PAUSE_AND_RESUME := [Request(0, 0, Active), Request(10, 1, Paused), Request(10, 2, Active), Request(10, 3, Paused)]

  lemma PausedOnce()
    ensures var life := Unfold(0, PAUSE_AND_RESUME[..2]);
            && Elapse(0, PAUSE_AND_RESUME[..2]) == 10
            && life.row == Exercise(Paused, Some(0), None, Some(10), 0, true)
            && |life.log| == 2 && |life.versions| == 3 && life.versions[2] == life.row
    ensures Unfold(0, PAUSE_AND_RESUME[..0]).row.state == Draft && Unfold(0, PAUSE_AND_RESUME[..1]).row.state == Active
  {
    var q := PAUSE_AND_RESUME;
    UnfoldOneMore(0, [], q[0]);
    UnfoldOneMore(0, [q[0]], q[1]);
    assert [] + [q[0]] == [q[0]] == q[..1] && [q[0]] + [q[1]] == q[..2] && q[..0] == [];
  }

  lemma PausedTwice()
    ensures var life := Unfold(0, PAUSE_AND_RESUME);
            && Elapse(0, PAUSE_AND_RESUME) == 30 && life.log != []
            && life.row == Exercise(Paused, Some(0), None, Some(30), 10, true)
            && |life.versions| == 5 && life.versions[2] == Exercise(Paused, Some(0), None, Some(10), 0, true)
    ensures Unfold(0, PAUSE_AND_RESUME[..3]).row.state == Active
  {
    var q := PAUSE_AND_RESUME;
    PausedOnce();
    UnfoldOneMore(0, q[..2], q[2]);
    UnfoldOneMore(0, q[..3], q[3]);
    assert q[..2] + [q[2]] == q[..3] && q[..3] + [q[3]] == q;
    hide Unfold, Elapse;
  }

  lemma OnlyResumeWasCurrent()
    ensures ResumesCurrent(0, PAUSE_AND_RESUME)
  {
    PausedOnce();
    PausedTwice();
    hide Unfold;
  }

  /** A pause, a resume and a second pause between a caller's read and its swap: the stale resume counts
      the active stretch in between as paused. */
  lemma StaleResumeDrifts()
    ensures Unfold(0, PAUSE_AND_RESUME + [Request(10, 2, Active)]).row.state == Active
    ensures !PacingExact(Unfold(0, PAUSE_AND_RESUME + [Request(10, 2, Active)]))
  {
    PausedTwice();
    OnlyResumeWasCurrent();
    HistoryIsTrue(0, PAUSE_AND_RESUME);
    PacingThroughout(0, PAUSE_AND_RESUME);
    UnfoldOneMore(0, PAUSE_AND_RESUME, Request(10, 2, Active));
    PacingStaysExactExactlyWhen(Unfold(0, PAUSE_AND_RESUME), 2, Active, 30, 40);
  }
}
