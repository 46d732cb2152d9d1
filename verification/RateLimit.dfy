/** Sliding-window rate limiting over one shared table of hits. Instants are whole microseconds. */
module RateLimit {
  import opened Filtering
  import opened Wrappers

  const SECOND := 1_000_000

  datatype Hit = Hit(scope: string, key: string, at: int)

  datatype Limits = Limits(scope: string, maxAttempts: int, windowSeconds: nat)

  // ── The table ─────────────────────────────────────────────────────────────

  function Matching(scope: string, key: string, cutoff: int): Hit -> bool {
    (h: Hit) => h.scope == scope && h.key == key && h.at > cutoff
  }

  function NotOf(scope: string, key: string): Hit -> bool {
    (h: Hit) => h.scope != scope || h.key != key
  }

  function Outside(scope: string): Hit -> bool {
    (h: Hit) => h.scope != scope
  }

  function NoOlder(cutoff: int): Hit -> bool {
    (h: Hit) => h.at >= cutoff
  }

  /** The rows one check counts. */
  function Counted(hits: seq<Hit>, scope: string, key: string, cutoff: int): seq<Hit> {
    Where(Matching(scope, key, cutoff), hits)
  }

  function Oldest(hits: seq<Hit>): Option<int> {
    if hits == [] then None
    else
      match Oldest(hits[..|hits| - 1])
      case None => Some(hits[|hits| - 1].at)
      case Some(at) => Some(Min(at, hits[|hits| - 1].at))
  }

  function Cutoff(limits: Limits, moment: int): int {
    moment - limits.windowSeconds * SECOND
  }

  /** What is left of the window for the oldest counted hit. */
  function Remaining(limits: Limits, oldest: int, moment: int): int {
    limits.windowSeconds * SECOND - (moment - oldest)
  }

  /** Whether the caller is limited, and the retry hint in whole seconds. */
  function Check(limits: Limits, hits: seq<Hit>, key: string, moment: int): (bool, int) {
    var counted := Counted(hits, limits.scope, key, Cutoff(limits, moment));
    if |counted| < limits.maxAttempts || Oldest(counted).None? then (false, 0)
    else (true, Max(1, Remaining(limits, Oldest(counted).value, moment) / SECOND))
  }

  function Forget(hits: seq<Hit>, scope: string, key: string): seq<Hit> {
    Where(NotOf(scope, key), hits)
  }

  function Clear(hits: seq<Hit>, scope: string): seq<Hit> {
    Where(Outside(scope), hits)
  }

  function Since(hits: seq<Hit>, cutoff: int): seq<Hit> {
    Where(NoOlder(cutoff), hits)
  }

  function Widest(limiters: seq<Limits>): nat {
    if limiters == [] then 0
    else Max(Widest(limiters[..|limiters| - 1]), limiters[|limiters| - 1].windowSeconds)
  }

  // ── Runs ──────────────────────────────────────────────────────────────────

  /** unswept is history: the table as it would be had no sweep ever run. swept is the latest sweep
      cutoff. */
  datatype Store = Store(
    now: int,
    limiters: seq<Limits>,
    hits: seq<Hit>,
    unswept: seq<Hit>,
    swept: int)

  datatype Step =
    | Attempt(limiter: nat, key: string)
    | Reset(limiter: nat, key: string)
    | ClearAll(limiter: nat)
    | Sweep
    | Reconfigure(limiter: nat, maxAttempts: int, windowSeconds: nat)

  datatype Timed = Timed(dt: nat, step: Step)

  /** One attempt: check, and count it only if it was let through. */
  function AttemptOnce(s: Store, limits: Limits, key: string): Store {
    if Check(limits, s.hits, key, s.now).0 then s
    else
      var hit := Hit(limits.scope, key, s.now);
      s.(hits := s.hits + [hit], unswept := s.unswept + [hit])
  }

  function SweepOnce(s: Store): Store {
    var cutoff := s.now - Widest(s.limiters) * SECOND;
    s.(hits := Since(s.hits, cutoff), swept := Max(s.swept, cutoff))
  }

  function Apply(s: Store, step: Step): Store {
    match step
    case Attempt(i, key) => if i < |s.limiters| then AttemptOnce(s, s.limiters[i], key) else s
    case Reset(i, key) =>
      if i < |s.limiters| then
        s.(hits := Forget(s.hits, s.limiters[i].scope, key), unswept := Forget(s.unswept, s.limiters[i].scope, key))
      else s
    case ClearAll(i) =>
      if i < |s.limiters| then
        s.(hits := Clear(s.hits, s.limiters[i].scope), unswept := Clear(s.unswept, s.limiters[i].scope))
      else s
    case Sweep => SweepOnce(s)
    case Reconfigure(i, max, window) =>
      if i < |s.limiters| then s.(limiters := s.limiters[i := Limits(s.limiters[i].scope, max, window)]) else s
  }

  function Tick(s: Store, dt: nat): Store {
    s.(now := s.now + dt)
  }

  function Run(s: Store, steps: seq<Timed>): Store {
    if steps == [] then s
    else Apply(Tick(Run(s, steps[..|steps| - 1]), steps[|steps| - 1].dt), steps[|steps| - 1].step)
  }

  /** An empty table; nothing has been swept before the epoch `now` minus any window. */
  function Fresh(limiters: seq<Limits>, now: int): Store {
    Store(now, limiters, [], [], now - Widest(limiters) * SECOND)
  }

  // ── Sweeping is invisible ─────────────────────────────────────────────────

  ghost predicate TwinInv(s: Store) {
    && s.hits == Since(s.unswept, s.swept)
    && s.swept <= s.now
    && (forall h | h in s.unswept :: h.at <= s.now)
  }

  /** A check whose window does not reach back past the last sweep sees what it would have seen. */
  lemma SweptCheckAgrees(s: Store, limits: Limits, key: string)
    requires TwinInv(s) && s.swept <= Cutoff(limits, s.now) + 1
    ensures Counted(s.hits, limits.scope, key, Cutoff(limits, s.now))
            == Counted(s.unswept, limits.scope, key, Cutoff(limits, s.now))
    ensures Check(limits, s.hits, key, s.now) == Check(limits, s.unswept, key, s.now)
  {
    var counts := Matching(limits.scope, key, Cutoff(limits, s.now));
    WhereWhere(counts, NoOlder(s.swept), counts, s.unswept);
  }

  lemma DeletionKeepsTwin(s: Store, p: Hit -> bool)
    requires TwinInv(s)
    ensures Where(p, s.hits) == Since(Where(p, s.unswept), s.swept)
  {
    var both := (h: Hit) => p(h) && NoOlder(s.swept)(h);
    WhereWhere(p, NoOlder(s.swept), both, s.unswept);
    WhereWhere(NoOlder(s.swept), p, both, s.unswept);
  }

  lemma SweepKeepsTwin(s: Store)
    requires TwinInv(s)
    ensures TwinInv(SweepOnce(s))
  {
    var cutoff := s.now - Widest(s.limiters) * SECOND;
    var later := Max(s.swept, cutoff);
    WhereWhere(NoOlder(cutoff), NoOlder(s.swept), NoOlder(later), s.unswept);
    assert Since(s.hits, cutoff) == Since(s.unswept, later);
  }

  lemma ApplyKeepsTwin(s: Store, step: Step)
    requires TwinInv(s)
    ensures TwinInv(Apply(s, step))
  {
    match step
    case Attempt(i, key) =>
      if i < |s.limiters| {
        WhereAppend(NoOlder(s.swept), s.unswept, Hit(s.limiters[i].scope, key, s.now));
      }
    case Reset(i, key) =>
      if i < |s.limiters| {
        var scope := s.limiters[i].scope;
        DeletionKeepsTwin(s, NotOf(scope, key));
        WhereKeeps(NotOf(scope, key), s.unswept);
      }
    case ClearAll(i) =>
      if i < |s.limiters| {
        var scope := s.limiters[i].scope;
        DeletionKeepsTwin(s, Outside(scope));
        WhereKeeps(Outside(scope), s.unswept);
      }
    case Sweep => SweepKeepsTwin(s);
    case Reconfigure(_, _, _) =>
  }

  lemma {:induction false} RunKeepsTwin(s: Store, steps: seq<Timed>)
    requires TwinInv(s)
    ensures TwinInv(Run(s, steps)) && s.now <= Run(s, steps).now
  {
    if steps != [] {
      var n := |steps| - 1;
      RunKeepsTwin(s, steps[..n]);
      ApplyKeepsTwin(Tick(Run(s, steps[..n]), steps[n].dt), steps[n].step);
    }
  }

  predicate Fixed(steps: seq<Timed>) {
    forall n | 0 <= n < |steps| :: !steps[n].step.Reconfigure?
  }

  lemma {:induction false} WidestIsWidest(limiters: seq<Limits>, i: nat)
    requires i < |limiters|
    ensures limiters[i].windowSeconds <= Widest(limiters)
  {
    if i < |limiters| - 1 { WidestIsWidest(limiters[..|limiters| - 1], i); }
  }

  lemma {:induction false} FixedRun(limiters: seq<Limits>, now: int, steps: seq<Timed>)
    requires Fixed(steps)
    ensures var s := Run(Fresh(limiters, now), steps);
            && TwinInv(s) && s.limiters == limiters && s.swept <= s.now - Widest(limiters) * SECOND
  {
    if steps != [] {
      var n := |steps| - 1;
      FixedRun(limiters, now, steps[..n]);
      ApplyKeepsTwin(Tick(Run(Fresh(limiters, now), steps[..n]), steps[n].dt), steps[n].step);
    }
  }

  /** With fixed limits, whenever and however often the sweep has run, every check answers as if it
      never had. */
  lemma SweepIsInvisible(limiters: seq<Limits>, now: int, steps: seq<Timed>, i: nat, key: string)
    requires Fixed(steps) && i < |limiters|
    ensures var s := Run(Fresh(limiters, now), steps);
            Check(limiters[i], s.hits, key, s.now) == Check(limiters[i], s.unswept, key, s.now)
  {
    FixedRun(limiters, now, steps);
    WidestIsWidest(limiters, i);
    SweptCheckAgrees(Run(Fresh(limiters, now), steps), limiters[i], key);
  }

  /** What a check counts is the same in the swept table. */
  ghost predicate SweepHidesNothing(limits: Limits, key: string, swept: int, now: int, hits: seq<Hit>) {
    Counted(Since(hits, swept), limits.scope, key, Cutoff(limits, now))
    == Counted(hits, limits.scope, key, Cutoff(limits, now))
  }

  /** After a reconfiguration, a check counts the same in every swept table exactly when its window does
      not reach back past the sweep; a widened one can miss hits. */
  lemma WidenedWindowMayForget(limits: Limits, key: string, swept: int, now: int)
    ensures swept <= Cutoff(limits, now) + 1 <==> forall hits :: SweepHidesNothing(limits, key, swept, now, hits)
  {
    var counts := Matching(limits.scope, key, Cutoff(limits, now));
    if swept <= Cutoff(limits, now) + 1 {
      forall hits ensures SweepHidesNothing(limits, key, swept, now, hits) {
        WhereWhere(counts, NoOlder(swept), counts, hits);
      }
    } else {
      var hits := [Hit(limits.scope, key, swept - 1)];
      WhereAppend(NoOlder(swept), [], hits[0]);
      WhereAppend(counts, [], hits[0]);
      assert [] + [hits[0]] == hits;
      assert !SweepHidesNothing(limits, key, swept, now, hits);
    }
  }

  // ── The window bound ──────────────────────────────────────────────────────

  function Inside(limits: Limits, key: string, lo: int): Hit -> bool {
    (h: Hit) => h.scope == limits.scope && h.key == key && lo < h.at <= lo + limits.windowSeconds * SECOND
  }

  /** The counted attempts of one key within (lo, lo + window]. */
  function InWindow(hits: seq<Hit>, limits: Limits, key: string, lo: int): seq<Hit> {
    Where(Inside(limits, key, lo), hits)
  }

  /** At least one attempt always goes through: an empty history never limits. */
  function Allowed(limits: Limits): int {
    Max(1, limits.maxAttempts)
  }

  ghost predicate Bounded(hits: seq<Hit>, limits: Limits) {
    forall key, lo :: |InWindow(hits, limits, key, lo)| <= Allowed(limits)
  }

  predicate DistinctScopes(limiters: seq<Limits>) {
    forall i, j | 0 <= i < j < |limiters| :: limiters[i].scope != limiters[j].scope
  }

  lemma RecordKeepsBound(hits: seq<Hit>, limits: Limits, key: string, now: int)
    requires Bounded(hits, limits) && (forall h | h in hits :: h.at <= now)
    requires !Check(limits, hits, key, now).0
    ensures Bounded(hits + [Hit(limits.scope, key, now)], limits)
  {
    var hit := Hit(limits.scope, key, now);
    forall k, lo ensures |InWindow(hits + [hit], limits, k, lo)| <= Allowed(limits) {
      WhereAppend(Inside(limits, k, lo), hits, hit);
      assert |InWindow(hits, limits, k, lo)| <= Allowed(limits);
      if Inside(limits, k, lo)(hit) { FewCounted(hits, limits, key, now, lo); }
    }
  }

  lemma FewCounted(hits: seq<Hit>, limits: Limits, key: string, now: int, lo: int)
    requires !Check(limits, hits, key, now).0 && now <= lo + limits.windowSeconds * SECOND
    ensures |InWindow(hits, limits, key, lo)| < Allowed(limits)
  {
    var cutoff := Cutoff(limits, now);
    var counted := Counted(hits, limits.scope, key, cutoff);
    WhereGrows(Inside(limits, key, lo), Matching(limits.scope, key, cutoff), hits);
    if counted != [] { assert Oldest(counted).Some?; }
  }

  lemma DeletionKeepsBound(hits: seq<Hit>, limits: Limits, p: Hit -> bool)
    requires Bounded(hits, limits)
    ensures Bounded(Where(p, hits), limits)
  {
    forall key, lo ensures |InWindow(Where(p, hits), limits, key, lo)| <= Allowed(limits) {
      var inside := Inside(limits, key, lo);
      var both := (h: Hit) => inside(h) && p(h);
      WhereWhere(inside, p, both, hits);
      WhereGrows(both, inside, hits);
      assert |InWindow(hits, limits, key, lo)| <= Allowed(limits);
    }
  }

  lemma OtherScopeKeepsBound(hits: seq<Hit>, limits: Limits, hit: Hit)
    requires Bounded(hits, limits) && hit.scope != limits.scope
    ensures Bounded(hits + [hit], limits)
  {
    forall key, lo ensures |InWindow(hits + [hit], limits, key, lo)| <= Allowed(limits) {
      WhereAppend(Inside(limits, key, lo), hits, hit);
      assert |InWindow(hits, limits, key, lo)| <= Allowed(limits);
    }
  }

  lemma ApplyKeepsBound(s: Store, step: Step, i: nat)
    requires TwinInv(s) && DistinctScopes(s.limiters) && i < |s.limiters| && Bounded(s.unswept, s.limiters[i])
    requires s.swept <= s.now - Widest(s.limiters) * SECOND && !step.Reconfigure?
    ensures Bounded(Apply(s, step).unswept, s.limiters[i])
  {
    match step
    case Attempt(k, key) =>
      if k < |s.limiters| {
        if k == i {
          WidestIsWidest(s.limiters, i);
          SweptCheckAgrees(s, s.limiters[i], key);
          if !Check(s.limiters[i], s.unswept, key, s.now).0 { RecordKeepsBound(s.unswept, s.limiters[i], key, s.now); }
        } else {
          OtherScopeKeepsBound(s.unswept, s.limiters[i], Hit(s.limiters[k].scope, key, s.now));
        }
      }
    case Reset(k, key) =>
      if k < |s.limiters| {
        DeletionKeepsBound(s.unswept, s.limiters[i], NotOf(s.limiters[k].scope, key));
      }
    case ClearAll(k) =>
      if k < |s.limiters| { DeletionKeepsBound(s.unswept, s.limiters[i], Outside(s.limiters[k].scope)); }
    case Sweep =>
  }

  lemma {:induction false} RunKeepsBound(limiters: seq<Limits>, now: int, steps: seq<Timed>, i: nat)
    requires Fixed(steps) && DistinctScopes(limiters) && i < |limiters|
    ensures Bounded(Run(Fresh(limiters, now), steps).unswept, limiters[i])
  {
    if steps != [] {
      var n := |steps| - 1;
      FixedRun(limiters, now, steps[..n]);
      RunKeepsBound(limiters, now, steps[..n], i);
      ApplyKeepsBound(Tick(Run(Fresh(limiters, now), steps[..n]), steps[n].dt), steps[n].step, i);
    }
  }

  lemma ReachableTable(limiters: seq<Limits>, now: int, steps: seq<Timed>, i: nat)
    requires Fixed(steps) && DistinctScopes(limiters) && i < |limiters|
    ensures var s := Run(Fresh(limiters, now), steps);
            Bounded(s.unswept, limiters[i]) && Bounded(s.hits, limiters[i]) && forall h | h in s.hits :: h.at <= s.now
  {
    var s := Run(Fresh(limiters, now), steps);
    RunKeepsBound(limiters, now, steps, i);
    FixedRun(limiters, now, steps);
    DeletionKeepsBound(s.unswept, limiters[i], NoOlder(s.swept));
    WhereKeeps(NoOlder(s.swept), s.unswept);
  }

  /** With fixed limits and attempts made one at a time, no window of the configured length - wherever
      it starts, and whatever was swept - ever holds more than the allowed attempts of one key. */
  lemma WindowHoldsAllowed(limiters: seq<Limits>, now: int, steps: seq<Timed>, i: nat, key: string, lo: int)
    requires Fixed(steps) && DistinctScopes(limiters) && i < |limiters|
    ensures var s := Run(Fresh(limiters, now), steps);
            && |InWindow(s.unswept, limiters[i], key, lo)| <= Allowed(limiters[i])
            && |InWindow(s.hits, limiters[i], key, lo)| <= Allowed(limiters[i])
  {
    ReachableTable(limiters, now, steps, i);
  }

  // ── Tables, row by row ────────────────────────────────────────────────────

  /** The rows a check counts: this limiter's, for this key, strictly within the window. */
  ghost predicate CountsAgainst(limits: Limits, key: string, moment: int, h: Hit) {
    h.scope == limits.scope && h.key == key && moment - h.at < limits.windowSeconds * 1_000_000
  }

  ghost function CountedPlaces(limits: Limits, hits: seq<Hit>, key: string, moment: int): set<int> {
    set i | 0 <= i < |hits| && CountsAgainst(limits, key, moment, hits[i])
  }

  /** The oldest of the counted rows. */
  ghost predicate OldestPlace(limits: Limits, hits: seq<Hit>, key: string, moment: int, i: int) {
    && i in CountedPlaces(limits, hits, key, moment)
    && forall j | j in CountedPlaces(limits, hits, key, moment) :: hits[i].at <= hits[j].at
  }

  /** A caller is limited if and only if at least the allowed number of rows count against them, at least
      one; the hint is the whole seconds until the oldest of those leaves the window, and at least one. */
  lemma LimitedExactlyWhen(limits: Limits, hits: seq<Hit>, key: string, moment: int)
    ensures Check(limits, hits, key, moment).0
            <==> |CountedPlaces(limits, hits, key, moment)| >= Max(1, limits.maxAttempts)
    ensures Check(limits, hits, key, moment).0 ==>
              exists i :: OldestPlace(limits, hits, key, moment, i)
                          && Check(limits, hits, key, moment).1
                             == Max(1, (hits[i].at + limits.windowSeconds * 1_000_000 - moment) / 1_000_000)
    ensures !Check(limits, hits, key, moment).0 ==> Check(limits, hits, key, moment).1 == 0
  {
    var counts := Matching(limits.scope, key, Cutoff(limits, moment));
    var counted := Where(counts, hits);
    WhereCountsPlaces(counts, hits);
    assert Places(counts, hits) == CountedPlaces(limits, hits, key, moment);
    if counted != [] {
      OldestIsCounted(counted);
      WhereKeeps(counts, hits);
      var h :| h in counted && h.at == Oldest(counted).value;
      var i :| 0 <= i < |hits| && hits[i] == h;
      forall j | j in CountedPlaces(limits, hits, key, moment) ensures hits[i].at <= hits[j].at {
        WhereFinds(counts, hits, hits[j]);
      }
      assert OldestPlace(limits, hits, key, moment, i);
    }
  }

  /** What deleting by a condition leaves of one row. */
  lemma DeletionCounts(hits: seq<Hit>, scope: string, key: string, cutoff: int, h: Hit)
    ensures multiset(Forget(hits, scope, key))[h] == if h.scope == scope && h.key == key then 0 else multiset(hits)[h]
    ensures multiset(Clear(hits, scope))[h] == if h.scope == scope then 0 else multiset(hits)[h]
    ensures multiset(Since(hits, cutoff))[h] == if h.at < cutoff then 0 else multiset(hits)[h]
  {
    WhereCounts(NotOf(scope, key), hits, h);
    WhereCounts(Outside(scope), hits, h);
    WhereCounts(NoOlder(cutoff), hits, h);
  }

  /** An attempt leaves one row, of this instant, if and only if it is let through. */
  lemma AttemptOutcome(s: Store, limits: Limits, key: string, h: Hit)
    ensures var s' := AttemptOnce(s, limits, key);
            var admitted := |CountedPlaces(limits, s.hits, key, s.now)| < Max(1, limits.maxAttempts);
            && s' == s.(hits := s'.hits, unswept := s'.unswept)
            && multiset(s'.hits)[h]
               == multiset(s.hits)[h] + if admitted && h == Hit(limits.scope, key, s.now) then 1 else 0
  {
    LimitedExactlyWhen(limits, s.hits, key, s.now);
  }

  /** The widest window is one of the limiters' own. */
  lemma {:induction false} WidestIsAttained(limiters: seq<Limits>)
    ensures forall i | 0 <= i < |limiters| :: limiters[i].windowSeconds <= Widest(limiters)
    ensures limiters != [] ==> exists i :: 0 <= i < |limiters| && limiters[i].windowSeconds == Widest(limiters)
  {
    if limiters != [] {
      var n := |limiters| - 1;
      WidestIsAttained(limiters[..n]);
      forall i | 0 <= i < |limiters| ensures limiters[i].windowSeconds <= Widest(limiters) {
        if i < n { assert limiters[..n][i] == limiters[i]; }
      }
      if limiters[n].windowSeconds < Widest(limiters) {
        var i :| 0 <= i < n && limiters[..n][i].windowSeconds == Widest(limiters[..n]);
        assert limiters[i] == limiters[..n][i];
        assert limiters[i].windowSeconds == Widest(limiters);
      } else {
        assert limiters[n].windowSeconds == Widest(limiters);
      }
    }
  }

  /** A sweep keeps every row some limiter's window can still reach, and deletes the rest. */
  lemma SweepOutcome(s: Store, h: Hit)
    ensures multiset(SweepOnce(s).hits)[h]
            == if (exists i :: 0 <= i < |s.limiters| && s.now - h.at <= s.limiters[i].windowSeconds * 1_000_000)
                  || (s.limiters == [] && s.now <= h.at) then multiset(s.hits)[h] else 0
  {
    var cutoff := s.now - Widest(s.limiters) * SECOND;
    DeletionCounts(s.hits, "", "", cutoff, h);
    WidestIsAttained(s.limiters);
    if s.limiters != [] && h.at >= cutoff {
      var i :| 0 <= i < |s.limiters| && s.limiters[i].windowSeconds == Widest(s.limiters);
      assert s.now - h.at <= s.limiters[i].windowSeconds * 1_000_000;
    }
  }

  // ── The retry hint ────────────────────────────────────────────────────────

  lemma {:induction false} OldestIsCounted(hits: seq<Hit>)
    requires hits != []
    ensures Oldest(hits).Some?
    ensures exists h :: h in hits && h.at == Oldest(hits).value
    ensures forall h | h in hits :: Oldest(hits).value <= h.at
  {
    var n := |hits| - 1;
    if n > 0 {
      OldestIsCounted(hits[..n]);
      var h :| h in hits[..n] && h.at == Oldest(hits[..n]).value;
      assert hits[n] in hits && h in hits;
    } else {
      assert hits[0] in hits;
    }
  }

  /** A later check, with nothing recorded meanwhile, lets the caller through exactly when the oldest
      hit it was limited by has left the window. */
  lemma AdmittedExactlyWhen(hits: seq<Hit>, limits: Limits, key: string, now: int, later: int)
    requires now <= later && Bounded(hits, limits) && (forall h | h in hits :: h.at <= now)
    requires Check(limits, hits, key, now).0
    ensures Oldest(Counted(hits, limits.scope, key, Cutoff(limits, now))).Some?
    ensures !Check(limits, hits, key, later).0
            <==> Remaining(limits, Oldest(Counted(hits, limits.scope, key, Cutoff(limits, now))).value, now) <= later - now
  {
    var before, after := Cutoff(limits, now), Cutoff(limits, later);
    var counts, countsLater := Matching(limits.scope, key, before), Matching(limits.scope, key, after);
    var counted := Where(counts, hits);
    OldestIsCounted(counted);
    WhereKeeps(counts, hits);
    var oldest :| oldest in counted && oldest.at == Oldest(counted).value;
    WhereAgrees(counts, Inside(limits, key, before), hits);
    assert |InWindow(hits, limits, key, before)| <= Allowed(limits);
    if oldest.at <= after {
      WhereGrowsStrictly(countsLater, counts, hits, oldest);
    } else {
      forall h | h in hits ensures counts(h) == countsLater(h) {
        if counts(h) { WhereFinds(counts, hits, h); }
      }
      WhereAgrees(counts, countsLater, hits);
    }
  }

  /** In any reachable table, a limited caller who waits the hint plus one second is let through;
      waiting the hint alone is enough exactly when what remained was a whole number of seconds, or
      less than one. */
  lemma RetryHintIsHonest(limiters: seq<Limits>, start: int, steps: seq<Timed>, i: nat, key: string)
    requires Fixed(steps) && DistinctScopes(limiters) && i < |limiters|
    requires var s := Run(Fresh(limiters, start), steps); Check(limiters[i], s.hits, key, s.now).0
    ensures var s := Run(Fresh(limiters, start), steps);
            var hint := Check(limiters[i], s.hits, key, s.now).1;
            && hint >= 1
            && !Check(limiters[i], s.hits, key, s.now + (hint + 1) * SECOND).0
            && var oldest := Oldest(Counted(s.hits, limiters[i].scope, key, Cutoff(limiters[i], s.now)));
               && oldest.Some?
               && var remaining := Remaining(limiters[i], oldest.value, s.now);
                  !Check(limiters[i], s.hits, key, s.now + hint * SECOND).0
                  <==> remaining % SECOND == 0 || remaining < SECOND
  {
    hide Run, Check, Counted, Bounded, Cutoff, Oldest;
    var s := Run(Fresh(limiters, start), steps);
    ReachableTable(limiters, start, steps, i);
    HintArithmetic(s.hits, limiters[i], key, s.now);
  }

  lemma HintArithmetic(hits: seq<Hit>, limits: Limits, key: string, now: int)
    requires Bounded(hits, limits) && (forall h | h in hits :: h.at <= now)
    requires Check(limits, hits, key, now).0
    ensures var hint := Check(limits, hits, key, now).1;
            && hint >= 1
            && !Check(limits, hits, key, now + (hint + 1) * SECOND).0
            && var oldest := Oldest(Counted(hits, limits.scope, key, Cutoff(limits, now)));
               && oldest.Some?
               && var remaining := Remaining(limits, oldest.value, now);
                  !Check(limits, hits, key, now + hint * SECOND).0 <==> remaining % SECOND == 0 || remaining < SECOND
  {
    var hint := Check(limits, hits, key, now).1;
    AdmittedExactlyWhen(hits, limits, key, now, now + (hint + 1) * SECOND);
    AdmittedExactlyWhen(hits, limits, key, now, now + hint * SECOND);
    var counted := Counted(hits, limits.scope, key, Cutoff(limits, now));
    OldestIsCounted(counted);
    WhereKeeps(Matching(limits.scope, key, Cutoff(limits, now)), hits);
    var remaining := Remaining(limits, Oldest(counted).value, now);
    assert remaining > 0;
    assert remaining == remaining / SECOND * SECOND + remaining % SECOND;
  }

  // ── The limiter and the shared table, updated in place ────────────────────

  class HitTable {
    var hits: seq<Hit>

    constructor ()
      ensures hits == []
    {
      hits := [];
    }

    /** Delete the rows that fail the condition. */
    method DeleteUnless(p: Hit -> bool)
      modifies this
      ensures hits == Where(p, old(hits))
    {
      var kept := [];
      for i := 0 to |hits|
        invariant hits == old(hits)
        invariant kept == Where(p, hits[..i])
      {
        assert hits[..i + 1][..i] == hits[..i];
        if p(hits[i]) {
          kept := kept + [hits[i]];
        }
      }
      assert hits[..|hits|] == hits;
      hits := kept;
    }
  }

  class RateLimiter {
    const scope: string
    var maxAttempts: int
    var windowSeconds: nat

    function Model(): Limits
      reads this
    {
      Limits(scope, maxAttempts, windowSeconds)
    }

    constructor (scope: string, maxAttempts: int, windowSeconds: nat)
      ensures Model() == Limits(scope, maxAttempts, windowSeconds)
    {
      this.scope, this.maxAttempts, this.windowSeconds := scope, maxAttempts, windowSeconds;
    }

    method CheckKey(table: HitTable, key: string, moment: int) returns (limited: bool, retryAfter: int)
      ensures (limited, retryAfter) == Check(Model(), table.hits, key, moment)
    {
      var cutoff := moment - windowSeconds * SECOND;
      var counts := Matching(scope, key, cutoff);
      var counted: seq<Hit> := [];
      var oldest: Option<int> := None;
      for i := 0 to |table.hits|
        invariant counted == Where(counts, table.hits[..i])
        invariant oldest == Oldest(counted)
      {
        var hit := table.hits[i];
        assert table.hits[..i + 1][..i] == table.hits[..i];
        if hit.scope == scope && hit.key == key && hit.at > cutoff {
          assert (counted + [hit])[..|counted|] == counted;
          oldest := if oldest.None? then Some(hit.at) else Some(Min(oldest.value, hit.at));
          counted := counted + [hit];
        }
      }
      assert table.hits[..|table.hits|] == table.hits;
      if |counted| < maxAttempts || oldest.None? {
        return false, 0;
      }
      var remaining := windowSeconds * SECOND - (moment - oldest.value);
      return true, Max(1, remaining / SECOND);
    }

    method RecordFailure(table: HitTable, key: string, moment: int)
      modifies table
      ensures table.hits == old(table.hits) + [Hit(scope, key, moment)]
    {
      table.hits := table.hits + [Hit(scope, key, moment)];
    }

    method Reset(table: HitTable, key: string)
      modifies table
      ensures table.hits == Forget(old(table.hits), scope, key)
      ensures forall h :: multiset(table.hits)[h]
                          == if h.scope == scope && h.key == key then 0 else multiset(old(table.hits))[h]
    {
      ghost var before := table.hits;
      table.DeleteUnless(NotOf(scope, key));
      forall h ensures multiset(table.hits)[h] == if h.scope == scope && h.key == key then 0 else multiset(before)[h] {
        DeletionCounts(before, scope, key, 0, h);
      }
    }

    method ClearHistory(table: HitTable)
      modifies table
      ensures table.hits == Clear(old(table.hits), scope)
      ensures forall h :: multiset(table.hits)[h] == if h.scope == scope then 0 else multiset(old(table.hits))[h]
    {
      ghost var before := table.hits;
      table.DeleteUnless(Outside(scope));
      forall h ensures multiset(table.hits)[h] == if h.scope == scope then 0 else multiset(before)[h] {
        DeletionCounts(before, scope, "", 0, h);
      }
    }

    /** New limits; the history stands. */
    method ReconfigureLimits(maxAttempts: int, windowSeconds: nat)
      modifies this
      ensures Model() == Limits(scope, maxAttempts, windowSeconds)
    {
      this.maxAttempts, this.windowSeconds := maxAttempts, windowSeconds;
    }
  }

  function Models(limiters: seq<RateLimiter>): (models: seq<Limits>)
    reads set l | l in limiters
    ensures |models| == |limiters|
  {
    seq(|limiters|, i requires 0 <= i < |limiters| reads limiters => limiters[i].Model())
  }

  /** Delete what no configured window can still count. */
  method SweepTable(table: HitTable, limiters: seq<RateLimiter>, moment: int) returns (removed: nat)
    modifies table
    ensures table.hits == Since(old(table.hits), moment - Widest(Models(limiters)) * SECOND)
    ensures removed == |old(table.hits)| - |table.hits|
  {
    var widest, before := 0, |table.hits|;
    for i := 0 to |limiters|
      invariant table.hits == old(table.hits)
      invariant widest == Widest(Models(limiters)[..i])
    {
      assert Models(limiters)[..i + 1][..i] == Models(limiters)[..i];
      widest := Max(widest, limiters[i].windowSeconds);
    }
    assert Models(limiters)[..|limiters|] == Models(limiters);
    WhereKeeps(NoOlder(moment - widest * SECOND), table.hits);
    table.DeleteUnless(NoOlder(moment - widest * SECOND));
    removed := before - |table.hits|;
  }
}
