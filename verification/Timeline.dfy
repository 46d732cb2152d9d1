/** The after-action view of an inject, derived from its per-context rows. */
module Timeline {
  import opened Wrappers
  import opened Scenario
  import opened Progression
  import opened ProgressionInvariants

  /** One row of the resolution table, as the export bundle lists it. */
  datatype ResolutionRow = ResolutionRow(inject: int, context: Context, progress: Progress)

  datatype View = View(state: InjectState, resolvedAt: Option<int>, resolvedBy: Option<int>)

  function RowsFor(listing: seq<ResolutionRow>, id: int): seq<ResolutionRow> {
    if listing == [] then []
    else (if listing[0].inject == id then [listing[0]] else []) + RowsFor(listing[1..], id)
  }

  function ResolvedRows(rows: seq<ResolutionRow>): seq<ResolutionRow> {
    if rows == [] then []
    else (if rows[0].progress.Done? then [rows[0]] else []) + ResolvedRows(rows[1..])
  }

  predicate AllResolved(rows: seq<ResolutionRow>) {
    forall k | 0 <= k < |rows| :: rows[k].progress.Done?
  }

  /** The latest resolution; the earliest listed wins a tie. */
  function Latest(rows: seq<ResolutionRow>): (last: ResolutionRow)
    requires rows != [] && AllResolved(rows)
    ensures last in rows && last.progress.Done?
  {
    if |rows| == 1 then rows[0]
    else
      var best := Latest(rows[1..]);
      if rows[0].progress.at >= best.progress.at then rows[0] else best
  }

  lemma {:induction false} ResolvedRowsAreDone(rows: seq<ResolutionRow>)
    ensures AllResolved(ResolvedRows(rows))
    ensures |ResolvedRows(rows)| <= |rows|
    ensures |ResolvedRows(rows)| == |rows| <==> AllResolved(rows)
    ensures AllResolved(rows) ==> ResolvedRows(rows) == rows
  {
    if rows != [] {
      ResolvedRowsAreDone(rows[1..]);
      assert rows == [rows[0]] + rows[1..];
      assert forall k | 0 < k < |rows| :: rows[k] == rows[1..][k - 1];
    }
  }

  /** The view of an inject from its own rows. */
  function Derive(rows: seq<ResolutionRow>, inject: Inject): View {
    var resolved := ResolvedRows(rows);
    ResolvedRowsAreDone(rows);
    if rows != [] && |resolved| == |rows| then
      var last := Latest(resolved);
      View(Resolved, Some(last.progress.at), Some(last.progress.actor))
    else if rows != [] then
      View(if inject.releasedAt.Some? then Released else Pending, None, None)
    else View(inject.state, inject.resolvedAt, inject.resolvedBy)
  }

  function InjectResolutionProjection(listing: seq<ResolutionRow>, id: int, inject: Inject): View {
    Derive(RowsFor(listing, id), inject)
  }

  lemma {:induction false} RowsForCharacterised(listing: seq<ResolutionRow>, id: int, r: ResolutionRow)
    ensures r in RowsFor(listing, id) <==> r in listing && r.inject == id
  {
    if listing != [] { RowsForCharacterised(listing[1..], id, r); }
  }

  lemma {:induction false} LatestIsMaximal(rows: seq<ResolutionRow>)
    requires rows != [] && AllResolved(rows)
    ensures forall r | r in rows :: r.progress.Done? && r.progress.at <= Latest(rows).progress.at
    ensures rows[0].progress.at == Latest(rows).progress.at ==> Latest(rows) == rows[0]
  {
    if |rows| > 1 {
      LatestIsMaximal(rows[1..]);
      assert rows == [rows[0]] + rows[1..];
    }
  }

  /** The derived view without its helpers: resolved at the latest row's instant once every row is resolved;
      until then released, or pending if it never was; and without rows, as stored. */
  lemma DerivedExactly(rows: seq<ResolutionRow>, inject: Inject)
    ensures rows == [] ==> Derive(rows, inject) == View(inject.state, inject.resolvedAt, inject.resolvedBy)
    ensures rows != [] && !AllResolved(rows) ==>
              Derive(rows, inject) == View(if inject.releasedAt == None then Pending else Released, None, None)
    ensures rows != [] && AllResolved(rows) ==>
              exists k :: LatestAt(rows, k)
                          && Derive(rows, inject) == View(Resolved, Some(rows[k].progress.at), Some(rows[k].progress.actor))
  {
    ResolvedRowsAreDone(rows);
    if rows != [] && AllResolved(rows) {
      LatestIsMaximal(rows);
      var k :| 0 <= k < |rows| && rows[k] == Latest(rows);
      hide Latest, ResolvedRows;
      assert LatestAt(rows, k);
    }
  }

  /** None of the resolved rows is later than the k-th. */
  ghost predicate LatestAt(rows: seq<ResolutionRow>, k: int)
    requires AllResolved(rows)
  {
    0 <= k < |rows| && forall i | 0 <= i < |rows| :: rows[i].progress.at <= rows[k].progress.at
  }

  // ── Against the stored scalar ─────────────────────────────────────────────

  /** The listed rows are exactly the stored ones, in some order. */
  ghost predicate Represents(list: seq<ResolutionRow>, rows: map<Context, Progress>) {
    && (forall k | 0 <= k < |list| :: list[k].context in rows && list[k].progress == rows[list[k].context])
    && (forall c | c in rows :: exists k :: 0 <= k < |list| && list[k].context == c)
  }

  /** The listing holds every row of the table, in some order. */
  ghost predicate Lists(listing: seq<ResolutionRow>, b: Board) {
    forall r :: r in listing <==> r.context in Rows(b, r.inject) && Rows(b, r.inject)[r.context] == r.progress
  }

  lemma ListingRepresents(b: Board, listing: seq<ResolutionRow>, id: int)
    requires Lists(listing, b)
    ensures Represents(RowsFor(listing, id), Rows(b, id))
  {
    var list := RowsFor(listing, id);
    forall k | 0 <= k < |list|
      ensures list[k].context in Rows(b, id) && list[k].progress == Rows(b, id)[list[k].context]
    {
      RowsForCharacterised(listing, id, list[k]);
    }
    forall c | c in Rows(b, id) ensures exists k :: 0 <= k < |list| && list[k].context == c {
      var r := ResolutionRow(id, c, Rows(b, id)[c]);
      assert r in listing;
      RowsForCharacterised(listing, id, r);
      var k :| 0 <= k < |list| && list[k] == r;
    }
  }

  /** Only one responder stands at the closing instant. */
  ghost predicate SoleCloser(inject: Inject, rows: map<Context, Progress>) {
    forall c | c in rows && rows[c].Done? && Some(rows[c].at) == inject.resolvedAt ::
      Some(rows[c].actor) == inject.resolvedBy
  }

  lemma RepresentedCompletion(list: seq<ResolutionRow>, rows: map<Context, Progress>)
    requires Represents(list, rows)
    ensures list == [] <==> rows.Keys == {}
    ensures list != [] ==> (AllResolved(list) <==> RowsComplete(rows))
  {
    if list != [] {
      assert list[0].context in rows;
      if AllResolved(list) {
        forall c | c in rows ensures rows[c].Done? {
          var k :| 0 <= k < |list| && list[k].context == c;
        }
      }
    }
  }

  /** The latest listed resolution is made at the latest stored instant. */
  lemma LatestIsFinal(list: seq<ResolutionRow>, rows: map<Context, Progress>, final: int)
    requires Represents(list, rows) && list != [] && AllResolved(list)
    requires forall c | c in rows && rows[c].Done? :: rows[c].at <= final
    requires exists c :: c in rows && rows[c].Done? && rows[c].at == final
    ensures Latest(list).context in rows && Latest(list).progress == rows[Latest(list).context]
    ensures Latest(list).progress.at == final
  {
    LatestIsMaximal(list);
    var c :| c in rows && rows[c].Done? && rows[c].at == final;
    var k :| 0 <= k < |list| && list[k].context == c;
    assert list[k] in list;
  }

  lemma DerivedViewAgrees(list: seq<ResolutionRow>, inject: Inject, rows: map<Context, Progress>)
    requires Represents(list, rows) && ScalarAgrees(inject, rows)
    requires rows.Keys != {} && inject.state != Pending && inject.releasedAt.Some?
    ensures Derive(list, inject).state == inject.state
    ensures Derive(list, inject).resolvedAt == inject.resolvedAt
    ensures SoleCloser(inject, rows) ==> Derive(list, inject).resolvedBy == inject.resolvedBy
  {
    RepresentedCompletion(list, rows);
    ResolvedRowsAreDone(list);
    if AllResolved(list) { LatestIsFinal(list, rows, inject.resolvedAt.value); }
  }

  /** Over any run and any order of the rows, the derived state and instant are the stored ones,
      and so is the resolver unless two responders share the closing instant. */
  lemma ScalarEqualsProjection(def: Definition, start: int, steps: seq<Timed>, listing: seq<ResolutionRow>, id: int)
    requires var b := Execute(Created(def, start), steps); id in b.injects && Lists(listing, b)
    ensures var b := Execute(Created(def, start), steps);
            var view := InjectResolutionProjection(listing, id, b.injects[id]);
            && view.state == b.injects[id].state
            && view.resolvedAt == b.injects[id].resolvedAt
            && (SoleCloser(b.injects[id], Rows(b, id)) ==> view.resolvedBy == b.injects[id].resolvedBy)
  {
    var b := Execute(Created(def, start), steps);
    CreatedSatisfies(def, start);
    ExecutionKeeps(Created(def, start), steps);
    assert InjectInv(b.injects[id], Rows(b, id), Answers(b, id), b.members, b.now);
    ListingRepresents(b, listing, id);
    RepresentedCompletion(RowsFor(listing, id), Rows(b, id));
    if Opened(b, id) { DerivedViewAgrees(RowsFor(listing, id), b.injects[id], Rows(b, id)); }
  }

  /** Bringing one row to the front of a listing. */
  function Promote(list: seq<ResolutionRow>, k: nat): seq<ResolutionRow>
    requires k < |list|
  {
    [list[k]] + list[..k] + list[k + 1..]
  }

  /** Where the promoted listing takes its i-th row from. */
  function Source(k: nat, i: nat): nat {
    if i == 0 then k else if i <= k then i - 1 else i
  }

  lemma PromoteRows(list: seq<ResolutionRow>, k: nat)
    requires k < |list|
    ensures |Promote(list, k)| == |list| && multiset(Promote(list, k)) == multiset(list)
    ensures forall i: nat | i < |list| :: Promote(list, k)[i] == list[Source(k, i)]
  {
    assert list == list[..k] + [list[k]] + list[k + 1..];
  }

  lemma PromoteRepresents(list: seq<ResolutionRow>, k: nat, rows: map<Context, Progress>)
    requires k < |list| && Represents(list, rows)
    ensures Represents(Promote(list, k), rows)
    ensures multiset(Promote(list, k)) == multiset(list)
  {
    var other := Promote(list, k);
    PromoteRows(list, k);
    hide Promote;
    forall d | d in rows ensures exists i :: 0 <= i < |other| && other[i].context == d {
      var i :| 0 <= i < |list| && list[i].context == d;
      var at: nat := if i == k then 0 else if i < k then i + 1 else i;
      assert Source(k, at) == i;
      assert other[at] == list[i];
    }
  }

  /** The tie is the only gap: with two responders at the closing instant, some order of the rows
      names a resolver other than the stored one. */
  lemma TiedResolverDependsOnOrder(list: seq<ResolutionRow>, inject: Inject, rows: map<Context, Progress>)
    requires Represents(list, rows) && ScalarAgrees(inject, rows)
    requires inject.state == Resolved && !SoleCloser(inject, rows)
    ensures exists other :: multiset(other) == multiset(list) && Represents(other, rows)
                            && Derive(other, inject).resolvedBy != inject.resolvedBy
  {
    var c :| c in rows && rows[c].Done? && Some(rows[c].at) == inject.resolvedAt
             && Some(rows[c].actor) != inject.resolvedBy;
    var k :| 0 <= k < |list| && list[k].context == c;
    var other := Promote(list, k);
    PromoteRepresents(list, k, rows);
    RepresentedCompletion(other, rows);
    ResolvedRowsAreDone(other);
    LatestIsFinal(other, rows, inject.resolvedAt.value);
    LatestIsMaximal(other);
  }
}
