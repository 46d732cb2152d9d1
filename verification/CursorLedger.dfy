/** Cursors move exactly once per resolved scenario row, and stand where the last move left them. */
module CursorLedger {
  import opened Wrappers
  import opened Scenario
  import opened Progression
  import opened ProgressionInvariants

  /** A resolved row of an inject that carries a scenario node. */
  predicate Moves(b: Board, id: int, c: Context) {
    Opened(b, id) && b.injects[id].node.Some? && Resolves(b, id, c)
  }

  function LastAdvance(ledger: seq<Advance>, c: Context): Option<Advance> {
    if ledger == [] then None
    else if ledger[|ledger| - 1].context == c then Some(ledger[|ledger| - 1])
    else LastAdvance(ledger[..|ledger| - 1], c)
  }

  /** Where a context stands after the moves in the ledger. */
  function Position(def: Definition, ledger: seq<Advance>, c: Context): Cursor {
    match LastAdvance(ledger, c)
    case None => Cursor(Some(def.start), None)
    case Some(a) => Cursor(a.target, Some(a.inject))
  }

  ghost predicate EntriesMove(b: Board) {
    forall k | 0 <= k < |b.advances| ::
      var a := b.advances[k];
      Moves(b, a.inject, a.context) && a.target == Chosen(b, a.inject, a.context)
  }

  ghost predicate EntriesDistinct(b: Board) {
    forall i, j | 0 <= i < j < |b.advances| ::
      b.advances[i].inject != b.advances[j].inject || b.advances[i].context != b.advances[j].context
  }

  ghost predicate Entered(ledger: seq<Advance>, id: int, c: Context) {
    exists k :: 0 <= k < |ledger| && ledger[k].inject == id && ledger[k].context == c
  }

  ghost predicate MovesEntered(b: Board) {
    forall id, c | Moves(b, id, c) :: Entered(b.advances, id, c)
  }

  ghost predicate CursorsFollow(b: Board) {
    && (forall c | c in b.cursors :: b.cursors[c] == Position(b.def, b.advances, c))
    && (forall k | 0 <= k < |b.advances| :: b.advances[k].context in b.cursors)
  }

  ghost predicate LedgerInv(b: Board) {
    EntriesMove(b) && EntriesDistinct(b) && MovesEntered(b) && CursorsFollow(b)
  }

  lemma EntriesStay(b: Board, b': Board)
    requires Inv(b) && EntriesMove(b) && Extends(b, b') && b'.advances == b.advances
    ensures EntriesMove(b')
  {
    forall k | 0 <= k < |b'.advances|
      ensures var a := b'.advances[k];
              Moves(b', a.inject, a.context) && a.target == Chosen(b', a.inject, a.context)
    {
      var a := b.advances[k];
      assert Moves(b, a.inject, a.context);
      ChoiceIsPermanent(b, b', a.inject, a.context);
      assert SameRelease(b.injects[a.inject], b'.injects[a.inject]);
    }
  }

  /** A transaction that resolves nothing moves nothing. */
  lemma QuietKeepsLedger(b: Board, b': Board)
    requires Inv(b) && LedgerInv(b) && Extends(b, b')
    requires b'.advances == b.advances && b'.cursors == b.cursors
    requires forall id, c | Moves(b', id, c) :: Moves(b, id, c)
    ensures LedgerInv(b')
  {
    EntriesStay(b, b');
  }

  /** Marking one row resolved adds one move, if the inject is on the scenario. */
  lemma MarkedMoves(b: Board, id: int, c: Context, actor: int)
    requires Opened(b, id) && c in Rows(b, id) && !Rows(b, id)[c].Done?
    ensures var marked := MarkResolved(b, id, c, actor);
            forall q, d :: Moves(marked, q, d) <==> Moves(b, q, d) || (q == id && d == c && b.injects[id].node.Some?)
    ensures !Moves(b, id, c)
  {
    var marked := MarkResolved(b, id, c, actor);
    assert Rows(marked, id) == Rows(b, id)[c := Done(b.now, actor)];
  }

  lemma EnteredAppend(ledger: seq<Advance>, a: Advance, id: int, c: Context)
    requires Entered(ledger, id, c) || (id == a.inject && c == a.context)
    ensures Entered(ledger + [a], id, c)
  {
    var longer := ledger + [a];
    if id == a.inject && c == a.context {
      assert longer[|ledger|] == a;
    } else {
      var k :| 0 <= k < |ledger| && ledger[k].inject == id && ledger[k].context == c;
      assert longer[k] == ledger[k];
    }
  }

  /** Entering one new move keeps the ledger exact. */
  lemma EntryKeepsLedger(b: Board, a: Advance)
    requires EntriesMove(b) && EntriesDistinct(b) && CursorsFollow(b)
    requires forall q, d | Moves(b, q, d) :: Entered(b.advances, q, d) || (q == a.inject && d == a.context)
    requires !Entered(b.advances, a.inject, a.context)
    requires Moves(b, a.inject, a.context) && a.target == Chosen(b, a.inject, a.context)
    ensures LedgerInv(AdvanceCursor(b, a.inject, a.context, a.target))
  {
    hide ChosenTarget, RowsComplete;
    var b' := AdvanceCursor(b, a.inject, a.context, a.target);
    assert b'.advances == b.advances + [a];
    forall q, d | Moves(b', q, d) ensures Entered(b'.advances, q, d) {
      assert Moves(b, q, d);
      EnteredAppend(b.advances, a, q, d);
    }
    assert CursorsFollow(b') by {
      assert b'.advances[..|b'.advances| - 1] == b.advances;
    }
  }

  /** Resolving a row and moving its cursor enters exactly that move. */
  lemma ResolutionKeepsLedger(b: Board, id: int, c: Context, actor: int, target: Option<string>)
    requires Inv(b) && LedgerInv(b) && Opened(b, id)
    requires c in Rows(b, id) && !Rows(b, id)[c].Done? && actor in Answers(b, id)
    requires target == ResponseTarget(b.def, b.injects[id].node, Answers(b, id)[actor].selected)
    ensures LedgerInv(AdvanceCursor(MarkResolved(b, id, c, actor), id, c, target))
  {
    var marked := MarkResolved(b, id, c, actor);
    MarkKeeps(b, id, c, actor);
    MarkedMoves(b, id, c, actor);
    EntriesStay(b, marked);
    if b.injects[id].node.Some? {
      assert Rows(marked, id)[c] == Done(b.now, actor);
      assert !Entered(b.advances, id, c);
      EntryKeepsLedger(marked, Advance(id, c, target));
    }
  }

  lemma ProgressKeepsLedger(b: Board, id: int, group: Context, actor: int, target: Option<string>)
    requires Inv(b) && LedgerInv(b) && Opened(b, id) && actor in Answers(b, id)
    requires target == ResponseTarget(b.def, b.injects[id].node, Answers(b, id)[actor].selected)
    ensures LedgerInv(ResolveProgression(b, id, group, actor, target))
  {
    var c := ResponseContext(b.injects[id], group);
    ReseedingAddsNothing(b, id);
    if c in Rows(b, id) && !Rows(b, id)[c].Done? { ResolutionKeepsLedger(b, id, c, actor, target); }
    hide LedgerInv, Inv, SeedRows, Audience, MarkResolved, AdvanceCursor, ResponseTarget;
  }

  lemma RespondKeepsLedger(b: Board, id: int, user: int, group: Context, selected: Option<string>)
    requires Inv(b) && LedgerInv(b) && SubmitResponse(b, id, user, group, selected).Ok?
    ensures LedgerInv(SubmitResponse(b, id, user, group, selected).value)
  {
    var recorded := RecordResponse(b, id, user, group, selected);
    RecordKeeps(b, id, user, group, selected);
    QuietKeepsLedger(b, recorded);
    hide LedgerInv, Inv, ResponseTarget, ResolveProgression, Extends;
    ProgressKeepsLedger(recorded, id, group, user, ResponseTarget(b.def, b.injects[id].node, selected));
  }

  lemma CommitKeepsLedger(b: Board, step: Step)
    requires Inv(b) && LedgerInv(b)
    ensures LedgerInv(Commit(b, step))
  {
    var b' := Commit(b, step);
    CommitKeeps(b, step);
    if step.Respond? && Attempt(b, step).Ok? {
      RespondKeepsLedger(b, step.inject, step.user, step.group, step.selected);
    } else {
      forall id, c | Moves(b', id, c) ensures Moves(b, id, c) {
        QuietMoves(b, step, id, c);
      }
      QuietKeepsLedger(b, b');
    }
  }

  /** Apart from a response, no transaction resolves a row. */
  lemma QuietMoves(b: Board, step: Step, id: int, c: Context)
    requires Inv(b) && Moves(Commit(b, step), id, c)
    requires !step.Respond? || Attempt(b, step).Err?
    ensures Moves(b, id, c)
  {
  }

  lemma {:induction false} ExecutionKeepsLedger(b: Board, steps: seq<Timed>)
    requires Inv(b) && LedgerInv(b)
    ensures LedgerInv(Execute(b, steps))
  {
    if steps != [] {
      var n := |steps| - 1;
      var before := Execute(b, steps[..n]);
      ExecutionKeeps(b, steps[..n]);
      ExecutionKeepsLedger(b, steps[..n]);
      var ticked := Tick(before, steps[n].dt);
      TickKeeps(before, steps[n].dt);
      forall id, c | Moves(ticked, id, c) ensures Moves(before, id, c) {}
      QuietKeepsLedger(before, ticked);
      CommitKeepsLedger(ticked, steps[n].step);
    }
  }

  // ── Counting ──────────────────────────────────────────────────────────────

  function AdvanceCount(ledger: seq<Advance>, c: Context): nat {
    if ledger == [] then 0
    else AdvanceCount(ledger[..|ledger| - 1], c) + (if ledger[|ledger| - 1].context == c then 1 else 0)
  }

  /** The scenario injects the context has resolved. */
  function ResolvedInjects(b: Board, c: Context): set<int> {
    set id | id in b.injects && Moves(b, id, c)
  }

  ghost function AdvancedInjects(ledger: seq<Advance>, c: Context): set<int> {
    set k | 0 <= k < |ledger| && ledger[k].context == c :: ledger[k].inject
  }

  lemma AdvancedInjectsStep(ledger: seq<Advance>, a: Advance, c: Context)
    ensures AdvancedInjects(ledger + [a], c) == AdvancedInjects(ledger, c) + if a.context == c then {a.inject} else {}
  {
    var longer := ledger + [a];
    forall x | x in AdvancedInjects(ledger, c) ensures x in AdvancedInjects(longer, c) {
      var k :| 0 <= k < |ledger| && ledger[k].context == c && ledger[k].inject == x;
      assert longer[k] == ledger[k];
    }
    if a.context == c { assert longer[|ledger|] == a; }
  }

  lemma {:induction false} DistinctEntriesCount(ledger: seq<Advance>, c: Context)
    requires forall i, j | 0 <= i < j < |ledger| ::
      ledger[i].inject != ledger[j].inject || ledger[i].context != ledger[j].context
    ensures |AdvancedInjects(ledger, c)| == AdvanceCount(ledger, c)
  {
    if ledger != [] {
      var n := |ledger| - 1;
      var rest := ledger[..n];
      DistinctEntriesCount(rest, c);
      assert ledger == rest + [ledger[n]];
      AdvancedInjectsStep(rest, ledger[n], c);
      assert ledger[n].context == c ==> ledger[n].inject !in AdvancedInjects(rest, c);
    }
  }

  lemma ReachedLedger(def: Definition, start: int, steps: seq<Timed>)
    ensures var b := Execute(Created(def, start), steps); LedgerInv(b) && b.def == def
  {
    CreatedSatisfies(def, start);
    SeedInjectsPending(def.injects);
    ExecutionKeeps(Created(def, start), steps);
    ExecutionKeepsLedger(Created(def, start), steps);
  }

  lemma LedgerCounts(b: Board, c: Context)
    requires LedgerInv(b)
    ensures AdvanceCount(b.advances, c) == |ResolvedInjects(b, c)|
    ensures forall id :: Entered(b.advances, id, c) <==> Moves(b, id, c)
  {
    hide Chosen, Position;
    DistinctEntriesCount(b.advances, c);
    assert AdvancedInjects(b.advances, c) == ResolvedInjects(b, c);
  }

  /** Over any run: one move per resolved scenario row, no move without one, each to where the recorded
      selection of its first response leads, and every cursor where its context's last move left it. */
  lemma CursorConservation(def: Definition, start: int, steps: seq<Timed>, c: Context)
    ensures var b := Execute(Created(def, start), steps);
            && EntriesDistinct(b)
            && AdvanceCount(b.advances, c) == |ResolvedInjects(b, c)|
            && (forall id :: Entered(b.advances, id, c) <==> Moves(b, id, c))
            && (c in b.cursors ==> b.cursors[c] == Position(def, b.advances, c))
            && (forall k | 0 <= k < |b.advances| ::
                  var a := b.advances[k];
                  Moves(b, a.inject, a.context)
                  && forall t :: a.target == Some(t) <==> Chose(b, a.inject, a.context, t))
  {
    ReachedLedger(def, start, steps);
    var b := Execute(Created(def, start), steps);
    LedgerCounts(b, c);
    hide Execute, EntriesDistinct, MovesEntered, CursorsFollow, Chose, Chosen, Position, ResolvedInjects;
    forall k | 0 <= k < |b.advances|
      ensures Moves(b, b.advances[k].inject, b.advances[k].context)
      ensures forall t :: b.advances[k].target == Some(t) <==> Chose(b, b.advances[k].inject, b.advances[k].context, t)
    {
      var a := b.advances[k];
      forall t ensures a.target == Some(t) <==> Chose(b, a.inject, a.context, t) {
        ChosenIsChose(b, a.inject, a.context, t);
      }
    }
  }

  /** The path a response is for: the one it names, unless blank, else the inject's own. */
  ghost predicate IsPath(inject: Inject, group: Context, c: Context) {
    (group.Some? && group.value != "" && c == group) || ((group.None? || group.value == "") && c == inject.group)
  }

  /** A response is recorded as given. It moves its path's cursor exactly when it is the first of an
      eligible path, on an inject whose scenario node is not null, and moves it to where its selection
      leads - a blank node id counts as a node, and leaves the cursor at a dead end. No other cursor
      moves. */
  lemma CursorMovesExactlyWhen(b: Board, id: int, user: int, group: Context, selected: Option<string>, c: Context)
    requires Inv(b) && SubmitResponse(b, id, user, group, selected).Ok? && IsPath(b.injects[id], group, c)
    ensures var b' := SubmitResponse(b, id, user, group, selected).value;
            var first := Eligible(b.injects[id], b.members, c) && !Resolves(b, id, c);
            && user in Answers(b', id) && Answers(b', id)[user] == Response(group, selected, b.now)
            && (b'.cursors != b.cursors <==> first && b.injects[id].node.Some?)
            && (first && b.injects[id].node.Some? ==>
                  && c in b'.cursors && b'.cursors[c].inject == Some(id)
                  && (forall d | d != c ::
                         (d in b'.cursors <==> d in b.cursors) && (d in b.cursors ==> b'.cursors[d] == b.cursors[d]))
                  && forall t :: b'.cursors[c].node == Some(t)
                                 <==> b.injects[id].node.value != "" && Takes(b.def, b.injects[id].node.value, selected, t))
  {
    ResponseIsRecorded(b, id, user, group, selected);
    CursorMoves(b, id, user, group, selected);
    AudienceExactlyWhen(b.injects[id], b.members);
    TargetExactlyWhen(b.def, b.injects[id].node, selected);
    hide Inv, SubmitResponse, Eligible, Takes, ResponseTarget;
  }

  lemma TargetExactlyWhen(def: Definition, node: Option<string>, selected: Option<string>)
    ensures forall t :: ResponseTarget(def, node, selected) == Some(t)
                        <==> node.Some? && node.value != "" && Takes(def, node.value, selected, t)
  {
    forall t ensures ResponseTarget(def, node, selected) == Some(t)
                     <==> node.Some? && node.value != "" && Takes(def, node.value, selected, t)
    {
      if node.Some? { NextNodeExactlyWhen(def, node.value, selected, t); }
    }
  }

  lemma ResponseIsRecorded(b: Board, id: int, user: int, group: Context, selected: Option<string>)
    requires SubmitResponse(b, id, user, group, selected).Ok?
    ensures var b' := SubmitResponse(b, id, user, group, selected).value;
            user in Answers(b', id) && Answers(b', id)[user] == Response(group, selected, b.now)
  {
    hide Audience, SeedRows, ResponseTarget, RowsComplete;
  }

  lemma CursorMoves(b: Board, id: int, user: int, group: Context, selected: Option<string>)
    requires Inv(b) && SubmitResponse(b, id, user, group, selected).Ok?
    ensures var b' := SubmitResponse(b, id, user, group, selected).value;
            var c := ResponseContext(b.injects[id], group);
            var first := c in Audience(b.injects[id], b.members) && !Resolves(b, id, c);
            && (b'.cursors != b.cursors <==> first && b.injects[id].node.Some?)
            && (first && b.injects[id].node.Some? ==>
                  b'.cursors == b.cursors[c := Cursor(ResponseTarget(b.def, b.injects[id].node, selected), Some(id))])
  {
    var recorded := RecordResponse(b, id, user, group, selected);
    RecordKeeps(b, id, user, group, selected);
    ReseedingAddsNothing(recorded, id);
    var c := ResponseContext(b.injects[id], group);
    assert Rows(b, id).Keys == Audience(b.injects[id], b.members) by {
      assert InjectInv(b.injects[id], Rows(b, id), Answers(b, id), b.members, b.now);
    }
    if c in b.cursors && b.cursors[c].inject == Some(id) { assert CursorPlaced(b, c); }
    hide Inv, Audience, SeedRows, NextNode, CursorPlaced, RowsComplete;
  }
}
