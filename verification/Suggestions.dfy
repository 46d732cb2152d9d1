/** Which pending injects a response suggests next: for a whole list of responses at once, and row by
    row. */
module Suggestions {
  import opened Filtering
  import opened Progression
  import opened Scenario
  import opened Wrappers

  /** A stored response as the dashboard lists it. */
  datatype Listed = Listed(id: int, inject: int, group: Context, selected: Option<string>)

  /** A group-scoped inject matches its own group; a targeted one, the groups it names. */
  predicate MatchesGroup(inject: Inject, group: Context) {
    if inject.group.Some? then group == inject.group
    else if inject.targets != [] then group.Some? && group.value in inject.targets
    else true
  }

  predicate Suggested(b: Board, nodes: seq<string>, group: Context, id: int) {
    && id in b.injects && b.injects[id].node.Some? && b.injects[id].node.value in nodes
    && MatchesGroup(b.injects[id], group)
  }

  /** The loaded pending injects that the branch result and the group select, in load order. At most one
      node is ever opened, so ordering by node keeps that order. */
  function SelectNext(b: Board, pending: seq<int>, nodes: seq<string>, group: Context): seq<int> {
    if nodes == [] then [] else Where((id: int) => Suggested(b, nodes, group, id), pending)
  }

  function PendingOf(b: Board, rows: seq<int>): seq<int> {
    Where((id: int) => id in b.injects && b.injects[id].state == Pending, rows)
  }

  /** The successors a stored response opened. */
  function OpenedBy(b: Board, response: Listed): seq<string> {
    if response.inject !in b.injects || Ungated(b.injects[response.inject]) then []
    else ResponseNextInjectIds(b.def, b.injects[response.inject].node.value, response.selected)
  }

  /** One response's suggestions, with its own queries. */
  function SuggestionsFor(b: Board, rows: seq<int>, response: Listed): seq<int> {
    SelectNext(b, PendingOf(b, rows), OpenedBy(b, response), response.group)
  }

  /** All of them from one load of the injects. */
  method SuggestionsBulk(b: Board, rows: seq<int>, responses: seq<Listed>) returns (suggestions: map<int, seq<int>>)
    requires forall i, j | 0 <= i < j < |responses| :: responses[i].id != responses[j].id
    ensures suggestions.Keys == set r | r in responses :: r.id
    ensures forall r | r in responses :: suggestions[r.id] == SuggestionsFor(b, rows, r)
  {
    var pending := PendingOf(b, rows);
    suggestions := map[];
    for i := 0 to |responses|
      invariant suggestions.Keys == set r | r in responses[..i] :: r.id
      invariant forall k | 0 <= k < i :: responses[k].id in suggestions
                                         && suggestions[responses[k].id] == SuggestionsFor(b, rows, responses[k])
    {
      var response := responses[i];
      assert responses[..i + 1] == responses[..i] + [response];
      if response.inject !in b.injects || Ungated(b.injects[response.inject]) {
        suggestions := suggestions[response.id := []];
        continue;
      }
      var nodes := ResponseNextInjectIds(b.def, b.injects[response.inject].node.value, response.selected);
      suggestions := suggestions[response.id := SelectNext(b, pending, nodes, response.group)];
    }
    assert responses[..|responses|] == responses;
  }

  /** A response that moved its context's cursor suggests only injects its gate would now let out, each
      pending, at the chosen successor, and open to the responder's group. */
  lemma SuggestionsAreReleasable(b: Board, id: int, user: int, group: Context, selected: Option<string>,
                                 rows: seq<int>, response: int, q: int)
    requires SubmitResponse(b, id, user, group, selected).Ok?
    requires var b' := SubmitResponse(b, id, user, group, selected).value;
             && |b'.advances| > |b.advances|
             && q in SuggestionsFor(b', rows, Listed(response, id, group, selected))
    ensures var b' := SubmitResponse(b, id, user, group, selected).value;
            && q in b'.injects && b'.injects[q].state == Pending && MatchesGroup(b'.injects[q], group)
            && b'.injects[q].node == ResponseTarget(b.def, b.injects[id].node, selected)
            && ReleaseIsAllowed(b', b'.injects[q], false) && ReleaseIsAllowed(b', b'.injects[q], true)
  {
    var b' := SubmitResponse(b, id, user, group, selected).value;
    var context := ResponseContext(b.injects[id], group);
    var listed := Listed(response, id, group, selected);
    var nodes := OpenedBy(b', listed);
    MovedCursor(b, id, user, group, selected);
    NextNodeFollowsAnEdge(b.def, b.injects[id].node.GetOr(""), selected);
    WhereKeeps((i: int) => Suggested(b', nodes, group, i), PendingOf(b', rows));
    WhereKeeps((i: int) => i in b'.injects && b'.injects[i].state == Pending, rows);
    assert |nodes| == 1 && nodes[0] == b'.injects[q].node.value;
    assert b'.cursors[context].node == b'.injects[q].node;
  }

  /** A response suggests exactly the loaded injects that are pending, on the node its selection leads to,
      and open to the responder's group: the group's own, one of those targeted, or everyone's. */
  lemma SuggestedExactlyWhen(b: Board, rows: seq<int>, response: Listed, q: int)
    ensures q in SuggestionsFor(b, rows, response)
            <==> && q in rows && q in b.injects && b.injects[q].state == Pending && b.injects[q].node.Some?
                 && response.inject in b.injects && !Ungated(b.injects[response.inject])
                 && Takes(b.def, b.injects[response.inject].node.value, response.selected, b.injects[q].node.value)
                 && (b.injects[q].group.Some? ==> response.group == b.injects[q].group)
                 && (b.injects[q].group.None? && b.injects[q].targets != [] ==>
                       response.group.Some? && response.group.value in b.injects[q].targets)
  {
    hide Takes, ResponseNextInjectIds;
    var pending := (i: int) => i in b.injects && b.injects[i].state == Pending;
    var nodes := OpenedBy(b, response);
    var suggested := (i: int) => Suggested(b, nodes, response.group, i);
    WhereKeeps(pending, rows);
    WhereKeeps(suggested, PendingOf(b, rows));
    if q in rows && pending(q) {
      WhereFinds(pending, rows, q);
      if suggested(q) { WhereFinds(suggested, PendingOf(b, rows), q); }
    }
    if response.inject in b.injects && !Ungated(b.injects[response.inject]) {
      var source := b.injects[response.inject].node.value;
      NextNodeFollowsAnEdge(b.def, source, response.selected);
      if q in b.injects && b.injects[q].node.Some? {
        NextNodeExactlyWhen(b.def, source, response.selected, b.injects[q].node.value);
      }
    }
  }

  lemma MovedCursor(b: Board, id: int, user: int, group: Context, selected: Option<string>)
    requires SubmitResponse(b, id, user, group, selected).Ok?
    requires |SubmitResponse(b, id, user, group, selected).value.advances| > |b.advances|
    ensures var b' := SubmitResponse(b, id, user, group, selected).value;
            var context := ResponseContext(b.injects[id], group);
            && b'.def == b.def && id in b'.injects && b'.injects[id].node == b.injects[id].node
            && context in b'.cursors
            && b'.cursors[context] == Cursor(ResponseTarget(b.def, b.injects[id].node, selected), Some(id))
  {
  }
}
