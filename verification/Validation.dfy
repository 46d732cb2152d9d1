/** The structural validator every stored scenario has passed. */
module Validation {
  import opened Scenario
  import opened Wrappers

  const MAX_INJECTS := 5000

  datatype Fault =
    | TooManyInjects | DuplicateInject | DuplicateTeam | UnknownStart | UnknownTargetTeam
    | UnknownSuccessor | DuplicateOption | Cycle

  ghost predicate Unique(s: seq<string>) {
    forall i, j | 0 <= i < j < |s| :: s[i] != s[j]
  }

  function IdsOf(nodes: seq<Node>): seq<string> {
    seq(|nodes|, i requires 0 <= i < |nodes| => nodes[i].id)
  }

  function OptionIds(options: seq<InjectOption>): seq<string> {
    seq(|options|, i requires 0 <= i < |options| => options[i].id)
  }

  method CollectUnique(s: seq<string>) returns (unique: bool, elements: set<string>)
    ensures unique <==> Unique(s)
    ensures unique ==> elements == set x | x in s
  {
    elements := {};
    for i := 0 to |s|
      invariant Unique(s[..i]) && elements == set x | x in s[..i]
    {
      assert s[..i + 1] == s[..i] + [s[i]];
      if s[i] in elements {
        assert !Unique(s) by {
          var j :| 0 <= j < i && s[j] == s[i];
        }
        return false, {};
      }
      elements := elements + {s[i]};
    }
    assert s[..|s|] == s;
    unique := true;
  }

  ghost predicate TargetsKnown(node: Node, teams: set<string>) {
    forall t | t in node.targetTeams :: t in teams
  }

  ghost predicate SuccessorsKnown(node: Node, ids: set<string>) {
    && (node.next.Some? ==> node.next.value in ids)
    && (forall k | 0 <= k < |node.options| && node.options[k].next.Some? :: node.options[k].next.value in ids)
  }

  method CheckNode(node: Node, teams: set<string>, ids: set<string>) returns (fault: Option<Fault>)
    ensures fault.None? <==>
              TargetsKnown(node, teams) && SuccessorsKnown(node, ids) && Unique(OptionIds(node.options))
  {
    for i := 0 to |node.targetTeams|
      invariant forall k | 0 <= k < i :: node.targetTeams[k] in teams
    {
      if node.targetTeams[i] !in teams {
        return Some(UnknownTargetTeam);
      }
    }
    if node.next.Some? && node.next.value !in ids {
      return Some(UnknownSuccessor);
    }
    var unique, _ := CollectUnique(OptionIds(node.options));
    if !unique {
      return Some(DuplicateOption);
    }
    for i := 0 to |node.options|
      invariant forall k | 0 <= k < i && node.options[k].next.Some? :: node.options[k].next.value in ids
    {
      if node.options[i].next.Some? && node.options[i].next.value !in ids {
        return Some(UnknownSuccessor);
      }
    }
    return None;
  }

  ghost predicate NodeValid(def: Definition, node: Node) {
    TargetsKnown(node, set t | t in def.teams) && SuccessorsKnown(node, Ids(def)) && Unique(OptionIds(node.options))
  }

  lemma ValidNodeByNode(def: Definition)
    ensures Valid(def) <==>
              && Unique(IdsOf(def.injects)) && Unique(def.teams) && def.start in Ids(def)
              && (forall n | 0 <= n < |def.injects| :: NodeValid(def, def.injects[n]))
              && Acyclic(def)
  {
    if Valid(def) {
      forall n | 0 <= n < |def.injects| ensures NodeValid(def, def.injects[n]) {
        ValidNode(def, n);
      }
    }
    if forall n | 0 <= n < |def.injects| :: NodeValid(def, def.injects[n]) {
      forall n | 0 <= n < |def.injects|
        ensures forall i, j | 0 <= i < j < |def.injects[n].options| :: def.injects[n].options[i].id != def.injects[n].options[j].id
      {
        OptionsOf(def.injects[n].options);
        assert NodeValid(def, def.injects[n]);
      }
      forall a, b | Edge(def, a, b) ensures b in Ids(def) {
        var n :| 0 <= n < |def.injects| && def.injects[n].id == a && LeadsTo(def.injects[n], b);
        assert NodeValid(def, def.injects[n]);
      }
    }
    assert Unique(IdsOf(def.injects)) <==>
           forall i, j | 0 <= i < j < |def.injects| :: def.injects[i].id != def.injects[j].id by {
      var ids := IdsOf(def.injects);
      assert forall i | 0 <= i < |ids| :: ids[i] == def.injects[i].id;
    }
  }

  lemma OptionsOf(options: seq<InjectOption>)
    ensures Unique(OptionIds(options)) <==>
              forall i, j | 0 <= i < j < |options| :: options[i].id != options[j].id
  {
    var ids := OptionIds(options);
    assert forall i | 0 <= i < |ids| :: ids[i] == options[i].id;
  }

  lemma ValidNode(def: Definition, n: nat)
    requires Valid(def) && n < |def.injects|
    ensures NodeValid(def, def.injects[n])
  {
    var node := def.injects[n];
    OptionsOf(node.options);
    if node.next.Some? { assert Edge(def, node.id, node.next.value); }
    forall k | 0 <= k < |node.options| && node.options[k].next.Some? ensures node.options[k].next.value in Ids(def) {
      assert OptionLeadsTo(node, node.options[k].next.value);
      assert Edge(def, node.id, node.options[k].next.value);
    }
  }

  /** Accepts exactly the valid definitions of acceptable size; whether the graph has a cycle is asked of
      a topological sorter. */
  method ValidateStructure(def: Definition, sortable: bool) returns (fault: Option<Fault>)
    requires sortable <==> Acyclic(def)
    ensures fault.None? <==> |def.injects| <= 5000 && Valid(def)
  {
    ValidNodeByNode(def);
    if |def.injects| > MAX_INJECTS {
      return Some(TooManyInjects);
    }
    var unique, ids := CollectUnique(IdsOf(def.injects));
    if !unique {
      return Some(DuplicateInject);
    }
    assert ids == Ids(def) by {
      assert forall n | 0 <= n < |def.injects| :: IdsOf(def.injects)[n] == def.injects[n].id;
    }
    var teamsUnique, teams := CollectUnique(def.teams);
    if !teamsUnique {
      return Some(DuplicateTeam);
    }
    if def.start !in ids {
      return Some(UnknownStart);
    }
    for i := 0 to |def.injects|
      invariant forall n | 0 <= n < i :: NodeValid(def, def.injects[n])
    {
      var nodeFault := CheckNode(def.injects[i], teams, ids);
      if nodeFault.Some? {
        return nodeFault;
      }
    }
    if !sortable {
      return Some(Cycle);
    }
    return None;
  }
}
