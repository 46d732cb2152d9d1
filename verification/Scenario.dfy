/** The authored scenario: a graph of inject nodes, validated once when it is stored. */
module Scenario {
  import opened Wrappers

  datatype InjectOption = InjectOption(id: string, caption: string, next: Option<string>)

  datatype Direction = Inbound | Outbound

  datatype TriggerComm = TriggerComm(
    externalEntity: string,
    direction: Direction,
    subject: string,
    body: string,
    delaySeconds: nat)

  datatype Node = Node(
    id: string,
    title: string,
    content: string,
    targetTeams: seq<string>,
    sequenceOrder: int,
    next: Option<string>,
    options: seq<InjectOption>,
    freeText: bool,
    triggers: seq<TriggerComm>,
    releaseAtMinutes: Option<nat>)

  datatype Definition = Definition(
    title: string,
    teams: seq<string>,
    injects: seq<Node>,
    start: string)

  // ── Lookups ───────────────────────────────────────────────────────────────

  /** The first node with the given id. */
  function FindNode(nodes: seq<Node>, id: string): Option<Node> {
    if nodes == [] then None
    else if nodes[0].id == id then Some(nodes[0])
    else FindNode(nodes[1..], id)
  }

  function GetNode(def: Definition, id: string): Option<Node> {
    FindNode(def.injects, id)
  }

  /** Where the first option with the given id leads. */
  function OptionTarget(options: seq<InjectOption>, selected: string): Option<string> {
    if options == [] then None
    else if options[0].id == selected then options[0].next
    else OptionTarget(options[1..], selected)
  }

  function ResolveBranch(def: Definition, id: string, selected: string): Option<string> {
    match GetNode(def, id)
    case None => None
    case Some(node) => OptionTarget(node.options, selected)
  }

  function GetNextInjectIds(def: Definition, id: string): seq<string> {
    match GetNode(def, id)
    case None => []
    case Some(node) =>
      if node.options != [] || node.next.None? then [] else [node.next.value]
  }

  /** The successors one response opens: the chosen branch, or the linear successor. */
  function ResponseNextInjectIds(def: Definition, id: string, selected: Option<string>): seq<string> {
    match GetNode(def, id)
    case None => []
    case Some(node) =>
      if node.options != [] then
        if selected.None? || selected.value == "" then []
        else
          match ResolveBranch(def, id, selected.value)
          case None => []
          case Some(next) => if next == "" then [] else [next]
      else if selected.Some? then []
      else GetNextInjectIds(def, id)
  }

  /** The node a response moves its context's cursor to; none at a dead end. */
  function NextNode(def: Definition, id: string, selected: Option<string>): Option<string> {
    var ids := ResponseNextInjectIds(def, id, selected);
    if |ids| == 1 then Some(ids[0]) else None
  }

  // ── The graph ─────────────────────────────────────────────────────────────

  ghost predicate OptionLeadsTo(node: Node, target: string) {
    exists k :: 0 <= k < |node.options| && node.options[k].next == Some(target)
  }

  /** node names `target` as a successor, linearly or through an option. */
  ghost predicate LeadsTo(node: Node, target: string) {
    node.next == Some(target) || OptionLeadsTo(node, target)
  }

  /** Some node named `source` has an edge to `target`. */
  ghost predicate Edge(def: Definition, source: string, target: string) {
    exists n :: 0 <= n < |def.injects| && def.injects[n].id == source && LeadsTo(def.injects[n], target)
  }

  /** Some branch links to the node. */
  ghost predicate ReferencedNode(def: Definition, id: string) {
    exists n :: 0 <= n < |def.injects| && LeadsTo(def.injects[n], id)
  }

  function OptionTargets(options: seq<InjectOption>): set<string> {
    set k | 0 <= k < |options| && options[k].next.Some? :: options[k].next.value
  }

  function Successors(node: Node): set<string> {
    (if node.next.Some? then {node.next.value} else {}) + OptionTargets(node.options)
  }

  /** The ids some node links to, collected node by node. */
  function ReferencedIn(nodes: seq<Node>): set<string> {
    if nodes == [] then {} else Successors(nodes[0]) + ReferencedIn(nodes[1..])
  }

  function Referenced(def: Definition): set<string> {
    ReferencedIn(def.injects)
  }

  function Ids(def: Definition): set<string> {
    set n | 0 <= n < |def.injects| :: def.injects[n].id
  }

  /** A rank that grows along every edge exists exactly when the graph has no cycle. */
  ghost predicate Ranks(def: Definition, rank: map<string, int>) {
    && Ids(def) <= rank.Keys
    && forall a, b | Edge(def, a, b) && a in rank && b in rank :: rank[a] < rank[b]
  }

  ghost predicate Acyclic(def: Definition) {
    exists rank :: Ranks(def, rank)
  }

  /** What the structural validator accepts. */
  ghost predicate Valid(def: Definition) {
    && (forall i, j | 0 <= i < j < |def.injects| :: def.injects[i].id != def.injects[j].id)
    && (forall i, j | 0 <= i < j < |def.teams| :: def.teams[i] != def.teams[j])
    && def.start in Ids(def)
    && (forall n, t | 0 <= n < |def.injects| && t in def.injects[n].targetTeams :: t in def.teams)
    && (forall a, b | Edge(def, a, b) :: b in Ids(def))
    && (forall n, i, j | 0 <= n < |def.injects| && 0 <= i < j < |def.injects[n].options| ::
          def.injects[n].options[i].id != def.injects[n].options[j].id)
    && Acyclic(def)
  }

  // ── Facts about the graph ─────────────────────────────────────────────────

  lemma {:induction false} FindNodeCharacterised(nodes: seq<Node>, id: string)
    ensures FindNode(nodes, id).None? <==> forall n | 0 <= n < |nodes| :: nodes[n].id != id
    ensures FindNode(nodes, id).Some? ==>
      exists n :: 0 <= n < |nodes| && nodes[n] == FindNode(nodes, id).value && nodes[n].id == id
                  && forall m | 0 <= m < n :: nodes[m].id != id
  {
    if nodes != [] {
      if nodes[0].id == id {
      } else {
        FindNodeCharacterised(nodes[1..], id);
        assert forall n | 0 <= n < |nodes| - 1 :: nodes[1..][n] == nodes[n + 1];
        if FindNode(nodes[1..], id).Some? {
          var n :| 0 <= n < |nodes| - 1 && nodes[1..][n] == FindNode(nodes[1..], id).value && nodes[1..][n].id == id
                   && forall m | 0 <= m < n :: nodes[1..][m].id != id;
          forall m | 0 <= m < n + 1 ensures nodes[m].id != id {
            if m > 0 { assert nodes[1..][m - 1] == nodes[m]; }
          }
          assert nodes[n + 1] == FindNode(nodes, id).value;
        } else {
          forall n | 0 <= n < |nodes| ensures nodes[n].id != id {
            if n > 0 { assert nodes[1..][n - 1] == nodes[n]; }
          }
        }
      }
    }
  }

  /** The first node with the id. */
  ghost predicate FirstNode(nodes: seq<Node>, id: string, n: nat) {
    n < |nodes| && nodes[n].id == id && forall m | 0 <= m < n :: nodes[m].id != id
  }

  /** The first option with the id. */
  ghost predicate FirstOption(options: seq<InjectOption>, id: string, k: nat) {
    k < |options| && options[k].id == id && forall m | 0 <= m < k :: options[m].id != id
  }

  /** The lookup finds the first option with the id, or none exists. */
  lemma {:induction false} OptionTargetIsAnOption(options: seq<InjectOption>, selected: string)
    ensures (forall k: nat | FirstOption(options, selected, k) :: OptionTarget(options, selected) == options[k].next)
    ensures (forall m | 0 <= m < |options| :: options[m].id != selected) ==> OptionTarget(options, selected) == None
    ensures OptionTarget(options, selected).Some? ==> exists k: nat :: FirstOption(options, selected, k)
  {
    if options != [] && options[0].id != selected {
      var rest := options[1..];
      OptionTargetIsAnOption(rest, selected);
      forall k: nat | FirstOption(options, selected, k) ensures OptionTarget(options, selected) == options[k].next {
        forall m | 0 <= m < k - 1 ensures rest[m].id != selected { assert rest[m] == options[m + 1]; }
        assert FirstOption(rest, selected, k - 1);
      }
      if OptionTarget(rest, selected).Some? {
        var k: nat :| FirstOption(rest, selected, k);
        forall m | 0 <= m < k + 1 ensures options[m].id != selected { if m > 0 { assert rest[m - 1] == options[m]; } }
        assert FirstOption(options, selected, k + 1);
      }
    } else if options != [] {
      assert FirstOption(options, selected, 0);
    }
  }

  lemma {:induction false} ReferencedInCharacterised(nodes: seq<Node>, id: string)
    ensures id in ReferencedIn(nodes) <==> exists n :: 0 <= n < |nodes| && LeadsTo(nodes[n], id)
  {
    if nodes != [] {
      ReferencedInCharacterised(nodes[1..], id);
      assert id in Successors(nodes[0]) <==> LeadsTo(nodes[0], id);
      if n :| 0 <= n < |nodes| && LeadsTo(nodes[n], id) {
        if n > 0 { assert nodes[1..][n - 1] == nodes[n]; }
      }
      if n :| 0 <= n < |nodes[1..]| && LeadsTo(nodes[1..][n], id) {
        assert nodes[n + 1] == nodes[1..][n];
      }
    }
  }

  /** The collected set is exactly the nodes some branch links to. */
  lemma ReferencedCharacterised(def: Definition, id: string)
    ensures id in Referenced(def) <==> ReferencedNode(def, id)
    ensures id in Referenced(def) <==> exists a :: Edge(def, a, id)
  {
    ReferencedInCharacterised(def.injects, id);
    if n :| 0 <= n < |def.injects| && LeadsTo(def.injects[n], id) {
      assert Edge(def, def.injects[n].id, id);
    }
  }

  /** A response only ever moves along an edge the author drew. */
  lemma NextNodeFollowsAnEdge(def: Definition, id: string, selected: Option<string>)
    ensures |ResponseNextInjectIds(def, id, selected)| <= 1
    ensures NextNode(def, id, selected).Some? ==> Edge(def, id, NextNode(def, id, selected).value)
    ensures NextNode(def, id, selected).Some? ==> id in Ids(def)
  {
    FindNodeCharacterised(def.injects, id);
    match GetNode(def, id)
    case None =>
    case Some(node) =>
      var n :| 0 <= n < |def.injects| && def.injects[n] == node && node.id == id;
      if node.options != [] && selected.Some? {
        if ResolveBranch(def, id, selected.value).Some? {
          OptionTargetIsAnOption(node.options, selected.value);
          var k: nat :| FirstOption(node.options, selected.value, k);
        }
      }
  }

  /** The branch a response takes at a node: with options, where the first option of the selected id
      leads; without, and with nothing selected, the linear successor. */
  ghost predicate TakesBranch(node: Node, selected: Option<string>, target: string) {
    if node.options != [] then
      && selected.Some? && selected.value != "" && target != ""
      && exists k: nat :: FirstOption(node.options, selected.value, k) && node.options[k].next == Some(target)
    else selected.None? && node.next == Some(target)
  }

  /** A response with this selection, at the node of this id, leads to the target. */
  ghost predicate Takes(def: Definition, id: string, selected: Option<string>, target: string) {
    exists n: nat :: FirstNode(def.injects, id, n) && TakesBranch(def.injects[n], selected, target)
  }

  lemma FirstNodeIsFound(nodes: seq<Node>, id: string)
    ensures forall n: nat | FirstNode(nodes, id, n) :: FindNode(nodes, id) == Some(nodes[n])
    ensures FindNode(nodes, id).Some? ==> exists n: nat :: FirstNode(nodes, id, n) && FindNode(nodes, id) == Some(nodes[n])
  {
    FindNodeCharacterised(nodes, id);
    if FindNode(nodes, id).Some? {
      var n :| 0 <= n < |nodes| && nodes[n] == FindNode(nodes, id).value && nodes[n].id == id
               && forall m | 0 <= m < n :: nodes[m].id != id;
      assert FirstNode(nodes, id, n);
      forall m: nat | FirstNode(nodes, id, m) ensures FindNode(nodes, id) == Some(nodes[m]) {
        assert m == n;
      }
    }
  }

  lemma NextNodeTakesBranch(def: Definition, id: string, selected: Option<string>, target: string)
    ensures NextNode(def, id, selected) == Some(target)
            <==> GetNode(def, id).Some? && TakesBranch(GetNode(def, id).value, selected, target)
  {
    if GetNode(def, id).Some? && selected.Some? {
      var options := GetNode(def, id).value.options;
      OptionTargetIsAnOption(options, selected.value);
      if OptionTarget(options, selected.value) == Some(target) {
        var k: nat :| FirstOption(options, selected.value, k);
        assert options[k].next == Some(target);
      }
    }
  }

  /** A response leads exactly where its selection says: along the first option with the selected id at
      the first node with the id, or along the linear successor; anywhere else is a dead end. */
  lemma NextNodeExactlyWhen(def: Definition, id: string, selected: Option<string>, target: string)
    ensures NextNode(def, id, selected) == Some(target) <==> Takes(def, id, selected, target)
    ensures ResponseNextInjectIds(def, id, selected) == [target] <==> Takes(def, id, selected, target)
  {
    NextNodeFollowsAnEdge(def, id, selected);
    NextNodeTakesBranch(def, id, selected, target);
    FirstNodeIsFound(def.injects, id);
    hide TakesBranch;
    if Takes(def, id, selected, target) {
      var n: nat :| FirstNode(def.injects, id, n) && TakesBranch(def.injects[n], selected, target);
    }
  }

  /** The linear successor, on its own: none at a node with options. */
  lemma LinearSuccessorExactlyWhen(def: Definition, id: string, target: string)
    ensures |GetNextInjectIds(def, id)| <= 1
    ensures GetNextInjectIds(def, id) == [target]
            <==> exists n: nat :: FirstNode(def.injects, id, n)
                                && def.injects[n].options == [] && def.injects[n].next == Some(target)
  {
    FirstNodeIsFound(def.injects, id);
  }
}
