/** Why an inject could be released, over whole runs: provenance, and branches nobody chose. */
module Provenance {
  import opened Wrappers
  import opened Scenario
  import opened Progression
  import opened ProgressionInvariants

  /** One resolution that moved a cursor: which inject, in which context. */
  datatype Hop = Hop(inject: int, context: Context)

  /** Where a path may begin: the start node, or a node no branch links to. */
  ghost predicate Origin(def: Definition, node: string) {
    node == def.start || !ReferencedNode(def, node)
  }

  ghost predicate OnScenario(b: Board, id: int) {
    id in b.injects && !Ungated(b.injects[id])
  }

  /** The hop's context resolved its inject no later than `deadline`, and the recorded selection of its
      first response leads from that inject's node to `node`. */
  ghost predicate HopLeadsTo(b: Board, h: Hop, node: Option<string>, deadline: int) {
    && Opened(b, h.inject) && OnScenario(b, h.inject)
    && node.Some? && Chose(b, h.inject, h.context, node.value)
    && Rows(b, h.inject)[h.context].at <= deadline
  }

  /** `path` runs from an origin to the inject, each hop resolved before the next release. */
  ghost predicate HasPath(b: Board, id: int, path: seq<Hop>)
    decreases |path|
  {
    && Opened(b, id) && OnScenario(b, id) && b.injects[id].releasedAt.Some?
    && if path == [] then Origin(b.def, b.injects[id].node.value)
       else
         var h := path[|path| - 1];
         && HopLeadsTo(b, h, b.injects[id].node, b.injects[id].releasedAt.value)
         && HasPath(b, h.inject, path[..|path| - 1])
  }

  ghost predicate AllHavePaths(b: Board) {
    forall id | Opened(b, id) && OnScenario(b, id) :: exists path :: HasPath(b, id, path)
  }

  lemma HopIsPermanent(b: Board, b': Board, h: Hop, node: Option<string>, deadline: int)
    requires Inv(b) && Extends(b, b') && HopLeadsTo(b, h, node, deadline)
    ensures HopLeadsTo(b', h, node, deadline)
  {
    ChoiceIsPermanent(b, b', h.inject, h.context);
    ChosenIsChose(b, h.inject, h.context, node.value);
    ChosenIsChose(b', h.inject, h.context, node.value);
    assert SameRelease(b.injects[h.inject], b'.injects[h.inject]);
  }

  lemma {:induction false} PathIsPermanent(b: Board, b': Board, id: int, path: seq<Hop>)
    requires Inv(b) && Extends(b, b') && HasPath(b, id, path)
    ensures HasPath(b', id, path)
    decreases |path|
  {
    assert SameRelease(b.injects[id], b'.injects[id]);
    if path != [] {
      var h := path[|path| - 1];
      HopIsPermanent(b, b', h, b.injects[id].node, b.injects[id].releasedAt.value);
      PathIsPermanent(b, b', h.inject, path[..|path| - 1]);
    }
  }

  lemma PathGrows(b: Board, b': Board, id: int, h: Hop, path: seq<Hop>)
    requires Inv(b) && Extends(b, b')
    requires Opened(b', id) && OnScenario(b', id) && b'.injects[id].releasedAt.Some?
    requires HopLeadsTo(b, h, b'.injects[id].node, b'.injects[id].releasedAt.value) && HasPath(b, h.inject, path)
    ensures HasPath(b', id, path + [h])
  {
    HopIsPermanent(b, b', h, b'.injects[id].node, b'.injects[id].releasedAt.value);
    PathIsPermanent(b, b', h.inject, path);
    var whole := path + [h];
    assert whole[..|whole| - 1] == path && whole[|whole| - 1] == h;
  }

  /** A cursor standing on a node got there along a path that ends at that node. */
  lemma CursorHasReason(b: Board, c: Context, node: string)
    requires Inv(b) && c in b.cursors && b.cursors[c].node == Some(node)
    ensures node == b.def.start
            || exists p :: HopLeadsTo(b, Hop(p, c), Some(node), b.now)
  {
    assert CursorPlaced(b, c);
    match b.cursors[c].inject
    case None =>
    case Some(p) =>
      assert InjectInv(b.injects[p], Rows(b, p), Answers(b, p), b.members, b.now);
      ChosenIsChose(b, p, c, node);
      assert HopLeadsTo(b, Hop(p, c), Some(node), b.now);
  }

  /** Extending the path of the inject that moved the cursor here. */
  lemma ReachedHasPath(b: Board, b': Board, id: int, h: Hop)
    requires Inv(b) && AllHavePaths(b) && Extends(b, b')
    requires Opened(b', id) && OnScenario(b', id) && b'.injects[id].releasedAt.Some?
    requires HopLeadsTo(b, h, b'.injects[id].node, b'.injects[id].releasedAt.value)
    ensures exists path :: HasPath(b', id, path)
  {
    var path :| HasPath(b, h.inject, path);
    PathGrows(b, b', id, h, path);
  }

  lemma ReleaseHasPath(b: Board, id: int, actor: Option<int>, scheduled: bool)
    requires Inv(b) && AllHavePaths(b) && ReleaseInject(b, id, actor, scheduled).Ok? && OnScenario(b, id)
    ensures exists path :: HasPath(ReleaseInject(b, id, actor, scheduled).value, id, path)
  {
    var b' := ReleaseInject(b, id, actor, scheduled).value;
    var node := b.injects[id].node.value;
    ReleaseKeeps(b, id, actor, scheduled);
    assert Opened(b', id) && OnScenario(b', id) && b'.injects[id].node == b.injects[id].node;
    if node == b.def.start {
      assert HasPath(b', id, []);
    } else if c :| c in b.cursors && b.cursors[c].node == Some(node) {
      CursorHasReason(b, c, node);
      var p :| HopLeadsTo(b, Hop(p, c), Some(node), b.now);
      ReachedHasPath(b, b', id, Hop(p, c));
    } else {
      ReferencedCharacterised(b.def, node);
      assert None in b.cursors;
      assert HasPath(b', id, []);
    }
  }

  /** Only a release opens an inject. */
  lemma OnlyReleaseOpens(b: Board, step: Step, id: int)
    requires Inv(b) && Opened(Commit(b, step), id) && !Opened(b, id)
    ensures step.Release? && step.inject == id && Attempt(b, step).Ok?
  {
  }

  lemma CommitKeepsPaths(b: Board, step: Step)
    requires Inv(b) && AllHavePaths(b)
    ensures AllHavePaths(Commit(b, step))
  {
    var b' := Commit(b, step);
    CommitKeeps(b, step);
    forall id | Opened(b', id) && OnScenario(b', id)
      ensures exists path :: HasPath(b', id, path)
    {
      if Opened(b, id) {
        var path :| HasPath(b, id, path);
        PathIsPermanent(b, b', id, path);
      } else {
        OnlyReleaseOpens(b, step, id);
        ReleaseHasPath(b, id, step.actor, step.scheduled);
      }
    }
  }

  lemma {:induction false} ExecutionKeepsPaths(b: Board, steps: seq<Timed>)
    requires Inv(b) && AllHavePaths(b)
    ensures AllHavePaths(Execute(b, steps))
  {
    if steps != [] {
      var n := |steps| - 1;
      var before := Execute(b, steps[..n]);
      ExecutionKeeps(b, steps[..n]);
      ExecutionKeepsPaths(b, steps[..n]);
      var ticked := Tick(before, steps[n].dt);
      TickKeeps(before, steps[n].dt);
      forall id | Opened(ticked, id) && OnScenario(ticked, id)
        ensures exists path :: HasPath(ticked, id, path)
      {
        assert Opened(before, id) && OnScenario(before, id);
        var path :| HasPath(before, id, path);
        PathIsPermanent(before, ticked, id, path);
      }
      CommitKeepsPaths(ticked, steps[n].step);
    }
  }

  // ── Length ────────────────────────────────────────────────────────────────

  ghost function NodesOnPath(b: Board, id: int, path: seq<Hop>): set<string>
    requires HasPath(b, id, path)
    decreases |path|
  {
    {b.injects[id].node.value}
    + if path == [] then {} else NodesOnPath(b, path[|path| - 1].inject, path[..|path| - 1])
  }

  lemma HopFollowsAnEdge(b: Board, h: Hop, node: string, deadline: int)
    requires HopLeadsTo(b, h, Some(node), deadline)
    ensures Edge(b.def, b.injects[h.inject].node.value, node) && b.injects[h.inject].node.value in Ids(b.def)
  {
    var row := Rows(b, h.inject)[h.context];
    var selected := Answers(b, h.inject)[row.actor].selected;
    NextNodeExactlyWhen(b.def, b.injects[h.inject].node.value, selected, node);
    NextNodeFollowsAnEdge(b.def, b.injects[h.inject].node.value, selected);
  }

  lemma {:induction false} PathClimbs(b: Board, id: int, path: seq<Hop>, rank: map<string, int>)
    requires Ranks(b.def, rank) && HasPath(b, id, path)
    requires b.injects[id].node.value in Ids(b.def)
    ensures |NodesOnPath(b, id, path)| == |path| + 1
    ensures NodesOnPath(b, id, path) <= Ids(b.def)
    ensures forall n | n in NodesOnPath(b, id, path) :: rank[n] <= rank[b.injects[id].node.value]
    decreases |path|
  {
    if path != [] {
      var h := path[|path| - 1];
      var source := b.injects[h.inject].node.value;
      HopFollowsAnEdge(b, h, b.injects[id].node.value, b.injects[id].releasedAt.value);
      PathClimbs(b, h.inject, path[..|path| - 1], rank);
      assert rank[source] < rank[b.injects[id].node.value];
      var below := NodesOnPath(b, h.inject, path[..|path| - 1]);
      assert b.injects[id].node.value !in below;
    }
  }

  lemma {:induction false} PrefixIdsAreFew(nodes: seq<Node>, k: nat)
    requires k <= |nodes|
    ensures |set n | 0 <= n < k :: nodes[n].id| <= k
  {
    if k > 0 {
      PrefixIdsAreFew(nodes, k - 1);
      assert (set n | 0 <= n < k :: nodes[n].id) == (set n | 0 <= n < k - 1 :: nodes[n].id) + {nodes[k - 1].id};
    }
  }

  lemma {:induction false} SubsetIsSmaller<T>(a: set<T>, b: set<T>)
    requires a <= b
    ensures |a| <= |b|
  {
    if a != {} {
      var x :| x in a;
      SubsetIsSmaller(a - {x}, b - {x});
    }
  }

  lemma PathIsShort(b: Board, id: int, path: seq<Hop>)
    requires Valid(b.def) && HasPath(b, id, path)
    ensures |path| < |b.def.injects|
  {
    if path != [] {
      var h := path[|path| - 1];
      HopFollowsAnEdge(b, h, b.injects[id].node.value, b.injects[id].releasedAt.value);
      var rank :| Ranks(b.def, rank);
      PathClimbs(b, id, path, rank);
      PrefixIdsAreFew(b.def.injects, |b.def.injects|);
      SubsetIsSmaller(NodesOnPath(b, id, path), Ids(b.def));
    }
  }

  // ── Main results ──────────────────────────────────────────────────────────

  /** Every scenario inject a run has released lies at the end of a chosen path from an origin,
      no longer than the graph allows. */
  lemma BranchProvenance(def: Definition, start: int, steps: seq<Timed>, id: int)
    requires Valid(def)
    requires var b := Execute(Created(def, start), steps); Opened(b, id) && OnScenario(b, id)
    ensures var b := Execute(Created(def, start), steps);
            exists path :: HasPath(b, id, path) && |path| < |def.injects|
  {
    var b := Execute(Created(def, start), steps);
    CreatedSatisfies(def, start);
    SeedInjectsPending(def.injects);
    ExecutionKeeps(Created(def, start), steps);
    ExecutionKeepsPaths(Created(def, start), steps);
    var path :| HasPath(b, id, path);
    PathIsShort(b, id, path);
  }

  /** Every audience context of node p has resolved it, and none of the first responses leads to m. */
  ghost predicate NobodyChose(b: Board, p: string, m: string) {
    forall q | q in b.injects && b.injects[q].node == Some(p) ::
      && Opened(b, q)
      && forall c | c in Audience(b.injects[q], b.members) :: Resolves(b, q, c) && !Chose(b, q, c, m)
  }

  /** Only p links to m, and a run does not begin there. */
  ghost predicate OnlyBranch(def: Definition, p: string, m: string) {
    && m != "" && m != def.start && ReferencedNode(def, m)
    && forall a | Edge(def, a, m) :: a == p
  }

  ghost predicate NoNewInjectOf(b: Board, b': Board, p: string) {
    forall q | q in b'.injects && b'.injects[q].node == Some(p) :: q in b.injects && b.injects[q].node == Some(p)
  }

  lemma NoHopToUnchosen(b: Board, b': Board, p: string, m: string, h: Hop, deadline: int)
    requires Inv(b) && Inv(b') && Extends(b, b')
    requires OnlyBranch(b.def, p, m) && NobodyChose(b, p, m) && NoNewInjectOf(b, b', p)
    ensures !HopLeadsTo(b', h, Some(m), deadline)
  {
    if HopLeadsTo(b', h, Some(m), deadline) {
      HopFollowsAnEdge(b', h, m, deadline);
      assert b.injects[h.inject].node == Some(p);
      assert InjectInv(b.injects[h.inject], Rows(b, h.inject), Answers(b, h.inject), b.members, b.now);
      assert h.context in Rows(b, h.inject);
      ChoiceIsPermanent(b, b', h.inject, h.context);
      ChosenIsChose(b, h.inject, h.context, m);
      ChosenIsChose(b', h.inject, h.context, m);
      assert false;
    }
  }

  /** Once a branch is passed over by everyone, no continuation opens it, by hand or on schedule. */
  lemma UnchosenBranchesStayDead(def: Definition, start: int, steps: seq<Timed>, more: seq<Timed>,
                                 p: string, m: string, q: int, scheduled: bool)
    requires OnlyBranch(def, p, m)
    requires var b := Execute(Created(def, start), steps);
             NobodyChose(b, p, m) && NoNewInjectOf(b, Execute(b, more), p)
    requires var b' := Execute(Execute(Created(def, start), steps), more);
             q in b'.injects && b'.injects[q].node == Some(m)
    ensures var b' := Execute(Execute(Created(def, start), steps), more);
            b'.injects[q].state == Pending && !ReleaseIsAllowed(b', b'.injects[q], scheduled)
  {
    var origin := Created(def, start);
    var b := Execute(origin, steps);
    var b' := Execute(b, more);
    CreatedSatisfies(def, start);
    SeedInjectsPending(def.injects);
    ExecutionKeeps(origin, steps);
    ExecutionKeeps(b, more);
    ExecutionKeepsPaths(origin, steps);
    ExecutionKeepsPaths(b, more);
    ReferencedCharacterised(def, m);
    if Opened(b', q) {
      var path :| HasPath(b', q, path);
      if path != [] {
        NoHopToUnchosen(b, b', p, m, path[|path| - 1], b'.injects[q].releasedAt.value);
      }
      assert false;
    }
    if c :| c in b'.cursors && b'.cursors[c].node == Some(m) {
      CursorHasReason(b', c, m);
      var p' :| HopLeadsTo(b', Hop(p', c), Some(m), b'.now);
      NoHopToUnchosen(b, b', p, m, Hop(p', c), b'.now);
      assert false;
    }
    assert None in b'.cursors;
  }

  /** The rows of an opened inject are the groups of the participants it is meant for, under today's
      roster; it never closes again to `pending` or disappears, and neither its audience nor its
      resolutions ever change. */
  lemma AudienceIsImmutable(def: Definition, start: int, steps: seq<Timed>, more: seq<Timed>, id: int)
    requires Opened(Execute(Created(def, start), steps), id)
    ensures var b := Execute(Created(def, start), steps);
            var b' := Execute(b, more);
            && Rows(b, id).Keys == Audience(b.injects[id], b.members) != {}
            && Opened(b', id)
            && Rows(b', id).Keys == Audience(b'.injects[id], b'.members) == Rows(b, id).Keys
            && (forall c :: c in Rows(b', id) <==> Eligible(b'.injects[id], b'.members, c))
            && (forall c | Resolves(b, id, c) :: Rows(b', id)[c] == Rows(b, id)[c])
  {
    var origin := Created(def, start);
    var b := Execute(origin, steps);
    var b' := Execute(b, more);
    CreatedSatisfies(def, start);
    ExecutionKeeps(origin, steps);
    ExecutionKeeps(b, more);
    assert InjectInv(b.injects[id], Rows(b, id), Answers(b, id), b.members, b.now);
    assert InjectInv(b'.injects[id], Rows(b', id), Answers(b', id), b'.members, b'.now);
    AudienceExactlyWhen(b'.injects[id], b'.members);
    hide Execute, Eligible, Inv;
  }
}
