/** What the transactions of a run do, told in rows alone: when each goes through, and what it changes. */
module Outcomes {
  import opened Wrappers
  import opened Scenario
  import opened Progression
  import opened ProgressionInvariants
  import opened CursorLedger

  // ── The release ───────────────────────────────────────────────────────────

  /** Where the progression stands lets the inject out: it is off the scenario, or some cursor is on its
      node, or no branch links to its node - which a facilitator may use only until the first branch has
      been taken. Before any cursor exists nothing is gated. */
  ghost predicate GateOpen(b: Board, inject: Inject, scheduled: bool) {
    || inject.node.None? || inject.node.value == ""
    || (exists c :: c in b.cursors && b.cursors[c].node == inject.node)
    || (forall c :: c !in b.cursors)
    || ((forall a :: !Edge(b.def, a, inject.node.value))
        && (scheduled || forall c | c in b.cursors :: b.cursors[c].inject.None?))
  }

  lemma GateExactlyWhen(b: Board, inject: Inject, scheduled: bool)
    ensures ReleaseIsAllowed(b, inject, scheduled) <==> GateOpen(b, inject, scheduled)
  {
    if inject.node.Some? { ReferencedCharacterised(b.def, inject.node.value); }
    assert b.cursors.Keys == {} <==> forall c :: c !in b.cursors;
    hide Referenced, ReferencedNode, Edge;
  }

  /** Everything but one inject's row and progress is as it was. */
  ghost predicate OnlyInjectChanged(b: Board, b': Board, id: int) {
    && b'.def == b.def && b'.now == b.now && b'.members == b.members && b'.nextInject == b.nextInject
    && b'.injects.Keys == b.injects.Keys
    && (forall q | q in b.injects && q != id :: b'.injects[q] == b.injects[q])
    && (forall q | q != id :: Rows(b', q) == Rows(b, q) && Answers(b', q) == Answers(b, q))
  }

  /** A release goes through if and only if the inject exists, is pending, its gate is open and some
      enrolled participant is meant to receive it. It opens one row, unresolved, for each such group, marks
      the inject released at this instant by this actor, and changes nothing else. */
  lemma ReleaseOutcome(b: Board, id: int, actor: Option<int>, scheduled: bool)
    requires Inv(b)
    ensures ReleaseInject(b, id, actor, scheduled).Ok?
            <==> && id in b.injects && b.injects[id].state == Pending && GateOpen(b, b.injects[id], scheduled)
                 && exists c :: Eligible(b.injects[id], b.members, c)
    ensures ReleaseInject(b, id, actor, scheduled).Ok? ==>
              var b' := ReleaseInject(b, id, actor, scheduled).value;
              && OnlyInjectChanged(b, b', id) && b'.cursors == b.cursors && Answers(b', id) == Answers(b, id)
              && b'.injects[id] == b.injects[id].(state := Released, releasedAt := Some(b.now), releasedBy := actor)
              && (forall c :: c in Rows(b', id) <==> Eligible(b.injects[id], b.members, c))
              && (forall c | c in Rows(b', id) :: Rows(b', id)[c] == Awaiting)
  {
    hide Inv, GateOpen, Eligible, ReleaseInject, OnlyInjectChanged;
    ReleaseSucceeds(b, id, actor, scheduled);
    if ReleaseInject(b, id, actor, scheduled).Ok? { ReleaseChanges(b, id, actor, scheduled); }
  }

  lemma ReleaseSucceeds(b: Board, id: int, actor: Option<int>, scheduled: bool)
    ensures ReleaseInject(b, id, actor, scheduled).Ok?
            <==> && id in b.injects && b.injects[id].state == Pending && GateOpen(b, b.injects[id], scheduled)
                 && exists c :: Eligible(b.injects[id], b.members, c)
  {
    hide Audience, Eligible, ReleaseIsAllowed, GateOpen, SeedRows;
    if id in b.injects {
      GateExactlyWhen(b, b.injects[id], scheduled);
      AudienceIsSomeone(b.injects[id], b.members);
    }
  }

  lemma ReleaseChanges(b: Board, id: int, actor: Option<int>, scheduled: bool)
    requires Inv(b) && ReleaseInject(b, id, actor, scheduled).Ok?
    ensures var b' := ReleaseInject(b, id, actor, scheduled).value;
            && OnlyInjectChanged(b, b', id) && b'.cursors == b.cursors && Answers(b', id) == Answers(b, id)
            && b'.injects[id] == b.injects[id].(state := Released, releasedAt := Some(b.now), releasedBy := actor)
            && (forall c :: c in Rows(b', id) <==> Eligible(b.injects[id], b.members, c))
            && (forall c | c in Rows(b', id) :: Rows(b', id)[c] == Awaiting)
  {
    hide Audience, Eligible, ReleaseIsAllowed, CursorsInv;
    AudienceExactlyWhen(b.injects[id], b.members);
    assert PendingIsBlank(b.injects[id], Rows(b, id)) by {
      assert InjectInv(b.injects[id], Rows(b, id), Answers(b, id), b.members, b.now);
    }
    hide Inv, InjectInv;
  }

  lemma AudienceIsSomeone(inject: Inject, members: map<int, Member>)
    ensures Audience(inject, members) != {} <==> exists c :: Eligible(inject, members, c)
  {
    AudienceExactlyWhen(inject, members);
    hide Eligible, Audience;
    if Audience(inject, members) != {} {
      var c :| c in Audience(inject, members);
      assert Eligible(inject, members, c);
    }
  }

  // ── The response ──────────────────────────────────────────────────────────

  /** Every audience row is resolved. */
  ghost predicate AllResolved(b: Board, id: int) {
    forall c | c in Rows(b, id) :: Rows(b, id)[c].Done?
  }

  /** A response goes through if and only if the inject has been released and this user has not answered
      it. If it is the first of an eligible path, that path's row becomes resolved, at this instant by this
      user; no other row changes. The inject closes when every row is resolved and not before, at the
      instant and by the user of the last. */
  lemma ResponseOutcome(b: Board, id: int, user: int, group: Context, selected: Option<string>, c: Context)
    requires Inv(b) && (id in b.injects ==> IsPath(b.injects[id], group, c))
    ensures SubmitResponse(b, id, user, group, selected).Ok?
            <==> id in b.injects && b.injects[id].state != Pending && user !in Answers(b, id)
    ensures SubmitResponse(b, id, user, group, selected).Ok? ==>
              var b' := SubmitResponse(b, id, user, group, selected).value;
              var first := Eligible(b.injects[id], b.members, c) && !Resolves(b, id, c);
              && OnlyInjectChanged(b, b', id)
              && Rows(b', id).Keys == Rows(b, id).Keys
              && (forall d | d in Rows(b, id) ::
                    Rows(b', id)[d] == if first && d == c then Done(b.now, user) else Rows(b, id)[d])
              && (b'.injects[id].state == Resolved <==> AllResolved(b', id))
              && (b'.injects[id].state != Resolved ==> b'.injects[id].state == Released)
              && (AllResolved(b', id) && !AllResolved(b, id) ==>
                    b'.injects[id].resolvedAt == Some(b.now) && b'.injects[id].resolvedBy == Some(user))
  {
    ResponseSucceeds(b, id, user, group, selected);
    if SubmitResponse(b, id, user, group, selected).Ok? { ResponseChanges(b, id, user, group, selected, c); }
    hide Inv, SubmitResponse, Eligible, OnlyInjectChanged, AllResolved;
  }

  lemma ResponseSucceeds(b: Board, id: int, user: int, group: Context, selected: Option<string>)
    ensures SubmitResponse(b, id, user, group, selected).Ok?
            <==> id in b.injects && b.injects[id].state != Pending && user !in Answers(b, id)
  {
    hide ResolveProgression, RecordResponse, ResponseTarget;
  }

  lemma ResponseChanges(b: Board, id: int, user: int, group: Context, selected: Option<string>, c: Context)
    requires Inv(b) && SubmitResponse(b, id, user, group, selected).Ok? && IsPath(b.injects[id], group, c)
    ensures var b' := SubmitResponse(b, id, user, group, selected).value;
            var first := Eligible(b.injects[id], b.members, c) && !Resolves(b, id, c);
            && OnlyInjectChanged(b, b', id)
            && Rows(b', id).Keys == Rows(b, id).Keys
            && (forall d | d in Rows(b, id) ::
                  Rows(b', id)[d] == if first && d == c then Done(b.now, user) else Rows(b, id)[d])
            && (b'.injects[id].state == Resolved <==> AllResolved(b', id))
            && (b'.injects[id].state != Resolved ==> b'.injects[id].state == Released)
            && (AllResolved(b', id) && !AllResolved(b, id) ==>
                  b'.injects[id].resolvedAt == Some(b.now) && b'.injects[id].resolvedBy == Some(user))
  {
    hide SubmitResponse, Eligible, Audience, CursorsInv, Extends;
    ResponseSucceeds(b, id, user, group, selected);
    RespondKeeps(b, id, user, group, selected);
    AudienceExactlyWhen(b.injects[id], b.members);
    ResponseRows(b, id, user, group, selected);
    var b' := SubmitResponse(b, id, user, group, selected).value;
    assert InjectInv(b.injects[id], Rows(b, id), Answers(b, id), b.members, b.now);
    assert InjectInv(b'.injects[id], Rows(b', id), Answers(b', id), b'.members, b'.now);
    hide Inv, OnlyInjectChanged;
  }

  lemma MarkRows(b: Board, id: int, c: Context, actor: int)
    requires id in b.injects
    ensures var b' := MarkResolved(b, id, c, actor);
            && OnlyInjectChanged(b, b', id) && Answers(b', id) == Answers(b, id)
            && Rows(b', id) == Rows(b, id)[c := Done(b.now, actor)]
            && b'.injects[id] == CloseIfComplete(b.injects[id], Rows(b', id), b.now, actor)
  {
    hide CloseIfComplete;
  }

  lemma AdvanceRows(b: Board, id: int, c: Context, target: Option<string>)
    requires id in b.injects
    ensures var b' := AdvanceCursor(b, id, c, target);
            OnlyInjectChanged(b, b', id) && Rows(b', id) == Rows(b, id) && b'.injects[id] == b.injects[id]
  {
  }

  lemma ProgressRows(b: Board, id: int, group: Context, actor: int, target: Option<string>)
    requires Inv(b) && Opened(b, id)
    ensures var b' := ResolveProgression(b, id, group, actor, target);
            var c := ResponseContext(b.injects[id], group);
            var first := c in Rows(b, id) && !Rows(b, id)[c].Done?;
            && OnlyInjectChanged(b, b', id)
            && Rows(b', id) == (if first then Rows(b, id)[c := Done(b.now, actor)] else Rows(b, id))
            && b'.injects[id] == (if first then CloseIfComplete(b.injects[id], Rows(b', id), b.now, actor) else b.injects[id])
  {
    hide Inv, SeedRows, Audience, CloseIfComplete, MarkResolved, AdvanceCursor;
    var c := ResponseContext(b.injects[id], group);
    ReseedingAddsNothing(b, id);
    MarkRows(b, id, c, actor);
    AdvanceRows(MarkResolved(b, id, c, actor), id, c, target);
  }

  lemma RecordRows(b: Board, id: int, user: int, group: Context, selected: Option<string>)
    requires id in b.injects
    ensures var b' := RecordResponse(b, id, user, group, selected);
            OnlyInjectChanged(b, b', id) && Rows(b', id) == Rows(b, id) && b'.injects == b.injects
  {
  }

  lemma ResponseRows(b: Board, id: int, user: int, group: Context, selected: Option<string>)
    requires Inv(b) && SubmitResponse(b, id, user, group, selected).Ok?
    ensures var b' := SubmitResponse(b, id, user, group, selected).value;
            var c := ResponseContext(b.injects[id], group);
            var first := c in Audience(b.injects[id], b.members) && !Resolves(b, id, c);
            && OnlyInjectChanged(b, b', id)
            && Rows(b', id) == (if first then Rows(b, id)[c := Done(b.now, user)] else Rows(b, id))
            && b'.injects[id] == (if first then CloseIfComplete(b.injects[id], Rows(b', id), b.now, user) else b.injects[id])
  {
    hide ResponseTarget, Audience, ResolveProgression, RecordResponse, CloseIfComplete, CursorsInv;
    var recorded := RecordResponse(b, id, user, group, selected);
    RecordKeeps(b, id, user, group, selected);
    RecordRows(b, id, user, group, selected);
    ProgressRows(recorded, id, group, user, ResponseTarget(b.def, b.injects[id].node, selected));
    assert InjectInv(b.injects[id], Rows(b, id), Answers(b, id), b.members, b.now);
    hide Inv;
  }

  // ── Creation ──────────────────────────────────────────────────────────────

  /** How many injects the first n nodes give rise to: one for each target team, or one shared. */
  function RowsBefore(nodes: seq<Node>, n: nat): nat
    requires n <= |nodes|
  {
    if n == 0 then 0 else RowsBefore(nodes, n - 1) + Max(1, |nodes[n - 1].targetTeams|)
  }

  /** The node's k-th inject, pending and untouched. */
  ghost predicate SeededFor(node: Node, k: nat, row: Inject) {
    && k < Max(1, |node.targetTeams|)
    && row.node == Some(node.id) && row.offset == node.releaseAtMinutes && !row.duringRun
    && (if node.targetTeams == [] then row.group == None && row.targets == []
        else row.group == Some(node.targetTeams[k]) && row.targets == [node.targetTeams[k]])
    && row.state == Pending
    && row.releasedAt.None? && row.releasedBy.None? && row.resolvedAt.None? && row.resolvedBy.None?
  }

  lemma {:induction false} SeedTeamsAre(node: Node, k: nat)
    requires k <= |node.targetTeams| && node.targetTeams != []
    ensures |SeedTeams(node, k)| == |node.targetTeams| - k
    ensures forall i | 0 <= i < |node.targetTeams| - k :: SeededFor(node, k + i, SeedTeams(node, k)[i])
    decreases |node.targetTeams| - k
  {
    if k < |node.targetTeams| {
      SeedTeamsAre(node, k + 1);
      forall i | 0 <= i < |node.targetTeams| - k ensures SeededFor(node, k + i, SeedTeams(node, k)[i]) {
        if i > 0 { assert SeedTeams(node, k)[i] == SeedTeams(node, k + 1)[i - 1]; }
      }
    }
  }

  lemma SeedNodeIs(node: Node)
    ensures |SeedNode(node)| == Max(1, |node.targetTeams|)
    ensures forall k | 0 <= k < |SeedNode(node)| :: SeededFor(node, k, SeedNode(node)[k])
  {
    if node.targetTeams != [] { SeedTeamsAre(node, 0); }
  }

  lemma {:induction false} RowsBeforeShift(nodes: seq<Node>, n: nat)
    requires 0 < n <= |nodes|
    ensures RowsBefore(nodes, n) == Max(1, |nodes[0].targetTeams|) + RowsBefore(nodes[1..], n - 1)
  {
    if n > 1 { RowsBeforeShift(nodes, n - 1); }
  }

  /** The rows from `first` on are the node's. */
  ghost predicate SeededAt(node: Node, first: nat, rows: seq<Inject>) {
    && first + Max(1, |node.targetTeams|) <= |rows|
    && forall i | first <= i < first + Max(1, |node.targetTeams|) :: SeededFor(node, i - first, rows[i])
  }

  lemma {:induction false} SeedInjectsCount(nodes: seq<Node>)
    ensures |SeedInjects(nodes)| == RowsBefore(nodes, |nodes|)
  {
    if nodes != [] {
      SeedInjectsCount(nodes[1..]);
      SeedNodeIs(nodes[0]);
      RowsBeforeShift(nodes, |nodes|);
    }
  }

  lemma {:induction false} SeedInjectsAre(nodes: seq<Node>, n: nat)
    requires n < |nodes|
    ensures SeededAt(nodes[n], RowsBefore(nodes, n), SeedInjects(nodes))
    decreases n
  {
    var head, rest := SeedNode(nodes[0]), SeedInjects(nodes[1..]);
    assert SeedInjects(nodes) == head + rest;
    SeedNodeIs(nodes[0]);
    if n == 0 {
      SeededFirst(nodes[0], head, rest);
    } else {
      SeedInjectsAre(nodes[1..], n - 1);
      RowsBeforeShift(nodes, n);
      hide SeededFor, SeedNode, SeedInjects, SeededAt;
      SeededLater(nodes[n], RowsBefore(nodes[1..], n - 1), head, rest);
    }
  }

  lemma SeededFirst(node: Node, head: seq<Inject>, rest: seq<Inject>)
    requires |head| == Max(1, |node.targetTeams|)
    requires forall k | 0 <= k < |head| :: SeededFor(node, k, head[k])
    ensures SeededAt(node, 0, head + rest)
  {
    hide SeededFor;
    forall i | 0 <= i < |head| ensures SeededFor(node, i - 0, (head + rest)[i]) {
      assert (head + rest)[i] == head[i];
    }
  }

  lemma SeededLater(node: Node, first: nat, head: seq<Inject>, rows: seq<Inject>)
    requires SeededAt(node, first, rows)
    ensures SeededAt(node, |head| + first, head + rows)
  {
    hide SeededFor;
    var start := |head| + first;
    forall i | start <= i < start + Max(1, |node.targetTeams|) ensures SeededFor(node, i - start, (head + rows)[i]) {
      assert (head + rows)[i] == rows[i - |head|];
    }
  }

  lemma SeedPathsAre(def: Definition)
    ensures forall c :: c in SeedCursors(def) <==> c.None? || c.value in def.teams
  {
    var paths: set<Context> := set t | t in def.teams :: Some(t);
    forall c ensures c in SeedCursors(def) <==> c.None? || c.value in def.teams {
      if c.Some? { assert c in paths <==> c.value in def.teams; }
    }
  }

  /** The id is among those given to the n-th node. */
  ghost predicate IsRowOf(nodes: seq<Node>, n: nat, id: int) {
    n < |nodes| && RowsBefore(nodes, n) <= id < RowsBefore(nodes, n) + Max(1, |nodes[n].targetTeams|)
  }

  /** A new exercise has, node by node in the authored order, one pending inject for each target team, or
      one shared inject; and the shared path and each team at the start node. Nobody is enrolled. */
  lemma CreatedExactly(def: Definition, now: int)
    ensures var b := Created(def, now);
            && b.def == def && b.now == now && b.members == map[] && b.advances == []
            && b.nextInject == RowsBefore(def.injects, |def.injects|)
            && (forall id :: id in b.injects <==> 0 <= id < b.nextInject)
            && (forall n: nat, id: int | n < |def.injects| && IsRowOf(def.injects, n, id) ::
                  id in b.injects && SeededFor(def.injects[n], id - RowsBefore(def.injects, n), b.injects[id]))
            && (forall c :: c in b.cursors <==> c.None? || c.value in def.teams)
            && (forall c | c in b.cursors :: b.cursors[c] == Cursor(Some(def.start), None))
  {
    SeedInjectsCount(def.injects);
    hide SeedInjects, SeededFor, RowsBefore;
    var rows := SeedInjects(def.injects);
    forall n: nat, id: int | n < |def.injects| && IsRowOf(def.injects, n, id)
      ensures 0 <= id < |rows| && SeededFor(def.injects[n], id - RowsBefore(def.injects, n), rows[id])
    {
      SeedInjectsAre(def.injects, n);
    }
    SeedPathsAre(def);
  }

  /** A facilitator's inject is pending, unscheduled, and meant for its team: the one it names, or the only
      one it targets. */
  lemma CreateOutcome(b: Board, node: Option<string>, group: Context, targets: seq<string>, duringRun: bool)
    requires Inv(b)
    ensures var b' := CreateInject(b, node, group, targets, duringRun);
            && b.nextInject !in b.injects && b'.injects.Keys == b.injects.Keys + {b.nextInject}
            && (forall q | q in b.injects :: b'.injects[q] == b.injects[q])
            && var row := b'.injects[b.nextInject];
               && row.state == Pending && row.node == node && row.offset == None && row.duringRun == duringRun
               && row.releasedAt.None? && row.resolvedAt.None?
               && row.group == (if group.Some? then group else if |targets| == 1 then Some(targets[0]) else None)
               && row.targets == if targets == [] && group.Some? then [group.value] else targets
  {
  }

  // ── The roster ────────────────────────────────────────────────────────────

  /** The roster may change: nothing has been released. */
  ghost predicate Unlocked(b: Board) {
    forall id | id in b.injects :: b.injects[id].state == Pending
  }

  /** The group is the shared path or one of the scenario's teams. */
  predicate KnownGroup(def: Definition, group: Context) {
    group == None || exists k | 0 <= k < |def.teams| :: group == Some(def.teams[k])
  }

  lemma KnownGroupIsValid(def: Definition, group: Context)
    ensures ValidGroup(def, group) <==> KnownGroup(def, group)
  {
    if group.Some? && group.value in def.teams {
      var k :| 0 <= k < |def.teams| && def.teams[k] == group.value;
    }
  }

  /** Until the first release, and with a known group, a roster edit goes through: enrolment adds the member
      it names unless they are already enrolled, when it changes nothing; regrouping changes one enrolled
      member's group and keeps their role; removal takes one enrolled member off. Nothing but the roster
      changes. */
  lemma RosterOutcome(b: Board, user: int, group: Context, role: Role)
    ensures EnrolMember(b, user, group, role).Ok? <==> Unlocked(b) && KnownGroup(b.def, group)
    ensures EnrolMember(b, user, group, role).Ok? ==>
              EnrolMember(b, user, group, role).value
              == if user in b.members then b else b.(members := b.members[user := Member(group, role)])
    ensures UpdateMemberGroup(b, user, group).Ok? <==> Unlocked(b) && user in b.members && KnownGroup(b.def, group)
    ensures UpdateMemberGroup(b, user, group).Ok? ==>
              UpdateMemberGroup(b, user, group).value
              == b.(members := b.members[user := Member(group, b.members[user].role)])
    ensures RemoveMember(b, user).Ok? <==> Unlocked(b) && user in b.members
    ensures RemoveMember(b, user).Ok? ==>
              && RemoveMember(b, user).value == b.(members := RemoveMember(b, user).value.members)
              && RemoveMember(b, user).value.members.Keys == b.members.Keys - {user}
              && forall u | u in b.members && u != user :: RemoveMember(b, user).value.members[u] == b.members[u]
  {
    KnownGroupIsValid(b.def, group);
    hide ValidGroup, KnownGroup;
  }

  /** Only a pending inject is deleted, and with it whatever was kept under its id; no other row changes. */
  lemma DeleteOutcome(b: Board, id: int)
    ensures DeletePendingInject(b, id).Ok? <==> id in b.injects && b.injects[id].state == Pending
    ensures DeletePendingInject(b, id).Ok? ==>
              var b' := DeletePendingInject(b, id).value;
              && b' == b.(injects := b'.injects, progress := b'.progress, responses := b'.responses)
              && b'.injects.Keys == b.injects.Keys - {id}
              && Rows(b', id) == map[] && Answers(b', id) == map[]
              && (forall q | q in b.injects && q != id :: b'.injects[q] == b.injects[q])
              && (forall q | q != id :: Rows(b', q) == Rows(b, q) && Answers(b', q) == Answers(b, q))
  {
  }
}
