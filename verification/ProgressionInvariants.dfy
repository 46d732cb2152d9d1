/** What every transaction of a run keeps. */
module ProgressionInvariants {
  import opened Wrappers
  import opened Scenario
  import opened Progression

  /** The inject has left `pending`. */
  predicate Opened(b: Board, id: int) {
    id in b.injects && b.injects[id].state != Pending
  }

  predicate Resolves(b: Board, id: int, c: Context) {
    c in Rows(b, id) && Rows(b, id)[c].Done?
  }

  /** The successor chosen by the first responder of one context. */
  function ChosenTarget(def: Definition, inject: Inject, row: Progress, answers: map<int, Response>): Option<string> {
    if row.Done? && row.actor in answers then ResponseTarget(def, inject.node, answers[row.actor].selected) else None
  }

  function Chosen(b: Board, id: int, c: Context): Option<string>
    requires id in b.injects && Resolves(b, id, c)
  {
    ChosenTarget(b.def, b.injects[id], Rows(b, id)[c], Answers(b, id))
  }

  /** Some enrolled participant has this group, and the inject is meant for it. */
  ghost predicate Eligible(inject: Inject, members: map<int, Member>, c: Context) {
    && (exists u :: u in members && members[u].role == Participant && members[u].group == c)
    && (inject.group.Some? ==> c == inject.group)
    && (inject.group.None? && inject.targets != [] ==> c.Some? && c.value in inject.targets)
  }

  /** An audience is exactly the groups of the participants the inject is meant for. */
  lemma AudienceExactlyWhen(inject: Inject, members: map<int, Member>)
    ensures forall c :: c in Audience(inject, members) <==> Eligible(inject, members, c)
  {
    forall c ensures c in Audience(inject, members) <==> Eligible(inject, members, c) {
      if u :| u in members && members[u].role == Participant && members[u].group == c {
        assert c in ParticipantContexts(members);
      }
    }
  }

  /** The context resolved the inject, and the recorded selection of whoever resolved it leads from the
      inject's node to the target. */
  ghost predicate Chose(b: Board, id: int, c: Context, target: string) {
    && id in b.injects && !Ungated(b.injects[id])
    && Resolves(b, id, c) && Rows(b, id)[c].actor in Answers(b, id)
    && Takes(b.def, b.injects[id].node.value, Answers(b, id)[Rows(b, id)[c].actor].selected, target)
  }

  lemma ChosenIsChose(b: Board, id: int, c: Context, target: string)
    requires id in b.injects && Resolves(b, id, c)
    ensures Chosen(b, id, c) == Some(target) <==> Chose(b, id, c, target)
  {
    var row := Rows(b, id)[c];
    if row.actor in Answers(b, id) && !Ungated(b.injects[id]) {
      NextNodeExactlyWhen(b.def, b.injects[id].node.value, Answers(b, id)[row.actor].selected, target);
    }
    hide Takes, NextNode;
  }

  /** A pending inject carries no trace of a run. */
  ghost predicate PendingIsBlank(inject: Inject, rows: map<Context, Progress>) {
    rows == map[] && inject.releasedAt.None? && inject.resolvedAt.None? && inject.resolvedBy.None?
  }

  /** The rows of an opened inject are exactly its audience, and someone is in it. */
  ghost predicate RowsAreAudience(inject: Inject, rows: map<Context, Progress>, members: map<int, Member>) {
    rows.Keys == Audience(inject, members) && rows.Keys != {}
  }

  /** Resolutions follow the release, and each was made by a recorded response. */
  ghost predicate RowsDated(inject: Inject, rows: map<Context, Progress>, answers: map<int, Response>, now: int) {
    && inject.releasedAt.Some? && inject.releasedAt.value <= now
    && forall c | c in rows && rows[c].Done? ::
         inject.releasedAt.value <= rows[c].at <= now && rows[c].actor in answers
  }

  /** The stored scalar agrees with the per-context rows. */
  ghost predicate ScalarAgrees(inject: Inject, rows: map<Context, Progress>) {
    if inject.state == Resolved then
      && RowsComplete(rows)
      && inject.resolvedAt.Some? && inject.resolvedBy.Some?
      && (exists c :: c in rows && rows[c] == Done(inject.resolvedAt.value, inject.resolvedBy.value))
      && (forall c | c in rows :: rows[c].at <= inject.resolvedAt.value)
    else
      inject.resolvedAt.None? && inject.resolvedBy.None? && !RowsComplete(rows)
  }

  ghost predicate InjectInv(inject: Inject, rows: map<Context, Progress>, answers: map<int, Response>,
                            members: map<int, Member>, now: int) {
    if inject.state == Pending then PendingIsBlank(inject, rows)
    else
      && RowsAreAudience(inject, rows, members)
      && RowsDated(inject, rows, answers, now)
      && ScalarAgrees(inject, rows)
  }

  ghost predicate InjectsInv(b: Board) {
    && (forall id | id in b.injects :: id < b.nextInject)
    && (forall id | id in b.injects :: InjectInv(b.injects[id], Rows(b, id), Answers(b, id), b.members, b.now))
    && (forall id | id !in b.injects :: Rows(b, id) == map[])
  }

  ghost predicate CursorPlaced(b: Board, c: Context)
    requires c in b.cursors
  {
    match b.cursors[c].inject
    case None => b.cursors[c].node == Some(b.def.start)
    case Some(p) =>
      && Opened(b, p) && b.injects[p].node.Some? && Resolves(b, p, c)
      && b.cursors[c].node == Chosen(b, p, c)
  }

  /** A cursor stands at the start, or at the successor its own context chose. */
  ghost predicate CursorsInv(b: Board) {
    None in b.cursors && forall c | c in b.cursors :: CursorPlaced(b, c)
  }

  ghost predicate Inv(b: Board) {
    InjectsInv(b) && CursorsInv(b)
  }

  // ── What a transaction never takes back ───────────────────────────────────

  ghost predicate SameRelease(i: Inject, j: Inject) {
    && i.node == j.node && i.group == j.group && i.targets == j.targets
    && i.releasedAt == j.releasedAt && i.releasedBy == j.releasedBy
    && j.state != Pending
  }

  /** The rows keep their contexts and every resolution already made. */
  ghost predicate RowsExtend(rows: map<Context, Progress>, rows': map<Context, Progress>) {
    rows.Keys == rows'.Keys && forall c | c in rows && rows[c].Done? :: rows'[c] == rows[c]
  }

  ghost predicate AnswersExtend(answers: map<int, Response>, answers': map<int, Response>) {
    forall u | u in answers :: u in answers' && answers'[u] == answers[u]
  }

  /** Opened injects, their audience, their resolutions and their responses are permanent. */
  ghost predicate Extends(b: Board, b': Board) {
    && b'.def == b.def
    && b.now <= b'.now
    && b.nextInject <= b'.nextInject
    && (forall id | Opened(b, id) ::
          && id in b'.injects
          && SameRelease(b.injects[id], b'.injects[id])
          && RowsExtend(Rows(b, id), Rows(b', id))
          && AnswersExtend(Answers(b, id), Answers(b', id)))
  }

  lemma ExtendsTransitive(a: Board, b: Board, c: Board)
    requires Extends(a, b) && Extends(b, c)
    ensures Extends(a, c)
  {
    forall id | Opened(a, id)
      ensures id in c.injects && SameRelease(a.injects[id], c.injects[id])
              && RowsExtend(Rows(a, id), Rows(c, id)) && AnswersExtend(Answers(a, id), Answers(c, id))
    {
      assert Opened(b, id);
    }
  }

  /** A choice, once made, is still the choice in every later state. */
  lemma ChoiceIsPermanent(b: Board, b': Board, id: int, c: Context)
    requires Inv(b) && Extends(b, b') && Opened(b, id) && Resolves(b, id, c)
    ensures Opened(b', id) && Resolves(b', id, c) && Chosen(b', id, c) == Chosen(b, id, c)
  {
    assert InjectInv(b.injects[id], Rows(b, id), Answers(b, id), b.members, b.now);
  }

  lemma CursorsCarryOver(b: Board, b': Board)
    requires Inv(b) && Extends(b, b') && b'.cursors == b.cursors
    ensures CursorsInv(b')
  {
    forall c | c in b'.cursors ensures CursorPlaced(b', c) {
      assert CursorPlaced(b, c);
      if b.cursors[c].inject.Some? { ChoiceIsPermanent(b, b', b.cursors[c].inject.value, c); }
    }
  }

  // ── Creation ──────────────────────────────────────────────────────────────

  ghost predicate Unopened(inject: Inject) {
    inject.state == Pending && inject.releasedAt.None? && inject.resolvedAt.None? && inject.resolvedBy.None?
  }

  lemma {:induction false} SeedTeamsPending(node: Node, k: nat)
    requires k <= |node.targetTeams|
    ensures forall i | 0 <= i < |SeedTeams(node, k)| :: Unopened(SeedTeams(node, k)[i])
    decreases |node.targetTeams| - k
  {
    if k < |node.targetTeams| { SeedTeamsPending(node, k + 1); }
  }

  lemma {:induction false} SeedInjectsPending(nodes: seq<Node>)
    ensures forall i | 0 <= i < |SeedInjects(nodes)| :: Unopened(SeedInjects(nodes)[i])
  {
    if nodes != [] {
      if nodes[0].targetTeams != [] { SeedTeamsPending(nodes[0], 0); }
      SeedInjectsPending(nodes[1..]);
    }
  }

  lemma CreatedSatisfies(def: Definition, now: int)
    ensures Inv(Created(def, now))
  {
    SeedInjectsPending(def.injects);
  }

  // ── Each transaction ──────────────────────────────────────────────────────

  lemma TickKeeps(b: Board, dt: nat)
    requires Inv(b)
    ensures Inv(Tick(b, dt)) && Extends(b, Tick(b, dt))
  {
    var b' := Tick(b, dt);
    forall id | id in b'.injects
      ensures InjectInv(b'.injects[id], Rows(b', id), Answers(b', id), b'.members, b'.now)
    {
      assert InjectInv(b.injects[id], Rows(b, id), Answers(b, id), b.members, b.now);
    }
    CursorsCarryOver(b, b');
  }

  lemma RosterKeeps(b: Board, members: map<int, Member>)
    requires Inv(b) && !SomeReleased(b)
    ensures Inv(b.(members := members)) && Extends(b, b.(members := members))
  {
    var b' := b.(members := members);
    forall id | id in b'.injects
      ensures InjectInv(b'.injects[id], Rows(b', id), Answers(b', id), b'.members, b'.now)
    {
      assert InjectInv(b.injects[id], Rows(b, id), Answers(b, id), b.members, b.now);
    }
    CursorsCarryOver(b, b');
  }

  lemma CreateKeeps(b: Board, node: Option<string>, group: Context, targets: seq<string>, duringRun: bool)
    requires Inv(b)
    ensures Inv(CreateInject(b, node, group, targets, duringRun))
    ensures Extends(b, CreateInject(b, node, group, targets, duringRun))
  {
    hide ChosenTarget;
    var b' := CreateInject(b, node, group, targets, duringRun);
    assert b.nextInject !in b.injects;
    forall id | id in b'.injects
      ensures InjectInv(b'.injects[id], Rows(b', id), Answers(b', id), b'.members, b'.now)
    {
      if id in b.injects { assert InjectInv(b.injects[id], Rows(b, id), Answers(b, id), b.members, b.now); }
    }
    CursorsCarryOver(b, b');
  }

  lemma DeleteKeeps(b: Board, id: int)
    requires Inv(b) && DeletePendingInject(b, id).Ok?
    ensures Inv(DeletePendingInject(b, id).value) && Extends(b, DeletePendingInject(b, id).value)
  {
    var b' := DeletePendingInject(b, id).value;
    forall q | q in b'.injects
      ensures InjectInv(b'.injects[q], Rows(b', q), Answers(b', q), b'.members, b'.now)
    {
      assert InjectInv(b.injects[q], Rows(b, q), Answers(b, q), b.members, b.now);
    }
    CursorsCarryOver(b, b');
  }

  lemma RescheduleKeeps(b: Board, id: int, offset: Option<nat>)
    requires Inv(b) && RescheduleInject(b, id, offset).Ok?
    ensures Inv(RescheduleInject(b, id, offset).value) && Extends(b, RescheduleInject(b, id, offset).value)
  {
    var b' := RescheduleInject(b, id, offset).value;
    forall q | q in b'.injects
      ensures InjectInv(b'.injects[q], Rows(b', q), Answers(b', q), b'.members, b'.now)
    {
      assert InjectInv(b.injects[q], Rows(b, q), Answers(b, q), b.members, b.now);
    }
    CursorsCarryOver(b, b');
  }

  /** The released inject itself, seen alone. */
  lemma ReleasedInject(inject: Inject, contexts: set<Context>, answers: map<int, Response>, members: map<int, Member>,
                       now: int, actor: Option<int>)
    requires contexts == Audience(inject, members) && contexts != {} && inject.state == Pending
    requires inject.resolvedAt.None? && inject.resolvedBy.None?
    ensures InjectInv(inject.(state := Released, releasedAt := Some(now), releasedBy := actor),
                      SeedRows(map[], contexts), answers, members, now)
  {
    var c :| c in contexts;
    var released := inject.(state := Released, releasedAt := Some(now), releasedBy := actor);
    assert Audience(released, members) == contexts;
    assert SeedRows(map[], contexts)[c] == Awaiting;
  }

  lemma ReleaseExtends(b: Board, id: int, actor: Option<int>, scheduled: bool)
    requires ReleaseInject(b, id, actor, scheduled).Ok?
    ensures Extends(b, ReleaseInject(b, id, actor, scheduled).value)
  {
    hide Audience, SeedRows, ReleaseIsAllowed;
  }

  lemma ReleaseKeepsInjects(b: Board, id: int, actor: Option<int>, scheduled: bool)
    requires InjectsInv(b) && ReleaseInject(b, id, actor, scheduled).Ok?
    ensures InjectsInv(ReleaseInject(b, id, actor, scheduled).value)
  {
    assert PendingIsBlank(b.injects[id], Rows(b, id)) by {
      assert InjectInv(b.injects[id], Rows(b, id), Answers(b, id), b.members, b.now);
    }
    ReleasedInject(b.injects[id], Audience(b.injects[id], b.members), Answers(b, id), b.members, b.now, actor);
    hide Audience, SeedRows, InjectInv, ReleaseIsAllowed;
  }

  lemma ReleaseKeeps(b: Board, id: int, actor: Option<int>, scheduled: bool)
    requires Inv(b) && ReleaseInject(b, id, actor, scheduled).Ok?
    ensures Inv(ReleaseInject(b, id, actor, scheduled).value)
    ensures Extends(b, ReleaseInject(b, id, actor, scheduled).value)
  {
    ReleaseExtends(b, id, actor, scheduled);
    ReleaseKeepsInjects(b, id, actor, scheduled);
    hide InjectsInv, Extends, Audience, SeedRows, ReleaseIsAllowed;
    CursorsCarryOver(b, ReleaseInject(b, id, actor, scheduled).value);
  }

  /** One context's resolution, seen from the inject alone. */
  lemma ResolutionKeepsInject(inject: Inject, rows: map<Context, Progress>, answers: map<int, Response>,
                              members: map<int, Member>, now: int, c: Context, actor: int)
    requires InjectInv(inject, rows, answers, members, now) && inject.state != Pending
    requires c in rows && !rows[c].Done? && actor in answers
    ensures var resolved := rows[c := Done(now, actor)];
            && InjectInv(CloseIfComplete(inject, resolved, now, actor), resolved, answers, members, now)
            && RowsExtend(rows, resolved)
            && SameRelease(inject, CloseIfComplete(inject, resolved, now, actor))
  {
    var resolved := rows[c := Done(now, actor)];
    var closed := CloseIfComplete(inject, resolved, now, actor);
    assert resolved.Keys == rows.Keys;
    assert Audience(closed, members) == Audience(inject, members);
    assert resolved[c] == Done(now, actor);
  }

  lemma AnswersKeepInject(inject: Inject, rows: map<Context, Progress>, answers: map<int, Response>,
                          answers': map<int, Response>, members: map<int, Member>, now: int)
    requires InjectInv(inject, rows, answers, members, now) && AnswersExtend(answers, answers')
    ensures InjectInv(inject, rows, answers', members, now)
  {
  }

  lemma RecordKeeps(b: Board, id: int, user: int, group: Context, selected: Option<string>)
    requires Inv(b) && Opened(b, id) && user !in Answers(b, id)
    ensures Inv(RecordResponse(b, id, user, group, selected))
    ensures Extends(b, RecordResponse(b, id, user, group, selected))
  {
    hide InjectInv, ChosenTarget;
    var b' := RecordResponse(b, id, user, group, selected);
    forall q | q in b'.injects
      ensures InjectInv(b'.injects[q], Rows(b', q), Answers(b', q), b'.members, b'.now)
    {
      AnswersKeepInject(b.injects[q], Rows(b, q), Answers(b, q), Answers(b', q), b.members, b.now);
    }
    CursorsCarryOver(b, b');
  }

  /** Recomputing the audience when a response arrives adds no row. */
  lemma ReseedingAddsNothing(b: Board, id: int)
    requires Inv(b) && Opened(b, id)
    ensures b.(progress := b.progress[id := SeedRows(Rows(b, id), Audience(b.injects[id], b.members))]) == b
  {
    assert InjectInv(b.injects[id], Rows(b, id), Answers(b, id), b.members, b.now);
    assert SeedRows(Rows(b, id), Audience(b.injects[id], b.members)) == Rows(b, id);
    assert id in b.progress;
    assert b.progress[id := Rows(b, id)] == b.progress;
  }

  lemma MarkExtends(b: Board, id: int, c: Context, actor: int)
    requires Opened(b, id) && c in Rows(b, id) && !Rows(b, id)[c].Done?
    ensures Extends(b, MarkResolved(b, id, c, actor))
  {
    hide RowsComplete;
  }

  lemma MarkKeepsInjects(b: Board, id: int, c: Context, actor: int)
    requires InjectsInv(b) && Opened(b, id)
    requires c in Rows(b, id) && !Rows(b, id)[c].Done? && actor in Answers(b, id)
    ensures InjectsInv(MarkResolved(b, id, c, actor))
  {
    hide InjectInv, CloseIfComplete, RowsComplete, RowsExtend, SameRelease;
    ResolutionKeepsInject(b.injects[id], Rows(b, id), Answers(b, id), b.members, b.now, c, actor);
  }

  lemma MarkKeeps(b: Board, id: int, c: Context, actor: int)
    requires Inv(b) && Opened(b, id)
    requires c in Rows(b, id) && !Rows(b, id)[c].Done? && actor in Answers(b, id)
    ensures Inv(MarkResolved(b, id, c, actor)) && Extends(b, MarkResolved(b, id, c, actor))
  {
    MarkExtends(b, id, c, actor);
    MarkKeepsInjects(b, id, c, actor);
    hide InjectsInv, Extends, CloseIfComplete;
    CursorsCarryOver(b, MarkResolved(b, id, c, actor));
  }

  lemma AdvanceKeepsInjects(b: Board, id: int, c: Context, target: Option<string>)
    requires InjectsInv(b) && id in b.injects
    ensures InjectsInv(AdvanceCursor(b, id, c, target)) && Extends(b, AdvanceCursor(b, id, c, target))
  {
    hide InjectInv;
  }

  lemma AdvancePlacesCursor(b: Board, id: int, c: Context, target: Option<string>)
    requires CursorsInv(b) && Opened(b, id) && Resolves(b, id, c) && target == Chosen(b, id, c)
    ensures CursorsInv(AdvanceCursor(b, id, c, target))
  {
    hide ChosenTarget;
    var b' := AdvanceCursor(b, id, c, target);
    forall d | d in b'.cursors ensures CursorPlaced(b', d) {
      if d != c || b.injects[id].node.None? { assert CursorPlaced(b, d); }
    }
  }

  lemma AdvanceKeeps(b: Board, id: int, c: Context, target: Option<string>)
    requires Inv(b) && Opened(b, id) && Resolves(b, id, c) && target == Chosen(b, id, c)
    ensures Inv(AdvanceCursor(b, id, c, target)) && Extends(b, AdvanceCursor(b, id, c, target))
  {
    hide InjectsInv, CursorsInv, Extends;
    AdvanceKeepsInjects(b, id, c, target);
    AdvancePlacesCursor(b, id, c, target);
  }

  lemma ResolveKeeps(b: Board, id: int, group: Context, actor: int, selected: Option<string>)
    requires Inv(b) && Opened(b, id)
    requires actor in Answers(b, id) && Answers(b, id)[actor].selected == selected
    ensures var target := ResponseTarget(b.def, b.injects[id].node, selected);
            && Inv(ResolveProgression(b, id, group, actor, target))
            && Extends(b, ResolveProgression(b, id, group, actor, target))
  {
    var target := ResponseTarget(b.def, b.injects[id].node, selected);
    var c := ResponseContext(b.injects[id], group);
    ReseedingAddsNothing(b, id);
    if c in Rows(b, id) && !Rows(b, id)[c].Done? {
      var marked := MarkResolved(b, id, c, actor);
      MarkKeeps(b, id, c, actor);
      assert Rows(marked, id)[c] == Done(b.now, actor);
      AdvanceKeeps(marked, id, c, target);
      ExtendsTransitive(b, marked, AdvanceCursor(marked, id, c, target));
    }
  }

  lemma RespondKeeps(b: Board, id: int, user: int, group: Context, selected: Option<string>)
    requires Inv(b) && SubmitResponse(b, id, user, group, selected).Ok?
    ensures Inv(SubmitResponse(b, id, user, group, selected).value)
    ensures Extends(b, SubmitResponse(b, id, user, group, selected).value)
  {
    RecordKeeps(b, id, user, group, selected);
    var recorded := RecordResponse(b, id, user, group, selected);
    ResolveKeeps(recorded, id, group, user, selected);
    ExtendsTransitive(b, recorded, SubmitResponse(b, id, user, group, selected).value);
  }

  // ── Whole runs ────────────────────────────────────────────────────────────

  lemma CommitKeeps(b: Board, step: Step)
    requires Inv(b)
    ensures Inv(Commit(b, step)) && Extends(b, Commit(b, step))
  {
    if Attempt(b, step).Ok? {
      match step
      case Enrol(user, group, role) => RosterKeeps(b, Commit(b, step).members);
      case Regroup(user, group) => RosterKeeps(b, Commit(b, step).members);
      case Unenrol(user) => RosterKeeps(b, Commit(b, step).members);
      case Create(node, group, targets, duringRun) => CreateKeeps(b, node, group, targets, duringRun);
      case Delete(id) => DeleteKeeps(b, id);
      case Reschedule(id, offset) => RescheduleKeeps(b, id, offset);
      case Release(id, actor, scheduled) => ReleaseKeeps(b, id, actor, scheduled);
      case Respond(id, user, group, selected) => RespondKeeps(b, id, user, group, selected);
      case Idle =>
    }
  }

  lemma {:induction false} ExecutionKeeps(b: Board, steps: seq<Timed>)
    requires Inv(b)
    ensures Inv(Execute(b, steps)) && Extends(b, Execute(b, steps))
  {
    if steps != [] {
      var n := |steps| - 1;
      var before := Execute(b, steps[..n]);
      ExecutionKeeps(b, steps[..n]);
      TickKeeps(before, steps[n].dt);
      CommitKeeps(Tick(before, steps[n].dt), steps[n].step);
      ExtendsTransitive(b, before, Tick(before, steps[n].dt));
      ExtendsTransitive(b, Tick(before, steps[n].dt), Execute(b, steps));
    }
  }
}
