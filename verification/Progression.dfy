/** The rows of one exercise run, and the transactions that release injects and advance cursors. */
module Progression {
  import opened Wrappers
  import opened Scenario

  /** A team id, or None for the shared path. */
  type Context = Option<string>

  datatype Role = Participant | Facilitator | Observer

  datatype Member = Member(group: Context, role: Role)

  datatype InjectState = Pending | Released | Resolved

  /** targets == [] means every team. */
  datatype Inject = Inject(
    node: Option<string>,
    group: Context,
    targets: seq<string>,
    offset: Option<nat>,
    duringRun: bool,
    state: InjectState,
    releasedAt: Option<int>,
    releasedBy: Option<int>,
    resolvedAt: Option<int>,
    resolvedBy: Option<int>)

  /** One context's resolution of one released inject. */
  datatype Progress = Awaiting | Done(at: int, actor: int)

  datatype Cursor = Cursor(node: Option<string>, inject: Option<int>)

  datatype Response = Response(group: Context, selected: Option<string>, at: int)

  /** History: one write of a cursor by a response. */
  datatype Advance = Advance(inject: int, context: Context, target: Option<string>)

  datatype Board = Board(
    def: Definition,
    now: int,
    members: map<int, Member>,
    injects: map<int, Inject>,
    nextInject: int,
    progress: map<int, map<Context, Progress>>,
    cursors: map<Context, Cursor>,
    responses: map<int, map<int, Response>>,
    advances: seq<Advance>)

  datatype Refusal =
    | NotFound | RosterLocked | UnknownTeam | Immutable | Frozen | NotActive
    | NotCurrentBranch | NoAudience | NotPending | NotReleased | AlreadyAnswered | StaleRequest

  // ── Seeding ───────────────────────────────────────────────────────────────

  function FreshInject(node: Option<string>, group: Context, targets: seq<string>, offset: Option<nat>,
                       duringRun: bool): Inject {
    var normalized := if group.Some? && targets == [] then [group.value] else targets;
    Inject(node, group, normalized, offset, duringRun, Pending, None, None, None, None)
  }

  /** One inject for each target team of the node from the k-th on, or one shared inject. */
  function SeedTeams(node: Node, k: nat): seq<Inject>
    requires k <= |node.targetTeams|
    decreases |node.targetTeams| - k
  {
    if k == |node.targetTeams| then []
    else
      [FreshInject(Some(node.id), Some(node.targetTeams[k]), [node.targetTeams[k]], node.releaseAtMinutes, false)]
      + SeedTeams(node, k + 1)
  }

  function SeedNode(node: Node): seq<Inject> {
    if node.targetTeams == [] then [FreshInject(Some(node.id), None, [], node.releaseAtMinutes, false)]
    else SeedTeams(node, 0)
  }

  function SeedInjects(nodes: seq<Node>): seq<Inject> {
    if nodes == [] then [] else SeedNode(nodes[0]) + SeedInjects(nodes[1..])
  }

  function SeedCursors(def: Definition): map<Context, Cursor> {
    var paths: set<Context> := {None} + (set t | t in def.teams :: Some(t));
    map c | c in paths :: Cursor(Some(def.start), None)
  }

  /** A freshly created exercise: every scenario inject pending, every path at the start node. */
  function Created(def: Definition, now: int): Board {
    var rows := SeedInjects(def.injects);
    Board(def, now, map[], map id | 0 <= id < |rows| :: rows[id], |rows|, map[], SeedCursors(def), map[], [])
  }

  // ── Audiences ─────────────────────────────────────────────────────────────

  function ParticipantContexts(members: map<int, Member>): set<Context> {
    set u | u in members && members[u].role == Participant :: members[u].group
  }

  function TargetContexts(targets: seq<string>): set<Context> {
    set t | t in targets :: Some(t)
  }

  /** The participant contexts eligible to resolve the inject. */
  function Audience(inject: Inject, members: map<int, Member>): set<Context> {
    var contexts := ParticipantContexts(members);
    if inject.group.Some? then (if inject.group in contexts then {inject.group} else {})
    else if inject.targets != [] then contexts * TargetContexts(inject.targets)
    else contexts
  }

  /** The progress rows of one inject, by context. */
  function Rows(b: Board, id: int): map<Context, Progress> {
    if id in b.progress then b.progress[id] else map[]
  }

  /** The responses to one inject, by user. */
  function Answers(b: Board, id: int): map<int, Response> {
    if id in b.responses then b.responses[id] else map[]
  }

  /** Insert the missing audience rows; existing rows stand. */
  function SeedRows(rows: map<Context, Progress>, contexts: set<Context>): map<Context, Progress> {
    map c | c in rows.Keys + contexts :: if c in rows then rows[c] else Awaiting
  }

  function SomeReleased(b: Board): bool {
    exists id | id in b.injects :: b.injects[id].state != Pending
  }

  // ── The roster ────────────────────────────────────────────────────────────

  function ValidGroup(def: Definition, group: Context): bool {
    group.None? || group.value in def.teams
  }

  function EnrolMember(b: Board, user: int, group: Context, role: Role): Result<Board, Refusal> {
    if SomeReleased(b) then Err(RosterLocked)
    else if !ValidGroup(b.def, group) then Err(UnknownTeam)
    else if user in b.members then Ok(b)
    else Ok(b.(members := b.members[user := Member(group, role)]))
  }

  function UpdateMemberGroup(b: Board, user: int, group: Context): Result<Board, Refusal> {
    if SomeReleased(b) then Err(RosterLocked)
    else if user !in b.members then Err(NotFound)
    else if !ValidGroup(b.def, group) then Err(UnknownTeam)
    else Ok(b.(members := b.members[user := b.members[user].(group := group)]))
  }

  function RemoveMember(b: Board, user: int): Result<Board, Refusal> {
    if SomeReleased(b) then Err(RosterLocked)
    else if user !in b.members then Err(NotFound)
    else Ok(b.(members := b.members - {user}))
  }

  // ── Pending injects ───────────────────────────────────────────────────────

  function CreateInject(b: Board, node: Option<string>, group: Context, targets: seq<string>, duringRun: bool): Board {
    var scoped := if group.None? && |targets| == 1 then Some(targets[0]) else group;
    b.(injects := b.injects[b.nextInject := FreshInject(node, scoped, targets, None, duringRun)],
       nextInject := b.nextInject + 1)
  }

  function DeletePendingInject(b: Board, id: int): Result<Board, Refusal> {
    if id !in b.injects then Err(NotFound)
    else if b.injects[id].state != Pending then Err(NotPending)
    else Ok(b.(injects := b.injects - {id}, progress := b.progress - {id}, responses := b.responses - {id}))
  }

  function RescheduleInject(b: Board, id: int, offset: Option<nat>): Result<Board, Refusal> {
    if id !in b.injects then Err(NotFound)
    else if b.injects[id].state != Pending then Err(NotPending)
    else Ok(b.(injects := b.injects[id := b.injects[id].(offset := offset)]))
  }

  // ── Release ───────────────────────────────────────────────────────────────

  /** An inject without a scenario node: never null, but possibly blank, is still ungated. */
  function Ungated(inject: Inject): bool {
    inject.node.None? || inject.node.value == ""
  }

  /** Whether the progression gate lets the inject out now. */
  function ReleaseIsAllowed(b: Board, inject: Inject, scheduled: bool): bool {
    if Ungated(inject) then true
    else if b.cursors.Keys == {} then true
    else if exists c | c in b.cursors :: b.cursors[c].node == inject.node then true
    else if !scheduled && exists c | c in b.cursors :: b.cursors[c].inject.Some? then false
    else inject.node.value !in Referenced(b.def)
  }

  /** The release transaction: gate, frozen audience, compare-and-swap on pending. */
  function ReleaseInject(b: Board, id: int, actor: Option<int>, scheduled: bool): Result<Board, Refusal> {
    if id !in b.injects then Err(NotFound)
    else
      var inject := b.injects[id];
      if !ReleaseIsAllowed(b, inject, scheduled) then Err(NotCurrentBranch)
      else
        var contexts := Audience(inject, b.members);
        if contexts == {} then Err(NoAudience)
        else if inject.state != Pending then Err(NotPending)
        else
          Ok(b.(progress := b.progress[id := SeedRows(Rows(b, id), contexts)],
                injects := b.injects[id := inject.(state := Released, releasedAt := Some(b.now), releasedBy := actor)]))
  }

  // ── Response ──────────────────────────────────────────────────────────────

  /** The node a response to this inject leads to; none for an inject off the scenario. */
  function ResponseTarget(def: Definition, node: Option<string>, selected: Option<string>): Option<string> {
    if node.None? || node.value == "" then None else NextNode(def, node.value, selected)
  }

  function RowsComplete(rows: map<Context, Progress>): bool {
    rows.Keys != {} && forall c | c in rows :: rows[c].Done?
  }

  /** Close the inject once its last context has resolved. */
  function CloseIfComplete(inject: Inject, rows: map<Context, Progress>, now: int, actor: int): Inject {
    if RowsComplete(rows) then inject.(state := Resolved, resolvedAt := Some(now), resolvedBy := Some(actor))
    else inject
  }

  /** Move the context's cursor, unless the inject is off the scenario. */
  function AdvanceCursor(b: Board, id: int, context: Context, target: Option<string>): Board
    requires id in b.injects
  {
    if b.injects[id].node.None? then b
    else b.(cursors := b.cursors[context := Cursor(target, Some(id))],
            advances := b.advances + [Advance(id, context, target)])
  }

  function ResponseContext(inject: Inject, group: Context): Context {
    if group.Some? && group.value != "" then group else inject.group
  }

  /** Mark one context's row resolved, closing the inject if it was the last. */
  function MarkResolved(b: Board, id: int, context: Context, actor: int): Board
    requires id in b.injects
  {
    var rows := Rows(b, id)[context := Done(b.now, actor)];
    b.(progress := b.progress[id := rows],
       injects := b.injects[id := CloseIfComplete(b.injects[id], rows, b.now, actor)])
  }

  /** Resolve one context's path; a replay or a context outside the audience changes nothing. */
  function ResolveProgression(b: Board, id: int, group: Context, actor: int, target: Option<string>): Board
    requires id in b.injects
  {
    var context := ResponseContext(b.injects[id], group);
    var seeded := b.(progress := b.progress[id := SeedRows(Rows(b, id), Audience(b.injects[id], b.members))]);
    if context !in Rows(seeded, id) || Rows(seeded, id)[context].Done? then seeded
    else AdvanceCursor(MarkResolved(seeded, id, context, actor), id, context, target)
  }

  function RecordResponse(b: Board, id: int, user: int, group: Context, selected: Option<string>): Board {
    b.(responses := b.responses[id := Answers(b, id)[user := Response(group, selected, b.now)]])
  }

  /** The response transaction: one response per user, then progression. */
  function SubmitResponse(b: Board, id: int, user: int, group: Context, selected: Option<string>)
    : Result<Board, Refusal>
  {
    if id !in b.injects then Err(NotFound)
    else if b.injects[id].state == Pending then Err(NotReleased)
    else if user in Answers(b, id) then Err(AlreadyAnswered)
    else
      Ok(ResolveProgression(RecordResponse(b, id, user, group, selected), id, group, user,
                            ResponseTarget(b.def, b.injects[id].node, selected)))
  }

  // ── Runs ──────────────────────────────────────────────────────────────────

  datatype Step =
    | Enrol(user: int, group: Context, role: Role)
    | Regroup(user: int, group: Context)
    | Unenrol(user: int)
    | Create(node: Option<string>, group: Context, targets: seq<string>, duringRun: bool)
    | Delete(inject: int)
    | Reschedule(inject: int, offset: Option<nat>)
    | Release(inject: int, actor: Option<int>, scheduled: bool)
    | Respond(inject: int, user: int, group: Context, selected: Option<string>)
    | Idle

  /** The outcome of one transaction at the board's current instant. */
  function Attempt(b: Board, step: Step): Result<Board, Refusal> {
    match step
    case Enrol(user, group, role) => EnrolMember(b, user, group, role)
    case Regroup(user, group) => UpdateMemberGroup(b, user, group)
    case Unenrol(user) => RemoveMember(b, user)
    case Create(node, group, targets, duringRun) => Ok(CreateInject(b, node, group, targets, duringRun))
    case Delete(id) => DeletePendingInject(b, id)
    case Reschedule(id, offset) => RescheduleInject(b, id, offset)
    case Release(id, actor, scheduled) => ReleaseInject(b, id, actor, scheduled)
    case Respond(id, user, group, selected) => SubmitResponse(b, id, user, group, selected)
    case Idle => Ok(b)
  }

  function Tick(b: Board, dt: nat): Board {
    b.(now := b.now + dt)
  }

  /** A refused transaction rolls back and leaves the rows as they were. */
  function Commit(b: Board, step: Step): Board {
    match Attempt(b, step)
    case Ok(next) => next
    case Err(_) => b
  }

  datatype Timed = Timed(dt: nat, step: Step)

  function Apply(b: Board, t: Timed): Board {
    Commit(Tick(b, t.dt), t.step)
  }

  /** The rows after a whole sequence of transactions under a non-decreasing clock. */
  function Execute(b: Board, steps: seq<Timed>): Board {
    if steps == [] then b
    else Apply(Execute(b, steps[..|steps| - 1]), steps[|steps| - 1])
  }

  lemma {:induction false} ExecuteConcat(b: Board, first: seq<Timed>, rest: seq<Timed>)
    ensures Execute(b, first + rest) == Execute(Execute(b, first), rest)
  {
    if rest == [] {
      assert first + rest == first;
    } else {
      var n := |rest| - 1;
      ExecuteConcat(b, first, rest[..n]);
      assert (first + rest)[..|first + rest| - 1] == first + rest[..n];
    }
  }
}
