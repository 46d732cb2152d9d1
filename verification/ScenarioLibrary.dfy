/** The shared scenario library and the exercises that run its scenarios: edits, deletions, creation and
    launch, and the definition each exercise sees. */
module ScenarioLibrary {
  import opened Wrappers
  import L = LaunchSnapshot
  import S = Scenario
  import Ordering
  import Sorting

  datatype ScenarioRow = ScenarioRow(definition: S.Definition, createdBy: int)

  /** created is history: the definition the exercise was created from. */
  datatype ExerciseRow = ExerciseRow(
    scenario: int, title: string, llmEnabled: bool, digest: Option<string>, created: S.Definition)

  datatype Library = Library(
    scenarios: map<int, ScenarioRow>,
    exercises: map<int, ExerciseRow>,
    snapshots: map<string, L.Content>,
    nextScenario: int,
    nextExercise: int)

  const EMPTY := Library(map[], map[], map[], 0, 0)

  datatype Refusal = NotFound | InUse | NotDraft | DigestCollision | NotFreezable

  /** The rest of an exercise's draft configuration, as loaded at launch. */
  datatype Rows = Rows(
    injects: seq<L.InjectRow>, members: seq<L.MemberRow>, communications: seq<L.CommRow>,
    files: map<string, L.FileContent>)

  // ── Operations ────────────────────────────────────────────────────────────

  predicate InUseBy(lib: Library, id: int) {
    exists e | e in lib.exercises :: lib.exercises[e].scenario == id
  }

  function CreateScenario(lib: Library, definition: S.Definition, author: int): Library {
    lib.(scenarios := lib.scenarios[lib.nextScenario := ScenarioRow(definition, author)],
         nextScenario := lib.nextScenario + 1)
  }

  /** An in-use definition is never rewritten: the edit becomes a new revision. */
  function UpdateScenario(lib: Library, id: int, definition: S.Definition, editor: Option<int>): Result<Library, Refusal> {
    if id !in lib.scenarios then Err(NotFound)
    else if InUseBy(lib, id) then Ok(CreateScenario(lib, definition, editor.GetOr(lib.scenarios[id].createdBy)))
    else Ok(lib.(scenarios := lib.scenarios[id := lib.scenarios[id].(definition := definition)]))
  }

  function DeleteScenario(lib: Library, id: int): Result<Library, Refusal> {
    if id !in lib.scenarios then Err(NotFound)
    else if InUseBy(lib, id) then Err(InUse)
    else Ok(lib.(scenarios := lib.scenarios - {id}))
  }

  function CreateExercise(lib: Library, scenario: int, title: string, llmEnabled: bool): Result<Library, Refusal> {
    if scenario !in lib.scenarios then Err(NotFound)
    else
      var row := ExerciseRow(scenario, title, llmEnabled, None, lib.scenarios[scenario].definition);
      Ok(lib.(exercises := lib.exercises[lib.nextExercise := row], nextExercise := lib.nextExercise + 1))
  }

  function DeleteExercise(lib: Library, id: int): Result<Library, Refusal> {
    if id !in lib.exercises then Err(NotFound) else Ok(lib.(exercises := lib.exercises - {id}))
  }

  function DraftOf(lib: Library, e: ExerciseRow, rows: Rows): L.Draft
    requires e.scenario in lib.scenarios
  {
    L.Draft(lib.scenarios[e.scenario].definition, e.title, e.llmEnabled, rows.injects, rows.members, rows.communications)
  }

  /** Freeze the draft under its digest; an equal snapshot is shared, a collision refused. */
  function FreezeLaunch(lib: Library, id: int, rows: Rows, digest: L.Content -> string, to: L.Serialisers)
    : Result<Library, Refusal>
  {
    if id !in lib.exercises || lib.exercises[id].scenario !in lib.scenarios then Err(NotFound)
    else if lib.exercises[id].digest.Some? then Err(NotDraft)
    else if !L.Freezable(DraftOf(lib, lib.exercises[id], rows), rows.files) then Err(NotFreezable)
    else
      var content := L.Frozen(DraftOf(lib, lib.exercises[id], rows), rows.files, to);
      var d := digest(content);
      if d in lib.snapshots && lib.snapshots[d] != content then Err(DigestCollision)
      else
        Ok(lib.(snapshots := lib.snapshots[d := content],
                exercises := lib.exercises[id := lib.exercises[id].(digest := Some(d))]))
  }

  /** The frozen definition once launched, the library's until then. */
  function DefinitionFor(lib: Library, id: int): Option<S.Definition> {
    if id !in lib.exercises then None
    else
      var e := lib.exercises[id];
      if e.digest.Some? && e.digest.value in lib.snapshots then Some(lib.snapshots[e.digest.value].definition)
      else if e.scenario in lib.scenarios then Some(lib.scenarios[e.scenario].definition)
      else None
  }

  // ── Runs ──────────────────────────────────────────────────────────────────

  datatype Step =
    | Author(definition: S.Definition, author: int)
    | Edit(scenario: int, definition: S.Definition, editor: Option<int>)
    | Withdraw(scenario: int)
    | Schedule(scenario: int, title: string, llmEnabled: bool)
    | Discard(exercise: int)
    | Launch(exercise: int, rows: Rows)

  function Attempt(lib: Library, step: Step, digest: L.Content -> string, to: L.Serialisers): Result<Library, Refusal> {
    match step
    case Author(definition, author) => Ok(CreateScenario(lib, definition, author))
    case Edit(id, definition, editor) => UpdateScenario(lib, id, definition, editor)
    case Withdraw(id) => DeleteScenario(lib, id)
    case Schedule(id, title, llm) => CreateExercise(lib, id, title, llm)
    case Discard(id) => DeleteExercise(lib, id)
    case Launch(id, rows) => FreezeLaunch(lib, id, rows, digest, to)
  }

  function Apply(lib: Library, step: Step, digest: L.Content -> string, to: L.Serialisers): Library {
    match Attempt(lib, step, digest, to)
    case Ok(next) => next
    case Err(_) => lib
  }

  function Run(steps: seq<Step>, digest: L.Content -> string, to: L.Serialisers): Library {
    if steps == [] then EMPTY
    else Apply(Run(steps[..|steps| - 1], digest, to), steps[|steps| - 1], digest, to)
  }

  // ── The definition an exercise sees ───────────────────────────────────────

  /** Before launch the very definition it was created from; after, its canonical form. */
  ghost predicate Faithful(lib: Library, id: int)
    requires id in lib.exercises
  {
    var e := lib.exercises[id];
    match e.digest
    case None => e.scenario in lib.scenarios && lib.scenarios[e.scenario].definition == e.created
    case Some(d) => d in lib.snapshots && lib.snapshots[d].definition == L.CanonicalDefinition(e.created)
  }

  ghost predicate LibraryInv(lib: Library) {
    && (forall s | s in lib.scenarios :: s < lib.nextScenario)
    && (forall e | e in lib.exercises :: e < lib.nextExercise)
    && (forall e | e in lib.exercises :: Faithful(lib, e))
  }

  lemma LaunchKeepsFaith(lib: Library, id: int, rows: Rows, digest: L.Content -> string, to: L.Serialisers)
    requires LibraryInv(lib) && FreezeLaunch(lib, id, rows, digest, to).Ok?
    ensures LibraryInv(FreezeLaunch(lib, id, rows, digest, to).value)
  {
    var next := FreezeLaunch(lib, id, rows, digest, to).value;
    forall e | e in next.exercises ensures Faithful(next, e) {
      assert Faithful(lib, e);
    }
  }

  lemma ApplyKeepsFaith(lib: Library, step: Step, digest: L.Content -> string, to: L.Serialisers)
    requires LibraryInv(lib)
    ensures LibraryInv(Apply(lib, step, digest, to))
    ensures lib.nextExercise <= Apply(lib, step, digest, to).nextExercise
  {
    var next := Apply(lib, step, digest, to);
    if step.Launch? && Attempt(lib, step, digest, to).Ok? {
      LaunchKeepsFaith(lib, step.exercise, step.rows, digest, to);
    } else {
      forall e | e in next.exercises ensures Faithful(next, e) {
        if e in lib.exercises { assert Faithful(lib, e); }
      }
    }
  }

  lemma {:induction false} RunKeepsFaith(steps: seq<Step>, digest: L.Content -> string, to: L.Serialisers)
    ensures LibraryInv(Run(steps, digest, to))
  {
    if steps != [] {
      var n := |steps| - 1;
      RunKeepsFaith(steps[..n], digest, to);
      ApplyKeepsFaith(Run(steps[..n], digest, to), steps[n], digest, to);
    }
  }

  // ── What canonicalisation preserves ───────────────────────────────────────

  lemma {:induction false} CanonicalFindNode(nodes: seq<S.Node>, id: string)
    ensures S.FindNode(L.CanonicalNodes(nodes), id)
            == match S.FindNode(nodes, id) case None => None case Some(n) => Some(L.CanonicalNode(n))
  {
    if nodes != [] {
      CanonicalFindNode(nodes[1..], id);
      assert L.CanonicalNodes(nodes)[1..] == L.CanonicalNodes(nodes[1..]);
    }
  }

  lemma {:induction false} CanonicalReferenced(nodes: seq<S.Node>)
    ensures S.ReferencedIn(L.CanonicalNodes(nodes)) == S.ReferencedIn(nodes)
  {
    if nodes != [] {
      CanonicalReferenced(nodes[1..]);
      assert L.CanonicalNodes(nodes)[1..] == L.CanonicalNodes(nodes[1..]);
    }
  }

  ghost predicate SameNode(a: S.Node, b: S.Node) {
    a.(targetTeams := []) == b.(targetTeams := []) && multiset(a.targetTeams) == multiset(b.targetTeams)
  }

  /** The same nodes in the same order, up to the order of each node's target teams. */
  ghost predicate SameNodes(a: S.Definition, b: S.Definition) {
    && a.start == b.start && a.teams == b.teams && |a.injects| == |b.injects|
    && forall i | 0 <= i < |a.injects| :: SameNode(a.injects[i], b.injects[i])
  }

  ghost predicate SameBranches(a: S.Definition, b: S.Definition) {
    && (forall id :: S.GetNextInjectIds(a, id) == S.GetNextInjectIds(b, id))
    && (forall id, option :: S.ResolveBranch(a, id, option) == S.ResolveBranch(b, id, option))
  }

  ghost predicate SameSuccessors(a: S.Definition, b: S.Definition) {
    forall id, option :: S.ResponseNextInjectIds(a, id, option) == S.ResponseNextInjectIds(b, id, option)
  }

  /** Everything a run reads of the graph. */
  ghost predicate SameGraph(a: S.Definition, b: S.Definition) {
    SameNodes(a, b) && SameBranches(a, b) && SameSuccessors(a, b) && S.Referenced(a) == S.Referenced(b)
  }

  lemma CanonicalBranches(def: S.Definition, id: string, option: string)
    ensures var canonical := L.CanonicalDefinition(def);
            && S.GetNextInjectIds(canonical, id) == S.GetNextInjectIds(def, id)
            && S.ResolveBranch(canonical, id, option) == S.ResolveBranch(def, id, option)
  {
    CanonicalFindNode(def.injects, id);
  }

  lemma CanonicalSuccessors(def: S.Definition, id: string, option: Option<string>)
    ensures S.ResponseNextInjectIds(L.CanonicalDefinition(def), id, option) == S.ResponseNextInjectIds(def, id, option)
  {
    CanonicalFindNode(def.injects, id);
    CanonicalBranches(def, id, option.GetOr(""));
  }

  lemma CanonicalIsSameNodes(def: S.Definition)
    ensures SameNodes(L.CanonicalDefinition(def), def)
  {
    forall i | 0 <= i < |def.injects| ensures SameNode(L.CanonicalNode(def.injects[i]), def.injects[i]) {
      Ordering.StringsSortForgetsOrder(def.injects[i].targetTeams, def.injects[i].targetTeams);
    }
  }

  lemma CanonicalIsSameBranches(def: S.Definition)
    ensures SameBranches(L.CanonicalDefinition(def), def)
  {
    var canonical := L.CanonicalDefinition(def);
    forall id ensures S.GetNextInjectIds(canonical, id) == S.GetNextInjectIds(def, id) {
      CanonicalBranches(def, id, "");
    }
    forall id, option ensures S.ResolveBranch(canonical, id, option) == S.ResolveBranch(def, id, option) {
      CanonicalBranches(def, id, option);
    }
  }

  lemma CanonicalIsSameGraph(def: S.Definition)
    ensures SameGraph(L.CanonicalDefinition(def), def)
  {
    CanonicalReferenced(def.injects);
    CanonicalIsSameNodes(def);
    CanonicalIsSameBranches(def);
    forall id, option
      ensures S.ResponseNextInjectIds(L.CanonicalDefinition(def), id, option) == S.ResponseNextInjectIds(def, id, option)
    {
      CanonicalSuccessors(def, id, option);
    }
  }

  // ── Main result ───────────────────────────────────────────────────────────

  /** For every interleaving of edits, deletions, creations and launches: an existing exercise always
      sees a definition, and its graph is that of the definition it was created from. */
  lemma GraphNeverChanges(steps: seq<Step>, digest: L.Content -> string, to: L.Serialisers, id: int)
    requires id in Run(steps, digest, to).exercises
    ensures var lib := Run(steps, digest, to);
            && DefinitionFor(lib, id).Some?
            && SameGraph(DefinitionFor(lib, id).value, lib.exercises[id].created)
  {
    var lib := Run(steps, digest, to);
    RunKeepsFaith(steps, digest, to);
    assert Faithful(lib, id);
    if lib.exercises[id].digest.Some? { CanonicalIsSameGraph(lib.exercises[id].created); }
  }

  /** And `created` is what its name says: fixed when the exercise is created, and never touched. */
  lemma CreationIsRemembered(lib: Library, step: Step, digest: L.Content -> string, to: L.Serialisers, id: int)
    requires LibraryInv(lib) && id in Apply(lib, step, digest, to).exercises
    ensures id in lib.exercises ==> Apply(lib, step, digest, to).exercises[id].created == lib.exercises[id].created
    ensures id !in lib.exercises ==>
              && step.Schedule? && step.scenario in lib.scenarios
              && Apply(lib, step, digest, to).exercises[id].created == lib.scenarios[step.scenario].definition
  {
    if id in lib.exercises && step.Schedule? { assert id < lib.nextExercise; }
  }

  // ── What each operation does ──────────────────────────────────────────────

  /** Some exercise runs the scenario. */
  ghost predicate Runs(lib: Library, id: int) {
    exists e :: e in lib.exercises && lib.exercises[e].scenario == id
  }

  /** An edit rewrites a scenario no exercise runs, under its author; one that is run stands, and the edit
      becomes a new scenario under the editor, or under the author if nobody is named. */
  lemma EditOutcome(lib: Library, id: int, definition: S.Definition, editor: Option<int>)
    ensures UpdateScenario(lib, id, definition, editor).Ok? <==> id in lib.scenarios
    ensures UpdateScenario(lib, id, definition, editor).Ok? ==>
              var next := UpdateScenario(lib, id, definition, editor).value;
              var author := lib.scenarios[id].createdBy;
              && next == lib.(scenarios := next.scenarios, nextScenario := next.nextScenario)
              && next.nextScenario == lib.nextScenario + (if Runs(lib, id) then 1 else 0)
              && next.scenarios == if !Runs(lib, id) then lib.scenarios[id := ScenarioRow(definition, author)]
                                   else lib.scenarios[lib.nextScenario := ScenarioRow(definition, editor.GetOr(author))]
  {
  }

  /** Only a scenario no exercise runs is deleted, and no other with it. */
  lemma WithdrawOutcome(lib: Library, id: int)
    ensures DeleteScenario(lib, id).Ok? <==> id in lib.scenarios && !Runs(lib, id)
    ensures DeleteScenario(lib, id).Ok? ==>
              var next := DeleteScenario(lib, id).value;
              && next == lib.(scenarios := next.scenarios) && next.scenarios.Keys == lib.scenarios.Keys - {id}
              && forall q | q in next.scenarios :: next.scenarios[q] == lib.scenarios[q]
  {
  }

  /** A launch goes through if and only if the exercise and its scenario are there, it has not been launched,
      its draft may be frozen, and no other content has its digest. From then on the exercise sees the
      canonical form of the definition it had; no other exercise sees a change. */
  lemma LaunchOutcome(lib: Library, id: int, rows: Rows, digest: L.Content -> string, to: L.Serialisers, other: int)
    ensures FreezeLaunch(lib, id, rows, digest, to).Ok?
            <==> && id in lib.exercises && lib.exercises[id].digest == None && lib.exercises[id].scenario in lib.scenarios
                 && var draft := DraftOf(lib, lib.exercises[id], rows);
                    && L.Freezable(draft, rows.files)
                    && var content := L.Frozen(draft, rows.files, to);
                       digest(content) in lib.snapshots ==> lib.snapshots[digest(content)] == content
    ensures FreezeLaunch(lib, id, rows, digest, to).Ok? ==>
              var next := FreezeLaunch(lib, id, rows, digest, to).value;
              && DefinitionFor(next, id) == Some(L.CanonicalDefinition(lib.scenarios[lib.exercises[id].scenario].definition))
              && (other != id ==> DefinitionFor(next, other) == DefinitionFor(lib, other)
                                  || (other in lib.exercises && lib.exercises[other].digest.Some?
                                      && lib.exercises[other].digest.value !in lib.snapshots))
              && next.scenarios == lib.scenarios && next.exercises.Keys == lib.exercises.Keys
  {
    hide L.Freezable, L.CanonicalDefinition;
  }

  // ── The library, updated in place ─────────────────────────────────────────

  class Store {
    var scenarios: map<int, ScenarioRow>
    var exercises: map<int, ExerciseRow>
    var snapshots: map<string, L.Content>
    var nextScenario: int
    var nextExercise: int

    function Model(): Library
      reads this
    {
      Library(scenarios, exercises, snapshots, nextScenario, nextExercise)
    }

    constructor ()
      ensures Model() == EMPTY
    {
      scenarios, exercises, snapshots, nextScenario, nextExercise := map[], map[], map[], 0, 0;
    }

    method AddScenario(definition: S.Definition, author: int) returns (id: int)
      modifies this`scenarios, this`nextScenario
      ensures id == old(nextScenario) && Model() == CreateScenario(old(Model()), definition, author)
    {
      id := nextScenario;
      scenarios := scenarios[id := ScenarioRow(definition, author)];
      nextScenario := nextScenario + 1;
    }

    /** Rewrite an unused scenario; fork a revision of one in use. */
    method EditScenario(id: int, definition: S.Definition, editor: Option<int>) returns (result: Option<int>)
      modifies this`scenarios, this`nextScenario
      ensures match UpdateScenario(old(Model()), id, definition, editor)
              case Err(_) => result.None? && Model() == old(Model())
              case Ok(next) =>
                && Model() == next
                && result == Some(if InUseBy(old(Model()), id) then old(nextScenario) else id)
    {
      if id !in scenarios {
        return None;
      }
      if exists e | e in exercises :: exercises[e].scenario == id {
        var fork := AddScenario(definition, editor.GetOr(scenarios[id].createdBy));
        return Some(fork);
      }
      scenarios := scenarios[id := scenarios[id].(definition := definition)];
      return Some(id);
    }

    method RemoveScenario(id: int) returns (outcome: Option<Refusal>)
      modifies this`scenarios
      ensures match DeleteScenario(old(Model()), id)
              case Err(e) => outcome == Some(e) && Model() == old(Model())
              case Ok(next) => outcome.None? && Model() == next
    {
      if id !in scenarios {
        return Some(NotFound);
      }
      if exists e | e in exercises :: exercises[e].scenario == id {
        return Some(InUse);
      }
      scenarios := scenarios - {id};
      return None;
    }

    method AddExercise(scenario: int, title: string, llmEnabled: bool) returns (outcome: Option<Refusal>)
      modifies this`exercises, this`nextExercise
      ensures match CreateExercise(old(Model()), scenario, title, llmEnabled)
              case Err(e) => outcome == Some(e) && Model() == old(Model())
              case Ok(next) => outcome.None? && Model() == next
    {
      if scenario !in scenarios {
        return Some(NotFound);
      }
      var row := ExerciseRow(scenario, title, llmEnabled, None, scenarios[scenario].definition);
      exercises := exercises[nextExercise := row];
      nextExercise := nextExercise + 1;
      return None;
    }

    /** Build the content, store it under its digest unless it is there, and point the exercise at it. */
    method Freeze(id: int, rows: Rows, digest: L.Content -> string, to: L.Serialisers) returns (outcome: Option<Refusal>)
      modifies this`exercises, this`snapshots
      ensures match FreezeLaunch(old(Model()), id, rows, digest, to)
              case Err(e) => outcome == Some(e) && Model() == old(Model())
              case Ok(next) => outcome.None? && Model() == next
    {
      if id !in exercises || exercises[id].scenario !in scenarios {
        return Some(NotFound);
      }
      var e := exercises[id];
      if e.digest.Some? {
        return Some(NotDraft);
      }
      var draft := L.Draft(scenarios[e.scenario].definition, e.title, e.llmEnabled,
                           rows.injects, rows.members, rows.communications);
      var built := L.BuildLaunchContent(draft, rows.files, to);
      if built.Err? {
        return Some(NotFreezable);
      }
      hide L.Frozen, L.Freezable;
      var d := digest(built.value);
      if d !in snapshots {
        snapshots := snapshots[d := built.value];
      } else if snapshots[d] != built.value {
        return Some(DigestCollision);
      }
      exercises := exercises[id := e.(digest := Some(d))];
      return None;
    }
  }
}
