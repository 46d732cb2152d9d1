/** The launch snapshot: a canonical projection of an exercise's draft configuration. */
module LaunchSnapshot {
  import opened Filtering
  import opened Ordering
  import opened Wrappers
  import S = Scenario
  import Sorting

  // ── Rows as loaded ────────────────────────────────────────────────────────

  /** Where a row came from; legacy rows cannot tell. */
  datatype Origin = Drafted | DuringRun | Unknown

  datatype StoredFile = StoredFile(path: string, filename: string, contentType: string, size: Option<nat>)

  datatype InjectRow = InjectRow(
    id: int, node: Option<string>, title: string, content: string, targets: seq<string>,
    group: Option<string>, order: int, offset: Option<nat>, attachment: Option<StoredFile>, origin: Origin)

  datatype MemberRow = MemberRow(id: int, user: int, group: Option<string>, role: string, origin: Origin)

  datatype CommRow = CommRow(
    id: int, direction: string, sender: Option<int>, senderTeam: Option<string>, entity: Option<string>,
    subject: string, body: string, visible: seq<string>, sentAt: string, origin: Origin)

  /** What reading an attachment file yields. */
  datatype FileContent = FileContent(sha256: string, size: nat)

  // ── Items as frozen ───────────────────────────────────────────────────────

  datatype Attachment = Attachment(filename: string, contentType: string, size: nat, sha256: string)

  datatype InjectItem = InjectItem(
    node: Option<string>, title: string, content: string, targets: seq<string>, group: Option<string>,
    order: int, offset: Option<nat>, attachment: Option<Attachment>)

  datatype MemberItem = MemberItem(user: int, group: Option<string>, role: string)

  datatype CommItem = CommItem(
    direction: string, sender: Option<int>, senderTeam: Option<string>, entity: Option<string>,
    subject: string, body: string, visible: seq<string>, sentAt: string)

  datatype Content = Content(
    definition: S.Definition, title: string, llmEnabled: bool,
    injects: seq<InjectItem>, members: seq<MemberItem>, communications: seq<CommItem>)

  /** Canonical serialisations of the three kinds of item. */
  datatype Serialisers = Serialisers(
    inject: InjectItem -> string, member: MemberItem -> string, comm: CommItem -> string)

  datatype Refusal =
    | UncertainMember | UncertainCommunication | UncertainInject | AttachmentUnavailable | AttachmentChanged

  // ── Canonical definitions ─────────────────────────────────────────────────

  function SortedTeams(teams: seq<string>): seq<string> {
    Sorting.Sort(StringLe, teams)
  }

  function CanonicalNode(node: S.Node): S.Node {
    node.(targetTeams := SortedTeams(node.targetTeams))
  }

  function CanonicalNodes(nodes: seq<S.Node>): seq<S.Node> {
    seq(|nodes|, i requires 0 <= i < |nodes| => CanonicalNode(nodes[i]))
  }

  /** Only the set-like team lists are reordered; the authored sequence stands. */
  function CanonicalDefinition(def: S.Definition): S.Definition {
    def.(injects := CanonicalNodes(def.injects))
  }

  // ── Projections ───────────────────────────────────────────────────────────

  function AttachmentOf(row: InjectRow, files: map<string, FileContent>): Result<Option<Attachment>, Refusal> {
    match row.attachment
    case None => Ok(None)
    case Some(file) =>
      if file.path !in files then Err(AttachmentUnavailable)
      else if file.size.Some? && files[file.path].size != file.size.value then Err(AttachmentChanged)
      else Ok(Some(Attachment(file.filename, file.contentType, files[file.path].size, files[file.path].sha256)))
  }

  function InjectOf(row: InjectRow, attachment: Option<Attachment>): InjectItem {
    InjectItem(row.node, row.title, row.content, SortedTeams(row.targets), row.group, row.order, row.offset, attachment)
  }

  function MemberOf(row: MemberRow): MemberItem {
    MemberItem(row.user, row.group, row.role)
  }

  function CommOf(row: CommRow): CommItem {
    CommItem(row.direction, row.sender, row.senderTeam, row.entity, row.subject, row.body, SortedTeams(row.visible),
             row.sentAt)
  }

  function InjectKey(serialise: InjectItem -> string): InjectItem -> Key {
    (item: InjectItem) => Key(item.order, item.node.GetOr(""), item.group.GetOr(""), serialise(item))
  }

  function MemberKey(serialise: MemberItem -> string): MemberItem -> Key {
    (item: MemberItem) => Key(item.user, "", "", serialise(item))
  }

  function CommKey(serialise: CommItem -> string): CommItem -> Key {
    (item: CommItem) => Key(0, item.sentAt, "", serialise(item))
  }

  // ── The draft, and what it freezes to ─────────────────────────────────────

  datatype Draft = Draft(
    definition: S.Definition, title: string, llmEnabled: bool,
    injects: seq<InjectRow>, members: seq<MemberRow>, communications: seq<CommRow>)

  /** Every row is known to be draft configuration, and every attachment is as it was stored. */
  predicate Freezable(d: Draft, files: map<string, FileContent>) {
    && (forall m | m in d.members :: m.origin == Drafted)
    && (forall c | c in d.communications :: c.origin == Drafted)
    && (forall i | i in d.injects :: i.origin == Drafted && AttachmentOf(i, files).Ok?)
  }

  function InjectItems(rows: seq<InjectRow>, files: map<string, FileContent>): seq<InjectItem>
    requires forall i | i in rows :: AttachmentOf(i, files).Ok?
  {
    if rows == [] then []
    else
      var n := |rows| - 1;
      InjectItems(rows[..n], files) + [InjectOf(rows[n], AttachmentOf(rows[n], files).value)]
  }

  function MemberItems(rows: seq<MemberRow>): seq<MemberItem> {
    if rows == [] then [] else MemberItems(rows[..|rows| - 1]) + [MemberOf(rows[|rows| - 1])]
  }

  function CommItems(rows: seq<CommRow>): seq<CommItem> {
    if rows == [] then [] else CommItems(rows[..|rows| - 1]) + [CommOf(rows[|rows| - 1])]
  }

  function Frozen(d: Draft, files: map<string, FileContent>, to: Serialisers): Content
    requires Freezable(d, files)
  {
    Content(CanonicalDefinition(d.definition), d.title, d.llmEnabled,
            Sorting.Sort(ByKey(InjectKey(to.inject)), InjectItems(d.injects, files)),
            Sorting.Sort(ByKey(MemberKey(to.member)), MemberItems(d.members)),
            Sorting.Sort(ByKey(CommKey(to.comm)), CommItems(d.communications)))
  }

  method BuildLaunchContent(d: Draft, files: map<string, FileContent>, to: Serialisers)
    returns (r: Result<Content, Refusal>)
    ensures r.Ok? <==> Freezable(d, files)
    ensures r.Ok? ==> r.value == Frozen(d, files, to)
  {
    if m :| m in d.members && m.origin != Drafted {
      return Err(UncertainMember);
    }
    if c :| c in d.communications && c.origin != Drafted {
      return Err(UncertainCommunication);
    }
    var injects: seq<InjectItem> := [];
    for i := 0 to |d.injects|
      invariant forall row | row in d.injects[..i] :: row.origin == Drafted && AttachmentOf(row, files).Ok?
      invariant injects == InjectItems(d.injects[..i], files)
    {
      var row := d.injects[i];
      assert d.injects[..i + 1][..i] == d.injects[..i];
      if row.origin != Drafted {
        return Err(UncertainInject);
      }
      var attachment := AttachmentOf(row, files);
      if attachment.Err? {
        return Err(attachment.error);
      }
      injects := injects + [InjectOf(row, attachment.value)];
    }
    assert d.injects[..|d.injects|] == d.injects;
    var members := MemberItems(d.members);
    var communications := CommItems(d.communications);
    injects := Sorting.Sort(ByKey(InjectKey(to.inject)), injects);
    members := Sorting.Sort(ByKey(MemberKey(to.member)), members);
    communications := Sorting.Sort(ByKey(CommKey(to.comm)), communications);
    return Ok(Content(CanonicalDefinition(d.definition), d.title, d.llmEnabled, injects, members, communications));
  }

  // ── Content is canonical ──────────────────────────────────────────────────

  lemma CanonicalForgetsTeamOrder(a: S.Definition, b: S.Definition)
    requires a.(injects := []) == b.(injects := []) && |a.injects| == |b.injects|
    requires forall i | 0 <= i < |a.injects| ::
               && a.injects[i].(targetTeams := []) == b.injects[i].(targetTeams := [])
               && multiset(a.injects[i].targetTeams) == multiset(b.injects[i].targetTeams)
    ensures CanonicalDefinition(a) == CanonicalDefinition(b)
  {
    forall i | 0 <= i < |a.injects| ensures CanonicalNode(a.injects[i]) == CanonicalNode(b.injects[i]) {
      StringsSortForgetsOrder(a.injects[i].targetTeams, b.injects[i].targetTeams);
      assert a.injects[i].(targetTeams := SortedTeams(a.injects[i].targetTeams))
             == a.injects[i].(targetTeams := []).(targetTeams := SortedTeams(a.injects[i].targetTeams));
    }
    assert CanonicalNodes(a.injects) == CanonicalNodes(b.injects);
    assert a.(injects := CanonicalNodes(a.injects)) == a.(injects := []).(injects := CanonicalNodes(a.injects));
  }

  /** A projection forgets its row's id and the order of its team list. */
  lemma ProjectionForgetsTeamOrder(a: InjectRow, b: InjectRow, attachment: Option<Attachment>)
    requires a.(id := 0, targets := []) == b.(id := 0, targets := []) && multiset(a.targets) == multiset(b.targets)
    ensures InjectOf(a, attachment) == InjectOf(b, attachment)
  {
    StringsSortForgetsOrder(a.targets, b.targets);
    var plain := a.(id := 0, targets := []);
    assert plain.node == a.node == b.node && plain.title == a.title == b.title && plain.content == a.content == b.content;
    assert plain.group == a.group == b.group && plain.order == a.order == b.order && plain.offset == a.offset == b.offset;
  }

  /** Two drafts of equal definition and settings, whose rows project to the same injects, members and
      communications with the same multiplicities, freeze to equal content - whatever their row ids and
      whatever order they were loaded in. */
  lemma ContentIsCanonical(a: Draft, b: Draft, files: map<string, FileContent>, files': map<string, FileContent>,
                           to: Serialisers)
    requires Injective(to.inject) && Injective(to.member) && Injective(to.comm)
    requires Freezable(a, files) && Freezable(b, files')
    requires CanonicalDefinition(a.definition) == CanonicalDefinition(b.definition)
    requires a.title == b.title && a.llmEnabled == b.llmEnabled
    requires multiset(InjectItems(a.injects, files)) == multiset(InjectItems(b.injects, files'))
    requires multiset(MemberItems(a.members)) == multiset(MemberItems(b.members))
    requires multiset(CommItems(a.communications)) == multiset(CommItems(b.communications))
    ensures Frozen(a, files, to) == Frozen(b, files', to)
  {
    KeyedSortForgetsOrder(InjectKey(to.inject), to.inject, InjectItems(a.injects, files), InjectItems(b.injects, files'));
    KeyedSortForgetsOrder(MemberKey(to.member), to.member, MemberItems(a.members), MemberItems(b.members));
    KeyedSortForgetsOrder(CommKey(to.comm), to.comm, CommItems(a.communications), CommItems(b.communications));
  }

  /** And equal content means the drafts were alike: nothing but ids and orders is forgotten. */
  lemma ContentDeterminesRows(a: Draft, b: Draft, files: map<string, FileContent>, files': map<string, FileContent>,
                              to: Serialisers)
    requires Freezable(a, files) && Freezable(b, files') && Frozen(a, files, to) == Frozen(b, files', to)
    ensures CanonicalDefinition(a.definition) == CanonicalDefinition(b.definition)
    ensures a.title == b.title && a.llmEnabled == b.llmEnabled
    ensures multiset(InjectItems(a.injects, files)) == multiset(InjectItems(b.injects, files'))
    ensures multiset(MemberItems(a.members)) == multiset(MemberItems(b.members))
    ensures multiset(CommItems(a.communications)) == multiset(CommItems(b.communications))
  {
    ByKeyIsAnOrder(InjectKey(to.inject));
    ByKeyIsAnOrder(MemberKey(to.member));
    ByKeyIsAnOrder(CommKey(to.comm));
    Sorting.SortCorrect(ByKey(InjectKey(to.inject)), InjectItems(a.injects, files));
    Sorting.SortCorrect(ByKey(InjectKey(to.inject)), InjectItems(b.injects, files'));
    Sorting.SortCorrect(ByKey(MemberKey(to.member)), MemberItems(a.members));
    Sorting.SortCorrect(ByKey(MemberKey(to.member)), MemberItems(b.members));
    Sorting.SortCorrect(ByKey(CommKey(to.comm)), CommItems(a.communications));
    Sorting.SortCorrect(ByKey(CommKey(to.comm)), CommItems(b.communications));
  }

  // ── What may be frozen, and in what order ─────────────────────────────────

  /** The row's file, if it has one, can be read and still has the size it was stored with. */
  ghost predicate FileStands(row: InjectRow, files: map<string, FileContent>) {
    forall file :: row.attachment == Some(file) ==>
      file.path in files && forall size :: file.size == Some(size) ==> files[file.path].size == size
  }

  /** A draft can be launched if and only if every row is known to be draft configuration - neither of the
      run's own nor of unknown origin - and every attachment stands. */
  lemma FreezableExactlyWhen(d: Draft, files: map<string, FileContent>)
    ensures Freezable(d, files)
            <==> && (forall i | 0 <= i < |d.members| :: d.members[i].origin == Drafted)
                 && (forall i | 0 <= i < |d.communications| :: d.communications[i].origin == Drafted)
                 && (forall i | 0 <= i < |d.injects| :: d.injects[i].origin == Drafted && FileStands(d.injects[i], files))
  {
    forall i | 0 <= i < |d.injects| ensures FileStands(d.injects[i], files) <==> AttachmentOf(d.injects[i], files).Ok? {
      FileStandsExactlyWhen(d.injects[i], files);
    }
    hide FileStands, AttachmentOf;
  }

  lemma FileStandsExactlyWhen(row: InjectRow, files: map<string, FileContent>)
    ensures FileStands(row, files) <==> AttachmentOf(row, files).Ok?
  {
  }

  /** One inject comes before another: by its order, then its node, then its group; no node or group counts
      as a blank one. */
  ghost predicate ComesBefore(a: InjectItem, b: InjectItem) {
    || a.order < b.order
    || (a.order == b.order
        && if a.node.GetOr("") != b.node.GetOr("") then StringLe(a.node.GetOr(""), b.node.GetOr(""))
           else StringLe(a.group.GetOr(""), b.group.GetOr("")))
  }

  /** The content lists the injects in their authored order, the members by user and the communications by
      the time they were sent, one entry for each row. */
  lemma FrozenIsInOrder(d: Draft, files: map<string, FileContent>, to: Serialisers)
    requires Freezable(d, files)
    ensures var content := Frozen(d, files, to);
            && (forall i, j | 0 <= i < j < |content.injects| :: ComesBefore(content.injects[i], content.injects[j]))
            && (forall i, j | 0 <= i < j < |content.members| :: content.members[i].user <= content.members[j].user)
            && (forall i, j | 0 <= i < j < |content.communications| ::
                  StringLe(content.communications[i].sentAt, content.communications[j].sentAt))
            && |content.injects| == |d.injects| && |content.members| == |d.members|
            && |content.communications| == |d.communications|
  {
    InjectsInOrder(d, files, to);
    MembersInOrder(d, files, to);
    CommsInOrder(d, files, to);
    hide ComesBefore, InjectItems, MemberItems, CommItems, Freezable;
  }

  lemma InjectsInOrder(d: Draft, files: map<string, FileContent>, to: Serialisers)
    requires Freezable(d, files)
    ensures var sorted := Sorting.Sort(ByKey(InjectKey(to.inject)), InjectItems(d.injects, files));
            |sorted| == |d.injects| && forall i, j | 0 <= i < j < |sorted| :: ComesBefore(sorted[i], sorted[j])
  {
    var le, items := ByKey(InjectKey(to.inject)), InjectItems(d.injects, files);
    ByKeyIsAnOrder(InjectKey(to.inject));
    Sorting.SortCorrect(le, items);
    InjectItemsAre(d.injects, files);
    var sorted := Sorting.Sort(le, items);
    assert |multiset(sorted)| == |multiset(items)|;
    hide InjectItems, Sorting.Sort, AttachmentOf;
    forall i, j | 0 <= i < j < |sorted| ensures ComesBefore(sorted[i], sorted[j]) {
      assert le(sorted[i], sorted[j]);
      StringTotal(sorted[i].group.GetOr(""), sorted[i].group.GetOr(""));
    }
  }

  lemma MembersInOrder(d: Draft, files: map<string, FileContent>, to: Serialisers)
    ensures var sorted := Sorting.Sort(ByKey(MemberKey(to.member)), MemberItems(d.members));
            |sorted| == |d.members| && forall i, j | 0 <= i < j < |sorted| :: sorted[i].user <= sorted[j].user
  {
    var le, items := ByKey(MemberKey(to.member)), MemberItems(d.members);
    ByKeyIsAnOrder(MemberKey(to.member));
    Sorting.SortCorrect(le, items);
    MemberItemsAre(d.members);
    var sorted := Sorting.Sort(le, items);
    assert |multiset(sorted)| == |multiset(items)|;
    hide MemberItems, Sorting.Sort;
    forall i, j | 0 <= i < j < |sorted| ensures sorted[i].user <= sorted[j].user { assert le(sorted[i], sorted[j]); }
  }

  lemma CommsInOrder(d: Draft, files: map<string, FileContent>, to: Serialisers)
    ensures var sorted := Sorting.Sort(ByKey(CommKey(to.comm)), CommItems(d.communications));
            && |sorted| == |d.communications|
            && forall i, j | 0 <= i < j < |sorted| :: StringLe(sorted[i].sentAt, sorted[j].sentAt)
  {
    var le, items := ByKey(CommKey(to.comm)), CommItems(d.communications);
    ByKeyIsAnOrder(CommKey(to.comm));
    Sorting.SortCorrect(le, items);
    CommItemsAre(d.communications);
    var sorted := Sorting.Sort(le, items);
    assert |multiset(sorted)| == |multiset(items)|;
    hide CommItems, Sorting.Sort;
    forall i, j | 0 <= i < j < |sorted| ensures StringLe(sorted[i].sentAt, sorted[j].sentAt) {
      assert le(sorted[i], sorted[j]);
      StringTotal(sorted[i].sentAt, sorted[i].sentAt);
    }
  }

  // ── What an item says of its row ──────────────────────────────────────────

  /** Two rows say the same, but for their ids and the order of their teams. */
  ghost predicate SameInjectRow(a: InjectRow, b: InjectRow) {
    && a.node == b.node && a.title == b.title && a.content == b.content && a.group == b.group
    && a.order == b.order && a.offset == b.offset && multiset(a.targets) == multiset(b.targets)
  }

  ghost predicate SameMemberRow(a: MemberRow, b: MemberRow) {
    a.user == b.user && a.group == b.group && a.role == b.role
  }

  ghost predicate SameCommRow(a: CommRow, b: CommRow) {
    && a.direction == b.direction && a.sender == b.sender && a.senderTeam == b.senderTeam && a.entity == b.entity
    && a.subject == b.subject && a.body == b.body && a.sentAt == b.sentAt && multiset(a.visible) == multiset(b.visible)
  }

  lemma SortedTeamsExactlyWhen(a: seq<string>, b: seq<string>)
    ensures SortedTeams(a) == SortedTeams(b) <==> multiset(a) == multiset(b)
  {
    StringsSortForgetsOrder(a, a);
    StringsSortForgetsOrder(b, b);
    if multiset(a) == multiset(b) { StringsSortForgetsOrder(a, b); }
  }

  /** Two injects freeze alike if and only if their rows say the same and their files, if any, carry the
      same name, type, size and digest. */
  lemma InjectItemsEqualExactlyWhen(a: InjectRow, b: InjectRow, x: Option<Attachment>, y: Option<Attachment>)
    ensures InjectOf(a, x) == InjectOf(b, y) <==> SameInjectRow(a, b) && x == y
  {
    SortedTeamsExactlyWhen(a.targets, b.targets);
  }

  lemma MemberItemsEqualExactlyWhen(a: MemberRow, b: MemberRow)
    ensures MemberOf(a) == MemberOf(b) <==> SameMemberRow(a, b)
  {
  }

  lemma CommItemsEqualExactlyWhen(a: CommRow, b: CommRow)
    ensures CommOf(a) == CommOf(b) <==> SameCommRow(a, b)
  {
    SortedTeamsExactlyWhen(a.visible, b.visible);
  }

  /** A file is frozen if and only if it can be read and still has the size it was stored with; then with
      its stored name and type and the size and digest it has now. */
  lemma AttachmentExactlyWhen(row: InjectRow, files: map<string, FileContent>, attachment: Option<Attachment>)
    ensures AttachmentOf(row, files) == Ok(attachment)
            <==> if row.attachment.None? then attachment == None
                 else
                   var file := row.attachment.value;
                   && file.path in files && (file.size.None? || file.size.value == files[file.path].size)
                   && attachment.Some? && attachment.value.filename == file.filename
                   && attachment.value.contentType == file.contentType
                   && attachment.value.size == files[file.path].size && attachment.value.sha256 == files[file.path].sha256
  {
  }

  lemma {:induction false} InjectItemsAre(rows: seq<InjectRow>, files: map<string, FileContent>)
    requires forall i | i in rows :: AttachmentOf(i, files).Ok?
    ensures |InjectItems(rows, files)| == |rows|
    ensures forall i | 0 <= i < |rows| ::
              rows[i] in rows && InjectItems(rows, files)[i] == InjectOf(rows[i], AttachmentOf(rows[i], files).value)
  {
    if rows != [] { InjectItemsAre(rows[..|rows| - 1], files); }
  }

  lemma {:induction false} MemberItemsAre(rows: seq<MemberRow>)
    ensures |MemberItems(rows)| == |rows| && forall i | 0 <= i < |rows| :: MemberItems(rows)[i] == MemberOf(rows[i])
  {
    if rows != [] { MemberItemsAre(rows[..|rows| - 1]); }
  }

  lemma {:induction false} CommItemsAre(rows: seq<CommRow>)
    ensures |CommItems(rows)| == |rows| && forall i | 0 <= i < |rows| :: CommItems(rows)[i] == CommOf(rows[i])
  {
    if rows != [] { CommItemsAre(rows[..|rows| - 1]); }
  }

  /** The rows that say what this one says, with an attachment that freezes to this. */
  ghost function InjectsLike(d: Draft, files: map<string, FileContent>, row: InjectRow, attachment: Option<Attachment>)
    : set<int>
  {
    set i | 0 <= i < |d.injects| && SameInjectRow(d.injects[i], row)
            && AttachmentOf(d.injects[i], files) == Ok(attachment)
  }

  ghost function MembersLike(d: Draft, row: MemberRow): set<int> {
    set i | 0 <= i < |d.members| && SameMemberRow(d.members[i], row)
  }

  ghost function CommsLike(d: Draft, row: CommRow): set<int> {
    set i | 0 <= i < |d.communications| && SameCommRow(d.communications[i], row)
  }

  lemma InjectsLikeCounted(d: Draft, files: map<string, FileContent>, row: InjectRow, attachment: Option<Attachment>)
    requires Freezable(d, files)
    ensures multiset(InjectItems(d.injects, files))[InjectOf(row, attachment)] == |InjectsLike(d, files, row, attachment)|
  {
    hide InjectOf, SameInjectRow, AttachmentOf, InjectItems;
    var items, item := InjectItems(d.injects, files), InjectOf(row, attachment);
    InjectItemsAre(d.injects, files);
    OccurrencesCounted(items, item);
    forall i | 0 <= i < |items| ensures items[i] == item <==> i in InjectsLike(d, files, row, attachment) {
      InjectItemsEqualExactlyWhen(d.injects[i], row, AttachmentOf(d.injects[i], files).value, attachment);
    }
    assert PlacesOf(items, item) == InjectsLike(d, files, row, attachment);
  }

  lemma MembersLikeCounted(d: Draft, row: MemberRow)
    ensures multiset(MemberItems(d.members))[MemberOf(row)] == |MembersLike(d, row)|
  {
    hide MemberOf, SameMemberRow, MemberItems;
    var items, item := MemberItems(d.members), MemberOf(row);
    MemberItemsAre(d.members);
    OccurrencesCounted(items, item);
    forall i | 0 <= i < |items| ensures items[i] == item <==> i in MembersLike(d, row) {
      MemberItemsEqualExactlyWhen(d.members[i], row);
    }
    assert PlacesOf(items, item) == MembersLike(d, row);
  }

  lemma CommsLikeCounted(d: Draft, row: CommRow)
    ensures multiset(CommItems(d.communications))[CommOf(row)] == |CommsLike(d, row)|
  {
    hide CommOf, SameCommRow, CommItems;
    var items, item := CommItems(d.communications), CommOf(row);
    CommItemsAre(d.communications);
    OccurrencesCounted(items, item);
    forall i | 0 <= i < |items| ensures items[i] == item <==> i in CommsLike(d, row) {
      CommItemsEqualExactlyWhen(d.communications[i], row);
    }
    assert PlacesOf(items, item) == CommsLike(d, row);
  }

  /** The two drafts hold, row for row, the same configuration. */
  ghost predicate SameConfiguration(a: Draft, files: map<string, FileContent>, b: Draft, files': map<string, FileContent>) {
    && (forall row, x :: |InjectsLike(a, files, row, x)| == |InjectsLike(b, files', row, x)|)
    && (forall row :: |MembersLike(a, row)| == |MembersLike(b, row)|)
    && (forall row :: |CommsLike(a, row)| == |CommsLike(b, row)|)
  }

  lemma EqualItemsAreSameConfiguration(a: Draft, files: map<string, FileContent>, b: Draft, files': map<string, FileContent>)
    requires Freezable(a, files) && Freezable(b, files')
    requires multiset(InjectItems(a.injects, files)) == multiset(InjectItems(b.injects, files'))
    requires multiset(MemberItems(a.members)) == multiset(MemberItems(b.members))
    requires multiset(CommItems(a.communications)) == multiset(CommItems(b.communications))
    ensures SameConfiguration(a, files, b, files')
  {
    hide InjectOf, MemberOf, CommOf, InjectItems, MemberItems, CommItems, InjectsLike, MembersLike, CommsLike, Freezable;
    forall row, x ensures |InjectsLike(a, files, row, x)| == |InjectsLike(b, files', row, x)| {
      InjectsLikeCounted(a, files, row, x);
      InjectsLikeCounted(b, files', row, x);
    }
    forall row ensures |MembersLike(a, row)| == |MembersLike(b, row)| {
      MembersLikeCounted(a, row);
      MembersLikeCounted(b, row);
    }
    forall row ensures |CommsLike(a, row)| == |CommsLike(b, row)| {
      CommsLikeCounted(a, row);
      CommsLikeCounted(b, row);
    }
  }

  lemma InjectCountsAgree(a: Draft, files: map<string, FileContent>, b: Draft, files': map<string, FileContent>,
                          row: InjectRow, attachment: Option<Attachment>)
    requires Freezable(a, files) && Freezable(b, files') && SameConfiguration(a, files, b, files')
    ensures multiset(InjectItems(a.injects, files))[InjectOf(row, attachment)]
            == multiset(InjectItems(b.injects, files'))[InjectOf(row, attachment)]
  {
    hide InjectOf, InjectItems, InjectsLike;
    InjectsLikeCounted(a, files, row, attachment);
    InjectsLikeCounted(b, files', row, attachment);
  }

  lemma SameInjectItems(a: Draft, files: map<string, FileContent>, b: Draft, files': map<string, FileContent>)
    requires Freezable(a, files) && Freezable(b, files') && SameConfiguration(a, files, b, files')
    ensures multiset(InjectItems(a.injects, files)) == multiset(InjectItems(b.injects, files'))
  {
    var left, right := InjectItems(a.injects, files), InjectItems(b.injects, files');
    InjectItemsAre(a.injects, files);
    InjectItemsAre(b.injects, files');
    hide InjectOf, InjectItems, AttachmentOf, SameConfiguration, Freezable;
    forall item ensures multiset(left)[item] == multiset(right)[item] {
      if item in multiset(left) {
        var i :| 0 <= i < |left| && left[i] == item;
        InjectCountsAgree(a, files, b, files', a.injects[i], AttachmentOf(a.injects[i], files).value);
      } else if item in multiset(right) {
        var i :| 0 <= i < |right| && right[i] == item;
        InjectCountsAgree(a, files, b, files', b.injects[i], AttachmentOf(b.injects[i], files').value);
      }
    }
  }

  lemma SameMemberItems(a: Draft, files: map<string, FileContent>, b: Draft, files': map<string, FileContent>)
    requires SameConfiguration(a, files, b, files')
    ensures multiset(MemberItems(a.members)) == multiset(MemberItems(b.members))
  {
    var left, right := MemberItems(a.members), MemberItems(b.members);
    MemberItemsAre(a.members);
    MemberItemsAre(b.members);
    hide MemberOf, MemberItems, MembersLike;
    forall item ensures multiset(left)[item] == multiset(right)[item] {
      if item in multiset(left) {
        var i :| 0 <= i < |left| && left[i] == item;
        MembersLikeCounted(a, a.members[i]);
        MembersLikeCounted(b, a.members[i]);
      } else if item in multiset(right) {
        var i :| 0 <= i < |right| && right[i] == item;
        MembersLikeCounted(a, b.members[i]);
        MembersLikeCounted(b, b.members[i]);
      }
    }
  }

  lemma SameCommItems(a: Draft, files: map<string, FileContent>, b: Draft, files': map<string, FileContent>)
    requires SameConfiguration(a, files, b, files')
    ensures multiset(CommItems(a.communications)) == multiset(CommItems(b.communications))
  {
    var left, right := CommItems(a.communications), CommItems(b.communications);
    CommItemsAre(a.communications);
    CommItemsAre(b.communications);
    hide CommOf, CommItems, CommsLike;
    forall item ensures multiset(left)[item] == multiset(right)[item] {
      if item in multiset(left) {
        var i :| 0 <= i < |left| && left[i] == item;
        CommsLikeCounted(a, a.communications[i]);
        CommsLikeCounted(b, a.communications[i]);
      } else if item in multiset(right) {
        var i :| 0 <= i < |right| && right[i] == item;
        CommsLikeCounted(a, b.communications[i]);
        CommsLikeCounted(b, b.communications[i]);
      }
    }
  }

  /** Two drafts freeze to the same content exactly when they have the same canonical definition, title and
      setting and hold, with the same multiplicities, rows that say the same: the content forgets ids,
      load order and the order of teams, and nothing else. */
  lemma ContentEqualExactlyWhen(a: Draft, b: Draft, files: map<string, FileContent>, files': map<string, FileContent>,
                                to: Serialisers)
    requires Injective(to.inject) && Injective(to.member) && Injective(to.comm)
    requires Freezable(a, files) && Freezable(b, files')
    ensures Frozen(a, files, to) == Frozen(b, files', to)
            <==> && CanonicalDefinition(a.definition) == CanonicalDefinition(b.definition)
                 && a.title == b.title && a.llmEnabled == b.llmEnabled
                 && SameConfiguration(a, files, b, files')
  {
    hide CanonicalDefinition, SameConfiguration, InjectItems, MemberItems, CommItems;
    if Frozen(a, files, to) == Frozen(b, files', to) {
      ContentDeterminesRows(a, b, files, files', to);
      EqualItemsAreSameConfiguration(a, files, b, files');
    } else if CanonicalDefinition(a.definition) == CanonicalDefinition(b.definition)
              && a.title == b.title && a.llmEnabled == b.llmEnabled && SameConfiguration(a, files, b, files') {
      SameInjectItems(a, files, b, files');
      SameMemberItems(a, files, b, files');
      SameCommItems(a, files, b, files');
      ContentIsCanonical(a, b, files, files', to);
    }
  }

  /** The two nodes are the same, but for the order of their target teams. */
  ghost predicate SameNode(a: S.Node, b: S.Node) {
    && a.id == b.id && a.title == b.title && a.content == b.content && a.sequenceOrder == b.sequenceOrder
    && a.next == b.next && a.options == b.options && a.freeText == b.freeText && a.triggers == b.triggers
    && a.releaseAtMinutes == b.releaseAtMinutes && multiset(a.targetTeams) == multiset(b.targetTeams)
  }

  lemma CanonicalNodesEqual(a: S.Node, b: S.Node)
    ensures CanonicalNode(a) == CanonicalNode(b) <==> SameNode(a, b)
  {
    SortedTeamsExactlyWhen(a.targetTeams, b.targetTeams);
    hide SortedTeams;
  }

  lemma NodeListsEqual(a: seq<S.Node>, b: seq<S.Node>)
    ensures CanonicalNodes(a) == CanonicalNodes(b) <==> |a| == |b| && forall i | 0 <= i < |a| :: SameNode(a[i], b[i])
  {
    hide CanonicalNode, SameNode;
    assert |CanonicalNodes(a)| == |a| && |CanonicalNodes(b)| == |b|;
    if |a| == |b| {
      forall i | 0 <= i < |a| ensures CanonicalNodes(a)[i] == CanonicalNodes(b)[i] <==> SameNode(a[i], b[i]) {
        CanonicalNodesEqual(a[i], b[i]);
      }
    }
  }

  /** Canonical definitions are equal exactly when the definitions are, but for the order of target teams. */
  lemma CanonicalEqualExactlyWhen(a: S.Definition, b: S.Definition)
    ensures CanonicalDefinition(a) == CanonicalDefinition(b)
            <==> && a.title == b.title && a.teams == b.teams && a.start == b.start && |a.injects| == |b.injects|
                 && forall i | 0 <= i < |a.injects| :: SameNode(a.injects[i], b.injects[i])
  {
    NodeListsEqual(a.injects, b.injects);
    hide CanonicalNodes, SameNode;
  }
}
