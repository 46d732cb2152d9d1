/** Who may read a communication: the inbox list, the unread badge and single-message access. */
module Communications {
  import opened Filtering
  import opened Wrappers
  import Sorting

  datatype Direction = Inbound | Outbound

  /** visible is the stored audience; None means every team. */
  datatype Comm = Comm(
    id: int,
    exercise: int,
    sender: Option<int>,
    senderTeam: Option<string>,
    direction: Direction,
    visible: Option<seq<string>>,
    triggerKey: Option<string>,
    sentAt: int)

  datatype Role = Facilitator | Participant | Observer

  datatype User = User(id: int, role: Role, actualRole: Role, team: Option<string>)

  /** Exercise memberships, one per user, and the users' global teams. */
  datatype Directory = Directory(groups: map<int, map<int, Option<string>>>, teams: map<int, Option<string>>)

  // ── Teams ─────────────────────────────────────────────────────────────────

  predicate IsMember(dir: Directory, exercise: int, user: int) {
    exercise in dir.groups && user in dir.groups[exercise]
  }

  function GlobalTeam(dir: Directory, user: int): Option<string> {
    if user in dir.teams then dir.teams[user] else None
  }

  /** The team a message was sent from: the stored one, the sender's membership, or their global team. */
  function SenderTeam(dir: Directory, c: Comm): Option<string> {
    if c.senderTeam.Some? && c.senderTeam.value != "" then c.senderTeam
    else if c.sender.None? then None
    else if IsMember(dir, c.exercise, c.sender.value) then dir.groups[c.exercise][c.sender.value]
    else GlobalTeam(dir, c.sender.value)
  }

  function GroupForUser(dir: Directory, exercise: int, user: User): Option<string> {
    if IsMember(dir, exercise, user.id) then dir.groups[exercise][user.id]
    else if user.actualRole == Facilitator && user.role == Participant then user.team
    else None
  }

  function ViewerTeam(dir: Directory, exercise: int, user: User): Option<string> {
    if user.role != Participant then None else GroupForUser(dir, exercise, user)
  }

  ghost predicate DistinctIds(comms: seq<Comm>) {
    forall i, j | 0 <= i < j < |comms| :: comms[i].id != comms[j].id
  }

  /** The row itself says: it names a team, or has no sender. */
  predicate AnswersItself(c: Comm) {
    (c.senderTeam.Some? && c.senderTeam.value != "") || c.sender.None?
  }

  function CommIds(comms: seq<Comm>): set<int> {
    set c | c in comms :: c.id
  }

  ghost predicate Resolved(dir: Directory, resolved: map<int, Option<string>>, c: Comm) {
    c.id in resolved && resolved[c.id] == SenderTeam(dir, c)
  }

  /** First pass: what the rows answer, and the rows that do not. */
  method ResolveFromRows(dir: Directory, comms: seq<Comm>)
    returns (resolved: map<int, Option<string>>, unresolved: seq<Comm>)
    requires DistinctIds(comms)
    ensures resolved.Keys <= CommIds(comms)
    ensures forall c | c in comms && AnswersItself(c) :: Resolved(dir, resolved, c)
    ensures forall c :: c in unresolved <==> c in comms && !AnswersItself(c)
    ensures DistinctIds(unresolved)
  {
    resolved, unresolved := map[], [];
    for i := 0 to |comms|
      invariant resolved.Keys <= CommIds(comms[..i])
      invariant forall c | c in comms[..i] && AnswersItself(c) :: Resolved(dir, resolved, c)
      invariant forall c :: c in unresolved <==> c in comms[..i] && !AnswersItself(c)
      invariant DistinctIds(unresolved)
    {
      var c := comms[i];
      assert comms[..i + 1] == comms[..i] + [c];
      assert forall b | b in comms[..i] :: b.id != c.id;
      if c.senderTeam.Some? && c.senderTeam.value != "" {
        resolved := resolved[c.id := c.senderTeam];
      } else if c.sender.None? {
        resolved := resolved[c.id := None];
      } else {
        unresolved := unresolved + [c];
      }
    }
    assert comms[..|comms|] == comms;
  }

  /** Second pass: memberships, then global teams. */
  method ResolveFromDirectory(dir: Directory, unresolved: seq<Comm>) returns (resolved: map<int, Option<string>>)
    requires DistinctIds(unresolved) && forall c | c in unresolved :: !AnswersItself(c)
    ensures resolved.Keys == CommIds(unresolved)
    ensures forall c | c in unresolved :: Resolved(dir, resolved, c)
  {
    var userTeams := FallbackTeams(dir, unresolved);
    resolved := map[];
    for i := 0 to |unresolved|
      invariant resolved.Keys == CommIds(unresolved[..i])
      invariant forall k | 0 <= k < i :: Resolved(dir, resolved, unresolved[k])
    {
      var c := unresolved[i];
      assert c in unresolved && !AnswersItself(c);
      var team := DirectoryTeam(dir, userTeams, c);
      DirectoryDecides(dir, unresolved, c);
      hide SenderTeam, FallbackTeams, DirectoryTeam, AnswersItself;
      assert unresolved[..i + 1] == unresolved[..i] + [c];
      resolved := resolved[c.id := team];
    }
    assert unresolved[..|unresolved|] == unresolved;
  }

  /** The global teams of the senders who are not members. */
  function FallbackTeams(dir: Directory, unresolved: seq<Comm>): map<int, Option<string>>
    requires forall c | c in unresolved :: !AnswersItself(c)
  {
    var senders := set c | c in unresolved && c.sender.Some? && !IsMember(dir, c.exercise, c.sender.value) :: c.sender.value;
    map u | u in senders && u in dir.teams :: dir.teams[u]
  }

  lemma DirectoryDecides(dir: Directory, unresolved: seq<Comm>, c: Comm)
    requires c in unresolved && forall d | d in unresolved :: !AnswersItself(d)
    ensures DirectoryTeam(dir, FallbackTeams(dir, unresolved), c) == SenderTeam(dir, c)
  {
  }

  /** A membership decides even when it names no group; the global team is consulted only without one. */
  function DirectoryTeam(dir: Directory, userTeams: map<int, Option<string>>, c: Comm): Option<string>
    requires c.sender.Some?
  {
    if IsMember(dir, c.exercise, c.sender.value) then dir.groups[c.exercise][c.sender.value]
    else if c.sender.value in userTeams then userTeams[c.sender.value]
    else None
  }

  method SenderTeamsForComms(dir: Directory, comms: seq<Comm>) returns (resolved: map<int, Option<string>>)
    requires DistinctIds(comms)
    ensures resolved.Keys == CommIds(comms)
    ensures forall c | c in comms :: resolved[c.id] == SenderTeam(dir, c)
  {
    var unresolved;
    resolved, unresolved := ResolveFromRows(dir, comms);
    var rest := ResolveFromDirectory(dir, unresolved);
    forall c | c in comms ensures Resolved(dir, resolved + rest, c) {
      if AnswersItself(c) {
        forall d | d in unresolved ensures d.id != c.id {
          var i :| 0 <= i < |comms| && comms[i] == c;
          var j :| 0 <= j < |comms| && comms[j] == d;
        }
      }
    }
    resolved := resolved + rest;
  }

  // ── The two visibility rules ──────────────────────────────────────────────

  predicate ReceivedBy(visible: Option<seq<string>>, team: Option<string>) {
    visible.Some? && team.Some? && team.value in visible.value
  }

  predicate SentByViewer(dir: Directory, c: Comm, userId: int, team: Option<string>) {
    c.sender == Some(userId) && (SenderTeam(dir, c).None? || SenderTeam(dir, c) == team)
  }

  /** The inbox's rule for one row. */
  predicate Listed(dir: Directory, c: Comm, userId: int, team: Option<string>, participantView: bool) {
    if !participantView && team.None? then true
    else if c.direction == Outbound then SentByViewer(dir, c, userId, team) || ReceivedBy(c.visible, team)
    else c.visible.None? || ReceivedBy(c.visible, team)
  }

  predicate NoAudience(c: Comm) {
    c.visible.None? || c.visible.value == []
  }

  /** The single-message rule. */
  predicate Accessible(dir: Directory, c: Comm, user: User) {
    if user.role == Facilitator || user.role == Observer then true
    else
      var group := GroupForUser(dir, c.exercise, user);
      if c.direction == Outbound then
        SentByViewer(dir, c, user.id, group) || (!NoAudience(c) && ReceivedBy(c.visible, group))
      else NoAudience(c) || ReceivedBy(c.visible, group)
  }

  // ── The inbox ─────────────────────────────────────────────────────────────

  predicate LaterFirst(a: Comm, b: Comm) {
    a.sentAt >= b.sentAt
  }

  function ListedTo(dir: Directory, userId: int, team: Option<string>, participantView: bool): Comm -> bool {
    (c: Comm) => Listed(dir, c, userId, team, participantView)
  }

  function InboxOf(dir: Directory, rows: seq<Comm>, userId: int, team: Option<string>, participantView: bool): seq<Comm> {
    Where(ListedTo(dir, userId, team, participantView), Sorting.Sort(LaterFirst, rows))
  }

  /** One pass over the loaded rows, with the sender teams resolved beforehand. */
  method KeepListed(dir: Directory, comms: seq<Comm>, senderTeams: map<int, Option<string>>, userId: int,
                    team: Option<string>, participantView: bool) returns (visible: seq<Comm>)
    requires participantView || team.Some?
    requires forall c | c in comms :: c.id in senderTeams && senderTeams[c.id] == SenderTeam(dir, c)
    ensures visible == Where(ListedTo(dir, userId, team, participantView), comms)
  {
    visible := [];
    for i := 0 to |comms|
      invariant visible == Where(ListedTo(dir, userId, team, participantView), comms[..i])
    {
      var c := comms[i];
      assert c in comms && comms[..i + 1] == comms[..i] + [c];
      WhereAppend(ListedTo(dir, userId, team, participantView), comms[..i], c);
      hide SenderTeam, Where;
      if c.direction == Outbound {
        var senderTeam := senderTeams[c.id];
        var sentByUser := c.sender == Some(userId) && (senderTeam.None? || senderTeam == team);
        if sentByUser || ReceivedBy(c.visible, team) {
          visible := visible + [c];
        }
      } else if c.visible.None? || ReceivedBy(c.visible, team) {
        visible := visible + [c];
      }
    }
    assert comms[..|comms|] == comms;
  }

  method ListCommunications(dir: Directory, rows: seq<Comm>, userId: int, team: Option<string>, participantView: bool)
    returns (visible: seq<Comm>)
    requires DistinctIds(rows)
    ensures visible == InboxOf(dir, rows, userId, team, participantView)
  {
    var comms := Sorting.Sort(LaterFirst, rows);
    SortKeepsIds(rows);
    hide Sorting.Sort, Where;
    if !participantView && team.None? {
      WhereAll(ListedTo(dir, userId, team, participantView), comms);
      return comms;
    }
    var senderTeams := SenderTeamsForComms(dir, comms);
    assert forall c | c in comms :: c.id in CommIds(comms);
    visible := KeepListed(dir, comms, senderTeams, userId, team, participantView);
  }

  lemma {:induction false} WhereAll<T>(p: T -> bool, s: seq<T>)
    requires forall x | x in s :: p(x)
    ensures Where(p, s) == s
  {
    if s != [] { WhereAll(p, s[..|s| - 1]); }
  }

  lemma SortKeepsRows(rows: seq<Comm>)
    ensures multiset(Sorting.Sort(LaterFirst, rows)) == multiset(rows)
    ensures Sorting.SortedBy(LaterFirst, Sorting.Sort(LaterFirst, rows))
    ensures forall c :: c in Sorting.Sort(LaterFirst, rows) <==> c in rows
  {
    Sorting.SortCorrect(LaterFirst, rows);
    var sorted := Sorting.Sort(LaterFirst, rows);
    forall c ensures c in sorted <==> c in rows {
      assert c in sorted <==> c in multiset(sorted);
      assert c in rows <==> c in multiset(rows);
    }
  }

  lemma {:induction false} OccursTwice<T>(s: seq<T>, i: nat, j: nat)
    requires i < j < |s| && s[i] == s[j]
    ensures multiset(s)[s[i]] >= 2
  {
    assert s == s[..j] + s[j..];
    assert s[i] in s[..j] && s[j] in s[j..];
    assert multiset(s) == multiset(s[..j]) + multiset(s[j..]);
  }

  lemma {:induction false} OccursOnce(rows: seq<Comm>, c: Comm)
    requires DistinctIds(rows)
    ensures multiset(rows)[c] <= 1
  {
    if rows != [] {
      var n := |rows| - 1;
      assert rows == rows[..n] + [rows[n]];
      OccursOnce(rows[..n], c);
      if rows[n] == c {
        forall i | 0 <= i < n ensures rows[..n][i] != c { assert rows[i].id != rows[n].id; }
        assert c !in rows[..n];
      }
    }
  }

  lemma SortKeepsIds(rows: seq<Comm>)
    requires DistinctIds(rows)
    ensures DistinctIds(Sorting.Sort(LaterFirst, rows))
  {
    SortKeepsRows(rows);
    var sorted := Sorting.Sort(LaterFirst, rows);
    forall i, j | 0 <= i < j < |sorted| ensures sorted[i].id != sorted[j].id {
      if sorted[i] == sorted[j] {
        OccursTwice(sorted, i, j);
        OccursOnce(rows, sorted[i]);
      } else {
        assert sorted[i] in rows && sorted[j] in rows;
        var a :| 0 <= a < |rows| && rows[a] == sorted[i];
        var b :| 0 <= b < |rows| && rows[b] == sorted[j];
        assert rows[a].id != rows[b].id;
      }
    }
  }

  // ── Read receipts ─────────────────────────────────────────────────────────

  /** First-read instants, by communication and user. */
  type Receipts = map<int, map<int, int>>

  predicate IsRead(receipts: Receipts, comm: int, user: int) {
    comm in receipts && user in receipts[comm]
  }

  /** The first receipt stands. */
  function MarkRead(receipts: Receipts, comm: int, user: int, at: int): Receipts {
    if IsRead(receipts, comm, user) then receipts
    else receipts[comm := (if comm in receipts then receipts[comm] else map[])[user := at]]
  }

  function Unread(receipts: Receipts, user: int): Comm -> bool {
    (c: Comm) => !IsRead(receipts, c.id, user)
  }

  method UnreadCount(dir: Directory, rows: seq<Comm>, receipts: Receipts, userId: int, team: Option<string>,
                     participantView: bool) returns (count: nat)
    requires DistinctIds(rows)
    ensures count == |Where(Unread(receipts, userId), InboxOf(dir, rows, userId, team, participantView))|
  {
    var comms := ListCommunications(dir, rows, userId, team, participantView);
    var readTimes := map c | c in comms && IsRead(receipts, c.id, userId) :: c := receipts[c.id][userId];
    count := 0;
    for i := 0 to |comms|
      invariant count == |Where(Unread(receipts, userId), comms[..i])|
    {
      assert comms[..i + 1][..i] == comms[..i];
      if comms[i] !in readTimes {
        count := count + 1;
      }
    }
    assert comms[..|comms|] == comms;
  }

  // ── The mailbox over whole runs ───────────────────────────────────────────

  datatype Mailbox = Mailbox(dir: Directory, comms: seq<Comm>, receipts: Receipts)

  datatype Step =
    | Create(exercise: int, sender: Option<int>, senderTeam: Option<string>, direction: Direction,
             visible: Option<seq<string>>, at: int)
    | DeliverTriggered(exercise: int, direction: Direction, key: string, at: int)
    | Read(comm: int, user: User, at: int)
    | Administer(dir: Directory)

  /** An empty audience is stored as none. */
  function Stored(visible: Option<seq<string>>): Option<seq<string>> {
    if visible == Some([]) then None else visible
  }

  predicate TriggerTaken(comms: seq<Comm>, exercise: int, key: string) {
    exists c | c in comms :: c.exercise == exercise && c.triggerKey == Some(key)
  }

  function Apply(m: Mailbox, step: Step): Mailbox {
    match step
    case Create(exercise, sender, team, direction, visible, at) =>
      m.(comms := m.comms + [Comm(|m.comms|, exercise, sender, team, direction, Stored(visible), None, at)])
    case DeliverTriggered(exercise, direction, key, at) =>
      if TriggerTaken(m.comms, exercise, key) then m
      else m.(comms := m.comms + [Comm(|m.comms|, exercise, None, None, direction, None, Some(key), at)])
    case Read(id, user, at) =>
      if 0 <= id < |m.comms| && Accessible(m.dir, m.comms[id], user) then
        m.(receipts := MarkRead(m.receipts, id, user.id, at))
      else m
    case Administer(dir) => m.(dir := dir)
  }

  function Run(m: Mailbox, steps: seq<Step>): Mailbox {
    if steps == [] then m else Apply(Run(m, steps[..|steps| - 1]), steps[|steps| - 1])
  }

  const EMPTY := Mailbox(Directory(map[], map[]), [], map[])

  function OfExercise(m: Mailbox, exercise: int): seq<Comm> {
    Where((c: Comm) => c.exercise == exercise, m.comms)
  }

  ghost predicate MailboxInv(m: Mailbox) {
    && (forall i | 0 <= i < |m.comms| :: m.comms[i].id == i)
    && (forall c | c in m.comms :: c.visible != Some([]))
    && (forall i, j | 0 <= i < j < |m.comms| && m.comms[i].triggerKey.Some? ::
          m.comms[i].exercise != m.comms[j].exercise || m.comms[i].triggerKey != m.comms[j].triggerKey)
  }

  lemma {:induction false} RunKeepsMailbox(steps: seq<Step>)
    ensures MailboxInv(Run(EMPTY, steps))
  {
    if steps != [] {
      RunKeepsMailbox(steps[..|steps| - 1]);
    }
  }

  lemma {:induction false} WhereKeepsIds(p: Comm -> bool, comms: seq<Comm>)
    requires DistinctIds(comms)
    ensures DistinctIds(Where(p, comms))
  {
    if comms != [] {
      var n := |comms| - 1;
      WhereKeepsIds(p, comms[..n]);
      WhereKeeps(p, comms[..n]);
      forall c | c in Where(p, comms[..n]) ensures c.id != comms[n].id {
        var i :| 0 <= i < n && comms[i] == c;
      }
    }
  }

  // ── Main results ──────────────────────────────────────────────────────────

  /** The two rules agree on a row for a viewer exactly when the row is not an inbound one stored with
      an empty audience, or the viewer is no participant. */
  lemma RulesAgreeExactlyWhen(dir: Directory, c: Comm, user: User)
    ensures (Listed(dir, c, user.id, ViewerTeam(dir, c.exercise, user), user.role == Participant)
             <==> Accessible(dir, c, user))
            <==> !(user.role == Participant && c.direction == Inbound && c.visible == Some([]))
  {
  }

  /** In every reachable mailbox the inbox holds, latest first, exactly the exercise's messages that
      single-message access allows. */
  lemma InboxIsWhatIsAccessible(steps: seq<Step>, exercise: int, user: User, c: Comm)
    ensures var m := Run(EMPTY, steps);
            var inbox := InboxOf(m.dir, OfExercise(m, exercise), user.id, ViewerTeam(m.dir, exercise, user),
                                 user.role == Participant);
            && (c in inbox <==> c in m.comms && c.exercise == exercise && Accessible(m.dir, c, user))
            && DistinctIds(inbox)
            && forall i, j | 0 <= i < j < |inbox| :: inbox[i].sentAt >= inbox[j].sentAt
  {
    var m := Run(EMPTY, steps);
    RunKeepsMailbox(steps);
    var rows := OfExercise(m, exercise);
    var team := ViewerTeam(m.dir, exercise, user);
    var p := ListedTo(m.dir, user.id, team, user.role == Participant);
    WhereKeeps((d: Comm) => d.exercise == exercise, m.comms);
    WhereKeepsIds((d: Comm) => d.exercise == exercise, m.comms);
    SortKeepsRows(rows);
    SortKeepsIds(rows);
    var sorted := Sorting.Sort(LaterFirst, rows);
    WhereKeeps(p, sorted);
    WhereKeepsIds(p, sorted);
    WhereKeepsSorted(p, sorted);
    if c in m.comms && c.exercise == exercise {
      WhereFinds((d: Comm) => d.exercise == exercise, m.comms, c);
      RulesAgreeExactlyWhen(m.dir, c, user);
      if p(c) { WhereFinds(p, sorted, c); }
    }
  }

  /** The user's group in the exercise: the membership's, even when it names none; without one, a
      facilitator viewing as a participant has the global team, and anyone else none. */
  ghost predicate GroupIs(dir: Directory, exercise: int, user: User, group: Option<string>) {
    if exercise in dir.groups && user.id in dir.groups[exercise] then group == dir.groups[exercise][user.id]
    else group == if user.actualRole == Facilitator then user.team else None
  }

  /** The team the message was sent from: stored with it, or its sender's membership, or their global team. */
  ghost predicate SentFrom(dir: Directory, c: Comm, team: Option<string>) {
    if c.senderTeam.Some? && c.senderTeam.value != "" then team == c.senderTeam
    else if c.sender.Some? && c.exercise in dir.groups && c.sender.value in dir.groups[c.exercise] then
      team == dir.groups[c.exercise][c.sender.value]
    else if c.sender.Some? && c.sender.value in dir.teams then team == dir.teams[c.sender.value]
    else team == None
  }

  /** The message names the group among its recipients. */
  ghost predicate AddressedTo(c: Comm, group: Option<string>) {
    exists audience, team :: c.visible == Some(audience) && group == Some(team) && team in audience
  }

  /** A participant of the group may read a message to everyone from outside, any message addressed to the
      group, and what they sent themselves from that group or from none. */
  ghost predicate MayRead(dir: Directory, c: Comm, user: User, group: Option<string>) {
    || (c.direction == Inbound && c.visible == None)
    || AddressedTo(c, group)
    || (c.direction == Outbound && c.sender == Some(user.id) && (SentFrom(dir, c, None) || SentFrom(dir, c, group)))
  }

  /** In every reachable mailbox, a participant's inbox holds exactly the exercise's messages they may
      read; a facilitator's or an observer's, all of them. */
  lemma InboxShowsExactly(steps: seq<Step>, exercise: int, user: User, group: Option<string>, c: Comm)
    requires GroupIs(Run(EMPTY, steps).dir, exercise, user, group)
    ensures var m := Run(EMPTY, steps);
            var inbox := InboxOf(m.dir, OfExercise(m, exercise), user.id, ViewerTeam(m.dir, exercise, user),
                                 user.role == Participant);
            && (user.role == Participant ==>
                  (c in inbox <==> c in m.comms && c.exercise == exercise && MayRead(m.dir, c, user, group)))
            && (user.role != Participant ==> (c in inbox <==> c in m.comms && c.exercise == exercise))
  {
    hide Run, InboxOf, OfExercise;
    InboxIsWhatIsAccessible(steps, exercise, user, c);
    RunKeepsMailbox(steps);
    var m := Run(EMPTY, steps);
    if c in m.comms && c.exercise == exercise {
      AccessibleExactlyWhen(m.dir, c, user, group);
    }
  }

  lemma AccessibleExactlyWhen(dir: Directory, c: Comm, user: User, group: Option<string>)
    requires GroupIs(dir, c.exercise, user, group) && c.visible != Some([])
    ensures user.role == Participant ==> (Accessible(dir, c, user) <==> MayRead(dir, c, user, group))
    ensures user.role != Participant ==> Accessible(dir, c, user)
  {
    assert SentFrom(dir, c, SenderTeam(dir, c));
    if c.visible.Some? && group.Some? && group.value in c.visible.value { assert AddressedTo(c, group); }
  }

  lemma {:induction false} WhereKeepsSorted(p: Comm -> bool, comms: seq<Comm>)
    requires Sorting.SortedBy(LaterFirst, comms)
    ensures Sorting.SortedBy(LaterFirst, Where(p, comms))
  {
    if comms != [] {
      var n := |comms| - 1;
      WhereKeepsSorted(p, comms[..n]);
      WhereKeeps(p, comms[..n]);
      forall c | c in Where(p, comms[..n]) ensures LaterFirst(c, comms[n]) {
        var i :| 0 <= i < n && comms[i] == c;
      }
    }
  }

  /** The badge's number. */
  function Badge(m: Mailbox, exercise: int, user: User): nat {
    |Where(Unread(m.receipts, user.id),
           InboxOf(m.dir, OfExercise(m, exercise), user.id, ViewerTeam(m.dir, exercise, user), user.role == Participant))|
  }

  /** Opening an accessible message the viewer has not read lowers the badge by exactly one; opening it
      again, or one that may not be read, changes nothing. */
  lemma ReadingLowersBadgeByOne(steps: seq<Step>, id: int, user: User, at: int)
    requires 0 <= id < |Run(EMPTY, steps).comms|
    ensures var m := Run(EMPTY, steps);
            var c := m.comms[id];
            Badge(Apply(m, Read(id, user, at)), c.exercise, user)
            == Badge(m, c.exercise, user)
               - (if Accessible(m.dir, c, user) && !IsRead(m.receipts, id, user.id) then 1 else 0)
  {
    var m := Run(EMPTY, steps);
    var c := m.comms[id];
    RunKeepsMailbox(steps);
    if Accessible(m.dir, c, user) && !IsRead(m.receipts, id, user.id) {
      InboxIsWhatIsAccessible(steps, c.exercise, user, c);
      var inbox := InboxOf(m.dir, OfExercise(m, c.exercise), user.id, ViewerTeam(m.dir, c.exercise, user),
                           user.role == Participant);
      var k :| 0 <= k < |inbox| && inbox[k] == c;
      WhereDropsOne(Unread(Apply(m, Read(id, user, at)).receipts, user.id), Unread(m.receipts, user.id), inbox, k);
    }
  }

  /** The exercise's messages the user may see and has no receipt for, by their ids. */
  ghost function UnreadIds(m: Mailbox, exercise: int, user: User, group: Option<string>): set<int> {
    set i | 0 <= i < |m.comms| && m.comms[i].exercise == exercise
            && (user.role == Participant ==> MayRead(m.dir, m.comms[i], user, group))
            && !(i in m.receipts && user.id in m.receipts[i])
  }

  lemma {:induction false} IdsCount(p: Comm -> bool, comms: seq<Comm>)
    requires DistinctIds(comms)
    ensures |Where(p, comms)| == |set c | c in comms && p(c) :: c.id|
  {
    if comms != [] {
      var n := |comms| - 1;
      IdsCount(p, comms[..n]);
      var before := set c | c in comms[..n] && p(c) :: c.id;
      assert comms == comms[..n] + [comms[n]];
      assert (set c | c in comms && p(c) :: c.id) == before + if p(comms[n]) then {comms[n].id} else {};
      forall c | c in comms[..n] ensures c.id != comms[n].id {
        var i :| 0 <= i < n && comms[i] == c;
      }
    }
  }

  /** In every reachable mailbox the badge shows the number of unread messages the user may see. */
  lemma BadgeCountsUnread(steps: seq<Step>, exercise: int, user: User, group: Option<string>)
    requires GroupIs(Run(EMPTY, steps).dir, exercise, user, group)
    ensures var m := Run(EMPTY, steps); Badge(m, exercise, user) == |UnreadIds(m, exercise, user, group)|
  {
    hide Run, InboxOf, OfExercise, MayRead;
    var m := Run(EMPTY, steps);
    RunKeepsMailbox(steps);
    var team := ViewerTeam(m.dir, exercise, user);
    var inbox := InboxOf(m.dir, OfExercise(m, exercise), user.id, team, user.role == Participant);
    forall c ensures c in inbox <==> c in m.comms && c.exercise == exercise
                                     && (user.role == Participant ==> MayRead(m.dir, c, user, group)) {
      InboxShowsExactly(steps, exercise, user, group, c);
    }
    InboxIsWhatIsAccessible(steps, exercise, user, Comm(0, 0, None, None, Inbound, None, None, 0));
    IdsCount(Unread(m.receipts, user.id), inbox);
    var ids := set c | c in inbox && Unread(m.receipts, user.id)(c) :: c.id;
    forall i ensures i in ids <==> i in UnreadIds(m, exercise, user, group) {
      if i in UnreadIds(m, exercise, user, group) { assert m.comms[i] in inbox && m.comms[i].id == i; }
    }
    assert ids == UnreadIds(m, exercise, user, group);
  }

  /** What a call to the mailbox stores. A sent message keeps its audience, and one addressed to nobody in
      particular goes to everyone; a triggered one is stored, for everyone, exactly when the exercise has
      none of its key; and reading leaves a receipt exactly when the message may be read, the first one
      standing. */
  lemma MailboxOutcome(m: Mailbox, step: Step)
    ensures step.Create? ==>
              && Apply(m, step) == m.(comms := Apply(m, step).comms)
              && |Apply(m, step).comms| == |m.comms| + 1 && m.comms <= Apply(m, step).comms
              && var c := Apply(m, step).comms[|m.comms|];
                 && c.id == |m.comms| && c.exercise == step.exercise && c.direction == step.direction
                 && c.sender == step.sender && c.senderTeam == step.senderTeam && c.sentAt == step.at && c.triggerKey == None
                 && c.visible == if step.visible.Some? && |step.visible.value| > 0 then step.visible else None
    ensures step.DeliverTriggered? ==>
              && Apply(m, step) == m.(comms := Apply(m, step).comms)
              && m.comms <= Apply(m, step).comms
              && |Apply(m, step).comms| == |m.comms| + (if HasKey(m, step.exercise, step.key) then 0 else 1)
              && (!HasKey(m, step.exercise, step.key) ==>
                    Apply(m, step).comms[|m.comms|]
                    == Comm(|m.comms|, step.exercise, None, None, step.direction, None, Some(step.key), step.at))
    ensures step.Read? ==>
              && Apply(m, step) == m.(receipts := Apply(m, step).receipts)
              && forall id, user :: ReadAt(Apply(m, step), id, user)
                                    == if ReadAt(m, id, user).Some? then ReadAt(m, id, user)
                                       else if id == step.comm && user == step.user.id && 0 <= id < |m.comms|
                                               && Accessible(m.dir, m.comms[id], step.user) then Some(step.at)
                                       else None
  {
    hide Accessible;
    if step.DeliverTriggered? && HasKey(m, step.exercise, step.key) {
      var i :| 0 <= i < |m.comms| && m.comms[i].exercise == step.exercise && m.comms[i].triggerKey == Some(step.key);
    }
  }

  /** The exercise has a message under the trigger key. */
  ghost predicate HasKey(m: Mailbox, exercise: int, key: string) {
    exists i :: 0 <= i < |m.comms| && m.comms[i].exercise == exercise && m.comms[i].triggerKey == Some(key)
  }

  /** When the user first read the message. */
  function ReadAt(m: Mailbox, id: int, user: int): Option<int> {
    if id in m.receipts && user in m.receipts[id] then Some(m.receipts[id][user]) else None
  }

  // ── The mailbox, updated in place ─────────────────────────────────────────

  class Store {
    var dir: Directory
    var comms: seq<Comm>
    var receipts: Receipts

    function Model(): Mailbox
      reads this
    {
      Mailbox(dir, comms, receipts)
    }

    constructor ()
      ensures Model() == EMPTY
    {
      dir, comms, receipts := Directory(map[], map[]), [], map[];
    }

    method CreateCommunication(exercise: int, sender: Option<int>, senderTeam: Option<string>, direction: Direction,
                               visible: Option<seq<string>>, at: int)
      modifies this`comms
      ensures Model() == Apply(old(Model()), Create(exercise, sender, senderTeam, direction, visible, at))
    {
      var audience := if visible.Some? && visible.value == [] then None else visible;
      comms := comms + [Comm(|comms|, exercise, sender, senderTeam, direction, audience, None, at)];
    }

    /** Insert unless the trigger key is taken in this exercise. */
    method DeliverTriggeredCommunication(exercise: int, direction: Direction, key: string, at: int)
      returns (id: Option<int>)
      modifies this`comms
      ensures Model() == Apply(old(Model()), DeliverTriggered(exercise, direction, key, at))
      ensures id.None? <==> TriggerTaken(old(comms), exercise, key)
    {
      if exists c | c in comms :: c.exercise == exercise && c.triggerKey == Some(key) {
        return None;
      }
      id := Some(|comms|);
      comms := comms + [Comm(|comms|, exercise, None, None, direction, None, Some(key), at)];
    }

    /** Record the first read of a message the user may see. */
    method OpenCommunication(id: int, user: User, at: int) returns (found: bool)
      modifies this`receipts
      ensures found == (0 <= id < |comms| && Accessible(dir, comms[id], user))
      ensures Model() == Apply(old(Model()), Read(id, user, at))
    {
      if !(0 <= id < |comms|) || !Accessible(dir, comms[id], user) {
        return false;
      }
      if id !in receipts {
        receipts := receipts[id := map[user.id := at]];
      } else if user.id !in receipts[id] {
        receipts := receipts[id := receipts[id][user.id := at]];
      }
      return true;
    }
  }
}
