/** Triggered communications happen exactly once, and none is forgotten. */
module MessageTheorems {
  import opened Wrappers
  import opened Scenario
  import opened Progression
  import opened ProgressionInvariants
  import opened Scheduling
  import opened ScheduleTheorems
  import L = Lifecycle
  import Provenance
  import Clock
  import Keys = TriggerKeys

  /** The opened inject's node defines a trigger with this index. */
  ghost predicate IsTrigger(b: Board, id: int, node: string, index: nat) {
    && Opened(b, id) && b.injects[id].node == Some(node)
    && GetNode(b.def, node).Some? && index < |GetNode(b.def, node).value.triggers|
  }

  function TriggerOf(def: Definition, node: string, index: nat): TriggerComm
    requires GetNode(def, node).Some? && index < |GetNode(def, node).value.triggers|
  {
    GetNode(def, node).value.triggers[index]
  }

  // ── Invariants ────────────────────────────────────────────────────────────

  ghost predicate CommSane(b: Board, j: CommJob) {
    && IsTrigger(b, j.inject, j.node, j.index)
    && (j.phase.Settled? && j.phase.verdict.Deliver? ==>
          j.phase.verdict.trigger == TriggerOf(b.def, j.node, j.index))
  }

  ghost predicate CommsSane(r: Run) {
    forall j | j in r.commJobs :: CommSane(r.board, j)
  }

  /** The stored communication is the one the definition gives for that key. */
  ghost predicate DeliveredAs(b: Board, d: Delivery, key: string, node: string, index: nat) {
    key == Keys.TriggerKey(node, index) && IsTrigger(b, d.inject, node, index)
    && d.trigger == TriggerOf(b.def, node, index)
  }

  ghost predicate DeliveriesSane(b: Board, deliveries: map<string, Delivery>) {
    forall key | key in deliveries :: exists node, index :: DeliveredAs(b, deliveries[key], key, node, index)
  }

  ghost predicate NoDuplicates<T>(s: seq<T>) {
    forall i, j | 0 <= i < j < |s| :: s[i] != s[j]
  }

  /** One created event for each stored communication. */
  ghost predicate AnnouncedOnce(announced: seq<string>, deliveries: map<string, Delivery>) {
    NoDuplicates(announced) && forall key :: key in announced <==> key in deliveries
  }

  /** A job that will still act on the trigger: queued, running, or decided to deliver or come back. */
  predicate CommActs(j: CommJob, node: string, index: nat) {
    j.node == node && j.index == index && j.phase != Settled(Drop)
  }

  ghost predicate SomeCommActs(jobs: multiset<CommJob>, node: string, index: nat) {
    exists j :: j in jobs && CommActs(j, node, index)
  }

  ghost predicate MessageCovered(r: Run, node: string, index: nat) {
    Keys.TriggerKey(node, index) in r.deliveries || SomeCommActs(r.commJobs, node, index)
  }

  ghost predicate NoMessageLost(r: Run) {
    r.life.row.state == L.Active && !r.rearmOwed ==>
      forall id, node, index | IsTrigger(r.board, id, node, index) && node != "" :: MessageCovered(r, node, index)
  }

  ghost predicate MessagesInv(r: Run) {
    CommsSane(r) && DeliveriesSane(r.board, r.deliveries) && AnnouncedOnce(r.announced, r.deliveries) && NoMessageLost(r)
  }

  // ── Moves that leave the messages alone ───────────────────────────────────

  ghost predicate OpensNothing(b: Board, b': Board) {
    forall id | Opened(b', id) :: Opened(b, id)
  }

  lemma TriggersStay(b: Board, b': Board, id: int, node: string, index: nat)
    requires Extends(b, b') && IsTrigger(b, id, node, index)
    ensures IsTrigger(b', id, node, index) && TriggerOf(b'.def, node, index) == TriggerOf(b.def, node, index)
  {
    assert SameRelease(b.injects[id], b'.injects[id]);
  }

  lemma TriggersAreOld(b: Board, b': Board, id: int, node: string, index: nat)
    requires Extends(b, b') && IsTrigger(b', id, node, index) && Opened(b, id)
    ensures IsTrigger(b, id, node, index)
  {
    assert SameRelease(b.injects[id], b'.injects[id]);
  }

  lemma SanityExtends(r: Run, r': Run)
    requires CommsSane(r) && DeliveriesSane(r.board, r.deliveries) && AnnouncedOnce(r.announced, r.deliveries)
    requires Extends(r.board, r'.board)
    requires r'.deliveries == r.deliveries && r'.announced == r.announced
    requires forall j | j in r'.commJobs :: j in r.commJobs || CommSane(r'.board, j)
    ensures CommsSane(r') && DeliveriesSane(r'.board, r'.deliveries) && AnnouncedOnce(r'.announced, r'.deliveries)
  {
    forall j | j in r'.commJobs ensures CommSane(r'.board, j) {
      if j in r.commJobs { TriggersStay(r.board, r'.board, j.inject, j.node, j.index); }
    }
    forall key | key in r'.deliveries
      ensures exists node, index :: DeliveredAs(r'.board, r'.deliveries[key], key, node, index)
    {
      var node, index :| DeliveredAs(r.board, r.deliveries[key], key, node, index);
      TriggersStay(r.board, r'.board, r.deliveries[key].inject, node, index);
      assert DeliveredAs(r'.board, r'.deliveries[key], key, node, index);
    }
  }

  lemma QuietKeepsMessages(r: Run, r': Run)
    requires MessagesInv(r) && Extends(r.board, r'.board) && OpensNothing(r.board, r'.board)
    requires r'.deliveries == r.deliveries && r'.announced == r.announced && r'.commJobs == r.commJobs
    requires r'.life.row.state == L.Active && !r'.rearmOwed ==> r.life.row.state == L.Active && !r.rearmOwed
    ensures MessagesInv(r')
  {
    SanityExtends(r, r');
    if r'.life.row.state == L.Active && !r'.rearmOwed {
      forall id, node, index | IsTrigger(r'.board, id, node, index) && node != ""
        ensures MessageCovered(r', node, index)
      {
        TriggersAreOld(r.board, r'.board, id, node, index);
        assert MessageCovered(r, node, index);
      }
    }
  }

  // ── Releases enqueue what they trigger ────────────────────────────────────

  ghost predicate SomeJobActs(jobs: seq<CommJob>, node: string, index: nat) {
    exists j :: j in jobs && CommActs(j, node, index)
  }

  lemma ActingJobsGrow(jobs: seq<CommJob>, more: seq<CommJob>, node: string, index: nat)
    requires SomeJobActs(jobs, node, index)
    ensures SomeJobActs(jobs + more, node, index)
  {
    var j :| j in jobs && CommActs(j, node, index);
    assert j in jobs + more;
  }

  lemma {:induction false} TriggerJobsComplete(node: Node, id: int, k: nat, now: int)
    requires k <= |node.triggers|
    ensures forall j | j in TriggerJobs(node, id, k, now) ::
              j.inject == id && j.node == node.id && j.index < k && j.phase == Waiting
    ensures forall i: nat | i < k :: SomeJobActs(TriggerJobs(node, id, k, now), node.id, i)
  {
    if k > 0 {
      TriggerJobsComplete(node, id, k - 1, now);
      var jobs := TriggerJobs(node, id, k, now);
      var last := jobs[|jobs| - 1];
      assert jobs == TriggerJobs(node, id, k - 1, now) + [last];
      forall i: nat | i < k ensures SomeJobActs(jobs, node.id, i) {
        if i < k - 1 { ActingJobsGrow(TriggerJobs(node, id, k - 1, now), [last], node.id, i); }
        else { assert last in jobs && CommActs(last, node.id, i); }
      }
    }
  }

  lemma NodeKeepsItsId(def: Definition, id: string)
    requires GetNode(def, id).Some?
    ensures GetNode(def, id).value.id == id
  {
    FindNodeCharacterised(def.injects, id);
  }

  lemma ReleaseTriggersSane(b: Board, id: int)
    requires Opened(b, id)
    ensures forall j | j in ReleaseTriggers(b, id) :: CommSane(b, j)
  {
    if !Ungated(b.injects[id]) && NodeOf(b, id).Some? {
      var node := NodeOf(b, id).value;
      NodeKeepsItsId(b.def, b.injects[id].node.value);
      TriggerJobsComplete(node, id, |node.triggers|, b.now);
      forall j | j in ReleaseTriggers(b, id) ensures CommSane(b, j) {
        assert j in TriggerJobs(node, id, |node.triggers|, b.now);
      }
    }
  }

  lemma ReleaseTriggersCover(b: Board, id: int, node: string, index: nat)
    requires IsTrigger(b, id, node, index) && node != ""
    ensures SomeCommActs(ReleaseTriggers(b, id), node, index)
  {
    var n := GetNode(b.def, node).value;
    NodeKeepsItsId(b.def, node);
    TriggerJobsComplete(n, id, |n.triggers|, b.now);
    assert SomeJobActs(TriggerJobs(n, id, |n.triggers|, b.now), node, index);
    var j :| j in TriggerJobs(n, id, |n.triggers|, b.now) && CommActs(j, node, index);
    assert j in ReleaseTriggers(b, id);
  }

  lemma ReleaseKeepsMessages(r: Run, r': Run, id: int)
    requires MessagesInv(r) && Extends(r.board, r'.board) && Opened(r'.board, id)
    requires forall q | Opened(r'.board, q) :: q == id || Opened(r.board, q)
    requires r'.deliveries == r.deliveries && r'.announced == r.announced
    requires r'.life == r.life && r'.rearmOwed == r.rearmOwed
    requires r'.commJobs == r.commJobs + ReleaseTriggers(r'.board, id)
    ensures MessagesInv(r')
  {
    ReleaseTriggersSane(r'.board, id);
    SanityExtends(r, r');
    if r'.life.row.state == L.Active && !r'.rearmOwed {
      forall q, node, index | IsTrigger(r'.board, q, node, index) && node != ""
        ensures MessageCovered(r', node, index)
      {
        if q == id {
          ReleaseTriggersCover(r'.board, id, node, index);
          var j :| j in ReleaseTriggers(r'.board, id) && CommActs(j, node, index);
          assert j in r'.commJobs;
        } else {
          TriggersAreOld(r.board, r'.board, q, node, index);
          assert MessageCovered(r, node, index);
          if j :| j in r.commJobs && CommActs(j, node, index) { assert j in r'.commJobs; }
        }
      }
    }
  }

  // ── Re-enqueueing ─────────────────────────────────────────────────────────

  /** The trigger has a job waiting, or gets one of the new jobs. */
  ghost predicate Handled(r: Run, jobs: seq<CommJob>, node: string, index: nat) {
    CommWaiting(r, node, index) || SomeJobActs(jobs, node, index)
  }

  ghost predicate Accounted(r: Run, jobs: seq<CommJob>, key: string) {
    key in r.deliveries || exists node, index :: key == Keys.TriggerKey(node, index) && Handled(r, jobs, node, index)
  }

  ghost predicate AllAccounted(r: Run, jobs: seq<CommJob>, keys: set<string>) {
    forall key | key in keys :: Accounted(r, jobs, key)
  }

  lemma AccountedGrows(r: Run, jobs: seq<CommJob>, more: seq<CommJob>, keys: set<string>)
    requires AllAccounted(r, jobs, keys)
    ensures AllAccounted(r, jobs + more, keys)
  {
    forall key | key in keys ensures Accounted(r, jobs + more, key) {
      assert Accounted(r, jobs, key);
      if key !in r.deliveries {
        var node, index :| key == Keys.TriggerKey(node, index) && Handled(r, jobs, node, index);
        if SomeJobActs(jobs, node, index) { ActingJobsGrow(jobs, more, node, index); }
        assert Handled(r, jobs + more, node, index);
      }
    }
  }

  lemma {:induction false} OwedByInjectJobs(r: Run, node: Node, id: int, elapsed: int, k: nat, considered: set<string>)
    requires k <= |node.triggers|
    ensures forall j | j in OwedByInject(r, node, id, elapsed, k, considered).0 ::
              j.inject == id && j.node == node.id && j.index < k && j.phase == Waiting
  {
    if k > 0 { OwedByInjectJobs(r, node, id, elapsed, k - 1, considered); }
  }

  lemma {:induction false} OwedByInjectSees(r: Run, node: Node, id: int, elapsed: int, k: nat, considered: set<string>)
    requires k <= |node.triggers|
    ensures var seen := OwedByInject(r, node, id, elapsed, k, considered).1;
            considered <= seen && forall i: nat | i < k :: Keys.TriggerKey(node.id, i) in seen
  {
    hide Keys.TriggerKey;
    if k > 0 { OwedByInjectSees(r, node, id, elapsed, k - 1, considered); }
  }

  lemma WaitingAccounts(r: Run, jobs: seq<CommJob>, seen: set<string>, node: string, index: nat)
    requires AllAccounted(r, jobs, seen) && CommWaiting(r, node, index)
    ensures AllAccounted(r, jobs, seen + {Keys.TriggerKey(node, index)})
  {
    assert Handled(r, jobs, node, index);
    assert Accounted(r, jobs, Keys.TriggerKey(node, index));
  }

  lemma NewJobAccounts(r: Run, jobs: seq<CommJob>, seen: set<string>, job: CommJob)
    requires AllAccounted(r, jobs, seen) && job.phase == Waiting
    ensures AllAccounted(r, jobs + [job], seen + {Keys.TriggerKey(job.node, job.index)})
  {
    AccountedGrows(r, jobs, [job], seen);
    assert job in jobs + [job] && CommActs(job, job.node, job.index);
    assert Handled(r, jobs + [job], job.node, job.index);
    assert Accounted(r, jobs + [job], Keys.TriggerKey(job.node, job.index));
  }

  lemma {:induction false} OwedByInjectAccounts(r: Run, node: Node, id: int, elapsed: int, k: nat,
                                               considered: set<string>, jobs: seq<CommJob>)
    requires k <= |node.triggers| && AllAccounted(r, jobs, considered)
    ensures var (more, seen) := OwedByInject(r, node, id, elapsed, k, considered); AllAccounted(r, jobs + more, seen)
  {
    hide Keys.TriggerKey, Accounted;
    if k == 0 {
      assert jobs + [] == jobs;
    } else {
      OwedByInjectAccounts(r, node, id, elapsed, k - 1, considered, jobs);
      var (more, seen) := OwedByInject(r, node, id, elapsed, k - 1, considered);
      if Keys.TriggerKey(node.id, k - 1) in seen {
      } else if CommWaiting(r, node.id, k - 1) {
        WaitingAccounts(r, jobs + more, seen, node.id, k - 1);
      } else {
        var wait := Max(0, node.triggers[k - 1].delaySeconds * Clock.SECOND - elapsed);
        var job := CommJob(id, node.id, k - 1, r.board.now + wait, 0, Waiting);
        NewJobAccounts(r, jobs + more, seen, job);
        assert jobs + (more + [job]) == (jobs + more) + [job];
      }
    }
  }

  /** What walking one more inject of the order adds. */
  lemma OwedStep(r: Run, version: nat, order: seq<int>) returns (elapsed: int)
    requires version < |r.life.versions| && forall id | id in order :: id in r.board.injects
    requires order != [] && NodeOf(r.board, order[|order| - 1]).Some?
    ensures var id, before := order[|order| - 1], Owed(r, version, order[..|order| - 1]);
            var node := NodeOf(r.board, id).value;
            var step := OwedByInject(r, node, id, elapsed, |node.triggers|, before.1);
            Owed(r, version, order) == (before.0 + step.0, step.1)
  {
    elapsed := Clock.ActiveElapsedSince(r.life.versions[version],
                                        r.board.injects[order[|order| - 1]].releasedAt.GetOr(0), r.life.log, r.board.now);
  }

  lemma {:induction false} OwedAccounts(r: Run, version: nat, order: seq<int>)
    requires version < |r.life.versions| && forall id | id in order :: id in r.board.injects
    ensures AllAccounted(r, Owed(r, version, order).0, Owed(r, version, order).1)
  {
    if order != [] {
      var before := Owed(r, version, order[..|order| - 1]);
      var id := order[|order| - 1];
      OwedAccounts(r, version, order[..|order| - 1]);
      if NodeOf(r.board, id).Some? {
        var node := NodeOf(r.board, id).value;
        var elapsed := OwedStep(r, version, order);
        OwedByInjectAccounts(r, node, id, elapsed, |node.triggers|, before.1, before.0);
      }
    }
  }

  lemma {:induction false} OwedSees(r: Run, version: nat, order: seq<int>, id: int, i: nat)
    requires version < |r.life.versions| && forall q | q in order :: q in r.board.injects
    requires id in order && NodeOf(r.board, id).Some? && i < |NodeOf(r.board, id).value.triggers|
    ensures Keys.TriggerKey(NodeOf(r.board, id).value.id, i) in Owed(r, version, order).1
  {
    var n := |order| - 1;
    if id in order[..n] { OwedSees(r, version, order[..n], id, i); }
    if NodeOf(r.board, order[n]).Some? {
      var node := NodeOf(r.board, order[n]).value;
      var elapsed := OwedStep(r, version, order);
      OwedByInjectSees(r, node, order[n], elapsed, |node.triggers|, Owed(r, version, order[..n]).1);
    }
  }

  ghost predicate OwedFor(r: Run, order: seq<int>, j: CommJob)
    requires forall q | q in order :: q in r.board.injects
  {
    && j.phase == Waiting && j.inject in order && NodeOf(r.board, j.inject).Some?
    && j.node == NodeOf(r.board, j.inject).value.id && j.index < |NodeOf(r.board, j.inject).value.triggers|
  }

  lemma {:induction false} OwedJobs(r: Run, version: nat, order: seq<int>, j: CommJob)
    requires version < |r.life.versions| && forall id | id in order :: id in r.board.injects
    requires j in Owed(r, version, order).0
    ensures OwedFor(r, order, j)
  {
    var n := |order| - 1;
    var before := Owed(r, version, order[..n]);
    if j in before.0 {
      OwedJobs(r, version, order[..n], j);
    } else if NodeOf(r.board, order[n]).Some? {
      var node := NodeOf(r.board, order[n]).value;
      var elapsed := OwedStep(r, version, order);
      OwedByInjectJobs(r, node, order[n], elapsed, |node.triggers|, before.1);
      assert j in OwedByInject(r, node, order[n], elapsed, |node.triggers|, before.1).0;
    }
  }

  lemma HandledIsCovered(r: Run, jobs: seq<CommJob>, node: string, index: nat)
    requires Handled(r, jobs, node, index)
    ensures SomeCommActs(r.commJobs + multiset(jobs), node, index)
  {
    if j :| j in r.commJobs && j.node == node && j.index == index && j.phase == Waiting {
      assert j in r.commJobs + multiset(jobs) && CommActs(j, node, index);
    } else {
      var j :| j in jobs && CommActs(j, node, index);
      assert j in r.commJobs + multiset(jobs);
    }
  }

  lemma RearmCovers(r: Run, version: nat, order: seq<int>, id: int, node: string, index: nat)
    requires version < |r.life.versions| && ReleasedInOrder(r.board, order)
    requires IsTrigger(r.board, id, node, index) && r.board.injects[id].releasedAt.Some?
    ensures Keys.TriggerKey(node, index) in r.deliveries
            || SomeCommActs(r.commJobs + multiset(Owed(r, version, order).0), node, index)
  {
    NodeKeepsItsId(r.board.def, node);
    OwedAccounts(r, version, order);
    OwedSees(r, version, order, id, index);
    var (jobs, seen) := Owed(r, version, order);
    var key := Keys.TriggerKey(node, index);
    assert Accounted(r, jobs, key);
    if key !in r.deliveries {
      var n, i :| key == Keys.TriggerKey(n, i) && Handled(r, jobs, n, i);
      Keys.KeysIdentifyTriggers(n, i, node, index);
      HandledIsCovered(r, jobs, node, index);
    }
  }

  lemma ReleasedIsOpened(b: Board, id: int)
    requires Inv(b) && id in b.injects
    ensures b.injects[id].releasedAt.Some? <==> Opened(b, id)
  {
    assert InjectInv(b.injects[id], Rows(b, id), Answers(b, id), b.members, b.now);
  }

  lemma OwedJobIsSane(r: Run, version: nat, order: seq<int>, j: CommJob)
    requires version < |r.life.versions| && ReleasedInOrder(r.board, order) && Inv(r.board)
    requires j in Owed(r, version, order).0
    ensures CommSane(r.board, j)
  {
    OwedJobs(r, version, order, j);
    NodeKeepsItsId(r.board.def, r.board.injects[j.inject].node.GetOr(""));
    ReleasedIsOpened(r.board, j.inject);
  }

  lemma RearmFields(r: Run, version: nat, order: seq<int>)
    requires version < |r.life.versions| && ReleasedInOrder(r.board, order) && IsRunning(r.life.versions[version])
    ensures var r' := ScheduleExerciseInjects(r, version, order);
            && r'.board == r.board && r'.deliveries == r.deliveries && r'.announced == r.announced
            && r'.commJobs == r.commJobs + multiset(Owed(r, version, order).0)
  {
    EnqueueLeavesBoard(r, version, Unqueued(r));
  }

  lemma ReArmedKeepsMessages(r: Run, r': Run, version: nat, order: seq<int>)
    requires Inv(r.board) && MessagesInv(r)
    requires version < |r.life.versions| && ReleasedInOrder(r.board, order)
    requires r'.board == r.board && r'.deliveries == r.deliveries && r'.announced == r.announced
    requires r'.commJobs == r.commJobs + multiset(Owed(r, version, order).0)
    ensures MessagesInv(r')
  {
    hide Owed, InjectInv, CursorsInv, Keys.TriggerKey;
    forall j | j in r'.commJobs && j !in r.commJobs ensures CommSane(r'.board, j) {
      OwedJobIsSane(r, version, order, j);
    }
    SanityExtends(r, r');
    forall id, node, index | IsTrigger(r'.board, id, node, index) && node != ""
      ensures MessageCovered(r', node, index)
    {
      ReleasedIsOpened(r.board, id);
      RearmCovers(r, version, order, id, node, index);
    }
  }

  lemma RearmKeepsMessages(r: Run, version: nat, order: seq<int>)
    requires Inv(r.board) && MessagesInv(r)
    requires version < |r.life.versions| && ReleasedInOrder(r.board, order)
    ensures MessagesInv(ScheduleExerciseInjects(r, version, order))
  {
    if IsRunning(r.life.versions[version]) {
      RearmFields(r, version, order);
      ReArmedKeepsMessages(r, ScheduleExerciseInjects(r, version, order), version, order);
    }
  }

  // ── The communication worker ──────────────────────────────────────────────

  /** Replacing a job by one that still acts, or removing one that never would, loses nothing. */
  lemma SwapKeepsMessages(r: Run, r': Run, old_: CommJob, added: multiset<CommJob>)
    requires MessagesInv(r) && old_ in r.commJobs
    requires r' == r.(commJobs := r.commJobs - multiset{old_} + added)
    requires forall j | j in added :: CommSane(r.board, j)
    requires old_.phase == Settled(Drop) || r.life.row.state != L.Active
             || exists j :: j in added && CommActs(j, old_.node, old_.index)
    ensures MessagesInv(r')
  {
    forall j | j in r'.commJobs ensures j in r.commJobs || j in added {}
    SanityExtends(r, r');
    if r'.life.row.state == L.Active && !r'.rearmOwed {
      forall id, node, index | IsTrigger(r'.board, id, node, index) && node != ""
        ensures MessageCovered(r', node, index)
      {
        assert MessageCovered(r, node, index);
        if j :| j in r.commJobs && CommActs(j, node, index) {
          if j == old_ {
            var k :| k in added && CommActs(k, node, index);
            assert k in r'.commJobs;
          } else {
            assert j in r'.commJobs;
          }
        }
      }
    }
  }

  lemma AnotherJobKeepsMessages(r: Run, j: CommJob)
    requires MessagesInv(r) && CommSane(r.board, j)
    ensures MessagesInv(r.(commJobs := r.commJobs + multiset{j}))
  {
    var r' := r.(commJobs := r.commJobs + multiset{j});
    forall k | k in r'.commJobs ensures k in r.commJobs || k == j {}
    SanityExtends(r, r');
    if r'.life.row.state == L.Active && !r'.rearmOwed {
      forall id, node, index | IsTrigger(r'.board, id, node, index) && node != ""
        ensures MessageCovered(r', node, index)
      {
        assert MessageCovered(r, node, index);
        if k :| k in r.commJobs && CommActs(k, node, index) { assert k in r'.commJobs; }
      }
    }
  }

  /** While the exercise is active, a worker never drops a trigger of a released inject. */
  lemma NothingIsDropped(r: Run, j: CommJob)
    requires Inv(r.board) && CommSane(r.board, j) && r.life.row.state == L.Active
    ensures JudgeComm(r, j) != Drop
  {
    assert InjectInv(r.board.injects[j.inject], Rows(r.board, j.inject), Answers(r.board, j.inject),
                     r.board.members, r.board.now);
  }

  lemma RephaseKeepsMessages(r: Run, j: CommJob, phase: CommPhase)
    requires MessagesInv(r) && j in r.commJobs
    requires phase == Settled(Drop) ==> r.life.row.state != L.Active
    requires CommSane(r.board, j.(phase := phase))
    ensures MessagesInv(r.(commJobs := ReplaceComm(r.commJobs, j, j.(phase := phase))))
  {
    var next := j.(phase := phase);
    if phase != Settled(Drop) { assert next in multiset{next} && CommActs(next, j.node, j.index); }
    SwapKeepsMessages(r, r.(commJobs := ReplaceComm(r.commJobs, j, next)), j, multiset{next});
  }

  lemma ReadKeepsMessages(r: Run, j: CommJob)
    requires Inv(r.board) && MessagesInv(r)
    ensures MessagesInv(ReadComm(r, j))
  {
    if j in r.commJobs && j.phase == Running {
      assert CommSane(r.board, j);
      if r.life.row.state == L.Active { NothingIsDropped(r, j); }
      RephaseKeepsMessages(r, j, Settled(JudgeComm(r, j)));
    }
  }

  lemma NewAnnouncement(announced: seq<string>, deliveries: map<string, Delivery>, key: string, d: Delivery)
    requires AnnouncedOnce(announced, deliveries) && key !in deliveries
    ensures AnnouncedOnce(announced + [key], deliveries[key := d])
  {
    assert key !in announced;
    assert (announced + [key])[|announced|] == key;
    forall k ensures k in announced + [key] <==> k in deliveries[key := d] {
      assert k in announced + [key] <==> k in announced || k == key;
    }
  }

  lemma NewDelivery(b: Board, deliveries: map<string, Delivery>, key: string, d: Delivery, node: string, index: nat)
    requires DeliveriesSane(b, deliveries) && DeliveredAs(b, d, key, node, index)
    ensures DeliveriesSane(b, deliveries[key := d])
  {
    var after := deliveries[key := d];
    forall k | k in after ensures exists n, i :: DeliveredAs(b, after[k], k, n, i) {
      if k == key {
        assert DeliveredAs(b, after[k], k, node, index);
      } else {
        var n, i :| DeliveredAs(b, deliveries[k], k, n, i);
        assert DeliveredAs(b, after[k], k, n, i);
      }
    }
  }

  lemma DeliveredIsCovered(r: Run, r': Run, j: CommJob, node: string, index: nat)
    requires MessageCovered(r, node, index) && j in r.commJobs && r'.commJobs == r.commJobs - multiset{j}
    requires r'.deliveries.Keys == r.deliveries.Keys + {Keys.TriggerKey(j.node, j.index)}
    ensures MessageCovered(r', node, index)
  {
    if k :| k in r.commJobs && CommActs(k, node, index) {
      if k != j { assert k in r'.commJobs; }
    }
  }

  lemma DeliveryLosesNothing(r: Run, r': Run, j: CommJob)
    requires NoMessageLost(r) && j in r.commJobs && r'.commJobs == r.commJobs - multiset{j}
    requires r'.board == r.board && r'.life == r.life && r'.rearmOwed == r.rearmOwed
    requires r'.deliveries.Keys == r.deliveries.Keys + {Keys.TriggerKey(j.node, j.index)}
    ensures NoMessageLost(r')
  {
    if r'.life.row.state == L.Active && !r'.rearmOwed {
      forall id, node, index | IsTrigger(r'.board, id, node, index) && node != ""
        ensures MessageCovered(r', node, index)
      {
        DeliveredIsCovered(r, r', j, node, index);
      }
    }
  }

  lemma DeliverOnceFields(r: Run, j: CommJob, trigger: TriggerComm)
    ensures var r', key := DeliverOnce(r, j, trigger), Keys.TriggerKey(j.node, j.index);
            var d := Delivery(j.inject, trigger, r.board.now);
            && r' == r.(deliveries := r'.deliveries, announced := r'.announced)
            && r'.deliveries == (if key in r.deliveries then r.deliveries else r.deliveries[key := d])
            && r'.announced == (if key in r.deliveries then r.announced else r.announced + [key])
  {
  }

  lemma DeliverKeepsSanity(r: Run, r': Run, j: CommJob, d: Delivery)
    requires CommsSane(r) && DeliveriesSane(r.board, r.deliveries) && AnnouncedOnce(r.announced, r.deliveries)
    requires r'.board == r.board && r'.commJobs <= r.commJobs
    requires var key := Keys.TriggerKey(j.node, j.index);
             && DeliveredAs(r.board, d, key, j.node, j.index)
             && r'.deliveries == (if key in r.deliveries then r.deliveries else r.deliveries[key := d])
             && r'.announced == (if key in r.deliveries then r.announced else r.announced + [key])
    ensures CommsSane(r') && DeliveriesSane(r'.board, r'.deliveries) && AnnouncedOnce(r'.announced, r'.deliveries)
  {
    var key := Keys.TriggerKey(j.node, j.index);
    if key !in r.deliveries {
      NewAnnouncement(r.announced, r.deliveries, key, d);
      NewDelivery(r.board, r.deliveries, key, d, j.node, j.index);
    }
  }

  lemma DeliverKeepsMessages(r: Run, j: CommJob, trigger: TriggerComm, r': Run)
    requires MessagesInv(r) && j in r.commJobs && j.phase == Settled(Deliver(trigger))
    requires r' == DeliverOnce(r.(commJobs := r.commJobs - multiset{j}), j, trigger)
    ensures MessagesInv(r')
  {
    hide Keys.TriggerKey, Opened, DeliverOnce;
    DeliverOnceFields(r.(commJobs := r.commJobs - multiset{j}), j, trigger);
    assert CommSane(r.board, j);
    DeliverKeepsSanity(r, r', j, Delivery(j.inject, trigger, r.board.now));
    DeliveryLosesNothing(r, r', j);
  }

  lemma ReturnKeepsMessages(r: Run, j: CommJob, again: CommJob)
    requires MessagesInv(r) && j in r.commJobs
    requires again.phase == Waiting && again == j.(at := again.at, lag := again.lag, phase := Waiting)
    ensures MessagesInv(r.(commJobs := r.commJobs - multiset{j} + multiset{again}))
  {
    assert CommSane(r.board, j);
    assert again in multiset{again} && CommActs(again, j.node, j.index);
    SwapKeepsMessages(r, r.(commJobs := r.commJobs - multiset{j} + multiset{again}), j, multiset{again});
  }

  lemma DropKeepsMessages(r: Run, j: CommJob)
    requires MessagesInv(r) && j in r.commJobs && j.phase == Settled(Drop)
    ensures MessagesInv(r.(commJobs := r.commJobs - multiset{j}))
  {
    SwapKeepsMessages(r, r.(commJobs := r.commJobs - multiset{j}), j, multiset{});
  }

  lemma FinishKeepsMessages(r: Run, j: CommJob)
    requires MessagesInv(r)
    ensures MessagesInv(FinishComm(r, j))
  {
    if j in r.commJobs && j.phase.Settled? {
      match j.phase.verdict
      case Drop => DropKeepsMessages(r, j);
      case Return(remaining, readAt) => ReturnKeepsMessages(r, j, SentBack(j, remaining, readAt, r.board.now));
      case Deliver(trigger) => DeliverKeepsMessages(r, j, trigger, FinishComm(r, j));
    }
  }

  lemma MessageKeepsMessages(r: Run, work: Work, j: CommJob)
    requires Inv(r.board) && MessagesInv(r)
    ensures MessagesInv(WorkMessage(r, work, j))
  {
    if j in r.commJobs { assert CommSane(r.board, j); }
    match work
    case Fetch => if j in r.commJobs { RephaseKeepsMessages(r, j, CommPhase.Running); }
    case Read => ReadKeepsMessages(r, j);
    case Finish => FinishKeepsMessages(r, j);
    case Retry => if j in r.commJobs { RephaseKeepsMessages(r, j, Waiting); }
    case Rerun => if j in r.commJobs { AnotherJobKeepsMessages(r, j.(phase := Waiting)); }
  }

  // ── Every move ────────────────────────────────────────────────────────────

  lemma OpensOnlyReleased(b: Board, step: Step)
    requires Inv(b)
    ensures step.Release? ==> forall q | Opened(Commit(b, step), q) :: q == step.inject || Opened(b, q)
    ensures !step.Release? ==> OpensNothing(b, Commit(b, step))
  {
    forall q | Opened(Commit(b, step), q) && !Opened(b, q)
      ensures step.Release? && q == step.inject
    {
      Provenance.OnlyReleaseOpens(b, step, q);
    }
  }

  lemma ReleaseNowKeepsMessages(r: Run, r': Run, id: int, actor: Option<int>, scheduled: bool)
    requires Inv(r.board) && MessagesInv(r)
    requires ReleaseInject(r.board, id, actor, scheduled) == Ok(r'.board)
    requires r'.deliveries == r.deliveries && r'.announced == r.announced
    requires r'.life == r.life && r'.rearmOwed == r.rearmOwed
    requires r'.commJobs == r.commJobs + ReleaseTriggers(r'.board, id)
    ensures MessagesInv(r')
  {
    ReleaseKeeps(r.board, id, actor, scheduled);
    ReleaseTouches(r.board, id, actor, scheduled);
    ReleaseKeepsMessages(r, r', id);
  }

  lemma RequestKeepsMessages(r: Run, request: Request)
    requires Core(r) && MessagesInv(r) && Handle(r, request).Ok?
    ensures MessagesInv(Handle(r, request).value)
  {
    if request.ReleaseByHand? {
      ReleaseIsABoardStep(r, request.inject, Some(request.actor), false);
      ReleaseNowKeepsMessages(r, Handle(r, request).value, request.inject, Some(request.actor), false);
    } else {
      RequestIsABoardStep(r, request);
      CommitKeeps(r.board, RequestStep(r, request));
      OpensOnlyReleased(r.board, RequestStep(r, request));
      QuietKeepsMessages(r, Handle(r, request).value);
    }
  }

  lemma WorkKeepsMessages(r: Run, work: Work, j: ReleaseJob)
    requires Core(r) && MessagesInv(r) && r.life.versions != []
    ensures MessagesInv(WorkRelease(r, work, j))
  {
    if work == Finish {
      if FinishReleases(r, j) {
        FinishIsARelease(r, j);
        ReleaseNowKeepsMessages(r, FinishJob(r, j), j.inject, None, true);
      } else {
        FinishIsQuiet(r, j);
        QuietKeepsMessages(r, FinishJob(r, j));
      }
    } else {
      WorkInPlace(r, work, j);
      QuietKeepsMessages(r, WorkRelease(r, work, j));
    }
  }

  lemma ChangeKeepsMessages(r: Run, seen: nat, target: L.Phase)
    requires MessagesInv(r) && ChangeState(r, seen, target).Ok?
    ensures MessagesInv(ChangeState(r, seen, target).value)
  {
    L.TransitionOutcome(r.life, r.life.versions[seen], target, r.board.now);
    QuietKeepsMessages(r, ChangeState(r, seen, target).value);
  }

  lemma MoveKeepsMessages(r: Run, move: Move)
    requires Core(r) && MessagesInv(r)
    ensures MessagesInv(Perform(r, move))
  {
    match move
    case Ask(request) => if Handle(r, request).Ok? { RequestKeepsMessages(r, request); }
    case ChangeTo(seen, target) => if ChangeState(r, seen, target).Ok? { ChangeKeepsMessages(r, seen, target); }
    case Rearm(version, order) =>
      if version < |r.life.versions| && ReleasedInOrder(r.board, order) { RearmKeepsMessages(r, version, order); }
    case OnRelease(work, j) => WorkKeepsMessages(r, work, j);
    case OnMessage(work, j) => MessageKeepsMessages(r, work, j);
  }

  lemma {:induction false} PlayKeepsMessages(def: Definition, start: int, moves: seq<TimedMove>)
    ensures MessagesInv(Play(CreateExercise(def, start), moves))
  {
    if moves == [] {
      CreatedSatisfies(def, start);
      SeedInjectsPending(def.injects);
    } else {
      var n := |moves| - 1;
      var before := Play(CreateExercise(def, start), moves[..n]);
      PlayKeeps(def, start, moves[..n]);
      PlayKeepsMessages(def, start, moves[..n]);
      WaitKeepsCore(before, moves[n].dt);
      QuietKeepsMessages(before, Wait(before, moves[n].dt));
      MoveKeepsMessages(Wait(before, moves[n].dt), moves[n].move);
    }
  }

  // ── Main results ──────────────────────────────────────────────────────────

  /** At most one communication and one created event for each trigger, whatever is replayed; what is
      stored is what the definition says, for an inject of that node that really was released; and in
      an active exercise every trigger of a released scenario inject is delivered or still has a job
      that will act. */
  lemma TriggeredExactlyOnce(def: Definition, start: int, moves: seq<TimedMove>)
    ensures var r := Play(CreateExercise(def, start), moves);
            && NoDuplicates(r.announced)
            && (forall key :: key in r.announced <==> key in r.deliveries)
            && (forall key | key in r.deliveries ::
                  exists node, index :: DeliveredAs(r.board, r.deliveries[key], key, node, index))
            && (r.life.row.state == L.Active && !r.rearmOwed ==>
                  forall id, node, index | IsTrigger(r.board, id, node, index) && node != "" ::
                    Keys.TriggerKey(node, index) in r.deliveries
                    || exists j :: j in r.commJobs && j.node == node && j.index == index && j.phase != Settled(Drop))
  {
    PlayKeepsMessages(def, start, moves);
    var r := Play(CreateExercise(def, start), moves);
    if r.life.row.state == L.Active && !r.rearmOwed {
      forall id, node, index | IsTrigger(r.board, id, node, index) && node != ""
        ensures Keys.TriggerKey(node, index) in r.deliveries
                || exists j :: j in r.commJobs && j.node == node && j.index == index && j.phase != Settled(Drop)
      {
        assert MessageCovered(r, node, index);
        if j :| j in r.commJobs && CommActs(j, node, index) {
          assert j in r.commJobs && j.node == node && j.index == index && j.phase != Settled(Drop);
        }
      }
    }
  }

  lemma OnlyDeliveryAdds(r: Run, work: Work, j: CommJob)
    ensures var r' := WorkMessage(r, work, j);
            && r.announced <= r'.announced
            && forall key | key in r.deliveries :: key in r'.deliveries && r'.deliveries[key] == r.deliveries[key]
  {
    match work
    case Finish =>
      if j in r.commJobs && j.phase.Settled? && j.phase.verdict.Deliver? {
        DeliverOnceFields(r.(commJobs := r.commJobs - multiset{j}), j, j.phase.verdict.trigger);
      }
    case Read => ReadCommLeavesRest(r, j);
    case Fetch =>
    case Retry =>
    case Rerun =>
  }

  lemma MoveOnlyAdds(r: Run, move: Move)
    ensures var r' := Perform(r, move);
            && r.announced <= r'.announced
            && forall key | key in r.deliveries :: key in r'.deliveries && r'.deliveries[key] == r.deliveries[key]
  {
    if r.life.versions != [] {
      match move
      case Ask(request) => if Handle(r, request).Ok? { RequestIsABoardStep(r, request); }
      case OnRelease(work, j) => WorkIsABoardStep(r, work, j);
      case OnMessage(work, j) => OnlyDeliveryAdds(r, work, j);
      case ChangeTo(_, _) =>
      case Rearm(version, order) =>
        if version < |r.life.versions| && ReleasedInOrder(r.board, order) && IsRunning(r.life.versions[version]) {
          RearmFields(r, version, order);
        }
    }
  }

  /** What has been delivered and announced stays exactly as it was, in every continuation. */
  lemma {:induction false} DeliveriesAreForever(r: Run, more: seq<TimedMove>)
    ensures r.announced <= Play(r, more).announced
    ensures forall key | key in r.deliveries ::
              key in Play(r, more).deliveries && Play(r, more).deliveries[key] == r.deliveries[key]
  {
    if more != [] {
      var n := |more| - 1;
      DeliveriesAreForever(r, more[..n]);
      MoveOnlyAdds(Wait(Play(r, more[..n]), more[n].dt), more[n].move);
    }
  }
}
