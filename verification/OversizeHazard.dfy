/** What marking a whole batch does when the settings do not keep the sizes apart: a message
    within the limit becomes too large, though every size on record is true, the server is
    honest, and nothing fails or intrudes. With `BodyPass`, this makes the settings' condition
    exact. */
module OversizeHazard {
  import opened Wrappers
  import opened Tables
  import Store
  import Claims
  import opened BodyQueue
  import opened Delivery
  import opened BodyPass
  import opened Planner
  import Oversize

  /** A mailbox of two messages, not yet downloaded: an empty one under UID 1, and one just above
      the limit under UID 2. */
  function TwoPending(maxSize: nat): Tables {
    Tables(map[0 := Mailbox(0, None, None, None, 0, false, 0, 3)],
           map[0 := Message(0, Placeholder(0, 1), 0, None), 1 := Message(0, Placeholder(0, 2), maxSize + 1, None)],
           map[0 := PendingRow(0, 1), 1 := PendingRow(1, 2)], 2, 2)
  }

  function PendingRow(message: Id, uid: Uid): Row {
    Row(0, message, uid, Some(uid), None, {}, Pending, 0, None)
  }

  function TwoMails(large: Content): Uid -> Content {
    u => if u == 2 then large else ""
  }

  lemma TwoPendingIsSound(maxSize: nat)
    ensures TwoPending(maxSize).Constraints()
  {
  }

  /** The large message comes first, then the empty one, each as it is. */
  function LargeFirst(large: Content): Response {
    Response([Answer(2, Some(Literal(|large|, large, true))), Answer(1, Some(Literal(0, "", true)))], None)
  }

  lemma LargeFirstIsHonest(large: Content)
    ensures HonestAnswers(LargeFirst(large).answers, TwoMails(large))
  {
  }

  lemma BothAreClaimed(maxSize: nat, picked: set<Id>, limit: nat, maxAttempts: nat)
    requires TwoPending(maxSize).ClaimChoice(picked, 0, limit, maxAttempts, {}) && limit >= 2 && maxAttempts > 0
    ensures picked == {0, 1}
  {
    var t := TwoPending(maxSize);
    assert t.Claimable(0, 0, maxAttempts) && t.Claimable(1, 0, maxAttempts);
    assert forall r | r in picked :: t.Claimable(r, 0, maxAttempts);
    assert picked <= {0, 1};
    if 0 !in picked {
      Fewer(picked, {1});
    } else if 1 !in picked {
      Fewer(picked, {0});
    }
  }

  lemma Fewer(a: set<Id>, b: set<Id>)
    requires a <= b
    ensures |a| <= |b|
  {
    if a != {} {
      var x :| x in a;
      Fewer(a - {x}, b - {x});
    }
  }

  /** In whatever order they are claimed, the two make one batch, and the empty message's row is
      found under UID 1. */
  lemma BothAreSized(maxSize: nat, claimed: seq<Store.PendingBody>, large: Content)
    requires Store.AllDescribed(TwoPending(maxSize), claimed) && Store.RowsIn(claimed) == {0, 1} && |claimed| == 2
    requires |large| == maxSize + 1
    ensures Oversize.OddPair(Sized(claimed), maxSize) && Uids(Sized(claimed)) == {1, 2}
    ensures exists c :: c in claimed && c.uid == 1 && c.row == 0
    ensures TrueSizes(Reported(claimed), TwoMails(large))
  {
    var a, b := claimed[0], claimed[1];
    assert forall c :: c in claimed <==> c == a || c == b;
    assert Store.Describes(TwoPending(maxSize), a) && Store.Describes(TwoPending(maxSize), b);
    assert a.row in Store.RowsIn(claimed) && b.row in Store.RowsIn(claimed);
    assert 0 in Store.RowsIn(claimed) && 1 in Store.RowsIn(claimed);
    assert (a.row == 0 && b.row == 1) || (a.row == 1 && b.row == 0);
    var w := Sized(claimed);
    assert w == [SizedUid(a.uid, a.size), SizedUid(b.uid, b.size)];
    assert w[0].uid in Uids(w) && w[1].uid in Uids(w);
  }

  lemma OneBatch(budget: BatchBudget, w: seq<SizedUid>, plan: seq<seq<SizedUid>>, maxSize: int)
    requires maxSize >= 0 && !Oversize.KeepsApart(budget, maxSize) && Oversize.OddPair(w, maxSize)
    requires budget.Partition(w, plan) && forall other | budget.Partition(w, other) :: |plan| <= |other|
    ensures plan == [w]
  {
    Oversize.OddPairGoesTogether(budget, w, maxSize);
    assert |plan| <= |[w]|;
    var batch := plan[0];
    assert plan == [batch];
    assert [batch][1..] == [];
    assert Concat([batch]) == batch;
  }

  lemma BothAreReceived(maxSize: nat, large: Content)
    requires maxSize > 0 && |large| == maxSize + 1
    ensures var received := Received(LargeFirst(large).answers, {1, 2});
            received != [] && FirstAbove(received, maxSize) == 0 && Delivered(received[..0]) == {}
  {
  }

  lemma SmallIsAt(table: map<Uid, Id>, claimed: seq<Store.PendingBody>, c: Store.PendingBody)
    requires Indexed(table, claimed) && c in claimed && c.uid == 1
    ensures c.row in RowsAt(table - {}, {1, 2})
  {
    assert 1 in table && table[1] == c.row;
  }

  // ---------------------------------------------------------------- nothing intrudes

  lemma RowIsKept(worker: BodyWorker, r: Id)
    requires worker.Logged() && worker.intrusions == []
    requires r in worker.first.db.rows && worker.first.db.rows[r].mailbox == worker.mailbox
    ensures var t := worker.store.View();
            r in t.rows && t.rows[r].mailbox == worker.mailbox && t.rows[r].uid == worker.first.db.rows[r].uid
  {
    hide Start, AllSpared, CanStep, Next, BodyWorker.Sound;
    PassKeepsRows(worker.queues, worker.steps, worker.mailbox, worker.maxAttempts, [], {}, |worker.steps|);
  }

  lemma MarkedIsTooLarge(worker: BodyWorker, r: Id)
    requires worker.Logged() && r in worker.queue.skipped && worker.intrusions == []
    requires r in worker.first.db.rows && worker.first.db.rows[r].mailbox == worker.mailbox
    ensures var t := worker.store.View();
            r in t.rows && t.rows[r].state == TooLarge && t.rows[r].uid == worker.first.db.rows[r].uid
  {
    RowIsKept(worker, r);
    hide BodyWorker.Recorded, Inv, WithinBudget;
  }

  // ---------------------------------------------------------------- the run

  method Fill(maxSize: nat) returns (store: Store.Store)
    ensures fresh(store) && store.View() == TwoPending(maxSize)
  {
    store := new Store.Store();
    var t := TwoPending(maxSize);
    store.mailboxes, store.messages, store.rows := t.mailboxes, t.messages, t.rows;
    store.nextMessage, store.nextRow := t.nextMessage, t.nextRow;
  }

  lemma NothingRemembered(mailbox: Id)
    ensures Claims.RowsFor(map[], mailbox) == map[]
  {
  }

  /** The worker as it stands before the pass. */
  method Prepare(maxSize: nat, maxAttempts: nat, large: Content) returns (worker: BodyWorker)
    ensures worker.Logged() && fresh(worker) && fresh(worker.store) && fresh(worker.table) && worker.faults == []
    ensures worker.first.db == worker.store.View() == TwoPending(maxSize)
    ensures worker.queue.hands == map[] && worker.queue.held == map[] && worker.queue.records == {}
    ensures worker.mailbox == 0 && worker.maxAttempts == maxAttempts && worker.maxSize == maxSize && worker.began == 0
    ensures worker.mail == TwoMails(large) && worker.honest && worker.intrusions == []
  {
    hide Tables.Constraints, TwoPending, TwoMails, BodyWorker.Logged, Claims.RowsFor;
    var store := Fill(maxSize);
    TwoPendingIsSound(maxSize);
    NothingRemembered(0);
    var table := new Claims.ClaimTable();
    var wire := new Wire([], NoConnection(true));
    worker := new BodyWorker(store, table, wire, 0, maxAttempts, maxSize, [], [], 0, TwoMails(large), true, {});
  }

  /** Both are claimed, remembered and planned, as one batch. */
  method Plan(worker: BodyWorker, budget: BatchBudget, limit: nat, large: Content)
    returns (batch: seq<SizedUid>)
    requires worker.maxSize > 0 && !Oversize.KeepsApart(budget, worker.maxSize) && |large| == worker.maxSize + 1
    requires worker.Logged() && worker.store.View() == TwoPending(worker.maxSize) && worker.mailbox == 0
    requires worker.queue.hands == map[] && worker.queue.held == map[] && worker.queue.records == {}
    requires limit >= 2 && worker.maxAttempts > 0 && worker.began == 0
    modifies worker`queues, worker`steps, worker`queue, worker.store, worker.table
    ensures worker.Logged() && worker.queue.hands == map[]
    ensures Uids(batch) == {1, 2} && {1, 2} !! worker.queue.left.Keys
    ensures 0 in RowsAt(worker.table.Of(0) - {}, {1, 2})
    ensures TrueSizes(worker.queue.records, TwoMails(large))
  {
    hide BodyWorker.Logged, RowsAt, Uids, Indexed, Oversize.KeepsApart, Oversize.OddPair, BatchBudget.Partition,
         BatchBudget.Maximal, Sized, TwoPending, TwoMails, Tables.Constraints, Store.AllDescribed, Store.RowsIn,
         Reported, TrueSizes, Tables.ClaimChoice, Tables.Claim, Index, Claims.RowsByUid, Claims.RowsFor;
    var claimed := worker.ClaimWork(limit, {}, 0);
    BothAreClaimed(worker.maxSize, Store.RowsIn(claimed), limit, worker.maxAttempts);
    BothAreSized(worker.maxSize, claimed, large);
    worker.RememberWork(claimed);
    var sized := SizeUp(claimed);
    var plan := PlanBatches(sized, budget);
    OneBatch(budget, sized, plan, worker.maxSize);
    batch := plan[0];
    ghost var c :| c in claimed && c.uid == 1 && c.row == 0;
    SmallIsAt(worker.table.Of(0), claimed, c);
  }

  /** With any such settings, whatever else they are: the two messages are claimed, remembered,
      planned and fetched, and the row of the empty one ends as too large. */
  method AcceptableIsMarked(budget: BatchBudget, maxSize: nat, maxAttempts: nat, limit: nat, large: Content)
    returns (worker: BodyWorker)
    requires !Oversize.KeepsApart(budget, maxSize) && maxSize > 0 && |large| == maxSize + 1
    requires limit >= 2 && maxAttempts > 0
    ensures worker.Logged() && worker.first.db == TwoPending(maxSize) && worker.intrusions == []
    ensures worker.maxSize == maxSize && worker.mail == TwoMails(large) && worker.honest
    ensures TrueSizes(worker.queue.records, worker.mail)
    ensures var t := worker.store.View();
            0 in t.rows && t.rows[0].uid == Some(1) && |worker.mail(1)| == 0 && t.rows[0].state == TooLarge
  {
    hide BodyWorker.Logged, Received, FirstAbove, Delivered, RowsAt, Uids, Oversize.KeepsApart, LargeFirst, PartOf,
         ReapsOlder, Remaining, TrueSizes, HonestAnswers, Claims.RowsFor;
    worker := Prepare(maxSize, maxAttempts, large);
    var batch := Plan(worker, budget, limit, large);
    BothAreReceived(maxSize, large);
    LargeFirstIsHonest(large);
    var err := worker.FetchBatch(batch, LargeFirst(large));
    MarkedIsTooLarge(worker, 0);
  }
}
