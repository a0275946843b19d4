/** What a pass leaves being fetched is not lost: the reaper and one further pass claim it
    again. */
module Recovery {
  import opened Wrappers
  import opened Tables
  import opened BodyStates
  import opened BodyQueue
  import opened BodyPass

  /** Not claimed in this pass, and still as it was at its start: pending, with attempts left. */
  ghost predicate Waiting(q: Queue, mailbox: Id, attempts: nat, r: Id) {
    && r < q.db.nextRow
    && (r in q.db.rows && r !in q.claimed ==>
          q.db.rows[r].mailbox == mailbox && q.db.rows[r].state == Pending && q.db.rows[r].attempts == attempts)
  }

  lemma HandIsClaimed(q: Queue, mailbox: Id, stale: set<Id>, w: Worker)
    requires Inv(q, mailbox, stale) && w in q.hands
    ensures q.hands[w] in q.claimed && q.db.Linked()
  {
    assert q.hands[w] in q.Owned();
    assert q.claimed[q.hands[w]] >= 1;
  }

  lemma SettlingAnother(t: Tables, i: Id, content: Content, maxAttempts: nat, r: Id)
    requires t.Linked() && i != r
    ensures t.Attach(i, content).Some? ==> SameRow(t, t.Attach(i, content).value, r)
    ensures SameRow(t, t.MarkFailed(i, maxAttempts), r) && SameRow(t, t.MarkTooLarge(i), r)
  {
  }

  lemma SettlingKeepsWaiting(q: Queue, s: Step, w: Worker, mailbox: Id, maxAttempts: nat, stale: set<Id>, attempts: nat,
                             r: Id)
    requires Inv(q, mailbox, stale) && CanStep(q, s, mailbox, maxAttempts) && Waiting(q, mailbox, attempts, r)
    requires w in q.hands && (s == Fail(w) || s == Skip(w) || (s.Attach? && s.worker == w))
    ensures Waiting(Next(q, s, mailbox, maxAttempts), mailbox, attempts, r)
  {
    hide Inv, Tables.Constraints, Queue.Owned, Tables.Attach, Tables.MarkFailed, Tables.MarkTooLarge, Tables.Linked;
    HandIsClaimed(q, mailbox, stale, w);
    var i := q.hands[w];
    if r != i {
      SettlingAnother(q.db, i, if s.Attach? then s.content else "", maxAttempts, r);
    } else {
      SettlingKeepsIds(q.db, i, if s.Attach? then s.content else "", maxAttempts);
    }
  }

  lemma SettlingKeepsIds(t: Tables, i: Id, content: Content, maxAttempts: nat)
    requires t.Linked()
    ensures t.Attach(i, content).Some? ==> t.Attach(i, content).value.nextRow == t.nextRow
    ensures t.MarkFailed(i, maxAttempts).nextRow == t.nextRow && t.MarkTooLarge(i).nextRow == t.nextRow
  {
  }

  lemma MeanwhileKeepsWaiting(q: Queue, db: Tables, created: nat, mailbox: Id, attempts: nat, r: Id)
    requires Waiting(q, mailbox, attempts, r) && QueueUntouched(q.db, db, mailbox)
    ensures Waiting(q.(db := db, created := created), mailbox, attempts, r)
  {
  }

  lemma StepKeepsWaiting(q: Queue, s: Step, mailbox: Id, maxAttempts: nat, stale: set<Id>, attempts: nat, r: Id)
    requires Inv(q, mailbox, stale) && CanStep(q, s, mailbox, maxAttempts) && Waiting(q, mailbox, attempts, r)
    ensures Waiting(Next(q, s, mailbox, maxAttempts), mailbox, attempts, r)
  {
    var q' := Next(q, s, mailbox, maxAttempts);
    hide Inv, Tables.Constraints, Apply, Foreign, Enabled, ByUid, Addressable, Tables.ClaimChoice, QueueUntouched,
         Appeared, Tables.Attach, Tables.MarkFailed, Tables.MarkTooLarge;
    match s
    case Attach(w, _, _) => SettlingKeepsWaiting(q, s, w, mailbox, maxAttempts, stale, attempts, r);
    case Fail(w) => SettlingKeepsWaiting(q, s, w, mailbox, maxAttempts, stale, attempts, r);
    case Skip(w) => SettlingKeepsWaiting(q, s, w, mailbox, maxAttempts, stale, attempts, r);
    case Meanwhile(st) =>
      ForeignLeavesQueue(q.db, st, mailbox);
      MeanwhileKeepsWaiting(q, q'.db, q'.created, mailbox, attempts, r);
    case Claim(_, _, picked, now) => assert r !in q'.claimed ==> r !in picked;
    case _ =>
  }

  lemma {:induction false} PassKeepsWaiting(qs: seq<Queue>, ss: seq<Step>, mailbox: Id, maxAttempts: nat,
                                            stale: set<Id>, attempts: nat, r: Id, n: nat)
    requires Pass(qs, ss, mailbox, maxAttempts) && n < |qs| && Start(qs[0], mailbox, stale) && AllSpared(qs, ss)
    requires Waiting(qs[0], mailbox, attempts, r)
    ensures Waiting(qs[n], mailbox, attempts, r)
  {
    hide Inv, Waiting;
    if n > 0 {
      PassKeepsWaiting(qs, ss, mailbox, maxAttempts, stale, attempts, r, n - 1);
      OwnershipIsLinear(qs, ss, mailbox, maxAttempts, stale, n - 1);
      StepKeepsWaiting(qs[n - 1], ss[n - 1], mailbox, maxAttempts, stale, attempts, r);
    }
  }

  /** The reaper makes every row left fetching long enough claimable again, unless a renumbering
      has cleared its UID. */
  lemma ReapedIsClaimable(t: Tables, mailbox: Id, maxAttempts: nat, cutoff: nat, r: Id)
    requires SoundRows(t, maxAttempts) && r in t.rows && t.rows[r].mailbox == mailbox && t.rows[r].state == Fetching
    ensures t.Reap(cutoff).Claimable(r, mailbox, maxAttempts) <==>
            t.rows[r].uid.Some? && t.rows[r].claimedAt.value < cutoff
  {
    assert SoundRow(t.rows[r], maxAttempts);
  }

  /** And the next pass that runs to its end claims it: what is left then is gone, has lost its
      UID, or is locked by someone else. */
  lemma LeftFetchingIsClaimedAgain(t: Tables, cutoff: nat, qs: seq<Queue>, ss: seq<Step>, mailbox: Id, maxAttempts: nat,
                                   stale: set<Id>, locked: set<Id>, r: Id)
    requires t.Constraints() && SoundRows(t, maxAttempts)
    requires r in t.rows && t.rows[r].mailbox == mailbox && t.rows[r].state == Fetching
    requires t.rows[r].claimedAt.value < cutoff
    requires Pass(qs, ss, mailbox, maxAttempts) && Start(qs[0], mailbox, stale) && AllSpared(qs, ss)
    requires qs[0].db == t.Reap(cutoff)
    requires forall i | qs[|ss|].db.Claimable(i, mailbox, maxAttempts) :: i in locked
    ensures var end := qs[|ss|];
            r in end.claimed || r !in end.db.rows || end.db.rows[r].uid == None || r in locked
  {
    assert SoundRow(t.rows[r], maxAttempts);
    assert Waiting(qs[0], mailbox, t.rows[r].attempts, r);
    PassKeepsWaiting(qs, ss, mailbox, maxAttempts, stale, t.rows[r].attempts, r, |ss|);
    var end := qs[|ss|];
    if r in end.db.rows && r !in end.claimed && end.db.rows[r].uid.Some? {
      assert end.db.Claimable(r, mailbox, maxAttempts);
    }
  }

  /** So does the body pass as it runs: whatever was left fetching when the reaper came is
      claimed again once a run has ended with nothing unlocked left to claim. */
  lemma NextRunClaimsIt(worker: BodyWorker, t: Tables, cutoff: nat, locked: set<Id>, r: Id)
    requires worker.Logged() && worker.first.db == t.Reap(cutoff)
    requires t.Constraints() && SoundRows(t, worker.maxAttempts) && r in InState(t, worker.mailbox, Fetching)
    requires t.rows[r].claimedAt.value < cutoff
    requires forall i | worker.store.View().Claimable(i, worker.mailbox, worker.maxAttempts) :: i in locked
    ensures var end := worker.store.View();
            r in worker.queue.claimed || r !in end.rows || end.rows[r].uid == None || r in locked
  {
    hide Start, AllSpared, CanStep, Next, Inv, WithinBudget, LargeIffMarked, Tables.Constraints, Tables.Claimable,
         Tables.Reap;
    LeftFetchingIsClaimedAgain(t, cutoff, worker.queues, worker.steps, worker.mailbox, worker.maxAttempts, worker.stale,
                               locked, r);
  }
}
