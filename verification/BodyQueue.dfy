/** The body download queue of one mailbox: a producer that claims rows, the in-memory
    claim table, and any number of workers, interleaved freely with the metadata pass, with
    work on other mailboxes and with the reaper, which runs on a timer of its own.

    A worker's request does not appear here, because a response is matched to a row by
    taking the claim of its UID. So re-running a batch after a reconnection is one more
    sequence of Take steps, and whatever holds of every run holds of every retry. */
module BodyQueue {
  import opened Wrappers
  import opened Tables

  type Worker = nat

  /** What a claim says of a message: its row, its UID, and its size as recorded then. */
  datatype Record = Record(row: Id, uid: Uid, size: nat)

  datatype Body = Body(row: Id, content: Content)

  /** held is what the producer has claimed and not yet remembered; claims is what it has put
      into the table; hands is what each worker has taken and not yet settled; left is what
      earlier passes left in the table. The rest is bookkeeping: every claim of this pass, how
      each ended, what was counted, marked too large, discovered and reaped meanwhile, which rows
      were too large already, and when the pass began; under which UID each row was claimed, what
      was recorded of it then, and which bodies were attached to which rows. */
  datatype Queue = Queue(
    db: Tables, held: map<Uid, Id>, claims: map<Uid, Id>, hands: map<Worker, Id>, left: map<Uid, Id>,
    claimed: multiset<Id>, settled: multiset<Id>, lost: multiset<Id>,
    attached: nat, failed: nat, downloaded: set<Id>, fetched: nat, skipped: set<Id>,
    created: nat, reaped: nat, large: set<Id>, began: nat,
    names: map<Id, Uid>, records: set<Record>, bodies: set<Body>)
  {
    ghost function Owned(): set<Id> {
      Rows(held) + Rows(claims) + Rows(hands)
    }

    /** The claim table as it stands. */
    ghost function Table(): map<Uid, Id> {
      left + claims
    }
  }

  ghost function Rows(owners: map<nat, Id>): set<Id> {
    set k | k in owners :: owners[k]
  }

  ghost predicate Injective(owners: map<nat, Id>) {
    forall j, k | j in owners && k in owners && j != k :: owners[j] != owners[k]
  }

  datatype Step =
    | Claim(limit: nat, locked: set<Id>, picked: set<Id>, now: nat)
    | Remember
    | Take(worker: Worker, uid: Uid)
    | Attach(worker: Worker, content: Content, lookedUp: bool)
    | Fail(worker: Worker)
    | Skip(worker: Worker)
    | Drop(worker: Worker)
    | Reap(cutoff: nat)
    | Meanwhile(statement: Statement)

  /** A statement issued by the metadata pass, or on behalf of another mailbox. */
  ghost predicate Foreign(t: Tables, s: Statement, mailbox: Id) {
    match s
    case DoReap(_) => false
    case DoClaim(other, _, _, _, _, _) => other != mailbox
    case DoAttach(r, _) => r !in t.rows || t.rows[r].mailbox != mailbox
    case DoMarkFailed(r, _) => r !in t.rows || t.rows[r].mailbox != mailbox
    case DoMarkTooLarge(r) => r !in t.rows || t.rows[r].mailbox != mailbox
    case _ => true
  }

  /** A worker asks only for UIDs this pass has remembered, and the server answers only for what
      it was asked; so what earlier passes left behind is never taken. */
  ghost predicate CanStep(q: Queue, s: Step, mailbox: Id, maxAttempts: nat) {
    q.db.Constraints() &&
    match s
    case Claim(limit, locked, picked, now) =>
      q.held == map[] && now >= q.began && q.db.ClaimChoice(picked, mailbox, limit, maxAttempts, locked)
    case Remember => true
    case Take(w, u) => w !in q.hands && u !in q.left
    case Attach(w, _, _) => w in q.hands
    case Fail(w) => w in q.hands
    case Skip(w) => w in q.hands
    case Drop(w) => w in q.hands
    case Reap(_) => true
    case Meanwhile(st) => Enabled(q.db, st) && Foreign(q.db, st, mailbox)
  }

  ghost predicate Addressable(t: Tables, picked: set<Id>, mailbox: Id) {
    forall r | r in picked :: r in t.rows && t.rows[r].uid.Some? && t.rows[r].mailbox == mailbox
  }

  /** The producer's byUID map. */
  ghost function ByUid(t: Tables, picked: set<Id>, mailbox: Id): (owners: map<Uid, Id>)
    requires t.UidsUnique() && Addressable(t, picked, mailbox)
  {
    map r | r in picked :: t.rows[r].uid.value := r
  }

  /** What RETURNING reports of the claimed rows. */
  ghost function NamesOf(t: Tables, picked: set<Id>, mailbox: Id): map<Id, Uid>
    requires Addressable(t, picked, mailbox)
  {
    map r | r in picked :: t.rows[r].uid.value
  }

  ghost function RecordsOf(t: Tables, picked: set<Id>, mailbox: Id): set<Record>
    requires t.Linked() && Addressable(t, picked, mailbox)
  {
    set r | r in picked :: Record(r, t.rows[r].uid.value, t.messages[t.rows[r].message].size)
  }

  /** Claims that a newer claim of the same UID pushes out of the table. */
  ghost function Overwritten(claims: map<Uid, Id>, held: map<Uid, Id>): set<Id> {
    set u | u in claims && u in held :: claims[u]
  }

  ghost function Appeared(t: Tables, t': Tables, mailbox: Id): set<Id> {
    set r | r in t'.rows && r !in t.rows && t'.rows[r].mailbox == mailbox
  }

  predicate ClaimedBefore(row: Row, cutoff: nat) {
    row.state == Fetching && row.claimedAt.Some? && row.claimedAt.value < cutoff
  }

  /** The mailbox's rows that the reaper takes back. */
  ghost function Reapable(t: Tables, mailbox: Id, cutoff: nat): set<Id> {
    set r | r in t.rows && t.rows[r].mailbox == mailbox && ClaimedBefore(t.rows[r], cutoff)
  }

  ghost function Next(q: Queue, s: Step, mailbox: Id, maxAttempts: nat): Queue
    requires CanStep(q, s, mailbox, maxAttempts)
  {
    match s
    case Claim(_, _, picked, now) =>
      q.(db := q.db.Claim(picked, now), held := ByUid(q.db, picked, mailbox), claimed := q.claimed + multiset(picked),
         names := q.names + NamesOf(q.db, picked, mailbox), records := q.records + RecordsOf(q.db, picked, mailbox))
    case Remember =>
      q.(claims := q.claims + q.held, held := map[], left := q.left - q.held.Keys,
         lost := q.lost + multiset(Overwritten(q.claims, q.held)))
    case Take(w, u) =>
      if u in q.claims then q.(claims := q.claims - {u}, hands := q.hands[w := q.claims[u]]) else q
    case Attach(w, content, lookedUp) =>
      var r := q.hands[w];
      (match q.db.Attach(r, content)
       case None => q.(hands := q.hands - {w}, lost := q.lost + multiset{r})
       case Some(db) =>
         var done := q.(db := db, hands := q.hands - {w}, settled := q.settled + multiset{r},
                        attached := q.attached + 1, bodies := q.bodies + {Body(r, content)});
         if lookedUp then done.(downloaded := q.downloaded + {r}, fetched := q.fetched + 1) else done)
    case Fail(w) =>
      q.(db := q.db.MarkFailed(q.hands[w], maxAttempts), hands := q.hands - {w},
         settled := q.settled + multiset{q.hands[w]}, failed := q.failed + 1)
    case Skip(w) =>
      q.(db := q.db.MarkTooLarge(q.hands[w]), hands := q.hands - {w}, settled := q.settled + multiset{q.hands[w]},
         skipped := q.skipped + {q.hands[w]})
    case Drop(w) => q.(hands := q.hands - {w}, lost := q.lost + multiset{q.hands[w]})
    case Reap(cutoff) => q.(db := q.db.Reap(cutoff), reaped := q.reaped + |Reapable(q.db, mailbox, cutoff)|)
    case Meanwhile(st) =>
      var db := Apply(q.db, st);
      q.(db := db, created := q.created + |Appeared(q.db, db, mailbox)|)
  }

  // ---------------------------------------------------------------- ownership

  /** No row has two owners. */
  ghost predicate Linear(q: Queue) {
    && Injective(q.held) && Injective(q.claims) && Injective(q.hands)
    && Rows(q.held) !! Rows(q.claims) && Rows(q.held) !! Rows(q.hands) && Rows(q.claims) !! Rows(q.hands)
  }

  /** A row claimed by this pass, and not taken back since. */
  predicate InFlight(row: Row, mailbox: Id, began: nat) {
    row.state == Fetching && row.mailbox == mailbox && row.claimedAt.Some? && row.claimedAt.value >= began
  }

  /** An owned row that still exists is being fetched. */
  ghost predicate OwnedAreFetching(q: Queue, mailbox: Id) {
    forall r | r in q.Owned() :: r < q.db.nextRow && (r in q.db.rows ==> InFlight(q.db.rows[r], mailbox, q.began))
  }

  /** Every claim is settled once, lost once, or still owned. */
  ghost predicate Conserved(q: Queue) {
    forall r: Id :: q.claimed[r] == q.settled[r] + q.lost[r] + if r in q.Owned() then 1 else 0
  }

  /** What counted as fetched is stored, and was counted once. */
  ghost predicate Counted(q: Queue, mailbox: Id) {
    && q.fetched == |q.downloaded| && q.downloaded !! q.Owned()
    && forall r | r in q.downloaded ::
         r < q.db.nextRow && (r in q.db.rows ==> q.db.rows[r].state == Stored && q.db.rows[r].mailbox == mailbox)
  }

  /** A row left fetching has an owner, unless an earlier pass or a failed database call
      left it so. */
  ghost predicate Accounted(q: Queue, mailbox: Id, stale: set<Id>) {
    forall r | r in q.db.rows && q.db.rows[r].mailbox == mailbox && q.db.rows[r].state == Fetching ::
      r in q.Owned() || r in q.lost || r in stale
  }

  ghost predicate Inv(q: Queue, mailbox: Id, stale: set<Id>) {
    && q.left.Keys !! q.claims.Keys
    && q.db.Constraints() && Linear(q) && OwnedAreFetching(q, mailbox) && Conserved(q) && Counted(q, mailbox)
    && Accounted(q, mailbox, stale)
  }

  /** A pass begins with nothing in anyone's hands. The table may hold anything from earlier
      passes, whether or not the reaper has taken those rows back since. */
  ghost predicate Start(q: Queue, mailbox: Id, stale: set<Id>) {
    && q.db.Constraints()
    && q == NewQueue(q.db, q.left, mailbox, q.began)
    && stale == InState(q.db, mailbox, Fetching)
  }

  ghost function InState(t: Tables, mailbox: Id, state: BodyState): set<Id> {
    set r | r in t.rows && t.rows[r].mailbox == mailbox && t.rows[r].state == state
  }

  ghost function NewQueue(t: Tables, left: map<Uid, Id>, mailbox: Id, began: nat): Queue {
    Queue(t, map[], map[], map[], left, multiset{}, multiset{}, multiset{}, 0, 0, {}, 0, {}, 0, 0,
          InState(t, mailbox, TooLarge), began, map[], {}, {})
  }

  lemma StartInv(q: Queue, mailbox: Id, stale: set<Id>)
    requires Start(q, mailbox, stale)
    ensures Inv(q, mailbox, stale)
  {
  }

  // ---------------------------------------------------------------- moving a claim

  lemma RowsOfRemoval(owners: map<nat, Id>, k: nat)
    requires Injective(owners) && k in owners
    ensures Injective(owners - {k}) && Rows(owners - {k}) == Rows(owners) - {owners[k]} && owners[k] in Rows(owners)
  {
    var rest := owners - {k};
    forall r | r in Rows(owners) - {owners[k]}
      ensures r in Rows(rest)
    {
      var j :| j in owners && owners[j] == r;
      assert rest[j] == r;
    }
  }

  lemma RowsOfAddition(owners: map<nat, Id>, k: nat, r: Id)
    requires Injective(owners) && k !in owners && r !in Rows(owners)
    ensures Injective(owners[k := r]) && Rows(owners[k := r]) == Rows(owners) + {r}
  {
    var grown := owners[k := r];
    assert forall i | i in owners :: owners[i] in Rows(owners);
    assert grown[k] in Rows(grown);
    assert forall i | i in owners :: grown[i] in Rows(grown);
  }

  lemma RowsOfMerge(claims: map<Uid, Id>, held: map<Uid, Id>)
    requires Injective(claims) && Injective(held) && Rows(claims) !! Rows(held)
    ensures Injective(claims + held)
    ensures Rows(claims + held) == Rows(claims) - Overwritten(claims, held) + Rows(held)
    ensures Overwritten(claims, held) <= Rows(claims)
  {
    var merged := claims + held;
    assert forall u | u in held :: merged[u] == held[u] && held[u] in Rows(held);
    assert forall u | u in claims && u !in held :: merged[u] == claims[u] && claims[u] in Rows(claims);
    forall r | r in Rows(claims) - Overwritten(claims, held)
      ensures r in Rows(merged)
    {
      var u :| u in claims && claims[u] == r;
      assert u !in held;
      assert merged[u] == r;
    }
  }

  lemma RowsOfPicked(t: Tables, picked: set<Id>, mailbox: Id)
    requires t.UidsUnique() && Addressable(t, picked, mailbox)
    ensures Injective(ByUid(t, picked, mailbox)) && Rows(ByUid(t, picked, mailbox)) == picked
  {
    var owners := ByUid(t, picked, mailbox);
    forall r | r in picked
      ensures r in Rows(owners)
    {
      assert t.rows[r].uid.value in owners && owners[t.rows[r].uid.value] == r;
    }
  }

  /** Who owns what after each step; the ownership half of the invariant. */
  lemma TakeMovesOwnership(q: Queue, w: Worker, u: Uid)
    requires Linear(q) && w !in q.hands && u in q.claims
    ensures var q' := q.(claims := q.claims - {u}, hands := q.hands[w := q.claims[u]]);
            Linear(q') && q'.Owned() == q.Owned()
  {
    var r := q.claims[u];
    RowsOfRemoval(q.claims, u);
    RowsOfAddition(q.hands, w, r);
    hide Rows, Injective;
  }

  lemma SettlingReleases(q: Queue, w: Worker)
    requires Linear(q) && w in q.hands
    ensures Linear(q.(hands := q.hands - {w})) && q.(hands := q.hands - {w}).Owned() == q.Owned() - {q.hands[w]}
    ensures q.hands[w] in q.Owned()
  {
    RowsOfRemoval(q.hands, w);
    hide Rows, Injective;
  }

  lemma RememberMovesOwnership(q: Queue)
    requires Linear(q)
    ensures var q' := q.(claims := q.claims + q.held, held := map[]);
            var over := Overwritten(q.claims, q.held);
            Linear(q') && q'.Owned() == q.Owned() - over && over <= q.Owned()
  {
    RowsOfMerge(q.claims, q.held);
    assert Rows(map[]) == {} && Injective(map[]);
    hide Rows, Injective, Overwritten;
  }

  lemma ClaimAddsOwnership(q: Queue, held: map<Uid, Id>)
    requires Linear(q) && q.held == map[] && Injective(held) && Rows(held) !! q.Owned()
    ensures Linear(q.(held := held)) && q.(held := held).Owned() == q.Owned() + Rows(held)
  {
    assert Rows(q.held) == {};
    hide Rows, Injective;
  }

  // ---------------------------------------------------------------- what the tables may do meanwhile

  /** The mailbox's rows as a foreign statement leaves them: as far along as before, gone, or
      new and pending. */
  ghost predicate QueueUntouched(t: Tables, t': Tables, mailbox: Id) {
    && t.nextRow <= t'.nextRow
    && (forall r | r in t'.rows && r < t.nextRow ::
          && r in t.rows && t'.rows[r].mailbox == t.rows[r].mailbox
          && (t.rows[r].mailbox == mailbox ==>
                && t'.rows[r].state == t.rows[r].state && t'.rows[r].attempts == t.rows[r].attempts
                && t'.rows[r].claimedAt == t.rows[r].claimedAt))
    && (forall r | r in t'.rows && r >= t.nextRow ::
          r == t.nextRow && t'.rows[r].state == Pending && t'.rows[r].attempts == 0)
  }

  lemma UpsertLeavesQueue(t: Tables, m: Meta, mailbox: Id)
    requires t.Constraints() && m.mailbox in t.mailboxes
    ensures QueueUntouched(t, t.Upsert(m).0, mailbox)
  {
    UpsertEffect(t, m);
    UpsertTakesId(t, m);
  }

  lemma AttachLeavesQueue(t: Tables, r: Id, content: Content, mailbox: Id)
    requires t.Linked() && r in t.rows && t.rows[r].mailbox != mailbox && t.Attach(r, content).Some?
    ensures QueueUntouched(t, t.Attach(r, content).value, mailbox)
  {
  }

  lemma MetadataStatementsLeaveQueue(t: Tables, mailbox: Id, box: Id, uid: Uid, flags: Flags, n: nat, present: set<Uid>,
                                     c: Checkpoint)
    requires t.Linked()
    ensures QueueUntouched(t, t.UpdateFlags(box, uid, flags, n), mailbox)
    ensures QueueUntouched(t, t.DeleteMissing(box, present), mailbox)
    ensures QueueUntouched(t, t.SaveCheckpoint(box, c), mailbox)
    ensures QueueUntouched(t, t.Reset(box, n), mailbox)
  {
  }

  lemma OtherQueuesLeaveQueue(t: Tables, mailbox: Id, picked: set<Id>, now: nat, r: Id, n: int)
    requires t.Linked()
    ensures (forall i | i in picked :: i in t.rows && t.rows[i].mailbox != mailbox) ==>
              QueueUntouched(t, t.Claim(picked, now), mailbox)
    ensures (r in t.rows ==> t.rows[r].mailbox != mailbox) ==>
              QueueUntouched(t, t.MarkFailed(r, n), mailbox) && QueueUntouched(t, t.MarkTooLarge(r), mailbox)
  {
  }

  lemma ForeignLeavesQueue(t: Tables, s: Statement, mailbox: Id)
    requires t.Constraints() && Enabled(t, s) && Foreign(t, s, mailbox)
    ensures QueueUntouched(t, Apply(t, s), mailbox)
  {
    assert QueueUntouched(t, t, mailbox);
    var c := Checkpoint(0, 0, 0, 0, false);
    hide QueueUntouched, Tables.Upsert, Tables.Attach, Tables.Claim, Tables.MarkFailed, Tables.MarkTooLarge;
    match s
    case DoUpsert(m) => UpsertLeavesQueue(t, m, mailbox);
    case DoAttach(r, content) =>
      if t.Attach(r, content).Some? {
        AttachLeavesQueue(t, r, content, mailbox);
      }
    case DoUpdateFlags(box, uid, flags, n) => MetadataStatementsLeaveQueue(t, mailbox, box, uid, flags, n, {}, c);
    case DoDeleteMissing(box, present) => MetadataStatementsLeaveQueue(t, mailbox, box, 0, {}, 0, present, c);
    case DoCheckpoint(box, c') => MetadataStatementsLeaveQueue(t, mailbox, box, 0, {}, 0, {}, c');
    case DoReset(box, v) => MetadataStatementsLeaveQueue(t, mailbox, box, 0, {}, v, {}, c);
    case DoClaim(_, _, _, _, picked, now) => OtherQueuesLeaveQueue(t, mailbox, picked, now, 0, 0);
    case DoMarkFailed(r, n) => OtherQueuesLeaveQueue(t, mailbox, {}, 0, r, n);
    case DoMarkTooLarge(r) => OtherQueuesLeaveQueue(t, mailbox, {}, 0, r, 0);
  }

  // ---------------------------------------------------------------- the invariant holds

  lemma MeanwhileKeepsInv(q: Queue, db: Tables, created: nat, mailbox: Id, stale: set<Id>)
    requires Inv(q, mailbox, stale) && db.Constraints() && QueueUntouched(q.db, db, mailbox)
    ensures Inv(q.(db := db, created := created), mailbox, stale)
  {
    var q' := q.(db := db, created := created);
    assert q'.Owned() == q.Owned();
    hide Tables.Constraints, Queue.Owned, Rows;
  }

  lemma ReleasingConserves(q: Queue, q': Queue, gone: set<Id>)
    requires Conserved(q) && gone <= q.Owned() && q'.Owned() == q.Owned() - gone && q'.claimed == q.claimed
    requires || (q'.settled == q.settled + multiset(gone) && q'.lost == q.lost)
             || (q'.settled == q.settled && q'.lost == q.lost + multiset(gone))
    ensures Conserved(q')
  {
    hide Queue.Owned;
  }

  lemma ClaimingConserves(q: Queue, q': Queue, picked: set<Id>)
    requires Conserved(q) && picked !! q.Owned() && q'.Owned() == q.Owned() + picked
    requires q'.claimed == q.claimed + multiset(picked) && q'.settled == q.settled && q'.lost == q.lost
    ensures Conserved(q')
  {
    hide Queue.Owned;
  }

  /** Only the download state of some rows changes, and to this. */
  ghost predicate StatesBecome(t: Tables, t': Tables, touched: set<Id>, state: BodyState) {
    && t'.nextRow == t.nextRow && t'.rows.Keys == t.rows.Keys
    && forall r | r in t.rows ::
         && t'.rows[r].mailbox == t.rows[r].mailbox
         && t'.rows[r].state == (if r in touched then state else t.rows[r].state)
         && (r !in touched ==> t'.rows[r].claimedAt == t.rows[r].claimedAt)
  }

  ghost predicate StampedSince(t: Tables, rows: set<Id>, began: nat) {
    forall r | r in rows && r in t.rows :: t.rows[r].claimedAt.Some? && t.rows[r].claimedAt.value >= began
  }

  /** Rows nobody has begun to fetch. */
  ghost predicate Untouched(t: Tables, picked: set<Id>, mailbox: Id) {
    forall r | r in picked :: r in t.rows && r < t.nextRow && t.rows[r].mailbox == mailbox && t.rows[r].state == Pending
  }

  lemma ClaimedOwnership(q: Queue, db: Tables, held: map<Uid, Id>, mailbox: Id)
    requires Linear(q) && OwnedAreFetching(q, mailbox) && Conserved(q) && Untouched(q.db, Rows(held), mailbox)
    requires q.held == map[] && Injective(held)
    ensures var q' := q.(db := db, held := held, claimed := q.claimed + multiset(Rows(held)));
            Linear(q') && Conserved(q') && q'.Owned() == q.Owned() + Rows(held)
  {
    var q' := q.(db := db, held := held, claimed := q.claimed + multiset(Rows(held)));
    assert Rows(held) !! q.Owned();
    ClaimAddsOwnership(q, held);
    assert q'.Owned() == q.(held := held).Owned();
    ClaimingConserves(q, q', Rows(held));
    hide Queue.Owned, Rows, Injective, Conserved;
  }

  lemma ClaimedInv(q: Queue, db: Tables, held: map<Uid, Id>, mailbox: Id, stale: set<Id>)
    requires Inv(q, mailbox, stale) && db.Constraints() && StatesBecome(q.db, db, Rows(held), Fetching)
    requires q.held == map[] && Injective(held) && Untouched(q.db, Rows(held), mailbox)
    requires StampedSince(db, Rows(held), q.began)
    ensures Inv(q.(db := db, held := held, claimed := q.claimed + multiset(Rows(held))), mailbox, stale)
  {
    hide Tables.Constraints, Queue.Owned, Rows, Injective, Conserved, Linear;
    ClaimedOwnership(q, db, held, mailbox);
    assert Rows(held) !! q.downloaded;
  }

  lemma ClaimableAreUntouched(t: Tables, picked: set<Id>, limit: nat, locked: set<Id>, mailbox: Id, maxAttempts: nat,
                              now: nat)
    requires t.Linked() && t.ClaimChoice(picked, mailbox, limit, maxAttempts, locked)
    ensures Untouched(t, picked, mailbox) && Addressable(t, picked, mailbox)
    ensures StatesBecome(t, t.Claim(picked, now), picked, Fetching) && StampedSince(t.Claim(picked, now), picked, now)
  {
  }

  lemma ClaimKeepsInv(q: Queue, picked: set<Id>, now: nat, limit: nat, locked: set<Id>, mailbox: Id, maxAttempts: nat,
                      stale: set<Id>)
    requires Inv(q, mailbox, stale) && q.held == map[] && q.db.ClaimChoice(picked, mailbox, limit, maxAttempts, locked)
    requires q.db.Claim(picked, now).Constraints() && now >= q.began
    ensures Inv(Next(q, Claim(limit, locked, picked, now), mailbox, maxAttempts), mailbox, stale)
  {
    ClaimableAreUntouched(q.db, picked, limit, locked, mailbox, maxAttempts, now);
    assert StampedSince(q.db.Claim(picked, now), picked, q.began);
    hide Untouched, Addressable, StatesBecome, StampedSince, Tables.ClaimChoice, Tables.Claim;
    RowsOfPicked(q.db, picked, mailbox);
    hide Inv, ByUid, Tables.Constraints;
    var held := ByUid(q.db, picked, mailbox);
    ClaimedInv(q, q.db.Claim(picked, now), held, mailbox, stale);
    CountingKeepsInv(q.(db := q.db.Claim(picked, now), held := held, claimed := q.claimed + multiset(picked)),
                     Next(q, Claim(limit, locked, picked, now), mailbox, maxAttempts), mailbox, stale);
  }

  lemma RememberKeepsInv(q: Queue, mailbox: Id, stale: set<Id>)
    requires Inv(q, mailbox, stale)
    ensures var over := Overwritten(q.claims, q.held);
            Inv(q.(claims := q.claims + q.held, held := map[], left := q.left - q.held.Keys,
                   lost := q.lost + multiset(over)), mailbox, stale)
  {
    var over := Overwritten(q.claims, q.held);
    var q' := q.(claims := q.claims + q.held, held := map[], left := q.left - q.held.Keys,
                 lost := q.lost + multiset(over));
    RememberMovesOwnership(q);
    assert q'.Owned() == q.(claims := q.claims + q.held, held := map[]).Owned();
    ReleasingConserves(q, q', over);
    hide Tables.Constraints, Queue.Owned, Rows, Injective, Overwritten, Conserved;
  }

  lemma TakeKeepsInv(q: Queue, w: Worker, u: Uid, mailbox: Id, stale: set<Id>)
    requires Inv(q, mailbox, stale) && w !in q.hands && u in q.claims
    ensures Inv(q.(claims := q.claims - {u}, hands := q.hands[w := q.claims[u]]), mailbox, stale)
  {
    var q' := q.(claims := q.claims - {u}, hands := q.hands[w := q.claims[u]]);
    TakeMovesOwnership(q, w, u);
    hide Tables.Constraints, Queue.Owned, Rows, Injective;
    assert Counted(q', mailbox) && Conserved(q');
  }

  /** A worker lets go of its row without the row moving on. */
  lemma DropKeepsInv(q: Queue, w: Worker, mailbox: Id, stale: set<Id>)
    requires Inv(q, mailbox, stale) && w in q.hands
    ensures Inv(q.(hands := q.hands - {w}, lost := q.lost + multiset{q.hands[w]}), mailbox, stale)
  {
    var r := q.hands[w];
    var q' := q.(hands := q.hands - {w}, lost := q.lost + multiset{r});
    SettlingReleases(q, w);
    assert q'.Owned() == q.(hands := q.hands - {w}).Owned();
    assert multiset({r}) == multiset{r};
    ReleasingConserves(q, q', {r});
    hide Tables.Constraints, Queue.Owned, Rows, Injective, Conserved;
  }

  /** A worker's row moves on, if it still exists. */
  lemma SettleKeepsInv(q: Queue, w: Worker, db: Tables, state: BodyState, mailbox: Id, stale: set<Id>)
    requires Inv(q, mailbox, stale) && w in q.hands && state != Fetching
    requires db.Constraints() && StatesBecome(q.db, db, {q.hands[w]}, state)
    ensures Inv(q.(db := db, hands := q.hands - {w}, settled := q.settled + multiset{q.hands[w]}), mailbox, stale)
  {
    var r := q.hands[w];
    var q' := q.(db := db, hands := q.hands - {w}, settled := q.settled + multiset{r});
    SettlingReleases(q, w);
    assert q'.Owned() == q.(hands := q.hands - {w}).Owned();
    assert multiset({r}) == multiset{r};
    ReleasingConserves(q, q', {r});
    hide Tables.Constraints, Queue.Owned, Rows, Injective, Conserved;
    assert OwnedAreFetching(q', mailbox) && Accounted(q', mailbox, stale);
  }

  /** A row settled as stored is counted. */
  lemma StoreKeepsInv(q: Queue, w: Worker, db: Tables, mailbox: Id, stale: set<Id>)
    requires Inv(q, mailbox, stale) && w in q.hands
    requires db.Constraints() && StatesBecome(q.db, db, {q.hands[w]}, Stored)
    ensures var q' := q.(db := db, hands := q.hands - {w}, settled := q.settled + multiset{q.hands[w]});
            Inv(q'.(downloaded := q.downloaded + {q.hands[w]}, fetched := q.fetched + 1), mailbox, stale)
  {
    var r := q.hands[w];
    var q' := q.(db := db, hands := q.hands - {w}, settled := q.settled + multiset{r});
    SettleKeepsInv(q, w, db, Stored, mailbox, stale);
    SettlingReleases(q, w);
    assert r !in q.downloaded && r !in q'.Owned();
    var q'' := q'.(downloaded := q.downloaded + {r}, fetched := q.fetched + 1);
    assert q''.Owned() == q'.Owned();
    hide Tables.Constraints, Queue.Owned, Rows, Injective, Linear;
    assert Conserved(q'') && Counted(q'', mailbox);
  }

  /** No row in anyone's hands was claimed before the cutoff. */
  ghost predicate Spared(q: Queue, cutoff: nat) {
    forall r | r in q.Owned() && r in q.db.rows :: !ClaimedBefore(q.db.rows[r], cutoff)
  }

  lemma ReapKeepsConstraints(t: Tables, cutoff: nat)
    requires t.Constraints()
    ensures t.Reap(cutoff).Constraints()
  {
    ConstraintsHold(t, DoReap(cutoff));
  }

  /** The reaper does no harm exactly when it takes nothing out of anyone's hands. */
  lemma ReapKeepsInvIff(q: Queue, cutoff: nat, reaped: nat, mailbox: Id, stale: set<Id>)
    requires Inv(q, mailbox, stale)
    ensures Inv(q.(db := q.db.Reap(cutoff), reaped := reaped), mailbox, stale) <==> Spared(q, cutoff)
  {
    var q' := q.(db := q.db.Reap(cutoff), reaped := reaped);
    hide Tables.Constraints, Queue.Owned, Rows, Conserved, Linear, Injective, Counted, Accounted, OwnedAreFetching,
         Spared;
    ReapKeepsConstraints(q.db, cutoff);
    SameOwners(q, q');
    ReapKeepsCounts(q, q', cutoff, mailbox, stale);
    ReapSparesOwnersIff(q, q', cutoff, mailbox);
  }

  lemma SameOwners(q: Queue, q': Queue)
    requires q'.held == q.held && q'.claims == q.claims && q'.hands == q.hands
    requires q'.claimed == q.claimed && q'.settled == q.settled && q'.lost == q.lost
    ensures q'.Owned() == q.Owned()
    ensures (Linear(q) ==> Linear(q')) && (Conserved(q) ==> Conserved(q'))
  {
  }

  lemma ReapKeepsCounts(q: Queue, q': Queue, cutoff: nat, mailbox: Id, stale: set<Id>)
    requires Counted(q, mailbox) && Accounted(q, mailbox, stale) && q'.Owned() == q.Owned()
    requires q' == q.(db := q.db.Reap(cutoff), reaped := q'.reaped)
    ensures Counted(q', mailbox) && Accounted(q', mailbox, stale)
  {
    hide Queue.Owned;
  }

  lemma ReapSparesOwnersIff(q: Queue, q': Queue, cutoff: nat, mailbox: Id)
    requires OwnedAreFetching(q, mailbox) && q'.Owned() == q.Owned() && q'.db == q.db.Reap(cutoff)
    requires q'.began == q.began
    ensures OwnedAreFetching(q', mailbox) <==> Spared(q, cutoff)
  {
    hide Queue.Owned;
    if OwnedAreFetching(q', mailbox) {
      forall r | r in q.Owned() && r in q.db.rows
        ensures !ClaimedBefore(q.db.rows[r], cutoff)
      {
        assert r in q'.Owned() && r in q'.db.rows;
      }
    }
  }

  lemma MarksChangeOneState(t: Tables, r: Id, content: Content, n: nat)
    requires t.Linked()
    ensures t.Attach(r, content).Some? ==> StatesBecome(t, t.Attach(r, content).value, {r}, Stored)
    ensures StatesBecome(t, t.MarkTooLarge(r), {r}, TooLarge)
    ensures StatesBecome(t, t.MarkFailed(r, n), {r},
                         if r in t.rows && t.rows[r].attempts + 1 >= n then Failed else Pending)
  {
  }

  lemma AttachKeepsInv(q: Queue, w: Worker, content: Content, lookedUp: bool, mailbox: Id, maxAttempts: nat,
                       stale: set<Id>)
    requires Inv(q, mailbox, stale) && w in q.hands && q.db.Attach(q.hands[w], content).Some? && q.db.Constraints()
    ensures Inv(Next(q, Attach(w, content, lookedUp), mailbox, maxAttempts), mailbox, stale)
  {
    hide Inv, Tables.Attach, StatesBecome, Tables.DigestsUnique, Tables.UidsUnique, Tables.Linked;
    var r, db := q.hands[w], q.db.Attach(q.hands[w], content).value;
    var settled := q.(db := db, hands := q.hands - {w}, settled := q.settled + multiset{r});
    ConstraintsHold(q.db, DoAttach(r, content));
    MarksChangeOneState(q.db, r, content, maxAttempts);
    SettleKeepsInv(q, w, db, Stored, mailbox, stale);
    StoreKeepsInv(q, w, db, mailbox, stale);
    var counted := if lookedUp then settled.(downloaded := q.downloaded + {r}, fetched := q.fetched + 1) else settled;
    CountingKeepsInv(counted, Next(q, Attach(w, content, lookedUp), mailbox, maxAttempts), mailbox, stale);
  }

  lemma FailKeepsInv(q: Queue, w: Worker, mailbox: Id, maxAttempts: nat, stale: set<Id>)
    requires Inv(q, mailbox, stale) && w in q.hands && q.db.Constraints()
    ensures Inv(Next(q, Fail(w), mailbox, maxAttempts), mailbox, stale)
  {
    hide Inv, Tables.MarkFailed, StatesBecome, Tables.DigestsUnique, Tables.UidsUnique, Tables.Linked;
    var r, db := q.hands[w], q.db.MarkFailed(q.hands[w], maxAttempts);
    ConstraintsHold(q.db, DoMarkFailed(r, maxAttempts));
    MarksChangeOneState(q.db, r, "", maxAttempts);
    SettleKeepsInv(q, w, db, if r in q.db.rows && q.db.rows[r].attempts + 1 >= maxAttempts then Failed else Pending,
                   mailbox, stale);
    CountingKeepsInv(q.(db := db, hands := q.hands - {w}, settled := q.settled + multiset{r}),
                     Next(q, Fail(w), mailbox, maxAttempts), mailbox, stale);
  }

  lemma SkipKeepsInv(q: Queue, w: Worker, mailbox: Id, maxAttempts: nat, stale: set<Id>)
    requires Inv(q, mailbox, stale) && w in q.hands && q.db.Constraints()
    ensures Inv(Next(q, Skip(w), mailbox, maxAttempts), mailbox, stale)
  {
    hide Inv, Tables.MarkTooLarge, StatesBecome, Tables.DigestsUnique, Tables.UidsUnique, Tables.Linked;
    var r, db := q.hands[w], q.db.MarkTooLarge(q.hands[w]);
    ConstraintsHold(q.db, DoMarkTooLarge(r));
    MarksChangeOneState(q.db, r, "", maxAttempts);
    SettleKeepsInv(q, w, db, TooLarge, mailbox, stale);
    CountingKeepsInv(q.(db := db, hands := q.hands - {w}, settled := q.settled + multiset{r}),
                     Next(q, Skip(w), mailbox, maxAttempts), mailbox, stale);
  }

  lemma StepKeepsInv(q: Queue, s: Step, mailbox: Id, maxAttempts: nat, stale: set<Id>)
    requires Inv(q, mailbox, stale) && CanStep(q, s, mailbox, maxAttempts) && (s.Reap? ==> Spared(q, s.cutoff))
    ensures Inv(Next(q, s, mailbox, maxAttempts), mailbox, stale)
  {
    hide Inv, Spared, Tables.Attach, Tables.MarkFailed, Tables.MarkTooLarge, StatesBecome;
    match s
    case Claim(limit, locked, picked, now) =>
      ConstraintsHold(q.db, DoClaim(mailbox, limit, maxAttempts, locked, picked, now));
      ClaimKeepsInv(q, picked, now, limit, locked, mailbox, maxAttempts, stale);
    case Remember => RememberKeepsInv(q, mailbox, stale);
    case Take(w, u) =>
      if u in q.claims {
        TakeKeepsInv(q, w, u, mailbox, stale);
      }
    case Attach(w, content, lookedUp) =>
      if q.db.Attach(q.hands[w], content).None? {
        DropKeepsInv(q, w, mailbox, stale);
      } else {
        AttachKeepsInv(q, w, content, lookedUp, mailbox, maxAttempts, stale);
      }
    case Fail(w) => FailKeepsInv(q, w, mailbox, maxAttempts, stale);
    case Skip(w) => SkipKeepsInv(q, w, mailbox, maxAttempts, stale);
    case Drop(w) => DropKeepsInv(q, w, mailbox, stale);
    case Reap(cutoff) => ReapKeepsInvIff(q, cutoff, Next(q, s, mailbox, maxAttempts).reaped, mailbox, stale);
    case Meanwhile(st) =>
      ConstraintsHold(q.db, st);
      ForeignLeavesQueue(q.db, st, mailbox);
      var q' := Next(q, s, mailbox, maxAttempts);
      MeanwhileKeepsInv(q, q'.db, q'.created, mailbox, stale);
  }

  /** The invariant is not about what else is written down. */
  lemma CountingKeepsInv(q: Queue, q': Queue, mailbox: Id, stale: set<Id>)
    requires Inv(q, mailbox, stale)
    requires q' == q.(attached := q'.attached, failed := q'.failed, skipped := q'.skipped, names := q'.names,
                      records := q'.records, bodies := q'.bodies)
    ensures Inv(q', mailbox, stale)
  {
    assert q'.Owned() == q.Owned();
  }

  // ---------------------------------------------------------------- what is too large

  /** A row is too large exactly if it was when the pass began or this pass has marked it. */
  ghost predicate LargeIffMarked(q: Queue, mailbox: Id) {
    && (forall r | r in q.large + q.skipped :: r < q.db.nextRow)
    && forall r | r in q.db.rows && q.db.rows[r].mailbox == mailbox ::
         q.db.rows[r].state == TooLarge <==> r in q.large + q.skipped
  }

  lemma StatesKeepLarge(q: Queue, db: Tables, touched: set<Id>, state: BodyState, mailbox: Id)
    requires LargeIffMarked(q, mailbox) && StatesBecome(q.db, db, touched, state)
    requires forall r | r in touched && r in q.db.rows :: q.db.rows[r].state != TooLarge
    ensures state != TooLarge ==> LargeIffMarked(q.(db := db), mailbox)
    ensures state == TooLarge && (forall r | r in touched :: r < q.db.nextRow) ==>
              LargeIffMarked(q.(db := db, skipped := q.skipped + touched), mailbox)
  {
  }

  lemma OthersKeepLarge(q: Queue, db: Tables, mailbox: Id)
    requires LargeIffMarked(q, mailbox) && QueueUntouched(q.db, db, mailbox)
    ensures LargeIffMarked(q.(db := db), mailbox)
  {
  }

  lemma SameMarks(q: Queue, q': Queue, mailbox: Id)
    requires LargeIffMarked(q, mailbox) && q'.db == q.db && q'.large == q.large && q'.skipped == q.skipped
    ensures LargeIffMarked(q', mailbox)
  {
  }

  ghost function Expired(t: Tables, cutoff: nat): set<Id> {
    set r | r in t.rows && ClaimedBefore(t.rows[r], cutoff)
  }

  lemma ReapingChangesStates(t: Tables, cutoff: nat)
    ensures StatesBecome(t, t.Reap(cutoff), Expired(t, cutoff), Pending)
  {
  }

  lemma HandIsFetching(q: Queue, mailbox: Id, stale: set<Id>, w: Worker)
    requires Inv(q, mailbox, stale) && w in q.hands
    ensures q.hands[w] < q.db.nextRow && (q.hands[w] in q.db.rows ==> q.db.rows[q.hands[w]].state == Fetching)
    ensures q.db.Linked()
  {
    assert q.hands[w] in q.Owned();
  }

  lemma SettlingKeepsLarge(q: Queue, s: Step, w: Worker, mailbox: Id, maxAttempts: nat, stale: set<Id>)
    requires Inv(q, mailbox, stale) && CanStep(q, s, mailbox, maxAttempts) && LargeIffMarked(q, mailbox)
    requires w in q.hands && (s == Fail(w) || s == Skip(w) || (s.Attach? && s.worker == w))
    ensures LargeIffMarked(Next(q, s, mailbox, maxAttempts), mailbox)
  {
    hide Inv, Tables.Constraints, LargeIffMarked, StatesBecome, Tables.Attach, Tables.MarkFailed, Tables.MarkTooLarge;
    var r, q' := q.hands[w], Next(q, s, mailbox, maxAttempts);
    HandIsFetching(q, mailbox, stale, w);
    SettlingChangesLarge(q, r, if s.Attach? then s.content else "", maxAttempts, mailbox);
    if s.Skip? {
      SameMarks(q.(db := q'.db, skipped := q.skipped + {r}), q', mailbox);
    } else {
      SameMarks(q.(db := q'.db), q', mailbox);
    }
  }

  lemma SettlingChangesLarge(q: Queue, r: Id, content: Content, maxAttempts: nat, mailbox: Id)
    requires LargeIffMarked(q, mailbox) && q.db.Linked() && r < q.db.nextRow
    requires r in q.db.rows ==> q.db.rows[r].state == Fetching
    ensures LargeIffMarked(q.(db := q.db.MarkTooLarge(r), skipped := q.skipped + {r}), mailbox)
    ensures LargeIffMarked(q.(db := q.db.MarkFailed(r, maxAttempts)), mailbox)
    ensures q.db.Attach(r, content).Some? ==> LargeIffMarked(q.(db := q.db.Attach(r, content).value), mailbox)
  {
    MarksChangeOneState(q.db, r, content, maxAttempts);
    hide LargeIffMarked, StatesBecome, Tables.Attach, Tables.MarkFailed, Tables.MarkTooLarge;
    StatesKeepLarge(q, q.db.MarkTooLarge(r), {r}, TooLarge, mailbox);
    StatesKeepLarge(q, q.db.MarkFailed(r, maxAttempts), {r},
                    if r in q.db.rows && q.db.rows[r].attempts + 1 >= maxAttempts then Failed else Pending, mailbox);
    if q.db.Attach(r, content).Some? {
      StatesKeepLarge(q, q.db.Attach(r, content).value, {r}, Stored, mailbox);
    }
  }

  lemma StepKeepsLarge(q: Queue, s: Step, mailbox: Id, maxAttempts: nat, stale: set<Id>)
    requires Inv(q, mailbox, stale) && CanStep(q, s, mailbox, maxAttempts) && LargeIffMarked(q, mailbox)
    ensures LargeIffMarked(Next(q, s, mailbox, maxAttempts), mailbox)
  {
    var q' := Next(q, s, mailbox, maxAttempts);
    hide Inv, Tables.Constraints, LargeIffMarked, StatesBecome, Tables.Attach, Tables.MarkFailed, Tables.MarkTooLarge,
         Tables.Claim, Tables.ClaimChoice, Tables.Reap, Apply, Enabled, Foreign, QueueUntouched, ByUid, Reapable;
    match s
    case Claim(limit, locked, picked, now) =>
      ClaimableAreUntouched(q.db, picked, limit, locked, mailbox, maxAttempts, now);
      StatesKeepLarge(q, q'.db, picked, Fetching, mailbox);
      SameMarks(q.(db := q'.db), q', mailbox);
    case Attach(w, _, _) => SettlingKeepsLarge(q, s, w, mailbox, maxAttempts, stale);
    case Fail(w) => SettlingKeepsLarge(q, s, w, mailbox, maxAttempts, stale);
    case Skip(w) => SettlingKeepsLarge(q, s, w, mailbox, maxAttempts, stale);
    case Reap(cutoff) =>
      ReapingChangesStates(q.db, cutoff);
      StatesKeepLarge(q, q'.db, Expired(q.db, cutoff), Pending, mailbox);
      SameMarks(q.(db := q'.db), q', mailbox);
    case Meanwhile(st) =>
      ForeignLeavesQueue(q.db, st, mailbox);
      OthersKeepLarge(q, q'.db, mailbox);
      SameMarks(q.(db := q'.db), q', mailbox);
    case _ => SameMarks(q, q', mailbox);
  }

  // ---------------------------------------------------------------- whole passes

  ghost predicate Pass(qs: seq<Queue>, ss: seq<Step>, mailbox: Id, maxAttempts: nat) {
    && |qs| == |ss| + 1
    && forall i | 0 <= i < |ss| :: CanStep(qs[i], ss[i], mailbox, maxAttempts)
                                   && qs[i + 1] == Next(qs[i], ss[i], mailbox, maxAttempts)
  }

  /** The reaper took nothing out of anyone's hands. */
  ghost predicate AllSpared(qs: seq<Queue>, ss: seq<Step>) {
    |qs| == |ss| + 1 && forall i | 0 <= i < |ss| && ss[i].Reap? :: Spared(qs[i], ss[i].cutoff)
  }

  /** At every moment of every such pass: no row has two owners, what is owned is being
      fetched, and each claim has been settled once, lost once, or is still owned. */
  lemma {:induction false} OwnershipIsLinear(qs: seq<Queue>, ss: seq<Step>, mailbox: Id, maxAttempts: nat,
                                             stale: set<Id>, n: nat)
    requires Pass(qs, ss, mailbox, maxAttempts) && n < |qs| && Start(qs[0], mailbox, stale) && AllSpared(qs, ss)
    ensures Inv(qs[n], mailbox, stale)
  {
    hide Inv;
    if n == 0 {
      StartInv(qs[0], mailbox, stale);
    } else {
      OwnershipIsLinear(qs, ss, mailbox, maxAttempts, stale, n - 1);
      StepKeepsInv(qs[n - 1], ss[n - 1], mailbox, maxAttempts, stale);
    }
  }

  /** What is too large was so before, or this pass has marked it, and what it has marked and
      still exists stays so. */
  lemma {:induction false} TooLargeIffMarked(qs: seq<Queue>, ss: seq<Step>, mailbox: Id, maxAttempts: nat,
                                             stale: set<Id>, n: nat)
    requires Pass(qs, ss, mailbox, maxAttempts) && n < |qs| && Start(qs[0], mailbox, stale) && AllSpared(qs, ss)
    ensures LargeIffMarked(qs[n], mailbox)
  {
    hide Inv;
    if n > 0 {
      TooLargeIffMarked(qs, ss, mailbox, maxAttempts, stale, n - 1);
      OwnershipIsLinear(qs, ss, mailbox, maxAttempts, stale, n - 1);
      hide LargeIffMarked;
      StepKeepsLarge(qs[n - 1], ss[n - 1], mailbox, maxAttempts, stale);
    }
  }

  /** The reaper takes back nothing that was claimed since the pass began: the pass does not
      outlast the age at which claims are reaped. */
  ghost predicate Timely(qs: seq<Queue>, ss: seq<Step>) {
    |qs| == |ss| + 1 && forall i | 0 <= i < |ss| && ss[i].Reap? :: ss[i].cutoff <= qs[i].began
  }

  lemma ReapedLater(q: Queue, cutoff: nat, mailbox: Id, stale: set<Id>)
    requires Inv(q, mailbox, stale) && cutoff <= q.began
    ensures Spared(q, cutoff)
  {
  }

  lemma {:induction false} TimelyKeepsInv(qs: seq<Queue>, ss: seq<Step>, mailbox: Id, maxAttempts: nat, stale: set<Id>,
                                          n: nat)
    requires Pass(qs, ss, mailbox, maxAttempts) && Start(qs[0], mailbox, stale) && Timely(qs, ss) && n < |qs|
    ensures Inv(qs[n], mailbox, stale)
  {
    hide Inv, Spared;
    if n == 0 {
      StartInv(qs[0], mailbox, stale);
    } else {
      TimelyKeepsInv(qs, ss, mailbox, maxAttempts, stale, n - 1);
      if ss[n - 1].Reap? {
        ReapedLater(qs[n - 1], ss[n - 1].cutoff, mailbox, stale);
      }
      StepKeepsInv(qs[n - 1], ss[n - 1], mailbox, maxAttempts, stale);
    }
  }

  /** Then it takes nothing out of anyone's hands. */
  lemma TimelyPassIsSpared(qs: seq<Queue>, ss: seq<Step>, mailbox: Id, maxAttempts: nat, stale: set<Id>)
    requires Pass(qs, ss, mailbox, maxAttempts) && Start(qs[0], mailbox, stale) && Timely(qs, ss)
    ensures AllSpared(qs, ss)
  {
    hide Inv, Spared, Start, CanStep, Next;
    forall i | 0 <= i < |ss| && ss[i].Reap?
      ensures Spared(qs[i], ss[i].cutoff)
    {
      TimelyKeepsInv(qs, ss, mailbox, maxAttempts, stale, i);
      ReapedLater(qs[i], ss[i].cutoff, mailbox, stale);
    }
  }

  /** Stored now, or deleted for good: row ids are not issued twice. */
  predicate StoredOrGone(q: Queue, r: Id, mailbox: Id) {
    r < q.db.nextRow && (r in q.db.rows ==> q.db.rows[r].state == Stored && q.db.rows[r].mailbox == mailbox)
  }

  lemma StepKeepsStored(q: Queue, s: Step, mailbox: Id, maxAttempts: nat, stale: set<Id>, r: Id)
    requires Inv(q, mailbox, stale) && CanStep(q, s, mailbox, maxAttempts) && StoredOrGone(q, r, mailbox)
    ensures StoredOrGone(Next(q, s, mailbox, maxAttempts), r, mailbox)
  {
    assert r in q.Owned() ==> r !in q.db.rows;
    hide Inv, Tables.Constraints;
    match s
    case Claim(limit, locked, picked, now) => assert r !in picked;
    case Reap(cutoff) => assert r in q.db.rows ==> !ClaimedBefore(q.db.rows[r], cutoff);
    case Meanwhile(st) =>
      ForeignLeavesQueue(q.db, st, mailbox);
      hide Apply, Foreign, Enabled;
    case Attach(w, content, _) => SettlingOther(q, w, content, maxAttempts, r);
    case Fail(w) => SettlingOther(q, w, "", maxAttempts, r);
    case Skip(w) => SettlingOther(q, w, "", maxAttempts, r);
    case _ =>
  }

  lemma SettlingOther(q: Queue, w: Worker, content: Content, maxAttempts: nat, r: Id)
    requires q.db.Linked() && w in q.hands && (r in q.Owned() ==> r !in q.db.rows)
    ensures var t := q.db;
            var i := q.hands[w];
            && (t.Attach(i, content).Some? ==> SameRow(t, t.Attach(i, content).value, r))
            && SameRow(t, t.MarkFailed(i, maxAttempts), r) && SameRow(t, t.MarkTooLarge(i), r)
  {
    assert q.hands[w] in q.Owned();
  }

  predicate SameRow(t: Tables, t': Tables, r: Id) {
    t'.nextRow == t.nextRow && (r in t'.rows <==> r in t.rows) && (r in t.rows ==> t'.rows[r] == t.rows[r])
  }

  /** A stored row never leaves stored, whatever else the pass does. */
  lemma {:induction false} StoredStaysStored(qs: seq<Queue>, ss: seq<Step>, mailbox: Id, maxAttempts: nat,
                                             stale: set<Id>, i: nat, j: nat, r: Id)
    requires Pass(qs, ss, mailbox, maxAttempts) && i <= j < |qs| && Start(qs[0], mailbox, stale) && AllSpared(qs, ss)
    requires r in qs[i].db.rows && qs[i].db.rows[r].state == Stored && qs[i].db.rows[r].mailbox == mailbox
    ensures StoredOrGone(qs[j], r, mailbox)
    decreases j
  {
    OwnershipIsLinear(qs, ss, mailbox, maxAttempts, stale, i);
    if i < j {
      StoredStaysStored(qs, ss, mailbox, maxAttempts, stale, i, j - 1, r);
      OwnershipIsLinear(qs, ss, mailbox, maxAttempts, stale, j - 1);
      hide StoredOrGone, Inv;
      StepKeepsStored(qs[j - 1], ss[j - 1], mailbox, maxAttempts, stale, r);
    }
  }


  // ---------------------------------------------------------------- how often the queue claims

  /** How many more times a row can be claimed. */
  function Room(row: Row, maxAttempts: nat): nat {
    if row.attempts >= maxAttempts then 0
    else match row.state
         case Pending => maxAttempts - row.attempts
         case Fetching => maxAttempts - row.attempts - 1
         case _ => 0
  }

  ghost function Budget(rows: map<Id, Row>, maxAttempts: nat): nat
    decreases |rows|
  {
    if rows == map[] then 0
    else
      var r :| r in rows;
      Room(rows[r], maxAttempts) + Budget(rows - {r}, maxAttempts)
  }

  ghost function Mine(t: Tables, mailbox: Id): map<Id, Row> {
    map r | r in t.rows && t.rows[r].mailbox == mailbox :: t.rows[r]
  }

  lemma {:induction false} BudgetWithout(rows: map<Id, Row>, r: Id, maxAttempts: nat)
    requires r in rows
    ensures Budget(rows, maxAttempts) == Room(rows[r], maxAttempts) + Budget(rows - {r}, maxAttempts)
    decreases |rows|
  {
    var first :| first in rows
                 && Budget(rows, maxAttempts) == Room(rows[first], maxAttempts) + Budget(rows - {first}, maxAttempts);
    if first != r {
      BudgetWithout(rows - {first}, r, maxAttempts);
      BudgetWithout(rows - {r}, first, maxAttempts);
      assert rows - {first} - {r} == rows - {r} - {first};
    }
  }

  /** A row in bonus may gain one claim's room, a picked row loses one, and no other gains any. */
  ghost predicate Spends(rows: map<Id, Row>, rows': map<Id, Row>, picked: set<Id>, bonus: set<Id>, maxAttempts: nat) {
    && picked <= rows'.Keys <= rows.Keys && bonus <= rows.Keys
    && forall r | r in rows' ::
         Room(rows'[r], maxAttempts) + One(r in picked) <= Room(rows[r], maxAttempts) + One(r in bonus)
  }

  function One(b: bool): nat {
    if b then 1 else 0
  }

  lemma SizeWithout(s: set<Id>, r: Id)
    ensures |s| == |s - {r}| + One(r in s)
  {
    if r in s {
      assert s == s - {r} + {r};
    } else {
      assert s == s - {r};
    }
  }

  lemma SpendsWithout(rows: map<Id, Row>, rows': map<Id, Row>, picked: set<Id>, bonus: set<Id>, maxAttempts: nat, r: Id)
    requires Spends(rows, rows', picked, bonus, maxAttempts)
    ensures Spends(rows - {r}, rows' - {r}, picked - {r}, bonus - {r}, maxAttempts)
  {
  }

  /** What one row contributes to both sides. */
  lemma BudgetOfOne(rows: map<Id, Row>, rows': map<Id, Row>, picked: set<Id>, bonus: set<Id>, maxAttempts: nat, r: Id)
    requires Spends(rows, rows', picked, bonus, maxAttempts) && r in rows
    ensures Budget(rows, maxAttempts) == Room(rows[r], maxAttempts) + Budget(rows - {r}, maxAttempts)
    ensures Budget(rows', maxAttempts) + One(r in picked)
            <= Budget(rows' - {r}, maxAttempts) + Room(rows[r], maxAttempts) + One(r in bonus)
  {
    BudgetWithout(rows, r, maxAttempts);
    if r in rows' {
      BudgetWithout(rows', r, maxAttempts);
    } else {
      assert rows' - {r} == rows';
    }
    hide Budget, Room;
  }

  lemma {:induction false} BudgetShifts(rows: map<Id, Row>, rows': map<Id, Row>, picked: set<Id>, bonus: set<Id>,
                                        maxAttempts: nat)
    requires Spends(rows, rows', picked, bonus, maxAttempts)
    ensures Budget(rows', maxAttempts) + |picked| <= Budget(rows, maxAttempts) + |bonus|
    decreases |rows|
  {
    if rows == map[] {
      assert rows' == map[] && picked == {};
    } else {
      var r :| r in rows;
      SpendsWithout(rows, rows', picked, bonus, maxAttempts, r);
      BudgetOfOne(rows, rows', picked, bonus, maxAttempts, r);
      SizeWithout(picked, r);
      SizeWithout(bonus, r);
      assert |rows - {r}| < |rows|;
      hide Spends, Budget, Room, One;
      BudgetShifts(rows - {r}, rows' - {r}, picked - {r}, bonus - {r}, maxAttempts);
    }
  }

  /** Claims made so far, against what the rows had room for at the start and what the
      metadata pass has added and the reaper has given back since. */
  ghost predicate WithinBudget(q: Queue, mailbox: Id, maxAttempts: nat, start: nat) {
    |q.claimed| + Budget(Mine(q.db, mailbox), maxAttempts) <= start + maxAttempts * q.created + q.reaped
  }

  lemma AttachingSpendsNothing(t: Tables, r: Id, content: Content, mailbox: Id, maxAttempts: nat)
    requires t.Linked() && t.Attach(r, content).Some?
    ensures Spends(Mine(t, mailbox), Mine(t.Attach(r, content).value, mailbox), {}, {}, maxAttempts)
  {
  }

  /** A failed download costs an attempt, and a claim has already paid for it. */
  lemma MarkingSpendsNothing(t: Tables, r: Id, mailbox: Id, maxAttempts: nat)
    requires r in t.rows ==> t.rows[r].state == Fetching
    ensures Spends(Mine(t, mailbox), Mine(t.MarkFailed(r, maxAttempts), mailbox), {}, {}, maxAttempts)
    ensures Spends(Mine(t, mailbox), Mine(t.MarkTooLarge(r), mailbox), {}, {}, maxAttempts)
  {
  }

  lemma ClaimingSpends(t: Tables, picked: set<Id>, now: nat, limit: nat, locked: set<Id>, mailbox: Id, maxAttempts: nat)
    requires t.ClaimChoice(picked, mailbox, limit, maxAttempts, locked)
    ensures Spends(Mine(t, mailbox), Mine(t.Claim(picked, now), mailbox), picked, {}, maxAttempts)
  {
  }

  lemma ArrivalsAddRoom(t: Tables, t': Tables, mailbox: Id, maxAttempts: nat)
    requires t.Linked() && QueueUntouched(t, t', mailbox)
    ensures Budget(Mine(t', mailbox), maxAttempts)
            <= Budget(Mine(t, mailbox), maxAttempts) + maxAttempts * |Appeared(t, t', mailbox)|
  {
    var mine, mine', n := Mine(t, mailbox), Mine(t', mailbox), t.nextRow;
    ArrivalIsOne(t, t', mailbox);
    ArrivalsSpendNothing(t, t', mailbox, maxAttempts);
    hide QueueUntouched, Mine, Spends, Room, Budget;
    BudgetShifts(mine, mine' - {n}, {}, {}, maxAttempts);
    if n in mine' {
      BudgetWithout(mine', n, maxAttempts);
      RoomIsLimited(mine'[n], maxAttempts);
    } else {
      assert mine' - {n} == mine';
    }
  }

  lemma RoomIsLimited(row: Row, maxAttempts: nat)
    ensures Room(row, maxAttempts) <= maxAttempts
  {
  }

  lemma ArrivalIsOne(t: Tables, t': Tables, mailbox: Id)
    requires t.Linked() && QueueUntouched(t, t', mailbox)
    ensures |Appeared(t, t', mailbox)| == One(t.nextRow in Mine(t', mailbox))
  {
    var n := t.nextRow;
    if n in Mine(t', mailbox) {
      assert Appeared(t, t', mailbox) == {n};
    } else {
      assert Appeared(t, t', mailbox) == {};
    }
  }

  lemma ArrivalsSpendNothing(t: Tables, t': Tables, mailbox: Id, maxAttempts: nat)
    requires t.Linked() && QueueUntouched(t, t', mailbox)
    ensures Spends(Mine(t, mailbox), Mine(t', mailbox) - {t.nextRow}, {}, {}, maxAttempts)
  {
  }

  lemma SpendingStaysWithin(q: Queue, q': Queue, picked: set<Id>, mailbox: Id, maxAttempts: nat, start: nat)
    requires WithinBudget(q, mailbox, maxAttempts, start) && q'.created == q.created && q'.reaped == q.reaped
    requires Spends(Mine(q.db, mailbox), Mine(q'.db, mailbox), picked, {}, maxAttempts)
    requires |q'.claimed| == |q.claimed| + |picked|
    ensures WithinBudget(q', mailbox, maxAttempts, start)
  {
    BudgetShifts(Mine(q.db, mailbox), Mine(q'.db, mailbox), picked, {}, maxAttempts);
  }

  /** A reaped row may be claimed once more. */
  lemma ReapingStaysWithin(q: Queue, cutoff: nat, mailbox: Id, maxAttempts: nat, start: nat)
    requires WithinBudget(q, mailbox, maxAttempts, start)
    ensures WithinBudget(q.(db := q.db.Reap(cutoff), reaped := q.reaped + |Reapable(q.db, mailbox, cutoff)|),
                         mailbox, maxAttempts, start)
  {
    var mine, mine' := Mine(q.db, mailbox), Mine(q.db.Reap(cutoff), mailbox);
    assert Spends(mine, mine', {}, Reapable(q.db, mailbox, cutoff), maxAttempts);
    BudgetShifts(mine, mine', {}, Reapable(q.db, mailbox, cutoff), maxAttempts);
  }

  lemma ArrivalsStayWithin(q: Queue, db: Tables, mailbox: Id, maxAttempts: nat, start: nat)
    requires WithinBudget(q, mailbox, maxAttempts, start) && q.db.Linked() && QueueUntouched(q.db, db, mailbox)
    ensures WithinBudget(q.(db := db, created := q.created + |Appeared(q.db, db, mailbox)|), mailbox, maxAttempts,
                         start)
  {
    ArrivalsAddRoom(q.db, db, mailbox, maxAttempts);
    Distribute(maxAttempts, q.created, |Appeared(q.db, db, mailbox)|);
    hide Budget, Mine, QueueUntouched, Appeared;
  }

  lemma Distribute(a: nat, b: nat, c: nat)
    ensures a * (b + c) == a * b + a * c
  {
  }

  lemma SpendsReflexive(rows: map<Id, Row>, maxAttempts: nat)
    ensures Spends(rows, rows, {}, {}, maxAttempts)
  {
  }

  lemma AttachStaysWithin(q: Queue, s: Step, mailbox: Id, maxAttempts: nat, start: nat)
    requires CanStep(q, s, mailbox, maxAttempts) && WithinBudget(q, mailbox, maxAttempts, start) && s.Attach?
    ensures WithinBudget(Next(q, s, mailbox, maxAttempts), mailbox, maxAttempts, start)
  {
    hide Spends, Mine, WithinBudget, Tables.Attach, Tables.DigestsUnique, Tables.UidsUnique, Tables.Linked;
    var q', r := Next(q, s, mailbox, maxAttempts), q.hands[s.worker];
    if q.db.Attach(r, s.content).Some? {
      AttachingSpendsNothing(q.db, r, s.content, mailbox, maxAttempts);
    } else {
      SpendsReflexive(Mine(q.db, mailbox), maxAttempts);
    }
    SpendingStaysWithin(q, q', {}, mailbox, maxAttempts, start);
  }

  lemma MarkStaysWithin(q: Queue, s: Step, mailbox: Id, maxAttempts: nat, stale: set<Id>, start: nat)
    requires Inv(q, mailbox, stale) && CanStep(q, s, mailbox, maxAttempts) && (s.Fail? || s.Skip?)
    requires WithinBudget(q, mailbox, maxAttempts, start)
    ensures WithinBudget(Next(q, s, mailbox, maxAttempts), mailbox, maxAttempts, start)
  {
    hide Spends, Mine, Inv, WithinBudget, Tables.MarkFailed, Tables.MarkTooLarge, Tables.Constraints;
    HandIsFetching(q, mailbox, stale, s.worker);
    MarkingSpendsNothing(q.db, q.hands[s.worker], mailbox, maxAttempts);
    SpendingStaysWithin(q, Next(q, s, mailbox, maxAttempts), {}, mailbox, maxAttempts, start);
  }

  lemma ClaimStaysWithin(q: Queue, s: Step, mailbox: Id, maxAttempts: nat, start: nat)
    requires CanStep(q, s, mailbox, maxAttempts) && WithinBudget(q, mailbox, maxAttempts, start) && s.Claim?
    ensures WithinBudget(Next(q, s, mailbox, maxAttempts), mailbox, maxAttempts, start)
  {
    hide Spends, Mine, WithinBudget, Tables.Claim, Tables.ClaimChoice, Tables.Constraints, ByUid, Addressable;
    var q' := Next(q, s, mailbox, maxAttempts);
    ClaimingSpends(q.db, s.picked, s.now, s.limit, s.locked, mailbox, maxAttempts);
    SpendingStaysWithin(q, q', s.picked, mailbox, maxAttempts, start);
  }

  lemma MeanwhileStaysWithin(q: Queue, s: Step, mailbox: Id, maxAttempts: nat, start: nat)
    requires CanStep(q, s, mailbox, maxAttempts) && WithinBudget(q, mailbox, maxAttempts, start) && s.Meanwhile?
    ensures WithinBudget(Next(q, s, mailbox, maxAttempts), mailbox, maxAttempts, start)
  {
    hide WithinBudget, Foreign, Apply, QueueUntouched, Appeared, Enabled, Tables.DigestsUnique, Tables.UidsUnique;
    ForeignLeavesQueue(q.db, s.statement, mailbox);
    ArrivalsStayWithin(q, Next(q, s, mailbox, maxAttempts).db, mailbox, maxAttempts, start);
  }

  /** Claims only change hands. */
  lemma MovingStaysWithin(q: Queue, s: Step, mailbox: Id, maxAttempts: nat, start: nat)
    requires CanStep(q, s, mailbox, maxAttempts) && WithinBudget(q, mailbox, maxAttempts, start)
    requires s.Remember? || s.Take? || s.Drop?
    ensures WithinBudget(Next(q, s, mailbox, maxAttempts), mailbox, maxAttempts, start)
  {
    hide WithinBudget, Mine, Spends, Tables.Constraints, Overwritten;
    SpendsReflexive(Mine(q.db, mailbox), maxAttempts);
    SpendingStaysWithin(q, Next(q, s, mailbox, maxAttempts), {}, mailbox, maxAttempts, start);
  }

  lemma StepStaysWithin(q: Queue, s: Step, mailbox: Id, maxAttempts: nat, stale: set<Id>, start: nat)
    requires Inv(q, mailbox, stale) && CanStep(q, s, mailbox, maxAttempts)
    requires WithinBudget(q, mailbox, maxAttempts, start)
    ensures WithinBudget(Next(q, s, mailbox, maxAttempts), mailbox, maxAttempts, start)
  {
    hide Inv, WithinBudget, CanStep, Reapable, Tables.Reap;
    if s.Attach? {
      AttachStaysWithin(q, s, mailbox, maxAttempts, start);
    } else if s.Fail? || s.Skip? {
      MarkStaysWithin(q, s, mailbox, maxAttempts, stale, start);
    } else if s.Claim? {
      ClaimStaysWithin(q, s, mailbox, maxAttempts, start);
    } else if s.Reap? {
      ReapingStaysWithin(q, s.cutoff, mailbox, maxAttempts, start);
    } else if s.Meanwhile? {
      MeanwhileStaysWithin(q, s, mailbox, maxAttempts, start);
    } else {
      MovingStaysWithin(q, s, mailbox, maxAttempts, start);
    }
  }

  /** Downloading terminates: a pass claims no more often than the attempts that were left at
      the start, plus a full allowance for each message discovered meanwhile and one claim for
      each row reaped. With metadata finished and no reaping, that number no longer grows. */
  lemma {:induction false} ClaimsAreBounded(qs: seq<Queue>, ss: seq<Step>, mailbox: Id, maxAttempts: nat,
                                            stale: set<Id>, n: nat)
    requires Pass(qs, ss, mailbox, maxAttempts) && n < |qs| && Start(qs[0], mailbox, stale) && AllSpared(qs, ss)
    ensures |qs[n].claimed| + Budget(Mine(qs[n].db, mailbox), maxAttempts)
            <= Budget(Mine(qs[0].db, mailbox), maxAttempts) + maxAttempts * qs[n].created + qs[n].reaped
  {
    if n > 0 {
      ClaimsAreBounded(qs, ss, mailbox, maxAttempts, stale, n - 1);
      OwnershipIsLinear(qs, ss, mailbox, maxAttempts, stale, n - 1);
      hide Inv, CanStep, Next;
      StepStaysWithin(qs[n - 1], ss[n - 1], mailbox, maxAttempts, stale,
                      Budget(Mine(qs[0].db, mailbox), maxAttempts));
    }
  }
}
