/** Which message a claim is for: a row claimed under a UID is the row of that UID, from the
    claim to the body's arrival. So what a worker attaches under a UID lands on its row. */
module Delivery {
  import opened Wrappers
  import opened Tables
  import opened BodyQueue

  // ---------------------------------------------------------------- steps as statements

  /** A statement that changes nothing: it claims no row. */
  function Nothing(mailbox: Id): Statement {
    DoClaim(mailbox, 0, 0, {}, {}, 0)
  }

  /** What a step tells the database. */
  ghost function Told(q: Queue, s: Step, mailbox: Id, maxAttempts: nat): Statement
    requires CanStep(q, s, mailbox, maxAttempts)
  {
    match s
    case Claim(limit, locked, picked, now) => DoClaim(mailbox, limit, maxAttempts, locked, picked, now)
    case Attach(w, content, _) => DoAttach(q.hands[w], content)
    case Fail(w) => DoMarkFailed(q.hands[w], maxAttempts)
    case Skip(w) => DoMarkTooLarge(q.hands[w])
    case Reap(cutoff) => DoReap(cutoff)
    case Meanwhile(st) => st
    case _ => Nothing(mailbox)
  }

  lemma NothingChanges(t: Tables, mailbox: Id)
    requires t.Constraints()
    ensures Enabled(t, Nothing(mailbox)) && Apply(t, Nothing(mailbox)) == t
  {
    assert t.Claim({}, 0).rows == t.rows;
  }

  /** Every step is its statement. */
  lemma StepIsTold(q: Queue, s: Step, mailbox: Id, maxAttempts: nat)
    requires CanStep(q, s, mailbox, maxAttempts)
    ensures Enabled(q.db, Told(q, s, mailbox, maxAttempts))
    ensures Next(q, s, mailbox, maxAttempts).db == Apply(q.db, Told(q, s, mailbox, maxAttempts))
  {
    NothingChanges(q.db, mailbox);
    hide Tables.Constraints, Tables.ClaimChoice, Tables.Claim, Tables.Attach, Tables.MarkFailed, Tables.MarkTooLarge,
         Tables.Reap, Foreign, ByUid, NamesOf, RecordsOf, Addressable, Appeared, Reapable, Overwritten;
    match s
    case Claim(_, _, _, _) =>
    case Attach(_, _, _) =>
    case Fail(_) =>
    case Skip(_) =>
    case Reap(_) =>
    case Meanwhile(_) =>
    case _ =>
  }

  // ---------------------------------------------------------------- rows and their names

  /** Rows of the mailbox that carry these UIDs, have lost them, or are gone for good. */
  ghost predicate NamesHold(t: Tables, names: map<Id, Uid>, mailbox: Id) {
    forall r | r in names :: r < t.nextRow && (r in t.rows ==> IsNamed(t.rows[r], names[r], mailbox))
  }

  predicate IsNamed(row: Row, uid: Uid, mailbox: Id) {
    row.mailbox == mailbox && (row.uid == None || row.uid == Some(uid))
  }

  /** None has lost it. */
  ghost predicate NamesKept(t: Tables, names: map<Id, Uid>) {
    forall r | r in names && r in t.rows :: t.rows[r].uid == Some(names[r])
  }

  lemma SameUidsKeepNames(t: Tables, t': Tables, names: map<Id, Uid>, mailbox: Id)
    requires NamesHold(t, names, mailbox) && KeepsUids(t, t')
    ensures NamesHold(t', names, mailbox) && (NamesKept(t, names) ==> NamesKept(t', names))
  {
  }

  lemma StatementKeepsNames(t: Tables, s: Statement, names: map<Id, Uid>, mailbox: Id)
    requires t.Constraints() && Enabled(t, s) && NamesHold(t, names, mailbox)
    ensures NamesHold(Apply(t, s), names, mailbox)
    ensures NamesKept(t, names) && !(s.DoReset? && s.mailbox == mailbox) ==> NamesKept(Apply(t, s), names)
  {
    hide KeepsUids, Tables.Reset, Tables.Constraints, Enabled;
    if s.DoReset? {
      ResetRenames(t, s.mailbox, s.uidValidity);
    } else {
      OnlyResetRenames(t, s);
      hide Apply;
      SameUidsKeepNames(t, Apply(t, s), names, mailbox);
    }
  }

  lemma ClaimNames(t: Tables, names: map<Id, Uid>, picked: set<Id>, mailbox: Id)
    requires t.Linked() && NamesHold(t, names, mailbox) && Addressable(t, picked, mailbox)
    ensures var more := names + NamesOf(t, picked, mailbox);
            && NamesHold(t, more, mailbox) && (NamesKept(t, names) ==> NamesKept(t, more))
            && forall r | r in names :: more[r] == names[r]
  {
  }

  /** Everyone who holds a claim holds it under the row's name, and so does everything written
      down about claims and bodies. */
  ghost predicate Filed(q: Queue) {
    && FiledUnder(q.held, q.names) && FiledUnder(q.claims, q.names)
    && (forall w | w in q.hands :: q.hands[w] in q.names)
    && (forall c | c in q.records :: c.row in q.names && q.names[c.row] == c.uid)
    && (forall r :: r in q.claimed <==> r in q.names)
    && (forall b | b in q.bodies :: b.row in q.names)
  }

  ghost predicate FiledUnder(owners: map<Uid, Id>, names: map<Id, Uid>) {
    forall u | u in owners :: owners[u] in names && names[owners[u]] == u
  }

  ghost predicate Named(q: Queue, mailbox: Id) {
    NamesHold(q.db, q.names, mailbox) && Filed(q)
  }

  lemma ClaimFiles(q: Queue, db: Tables, picked: set<Id>, mailbox: Id)
    requires q.db.Linked() && q.db.UidsUnique() && Addressable(q.db, picked, mailbox) && Filed(q)
    requires forall r | r in q.names && r in picked :: q.names[r] == q.db.rows[r].uid.value
    ensures Filed(q.(db := db, held := ByUid(q.db, picked, mailbox), claimed := q.claimed + multiset(picked),
                     names := q.names + NamesOf(q.db, picked, mailbox),
                     records := q.records + RecordsOf(q.db, picked, mailbox)))
  {
    var names := q.names + NamesOf(q.db, picked, mailbox);
    assert FiledUnder(q.claims, names);
    assert FiledUnder(ByUid(q.db, picked, mailbox), names);
  }

  /** What the other steps do to owners and records. */
  ghost predicate Moves(q: Queue, q': Queue, s: Step) {
    && q'.names == q.names && q'.records == q.records && q'.claimed == q.claimed
    && (q'.held == q.held || q'.held == map[])
    && (q'.claims == q.claims || q'.claims == q.claims + q.held || (s.Take? && q'.claims == q.claims - {s.uid}))
    && (forall w | w in q'.hands :: HandedFrom(q, q'.hands[w], w))
    && (forall b | b in q'.bodies && b !in q.bodies :: s.Attach? && s.worker in q.hands && b.row == q.hands[s.worker])
  }

  ghost predicate HandedFrom(q: Queue, r: Id, w: Worker) {
    (w in q.hands && r == q.hands[w]) || r in Rows(q.claims)
  }

  lemma AttachingMoves(q: Queue, s: Step, mailbox: Id, maxAttempts: nat)
    requires CanStep(q, s, mailbox, maxAttempts) && s.Attach?
    ensures Moves(q, Next(q, s, mailbox, maxAttempts), s)
  {
    hide Rows, Tables.Constraints, Tables.Attach;
  }

  lemma MarkingMoves(q: Queue, s: Step, mailbox: Id, maxAttempts: nat)
    requires CanStep(q, s, mailbox, maxAttempts) && (s.Fail? || s.Skip? || s.Drop?)
    ensures Moves(q, Next(q, s, mailbox, maxAttempts), s)
  {
    hide Rows, Tables.Constraints, Tables.MarkFailed, Tables.MarkTooLarge;
  }

  lemma OthersMove(q: Queue, s: Step, mailbox: Id, maxAttempts: nat)
    requires CanStep(q, s, mailbox, maxAttempts) && (s.Remember? || s.Take? || s.Reap? || s.Meanwhile?)
    ensures Moves(q, Next(q, s, mailbox, maxAttempts), s)
  {
    assert s.Take? && s.uid in q.claims ==> q.claims[s.uid] in Rows(q.claims);
    hide Rows, Tables.Constraints, Apply, Foreign, Enabled, Appeared, Reapable, Overwritten, Tables.Reap;
  }

  lemma MovingFiles(q: Queue, q': Queue, s: Step)
    requires Filed(q) && Moves(q, q', s)
    ensures Filed(q')
  {
    assert FiledUnder(q'.claims, q.names) && FiledUnder(q'.held, q.names);
    assert forall r | r in Rows(q.claims) :: r in q.names;
  }

  /** Whatever other step is taken. */
  lemma StepFiles(q: Queue, s: Step, mailbox: Id, maxAttempts: nat)
    requires CanStep(q, s, mailbox, maxAttempts) && Filed(q) && !s.Claim?
    ensures Filed(Next(q, s, mailbox, maxAttempts)) && Next(q, s, mailbox, maxAttempts).names == q.names
  {
    hide Filed, CanStep, Next;
    if s.Attach? {
      AttachingMoves(q, s, mailbox, maxAttempts);
    } else if s.Fail? || s.Skip? || s.Drop? {
      MarkingMoves(q, s, mailbox, maxAttempts);
    } else {
      OthersMove(q, s, mailbox, maxAttempts);
    }
    MovingFiles(q, Next(q, s, mailbox, maxAttempts), s);
  }

  lemma ClaimKeepsNamed(q: Queue, s: Step, mailbox: Id, maxAttempts: nat)
    requires CanStep(q, s, mailbox, maxAttempts) && Named(q, mailbox) && s.Claim?
    ensures var q' := Next(q, s, mailbox, maxAttempts);
            && Filed(q') && NamesHold(q.db, q'.names, mailbox)
            && (NamesKept(q.db, q.names) ==> NamesKept(q.db, q'.names))
            && forall r | r in q.names :: r in q'.names && q'.names[r] == q.names[r]
  {
    ClaimNames(q.db, q.names, s.picked, mailbox);
    AgreeOnPicked(q, s.picked, mailbox);
    hide Filed, NamesHold, NamesKept, Tables.DigestsUnique, Tables.UidsUnique, Tables.Linked, Tables.Claim, NamesOf,
         RecordsOf, ByUid;
    ClaimFiles(q, q.db.Claim(s.picked, s.now), s.picked, mailbox);
  }

  lemma AgreeOnPicked(q: Queue, picked: set<Id>, mailbox: Id)
    requires NamesHold(q.db, q.names, mailbox) && Addressable(q.db, picked, mailbox)
    ensures forall r | r in q.names && r in picked :: q.names[r] == q.db.rows[r].uid.value
  {
    forall r | r in q.names && r in picked
      ensures q.names[r] == q.db.rows[r].uid.value
    {
      assert IsNamed(q.db.rows[r], q.names[r], mailbox);
    }
  }

  predicate Renumbers(s: Step, mailbox: Id) {
    s.Meanwhile? && s.statement.DoReset? && s.statement.mailbox == mailbox
  }

  /** Each step keeps who is filed under what; and no row loses its name but by a renumbering of
      its mailbox. */
  lemma StepKeepsNamed(q: Queue, s: Step, mailbox: Id, maxAttempts: nat)
    requires CanStep(q, s, mailbox, maxAttempts) && Named(q, mailbox)
    ensures var q' := Next(q, s, mailbox, maxAttempts);
            && Named(q', mailbox)
            && (NamesKept(q.db, q.names) && !Renumbers(s, mailbox) ==> NamesKept(q'.db, q'.names))
            && forall r | r in q.names :: r in q'.names && q'.names[r] == q.names[r]
  {
    hide Next, NamesHold, NamesKept, Filed, Apply, Enabled, Tables.DigestsUnique, Tables.UidsUnique, Tables.Linked;
    var q' := Next(q, s, mailbox, maxAttempts);
    StepIsTold(q, s, mailbox, maxAttempts);
    if s.Claim? {
      ClaimKeepsNamed(q, s, mailbox, maxAttempts);
    } else {
      StepFiles(q, s, mailbox, maxAttempts);
    }
    StatementKeepsNames(q.db, Told(q, s, mailbox, maxAttempts), q'.names, mailbox);
  }

  lemma StartNamed(q: Queue, mailbox: Id, stale: set<Id>)
    requires Start(q, mailbox, stale)
    ensures Named(q, mailbox) && NamesKept(q.db, q.names)
  {
  }

  ghost predicate NoneRenumbers(ss: seq<Step>, mailbox: Id) {
    forall i | 0 <= i < |ss| :: !Renumbers(ss[i], mailbox)
  }

  /** In every pass: a row is claimed, held, taken and written to under one UID, its own; and
      without a renumbering of the mailbox it still has it. */
  lemma {:induction false} ClaimsAreFiled(qs: seq<Queue>, ss: seq<Step>, mailbox: Id, maxAttempts: nat, stale: set<Id>,
                                          n: nat)
    requires Pass(qs, ss, mailbox, maxAttempts) && n < |qs| && Start(qs[0], mailbox, stale)
    ensures Named(qs[n], mailbox) && (NoneRenumbers(ss, mailbox) ==> NamesKept(qs[n].db, qs[n].names))
  {
    hide Named, NamesKept, CanStep, Next, Renumbers;
    if n == 0 {
      StartNamed(qs[0], mailbox, stale);
    } else {
      hide Start;
      ClaimsAreFiled(qs, ss, mailbox, maxAttempts, stale, n - 1);
      StepKeepsNamed(qs[n - 1], ss[n - 1], mailbox, maxAttempts);
    }
  }

  // ---------------------------------------------------------------- what is attached

  /** Every body attached is the one of the UID its row was claimed under. */
  ghost predicate BodiesTrue(q: Queue, mail: Uid -> Content) {
    forall b | b in q.bodies :: b.row in q.names && b.content == mail(q.names[b.row])
  }

  /** A worker attaches what belongs to the row in its hands. */
  ghost predicate AttachesOwn(q: Queue, s: Step, mail: Uid -> Content) {
    s.Attach? && s.worker in q.hands && q.hands[s.worker] in q.names ==> s.content == mail(q.names[q.hands[s.worker]])
  }

  /** A pass in which nothing but the right bodies is attached. */
  lemma StepKeepsTrue(q: Queue, s: Step, mailbox: Id, maxAttempts: nat, mail: Uid -> Content)
    requires CanStep(q, s, mailbox, maxAttempts) && Named(q, mailbox) && BodiesTrue(q, mail) && AttachesOwn(q, s, mail)
    ensures BodiesTrue(Next(q, s, mailbox, maxAttempts), mail)
  {
    HandsAreFiled(q);
    StepAttaches(q, s, mailbox, maxAttempts);
    StepKeepsNamed(q, s, mailbox, maxAttempts);
    hide Next, CanStep, Named;
  }

  lemma HandsAreFiled(q: Queue)
    requires Filed(q)
    ensures forall w | w in q.hands :: q.hands[w] in q.names
  {
  }

  lemma StepAttaches(q: Queue, s: Step, mailbox: Id, maxAttempts: nat)
    requires CanStep(q, s, mailbox, maxAttempts)
    ensures var q' := Next(q, s, mailbox, maxAttempts);
            && q.bodies <= q'.bodies
            && (forall b | b in q'.bodies && b !in q.bodies ::
                  s.Attach? && s.worker in q.hands && b == Body(q.hands[s.worker], s.content))
            && (s.Attach? && q.db.Attach(q.hands[s.worker], s.content).Some? ==>
                  Body(q.hands[s.worker], s.content) in q'.bodies)
  {
    hide Tables.Constraints, Tables.ClaimChoice, Tables.Claim, Tables.Attach, Tables.MarkFailed, Tables.MarkTooLarge,
         Tables.Reap, Apply, Foreign, Enabled, ByUid, NamesOf, RecordsOf, Addressable, Appeared, Reapable, Overwritten;
  }

  // ---------------------------------------------------------------- what claims record

  /** A record is what the tables said of the row when it was claimed. */
  ghost predicate RecordedAt(q: Queue, s: Step, c: Record, mailbox: Id, maxAttempts: nat)
    requires CanStep(q, s, mailbox, maxAttempts)
  {
    && s.Claim? && c.row in s.picked && c.row in q.db.rows
    && q.db.rows[c.row].mailbox == mailbox && q.db.rows[c.row].uid == Some(c.uid)
    && q.db.messages[q.db.rows[c.row].message].size == c.size
  }

  lemma StepRecords(q: Queue, s: Step, c: Record, mailbox: Id, maxAttempts: nat)
    requires CanStep(q, s, mailbox, maxAttempts)
    ensures c in Next(q, s, mailbox, maxAttempts).records <==>
            c in q.records || RecordedAt(q, s, c, mailbox, maxAttempts)
  {
    hide Tables.Attach, Tables.MarkFailed, Tables.MarkTooLarge, Tables.Reap, Apply, Foreign, Enabled, Appeared,
         Reapable, Overwritten, Tables.Claim, NamesOf, ByUid, Tables.DigestsUnique, Tables.UidsUnique;
    if s.Claim? {
      assert s.picked !! {} && q.db.Linked();
    }
  }

  ghost predicate RecordedIn(qs: seq<Queue>, ss: seq<Step>, n: nat, c: Record, mailbox: Id, maxAttempts: nat)
    requires n <= |ss| && |qs| == |ss| + 1
  {
    exists i :: 0 <= i < n && RecordedBy(qs[i], ss[i], c, mailbox, maxAttempts)
  }

  ghost predicate RecordedBy(q: Queue, s: Step, c: Record, mailbox: Id, maxAttempts: nat) {
    CanStep(q, s, mailbox, maxAttempts) && RecordedAt(q, s, c, mailbox, maxAttempts)
  }

  lemma RecordedSoFar(qs: seq<Queue>, ss: seq<Step>, n: nat, c: Record, mailbox: Id, maxAttempts: nat)
    requires 0 < n <= |ss| && |qs| == |ss| + 1
    ensures RecordedIn(qs, ss, n, c, mailbox, maxAttempts) <==>
            RecordedIn(qs, ss, n - 1, c, mailbox, maxAttempts)
            || RecordedBy(qs[n - 1], ss[n - 1], c, mailbox, maxAttempts)
  {
    hide RecordedBy;
  }

  lemma StartRecords(q: Queue, mailbox: Id, stale: set<Id>)
    requires Start(q, mailbox, stale)
    ensures q.records == {}
  {
    hide Tables.Constraints, InState;
  }

  /** One step of a pass. */
  lemma PassStep(qs: seq<Queue>, ss: seq<Step>, mailbox: Id, maxAttempts: nat, i: nat)
    requires Pass(qs, ss, mailbox, maxAttempts) && i < |ss|
    ensures CanStep(qs[i], ss[i], mailbox, maxAttempts) && qs[i + 1] == Next(qs[i], ss[i], mailbox, maxAttempts)
  {
    hide CanStep, Next;
  }

  /** The records of a pass are exactly what its claims reported. */
  lemma {:induction false} RecordsAreClaims(qs: seq<Queue>, ss: seq<Step>, mailbox: Id, maxAttempts: nat,
                                            stale: set<Id>, n: nat, c: Record)
    requires Pass(qs, ss, mailbox, maxAttempts) && n < |qs| && Start(qs[0], mailbox, stale)
    ensures c in qs[n].records <==> RecordedIn(qs, ss, n, c, mailbox, maxAttempts)
  {
    hide CanStep, Next, Start, RecordedAt, RecordedIn;
    if n == 0 {
      StartRecords(qs[0], mailbox, stale);
      NoneRecorded(qs, ss, c, mailbox, maxAttempts);
    } else {
      RecordsAreClaims(qs, ss, mailbox, maxAttempts, stale, n - 1, c);
      PassStep(qs, ss, mailbox, maxAttempts, n - 1);
      hide Pass;
      RecordedSoFar(qs, ss, n, c, mailbox, maxAttempts);
      StepRecords(qs[n - 1], ss[n - 1], c, mailbox, maxAttempts);
    }
  }

  lemma NoneRecorded(qs: seq<Queue>, ss: seq<Step>, c: Record, mailbox: Id, maxAttempts: nat)
    requires |qs| == |ss| + 1
    ensures !RecordedIn(qs, ss, 0, c, mailbox, maxAttempts)
  {
  }

  // ---------------------------------------------------------------- which claim it was

  ghost predicate PickedAt(q: Queue, s: Step, r: Id, u: Uid, mailbox: Id) {
    && s.Claim? && r in s.picked && r in q.db.rows && q.db.rows[r].mailbox == mailbox && q.db.rows[r].uid == Some(u)
  }

  lemma StepNames(q: Queue, s: Step, mailbox: Id, maxAttempts: nat, r: Id)
    requires CanStep(q, s, mailbox, maxAttempts) && Named(q, mailbox)
    ensures var q' := Next(q, s, mailbox, maxAttempts);
            r in q'.names ==> (r in q.names && q'.names[r] == q.names[r]) || PickedAt(q, s, r, q'.names[r], mailbox)
  {
    if s.Claim? {
      hide Named, Tables.Constraints, RecordsOf, ByUid, Tables.Claim;
      ClaimableAreUntouched(q.db, s.picked, s.limit, s.locked, mailbox, maxAttempts, s.now);
    } else {
      hide CanStep, Next, NamesHold;
      StepFiles(q, s, mailbox, maxAttempts);
    }
  }

  /** Whoever has a name was claimed under it. */
  lemma {:induction false} NameIsClaimed(qs: seq<Queue>, ss: seq<Step>, mailbox: Id, maxAttempts: nat, stale: set<Id>,
                                         n: nat, r: Id)
    returns (k: nat)
    requires Pass(qs, ss, mailbox, maxAttempts) && n < |qs| && Start(qs[0], mailbox, stale) && r in qs[n].names
    ensures k < n && PickedAt(qs[k], ss[k], r, qs[n].names[r], mailbox)
  {
    hide CanStep, Next, Named, PickedAt;
    if n == 0 {
      assert false;
    }
    ClaimsAreFiled(qs, ss, mailbox, maxAttempts, stale, n - 1);
    StepNames(qs[n - 1], ss[n - 1], mailbox, maxAttempts, r);
    if PickedAt(qs[n - 1], ss[n - 1], r, qs[n].names[r], mailbox) {
      k := n - 1;
    } else {
      k := NameIsClaimed(qs, ss, mailbox, maxAttempts, stale, n - 1, r);
    }
  }

  lemma PickedIsRecorded(q: Queue, s: Step, r: Id, u: Uid, mailbox: Id, maxAttempts: nat) returns (c: Record)
    requires CanStep(q, s, mailbox, maxAttempts) && PickedAt(q, s, r, u, mailbox)
    ensures c.row == r && RecordedBy(q, s, c, mailbox, maxAttempts)
  {
    hide Tables.ClaimChoice;
    c := Record(r, u, q.db.messages[q.db.rows[r].message].size);
  }

  /** Every row that a pass has claimed has a record of it, and no other row has. */
  lemma ClaimedIsRecorded(qs: seq<Queue>, ss: seq<Step>, mailbox: Id, maxAttempts: nat, stale: set<Id>, n: nat, r: Id)
    requires Pass(qs, ss, mailbox, maxAttempts) && n < |qs| && Start(qs[0], mailbox, stale)
    ensures r in qs[n].claimed <==> exists c :: c in qs[n].records && c.row == r
  {
    ClaimsAreFiled(qs, ss, mailbox, maxAttempts, stale, n);
    hide CanStep, Next, Start, NamesHold, PickedAt, RecordedBy, NamesKept;
    if r in qs[n].claimed {
      var k := NameIsClaimed(qs, ss, mailbox, maxAttempts, stale, n, r);
      PassStep(qs, ss, mailbox, maxAttempts, k);
      var c := PickedIsRecorded(qs[k], ss[k], r, qs[n].names[r], mailbox, maxAttempts);
      RecordsAreClaims(qs, ss, mailbox, maxAttempts, stale, n, c);
    }
  }

  // ---------------------------------------------------------------- rows that stay

  /** The statements of the metadata pass. */
  predicate OfMetadata(s: Statement) {
    s.DoUpsert? || s.DoUpdateFlags? || s.DoDeleteMissing? || s.DoCheckpoint? || s.DoReset?
  }

  /** What others did in between is what was going to be done. */
  ghost predicate OnlyIntrusions(steps: seq<Step>, intrusions: seq<Statement>) {
    forall i | 0 <= i < |steps| && steps[i].Meanwhile? ::
      steps[i].statement in intrusions && OfMetadata(steps[i].statement)
  }

  /** It takes nothing from the mailbox, and adds only what the server has there. */
  predicate Gentle(s: Statement, mailbox: Id, present: set<Uid>) {
    match s
    case DoUpsert(m) => m.mailbox == mailbox ==> m.uid in present
    case DoDeleteMissing(box, _) => box != mailbox
    case DoReset(box, _) => box != mailbox
    case _ => true
  }

  ghost predicate AllGentle(intrusions: seq<Statement>, mailbox: Id, present: set<Uid>) {
    forall s | s in intrusions :: Gentle(s, mailbox, present)
  }

  /** The mailbox keeps its rows under their UIDs, and gets no other UIDs than these. */
  ghost predicate Stays(t: Tables, t': Tables, mailbox: Id, present: set<Uid>) {
    && (forall r | r in t.rows && t.rows[r].mailbox == mailbox ::
          r in t'.rows && t'.rows[r].mailbox == mailbox && t'.rows[r].uid == t.rows[r].uid)
    && (forall r | r in t'.rows && t'.rows[r].mailbox == mailbox && t'.rows[r].uid.Some? ::
          || t'.rows[r].uid.value in present
          || (r in t.rows && t.rows[r].mailbox == mailbox && t.rows[r].uid == t'.rows[r].uid))
  }

  lemma StaysTwice(t: Tables, t1: Tables, t2: Tables, mailbox: Id, present: set<Uid>)
    requires Stays(t, t1, mailbox, present) && Stays(t1, t2, mailbox, present)
    ensures Stays(t, t2, mailbox, present)
  {
  }

  lemma MarksStay(t: Tables, r: Id, n: int, picked: set<Id>, now: nat, cutoff: nat, mailbox: Id, present: set<Uid>)
    ensures Stays(t, t.MarkFailed(r, n), mailbox, present) && Stays(t, t.MarkTooLarge(r), mailbox, present)
    ensures Stays(t, t.Claim(picked, now), mailbox, present) && Stays(t, t.Reap(cutoff), mailbox, present)
    ensures Stays(t, t, mailbox, present)
  {
  }

  lemma AttachStays(t: Tables, r: Id, content: Content, mailbox: Id, present: set<Uid>)
    ensures t.Attach(r, content).Some? ==> Stays(t, t.Attach(r, content).value, mailbox, present)
  {
  }

  lemma UpsertStays(t: Tables, m: Meta, mailbox: Id, present: set<Uid>)
    requires t.Constraints() && m.mailbox in t.mailboxes && (m.mailbox == mailbox ==> m.uid in present)
    ensures Stays(t, t.Upsert(m).0, mailbox, present)
  {
    UpsertEffect(t, m);
    hide Tables.Upsert, Tables.DigestsUnique, Tables.UidsUnique;
  }

  lemma OthersStay(t: Tables, box: Id, uid: Uid, flags: Flags, n: nat, gone: set<Uid>, c: Checkpoint, mailbox: Id,
                   present: set<Uid>)
    ensures Stays(t, t.UpdateFlags(box, uid, flags, n), mailbox, present)
    ensures Stays(t, t.SaveCheckpoint(box, c), mailbox, present)
    ensures box != mailbox ==> Stays(t, t.DeleteMissing(box, gone), mailbox, present)
    ensures box != mailbox ==> Stays(t, t.Reset(box, n), mailbox, present)
  {
  }

  lemma GentleStays(t: Tables, s: Statement, mailbox: Id, present: set<Uid>)
    requires t.Constraints() && Enabled(t, s) && OfMetadata(s) && Gentle(s, mailbox, present)
    ensures Stays(t, Apply(t, s), mailbox, present)
  {
    hide Stays, Tables.Constraints;
    var c := Checkpoint(0, 0, 0, 0, false);
    match s
    case DoUpsert(m) => UpsertStays(t, m, mailbox, present);
    case DoUpdateFlags(b, uid, flags, n) => OthersStay(t, b, uid, flags, n, {}, c, mailbox, present);
    case DoDeleteMissing(b, gone) => OthersStay(t, b, 0, {}, 0, gone, c, mailbox, present);
    case DoCheckpoint(b, c') => OthersStay(t, b, 0, {}, 0, {}, c', mailbox, present);
    case DoReset(b, v) => OthersStay(t, b, 0, {}, v, {}, c, mailbox, present);
  }

  lemma StepStays(q: Queue, s: Step, mailbox: Id, maxAttempts: nat, present: set<Uid>)
    requires CanStep(q, s, mailbox, maxAttempts)
    requires s.Meanwhile? ==> OfMetadata(s.statement) && Gentle(s.statement, mailbox, present)
    ensures Stays(q.db, Next(q, s, mailbox, maxAttempts).db, mailbox, present)
  {
    hide Stays, Tables.Constraints, Tables.ClaimChoice, Tables.Attach, Tables.MarkFailed, Tables.MarkTooLarge,
         Tables.Claim, Tables.Reap, ByUid, NamesOf, RecordsOf, Addressable, Reapable, Overwritten, Apply, Enabled,
         Foreign, Appeared, OfMetadata, Gentle;
    MarksStay(q.db, 0, 0, {}, 0, 0, mailbox, present);
    match s
    case Claim(_, _, picked, now) => MarksStay(q.db, 0, 0, picked, now, 0, mailbox, present);
    case Attach(w, content, _) => AttachStays(q.db, q.hands[w], content, mailbox, present);
    case Fail(w) => MarksStay(q.db, q.hands[w], maxAttempts, {}, 0, 0, mailbox, present);
    case Skip(w) => MarksStay(q.db, q.hands[w], 0, {}, 0, 0, mailbox, present);
    case Reap(cutoff) => MarksStay(q.db, 0, 0, {}, 0, cutoff, mailbox, present);
    case Meanwhile(st) => GentleStays(q.db, st, mailbox, present);
    case _ =>
  }

  /** Through a pass into which nothing else intrudes the mailbox keeps its rows. */
  lemma {:induction false} PassKeepsRows(qs: seq<Queue>, ss: seq<Step>, mailbox: Id, maxAttempts: nat,
                                         intrusions: seq<Statement>, present: set<Uid>, n: nat)
    requires Pass(qs, ss, mailbox, maxAttempts) && n < |qs|
    requires OnlyIntrusions(ss, intrusions) && AllGentle(intrusions, mailbox, present)
    ensures Stays(qs[0].db, qs[n].db, mailbox, present)
  {
    hide CanStep, Next, Stays, Gentle, OfMetadata;
    if n == 0 {
      MarksStay(qs[0].db, 0, 0, {}, 0, 0, mailbox, present);
    } else {
      PassKeepsRows(qs, ss, mailbox, maxAttempts, intrusions, present, n - 1);
      StepStays(qs[n - 1], ss[n - 1], mailbox, maxAttempts, present);
      StaysTwice(qs[0].db, qs[n - 1].db, qs[n].db, mailbox, present);
    }
  }

  /** Every row that has been claimed is still there. */
  ghost predicate NamesPresent(t: Tables, names: map<Id, Uid>, mailbox: Id) {
    forall r | r in names :: r in t.rows && t.rows[r].mailbox == mailbox
  }

  lemma NamesStay(t: Tables, t': Tables, names: map<Id, Uid>, mailbox: Id, present: set<Uid>)
    requires NamesPresent(t, names, mailbox) && Stays(t, t', mailbox, present)
    ensures NamesPresent(t', names, mailbox)
  {
  }

  lemma StepNamesPresent(q: Queue, s: Step, mailbox: Id, maxAttempts: nat)
    requires CanStep(q, s, mailbox, maxAttempts) && Named(q, mailbox) && NamesPresent(q.db, q.names, mailbox)
    ensures NamesPresent(q.db, Next(q, s, mailbox, maxAttempts).names, mailbox)
  {
    hide CanStep, Next, Named;
    forall r | r in Next(q, s, mailbox, maxAttempts).names
      ensures r in q.db.rows && q.db.rows[r].mailbox == mailbox
    {
      StepNames(q, s, mailbox, maxAttempts, r);
    }
  }

  lemma {:induction false} ClaimedArePresent(qs: seq<Queue>, ss: seq<Step>, mailbox: Id, maxAttempts: nat,
                                             stale: set<Id>, intrusions: seq<Statement>, present: set<Uid>, n: nat)
    requires Pass(qs, ss, mailbox, maxAttempts) && n < |qs| && Start(qs[0], mailbox, stale)
    requires OnlyIntrusions(ss, intrusions) && AllGentle(intrusions, mailbox, present)
    ensures NamesPresent(qs[n].db, qs[n].names, mailbox)
  {
    hide CanStep, Next, Stays, Gentle, OfMetadata, Named, NamesPresent;
    if n == 0 {
      NoNames(qs[0], mailbox, stale);
    } else {
      hide Start;
      ClaimedArePresent(qs, ss, mailbox, maxAttempts, stale, intrusions, present, n - 1);
      ClaimsAreFiled(qs, ss, mailbox, maxAttempts, stale, n - 1);
      StepNamesPresent(qs[n - 1], ss[n - 1], mailbox, maxAttempts);
      StepStays(qs[n - 1], ss[n - 1], mailbox, maxAttempts, present);
      NamesStay(qs[n - 1].db, qs[n].db, qs[n].names, mailbox, present);
    }
  }

  lemma NoNames(q: Queue, mailbox: Id, stale: set<Id>)
    requires Start(q, mailbox, stale)
    ensures NamesPresent(q.db, q.names, mailbox)
  {
    hide Tables.Constraints;
  }
}
