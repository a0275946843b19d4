/** Downloading, end to end: claims, bodies and the shared content store together. Whatever
    batches, retries, faults and concurrent writes a pass goes through, each row ends up with
    the message the server has under its UID. */
module Downloads {
  import opened Wrappers
  import opened Tables
  import Store
  import opened Claims
  import opened BodyQueue
  import opened Delivery
  import opened BodyPass
  import opened Dedup
  import Planner
  import Recovery
  import Oversize

  // ---------------------------------------------------------------- a pass as a history

  ghost function States(qs: seq<Queue>): (ts: seq<Tables>)
    ensures |ts| == |qs| && forall i | 0 <= i < |qs| :: ts[i] == qs[i].db
  {
    seq(|qs|, i requires 0 <= i < |qs| => qs[i].db)
  }

  /** What each step of a pass says to the database, in turn. */
  ghost function Statements(qs: seq<Queue>, ss: seq<Step>, mailbox: Id, maxAttempts: nat): (us: seq<Statement>)
    requires Pass(qs, ss, mailbox, maxAttempts)
    ensures |us| == |ss|
    ensures forall i | 0 <= i < |ss| :: CanStep(qs[i], ss[i], mailbox, maxAttempts)
                                        && us[i] == Told(qs[i], ss[i], mailbox, maxAttempts)
  {
    seq(|ss|, i requires 0 <= i < |ss| => Told(qs[i], ss[i], mailbox, maxAttempts))
  }

  lemma PassIsRun(qs: seq<Queue>, ss: seq<Step>, mailbox: Id, maxAttempts: nat, stale: set<Id>)
    requires Pass(qs, ss, mailbox, maxAttempts) && Start(qs[0], mailbox, stale)
    ensures Run(States(qs), Statements(qs, ss, mailbox, maxAttempts))
  {
    var ts, us := States(qs), Statements(qs, ss, mailbox, maxAttempts);
    StartIsSound(qs[0], mailbox, stale);
    hide States, Statements, CanStep, Next, Told, Start, Enabled, Apply, Tables.Constraints;
    forall i | 0 <= i < |ss|
      ensures ts[i].Constraints() && Enabled(ts[i], us[i]) && ts[i + 1] == Apply(ts[i], us[i])
    {
      PassStep(qs, ss, mailbox, maxAttempts, i);
      SoundBefore(qs[i], ss[i], mailbox, maxAttempts);
      StepIsTold(qs[i], ss[i], mailbox, maxAttempts);
    }
  }

  lemma StartIsSound(q: Queue, mailbox: Id, stale: set<Id>)
    requires Start(q, mailbox, stale)
    ensures q.db.Constraints()
  {
  }

  lemma SoundBefore(q: Queue, s: Step, mailbox: Id, maxAttempts: nat)
    requires CanStep(q, s, mailbox, maxAttempts)
    ensures q.db.Constraints()
  {
    hide Tables.Constraints;
  }

  // ---------------------------------------------------------------- attaching under a claim

  lemma StepKeepsBodies(q: Queue, s: Step, mailbox: Id, maxAttempts: nat)
    requires CanStep(q, s, mailbox, maxAttempts)
    ensures q.bodies <= Next(q, s, mailbox, maxAttempts).bodies
  {
    hide Next, CanStep;
    StepAttaches(q, s, mailbox, maxAttempts);
  }

  /** What is attached stays written down. */
  lemma {:induction false} BodiesStay(qs: seq<Queue>, ss: seq<Step>, mailbox: Id, maxAttempts: nat, i: nat, n: nat)
    requires Pass(qs, ss, mailbox, maxAttempts) && i <= n < |qs|
    ensures qs[i].bodies <= qs[n].bodies
    decreases n
  {
    hide CanStep, Next;
    if i < n {
      BodiesStay(qs, ss, mailbox, maxAttempts, i, n - 1);
      StepKeepsBodies(qs[n - 1], ss[n - 1], mailbox, maxAttempts);
    }
  }

  /** The bodies attached are what the server has for their rows. */
  ghost predicate Truthful(bodies: set<Body>, truth: Id -> Content) {
    forall b | b in bodies :: b.content == truth(b.row)
  }

  /** An attach with the content the server has for the row, under a claim that no renumbering
      has overtaken. */
  ghost predicate OrderlyAt(ts: seq<Tables>, us: seq<Statement>, truth: Id -> Content, i: nat)
    requires |ts| == |us| + 1 && i < |us|
  {
    us[i].DoAttach? && us[i].row in ts[i].rows ==>
      us[i].content == truth(us[i].row) && exists k :: 0 <= k < i && ClaimedAt(ts, us, k, i, us[i].row)
  }

  /** The attaches made meanwhile for other mailboxes are so. */
  ghost predicate OthersOrderly(ts: seq<Tables>, us: seq<Statement>, ss: seq<Step>, truth: Id -> Content)
    requires |ts| == |us| + 1 && |us| == |ss|
  {
    forall i | 0 <= i < |ss| && ss[i].Meanwhile? :: OrderlyAt(ts, us, truth, i)
  }

  lemma NoResetBetween(qs: seq<Queue>, ss: seq<Step>, mailbox: Id, maxAttempts: nat, k: nat, i: nat, r: Id, u: Uid)
    requires Pass(qs, ss, mailbox, maxAttempts) && NoneRenumbers(ss, mailbox) && k < i <= |ss|
    requires PickedAt(qs[k], ss[k], r, u, mailbox)
    ensures ClaimedAt(States(qs), Statements(qs, ss, mailbox, maxAttempts), k, i, r)
  {
    var ts, us := States(qs), Statements(qs, ss, mailbox, maxAttempts);
    hide CanStep, Pass, States, Statements;
    assert us[k] == Told(qs[k], ss[k], mailbox, maxAttempts) && ts[k] == qs[k].db;
    forall j | k < j < i && us[j].DoReset?
      ensures us[j].mailbox != mailbox
    {
      assert us[j] == Told(qs[j], ss[j], mailbox, maxAttempts);
      assert !Renumbers(ss[j], mailbox);
    }
  }

  lemma OwnAttachIsOrderly(qs: seq<Queue>, ss: seq<Step>, mailbox: Id, maxAttempts: nat, stale: set<Id>,
                           truth: Id -> Content, i: nat)
    requires Pass(qs, ss, mailbox, maxAttempts) && Start(qs[0], mailbox, stale) && NoneRenumbers(ss, mailbox)
    requires Truthful(qs[|ss|].bodies, truth) && i < |ss| && ss[i].Attach?
    ensures OrderlyAt(States(qs), Statements(qs, ss, mailbox, maxAttempts), truth, i)
  {
    var q, s, us := qs[i], ss[i], Statements(qs, ss, mailbox, maxAttempts);
    PassStep(qs, ss, mailbox, maxAttempts, i);
    var r := HandOf(q, s, mailbox, maxAttempts);
    if r in q.db.rows {
      StepAttaches(q, s, mailbox, maxAttempts);
      BodiesStay(qs, ss, mailbox, maxAttempts, i + 1, |ss|);
      ClaimsAreFiled(qs, ss, mailbox, maxAttempts, stale, i);
      HandIsNamed(q, mailbox, s.worker);
      AttachWorks(q, s, mailbox, maxAttempts);
      hide Pass, CanStep, Next, Named, Start, Told, States, Statements, ClaimedAt, PickedAt, Tables.Attach;
      assert Body(r, s.content) in qs[|ss|].bodies;
      var k := NameIsClaimed(qs, ss, mailbox, maxAttempts, stale, i, r);
      NoResetBetween(qs, ss, mailbox, maxAttempts, k, i, r, q.names[r]);
    }
  }

  /** The row that an attach is for. */
  lemma HandOf(q: Queue, s: Step, mailbox: Id, maxAttempts: nat) returns (r: Id)
    requires CanStep(q, s, mailbox, maxAttempts) && s.Attach?
    ensures s.worker in q.hands && r == q.hands[s.worker]
    ensures Told(q, s, mailbox, maxAttempts) == DoAttach(r, s.content)
  {
    r := q.hands[s.worker];
  }

  lemma HandIsNamed(q: Queue, mailbox: Id, w: Worker)
    requires Named(q, mailbox) && w in q.hands
    ensures q.hands[w] in q.names
  {
    HandsAreFiled(q);
  }

  lemma AttachWorks(q: Queue, s: Step, mailbox: Id, maxAttempts: nat)
    requires CanStep(q, s, mailbox, maxAttempts) && s.Attach? && q.hands[s.worker] in q.db.rows
    ensures q.db.Attach(q.hands[s.worker], s.content).Some?
  {
  }

  /** Every pass is an orderly history: what it attaches is the content of the row, under a claim
      that no renumbering has overtaken. So what is proved of orderly histories holds of it. */
  lemma PassIsOrderly(qs: seq<Queue>, ss: seq<Step>, mailbox: Id, maxAttempts: nat, stale: set<Id>,
                      truth: Id -> Content)
    requires Pass(qs, ss, mailbox, maxAttempts) && Start(qs[0], mailbox, stale) && NoneRenumbers(ss, mailbox)
    requires Truthful(qs[|ss|].bodies, truth)
    requires OthersOrderly(States(qs), Statements(qs, ss, mailbox, maxAttempts), ss, truth)
    ensures Run(States(qs), Statements(qs, ss, mailbox, maxAttempts))
    ensures Orderly(States(qs), Statements(qs, ss, mailbox, maxAttempts), truth)
  {
    PassIsRun(qs, ss, mailbox, maxAttempts, stale);
    var ts, us := States(qs), Statements(qs, ss, mailbox, maxAttempts);
    forall i | 0 <= i < |ss|
      ensures OrderlyAt(ts, us, truth, i)
    {
      hide OrderlyAt, CanStep, Next, Start;
      if ss[i].Attach? {
        OwnAttachIsOrderly(qs, ss, mailbox, maxAttempts, stale, truth, i);
      } else if !ss[i].Meanwhile? {
        OtherStepAttachesNothing(qs[i], ss[i], mailbox, maxAttempts);
        NoAttachIsOrderly(ts, us, truth, i);
      }
    }
    hide CanStep, Next, Start, Pass, Run, States, Statements;
    EachIsOrderly(ts, us, truth);
  }

  lemma OtherStepAttachesNothing(q: Queue, s: Step, mailbox: Id, maxAttempts: nat)
    requires CanStep(q, s, mailbox, maxAttempts) && !s.Attach? && !s.Meanwhile?
    ensures !Told(q, s, mailbox, maxAttempts).DoAttach?
  {
    hide CanStep;
  }

  lemma NoAttachIsOrderly(ts: seq<Tables>, us: seq<Statement>, truth: Id -> Content, i: nat)
    requires |ts| == |us| + 1 && i < |us| && !us[i].DoAttach?
    ensures OrderlyAt(ts, us, truth, i)
  {
  }

  lemma EachIsOrderly(ts: seq<Tables>, us: seq<Statement>, truth: Id -> Content)
    requires |ts| == |us| + 1 && forall i | 0 <= i < |us| :: OrderlyAt(ts, us, truth, i)
    ensures Orderly(ts, us, truth)
  {
    forall i | 0 <= i < |us| && us[i].DoAttach? && us[i].row in ts[i].rows
      ensures us[i].content == truth(us[i].row) && exists k :: 0 <= k < i && ClaimedAt(ts, us, k, i, us[i].row)
    {
      assert OrderlyAt(ts, us, truth, i);
    }
  }

  // ---------------------------------------------------------------- recorded sizes

  /** The stand-ins of a mailbox carry the sizes of its messages. */
  ghost predicate StandInsSized(t: Tables, mailbox: Id, mail: Uid -> Content) {
    forall m | m in t.messages :: TrueStandIn(t.messages[m], mailbox, mail)
  }

  predicate TrueStandIn(m: Message, mailbox: Id, mail: Uid -> Content) {
    m.digest.Placeholder? && m.digest.mailbox == mailbox ==> m.size == |mail(m.digest.uid)|
  }

  /** The metadata pass reports true sizes. */
  predicate ReportsTruly(s: Statement, mailbox: Id, mail: Uid -> Content) {
    s.DoUpsert? && s.meta.mailbox == mailbox ==> s.meta.size == |mail(s.meta.uid)|
  }

  lemma UpsertKeepsSizes(t: Tables, m: Meta, mailbox: Id, mail: Uid -> Content)
    requires m.mailbox in t.mailboxes && StandInsSized(t, mailbox, mail) && ReportsTruly(DoUpsert(m), mailbox, mail)
    ensures StandInsSized(t.Upsert(m).0, mailbox, mail)
  {
  }

  lemma AttachKeepsSizes(t: Tables, r: Id, content: Content, mailbox: Id, mail: Uid -> Content)
    requires StandInsSized(t, mailbox, mail) && t.Attach(r, content).Some?
    ensures StandInsSized(t.Attach(r, content).value, mailbox, mail)
  {
  }

  lemma StatementKeepsSizes(t: Tables, s: Statement, mailbox: Id, mail: Uid -> Content)
    requires t.Constraints() && Enabled(t, s) && StandInsSized(t, mailbox, mail) && ReportsTruly(s, mailbox, mail)
    ensures StandInsSized(Apply(t, s), mailbox, mail)
  {
    if s.DoUpsert? {
      UpsertKeepsSizes(t, s.meta, mailbox, mail);
    } else if s.DoAttach? {
      if t.Attach(s.row, s.content).Some? {
        AttachKeepsSizes(t, s.row, s.content, mailbox, mail);
      }
    } else {
      OtherStatementEffect(t, s);
      hide Apply;
    }
  }

  lemma {:induction false} RunKeepsSizes(ts: seq<Tables>, us: seq<Statement>, mailbox: Id, mail: Uid -> Content, n: nat)
    requires Run(ts, us) && n < |ts| && StandInsSized(ts[0], mailbox, mail)
    requires forall i | 0 <= i < |us| :: ReportsTruly(us[i], mailbox, mail)
    ensures StandInsSized(ts[n], mailbox, mail)
  {
    hide Enabled, Apply, StandInsSized, ReportsTruly, Tables.Constraints;
    if n > 0 {
      RunKeepsSizes(ts, us, mailbox, mail, n - 1);
      StatementKeepsSizes(ts[n - 1], us[n - 1], mailbox, mail);
    }
  }

  /** A row not yet downloaded shows the size of its message. */
  lemma LiveSize(t: Tables, truth: Id -> Content, mailbox: Id, mail: Uid -> Content, r: Id)
    requires Integrity(t, truth) && StandInsSized(t, mailbox, mail)
    requires r in t.rows && t.rows[r].mailbox == mailbox && Live(t.rows[r]) && t.rows[r].state != Stored
    requires truth(r) == mail(t.rows[r].uid.value)
    ensures t.rows[r].message in t.messages
    ensures t.messages[t.rows[r].message].size == |mail(t.rows[r].uid.value)|
  {
    assert OwnContent(t, truth, r) && TrueStandIn(t.messages[t.rows[r].message], mailbox, mail);
  }

  /** Rows are claimed under the UIDs of their messages. */
  ghost predicate NamesTrue(names: map<Id, Uid>, truth: Id -> Content, mail: Uid -> Content) {
    forall r | r in names :: truth(r) == mail(names[r])
  }

  /** So what every claim of an orderly pass reports of a size is true. */
  lemma RecordsAreTrue(qs: seq<Queue>, ss: seq<Step>, mailbox: Id, maxAttempts: nat, stale: set<Id>,
                       truth: Id -> Content, mail: Uid -> Content)
    requires Pass(qs, ss, mailbox, maxAttempts) && Start(qs[0], mailbox, stale)
    requires Run(States(qs), Statements(qs, ss, mailbox, maxAttempts))
    requires Orderly(States(qs), Statements(qs, ss, mailbox, maxAttempts), truth)
    requires Integrity(qs[0].db, truth) && StandInsSized(qs[0].db, mailbox, mail)
    requires forall s | s in Statements(qs, ss, mailbox, maxAttempts) :: ReportsTruly(s, mailbox, mail)
    requires NamesTrue(qs[|ss|].names, truth, mail)
    ensures TrueSizes(qs[|ss|].records, mail)
  {
    var n := |ss|;
    ClaimsAreFiled(qs, ss, mailbox, maxAttempts, stale, n);
    hide Run, Orderly, CanStep, Next, Start, Integrity, StandInsSized, ReportsTruly, Pass, Named, NamesTrue, States,
         Statements, RecordedAt;
    forall c | c in qs[n].records
      ensures c.size == |mail(c.uid)|
    {
      RecordIsNamed(qs[n], mailbox, c);
      NamedIsTrue(qs[n].names, truth, mail, c.row);
      var i := ClaimOfRecord(qs, ss, mailbox, maxAttempts, stale, c);
      ClaimReportsTruly(qs, ss, mailbox, maxAttempts, stale, truth, mail, c, i);
    }
  }

  lemma NamedIsTrue(names: map<Id, Uid>, truth: Id -> Content, mail: Uid -> Content, r: Id)
    requires NamesTrue(names, truth, mail) && r in names
    ensures truth(r) == mail(names[r])
  {
  }

  lemma ClaimOfRecord(qs: seq<Queue>, ss: seq<Step>, mailbox: Id, maxAttempts: nat, stale: set<Id>, c: Record)
    returns (i: nat)
    requires Pass(qs, ss, mailbox, maxAttempts) && Start(qs[0], mailbox, stale) && c in qs[|ss|].records
    ensures i < |ss| && RecordedBy(qs[i], ss[i], c, mailbox, maxAttempts)
  {
    RecordsAreClaims(qs, ss, mailbox, maxAttempts, stale, |ss|, c);
    hide Pass, CanStep, Next, Start, RecordedBy;
    i :| 0 <= i < |ss| && RecordedBy(qs[i], ss[i], c, mailbox, maxAttempts);
  }

  lemma ClaimReportsTruly(qs: seq<Queue>, ss: seq<Step>, mailbox: Id, maxAttempts: nat, stale: set<Id>,
                          truth: Id -> Content, mail: Uid -> Content, c: Record, i: nat)
    requires Pass(qs, ss, mailbox, maxAttempts)
    requires Run(States(qs), Statements(qs, ss, mailbox, maxAttempts))
    requires Orderly(States(qs), Statements(qs, ss, mailbox, maxAttempts), truth)
    requires Integrity(qs[0].db, truth) && StandInsSized(qs[0].db, mailbox, mail)
    requires forall s | s in Statements(qs, ss, mailbox, maxAttempts) :: ReportsTruly(s, mailbox, mail)
    requires i < |ss| && RecordedBy(qs[i], ss[i], c, mailbox, maxAttempts) && truth(c.row) == mail(c.uid)
    ensures c.size == |mail(c.uid)|
  {
    var ts, us := States(qs), Statements(qs, ss, mailbox, maxAttempts);
    hide Run, Orderly, CanStep, Next, Integrity, StandInsSized, ReportsTruly, Pass, RecordedBy, States, Statements;
    IntegrityHolds(ts, us, truth, i);
    RunKeepsSizes(ts, us, mailbox, mail, i);
    RecordIsTrue(qs[i], ss[i], mailbox, maxAttempts, truth, mail, c);
  }

  lemma RecordIsNamed(q: Queue, mailbox: Id, c: Record)
    requires Named(q, mailbox) && c in q.records
    ensures c.row in q.names && q.names[c.row] == c.uid
  {
  }

  lemma RecordIsTrue(q: Queue, s: Step, mailbox: Id, maxAttempts: nat, truth: Id -> Content, mail: Uid -> Content,
                     c: Record)
    requires RecordedBy(q, s, c, mailbox, maxAttempts) && truth(c.row) == mail(c.uid)
    requires Integrity(q.db, truth) && StandInsSized(q.db, mailbox, mail)
    ensures c.size == |mail(c.uid)|
  {
    hide Integrity, StandInsSized, Tables.DigestsUnique, Tables.UidsUnique;
    assert q.db.Claimable(c.row, mailbox, maxAttempts);
    LiveSize(q.db, truth, mailbox, mail, c.row);
  }

  // ---------------------------------------------------------------- rows and their messages

  /** Every row of the mailbox that has its UID stands for the message of that UID. */
  ghost predicate RowsTrue(t: Tables, mailbox: Id, truth: Id -> Content, mail: Uid -> Content) {
    forall r | r in t.rows && t.rows[r].mailbox == mailbox && Live(t.rows[r]) :: truth(r) == mail(t.rows[r].uid.value)
  }

  /** The old rows of the mailbox that are left have the UIDs they had. */
  ghost predicate OldNames(t0: Tables, t: Tables, mailbox: Id) {
    && t0.nextRow <= t.nextRow
    && forall r | r in t.rows && r < t0.nextRow && t.rows[r].mailbox == mailbox ::
         r in t0.rows && t0.rows[r].mailbox == mailbox && t0.rows[r].uid == t.rows[r].uid
  }

  lemma StatementKeepsOldNames(t0: Tables, t: Tables, s: Statement, mailbox: Id)
    requires t.Constraints() && Enabled(t, s) && !(s.DoReset? && s.mailbox == mailbox) && OldNames(t0, t, mailbox)
    ensures OldNames(t0, Apply(t, s), mailbox)
  {
    hide Tables.Constraints, Enabled, Tables.Reset;
    if s.DoReset? {
      ResetRenames(t, s.mailbox, s.uidValidity);
    } else {
      OnlyResetRenames(t, s);
      hide Apply;
    }
  }

  lemma {:induction false} RunKeepsOldNames(ts: seq<Tables>, us: seq<Statement>, mailbox: Id, n: nat)
    requires Run(ts, us) && n < |ts|
    requires forall i | 0 <= i < |us| :: !(us[i].DoReset? && us[i].mailbox == mailbox)
    ensures OldNames(ts[0], ts[n], mailbox)
  {
    hide Enabled, Apply;
    if n > 0 {
      hide OldNames, Tables.Constraints;
      RunKeepsOldNames(ts, us, mailbox, n - 1);
      StatementKeepsOldNames(ts[0], ts[n - 1], us[n - 1], mailbox);
    }
  }

  /** What the rows stand for once new ones have been found: those that were there before as
      they did, those claimed for what they were claimed under, and the rest for what their
      UIDs say. */
  ghost function Extended(truth: Id -> Content, t0: Tables, q: Queue, mailbox: Id, mail: Uid -> Content)
    : Id -> Content
  {
    (r: Id) => if r < t0.nextRow then truth(r)
               else if r in q.names then mail(q.names[r])
               else if r in q.db.rows && q.db.rows[r].uid.Some? then mail(q.db.rows[r].uid.value)
               else truth(r)
  }

  lemma IntegrityAgrees(t: Tables, truth: Id -> Content, truth': Id -> Content)
    requires Integrity(t, truth) && forall r | r in t.rows :: truth'(r) == truth(r)
    ensures Integrity(t, truth')
  {
    hide Tables.DigestsUnique, Tables.UidsUnique, BlobsPresent, AccountsAgree;
    forall r | r in t.rows
      ensures OwnContent(t, truth', r) && OwnPlaceholder(t, r)
    {
      assert OwnContent(t, truth, r);
    }
  }

  lemma ExtendedIsTrue(truth: Id -> Content, t0: Tables, q: Queue, mailbox: Id, mail: Uid -> Content)
    requires OldNames(t0, q.db, mailbox) && RowsTrue(t0, mailbox, truth, mail)
    requires NamesHold(q.db, q.names, mailbox)
    ensures RowsTrue(q.db, mailbox, Extended(truth, t0, q, mailbox, mail), mail)
  {
    var truth' := Extended(truth, t0, q, mailbox, mail);
    forall r | r in q.db.rows && q.db.rows[r].mailbox == mailbox && Live(q.db.rows[r])
      ensures truth'(r) == mail(q.db.rows[r].uid.value)
    {
      if r in q.names {
        assert IsNamed(q.db.rows[r], q.names[r], mailbox);
      }
    }
  }

  lemma NameIsTrue(t0: Tables, q: Queue, s: Step, r: Id, u: Uid, mailbox: Id, truth: Id -> Content,
                   mail: Uid -> Content)
    requires PickedAt(q, s, r, u, mailbox) && OldNames(t0, q.db, mailbox) && RowsTrue(t0, mailbox, truth, mail)
    ensures r < t0.nextRow ==> truth(r) == mail(u)
  {
    if r < t0.nextRow {
      assert r in t0.rows && Live(t0.rows[r]);
    }
  }

  lemma NamesAreTrue(qs: seq<Queue>, ss: seq<Step>, mailbox: Id, maxAttempts: nat, stale: set<Id>,
                     truth: Id -> Content, mail: Uid -> Content)
    requires Pass(qs, ss, mailbox, maxAttempts) && Start(qs[0], mailbox, stale) && NoneRenumbers(ss, mailbox)
    requires RowsTrue(qs[0].db, mailbox, truth, mail)
    ensures OldNames(qs[0].db, qs[|ss|].db, mailbox)
    ensures NamesTrue(qs[|ss|].names, Extended(truth, qs[0].db, qs[|ss|], mailbox, mail), mail)
  {
    var ts, us, n := States(qs), Statements(qs, ss, mailbox, maxAttempts), |ss|;
    PassIsRun(qs, ss, mailbox, maxAttempts, stale);
    NoResets(qs, ss, mailbox, maxAttempts);
    hide Run, CanStep, Next, Start, States, Statements, Pass, OldNames, RowsTrue, PickedAt;
    RunKeepsOldNames(ts, us, mailbox, n);
    forall r | r in qs[n].names
      ensures r < qs[0].db.nextRow ==> truth(r) == mail(qs[n].names[r])
    {
      var k := NameIsClaimed(qs, ss, mailbox, maxAttempts, stale, n, r);
      RunKeepsOldNames(ts, us, mailbox, k);
      NameIsTrue(qs[0].db, qs[k], ss[k], r, qs[n].names[r], mailbox, truth, mail);
    }
  }

  lemma NoResets(qs: seq<Queue>, ss: seq<Step>, mailbox: Id, maxAttempts: nat)
    requires Pass(qs, ss, mailbox, maxAttempts) && NoneRenumbers(ss, mailbox)
    ensures var us := Statements(qs, ss, mailbox, maxAttempts);
            forall i | 0 <= i < |us| :: !(us[i].DoReset? && us[i].mailbox == mailbox)
  {
    var us := Statements(qs, ss, mailbox, maxAttempts);
    hide CanStep, Statements, Pass;
    forall i | 0 <= i < |us|
      ensures !(us[i].DoReset? && us[i].mailbox == mailbox)
    {
      assert us[i] == Told(qs[i], ss[i], mailbox, maxAttempts);
      assert !Renumbers(ss[i], mailbox);
    }
  }

  // ---------------------------------------------------------------- what a pass delivers

  /** What writes in between leaves the numbering alone and reports true sizes. */
  ghost predicate Peaceful(intrusions: seq<Statement>, mailbox: Id, mail: Uid -> Content) {
    forall s | s in intrusions :: ReportsTruly(s, mailbox, mail) && !(s.DoReset? && s.mailbox == mailbox)
  }

  lemma IntrusionIsPeaceful(qs: seq<Queue>, ss: seq<Step>, mailbox: Id, maxAttempts: nat, intrusions: seq<Statement>,
                            truth: Id -> Content, mail: Uid -> Content, i: nat)
    requires Pass(qs, ss, mailbox, maxAttempts) && i < |ss|
    requires OnlyIntrusions(ss, intrusions) && Peaceful(intrusions, mailbox, mail)
    ensures var ts, us := States(qs), Statements(qs, ss, mailbox, maxAttempts);
            && !Renumbers(ss[i], mailbox) && ReportsTruly(us[i], mailbox, mail)
            && (ss[i].Meanwhile? ==> OrderlyAt(ts, us, truth, i))
  {
    var us := Statements(qs, ss, mailbox, maxAttempts);
    hide CanStep, Pass, States, Statements;
    assert us[i] == Told(qs[i], ss[i], mailbox, maxAttempts);
  }

  lemma IntrusionsArePeaceful(qs: seq<Queue>, ss: seq<Step>, mailbox: Id, maxAttempts: nat, intrusions: seq<Statement>,
                              truth: Id -> Content, mail: Uid -> Content)
    requires Pass(qs, ss, mailbox, maxAttempts)
    requires OnlyIntrusions(ss, intrusions) && Peaceful(intrusions, mailbox, mail)
    ensures var us := Statements(qs, ss, mailbox, maxAttempts);
            && NoneRenumbers(ss, mailbox) && OthersOrderly(States(qs), us, ss, truth)
            && forall s | s in us :: ReportsTruly(s, mailbox, mail)
  {
    var us := Statements(qs, ss, mailbox, maxAttempts);
    hide OnlyIntrusions, Peaceful, CanStep, Pass, States, Statements, OrderlyAt, ReportsTruly, Renumbers;
    forall i: nat | i < |ss|
      ensures !Renumbers(ss[i], mailbox) && ReportsTruly(us[i], mailbox, mail)
      ensures ss[i].Meanwhile? ==> OrderlyAt(States(qs), us, truth, i)
    {
      IntrusionIsPeaceful(qs, ss, mailbox, maxAttempts, intrusions, truth, mail, i);
    }
  }

  lemma BodiesAreTruthful(q: Queue, truth: Id -> Content, mail: Uid -> Content)
    requires BodiesTrue(q, mail) && NamesTrue(q.names, truth, mail)
    ensures Truthful(q.bodies, truth)
  {
  }

  lemma ExtendedAgrees(t0: Tables, truth: Id -> Content, q: Queue, mailbox: Id, mail: Uid -> Content)
    requires Integrity(t0, truth)
    ensures Integrity(t0, Extended(truth, t0, q, mailbox, mail))
  {
    hide Tables.DigestsUnique, Tables.UidsUnique, BlobsPresent, AccountsAgree, OwnContent, OwnPlaceholder;
    IntegrityAgrees(t0, truth, Extended(truth, t0, q, mailbox, mail));
  }

  /** What is right before a pass is right after it: the content of every row, the message each
      row stands for, the sizes of the stand-ins; and each size its claims reported is true. */
  lemma PassDelivers(qs: seq<Queue>, ss: seq<Step>, mailbox: Id, maxAttempts: nat, stale: set<Id>,
                     intrusions: seq<Statement>, truth: Id -> Content, mail: Uid -> Content)
    requires Pass(qs, ss, mailbox, maxAttempts) && Start(qs[0], mailbox, stale)
    requires OnlyIntrusions(ss, intrusions) && Peaceful(intrusions, mailbox, mail) && BodiesTrue(qs[|ss|], mail)
    requires Integrity(qs[0].db, truth) && RowsTrue(qs[0].db, mailbox, truth, mail)
    requires StandInsSized(qs[0].db, mailbox, mail)
    ensures var q := qs[|ss|];
            var truth' := Extended(truth, qs[0].db, q, mailbox, mail);
            && Integrity(q.db, truth') && RowsTrue(q.db, mailbox, truth', mail) && StandInsSized(q.db, mailbox, mail)
            && TrueSizes(q.records, mail) && NamesHold(q.db, q.names, mailbox) && NamesKept(q.db, q.names)
            && Filed(q)
  {
    var n, q0, q := |ss|, qs[0], qs[|ss|];
    var ts, us := States(qs), Statements(qs, ss, mailbox, maxAttempts);
    var truth' := Extended(truth, q0.db, q, mailbox, mail);
    IntrusionsArePeaceful(qs, ss, mailbox, maxAttempts, intrusions, truth', mail);
    ClaimsAreFiled(qs, ss, mailbox, maxAttempts, stale, n);
    hide Pass, CanStep, Next, Start, Integrity, RowsTrue, StandInsSized, NamesHold, NamesKept, Filed, NamesTrue,
         BodiesTrue, Truthful, OthersOrderly, NoneRenumbers, Run, Orderly, States, Statements, Extended,
         ReportsTruly, OldNames;
    NamesAreTrue(qs, ss, mailbox, maxAttempts, stale, truth, mail);
    ExtendedIsTrue(truth, q0.db, q, mailbox, mail);
    ExtendedAgrees(q0.db, truth, q, mailbox, mail);
    BodiesAreTruthful(q, truth', mail);
    PassIsOrderly(qs, ss, mailbox, maxAttempts, stale, truth');
    IntegrityHolds(ts, us, truth', n);
    RunKeepsSizes(ts, us, mailbox, mail, n);
    RecordsAreTrue(qs, ss, mailbox, maxAttempts, stale, truth', mail);
  }

  /** A downloaded row shows the message of its UID. */
  ghost predicate ShowsMail(t: Tables, mailbox: Id, mail: Uid -> Content) {
    forall r | r in t.rows && t.rows[r].mailbox == mailbox && t.rows[r].state == Stored && Live(t.rows[r]) ::
      t.rows[r].message in t.messages && t.messages[t.rows[r].message].blob == Some(mail(t.rows[r].uid.value))
  }

  lemma StoredShowsMail(t: Tables, truth: Id -> Content, mailbox: Id, mail: Uid -> Content)
    requires Integrity(t, truth) && RowsTrue(t, mailbox, truth, mail)
    ensures ShowsMail(t, mailbox, mail)
  {
    hide Tables.DigestsUnique, Tables.UidsUnique, AccountsAgree;
    forall r | r in t.rows && t.rows[r].mailbox == mailbox && t.rows[r].state == Stored && Live(t.rows[r])
      ensures t.rows[r].message in t.messages && t.messages[t.rows[r].message].blob == Some(mail(t.rows[r].uid.value))
    {
      assert OwnContent(t, truth, r);
    }
  }

  /** Beyond those of old, rows are too large only for messages that are. */
  ghost predicate OnlyReallyLarge(t: Tables, mailbox: Id, mail: Uid -> Content, maxSize: int, were: set<Id>) {
    forall r | r in InState(t, mailbox, TooLarge) ::
      r in were || (Live(t.rows[r]) && |mail(t.rows[r].uid.value)| > maxSize)
  }

  lemma AboveIsReallyLarge(q: Queue, mailbox: Id, mail: Uid -> Content, maxSize: int, were: set<Id>)
    requires TrueSizes(q.records, mail) && NamesKept(q.db, q.names) && Filed(q)
    requires forall r | r in InState(q.db, mailbox, TooLarge) :: r in were + RowsAbove(q.records, maxSize)
    ensures OnlyReallyLarge(q.db, mailbox, mail, maxSize, were)
  {
    forall r | r in InState(q.db, mailbox, TooLarge) && r !in were
      ensures Live(q.db.rows[r]) && |mail(q.db.rows[r].uid.value)| > maxSize
    {
      var c :| c in q.records && c.size > maxSize && c.row == r;
      assert q.names[r] == c.uid;
    }
  }

  lemma WorkerDelivers(worker: BodyWorker, truth: Id -> Content)
    requires worker.Logged() && worker.honest && Peaceful(worker.intrusions, worker.mailbox, worker.mail)
    requires Integrity(worker.first.db, truth) && RowsTrue(worker.first.db, worker.mailbox, truth, worker.mail)
    requires StandInsSized(worker.first.db, worker.mailbox, worker.mail)
    ensures var t, truth' := worker.store.View(),
                             Extended(truth, worker.first.db, worker.queue, worker.mailbox, worker.mail);
            && Integrity(t, truth') && RowsTrue(t, worker.mailbox, truth', worker.mail)
            && StandInsSized(t, worker.mailbox, worker.mail) && TrueSizes(worker.queue.records, worker.mail)
            && worker.queue.db == t && NamesKept(t, worker.queue.names) && Filed(worker.queue)
  {
    hide Start, AllSpared, CanStep, Next, Inv, WithinBudget, LargeIffMarked, Integrity, RowsTrue, StandInsSized,
         Peaceful, OnlyIntrusions, BodiesTrue, Extended, NamesKept, Filed, Named, ReapsOlder, Remaining,
         Claims.RowsFor;
    PassDelivers(worker.queues, worker.steps, worker.mailbox, worker.maxAttempts, worker.stale, worker.intrusions,
                 truth, worker.mail);
  }

  // ---------------------------------------------------------------- every message arrives

  /** The row is still there under its UID, and its message is stored, or too large if it is above
      the limit; without exact it may be too large for another's sake. */
  ghost predicate Arrived(t0: Tables, t: Tables, r: Id, mail: Uid -> Content, maxSize: int, exact: bool) {
    && r in t0.rows && t0.rows[r].uid.Some? && r in t.rows && t.rows[r].uid == t0.rows[r].uid
    && (t.rows[r].state == Stored || t.rows[r].state == TooLarge)
    && (exact ==> (t.rows[r].state == TooLarge <==> 0 < maxSize < |mail(t0.rows[r].uid.value)|))
  }

  lemma RowWaits(worker: BodyWorker, r: Id)
    requires worker.Logged() && r in worker.first.db.rows
    requires worker.first.db.Claimable(r, worker.mailbox, worker.maxAttempts)
    ensures Recovery.Waiting(worker.queue, worker.mailbox, worker.first.db.rows[r].attempts, r)
  {
    hide AllSpared, CanStep, Next, BodyWorker.Sound, OnlyIntrusions, ReapsOlder, Remaining, Claims.RowsFor,
         Queue.Table, Tables.DigestsUnique, Tables.UidsUnique;
    assert Recovery.Waiting(worker.first, worker.mailbox, worker.first.db.rows[r].attempts, r);
    Recovery.PassKeepsWaiting(worker.queues, worker.steps, worker.mailbox, worker.maxAttempts, worker.stale,
                              worker.first.db.rows[r].attempts, r, |worker.steps|);
  }

  lemma RowStays(worker: BodyWorker, r: Id)
    requires worker.Logged() && AllGentle(worker.intrusions, worker.mailbox, worker.present)
    requires r in worker.first.db.rows && worker.first.db.rows[r].mailbox == worker.mailbox
    ensures var t := worker.store.View();
            r in t.rows && t.rows[r].mailbox == worker.mailbox && t.rows[r].uid == worker.first.db.rows[r].uid
  {
    hide AllSpared, CanStep, Next, BodyWorker.Sound, Start, OnlyIntrusions, ReapsOlder, Remaining, Claims.RowsFor,
         Queue.Table, AllGentle;
    PassKeepsRows(worker.queues, worker.steps, worker.mailbox, worker.maxAttempts, worker.intrusions, worker.present,
                  |worker.steps|);
  }

  lemma ClaimedHasRecord(worker: BodyWorker, r: Id) returns (c: Record)
    requires worker.Logged() && r in worker.queue.claimed
    ensures c in worker.queue.records && c.row == r
  {
    hide AllSpared, CanStep, Next, BodyWorker.Sound, Start, OnlyIntrusions, ReapsOlder, Remaining, Claims.RowsFor,
         Queue.Table;
    ClaimedIsRecorded(worker.queues, worker.steps, worker.mailbox, worker.maxAttempts, worker.stale, |worker.steps|, r);
    c :| c in worker.queue.records && c.row == r;
  }

  /** What the queue's sets say of a row that is there. */
  lemma SettledStates(worker: BodyWorker, c: Record, exact: bool)
    requires worker.Logged() && Settled(c, worker.queue, worker.maxSize, exact)
    requires c.row in worker.store.View().rows && worker.store.View().rows[c.row].mailbox == worker.mailbox
    ensures var state := worker.store.View().rows[c.row].state;
            && (state == Stored || state == TooLarge)
            && (exact ==> (state == TooLarge <==> 0 < worker.maxSize < c.size))
  {
    hide BodyWorker.Recorded, WithinBudget, Named, BodiesTrue, Linear, OwnedAreFetching, Conserved, Accounted,
         ReapsOlder, Remaining, Claims.RowsFor, Queue.Table, Queue.Owned, Tables.Constraints;
  }

  lemma RowArrives(worker: BodyWorker, r: Id, exact: bool)
    requires worker.Logged() && AllGentle(worker.intrusions, worker.mailbox, worker.present)
    requires worker.first.db.Claimable(r, worker.mailbox, worker.maxAttempts)
    requires !worker.store.View().Claimable(r, worker.mailbox, worker.maxAttempts)
    requires AllSettled(worker.queue.records, worker.queue, worker.maxSize, exact)
    requires TrueSizes(worker.queue.records, worker.mail) && NamesKept(worker.store.View(), worker.queue.names)
    requires worker.queue.db == worker.store.View() && Filed(worker.queue)
    ensures Arrived(worker.first.db, worker.store.View(), r, worker.mail, worker.maxSize, exact)
  {
    RowStays(worker, r);
    RowWaits(worker, r);
    hide BodyWorker.Logged, AllGentle, Settled;
    if r !in worker.queue.claimed {
      assert false;
    }
    var c := ClaimedHasRecord(worker, r);
    assert Settled(c, worker.queue, worker.maxSize, exact);
    SettledStates(worker, c, exact);
  }

  lemma AllArrive(worker: BodyWorker, locked: nat -> set<Id>, sweeps: nat, exact: bool)
    requires worker.Logged() && AllGentle(worker.intrusions, worker.mailbox, worker.present)
    requires forall r | worker.store.View().Claimable(r, worker.mailbox, worker.maxAttempts) :: r in locked(sweeps)
    requires AllSettled(worker.queue.records, worker.queue, worker.maxSize, exact)
    requires TrueSizes(worker.queue.records, worker.mail) && NamesKept(worker.store.View(), worker.queue.names)
    requires worker.queue.db == worker.store.View() && Filed(worker.queue)
    ensures forall r | worker.first.db.Claimable(r, worker.mailbox, worker.maxAttempts) && NeverLocked(r, locked) ::
              Arrived(worker.first.db, worker.store.View(), r, worker.mail, worker.maxSize, exact)
  {
    hide BodyWorker.Logged, AllGentle, AllSettled, TrueSizes, NamesKept, Filed, Arrived, Tables.Claimable;
    forall r | worker.first.db.Claimable(r, worker.mailbox, worker.maxAttempts) && NeverLocked(r, locked)
      ensures Arrived(worker.first.db, worker.store.View(), r, worker.mail, worker.maxSize, exact)
    {
      RowArrives(worker, r, exact);
    }
  }

  ghost predicate NeverLocked(r: Id, locked: nat -> set<Id>) {
    forall n: nat :: r !in locked(n)
  }

  /** One pass over a mailbox with an honest server, in which the metadata pass reports true sizes
      and does not renumber. Whatever else happens: afterwards every row's content is right and
      every downloaded row shows the message of its UID; under settings that keep the sizes
      apart, a row has become too large only for a message above the limit; and what the next
      pass needs to know of the tables holds again.

      And if no database call fails, the metadata pass takes nothing away, and every attempt brings
      what the server has, then nothing is broken and every row that was waiting to be
      downloaded has its message stored, or is too large because its message is. */
  method DownloadMailbox(store: Store.Store, table: ClaimTable, wire: Wire, mailbox: Id, maxAttempts: nat, maxSize: int,
                         faults: seq<Option<bool>>, meanwhile: seq<Statement>, limit: nat, locked: nat -> set<Id>,
                         budget: Planner.BatchBudget, attempts: int, clock: nat -> nat, ghost began: nat,
                         ghost mail: Uid -> Content, ghost present: set<Uid>, ghost truth: Id -> Content)
    returns (ok: bool, broken: bool, ghost truth': Id -> Content, ghost sweeps: nat)
    requires Integrity(store.View(), truth) && RowsTrue(store.View(), mailbox, truth, mail)
    requires StandInsSized(store.View(), mailbox, mail) && wire.Honest(mail)
    requires Peaceful(meanwhile, mailbox, mail) && ReapsOlder(meanwhile, began) && forall n: nat :: clock(n) >= began
    modifies store, table, wire
    ensures Integrity(store.View(), truth') && RowsTrue(store.View(), mailbox, truth', mail)
    ensures forall r | r in old(store.View()).rows :: truth'(r) == truth(r)
    ensures StandInsSized(store.View(), mailbox, mail) && wire.Honest(mail)
    ensures ShowsMail(store.View(), mailbox, mail)
    ensures Oversize.KeepsApart(budget, maxSize) ==>
              OnlyReallyLarge(store.View(), mailbox, mail, maxSize, InState(old(store.View()), mailbox, TooLarge))
    ensures ok && limit > 0 ==> forall r | store.View().Claimable(r, mailbox, maxAttempts) :: r in locked(sweeps)
    ensures faults == [] && AllGentle(meanwhile, mailbox, present) ==> ok
    ensures && faults == [] && AllGentle(meanwhile, mailbox, present) && old(wire.Generous(present))
            && old(store.View()).UidsOf(mailbox) <= present && limit > 0 ==>
              && !broken
              && forall r | old(store.View()).Claimable(r, mailbox, maxAttempts) && NeverLocked(r, locked) ::
                   Arrived(old(store.View()), store.View(), r, mail, maxSize, Oversize.KeepsApart(budget, maxSize))
  {
    hide BodyWorker.Logged, RowsTrue, StandInsSized, Wire.Honest, Wire.Generous, Oversize.KeepsApart, Peaceful,
         ReapsOlder, InState, Tables.Claimable, TrueSizes, RowsAbove, NamesKept, Filed, ShowsMail, OnlyReallyLarge,
         OwnContent, OwnPlaceholder, AccountsAgree, BlobsPresent, Tables.DigestsUnique, Tables.UidsUnique,
         Claims.RowsFor, AllGentle, AllSettled, Arrived, NeverLocked, Tables.UidsOf;
    ghost var t0, full := store.View(),
                          faults == [] && AllGentle(meanwhile, mailbox, present) && wire.Generous(present)
                          && store.View().UidsOf(mailbox) <= present && limit > 0;
    var worker := new BodyWorker(store, table, wire, mailbox, maxAttempts, maxSize, faults, meanwhile, began, mail,
                                 true, present);
    ok, broken, sweeps := worker.Run(limit, locked, budget, attempts, clock);
    WorkerDelivers(worker, truth);
    truth' := Extended(truth, t0, worker.queue, mailbox, mail);
    StoredShowsMail(store.View(), truth', mailbox, mail);
    if Oversize.KeepsApart(budget, maxSize) {
      AboveIsReallyLarge(worker.queue, mailbox, mail, maxSize, InState(t0, mailbox, TooLarge));
    }
    if full {
      assert worker.queue.records - {} == worker.queue.records;
      AllArrive(worker, locked, sweeps, Oversize.KeepsApart(budget, maxSize));
    }
  }
}
