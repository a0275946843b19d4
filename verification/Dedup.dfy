/** Content deduplication: placeholders, repointing and guarded deletion.

    truth(r) is the message a row stands for: what the server will send for the row's
    mailbox and UID. It never changes over the life of the row. */
module Dedup {
  import opened Wrappers
  import opened Tables

  /** A row the server can still be asked about. */
  predicate Live(row: Row) {
    row.uid.Some?
  }

  ghost function DigestOf(t: Tables, r: Id): Digest
    requires t.Linked() && r in t.rows
  {
    t.messages[t.rows[r].message].digest
  }

  ghost predicate AccountsAgree(t: Tables)
    requires t.Linked()
  {
    forall r | r in t.rows :: t.messages[t.rows[r].message].account == t.mailboxes[t.rows[r].mailbox].account
  }

  /** A real digest comes with the stored object it was computed from. */
  ghost predicate BlobsPresent(t: Tables) {
    forall m | m in t.messages && t.messages[m].digest.Sha256? ::
      && t.messages[m].blob == Some(t.messages[m].digest.content)
      && t.messages[m].size == |t.messages[m].digest.content|
  }

  /** A stored row shows its own content; a live row shows that or its own stand-in. */
  ghost predicate OwnContent(t: Tables, truth: Id -> Content, r: Id)
    requires t.Linked() && r in t.rows
  {
    var row := t.rows[r];
    && (row.state == Stored ==> DigestOf(t, r) == Sha256(truth(r)))
    && (row.state != Stored && Live(row) ==>
          DigestOf(t, r) == Sha256(truth(r)) || DigestOf(t, r) == Placeholder(row.mailbox, row.uid.value))
  }

  /** A stand-in is referenced only from the mailbox and UID it was made for. */
  ghost predicate OwnPlaceholder(t: Tables, r: Id)
    requires t.Linked() && r in t.rows
  {
    DigestOf(t, r).Placeholder? ==>
      && DigestOf(t, r).mailbox == t.rows[r].mailbox
      && (Live(t.rows[r]) ==> t.rows[r].uid == Some(DigestOf(t, r).uid))
  }

  ghost predicate Integrity(t: Tables, truth: Id -> Content) {
    && t.Constraints()
    && AccountsAgree(t)
    && BlobsPresent(t)
    && forall r | r in t.rows :: OwnContent(t, truth, r) && OwnPlaceholder(t, r)
  }

  // ---------------------------------------------------------------- attaching one body

  /** Attaching r may write over the message row it shares only if nobody else depends on it. */
  ghost predicate AttachSafe(t: Tables, truth: Id -> Content, r: Id)
    requires t.Linked() && r in t.rows
  {
    var row := t.rows[r];
    || Live(row)
    || row.state == Stored
    || t.MessageElsewhere(t.messages[row.message].account, Sha256(truth(r)), row.message).Some?
    || forall o | o in t.rows && o != r && t.rows[o].message == row.message
                  && (Live(t.rows[o]) || t.rows[o].state == Stored) :: truth(o) == truth(r)
  }

  /** What AttachBody does to the rows. */
  lemma AttachRows(t: Tables, content: Content, r: Id)
    requires t.Constraints() && r in t.rows
    ensures t.Attach(r, content).Some?
    ensures var t' := t.Attach(r, content).value;
            && t'.Constraints() && t'.mailboxes == t.mailboxes && t'.rows.Keys == t.rows.Keys
            && t'.rows[r] == t.rows[r].(state := Stored, claimedAt := None, message := t'.rows[r].message)
            && (forall o | o in t.rows && o != r :: t'.rows[o] == t.rows[o])
  {
    AttachKeepsConstraints(t, r, content);
  }

  /** What AttachBody does to the messages the rows refer to: only the row's own old
      message can change, and only when the content is not stored elsewhere. */
  lemma AttachMessages(t: Tables, content: Content, r: Id)
    requires t.Constraints() && r in t.rows
    ensures var t' := t.Attach(r, content).value;
            var was := t.rows[r].message;
            && t'.rows[r].message in t'.messages
            && t'.messages[t'.rows[r].message].digest == Sha256(content)
            && t'.messages[t'.rows[r].message].account == t.messages[was].account
            && t'.messages.Keys <= t.messages.Keys
            && (forall m | m in t'.messages && m != was :: t'.messages[m] == t.messages[m])
            && (was in t'.messages ==>
                  || t'.messages[was] == t.messages[was]
                  || t'.messages[was] == Message(t.messages[was].account, Sha256(content), |content|, Some(content)))
            && (was in t'.messages && t.MessageElsewhere(t.messages[was].account, Sha256(content), was).Some? ==>
                  t'.messages[was] == t.messages[was])
            && (t.MessageElsewhere(t.messages[was].account, Sha256(content), was).None? ==>
                  was in t'.messages && t'.messages[was].digest == Sha256(content))
  {
  }

  lemma AttachKeepsBlobs(t: Tables, truth: Id -> Content, r: Id)
    requires Integrity(t, truth) && r in t.rows && t.Attach(r, truth(r)).Some?
    ensures BlobsPresent(t.Attach(r, truth(r)).value)
  {
    AttachMessages(t, truth(r), r);
    hide Tables.Attach, OwnContent, OwnPlaceholder, Tables.DigestsUnique, Tables.UidsUnique;
  }

  lemma AttachKeepsAccounts(t: Tables, truth: Id -> Content, r: Id)
    requires Integrity(t, truth) && r in t.rows && t.Attach(r, truth(r)).Some?
    ensures var t' := t.Attach(r, truth(r)).value; t'.Linked() && AccountsAgree(t')
  {
    AttachRows(t, truth(r), r);
    AttachMessages(t, truth(r), r);
    hide Tables.Attach, OwnContent, OwnPlaceholder, Tables.DigestsUnique, Tables.UidsUnique, BlobsPresent;
    var t' := t.Attach(r, truth(r)).value;
    forall o | o in t'.rows
      ensures t'.messages[t'.rows[o].message].account == t'.mailboxes[t'.rows[o].mailbox].account
    {
      assert t.messages[t.rows[o].message].account == t.mailboxes[t.rows[o].mailbox].account;
    }
  }

  /** What AttachBody does to the tables, told from outside. */
  lemma AttachEffect(t: Tables, truth: Id -> Content, r: Id)
    requires Integrity(t, truth) && r in t.rows
    ensures t.Attach(r, truth(r)).Some?
    ensures var t' := t.Attach(r, truth(r)).value;
            && t'.Constraints() && t'.mailboxes == t.mailboxes
            && t'.rows.Keys == t.rows.Keys
            && t'.rows[r].state == Stored && DigestOf(t', r) == Sha256(truth(r))
            && t'.rows[r].uid == t.rows[r].uid && t'.rows[r].mailbox == t.rows[r].mailbox
            && (forall o | o in t.rows && o != r :: t'.rows[o] == t.rows[o])
            && (forall o | o in t.rows && o != r && t.rows[o].message != t.rows[r].message ::
                  t'.messages[t'.rows[o].message] == t.messages[t.rows[o].message])
            && AccountsAgree(t') && BlobsPresent(t')
  {
    AttachRows(t, truth(r), r);
    AttachMessages(t, truth(r), r);
    AttachKeepsBlobs(t, truth, r);
    AttachKeepsAccounts(t, truth, r);
    hide Tables.Attach, OwnContent, OwnPlaceholder, Tables.DigestsUnique, Tables.UidsUnique, BlobsPresent,
         AccountsAgree;
  }

  /** A row whose content is pinned down: live, or already stored. */
  ghost predicate Pinned(t: Tables, r: Id) {
    r in t.rows && (Live(t.rows[r]) || t.rows[r].state == Stored)
  }

  lemma SharersOfLiveRow(t: Tables, truth: Id -> Content, r: Id, o: Id)
    requires Integrity(t, truth) && r in t.rows && o in t.rows && o != r
    requires t.rows[o].message == t.rows[r].message && Pinned(t, r)
    ensures DigestOf(t, r) == Sha256(truth(r)) || (!Live(t.rows[o]) && t.rows[o].state != Stored)
  {
    assert OwnContent(t, truth, r) && OwnContent(t, truth, o) && OwnPlaceholder(t, r) && OwnPlaceholder(t, o);
  }

  lemma SafeAttachKeepsRow(t: Tables, truth: Id -> Content, r: Id, o: Id)
    requires Integrity(t, truth) && r in t.rows && AttachSafe(t, truth, r) && o in t.rows
    ensures t.Attach(r, truth(r)).Some?
    ensures var t' := t.Attach(r, truth(r)).value;
            t'.Linked() && o in t'.rows && OwnContent(t', truth, o) && OwnPlaceholder(t', o)
  {
    AttachEffect(t, truth, r);
    AttachMessages(t, truth(r), r);
    assert OwnContent(t, truth, o) && OwnPlaceholder(t, o);
    if o != r && t.rows[o].message == t.rows[r].message && Pinned(t, r) {
      SharersOfLiveRow(t, truth, r, o);
    }
  }

  lemma UnsafeAttachBreaksARow(t: Tables, truth: Id -> Content, r: Id) returns (o: Id)
    requires Integrity(t, truth) && r in t.rows && !AttachSafe(t, truth, r)
    ensures t.Attach(r, truth(r)).Some?
    ensures var t' := t.Attach(r, truth(r)).value;
            t'.Linked() && o in t'.rows && !OwnContent(t', truth, o)
  {
    AttachEffect(t, truth, r);
    AttachMessages(t, truth(r), r);
    o :| o in t.rows && o != r && t.rows[o].message == t.rows[r].message
         && (Live(t.rows[o]) || t.rows[o].state == Stored) && truth(o) != truth(r);
  }

  /** AttachBody keeps every row's content right exactly when it is safe: always for a row
      whose upstream UID is still set. */
  lemma AttachKeepsIntegrityIffSafe(t: Tables, truth: Id -> Content, r: Id)
    requires Integrity(t, truth) && r in t.rows
    ensures t.Attach(r, truth(r)).Some?
    ensures Integrity(t.Attach(r, truth(r)).value, truth) <==> AttachSafe(t, truth, r)
  {
    AttachEffect(t, truth, r);
    hide OwnContent, OwnPlaceholder, Tables.Attach, AttachSafe;
    if AttachSafe(t, truth, r) {
      forall o | o in t.rows {
        SafeAttachKeepsRow(t, truth, r, o);
      }
    } else {
      var o := UnsafeAttachBreaksARow(t, truth, r);
    }
  }

  /** Enumerating a UID whose stand-in still exists reuses it. */
  lemma UpsertReusesPlaceholder(t: Tables, m: Meta, was: Id)
    requires t.Constraints() && m.mailbox in t.mailboxes && was in t.messages
    requires t.messages[was].account == t.mailboxes[m.mailbox].account
    requires t.messages[was].digest == Placeholder(m.mailbox, m.uid)
    requires t.RowWith(m.mailbox, m.uid).None?
    ensures var t' := t.Upsert(m).0;
            && t'.messages == t.messages
            && t.nextRow !in t.rows && t.nextRow in t'.rows
            && t'.rows[t.nextRow].message == was && Live(t'.rows[t.nextRow])
            && (forall o | o in t.rows :: o in t'.rows && t'.rows[o] == t.rows[o])
  {
    UpsertEffect(t, m);
    assert t.MessageWith(t.mailboxes[m.mailbox].account, Placeholder(m.mailbox, m.uid)) == Some(was);
  }

  lemma AccountOf(t: Tables, r: Id)
    requires t.Linked() && AccountsAgree(t) && r in t.rows
    ensures t.messages[t.rows[r].message].account == t.mailboxes[t.rows[r].mailbox].account
  {
  }

  /** Why a download must not outlive the run that claimed it: if the server renumbers the
      mailbox and its UID is enumerated again before the bytes arrive, both rows sit on the
      same stand-in, and attaching the old one is unsafe. */
  lemma RenumberingMakesInFlightAttachUnsafe(t: Tables, truth: Id -> Content, r: Id, m: Meta, uidValidity: nat)
    requires Integrity(t, truth) && r in t.rows && t.rows[r].state != Stored
    requires t.rows[r].uid == Some(m.uid) && t.rows[r].mailbox == m.mailbox
    requires DigestOf(t, r) == Placeholder(m.mailbox, m.uid)
    requires t.MessageElsewhere(t.messages[t.rows[r].message].account, Sha256(truth(r)), t.rows[r].message).None?
    requires truth(t.nextRow) != truth(r)
    ensures AttachSafe(t, truth, r)
    ensures var t' := t.Reset(m.mailbox, uidValidity).Upsert(m).0;
            t'.Linked() && r in t'.rows && !AttachSafe(t', truth, r)
  {
    hide OwnContent, OwnPlaceholder, BlobsPresent, AccountsAgree, Tables.Upsert, Tables.Reset, Tables.DigestsUnique,
         Tables.UidsUnique, AttachSafe;
    AccountOf(t, r);
    ResetForgets(t, r, m, uidValidity);
    UpsertKeepsConstraints(t.Reset(m.mailbox, uidValidity), m);
    UpsertReusesPlaceholder(t.Reset(m.mailbox, uidValidity), m, t.rows[r].message);
    assert Live(t.rows[r]);
    LiveIsSafe(t, truth, r);
    SharedIsUnsafe(t.Reset(m.mailbox, uidValidity).Upsert(m).0, truth, r, t.nextRow);
  }

  lemma ResetForgets(t: Tables, r: Id, m: Meta, uidValidity: nat)
    requires t.Constraints() && r in t.rows && t.rows[r].mailbox == m.mailbox
    ensures var t' := t.Reset(m.mailbox, uidValidity);
            && t'.Constraints() && t'.messages == t.messages && t'.nextRow == t.nextRow && m.mailbox in t'.mailboxes
            && t'.mailboxes[m.mailbox].account == t.mailboxes[m.mailbox].account
            && r in t'.rows && t'.rows[r] == t.rows[r].(uid := None, modSeq := None)
            && t'.RowWith(m.mailbox, m.uid).None?
  {
    MailboxStatementEffect(t, m.mailbox, Checkpoint(0, 0, 0, 0, false), uidValidity);
    RowUpdatesKeepConstraints(t, t.Reset(m.mailbox, uidValidity));
    hide Tables.Constraints;
    assert t.Reset(m.mailbox, uidValidity).RowWith(m.mailbox, m.uid).None?;
  }

  lemma LiveIsSafe(t: Tables, truth: Id -> Content, r: Id)
    requires t.Linked() && r in t.rows && Live(t.rows[r])
    ensures AttachSafe(t, truth, r)
  {
  }

  /** A row without a UID shares its stand-in with a live row of other content. */
  lemma SharedIsUnsafe(t: Tables, truth: Id -> Content, r: Id, o: Id)
    requires t.Linked() && r in t.rows && o in t.rows && o != r && t.rows[o].message == t.rows[r].message
    requires !Live(t.rows[r]) && t.rows[r].state != Stored && Live(t.rows[o]) && truth(o) != truth(r)
    requires t.MessageElsewhere(t.messages[t.rows[r].message].account, Sha256(truth(r)), t.rows[r].message).None?
    ensures !AttachSafe(t, truth, r)
  {
  }

  // ---------------------------------------------------------------- every statement

  /** A row whose message did not change keeps its integrity. */
  lemma SameMessage(t: Tables, t': Tables, truth: Id -> Content, r: Id)
    requires t.Linked() && t'.Linked() && r in t.rows && r in t'.rows
    requires OwnContent(t, truth, r) && OwnPlaceholder(t, r)
    requires t'.rows[r].mailbox == t.rows[r].mailbox && t'.rows[r].message == t.rows[r].message
    requires t'.rows[r].uid == t.rows[r].uid || t'.rows[r].uid == None
    requires t'.rows[r].state == Stored ==> t.rows[r].state == Stored
    requires t'.messages[t'.rows[r].message] == t.messages[t.rows[r].message]
    ensures OwnContent(t', truth, r) && OwnPlaceholder(t', r)
  {
  }

  lemma NewRow(t: Tables, truth: Id -> Content, r: Id, m: Meta)
    requires t.Linked() && r in t.rows
    requires t.rows[r].mailbox == m.mailbox && t.rows[r].uid == Some(m.uid) && t.rows[r].state == Pending
    requires DigestOf(t, r) == Placeholder(m.mailbox, m.uid)
    ensures OwnContent(t, truth, r) && OwnPlaceholder(t, r)
  {
  }

  lemma UpsertKeepsOldRow(t: Tables, truth: Id -> Content, m: Meta, r: Id)
    requires Integrity(t, truth) && m.mailbox in t.mailboxes && r in t.rows
    ensures var t' := t.Upsert(m).0;
            && t'.Linked() && r in t'.rows
            && OwnContent(t', truth, r) && OwnPlaceholder(t', r)
            && t'.messages[t'.rows[r].message].account == t'.mailboxes[t'.rows[r].mailbox].account
  {
    UpsertEffect(t, m);
    UpsertKeepsConstraints(t, m);
    assert OwnContent(t, truth, r) && OwnPlaceholder(t, r);
    hide Tables.Upsert, Tables.DigestsUnique, Tables.UidsUnique, OwnContent, OwnPlaceholder, BlobsPresent;
    var t' := t.Upsert(m).0;
    assert t.rows[r].message in t.messages;
    SameMessage(t, t', truth, r);
  }

  lemma UpsertMakesOwnRow(t: Tables, truth: Id -> Content, m: Meta, r: Id)
    requires t.Constraints() && m.mailbox in t.mailboxes && r in t.Upsert(m).0.rows && r !in t.rows
    ensures var t' := t.Upsert(m).0;
            && t'.Linked()
            && OwnContent(t', truth, r) && OwnPlaceholder(t', r)
            && t'.messages[t'.rows[r].message].account == t'.mailboxes[t'.rows[r].mailbox].account
  {
    UpsertEffect(t, m);
    UpsertKeepsConstraints(t, m);
    hide Tables.Upsert, Tables.DigestsUnique, Tables.UidsUnique, OwnContent, OwnPlaceholder;
    NewRow(t.Upsert(m).0, truth, r, m);
  }

  lemma UpsertKeepsRow(t: Tables, truth: Id -> Content, m: Meta, r: Id)
    requires Integrity(t, truth) && m.mailbox in t.mailboxes && r in t.Upsert(m).0.rows
    ensures var t' := t.Upsert(m).0;
            && t'.Linked()
            && OwnContent(t', truth, r) && OwnPlaceholder(t', r)
            && t'.messages[t'.rows[r].message].account == t'.mailboxes[t'.rows[r].mailbox].account
  {
    hide Tables.Upsert, Tables.Linked, OwnContent, OwnPlaceholder, BlobsPresent, AccountsAgree;
    if r in t.rows {
      UpsertKeepsOldRow(t, truth, m, r);
    } else {
      UpsertMakesOwnRow(t, truth, m, r);
    }
  }

  lemma UpsertKeepsIntegrity(t: Tables, truth: Id -> Content, m: Meta)
    requires Integrity(t, truth) && m.mailbox in t.mailboxes
    ensures Integrity(t.Upsert(m).0, truth)
  {
    UpsertKeepsConstraints(t, m);
    UpsertKeepsBlobs(t, t.Upsert(m).0, truth, m);
    hide OwnContent, OwnPlaceholder, Tables.Upsert, Tables.DigestsUnique, Tables.UidsUnique;
    forall r | r in t.Upsert(m).0.rows {
      UpsertKeepsRow(t, truth, m, r);
    }
  }

  lemma UpsertKeepsBlobs(t: Tables, t': Tables, truth: Id -> Content, m: Meta)
    requires Integrity(t, truth) && m.mailbox in t.mailboxes && t' == t.Upsert(m).0
    ensures BlobsPresent(t')
  {
    UpsertMessageKeepsConstraints(t, t.mailboxes[m.mailbox].account, Placeholder(m.mailbox, m.uid), m.size);
  }

  lemma RowUpdatesKeepIntegrity(t: Tables, t': Tables, truth: Id -> Content)
    requires Integrity(t, truth) && t'.Constraints() && OnlyRowUpdates(t, t')
    ensures Integrity(t', truth)
  {
    forall r | r in t'.rows
      ensures OwnContent(t', truth, r) && OwnPlaceholder(t', r)
    {
      SameMessage(t, t', truth, r);
    }
  }

  /** Bodies are attached with the content the server has for the row, to rows for which
      that is safe. */
  ghost predicate Faithful(t: Tables, s: Statement, truth: Id -> Content)
    requires t.Linked()
  {
    s.DoAttach? && s.row in t.rows ==> s.content == truth(s.row) && AttachSafe(t, truth, s.row)
  }

  lemma StatementKeepsIntegrity(t: Tables, s: Statement, truth: Id -> Content)
    requires Integrity(t, truth) && Enabled(t, s) && Faithful(t, s, truth)
    ensures Integrity(Apply(t, s), truth)
  {
    match s
    case DoUpsert(m) => UpsertKeepsIntegrity(t, truth, m);
    case DoAttach(r, content) =>
      if r in t.rows {
        AttachKeepsIntegrityIffSafe(t, truth, r);
      }
    case _ => OtherStatementKeepsIntegrity(t, s, truth);
  }

  lemma OtherStatementKeepsIntegrity(t: Tables, s: Statement, truth: Id -> Content)
    requires Integrity(t, truth) && Enabled(t, s) && !s.DoUpsert? && !s.DoAttach?
    ensures Integrity(Apply(t, s), truth)
  {
    OtherStatementEffect(t, s);
    RowUpdatesKeepConstraints(t, Apply(t, s));
    RowUpdatesKeepIntegrity(t, Apply(t, s), truth);
  }

  // ---------------------------------------------------------------- whole runs

  /** Row r of mailbox b still has its UID, or is gone for good: row ids are not issued twice. */
  predicate StillNamed(t: Tables, r: Id, b: Id) {
    r < t.nextRow && (r in t.rows ==> t.rows[r].mailbox == b && Live(t.rows[r]))
  }

  lemma StatementKeepsName(t: Tables, s: Statement, r: Id, b: Id)
    requires t.Constraints() && Enabled(t, s) && StillNamed(t, r, b)
             && s != DoReset(b, if s.DoReset? then s.uidValidity else 0)
    ensures StillNamed(Apply(t, s), r, b)
  {
    if !s.DoReset? {
      OnlyResetRenames(t, s);
      hide Apply;
    }
  }

  /** A claim of row r at k, with no reset of its mailbox between then and i. */
  ghost predicate ClaimedAt(ts: seq<Tables>, ss: seq<Statement>, k: nat, i: nat, r: Id)
    requires k < i <= |ss| && |ts| == |ss| + 1
  {
    && ss[k].DoClaim? && r in ss[k].picked && r in ts[k].rows
    && forall j | k < j < i && ss[j].DoReset? :: ss[j].mailbox != ts[k].rows[r].mailbox
  }

  /** Bodies are attached with the content the server has for the row, and only under a claim
      that no renumbering of the mailbox has overtaken. */
  ghost predicate Orderly(ts: seq<Tables>, ss: seq<Statement>, truth: Id -> Content) {
    && |ts| == |ss| + 1
    && forall i | 0 <= i < |ss| && ss[i].DoAttach? && ss[i].row in ts[i].rows ::
         ss[i].content == truth(ss[i].row) && exists k :: 0 <= k < i && ClaimedAt(ts, ss, k, i, ss[i].row)
  }

  lemma {:induction false} ClaimedStaysNamed(ts: seq<Tables>, ss: seq<Statement>, k: nat, i: nat, r: Id)
    requires Run(ts, ss) && k < i <= |ss| && ClaimedAt(ts, ss, k, i, r)
    ensures r in ts[k].rows && StillNamed(ts[i], r, ts[k].rows[r].mailbox)
    decreases i
  {
    var b := ts[k].rows[r].mailbox;
    if i == k + 1 {
      assert ts[k].Claimable(r, ss[k].mailbox, ss[k].maxAttempts);
      assert StillNamed(ts[k], r, b);
    } else {
      ClaimedStaysNamed(ts, ss, k, i - 1, r);
    }
    hide StillNamed, Enabled, Apply, Tables.Constraints;
    StatementKeepsName(ts[i - 1], ss[i - 1], r, b);
  }

  /** An attach in an orderly run is safe: the row it writes still has its UID. */
  lemma OrderlyIsFaithful(ts: seq<Tables>, ss: seq<Statement>, truth: Id -> Content, i: nat)
    requires Run(ts, ss) && Orderly(ts, ss, truth) && i < |ss|
    ensures ts[i].Linked() && Faithful(ts[i], ss[i], truth)
  {
    hide Apply, Enabled;
    assert ts[i].Constraints();
    if ss[i].DoAttach? && ss[i].row in ts[i].rows {
      var k :| 0 <= k < i && ClaimedAt(ts, ss, k, i, ss[i].row);
      ClaimedStaysNamed(ts, ss, k, i, ss[i].row);
    }
  }

  /** In every orderly run the content of every row stays right. */
  lemma {:induction false} IntegrityHolds(ts: seq<Tables>, ss: seq<Statement>, truth: Id -> Content, n: nat)
    requires Run(ts, ss) && n < |ts| && Integrity(ts[0], truth) && Orderly(ts, ss, truth)
    ensures Integrity(ts[n], truth)
  {
    hide Integrity, Orderly, Faithful, Apply, Enabled;
    if n > 0 {
      IntegrityHolds(ts, ss, truth, n - 1);
      OrderlyIsFaithful(ts, ss, truth, n - 1);
      StatementKeepsIntegrity(ts[n - 1], ss[n - 1], truth);
    }
  }

  /** After any such run, two downloaded rows of an account share one message row
      exactly when they are the same message. */
  lemma SharedIffEqual(ts: seq<Tables>, ss: seq<Statement>, truth: Id -> Content, n: nat, a: Id, b: Id)
    requires Run(ts, ss) && n < |ts| && Integrity(ts[0], truth) && Orderly(ts, ss, truth)
    requires a in ts[n].rows && b in ts[n].rows && ts[n].rows[a].state == Stored && ts[n].rows[b].state == Stored
    requires ts[n].Linked()
    requires ts[n].mailboxes[ts[n].rows[a].mailbox].account == ts[n].mailboxes[ts[n].rows[b].mailbox].account
    ensures ts[n].rows[a].message == ts[n].rows[b].message <==> truth(a) == truth(b)
    ensures ts[n].messages[ts[n].rows[a].message].blob == Some(truth(a))
  {
    IntegrityHolds(ts, ss, truth, n);
    hide Orderly, Run;
    var t := ts[n];
    assert OwnContent(t, truth, a) && OwnContent(t, truth, b);
  }

  // ---------------------------------------------------------------- confluence

  ghost function AttachAll(t: Tables, truth: Id -> Content, order: seq<Id>): Tables
    decreases |order|
  {
    if order == [] then t
    else
      AttachOne(AttachAll(t, truth, order[..|order| - 1]), truth, order[|order| - 1])
  }

  /** One worker's AttachBody with the bytes the server sent; an error changes nothing. */
  ghost function AttachOne(t: Tables, truth: Id -> Content, r: Id): Tables {
    match t.Attach(r, truth(r)) case Some(t') => t' case None => t
  }

  lemma AttachStep(t: Tables, truth: Id -> Content, r: Id)
    requires Integrity(t, truth) && Pinned(t, r)
    ensures t.Attach(r, truth(r)).Some?
    ensures var t' := t.Attach(r, truth(r)).value;
            && Integrity(t', truth) && t.Linked() && t'.Linked() && t'.rows.Keys == t.rows.Keys
            && t'.mailboxes == t.mailboxes
            && t'.rows[r].state == Stored
            && (forall o | o in t.rows :: t'.rows[o].mailbox == t.rows[o].mailbox && t'.rows[o].uid == t.rows[o].uid)
            && (forall o | o in t.rows && o != r :: t'.rows[o] == t.rows[o])
            && (forall o | Pinned(t, o) && o != r :: DigestOf(t', o) == DigestOf(t, o))
  {
    AttachKeepsIntegrityIffSafe(t, truth, r);
    AttachEffect(t, truth, r);
    AttachMessages(t, truth(r), r);
    var t' := t.Attach(r, truth(r)).value;
    forall o | Pinned(t, o) && o != r
      ensures DigestOf(t', o) == DigestOf(t, o)
    {
      if t.rows[o].message == t.rows[r].message {
        SharersOfLiveRow(t, truth, r, o);
      }
    }
  }

  /** t' is t with the bodies of done attached: no row lost, exactly these stored, and the
      content of every other pinned row left alone. */
  ghost predicate Attached(t: Tables, t': Tables, truth: Id -> Content, done: set<Id>)
    requires Integrity(t, truth)
  {
    && Integrity(t', truth) && t.Linked() && t'.Linked()
    && t'.rows.Keys == t.rows.Keys && t'.mailboxes == t.mailboxes
    && (forall o | o in t.rows :: t'.rows[o].mailbox == t.rows[o].mailbox && t'.rows[o].uid == t.rows[o].uid)
    && (forall o | o in t.rows && o !in done :: t'.rows[o] == t.rows[o])
    && (forall o | o in t.rows && o in done :: t'.rows[o].state == Stored)
    && (forall o | Pinned(t, o) && o !in done :: DigestOf(t', o) == DigestOf(t, o))
  }

  lemma AttachOneMore(t: Tables, before: Tables, truth: Id -> Content, done: set<Id>, r: Id)
    requires Integrity(t, truth) && Attached(t, before, truth, done) && Pinned(t, r)
    ensures Attached(t, AttachOne(before, truth, r), truth, done + {r})
  {
    hide Integrity, Tables.Attach, Tables.Linked;
    PinnedStays(t, before, truth, done, r);
    AttachStep(before, truth, r);
    var after := before.Attach(r, truth(r)).value;
    forall o | Pinned(t, o) && o !in done + {r}
      ensures DigestOf(after, o) == DigestOf(t, o)
    {
      PinnedStays(t, before, truth, done, o);
    }
  }

  lemma PinnedStays(t: Tables, t': Tables, truth: Id -> Content, done: set<Id>, r: Id)
    requires Integrity(t, truth) && Attached(t, t', truth, done) && Pinned(t, r)
    ensures Pinned(t', r)
  {
  }

  ghost function Ids(order: seq<Id>): set<Id> {
    set r | r in order
  }

  lemma AttachedNothing(t: Tables, truth: Id -> Content)
    requires Integrity(t, truth)
    ensures Attached(t, t, truth, {})
  {
  }

  lemma {:induction false} AttachAllEffect(t: Tables, truth: Id -> Content, order: seq<Id>)
    requires Integrity(t, truth) && forall r | r in order :: Pinned(t, r)
    ensures Attached(t, AttachAll(t, truth, order), truth, Ids(order))
    decreases |order|
  {
    hide Integrity, Attached, AttachOne, Pinned;
    if order == [] {
      assert Ids(order) == {};
      AttachedNothing(t, truth);
    } else {
      var n := |order| - 1;
      AttachAllEffect(t, truth, order[..n]);
      assert AttachAll(t, truth, order) == AttachOne(AttachAll(t, truth, order[..n]), truth, order[n]);
      AttachOneMore(t, AttachAll(t, truth, order[..n]), truth, Ids(order[..n]), order[n]);
      assert Ids(order) == Ids(order[..n]) + {order[n]};
    }
  }

  /** Workers finish in no particular order, and it does not matter: every order leaves
      every live or stored row with the same digest and the same sharing. */
  lemma AttachOrderIsIrrelevant(t: Tables, truth: Id -> Content, p: seq<Id>, q: seq<Id>, a: Id, b: Id)
    requires Integrity(t, truth)
    requires forall r | r in p :: Pinned(t, r)
    requires forall r :: r in p <==> r in q
    requires Pinned(t, a) && Pinned(t, b)
    ensures var x, y := AttachAll(t, truth, p), AttachAll(t, truth, q);
            && Integrity(x, truth) && Integrity(y, truth) && a in x.rows && a in y.rows && b in x.rows && b in y.rows
            && x.rows[a].state == y.rows[a].state
            && DigestOf(x, a) == DigestOf(y, a)
            && (x.rows[a].message == x.rows[b].message <==> y.rows[a].message == y.rows[b].message)
  {
    var x, y := AttachAll(t, truth, p), AttachAll(t, truth, q);
    SameDigest(t, truth, p, q, a);
    SameDigest(t, truth, p, q, b);
    SharedIffSameDigest(x, a, b);
    SharedIffSameDigest(y, a, b);
  }

  lemma SameDigest(t: Tables, truth: Id -> Content, p: seq<Id>, q: seq<Id>, a: Id)
    requires Integrity(t, truth)
    requires forall r | r in p :: Pinned(t, r)
    requires forall r :: r in p <==> r in q
    requires Pinned(t, a)
    ensures Integrity(AttachAll(t, truth, p), truth) && a in AttachAll(t, truth, p).rows
    ensures Integrity(AttachAll(t, truth, q), truth) && a in AttachAll(t, truth, q).rows
    ensures AttachAll(t, truth, p).rows[a].state == AttachAll(t, truth, q).rows[a].state
    ensures AttachAll(t, truth, p).rows[a].mailbox == AttachAll(t, truth, q).rows[a].mailbox == t.rows[a].mailbox
    ensures AttachAll(t, truth, p).mailboxes == AttachAll(t, truth, q).mailboxes == t.mailboxes
    ensures DigestOf(AttachAll(t, truth, p), a) == DigestOf(AttachAll(t, truth, q), a)
  {
    AttachAllEffect(t, truth, p);
    AttachAllEffect(t, truth, q);
    var x, y := AttachAll(t, truth, p), AttachAll(t, truth, q);
    if a in p {
      assert OwnContent(x, truth, a) && OwnContent(y, truth, a);
    }
  }

  lemma SharedIffSameDigest(t: Tables, a: Id, b: Id)
    requires t.Constraints() && AccountsAgree(t) && a in t.rows && b in t.rows
    ensures t.rows[a].message == t.rows[b].message <==>
            (DigestOf(t, a) == DigestOf(t, b)
             && t.mailboxes[t.rows[a].mailbox].account == t.mailboxes[t.rows[b].mailbox].account)
  {
  }
}
