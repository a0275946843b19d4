/** One mailbox of the tables as the metadata pass sees it: which upstream UIDs are
    mirrored with which flags, how many rows have lost their UID, and the checkpoint. */
module Mirror {
  import opened Wrappers
  import opened Tables

  datatype Mirror = Mirror(
    flags: map<Uid, Flags>, orphans: nat,
    uidValidity: Option<nat>, uidNext: Option<nat>, highestModSeq: Option<nat>, watermark: nat)
  {
    function ModSeq(): nat {
      GetOr(highestModSeq, 0)
    }

    /** CountMailboxMessages. */
    function Count(): nat {
      |flags| + orphans
    }

    function Update(uid: Uid, f: Flags): Mirror {
      if uid in flags then this.(flags := flags[uid := f]) else this
    }

    function RecordOne(uid: Uid, f: Flags): Mirror {
      this.(flags := flags[uid := f])
    }

    function Record(found: map<Uid, Flags>): Mirror {
      this.(flags := flags + found)
    }

    function Keep(present: set<Uid>): Mirror {
      this.(flags := map u | u in flags && u in present :: flags[u])
    }

    function Save(c: Checkpoint): Mirror {
      var seen := this.(uidValidity := Some(c.uidValidity), watermark := Max(watermark, c.watermark));
      if c.completed
      then seen.(uidNext := Some(c.uidNext), highestModSeq := Some(Max(ModSeq(), c.highestModSeq)))
      else seen
    }

    function Reset(v: nat): Mirror {
      this.(flags := map[], orphans := Count(), uidValidity := Some(v), highestModSeq := Some(0), watermark := 0)
    }
  }

  predicate LiveAt(t: Tables, r: Id, mailbox: Id, u: Uid) {
    r in t.rows && t.rows[r].mailbox == mailbox && t.rows[r].uid == Some(u)
  }

  /** f is the mailbox's UIDs with the flags of their rows. */
  ghost predicate ShowsFlags(t: Tables, mailbox: Id, f: map<Uid, Flags>) {
    && (forall r, u | LiveAt(t, r, mailbox, u) :: u in f && f[u] == t.rows[r].flags)
    && (forall u | u in f :: exists r :: LiveAt(t, r, mailbox, u))
  }

  ghost function OrphansOf(t: Tables, mailbox: Id): set<Id> {
    set r | r in t.rows && t.rows[r].mailbox == mailbox && t.rows[r].uid.None?
  }

  ghost predicate ShowsColumns(t: Tables, mailbox: Id, m: Mirror) {
    && mailbox in t.mailboxes
    && t.mailboxes[mailbox].uidValidity == m.uidValidity && t.mailboxes[mailbox].uidNext == m.uidNext
    && t.mailboxes[mailbox].highestModSeq == m.highestModSeq && t.mailboxes[mailbox].watermark == m.watermark
  }

  /** m is what the tables hold about the mailbox. */
  ghost predicate Reflects(t: Tables, mailbox: Id, m: Mirror) {
    && t.Constraints()
    && ShowsFlags(t, mailbox, m.flags) && |OrphansOf(t, mailbox)| == m.orphans && ShowsColumns(t, mailbox, m)
  }

  // ---------------------------------------------------------------- reading

  lemma {:induction false} CountUids(t: Tables, mailbox: Id, ids: set<Id>)
    requires t.Constraints()
    requires forall r | r in ids :: r in t.rows && t.rows[r].mailbox == mailbox && t.rows[r].uid.Some?
    ensures |set r | r in ids :: t.rows[r].uid.value| == |ids|
    decreases |ids|
  {
    if ids != {} {
      var r :| r in ids;
      CountUids(t, mailbox, ids - {r});
      assert (set o | o in ids :: t.rows[o].uid.value)
          == (set o | o in ids - {r} :: t.rows[o].uid.value) + {t.rows[r].uid.value};
      assert forall o | o in ids - {r} :: t.rows[o].uid != t.rows[r].uid;
    }
  }

  lemma UidsAreShown(t: Tables, mailbox: Id, f: map<Uid, Flags>)
    requires ShowsFlags(t, mailbox, f)
    ensures t.UidsOf(mailbox) == f.Keys
  {
    forall u | u in f
      ensures u in t.UidsOf(mailbox)
    {
      var r :| LiveAt(t, r, mailbox, u);
    }
    forall u | u in t.UidsOf(mailbox)
      ensures u in f
    {
      var r :| r in t.rows && t.rows[r].mailbox == mailbox && t.rows[r].uid.Some? && t.rows[r].uid.value == u;
      assert LiveAt(t, r, mailbox, u);
    }
  }

  lemma CountRows(t: Tables, mailbox: Id)
    requires t.Constraints()
    ensures |t.RowsOf(mailbox)| == |t.UidsOf(mailbox)| + |OrphansOf(t, mailbox)|
  {
    var live := set r | r in t.rows && t.rows[r].mailbox == mailbox && t.rows[r].uid.Some?;
    CountUids(t, mailbox, live);
    hide Tables.Constraints;
    assert (set r | r in live :: t.rows[r].uid.value) == t.UidsOf(mailbox);
    assert t.RowsOf(mailbox) == live + OrphansOf(t, mailbox);
  }

  /** Counting rows counts mirrored UIDs and orphans: the unique index at work. */
  lemma CountIsReflected(t: Tables, mailbox: Id, m: Mirror)
    requires Reflects(t, mailbox, m)
    ensures |t.RowsOf(mailbox)| == m.Count() && t.UidsOf(mailbox) == m.flags.Keys
  {
    UidsAreShown(t, mailbox, m.flags);
    CountRows(t, mailbox);
  }

  // ---------------------------------------------------------------- writing

  /** Writing the one row of a UID, old or new, changes exactly that UID's flags. */
  lemma OneRowWritten(t: Tables, t': Tables, mailbox: Id, r: Id, row: Row, u: Uid, f: map<Uid, Flags>)
    requires ShowsFlags(t, mailbox, f) && t'.rows == t.rows[r := row]
    requires row.mailbox == mailbox && row.uid == Some(u)
    requires r in t.rows ==> LiveAt(t, r, mailbox, u)
    requires forall o | LiveAt(t, o, mailbox, u) :: o == r
    ensures ShowsFlags(t', mailbox, f[u := row.flags]) && OrphansOf(t', mailbox) == OrphansOf(t, mailbox)
  {
    assert LiveAt(t', r, mailbox, u);
    forall o, v | LiveAt(t, o, mailbox, v)
      ensures LiveAt(t', o, mailbox, v)
    {
    }
    forall o, v | LiveAt(t', o, mailbox, v)
      ensures o == r || LiveAt(t, o, mailbox, v)
    {
    }
  }

  lemma UpsertShown(t: Tables, m: Meta, f: map<Uid, Flags>)
    requires t.Constraints() && m.mailbox in t.mailboxes && ShowsFlags(t, m.mailbox, f)
    ensures ShowsFlags(t.Upsert(m).0, m.mailbox, f[m.uid := m.flags])
    ensures OrphansOf(t.Upsert(m).0, m.mailbox) == OrphansOf(t, m.mailbox)
  {
    UpsertEffect(t, m);
    var found := t.RowWith(m.mailbox, m.uid);
    var r := if found.Some? then found.value else t.nextRow;
    assert forall o | LiveAt(t, o, m.mailbox, m.uid) :: o == r;
    var t' := t.Upsert(m).0;
    hide Tables.Upsert, Tables.Constraints, ShowsFlags, OrphansOf;
    OneRowWritten(t, t', m.mailbox, r, t'.rows[r], m.uid, f);
  }

  lemma UpsertColumns(t: Tables, m: Meta, mirror: Mirror)
    requires t.Constraints() && ShowsColumns(t, m.mailbox, mirror)
    ensures ShowsColumns(t.Upsert(m).0, m.mailbox, mirror.RecordOne(m.uid, m.flags))
  {
    UpsertEffect(t, m);
  }

  lemma UpsertReflects(t: Tables, m: Meta, mirror: Mirror)
    requires Reflects(t, m.mailbox, mirror)
    ensures Reflects(t.Upsert(m).0, m.mailbox, mirror.RecordOne(m.uid, m.flags))
  {
    assert m.mailbox in t.mailboxes;
    hide Tables.Upsert, Tables.Constraints, ShowsFlags, OrphansOf, ShowsColumns;
    UpsertKeepsConstraints(t, m);
    UpsertShown(t, m, mirror.flags);
    UpsertColumns(t, m, mirror);
  }

  /** The flags a batch of metadata leaves behind. */
  function MetaFlags(metas: seq<Meta>): map<Uid, Flags> {
    if metas == [] then map[]
    else MetaFlags(metas[..|metas| - 1])[metas[|metas| - 1].uid := metas[|metas| - 1].flags]
  }

  lemma RecordOneMore(mirror: Mirror, f: map<Uid, Flags>, u: Uid, g: Flags)
    ensures mirror.Record(f).RecordOne(u, g) == mirror.Record(f[u := g])
    ensures mirror.Record(map[]) == mirror
  {
    assert (mirror.flags + f)[u := g] == mirror.flags + f[u := g];
    assert mirror.flags + map[] == mirror.flags;
  }

  lemma {:induction false} UpsertAllReflects(t: Tables, mailbox: Id, metas: seq<Meta>, mirror: Mirror)
    requires Reflects(t, mailbox, mirror) && forall m | m in metas :: m.mailbox == mailbox
    ensures forall m | m in metas :: m.mailbox in t.mailboxes
    ensures Reflects(t.UpsertAll(metas), mailbox, mirror.Record(MetaFlags(metas)))
  {
    assert forall m | m in metas :: m.mailbox in t.mailboxes;
    hide Reflects, Tables.Upsert;
    if metas == [] {
      RecordOneMore(mirror, map[], 0, {});
    } else {
      var n := |metas| - 1;
      UpsertAllReflects(t, mailbox, metas[..n], mirror);
      UpsertReflects(t.UpsertAll(metas[..n]), metas[n], mirror.Record(MetaFlags(metas[..n])));
      RecordOneMore(mirror, MetaFlags(metas[..n]), metas[n].uid, metas[n].flags);
    }
  }

  lemma UpdateFlagsShown(t: Tables, mailbox: Id, uid: Uid, flags: Flags, modSeq: nat, mirror: Mirror)
    requires ShowsFlags(t, mailbox, mirror.flags)
    ensures var t' := t.UpdateFlags(mailbox, uid, flags, modSeq);
            && ShowsFlags(t', mailbox, mirror.Update(uid, flags).flags)
            && OrphansOf(t', mailbox) == OrphansOf(t, mailbox) && t'.mailboxes == t.mailboxes
            && OnlyRowUpdates(t, t')
  {
    var t' := t.UpdateFlags(mailbox, uid, flags, modSeq);
    assert forall r, u :: LiveAt(t', r, mailbox, u) <==> LiveAt(t, r, mailbox, u);
  }

  lemma UpdateFlagsReflects(t: Tables, mailbox: Id, uid: Uid, flags: Flags, modSeq: nat, mirror: Mirror)
    requires Reflects(t, mailbox, mirror)
    ensures Reflects(t.UpdateFlags(mailbox, uid, flags, modSeq), mailbox, mirror.Update(uid, flags))
  {
    UpdateFlagsShown(t, mailbox, uid, flags, modSeq, mirror);
    RowUpdatesKeepConstraints(t, t.UpdateFlags(mailbox, uid, flags, modSeq));
    hide Tables.UpdateFlags, Tables.Constraints, ShowsFlags, OrphansOf;
  }

  lemma DeleteMissingShown(t: Tables, mailbox: Id, present: set<Uid>, mirror: Mirror)
    requires ShowsFlags(t, mailbox, mirror.flags)
    ensures var t' := t.DeleteMissing(mailbox, present);
            && ShowsFlags(t', mailbox, mirror.Keep(present).flags)
            && OrphansOf(t', mailbox) == OrphansOf(t, mailbox) && t'.mailboxes == t.mailboxes
            && OnlyRowUpdates(t, t')
  {
    var t' := t.DeleteMissing(mailbox, present);
    assert forall r, u :: LiveAt(t', r, mailbox, u) <==> LiveAt(t, r, mailbox, u) && u in present;
  }

  lemma DeleteMissingReflects(t: Tables, mailbox: Id, present: set<Uid>, mirror: Mirror)
    requires Reflects(t, mailbox, mirror)
    ensures Reflects(t.DeleteMissing(mailbox, present), mailbox, mirror.Keep(present))
  {
    DeleteMissingShown(t, mailbox, present, mirror);
    RowUpdatesKeepConstraints(t, t.DeleteMissing(mailbox, present));
    hide Tables.DeleteMissing, Tables.Constraints, ShowsFlags, OrphansOf;
  }

  lemma CheckpointShown(t: Tables, mailbox: Id, c: Checkpoint, mirror: Mirror)
    requires ShowsFlags(t, mailbox, mirror.flags)
    ensures var t' := t.SaveCheckpoint(mailbox, c);
            && ShowsFlags(t', mailbox, mirror.Save(c).flags)
            && OrphansOf(t', mailbox) == OrphansOf(t, mailbox)
  {
    var t' := t.SaveCheckpoint(mailbox, c);
    assert t'.rows == t.rows;
    assert forall r, u :: LiveAt(t', r, mailbox, u) <==> LiveAt(t, r, mailbox, u);
  }

  lemma CheckpointReflects(t: Tables, mailbox: Id, c: Checkpoint, mirror: Mirror)
    requires Reflects(t, mailbox, mirror)
    ensures Reflects(t.SaveCheckpoint(mailbox, c), mailbox, mirror.Save(c))
  {
    CheckpointShown(t, mailbox, c, mirror);
    MailboxStatementEffect(t, mailbox, c, 0);
    RowUpdatesKeepConstraints(t, t.SaveCheckpoint(mailbox, c));
    hide Tables.Constraints, ShowsFlags, OrphansOf;
  }

  lemma ResetShown(t: Tables, mailbox: Id, v: nat)
    requires mailbox in t.mailboxes
    ensures var t' := t.Reset(mailbox, v);
            ShowsFlags(t', mailbox, map[]) && OrphansOf(t', mailbox) == t.RowsOf(mailbox)
  {
    var t' := t.Reset(mailbox, v);
    assert forall r, u :: !LiveAt(t', r, mailbox, u);
  }

  lemma ResetReflects(t: Tables, mailbox: Id, v: nat, mirror: Mirror)
    requires Reflects(t, mailbox, mirror)
    ensures Reflects(t.Reset(mailbox, v), mailbox, mirror.Reset(v))
  {
    MailboxStatementEffect(t, mailbox, Checkpoint(0, 0, 0, 0, false), v);
    RowUpdatesKeepConstraints(t, t.Reset(mailbox, v));
    CountIsReflected(t, mailbox, mirror);
    ResetShown(t, mailbox, v);
    hide Tables.Constraints, ShowsFlags, OrphansOf;
  }
}
