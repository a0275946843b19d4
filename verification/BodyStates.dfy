/** The download state of a row: no statement can leave a message in limbo. */
module BodyStates {
  import opened Wrappers
  import opened Tables

  /** Sound for a fixed sync.body_max_attempts. */
  predicate SoundRow(row: Row, maxAttempts: nat) {
    && (row.state == Fetching <==> row.claimedAt.Some?)
    && (row.state == Pending || row.state == Fetching ==> row.attempts < maxAttempts)
    && (row.state == Failed ==> row.attempts >= maxAttempts)
  }

  ghost predicate SoundRows(t: Tables, maxAttempts: nat) {
    forall r | r in t.rows :: SoundRow(t.rows[r], maxAttempts)
  }

  /** Every statement names the same attempt limit, as one configuration does. */
  predicate UsesLimit(s: Statement, maxAttempts: nat) {
    match s
    case DoClaim(_, _, n, _, _, _) => n == maxAttempts
    case DoMarkFailed(_, n) => n == maxAttempts
    case _ => true
  }

  lemma UpsertKeepsRowsSound(t: Tables, m: Meta, maxAttempts: nat)
    requires t.Constraints() && m.mailbox in t.mailboxes
    requires maxAttempts >= 1 && SoundRows(t, maxAttempts)
    ensures SoundRows(t.Upsert(m).0, maxAttempts)
  {
    UpsertEffect(t, m);
    var t' := t.Upsert(m).0;
    forall r | r in t'.rows
      ensures SoundRow(t'.rows[r], maxAttempts)
    {
      if r in t.rows {
        assert SoundRow(t.rows[r], maxAttempts);
      }
    }
  }

  lemma AttachKeepsRowsSound(t: Tables, r: Id, content: Content, maxAttempts: nat)
    requires t.Constraints() && SoundRows(t, maxAttempts) && r in t.rows
    ensures SoundRows(t.Attach(r, content).value, maxAttempts)
  {
  }

  lemma StatementKeepsRowsSound(t: Tables, s: Statement, maxAttempts: nat)
    requires t.Constraints() && Enabled(t, s) && UsesLimit(s, maxAttempts)
    requires maxAttempts >= 1 && SoundRows(t, maxAttempts)
    ensures SoundRows(Apply(t, s), maxAttempts)
  {
    match s
    case DoUpsert(m) => UpsertKeepsRowsSound(t, m, maxAttempts);
    case DoAttach(r, content) =>
      if r in t.rows {
        AttachKeepsRowsSound(t, r, content, maxAttempts);
      }
    case DoClaim(_, _, _, _, picked, now) => assert SoundRows(t.Claim(picked, now), maxAttempts);
    case DoReap(cutoff) => assert SoundRows(t.Reap(cutoff), maxAttempts);
    case _ =>
  }

  /** Whatever the history, whatever crashed when. */
  lemma {:induction false} RowsStaySound(ts: seq<Tables>, ss: seq<Statement>, maxAttempts: nat, n: nat)
    requires Run(ts, ss) && n < |ts| && maxAttempts >= 1
    requires forall i | 0 <= i < |ss| :: UsesLimit(ss[i], maxAttempts)
    requires SoundRows(ts[0], maxAttempts)
    ensures SoundRows(ts[n], maxAttempts)
  {
    if n > 0 {
      RowsStaySound(ts, ss, maxAttempts, n - 1);
      StatementKeepsRowsSound(ts[n - 1], ss[n - 1], maxAttempts);
    }
  }

  /** A message that is neither finished nor claimable: nobody would ever download it. */
  ghost predicate Stranded(t: Tables, r: Id, maxAttempts: nat) {
    && r in t.rows
    && t.rows[r].state in {Pending, Fetching}
    && forall cutoff :: !t.Reap(cutoff).Claimable(r, t.rows[r].mailbox, maxAttempts)
  }

  /** In a sound state an unfinished message is claimable now or after the reaper,
      exactly unless a renumbering cleared its upstream UID. */
  lemma StrandedOnlyByRenumbering(t: Tables, r: Id, maxAttempts: nat)
    requires SoundRows(t, maxAttempts) && r in t.rows && t.rows[r].state in {Pending, Fetching}
    ensures Stranded(t, r, maxAttempts) <==> t.rows[r].uid == None
  {
    var row := t.rows[r];
    if row.uid.Some? {
      var cutoff := if row.claimedAt.Some? then row.claimedAt.value + 1 else 0;
      assert t.Reap(cutoff).Claimable(r, row.mailbox, maxAttempts);
    }
  }

  // ---------------------------------------------------------------- attempts

  /** How many failed downloads of a row a history records. */
  function Failures(ss: seq<Statement>, r: Id): nat {
    if ss == [] then 0
    else
      var last := ss[|ss| - 1];
      Failures(ss[..|ss| - 1], r) + if last.DoMarkFailed? && last.row == r then 1 else 0
  }

  /** A row that is still there has as many more attempts. */
  ghost predicate CountsAttempts(t: Tables, t': Tables, r: Id, more: nat) {
    t'.nextRow >= t.nextRow
    && (r < t.nextRow && r in t'.rows ==> r in t.rows && t'.rows[r].attempts == t.rows[r].attempts + more)
  }

  lemma UpsertCounts(t: Tables, m: Meta, r: Id)
    requires t.Constraints() && m.mailbox in t.mailboxes
    ensures CountsAttempts(t, t.Upsert(m).0, r, 0)
  {
    UpsertEffect(t, m);
    UpsertTakesId(t, m);
    hide Tables.Upsert, Tables.DigestsUnique, Tables.UidsUnique;
  }

  lemma QueueCounts(t: Tables, i: Id, content: Content, n: int, picked: set<Id>, now: nat, cutoff: nat, r: Id)
    ensures CountsAttempts(t, t.MarkFailed(i, n), r, if i == r then 1 else 0)
            && CountsAttempts(t, t.MarkTooLarge(i), r, 0)
    ensures CountsAttempts(t, t.Claim(picked, now), r, 0) && CountsAttempts(t, t.Reap(cutoff), r, 0)
    ensures t.Attach(i, content).Some? ==> CountsAttempts(t, t.Attach(i, content).value, r, 0)
  {
  }

  lemma MetadataCounts(t: Tables, b: Id, uid: Uid, flags: Flags, n: nat, present: set<Uid>, c: Checkpoint, r: Id)
    ensures CountsAttempts(t, t.UpdateFlags(b, uid, flags, n), r, 0)
    ensures CountsAttempts(t, t.DeleteMissing(b, present), r, 0)
    ensures CountsAttempts(t, t.SaveCheckpoint(b, c), r, 0) && CountsAttempts(t, t.Reset(b, n), r, 0)
  {
  }

  lemma StatementCounts(t: Tables, s: Statement, r: Id)
    requires t.Constraints() && Enabled(t, s)
    ensures CountsAttempts(t, Apply(t, s), r, Failures([s], r))
  {
    hide CountsAttempts, Tables.Attach, Tables.Upsert, Tables.MarkFailed, Tables.Claim, Tables.Reap, Tables.Reset;
    var c := Checkpoint(0, 0, 0, 0, false);
    assert [s][..0] == [];
    match s
    case DoUpsert(m) => UpsertCounts(t, m, r);
    case DoUpdateFlags(b, uid, flags, n) => MetadataCounts(t, b, uid, flags, n, {}, c, r);
    case DoDeleteMissing(b, present) => MetadataCounts(t, b, 0, {}, 0, present, c, r);
    case DoCheckpoint(b, c') => MetadataCounts(t, b, 0, {}, 0, {}, c', r);
    case DoReset(b, v) => MetadataCounts(t, b, 0, {}, v, {}, c, r);
    case DoAttach(i, content) =>
      QueueCounts(t, i, content, 0, {}, 0, 0, r);
      if t.Attach(i, content).None? {
        NothingCounts(t, r);
      }
    case DoMarkFailed(i, n) => QueueCounts(t, i, "", n, {}, 0, 0, r);
    case DoMarkTooLarge(i) => QueueCounts(t, i, "", 0, {}, 0, 0, r);
    case DoClaim(_, _, _, _, picked, now) => QueueCounts(t, 0, "", 0, picked, now, 0, r);
    case DoReap(cutoff) => QueueCounts(t, 0, "", 0, {}, 0, cutoff, r);
  }

  lemma NothingCounts(t: Tables, r: Id)
    ensures CountsAttempts(t, t, r, 0)
  {
  }

  lemma {:induction false} RunCounts(ts: seq<Tables>, ss: seq<Statement>, r: Id, n: nat)
    requires Run(ts, ss) && n <= |ss|
    ensures CountsAttempts(ts[0], ts[n], r, Failures(ss[..n], r))
  {
    hide Apply, Enabled, Tables.Constraints;
    if n > 0 {
      RunCounts(ts, ss, r, n - 1);
      StatementCounts(ts[n - 1], ss[n - 1], r);
      assert ss[..n][..n - 1] == ss[..n - 1];
      assert [ss[n - 1]][..0] == [];
    }
  }

  /** A message is given up after its share of failed downloads and no sooner, whatever is
      claimed, reaped, repeated or renumbered in between. */
  lemma GivenUpAfterMaxFailures(ts: seq<Tables>, ss: seq<Statement>, maxAttempts: nat, n: nat, r: Id)
    requires Run(ts, ss) && n <= |ss| && maxAttempts >= 1 && SoundRows(ts[0], maxAttempts)
    requires forall i | 0 <= i < |ss| :: UsesLimit(ss[i], maxAttempts)
    requires r in ts[0].rows && r in ts[n].rows
    ensures ts[n].rows[r].attempts == ts[0].rows[r].attempts + Failures(ss[..n], r)
    ensures ts[n].rows[r].state == Failed ==> ts[0].rows[r].attempts + Failures(ss[..n], r) >= maxAttempts
    ensures ts[n].rows[r].state in {Pending, Fetching} ==> ts[0].rows[r].attempts + Failures(ss[..n], r) < maxAttempts
  {
    RunCounts(ts, ss, r, n);
    RowsStaySound(ts, ss, maxAttempts, n);
    assert r < ts[0].nextRow;
    hide Run;
    assert SoundRow(ts[n].rows[r], maxAttempts);
  }
}
