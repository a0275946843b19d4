/** The store: the three tables as mutable state, one method per statement or transaction
    of internal/store. Each leaves the tables as the function of the same statement says. */
module Store {
  import opened Wrappers
  import opened Tables

  datatype PendingBody = PendingBody(row: Id, message: Id, uid: Uid, size: nat, attempts: nat)

  /** What RETURNING reports about a row. */
  ghost predicate Describes(t: Tables, c: PendingBody) {
    && c.row in t.rows && t.rows[c.row].uid == Some(c.uid) && c.attempts == t.rows[c.row].attempts
    && c.message == t.rows[c.row].message && c.message in t.messages && c.size == t.messages[c.message].size
  }

  ghost predicate AllDescribed(t: Tables, claimed: seq<PendingBody>) {
    forall i | 0 <= i < |claimed| :: Describes(t, claimed[i])
  }

  /** Part way through choosing: taken and free together are the claimable rows, and
      everything taken is newer than everything free. */
  ghost predicate Choosing(t: Tables, mailbox: Id, maxAttempts: int, locked: set<Id>, taken: set<Id>, free: set<Id>) {
    && taken !! free
    && (forall r | r in taken + free :: t.Claimable(r, mailbox, maxAttempts) && r !in locked)
    && (forall r | t.Claimable(r, mailbox, maxAttempts) && r !in locked :: r in taken + free)
    && (forall p, r | p in taken && r in free :: t.rows[p].uid.value > t.rows[r].uid.value)
  }

  lemma FreeRows(t: Tables, mailbox: Id, maxAttempts: int, locked: set<Id>, taken: set<Id>, free: set<Id>)
    requires Choosing(t, mailbox, maxAttempts, locked, taken, free)
    ensures taken !! free && forall r | r in free :: t.Claimable(r, mailbox, maxAttempts)
  {
  }

  lemma TakeNewest(t: Tables, mailbox: Id, maxAttempts: int, locked: set<Id>, taken: set<Id>, free: set<Id>, newest: Id)
    requires Choosing(t, mailbox, maxAttempts, locked, taken, free) && newest in free
    requires forall r | r in free - {newest} :: t.Claimable(r, mailbox, maxAttempts)
               && t.Claimable(newest, mailbox, maxAttempts) && t.rows[newest].uid.value > t.rows[r].uid.value
    ensures Choosing(t, mailbox, maxAttempts, locked, taken + {newest}, free - {newest})
  {
  }

  lemma Chosen(t: Tables, mailbox: Id, limit: nat, maxAttempts: int, locked: set<Id>, taken: set<Id>, free: set<Id>)
    requires Choosing(t, mailbox, maxAttempts, locked, taken, free)
    requires |taken| <= limit && (|taken| == limit || free == {})
    ensures t.ClaimChoice(taken, mailbox, limit, maxAttempts, locked)
  {
  }

  ghost function RowsIn(claimed: seq<PendingBody>): set<Id> {
    set c | c in claimed :: c.row
  }

  lemma AppendClaim(t: Tables, claimed: seq<PendingBody>, claim: PendingBody)
    requires AllDescribed(t, claimed) && Describes(t, claim)
    ensures AllDescribed(t, claimed + [claim])
    ensures RowsIn(claimed + [claim]) == RowsIn(claimed) + {claim.row}
  {
    assert forall c | c in claimed + [claim] :: c in claimed || c == claim;
    assert claim in claimed + [claim];
    assert forall c | c in claimed :: c in claimed + [claim];
  }

  lemma NothingClaimed(t: Tables)
    ensures RowsIn([]) == {} && AllDescribed(t, [])
  {
  }

  class Store {
    var mailboxes: map<Id, Mailbox>
    var messages: map<Id, Message>
    var rows: map<Id, Row>
    var nextMessage: Id
    var nextRow: Id

    ghost function View(): Tables
      reads this
    {
      Tables(mailboxes, messages, rows, nextMessage, nextRow)
    }

    constructor ()
      ensures View() == Tables(map[], map[], map[], 0, 0) && View().Constraints()
    {
      mailboxes, messages, rows, nextMessage, nextRow := map[], map[], map[], 0, 0;
    }

    // ------------------------------------------------------------ index lookups

    method FindMessage(account: Id, digest: Digest) returns (r: Option<Id>)
      requires View().Constraints()
      ensures r == View().MessageWith(account, digest)
    {
      var ids := messages.Keys;
      while ids != {}
        invariant ids <= messages.Keys
        invariant forall m | m in messages && m !in ids ::
                    messages[m].account != account || messages[m].digest != digest
        decreases |ids|
      {
        var m :| m in ids;
        if messages[m].account == account && messages[m].digest == digest {
          return Some(m);
        }
        ids := ids - {m};
      }
      r := None;
    }

    method FindRow(mailbox: Id, uid: Uid) returns (r: Option<Id>)
      requires View().Constraints()
      ensures r == View().RowWith(mailbox, uid)
    {
      var ids := rows.Keys;
      while ids != {}
        invariant ids <= rows.Keys
        invariant forall i | i in rows && i !in ids :: rows[i].mailbox != mailbox || rows[i].uid != Some(uid)
        decreases |ids|
      {
        var i :| i in ids;
        if rows[i].mailbox == mailbox && rows[i].uid == Some(uid) {
          return Some(i);
        }
        ids := ids - {i};
      }
      r := None;
    }

    // ------------------------------------------------------------ metadata

    /** The placeholder message of a UID, found or inserted. */
    method UpsertMessage(account: Id, digest: Digest, size: nat) returns (id: Id)
      requires View().Constraints()
      modifies this`messages, this`nextMessage
      ensures (View(), id) == old(View()).UpsertMessage(account, digest, size)
    {
      var found := FindMessage(account, digest);
      match found {
        case Some(m) => id := m;
        case None =>
          id := nextMessage;
          messages := messages[id := Message(account, digest, size, None)];
      }
      nextMessage := nextMessage + 1;
    }

    /** Allocates a local UID, then inserts the row or refreshes its flags. */
    method UpsertRow(m: Meta, message: Id) returns (created: bool)
      requires View().Constraints() && m.mailbox in mailboxes
      modifies this`mailboxes, this`rows, this`nextRow
      ensures (View(), created) == old(View()).UpsertRow(m, message)
    {
      var found := FindRow(m.mailbox, m.uid);
      var localUid := mailboxes[m.mailbox].localUidNext;
      mailboxes := mailboxes[m.mailbox := mailboxes[m.mailbox].(localUidNext := localUid + 1)];
      created := found.None?;
      match found {
        case Some(r) => rows := rows[r := rows[r].(flags := m.flags, modSeq := Nullable(m.modSeq))];
        case None =>
          rows := rows[nextRow := Row(m.mailbox, message, localUid, Some(m.uid), Nullable(m.modSeq), m.flags,
                                      Pending, 0, None)];
      }
      nextRow := nextRow + 1;
    }

    method UpsertMetadata(m: Meta) returns (created: bool)
      requires View().Constraints() && m.mailbox in mailboxes
      modifies this
      ensures View().Constraints() && (View(), created) == old(View()).Upsert(m)
    {
      UpsertMessageKeepsConstraints(View(), mailboxes[m.mailbox].account, Placeholder(m.mailbox, m.uid), m.size);
      UpsertKeepsConstraints(View(), m);
      var message := UpsertMessage(mailboxes[m.mailbox].account, Placeholder(m.mailbox, m.uid), m.size);
      created := UpsertRow(m, message);
    }

    /** One transaction for a chunk; reports how many rows it created. */
    method UpsertMetadataBatch(metas: seq<Meta>) returns (created: nat)
      requires View().Constraints() && forall m | m in metas :: m.mailbox in mailboxes
      modifies this
      ensures View().Constraints() && View() == old(View()).UpsertAll(metas)
      ensures |rows| == |old(rows)| + created
    {
      created := 0;
      for i := 0 to |metas|
        invariant View().Constraints() && View() == old(View()).UpsertAll(metas[..i])
        invariant mailboxes.Keys == old(mailboxes.Keys)
        invariant |rows| == |old(rows)| + created
      {
        assert metas[..i + 1][..i] == metas[..i] && metas[..i + 1][i] == metas[i];
        UpsertEffect(View(), metas[i]);
        var wasCreated := UpsertMetadata(metas[i]);
        if wasCreated {
          created := created + 1;
        }
      }
      assert metas[..|metas|] == metas;
    }

    method UpdateFlags(mailbox: Id, uid: Uid, flags: Flags, modSeq: nat)
      modifies this`rows
      ensures View() == old(View()).UpdateFlags(mailbox, uid, flags, modSeq)
    {
      rows := map r | r in rows ::
        if rows[r].mailbox == mailbox && rows[r].uid == Some(uid)
        then rows[r].(flags := flags, modSeq := if modSeq == 0 then rows[r].modSeq else Some(modSeq))
        else rows[r];
    }

    method ExistingUpstreamUIDs(mailbox: Id) returns (known: set<Uid>)
      ensures known == View().UidsOf(mailbox)
    {
      known := set r | r in rows && rows[r].mailbox == mailbox && rows[r].uid.Some? :: rows[r].uid.value;
    }

    method CountMailboxMessages(mailbox: Id) returns (n: nat)
      ensures n == |View().RowsOf(mailbox)|
    {
      var counted := set r | r in rows && rows[r].mailbox == mailbox;
      assert counted == View().RowsOf(mailbox);
      n := |counted|;
    }

    method DeleteMissingUIDs(mailbox: Id, present: set<Uid>)
      modifies this`rows
      ensures View() == old(View()).DeleteMissing(mailbox, present)
    {
      rows := map r | r in rows && !(rows[r].mailbox == mailbox && rows[r].uid.Some?
                                     && rows[r].uid.value !in present) :: rows[r];
    }

    method SaveCheckpoint(mailbox: Id, c: Checkpoint)
      modifies this`mailboxes
      ensures View() == old(View()).SaveCheckpoint(mailbox, c)
    {
      if mailbox !in mailboxes {
        return;
      }
      var box := mailboxes[mailbox];
      box := box.(uidValidity := Some(c.uidValidity), resyncRequired := false);
      if box.watermark < c.watermark {
        box := box.(watermark := c.watermark);
      }
      if c.completed {
        var stored := GetOr(box.highestModSeq, 0);
        box := box.(uidNext := Some(c.uidNext),
                    highestModSeq := Some(if stored < c.highestModSeq then c.highestModSeq else stored));
      }
      mailboxes := mailboxes[mailbox := box];
    }

    /** Two statements in one transaction: clear the UIDs, then reset the checkpoint. */
    method ResetForUIDValidityChange(mailbox: Id, uidValidity: nat)
      requires mailbox in mailboxes
      modifies this`rows, this`mailboxes
      ensures View() == old(View()).Reset(mailbox, uidValidity)
    {
      rows := map r | r in rows ::
        if rows[r].mailbox == mailbox then rows[r].(uid := None, modSeq := None) else rows[r];
      var box := mailboxes[mailbox];
      mailboxes := mailboxes[mailbox := box.(uidValidity := Some(uidValidity), highestModSeq := Some(0),
                                             watermark := 0, resyncRequired := true,
                                             generation := box.generation + 1)];
    }

    // ------------------------------------------------------------ bodies

    method ClaimableRows(mailbox: Id, maxAttempts: int, locked: set<Id>) returns (free: set<Id>)
      ensures Choosing(View(), mailbox, maxAttempts, locked, {}, free)
    {
      free := set r | r in rows && rows[r].mailbox == mailbox && rows[r].state == Pending
                      && rows[r].uid.Some? && rows[r].attempts < maxAttempts && r !in locked;
    }

    method Newest(mailbox: Id, ghost maxAttempts: int, ghost locked: set<Id>, ghost taken: set<Id>, free: set<Id>)
      returns (claim: PendingBody)
      requires View().Constraints() && Choosing(View(), mailbox, maxAttempts, locked, taken, free) && free != {}
      ensures claim.row in free && claim.row !in taken && Describes(View(), claim)
      ensures Choosing(View(), mailbox, maxAttempts, locked, taken + {claim.row}, free - {claim.row})
    {
      FreeRows(View(), mailbox, maxAttempts, locked, taken, free);
      var r := NewestOf(free, mailbox);
      TakeNewest(View(), mailbox, maxAttempts, locked, taken, free, r);
      claim := Describe(r);
    }

    /** The claimable rows, newest first, passing over locked ones, up to the limit. */
    method ChooseClaims(mailbox: Id, limit: nat, maxAttempts: int, locked: set<Id>)
      returns (claimed: seq<PendingBody>, taken: set<Id>)
      requires View().Constraints()
      ensures View().ClaimChoice(taken, mailbox, limit, maxAttempts, locked)
      ensures |claimed| == |taken| && taken == RowsIn(claimed)
      ensures AllDescribed(View(), claimed)
    {
      hide RowsIn, Choosing, Describes, AllDescribed, Tables.Constraints, Tables.ClaimChoice;
      var free := ClaimableRows(mailbox, maxAttempts, locked);
      claimed, taken := [], {};
      ghost var t := View();
      NothingClaimed(t);
      while |taken| < limit && free != {}
        invariant View() == t && Choosing(t, mailbox, maxAttempts, locked, taken, free)
        invariant |taken| <= limit && |claimed| == |taken| && taken == RowsIn(claimed)
        invariant AllDescribed(t, claimed)
        decreases |free|
      {
        var claim := Newest(mailbox, maxAttempts, locked, taken, free);
        AppendClaim(t, claimed, claim);
        claimed := claimed + [claim];
        taken := taken + {claim.row};
        free := free - {claim.row};
      }
      Chosen(t, mailbox, limit, maxAttempts, locked, taken, free);
    }

    /** Reserves rows for this process and reports what to download. */
    method ClaimPendingBodies(mailbox: Id, limit: nat, maxAttempts: int, locked: set<Id>, now: nat)
      returns (claimed: seq<PendingBody>, taken: set<Id>)
      requires View().Constraints()
      modifies this`rows
      ensures old(View()).ClaimChoice(taken, mailbox, limit, maxAttempts, locked)
      ensures View() == old(View()).Claim(taken, now)
      ensures |claimed| == |taken| && taken == RowsIn(claimed)
      ensures AllDescribed(old(View()), claimed)
    {
      claimed, taken := ChooseClaims(mailbox, limit, maxAttempts, locked);
      MarkFetching(taken, now);
    }

    method MarkFetching(taken: set<Id>, now: nat)
      modifies this`rows
      ensures View() == old(View()).Claim(taken, now)
    {
      rows := map r | r in rows ::
        if r in taken then rows[r].(state := Fetching, claimedAt := Some(now)) else rows[r];
    }

    method Describe(r: Id) returns (claim: PendingBody)
      requires View().Constraints() && r in rows && rows[r].uid.Some?
      ensures claim.row == r && Describes(View(), claim)
    {
      claim := PendingBody(r, rows[r].message, rows[r].uid.value, messages[rows[r].message].size, rows[r].attempts);
    }

    method NewestOf(free: set<Id>, mailbox: Id) returns (newest: Id)
      requires View().Constraints() && free != {}
      requires forall r | r in free :: r in rows && rows[r].mailbox == mailbox && rows[r].uid.Some?
      ensures newest in free && forall r | r in free - {newest} :: rows[newest].uid.value > rows[r].uid.value
    {
      newest :| newest in free;
      var rest := free - {newest};
      while rest != {}
        invariant newest in free && rest <= free && newest !in rest
        invariant forall r | r in free - rest - {newest} :: rows[newest].uid.value > rows[r].uid.value
        decreases |rest|
      {
        var r :| r in rest;
        rest := rest - {r};
        if rows[r].uid.value > rows[newest].uid.value {
          newest := r;
        }
      }
    }

    /** Records a downloaded body: repoints the row if the content is already stored and
        drops the row it leaves behind when nothing else refers to it. */
    method AttachBody(row: Id, content: Content) returns (ok: bool)
      requires View().Constraints()
      modifies this`rows, this`messages
      ensures ok <==> old(View()).Attach(row, content).Some?
      ensures ok ==> View() == old(View()).Attach(row, content).value
      ensures !ok ==> View() == old(View())
    {
      if row !in rows || rows[row].message !in messages {
        return false;
      }
      var t := View();
      var was := rows[row].message;
      var account := messages[was].account;
      var existing := FindMessage(account, Sha256(content));
      if existing.Some? && existing.value != was {
        assert t.MessageElsewhere(account, Sha256(content), was) == existing;
        rows := rows[row := rows[row].(message := existing.value, state := Stored, claimedAt := None)];
        if !(exists r | r in rows :: rows[r].message == was) {
          messages := messages - {was};
        }
      } else {
        assert t.MessageElsewhere(account, Sha256(content), was).None?;
        messages := messages[was := messages[was].(digest := Sha256(content), size := |content|,
                                                   blob := Some(content))];
        rows := rows[row := rows[row].(state := Stored, claimedAt := None)];
      }
      ok := true;
    }

    method MarkBodyFailed(row: Id, maxAttempts: int)
      modifies this`rows
      ensures View() == old(View()).MarkFailed(row, maxAttempts)
    {
      if row in rows {
        var n := rows[row].attempts + 1;
        rows := rows[row := rows[row].(attempts := n, claimedAt := None,
                                       state := if n >= maxAttempts then Failed else Pending)];
      }
    }

    method MarkBodyTooLarge(row: Id)
      modifies this`rows
      ensures View() == old(View()).MarkTooLarge(row)
    {
      if row in rows {
        rows := rows[row := rows[row].(state := TooLarge, claimedAt := None)];
      }
    }

    method ReapStaleClaims(cutoff: nat)
      modifies this`rows
      ensures View() == old(View()).Reap(cutoff)
    {
      rows := map r | r in rows ::
        if rows[r].state == Fetching && rows[r].claimedAt.Some? && rows[r].claimedAt.value < cutoff
        then rows[r].(state := Pending, claimedAt := None) else rows[r];
    }
  }
}
