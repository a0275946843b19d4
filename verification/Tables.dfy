/** The three Postgres tables of the mirror as values, and every SQL statement or
    transaction of the store as one function on them. */
module Tables {
  import opened Wrappers

  type Id = nat
  type Flags = set<string>
  type Content = string

  /** messages.rfc822_sha256: SHA-256 taken as injective and never equal to the
      stand-in built from a mailbox and a UID. */
  datatype Digest = Placeholder(mailbox: Id, uid: Uid) | Sha256(content: Content)

  datatype Message = Message(account: Id, digest: Digest, size: nat, blob: Option<Content>)

  datatype BodyState = Pending | Fetching | Stored | TooLarge | Failed

  /** One row of mailbox_messages. */
  datatype Row = Row(
    mailbox: Id, message: Id, localUid: nat, uid: Option<Uid>, modSeq: Option<nat>,
    flags: Flags, state: BodyState, attempts: nat, claimedAt: Option<nat>)

  datatype Mailbox = Mailbox(
    account: Id, uidValidity: Option<nat>, uidNext: Option<nat>, highestModSeq: Option<nat>,
    watermark: nat, resyncRequired: bool, generation: nat, localUidNext: nat)

  datatype Meta = Meta(mailbox: Id, uid: Uid, modSeq: nat, flags: Flags, size: nat)

  datatype Checkpoint = Checkpoint(
    uidValidity: nat, uidNext: nat, highestModSeq: nat, watermark: nat, completed: bool)

  function Max(a: nat, b: nat): nat {
    if a < b then b else a
  }

  function GetOr(o: Option<nat>, default: nat): nat {
    match o case Some(v) => v case None => default
  }

  /** Go's nullableInt. */
  function Nullable(v: nat): Option<nat> {
    if v == 0 then None else Some(v)
  }

  datatype Tables = Tables(
    mailboxes: map<Id, Mailbox>, messages: map<Id, Message>, rows: map<Id, Row>,
    nextMessage: Id, nextRow: Id)
  {
    // ------------------------------------------------------------ constraints

    /** messages_account_sha256_key */
    ghost predicate DigestsUnique() {
      forall a, b | a in messages && b in messages && a != b ::
        messages[a].account != messages[b].account || messages[a].digest != messages[b].digest
    }

    /** mailbox_messages_mailbox_upstream_uid_key, a partial index: NULLs do not collide. */
    ghost predicate UidsUnique() {
      forall a, b | a in rows && b in rows && a != b ::
        rows[a].mailbox != rows[b].mailbox || rows[a].uid == None || rows[a].uid != rows[b].uid
    }

    /** Foreign keys, and serial columns that have not issued a later id. */
    ghost predicate Linked() {
      && (forall r | r in rows ::
            rows[r].mailbox in mailboxes && rows[r].message in messages && r < nextRow)
      && (forall m | m in messages :: m < nextMessage)
    }

    ghost predicate Constraints() {
      DigestsUnique() && UidsUnique() && Linked()
    }

    // ------------------------------------------------------------ lookups

    ghost function MessageWith(account: Id, digest: Digest): (r: Option<Id>)
      ensures r.Some? ==> r.value in messages && messages[r.value].account == account
                          && messages[r.value].digest == digest
      ensures r.None? ==> forall m | m in messages :: messages[m].account != account || messages[m].digest != digest
    {
      if m :| m in messages && messages[m].account == account && messages[m].digest == digest
      then Some(m) else None
    }

    ghost function RowWith(mailbox: Id, uid: Uid): (r: Option<Id>)
      ensures r.Some? ==> r.value in rows && rows[r.value].mailbox == mailbox && rows[r.value].uid == Some(uid)
      ensures r.None? ==> forall i | i in rows :: rows[i].mailbox != mailbox || rows[i].uid != Some(uid)
    {
      if i :| i in rows && rows[i].mailbox == mailbox && rows[i].uid == Some(uid)
      then Some(i) else None
    }

    /** The rows CountMailboxMessages counts: NULL-UID leftovers included. */
    ghost function RowsOf(mailbox: Id): set<Id> {
      set r | r in rows && rows[r].mailbox == mailbox
    }

    /** ExistingUpstreamUIDs. */
    ghost function UidsOf(mailbox: Id): set<Uid> {
      set r | r in rows && rows[r].mailbox == mailbox && rows[r].uid.Some? :: rows[r].uid.value
    }

    // ------------------------------------------------------------ statements

    /** upsertMetadataTx, first statement: the placeholder message. */
    ghost function UpsertMessage(account: Id, digest: Digest, size: nat): (r: (Tables, Id))
    {
      match MessageWith(account, digest)
      case Some(m) => (this.(nextMessage := nextMessage + 1), m)
      case None =>
        (this.(messages := messages[nextMessage := Message(account, digest, size, None)],
               nextMessage := nextMessage + 1), nextMessage)
    }

    /** upsertMetadataTx, second statement: burn a local UID, then insert or update. */
    ghost function UpsertRow(m: Meta, message: Id): (r: (Tables, bool))
      requires m.mailbox in mailboxes
    {
      var box := mailboxes[m.mailbox];
      var burned := this.(mailboxes := mailboxes[m.mailbox := box.(localUidNext := box.localUidNext + 1)],
                          nextRow := nextRow + 1);
      match RowWith(m.mailbox, m.uid)
      case Some(r) =>
        (burned.(rows := rows[r := rows[r].(flags := m.flags, modSeq := Nullable(m.modSeq))]), false)
      case None =>
        (burned.(rows := rows[nextRow := Row(m.mailbox, message, box.localUidNext, Some(m.uid),
                                             Nullable(m.modSeq), m.flags, Pending, 0, None)]), true)
    }

    /** upsertMetadataTx. */
    ghost function Upsert(m: Meta): (r: (Tables, bool))
      requires m.mailbox in mailboxes
    {
      var (t, message) := UpsertMessage(mailboxes[m.mailbox].account, Placeholder(m.mailbox, m.uid), m.size);
      t.UpsertRow(m, message)
    }

    /** UpsertMetadataBatch: all or nothing. */
    ghost function UpsertAll(metas: seq<Meta>): (r: Tables)
      requires forall m | m in metas :: m.mailbox in mailboxes
      ensures r.mailboxes.Keys == mailboxes.Keys
      decreases |metas|
    {
      if metas == [] then this
      else
        var before := UpsertAll(metas[..|metas| - 1]);
        before.Upsert(metas[|metas| - 1]).0
    }

    /** UpdateFlags: a zero mod-sequence keeps the recorded one. */
    ghost function UpdateFlags(mailbox: Id, uid: Uid, flags: Flags, modSeq: nat): Tables {
      this.(rows := map r | r in rows ::
                      if rows[r].mailbox == mailbox && rows[r].uid == Some(uid)
                      then rows[r].(flags := flags, modSeq := if modSeq == 0 then rows[r].modSeq else Some(modSeq))
                      else rows[r])
    }

    ghost predicate Claimable(r: Id, mailbox: Id, maxAttempts: int) {
      && r in rows && rows[r].mailbox == mailbox && rows[r].state == Pending
      && rows[r].uid.Some? && rows[r].attempts < maxAttempts
    }

    /** What ClaimPendingBodies may pick: the newest claimable rows nobody has locked,
        as many as there are up to the limit. */
    ghost predicate ClaimChoice(picked: set<Id>, mailbox: Id, limit: nat, maxAttempts: int, locked: set<Id>) {
      && (forall r | r in picked :: Claimable(r, mailbox, maxAttempts) && r !in locked)
      && |picked| <= limit
      && (forall r | Claimable(r, mailbox, maxAttempts) && r !in locked && r !in picked ::
            |picked| == limit && forall p | p in picked :: rows[p].uid.value > rows[r].uid.value)
    }

    ghost function Claim(picked: set<Id>, now: nat): Tables {
      this.(rows := map r | r in rows ::
                      if r in picked then rows[r].(state := Fetching, claimedAt := Some(now)) else rows[r])
    }

    /** AttachBody; None is the not-found error, which changes nothing. */
    ghost function Attach(r: Id, content: Content): Option<Tables> {
      if r !in rows || rows[r].message !in messages then None
      else
        var was := rows[r].message;
        var attached := rows[r].(state := Stored, claimedAt := None);
        match MessageElsewhere(messages[was].account, Sha256(content), was)
        case Some(m) =>
          var moved := rows[r := attached.(message := m)];
          Some(this.(rows := moved,
                     messages := if exists i :: i in moved && moved[i].message == was
                                 then messages else messages - {was}))
        case None =>
          Some(this.(rows := rows[r := attached],
                     messages := messages[was := messages[was].(digest := Sha256(content),
                                                                size := |content|, blob := Some(content))]))
    }

    /** The row holding this content, other than the given one. */
    ghost function MessageElsewhere(account: Id, digest: Digest, except: Id): (r: Option<Id>)
      ensures r.Some? ==> r.value in messages && messages[r.value].account == account
                          && messages[r.value].digest == digest && r.value != except
      ensures r.None? ==> forall m | m in messages && m != except ::
                            messages[m].account != account || messages[m].digest != digest
    {
      if m :| m in messages && messages[m].account == account && messages[m].digest == digest && m != except
      then Some(m) else None
    }

    ghost function MarkFailed(r: Id, maxAttempts: int): Tables {
      if r !in rows then this
      else
        var n := rows[r].attempts + 1;
        this.(rows := rows[r := rows[r].(attempts := n, claimedAt := None,
                                         state := if n >= maxAttempts then Failed else Pending)])
    }

    ghost function MarkTooLarge(r: Id): Tables {
      if r !in rows then this
      else this.(rows := rows[r := rows[r].(state := TooLarge, claimedAt := None)])
    }

    /** ReapStaleClaims; cutoff is now minus the age. A NULL claimed_at never compares. */
    ghost function Reap(cutoff: nat): Tables {
      this.(rows := map r | r in rows ::
                      if rows[r].state == Fetching && rows[r].claimedAt.Some? && rows[r].claimedAt.value < cutoff
                      then rows[r].(state := Pending, claimedAt := None) else rows[r])
    }

    ghost function DeleteMissing(mailbox: Id, present: set<Uid>): Tables {
      this.(rows := map r | r in rows && !(rows[r].mailbox == mailbox && rows[r].uid.Some?
                                           && rows[r].uid.value !in present) :: rows[r])
    }

    ghost function SaveCheckpoint(mailbox: Id, c: Checkpoint): Tables {
      if mailbox !in mailboxes then this
      else
        var box := mailboxes[mailbox];
        var seen := box.(uidValidity := Some(c.uidValidity), resyncRequired := false,
                         watermark := Max(box.watermark, c.watermark));
        this.(mailboxes := mailboxes[mailbox :=
                if c.completed
                then seen.(uidNext := Some(c.uidNext),
                           highestModSeq := Some(Max(GetOr(box.highestModSeq, 0), c.highestModSeq)))
                else seen])
    }

    /** ResetForUIDValidityChange: uidnext is left as it was. */
    ghost function Reset(mailbox: Id, uidValidity: nat): Tables {
      if mailbox !in mailboxes then this
      else
        var box := mailboxes[mailbox];
        this.(rows := map r | r in rows ::
                        if rows[r].mailbox == mailbox then rows[r].(uid := None, modSeq := None) else rows[r],
              mailboxes := mailboxes[mailbox := box.(uidValidity := Some(uidValidity), highestModSeq := Some(0),
                                                     watermark := 0, resyncRequired := true,
                                                     generation := box.generation + 1)])
    }
  }

  // ---------------------------------------------------------------- runs of the store

  /** The ways a synchronisation changes the tables. The store has others, which serve mailbox
      discovery and clients: creating and deleting mailboxes, and setting flags locally. */
  datatype Statement =
    | DoUpsert(meta: Meta)
    | DoUpdateFlags(mailbox: Id, uid: Uid, flags: Flags, modSeq: nat)
    | DoClaim(mailbox: Id, limit: nat, maxAttempts: int, locked: set<Id>, picked: set<Id>, now: nat)
    | DoAttach(row: Id, content: Content)
    | DoMarkFailed(row: Id, maxAttempts: int)
    | DoMarkTooLarge(row: Id)
    | DoReap(cutoff: nat)
    | DoDeleteMissing(mailbox: Id, present: set<Uid>)
    | DoCheckpoint(mailbox: Id, checkpoint: Checkpoint)
    | DoReset(mailbox: Id, uidValidity: nat)

  /** A statement the store can issue in this state. */
  ghost predicate Enabled(t: Tables, s: Statement) {
    match s
    case DoUpsert(m) => m.mailbox in t.mailboxes
    case DoClaim(mailbox, limit, maxAttempts, locked, picked, _) =>
      t.ClaimChoice(picked, mailbox, limit, maxAttempts, locked)
    case _ => true
  }

  ghost function Apply(t: Tables, s: Statement): Tables
    requires t.Constraints() && Enabled(t, s)
  {
    match s
    case DoUpsert(m) => t.Upsert(m).0
    case DoUpdateFlags(mailbox, uid, flags, modSeq) => t.UpdateFlags(mailbox, uid, flags, modSeq)
    case DoClaim(_, _, _, _, picked, now) => t.Claim(picked, now)
    case DoAttach(r, content) => (match t.Attach(r, content) case Some(t') => t' case None => t)
    case DoMarkFailed(r, maxAttempts) => t.MarkFailed(r, maxAttempts)
    case DoMarkTooLarge(r) => t.MarkTooLarge(r)
    case DoReap(cutoff) => t.Reap(cutoff)
    case DoDeleteMissing(mailbox, present) => t.DeleteMissing(mailbox, present)
    case DoCheckpoint(mailbox, c) => t.SaveCheckpoint(mailbox, c)
    case DoReset(mailbox, uidValidity) => t.Reset(mailbox, uidValidity)
  }

  lemma UpsertMessageKeepsConstraints(t: Tables, account: Id, digest: Digest, size: nat)
    requires t.Constraints()
    ensures var (t', m) := t.UpsertMessage(account, digest, size);
            && t'.Constraints() && t'.rows == t.rows && t'.mailboxes == t.mailboxes && m in t'.messages
            && t'.messages[m].account == account && t'.messages[m].digest == digest
            && (forall i | i in t.messages :: i in t'.messages && t'.messages[i] == t.messages[i])
            && (forall i | i in t'.messages && i !in t.messages :: i == m && t'.messages[i].blob == None)
  {
  }

  lemma UpsertRowKeepsConstraints(t: Tables, m: Meta, message: Id)
    requires t.Constraints() && m.mailbox in t.mailboxes && message in t.messages
    ensures var t' := t.UpsertRow(m, message).0; t'.Constraints() && t'.messages == t.messages
  {
    var t' := t.UpsertRow(m, message).0;
    assert t'.messages == t.messages && t'.nextMessage == t.nextMessage;
    if t.RowWith(m.mailbox, m.uid).None? {
      assert t.nextRow !in t.rows;
    }
  }

  /** upsertMetadataTx row by row: either the row of this UID takes the new flags, or a
      pending row appears under a fresh id and the mailbox's next local UID. The local UID
      is spent either way. */
  lemma UpsertEffect(t: Tables, m: Meta)
    requires t.Constraints() && m.mailbox in t.mailboxes
    ensures var (t', created) := t.Upsert(m);
            var box := t.mailboxes[m.mailbox];
            && t'.mailboxes == t.mailboxes[m.mailbox := box.(localUidNext := box.localUidNext + 1)]
            && created == t.RowWith(m.mailbox, m.uid).None?
            && (forall i | i in t.messages :: i in t'.messages && t'.messages[i] == t.messages[i])
            && (!created ==>
                  var r := t.RowWith(m.mailbox, m.uid).value;
                  t'.rows == t.rows[r := t.rows[r].(flags := m.flags, modSeq := Nullable(m.modSeq))])
            && (created ==>
                  && t.nextRow !in t.rows && t.nextRow in t'.rows
                  && t'.rows == t.rows[t.nextRow := t'.rows[t.nextRow]]
                  && t'.rows[t.nextRow] == Row(m.mailbox, t'.rows[t.nextRow].message, box.localUidNext, Some(m.uid),
                                               Nullable(m.modSeq), m.flags, Pending, 0, None)
                  && t'.rows[t.nextRow].message in t'.messages
                  && t'.messages[t'.rows[t.nextRow].message].digest == Placeholder(m.mailbox, m.uid)
                  && t'.messages[t'.rows[t.nextRow].message].account == box.account)
  {
    var account, digest := t.mailboxes[m.mailbox].account, Placeholder(m.mailbox, m.uid);
    UpsertMessageKeepsConstraints(t, account, digest, m.size);
    var t1 := t.UpsertMessage(account, digest, m.size).0;
    assert t1.RowWith(m.mailbox, m.uid) == t.RowWith(m.mailbox, m.uid);
  }

  /** A row id is spent either way. */
  lemma UpsertTakesId(t: Tables, m: Meta)
    requires m.mailbox in t.mailboxes
    ensures t.Upsert(m).0.nextRow == t.nextRow + 1
  {
  }

  lemma UpsertKeepsConstraints(t: Tables, m: Meta)
    requires t.Constraints() && m.mailbox in t.mailboxes
    ensures t.Upsert(m).0.Constraints()
  {
    var account, digest := t.mailboxes[m.mailbox].account, Placeholder(m.mailbox, m.uid);
    UpsertMessageKeepsConstraints(t, account, digest, m.size);
    var (t1, message) := t.UpsertMessage(account, digest, m.size);
    UpsertRowKeepsConstraints(t1, m, message);
  }

  lemma AttachKeepsDigestsUnique(t: Tables, r: Id, content: Content)
    requires t.DigestsUnique() && t.Linked() && r in t.rows
    ensures t.Attach(r, content).Some? && t.Attach(r, content).value.DigestsUnique()
  {
  }

  lemma AttachKeepsLinks(t: Tables, r: Id, content: Content)
    requires t.UidsUnique() && t.Linked() && r in t.rows
    ensures t.Attach(r, content).Some?
    ensures t.Attach(r, content).value.UidsUnique() && t.Attach(r, content).value.Linked()
  {
    var t' := t.Attach(r, content).value;
    assert forall i | i in t'.rows :: t'.rows[i].mailbox == t.rows[i].mailbox && t'.rows[i].uid == t.rows[i].uid;
  }

  lemma AttachKeepsConstraints(t: Tables, r: Id, content: Content)
    requires t.Constraints() && r in t.rows
    ensures t.Attach(r, content).Some? && t.Attach(r, content).value.Constraints()
  {
    AttachKeepsDigestsUnique(t, r, content);
    AttachKeepsLinks(t, r, content);
    hide Tables.Attach;
  }

  /** Rows are rewritten or deleted without changing what they refer to, UIDs are cleared
      at most, and no row becomes stored; messages and accounts stay. */
  ghost predicate OnlyRowUpdates(t: Tables, t': Tables) {
    && t'.messages == t.messages && t'.mailboxes.Keys == t.mailboxes.Keys
    && t'.nextMessage == t.nextMessage && t'.nextRow == t.nextRow
    && (forall b | b in t.mailboxes ::
          t'.mailboxes[b].account == t.mailboxes[b].account
          && t'.mailboxes[b].localUidNext == t.mailboxes[b].localUidNext)
    && (forall r | r in t'.rows :: r in t.rows && OnlyUpdated(t.rows[r], t'.rows[r]))
  }

  predicate OnlyUpdated(row: Row, row': Row) {
    && row'.mailbox == row.mailbox && row'.message == row.message && row'.localUid == row.localUid
    && (row'.uid == row.uid || row'.uid == None)
    && (row'.state == Stored ==> row.state == Stored)
  }

  lemma RowUpdatesKeepConstraints(t: Tables, t': Tables)
    requires t.Constraints() && OnlyRowUpdates(t, t')
    ensures t'.Constraints()
  {
  }

  lemma MailboxStatementEffect(t: Tables, mailbox: Id, c: Checkpoint, uidValidity: nat)
    ensures OnlyRowUpdates(t, t.SaveCheckpoint(mailbox, c)) && OnlyRowUpdates(t, t.Reset(mailbox, uidValidity))
  {
  }

  lemma MarkEffect(t: Tables, r: Id, maxAttempts: int)
    ensures OnlyRowUpdates(t, t.MarkFailed(r, maxAttempts)) && OnlyRowUpdates(t, t.MarkTooLarge(r))
  {
  }

  lemma RowStatementEffect(t: Tables, mailbox: Id, uid: Uid, flags: Flags, modSeq: nat, present: set<Uid>)
    ensures OnlyRowUpdates(t, t.UpdateFlags(mailbox, uid, flags, modSeq))
    ensures OnlyRowUpdates(t, t.DeleteMissing(mailbox, present))
  {
  }

  lemma QueueStatementEffect(t: Tables, picked: set<Id>, now: nat, cutoff: nat)
    ensures OnlyRowUpdates(t, t.Claim(picked, now)) && OnlyRowUpdates(t, t.Reap(cutoff))
  {
  }

  /** Every statement other than an upsert or an attach is of that kind. */
  lemma OtherStatementEffect(t: Tables, s: Statement)
    requires t.Constraints() && Enabled(t, s) && !s.DoUpsert? && !s.DoAttach?
    ensures OnlyRowUpdates(t, Apply(t, s))
  {
    hide OnlyRowUpdates, Tables.Constraints;
    match s
    case DoMarkFailed(r, maxAttempts) => MarkEffect(t, r, maxAttempts);
    case DoMarkTooLarge(r) => MarkEffect(t, r, 0);
    case DoCheckpoint(mailbox, c) => MailboxStatementEffect(t, mailbox, c, 0);
    case DoReset(mailbox, uidValidity) =>
      MailboxStatementEffect(t, mailbox, Checkpoint(0, 0, 0, 0, false), uidValidity);
    case DoUpdateFlags(mailbox, uid, flags, modSeq) => RowStatementEffect(t, mailbox, uid, flags, modSeq, {});
    case DoDeleteMissing(mailbox, present) => RowStatementEffect(t, mailbox, 0, {}, 0, present);
    case DoClaim(_, _, _, _, picked, now) => QueueStatementEffect(t, picked, now, 0);
    case DoReap(cutoff) => QueueStatementEffect(t, {}, 0, cutoff);
  }

  /** No statement can violate a unique index or leave a dangling reference. */
  lemma ConstraintsHold(t: Tables, s: Statement)
    requires t.Constraints() && Enabled(t, s)
    ensures Apply(t, s).Constraints()
  {
    match s
    case DoUpsert(m) => UpsertKeepsConstraints(t, m);
    case DoAttach(r, content) =>
      if r in t.rows {
        AttachKeepsConstraints(t, r, content);
      }
    case _ =>
      OtherStatementEffect(t, s);
      RowUpdatesKeepConstraints(t, Apply(t, s));
  }

  // ---------------------------------------------------------------- statements, told from outside

  /** A flag update writes the rows of this UID and no other, and a mod-sequence only if there is
      one. */
  lemma FlagsEffect(t: Tables, mailbox: Id, uid: Uid, flags: Flags, modSeq: nat)
    ensures var t' := t.UpdateFlags(mailbox, uid, flags, modSeq);
            && t' == t.(rows := t'.rows) && t'.rows.Keys == t.rows.Keys
            && forall r | r in t.rows ::
                 if t.rows[r].mailbox == mailbox && t.rows[r].uid == Some(uid) then
                   && t'.rows[r] == t.rows[r].(flags := flags, modSeq := t'.rows[r].modSeq)
                   && (modSeq > 0 ==> t'.rows[r].modSeq == Some(modSeq))
                   && (modSeq == 0 ==> t'.rows[r].modSeq == t.rows[r].modSeq)
                 else t'.rows[r] == t.rows[r]
  {
  }

  /** A claim takes pending rows of the mailbox that have a UID and attempts left, and that nobody
      has locked; it leaves such a row only for newer ones, as many as it may take. */
  lemma ChoiceIs(t: Tables, picked: set<Id>, mailbox: Id, limit: nat, maxAttempts: int, locked: set<Id>)
    requires t.ClaimChoice(picked, mailbox, limit, maxAttempts, locked)
    ensures |picked| <= limit && picked !! locked
    ensures forall r | r in picked ::
              && r in t.rows && t.rows[r].mailbox == mailbox && t.rows[r].state == Pending && t.rows[r].uid.Some?
              && t.rows[r].attempts < maxAttempts
    ensures forall r | r in t.rows && r !in picked && r !in locked && t.rows[r].mailbox == mailbox
                       && t.rows[r].state == Pending && t.rows[r].uid.Some? && t.rows[r].attempts < maxAttempts ::
              |picked| == limit && forall p | p in picked :: p in t.rows && NewerUid(t.rows[p], t.rows[r])
  {
    forall r | r in t.rows && r !in picked && r !in locked && t.rows[r].mailbox == mailbox
               && t.rows[r].state == Pending && t.rows[r].uid.Some? && t.rows[r].attempts < maxAttempts
      ensures |picked| == limit && forall p | p in picked :: p in t.rows && NewerUid(t.rows[p], t.rows[r])
    {
      assert t.Claimable(r, mailbox, maxAttempts);
    }
  }

  predicate NewerUid(a: Row, b: Row) {
    a.uid.Some? && b.uid.Some? && a.uid.value > b.uid.value
  }

  /** Claiming stamps exactly the rows picked. */
  lemma ClaimIs(t: Tables, picked: set<Id>, now: nat)
    ensures var t' := t.Claim(picked, now);
            && t' == t.(rows := t'.rows) && t'.rows.Keys == t.rows.Keys
            && forall r | r in t.rows ::
                 t'.rows[r] == if r in picked then t.rows[r].(state := Fetching, claimedAt := Some(now)) else t.rows[r]
  {
  }

  /** After a repointing the old message is there exactly if another row still refers to it. */
  lemma AttachDropsOrphan(t: Tables, r: Id, content: Content)
    requires t.Linked() && r in t.rows && t.Attach(r, content).Some?
    requires exists m :: m in t.messages && m != t.rows[r].message && t.messages[m].digest == Sha256(content)
                         && t.messages[m].account == t.messages[t.rows[r].message].account
    ensures var t', was := t.Attach(r, content).value, t.rows[r].message;
            && (was in t'.messages <==> exists o :: o in t.rows && o != r && t.rows[o].message == was)
            && t'.messages.Keys == t.messages.Keys - (if was in t'.messages then {} else {was})
            && t'.rows[r].message != was
            && (forall m | m in t'.messages :: t'.messages[m] == t.messages[m])
  {
    var t', was := t.Attach(r, content).value, t.rows[r].message;
    assert t.MessageElsewhere(t.messages[was].account, Sha256(content), was).Some?;
    forall o | o in t.rows && o != r && t.rows[o].message == was
      ensures was in t'.messages
    {
      assert t'.rows[o].message == was;
    }
  }

  /** The columns a checkpoint writes, and those it does not. */
  lemma CheckpointEffect(t: Tables, mailbox: Id, c: Checkpoint)
    requires mailbox in t.mailboxes
    ensures var t' := t.SaveCheckpoint(mailbox, c);
            && mailbox in t'.mailboxes && t' == t.(mailboxes := t.mailboxes[mailbox := t'.mailboxes[mailbox]])
            && var box, box' := t.mailboxes[mailbox], t'.mailboxes[mailbox];
               && box'.uidValidity == Some(c.uidValidity) && !box'.resyncRequired
               && box'.watermark >= box.watermark && box'.watermark >= c.watermark
               && (box'.watermark == box.watermark || box'.watermark == c.watermark)
               && box'.account == box.account && box'.generation == box.generation
               && box'.localUidNext == box.localUidNext
               && (!c.completed ==> box'.uidNext == box.uidNext && box'.highestModSeq == box.highestModSeq)
               && (c.completed ==>
                     && box'.uidNext == Some(c.uidNext) && box'.highestModSeq.Some?
                     && box'.highestModSeq.value >= c.highestModSeq
                     && (box.highestModSeq.Some? ==> box'.highestModSeq.value >= box.highestModSeq.value)
                     && (box'.highestModSeq.value == c.highestModSeq || box'.highestModSeq == box.highestModSeq))
  {
  }

  /** The columns a reset writes, and what it leaves of the rows. */
  lemma ResetEffect(t: Tables, mailbox: Id, uidValidity: nat)
    requires mailbox in t.mailboxes
    ensures var t' := t.Reset(mailbox, uidValidity);
            && mailbox in t'.mailboxes
            && t' == t.(rows := t'.rows, mailboxes := t.mailboxes[mailbox := t'.mailboxes[mailbox]])
            && t'.rows.Keys == t.rows.Keys
            && (forall r | r in t.rows ::
                  t'.rows[r] == if t.rows[r].mailbox == mailbox then t.rows[r].(uid := None, modSeq := None)
                                else t.rows[r])
            && var box, box' := t.mailboxes[mailbox], t'.mailboxes[mailbox];
               && box' == box.(uidValidity := box'.uidValidity, highestModSeq := box'.highestModSeq,
                               watermark := 0, resyncRequired := true, generation := box.generation + 1)
               && box'.uidValidity == Some(uidValidity) && box'.highestModSeq == Some(0)
  {
  }

  /** Rows may go, but none is renamed. */
  ghost predicate KeepsUids(t: Tables, t': Tables) {
    t'.nextRow >= t.nextRow && forall r | r in t'.rows && r < t.nextRow ::
      r in t.rows && t'.rows[r].mailbox == t.rows[r].mailbox && t'.rows[r].uid == t.rows[r].uid
  }

  lemma MarksKeepUids(t: Tables, r: Id, n: int, picked: set<Id>, now: nat, cutoff: nat)
    requires t.Linked()
    ensures KeepsUids(t, t.MarkFailed(r, n)) && KeepsUids(t, t.MarkTooLarge(r))
    ensures KeepsUids(t, t.Claim(picked, now)) && KeepsUids(t, t.Reap(cutoff))
  {
  }

  lemma MetadataKeepsUids(t: Tables, b: Id, uid: Uid, flags: Flags, n: nat, present: set<Uid>, c: Checkpoint)
    requires t.Linked()
    ensures KeepsUids(t, t.UpdateFlags(b, uid, flags, n)) && KeepsUids(t, t.DeleteMissing(b, present))
    ensures KeepsUids(t, t.SaveCheckpoint(b, c))
  {
  }

  lemma UpsertKeepsUids(t: Tables, m: Meta)
    requires t.Constraints() && m.mailbox in t.mailboxes
    ensures KeepsUids(t, t.Upsert(m).0)
  {
    UpsertEffect(t, m);
    hide Tables.Upsert, Tables.DigestsUnique, Tables.UidsUnique;
    UpsertTakesId(t, m);
  }

  lemma AttachKeepsUids(t: Tables, r: Id, content: Content)
    ensures t.Attach(r, content).Some? ==> KeepsUids(t, t.Attach(r, content).value)
    ensures KeepsUids(t, t)
  {
  }

  /** Only a renumbering of its own mailbox takes a row's UID away. */
  lemma OnlyResetRenames(t: Tables, s: Statement)
    requires t.Constraints() && Enabled(t, s) && !s.DoReset?
    ensures KeepsUids(t, Apply(t, s))
  {
    hide KeepsUids, Tables.Attach, Tables.Upsert;
    var c := Checkpoint(0, 0, 0, 0, false);
    match s
    case DoUpsert(m) => UpsertKeepsUids(t, m);
    case DoAttach(r, content) => AttachKeepsUids(t, r, content);
    case DoUpdateFlags(b, uid, flags, n) => MetadataKeepsUids(t, b, uid, flags, n, {}, c);
    case DoDeleteMissing(b, present) => MetadataKeepsUids(t, b, 0, {}, 0, present, c);
    case DoCheckpoint(b, c') => MetadataKeepsUids(t, b, 0, {}, 0, {}, c');
    case DoMarkFailed(r, n) => MarksKeepUids(t, r, n, {}, 0, 0);
    case DoMarkTooLarge(r) => MarksKeepUids(t, r, 0, {}, 0, 0);
    case DoClaim(_, _, _, _, picked, now) => MarksKeepUids(t, 0, 0, picked, now, 0);
    case DoReap(cutoff) => MarksKeepUids(t, 0, 0, {}, 0, cutoff);
  }

  lemma ResetRenames(t: Tables, b: Id, v: nat)
    ensures t.Reset(b, v).nextRow == t.nextRow
    ensures forall r | r in t.Reset(b, v).rows ::
              && r in t.rows && t.Reset(b, v).rows[r].mailbox == t.rows[r].mailbox
              && (|| t.Reset(b, v).rows[r].uid == t.rows[r].uid
                  || (t.rows[r].mailbox == b && t.Reset(b, v).rows[r].uid == None))
  {
  }

  /** Deleting what has vanished leaves exactly the mirrored UIDs that are present, and leaves
      alone whatever has no UID or belongs to another mailbox; doing it for two answers in
      turn is doing it once for what they have in common. */
  lemma DeletionKeepsPresent(t: Tables, mailbox: Id, p: set<Uid>, q: set<Uid>)
    ensures var t' := t.DeleteMissing(mailbox, p);
            && t'.UidsOf(mailbox) == t.UidsOf(mailbox) * p
            && (forall b | b != mailbox :: t'.RowsOf(b) == t.RowsOf(b) && t'.UidsOf(b) == t.UidsOf(b))
            && (forall r | r in t.RowsOf(mailbox) && t.rows[r].uid == None :: r in t'.RowsOf(mailbox))
            && t'.DeleteMissing(mailbox, q) == t.DeleteMissing(mailbox, p * q)
  {
    var t' := t.DeleteMissing(mailbox, p);
    UidsAfterDeletion(t, mailbox, p);
    forall b | b != mailbox
      ensures t'.RowsOf(b) == t.RowsOf(b) && t'.UidsOf(b) == t.UidsOf(b)
    {
      OthersAfterDeletion(t, mailbox, p, b);
    }
    assert t'.DeleteMissing(mailbox, q).rows == t.DeleteMissing(mailbox, p * q).rows;
  }

  lemma UidsAfterDeletion(t: Tables, mailbox: Id, p: set<Uid>)
    ensures t.DeleteMissing(mailbox, p).UidsOf(mailbox) == t.UidsOf(mailbox) * p
  {
    var t' := t.DeleteMissing(mailbox, p);
    forall u | u in t.UidsOf(mailbox) * p
      ensures u in t'.UidsOf(mailbox)
    {
      var r :| r in t.rows && t.rows[r].mailbox == mailbox && t.rows[r].uid == Some(u);
      assert r in t'.rows;
    }
  }

  lemma OthersAfterDeletion(t: Tables, mailbox: Id, p: set<Uid>, b: Id)
    requires b != mailbox
    ensures t.DeleteMissing(mailbox, p).RowsOf(b) == t.RowsOf(b)
    ensures t.DeleteMissing(mailbox, p).UidsOf(b) == t.UidsOf(b)
  {
    var t' := t.DeleteMissing(mailbox, p);
    assert t'.RowsOf(b) == t.RowsOf(b);
    forall u | u in t.UidsOf(b)
      ensures u in t'.UidsOf(b)
    {
      var r :| r in t.rows && t.rows[r].mailbox == b && t.rows[r].uid == Some(u);
      assert r in t'.rows;
    }
  }

  /** States ts[0], ts[1], … joined by statements: any process history, any interleaving. */
  ghost predicate Run(ts: seq<Tables>, ss: seq<Statement>) {
    && |ts| == |ss| + 1
    && ts[0].Constraints()
    && forall i | 0 <= i < |ss| ::
         ts[i].Constraints() && Enabled(ts[i], ss[i]) && ts[i + 1] == Apply(ts[i], ss[i])
  }

  lemma RunKeepsConstraints(ts: seq<Tables>, ss: seq<Statement>, i: nat)
    requires Run(ts, ss) && i < |ts|
    ensures ts[i].Constraints()
  {
    if i == |ss| && i > 0 {
      ConstraintsHold(ts[i - 1], ss[i - 1]);
    }
  }
}
