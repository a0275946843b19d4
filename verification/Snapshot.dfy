/** Local UIDs and the sequence-number snapshot a client's session works on: a local UID is
    never given to a second message, and a sequence number keeps its message until a deletion
    (sections 2.3.1.1 and 2.3.1.2 of RFC 3501). */
module Snapshot {
  import opened Wrappers
  import opened Tables
  import Store

  // ---------------------------------------------------------------- local UIDs over a history

  /** Below the mailbox's counter, and no two alike. */
  ghost predicate LocalUidsOk(t: Tables) {
    && (forall r | r in t.rows && t.rows[r].mailbox in t.mailboxes ::
          t.rows[r].localUid < t.mailboxes[t.rows[r].mailbox].localUidNext)
    && (forall a, b | a in t.rows && b in t.rows && a != b && t.rows[a].mailbox == t.rows[b].mailbox ::
          t.rows[a].localUid != t.rows[b].localUid)
  }

  /** Counters only advance, a surviving row keeps its mailbox and local UID, and a new row
      gets an id and a local UID above everything its mailbox has ever handed out. */
  ghost predicate Advances(t: Tables, t': Tables) {
    CountersAdvance(t, t') && RowsAdvance(t, t')
  }

  ghost predicate CountersAdvance(t: Tables, t': Tables) {
    && t.nextRow <= t'.nextRow && t.mailboxes.Keys <= t'.mailboxes.Keys
    && forall b | b in t.mailboxes :: t.mailboxes[b].localUidNext <= t'.mailboxes[b].localUidNext
  }

  ghost predicate RowsAdvance(t: Tables, t': Tables) {
    forall r | r in t'.rows :: RowAdvances(t, t', r)
  }

  /** A row is an earlier one, or new and under a later local UID. */
  predicate RowAdvances(t: Tables, t': Tables, r: Id)
    requires r in t'.rows
  {
    && (r < t.nextRow ==> r in t.rows && SameUid(t.rows[r], t'.rows[r]))
    && (r >= t.nextRow && t'.rows[r].mailbox in t.mailboxes ==>
          t'.rows[r].localUid >= t.mailboxes[t'.rows[r].mailbox].localUidNext)
  }

  predicate SameUid(row: Row, row': Row) {
    row'.mailbox == row.mailbox && row'.localUid == row.localUid
  }

  lemma AdvancesTransitive(a: Tables, b: Tables, c: Tables)
    requires Advances(a, b) && Advances(b, c)
    ensures Advances(a, c)
  {
    CountersTransitive(a, b, c);
    hide RowAdvances;
    forall r | r in c.rows
      ensures RowAdvances(a, c, r)
    {
      RowTransitive(a, b, c, r);
    }
  }

  lemma CountersTransitive(a: Tables, b: Tables, c: Tables)
    requires CountersAdvance(a, b) && CountersAdvance(b, c)
    ensures CountersAdvance(a, c)
  {
  }

  lemma RowTransitive(a: Tables, b: Tables, c: Tables, r: Id)
    requires Advances(a, b) && Advances(b, c) && r in c.rows
    ensures RowAdvances(a, c, r)
  {
    assert RowAdvances(b, c, r);
    if r in b.rows {
      assert RowAdvances(a, b, r);
    }
  }

  lemma UpsertAdvances(t: Tables, m: Meta)
    requires t.Constraints() && m.mailbox in t.mailboxes
    ensures Advances(t, t.Upsert(m).0)
  {
    UpsertEffect(t, m);
    UpsertTakesId(t, m);
    hide Tables.Upsert, Tables.DigestsUnique, Tables.UidsUnique;
  }

  lemma UpsertKeepsUidsOk(t: Tables, m: Meta)
    requires t.Constraints() && m.mailbox in t.mailboxes && LocalUidsOk(t)
    ensures LocalUidsOk(t.Upsert(m).0)
  {
    UpsertEffect(t, m);
    hide Tables.Constraints, Tables.Upsert;
  }

  lemma AttachAdvances(t: Tables, r: Id, content: Content)
    requires t.Linked() && t.Attach(r, content).Some?
    ensures Advances(t, t.Attach(r, content).value)
    ensures LocalUidsOk(t) ==> LocalUidsOk(t.Attach(r, content).value)
  {
    var t' := t.Attach(r, content).value;
    assert forall i | i in t'.rows :: i in t.rows && SameUid(t.rows[i], t'.rows[i]);
    assert t'.mailboxes == t.mailboxes && t'.nextRow == t.nextRow;
    hide Tables.Attach;
  }

  lemma RowUpdatesAdvance(t: Tables, t': Tables)
    requires t.Linked() && OnlyRowUpdates(t, t')
    ensures Advances(t, t') && (LocalUidsOk(t) ==> LocalUidsOk(t'))
  {
    assert forall i | i in t'.rows :: i in t.rows && SameUid(t.rows[i], t'.rows[i]);
  }

  lemma AdvancesReflexive(t: Tables)
    requires t.Constraints()
    ensures Advances(t, t)
  {
  }

  lemma StatementAdvances(t: Tables, s: Statement)
    requires t.Constraints() && Enabled(t, s) && LocalUidsOk(t)
    ensures Advances(t, Apply(t, s)) && LocalUidsOk(Apply(t, s))
  {
    hide Advances, LocalUidsOk, OnlyRowUpdates, Tables.Attach, Tables.Upsert, Tables.DigestsUnique, Tables.UidsUnique,
         Tables.Linked;
    AdvancesReflexive(t);
    match s
    case DoUpsert(m) =>
      UpsertAdvances(t, m);
      UpsertKeepsUidsOk(t, m);
    case DoAttach(r, content) =>
      if t.Attach(r, content).Some? {
        AttachAdvances(t, r, content);
      }
    case _ =>
      hide Apply, Enabled;
      OtherStatementEffect(t, s);
      RowUpdatesAdvance(t, Apply(t, s));
  }

  lemma RunStep(ts: seq<Tables>, ss: seq<Statement>, i: nat)
    requires Run(ts, ss) && i < |ss|
    ensures |ts| == |ss| + 1 && ts[i].Constraints() && Enabled(ts[i], ss[i]) && ts[i + 1] == Apply(ts[i], ss[i])
  {
  }

  lemma RunLength(ts: seq<Tables>, ss: seq<Statement>)
    requires Run(ts, ss)
    ensures |ts| == |ss| + 1
  {
  }

  lemma {:induction false} HistoryUidsOk(ts: seq<Tables>, ss: seq<Statement>, i: nat)
    requires Run(ts, ss) && i < |ts| && LocalUidsOk(ts[0])
    ensures LocalUidsOk(ts[i])
  {
    hide Run, LocalUidsOk, Advances, Apply, Enabled, Tables.Constraints;
    RunLength(ts, ss);
    if i > 0 {
      HistoryUidsOk(ts, ss, i - 1);
      RunStep(ts, ss, i - 1);
      StatementAdvances(ts[i - 1], ss[i - 1]);
    }
  }

  lemma {:induction false} HistoryAdvances(ts: seq<Tables>, ss: seq<Statement>, i: nat, j: nat)
    requires Run(ts, ss) && i <= j < |ts| && LocalUidsOk(ts[0])
    ensures Advances(ts[i], ts[j])
    decreases j
  {
    hide Run, LocalUidsOk, Advances, Apply, Enabled, Tables.Constraints;
    RunLength(ts, ss);
    if i == j {
      RunKeepsConstraints(ts, ss, i);
      AdvancesReflexive(ts[i]);
    } else {
      HistoryAdvances(ts, ss, i, j - 1);
      HistoryUidsOk(ts, ss, j - 1);
      RunStep(ts, ss, j - 1);
      StatementAdvances(ts[j - 1], ss[j - 1]);
      AdvancesTransitive(ts[i], ts[j - 1], ts[j]);
    }
  }

  /** Whatever happens in between, deletions and resets included: a row that turns up later has
      a larger local UID than everything its mailbox held before, and one local UID of a
      mailbox always means the same row. */
  lemma LocalUidsNeverRebound(ts: seq<Tables>, ss: seq<Statement>, i: nat, j: nat, a: Id, b: Id)
    requires Run(ts, ss) && i <= j < |ts| && LocalUidsOk(ts[0])
    requires a in ts[i].rows && b in ts[j].rows && ts[i].rows[a].mailbox == ts[j].rows[b].mailbox
    ensures b !in ts[i].rows ==> ts[j].rows[b].localUid > ts[i].rows[a].localUid
    ensures ts[j].rows[b].localUid == ts[i].rows[a].localUid <==> a == b
  {
    HistoryAdvances(ts, ss, i, j);
    HistoryUidsOk(ts, ss, i);
    RunKeepsConstraints(ts, ss, i);
    hide Run;
    NeverRebound(ts[i], ts[j], a, b);
  }

  lemma NeverRebound(t: Tables, t': Tables, a: Id, b: Id)
    requires t.Linked() && LocalUidsOk(t) && Advances(t, t')
    requires a in t.rows && b in t'.rows && t.rows[a].mailbox == t'.rows[b].mailbox
    ensures b !in t.rows ==> t'.rows[b].localUid > t.rows[a].localUid
    ensures t'.rows[b].localUid == t.rows[a].localUid <==> a == b
  {
    if b < t.nextRow {
      assert b in t.rows && SameUid(t.rows[b], t'.rows[b]);
    }
  }

  // ---------------------------------------------------------------- the ordered view

  /** A place in the view: a row and its local UID. */
  datatype Entry = Entry(row: Id, localUid: nat)

  datatype Summary = Summary(entry: Entry, uid: nat, flags: Flags)

  /** What a listing says of a row; a NULL upstream UID reads as 0. */
  function Describe(r: Id, row: Row): Summary {
    Summary(Entry(r, row.localUid), GetOr(row.uid, 0), row.flags)
  }

  function Entries(list: seq<Summary>): (entries: seq<Entry>)
    ensures |entries| == |list|
  {
    seq(|list|, i requires 0 <= i < |list| => list[i].entry)
  }

  ghost function Elements(entries: seq<Entry>): set<Entry> {
    set e | e in entries
  }

  ghost function EntriesOf(t: Tables, mailbox: Id): set<Entry> {
    set r | r in t.rows && t.rows[r].mailbox == mailbox :: Entry(r, t.rows[r].localUid)
  }

  predicate Ascending(entries: seq<Entry>) {
    forall i, j | 0 <= i < j < |entries| :: entries[i].localUid < entries[j].localUid
  }

  ghost predicate AllDescribed(list: seq<Summary>, t: Tables) {
    forall i | 0 <= i < |list| :: IsDescribed(list[i], t)
  }

  /** Local UID, upstream UID and flags are the row's; no upstream UID reads as 0. */
  predicate IsDescribed(s: Summary, t: Tables) {
    && s.entry.row in t.rows && s.entry.localUid == t.rows[s.entry.row].localUid
    && s.flags == t.rows[s.entry.row].flags
    && (if t.rows[s.entry.row].uid.Some? then s.uid == t.rows[s.entry.row].uid.value else s.uid == 0)
  }

  /** All rows of the mailbox, each once and as it is, by ascending local UID. */
  ghost predicate IsView(list: seq<Summary>, t: Tables, mailbox: Id) {
    Ascending(Entries(list)) && Elements(Entries(list)) == EntriesOf(t, mailbox) && AllDescribed(list, t)
  }

  /** Everything new comes after everything old. */
  ghost predicate OnlyLater(old': set<Entry>, new': set<Entry>) {
    old' <= new' && forall x, y | x in old' && y in new' && y !in old' :: x.localUid < y.localUid
  }

  lemma WithoutFirst(entries: seq<Entry>)
    requires entries != [] && Ascending(entries)
    ensures Ascending(entries[1..]) && entries[0] !in Elements(entries[1..])
    ensures Elements(entries) == Elements(entries[1..]) + {entries[0]}
  {
  }

  /** Ascending lists of which one only extends the other upwards begin alike. */
  lemma FirstOfBoth(before: seq<Entry>, after: seq<Entry>)
    requires Ascending(before) && Ascending(after) && OnlyLater(Elements(before), Elements(after)) && before != []
    ensures after != [] && before[0] == after[0]
  {
    assert before[0] in Elements(before);
    var m :| 0 <= m < |after| && after[m] == before[0];
    assert after[0] in Elements(after);
  }

  lemma LaterWithoutBoth(old': set<Entry>, new': set<Entry>, e: Entry)
    requires OnlyLater(old' + {e}, new' + {e}) && e !in old' && e !in new'
    ensures OnlyLater(old', new')
  {
  }

  /** So the shorter is a prefix of the longer. */
  lemma {:induction false} UpwardsIsPrefix(before: seq<Entry>, after: seq<Entry>)
    requires Ascending(before) && Ascending(after) && OnlyLater(Elements(before), Elements(after))
    ensures before <= after
  {
    hide Ascending, Elements, OnlyLater;
    if before != [] {
      FirstOfBoth(before, after);
      WithoutFirst(before);
      WithoutFirst(after);
      LaterWithoutBoth(Elements(before[1..]), Elements(after[1..]), after[0]);
      UpwardsIsPrefix(before[1..], after[1..]);
    }
  }

  lemma EntrySurvives(t: Tables, t': Tables, mailbox: Id, x: Entry)
    requires t.Linked() && Advances(t, t') && x in EntriesOf(t, mailbox) && x.row in t'.rows
    ensures x in EntriesOf(t', mailbox)
  {
    assert SameUid(t.rows[x.row], t'.rows[x.row]);
  }

  lemma EntryIsLater(t: Tables, t': Tables, mailbox: Id, x: Entry, y: Entry)
    requires t.Linked() && LocalUidsOk(t) && Advances(t, t')
    requires x in EntriesOf(t, mailbox) && y in EntriesOf(t', mailbox) && y !in EntriesOf(t, mailbox)
    ensures x.localUid < y.localUid
  {
    SurvivorWasThere(t, t', mailbox, y);
    NeverRebound(t, t', x.row, y.row);
  }

  lemma SurvivorWasThere(t: Tables, t': Tables, mailbox: Id, y: Entry)
    requires t.Linked() && Advances(t, t') && y in EntriesOf(t', mailbox)
    ensures y.row in t.rows ==> y in EntriesOf(t, mailbox)
  {
    assert y.row in t.rows ==> SameUid(t.rows[y.row], t'.rows[y.row]);
  }

  lemma NewEntriesAreLater(t: Tables, t': Tables, mailbox: Id)
    requires t.Linked() && LocalUidsOk(t) && Advances(t, t') && t.RowsOf(mailbox) <= t'.RowsOf(mailbox)
    ensures OnlyLater(EntriesOf(t, mailbox), EntriesOf(t', mailbox))
  {
    hide Advances, LocalUidsOk, Tables.Linked, SameUid;
    forall x | x in EntriesOf(t, mailbox)
      ensures x in EntriesOf(t', mailbox)
    {
      assert x.row in t.RowsOf(mailbox);
      EntrySurvives(t, t', mailbox, x);
    }
    hide EntriesOf;
    forall x, y | x in EntriesOf(t, mailbox) && y in EntriesOf(t', mailbox) && y !in EntriesOf(t, mailbox)
      ensures x.localUid < y.localUid
    {
      EntryIsLater(t, t', mailbox, x, y);
    }
  }

  lemma PrefixHasMembers(before: seq<Entry>, after: seq<Entry>)
    requires before <= after
    ensures Elements(before) <= Elements(after)
  {
  }

  lemma RowsByEntries(t: Tables, mailbox: Id, r: Id)
    ensures r in t.RowsOf(mailbox) <==> r in t.rows && Entry(r, t.rows[r].localUid) in EntriesOf(t, mailbox)
    ensures forall e | e in EntriesOf(t, mailbox) :: e.row in t.RowsOf(mailbox)
  {
  }

  /** The old snapshot is a prefix of the new one exactly when none of its messages was
      deleted; then every sequence number still means the same message. */
  lemma OldSnapshotIsPrefixIff(before: seq<Summary>, after: seq<Summary>, t: Tables, t': Tables, mailbox: Id)
    requires IsView(before, t, mailbox) && IsView(after, t', mailbox)
    requires t.Linked() && LocalUidsOk(t) && Advances(t, t')
    ensures Entries(before) <= Entries(after) <==> t.RowsOf(mailbox) <= t'.RowsOf(mailbox)
  {
    hide Advances, LocalUidsOk, AllDescribed, Ascending, OnlyLater, Tables.Linked, EntriesOf, Elements, Entries;
    if t.RowsOf(mailbox) <= t'.RowsOf(mailbox) {
      NewEntriesAreLater(t, t', mailbox);
      UpwardsIsPrefix(Entries(before), Entries(after));
    }
    if Entries(before) <= Entries(after) {
      PrefixHasMembers(Entries(before), Entries(after));
      forall r | r in t.RowsOf(mailbox)
        ensures r in t'.RowsOf(mailbox)
      {
        RowsByEntries(t, mailbox, r);
        RowsByEntries(t', mailbox, r);
      }
    }
  }

  // ---------------------------------------------------------------- a client's session

  ghost predicate Listed(out: seq<Summary>, rest: set<Id>, t: Tables, mailbox: Id) {
    && rest <= t.RowsOf(mailbox)
    && Ascending(Entries(out)) && AllDescribed(out, t)
    && Elements(Entries(out)) == EntriesOf(t, mailbox) - EntriesFor(t, rest)
    && forall x, r | x in Elements(Entries(out)) && r in rest && r in t.rows :: x.localUid < t.rows[r].localUid
  }

  ghost function EntriesFor(t: Tables, rows: set<Id>): set<Entry> {
    set r | r in rows && r in t.rows :: Entry(r, t.rows[r].localUid)
  }

  lemma ListNext(out: seq<Summary>, rest: set<Id>, t: Tables, mailbox: Id, r: Id)
    requires Listed(out, rest, t, mailbox) && r in rest && r in t.rows
    requires forall i | i in rest && i != r :: i in t.rows && t.rows[r].localUid < t.rows[i].localUid
    ensures Listed(out + [Describe(r, t.rows[r])], rest - {r}, t, mailbox)
  {
    var s := Describe(r, t.rows[r]);
    EntriesAppend(out, s);
    DescribedAppend(out, t, r);
    WithoutRow(t, rest, r);
    AscendingAppend(Entries(out), s.entry);
    hide Entries, AllDescribed, Ascending, EntriesFor, Elements;
  }

  lemma EntriesAppend(out: seq<Summary>, s: Summary)
    ensures Entries(out + [s]) == Entries(out) + [s.entry]
    ensures Elements(Entries(out) + [s.entry]) == Elements(Entries(out)) + {s.entry}
  {
    var before, after := Entries(out), Entries(out) + [s.entry];
    assert Entries(out + [s]) == after;
    assert forall e :: e in after <==> e in before || e == s.entry;
  }

  lemma DescribedAppend(out: seq<Summary>, t: Tables, r: Id)
    requires AllDescribed(out, t) && r in t.rows
    ensures AllDescribed(out + [Describe(r, t.rows[r])], t)
  {
  }

  lemma WithoutRow(t: Tables, rest: set<Id>, r: Id)
    requires r in rest && r in t.rows
    requires forall i | i in rest && i != r :: i in t.rows && t.rows[r].localUid < t.rows[i].localUid
    ensures EntriesFor(t, rest) == EntriesFor(t, rest - {r}) + {Entry(r, t.rows[r].localUid)}
    ensures Entry(r, t.rows[r].localUid) !in EntriesFor(t, rest - {r})
  {
  }

  lemma AscendingAppend(entries: seq<Entry>, e: Entry)
    requires Ascending(entries) && forall x | x in Elements(entries) :: x.localUid < e.localUid
    ensures Ascending(entries + [e])
  {
    assert forall i | 0 <= i < |entries| :: entries[i] in Elements(entries);
  }

  /** SELECT … ORDER BY local_uid, without a limit. */
  method ListMessagesByUID(store: Store.Store, mailbox: Id) returns (out: seq<Summary>)
    requires LocalUidsOk(store.View()) && store.View().Linked()
    ensures IsView(out, store.View(), mailbox)
  {
    ghost var t := store.View();
    var rest := set r | r in store.rows && store.rows[r].mailbox == mailbox;
    out := [];
    assert Listed(out, rest, t, mailbox);
    hide Listed, LocalUidsOk, Tables.Linked;
    while rest != {}
      invariant Listed(out, rest, t, mailbox) && rest <= t.RowsOf(mailbox)
      decreases |rest|
    {
      var r := Lowest(store, mailbox, rest);
      ListNext(out, rest, t, mailbox, r);
      out := out + [Describe(r, store.rows[r])];
      rest := rest - {r};
    }
    NothingUnlisted(out, t, mailbox);
  }

  lemma NothingUnlisted(out: seq<Summary>, t: Tables, mailbox: Id)
    requires Listed(out, {}, t, mailbox)
    ensures IsView(out, t, mailbox)
  {
    assert EntriesFor(t, {}) == {};
  }

  method Lowest(store: Store.Store, mailbox: Id, rows: set<Id>) returns (lowest: Id)
    requires LocalUidsOk(store.View()) && rows != {} && rows <= store.View().RowsOf(mailbox)
    ensures lowest in rows && lowest in store.rows
    ensures forall r | r in rows && r != lowest ::
              r in store.rows && store.rows[lowest].localUid < store.rows[r].localUid
  {
    lowest :| lowest in rows;
    var rest := rows - {lowest};
    while rest != {}
      invariant lowest in rows && rest <= rows && lowest !in rest
      invariant forall r | r in rows - rest && r != lowest :: store.rows[lowest].localUid < store.rows[r].localUid
      decreases |rest|
    {
      var r :| r in rest;
      rest := rest - {r};
      if store.rows[r].localUid < store.rows[lowest].localUid {
        lowest := r;
      }
    }
  }

  /** A client's number set: sequence numbers index the snapshot from 1, UIDs are local ones. */
  datatype NumSet = SeqNums(numbers: set<nat>) | Uids(uids: set<nat>)

  datatype Selected = Selected(seqNum: nat, message: Summary)

  predicate Picks(numSet: NumSet, seqNum: nat, message: Summary) {
    match numSet
    case SeqNums(numbers) => seqNum in numbers
    case Uids(uids) => message.entry.localUid in uids
  }

  class Session {
    const store: Store.Store
    var mailbox: Option<Id>
    var snapshot: seq<Summary>
    var readOnly: bool
    /** The tables when the snapshot was taken. */
    ghost var seen: Tables

    ghost predicate Valid()
      reads this
    {
      match mailbox
      case None => snapshot == []
      case Some(b) => IsView(snapshot, seen, b) && seen.Linked() && LocalUidsOk(seen)
    }

    constructor (store: Store.Store)
      ensures this.store == store && mailbox == None && Valid()
    {
      this.store, mailbox, snapshot, readOnly := store, None, [], false;
      seen := Tables(map[], map[], map[], 0, 0);
    }

    method Select(found: Option<Id>, readOnly: bool) returns (numMessages: Option<nat>)
      requires LocalUidsOk(store.View()) && store.View().Linked() && Valid()
      modifies this
      ensures Valid()
      ensures found == None ==> numMessages == None && mailbox == old(mailbox) && snapshot == old(snapshot)
      ensures this.readOnly == if found == None then old(this.readOnly) else readOnly
      ensures found.Some? ==> && mailbox == found && IsView(snapshot, store.View(), found.value)
                              && seen == store.View() && numMessages == Some(|snapshot|)
    {
      hide IsView, LocalUidsOk, Tables.Linked;
      if found == None {
        return None;
      }
      mailbox, this.readOnly := found, readOnly;
      RefreshSnapshot();
      numMessages := Some(|snapshot|);
    }

    method RefreshSnapshot()
      requires LocalUidsOk(store.View()) && store.View().Linked() && mailbox.Some?
      modifies this`snapshot, this`seen
      ensures Valid() && seen == store.View() && IsView(snapshot, store.View(), mailbox.value)
    {
      hide IsView, LocalUidsOk, Tables.Linked;
      snapshot := ListMessagesByUID(store, mailbox.value);
      seen := store.View();
    }

    /** Reports a changed message count. Unless something was deleted meanwhile, every sequence
        number the client knows still means the same message, and no report means no news. */
    method Poll() returns (count: Option<nat>)
      requires LocalUidsOk(store.View()) && store.View().Linked() && Valid() && Advances(seen, store.View())
      modifies this`snapshot, this`seen
      ensures Valid() && (mailbox.Some? ==> seen == store.View())
      ensures mailbox == None ==> count == None && snapshot == old(snapshot)
      ensures mailbox.Some? ==> count == if |snapshot| != |old(snapshot)| then Some(|snapshot|) else None
      ensures mailbox.Some? && old(seen).RowsOf(mailbox.value) <= store.View().RowsOf(mailbox.value) ==>
                && Entries(old(snapshot)) <= Entries(snapshot)
                && (forall n | 1 <= n <= |old(snapshot)| :: SameMessage(old(snapshot), snapshot, n))
                && (count == None ==> Entries(snapshot) == Entries(old(snapshot)))
    {
      hide IsView, LocalUidsOk, Advances, Tables.Linked;
      if mailbox == None {
        return None;
      }
      ghost var was, then' := snapshot, seen;
      var before := |snapshot|;
      RefreshSnapshot();
      OldSnapshotIsPrefixIff(was, snapshot, then', seen, mailbox.value);
      NumbersKeepMessages(was, snapshot);
      count := if |snapshot| != before then Some(|snapshot|) else None;
    }

    method Unselect()
      modifies this
      ensures Valid() && mailbox == None
    {
      mailbox, snapshot := None, [];
    }

    /** The messages a number set refers to, in the order of their sequence numbers. */
    method Resolve(numSet: NumSet) returns (out: seq<Selected>)
      ensures out == Picked(snapshot, |snapshot|, numSet)
      ensures forall k, l | 0 <= k < l < |out| :: out[k].seqNum < out[l].seqNum
    {
      out := [];
      for i := 0 to |snapshot|
        invariant out == Picked(snapshot, i, numSet)
      {
        if Picks(numSet, i + 1, snapshot[i]) {
          out := out + [Selected(i + 1, snapshot[i])];
        }
      }
      forall k, l | 0 <= k < l < |out| {
        PickedInOrder(snapshot, |snapshot|, numSet, k, l);
      }
    }
  }

  /** What a number set picks among the first n messages. */
  function Picked(snapshot: seq<Summary>, n: nat, numSet: NumSet): seq<Selected>
    requires n <= |snapshot|
  {
    if n == 0 then []
    else if Picks(numSet, n, snapshot[n - 1]) then Picked(snapshot, n - 1, numSet) + [Selected(n, snapshot[n - 1])]
    else Picked(snapshot, n - 1, numSet)
  }

  /** Exactly the picked messages, each under its own sequence number. */
  lemma {:induction false} PickedIff(snapshot: seq<Summary>, n: nat, numSet: NumSet, x: Selected)
    requires n <= |snapshot|
    ensures x in Picked(snapshot, n, numSet) <==>
            && 1 <= x.seqNum <= n && x.message == snapshot[x.seqNum - 1]
            && (numSet.SeqNums? ==> x.seqNum in numSet.numbers)
            && (numSet.Uids? ==> x.message.entry.localUid in numSet.uids)
  {
    if n > 0 {
      PickedIff(snapshot, n - 1, numSet, x);
    }
  }

  lemma {:induction false} PickedInOrder(snapshot: seq<Summary>, n: nat, numSet: NumSet, k: nat, l: nat)
    requires n <= |snapshot| && k < l < |Picked(snapshot, n, numSet)|
    ensures Picked(snapshot, n, numSet)[k].seqNum < Picked(snapshot, n, numSet)[l].seqNum
  {
    var shorter := Picked(snapshot, n - 1, numSet);
    if l < |shorter| {
      PickedInOrder(snapshot, n - 1, numSet, k, l);
    } else {
      PickedIff(snapshot, n - 1, numSet, shorter[k]);
    }
  }

  /** Sequence number n stands for the same message in both snapshots. */
  predicate SameMessage(before: seq<Summary>, after: seq<Summary>, n: nat) {
    1 <= n <= |before| && n <= |after| && after[n - 1].entry == before[n - 1].entry
  }

  lemma NumbersKeepMessages(before: seq<Summary>, after: seq<Summary>)
    ensures Entries(before) <= Entries(after) ==> forall n | 1 <= n <= |before| :: SameMessage(before, after, n)
  {
    if Entries(before) <= Entries(after) {
      forall n | 1 <= n <= |before|
        ensures SameMessage(before, after, n)
      {
        assert Entries(before)[n - 1] == Entries(after)[n - 1];
      }
    }
  }
}
