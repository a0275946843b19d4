/** The metadata pass against a server that keeps changing and an engine that may stop
    after any database commit.

    One action is one server answer or one commit. A run interleaves them freely with
    changes on the server and with interruptions. */
module MetadataProtocol {
  import opened Wrappers
  import opened Tables
  import opened Mirror

  // ---------------------------------------------------------------- the upstream mailbox

  datatype ServerMessage = ServerMessage(flags: Flags, modSeq: nat, size: nat)

  datatype Server = Server(uidValidity: nat, uidNext: nat, modSeq: nat, messages: map<Uid, ServerMessage>) {

    ghost predicate Ok() {
      forall u | u in messages :: u < uidNext && 1 <= messages[u].modSeq <= modSeq
    }

    /** The same mailbox later: UIDs ascend and are not reused, so a message keeps its size
        (section 2.3.1.1 of RFC 3501), and whatever appeared or changed carries a later
        mod-sequence (section 3.1 of RFC 7162). */
    ghost predicate Becomes(later: Server) {
      && later.uidValidity == uidValidity && uidNext <= later.uidNext && modSeq <= later.modSeq
      && (forall u | u in later.messages && u !in messages :: u >= uidNext && later.messages[u].modSeq > modSeq)
      && (forall u | u in later.messages && u in messages ::
            && later.messages[u].size == messages[u].size
            && (later.messages[u] == messages[u] || later.messages[u].modSeq > modSeq))
    }

    /** FETCH 1:* (FLAGS) (CHANGEDSINCE n). */
    function ChangedSince(n: nat): map<Uid, Flags> {
      map u | u in messages && messages[u].modSeq > n :: messages[u].flags
    }

    function FlagsFor(uids: set<Uid>): map<Uid, Flags> {
      map u | u in uids && u in messages :: messages[u].flags
    }
  }

  /** What another client or a delivery can do to the mailbox. */
  datatype ServerEvent =
    | Append(uid: Uid, flags: Flags, size: nat)
    | SetFlags(uid: Uid, flags: Flags)
    | Expunge(uid: Uid)

  ghost predicate Occurs(s: Server, e: ServerEvent, s': Server) {
    && s'.uidValidity == s.uidValidity
    && match e
       case Append(u, f, size) =>
         && u >= s.uidNext && s'.uidNext > u && s'.modSeq > s.modSeq
         && s'.messages == s.messages[u := ServerMessage(f, s'.modSeq, size)]
       case SetFlags(u, f) =>
         && u in s.messages && s'.uidNext == s.uidNext && s'.modSeq > s.modSeq
         && s'.messages == s.messages[u := s.messages[u].(flags := f, modSeq := s'.modSeq)]
       case Expunge(u) =>
         && u in s.messages && s'.uidNext == s.uidNext && s'.modSeq >= s.modSeq
         && s'.messages == s.messages - {u}
  }

  /** Every event is an instance of Becomes, which composes; so Becomes covers any
      number of events between two actions of the engine. */
  lemma EventsBecome(s: Server, e: ServerEvent, s': Server)
    requires s.Ok() && Occurs(s, e, s')
    ensures s'.Ok() && s.Becomes(s')
  {
  }

  lemma BecomesTransitive(a: Server, b: Server, c: Server)
    requires a.Ok() && b.Ok() && a.Becomes(b) && b.Becomes(c)
    ensures a.Becomes(c)
  {
    forall u | u in c.messages && u !in a.messages
      ensures u >= a.uidNext && c.messages[u].modSeq > a.modSeq
    {
      if u in b.messages {
      }
    }
    forall u | u in c.messages && u in a.messages
      ensures u in b.messages
    {
      assert u < a.uidNext;
    }
  }

  /** A mailbox that is back in an earlier state never left it. */
  lemma BecomesAntisymmetric(a: Server, b: Server)
    requires a.Ok() && b.Ok() && a.Becomes(b) && b.Becomes(a)
    ensures a == b
  {
    assert a.messages.Keys == b.messages.Keys;
  }

  // ---------------------------------------------------------------- the engine

  /** What a pass knows from SELECT and from the mailbox row it read. start is the whole
      mailbox at SELECT; the engine itself sees only its UIDVALIDITY, UIDNEXT and message
      count, and reported, its HIGHESTMODSEQ or 0. */
  datatype Pass = Pass(
    start: Server, reported: nat, condStore: bool, stored: nat, storedNext: nat, seen: nat)

  datatype Phase =
    | Idle
    | Selected(pass: Pass)
    | Ready(pass: Pass)
    | Flagging(pass: Pass, todo: map<Uid, Flags>)
    | Listing(pass: Pass)
    | Chunking(pass: Pass, known: set<Uid>, pending: set<Uid>)
    | Recording(pass: Pass, known: set<Uid>, pending: set<Uid>, updates: map<Uid, Flags>, found: map<Uid, Flags>)
    | Saving(pass: Pass, known: set<Uid>, pending: set<Uid>)
    | Deleting(pass: Pass, present: set<Uid>)
    | Finishing(pass: Pass, reconciled: bool)

  datatype World = World(server: Server, mirror: Mirror, phase: Phase, requested: nat, interruptions: nat)

  datatype Action =
    | Change(later: Server)
    | Renumber(renumbered: Server)
    | Interrupt
    | Select(reported: nat, condStore: bool)
    | Begin
    | ReturnEarly
    | FetchChanged
    | SkipChanged
    | ApplyChange(uid: Uid)
    | ChangesDone
    | ListUids
    | FetchChunk(chunk: set<Uid>, seen: nat)
    | RefreshKnown(uid: Uid)
    | RecordChunk
    | SaveProgress
    | Compare
    | GiveUpReconciling
    | DeleteVanished
    | Complete

  /** The test behind the cheap path: SELECT alone says nothing changed. */
  ghost predicate LooksUnchanged(p: Pass, m: Mirror) {
    && p.condStore && p.stored == p.reported && p.storedNext == p.start.uidNext && p.seen > 0
    && m.Count() >= |p.start.messages|
  }

  ghost predicate HighestSeen(seen: nat, before: nat, answered: set<Uid>) {
    seen >= before && (forall u | u in answered :: u <= seen) && (seen == before || seen in answered)
  }

  ghost predicate CanHappen(w: World, a: Action, chunkSize: nat) {
    match a
    case Change(s) => s.Ok() && w.server.Becomes(s)
    case Renumber(s) => w.phase.Idle? && s.Ok() && s.uidValidity > w.server.uidValidity
    case Interrupt => !w.phase.Idle?
    case Select(reported, condStore) =>
      w.phase.Idle? && (reported == 0 || reported == w.server.modSeq) && (condStore ==> reported > 0)
    case Begin => w.phase.Selected?
    case ReturnEarly => w.phase.Ready? && LooksUnchanged(w.phase.pass, w.mirror)
    case FetchChanged =>
      w.phase.Ready? && !LooksUnchanged(w.phase.pass, w.mirror) && w.phase.pass.condStore && w.phase.pass.stored > 0
    case SkipChanged =>
      w.phase.Ready? && !LooksUnchanged(w.phase.pass, w.mirror) && !(w.phase.pass.condStore && w.phase.pass.stored > 0)
    case ApplyChange(u) => w.phase.Flagging? && u in w.phase.todo
    case ChangesDone => w.phase.Flagging? && w.phase.todo == map[]
    case ListUids => w.phase.Listing?
    case FetchChunk(chunk, seen) =>
      && w.phase.Chunking? && chunk <= w.phase.pending && 0 < |chunk| <= chunkSize
      && HighestSeen(seen, w.phase.pass.seen, chunk * w.server.messages.Keys)
    case RefreshKnown(u) => w.phase.Recording? && u in w.phase.updates
    case RecordChunk => w.phase.Recording? && w.phase.updates == map[]
    case SaveProgress => w.phase.Saving?
    case Compare => w.phase.Chunking? && w.phase.pending == {}
    case GiveUpReconciling => (w.phase.Chunking? && w.phase.pending == {}) || w.phase.Deleting?
    case DeleteVanished => w.phase.Deleting?
    case Complete => w.phase.Finishing?
  }

  /** ResetForUIDValidityChange, when the stored UIDVALIDITY is not the server's. */
  ghost function ResetIfRenumbered(m: Mirror, v: nat): Mirror {
    if m.uidValidity.Some? && m.uidValidity.value != v then m.Reset(v) else m
  }

  ghost function ReadRow(p: Pass, m: Mirror): Pass {
    p.(stored := m.ModSeq(), storedNext := GetOr(m.uidNext, 0), seen := m.watermark)
  }

  ghost function CheckpointOf(p: Pass, completed: bool): Checkpoint {
    Checkpoint(p.start.uidValidity, p.start.uidNext, p.reported, p.seen, completed)
  }

  ghost function After(w: World, a: Action, chunkSize: nat): World
    requires CanHappen(w, a, chunkSize)
  {
    var m := w.mirror;
    match a
    case Change(s) => w.(server := s)
    case Renumber(s) => w.(server := s)
    case Interrupt => w.(phase := Idle, interruptions := w.interruptions + 1)
    case Select(reported, condStore) => w.(phase := Selected(Pass(w.server, reported, condStore, 0, 0, 0)))
    case Begin =>
      var m' := ResetIfRenumbered(m, w.phase.pass.start.uidValidity);
      w.(mirror := m', phase := Ready(ReadRow(w.phase.pass, m')))
    case ReturnEarly => w.(phase := Idle)
    case FetchChanged => w.(phase := Flagging(w.phase.pass, w.server.ChangedSince(w.phase.pass.stored)))
    case SkipChanged => w.(phase := Listing(w.phase.pass))
    case ApplyChange(u) =>
      w.(mirror := m.Update(u, w.phase.todo[u]), phase := Flagging(w.phase.pass, w.phase.todo - {u}))
    case ChangesDone => w.(phase := Listing(w.phase.pass))
    case ListUids =>
      var present := w.server.messages.Keys;
      w.(phase := Chunking(w.phase.pass, m.flags.Keys,
                           if w.phase.pass.condStore then present - m.flags.Keys else present))
    case FetchChunk(chunk, seen) =>
      var p := w.phase.pass.(seen := seen);
      var known := w.phase.known;
      w.(phase := Recording(p, known, w.phase.pending - chunk,
                            if p.condStore then map[] else w.server.FlagsFor(chunk * known),
                            w.server.FlagsFor(chunk - known)),
         requested := w.requested + |chunk|)
    case RefreshKnown(u) =>
      w.(mirror := m.Update(u, w.phase.updates[u]), phase := w.phase.(updates := w.phase.updates - {u}))
    case RecordChunk =>
      w.(mirror := m.Record(w.phase.found), phase := Saving(w.phase.pass, w.phase.known, w.phase.pending))
    case SaveProgress =>
      w.(mirror := m.Save(CheckpointOf(w.phase.pass, false)),
         phase := Chunking(w.phase.pass, w.phase.known, w.phase.pending))
    case Compare =>
      w.(phase := if m.Count() == |w.phase.pass.start.messages| then Finishing(w.phase.pass, true)
                  else Deleting(w.phase.pass, w.server.messages.Keys))
    case GiveUpReconciling => w.(phase := Finishing(w.phase.pass, false))
    case DeleteVanished => w.(mirror := m.Keep(w.phase.present), phase := Finishing(w.phase.pass, true))
    case Complete => w.(mirror := m.Save(CheckpointOf(w.phase.pass, true)), phase := Idle)
  }

  /** From the reading of the mailbox row to the completing checkpoint, the pass knows the stored
      mod-sequence, and has seen at least what the watermark says. */
  ghost predicate HoldsRow(w: World) {
    !w.phase.Idle? && !w.phase.Selected? ==>
      w.phase.pass.stored == w.mirror.ModSeq() && w.mirror.watermark <= w.phase.pass.seen
  }

  lemma ActionHoldsRow(w: World, a: Action, chunkSize: nat)
    requires HoldsRow(w) && CanHappen(w, a, chunkSize)
    ensures HoldsRow(After(w, a, chunkSize))
  {
  }

  ghost predicate History(ws: seq<World>, acts: seq<Action>, chunkSize: nat) {
    && |ws| == |acts| + 1
    && forall i | 0 <= i < |acts| ::
         CanHappen(ws[i], acts[i], chunkSize) && ws[i + 1] == After(ws[i], acts[i], chunkSize)
  }

  // ---------------------------------------------------------------- no message is skipped

  /** Every message below a UID bound has a row. */
  ghost predicate Covers(f: map<Uid, Flags>, s: Server, bound: nat) {
    forall u | u in s.messages && u < bound :: u in f
  }

  /** What the stored checkpoint promises. */
  ghost predicate CheckpointSound(m: Mirror, s: Server) {
    && (m.uidValidity.Some? ==> m.uidValidity.value <= s.uidValidity)
    && (m.ModSeq() > 0 ==> m.uidValidity.Some? && m.uidNext.Some?)
    && (m.ModSeq() > 0 && m.uidValidity == Some(s.uidValidity) ==>
          m.uidNext.value <= s.uidNext && m.ModSeq() <= s.modSeq && Covers(m.flags, s, m.uidNext.value))
  }

  /** A pass in progress belongs to the mailbox it selected. */
  ghost predicate PassSound(m: Mirror, s: Server, phase: Phase) {
    !phase.Idle? ==>
      var p := phase.pass;
      && p.start.Ok() && p.start.Becomes(s)
      && (p.reported == 0 || p.reported == p.start.modSeq) && (p.condStore ==> p.reported > 0)
      && (m.ModSeq() > 0 && m.uidValidity == Some(p.start.uidValidity) ==>
            m.ModSeq() <= p.start.modSeq && GetOr(m.uidNext, 0) <= p.start.uidNext)
      && (!phase.Selected? ==>
            && (m.uidValidity.None? || m.uidValidity == Some(p.start.uidValidity))
            && p.stored == m.ModSeq() && p.storedNext == GetOr(m.uidNext, 0))
  }

  /** Enumeration loses no UID: each is recorded, answered or still to be asked for. */
  ghost predicate EnumerationSound(m: Mirror, s: Server, phase: Phase) {
    match phase
    case Chunking(p, known, pending) => StillToAsk(m, s, p, known, pending, {})
    case Recording(p, known, pending, updates, found) =>
      && StillToAsk(m, s, p, known, pending, found.Keys)
      && found.Keys !! pending && found.Keys !! known && updates.Keys !! pending && updates.Keys <= known
    case Saving(p, known, pending) => StillToAsk(m, s, p, known, pending, {})
    case Deleting(p, present) =>
      && Covers(m.flags, s, p.start.uidNext)
      && (forall u | u in s.messages && u < p.start.uidNext :: u in present)
      && (s == p.start ==> present == s.messages.Keys)
    case Finishing(p, reconciled) =>
      && Covers(m.flags, s, p.start.uidNext)
      && (reconciled && s == p.start ==> m.flags.Keys == s.messages.Keys)
    case _ => true
  }

  ghost predicate StillToAsk(m: Mirror, s: Server, p: Pass, known: set<Uid>, pending: set<Uid>, answered: set<Uid>) {
    && known <= m.flags.Keys
    && (forall u | u in s.messages && u < p.start.uidNext :: u in m.flags || u in pending || u in answered)
    && m.flags.Keys * pending <= known
    && (p.condStore ==> known !! pending)
  }

  ghost predicate Inv(w: World) {
    && w.server.Ok()
    && CheckpointSound(w.mirror, w.server)
    && PassSound(w.mirror, w.server, w.phase)
    && EnumerationSound(w.mirror, w.server, w.phase)
  }

  lemma ChangeKeepsInv(w: World, s: Server)
    requires Inv(w) && s.Ok() && w.server.Becomes(s)
    ensures Inv(w.(server := s))
  {
    if !w.phase.Idle? {
      BecomesTransitive(w.phase.pass.start, w.server, s);
      if s == w.phase.pass.start {
        BecomesAntisymmetric(w.server, s);
      }
    }
  }

  lemma BeginKeepsInv(w: World)
    requires Inv(w) && w.phase.Selected?
    ensures Inv(After(w, Begin, 0))
  {
  }

  lemma ListKeepsInv(w: World)
    requires Inv(w) && w.phase.Listing?
    ensures Inv(After(w, ListUids, 0))
  {
  }

  lemma FetchChunkKeepsInv(w: World, chunk: set<Uid>, seen: nat, chunkSize: nat)
    requires Inv(w) && CanHappen(w, FetchChunk(chunk, seen), chunkSize)
    ensures Inv(After(w, FetchChunk(chunk, seen), chunkSize))
  {
  }

  lemma RecordKeepsInv(w: World)
    requires Inv(w) && w.phase.Recording? && w.phase.updates == map[]
    ensures Inv(After(w, RecordChunk, 0))
  {
  }

  lemma UpdateKeepsCheckpoint(m: Mirror, s: Server, u: Uid, f: Flags)
    ensures m.Update(u, f).flags.Keys == m.flags.Keys
    ensures CheckpointSound(m, s) ==> CheckpointSound(m.Update(u, f), s)
  {
  }

  lemma RefreshKeepsInv(w: World, u: Uid)
    requires Inv(w) && w.phase.Recording? && u in w.phase.updates
    ensures Inv(After(w, RefreshKnown(u), 0))
  {
    UpdateKeepsCheckpoint(w.mirror, w.server, u, w.phase.updates[u]);
  }

  lemma ApplyChangeKeepsInv(w: World, u: Uid)
    requires Inv(w) && w.phase.Flagging? && u in w.phase.todo
    ensures Inv(After(w, ApplyChange(u), 0))
  {
    UpdateKeepsCheckpoint(w.mirror, w.server, u, w.phase.todo[u]);
  }

  lemma SaveKeepsInv(w: World)
    requires Inv(w) && w.phase.Saving?
    ensures Inv(After(w, SaveProgress, 0))
  {
  }

  lemma SubsetOfSameSize<T>(a: set<T>, b: set<T>)
    requires a <= b && |b| <= |a|
    ensures a == b
  {
    assert b == a + (b - a);
  }

  /** Equal counts mean equal UID sets once every server UID is mirrored, even if some rows
      have lost their UID: they would make the local count larger. */
  lemma CompareKeepsInv(w: World)
    requires Inv(w) && w.phase.Chunking? && w.phase.pending == {}
    ensures Inv(After(w, Compare, 0))
  {
    var p := w.phase.pass;
    assert Covers(w.mirror.flags, w.server, p.start.uidNext);
    if w.mirror.Count() == |p.start.messages| && w.server == p.start {
      assert w.server.messages.Keys <= w.mirror.flags.Keys;
      assert |w.server.messages.Keys| == |w.server.messages| && |w.mirror.flags.Keys| == |w.mirror.flags|;
      SubsetOfSameSize(w.server.messages.Keys, w.mirror.flags.Keys);
    }
  }

  lemma DeleteKeepsInv(w: World)
    requires Inv(w) && w.phase.Deleting?
    ensures Inv(After(w, DeleteVanished, 0))
  {
    var w' := After(w, DeleteVanished, 0);
    if w.server == w.phase.pass.start {
      assert w'.mirror.flags.Keys == w.server.messages.Keys;
    }
  }

  lemma CompleteKeepsInv(w: World)
    requires Inv(w) && w.phase.Finishing?
    ensures Inv(After(w, Complete, 0))
  {
  }

  lemma StepAsideKeepsInv(w: World, a: Action, chunkSize: nat)
    requires Inv(w) && CanHappen(w, a, chunkSize)
    requires a.Renumber? || a.Interrupt? || a.Select? || a.ReturnEarly? || a.FetchChanged? || a.SkipChanged?
             || a.ChangesDone? || a.GiveUpReconciling?
    ensures Inv(After(w, a, chunkSize))
  {
  }

  /** Whatever the server does and wherever the engine stops. */
  lemma ActionKeepsInv(w: World, a: Action, chunkSize: nat)
    requires Inv(w) && CanHappen(w, a, chunkSize)
    ensures Inv(After(w, a, chunkSize))
  {
    hide Inv;
    match a
    case Change(s) => ChangeKeepsInv(w, s);
    case Begin => BeginKeepsInv(w);
    case ApplyChange(u) => ApplyChangeKeepsInv(w, u);
    case ListUids => ListKeepsInv(w);
    case FetchChunk(chunk, seen) => FetchChunkKeepsInv(w, chunk, seen, chunkSize);
    case RefreshKnown(u) => RefreshKeepsInv(w, u);
    case RecordChunk => RecordKeepsInv(w);
    case SaveProgress => SaveKeepsInv(w);
    case Compare => CompareKeepsInv(w);
    case DeleteVanished => DeleteKeepsInv(w);
    case Complete => CompleteKeepsInv(w);
    case _ => StepAsideKeepsInv(w, a, chunkSize);
  }

  /** A mailbox row as UpsertMailbox creates it. */
  predicate Fresh(m: Mirror) {
    m == Mirror(map[], 0, None, None, None, 0)
  }

  lemma {:induction false} InvHolds(ws: seq<World>, acts: seq<Action>, chunkSize: nat, n: nat)
    requires History(ws, acts, chunkSize) && n < |ws| && Inv(ws[0])
    ensures Inv(ws[n])
  {
    if n > 0 {
      InvHolds(ws, acts, chunkSize, n - 1);
      ActionKeepsInv(ws[n - 1], acts[n - 1], chunkSize);
    }
  }

  /** No-skip safety. In every run from a new mailbox, at every moment: once a completed
      pass has stored a mod-sequence, every upstream message below the stored UIDNEXT has a
      row, for as long as the server keeps its UIDVALIDITY. */
  lemma NoMessageIsSkipped(ws: seq<World>, acts: seq<Action>, chunkSize: nat, n: nat, u: Uid)
    requires History(ws, acts, chunkSize) && n < |ws|
    requires ws[0].server.Ok() && ws[0].phase.Idle? && Fresh(ws[0].mirror)
    requires ws[n].mirror.ModSeq() > 0 && ws[n].mirror.uidValidity == Some(ws[n].server.uidValidity)
    requires u in ws[n].server.messages && u < GetOr(ws[n].mirror.uidNext, 0)
    ensures u in ws[n].mirror.flags
  {
    assert Inv(ws[0]);
    InvHolds(ws, acts, chunkSize, n);
  }

  /** The cheap path is taken only when nothing is missing: every message that was there at
      SELECT, and is still there, is mirrored. */
  lemma ShortcutHidesNoMessage(ws: seq<World>, acts: seq<Action>, chunkSize: nat, n: nat)
    requires History(ws, acts, chunkSize) && n < |acts| && acts[n].ReturnEarly?
    requires ws[0].server.Ok() && ws[0].phase.Idle? && Fresh(ws[0].mirror)
    ensures forall u | u in ws[n].server.messages && u in ws[n].phase.pass.start.messages :: u in ws[n].mirror.flags
    ensures ws[n].server == ws[n].phase.pass.start ==> ws[n].server.messages.Keys <= ws[n].mirror.flags.Keys
  {
    assert Inv(ws[0]);
    InvHolds(ws, acts, chunkSize, n);
  }

  /** After a reset the stale UIDNEXT cannot fool the shortcut: until a pass completes, it
      is never taken again. */
  lemma {:induction false} NoShortcutAfterReset(ws: seq<World>, acts: seq<Action>, chunkSize: nat, i: nat, j: nat)
    requires History(ws, acts, chunkSize) && i <= j < |ws| && Inv(ws[0])
    requires ws[i].mirror.ModSeq() == 0
    requires forall k | i <= k < j :: !acts[k].Complete?
    ensures ws[j].mirror.ModSeq() == 0
    ensures j < |acts| ==> !acts[j].ReturnEarly?
  {
    if i < j {
      NoShortcutAfterReset(ws, acts, chunkSize, i, j - 1);
    }
    InvHolds(ws, acts, chunkSize, j);
  }

  /** Quiet-server convergence: a pass that completes after a successful reconciliation,
      with the mailbox as it was at SELECT, leaves exactly the server's UIDs mirrored. */
  lemma QuietPassConverges(ws: seq<World>, acts: seq<Action>, chunkSize: nat, n: nat)
    requires History(ws, acts, chunkSize) && n < |acts| && acts[n].Complete? && ws[n].phase.reconciled
    requires Inv(ws[0]) && ws[n].server == ws[n].phase.pass.start
    ensures ws[n + 1].mirror.flags.Keys == ws[n + 1].server.messages.Keys
  {
    InvHolds(ws, acts, chunkSize, n);
  }

  // ---------------------------------------------------------------- no flag change is lost

  /** A mirrored message whose flags are not the server's. */
  ghost predicate Stale(m: Mirror, s: Server, u: Uid) {
    u in m.flags && u in s.messages && m.flags[u] != s.messages[u].flags
  }

  /** The next CHANGEDSINCE will report every stale message. */
  ghost predicate FlagsRecoverable(m: Mirror, s: Server) {
    m.ModSeq() > 0 && m.uidValidity == Some(s.uidValidity) ==>
      forall u | Stale(m, s, u) :: s.messages[u].modSeq > m.ModSeq()
  }

  /** Flags outside the exempt set are up to date or changed after SELECT. */
  ghost predicate FreshExcept(m: Mirror, s: Server, p: Pass, exempt: set<Uid>) {
    forall u | Stale(m, s, u) && u !in exempt :: s.messages[u].modSeq > p.start.modSeq
  }

  /** Flags in the engine's hands are the server's or were overtaken after SELECT. */
  ghost predicate AnswersFresh(f: map<Uid, Flags>, s: Server, p: Pass) {
    forall u | u in f && u in s.messages && f[u] != s.messages[u].flags :: s.messages[u].modSeq > p.start.modSeq
  }

  ghost predicate FlagsInHand(m: Mirror, s: Server, phase: Phase) {
    match phase
    case Flagging(p, todo) => FreshExcept(m, s, p, todo.Keys) && AnswersFresh(todo, s, p)
    case Listing(p) => p.condStore ==> FreshExcept(m, s, p, {})
    case Chunking(p, known, pending) => FreshExcept(m, s, p, pending)
    case Recording(p, known, pending, updates, found) =>
      FreshExcept(m, s, p, pending + updates.Keys + found.Keys) && AnswersFresh(updates, s, p)
      && AnswersFresh(found, s, p)
    case Saving(p, known, pending) => FreshExcept(m, s, p, pending)
    case Deleting(p, present) => FreshExcept(m, s, p, {})
    case Finishing(p, reconciled) => FreshExcept(m, s, p, {})
    case _ => true
  }

  ghost predicate FlagInv(w: World) {
    FlagsRecoverable(w.mirror, w.server) && FlagsInHand(w.mirror, w.server, w.phase)
  }

  /** The one pass that refreshes no known flags: CONDSTORE in use, but no mod-sequence
      stored yet. It is harmless when no rows are known. */
  ghost predicate SafeStart(w: World, a: Action) {
    a.SkipChanged? && w.phase.Ready? && w.phase.pass.condStore ==> w.mirror.flags == map[]
  }

  lemma ChangeKeepsFlags(w: World, s: Server)
    requires Inv(w) && FlagInv(w) && s.Ok() && w.server.Becomes(s)
    ensures FlagInv(w.(server := s))
  {
  }

  lemma UpdateKeepsFlags(w: World, u: Uid, chunkSize: nat)
    requires Inv(w) && FlagInv(w)
    ensures w.phase.Flagging? && u in w.phase.todo ==> FlagInv(After(w, ApplyChange(u), chunkSize))
    ensures w.phase.Recording? && u in w.phase.updates ==> FlagInv(After(w, RefreshKnown(u), chunkSize))
  {
  }

  lemma FetchKeepsFlags(w: World, a: Action, chunkSize: nat)
    requires Inv(w) && FlagInv(w) && CanHappen(w, a, chunkSize)
    requires a.FetchChanged? || a.ListUids? || a.FetchChunk?
    ensures FlagInv(After(w, a, chunkSize))
  {
  }

  lemma CommitKeepsFlags(w: World, a: Action, chunkSize: nat)
    requires Inv(w) && FlagInv(w) && CanHappen(w, a, chunkSize)
    requires a.RecordChunk? || a.SaveProgress? || a.DeleteVanished? || a.Complete?
    ensures FlagInv(After(w, a, chunkSize))
  {
  }

  lemma StepAsideKeepsFlags(w: World, a: Action, chunkSize: nat)
    requires Inv(w) && FlagInv(w) && CanHappen(w, a, chunkSize) && SafeStart(w, a)
    requires a.Renumber? || a.Interrupt? || a.Select? || a.Begin? || a.ReturnEarly? || a.SkipChanged? || a.ChangesDone?
             || a.Compare? || a.GiveUpReconciling?
    ensures FlagInv(After(w, a, chunkSize))
  {
  }

  lemma ActionKeepsFlags(w: World, a: Action, chunkSize: nat)
    requires Inv(w) && FlagInv(w) && CanHappen(w, a, chunkSize) && SafeStart(w, a)
    ensures FlagInv(After(w, a, chunkSize))
  {
    hide Inv, FlagInv;
    match a
    case Change(s) => ChangeKeepsFlags(w, s);
    case ApplyChange(u) => UpdateKeepsFlags(w, u, chunkSize);
    case RefreshKnown(u) => UpdateKeepsFlags(w, u, chunkSize);
    case FetchChanged => FetchKeepsFlags(w, a, chunkSize);
    case ListUids => FetchKeepsFlags(w, a, chunkSize);
    case FetchChunk(_, _) => FetchKeepsFlags(w, a, chunkSize);
    case RecordChunk => CommitKeepsFlags(w, a, chunkSize);
    case SaveProgress => CommitKeepsFlags(w, a, chunkSize);
    case DeleteVanished => CommitKeepsFlags(w, a, chunkSize);
    case Complete => CommitKeepsFlags(w, a, chunkSize);
    case _ => StepAsideKeepsFlags(w, a, chunkSize);
  }

  lemma {:induction false} FlagInvHolds(ws: seq<World>, acts: seq<Action>, chunkSize: nat, n: nat)
    requires History(ws, acts, chunkSize) && n < |ws| && Inv(ws[0]) && FlagInv(ws[0])
    requires forall i | 0 <= i < |acts| :: SafeStart(ws[i], acts[i])
    ensures Inv(ws[n]) && FlagInv(ws[n])
  {
    InvHolds(ws, acts, chunkSize, n);
    if n > 0 {
      FlagInvHolds(ws, acts, chunkSize, n - 1);
      ActionKeepsFlags(ws[n - 1], acts[n - 1], chunkSize);
    }
  }

  /** No flag change is lost: at every moment of every such run, a mirrored message whose
      flags differ from the server's is one the server will report again. */
  lemma NoFlagChangeIsLost(ws: seq<World>, acts: seq<Action>, chunkSize: nat, n: nat, u: Uid)
    requires History(ws, acts, chunkSize) && n < |ws| && Inv(ws[0]) && FlagInv(ws[0])
    requires forall i | 0 <= i < |acts| :: SafeStart(ws[i], acts[i])
    requires ws[n].mirror.ModSeq() > 0 && ws[n].mirror.uidValidity == Some(ws[n].server.uidValidity)
    requires Stale(ws[n].mirror, ws[n].server, u)
    ensures u in ws[n].server.ChangedSince(ws[n].mirror.ModSeq())
  {
    FlagInvHolds(ws, acts, chunkSize, n);
  }

  /** And the shortcut hides none: whatever has not changed since SELECT is shown as the
      server has it. */
  lemma ShortcutHidesNoFlagChange(ws: seq<World>, acts: seq<Action>, chunkSize: nat, n: nat, u: Uid)
    requires History(ws, acts, chunkSize) && n < |acts| && acts[n].ReturnEarly? && Inv(ws[0]) && FlagInv(ws[0])
    requires forall i | 0 <= i < |acts| :: SafeStart(ws[i], acts[i])
    requires u in ws[n].server.messages && u in ws[n].phase.pass.start.messages
    requires ws[n].server.messages[u] == ws[n].phase.pass.start.messages[u]
    ensures u in ws[n].mirror.flags && ws[n].mirror.flags[u] == ws[n].server.messages[u].flags
  {
    FlagInvHolds(ws, acts, chunkSize, n);
  }
}
