/** Two sharper facts about the metadata protocol: exactly which passes restore flags, and
    what interruptions cost. */
module MetadataCosts {
  import opened Wrappers
  import opened Tables
  import opened Mirror
  import opened MetadataProtocol

  // ---------------------------------------------------------------- which passes restore flags

  /** A run from a new mailbox row whose end, from k on, is one pass from its first decision to
      its completion. */
  ghost predicate EndsWithPass(ws: seq<World>, acts: seq<Action>, chunkSize: nat, k: nat) {
    && History(ws, acts, chunkSize) && ws[0].server.Ok() && ws[0].phase.Idle? && Fresh(ws[0].mirror)
    && k < |acts| && ws[k].phase.Ready? && acts[|acts| - 1].Complete?
    && forall i | k <= i < |acts| - 1 :: !acts[i].Complete? && !acts[i].Interrupt? && !acts[i].ReturnEarly?
  }

  ghost predicate StartsWith(w: World, condStore: bool, stored: nat, known: set<Uid>) {
    && w.phase.Ready? && w.phase.pass.condStore == condStore && w.phase.pass.stored == stored
    && w.mirror.flags.Keys == known
  }

  /** Does every completed pass that starts like this, in whatever run, leave only flag
      differences the server will report again? Unless they were lost before it began. */
  ghost predicate PassRestoresFlags(condStore: bool, stored: nat, known: set<Uid>) {
    forall ws: seq<World>, acts: seq<Action>, chunkSize: nat, k: nat |
      EndsWithPass(ws, acts, chunkSize, k) && FlagInv(ws[k]) && StartsWith(ws[k], condStore, stored, known) ::
      FlagsRecoverable(ws[|acts|].mirror, ws[|acts|].server)
  }

  /** A pass decides once: while it is still deciding, nothing has been written. */
  lemma {:induction false} StillDeciding(ws: seq<World>, acts: seq<Action>, chunkSize: nat, k: nat, n: nat)
    requires EndsWithPass(ws, acts, chunkSize, k) && k <= n < |acts|
    ensures !ws[n].phase.Selected? && !ws[n].phase.Idle?
    ensures ws[n].phase.Ready? ==> ws[n].phase == ws[k].phase && ws[n].mirror == ws[k].mirror
  {
    if n > k {
      StillDeciding(ws, acts, chunkSize, k, n - 1);
    }
  }

  lemma {:induction false} FlagInvFrom(ws: seq<World>, acts: seq<Action>, chunkSize: nat, k: nat, n: nat)
    requires History(ws, acts, chunkSize) && k <= n < |ws| && Inv(ws[0]) && FlagInv(ws[k])
    requires forall i | k <= i < n :: SafeStart(ws[i], acts[i])
    ensures FlagInv(ws[n])
  {
    hide Inv, FlagInv;
    if n > k {
      FlagInvFrom(ws, acts, chunkSize, k, n - 1);
      InvHolds(ws, acts, chunkSize, n - 1);
      ActionKeepsFlags(ws[n - 1], acts[n - 1], chunkSize);
    }
  }

  lemma SafePassRestoresFlags(ws: seq<World>, acts: seq<Action>, chunkSize: nat, k: nat,
                              condStore: bool, stored: nat, known: set<Uid>)
    requires EndsWithPass(ws, acts, chunkSize, k) && FlagInv(ws[k]) && StartsWith(ws[k], condStore, stored, known)
    requires !(condStore && stored == 0 && known != {})
    ensures FlagsRecoverable(ws[|acts|].mirror, ws[|acts|].server)
  {
    forall i | k <= i < |acts|
      ensures SafeStart(ws[i], acts[i])
    {
      StillDeciding(ws, acts, chunkSize, k, i);
      assert acts[i].SkipChanged? && condStore ==> ws[k].mirror.flags.Keys == {};
    }
    FlagInvFrom(ws, acts, chunkSize, k, |acts|);
  }

  // ---------------------------------------------------------------- the losing run

  /** The server before and after somebody sets \Seen on the newest message. */
  ghost function Before(known: set<Uid>, top: Uid): Server {
    var none: Flags := {};
    Server(1, top + 1, 1, map u | u in known :: ServerMessage(none, 1, 0))
  }

  ghost function Later(known: set<Uid>, top: Uid): Server {
    var s := Before(known, top);
    Server(1, top + 1, 2, s.messages[top := ServerMessage({"\\Seen"}, 2, 0)])
  }

  /** The mailbox row when new, with the chunk recorded, with that progress saved, and completed. */
  ghost function RowAt(known: set<Uid>, top: Uid, stage: nat): Mirror {
    var none: Flags := {};
    var flags := map u | u in known :: none;
    if stage == 0 then Mirror(map[], 0, None, None, None, 0)
    else if stage == 1 then Mirror(flags, 0, None, None, None, 0)
    else if stage == 2 then Mirror(flags, 0, Some(1), None, None, top)
    else Mirror(flags, 0, Some(1), Some(top + 1), Some(2), top)
  }

  ghost function FirstPass(known: set<Uid>, top: Uid): Pass {
    Pass(Before(known, top), 1, true, 0, 0, 0)
  }

  ghost function SecondPass(known: set<Uid>, top: Uid): Pass {
    Pass(Later(known, top), 2, true, 0, 0, 0)
  }

  /** The first pass enumerates everything in one chunk and is interrupted before it completes. */
  ghost function FirstWorlds(known: set<Uid>, top: Uid): seq<World> {
    var s, p, n := Before(known, top), FirstPass(known, top), |known|;
    var q, found := p.(seen := top), s.FlagsFor(known);
    [World(s, RowAt(known, top, 0), Idle, 0, 0),
     World(s, RowAt(known, top, 0), Selected(p), 0, 0),
     World(s, RowAt(known, top, 0), Ready(p), 0, 0),
     World(s, RowAt(known, top, 0), Listing(p), 0, 0),
     World(s, RowAt(known, top, 0), Chunking(p, {}, known), 0, 0),
     World(s, RowAt(known, top, 0), Recording(q, {}, {}, map[], found), n, 0),
     World(s, RowAt(known, top, 1), Saving(q, {}, {}), n, 0),
     World(s, RowAt(known, top, 2), Chunking(q, {}, {}), n, 0),
     World(s, RowAt(known, top, 2), Idle, n, 1)]
  }

  ghost function FirstActions(known: set<Uid>, top: Uid): seq<Action> {
    [Select(1, true), Begin, SkipChanged, ListUids, FetchChunk(known, top), RecordChunk, SaveProgress, Interrupt]
  }

  /** Then the flag is set, and a second pass runs to its end. */
  ghost function SecondWorlds(known: set<Uid>, top: Uid): seq<World> {
    var s, s', n := Before(known, top), Later(known, top), |known|;
    var r := SecondPass(known, top);
    var r' := r.(seen := top);
    [World(s, RowAt(known, top, 2), Idle, n, 1),
     World(s', RowAt(known, top, 2), Idle, n, 1),
     World(s', RowAt(known, top, 2), Selected(r), n, 1),
     World(s', RowAt(known, top, 2), Ready(r'), n, 1),
     World(s', RowAt(known, top, 2), Listing(r'), n, 1),
     World(s', RowAt(known, top, 2), Chunking(r', known, {}), n, 1),
     World(s', RowAt(known, top, 2), Finishing(r', true), n, 1),
     World(s', RowAt(known, top, 3), Idle, n, 1)]
  }

  ghost function SecondActions(known: set<Uid>, top: Uid): seq<Action> {
    [Change(Later(known, top)), Select(2, true), Begin, SkipChanged, ListUids, Compare, Complete]
  }

  ghost function LosingWorlds(known: set<Uid>, top: Uid): seq<World> {
    FirstWorlds(known, top) + SecondWorlds(known, top)[1..]
  }

  ghost function LosingActions(known: set<Uid>, top: Uid): seq<Action> {
    FirstActions(known, top) + SecondActions(known, top)
  }

  ghost predicate Steps(w: World, a: Action, w': World, chunkSize: nat) {
    CanHappen(w, a, chunkSize) && w' == After(w, a, chunkSize)
  }

  /** top is the newest of the known messages. */
  ghost predicate Newest(known: set<Uid>, top: Uid) {
    top in known && forall u | u in known :: u <= top
  }

  lemma LosingServer(known: set<Uid>, top: Uid)
    requires Newest(known, top)
    ensures var s, s' := Before(known, top), Later(known, top);
            && s.Ok() && s'.Ok() && s.Becomes(s') && Occurs(s, SetFlags(top, {"\\Seen"}), s')
            && s.messages.Keys == known == s'.messages.Keys && |s'.messages| == |known| > 0
  {
    var s, s' := Before(known, top), Later(known, top);
    assert s.messages.Keys == known && s'.messages.Keys == known;
    assert |s'.messages| == |s'.messages.Keys|;
  }

  lemma LosingRow(known: set<Uid>, top: Uid)
    requires Newest(known, top)
    ensures RowAt(known, top, 0).Record(Before(known, top).FlagsFor(known)) == RowAt(known, top, 1)
    ensures RowAt(known, top, 2).flags.Keys == known && RowAt(known, top, 2).Count() == |known|
    ensures HighestSeen(top, 0, known)
  {
    var m := RowAt(known, top, 2);
    assert m.flags.Keys == known;
    assert |m.flags| == |m.flags.Keys|;
  }

  /** The steps, one by one. */
  lemma Selecting(s: Server, m: Mirror, n: nat, i: nat, c: nat)
    requires s.modSeq > 0
    ensures Steps(World(s, m, Idle, n, i), Select(s.modSeq, true),
                  World(s, m, Selected(Pass(s, s.modSeq, true, 0, 0, 0)), n, i), c)
  {
  }

  lemma Beginning(s: Server, m: Mirror, p: Pass, n: nat, i: nat, c: nat)
    requires (m.uidValidity == None || m.uidValidity == Some(p.start.uidValidity)) && m.ModSeq() == 0
             && m.uidNext == None
    requires p.stored == 0 && p.storedNext == 0
    ensures Steps(World(s, m, Selected(p), n, i), Begin, World(s, m, Ready(p.(seen := m.watermark)), n, i), c)
  {
  }

  lemma Skipping(s: Server, m: Mirror, p: Pass, n: nat, i: nat, c: nat)
    requires p.stored == 0 && p.reported > 0
    ensures Steps(World(s, m, Ready(p), n, i), SkipChanged, World(s, m, Listing(p), n, i), c)
  {
  }

  lemma ListingUids(s: Server, m: Mirror, p: Pass, pending: set<Uid>, n: nat, i: nat, c: nat)
    requires p.condStore && pending == s.messages.Keys - m.flags.Keys
    ensures Steps(World(s, m, Listing(p), n, i), ListUids, World(s, m, Chunking(p, m.flags.Keys, pending), n, i), c)
  {
  }

  lemma FetchingAll(s: Server, m: Mirror, p: Pass, all: set<Uid>, top: Uid, n: nat, i: nat)
    requires p.condStore && all == s.messages.Keys && |all| == n > 0 && HighestSeen(top, p.seen, all)
    ensures Steps(World(s, m, Chunking(p, {}, all), 0, i), FetchChunk(all, top),
                  World(s, m, Recording(p.(seen := top), {}, {}, map[], s.FlagsFor(all)), n, i), n)
  {
    assert all - {} == all && all - all == {} && all * all == all;
    hide HighestSeen, Server.FlagsFor;
  }

  lemma Recorded(s: Server, m: Mirror, p: Pass, found: map<Uid, Flags>, m': Mirror, n: nat, i: nat, c: nat)
    requires m' == m.Record(found)
    ensures Steps(World(s, m, Recording(p, {}, {}, map[], found), n, i), RecordChunk,
                  World(s, m', Saving(p, {}, {}), n, i), c)
  {
  }

  lemma Saved(s: Server, m: Mirror, p: Pass, m': Mirror, n: nat, i: nat, c: nat)
    requires m' == m.Save(CheckpointOf(p, false))
    ensures Steps(World(s, m, Saving(p, {}, {}), n, i), SaveProgress, World(s, m', Chunking(p, {}, {}), n, i), c)
  {
  }

  lemma Interrupted(s: Server, m: Mirror, p: Pass, n: nat, c: nat)
    ensures Steps(World(s, m, Chunking(p, {}, {}), n, 0), Interrupt, World(s, m, Idle, n, 1), c)
  {
  }

  lemma Changing(s: Server, s': Server, m: Mirror, n: nat, i: nat, c: nat)
    requires s'.Ok() && s.Becomes(s')
    ensures Steps(World(s, m, Idle, n, i), Change(s'), World(s', m, Idle, n, i), c)
  {
  }

  lemma Ending(s: Server, m: Mirror, p: Pass, known: set<Uid>, n: nat, i: nat, c: nat)
    requires m.Count() == |p.start.messages|
    ensures Steps(World(s, m, Chunking(p, known, {}), n, i), Compare, World(s, m, Finishing(p, true), n, i), c)
    ensures Steps(World(s, m, Finishing(p, true), n, i), Complete,
                  World(s, m.Save(CheckpointOf(p, true)), Idle, n, i), c)
  {
  }

  lemma LosingRows(known: set<Uid>, top: Uid)
    requires Newest(known, top)
    ensures var m0, m1, m2 := RowAt(known, top, 0), RowAt(known, top, 1), RowAt(known, top, 2);
            && m0.uidValidity == None && m0.ModSeq() == 0 && m0.uidNext == None && m0.watermark == 0
            && m0.flags.Keys == {}
            && m0.Record(Before(known, top).FlagsFor(known)) == m1
            && m1.Save(CheckpointOf(FirstPass(known, top).(seen := top), false)) == m2
            && m2.uidValidity == Some(1) && m2.ModSeq() == 0 && m2.uidNext == None && m2.watermark == top
            && m2.flags.Keys == known && m2.Count() == |known|
            && m2.Save(CheckpointOf(SecondPass(known, top).(seen := top), true)) == RowAt(known, top, 3)
  {
    LosingRow(known, top);
  }

  lemma LosingPasses(known: set<Uid>, top: Uid)
    ensures FirstPass(known, top) == Pass(Before(known, top), 1, true, 0, 0, 0) && Before(known, top).modSeq == 1
    ensures SecondPass(known, top) == Pass(Later(known, top), 2, true, 0, 0, 0) && Later(known, top).modSeq == 2
    ensures Before(known, top).uidValidity == 1 == Later(known, top).uidValidity
  {
  }

  lemma FirstSteps(known: set<Uid>, top: Uid)
    requires Newest(known, top)
    ensures AllStep(FirstWorlds(known, top), FirstActions(known, top), |known|)
  {
    hide Newest, HighestSeen, Before, Later, Server.FlagsFor, Server.Ok, Server.Becomes, Occurs, RowAt, FirstPass,
         SecondPass, Steps, Mirror.Save, Mirror.Record, Mirror.Count, Mirror.ModSeq, CheckpointOf;
    LosingServer(known, top);
    LosingRows(known, top);
    LosingRow(known, top);
    LosingPasses(known, top);
    assert known - {} == known;
    var s, p, n := Before(known, top), FirstPass(known, top), |known|;
    var q, m0, m1, m2 := p.(seen := top), RowAt(known, top, 0), RowAt(known, top, 1), RowAt(known, top, 2);
    Selecting(s, m0, 0, 0, n);
    Beginning(s, m0, p, 0, 0, n);
    Skipping(s, m0, p, 0, 0, n);
    ListingUids(s, m0, p, known, 0, 0, n);
    FetchingAll(s, m0, p, known, top, n, 0);
    Recorded(s, m0, q, s.FlagsFor(known), m1, n, 0, n);
    Saved(s, m1, q, m2, n, 0, n);
    Interrupted(s, m2, q, n, n);
  }

  lemma SecondSteps(known: set<Uid>, top: Uid)
    requires Newest(known, top)
    ensures AllStep(SecondWorlds(known, top), SecondActions(known, top), |known|)
  {
    hide Newest, HighestSeen, Before, Later, Server.FlagsFor, Server.Ok, Server.Becomes, Occurs, RowAt, FirstPass,
         SecondPass, Steps, Mirror.Save, Mirror.Record, Mirror.Count, Mirror.ModSeq, CheckpointOf;
    LosingServer(known, top);
    LosingRows(known, top);
    LosingPasses(known, top);
    assert known - known == {};
    var s, s', n := Before(known, top), Later(known, top), |known|;
    var r, m := SecondPass(known, top), RowAt(known, top, 2);
    Changing(s, s', m, n, 1, n);
    Selecting(s', m, n, 1, n);
    Beginning(s', m, r, n, 1, n);
    Skipping(s', m, r.(seen := top), n, 1, n);
    ListingUids(s', m, r.(seen := top), {}, n, 1, n);
    Ending(s', m, r.(seen := top), known, n, 1, n);
  }

  lemma JoinSteps(ws: seq<World>, acts: seq<Action>, ws': seq<World>, acts': seq<Action>, c: nat)
    requires AllStep(ws, acts, c) && AllStep(ws', acts', c) && ws[|acts|] == ws'[0]
    ensures AllStep(ws + ws'[1..], acts + acts', c)
  {
    hide Steps;
    var all, both := ws + ws'[1..], acts + acts';
    forall i | 0 <= i < |both|
      ensures Steps(all[i], both[i], all[i + 1], c)
    {
      if i < |acts| {
        assert Steps(ws[i], acts[i], ws[i + 1], c);
      } else {
        assert Steps(ws'[i - |acts|], acts'[i - |acts|], ws'[i - |acts| + 1], c);
      }
    }
  }

  lemma LosingSteps(known: set<Uid>, top: Uid)
    requires Newest(known, top)
    ensures AllStep(LosingWorlds(known, top), LosingActions(known, top), |known|)
  {
    FirstSteps(known, top);
    SecondSteps(known, top);
    hide AllStep, Before, Later, RowAt, FirstPass, SecondPass;
    JoinSteps(FirstWorlds(known, top), FirstActions(known, top), SecondWorlds(known, top), SecondActions(known, top),
              |known|);
  }

  ghost predicate AllStep(ws: seq<World>, acts: seq<Action>, chunkSize: nat) {
    |ws| == |acts| + 1 && forall i | 0 <= i < |acts| :: Steps(ws[i], acts[i], ws[i + 1], chunkSize)
  }

  lemma StepsMakeAHistory(ws: seq<World>, acts: seq<Action>, chunkSize: nat)
    requires AllStep(ws, acts, chunkSize)
    ensures History(ws, acts, chunkSize)
  {
    hide CanHappen, After;
    forall i | 0 <= i < |acts|
      ensures CanHappen(ws[i], acts[i], chunkSize) && ws[i + 1] == After(ws[i], acts[i], chunkSize)
    {
      assert Steps(ws[i], acts[i], ws[i + 1], chunkSize);
    }
  }

  lemma LosingStart(known: set<Uid>, top: Uid)
    requires Newest(known, top)
    ensures var ws, acts := LosingWorlds(known, top), LosingActions(known, top);
            && ws[0].server.Ok() && ws[0].phase.Idle? && Fresh(ws[0].mirror)
            && StartsWith(ws[11], true, 0, known) && FlagInv(ws[11])
            && acts[14].Complete?
            && forall i | 11 <= i < 14 :: !acts[i].Complete? && !acts[i].Interrupt? && !acts[i].ReturnEarly?
  {
    LosingServer(known, top);
    LosingRow(known, top);
  }

  lemma LosingEnd(known: set<Uid>, top: Uid)
    requires Newest(known, top)
    ensures var w := LosingWorlds(known, top)[15]; !FlagsRecoverable(w.mirror, w.server)
  {
    var w := LosingWorlds(known, top)[15];
    assert Stale(w.mirror, w.server, top);
  }

  /** From a new mailbox, a first pass that records everything and is interrupted before it
      completes, one flag set, and a second pass: it asks for nothing and completes, with a
      stored mod-sequence that covers the flag it has missed. */
  lemma LosingPass(known: set<Uid>) returns (ws: seq<World>, acts: seq<Action>, k: nat)
    requires known != {}
    ensures EndsWithPass(ws, acts, |known|, k) && StartsWith(ws[k], true, 0, known) && FlagInv(ws[k])
    ensures !FlagsRecoverable(ws[|acts|].mirror, ws[|acts|].server)
  {
    var top := Maximum(known);
    hide LosingWorlds, LosingActions, AllStep, FlagInv, FlagsRecoverable, StartsWith, CanHappen, After, Fresh,
         Server.Ok;
    LosingSteps(known, top);
    LosingStart(known, top);
    LosingEnd(known, top);
    LosingLength(known, top);
    ws, acts, k := LosingWorlds(known, top), LosingActions(known, top), 11;
    StepsMakeAHistory(ws, acts, |known|);
  }

  lemma LosingLength(known: set<Uid>, top: Uid)
    ensures |LosingWorlds(known, top)| == 16 && |LosingActions(known, top)| == 15
  {
  }

  lemma {:induction false} Maximum(s: set<Uid>) returns (top: Uid)
    requires s != {}
    ensures top in s && forall u | u in s :: u <= top
    decreases |s|
  {
    var x :| x in s;
    var rest := s - {x};
    assert s == rest + {x};
    top := x;
    if rest != {} {
      var y := Maximum(rest);
      top := if x < y then y else x;
    }
  }

  /** A completed pass restores flags for certain exactly unless it uses CONDSTORE with no
      stored mod-sequence while rows are already known: the continuation of an interrupted
      first pass, which asks neither for changes nor for those rows again. */
  lemma FlagsRestoredIff(condStore: bool, stored: nat, known: set<Uid>)
    ensures PassRestoresFlags(condStore, stored, known) <==> !(condStore && stored == 0 && known != {})
  {
    hide FlagInv, FlagsRecoverable, StartsWith, CanHappen, After;
    if condStore && stored == 0 && known != {} {
      var ws, acts, k := LosingPass(known);
    } else {
      forall ws: seq<World>, acts: seq<Action>, chunkSize: nat, k: nat |
        EndsWithPass(ws, acts, chunkSize, k) && FlagInv(ws[k]) && StartsWith(ws[k], condStore, stored, known)
        ensures FlagsRecoverable(ws[|acts|].mirror, ws[|acts|].server)
      {
        SafePassRestoresFlags(ws, acts, chunkSize, k, condStore, stored, known);
      }
    }
  }

  // ---------------------------------------------------------------- what interruptions cost

  /** Nobody touches the mailbox, and CONDSTORE is used throughout. */
  predicate QuietAction(a: Action) {
    match a
    case Change(_) => false
    case Renumber(_) => false
    case Select(_, condStore) => condStore
    case _ => true
  }

  /** Full records asked for, against rows recorded, answers in hand and interruptions. */
  ghost predicate Accounted(w: World, chunkSize: nat) {
    var f := w.mirror.flags.Keys;
    var s := w.server.messages.Keys;
    && f <= s
    && (w.mirror.uidValidity.None? || w.mirror.uidValidity == Some(w.server.uidValidity))
    && (!w.phase.Idle? ==> w.phase.pass.start == w.server && w.phase.pass.condStore)
    && match w.phase
       case Chunking(_, known, pending) =>
         pending <= s && pending !! f && known <= f && w.requested <= |f| + w.interruptions * chunkSize
       case Recording(_, known, pending, updates, found) =>
         && pending <= s && pending !! f && known <= f && updates == map[]
         && found.Keys <= s && found.Keys !! f && found.Keys !! pending && |found.Keys| <= chunkSize
         && w.requested <= |f| + |found.Keys| + w.interruptions * chunkSize
       case Saving(_, known, pending) =>
         pending <= s && pending !! f && known <= f && w.requested <= |f| + w.interruptions * chunkSize
       case Deleting(_, present) => present == s && w.requested <= |f| + w.interruptions * chunkSize
       case _ => w.requested <= |f| + w.interruptions * chunkSize
  }

  lemma InterruptIsAccounted(w: World, chunkSize: nat)
    requires Accounted(w, chunkSize) && !w.phase.Idle?
    ensures Accounted(After(w, Interrupt, chunkSize), chunkSize)
  {
    assert (w.interruptions + 1) * chunkSize == w.interruptions * chunkSize + chunkSize;
  }

  lemma FetchIsAccounted(w: World, chunk: set<Uid>, seen: nat, chunkSize: nat)
    requires Accounted(w, chunkSize) && CanHappen(w, FetchChunk(chunk, seen), chunkSize)
    ensures Accounted(After(w, FetchChunk(chunk, seen), chunkSize), chunkSize)
  {
    assert w.server.FlagsFor(chunk - w.phase.known).Keys == chunk;
  }

  lemma RecordIsAccounted(w: World, chunkSize: nat)
    requires Accounted(w, chunkSize) && CanHappen(w, RecordChunk, chunkSize)
    ensures Accounted(After(w, RecordChunk, chunkSize), chunkSize)
  {
    var w' := After(w, RecordChunk, chunkSize);
    assert w'.mirror.flags.Keys == w.mirror.flags.Keys + w.phase.found.Keys;
  }

  lemma UpdateIsAccounted(w: World, u: Uid, chunkSize: nat)
    requires Accounted(w, chunkSize) && CanHappen(w, ApplyChange(u), chunkSize)
    ensures Accounted(After(w, ApplyChange(u), chunkSize), chunkSize)
  {
    UpdateKeepsCheckpoint(w.mirror, w.server, u, w.phase.todo[u]);
  }

  lemma DeleteIsAccounted(w: World, chunkSize: nat)
    requires Accounted(w, chunkSize) && CanHappen(w, DeleteVanished, chunkSize)
    ensures Accounted(After(w, DeleteVanished, chunkSize), chunkSize)
  {
    assert w.mirror.Keep(w.phase.present).flags.Keys == w.mirror.flags.Keys;
  }

  lemma ActionIsAccounted(w: World, a: Action, chunkSize: nat)
    requires Accounted(w, chunkSize) && CanHappen(w, a, chunkSize) && QuietAction(a)
    ensures Accounted(After(w, a, chunkSize), chunkSize) && After(w, a, chunkSize).server == w.server
  {
    match a
    case Interrupt => InterruptIsAccounted(w, chunkSize);
    case ApplyChange(u) => UpdateIsAccounted(w, u, chunkSize);
    case FetchChunk(chunk, seen) => FetchIsAccounted(w, chunk, seen, chunkSize);
    case RecordChunk => RecordIsAccounted(w, chunkSize);
    case DeleteVanished => DeleteIsAccounted(w, chunkSize);
    case _ =>
  }

  lemma {:induction false} RunIsAccounted(ws: seq<World>, acts: seq<Action>, chunkSize: nat, n: nat)
    requires History(ws, acts, chunkSize) && n < |ws| && forall i | 0 <= i < |acts| :: QuietAction(acts[i])
    requires Accounted(ws[0], chunkSize)
    ensures Accounted(ws[n], chunkSize) && ws[n].server == ws[0].server
  {
    if n > 0 {
      RunIsAccounted(ws, acts, chunkSize, n - 1);
      ActionIsAccounted(ws[n - 1], acts[n - 1], chunkSize);
    }
  }

  /** An interruption costs one chunk: mirroring a quiet mailbox of n messages, however
      often the pass is stopped, asks for at most n full records and one chunk more for
      every interruption. */
  lemma InterruptionCostsOneChunk(ws: seq<World>, acts: seq<Action>, chunkSize: nat, n: nat)
    requires History(ws, acts, chunkSize) && n < |ws| && forall i | 0 <= i < |acts| :: QuietAction(acts[i])
    requires ws[0].phase.Idle? && Fresh(ws[0].mirror) && ws[0].requested == 0 && ws[0].interruptions == 0
    ensures ws[n].requested <= |ws[0].server.messages| + ws[n].interruptions * chunkSize
  {
    RunIsAccounted(ws, acts, chunkSize, n);
    var f := ws[n].mirror.flags.Keys;
    var inHand := if ws[n].phase.Recording? then ws[n].phase.found.Keys else {};
    CardinalityOfSubset(f + inHand, ws[n].server.messages.Keys);
  }

  lemma CardinalityOfSubset(a: set<Uid>, b: set<Uid>)
    requires a <= b
    ensures |a| <= |b|
  {
    assert b == a + (b - a);
  }
}
