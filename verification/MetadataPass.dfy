/** The metadata pass as it runs: loops over server answers, one commit at a time, against
    an upstream that drifts between commands and faults that may strike before any of
    them. Every step is logged as an action of the protocol, so what is proved of all
    protocol histories holds of the pass. */
module MetadataPass {
  import opened Wrappers
  import opened Tables
  import opened Mirror
  import opened MetadataProtocol
  import opened Planner
  import Store

  /** The upstream mailbox, with the states it will drift through and the chunks it has been
      asked for. */
  class Upstream {
    var server: Server
    var timeline: seq<Server>
    ghost var asked: seq<set<Uid>>

    ghost predicate Valid()
      reads this`server, this`timeline
    {
      && server.Ok()
      && (forall i | 0 <= i < |timeline| :: timeline[i].Ok())
      && (|timeline| > 0 ==> server.Becomes(timeline[0]))
      && (forall i, j | 0 <= i && j == i + 1 && j < |timeline| :: timeline[i].Becomes(timeline[j]))
    }

    method Drift()
      requires Valid()
      modifies this`server, this`timeline
      ensures Valid() && old(server).Becomes(server)
      ensures old(timeline) == [] ==> server == old(server) && timeline == []
    {
      if |timeline| > 0 {
        var next, rest := timeline[0], timeline[1..];
        assert forall i | 0 <= i < |rest| :: rest[i] == timeline[i + 1];
        server, timeline := next, rest;
      }
    }

    /** FETCH of one chunk. */
    method Fetch(chunk: set<Uid>) returns (answers: map<Uid, ServerMessage>)
      modifies this`asked
      ensures answers == Answers(server, chunk) && asked == old(asked) + [chunk]
    {
      asked := asked + [chunk];
      answers := Answers(server, chunk);
    }
  }

  /** What SELECT reports. */
  datatype SelectedMailbox = SelectedMailbox(uidValidity: nat, uidNext: nat, modSeq: nat, numMessages: nat)

  datatype Outcome = Failed | Unchanged | Completed(reconciled: bool)

  class MetadataSync {
    const store: Store.Store
    const upstream: Upstream
    const mailbox: Id
    const chunkSize: nat
    var faults: seq<bool>
    ghost const first: World
    ghost var world: World
    ghost var worlds: seq<World>
    ghost var acts: seq<Action>

    /** The steps taken so far are a protocol history that leads to this world. */
    ghost predicate Recorded()
      reads this`worlds, this`acts, this`world
    {
      && worlds != [] && worlds[0] == first && worlds[|worlds| - 1] == world
      && History(worlds, acts, chunkSize) && HoldsRow(world)
    }

    /** The world is what the tables hold and what the server is. */
    ghost predicate Logged()
      reads this, store, upstream`server, upstream`timeline
    {
      && chunkSize >= 1 && Recorded()
      && upstream.Valid() && world.server == upstream.server
      && Reflects(store.View(), mailbox, world.mirror)
    }

    /** A mailbox row that has just been read or created, and nothing logged yet. */
    constructor (store: Store.Store, upstream: Upstream, mailbox: Id, batchMessages: int, faults: seq<bool>,
                 ghost mirror: Mirror)
      requires upstream.Valid() && Reflects(store.View(), mailbox, mirror)
      ensures Logged() && this.store == store && this.upstream == upstream && this.mailbox == mailbox
      ensures chunkSize == (if batchMessages < 1 then 1 else batchMessages)
      ensures world == first == World(upstream.server, mirror, Idle, 0, 0)
    {
      this.store, this.upstream, this.mailbox := store, upstream, mailbox;
      this.chunkSize, this.faults := if batchMessages < 1 then 1 else batchMessages, faults;
      first := World(upstream.server, mirror, Idle, 0, 0);
      world := World(upstream.server, mirror, Idle, 0, 0);
      worlds, acts := [World(upstream.server, mirror, Idle, 0, 0)], [];
    }

    // ------------------------------------------------------------ logging

    /** Appends one action whose effect the tables and the server already show. */
    ghost method Log(a: Action)
      requires Recorded() && CanHappen(world, a, chunkSize)
      modifies this`worlds, this`acts, this`world
      ensures Recorded() && world == After(old(world), a, chunkSize) && KeepsInv()
      ensures SafeStart(old(world), a) ==> KeepsFlags()
    {
      hide Inv, FlagInv, CanHappen, After, HoldsRow;
      ActionHoldsRow(world, a, chunkSize);
      if Inv(world) {
        ActionKeepsInv(world, a, chunkSize);
        if FlagInv(world) && SafeStart(world, a) {
          ActionKeepsFlags(world, a, chunkSize);
        }
      }
      world := After(world, a, chunkSize);
      worlds, acts := worlds + [world], acts + [a];
    }

    /** What the protocol's invariant says still holds. */
    twostate predicate KeepsInv()
      reads this`world
    {
      Inv(old(world)) ==> Inv(world)
    }

    /** And so does what is known of flags. */
    twostate predicate KeepsFlags()
      reads this`world
    {
      Inv(old(world)) && FlagInv(old(world)) ==> FlagInv(world)
    }

    /** An upstream with nothing to drift to stays as it is. */
    twostate predicate Continued()
      reads this, store, upstream`server, upstream`timeline
    {
      && Logged() && KeepsInv()
      && (old(upstream.timeline) == [] ==> upstream.timeline == [] && upstream.server == old(upstream.server))
    }

    /** With no fault to come nothing fails. */
    twostate predicate Faultless(ok: bool)
      reads this`faults
    {
      old(faults) == [] ==> ok && faults == []
    }

    /** The same UIDs are mirrored. */
    twostate predicate SameUids()
      reads this`world
    {
      world.mirror.flags.Keys == old(world).mirror.flags.Keys
    }

    /** Between any two steps the server may change; then the step may fail. */
    method Tick() returns (ok: bool)
      requires Logged()
      modifies this, upstream`server, upstream`timeline
      ensures Faultless(ok)
      ensures Continued() && KeepsFlags() && world == old(world).(server := upstream.server)
    {
      upstream.Drift();
      Log(Change(upstream.server));
      ok := true;
      if |faults| > 0 {
        ok, faults := !faults[0], faults[1..];
      }
    }

    /** Logs an action that writes nothing. */
    ghost method Note(a: Action)
      requires Logged() && CanHappen(world, a, chunkSize)
      requires After(world, a, chunkSize).mirror == world.mirror && After(world, a, chunkSize).server == world.server
      modifies this`worlds, this`acts, this`world
      ensures Continued() && world == After(old(world), a, chunkSize)
      ensures SafeStart(old(world), a) ==> KeepsFlags()
    {
      Log(a);
    }

    /** The pass stops here; whatever was committed stays. */
    ghost method Stop()
      requires Logged() && !world.phase.Idle?
      modifies this`worlds, this`acts, this`world
      ensures Continued() && KeepsFlags() && world.phase.Idle? && world.mirror == old(world).mirror
    {
      Log(Interrupt);
    }

    // ------------------------------------------------------------ commits

    method ApplyChange(uid: Uid, flags: Flags, modSeq: nat)
      requires Logged() && world.phase.Flagging? && uid in world.phase.todo && world.phase.todo[uid] == flags
      modifies this`worlds, this`acts, this`world, store
      ensures Continued() && KeepsFlags()
      ensures world == After(old(world), MetadataProtocol.ApplyChange(uid), chunkSize)
    {
      UpdateFlagsReflects(store.View(), mailbox, uid, flags, modSeq, world.mirror);
      store.UpdateFlags(mailbox, uid, flags, modSeq);
      Log(MetadataProtocol.ApplyChange(uid));
    }

    method RefreshKnown(uid: Uid, flags: Flags, modSeq: nat)
      requires Logged() && world.phase.Recording? && uid in world.phase.updates && world.phase.updates[uid] == flags
      modifies this`worlds, this`acts, this`world, store
      ensures Continued() && KeepsFlags()
      ensures world == After(old(world), MetadataProtocol.RefreshKnown(uid), chunkSize)
    {
      UpdateFlagsReflects(store.View(), mailbox, uid, flags, modSeq, world.mirror);
      store.UpdateFlags(mailbox, uid, flags, modSeq);
      Log(MetadataProtocol.RefreshKnown(uid));
    }

    method RecordChunk(batch: seq<Meta>)
      requires Logged() && CanHappen(world, MetadataProtocol.RecordChunk, chunkSize)
      requires MetaFlags(batch) == world.phase.found && forall m | m in batch :: m.mailbox == mailbox
      modifies this`worlds, this`acts, this`world, store
      ensures Continued() && KeepsFlags()
      ensures world == After(old(world), MetadataProtocol.RecordChunk, chunkSize)
    {
      UpsertAllReflects(store.View(), mailbox, batch, world.mirror);
      var created := store.UpsertMetadataBatch(batch);
      Log(MetadataProtocol.RecordChunk);
    }

    method SaveProgress(selected: SelectedMailbox, highestSeen: nat)
      requires Logged() && world.phase.Saving? && Describes(world.phase.pass, selected)
      requires highestSeen == world.phase.pass.seen
      modifies this`worlds, this`acts, this`world, store
      ensures Continued() && KeepsFlags()
      ensures world == After(old(world), MetadataProtocol.SaveProgress, chunkSize)
    {
      var c := Checkpoint(selected.uidValidity, selected.uidNext, selected.modSeq, highestSeen, false);
      CheckpointReflects(store.View(), mailbox, c, world.mirror);
      store.SaveCheckpoint(mailbox, c);
      Log(MetadataProtocol.SaveProgress);
    }

    method DeleteVanished(present: set<Uid>)
      requires Logged() && world.phase.Deleting? && world.phase.present == present
      modifies this`worlds, this`acts, this`world, store
      ensures Continued() && KeepsFlags()
      ensures world == After(old(world), MetadataProtocol.DeleteVanished, chunkSize)
    {
      DeleteMissingReflects(store.View(), mailbox, present, world.mirror);
      store.DeleteMissingUIDs(mailbox, present);
      Log(MetadataProtocol.DeleteVanished);
    }

    method Complete(selected: SelectedMailbox, highestSeen: nat)
      requires Logged() && world.phase.Finishing? && Describes(world.phase.pass, selected)
      requires highestSeen == world.phase.pass.seen
      modifies this`worlds, this`acts, this`world, store
      ensures Continued() && KeepsFlags()
      ensures world == After(old(world), MetadataProtocol.Complete, chunkSize)
    {
      var c := Checkpoint(selected.uidValidity, selected.uidNext, selected.modSeq, highestSeen, true);
      CheckpointReflects(store.View(), mailbox, c, world.mirror);
      store.SaveCheckpoint(mailbox, c);
      Log(MetadataProtocol.Complete);
    }

    // ------------------------------------------------------------ the pass

    /** SELECT, then the reset a changed UIDVALIDITY demands. */
    method Open(preferCondStore: bool, reportsModSeq: bool)
      returns (ok: bool, selected: SelectedMailbox, condStore: bool)
      requires Logged() && world.phase.Idle?
      modifies this, upstream`server, upstream`timeline, store
      ensures Faultless(ok)
      ensures ok && !Renumbered(old(store.View()), mailbox, selected.uidValidity) ==> store.View() == old(store.View())
      ensures Continued() && KeepsFlags() && (!ok ==> world.phase.Idle?)
      ensures ok ==> && world.phase.Ready? && Describes(world.phase.pass, selected)
                     && world.phase.pass.condStore == condStore
                     && world.phase.pass == ReadRow(world.phase.pass, world.mirror)
                     && world.mirror == ResetIfRenumbered(old(world).mirror, selected.uidValidity)
                     && condStore == (preferCondStore && selected.modSeq > 0)
                     && selected.modSeq == (if reportsModSeq then world.phase.pass.start.modSeq else 0)
                     && (old(upstream.timeline) == [] ==> world.phase.pass.start == upstream.server)
    {
      hide Recorded, Reflects, Upstream.Valid, LooksUnchanged, Inv, FlagInv;
      selected, condStore := SelectedMailbox(0, 0, 0, 0), false;
      ok := Tick();
      if !ok {
        return;
      }
      var s := upstream.server;
      selected := SelectedMailbox(s.uidValidity, s.uidNext, if reportsModSeq then s.modSeq else 0, |s.messages|);
      condStore := preferCondStore && selected.modSeq > 0;
      Note(Select(selected.modSeq, condStore));
      ok := Tick();
      if !ok {
        Stop();
        return;
      }
      StartPass(selected);
    }

    method StartPass(selected: SelectedMailbox)
      requires Logged() && world.phase.Selected? && Describes(world.phase.pass, selected)
      modifies this`worlds, this`acts, this`world, store
      ensures !Renumbered(old(store.View()), mailbox, selected.uidValidity) ==> store.View() == old(store.View())
      ensures Continued() && KeepsFlags() && world == After(old(world), Begin, chunkSize)
    {
      var box := store.mailboxes[mailbox];
      if box.uidValidity.Some? && box.uidValidity.value != selected.uidValidity {
        ResetReflects(store.View(), mailbox, selected.uidValidity, world.mirror);
        store.ResetForUIDValidityChange(mailbox, selected.uidValidity);
      }
      Log(Begin);
    }

    method LocalCount() returns (n: nat)
      requires Logged()
      ensures n == world.mirror.Count()
    {
      n := store.CountMailboxMessages(mailbox);
      CountIsReflected(store.View(), mailbox, world.mirror);
    }

    /** Does SELECT alone show that nothing has changed? */
    method NothingChanged(selected: SelectedMailbox, condStore: bool) returns (settled: bool)
      requires Logged() && world.phase.Ready? && Describes(world.phase.pass, selected)
      requires world.phase.pass.condStore == condStore && world.phase.pass == ReadRow(world.phase.pass, world.mirror)
      ensures settled == LooksUnchanged(world.phase.pass, world.mirror)
    {
      var box := store.mailboxes[mailbox];
      settled := false;
      if condStore && GetOr(box.highestModSeq, 0) == selected.modSeq && GetOr(box.uidNext, 0) == selected.uidNext
         && box.watermark > 0 {
        var localCount := LocalCount();
        settled := localCount >= selected.numMessages;
      }
    }

    /** Flag changes on known messages, when the server can tell which moved. */
    method RefreshFlags(condStore: bool) returns (ok: bool)
      requires Logged() && world.phase.Ready? && !LooksUnchanged(world.phase.pass, world.mirror)
      requires world.phase.pass.condStore == condStore && world.phase.pass == ReadRow(world.phase.pass, world.mirror)
      modifies this, upstream`server, upstream`timeline, store
      ensures Safe(old(world)) ==> KeepsFlags()
      ensures Faultless(ok) && SameUids()
      ensures Continued() && (!ok ==> world.phase.Idle?)
      ensures ok ==> world.phase == Listing(old(world).phase.pass)
    {
      var stored := GetOr(store.mailboxes[mailbox].highestModSeq, 0);
      assert stored == world.phase.pass.stored;
      hide Recorded, Reflects, Upstream.Valid, LooksUnchanged, Inv, FlagInv;
      ok := true;
      if !(condStore && stored > 0) {
        Note(SkipChanged);
        return;
      }
      ok := Tick();
      if !ok {
        Stop();
        return;
      }
      var changed := upstream.server.ChangedSince(stored);
      Note(FetchChanged);
      ok := ApplyChanges(changed, upstream.server.messages);
    }

    method ApplyChanges(changed: map<Uid, Flags>, answers: map<Uid, ServerMessage>) returns (ok: bool)
      requires Logged() && world.phase.Flagging? && world.phase.todo == changed && changed.Keys <= answers.Keys
      modifies this, upstream`server, upstream`timeline, store
      ensures Faultless(ok) && SameUids()
      ensures Continued() && KeepsFlags() && (!ok ==> world.phase.Idle?)
      ensures ok ==> world.phase == Listing(old(world).phase.pass)
    {
      hide Logged, LooksUnchanged, Inv, FlagInv;
      ghost var p := world.phase.pass;
      var todo := changed;
      while todo.Keys != {}
        invariant Continued() && KeepsFlags() && world.phase == Flagging(p, todo) && todo.Keys <= changed.Keys
        invariant SameUids() && (old(faults) == [] ==> faults == [])
        decreases |todo.Keys|
      {
        var u :| u in todo.Keys;
        ok := Tick();
        if !ok {
          Stop();
          return;
        }
        ApplyChange(u, todo[u], answers[u].modSeq);
        todo := todo - {u};
      }
      assert todo == map[];
      Note(ChangesDone);
      ok := true;
    }

    /** The UIDs that exist, less those already recorded when CONDSTORE covers them. */
    method PlanEnumeration(condStore: bool) returns (ok: bool, known: set<Uid>, pending: seq<Uid>)
      requires Logged() && world.phase.Listing? && world.phase.pass.condStore == condStore
      modifies this, upstream`server, upstream`timeline
      ensures Faultless(ok) && SameUids()
      ensures Continued() && KeepsFlags() && (!ok ==> world.phase.Idle?)
      ensures ok ==> world.phase == Chunking(old(world).phase.pass, known, Elements(pending))
      ensures ok ==> known == world.mirror.flags.Keys
                     && Elements(pending) == ToAsk(upstream.server, known, condStore)
      ensures Distinct(pending)
    {
      hide Recorded, Upstream.Valid, LooksUnchanged, Inv, FlagInv;
      known, pending := {}, [];
      ok := Tick();
      if !ok {
        Stop();
        return;
      }
      var allUids := upstream.server.messages.Keys;
      known := store.ExistingUpstreamUIDs(mailbox);
      CountIsReflected(store.View(), mailbox, world.mirror);
      pending := Missing(allUids, known, condStore);
      Note(ListUids);
    }

    /** FETCH one chunk and commit what it brings: refreshed flags one by one, new rows in one
        transaction, then how far enumeration has come. */
    method OneChunk(selected: SelectedMailbox, condStore: bool, known: set<Uid>, chunk: set<Uid>, highestSeen: nat)
      returns (ok: bool, highestSeen': nat)
      requires Logged() && world.phase.Chunking? && world.phase.known == known && Describes(world.phase.pass, selected)
      requires world.phase.pass.condStore == condStore && world.phase.pass.seen == highestSeen
      requires chunk <= world.phase.pending && 0 < |chunk| <= chunkSize
      modifies this, upstream, store
      ensures Faultless(ok)
      ensures Continued() && KeepsFlags() && (!ok ==> world.phase.Idle?)
      ensures upstream.asked == old(upstream.asked) + [chunk] || (!ok && upstream.asked == old(upstream.asked))
      ensures ok && old(upstream.timeline) == [] ==>
                HighestSeen(highestSeen', highestSeen, chunk * upstream.server.messages.Keys)
      ensures ok ==> world.phase == Chunking(old(world).phase.pass.(seen := highestSeen'), known,
                                             old(world).phase.pending - chunk)
    {
      hide Logged, LooksUnchanged, Inv, FlagInv, HighestSeen;
      highestSeen' := highestSeen;
      ghost var p, pending := world.phase.pass, world.phase.pending;
      ok := Tick();
      if !ok {
        Stop();
        return;
      }
      var answers := upstream.Fetch(chunk);
      assert answers.Keys == chunk * upstream.server.messages.Keys;
      ghost var top := HighestExists(highestSeen, answers.Keys);
      FetchShows(upstream.server, chunk, known);
      Note(FetchChunk(chunk, top));
      var batch;
      ok, highestSeen', batch := ReadAnswers(condStore, known, answers, highestSeen);
      if !ok {
        return;
      }
      HighestUnique(highestSeen, answers.Keys, highestSeen', top);
      AnswersAreMine(mailbox, answers, batch);
      ok := CommitChunk(selected, batch, highestSeen');
    }

    /** The chunk's transaction, then its checkpoint. */
    method CommitChunk(selected: SelectedMailbox, batch: seq<Meta>, highestSeen: nat) returns (ok: bool)
      requires Logged() && CanHappen(world, MetadataProtocol.RecordChunk, chunkSize)
      requires Describes(world.phase.pass, selected) && highestSeen == world.phase.pass.seen
      requires MetaFlags(batch) == world.phase.found && forall m | m in batch :: m.mailbox == mailbox
      modifies this, upstream`server, upstream`timeline, store
      ensures Faultless(ok)
      ensures Continued() && KeepsFlags() && (!ok ==> world.phase.Idle?)
      ensures ok ==> world.phase == Chunking(old(world).phase.pass, old(world).phase.known, old(world).phase.pending)
    {
      hide Logged, LooksUnchanged, Inv, FlagInv;
      ok := Tick();
      if !ok {
        Stop();
        return;
      }
      RecordChunk(batch);
      ok := Tick();
      if !ok {
        Stop();
        return;
      }
      SaveProgress(selected, highestSeen);
    }

    /** The inner loop over one FETCH response. */
    method ReadAnswers(condStore: bool, known: set<Uid>, answers: map<Uid, ServerMessage>, highestSeen: nat)
      returns (ok: bool, highestSeen': nat, batch: seq<Meta>)
      requires Logged() && world.phase.Recording? && world.phase.known == known
      requires world.phase.updates == (if condStore then map[] else FlagsIn(answers, known))
      requires world.phase.found == FlagsIn(answers, answers.Keys - known)
      modifies this, upstream`server, upstream`timeline, store
      ensures Faultless(ok)
      ensures Continued() && KeepsFlags() && (!ok ==> world.phase.Idle?)
      ensures ok ==> world.phase == old(world).phase.(updates := map[])
      ensures ok ==> HighestSeen(highestSeen', highestSeen, answers.Keys)
      ensures ok ==> MetaFlags(batch) == old(world).phase.found && AnswersIn(mailbox, answers, batch)
    {
      highestSeen', batch, ok := highestSeen, [], true;
      ghost var phase := world.phase;
      var rest := answers;
      assert HasRead(mailbox, known, answers, rest, highestSeen, highestSeen', batch);
      hide Logged, LooksUnchanged, Inv, FlagInv, HasRead, FlagsIn, HighestSeen;
      while rest.Keys != {}
        invariant ok && Continued() && KeepsFlags()
        invariant HasRead(mailbox, known, answers, rest, highestSeen, highestSeen', batch)
        invariant world.phase == phase.(updates := if condStore then map[] else FlagsIn(rest, known))
        invariant old(faults) == [] ==> faults == []
        decreases |rest.Keys|
      {
        var u :| u in rest.Keys;
        ReadOne(mailbox, known, answers, rest, highestSeen, highestSeen', batch, u);
        if u > highestSeen' {
          highestSeen' := u;
        }
        if u !in known {
          batch := batch + [MetaOf(mailbox, u, rest[u])];
        } else if !condStore {
          ok := RefreshOne(u, rest[u].flags);
          if !ok {
            return;
          }
        }
        rest := rest - {u};
      }
      ReadAll(mailbox, known, answers, rest, highestSeen, highestSeen', batch);
    }

    method RefreshOne(u: Uid, flags: Flags) returns (ok: bool)
      requires Logged() && world.phase.Recording? && u in world.phase.updates && world.phase.updates[u] == flags
      modifies this, upstream`server, upstream`timeline, store
      ensures Faultless(ok)
      ensures Continued() && KeepsFlags() && (!ok ==> world.phase.Idle?)
      ensures ok ==> world.phase == old(world).phase.(updates := old(world).phase.updates - {u})
    {
      hide Logged, LooksUnchanged, Inv, FlagInv;
      ok := Tick();
      if !ok {
        Stop();
        return;
      }
      RefreshKnown(u, flags, UNASKED);
    }

    lemma ChunksHaveSize()
      requires Logged()
      ensures chunkSize >= 1
    {
    }

    /** Every chunk in turn, until one fails. Together the chunks are the pending UIDs, and no two
        of them ask for the same one. */
    method Enumerate(selected: SelectedMailbox, condStore: bool, known: set<Uid>, pending: seq<Uid>, highestSeen: nat)
      returns (ok: bool, highestSeen': nat, ghost chunks: seq<set<Uid>>)
      requires Logged() && world.phase.Chunking? && world.phase == Chunking(world.phase.pass, known, Elements(pending))
      requires Describes(world.phase.pass, selected)
      requires world.phase.pass.condStore == condStore && world.phase.pass.seen == highestSeen
      requires Distinct(pending)
      modifies this, upstream, store
      ensures Faultless(ok)
      ensures Continued() && KeepsFlags() && (!ok ==> world.phase.Idle?)
      ensures ok ==> world.phase == Chunking(old(world).phase.pass.(seen := highestSeen'), known, {})
      ensures ok && old(upstream.timeline) == [] ==>
                HighestSeen(highestSeen', highestSeen, Elements(pending) * upstream.server.messages.Keys)
      ensures CutInto(chunks, Elements(pending), chunkSize) && DisjointAndFull(chunks, |chunks| - 1, chunkSize)
      ensures old(upstream.asked) <= upstream.asked <= old(upstream.asked) + chunks
      ensures ok ==> upstream.asked == old(upstream.asked) + chunks
    {
      hide CutInto, DisjointAndFull, Distinct, Elements, Union, HighestSeen, Logged, LooksUnchanged, Inv, FlagInv;
      ghost var p := world.phase.pass;
      ChunksHaveSize();
      var plan := PlanMetadataChunks(pending, chunkSize);
      chunks := plan;
      ok, highestSeen' := true, highestSeen;
      NoneSeen(chunks, upstream.server.messages.Keys, highestSeen);
      for i := 0 to |plan|
        invariant Continued() && KeepsFlags() && ok
        invariant world.phase == Chunking(p.(seen := highestSeen'), known, Elements(pending) - Union(chunks[..i]))
        invariant old(faults) == [] ==> faults == []
        invariant old(upstream.timeline) == [] ==>
                    HighestSeen(highestSeen', highestSeen, Union(chunks[..i]) * upstream.server.messages.Keys)
        invariant upstream.asked == old(upstream.asked) + chunks[..i]
      {
        NextChunk(chunks, Elements(pending), chunkSize, i);
        ghost var seen := highestSeen';
        PrefixAsked(old(upstream.asked), chunks, i);
        ok, highestSeen' := OneChunk(selected, condStore, known, plan[i], highestSeen');
        if !ok {
          return;
        }
        SeenMore(chunks, i, upstream.server.messages.Keys, highestSeen, seen, highestSeen');
      }
      assert chunks[..|chunks|] == chunks;
      NothingLeft(chunks, Elements(pending), chunkSize);
    }

    /** Removes rows the server no longer has, unless the counts already agree. A failure here
        is tolerated: the pass goes on. */
    method ReconcileDeletions(selected: SelectedMailbox) returns (reconciled: bool)
      requires Logged() && world.phase.Chunking? && world.phase.pending == {} && Describes(world.phase.pass, selected)
      modifies this, upstream`server, upstream`timeline, store
      ensures Faultless(reconciled)
      ensures Continued() && KeepsFlags() && world.phase == Finishing(old(world).phase.pass, reconciled)
    {
      hide Logged, LooksUnchanged, Inv, FlagInv;
      ghost var p := world.phase.pass;
      var ok := Tick();
      if !ok {
        Note(GiveUpReconciling);
        return false;
      }
      var localCount := LocalCount();
      var present := upstream.server.messages.Keys;
      Note(Compare);
      reconciled := true;
      if localCount != selected.numMessages {
        reconciled := DeleteAbsent(present);
      }
    }

    method DeleteAbsent(present: set<Uid>) returns (reconciled: bool)
      requires Logged() && world.phase.Deleting? && world.phase.present == present
      modifies this, upstream`server, upstream`timeline, store
      ensures Faultless(reconciled)
      ensures Continued() && KeepsFlags() && world.phase == Finishing(old(world).phase.pass, reconciled)
    {
      hide Logged, LooksUnchanged, Inv, FlagInv;
      reconciled := Tick();
      if reconciled {
        DeleteVanished(present);
      } else {
        Note(GiveUpReconciling);
      }
    }

    /** One run over the mailbox, from SELECT to the last checkpoint or to wherever it fails.

        On every exit the log is a protocol history and its invariants hold. With no fault the run
        ends well. If the server stood still as well, it settles for the unchanged verdict exactly
        if the stored row is up to date, having written and fetched nothing; otherwise it asks
        for exactly the UIDs it has to, completes, and stores what SELECT said. Then an unchanged
        verdict means nothing is missing, and a pass that completes with its deletions
        reconciled leaves the tables with exactly the server's UIDs. Unless the pass uses
        CONDSTORE while rows are known and no mod-sequence is stored, no flag change is lost
        either: what differs will be reported again, and if the server stood still nothing
        differs. */
    method SyncMailbox(preferCondStore: bool, reportsModSeq: bool)
      returns (outcome: Outcome, ghost chunks: seq<set<Uid>>)
      requires Logged() && world.phase.Idle?
      modifies this, upstream, store
      ensures Continued() && world.phase.Idle?
      ensures SafeBegin(old(world), preferCondStore && reportsModSeq) ==> KeepsFlags()
      ensures old(faults) == [] ==> faults == [] && outcome in {Unchanged, Completed(true)}
      ensures old(upstream.timeline) == [] && outcome != Outcome.Failed ==>
                (outcome == Unchanged <==>
                   UpToDate(old(store.View()), mailbox, upstream.server, preferCondStore && reportsModSeq))
      ensures old(upstream.timeline) == [] && outcome == Unchanged ==>
                store.View() == old(store.View()) && upstream.asked == old(upstream.asked)
      ensures old(upstream.timeline) == [] && outcome.Completed? ==>
                && upstream.asked == old(upstream.asked) + chunks
                && Refreshed(old(store.View()), store.View(), mailbox, upstream.server, preferCondStore, reportsModSeq,
                             chunks, chunkSize)
      ensures Inv(old(world)) && old(upstream.timeline) == [] && outcome == Completed(true) ==>
                store.View().UidsOf(mailbox) == upstream.server.messages.Keys
      ensures Inv(old(world)) && old(upstream.timeline) == [] && outcome == Unchanged ==>
                upstream.server.messages.Keys <= store.View().UidsOf(mailbox)
      ensures && Inv(old(world)) && FlagInv(old(world)) && SafeBegin(old(world), preferCondStore && reportsModSeq)
              && old(upstream.timeline) == [] && outcome != Outcome.Failed
              ==> FlagsAgree(store.View(), mailbox, upstream.server)
    {
      hide Recorded, Reflects, Upstream.Valid, LooksUnchanged, Inv, FlagInv, CanHappen, Safe, SafeBegin, FlagsAgree,
           CutInto, DisjointAndFull, HighestSeen, ToAsk, UpToDate, Refreshed, HasSaved, ReadRow, ResetIfRenumbered;
      ghost var before, t0 := world, store.View();
      RowIsShown();
      chunks := [];
      var ok, selected, condStore := Open(preferCondStore, reportsModSeq);
      if !ok {
        return Outcome.Failed, chunks;
      }
      BeginsSafely(before, world, preferCondStore && reportsModSeq);
      UpToDateIff(t0, mailbox, before.mirror, world, preferCondStore, reportsModSeq);
      var settled := NothingChanged(selected, condStore);
      if settled {
        Settled();
        Note(ReturnEarly);
        return Unchanged, chunks;
      }
      ghost var ready := world;
      outcome, chunks := RunPass(selected, condStore);
      if outcome.Completed? && old(upstream.timeline) == [] {
        RefreshedRow(t0, store.View(), mailbox, before.mirror, ready, upstream.server, preferCondStore, reportsModSeq,
                     chunks, chunkSize);
      }
    }

    lemma RowIsShown()
      requires Logged()
      ensures Reflects(store.View(), mailbox, world.mirror)
    {
    }

    /** What the unchanged verdict is worth. */
    lemma Settled()
      requires Logged() && world.phase.Ready? && LooksUnchanged(world.phase.pass, world.mirror)
      ensures Inv(world) && world.server == world.phase.pass.start ==>
                upstream.server.messages.Keys <= store.View().UidsOf(mailbox)
      ensures Inv(world) && FlagInv(world) && world.server == world.phase.pass.start ==>
                FlagsAgree(store.View(), mailbox, upstream.server)
    {
      hide Recorded, Upstream.Valid, Inv, FlagInv, LooksUnchanged, Reflects, FlagsAgree;
      ShownUids();
      if Inv(world) {
        ShortcutIsComplete(world);
        if FlagInv(world) && world.server == world.phase.pass.start {
          ShortcutHasFlags(world);
          FlagsAreShown(store.View(), mailbox, world.mirror, upstream.server);
        }
      }
    }

    /** Flags first, then what there is to enumerate. */
    method Prepare(condStore: bool) returns (ok: bool, known: set<Uid>, pending: seq<Uid>)
      requires Logged() && world.phase.Ready? && !LooksUnchanged(world.phase.pass, world.mirror)
      requires world.phase.pass.condStore == condStore && world.phase.pass == ReadRow(world.phase.pass, world.mirror)
      modifies this, upstream`server, upstream`timeline, store
      ensures Safe(old(world)) ==> KeepsFlags()
      ensures Faultless(ok)
      ensures Continued() && (!ok ==> world.phase.Idle?)
      ensures ok ==> world.phase == Chunking(old(world).phase.pass, known, Elements(pending))
      ensures ok ==> known == old(world).mirror.flags.Keys
                     && Elements(pending) == ToAsk(upstream.server, known, condStore)
      ensures Distinct(pending)
    {
      hide Recorded, Reflects, Upstream.Valid, LooksUnchanged, Inv, FlagInv, Safe;
      known, pending := {}, [];
      ok := RefreshFlags(condStore);
      if ok {
        ok, known, pending := PlanEnumeration(condStore);
      }
    }

    /** Everything between the shortcut and the completing checkpoint. */
    method RunSteps(selected: SelectedMailbox, condStore: bool)
      returns (ok: bool, reconciled: bool, highestSeen: nat, ghost chunks: seq<set<Uid>>)
      requires Logged() && world.phase.Ready? && !LooksUnchanged(world.phase.pass, world.mirror)
      requires Describes(world.phase.pass, selected) && world.phase.pass.condStore == condStore
      requires world.phase.pass == ReadRow(world.phase.pass, world.mirror)
      modifies this, upstream, store
      ensures Faultless(ok && reconciled)
      ensures Safe(old(world)) ==> KeepsFlags()
      ensures Continued() && (!ok ==> world.phase.Idle?)
      ensures ok ==> world.phase == Finishing(old(world).phase.pass.(seen := highestSeen), reconciled)
      ensures ok ==> upstream.asked == old(upstream.asked) + chunks
      ensures ok && old(upstream.timeline) == [] ==>
                var wanted := ToAsk(upstream.server, old(world).mirror.flags.Keys, condStore);
                && CutInto(chunks, wanted, chunkSize) && DisjointAndFull(chunks, |chunks| - 1, chunkSize)
                && HighestSeen(highestSeen, old(world).mirror.watermark, wanted)
    {
      hide Recorded, Reflects, Upstream.Valid, LooksUnchanged, Inv, FlagInv, Safe, Elements, Distinct, CanHappen,
           After, CutInto, DisjointAndFull, HighestSeen, ToAsk;
      highestSeen := Watermark();
      reconciled, chunks := false, [];
      var known, pending;
      ok, known, pending := Prepare(condStore);
      if !ok {
        return;
      }
      AskedArePresent(upstream.server, known, condStore);
      ok, highestSeen, chunks := Enumerate(selected, condStore, known, pending, highestSeen);
      if !ok {
        return;
      }
      reconciled := ReconcileDeletions(selected);
    }

    method RunPass(selected: SelectedMailbox, condStore: bool)
      returns (outcome: Outcome, ghost chunks: seq<set<Uid>>)
      requires Logged() && world.phase.Ready? && !LooksUnchanged(world.phase.pass, world.mirror)
      requires Describes(world.phase.pass, selected) && world.phase.pass.condStore == condStore
      requires world.phase.pass == ReadRow(world.phase.pass, world.mirror)
      modifies this, upstream, store
      ensures Continued() && world.phase.Idle? && outcome != Unchanged
      ensures old(faults) == [] ==> outcome == Completed(true) && faults == []
      ensures Safe(old(world)) ==> KeepsFlags()
      ensures outcome.Completed? ==>
                && upstream.asked == old(upstream.asked) + chunks
                && HasSaved(store.View(), mailbox, old(world).phase.pass)
      ensures outcome.Completed? && old(upstream.timeline) == [] ==>
                var wanted := ToAsk(upstream.server, old(world).mirror.flags.Keys, condStore);
                && CutInto(chunks, wanted, chunkSize) && DisjointAndFull(chunks, |chunks| - 1, chunkSize)
                && HighestSeen(store.View().mailboxes[mailbox].watermark, old(world).mirror.watermark, wanted)
      ensures Inv(old(world)) && old(upstream.timeline) == [] && old(world).phase.pass.start == old(upstream.server)
              && outcome == Completed(true) ==>
                store.View().UidsOf(mailbox) == upstream.server.messages.Keys
      ensures && Inv(old(world)) && FlagInv(old(world)) && Safe(old(world)) && old(upstream.timeline) == []
              && old(world).phase.pass.start == old(upstream.server) && outcome != Outcome.Failed
              ==> FlagsAgree(store.View(), mailbox, upstream.server)
    {
      hide Recorded, Reflects, Upstream.Valid, LooksUnchanged, Inv, FlagInv, Safe, CanHappen, FlagsAgree, CutInto,
           DisjointAndFull, HighestSeen, ToAsk;
      var ok, reconciled, highestSeen;
      ok, reconciled, highestSeen, chunks := RunSteps(selected, condStore);
      if !ok {
        return Outcome.Failed, chunks;
      }
      ok := Tick();
      if !ok {
        Stop();
        return Outcome.Failed, chunks;
      }
      ghost var last := world;
      RowIsHeld();
      Complete(selected, highestSeen);
      Finished(last);
      SavedRow(last);
      outcome := Completed(reconciled);
    }

    lemma RowIsHeld()
      requires Logged()
      ensures HoldsRow(world)
    {
    }

    /** What the completing checkpoint has written. */
    lemma SavedRow(last: World)
      requires Logged() && last.phase.Finishing? && world == After(last, MetadataProtocol.Complete, chunkSize)
      requires HoldsRow(last)
      ensures HasSaved(store.View(), mailbox, last.phase.pass)
      ensures store.View().mailboxes[mailbox].watermark == last.phase.pass.seen
    {
      hide Recorded, Upstream.Valid, Tables.Constraints, ShowsFlags, OrphansOf;
    }

    /** What a completed pass is worth. */
    lemma Finished(last: World)
      requires Logged() && last.phase.Finishing? && world == After(last, MetadataProtocol.Complete, chunkSize)
      ensures Inv(last) && last.phase.reconciled && last.server == last.phase.pass.start ==>
                store.View().UidsOf(mailbox) == upstream.server.messages.Keys
      ensures Inv(last) && FlagInv(last) && last.server == last.phase.pass.start ==>
                FlagsAgree(store.View(), mailbox, upstream.server)
    {
      hide Recorded, Upstream.Valid, Inv, FlagInv, Reflects, FlagsAgree;
      ShownUids();
      if Inv(last) {
        QuietFinish(last);
        if FlagInv(last) && last.server == last.phase.pass.start {
          QuietFlags(last);
          FlagsAreShown(store.View(), mailbox, world.mirror, upstream.server);
        }
      }
    }

    method Watermark() returns (watermark: nat)
      requires Logged()
      ensures watermark == world.mirror.watermark
    {
      watermark := store.mailboxes[mailbox].watermark;
    }

    lemma ShownUids()
      requires Logged()
      ensures store.View().UidsOf(mailbox) == world.mirror.flags.Keys
    {
      UidsAreShown(store.View(), mailbox, world.mirror.flags);
    }
  }

  // ---------------------------------------------------------------- what a run without faults does

  /** The stored UIDVALIDITY is not the server's. */
  predicate Renumbered(t: Tables, mailbox: Id, uidValidity: nat) {
    && mailbox in t.mailboxes && t.mailboxes[mailbox].uidValidity.Some?
    && t.mailboxes[mailbox].uidValidity.value != uidValidity
  }

  /** SELECT shows what the mailbox's row says, and as many messages as there are rows at most. */
  ghost predicate UpToDate(t: Tables, mailbox: Id, s: Server, condStore: bool) {
    && mailbox in t.mailboxes && !Renumbered(t, mailbox, s.uidValidity)
    && condStore && s.modSeq > 0
    && GetOr(t.mailboxes[mailbox].highestModSeq, 0) == s.modSeq
    && GetOr(t.mailboxes[mailbox].uidNext, 0) == s.uidNext
    && t.mailboxes[mailbox].watermark > 0 && |t.RowsOf(mailbox)| >= |s.messages|
  }

  /** The mailbox's row as a completed pass leaves it. */
  ghost predicate HasSaved(t: Tables, mailbox: Id, p: Pass) {
    && mailbox in t.mailboxes
    && t.mailboxes[mailbox].uidValidity == Some(p.start.uidValidity)
    && t.mailboxes[mailbox].uidNext == Some(p.start.uidNext)
    && t.mailboxes[mailbox].highestModSeq == Some(Max(p.stored, p.reported))
  }

  /** A completed pass over a quiet server: SELECT's UIDVALIDITY and UIDNEXT are stored, the higher
      of the mod-sequences, and the highest UID asked for. It has asked, in chunks, for what the
      server has, less what was mirrored already if CONDSTORE covers that. */
  ghost predicate Refreshed(t: Tables, t': Tables, mailbox: Id, s: Server, preferCondStore: bool, reportsModSeq: bool,
                            chunks: seq<set<Uid>>, chunkSize: nat) {
    && mailbox in t.mailboxes && mailbox in t'.mailboxes
    && var box, box', anew := t.mailboxes[mailbox], t'.mailboxes[mailbox], Renumbered(t, mailbox, s.uidValidity);
       var known := if anew then {} else t.UidsOf(mailbox);
       var condStore := preferCondStore && reportsModSeq && s.modSeq > 0;
       var wanted := if condStore then s.messages.Keys - known else s.messages.Keys;
       && box'.uidValidity == Some(s.uidValidity) && box'.uidNext == Some(s.uidNext)
       && box'.highestModSeq == Some(Max(if anew then 0 else GetOr(box.highestModSeq, 0),
                                         if reportsModSeq then s.modSeq else 0))
       && CutInto(chunks, wanted, chunkSize) && DisjointAndFull(chunks, |chunks| - 1, chunkSize)
       && HighestSeen(box'.watermark, if anew then 0 else box.watermark, wanted)
  }

  lemma AskedArePresent(s: Server, known: set<Uid>, condStore: bool)
    ensures ToAsk(s, known, condStore) * s.messages.Keys == ToAsk(s, known, condStore)
  {
  }

  /** What SELECT and the mailbox's row say decides the test for the unchanged verdict. */
  lemma UpToDateIff(t: Tables, mailbox: Id, m: Mirror, w: World, preferCondStore: bool, reportsModSeq: bool)
    requires Reflects(t, mailbox, m) && w.phase.Ready? && w.phase.pass == ReadRow(w.phase.pass, w.mirror)
    requires w.mirror == ResetIfRenumbered(m, w.phase.pass.start.uidValidity)
    requires w.phase.pass.reported == if reportsModSeq then w.phase.pass.start.modSeq else 0
    requires w.phase.pass.condStore == (preferCondStore && w.phase.pass.reported > 0)
    ensures LooksUnchanged(w.phase.pass, w.mirror) <==>
            UpToDate(t, mailbox, w.phase.pass.start, preferCondStore && reportsModSeq)
    ensures LooksUnchanged(w.phase.pass, w.mirror) ==> !Renumbered(t, mailbox, w.phase.pass.start.uidValidity)
  {
    CountIsReflected(t, mailbox, m);
    hide Tables.Constraints, ShowsFlags, OrphansOf;
  }

  lemma RefreshedRow(t: Tables, t': Tables, mailbox: Id, m: Mirror, w: World, s: Server, preferCondStore: bool,
                     reportsModSeq: bool, chunks: seq<set<Uid>>, chunkSize: nat)
    requires Reflects(t, mailbox, m) && w.phase.Ready? && w.phase.pass == ReadRow(w.phase.pass, w.mirror)
    requires w.mirror == ResetIfRenumbered(m, w.phase.pass.start.uidValidity) && w.phase.pass.start == s
    requires w.phase.pass.reported == if reportsModSeq then s.modSeq else 0
    requires w.phase.pass.condStore == (preferCondStore && w.phase.pass.reported > 0)
    requires HasSaved(t', mailbox, w.phase.pass)
    requires var wanted := ToAsk(s, w.mirror.flags.Keys, w.phase.pass.condStore);
             && CutInto(chunks, wanted, chunkSize) && DisjointAndFull(chunks, |chunks| - 1, chunkSize)
             && HighestSeen(t'.mailboxes[mailbox].watermark, w.mirror.watermark, wanted)
    ensures Refreshed(t, t', mailbox, s, preferCondStore, reportsModSeq, chunks, chunkSize)
  {
    CountIsReflected(t, mailbox, m);
    hide Reflects, CutInto, DisjointAndFull, HighestSeen, Tables.UidsOf;
    ColumnsAreShown(t, mailbox, m);
    KnownAfterReset(m, s.uidValidity);
  }

  lemma ColumnsAreShown(t: Tables, mailbox: Id, m: Mirror)
    requires Reflects(t, mailbox, m)
    ensures mailbox in t.mailboxes && t.mailboxes[mailbox].uidValidity == m.uidValidity
    ensures t.mailboxes[mailbox].highestModSeq == m.highestModSeq && t.mailboxes[mailbox].watermark == m.watermark
  {
    hide Tables.Constraints, ShowsFlags, OrphansOf;
  }

  lemma KnownAfterReset(m: Mirror, v: nat)
    ensures var m', anew := ResetIfRenumbered(m, v), m.uidValidity.Some? && m.uidValidity.value != v;
            && m'.flags.Keys == (if anew then {} else m.flags.Keys)
            && m'.ModSeq() == (if anew then 0 else m.ModSeq()) && m'.watermark == if anew then 0 else m.watermark
  {
  }

  /** After that an unchanged mailbox costs one SELECT, exactly once a UID has been seen. */
  lemma NextRunIsCheap(t: Tables, t': Tables, mailbox: Id, s: Server, chunks: seq<set<Uid>>, chunkSize: nat)
    requires Refreshed(t, t', mailbox, s, true, true, chunks, chunkSize) && s.modSeq > 0
    requires t'.Constraints() && t'.UidsOf(mailbox) == s.messages.Keys
    requires Renumbered(t, mailbox, s.uidValidity) || GetOr(t.mailboxes[mailbox].highestModSeq, 0) <= s.modSeq
    ensures UpToDate(t', mailbox, s, true) <==> t'.mailboxes[mailbox].watermark > 0
    ensures (exists u :: u in s.messages && u > 0 && u !in t.UidsOf(mailbox)) ==> UpToDate(t', mailbox, s, true)
  {
    CountRows(t', mailbox);
    assert s.messages.Keys == t'.UidsOf(mailbox) && |s.messages.Keys| == |s.messages|;
    hide Tables.Constraints, CutInto, DisjointAndFull, Tables.UidsOf;
  }

  lemma QuietFinish(w: World)
    requires Inv(w) && w.phase.Finishing?
    ensures w.phase.reconciled && w.server == w.phase.pass.start ==> w.mirror.flags.Keys == w.server.messages.Keys
  {
  }

  lemma ShortcutIsComplete(w: World)
    requires Inv(w) && w.phase.Ready? && LooksUnchanged(w.phase.pass, w.mirror)
    ensures w.server == w.phase.pass.start ==> w.server.messages.Keys <= w.mirror.flags.Keys
  {
  }

  /** The pass that begins here refreshes flags, or has none to refresh. */
  predicate Safe(w: World) {
    w.phase.Ready? && w.phase.pass.condStore && w.phase.pass.stored == 0 ==> w.mirror.flags == map[]
  }

  /** So will the next pass: it does without CONDSTORE, or has a mod-sequence stored, or no rows. */
  predicate SafeBegin(w: World, condStore: bool) {
    condStore ==> w.mirror.ModSeq() > 0 || w.mirror.flags == map[]
  }

  lemma BeginsSafely(before: World, w: World, condStore: bool)
    requires w.phase.Ready? && w.phase.pass == ReadRow(w.phase.pass, w.mirror)
    requires w.mirror == ResetIfRenumbered(before.mirror, w.phase.pass.start.uidValidity)
    requires w.phase.pass.condStore ==> condStore
    ensures SafeBegin(before, condStore) ==> Safe(w)
  {
  }

  /** Every mirrored message shows the server's flags. */
  ghost predicate FlagsAgree(t: Tables, mailbox: Id, s: Server) {
    forall r | r in t.rows && t.rows[r].mailbox == mailbox && t.rows[r].uid.Some?
               && t.rows[r].uid.value in s.messages ::
      t.rows[r].flags == s.messages[t.rows[r].uid.value].flags
  }

  ghost predicate NoneStale(m: Mirror, s: Server) {
    forall u | u in m.flags && u in s.messages :: m.flags[u] == s.messages[u].flags
  }

  lemma FlagsAreShown(t: Tables, mailbox: Id, m: Mirror, s: Server)
    requires Reflects(t, mailbox, m) && NoneStale(m, s)
    ensures FlagsAgree(t, mailbox, s)
  {
    hide Tables.Constraints, ShowsColumns, OrphansOf;
    forall r | r in t.rows && t.rows[r].mailbox == mailbox && t.rows[r].uid.Some? && t.rows[r].uid.value in s.messages
      ensures t.rows[r].flags == s.messages[t.rows[r].uid.value].flags
    {
      assert LiveAt(t, r, mailbox, t.rows[r].uid.value);
    }
  }

  lemma ShortcutHasFlags(w: World)
    requires Inv(w) && FlagInv(w) && w.phase.Ready? && LooksUnchanged(w.phase.pass, w.mirror)
    requires w.server == w.phase.pass.start
    ensures NoneStale(w.mirror, w.server)
  {
    assert forall u | u in w.mirror.flags && u in w.server.messages
                      && w.mirror.flags[u] != w.server.messages[u].flags ::
        Stale(w.mirror, w.server, u);
  }

  lemma QuietFlags(w: World)
    requires Inv(w) && FlagInv(w) && w.phase.Finishing? && w.server == w.phase.pass.start
    ensures NoneStale(w.mirror, w.server)
  {
    assert forall u | u in w.mirror.flags && u in w.server.messages
                      && w.mirror.flags[u] != w.server.messages[u].flags ::
        Stale(w.mirror, w.server, u);
  }

  /** The flags of the answered messages among some UIDs. */
  ghost function FlagsIn(answers: map<Uid, ServerMessage>, uids: set<Uid>): map<Uid, Flags> {
    map u | u in answers && u in uids :: answers[u].flags
  }

  function Answers(s: Server, chunk: set<Uid>): map<Uid, ServerMessage> {
    map u | u in chunk && u in s.messages :: s.messages[u]
  }

  lemma FetchShows(s: Server, chunk: set<Uid>, known: set<Uid>)
    ensures var answers := Answers(s, chunk);
            && s.FlagsFor(chunk * known) == FlagsIn(answers, known)
            && s.FlagsFor(chunk - known) == FlagsIn(answers, answers.Keys - known)
  {
  }

  /** Part way through a FETCH response: rest is still unread. */
  ghost predicate HasRead(mailbox: Id, known: set<Uid>, answers: map<Uid, ServerMessage>, rest: map<Uid, ServerMessage>,
                          before: nat, seen: nat, batch: seq<Meta>) {
    && rest.Keys <= answers.Keys && (forall u | u in rest :: rest[u] == answers[u])
    && HighestSeen(seen, before, answers.Keys - rest.Keys)
    && MetaFlags(batch) == FlagsIn(answers, answers.Keys - rest.Keys - known)
    && AnswersIn(mailbox, answers, batch)
  }

  /** A FETCH without CHANGEDSINCE does not ask for mod-sequences; none is recorded. */
  const UNASKED: nat := 0

  function MetaOf(mailbox: Id, u: Uid, answer: ServerMessage): Meta {
    Meta(mailbox, u, UNASKED, answer.flags, answer.size)
  }

  /** Each recorded row is one answer, with its flags and size. */
  ghost predicate AnswersIn(mailbox: Id, answers: map<Uid, ServerMessage>, batch: seq<Meta>) {
    forall m | m in batch ::
      && m.uid in answers && m.mailbox == mailbox && m.modSeq == 0
      && m.flags == answers[m.uid].flags && m.size == answers[m.uid].size
  }

  lemma AnswersAreMine(mailbox: Id, answers: map<Uid, ServerMessage>, batch: seq<Meta>)
    requires AnswersIn(mailbox, answers, batch)
    ensures forall m | m in batch :: m.mailbox == mailbox
  {
  }

  lemma ReadOne(mailbox: Id, known: set<Uid>, answers: map<Uid, ServerMessage>, rest: map<Uid, ServerMessage>,
                before: nat, seen: nat, batch: seq<Meta>, u: Uid)
    requires HasRead(mailbox, known, answers, rest, before, seen, batch) && u in rest
    ensures HasRead(mailbox, known, answers, rest - {u}, before, if u > seen then u else seen,
                    if u in known then batch else batch + [MetaOf(mailbox, u, rest[u])])
    ensures FlagsIn(rest - {u}, known) == FlagsIn(rest, known) - {u}
    ensures u in known ==> u in FlagsIn(rest, known) && FlagsIn(rest, known)[u] == rest[u].flags
    ensures u !in known ==> FlagsIn(rest, known) - {u} == FlagsIn(rest, known)
  {
    AppendMeta(batch, MetaOf(mailbox, u, rest[u]));
    FlagsWithout(rest, known, u);
    FlagsOfRead(answers, rest, known, u);
    hide FlagsIn, MetaFlags;
    assert answers.Keys - (rest - {u}).Keys == answers.Keys - rest.Keys + {u};
  }

  lemma FlagsWithout(rest: map<Uid, ServerMessage>, known: set<Uid>, u: Uid)
    requires u in rest
    ensures FlagsIn(rest - {u}, known) == FlagsIn(rest, known) - {u}
    ensures u in known ==> u in FlagsIn(rest, known) && FlagsIn(rest, known)[u] == rest[u].flags
    ensures u !in known ==> FlagsIn(rest, known) - {u} == FlagsIn(rest, known)
  {
  }

  lemma FlagsOfRead(answers: map<Uid, ServerMessage>, rest: map<Uid, ServerMessage>, known: set<Uid>, u: Uid)
    requires u in rest && u in answers && rest[u] == answers[u]
    ensures var before, after := answers.Keys - rest.Keys - known, answers.Keys - (rest - {u}).Keys - known;
            FlagsIn(answers, after)
            == if u in known then FlagsIn(answers, before) else FlagsIn(answers, before)[u := rest[u].flags]
  {
  }

  lemma ReadAll(mailbox: Id, known: set<Uid>, answers: map<Uid, ServerMessage>, rest: map<Uid, ServerMessage>,
                before: nat, seen: nat, batch: seq<Meta>)
    requires HasRead(mailbox, known, answers, rest, before, seen, batch) && rest.Keys == {}
    ensures HighestSeen(seen, before, answers.Keys) && FlagsIn(rest, known) == map[]
    ensures MetaFlags(batch) == FlagsIn(answers, answers.Keys - known) && AnswersIn(mailbox, answers, batch)
  {
    assert answers.Keys - rest.Keys == answers.Keys;
  }

  lemma AppendMeta(batch: seq<Meta>, m: Meta)
    ensures MetaFlags(batch + [m]) == MetaFlags(batch)[m.uid := m.flags]
  {
    assert (batch + [m])[..|batch|] == batch;
  }

  lemma {:induction false} HighestExists(before: nat, answered: set<Uid>) returns (seen: nat)
    ensures HighestSeen(seen, before, answered)
    decreases |answered|
  {
    seen := before;
    if answered != {} {
      var u :| u in answered;
      var lower := HighestExists(before, answered - {u});
      seen := if u > lower then u else lower;
      assert answered == answered - {u} + {u};
    }
  }

  lemma HighestUnique(before: nat, answered: set<Uid>, a: nat, b: nat)
    requires HighestSeen(a, before, answered) && HighestSeen(b, before, answered)
    ensures a == b
  {
  }

  lemma NothingLeft(chunks: seq<set<Uid>>, uids: set<Uid>, size: nat)
    requires CutInto(chunks, uids, size)
    ensures uids - Union(chunks) == {} && Union(chunks) == uids
  {
  }

  lemma PrefixAsked(before: seq<set<Uid>>, chunks: seq<set<Uid>>, i: nat)
    requires i < |chunks|
    ensures before + chunks[..i] + [chunks[i]] == before + chunks[..i + 1]
    ensures before <= before + chunks[..i] <= before + chunks && before + chunks[..i + 1] <= before + chunks
  {
    assert chunks == chunks[..i] + chunks[i..] && chunks == chunks[..i + 1] + chunks[i + 1..];
  }

  lemma NextChunk(chunks: seq<set<Uid>>, uids: set<Uid>, size: nat, i: nat)
    requires CutInto(chunks, uids, size) && DisjointAndFull(chunks, |chunks| - 1, size) && i < |chunks|
    ensures chunks[i] <= uids - Union(chunks[..i]) && 0 < |chunks[i]| <= size
    ensures uids - Union(chunks[..i + 1]) == uids - Union(chunks[..i]) - chunks[i]
  {
    MemberOfUnion(chunks, i);
    DisjointFromEarlier(chunks, i, i);
    assert chunks[..i + 1][..i] == chunks[..i];
  }

  lemma {:induction false} DisjointFromEarlier(chunks: seq<set<Uid>>, i: nat, n: nat)
    requires n <= i < |chunks| && forall k, l | 0 <= k < l < |chunks| :: chunks[k] !! chunks[l]
    ensures chunks[i] !! Union(chunks[..n])
  {
    if n > 0 {
      DisjointFromEarlier(chunks, i, n - 1);
      assert chunks[..n][..n - 1] == chunks[..n - 1];
    }
  }

  /** Part way through the listed UIDs: rest is still to be looked at. */
  ghost predicate Listed(wanted: set<Uid>, rest: set<Uid>, pending: seq<Uid>) {
    Elements(pending) == wanted - rest && Distinct(pending)
  }

  lemma ListOne(wanted: set<Uid>, rest: set<Uid>, pending: seq<Uid>, u: Uid)
    requires Listed(wanted, rest, pending) && u in rest
    ensures Listed(wanted, rest - {u}, if u in wanted then pending + [u] else pending)
  {
    assert forall i | 0 <= i < |pending| :: pending[i] in Elements(pending);
    assert u !in wanted ==> wanted - (rest - {u}) == wanted - rest;
    if u in wanted {
      var more := pending + [u];
      assert u in more && forall v | v in pending :: v in more;
      assert Elements(more) == Elements(pending) + {u};
      assert wanted - (rest - {u}) == wanted - rest + {u};
    }
  }

  /** The UIDs to ask about, in some order. */
  method Missing(allUids: set<Uid>, known: set<Uid>, condStore: bool) returns (pending: seq<Uid>)
    ensures Elements(pending) == if condStore then allUids - known else allUids
    ensures Distinct(pending)
  {
    ghost var wanted := if condStore then allUids - known else allUids;
    pending := [];
    var rest := allUids;
    assert Listed(wanted, rest, pending) by {
      assert wanted - rest == {};
    }
    while rest != {}
      invariant rest <= allUids && Listed(wanted, rest, pending)
      decreases |rest|
    {
      var u :| u in rest;
      ListOne(wanted, rest, pending, u);
      rest := rest - {u};
      if u in known && condStore {
        continue;
      }
      pending := pending + [u];
    }
    assert wanted - rest == wanted;
  }

  /** The UIDs a pass asks about: what the server has, less what is known if CONDSTORE covers it. */
  function ToAsk(s: Server, known: set<Uid>, condStore: bool): set<Uid> {
    if condStore then s.messages.Keys - known else s.messages.Keys
  }

  lemma NoneSeen(chunks: seq<set<Uid>>, present: set<Uid>, before: nat)
    ensures chunks[..0] == [] && Union([]) == {} && HighestSeen(before, before, Union(chunks[..0]) * present)
  {
  }

  lemma SeenMore(chunks: seq<set<Uid>>, i: nat, present: set<Uid>, before: nat, seen: nat, seen': nat)
    requires i < |chunks|
    ensures HighestSeen(seen, before, Union(chunks[..i]) * present) && HighestSeen(seen', seen, chunks[i] * present) ==>
              HighestSeen(seen', before, Union(chunks[..i + 1]) * present)
  {
    assert chunks[..i + 1][..i] == chunks[..i];
    assert Union(chunks[..i + 1]) * present == Union(chunks[..i]) * present + chunks[i] * present;
  }

  /** What the engine knows of SELECT is what the protocol's pass records of it. */
  predicate Describes(p: Pass, selected: SelectedMailbox) {
    && p.start.uidValidity == selected.uidValidity && p.start.uidNext == selected.uidNext
    && p.reported == selected.modSeq && |p.start.messages| == selected.numMessages
  }
}
