# The mirror of imapped, verified

imapped mirrors upstream IMAP mailboxes into Postgres. Either side can fail between any two
commands, so its correctness rests on protocols: what is committed when, who owns a row, what a
stored checkpoint promises. This project models those protocols in Dafny, together with the
sequential kernels they rest on, and proves what they are for.

`dafny verify dfyconfig.toml` checks everything.

## How it is built

| file | what it holds |
|---|---|
| `Tables.dfy` | the three Postgres tables as values; every SQL statement or transaction of the store as one function on them; runs of statements |
| `Store.dfy` | the store as a class over mutable tables, each method proved equal to its statement |
| `BodyStates.dfy`, `Dedup.dfy`, `Snapshot.dfy` | what every run of statements keeps: download states, content deduplication, local UIDs and the client snapshot |
| `Placeholders.dfy` | the stand-in digest of a message not yet downloaded, byte by byte |
| `Mirror.dfy` | one mailbox's rows and checkpoint columns as seen by a metadata pass, and how each statement moves them |
| `MetadataProtocol.dfy`, `MetadataCosts.dfy` | metadata passes as a state machine against a server that changes between any two commands and an engine that stops after any commit |
| `MetadataPass.dfy` | the pass itself, with its loops; every step is logged as an action of that machine |
| `BodyQueue.dfy` | the download queue as a state machine over all interleavings of producer, workers, reaper, metadata pass and other mailboxes |
| `ReapHazard.dfy`, `Recovery.dfy` | what a reaper tick inside a download can do, and how the reaper and the next pass pick up what a pass has left |
| `Delivery.dfy` | for which message a row is claimed, what a claim records of it, and what is attached to it |
| `Claims.dfy`, `BodyPass.dfy` | the claim table and the body pass with its loops; every step is logged as a step of that machine |
| `Downloads.dfy` | the queue and the statements together: a pass is an orderly run of the store, and what it delivers end to end |
| `Planner.dfy`, `Oversize.dfy`, `OversizeHazard.dfy` | the batch and chunk planners, when a plan keeps oversized messages apart, and what happens when it does not |
| `FetchBody.dfy` | reading a FETCH response without leaving octets behind |
| `SessionRuns.dfy`, `Session.dfy` | the self-healing connection: calls as functions of what the outside does, with what holds of all of them, and the session that computes them |
| `Backoff.dfy`, `Lease.dfy` | retry arithmetic in 64 bits, the advisory lock and its heartbeat in time |
| `ByteSize.dfy`, `HeaderFields.dfy`, `MimeParts.dfy`, `Text.dfy` | the size printer and parser, header-field selection, MIME part numbering, the text functions they share |

Conventions. A SQL statement or transaction is atomic. SHA-256 is injective and never equals a
placeholder digest. The content behind a row is a function of the row (of mailbox and UID within
one UIDVALIDITY). FETCH answers once per UID still present. UIDs ascend and are not reused within
one UIDVALIDITY, a message keeps its size (section 2.3.1.1 of RFC 3501), and whatever changes
carries a later mod-sequence (section 3.1 of RFC 7162). `expunged_at` is never written by the program, so it is not a column
here. Server answers, faults, random numbers and time are parameters or scripts over which every
theorem quantifies.

Some promises hold only under a condition. Each is proved under it, and shown to fail without it:

- A completed pass leaves no flag difference unreported, exactly unless it uses CONDSTORE with no
  stored mod-sequence while rows are already known (`MetadataCosts.FlagsRestoredIff`);
  `MetadataCosts.LosingPass` is a run from a new mailbox, with one interruption and one flag change,
  that loses one.
- No row has two owners, and a stored row stays stored, as long as the reaper takes back nothing
  that is in someone's hands; one reaper tick keeps the ownership invariant exactly then
  (`BodyQueue.ReapKeepsInvIff`). The reaper is a five-minute ticker beside the syncs
  (internal/cli/run.go:276-287) that takes claims more than 15 minutes old by default, while a run
  may last two hours (internal/config/config.go:241-242). A pass that ends within that age is safe
  (`BodyQueue.TimelyPassIsSpared`); `ReapHazard.ReapedInFlightIsDownloadedTwice` is one that is not.
- Marking a batch too large hits only messages above the limit if one of three settings keeps them
  apart (`BodyPass.BodyWorker.Run`, `Downloads.DownloadMailbox`). For every other setting a mailbox
  of two messages, downloaded from an honest server with no fault and nothing intruding, ends with
  the empty one marked too large (`OversizeHazard.AcceptableIsMarked`). The shipped validation
  allows settings for which none of the three holds (internal/config/validate.go:189-193).
- Attaching a body keeps all content right if it happens under a claim that no renumbering of the
  mailbox has overtaken (`Dedup.IntegrityHolds`); with a renumbering in between it can be unsafe
  (`Dedup.RenumberingMakesInFlightAttachUnsafe`), in the exact sense of
  `Dedup.AttachKeepsIntegrityIffSafe`. Every pass of the queue without such a renumbering attaches
  in that way (`Downloads.PassIsOrderly`).
- Every command that reaches the server finds the remembered mailbox open, unless a SELECT was
  refused on a connection that lived on. But a command may start on a closed connection: exactly
  when the event before it closed it with no error or with one outside the recoverable list, or the
  peer hung up (`SessionRuns.CommandsStartClosedIff`). A response that cannot be parsed does that
  (third_party/go-imap/imapclient/client.go:580-621), and the next command then fails without
  reaching the server (`SessionRuns.ClosedConnectionIsHandedOut`).
- A count with a unit suffix is read exactly, if and only if the size it names has at most 53
  significant bits (`ByteSize.CountIsExactIff`).
- The backoff envelope is `min(max, base * 2^(n-1))` for all n, exactly if no doubling of base lies
  between 2^62 and max (`Backoff.ExactIff`).

## Model

| member | source | states |
|---|---|---|
| `MetadataProtocol.ActionKeepsInv` | internal/syncer/mailbox.go:161-343 | whatever the server does and after whichever commit the engine stops, the checkpoint stays sound and enumeration loses no UID |
| `MetadataProtocol.NoMessageIsSkipped` | internal/syncer/mailbox.go:265-343 | in every run from a new mailbox, once a mod-sequence is stored every upstream message below the stored UIDNEXT has a row, as long as UIDVALIDITY is the server's |
| `MetadataProtocol.ShortcutHidesNoMessage` | internal/syncer/mailbox.go:192-208 | the unchanged shortcut is taken only when every message present at SELECT and still there is mirrored |
| `MetadataProtocol.NoShortcutAfterReset` | internal/store/mailboxes.go:186-203 | after a UIDVALIDITY reset the stale uidnext cannot trigger the shortcut before a pass completes |
| `MetadataProtocol.QuietPassConverges` | internal/syncer/mailbox.go:351-388 | a completed and reconciled pass over a quiet server leaves exactly the server's UIDs, by counting when counts agree and by deletion otherwise, NULL-UID leftovers included |
| `MetadataProtocol.NoFlagChangeIsLost` | internal/syncer/mailbox.go:212-229 | in every safely started run, a mirrored message whose flags differ from the server's is one the next CHANGEDSINCE will report |
| `MetadataProtocol.ShortcutHidesNoFlagChange` | internal/syncer/mailbox.go:192-208 | under the shortcut, a message unchanged since SELECT is shown with the server's flags |
| `MetadataCosts.FlagsRestoredIff` | internal/syncer/mailbox.go:212-250 | over all runs from a new mailbox, a completed pass restores flags for certain if and only if it is not a CONDSTORE pass with stored mod-sequence 0 and known rows |
| `MetadataCosts.LosingPass` | internal/syncer/mailbox.go:214-250 | for any known rows, a whole run from a new mailbox that ends with such a pass: first pass interrupted before it completes, one flag set, second pass completed, and the flag is covered by the stored mod-sequence without having been fetched |
| `MetadataCosts.InterruptionCostsOneChunk` | internal/syncer/mailbox.go:247-323 | on a quiet CONDSTORE server of n messages, k interruptions cost at most n + k * chunk full records in all |
| `MetadataPass.MetadataSync.SyncMailbox` | internal/syncer/mailbox.go:161-343 | the pass as it runs is a protocol history whatever fails, and keeps the enumeration invariant and, begun safely, the flag invariant. With no fault it ends unchanged or completed with deletions reconciled. On a quiet server it ends unchanged if and only if the stored row is up to date (CONDSTORE wanted and reported, mod-sequence, UIDNEXT and UIDVALIDITY as stored, watermark set, rows enough), having written and fetched nothing; otherwise a completed pass has asked in disjoint chunks for exactly the UIDs that are missing (all of them without CONDSTORE) and stored UIDVALIDITY, UIDNEXT, the higher mod-sequence and the highest UID seen. Then UID sets are equal after a reconciled completion, nothing is missing after an unchanged verdict, and either means every mirrored flag is the server's |
| `MetadataPass.NextRunIsCheap` | internal/syncer/mailbox.go:192-208 | after such a completed pass with CONDSTORE the next run on the unchanged mailbox settles for one SELECT, if and only if a UID above 0 has been seen |
| `MetadataPass.MetadataSync.NothingChanged` | internal/syncer/mailbox.go:192-208 | the early return is taken exactly when SELECT, the stored columns and the row count say so |
| `MetadataPass.MetadataSync.ReadAnswers` | internal/syncer/mailbox.go:265-313 | one FETCH response becomes exactly the flag updates of known rows and the batch of new ones, each with the answer's flags and size, and the highest UID seen; mod-sequences are not asked for here and none is recorded |
| `MetadataPass.MetadataSync.Enumerate` | internal/syncer/mailbox.go:253-330 | the server is asked for the chunks in turn, on success for all of them; together they are the pending UIDs, no two share one, and all but the last are full; however it ends, no chunk is asked for twice |
| `MetadataPass.MetadataSync.ReconcileDeletions` | internal/syncer/mailbox.go:351-388 | the pass goes on whether or not deletions could be reconciled, and knows which |
| `Mirror.CountIsReflected` | internal/store/messages.go:394-400 | the SQL count equals live UIDs plus leftovers without a UID |
| `Mirror.UpsertAllReflects` | internal/store/messages.go:98-154 | a batch of upserts shows as the batch's flags laid over the mirrored ones |
| `Mirror.CheckpointReflects` | internal/store/mailboxes.go:139-177 | a progress checkpoint moves only the watermark, a completing one also uidnext and the mod-sequence, which never falls |
| `Mirror.ResetReflects` | internal/store/mailboxes.go:186-203 | a reset forgets every UID, mod-sequence and watermark, keeps the rows and keeps uidnext |
| `Tables.ConstraintsHold` | internal/db/migrations/00001_initial.sql:155-167 | no statement can store one digest twice for an account, nor leave a row without its mailbox or message; nor can two rows of a mailbox get the same upstream UID (the index at lines 197-199) |
| `Snapshot.HistoryUidsOk` | internal/db/migrations/00001_initial.sql:195-196 | over every run of statements no two rows of a mailbox have the same local UID, and the mailbox's counter is above them all |
| `Tables.UpsertEffect` | internal/store/messages.go:98-154 | an upsert rewrites flags of the one row with this UID or adds one pending row, and spends a local UID either way |
| `Store.Store.UpsertMetadata` | internal/store/messages.go:98-154 | the two statements in sequence equal the atomic upsert |
| `Store.Store.UpsertMetadataBatch` | internal/store/messages.go:98-154 | the batch equals the upserts in order, and reports how many rows are new |
| `Store.Store.ClaimPendingBodies` | internal/store/messages.go:186-220 | claims by the rule of `Tables.ChoiceIs`, stamps by that of `Tables.ClaimIs`, and describes what it claimed |
| `Tables.ChoiceIs` | internal/store/messages.go:186-202 | only unlocked pending rows of the mailbox with a UID and attempts left are claimed, at most as many as the limit, and one is passed over only for newer ones up to the limit |
| `Tables.ClaimIs` | internal/store/messages.go:202-206 | exactly the claimed rows become fetching, stamped with the time |
| `Store.Store.AttachBody` | internal/store/messages.go:228-278 | repoints to an existing message with this content and deletes the orphan, or rewrites the row's own message; a missing row is an error without effect |
| `Tables.AttachDropsOrphan` | internal/store/messages.go:241-262 | after a repointing the old message is there if and only if another row still refers to it, and every message left is as it was |
| `BodyStates.GivenUpAfterMaxFailures` | internal/store/messages.go:284-295 | over every run, a row's attempts are the failures recorded for it, it is failed only after its share of them, and unfinished only before |
| `Tables.DeletionKeepsPresent` | internal/store/messages.go:354-363 | deletion leaves exactly the mirrored UIDs that are present, every row without a UID and every other mailbox; two deletions in turn are one for what both answers have in common |
| `Store.Store.SaveCheckpoint` | internal/store/mailboxes.go:139-177 | writes exactly the checkpoint columns the statement names |
| `Tables.CheckpointEffect` | internal/store/mailboxes.go:139-177 | column by column: a checkpoint never lowers the watermark or the mod-sequence, a mid-pass one leaves uidnext and the mod-sequence alone, both clear the resync flag, nothing else moves |
| `Tables.ResetEffect` | internal/store/mailboxes.go:186-203 | column by column: a reset clears the UIDs and mod-sequences of the mailbox's rows and its checkpoint, and starts a new generation |
| `Tables.FlagsEffect` | internal/store/messages.go:157-167 | a flag update writes exactly the rows of the UID, and a mod-sequence only if it is not zero |
| `BodyStates.RowsStaySound` | internal/store/messages.go:186-320 | in every run: fetching iff claimed_at set, pending or fetching means attempts are left, failed means none are |
| `BodyStates.StrandedOnlyByRenumbering` | internal/store/messages.go:310-320 | an unfinished row is claimable now or after the reaper, exactly unless a renumbering cleared its UID |
| `Placeholders.PlaceholderDigest` | internal/store/messages.go:369-377 | the 32 bytes are the name, both numbers from the lowest byte on, and zeros |
| `Placeholders.PlaceholdersAreUnique` | internal/store/messages.go:369-377 | no two (mailbox, UID) pairs have the same placeholder digest |
| `Dedup.IntegrityHolds` | internal/store/messages.go:228-278 | in every run whose attaches happen under a claim with no reset of the mailbox in between: digests unique, stored rows show their own content with its blob, placeholders belong to their own mailbox and UID |
| `Dedup.ClaimedStaysNamed` | internal/store/mailboxes.go:186-203 | a claimed row keeps its UID, or is gone for good, through everything but a reset of its own mailbox |
| `Dedup.AttachKeepsIntegrityIffSafe` | internal/store/messages.go:228-278 | one attach keeps that invariant if and only if nobody else depends on the message row it may rewrite |
| `Dedup.RenumberingMakesInFlightAttachUnsafe` | internal/store/messages.go:98-154 | a renumbering between claim and attach, followed by re-enumeration of the same UID, makes an attach unsafe |
| `Dedup.AttachRows` | internal/store/messages.go:228-278 | attaching never removes a mailbox row and changes no other one |
| `Dedup.SharedIffEqual` | internal/store/messages.go:228-278 | after every such run two stored rows of an account share a message exactly when their contents are equal |
| `Dedup.AttachOrderIsIrrelevant` | internal/store/messages.go:228-278 | any two orders of attaching the same bodies give the same digests and the same sharing |
| `BodyQueue.OwnershipIsLinear` | internal/syncer/mailbox.go:458-684 | from any start, whatever earlier passes left in the claim table, at every moment of every interleaving in which the reaper takes nothing out of anyone's hands: no row has two owners, owned rows are fetching, each claim is settled once, lost once or still owned, and what counts as fetched is stored and counted once |
| `BodyQueue.StepKeepsInv` | internal/syncer/claims.go:30-48 | each step keeps that invariant: claim, remember, take, attach, fail, skip, a failed database call, a reaper tick that spares what is owned, and anything the metadata pass or other mailboxes write |
| `BodyQueue.ReapKeepsInvIff` | internal/store/messages.go:306-320 | a reaper tick keeps the invariant if and only if no owned row was claimed before its cutoff |
| `BodyQueue.TimelyPassIsSpared` | internal/cli/run.go:276-287 | a pass during which the reaper's cutoff has not passed the moment the pass began loses nothing to it |
| `ReapHazard.ReapedInFlightIsDownloadedTwice` | internal/store/messages.go:310-320 | a run from an ordinary start in which a row is reaped in flight, gets two owners, and goes from stored back to pending |
| `BodyQueue.StoredStaysStored` | internal/store/messages.go:228-320 | in every such run a stored row never leaves stored, whatever the pass and its retries do |
| `BodyQueue.TooLargeIffMarked` | internal/store/messages.go:298-304 | in every such run a row is too large exactly if it was before or this pass has marked it |
| `Delivery.ClaimsAreFiled` | internal/syncer/claims.go:30-48 | at every moment of every pass: what is held, remembered, taken or attached under a UID is a row that has that UID, has lost it, or is gone; without a renumbering of the mailbox no row has lost it |
| `Delivery.RecordsAreClaims` | internal/store/messages.go:186-220 | the records of a pass are exactly what its claims reported: row, UID and size as the tables had them at the claim |
| `Delivery.ClaimedIsRecorded` | internal/store/messages.go:186-220 | every row a pass has claimed has such a record, and no other row has |
| `Downloads.PassIsOrderly` | internal/syncer/mailbox.go:458-684 | every pass without a renumbering of its mailbox, whose bodies are what the server has for their rows, is a run of statements in which each attach happens under a claim that none has overtaken; so content stays right (`Dedup.IntegrityHolds`) |
| `Downloads.RecordsAreTrue` | internal/syncer/mailbox.go:489-494 | if stand-ins carry true sizes and the metadata pass reports true ones, so does every claim, whatever rows share a message by then |
| `Downloads.PassDelivers` | internal/syncer/mailbox.go:458-684 | what is right before a pass is right after it: content of every row, the message each row stands for, sizes of stand-ins; and every size its claims report is true |
| `Downloads.DownloadMailbox` | internal/syncer/mailbox.go:458-684 | one pass as it runs, with an honest server, whatever fails or is written in between short of a renumbering: all content is right, every stored row shows the message of its UID, under settings that keep the sizes apart a row has become too large only for a message above the limit, and all that the next pass asks of the tables holds again. With no failing database call, nothing taking rows away and a server that answers in full, nothing is broken and every row that was claimable and is never locked has its message stored, or is too large, under such settings if and only if its message is above the limit |
| `BodyQueue.ClaimsAreBounded` | internal/syncer/mailbox.go:458-508 | claims never exceed the attempts left at the start plus a full allowance per discovered message and one per reaped row, so downloading ends |
| `Recovery.ReapedIsClaimable` | internal/store/messages.go:310-320 | the reaper makes a row left fetching claimable again if and only if it was claimed before the cutoff and still has its UID |
| `Recovery.LeftFetchingIsClaimedAgain` | internal/syncer/mailbox.go:458-508 | whatever was left fetching is, after a reaper tick and one further pass that ends with nothing to claim, claimed again, gone, without UID, or locked by others |
| `Recovery.NextRunClaimsIt` | internal/syncer/mailbox.go:458-508 | the same of the body pass as it runs |
| `Claims.ClaimTable.Remember` | internal/syncer/claims.go:30-36 | the table becomes the old one overlaid with the new claims of this mailbox |
| `Claims.ClaimTable.Take` | internal/syncer/claims.go:39-48 | returns the claim if there is one and removes exactly it |
| `BodyPass.ReceivedOnce` | third_party/go-imap/imapclient/fetch.go:175-187 | of the answers, each UID that was asked for reaches the command once |
| `BodyPass.BodyWorker.SkipBatch` | internal/syncer/mailbox.go:664-674 | marks too large exactly the rows of the claims the batch still has, and consumes those claims |
| `BodyPass.BodyWorker.FetchBatch` | internal/syncer/mailbox.go:602-684 | without an oversized literal success consumes exactly the delivered claims and marks no row; with one, exactly the rows of the claims not delivered before it are marked too large, and never a row outside the batch; after a failure none of the batch's claims remain; a repeat that finds no claim settles nothing |
| `BodyPass.BodyWorker.FetchBatchSession` | internal/syncer/mailbox.go:588-599 | over all attempts of the session only rows of the batch are marked too large, and with an honest server only if the batch holds a message above the limit. With no failing database call the first attempt not worth repeating decides, or the last; a first attempt that brings every body ends without error, leaves no claim of the batch, and has every row stored or too large, all stored if all messages are within the limit, all too large if none is |
| `BodyPass.BodyWorker.Deliver` | internal/syncer/mailbox.go:617-660 | a usable body with a claim ends attached to the row that was claimed under its UID, and counted; an unusable one failed, an unclaimed one changes nothing |
| `Delivery.ClaimedArePresent` | internal/store/messages.go:228-240 | as long as the metadata pass takes no rows from the mailbox, every row a pass has claimed is still there, so attaching to it finds it |
| `BodyPass.BodyWorker.ClaimWork` | internal/syncer/mailbox.go:458-494 | a round claims a choice of the newest claimable rows, reports of each what the tables say, and files each under its UID |
| `BodyPass.BodyWorker.FetchAll` | internal/syncer/mailbox.go:489-556 | every claim of a round goes into one legal batch, in order, until a batch fails for good; with an honest server, settings that keep sizes apart and true recorded sizes, only claims above the limit are marked |
| `BodyPass.BodyWorker.Run` | internal/syncer/mailbox.go:458-508 | the producer loop terminates; when it ends without error nothing unlocked is left to claim; however it ends, each row still fetching was so before, lost its claim to a failed call or is in the claim table; with an honest server, such settings, and true sizes recorded at the claims (`Delivery.RecordsAreClaims`), every row that became too large was recorded above the limit; with no failing database call it ends without error, and if moreover nothing takes rows away and the server answers in full, whatever was claimed is stored or too large, exactly by its recorded size under those conditions |
| `OversizeHazard.AcceptableIsMarked` | internal/syncer/mailbox.go:664-674 | for all other settings: a run from a mailbox of two pending messages, with true sizes on record, an honest server and nothing failing or intruding, that ends with the empty one there and too large |
| `BodyPass.IndexIsByUid` | internal/syncer/mailbox.go:489-494 | indexing claims by UID loses none, because UIDs of a mailbox are unique |
| `Planner.PlanBatches` | internal/syncer/planner.go:39-86 | an order-preserving partition into legal batches, no batch closed early, and as few batches as any legal partition |
| `Planner.LegalIs` | internal/syncer/planner.go:39-86 | a legal group is one message, or at most the allowed number of messages of at most the allowed bytes with none above the size that goes alone |
| `Planner.GreedyIsOptimal` | internal/syncer/planner.go:39-86 | any legal partition that never closes early is at most as long as any other |
| `Planner.CommandBound` | internal/syncer/planner.go:39-86 | at most n/cap + 2 * bytes/maxBytes + 2 * outsized + 1 commands |
| `Planner.PlanMetadataChunks` | internal/syncer/planner.go:145-166 | non-empty chunks of at most the size covering exactly the UIDs, whatever the list; disjoint, and all but the last full, if no UID repeats |
| `Oversize.PlansUnmixedIff` | internal/syncer/planner.go:60-67 | no plan mixes acceptable with oversized messages if and only if the settings keep them apart |
| `FetchBody.HandleBodyMessage` | internal/upstream/fetchbody.go:84-137 | every octet is consumed whatever the handler does; the handler gets exactly the literals within the limit, in order, each with its UID; success iff none was over the limit and the handler never failed, and otherwise the error is that of the last such literal: too large with its size, or the handler's own |
| `FetchBody.ShownIffWithinLimit` | internal/upstream/fetchbody.go:107-115 | the handler never sees a literal above the limit and is never denied one within it |
| `FetchBody.FetchBodies` | internal/upstream/fetchbody.go:33-75 | no octet of the response is left on the connection, however the command ends; its error is that of the message it stopped at, or the server's if no message failed |
| `SessionRuns.CommandsStartClosedIff` | internal/upstream/session.go:101-146 | over any sequence of calls, a command starts on a closed connection if and only if the event just before it closed that connection with no error or with an error outside the recoverable list, or the peer hung up |
| `SessionRuns.ClosedConnectionIsHandedOut` | internal/upstream/session.go:109-115 | a response that cannot be parsed, then a healthy one: the second command gets the closed connection and its call fails |
| `SessionRuns.ServiceLeads` | internal/upstream/session.go:77-199 | over any sequence of calls every event works on exactly the connection the one before it left |
| `SessionRuns.ServiceFinds` | internal/upstream/session.go:49-199 | over any sequence of calls without a SELECT refused on a connection that lives on, every command that reaches the server finds the mailbox last opened |
| `SessionRuns.CallFinds` | internal/upstream/session.go:77-188 | one call keeps that promise to itself, and for later calls exactly unless such a refusal ends it |
| `SessionRuns.CallEndsWithReason` | internal/upstream/session.go:77-158 | nothing follows a fatal account error or a command's error other than a broken connection, a deadline, a network failure or a poisoned client with severity retryable; and a call gives up before its last attempt only on a fatal severity, a cancellation, an error of none of these kinds, or a caller whose time is up |
| `SessionRuns.CallHeals` | internal/upstream/session.go:77-158 | a call whose first n attempts meet such failures, or fail to dial or reopen without condemning the account, goes on to attempt n + 1 with no connection held; if that one dials, reopens and runs without error the call succeeds with it, and a cancelled caller, a condemned account or any other error ends it there; after as many setbacks as attempts it fails |
| `Session.Session.Do` | internal/upstream/session.go:77-123 | the loop computes the call's function, so all of the above: at most max(1, attempts) runs and dials, and when it goes on and when it stops |
| `Session.Session.EnsureConnected` | internal/upstream/session.go:160-188 | a client or an error, never both; a new client on which commands reach the server has the remembered mailbox open |
| `Session.Session.Select` | internal/upstream/session.go:49-69 | remembers the mailbox exactly on success; afterwards the promise holds iff no remembered mailbox was lost to a refusal |
| `Session.Session.Serve` | internal/upstream/session.go:49-199 | any sequence of calls computes its function, with bounds on runs and dials, the connection's history and the mailbox each command finds |
| `Lease.Locks.TryLockAccount` | internal/store/lock.go:34-54 | succeeds exactly when no other session holds the account |
| `Lease.AccountLock.Release` | internal/store/lock.go:62-77 | unlocks once; a second call cannot free a lock someone else has taken since |
| `Lease.LostBeforeTaken` | internal/store/lock.go:34-77 | between two sessions' acquisitions of one account the first released it or died |
| `Lease.Heartbeat` | internal/syncer/engine.go:132-172 | the run is cancelled when the third failing beat in a row has ended, each begun after the loss or failing on its own, and no earlier beat was such a third; that is within four intervals of the loss for every placement of ticks, beats and loss, and not before it if no beat fails on its own |
| `Lease.BoundIsTight` | internal/syncer/engine.go:132-172 | four intervals are reached |
| `Lease.OverlapIsBounded` | internal/syncer/engine.go:71-172 | two runs of one account overlap by at most four intervals and the time a cancelled run takes to wind down |
| `Backoff.Backoff` | internal/upstream/retry.go:158-173 | the delay lies in 1..envelope, or is 0 when the envelope is, with int64 overflow as it happens |
| `Backoff.ExactIff` | internal/upstream/retry.go:158-173 | the envelope is min(max, base * 2^(n-1)) for all n iff no doubling of base lies in [2^62, max) |
| `Backoff.ExactUpToTwo62` | internal/upstream/retry.go:158-173 | so for every max up to 2^62 ns |
| `Backoff.EnvelopeMonotone` | internal/upstream/retry.go:158-173 | later attempts never have a smaller envelope |
| `Backoff.Retry` | internal/upstream/retry.go:176-207 | at most max(1, attempts) runs, none after success or a fatal failure and no fewer without cause; the sleeps are exactly those after each run that another may follow, and total at most min((k-1) * max, base * (2^(k-1) - 1)) |
| `ByteSize.RoundTrip` | internal/config/types.go:50-96 | every size below 2^63 reads back from its printed form |
| `ByteSize.PrintIs` | internal/config/types.go:50-61 | the printed form is the count of the largest binary unit up to GiB that divides the size |
| `ByteSize.SuffixedCount` | internal/config/types.go:33-86 | a count, blanks and a suffix in any case, blanks around them: KiB to TiB and K to T are powers of 1024, KB to TB powers of 1000, B is one |
| `ByteSize.PlainNumber` | internal/config/types.go:87-96 | a signed number without suffix is itself, refused if negative or beyond int64 |
| `ByteSize.CountParses` | internal/config/types.go:33-96 | for every unit of the ordered table, a count with that suffix is scaled by that unit and no other |
| `ByteSize.CountIsExactIff` | internal/config/types.go:63-86 | a count with a suffix is read as count times unit if and only if that product has at most 53 significant bits |
| `ByteSize.LargeCountIsRounded` | internal/config/types.go:76-86 | above 2^53 a suffixed count is rounded while the plain number is not |
| `ByteSize.Size.UnmarshalText` | internal/config/types.go:63-96 | the loop computes the parse, and a rejected text leaves the value alone |
| `HeaderFields.SelectHeaderFields` | internal/imapsrv/fetch.go:273-309 | the output is exactly the lines whose field was asked for, or with exclude those whose field was not, and a blank line; a field is asked for if the text before its first colon, without surrounding blanks and whatever its case, is one of the names; folded lines go with their field |
| `Text.TrimIs` | internal/imapsrv/fetch.go:296-300 | trimming takes the blanks off both ends and leaves none there; `Text.TrimUnique` says that determines it |
| `Text.LowerIs` | internal/imapsrv/fetch.go:274-300 | two texts are equal lowered if and only if they are equal up to the case of letters |
| `HeaderFields.SelectionsMerge` | internal/imapsrv/fetch.go:273-309 | the lines kept by include and by exclude, merged, are in order exactly the lines that belong to fields |
| `HeaderFields.SelectingTwice` | internal/imapsrv/fetch.go:273-309 | either selection applied twice gives the same bytes as once |
| `HeaderFields.SplitGivesLines` | internal/imapsrv/fetch.go:283-283 | splitting on CRLF and joining restores the text |
| `HeaderFields.SplitOfJoin` | internal/imapsrv/fetch.go:283-283 | joining lines and splitting restores them |
| `MimeParts.Parts` | internal/mailstore/parse.go:122-123 | the recorded parts of a message are its leaves in document order, each under the path that reads as its address, with at most the first 4 MiB of its content |
| `MimeParts.RenderReadsBack` | internal/mailstore/parse.go:148-160 | a path is the numerals of the address with dots between them |
| `MimeParts.Walk` | internal/mailstore/parse.go:140-200 | one entity appends exactly its readable leaves no deeper than the limit, each under its rendered address |
| `MimeParts.RecordedIffAddressed` | internal/mailstore/parse.go:140-200 | a part is recorded under an address iff RFC 3501 addressing leads there to a readable leaf within the depth limit |
| `MimeParts.PartsInOrder` | internal/mailstore/parse.go:140-200 | recorded addresses ascend in document order |
| `MimeParts.PathsAreDistinct` | internal/store/messages.go:459-477 | no two parts of a message have the same path string, so no insert meets a conflict |
| `Snapshot.LocalUidsNeverRebound` | internal/store/messages.go:131-146 | over every history, a new row's local UID exceeds all its mailbox ever held, and one local UID always means one row |
| `Snapshot.ListMessagesByUID` | internal/store/browse.go:224-268 | every row of the mailbox once, by ascending local UID |
| `Snapshot.OldSnapshotIsPrefixIff` | internal/imapsrv/session.go:224-231 | the old snapshot is a prefix of the new one iff none of its messages was deleted |
| `Snapshot.Session.Poll` | internal/imapsrv/session.go:242-260 | reports a changed count; without deletions every known sequence number keeps its message and silence means no news |
| `Snapshot.Session.Select` | internal/imapsrv/session.go:153-201 | a found mailbox becomes current with a fresh view, an unknown one changes nothing |
| `Snapshot.Session.Resolve` | internal/imapsrv/fetch.go:29-48 | the loop picks what the number set refers to, by ascending sequence number |
| `Snapshot.PickedIff` | internal/imapsrv/fetch.go:29-48 | exactly the picked messages, each under its own sequence number |

## Left out

- Sockets, TLS, go-imap parsing, pgx, MIME decoding and blob storage: only their results appear, as inputs.
- Web UI, CLI, configuration loading, full-text search, migrations and metrics: plumbing.
- Local flag edits (internal/store/browse.go:271) and the queue that replays them upstream: "no flag change is lost" is about server changes.
- Creating mailboxes (internal/store/mailboxes.go:68) and deleting them with their rows (internal/store/mailboxes.go:224): runs of statements have neither, and a mailbox is there from the start.
- Message identity when the server renumbers before the first checkpoint is saved: rows commit before uidvalidity is written, and nothing then tells the numberings apart.
- Re-linking after a renumbering: re-enumerated rows start pending beside the old NULL-UID rows.
- Planner.PlanBatches: sizes add up without int64 overflow, because a batch of more than 2^63 bytes cannot be fetched.
- BodyPass.BodyWorker.Run: one worker, and batches are fetched between claims rather than beside them; several workers and every interleaving are in `BodyQueue`. A worker that cannot open the mailbox does not drain the channel, so freedom from deadlock needs one that keeps receiving. The reaper may tick throughout, but takes only what was claimed before the pass began.
- Downloads.DownloadMailbox: promises nothing for a message the server does not answer for; such a row stays fetching until the reaper comes, as in the program.
- BodyPass.BodyWorker.FetchAll: a claim set aside after a failed batch stays in the claim table, as in the program.
- BodyQueue.OwnershipIsLinear: a process crash ends the run; the next pass then starts with an empty claim table, which is one of the starts covered.
- Session.Session.Do: the LOGOUT of a discarded connection and the log lines of a retry have no effect here; a command that fails without a refusal leaves the open mailbox as it was; the peer hangs up between attempts or under a command, not between dialling and the command.
- Lease.Heartbeat: MaxRunDuration and the caller's own cancellation end runs earlier; they are not needed for the bound.
- ByteSize.RoundTrip: float64 is assumed correctly rounded on whole numbers (`ByteSize.Ieee`); numerals other than plain digits, and values at or above 2^63, are whatever the float library makes of them.
- ByteSize.Size.UnmarshalText: upper-casing and trimming are ASCII.
- HeaderFields.SelectHeaderFields: case folding and trimming of names are ASCII.
- MimeParts.Walk: content type, file name and the searchable text collected on the way are not recorded.
- Snapshot.Session.Poll: says nothing about which numbers moved when messages were deleted meanwhile; the program sends no EXPUNGE here.
- Row order of ClaimPendingBodies: UPDATE … RETURNING promises none.
- prioritise, mailbox listing, quoteDisplayName, applyPartial, dedupe, truncate: easy members.
