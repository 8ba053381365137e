# LedgerMind integrations: durable delivery, round capture and source grounding

This project models five connected parts of the LedgerMind integrations and proves what they
promise each other.

- **The durable spool.** Four directories, one map from path to file; every operation taken
  apart into the file primitives put, rename and unlink. `FileSpool.dfy`, `Delivery.dfy` and
  `PendingCapture.dfy` hold the spool and its two workers as classes, each method proved
  against a plan of primitives (`SpoolPlans.dfy`). `Protocol.dfy` is the same system as a state
  machine in which an interruption may fall between any two primitives; `Refinement.dfy`
  connects the two: a worker's whole turn, also one that raises, is a run of the protocol.
  `CaptureSurvival.dfy` says when captures survive a name that is used again, `SpoolLimits.dfy`,
  `Budget.dfy` and `GivingUp.dfy` add the queue limits and the bounds on submissions.
  `QueueFates.dfy` and `WorkerFates.dfy` read the operations off the files: where each file ends
  and what its members say then, without the functions the plans are made of.
- **Start-up migration.** `RecordMigration.dfy` rewrites one record, `SpoolMigration.dfy`
  declares the final spool file by file and shows that no primitive changes it,
  `SpoolMigrator.dfy` holds the loops, and `MigrationFates.dfy` says what is accepted and what
  becomes of each member of a record and each file of the spool.
- **Round capture.** `HermesEvents.dfy`, `HermesSteps.dfy` and `HermesRuntime.dfy` are the hooks
  and the state they change; `RawRounds.dfy`, `RoundRequests.dfy` and `Canonical.dfy` turn
  events into a request and say what the protocol model accepts; `HermesRounds.dfy` and
  `HermesRuns.dfy` connect hook sequences to acceptance. `ContextLists.dfy` has the context ids
  as list objects; `RoundRecords.dfy` and `RoundContents.dfy` say what is written for a round and
  that what was said in it is in its request. `BridgeRounds.dfy`, `LifecycleBridge.dfy`,
  `Compaction.dfy` and `InlineBinary.dfy` do the same for the lifecycle bridge, with its payload
  budget.
- **Round recovery.** `StateDb.dfy` reads a round back from the host's message table,
  `WindowLinking.dfy` says how the width of the window bears on it, `RecoveredContents.dfy` what
  the recovered round says row by row, and `RecoveredRounds.dfy` shows that it makes an
  acceptable request.
- **Source grounding.** `Utf8.dfy`, `Scan.dfy` and `Grounding.dfy`: byte spans over code-point
  text, and the search for condition texts.

Values that come from outside are inputs of the operations: clock readings, fresh ids, replies
of the delivery client, what the spool answers to the adapters, retrieved context. SHA-256,
the RFC 3339 normalisation before it, the printed length of a number, the parsing of a number
from a string and the printing of values other than strings are function parameters. JSON
values are a datatype with a compositional size function, which `JsonText.dfy` proves to be the
length of the text. Where a property does not hold in general, a lemma gives a concrete case
and another the exact condition.

Automatic induction is switched off in every lemma; each inductive proof makes its own calls.

Three places where the code differs from what a reader may expect are modelled as the code has
them. `_check_limits` discounts an existing destination even when it lies in the failed
directory, which is not counted. The occurrence search resumes after each match, so an
overlapping occurrence of a condition text is not seen. The pending file is named by the round
id, and a late hook can open a second round of the same id, so a capture can be replaced.

## Model

| member | source | states |
|---|---|---|
| `Protocol.NoRequestIsLost` | python/src/ledgermind_integrations/runtime/spool.py:166-181 | over every run of enqueue, claim, settle, submit, recover, read, promote and interrupt steps, with an interruption possible between any two file primitives, a name that went into the ready directory and was not acknowledged has a file in ready, inflight or failed that carries a request accepted under it: exactly that request, when the name never carried another |
| `CaptureSurvival.NoCaptureIsLost` | python/src/ledgermind_integrations/runtime/spool.py:161-165 | over every run that enqueues captures under free names only, each capture's file waits in pending or failed with everything that was captured, or its request was enqueued under a name the spool keeps |
| `CaptureSurvival.CaptureSaysAll` | python/src/ledgermind_integrations/runtime/spool.py:161-165 | in such a run whatever was enqueued as a capture is in the end in pending or failed with every member it had but the delivery part, or its request was enqueued |
| `CaptureSurvival.ReenqueueKeepsIff` | python/src/ledgermind_integrations/adapters/hermes/runtime.py:803-818 | at any moment of any run, enqueuing something new under a name keeps every capture of that name, itself included, whatever happens next, exactly when the worker is not handling the name and what stands under it in pending and failed was promoted already |
| `CaptureSurvival.OverwriteLosesIff` | python/src/ledgermind_integrations/runtime/spool.py:161-165 | the enqueue itself loses a capture at once exactly when the pending file it replaces was the only place of that capture |
| `CaptureSurvival.UnusedNameIsFree` | python/src/ledgermind_integrations/runtime/spool.py:161-165 | a name without a file in pending and failed is free in every run, whatever the worker is doing: a caller can look before enqueuing |
| `CaptureSurvival.StepLive` | python/src/ledgermind_integrations/adapters/hermes/hooks.py:197-277 | no step but an enqueue under its name displaces a capture, also when the worker goes on with what it read earlier |
| `Protocol.SubmissionsAreIdentical` | python/src/ledgermind_integrations/runtime/delivery.py:45-59 | in any run, every submission carries a request accepted under its name, and any two submissions of a name carry the same one unless the name was enqueued with different requests |
| `Protocol.SecondRequestReplaces` | python/src/ledgermind_integrations/runtime/spool.py:166-181 | a second request under a name replaces the first in the ready directory, which stays exactly when it is the same request: that names are distinct is needed |
| `Protocol.UnresolvedCaptureStays` | python/src/ledgermind_integrations/adapters/hermes/hooks.py:279-302 | in no run is a capture set aside because its final event is still unresolved: enqueued captures never get a deadline |
| `Protocol.StepsAreAtomic` | python/src/ledgermind_integrations/runtime/spool.py:118-145 | each protocol step changes the disk by at most one put, rename or unlink, so runs visit every state a crash can leave |
| `Protocol.RunsAreSafe` | python/src/ledgermind_integrations/runtime/spool.py:118-327 | the whole invariant holds after every run from the empty spool: every file under a request or capture name is faithful to what was put in under it, whatever the worker read is a capture of that name, and nothing accepted has vanished |
| `Protocol.UnlinkKept` | python/src/ledgermind_integrations/runtime/spool.py:299-304 | dropping one copy of a request loses nothing when another copy is in place or the request was acknowledged; this is what writing the copy before unlinking the source buys |
| `Protocol.ClaimSafe` | python/src/ledgermind_integrations/runtime/spool.py:264-272 | claiming by rename keeps every accepted request in its file |
| `Protocol.SubmitSafe` | python/src/ledgermind_integrations/runtime/delivery.py:45-70 | submitting, whatever the reply, keeps the invariant: only an acknowledged item may be dropped without a copy |
| `Protocol.CaptureTurnSafe` | python/src/ledgermind_integrations/adapters/hermes/hooks.py:197-277 | a pending worker's turn, on what it read before, keeps the invariant in each of its outcomes |
| `Refinement.JobRunsToEnd` | python/src/ledgermind_integrations/runtime/spool.py:299-304 | the protocol's job, advanced to its end, passes through every disk the operation leaves behind and ends idle |
| `Refinement.RecoverIsReclaim` | python/src/ledgermind_integrations/runtime/spool.py:237-262 | reclaiming one inflight file performs the primitives of the recover step's job, or none; which of the two, `QueueFates.ReclaimTurn` says |
| `Refinement.EnqueuesAreSteps` | python/src/ledgermind_integrations/runtime/spool.py:161-181 | putting in a request or a capture, when nothing refuses the write, is the protocol's step |
| `Refinement.SettleIsSettle` | python/src/ledgermind_integrations/runtime/spool.py:264-294 | after the rename an operation quarantines, puts back or stamps exactly as the settle step does, and hands out the stamped file; when a limit is exceeded it performs nothing |
| `Refinement.SubmitIsProcess` | python/src/ledgermind_integrations/runtime/delivery.py:45-70 | processing one item submits the same request and performs the same primitives as the submit step, none when a limit is exceeded |
| `Refinement.BadCountInterrupts` | python/src/ledgermind_integrations/runtime/delivery.py:50-51 | an attempt count that is not a number ends the worker's loop and changes nothing on disk |
| `Refinement.CaptureTurnIsTurn` | python/src/ledgermind_integrations/adapters/hermes/hooks.py:201-276 | one capture's turn, on what was read before, performs the primitives of the protocol's capture step, none when a limit is exceeded on giving up or postponing |
| `Refinement.PopReadyIsARun` | python/src/ledgermind_integrations/runtime/spool.py:264-294 | from any world in which the worker holds nothing, a run of the protocol passes through every disk `pop_ready` leaves behind, also when it raises, and holds in the end exactly what was handed out |
| `Refinement.RunOnceIsARun` | python/src/ledgermind_integrations/runtime/delivery.py:38-43 | the same for `run_once`: the same disks and the same submissions, and the worker holds nothing again, whether or not the call raised |
| `Refinement.TurnsAreARun` | python/src/ledgermind_integrations/adapters/hermes/hooks.py:197-277 | the same for the turns of the pending worker over all captures handed to it |
| `Budget.SubmissionsBounded` | python/src/ledgermind_integrations/runtime/delivery.py:50-57 | over every run, submissions of a name number at most max_attempts for each time it was enqueued plus one for each interruption |
| `Budget.AcknowledgedWasSubmitted` | python/src/ledgermind_integrations/runtime/delivery.py:58-70 | nothing counts as acknowledged that was not submitted |
| `Budget.RunsAreAccounted` | python/src/ledgermind_integrations/runtime/delivery.py:50-64 | the attempt counts written into queued copies account for the submissions made, in every run |
| `GivingUp.FailsAfterMaxAttempts` | python/src/ledgermind_integrations/runtime/delivery.py:50-64 | in every run without interruptions in which a request is enqueued once and every submission of it fails for the network, whatever else happens in the run: it is never acknowledged, submitted at most max_attempts times, exactly that often once it is in failed, and until then queued with its submissions as its recorded attempts |
| `GivingUp.PollsDecide` | python/src/ledgermind_integrations/runtime/delivery.py:38-64 | under any schedule of polls of an item the number of those that find it due decides: each of the first max_attempts is one submission, the next sets it aside, and later ones do nothing |
| `GivingUp.EnqueuedWaits` | python/src/ledgermind_integrations/runtime/spool.py:166-181 | a request just enqueued waits, due at once, with no attempt behind it, which is where the polls start |
| `GivingUp.EarlyPoll` | python/src/ledgermind_integrations/runtime/spool.py:287-291 | a poll before the item is due leaves it waiting as it was |
| `GivingUp.CycleRetries` | python/src/ledgermind_integrations/runtime/delivery.py:61-64 | one failed attempt counts one submission and one attempt, and makes the item due one back-off later |
| `GivingUp.CycleGivesUp` | python/src/ledgermind_integrations/runtime/delivery.py:54-57 | with max_attempts behind it the item is set aside without a submission, its envelope marked with the reason |
| `GivingUp.CycleIsARun` | python/src/ledgermind_integrations/runtime/delivery.py:38-43 | such a poll is five steps of the protocol |
| `Delivery.DelaysGrowWithinBounds` | python/src/ledgermind_integrations/runtime/delivery.py:61-63 | back-off delays never shrink from one attempt to the next and stay between base and maximum |
| `Delivery.RunOnceKeeps` | python/src/ledgermind_integrations/runtime/delivery.py:38-43 | a whole delivery run keeps the queue limits, whatever the replies and however it ends |
| `Delivery.DeliveryWorker.Process` | python/src/ledgermind_integrations/runtime/delivery.py:45-70 | the new disk, the error raised and whether the request was submitted, in every branch |
| `Delivery.DeliveryWorker.ProcessItems` | python/src/ledgermind_integrations/runtime/delivery.py:40-42 | items are processed in turn; an error ends the loop and leaves the rest claimed |
| `Delivery.DeliveryWorker.RunOnce` | python/src/ledgermind_integrations/runtime/delivery.py:38-43 | claims, then processes what was claimed; reports whether anything was |
| `SpoolLimits.AcceptedWrite` | python/src/ledgermind_integrations/runtime/spool.py:85-116 | a write the limits allow leaves the counted queues, without the excluded files, within the file and byte limits |
| `SpoolLimits.MoveWithin` | python/src/ledgermind_integrations/runtime/spool.py:118-145 | a move ends within the limits and overshoots the file count by at most one on the way |
| `SpoolLimits.ClaimAllKeeps` | python/src/ledgermind_integrations/runtime/spool.py:264-294 | the claim loop keeps the limits, also when it raises |
| `SpoolLimits.ReclaimAllKeeps` | python/src/ledgermind_integrations/runtime/spool.py:237-262 | the reclaim loop keeps the limits, also when it raises |
| `SpoolLimits.MoveNeverBlockedByCount` | python/src/ledgermind_integrations/runtime/spool.py:112-113 | the file limit never blocks moving an item that is already counted |
| `SpoolLimits.InterruptedMoveCanFinish` | python/src/ledgermind_integrations/runtime/spool.py:112-113 | a move that a crash cut in two is not blocked by the file limit when it is finished |
| `SpoolLimits.PromotionWithin` | python/src/ledgermind_integrations/adapters/hermes/hooks.py:260-276 | promotion, which unlinks the pending file in a second operation, has at most one file too many in between and ends within the limits |
| `FileSpools.PopReadyKeeps` | python/src/ledgermind_integrations/runtime/spool.py:264-294 | reclaiming and claiming together keep the limits |
| `FileSpools.FileSpool.CheckLimits` | python/src/ledgermind_integrations/runtime/spool.py:85-116 | the loop over the counted files decides exactly by their number and the sum of their sizes, less the file being replaced |
| `FileSpools.FileSpool.Write` | python/src/ledgermind_integrations/runtime/spool.py:118-145 | writes atomically when payload, file and byte limits allow, and otherwise changes nothing |
| `FileSpools.FileSpool.EnqueuePending` | python/src/ledgermind_integrations/runtime/spool.py:161-165 | a capture is stored with fresh delivery fields |
| `FileSpools.FileSpool.EnqueueReady` | python/src/ledgermind_integrations/runtime/spool.py:166-181 | a request is stored in a fresh envelope |
| `FileSpools.FileSpool.RetryPending` | python/src/ledgermind_integrations/runtime/spool.py:213-214 | a capture is written back in place |
| `FileSpools.FileSpool.CompletePending` | python/src/ledgermind_integrations/runtime/spool.py:216-217 | the capture's file is gone afterwards |
| `FileSpools.FileSpool.FailPending` | python/src/ledgermind_integrations/runtime/spool.py:219-235 | the capture is copied to failed with its reason before the pending file is unlinked |
| `FileSpools.FileSpool.Fail` | python/src/ledgermind_integrations/runtime/spool.py:307-327 | the envelope, from inflight or else ready, is copied to failed with its reason before its file is unlinked |
| `FileSpools.FileSpool.Retry` | python/src/ledgermind_integrations/runtime/spool.py:299-304 | the envelope is copied to ready before the inflight file is unlinked |
| `FileSpools.FileSpool.Complete` | python/src/ledgermind_integrations/runtime/spool.py:296-297 | the inflight file is gone afterwards |
| `FileSpools.FileSpool.ReclaimExpiredInflight` | python/src/ledgermind_integrations/runtime/spool.py:237-262 | the loop over the inflight files, in name order, with the primitives and the error of each |
| `FileSpools.FileSpool.ClaimReady` | python/src/ledgermind_integrations/runtime/spool.py:264-294 | the loop over the first ready files, in name order; an error loses the list of claimed items but not the items |
| `FileSpools.FileSpool.PopReady` | python/src/ledgermind_integrations/runtime/spool.py:264-294 | reclaim, then claim, with the items handed out: the primitives and the error of the plan, whose effect on every file `QueueFates.PopReadyFates` says |
| `FileSpools.FileSpool.PopPending` | python/src/ledgermind_integrations/runtime/spool.py:183-211 | returns exactly the first due captures in the order of due time and name, and moves nothing but unreadable files, each of which it sets aside with its reason |
| `QueueFates.WriteAllowedIff` | python/src/ledgermind_integrations/runtime/spool.py:79-116 | a write goes through exactly when the request, or else the whole record, is within the payload limit, and the counted files that stay beside it leave room in number and in bytes; an existing file in failed is credited |
| `QueueFates.ReclaimTurn` | python/src/ledgermind_integrations/runtime/spool.py:237-262 | one inflight file: a claim whose time is a number and younger than the time to live runs on and nothing is done; any other envelope goes back to ready, without its claim and due at once, when there is room, and else stays and ends the loop; an unreadable file is set aside |
| `QueueFates.ClaimTimeDecides` | python/src/ledgermind_integrations/runtime/spool.py:252-256 | a claim time that is a number decides by its age alone |
| `QueueFates.ClaimTurn` | python/src/ledgermind_integrations/runtime/spool.py:264-294 | one ready file: set aside with its reason when it cannot be read, put back with its members when it is not due, and else handed out with the worker and the time noted; without room it stays renamed |
| `QueueFates.PopReadyFates` | python/src/ledgermind_integrations/runtime/spool.py:237-294 | for every file of the spool, when nothing raises: which inflight files stay and which return, which ready files have their turn (fewer than the limit come before them by name), and where each ends and with which members |
| `QueueFates.PopReadyHandsOut` | python/src/ledgermind_integrations/runtime/spool.py:264-294 | what is handed out is exactly what has its turn and is due, in name order, as it then lies in the inflight directory |
| `QueueFates.RunningClaimStays` | python/src/ledgermind_integrations/runtime/spool.py:252-258 | an inflight file whose claim runs on keeps its place and its content through the whole of `pop_ready`, whether or not it raises |
| `WorkerFates.ProcessFates` | python/src/ledgermind_integrations/runtime/delivery.py:45-70 | one claimed envelope, by its members and the reply: whether it is submitted, and where it ends with which reason, or with which attempt count and due time |
| `WorkerFates.DelayDoubles` | python/src/ledgermind_integrations/runtime/delivery.py:61-63 | the delay is the base at first and doubles with each attempt up to the maximum |
| `WorkerFates.TurnFates` | python/src/ledgermind_integrations/adapters/hermes/hooks.py:197-302 | one capture, by its members and what the resolver and the builder gave: promoted to a request never tried and due at once, set aside with the reason, or written back with its count, the reason and the waiting time of 1, 3, 10, 30 or 120 seconds |
| `WorkerFates.StoredCapture` | python/src/ledgermind_integrations/runtime/spool.py:161-165 | a capture just stored says all that was captured, and that it was never tried and is due from time zero |
| `WorkerFates.DueListFates` | python/src/ledgermind_integrations/runtime/spool.py:183-211 | the list of due captures has each readable capture whose due time has come, once, earlier ones first and those of one time by name; a due time that is no number counts as zero |
| `StringOrder.LeqIff` | python/src/ledgermind_integrations/runtime/spool.py:240 | names are in code-point order: the first difference decides, and a beginning comes before what it begins |
| `PendingQueue.DueListUnique` | python/src/ledgermind_integrations/runtime/spool.py:207 | the list of due captures in order is unique, so the order of the directory scan does not matter |
| `PendingCapture.UnresolvedSetAsideIff` | python/src/ledgermind_integrations/adapters/hermes/hooks.py:214-226 | an unresolved capture is set aside exactly when it carries a deadline that has passed; otherwise it stays with a later due time and nothing else changed |
| `PendingCapture.PendingCaptureWorker.RetryPending` | python/src/ledgermind_integrations/adapters/hermes/hooks.py:279-302 | sets aside at the deadline or, for an unavailable queue, at the attempt limit; otherwise writes back with the back-off of this attempt |
| `PendingCapture.PendingCaptureWorker.TakeTurn` | python/src/ledgermind_integrations/adapters/hermes/hooks.py:201-276 | one capture's turn: its primitives, its error and whether it was promoted |
| `PendingCapture.PendingCaptureWorker.RunOnce` | python/src/ledgermind_integrations/adapters/hermes/hooks.py:197-277 | takes the first ten due captures in turn and counts the promotions, with every disk it leaves behind: nothing but unreadable files moves before the turns, and the queue limits hold throughout |
| `PendingCapture.TurnAllKeeps` | python/src/ledgermind_integrations/adapters/hermes/hooks.py:197-277 | a whole run of turns keeps the queue limits, whatever the resolver gave and however it ends |
| `JsonValue.SizeOfReplacedField` | python/src/ledgermind_integrations/runtime/spool.py:69-76 | the encoded length is compositional: replacing one member changes it by the difference of the two values' lengths |
| `JsonText.SizeIsLength` | python/src/ledgermind_integrations/runtime/spool.py:69-83 | the size of a value is the number of bytes of its compact JSON text, written out with its escapes and its members in key order |
| `JsonValue.PyEqualIff` | python/src/ledgermind_integrations/runtime/spool_migration.py:222-224 | Python's equality of two values is equality once True and False are the numbers they count as |
| `RecordMigration.RecordBecomesCurrent` | python/src/ledgermind_integrations/runtime/spool_migration.py:165-184 | whatever migration accepts comes out in the current format; what that keeps of the record, `MigrationFates.RecordMigrates` says |
| `RecordMigration.CurrentIffUnchanged` | python/src/ledgermind_integrations/runtime/spool_migration.py:165-184 | a record is in the current format exactly when migration leaves it alone |
| `RecordMigration.MigrationIsFixpoint` | python/src/ledgermind_integrations/runtime/spool_migration.py:165-184 | migrating a migrated record changes nothing |
| `RecordMigration.DeliveryIsIgnored` | python/src/ledgermind_integrations/runtime/spool_migration.py:205-212 | resetting the delivery fields of a migrated record leaves it in the current format |
| `RecordMigration.RecordIdentityNeverChanges` | python/src/ledgermind_integrations/runtime/spool_migration.py:159-162 | no record makes migration report a changed source round identity |
| `RecordMigration.MigratedRoundIsDigested` | python/src/ledgermind_integrations/runtime/spool_migration.py:150-157 | a migrated raw round with events has idempotency_key equal to payload_digest equal to the digest of its body, and the body is the one it had |
| `RecordMigration.RecordKeepsTheRest` | python/src/ledgermind_integrations/runtime/spool_migration.py:165-184 | outside schema, extensions, digests and the three nested payloads migration changes no member |
| `MigrationFates.ExtensionsMigrate` | python/src/ledgermind_integrations/runtime/spool_migration.py:93-122 | extensions migrate exactly when not both context names stand in them and the context, under either name, is of the first schema with one identifier and at most a hundred distinct ones; then the old name is gone, the new one holds exactly that request id and those value ids, and every other extension is unchanged |
| `MigrationFates.RoundMigrates` | python/src/ledgermind_integrations/runtime/spool_migration.py:143-162 | a raw round migrates exactly when its schema name, extensions and events are accepted; then the schema says two, its context is kept, both digest members say the digest of its body, and every other member is unchanged |
| `MigrationFates.RecordMigrates` | python/src/ledgermind_integrations/runtime/spool_migration.py:165-184 | the same for a record, at the top level and in its request, raw_round and payload: accepted exactly when each part is, and what becomes of every member |
| `SpoolMigration.MigrationWorks` | python/src/ledgermind_integrations/runtime/spool_migration.py:254-269 | start-up migration succeeds exactly when every file it reads can be migrated; then the spool is the file-by-file declared result; and no primitive of any run, finished or not, changes that outcome |
| `MigrationFates.SpoolMigrates` | python/src/ledgermind_integrations/runtime/spool_migration.py:193-269 | start-up migration succeeds exactly when every file it reads is accepted; then each file is its migrated record, or unchanged where Python calls the two equal, inflight records are ready without their claim, and failed ones marked for another try are ready without claim and reason |
| `SpoolMigration.SecondMigrationDoesNothing` | python/src/ledgermind_integrations/runtime/spool_migration.py:254-269 | after a successful migration a second one performs no primitive and returns all zeros |
| `SpoolMigration.CrashRestartConfluence` | python/src/ledgermind_integrations/runtime/spool_migration.py:201-269 | however often a migration is cut off between two primitives and begun again, the last run succeeds exactly when an uninterrupted one would, and ends in the same spool |
| `SpoolMigration.KeysSurvive` | python/src/ledgermind_integrations/runtime/spool_migration.py:201-251 | no key disappears at any point of any sequence of interrupted runs |
| `SpoolMigration.InflightEndsEmpty` | python/src/ledgermind_integrations/runtime/spool_migration.py:201-215 | a finished migration leaves inflight empty and every earlier key in ready or failed |
| `SpoolMigration.CountsAreExact` | python/src/ledgermind_integrations/runtime/spool_migration.py:263-269 | the five counts returned are the numbers of files recovered, rewritten and promoted, read off the spool at the start |
| `SpoolMigration.FinalIsUnique` | python/src/ledgermind_integrations/runtime/spool_migration.py:201-251 | the declared result determines the spool |
| `SpoolMigrator.RecoverInflight` | python/src/ledgermind_integrations/runtime/spool_migration.py:201-215 | the loop over inflight files, its primitives and its count |
| `SpoolMigrator.MigrateDirectory` | python/src/ledgermind_integrations/runtime/spool_migration.py:218-227 | the loop over one directory; files that compare equal in Python's sense are not rewritten |
| `SpoolMigrator.MigrateFailed` | python/src/ledgermind_integrations/runtime/spool_migration.py:230-251 | the loop over failed files: rewriting, promotion of retryable ones, and both counts |
| `SpoolMigrator.MigrateSpool` | python/src/ledgermind_integrations/runtime/spool_migration.py:254-269 | the four loops in order: the result, the declared final spool and exact counts; what the final spool holds, `MigrationFates.SpoolMigrates` says by members |
| `Canonical.BuildCanonicalBody` | protocol/python/src/ledgermind_protocol/canonical.py:49-69 | the loop that copies events with their defaults gives the canonical body or the error of the first bad part |
| `Canonical.CanonicalBodyStable` | protocol/python/src/ledgermind_protocol/canonical.py:49-69 | writing the defaults out does not change the body, so a payload and its canonical form have one digest |
| `Canonical.BodyReadsSourceAndRound` | protocol/python/src/ledgermind_protocol/canonical.py:49-69 | the body depends on source and round alone |
| `Canonical.SourceKeyIff` | protocol/python/src/ledgermind_protocol/canonical.py:91-121 | the round identity is the digest of the five public source members, each under its short or its long name, and there is one exactly when each is a text |
| `RawRounds.ContentAcceptedIff` | python/src/ledgermind_integrations/adapters/hermes/round_capture.py:17-41 | what _content produces is accepted by RawContentPart exactly when no part handed in as canonical has a text or uri of the wrong type beside its own payload |
| `RawRounds.StrayUriIsRejected` | python/src/ledgermind_integrations/adapters/hermes/round_capture.py:17-29 | a part that passes the adapter's own check and that the protocol model rejects |
| `RawRounds.BuildNormalizedEvent` | python/src/ledgermind_integrations/adapters/hermes/round_capture.py:44-63 | the step-by-step filling of the result equals the specification function |
| `RawRounds.NormalizedValidIff` | python/src/ledgermind_integrations/adapters/hermes/round_capture.py:44-63 | a normalised event passes the event model exactly when role, tool members and content parts of the event were right: id, sequence, kind, finality and defaults are always repaired |
| `RawRounds.NormalizedView` | python/src/ledgermind_integrations/adapters/hermes/round_capture.py:44-63 | what normalisation does to each member the round rules read |
| `RoundContents.ContentPresents` | python/src/ledgermind_integrations/adapters/hermes/round_capture.py:17-41 | content is presented as it is: a text as one text part, a list of canonical parts as it stands, anything else as one part of data, and null as nothing |
| `RoundContents.NormalizedSays` | python/src/ledgermind_integrations/adapters/hermes/round_capture.py:44-63 | a normalised event says what the event said: its id, kind, finality and content; without an id it is called after its round and place |
| `RoundContents.NormalizedKeeps` | python/src/ledgermind_integrations/adapters/hermes/round_capture.py:44-63 | role, call id, tool, arguments and status stand where they were given; a call without arguments has empty ones, a result without a status an unknown one |
| `RoundRecords.BuiltSays` | python/src/ledgermind_integrations/adapters/hermes/round_capture.py:84-145 | every member of a built request but the ids and digests that acceptance speaks of: source, round, events, extensions |
| `RoundRequests.BuiltAcceptedIff` | protocol/python/src/ledgermind_protocol/models.py:151-191 | a built request is accepted exactly when its events are valid, obey the round rules and serialise as they were digested: source ids, sequences and digest fields are right by construction |
| `RoundRecords.AcceptedSays` | protocol/python/src/ledgermind_protocol/models.py:151-191 | an accepted request holds its events, their ids with the first and the last in its source, and twice the digest of what it serialises |
| `RoundRecords.RulesSay` | protocol/python/src/ledgermind_protocol/models.py:164-183 | the rules over the members of the events: distinct ids, numbered in order, a user message, exactly one final answer, no two calls of one id, a call for every result |
| `RoundRequests.CleanBuiltAcceptedIff` | python/src/ledgermind_integrations/adapters/hermes/round_capture.py:84-145 | without explicit nulls in content parts the digest recomputed by the model is the one filled in, so validity and rules alone decide |
| `RoundRequests.CleanRoundKeepsItsDigest` | protocol/python/src/ledgermind_protocol/canonical.py:36-46 | a payload without explicit nulls is serialised by the model exactly as it was digested |
| `RoundRequests.SerialisedAsDigestedIff` | protocol/python/src/ledgermind_protocol/canonical.py:36-46 | the model serialises a built payload as it was digested exactly when no content part of its events carries an explicit null |
| `RoundRequests.BuiltAcceptedExactly` | protocol/python/src/ledgermind_protocol/models.py:151-191 | with a digest that tells a body from the same body without its nulls, a built request is accepted exactly when its events are valid, obey the round rules and carry no explicit null in a content part |
| `HermesRounds.NullPartIsRejected` | python/src/ledgermind_integrations/adapters/hermes/round_capture.py:17-41 | a round whose user message has such a part: every event is valid, every rule is met, and the request is rejected |
| `HermesRounds.ReplyAcceptedExactly` | python/src/ledgermind_integrations/adapters/hermes/runtime.py:915-941 | for captured content of any kind, under such a digest: the request is accepted exactly when the contents are typed and free of nulls, the captured ids are distinct and the answer's id is free |
| `HermesSteps.RepliesObeyTheRules` | python/src/ledgermind_integrations/adapters/hermes/runtime.py:440-518 | every sequence of tool and user hooks without host message ids, closed by a reply, gives events that obey every rule of a complete round |
| `HermesSteps.RepliesAreAccepted` | python/src/ledgermind_integrations/adapters/hermes/runtime.py:507-535 | the request built from them is accepted, given clean content |
| `HermesRounds.ReplyAcceptedIff` | python/src/ledgermind_integrations/adapters/hermes/runtime.py:915-941 | with host message ids too: the request is accepted exactly when the answer's event id is not in use and the ids captured before it are distinct |
| `HermesSteps.IdsDistinctIff` | python/src/ledgermind_integrations/adapters/hermes/runtime.py:893-913 | the captured ids are distinct exactly when the user message does not carry the id of a tool event |
| `HermesSteps.OwnIdsAreDistinct` | python/src/ledgermind_integrations/adapters/hermes/runtime.py:893-938 | ids the hooks make themselves never clash and leave the answer's id free |
| `HermesRounds.UsedAnswerBreaks` | python/src/ledgermind_integrations/adapters/hermes/runtime.py:925-928 | an answer under an id in use overwrites the user message or gives a tool event a role, and the round is rejected |
| `HermesRounds.RulesByMarks` | protocol/python/src/ledgermind_protocol/models.py:164-183 | the validator's rules over normalised events, restated over the events the hooks make |
| `HermesEvents.AddCallKeeps` | python/src/ledgermind_integrations/adapters/hermes/runtime.py:444-460 | a tool call hook keeps the tracked round: unique call ids and an index that points at the right event |
| `HermesEvents.AddResultKeeps` | python/src/ledgermind_integrations/adapters/hermes/runtime.py:462-505 | a tool result hook keeps it: one result per call, each with its call |
| `HermesEvents.EnsureUserKeeps` | python/src/ledgermind_integrations/adapters/hermes/runtime.py:893-913 | there is at most one user message, and one after this |
| `HermesSteps.AfterKeeps` | python/src/ledgermind_integrations/adapters/hermes/runtime.py:440-518 | each hook keeps the tracked round |
| `RoundContents.StartedSays` | python/src/ledgermind_integrations/adapters/hermes/runtime.py:440-460 | a tool call hook that finds no call of its id adds the event with this id, tool, arguments and time, and nothing else |
| `RoundContents.FinishedSays` | python/src/ledgermind_integrations/adapters/hermes/runtime.py:462-505 | a tool result hook that finds no result adds the event last, with a known status and the output, or the error when there is nothing else to show; the call's event gets its end and error, and every other event stays |
| `RoundContents.UserSays` | python/src/ledgermind_integrations/adapters/hermes/runtime.py:893-913 | the first user message of a round is added as it was given |
| `RoundContents.AnswerSays` | python/src/ledgermind_integrations/adapters/hermes/runtime.py:915-938 | an answer under a new id is added last; under an id in use it makes the first event of that id the final answer with its text, and leaves every other event as it was |
| `RoundContents.RequestHoldsWords` | python/src/ledgermind_integrations/adapters/hermes/runtime.py:507-535 | the request of a round holds the text of its prompt, and the text of its answer as the last and final message |
| `HermesSteps.ToolCallId` | python/src/ledgermind_integrations/adapters/hermes/runtime.py:970-985 | the id is the explicit one; else that of the last call without a result; else, when no call is open, one made from the number of events; it is never empty |
| `HermesSteps.LastOpenCall` | python/src/ledgermind_integrations/adapters/hermes/runtime.py:975-984 | the result is the last call without a result, and there is none when it is None |
| `HermesRuntime.ActiveRoundState.FindToolCallId` | python/src/ledgermind_integrations/adapters/hermes/runtime.py:970-985 | the backward scan gives the specified id |
| `HermesRuntime.ActiveRoundState.StartTool` | python/src/ledgermind_integrations/adapters/hermes/runtime.py:440-460 | the captured events and call index after the hook |
| `HermesRuntime.ActiveRoundState.FinishTool` | python/src/ledgermind_integrations/adapters/hermes/runtime.py:462-505 | the captured events and call index after the hook, with the call event it points to updated |
| `HermesRuntime.ActiveRoundState.EnsureUserEvent` | python/src/ledgermind_integrations/adapters/hermes/runtime.py:893-913 | the captured events after the hook |
| `HermesRuntime.ActiveRoundState.AppendAssistantEvent` | python/src/ledgermind_integrations/adapters/hermes/runtime.py:915-938 | the search loop updates the first event with the answer's id or appends a new one |
| `HermesRuntime.ActiveRoundState.RecordContext` | python/src/ledgermind_integrations/adapters/hermes/runtime.py:857-872 | the merge loop records the view's new ids up to the limit |
| `HermesRuntime.HermesPluginRuntime.GetActiveRound` | python/src/ledgermind_integrations/adapters/hermes/runtime.py:635-648 | the active round, unless both turn ids are given and differ |
| `HermesRuntime.HermesPluginRuntime.GetOrCreateActiveRound` | python/src/ledgermind_integrations/adapters/hermes/runtime.py:577-633 | the session's round when it serves the turn, else a new one in place of the deferred old one; other sessions untouched |
| `HermesRuntime.HermesPluginRuntime.BeginLlmRound` | python/src/ledgermind_integrations/adapters/hermes/runtime.py:734-753 | kept only for the same explicit turn id, else deferred and replaced |
| `HermesRuntime.HermesPluginRuntime.Defer` | python/src/ledgermind_integrations/adapters/hermes/runtime.py:803-818 | the round leaves the active map, is enqueued as pending or refused, and drops its context references |
| `HermesRuntime.HermesPluginRuntime.Complete` | python/src/ledgermind_integrations/adapters/hermes/runtime.py:789-801 | the same for a captured round, with the session's counters |
| `HermesRuntime.HermesPluginRuntime.OnPreLlmCall` | python/src/ledgermind_integrations/adapters/hermes/runtime.py:285-417 | the round begun or kept, the user message, and the context: the cached one exactly when it was stored under this turn's key, else the one retrieved, which is then stored under it; and the text to inject |
| `HermesRuntime.TurnKeysDiffer` | python/src/ledgermind_integrations/adapters/hermes/runtime.py:419-438 | turns that share a cache key are the same turn: the same turn id, or else the same user message id, or else the same number of user messages |
| `HermesRuntime.HermesPluginRuntime.OnPreToolCall` | python/src/ledgermind_integrations/adapters/hermes/runtime.py:440-460 | the round the call lands in and its events |
| `HermesRuntime.HermesPluginRuntime.OnPostToolCall` | python/src/ledgermind_integrations/adapters/hermes/runtime.py:462-505 | the round the result lands in and its events |
| `HermesRuntime.HermesPluginRuntime.CaptureOrDefer` | python/src/ledgermind_integrations/adapters/hermes/hooks.py:64-160 | a round is made ready exactly when it is final, its request is accepted and the spool takes it, and what is written is that request; nothing is enqueued exactly when the fallback is refused and the spool takes no capture or the final round's request is not accepted |
| `HermesRuntime.HermesPluginRuntime.OnPostLlmCall` | python/src/ledgermind_integrations/adapters/hermes/runtime.py:507-565 | the round is closed in any case; what was written for it carries its events and the time of this call; with a reply it is made ready exactly when the spool takes it, the ids are in order and the content is clean, for content of any kind under a digest that tells nulls apart, and for clean content under any digest |
| `HermesRuntime.HermesPluginRuntime.FinishSession` | python/src/ledgermind_integrations/adapters/hermes/runtime.py:669-681 | an open round is deferred and the session forgotten |
| `HermesRuns.RunHooks` | python/src/ledgermind_integrations/adapters/hermes/runtime.py:285-681 | any sequence of hooks keeps the runtime's invariant; what was opened, enqueued and refused only grows; nothing is refused while the spool takes deferrals; and round ids stay distinct exactly when no hook opened a round under an id already in use |
| `HermesRuns.ReuseIsByTurn` | python/src/ledgermind_integrations/adapters/hermes/runtime.py:617 | with fresh ids that are fresh, an id is used again exactly when a round is opened under an explicit turn id that a round already has |
| `HermesRuns.EmissionsShareIdIff` | python/src/ledgermind_integrations/adapters/hermes/runtime.py:507-565 | two enqueued rounds carry the same id exactly when two rounds of one id were closed and taken by the spool; never while round ids are distinct |
| `HermesRuns.EnqueuedExactlyOnce` | python/src/ledgermind_integrations/adapters/hermes/runtime.py:507-565 | a closed round was enqueued exactly once unless the spool refused it; an open one never was and is active |
| `HermesRuns.ActiveRoundIdIsRight` | python/src/ledgermind_integrations/adapters/hermes/runtime.py:628-633 | active_round_id names the session's active round and is empty when there is none; no completed round is active |
| `HermesRuns.ContextStaysWithItsRound` | python/src/ledgermind_integrations/adapters/hermes/runtime.py:820-891 | what was written for a round, whatever became of the round since, names its session, its id and the time, and refers to the last retrieval of its own views and the first hundred distinct ids of all of them, or to no context when it had no views; a request holds its normalised events |
| `ContextLists.CloseAll` | python/src/ledgermind_integrations/adapters/hermes/runtime.py:874-891 | on list objects: when rounds are closed one after the other, each copy keeps the ids its round had and every round's own list, cleared in place, is empty |
| `ContextLists.RoundContext.Record` | python/src/ledgermind_integrations/adapters/hermes/runtime.py:857-872 | appending to the list in place gives the merge that the runtime's rounds record |
| `HermesRuns.LateHookReusesRoundId` | python/src/ledgermind_integrations/adapters/hermes/runtime.py:755-762 | a tool hook after its round was closed opens a second round of the same id: uniqueness is by round, not by id |
| `ContextIds.RecordedIsDedup` | python/src/ledgermind_integrations/adapters/hermes/runtime.py:863-872 | the merge over all views is the duplicate-free concatenation cut at a hundred |
| `InlineBinary.SanitizeCleans` | python/src/ledgermind_integrations/adapters/lifecycle/bridge.py:313-324 | no inline binary string is left at any depth, and keys, list lengths and other leaves are the same |
| `InlineBinary.SanitizeIffClean` | python/src/ledgermind_integrations/adapters/lifecycle/bridge.py:313-324 | a value is left alone exactly when it holds no inline binary |
| `InlineBinary.SanitizeIdempotent` | python/src/ledgermind_integrations/adapters/lifecycle/bridge.py:313-324 | sanitising twice is sanitising once |
| `InlineBinary.InlineIff` | python/src/ledgermind_integrations/adapters/lifecycle/bridge.py:313-318 | inline binary is a data URL that announces base64 within its first 256 characters |
| `InlineBinary.BinaryBecomes` | python/src/ledgermind_integrations/adapters/lifecycle/bridge.py:300-310 | what stands in the place of an inline binary: its length, its digest and the media type between the scheme and the first comma or semicolon |
| `Compaction.CompactToolEvents` | python/src/ledgermind_integrations/adapters/lifecycle/bridge.py:327-358 | current_size is always the sum of the encoded event sizes, and the payloads omitted are the shortest prefix, in descending order of size and index, that meets both bounds, or all |
| `Compaction.CandidatesAreRight` | python/src/ledgermind_integrations/adapters/lifecycle/bridge.py:336-349 | the candidate list holds exactly the tool payloads with their sizes, in strictly descending order |
| `Compaction.ShortestIsUnique` | python/src/ledgermind_integrations/adapters/lifecycle/bridge.py:349-357 | which payloads go is determined |
| `Compaction.ShedFirstAt` | python/src/ledgermind_integrations/adapters/lifecycle/bridge.py:352-357 | each event is the sanitised one, or the sanitised one with its payload replaced by the marker; nothing else changes |
| `Compaction.ShedSize` | python/src/ledgermind_integrations/adapters/lifecycle/bridge.py:355-357 | replacing one payload changes the total by exactly the difference of the two sizes |
| `Compaction.PayloadsLeftFit` | python/src/ledgermind_integrations/adapters/lifecycle/bridge.py:350-351 | every payload left is within the item limit, even when the round as a whole cannot be made to fit |
| `Compaction.PayloadTextsWithinCap` | protocol/python/src/ledgermind_protocol/models.py:19-21 | every text part made from a tool payload is within the item limit of 190,000 and so within the 200,000 characters a part may have |
| `Compaction.TinyBudgetShedsAll` | python/src/ledgermind_integrations/adapters/lifecycle/bridge.py:425 | a budget of one byte omits every tool payload |
| `Compaction.CandidatesSay` | python/src/ledgermind_integrations/adapters/lifecycle/bridge.py:336-349 | what may be omitted is the arguments of tool calls and the content of tool results, each with its size, the largest first and of one size the later |
| `Compaction.ShedReplaces` | python/src/ledgermind_integrations/adapters/lifecycle/bridge.py:287-297 | an omitted payload is replaced by a marker with its length, digest and, for text, its first 512 characters; every other member stays |
| `LifecycleBridge.FittingRoundIsSentWhole` | python/src/ledgermind_integrations/adapters/lifecycle/bridge.py:415-418 | when the sanitised events fit into the budget and each payload within 190,000 bytes, they are sent as they are |
| `LifecycleBridge.CrampedRoundIsSentBare` | python/src/ledgermind_integrations/adapters/lifecycle/bridge.py:424-427 | after the payload limit was exceeded every tool payload is omitted and nothing else is changed |
| `Compaction.CompactedIsClean` | python/src/ledgermind_integrations/adapters/lifecycle/bridge.py:287-297 | markers and previews bring no inline binary back |
| `BridgeRounds.FinishedRules` | python/src/ledgermind_integrations/adapters/lifecycle/bridge.py:379-397 | a finished round obeys the rules exactly when its log holds no second answer, its call ids are unique and the number the made-up answer takes is free |
| `BridgeRounds.BridgeAcceptedIff` | python/src/ledgermind_integrations/adapters/lifecycle/bridge.py:401-419 | what is built from it, compacted or not, is accepted under exactly that condition, when its content is typed and free of nulls |
| `BridgeRounds.BridgeAcceptedExactly` | python/src/ledgermind_integrations/adapters/lifecycle/bridge.py:401-419 | for content of any kind, under a digest that tells nulls apart: accepted exactly under that condition and with typed content free of nulls |
| `BridgeRounds.KeptExactly` | python/src/ledgermind_integrations/adapters/lifecycle/bridge.py:384-392 | dropping orphans drops the results without a call and nothing else |
| `BridgeRounds.KeptAndOrphans` | python/src/ledgermind_integrations/adapters/lifecycle/bridge.py:384-392 | counted with multiplicity, a log is what is kept and its orphans, and what is kept stays in order |
| `BridgeRounds.MadeUpIdCanClash` | python/src/ledgermind_integrations/adapters/lifecycle/bridge.py:277 | a log in which dropping an orphan makes the made-up answer take the id of an event that is kept |
| `BridgeRounds.SecondAnswerStays` | python/src/ledgermind_integrations/adapters/lifecycle/bridge.py:523-536 | once a log has two answers, no continuation of it obeys the rules |
| `BridgeRounds.CompactedMarks` | python/src/ledgermind_integrations/adapters/lifecycle/bridge.py:415-419 | compaction changes nothing the rules look at |
| `BridgeRounds.DropOrphans` | python/src/ledgermind_integrations/adapters/lifecycle/bridge.py:384-392 | the comprehension, one event at a time |
| `LifecycleBridge.LifecycleSession.OnStop` | python/src/ledgermind_integrations/adapters/lifecycle/bridge.py:537-555 | a stop that raises leaves the stored state as it was; one that enqueues omitted the fewest payloads, from the largest down, that bring the finished log within max_payload_bytes less 256,000 bytes, or within one byte after the payload limit was exceeded; the request names the round, its beginning and end; with identifiers and content in order it enqueues exactly when the log obeys the rules and the spool takes it |
| `LifecycleBridge.LifecycleSession.EnqueueFinishedRound` | python/src/ledgermind_integrations/adapters/lifecycle/bridge.py:361-429 | the outcome in every branch: nothing to do, discarded without a user message, raised, or enqueued with the fewest payloads omitted that the budget of this branch asks for, in a request that names the round and holds what was sent |
| `LifecycleBridge.AppendedIsPartitioned` | python/src/ledgermind_integrations/adapters/lifecycle/bridge.py:361-429 | the closed logs and the current one, in order, are all events ever appended; counted with multiplicity each of them was sent, or dropped as an orphan or with a log that has no user message, or is in the current log; what was sent for a log is the log without its orphans, event by event and in order, and a made-up answer exactly when it has none |
| `LifecycleBridge.LifecycleSession.OnPrompt` | python/src/ledgermind_integrations/adapters/lifecycle/bridge.py:457-465 | the event a prompt adds to the log, member by member, and that exactly the log's growth was appended |
| `LifecycleBridge.LifecycleSession.OnToolUse` | python/src/ledgermind_integrations/adapters/lifecycle/bridge.py:489-503 | the event a tool call adds, its arguments sanitised |
| `LifecycleBridge.LifecycleSession.OnToolDone` | python/src/ledgermind_integrations/adapters/lifecycle/bridge.py:505-521 | the event a tool result adds, its content sanitised |
| `LifecycleBridge.LifecycleSession.OnAnswer` | python/src/ledgermind_integrations/adapters/lifecycle/bridge.py:523-536 | the event an answer that has text adds |
| `Decimals.DecimalInjective` | python/src/ledgermind_integrations/adapters/lifecycle/bridge.py:277 | different places in the log give different numbers |
| `WindowLinking.EveryWindowGivesTheTurn` | python/src/ledgermind_integrations/adapters/hermes/state_db.py:115-233 | every query that names a turn's user message and lets its rows through recovers exactly that turn, whatever its other bounds select around it, when no call of the turn is anonymous |
| `WindowLinking.WindowIndependentIff` | python/src/ledgermind_integrations/adapters/hermes/state_db.py:204-233 | a complete turn is recovered as by itself from every window around it exactly when none of its calls is anonymous, given that made-up call ids are no result ids |
| `WindowLinking.RecoveredAsAloneIff` | python/src/ledgermind_integrations/adapters/hermes/state_db.py:204-233 | from one window, whatever rows it holds, a complete turn is recovered as by itself exactly when linking the window links the turn's events as if they stood alone |
| `StateDb.TurnEndsFinal` | python/src/ledgermind_integrations/adapters/hermes/state_db.py:222-229 | a recovered turn has exactly one final event, its last, and starts with its user message |
| `RecoveredContents.TurnSays` | python/src/ledgermind_integrations/adapters/hermes/state_db.py:236-323 | a recovered turn says what its rows say, in their order: a result under its call id with status and content; a row of calls its text, if it has one, and each call with id, tool and arguments; any other row one message with its role and its content or an empty text; the last one final |
| `RecoveredContents.RecoveredTurnSays` | python/src/ledgermind_integrations/adapters/hermes/state_db.py:29-62 | the same for the round read through any window that names the turn's user message and lets its rows through, when the calls name their ids |
| `RecoveredContents.QueryReads` | python/src/ledgermind_integrations/adapters/hermes/state_db.py:166-194 | the query reads the rows within its bounds, each once and in order: message ids bound the range, timestamps only a side without an id |
| `RecoveredContents.TrimmedTo` | python/src/ledgermind_integrations/adapters/hermes/state_db.py:325-344 | all before the user message of the given id is cut off; when there is none, all before the last of several user messages |
| `WindowLinking.WindowKeepsLinksIff` | python/src/ledgermind_integrations/adapters/hermes/state_db.py:373-393 | what follows a turn leaves its links alone exactly when it claims none of the ids handed to the turn's anonymous calls and, if some call is left over, brings no unmatched result; made-up ids being no result ids |
| `WindowLinking.SameLinksIff` | python/src/ledgermind_integrations/adapters/hermes/state_db.py:373-393 | with no condition on ids: exactly when the ids waiting in the window give each anonymous call what the turn's own give it |
| `WindowLinking.WaitingInWindow` | python/src/ledgermind_integrations/adapters/hermes/state_db.py:373-393 | the ids waiting in a window are those of the turn that no later call claims, followed by those the later rows bring |
| `WindowLinking.LaterResultIsTaken` | python/src/ledgermind_integrations/adapters/hermes/state_db.py:204-233 | on rows of a table: a call without an id and without a result keeps a made-up id when its turn is read alone and takes the id of a later row's result in a wider window |
| `StateDb.EveryResultHasACall` | python/src/ledgermind_integrations/adapters/hermes/state_db.py:373-393 | with no more unmatched results than anonymous calls, every result references a call after linking |
| `StateDb.OnlyAnonymousChange` | python/src/ledgermind_integrations/adapters/hermes/state_db.py:373-393 | explicit calls and all other events are not touched |
| `StateDb.SettledIdsStayUnique` | python/src/ledgermind_integrations/adapters/hermes/state_db.py:373-393 | explicit and linked call ids stay unique when the explicit ones were and the unmatched results carry distinct ids |
| `StateDb.LinkAnonymousToolCalls` | python/src/ledgermind_integrations/adapters/hermes/state_db.py:373-393 | the list linked in place equals the specification: the n-th anonymous call takes the id of the n-th unmatched result |
| `StateDb.RecoverEvents` | python/src/ledgermind_integrations/adapters/hermes/state_db.py:204-233 | conversion, trimming, in-place linking, cutting and removal of the private marks, as specified |
| `StateDb.FinalIndex` | python/src/ledgermind_integrations/adapters/hermes/state_db.py:346-371 | the first assistant message with the given id when there is one; else the first, or the last, answer that asks for no tool; None when there is no such answer |
| `RecoveredRounds.RecoveredTurnIsAccepted` | python/src/ledgermind_integrations/adapters/hermes/state_db.py:29-62 | a recovered turn whose calls are named, unique and referenced, with clean content, makes a request that RawRoundRequest accepts |
| `RecoveredRounds.EventIdsDiffer` | python/src/ledgermind_integrations/adapters/hermes/state_db.py:235-285 | event ids made from distinct rows, and from one row's calls, are distinct |
| `Grounding.SpanAcceptedIff` | protocol/python/src/ledgermind_protocol/object_facet.py:175-195 | a span is accepted exactly when some code-point index has span_start bytes before it and the surface text stands there, the span being as long as its encoding (sections 3 and 4 of RFC 3629) |
| `Grounding.ByteEqualityForcesBoundaries` | protocol/python/src/ledgermind_protocol/object_facet.py:186-194 | for non-empty text equality of the bytes alone already forces character boundaries |
| `Grounding.Find` | protocol/python/src/ledgermind_protocol/object_facet.py:249 | the search returns the first occurrence at or after an offset, or -1 when there is none |
| `Grounding.ConditionOccurrences` | protocol/python/src/ledgermind_protocol/object_facet.py:245-255 | the loop terminates for non-empty text and returns the byte ranges of the scanned occurrences |
| `Grounding.RangesDecodeAndAscend` | protocol/python/src/ledgermind_protocol/object_facet.py:245-255 | the ranges ascend, do not overlap, and each decodes to the text |
| `Grounding.ScannedIsTheLeftmostCover` | protocol/python/src/ledgermind_protocol/object_facet.py:245-255 | the occurrences are exactly the leftmost non-overlapping ones: that description has one solution |
| `Grounding.ScanCompleteIff` | protocol/python/src/ledgermind_protocol/object_facet.py:245-255 | the scan sees every occurrence in every source exactly when the text does not overlap itself |
| `Grounding.ClaimAcceptedIff` | protocol/python/src/ledgermind_protocol/object_facet.py:640-674 | a claim is accepted exactly when its fields are right, its events are known, its subject stands at some code-point index and no scanned occurrence of a condition of the same event covers it; and when fields are right, in full |
| `Grounding.AcceptedSubjectOutsideUnborderedCondition` | protocol/python/src/ledgermind_protocol/object_facet.py:658-674 | an accepted subject lies inside no occurrence at all of a condition text that does not overlap itself |
| `Grounding.BorderHidesSubject` | protocol/python/src/ledgermind_protocol/object_facet.py:658-674 | every overlap of a condition text with itself gives an accepted claim whose subject is exactly an occurrence of that text |
| `Grounding.KeepsSubjectsOutIff` | protocol/python/src/ledgermind_protocol/object_facet.py:658-674 | a condition text keeps the subjects of all accepted claims of its event out of all its occurrences exactly when it does not overlap itself |
| `Utf8.DecodeIff` | protocol/python/src/ledgermind_protocol/object_facet.py:186-192 | strict decoding accepts exactly the encodings of text (sections 3 and 4 of RFC 3629) |
| `Utf8.NonTailIsBoundary` | protocol/python/src/ledgermind_protocol/object_facet.py:186-192 | a byte that is not a continuation byte starts a character |

## Left out

- Several delivering workers at once: the lost-race branch of `pop_ready` can set aside another worker's claim, so the protocol has one worker beside any number of enqueuers.
- Fairness of `pop_ready`: it takes the first names before it looks at due times, and nothing is claimed about how long an item waits.
- Names: file names are keys without the `.json` suffix, `_safe_key` and `_safe` are taken as the identity, and the key of a promoted capture, a digest, does not begin like the name of a quarantined capture.
- `Protocol.SubmissionsAreIdentical`: says that submissions are the same only for names that were enqueued with one request; a ready name is a digest of source and round, so two requests that differ in their extensions alone share a name.
- File permissions, fsync, temporary file names, directory creation and errors of the file system: a put or rename is one atomic step.
- `LimitFault`: stat errors of single files inside `_check_limits` are not modelled; sizes are those of the encoded values.
- One clock reading stands for the several a single operation takes.
- Numbers are reals: integers and floats are not told apart, and NaN, infinities and lone surrogates do not occur. `True == 1` is modelled where comparisons depend on it.
- The delivery status file, statistics, the runtime lease, traces and the raw-round snapshot file.
- The HTTP client: a submission has one of four outcomes.
- Migration writes skip the limits, so the limit invariant is not claimed across a migration.
- Field lengths, value ranges and timestamps of the protocol models, and the validation of top-level extensions inside `build_raw_round`; an `extensions` object that is given but empty makes the source raise, and that case is not modelled.
- Resolution identities (`build_resolution_extension`, path and repository lookup): the round specification carries finished source extensions.
- `Accepts`: what the model serialises is described for source, round, events and content parts; datetimes are covered by the digest parameter.
- Message-id bounds and resolution metadata of an active round, which only reach the pending record; `discard_active_round` and `complete_active_round`, which no hook calls.
- The beginning of a Hermes round: `started_at` is a part of the request template that all rounds of a runtime share.
- SessionState objects are values in the session map.
- `HermesRuns.ContextStaysWithItsRound`: in the runtime context id lists are sequences; the list objects, with the copy and the clearing in place, are in `ContextLists`.
- `HermesRuntime.HermesPluginRuntime.OnPostLlmCall`: for content with explicit nulls it says when a round is made ready only under a digest that tells a body from the same body without its nulls.
- Threads: hooks and the context executor are sequential steps.
- The lifecycle bridge's host payload parsing (`_tool`, `_result`, `_exit_code`, `_prompt`), its lease handling and the delivery after a stop; one object stands for one session's state file.
- `LifecycleBridge.LifecycleSession.OnStop`: says when a stop enqueues for events whose identifiers do not themselves look like inline binary and whose content parts are typed and free of nulls.
- Decoding of the JSON columns and the result status of a message row, schema detection and SQL; a row lists its tool calls already decoded.
- Claims: opaque identifiers, blank texts, list lengths and the other extraction models; `validate_with_source` is modelled from its field checks on.
- Configuration loaders, installers, the command line, JavaScript plugins and release scripts.
