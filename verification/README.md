# Exchange gateway: durable protocols and the loops that read over them

A Dafny 4.11 model of the JunoCash exchange gateway. `dafny verify dfyconfig.toml` checks all of it.

## What is modelled

**Transaction attempts and note reservations** (`Chain`, `Attempts`, `AttemptRuns`, `AttemptReplies`,
`Coordinator*`, `Verdicts`, `Passes`).
`Attempts.Store` holds the attempts, reservations and events tables and performs each SQL transaction in place, with the
insert loop that rolls back. `Coordinator` is the service as a state machine over those tables: four workers, user requests and
cancels, the recovery loop, crashes, the signer and the chain interleave one committed transaction, one remote reply or one
chain change at a time. A write whose error the service discards may or may not happen. A crash loses the queue, the in-flight
set, the wallet locks and the workers. The chain is a sequence of blocks that grows and reorganises. The theorems are about every
state of every run: bytes that could still be mined always own the notes they spend. `Verdicts` and `Passes` say what the service
records: every verdict goes back to an answer of the node, and a pass whose writes go through leaves the attempt as its answers ask,
whatever the other workers do in between.

**Crash-safe address allocation and recovery** (`Ledger`, `Addresses`, `AddressSafety`, `Recovery`, `Rebuild`, `Overlaps`).
The external manifest and the database are two stores written one after the other. `Ledger.Store` has the manifest operations and
the coverage check, `AddressStore` the database writes, and a state machine interleaves any number of allocating processes with
crashes, rollbacks and any number of recoveries, which may overlap each other and the allocations. `Rebuild.Recover` is the recovery
command with a budget of durable writes after which it crashes; it tells each of its writes as a step of that state machine. `Overlaps`
is about runs in which one recovery raises marks between the check of another and its binding, and about what no command then accepts.

**Idempotency receipts** (`Receipts`). The receipt table, the owner's lease, and what every history of calls by any number of
owners, stale ones included, is told.

**Around them**: the recovery sweep with its resumable cursor (`Sweep`), cursor-paged deposits (`Events`, `Deposits`), the bounded
read of a transaction's effects (`Effects`), change widening (`Widening`), request normalisation and plan validation (`Text`,
`Requests`, `Plans`), the overflow-guarded check of a note summary (`NoteSummary`) and the two token buckets (`RateLimit`).

Code that updates fields or loops is a class or a method with the same branches; each is proved against a function of the old state
or against a property, and the theorems are about that function.

## Assumptions the theorems name

- The signer: a definite refusal of a Sign call means that this call produced no signed bytes and never will
  (`SignEnabled`, case `ReplyDefinite`), and bytes made for a call sign exactly the plan of its attempt (`SignsPlan`).
  The malformed replies at internal/coordinator/signer.go:83, 104 and 111 are not shown to keep this promise.
- The chain: no transaction is mined above its expiry, no note is spent twice, a block that once had the default number of
  confirmations is permanent. A reorganisation may replace everything above.
- The node reports true confirmation counts, and the scanner answers truly about the chain whose tip the node reported at the start
  of a proof.
- One coordinator process. Any number of processes allocate addresses; none serves while the database is rolled back or wiped.
- The state machine lets recoveries overlap. The registry `Rebuild.Recover` ends in is stated for one recovery at a time.
- Derivation is deterministic; a batch deriver gives the answers of the single calls. Digests and JSON are functions, and a
  stored request decodes to what was encoded.
- Scanner streams grow by appending, and event ids increase along a stream. Each theorem that needs it says so; the ones
  about termination, cursors and caps hold for any scanner.

## Where the code is stricter or looser than a first reading

- `MarkAttemptState` (internal/storage/sqlite/attempts.go:393-441) can move a row out of the states that hold notes without releasing
  them. `CoordinatorInv.MarkKeepsNotesExactlyWhen` says exactly when a mark keeps the reservation table, and
  `CoordinatorInv.LeakingCallsBreakNotes` gives three store calls that break it. It also lets planning become reserved without a
  plan, which leaves the table as it is. The reservation invariant therefore holds of the steps the service takes, not of every
  sequence of store calls; `AttemptRuns` holds of every sequence.
- The evicting limiter forgets a bucket idle for ten minutes. It answers like the other one, and keeps the bound of burst plus rate
  times elapsed time, exactly when ten minutes refill a whole burst; for a larger burst `RateLimit.Comeback` is admitted twice the
  burst. The bound is not stated for times that run backwards in that limiter; in the other one it needs no order.
- Nothing locks recoveries against each other. A second one can raise a mark between the coverage check of the first and its binding
  (internal/lifecycle/lifecycle.go:226-242). `Overlaps.BindLosesNothingExactlyWhen` says over runs when the binding then leaves indices
  without a row or a skip, and `Overlaps.OverlapLosesAnIndex` is a run of seven steps that does. The next startup check refuses such a
  database and so does a recovery, because it is bound; `Overlaps.NeitherAcceptsExactlyWhen` says which databases neither accepts.
- The note summary check accepts some summaries no list of notes has; `NoteSummary.SummaryHasNotesExactlyWhen` says which.
- A page whose last event is below an earlier one can be reached only by stopping early at the limit; then the last check of the
  deposit handler (internal/api/api.go:895-898) is what refuses it.

## Model

| member | source | states |
|---|---|---|
| Attempts.Store.ClaimAttempt | internal/storage/sqlite/attempts.go:20-61 | a key is claimed once: a new row in planning with its request, approval and first log entry, a replay for the same digest, a conflict otherwise |
| Attempts.Store.SetAttemptChangeAddress | internal/storage/sqlite/attempts.go:174-203 | the change address is written once, in planning only |
| Attempts.Store.ReserveAttemptPlan | internal/storage/sqlite/attempts.go:249-306 | takes all notes of the plan or, when one is taken, rolls back to the unchanged tables; notes are stored sorted |
| Attempts.Store.InsertReservations | internal/storage/sqlite/attempts.go:283-291 | the insert loop succeeds exactly when no selected note is reserved, and then adds exactly those notes |
| Attempts.Store.BeginAttemptSigning | internal/storage/sqlite/attempts.go:308-347 | only reserved moves to signing; signing and its unknown state are left as they are |
| Attempts.Store.CompleteAttemptSigning | internal/storage/sqlite/attempts.go:349-391 | signed bytes are stored once, from a signing state, and the same bytes again change nothing |
| Attempts.Store.MarkAttemptState | internal/storage/sqlite/attempts.go:393-441 | the allowed transition, the release when it is safe, one log entry; a refused transition changes nothing |
| Attempts.Store.CancelAttempt | internal/storage/sqlite/attempts.go:443-481 | a planning or reserved attempt is cancelled and frees its notes; cancelling again is a no-op |
| AttemptRuns.ApplyKeeps | internal/storage/sqlite/attempts.go:534-589 | every store call keeps each log a legal path to its row's state and every write-once column |
| AttemptRuns.LogRefinesRow | internal/storage/sqlite/attempts.go:534-589 | over all sequences of calls each log starts at planning, moves by allowed transitions or a cancellation, and ends in the row's state |
| AttemptRuns.WrittenOnce | internal/storage/sqlite/attempts.go:249-481 | between any two points of any sequence terminal states absorb, the log grows, and request, approval, change address, plan and signed bytes keep their first value; the fee is fixed from the reservation to the signing, which writes it once more, and again from then on |
| AttemptReplies.ClaimIsAnswered | internal/storage/sqlite/attempts.go:20-61 | over every history, a key claimed before is replayed to the same digest and refused to any other without a change; a new key with a new id creates the attempt; everything else is rejected |
| AttemptReplies.ClaimIsStored | internal/storage/sqlite/attempts.go:20-61 | from its claim on an attempt is found under its key and its row says what the claim said |
| AttemptReplies.AcceptedIsForGood | internal/storage/sqlite/attempts.go:174-481 | the change address, the plan's digest, the signed bytes and a terminal state that the store accepted stay, whatever is called later |
| AttemptReplies.RepeatChangesNothing | internal/storage/sqlite/attempts.go:20-481 | any call made twice in a row leaves the tables as if it had been made once |
| AttemptReplies.AcceptedByTheLog | internal/storage/sqlite/attempts.go:174-481 | which calls are accepted, by the last entry of the attempt's log |
| AttemptReplies.PhasesComeInOrder | internal/storage/sqlite/attempts.go:534-589 | over every history, an attempt that was broadcast, mined, orphaned, expired, final or released was signed before, signing before that and reserved before that |
| CoordinatorInv.ReserveKeepsNotes | internal/storage/sqlite/attempts.go:249-306 | a reservation from planning keeps the table exactly the notes of the holding attempts; a failed one changes nothing |
| CoordinatorInv.MarkKeepsNotesExactlyWhen | internal/storage/sqlite/attempts.go:393-441 | a mark keeps the table exact if and only if its transition is not allowed, it asks for a release, or its row does not stop holding notes |
| CoordinatorInv.LeakingCallsBreakNotes | internal/storage/sqlite/attempts.go:393-441 | claim, reserve a note, mark failed without release: the table is exact before the mark and not after |
| CoordinatorInv.CancelKeepsNotes | internal/storage/sqlite/attempts.go:443-481 | a cancellation keeps the table exact |
| CoordinatorSteps.PlanKeeps | internal/coordinator/service.go:385-480 | every step of planning, the lock, the exclusions and the reservation, keeps the invariant of the whole system |
| CoordinatorSteps.RefusalKeeps | internal/coordinator/service.go:482-538 | after a definite refusal notes are freed only when no earlier call of the attempt is in doubt |
| CoordinatorSteps.SignKeeps | internal/coordinator/service.go:482-538 | every step of signing, with the call in flight at any point, keeps the invariant |
| CoordinatorSteps.ConfirmedIsSettled | internal/coordinator/service.go:556-606 | a transaction with the default confirmations is in a permanent block |
| CoordinatorSteps.UnspentIsBuried | internal/coordinator/service.go:608-642 | notes unspent at a tip that is past expiry by the default confirmations are unspent in every permanent block up to the expiry |
| CoordinatorSteps.SettleKeeps | internal/coordinator/service.go:540-642 | every step of reconciliation, at stale views and across reorganisations, keeps the invariant |
| CoordinatorSteps.CancelKeeps | internal/coordinator/service.go:176-198 | a user cancel at any moment keeps the invariant |
| CoordinatorSteps.NextKeeps | internal/coordinator/service.go:324-383 | every step of the system, crashes, new bytes and chain changes included, keeps the invariant |
| CoordinatorSafety.RunKeepsInv | internal/coordinator/service.go:272-383 | the invariant holds in every state of every run |
| CoordinatorSafety.StepIsStoreCall | internal/coordinator/service.go:355-651 | every step of the system changes the tables by at most one call of the store |
| CoordinatorSafety.RunIsCallSequence | internal/coordinator/service.go:355-651 | the tables of every state of every run are those of a sequence of store calls, growing along the run, so what holds of all call sequences holds of all runs |
| CoordinatorSafety.RunKeepsLog | internal/storage/sqlite/attempts.go:534-589 | in every run the event log refines the rows |
| CoordinatorSafety.ReleasedIsNeverMined | internal/coordinator/service.go:608-642 | once an attempt is released, nothing ever signed for it is mined at any later point of the run |
| CoordinatorSafety.FinalIsSpentForGood | internal/coordinator/service.go:594-606 | once an attempt is final, its transaction stays in a permanent block and nothing else ever spends its notes |
| CoordinatorSafety.SpendableBytesHoldTheirNotes | internal/coordinator/service.go:482-642 | while signed bytes could be mined their attempt owns every note they spend; otherwise they can never be mined or already are for good |
| CoordinatorSafety.ReservationsAreTheHeldNotes | internal/storage/sqlite/attempts.go:249-306 | in every reachable state the reservations are exactly the union of the notes of the attempts in the eight holding states, each note reserved for an attempt that selected it |
| CoordinatorSafety.HoldersShareNoNote | internal/storage/sqlite/attempts.go:283-291 | in every reachable state each holding attempt has notes and no two share one |
| CoordinatorSafety.LostCallIsSticky | internal/coordinator/service.go:482-538 | an attempt with a Sign call whose reply was lost is never again planning, reserved, cancelled or failed, and keeps its notes until final or released |
| CoordinatorSafety.SignedBytesAreSticky | internal/coordinator/service.go:482-538 | the same from the moment the signer made bytes, whether or not anybody still waits for them |
| CoordinatorSafety.PlanReservesFirstTry | internal/coordinator/service.go:385-477 | under the wallet lock a plan that avoids the excluded notes reserves at the first try unless the attempt was cancelled |
| Verdicts.VerdictsAreAnswered | internal/coordinator/service.go:540-642 | in every run, a row enters mined or final only if its transaction was on the node's chain when asked, with fewer than the default confirmations or as many; broadcast or orphaned only if the node said so; expired only if the node said so or the tip is above the expiry; released never for a confirmed transaction |
| Verdicts.PassIsRecorded | internal/coordinator/service.go:540-592 | in every run, a reconcile pass whose write goes through leaves mined, broadcast, orphaned or expired as the answer and the tip ask, and nothing else changed |
| Verdicts.FollowLeadsOn | internal/coordinator/service.go:540-592 | where each answer leads: to the proof of finality, to the proof for a release, to the expiry check, or to the end of the pass |
| Verdicts.ExpiryIsRecorded | internal/coordinator/service.go:576-592 | off the chain, a tip above the expiry is recorded, and the worker asks for the release proof in any case |
| Verdicts.ProofIsRecorded | internal/coordinator/service.go:594-651 | a proof that goes through settles the attempt and frees its notes and no others: final after an answer with the default confirmations, released after one that found the transaction on no chain |
| Verdicts.ProofIsEnough | internal/coordinator/service.go:594-642 | what the scanner has to say before a conclusion, and that nothing else is asked for |
| Passes.StateIsTakenUp | internal/coordinator/service.go:355-383 | which step each state leads to, for three turns; terminal attempts are left alone |
| Passes.PlanningLeadsOn | internal/coordinator/service.go:385-480 | planning works only on an attempt in planning, under the wallet's lock, with one change address, excluding exactly the wallet's reserved notes, and reserves the plan it was given |
| Passes.PlanIsReserved | internal/coordinator/service.go:470-480 | a reservation that meets free notes takes exactly them; one that meets a taken note changes nothing and the worker plans again; the lock is free exactly when planning is over |
| Passes.FailureIsRecorded | internal/coordinator/service.go:385-480 | planning that fails for good ends the attempt, any other failure leaves it in planning; both keep the error and free the lock |
| Passes.RejectionIsRecorded | internal/coordinator/service.go:482-497 | a stored plan that fails its check before any Sign call ends the attempt and frees its notes; after signing may have begun it never does |
| Passes.BeginLeadsToSigner | internal/coordinator/service.go:482-503 | a checked attempt goes to the signer in signing, or in the state it was signing in, and is certain only if it was reserved |
| Passes.RefusalIsRecorded | internal/coordinator/service.go:504-527 | in every run, a definite refusal gives the attempt back with its notes when retryable, fails it and frees them when not, and only notes the doubt when an earlier call is unanswered |
| Passes.DoubtIsRecorded | internal/coordinator/service.go:504-521 | a reply that settles nothing leaves the attempt in doubt with its notes |
| Passes.BytesAreStored | internal/coordinator/service.go:528-538 | signed bytes that reach the worker are stored with what the signer said of them |
| Passes.CancellationIsForGood | internal/coordinator/service.go:176-198 | a cancellation takes effect exactly in planning or reserved; from then on the attempt owns no note and no bytes are ever signed for it |
| Ledger.VerifyManifest | internal/installation/state.go:359-370 | accepts exactly the manifests whose skip lists strictly increase below the mark, with marks within the index space |
| Ledger.VerifyAddressCoverage | internal/lifecycle/lifecycle.go:394-426 | success means that rows and skips cover exactly the indices below the mark, for any two lists; for strictly increasing lists the converse holds |
| Ledger.Search | internal/installation/state.go:216-219 | the binary search finds the first entry not below the index |
| Ledger.WithIndexIncreases | internal/installation/state.go:203-227 | marking an index keeps the list strictly increasing |
| Ledger.SpliceIsInsertion | internal/installation/state.go:220-222 | shifting the tail and writing into the hole is the ordered insertion of exactly that index |
| Ledger.Store.ReserveAddressIndex | internal/installation/state.go:177-198 | hands out the mark and raises it by one, within 32 bits |
| Ledger.Store.Splice | internal/installation/state.go:220-222 | the in-place shift on the array gives the ordered insertion |
| Ledger.Store.MarkAddressIndexSkipped | internal/installation/state.go:203-227 | adds exactly one reserved index to the skips, once, and keeps the manifest well formed |
| Ledger.Store.ClearSkippedAddressIndices | internal/installation/state.go:229-248 | empties every skip list and nothing else |
| Ledger.Store.RaiseHighWaterMarks | internal/installation/state.go:252-281 | raises every mark to its target or, when one is unknown or too large, none |
| Ledger.OperationsKeepManifest | internal/installation/state.go:177-281 | every operation keeps a well formed manifest well formed |
| Addresses.AddressStore.AllocateAddressAt | internal/storage/sqlite/sqlite.go:382-444 | writes the row of an index, or accepts the same row again, or changes nothing; also when the commit is not heard of |
| Addresses.AllocateAddress | internal/storage/guarded/guarded.go:38-54 | an address is handed out exactly when the ledger has room and is well formed, derivation yields an address no row of the wallet has, and the commit is heard of; it is then the index at the mark with its row in place; otherwise the index is accounted for by a row or a skip unless the mark failed |
| AddressSafety.NextKeeps | internal/storage/guarded/guarded.go:38-54 | every step of any process, crash, rollback or recovery keeps the allocation invariant; recovery steps need no guard but a row below a raised mark |
| AddressSafety.HandedOnce | internal/storage/guarded/guarded.go:38-54 | in every run no wallet index is handed to two callers, across crashes, rollbacks and overlapping recoveries |
| AddressSafety.EveryIndexAccounted | internal/installation/state.go:177-227 | for a bound database the rows, skips, allocations in progress and lost indices are exactly the indices below the mark |
| AddressSafety.OpensExactlyWhenNothingLost | internal/lifecycle/lifecycle.go:92-121 | after a restart the startup check accepts exactly a database bound to the ledger's installation of which nothing was lost |
| AddressSafety.NoAddressTwice | internal/storage/sqlite/sqlite.go:382-444 | in every run no two indices of a wallet have the same address |
| AddressSafety.AllocationHandsOut | internal/storage/guarded/guarded.go:38-54 | an allocation nothing stands in the way of ends with its slot handed out and its address stored |
| AddressSafety.BoundGrewFromEmpty | internal/storage/sqlite/sqlite.go:659-762 | in every run a database is bound only to an installation whose recovery or initialisation started on it while it was empty |
| Recovery.DerivedIsGood | internal/lifecycle/lifecycle.go:383-392 | a derivation that is accepted yields trimmed, non-empty, pairwise different addresses |
| Recovery.DerivedExactlyWhen | internal/lifecycle/lifecycle.go:329-392 | a derivation is accepted if and only if every call yields an address with the network's prefix and no two are the same once trimmed |
| Recovery.ForEachDerivedAddress | internal/lifecycle/lifecycle.go:329-381 | batches and single calls accept the same derivations and visit the same addresses, with no 32-bit wrap |
| Recovery.ExtendWalks | internal/lifecycle/lifecycle.go:343-366 | a batch is walked exactly like the single calls it answers |
| Rebuild.CheckMapping | internal/lifecycle/lifecycle.go:146-166 | the mapping is approved exactly when it is what derivation yields below every target |
| Rebuild.RebuildWallet | internal/lifecycle/lifecycle.go:210-225 | the writes of one wallet, restarted anywhere, end with exactly its rows |
| Rebuild.AddressIndices | internal/storage/sqlite/sqlite.go:468-489 | lists the indices of one wallet in ascending order, all of them |
| Rebuild.Conclude | internal/lifecycle/lifecycle.go:226-242 | once every wallet is done, clearing, checking and binding end in the rebuilt registry, or crash in a resumable one |
| Rebuild.RebuiltIsUnique | internal/lifecycle/lifecycle.go:168-243 | only one registry ends a recovery, so an interrupted one ends where a clean one does |
| Rebuild.RebuiltServes | internal/lifecycle/lifecycle.go:92-121 | a rebuilt registry passes the startup check without skips and its next allocation is the target |
| Rebuild.Approve | internal/lifecycle/lifecycle.go:172-198 | what is checked before any write, in its order; an order is let through exactly when the predicate `Approves` holds, which `Rebuild.ApprovesExactlyWhen` spells out |
| Rebuild.ApprovesExactlyWhen | internal/lifecycle/lifecycle.go:123-198 | the checks pass if and only if the database is unbound, the ledger is well formed and of the configured wallets, the overrides name them and move no mark back or out of the index space, and the mapping is the derivation up to the override or else the mark |
| Rebuild.Execute | internal/lifecycle/lifecycle.go:200-242 | every durable write is an enabled step of the allocation state machine, whatever the database holds, and a completed binding loses nothing |
| Rebuild.Recover | internal/lifecycle/lifecycle.go:168-243 | refuses without writing, exactly for an order that is not admissible, a bound database, or one that is not empty and has another marker; otherwise an empty or half rebuilt database ends, given enough writes, with each mark at its override or where it was, exactly the rows below it and the database bound; fails half way only on a database with this recovery's marker whose content is not part of it |
| Rebuild.RecoverWithRestarts | internal/lifecycle/lifecycle.go:168-243 | crashing after any write and recovering again, any number of times, ends in the same registry, and does end given enough writes; all its writes are one sequence of steps of the allocation state machine |
| Overlaps.BindLosesNothingExactlyWhen | internal/lifecycle/lifecycle.go:226-242 | in every run without a rollback or a wipe in between, a binding whose coverage check read an earlier ledger loses nothing if and only if every index reserved since has its row |
| Overlaps.OverlapLosesAnIndex | internal/lifecycle/lifecycle.go:226-242 | two overlapping recoveries of a wallet without addresses: the check of the first passes, it binds, index 0 is lost, and the startup check refuses whatever rows are listed |
| Overlaps.NeitherAcceptsExactlyWhen | internal/lifecycle/lifecycle.go:92-198 | in every reachable state with nothing in progress serving and a well formed recovery are both refused exactly when the database is bound elsewhere, is bound here with something lost, or is unbound, not empty and without this installation's marker |
| Receipts.Store.ClaimReceipt | internal/storage/sqlite/sqlite.go:491-538 | a key is acquired when new or when its lease ran out, with the next generation; otherwise replay, in progress or conflict, and nothing changes |
| Receipts.Store.RenewReceipt | internal/storage/sqlite/sqlite.go:562-571 | only the current owner of a row in progress renews |
| Receipts.Store.CompleteReceipt | internal/storage/sqlite/sqlite.go:573-582 | only the current owner completes, and fixes the response |
| Receipts.Store.AbandonReceipt | internal/storage/sqlite/sqlite.go:584-593 | abandoning moves the generation past its owner and frees the key |
| Receipts.Lease.Stop | internal/api/api.go:1338-1346 | stopping twice reports the first outcome |
| Receipts.Lease.Finish | internal/api/api.go:1348-1365 | reports success if and only if the lease was not finished, its renewals worked, it still owned the receipt and the commit was heard of; the receipt then replays this response; a finished or lost lease leaves the store alone |
| Receipts.Lease.GiveUp | internal/api/api.go:1367-1378 | abandons once, and only while the lease is held |
| Receipts.GenerationsIncrease | internal/storage/sqlite/sqlite.go:491-538 | over any history the generations acquired for a key strictly increase |
| Receipts.SupersededIsRefused | internal/storage/sqlite/sqlite.go:491-593 | once a later claim has acquired the key, whatever the earlier claimant still sends is refused and changes nothing |
| Receipts.StaleOwnersAreFenced | internal/storage/sqlite/sqlite.go:562-593 | a passed generation can never renew, complete or abandon again |
| Receipts.AbandonPasses | internal/storage/sqlite/sqlite.go:584-593 | whatever an owner sends after abandoning is refused |
| Receipts.CompletedOnce | internal/storage/sqlite/sqlite.go:573-582 | at most one completion of a key ever succeeds |
| Receipts.CompletionIsReplayed | internal/storage/sqlite/sqlite.go:491-538 | every later claim with the same digest replays exactly that response; another digest is a conflict |
| Receipts.FirstClaimAcquires | internal/storage/sqlite/sqlite.go:491-507 | a key nobody acquired is free for any claim |
| Receipts.LeaseIsExclusiveWhileItRuns | internal/storage/sqlite/sqlite.go:509-538 | over every history, while the lease last granted runs a claim is told that the key is in progress and changes nothing; once it has run out a claim takes over with the next generation |
| Receipts.OnlyTheOwnerIsHeard | internal/storage/sqlite/sqlite.go:562-593 | until somebody takes the key over, a renewal, completion or abandonment succeeds if and only if it is the owner's |
| Receipts.AbandonedIsFree | internal/storage/sqlite/sqlite.go:584-593 | an abandoned key is free for the next claim with its digest however fresh the lease was |
| Sweep.RecoverableAttempts | internal/storage/sqlite/attempts.go:74-95 | the first recoverable attempts after the cursor, in order and without gaps; limits outside 1 to 1000 are refused |
| Sweep.Scheduler.ScheduleRecoverable | internal/coordinator/service.go:272-312 | one tick queues the due attempts of its page up to the first refusal, and moves or resets the cursor accordingly |
| Sweep.Scheduler.OfferPage | internal/coordinator/service.go:294-308 | the loop stops before the first refused attempt with the cursor on the one before |
| Sweep.Scheduler.Enqueue | internal/coordinator/service.go:314-322 | a full queue refuses and stays as it is |
| Sweep.PassMakesProgress | internal/coordinator/service.go:292-311 | a pass moves the cursor forward or ends the sweep unless its very first attempt is refused; then nothing changes |
| Sweep.NoAttemptIsSkipped | internal/coordinator/service.go:272-312 | between two resets every attempt that was in no terminal state throughout is queued, or was in doubt and touched less than a minute before, and none at or below the cursor was skipped, for any limits and refusals |
| Sweep.OnlyTheDueAreQueued | internal/coordinator/service.go:292-311 | a pass queues each attempt once and in order, beyond the cursor, in no terminal state and not too early |
| Sweep.SweepEnds | internal/coordinator/service.go:272-312 | over a table that stands still an unblocked sweep has at most one pass per attempt before it resets |
| Deposits.HandleDeposits | internal/api/api.go:827-899 | the handler from the scanner's answer on, with every check in its order, is the function the theorems are about |
| Deposits.ListEvents | internal/api/api.go:846-888 | the event loop is the recursive reading: refuse, skip, list, stop at the limit |
| Deposits.ReadLists | internal/api/api.go:846-888 | reading clean events lists exactly the matches among those passed, fewer than the limit only at the end |
| Deposits.ServedIsForward | internal/api/api.go:839-899 | whatever a scanner answers, a served page is within the limit, strictly increasing, and its cursor moves exactly when there were events |
| Deposits.FollowingIsFiltering | internal/api/api.go:827-899 | following the cursor with any limits over a growing stream yields exactly the plain filter of what was passed, once each and in order; an empty page means all of it |
| Deposits.FollowingMissesNothing | internal/api/api.go:827-899 | a caller who follows the cursor to an empty page holds exactly the deposits the ledger knows and the filters ask for, once each and in order |
| Deposits.ServedIsAccepted | internal/api/api.go:846-888 | whatever a scanner answers, what is served is the filter of the events passed, and no unsound deposit or one with another index than the ledger's is passed over |
| Deposits.ListsExactlyTheReported | internal/api/api.go:858-880 | the filter lists exactly the items that report an event: a sound deposit to a known address under its index with the status and address asked for |
| Effects.TakeEvent | internal/api/api.go:1096-1115 | an event is refused exactly when it does not move on or is not acceptable for the transaction |
| Effects.TakePage | internal/api/api.go:1096-1124 | a page is taken whole and in order, or the cap is exceeded |
| Effects.WalletEffects | internal/api/api.go:1077-1129 | ends against any scanner, with sound events of the transaction under the ledger's indices only; against an honest one returns every event of the transaction at the last read, in order, or the limit error when there are more than the cap |
| Effects.AcceptableExactlyWhen | internal/api/api.go:1096-1115 | which events of a transaction are accepted |
| Effects.EffectIsTheEvent | internal/api/api.go:1096-1115 | an effect is its event, with the ledger's index for a registered deposit, which the scanner never contradicts |
| Widening.SplitPolicy | internal/coordinator/inventory.go:176-196 | the deficit is the target less the spendable notes that are not reserved; any failed read leaves change whole |
| Widening.UnspentAmongCounts | internal/coordinator/inventory.go:176-196 | reserved notes count once each when the scanner calls them unspent, and not otherwise |
| Widening.Widen | internal/coordinator/service.go:450-469 | the loop ends covered or on a failed wider plan, never by its counter, keeps the plan of its split, and below the widest split the change makes up the spends and the deficit |
| Widening.TargetReachedExactlyWhenCovered | internal/coordinator/inventory.go:159-171 | below the widest split the target is reached exactly when the split covers the selection; at the widest as far as it can |
| Text.AmountsAreCanonical | internal/coordinator/types.go:321-326 | every 64-bit amount is read from exactly one text, its decimal without leading zeros |
| Text.TrimDropsOnlySpace | internal/coordinator/types.go:134-209 | trimming removes nothing but white space, and only at the ends |
| Requests.NormaliseOutputs | internal/coordinator/types.go:170-202 | the outputs are rewritten in place and accepted exactly when all are good and their total, kept without overflow, is within the maximum |
| Requests.NormaliseRequest | internal/coordinator/types.go:134-209 | the whole normalisation, both kinds of request; a rejected one may be half rewritten but would normalise to the same |
| Requests.NormalisedIsStable | internal/coordinator/types.go:134-209 | a normalised request normalises to itself |
| Requests.AcceptedExactlyWhen | internal/coordinator/types.go:134-209 | a request is accepted if and only if it names the wallet and an approval and asks for outputs, each an amount written as its decimal, within the maximum together, or for a split within it; what is accepted is the request with its texts trimmed |
| Requests.BytesOfText | internal/coordinator/types.go:134-145 | the length limited is that of the UTF-8 text |
| Requests.ApprovedTotal | internal/coordinator/types.go:54-63 | the outputs of an accepted request, split or not, are within the count and total positive and within the maximum |
| Plans.CheckOutputs | internal/coordinator/types.go:220-240 | a plan's outputs are the approved ones followed by nothing but own change |
| Plans.CheckNotes | internal/coordinator/types.go:243-259 | accepts exactly non-empty lists of well formed, pairwise different notes |
| Plans.Validate | internal/coordinator/types.go:211-269 | a plan passes exactly when header, outputs, fee, expiry and notes agree with the request |
| Plans.OutputsAgreeExactlyWhen | internal/coordinator/types.go:220-240 | outputs pass if and only if they are the approved ones of a withdrawal followed by own change, or exactly the notes of a split |
| Plans.ValidatesExactlyWhen | internal/coordinator/types.go:211-269 | a plan validates if and only if it is for this wallet on this chain, spends good notes, has a fee and an expiry, and its outputs pass |
| Plans.NothingElseIsPaid | internal/coordinator/types.go:220-240 | a passing plan for a withdrawal starts with all approved outputs and pays others exactly what they pay; one for a split pays nobody else anything, in as many notes of the amount as asked for |
| Plans.IntactExactlyWhen | internal/coordinator/service.go:482-497 | a row passes the check before signing if and only if its request decodes to its normal form and digest and its plan validates to the digest, fee, expiry and notes of the row |
| Plans.IntactPaysWhatWasApproved | internal/coordinator/service.go:482-497 | a row that passes is signed for nothing but what its stored request approved |
| Plans.SameStringSet | internal/coordinator/service.go:730-744 | comparing sorted copies is equality up to order, repetitions counted |
| Plans.CheckIntact | internal/coordinator/service.go:482-497 | the integrity check before signing: the row's stored request decodes to its digest, and its stored plan validates again, to what the row says, against that request and the row's change address |
| Plans.IntactUntilSigned | internal/coordinator/service.go:482-497 | in every run of the store an attempt claimed with a normalised request and reserved with the plan that validated against it passes that check until its bytes are signed, whatever else was called in between |
| NoteSummary.IsLowerHex64 | internal/domain/types.go:235-245 | accepts exactly 64 lower-case hexadecimal digits |
| NoteSummary.AddUp | internal/domain/types.go:183-193 | the guarded 64-bit sums exist exactly when the unbounded totals fit, and equal them |
| NoteSummary.SpendableOk | internal/domain/types.go:198-210 | the guarded products decide the bounds on the spendable value over unbounded integers |
| NoteSummary.BelowMinOk | internal/domain/types.go:221-232 | the guarded product decides the bound on notes below the minimum over unbounded integers |
| NoteSummary.ValidFor | internal/domain/types.go:178-233 | no expression overflows, and the check accepts exactly the summaries whose buckets add up over unbounded integers |
| NoteSummary.Partition | api/openapi.yaml:220-222 | the five buckets in the documented order partition every list of notes, by count and by value |
| NoteSummary.SummaryHasNotesExactlyWhen | internal/domain/types.go:178-233 | a summary is that of some list of notes if and only if it is accepted and tight: its extremes are two of the counted notes or the same one, and a single known expiry is both next and last |
| NoteSummary.OddSummaryIsAccepted | internal/domain/types.go:198-210 | one spendable note whose smallest value is below its largest is accepted, not tight, and the summary of nothing |
| NoteSummary.EverySummaryIsValid | internal/domain/types.go:178-233 | the summary of every list of notes whose totals fit and whose pending notes have not expired is accepted |
| RateLimit.CoordinatorLimiter.AllowRequest | internal/coordinator/http.go:399-419 | one request against the bucket that is never forgotten |
| RateLimit.ApiLimiter.AllowRequest | internal/api/ratelimit.go:25-51 | the same decision, then buckets idle for ten minutes are dropped every five |
| RateLimit.ApiLimiter.DropIdle | internal/api/ratelimit.go:43-47 | drops exactly the idle buckets |
| RateLimit.ForgottenExactlyWhen | internal/api/ratelimit.go:42-49 | a bucket is dropped exactly by a request more than five minutes after the last clean-up that finds it idle for more than ten |
| RateLimit.AdmissionsArePaid | internal/coordinator/http.go:399-419 | admissions plus the tokens left never exceed the burst plus what the elapsed time refilled, for times in any order |
| RateLimit.WindowBound | internal/coordinator/http.go:399-419 | between any request and any later admitted one at most burst plus rate times elapsed are admitted |
| RateLimit.AdmittedExactlyWhen | internal/coordinator/http.go:399-419 | a request is admitted if and only if it keeps the bound in every window that starts at an earlier request of its key, for times in any order |
| RateLimit.RunsAgree | internal/api/ratelimit.go:25-51 | for ordered times and a burst within ten minutes' refill the evicting limiter answers every sequence like the other |
| RateLimit.EvictionIsInvisibleExactlyWhen | internal/api/ratelimit.go:25-51 | they agree on every ordered sequence, starting at any time after the limiter was made, if and only if the burst is within ten minutes' refill |
| RateLimit.EvictingWindowBoundExactlyWhen | internal/api/ratelimit.go:25-51 | the evicting limiter keeps the window bound on every ordered sequence if and only if the burst is within ten minutes' refill; otherwise a comeback is admitted twice the burst |

## Left out

- Interleaving inside one worker step: the workers are a state machine on values, not objects; each step is one store transaction, one remote reply or one read.
- The automation seal and context cancellation in the coordinator: a worker may return at any point (`Leave`), which covers both.
- The replan loop's planner, `fundableWithoutReservations` and the notes_reserved failure: any planning failure is one nondeterministic step.
- `validateSignerResult` and `attemptView`: long conjunctions and a projection.
- `ActiveAttemptsByWallet`, readiness and lifecycle checks, configuration, scopes and authentication: settled by reading.
- HTTP, JSON, SQL, SHA-256, base64, file locks, permissions and atomic renames: a committed transaction or a locked manifest write is one step; digests and encodings are functions.
- Payload checks of one scanner event and the note id's format: one flag each (`Event.sound`, `PlanNote.wellFormed`).
- The cursor codec and its filter and epoch binding: `Deposits` starts from the decoded position.
- `backfillOne` and `ReconcileWallets`: their progress depends on scanner behaviour the code does not enforce.
- Wall-clock time zones and monotonic clocks: times are integers, and in `RateLimit` reals, so floating-point rounding is not modelled.
- The API limiter's `seen` field: it always equals `updated`, so one field stands for both.
- Registrations during a deposit listing: one caller's pages are read against one address book.
- Configuration changes between planning and signing: the integrity check uses the limits the request was accepted under.
- Rebuild.RebuildWallet: labels, timestamps and birthdays of rows are not modelled.
- Liveness of the coordinator (that an attempt is eventually settled): it depends on the node, the scanner and the signer answering.
