# A verified model of the go-odtbank ledger

The bank keeps no balances. It keeps a stream of events per account, and beside the streams a table of holds, a set of
posted transfers, a table of compliance decisions, the transfer records, the adjustment requests and a cache of
snapshots. The same money is written down in several of these places, by small atomic store calls and not by one
transaction. This project models the store, the transfer saga and the clients as one transition system, proves that
the places always agree, and proves the code that makes the calls against that system.

## How it is built

`Domain`, `Replay`, `Ledger` and `Saga` give the meaning: the entities, the fold of a stream, each store method as one
step on a `Store` value, and `Process` cut at its store calls. `System` interleaves any number of workers and clients
between any two store calls, with crashes and failing calls. `MemoryStore`, `Services`, `ClientServices` and
`AccountRepository` are the source's classes, with the same fields, branches and loops; each method is proved to do the
step that `Ledger` or `Saga` specifies, and `ServedRuns` shows that a call of `Process` or `ProcessDue` is a run of
`System`; so the theorems about runs speak about these methods.

The results are layered by what they assume.

- `Bookkeeping`, `Adjustments`, `AnyWorkers`, `Publication`, `Conservation`, `Idempotency`: nothing. Any number of
  workers, records as stale as they like, crashes anywhere, store calls that fail without effect.
- `OneWorker`, `Solvency`, `SafeRuns`, `Overflow`: one worker, as the server starts it (cmd/server/main.go:52), store
  calls that fail only as the memory store's do, and the rule that funds which were given back are not approved any
  more.
- `Crashes`: where that rule comes from. Without crashes it always holds. With crashes it holds if the compliance
  check gives each transfer one verdict.
- `Progress` and `Recovery`: termination of the saga, recovery from crashes, and that the rule is exact.
- `SolventRuns` and `FailingRecovery`: solvency, failed transfers and recovery where any store call may fail; exactly
  what must be lost before they break.
- `CrashExample`, `ManualReversals` and `RequestExamples`: runs and inputs that break what the others assume.
- `StoreLaws`, `ProcessLaws`, `ReviewLaws`, `Origins`: what each store call, each call of `Process` and each review does,
  in balances and records, and that every event says where it came from.
- `SnapshotReads`: the cached read under races with everything in `System`.
- `Postgres`, `PostgresTransactions`, `PostgresBank`, `PostgresMirror`, `Locks`: the keyed event table, optimistic
  transactions, every run on them as a run of `System` and conversely, and the lock order.
- `PostgresSafety` and `PostgresExamples`: solvency, failed transfers, recovery and unique requests on the tables.
- `MoneyText`, `Pbkdf2`, `Text`: the decimal amounts and the key derivation. `Sums` and `Trails` are helpers.

## What the proofs found

- Releasing a hold and failing the record are two store calls (internal/service/transfer_service.go:163-169 and
  177-179). A crash between them leaves a pending record whose funds are free. If the compliance checker approves it
  after the restart, the transfer is posted without a hold, the account can be overdrawn, and the transfer is stuck
  before capture for ever (`CrashExample.ChangedVerdictOverdraws`). `Progress.ApprovalAgreesIff`,
  `Solvency.PostSolventIff`, `Progress.ApprovalCompletesIff` and `Progress.VerdictEndsIff` say exactly when an approval
  keeps agreement and solvency, completes and ends. The verdict need not change for that: if the decision cannot be
  recorded five times, the worker gives the funds back, and if then the failing update is lost, the next approval
  overdraws (`CrashExample.LostUpdateOverdraws`, on the tables `PostgresExamples.LostUpdateOverdrawsTables`). Nothing
  else makes the bank insolvent (`SolventRuns.SolventUnlessStranded`, `PostgresSafety.TablesSolventUnlessStranded`).
- The release on the way to a failed record drops its error (internal/service/transfer_service.go:163-164 and 175-177).
  On Postgres one deposit committed between the release's read and its insert makes it collide; the record fails all
  the same and its funds stay on hold for good (`PostgresSafety.DroppedReleaseIff`, `PostgresExamples.DepositKeepsHold`,
  `PostgresSafety.TablesHoldForGood`). That takes one worker, and nothing has to err or die. As long as no such release
  is lost, a failed transfer holds nothing (`PostgresSafety.TablesFailClean`).
- The available balance may be negative between posting and capture. The invariant is that the balance covers the
  holds that are not posted yet.
- A manual adjustment request may name an original transfer and carry any fee
  (internal/service/adjustment_service.go:14-37). It is stored without a look at that transfer
  (internal/eventstore/memory_store.go:153-157) and booked like a reversal, with its own fee (254-258), so it can create
  money, overdraw an account, and stand beside a reversal of the same transfer (`ManualReversals.AnyFeeIsBooked`,
  `RequestExamples.ManualReversesAgain`). The documented manual request names no transfer (README.md:326-336), and the
  runs assume that. What the others break, and exactly when they do not, is said for uniqueness by
  `Adjustments.RequestKeepsReversedOnceIff`, for conservation by `ManualReversals.ApprovalConservesIff` and for solvency
  by `ManualReversals.ApprovalSolventIff`.
- A request keeps the `reviewed_by` its author sent until it is reviewed, so only a reviewed request is known to have
  been reviewed by somebody else. The Postgres store does not insert that column.
- Any request may carry a reference to an event, but only for a reversal of that event does the memory store look for
  another one. Reversals of an event are unique; requests that name it are not (`RequestExamples.EventIsNamedTwice`),
  and `Adjustments.RequestKeepsEventsNamedOnceIff` says exactly which request breaks that. On the Postgres tables they
  are unique (`PostgresSafety.RepeatedCheckNeverRefuses`).
- `Money.String` of the least int64 has three signs, and `ParseMoney` still reads it back. It lets a sign pass in either
  half of an amount, and with a second minus the test for too large amounts does not see that the amount is too large:
  it wraps (`MoneyText.SecondSignWraps`; exactly when not, `MoneyText.AmountIsExactIff`).
- Deposits have no upper limit, so a balance can overflow (`Overflow.DepositsCanOverflow`); a credit does so exactly
  when it exceeds what is left below 2^63 (`Overflow.CreditFitsIff`). Up to a total of 2^63 - 1 cents brought in, no
  balance does.
- The 30 second cap after posting (internal/service/transfer_service.go:182-184) never applies: the delay is at most 16.
- The Postgres store differs from the memory store in four places, and each has its exact condition.
  `UpdateTransferSaga` reports an unknown id as "not updated", not as an error (`PostgresTransactions.UpdatesAgreeIff`).
  `PostTransferLedger` does not check that the accounts exist (`PostgresTransactions.PostsAgreeIff`), but the saga never
  posts where they do not. The unique indexes on requests do not ask for the kind, so Postgres refuses some requests
  that the memory store accepts (`PostgresTransactions.RequestsAgreeIff`). Approving a reversal repeats the uniqueness
  check (`PostgresTransactions.ApprovalsAgreeIff`), which because of the indexes never refuses anything.

## Model

| member | source | states |
|---|---|---|
| Crashes.SagaIsSafeWithoutCrashes | internal/service/transfer_service.go:108-186 | one worker, no crash, a compliance checker that may answer differently at every call, any interleaving of clients: in every reachable state no prefix of any stream has a negative balance; open unposted holds never exceed the balance; step and status fix hold, posting and decision (completed: approved, posted, captured; failed: never posted, nothing on hold); the source stream spells a prefix of `Held Freed` or `Held [Fee] Paid Captured` with the amounts of the record, the destination has one credit exactly when the transfer is posted |
| Crashes.SagaIsSafeUnderVerdicts | internal/service/transfer_service.go:108-186 | the same with crashes between any store calls, if each transfer has one fixed verdict (approve, reject or a given error) |
| SafeRuns.SagaIsSafe | internal/service/transfer_service.go:108-186 | the same in every run that respects one rule: a transfer whose funds were given back is not approved, unless a refusal is on record |
| SafeRuns.SafeStep | internal/service/transfer_service.go:108-190 | every single step of worker or client keeps the invariant behind it, given the rule |
| SafeRuns.SafeRun | internal/service/transfer_service.go:94-107 | so do whole runs |
| Crashes.WithoutCrashes | internal/service/transfer_service.go:118-137 | in undisturbed runs the rule holds by itself, for every compliance checker |
| Crashes.UnbrokenStep | internal/service/transfer_service.go:158-186 | the step behind it: funds are given back only on the way to a failed record |
| Crashes.FixedVerdicts | internal/service/transfer_service.go:118-137 | with crashes between any two store calls it holds under fixed verdicts |
| Crashes.CrashesDoNotShow | internal/service/transfer_service.go:108-190 | under fixed verdicts, in every reachable state, a finished transfer that ever held funds has exactly the final status, failure code and tagged events that its terms and verdict determine; one that never did has failed and left no event |
| Recovery.EveryTransferRecovers | internal/service/transfer_service.go:108-190 | crash recovery over whole runs: from every state reached under fixed verdicts, with crashes between any store calls and any clients in between, nine calls with its verdict bring a transfer to a final status with exactly that trace |
| Recovery.CutAndResumed | internal/service/transfer_service.go:108-190 | crash recovery call by call: cut `Process` after any store calls, any number of times, then let it run; it ends, and with the same final status, failure code and tagged events on every account as if it had never been cut |
| Recovery.InterruptionsDoNotShow | internal/service/transfer_service.go:108-190 | however two series of attempts from the same state are cut, if both finish the transfer they leave the same trace |
| Recovery.SeriesLeaves | internal/service/transfer_service.go:108-190 | that trace is decided by the verdict and by the balances where the attempts start: without a hold, a missing account or a balance beyond the open holds that does not cover amount and fee fails the transfer with that code and no event |
| Recovery.NineCallsRecover | internal/service/transfer_service.go:108-190 | the ending of a transfer that a crash left pending, also with its funds already given back |
| Recovery.EveryPassReduces | internal/service/transfer_service.go:94-107 | in every state reached under fixed verdicts, crashes included, a pass of `ProcessDue` lowers the summed measure by at least one per listed transfer |
| CrashExample.ChangedVerdictOverdraws | internal/service/transfer_service.go:163-169 | a concrete run, with one worker and one crash between release and the failing update, after which the verdict changes: the transfer is posted without a hold and the account is overdrawn |
| CrashExample.LostUpdateOverdraws | internal/service/transfer_service.go:173-180 | another one, in which the compliance checker approves all the time: the decision cannot be recorded five times, the funds are given back, and the failing update is lost |
| SolventRuns.SolventRunIff | internal/eventstore/memory_store.go:354-447 | any number of workers, crashes and failing store calls anywhere: a run is solvent in all its states if and only if it contains no posting whose funds are not on hold and that takes more than the source has beyond what it has promised |
| SolventRuns.SolventStepIff | internal/eventstore/memory_store.go:354-447 | the step behind it: whatever is done next, solvency is lost if and only if it is such a posting |
| SolventRuns.SolventUnlessStranded | internal/service/transfer_service.go:158-190 | one worker, any verdicts, crashes and failing store calls anywhere: every state is solvent as long as no failing update is lost after the funds were given back |
| SolventRuns.AllBackedStep | internal/service/transfer_service.go:108-190 | the invariant behind it: a transfer on the way to its posting has its funds on hold or is posted, or its failing update comes next |
| SolventRuns.FailedHoldsNothing | internal/service/transfer_service.go:158-190 | one worker: as long as no release on the way to failing and no update of a new hold or posting is lost, a failed transfer was never posted and has nothing on hold |
| SolventRuns.AllCleanStep | internal/service/transfer_service.go:108-190 | every step that loses none of these keeps what that rests on |
| SolventRuns.HeldForGood | internal/service/transfer_service.go:94-107 | what a failed transfer has on hold stays on hold in every continuation of the run |
| FailingRecovery.EveryTransferRecoversIff | internal/service/transfer_service.go:108-190 | crash recovery where store calls fail: from every state reached under fixed verdicts, with crashes and failing calls anywhere, nine calls with its verdict finish a pending transfer, with exactly the trace that terms and verdict fix, if and only if it is not an approved one whose funds were given back |
| FailingRecovery.EnduringStep | internal/service/transfer_service.go:108-190 | what every step keeps under fixed verdicts, also one that fails or dies |
| FailingRecovery.CountDoesNotShow | internal/service/transfer_service.go:173-186 | the attempt count of a record shows only where it can run out |
| Progress.ApprovalAgreesIff | internal/service/transfer_service.go:118-137 | the rule is exact for the agreement: after one approving call, record, hold, posting and decision agree if and only if the funds were on hold or a refusal was on record |
| Solvency.PostSolventIff | internal/eventstore/memory_store.go:382-401 | and for solvency: posting keeps the bank solvent if and only if the funds are on hold or the balance covers the amount beyond all it has promised |
| Progress.ApprovalCompletesIff | internal/service/transfer_service.go:118-137 | and for completion: a transfer that is approved from now on completes if and only if its funds are on hold and no refusal is on record |
| Progress.VerdictEndsIff | internal/service/transfer_service.go:108-186 | and for termination: nine calls with one verdict finish a pending transfer if and only if they are not approvals of a transfer whose funds were given back without a refusal |
| Progress.StuckForEver | internal/service/transfer_service.go:142-147 | posted without a hold, a transfer stays pending for ever |
| Progress.GivenBackNeverCompletes | internal/eventstore/memory_store.go:414-419 | funds once given back are never captured |
| Progress.RefusedNeverCompletes | internal/eventstore/memory_store.go:373-381 | a refusal on record is never overruled |
| OneWorker.CallAgrees | internal/service/transfer_service.go:108-186 | one store call keeps the agreement of record, hold, posting and decision and leaves the worker with an update that keeps it too |
| OneWorker.CallsSucceed | internal/service/transfer_service.go:138-147 | with one worker posting never misses an account and capture never meets the conflict branch |
| OneWorker.OthersUntouched | internal/eventstore/memory_store.go:354-431 | a store call of one transfer leaves record, hold, posting and decision of every other as they are |
| OneWorker.ClientsLeaveSaga | internal/eventstore/memory_store.go:150-309 | no client call changes a hold, a posting, a decision or an existing transfer record |
| Solvency.CallSolvent | internal/eventstore/memory_store.go:354-431 | each saga call keeps balance minus reserved-but-unposted holds at least zero, in every prefix of the stream |
| Solvency.ClientsSolvent | internal/eventstore/memory_store.go:433-447 | so does each client call, including a withdrawal that checked a stream it loaded earlier |
| Solvency.ApproveSolvent | internal/eventstore/memory_store.go:226-272 | so does the approval of an adjustment |
| Solvency.AvailableDipsUntilCapture | internal/eventstore/memory_store.go:382-431 | why the available balance is not the invariant: posting lowers it by amount plus fee while the hold stands, and capture brings it back |
| Progress.NineCallsSuffice | internal/service/transfer_service.go:108-186 | nine uninterrupted calls of `Process` with any answers finish a transfer that is not waiting with its funds given back, has a refusal on record, or is not approved in these calls |
| Progress.ServedToTheEnd | internal/service/transfer_service.go:173-186 | in general as many calls as the measure (remaining steps, five minus attempts) says |
| Progress.VerdictEnds | internal/service/transfer_service.go:108-186 | a transfer that has followed its verdict is finished by calls that repeat it, as the verdict calls for |
| Progress.FinishedServes | internal/service/transfer_service.go:108-190 | each uninterrupted call on a pending record lowers that measure and keeps the agreement |
| Progress.PassReduces | internal/service/transfer_service.go:94-107 | each pass of `ProcessDue` that respects the rule lowers the summed measure by at least one for every transfer it finds due |
| Progress.PassAtRest | internal/service/transfer_service.go:94-107 | at rest, with every waiting transfer on hold, it does so for all answers and leaves the store at rest |
| Progress.IdleIsAtRest | internal/service/transfer_service.go:94-107 | an undisturbed run is at rest whenever the worker is idle |
| AnyWorkers.StaleWorkersStaySafe | internal/eventstore/memory_store.go:325-431 | any number of workers with arbitrarily stale records and crashes anywhere: per account a transfer has at most one event of each kind, never both a capture and a release, and a completed one is approved, posted and captured by the amounts of its record |
| AnyWorkers.FailingKeeps | internal/service/transfer_service.go:158-186 | a store call that fails without effect leads to a retry or to the failing of the record, at the step it stands at |
| AnyWorkers.GrowsRun | internal/eventstore/memory_store.go:325-351 | over any run no event is lost, steps never move back, a final status, a finished hold, a decision and a review never change |
| AnyWorkers.CompletionPublishedOnce | internal/service/transfer_service.go:147-155 | the completion event of a transfer is published at most once, and only if the stored status is and stays completed |
| Publication.PublishedIffCompleted | internal/service/transfer_service.go:147-155 | in every reachable state, any number of workers and crashes: the completion of a transfer has been published if and only if its stored status is completed, and then once |
| Publication.CompletingCallPublishes | internal/service/transfer_service.go:147-155 | the call that turns a record to completed is the one that publishes it |
| AnyWorkers.PublishesOnce | internal/service/transfer_service.go:147-155 | a publishing call finds the record pending and leaves it completed |
| AnyWorkers.ReplayAgreesWithHolds | internal/domain/account.go:57-72 | in every reachable state event i of a stream has version i, and the replayed reserved balance is the sum of the holds still open on the account |
| AnyWorkers.ReversalsStaySound | internal/eventstore/memory_store.go:150-292 | in every reachable state at most one standing reversal of each transfer and of each event, a reviewed request was reviewed by somebody other than its author, and an accepted transfer reversal nets the transfer to zero on every account, fee included |
| AnyWorkers.HealthyStep | internal/eventstore/memory_store.go:150-447 | every action of any client or worker keeps all of this |
| Bookkeeping.ReserveKeeps | internal/eventstore/memory_store.go:354-372 | reserving keeps tables, streams, hold sums and trails in agreement, also when called again |
| Bookkeeping.PostKeeps | internal/eventstore/memory_store.go:382-401 | so does posting |
| Bookkeeping.FinishKeeps | internal/eventstore/memory_store.go:408-432 | so does capture or release |
| Bookkeeping.DecideKeeps | internal/eventstore/memory_store.go:373-381 | so does recording a decision |
| Bookkeeping.UpdateKeeps | internal/eventstore/memory_store.go:325-353 | so does the compare-and-set update of a record |
| Bookkeeping.AddTransferKeeps | internal/eventstore/memory_store.go:294-309 | so does creating a transfer, which also keeps source and key unique |
| Conservation.MoneyIsConserved | internal/eventstore/memory_store.go:226-447 | over every run the balances add up to openings + deposits - withdrawals + approved credits - approved debits - fees of posted transfers that are not reversed |
| Conservation.ConservedStep | internal/eventstore/memory_store.go:226-447 | every action keeps that equation |
| Overflow.NoOverflow | internal/domain/account.go:35-72 | if openings, deposits and approved credits together fit in int64, every balance and reserved amount of any prefix of any stream lies between 0 and MaxInt64, and folding it in int64 arithmetic gives the exact balance, reserved and available amounts |
| Overflow.WrappedIsExact | internal/domain/account.go:57-72 | the int64 fold and the exact fold agree on a stream whose prefixes all stay in range |
| Overflow.WrappedIsExactIff | internal/domain/account.go:57-72 | the int64 folds of a stream are exact if and only if int64 holds every balance and reserved amount on the way |
| Overflow.CreditFitsIff | internal/domain/account.go:57-72 | on a stream without overflow the next credit is exact if and only if its amount is at most MaxInt64 minus the balance |
| Overflow.EachCreditFitsIff | internal/eventstore/memory_store.go:254-258 | the same for a deposit, the leg of a transfer and an approved adjustment |
| Overflow.DepositFitsIff | internal/service/deposit_service.go:20-50 | the same for a deposit in every reachable state without overflow so far |
| Overflow.DepositsCanOverflow | internal/service/deposit_service.go:20-50 | a reachable state in which a deposit has wrapped a balance to a negative one |
| Replay.SnapshotPlusTail | internal/domain/account.go:35-55 | a snapshot of one prefix plus the tail of another prefix is the replay of the longer of the two |
| Replay.ReplayAccountFrom | internal/domain/account.go:35-55 | the loops over the events, with and without a snapshot, compute the specified fold |
| Replay.ReplayAccount | internal/domain/account.go:27-29 | the replay of the whole stream |
| Replay.Account.Fold | internal/domain/account.go:57-72 | one event updates the account as specified |
| Adjustments.RequestKeepsIff | internal/eventstore/memory_store.go:150-204 | every request keeps the invariant if and only if it is not a manual one that names an original transfer and is stored |
| Adjustments.RequestKeepsReversedOnceIff | internal/eventstore/memory_store.go:153-168 | uniqueness of transfer reversals survives a request if and only if it is not a manual one naming a transfer already under reversal |
| ManualReversals.ApprovalConservesIff | internal/eventstore/memory_store.go:254-258 | approving a request that names an original transfer adds its fee to the total of all balances; the books still balance if and only if that is the fee kept for the transfer it names, none for an id that is no transfer |
| ManualReversals.ApprovalSolventIff | internal/eventstore/memory_store.go:254-258 | and the bank stays solvent if and only if what the account ends with covers what it has promised |
| ManualReversals.AnyFeeIsBooked | internal/service/adjustment_service.go:14-37 | at an input: for every int fee such a manual request is accepted, stored and approved; any fee but zero breaks conservation, a fee below -1 overdraws |
| RequestExamples.ManualReversesAgain | internal/eventstore/memory_store.go:153-168 | at a state that a run reaches: a reversal and a manual request of the same completed transfer both stand |
| Adjustments.RequestKeepsEventsNamedOnceIff | internal/eventstore/memory_store.go:150-204 | uniqueness over all standing requests that carry a reference to the same event survives a request if and only if it is not a manual one or a transfer reversal that repeats a standing reference |
| RequestExamples.EventIsNamedTwice | internal/eventstore/memory_store.go:153-158 | a run of the memory store in which a reversal of an event and a manual request that names it both stand |
| Adjustments.ApproveKeeps | internal/eventstore/memory_store.go:226-272 | an approval, granted or refused, keeps every invariant of ledger and adjustments |
| Adjustments.DeclineKeeps | internal/eventstore/memory_store.go:273-292 | so does a rejection |
| Adjustments.ReversalCancels | internal/eventstore/memory_store.go:254-264 | after approval the events of transfer plus reversal net to zero on each account, fee included |
| Adjustments.EventReversalCancels | internal/eventstore/memory_store.go:177-198 | an approved event reversal books the opposite of the event on its account and nothing elsewhere |
| Ledger.ApproveAdjustment | internal/eventstore/memory_store.go:226-272 | a failed approval changes nothing, and a granted one changes streams and adjustments only |
| Idempotency.ScanOrderDoesNotShow | internal/eventstore/memory_store.go:294-309 | because no two transfers share source and key, the scan gives the same answer and store for every map iteration order |
| Idempotency.OneTransferPerKey | internal/eventstore/memory_store.go:294-309 | a second call with the same key, at any later point of any run, changes nothing and returns the first transfer's id, or the conflict exactly when amount or destination differ |
| Idempotency.AnsweredByTheRecord | internal/eventstore/memory_store.go:297-305 | which of the two answers a repeated key gets |
| MemoryStores.MemoryStore.constructor | internal/eventstore/memory_store.go:35-48 | an empty store |
| MemoryStores.MemoryStore.CreateTransfer | internal/eventstore/memory_store.go:294-309 | the scan in any order returns the existing record, the conflict, or stores the new record |
| MemoryStores.MemoryStore.ListDueTransfers | internal/eventstore/memory_store.go:310-324 | distinct pending records whose next attempt is not after `now`, as stored, by creation time, at most `limit` (one, if it is smaller), and if fewer then every such record |
| MemoryStores.MemoryStore.UpdateTransferSaga | internal/eventstore/memory_store.go:325-353 | compare-and-set on step and pending status; empty compliance and zero balances keep the old values |
| MemoryStores.MemoryStore.ReserveTransferFunds | internal/eventstore/memory_store.go:354-372 | the atomic step Reserve, which StoreLaws.ReservesIff and ReservedIsHeld give in balances |
| MemoryStores.MemoryStore.RecordComplianceDecision | internal/eventstore/memory_store.go:373-381 | the atomic step Decide |
| MemoryStores.MemoryStore.PostTransferLedger | internal/eventstore/memory_store.go:382-401 | the atomic step Post |
| MemoryStores.MemoryStore.FinishReservation | internal/eventstore/memory_store.go:408-432 | the atomic step Finish, for capture and for release |
| MemoryStores.MemoryStore.CaptureTransferReservation | internal/eventstore/memory_store.go:402-404 | Finish toward captured |
| MemoryStores.MemoryStore.ReleaseTransferReservation | internal/eventstore/memory_store.go:405-407 | Finish toward released |
| MemoryStores.MemoryStore.WithdrawAvailable | internal/eventstore/memory_store.go:433-447 | check and debit in one step, with both balances |
| MemoryStores.MemoryStore.FindTransferReversal | internal/eventstore/memory_store.go:159-163 | found if and only if some request that is not rejected names the transfer |
| MemoryStores.MemoryStore.FindEventReversal | internal/eventstore/memory_store.go:174-178 | found if and only if some request that is not rejected names the event |
| MemoryStores.MemoryStore.CreateAdjustment | internal/eventstore/memory_store.go:150-204 | the request as normalised from what it reverses, or the error |
| MemoryStores.MemoryStore.ApproveAdjustment | internal/eventstore/memory_store.go:226-272 | the atomic step ApproveAdjustment |
| MemoryStores.MemoryStore.Book | internal/eventstore/memory_store.go:254-265 | the bookings of an approval, all of them or none |
| MemoryStores.MemoryStore.RejectAdjustment | internal/eventstore/memory_store.go:273-292 | the atomic step RejectAdjustment, which ReviewLaws.RejectsIff gives |
| MemoryStores.MemoryStore.ApproveApplication | internal/eventstore/memory_store.go:538-555 | opens the stream at version 0 with the requested deposit when the application was waiting; otherwise one of two errors and no change; no other customer is touched |
| MemoryStores.MemoryStore.Append | internal/eventstore/memory_store.go:576-588 | appends if the expected version is the length, else the conflict |
| MemoryStores.MemoryStore.Load | internal/eventstore/memory_store.go:591-599 | the stream as it is |
| MemoryStores.MemoryStore.SaveSnapshot | internal/eventstore/memory_store.go:617-626 | stores a snapshot only if it is newer |
| MemoryStores.MemoryStore.LoadSnapshot | internal/eventstore/memory_store.go:630-639 | the stored snapshot or the error |
| StoreLaws.ReservesIff | internal/eventstore/memory_store.go:354-372 | a transfer without a hold gets one if and only if both accounts exist and amount plus fee is at most balance minus open holds of the source; the two errors exactly otherwise, the account first; the answer is the balance |
| StoreLaws.ReservedIsHeld | internal/eventstore/memory_store.go:369-371 | the hold is for amount plus fee, raises what is reserved by it, leaves the balance and touches nothing else |
| StoreLaws.ReservedAgain | internal/eventstore/memory_store.go:357-359 | a second call does nothing and answers the balance |
| StoreLaws.FinishesIff | internal/eventstore/memory_store.go:408-420 | the conflict exactly for the other end of a hold that has ended; no hold, or the same end, is no error and no change |
| StoreLaws.FinishedIsFree | internal/eventstore/memory_store.go:421-430 | an end takes the amount of the hold out of what is reserved and leaves the balance |
| StoreLaws.PostsIff | internal/eventstore/memory_store.go:385-391 | a first posting succeeds if and only if both accounts exist |
| StoreLaws.PostedIsMoved | internal/eventstore/memory_store.go:392-400 | amount and fee leave the source, the amount arrives, no other account changes, and the answer is what the source has left |
| StoreLaws.DecidesIff | internal/eventstore/memory_store.go:373-381 | the first decision is recorded, the same again is no error, the other one is the conflict |
| StoreLaws.UpdatesIff | internal/eventstore/memory_store.go:325-353 | updates if and only if the record is pending at the expected step; an error if and only if there is none |
| StoreLaws.UpdatedIs | internal/eventstore/memory_store.go:325-353 | field by field what the record is afterwards; a missing compliance value and zero balances keep the old ones |
| StoreLaws.AppendsIff | internal/eventstore/memory_store.go:576-588 | the event goes in if and only if the stream has the expected length |
| StoreLaws.WithdrawsIff | internal/eventstore/memory_store.go:433-447 | what is there beyond the open holds can be withdrawn, and exactly that; the receipts are the balances before and after |
| StoreLaws.NewestSnapshotStays | internal/eventstore/memory_store.go:617-626 | the stored snapshot is the newer of the two, and other accounts keep theirs |
| ReviewLaws.ManualIsTaken | internal/eventstore/memory_store.go:153-156 | a manual request is stored as it is if and only if its account exists |
| ReviewLaws.TransferReversalIsTakenIff | internal/eventstore/memory_store.go:157-171 | a transfer reversal is taken if and only if the transfer is completed and no request that is not rejected names it; accounts, amount and fee come from the transfer |
| ReviewLaws.EventReversalIsTakenIff | internal/eventstore/memory_store.go:172-200 | an event reversal is taken if and only if the event exists, is a movement that no transfer, fee or adjustment made, and no request that is not rejected names it; account, amount and the opposite direction come from the event |
| ReviewLaws.RejectsIff | internal/eventstore/memory_store.go:273-292 | a waiting request of somebody else becomes rejected with that reviewer and nothing else changes; otherwise the first error that applies and no change |
| ReviewLaws.ApprovesIff | internal/eventstore/memory_store.go:226-272 | it becomes accepted with that reviewer if and only if whoever pays has the amount beyond the open holds; otherwise the first error that applies and no change |
| ReviewLaws.OneAccountMoves | internal/eventstore/memory_store.go:260-266 | an approval without a transfer changes the balance of its account by exactly the amount, in its direction, and no other stream |
| ReviewLaws.TwoAccountsMove | internal/eventstore/memory_store.go:255-259 | an approved reversal of a transfer takes the amount from the counterparty and gives amount and fee to the account |
| ReviewLaws.ReviewStands | internal/eventstore/memory_store.go:226-292 | in every run and every continuation of it, a reviewed request keeps verdict and reviewer, and every later review answers that it has been reviewed |
| ReviewLaws.RejectionFreesTransfer | internal/eventstore/memory_store.go:162-166 | a rejected reversal no longer blocks its transfer: another one is then taken if and only if no third request names it |
| ReviewLaws.RejectionFreesEvent | internal/eventstore/memory_store.go:177-181 | nor its event |
| Origins.EventsTellTheirOrigin | internal/eventstore/memory_store.go:226-447 | in every reachable state, any workers and crashes: every event that moves or holds money is a customer's own, or names the transfer or the accepted request behind it, with the amount, the other account, the purpose and the reference that these say |
| Origins.TracedStep | internal/eventstore/memory_store.go:226-447 | every action keeps that |
| Origins.ReversibleIff | internal/eventstore/memory_store.go:182-199 | so what the test for a reversible event finds are exactly the deposits and withdrawals of customers |
| Origins.RejectedNeverBooks | internal/eventstore/memory_store.go:273-292 | a request once rejected has no event on any account, in any continuation |
| ProcessLaws.CreatedIsHeld | internal/service/transfer_service.go:111-116 | a new transfer whose source can pay ends one call on hold, due at once, with the balance noted |
| ProcessLaws.CreatedFails | internal/service/transfer_service.go:158-172 | one whose source cannot pay fails with the reason, and nothing else changes |
| ProcessLaws.CreatedIsHeldAlready | internal/service/transfer_service.go:111-116 | with the hold of an earlier call in place, only the record moves on |
| ProcessLaws.HeldIsApproved | internal/service/transfer_service.go:117-135 | approved: the decision goes on record, the record moves on, no money moves |
| ProcessLaws.HeldIsRefused | internal/service/transfer_service.go:122-134 | refused: the decision goes on record, the hold is given back, the record fails with that code |
| ProcessLaws.HeldIsContradicted | internal/service/transfer_service.go:126-128 | a verdict against the one on record puts the record back |
| ProcessLaws.HeldFailsForGood | internal/service/transfer_service.go:118-121 | a permanent error of the checker gives the hold back and fails the record with its code |
| ProcessLaws.HeldIsPutBack | internal/service/transfer_service.go:173-186 | any other error puts the record back for 1, 2, 4 and 8 seconds |
| ProcessLaws.HeldIsGivenUp | internal/service/transfer_service.go:175-180 | the fifth one gives the hold back and fails the record |
| ProcessLaws.ApprovedIsPosted | internal/service/transfer_service.go:136-141 | amount and fee leave the source, the amount arrives, the record says what is left and moves on |
| ProcessLaws.ApprovedIsPostedAlready | internal/service/transfer_service.go:136-141 | posted by an earlier call, only the record moves on |
| ProcessLaws.PostedIsCaptured | internal/service/transfer_service.go:142-146 | the hold is used up, the balance stays, the record moves on |
| ProcessLaws.PostedIsCapturedAlready | internal/service/transfer_service.go:142-146 | captured by an earlier call, only the record moves on |
| ProcessLaws.PostedIsPutBack | internal/service/transfer_service.go:181-185 | a capture that meets the conflict is put back for 1, 2, 4, 8 and then always 16 seconds, and never given up |
| ProcessLaws.CapturedCompletes | internal/service/transfer_service.go:147-155 | the record completes, and this call publishes it |
| ProcessLaws.FailedCallPutsBack | internal/service/transfer_service.go:158-186 | a store call that fails by itself puts the record back for as long, or gives up after the fifth attempt before the posting |
| ProcessLaws.FailedCallFails | internal/service/transfer_service.go:158-172 | with a permanent error it fails the record, after a release unless nothing can be on hold yet |
| ProcessLaws.AdvancedIsListed | internal/eventstore/memory_store.go:310-324 | a record that a call has moved on is listed by the next pass that its limit does not cut short |
| ProcessLaws.StoredIsListed | internal/service/transfer_service.go:57-57 | and so is a record that has just been stored |
| ProcessLaws.PutBackIsListedLater | internal/service/transfer_service.go:181-185 | one that has been put back is listed if and only if its 1, 2, 4, 8 or 16 seconds have gone by |
| Services.TransferService.Transfer | internal/service/transfer_service.go:36-66 | each validation error with its condition, in order; a repeated key is answered by its record or the conflict; otherwise what is stored under the given id has the accounts, the amount and the trimmed key of the command, the given fee, is pending, created and due at `now` |
| Services.AdmittedIsNew | internal/service/transfer_service.go:37-57 | the record of a command is one that the runs create if and only if the amount is at least 100, the accounts differ and the trimmed key has 1 to 128 octets |
| Services.TransferService.Process | internal/service/transfer_service.go:108-157 | the switch over the step, call by call, leaves the store and publishes as the saga machine does when nothing intervenes |
| Services.TransferService.Screen | internal/service/transfer_service.go:118-137 | the compliance step: check, record, then release and fail or advance |
| Services.TransferService.HandleStepError | internal/service/transfer_service.go:158-172 | permanent errors release held funds and fail, others retry |
| Services.TransferService.Retry | internal/service/transfer_service.go:173-186 | five attempts before the ledger is posted, without limit after it, with doubling delays |
| Services.TransferService.Advance | internal/service/transfer_service.go:187-190 | the compare-and-set that ends a call |
| Services.TransferService.ProcessDue | internal/service/transfer_service.go:94-107 | lists only pending records whose next attempt is not after `now`, and below 100 all of them; serves them in order until the context is cancelled; store and publications are those of the served prefix |
| ServedRuns.ProcessIsARun | internal/service/transfer_service.go:108-157 | an uninterrupted call of `Process` is a run of its worker: same store, same publications |
| ServedRuns.PassIsARun | internal/service/transfer_service.go:94-107 | a pass of `ProcessDue` is a run without crashes, so what the method leaves is a reachable state of the bank |
| ClientServices.DepositService.Deposit | internal/service/deposit_service.go:20-50 | load, check, append: the new event, and balances before and after that differ by the amount |
| ClientServices.WithdrawService.Withdraw | internal/service/withdraw_service.go:23-65 | the load-check-append path does what the atomic path does when nobody intervenes |
| ClientServices.LoadCheckAppendIsAtomic | internal/service/withdraw_service.go:35-58 | with anybody in between, in every run, it either meets the conflict or does exactly what the atomic withdrawal does at that moment |
| ClientServices.AdjustmentService.Create | internal/service/adjustment_service.go:14-37 | the validation errors with their conditions; otherwise what is stored keeps author, references and reviewer, and of a manual draft also account, amount, fee and counterparty, as a debit if and only if the trimmed direction is debit |
| ClientServices.SubmittedIsNew | internal/service/adjustment_service.go:19-27 | what passes validation is a request that the runs make, if and only if it is not a manual one that names an original transfer |
| ClientServices.DraftMovesMoney | internal/service/adjustment_service.go:14-37 | from draft to balance: a manual draft that names no transfer is stored if and only if its account exists, approved by another administrator if and only if a debit is covered, and then the balance has changed by exactly plus or minus its amount |
| ClientServices.AdjustmentService.Approve | internal/service/adjustment_service.go:50-52 | hands the approval to the store |
| ClientServices.AdjustmentService.Reject | internal/service/adjustment_service.go:53-59 | a reason of 1 to 500 octets after trimming, then the store |
| SnapshotReads.SnapshotsAreExact | internal/repository/memory_repo.go:50-62 | the whole bank and any number of readers interleaved at each load, snapshot load and snapshot save: a stored snapshot is always the replay of the stream up to its sequence |
| SnapshotReads.ReadsAreExact | internal/repository/memory_repo.go:24-36 | a read returns the replay of a prefix no shorter than the stream at its load and no longer than at its look at the snapshot |
| SnapshotReads.OfferIsExactOrRefused | internal/repository/memory_repo.go:50-62 | a snapshot folded past its label is refused by the monotone guard; any other one is exact |
| SnapshotReads.FoldCovers | internal/repository/memory_repo.go:33-34 | which prefix a fold of snapshot and tail covers |
| SnapshotReads.SoundMove | internal/repository/memory_repo.go:24-62 | every move of a reader or of the bank keeps the invariant |
| AccountRepository.MemoryAccountRepository.FindByID | internal/repository/memory_repo.go:24-36 | the three calls in a row compute the specified account and snapshot |
| AccountRepository.MemoryAccountRepository.FindSnapshot | internal/repository/memory_repo.go:40-46 | the stored snapshot, or none on any error |
| AccountRepository.MemoryAccountRepository.MaybeSnapshot | internal/repository/memory_repo.go:50-62 | offers a snapshot only at or beyond a positive threshold |
| AccountRepository.FoundIsTheReplay | internal/repository/memory_repo.go:24-36 | a read alone equals the full replay and leaves an exact snapshot |
| AccountRepository.ReadLeavesSnapshot | internal/repository/memory_repo.go:50-62 | and that snapshot is the one of the whole stream if and only if the stream has reached a positive threshold; otherwise the store is as it was |
| Postgres.AppendsAgreeIff | internal/eventstore/postgres_store.go:934-961 | insert-or-skip answers as the memory store does exactly when the expected version is between 0 and the length; then the table stays gap-free, otherwise a gap appears |
| Postgres.SelectIsTheStream | internal/eventstore/postgres_store.go:869-889 | on a gap-free table the query ordered by sequence returns the stream |
| Postgres.InsertAllAtTheEnd | internal/eventstore/postgres_store.go:890-897 | rows inserted at the current length extend the stream |
| Postgres.InsertAllBeforeTheEnd | internal/eventstore/postgres_store.go:890-897 | rows inserted at an outdated length meet the primary key |
| Postgres.EventTable.Append | internal/eventstore/postgres_store.go:934-961 | the statement, and the conflict when no row was affected |
| Postgres.EventTable.Load | internal/eventstore/postgres_store.go:964-995 | the row loop returns the stream |
| Postgres.EventTable.InsertEvents | internal/eventstore/postgres_store.go:890-897 | all rows of a transaction go in, or none |
| PostgresBank.PostgresRunIsARun | internal/eventstore/postgres_store.go:402-856 | every run of workers and clients on the Postgres store, from empty tables, however transactions interleave, collide, err and die, is a run of the system on the memory store: its tables stand for that store |
| PostgresBank.DeedFollows | internal/eventstore/postgres_store.go:402-856 | deed by deed: what commits is the atomic step, what collides or is refused is a store call that failed, or for a client nothing |
| PostgresBank.TablesKeepTheBooks | internal/eventstore/postgres_store.go:402-856 | so with any number of workers the tables of every run stand for gap-free numbered streams, tables in agreement, unique keys, at most one standing reversal, conserved money and completions published once |
| PostgresBank.TablesStaySafe | internal/eventstore/postgres_store.go:402-856 | and on every account a transfer has each kind of event at most once, never both a capture and a release |
| PostgresBank.PostingReadsRows | internal/eventstore/postgres_store.go:743-757 | a worker that posts reads accounts that exist, because the hold proves it |
| PostgresMirror.RunIsAPostgresRun | internal/eventstore/postgres_store.go:286-856 | and conversely, every run of the system is a run on the tables, unless an index on the requests or the repeated check of an approval steps in |
| PostgresMirror.ActIsMirrored | internal/eventstore/postgres_store.go:286-856 | action by action: where both stores do it, the undisturbed transactions do on the tables what the atomic step does to the store |
| PostgresMirror.CurrentCallAnswers | internal/eventstore/postgres_store.go:659-824 | on the current streams the transaction of a saga call fails exactly as the atomic call does, with the same error |
| PostgresSafety.TablesSolventIff | internal/eventstore/postgres_store.go:719-774 | any number of workers, transactions that interleave, collide, err and die: a run on the tables is solvent in all its states if and only if no posting commits without its hold that takes more than it has read to be there beyond what is promised |
| PostgresSafety.DeedSolventIff | internal/eventstore/postgres_store.go:402-856 | the same for the next deed |
| PostgresSafety.TablesSolventUnlessStranded | internal/eventstore/postgres_store.go:648-824 | one worker: the tables are solvent in every state as long as no failing update is lost after the funds were given back |
| PostgresExamples.LostUpdateOverdrawsTables | internal/eventstore/postgres_store.go:648-654 | what then breaks it: from empty tables, one worker and a compliance checker that always approves, a release that commits and a failing update that does not lead to an overdrawn account |
| PostgresSafety.DroppedReleaseIff | internal/eventstore/postgres_store.go:781-824 | the release whose error is dropped (internal/service/transfer_service.go:163-164, 175-177): the record fails in any case, and the funds are given back if and only if no row was inserted on the account since the release read it; otherwise they stay on hold |
| PostgresExamples.DepositKeepsHold | internal/eventstore/postgres_store.go:781-824 | at an input: from empty tables, one worker, one verdict, nothing errs or dies, and one deposit between reading and writing leaves a failed transfer with its funds on hold |
| PostgresExamples.ReleaseCanBeLost | internal/eventstore/postgres_store.go:934-961 | one deposit is enough wherever a worker is about to release and fail |
| PostgresSafety.TablesHoldForGood | internal/eventstore/postgres_store.go:648-824 | and nothing that is done to the tables afterwards takes that hold away |
| PostgresSafety.TablesFailClean | internal/eventstore/postgres_store.go:648-824 | one worker: as long as no release on the way to failing and no update of a new hold or posting is lost, a failed transfer on the tables was never posted and has nothing on hold |
| PostgresSafety.TablesRecoverIff | internal/eventstore/postgres_store.go:648-824 | recovery on the tables, where transactions collide, err and die anywhere: nine calls with its verdict finish a pending transfer with the expected trace if and only if it is not an approved one whose funds were given back |
| PostgresSafety.RestartRecovers | internal/eventstore/postgres_store.go:648-824 | and a restarted worker makes these calls on the tables: its own deeds lead to tables that stand for a store in which the transfer has recovered |
| PostgresSafety.RepeatedCheckNeverRefuses | migrations/0006_adjustments.up.sql:22-27 | in every run on the tables no two standing requests, of whatever kind, name the same transfer or the same event, so the check that an approval repeats never refuses one |
| PostgresTransactions.RequestsAgreeIff | internal/eventstore/postgres_store.go:286-361 | on the current events the two stores take the same requests, except exactly those that name a transfer or an event which a request that is not rejected, of any kind, names already |
| RequestExamples.PostgresTakesOne | migrations/0006_adjustments.up.sql:25-27 | at an input: the manual request that names an event under reversal, which the memory store takes and Postgres refuses |
| PostgresTransactions.ApprovalsAgreeIff | internal/eventstore/postgres_store.go:402-493 | on the current streams the two stores agree on an approval unless it is a reversal that the memory store approves while another accepted request names the same original |
| RequestExamples.ApprovalsDiffer | internal/eventstore/postgres_store.go:433-446 | at a store that a run of the memory store reaches: it approves a reversal that the repeated check would refuse |
| PostgresTransactions.UpdatesAgreeIff | internal/eventstore/postgres_store.go:648-654 | both stores update a record alike, and answer alike if and only if it exists |
| PostgresTransactions.PostsAgreeIff | internal/eventstore/postgres_store.go:743-773 | the Postgres store posts without looking whether the accounts exist; the two stores agree if and only if both exist or the transfer is posted already |
| PostgresTransactions.ReserveSimulates | internal/eventstore/postgres_store.go:659-709 | a reservation that commits is the atomic step; otherwise the tables are unchanged; on current streams it never collides and is refused exactly when the atomic step is, with the same error |
| PostgresTransactions.PostSimulates | internal/eventstore/postgres_store.go:719-774 | the same for posting |
| PostgresTransactions.FinishSimulates | internal/eventstore/postgres_store.go:781-824 | the same for capture and release |
| PostgresTransactions.WithdrawSimulates | internal/eventstore/postgres_store.go:826-856 | the same for the atomic withdrawal |
| PostgresTransactions.ApprovalSimulates | internal/eventstore/postgres_store.go:402-493 | the same for the approval of an adjustment, where the repeated uniqueness check is the only difference |
| PostgresTransactions.RepeatedCheckIsIdle | internal/eventstore/postgres_store.go:433-446 | in either store that check never refuses a transfer reversal while at most one stands |
| PostgresTransactions.RequestSimulates | internal/eventstore/postgres_store.go:286-361 | a request that is inserted past the unique indexes is one that the memory store stores alike, but for the reviewer |
| Locks.NeverDeadlocked | internal/eventstore/postgres_store.go:655-657 | in every reachable state with an unfinished transaction some transaction has all its locks or can take its next one |
| Locks.LocksAscend | internal/eventstore/postgres_store.go:410-432 | the adjustment row comes first, accounts ascend, the hold row comes last |
| Locks.ExclusiveNext | internal/eventstore/postgres_store.go:655-657 | no lock is ever held twice |
| Locks.MinThenMax | internal/eventstore/postgres_store.go:857-868 | minString and maxString are the two arguments in ascending order |
| Locks.LocksWhatItTouches | internal/eventstore/postgres_store.go:402-856 | a transaction locks exactly the accounts it appends to and the rows it changes |
| Locks.NoTwoTouchTheSame | internal/eventstore/postgres_store.go:655-657 | so however transactions start, take locks, commit or abort, no two that have all their locks touch the same account or row |
| MoneyText.ParseMoney | internal/domain/money.go:16-58 | the parser, padding loop included, in int64 arithmetic, on every string |
| MoneyText.PlainIsExact | internal/domain/money.go:16-58 | on every `-?digits[.0-2 digits]` the exact signed cents if the magnitude fits in int64 and an error otherwise, never a wrapped value |
| MoneyText.RoundTrip | internal/domain/money.go:59-67 | parsing what was printed gives the amount back, for every int64 |
| MoneyText.PrintedIsPlain | internal/domain/money.go:59-67 | every int64 but the least prints as a plain amount with two decimals that denotes exactly it |
| MoneyText.TwoWideIsPlain | internal/domain/money.go:66-66 | the cents print as exactly two digits |
| MoneyText.LeastRoundTrip | internal/domain/money.go:59-67 | even for the least int64, whose text has three signs, because the negation wraps twice |
| MoneyText.OnlyAmountsAreRead | internal/domain/money.go:16-58 | what is read at all is, up to blank around it, an optional minus, a numeral and at most two characters after a point; two points, three decimals, exponents and everything else are refused |
| MoneyText.AmountIsExactIff | internal/domain/money.go:39-57 | and of these exactly the ones that fit are read as what they say; with a negative fraction the size test itself wraps |
| MoneyText.SecondSignWraps | internal/domain/money.go:50-57 | the others at an input: two minus signs before any whole number from 92233720368547759 to MaxInt64 are read as a wrapped amount |
| MoneyText.TooFineIsRefused | internal/domain/money.go:29-31 | three decimals are refused |
| MoneyText.BlankIsIgnored | internal/domain/money.go:17-17 | blank around an amount does not count |
| Text.TrimSpaceIff | internal/domain/money.go:17-17 | what strings.TrimSpace leaves is the one bare text that the argument is up to blank around it |
| Text.WidthIsLeast | internal/service/adjustment_service.go:19-19 | the octets of a character are those of its shortest UTF-8 form |
| Pbkdf2.Pbkdf2Sha256 | internal/service/password.go:55-74 | for any 32-octet PRF the nested loops produce the derived key of section 5.2 of RFC 8018, for every length up to the standard's limit |
| Pbkdf2.Block | internal/service/password.go:58-71 | the inner loops compute F by exclusive or in place |
| Pbkdf2.ShorterIsPrefix | internal/service/password.go:73-73 | shorter keys are prefixes of longer ones |
| Pbkdf2.KeyOctet | internal/service/password.go:57-73 | octet k of a key is octet k mod 32 of block k / 32 + 1 |
| Pbkdf2.FirstBlock | internal/service/password.go:58-70 | the first block after one and after two iterations, written out |
| Pbkdf2.Base256IsPositional | internal/service/password.go:60-60 | the four octets of the block number are its big-endian digits |

## Left out

- Identifiers are numbers that are only compared (0 is the empty string); that generated ids are fresh is assumed.
- Time: each call takes one `now`; occurrence and update times, and the creation of ids, are not modelled.
- Texts that no branch reads again: reasons, case references, last errors. A text is a sequence of characters, its length that of its UTF-8 form; text that is not valid UTF-8 is not modelled.
- Each memory store method is one atomic step; the RWMutex behind that is not modelled.
- The error that `Process` hands back, which `ProcessDue` drops, and `Run`, which only calls `ProcessDue` again.
- The fee policy, the compliance checker and the opening hours are inputs; delivery to event bus subscribers is not modelled, only publication.
- Customers appear only as far as approving an application opens an account; onboarding, sessions and login are library calls around one-branch checks.
- `ExecuteTransfer` in both stores: a retained path that no service calls, and which checks the balance instead of the available balance.
- Lists, lookups and the read-only getters of adjustments, transfers and applications.
- HTTP routing, DTOs, CORS, cookies, the web client and MinIO: plumbing.
- SQL text, JSON payloads and base64; foreign-key and check constraints.
- The hash behind the advisory locks is taken to be injective, and row locks that inserts take implicitly are not part of the lock order.
- The Postgres upsert of a snapshot, which has the same guard as the memory store.
- PostgresBank.PostgresRunIsARun: a transaction takes effect and is acknowledged, or does neither; a commit whose acknowledgement is lost while the worker lives on is not modelled.
- Publication.PublishedIffCompleted: the completing update and the hand-over to the event bus count as one step; a process that dies between the two never publishes that completion.
- AnyWorkers.StaleWorkersStaySafe: with several workers one may fail a record while another posts it or holds its funds, so the facts about failed transfers are stated for one worker only; solvency with several workers has its exact condition in SolventRuns.SolventRunIff.
- Pbkdf2.Pbkdf2Sha256: nothing is claimed beyond the standard's length limit, where the block counter wraps.
