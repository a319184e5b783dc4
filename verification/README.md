# Exactly-once claims dispatch

A Dafny model of the claims service of a token migration: assets escrowed for a
recipient are claimed once, paid once on chain, and accounted for. The project covers

- the dispatch protocol: claims API, approver, reaper, ledger rebuild, the worker, the
  operator-wallet ANT flow and the chain as one state machine, one committed transaction,
  one unlocked read, one chain event or one crash per step;
- the float and the big-claim brake, the reconciliation report, the lock order;
- the ledger planner and its idempotent writer;
- the audit hash chain, canonical JSON and the canonical claim messages;
- the ANT access-list heal and its bounded sweep.

## How it is laid out

Layer by layer, each file one module:

- `Prelude`, `Chain`, `Rows`: options and sums, the chain with the height-first status read, polling and the
  outflow scan, the table rows and the mutable tables.
- `DispatchCore`, `Service`, `AntOperator`, `VaultRules`, `LedgerUpsert`: the committed transactions. Each is a function
  from tables to tables, used as one atomic protocol step, and a method whose body follows the
  transaction statement by statement and is proved to compute that function.
- `Protocol`: all steps of all actors. A dispatcher's program point carries exactly what it holds in
  memory there; a crash forgets it.
- `Invariant`, `Preservation`, `Monotonicity`, `Bookkeeping`, `Finality`, `Float`, `Brake`: the inductive invariants.
- `ServiceOutcomes`, `ReservedFloat`, `WorkerOutcomes`, `BatchOutcomes`: what every step does to the rows, guard by guard and
  without the transaction functions: when it can be taken, which columns it writes, and what it leaves alone.
- `Progress`, `Runs`, `Theorems`, `SingleFlight`: a schedule that pays a claim, what follows for every run, and what would
  go wrong without single flight.
- `Reconcile`, `Locks`: the report over reachable states, and deadlock freedom.
- `Scenarios`, `TokenScenarios`, `BatchScenarios`: runs from the empty claim table on, among them a worker and an operator
  flow that die after the broadcast and are recovered.
- `LedgerInputs`, `LedgerPlan`, `LedgerWriter`: the planner and the chunked writer.
- `PlanProperties`, `PlanRouting`, `PlanTotals`, `PlanGuards`: what a plan guarantees, which asset each input row becomes, what
  the totals count, and when exactly a build succeeds.
- `Encodings`, `CanonicalMessage`, `Decoders`, `MessageReader`: text encodings and claim messages, and an independent reader
  that gets back what was put in.
- `JsonText`, `CanonicalJson`, `CanonicalForm`, `JsonReader`, `AuditLog`: canonical JSON, an independent reader for it, and the
  hash chain.
- `AntAcl`, `AclHealer`: the on-chain page structure, the heal planner, the sweep.

## Hypotheses

They are named where they are used:

- Confirmation reads (packages/claims/src/dispatch/chain.ts:25-29). `Config.endpoint` is `Consistent` (one consistent
  endpoint, which may lag as long as a status is not older than the height given before it), `WrongAboutLanded` (anything may be said about a landed transaction, the outflow scan is truthful)
  or `Arbitrary`. At most one transfer holds for the first two (`Good`), the truth of confirmed for the first, the
  blast radius for all three.
- Single flight (packages/claims/src/dispatch/worker.ts:188-189): a claim has at most one dispatcher, and one worker process serves the
  hot key, so at most one dispatcher works on a token or vault claim. `SingleFlight.StaleClearDoublesTheTransfer` and
  `SingleFlight.TwoWorkersOverspend` show that both halves are needed.
- Withdrawals from the hot account other than dispatches do not happen; top-ups do.
- A signature verifies over one message only, so a transaction and its signature are one value. The hash is a
  parameter; results about it say "or a collision" instead of assuming there is none.

Uniqueness of the winner is proved from the row locks and status checks; the unique index
of the schema is not used.

## Where code and comments differ

- packages/claims/src/dispatch/worker.ts:15 speaks of single flight by a lock on the claim row; the snapshot that decides the path
  (packages/claims/src/dispatch/worker.ts:244-245) is read without one, and the clearing transaction does not check which signature was judged
  dead. The model follows the code and makes single flight a hypothesis.
- packages/claims/src/dispatch/reconcile-dispatch.ts:1-14 promises consistency of the dispatched set; its three queries are separate statements, so a claim
  that settles between the first two is reported as an orphan. `Reconcile.ReportOkExactly` gives the exact condition,
  and `Scenarios.ReportBlamesACorrectRun` a run.
- packages/claims/src/dispatch/ant-acl-reconcile.ts:76-77 says re-runs converge to a no-op; with a controller lingering under a current owner no number of
  runs gets there. `AntAcl.RerunsConvergeExactly` gives the exact condition; `AntAcl.HealsExactly` says when the first run is enough.
- packages/claims/src/ledger/plan.ts:162-178 treats every resolvable owner as claimable; an Ethereum owner that is also in the at-risk file
  keeps the closed recipient loaded before. `PlanProperties.ClaimableMeansOpenExactly` gives the exact condition.
- packages/claims/src/api/audit.ts:58 calls the form deterministic, which it is; an array holding a single undefined prints like the empty array, the only
  collision there is (`JsonReader.CanonicalJsonIsExact`).
- packages/canonical/src/canonical.ts:62-69 and packages/canonical/src/canonical.ts:116-125 list the lines of a message without the recipient's; the code
  writes it as the third line, and so does the model.

## Model

| member | source | states |
|---|---|---|
| Chain.SignatureNamesItsClaim | packages/claims/src/dispatch/worker.ts:527-529 | with the memo on, signatures of different claims differ; with it off they coincide exactly when effect and lifetime do |
| Chain.ConfirmSignature | packages/claims/src/dispatch/chain.ts:296-307 | the polling loop returns failed, confirmed or expired as the first deciding poll says, height before status, or pending only past the deadline; every earlier poll was undecided |
| Chain.ExpiredIsFinal | packages/claims/src/dispatch/chain.ts:266-294 | with any chain steps between the height sample and the status read, an expired answer means the transaction has landed at no instant, past or future |
| Chain.StatusFirstWouldDoubleSend | packages/claims/src/dispatch/chain.ts:268-275 | the opposite reading order is wrong for every transaction in flight: there is a history in which it says expired about one that succeeds |
| Chain.ConfirmationIsTruthful | packages/claims/src/dispatch/chain.ts:276-307 | on one consistent endpoint every definitive answer of the polling loop is true at every later instant |
| Chain.RecallsExactly | packages/claims/src/dispatch/chain.ts:25-29 | what a lagging endpoint may answer without going back behind the height it gave is exactly what some past instant showed |
| Chain.FindConfirmedOutflow | packages/claims/src/dispatch/chain.ts:309-333 | a hit is a settled, non-failed entry with a known signature; no hit means no page holds one; pages that fail to load are skipped |
| Chain.ScanIsDecoyProof | packages/claims/src/dispatch/chain.ts:309-333 | foreign and decoy entries never produce a hit; with complete pages there is a hit exactly when one of the claim's own signatures landed |
| DispatchCore.PersistDispatching | packages/claims/src/dispatch/dispatch-core.ts:99-154 | commits the signature and the dispatching status only for an eligible claim on an open asset, otherwise leaves all tables as they were and answers false |
| DispatchCore.FinalizeConfirmed | packages/claims/src/dispatch/dispatch-core.ts:208-243 | confirms the claim and its asset once; a second call changes nothing |
| DispatchCore.FailClaim | packages/claims/src/dispatch/dispatch-core.ts:246-264 | fails any claim that is not confirmed; the asset keeps its status |
| DispatchCore.FreezeForOperator | packages/claims/src/dispatch/dispatch-core.ts:273-292 | freezes a claim once and says whether it did |
| DispatchCore.ClearSignature | packages/claims/src/dispatch/dispatch-core.ts:295-325 | drops the signature of a dispatching claim outside any batch, reverts it by its approval and counts the re-sign |
| DispatchCore.SendToReview | packages/claims/src/dispatch/dispatch-core.ts:328-350 | sends claim and asset to review unless the claim is confirmed or dispatching |
| DispatchCore.SendToManualVaultQueue | packages/claims/src/dispatch/dispatch-core.ts:356-390 | queues a locked vault for manual delivery under the same guard |
| Service.InitiateClaim | packages/claims/src/api/service.ts:416-456 | opens a challenge exactly for a listed, available asset whose recipient has a key |
| Service.ApproveClaim | packages/claims/src/dispatch/worker.ts:596-620 | approval sticks to verified and pending-review claims only |
| Service.SumRecipientAvailable | packages/claims/src/api/service.ts:744-750 | the loop's total is the sum of the recipient's amounts in the four statuses |
| Service.CompleteClaim | packages/claims/src/api/service.ts:525-704 | the two-lock transaction: a decision table from the guards to the final rows and the answer, with every refusal, the replay path and both sides of the brake, given what its unlocked reads returned |
| Service.VerifyReplay | packages/claims/src/api/service.ts:767-793 | a completed claim answers success again only to a proof that verifies again |
| Service.RejectClaim | packages/claims/src/api/service.ts:752-759 | rejects the claim and logs it, nothing else |
| Service.SelectReapable | packages/claims/src/api/reaper.ts:34-42 | distinct expired challenges nobody else holds, oldest first, at most the limit, and all of them if fewer |
| Service.ReapExpiredChallenges | packages/claims/src/api/reaper.ts:24-66 | expires exactly the selected challenges with one audit row each; zero means all that is left is locked by others |
| Service.ReapAllExpiredChallenges | packages/claims/src/api/reaper.ts:69-80 | draining terminates, counts each reaped challenge once, touches no other claim and no asset, and leaves only challenges that others held during its last pass |
| Service.ReapShrinks | packages/claims/src/api/reaper.ts:43-57 | each batch takes exactly its own size off the set of expired challenges |
| Service.CompletionDecides | packages/claims/src/api/service.ts:525-704 | the completion function is the decision table: which guard leads to which claim status, asset status, audit row and answer; an infrastructure fault changes no row |
| ServiceOutcomes.AskingOpensAClaim | packages/claims/src/api/service.ts:416-456 | the step that asks: the new claim row column by column, or no change |
| ServiceOutcomes.TotalAddsUp | packages/claims/src/api/service.ts:744-750 | the recipient's total is zero of nothing, and each row in one of the four statuses adds its amount: this determines every total |
| ServiceOutcomes.LockIsExclusive | packages/claims/src/api/service.ts:599-610 | only an available asset can be locked, by one completion at a time; the total is read under the lock |
| ServiceOutcomes.CompletionGoesByItsGuards | packages/claims/src/api/service.ts:525-704 | every completion step goes by the decision table; one that wins needs lock and total |
| ServiceOutcomes.BrakeDecides | packages/claims/src/api/service.ts:652-693 | with a valid proof the claim goes to review exactly when the threshold is set and its amount or the recipient's total is above it, and is verified with its asset in claim otherwise |
| ServiceOutcomes.BadProofIsRejected | packages/claims/src/api/service.ts:643-648 | a refused proof rejects the claim and leaves the asset available |
| ServiceOutcomes.FaultChangesNothing | packages/claims/src/api/service.ts:649-649 | an infrastructure fault, or a recipient without a key, changes no row |
| ServiceOutcomes.ApprovalMarks | packages/claims/src/dispatch/worker.ts:596-620 | approval sets one column of verified and pending-review claims, and nothing else |
| ServiceOutcomes.ReaperExpires | packages/claims/src/api/reaper.ts:24-66 | the reaper takes distinct open challenges that ran out, expires exactly those, and logs each |
| ServiceOutcomes.RebuildWrites | packages/claims/src/ledger/build.ts:93-181 | a rebuild is refused exactly when it would touch a won asset unasked, and otherwise leaves what the plan says |
| AntOperator.ReserveAntBatch | packages/claims/src/dispatch/ant-operator.ts:208-257 | the new open batch gets the selected claims that have a mint, in their order, with no wire yet: at most the limit, none that others hold, and all eligible ones if they fit |
| AntOperator.BuildOne | packages/claims/src/dispatch/ant-operator.ts:327-364 | eligibility is derived again; only an eligible claim gets a wire, addressed to its own claimant and mint |
| AntOperator.BuildReservedBatch | packages/claims/src/dispatch/ant-operator.ts:292-388 | builds every still eligible claim of the batch and reports exactly the others as skipped, both in the order of the rows |
| AntOperator.ReleaseReservationForRebuild | packages/claims/src/dispatch/ant-operator.ts:723-754 | frees a dispatching claim completely and counts the rebuild; other statuses are left alone |
| Preservation.StepKeepsInv | packages/claims/src/dispatch/worker.ts:235-372 | the dispatch invariant is inductive: every step of API, approver, reaper, rebuild, batches, dispatchers, crashes and chain keeps it |
| WorkerOutcomes.EveryAnswerTakesEffect | packages/claims/src/dispatch/worker.ts:322-332 | whenever a run acts on an answer, in line or in recovery: confirmed settles claim and asset by that signature, failed fails the claim, expired in line changes no row |
| WorkerOutcomes.EveryScanTakesEffect | packages/claims/src/dispatch/worker.ts:341-368 | whenever a run acts on the outflow scan: a hit settles, a spent budget freezes, otherwise the signature is dropped and one attempt counted |
| WorkerOutcomes.ConfirmedAnswerSettles | packages/claims/src/dispatch/worker.ts:325-328 | at a confirmed answer the step is possible and confirms claim and asset, for both purposes |
| WorkerOutcomes.FailedAnswerFails | packages/claims/src/dispatch/worker.ts:329-332 | a failed answer fails the claim and leaves the asset |
| WorkerOutcomes.ExpiredAnswerWaits | packages/claims/src/dispatch/worker.ts:333-345 | an expired answer in line waits for a recovery; in recovery the scan comes first |
| WorkerOutcomes.ScanHitSettles | packages/claims/src/dispatch/worker.ts:346-352 | a landed signature of the claim's own settles it |
| WorkerOutcomes.SpentScanFreezes | packages/claims/src/dispatch/worker.ts:357-363 | beyond one re-sign the claim is frozen for the operator |
| WorkerOutcomes.WorkerScanStartsAfresh | packages/claims/src/dispatch/worker.ts:364-368 | otherwise the worker drops the signature, counts the attempt, reverts by approval and starts a fresh dispatch |
| WorkerOutcomes.OperatorScanReleases | packages/claims/src/dispatch/ant-operator.ts:609-680 | the operator flow releases the reservation instead |
| WorkerOutcomes.RoutesArriveThere | packages/claims/src/dispatch/dispatch-core.ts:328-390 | review, manual vault queue and failure: final statuses of claim and asset |
| WorkerOutcomes.WorkerPicksUp | packages/claims/src/dispatch/worker.ts:243-272 | which claims the worker leaves alone, recovers and dispatches, from the snapshot's columns |
| WorkerOutcomes.WorkerWaits | packages/claims/src/dispatch/worker.ts:188-189 | a handled claim, or a hot claim while another is at work, is not picked up |
| WorkerOutcomes.DispatchingIsRecovered | packages/claims/src/dispatch/worker.ts:262-267 | a dispatching claim without a dispatcher is recovered by asking about its own signature |
| WorkerOutcomes.AssetDecides | packages/claims/src/dispatch/worker.ts:380-418 | what the asset row and the ANT signer decide |
| WorkerOutcomes.FundsDecide | packages/claims/src/dispatch/worker.ts:428-500 | what brake, float, clock and vault rules decide, to the lock's length |
| WorkerOutcomes.CheckLeavesRoom | packages/claims/src/dispatch/worker.ts:421-441 | with balance and reserved sum read in one state the check passes exactly when the amount and every other verified or dispatching hot claim's due amount fit the balance, or the amount is zero |
| WorkerOutcomes.SignedAsDecided | packages/claims/src/dispatch/worker.ts:513-514 | the signed message carries effect, memo and lifetime |
| WorkerOutcomes.PersistRefuses | packages/claims/src/dispatch/dispatch-core.ts:99-128 | a moved claim or asset aborts, and nothing is sent |
| WorkerOutcomes.PersistRecords | packages/claims/src/dispatch/dispatch-core.ts:99-154 | the signature is on record in both columns before the broadcast |
| WorkerOutcomes.PollDecides | packages/claims/src/dispatch/chain.ts:276-307 | what a poll makes of the height sampled first and the status read second |
| ReservedFloat.ReservedIsOwed | packages/claims/src/dispatch/float.ts:84-98 | the float query is exactly the sum of the due amounts of the other verified and dispatching token and vault claims |
| ReservedFloat.StatusMovesReserved | packages/claims/src/dispatch/float.ts:89-93 | a claim that becomes verified or dispatching is set aside at exactly its settlement, or its asset's amount, and released when it stops |
| ReservedFloat.OthersAddNothing | packages/claims/src/dispatch/float.ts:89-93 | ANT claims and the claim at hand add nothing |
| BatchOutcomes.ReservingTakes | packages/claims/src/dispatch/ant-operator.ts:194-257 | a batch takes waiting ANT claims only, and puts all with a mint in the new open batch |
| BatchOutcomes.BuildingWrites | packages/claims/src/dispatch/ant-operator.ts:292-388 | the handover of each claim's own mint to its claimant is written into eligible reservations, and nowhere else |
| BatchOutcomes.CancellingFrees | packages/claims/src/dispatch/ant-operator.ts:396-435 | cancelling frees unsigned claims, back by their approval, and voids a batch of which nothing was submitted |
| BatchOutcomes.ExpiryFrees | packages/claims/src/dispatch/ant-operator.ts:681-721 | expiry frees reservations older than the cutoff and voids open batches left empty |
| BatchOutcomes.ClosingWrites | packages/claims/src/dispatch/ant-operator.ts:756-770 | a batch is completed when the count before found every claim confirmed, and submitted otherwise |
| BatchOutcomes.SubmittingNeedsTheReservation | packages/claims/src/dispatch/ant-operator.ts:504-562 | a submission needs the claim's own reservation and the authority's signature over the stored bytes |
| BatchOutcomes.SubmissionLooksFirst | packages/claims/src/dispatch/ant-operator.ts:564-595 | a confirmed claim is done, a dispatching one is recovered, and only otherwise the wire is persisted and sent |
| Preservation.AnswerMeans | packages/claims/src/dispatch/chain.ts:276-294 | what confirmed, failed and expired entitle a dispatcher to, for a consistent endpoint and for one wrong only about landed transactions |
| Preservation.PersistedClaim | packages/claims/src/dispatch/dispatch-core.ts:99-154 | a claim that just persisted is again consistent, and its dispatcher may broadcast exactly the recorded signature |
| Preservation.FinalizedClaim | packages/claims/src/dispatch/dispatch-core.ts:208-243 | confirming by one of the claim's own landed signatures keeps every promise about the claim |
| Preservation.DroppedSignature | packages/claims/src/dispatch/worker.ts:354-368 | dropping a signature is sound when it can no longer succeed and the budget allows it |
| Preservation.WinKeepsInv | packages/claims/src/api/service.ts:679-693 | a winning completion adds the only winner of its asset |
| Preservation.RebuildKeepsInv | packages/claims/src/ledger/build.ts:79-190 | a rebuild inserted anywhere keeps the dispatch invariant |
| Preservation.StartSubmitKeepsInv | packages/claims/src/dispatch/ant-operator.ts:510-562 | whatever bytes the operator submits, what is dispatched is the stored wire of the claim |
| Invariant.TouchKeepsInv | packages/claims/src/dispatch/dispatch-core.ts:90-98 | a step that concerns one claim, its asset and its dispatcher only has to be justified for that claim |
| Monotonicity.StepEvolves | packages/claims/src/dispatch/dispatch-core.ts:208-243 | no step takes back a confirmed claim, a claimed or live asset's goods, a recorded signature, an audit row or a landed transaction, and no claim joins a batch except by reservation |
| Bookkeeping.StepKeepsBatches | packages/claims/src/dispatch/ant-operator.ts:756-770 | completed batches, and counts of zero not yet written, refer to confirmed claims only, although count and header update are separate statements |
| Bookkeeping.StepKeepsAudit | packages/claims/src/dispatch/dispatch-core.ts:142-145 | every dispatched claim has its dispatching audit row and every confirmed one its confirmed row |
| Finality.StepKeepsTerminal | packages/claims/src/dispatch/dispatch-core.ts:266-272 | confirmed, failed, frozen and manually queued claims keep their whole row |
| Finality.FreeingSparesSubmitted | packages/claims/src/dispatch/ant-operator.ts:396-435 | cancel and expiry leave a claim with a persisted signature exactly as it is |
| Finality.CompletedStays | packages/claims/src/dispatch/ant-operator.ts:764-769 | a completed batch header never changes again |
| Finality.StepKeepsWins | packages/claims/src/api/service.ts:525-704 | an asset is completed without replay at most once, by its lasting winner |
| Float.ReservedCoversDispatched | packages/claims/src/dispatch/float.ts:84-98 | the lower bound solvency needs: every other dispatching hot claim is counted at its full amount |
| Float.CheckShape | packages/claims/src/dispatch/float.ts:123-136 | a passed check leaves room for the amount between what is reserved and the balance, or the amount is zero |
| Float.LandableIsDispatching | packages/claims/src/dispatch/dispatch-core.ts:99-154 | a transaction that can still land is the current signature of a claim that is dispatching right now |
| Float.StepKeepsSolvency | packages/claims/src/dispatch/worker.ts:421-441 | solvency is inductive although balance and reserved sum are read at different instants and transactions land in between |
| Brake.TotalCoversCleared | packages/claims/src/api/service.ts:652-658 | the sum a completion reads covers everything let through before, every other completion that has already read a passing sum, and the asset at hand |
| Brake.TotalKeepsCleared | packages/claims/src/api/service.ts:652-658 | a read of the sum lets at most the asset at hand pass, and only within the threshold |
| Brake.CompleteKeepsCleared | packages/claims/src/api/service.ts:652-693 | a winning commit keeps the recipient within the threshold although it decides by a sum read at an earlier instant, with other completions and rebuilds in between |
| Brake.PersistKeepsLoose | packages/claims/src/dispatch/dispatch-core.ts:109-113 | only approved claims and claims that passed the brake are ever sent |
| Brake.StepKeepsBrake | packages/claims/src/dispatch/float.ts:118-136 | the brake invariant is inductive: every step of every actor keeps it, rebuilds and open completions included |
| Runs.EveryStateIsSafe | packages/claims/src/dispatch/worker.ts:4-38 | every state of every run satisfies all invariants |
| Runs.RunGoesAhead | packages/claims/src/dispatch/worker.ts:4-38 | later states of a run only add to earlier ones |
| Theorems.EveryTransferIsOwned | packages/claims/src/dispatch/ant-operator.ts:529-595 | whatever succeeded on chain was recorded first, belongs to the asset's winner, and delivers exactly that asset to its claimant |
| Theorems.AtMostOneTransferPerAsset | packages/claims/src/dispatch/dispatch-core.ts:99-202 | over every run at most one successful transfer lands per asset (single flight per claim; endpoint consistent, or wrong only about landed transactions with a truthful scan) |
| Theorems.ConfirmedIsTruthful | packages/claims/src/dispatch/worker.ts:325-351 | a confirmed claim was paid by its recorded signature, to the wallet fixed at initiate, and stays exactly so |
| Theorems.OneWinnerPerAsset | packages/claims/src/api/service.ts:541-704 | one claim past completion per asset, none while it is available, claimed if and only if a claim on it is confirmed |
| Theorems.CompletionHappensOnce | packages/claims/src/api/service.ts:541-704 | one non-replay success per asset over the run, a lasting winner, and a claimed row that is final |
| Theorems.BlastRadius | packages/claims/src/dispatch/worker.ts:129-133 | however wrong the endpoint, a claim is signed at most 1 + MAX_RESIGN_ATTEMPTS times and never sent more often |
| Theorems.SpentBudgetFreezes | packages/claims/src/dispatch/worker.ts:354-363 | with its budget spent and no outflow found the claim freezes for the rest of the run |
| Theorems.NeverOverspends | packages/claims/src/dispatch/float.ts:84-136 | in every reachable state the hot balance covers everything in flight |
| Theorems.EverySentTransferIsFunded | packages/claims/src/dispatch/worker.ts:421-441 | so every sent transfer that is still alive can be executed by the chain |
| Theorems.BrakeCannotBeSplit | packages/claims/src/api/service.ts:652-693 | what a recipient moves through claims unapproved at dispatch stays within the threshold over the whole run, and every unapproved landed transfer is counted |
| Theorems.ReservationDiscipline | packages/claims/src/dispatch/ant-operator.ts:194-275 | reservation columns are null together, on ANT claims only, in an existing batch, with the claim's own wire |
| Theorems.CompletedBatchIsConfirmed | packages/claims/src/dispatch/ant-operator.ts:756-770 | from its completion on a batch refers to confirmed claims only |
| Theorems.RebuildAtAnyPoint | packages/claims/src/ledger/build.ts:9-26 | a rebuild at any point of a run, even over live rows, changes no live asset, nonce, claim, winner or invariant |
| SingleFlight.StaleClearDoublesTheTransfer | packages/claims/src/dispatch/dispatch-core.ts:295-325 | in any run: a second dispatcher that acts on a judgement of an earlier instant has its clearing accepted over a live signature, and both transfers of a token or vault asset succeed |
| SingleFlight.TwoWorkersOverspend | packages/claims/src/dispatch/worker.ts:421-441 | in any run: two workers whose claims the float covers one by one but not together both pass the check, and more is in flight than the account holds |
| Scenarios.DoubleTransferHappens | packages/claims/src/dispatch/worker.ts:188-189 | such a run exists from an empty claim table on, and ends with two successful transfers of one asset |
| Scenarios.OverspendHappens | packages/claims/src/dispatch/worker.ts:188-189 | and a run to two approved claims whose two workers send twice what the account holds |
| Scenarios.ReadyIsReachable | packages/claims/src/api/service.ts:541-704 | from an empty claim table a run of initiate, lock, sum and commit reaches a claim ready for dispatch |
| Scenarios.TransferIsReachable | packages/claims/src/dispatch/worker.ts:377-419 | and a run of fourteen steps reaches its landed transfer, confirmed claim and claimed asset |
| TokenScenarios.BrakeOfOneToken | packages/claims/src/api/service.ts:656-693 | from an empty table, for every amount and threshold: the token ends verified up to the threshold and in review above it |
| TokenScenarios.SmallTokenIsVerified | packages/claims/src/api/service.ts:679-693 | a threshold of 100 lets a token of 5 through |
| TokenScenarios.LandedOrphanIsRecovered | packages/claims/src/dispatch/worker.ts:310-328 | after any run that leaves a sent transfer without a dispatcher, five steps land it and settle the claim without another send |
| TokenScenarios.CrashIsRecovered | packages/claims/src/dispatch/worker.ts:8-22 | from an empty table: a worker dies right after its broadcast and the next tick confirms the claim |
| BatchScenarios.BatchIsCompleted | packages/claims/src/dispatch/ant-operator.ts:479-669 | from an empty table: approve, reserve, build, submit, die after the broadcast, submit again, recover, and complete the batch |
| Theorems.ReadyAntCanBeConfirmed | packages/claims/src/dispatch/worker.ts:377-419 | every run that has come to a ready ANT claim has a continuation of ten steps that pays and confirms it and claims its asset |
| Reconcile.TallyRows | packages/claims/src/dispatch/reconcile-dispatch.ts:60-92 | the first loop's totals and counter are the sums and multiplicities of the rows, and it complains exactly about unclean rows |
| Reconcile.FindDoubles | packages/claims/src/dispatch/reconcile-dispatch.ts:94-97 | every asset with several confirmed claims is reported with its number |
| Reconcile.ReconcileDispatch | packages/claims/src/dispatch/reconcile-dispatch.ts:28-136 | ok exactly on clean rows, with both totals equal; each complaint is raised exactly when its condition holds of some row, asset or count |
| Reconcile.TotalsAddUp | packages/claims/src/dispatch/reconcile-dispatch.ts:60-92 | the totals and counters row by row |
| Reconcile.ReportOkExactly | packages/claims/src/dispatch/reconcile-dispatch.ts:36-121 | in every run the report is ok exactly when no asset in scope settles between its first and second query |
| Scenarios.ReportBlamesACorrectRun | packages/claims/src/dispatch/reconcile-dispatch.ts:36-121 | a concrete run in which everything is right and the report is not ok: the payment falls between its first and second query |
| LedgerUpsert.RebuildIsSafe | packages/claims/src/ledger/build.ts:159-181 | an upsert of any plan keeps every key, every nonce and every row outside the buildable statuses |
| LedgerWriter.ChunkedExactly | packages/claims/src/ledger/build.ts:46-70 | chunking fails exactly on a clash inside one chunk and otherwise writes what one upsert writes |
| LedgerWriter.ChunkedEqualsSingle | packages/claims/src/ledger/build.ts:46-70 | for unique keys every chunk size gives the single upsert |
| LedgerWriter.ChunkedDiffersExactly | packages/claims/src/ledger/build.ts:46-70 | chunked and single upsert differ exactly on clashes that never share a chunk |
| LedgerWriter.UpsertAllAt | packages/claims/src/ledger/build.ts:165-181 | what an upsert leaves at each key |
| LedgerWriter.UpsertRebuilds | packages/claims/src/ledger/build.ts:159-181 | what an upsert of a plan leaves, field by field of the plan's rows |
| LedgerWriter.RebuildIsIdempotent | packages/claims/src/ledger/build.ts:3-7 | writing the same plan twice is writing it once, whatever nonces the second run minted |
| LedgerWriter.RunStatement | packages/claims/src/ledger/build.ts:68-68 | one statement fails as a whole exactly when it would write a row twice |
| LedgerWriter.InsertChunked | packages/claims/src/ledger/build.ts:47-70 | the chunk loop computes the chunked upsert |
| LedgerWriter.WriteLedger | packages/claims/src/ledger/build.ts:79-196 | refuses a plan with live rows unless allowed, otherwise writes all or nothing; a written plan with unique keys leaves unwon planned assets as planned, under the nonces they had, and every other row as it was |
| LedgerInputs.NormalizeIsCanonical | packages/claims/src/ledger/normalize.ts:15-23 | normalizing is idempotent and identifies exactly the spellings of one Ethereum address |
| LedgerInputs.NormalizeLowersHex | packages/claims/src/ledger/normalize.ts:15-23 | an Ethereum address is 0x and forty hex digits; only its letters are lower-cased, and other addresses are kept |
| LedgerInputs.CollectKeepsAmounts | packages/claims/src/ledger/stake-extract.ts:82-131 | collecting the stake and withdrawal set loses and invents no amount |
| LedgerInputs.TotalEscrowMario | packages/claims/src/ledger/stake-extract.ts:134-139 | the loop's sum is the set's total |
| LedgerInputs.SeedsAreUnique | packages/claims/src/ledger/stake-extract.ts:152-172 | the two uniqueness checks accept exactly the seeds that differ once lower-cased |
| LedgerPlan.DepositAllSplits | packages/claims/src/ledger/plan.ts:181-376 | the phases compose: depositing two lists is depositing one after the other |
| LedgerPlan.Planner.UpsertRecipient | packages/claims/src/ledger/plan.ts:93-127 | the first mention of a source decides its recipient; a modulus that does not derive the address is an error |
| LedgerPlan.Planner.ClassifyOwner | packages/claims/src/ledger/plan.ts:162-179 | resolvable owners are claimable, others must be listed at risk |
| LedgerPlan.Planner.PushAsset | packages/claims/src/ledger/plan.ts:148-156 | a repeated key is an error, otherwise the asset is appended |
| LedgerPlan.Planner.LoadRecipients | packages/claims/src/ledger/plan.ts:129-136 | moduli first, then the at-risk owners |
| LedgerPlan.Planner.DepositVaults | packages/claims/src/ledger/plan.ts:220-297 | the nested vault loop deposits exactly the positive vaults of unmapped owners |
| LedgerPlan.BuildLedgerPlan | packages/claims/src/ledger/plan.ts:85-394 | the phases in order compute the build function, whose assets, totals, recipients and failures the rows of PlanRouting, PlanTotals and PlanGuards state |
| PlanProperties.PlanIsWellFormed | packages/claims/src/ledger/plan.ts:148-179 | asset keys are unique, every asset's recipient is in the plan, and assets correspond one to one to the entries |
| PlanProperties.PlanConservesValue | packages/claims/src/ledger/types.ts:61-75 | claimable amounts are exactly the three phase totals and all amounts exactly the unmapped inputs |
| PlanProperties.PlanIgnoresClock | packages/claims/src/ledger/plan.ts:14-17 | two clocks give the same success, keys, amounts, owners, statuses and phase totals |
| PlanProperties.EveryLockFits | packages/claims/src/ledger/plan.ts:254-349 | every planned vault has at least 100 ARIO and 14 days left, and ends no earlier than its source says (to the second for personal vaults) |
| PlanRouting.AntRowIsPlanned | packages/claims/src/ledger/plan.ts:182-197 | an unmapped owner's ANT is an ANT asset with its own mint |
| PlanRouting.BalanceRowIsPlanned | packages/claims/src/ledger/plan.ts:200-218 | an unmapped owner's positive balance is a token of that amount under the owner's key |
| PlanRouting.VaultRowIsPlanned | packages/claims/src/ledger/plan.ts:221-298 | a positive personal vault stays a vault exactly when it holds 100 ARIO and more than 14 days less a second are left, and is a token without an end otherwise; key, source, amount and end from the row |
| PlanRouting.StakeRowIsPlanned | packages/claims/src/ledger/plan.ts:304-354 | a stake stays a vault exactly when it holds 100 ARIO and 14 days are left, or it is a still locked operator exit, whose lock is extended |
| PlanRouting.ExitRowIsPlanned | packages/claims/src/ledger/plan.ts:304-354 | the same for the vaults of the exit list |
| PlanRouting.LiquidStakeRowIsPlanned | packages/claims/src/ledger/plan.ts:356-377 | liquid stakes are tokens |
| PlanRouting.LiquidExitRowIsPlanned | packages/claims/src/ledger/plan.ts:356-377 | liquid exits are tokens |
| PlanRouting.EveryAssetHasItsRow | packages/claims/src/ledger/plan.ts:181-378 | there is no asset but those of the rows |
| PlanTotals.TotalsCountTheRows | packages/claims/src/ledger/plan.ts:141-146 | each counter and phase total, from the rows whose owners can claim |
| PlanGuards.BuildSucceedsExactly | packages/claims/src/ledger/plan.ts:67-178 | a build succeeds exactly when moduli match their addresses, deposited owners are known, and keys and stake seeds are distinct |
| PlanGuards.RecipientsAreSound | packages/claims/src/ledger/plan.ts:95-139 | open recipients have a key and are named by its hash, closed ones have none and are named by their address, and the lists decide which |
| PlanProperties.ClaimableMeansOpenExactly | packages/claims/src/ledger/plan.ts:93-136 | claimable assets belong to open recipients exactly when no deposited Ethereum owner is listed at risk without a modulus |
| PlanProperties.ClosedOwnerExample | packages/claims/src/ledger/plan.ts:133-136 | for every Ethereum address there is a ledger with a claimable balance whose recipient is closed |
| JsonReader.CanonicalJsonIsExact | packages/claims/src/api/audit.ts:58-68 | two values print alike if and only if they mean the same: key order and undefined fields do not count, [undefined] prints as [], nothing else is lost |
| JsonReader.CanonicalJsonReads | packages/claims/src/api/audit.ts:58-68 | an independent reader of the format, which insists on ascending keys and shortest escapes, gets back what was printed |
| JsonReader.ScalarsRead | packages/claims/src/api/audit.ts:60-60 | words, numbers and strings are read as themselves |
| JsonReader.ArrayReadsItems | packages/claims/src/api/audit.ts:61-61 | arrays are read item by item |
| JsonReader.ObjectReadsFields | packages/claims/src/api/audit.ts:62-67 | objects are read field by field, undefined ones left out |
| JsonReader.HashedBytesRead | packages/claims/src/api/audit.ts:107-109 | the hashed bytes are read back as what the entry means |
| CanonicalForm.SamePrint | packages/claims/src/api/audit.ts:62-67 | key order never changes the canonical form |
| CanonicalForm.PrintIsPaired | packages/claims/src/api/audit.ts:58-68 | the canonical form has no lone surrogate whatever the strings hold |
| JsonReader.QuoteParses | packages/claims/src/api/audit.ts:60-60 | a string literal and what follows it are determined by the text (section 7 of RFC 8259) |
| JsonReader.ToUtf8Injective | packages/claims/src/api/audit.ts:107-109 | UTF-8 loses nothing of well-formed text |
| AuditLog.Log.AppendAudit | packages/claims/src/api/audit.ts:74-99 | appends one row: the next number, the last hash or 32 zero bytes, the canonical text, the hash of the two, and the signer's signature over it or a placeholder; the chain stays valid |
| AuditLog.Log.SignUnsignedAuditRows | packages/claims/src/transparency/audit-chain.ts:227-252 | back-filling gives exactly the signatures signing on write gives and touches nothing that is hashed |
| AuditLog.LogIsAlwaysLinear | packages/claims/src/api/audit.ts:13-16 | over every run from the empty log, whatever transactions interleave, commit or roll back, the committed log is at every instant one valid chain with ascending numbers, and earlier committed logs are prefixes of later ones |
| AuditLog.ConcurrentAppendsStayLinear | packages/claims/src/api/audit.ts:74-99 | the step of that run: an append, commit or rollback keeps the visible rows one chain and only extends what is committed |
| AuditLog.TheLockDecides | packages/claims/src/api/audit.ts:74-99 | who may append, commit and roll back, and the row an append inserts |
| AuditLog.UnlockedAppendsFork | packages/claims/src/api/audit.ts:74-81 | without the advisory lock two appends break the chain, unless a hash repeats its predecessor |
| AuditLog.VerifyAuditChain | packages/claims/src/transparency/audit-chain.ts:78-133 | ok exactly when every row points to the one before it, hashes its own content and carries a good signature if it is signed and a key is given; the first row that does not is reported, signed and valid rows are counted |
| AuditLog.OneHashPinsThePast | packages/claims/src/api/audit.ts:101-109 | two valid chains that agree on one hash agree on every row before it, short of a hash collision or a hash equal to the genesis value |
| AuditLog.SameContentSameEntry | packages/claims/src/api/audit.ts:83-85 | agreed rows hold the same entry up to key order |
| AuditLog.CheckExtendsAnchor | packages/claims/src/transparency/audit-chain.ts:156-179 | ok exactly when the rows up to the anchored number are sound, that number occurs, and its first row has the anchored hash |
| AuditLog.AnchorPinsHistory | packages/claims/src/transparency/audit-chain.ts:149-155 | a log in ascending order that passes the anchor check begins with the anchored history, row for row, short of a broken hash |
| AuditLog.HonestLogPasses | packages/claims/src/transparency/audit-chain.ts:149-155 | a sound log passes the check against every one of its own earlier heads |
| Encodings.HexLowercase | packages/canonical/src/canonical.ts:165-171 | the loop spells two lowercase digits per byte |
| Decoders.HexReads | packages/canonical/src/canonical.ts:165-171 | hex letters read by their value give the bytes back |
| Decoders.DecimalReads | packages/canonical/src/canonical.ts:158-158 | the decimal digits give the amount back |
| Decoders.Base58Reads | packages/claims/src/api/proof-testkit.ts:139-154 | the published alphabet and leading ones give the bytes back |
| Decoders.Base64UrlReads | packages/canonical/src/canonical.ts:44-48 | the published alphabet gives the bytes back, without padding |
| Decoders.Utf8Reads | packages/canonical/src/canonical.ts:102-102 | decoding by section 3 of RFC 3629 gives the text back |
| Decoders.HexInjective | packages/canonical/src/canonical.ts:165-171 | hex determines the bytes |
| Decoders.DecimalInjective | packages/canonical/src/canonical.ts:158-158 | the decimal amount determines the number |
| Encodings.Base58Encode | packages/claims/src/api/proof-testkit.ts:139-154 | the three loops compute base58 with one leading '1' per zero byte |
| Decoders.Base58Injective | packages/claims/src/api/proof-testkit.ts:139-154 | base58 determines byte strings of any lengths |
| Decoders.Base64UrlInjective | packages/canonical/src/canonical.ts:44-48 | unpadded base64url determines byte strings of any lengths (section 5 of RFC 4648) |
| Decoders.Utf8Injective | packages/canonical/src/canonical.ts:102-102 | UTF-8 determines the text |
| MessageReader.AntMessageInjective | packages/canonical/src/canonical.ts:70-103 | an accepted ANT message determines network, mint, claimant, nonce and the recipient's digest, for any network text |
| MessageReader.EscrowMessageInjective | packages/canonical/src/canonical.ts:126-163 | an accepted token or vault message determines kind, network, asset, amount, claimant, nonce and the recipient's digest |
| MessageReader.EscrowMessageReads | packages/canonical/src/canonical.ts:126-163 | an independent reader (UTF-8, lines, labels in order, one decoder per value) gets back the kind by its word, network, digest, asset, amount, claimant and nonce |
| MessageReader.AntMessageReads | packages/canonical/src/canonical.ts:70-103 | the same for an ANT message |
| MessageReader.EscrowMessageHasEightLines | packages/canonical/src/canonical.ts:152-162 | with a network of one line the message is eight lines without a trailing line feed |
| MessageReader.AntMessageHasSixLines | packages/canonical/src/canonical.ts:94-102 | and an ANT message six |
| MessageReader.RefusedExactly | packages/canonical/src/canonical.ts:81-92 | which inputs are refused, and as what |
| MessageReader.RecipientIsBound | packages/canonical/src/canonical.ts:29-42 | and the recipient's key, short of a digest collision |
| MessageReader.KindsNeverCollide | packages/canonical/src/canonical.ts:23-27 | no byte string is both an ANT message and a token or vault message |
| AntAcl.ReadOwnerAcl | packages/claims/src/dispatch/ant-acl-execute.ts:63-82 | among the pages the endpoint returned, the page with the entry is the last that holds it and the page with room the first |
| AntAcl.ReadSnapshot | packages/claims/src/dispatch/ant-acl-execute.ts:93-133 | the snapshot describes the two users' pages as far as they were returned |
| AntAcl.PlanAclHeal | packages/claims/src/dispatch/ant-acl-reconcile.ts:81-155 | the pushed instructions are the removal, bootstrap, recording and reconcile the snapshot calls for, in that order |
| AntAcl.VerifyIsExact | packages/claims/src/dispatch/ant-acl-execute.ts:199-211 | verification says healed exactly when the chain is |
| AntAcl.VerificationSays | packages/claims/src/dispatch/ant-acl-execute.ts:199-211 | the five things verification asks of the chain |
| AntAcl.PlanSays | packages/claims/src/dispatch/ant-acl-reconcile.ts:81-155 | each instruction is planned exactly when the chain calls for it, in this order; aborted exactly for a foreign owner |
| AntAcl.NothingToDoMeansHealed | packages/claims/src/dispatch/ant-acl-reconcile.ts:67-71 | the plan is empty exactly in the healed states |
| AntAcl.PlanSucceeds | packages/claims/src/dispatch/ant-acl-reconcile.ts:73-80 | the planned transaction of an owning claimant never fails on chain, moves one owner entry from the old to the new owner, and keeps every other entry and the page cap |
| AntAcl.HealsExactly | packages/claims/src/dispatch/ant-acl-reconcile.ts:81-155 | one run heals exactly when the claimant owns the asset and is not the old owner, the old entry is not duplicated, and the old owner is not a controller under an already current owner |
| AntAcl.RerunsConvergeExactly | packages/claims/src/dispatch/ant-acl-reconcile.ts:73-80 | re-runs, as many as the old owner has entries and at least one, converge exactly when the claimant owns the asset, is not the old owner, and the old owner is not a controller under an already current owner; duplicates do not hinder |
| AntAcl.DuplicateExample | packages/claims/src/dispatch/ant-acl-execute.ts:73-80 | an ANT whose old entry is duplicated is not healed after one run and is after two |
| AntAcl.HealIsAFixedPoint | packages/claims/src/dispatch/ant-acl-reconcile.ts:73-80 | after it verification holds, the next plan is empty and nobody else's entries changed |
| AntAcl.LingeringControllerIsStuck | packages/claims/src/dispatch/ant-acl-reconcile.ts:135-152 | a lingering controller under a current owner is planned for again and again without effect |
| AclHealer.Healer.SweepOnce | packages/claims/src/dispatch/ant-acl-healer.ts:80-131 | one pass updates exactly the picked rows by their outcomes, costing failures an attempt, and the summary counts the outcomes kind by kind |
| AclHealer.Healer.RecordFailure | packages/claims/src/dispatch/ant-acl-healer.ts:137-151 | a failure counts an attempt and parks the claim at the limit |
| AclHealer.OldestGoFirst | packages/claims/src/dispatch/ant-acl-healer.ts:80-90 | no pending claim is passed over for a later one |
| AclHealer.SweepPays | packages/claims/src/dispatch/ant-acl-healer.ts:137-151 | every visit is paid out of the visited claim's budget |
| AclHealer.VisitsAreBounded | packages/claims/src/dispatch/ant-acl-healer.ts:10-12 | over any number of passes a claim is visited at most as often as its budget |
| AclHealer.FreshClaimBound | packages/claims/src/dispatch/ant-acl-healer.ts:10-12 | a fresh claim is visited at most max(1, maxAttempts) times |
| AclHealer.QueueDrains | packages/claims/src/dispatch/ant-acl-healer.ts:10-12 | without arrivals the queue is empty after as many passes as the total budget, even if every visit fails |
| AclHealer.HealOne | packages/claims/src/dispatch/ant-acl-healer.ts:30-41 | an undisturbed attempt is aborted exactly for a foreign owner, already exactly when the chain is healed, and otherwise healed or failed as the chain is afterwards |
| AclHealer.VisitCountsDown | packages/claims/src/dispatch/ant-acl-healer.ts:96-128 | every attempt on an undisturbed ANT brings the claim exactly one visit closer to being done |
| AclHealer.DoneAfterExactly | packages/claims/src/dispatch/ant-acl-healer.ts:10-12 | over any passes the visits of an undisturbed ANT and those it still needs add up: one if it is healable or not the claimant's, one more per further duplicate, its whole budget if it is beyond repair |
| AclHealer.HealableAndLingering | packages/claims/src/dispatch/ant-acl-healer.ts:137-151 | a fresh claim is done after exactly one visit when the ANT is healable and after exactly max(1, maxAttempts) when a controller lingers |
| Locks.NoDeadlock | packages/claims/src/api/service.ts:13-27 | the wait-for relation of single-claim transactions has no cycle |
| Locks.SomeoneMoves | packages/claims/src/dispatch/dispatch-core.ts:90-98 | behind every transaction there is one that can go on |
| Locks.NeverDeadlocked | packages/claims/src/api/audit.ts:13-16 | in every reachable lock state, for any number of transactions |
| Locks.OppositeOrdersDeadlock | packages/claims/src/dispatch/dispatch-core.ts:96-97 | taking the rows in opposite orders can deadlock |

## Left out

- Idempotency keys of initiate and complete: they only pick an existing claim row.
- Proof verification (RSA-PSS, secp256k1) and the settlement label stored at completion: the proof is its verdict, the label is advisory.
- Operator actions outside the service code (freezing, cancelling or re-opening rows by hand): a terminal claim stays terminal in the model.
- The switch that leaves the memo out of a dispatch: runs have it on, as by default; `Chain.SignatureNamesItsClaim` says exactly what is lost without it.
- Chain forks, commitment levels beyond processed and settled, fees, and address histories longer than one page: a page is whatever the endpoint returned.
- `reservedAssetScope` of the float query, a test isolation option; float caps, refill thresholds and alerts.
- Which of the eligible claims a reserve selects first (approval and creation times are not columns here), and its test scope.
- The audit rows' detail fields, timestamps, and the legacy rows without stored canonical text.
- Numbers in canonical JSON other than integers, and values JSON.stringify refuses (big integers, functions, cycles).
- Network texts with lone surrogates in claim messages: strings are sequences of Unicode scalar values there.
- Transaction, account and page byte layouts, program-derived addresses and the account decoders of the ACL heal.
- Order of the recipients in a plan (they are a map by source address), provenance fields of planned assets, input fingerprints, and the loaders that read and check the frozen files.
- Amount strings of the stake plan that do not parse, fractional balances and clocks, and prototype keys of the modulus record.
- Deadlocks of multi-row transactions (reserve, build, cancel, expiry, reaper) and of initiate, which fix no row order.
- HTTP, configuration, rate limits, the challenge store, metrics, Slack, the admin panel, staging scripts, retired-ants.ts and manually-delivered.ts: plumbing and tables.
- Reconcile.ReportOkExactly: the three queries are taken at three instants of a run, in order; that one query is one snapshot is assumed of the database.
- AntOperator.ReserveAntBatch: which eligible claims come first when they do not all fit is not stated; the expiry that precedes it is a step of its own.
- The instant of a completion's unlocked read of the recipient row: in runs it may return anything, since nothing proved depends on it.
