# Durable money operations, verified

A Dafny model of the durable money-operation engine of getpaid-core, of the mutable state engine it runs
on, and of the append-only ledger of money recorded outside providers, with proofs of what they promise.

`dafny verify dfyconfig.toml` checks the whole project.

## What is modelled

One payment has **facts** (captured, refunded, remaining authorization, status, reconciliation
requirement, disputes), a growing **history** of operation records, and a **replay log**. Every call on
the repository — reserve, claim a submission, apply an observation, record an outcome, record a failure,
resolve — is one atomic step planned by pure rules. Callbacks, late responses, duplicate deliveries,
retries, refund cancellations and operator corrections arrive in any order, so every main result is about
all runs. Safety alone would be met by an engine that refuses everything, so each call also has a verdict: the
exact condition, readable before the call, under which it is accepted, and the complete state it then leaves.

| file | what it holds |
|---|---|
| `Records.dfy`, `Wrappers.dfy` | the value records of the contract |
| `StateEngine.dfy`, `PaymentEngine.dfy` | the state engine as functions, and as the in-place engine with rollback and its event cache |
| `Lifecycle.dfy` | the lifecycle in tables: which events are accepted, the status each leaves, and a whole update in one closed form |
| `RefundTotal.dfy` | the sorted, accumulating refund bound and what it means |
| `Rules.dfy`, `Resolution.dfy`, `System.dfy` | the planners, audited decisions, and the payment as a transition system |
| `Effects.dfy`, `History.dfy`, `Steps.dfy`, `Decisions.dfy` | what each call can do, the invariant of all histories, every step and every run |
| `Sums.dfy`, `Settlements.dfy`, `Conservation.dfy`, `Accounts.dfy` | settled money and its conservation |
| `Ledger.dfy` | recorded totals against a provider's true ledger |
| `Coherence.dfy`, `Marker.dfy`, `Recording.dfy`, `Accountability.dfy`, `Commutation.dfy`, `CaptureOrder.dfy`, `Replays.dfy`, `Evidence.dfy` | status, totality, who may do what, races, order of delivery, retained evidence |
| `Verdicts.dfy`, `Outcomes.dfy`, `Observations.dfy`, `Rulings.dfy` | for each call, exactly when it is accepted and everything it leaves |
| `Repository.dfy` | the in-memory repository as a class over dictionaries |
| `Dispatch.dfy`, `Liveness.dfy` | any number of workers, crashes and the clock; and what undisturbed workers get done |
| `RecordedMoney.dfy`, `MoneyVerdicts.dfy`, `ExactSum.dfy` | recorded money, exactly which histories and commands it accepts, and exact decimal summation |
| `CanonicalAmount.dfy`, `CanonicalRequest.dfy` | canonical text and canonical trees of requests |

Conventions:

- Money is an exact real wherever the source treats decimals as exact; `ExactSum` and `CanonicalAmount`
  use (coefficient, exponent) pairs, with addition as the General Decimal Arithmetic Specification defines
  it: the exact sum, then rounding to the context precision, in any rounding mode.
- A digest is an injective function of what it covers (SHA-256, section 6.2 of FIPS 180-4), so records hold
  the covered content itself. Identifiers are strings and time is an integer.
- A raised exception is an `Err` that commits nothing.
- A run starts from facts within the money bounds (`System.Initial`); results about the status also start
  from a status that fits the money (`Coherence.Coherent`).
- `History.Sound` is the invariant of all histories. `Decisions.RunDevelops` proves it of every reachable
  state, so a result that requires it holds in all of them; `Coherence.CoherentRun` does the same for the
  status.
- Where the source changes objects in place, classes do so here, and each method is proved against the
  function that the other modules reason about.

Where the code and its own words disagree, the code is modelled. The comment at
`src/getpaid_core/fsm.py:63-66` says the cached identity set is rebuilt whenever the stored list is mutated
externally. The code only compares the list object and the length. `PaymentEngine.ReplacedInPlaceIsMissed`
gives an edit that goes unnoticed, and `PaymentEngine.EditIsSeen` says exactly which edits are noticed.

A status of REFUND_STARTED does not always mean that the history has an active refund. A refund request
observed on a paid payment without operations is accepted and leaves the marker alone
(`Marker.RequestLeavesUnbackedMarker`), which refuses new charges while it stands. `Marker.MarkerLosesBacking`
gives the exact condition for one call, `Marker.UnbackedMarkerHasOrigin` the call responsible in a run, and
`Marker.RunCoherent` the guarantee where no such request is observed.

Capture totals are not always independent of their order. An event identity is applied once, so of two totals
under one identity the first one delivered stays and the other is disputed: 5 before 7 ends with 5 captured, 7
before 5 with 7 (`CaptureOrder.ReusedIdentityOrderMatters`). `CaptureOrder.CaptureOrderIsIrrelevant` gives the
exact condition on the claims, and `CaptureOrder.UnreusedIdentitiesSettle` shows that claims without such reuse
meet it. The requirement to reconcile is set in either order.

## Model

| member | source | states |
|---|---|---|
| RefundTotal.ComputeGreatestBound | src/getpaid_core/durable/rules.py:842-855 | the source's two-accumulator loop computes the specified total |
| RefundTotal.GreatestBoundIsMaximum | src/getpaid_core/durable/rules.py:818-855 | with distinct sequences the total is the maximum over refunds of starting total plus amounts confirmed at or after it |
| RefundTotal.GreatestBoundAtMost | src/getpaid_core/durable/rules.py:825-831 | no limit that respects every single reservation's bound is exceeded by the total |
| RefundTotal.GreatestBoundAtLeast | src/getpaid_core/durable/rules.py:825-831 | no reservation's bound is lost |
| RefundTotal.GreatestBoundPermutes | src/getpaid_core/durable/rules.py:844-854 | the total does not depend on the order of the history |
| Settlements.RefundTotalAtMost | src/getpaid_core/durable/rules.py:818-855 | inside a sound history, the total stays within any limit each refund's baseline and later settlements respect |
| Settlements.RefundTotalAtLeast | src/getpaid_core/durable/rules.py:818-855 | inside a sound history, the total covers every refund's baseline and later settlements |
| Effects.AppliedFacts | src/getpaid_core/durable/rules.py:108-191 | applying an update leaves exactly the greatest totals ever claimed, keeps bounds, identity, disputes, flags and an unresolved refund marker |
| Effects.AppliedAuthorization | src/getpaid_core/durable/rules.py:117-133 | the hold an update leaves: none after a release, and never a hold older than the recorded capture |
| Effects.AppliedStatus | src/getpaid_core/durable/rules.py:176-191 | a status that shows captured money still does after an update |
| Effects.EvidenceEffect | src/getpaid_core/durable/rules.py:918-1144 | every accepted outcome either is retained with money, status and state unchanged, or advances the operation with exactly the money its type confirms |
| Effects.SettlementMoney | src/getpaid_core/durable/rules.py:770-815 | an applied success moves exactly the money of its operation type |
| StateEngine.ApplyUpdateKeepsMoney | src/getpaid_core/_amounts.py:33-53 | an accepted engine update keeps the bounds and never lowers captured or refunded |
| Lifecycle.StatusProjected | src/getpaid_core/fsm.py:237-281 | the status money supports, captured or not: a table over totals, hold, release and previous status |
| Lifecycle.EventVerdict | src/getpaid_core/fsm.py:311-436 | when each event is a transition of the payment, and the money and status it leaves, also while nothing is captured |
| Lifecycle.AppliedExactly | src/getpaid_core/durable/rules.py:108-191 | a possible update is accepted exactly when its event and fraud event are transitions of the payment with the claimed totals; three engine runs leave one closed form |
| Steps.ObserveCases | src/getpaid_core/durable/rules.py:388-497 | every accepted observation is retained, applies its totals alone, or settles exactly one correlated operation |
| Steps.AggregateForward | src/getpaid_core/durable/rules.py:406-464 | the aggregate part leaves the greatest totals, and isolated increments never accumulate |
| Steps.OutcomeStep | src/getpaid_core/durable/memory.py:130-149 | recording an outcome keeps the history sound and only develops it |
| Steps.ReserveStep | src/getpaid_core/durable/memory.py:78-88 | a reservation keeps the history sound and only develops it |
| Steps.ReservationAppends | src/getpaid_core/durable/rules.py:551-694 | a new reservation has a fresh identity, a later sequence, and is blocked by every holder it does not cancel |
| Verdicts.ReservationVerdict | src/getpaid_core/durable/rules.py:599-694 | a new intent is reserved exactly when nothing is flagged, nothing but the refund it cancels holds the payment, and the money allows its amount; every field of the record it leaves |
| Verdicts.ClaimVerdict | src/getpaid_core/durable/rules.py:697-767 | a claim is accepted exactly when nothing is flagged, and grants exactly the first attempt of a reserved record or the next one of an uncertain record before its deadline; everything it freezes |
| Verdicts.FailureVerdict | src/getpaid_core/durable/evidence.py:72-87 | a failed recording is always retained, once, and changes nothing else |
| Verdicts.UnknownOperation | src/getpaid_core/durable/memory.py:115-128 | nothing can be claimed, recorded or decided about an operation that was never reserved |
| Decisions.DecidedForward | src/getpaid_core/durable/resolution.py:144-225 | a decision ends its operation in the decided state, no lower than before, within its reservation |
| Decisions.StepDevelops | src/getpaid_core/durable/memory.py:56-194 | every accepted call keeps the history sound and only develops it |
| Decisions.RunDevelops | src/getpaid_core/durable/memory.py:56-194 | in every run money never goes back, disputes, claims and audits are only added, states and submissions only move forward, success keeps or raises its amount, pending attempts stay distinct and claimed |
| Decisions.HoldersArePaired | src/getpaid_core/durable/rules.py:551-574 | two operations hold a payment together only as a refund and the cancellation that names it |
| Decisions.HoldingIsNotRegained | src/getpaid_core/durable/rules.py:1062-1063 | an operation that stopped holding never holds again |
| Conservation.SettlingMoves | src/getpaid_core/durable/rules.py:1075-1109 | what one recorded outcome can do to captured and refunded money |
| Conservation.StepKind | src/getpaid_core/durable/memory.py:56-194 | every accepted call is quiet within its aggregate claims, appends one reservation, or settles one operation |
| Accounts.RunFunded | src/getpaid_core/durable/rules.py:770-855 | in every run the totals cover the initial money and all settled amounts of succeeded charges and refunds |
| Accounts.RunExact | src/getpaid_core/durable/rules.py:882-1144 | without aggregate claims, captured and refunded equal exactly initial money plus settled amounts, whatever duplicates, retries, late settlements or corrections occur |
| Ledger.RefundTotalBacked | src/getpaid_core/durable/rules.py:825-831 | the refund total never exceeds the provider's true total |
| Ledger.RunBacked | src/getpaid_core/durable/rules.py:1049-1109 | the inductive invariant against a provider ledger with truthful evidence |
| Ledger.TotalsBetweenSettledAndTrue | src/getpaid_core/durable/rules.py:770-855 | with truthful evidence, initial plus settled <= recorded <= true money, for captures and refunds, in every run |
| Marker.RunCoherent | src/getpaid_core/durable/rules.py:1118-1141 | in every run an active refund shows in the status; unless a refund request was observed, REFUND_STARTED shows only while a refund is active, and any other state with captured funds shows exactly its money |
| Marker.MarkerLosesBacking | src/getpaid_core/durable/rules.py:488-497 | an accepted call leaves a REFUND_STARTED without an active refund exactly when it is a new, financially possible refund request observed with no active refund |
| Marker.UnbackedMarkerHasOrigin | src/getpaid_core/durable/memory.py:56-194 | in every run a REFUND_STARTED without an active refund is traced to the call that observed such a request |
| Marker.RequestIsAccepted | src/getpaid_core/fsm.py:388-391 | while captured money is left to return, an observed refund request is accepted in any history and marks the payment |
| Marker.RequestLeavesUnbackedMarker | src/getpaid_core/durable/rules.py:179-186 | a paid payment without operations that ends marked REFUND_STARTED |
| Effects.AppliedMarker | src/getpaid_core/durable/rules.py:108-191 | applying an update marks a refund exactly when it requests one, and otherwise never creates the mark |
| Coherence.CoherentRun | src/getpaid_core/durable/rules.py:488-497 | status coherence is an invariant of every call |
| Coherence.NoCaptureWhileReturning | src/getpaid_core/fsm.py:178-202 | no new charge is accepted while a refund is unresolved or after money was returned |
| Coherence.NoCaptureAfterRefund | src/getpaid_core/durable/rules.py:535-548 | after the first returned money no charge is ever reserved again |
| Recording.OutcomeAlwaysRecorded | src/getpaid_core/durable/rules.py:882-1144 | in every reachable state an outcome is refused exactly when it has the wrong shape or names an unclaimed attempt; otherwise it settles or is retained with money, status and state unchanged |
| Recording.EvidencePlanned | src/getpaid_core/durable/rules.py:918-1144 | in a sound history the planner never raises on evidence of the right shape |
| Recording.ChargeAlwaysSettles | src/getpaid_core/durable/rules.py:304-326 | a success of an open charge within its reservation is never disputed for want of room |
| Recording.EvidenceApplies | src/getpaid_core/durable/rules.py:1102-1109 | evidence found financially possible never raises while it is applied |
| Outcomes.PlannedExactly | src/getpaid_core/durable/rules.py:918-1144 | in a sound history the planner accepts exactly the well-formed outcomes; the record, the facts and the related record it plans, field by field |
| Outcomes.OutcomeVerdict | src/getpaid_core/durable/rules.py:882-1144 | a recording is accepted exactly when the outcome is well-formed and names a claimed attempt; the complete state it leaves |
| Outcomes.OutcomeFlags | src/getpaid_core/durable/rules.py:1019-1044 | an operation is flagged exactly when it was, the outcome asks for it, or the outcome contradicts what is known; the payment then too |
| Rulings.DecisionVerdict | src/getpaid_core/durable/resolution.py:105-240 | a new decision is accepted exactly when it is evidenced, reviewed against the current state and allowed: it fits, undoes nothing confirmed, revives no older intent, has room, and clears only when nothing else is flagged; the complete state it leaves |
| Rulings.OpenMayBeRejected | src/getpaid_core/durable/resolution.py:190-208 | an open operation can always be decided as rejected, however it is flagged |
| Observations.ObservationVerdict | src/getpaid_core/durable/rules.py:359-497 | an observation is accepted exactly when it is well-formed and, if new and possible, its event is a transition and its outcome evidence about the operation it correlates with; the complete state it leaves |
| Observations.AggregateExactly | src/getpaid_core/durable/rules.py:412-463 | which part of an observation is applied to the payment as a whole, and what is disputed beside it |
| Observations.CorrelatedRequestFlags | src/getpaid_core/durable/rules.py:464-487 | a correlated outcome that asks for reconciliation flags its operation and the payment |
| Observations.ObservationLogged | src/getpaid_core/durable/rules.py:389-411 | an accepted observation with a new, possible event identity appends exactly its own replay record; nothing else touches the log |
| Observations.NewEventMeans | src/getpaid_core/durable/rules.py:391-394 | an identity is compared within one payment and one provider; an empty one is none |
| Observations.AppliedOnce | src/getpaid_core/durable/rules.py:389-404 | in every run each event identity is applied at most once |
| Observations.ContentIsExact | src/getpaid_core/durable/records.py:323-361 | two observations have the same digest exactly when they say the same, metadata apart |
| Accountability.RejectionIsFinal | src/getpaid_core/durable/rules.py:1049-1063 | a rejected operation succeeds later only by a settled cancelled refund or a decision with no later intent |
| Accountability.PendingUntilAnswered | src/getpaid_core/durable/rules.py:882-915 | a granted attempt stays pending, and its operation listed, until its own response or a decision |
| Accountability.FlagClearedByDecision | src/getpaid_core/durable/resolution.py:226-240 | the payment's reconciliation requirement ends only by a decision that asked for it with no operation flagged |
| Accountability.NothingReservedWhileFlagged | src/getpaid_core/durable/rules.py:644-656 | while reconciliation is required no new operation is reserved |
| Accountability.GrowsByReservation | src/getpaid_core/durable/rules.py:599-694 | what a new reservation is made from: clear flags, no holder, current totals, an amount within what is available, and the intent's own type and parameters, with only the target's handle added for a cancellation |
| Accountability.RequestsStayCarried | src/getpaid_core/durable/rules.py:651-680 | in every run every record carries the type, amount and parameters of the request whose digest it holds |
| Accountability.ReservationResumes | src/getpaid_core/durable/rules.py:629-642 | a same-identity command is accepted exactly for the same request and then changes nothing |
| Accountability.DecisionResumes | src/getpaid_core/durable/resolution.py:122-127 | a retained decision's identity is accepted exactly for the same decision, ever after, and then changes nothing |
| Accountability.DecisionIsRetained | src/getpaid_core/durable/resolution.py:221-225 | an accepted decision is retained with its operation |
| Accountability.AcceptedIsNeverResubmitted | src/getpaid_core/durable/rules.py:749-756 | an accepted or ended operation is never claimed again |
| Accountability.NoRetryAfterDeadline | src/getpaid_core/durable/rules.py:749-756 | no attempt is granted at or after the deadline frozen with the first one |
| Accountability.StepAccountable | src/getpaid_core/durable/memory.py:56-194 | which calls may revive, retire, clear or grant, for every accepted call |
| Commutation.Verdict | src/getpaid_core/durable/rules.py:981-1109 | a success of a refund or cancellation is accepted exactly when shape, handles, state and refund total allow it |
| Commutation.RefundRecorded | src/getpaid_core/durable/rules.py:1075-1141 | the exact result of recording a refund's success, with or without another refund still active |
| Commutation.CancelRecorded | src/getpaid_core/durable/rules.py:1082-1141 | the exact result of recording a cancellation's success, with or without another refund still active |
| Commutation.CancellationCommutes | src/getpaid_core/durable/rules.py:1049-1141 | success of a refund and of the cancellation that names it commute, for any history, amounts and handles |
| CaptureOrder.CapturesFix | src/getpaid_core/durable/rules.py:359-497 | after any capture claims the total is the greatest of the recorded total and the first possible claim under each event identity, and the hold, status and flag are those of that total and the disputed claims |
| CaptureOrder.CaptureOrderIsIrrelevant | src/getpaid_core/durable/rules.py:359-497 | any permutation, and any repetition, of capture claims ends the same exactly when every possible claim is covered by the recorded total or by an event whose possible claims are all at least as high |
| CaptureOrder.OrderMatters | src/getpaid_core/durable/rules.py:389-404 | claims without such cover have two permutations that end with different captured totals |
| CaptureOrder.ReusedIdentityOrderMatters | src/getpaid_core/durable/rules.py:389-404 | one event identity delivered with 5 and with 7 keeps whichever came first |
| CaptureOrder.UnreusedIdentitiesSettle | src/getpaid_core/durable/rules.py:389-404 | claims that use each event identity for one content only meet the condition, possible or not |
| Replays.DuplicateChangesNothing | src/getpaid_core/durable/rules.py:389-404 | an accepted event that was new and possible changes nothing when it is delivered again after any run |
| Replays.ReusedIdentityIsDisputed | src/getpaid_core/durable/rules.py:389-404 | the identity of an accepted event that was new and possible moves nothing with other content, after any run, and requires reconciliation |
| Evidence.PlannedIsAccounted | src/getpaid_core/durable/rules.py:981-1058 | every planned outcome advances its operation, repeats what is known, or is a flagged dispute; disagreeing handles are always a dispute and never replace a known one |
| Evidence.RecordedEvidenceIsKept | src/getpaid_core/durable/rules.py:858-879 | a recorded outcome that did neither stays among the disputes over every run |
| Evidence.FailureIsKept | src/getpaid_core/durable/evidence.py:72-87 | a response that could not be recorded stays as a claim, flags the operation, and moves neither money nor state |
| Evidence.AppliedOnlyWhenUnique | src/getpaid_core/durable/rules.py:465-487 | an observation changes an operation only when exactly one retained operation correlates; it changes that one, and besides it at most the refund it cancels |
| Evidence.ObservedEvidenceIsKept | src/getpaid_core/durable/rules.py:194-205 | every part of an observation that cannot be applied is retained with its reason, flagged, and kept over every run |
| Evidence.ScopedReleaseAcknowledged | src/getpaid_core/durable/rules.py:158-167 | a scoped release never fails for want of a hold and leaves none, whatever possible totals come with it: only its fraud event can refuse it |
| Evidence.MarkerSurvivesDecision | src/getpaid_core/durable/resolution.py:209-220 | a decision about an ended operation keeps a refund marker it did not complete |
| Repository.ReplaceAll | src/getpaid_core/durable/memory.py:67-73 | the dictionary pass replaces each record by its latest change |
| Repository.InMemoryDurableRepository.constructor | src/getpaid_core/durable/memory.py:42-48 | exactly the given payments are known, each by its last entry and without operations; those within the money bounds start sound |
| Repository.InMemoryDurableRepository.ApplyObservation | src/getpaid_core/durable/memory.py:56-76 | one step of the addressed payment or a refusal, no other payment touched |
| Repository.InMemoryDurableRepository.ReserveOperation | src/getpaid_core/durable/memory.py:78-88 | one step or a refusal; returns the retained record of that identity |
| Repository.InMemoryDurableRepository.ClaimSubmission | src/getpaid_core/durable/memory.py:90-114 | one step or a refusal; returns the retained record |
| Repository.InMemoryDurableRepository.RecordOperationOutcome | src/getpaid_core/durable/memory.py:130-149 | one step or a refusal; operation, related operation and facts commit together |
| Repository.InMemoryDurableRepository.RecordOperationFailure | src/getpaid_core/durable/memory.py:151-159 | one step or a refusal; the claim is retained |
| Repository.InMemoryDurableRepository.ResolveOperation | src/getpaid_core/durable/memory.py:161-182 | one step or a refusal of an audited decision |
| Repository.InMemoryDurableRepository.GetOperation | src/getpaid_core/durable/memory.py:196-206 | the retained operation of that identity, or none |
| Repository.InMemoryDurableRepository.ListUnresolvedOperations | src/getpaid_core/durable/memory.py:208-216 | exactly the operations active, flagged or awaiting a response, once for each retained record, in dictionary and history order |
| Repository.CallKeepsSound | src/getpaid_core/durable/memory.py:56-194 | a call about one payment keeps every sound history sound, develops the payment it addresses and loses no payment |
| Repository.InMemoryDurableRepository.ListPaymentsRequiringReconciliation | src/getpaid_core/durable/memory.py:218-226 | exactly the payments that require reconciliation, each once, in dictionary order |
| PaymentEngine.EditIsSeen | src/getpaid_core/fsm.py:59-80 | duplicate checks after an in-place edit are right exactly when the length gives it away or the identities are the same |
| PaymentEngine.ReplacedInPlaceIsMissed | src/getpaid_core/fsm.py:70-74 | an edit that the cache does not notice |
| PaymentEngine.Payment.AppliedEventIds | src/getpaid_core/fsm.py:59-80 | the set view always equals the stored list |
| PaymentEngine.Payment.RecordProviderEvent | src/getpaid_core/fsm.py:83-93 | an identity is new exactly when the stored list lacks it, and is then appended |
| PaymentEngine.Payment.ReplaceProviderData | src/getpaid_core/fsm.py:62-66 | replacing the metadata keeps the cache trustworthy |
| PaymentEngine.Payment.ReplaceList | src/getpaid_core/fsm.py:62-66 | replacing the stored list keeps the cache trustworthy |
| PaymentEngine.Payment.EditList | src/getpaid_core/fsm.py:70-74 | editing the cached list keeps the cache trustworthy exactly under the stated condition |
| PaymentEngine.Payment.ApplyPaymentEvent | src/getpaid_core/fsm.py:311-436 | the in-place event handling equals the specified transition, and a refusal changes nothing |
| PaymentEngine.Payment.ApplyFraud | src/getpaid_core/fsm.py:439-470 | the in-place fraud handling equals the specified transition |
| PaymentEngine.Payment.Restore | src/getpaid_core/fsm.py:297-308 | every field returns to the snapshot, with the metadata in new objects |
| PaymentEngine.Payment.ApplyPaymentUpdate | src/getpaid_core/fsm.py:473-499 | a known event changes nothing, a refused update restores every field, metadata and identity list, and an accepted one has the specified effect |
| PaymentEngine.RunEngineOverFacts | src/getpaid_core/durable/rules.py:108-191 | running the mutable engine over a throwaway view gives the specified facts |
| Dispatch.GrantIsNew | src/getpaid_core/durable/rules.py:732-767 | a granted claim is an attempt no one holds yet |
| Dispatch.HistoryInv | src/getpaid_core/durable/flow.py:130-217 | the protocol invariant over all interleavings |
| Dispatch.CallsMatchAttempts | src/getpaid_core/durable/flow.py:185-217 | each provider call matches a distinct committed attempt, and one with a deadline starts under the frozen key scope with a full provider timeout left of the deadline and of the declared window |
| Dispatch.CallsAreFrozen | src/getpaid_core/durable/flow.py:424-494 | all calls for an intent carry the same amount, parameters, key, scope and deadline |
| Dispatch.NoDeadlineOneCall | src/getpaid_core/durable/flow.py:496-530 | an intent claimed without a deadline is submitted at most once |
| Dispatch.CallStaysOpen | src/getpaid_core/durable/flow.py:185-280 | once a submission was handed to the provider its attempt stays pending and its operation listed until that response or a decision is committed, whatever workers crash |
| Dispatch.RecordedOrRetained | src/getpaid_core/durable/flow.py:219-280 | a response whose recording the repository refuses leaves its safe fields with the operation |
| Liveness.CallsCarryRequests | src/getpaid_core/durable/flow.py:206-208 | every call carries the type, amount and parameters of the request whose digest its operation froze |
| Liveness.SubmissionVerdicts | src/getpaid_core/durable/flow.py:194-208 | a granted worker calls the provider exactly when the call is in time; nothing else calls it |
| Liveness.RetryVerdict | src/getpaid_core/durable/flow.py:476-528 | a reconciling worker retries exactly when asked to, with nothing flagged, for an uncertain operation whose frozen terms still hold |
| Liveness.ReconcileVerdict | src/getpaid_core/durable/flow.py:440-454 | reconciliation takes up exactly the open work that was ever claimed |
| Liveness.AnswerVerdict | src/getpaid_core/durable/flow.py:455-474 | the answer of a query is recorded without retiring a response, and the worker goes on with the attempts it saw before it asked |
| Liveness.ResponseVerdict | src/getpaid_core/durable/flow.py:219-280 | a response retires exactly its own attempt, or leaves its safe fields and the attempt pending |
| Liveness.ClaimingVerdict | src/getpaid_core/durable/flow.py:166-183 | the first claim freezes the terms declared when the worker began |
| Liveness.RetryingVerdict | src/getpaid_core/durable/flow.py:481-494 | a retry claims at the present time and freezes nothing anew |
| Liveness.DuplicateVerdict | src/getpaid_core/durable/flow.py:147-165 | executing a retained intent again dispatches it only while it is still reserved |
| Liveness.ExecutionSubmits | src/getpaid_core/durable/flow.py:130-208 | an undisturbed worker that executes a reservable intent reserves it, claims its first attempt and hands exactly that record to the provider |
| Liveness.ResumptionSubmits | src/getpaid_core/durable/flow.py:150-183 | so does one that executes a retained intent while it is still only reserved |
| Liveness.RetrySubmits | src/getpaid_core/durable/flow.py:424-494 | an undisturbed worker submits an uncertain operation once more when its frozen terms still hold |
| RecordedMoney.ProjectRecordedMoney | src/getpaid_core/recorded_money.py:203-275 | the source's loop computes the specified projection or fault |
| RecordedMoney.EveryPrefixIsFunded | src/getpaid_core/recorded_money.py:203-275 | at every prefix the totals are the movements not yet corrected and 0 <= refunded <= captured <= required |
| RecordedMoney.CorrectedAtMostOnce | src/getpaid_core/recorded_money.py:278-308 | every correction is the exact inverse of one earlier movement, and no movement is corrected twice |
| RecordedMoney.ProjectionBalances | src/getpaid_core/recorded_money.py:264-275 | the listed effective movements add up to the totals |
| RecordedMoney.ReplayChangesNothing | src/getpaid_core/recorded_money.py:389-395 | replaying a retained command returns its entry and the same facts; another command under its identity is refused |
| RecordedMoney.PlanIsAccepted | src/getpaid_core/recorded_money.py:396-424 | the planner's output is accepted as its next input at any later time |
| RecordedMoney.NewCommandVerdict | src/getpaid_core/recorded_money.py:325-424 | on a clean root a new command is refused exactly for its own faults |
| RecordedMoney.PlayStaysClean | src/getpaid_core/recorded_money.py:325-424 | under a clock that never goes back, the stored summary always agrees with the append-only history |
| MoneyVerdicts.HistoryVerdict | src/getpaid_core/recorded_money.py:203-263 | a history is accepted exactly when every entry is new, says what its command asked for after the entries before it, and keeps the money funded |
| MoneyVerdicts.ListedVerdict | src/getpaid_core/recorded_money.py:264-275 | a projection lists exactly the movements of each kind that no correction withdrew |
| MoneyVerdicts.RootVerdict | src/getpaid_core/recorded_money.py:341-390 | a root is accepted exactly when it holds recorded money only and its summary is its history's |
| MoneyVerdicts.CommandVerdict | src/getpaid_core/recorded_money.py:391-424 | a new command is accepted on a clean root exactly when an entry for it extends the history; the entry and the facts the plan carries |
| ExactSum.ComputeSum | src/getpaid_core/recorded_money.py:187-200 | the loop computes the context's sum |
| ExactSum.SumIsExact | src/getpaid_core/recorded_money.py:187-200 | no partial sum is rounded, in any rounding mode, so the sum is exact |
| CanonicalAmount.CanonicalTextIsExact | src/getpaid_core/durable/records.py:102-109 | two finite amounts have the same text exactly when numerically equal |
| CanonicalRequest.CanonicalIsExact | src/getpaid_core/durable/records.py:112-136 | trees are equal exactly for requests equal up to mapping order, decimal scale and list or tuple |
| CanonicalRequest.DigestIdentifiesRequest | src/getpaid_core/durable/records.py:408-418 | a request's digest identifies type, amount and parameters |

## Left out

- CaptureOrder.CaptureOrderIsIrrelevant: covers observations that claim a captured total and no other money, event, outcome or handle; a refund observed before its capture is disputed and a second payment handle is disputed, so those do depend on order.
- Dispatch.CallsMatchAttempts: the application's `now` is taken to be the true clock, which the source asks its callers to supply.
- RecordedMoney.ProjectRecordedMoney: adds exact reals; that the decimal sum is exact is `ExactSum.SumIsExact`.
- An externally observed refund marker is not claimed to survive a local refund outcome, which re-projects the status from local operations.
- asyncio machinery (locks, shields, timeouts, bounded cleanup): a repository call is one atomic step, and a worker may stop between any two steps.
- The provider, validators, the plugin registry, capability declarations and configuration: the provider answers anything at any time.
- Python shape checks (types, printable text, safe handles, time zones, finite floats): the types here give them; audit texts and handles are taken as well formed.
- Exception texts and contexts: an error is its kind.
- `PaymentFlow`, the dummy backend, `migration.py` and `conformance.py`: thin checks, a field mapping and a contract suite around the same rules.
- Payment objects with `__slots__`, which cannot hold the event cache and rebuild the set on each call.
- Exponent limits of decimal contexts, which the source sets to their extremes, and signals a caller's context may trap; dropping zeros alone counts as exact.
