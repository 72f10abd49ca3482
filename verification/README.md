# Verified model of the Awakening State Service, model gateway and release seal

This project models three parts of the repository in Dafny and proves what they promise.

**The State Service (M2, M3, M4).** A transactional command processor for one Program. `Tables.dfy`
holds the rows, `Spec.dfy` gives each of the twelve commands an atomic meaning: first every refusal,
then one complete effect. The service itself writes rows first and compares afterwards, and it catches
business rejections inside the open transaction. `StateTransaction.dfy` is that transaction as a class
whose methods are the statements; `M2Service.dfy`, `M3Service.dfy`, `M4Service.dfy`, `Runner.dfy` and
`StateService.dfy` are the handlers, runners and dispatcher over it. `StateService.Dispatch` proves that
from every reachable state they do exactly what the atomic meaning says: the late guarded updates that
could leave half a write behind never fail. The meaning is itself measured by statements that do not use it:
`Reasons.dfy` and `Outcomes.dfy` say by what the rows show when a command is carried out and what each refusal is about,
`Records.dfy` what a command leaves behind, field by field, and `Provenance.dfy` from which calls of a run each
row comes. The invariants behind all this are in
`CoreInvariant.dfy`, `IngestInvariant.dfy`, `BudgetInvariant.dfy` and `LogInvariant.dfy`, joined in
`Invariant.dfy`; `Growth.dfy` says what a later state keeps of an earlier one.
The theorems over whole runs are in `Answers.dfy` (rejection atomicity, exactly once), `PlanHistory.dfy`
(linear history, what was approved is what is applied), `EventLog.dfy` (event log and ingest jobs),
`Caps.dfy` (caps, overshoot and the ledger), `Settlements.dfy`, `Erasure.dfy` (M4 can be left out) and
`McpAdapter.dfy` (Agents never change the plan).

**The model gateway.** `MarkerScan.dfy` proves the marker search loops against "one single occurrence,
whole and with boundaries". `PlanRegistry.dfy` has the single-use claim and the plan parser.
`Gateway.dfy` is the request protocol as threads that interleave over the State Service with arbitrary
other commands, exceptions included; `GatewayAnswers.dfy` says what every action does and when the answer is OK,
without the functions of the protocol. `Cost.dfy` carries the ceiling prices to runs of the State Service and
`GatewayBudget.dfy` to runs of the gateway, from the start-up check to the caps; `ObservedProvider.dfy` has
the concurrency counter. `Contracts.dfy` says what the trusted constructors accept, and `Demonstration.dfy`,
`GatewayDemonstration.dfy` and `GatewayCompletion.dfy` show concrete runs of accepted values.

**The release seal.** `Walk.dfy` is the sorted scan of a directory, `Seal.dfy` builds the three documents and
proves when they are a fixpoint, `SealVerifier.dfy` and `SealAgreement.dfy` say exactly when the independently
written checks accept a sealed tree, and `SealRefusals.dfy` makes sealed trees that they refuse; `SealText.dfy`
and `Ordering.dfy` hold the text forms and the stable sort.

Conventions. Clock readings and random identifiers are inputs of a command and may be anything, so a
collision is possible and ends as the database constraint error it is. SHA-256 over canonical JSON and
name-based UUIDs (section 5.5 of RFC 9562) are injective constructors. One `Tables` value holds the
rows of one Program; the row lock makes each command one atomic step. An idempotency replay, a key
conflict and every admission refusal are answers that write nothing. `Inv` is the invariant of all
reachable rows, and `Run` any sequence of commands from any callers.

Four statements that sound plausible are false of the code; each has an input that shows it and its exact
condition.

- Spending stays within the caps: settlement books reported usage above the reservation.
  `Demonstration.PlainCostCapFails` gives the run, `Caps.CapsHoldUpToOvershoot` and `Caps.SettlementFitsIff` the
  exact bound, `Cost.FittingRunsStayWithinCaps` and `GatewayBudget.GatewayStaysWithinCaps` the conditions under
  which nothing is exceeded.
- Every Provider call is settled: the usage receipt is built outside every handler, so an answer whose own
  identifier is not in form ends the request unsettled. `GatewayDemonstration.AnUnsettledCallIsReachable` gives
  the run, `Gateway.EveryCallIsSettledOnce` the condition.
- The check after sealing never fails: paths that fold together are listed in scan order.
  `SealRefusals.TwoFoldingFilesFail` gives packages, `Seal.SealIsAFixpointIff` the condition.
- A freshly sealed tree is accepted: `SealRefusals.ASecondSumsFileIsRefused` and
  `SealRefusals.AMissingHelperIsRefused` give trees, `SealAgreement.SealedSumsAreAcceptedIff` and
  `SealVerifier.SealedPinsAreAcceptedIff` the conditions.

## Model

| member | source | states |
|---|---|---|
| StateService.Dispatch | src/awakening/state/m4/service.py:161-227 | from any reachable rows the write-first service stores and answers exactly what the atomic meaning says, and never answers TRANSACTION_ABORTED: no guarded update fails; the invariant survives, and a rejection leaves everything but receipts unchanged |
| StateService.RunExistingProgramCommand | src/awakening/state/service.py:689-757 | reserve, lock, run, then commit or persist the rejection refines the atomic meaning; nothing but constraint violations is left to roll back |
| StateService.RunM3ProgramCommand | src/awakening/state/m3/service.py:401-484 | the same for M3 commands, whose caught job conflicts never follow a write |
| StateService.RunM4ProgramCommand | src/awakening/state/m4/service.py:762-839 | the same for M4 commands, which leave the Program version alone |
| StateService.CreateProgram | src/awakening/state/service.py:200-287 | creation with bootstrap members and its commit come to the atomic effect, or roll back |
| StateService.AddMembers | src/awakening/state/service.py:240-253 | the member loop adds every bootstrap member but the owner, or fails on a repeated one |
| Runner.Begin | src/awakening/state/service.py:706-717 | a taken key answers with the recorded result or a key conflict and writes nothing; a new key is reserved |
| Runner.Finish | src/awakening/state/service.py:725-757 | whatever an operation raised or wrote: a caught raise becomes a committed rejected receipt, any other restores the rows and answers a conflict or TRANSACTION_ABORTED |
| Runner.FinishConcludes | src/awakening/state/service.py:109-161 | when the operation refined its ruling, that end is the one the ruling asks for |
| StateService.StepNeverAborts | src/awakening/state/service.py:150-161 | from any state that satisfies the invariant no command, new or replayed, is answered TRANSACTION_ABORTED |
| Outcomes.StepsFollowTheRows | src/awakening/state/service.py:98-161 | a command is carried out exactly when each fact the rows must show is there and every identifier is new; otherwise the answer is a replay of the same request or names the first missing fact, on record exactly when the rows were looked at |
| Reasons.AdmissionIsExact | src/awakening/state/service.py:759-822 | which principal may send which command through which channel and in which role, and why any other is turned away |
| Outcomes.MeaningIsExact | src/awakening/state/service.py:293-559 | each of the twelve commands is refused with the first missing fact, taken when none is missing, and stopped by a constraint exactly when a row it inserts exists |
| Reasons.SubmitIsExact | src/awakening/state/service.py:293-320 | a submit is taken exactly on the active plan for a change that is possible there |
| Reasons.ApplyIsExact | src/awakening/state/service.py:480-559 | an apply is taken exactly for an open proposal on the active plan that its decision, or for a low-risk one the standing permission, releases now |
| Reasons.ExpireIsExact | src/awakening/state/service.py:637-660 | an approval is expired exactly when it is pending and its time has come |
| Reasons.FinalizeIsExact | src/awakening/state/m3/service.py:563-598 | a receipt is taken exactly when program, job, claim, issuer, policy, checker, format, export safety, object reference and identifier are all as the service derives them |
| Reasons.SettleIsExact | src/awakening/state/m4/service.py:594-654 | a settlement is taken exactly for an open reservation that the receipt names in all its parts |
| Records.CommitsAreRecorded | src/awakening/state/database.py:645-798 | what each of the twelve commands leaves in every row, the receipt, the event, the outbox row and the answer, field by field from the request, the configuration, the clock and the rows before |
| Records.ViolationsAreBrokenCaps | src/awakening/state/m4/service.py:503-542 | a violation is listed exactly when its cap is broken, in the fixed order |
| Records.ReserveTold | src/awakening/state/m4/service.py:503-584 | a request is reserved exactly when one more such call is within every cap, and refused otherwise |
| Provenance.EveryVersionHasItsStory | src/awakening/state/service.py:475-633 | every later plan version of a run comes from a submit and an apply call, and a high-risk one from an Approve that the owner sent over the web in between, in time, for just that proposal; its content is what the submitted change asks of its base |
| Provenance.DecisionsComeFromTheOwner | src/awakening/state/service.py:385-473 | every decision of a run is a call of the owner: same verdict, comment and approval, decided at the clock of that call before the expiry |
| Provenance.ProposalsComeFromSubmissions | src/awakening/state/service.py:289-383 | every proposal of a run is the change that a member filed on the plan active then, with its risk and difference |
| Provenance.VersionsComeFromCalls | src/awakening/state/service.py:570-611 | every plan version of a run was made by the creating call or by the apply call of its proposal |
| Provenance.ApprovalsExpireByTheClock | src/awakening/state/service.py:635-687 | no approval of a run expires but by an internal call at or after its expiry |
| Provenance.ProgramComesFromItsOwner | src/awakening/state/service.py:200-287 | owner, members and reorder permission of a Program are for ever those of the call that created it |
| Provenance.StoredReceiptsAreVouched | src/awakening/state/m3/service.py:344-399 | every stored receipt of a run is export-safe plain text under the configured policy and checker and the policy and claim of its job, at the derived place and identifier, and its issuer made the item that repeats it |
| Provenance.UnfitReceiptsAreRejected | src/awakening/state/m3/service.py:563-598 | a finalize whose receipt falls short in any of these points is rejected and stores nothing |
| Provenance.ReservationsComeFromRequests | src/awakening/state/m4/service.py:464-584 | every reservation of a run was asked for by a service member, and refused exactly when it broke a cap at that time |
| Provenance.LedgerComesFromSettlements | src/awakening/state/m4/service.py:586-760 | every ledger row of a run is one settlement call on an open reservation, charged as its usage says |
| M2Service.SubmitProposal | src/awakening/state/service.py:289-383 | the handler refines the atomic submit: refusals come before any write, the effect is committed whole |
| M2Service.RecordHumanDecision | src/awakening/state/service.py:385-473 | after the checks neither guarded status update can fail; the handler refines the atomic decision |
| M2Service.ExpireApproval | src/awakening/state/service.py:635-687 | neither guarded status update can fail; the handler refines the atomic expiry |
| M2Service.CheckApply | src/awakening/state/service.py:480-559 | the pre-write checks refuse exactly as the atomic meaning does; "proposal diff mismatch" and "low-risk policy revoked" are never reached |
| M2Service.WriteAppliedPlan | src/awakening/state/service.py:570-611 | plan, tasks and both guarded status updates succeed together unless the new plan ID is taken |
| M2Service.ApplyProposal | src/awakening/state/service.py:475-633 | the handler refines the atomic apply |
| M2Service.RecomputationAgrees | src/awakening/state/service.py:498-519 | in every reachable state a stored proposal recomputes to the difference hashed when it was filed |
| M2Service.ApplicableProposal | src/awakening/state/service.py:521-559 | a proposal that passes the checks is approved with an approved request, or pending when low-risk |
| M3Service.CreateIngestJob | src/awakening/state/m3/service.py:230-257 | the handler refines the atomic job creation |
| M3Service.ClaimIngestJob | src/awakening/state/m3/service.py:259-308 | the handler refines the atomic claim, joined through outbox and event |
| M3Service.RequireClaimedJob | src/awakening/state/m3/service.py:545-560 | existence, version and status are checked in this order |
| M3Service.FinalizeIngestJob | src/awakening/state/m3/service.py:344-399 | "already registered" never applies, the inserts cannot collide and the transition after them cannot fail |
| M3Service.RejectIngestJob | src/awakening/state/m3/service.py:310-342 | the transition after the checks cannot fail |
| M4Service.CreateRuntimeConfigSnapshot | src/awakening/state/m4/service.py:414-462 | the handler refines the atomic snapshot creation |
| M4Service.FindViolations | src/awakening/state/m4/service.py:502-542 | the appended list is every broken cap, in order, against the true sums |
| M4Service.ProgramPolicyViolations | src/awakening/state/m4/service.py:82-109 | the four Program-wide caps, in order |
| M4Service.ReserveModelBudget | src/awakening/state/m4/service.py:464-584 | a request that breaks a cap is committed as a refused reservation; a call already bound is rejected naming its one reservation |
| M4Service.CheckSettlement | src/awakening/state/m4/service.py:594-654 | issuer, reservation, status, snapshot and binding are refused in this order |
| M4Service.SettleModelBudget | src/awakening/state/m4/service.py:586-760 | ledger row first, guarded update second: the update cannot fail, and the handler refines the atomic settlement |
| M4Service.ReservedIsVersionOne | src/awakening/state/m4/database.py:344-387 | a reservation that is still reserved is at version 1, which is what the guarded update asks for |
| StateTransactions.StateTransaction.ReserveCommandReceipt | src/awakening/state/database.py:211-275 | takes a new key, or returns the finished receipt, a key conflict, or a collision without writing |
| StateTransactions.StateTransaction.LockProgram | src/awakening/state/database.py:277-305 | succeeds exactly on an existing row at the expected version |
| StateTransactions.StateTransaction.InsertEvents | src/awakening/state/database.py:711-735 | the event loop succeeds exactly when identifiers are new and distinct, and appends all rows in order |
| StateTransactions.StateTransaction.InsertOutboxEvents | src/awakening/state/database.py:737-768 | the outbox loop succeeds exactly when identifiers are new, references distinct and known |
| StateTransactions.StateTransaction.CommitStateChange | src/awakening/state/database.py:645-798 | commits exactly when counts, version, identifiers and receipt allow it, and then writes aggregate, events, outbox and receipt |
| StateTransactions.OutboxCoversEvents | src/awakening/state/database.py:770-773 | equal length, uniqueness and membership force the two identifier sets to be equal: the final check can never raise |
| StateTransactions.StateTransaction.CommitAuxiliaryChange | src/awakening/state/m4/database.py:389-476 | writes one event, one outbox row and the receipt, and leaves the Program row untouched |
| StateTransactions.StateTransaction.RejectReservedCommand | src/awakening/state/database.py:800-833 | finalises exactly a receipt in progress |
| StateTransactions.StateTransaction.UpdateProposalStatus | src/awakening/state/database.py:515-530 | guarded status change of one proposal |
| StateTransactions.StateTransaction.UpdateApprovalStatus | src/awakening/state/database.py:576-591 | guarded status change of one approval |
| StateTransactions.StateTransaction.TransitionJob | src/awakening/state/m3/database.py:369-399 | guarded job update, and which conflict is raised otherwise |
| StateTransactions.StateTransaction.RegisterReceiptAndItemIfAbsent | src/awakening/state/m3/database.py:260-341 | for a job without a receipt it inserts both rows or collides; for a job with one it writes nothing, and whether it answers or raises depends on what is stored for the job and for the receipt |
| StateTransactions.StateTransaction.GetCommittedIngestRequest | src/awakening/state/m3/database.py:106-139 | finds a request row joined with its request event, exactly if there is one |
| StateTransactions.StateTransaction.SettleReservation | src/awakening/state/m4/database.py:331-387 | settles exactly a reservation that is reserved at version 1 |
| StateTransactions.StateTransaction.GetTotal | src/awakening/state/m4/database.py:136-222 | row by row, in any order, the loop reaches the sum |
| StateTransactions.StateTransaction.GetTotals | src/awakening/state/m4/database.py:136-222 | call slots and held amounts of a snapshot or of the Program |
| Answers.RejectionIsAtomic | src/awakening/state/service.py:725-757 | a REJECTED command changes no plan, proposal, approval, decision, job, evidence, budget row, event or version, and adds at most its own rejected receipt |
| Answers.CommitAddsOneOfEach | src/awakening/state/database.py:645-798 | a commit adds one receipt, one event and one outbox row that names the event |
| Answers.OneReceiptPerKey | src/awakening/state/database.py:211-275 | in every reachable state a key has at most one receipt and none is in progress |
| Answers.ReplayIsExact | src/awakening/state/service.py:926-941 | whatever ran in between, re-sending a finalised request changes nothing and returns its recorded answer with the replay flag and the original command ID |
| Answers.ReuseIsRejected | src/awakening/state/database.py:264-272 | the same key with other content never takes effect |
| Answers.ResettlingWithAFreshReceiptConflicts | src/awakening/state/m4/validation.py:239-248 | settling again with a later receipt under the same key is a conflict, not a replay |
| Invariant.StepKeeps | src/awakening/state/service.py:98-161 | every command, admitted or not, keeps the whole invariant |
| Invariant.RunKeeps | src/awakening/state/service.py:98-161 | every state any run of commands reaches satisfies the invariant |
| Invariant.MeaningOk | src/awakening/state/m4/service.py:161-227 | the effect of each of the twelve admitted commands keeps its own and all other invariants |
| Growth.RunGrows | src/awakening/state/database.py:645-798 | over any run rows are never deleted, contents never change and statuses only move forward |
| PlanHistory.HistoryIsLinear | src/awakening/state/service.py:570-630 | the plan versions of a reachable Program are one chain 1..n of consecutive predecessors, ending in the active plan |
| PlanHistory.ReachablePlansAreWellFormed | src/awakening/state/service.py:824-887 | every stored plan has unique task keys and orders, and task rows and hash that agree with it |
| PlanHistory.StoredVersionsNeverChange | src/awakening/state/database.py:363-408 | stored plan versions and task rows are the same after any run |
| PlanHistory.OneAppliedProposalPerBase | src/awakening/state/service.py:493-503 | two proposals applied on one base are the same proposal |
| PlanHistory.ApprovalsAreCoupled | src/awakening/state/service.py:321-359 | a high-risk proposal has exactly one approval in step with it, decided once exactly when approved, denied or consumed; a low-risk one has none and is pending or applied, and low-risk means a reorder under a policy that allows it |
| PlanHistory.WhatWasApprovedIsApplied | src/awakening/state/service.py:521-612 | every high-risk version is released by an owner's timely Approve of its own, on the same proposal, base and difference; its content is that change made to its base, field by field; no two versions share a decision |
| PlanHistory.HighRiskVersionsAreAuthorised | src/awakening/state/service.py:530-559 | proposal, base, hash, content, decision, owner and consumed approval of one version agree |
| PlanHistory.DecisionsAreNotShared | src/awakening/state/service.py:548-559 | a decision releases one version only |
| PlanHistory.AppliedBeforeExpiry | src/awakening/state/service.py:545-547 | an apply that commits on a decision read the clock before the decision expires |
| PlanHistory.AppliedWithinTheWindow | src/awakening/state/service.py:344-358 | a high-risk proposal is applied within the approval window of its filing or never, whatever was decided in between |
| PlanHistory.AppliedContentIsTheSubmittedOne | src/awakening/state/service.py:498-519 | however many commands ran in between, the applied content is what the filed change asks for, field by field, of the base it was filed on, and it names a restored version exactly for a restore |
| PlanHistory.VersionsAreTheirChanges | src/awakening/state/service.py:824-867 | in every reachable state each version is what its change asks of its predecessor; restored and rolled-back versions are named exactly for a restore, whose content is that of the named version |
| Plans.AcceptedOrdersAreRearrangements | src/awakening/state/service.py:833-841 | the set and length test accepts exactly the rearrangements of the current task keys |
| Plans.ReorderIsPermutation | src/awakening/state/service.py:842-845 | an accepted reorder has the same tasks in the requested order, renumbered 0..n-1 |
| Plans.ChangesAreDescribed | src/awakening/state/service.py:824-867 | a change succeeds exactly when it is possible, with exactly the plan described by its named field, its task order or its restore target |
| Plans.ChangeKeepsWellFormed | src/awakening/state/service.py:832-867 | each of the six changes keeps task keys and orders unique |
| Plans.ChangeIsStable | src/awakening/state/service.py:498-507 | a change that succeeded gives the same plan when more versions are stored |
| EventLog.VersionsAreGapFree | src/awakening/state/database.py:666-798 | the version is the number of committed M2 and M3 commands, whose events carry 1, 2, .., n in order |
| EventLog.OutboxAndReceiptsAreInBijection | src/awakening/state/database.py:711-773 | outbox rows and events, and events and committed receipts, correspond one to one |
| EventLog.LogIsAppendOnly | src/awakening/state/database.py:711-798 | events and outbox only grow at their end, receipts are final |
| EventLog.JobsTakeOneStep | src/awakening/state/m3/database.py:141-226 | one command moves a job at most one step along created, claimed, finalized or rejected, and the remaining measure falls by one |
| EventLog.ReachableEvidence | src/awakening/state/m3/service.py:344-399 | receipt and item exist for a job exactly when it is finalized, once, and agree in each field; the item carries the authorization of the job |
| EventLog.EvidenceExistsIffFinalized | src/awakening/state/m3/database.py:260-341 | the same for any state that satisfies the ingest invariant |
| IngestInvariant.ClaimedJobHasNoReceipt | src/awakening/state/m3/database.py:260-300 | while a job is only claimed neither its receipt nor its item can exist |
| Caps.CapsHoldUpToOvershoot | src/awakening/state/m4/service.py:503-544 | per snapshot and per Program, calls stay within the cap and amounts within the cap plus the sum of reported overshoots |
| Caps.CapsHoldWhileNothingIsOver | src/awakening/state/m4/service.py:656-677 | in every state that satisfies the budget invariant: while no ledger row of a snapshot is over budget all its caps hold exactly |
| Caps.ProgramCapsHoldWhileNothingIsOver | src/awakening/state/m4/service.py:62-109 | likewise in every such state 300 slots, both token caps and the linear price cap of the Program |
| Demonstration.PlainCostCapFails | src/awakening/state/m4/service.py:672-677 | a concrete run of six commands ends above a snapshot cap: the plain bound is false |
| Demonstration.AllAccepted | src/awakening/state/m4/contracts.py:362-408 | those six commands satisfy the create schema and the constructors of snapshot, request and usage receipt, under keys in form |
| Caps.SettlementFitsIff | src/awakening/state/m4/service.py:656-677 | a settlement leaves a total within its cap exactly when the reported usage fits the reservation plus what was free |
| BudgetInvariant.TokenCapImpliesCostCap | src/awakening/state/m4/service.py:62-109 | either Program token cap alone already breaks the Program price cap |
| Caps.LedgerIsConserved | src/awakening/state/m4/service.py:656-716 | settled reservations and ledger rows are in bijection: reported usage is charged as reported, unknown usage exactly the maxima, over budget is any charge above the maxima, and both sides charge the same in every scope |
| Caps.TotalsCount | src/awakening/state/m4/database.py:136-222 | the totals that caps are compared with are the calls not refused and, per amount, the maxima of the open plus the charges of the settled reservations in scope |
| Caps.OvershootIsTheExcess | src/awakening/state/m4/service.py:656-677 | an overshoot is only what charges have beyond their reservations |
| Caps.SettlesAtMostOnce | src/awakening/state/m4/database.py:344-387 | a refused or settled reservation is never touched again |
| Caps.OneReservationPerModelCall | src/awakening/state/m4/service.py:493-502 | each model call has at most one reservation |
| BudgetInvariant.ReserveKeeps | src/awakening/state/m4/service.py:503-584 | a reservation keeps pairing, caps and conservation |
| BudgetInvariant.SettledBudgetKeeps | src/awakening/state/m4/service.py:656-716 | a settlement keeps pairing, caps and conservation |
| Settlements.RunRecords | src/awakening/state/m4/service.py:586-760 | in every reachable state a committed settlement, replayed or not, stands for a settled reservation |
| Erasure.M4IsErasable | src/awakening/state/m4/database.py:389-476 | deleting all M4 commands from a run, given keys and identifiers of their own, leaves the same M2 and M3 rows, log and version, and the same next answer |
| Erasure.M4StepIsInvisible | src/awakening/state/m4/service.py:762-809 | an M4 command changes nothing M2 and M3 see |
| Erasure.SameStep | src/awakening/state/m4/service.py:161-172 | an M2 or M3 command behaves the same whether or not M4 rows are there |
| McpAdapter.M4StateMcpAdapter.SubmitProposal | src/awakening/adapters/m4/state_mcp.py:83-122 | checks method, scope and persistent role, then dispatches one submit |
| McpAdapter.M4StateMcpAdapter.HandleRead | src/awakening/adapters/m4/state_mcp.py:33-81 | the two reads answer from the rows after the same checks |
| McpAdapter.M4StateMcpAdapter.ApplyAuthorizedChange | src/awakening/adapters/m4/state_mcp.py:124-162 | the apply method only refuses, without touching any row |
| McpAdapter.AgentsNeverChangeThePlan | src/awakening/adapters/m4/state_mcp.py:83-162 | no run of MCP calls by any identities changes the active plan, a plan version, a decision, a job or a budget row, and without an Architect nothing at all |
| McpAdapter.AnswersTellTheTruth | src/awakening/adapters/m4/state_mcp.py:33-162 | each call has exactly one answer that fits the method matrix, scope, membership and rows, and it is the one given |
| MarkerScan.Find | src/awakening/model_gateway/m4/http_adapter.py:87-98 | the first occurrence at or after an offset |
| MarkerScan.CountNonOverlapping | src/awakening/model_gateway/m4/http_adapter.py:89-91 | jumping over each occurrence counts all of them when the pattern cannot overlap itself |
| MarkerScan.TextMarkerCounts | src/awakening/model_gateway/m4/http_adapter.py:84-101 | the two counts are those of all prefixes and of all whole markers with boundaries |
| MarkerScan.MarkerNeverOverlaps | src/awakening/model_gateway/m4/http_adapter.py:60-81 | a canonical marker cannot overlap itself |
| MarkerScan.ScanParts | src/awakening/model_gateway/m4/http_adapter.py:114-130 | the part loop adds up the counts and refuses anything but text parts |
| MarkerScan.LastUserContentContainsMarker | src/awakening/model_gateway/m4/http_adapter.py:104-130 | accepts exactly when the last user message has one single prefix and it begins the whole marker with both boundaries |
| MarkerScan.CountsDecide | src/awakening/model_gateway/m4/http_adapter.py:128-130 | both counts are one exactly when that is so |
| MarkerScan.NoTwoMarkers | src/awakening/model_gateway/m4/http_adapter.py:104-130 | no message satisfies two different markers |
| PlanRegistry.SingleUsePlanRegistry.Claim | src/awakening/model_gateway/m4/http_adapter.py:201-223 | a claim succeeds exactly for an unclaimed plan of the table whose skill and version the session has and whose marker the last user message carries, and then marks exactly this credential |
| PlanRegistry.ParsePlans | src/awakening/model_gateway/m4/live_runtime.py:407-482 | accepts exactly the lists in which skill, exclusions and object references are in form and registered, every marker names its call, and no call or reservation repeats, and carries every field of a row over |
| PlanRegistry.ParsedPlansDoNotShareReservations | src/awakening/model_gateway/m4/live_runtime.py:618-621 | the resulting table leads no two credentials to one reservation |
| Gateway.AtMostOneCallPerReservation | src/awakening/model_gateway/m4/gateway.py:92-184 | in every interleaving of requests and other commands each reservation has at most one Provider call |
| Gateway.EveryCallIsSettledOnce | src/awakening/model_gateway/m4/gateway.py:183-250 | nobody settles who has not called, or twice; a finished caller has settled if and only if its call raised or its answer carries an identifier in form |
| Gateway.BadIdentifierEndsUnsettled | src/awakening/model_gateway/m4/gateway.py:225-236 | in any state, an answer with another identifier ends the request called, unsettled, the rows unchanged |
| GatewayDemonstration.AnUnsettledCallIsReachable | src/awakening/model_gateway/m4/provider.py:136-152 | from the empty rows a concrete run with the identifier "a b" ends finished, called, unsettled, its reservation still reserved |
| GatewayDemonstration.PlansAreAccepted | src/awakening/model_gateway/m4/live_runtime.py:407-482 | the plan table of that run is what the parser accepts for the three representative skills |
| GatewayDemonstration.StartUpIsAccepted | src/awakening/model_gateway/m4/live_runtime.py:642-683 | the start-up check accepts its rows, and the loaded configuration its caps and rates |
| GatewayDemonstration.MarkerIsAccepted | src/awakening/model_gateway/m4/http_adapter.py:104-130 | its one user message carries the marker of the plan it claims |
| GatewayDemonstration.TheSameAnswerWithoutACall | src/awakening/model_gateway/m4/http_adapter.py:358-361 | GATEWAY_UNAVAILABLE also answers a request that never called |
| Gateway.RefusedNeverCalls | src/awakening/model_gateway/m4/gateway.py:92-171 | any answer but GATEWAY_UNAVAILABLE decides: the Provider was called exactly when it is one of the four after the call |
| Gateway.OkMeansSettledAndReceipted | src/awakening/model_gateway/m4/gateway.py:226-289 | OK means called, settled and the invocation receipt stored |
| GatewayAnswers.ActionsTellTheTruth | src/awakening/model_gateway/m4/gateway.py:92-289 | what every action does to its thread and the shared rows, by what the request, the rows and the Provider say |
| GatewayAnswers.AnswersFollowTheSettlement | src/awakening/model_gateway/m4/gateway.py:226-289 | OK exactly when usage was reported, the delivered attempt says settled and the receipt is stored; without the receipt INVOCATION_RECEIPT_FAILED, with unknown usage PROVIDER_TRANSPORT_FAILED, otherwise USAGE_SETTLEMENT_FAILED |
| GatewayAnswers.CarriedOutSettlementSays | src/awakening/state/m4/service.py:656-760 | a settlement that the rows let through answers COMMITTED and settled, and charges what was reported |
| GatewayAnswers.OkIsReached | src/awakening/model_gateway/m4/gateway.py:183-289 | from any call that is answered under an identifier in form, when the rows let the settlement through and receipt and answer arrive, the request ends OK at the least whole cost |
| GatewayAnswers.ReplyIsTold | src/awakening/model_gateway/m4/provider.py:136-152 | an answer is reported with its own counts at the least whole cost, a raise as unknown usage |
| GatewayCompletion.OkIsReachable | src/awakening/model_gateway/m4/gateway.py:183-289 | from the empty rows a concrete run with the identifier "req-1" ends OK, its reservation settled at 90 and 10 tokens for 26 microunits |
| Gateway.CallsAreCovered | src/awakening/model_gateway/m4/gateway.py:108-147 | during a call the reservation read as reserved for this call is still there and covers the request, so an honest Provider reports an honest usage |
| GatewayBudget.AssertCommittedPreconditions | src/awakening/model_gateway/m4/live_runtime.py:642-683 | start-up accepts exactly the configured snapshot with every plan reserved at the per-call caps |
| GatewayBudget.SettlementsAreDisciplined | src/awakening/model_gateway/m4/live_runtime.py:664-683 | after that check, with an honest Provider and whatever other clients do, what a thread is about to settle is an honest report or none |
| GatewayBudget.OnlyOthersOverspend | src/awakening/state/m4/service.py:672-677 | under admitted rates and with an honest Provider, whatever other clients do: a row that is over budget was so at start-up, or another client settled it above the reservation it names |
| GatewayBudget.GatewayStaysWithinCaps | src/awakening/model_gateway/m4/live_runtime.py:501-515 | when moreover what others settle on the snapshot fits their own reservations, of whatever size, no row of the snapshot goes over budget and all its caps hold exactly |
| GatewayBudget.AdmittedGatewaysStayWithinCaps | src/awakening/model_gateway/m4/live_runtime.py:642-683 | the same from the empty rows: any set-up whose settlements fit, the start-up check, any such interleaving |
| Gateway.NextKeeps | src/awakening/model_gateway/m4/gateway.py:92-289 | every action of every thread, an escaping exception or a lost settlement included, and any other State Service command, keeps the gateway invariant |
| Cost.CeilCostIsLeast | src/awakening/model_gateway/m4/provider.py:146-150 | the charge is the least whole amount covering the exact price |
| Cost.HonestSettlementFits | src/awakening/model_gateway/m4/live_runtime.py:501-515 | under admitted rates an honest report at the per-call caps is never over budget |
| Cost.AdmittedRunsStayWithinCaps | src/awakening/model_gateway/m4/live_runtime.py:501-515 | State Service alone: over any run of honest settlements and per-call reservations no ledger row of the snapshot is over budget and all its totals are within caps |
| Cost.FittingRunsStayWithinCaps | src/awakening/state/m4/service.py:656-677 | over any run in which settlements on a snapshot fit the reservations they name, at whatever price and size, its caps hold exactly |
| Cost.OnlyTheCallCapRefuses | src/awakening/model_gateway/m4/live_runtime.py:373-383 | with parsed totals a free call slot always has token and cost room |
| ObservedProvider.ObservedProvider.Begin | scripts/demo/agentteams_in_place_demo.py:263-272 | refuses a fourth call and otherwise counts it, its high-water mark included |
| ObservedProvider.ObservedProvider.End | scripts/demo/agentteams_in_place_demo.py:296-300 | takes one call out, on success and on failure |
| ObservedProvider.CountersTellTheTruth | scripts/demo/agentteams_in_place_demo.py:249-306 | in every interleaving in-flight counts the threads inside and is at most the high-water mark, which is at most the call count, which is at most three |
| ObservedProvider.HighWaterIsTheMaximum | scripts/demo/agentteams_in_place_demo.py:264-272 | the high-water mark is the true historic maximum |
| ObservedProvider.LeavingDrains | scripts/demo/agentteams_in_place_demo.py:296-300 | when the threads inside have left, in any order, nothing is in flight |
| Ordering.SortedSorts | scripts/package/seal_package.py:408-411 | the stable sort yields a sorted permutation |
| Ordering.SortedOfSameSet | scripts/package/seal_package.py:408-411 | without folded collisions the sorted list depends only on the set of paths |
| Walk.ScanHolds | scripts/package/seal_package.py:243-274 | the sorted walk finds exactly the files that are somewhere in the directory |
| Walk.ScanIsDistinct | scripts/package/seal_package.py:243-274 | and each of them once |
| Walk.Arrange | scripts/package/seal_package.py:258-259 | of two paths that fold together, some listing of the same directory makes the walk read either one first |
| Ordering.SortedIsStable | scripts/package/seal_package.py:408-411 | paths that fold together keep their scan order |
| Seal.BuildIgnoresGenerated | scripts/package/seal_package.py:406-472 | when no two manifest-listed paths fold together, the documents depend only on the files that are not generated, not on the scan order |
| Seal.SealIsAFixpoint | scripts/package/seal_package.py:406-472 | then rebuilding over the sealed tree gives the same documents and none is stale |
| Seal.ListingsAgreeIff | scripts/package/seal_package.py:406-472 | all scans of a directory build the same documents if and only if no two of the files the manifest lists fold together |
| Seal.SealIsAFixpointIff | scripts/package/seal_package.py:556-572 | every rescan of the sealed directory rebuilds the same documents if and only if no two listed paths, pins document included, fold together |
| Seal.Package.Seal | scripts/package/seal_package.py:556-572 | sealing in place writes exactly the stale documents; the check after the write fails exactly when the rescan builds other documents, never without folded collisions |
| Seal.Package.WriteDocuments | scripts/package/seal_package.py:482-542 | after replacing the stale files all three documents are in place |
| SealText.SumsLineRoundTrip | scripts/package/verify_package.py:597-604 | a printed checksum line is read back, whatever spaces its path holds |
| SealText.SumsTextLines | scripts/package/seal_package.py:459-467 | the document has one line per entry plus one per line end hidden in a path |
| SealVerifier.CollectEntries | scripts/package/verify_package.py:570-586 | the entry loop collects a list without repetition or finds it can cover nothing |
| SealVerifier.VerifyManifest | scripts/package/verify_package.py:534-592 | the manifest check accepts exactly the expected header with a covering list of matching sizes and digests |
| SealVerifier.VerifyReferenceSourcePins | scripts/package/verify_package.py:619-671 | the pins check accepts exactly the expected header with 180 pins that cover the files of its own list of prefixes, helpers included |
| SealVerifier.VerifySha256Sums | scripts/package/verify_package.py:595-616 | the sums check accepts exactly a document whose lines cover all files not named like it |
| SealVerifier.SealedManifestIsAccepted | scripts/package/verify_package.py:534-592 | a freshly sealed tree passes the manifest check |
| SealVerifier.PinScopesAgree | scripts/package/verify_package.py:648-669 | builder and verifier pin the same files, each by its own list |
| SealVerifier.SealedPinsAreAcceptedIff | scripts/package/verify_package.py:619-671 | a freshly sealed tree passes the pins check exactly when both demonstration helpers are in it |
| SealAgreement.SealedSumsAreAcceptedIff | scripts/package/verify_package.py:595-616 | a freshly sealed tree passes the sums check exactly when no other file is named SHA256SUMS.txt and no path contains a line-splitting character |
| SealRefusals.AnotherFileIsRefused | scripts/package/verify_package.py:595-616 | any sealed package with one more such file can be sealed again and is then refused |
| SealRefusals.ASecondSumsFileIsRefused | scripts/package/verify_package.py:595-616 | for instance with a file docs/SHA256SUMS.txt |
| SealRefusals.AMissingHelperIsRefused | scripts/package/verify_package.py:672-677 | any sealed package in which a helper gave way to another pinned file can be sealed again and is then refused |
| SealRefusals.TwoFoldingFilesFail | scripts/package/seal_package.py:556-572 | any sealed package with two more files that fold together can be sealed again; however it is scanned, it may be rescanned so that the check after the write fails |

## Left out

- PostgreSQL: SQL text, roles, triggers, migrations and network faults. Operational errors (database unavailable, a deadlock) are not answers of the State Service model; in the gateway model they are among the exceptions before the call and the lost settlements. The schema is not part of the repository's text, so each identifier column is taken as a primary key and (Program, idempotency key) as unique.
- Other Programs: rows are filtered by Program, so one Program is modelled; an identifier that collides with a row of another Program is not.
- JSON Schema validation is a precondition. In particular M2 commands on an existing Program carry a state version (schemas/m2/command-envelope.schema.json), a plan has at least one task, and a submit or apply names a base plan.
- Message texts are one constructor per text. Timestamps, trace parents, task IDs, payload copies in task rows and hashes that only repeat other fields are not rows of the model.
- The M3 request digest also covers the idempotency key; digests are compared only under equal keys, so leaving it out changes no comparison.
- Amounts are unbounded naturals; the width of the database's integer columns is not modelled.
- StateService queries other than the two MCP reads, and the read-only views of snapshots and reservations, only return rows.
- Gateway.Next: one invocation is a sequence of actions of a thread, not one imperative method, so that other threads can get in between any two of them; manifest contents, invocation receipt contents, provider documents and the HTTP request checks before the claim, but for the empty message list, are inputs of these actions.
- Gateway.AtMostOneCallPerReservation: holds within one process lifetime, as the set of claimed credentials is not persisted.
- GatewayBudget.GatewayStaysWithinCaps: the fixed maxima that the live configuration allows per field and the demand that the call cap equals the number of representative skills are not needed and not modelled; what a Provider reports, and that what other clients settle fits their reservations, are hypotheses, as the code checks neither.
- ObservedProvider.LeavingDrains: console output is left out. The first print (scripts/demo/agentteams_in_place_demo.py:273) stands after the increment and before the try, so a print that fails there leaves the in-flight count raised for good. The wrapped transport is the time between begin and end.
- Credential registry, tool and forbidden-field checks, environment files, TLS, DNS and relay code, Docker and Matrix calls, and the command-line entry points.
- Seal: the text-boundary scan, file modes, symbolic links and the atomic replacement of single files; JSON encodings and case folding are given functions with the laws stated in Seal.Lawful. The directory at the root is the one after .git has been taken out of it.
- SealVerifier: required-path lists, evidence summaries and the output schema check.
