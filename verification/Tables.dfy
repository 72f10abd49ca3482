/** The State Service's rows for one Program, grouped by the milestone that owns them.
    Every statement of the service filters by Program, so rows of another Program are neither
    read nor written and one value of `Tables` is all a command can see. */
module Tables {
  import opened Base
  import opened Plans

  // ---------- M2: programs, plans, proposals, approvals, decisions ----------

  datatype Program = Program(owner: string, stateVersion: nat, activePlan: Option<Uuid>, allowReorder: bool)

  datatype Role = Owner | ServiceRole | OtherRole(name: string)
  datatype Member = Member(kind: PrincipalType, role: Role)

  datatype PlanRisk = BootstrapRisk | LowRisk | HighRisk

  datatype PlanVersion = PlanVersion(
    versionNo: nat,
    previous: Option<Uuid>,
    baseStateVersion: Option<nat>,
    proposal: Option<Uuid>,
    decision: Option<Uuid>,
    risk: PlanRisk,
    content: Plan,
    contentHash: PlanHash,
    diffHash: Option<DiffHash>,
    restoredFrom: Option<Uuid>,
    rolledBackFrom: Option<Uuid>,
    createdBy: string)

  datatype ProposalStatus = Pending | AwaitingApproval | ProposalApproved | ProposalDenied | ProposalExpired | Applied

  datatype Proposal = Proposal(
    baseStateVersion: nat,
    base: Uuid,
    change: Change,
    risk: PlanRisk,
    status: ProposalStatus,
    diff: Diff,
    diffHash: DiffHash,
    proposedBy: string)

  datatype ApprovalStatus = ApprovalPending | Approved | Denied | Expired | Consumed

  datatype Approval = Approval(
    proposal: Uuid,
    baseStateVersion: nat,
    base: Uuid,
    diffHash: DiffHash,
    status: ApprovalStatus,
    expiresAt: int)

  datatype Verdict = Approve | Reject

  datatype Decision = Decision(
    approval: Uuid,
    proposal: Uuid,
    baseStateVersion: nat,
    base: Uuid,
    diffHash: DiffHash,
    verdict: Verdict,
    decidedBy: string,
    comment: Option<string>,
    decidedAt: int,
    expiresAt: int)

  datatype Core = Core(
    program: Option<Program>,
    members: map<string, Member>,
    plans: map<Uuid, PlanVersion>,
    tasks: map<Uuid, seq<TaskRow>>,
    proposals: map<Uuid, Proposal>,
    approvals: map<Uuid, Approval>,
    decisions: map<Uuid, Decision>)

  /** The stored contents a restore may name. */
  function Contents(plans: map<Uuid, PlanVersion>): map<Uuid, Plan> {
    map u | u in plans :: plans[u].content
  }

  // ---------- M3: evidence ingest ----------

  datatype JobStatus = Created | Claimed | Finalized | JobRejected

  /** The ten registered reasons to reject an upload, and any other. */
  datatype EvidenceCode =
    | FormatNotAllowed | SizeLimitExceeded | Utf8Invalid | BomForbidden | NulForbidden | ControlCharacterForbidden
    | SecretPatternDetected | DirectPiiPatternDetected | CheckerError | VerifiedObjectConflict
    | NotRegistered(name: string)

  datatype Job = Job(
    status: JobStatus,
    version: int,
    authorizationRef: string,
    policy: string,
    requestedBy: string,
    claim: Option<Uuid>,
    claimedBy: Option<string>,
    requestedOutbox: Option<Uuid>,
    receipt: Option<Uuid>,
    item: Option<Uuid>,
    rejectionCode: Option<EvidenceCode>)

  datatype EvidenceReceipt = EvidenceReceipt(
    receiptId: Uuid,
    program: Uuid,
    job: Uuid,
    claim: Uuid,
    objectRef: ObjectRef,
    rawSha256: string,
    byteSize: int,
    format: EvidenceFormat,
    policy: string,
    checker: string,
    findings: seq<string>,
    exportSafe: bool,
    issuedBy: string,
    issuedAt: int)

  datatype EvidenceRejection = EvidenceRejection(
    program: Uuid,
    job: Uuid,
    claim: Uuid,
    code: EvidenceCode,
    policy: string,
    checker: string,
    findings: seq<string>,
    issuedBy: string,
    rejectedAt: int)

  datatype EvidenceItem = EvidenceItem(
    receipt: Uuid,
    job: Uuid,
    claim: Uuid,
    objectRef: ObjectRef,
    rawSha256: string,
    byteSize: int,
    format: EvidenceFormat,
    policy: string,
    checker: string,
    findings: seq<string>,
    authorizationRef: string,
    createdBy: string)

  datatype Ingest = Ingest(
    jobs: map<Uuid, Job>,
    receipts: map<Uuid, EvidenceReceipt>,
    items: map<Uuid, EvidenceItem>)

  // ---------- M4: runtime configuration, reservations, usage ledger ----------

  type Positive = n: int | n >= 1 witness 1

  /** Amounts in the three budget dimensions: input tokens, output tokens, cost in microunits. */
  datatype Amounts = Amounts(input: nat, output: nat, cost: nat)

  datatype ResponseFormat = JsonObject | OtherResponse(name: string)

  datatype Parameters = Parameters(temperature: real, seed: int, enableThinking: bool, responseFormat: ResponseFormat)

  const TrustedParameters := Parameters(0.01, 0, false, JsonObject)

  datatype ConfigFields = ConfigFields(
    run: Uuid,
    providerAlias: string,
    modelId: string,
    parameters: Parameters,
    maxCalls: Positive,
    perCall: Amounts,
    total: Amounts)

  /** What the RuntimeConfigSpec constructor asks of parameters and caps: the fixed parameters, positive
      caps, no total below its per-call cap. */
  type RuntimeConfig = c: ConfigFields |
    && c.parameters == TrustedParameters
    && c.perCall.input >= 1 && c.perCall.output >= 1 && c.perCall.cost >= 1
    && c.total.input >= c.perCall.input && c.total.output >= c.perCall.output && c.total.cost >= c.perCall.cost
    witness ConfigFields(V4(0), "", "", TrustedParameters, 1, Amounts(1, 1, 1), Amounts(1, 1, 1))

  datatype ReservationStatus = Reserved | Refused | Settled | ConservativelySettled

  datatype Reservation = Reservation(
    run: Uuid,
    modelCall: Uuid,
    snapshot: Uuid,
    maxima: Amounts,
    status: ReservationStatus,
    version: nat,
    charged: Option<Amounts>,
    usageReceipt: Option<Uuid>,
    ledger: Option<Uuid>,
    requestedBy: string)

  datatype BudgetRequest = BudgetRequest(run: Uuid, modelCall: Uuid, snapshot: Uuid, maxima: Amounts)

  datatype Usage = Reported(amounts: Amounts) | Unknown

  datatype CallStatus = Succeeded | Failed | UnknownCall

  datatype UsageReceipt = UsageReceipt(
    receiptId: Uuid,
    program: Uuid,
    run: Uuid,
    modelCall: Uuid,
    snapshot: Uuid,
    reservation: Uuid,
    providerAlias: string,
    providerRequestId: Option<string>,
    requestSha256: string,
    responseSha256: Option<string>,
    usage: Usage,
    providerStatus: CallStatus,
    issuedBy: string,
    issuedAt: int)

  datatype LedgerRow = LedgerRow(
    receipt: UsageReceipt,
    reservation: Uuid,
    charged: Amounts,
    overBudget: bool)

  datatype Budget = Budget(
    snapshots: map<Uuid, RuntimeConfig>,
    reservations: map<Uuid, Reservation>,
    ledger: map<Uuid, LedgerRow>)

  // ---------- receipts, events, outbox ----------

  datatype OutboxRef = OutboxRef(outboxEvent: Uuid, domainEvent: Uuid)

  datatype Command =
    | CreateProgram(plan: Plan, allowReorder: bool)
    | SubmitProposal(expected: nat, base: Uuid, change: Change)
    | RecordDecision(expected: nat, approval: Uuid, verdict: Verdict, comment: Option<string>)
    | ApplyProposal(expected: nat, base: Uuid, proposal: Uuid, decision: Option<Uuid>)
    | ExpireApproval(expected: nat, approval: Uuid)
    | CreateJob(authorizationRef: string)
    | ClaimJob(job: Uuid, expectedJob: int, outboxRef: OutboxRef)
    | FinalizeJob(job: Uuid, expectedJob: int, receipt: EvidenceReceipt)
    | RejectJob(job: Uuid, expectedJob: int, rejection: EvidenceRejection)
    | CreateSnapshot(config: RuntimeConfig)
    | ReserveBudget(request: BudgetRequest)
    | SettleBudget(usage: UsageReceipt)

  predicate IsM2(c: Command) {
    c.CreateProgram? || c.SubmitProposal? || c.RecordDecision? || c.ApplyProposal? || c.ExpireApproval?
  }

  predicate IsM4(c: Command) {
    c.CreateSnapshot? || c.ReserveBudget? || c.SettleBudget?
  }

  datatype Envelope = Envelope(
    commandId: Uuid,
    key: string,
    program: Uuid,
    principal: Principal,
    channel: Channel,
    command: Command)

  /** SHA-256 over the canonical request, taken as injective. The command ID and the trace parent
      are not part of it; the M3 digest also covers the key, which is equal whenever two digests
      are compared. */
  datatype RequestHash = Sha256OfRequest(program: Uuid, channel: Channel, principal: Principal, command: Command)

  function HashOf(e: Envelope): RequestHash {
    Sha256OfRequest(e.program, e.channel, e.principal, e.command)
  }

  datatype Violation =
    | PerCallInputCap | PerCallOutputCap | PerCallCostCap
    | TotalCallCap | TotalInputCap | TotalOutputCap | TotalCostCap
    | ProgramTotalCallCap | ProgramTotalInputCap | ProgramTotalOutputCap | ProgramRmbCostCap

  datatype Payload =
    | NoPayload
    | ProgramCreated(plan: Uuid)
    | ProposalSubmitted(proposal: Uuid, risk: PlanRisk, proposalStatus: ProposalStatus, diffHash: DiffHash, approvalRequest: Option<Uuid>)
    | DecisionRecorded(decision: Uuid, proposal: Uuid, verdict: Verdict)
    | PlanApplied(proposal: Uuid, plan: Uuid, versionNo: nat, risk: PlanRisk, restoredFrom: Option<Uuid>)
    | ApprovalExpiredNow(approval: Uuid, proposal: Uuid)
    | JobCreated(job: Uuid, version: int, policy: string)
    | JobClaimed(job: Uuid, claim: Uuid, version: int, policy: string, claimedBy: string)
    | JobFinalized(job: Uuid, version: int, receipt: Uuid, item: Uuid, rawSha256: string, byteSize: int, created: bool)
    | JobWasRejected(job: Uuid, version: int, code: EvidenceCode)
    | SnapshotCreated(snapshot: Uuid, config: RuntimeConfig)
    | BudgetReserved(reservation: Uuid, request: BudgetRequest, status: ReservationStatus, violations: seq<Violation>)
    | BudgetSettled(reservation: Uuid, ledger: Uuid, receipt: Uuid, status: ReservationStatus, charged: Amounts, overBudget: bool)
    | Refusal(rejection: Rejection)

  datatype ReceiptStatus = Processing | CommittedReceipt | RejectedReceipt

  /** A command receipt; `hash` carries the command type, the principal and the channel it is bound to. */
  datatype CommandReceipt = CommandReceipt(
    key: string,
    hash: RequestHash,
    status: ReceiptStatus,
    reason: ReasonCode,
    body: Payload,
    before: Option<nat>,
    after: Option<nat>)

  datatype Topic =
    | ProgramCreatedTopic
    | ProposalSubmittedTopic
    | DecisionRecordedTopic
    | PlanVersionCreatedTopic
    | PlanVersionCompensatedTopic
    | ApprovalExpiredTopic
    | IngestRequestedTopic
    | JobClaimedTopic
    | EvidenceItemCreatedTopic
    | JobRejectedTopic
    | SnapshotCreatedTopic
    | ReservationTopic(status: ReservationStatus)

  predicate IsM4Topic(t: Topic) { t.SnapshotCreatedTopic? || t.ReservationTopic? }

  datatype DomainEvent = DomainEvent(id: Uuid, command: Uuid, index: nat, topic: Topic, stateVersion: nat, body: Payload)

  datatype OutboxEvent = OutboxEvent(id: Uuid, domainEvent: Uuid, aggregate: Uuid, aggregateVersion: nat, topic: Topic, body: Payload)

  datatype Log = Log(
    receipts: map<Uuid, CommandReceipt>,
    events: seq<DomainEvent>,
    outbox: seq<OutboxEvent>)

  datatype Tables = Tables(core: Core, ingest: Ingest, budget: Budget, log: Log)

  const EmptyTables: Tables :=
    Tables(Core(None, map[], map[], map[], map[], map[], map[]),
           Ingest(map[], map[], map[]),
           Budget(map[], map[], map[]),
           Log(map[], [], []))

  datatype CommandStatus = COMMITTED | REJECTED

  datatype CommandResult = CommandResult(
    commandId: Uuid,
    status: CommandStatus,
    reason: ReasonCode,
    stateVersion: Option<nat>,
    body: Payload,
    replayed: bool)

  /** What a command draws from outside the database: the clock and the random identifiers. */
  datatype Inputs = Inputs(now: int, first: Uuid, second: Uuid, event: Uuid, outboxEvent: Uuid)

  /** Constants of one service object. */
  datatype Config = Config(bootstrap: seq<(string, Member)>, approvalTtl: Positive, policy: string, checker: string)
}
