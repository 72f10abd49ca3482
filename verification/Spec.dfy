/** The atomic meaning of a command: first every refusal, then one complete effect.
    The service itself writes rows first and compares afterwards; StateTransaction, M2Service,
    M3Service and M4Service show that it still does exactly this. */
module Spec {
  import opened Base
  import opened Plans
  import opened Tables
  import opened Sums

  /** Refuse commits a rejected receipt, Abort rolls back, Perform commits the new rows. */
  datatype Ruling =
    | Refuse(rejection: Rejection)
    | Abort
    | Perform(effect: Effect)

  datatype Effect = Effect(core: Core, ingest: Ingest, budget: Budget, topic: Topic, body: Payload, aggregate: Uuid, aggregateVersion: nat)

  datatype Outcome = Outcome(db: Tables, result: CommandResult)

  // ---------- admission: no receipt is reserved for a caller who fails here ----------

  predicate EntryAllowed(c: Command, channel: Channel, kind: PrincipalType) {
    match c
    case CreateProgram(_, _) => channel == Web && kind == User
    case RecordDecision(_, _, _, _) => channel == Web && kind == User
    case ExpireApproval(_, _) => channel == Internal && (kind == Service || kind == System)
    case SubmitProposal(_, _, _) => ProposalEntry(channel, kind)
    case ApplyProposal(_, _, _, _) => ProposalEntry(channel, kind)
    case CreateJob(_) => (channel == Web && kind == User) || (channel == Mcp && kind == Agent)
    case _ => channel == Internal && kind == Service
  }

  predicate ProposalEntry(channel: Channel, kind: PrincipalType) {
    (channel == Web && kind == User) || (channel == Mcp && kind == Agent) || (channel == Internal && kind == Service)
  }

  predicate RoleAllowed(c: Command, role: Role) {
    if c.RecordDecision? then role == Owner
    else if c.CreateProgram? || c.SubmitProposal? || c.ApplyProposal? || c.ExpireApproval? || c.CreateJob? then true
    else role == ServiceRole
  }

  function Admit(core: Core, e: Envelope): Option<Rejection> {
    var p := e.principal;
    if e.command.CreateProgram? && !WellFormed(e.command.plan) then
      Some(Rejection(SchemaInvalid, TasksNotUnique))
    else if !EntryAllowed(e.command, e.channel, p.kind) then
      Some(Rejection(PrincipalNotAllowed, EntryNotAllowed))
    else if e.command.SettleBudget? && e.command.usage.program != e.program then
      Some(Rejection(InvalidEnvelope, UsageProgramMismatch))
    else if e.program !in p.programs then
      Some(Rejection(ProgramScopeDenied, OutsideScope))
    else if e.command.CreateProgram? then None
    else if p.id !in core.members then
      Some(Rejection(ProgramScopeDenied, NotAMember))
    else if core.members[p.id].kind != p.kind then
      Some(Rejection(PrincipalNotAllowed, MembershipMismatch))
    else if !RoleAllowed(e.command, core.members[p.id].role) then
      Some(Rejection(PrincipalNotAllowed, RoleNotAllowed))
    else None
  }

  // ---------- idempotency ----------

  ghost predicate KeyTaken(log: Log, key: string) {
    exists c :: c in log.receipts && log.receipts[c].key == key
  }

  ghost function ReceiptOf(log: Log, key: string): (c: Uuid)
    requires KeyTaken(log, key)
    ensures c in log.receipts && log.receipts[c].key == key
  {
    var c :| c in log.receipts && log.receipts[c].key == key;
    c
  }

  function ReplayOf(commandId: Uuid, r: CommandReceipt): CommandResult {
    CommandResult(commandId, if r.status == CommittedReceipt then COMMITTED else REJECTED, r.reason, r.after, r.body, true)
  }

  // ---------- M2 ----------

  function DiffOf(plans: map<Uuid, PlanVersion>, base: Uuid, change: Change, proposed: Plan): Diff
    requires base in plans
  {
    Diff(TypeOf(change), base, plans[base].contentHash, Sha256OfPlan(proposed))
  }

  predicate IsLow(core: Core, change: Change)
    requires core.program.Some?
  {
    change.ReorderTasks? && core.program.value.allowReorder
  }

  function WithMembers(members: map<string, Member>, owner: string, bootstrap: seq<(string, Member)>): Option<map<string, Member>>
    decreases |bootstrap|
  {
    if bootstrap == [] then Some(members)
    else if bootstrap[0].0 == owner then WithMembers(members, owner, bootstrap[1..])
    else if bootstrap[0].0 in members then None
    else WithMembers(members[bootstrap[0].0 := bootstrap[0].1], owner, bootstrap[1..])
  }

  function CreateProgramMeaning(cfg: Config, db: Tables, e: Envelope, input: Inputs): Ruling
    requires e.command.CreateProgram?
  {
    var c, owner := e.command, e.principal.id;
    var members := WithMembers(map[owner := Member(User, Owner)], owner, cfg.bootstrap);
    if db.core.program.Some? || members.None? || input.first in db.core.plans then Abort
    else
      var plan := PlanVersion(1, None, None, None, None, BootstrapRisk, c.plan, Sha256OfPlan(c.plan), None, None, None, owner);
      var core := db.core.(
        program := Some(Program(owner, 1, Some(input.first), c.allowReorder)),
        members := members.value,
        plans := db.core.plans[input.first := plan],
        tasks := db.core.tasks[input.first := TaskRows(c.plan)]);
      Perform(Effect(core, db.ingest, db.budget, ProgramCreatedTopic, ProgramCreated(input.first), e.program, 1))
  }

  /** The rows after a proposal was filed, with its approval request when it has one. */
  function SubmittedRows(core: Core, id: Uuid, proposal: Proposal, approvalId: Option<Uuid>, approval: Approval): Core {
    core.(proposals := core.proposals[id := proposal],
          approvals := if approvalId.Some? then core.approvals[approvalId.value := approval] else core.approvals)
  }

  function SubmitMeaning(cfg: Config, db: Tables, e: Envelope, input: Inputs): Ruling
    requires e.command.SubmitProposal? && db.core.program.Some?
  {
    var c, core, program := e.command, db.core, db.core.program.value;
    if program.activePlan != Some(c.base) then Refuse(Rejection(VersionConflict, BaseNotActive))
    else if c.base !in core.plans then Refuse(Rejection(NotFound, ActivePlanNotFound))
    else
      match ApplyChange(Contents(core.plans), core.plans[c.base].content, c.change)
      case Err(r) => Refuse(r)
      case Ok(proposed) =>
        var diff := DiffOf(core.plans, c.base, c.change, proposed);
        var low := IsLow(core, c.change);
        if input.first in core.proposals || (!low && input.second in core.approvals) then Abort
        else
          var risk := if low then LowRisk else HighRisk;
          var status := if low then Pending else AwaitingApproval;
          var hash := Sha256OfDiff(diff);
          var proposal := Proposal(c.expected, c.base, c.change, risk, status, diff, hash, e.principal.id);
          var approval := Approval(input.first, c.expected, c.base, hash, ApprovalPending, input.now + cfg.approvalTtl);
          var core' := Bump(SubmittedRows(core, input.first, proposal, if low then None else Some(input.second), approval));
          Perform(Effect(core', db.ingest, db.budget, ProposalSubmittedTopic,
            ProposalSubmitted(input.first, risk, status, hash, if low then None else Some(input.second)),
            e.program, core'.program.value.stateVersion))
  }

  /** The Program row after one committed M2 or M3 command, which may also move the active plan. */
  function BumpedTo(core: Core, active: Option<Uuid>): (c: Core)
    requires core.program.Some?
    ensures c.program.Some?
  {
    var p := core.program.value;
    core.(program := Some(p.(stateVersion := p.stateVersion + 1, activePlan := if active.Some? then active else p.activePlan)))
  }

  function Bump(core: Core): (c: Core)
    requires core.program.Some?
    ensures c.program.Some?
  {
    BumpedTo(core, None)
  }

  function DecideMeaning(cfg: Config, db: Tables, e: Envelope, input: Inputs): Ruling
    requires e.command.RecordDecision? && db.core.program.Some?
  {
    var c, core := e.command, db.core;
    if c.approval !in core.approvals then Refuse(Rejection(NotFound, ApprovalNotFound))
    else
      var a := core.approvals[c.approval];
      if a.status != ApprovalPending then Refuse(Rejection(StateTransitionInvalid, ApprovalNotPending))
      else if input.now >= a.expiresAt then Refuse(Rejection(ReasonCode.ApprovalExpired, ApprovalHasExpired))
      else if a.proposal !in core.proposals then Refuse(Rejection(StateTransitionInvalid, ProposalNotDecidable))
      else if input.first in core.decisions then Abort
      else
        var decision := Decision(c.approval, a.proposal, a.baseStateVersion, a.base, a.diffHash,
          c.verdict, e.principal.id, c.comment, input.now, a.expiresAt);
        var core' := Bump(core).(
          decisions := core.decisions[input.first := decision],
          approvals := core.approvals[c.approval := a.(status := if c.verdict == Approve then Approved else Denied)],
          proposals := core.proposals[a.proposal := core.proposals[a.proposal].(
            status := if c.verdict == Approve then ProposalApproved else ProposalDenied)]);
        Perform(Effect(core', db.ingest, db.budget, DecisionRecordedTopic,
          DecisionRecorded(input.first, a.proposal, c.verdict), e.program, core'.program.value.stateVersion))
  }

  /** Why an approval given as a decision ID does not release a high-risk proposal. */
  function DecisionRefusal(core: Core, p: Uuid, decision: Option<Uuid>, now: int): Option<Rejection>
    requires p in core.proposals
  {
    if decision.None? then Some(Rejection(ReasonCode.ApprovalRequired, HighRiskNeedsDecision))
    else if decision.value !in core.decisions then Some(Rejection(DecisionInvalid, DecisionNotFound))
    else
      var d := core.decisions[decision.value];
      if d.verdict != Approve || d.proposal != p || d.base != core.proposals[p].base || d.diffHash != core.proposals[p].diffHash then
        Some(Rejection(DecisionInvalid, DecisionNotBound))
      else if now >= d.expiresAt then Some(Rejection(ReasonCode.ApprovalExpired, DecisionHasExpired))
      else if d.approval !in core.approvals || core.approvals[d.approval].status != Approved then
        Some(Rejection(DecisionInvalid, ApprovalNotValid))
      else None
  }

  function ApplyRefusal(core: Core, c: Command, now: int): Option<Rejection>
    requires c.ApplyProposal? && core.program.Some?
  {
    if c.proposal !in core.proposals then Some(Rejection(NotFound, ProposalNotFound))
    else
      var p := core.proposals[c.proposal];
      if p.status == Applied then Some(Rejection(DecisionReplayed, AlreadyApplied))
      else if p.base != c.base then Some(Rejection(DecisionInvalid, ProposalBaseMismatch))
      else if core.program.value.activePlan != Some(c.base) then Some(Rejection(VersionConflict, ActivePlanChanged))
      else if p.risk == HighRisk then DecisionRefusal(core, c.proposal, c.decision, now)
      else if c.decision.Some? then Some(Rejection(DecisionInvalid, LowRiskCarriesDecision))
      else if !core.program.value.allowReorder then Some(Rejection(ReasonCode.ApprovalRequired, LowRiskPolicyRevoked))
      else None
  }

  /** The plan a proposal stands for: its change applied to its base. */
  function ProposedContent(plans: map<Uuid, PlanVersion>, p: Proposal): Result<Plan, Rejection>
    requires p.base in plans
  {
    ApplyChange(Contents(plans), plans[p.base].content, p.change)
  }

  function NewPlanVersion(core: Core, id: Uuid, p: Proposal, decision: Option<Uuid>, content: Plan, author: string): PlanVersion
    requires p.base in core.plans
  {
    var restore := p.change.RestorePlan?;
    PlanVersion(core.plans[p.base].versionNo + 1, Some(p.base), Some(p.baseStateVersion), Some(id),
      if p.risk == HighRisk then decision else None, p.risk, content, Sha256OfPlan(content), Some(p.diffHash),
      if restore then Some(p.change.target) else None,
      if restore then Some(p.base) else None,
      author)
  }

  /** The approval a decision releases; none for a low-risk proposal. */
  function ReleasedBy(core: Core, c: Command): (a: Option<Uuid>)
    requires c.ApplyProposal? && c.proposal in core.proposals
    ensures a.Some? ==> a.value in core.approvals
  {
    if core.proposals[c.proposal].risk == HighRisk && c.decision.Some? && c.decision.value in core.decisions
       && core.decisions[c.decision.value].approval in core.approvals
    then Some(core.decisions[c.decision.value].approval) else None
  }

  /** The rows after proposal `x` became plan version `id` and its approval was consumed. */
  function AppliedRows(core: Core, id: Uuid, plan: PlanVersion, x: Uuid, released: Option<Uuid>): Core
    requires x in core.proposals && (released.Some? ==> released.value in core.approvals)
  {
    core.(plans := core.plans[id := plan],
          tasks := core.tasks[id := TaskRows(plan.content)],
          proposals := core.proposals[x := core.proposals[x].(status := Applied)],
          approvals := if released.Some? then core.approvals[released.value := core.approvals[released.value].(status := Consumed)]
                       else core.approvals)
  }

  function ApplyMeaning(cfg: Config, db: Tables, e: Envelope, input: Inputs): Ruling
    requires e.command.ApplyProposal? && db.core.program.Some?
  {
    var c, core := e.command, db.core;
    var refusal := ApplyRefusal(core, c, input.now);
    if refusal.Some? then Refuse(refusal.value)
    else
      var p := core.proposals[c.proposal];
      if p.base !in core.plans || ProposedContent(core.plans, p).Err? then Refuse(Rejection(NotFound, BasePlanNotFound))
      else if input.first in core.plans then Abort
      else
        var content := ProposedContent(core.plans, p).value;
        var plan := NewPlanVersion(core, c.proposal, p, c.decision, content, e.principal.id);
        var core' := BumpedTo(AppliedRows(core, input.first, plan, c.proposal, ReleasedBy(core, c)), Some(input.first));
        Perform(Effect(core', db.ingest, db.budget,
          if p.change.RestorePlan? then PlanVersionCompensatedTopic else PlanVersionCreatedTopic,
          PlanApplied(c.proposal, input.first, plan.versionNo, p.risk, plan.restoredFrom),
          e.program, core'.program.value.stateVersion))
  }

  function ExpireMeaning(cfg: Config, db: Tables, e: Envelope, input: Inputs): Ruling
    requires e.command.ExpireApproval? && db.core.program.Some?
  {
    var c, core := e.command, db.core;
    if c.approval !in core.approvals then Refuse(Rejection(NotFound, ApprovalNotFound))
    else
      var a := core.approvals[c.approval];
      if a.status != ApprovalPending then Refuse(Rejection(StateTransitionInvalid, ApprovalNotPending))
      else if input.now < a.expiresAt then Refuse(Rejection(StateTransitionInvalid, ApprovalNotYetExpired))
      else if a.proposal !in core.proposals then Refuse(Rejection(StateTransitionInvalid, ProposalMissing))
      else
        var core' := Bump(core).(
          approvals := core.approvals[c.approval := a.(status := Expired)],
          proposals := core.proposals[a.proposal := core.proposals[a.proposal].(status := ProposalExpired)]);
        Perform(Effect(core', db.ingest, db.budget, ApprovalExpiredTopic,
          ApprovalExpiredNow(c.approval, a.proposal), e.program, core'.program.value.stateVersion))
  }

  // ---------- M3 ----------

  ghost predicate HasReceipt(g: Ingest, job: Uuid) {
    exists k :: k in g.receipts && g.receipts[k].job == job
  }

  function CreateJobMeaning(cfg: Config, db: Tables, e: Envelope, input: Inputs): Ruling
    requires e.command.CreateJob? && db.core.program.Some?
  {
    if input.first in db.ingest.jobs then Abort
    else
      var job := Job(Created, 1, e.command.authorizationRef, cfg.policy, e.principal.id, None, None, None, None, None, None);
      var core := Bump(db.core);
      Perform(Effect(core, db.ingest.(jobs := db.ingest.jobs[input.first := job]), db.budget,
        IngestRequestedTopic, JobCreated(input.first, 1, cfg.policy), e.program, core.program.value.stateVersion))
  }

  /** The outbox row a claim must be bound to. */
  predicate IsIngestRequest(o: OutboxEvent, ref: OutboxRef, job: Uuid) {
    && o.id == ref.outboxEvent && o.domainEvent == ref.domainEvent
    && o.topic == IngestRequestedTopic && o.body.JobCreated? && o.body.job == job
  }

  predicate ClaimBound(log: Log, ref: OutboxRef, job: Uuid) {
    exists o :: o in log.outbox && IsIngestRequest(o, ref, job)
  }

  /** Why a guarded job update finds nothing to change. */
  datatype JobProblem = JobMissing | StaleJob(expected: int, actual: int) | WrongJobStatus

  function JobProblemOf(ingest: Ingest, job: Uuid, expected: int, status: JobStatus): Option<JobProblem> {
    if job !in ingest.jobs then Some(JobMissing)
    else if ingest.jobs[job].version != expected then Some(StaleJob(expected, ingest.jobs[job].version))
    else if ingest.jobs[job].status != status then Some(WrongJobStatus)
    else None
  }

  function RejectionOf(p: JobProblem): Rejection {
    match p
    case JobMissing => Rejection(NotFound, NoSuchJob)
    case StaleJob(expected, actual) => Rejection(VersionConflict, StaleJobVersion, JobVersions(expected, actual))
    case WrongJobStatus => Rejection(StateTransitionInvalid, UnexpectedJobStatus)
  }

  function JobRefusal(ingest: Ingest, job: Uuid, expected: int, status: JobStatus): Option<Rejection> {
    var problem := JobProblemOf(ingest, job, expected, status);
    if problem.Some? then Some(RejectionOf(problem.value)) else None
  }

  function ClaimMeaning(cfg: Config, db: Tables, e: Envelope, input: Inputs): Ruling
    requires e.command.ClaimJob? && db.core.program.Some?
  {
    var c := e.command;
    if !ClaimBound(db.log, c.outboxRef, c.job) then
      Refuse(Rejection(StateTransitionInvalid, ClaimNotBound))
    else if c.expectedJob != 1 then
      Refuse(Rejection(VersionConflict, RequestVersionMismatch))
    else
      var refusal := JobRefusal(db.ingest, c.job, c.expectedJob, Created);
      if refusal.Some? then Refuse(refusal.value)
      else
        var claim := ClaimOf(c.job, c.outboxRef.outboxEvent);
        var job := db.ingest.jobs[c.job].(status := Claimed, version := 2, claim := Some(claim),
          claimedBy := Some(e.principal.id), requestedOutbox := Some(c.outboxRef.outboxEvent));
        var core := Bump(db.core);
        Perform(Effect(core, db.ingest.(jobs := db.ingest.jobs[c.job := job]), db.budget, JobClaimedTopic,
          JobClaimed(c.job, claim, 2, job.policy, e.principal.id), e.program, core.program.value.stateVersion))
  }

  function DerivedReceiptId(r: EvidenceReceipt): Uuid {
    EvidenceReceiptOf(r.program, r.job, r.claim, r.objectRef, r.rawSha256, r.byteSize, r.format, r.policy, r.checker)
  }

  function ReceiptRefusal(cfg: Config, e: Envelope, jobId: Uuid, job: Job, r: EvidenceReceipt): Option<Rejection> {
    if r.program != e.program || r.job != jobId then
      Some(Rejection(ProgramScopeDenied, ReceiptOutsideJob))
    else if Some(r.claim) != job.claim then Some(Rejection(StateTransitionInvalid, ReceiptClaimInvalid))
    else if r.issuedBy != e.principal.id then Some(Rejection(PrincipalNotAllowed, ReceiptIssuerMismatch))
    else if r.policy != job.policy || r.policy != cfg.policy then Some(Rejection(StateTransitionInvalid, ReceiptPolicyInvalid))
    else if r.checker != cfg.checker then Some(Rejection(StateTransitionInvalid, ReceiptCheckerInvalid))
    else if r.format != PlainText then Some(Rejection(StateTransitionInvalid, ReceiptFormatInvalid))
    else if !r.exportSafe then Some(Rejection(StateTransitionInvalid, ReceiptNotExportSafe))
    else if r.objectRef != ObjectRef(r.program, r.rawSha256) then
      Some(Rejection(StateTransitionInvalid, ObjectRefNotDerived))
    else if r.receiptId != DerivedReceiptId(r) then Some(Rejection(StateTransitionInvalid, ReceiptIdNotDerived))
    else None
  }

  function ItemFor(r: EvidenceReceipt, job: Job, author: string): EvidenceItem {
    EvidenceItem(r.receiptId, r.job, r.claim, r.objectRef, r.rawSha256, r.byteSize, r.format, r.policy, r.checker, r.findings,
      job.authorizationRef, author)
  }

  function FinalizeMeaning(cfg: Config, db: Tables, e: Envelope, input: Inputs): Ruling
    requires e.command.FinalizeJob? && db.core.program.Some?
  {
    var c := e.command;
    var refusal := JobRefusal(db.ingest, c.job, c.expectedJob, Claimed);
    if refusal.Some? then Refuse(refusal.value)
    else
      var job, r := db.ingest.jobs[c.job], c.receipt;
      var invalid := ReceiptRefusal(cfg, e, c.job, job, r);
      if invalid.Some? then Refuse(invalid.value)
      else
        var item := EvidenceItemOf(r.receiptId);
        var ingest := Ingest(
          db.ingest.jobs[c.job := job.(status := Finalized, version := 3, receipt := Some(r.receiptId), item := Some(item))],
          db.ingest.receipts[r.receiptId := r],
          db.ingest.items[item := ItemFor(r, job, e.principal.id)]);
        var core := Bump(db.core);
        Perform(Effect(core, ingest, db.budget, EvidenceItemCreatedTopic,
          JobFinalized(c.job, 3, r.receiptId, item, r.rawSha256, r.byteSize, true), e.program, core.program.value.stateVersion))
  }

  function RejectionRefusal(cfg: Config, e: Envelope, jobId: Uuid, job: Job, r: EvidenceRejection): Option<Rejection> {
    if r.program != e.program || r.job != jobId then
      Some(Rejection(ProgramScopeDenied, RejectionOutsideJob))
    else if Some(r.claim) != job.claim then Some(Rejection(StateTransitionInvalid, RejectionClaimInvalid))
    else if r.issuedBy != e.principal.id then Some(Rejection(PrincipalNotAllowed, RejectionIssuerMismatch))
    else if r.policy != job.policy || r.policy != cfg.policy then Some(Rejection(StateTransitionInvalid, RejectionPolicyInvalid))
    else if r.checker != cfg.checker then Some(Rejection(StateTransitionInvalid, RejectionCheckerInvalid))
    else if r.code.NotRegistered? then Some(Rejection(StateTransitionInvalid, RejectionCodeNotRegistered))
    else None
  }

  function RejectJobMeaning(cfg: Config, db: Tables, e: Envelope, input: Inputs): Ruling
    requires e.command.RejectJob? && db.core.program.Some?
  {
    var c := e.command;
    var refusal := JobRefusal(db.ingest, c.job, c.expectedJob, Claimed);
    if refusal.Some? then Refuse(refusal.value)
    else
      var job, r := db.ingest.jobs[c.job], c.rejection;
      var invalid := RejectionRefusal(cfg, e, c.job, job, r);
      if invalid.Some? then Refuse(invalid.value)
      else
        var core := Bump(db.core);
        Perform(Effect(core,
          db.ingest.(jobs := db.ingest.jobs[c.job := job.(status := JobRejected, version := 3, rejectionCode := Some(r.code))]),
          db.budget, JobRejectedTopic, JobWasRejected(c.job, 3, r.code), e.program, core.program.value.stateVersion))
  }

  // ---------- M4 ----------

  function CreateSnapshotMeaning(cfg: Config, db: Tables, e: Envelope, input: Inputs): Ruling
    requires e.command.CreateSnapshot?
  {
    if input.first in db.budget.snapshots then Abort
    else
      Perform(Effect(db.core, db.ingest,
        db.budget.(snapshots := db.budget.snapshots[input.first := e.command.config]),
        SnapshotCreatedTopic, SnapshotCreated(input.first, e.command.config), input.first, 1))
  }

  datatype Dimension = InputTokens | OutputTokens | CostUnits

  function Part(a: Amounts, d: Dimension): nat {
    match d
    case InputTokens => a.input
    case OutputTokens => a.output
    case CostUnits => a.cost
  }

  /** Rows of one snapshot, or of the whole Program. */
  datatype Scope = OfSnapshot(run: Uuid, snapshot: Uuid) | OfProgram

  predicate InScope(s: Scope, r: Reservation) {
    s.OfProgram? || (r.run == s.run && r.snapshot == s.snapshot)
  }

  /** What is summed: calls that hold a slot, or the amount a reservation holds against a cap -
      its maxima while reserved, its charge once settled, nothing when refused. */
  datatype Measure = Calls | Holding(dimension: Dimension) | Charge(dimension: Dimension) | Overshoot(dimension: Dimension)

  function ChargedPart(r: Reservation, d: Dimension): nat {
    if r.charged.Some? then Part(r.charged.value, d) else 0
  }

  function Weight(m: Measure, s: Scope, r: Reservation): nat {
    if !InScope(s, r) then 0
    else
      match m
      case Calls => if r.status == Refused then 0 else 1
      case Holding(d) => if r.status == Reserved then Part(r.maxima, d) else if r.status == Refused then 0 else ChargedPart(r, d)
      case Charge(d) => ChargedPart(r, d)
      case Overshoot(d) => if ChargedPart(r, d) > Part(r.maxima, d) then ChargedPart(r, d) - Part(r.maxima, d) else 0
  }

  function Weights(rows: map<Uuid, Reservation>, m: Measure, s: Scope): map<Uuid, nat> {
    map k | k in rows :: Weight(m, s, rows[k])
  }

  ghost function Total(rows: map<Uuid, Reservation>, m: Measure, s: Scope): nat {
    Sum(Weights(rows, m, s))
  }

  datatype Totals = Totals(calls: nat, amounts: Amounts)

  /** The SQL aggregate: count and sums over the rows in scope. */
  ghost function TotalsOf(rows: map<Uuid, Reservation>, s: Scope): Totals {
    Totals(Total(rows, Calls, s),
           Amounts(Total(rows, Holding(InputTokens), s), Total(rows, Holding(OutputTokens), s), Total(rows, Holding(CostUnits), s)))
  }

  const ProgramCallCap := 300
  const ProgramInputCap := 50_000_000
  const ProgramOutputCap := 12_500_000
  const ProgramCostCap := 10_000_000
  const InputMicrocnyPerMillion := 200_000
  const OutputMicrocnyPerMillion := 800_000

  function When(b: bool, v: Violation): seq<Violation> { if b then [v] else [] }

  function RmbNumerator(input: int, output: int): int {
    input * InputMicrocnyPerMillion + output * OutputMicrocnyPerMillion
  }

  function ProgramViolations(totals: Totals, wanted: Amounts): seq<Violation> {
    var input, output := totals.amounts.input + wanted.input, totals.amounts.output + wanted.output;
    When(totals.calls + 1 > ProgramCallCap, ProgramTotalCallCap)
    + When(input > ProgramInputCap, ProgramTotalInputCap)
    + When(output > ProgramOutputCap, ProgramTotalOutputCap)
    + When(RmbNumerator(input, output) > ProgramCostCap * 1_000_000, ProgramRmbCostCap)
  }

  function PerCallViolations(config: RuntimeConfig, wanted: Amounts): seq<Violation> {
    When(wanted.input > config.perCall.input, PerCallInputCap)
    + When(wanted.output > config.perCall.output, PerCallOutputCap)
    + When(wanted.cost > config.perCall.cost, PerCallCostCap)
  }

  function TotalViolations(config: RuntimeConfig, totals: Totals, wanted: Amounts): seq<Violation> {
    When(totals.calls + 1 > config.maxCalls, TotalCallCap)
    + When(totals.amounts.input + wanted.input > config.total.input, TotalInputCap)
    + When(totals.amounts.output + wanted.output > config.total.output, TotalOutputCap)
    + When(totals.amounts.cost + wanted.cost > config.total.cost, TotalCostCap)
  }

  function SnapshotViolations(config: RuntimeConfig, totals: Totals, wanted: Amounts): seq<Violation> {
    PerCallViolations(config, wanted) + TotalViolations(config, totals, wanted)
  }

  ghost function Violations(budget: Budget, q: BudgetRequest): seq<Violation>
    requires q.snapshot in budget.snapshots
  {
    SnapshotViolations(budget.snapshots[q.snapshot], TotalsOf(budget.reservations, OfSnapshot(q.run, q.snapshot)), q.maxima)
    + ProgramViolations(TotalsOf(budget.reservations, OfProgram), q.maxima)
  }

  predicate CallTaken(budget: Budget, call: Uuid) {
    exists r :: r in budget.reservations && budget.reservations[r].modelCall == call
  }

  ghost function ReservationOfCall(budget: Budget, call: Uuid): (r: Uuid)
    requires CallTaken(budget, call)
    ensures r in budget.reservations && budget.reservations[r].modelCall == call
  {
    var r :| r in budget.reservations && budget.reservations[r].modelCall == call;
    r
  }

  ghost function ReserveMeaning(cfg: Config, db: Tables, e: Envelope, input: Inputs): Ruling
    requires e.command.ReserveBudget?
  {
    var q, b := e.command.request, db.budget;
    if q.snapshot !in b.snapshots then
      Refuse(Rejection(NotFound, SnapshotNotFound, RuntimeConfigNotFound))
    else if b.snapshots[q.snapshot].run != q.run then
      Refuse(Rejection(SchemaInvalid, RunMismatch, RuntimeConfigInvalid))
    else if CallTaken(b, q.modelCall) then
      Refuse(Rejection(Conflict, CallAlreadyBound,
        ExistingReservation(ReservationOfCall(b, q.modelCall))))
    else if input.first in b.reservations then Abort
    else
      var violations := Violations(b, q);
      var status := if violations == [] then Reserved else Refused;
      var r := Reservation(q.run, q.modelCall, q.snapshot, q.maxima, status, 1, None, None, None, e.principal.id);
      Perform(Effect(db.core, db.ingest, b.(reservations := b.reservations[input.first := r]),
        ReservationTopic(status), BudgetReserved(input.first, q, status, violations), input.first, 1))
  }

  function SettleRefusal(e: Envelope, b: Budget, u: UsageReceipt): Option<Rejection> {
    if u.issuedBy != e.principal.id then
      Some(Rejection(PrincipalNotAllowed, UsageIssuerMismatch, ProviderUsageInvalid))
    else if u.reservation !in b.reservations then
      Some(Rejection(NotFound, NoSuchReservation, ReservationNotFound))
    else if b.reservations[u.reservation].status != Reserved then
      Some(Rejection(StateTransitionInvalid, NotReserved, ReservationStateInvalid))
    else if u.snapshot !in b.snapshots then
      Some(Rejection(NotFound, SettlementSnapshotNotFound, RuntimeConfigNotFound))
    else
      var r := b.reservations[u.reservation];
      if u.program != e.program || u.run != r.run || u.modelCall != r.modelCall || u.snapshot != r.snapshot
         || u.providerAlias != b.snapshots[u.snapshot].providerAlias then
        Some(Rejection(SchemaInvalid, UsageNotBound, ProviderUsageInvalid))
      else None
  }

  function ChargeOf(r: Reservation, u: Usage): Amounts {
    if u.Reported? then u.amounts else r.maxima
  }

  predicate Exceeds(charged: Amounts, maxima: Amounts) {
    charged.input > maxima.input || charged.output > maxima.output || charged.cost > maxima.cost
  }

  function SettledRow(r: Reservation, u: UsageReceipt): Reservation {
    r.(status := if u.usage.Reported? then Settled else ConservativelySettled, version := 2,
       usageReceipt := Some(u.receiptId), ledger := Some(UsageLedgerOf(u.receiptId)),
       charged := Some(ChargeOf(r, u.usage)))
  }

  function SettleMeaning(cfg: Config, db: Tables, e: Envelope, input: Inputs): Ruling
    requires e.command.SettleBudget?
  {
    var u, b := e.command.usage, db.budget;
    var refusal := SettleRefusal(e, b, u);
    if refusal.Some? then Refuse(refusal.value)
    else
      var r, ledger := b.reservations[u.reservation], UsageLedgerOf(u.receiptId);
      if ledger in b.ledger then Abort
      else
        var charged := ChargeOf(r, u.usage);
        var over := Exceeds(charged, r.maxima);
        var row := SettledRow(r, u);
        Perform(Effect(db.core, db.ingest,
          b.(reservations := b.reservations[u.reservation := row],
             ledger := b.ledger[ledger := LedgerRow(u, u.reservation, charged, over)]),
          ReservationTopic(row.status),
          BudgetSettled(u.reservation, ledger, u.receiptId, row.status, charged, over), u.reservation, 2))
  }

  // ---------- one command ----------

  ghost function Meaning(cfg: Config, db: Tables, e: Envelope, input: Inputs): Ruling
    requires e.command.CreateProgram? || db.core.program.Some?
  {
    match e.command
    case CreateProgram(_, _) => CreateProgramMeaning(cfg, db, e, input)
    case SubmitProposal(_, _, _) => SubmitMeaning(cfg, db, e, input)
    case RecordDecision(_, _, _, _) => DecideMeaning(cfg, db, e, input)
    case ApplyProposal(_, _, _, _) => ApplyMeaning(cfg, db, e, input)
    case ExpireApproval(_, _) => ExpireMeaning(cfg, db, e, input)
    case CreateJob(_) => CreateJobMeaning(cfg, db, e, input)
    case ClaimJob(_, _, _) => ClaimMeaning(cfg, db, e, input)
    case FinalizeJob(_, _, _) => FinalizeMeaning(cfg, db, e, input)
    case RejectJob(_, _, _) => RejectJobMeaning(cfg, db, e, input)
    case CreateSnapshot(_) => CreateSnapshotMeaning(cfg, db, e, input)
    case ReserveBudget(_) => ReserveMeaning(cfg, db, e, input)
    case SettleBudget(_) => SettleMeaning(cfg, db, e, input)
  }

  function Version(core: Core): Option<nat> {
    if core.program.Some? then Some(core.program.value.stateVersion) else None
  }

  /** The state version a command claims to have read; only M2 commands on an existing Program name one. */
  function Expected(c: Command): Option<nat> {
    match c
    case SubmitProposal(v, _, _) => Some(v)
    case RecordDecision(v, _, _, _) => Some(v)
    case ApplyProposal(v, _, _, _) => Some(v)
    case ExpireApproval(v, _) => Some(v)
    case _ => None
  }

  function Before(core: Core, e: Envelope): Option<nat> {
    if e.command.CreateProgram? then None else if IsM2(e.command) then Expected(e.command) else Version(core)
  }

  function RefusedResult(id: Uuid, r: Rejection, version: Option<nat>): CommandResult {
    CommandResult(id, REJECTED, r.code, version, Refusal(r), false)
  }

  const ConstraintRejection := Rejection(Conflict, ConstraintViolated)

  /** Commit a refusal: nothing but the receipt is added. */
  function Refusing(db: Tables, e: Envelope, r: Rejection): Outcome {
    var receipt := CommandReceipt(e.key, HashOf(e), RejectedReceipt, r.code, Refusal(r), Before(db.core, e), Version(db.core));
    Outcome(db.(log := db.log.(receipts := db.log.receipts[e.commandId := receipt])),
            RefusedResult(e.commandId, r, Version(db.core)))
  }

  function EventIds(events: seq<DomainEvent>): set<Uuid> { set ev | ev in events :: ev.id }
  function OutboxIds(outbox: seq<OutboxEvent>): set<Uuid> { set o | o in outbox :: o.id }

  function Committing(db: Tables, e: Envelope, input: Inputs, f: Effect): Outcome
    requires f.core.program.Some?
  {
    if input.event in EventIds(db.log.events) || input.outboxEvent in OutboxIds(db.log.outbox) then
      Outcome(db, RefusedResult(e.commandId, ConstraintRejection, None))
    else
      var version := f.core.program.value.stateVersion;
      var receipt := CommandReceipt(e.key, HashOf(e), CommittedReceipt, Okay, f.body, Before(db.core, e), Some(version));
      var log := Log(
        db.log.receipts[e.commandId := receipt],
        db.log.events + [DomainEvent(input.event, e.commandId, 0, f.topic, version, f.body)],
        db.log.outbox + [OutboxEvent(input.outboxEvent, input.event, f.aggregate, f.aggregateVersion, f.topic, f.body)]);
      Outcome(Tables(f.core, f.ingest, f.budget, log),
              CommandResult(e.commandId, COMMITTED, Okay, Some(version), f.body, false))
  }

  function VersionRefusal(core: Core, c: Command): Option<Rejection>
    requires core.program.Some?
  {
    var actual := core.program.value.stateVersion;
    if Expected(c).Some? && Expected(c).value != actual then
      Some(Rejection(VersionConflict, StaleStateVersion, ProgramVersions(Expected(c).value, actual)))
    else None
  }

  function Conclude(db: Tables, e: Envelope, input: Inputs, ruling: Ruling): Outcome {
    match ruling
    case Refuse(r) => Refusing(db, e, r)
    case Abort => Outcome(db, RefusedResult(e.commandId, ConstraintRejection, None))
    case Perform(f) =>
      if f.core.program.Some? then Committing(db, e, input, f)
      else Outcome(db, RefusedResult(e.commandId, ConstraintRejection, None))
  }

  /** What a command means once its key is reserved. */
  ghost function RulingOf(cfg: Config, db: Tables, e: Envelope, input: Inputs): Ruling
    requires e.command.CreateProgram? || db.core.program.Some?
  {
    var stale := if e.command.CreateProgram? then None else VersionRefusal(db.core, e.command);
    if stale.Some? then Refuse(stale.value) else Meaning(cfg, db, e, input)
  }

  /** An admitted command whose key is new. */
  ghost function Execute(cfg: Config, db: Tables, e: Envelope, input: Inputs): Outcome
    requires e.command.CreateProgram? || db.core.program.Some?
  {
    if e.commandId in db.log.receipts then Outcome(db, RefusedResult(e.commandId, ConstraintRejection, None))
    else Conclude(db, e, input, RulingOf(cfg, db, e, input))
  }

  ghost function Step(cfg: Config, db: Tables, e: Envelope, input: Inputs): Outcome {
    var denied := Admit(db.core, e);
    if denied.Some? then Outcome(db, RefusedResult(e.commandId, denied.value, None))
    else if KeyTaken(db.log, e.key) then
      var c := ReceiptOf(db.log, e.key);
      if db.log.receipts[c].hash == HashOf(e) then Outcome(db, ReplayOf(c, db.log.receipts[c]))
      else Outcome(db, RefusedResult(e.commandId, Rejection(IdempotencyKeyReused, KeyBoundElsewhere), None))
    else if e.command.CreateProgram? || db.core.program.Some? then Execute(cfg, db, e, input)
    else Outcome(db, RefusedResult(e.commandId, Rejection(NotFound, NoSuchProgram), None))
  }

  /** A run: any commands, with any clock readings and identifiers. */
  datatype Call = Call(envelope: Envelope, input: Inputs)

  ghost function Run(cfg: Config, db: Tables, calls: seq<Call>): Tables
    decreases |calls|
  {
    if calls == [] then db
    else Step(cfg, Run(cfg, db, calls[..|calls| - 1]), calls[|calls| - 1].envelope, calls[|calls| - 1].input).db
  }
}
