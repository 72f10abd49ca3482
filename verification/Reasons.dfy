/** When a command commits, and what each refusal says about the rows. Nothing here computes an answer: the
    predicates name facts of the request and the rows, and a refusal's cause is the first fact that is missing. */
module Reasons {
  import opened Base
  import opened Plans
  import opened Tables
  import opened Spec

  // ---------- admission ----------

  /** What may come through each door. */
  predicate MayEnter(c: Command, channel: Channel, kind: PrincipalType) {
    match (channel, kind)
    case (Web, User) => c.CreateProgram? || c.SubmitProposal? || c.RecordDecision? || c.ApplyProposal? || c.CreateJob?
    case (Mcp, Agent) => c.SubmitProposal? || c.ApplyProposal? || c.CreateJob?
    case (Internal, Service) => !c.CreateProgram? && !c.RecordDecision? && !c.CreateJob?
    case (Internal, System) => c.ExpireApproval?
    case _ => false
  }

  /** Only the owner decides, and only a service member claims or ends jobs and touches the budget. */
  predicate MayAct(c: Command, role: Role) {
    && (c.RecordDecision? ==> role == Owner)
    && (c.ClaimJob? || c.FinalizeJob? || c.RejectJob? || c.CreateSnapshot? || c.ReserveBudget? || c.SettleBudget? ==> role == ServiceRole)
  }

  predicate InForm(c: Command) {
    c.CreateProgram? ==> c.plan.tasks != [] && UniqueKeys(c.plan.tasks) && UniqueOrders(c.plan.tasks)
  }

  predicate UsageIsOfProgram(e: Envelope) {
    e.command.SettleBudget? ==> e.command.usage.program == e.program
  }

  predicate IsMember(core: Core, e: Envelope) {
    e.principal.id in core.members
  }

  predicate Admitted(core: Core, e: Envelope) {
    && InForm(e.command) && MayEnter(e.command, e.channel, e.principal.kind) && UsageIsOfProgram(e) && e.program in e.principal.programs
    && (e.command.CreateProgram? ||
        (IsMember(core, e) && core.members[e.principal.id].kind == e.principal.kind && MayAct(e.command, core.members[e.principal.id].role)))
  }

  /** A rejection that carries nothing but its code. */
  predicate Plainly(r: Rejection, code: ReasonCode) {
    r.code == code && r.detail == NoDetail
  }

  predicate NotAdmitted(core: Core, e: Envelope, r: Rejection) {
    var entered := InForm(e.command) && MayEnter(e.command, e.channel, e.principal.kind);
    var scoped := entered && UsageIsOfProgram(e) && e.program in e.principal.programs;
    || (r.cause == TasksNotUnique && Plainly(r, SchemaInvalid) && !InForm(e.command))
    || (r.cause == EntryNotAllowed && Plainly(r, PrincipalNotAllowed) && InForm(e.command) && !entered)
    || (r.cause == UsageProgramMismatch && Plainly(r, InvalidEnvelope) && entered && !UsageIsOfProgram(e))
    || (r.cause == OutsideScope && Plainly(r, ProgramScopeDenied) && entered && UsageIsOfProgram(e) && e.program !in e.principal.programs)
    || (r.cause == NotAMember && Plainly(r, ProgramScopeDenied) && scoped && !e.command.CreateProgram? && !IsMember(core, e))
    || (r.cause == MembershipMismatch && Plainly(r, PrincipalNotAllowed) && scoped && !e.command.CreateProgram? && IsMember(core, e)
        && core.members[e.principal.id].kind != e.principal.kind)
    || (r.cause == RoleNotAllowed && Plainly(r, PrincipalNotAllowed) && scoped && !e.command.CreateProgram? && IsMember(core, e)
        && core.members[e.principal.id].kind == e.principal.kind && !MayAct(e.command, core.members[e.principal.id].role))
  }

  lemma DoorsAgree(c: Command, channel: Channel, kind: PrincipalType)
    ensures EntryAllowed(c, channel, kind) <==> MayEnter(c, channel, kind)
  {
  }

  lemma RolesAgree(c: Command, role: Role)
    ensures RoleAllowed(c, role) <==> MayAct(c, role)
  {
  }

  lemma AdmissionIsExact(core: Core, e: Envelope)
    ensures Admit(core, e).None? <==> Admitted(core, e)
    ensures Admit(core, e).Some? ==> NotAdmitted(core, e, Admit(core, e).value)
  {
    hide UniqueKeys, UniqueOrders, EntryAllowed, MayEnter, RoleAllowed, MayAct;
    DoorsAgree(e.command, e.channel, e.principal.kind);
    if IsMember(core, e) { RolesAgree(e.command, core.members[e.principal.id].role); }
  }

  // ---------- plans ----------

  /** No stored plan repeats a task key. */
  ghost predicate KeysUnique(core: Core) {
    forall p :: p in core.plans ==> UniqueKeys(core.plans[p].content.tasks)
  }

  predicate BootstrapIsDistinct(cfg: Config, owner: string) {
    forall i, j :: 0 <= i < j < |cfg.bootstrap| && cfg.bootstrap[i].0 != owner ==> cfg.bootstrap[i].0 != cfg.bootstrap[j].0
  }

  ghost predicate CanSubmit(core: Core, c: Command)
    requires c.SubmitProposal? && core.program.Some?
  {
    && core.program.value.activePlan == Some(c.base) && c.base in core.plans
    && Possible(Contents(core.plans), core.plans[c.base].content, c.change)
  }

  /** A refused change, by its first missing fact. */
  predicate CannotChange(stored: map<Uuid, Plan>, base: Plan, change: Change, r: Rejection) {
    || (r.cause == OrderIsNotARearrangement && Plainly(r, StateTransitionInvalid) && change.ReorderTasks?
        && multiset(change.taskOrder) != multiset(Keys(base.tasks)))
    || (r.cause == RestoreTargetNotFound && Plainly(r, NotFound) && change.RestorePlan? && change.target !in stored)
    || (r.cause == ChangeNotRegistered && Plainly(r, CommandNotRegistered) && change.Unregistered?)
  }

  ghost predicate CannotSubmit(core: Core, c: Command, r: Rejection)
    requires c.SubmitProposal? && core.program.Some?
  {
    var onActive := core.program.value.activePlan == Some(c.base);
    || (r.cause == BaseNotActive && Plainly(r, VersionConflict) && !onActive)
    || (r.cause == ActivePlanNotFound && Plainly(r, NotFound) && onActive && c.base !in core.plans)
    || (onActive && c.base in core.plans && CannotChange(Contents(core.plans), core.plans[c.base].content, c.change, r))
  }

  /** A low-risk proposal needs no name for an approval. */
  predicate SubmitNamesNew(core: Core, c: Command, input: Inputs)
    requires c.SubmitProposal? && core.program.Some?
  {
    input.first !in core.proposals && ((c.change.ReorderTasks? && core.program.value.allowReorder) || input.second !in core.approvals)
  }

  lemma SubmitIsExact(cfg: Config, db: Tables, e: Envelope, input: Inputs)
    requires e.command.SubmitProposal? && db.core.program.Some? && KeysUnique(db.core)
    ensures
      match SubmitMeaning(cfg, db, e, input)
      case Refuse(r) => CannotSubmit(db.core, e.command, r)
      case Abort => CanSubmit(db.core, e.command) && !SubmitNamesNew(db.core, e.command, input)
      case Perform(_) => CanSubmit(db.core, e.command) && SubmitNamesNew(db.core, e.command, input)
  {
    hide UniqueKeys, SubmittedRows, BumpedTo, DiffOf;
    if e.command.base in db.core.plans {
      ChangeIsExact(Contents(db.core.plans), db.core.plans[e.command.base].content, e.command.change);
    }
    hide ApplyChange, Possible, CannotChange;
  }

  lemma ChangeIsExact(stored: map<Uuid, Plan>, base: Plan, change: Change)
    requires UniqueKeys(base.tasks)
    ensures
      match ApplyChange(stored, base, change)
      case Ok(_) => Possible(stored, base, change)
      case Err(r) => CannotChange(stored, base, change, r)
  {
    ChangesAreDescribed(stored, base, change);
    hide UniqueKeys, AcceptsOrder, Reordered, Describes;
  }

  ghost predicate CanDecide(core: Core, c: Command, now: int)
    requires c.RecordDecision?
  {
    && c.approval in core.approvals && core.approvals[c.approval].status == ApprovalPending
    && now < core.approvals[c.approval].expiresAt && core.approvals[c.approval].proposal in core.proposals
  }

  ghost predicate CannotDecide(core: Core, c: Command, now: int, r: Rejection)
    requires c.RecordDecision?
  {
    var pending := c.approval in core.approvals && core.approvals[c.approval].status == ApprovalPending;
    || (r.cause == ApprovalNotFound && Plainly(r, NotFound) && c.approval !in core.approvals)
    || (r.cause == ApprovalNotPending && Plainly(r, StateTransitionInvalid) && c.approval in core.approvals && !pending)
    || (r.cause == ApprovalHasExpired && Plainly(r, ReasonCode.ApprovalExpired) && pending && now >= core.approvals[c.approval].expiresAt)
    || (r.cause == ProposalNotDecidable && Plainly(r, StateTransitionInvalid) && pending && now < core.approvals[c.approval].expiresAt
        && core.approvals[c.approval].proposal !in core.proposals)
  }

  lemma DecideIsExact(cfg: Config, db: Tables, e: Envelope, input: Inputs)
    requires e.command.RecordDecision? && db.core.program.Some?
    ensures
      match DecideMeaning(cfg, db, e, input)
      case Refuse(r) => CannotDecide(db.core, e.command, input.now, r)
      case Abort => CanDecide(db.core, e.command, input.now) && input.first in db.core.decisions
      case Perform(_) => CanDecide(db.core, e.command, input.now) && input.first !in db.core.decisions
  {
  }

  ghost predicate CanExpire(core: Core, c: Command, now: int)
    requires c.ExpireApproval?
  {
    && c.approval in core.approvals && core.approvals[c.approval].status == ApprovalPending
    && now >= core.approvals[c.approval].expiresAt && core.approvals[c.approval].proposal in core.proposals
  }

  ghost predicate CannotExpire(core: Core, c: Command, now: int, r: Rejection)
    requires c.ExpireApproval?
  {
    var pending := c.approval in core.approvals && core.approvals[c.approval].status == ApprovalPending;
    || (r.cause == ApprovalNotFound && Plainly(r, NotFound) && c.approval !in core.approvals)
    || (r.cause == ApprovalNotPending && Plainly(r, StateTransitionInvalid) && c.approval in core.approvals && !pending)
    || (r.cause == ApprovalNotYetExpired && Plainly(r, StateTransitionInvalid) && pending && now < core.approvals[c.approval].expiresAt)
    || (r.cause == ProposalMissing && Plainly(r, StateTransitionInvalid) && pending && now >= core.approvals[c.approval].expiresAt
        && core.approvals[c.approval].proposal !in core.proposals)
  }

  lemma ExpireIsExact(cfg: Config, db: Tables, e: Envelope, input: Inputs)
    requires e.command.ExpireApproval? && db.core.program.Some?
    ensures
      match ExpireMeaning(cfg, db, e, input)
      case Refuse(r) => CannotExpire(db.core, e.command, input.now, r)
      case Abort => false
      case Perform(_) => CanExpire(db.core, e.command, input.now)
  {
  }

  /** An open proposal on the active plan it was filed against. */
  ghost predicate IsOpen(core: Core, c: Command)
    requires c.ApplyProposal? && core.program.Some?
  {
    && c.proposal in core.proposals && core.proposals[c.proposal].status != Applied
    && core.proposals[c.proposal].base == c.base && core.program.value.activePlan == Some(c.base)
  }

  /** The decision approves this very difference on this very base. */
  ghost predicate DecisionFits(core: Core, c: Command)
    requires c.ApplyProposal? && c.proposal in core.proposals
  {
    && c.decision.Some? && c.decision.value in core.decisions
    && var d, x := core.decisions[c.decision.value], core.proposals[c.proposal];
    d.verdict == Approve && d.proposal == c.proposal && d.base == x.base && d.diffHash == x.diffHash
  }

  ghost predicate ApprovalStands(core: Core, c: Command)
    requires c.ApplyProposal? && c.proposal in core.proposals && DecisionFits(core, c)
  {
    var a := core.decisions[c.decision.value].approval;
    a in core.approvals && core.approvals[a].status == Approved
  }

  /** A high-risk proposal needs its decision in time; a low-risk one needs the owner's standing permission and no decision. */
  ghost predicate IsReleased(core: Core, c: Command, now: int)
    requires c.ApplyProposal? && core.program.Some? && c.proposal in core.proposals
  {
    if core.proposals[c.proposal].risk == HighRisk then
      DecisionFits(core, c) && now < core.decisions[c.decision.value].expiresAt && ApprovalStands(core, c)
    else c.decision.None? && core.program.value.allowReorder
  }

  ghost predicate StillComputes(core: Core, c: Command)
    requires c.ApplyProposal? && c.proposal in core.proposals
  {
    var x := core.proposals[c.proposal];
    x.base in core.plans && Possible(Contents(core.plans), core.plans[x.base].content, x.change)
  }

  ghost predicate CanApply(core: Core, c: Command, now: int)
    requires c.ApplyProposal? && core.program.Some?
  {
    IsOpen(core, c) && IsReleased(core, c, now) && StillComputes(core, c)
  }

  ghost predicate DecisionDoesNotFit(core: Core, c: Command, now: int, r: Rejection)
    requires c.ApplyProposal? && c.proposal in core.proposals
  {
    || (r.cause == HighRiskNeedsDecision && Plainly(r, ReasonCode.ApprovalRequired) && c.decision.None?)
    || (r.cause == DecisionNotFound && Plainly(r, DecisionInvalid) && c.decision.Some? && c.decision.value !in core.decisions)
    || (r.cause == DecisionNotBound && Plainly(r, DecisionInvalid) && c.decision.Some? && c.decision.value in core.decisions
        && !DecisionFits(core, c))
    || (r.cause == DecisionHasExpired && Plainly(r, ReasonCode.ApprovalExpired) && DecisionFits(core, c)
        && now >= core.decisions[c.decision.value].expiresAt)
    || (r.cause == ApprovalNotValid && Plainly(r, DecisionInvalid) && DecisionFits(core, c)
        && now < core.decisions[c.decision.value].expiresAt && !ApprovalStands(core, c))
  }

  ghost predicate CannotApply(core: Core, c: Command, now: int, r: Rejection)
    requires c.ApplyProposal? && core.program.Some?
  {
    var known := c.proposal in core.proposals;
    var applied := known && core.proposals[c.proposal].status == Applied;
    var high := IsOpen(core, c) && core.proposals[c.proposal].risk == HighRisk;
    var low := IsOpen(core, c) && core.proposals[c.proposal].risk != HighRisk;
    || (r.cause == ProposalNotFound && Plainly(r, NotFound) && !known)
    || (r.cause == AlreadyApplied && Plainly(r, DecisionReplayed) && applied)
    || (r.cause == ProposalBaseMismatch && Plainly(r, DecisionInvalid) && known && !applied && core.proposals[c.proposal].base != c.base)
    || (r.cause == ActivePlanChanged && Plainly(r, VersionConflict) && known && !applied && core.proposals[c.proposal].base == c.base
        && core.program.value.activePlan != Some(c.base))
    || (r.cause == LowRiskCarriesDecision && Plainly(r, DecisionInvalid) && low && c.decision.Some?)
    || (r.cause == LowRiskPolicyRevoked && Plainly(r, ReasonCode.ApprovalRequired) && low && c.decision.None? && !core.program.value.allowReorder)
    || (r.cause == BasePlanNotFound && Plainly(r, NotFound) && IsOpen(core, c) && IsReleased(core, c, now) && !StillComputes(core, c))
    || (high && DecisionDoesNotFit(core, c, now, r))
  }

  lemma ApplyIsExact(cfg: Config, db: Tables, e: Envelope, input: Inputs)
    requires e.command.ApplyProposal? && db.core.program.Some? && KeysUnique(db.core)
    ensures
      match ApplyMeaning(cfg, db, e, input)
      case Refuse(r) => CannotApply(db.core, e.command, input.now, r)
      case Abort => CanApply(db.core, e.command, input.now) && input.first in db.core.plans
      case Perform(_) => CanApply(db.core, e.command, input.now) && input.first !in db.core.plans
  {
    NotRefusedIff(db.core, e.command, input.now);
    if ApplyRefusal(db.core, e.command, input.now).Some? { RefusalIsExact(db.core, e.command, input.now); }
    if e.command.proposal in db.core.proposals { ComputesIff(db.core, e.command); }
    hide NewPlanVersion, AppliedRows, BumpedTo, ReleasedBy, ProposedContent, ApplyRefusal, IsReleased, IsOpen, StillComputes;
  }

  lemma NotRefusedIff(core: Core, c: Command, now: int)
    requires c.ApplyProposal? && core.program.Some?
    ensures ApplyRefusal(core, c, now).None? <==> IsOpen(core, c) && IsReleased(core, c, now)
  {
    hide DecisionRefusal, DecisionFits, ApprovalStands, DecisionDoesNotFit;
    if c.proposal in core.proposals { DecisionIsExact(core, c, now); }
  }

  lemma RefusalIsExact(core: Core, c: Command, now: int)
    requires c.ApplyProposal? && core.program.Some? && ApplyRefusal(core, c, now).Some?
    ensures CannotApply(core, c, now, ApplyRefusal(core, c, now).value)
  {
    hide StillComputes, DecisionRefusal, DecisionFits, ApprovalStands, IsReleased;
    if c.proposal in core.proposals { DecisionIsExact(core, c, now); }
  }

  lemma DecisionIsExact(core: Core, c: Command, now: int)
    requires c.ApplyProposal? && c.proposal in core.proposals
    ensures DecisionRefusal(core, c.proposal, c.decision, now).None? <==>
      DecisionFits(core, c) && now < core.decisions[c.decision.value].expiresAt && ApprovalStands(core, c)
    ensures DecisionRefusal(core, c.proposal, c.decision, now).Some? ==>
      DecisionDoesNotFit(core, c, now, DecisionRefusal(core, c.proposal, c.decision, now).value)
  {
  }

  lemma ComputesIff(core: Core, c: Command)
    requires c.ApplyProposal? && c.proposal in core.proposals && KeysUnique(core)
    ensures
      var x := core.proposals[c.proposal];
      StillComputes(core, c) <==> x.base in core.plans && ProposedContent(core.plans, x).Ok?
  {
    var x := core.proposals[c.proposal];
    if x.base in core.plans { ChangesAreDescribed(Contents(core.plans), core.plans[x.base].content, x.change); }
    hide UniqueKeys, ApplyChange, Possible, Describes;
  }

  // ---------- evidence ----------

  /** The outbox holds the request event that announced this job. */
  ghost predicate WasRequested(log: Log, ref: OutboxRef, job: Uuid) {
    exists o :: o in log.outbox && o.id == ref.outboxEvent && o.domainEvent == ref.domainEvent
      && o.topic == IngestRequestedTopic && o.body.JobCreated? && o.body.job == job
  }

  predicate JobIs(g: Ingest, job: Uuid, version: int, status: JobStatus) {
    job in g.jobs && g.jobs[job].version == version && g.jobs[job].status == status
  }

  predicate JobIsNot(g: Ingest, job: Uuid, version: int, status: JobStatus, r: Rejection) {
    || (r.cause == NoSuchJob && Plainly(r, NotFound) && job !in g.jobs)
    || (r.cause == StaleJobVersion && r.code == VersionConflict && job in g.jobs && g.jobs[job].version != version
        && r.detail == JobVersions(version, g.jobs[job].version))
    || (r.cause == UnexpectedJobStatus && Plainly(r, StateTransitionInvalid) && job in g.jobs && g.jobs[job].version == version
        && g.jobs[job].status != status)
  }

  ghost predicate CanClaim(db: Tables, c: Command)
    requires c.ClaimJob?
  {
    WasRequested(db.log, c.outboxRef, c.job) && c.expectedJob == 1 && JobIs(db.ingest, c.job, 1, Created)
  }

  ghost predicate CannotClaim(db: Tables, c: Command, r: Rejection)
    requires c.ClaimJob?
  {
    var requested := WasRequested(db.log, c.outboxRef, c.job);
    || (r.cause == ClaimNotBound && Plainly(r, StateTransitionInvalid) && !requested)
    || (r.cause == RequestVersionMismatch && Plainly(r, VersionConflict) && requested && c.expectedJob != 1)
    || (requested && c.expectedJob == 1 && JobIsNot(db.ingest, c.job, 1, Created, r))
  }

  lemma ClaimIsExact(cfg: Config, db: Tables, e: Envelope, input: Inputs)
    requires e.command.ClaimJob? && db.core.program.Some?
    ensures
      match ClaimMeaning(cfg, db, e, input)
      case Refuse(r) => CannotClaim(db, e.command, r)
      case Abort => false
      case Perform(_) => CanClaim(db, e.command)
  {
    hide ClaimBound, WasRequested, BumpedTo;
    RequestIsExact(db.log, e.command.outboxRef, e.command.job);
  }

  lemma RequestIsExact(log: Log, ref: OutboxRef, job: Uuid)
    ensures ClaimBound(log, ref, job) <==> WasRequested(log, ref, job)
  {
    if ClaimBound(log, ref, job) {
      var o :| o in log.outbox && IsIngestRequest(o, ref, job);
    } else {
      assert forall o :: o in log.outbox ==> !IsIngestRequest(o, ref, job);
    }
  }

  /** What the service asks of an evidence receipt for job `id`. */
  predicate ReceiptFits(cfg: Config, e: Envelope, id: Uuid, job: Job, r: EvidenceReceipt) {
    && r.program == e.program && r.job == id && job.claim == Some(r.claim) && r.issuedBy == e.principal.id
    && r.policy == job.policy == cfg.policy && r.checker == cfg.checker && r.format == PlainText && r.exportSafe
    && r.objectRef == ObjectRef(r.program, r.rawSha256)
    && r.receiptId == EvidenceReceiptOf(r.program, id, r.claim, r.objectRef, r.rawSha256, r.byteSize, r.format, r.policy, r.checker)
  }

  predicate ReceiptDoesNotFit(cfg: Config, e: Envelope, id: Uuid, job: Job, r: EvidenceReceipt, why: Rejection) {
    var placed := r.program == e.program && r.job == id;
    var claimed := placed && job.claim == Some(r.claim);
    var issued := claimed && r.issuedBy == e.principal.id;
    var underPolicy := issued && r.policy == job.policy == cfg.policy;
    var checked := underPolicy && r.checker == cfg.checker;
    var text := checked && r.format == PlainText;
    var located := text && r.exportSafe && r.objectRef == ObjectRef(r.program, r.rawSha256);
    || (why.cause == ReceiptOutsideJob && Plainly(why, ProgramScopeDenied) && !placed)
    || (why.cause == ReceiptClaimInvalid && Plainly(why, StateTransitionInvalid) && placed && !claimed)
    || (why.cause == ReceiptIssuerMismatch && Plainly(why, PrincipalNotAllowed) && claimed && !issued)
    || (why.cause == ReceiptPolicyInvalid && Plainly(why, StateTransitionInvalid) && issued && !underPolicy)
    || (why.cause == ReceiptCheckerInvalid && Plainly(why, StateTransitionInvalid) && underPolicy && !checked)
    || (why.cause == ReceiptFormatInvalid && Plainly(why, StateTransitionInvalid) && checked && !text)
    || (why.cause == ReceiptNotExportSafe && Plainly(why, StateTransitionInvalid) && text && !r.exportSafe)
    || (why.cause == ObjectRefNotDerived && Plainly(why, StateTransitionInvalid) && text && r.exportSafe && !located)
    || (why.cause == ReceiptIdNotDerived && Plainly(why, StateTransitionInvalid) && located && !ReceiptFits(cfg, e, id, job, r))
  }

  predicate CanFinalize(cfg: Config, db: Tables, e: Envelope)
    requires e.command.FinalizeJob?
  {
    && JobIs(db.ingest, e.command.job, e.command.expectedJob, Claimed)
    && ReceiptFits(cfg, e, e.command.job, db.ingest.jobs[e.command.job], e.command.receipt)
  }

  predicate CannotFinalize(cfg: Config, db: Tables, e: Envelope, r: Rejection)
    requires e.command.FinalizeJob?
  {
    var c := e.command;
    if JobIs(db.ingest, c.job, c.expectedJob, Claimed) then ReceiptDoesNotFit(cfg, e, c.job, db.ingest.jobs[c.job], c.receipt, r)
    else JobIsNot(db.ingest, c.job, c.expectedJob, Claimed, r)
  }

  lemma FinalizeIsExact(cfg: Config, db: Tables, e: Envelope, input: Inputs)
    requires e.command.FinalizeJob? && db.core.program.Some?
    ensures
      match FinalizeMeaning(cfg, db, e, input)
      case Refuse(r) => CannotFinalize(cfg, db, e, r)
      case Abort => false
      case Perform(_) => CanFinalize(cfg, db, e)
  {
    hide ItemFor, BumpedTo, ReceiptRefusal, ReceiptFits, ReceiptDoesNotFit;
    if e.command.job in db.ingest.jobs {
      ReceiptRefusalIsExact(cfg, e, e.command.job, db.ingest.jobs[e.command.job], e.command.receipt);
    }
  }

  lemma ReceiptRefusalIsExact(cfg: Config, e: Envelope, id: Uuid, job: Job, r: EvidenceReceipt)
    ensures ReceiptRefusal(cfg, e, id, job, r).None? <==> ReceiptFits(cfg, e, id, job, r)
    ensures ReceiptRefusal(cfg, e, id, job, r).Some? ==> ReceiptDoesNotFit(cfg, e, id, job, r, ReceiptRefusal(cfg, e, id, job, r).value)
  {
    hide ReceiptDoesNotFit;
    if ReceiptRefusal(cfg, e, id, job, r).Some? { UnfitReceipt(cfg, e, id, job, r); }
  }

  lemma UnfitReceipt(cfg: Config, e: Envelope, id: Uuid, job: Job, r: EvidenceReceipt)
    requires ReceiptRefusal(cfg, e, id, job, r).Some?
    ensures ReceiptDoesNotFit(cfg, e, id, job, r, ReceiptRefusal(cfg, e, id, job, r).value)
  {
    hide ReceiptFits, DerivedReceiptId;
    FitsMeansDerived(cfg, e, id, job, r);
    if r.program != e.program || r.job != id {
    } else if Some(r.claim) != job.claim {
    } else if r.issuedBy != e.principal.id {
    } else if r.policy != job.policy || r.policy != cfg.policy {
    } else if r.checker != cfg.checker {
    }
  }

  lemma FitsMeansDerived(cfg: Config, e: Envelope, id: Uuid, job: Job, r: EvidenceReceipt)
    ensures ReceiptFits(cfg, e, id, job, r) ==> r.job == id && r.receiptId == DerivedReceiptId(r)
  {
  }

  predicate RejectionFits(cfg: Config, e: Envelope, id: Uuid, job: Job, r: EvidenceRejection) {
    && r.program == e.program && r.job == id && job.claim == Some(r.claim) && r.issuedBy == e.principal.id
    && r.policy == job.policy == cfg.policy && r.checker == cfg.checker && !r.code.NotRegistered?
  }

  predicate RejectionDoesNotFit(cfg: Config, e: Envelope, id: Uuid, job: Job, r: EvidenceRejection, why: Rejection) {
    var placed := r.program == e.program && r.job == id;
    var claimed := placed && job.claim == Some(r.claim);
    var issued := claimed && r.issuedBy == e.principal.id;
    var underPolicy := issued && r.policy == job.policy == cfg.policy;
    || (why.cause == RejectionOutsideJob && Plainly(why, ProgramScopeDenied) && !placed)
    || (why.cause == RejectionClaimInvalid && Plainly(why, StateTransitionInvalid) && placed && !claimed)
    || (why.cause == RejectionIssuerMismatch && Plainly(why, PrincipalNotAllowed) && claimed && !issued)
    || (why.cause == RejectionPolicyInvalid && Plainly(why, StateTransitionInvalid) && issued && !underPolicy)
    || (why.cause == RejectionCheckerInvalid && Plainly(why, StateTransitionInvalid) && underPolicy && r.checker != cfg.checker)
    || (why.cause == RejectionCodeNotRegistered && Plainly(why, StateTransitionInvalid) && underPolicy && r.checker == cfg.checker
        && r.code.NotRegistered?)
  }

  predicate CanReject(cfg: Config, db: Tables, e: Envelope)
    requires e.command.RejectJob?
  {
    && JobIs(db.ingest, e.command.job, e.command.expectedJob, Claimed)
    && RejectionFits(cfg, e, e.command.job, db.ingest.jobs[e.command.job], e.command.rejection)
  }

  predicate CannotReject(cfg: Config, db: Tables, e: Envelope, r: Rejection)
    requires e.command.RejectJob?
  {
    var c := e.command;
    if JobIs(db.ingest, c.job, c.expectedJob, Claimed) then RejectionDoesNotFit(cfg, e, c.job, db.ingest.jobs[c.job], c.rejection, r)
    else JobIsNot(db.ingest, c.job, c.expectedJob, Claimed, r)
  }

  lemma RejectJobIsExact(cfg: Config, db: Tables, e: Envelope, input: Inputs)
    requires e.command.RejectJob? && db.core.program.Some?
    ensures
      match RejectJobMeaning(cfg, db, e, input)
      case Refuse(r) => CannotReject(cfg, db, e, r)
      case Abort => false
      case Perform(_) => CanReject(cfg, db, e)
  {
    hide BumpedTo, RejectionRefusal, RejectionFits, RejectionDoesNotFit;
    if e.command.job in db.ingest.jobs {
      RejectionRefusalIsExact(cfg, e, e.command.job, db.ingest.jobs[e.command.job], e.command.rejection);
    }
  }

  lemma RejectionRefusalIsExact(cfg: Config, e: Envelope, id: Uuid, job: Job, r: EvidenceRejection)
    ensures RejectionRefusal(cfg, e, id, job, r).None? <==> RejectionFits(cfg, e, id, job, r)
    ensures RejectionRefusal(cfg, e, id, job, r).Some? ==> RejectionDoesNotFit(cfg, e, id, job, r, RejectionRefusal(cfg, e, id, job, r).value)
  {
    if r.program != e.program || r.job != id {
    } else if Some(r.claim) != job.claim {
    } else if r.issuedBy != e.principal.id {
    } else if r.policy != job.policy || r.policy != cfg.policy {
    }
  }

  // ---------- budget ----------

  ghost predicate IsBound(b: Budget, call: Uuid) {
    exists k :: k in b.reservations && b.reservations[k].modelCall == call
  }

  ghost predicate CanReserve(b: Budget, q: BudgetRequest) {
    q.snapshot in b.snapshots && b.snapshots[q.snapshot].run == q.run && !IsBound(b, q.modelCall)
  }

  ghost predicate CannotReserve(b: Budget, q: BudgetRequest, r: Rejection) {
    || (r.cause == SnapshotNotFound && r.code == NotFound && r.detail == RuntimeConfigNotFound && q.snapshot !in b.snapshots)
    || (r.cause == RunMismatch && r.code == SchemaInvalid && r.detail == RuntimeConfigInvalid && q.snapshot in b.snapshots
        && b.snapshots[q.snapshot].run != q.run)
    || (r.cause == CallAlreadyBound && r.code == Conflict && q.snapshot in b.snapshots && b.snapshots[q.snapshot].run == q.run
        && r.detail.ExistingReservation? && r.detail.reservation in b.reservations
        && b.reservations[r.detail.reservation].modelCall == q.modelCall)
  }

  lemma ReserveIsExact(cfg: Config, db: Tables, e: Envelope, input: Inputs)
    requires e.command.ReserveBudget?
    ensures
      match ReserveMeaning(cfg, db, e, input)
      case Refuse(r) => CannotReserve(db.budget, e.command.request, r)
      case Abort => CanReserve(db.budget, e.command.request) && input.first in db.budget.reservations
      case Perform(_) => CanReserve(db.budget, e.command.request) && input.first !in db.budget.reservations
  {
    hide Violations;
  }

  /** A usage receipt names its reservation in all its parts. */
  predicate UsageFits(e: Envelope, b: Budget, u: UsageReceipt)
    requires u.reservation in b.reservations && u.snapshot in b.snapshots
  {
    var r := b.reservations[u.reservation];
    && u.program == e.program && u.run == r.run && u.modelCall == r.modelCall && u.snapshot == r.snapshot
    && u.providerAlias == b.snapshots[u.snapshot].providerAlias
  }

  predicate CanSettle(e: Envelope, b: Budget, u: UsageReceipt) {
    && u.issuedBy == e.principal.id && u.reservation in b.reservations && b.reservations[u.reservation].status == Reserved
    && u.snapshot in b.snapshots && UsageFits(e, b, u)
  }

  predicate CannotSettle(e: Envelope, b: Budget, u: UsageReceipt, r: Rejection) {
    var issued := u.issuedBy == e.principal.id;
    var open := issued && u.reservation in b.reservations && b.reservations[u.reservation].status == Reserved;
    || (r.cause == UsageIssuerMismatch && r.code == PrincipalNotAllowed && r.detail == ProviderUsageInvalid && !issued)
    || (r.cause == NoSuchReservation && r.code == NotFound && r.detail == ReservationNotFound && issued && u.reservation !in b.reservations)
    || (r.cause == NotReserved && r.code == StateTransitionInvalid && r.detail == ReservationStateInvalid && issued
        && u.reservation in b.reservations && !open)
    || (r.cause == SettlementSnapshotNotFound && r.code == NotFound && r.detail == RuntimeConfigNotFound && open && u.snapshot !in b.snapshots)
    || (r.cause == UsageNotBound && r.code == SchemaInvalid && r.detail == ProviderUsageInvalid && open
        && u.snapshot in b.snapshots && !UsageFits(e, b, u))
  }

  lemma SettleIsExact(cfg: Config, db: Tables, e: Envelope, input: Inputs)
    requires e.command.SettleBudget?
    ensures
      match SettleMeaning(cfg, db, e, input)
      case Refuse(r) => CannotSettle(e, db.budget, e.command.usage, r)
      case Abort => CanSettle(e, db.budget, e.command.usage) && UsageLedgerOf(e.command.usage.receiptId) in db.budget.ledger
      case Perform(_) => CanSettle(e, db.budget, e.command.usage) && UsageLedgerOf(e.command.usage.receiptId) !in db.budget.ledger
  {
    hide SettledRow, Exceeds, ChargeOf, SettleRefusal, CanSettle, CannotSettle;
    SettleRefusalIsExact(e, db.budget, e.command.usage);
  }

  lemma SettleRefusalIsExact(e: Envelope, b: Budget, u: UsageReceipt)
    ensures SettleRefusal(e, b, u).None? <==> CanSettle(e, b, u)
    ensures SettleRefusal(e, b, u).Some? ==> CannotSettle(e, b, u, SettleRefusal(e, b, u).value)
    ensures CanSettle(e, b, u) ==> u.reservation in b.reservations
  {
    hide UsageFits;
    if u.reservation in b.reservations && u.snapshot in b.snapshots { UsageIsExact(e, b, u); }
  }

  lemma UsageIsExact(e: Envelope, b: Budget, u: UsageReceipt)
    requires u.reservation in b.reservations && u.snapshot in b.snapshots
    ensures
      var r := b.reservations[u.reservation];
      UsageFits(e, b, u) <==>
        !(u.program != e.program || u.run != r.run || u.modelCall != r.modelCall || u.snapshot != r.snapshot
          || u.providerAlias != b.snapshots[u.snapshot].providerAlias)
  {
  }

  // ---------- all commands ----------

  /** No row that the command inserts is there yet. */
  ghost predicate NamesNew(cfg: Config, db: Tables, e: Envelope, input: Inputs)
    requires e.command.CreateProgram? || db.core.program.Some?
  {
    match e.command
    case CreateProgram(_, _) => db.core.program.None? && BootstrapIsDistinct(cfg, e.principal.id) && input.first !in db.core.plans
    case SubmitProposal(_, _, _) => SubmitNamesNew(db.core, e.command, input)
    case RecordDecision(_, _, _, _) => input.first !in db.core.decisions
    case ApplyProposal(_, _, _, _) => input.first !in db.core.plans
    case CreateJob(_) => input.first !in db.ingest.jobs
    case CreateSnapshot(_) => input.first !in db.budget.snapshots
    case ReserveBudget(_) => input.first !in db.budget.reservations
    case SettleBudget(usage) => UsageLedgerOf(usage.receiptId) !in db.budget.ledger
    case _ => true
  }

  /** What the rows must say for the command to have its effect. */
  ghost predicate Can(cfg: Config, db: Tables, e: Envelope, input: Inputs)
    requires e.command.CreateProgram? || db.core.program.Some?
  {
    match e.command
    case CreateProgram(_, _) => true
    case SubmitProposal(_, _, _) => CanSubmit(db.core, e.command)
    case RecordDecision(_, _, _, _) => CanDecide(db.core, e.command, input.now)
    case ApplyProposal(_, _, _, _) => CanApply(db.core, e.command, input.now)
    case ExpireApproval(_, _) => CanExpire(db.core, e.command, input.now)
    case CreateJob(_) => true
    case ClaimJob(_, _, _) => CanClaim(db, e.command)
    case FinalizeJob(_, _, _) => CanFinalize(cfg, db, e)
    case RejectJob(_, _, _) => CanReject(cfg, db, e)
    case CreateSnapshot(_) => true
    case ReserveBudget(request) => CanReserve(db.budget, request)
    case SettleBudget(usage) => CanSettle(e, db.budget, usage)
  }

  /** The first thing that the rows do not say. */
  ghost predicate Cannot(cfg: Config, db: Tables, e: Envelope, input: Inputs, r: Rejection)
    requires e.command.CreateProgram? || db.core.program.Some?
  {
    match e.command
    case CreateProgram(_, _) => false
    case SubmitProposal(_, _, _) => CannotSubmit(db.core, e.command, r)
    case RecordDecision(_, _, _, _) => CannotDecide(db.core, e.command, input.now, r)
    case ApplyProposal(_, _, _, _) => CannotApply(db.core, e.command, input.now, r)
    case ExpireApproval(_, _) => CannotExpire(db.core, e.command, input.now, r)
    case CreateJob(_) => false
    case ClaimJob(_, _, _) => CannotClaim(db, e.command, r)
    case FinalizeJob(_, _, _) => CannotFinalize(cfg, db, e, r)
    case RejectJob(_, _, _) => CannotReject(cfg, db, e, r)
    case CreateSnapshot(_) => false
    case ReserveBudget(request) => CannotReserve(db.budget, request, r)
    case SettleBudget(usage) => CannotSettle(e, db.budget, usage, r)
  }

  /** Some entry of the bootstrap list is taken: it repeats a name, or is a member already. */
  lemma {:induction false} MembersFailIff(members: map<string, Member>, owner: string, list: seq<(string, Member)>)
    requires owner in members
    ensures WithMembers(members, owner, list).None? <==>
      || (exists i, j :: 0 <= i < j < |list| && list[i].0 != owner && list[i].0 == list[j].0)
      || (exists i :: 0 <= i < |list| && list[i].0 != owner && list[i].0 in members)
    decreases |list|
  {
    if list != [] {
      var rest := list[1..];
      var next := if list[0].0 == owner then members else members[list[0].0 := list[0].1];
      MembersFailIff(next, owner, rest);
      if i, j :| 0 <= i < j < |rest| && rest[i].0 != owner && rest[i].0 == rest[j].0 {
        assert list[i + 1].0 != owner && list[i + 1].0 == list[j + 1].0;
      }
      if i :| 0 <= i < |rest| && rest[i].0 != owner && rest[i].0 in next {
        assert list[i + 1].0 != owner && (list[i + 1].0 in members || list[i + 1].0 == list[0].0);
      }
      forall i, j | 0 <= i < j < |list| && list[i].0 != owner && list[i].0 == list[j].0
        ensures WithMembers(members, owner, list).None?
      {
        if i == 0 {
          assert rest[j - 1].0 != owner && rest[j - 1].0 in next;
        } else {
          assert rest[i - 1].0 != owner && rest[i - 1].0 == rest[j - 1].0;
        }
      }
      forall i | 0 <= i < |list| && list[i].0 != owner && list[i].0 in members ensures WithMembers(members, owner, list).None? {
        if i > 0 { assert rest[i - 1].0 != owner && rest[i - 1].0 in next; }
      }
    }
  }

  lemma CreateIsExact(cfg: Config, db: Tables, e: Envelope, input: Inputs)
    requires e.command.CreateProgram?
    ensures
      match CreateProgramMeaning(cfg, db, e, input)
      case Refuse(_) => false
      case Abort => !NamesNew(cfg, db, e, input)
      case Perform(_) => NamesNew(cfg, db, e, input)
  {
    var owner := e.principal.id;
    MembersFailIff(map[owner := Member(User, Owner)], owner, cfg.bootstrap);
    hide WithMembers, TaskRows;
  }

  // ---------- one step ----------

  /** The same request: everything that its digest covers. */
  predicate SameRequest(a: RequestHash, e: Envelope) {
    a.program == e.program && a.channel == e.channel && a.principal == e.principal && a.command == e.command
  }

  ghost predicate KeyIsNew(log: Log, e: Envelope) {
    forall c :: c in log.receipts ==> log.receipts[c].key != e.key
  }

  /** An M2 command on an existing Program names the version it has read. */
  predicate Current(core: Core, c: Command)
    requires c.CreateProgram? || core.program.Some?
  {
    c.SubmitProposal? || c.RecordDecision? || c.ApplyProposal? || c.ExpireApproval? ==> c.expected == core.program.value.stateVersion
  }

  /** No row of the log has one of the identifiers drawn. */
  ghost predicate LogNamesNew(log: Log, e: Envelope, input: Inputs) {
    && e.commandId !in log.receipts
    && (forall i :: 0 <= i < |log.events| ==> log.events[i].id != input.event)
    && (forall i :: 0 <= i < |log.outbox| ==> log.outbox[i].id != input.outboxEvent)
  }

  /** A request that is carried out now, not answered from its receipt. */
  ghost predicate Commits(cfg: Config, db: Tables, e: Envelope, input: Inputs) {
    var o := Step(cfg, db, e, input);
    o.result.status == COMMITTED && !o.result.replayed
  }

  /** Everything that has to be so for a command to be carried out. */
  ghost predicate Ready(cfg: Config, db: Tables, e: Envelope, input: Inputs) {
    && Admitted(db.core, e) && KeyIsNew(db.log, e) && (e.command.CreateProgram? || db.core.program.Some?)
    && Current(db.core, e.command) && Can(cfg, db, e, input)
  }

  /** A refusal that is put on record, and why. */
  ghost predicate RefusedForTheRecord(cfg: Config, db: Tables, e: Envelope, input: Inputs, r: Rejection) {
    && Admitted(db.core, e) && KeyIsNew(db.log, e) && e.commandId !in db.log.receipts && (e.command.CreateProgram? || db.core.program.Some?)
    && (if Current(db.core, e.command) then Cannot(cfg, db, e, input, r) else IsStale(db.core, e.command, r))
  }

  /** A refusal that leaves no trace, and why. */
  ghost predicate TurnedAway(cfg: Config, db: Tables, e: Envelope, input: Inputs, r: Rejection) {
    if !Admitted(db.core, e) then NotAdmitted(db.core, e, r)
    else if !KeyIsNew(db.log, e) then
      Plainly(r, IdempotencyKeyReused) && r.cause == KeyBoundElsewhere
      && exists c :: c in db.log.receipts && db.log.receipts[c].key == e.key && !SameRequest(db.log.receipts[c].hash, e)
    else if !e.command.CreateProgram? && db.core.program.None? then Plainly(r, NotFound) && r.cause == NoSuchProgram
    else
      && Plainly(r, Conflict) && r.cause == ConstraintViolated
      && (e.commandId in db.log.receipts || (Ready(cfg, db, e, input) && !(NamesNew(cfg, db, e, input) && LogNamesNew(db.log, e, input))))
  }

  ghost predicate IsStale(core: Core, c: Command, r: Rejection)
    requires c.CreateProgram? || core.program.Some?
  {
    !Current(core, c) && r == Rejection(VersionConflict, StaleStateVersion, ProgramVersions(c.expected, core.program.value.stateVersion))
  }

  ghost predicate RulingTold(cfg: Config, db: Tables, e: Envelope, input: Inputs, ruling: Ruling)
    requires e.command.CreateProgram? || db.core.program.Some?
  {
    match ruling
    case Refuse(r) => if Current(db.core, e.command) then Cannot(cfg, db, e, input, r) else IsStale(db.core, e.command, r)
    case Abort => Current(db.core, e.command) && Can(cfg, db, e, input) && !NamesNew(cfg, db, e, input)
    case Perform(f) => Current(db.core, e.command) && Can(cfg, db, e, input) && NamesNew(cfg, db, e, input) && f.core.program.Some?
  }

  /** Why an answer is a refusal, on record or not. */
  ghost predicate RefusalTold(cfg: Config, db: Tables, e: Envelope, input: Inputs, o: Outcome) {
    && o.result.body.Refusal? && o.result.reason == o.result.body.rejection.code && o.result.commandId == e.commandId
    && o.result.status == REJECTED && (o.db == db ==> o.result.stateVersion == None)
    && if o.db == db then TurnedAway(cfg, db, e, input, o.result.body.rejection)
       else RefusedForTheRecord(cfg, db, e, input, o.result.body.rejection)
  }

  ghost predicate IsReplay(db: Tables, e: Envelope) {
    && Admitted(db.core, e)
    && exists c :: c in db.log.receipts && db.log.receipts[c].key == e.key && SameRequest(db.log.receipts[c].hash, e)
  }

  /** Everything that has to be so for a command to be carried out, the identifiers it draws included. */
  ghost predicate CommitsNow(cfg: Config, db: Tables, e: Envelope, input: Inputs) {
    Ready(cfg, db, e, input) && NamesNew(cfg, db, e, input) && LogNamesNew(db.log, e, input)
  }
}
