/** The M2 handlers as the service runs them (src/awakening/state/service.py). */
module M2Service {
  import opened Base
  import opened Plans
  import opened Tables
  import opened Spec
  import opened StateTransactions
  import opened Refinement
  import opened CoreInvariant

  /** What holds when an operation starts: the key is reserved and the version has been checked. */
  ghost predicate Opened(db: Tables, e: Envelope, before: Tables) {
    && before.core.program.Some? && CoreInv(before.core)
    && Expected(e.command) == Some(before.core.program.value.stateVersion)
    && e.commandId !in before.log.receipts
    && db == ReservedDb(before, e)
  }

  method WriteProposal(tx: StateTransaction, id: Uuid, proposal: Proposal, approvalId: Option<Uuid>, approval: Approval)
    returns (r: Result<(), Raise>)
    modifies tx
    ensures r ==
      if id in old(tx.db).core.proposals || (approvalId.Some? && approvalId.value in old(tx.db).core.approvals) then Err(Integrity) else Ok(())
    ensures r.Ok? ==> tx.db == old(tx.db).(core := SubmittedRows(old(tx.db).core, id, proposal, approvalId, approval))
  {
    var _ :- tx.InsertProposal(id, proposal);
    if approvalId.Some? {
      var _ :- tx.InsertApproval(approvalId.value, approval);
    }
    return Ok(());
  }

  lemma SubmittedRowsKeepProgram(core: Core, id: Uuid, proposal: Proposal, approvalId: Option<Uuid>, approval: Approval)
    ensures SubmittedRows(core, id, proposal, approvalId, approval).program == core.program
  {
  }

  method SubmitProposal(tx: StateTransaction, cfg: Config, e: Envelope, input: Inputs, ghost before: Tables)
    returns (r: Result<CommandResult, Raise>)
    requires e.command.SubmitProposal? && Opened(tx.db, e, before)
    modifies tx
    ensures Refines(before, SubmitMeaning(cfg, before, e, input), e, input, tx.db, r)
  {
    hide CoreInv, ApplyChange, Committing, OneEventLog, IdsCollide, SubmittedRows, Contents, TypeOf;
    var c, program := e.command, tx.db.core.program.value;
    if program.activePlan != Some(c.base) { return Err(Business(Rejection(VersionConflict, BaseNotActive))); }
    if c.base !in tx.db.core.plans { return Err(Business(Rejection(NotFound, ActivePlanNotFound))); }
    var base := tx.db.core.plans[c.base];
    var proposed := ApplyChange(Contents(tx.db.core.plans), base.content, c.change);
    if proposed.Err? { return Err(Business(proposed.error)); }
    var diff := Diff(TypeOf(c.change), c.base, base.contentHash, Sha256OfPlan(proposed.value));
    var low := c.change.ReorderTasks? && program.allowReorder;
    var risk := if low then LowRisk else HighRisk;
    var status := if low then Pending else AwaitingApproval;
    var hash := Sha256OfDiff(diff);
    var proposal := Proposal(c.expected, c.base, c.change, risk, status, diff, hash, e.principal.id);
    var request := Approval(input.first, c.expected, c.base, hash, ApprovalPending, input.now + cfg.approvalTtl);
    var approval := if low then None else Some(input.second);
    var _ :- WriteProposal(tx, input.first, proposal, approval, request);
    SubmittedRowsKeepProgram(before.core, input.first, proposal, approval, request);
    var body := ProposalSubmitted(input.first, risk, status, hash, approval);
    var version :- CommitOne(tx, e, input, c.expected, None, ProposalSubmittedTopic, body);
    CommittingIsOneEvent(before, e, input, SubmitMeaning(cfg, before, e, input).effect);
    return Ok(CommittedResult(e, version, body));
  }

  /** A pending approval's proposal awaits it. */
  lemma PendingIsAwaited(c: Core, a: Uuid)
    requires c.program.Some? && CoreInv(c) && a in c.approvals && c.approvals[a].status == ApprovalPending
    ensures c.approvals[a].proposal in c.proposals && c.proposals[c.approvals[a].proposal].status == AwaitingApproval
  {
    hide PlansKept, DiffsKept, DecisionsPaired, Traced;
    assert ApprovalBound(c.proposals, c.approvals[a]);
  }

  method RecordHumanDecision(tx: StateTransaction, cfg: Config, e: Envelope, input: Inputs, ghost before: Tables)
    returns (r: Result<CommandResult, Raise>)
    requires e.command.RecordDecision? && Opened(tx.db, e, before)
    modifies tx
    ensures Refines(before, DecideMeaning(cfg, before, e, input), e, input, tx.db, r)
  {
    hide Committing, OneEventLog, IdsCollide, CoreInv, ApprovalBound, ApplyChange;
    var c := e.command;
    if c.approval !in tx.db.core.approvals { return Err(Business(Rejection(NotFound, ApprovalNotFound))); }
    var approval := tx.db.core.approvals[c.approval];
    if approval.status != ApprovalPending {
      return Err(Business(Rejection(StateTransitionInvalid, ApprovalNotPending)));
    }
    if input.now >= approval.expiresAt {
      return Err(Business(Rejection(ReasonCode.ApprovalExpired, ApprovalHasExpired)));
    }
    PendingIsAwaited(before.core, c.approval);
    if approval.proposal !in tx.db.core.proposals || tx.db.core.proposals[approval.proposal].status != AwaitingApproval {
      assert false;  // a pending approval's proposal awaits it
    }
    var _ :- tx.InsertDecision(input.first, Decision(c.approval, approval.proposal, approval.baseStateVersion, approval.base,
      approval.diffHash, c.verdict, e.principal.id, c.comment, input.now, approval.expiresAt));
    var approvalStatus := if c.verdict == Approve then Approved else Denied;
    var proposalStatus := if c.verdict == Approve then ProposalApproved else ProposalDenied;
    var moved := tx.UpdateApprovalStatus(c.approval, ApprovalPending, approvalStatus);
    if moved.Err? { assert false; }
    moved := tx.UpdateProposalStatus(approval.proposal, AwaitingApproval, proposalStatus);
    if moved.Err? { assert false; }
    var body := DecisionRecorded(input.first, approval.proposal, c.verdict);
    var version :- CommitOne(tx, e, input, c.expected, None, DecisionRecordedTopic, body);
    CommittingIsOneEvent(before, e, input, DecideMeaning(cfg, before, e, input).effect);
    return Ok(CommittedResult(e, version, body));
  }

  method ExpireApproval(tx: StateTransaction, cfg: Config, e: Envelope, input: Inputs, ghost before: Tables)
    returns (r: Result<CommandResult, Raise>)
    requires e.command.ExpireApproval? && Opened(tx.db, e, before)
    modifies tx
    ensures Refines(before, ExpireMeaning(cfg, before, e, input), e, input, tx.db, r)
  {
    hide Committing, OneEventLog, IdsCollide, CoreInv, ApprovalBound, ApplyChange;
    var c := e.command;
    if c.approval !in tx.db.core.approvals { return Err(Business(Rejection(NotFound, ApprovalNotFound))); }
    var approval := tx.db.core.approvals[c.approval];
    if approval.status != ApprovalPending {
      return Err(Business(Rejection(StateTransitionInvalid, ApprovalNotPending)));
    }
    if input.now < approval.expiresAt {
      return Err(Business(Rejection(StateTransitionInvalid, ApprovalNotYetExpired)));
    }
    PendingIsAwaited(before.core, c.approval);
    var moved := tx.UpdateApprovalStatus(c.approval, ApprovalPending, Expired);
    if moved.Err? { assert false; }
    moved := tx.UpdateProposalStatus(approval.proposal, AwaitingApproval, ProposalExpired);
    if moved.Err? { assert false; }
    var body := ApprovalExpiredNow(c.approval, approval.proposal);
    var version :- CommitOne(tx, e, input, c.expected, None, ApprovalExpiredTopic, body);
    CommittingIsOneEvent(before, e, input, ExpireMeaning(cfg, before, e, input).effect);
    return Ok(CommittedResult(e, version, body));
  }

  /** The proposal's content, recomputed from its base, is the one that was hashed. */
  lemma RecomputationAgrees(c: Core, x: Uuid)
    requires c.program.Some? && CoreInv(c) && x in c.proposals
    ensures c.proposals[x].base in c.plans && ProposedContent(c.plans, c.proposals[x]).Ok?
    ensures
      var p := c.proposals[x];
      Sha256OfDiff(DiffOf(c.plans, p.base, p.change, ProposedContent(c.plans, p).value)) == p.diffHash
    ensures c.proposals[x].risk == LowRisk || c.proposals[x].risk == HighRisk
    ensures c.proposals[x].risk == LowRisk <==> c.proposals[x].change.ReorderTasks? && c.program.value.allowReorder
  {
    hide PlansKept, PairingKept, Traced, ApplyChange;
    assert DiffHolds(c.plans, c.program.value.allowReorder, c.proposals[x]);
  }

  /** An unapplied low-risk proposal is pending. */
  lemma LowRiskIsPending(c: Core, x: Uuid)
    requires c.program.Some? && CoreInv(c) && x in c.proposals && c.proposals[x].risk == LowRisk && c.proposals[x].status != Applied
    ensures c.proposals[x].status == Pending
  {
    hide PlansKept, DiffsKept, DecisionsPaired, Traced;
  }

  lemma PlansHaveTasks(c: Core, x: Uuid)
    requires c.program.Some? && CoreInv(c) && x in c.proposals && c.proposals[x].base in c.plans && ProposedContent(c.plans, c.proposals[x]).Ok?
    ensures TaskRows(ProposedContent(c.plans, c.proposals[x]).value) != []
  {
    hide DiffsKept, PairingKept, Traced, History, Stored, UniqueKeys, UniqueOrders;
    ProposedContentIsWellFormed(c.plans, c.tasks, c.proposals[x]);
  }

  /** The checks an apply makes before it writes anything. */
  method CheckApply(db: Tables, cfg: Config, e: Envelope, input: Inputs) returns (r: Result<Plan, Raise>)
    requires e.command.ApplyProposal? && db.core.program.Some? && CoreInv(db.core)
    ensures ApplyRefusal(db.core, e.command, input.now).Some? ==> r == Err(Business(ApplyRefusal(db.core, e.command, input.now).value))
    ensures ApplyRefusal(db.core, e.command, input.now).None? ==>
      && e.command.proposal in db.core.proposals
      && db.core.proposals[e.command.proposal].base in db.core.plans
      && ProposedContent(db.core.plans, db.core.proposals[e.command.proposal]).Ok?
      && r == Ok(ProposedContent(db.core.plans, db.core.proposals[e.command.proposal]).value)
  {
    hide CoreInv, ApplyChange;
    var c, core := e.command, db.core;
    if c.proposal !in core.proposals { return Err(Business(Rejection(NotFound, ProposalNotFound))); }
    var p := core.proposals[c.proposal];
    if p.status == Applied { return Err(Business(Rejection(DecisionReplayed, AlreadyApplied))); }
    if p.base != c.base { return Err(Business(Rejection(DecisionInvalid, ProposalBaseMismatch))); }
    if core.program.value.activePlan != Some(c.base) { return Err(Business(Rejection(VersionConflict, ActivePlanChanged))); }
    RecomputationAgrees(core, c.proposal);
    if p.base !in core.plans { assert false; }
    var base := core.plans[p.base];
    var proposed := ApplyChange(Contents(core.plans), base.content, p.change);
    if proposed.Err? { assert false; }
    var diff := Diff(TypeOf(p.change), p.base, base.contentHash, Sha256OfPlan(proposed.value));
    if Sha256OfDiff(diff) != p.diffHash { assert false; }  // "proposal diff mismatch" is unreachable
    if p.risk == HighRisk {
      if c.decision.None? { return Err(Business(Rejection(ReasonCode.ApprovalRequired, HighRiskNeedsDecision))); }
      if c.decision.value !in core.decisions { return Err(Business(Rejection(DecisionInvalid, DecisionNotFound))); }
      var d := core.decisions[c.decision.value];
      if d.verdict != Approve || d.proposal != c.proposal || d.base != p.base || d.diffHash != p.diffHash {
        return Err(Business(Rejection(DecisionInvalid, DecisionNotBound)));
      }
      if input.now >= d.expiresAt { return Err(Business(Rejection(ReasonCode.ApprovalExpired, DecisionHasExpired))); }
      if d.approval !in core.approvals || core.approvals[d.approval].status != Approved {
        return Err(Business(Rejection(DecisionInvalid, ApprovalNotValid)));
      }
    } else {
      if c.decision.Some? { return Err(Business(Rejection(DecisionInvalid, LowRiskCarriesDecision))); }
      if !core.program.value.allowReorder { assert false; }  // the policy is fixed at creation
    }
    return Ok(proposed.value);
  }

  /** The writes of an apply, before the commit: every guarded update finds what it expects. */
  method WriteAppliedPlan(tx: StateTransaction, e: Envelope, id: Uuid, plan: PlanVersion, ghost before: Tables)
    returns (r: Result<(), Raise>)
    requires e.command.ApplyProposal? && before.core.program.Some? && CoreInv(before.core) && e.command.proposal in before.core.proposals
    requires tx.db.core == before.core
    requires before.core.proposals[e.command.proposal].status ==
      if before.core.proposals[e.command.proposal].risk == HighRisk then ProposalApproved else Pending
    requires before.core.proposals[e.command.proposal].risk == HighRisk ==>
      && ReleasedBy(before.core, e.command).Some?
      && before.core.approvals[ReleasedBy(before.core, e.command).value].status == Approved
    requires TaskRows(plan.content) != []
    modifies tx
    ensures r == if id in before.core.plans then Err(Integrity) else Ok(())
    ensures r.Ok? ==> tx.db == old(tx.db).(core :=
      AppliedRows(before.core, id, plan, e.command.proposal, ReleasedBy(before.core, e.command)))
  {
    hide CoreInv, TaskRows;
    var c := e.command;
    var high := tx.db.core.proposals[c.proposal].risk == HighRisk;
    var _ :- tx.InsertPlanVersion(id, plan);
    var done := tx.InsertTasks(id, TaskRows(plan.content));
    if done.Err? { assert false; }
    done := tx.UpdateProposalStatus(c.proposal, if high then ProposalApproved else Pending, Applied);
    if done.Err? { assert false; }
    if high {
      done := tx.UpdateApprovalStatus(tx.db.core.decisions[c.decision.value].approval, Approved, Consumed);
      if done.Err? { assert false; }
    }
    return Ok(());
  }

  lemma ApplicableProposal(c: Core, cmd: Command, now: int)
    requires cmd.ApplyProposal? && c.program.Some? && CoreInv(c) && ApplyRefusal(c, cmd, now).None?
    ensures cmd.proposal in c.proposals
    ensures ReleasedBy(c, cmd).Some? ==> c.approvals[ReleasedBy(c, cmd).value].status == Approved
    ensures
      var p := c.proposals[cmd.proposal];
      && p.status == (if p.risk == HighRisk then ProposalApproved else Pending)
      && (p.risk == HighRisk ==>
            ReleasedBy(c, cmd).Some? && c.approvals[ReleasedBy(c, cmd).value].status == Approved)
  {
    hide CoreInv;
    RecomputationAgrees(c, cmd.proposal);
    if c.proposals[cmd.proposal].risk == HighRisk {
      ReleasedApproval(c, cmd.proposal, cmd.decision, now);
    } else {
      LowRiskIsPending(c, cmd.proposal);
    }
  }

  method ApplyProposal(tx: StateTransaction, cfg: Config, e: Envelope, input: Inputs, ghost before: Tables)
    returns (r: Result<CommandResult, Raise>)
    requires e.command.ApplyProposal? && Opened(tx.db, e, before)
    modifies tx
    ensures Refines(before, ApplyMeaning(cfg, before, e, input), e, input, tx.db, r)
  {
    hide CoreInv, ApplyChange, Committing, OneEventLog, IdsCollide, TaskRows, DecisionRefusal, ApplyRefusal, AppliedRows, ReleasedBy,
      ProposedContent, NewPlanVersion;
    var c := e.command;
    var content :- CheckApply(tx.db, cfg, e, input);
    ApplicableProposal(before.core, c, input.now);
    PlansHaveTasks(before.core, c.proposal);
    var p := tx.db.core.proposals[c.proposal];
    var plan := NewPlanVersion(tx.db.core, c.proposal, p, c.decision, content, e.principal.id);
    NewPlanContent(before.core, c.proposal, p, c.decision, content, e.principal.id);
    var _ :- WriteAppliedPlan(tx, e, input.first, plan, before);
    AppliedRowsKeepProgram(before.core, input.first, plan, c.proposal, ReleasedBy(before.core, c));
    var body := PlanApplied(c.proposal, input.first, plan.versionNo, p.risk, plan.restoredFrom);
    var topic := if p.change.RestorePlan? then PlanVersionCompensatedTopic else PlanVersionCreatedTopic;
    var version :- CommitOne(tx, e, input, c.expected, Some(input.first), topic, body);
    CommittingIsOneEvent(before, e, input, ApplyMeaning(cfg, before, e, input).effect);
    return Ok(CommittedResult(e, version, body));
  }

  lemma NewPlanContent(core: Core, id: Uuid, p: Proposal, decision: Option<Uuid>, content: Plan, author: string)
    requires p.base in core.plans
    ensures NewPlanVersion(core, id, p, decision, content, author).content == content
  {
  }

  lemma AppliedRowsKeepProgram(core: Core, id: Uuid, plan: PlanVersion, x: Uuid, released: Option<Uuid>)
    requires x in core.proposals && (released.Some? ==> released.value in core.approvals)
    ensures AppliedRows(core, id, plan, x, released).program == core.program
  {
  }
}
