/** What a command that is carried out leaves in the rows, field by field, from the request, the constants of
    the service, the clock and the identifiers it drew, and the rows before it. */
module Records {
  import opened Base
  import opened Plans
  import opened Tables
  import opened Spec
  import opened Reasons

  // ---------- parts of the rows that stay ----------

  /** The Program row counts one more version and is otherwise the same. */
  predicate VersionMoves(core: Core, later: Core) {
    core.program.Some? && later.program.Some?
    && later.program.value.stateVersion == core.program.value.stateVersion + 1
    && later.program.value.owner == core.program.value.owner && later.program.value.allowReorder == core.program.value.allowReorder
  }

  predicate PlansStay(core: Core, later: Core) {
    && core.program.Some? && later.program.Some? && later.program.value.activePlan == core.program.value.activePlan
    && later.members == core.members && later.plans == core.plans && later.tasks == core.tasks
  }

  predicate OnlyCore(db: Tables, later: Tables) {
    later.ingest == db.ingest && later.budget == db.budget
  }

  predicate OnlyBudget(db: Tables, later: Tables) {
    later.core == db.core && later.ingest == db.ingest
  }

  /** The ingest rows, and one more version. */
  predicate OnlyIngest(db: Tables, later: Tables) {
    && VersionMoves(db.core, later.core) && PlansStay(db.core, later.core) && later.budget == db.budget
    && later.core.proposals == db.core.proposals && later.core.approvals == db.core.approvals && later.core.decisions == db.core.decisions
  }

  /** One task row per task of the plan, in its order. */
  predicate TasksOf(rows: seq<TaskRow>, plan: Plan) {
    && |rows| == |plan.tasks|
    && forall i :: 0 <= i < |rows| ==>
         rows[i].taskKey == plan.tasks[i].key && rows[i].position == plan.tasks[i].order && rows[i].title == plan.tasks[i].title
  }

  // ---------- programs and plans ----------

  /** The owner, and every configured member of another name. */
  predicate FirstMembers(members: map<string, Member>, owner: string, bootstrap: seq<(string, Member)>) {
    && owner in members && members[owner] == Member(User, Owner)
    && (forall i :: 0 <= i < |bootstrap| && bootstrap[i].0 != owner ==>
          bootstrap[i].0 in members && members[bootstrap[i].0] == bootstrap[i].1)
    && (forall k :: k in members && k != owner ==> exists i :: 0 <= i < |bootstrap| && bootstrap[i].0 == k)
  }

  ghost predicate CreateRecorded(cfg: Config, db: Tables, later: Tables, e: Envelope, input: Inputs)
    requires e.command.CreateProgram?
  {
    var id, plan := input.first, e.command.plan;
    && OnlyCore(db, later) && later.core.program == Some(Program(e.principal.id, 1, Some(id), e.command.allowReorder))
    && FirstMembers(later.core.members, e.principal.id, cfg.bootstrap)
    && later.core.plans == db.core.plans[id :=
         PlanVersion(1, None, None, None, None, BootstrapRisk, plan, Sha256OfPlan(plan), None, None, None, e.principal.id)]
    && id in later.core.tasks && later.core.tasks == db.core.tasks[id := later.core.tasks[id]] && TasksOf(later.core.tasks[id], plan)
    && later.core.proposals == db.core.proposals && later.core.approvals == db.core.approvals && later.core.decisions == db.core.decisions
  }

  ghost predicate SubmitRecorded(cfg: Config, db: Tables, later: Tables, e: Envelope, input: Inputs)
    requires e.command.SubmitProposal?
  {
    var id, c := input.first, e.command;
    && OnlyCore(db, later) && VersionMoves(db.core, later.core) && PlansStay(db.core, later.core) && later.core.decisions == db.core.decisions
    && id in later.core.proposals && c.base in db.core.plans
    && later.core.proposals == db.core.proposals[id := later.core.proposals[id]]
    && var x, low := later.core.proposals[id], c.change.ReorderTasks? && db.core.program.value.allowReorder;
    && x.baseStateVersion == c.expected && x.base == c.base && x.change == c.change && x.proposedBy == e.principal.id
    && x.risk == (if low then LowRisk else HighRisk) && x.status == (if low then Pending else AwaitingApproval)
    && x.diff.change == TypeOf(c.change) && x.diff.base == c.base && x.diff.before == db.core.plans[c.base].contentHash
    && Describes(Contents(db.core.plans), db.core.plans[c.base].content, c.change, x.diff.after.content)
    && x.diffHash == Sha256OfDiff(x.diff)
    && later.core.approvals ==
         (if low then db.core.approvals
          else db.core.approvals[input.second :=
                 Approval(id, c.expected, c.base, x.diffHash, ApprovalPending, input.now + cfg.approvalTtl)])
  }

  ghost predicate DecideRecorded(db: Tables, later: Tables, e: Envelope, input: Inputs)
    requires e.command.RecordDecision?
  {
    var c := e.command;
    && OnlyCore(db, later) && VersionMoves(db.core, later.core) && PlansStay(db.core, later.core)
    && c.approval in db.core.approvals
    && var a := db.core.approvals[c.approval];
    && a.proposal in db.core.proposals
    && later.core.decisions == db.core.decisions[input.first :=
         Decision(c.approval, a.proposal, a.baseStateVersion, a.base, a.diffHash, c.verdict, e.principal.id, c.comment, input.now, a.expiresAt)]
    && later.core.approvals == db.core.approvals[c.approval := a.(status := match c.verdict case Approve => Approved case Reject => Denied)]
    && later.core.proposals == db.core.proposals[a.proposal := db.core.proposals[a.proposal].(
         status := match c.verdict case Approve => ProposalApproved case Reject => ProposalDenied)]
  }

  ghost predicate ApplyRecorded(db: Tables, later: Tables, e: Envelope, input: Inputs)
    requires e.command.ApplyProposal?
  {
    var id, c := input.first, e.command;
    && OnlyCore(db, later) && VersionMoves(db.core, later.core) && later.core.program.value.activePlan == Some(id)
    && later.core.members == db.core.members && later.core.decisions == db.core.decisions
    && c.proposal in db.core.proposals
    && var x := db.core.proposals[c.proposal];
    && x.base in db.core.plans && id in later.core.plans && later.core.plans == db.core.plans[id := later.core.plans[id]]
    && VersionRecorded(db.core, later.core.plans[id], e, x)
    && id in later.core.tasks && later.core.tasks == db.core.tasks[id := later.core.tasks[id]]
    && TasksOf(later.core.tasks[id], later.core.plans[id].content)
    && later.core.proposals == db.core.proposals[c.proposal := x.(status := Applied)]
    && later.core.approvals ==
         (if x.risk == HighRisk && c.decision.Some? && c.decision.value in db.core.decisions
             && db.core.decisions[c.decision.value].approval in db.core.approvals then
            var a := db.core.decisions[c.decision.value].approval;
            db.core.approvals[a := db.core.approvals[a].(status := Consumed)]
          else db.core.approvals)
  }

  /** The version that applying proposal `x` makes: the next one on its base. */
  predicate VersionRecorded(core: Core, p: PlanVersion, e: Envelope, x: Proposal)
    requires e.command.ApplyProposal? && x.base in core.plans
  {
    && p.versionNo == core.plans[x.base].versionNo + 1 && p.previous == Some(x.base) && p.createdBy == e.principal.id
    && p.baseStateVersion == Some(x.baseStateVersion) && p.proposal == Some(e.command.proposal)
    && p.decision == (if x.risk == HighRisk then e.command.decision else None)
    && p.risk == x.risk && p.diffHash == Some(x.diffHash)
    && Describes(Contents(core.plans), core.plans[x.base].content, x.change, p.content) && p.contentHash == Sha256OfPlan(p.content)
    && p.restoredFrom == (match x.change case RestorePlan(target) => Some(target) case _ => None)
    && p.rolledBackFrom == (match x.change case RestorePlan(_) => Some(x.base) case _ => None)
  }

  ghost predicate ExpireRecorded(db: Tables, later: Tables, e: Envelope)
    requires e.command.ExpireApproval?
  {
    var c := e.command;
    && OnlyCore(db, later) && VersionMoves(db.core, later.core) && PlansStay(db.core, later.core) && later.core.decisions == db.core.decisions
    && c.approval in db.core.approvals
    && var a := db.core.approvals[c.approval];
    && a.proposal in db.core.proposals
    && later.core.approvals == db.core.approvals[c.approval := a.(status := Expired)]
    && later.core.proposals == db.core.proposals[a.proposal := db.core.proposals[a.proposal].(status := ProposalExpired)]
  }

  // ---------- evidence ----------

  ghost predicate CreateJobRecorded(cfg: Config, db: Tables, later: Tables, e: Envelope, input: Inputs)
    requires e.command.CreateJob?
  {
    && OnlyIngest(db, later) && later.ingest.receipts == db.ingest.receipts && later.ingest.items == db.ingest.items
    && later.ingest.jobs == db.ingest.jobs[input.first :=
         Job(Created, 1, e.command.authorizationRef, cfg.policy, e.principal.id, None, None, None, None, None, None)]
  }

  ghost predicate ClaimRecorded(db: Tables, later: Tables, e: Envelope)
    requires e.command.ClaimJob?
  {
    var id, ref := e.command.job, e.command.outboxRef.outboxEvent;
    && OnlyIngest(db, later) && later.ingest.receipts == db.ingest.receipts && later.ingest.items == db.ingest.items
    && id in db.ingest.jobs
    && var j := db.ingest.jobs[id];
    later.ingest.jobs == db.ingest.jobs[id :=
      Job(Claimed, 2, j.authorizationRef, j.policy, j.requestedBy, Some(ClaimOf(id, ref)), Some(e.principal.id), Some(ref),
          j.receipt, j.item, j.rejectionCode)]
  }

  /** The item repeats the receipt, under the authorization of the job. */
  predicate ItemStates(item: EvidenceItem, r: EvidenceReceipt, authorizationRef: string) {
    && item.receipt == r.receiptId && item.job == r.job && item.claim == r.claim && item.objectRef == r.objectRef
    && item.rawSha256 == r.rawSha256 && item.byteSize == r.byteSize && item.format == r.format && item.policy == r.policy
    && item.checker == r.checker && item.findings == r.findings && item.authorizationRef == authorizationRef
  }

  ghost predicate FinalizeRecorded(db: Tables, later: Tables, e: Envelope)
    requires e.command.FinalizeJob?
  {
    var id, r := e.command.job, e.command.receipt;
    var i := EvidenceItemOf(r.receiptId);
    && OnlyIngest(db, later) && id in db.ingest.jobs
    && var j := db.ingest.jobs[id];
    && later.ingest.jobs == db.ingest.jobs[id :=
         Job(Finalized, 3, j.authorizationRef, j.policy, j.requestedBy, j.claim, j.claimedBy, j.requestedOutbox,
             Some(r.receiptId), Some(i), j.rejectionCode)]
    && later.ingest.receipts == db.ingest.receipts[r.receiptId := r]
    && i in later.ingest.items && later.ingest.items == db.ingest.items[i := later.ingest.items[i]]
    && ItemStates(later.ingest.items[i], r, j.authorizationRef) && later.ingest.items[i].createdBy == e.principal.id
  }

  ghost predicate RejectRecorded(db: Tables, later: Tables, e: Envelope)
    requires e.command.RejectJob?
  {
    var id := e.command.job;
    && OnlyIngest(db, later) && later.ingest.receipts == db.ingest.receipts && later.ingest.items == db.ingest.items
    && id in db.ingest.jobs
    && var j := db.ingest.jobs[id];
    later.ingest.jobs == db.ingest.jobs[id :=
      Job(JobRejected, 3, j.authorizationRef, j.policy, j.requestedBy, j.claim, j.claimedBy, j.requestedOutbox,
          j.receipt, j.item, Some(e.command.rejection.code))]
  }

  // ---------- budget ----------

  /** The amounts wanted are within the caps of one call. */
  predicate WithinCall(config: RuntimeConfig, wanted: Amounts) {
    wanted.input <= config.perCall.input && wanted.output <= config.perCall.output && wanted.cost <= config.perCall.cost
  }

  /** One more call of these amounts is within the totals of the snapshot. */
  ghost predicate WithinTotals(rows: map<Uuid, Reservation>, config: RuntimeConfig, s: Scope, wanted: Amounts) {
    && Total(rows, Calls, s) + 1 <= config.maxCalls
    && Total(rows, Holding(InputTokens), s) + wanted.input <= config.total.input
    && Total(rows, Holding(OutputTokens), s) + wanted.output <= config.total.output
    && Total(rows, Holding(CostUnits), s) + wanted.cost <= config.total.cost
  }

  /** One more call of these amounts is within the 300 calls, the token caps and the linear price of the Program. */
  ghost predicate WithinProgramCaps(rows: map<Uuid, Reservation>, wanted: Amounts) {
    var input := Total(rows, Holding(InputTokens), OfProgram) + wanted.input;
    var output := Total(rows, Holding(OutputTokens), OfProgram) + wanted.output;
    && Total(rows, Calls, OfProgram) + 1 <= 300 && input <= 50_000_000 && output <= 12_500_000
    && 200_000 * input + 800_000 * output <= 10_000_000 * 1_000_000
  }

  /** Which cap a violation reports as broken. */
  ghost predicate Breaks(v: Violation, rows: map<Uuid, Reservation>, config: RuntimeConfig, s: Scope, wanted: Amounts) {
    match v
    case PerCallInputCap => wanted.input > config.perCall.input
    case PerCallOutputCap => wanted.output > config.perCall.output
    case PerCallCostCap => wanted.cost > config.perCall.cost
    case TotalCallCap => Total(rows, Calls, s) + 1 > config.maxCalls
    case TotalInputCap => Total(rows, Holding(InputTokens), s) + wanted.input > config.total.input
    case TotalOutputCap => Total(rows, Holding(OutputTokens), s) + wanted.output > config.total.output
    case TotalCostCap => Total(rows, Holding(CostUnits), s) + wanted.cost > config.total.cost
    case ProgramTotalCallCap => Total(rows, Calls, OfProgram) + 1 > 300
    case ProgramTotalInputCap => Total(rows, Holding(InputTokens), OfProgram) + wanted.input > 50_000_000
    case ProgramTotalOutputCap => Total(rows, Holding(OutputTokens), OfProgram) + wanted.output > 12_500_000
    case ProgramRmbCostCap =>
      200_000 * (Total(rows, Holding(InputTokens), OfProgram) + wanted.input)
      + 800_000 * (Total(rows, Holding(OutputTokens), OfProgram) + wanted.output) > 10_000_000 * 1_000_000
  }

  ghost predicate SnapshotRecorded(db: Tables, later: Tables, e: Envelope, input: Inputs)
    requires e.command.CreateSnapshot?
  {
    && OnlyBudget(db, later) && later.budget.snapshots == db.budget.snapshots[input.first := e.command.config]
    && later.budget.reservations == db.budget.reservations && later.budget.ledger == db.budget.ledger
  }

  /** A reservation is made exactly when one more such call is within every cap; otherwise the row says it was refused. */
  ghost predicate ReserveRecorded(db: Tables, later: Tables, e: Envelope, input: Inputs)
    requires e.command.ReserveBudget?
  {
    var id, q, rows := input.first, e.command.request, db.budget.reservations;
    && OnlyBudget(db, later) && later.budget.snapshots == db.budget.snapshots && later.budget.ledger == db.budget.ledger
    && q.snapshot in db.budget.snapshots && id in later.budget.reservations
    && later.budget.reservations == rows[id := later.budget.reservations[id]]
    && var r, config := later.budget.reservations[id], db.budget.snapshots[q.snapshot];
    && r == Reservation(q.run, q.modelCall, q.snapshot, q.maxima, r.status, 1, None, None, None, e.principal.id)
    && (r.status == Reserved || r.status == Refused)
    && (r.status == Reserved <==>
          WithinCall(config, q.maxima) && WithinTotals(rows, config, OfSnapshot(q.run, q.snapshot), q.maxima) && WithinProgramCaps(rows, q.maxima))
  }

  /** Reported usage is charged as reported, unknown usage with the whole reservation. */
  ghost predicate SettleRecorded(db: Tables, later: Tables, e: Envelope)
    requires e.command.SettleBudget?
  {
    var u := e.command.usage;
    var l := UsageLedgerOf(u.receiptId);
    && OnlyBudget(db, later) && later.budget.snapshots == db.budget.snapshots
    && u.reservation in db.budget.reservations && l in later.budget.ledger
    && later.budget.ledger == db.budget.ledger[l := later.budget.ledger[l]]
    && var r, row := db.budget.reservations[u.reservation], later.budget.ledger[l];
    && later.budget.reservations == db.budget.reservations[u.reservation :=
         Reservation(r.run, r.modelCall, r.snapshot, r.maxima, match u.usage case Reported(_) => Settled case Unknown => ConservativelySettled,
                     2, Some(row.charged), Some(u.receiptId), Some(l), r.requestedBy)]
    && row.receipt == u && row.reservation == u.reservation
    && (u.usage.Reported? ==> row.charged == u.usage.amounts)
    && (u.usage.Unknown? ==> row.charged == r.maxima)
    && (row.overBudget <==>
          row.charged.input > r.maxima.input || row.charged.output > r.maxima.output || row.charged.cost > r.maxima.cost)
  }

  // ---------- all commands ----------

  /** The rows of the three milestones after a command. */
  ghost predicate RowsRecorded(cfg: Config, db: Tables, later: Tables, e: Envelope, input: Inputs) {
    match e.command
    case CreateProgram(_, _) => CreateRecorded(cfg, db, later, e, input)
    case SubmitProposal(_, _, _) => SubmitRecorded(cfg, db, later, e, input)
    case RecordDecision(_, _, _, _) => DecideRecorded(db, later, e, input)
    case ApplyProposal(_, _, _, _) => ApplyRecorded(db, later, e, input)
    case ExpireApproval(_, _) => ExpireRecorded(db, later, e)
    case CreateJob(_) => CreateJobRecorded(cfg, db, later, e, input)
    case ClaimJob(_, _, _) => ClaimRecorded(db, later, e)
    case FinalizeJob(_, _, _) => FinalizeRecorded(db, later, e)
    case RejectJob(_, _, _) => RejectRecorded(db, later, e)
    case CreateSnapshot(_) => SnapshotRecorded(db, later, e, input)
    case ReserveBudget(_) => ReserveRecorded(db, later, e, input)
    case SettleBudget(_) => SettleRecorded(db, later, e)
  }

  /** The order in which violations are listed. */
  function Rank(v: Violation): nat {
    match v
    case PerCallInputCap => 0
    case PerCallOutputCap => 1
    case PerCallCostCap => 2
    case TotalCallCap => 3
    case TotalInputCap => 4
    case TotalOutputCap => 5
    case TotalCostCap => 6
    case ProgramTotalCallCap => 7
    case ProgramTotalInputCap => 8
    case ProgramTotalOutputCap => 9
    case ProgramRmbCostCap => 10
  }

  predicate Ranked(list: seq<Violation>) {
    forall i, j :: 0 <= i < j < |list| ==> Rank(list[i]) < Rank(list[j])
  }

  /** What the event, the outbox row and the answer of a command say about the rows. */
  ghost predicate Tells(cfg: Config, db: Tables, later: Tables, e: Envelope, input: Inputs, topic: Topic, body: Payload) {
    match e.command
    case CreateProgram(_, _) => topic == ProgramCreatedTopic && body == ProgramCreated(input.first)
    case SubmitProposal(_, _, _) =>
      && topic == ProposalSubmittedTopic && input.first in later.core.proposals
      && var x := later.core.proposals[input.first];
      body == ProposalSubmitted(input.first, x.risk, x.status, x.diffHash, if x.risk == LowRisk then None else Some(input.second))
    case RecordDecision(_, a, verdict, _) =>
      && topic == DecisionRecordedTopic && a in db.core.approvals
      && body == DecisionRecorded(input.first, db.core.approvals[a].proposal, verdict)
    case ApplyProposal(_, _, x, _) =>
      && input.first in later.core.plans
      && var p := later.core.plans[input.first];
      && topic == (if p.restoredFrom.Some? then PlanVersionCompensatedTopic else PlanVersionCreatedTopic)
      && body == PlanApplied(x, input.first, p.versionNo, p.risk, p.restoredFrom)
    case ExpireApproval(_, a) =>
      topic == ApprovalExpiredTopic && a in db.core.approvals && body == ApprovalExpiredNow(a, db.core.approvals[a].proposal)
    case CreateJob(_) => topic == IngestRequestedTopic && body == JobCreated(input.first, 1, cfg.policy)
    case ClaimJob(job, _, ref) =>
      && topic == JobClaimedTopic && job in db.ingest.jobs
      && body == JobClaimed(job, ClaimOf(job, ref.outboxEvent), 2, db.ingest.jobs[job].policy, e.principal.id)
    case FinalizeJob(job, _, r) =>
      && topic == EvidenceItemCreatedTopic
      && body == JobFinalized(job, 3, r.receiptId, EvidenceItemOf(r.receiptId), r.rawSha256, r.byteSize, true)
    case RejectJob(job, _, r) => topic == JobRejectedTopic && body == JobWasRejected(job, 3, r.code)
    case CreateSnapshot(config) => topic == SnapshotCreatedTopic && body == SnapshotCreated(input.first, config)
    case ReserveBudget(q) =>
      && input.first in later.budget.reservations && q.snapshot in db.budget.snapshots
      && var status := later.budget.reservations[input.first].status;
      && topic == ReservationTopic(status) && body.BudgetReserved? && body == BudgetReserved(input.first, q, status, body.violations)
      && Ranked(body.violations)
      && forall v :: v in body.violations <==>
           Breaks(v, db.budget.reservations, db.budget.snapshots[q.snapshot], OfSnapshot(q.run, q.snapshot), q.maxima)
    case SettleBudget(u) =>
      && u.reservation in later.budget.reservations && UsageLedgerOf(u.receiptId) in later.budget.ledger
      && var status, row := later.budget.reservations[u.reservation].status, later.budget.ledger[UsageLedgerOf(u.receiptId)];
      && topic == ReservationTopic(status)
      && body == BudgetSettled(u.reservation, UsageLedgerOf(u.receiptId), u.receiptId, status, row.charged, row.overBudget)
  }

  /** What the outbox row is about: the Program at its new version, or one budget row. */
  predicate IsAbout(later: Tables, e: Envelope, input: Inputs, o: OutboxEvent)
    requires later.core.program.Some?
  {
    match e.command
    case CreateSnapshot(_) => o.aggregate == input.first && o.aggregateVersion == 1
    case ReserveBudget(_) => o.aggregate == input.first && o.aggregateVersion == 1
    case SettleBudget(u) => o.aggregate == u.reservation && o.aggregateVersion == 2
    case _ => o.aggregate == e.program && o.aggregateVersion == later.core.program.value.stateVersion
  }

  /** One receipt that holds the request, one event and one outbox row that say the same, and the answer. */
  ghost predicate LogRecorded(cfg: Config, db: Tables, later: Tables, e: Envelope, input: Inputs, answer: CommandResult) {
    var n := |db.log.events|;
    && later.core.program.Some? && |later.log.events| == n + 1 && |later.log.outbox| == |db.log.outbox| + 1
    && var version, ev, o := later.core.program.value.stateVersion, later.log.events[n], later.log.outbox[|db.log.outbox|];
    && later.log.events == db.log.events + [ev] && later.log.outbox == db.log.outbox + [o]
    && ev == DomainEvent(input.event, e.commandId, 0, ev.topic, version, ev.body)
    && o == OutboxEvent(input.outboxEvent, input.event, o.aggregate, o.aggregateVersion, ev.topic, ev.body) && IsAbout(later, e, input, o)
    && Tells(cfg, db, later, e, input, ev.topic, ev.body)
    && later.log.receipts == db.log.receipts[e.commandId :=
         CommandReceipt(e.key, Sha256OfRequest(e.program, e.channel, e.principal, e.command), CommittedReceipt, Okay, ev.body,
           if e.command.CreateProgram? || db.core.program.None? then None else Some(db.core.program.value.stateVersion), Some(version))]
    && answer == CommandResult(e.commandId, COMMITTED, Okay, Some(version), ev.body, false)
  }

  // ---------- each effect ----------

  /** The rows that an effect asks for, under any log. */
  ghost predicate EffectTold(cfg: Config, db: Tables, e: Envelope, input: Inputs, f: Effect, log: Log) {
    var later := Tables(f.core, f.ingest, f.budget, log);
    && f.core.program.Some?
    && RowsRecorded(cfg, db, later, e, input) && Tells(cfg, db, later, e, input, f.topic, f.body)
    && IsAbout(later, e, input, OutboxEvent(input.outboxEvent, input.event, f.aggregate, f.aggregateVersion, f.topic, f.body))
  }

  lemma {:induction false} MembersAreFirst(members: map<string, Member>, owner: string, list: seq<(string, Member)>)
    requires owner in members && WithMembers(members, owner, list).Some?
    ensures
      var result := WithMembers(members, owner, list).value;
      && (forall k :: k in members ==> k in result && result[k] == members[k])
      && (forall i :: 0 <= i < |list| && list[i].0 != owner ==> list[i].0 in result && result[list[i].0] == list[i].1)
      && (forall k :: k in result && k !in members ==> exists i :: 0 <= i < |list| && list[i].0 == k)
    decreases |list|
  {
    if list != [] {
      var rest := list[1..];
      var next := if list[0].0 == owner then members else members[list[0].0 := list[0].1];
      MembersAreFirst(next, owner, rest);
      var result := WithMembers(members, owner, list).value;
      forall i | 0 <= i < |list| && list[i].0 != owner ensures list[i].0 in result && result[list[i].0] == list[i].1 {
        assert i > 0 ==> list[i] == rest[i - 1];
      }
      forall k | k in result && k !in members ensures exists i :: 0 <= i < |list| && list[i].0 == k {
        if k !in next {
          var i :| 0 <= i < |rest| && rest[i].0 == k;
          assert list[i + 1].0 == k;
        } else {
          assert list[0].0 == k;
        }
      }
    }
  }

  lemma TaskRowsAreTasks(plan: Plan)
    ensures TasksOf(TaskRows(plan), plan)
  {
  }

  lemma CreateTold(cfg: Config, db: Tables, e: Envelope, input: Inputs, log: Log)
    requires e.command.CreateProgram? && CreateProgramMeaning(cfg, db, e, input).Perform?
    ensures EffectTold(cfg, db, e, input, CreateProgramMeaning(cfg, db, e, input).effect, log)
  {
    MembersAreFirst(map[e.principal.id := Member(User, Owner)], e.principal.id, cfg.bootstrap);
    TaskRowsAreTasks(e.command.plan);
    hide WithMembers, TaskRows, TasksOf;
  }

  lemma SubmitRows(cfg: Config, db: Tables, e: Envelope, input: Inputs, log: Log)
    requires e.command.SubmitProposal? && db.core.program.Some? && SubmitMeaning(cfg, db, e, input).Perform? && KeysUnique(db.core)
    ensures
      var f := SubmitMeaning(cfg, db, e, input).effect;
      SubmitRecorded(cfg, db, Tables(f.core, f.ingest, f.budget, log), e, input)
  {
    ChangesAreDescribed(Contents(db.core.plans), db.core.plans[e.command.base].content, e.command.change);
    hide ApplyChange, Describes, Contents, UniqueKeys, Possible, TypeOf;
  }

  lemma SubmitTold(cfg: Config, db: Tables, e: Envelope, input: Inputs, log: Log)
    requires e.command.SubmitProposal? && db.core.program.Some? && SubmitMeaning(cfg, db, e, input).Perform? && KeysUnique(db.core)
    ensures EffectTold(cfg, db, e, input, SubmitMeaning(cfg, db, e, input).effect, log)
  {
    hide SubmitRecorded, ApplyChange, Contents, KeysUnique, DiffOf;
    SubmitRows(cfg, db, e, input, log);
  }

  lemma DecideTold(cfg: Config, db: Tables, e: Envelope, input: Inputs, log: Log)
    requires e.command.RecordDecision? && db.core.program.Some? && DecideMeaning(cfg, db, e, input).Perform?
    ensures EffectTold(cfg, db, e, input, DecideMeaning(cfg, db, e, input).effect, log)
  {
  }

  lemma ApplyRows(cfg: Config, db: Tables, e: Envelope, input: Inputs, log: Log)
    requires e.command.ApplyProposal? && db.core.program.Some? && ApplyMeaning(cfg, db, e, input).Perform? && KeysUnique(db.core)
    ensures
      var f := ApplyMeaning(cfg, db, e, input).effect;
      ApplyRecorded(db, Tables(f.core, f.ingest, f.budget, log), e, input)
  {
    hide TaskRows, TasksOf, Describes, ApplyChange, ApplyRefusal, UniqueKeys, Possible;
    NotRefusedIff(db.core, e.command, input.now);
    hide IsReleased;
    var p := ApplyMeaning(cfg, db, e, input).effect.core.plans[input.first];
    var x := db.core.proposals[e.command.proposal];
    TaskRowsAreTasks(p.content);
    ChangesAreDescribed(Contents(db.core.plans), db.core.plans[x.base].content, x.change);
  }

  lemma ApplyTold(cfg: Config, db: Tables, e: Envelope, input: Inputs, log: Log)
    requires e.command.ApplyProposal? && db.core.program.Some? && ApplyMeaning(cfg, db, e, input).Perform? && KeysUnique(db.core)
    ensures EffectTold(cfg, db, e, input, ApplyMeaning(cfg, db, e, input).effect, log)
  {
    hide ApplyRecorded, ApplyRefusal, ProposedContent, TaskRows, ReleasedBy, KeysUnique;
    ApplyRows(cfg, db, e, input, log);
  }

  lemma ExpireTold(cfg: Config, db: Tables, e: Envelope, input: Inputs, log: Log)
    requires e.command.ExpireApproval? && db.core.program.Some? && ExpireMeaning(cfg, db, e, input).Perform?
    ensures EffectTold(cfg, db, e, input, ExpireMeaning(cfg, db, e, input).effect, log)
  {
  }

  lemma CreateJobTold(cfg: Config, db: Tables, e: Envelope, input: Inputs, log: Log)
    requires e.command.CreateJob? && db.core.program.Some? && CreateJobMeaning(cfg, db, e, input).Perform?
    ensures EffectTold(cfg, db, e, input, CreateJobMeaning(cfg, db, e, input).effect, log)
  {
  }

  lemma ClaimTold(cfg: Config, db: Tables, e: Envelope, input: Inputs, log: Log)
    requires e.command.ClaimJob? && db.core.program.Some? && ClaimMeaning(cfg, db, e, input).Perform?
    ensures EffectTold(cfg, db, e, input, ClaimMeaning(cfg, db, e, input).effect, log)
  {
    hide ClaimBound;
  }

  lemma FinalizeTold(cfg: Config, db: Tables, e: Envelope, input: Inputs, log: Log)
    requires e.command.FinalizeJob? && db.core.program.Some? && FinalizeMeaning(cfg, db, e, input).Perform?
    ensures EffectTold(cfg, db, e, input, FinalizeMeaning(cfg, db, e, input).effect, log)
  {
    hide DerivedReceiptId;
  }

  lemma RejectJobTold(cfg: Config, db: Tables, e: Envelope, input: Inputs, log: Log)
    requires e.command.RejectJob? && db.core.program.Some? && RejectJobMeaning(cfg, db, e, input).Perform?
    ensures EffectTold(cfg, db, e, input, RejectJobMeaning(cfg, db, e, input).effect, log)
  {
    hide RejectionRefusal;
  }

  lemma CreateSnapshotTold(cfg: Config, db: Tables, e: Envelope, input: Inputs, log: Log)
    requires e.command.CreateSnapshot? && db.core.program.Some? && CreateSnapshotMeaning(cfg, db, e, input).Perform?
    ensures EffectTold(cfg, db, e, input, CreateSnapshotMeaning(cfg, db, e, input).effect, log)
  {
  }

  // ---------- the list of violations ----------

  /** A list of violations of ranks from `lo` to before `hi`, in order. */
  predicate RankedIn(list: seq<Violation>, lo: nat, hi: nat) {
    Ranked(list) && forall v :: v in list ==> lo <= Rank(v) < hi
  }

  /** One more violation at the end, when it applies. */
  lemma OneMoreBroken(list: seq<Violation>, broken: bool, v: Violation, lo: nat)
    requires RankedIn(list, lo, Rank(v)) && lo <= Rank(v)
    ensures RankedIn(list + When(broken, v), lo, Rank(v) + 1)
    ensures forall x :: x in list + When(broken, v) <==> x in list || (broken && x == v)
  {
    var later := list + When(broken, v);
    forall i, j | 0 <= i < j < |later| ensures Rank(later[i]) < Rank(later[j]) {
      assert i < |list| && later[i] in list;
    }
  }

  lemma RankedParts(a: seq<Violation>, b: seq<Violation>, lo: nat, mid: nat, hi: nat)
    requires RankedIn(a, lo, mid) && RankedIn(b, mid, hi) && lo <= mid <= hi
    ensures RankedIn(a + b, lo, hi)
  {
    var list := a + b;
    forall i, j | 0 <= i < j < |list| ensures Rank(list[i]) < Rank(list[j]) {
      assert i < |a| ==> list[i] in a;
      assert j >= |a| ==> list[j] in b;
    }
  }

  lemma NothingBroken()
    ensures forall lo: nat :: RankedIn([], lo, lo)
  {
  }

  lemma PerCallList(config: RuntimeConfig, wanted: Amounts)
    ensures RankedIn(PerCallViolations(config, wanted), 0, 3)
    ensures forall v :: v in PerCallViolations(config, wanted) <==>
      || (v == PerCallInputCap && wanted.input > config.perCall.input)
      || (v == PerCallOutputCap && wanted.output > config.perCall.output)
      || (v == PerCallCostCap && wanted.cost > config.perCall.cost)
  {
    hide When, RankedIn;
    NothingBroken();
    var a := When(wanted.input > config.perCall.input, PerCallInputCap);
    var b := When(wanted.output > config.perCall.output, PerCallOutputCap);
    OneMoreBroken([], wanted.input > config.perCall.input, PerCallInputCap, 0);
    assert [] + a == a;
    OneMoreBroken(a, wanted.output > config.perCall.output, PerCallOutputCap, 0);
    OneMoreBroken(a + b, wanted.cost > config.perCall.cost, PerCallCostCap, 0);
  }

  lemma TotalList(config: RuntimeConfig, t: Totals, wanted: Amounts)
    ensures RankedIn(TotalViolations(config, t, wanted), 3, 7)
    ensures forall v :: v in TotalViolations(config, t, wanted) <==>
      || (v == TotalCallCap && t.calls + 1 > config.maxCalls)
      || (v == TotalInputCap && t.amounts.input + wanted.input > config.total.input)
      || (v == TotalOutputCap && t.amounts.output + wanted.output > config.total.output)
      || (v == TotalCostCap && t.amounts.cost + wanted.cost > config.total.cost)
  {
    hide When, RankedIn;
    NothingBroken();
    var a := When(t.calls + 1 > config.maxCalls, TotalCallCap);
    var b := When(t.amounts.input + wanted.input > config.total.input, TotalInputCap);
    var c := When(t.amounts.output + wanted.output > config.total.output, TotalOutputCap);
    OneMoreBroken([], t.calls + 1 > config.maxCalls, TotalCallCap, 3);
    assert [] + a == a;
    OneMoreBroken(a, t.amounts.input + wanted.input > config.total.input, TotalInputCap, 3);
    OneMoreBroken(a + b, t.amounts.output + wanted.output > config.total.output, TotalOutputCap, 3);
    OneMoreBroken(a + b + c, t.amounts.cost + wanted.cost > config.total.cost, TotalCostCap, 3);
  }

  lemma PriceIs(input: int, output: int)
    ensures RmbNumerator(input, output) == 200_000 * input + 800_000 * output
  {
  }

  lemma ProgramList(t: Totals, wanted: Amounts)
    ensures RankedIn(ProgramViolations(t, wanted), 7, 11)
    ensures forall v :: v in ProgramViolations(t, wanted) <==>
      || (v == ProgramTotalCallCap && t.calls + 1 > 300)
      || (v == ProgramTotalInputCap && t.amounts.input + wanted.input > 50_000_000)
      || (v == ProgramTotalOutputCap && t.amounts.output + wanted.output > 12_500_000)
      || (v == ProgramRmbCostCap &&
            200_000 * (t.amounts.input + wanted.input) + 800_000 * (t.amounts.output + wanted.output) > 10_000_000 * 1_000_000)
  {
    hide When, RankedIn, RmbNumerator;
    NothingBroken();
    var input, output := t.amounts.input + wanted.input, t.amounts.output + wanted.output;
    var a := When(t.calls + 1 > 300, ProgramTotalCallCap);
    var b, c := When(input > 50_000_000, ProgramTotalInputCap), When(output > 12_500_000, ProgramTotalOutputCap);
    OneMoreBroken([], t.calls + 1 > 300, ProgramTotalCallCap, 7);
    assert [] + a == a;
    OneMoreBroken(a, input > 50_000_000, ProgramTotalInputCap, 7);
    OneMoreBroken(a + b, output > 12_500_000, ProgramTotalOutputCap, 7);
    OneMoreBroken(a + b + c, RmbNumerator(input, output) > ProgramCostCap * 1_000_000, ProgramRmbCostCap, 7);
    PriceIs(input, output);
  }

  lemma ViolationsAreBrokenCaps(b: Budget, q: BudgetRequest)
    requires q.snapshot in b.snapshots
    ensures Ranked(Violations(b, q))
    ensures forall v :: v in Violations(b, q) <==>
      Breaks(v, b.reservations, b.snapshots[q.snapshot], OfSnapshot(q.run, q.snapshot), q.maxima)
  {
    hide Total, PerCallViolations, TotalViolations, ProgramViolations;
    var config, wanted := b.snapshots[q.snapshot], q.maxima;
    var own, all := TotalsOf(b.reservations, OfSnapshot(q.run, q.snapshot)), TotalsOf(b.reservations, OfProgram);
    PerCallList(config, wanted);
    TotalList(config, own, wanted);
    ProgramList(all, wanted);
    RankedParts(PerCallViolations(config, wanted), TotalViolations(config, own, wanted), 0, 3, 7);
    RankedParts(PerCallViolations(config, wanted) + TotalViolations(config, own, wanted), ProgramViolations(all, wanted), 0, 7, 11);
  }

  /** No cap is broken exactly when one more call is within all of them. */
  lemma WithinAllIff(rows: map<Uuid, Reservation>, config: RuntimeConfig, s: Scope, wanted: Amounts)
    ensures (forall v :: !Breaks(v, rows, config, s, wanted)) <==>
      WithinCall(config, wanted) && WithinTotals(rows, config, s, wanted) && WithinProgramCaps(rows, wanted)
  {
    hide Total;
    if forall v :: !Breaks(v, rows, config, s, wanted) {
      assert !Breaks(PerCallInputCap, rows, config, s, wanted) && !Breaks(PerCallOutputCap, rows, config, s, wanted);
      assert !Breaks(PerCallCostCap, rows, config, s, wanted) && !Breaks(TotalCallCap, rows, config, s, wanted);
      assert !Breaks(TotalInputCap, rows, config, s, wanted) && !Breaks(TotalOutputCap, rows, config, s, wanted);
      assert !Breaks(TotalCostCap, rows, config, s, wanted) && !Breaks(ProgramTotalCallCap, rows, config, s, wanted);
      assert !Breaks(ProgramTotalInputCap, rows, config, s, wanted) && !Breaks(ProgramTotalOutputCap, rows, config, s, wanted);
      assert !Breaks(ProgramRmbCostCap, rows, config, s, wanted);
    }
  }

  lemma ReserveRows(cfg: Config, db: Tables, e: Envelope, input: Inputs, log: Log)
    requires e.command.ReserveBudget? && db.core.program.Some? && ReserveMeaning(cfg, db, e, input).Perform?
    ensures
      var f := ReserveMeaning(cfg, db, e, input).effect;
      ReserveRecorded(db, Tables(f.core, f.ingest, f.budget, log), e, input)
  {
    hide Violations, Breaks, WithinCall, WithinTotals, WithinProgramCaps, CallTaken, Ranked;
    var q, b := e.command.request, db.budget;
    ViolationsAreBrokenCaps(b, q);
    WithinAllIff(b.reservations, b.snapshots[q.snapshot], OfSnapshot(q.run, q.snapshot), q.maxima);
    if Violations(b, q) != [] { assert Violations(b, q)[0] in Violations(b, q); }
  }

  lemma ReserveTold(cfg: Config, db: Tables, e: Envelope, input: Inputs, log: Log)
    requires e.command.ReserveBudget? && db.core.program.Some? && ReserveMeaning(cfg, db, e, input).Perform?
    ensures EffectTold(cfg, db, e, input, ReserveMeaning(cfg, db, e, input).effect, log)
  {
    hide ReserveRecorded, Violations, Breaks, CallTaken, Ranked;
    ReserveRows(cfg, db, e, input, log);
    ViolationsAreBrokenCaps(db.budget, e.command.request);
  }

  lemma SettleRows(cfg: Config, db: Tables, e: Envelope, input: Inputs, log: Log)
    requires e.command.SettleBudget? && db.core.program.Some? && SettleMeaning(cfg, db, e, input).Perform?
    ensures
      var f := SettleMeaning(cfg, db, e, input).effect;
      SettleRecorded(db, Tables(f.core, f.ingest, f.budget, log), e)
  {
    hide SettleRefusal, UsageFits;
    SettleRefusalIsExact(e, db.budget, e.command.usage);
  }

  lemma SettleTold(cfg: Config, db: Tables, e: Envelope, input: Inputs, log: Log)
    requires e.command.SettleBudget? && db.core.program.Some? && SettleMeaning(cfg, db, e, input).Perform?
    ensures EffectTold(cfg, db, e, input, SettleMeaning(cfg, db, e, input).effect, log)
  {
    hide SettleRecorded, SettleRefusal, UsageFits, ChargeOf, Exceeds, CanSettle, CannotSettle;
    SettleRefusalIsExact(e, db.budget, e.command.usage);
    SettleRows(cfg, db, e, input, log);
  }

  lemma MeaningTold(cfg: Config, db: Tables, e: Envelope, input: Inputs, log: Log)
    requires (e.command.CreateProgram? || db.core.program.Some?) && Meaning(cfg, db, e, input).Perform? && KeysUnique(db.core)
    ensures EffectTold(cfg, db, e, input, Meaning(cfg, db, e, input).effect, log)
  {
    hide CreateProgramMeaning, SubmitMeaning, DecideMeaning, ApplyMeaning, ExpireMeaning, CreateJobMeaning, ClaimMeaning,
      FinalizeMeaning, RejectJobMeaning, CreateSnapshotMeaning, ReserveMeaning, SettleMeaning, EffectTold, KeysUnique;
    match e.command
    case CreateProgram(_, _) => CreateTold(cfg, db, e, input, log);
    case SubmitProposal(_, _, _) => SubmitTold(cfg, db, e, input, log);
    case RecordDecision(_, _, _, _) => DecideTold(cfg, db, e, input, log);
    case ApplyProposal(_, _, _, _) => ApplyTold(cfg, db, e, input, log);
    case ExpireApproval(_, _) => ExpireTold(cfg, db, e, input, log);
    case CreateJob(_) => CreateJobTold(cfg, db, e, input, log);
    case ClaimJob(_, _, _) => ClaimTold(cfg, db, e, input, log);
    case FinalizeJob(_, _, _) => FinalizeTold(cfg, db, e, input, log);
    case RejectJob(_, _, _) => RejectJobTold(cfg, db, e, input, log);
    case CreateSnapshot(_) => CreateSnapshotTold(cfg, db, e, input, log);
    case ReserveBudget(_) => ReserveTold(cfg, db, e, input, log);
    case SettleBudget(_) => SettleTold(cfg, db, e, input, log);
  }

  /** What a step that carries a command out leaves behind: the rows, the receipt, the event, the outbox row
      and the answer. */
  lemma CommitsAreRecorded(cfg: Config, db: Tables, e: Envelope, input: Inputs)
    requires Commits(cfg, db, e, input) && KeysUnique(db.core)
    ensures
      var o := Step(cfg, db, e, input);
      RowsRecorded(cfg, db, o.db, e, input) && LogRecorded(cfg, db, o.db, e, input, o.result)
  {
    hide Admit, Meaning, KeysUnique, EffectTold, RowsRecorded, Tells, IsAbout, EventIds, OutboxIds;
    var o := Step(cfg, db, e, input);
    MeaningTold(cfg, db, e, input, o.db.log);
    EffectIsTold(cfg, db, e, input, Meaning(cfg, db, e, input).effect, o.db.log);
  }

  lemma EffectIsTold(cfg: Config, db: Tables, e: Envelope, input: Inputs, f: Effect, log: Log)
    requires EffectTold(cfg, db, e, input, f, log)
    ensures
      var later := Tables(f.core, f.ingest, f.budget, log);
      && f.core.program.Some?
      && RowsRecorded(cfg, db, later, e, input) && Tells(cfg, db, later, e, input, f.topic, f.body)
      && IsAbout(later, e, input, OutboxEvent(input.outboxEvent, input.event, f.aggregate, f.aggregateVersion, f.topic, f.body))
  {
    hide RowsRecorded, Tells, IsAbout;
  }
}
