/** What a later state still holds of an earlier one: rows are never deleted, contents never change,
    and statuses only move forward. */
module Growth {
  import opened Base
  import opened Plans
  import opened Tables
  import opened Spec
  import opened CoreInvariant
  import opened LogInvariant
  import opened IngestInvariant
  import opened BudgetInvariant
  import opened Invariant
  import M2Service

  ghost predicate Extends<K(!new), V>(m: map<K, V>, later: map<K, V>) {
    forall k :: k in m ==> k in later && later[k] == m[k]
  }

  predicate ProposalLeads(s: ProposalStatus, t: ProposalStatus) {
    || s == t
    || (s == Pending && t == Applied)
    || (s == AwaitingApproval && (t == ProposalApproved || t == ProposalDenied || t == ProposalExpired || t == Applied))
    || (s == ProposalApproved && t == Applied)
  }

  predicate ApprovalLeads(s: ApprovalStatus, t: ApprovalStatus) {
    || s == t
    || (s == ApprovalPending && (t == Approved || t == Denied || t == Expired || t == Consumed))
    || (s == Approved && t == Consumed)
  }

  predicate JobLeads(s: JobStatus, t: JobStatus) {
    || s == t
    || (s == Created && t != Created)
    || (s == Claimed && (t == Finalized || t == JobRejected))
  }

  ghost predicate ProposalsMove(p: map<Uuid, Proposal>, later: map<Uuid, Proposal>) {
    forall x :: x in p ==>
      x in later && later[x] == p[x].(status := later[x].status) && ProposalLeads(p[x].status, later[x].status)
  }

  ghost predicate ApprovalsMove(a: map<Uuid, Approval>, later: map<Uuid, Approval>) {
    forall x :: x in a ==>
      x in later && later[x] == a[x].(status := later[x].status) && ApprovalLeads(a[x].status, later[x].status)
  }

  ghost predicate ProgramMoves(c: Core, later: Core) {
    c.program.Some? ==>
      && later.program.Some? && later.members == c.members
      && later.program.value.owner == c.program.value.owner
      && later.program.value.allowReorder == c.program.value.allowReorder
      && later.program.value.stateVersion >= c.program.value.stateVersion
  }

  ghost predicate CoreGrows(c: Core, later: Core) {
    && ProgramMoves(c, later)
    && Extends(c.plans, later.plans) && Extends(c.tasks, later.tasks) && Extends(c.decisions, later.decisions)
    && ProposalsMove(c.proposals, later.proposals) && ApprovalsMove(c.approvals, later.approvals)
  }

  predicate JobMoves(j: Job, later: Job) {
    && JobLeads(j.status, later.status)
    && later.authorizationRef == j.authorizationRef && later.policy == j.policy && later.requestedBy == j.requestedBy
    && (j.claim.Some? ==> later.claim == j.claim && later.claimedBy == j.claimedBy && later.requestedOutbox == j.requestedOutbox)
    && (later.status == j.status ==> later == j)
  }

  ghost predicate IngestGrows(g: Ingest, later: Ingest) {
    && (forall j :: j in g.jobs ==> j in later.jobs && JobMoves(g.jobs[j], later.jobs[j]))
    && Extends(g.receipts, later.receipts) && Extends(g.items, later.items)
  }

  /** A reservation changes at most once, from reserved to one of the two settled statuses. */
  predicate ReservationMoves(r: Reservation, later: Reservation) {
    || later == r
    || (r.status == Reserved && IsSettled(later.status)
        && later.run == r.run && later.modelCall == r.modelCall && later.snapshot == r.snapshot && later.maxima == r.maxima
        && later.requestedBy == r.requestedBy)
  }

  ghost predicate BudgetGrows(b: Budget, later: Budget) {
    && Extends(b.snapshots, later.snapshots) && Extends(b.ledger, later.ledger)
    && (forall k :: k in b.reservations ==> k in later.reservations && ReservationMoves(b.reservations[k], later.reservations[k]))
  }

  ghost predicate LogGrows(l: Log, later: Log) {
    Extends(l.receipts, later.receipts) && l.events <= later.events && l.outbox <= later.outbox
  }

  ghost predicate Grows(db: Tables, later: Tables) {
    CoreGrows(db.core, later.core) && IngestGrows(db.ingest, later.ingest)
    && BudgetGrows(db.budget, later.budget) && LogGrows(db.log, later.log)
  }

  // ---------- each command ----------

  ghost predicate EffectGrows(db: Tables, f: Effect) {
    CoreGrows(db.core, f.core) && IngestGrows(db.ingest, f.ingest) && BudgetGrows(db.budget, f.budget)
  }

  predicate OnlyCore(db: Tables, f: Effect) { f.ingest == db.ingest && f.budget == db.budget }

  lemma CoreChangeGrows(db: Tables, f: Effect)
    requires CoreGrows(db.core, f.core) && OnlyCore(db, f)
    ensures EffectGrows(db, f)
  {
    hide CoreGrows;
  }

  lemma CreateGrows(cfg: Config, db: Tables, e: Envelope, input: Inputs)
    requires Inv(db) && e.command.CreateProgram? && CreateProgramMeaning(cfg, db, e, input).Perform?
    ensures EffectGrows(db, CreateProgramMeaning(cfg, db, e, input).effect)
  {
    hide IngestInv, BudgetInv, LogInv, WithMembers, TaskRows;
  }

  lemma SubmitGrows(cfg: Config, db: Tables, e: Envelope, input: Inputs)
    requires db.core.program.Some? && e.command.SubmitProposal? && SubmitMeaning(cfg, db, e, input).Perform?
    ensures EffectGrows(db, SubmitMeaning(cfg, db, e, input).effect)
  {
    hide ApplyChange, Contents;
  }

  /** An approval and its proposal move together. */
  lemma MovedPairGrows(p: map<Uuid, Proposal>, a: map<Uuid, Approval>, approval: Uuid, s: ProposalStatus, t: ApprovalStatus)
    requires approval in a && a[approval].proposal in p
    requires ProposalLeads(p[a[approval].proposal].status, s) && ApprovalLeads(a[approval].status, t)
    ensures ProposalsMove(p, p[a[approval].proposal := p[a[approval].proposal].(status := s)])
    ensures ApprovalsMove(a, a[approval := a[approval].(status := t)])
  {
  }

  lemma PendingPair(c: Core, a: Uuid)
    requires c.program.Some? && CoreInv(c) && a in c.approvals && c.approvals[a].status == ApprovalPending
    ensures c.approvals[a].proposal in c.proposals && c.proposals[c.approvals[a].proposal].status == AwaitingApproval
  {
    hide PlansKept, DiffsKept, DecisionsPaired, Traced;
    assert ApprovalBound(c.proposals, c.approvals[a]);
  }

  lemma DecideGrows(cfg: Config, db: Tables, e: Envelope, input: Inputs)
    requires db.core.program.Some? && CoreInv(db.core) && e.command.RecordDecision? && DecideMeaning(cfg, db, e, input).Perform?
    ensures EffectGrows(db, DecideMeaning(cfg, db, e, input).effect)
  {
    hide CoreInv, ProposalsMove, ApprovalsMove, IngestGrows, BudgetGrows;
    var c, a := db.core, e.command.approval;
    PendingPair(c, a);
    MovedPairGrows(c.proposals, c.approvals, a, if e.command.verdict == Approve then ProposalApproved else ProposalDenied,
      if e.command.verdict == Approve then Approved else Denied);
    CoreChangeGrows(db, DecideMeaning(cfg, db, e, input).effect);
  }

  lemma ExpireGrows(cfg: Config, db: Tables, e: Envelope, input: Inputs)
    requires db.core.program.Some? && CoreInv(db.core) && e.command.ExpireApproval? && ExpireMeaning(cfg, db, e, input).Perform?
    ensures EffectGrows(db, ExpireMeaning(cfg, db, e, input).effect)
  {
    hide CoreInv, ProposalsMove, ApprovalsMove, IngestGrows, BudgetGrows;
    PendingPair(db.core, e.command.approval);
    MovedPairGrows(db.core.proposals, db.core.approvals, e.command.approval, ProposalExpired, Expired);
    CoreChangeGrows(db, ExpireMeaning(cfg, db, e, input).effect);
  }

  lemma AppliedRowsGrow(c: Core, id: Uuid, plan: PlanVersion, x: Uuid, released: Option<Uuid>)
    requires id !in c.plans && id !in c.tasks && x in c.proposals && (released.Some? ==> released.value in c.approvals)
    requires ProposalLeads(c.proposals[x].status, Applied)
    requires released.Some? ==> c.approvals[released.value].status == Approved
    ensures CoreGrows(c, AppliedRows(c, id, plan, x, released))
  {
    hide TaskRows;
  }

  lemma TasksOfPlans(c: Core)
    requires c.program.Some? && CoreInv(c)
    ensures c.tasks.Keys == c.plans.Keys
  {
    hide History, DiffsKept, PairingKept, Traced, WellFormed;
  }

  lemma BumpedGrows(c: Core, later: Core, active: Option<Uuid>)
    requires CoreGrows(c, later) && later.program.Some? && later.program == c.program
    ensures CoreGrows(c, BumpedTo(later, active))
  {
    hide Extends, ProposalsMove, ApprovalsMove;
  }

  lemma ApplyGrows(cfg: Config, db: Tables, e: Envelope, input: Inputs)
    requires db.core.program.Some? && CoreInv(db.core) && e.command.ApplyProposal? && ApplyMeaning(cfg, db, e, input).Perform?
    ensures EffectGrows(db, ApplyMeaning(cfg, db, e, input).effect)
  {
    hide CoreInv, CoreGrows, EffectGrows, ProposedContent, NewPlanVersion, AppliedRows, ApplyRefusal, ReleasedBy;
    var c, x := db.core, e.command.proposal;
    M2Service.ApplicableProposal(c, e.command, input.now);
    M2Service.RecomputationAgrees(c, x);
    TasksOfPlans(c);
    var plan := NewPlanVersion(c, x, c.proposals[x], e.command.decision, ProposedContent(c.plans, c.proposals[x]).value, e.principal.id);
    AppliedRowsGrow(c, input.first, plan, x, ReleasedBy(c, e.command));
    M2Service.AppliedRowsKeepProgram(c, input.first, plan, x, ReleasedBy(c, e.command));
    BumpedGrows(c, AppliedRows(c, input.first, plan, x, ReleasedBy(c, e.command)), Some(input.first));
    CoreChangeGrows(db, ApplyMeaning(cfg, db, e, input).effect);
  }

  lemma BumpGrows(db: Tables, f: Effect)
    requires db.core.program.Some? && f.core == Bump(db.core) && IngestGrows(db.ingest, f.ingest) && f.budget == db.budget
    ensures EffectGrows(db, f)
  {
    hide IngestGrows;
  }

  lemma JobPutGrows(g: Ingest, id: Uuid, j: Job)
    requires id in g.jobs ==> JobMoves(g.jobs[id], j)
    ensures IngestGrows(g, g.(jobs := g.jobs[id := j]))
  {
  }

  lemma CreateJobGrows(cfg: Config, db: Tables, e: Envelope, input: Inputs)
    requires db.core.program.Some? && e.command.CreateJob? && CreateJobMeaning(cfg, db, e, input).Perform?
    ensures EffectGrows(db, CreateJobMeaning(cfg, db, e, input).effect)
  {
    hide IngestGrows, EffectGrows;
    var f := CreateJobMeaning(cfg, db, e, input).effect;
    JobPutGrows(db.ingest, input.first, f.ingest.jobs[input.first]);
    BumpGrows(db, f);
  }

  lemma ClaimGrows(cfg: Config, db: Tables, e: Envelope, input: Inputs)
    requires db.core.program.Some? && IngestInv(db.ingest, db.log.outbox) && e.command.ClaimJob? && ClaimMeaning(cfg, db, e, input).Perform?
    ensures EffectGrows(db, ClaimMeaning(cfg, db, e, input).effect)
  {
    hide IngestGrows, EffectGrows, IngestInv, ClaimBound;
    var f := ClaimMeaning(cfg, db, e, input).effect;
    JobHolds(db.ingest, db.log.outbox, e.command.job);
    JobPutGrows(db.ingest, e.command.job, f.ingest.jobs[e.command.job]);
    BumpGrows(db, f);
  }

  lemma RejectJobGrows(cfg: Config, db: Tables, e: Envelope, input: Inputs)
    requires db.core.program.Some? && e.command.RejectJob? && RejectJobMeaning(cfg, db, e, input).Perform?
    ensures EffectGrows(db, RejectJobMeaning(cfg, db, e, input).effect)
  {
    hide IngestGrows, EffectGrows, RejectionRefusal;
    var f := RejectJobMeaning(cfg, db, e, input).effect;
    JobPutGrows(db.ingest, e.command.job, f.ingest.jobs[e.command.job]);
    BumpGrows(db, f);
  }

  lemma FinalizedGrows(g: Ingest, id: Uuid, r: EvidenceReceipt, author: string)
    requires Finalizable(g, id, r)
    ensures IngestGrows(g, FinalizedIngest(g, id, r, author))
  {
    hide ItemFor, DerivedReceiptId;
  }

  lemma FinalizeGrows(cfg: Config, db: Tables, e: Envelope, input: Inputs)
    requires db.core.program.Some? && IngestInv(db.ingest, db.log.outbox) && e.command.FinalizeJob? && FinalizeMeaning(cfg, db, e, input).Perform?
    ensures EffectGrows(db, FinalizeMeaning(cfg, db, e, input).effect)
  {
    hide IngestGrows, EffectGrows, IngestInv, ItemFor, DerivedReceiptId;
    var c, f := e.command, FinalizeMeaning(cfg, db, e, input).effect;
    ClaimedJobHasNoReceipt(db.ingest, db.log.outbox, c.job, c.receipt);
    FinalizedGrows(db.ingest, c.job, c.receipt, e.principal.id);
    BumpGrows(db, f);
  }

  predicate OnlyBudget(db: Tables, f: Effect) { f.core == db.core && f.ingest == db.ingest }

  lemma BudgetChangeGrows(db: Tables, f: Effect)
    requires OnlyBudget(db, f) && BudgetGrows(db.budget, f.budget)
    ensures EffectGrows(db, f)
  {
    hide BudgetGrows;
  }

  lemma CreateSnapshotGrows(cfg: Config, db: Tables, e: Envelope, input: Inputs)
    requires e.command.CreateSnapshot? && CreateSnapshotMeaning(cfg, db, e, input).Perform?
    ensures EffectGrows(db, CreateSnapshotMeaning(cfg, db, e, input).effect)
  {
    hide EffectGrows;
    BudgetChangeGrows(db, CreateSnapshotMeaning(cfg, db, e, input).effect);
  }

  lemma ReserveGrows(cfg: Config, db: Tables, e: Envelope, input: Inputs)
    requires e.command.ReserveBudget? && ReserveMeaning(cfg, db, e, input).Perform?
    ensures EffectGrows(db, ReserveMeaning(cfg, db, e, input).effect)
  {
    hide EffectGrows, Violations, CallTaken;
    BudgetChangeGrows(db, ReserveMeaning(cfg, db, e, input).effect);
  }

  lemma SettleGrows(cfg: Config, db: Tables, e: Envelope, input: Inputs)
    requires e.command.SettleBudget? && SettleMeaning(cfg, db, e, input).Perform?
    ensures EffectGrows(db, SettleMeaning(cfg, db, e, input).effect)
  {
    hide EffectGrows, Exceeds;
    BudgetChangeGrows(db, SettleMeaning(cfg, db, e, input).effect);
  }

  lemma MeaningGrows(cfg: Config, db: Tables, e: Envelope, input: Inputs)
    requires Inv(db) && (e.command.CreateProgram? || db.core.program.Some?) && Meaning(cfg, db, e, input).Perform?
    ensures EffectGrows(db, Meaning(cfg, db, e, input).effect)
  {
    hide CoreInv, IngestInv, BudgetInv, LogInv, EffectGrows;
    hide CreateProgramMeaning, SubmitMeaning, DecideMeaning, ApplyMeaning, ExpireMeaning, CreateJobMeaning, ClaimMeaning,
      FinalizeMeaning, RejectJobMeaning, CreateSnapshotMeaning, ReserveMeaning, SettleMeaning;
    match e.command
    case CreateProgram(_, _) => CreateGrows(cfg, db, e, input);
    case SubmitProposal(_, _, _) => SubmitGrows(cfg, db, e, input);
    case RecordDecision(_, _, _, _) => DecideGrows(cfg, db, e, input);
    case ApplyProposal(_, _, _, _) => ApplyGrows(cfg, db, e, input);
    case ExpireApproval(_, _) => ExpireGrows(cfg, db, e, input);
    case CreateJob(_) => CreateJobGrows(cfg, db, e, input);
    case ClaimJob(_, _, _) => ClaimGrows(cfg, db, e, input);
    case FinalizeJob(_, _, _) => FinalizeGrows(cfg, db, e, input);
    case RejectJob(_, _, _) => RejectJobGrows(cfg, db, e, input);
    case CreateSnapshot(_) => CreateSnapshotGrows(cfg, db, e, input);
    case ReserveBudget(_) => ReserveGrows(cfg, db, e, input);
    case SettleBudget(_) => SettleGrows(cfg, db, e, input);
  }

  // ---------- steps and runs ----------

  lemma Stays(db: Tables)
    ensures Grows(db, db)
  {
  }

  lemma RefusingGrows(db: Tables, e: Envelope, r: Rejection)
    requires e.commandId !in db.log.receipts
    ensures Grows(db, Refusing(db, e, r).db)
  {
  }

  lemma CommittingGrows(db: Tables, e: Envelope, input: Inputs, f: Effect)
    requires f.core.program.Some? && e.commandId !in db.log.receipts && EffectGrows(db, f)
    ensures Grows(db, Committing(db, e, input, f).db)
  {
    hide CoreGrows, IngestGrows, BudgetGrows, EventIds, OutboxIds;
    if input.event in EventIds(db.log.events) || input.outboxEvent in OutboxIds(db.log.outbox) { Stays(db); }
  }

  lemma ExecuteGrows(cfg: Config, db: Tables, e: Envelope, input: Inputs)
    requires Inv(db) && (e.command.CreateProgram? || db.core.program.Some?)
    ensures Grows(db, Execute(cfg, db, e, input).db)
  {
    hide Inv, Grows, EffectGrows, Refusing, Committing, Meaning, VersionRefusal;
    Stays(db);
    if e.commandId !in db.log.receipts {
      var ruling := RulingOf(cfg, db, e, input);
      match ruling
      case Refuse(r) => RefusingGrows(db, e, r);
      case Abort =>
      case Perform(f) =>
        MeaningGrows(cfg, db, e, input);
        if f.core.program.Some? { CommittingGrows(db, e, input, f); }
    }
  }

  lemma StepGrows(cfg: Config, db: Tables, e: Envelope, input: Inputs)
    requires Inv(db)
    ensures Grows(db, Step(cfg, db, e, input).db)
  {
    hide Inv, Grows, Admit, Execute;
    Stays(db);
    if e.command.CreateProgram? || db.core.program.Some? { ExecuteGrows(cfg, db, e, input); }
  }

  lemma BudgetGrowsOn(a: Budget, b: Budget, c: Budget)
    requires BudgetGrows(a, b) && BudgetGrows(b, c)
    ensures BudgetGrows(a, c)
  {
    forall k | k in a.reservations ensures k in c.reservations && ReservationMoves(a.reservations[k], c.reservations[k]) {
      assert ReservationMoves(a.reservations[k], b.reservations[k]);
      assert ReservationMoves(b.reservations[k], c.reservations[k]);
    }
  }

  lemma IngestGrowsOn(a: Ingest, b: Ingest, c: Ingest)
    requires IngestGrows(a, b) && IngestGrows(b, c)
    ensures IngestGrows(a, c)
  {
    forall j | j in a.jobs ensures j in c.jobs && JobMoves(a.jobs[j], c.jobs[j]) {
      assert JobMoves(a.jobs[j], b.jobs[j]) && JobMoves(b.jobs[j], c.jobs[j]);
    }
  }

  lemma GrowsOn(a: Tables, b: Tables, c: Tables)
    requires Grows(a, b) && Grows(b, c)
    ensures Grows(a, c)
  {
    hide IngestGrows, BudgetGrows;
    IngestGrowsOn(a.ingest, b.ingest, c.ingest);
    BudgetGrowsOn(a.budget, b.budget, c.budget);
  }

  /** Whatever is called afterwards, plans, hashes, decisions, ledger rows, receipts and events stay as they are. */
  lemma {:induction false} RunGrows(cfg: Config, db: Tables, calls: seq<Call>)
    requires Inv(db)
    ensures Grows(db, Run(cfg, db, calls))
    decreases |calls|
  {
    hide Inv, Grows, Step;
    if calls == [] {
      Stays(db);
    } else {
      var front, last := calls[..|calls| - 1], calls[|calls| - 1];
      RunGrows(cfg, db, front);
      RunKeeps(cfg, db, front);
      StepGrows(cfg, Run(cfg, db, front), last.envelope, last.input);
      GrowsOn(db, Run(cfg, db, front), Run(cfg, db, calls));
    }
  }
}
