/** The M4 handlers as the service runs them (src/awakening/state/m4/service.py). */
module M4Service {
  import opened Base
  import opened Tables
  import opened Spec
  import opened StateTransactions
  import opened Refinement
  import opened BudgetInvariant

  /** What an M4 operation hands to its runner. */
  datatype Mutation = Mutation(topic: Topic, body: Payload, aggregate: Uuid, aggregateVersion: nat)

  ghost predicate Opened(db: Tables, e: Envelope, before: Tables) {
    && before.core.program.Some?
    && BudgetInv(before.budget)
    && db == ReservedDb(before, e)
  }

  /** A refusal is raised before anything was written; otherwise exactly the new budget rows were. */
  ghost predicate Mutates(before: Tables, ruling: Ruling, e: Envelope, after: Tables, r: Result<Mutation, Raise>) {
    match ruling
    case Refuse(x) => r.Err? && Caught(r.error) == Some(x) && after == ReservedDb(before, e)
    case Abort => r == Err(Integrity)
    case Perform(f) =>
      && r == Ok(Mutation(f.topic, f.body, f.aggregate, f.aggregateVersion))
      && after == ReservedDb(before, e).(budget := f.budget)
      && f.core == before.core && f.ingest == before.ingest
  }

  method CreateRuntimeConfigSnapshot(tx: StateTransaction, cfg: Config, e: Envelope, input: Inputs, ghost before: Tables)
    returns (r: Result<Mutation, Raise>)
    requires e.command.CreateSnapshot? && Opened(tx.db, e, before)
    modifies tx
    ensures Mutates(before, CreateSnapshotMeaning(cfg, before, e, input), e, tx.db, r)
  {
    hide BudgetInv;
    var _ :- tx.InsertSnapshot(input.first, e.command.config);
    return Ok(Mutation(SnapshotCreatedTopic, SnapshotCreated(input.first, e.command.config), input.first, 1));
  }

  /** The caps across all snapshots of a Program. */
  method ProgramPolicyViolations(totals: Totals, wanted: Amounts) returns (violations: seq<Violation>)
    ensures violations == ProgramViolations(totals, wanted)
  {
    violations := [];
    var input, output := totals.amounts.input + wanted.input, totals.amounts.output + wanted.output;
    if totals.calls + 1 > ProgramCallCap { violations := violations + [ProgramTotalCallCap]; }
    if input > ProgramInputCap { violations := violations + [ProgramTotalInputCap]; }
    if output > ProgramOutputCap { violations := violations + [ProgramTotalOutputCap]; }
    if RmbNumerator(input, output) > ProgramCostCap * 1_000_000 { violations := violations + [ProgramRmbCostCap]; }
  }

  method FindPerCallViolations(config: RuntimeConfig, wanted: Amounts) returns (violations: seq<Violation>)
    ensures violations == PerCallViolations(config, wanted)
  {
    violations := [];
    if wanted.input > config.perCall.input { violations := violations + [PerCallInputCap]; }
    if wanted.output > config.perCall.output { violations := violations + [PerCallOutputCap]; }
    if wanted.cost > config.perCall.cost { violations := violations + [PerCallCostCap]; }
  }

  method FindTotalViolations(config: RuntimeConfig, totals: Totals, wanted: Amounts) returns (violations: seq<Violation>)
    ensures violations == TotalViolations(config, totals, wanted)
  {
    violations := [];
    if totals.calls + 1 > config.maxCalls { violations := violations + [TotalCallCap]; }
    if totals.amounts.input + wanted.input > config.total.input { violations := violations + [TotalInputCap]; }
    if totals.amounts.output + wanted.output > config.total.output { violations := violations + [TotalOutputCap]; }
    if totals.amounts.cost + wanted.cost > config.total.cost { violations := violations + [TotalCostCap]; }
  }

  /** Every cap a reservation would break, in the order they are checked. */
  method FindViolations(budget: Budget, tx: StateTransaction, q: BudgetRequest) returns (violations: seq<Violation>)
    requires tx.db.budget == budget && q.snapshot in budget.snapshots
    ensures violations == Violations(budget, q)
  {
    hide TotalsOf, ProgramViolations, PerCallViolations, TotalViolations;
    var totals := tx.GetTotals(OfSnapshot(q.run, q.snapshot));
    var programTotals := tx.GetTotals(OfProgram);
    violations := FindPerCallViolations(budget.snapshots[q.snapshot], q.maxima);
    var inTotal := FindTotalViolations(budget.snapshots[q.snapshot], totals, q.maxima);
    var inProgram := ProgramPolicyViolations(programTotals, q.maxima);
    violations := violations + inTotal;
    assert violations == SnapshotViolations(budget.snapshots[q.snapshot], totals, q.maxima);
    violations := violations + inProgram;
  }

  lemma OneReservationPerCall(b: Budget, r: Uuid)
    requires CallsDistinct(b.reservations) && r in b.reservations
    ensures CallTaken(b, b.reservations[r].modelCall) && ReservationOfCall(b, b.reservations[r].modelCall) == r
  {
  }

  /** A request that breaks a cap is still written, as a refused reservation. */
  method ReserveModelBudget(tx: StateTransaction, cfg: Config, e: Envelope, input: Inputs, ghost before: Tables)
    returns (r: Result<Mutation, Raise>)
    requires e.command.ReserveBudget? && Opened(tx.db, e, before)
    modifies tx
    ensures Mutates(before, ReserveMeaning(cfg, before, e, input), e, tx.db, r)
  {
    hide LedgerPaired, SnapshotsHold, WithinCaps, Conserved, CallsDistinct, Violations;
    var q, b := e.command.request, tx.db.budget;
    if q.snapshot !in b.snapshots {
      return Err(Business(Rejection(NotFound, SnapshotNotFound, RuntimeConfigNotFound)));
    }
    if b.snapshots[q.snapshot].run != q.run {
      return Err(Business(Rejection(SchemaInvalid, RunMismatch, RuntimeConfigInvalid)));
    }
    if exists k :: k in b.reservations && b.reservations[k].modelCall == q.modelCall {
      var k :| k in b.reservations && b.reservations[k].modelCall == q.modelCall;
      OneReservationPerCall(b, k);
      return Err(Business(Rejection(Conflict, CallAlreadyBound, ExistingReservation(k))));
    }
    var violations := FindViolations(b, tx, q);
    var status := if violations != [] then Refused else Reserved;
    var row := Reservation(q.run, q.modelCall, q.snapshot, q.maxima, status, 1, None, None, None, e.principal.id);
    var _ :- tx.InsertReservation(input.first, row);
    return Ok(Mutation(ReservationTopic(status), BudgetReserved(input.first, q, status, violations), input.first, 1));
  }

  /** A reservation that is still reserved is at version 1: the guarded update below finds it. */
  lemma ReservedIsVersionOne(b: Budget, r: Uuid)
    requires BudgetInv(b) && r in b.reservations && b.reservations[r].status == Reserved
    ensures b.reservations[r].version == 1
  {
    assert ReservationBound(b.ledger, r, b.reservations[r]);
  }

  /** The checks of a settlement, in the order they are made. */
  method CheckSettlement(db: Tables, e: Envelope) returns (r: Result<Reservation, Raise>)
    requires e.command.SettleBudget?
    ensures r.Ok? <==> SettleRefusal(e, db.budget, e.command.usage).None?
    ensures r.Err? ==> Caught(r.error) == SettleRefusal(e, db.budget, e.command.usage)
    ensures r.Ok? ==>
      e.command.usage.reservation in db.budget.reservations && r.value == db.budget.reservations[e.command.usage.reservation]
  {
    var u, b := e.command.usage, db.budget;
    if u.issuedBy != e.principal.id {
      return Err(Business(Rejection(PrincipalNotAllowed, UsageIssuerMismatch, ProviderUsageInvalid)));
    }
    if u.reservation !in b.reservations { return Err(ReservationMissing); }
    var row := b.reservations[u.reservation];
    if row.status != Reserved { return Err(WrongReservationStatus); }
    if u.snapshot !in b.snapshots {
      return Err(Business(Rejection(NotFound, SettlementSnapshotNotFound, RuntimeConfigNotFound)));
    }
    if u.program != e.program || u.run != row.run || u.modelCall != row.modelCall || u.snapshot != row.snapshot
      || u.providerAlias != b.snapshots[u.snapshot].providerAlias
    {
      return Err(Business(Rejection(SchemaInvalid, UsageNotBound, ProviderUsageInvalid)));
    }
    return Ok(row);
  }

  method SettleModelBudget(tx: StateTransaction, cfg: Config, e: Envelope, input: Inputs, ghost before: Tables)
    returns (r: Result<Mutation, Raise>)
    requires e.command.SettleBudget? && Opened(tx.db, e, before)
    modifies tx
    ensures Mutates(before, SettleMeaning(cfg, before, e, input), e, tx.db, r)
  {
    hide BudgetInv, SettleRefusal;
    var u := e.command.usage;
    var row :- CheckSettlement(tx.db, e);
    var charged := if u.usage.Reported? then u.usage.amounts else row.maxima;
    var over := charged.input > row.maxima.input || charged.output > row.maxima.output || charged.cost > row.maxima.cost;
    var status := if u.usage.Reported? then Settled else ConservativelySettled;
    var ledger := UsageLedgerOf(u.receiptId);
    SettleableIsReserved(e, before.budget, u);
    ReservedIsVersionOne(before.budget, u.reservation);
    var _ :- tx.InsertLedgerRow(ledger, LedgerRow(u, u.reservation, charged, over));
    var updated := tx.SettleReservation(u.reservation, (x: Reservation) =>
      x.(status := status, usageReceipt := Some(u.receiptId), ledger := Some(ledger), charged := Some(charged)));
    if updated.Err? { assert false; }
    return Ok(Mutation(ReservationTopic(status),
      BudgetSettled(u.reservation, ledger, u.receiptId, status, charged, over), u.reservation, 2));
  }

  lemma SettleableIsReserved(e: Envelope, b: Budget, u: UsageReceipt)
    requires SettleRefusal(e, b, u).None?
    ensures u.reservation in b.reservations && b.reservations[u.reservation].status == Reserved
  {
  }
}
