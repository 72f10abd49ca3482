/** Reservations, the usage ledger and the caps: what every reachable state satisfies. */
module BudgetInvariant {
  import opened Base
  import opened Tables
  import opened Spec
  import opened Sums

  type ReservationMap = map<Uuid, Reservation>
  type LedgerMap = map<Uuid, LedgerRow>
  type SnapshotMap = map<Uuid, RuntimeConfig>

  predicate IsSettled(s: ReservationStatus) { s == Settled || s == ConservativelySettled }

  /** A settled reservation names its ledger row; any other has no charge and is still at version 1. */
  predicate ReservationBound(ledger: LedgerMap, id: Uuid, r: Reservation) {
    if IsSettled(r.status) then
      && r.version == 2 && r.ledger.Some? && r.ledger.value in ledger && r.charged.Some?
      && ledger[r.ledger.value].reservation == id
      && ledger[r.ledger.value].charged == r.charged.value
    else r.version == 1 && r.ledger.None? && r.charged.None?
  }

  /** A ledger row belongs to one settled reservation; unknown usage charged exactly its maxima. */
  predicate LedgerBound(reservations: ReservationMap, id: Uuid, row: LedgerRow) {
    && id == UsageLedgerOf(row.receipt.receiptId)
    && row.reservation in reservations
    && var r := reservations[row.reservation];
    && r.ledger == Some(id) && IsSettled(r.status)
    && row.charged == ChargeOf(r, row.receipt.usage)
    && (r.status == Settled <==> row.receipt.usage.Reported?)
    && row.overBudget == Exceeds(row.charged, r.maxima)
  }

  ghost predicate LedgerPaired(reservations: ReservationMap, ledger: LedgerMap) {
    && (forall k :: k in reservations ==> ReservationBound(ledger, k, reservations[k]))
    && (forall l :: l in ledger ==> LedgerBound(reservations, l, ledger[l]))
  }

  ghost predicate CallsDistinct(reservations: ReservationMap) {
    forall j, k :: j in reservations && k in reservations && reservations[j].modelCall == reservations[k].modelCall ==> j == k
  }

  predicate OnSnapshot(snapshots: SnapshotMap, r: Reservation) {
    r.snapshot in snapshots && snapshots[r.snapshot].run == r.run
  }

  ghost predicate SnapshotsHold(snapshots: SnapshotMap, reservations: ReservationMap) {
    forall k :: k in reservations ==> OnSnapshot(snapshots, reservations[k])
  }

  /** What is held stays within the cap plus the sum of all reported overshoots. */
  ghost predicate WithinDimension(reservations: ReservationMap, s: Scope, d: Dimension, cap: nat) {
    Total(reservations, Holding(d), s) <= cap + Total(reservations, Overshoot(d), s)
  }

  ghost predicate WithinSnapshot(reservations: ReservationMap, id: Uuid, config: RuntimeConfig) {
    var s := OfSnapshot(config.run, id);
    && Total(reservations, Calls, s) <= config.maxCalls
    && WithinDimension(reservations, s, InputTokens, config.total.input)
    && WithinDimension(reservations, s, OutputTokens, config.total.output)
    && WithinDimension(reservations, s, CostUnits, config.total.cost)
  }

  /** The linear price of an overshoot, in the unit of RmbNumerator. */
  ghost function OvershootPrice(reservations: ReservationMap): nat {
    RmbNumerator(Total(reservations, Overshoot(InputTokens), OfProgram), Total(reservations, Overshoot(OutputTokens), OfProgram))
  }

  ghost predicate WithinProgram(reservations: ReservationMap) {
    && Total(reservations, Calls, OfProgram) <= ProgramCallCap
    && WithinDimension(reservations, OfProgram, InputTokens, ProgramInputCap)
    && WithinDimension(reservations, OfProgram, OutputTokens, ProgramOutputCap)
    && RmbNumerator(Total(reservations, Holding(InputTokens), OfProgram), Total(reservations, Holding(OutputTokens), OfProgram))
       <= ProgramCostCap * 1_000_000 + OvershootPrice(reservations)
  }

  ghost predicate WithinCaps(snapshots: SnapshotMap, reservations: ReservationMap) {
    && (forall id :: id in snapshots ==> WithinSnapshot(reservations, id, snapshots[id]))
    && WithinProgram(reservations)
  }

  function LedgerWeight(reservations: ReservationMap, row: LedgerRow, d: Dimension, s: Scope): nat {
    if row.reservation in reservations && InScope(s, reservations[row.reservation]) then Part(row.charged, d) else 0
  }

  function LedgerWeights(reservations: ReservationMap, ledger: LedgerMap, d: Dimension, s: Scope): map<Uuid, nat> {
    map l | l in ledger :: LedgerWeight(reservations, ledger[l], d, s)
  }

  /** Total charged according to the ledger. */
  ghost function LedgerTotal(reservations: ReservationMap, ledger: LedgerMap, d: Dimension, s: Scope): nat {
    Sum(LedgerWeights(reservations, ledger, d, s))
  }

  ghost predicate ConservedIn(reservations: ReservationMap, ledger: LedgerMap, d: Dimension, s: Scope) {
    LedgerTotal(reservations, ledger, d, s) == Total(reservations, Charge(d), s)
  }

  /** In every scope and dimension the ledger and the reservations charge the same. */
  ghost predicate Conserved(reservations: ReservationMap, ledger: LedgerMap) {
    forall d, s :: ConservedIn(reservations, ledger, d, s)
  }

  ghost predicate BudgetInv(b: Budget) {
    && LedgerPaired(b.reservations, b.ledger)
    && CallsDistinct(b.reservations)
    && SnapshotsHold(b.snapshots, b.reservations)
    && WithinCaps(b.snapshots, b.reservations)
    && Conserved(b.reservations, b.ledger)
  }

  // ---------- sums after one write ----------

  /** Writing one row moves a total by the difference of the two weights. */
  lemma TotalPut(rows: ReservationMap, k: Uuid, r: Reservation, m: Measure, s: Scope)
    ensures Total(rows[k := r], m, s)
         == Total(rows, m, s) - (if k in rows then Weight(m, s, rows[k]) else 0) + Weight(m, s, r)
  {
    assert Weights(rows[k := r], m, s) == Weights(rows, m, s)[k := Weight(m, s, r)];
    SumPut(Weights(rows, m, s), k, Weight(m, s, r));
  }

  lemma LedgerTotalPut(rows: ReservationMap, ledger: LedgerMap, l: Uuid, row: LedgerRow, r: Reservation,
          d: Dimension, s: Scope)
    requires l !in ledger && row.reservation in rows && r.run == rows[row.reservation].run && r.snapshot == rows[row.reservation].snapshot
    ensures LedgerTotal(rows[row.reservation := r], ledger[l := row], d, s)
         == LedgerTotal(rows, ledger, d, s) + (if InScope(s, r) then Part(row.charged, d) else 0)
  {
    var w := if InScope(s, r) then Part(row.charged, d) else 0;
    assert forall i :: i in ledger ==> LedgerWeight(rows[row.reservation := r], ledger[i], d, s) == LedgerWeight(rows, ledger[i], d, s);
    assert LedgerWeight(rows[row.reservation := r], row, d, s) == w;
    hide LedgerWeight, Sum;
    assert LedgerWeights(rows[row.reservation := r], ledger[l := row], d, s) == LedgerWeights(rows, ledger, d, s)[l := w];
    SumPut(LedgerWeights(rows, ledger, d, s), l, w);
  }

  // ---------- create a snapshot ----------

  lemma NothingInScope(reservations: ReservationMap, m: Measure, run: Uuid, id: Uuid)
    requires forall k :: k in reservations ==> reservations[k].snapshot != id
    ensures Total(reservations, m, OfSnapshot(run, id)) == 0
  {
    SumOfZeros(Weights(reservations, m, OfSnapshot(run, id)));
  }

  lemma NewSnapshotKeeps(b: Budget, id: Uuid, config: RuntimeConfig)
    requires BudgetInv(b) && id !in b.snapshots
    ensures BudgetInv(b.(snapshots := b.snapshots[id := config]))
  {
    hide Total, LedgerTotal;
    assert forall k :: k in b.reservations ==> OnSnapshot(b.snapshots, b.reservations[k]);
    NothingInScope(b.reservations, Calls, config.run, id);
    NothingInScope(b.reservations, Holding(InputTokens), config.run, id);
    NothingInScope(b.reservations, Holding(OutputTokens), config.run, id);
    NothingInScope(b.reservations, Holding(CostUnits), config.run, id);
  }

  // ---------- reserve ----------

  predicate Fresh(r: Reservation) {
    r.version == 1 && r.charged.None? && r.ledger.None? && !IsSettled(r.status)
  }

  lemma NewReservationKeepsPairing(b: Budget, id: Uuid, r: Reservation)
    requires LedgerPaired(b.reservations, b.ledger) && id !in b.reservations && Fresh(r)
    ensures LedgerPaired(b.reservations[id := r], b.ledger)
  {
    assert forall l :: l in b.ledger ==> LedgerBound(b.reservations, l, b.ledger[l]);
  }

  lemma NewReservationIsNotInTheLedger(b: Budget, id: Uuid, r: Reservation, d: Dimension, s: Scope)
    requires LedgerPaired(b.reservations, b.ledger) && id !in b.reservations
    ensures LedgerTotal(b.reservations[id := r], b.ledger, d, s) == LedgerTotal(b.reservations, b.ledger, d, s)
  {
    var rows := b.reservations[id := r];
    forall l | l in b.ledger
      ensures LedgerWeight(rows, b.ledger[l], d, s) == LedgerWeight(b.reservations, b.ledger[l], d, s)
    {
      assert LedgerBound(b.reservations, l, b.ledger[l]);
    }
    hide LedgerPaired, LedgerWeight, Sum;
    assert LedgerWeights(b.reservations[id := r], b.ledger, d, s) == LedgerWeights(b.reservations, b.ledger, d, s);
  }

  lemma NewReservationKeepsConservation(b: Budget, id: Uuid, r: Reservation)
    requires Conserved(b.reservations, b.ledger) && LedgerPaired(b.reservations, b.ledger) && id !in b.reservations && Fresh(r)
    ensures Conserved(b.reservations[id := r], b.ledger)
  {
    hide LedgerPaired, LedgerTotal, Total;
    var rows := b.reservations[id := r];
    forall d, s ensures ConservedIn(rows, b.ledger, d, s) {
      assert ConservedIn(b.reservations, b.ledger, d, s);
      TotalPut(b.reservations, id, r, Charge(d), s);
      NewReservationIsNotInTheLedger(b, id, r, d, s);
    }
  }

  /** A refused request, or one that fits, keeps one dimension of one scope within its cap. */
  lemma NewReservationKeepsDimension(rows: ReservationMap, id: Uuid, r: Reservation, s: Scope, d: Dimension, cap: nat)
    requires WithinDimension(rows, s, d, cap) && id !in rows && Fresh(r)
    requires InScope(s, r) && r.status == Reserved ==> Total(rows, Holding(d), s) + Part(r.maxima, d) <= cap
    ensures WithinDimension(rows[id := r], s, d, cap)
  {
    TotalPut(rows, id, r, Holding(d), s);
    TotalPut(rows, id, r, Overshoot(d), s);
  }

  lemma EmptyProgramViolations(p: Totals, wanted: Amounts)
    requires ProgramViolations(p, wanted) == []
    ensures p.calls + 1 <= ProgramCallCap
    ensures p.amounts.input + wanted.input <= ProgramInputCap
    ensures p.amounts.output + wanted.output <= ProgramOutputCap
    ensures RmbNumerator(p.amounts.input + wanted.input, p.amounts.output + wanted.output) <= ProgramCostCap * 1_000_000
  {
    hide RmbNumerator;
    var v := ProgramViolations(p, wanted);
    assert p.calls + 1 > ProgramCallCap ==> |v| > 0;
    assert p.amounts.input + wanted.input > ProgramInputCap ==> |v| > 0;
    assert p.amounts.output + wanted.output > ProgramOutputCap ==> |v| > 0;
    assert RmbNumerator(p.amounts.input + wanted.input, p.amounts.output + wanted.output) > ProgramCostCap * 1_000_000 ==> |v| > 0;
  }

  lemma EmptySnapshotViolations(config: RuntimeConfig, t: Totals, wanted: Amounts)
    requires SnapshotViolations(config, t, wanted) == []
    ensures wanted.input <= config.perCall.input && wanted.output <= config.perCall.output && wanted.cost <= config.perCall.cost
    ensures t.calls + 1 <= config.maxCalls
    ensures t.amounts.input + wanted.input <= config.total.input
    ensures t.amounts.output + wanted.output <= config.total.output
    ensures t.amounts.cost + wanted.cost <= config.total.cost
  {
    BothEmpty(PerCallViolations(config, wanted), TotalViolations(config, t, wanted));
    assert |PerCallViolations(config, wanted)| == |TotalViolations(config, t, wanted)| == 0;
  }

  /** Either Program token cap, alone, already exceeds the Program cost cap. */
  lemma TokenCapImpliesCostCap(p: Totals, wanted: Amounts)
    ensures ProgramTotalInputCap in ProgramViolations(p, wanted) || ProgramTotalOutputCap in ProgramViolations(p, wanted)
        ==> ProgramRmbCostCap in ProgramViolations(p, wanted)
  {
    var input, output := p.amounts.input + wanted.input, p.amounts.output + wanted.output;
    assert input > ProgramInputCap ==> RmbNumerator(input, output) > ProgramCostCap * 1_000_000;
    assert output > ProgramOutputCap ==> RmbNumerator(input, output) > ProgramCostCap * 1_000_000;
  }

  lemma NewReservationKeepsSnapshotCap(b: Budget, id: Uuid, r: Reservation, snap: Uuid)
    requires b.snapshots.Keys >= {snap, r.snapshot} && b.snapshots[r.snapshot].run == r.run
    requires WithinSnapshot(b.reservations, snap, b.snapshots[snap]) && id !in b.reservations && Fresh(r)
    requires r.status == Reserved ==>
      SnapshotViolations(b.snapshots[r.snapshot], TotalsOf(b.reservations, OfSnapshot(r.run, r.snapshot)), r.maxima) == []
    ensures WithinSnapshot(b.reservations[id := r], snap, b.snapshots[snap])
  {
    hide Total;
    var config := b.snapshots[snap];
    var s := OfSnapshot(config.run, snap);
    if r.status == Reserved && r.snapshot == snap {
      EmptySnapshotViolations(config, TotalsOf(b.reservations, s), r.maxima);
    }
    TotalPut(b.reservations, id, r, Calls, s);
    hide SnapshotViolations;
    NewReservationKeepsDimension(b.reservations, id, r, s, InputTokens, config.total.input);
    NewReservationKeepsDimension(b.reservations, id, r, s, OutputTokens, config.total.output);
    NewReservationKeepsDimension(b.reservations, id, r, s, CostUnits, config.total.cost);
  }

  lemma NewReservationKeepsProgramCap(rows: ReservationMap, id: Uuid, r: Reservation)
    requires WithinProgram(rows) && id !in rows && Fresh(r)
    requires r.status == Reserved ==> ProgramViolations(TotalsOf(rows, OfProgram), r.maxima) == []
    ensures WithinProgram(rows[id := r])
  {
    hide Total;
    if r.status == Reserved { EmptyProgramViolations(TotalsOf(rows, OfProgram), r.maxima); }
    hide ProgramViolations;
    TotalPut(rows, id, r, Calls, OfProgram);
    TotalPut(rows, id, r, Holding(InputTokens), OfProgram);
    TotalPut(rows, id, r, Holding(OutputTokens), OfProgram);
    TotalPut(rows, id, r, Overshoot(InputTokens), OfProgram);
    TotalPut(rows, id, r, Overshoot(OutputTokens), OfProgram);
  }

  lemma ReserveKeeps(cfg: Config, db: Tables, e: Envelope, input: Inputs)
    requires BudgetInv(db.budget) && e.command.ReserveBudget? && ReserveMeaning(cfg, db, e, input).Perform?
    ensures BudgetInv(ReserveMeaning(cfg, db, e, input).effect.budget)
  {
    hide LedgerPaired, Conserved, WithinSnapshot, WithinProgram, SnapshotViolations, ProgramViolations, TotalsOf;
    var b, q := db.budget, e.command.request;
    var r := ReserveMeaning(cfg, db, e, input).effect.budget.reservations[input.first];
    NewReservationKeepsPairing(b, input.first, r);
    NewReservationKeepsConservation(b, input.first, r);
    if r.status == Reserved {
      BothEmpty(SnapshotViolations(b.snapshots[q.snapshot], TotalsOf(b.reservations, OfSnapshot(q.run, q.snapshot)), q.maxima),
                ProgramViolations(TotalsOf(b.reservations, OfProgram), q.maxima));
    }
    forall snap | snap in b.snapshots ensures WithinSnapshot(b.reservations[input.first := r], snap, b.snapshots[snap]) {
      NewReservationKeepsSnapshotCap(b, input.first, r, snap);
    }
    NewReservationKeepsProgramCap(b.reservations, input.first, r);
  }

  lemma BothEmpty<T>(a: seq<T>, b: seq<T>)
    requires a + b == []
    ensures a == [] && b == []
  {
    assert |a + b| == |a| + |b|;
  }

  // ---------- settle ----------

  lemma SettleKeepsPairing(b: Budget, u: UsageReceipt)
    requires LedgerPaired(b.reservations, b.ledger) && u.reservation in b.reservations
    requires b.reservations[u.reservation].status == Reserved && UsageLedgerOf(u.receiptId) !in b.ledger
    ensures
      var r := b.reservations[u.reservation];
      var charged := ChargeOf(r, u.usage);
      LedgerPaired(b.reservations[u.reservation := SettledRow(r, u)],
        b.ledger[UsageLedgerOf(u.receiptId) := LedgerRow(u, u.reservation, charged, Exceeds(charged, r.maxima))])
  {
    var r, l := b.reservations[u.reservation], UsageLedgerOf(u.receiptId);
    var charged := ChargeOf(r, u.usage);
    var rows := b.reservations[u.reservation := SettledRow(r, u)];
    var ledger := b.ledger[l := LedgerRow(u, u.reservation, charged, Exceeds(charged, r.maxima))];
    forall k | k in rows ensures ReservationBound(ledger, k, rows[k]) {
      assert ReservationBound(b.ledger, k, b.reservations[k]);
    }
    forall i | i in ledger ensures LedgerBound(rows, i, ledger[i]) {
      if i != l { assert LedgerBound(b.reservations, i, b.ledger[i]); }
    }
  }

  lemma SettleKeepsConservation(b: Budget, u: UsageReceipt, row: LedgerRow)
    requires Conserved(b.reservations, b.ledger) && u.reservation in b.reservations && UsageLedgerOf(u.receiptId) !in b.ledger
    requires b.reservations[u.reservation].charged.None?
    requires row.reservation == u.reservation && row.charged == ChargeOf(b.reservations[u.reservation], u.usage)
    ensures Conserved(b.reservations[u.reservation := SettledRow(b.reservations[u.reservation], u)],
                      b.ledger[UsageLedgerOf(u.receiptId) := row])
  {
    var r := SettledRow(b.reservations[u.reservation], u);
    var rows, ledger := b.reservations[u.reservation := r], b.ledger[UsageLedgerOf(u.receiptId) := row];
    forall d, s ensures ConservedIn(rows, ledger, d, s) {
      assert ConservedIn(b.reservations, b.ledger, d, s);
      TotalPut(b.reservations, u.reservation, r, Charge(d), s);
      LedgerTotalPut(b.reservations, b.ledger, UsageLedgerOf(u.receiptId), row, r, d, s);
    }
  }

  /** Settling frees what was not used and books what was used beyond the maxima as overshoot. */
  lemma SettleKeepsDimension(rows: ReservationMap, u: UsageReceipt, s: Scope, d: Dimension, cap: nat)
    requires WithinDimension(rows, s, d, cap) && u.reservation in rows
    requires rows[u.reservation].status == Reserved && rows[u.reservation].charged.None?
    ensures WithinDimension(rows[u.reservation := SettledRow(rows[u.reservation], u)], s, d, cap)
  {
    var r := SettledRow(rows[u.reservation], u);
    TotalPut(rows, u.reservation, r, Holding(d), s);
    TotalPut(rows, u.reservation, r, Overshoot(d), s);
  }

  lemma SettleKeepsSnapshotCap(rows: ReservationMap, u: UsageReceipt, snap: Uuid, config: RuntimeConfig)
    requires WithinSnapshot(rows, snap, config) && u.reservation in rows
    requires rows[u.reservation].status == Reserved && rows[u.reservation].charged.None?
    ensures WithinSnapshot(rows[u.reservation := SettledRow(rows[u.reservation], u)], snap, config)
  {
    hide Total;
    var s := OfSnapshot(config.run, snap);
    TotalPut(rows, u.reservation, SettledRow(rows[u.reservation], u), Calls, s);
    SettleKeepsDimension(rows, u, s, InputTokens, config.total.input);
    SettleKeepsDimension(rows, u, s, OutputTokens, config.total.output);
    SettleKeepsDimension(rows, u, s, CostUnits, config.total.cost);
  }

  lemma SettleKeepsProgramCap(rows: ReservationMap, u: UsageReceipt)
    requires WithinProgram(rows) && u.reservation in rows
    requires rows[u.reservation].status == Reserved && rows[u.reservation].charged.None?
    ensures WithinProgram(rows[u.reservation := SettledRow(rows[u.reservation], u)])
  {
    hide Total;
    var r := SettledRow(rows[u.reservation], u);
    TotalPut(rows, u.reservation, r, Calls, OfProgram);
    TotalPut(rows, u.reservation, r, Holding(InputTokens), OfProgram);
    TotalPut(rows, u.reservation, r, Holding(OutputTokens), OfProgram);
    TotalPut(rows, u.reservation, r, Overshoot(InputTokens), OfProgram);
    TotalPut(rows, u.reservation, r, Overshoot(OutputTokens), OfProgram);
  }

  predicate Settleable(b: Budget, u: UsageReceipt) {
    && u.reservation in b.reservations && u.snapshot in b.snapshots
    && b.reservations[u.reservation].status == Reserved
    && UsageLedgerOf(u.receiptId) !in b.ledger
  }

  /** The budget after settling one reservation. */
  function SettledBudget(b: Budget, u: UsageReceipt): Budget
    requires u.reservation in b.reservations
  {
    var r := b.reservations[u.reservation];
    var charged := ChargeOf(r, u.usage);
    b.(reservations := b.reservations[u.reservation := SettledRow(r, u)],
       ledger := b.ledger[UsageLedgerOf(u.receiptId) := LedgerRow(u, u.reservation, charged, Exceeds(charged, r.maxima))])
  }

  lemma SettleKeepsCaps(b: Budget, u: UsageReceipt)
    requires WithinCaps(b.snapshots, b.reservations) && u.reservation in b.reservations
    requires b.reservations[u.reservation].status == Reserved && b.reservations[u.reservation].charged.None?
    ensures WithinCaps(b.snapshots, b.reservations[u.reservation := SettledRow(b.reservations[u.reservation], u)])
  {
    hide WithinSnapshot, WithinProgram, SettledRow;
    var rows := b.reservations[u.reservation := SettledRow(b.reservations[u.reservation], u)];
    forall snap | snap in b.snapshots ensures WithinSnapshot(rows, snap, b.snapshots[snap]) {
      SettleKeepsSnapshotCap(b.reservations, u, snap, b.snapshots[snap]);
    }
    SettleKeepsProgramCap(b.reservations, u);
  }

  lemma SettleKeepsRows(b: Budget, u: UsageReceipt)
    requires CallsDistinct(b.reservations) && SnapshotsHold(b.snapshots, b.reservations) && u.reservation in b.reservations
    ensures
      var rows := b.reservations[u.reservation := SettledRow(b.reservations[u.reservation], u)];
      CallsDistinct(rows) && SnapshotsHold(b.snapshots, rows)
  {
    assert forall k :: k in b.reservations ==> OnSnapshot(b.snapshots, b.reservations[k]);
  }

  lemma SettledBudgetKeeps(b: Budget, u: UsageReceipt)
    requires BudgetInv(b) && Settleable(b, u)
    ensures BudgetInv(SettledBudget(b, u))
  {
    assert ReservationBound(b.ledger, u.reservation, b.reservations[u.reservation]);
    hide LedgerPaired, Conserved, CallsDistinct, SnapshotsHold, WithinCaps, Exceeds, SettledRow;
    var n := SettledBudget(b, u);
    SettleKeepsPairing(b, u);
    SettleKeepsConservation(b, u, n.ledger[UsageLedgerOf(u.receiptId)]);
    SettleKeepsRows(b, u);
    SettleKeepsCaps(b, u);
  }

  lemma SettleKeeps(cfg: Config, db: Tables, e: Envelope, input: Inputs)
    requires BudgetInv(db.budget) && e.command.SettleBudget? && SettleMeaning(cfg, db, e, input).Perform?
    ensures BudgetInv(SettleMeaning(cfg, db, e, input).effect.budget)
  {
    hide BudgetInv;
    assert SettleMeaning(cfg, db, e, input).effect.budget == SettledBudget(db.budget, e.command.usage);
    SettledBudgetKeeps(db.budget, e.command.usage);
  }
}
