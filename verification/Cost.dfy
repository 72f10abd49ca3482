/** Ceiling prices, admitted caps and rates, and what they guarantee for settlements
    (src/awakening/model_gateway/m4/live_runtime.py and provider.py). */
module Cost {
  import opened Base
  import opened Tables
  import opened Spec
  import opened Sums
  import opened BudgetInvariant
  import opened Invariant
  import opened Growth
  import opened Caps

  /** Microunits per million tokens. */
  datatype Price = Price(input: nat, output: nat)

  /** The Provider's charge, rounded up to whole microunits. */
  function CeilCost(p: Price, input: nat, output: nat): nat {
    (input * p.input + output * p.output + 999_999) / 1_000_000
  }

  lemma MulGrows(a: nat, b: nat, k: nat)
    requires a <= b
    ensures a * k <= b * k
  {
    assert (b - a) * k >= 0;
    assert b * k == a * k + (b - a) * k;
  }

  lemma DivGrows(a: nat, b: nat)
    requires a <= b
    ensures a / 1_000_000 <= b / 1_000_000
  {
  }

  /** It is the least whole amount that covers the exact price, and it grows with both counts. */
  lemma CeilCostIsLeast(p: Price, input: nat, output: nat)
    ensures CeilCost(p, input, output) * 1_000_000 >= input * p.input + output * p.output
    ensures forall c: nat :: c * 1_000_000 >= input * p.input + output * p.output ==> c >= CeilCost(p, input, output)
  {
  }

  lemma CeilCostGrows(p: Price, input: nat, output: nat, maxInput: nat, maxOutput: nat)
    requires input <= maxInput && output <= maxOutput
    ensures CeilCost(p, input, output) <= CeilCost(p, maxInput, maxOutput)
  {
    MulGrows(input, maxInput, p.input);
    MulGrows(output, maxOutput, p.output);
    DivGrows(input * p.input + output * p.output + 999_999, maxInput * p.input + maxOutput * p.output + 999_999);
  }

  /** What loading a live configuration checks: the totals allow every call its own caps, and the rates
      fit the cost caps per call and in total. */
  predicate CapsParse(c: RuntimeConfig) {
    && c.total.input >= c.perCall.input * c.maxCalls
    && c.total.output >= c.perCall.output * c.maxCalls
    && c.total.cost >= c.perCall.cost * c.maxCalls
  }

  predicate RatesAdmitted(p: Price, c: RuntimeConfig) {
    && CeilCost(p, c.perCall.input, c.perCall.output) <= c.perCall.cost
    && CeilCost(p, c.total.input, c.total.output) <= c.total.cost
  }

  /** A Provider that reports no more than what was sent and allowed. */
  predicate HonestReport(p: Price, maxima: Amounts, a: Amounts) {
    a.input <= maxima.input && a.output <= maxima.output && a.cost == CeilCost(p, a.input, a.output)
  }

  /** Under an admitted configuration no honest settlement of a reservation at the per-call caps is over budget. */
  lemma HonestSettlementFits(p: Price, c: RuntimeConfig, a: Amounts)
    requires RatesAdmitted(p, c) && HonestReport(p, c.perCall, a)
    ensures !Exceeds(a, c.perCall)
  {
    CeilCostGrows(p, a.input, a.output, c.perCall.input, c.perCall.output);
  }

  // ---------- whole runs ----------

  /** Commands on snapshot `id` reserve at the per-call caps and settle honest reports. */
  predicate Disciplined(p: Price, caps: RuntimeConfig, id: Uuid, c: Command) {
    && (c.ReserveBudget? && c.request.snapshot == id ==> c.request.maxima == caps.perCall)
    && (c.SettleBudget? && c.usage.snapshot == id && c.usage.usage.Reported? ==> HonestReport(p, caps.perCall, c.usage.usage.amounts))
  }

  ghost predicate AtCallCaps(b: Budget, id: Uuid, caps: RuntimeConfig) {
    && (forall k :: k in b.reservations && b.reservations[k].snapshot == id ==> b.reservations[k].maxima == caps.perCall)
    && (forall l :: l in b.ledger && b.ledger[l].reservation in b.reservations && b.reservations[b.ledger[l].reservation].snapshot == id
          ==> !b.ledger[l].overBudget)
  }

  /** The budget rows move only by one of the three M4 effects. */
  lemma BudgetAfterStep(cfg: Config, db: Tables, e: Envelope, input: Inputs)
    ensures
      var b := Step(cfg, db, e, input).db.budget;
      b == db.budget
      || ((e.command.CreateProgram? || db.core.program.Some?) && Meaning(cfg, db, e, input).Perform?
          && b == Meaning(cfg, db, e, input).effect.budget)
  {
    hide Meaning, Admit, KeyTaken, VersionRefusal, EventIds, OutboxIds;
  }

  lemma ReserveAtCaps(cfg: Config, db: Tables, e: Envelope, input: Inputs, p: Price, id: Uuid, caps: RuntimeConfig)
    requires e.command.ReserveBudget? && ReserveMeaning(cfg, db, e, input).Perform? && Disciplined(p, caps, id, e.command)
    requires LedgerPaired(db.budget.reservations, db.budget.ledger) && AtCallCaps(db.budget, id, caps)
    ensures AtCallCaps(ReserveMeaning(cfg, db, e, input).effect.budget, id, caps)
  {
    hide Violations, CallTaken;
    forall l | l in db.budget.ledger ensures LedgerBound(db.budget.reservations, l, db.budget.ledger[l]) {}
    hide LedgerPaired, Exceeds;
  }

  lemma SettledBudgetAtCaps(b: Budget, u: UsageReceipt, id: Uuid, caps: RuntimeConfig)
    requires u.reservation in b.reservations && AtCallCaps(b, id, caps)
    requires b.reservations[u.reservation].snapshot == id ==> !Exceeds(ChargeOf(b.reservations[u.reservation], u.usage), caps.perCall)
    ensures AtCallCaps(SettledBudget(b, u), id, caps)
  {
    hide ChargeOf, Exceeds;
  }

  lemma SettleAtCaps(cfg: Config, db: Tables, e: Envelope, input: Inputs, p: Price, id: Uuid, caps: RuntimeConfig)
    requires e.command.SettleBudget? && SettleMeaning(cfg, db, e, input).Perform? && Disciplined(p, caps, id, e.command)
    requires RatesAdmitted(p, caps) && AtCallCaps(db.budget, id, caps)
    ensures AtCallCaps(SettleMeaning(cfg, db, e, input).effect.budget, id, caps)
  {
    hide AtCallCaps, RatesAdmitted, HonestReport;
    var u := e.command.usage;
    assert SettleMeaning(cfg, db, e, input).effect.budget == SettledBudget(db.budget, u);
    assert u.snapshot == db.budget.reservations[u.reservation].snapshot;
    if u.snapshot == id {
      CapsOf(db.budget, u.reservation, id, caps);
      if u.usage.Reported? { HonestSettlementFits(p, caps, u.usage.amounts); }
    }
    SettledBudgetAtCaps(db.budget, u, id, caps);
  }

  lemma CapsOf(b: Budget, k: Uuid, id: Uuid, caps: RuntimeConfig)
    requires AtCallCaps(b, id, caps) && k in b.reservations && b.reservations[k].snapshot == id
    ensures b.reservations[k].maxima == caps.perCall
  {
  }

  lemma StepAtCaps(cfg: Config, db: Tables, call: Call, p: Price, id: Uuid, caps: RuntimeConfig)
    requires BudgetInv(db.budget) && AtCallCaps(db.budget, id, caps)
    requires RatesAdmitted(p, caps) && Disciplined(p, caps, id, call.envelope.command)
    ensures AtCallCaps(Step(cfg, db, call.envelope, call.input).db.budget, id, caps)
  {
    var e, input := call.envelope, call.input;
    hide Step, CallsDistinct, SnapshotsHold, WithinCaps, Conserved, LedgerPaired, AtCallCaps, RatesAdmitted, Disciplined, HonestReport;
    hide ReserveMeaning, SettleMeaning;
    BudgetAfterStep(cfg, db, e, input);
    if Step(cfg, db, e, input).db.budget != db.budget {
      if e.command.ReserveBudget? {
        ReserveAtCaps(cfg, db, e, input, p, id, caps);
      } else if e.command.SettleBudget? {
        SettleAtCaps(cfg, db, e, input, p, id, caps);
      } else {
        NewSnapshotAtCaps(cfg, db, e, input, id, caps);
      }
    }
  }

  lemma NewSnapshotAtCaps(cfg: Config, db: Tables, e: Envelope, input: Inputs, id: Uuid, caps: RuntimeConfig)
    requires !e.command.ReserveBudget? && !e.command.SettleBudget? && (e.command.CreateProgram? || db.core.program.Some?)
    requires Meaning(cfg, db, e, input).Perform? && AtCallCaps(db.budget, id, caps)
    ensures AtCallCaps(Meaning(cfg, db, e, input).effect.budget, id, caps)
  {
    hide AtCallCaps;
    assert Meaning(cfg, db, e, input).effect.budget.(snapshots := db.budget.snapshots) == db.budget by { RowsUntouched(cfg, db, e, input); }
    SnapshotsDoNotMatter(db.budget, Meaning(cfg, db, e, input).effect.budget.snapshots, id, caps);
  }

  lemma RowsUntouched(cfg: Config, db: Tables, e: Envelope, input: Inputs)
    requires !e.command.ReserveBudget? && !e.command.SettleBudget? && (e.command.CreateProgram? || db.core.program.Some?)
    requires Meaning(cfg, db, e, input).Perform?
    ensures Meaning(cfg, db, e, input).effect.budget.(snapshots := db.budget.snapshots) == db.budget
  {
    hide ClaimBound, WithMembers, DecisionRefusal, AppliedRows, NewPlanVersion, ReceiptRefusal, RejectionRefusal,
      ItemFor, SubmittedRows, ApplyRefusal, ReleasedBy, ProposedContent;
  }

  lemma SnapshotsDoNotMatter(b: Budget, snapshots: map<Uuid, RuntimeConfig>, id: Uuid, caps: RuntimeConfig)
    requires AtCallCaps(b, id, caps)
    ensures AtCallCaps(b.(snapshots := snapshots), id, caps)
  {
  }

  lemma {:induction false} RunAtCaps(cfg: Config, calls: seq<Call>, p: Price, id: Uuid, caps: RuntimeConfig)
    requires RatesAdmitted(p, caps)
    requires forall i :: 0 <= i < |calls| ==> Disciplined(p, caps, id, calls[i].envelope.command)
    ensures AtCallCaps(Run(cfg, EmptyTables, calls).budget, id, caps)
    decreases |calls|
  {
    hide Step, RatesAdmitted, Disciplined, BudgetInv;
    if calls != [] {
      var front, last := calls[..|calls| - 1], calls[|calls| - 1];
      RunAtCaps(cfg, front, p, id, caps);
      ReachableBudget(cfg, front);
      hide AtCallCaps;
      StepAtCaps(cfg, Run(cfg, EmptyTables, front), last, p, id, caps);
    }
  }

  /** End to end: when the rates are admitted, the Provider reports at most the bytes sent and the
      tokens allowed, and reservations are made at the per-call caps, then after any run no ledger row
      of the snapshot is over budget and all its totals are within its caps. */
  lemma {:induction false} AdmittedRunsStayWithinCaps(cfg: Config, calls: seq<Call>, p: Price, id: Uuid)
    requires id in Run(cfg, EmptyTables, calls).budget.snapshots
    requires RatesAdmitted(p, Run(cfg, EmptyTables, calls).budget.snapshots[id])
    requires forall i :: 0 <= i < |calls| ==>
      Disciplined(p, Run(cfg, EmptyTables, calls).budget.snapshots[id], id, calls[i].envelope.command)
    ensures
      var b := Run(cfg, EmptyTables, calls).budget;
      var s := OfSnapshot(b.snapshots[id].run, id);
      NothingOver(b, s) && ExactlyWithin(b.reservations, s, b.snapshots[id].maxCalls, b.snapshots[id].total)
  {
    var b := Run(cfg, EmptyTables, calls).budget;
    RunAtCaps(cfg, calls, p, id, b.snapshots[id]);
    ReachableBudget(cfg, calls);
    hide Run, RatesAdmitted, Disciplined, BudgetInv;
    CapsHoldWhileNothingIsOver(b, id);
  }

  // ---------- settlements that fit their reservations ----------

  /** A settlement reports at most what its reservation holds. */
  predicate FitsReservation(b: Budget, c: Command) {
    c.SettleBudget? && c.usage.usage.Reported? && c.usage.reservation in b.reservations ==>
      !Exceeds(c.usage.usage.amounts, b.reservations[c.usage.reservation].maxima)
  }

  predicate FitsOn(id: Uuid, b: Budget, c: Command) {
    c.SettleBudget? && c.usage.snapshot == id ==> FitsReservation(b, c)
  }

  /** How a ledger row got over budget: by a settlement that does not fit the reservation it names. */
  predicate Overspends(b: Budget, c: Command, row: LedgerRow) {
    && c == SettleBudget(row.receipt) && !FitsReservation(b, c)
    && row.reservation == row.receipt.reservation && b.reservations[row.reservation].snapshot == row.receipt.snapshot
  }

  lemma SettleOverspends(cfg: Config, db: Tables, e: Envelope, input: Inputs, l: Uuid)
    requires e.command.SettleBudget? && SettleMeaning(cfg, db, e, input).Perform?
    requires l in SettleMeaning(cfg, db, e, input).effect.budget.ledger && SettleMeaning(cfg, db, e, input).effect.budget.ledger[l].overBudget
    ensures
      var row := SettleMeaning(cfg, db, e, input).effect.budget.ledger[l];
      (l in db.budget.ledger && db.budget.ledger[l] == row) || Overspends(db.budget, e.command, row)
  {
  }

  /** A row that is over budget after a step was so before, or the step is such a settlement. */
  lemma StepOverspends(cfg: Config, db: Tables, e: Envelope, input: Inputs, l: Uuid)
    requires l in Step(cfg, db, e, input).db.budget.ledger && Step(cfg, db, e, input).db.budget.ledger[l].overBudget
    ensures
      var row := Step(cfg, db, e, input).db.budget.ledger[l];
      (l in db.budget.ledger && db.budget.ledger[l] == row) || Overspends(db.budget, e.command, row)
  {
    hide Step, SettleMeaning, ReserveMeaning, Overspends;
    BudgetAfterStep(cfg, db, e, input);
    if Step(cfg, db, e, input).db.budget != db.budget {
      if e.command.SettleBudget? {
        SettleOverspends(cfg, db, e, input, l);
      } else if e.command.ReserveBudget? {
        ReserveKeepsLedger(cfg, db, e, input);
      } else {
        RowsUntouched(cfg, db, e, input);
      }
    }
  }

  lemma ReserveKeepsLedger(cfg: Config, db: Tables, e: Envelope, input: Inputs)
    requires e.command.ReserveBudget? && ReserveMeaning(cfg, db, e, input).Perform?
    ensures ReserveMeaning(cfg, db, e, input).effect.budget.ledger == db.budget.ledger
  {
    hide Violations, CallTaken;
  }

  /** Every settlement of a run on snapshot `id` fits its reservation. */
  ghost predicate FittingRun(cfg: Config, calls: seq<Call>, id: Uuid) {
    forall i :: 0 <= i < |calls| ==> FitsOn(id, Run(cfg, EmptyTables, calls[..i]).budget, calls[i].envelope.command)
  }

  /** No row of a snapshot is over budget, whether the scope names the run or not. */
  ghost predicate NoneOverOn(b: Budget, id: Uuid) {
    forall l :: l in b.ledger && b.ledger[l].reservation in b.reservations && b.reservations[b.ledger[l].reservation].snapshot == id
      ==> !b.ledger[l].overBudget
  }

  lemma StepKeepsNoneOver(cfg: Config, db: Tables, e: Envelope, input: Inputs, id: Uuid)
    requires Inv(db) && NoneOverOn(db.budget, id) && FitsOn(id, db.budget, e.command)
    ensures NoneOverOn(Step(cfg, db, e, input).db.budget, id)
  {
    hide Step, Inv, Exceeds, CoreGrows, IngestGrows, LogGrows;
    var later := Step(cfg, db, e, input).db.budget;
    StepGrows(cfg, db, e, input);
    forall l | l in later.ledger && later.ledger[l].reservation in later.reservations
        && later.reservations[later.ledger[l].reservation].snapshot == id
      ensures !later.ledger[l].overBudget
    {
      var k := later.ledger[l].reservation;
      assert k in db.budget.reservations ==> ReservationMoves(db.budget.reservations[k], later.reservations[k]);
      RowsOfLedger(db, l);
      if later.ledger[l].overBudget { StepOverspends(cfg, db, e, input, l); }
    }
  }

  lemma RowsOfLedger(db: Tables, l: Uuid)
    requires Inv(db)
    ensures l in db.budget.ledger ==> db.budget.ledger[l].reservation in db.budget.reservations
  {
    hide CallsDistinct, SnapshotsHold, WithinCaps, Conserved;
    if l in db.budget.ledger { assert LedgerBound(db.budget.reservations, l, db.budget.ledger[l]); }
  }

  lemma {:induction false} RunKeepsNoneOver(cfg: Config, calls: seq<Call>, id: Uuid)
    requires FittingRun(cfg, calls, id)
    ensures NoneOverOn(Run(cfg, EmptyTables, calls).budget, id)
    decreases |calls|
  {
    hide Step, FitsOn, Inv;
    if calls != [] {
      var front, last := calls[..|calls| - 1], calls[|calls| - 1];
      forall i | 0 <= i < |front| ensures FitsOn(id, Run(cfg, EmptyTables, front[..i]).budget, front[i].envelope.command) {
        assert front[..i] == calls[..i];
      }
      RunKeepsNoneOver(cfg, front, id);
      EmptyInv();
      RunKeeps(cfg, EmptyTables, front);
      StepKeepsNoneOver(cfg, Run(cfg, EmptyTables, front), last.envelope, last.input, id);
    }
  }

  lemma NoneOverHoldsCaps(b: Budget, id: Uuid, caps: RuntimeConfig)
    requires BudgetInv(b) && id in b.snapshots && b.snapshots[id] == caps && NoneOverOn(b, id)
    ensures NothingOver(b, OfSnapshot(caps.run, id)) && ExactlyWithin(b.reservations, OfSnapshot(caps.run, id), caps.maxCalls, caps.total)
  {
    hide BudgetInv;
    CapsHoldWhileNothingIsOver(b, id);
  }

  /** Whatever is reserved and at whatever price: when every settlement on a snapshot fits its own reservation,
      no row of the snapshot is over budget and all its caps hold exactly. */
  lemma {:induction false} FittingRunsStayWithinCaps(cfg: Config, calls: seq<Call>, id: Uuid)
    requires id in Run(cfg, EmptyTables, calls).budget.snapshots && FittingRun(cfg, calls, id)
    ensures
      var b := Run(cfg, EmptyTables, calls).budget;
      var s := OfSnapshot(b.snapshots[id].run, id);
      NothingOver(b, s) && ExactlyWithin(b.reservations, s, b.snapshots[id].maxCalls, b.snapshots[id].total)
  {
    hide Run, BudgetInv, FittingRun, NoneOverOn;
    RunKeepsNoneOver(cfg, calls, id);
    ReachableBudget(cfg, calls);
    NoneOverHoldsCaps(Run(cfg, EmptyTables, calls).budget, id, Run(cfg, EmptyTables, calls).budget.snapshots[id]);
  }

  // ---------- parsed totals never refuse a call of their own ----------

  lemma {:induction false} SumAtMost(w: map<Uuid, nat>, ones: map<Uuid, nat>, max: nat)
    requires w.Keys == ones.Keys && forall k :: k in w ==> w[k] <= ones[k] * max
    ensures Sum(w) <= Sum(ones) * max
    decreases |w|
  {
    if w == map[] {
      assert ones == map[];
    } else {
      var k :| k in w;
      SumTake(w, k);
      SumTake(ones, k);
      SumAtMost(w - {k}, ones - {k}, max);
      assert (ones[k] + Sum(ones - {k})) * max == ones[k] * max + Sum(ones - {k}) * max;
    }
  }

  lemma HeldAtMost(b: Budget, id: Uuid, caps: RuntimeConfig, s: Scope, d: Dimension)
    requires LedgerPaired(b.reservations, b.ledger) && AtCallCaps(b, id, caps) && s == OfSnapshot(caps.run, id)
    ensures Total(b.reservations, Holding(d), s) <= Total(b.reservations, Calls, s) * Part(caps.perCall, d)
  {
    forall k | k in b.reservations
      ensures Weight(Holding(d), s, b.reservations[k]) <= Weight(Calls, s, b.reservations[k]) * Part(caps.perCall, d)
    {
      assert ReservationBound(b.ledger, k, b.reservations[k]);
      if IsSettled(b.reservations[k].status) {
        assert LedgerBound(b.reservations, b.reservations[k].ledger.value, b.ledger[b.reservations[k].ledger.value]);
      }
    }
    SumAtMost(Weights(b.reservations, Holding(d), s), Weights(b.reservations, Calls, s), Part(caps.perCall, d));
  }

  lemma RoomForOneMore(held: nat, calls: nat, max: nat, perCall: nat, total: nat)
    requires held <= calls * perCall && calls + 1 <= max && perCall * max <= total
    ensures held + perCall <= total
  {
    MulGrows(calls + 1, max, perCall);
    assert (calls + 1) * perCall == calls * perCall + perCall;
  }

  /** With parsed caps and disciplined calls, as long as a call slot is left the token and cost totals
      never refuse a reservation: only the call cap of the snapshot can. */
  lemma OnlyTheCallCapRefuses(b: Budget, id: Uuid, caps: RuntimeConfig, d: Dimension)
    requires LedgerPaired(b.reservations, b.ledger) && AtCallCaps(b, id, caps) && CapsParse(caps)
    requires Total(b.reservations, Calls, OfSnapshot(caps.run, id)) + 1 <= caps.maxCalls
    ensures Total(b.reservations, Holding(d), OfSnapshot(caps.run, id)) + Part(caps.perCall, d) <= Part(caps.total, d)
  {
    hide Total, LedgerPaired, AtCallCaps;
    var s := OfSnapshot(caps.run, id);
    HeldAtMost(b, id, caps, s, d);
    RoomForOneMore(Total(b.reservations, Holding(d), s), Total(b.reservations, Calls, s), caps.maxCalls, Part(caps.perCall, d), Part(caps.total, d));
  }
}
