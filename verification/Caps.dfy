/** Caps and the usage ledger over whole runs. */
module Caps {
  import opened Base
  import opened Tables
  import opened Spec
  import opened Sums
  import opened BudgetInvariant
  import opened Invariant
  import opened Growth

  lemma {:induction false} ReachableBudget(cfg: Config, calls: seq<Call>)
    ensures BudgetInv(Run(cfg, EmptyTables, calls).budget)
  {
    EmptyInv();
    RunKeeps(cfg, EmptyTables, calls);
    hide Run, BudgetInv;
  }

  /** In every reachable state, per snapshot and across the Program: calls stay within their cap
      outright, and each amount held stays within its cap plus the sum of all reported overshoots. */
  lemma {:induction false} CapsHoldUpToOvershoot(cfg: Config, calls: seq<Call>)
    ensures
      var b := Run(cfg, EmptyTables, calls).budget;
      (forall id :: id in b.snapshots ==> WithinSnapshot(b.reservations, id, b.snapshots[id])) && WithinProgram(b.reservations)
  {
    ReachableBudget(cfg, calls);
    hide Run, LedgerPaired, CallsDistinct, SnapshotsHold, Conserved, WithinSnapshot, WithinProgram;
  }

  // ---------- what the totals count ----------

  predicate Counts(s: Scope, r: Reservation) {
    s == OfProgram || s == OfSnapshot(r.run, r.snapshot)
  }

  /** What the open reservations of a scope may still use. */
  function Reserves(rows: ReservationMap, s: Scope): map<Uuid, Amounts> {
    map k | k in rows && Counts(s, rows[k]) && rows[k].status == Reserved :: rows[k].maxima
  }

  /** What the settled reservations of a scope were charged. */
  function Charges(rows: ReservationMap, s: Scope): map<Uuid, Amounts> {
    map k | k in rows && Counts(s, rows[k]) && rows[k].charged.Some? :: rows[k].charged.value
  }

  function InputsOf(m: map<Uuid, Amounts>): map<Uuid, nat> { map k | k in m :: m[k].input }
  function OutputsOf(m: map<Uuid, Amounts>): map<Uuid, nat> { map k | k in m :: m[k].output }
  function CostsOf(m: map<Uuid, Amounts>): map<Uuid, nat> { map k | k in m :: m[k].cost }

  function PartsOf(m: map<Uuid, Amounts>, d: Dimension): map<Uuid, nat> {
    match d
    case InputTokens => InputsOf(m)
    case OutputTokens => OutputsOf(m)
    case CostUnits => CostsOf(m)
  }

  lemma PartIsAt(m: map<Uuid, Amounts>, d: Dimension)
    ensures PartsOf(m, d).Keys == m.Keys && forall k :: k in m ==> PartsOf(m, d)[k] == Part(m[k], d)
  {
  }

  function HeldPart(rows: ReservationMap, s: Scope, k: Uuid, d: Dimension): nat {
    if k in Reserves(rows, s) then Part(Reserves(rows, s)[k], d) else if k in Charges(rows, s) then Part(Charges(rows, s)[k], d) else 0
  }

  lemma WeightOfRow(rows: ReservationMap, ledger: LedgerMap, s: Scope, k: Uuid)
    requires LedgerPaired(rows, ledger) && k in rows
    ensures !(k in Reserves(rows, s) && k in Charges(rows, s))
    ensures Weight(Calls, s, rows[k]) == (if k in Reserves(rows, s) || k in Charges(rows, s) then 1 else 0)
    ensures forall d :: Weight(Holding(d), s, rows[k]) == HeldPart(rows, s, k, d)
  {
    assert ReservationBound(ledger, k, rows[k]);
    hide LedgerPaired, Part;
  }

  /** The amount held is what the open reservations may still use plus what the settled ones were charged. */
  lemma HeldIsOpenPlusCharged(rows: ReservationMap, ledger: LedgerMap, s: Scope, d: Dimension)
    requires LedgerPaired(rows, ledger)
    ensures Total(rows, Holding(d), s) == Sum(PartsOf(Reserves(rows, s), d)) + Sum(PartsOf(Charges(rows, s), d))
  {
    forall k | k in rows
      ensures !(k in Reserves(rows, s) && k in Charges(rows, s))
      ensures Weight(Holding(d), s, rows[k]) == HeldPart(rows, s, k, d)
    {
      WeightOfRow(rows, ledger, s, k);
    }
    PartIsAt(Reserves(rows, s), d);
    PartIsAt(Charges(rows, s), d);
    hide LedgerPaired, Sum, Weight, PartsOf, Part;
    SumOverParts(Weights(rows, Holding(d), s), PartsOf(Reserves(rows, s), d), PartsOf(Charges(rows, s), d));
  }

  lemma CallsAreCounted(rows: ReservationMap, ledger: LedgerMap, s: Scope)
    requires LedgerPaired(rows, ledger)
    ensures Total(rows, Calls, s) == |Reserves(rows, s)| + |Charges(rows, s)|
  {
    forall k | k in rows
      ensures !(k in Reserves(rows, s) && k in Charges(rows, s))
      ensures Weight(Calls, s, rows[k]) == (if k in Reserves(rows, s) || k in Charges(rows, s) then 1 else 0)
    {
      WeightOfRow(rows, ledger, s, k);
    }
    hide LedgerPaired, Sum, Weight;
    var all := Reserves(rows, s).Keys + Charges(rows, s).Keys;
    SumOfOnes(Weights(rows, Calls, s), all);
    assert Reserves(rows, s).Keys !! Charges(rows, s).Keys;
    assert |all| == |Reserves(rows, s).Keys| + |Charges(rows, s).Keys|;
  }

  /** What the caps are compared with: the number of calls that were not refused, and in each of the three amounts
      the maxima of the open reservations plus the charges of the settled ones. */
  lemma TotalsCount(rows: ReservationMap, ledger: LedgerMap, s: Scope)
    requires LedgerPaired(rows, ledger)
    ensures Total(rows, Calls, s) == |Reserves(rows, s)| + |Charges(rows, s)|
    ensures Total(rows, Holding(InputTokens), s) == Sum(InputsOf(Reserves(rows, s))) + Sum(InputsOf(Charges(rows, s)))
    ensures Total(rows, Holding(OutputTokens), s) == Sum(OutputsOf(Reserves(rows, s))) + Sum(OutputsOf(Charges(rows, s)))
    ensures Total(rows, Holding(CostUnits), s) == Sum(CostsOf(Reserves(rows, s))) + Sum(CostsOf(Charges(rows, s)))
  {
    hide LedgerPaired, Total, Sum, Reserves, Charges, InputsOf, OutputsOf, CostsOf;
    CallsAreCounted(rows, ledger, s);
    HeldIsOpenPlusCharged(rows, ledger, s, InputTokens);
    HeldIsOpenPlusCharged(rows, ledger, s, OutputTokens);
    HeldIsOpenPlusCharged(rows, ledger, s, CostUnits);
  }

  /** What each charge has beyond its reservation. */
  function Excesses(rows: ReservationMap, s: Scope, d: Dimension): map<Uuid, nat> {
    map k | k in rows && Counts(s, rows[k]) && rows[k].charged.Some? && Part(rows[k].charged.value, d) > Part(rows[k].maxima, d)
      :: Part(rows[k].charged.value, d) - Part(rows[k].maxima, d)
  }

  /** An overshoot counts only what a charge has beyond its reservation. */
  lemma OvershootIsTheExcess(rows: ReservationMap, s: Scope, d: Dimension)
    ensures Total(rows, Overshoot(d), s) == Sum(Excesses(rows, s, d))
  {
    hide Sum, Part;
    var none: map<Uuid, nat> := map[];
    SumOverParts(Weights(rows, Overshoot(d), s), Excesses(rows, s, d), none);
    SumOfZeros(none);
  }

  // ---------- no row over budget, no overshoot ----------

  ghost predicate NothingOver(b: Budget, s: Scope) {
    forall l :: l in b.ledger && b.ledger[l].reservation in b.reservations && InScope(s, b.reservations[b.ledger[l].reservation])
      ==> !b.ledger[l].overBudget
  }

  lemma NoOvershoot(b: Budget, s: Scope, d: Dimension)
    requires LedgerPaired(b.reservations, b.ledger) && NothingOver(b, s)
    ensures Total(b.reservations, Overshoot(d), s) == 0
  {
    forall k | k in b.reservations ensures Weight(Overshoot(d), s, b.reservations[k]) == 0 {
      assert ReservationBound(b.ledger, k, b.reservations[k]);
      if IsSettled(b.reservations[k].status) {
        assert LedgerBound(b.reservations, b.reservations[k].ledger.value, b.ledger[b.reservations[k].ledger.value]);
      }
    }
    SumOfZeros(Weights(b.reservations, Overshoot(d), s));
  }

  ghost predicate ExactlyWithin(rows: ReservationMap, s: Scope, calls: nat, caps: Amounts) {
    && Total(rows, Calls, s) <= calls
    && Total(rows, Holding(InputTokens), s) <= caps.input
    && Total(rows, Holding(OutputTokens), s) <= caps.output
    && Total(rows, Holding(CostUnits), s) <= caps.cost
  }

  /** While no ledger row of a snapshot is over budget, all its caps hold exactly: in every state that
      satisfies the budget invariant, so in every reachable one. */
  lemma CapsHoldWhileNothingIsOver(b: Budget, id: Uuid)
    requires BudgetInv(b) && id in b.snapshots && NothingOver(b, OfSnapshot(b.snapshots[id].run, id))
    ensures ExactlyWithin(b.reservations, OfSnapshot(b.snapshots[id].run, id), b.snapshots[id].maxCalls, b.snapshots[id].total)
  {
    hide WithinProgram, CallsDistinct, SnapshotsHold, Conserved, NothingOver, Total;
    var s := OfSnapshot(b.snapshots[id].run, id);
    NoOvershoot(b, s, InputTokens);
    NoOvershoot(b, s, OutputTokens);
    NoOvershoot(b, s, CostUnits);
    hide LedgerPaired;
    assert WithinSnapshot(b.reservations, id, b.snapshots[id]);
  }

  /** While no ledger row of the Program is over budget, its 300 slots, its token caps and its
      linear price cap hold exactly. */
  lemma ProgramCapsHoldWhileNothingIsOver(b: Budget)
    requires BudgetInv(b) && NothingOver(b, OfProgram)
    ensures
      var rows := b.reservations;
      && Total(rows, Calls, OfProgram) <= 300
      && Total(rows, Holding(InputTokens), OfProgram) <= 50_000_000
      && Total(rows, Holding(OutputTokens), OfProgram) <= 12_500_000
      && 200_000 * Total(rows, Holding(InputTokens), OfProgram) + 800_000 * Total(rows, Holding(OutputTokens), OfProgram)
         <= 10_000_000 * 1_000_000
  {
    hide WithinSnapshot, CallsDistinct, SnapshotsHold, Conserved, NothingOver, Total;
    NoOvershoot(b, OfProgram, InputTokens);
    NoOvershoot(b, OfProgram, OutputTokens);
  }

  // ---------- the ledger ----------

  /** The ledger row of a settled reservation, and nothing else, names it. */
  ghost predicate LedgerBijection(reservations: ReservationMap, ledger: LedgerMap) {
    && (forall k :: k in reservations ==>
          (IsSettled(reservations[k].status) <==> reservations[k].ledger.Some?)
          && (reservations[k].ledger.Some? ==>
              && reservations[k].ledger.value in ledger
              && ledger[reservations[k].ledger.value].reservation == k
              && Some(ledger[reservations[k].ledger.value].charged) == reservations[k].charged))
    && (forall l :: l in ledger ==> ledger[l].reservation in reservations && reservations[ledger[l].reservation].ledger == Some(l))
    && (forall l :: l in ledger ==> ChargedAsUsed(reservations[ledger[l].reservation], ledger[l]))
  }

  /** Reported usage is charged as reported, unknown usage with everything that was reserved. */
  predicate ChargedAsUsed(r: Reservation, row: LedgerRow) {
    && (row.receipt.usage.Reported? ==> r.status == Settled && row.charged == row.receipt.usage.amounts)
    && (row.receipt.usage.Unknown? ==> r.status == ConservativelySettled && row.charged == r.maxima)
    && (row.overBudget <==>
          row.charged.input > r.maxima.input || row.charged.output > r.maxima.output || row.charged.cost > r.maxima.cost)
  }

  lemma PairedIsBijection(reservations: ReservationMap, ledger: LedgerMap)
    requires LedgerPaired(reservations, ledger)
    ensures LedgerBijection(reservations, ledger)
  {
    forall k | k in reservations ensures ReservationBound(ledger, k, reservations[k]) {}
    forall l | l in ledger ensures LedgerBound(reservations, l, ledger[l]) {}
    hide LedgerPaired;
  }

  /** Settled reservations and ledger rows are in bijection with equal charges, unknown usage charges
      exactly the maxima, and both sides charge the same total in every scope and dimension. */
  lemma {:induction false} LedgerIsConserved(cfg: Config, calls: seq<Call>)
    ensures
      var b := Run(cfg, EmptyTables, calls).budget;
      LedgerBijection(b.reservations, b.ledger) && Conserved(b.reservations, b.ledger)
  {
    ReachableBudget(cfg, calls);
    hide Run, LedgerPaired, CallsDistinct, SnapshotsHold, Conserved, WithinCaps, LedgerBijection;
    PairedIsBijection(Run(cfg, EmptyTables, calls).budget.reservations, Run(cfg, EmptyTables, calls).budget.ledger);
  }

  /** Each model call has at most one reservation. */
  lemma {:induction false} OneReservationPerModelCall(cfg: Config, calls: seq<Call>)
    ensures CallsDistinct(Run(cfg, EmptyTables, calls).budget.reservations)
  {
    ReachableBudget(cfg, calls);
    hide Run, LedgerPaired, CallsDistinct, SnapshotsHold, Conserved, WithinCaps;
  }

  /** A reservation that is refused or settled is never touched again. */
  lemma {:induction false} SettlesAtMostOnce(cfg: Config, db: Tables, calls: seq<Call>, r: Uuid)
    requires Inv(db) && r in db.budget.reservations && db.budget.reservations[r].status != Reserved
    ensures
      var b := Run(cfg, db, calls).budget;
      r in b.reservations && b.reservations[r] == db.budget.reservations[r]
  {
    RunGrows(cfg, db, calls);
    hide Run, Inv, CoreGrows, IngestGrows, LogGrows;
  }

  // ---------- the naive bound ----------

  /** A settlement leaves the amount held within a cap exactly when the reported usage fits into
      what the reservation held plus what was still free. */
  lemma SettlementFitsIff(cfg: Config, db: Tables, e: Envelope, input: Inputs, s: Scope, d: Dimension, cap: nat)
    requires BudgetInv(db.budget) && e.command.SettleBudget? && SettleMeaning(cfg, db, e, input).Perform?
    requires InScope(s, db.budget.reservations[e.command.usage.reservation])
    ensures
      var u, rows := e.command.usage, db.budget.reservations;
      var after := Total(SettleMeaning(cfg, db, e, input).effect.budget.reservations, Holding(d), s);
      var reserved := Part(rows[u.reservation].maxima, d);
      var used := match u.usage case Reported(amounts) => Part(amounts, d) case Unknown => reserved;
      after <= cap <==> used <= reserved + (cap - Total(rows, Holding(d), s))
  {
    hide Total, LedgerPaired, CallsDistinct, SnapshotsHold, Conserved, WithinCaps, Exceeds;
    var u, rows := e.command.usage, db.budget.reservations;
    TotalPut(rows, u.reservation, SettledRow(rows[u.reservation], u), Holding(d), s);
  }
}
