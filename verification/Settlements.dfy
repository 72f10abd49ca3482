/** A committed settlement receipt always stands for a settled reservation. */
module Settlements {
  import opened Base
  import opened Tables
  import opened Spec
  import opened BudgetInvariant
  import opened Invariant
  import opened Growth

  predicate SettledFor(rows: ReservationMap, u: UsageReceipt) {
    u.reservation in rows && IsSettled(rows[u.reservation].status) && rows[u.reservation].usageReceipt == Some(u.receiptId)
  }

  ghost predicate SettlementsRecorded(db: Tables) {
    forall c :: c in db.log.receipts && db.log.receipts[c].status == CommittedReceipt && db.log.receipts[c].hash.command.SettleBudget?
      ==> SettledFor(db.budget.reservations, db.log.receipts[c].hash.command.usage)
  }

  lemma SettledForGrows(b: Budget, later: Budget, u: UsageReceipt)
    requires BudgetGrows(b, later) && SettledFor(b.reservations, u)
    ensures SettledFor(later.reservations, u)
  {
    assert ReservationMoves(b.reservations[u.reservation], later.reservations[u.reservation]);
  }

  lemma NewSettlementIsRecorded(cfg: Config, db: Tables, e: Envelope, input: Inputs)
    requires e.command.SettleBudget?
    requires Step(cfg, db, e, input).result.status == COMMITTED && !Step(cfg, db, e, input).result.replayed
    ensures SettledFor(Step(cfg, db, e, input).db.budget.reservations, e.command.usage)
  {
    hide Admit, KeyTaken, VersionRefusal, EventIds, OutboxIds, SettleRefusal, Exceeds;
  }

  /** Receipts that a step adds. */
  lemma AddedReceipts(cfg: Config, db: Tables, e: Envelope, input: Inputs, c: Uuid)
    requires c in Step(cfg, db, e, input).db.log.receipts && c !in db.log.receipts
    ensures
      var o := Step(cfg, db, e, input);
      && c == e.commandId && o.db.log.receipts[c].hash == HashOf(e)
      && (o.db.log.receipts[c].status == CommittedReceipt ==> o.result.status == COMMITTED && !o.result.replayed)
  {
    hide Admit, KeyTaken, VersionRefusal, EventIds, OutboxIds, Meaning;
  }

  lemma StepRecords(cfg: Config, db: Tables, e: Envelope, input: Inputs)
    requires Inv(db) && SettlementsRecorded(db)
    ensures SettlementsRecorded(Step(cfg, db, e, input).db)
  {
    var later := Step(cfg, db, e, input).db;
    StepGrows(cfg, db, e, input);
    hide Step, Inv, CoreGrows, IngestGrows, BudgetGrows, SettledFor;
    forall c | c in later.log.receipts && later.log.receipts[c].status == CommittedReceipt && later.log.receipts[c].hash.command.SettleBudget?
      ensures SettledFor(later.budget.reservations, later.log.receipts[c].hash.command.usage)
    {
      if c in db.log.receipts {
        SettledForGrows(db.budget, later.budget, db.log.receipts[c].hash.command.usage);
      } else {
        AddedReceipts(cfg, db, e, input, c);
        NewSettlementIsRecorded(cfg, db, e, input);
      }
    }
  }

  /** In every reachable state a committed settlement, replayed or not, has settled its reservation. */
  lemma {:induction false} RunRecords(cfg: Config, calls: seq<Call>)
    ensures SettlementsRecorded(Run(cfg, EmptyTables, calls))
    decreases |calls|
  {
    hide Step, SettledFor, Inv;
    if calls != [] {
      var front, last := calls[..|calls| - 1], calls[|calls| - 1];
      RunRecords(cfg, front);
      EmptyInv();
      RunKeeps(cfg, EmptyTables, front);
      hide SettlementsRecorded;
      StepRecords(cfg, Run(cfg, EmptyTables, front), last.envelope, last.input);
    }
  }
}
