/** The invariant of every reachable state, and that one command keeps it. */
module Invariant {
  import opened Base
  import opened Plans
  import opened Tables
  import opened Spec
  import opened CoreInvariant
  import opened LogInvariant
  import opened IngestInvariant
  import opened BudgetInvariant

  function VersionNo(core: Core): nat {
    if core.program.Some? then core.program.value.stateVersion else 0
  }

  ghost predicate Inv(db: Tables) {
    && (db.core.program.None? ==> db == EmptyTables)
    && CoreInv(db.core)
    && IngestInv(db.ingest, db.log.outbox)
    && BudgetInv(db.budget)
    && LogInv(db.log, VersionNo(db.core))
  }

  lemma EmptyInv()
    ensures Inv(EmptyTables)
  {
    EmptyBudget();
    EmptyLog();
  }

  lemma EmptyBudget()
    ensures BudgetInv(EmptyTables.budget)
  {
    var none: map<Uuid, Reservation>, rows: map<Uuid, LedgerRow> := map[], map[];
    assert forall m, s :: Weights(none, m, s) == map[];
    assert forall d, s :: LedgerWeights(none, rows, d, s) == map[];
  }

  lemma EmptyLog()
    ensures LogInv(EmptyTables.log, 0)
  {
    assert VersionCommands(map[]) == {};
  }

  /** What an effect needs so that committing it keeps the invariant. */
  ghost predicate EffectOk(db: Tables, c: Command, f: Effect) {
    && f.core.program.Some?
    && CoreInv(f.core)
    && IngestInv(f.ingest, db.log.outbox)
    && (f.topic == IngestRequestedTopic ==> f.body.JobCreated? && f.body.job in f.ingest.jobs && f.body.version == 1)
    && BudgetInv(f.budget)
    && VersionNo(f.core) == VersionNo(db.core) + (if IsM4(c) then 0 else 1)
    && (IsM4Topic(f.topic) <==> IsM4(c))
  }

  lemma BumpKeeps(c: Core)
    requires c.program.Some? && CoreInv(c)
    ensures CoreInv(Bump(c))
  {
    hide History, Stored, DiffsHold, PairingKept, Traced;
    assert PairingKept(Bump(c)) by { BumpKeepsPairing(c); }
  }

  lemma BumpKeepsPairing(c: Core)
    requires c.program.Some? && PairingKept(c)
    ensures PairingKept(Bump(c))
  {
    hide ApprovalsPaired, DecisionsPaired;
  }

  lemma CreateOk(cfg: Config, db: Tables, e: Envelope, input: Inputs)
    requires Inv(db) && e.command.CreateProgram? && WellFormed(e.command.plan) && CreateProgramMeaning(cfg, db, e, input).Perform?
    ensures EffectOk(db, e.command, CreateProgramMeaning(cfg, db, e, input).effect)
  {
    hide CoreInv, IngestInv, BudgetInv, LogInv, WellFormed, WithMembers;
    CreateKeeps(cfg, db, e, input);
  }

  lemma SubmitOk(cfg: Config, db: Tables, e: Envelope, input: Inputs)
    requires Inv(db) && db.core.program.Some? && e.command.SubmitProposal? && SubmitMeaning(cfg, db, e, input).Perform?
    ensures EffectOk(db, e.command, SubmitMeaning(cfg, db, e, input).effect)
  {
    hide CoreInv, IngestInv, BudgetInv, LogInv, ApplyChange;
    SubmitKeeps(cfg, db, e, input);
  }

  lemma DecideOk(cfg: Config, db: Tables, e: Envelope, input: Inputs)
    requires Inv(db) && db.core.program.Some? && e.command.RecordDecision? && IsOwner(db.core, e.principal.id)
    requires DecideMeaning(cfg, db, e, input).Perform?
    ensures EffectOk(db, e.command, DecideMeaning(cfg, db, e, input).effect)
  {
    hide CoreInv, IngestInv, BudgetInv, LogInv, IsOwner;
    DecideKeeps(cfg, db, e, input);
  }

  lemma ApplyOk(cfg: Config, db: Tables, e: Envelope, input: Inputs)
    requires Inv(db) && db.core.program.Some? && e.command.ApplyProposal? && ApplyMeaning(cfg, db, e, input).Perform?
    ensures EffectOk(db, e.command, ApplyMeaning(cfg, db, e, input).effect)
  {
    hide CoreInv, IngestInv, BudgetInv, LogInv, ApplyChange, DecisionRefusal;
    ApplyKeeps(cfg, db, e, input);
  }

  lemma ExpireOk(cfg: Config, db: Tables, e: Envelope, input: Inputs)
    requires Inv(db) && db.core.program.Some? && e.command.ExpireApproval? && ExpireMeaning(cfg, db, e, input).Perform?
    ensures EffectOk(db, e.command, ExpireMeaning(cfg, db, e, input).effect)
  {
    hide CoreInv, IngestInv, BudgetInv, LogInv;
    ExpireKeeps(cfg, db, e, input);
  }

  lemma CreateJobOk(cfg: Config, db: Tables, e: Envelope, input: Inputs)
    requires Inv(db) && db.core.program.Some? && e.command.CreateJob? && CreateJobMeaning(cfg, db, e, input).Perform?
    ensures EffectOk(db, e.command, CreateJobMeaning(cfg, db, e, input).effect)
  {
    hide CoreInv, IngestInv, BudgetInv, LogInv;
    BumpKeeps(db.core);
    CreateJobKeeps(cfg, db, e, input);
  }

  lemma ClaimOk(cfg: Config, db: Tables, e: Envelope, input: Inputs)
    requires Inv(db) && db.core.program.Some? && e.command.ClaimJob? && ClaimMeaning(cfg, db, e, input).Perform?
    ensures EffectOk(db, e.command, ClaimMeaning(cfg, db, e, input).effect)
  {
    hide CoreInv, IngestInv, BudgetInv, LogInv, ClaimBound;
    BumpKeeps(db.core);
    ClaimKeeps(cfg, db, e, input);
  }

  lemma FinalizeOk(cfg: Config, db: Tables, e: Envelope, input: Inputs)
    requires Inv(db) && db.core.program.Some? && e.command.FinalizeJob? && FinalizeMeaning(cfg, db, e, input).Perform?
    ensures EffectOk(db, e.command, FinalizeMeaning(cfg, db, e, input).effect)
  {
    hide CoreInv, IngestInv, BudgetInv, LogInv, ReceiptRefusal;
    BumpKeeps(db.core);
    FinalizeKeeps(cfg, db, e, input);
  }

  lemma RejectJobOk(cfg: Config, db: Tables, e: Envelope, input: Inputs)
    requires Inv(db) && db.core.program.Some? && e.command.RejectJob? && RejectJobMeaning(cfg, db, e, input).Perform?
    ensures EffectOk(db, e.command, RejectJobMeaning(cfg, db, e, input).effect)
  {
    hide CoreInv, IngestInv, BudgetInv, LogInv, RejectionRefusal;
    BumpKeeps(db.core);
    RejectJobKeeps(cfg, db, e, input);
  }

  lemma CreateSnapshotOk(cfg: Config, db: Tables, e: Envelope, input: Inputs)
    requires Inv(db) && db.core.program.Some? && e.command.CreateSnapshot? && CreateSnapshotMeaning(cfg, db, e, input).Perform?
    ensures EffectOk(db, e.command, CreateSnapshotMeaning(cfg, db, e, input).effect)
  {
    hide CoreInv, IngestInv, BudgetInv, LogInv;
    NewSnapshotKeeps(db.budget, input.first, e.command.config);
  }

  lemma ReserveOk(cfg: Config, db: Tables, e: Envelope, input: Inputs)
    requires Inv(db) && db.core.program.Some? && e.command.ReserveBudget? && ReserveMeaning(cfg, db, e, input).Perform?
    ensures EffectOk(db, e.command, ReserveMeaning(cfg, db, e, input).effect)
  {
    hide CoreInv, IngestInv, BudgetInv, LogInv, Violations, CallTaken;
    ReserveKeeps(cfg, db, e, input);
  }

  lemma SettleOk(cfg: Config, db: Tables, e: Envelope, input: Inputs)
    requires Inv(db) && db.core.program.Some? && e.command.SettleBudget? && SettleMeaning(cfg, db, e, input).Perform?
    ensures EffectOk(db, e.command, SettleMeaning(cfg, db, e, input).effect)
  {
    hide CoreInv, IngestInv, BudgetInv, LogInv, SettleRefusal;
    SettleKeeps(cfg, db, e, input);
  }

  lemma AdmittedFacts(core: Core, e: Envelope)
    requires Admit(core, e).None?
    ensures e.command.CreateProgram? ==> WellFormed(e.command.plan)
    ensures e.command.RecordDecision? ==> IsOwner(core, e.principal.id)
  {
  }

  /** Every effect of an admitted command keeps the invariant. */
  lemma MeaningOk(cfg: Config, db: Tables, e: Envelope, input: Inputs)
    requires Inv(db) && Admit(db.core, e).None? && (e.command.CreateProgram? || db.core.program.Some?)
    requires Meaning(cfg, db, e, input).Perform?
    ensures EffectOk(db, e.command, Meaning(cfg, db, e, input).effect)
  {
    AdmittedFacts(db.core, e);
    hide Inv, EffectOk, Admit, WellFormed, IsOwner;
    hide CreateProgramMeaning, SubmitMeaning, DecideMeaning, ApplyMeaning, ExpireMeaning, CreateJobMeaning, ClaimMeaning,
      FinalizeMeaning, RejectJobMeaning, CreateSnapshotMeaning, ReserveMeaning, SettleMeaning;
    match e.command
    case CreateProgram(_, _) => CreateOk(cfg, db, e, input);
    case SubmitProposal(_, _, _) => SubmitOk(cfg, db, e, input);
    case RecordDecision(_, _, _, _) => DecideOk(cfg, db, e, input);
    case ApplyProposal(_, _, _, _) => ApplyOk(cfg, db, e, input);
    case ExpireApproval(_, _) => ExpireOk(cfg, db, e, input);
    case CreateJob(_) => CreateJobOk(cfg, db, e, input);
    case ClaimJob(_, _, _) => ClaimOk(cfg, db, e, input);
    case FinalizeJob(_, _, _) => FinalizeOk(cfg, db, e, input);
    case RejectJob(_, _, _) => RejectJobOk(cfg, db, e, input);
    case CreateSnapshot(_) => CreateSnapshotOk(cfg, db, e, input);
    case ReserveBudget(_) => ReserveOk(cfg, db, e, input);
    case SettleBudget(_) => SettleOk(cfg, db, e, input);
  }

  predicate FreshKey(log: Log, e: Envelope) {
    e.commandId !in log.receipts && forall c :: c in log.receipts ==> log.receipts[c].key != e.key
  }

  lemma RefusingKeeps(db: Tables, e: Envelope, r: Rejection)
    requires Inv(db) && db.core.program.Some? && FreshKey(db.log, e) && r.code != TransactionAborted
    ensures Inv(Refusing(db, e, r).db)
  {
    hide CoreInv, IngestInv, BudgetInv, LogInv;
    var receipt := Refusing(db, e, r).db.log.receipts[e.commandId];
    RefusalKeepsLog(db.log, VersionNo(db.core), e.commandId, receipt);
  }

  lemma CommittingKeeps(db: Tables, e: Envelope, input: Inputs, f: Effect)
    requires Inv(db) && FreshKey(db.log, e) && EffectOk(db, e.command, f)
    ensures Inv(Committing(db, e, input, f).db)
  {
    hide CoreInv, IngestInv, BudgetInv, LogInv, EventIds, OutboxIds, IsM4Topic, IsM4;
    if input.event !in EventIds(db.log.events) && input.outboxEvent !in OutboxIds(db.log.outbox) {
      var n := Committing(db, e, input, f).db;
      var ev, o := n.log.events[|db.log.events|], n.log.outbox[|db.log.outbox|];
      CommitKeepsLog(db.log, VersionNo(db.core), n.log.receipts[e.commandId], ev, o);
      OutboxPutKeeps(Ingest(f.ingest.jobs, f.ingest.receipts, f.ingest.items), db.log.outbox, o);
    }
  }

  lemma ExecuteKeeps(cfg: Config, db: Tables, e: Envelope, input: Inputs)
    requires Inv(db) && Admit(db.core, e).None? && (e.command.CreateProgram? || db.core.program.Some?)
    requires forall c :: c in db.log.receipts ==> db.log.receipts[c].key != e.key
    ensures Inv(Execute(cfg, db, e, input).db)
  {
    hide Inv, EffectOk, Admit, Committing, Refusing, VersionRefusal;
    if e.commandId !in db.log.receipts {
      var m := Meaning(cfg, db, e, input);
      if m.Perform? {
        MeaningOk(cfg, db, e, input);
        hide Meaning;
        CommittingKeepsIt(db, e, input, m.effect);
      }
      if db.core.program.Some? {
        var ruling := RulingOf(cfg, db, e, input);
        if ruling.Refuse? {
          RefusalsAreBusiness(cfg, db, e, input);
          RefusingKeeps(db, e, ruling.rejection);
        }
      } else {
        CreateNeverRefuses(cfg, db, e, input);
      }
    }
  }

  /** Whatever a command is refused for, it is never an aborted transaction. */
  lemma RefusalsAreBusiness(cfg: Config, db: Tables, e: Envelope, input: Inputs)
    requires e.command.CreateProgram? || db.core.program.Some?
    requires RulingOf(cfg, db, e, input).Refuse?
    ensures RulingOf(cfg, db, e, input).rejection.code != TransactionAborted
  {
    hide Violations, CallTaken, ClaimBound, Exceeds, SettledRow, WithMembers;
  }

  lemma CreateNeverRefuses(cfg: Config, db: Tables, e: Envelope, input: Inputs)
    requires e.command.CreateProgram?
    ensures !Meaning(cfg, db, e, input).Refuse?
  {
  }

  lemma CommittingKeepsIt(db: Tables, e: Envelope, input: Inputs, f: Effect)
    requires Inv(db) && FreshKey(db.log, e) && EffectOk(db, e.command, f)
    ensures f.core.program.Some? && Inv(Committing(db, e, input, f).db)
  {
    CommittingKeeps(db, e, input, f);
  }

  lemma StepKeeps(cfg: Config, db: Tables, e: Envelope, input: Inputs)
    requires Inv(db)
    ensures Inv(Step(cfg, db, e, input).db)
  {
    hide Inv, Admit, Execute;
    if Admit(db.core, e).None? && !KeyTaken(db.log, e.key) && (e.command.CreateProgram? || db.core.program.Some?) {
      ExecuteKeeps(cfg, db, e, input);
    }
  }

  /** Every state that any run of commands reaches satisfies the invariant. */
  lemma {:induction false} RunKeeps(cfg: Config, db: Tables, calls: seq<Call>)
    requires Inv(db)
    ensures Inv(Run(cfg, db, calls))
    decreases |calls|
  {
    hide Inv, Step;
    if calls != [] {
      var front, last := calls[..|calls| - 1], calls[|calls| - 1];
      RunKeeps(cfg, db, front);
      StepKeeps(cfg, Run(cfg, db, front), last.envelope, last.input);
    }
  }
}
