/** The three transaction runners and the dispatcher over them. Together they prove that the
    service, which writes rows first and compares afterwards, answers and stores exactly what the
    atomic meaning of a command says. */
module StateService {
  import opened Base
  import opened Plans
  import opened Tables
  import opened Spec
  import opened StateTransactions
  import opened Refinement
  import opened Runner
  import opened CoreInvariant
  import opened LogInvariant
  import opened IngestInvariant
  import opened BudgetInvariant
  import opened Invariant
  import opened Answers
  import M2Service
  import M3Service
  import M4Service

  /** What an admitted command has to come to. */
  ghost function Admitted(cfg: Config, db: Tables, e: Envelope, input: Inputs): Outcome
    requires e.command.CreateProgram? || db.core.program.Some?
  {
    var answer := AnswerOf(db, e);
    if answer.Some? then Outcome(db, answer.value) else Conclude(db, e, input, RulingOf(cfg, db, e, input))
  }

  lemma AdmittedIsStep(cfg: Config, db: Tables, e: Envelope, input: Inputs)
    requires Admit(db.core, e).None? && (e.command.CreateProgram? || db.core.program.Some?)
    ensures Admitted(cfg, db, e, input) == Step(cfg, db, e, input)
  {
    hide Admit, Conclude, RulingOf;
  }

  // ---------- M2 ----------

  method AddMembers(tx: StateTransaction, owner: string, bootstrap: seq<(string, Member)>) returns (r: Result<(), Raise>)
    modifies tx
    ensures
      var members := WithMembers(old(tx.db).core.members, owner, bootstrap);
      if members.Some? then r == Ok(()) && tx.db == old(tx.db).(core := old(tx.db).core.(members := members.value))
      else r == Err(Integrity)
  {
    ghost var before := tx.db;
    for i := 0 to |bootstrap|
      invariant tx.db == before.(core := before.core.(members := tx.db.core.members))
      invariant WithMembers(tx.db.core.members, owner, bootstrap[i..]) == WithMembers(before.core.members, owner, bootstrap)
    {
      assert bootstrap[i..][0] == bootstrap[i] && bootstrap[i..][1..] == bootstrap[i + 1..];
      if bootstrap[i].0 != owner {
        var _ :- tx.AddMember(bootstrap[i].0, bootstrap[i].1);
      }
    }
    return Ok(());
  }

  method CreateProgram(tx: StateTransaction, cfg: Config, e: Envelope, input: Inputs, ghost before: Tables)
    returns (r: Result<CommandResult, Raise>)
    requires e.command.CreateProgram? && WellFormed(e.command.plan)
    requires before.core.program.None? ==> before == EmptyTables
    requires tx.db == ReservedDb(before, e)
    modifies tx
    ensures Refines(before, CreateProgramMeaning(cfg, before, e, input), e, input, tx.db, r)
  {
    hide UniqueKeys, UniqueOrders, Committing, OneEventLog, IdsCollide, WithMembers;
    var c, owner := e.command, e.principal.id;
    var _ :- tx.InsertProgram(Program(owner, 0, None, c.allowReorder));
    var done := tx.AddMember(owner, Member(User, Owner));
    if done.Err? { assert false; }  // a Program without a row has no members and no plans
    var _ :- AddMembers(tx, owner, cfg.bootstrap);
    var plan := PlanVersion(1, None, None, None, None, BootstrapRisk, c.plan, Sha256OfPlan(c.plan), None, None, None, owner);
    done := tx.InsertPlanVersion(input.first, plan);
    if done.Err? { assert false; }
    done := tx.InsertTasks(input.first, TaskRows(c.plan));
    if done.Err? { assert false; }
    var body := ProgramCreated(input.first);
    var version :- CommitOne(tx, e, input, 0, Some(input.first), ProgramCreatedTopic, body);
    CommittingIsOneEvent(before, e, input, CreateProgramMeaning(cfg, before, e, input).effect);
    return Ok(CommittedResult(e, version, body));
  }

  method RunCreateProgram(tx: StateTransaction, cfg: Config, e: Envelope, input: Inputs) returns (result: CommandResult)
    requires e.command.CreateProgram? && WellFormed(e.command.plan)
    requires ReceiptsFinal(tx.db.log.receipts) && (tx.db.core.program.None? ==> tx.db == EmptyTables)
    modifies tx
    ensures Outcome(tx.db, result) == Admitted(cfg, old(tx.db), e, input)
  {
    hide WellFormed, ReceiptsFinal, CreateProgramMeaning, Conclude, Refines;
    var saved := tx.db;
    var begun := Begin(tx, e);
    if begun.Answered? { return begun.result; }
    var r := CreateProgram(tx, cfg, e, input, saved);
    ghost var left := tx.db;
    result := Finish(tx, e, saved, r);
    FinishConcludes(saved, RulingOf(cfg, saved, e, input), e, input, left, r, Outcome(tx.db, result));
  }

  predicate IsExisting(c: Command) {
    c.SubmitProposal? || c.RecordDecision? || c.ApplyProposal? || c.ExpireApproval?
  }

  method RunOperation(tx: StateTransaction, cfg: Config, e: Envelope, input: Inputs, ghost before: Tables)
    returns (r: Result<CommandResult, Raise>)
    requires IsExisting(e.command) && M2Service.Opened(tx.db, e, before)
    modifies tx
    ensures Refines(before, Meaning(cfg, before, e, input), e, input, tx.db, r)
  {
    hide M2Service.Opened, Refines, SubmitMeaning, DecideMeaning, ApplyMeaning, ExpireMeaning;
    match e.command {
      case SubmitProposal(_, _, _) => r := M2Service.SubmitProposal(tx, cfg, e, input, before);
      case RecordDecision(_, _, _, _) => r := M2Service.RecordHumanDecision(tx, cfg, e, input, before);
      case ApplyProposal(_, _, _, _) => r := M2Service.ApplyProposal(tx, cfg, e, input, before);
      case ExpireApproval(_, _) => r := M2Service.ExpireApproval(tx, cfg, e, input, before);
    }
  }

  /** Reserve the key, then lock the row and compare its version, then run the operation. */
  method RunExistingProgramCommand(tx: StateTransaction, cfg: Config, e: Envelope, input: Inputs)
    returns (result: CommandResult)
    requires IsExisting(e.command) && tx.db.core.program.Some?
    requires ReceiptsFinal(tx.db.log.receipts) && CoreInv(tx.db.core)
    modifies tx
    ensures Outcome(tx.db, result) == Admitted(cfg, old(tx.db), e, input)
  {
    hide ReceiptsFinal, CoreInv, Meaning, Conclude;
    var saved := tx.db;
    var begun := Begin(tx, e);
    if begun.Answered? { return begun.result; }
    var locked := tx.LockProgram(Expected(e.command));
    var r: Result<CommandResult, Raise>;
    if locked.Err? {
      r := Err(locked.error);
    } else {
      hide Refines;
      r := RunOperation(tx, cfg, e, input, saved);
    }
    ghost var left := tx.db;
    result := Finish(tx, e, saved, r);
    FinishConcludes(saved, RulingOf(cfg, saved, e, input), e, input, left, r, Outcome(tx.db, result));
  }

  // ---------- M3 ----------

  predicate IsM3(c: Command) {
    c.CreateJob? || c.ClaimJob? || c.FinalizeJob? || c.RejectJob?
  }

  ghost predicate RequestsHaveEvents(log: Log) {
    forall o :: o in log.outbox && o.topic == IngestRequestedTopic ==> IsRequestEvent(log.events, o.domainEvent)
  }

  /** Every announced request is joined with its domain event. */
  lemma OutboxRowsHaveEvents(log: Log)
    requires OutboxMirrors(log.events, log.outbox)
    ensures RequestsHaveEvents(log)
  {
    forall o | o in log.outbox && o.topic == IngestRequestedTopic ensures IsRequestEvent(log.events, o.domainEvent) {
      var i :| 0 <= i < |log.outbox| && log.outbox[i] == o;
      assert Mirrors(log.outbox[i], log.events[i]);
    }
  }

  method RunM3Operation(tx: StateTransaction, cfg: Config, e: Envelope, input: Inputs, ghost before: Tables)
    returns (r: Result<M3Service.Mutation, Raise>)
    requires IsM3(e.command) && M3Service.Opened(tx.db, e, before) && RequestsHaveEvents(before.log)
    modifies tx
    ensures M3Service.Mutates(before, Meaning(cfg, before, e, input), e, tx.db, r)
  {
    hide M3Service.Opened, M3Service.Mutates, CreateJobMeaning, ClaimMeaning, FinalizeMeaning, RejectJobMeaning;
    match e.command {
      case CreateJob(_) => r := M3Service.CreateIngestJob(tx, cfg, e, input, before);
      case ClaimJob(_, _, _) => r := M3Service.ClaimIngestJob(tx, cfg, e, input, before);
      case FinalizeJob(_, _, _) => r := M3Service.FinalizeIngestJob(tx, cfg, e, input, before);
      case RejectJob(_, _, _) => r := M3Service.RejectIngestJob(tx, cfg, e, input, before);
    }
  }

  /** Commit what an M3 operation wrote, against the version it observed. */
  method CommitM3(tx: StateTransaction, e: Envelope, input: Inputs, m: M3Service.Mutation, ghost before: Tables,
          ghost f: Effect)
    returns (r: Result<CommandResult, Raise>)
    requires M3Service.Mutates(before, Perform(f), e, tx.db, Ok(m))
    modifies tx
    ensures Refines(before, Perform(f), e, input, tx.db, r)
  {
    hide Committing, OneEventLog, IdsCollide;
    var observed := tx.db.core.program.value.stateVersion;
    var version :- CommitOne(tx, e, input, observed, None, m.topic, m.body);
    CommittingIsOneEvent(before, e, input, f);
    return Ok(CommittedResult(e, version, m.body));
  }

  method RunM3ProgramCommand(tx: StateTransaction, cfg: Config, e: Envelope, input: Inputs) returns (result: CommandResult)
    requires IsM3(e.command) && tx.db.core.program.Some?
    requires ReceiptsFinal(tx.db.log.receipts) && IngestInv(tx.db.ingest, tx.db.log.outbox) && RequestsHaveEvents(tx.db.log)
    modifies tx
    ensures Outcome(tx.db, result) == Admitted(cfg, old(tx.db), e, input)
  {
    hide ReceiptsFinal, IngestInv, RequestsHaveEvents, Meaning, Conclude, Refines, Committing;
    var saved := tx.db;
    var locked := tx.LockProgram(None);
    var begun := Begin(tx, e);
    if begun.Answered? { return begun.result; }
    ghost var ruling := Meaning(cfg, saved, e, input);
    var mutation := RunM3Operation(tx, cfg, e, input, saved);
    var r: Result<CommandResult, Raise>;
    if mutation.Ok? {
      r := CommitM3(tx, e, input, mutation.value, saved, ruling.effect);
    } else {
      r := Err(mutation.error);
      RaisedIsRefined3(saved, ruling, e, input, tx.db, mutation);
    }
    ghost var left := tx.db;
    result := Finish(tx, e, saved, r);
    FinishConcludes(saved, ruling, e, input, left, r, Outcome(tx.db, result));
  }

  lemma RaisedIsRefined3(before: Tables, ruling: Ruling, e: Envelope, input: Inputs, after: Tables,
          r: Result<M3Service.Mutation, Raise>)
    requires M3Service.Mutates(before, ruling, e, after, r) && r.Err?
    ensures Refines(before, ruling, e, input, after, Err(r.error))
  {
  }

  // ---------- M4 ----------

  method RunM4Operation(tx: StateTransaction, cfg: Config, e: Envelope, input: Inputs, ghost before: Tables)
    returns (r: Result<M4Service.Mutation, Raise>)
    requires IsM4(e.command) && M4Service.Opened(tx.db, e, before)
    modifies tx
    ensures M4Service.Mutates(before, Meaning(cfg, before, e, input), e, tx.db, r)
  {
    hide M4Service.Opened, M4Service.Mutates, CreateSnapshotMeaning, ReserveMeaning, SettleMeaning;
    match e.command {
      case CreateSnapshot(_) => r := M4Service.CreateRuntimeConfigSnapshot(tx, cfg, e, input, before);
      case ReserveBudget(_) => r := M4Service.ReserveModelBudget(tx, cfg, e, input, before);
      case SettleBudget(_) => r := M4Service.SettleModelBudget(tx, cfg, e, input, before);
    }
  }

  /** Commit what an M4 operation wrote: the Program row keeps its version. */
  method CommitM4(tx: StateTransaction, e: Envelope, input: Inputs, m: M4Service.Mutation, ghost before: Tables,
          ghost f: Effect)
    returns (r: Result<CommandResult, Raise>)
    requires before.core.program.Some? && M4Service.Mutates(before, Perform(f), e, tx.db, Ok(m))
    modifies tx
    ensures Refines(before, Perform(f), e, input, tx.db, r)
  {
    hide Committing, EventIds, OutboxIds;
    var observed := tx.db.core.program.value.stateVersion;
    var event := NewEvent(input.event, m.topic, m.body);
    var outbox := NewOutbox(input.outboxEvent, input.event, m.aggregate, m.topic, m.body);
    var version :- tx.CommitAuxiliaryChange(e.commandId, observed, m.body, event, outbox, m.aggregateVersion);
    CommittingIsOneEvent(before, e, input, f);
    return Ok(CommittedResult(e, version, m.body));
  }

  method RunM4ProgramCommand(tx: StateTransaction, cfg: Config, e: Envelope, input: Inputs) returns (result: CommandResult)
    requires IsM4(e.command) && tx.db.core.program.Some?
    requires ReceiptsFinal(tx.db.log.receipts) && BudgetInv(tx.db.budget)
    modifies tx
    ensures Outcome(tx.db, result) == Admitted(cfg, old(tx.db), e, input)
  {
    hide ReceiptsFinal, BudgetInv, Meaning, Conclude, Refines, Committing;
    var saved := tx.db;
    var locked := tx.LockProgram(None);
    var begun := Begin(tx, e);
    if begun.Answered? { return begun.result; }
    ghost var ruling := Meaning(cfg, saved, e, input);
    var mutation := RunM4Operation(tx, cfg, e, input, saved);
    var r: Result<CommandResult, Raise>;
    if mutation.Ok? {
      r := CommitM4(tx, e, input, mutation.value, saved, ruling.effect);
    } else {
      r := Err(mutation.error);
      RaisedIsRefined4(saved, ruling, e, input, tx.db, mutation);
    }
    ghost var left := tx.db;
    result := Finish(tx, e, saved, r);
    FinishConcludes(saved, ruling, e, input, left, r, Outcome(tx.db, result));
  }

  lemma RaisedIsRefined4(before: Tables, ruling: Ruling, e: Envelope, input: Inputs, after: Tables,
          r: Result<M4Service.Mutation, Raise>)
    requires M4Service.Mutates(before, ruling, e, after, r) && r.Err?
    ensures Refines(before, ruling, e, input, after, Err(r.error))
  {
  }

  // ---------- dispatch ----------

  lemma InvParts(db: Tables)
    requires Inv(db)
    ensures db.core.program.None? ==> db == EmptyTables
    ensures CoreInv(db.core) && BudgetInv(db.budget) && IngestInv(db.ingest, db.log.outbox)
    ensures ReceiptsFinal(db.log.receipts) && RequestsHaveEvents(db.log)
  {
    hide CoreInv, BudgetInv, IngestInv, VersionsInOrder, EventsMatchReceipts;
    OutboxRowsHaveEvents(db.log);
  }

  /** In a state that commands can reach, the service does exactly what the atomic meaning says. */
  method Dispatch(tx: StateTransaction, cfg: Config, e: Envelope, input: Inputs) returns (result: CommandResult)
    requires Inv(tx.db)
    modifies tx
    ensures Outcome(tx.db, result) == Step(cfg, old(tx.db), e, input)
    ensures Inv(tx.db)
    ensures result.status == REJECTED ==> SameButReceipts(old(tx.db), tx.db)
    ensures result.reason != TransactionAborted
  {
    hide Inv, SameButReceipts, Admitted, CoreInv, BudgetInv, IngestInv, ReceiptsFinal, RequestsHaveEvents, Step;
    StepKeeps(cfg, tx.db, e, input);
    InvParts(tx.db);
    DeniedIsStep(cfg, tx.db, e, input);
    StepNeverAborts(cfg, tx.db, e, input);
    if Step(cfg, tx.db, e, input).result.status == REJECTED { RejectionIsAtomic(cfg, tx.db, e, input); }
    var denied := Admit(tx.db.core, e);
    if denied.Some? { return RefusedResult(e.commandId, denied.value, None); }
    ProgramOfMember(tx.db, e);
    AdmittedIsStep(cfg, tx.db, e, input);
    hide Admit;
    if e.command.CreateProgram? {
      result := RunCreateProgram(tx, cfg, e, input);
    } else if IsM4(e.command) {
      result := RunM4ProgramCommand(tx, cfg, e, input);
    } else if IsM3(e.command) {
      result := RunM3ProgramCommand(tx, cfg, e, input);
    } else {
      result := RunExistingProgramCommand(tx, cfg, e, input);
    }
  }

  lemma ReplayNeverAborts(log: Log, key: string)
    requires ReceiptsFinal(log.receipts) && KeyTaken(log, key)
    ensures ReplayOf(ReceiptOf(log, key), log.receipts[ReceiptOf(log, key)]).reason != TransactionAborted
  {
  }

  lemma AdmitNeverAborts(core: Core, e: Envelope)
    ensures Admit(core, e).Some? ==> Admit(core, e).value.code != TransactionAborted
  {
    hide WellFormed, EntryAllowed, RoleAllowed;
  }

  lemma ConcludeNeverAborts(db: Tables, e: Envelope, input: Inputs, ruling: Ruling)
    requires ruling.Refuse? ==> ruling.rejection.code != TransactionAborted
    ensures Conclude(db, e, input, ruling).result.reason != TransactionAborted
  {
    hide EventIds, OutboxIds;
  }

  lemma ExecuteNeverAborts(cfg: Config, db: Tables, e: Envelope, input: Inputs)
    requires e.command.CreateProgram? || db.core.program.Some?
    ensures Execute(cfg, db, e, input).result.reason != TransactionAborted
  {
    hide RulingOf, Conclude;
    if RulingOf(cfg, db, e, input).Refuse? { RefusalsAreBusiness(cfg, db, e, input); }
    ConcludeNeverAborts(db, e, input, RulingOf(cfg, db, e, input));
  }

  /** The atomic meaning never answers an aborted transaction; as the service is proved equal to it, no
      failed guarded update ever reaches a caller. */
  lemma StepNeverAborts(cfg: Config, db: Tables, e: Envelope, input: Inputs)
    requires Inv(db)
    ensures Step(cfg, db, e, input).result.reason != TransactionAborted
  {
    hide Inv, Admit, Execute, ReceiptsFinal, KeyTaken, ReceiptOf, ReplayOf, HashOf, CoreInv, BudgetInv, IngestInv, RequestsHaveEvents;
    AdmitNeverAborts(db.core, e);
    InvParts(db);
    if KeyTaken(db.log, e.key) { ReplayNeverAborts(db.log, e.key); }
    if e.command.CreateProgram? || db.core.program.Some? { ExecuteNeverAborts(cfg, db, e, input); }
  }

  lemma DeniedIsStep(cfg: Config, db: Tables, e: Envelope, input: Inputs)
    ensures Admit(db.core, e).Some? ==>
      Step(cfg, db, e, input) == Outcome(db, RefusedResult(e.commandId, Admit(db.core, e).value, None))
  {
  }

  /** A caller who is a member has a Program: a missing row is never found after admission. */
  lemma ProgramOfMember(db: Tables, e: Envelope)
    requires db.core.program.None? ==> db == EmptyTables
    requires Admit(db.core, e).None?
    ensures e.command.CreateProgram? ==> WellFormed(e.command.plan)
    ensures !e.command.CreateProgram? ==> db.core.program.Some?
  {
    hide WellFormed;
  }
}
