/** How one step ends, by what the rows say. */
module Outcomes {
  import opened Base
  import Plans
  import opened Tables
  import opened Spec
  import opened Reasons

  /** Each command: refused with the first missing fact, taken when nothing is missing, and stopped by a
      constraint exactly when a row is there already. */
  lemma MeaningIsExact(cfg: Config, db: Tables, e: Envelope, input: Inputs)
    requires (e.command.CreateProgram? || db.core.program.Some?) && KeysUnique(db.core)
    ensures
      match Meaning(cfg, db, e, input)
      case Refuse(r) => Cannot(cfg, db, e, input, r)
      case Abort => Can(cfg, db, e, input) && !NamesNew(cfg, db, e, input)
      case Perform(_) => Can(cfg, db, e, input) && NamesNew(cfg, db, e, input)
  {
    hide CreateProgramMeaning, SubmitMeaning, DecideMeaning, ApplyMeaning, ExpireMeaning, ClaimMeaning,
      FinalizeMeaning, RejectJobMeaning, ReserveMeaning, SettleMeaning, KeysUnique;
    hide CanSubmit, CanDecide, CanApply, CanExpire, CanClaim, CanFinalize, CanReject, CanReserve, CanSettle,
      CannotSubmit, CannotDecide, CannotApply, CannotExpire, CannotClaim, CannotFinalize, CannotReject, CannotReserve, CannotSettle;
    match e.command
    case CreateProgram(_, _) => CreateIsExact(cfg, db, e, input);
    case SubmitProposal(_, _, _) => SubmitIsExact(cfg, db, e, input);
    case RecordDecision(_, _, _, _) => DecideIsExact(cfg, db, e, input);
    case ApplyProposal(_, _, _, _) => ApplyIsExact(cfg, db, e, input);
    case ExpireApproval(_, _) => ExpireIsExact(cfg, db, e, input);
    case CreateJob(_) =>
    case ClaimJob(_, _, _) => ClaimIsExact(cfg, db, e, input);
    case FinalizeJob(_, _, _) => FinalizeIsExact(cfg, db, e, input);
    case RejectJob(_, _, _) => RejectJobIsExact(cfg, db, e, input);
    case CreateSnapshot(_) =>
    case ReserveBudget(_) => ReserveIsExact(cfg, db, e, input);
    case SettleBudget(_) => SettleIsExact(cfg, db, e, input);
  }

  /** The two readings exclude each other, so a refusal is never given when nothing is missing. */
  lemma NeverBoth(cfg: Config, db: Tables, e: Envelope, input: Inputs, r: Rejection)
    requires e.command.CreateProgram? || db.core.program.Some?
    ensures !(Can(cfg, db, e, input) && Cannot(cfg, db, e, input, r))
  {
  }

  lemma RulingIsExact(cfg: Config, db: Tables, e: Envelope, input: Inputs)
    requires (e.command.CreateProgram? || db.core.program.Some?) && KeysUnique(db.core)
    ensures RulingTold(cfg, db, e, input, RulingOf(cfg, db, e, input))
  {
    hide Can, Cannot, NamesNew, KeysUnique;
    MeaningIsExact(cfg, db, e, input);
    if Meaning(cfg, db, e, input).Perform? { ProgramStays(cfg, db, e, input); }
    hide Meaning;
  }

  lemma ProgramStays(cfg: Config, db: Tables, e: Envelope, input: Inputs)
    requires (e.command.CreateProgram? || db.core.program.Some?) && Meaning(cfg, db, e, input).Perform?
    ensures Meaning(cfg, db, e, input).effect.core.program.Some?
  {
    hide ApplyRefusal, Plans.ApplyChange, ReceiptRefusal, RejectionRefusal, Violations, SettleRefusal, WithMembers, CallTaken, ClaimBound,
      Plans.TaskRows, ItemFor, SettledRow, NewPlanVersion, ProposedContent, ReleasedBy, Exceeds;
  }

  lemma LogNames(log: Log, e: Envelope, input: Inputs)
    ensures LogNamesNew(log, e, input) <==>
      e.commandId !in log.receipts && input.event !in EventIds(log.events) && input.outboxEvent !in OutboxIds(log.outbox)
  {
    forall i | 0 <= i < |log.events| ensures log.events[i].id in EventIds(log.events) {
      assert log.events[i] in log.events;
    }
    forall i | 0 <= i < |log.outbox| ensures log.outbox[i].id in OutboxIds(log.outbox) {
      assert log.outbox[i] in log.outbox;
    }
  }

  /** What a settlement needs to be carried out. */
  lemma SettlementCommitsIf(cfg: Config, db: Tables, e: Envelope, input: Inputs)
    requires e.command.SettleBudget? && db.core.program.Some?
    requires Admitted(db.core, e) && KeyIsNew(db.log, e) && Current(db.core, e.command) && LogNamesNew(db.log, e, input)
    requires CanSettle(e, db.budget, e.command.usage) && UsageLedgerOf(e.command.usage.receiptId) !in db.budget.ledger
    ensures CommitsNow(cfg, db, e, input)
  {
    hide Admitted, KeyIsNew, Current, LogNamesNew, CanSettle;
  }

  lemma ExecuteIsExact(cfg: Config, db: Tables, e: Envelope, input: Inputs)
    requires (e.command.CreateProgram? || db.core.program.Some?) && KeysUnique(db.core) && Admitted(db.core, e) && KeyIsNew(db.log, e)
    ensures
      var o := Execute(cfg, db, e, input);
      && !o.result.replayed
      && (if o.result.status == COMMITTED then CommitsNow(cfg, db, e, input) else RefusalTold(cfg, db, e, input, o))
  {
    hide Admitted, KeyIsNew, Can, Cannot, NamesNew, KeysUnique, RulingOf, EventIds, OutboxIds, Current, LogNamesNew;
    LogNames(db.log, e, input);
    RulingIsExact(cfg, db, e, input);
    if e.commandId !in db.log.receipts && RulingOf(cfg, db, e, input).Refuse? {
      assert e.commandId in Execute(cfg, db, e, input).db.log.receipts;
    }
  }

  lemma ReadyCommits(cfg: Config, db: Tables, e: Envelope, input: Inputs)
    requires (e.command.CreateProgram? || db.core.program.Some?) && KeysUnique(db.core)
    ensures CommitsNow(cfg, db, e, input) ==> Execute(cfg, db, e, input).result.status == COMMITTED
  {
    hide Can, Cannot, NamesNew, KeysUnique, RulingOf, EventIds, OutboxIds, Current, LogNamesNew, Admitted;
    LogNames(db.log, e, input);
    RulingIsExact(cfg, db, e, input);
    if CommitsNow(cfg, db, e, input) && RulingOf(cfg, db, e, input).Refuse? {
      NeverBoth(cfg, db, e, input, RulingOf(cfg, db, e, input).rejection);
    }
  }

  /** One step, by what the rows say: a command is carried out exactly when nothing is missing and every
      identifier is new. Otherwise it is answered from its receipt, or refused with the first fact that is
      missing - on record when the rows were looked at, without a trace when they were not. */
  lemma StepsFollowTheRows(cfg: Config, db: Tables, e: Envelope, input: Inputs)
    requires KeysUnique(db.core)
    ensures
      var o := Step(cfg, db, e, input);
      && (Commits(cfg, db, e, input) <==> CommitsNow(cfg, db, e, input))
      && (!Commits(cfg, db, e, input) ==>
            if o.result.replayed then o.db == db && IsReplay(db, e) else RefusalTold(cfg, db, e, input, o))
  {
    hide Can, Cannot, NamesNew, KeysUnique, LogNamesNew, Execute, Admit, Admitted, NotAdmitted, Current;
    AdmissionIsExact(db.core, e);
    assert KeyIsNew(db.log, e) <==> !KeyTaken(db.log, e.key);
    if Admitted(db.core, e) && KeyIsNew(db.log, e) && (e.command.CreateProgram? || db.core.program.Some?) {
      ExecuteIsExact(cfg, db, e, input);
      ReadyCommits(cfg, db, e, input);
    }
  }
}
