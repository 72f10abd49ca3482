/** What a caller may rely on: a rejection changed nothing, and a command takes effect exactly once. */
module Answers {
  import opened Base
  import opened Tables
  import opened Spec
  import opened LogInvariant
  import opened Invariant
  import opened Growth

  /** Everything but the command receipts. */
  predicate SameButReceipts(db: Tables, later: Tables) {
    && later.core == db.core && later.ingest == db.ingest && later.budget == db.budget
    && later.log.events == db.log.events && later.log.outbox == db.log.outbox
  }

  predicate AddedRejection(db: Tables, later: Tables, e: Envelope, r: CommandResult) {
    && e.commandId !in db.log.receipts && e.commandId in later.log.receipts
    && later.log.receipts == db.log.receipts[e.commandId := later.log.receipts[e.commandId]]
    && var row := later.log.receipts[e.commandId];
    && row.status == RejectedReceipt && row.key == e.key && row.hash == Sha256OfRequest(e.program, e.channel, e.principal, e.command)
    && row.reason == r.reason && row.body == r.body && row.after == r.stateVersion
    && (db.core.program.Some? ==> r.stateVersion == Some(db.core.program.value.stateVersion))
    && row.before == ReadAt(db.core, e.command)
  }

  /** The version that a command says it has read; the service's own for commands that name none. */
  function ReadAt(core: Core, c: Command): Option<nat> {
    match c
    case CreateProgram(_, _) => None
    case SubmitProposal(expected, _, _) => Some(expected)
    case RecordDecision(expected, _, _, _) => Some(expected)
    case ApplyProposal(expected, _, _, _) => Some(expected)
    case ExpireApproval(expected, _) => Some(expected)
    case _ => if core.program.Some? then Some(core.program.value.stateVersion) else None
  }

  /** A rejected command leaves plans, proposals, approvals, decisions, jobs, evidence, budget rows,
      events and the version as they were, and adds at most its own rejected receipt. */
  lemma RejectionIsAtomic(cfg: Config, db: Tables, e: Envelope, input: Inputs)
    requires Step(cfg, db, e, input).result.status == REJECTED
    ensures SameButReceipts(db, Step(cfg, db, e, input).db)
    ensures Step(cfg, db, e, input).db == db || AddedRejection(db, Step(cfg, db, e, input).db, e, Step(cfg, db, e, input).result)
  {
    hide Admit, Meaning, VersionRefusal, EventIds, OutboxIds;
  }

  /** A command that commits now adds one receipt, one event and one outbox row. */
  lemma CommitAddsOneOfEach(cfg: Config, db: Tables, e: Envelope, input: Inputs)
    requires Step(cfg, db, e, input).result.status == COMMITTED && !Step(cfg, db, e, input).result.replayed
    ensures
      var o := Step(cfg, db, e, input);
      && e.commandId !in db.log.receipts && !KeyTaken(db.log, e.key)
      && e.commandId in o.db.log.receipts && o.db.log.receipts[e.commandId].status == CommittedReceipt
      && o.db.log.receipts.Keys == db.log.receipts.Keys + {e.commandId}
      && |o.db.log.events| == |db.log.events| + 1 && |o.db.log.outbox| == |db.log.outbox| + 1
      && o.db.log.events[|db.log.events|].command == e.commandId
      && o.db.log.outbox[|db.log.outbox|].domainEvent == o.db.log.events[|db.log.events|].id
  {
    hide Admit, Meaning, VersionRefusal, EventIds, OutboxIds;
  }

  // ---------- exactly once ----------

  /** Each key belongs to at most one receipt, and none is left in progress. */
  lemma {:induction false} OneReceiptPerKey(cfg: Config, calls: seq<Call>)
    ensures ReceiptsFinal(Run(cfg, EmptyTables, calls).log.receipts)
  {
    EmptyInv();
    RunKeeps(cfg, EmptyTables, calls);
    hide Run;
  }

  /** The command was carried out, or refused for the record, by this step. */
  ghost predicate Finalises(cfg: Config, db: Tables, e: Envelope, input: Inputs) {
    !KeyTaken(db.log, e.key) && KeyTaken(Step(cfg, db, e, input).db.log, e.key)
  }

  lemma FinalReceipt(cfg: Config, db: Tables, e: Envelope, input: Inputs)
    requires Finalises(cfg, db, e, input)
    ensures
      var o := Step(cfg, db, e, input);
      && Admit(db.core, e).None? && (e.command.CreateProgram? || db.core.program.Some?)
      && e.commandId in o.db.log.receipts
      && o.db.log.receipts[e.commandId].key == e.key && o.db.log.receipts[e.commandId].hash == HashOf(e)
      && ReplayOf(e.commandId, o.db.log.receipts[e.commandId]) == o.result.(replayed := true)
  {
    hide Admit, Meaning, VersionRefusal, EventIds, OutboxIds;
  }

  lemma SameAdmission(core: Core, later: Core, e: Envelope, again: Envelope)
    requires HashOf(again) == HashOf(e)
    requires e.command.CreateProgram? || (core.program.Some? && ProgramMoves(core, later))
    ensures Admit(later, again) == Admit(core, e)
  {
    hide Plans.WellFormed;
  }

  lemma TheReceipt(log: Log, c: Uuid)
    requires ReceiptsFinal(log.receipts) && c in log.receipts
    ensures KeyTaken(log, log.receipts[c].key) && ReceiptOf(log, log.receipts[c].key) == c
  {
  }

  /** Everything that makes two requests the same: not the command ID, but who asks for what, where and how. */
  predicate SameContent(a: Envelope, b: Envelope) {
    a.program == b.program && a.channel == b.channel && a.principal == b.principal && a.command == b.command
  }

  lemma DigestTellsContent(a: Envelope, b: Envelope)
    ensures HashOf(a) == HashOf(b) <==> SameContent(a, b)
  {
  }

  /** Whatever ran in between, sending an already finalised request again - even under a new command
      ID - changes nothing and returns the recorded answer; the only differences are the replay flag
      and that the original command ID is named. */
  lemma {:induction false} ReplayIsExact(cfg: Config, db: Tables, e: Envelope, input: Inputs, between: seq<Call>,
          again: Envelope, input': Inputs)
    requires Inv(db) && Finalises(cfg, db, e, input)
    requires again.key == e.key && SameContent(again, e)
    ensures
      var later := Run(cfg, Step(cfg, db, e, input).db, between);
      Step(cfg, later, again, input') == Outcome(later, Step(cfg, db, e, input).result.(replayed := true))
  {
    hide Inv, Admit, Run, Execute;
    DigestTellsContent(again, e);
    var o := Step(cfg, db, e, input);
    var later := Run(cfg, o.db, between);
    FinalReceipt(cfg, db, e, input);
    KeptReceipt(cfg, db, e, input, between);
    SameAdmission(db.core, later.core, e, again);
    assert later.log.receipts[e.commandId] == o.db.log.receipts[e.commandId];
  }

  lemma {:induction false} KeptReceipt(cfg: Config, db: Tables, e: Envelope, input: Inputs, between: seq<Call>)
    requires Inv(db) && Finalises(cfg, db, e, input)
    ensures
      var o := Step(cfg, db, e, input);
      var later := Run(cfg, o.db, between);
      && e.commandId in o.db.log.receipts && e.commandId in later.log.receipts
      && later.log.receipts[e.commandId] == o.db.log.receipts[e.commandId]
      && KeyTaken(later.log, e.key) && ReceiptOf(later.log, e.key) == e.commandId
      && ProgramMoves(db.core, later.core)
  {
    hide Inv, Step, Run, Admit, CoreInvariant.CoreInv, IngestGrows, BudgetGrows;
    var o := Step(cfg, db, e, input);
    FinalReceipt(cfg, db, e, input);
    StepKeeps(cfg, db, e, input);
    StepGrows(cfg, db, e, input);
    RunKeeps(cfg, o.db, between);
    RunGrows(cfg, o.db, between);
    FinalReceipts(Run(cfg, o.db, between));
    TheReceipt(Run(cfg, o.db, between).log, e.commandId);
  }

  lemma FinalReceipts(db: Tables)
    requires Inv(db)
    ensures ReceiptsFinal(db.log.receipts)
  {
  }

  /** The same key with different content never takes effect. */
  lemma {:induction false} ReuseIsRejected(cfg: Config, db: Tables, e: Envelope, input: Inputs,
          between: seq<Call>, other: Envelope, input': Inputs)
    requires Inv(db) && Finalises(cfg, db, e, input)
    requires other.key == e.key && !SameContent(other, e)
    ensures
      var later := Run(cfg, Step(cfg, db, e, input).db, between);
      && Step(cfg, later, other, input').db == later
      && Step(cfg, later, other, input').result.status == REJECTED
      && (Admit(later.core, other).None? ==> Step(cfg, later, other, input').result.reason == IdempotencyKeyReused)
  {
    hide Inv, Admit, Run, Execute;
    DigestTellsContent(other, e);
    FinalReceipt(cfg, db, e, input);
    KeptReceipt(cfg, db, e, input, between);
  }

  /** Settling again under the same key with a receipt issued later is a key conflict, not a replay:
      the request digest covers the usage receipt. */
  lemma {:induction false} ResettlingWithAFreshReceiptConflicts(cfg: Config, db: Tables, e: Envelope,
          input: Inputs, between: seq<Call>, again: Envelope, input': Inputs)
    requires Inv(db) && Finalises(cfg, db, e, input) && e.command.SettleBudget? && again.command.SettleBudget?
    requires again.key == e.key && again.command.usage.issuedAt != e.command.usage.issuedAt
    ensures
      var later := Run(cfg, Step(cfg, db, e, input).db, between);
      && Step(cfg, later, again, input').db == later
      && Step(cfg, later, again, input').result.status == REJECTED
  {
    ReuseIsRejected(cfg, db, e, input, between, again, input');
  }
}
