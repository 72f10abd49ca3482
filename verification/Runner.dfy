/** The transaction around every command: reserve the key, run the operation, then commit,
    persist the rejection or roll back. */
module Runner {
  import opened Base
  import opened Tables
  import opened Spec
  import opened StateTransactions
  import opened Refinement
  import opened LogInvariant

  datatype Begun = Answered(result: CommandResult) | Running

  lemma TheReceiptOfAKey(log: Log, key: string, c: Uuid)
    requires ReceiptsFinal(log.receipts) && c in log.receipts && log.receipts[c].key == key
    ensures KeyTaken(log, key) && ReceiptOf(log, key) == c
  {
  }

  /** What the answer is when the key, or the command ID, is already taken. */
  ghost function AnswerOf(db: Tables, e: Envelope): Option<CommandResult> {
    if KeyTaken(db.log, e.key) then
      var c := ReceiptOf(db.log, e.key);
      if db.log.receipts[c].hash == HashOf(e) then Some(ReplayOf(c, db.log.receipts[c]))
      else Some(RefusedResult(e.commandId, Rejection(IdempotencyKeyReused, KeyBoundElsewhere), None))
    else if e.commandId in db.log.receipts then Some(RefusedResult(e.commandId, ConstraintRejection, None))
    else None
  }

  method Begin(tx: StateTransaction, e: Envelope) returns (b: Begun)
    requires ReceiptsFinal(tx.db.log.receipts)
    modifies tx
    ensures AnswerOf(old(tx.db), e).Some? ==> tx.db == old(tx.db) && b == Answered(AnswerOf(old(tx.db), e).value)
    ensures AnswerOf(old(tx.db), e).None? ==> tx.db == ReservedDb(old(tx.db), e) && b == Running
  {
    var r := tx.ReserveCommandReceipt(e, Before(tx.db.core, e));
    if r.Ok? {
      if r.value.None? { return Running; }
      TheReceiptOfAKey(tx.db.log, e.key, r.value.value);
      return Answered(ReplayOf(r.value.value, tx.db.log.receipts[r.value.value]));
    }
    match r.error {
      case KeyReused =>
        ghost var c :| c in tx.db.log.receipts && tx.db.log.receipts[c].key == e.key && tx.db.log.receipts[c].hash != HashOf(e);
        TheReceiptOfAKey(tx.db.log, e.key, c);
        return Answered(RefusedResult(e.commandId, Rejection(IdempotencyKeyReused, KeyBoundElsewhere), None));
      case Integrity =>
        return Answered(RefusedResult(e.commandId, ConstraintRejection, None));
      case _ =>
        assert false;  // no committed receipt is still processing
    }
    b := Running;
  }

  /** How the dispatcher answers a raise that no runner catches: a constraint violation is a conflict,
      a failed guarded update or any other broken promise of the store aborts the transaction. */
  function Uncaught(r: Raise): Rejection {
    match r
    case ProgramMissing => Rejection(NotFound, NoSuchProgram)
    case KeyReused => Rejection(IdempotencyKeyReused, KeyBoundElsewhere)
    case InProgress => Rejection(Conflict, KeyInProgress)
    case Integrity => ConstraintRejection
    case _ => Rejection(TransactionAborted, InvariantBroken)
  }

  function Refused(db: Tables, c: Uuid, r: Rejection, observed: Option<nat>): Tables
    requires c in db.log.receipts
  {
    db.(log := db.log.(receipts :=
      db.log.receipts[c := Finalized'(db.log.receipts[c], RejectedReceipt, r.code, Refusal(r), observed)]))
  }

  /** How a command ends, whatever its operation did: a caught raise is committed as a rejected receipt
      together with all that was written before it, any other unwinds to the state before the transaction. */
  ghost predicate Finishes(before: Tables, e: Envelope, saved: Tables, r: Result<CommandResult, Raise>, o: Outcome) {
    match r
    case Ok(result) => o == Outcome(before, result)
    case Err(x) =>
      if Caught(x).None? then o == Outcome(saved, RefusedResult(e.commandId, Uncaught(x), None))
      else if IsProcessing(before.log, e.commandId) then
        o == Outcome(Refused(before, e.commandId, Caught(x).value, Version(saved.core)),
                     RefusedResult(e.commandId, Caught(x).value, Version(saved.core)))
      else o == Outcome(saved, RefusedResult(e.commandId, Uncaught(Broken), None))
  }

  method Finish(tx: StateTransaction, e: Envelope, saved: Tables, r: Result<CommandResult, Raise>) returns (result: CommandResult)
    modifies tx
    ensures Finishes(old(tx.db), e, saved, r, Outcome(tx.db, result))
  {
    if r.Ok? { return r.value; }
    var caught := Caught(r.error);
    if caught.Some? {
      var done := tx.RejectReservedCommand(e.commandId, caught.value.code, Refusal(caught.value), Version(saved.core));
      if done.Ok? { return RefusedResult(e.commandId, caught.value, Version(saved.core)); }
      tx.db := saved;
      return RefusedResult(e.commandId, Uncaught(done.error), None);
    }
    tx.db := saved;
    result := RefusedResult(e.commandId, Uncaught(r.error), None);
  }

  /** When the operation refined its ruling, the end concludes that ruling. */
  lemma FinishConcludes(saved: Tables, ruling: Ruling, e: Envelope, input: Inputs, before: Tables,
          r: Result<CommandResult, Raise>, o: Outcome)
    requires Refines(saved, ruling, e, input, before, r) && e.commandId !in saved.log.receipts
    requires Finishes(before, e, saved, r, o)
    ensures o == Conclude(saved, e, input, ruling)
  {
    hide EventIds, OutboxIds;
  }
}
