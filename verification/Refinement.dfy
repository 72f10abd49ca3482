/** How a handler that writes first and compares afterwards relates to the atomic meaning. */
module Refinement {
  import opened Base
  import opened Tables
  import opened Spec
  import opened StateTransactions

  /** The raises a runner turns into a committed rejection. */
  function Caught(r: Raise): Option<Rejection> {
    match r
    case Business(x) => Some(x)
    case StaleVersion(expected, actual) =>
      Some(Rejection(VersionConflict, StaleStateVersion, ProgramVersions(expected, actual)))
    case JobConflict(problem) => Some(RejectionOf(problem))
    case ReservationMissing => Some(Rejection(NotFound, NoSuchReservation, ReservationNotFound))
    case WrongReservationStatus =>
      Some(Rejection(StateTransitionInvalid, NotReserved, ReservationStateInvalid))
    case _ => None
  }

  predicate IdsCollide(events: seq<DomainEvent>, outbox: seq<OutboxEvent>, input: Inputs) {
    input.event in EventIds(events) || input.outboxEvent in OutboxIds(outbox)
  }

  /** A refusal is raised before anything was written; an effect is committed whole. */
  ghost predicate Refines(before: Tables, ruling: Ruling, e: Envelope, input: Inputs, after: Tables, r: Result<CommandResult, Raise>) {
    match ruling
    case Refuse(x) => r.Err? && Caught(r.error) == Some(x) && after == ReservedDb(before, e)
    case Abort => r == Err(Integrity)
    case Perform(f) =>
      && f.core.program.Some?
      && if IdsCollide(before.log.events, before.log.outbox, input) then r == Err(Integrity)
         else r == Ok(Committing(before, e, input, f).result) && after == Committing(before, e, input, f).db
  }

  function CommittedResult(e: Envelope, version: nat, body: Payload): CommandResult {
    CommandResult(e.commandId, COMMITTED, Okay, Some(version), body, false)
  }

  /** The log after one event, its outbox row and the final receipt. */
  function OneEventLog(log: Log, c: Uuid, version: nat, input: Inputs, topic: Topic, body: Payload, aggregate: Uuid, aggregateVersion: nat): Log
    requires c in log.receipts
  {
    Log(log.receipts[c := Finalized'(log.receipts[c], CommittedReceipt, Okay, body, Some(version))],
        log.events + [DomainEvent(input.event, c, 0, topic, version, body)],
        log.outbox + [OutboxEvent(input.outboxEvent, input.event, aggregate, aggregateVersion, topic, body)])
  }

  /** Commit one M2 or M3 mutation with its event pair. */
  method CommitOne(tx: StateTransaction, e: Envelope, input: Inputs, expected: nat, active: Option<Uuid>,
          topic: Topic, body: Payload)
    returns (r: Result<nat, Raise>)
    requires IsProcessing(tx.db.log, e.commandId)
    requires tx.db.core.program.Some? && tx.db.core.program.value.stateVersion == expected
    modifies tx
    ensures r == if IdsCollide(old(tx.db).log.events, old(tx.db).log.outbox, input) then Err(Integrity) else Ok(expected + 1)
    ensures r.Ok? ==> tx.db == Tables(BumpedTo(old(tx.db).core, active), old(tx.db).ingest, old(tx.db).budget,
      OneEventLog(old(tx.db).log, e.commandId, expected + 1, input, topic, body, e.program, expected + 1))
  {
    hide BumpedTo;
    var events := [NewEvent(input.event, topic, body)];
    var outbox := [NewOutbox(input.outboxEvent, input.event, e.program, topic, body)];
    assert NewEventIds(events) == {input.event} && NewOutboxIds(outbox) == {input.outboxEvent} && NewDomainIds(outbox) == {input.event};
    r := tx.CommitStateChange(e.commandId, expected, active, body, events, outbox);
    assert EventRows(e.commandId, expected + 1, events) == [DomainEvent(input.event, e.commandId, 0, topic, expected + 1, body)];
    assert OutboxRows(expected + 1, outbox) == [OutboxEvent(input.outboxEvent, input.event, e.program, expected + 1, topic, body)];
  }

  /** A committed effect, seen from the rows as they were before the receipt was reserved. */
  lemma CommittingIsOneEvent(db: Tables, e: Envelope, input: Inputs, f: Effect)
    requires f.core.program.Some? && !IdsCollide(db.log.events, db.log.outbox, input)
    ensures
      var version := f.core.program.value.stateVersion;
      && Committing(db, e, input, f).result == CommittedResult(e, version, f.body)
      && Committing(db, e, input, f).db == Tables(f.core, f.ingest, f.budget,
           OneEventLog(ReservedDb(db, e).log, e.commandId, version, input, f.topic, f.body, f.aggregate, f.aggregateVersion))
  {
  }
}
