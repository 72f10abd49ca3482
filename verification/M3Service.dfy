/** The M3 handlers as the service runs them (src/awakening/state/m3/service.py). */
module M3Service {
  import opened Base
  import opened Tables
  import opened Spec
  import opened StateTransactions
  import opened Refinement
  import opened IngestInvariant

  /** What an M3 operation hands to its runner, which then commits it. */
  datatype Mutation = Mutation(topic: Topic, body: Payload)

  ghost predicate Opened(db: Tables, e: Envelope, before: Tables) {
    && before.core.program.Some?
    && IngestInv(before.ingest, before.log.outbox)
    && db == ReservedDb(before, e)
  }

  /** A refusal is raised before anything was written; otherwise exactly the new ingest rows were. */
  ghost predicate Mutates(before: Tables, ruling: Ruling, e: Envelope, after: Tables, r: Result<Mutation, Raise>) {
    match ruling
    case Refuse(x) => r.Err? && Caught(r.error) == Some(x) && after == ReservedDb(before, e)
    case Abort => r == Err(Integrity)
    case Perform(f) =>
      && r == Ok(Mutation(f.topic, f.body))
      && after == ReservedDb(before, e).(ingest := f.ingest)
      && before.core.program.Some? && f.core == Bump(before.core) && f.budget == before.budget
      && f.aggregate == e.program && f.aggregateVersion == before.core.program.value.stateVersion + 1
  }

  method CreateIngestJob(tx: StateTransaction, cfg: Config, e: Envelope, input: Inputs, ghost before: Tables)
    returns (r: Result<Mutation, Raise>)
    requires e.command.CreateJob? && Opened(tx.db, e, before)
    modifies tx
    ensures Mutates(before, CreateJobMeaning(cfg, before, e, input), e, tx.db, r)
  {
    hide IngestInv;
    var job := Job(Created, 1, e.command.authorizationRef, cfg.policy, e.principal.id, None, None, None, None, None, None);
    var _ :- tx.InsertJob(input.first, job);
    return Ok(Mutation(IngestRequestedTopic, JobCreated(input.first, 1, cfg.policy)));
  }

  /** The announced version is always 1. */
  lemma RequestAnnouncesVersionOne(g: Ingest, outbox: seq<OutboxEvent>, o: OutboxEvent)
    requires IngestInv(g, outbox) && o in outbox && o.topic == IngestRequestedTopic
    ensures o.body.JobCreated? && o.body.version == 1 && o.body.job in g.jobs
  {
    hide JobsHold, ReceiptsHold, ItemsHold;
    var i :| 0 <= i < |outbox| && outbox[i] == o;
    assert RequestBound(g.jobs, outbox[i]);
  }

  method ClaimIngestJob(tx: StateTransaction, cfg: Config, e: Envelope, input: Inputs, ghost before: Tables)
    returns (r: Result<Mutation, Raise>)
    requires e.command.ClaimJob? && Opened(tx.db, e, before)
    requires forall o :: o in before.log.outbox && o.topic == IngestRequestedTopic ==> IsRequestEvent(before.log.events, o.domainEvent)
    modifies tx
    ensures Mutates(before, ClaimMeaning(cfg, before, e, input), e, tx.db, r)
  {
    hide IngestInv, IsRequestEvent;
    var c := e.command;
    var committed := tx.GetCommittedIngestRequest(c.outboxRef, c.job);
    if committed.None? {
      return Err(Business(Rejection(StateTransitionInvalid, ClaimNotBound)));
    }
    RequestAnnouncesVersionOne(before.ingest, before.log.outbox, committed.value);
    if committed.value.body.version != c.expectedJob {
      return Err(Business(Rejection(VersionConflict, RequestVersionMismatch)));
    }
    var claim := ClaimOf(c.job, c.outboxRef.outboxEvent);
    var job :- tx.TransitionJob(c.job, c.expectedJob, Created, (j: Job) => j.(status := Claimed, claim := Some(claim),
      claimedBy := Some(e.principal.id), requestedOutbox := Some(c.outboxRef.outboxEvent)));
    return Ok(Mutation(JobClaimedTopic, JobClaimed(c.job, claim, job.version, job.policy, e.principal.id)));
  }

  /** The job as it must be before a receipt or a rejection is looked at. */
  method RequireClaimedJob(db: Tables, id: Uuid, expected: int) returns (r: Result<Job, Raise>)
    ensures r == if JobProblemOf(db.ingest, id, expected, Claimed).Some?
                 then Err(JobConflict(JobProblemOf(db.ingest, id, expected, Claimed).value))
                 else Ok(db.ingest.jobs[id])
  {
    if id !in db.ingest.jobs { return Err(JobConflict(JobMissing)); }
    var job := db.ingest.jobs[id];
    if job.version != expected { return Err(JobConflict(StaleJob(expected, job.version))); }
    if job.status != Claimed { return Err(JobConflict(WrongJobStatus)); }
    return Ok(job);
  }

  method FinalizeIngestJob(tx: StateTransaction, cfg: Config, e: Envelope, input: Inputs, ghost before: Tables)
    returns (r: Result<Mutation, Raise>)
    requires e.command.FinalizeJob? && Opened(tx.db, e, before)
    modifies tx
    ensures Mutates(before, FinalizeMeaning(cfg, before, e, input), e, tx.db, r)
  {
    hide IngestInv, DerivedReceiptId, ItemFor;
    var c := e.command;
    var job :- RequireClaimedJob(tx.db, c.job, c.expectedJob);
    var invalid := ReceiptRefusal(cfg, e, c.job, job, c.receipt);
    if invalid.Some? { return Err(Business(invalid.value)); }
    JobHolds(before.ingest, before.log.outbox, c.job);
    ClaimedJobHasNoReceipt(before.ingest, before.log.outbox, c.job, c.receipt);
    var item := EvidenceItemOf(c.receipt.receiptId);
    // A claimed job has no receipt, so "already registered" never applies and the inserts cannot collide.
    var registered := tx.RegisterReceiptAndItemIfAbsent(c.receipt, item, ItemFor(c.receipt, job, e.principal.id));
    if registered != Ok(true) { assert false; }
    var updated := tx.TransitionJob(c.job, c.expectedJob, Claimed, (j: Job) =>
      j.(status := Finalized, receipt := Some(c.receipt.receiptId), item := Some(item)));
    if updated.Err? { assert false; }
    return Ok(Mutation(EvidenceItemCreatedTopic,
      JobFinalized(c.job, job.version + 1, c.receipt.receiptId, item, c.receipt.rawSha256, c.receipt.byteSize, true)));
  }

  method RejectIngestJob(tx: StateTransaction, cfg: Config, e: Envelope, input: Inputs, ghost before: Tables)
    returns (r: Result<Mutation, Raise>)
    requires e.command.RejectJob? && Opened(tx.db, e, before)
    modifies tx
    ensures Mutates(before, RejectJobMeaning(cfg, before, e, input), e, tx.db, r)
  {
    hide IngestInv;
    var c := e.command;
    var job :- RequireClaimedJob(tx.db, c.job, c.expectedJob);
    JobHolds(before.ingest, before.log.outbox, c.job);
    var invalid := RejectionRefusal(cfg, e, c.job, job, c.rejection);
    if invalid.Some? { return Err(Business(invalid.value)); }
    var updated := tx.TransitionJob(c.job, c.expectedJob, Claimed, (j: Job) =>
      j.(status := JobRejected, rejectionCode := Some(c.rejection.code)));
    if updated.Err? { assert false; }
    return Ok(Mutation(JobRejectedTopic, JobWasRejected(c.job, job.version + 1, c.rejection.code)));
  }
}
