/** Evidence ingest jobs, receipts and items: what every reachable state satisfies. */
module IngestInvariant {
  import opened Base
  import opened Tables
  import opened Spec

  type JobMap = map<Uuid, Job>
  type EvidenceReceiptMap = map<Uuid, EvidenceReceipt>
  type ItemMap = map<Uuid, EvidenceItem>

  function VersionOf(s: JobStatus): int {
    match s
    case Created => 1
    case Claimed => 2
    case Finalized => 3
    case JobRejected => 3
  }

  /** Status fixes the version, and which of the later fields are filled in. */
  predicate JobShape(id: Uuid, j: Job) {
    && j.version == VersionOf(j.status)
    && (j.claim.Some? <==> j.status != Created)
    && (j.requestedOutbox.Some? <==> j.status != Created)
    && (j.claim.Some? ==> j.requestedOutbox.Some? && j.claim.value == ClaimOf(id, j.requestedOutbox.value))
    && (j.receipt.Some? <==> j.status == Finalized)
    && (j.item.Some? <==> j.status == Finalized)
    && (j.rejectionCode.Some? <==> j.status == JobRejected)
  }

  /** A finalized job names its receipt and its item. */
  predicate JobRegistered(receipts: EvidenceReceiptMap, items: ItemMap, id: Uuid, j: Job) {
    j.status == Finalized && j.receipt.Some? && j.item.Some? ==>
      && j.receipt.value in receipts && receipts[j.receipt.value].job == id
      && j.item.value in items && items[j.item.value].receipt == j.receipt.value
  }

  /** A receipt belongs to one finalized job, under its server-derived identifier. */
  predicate ReceiptBound(jobs: JobMap, id: Uuid, r: EvidenceReceipt) {
    && r.receiptId == id && id == DerivedReceiptId(r)
    && r.job in jobs
    && jobs[r.job].status == Finalized
    && jobs[r.job].receipt == Some(id)
    && jobs[r.job].claim == Some(r.claim)
    && jobs[r.job].item == Some(EvidenceItemOf(id))
  }

  /** An item repeats the facts of its receipt. */
  predicate ItemBound(jobs: JobMap, receipts: EvidenceReceiptMap, id: Uuid, item: EvidenceItem) {
    && id == EvidenceItemOf(item.receipt)
    && item.receipt in receipts
    && receipts[item.receipt].job in jobs
    && item == ItemFor(receipts[item.receipt], jobs[receipts[item.receipt].job], item.createdBy)
  }

  ghost predicate JobsHold(jobs: JobMap, receipts: EvidenceReceiptMap, items: ItemMap) {
    forall j :: j in jobs ==> JobShape(j, jobs[j]) && JobRegistered(receipts, items, j, jobs[j])
  }

  ghost predicate ReceiptsHold(jobs: JobMap, receipts: EvidenceReceiptMap) {
    forall r :: r in receipts ==> ReceiptBound(jobs, r, receipts[r])
  }

  ghost predicate ItemsHold(jobs: JobMap, receipts: EvidenceReceiptMap, items: ItemMap) {
    forall i :: i in items ==> ItemBound(jobs, receipts, i, items[i])
  }

  /** An outbox row of the request topic announces version 1 of an existing job. */
  predicate RequestBound(jobs: JobMap, o: OutboxEvent) {
    o.topic == IngestRequestedTopic ==> o.body.JobCreated? && o.body.job in jobs && o.body.version == 1
  }

  ghost predicate RequestsHold(jobs: JobMap, outbox: seq<OutboxEvent>) {
    forall i :: 0 <= i < |outbox| ==> RequestBound(jobs, outbox[i])
  }

  ghost predicate IngestInv(g: Ingest, outbox: seq<OutboxEvent>) {
    && JobsHold(g.jobs, g.receipts, g.items)
    && ReceiptsHold(g.jobs, g.receipts)
    && ItemsHold(g.jobs, g.receipts, g.items)
    && RequestsHold(g.jobs, outbox)
  }

  // ---------- a job changes but is not finalized ----------

  lemma JobPutKeepsJobs(g: Ingest, id: Uuid, j: Job)
    requires JobsHold(g.jobs, g.receipts, g.items) && JobShape(id, j) && j.status != Finalized
    ensures JobsHold(g.jobs[id := j], g.receipts, g.items)
  {
    hide JobShape;
  }

  lemma JobPutKeepsReceipts(g: Ingest, id: Uuid, j: Job)
    requires ReceiptsHold(g.jobs, g.receipts)
    requires id in g.jobs ==> g.jobs[id].status != Finalized
    ensures ReceiptsHold(g.jobs[id := j], g.receipts)
  {
    forall r | r in g.receipts ensures ReceiptBound(g.jobs[id := j], r, g.receipts[r]) {
      assert ReceiptBound(g.jobs, r, g.receipts[r]);
    }
  }

  lemma JobPutKeepsItems(g: Ingest, id: Uuid, j: Job)
    requires ReceiptsHold(g.jobs, g.receipts) && ItemsHold(g.jobs, g.receipts, g.items)
    requires id in g.jobs ==> g.jobs[id].status != Finalized
    ensures ItemsHold(g.jobs[id := j], g.receipts, g.items)
  {
    hide ItemFor, DerivedReceiptId;
    forall i | i in g.items ensures ItemBound(g.jobs[id := j], g.receipts, i, g.items[i]) {
      assert ItemBound(g.jobs, g.receipts, i, g.items[i]);
      assert ReceiptBound(g.jobs, g.items[i].receipt, g.receipts[g.items[i].receipt]);
    }
  }

  lemma JobPutKeepsRequests(g: Ingest, outbox: seq<OutboxEvent>, id: Uuid, j: Job)
    requires RequestsHold(g.jobs, outbox)
    ensures RequestsHold(g.jobs[id := j], outbox)
  {
    forall i | 0 <= i < |outbox| ensures RequestBound(g.jobs[id := j], outbox[i]) {
      assert RequestBound(g.jobs, outbox[i]);
    }
  }

  lemma JobPutKeeps(g: Ingest, outbox: seq<OutboxEvent>, id: Uuid, j: Job)
    requires IngestInv(g, outbox) && JobShape(id, j) && j.status != Finalized
    requires id in g.jobs ==> g.jobs[id].status != Finalized
    ensures IngestInv(g.(jobs := g.jobs[id := j]), outbox)
  {
    hide JobsHold, ReceiptsHold, ItemsHold, RequestsHold, JobShape;
    JobPutKeepsJobs(g, id, j);
    JobPutKeepsReceipts(g, id, j);
    JobPutKeepsItems(g, id, j);
    JobPutKeepsRequests(g, outbox, id, j);
  }

  lemma OutboxPutKeeps(g: Ingest, outbox: seq<OutboxEvent>, o: OutboxEvent)
    requires IngestInv(g, outbox) && RequestBound(g.jobs, o)
    ensures IngestInv(g, outbox + [o])
  {
    hide JobsHold, ReceiptsHold, ItemsHold;
    forall i | 0 <= i < |outbox + [o]| ensures RequestBound(g.jobs, (outbox + [o])[i]) {
      assert i < |outbox| ==> RequestBound(g.jobs, outbox[i]);
    }
  }

  lemma JobHolds(g: Ingest, outbox: seq<OutboxEvent>, id: Uuid)
    requires IngestInv(g, outbox) && id in g.jobs
    ensures JobShape(id, g.jobs[id])
  {
  }

  // ---------- finalize ----------

  /** While a job is only claimed, no receipt and no item exists for it, whatever their identifiers. */
  lemma ClaimedJobHasNoReceipt(g: Ingest, outbox: seq<OutboxEvent>, id: Uuid, r: EvidenceReceipt)
    requires IngestInv(g, outbox) && id in g.jobs && g.jobs[id].status == Claimed
    requires r.job == id && r.receiptId == DerivedReceiptId(r)
    ensures forall k :: k in g.receipts ==> g.receipts[k].job != id
    ensures r.receiptId !in g.receipts && EvidenceItemOf(r.receiptId) !in g.items
  {
    forall k | k in g.receipts ensures g.receipts[k].job != id {
      assert ReceiptBound(g.jobs, k, g.receipts[k]);
    }
    forall k | k in g.receipts ensures k != r.receiptId {
      assert ReceiptBound(g.jobs, k, g.receipts[k]);
    }
    forall i | i in g.items ensures i != EvidenceItemOf(r.receiptId) {
      assert ItemBound(g.jobs, g.receipts, i, g.items[i]);
    }
  }

  function FinalizedJob(j: Job, receipt: Uuid): Job {
    j.(status := Finalized, version := 3, receipt := Some(receipt), item := Some(EvidenceItemOf(receipt)))
  }

  function FinalizedIngest(g: Ingest, id: Uuid, r: EvidenceReceipt, author: string): Ingest
    requires id in g.jobs
  {
    Ingest(g.jobs[id := FinalizedJob(g.jobs[id], r.receiptId)],
           g.receipts[r.receiptId := r],
           g.items[EvidenceItemOf(r.receiptId) := ItemFor(r, g.jobs[id], author)])
  }

  predicate Finalizable(g: Ingest, id: Uuid, r: EvidenceReceipt) {
    && id in g.jobs && g.jobs[id].status == Claimed && g.jobs[id].claim == Some(r.claim)
    && r.job == id && r.receiptId == DerivedReceiptId(r)
    && r.receiptId !in g.receipts && EvidenceItemOf(r.receiptId) !in g.items
  }

  lemma FinalizeKeepsJobs(g: Ingest, id: Uuid, r: EvidenceReceipt, author: string)
    requires JobsHold(g.jobs, g.receipts, g.items) && Finalizable(g, id, r)
    ensures var n := FinalizedIngest(g, id, r, author); JobsHold(n.jobs, n.receipts, n.items)
  {
    hide DerivedReceiptId;
    var n := FinalizedIngest(g, id, r, author);
    forall k | k in n.jobs ensures JobShape(k, n.jobs[k]) && JobRegistered(n.receipts, n.items, k, n.jobs[k]) {
      assert JobShape(k, g.jobs[k]) && JobRegistered(g.receipts, g.items, k, g.jobs[k]);
    }
  }

  lemma FinalizeKeepsReceipts(g: Ingest, id: Uuid, r: EvidenceReceipt, author: string)
    requires ReceiptsHold(g.jobs, g.receipts) && Finalizable(g, id, r)
    ensures var n := FinalizedIngest(g, id, r, author); ReceiptsHold(n.jobs, n.receipts)
  {
    hide DerivedReceiptId, ItemFor;
    var n := FinalizedIngest(g, id, r, author);
    forall k | k in n.receipts ensures ReceiptBound(n.jobs, k, n.receipts[k]) {
      assert k in g.receipts ==> ReceiptBound(g.jobs, k, g.receipts[k]);
    }
  }

  lemma FinalizeKeepsItems(g: Ingest, id: Uuid, r: EvidenceReceipt, author: string)
    requires ReceiptsHold(g.jobs, g.receipts) && ItemsHold(g.jobs, g.receipts, g.items) && Finalizable(g, id, r)
    ensures var n := FinalizedIngest(g, id, r, author); ItemsHold(n.jobs, n.receipts, n.items)
  {
    hide DerivedReceiptId;
    var n := FinalizedIngest(g, id, r, author);
    forall i | i in n.items ensures ItemBound(n.jobs, n.receipts, i, n.items[i]) {
      if i != EvidenceItemOf(r.receiptId) {
        assert ItemBound(g.jobs, g.receipts, i, g.items[i]);
        assert ReceiptBound(g.jobs, g.items[i].receipt, g.receipts[g.items[i].receipt]);
      }
    }
  }

  lemma FinalizeKeepsAll(g: Ingest, outbox: seq<OutboxEvent>, id: Uuid, r: EvidenceReceipt, author: string)
    requires IngestInv(g, outbox) && id in g.jobs && g.jobs[id].status == Claimed
    requires r.job == id && r.receiptId == DerivedReceiptId(r) && g.jobs[id].claim == Some(r.claim)
    ensures IngestInv(FinalizedIngest(g, id, r, author), outbox)
  {
    ClaimedJobHasNoReceipt(g, outbox, id, r);
    hide JobsHold, ReceiptsHold, ItemsHold, RequestsHold, DerivedReceiptId, ItemFor;
    FinalizeKeepsJobs(g, id, r, author);
    FinalizeKeepsReceipts(g, id, r, author);
    FinalizeKeepsItems(g, id, r, author);
    JobPutKeepsRequests(g, outbox, id, FinalizedJob(g.jobs[id], r.receiptId));
  }

  // ---------- the four commands ----------

  lemma CreateJobKeeps(cfg: Config, db: Tables, e: Envelope, input: Inputs)
    requires IngestInv(db.ingest, db.log.outbox) && e.command.CreateJob? && db.core.program.Some?
    requires CreateJobMeaning(cfg, db, e, input).Perform?
    ensures
      var f := CreateJobMeaning(cfg, db, e, input).effect;
      IngestInv(f.ingest, db.log.outbox) && f.topic == IngestRequestedTopic && f.body == JobCreated(input.first, 1, cfg.policy)
      && input.first in f.ingest.jobs
  {
    hide IngestInv;
    JobPutKeeps(db.ingest, db.log.outbox, input.first, CreateJobMeaning(cfg, db, e, input).effect.ingest.jobs[input.first]);
  }

  lemma ClaimKeeps(cfg: Config, db: Tables, e: Envelope, input: Inputs)
    requires IngestInv(db.ingest, db.log.outbox) && e.command.ClaimJob? && db.core.program.Some?
    requires ClaimMeaning(cfg, db, e, input).Perform?
    ensures IngestInv(ClaimMeaning(cfg, db, e, input).effect.ingest, db.log.outbox)
  {
    hide IngestInv;
    JobHolds(db.ingest, db.log.outbox, e.command.job);
    JobPutKeeps(db.ingest, db.log.outbox, e.command.job, ClaimMeaning(cfg, db, e, input).effect.ingest.jobs[e.command.job]);
  }

  lemma FinalizeKeeps(cfg: Config, db: Tables, e: Envelope, input: Inputs)
    requires IngestInv(db.ingest, db.log.outbox) && e.command.FinalizeJob? && db.core.program.Some?
    requires FinalizeMeaning(cfg, db, e, input).Perform?
    ensures IngestInv(FinalizeMeaning(cfg, db, e, input).effect.ingest, db.log.outbox)
  {
    hide JobsHold, ReceiptsHold, ItemsHold, RequestsHold, IngestInv;
    var c := e.command;
    assert FinalizeMeaning(cfg, db, e, input).effect.ingest == FinalizedIngest(db.ingest, c.job, c.receipt, e.principal.id);
    FinalizeKeepsAll(db.ingest, db.log.outbox, c.job, c.receipt, e.principal.id);
  }

  lemma RejectJobKeeps(cfg: Config, db: Tables, e: Envelope, input: Inputs)
    requires IngestInv(db.ingest, db.log.outbox) && e.command.RejectJob? && db.core.program.Some?
    requires RejectJobMeaning(cfg, db, e, input).Perform?
    ensures IngestInv(RejectJobMeaning(cfg, db, e, input).effect.ingest, db.log.outbox)
  {
    hide IngestInv;
    JobHolds(db.ingest, db.log.outbox, e.command.job);
    JobPutKeeps(db.ingest, db.log.outbox, e.command.job, RejectJobMeaning(cfg, db, e, input).effect.ingest.jobs[e.command.job]);
  }
}
