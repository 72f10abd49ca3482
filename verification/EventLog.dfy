/** The event log over whole runs. */
module EventLog {
  import opened Base
  import Plans
  import opened Tables
  import opened Spec
  import opened LogInvariant
  import opened IngestInvariant
  import opened Invariant
  import opened Growth
  import opened Records

  /** The versions carried by the M2 and M3 events, in the order they were written. */
  function VersionsOf(events: seq<DomainEvent>): seq<nat> {
    if events == [] then []
    else
      var front, last := events[..|events| - 1], events[|events| - 1];
      VersionsOf(front) + (if IsM4Topic(last.topic) then [] else [last.stateVersion])
  }

  lemma {:induction false} VersionsCountUp(events: seq<DomainEvent>, version: nat)
    requires VersionsInOrder(events, version)
    ensures VersionsOf(events) == seq(version, i => i + 1)
  {
    if events != [] {
      var front, last := events[..|events| - 1], events[|events| - 1];
      PrefixInOrder(events, version);
      VersionsCountUp(front, VersionEvents(front));
      assert events[..|events|] == events;
    }
  }

  lemma PrefixInOrder(events: seq<DomainEvent>, version: nat)
    requires VersionsInOrder(events, version) && events != []
    ensures VersionsInOrder(events[..|events| - 1], VersionEvents(events[..|events| - 1]))
  {
    var front := events[..|events| - 1];
    forall i | 0 <= i < |front| ensures front[i].stateVersion == VersionEvents(front[..i + 1]) {
      assert front[..i + 1] == events[..i + 1];
    }
  }

  /** In every reachable state the version equals the number of committed M2 and M3 commands, and
      their events carry the versions 1, 2, .., n in this order. */
  lemma {:induction false} VersionsAreGapFree(cfg: Config, calls: seq<Call>)
    ensures
      var db := Run(cfg, EmptyTables, calls);
      && VersionsOf(db.log.events) == seq(VersionNo(db.core), i => i + 1)
      && |VersionCommands(db.log.receipts)| == VersionNo(db.core)
  {
    var db := Run(cfg, EmptyTables, calls);
    ReachableLog(cfg, calls);
    hide Run, VersionCommands, OutboxMirrors, EventsMatchReceipts;
    VersionsCountUp(db.log.events, VersionNo(db.core));
  }

  lemma {:induction false} ReachableLog(cfg: Config, calls: seq<Call>)
    ensures LogInv(Run(cfg, EmptyTables, calls).log, VersionNo(Run(cfg, EmptyTables, calls).core))
  {
    EmptyInv();
    RunKeeps(cfg, EmptyTables, calls);
    hide Run, LogInv;
  }

  /** Exactly one outbox row per domain event, and exactly one event per committed receipt. */
  ghost predicate OneToOne(log: Log) {
    && |log.outbox| == |log.events|
    && (forall i :: 0 <= i < |log.events| ==> Mirrors(log.outbox[i], log.events[i]))
    && (forall i, j :: 0 <= i < |log.outbox| && 0 <= j < |log.events| && log.outbox[i].domainEvent == log.events[j].id ==> i == j)
    && (forall i :: 0 <= i < |log.events| ==> EventOfReceipt(log.receipts, log.events[i]))
    && (forall i, j :: 0 <= i < j < |log.events| ==> log.events[i].command != log.events[j].command)
    && (forall c :: c in log.receipts && log.receipts[c].status == CommittedReceipt ==> HasEvent(log.events, c))
  }

  lemma {:induction false} OutboxAndReceiptsAreInBijection(cfg: Config, calls: seq<Call>)
    ensures OneToOne(Run(cfg, EmptyTables, calls).log)
  {
    ReachableLog(cfg, calls);
    hide Run, VersionsInOrder, VersionCommands, ReceiptsFinal;
    var log := Run(cfg, EmptyTables, calls).log;
    forall i, j | 0 <= i < |log.outbox| && 0 <= j < |log.events| && log.outbox[i].domainEvent == log.events[j].id ensures i == j {
      assert Mirrors(log.outbox[i], log.events[i]);
    }
  }

  /** The log only grows at its end. */
  lemma {:induction false} LogIsAppendOnly(cfg: Config, db: Tables, calls: seq<Call>)
    requires Inv(db)
    ensures db.log.events <= Run(cfg, db, calls).log.events && db.log.outbox <= Run(cfg, db, calls).log.outbox
    ensures Extends(db.log.receipts, Run(cfg, db, calls).log.receipts)
  {
    RunGrows(cfg, db, calls);
    hide Run, Inv, CoreGrows, IngestGrows, BudgetGrows;
  }

  // ---------- ingest jobs ----------

  /** How far a job still has to go; each transition takes it down by one. */
  function Remaining(j: Job): int { 3 - j.version }

  predicate StepsOnce(j: Job, later: Job) {
    || later == j
    || (Remaining(later) == Remaining(j) - 1
        && ((j.status == Created && later.status == Claimed)
            || (j.status == Claimed && (later.status == Finalized || later.status == JobRejected))))
  }

  /** One command either leaves a job alone or moves it one step along created, claimed, and then
      finalized or rejected. */
  lemma JobsTakeOneStep(cfg: Config, db: Tables, e: Envelope, input: Inputs, id: Uuid)
    requires Inv(db) && id in db.ingest.jobs
    ensures
      var g := Step(cfg, db, e, input).db.ingest;
      id in g.jobs && 0 <= Remaining(g.jobs[id]) <= 2 && StepsOnce(db.ingest.jobs[id], g.jobs[id])
  {
    hide Step, CoreGrows, BudgetGrows, LogGrows, Inv, JobShape, JobMoves, StepsOnce, Remaining;
    var later := Step(cfg, db, e, input).db;
    StepGrows(cfg, db, e, input);
    StepKeeps(cfg, db, e, input);
    JobParts(db, id);
    JobParts(later, id);
    if db.ingest.jobs[id].status == Created { NeverSkipsClaiming(cfg, db, e, input, id); }
    OneStep(id, db.ingest.jobs[id], later.ingest.jobs[id]);
  }

  lemma OneStep(id: Uuid, j: Job, later: Job)
    requires JobShape(id, j) && JobShape(id, later) && JobMoves(j, later)
    requires j.status == Created ==> later.status == Created || later.status == Claimed
    ensures 0 <= Remaining(later) <= 2 && StepsOnce(j, later)
  {
  }

  lemma JobParts(db: Tables, id: Uuid)
    requires Inv(db) && id in db.ingest.jobs
    ensures JobShape(id, db.ingest.jobs[id])
  {
    hide CoreInvariant.CoreInv, BudgetInvariant.BudgetInv, LogInv, IngestInv;
    JobHolds(db.ingest, db.log.outbox, id);
  }

  /** The ingest rows move only by the effect of the command. */
  lemma IngestAfterStep(cfg: Config, db: Tables, e: Envelope, input: Inputs)
    ensures
      var g := Step(cfg, db, e, input).db.ingest;
      || g == db.ingest
      || ((e.command.CreateProgram? || db.core.program.Some?) && Meaning(cfg, db, e, input).Perform?
          && g == Meaning(cfg, db, e, input).effect.ingest)
  {
    hide Meaning, Admit, KeyTaken, VersionRefusal, EventIds, OutboxIds;
  }

  predicate MovesJobs(c: Command) {
    c.CreateJob? || c.ClaimJob? || c.FinalizeJob? || c.RejectJob?
  }

  lemma OtherCommandsKeepIngest(cfg: Config, db: Tables, e: Envelope, input: Inputs)
    requires !MovesJobs(e.command) && (e.command.CreateProgram? || db.core.program.Some?) && Meaning(cfg, db, e, input).Perform?
    ensures Meaning(cfg, db, e, input).effect.ingest == db.ingest
  {
    hide Violations, Plans.ApplyChange, ApplyRefusal, WithMembers, AppliedRows, NewPlanVersion, SettleRefusal, SubmittedRows, SettledRow, CallTaken;
  }

  lemma EffectNeverSkipsClaiming(cfg: Config, db: Tables, e: Envelope, input: Inputs, id: Uuid)
    requires id in db.ingest.jobs && db.ingest.jobs[id].status == Created && (e.command.CreateProgram? || db.core.program.Some?)
    requires Meaning(cfg, db, e, input).Perform?
    ensures
      var g := Meaning(cfg, db, e, input).effect.ingest;
      id in g.jobs && (g.jobs[id].status == Created || g.jobs[id].status == Claimed)
  {
    if MovesJobs(e.command) {
      hide ClaimBound, ReceiptRefusal, RejectionRefusal, ItemFor, DerivedReceiptId;
    } else {
      hide Meaning;
      OtherCommandsKeepIngest(cfg, db, e, input);
    }
  }

  lemma NeverSkipsClaiming(cfg: Config, db: Tables, e: Envelope, input: Inputs, id: Uuid)
    requires id in db.ingest.jobs && db.ingest.jobs[id].status == Created
    ensures
      var g := Step(cfg, db, e, input).db.ingest;
      id in g.jobs && (g.jobs[id].status == Created || g.jobs[id].status == Claimed)
  {
    hide Step, Meaning;
    IngestAfterStep(cfg, db, e, input);
    if Step(cfg, db, e, input).db.ingest != db.ingest { EffectNeverSkipsClaiming(cfg, db, e, input, id); }
  }

  ghost predicate HasItem(g: Ingest, job: Uuid) {
    exists i :: i in g.items && g.items[i].job == job
  }

  /** Evidence exists for a job exactly when it is finalized; then there is one receipt and one item,
      both named by the job, and they state the same facts, field by field. */
  ghost predicate EvidenceOf(g: Ingest, id: Uuid) {
    && id in g.jobs
    && (HasReceipt(g, id) <==> g.jobs[id].status == Finalized)
    && (HasItem(g, id) <==> g.jobs[id].status == Finalized)
    && (forall r, s :: r in g.receipts && s in g.receipts && g.receipts[r].job == id && g.receipts[s].job == id ==> r == s)
    && (forall i, k :: i in g.items && k in g.items && g.items[i].job == id && g.items[k].job == id ==> i == k)
    && (g.jobs[id].receipt.Some? && g.jobs[id].item.Some? ==>
          && g.jobs[id].receipt.value in g.receipts && g.jobs[id].item.value in g.items
          && ItemStates(g.items[g.jobs[id].item.value], g.receipts[g.jobs[id].receipt.value], g.jobs[id].authorizationRef))
  }

  lemma EvidenceExistsIffFinalized(g: Ingest, outbox: seq<OutboxEvent>, id: Uuid)
    requires IngestInv(g, outbox) && id in g.jobs
    ensures EvidenceOf(g, id)
  {
    hide RequestsHold, DerivedReceiptId, ItemFor, ItemStates;
    assert JobShape(id, g.jobs[id]) && JobRegistered(g.receipts, g.items, id, g.jobs[id]);
    forall r | r in g.receipts ensures ReceiptBound(g.jobs, r, g.receipts[r]) {}
    forall i | i in g.items
      ensures ItemBound(g.jobs, g.receipts, i, g.items[i]) && g.items[i].job == g.receipts[g.items[i].receipt].job
      ensures ItemStates(g.items[i], g.receipts[g.items[i].receipt], g.jobs[g.receipts[g.items[i].receipt].job].authorizationRef)
    {
      BoundItemStates(g, i);
    }
    hide JobsHold, ReceiptsHold, ItemsHold;
  }

  lemma BoundItemStates(g: Ingest, i: Uuid)
    requires ReceiptsHold(g.jobs, g.receipts) && ItemsHold(g.jobs, g.receipts, g.items) && i in g.items
    ensures ItemBound(g.jobs, g.receipts, i, g.items[i]) && g.items[i].job == g.receipts[g.items[i].receipt].job
    ensures ItemStates(g.items[i], g.receipts[g.items[i].receipt], g.jobs[g.receipts[g.items[i].receipt].job].authorizationRef)
  {
    hide DerivedReceiptId;
    assert ItemBound(g.jobs, g.receipts, i, g.items[i]);
    assert ReceiptBound(g.jobs, g.items[i].receipt, g.receipts[g.items[i].receipt]);
  }

  lemma {:induction false} ReachableEvidence(cfg: Config, calls: seq<Call>)
    ensures
      var g := Run(cfg, EmptyTables, calls).ingest;
      forall id :: id in g.jobs ==> EvidenceOf(g, id)
  {
    EmptyInv();
    RunKeeps(cfg, EmptyTables, calls);
    hide Run, EvidenceOf, IngestInv;
    var db := Run(cfg, EmptyTables, calls);
    forall id | id in db.ingest.jobs ensures EvidenceOf(db.ingest, id) {
      EvidenceExistsIffFinalized(db.ingest, db.log.outbox, id);
    }
  }
}
