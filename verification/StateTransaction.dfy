/** One open database transaction: the statements the service issues, each a write or a guarded
    update (src/awakening/state/database.py and its m3 and m4 extensions). */
module StateTransactions {
  import opened Base
  import opened Plans
  import opened Tables
  import opened Spec
  import opened Sums

  /** What a statement or an operation raises. The runners turn some of these into committed
      rejections; the others unwind the transaction. */
  datatype Raise =
    | Business(rejection: Rejection)
    | StaleVersion(expected: int, actual: int)
    | JobConflict(problem: JobProblem)
    | ReservationMissing
    | WrongReservationStatus
    | ProgramMissing
    | KeyReused
    | InProgress
    | Integrity
    | Broken

  datatype NewEvent = NewEvent(id: Uuid, topic: Topic, body: Payload)
  datatype NewOutbox = NewOutbox(id: Uuid, domainEvent: Uuid, aggregate: Uuid, topic: Topic, body: Payload)

  /** The receipt row a command holds while it runs. */
  function Processed(e: Envelope, before: Option<nat>): CommandReceipt {
    CommandReceipt(e.key, HashOf(e), Processing, Okay, NoPayload, before, None)
  }

  function ReservedDb(db: Tables, e: Envelope): Tables {
    db.(log := db.log.(receipts := db.log.receipts[e.commandId := Processed(e, Before(db.core, e))]))
  }

  predicate IsProcessing(log: Log, c: Uuid) {
    c in log.receipts && log.receipts[c].status == Processing
  }

  function Finalized'(r: CommandReceipt, status: ReceiptStatus, reason: ReasonCode, body: Payload, after: Option<nat>): CommandReceipt {
    r.(status := status, reason := reason, body := body, after := after)
  }

  function NewEventIds(events: seq<NewEvent>): set<Uuid> { set ev | ev in events :: ev.id }
  function NewOutboxIds(outbox: seq<NewOutbox>): set<Uuid> { set o | o in outbox :: o.id }
  function NewDomainIds(outbox: seq<NewOutbox>): set<Uuid> { set o | o in outbox :: o.domainEvent }

  function EventRows(c: Uuid, version: nat, events: seq<NewEvent>): seq<DomainEvent> {
    seq(|events|, i requires 0 <= i < |events| => DomainEvent(events[i].id, c, i, events[i].topic, version, events[i].body))
  }

  function OutboxRows(version: nat, outbox: seq<NewOutbox>): seq<OutboxEvent> {
    seq(|outbox|, i requires 0 <= i < |outbox| =>
      OutboxEvent(outbox[i].id, outbox[i].domainEvent, outbox[i].aggregate, version, outbox[i].topic, outbox[i].body))
  }

  predicate DistinctEvents(events: seq<NewEvent>) {
    forall i, j :: 0 <= i < j < |events| ==> events[i].id != events[j].id
  }

  predicate DistinctOutbox(outbox: seq<NewOutbox>) {
    forall i, j :: 0 <= i < j < |outbox| ==> outbox[i].id != outbox[j].id && outbox[i].domainEvent != outbox[j].domainEvent
  }

  /** Exactly when a state change commits. */
  predicate Commits(db: Tables, c: Uuid, expected: nat, events: seq<NewEvent>, outbox: seq<NewOutbox>) {
    && events != [] && |outbox| == |events|
    && db.core.program.Some? && db.core.program.value.stateVersion == expected
    && DistinctEvents(events) && NewEventIds(events) !! EventIds(db.log.events)
    && DistinctOutbox(outbox) && NewOutboxIds(outbox) !! OutboxIds(db.log.outbox)
    && NewDomainIds(outbox) <= NewEventIds(events)
    && IsProcessing(db.log, c)
  }

  function CommittedLog(log: Log, c: Uuid, version: nat, body: Payload, events: seq<NewEvent>, outbox: seq<NewOutbox>): Log
    requires c in log.receipts
  {
    Log(log.receipts[c := Finalized'(log.receipts[c], CommittedReceipt, Okay, body, Some(version))],
        log.events + EventRows(c, version, events),
        log.outbox + OutboxRows(version, outbox))
  }

  /** Equal length, distinct references and membership already make the two identifier sets equal:
      the last check of a commit can never raise. */
  lemma OutboxCoversEvents(events: seq<NewEvent>, outbox: seq<NewOutbox>)
    requires |outbox| == |events| && DistinctEvents(events) && DistinctOutbox(outbox)
    requires NewDomainIds(outbox) <= NewEventIds(events)
    ensures NewDomainIds(outbox) == NewEventIds(events)
  {
    EventIdsCount(events);
    DomainIdsCount(outbox);
    SameSizeSubset(NewDomainIds(outbox), NewEventIds(events));
  }

  lemma {:induction false} EventIdsCount(events: seq<NewEvent>)
    requires DistinctEvents(events)
    ensures |NewEventIds(events)| == |events|
  {
    if events != [] {
      var front, last := events[..|events| - 1], events[|events| - 1];
      EventIdsCount(front);
      assert events == front + [last];
      assert NewEventIds(events) == NewEventIds(front) + {last.id};
    }
  }

  lemma {:induction false} DomainIdsCount(outbox: seq<NewOutbox>)
    requires DistinctOutbox(outbox)
    ensures |NewDomainIds(outbox)| == |outbox|
  {
    if outbox != [] {
      var front, last := outbox[..|outbox| - 1], outbox[|outbox| - 1];
      DomainIdsCount(front);
      assert outbox == front + [last];
      assert NewDomainIds(outbox) == NewDomainIds(front) + {last.domainEvent};
    }
  }

  // ---------- one outbox row after another ----------

  lemma NoOutboxRows(version: nat, rows: seq<OutboxEvent>)
    ensures DistinctOutbox([]) && NewOutboxIds([]) == {} && NewDomainIds([]) == {} && rows + OutboxRows(version, []) == rows
  {
  }

  lemma OneMoreOutboxRow(version: nat, outbox: seq<NewOutbox>, i: nat)
    requires i < |outbox|
    ensures
      var o := outbox[i];
      && NewOutboxIds(outbox[..i + 1]) == NewOutboxIds(outbox[..i]) + {o.id}
      && NewDomainIds(outbox[..i + 1]) == NewDomainIds(outbox[..i]) + {o.domainEvent}
      && OutboxRows(version, outbox[..i + 1])
         == OutboxRows(version, outbox[..i]) + [OutboxEvent(o.id, o.domainEvent, o.aggregate, version, o.topic, o.body)]
      && o.domainEvent in NewDomainIds(outbox) && o.id in NewOutboxIds(outbox)
  {
    assert outbox[..i + 1] == outbox[..i] + [outbox[i]] && outbox[i] in outbox;
  }

  lemma RepeatedReference(outbox: seq<NewOutbox>, i: nat)
    requires i < |outbox| && outbox[i].domainEvent in NewDomainIds(outbox[..i])
    ensures !DistinctOutbox(outbox)
  {
    var j :| 0 <= j < i && outbox[..i][j].domainEvent == outbox[i].domainEvent;
    assert outbox[j].domainEvent == outbox[i].domainEvent;
  }

  lemma UsedOutboxId(rows: seq<OutboxEvent>, version: nat, outbox: seq<NewOutbox>, i: nat)
    requires i < |outbox| && exists row :: row in rows + OutboxRows(version, outbox[..i]) && row.id == outbox[i].id
    ensures !(DistinctOutbox(outbox) && NewOutboxIds(outbox) !! OutboxIds(rows))
  {
    var row :| row in rows + OutboxRows(version, outbox[..i]) && row.id == outbox[i].id;
    assert outbox[i].id in NewOutboxIds(outbox) by { assert outbox[i] in outbox; }
    if row in rows {
      assert row.id in OutboxIds(rows);
    } else {
      var j :| 0 <= j < i && OutboxRows(version, outbox[..i])[j] == row;
      assert outbox[j].id == outbox[i].id;
    }
  }

  lemma FreshOutboxRow(rows: seq<OutboxEvent>, version: nat, outbox: seq<NewOutbox>, i: nat)
    requires i < |outbox| && DistinctOutbox(outbox[..i]) && NewOutboxIds(outbox[..i]) !! OutboxIds(rows)
    requires outbox[i].domainEvent !in NewDomainIds(outbox[..i])
    requires forall row :: row in rows + OutboxRows(version, outbox[..i]) ==> row.id != outbox[i].id
    ensures DistinctOutbox(outbox[..i + 1]) && NewOutboxIds(outbox[..i + 1]) !! OutboxIds(rows)
  {
    OneMoreOutboxRow(version, outbox, i);
    forall j | 0 <= j < i ensures outbox[j].id != outbox[i].id && outbox[j].domainEvent != outbox[i].domainEvent {
      assert OutboxRows(version, outbox[..i])[j] in rows + OutboxRows(version, outbox[..i]);
      assert outbox[..i][j] in outbox[..i];
    }
    assert outbox[i].id !in OutboxIds(rows);
    hide NewOutboxIds, NewDomainIds, OutboxIds, OutboxRows;
    forall j, k | 0 <= j < k < i ensures outbox[j].id != outbox[k].id && outbox[j].domainEvent != outbox[k].domainEvent {
      assert outbox[..i][j] == outbox[j] && outbox[..i][k] == outbox[k];
    }
  }

  // ---------- evidence already registered ----------

  ghost predicate ReceiptHasItem(g: Ingest, receipt: EvidenceReceipt) {
    exists x :: x in g.items && g.items[x].receipt == receipt.receiptId
  }

  /** Equal in everything but the issue time. */
  predicate Repeats(stored: EvidenceReceipt, receipt: EvidenceReceipt) {
    stored.(issuedAt := receipt.issuedAt) == receipt
  }

  ghost predicate SomeReceiptRepeats(g: Ingest, receipt: EvidenceReceipt) {
    exists k :: k in g.receipts && g.receipts[k].job == receipt.job && Repeats(g.receipts[k], receipt)
  }

  ghost predicate SomeReceiptDiffers(g: Ingest, receipt: EvidenceReceipt) {
    exists k :: k in g.receipts && g.receipts[k].job == receipt.job && !Repeats(g.receipts[k], receipt)
  }

  ghost predicate ItemRepeats(g: Ingest, receipt: EvidenceReceipt, itemId: Uuid, item: EvidenceItem) {
    itemId in g.items && g.items[itemId] == item && item.receipt == receipt.receiptId
  }

  ghost predicate SomeItemDiffers(g: Ingest, receipt: EvidenceReceipt, itemId: Uuid, item: EvidenceItem) {
    exists x :: x in g.items && g.items[x].receipt == receipt.receiptId && (x != itemId || g.items[x] != item)
  }

  class StateTransaction {
    var db: Tables

    constructor (db: Tables)
      ensures this.db == db
    {
      this.db := db;
    }

    /** Take the key, or return the finished receipt that already holds it. */
    method ReserveCommandReceipt(e: Envelope, before: Option<nat>) returns (r: Result<Option<Uuid>, Raise>)
      modifies this
      ensures KeyTaken(old(db).log, e.key) ==> db == old(db)
      ensures r.Ok? && r.value.Some? ==>
        db == old(db) && r.value.value in db.log.receipts && db.log.receipts[r.value.value].key == e.key
        && db.log.receipts[r.value.value].hash == HashOf(e) && db.log.receipts[r.value.value].status != Processing
      ensures r.Ok? && r.value.None? ==> !KeyTaken(old(db).log, e.key) && e.commandId !in old(db).log.receipts
      ensures r.Ok? && r.value.None? ==>
        db == old(db).(log := old(db).log.(receipts := old(db).log.receipts[e.commandId := Processed(e, before)]))
      ensures r.Err? ==> db == old(db)
      ensures r.Err? && r.error == KeyReused ==>
        exists c :: c in db.log.receipts && db.log.receipts[c].key == e.key && db.log.receipts[c].hash != HashOf(e)
      ensures r.Err? && r.error == InProgress ==>
        exists c :: c in db.log.receipts && db.log.receipts[c].key == e.key && db.log.receipts[c].status == Processing
      ensures r.Err? && r.error == Integrity ==> !KeyTaken(db.log, e.key) && e.commandId in db.log.receipts
      ensures r.Err? ==> r.error == KeyReused || r.error == InProgress || r.error == Integrity
    {
      if exists c :: c in db.log.receipts && db.log.receipts[c].key == e.key {
        var c :| c in db.log.receipts && db.log.receipts[c].key == e.key;
        var existing := db.log.receipts[c];
        if existing.hash != HashOf(e) { return Err(KeyReused); }
        if existing.status == Processing { return Err(InProgress); }
        return Ok(Some(c));
      }
      if e.commandId in db.log.receipts { return Err(Integrity); }
      db := db.(log := db.log.(receipts := db.log.receipts[e.commandId := Processed(e, before)]));
      return Ok(None);
    }

    method LockProgram(expected: Option<nat>) returns (r: Result<Program, Raise>)
      ensures r.Ok? <==> db.core.program.Some? && (expected.Some? ==> expected.value == db.core.program.value.stateVersion)
      ensures r.Ok? ==> r.value == db.core.program.value
      ensures r.Err? && db.core.program.None? ==> r.error == ProgramMissing
      ensures r.Err? && db.core.program.Some? ==> expected.Some? && r.error == StaleVersion(expected.value, db.core.program.value.stateVersion)
    {
      if db.core.program.None? { return Err(ProgramMissing); }
      var row := db.core.program.value;
      if expected.Some? && row.stateVersion != expected.value { return Err(StaleVersion(expected.value, row.stateVersion)); }
      return Ok(row);
    }

    method RejectReservedCommand(c: Uuid, reason: ReasonCode, body: Payload, observed: Option<nat>)
      returns (r: Result<(), Raise>)
      modifies this
      ensures r.Ok? <==> IsProcessing(old(db).log, c)
      ensures r.Ok? ==> db == old(db).(log := old(db).log.(receipts :=
        old(db).log.receipts[c := Finalized'(old(db).log.receipts[c], RejectedReceipt, reason, body, observed)]))
      ensures r.Err? ==> db == old(db) && r.error == Broken
    {
      if c !in db.log.receipts || db.log.receipts[c].status != Processing { return Err(Broken); }
      var row := Finalized'(db.log.receipts[c], RejectedReceipt, reason, body, observed);
      db := db.(log := db.log.(receipts := db.log.receipts[c := row]));
      return Ok(());
    }

    // ---------- M2 rows ----------

    method InsertProgram(row: Program) returns (r: Result<(), Raise>)
      modifies this
      ensures r == (if old(db).core.program.Some? then Err(Integrity) else Ok(()))
      ensures db == if r.Ok? then old(db).(core := old(db).core.(program := Some(row))) else old(db)
    {
      if db.core.program.Some? { return Err(Integrity); }
      db := db.(core := db.core.(program := Some(row)));
      return Ok(());
    }

    method AddMember(id: string, row: Member) returns (r: Result<(), Raise>)
      modifies this
      ensures r == (if id in old(db).core.members then Err(Integrity) else Ok(()))
      ensures db == if r.Ok? then old(db).(core := old(db).core.(members := old(db).core.members[id := row])) else old(db)
    {
      if id in db.core.members { return Err(Integrity); }
      db := db.(core := db.core.(members := db.core.members[id := row]));
      return Ok(());
    }

    method InsertPlanVersion(id: Uuid, row: PlanVersion) returns (r: Result<(), Raise>)
      modifies this
      ensures r == (if id in old(db).core.plans then Err(Integrity) else Ok(()))
      ensures db == if r.Ok? then old(db).(core := old(db).core.(plans := old(db).core.plans[id := row])) else old(db)
    {
      if id in db.core.plans { return Err(Integrity); }
      db := db.(core := db.core.(plans := db.core.plans[id := row]));
      return Ok(());
    }

    method InsertTasks(id: Uuid, rows: seq<TaskRow>) returns (r: Result<(), Raise>)
      modifies this
      ensures r == (if rows == [] then Err(Broken) else Ok(()))
      ensures db == if r.Ok? then old(db).(core := old(db).core.(tasks := old(db).core.tasks[id := rows])) else old(db)
    {
      if rows == [] { return Err(Broken); }
      db := db.(core := db.core.(tasks := db.core.tasks[id := rows]));
      return Ok(());
    }

    method InsertProposal(id: Uuid, row: Proposal) returns (r: Result<(), Raise>)
      modifies this
      ensures r == (if id in old(db).core.proposals then Err(Integrity) else Ok(()))
      ensures db == if r.Ok? then old(db).(core := old(db).core.(proposals := old(db).core.proposals[id := row])) else old(db)
    {
      if id in db.core.proposals { return Err(Integrity); }
      db := db.(core := db.core.(proposals := db.core.proposals[id := row]));
      return Ok(());
    }

    method InsertApproval(id: Uuid, row: Approval) returns (r: Result<(), Raise>)
      modifies this
      ensures r == (if id in old(db).core.approvals then Err(Integrity) else Ok(()))
      ensures db == if r.Ok? then old(db).(core := old(db).core.(approvals := old(db).core.approvals[id := row])) else old(db)
    {
      if id in db.core.approvals { return Err(Integrity); }
      db := db.(core := db.core.(approvals := db.core.approvals[id := row]));
      return Ok(());
    }

    method InsertDecision(id: Uuid, row: Decision) returns (r: Result<(), Raise>)
      modifies this
      ensures r == (if id in old(db).core.decisions then Err(Integrity) else Ok(()))
      ensures db == if r.Ok? then old(db).(core := old(db).core.(decisions := old(db).core.decisions[id := row])) else old(db)
    {
      if id in db.core.decisions { return Err(Integrity); }
      db := db.(core := db.core.(decisions := db.core.decisions[id := row]));
      return Ok(());
    }

    /** Compare and set on a proposal's status. */
    method UpdateProposalStatus(id: Uuid, expected: ProposalStatus, status: ProposalStatus) returns (r: Result<(), Raise>)
      modifies this
      ensures r == (if id in old(db).core.proposals && old(db).core.proposals[id].status == expected then Ok(()) else Err(Broken))
      ensures db == if r.Ok? then old(db).(core := old(db).core.(proposals :=
          old(db).core.proposals[id := old(db).core.proposals[id].(status := status)])) else old(db)
    {
      if id !in db.core.proposals || db.core.proposals[id].status != expected { return Err(Broken); }
      db := db.(core := db.core.(proposals := db.core.proposals[id := db.core.proposals[id].(status := status)]));
      return Ok(());
    }

    /** Compare and set on an approval request's status. */
    method UpdateApprovalStatus(id: Uuid, expected: ApprovalStatus, status: ApprovalStatus) returns (r: Result<(), Raise>)
      modifies this
      ensures r == (if id in old(db).core.approvals && old(db).core.approvals[id].status == expected then Ok(()) else Err(Broken))
      ensures db == if r.Ok? then old(db).(core := old(db).core.(approvals :=
          old(db).core.approvals[id := old(db).core.approvals[id].(status := status)])) else old(db)
    {
      if id !in db.core.approvals || db.core.approvals[id].status != expected { return Err(Broken); }
      db := db.(core := db.core.(approvals := db.core.approvals[id := db.core.approvals[id].(status := status)]));
      return Ok(());
    }

    // ---------- commit ----------

    method InsertEvents(c: Uuid, version: nat, events: seq<NewEvent>) returns (r: Result<set<Uuid>, Raise>)
      modifies this
      ensures r.Ok? <==> DistinctEvents(events) && NewEventIds(events) !! EventIds(old(db).log.events)
      ensures r.Ok? ==> r.value == NewEventIds(events)
      ensures r.Ok? ==> db == old(db).(log := old(db).log.(events := old(db).log.events + EventRows(c, version, events)))
      ensures r.Err? ==> r.error == Broken || r.error == Integrity
      ensures r.Err? && |events| == 1 ==> r.error == Integrity
    {
      var ids: set<Uuid> := {};
      ghost var before := db;
      for i := 0 to |events|
        invariant ids == NewEventIds(events[..i])
        invariant DistinctEvents(events[..i]) && ids !! EventIds(before.log.events)
        invariant db == before.(log := before.log.(events := before.log.events + EventRows(c, version, events[..i])))
      {
        var ev := events[i];
        assert events[..i + 1] == events[..i] + [ev];
        assert ev in events && ev.id in NewEventIds(events);
        if ev.id in ids {
          var j :| 0 <= j < i && events[j].id == ev.id;
          assert !DistinctEvents(events);
          return Err(Broken);
        }
        if exists old' :: old' in db.log.events && old'.id == ev.id {
          assert ev.id in EventIds(before.log.events) by {
            var old' :| old' in db.log.events && old'.id == ev.id;
            assert old' !in EventRows(c, version, events[..i]) || old'.id in ids;
          }
          return Err(Integrity);
        }
        assert ev.id !in EventIds(before.log.events) by {
          assert forall old' :: old' in before.log.events ==> old' in db.log.events;
        }
        db := db.(log := db.log.(events := db.log.events + [DomainEvent(ev.id, c, i, ev.topic, version, ev.body)]));
        ids := ids + {ev.id};
        assert EventRows(c, version, events[..i + 1]) == EventRows(c, version, events[..i]) + [DomainEvent(ev.id, c, i, ev.topic, version, ev.body)];
      }
      assert events[..|events|] == events;
      return Ok(ids);
    }

    method InsertOutboxEvents(version: nat, eventIds: set<Uuid>, outbox: seq<NewOutbox>)
      returns (r: Result<set<Uuid>, Raise>)
      modifies this
      ensures r.Ok? <==> DistinctOutbox(outbox) && NewOutboxIds(outbox) !! OutboxIds(old(db).log.outbox) && NewDomainIds(outbox) <= eventIds
      ensures r.Ok? ==> r.value == NewDomainIds(outbox)
      ensures r.Ok? ==> db == old(db).(log := old(db).log.(outbox := old(db).log.outbox + OutboxRows(version, outbox)))
      ensures r.Err? ==> r.error == Broken || r.error == Integrity
      ensures r.Err? && |outbox| == 1 && outbox[0].domainEvent in eventIds ==> r.error == Integrity
    {
      hide DistinctOutbox, NewOutboxIds, NewDomainIds, OutboxIds, OutboxRows;
      NoOutboxRows(version, db.log.outbox);
      var domainIds: set<Uuid> := {};
      ghost var before := db;
      for i := 0 to |outbox|
        invariant domainIds == NewDomainIds(outbox[..i]) && domainIds <= eventIds
        invariant DistinctOutbox(outbox[..i]) && NewOutboxIds(outbox[..i]) !! OutboxIds(before.log.outbox)
        invariant db == before.(log := before.log.(outbox := before.log.outbox + OutboxRows(version, outbox[..i])))
      {
        var o := outbox[i];
        OneMoreOutboxRow(version, outbox, i);
        assert o in outbox && o.domainEvent in NewDomainIds(outbox);
        if o.domainEvent !in eventIds { return Err(Broken); }
        if o.domainEvent in domainIds {
          RepeatedReference(outbox, i);
          return Err(Broken);
        }
        if exists row :: row in db.log.outbox && row.id == o.id {
          UsedOutboxId(before.log.outbox, version, outbox, i);
          return Err(Integrity);
        }
        FreshOutboxRow(before.log.outbox, version, outbox, i);
        var row := OutboxEvent(o.id, o.domainEvent, o.aggregate, version, o.topic, o.body);
        db := db.(log := db.log.(outbox := db.log.outbox + [row]));
        domainIds := domainIds + {o.domainEvent};
      }
      assert outbox[..|outbox|] == outbox;
      return Ok(domainIds);
    }

    /** Aggregate, events, outbox and receipt of one M2 or M3 command. */
    method CommitStateChange(c: Uuid, expected: nat, active: Option<Uuid>, body: Payload, events: seq<NewEvent>,
            outbox: seq<NewOutbox>)
      returns (r: Result<nat, Raise>)
      modifies this
      ensures r.Ok? <==> Commits(old(db), c, expected, events, outbox)
      ensures r.Ok? ==> r.value == expected + 1
      ensures r.Ok? ==> db == Tables(BumpedTo(old(db).core, active), old(db).ingest, old(db).budget,
                                     CommittedLog(old(db).log, c, expected + 1, body, events, outbox))
      ensures r.Err? && r.error.StaleVersion? ==>
        && db == old(db) && db.core.program.Some? && db.core.program.value.stateVersion != expected
        && r.error == StaleVersion(expected, db.core.program.value.stateVersion)
      ensures r.Err? ==> r.error == Broken || r.error == Integrity || r.error == ProgramMissing || r.error.StaleVersion?
      ensures (r.Err? && |events| == |outbox| == 1 && outbox[0].domainEvent == events[0].id && IsProcessing(old(db).log, c)
               && old(db).core.program.Some? && old(db).core.program.value.stateVersion == expected) ==> r.error == Integrity
    {
      hide EventIds, NewOutboxIds, DistinctEvents, DistinctOutbox, EventRows, OutboxRows;
      if events == [] || outbox == [] || |events| != |outbox| { return Err(Broken); }
      if db.core.program.None? { return Err(ProgramMissing); }
      if db.core.program.value.stateVersion != expected {
        return Err(StaleVersion(expected, db.core.program.value.stateVersion));
      }
      db := db.(core := BumpedTo(db.core, active));
      var version := expected + 1;
      var eventIds :- InsertEvents(c, version, events);
      if |events| == 1 { assert events[0] in events; assert events[0].id in NewEventIds(events); }
      var domainIds :- InsertOutboxEvents(version, eventIds, outbox);
      OutboxCoversEvents(events, outbox);
      if domainIds != eventIds { return Err(Broken); }
      if c !in db.log.receipts || db.log.receipts[c].status != Processing { return Err(Broken); }
      var receipt := Finalized'(db.log.receipts[c], CommittedReceipt, Okay, body, Some(version));
      db := db.(log := db.log.(receipts := db.log.receipts[c := receipt]));
      return Ok(version);
    }

    /** Event, outbox row and receipt of one M4 command; the Program row is read, not written. */
    method CommitAuxiliaryChange(c: Uuid, observed: nat, body: Payload, event: NewEvent, o: NewOutbox, aggregateVersion: nat)
      returns (r: Result<nat, Raise>)
      modifies this
      ensures r.Ok? <==>
        && o.domainEvent == event.id && old(db).core.program.Some? && old(db).core.program.value.stateVersion == observed
        && event.id !in EventIds(old(db).log.events) && o.id !in OutboxIds(old(db).log.outbox) && IsProcessing(old(db).log, c)
      ensures r.Ok? ==> r.value == observed
      ensures r.Ok? ==> db == old(db).(log := Log(
        old(db).log.receipts[c := Finalized'(old(db).log.receipts[c], CommittedReceipt, Okay, body, Some(observed))],
        old(db).log.events + [DomainEvent(event.id, c, 0, event.topic, observed, event.body)],
        old(db).log.outbox + [OutboxEvent(o.id, event.id, o.aggregate, aggregateVersion, o.topic, o.body)]))
      ensures r.Err? ==> r.error == Broken || r.error == Integrity
      ensures (r.Err? && o.domainEvent == event.id && IsProcessing(old(db).log, c)
               && old(db).core.program.Some? && old(db).core.program.value.stateVersion == observed) ==> r.error == Integrity
    {
      if o.domainEvent != event.id { return Err(Broken); }
      if db.core.program.None? || db.core.program.value.stateVersion != observed { return Err(Broken); }
      if event.id in EventIds(db.log.events) { return Err(Integrity); }
      db := db.(log := db.log.(events := db.log.events + [DomainEvent(event.id, c, 0, event.topic, observed, event.body)]));
      if o.id in OutboxIds(db.log.outbox) { return Err(Integrity); }
      db := db.(log := db.log.(outbox := db.log.outbox + [OutboxEvent(o.id, event.id, o.aggregate, aggregateVersion, o.topic, o.body)]));
      if c !in db.log.receipts || db.log.receipts[c].status != Processing { return Err(Broken); }
      var receipt := Finalized'(db.log.receipts[c], CommittedReceipt, Okay, body, Some(observed));
      db := db.(log := db.log.(receipts := db.log.receipts[c := receipt]));
      return Ok(observed);
    }

    // ---------- M3 rows ----------

    method InsertJob(id: Uuid, row: Job) returns (r: Result<(), Raise>)
      modifies this
      ensures r == (if id in old(db).ingest.jobs then Err(Integrity) else Ok(()))
      ensures db == if r.Ok? then old(db).(ingest := old(db).ingest.(jobs := old(db).ingest.jobs[id := row])) else old(db)
    {
      if id in db.ingest.jobs { return Err(Integrity); }
      db := db.(ingest := db.ingest.(jobs := db.ingest.jobs[id := row]));
      return Ok(());
    }

    /** The outbox row of an ingest request, joined with its domain event. */
    method GetCommittedIngestRequest(ref: OutboxRef, job: Uuid) returns (r: Option<OutboxEvent>)
      ensures r.Some? ==>
        r.value in db.log.outbox && IsIngestRequest(r.value, ref, job) && IsRequestEvent(db.log.events, r.value.domainEvent)
      ensures r.None? ==> forall o :: o in db.log.outbox && IsIngestRequest(o, ref, job) ==> !IsRequestEvent(db.log.events, o.domainEvent)
    {
      if exists o :: o in db.log.outbox && IsIngestRequest(o, ref, job) && IsRequestEvent(db.log.events, o.domainEvent) {
        var o :| o in db.log.outbox && IsIngestRequest(o, ref, job) && IsRequestEvent(db.log.events, o.domainEvent);
        return Some(o);
      }
      return None;
    }

    /** Guarded update of a job: status and version must both match. */
    method TransitionJob(id: Uuid, expected: int, status: JobStatus, row: Job -> Job) returns (r: Result<Job, Raise>)
      modifies this
      ensures r.Ok? <==> JobProblemOf(old(db).ingest, id, expected, status).None?
      ensures r.Err? ==> db == old(db) && r.error.JobConflict? && Some(r.error.problem) == JobProblemOf(old(db).ingest, id, expected, status)
      ensures r.Ok? ==> id in old(db).ingest.jobs && r.value == row(old(db).ingest.jobs[id]).(version := expected + 1)
      ensures r.Ok? ==> db == old(db).(ingest := old(db).ingest.(jobs := old(db).ingest.jobs[id := r.value]))
    {
      if id in db.ingest.jobs && db.ingest.jobs[id].status == status && db.ingest.jobs[id].version == expected {
        var next := row(db.ingest.jobs[id]).(version := expected + 1);
        db := db.(ingest := db.ingest.(jobs := db.ingest.jobs[id := next]));
        return Ok(next);
      }
      if id !in db.ingest.jobs { return Err(JobConflict(JobMissing)); }
      if db.ingest.jobs[id].version != expected { return Err(JobConflict(StaleJob(expected, db.ingest.jobs[id].version))); }
      return Err(JobConflict(WrongJobStatus));
    }

    /** Insert a receipt and its item, unless the job has a receipt: then that one and the item stored for it
        must repeat the given ones, all but the issue time, and nothing is written. */
    method RegisterReceiptAndItemIfAbsent(receipt: EvidenceReceipt, itemId: Uuid, item: EvidenceItem)
      returns (r: Result<bool, Raise>)
      modifies this
      ensures !HasReceipt(old(db).ingest, receipt.job) ==>
        r == if receipt.receiptId in old(db).ingest.receipts || itemId in old(db).ingest.items then Err(Integrity) else Ok(true)
      ensures r == Ok(true) ==> db == old(db).(ingest := Ingest(old(db).ingest.jobs,
        old(db).ingest.receipts[receipt.receiptId := receipt], old(db).ingest.items[itemId := item]))
      ensures HasReceipt(old(db).ingest, receipt.job) ==>
        && db == old(db) && (r == Ok(false) || r == Err(Broken))
        && (r == Ok(false) ==> SomeReceiptRepeats(db.ingest, receipt) && ItemRepeats(db.ingest, receipt, itemId, item))
        && (r == Err(Broken) ==> SomeReceiptDiffers(db.ingest, receipt) || SomeItemDiffers(db.ingest, receipt, itemId, item)
                                 || !ReceiptHasItem(db.ingest, receipt))
    {
      if exists k :: k in db.ingest.receipts && db.ingest.receipts[k].job == receipt.job {
        var k :| k in db.ingest.receipts && db.ingest.receipts[k].job == receipt.job;
        if !Repeats(db.ingest.receipts[k], receipt) { return Err(Broken); }
        if !exists x :: x in db.ingest.items && db.ingest.items[x].receipt == receipt.receiptId { return Err(Broken); }
        var x :| x in db.ingest.items && db.ingest.items[x].receipt == receipt.receiptId;
        if x != itemId || db.ingest.items[x] != item { return Err(Broken); }
        return Ok(false);
      }
      if receipt.receiptId in db.ingest.receipts { return Err(Integrity); }
      db := db.(ingest := db.ingest.(receipts := db.ingest.receipts[receipt.receiptId := receipt]));
      if itemId in db.ingest.items { return Err(Integrity); }
      db := db.(ingest := db.ingest.(items := db.ingest.items[itemId := item]));
      return Ok(true);
    }

    // ---------- M4 rows ----------

    method InsertSnapshot(id: Uuid, row: RuntimeConfig) returns (r: Result<(), Raise>)
      modifies this
      ensures r == (if id in old(db).budget.snapshots then Err(Integrity) else Ok(()))
      ensures db == if r.Ok? then old(db).(budget := old(db).budget.(snapshots := old(db).budget.snapshots[id := row])) else old(db)
    {
      if id in db.budget.snapshots { return Err(Integrity); }
      db := db.(budget := db.budget.(snapshots := db.budget.snapshots[id := row]));
      return Ok(());
    }

    method InsertReservation(id: Uuid, row: Reservation) returns (r: Result<(), Raise>)
      modifies this
      ensures r == (if id in old(db).budget.reservations then Err(Integrity) else Ok(()))
      ensures db == if r.Ok? then old(db).(budget := old(db).budget.(reservations := old(db).budget.reservations[id := row])) else old(db)
    {
      if id in db.budget.reservations { return Err(Integrity); }
      db := db.(budget := db.budget.(reservations := db.budget.reservations[id := row]));
      return Ok(());
    }

    method InsertLedgerRow(id: Uuid, row: LedgerRow) returns (r: Result<(), Raise>)
      modifies this
      ensures r == (if id in old(db).budget.ledger then Err(Integrity) else Ok(()))
      ensures db == if r.Ok? then old(db).(budget := old(db).budget.(ledger := old(db).budget.ledger[id := row])) else old(db)
    {
      if id in db.budget.ledger { return Err(Integrity); }
      db := db.(budget := db.budget.(ledger := db.budget.ledger[id := row]));
      return Ok(());
    }

    /** Guarded update: only a reservation that is still reserved at version 1 is settled. */
    method SettleReservation(id: Uuid, row: Reservation -> Reservation) returns (r: Result<Reservation, Raise>)
      modifies this
      ensures r.Ok? <==> id in old(db).budget.reservations && old(db).budget.reservations[id].status == Reserved
                         && old(db).budget.reservations[id].version == 1
      ensures r.Ok? ==> r.value == row(old(db).budget.reservations[id]).(version := 2)
      ensures r.Ok? ==> db == old(db).(budget := old(db).budget.(reservations := old(db).budget.reservations[id := r.value]))
      ensures r.Err? ==> db == old(db) && (r.error == ReservationMissing || r.error == WrongReservationStatus)
    {
      if id in db.budget.reservations && db.budget.reservations[id].status == Reserved && db.budget.reservations[id].version == 1 {
        var next := row(db.budget.reservations[id]).(version := 2);
        db := db.(budget := db.budget.(reservations := db.budget.reservations[id := next]));
        return Ok(next);
      }
      if id !in db.budget.reservations { return Err(ReservationMissing); }
      return Err(WrongReservationStatus);
    }

    /** One aggregate of the totals query. */
    method GetTotal(m: Measure, s: Scope) returns (t: nat)
      ensures t == Total(db.budget.reservations, m, s)
    {
      hide Total, Weight;
      var rest := db.budget.reservations;
      t := 0;
      TotalOfNothing(m, s);
      while rest != map[]
        invariant t + Total(rest, m, s) == Total(db.budget.reservations, m, s)
        decreases |rest|
      {
        var k :| k in rest;
        t := t + Weight(m, s, rest[k]);
        TotalTake(rest, k, m, s);
        rest := rest - {k};
      }
    }

    /** The totals query behind both budget gates. */
    method GetTotals(s: Scope) returns (t: Totals)
      ensures t == TotalsOf(db.budget.reservations, s)
    {
      var calls := GetTotal(Calls, s);
      var input := GetTotal(Holding(InputTokens), s);
      var output := GetTotal(Holding(OutputTokens), s);
      var cost := GetTotal(Holding(CostUnits), s);
      t := Totals(calls, Amounts(input, output, cost));
    }
  }

  lemma TotalOfNothing(m: Measure, s: Scope)
    ensures Total(map[], m, s) == 0
  {
    assert Weights(map[], m, s) == map[];
  }

  lemma TotalTake(rows: map<Uuid, Reservation>, k: Uuid, m: Measure, s: Scope)
    requires k in rows
    ensures Total(rows, m, s) == Weight(m, s, rows[k]) + Total(rows - {k}, m, s)
  {
    assert Weights(rows - {k}, m, s) == Weights(rows, m, s) - {k};
    SumTake(Weights(rows, m, s), k);
  }

  predicate IsRequestEvent(events: seq<DomainEvent>, id: Uuid) {
    exists ev :: ev in events && ev.id == id && ev.topic == IngestRequestedTopic
  }
}
