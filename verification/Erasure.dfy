/** M4 is an add-on: leaving all its commands out of a run changes nothing for M2 and M3. */
module Erasure {
  import opened Base
  import Plans
  import opened Tables
  import opened Spec
  import opened LogInvariant
  import Answers

  // ---------- what M2 and M3 see ----------

  function VisibleReceipts(receipts: map<Uuid, CommandReceipt>): map<Uuid, CommandReceipt> {
    map c | c in receipts && !IsM4(receipts[c].hash.command) :: receipts[c]
  }

  function VisibleEvents(events: seq<DomainEvent>): seq<DomainEvent> {
    if events == [] then []
    else VisibleEvents(events[..|events| - 1]) + (if IsM4Topic(events[|events| - 1].topic) then [] else [events[|events| - 1]])
  }

  function VisibleOutbox(outbox: seq<OutboxEvent>): seq<OutboxEvent> {
    if outbox == [] then []
    else VisibleOutbox(outbox[..|outbox| - 1]) + (if IsM4Topic(outbox[|outbox| - 1].topic) then [] else [outbox[|outbox| - 1]])
  }

  function VisibleLog(log: Log): Log {
    Log(VisibleReceipts(log.receipts), VisibleEvents(log.events), VisibleOutbox(log.outbox))
  }

  /** Everything but the budget rows and the M4 part of the log. */
  function Visible(db: Tables): Tables {
    Tables(db.core, db.ingest, EmptyTables.budget, VisibleLog(db.log))
  }

  // ---------- identifiers ----------

  /** The keys and identifiers a set of calls brings along. */
  datatype Names = Names(keys: set<string>, commands: set<Uuid>, events: set<Uuid>, outbox: set<Uuid>)

  predicate Named(names: Names, call: Call) {
    && call.envelope.key in names.keys && call.envelope.commandId in names.commands
    && call.input.event in names.events && call.input.outboxEvent in names.outbox
  }

  predicate Avoids(names: Names, call: Call) {
    && call.envelope.key !in names.keys && call.envelope.commandId !in names.commands
    && call.input.event !in names.events && call.input.outboxEvent !in names.outbox
  }

  /** M4 calls use only these names, the other calls none of them. */
  ghost predicate Separated(calls: seq<Call>, names: Names) {
    forall i :: 0 <= i < |calls| ==> if IsM4(calls[i].envelope.command) then Named(names, calls[i]) else Avoids(names, calls[i])
  }

  /** What is not visible bears M4 names. */
  ghost predicate HiddenIsNamed(log: Log, names: Names) {
    && (forall c :: c in log.receipts && IsM4(log.receipts[c].hash.command) ==> c in names.commands && log.receipts[c].key in names.keys)
    && (forall ev :: ev in log.events && IsM4Topic(ev.topic) ==> ev.id in names.events)
    && (forall o :: o in log.outbox && IsM4Topic(o.topic) ==> o.id in names.outbox)
  }

  // ---------- lookups see the same ----------

  lemma {:induction false} VisibleEventsHolds(events: seq<DomainEvent>)
    ensures forall ev :: ev in VisibleEvents(events) <==> ev in events && !IsM4Topic(ev.topic)
  {
    if events != [] {
      var front, last := events[..|events| - 1], events[|events| - 1];
      VisibleEventsHolds(front);
      assert events == front + [last];
    }
  }

  lemma {:induction false} VisibleOutboxHolds(outbox: seq<OutboxEvent>)
    ensures forall o :: o in VisibleOutbox(outbox) <==> o in outbox && !IsM4Topic(o.topic)
  {
    if outbox != [] {
      var front, last := outbox[..|outbox| - 1], outbox[|outbox| - 1];
      VisibleOutboxHolds(front);
      assert outbox == front + [last];
    }
  }

  lemma SameLookups(log: Log, names: Names, call: Call)
    requires HiddenIsNamed(log, names) && Avoids(names, call)
    ensures
      var e, v := call.envelope, VisibleLog(log);
      && (KeyTaken(v, e.key) <==> KeyTaken(log, e.key))
      && (e.commandId in v.receipts <==> e.commandId in log.receipts)
      && (call.input.event in EventIds(v.events) <==> call.input.event in EventIds(log.events))
      && (call.input.outboxEvent in OutboxIds(v.outbox) <==> call.input.outboxEvent in OutboxIds(log.outbox))
  {
    hide IsM4, IsM4Topic;
    VisibleEventsHolds(log.events);
    VisibleOutboxHolds(log.outbox);
    if KeyTaken(log, call.envelope.key) {
      var c :| c in log.receipts && log.receipts[c].key == call.envelope.key;
      assert c in VisibleReceipts(log.receipts);
    }
  }

  lemma SameReceipt(log: Log, names: Names, key: string)
    requires HiddenIsNamed(log, names) && key !in names.keys && ReceiptsFinal(log.receipts) && KeyTaken(log, key)
    ensures KeyTaken(VisibleLog(log), key)
    ensures ReceiptOf(VisibleLog(log), key) == ReceiptOf(log, key)
    ensures VisibleLog(log).receipts[ReceiptOf(log, key)] == log.receipts[ReceiptOf(log, key)]
  {
    hide IsM4, IsM4Topic, VisibleEvents, VisibleOutbox;
    var c := ReceiptOf(log, key);
    assert c in VisibleReceipts(log.receipts);
    assert KeyTaken(VisibleLog(log), key);
  }

  lemma SameClaims(log: Log, ref: OutboxRef, job: Uuid)
    ensures ClaimBound(VisibleLog(log), ref, job) <==> ClaimBound(log, ref, job)
  {
    VisibleOutboxHolds(log.outbox);
  }

  // ---------- M2 and M3 commands ----------

  /** The same ruling on the visible rows: only the budget rows it carries along differ. */
  function VisibleRuling(r: Ruling): Ruling {
    if r.Perform? then Perform(r.effect.(budget := EmptyTables.budget)) else r
  }

  lemma SameMeaning(cfg: Config, db: Tables, e: Envelope, input: Inputs)
    requires !IsM4(e.command) && (e.command.CreateProgram? || db.core.program.Some?)
    ensures Meaning(cfg, Visible(db), e, input) == VisibleRuling(Meaning(cfg, db, e, input))
  {
    hide VisibleLog, ClaimBound, WithMembers, DecisionRefusal, AppliedRows, NewPlanVersion, ReceiptRefusal, RejectionRefusal,
      ItemFor, SubmittedRows, ApplyRefusal, ReleasedBy, ProposedContent, Plans.ApplyChange;
    if e.command.ClaimJob? { SameClaims(db.log, e.command.outboxRef, e.command.job); }
  }

  lemma PerformsForM2AndM3(cfg: Config, db: Tables, e: Envelope, input: Inputs)
    requires !IsM4(e.command) && (e.command.CreateProgram? || db.core.program.Some?) && Meaning(cfg, db, e, input).Perform?
    ensures !IsM4Topic(Meaning(cfg, db, e, input).effect.topic)
  {
    hide ClaimBound, WithMembers, DecisionRefusal, AppliedRows, NewPlanVersion, ReceiptRefusal, RejectionRefusal,
      ItemFor, SubmittedRows, ApplyRefusal, ReleasedBy, ProposedContent, Plans.ApplyChange;
  }

  lemma NewReceiptIsVisible(receipts: map<Uuid, CommandReceipt>, c: Uuid, r: CommandReceipt)
    requires !IsM4(r.hash.command) && c !in receipts
    ensures VisibleReceipts(receipts[c := r]) == VisibleReceipts(receipts)[c := r]
  {
    hide IsM4;
  }

  lemma NewEventIsVisible(events: seq<DomainEvent>, ev: DomainEvent, outbox: seq<OutboxEvent>, o: OutboxEvent)
    requires !IsM4Topic(ev.topic) && !IsM4Topic(o.topic)
    ensures VisibleEvents(events + [ev]) == VisibleEvents(events) + [ev]
    ensures VisibleOutbox(outbox + [o]) == VisibleOutbox(outbox) + [o]
  {
    assert (events + [ev])[..|events|] == events;
    assert (outbox + [o])[..|outbox|] == outbox;
  }

  ghost predicate SameOutcome(o: Outcome, v: Outcome) {
    v.db == Visible(o.db) && v.result == o.result
  }

  lemma SameRefusing(db: Tables, e: Envelope, r: Rejection)
    requires !IsM4(e.command) && e.commandId !in db.log.receipts
    ensures SameOutcome(Refusing(db, e, r), Refusing(Visible(db), e, r))
  {
    hide VisibleEvents, VisibleOutbox, VisibleReceipts, IsM4;
    NewReceiptIsVisible(db.log.receipts, e.commandId, Refusing(db, e, r).db.log.receipts[e.commandId]);
  }

  lemma SameCommitting(db: Tables, names: Names, call: Call, f: Effect)
    requires !IsM4(call.envelope.command) && !IsM4Topic(f.topic) && f.core.program.Some?
    requires call.envelope.commandId !in db.log.receipts && HiddenIsNamed(db.log, names) && Avoids(names, call)
    ensures SameOutcome(Committing(db, call.envelope, call.input, f),
                        Committing(Visible(db), call.envelope, call.input, f.(budget := EmptyTables.budget)))
  {
    var e, input := call.envelope, call.input;
    SameLookups(db.log, names, call);
    hide VisibleEvents, VisibleOutbox, VisibleReceipts, IsM4, IsM4Topic, HiddenIsNamed, EventIds, OutboxIds;
    var o := Committing(db, e, input, f);
    if input.event !in EventIds(db.log.events) && input.outboxEvent !in OutboxIds(db.log.outbox) {
      NewReceiptIsVisible(db.log.receipts, e.commandId, o.db.log.receipts[e.commandId]);
      NewEventIsVisible(db.log.events, o.db.log.events[|db.log.events|], db.log.outbox, o.db.log.outbox[|db.log.outbox|]);
    }
  }

  lemma SameConclude(db: Tables, names: Names, call: Call, ruling: Ruling)
    requires !IsM4(call.envelope.command) && call.envelope.commandId !in db.log.receipts
    requires HiddenIsNamed(db.log, names) && Avoids(names, call)
    requires ruling.Perform? ==> !IsM4Topic(ruling.effect.topic)
    ensures SameOutcome(Conclude(db, call.envelope, call.input, ruling),
                        Conclude(Visible(db), call.envelope, call.input, VisibleRuling(ruling)))
  {
    hide IsM4, IsM4Topic, HiddenIsNamed, Avoids, VisibleLog, Refusing, Committing;
    match ruling
    case Refuse(r) => SameRefusing(db, call.envelope, r);
    case Abort =>
    case Perform(f) => if f.core.program.Some? { SameCommitting(db, names, call, f); }
  }

  lemma SameRulings(cfg: Config, db: Tables, e: Envelope, input: Inputs)
    requires !IsM4(e.command) && (e.command.CreateProgram? || db.core.program.Some?)
    ensures RulingOf(cfg, Visible(db), e, input) == VisibleRuling(RulingOf(cfg, db, e, input))
    ensures RulingOf(cfg, db, e, input).Perform? ==> !IsM4Topic(RulingOf(cfg, db, e, input).effect.topic)
  {
    SameMeaning(cfg, db, e, input);
    if Meaning(cfg, db, e, input).Perform? { PerformsForM2AndM3(cfg, db, e, input); }
    hide IsM4, IsM4Topic, VisibleLog, Meaning, VersionRefusal;
  }

  lemma SameExecute(cfg: Config, db: Tables, names: Names, call: Call)
    requires !IsM4(call.envelope.command) && (call.envelope.command.CreateProgram? || db.core.program.Some?)
    requires HiddenIsNamed(db.log, names) && Avoids(names, call)
    ensures SameOutcome(Execute(cfg, db, call.envelope, call.input), Execute(cfg, Visible(db), call.envelope, call.input))
  {
    var e, input := call.envelope, call.input;
    hide IsM4, IsM4Topic, HiddenIsNamed, Avoids, VisibleLog, RulingOf, Conclude, KeyTaken, EventIds, OutboxIds;
    SameLookups(db.log, names, call);
    SameRulings(cfg, db, e, input);
    if e.commandId !in db.log.receipts {
      SameConclude(db, names, call, RulingOf(cfg, db, e, input));
    }
  }

  /** An M2 or M3 command answers and changes the same, whether or not M4 rows are there. */
  lemma SameStep(cfg: Config, db: Tables, names: Names, call: Call)
    requires !IsM4(call.envelope.command) && ReceiptsFinal(db.log.receipts)
    requires HiddenIsNamed(db.log, names) && Avoids(names, call)
    ensures SameOutcome(Step(cfg, db, call.envelope, call.input), Step(cfg, Visible(db), call.envelope, call.input))
  {
    var e, input := call.envelope, call.input;
    SameLookups(db.log, names, call);
    hide IsM4, Execute, VisibleLog, Admit;
    if KeyTaken(db.log, e.key) {
      SameReceipt(db.log, names, e.key);
    } else if e.command.CreateProgram? || db.core.program.Some? {
      SameExecute(cfg, db, names, call);
    }
  }

  // ---------- M4 commands ----------

  lemma M4MeaningKeepsRows(cfg: Config, db: Tables, e: Envelope, input: Inputs)
    requires IsM4(e.command) && db.core.program.Some? && Meaning(cfg, db, e, input).Perform?
    ensures
      var f := Meaning(cfg, db, e, input).effect;
      f.core == db.core && f.ingest == db.ingest && IsM4Topic(f.topic)
  {
    hide Violations, CallTaken, Exceeds;
  }

  lemma HiddenReceipt(receipts: map<Uuid, CommandReceipt>, c: Uuid, r: CommandReceipt)
    requires IsM4(r.hash.command) && c !in receipts
    ensures VisibleReceipts(receipts[c := r]) == VisibleReceipts(receipts)
  {
    hide IsM4;
  }

  lemma HiddenEvent(events: seq<DomainEvent>, ev: DomainEvent, outbox: seq<OutboxEvent>, o: OutboxEvent)
    requires IsM4Topic(ev.topic) && IsM4Topic(o.topic)
    ensures VisibleEvents(events + [ev]) == VisibleEvents(events)
    ensures VisibleOutbox(outbox + [o]) == VisibleOutbox(outbox)
  {
    assert (events + [ev])[..|events|] == events;
    assert (outbox + [o])[..|outbox|] == outbox;
  }

  lemma M4Refusing(db: Tables, e: Envelope, r: Rejection)
    requires IsM4(e.command) && e.commandId !in db.log.receipts
    ensures Visible(Refusing(db, e, r).db) == Visible(db)
  {
    hide VisibleEvents, VisibleOutbox, VisibleReceipts, IsM4;
    HiddenReceipt(db.log.receipts, e.commandId, Refusing(db, e, r).db.log.receipts[e.commandId]);
  }

  lemma M4Committing(db: Tables, e: Envelope, input: Inputs, f: Effect)
    requires IsM4(e.command) && e.commandId !in db.log.receipts
    requires f.core.program.Some? && f.core == db.core && f.ingest == db.ingest && IsM4Topic(f.topic)
    ensures Visible(Committing(db, e, input, f).db) == Visible(db)
  {
    hide VisibleEvents, VisibleOutbox, VisibleReceipts, IsM4, IsM4Topic, EventIds, OutboxIds;
    var o := Committing(db, e, input, f);
    if input.event !in EventIds(db.log.events) && input.outboxEvent !in OutboxIds(db.log.outbox) {
      HiddenReceipt(db.log.receipts, e.commandId, o.db.log.receipts[e.commandId]);
      HiddenEvent(db.log.events, o.db.log.events[|db.log.events|], db.log.outbox, o.db.log.outbox[|db.log.outbox|]);
    }
  }

  /** An M4 command leaves everything M2 and M3 see as it was, the state version included. */
  lemma M4StepIsInvisible(cfg: Config, db: Tables, e: Envelope, input: Inputs)
    requires IsM4(e.command)
    ensures Visible(Step(cfg, db, e, input).db) == Visible(db)
  {
    hide Visible, Meaning, Refusing, Committing, Admit, VersionRefusal, IsM4Topic;
    if db.core.program.Some? && e.commandId !in db.log.receipts {
      var ruling := RulingOf(cfg, db, e, input);
      assert VersionRefusal(db.core, e.command).None? by { NoExpectedVersion(db.core, e.command); }
      match ruling
      case Refuse(r) => M4Refusing(db, e, r);
      case Abort =>
      case Perform(f) =>
        M4MeaningKeepsRows(cfg, db, e, input);
        M4Committing(db, e, input, f);
    }
  }

  lemma NoExpectedVersion(core: Core, c: Command)
    requires core.program.Some? && IsM4(c)
    ensures VersionRefusal(core, c).None?
  {
  }

  // ---------- hidden rows keep M4 names ----------

  lemma ConcludeNames(db: Tables, names: Names, call: Call, ruling: Ruling)
    requires HiddenIsNamed(db.log, names)
    requires IsM4(call.envelope.command) ==> Named(names, call)
    requires ruling.Perform? && IsM4Topic(ruling.effect.topic) ==> IsM4(call.envelope.command)
    ensures HiddenIsNamed(Conclude(db, call.envelope, call.input, ruling).db.log, names)
  {
    hide IsM4, IsM4Topic, EventIds, OutboxIds;
  }

  lemma StepNames(cfg: Config, db: Tables, names: Names, call: Call)
    requires HiddenIsNamed(db.log, names)
    requires IsM4(call.envelope.command) ==> Named(names, call)
    ensures HiddenIsNamed(Step(cfg, db, call.envelope, call.input).db.log, names)
  {
    var e, input := call.envelope, call.input;
    hide RulingOf, Conclude, Admit, IsM4, IsM4Topic, HiddenIsNamed;
    if e.command.CreateProgram? || db.core.program.Some? {
      if RulingOf(cfg, db, e, input).Perform? { TopicOfCommand(cfg, db, e, input); }
      ConcludeNames(db, names, call, RulingOf(cfg, db, e, input));
    }
  }

  lemma TopicOfCommand(cfg: Config, db: Tables, e: Envelope, input: Inputs)
    requires (e.command.CreateProgram? || db.core.program.Some?) && RulingOf(cfg, db, e, input).Perform?
    ensures IsM4Topic(RulingOf(cfg, db, e, input).effect.topic) ==> IsM4(e.command)
  {
    hide Meaning, IsM4Topic;
    if !IsM4(e.command) { PerformsForM2AndM3(cfg, db, e, input); }
  }

  // ---------- runs ----------

  function WithoutM4(calls: seq<Call>): seq<Call> {
    if calls == [] then []
    else
      WithoutM4(calls[..|calls| - 1])
      + (if IsM4(calls[|calls| - 1].envelope.command) then [] else [calls[|calls| - 1]])
  }

  lemma {:induction false} ErasedRun(cfg: Config, calls: seq<Call>, names: Names)
    requires Separated(calls, names)
    ensures Visible(Run(cfg, EmptyTables, calls)) == Run(cfg, EmptyTables, WithoutM4(calls))
    ensures HiddenIsNamed(Run(cfg, EmptyTables, calls).log, names)
    decreases |calls|
  {
    hide Step, Visible, HiddenIsNamed, IsM4;
    if calls == [] {
      NothingHidden(names);
    } else {
      var front, last := calls[..|calls| - 1], calls[|calls| - 1];
      ErasedRun(cfg, front, names);
      var db := Run(cfg, EmptyTables, front);
      StepNames(cfg, db, names, last);
      if IsM4(last.envelope.command) {
        M4StepIsInvisible(cfg, db, last.envelope, last.input);
        assert WithoutM4(calls) == WithoutM4(front);
      } else {
        FinalAfterRun(cfg, front);
        SameStep(cfg, db, names, last);
        assert WithoutM4(calls)[..|WithoutM4(calls)| - 1] == WithoutM4(front);
      }
    }
  }

  lemma NothingHidden(names: Names)
    ensures HiddenIsNamed(EmptyTables.log, names) && Visible(EmptyTables) == EmptyTables
  {
  }

  lemma {:induction false} FinalAfterRun(cfg: Config, calls: seq<Call>)
    ensures ReceiptsFinal(Run(cfg, EmptyTables, calls).log.receipts)
  {
    Answers.OneReceiptPerKey(cfg, calls);
  }

  /** Deleting every M4 command from a run whose M4 calls use keys and identifiers of their own leaves
      the same M2 and M3 rows, events and version, and the next M2 or M3 command gets the same answer. */
  lemma {:induction false} M4IsErasable(cfg: Config, calls: seq<Call>, names: Names, next: Call)
    requires Separated(calls, names) && !IsM4(next.envelope.command) && Avoids(names, next)
    ensures Visible(Run(cfg, EmptyTables, calls)) == Run(cfg, EmptyTables, WithoutM4(calls))
    ensures Step(cfg, Run(cfg, EmptyTables, calls), next.envelope, next.input).result
         == Step(cfg, Run(cfg, EmptyTables, WithoutM4(calls)), next.envelope, next.input).result
  {
    hide Step, Visible, HiddenIsNamed, IsM4, Run;
    ErasedRun(cfg, calls, names);
    FinalAfterRun(cfg, calls);
    SameStep(cfg, Run(cfg, EmptyTables, calls), names, next);
  }
}
