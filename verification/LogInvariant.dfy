/** Command receipts, domain events and outbox rows: what every reachable state satisfies. */
module LogInvariant {
  import opened Base
  import opened Tables
  import opened Spec

  type ReceiptMap = map<Uuid, CommandReceipt>

  /** No receipt is left in progress or records an aborted transaction, and one key belongs to one receipt. */
  ghost predicate ReceiptsFinal(receipts: ReceiptMap) {
    && (forall c :: c in receipts ==> receipts[c].status != Processing && receipts[c].reason != TransactionAborted)
    && (forall c, d :: c in receipts && d in receipts && receipts[c].key == receipts[d].key ==> c == d)
  }

  predicate Mirrors(o: OutboxEvent, ev: DomainEvent) {
    o.domainEvent == ev.id && o.topic == ev.topic && o.body == ev.body
  }

  /** The outbox copies the events one for one; identifiers are unique. */
  ghost predicate OutboxMirrors(events: seq<DomainEvent>, outbox: seq<OutboxEvent>) {
    && |outbox| == |events|
    && (forall i :: 0 <= i < |events| ==> Mirrors(outbox[i], events[i]))
    && (forall i, j :: 0 <= i < j < |events| ==> events[i].id != events[j].id)
    && (forall i, j :: 0 <= i < j < |outbox| ==> outbox[i].id != outbox[j].id)
  }

  /** Number of M2 and M3 events. */
  function VersionEvents(events: seq<DomainEvent>): nat {
    if events == [] then 0
    else VersionEvents(events[..|events| - 1]) + (if IsM4Topic(events[|events| - 1].topic) then 0 else 1)
  }

  /** Event i carries the version reached by it: M2 and M3 events are numbered 1..n in order. */
  ghost predicate VersionsInOrder(events: seq<DomainEvent>, version: nat) {
    && version == VersionEvents(events)
    && forall i :: 0 <= i < |events| ==> events[i].stateVersion == VersionEvents(events[..i + 1])
  }

  predicate EventOfReceipt(receipts: ReceiptMap, ev: DomainEvent) {
    && ev.command in receipts
    && receipts[ev.command].status == CommittedReceipt
    && receipts[ev.command].after == Some(ev.stateVersion)
    && receipts[ev.command].body == ev.body
    && (IsM4Topic(ev.topic) <==> IsM4(receipts[ev.command].hash.command))
  }

  predicate HasEvent(events: seq<DomainEvent>, c: Uuid) {
    exists i :: 0 <= i < |events| && events[i].command == c
  }

  /** Events and committed receipts correspond one to one. */
  ghost predicate EventsMatchReceipts(receipts: ReceiptMap, events: seq<DomainEvent>) {
    && (forall i :: 0 <= i < |events| ==> EventOfReceipt(receipts, events[i]))
    && (forall i, j :: 0 <= i < j < |events| ==> events[i].command != events[j].command)
    && (forall c :: c in receipts && receipts[c].status == CommittedReceipt ==> HasEvent(events, c))
  }

  /** Committed M2 and M3 commands. */
  function VersionCommands(receipts: ReceiptMap): set<Uuid> {
    set c | c in receipts && receipts[c].status == CommittedReceipt && !IsM4(receipts[c].hash.command)
  }

  ghost predicate LogInv(log: Log, version: nat) {
    && ReceiptsFinal(log.receipts)
    && OutboxMirrors(log.events, log.outbox)
    && VersionsInOrder(log.events, version)
    && EventsMatchReceipts(log.receipts, log.events)
    && |VersionCommands(log.receipts)| == version
  }

  // ---------- one more receipt ----------

  lemma NewReceiptKeepsFinal(receipts: ReceiptMap, c: Uuid, r: CommandReceipt)
    requires ReceiptsFinal(receipts) && c !in receipts && r.status != Processing && r.reason != TransactionAborted
    requires forall d :: d in receipts ==> receipts[d].key != r.key
    ensures ReceiptsFinal(receipts[c := r])
  {
  }

  lemma NewReceiptCounts(receipts: ReceiptMap, c: Uuid, r: CommandReceipt)
    requires c !in receipts
    ensures |VersionCommands(receipts[c := r])| == |VersionCommands(receipts)|
              + (if r.status == CommittedReceipt && !IsM4(r.hash.command) then 1 else 0)
  {
    hide IsM4;
    if r.status == CommittedReceipt && !IsM4(r.hash.command) {
      assert VersionCommands(receipts[c := r]) == VersionCommands(receipts) + {c};
    } else {
      assert VersionCommands(receipts[c := r]) == VersionCommands(receipts);
    }
  }

  lemma RefusalKeepsLog(log: Log, version: nat, c: Uuid, r: CommandReceipt)
    requires LogInv(log, version) && c !in log.receipts && r.status == RejectedReceipt && r.reason != TransactionAborted
    requires forall d :: d in log.receipts ==> log.receipts[d].key != r.key
    ensures LogInv(log.(receipts := log.receipts[c := r]), version)
  {
    hide OutboxMirrors, VersionsInOrder, VersionCommands;
    NewReceiptKeepsFinal(log.receipts, c, r);
    NewReceiptCounts(log.receipts, c, r);
    hide ReceiptsFinal;
    forall i | 0 <= i < |log.events| ensures EventOfReceipt(log.receipts[c := r], log.events[i]) {
      assert EventOfReceipt(log.receipts, log.events[i]);
    }
  }

  // ---------- one more event ----------

  lemma NewEventKeepsMirror(events: seq<DomainEvent>, outbox: seq<OutboxEvent>, ev: DomainEvent, o: OutboxEvent)
    requires OutboxMirrors(events, outbox) && Mirrors(o, ev)
    requires forall i :: 0 <= i < |events| ==> events[i].id != ev.id
    requires forall i :: 0 <= i < |outbox| ==> outbox[i].id != o.id
    ensures OutboxMirrors(events + [ev], outbox + [o])
  {
    assert forall i :: 0 <= i < |events| ==> Mirrors(outbox[i], events[i]);
  }

  lemma NewEventKeepsVersions(events: seq<DomainEvent>, version: nat, ev: DomainEvent)
    requires VersionsInOrder(events, version)
    requires ev.stateVersion == version + (if IsM4Topic(ev.topic) then 0 else 1)
    ensures VersionsInOrder(events + [ev], ev.stateVersion)
  {
    var later := events + [ev];
    assert later[..|later| - 1] == events;
    forall i | 0 <= i < |later| ensures later[i].stateVersion == VersionEvents(later[..i + 1]) {
      if i < |events| {
        assert later[..i + 1] == events[..i + 1];
      } else {
        assert later[..i + 1] == later;
      }
    }
  }

  lemma NewEventKeepsMatch(receipts: ReceiptMap, events: seq<DomainEvent>, r: CommandReceipt, ev: DomainEvent)
    requires EventsMatchReceipts(receipts, events) && ev.command !in receipts
    requires EventOfReceipt(receipts[ev.command := r], ev)
    ensures EventsMatchReceipts(receipts[ev.command := r], events + [ev])
  {
    var receipts', later := receipts[ev.command := r], events + [ev];
    forall i | 0 <= i < |later| ensures EventOfReceipt(receipts', later[i]) {
      assert i < |events| ==> EventOfReceipt(receipts, events[i]);
    }
    forall i, j | 0 <= i < j < |later| ensures later[i].command != later[j].command {
      assert EventOfReceipt(receipts, events[i]);
    }
    forall c | c in receipts' && receipts'[c].status == CommittedReceipt ensures HasEvent(later, c) {
      if c == ev.command {
        assert later[|events|].command == c;
      } else {
        assert HasEvent(events, c);
        var i :| 0 <= i < |events| && events[i].command == c;
        assert later[i].command == c;
      }
    }
  }

  lemma IdsAreNew(events: seq<DomainEvent>, outbox: seq<OutboxEvent>, ev: Uuid, o: Uuid)
    requires ev !in EventIds(events) && o !in OutboxIds(outbox)
    ensures forall i :: 0 <= i < |events| ==> events[i].id != ev
    ensures forall i :: 0 <= i < |outbox| ==> outbox[i].id != o
  {
    forall i | 0 <= i < |events| ensures events[i].id != ev {
      assert events[i] in events && events[i].id in EventIds(events);
    }
    forall i | 0 <= i < |outbox| ensures outbox[i].id != o {
      assert outbox[i] in outbox && outbox[i].id in OutboxIds(outbox);
    }
  }

  lemma NewReceiptCommits(receipts: ReceiptMap, version: nat, r: CommandReceipt, ev: DomainEvent)
    requires ReceiptsFinal(receipts) && ev.command !in receipts && |VersionCommands(receipts)| == version
    requires forall d :: d in receipts ==> receipts[d].key != r.key
    requires r.status == CommittedReceipt && r.reason == Okay && (IsM4Topic(ev.topic) <==> IsM4(r.hash.command))
    ensures ReceiptsFinal(receipts[ev.command := r])
    ensures |VersionCommands(receipts[ev.command := r])| == version + (if IsM4Topic(ev.topic) then 0 else 1)
  {
    hide ReceiptsFinal, VersionCommands, IsM4, IsM4Topic;
    NewReceiptKeepsFinal(receipts, ev.command, r);
    NewReceiptCounts(receipts, ev.command, r);
  }

  lemma CommitKeepsLog(log: Log, version: nat, r: CommandReceipt, ev: DomainEvent, o: OutboxEvent)
    requires LogInv(log, version) && ev.command !in log.receipts
    requires forall d :: d in log.receipts ==> log.receipts[d].key != r.key
    requires ev.id !in EventIds(log.events) && o.id !in OutboxIds(log.outbox) && Mirrors(o, ev)
    requires r.status == CommittedReceipt && r.reason == Okay && r.after == Some(ev.stateVersion) && r.body == ev.body
    requires IsM4Topic(ev.topic) <==> IsM4(r.hash.command)
    requires ev.stateVersion == version + (if IsM4Topic(ev.topic) then 0 else 1)
    ensures LogInv(Log(log.receipts[ev.command := r], log.events + [ev], log.outbox + [o]), ev.stateVersion)
  {
    hide VersionEvents, IsM4, IsM4Topic, VersionCommands, ReceiptsFinal, OutboxMirrors, VersionsInOrder, EventsMatchReceipts, EventIds,
      OutboxIds, Mirrors;
    IdsAreNew(log.events, log.outbox, ev.id, o.id);
    NewReceiptCommits(log.receipts, version, r, ev);
    NewEventKeepsMirror(log.events, log.outbox, ev, o);
    NewEventKeepsVersions(log.events, version, ev);
    NewEventKeepsMatch(log.receipts, log.events, r, ev);
  }
}
