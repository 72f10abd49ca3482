/** A concrete run that ends above a cap: a Program, a snapshot whose total cost cap is 100,000, three
    reservations of 30,000 each, and a settlement of the first whose Provider reported 100,001. Every value is
    one the constructors and schemas accept. */
module Demonstration {
  import opened Base
  import Plans
  import opened Tables
  import opened Contracts
  import opened Spec
  import opened BudgetInvariant

  const OwnerId := "owner-1"
  const GatewayId := "awakening-m4-model-gateway"

  const PerCall := Amounts(64_000, 1_000, 30_000)
  const Small: RuntimeConfig :=
    ConfigFields(V4(1), AuthorizedAlias, AuthorizedModel, TrustedParameters, 3, PerCall, Amounts(192_000, 3_000, 100_000))
  const Service1 := Config([(GatewayId, Member(Service, ServiceRole))], 1800, "deterministic-text-v1", "deterministic-text-v1")

  /** What the n-th call reserves, for a model call of its own. */
  function Wanted(n: nat): BudgetRequest
    requires n >= 3
  {
    BudgetRequest(V4(1), V4(n - 1), V4(20), PerCall)
  }

  /** 64 times the same hexadecimal digit. */
  function Digest(c: char): (s: string)
    requires IsHex(c)
    ensures IsSha256(s)
  {
    seq(64, _ => c)
  }

  function UsageId(): Uuid { UsageReceiptOf(V4(0), V4(1), V4(2), V4(30), Digest('a')) }

  function Overspent(): UsageReceipt {
    UsageReceipt(UsageId(), V4(0), V4(1), V4(2), V4(20), V4(30), AuthorizedAlias, Some("req-1"), Digest('a'), Some(Digest('b')),
      Reported(Amounts(64_000, 1_000, 100_001)), Succeeded, GatewayId, 0)
  }

  const FirstPlan := Plans.Plan("engineer", 12, "portfolio", "rubric", [Plans.Task("t1", "Start", 0)])

  function Envelope1(n: nat, key: string, c: Command): Envelope {
    if c.CreateProgram? then Envelope(V4(n), key, V4(0), Principal(OwnerId, User, ["web"], [V4(0)], "session"), Web, c)
    else Envelope(V4(n), key, V4(0), Principal(GatewayId, Service, ["model:gateway"], [V4(0)], "gateway"), Internal, c)
  }

  function Inputs1(n: nat): Inputs { Inputs(0, V4(10 * n), V4(0), V4(n), V4(n)) }

  function KeyNo(n: nat): (key: string)
    requires 1 <= n <= 6
    ensures |key| == n
  {
    seq(n, _ => 'k')
  }

  function CommandNo(n: nat): Command
    requires 1 <= n <= 6
  {
    if n == 1 then CreateProgram(FirstPlan, false)
    else if n == 2 then CreateSnapshot(Small)
    else if n <= 5 then ReserveBudget(Wanted(n))
    else SettleBudget(Overspent())
  }

  function CallNo(n: nat): (call: Call)
    requires 1 <= n <= 6
    ensures call.input == Inputs1(n) && call.envelope.commandId == V4(n) && |call.envelope.key| == n
    ensures call.envelope == Envelope1(n, KeyNo(n), CommandNo(n))
  {
    Call(Envelope1(n, KeyNo(n), CommandNo(n)), Inputs1(n))
  }

  lemma PlanIsAccepted()
    ensures PlanAccepted(FirstPlan)
  {
    assert IsTaskKey("t1");
  }

  lemma UsageIsAccepted()
    ensures UsageAccepted(Overspent())
  {
    assert IsStableIdentifier("req-1");
    assert IsProviderAlias(AuthorizedAlias);
    assert 1 <= |GatewayId| <= 255;
    hide IsStableIdentifier, IsProviderAlias, Digest, IsSha256, AuthorizedAlias, GatewayId;
  }

  predicate IsAccepted(c: Command) {
    match c
    case CreateProgram(plan, _) => PlanAccepted(plan)
    case CreateSnapshot(config) => ConfigAccepted(config)
    case ReserveBudget(request) => RequestAccepted(request)
    case SettleBudget(usage) => UsageAccepted(usage)
    case _ => false
  }

  /** The six commands can be received, under keys in form. */
  lemma AllAccepted(n: nat)
    requires 1 <= n <= 6
    ensures IsAccepted(CallNo(n).envelope.command) && IsCommandKey(CallNo(n).envelope.key)
  {
    PlanIsAccepted();
    UsageIsAccepted();
    hide PlanAccepted, UsageAccepted, Overspent, FirstPlan, AuthorizedAlias, AuthorizedModel;
  }

  /** After n calls all identifiers in the log are at most n, and no key is longer than n. */
  ghost predicate UsedUpTo(log: Log, n: nat) {
    && (forall c :: c in log.receipts ==> c.V4? && c.number <= n && |log.receipts[c].key| <= n)
    && (forall ev :: ev in log.events ==> ev.id.V4? && ev.id.number <= n)
    && (forall o :: o in log.outbox ==> o.id.V4? && o.id.number <= n)
  }

  /** A call that is admitted and performs, with identifiers not used before, commits. */
  lemma NextCommits(db: Tables, n: nat, e: Envelope, f: Effect)
    requires UsedUpTo(db.log, n) && e.commandId == V4(n + 1) && |e.key| == n + 1
    requires Admit(db.core, e).None? && (e.command.CreateProgram? || db.core.program.Some?)
    requires RulingOf(Service1, db, e, Inputs1(n + 1)) == Perform(f) && f.core.program.Some?
    ensures
      var later := Step(Service1, db, e, Inputs1(n + 1)).db;
      UsedUpTo(later.log, n + 1) && later.core == f.core && later.budget == f.budget
  {
    hide Admit, RulingOf;
    assert !KeyTaken(db.log, e.key) && e.commandId !in db.log.receipts;
    assert V4(n + 1) !in EventIds(db.log.events) && V4(n + 1) !in OutboxIds(db.log.outbox);
  }

  ghost predicate HasService(core: Core) {
    core.program.Some? && GatewayId in core.members && core.members[GatewayId] == Member(Service, ServiceRole)
  }

  /** The reservation that the n-th call makes. */
  function Held(n: nat): Reservation
    requires n >= 3
  {
    Reservation(V4(1), V4(n - 1), V4(20), PerCall, Reserved, 1, None, None, None, GatewayId)
  }

  /** Reservations after n calls. */
  function Rows(n: nat): (rows: map<Uuid, Reservation>)
    requires 2 <= n <= 5
    ensures forall k :: k in rows ==> k.V4? && exists i :: 3 <= i <= n && k == V4(10 * i) && rows[k] == Held(i)
    ensures forall i :: 3 <= i <= n ==> V4(10 * i) in rows && rows[V4(10 * i)] == Held(i)
    decreases n
  {
    if n == 2 then map[] else Rows(n - 1)[V4(10 * n) := Held(n)]
  }

  function BudgetAfter(n: nat): Budget
    requires 1 <= n <= 6
  {
    if n == 1 then Budget(map[], map[], map[])
    else if n <= 5 then Budget(map[V4(20) := Small], Rows(n), map[])
    else Budget(map[V4(20) := Small], Rows(5)[V4(30) := SettledRow(Held(3), Overspent())],
                map[UsageLedgerOf(UsageId()) := LedgerRow(Overspent(), V4(30), Amounts(64_000, 1_000, 100_001), true)])
  }

  ghost predicate After(db: Tables, n: nat)
    requires 1 <= n <= 6
  {
    UsedUpTo(db.log, n) && HasService(db.core) && db.budget == BudgetAfter(n)
  }

  lemma FirstCall()
    ensures After(Step(Service1, EmptyTables, CallNo(1).envelope, CallNo(1).input).db, 1)
  {
    hide Step, UsedUpTo;
    var e := CallNo(1).envelope;
    assert WithMembers(map[OwnerId := Member(User, Owner)], OwnerId, Service1.bootstrap)
      == Some(map[OwnerId := Member(User, Owner)][GatewayId := Member(Service, ServiceRole)]);
    var f := CreateProgramMeaning(Service1, EmptyTables, e, Inputs1(1)).effect;
    NothingUsed();
    NextCommits(EmptyTables, 0, e, f);
  }

  lemma NothingUsed()
    ensures UsedUpTo(EmptyTables.log, 0)
  {
  }

  lemma SecondCall(db: Tables)
    requires After(db, 1)
    ensures After(Step(Service1, db, CallNo(2).envelope, CallNo(2).input).db, 2)
  {
    hide Step, UsedUpTo;
    NextCommits(db, 1, CallNo(2).envelope, CreateSnapshotMeaning(Service1, db, CallNo(2).envelope, Inputs1(2)).effect);
  }

  /** The two scopes that a reservation is checked in. */
  predicate IsChecked(s: Scope) { s == OfSnapshot(V4(1), V4(20)) || s == OfProgram }

  lemma {:induction false} TotalOfRows(n: nat, m: Measure, s: Scope, each: nat)
    requires 2 <= n <= 5 && IsChecked(s)
    requires forall i :: 3 <= i <= n ==> Weight(m, s, Held(i)) == each
    ensures Total(Rows(n), m, s) == (n - 2) * each
    decreases n
  {
    if n == 2 {
      assert Weights(map[], m, s) == map[];
    } else {
      hide Weight, Total, Held, IsChecked;
      TotalOfRows(n - 1, m, s, each);
      RowIsNew(n);
      TotalPut(Rows(n - 1), V4(10 * n), Held(n), m, s);
      assert (n - 2) * each == (n - 3) * each + each;
    }
  }

  lemma RowIsNew(n: nat)
    requires 3 <= n <= 5
    ensures V4(10 * n) !in Rows(n - 1)
  {
    hide Held;
  }

  lemma TotalsOfRows(n: nat, s: Scope)
    requires 2 <= n <= 5 && IsChecked(s)
    ensures TotalsOf(Rows(n), s) == Totals(n - 2, Amounts((n - 2) * 64_000, (n - 2) * 1_000, (n - 2) * 30_000))
  {
    hide Rows, Total;
    TotalOfRows(n, Calls, s, 1);
    TotalOfRows(n, Holding(InputTokens), s, 64_000);
    TotalOfRows(n, Holding(OutputTokens), s, 1_000);
    TotalOfRows(n, Holding(CostUnits), s, 30_000);
  }

  lemma CapsAllow(calls: nat)
    requires calls <= 2
    ensures
      var totals := Totals(calls, Amounts(calls * 64_000, calls * 1_000, calls * 30_000));
      SnapshotViolations(Small, totals, PerCall) == [] && ProgramViolations(totals, PerCall) == []
  {
    hide AuthorizedAlias, AuthorizedModel;
  }

  /** Each of the three reservations is within every cap. */
  lemma ReservationFits(n: nat)
    requires 3 <= n <= 5
    ensures Violations(BudgetAfter(n - 1), Wanted(n)) == []
  {
    hide TotalsOf, Rows, SnapshotViolations, ProgramViolations, PerCall, Small;
    TotalsOfRows(n - 1, OfSnapshot(V4(1), V4(20)));
    TotalsOfRows(n - 1, OfProgram);
    CapsAllow(n - 3);
  }

  lemma NthReserves(db: Tables, n: nat)
    requires 3 <= n <= 5 && After(db, n - 1)
    ensures
      var e := CallNo(n).envelope;
      && Admit(db.core, e).None? && ReserveMeaning(Service1, db, e, Inputs1(n)).Perform?
      && ReserveMeaning(Service1, db, e, Inputs1(n)).effect.core == db.core
      && ReserveMeaning(Service1, db, e, Inputs1(n)).effect.budget == BudgetAfter(n)
  {
    ReservationFits(n);
    hide UsedUpTo, Violations, FirstPlan, Overspent;
    assert !CallTaken(db.budget, Wanted(n).modelCall);
    RowIsNew(n);
  }

  lemma BudgetRuling(db: Tables, e: Envelope, input: Inputs)
    requires db.core.program.Some?
    ensures e.command.ReserveBudget? ==> RulingOf(Service1, db, e, input) == ReserveMeaning(Service1, db, e, input)
    ensures e.command.SettleBudget? ==> RulingOf(Service1, db, e, input) == SettleMeaning(Service1, db, e, input)
  {
    hide ReserveMeaning, SettleMeaning;
  }

  lemma CommandOfCall(n: nat)
    requires 1 <= n <= 6
    ensures CallNo(n).envelope.command == CommandNo(n)
  {
  }

  lemma ServiceHasProgram(core: Core)
    requires HasService(core)
    ensures core.program.Some?
  {
  }

  lemma ReserveCall(db: Tables, n: nat)
    requires 3 <= n <= 5 && After(db, n - 1)
    ensures After(Step(Service1, db, CallNo(n).envelope, CallNo(n).input).db, n)
  {
    hide Step, UsedUpTo, Admit, ReserveMeaning, SettleMeaning, BudgetAfter, RulingOf, CallNo, HasService, Inputs1;
    CommandOfCall(n);
    ServiceHasProgram(db.core);
    NthReserves(db, n);
    BudgetRuling(db, CallNo(n).envelope, Inputs1(n));
    NextCommits(db, n - 1, CallNo(n).envelope, ReserveMeaning(Service1, db, CallNo(n).envelope, Inputs1(n)).effect);
  }

  lemma LastIsAdmitted(db: Tables)
    requires After(db, 5)
    ensures Admit(db.core, CallNo(6).envelope).None?
  {
    hide UsedUpTo, BudgetAfter;
  }

  lemma LastSettles(db: Tables)
    requires After(db, 5)
    ensures
      var e := CallNo(6).envelope;
      && SettleMeaning(Service1, db, e, Inputs1(6)).Perform?
      && SettleMeaning(Service1, db, e, Inputs1(6)).effect.core == db.core
      && SettleMeaning(Service1, db, e, Inputs1(6)).effect.budget == BudgetAfter(6)
  {
    hide UsedUpTo, HasService, Digest, FirstPlan, Rows;
    assert Rows(5)[V4(30)] == Held(3) by { assert V4(10 * 3) == V4(30); }
  }

  lemma LastCall(db: Tables)
    requires After(db, 5)
    ensures After(Step(Service1, db, CallNo(6).envelope, CallNo(6).input).db, 6)
  {
    hide Step, UsedUpTo, Admit, ReserveMeaning, SettleMeaning, BudgetAfter, RulingOf, CallNo, HasService, Inputs1;
    CommandOfCall(6);
    ServiceHasProgram(db.core);
    LastIsAdmitted(db);
    LastSettles(db);
    BudgetRuling(db, CallNo(6).envelope, Inputs1(6));
    NextCommits(db, 5, CallNo(6).envelope, SettleMeaning(Service1, db, CallNo(6).envelope, Inputs1(6)).effect);
  }

  // ---------- the run ----------

  function Calls1(n: nat): (calls: seq<Call>)
    requires n <= 6
    ensures |calls| == n && forall i :: 0 <= i < n ==> calls[i] == CallNo(i + 1)
  {
    if n == 0 then [] else Calls1(n - 1) + [CallNo(n)]
  }

  /** The rows after the first n commands. */
  ghost function RowsAfter(n: nat): Tables
    requires n <= 6
  {
    Run(Service1, EmptyTables, Calls1(n))
  }

  lemma OneMoreCall(n: nat)
    requires 1 <= n <= 6
    ensures RowsAfter(0) == EmptyTables
    ensures RowsAfter(n) == Step(Service1, RowsAfter(n - 1), CallNo(n).envelope, CallNo(n).input).db
  {
    hide Step, CallNo;
    assert Calls1(n)[..n - 1] == Calls1(n - 1);
  }

  lemma {:induction false} EachCallCommits(n: nat)
    requires 1 <= n <= 6
    ensures After(RowsAfter(n), n)
    decreases n
  {
    hide Step, After, CallNo, RowsAfter;
    OneMoreCall(n);
    if n == 1 {
      FirstCall();
    } else {
      EachCallCommits(n - 1);
      if n == 2 {
        SecondCall(RowsAfter(1));
      } else if n <= 5 {
        ReserveCall(RowsAfter(n - 1), n);
      } else {
        LastCall(RowsAfter(5));
      }
    }
  }

  /** The plain bound "amount held within the cap" is false: a settlement accepts reported usage above
      its reservation. */
  lemma PlainCostCapFails()
    ensures
      var b := RowsAfter(6).budget;
      V4(20) in b.snapshots && Total(b.reservations, Holding(CostUnits), OfSnapshot(b.snapshots[V4(20)].run, V4(20))) > b.snapshots[V4(20)].total.cost
  {
    hide RowsAfter, UsedUpTo, Rows, HasService, Total;
    EachCallCommits(6);
    var s := OfSnapshot(V4(1), V4(20));
    TotalOfRows(5, Holding(CostUnits), s, 30_000);
    assert V4(30) in Rows(5) && Rows(5)[V4(30)] == Held(3) by { assert V4(10 * 3) == V4(30); }
    TotalPut(Rows(5), V4(30), SettledRow(Held(3), Overspent()), Holding(CostUnits), s);
  }
}
