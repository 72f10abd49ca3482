/** From the start-up check to the caps: what the gateway's calls and settlements come to, together with
    everything else that happens to the rows (src/awakening/model_gateway/m4/live_runtime.py and gateway.py). */
module GatewayBudget {
  import opened Base
  import opened Tables
  import opened Contracts
  import opened Spec
  import opened PlanRegistry
  import opened Cost
  import opened Caps
  import opened BudgetInvariant
  import opened Invariant
  import opened Growth
  import opened Settlements
  import opened Gateway

  /** One plan's reservation as it must be committed before the gateway starts. */
  predicate PlanCommitted(env: Env, caps: RuntimeConfig, rows: ReservationMap, plan: InvocationPlan) {
    && plan.reservation in rows
    && var r := rows[plan.reservation];
    && r.run == env.run && r.modelCall == plan.modelCall && r.snapshot == env.snapshot
    && r.maxima == caps.perCall && r.status == Reserved
  }

  predicate ConfigCommitted(env: Env, caps: RuntimeConfig, db: Tables) {
    && MayRead(env, db.core) && env.snapshot in db.budget.snapshots
    && db.budget.snapshots[env.snapshot] == caps && caps.run == env.run && caps.providerAlias == env.alias
  }

  /** Start-up: the snapshot is the configured one and every plan's reservation is reserved at the per-call caps. */
  method AssertCommittedPreconditions(env: Env, caps: RuntimeConfig, db: Tables, plans: seq<InvocationPlan>)
    returns (ok: bool)
    ensures ok <==>
      ConfigCommitted(env, caps, db) && forall i :: 0 <= i < |plans| ==> PlanCommitted(env, caps, db.budget.reservations, plans[i])
  {
    if !MayRead(env, db.core) || env.snapshot !in db.budget.snapshots { return false; }
    var snapshot := db.budget.snapshots[env.snapshot];
    if snapshot.run != env.run || snapshot != caps || snapshot.providerAlias != env.alias { return false; }
    for k := 0 to |plans|
      invariant forall i :: 0 <= i < k ==> PlanCommitted(env, caps, db.budget.reservations, plans[i])
    {
      if plans[k].reservation !in db.budget.reservations { return false; }
      var row := db.budget.reservations[plans[k].reservation];
      if row.run != env.run || row.modelCall != plans[k].modelCall || row.snapshot != env.snapshot || row.maxima != caps.perCall
        || row.status != Reserved
      {
        return false;
      }
    }
    return true;
  }

  ghost predicate PlansCommitted(env: Env, caps: RuntimeConfig, rows: ReservationMap) {
    forall f :: f in env.plans ==> PlanCommitted(env, caps, rows, env.plans[f])
  }

  lemma ActGrows(env: Env, w: World, a: Action)
    requires Inv(w.db) && !a.Arrive? && !a.Elsewhere? && a.thread in w.threads
    ensures BudgetGrows(w.db.budget, Act(env, w, a).db.budget)
  {
    hide Inv, Step, Claimable, ConfigPhase, ReservationPhase, ManifestPhase, SettledPhase, BudgetGrows, CoreGrows, IngestGrows, LogGrows;
    var th := w.threads[a.thread];
    assert BudgetGrows(w.db.budget, w.db.budget) by { Stays(w.db); }
    if a.Settle? && th.phase.Returned? && th.plan.Some? {
      StepGrows(env.cfg, w.db, SettleEnvelope(env, UsageReceiptFor(env, th.plan.value, th.phase, a.issuedAt), a.commandId), a.input);
    }
  }

  lemma {:induction false} ReachedGrows(env: Env, db: Tables, actions: seq<Action>)
    requires Inv(db) && SettlementsRecorded(db)
    ensures BudgetGrows(db.budget, Reached(env, db, actions).db.budget)
  {
    hide Inv, SettlementsRecorded, Act, Step, ThreadsOk, TracesOk, BudgetGrows, CoreGrows, IngestGrows, LogGrows;
    assert BudgetGrows(db.budget, db.budget) by { Stays(db); }
    if actions != [] {
      var front, a := actions[..|actions| - 1], actions[|actions| - 1];
      var w := Reached(env, db, front);
      ReachedGrows(env, db, front);
      ReachedKeeps(env, db, front);
      match a
      case Arrive(_, _, _) =>
      case Elsewhere(e, input) =>
        StepGrows(env.cfg, w.db, e, input);
        BudgetGrowsOn(db.budget, w.db.budget, Step(env.cfg, w.db, e, input).db.budget);
      case _ =>
        if a.thread in w.threads {
          ActGrows(env, w, a);
          BudgetGrowsOn(db.budget, w.db.budget, Act(env, w, a).db.budget);
        }
    }
  }

  lemma RowHasCallCaps(env: Env, caps: RuntimeConfig, b: Budget, later: Budget, plan: InvocationPlan, row: Reservation)
    requires PlanCommitted(env, caps, b.reservations, plan) && BudgetGrows(b, later) && RowRead(later.reservations, plan, row)
    ensures row.maxima == caps.perCall
  {
    assert ReservationMoves(b.reservations[plan.reservation], later.reservations[plan.reservation]);
  }

  lemma {:induction false} PlanOfThread(env: Env, db: Tables, actions: seq<Action>, t: nat)
    requires Inv(db) && SettlementsRecorded(db) && t in Reached(env, db, actions).threads
    ensures
      var th := Reached(env, db, actions).threads[t];
      th.plan.Some? ==> th.session.fingerprint in env.plans && th.plan.value == env.plans[th.session.fingerprint]
  {
    hide Reached, Inv, SettlementsRecorded, TracesOk, KnowsSettled;
    var w := Reached(env, db, actions);
    ReachedKeeps(env, db, actions);
    assert ThreadOk(env.plans, w.claimed, w.db.budget.reservations, w.threads[t]);
  }

  // ---------- honest interleavings ----------

  /** The Provider charges no more than the bytes sent and the tokens allowed. */
  predicate HonestReply(p: Phase, reply: Reply)
    requires p.Calling?
  {
    reply.Answered? ==> reply.input <= p.wireBytes && reply.output <= p.row.maxima.output
  }

  /** Of the gateway's own commands and of those of other clients nothing is assumed. */
  ghost predicate HonestAction(w: World, a: Action) {
    a.EndCall? && a.thread in w.threads && w.threads[a.thread].phase.Calling? ==> HonestReply(w.threads[a.thread].phase, a.reply)
  }

  /** The Provider is honest throughout. */
  ghost predicate HonestRun(env: Env, db: Tables, actions: seq<Action>) {
    forall i :: 0 <= i < |actions| ==> HonestAction(Reached(env, db, actions[..i]), actions[i])
  }

  /** What the other clients of the State Service settle on the snapshot fits the reservations it names. */
  ghost predicate OthersFit(env: Env, db: Tables, actions: seq<Action>) {
    forall i :: 0 <= i < |actions| && actions[i].Elsewhere? ==>
      FitsOn(env.snapshot, Reached(env, db, actions[..i]).db.budget, actions[i].envelope.command)
  }

  lemma HonestFront(env: Env, db: Tables, actions: seq<Action>)
    requires actions != [] && HonestRun(env, db, actions)
    ensures HonestRun(env, db, actions[..|actions| - 1])
    ensures HonestAction(Reached(env, db, actions[..|actions| - 1]), actions[|actions| - 1])
  {
    hide Reached, HonestAction;
    var front := actions[..|actions| - 1];
    forall i | 0 <= i < |front| ensures HonestAction(Reached(env, db, front[..i]), front[i]) {
      assert front[..i] == actions[..i];
    }
  }

  /** A thread that is about to settle holds a report within the per-call caps, or none. */
  predicate HonestThread(env: Env, caps: RuntimeConfig, th: Thread) {
    th.phase.Returned? && th.phase.usage.Reported? ==> HonestReport(env.price, caps.perCall, th.phase.usage.amounts)
  }

  ghost predicate HonestThreads(env: Env, caps: RuntimeConfig, w: World) {
    forall t :: t in w.threads ==> HonestThread(env, caps, w.threads[t])
  }

  /** Whoever is in the call has a row at the per-call caps and a request within them. */
  ghost predicate CallsAtCaps(caps: RuntimeConfig, w: World) {
    forall t :: t in w.threads && w.threads[t].phase.Calling? ==>
      w.threads[t].phase.row.maxima == caps.perCall && w.threads[t].phase.wireBytes <= caps.perCall.input
  }

  lemma {:induction false} ReachedCallsAtCaps(env: Env, caps: RuntimeConfig, db: Tables, actions: seq<Action>)
    requires Inv(db) && SettlementsRecorded(db) && PlansCommitted(env, caps, db.budget.reservations)
    ensures CallsAtCaps(caps, Reached(env, db, actions))
  {
    hide Reached, Inv, SettlementsRecorded, BudgetGrows, PlanCommitted, RowRead;
    var w := Reached(env, db, actions);
    ReachedHasEvidence(env, db, actions);
    ReachedGrows(env, db, actions);
    forall t | t in w.threads && w.threads[t].phase.Calling?
      ensures w.threads[t].phase.row.maxima == caps.perCall && w.threads[t].phase.wireBytes <= caps.perCall.input
    {
      EvidenceOf(w, t);
      PlanOfThread(env, db, actions, t);
      RowHasCallCaps(env, caps, db.budget, w.db.budget, w.threads[t].plan.value, w.threads[t].phase.row);
    }
  }

  lemma PhaseKeepsHonest(env: Env, caps: RuntimeConfig, w: World, n: World, t: nat)
    requires HonestThreads(env, caps, w) && t in n.threads && n.threads == w.threads[t := n.threads[t]]
    requires HonestThread(env, caps, n.threads[t])
    ensures HonestThreads(env, caps, n)
  {
    hide HonestThread;
  }

  lemma ReplyIsHonest(env: Env, caps: RuntimeConfig, p: Phase, reply: Reply)
    requires p.Calling? && HonestReply(p, reply) && p.row.maxima == caps.perCall && p.wireBytes <= caps.perCall.input
    ensures
      var next := ReplyPhase(env, p, reply);
      next.Returned? && next.usage.Reported? ==> HonestReport(env.price, caps.perCall, next.usage.amounts)
  {
    hide CeilCost, IsStableIdentifier;
  }

  lemma ActKeepsHonest(env: Env, caps: RuntimeConfig, w: World, a: Action)
    requires HonestThreads(env, caps, w) && CallsAtCaps(caps, w) && HonestAction(w, a)
    requires !a.Arrive? && !a.Elsewhere? && a.thread in w.threads
    ensures HonestThreads(env, caps, Act(env, w, a))
  {
    hide Step, Claimable, ConfigPhase, ReservationPhase, ManifestPhase, SettledPhase, ReplyPhase, HonestReport, HonestReply;
    var t, th := a.thread, w.threads[a.thread];
    if a.EndCall? && th.phase.Calling? { ReplyIsHonest(env, caps, th.phase, a.reply); }
    var n := Act(env, w, a);
    assert HonestThread(env, caps, th);
    if n != w { PhaseKeepsHonest(env, caps, w, n, t); }
  }

  /** What a thread sends for an honest report is disciplined. */
  lemma SettlementIsDisciplined(env: Env, caps: RuntimeConfig, th: Thread, issuedAt: int, id: Uuid)
    requires th.phase.Returned? && th.plan.Some? && HonestThread(env, caps, th)
    ensures Disciplined(env.price, caps, env.snapshot, SettleEnvelope(env, UsageReceiptFor(env, th.plan.value, th.phase, issuedAt), id).command)
  {
    hide HonestReport;
  }

  lemma BudgetOf(db: Tables)
    requires Inv(db)
    ensures BudgetInv(db.budget)
  {
    hide BudgetInv;
  }

  lemma NextKeepsHonest(env: Env, caps: RuntimeConfig, w: World, a: Action)
    requires HonestThreads(env, caps, w) && CallsAtCaps(caps, w) && HonestAction(w, a)
    ensures HonestThreads(env, caps, Next(env, w, a))
  {
    hide Act, Step, CallsAtCaps, HonestAction;
    match a
    case Arrive(_, _, _) =>
    case Elsewhere(_, _) =>
    case _ => if a.thread in w.threads { ActKeepsHonest(env, caps, w, a); }
  }

  lemma {:induction false} HonestRunKeepsThreads(env: Env, caps: RuntimeConfig, db: Tables, actions: seq<Action>)
    requires Inv(db) && SettlementsRecorded(db) && PlansCommitted(env, caps, db.budget.reservations)
    requires HonestRun(env, db, actions)
    ensures HonestThreads(env, caps, Reached(env, db, actions))
  {
    hide Inv, SettlementsRecorded, PlansCommitted, HonestAction, HonestRun, Next, CallsAtCaps;
    if actions != [] {
      var front, a := actions[..|actions| - 1], actions[|actions| - 1];
      HonestFront(env, db, actions);
      HonestRunKeepsThreads(env, caps, db, front);
      ReachedCallsAtCaps(env, caps, db, front);
      hide HonestThreads;
      NextKeepsHonest(env, caps, Reached(env, db, front), a);
    }
  }

  /** After a successful start-up check, whatever the other clients do: what a thread is about to settle is an
      honest report, or none. */
  lemma {:induction false} SettlementsAreDisciplined(env: Env, caps: RuntimeConfig, db: Tables, actions: seq<Action>,
          t: nat, issuedAt: int, id: Uuid)
    requires t in Reached(env, db, actions).threads && Reached(env, db, actions).threads[t].phase.Returned?
    requires HonestRun(env, db, actions) && PlansCommitted(env, caps, db.budget.reservations)
    requires Inv(db) && SettlementsRecorded(db)
    ensures
      var th := Reached(env, db, actions).threads[t];
      && th.plan.Some?
      && Disciplined(env.price, caps, env.snapshot, SettleEnvelope(env, UsageReceiptFor(env, th.plan.value, th.phase, issuedAt), id).command)
  {
    hide Reached, Inv, SettlementsRecorded, PlansCommitted, HonestRun, Disciplined, TracesOk, SettleEnvelope, UsageReceiptFor;
    var w := Reached(env, db, actions);
    HonestRunKeepsThreads(env, caps, db, actions);
    ReachedKeeps(env, db, actions);
    HasPlan(env, w, t);
    assert HonestThread(env, caps, w.threads[t]);
    hide ThreadsOk, HonestThreads;
    SettlementIsDisciplined(env, caps, w.threads[t], issuedAt, id);
  }

  // ---------- who goes over budget ----------

  /** A plan's reservation still holds the per-call caps, which cover every honest report. */
  lemma PlanFits(env: Env, caps: RuntimeConfig, b: Budget, later: Budget, plan: InvocationPlan, u: UsageReceipt)
    requires PlanCommitted(env, caps, b.reservations, plan) && BudgetGrows(b, later) && RatesAdmitted(env.price, caps)
    requires u.reservation == plan.reservation && (u.usage.Reported? ==> HonestReport(env.price, caps.perCall, u.usage.amounts))
    ensures FitsReservation(later, SettleBudget(u))
  {
    hide RatesAdmitted, HonestReport, Exceeds;
    assert ReservationMoves(b.reservations[plan.reservation], later.reservations[plan.reservation]);
    if u.usage.Reported? { HonestSettlementFits(env.price, caps, u.usage.amounts); }
  }

  lemma {:induction false} ThreadFits(env: Env, caps: RuntimeConfig, db: Tables, actions: seq<Action>, t: nat, issuedAt: int)
    requires Inv(db) && SettlementsRecorded(db) && PlansCommitted(env, caps, db.budget.reservations)
    requires RatesAdmitted(env.price, caps) && HonestRun(env, db, actions)
    requires
      var w := Reached(env, db, actions);
      t in w.threads && w.threads[t].phase.Returned? && w.threads[t].plan.Some?
    ensures
      var w := Reached(env, db, actions);
      FitsReservation(w.db.budget, SettleBudget(UsageReceiptFor(env, w.threads[t].plan.value, w.threads[t].phase, issuedAt)))
  {
    hide Reached, Inv, SettlementsRecorded, RatesAdmitted, HonestRun, BudgetGrows, FitsReservation, HonestReport, PlanCommitted;
    var w := Reached(env, db, actions);
    HonestRunKeepsThreads(env, caps, db, actions);
    PlanOfThread(env, db, actions, t);
    ReachedGrows(env, db, actions);
    assert HonestThread(env, caps, w.threads[t]);
    hide HonestThreads;
    PlanFits(env, caps, db.budget, w.db.budget, w.threads[t].plan.value, UsageReceiptFor(env, w.threads[t].plan.value, w.threads[t].phase, issuedAt));
  }

  /** The i-th action is another client's settlement that does not fit, and the row is the one it wrote. */
  ghost predicate OverspentElsewhere(env: Env, db: Tables, actions: seq<Action>, i: int, row: LedgerRow) {
    && 0 <= i < |actions| && actions[i].Elsewhere?
    && Overspends(Reached(env, db, actions[..i]).db.budget, actions[i].envelope.command, row)
  }

  ghost predicate OverspentByOthers(env: Env, db: Tables, actions: seq<Action>, row: LedgerRow) {
    exists i :: OverspentElsewhere(env, db, actions, i, row)
  }

  lemma StillOverspent(env: Env, db: Tables, actions: seq<Action>, row: LedgerRow)
    requires actions != [] && OverspentByOthers(env, db, actions[..|actions| - 1], row)
    ensures OverspentByOthers(env, db, actions, row)
  {
    hide Reached, Overspends;
    var front := actions[..|actions| - 1];
    var i :| OverspentElsewhere(env, db, front, i, row);
    assert front[..i] == actions[..i];
    assert OverspentElsewhere(env, db, actions, i, row);
  }

  /** One action, from a world that an honest run reached. */
  lemma {:induction false} NextOverspends(env: Env, caps: RuntimeConfig, db: Tables, front: seq<Action>, a: Action, l: Uuid)
    requires Inv(db) && SettlementsRecorded(db) && PlansCommitted(env, caps, db.budget.reservations)
    requires RatesAdmitted(env.price, caps) && HonestRun(env, db, front)
    requires
      var n := Next(env, Reached(env, db, front), a);
      l in n.db.budget.ledger && n.db.budget.ledger[l].overBudget
    ensures
      var w := Reached(env, db, front);
      var row := Next(env, w, a).db.budget.ledger[l];
      || (l in w.db.budget.ledger && w.db.budget.ledger[l] == row)
      || (a.Elsewhere? && Overspends(w.db.budget, a.envelope.command, row))
  {
    hide Reached, Inv, SettlementsRecorded, PlansCommitted, RatesAdmitted, HonestRun, Step, FitsReservation, UsageReceiptFor;
    hide Claimable, ClaimedAfter, ConfigPhase, ReservationPhase, ManifestPhase, SettledPhase, ReplyPhase;
    var w := Reached(env, db, front);
    if a.Elsewhere? {
      StepOverspends(env.cfg, w.db, a.envelope, a.input, l);
    } else if a.Settle? && a.thread in w.threads && w.threads[a.thread].phase.Returned? && w.threads[a.thread].plan.Some? {
      var u := UsageReceiptFor(env, w.threads[a.thread].plan.value, w.threads[a.thread].phase, a.issuedAt);
      ThreadFits(env, caps, db, front, a.thread, a.issuedAt);
      if !a.delivery.NotSent? { StepOverspends(env.cfg, w.db, SettleEnvelope(env, u, a.commandId), a.input, l); }
    }
  }

  /** Nothing is assumed of the other clients. When the rates are admitted and the Provider charges no more than
      it was sent and allowed, then after the start-up check every row that is over budget was there before, or
      another client settled it above the reservation it names: the gateway itself never overspends. */
  lemma {:induction false} OnlyOthersOverspend(env: Env, caps: RuntimeConfig, db: Tables, actions: seq<Action>, l: Uuid)
    requires Inv(db) && SettlementsRecorded(db) && PlansCommitted(env, caps, db.budget.reservations)
    requires RatesAdmitted(env.price, caps) && HonestRun(env, db, actions)
    requires l in Reached(env, db, actions).db.budget.ledger && Reached(env, db, actions).db.budget.ledger[l].overBudget
    ensures
      var row := Reached(env, db, actions).db.budget.ledger[l];
      (l in db.budget.ledger && db.budget.ledger[l] == row) || OverspentByOthers(env, db, actions, row)
    decreases |actions|
  {
    hide Inv, SettlementsRecorded, PlansCommitted, RatesAdmitted, HonestRun, HonestAction, Next, Overspends, OverspentByOthers;
    if actions != [] {
      var front, a := actions[..|actions| - 1], actions[|actions| - 1];
      var w, row := Reached(env, db, front), Reached(env, db, actions).db.budget.ledger[l];
      HonestFront(env, db, actions);
      NextOverspends(env, caps, db, front, a, l);
      if l in w.db.budget.ledger && w.db.budget.ledger[l] == row {
        OnlyOthersOverspend(env, caps, db, front, l);
        if OverspentByOthers(env, db, front, row) { StillOverspent(env, db, actions, row); }
      } else {
        LastOverspends(env, db, actions, row);
      }
    }
  }

  lemma LastOverspends(env: Env, db: Tables, actions: seq<Action>, row: LedgerRow)
    requires actions != [] && actions[|actions| - 1].Elsewhere?
    requires Overspends(Reached(env, db, actions[..|actions| - 1]).db.budget, actions[|actions| - 1].envelope.command, row)
    ensures OverspentByOthers(env, db, actions, row)
  {
    hide Reached, Overspends;
    assert OverspentElsewhere(env, db, actions, |actions| - 1, row);
  }

  // ---------- within the caps ----------

  lemma {:induction false} HonestRunKeepsNoneOver(env: Env, caps: RuntimeConfig, db: Tables, actions: seq<Action>)
    requires Inv(db) && SettlementsRecorded(db) && PlansCommitted(env, caps, db.budget.reservations)
    requires RatesAdmitted(env.price, caps) && NoneOverOn(db.budget, env.snapshot)
    requires HonestRun(env, db, actions) && OthersFit(env, db, actions)
    ensures NoneOverOn(Reached(env, db, actions).db.budget, env.snapshot)
    decreases |actions|
  {
    hide Inv, SettlementsRecorded, PlansCommitted, RatesAdmitted, HonestRun, HonestAction, NoneOverOn, FitsOn, Next, ThreadsOk, TracesOk;
    if actions != [] {
      var front, a := actions[..|actions| - 1], actions[|actions| - 1];
      HonestFront(env, db, actions);
      forall i | 0 <= i < |front| && front[i].Elsewhere?
        ensures FitsOn(env.snapshot, Reached(env, db, front[..i]).db.budget, front[i].envelope.command)
      {
        assert front[..i] == actions[..i];
      }
      HonestRunKeepsNoneOver(env, caps, db, front);
      ReachedKeeps(env, db, front);
      NextKeepsNoneOver(env, caps, db, front, a);
    }
  }

  lemma {:induction false} NextKeepsNoneOver(env: Env, caps: RuntimeConfig, db: Tables, front: seq<Action>, a: Action)
    requires Inv(db) && SettlementsRecorded(db) && PlansCommitted(env, caps, db.budget.reservations)
    requires RatesAdmitted(env.price, caps) && HonestRun(env, db, front)
    requires
      var w := Reached(env, db, front);
      && Inv(w.db) && NoneOverOn(w.db.budget, env.snapshot)
      && (a.Elsewhere? ==> FitsOn(env.snapshot, w.db.budget, a.envelope.command))
    ensures NoneOverOn(Next(env, Reached(env, db, front), a).db.budget, env.snapshot)
  {
    hide Reached, Inv, SettlementsRecorded, PlansCommitted, RatesAdmitted, HonestRun, Step, FitsReservation, UsageReceiptFor, NoneOverOn;
    hide Claimable, ClaimedAfter, ConfigPhase, ReservationPhase, ManifestPhase, SettledPhase, ReplyPhase;
    var w := Reached(env, db, front);
    if a.Elsewhere? {
      StepKeepsNoneOver(env.cfg, w.db, a.envelope, a.input, env.snapshot);
    } else if a.Settle? && a.thread in w.threads && w.threads[a.thread].phase.Returned? && w.threads[a.thread].plan.Some? {
      var u := UsageReceiptFor(env, w.threads[a.thread].plan.value, w.threads[a.thread].phase, a.issuedAt);
      ThreadFits(env, caps, db, front, a.thread, a.issuedAt);
      StepKeepsNoneOver(env.cfg, w.db, SettleEnvelope(env, u, a.commandId), a.input, env.snapshot);
    }
  }

  /** After a successful start-up check, whatever interleaves: when the rates are admitted, the Provider charges
      no more than it was sent and allowed, and what others settle on the snapshot fits their own reservations,
      no ledger row of the snapshot goes over budget and all its caps hold exactly. */
  lemma {:induction false} GatewayStaysWithinCaps(env: Env, caps: RuntimeConfig, db: Tables, actions: seq<Action>)
    requires Inv(db) && SettlementsRecorded(db) && NoneOverOn(db.budget, env.snapshot)
    requires ConfigCommitted(env, caps, db) && PlansCommitted(env, caps, db.budget.reservations)
    requires RatesAdmitted(env.price, caps) && HonestRun(env, db, actions) && OthersFit(env, db, actions)
    ensures
      var b := Reached(env, db, actions).db.budget;
      var s := OfSnapshot(caps.run, env.snapshot);
      NothingOver(b, s) && ExactlyWithin(b.reservations, s, caps.maxCalls, caps.total)
  {
    hide Reached, Inv, SettlementsRecorded, PlansCommitted, RatesAdmitted, HonestRun, OthersFit, BudgetInv, NoneOverOn;
    var w := Reached(env, db, actions);
    HonestRunKeepsNoneOver(env, caps, db, actions);
    ReachedKeeps(env, db, actions);
    BudgetOf(w.db);
    ReachedGrows(env, db, actions);
    assert env.snapshot in w.db.budget.snapshots && w.db.budget.snapshots[env.snapshot] == caps;
    NoneOverHoldsCaps(w.db.budget, env.snapshot, caps);
  }

  /** From the empty rows: any set-up whose settlements fit, the start-up check, then any such interleaving. */
  lemma {:induction false} AdmittedGatewaysStayWithinCaps(env: Env, caps: RuntimeConfig, calls: seq<Call>, actions: seq<Action>)
    requires FittingRun(env.cfg, calls, env.snapshot)
    requires
      var db := Run(env.cfg, EmptyTables, calls);
      && ConfigCommitted(env, caps, db) && PlansCommitted(env, caps, db.budget.reservations)
      && RatesAdmitted(env.price, caps) && HonestRun(env, db, actions) && OthersFit(env, db, actions)
    ensures
      var b := Reached(env, Run(env.cfg, EmptyTables, calls), actions).db.budget;
      var s := OfSnapshot(caps.run, env.snapshot);
      NothingOver(b, s) && ExactlyWithin(b.reservations, s, caps.maxCalls, caps.total)
  {
    hide Run, Inv, PlansCommitted, ConfigCommitted, RatesAdmitted, HonestRun, OthersFit, FittingRun, NoneOverOn;
    EmptyInv();
    RunKeeps(env.cfg, EmptyTables, calls);
    RunRecords(env.cfg, calls);
    RunKeepsNoneOver(env.cfg, calls, env.snapshot);
    GatewayStaysWithinCaps(env, caps, Run(env.cfg, EmptyTables, calls), actions);
  }
}
