/** What each action of the gateway does to its thread and the shared rows, by what the request, the rows and the
    Provider say, and which answer a called request ends with. */
module GatewayAnswers {
  import opened Base
  import opened Tables
  import opened Spec
  import opened MarkerScan
  import opened PlanRegistry
  import opened Cost
  import opened Contracts
  import opened Outcomes
  import opened Reasons
  import opened Records
  import opened Gateway

  // ---------- before the call ----------

  predicate ServiceMember(env: Env, core: Core) {
    core.program.Some? && env.principal.id in core.members && core.members[env.principal.id] == Member(Service, ServiceRole)
  }

  /** The row of the running snapshot. */
  predicate SnapshotRow(env: Env, b: Budget) {
    env.snapshot in b.snapshots && b.snapshots[env.snapshot].run == env.run
  }

  /** Where reading the configuration leads. */
  predicate ConfigTold(env: Env, db: Tables, authorised: bool, p: Phase) {
    var scoped := env.principal.kind == Service && env.program in env.principal.programs;
    var committed := scoped && ServiceMember(env, db.core) && SnapshotRow(env, db.budget);
    var named := committed && db.budget.snapshots[env.snapshot].providerAlias != "" && db.budget.snapshots[env.snapshot].modelId != "";
    match p
    case ConfigRead(config) => authorised && named && config == db.budget.snapshots[env.snapshot]
    case Escaped(at) => at == BeforeTheCall && authorised && scoped && db.core.program.None?
    case Done(reason) =>
      || (reason == AuthorizationDenied && !authorised)
      || (reason == SnapshotNotCommitted && authorised && !committed && !(scoped && db.core.program.None?))
      || (reason == PrecallBindingMismatch && authorised && committed && !named)
    case _ => false
  }

  /** The plan's own reservation, for this run and call, still open. */
  predicate ReservationRow(env: Env, b: Budget, plan: InvocationPlan) {
    && plan.reservation in b.reservations
    && var r := b.reservations[plan.reservation];
    r.run == env.run && r.modelCall == plan.modelCall && r.status == Reserved
  }

  predicate ReservationTold(env: Env, db: Tables, config: RuntimeConfig, plan: InvocationPlan, p: Phase) {
    var scoped := env.principal.kind == Service && env.program in env.principal.programs;
    var committed := scoped && ServiceMember(env, db.core) && ReservationRow(env, db.budget, plan);
    var bound := committed
      && var r := db.budget.reservations[plan.reservation];
      r.snapshot == env.snapshot && r.maxima.input > 0 && r.maxima.output > 0;
    match p
    case ReservationRead(c, row) => bound && config.providerAlias == env.alias && c == config && row == db.budget.reservations[plan.reservation]
    case Escaped(at) => at == BeforeTheCall && scoped && db.core.program.None?
    case Done(reason) =>
      || (reason == ReservationNotCommitted && !committed && !(scoped && db.core.program.None?))
      || (reason == PrecallBindingMismatch && committed && !bound)
      || (reason == ProviderNotConfigured && bound && config.providerAlias != env.alias)
    case _ => false
  }

  predicate ManifestTold(config: RuntimeConfig, row: Reservation, a: Action, p: Phase)
    requires a.StoreManifest?
  {
    var fits := a.inputAccepted && row.maxima.output <= config.perCall.output && a.wireBytes <= row.maxima.input;
    match p
    case ManifestStored(c, r, sha, bytes) => fits && a.stored && c == config && r == row && sha == a.sha && bytes == a.wireBytes
    case Done(reason) => (reason == ProviderInputInvalid && !fits) || (reason == ContextManifestNotCommitted && fits && !a.stored)
    case _ => false
  }

  // ---------- the call ----------

  /** The report of an answer: its own counts, at the least whole cost that covers their price. */
  predicate Reports(price: Price, input: nat, output: nat, report: Amounts) {
    && report.input == input && report.output == output
    && var exact := input * price.input + output * price.output;
    exact <= report.cost * 1_000_000 < exact + 1_000_000
  }

  predicate ReplyTold(env: Env, from: Phase, reply: Reply, p: Phase)
    requires from.Calling?
  {
    match p
    case Returned(config, sha, responseSha, requestId, usage) =>
      && config == from.config && sha == from.sha
      && (match reply
          case Answered(i, o, response, id) =>
            IsStableIdentifier(id) && responseSha == Some(response) && requestId == Some(id)
            && usage.Reported? && Reports(env.price, i, o, usage.amounts)
          case Raised => responseSha == None && requestId == None && usage == Unknown)
    case Escaped(at) => at == BeforeSettling && reply.Answered? && !IsStableIdentifier(reply.requestId)
    case _ => false
  }

  // ---------- the settlement ----------

  /** The command that settles a returned call: the usage under names derived from the plan and the request sent. */
  function SettlementSent(env: Env, plan: InvocationPlan, p: Phase, commandId: Uuid, issuedAt: int): Envelope
    requires p.Returned?
  {
    var id := UsageReceiptOf(env.program, env.run, plan.modelCall, plan.reservation, p.sha);
    var receipt := UsageReceipt(id, env.program, env.run, plan.modelCall, env.snapshot, plan.reservation, p.config.providerAlias,
      p.requestId, p.sha, p.responseSha, p.usage, match p.usage case Reported(_) => Succeeded case Unknown => UnknownCall,
      env.principal.id, issuedAt);
    Envelope(commandId, env.settleKey(id), env.program, env.principal, Internal, SettleBudget(receipt))
  }

  /** The attempt was answered, and the answer says that the reservation is settled. */
  predicate SaysSettled(result: CommandResult, delivery: Delivery) {
    && delivery == Delivered && result.status == COMMITTED && result.body.BudgetSettled?
    && (result.body.status == Settled || result.body.status == ConservativelySettled)
  }

  /** Where a settlement attempt leads: on only with reported usage and such an answer. */
  predicate SettlementTold(usage: Usage, result: CommandResult, delivery: Delivery, p: Phase) {
    var settled := SaysSettled(result, delivery);
    var lost := settled && usage.Unknown? && result.body.status == ConservativelySettled;
    match p
    case Accounted => settled && usage.Reported?
    case Done(reason) =>
      || (reason == ProviderTransportFailed && lost)
      || (reason == UsageSettlementFailed && !lost && !(settled && usage.Reported?))
    case _ => false
  }

  // ---------- every action ----------

  /** Thread `t` is in another phase, and nothing else has changed. */
  predicate OnlyPhase(w: World, n: World, t: nat)
    requires t in w.threads
  {
    t in n.threads && n == w.(threads := w.threads[t := w.threads[t].(phase := n.threads[t].phase)])
  }

  predicate IsIn(w: World, t: nat, p: Phase -> bool) {
    t in w.threads && p(w.threads[t].phase)
  }

  ghost predicate ClaimTold(env: Env, w: World, n: World, t: nat)
    requires t in w.threads
  {
    var th := w.threads[t];
    if MayClaim(env.plans, w.claimed, th.session, th.messages) then
      n == w.(claimed := w.claimed + {th.session.fingerprint},
              threads := w.threads[t := Thread(th.session, th.messages, Some(env.plans[th.session.fingerprint]), Planned)])
    else OnlyPhase(w, n, t) && n.threads[t].phase == Done(CallPlanUnavailable)
  }

  ghost predicate SettleTold(env: Env, w: World, n: World, a: Action)
    requires a.Settle? && a.thread in w.threads && w.threads[a.thread].phase.Returned? && w.threads[a.thread].plan.Some?
  {
    var t, th := a.thread, w.threads[a.thread];
    var o := Step(env.cfg, w.db, SettlementSent(env, th.plan.value, th.phase, a.commandId, a.issuedAt), a.input);
    && t in n.threads
    && n == w.(threads := w.threads[t := th.(phase := n.threads[t].phase)],
               db := if a.delivery == NotSent then w.db else o.db, settlements := w.settlements + [t])
    && SettlementTold(th.phase.usage, o.result, a.delivery, n.threads[t].phase)
  }

  /** An action of a thread in the right phase does this, any other does nothing. */
  ghost predicate ActionTold(env: Env, w: World, a: Action, n: World) {
    match a
    case Arrive(t, session, messages) =>
      if t in w.threads then n == w
      else n == w.(threads := w.threads[t := Thread(session, messages, None, if |messages| == 0 then Done(RequestInvalid) else Arrived)])
    case Claim(t) => if IsIn(w, t, (p: Phase) => p.Arrived?) then ClaimTold(env, w, n, t) else n == w
    case ReadConfig(t, authorised) =>
      if IsIn(w, t, (p: Phase) => p.Planned?) then OnlyPhase(w, n, t) && ConfigTold(env, w.db, authorised, n.threads[t].phase) else n == w
    case ReadReservation(t) =>
      if IsIn(w, t, (p: Phase) => p.ConfigRead?) && w.threads[t].plan.Some? then
        OnlyPhase(w, n, t) && ReservationTold(env, w.db, w.threads[t].phase.config, w.threads[t].plan.value, n.threads[t].phase)
      else n == w
    case StoreManifest(t, _, _, _, _) =>
      if IsIn(w, t, (p: Phase) => p.ReservationRead?) then
        OnlyPhase(w, n, t) && ManifestTold(w.threads[t].phase.config, w.threads[t].phase.row, a, n.threads[t].phase)
      else n == w
    case StartCall(t) =>
      if IsIn(w, t, (p: Phase) => p.ManifestStored?) then
        var p := w.threads[t].phase;
        n == w.(threads := w.threads[t := w.threads[t].(phase := Calling(p.config, p.row, p.sha, p.wireBytes))], calls := w.calls + [t])
      else n == w
    case EndCall(t, reply) =>
      if IsIn(w, t, (p: Phase) => p.Calling?) then
        && t in n.threads && ReplyTold(env, w.threads[t].phase, reply, n.threads[t].phase)
        && n == w.(threads := w.threads[t := w.threads[t].(phase := n.threads[t].phase)], replies := w.replies[t := reply])
      else n == w
    case Settle(t, _, _, _, _) =>
      if IsIn(w, t, (p: Phase) => p.Returned?) && w.threads[t].plan.Some? then SettleTold(env, w, n, a) else n == w
    case StoreReceipt(t, stored) =>
      if IsIn(w, t, (p: Phase) => p.Accounted?) then
        n == w.(threads := w.threads[t := w.threads[t].(phase := Done(if stored then OK else InvocationReceiptFailed))],
                receipts := if stored then w.receipts + [t] else w.receipts)
      else n == w
    case Escape(t) =>
      if IsIn(w, t, (p: Phase) => p.Accounted?) then OnlyPhase(w, n, t) && n.threads[t].phase == Escaped(AfterSettling)
      else if IsIn(w, t, (p: Phase) => p.Planned? || p.ConfigRead? || p.ReservationRead? || p.ManifestStored?) then
        OnlyPhase(w, n, t) && n.threads[t].phase == Escaped(BeforeTheCall)
      else n == w
    case Elsewhere(e, input) => n == w.(db := Step(env.cfg, w.db, e, input).db)
  }

  lemma ConfigIsTold(env: Env, db: Tables, authorised: bool)
    ensures ConfigTold(env, db, authorised, ConfigPhase(env, db, authorised))
  {
  }

  lemma ReservationIsTold(env: Env, db: Tables, config: RuntimeConfig, plan: InvocationPlan)
    ensures ReservationTold(env, db, config, plan, ReservationPhase(env, db, config, plan))
  {
    hide BudgetInvariant.IsSettled;
  }

  lemma ManifestIsTold(config: RuntimeConfig, row: Reservation, a: Action)
    requires a.StoreManifest?
    ensures ManifestTold(config, row, a, ManifestPhase(config, row, a))
  {
  }

  lemma ReplyIsTold(env: Env, p: Phase, reply: Reply)
    requires p.Calling?
    ensures ReplyTold(env, p, reply, ReplyPhase(env, p, reply))
  {
    hide IsStableIdentifier;
    if reply.Answered? { ReportIsTold(env, reply.input, reply.output); }
  }

  lemma ReportIsTold(env: Env, input: nat, output: nat)
    ensures Reports(env.price, input, output, ReportOf(env, input, output))
  {
    var exact := input * env.price.input + output * env.price.output;
    assert ReportOf(env, input, output).cost == (exact + 999_999) / 1_000_000;
  }

  lemma SettlementIsSent(env: Env, plan: InvocationPlan, p: Phase, commandId: Uuid, issuedAt: int)
    requires p.Returned?
    ensures SettleEnvelope(env, UsageReceiptFor(env, plan, p, issuedAt), commandId) == SettlementSent(env, plan, p, commandId, issuedAt)
  {
  }

  lemma SettlementIsTold(usage: Usage, result: CommandResult, delivery: Delivery)
    ensures SettlementTold(usage, result, delivery, SettledPhase(usage, result, delivery))
  {
  }

  lemma ClaimIsTold(env: Env, w: World, t: nat)
    requires t in w.threads
    ensures ClaimTold(env, w, Gateway.Claimed(env, w, t), t)
  {
    hide Carries, LastUserContent, Texts;
  }

  lemma SettledIsTold(env: Env, w: World, a: Action)
    requires a.Settle? && a.thread in w.threads && w.threads[a.thread].phase.Returned? && w.threads[a.thread].plan.Some?
    ensures SettleTold(env, w, Gateway.Settled(env, w, a), a)
  {
    hide Step, SettledPhase, SettlementTold, SettlementSent, UsageReceiptFor, SettleEnvelope;
    var th := w.threads[a.thread];
    SettlementIsSent(env, th.plan.value, th.phase, a.commandId, a.issuedAt);
    var o := Step(env.cfg, w.db, SettlementSent(env, th.plan.value, th.phase, a.commandId, a.issuedAt), a.input);
    SettlementIsTold(th.phase.usage, o.result, a.delivery);
  }

  /** Every action of every thread does what its request, the rows and the Provider say. */
  lemma ActionsTellTheTruth(env: Env, w: World, a: Action)
    ensures ActionTold(env, w, a, Next(env, w, a))
  {
    hide Step, ConfigPhase, ReservationPhase, ManifestPhase, ReplyPhase, SettledPhase, Gateway.Claimed, Gateway.Settled, Claimable, ClaimedAfter;
    hide ConfigTold, ReservationTold, ManifestTold, ReplyTold, SettleTold, ClaimTold;
    if !a.Elsewhere? && a.thread in w.threads {
      var th := w.threads[a.thread];
      match a
      case Claim(t) => ClaimIsTold(env, w, t);
      case ReadConfig(_, authorised) => ConfigIsTold(env, w.db, authorised);
      case ReadReservation(_) =>
        if th.phase.ConfigRead? && th.plan.Some? { ReservationIsTold(env, w.db, th.phase.config, th.plan.value); }
      case StoreManifest(_, _, _, _, _) => if th.phase.ReservationRead? { ManifestIsTold(th.phase.config, th.phase.row, a); }
      case EndCall(_, reply) => if th.phase.Calling? { ReplyIsTold(env, th.phase, reply); }
      case Settle(_, _, _, _, _) => if th.phase.Returned? && th.plan.Some? { SettledIsTold(env, w, a); }
      case _ =>
    }
  }

  // ---------- which answer a called request ends with ----------

  /** The thread waits with a returned call. */
  predicate Waits(w: World, t: nat) {
    t in w.threads && w.threads[t].phase.Returned? && w.threads[t].plan.Some?
  }

  ghost function AttemptOf(env: Env, w: World, a: Action): Outcome
    requires a.Settle? && Waits(w, a.thread)
  {
    Step(env.cfg, w.db, SettlementSent(env, w.threads[a.thread].plan.value, w.threads[a.thread].phase, a.commandId, a.issuedAt), a.input)
  }

  /** The answer after one settlement attempt and one attempt to store the invocation receipt. */
  function AnswerAfter(usage: Usage, result: CommandResult, delivery: Delivery, stored: bool): Reason {
    if !SaysSettled(result, delivery) then UsageSettlementFailed
    else
      match usage
      case Reported(_) => if stored then OK else InvocationReceiptFailed
      case Unknown => if result.body.status == ConservativelySettled then ProviderTransportFailed else UsageSettlementFailed
  }

  lemma AttemptEnds(env: Env, w: World, a: Action)
    requires a.Settle? && Waits(w, a.thread)
    ensures
      var n := Next(env, w, a);
      && a.thread in n.threads && n.settlements == w.settlements + [a.thread] && n.receipts == w.receipts
      && n.db == (if a.delivery == NotSent then w.db else AttemptOf(env, w, a).db)
      && n.threads[a.thread].plan == w.threads[a.thread].plan
      && SettlementTold(w.threads[a.thread].phase.usage, AttemptOf(env, w, a).result, a.delivery, n.threads[a.thread].phase)
  {
    hide Step, Next, SettlementTold, SettlementSent;
    ActionsTellTheTruth(env, w, a);
  }

  lemma ReceiptEnds(env: Env, w: World, t: nat, stored: bool)
    requires t in w.threads
    ensures
      var n := Next(env, w, StoreReceipt(t, stored));
      && t in n.threads && n.db == w.db && n.settlements == w.settlements && n.threads[t].plan == w.threads[t].plan
      && (if w.threads[t].phase.Accounted? then
            n.threads[t].phase == Done(if stored then OK else InvocationReceiptFailed)
            && n.receipts == if stored then w.receipts + [t] else w.receipts
          else n == w)
  {
    hide Step, Next;
    ActionsTellTheTruth(env, w, StoreReceipt(t, stored));
  }

  /** OK is the answer exactly when the usage was reported, the delivered attempt says that the reservation is
      settled, and the invocation receipt is stored. Without the receipt it is INVOCATION_RECEIPT_FAILED, without
      reported usage PROVIDER_TRANSPORT_FAILED, and after any other attempt USAGE_SETTLEMENT_FAILED. */
  lemma {:induction false} AnswersFollowTheSettlement(env: Env, db: Tables, actions: seq<Action>, a: Action, stored: bool)
    requires a.Settle? && Waits(Reached(env, db, actions), a.thread)
    ensures
      var w, n := Reached(env, db, actions), Reached(env, db, actions + [a] + [StoreReceipt(a.thread, stored)]);
      var reason := AnswerAfter(w.threads[a.thread].phase.usage, AttemptOf(env, w, a).result, a.delivery, stored);
      && a.thread in n.threads && n.threads[a.thread].phase == Done(reason)
      && n.threads[a.thread].plan == w.threads[a.thread].plan
      && n.settlements == w.settlements + [a.thread]
      && n.receipts == (if reason == OK then w.receipts + [a.thread] else w.receipts)
      && n.db == (if a.delivery == NotSent then w.db else AttemptOf(env, w, a).db)
  {
    hide Step, Next, Reached, AttemptOf;
    var w := Reached(env, db, actions);
    ReachedOneMore(env, db, actions, a);
    ReachedOneMore(env, db, actions + [a], StoreReceipt(a.thread, stored));
    AttemptEnds(env, w, a);
    ReceiptEnds(env, Next(env, w, a), a.thread, stored);
  }

  /** A settlement that is carried out says so, and charges what was reported. */
  lemma CarriedOutSettlementSays(cfg: Config, db: Tables, e: Envelope, input: Inputs)
    requires KeysUnique(db.core) && e.command.SettleBudget? && CommitsNow(cfg, db, e, input)
    ensures
      var o, u := Step(cfg, db, e, input), e.command.usage;
      && o.result.status == COMMITTED && o.result.body.BudgetSettled?
      && o.result.body.status == (match u.usage case Reported(_) => Settled case Unknown => ConservativelySettled)
      && u.reservation in o.db.budget.reservations && o.db.budget.reservations[u.reservation].status == o.result.body.status
      && (u.usage.Reported? ==> o.db.budget.reservations[u.reservation].charged == Some(u.usage.amounts))
  {
    hide KeysUnique, CommitsNow, Step, Breaks;
    StepsFollowTheRows(cfg, db, e, input);
    CommitsAreRecorded(cfg, db, e, input);
    hide Commits, RefusalTold;
  }

  /** The three last actions of a request whose call is answered. */
  function Ending(t: nat, reply: Reply, commandId: Uuid, issuedAt: int, input: Inputs): seq<Action> {
    [EndCall(t, reply), Settle(t, commandId, issuedAt, input, Delivered), StoreReceipt(t, true)]
  }

  /** The call of thread `t` has been answered by `reply`. */
  ghost predicate AnsweredIs(env: Env, w: World, n: World, t: nat, reply: Reply) {
    && t in w.threads && w.threads[t].phase.Calling? && t in n.threads && n.db == w.db && n.threads[t].plan == w.threads[t].plan
    && n.receipts == w.receipts && ReplyTold(env, w.threads[t].phase, reply, n.threads[t].phase)
  }

  lemma CallEnds(env: Env, w: World, t: nat, reply: Reply)
    requires t in w.threads && w.threads[t].phase.Calling?
    ensures AnsweredIs(env, w, Next(env, w, EndCall(t, reply)), t, reply)
  {
    hide Step, Next, ReplyTold;
    ActionsTellTheTruth(env, w, EndCall(t, reply));
  }

  /** OK is reached: from a call that is answered under an identifier in form, when the rows let its settlement be
      carried out, the attempt is delivered and the receipt is stored. The reservation is then charged what the
      Provider reported, at the least whole cost. */
  lemma {:induction false} OkIsReached(env: Env, db: Tables, actions: seq<Action>, t: nat, reply: Reply, commandId: Uuid, issuedAt: int,
          input: Inputs)
    requires
      var w := Reached(env, db, actions);
      && t in w.threads && w.threads[t].phase.Calling? && w.threads[t].plan.Some?
      && KeysUnique(w.db.core) && reply.Answered? && IsStableIdentifier(reply.requestId)
    requires
      var called := Reached(env, db, actions + [EndCall(t, reply)]);
      Waits(called, t) ==>
        CommitsNow(env.cfg, called.db,
          SettlementSent(env, called.threads[t].plan.value, called.threads[t].phase, commandId, issuedAt), input)
    ensures
      var w, n := Reached(env, db, actions), Reached(env, db, actions + Ending(t, reply, commandId, issuedAt, input));
      var k := w.threads[t].plan.value.reservation;
      && t in n.threads && n.threads[t].phase == Done(OK) && AnswerOf(n.threads[t].phase) == OK && t in n.receipts
      && k in n.db.budget.reservations && n.db.budget.reservations[k].status == Settled
      && n.db.budget.reservations[k].charged.Some?
      && Reports(env.price, reply.input, reply.output, n.db.budget.reservations[k].charged.value)
  {
    hide Step, Next, Reached, AttemptOf, CommitsNow, KeysUnique, Reports, IsStableIdentifier;
    var w, a := Reached(env, db, actions), Settle(t, commandId, issuedAt, input, Delivered);
    ReachedOneMore(env, db, actions, EndCall(t, reply));
    CallEnds(env, w, t, reply);
    var called := Reached(env, db, actions + [EndCall(t, reply)]);
    assert Waits(called, t);
    var e := SettlementSent(env, called.threads[t].plan.value, called.threads[t].phase, commandId, issuedAt);
    CarriedOutSettlementSays(env.cfg, called.db, e, input);
    AttemptIs(env, called, a);
    AnswersFollowTheSettlement(env, db, actions + [EndCall(t, reply)], a, true);
    assert actions + Ending(t, reply, commandId, issuedAt, input) == actions + [EndCall(t, reply)] + [a] + [StoreReceipt(t, true)];
  }

  lemma AttemptIs(env: Env, w: World, a: Action)
    requires a.Settle? && Waits(w, a.thread)
    ensures
      AttemptOf(env, w, a) ==
        Step(env.cfg, w.db, SettlementSent(env, w.threads[a.thread].plan.value, w.threads[a.thread].phase, a.commandId, a.issuedAt), a.input)
  {
  }

  /** A gateway that may read may also settle. */
  lemma SettlementIsAdmitted(env: Env, core: Core, plan: InvocationPlan, p: Phase, commandId: Uuid, issuedAt: int)
    requires p.Returned? && MayRead(env, core)
    ensures
      var e := SettlementSent(env, plan, p, commandId, issuedAt);
      core.program.Some? && Admitted(core, e) && Current(core, e.command)
  {
  }
}
