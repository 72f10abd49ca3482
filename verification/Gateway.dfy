/** The model gateway as interleaved threads over the State Service
    (src/awakening/model_gateway/m4/gateway.py and http_adapter.py). Every action is one point at which
    another thread may get in: a section under the registry lock, one transaction, the start or the end
    of the Provider call, or an exception that leaves the request handler. */
module Gateway {
  import opened Base
  import opened Tables
  import opened Contracts
  import opened Spec
  import opened MarkerScan
  import opened PlanRegistry
  import opened Cost
  import opened BudgetInvariant
  import opened Invariant
  import opened Growth
  import opened Settlements
  import Plans

  datatype Reason =
    | OK
    | RequestInvalid
    | CallPlanUnavailable
    | AuthorizationDenied
    | SnapshotNotCommitted
    | PrecallBindingMismatch
    | ReservationNotCommitted
    | ProviderNotConfigured
    | ProviderInputInvalid
    | ContextManifestNotCommitted
    | ProviderTransportFailed
    | UsageSettlementFailed
    | InvocationReceiptFailed
    | GatewayUnavailable

  /** One process: one Program, run and snapshot, one Provider, one plan table. */
  datatype Env = Env(
    cfg: Config,
    plans: PlanTable,
    program: Uuid,
    run: Uuid,
    snapshot: Uuid,
    alias: string,
    price: Price,
    principal: Principal,
    settleKey: Uuid -> string)

  /** How far a request was when an exception left it. */
  datatype Point = BeforeTheCall | BeforeSettling | AfterSettling

  datatype Phase =
    | Arrived
    | Planned
    | ConfigRead(config: RuntimeConfig)
    | ReservationRead(config: RuntimeConfig, row: Reservation)
    | ManifestStored(config: RuntimeConfig, row: Reservation, sha: string, wireBytes: nat)
    | Calling(config: RuntimeConfig, row: Reservation, sha: string, wireBytes: nat)
    | Returned(config: RuntimeConfig, sha: string, responseSha: Option<string>, requestId: Option<string>, usage: Usage)
    | Accounted
    | Done(reason: Reason)
    | Escaped(at: Point)

  datatype Thread = Thread(session: Session, messages: seq<Message>, plan: Option<InvocationPlan>, phase: Phase)

  /** What the Provider did: an answer with its own request identifier, or any exception. */
  datatype Reply = Answered(input: nat, output: nat, responseSha: string, requestId: string) | Raised

  /** What becomes of a settlement command: answered, never received, or executed with the answer lost. */
  datatype Delivery = Delivered | NotSent | AnswerLost

  /** The shared state, the threads that called the Provider, tried to settle, and stored a receipt, and
      what the Provider did in each finished call. */
  datatype World = World(
    db: Tables,
    claimed: set<string>,
    threads: map<nat, Thread>,
    calls: seq<nat>,
    settlements: seq<nat>,
    receipts: seq<nat>,
    replies: map<nat, Reply>)

  datatype Action =
    | Arrive(thread: nat, session: Session, messages: seq<Message>)
    | Claim(thread: nat)
    | ReadConfig(thread: nat, authorised: bool)
    | ReadReservation(thread: nat)
    | StoreManifest(thread: nat, inputAccepted: bool, wireBytes: nat, sha: string, stored: bool)
    | StartCall(thread: nat)
    | EndCall(thread: nat, reply: Reply)
    | Settle(thread: nat, commandId: Uuid, issuedAt: int, input: Inputs, delivery: Delivery)
    | StoreReceipt(thread: nat, stored: bool)
    | Escape(thread: nat)
    | Elsewhere(envelope: Envelope, input: Inputs)

  /** The reservation a thread read was reserved for its plan's call, and is still there, at most settled since. */
  predicate RowRead(rows: ReservationMap, plan: InvocationPlan, row: Reservation) {
    && row.status == Reserved && row.modelCall == plan.modelCall
    && plan.reservation in rows && ReservationMoves(row, rows[plan.reservation])
  }

  /** The final request is within what was reserved. */
  predicate Fits(config: RuntimeConfig, row: Reservation, wireBytes: nat) {
    wireBytes <= row.maxima.input && row.maxima.output <= config.perCall.output
  }

  // ---------- what each action does ----------

  /** The internal read refuses another kind of principal or Program before it looks for the Program row;
      a missing row is no refusal but an exception that nobody on the way catches. */
  predicate PrincipalFits(env: Env) {
    env.principal.kind == Service && env.program in env.principal.programs
  }

  predicate MayRead(env: Env, core: Core) {
    && PrincipalFits(env) && core.program.Some?
    && env.principal.id in core.members && core.members[env.principal.id] == Member(Service, ServiceRole)
  }

  predicate ReadEscapes(env: Env, core: Core) {
    PrincipalFits(env) && core.program.None?
  }

  /** A request that ends here has not called the Provider. */
  predicate EndsBeforeTheCall(p: Phase) {
    p == Escaped(BeforeTheCall) || (p.Done? && !AfterCall(p.reason))
  }

  function ConfigPhase(env: Env, db: Tables, authorised: bool): (p: Phase)
    ensures p.ConfigRead? || EndsBeforeTheCall(p)
  {
    if !authorised then Done(AuthorizationDenied)
    else if ReadEscapes(env, db.core) then Escaped(BeforeTheCall)
    else if !MayRead(env, db.core) || env.snapshot !in db.budget.snapshots || db.budget.snapshots[env.snapshot].run != env.run then
      Done(SnapshotNotCommitted)
    else
      var config := db.budget.snapshots[env.snapshot];
      if config.providerAlias == "" || config.modelId == "" || config.parameters != TrustedParameters then Done(PrecallBindingMismatch)
      else ConfigRead(config)
  }

  function ReservationPhase(env: Env, db: Tables, config: RuntimeConfig, plan: InvocationPlan): (p: Phase)
    ensures p.ReservationRead? || EndsBeforeTheCall(p)
    ensures p.ReservationRead? ==> RowRead(db.budget.reservations, plan, p.row)
  {
    var rows := db.budget.reservations;
    if ReadEscapes(env, db.core) then Escaped(BeforeTheCall)
    else if !MayRead(env, db.core) || plan.reservation !in rows then Done(ReservationNotCommitted)
    else
      var row := rows[plan.reservation];
      if row.run != env.run || row.modelCall != plan.modelCall || row.status != Reserved then Done(ReservationNotCommitted)
      else if row.snapshot != env.snapshot || row.maxima.input == 0 || row.maxima.output == 0 then Done(PrecallBindingMismatch)
      else if config.providerAlias != env.alias then Done(ProviderNotConfigured)
      else ReservationRead(config, row)
  }

  function ManifestPhase(config: RuntimeConfig, row: Reservation, a: Action): (p: Phase)
    requires a.StoreManifest?
    ensures p.ManifestStored? || EndsBeforeTheCall(p)
    ensures p.ManifestStored? ==> p.row == row && Fits(p.config, p.row, p.wireBytes)
  {
    if !a.inputAccepted || row.maxima.output > config.perCall.output || a.wireBytes > row.maxima.input then Done(ProviderInputInvalid)
    else if !a.stored then Done(ContextManifestNotCommitted)
    else ManifestStored(config, row, a.sha, a.wireBytes)
  }

  /** The constructor of the usage receipt raises on an answer whose identifier is not in form. */
  predicate Settleable(reply: Reply) {
    reply.Raised? || IsStableIdentifier(reply.requestId)
  }

  /** What an answer costs. */
  function ReportOf(env: Env, input: nat, output: nat): Amounts {
    Amounts(input, output, CeilCost(env.price, input, output))
  }

  function ReplyPhase(env: Env, p: Phase, reply: Reply): Phase
    requires p.Calling?
  {
    match reply
    case Answered(i, o, responseSha, requestId) =>
      if !IsStableIdentifier(requestId) then Escaped(BeforeSettling)
      else Returned(p.config, p.sha, Some(responseSha), Some(requestId), Reported(ReportOf(env, i, o)))
    case Raised => Returned(p.config, p.sha, None, None, Unknown)
  }

  function UsageReceiptFor(env: Env, plan: InvocationPlan, p: Phase, issuedAt: int): UsageReceipt
    requires p.Returned?
  {
    UsageReceipt(UsageReceiptOf(env.program, env.run, plan.modelCall, plan.reservation, p.sha),
      env.program, env.run, plan.modelCall, env.snapshot, plan.reservation, p.config.providerAlias, p.requestId, p.sha, p.responseSha,
      p.usage, if p.usage.Reported? then Succeeded else UnknownCall, env.principal.id, issuedAt)
  }

  function SettleEnvelope(env: Env, u: UsageReceipt, commandId: Uuid): Envelope {
    Envelope(commandId, env.settleKey(u.receiptId), env.program, env.principal, Internal, SettleBudget(u))
  }

  /** The settlement adapter raises unless the command committed. */
  function SettledPhase(usage: Usage, result: CommandResult, delivery: Delivery): (p: Phase)
    ensures p.Accounted? || p.Done?
  {
    if !delivery.Delivered? then Done(UsageSettlementFailed)
    else if result.status != COMMITTED || !result.body.BudgetSettled? then Done(UsageSettlementFailed)
    else if usage.Unknown? then
      if result.body.status == ConservativelySettled then Done(ProviderTransportFailed) else Done(UsageSettlementFailed)
    else if IsSettled(result.body.status) then Accounted
    else Done(UsageSettlementFailed)
  }

  function WithPhase(w: World, t: nat, p: Phase): World
    requires t in w.threads
  {
    w.(threads := w.threads[t := w.threads[t].(phase := p)])
  }

  ghost function Claimed(env: Env, w: World, t: nat): World
    requires t in w.threads
  {
    var th := w.threads[t];
    var plan := Claimable(env.plans, w.claimed, th.session, th.messages);
    if plan.None? then WithPhase(w, t, Done(CallPlanUnavailable))
    else
      w.(claimed := ClaimedAfter(env.plans, w.claimed, th.session, th.messages),
         threads := w.threads[t := th.(plan := plan, phase := Planned)])
  }

  /** Where a settlement attempt leaves the rows. */
  ghost function AfterAttempt(env: Env, db: Tables, e: Envelope, input: Inputs, delivery: Delivery): Tables {
    if delivery.NotSent? then db else Step(env.cfg, db, e, input).db
  }

  ghost function Settled(env: Env, w: World, a: Action): World
    requires a.Settle? && a.thread in w.threads && w.threads[a.thread].phase.Returned? && w.threads[a.thread].plan.Some?
  {
    var th := w.threads[a.thread];
    var u := UsageReceiptFor(env, th.plan.value, th.phase, a.issuedAt);
    var o := Step(env.cfg, w.db, SettleEnvelope(env, u, a.commandId), a.input);
    WithPhase(w, a.thread, SettledPhase(th.phase.usage, o.result, a.delivery)).(
      db := AfterAttempt(env, w.db, SettleEnvelope(env, u, a.commandId), a.input, a.delivery), settlements := w.settlements + [a.thread])
  }

  function Returning(env: Env, w: World, t: nat, reply: Reply): World
    requires t in w.threads && w.threads[t].phase.Calling?
  {
    WithPhase(w, t, ReplyPhase(env, w.threads[t].phase, reply)).(replies := w.replies[t := reply])
  }

  /** Where an exception outside every handler of the gateway leaves a request. */
  function EscapePhase(p: Phase): Phase {
    Escaped(if p.Accounted? then AfterSettling else BeforeTheCall)
  }

  /** Before the call and after the settlement some statements stand outside every handler. */
  predicate Escapes(p: Phase) {
    p.Planned? || p.ConfigRead? || p.ReservationRead? || p.ManifestStored? || p.Accounted?
  }

  /** A request without messages is refused before it can claim a plan. */
  function NewThread(a: Action): Thread
    requires a.Arrive?
  {
    Thread(a.session, a.messages, None, if a.messages == [] then Done(RequestInvalid) else Arrived)
  }

  /** One action of one thread that is in the phase the action starts from. */
  ghost function Act(env: Env, w: World, a: Action): World
    requires !a.Arrive? && !a.Elsewhere? && a.thread in w.threads
  {
    var th := w.threads[a.thread];
    match a
    case Claim(t) => if th.phase.Arrived? then Claimed(env, w, t) else w
    case ReadConfig(t, authorised) =>
      if th.phase.Planned? then WithPhase(w, t, ConfigPhase(env, w.db, authorised)) else w
    case ReadReservation(t) =>
      if th.phase.ConfigRead? && th.plan.Some? then WithPhase(w, t, ReservationPhase(env, w.db, th.phase.config, th.plan.value)) else w
    case StoreManifest(t, _, _, _, _) =>
      if th.phase.ReservationRead? then WithPhase(w, t, ManifestPhase(th.phase.config, th.phase.row, a)) else w
    case StartCall(t) =>
      if th.phase.ManifestStored? then
        WithPhase(w, t, Calling(th.phase.config, th.phase.row, th.phase.sha, th.phase.wireBytes)).(calls := w.calls + [t])
      else w
    case EndCall(t, reply) => if th.phase.Calling? then Returning(env, w, t, reply) else w
    case Settle(_, _, _, _, _) => if th.phase.Returned? && th.plan.Some? then Settled(env, w, a) else w
    case StoreReceipt(t, stored) =>
      if !th.phase.Accounted? then w
      else if stored then WithPhase(w, t, Done(OK)).(receipts := w.receipts + [t])
      else WithPhase(w, t, Done(InvocationReceiptFailed))
    case Escape(t) => if Escapes(th.phase) then WithPhase(w, t, EscapePhase(th.phase)) else w
  }

  ghost function Next(env: Env, w: World, a: Action): World {
    match a
    case Arrive(t, _, _) => if t in w.threads then w else w.(threads := w.threads[t := NewThread(a)])
    case Elsewhere(e, input) => w.(db := Step(env.cfg, w.db, e, input).db)
    case _ => if a.thread in w.threads then Act(env, w, a) else w
  }

  ghost function Reached(env: Env, db: Tables, actions: seq<Action>): World {
    if actions == [] then World(db, {}, map[], [], [], [], map[])
    else Next(env, Reached(env, db, actions[..|actions| - 1]), actions[|actions| - 1])
  }

  lemma ReachedOneMore(env: Env, db: Tables, actions: seq<Action>, a: Action)
    ensures Reached(env, db, actions + [a]) == Next(env, Reached(env, db, actions), a)
  {
    hide Next;
    assert (actions + [a])[..|actions|] == actions;
  }

  // ---------- the invariant of one thread ----------

  /** Outcomes that only a thread that called the Provider can have. */
  predicate AfterCall(r: Reason) {
    r == OK || r == ProviderTransportFailed || r == UsageSettlementFailed || r == InvocationReceiptFailed
  }

  predicate Called(p: Phase) {
    p.Calling? || p.Returned? || p.Accounted? || (p.Done? && AfterCall(p.reason)) || (p.Escaped? && p.at != BeforeTheCall)
  }

  /** In the call, about to settle, or lost between the two. */
  predicate NeedsSettlement(p: Phase) { p.Calling? || p.Returned? || p == Escaped(BeforeSettling) }

  predicate KnowsSettled(p: Phase) {
    || p.Accounted? || p == Escaped(AfterSettling)
    || (p.Done? && (p.reason == OK || p.reason == InvocationReceiptFailed || p.reason == ProviderTransportFailed))
  }

  predicate Finished(p: Phase) { p.Done? || p.Escaped? }

  /** What the HTTP adapter answers: the gateway's reason, or one code for every exception. */
  function AnswerOf(p: Phase): Reason
    requires Finished(p)
  {
    if p.Done? then p.reason else GatewayUnavailable
  }

  predicate Unclaimed(p: Phase) {
    p == Arrived || p == Done(RequestInvalid) || p == Done(CallPlanUnavailable)
  }

  predicate ThreadOk(plans: PlanTable, claimed: set<string>, rows: ReservationMap, th: Thread) {
    && (th.plan.Some? ==> th.session.fingerprint in claimed && th.session.fingerprint in plans && th.plan.value == plans[th.session.fingerprint])
    && (th.plan.None? ==> Unclaimed(th.phase))
    && (th.phase.Arrived? ==> th.plan.None?)
    && (KnowsSettled(th.phase) ==> th.plan.Some? && th.plan.value.reservation in rows && IsSettled(rows[th.plan.value.reservation].status))
  }

  predicate SharePlan(a: Thread, b: Thread) {
    a.plan.Some? && b.plan.Some? && a.session.fingerprint == b.session.fingerprint
  }

  ghost predicate ThreadsOk(env: Env, w: World) {
    && (forall t :: t in w.threads ==> ThreadOk(env.plans, w.claimed, w.db.budget.reservations, w.threads[t]))
    && (forall t, u :: t in w.threads && u in w.threads && SharePlan(w.threads[t], w.threads[u]) ==> t == u)
  }

  /** How far one thread got, read off the traces; an answer that cannot be settled is where it ended. */
  ghost predicate TraceOf(w: World, t: nat)
    requires t in w.threads
  {
    var p := w.threads[t].phase;
    && (t in w.calls <==> Called(p))
    && (t in w.settlements <==> Called(p) && !NeedsSettlement(p))
    && (t in w.receipts <==> p == Done(OK))
    && (t in w.replies <==> Called(p) && !p.Calling?)
    && (t in w.replies ==> (Settleable(w.replies[t]) <==> p != Escaped(BeforeSettling)))
  }

  ghost predicate OnlyThreads(w: World) {
    && (forall t :: t in w.calls ==> t in w.threads) && (forall t :: t in w.settlements ==> t in w.threads)
    && (forall t :: t in w.receipts ==> t in w.threads) && (forall t :: t in w.replies ==> t in w.threads)
  }

  /** The traces name each thread at most once, and exactly those that got so far. */
  ghost predicate TracesOk(w: World) {
    && Plans.Distinct(w.calls) && Plans.Distinct(w.settlements) && Plans.Distinct(w.receipts)
    && OnlyThreads(w) && forall t :: t in w.threads ==> TraceOf(w, t)
  }

  ghost predicate WorldInv(env: Env, w: World) {
    Inv(w.db) && SettlementsRecorded(w.db) && ThreadsOk(env, w) && TracesOk(w)
  }

  // ---------- preserved by every action ----------

  lemma AppendDistinct(s: seq<nat>, t: nat)
    requires Plans.Distinct(s) && t !in s
    ensures Plans.Distinct(s + [t])
  {
    assert forall i :: 0 <= i < |s| ==> s[i] in s;
  }

  /** A trace stays, or gets thread t at its end. */
  ghost predicate Extended(trace: seq<nat>, t: nat, next: seq<nat>) {
    next == trace || (t !in trace && next == trace + [t])
  }

  lemma ExtendedIsDistinct(trace: seq<nat>, t: nat, next: seq<nat>)
    requires Plans.Distinct(trace) && Extended(trace, t, next)
    ensures Plans.Distinct(next) && (forall u :: u != t ==> (u in next <==> u in trace))
  {
    if next != trace {
      hide Plans.Distinct;
      AppendDistinct(trace, t);
    }
  }

  /** One thread moves, and the traces and replies change for it alone. */
  ghost predicate Moves(w: World, t: nat, n: World) {
    && t in n.threads && n.threads == w.threads[t := n.threads[t]]
    && Extended(w.calls, t, n.calls) && Extended(w.settlements, t, n.settlements) && Extended(w.receipts, t, n.receipts)
    && (n.replies == w.replies || (t in n.replies && n.replies == w.replies[t := n.replies[t]]))
  }

  lemma MoveKeepsTraces(w: World, t: nat, n: World)
    requires TracesOk(w) && Moves(w, t, n) && TraceOf(n, t)
    ensures TracesOk(n)
  {
    hide Called, NeedsSettlement, Settleable, Plans.Distinct;
    ExtendedIsDistinct(w.calls, t, n.calls);
    ExtendedIsDistinct(w.settlements, t, n.settlements);
    ExtendedIsDistinct(w.receipts, t, n.receipts);
    hide Extended;
    forall u | u in n.threads ensures TraceOf(n, u) {
      if u != t { assert TraceOf(w, u); }
    }
  }

  /** A thread moves on without calling, settling or storing a receipt. */
  predicate QuietMove(p: Phase, next: Phase) {
    && (Called(p) <==> Called(next)) && (NeedsSettlement(p) <==> NeedsSettlement(next))
    && p != Done(OK) && next != Done(OK) && !p.Calling? && !next.Calling?
    && p != Escaped(BeforeSettling) && next != Escaped(BeforeSettling)
  }

  lemma QuietMoveKeepsTraces(w: World, t: nat, next: Phase)
    requires TracesOk(w) && t in w.threads && QuietMove(w.threads[t].phase, next)
    ensures TracesOk(WithPhase(w, t, next))
  {
    assert TraceOf(w, t);
    hide Called, NeedsSettlement, Settleable;
    MoveKeepsTraces(w, t, WithPhase(w, t, next));
  }

  lemma PhaseKeepsThreads(env: Env, w: World, t: nat, next: Phase)
    requires ThreadsOk(env, w) && t in w.threads
    requires ThreadOk(env.plans, w.claimed, w.db.budget.reservations, w.threads[t].(phase := next))
    ensures ThreadsOk(env, WithPhase(w, t, next))
  {
    hide ThreadOk;
  }

  lemma ClaimKeeps(env: Env, w: World, t: nat)
    requires ThreadsOk(env, w) && TracesOk(w) && t in w.threads && w.threads[t].phase.Arrived?
    ensures ThreadsOk(env, Claimed(env, w, t)) && TracesOk(Claimed(env, w, t))
  {
    hide MarkerAccepted, TracesOk;
    assert ThreadOk(env.plans, w.claimed, w.db.budget.reservations, w.threads[t]);
    var n := Claimed(env, w, t);
    forall u | u in n.threads ensures ThreadOk(env.plans, n.claimed, n.db.budget.reservations, n.threads[u]) {
      assert ThreadOk(env.plans, w.claimed, w.db.budget.reservations, w.threads[u]);
    }
    hide Claimable, ThreadOk;
    ClaimTraces(env, w, t);
  }

  lemma ClaimTraces(env: Env, w: World, t: nat)
    requires TracesOk(w) && t in w.threads && w.threads[t].phase.Arrived?
    ensures TracesOk(Claimed(env, w, t))
  {
    hide Claimable, ClaimedAfter;
    assert TraceOf(w, t);
    MoveKeepsTraces(w, t, Claimed(env, w, t));
  }

  lemma QuietActionKeeps(env: Env, w: World, t: nat, next: Phase)
    requires WorldInv(env, w) && t in w.threads && QuietMove(w.threads[t].phase, next)
    requires w.threads[t].plan.Some? && !next.Arrived? && (KnowsSettled(next) ==> KnowsSettled(w.threads[t].phase))
    ensures WorldInv(env, WithPhase(w, t, next))
  {
    hide Inv, SettlementsRecorded, TracesOk, Called, NeedsSettlement, KnowsSettled;
    assert ThreadOk(env.plans, w.claimed, w.db.budget.reservations, w.threads[t]);
    QuietMoveKeepsTraces(w, t, next);
    PhaseKeepsThreads(env, w, t, next);
  }

  lemma HasPlan(env: Env, w: World, t: nat)
    requires ThreadsOk(env, w) && t in w.threads && !Unclaimed(w.threads[t].phase)
    ensures w.threads[t].plan.Some?
  {
    assert ThreadOk(env.plans, w.claimed, w.db.budget.reservations, w.threads[t]);
  }

  /** A move that changes no row, no claim and no plan, and after which no more is known to be settled. */
  lemma TracedMoveKeeps(env: Env, w: World, t: nat, n: World)
    requires WorldInv(env, w) && t in w.threads && Moves(w, t, n) && TraceOf(n, t)
    requires n.db == w.db && n.claimed == w.claimed && n.threads[t] == w.threads[t].(phase := n.threads[t].phase)
    requires w.threads[t].plan.Some? && !n.threads[t].phase.Arrived?
    requires KnowsSettled(n.threads[t].phase) ==> KnowsSettled(w.threads[t].phase)
    ensures WorldInv(env, n)
  {
    hide Inv, SettlementsRecorded, TracesOk, TraceOf, Moves, KnowsSettled;
    assert n.threads == w.threads[t := n.threads[t]] by { MovesOne(w, t, n); }
    assert ThreadOk(env.plans, w.claimed, w.db.budget.reservations, w.threads[t]);
    PhaseKeepsThreads(env, w, t, n.threads[t].phase);
    MoveKeepsTraces(w, t, n);
  }

  lemma MovesOne(w: World, t: nat, n: World)
    requires Moves(w, t, n)
    ensures t in n.threads && n.threads == w.threads[t := n.threads[t]]
  {
  }

  lemma StartKeeps(env: Env, w: World, t: nat, next: Phase)
    requires WorldInv(env, w) && t in w.threads && w.threads[t].phase.ManifestStored? && next.Calling?
    ensures WorldInv(env, WithPhase(w, t, next).(calls := w.calls + [t]))
  {
    hide Inv, SettlementsRecorded;
    HasPlan(env, w, t);
    assert TraceOf(w, t);
    hide TracesOk, ThreadsOk;
    TracedMoveKeeps(env, w, t, WithPhase(w, t, next).(calls := w.calls + [t]));
  }

  lemma ReturnKeeps(env: Env, w: World, t: nat, reply: Reply)
    requires WorldInv(env, w) && t in w.threads && w.threads[t].phase.Calling?
    ensures WorldInv(env, Returning(env, w, t, reply))
  {
    hide Inv, SettlementsRecorded;
    HasPlan(env, w, t);
    assert TraceOf(w, t);
    hide TracesOk, ThreadsOk, IsStableIdentifier;
    TracedMoveKeeps(env, w, t, Returning(env, w, t, reply));
  }

  lemma ReceiptKeeps(env: Env, w: World, t: nat)
    requires WorldInv(env, w) && t in w.threads && w.threads[t].phase.Accounted?
    ensures WorldInv(env, WithPhase(w, t, Done(OK)).(receipts := w.receipts + [t]))
  {
    hide Inv, SettlementsRecorded;
    HasPlan(env, w, t);
    assert TraceOf(w, t);
    hide TracesOk, ThreadsOk;
    TracedMoveKeeps(env, w, t, WithPhase(w, t, Done(OK)).(receipts := w.receipts + [t]));
  }

  lemma SettledStaysOk(plans: PlanTable, claimed: set<string>, b: Budget, later: Budget, th: Thread)
    requires ThreadOk(plans, claimed, b.reservations, th) && BudgetGrows(b, later)
    ensures ThreadOk(plans, claimed, later.reservations, th)
  {
    hide KnowsSettled;
    if KnowsSettled(th.phase) {
      assert ReservationMoves(b.reservations[th.plan.value.reservation], later.reservations[th.plan.value.reservation]);
    }
  }

  lemma GrownThreads(env: Env, w: World, later: Tables)
    requires ThreadsOk(env, w) && BudgetGrows(w.db.budget, later.budget)
    ensures ThreadsOk(env, w.(db := later))
  {
    hide ThreadOk, BudgetGrows;
    forall t | t in w.threads ensures ThreadOk(env.plans, w.claimed, later.budget.reservations, w.threads[t]) {
      SettledStaysOk(env.plans, w.claimed, w.db.budget, later.budget, w.threads[t]);
    }
  }

  lemma SameTraces(w: World, later: Tables)
    requires TracesOk(w)
    ensures TracesOk(w.(db := later))
  {
    hide Called, NeedsSettlement, Settleable, Plans.Distinct;
    forall t | t in w.threads ensures TraceOf(w.(db := later), t) { assert TraceOf(w, t); }
  }

  /** A State Service command, whoever sends it, leaves settled reservations settled. */
  lemma CommandKeeps(env: Env, w: World, e: Envelope, input: Inputs)
    requires WorldInv(env, w)
    ensures WorldInv(env, w.(db := Step(env.cfg, w.db, e, input).db))
  {
    hide Step, Inv, SettlementsRecorded, TracesOk, ThreadsOk, CoreGrows, IngestGrows, LogGrows, BudgetGrows;
    var later := Step(env.cfg, w.db, e, input).db;
    StepKeeps(env.cfg, w.db, e, input);
    StepGrows(env.cfg, w.db, e, input);
    StepRecords(env.cfg, w.db, e, input);
    GrownThreads(env, w, later);
    SameTraces(w, later);
  }

  // ---------- settling ----------

  /** A settlement that comes back committed, or replayed as committed, has settled the plan's reservation. */
  lemma CommittedMeansSettled(cfg: Config, db: Tables, e: Envelope, input: Inputs)
    requires Inv(db) && SettlementsRecorded(db) && e.command.SettleBudget?
    requires Step(cfg, db, e, input).result.status == COMMITTED
    ensures SettledFor(Step(cfg, db, e, input).db.budget.reservations, e.command.usage)
  {
    if Step(cfg, db, e, input).result.replayed {
      ReplayedIsRecorded(cfg, db, e, input);
    } else {
      NewSettlementIsRecorded(cfg, db, e, input);
    }
  }

  lemma ReplayedIsRecorded(cfg: Config, db: Tables, e: Envelope, input: Inputs)
    requires SettlementsRecorded(db) && e.command.SettleBudget?
    requires Step(cfg, db, e, input).result.status == COMMITTED && Step(cfg, db, e, input).result.replayed
    ensures SettledFor(Step(cfg, db, e, input).db.budget.reservations, e.command.usage)
  {
    hide Admit, Meaning, VersionRefusal, EventIds, OutboxIds, SettledFor;
  }

  lemma SettleTraces(w: World, t: nat, next: Phase)
    requires TracesOk(w) && t in w.threads && w.threads[t].phase.Returned?
    requires Called(next) && !NeedsSettlement(next) && next != Done(OK)
    ensures TracesOk(WithPhase(w, t, next).(settlements := w.settlements + [t]))
  {
    assert TraceOf(w, t);
    MoveKeepsTraces(w, t, WithPhase(w, t, next).(settlements := w.settlements + [t]));
  }

  /** What a thread knows after its attempt is so. */
  lemma SettledThreadOk(env: Env, w: World, a: Action)
    requires WorldInv(env, w) && a.Settle? && a.thread in w.threads && w.threads[a.thread].phase.Returned? && w.threads[a.thread].plan.Some?
    ensures
      var th := w.threads[a.thread];
      var e := SettleEnvelope(env, UsageReceiptFor(env, th.plan.value, th.phase, a.issuedAt), a.commandId);
      var next := SettledPhase(th.phase.usage, Step(env.cfg, w.db, e, a.input).result, a.delivery);
      ThreadOk(env.plans, w.claimed, AfterAttempt(env, w.db, e, a.input, a.delivery).budget.reservations, th.(phase := next))
  {
    hide Step, Inv, SettlementsRecorded, TracesOk, IsStableIdentifier;
    var th := w.threads[a.thread];
    var e := SettleEnvelope(env, UsageReceiptFor(env, th.plan.value, th.phase, a.issuedAt), a.commandId);
    assert ThreadOk(env.plans, w.claimed, w.db.budget.reservations, th);
    if Step(env.cfg, w.db, e, a.input).result.status == COMMITTED { CommittedMeansSettled(env.cfg, w.db, e, a.input); }
    hide ThreadsOk;
  }

  lemma SettleKeepsWorld(env: Env, w: World, a: Action)
    requires WorldInv(env, w) && a.Settle? && a.thread in w.threads && w.threads[a.thread].phase.Returned? && w.threads[a.thread].plan.Some?
    ensures WorldInv(env, Settled(env, w, a))
  {
    hide Step, Inv, SettlementsRecorded, TracesOk, ThreadOk, UsageReceiptFor, SettleEnvelope;
    var t, th := a.thread, w.threads[a.thread];
    var e := SettleEnvelope(env, UsageReceiptFor(env, th.plan.value, th.phase, a.issuedAt), a.commandId);
    var next := SettledPhase(th.phase.usage, Step(env.cfg, w.db, e, a.input).result, a.delivery);
    var settled := w.(db := AfterAttempt(env, w.db, e, a.input, a.delivery));
    if !a.delivery.NotSent? { CommandKeeps(env, w, e, a.input); }
    SettledThreadOk(env, w, a);
    PhaseKeepsThreads(env, settled, t, next);
    SettleTraces(settled, t, next);
  }

  // ---------- every run ----------

  lemma ArriveKeeps(env: Env, w: World, a: Action)
    requires WorldInv(env, w) && a.Arrive? && a.thread !in w.threads
    ensures WorldInv(env, w.(threads := w.threads[a.thread := NewThread(a)]))
  {
    hide Inv, SettlementsRecorded, TracesOk;
    ArriveTraces(w, a);
  }

  lemma ArriveTraces(w: World, a: Action)
    requires TracesOk(w) && a.Arrive? && a.thread !in w.threads
    ensures TracesOk(w.(threads := w.threads[a.thread := NewThread(a)]))
  {
    hide Plans.Distinct;
    MoveKeepsTraces(w, a.thread, w.(threads := w.threads[a.thread := NewThread(a)]));
  }

  lemma {:induction false} ActKeeps(env: Env, w: World, a: Action)
    requires WorldInv(env, w) && !a.Arrive? && !a.Elsewhere? && a.thread in w.threads
    ensures WorldInv(env, Act(env, w, a))
  {
    hide WorldInv, ConfigPhase, ReservationPhase, Settled, Claimed, Returning;
    var t, th := a.thread, w.threads[a.thread];
    match a
    case Claim(_) => if th.phase.Arrived? { ClaimKeepsWorld(env, w, t); }
    case ReadConfig(_, x) => if th.phase.Planned? { ReadKeeps(env, w, t, ConfigPhase(env, w.db, x)); }
    case ReadReservation(_) =>
      if th.phase.ConfigRead? && th.plan.Some? { ReadKeeps(env, w, t, ReservationPhase(env, w.db, th.phase.config, th.plan.value)); }
    case StoreManifest(_, _, _, _, _) =>
      if th.phase.ReservationRead? { QuietKeeps(env, w, t, ManifestPhase(th.phase.config, th.phase.row, a)); }
    case StartCall(_) =>
      if th.phase.ManifestStored? { StartKeeps(env, w, t, Calling(th.phase.config, th.phase.row, th.phase.sha, th.phase.wireBytes)); }
    case EndCall(_, reply) => if th.phase.Calling? { ReturnKeeps(env, w, t, reply); }
    case Settle(_, _, _, _, _) => if th.phase.Returned? && th.plan.Some? { SettleKeepsWorld(env, w, a); }
    case StoreReceipt(_, stored) =>
      if th.phase.Accounted? {
        if stored { ReceiptKeeps(env, w, t); } else { QuietKeeps(env, w, t, Done(InvocationReceiptFailed)); }
      }
    case Escape(_) => if Escapes(th.phase) { QuietKeeps(env, w, t, EscapePhase(th.phase)); }
  }

  lemma ClaimKeepsWorld(env: Env, w: World, t: nat)
    requires WorldInv(env, w) && t in w.threads && w.threads[t].phase.Arrived?
    ensures WorldInv(env, Claimed(env, w, t))
  {
    hide Inv, SettlementsRecorded, ThreadsOk, TracesOk, Claimable;
    ClaimKeeps(env, w, t);
  }

  lemma QuietKeeps(env: Env, w: World, t: nat, next: Phase)
    requires WorldInv(env, w) && t in w.threads && QuietMove(w.threads[t].phase, next)
    requires !Unclaimed(w.threads[t].phase)
    requires !next.Arrived? && (KnowsSettled(next) ==> KnowsSettled(w.threads[t].phase))
    ensures WorldInv(env, WithPhase(w, t, next))
  {
    hide WorldInv, QuietMove, KnowsSettled;
    assert ThreadsOk(env, w) by { Threads(env, w); }
    HasPlan(env, w, t);
    QuietActionKeeps(env, w, t, next);
  }

  lemma Threads(env: Env, w: World)
    requires WorldInv(env, w)
    ensures ThreadsOk(env, w) && TracesOk(w)
  {
    hide Inv, SettlementsRecorded, ThreadsOk, TracesOk;
  }

  lemma ReadKeeps(env: Env, w: World, t: nat, next: Phase)
    requires WorldInv(env, w) && t in w.threads && (w.threads[t].phase.Planned? || w.threads[t].phase.ConfigRead?)
    requires next.ConfigRead? || next.ReservationRead? || EndsBeforeTheCall(next)
    ensures WorldInv(env, WithPhase(w, t, next))
  {
    hide WorldInv;
    QuietKeeps(env, w, t, next);
  }

  lemma {:induction false} NextKeeps(env: Env, w: World, a: Action)
    requires WorldInv(env, w)
    ensures WorldInv(env, Next(env, w, a))
  {
    hide WorldInv, Act, Step;
    match a
    case Arrive(t, _, _) => if t !in w.threads { ArriveKeeps(env, w, a); }
    case Elsewhere(e, input) => CommandKeeps(env, w, e, input);
    case _ => if a.thread in w.threads { ActKeeps(env, w, a); }
  }

  lemma {:induction false} ReachedKeeps(env: Env, db: Tables, actions: seq<Action>)
    requires Inv(db) && SettlementsRecorded(db)
    ensures WorldInv(env, Reached(env, db, actions))
  {
    hide Next, Inv, SettlementsRecorded;
    if actions != [] {
      hide WorldInv;
      ReachedKeeps(env, db, actions[..|actions| - 1]);
      NextKeeps(env, Reached(env, db, actions[..|actions| - 1]), actions[|actions| - 1]);
    }
  }

  // ---------- what holds in every interleaving ----------

  ghost function ReservationCalled(w: World, i: int): Uuid
    requires 0 <= i < |w.calls| && w.calls[i] in w.threads && w.threads[w.calls[i]].plan.Some?
  {
    w.threads[w.calls[i]].plan.value.reservation
  }

  lemma CallersHavePlans(env: Env, w: World, i: int)
    requires ThreadsOk(env, w) && TracesOk(w) && 0 <= i < |w.calls|
    ensures w.calls[i] in w.threads && w.threads[w.calls[i]].plan.Some?
  {
    assert w.calls[i] in w.calls;
    HasPlan(env, w, w.calls[i]);
  }

  /** At most one Provider call per reservation, however requests, retries and other commands interleave. */
  lemma {:induction false} AtMostOneCallPerReservation(env: Env, db: Tables, actions: seq<Action>, i: int, j: int)
    requires Inv(db) && SettlementsRecorded(db) && OneFingerprintPerReservation(env.plans)
    requires 0 <= i < j < |Reached(env, db, actions).calls|
    ensures
      var w := Reached(env, db, actions);
      && w.calls[i] in w.threads && w.threads[w.calls[i]].plan.Some? && w.calls[j] in w.threads && w.threads[w.calls[j]].plan.Some?
      && ReservationCalled(w, i) != ReservationCalled(w, j)
  {
    var w := Reached(env, db, actions);
    ReachedKeeps(env, db, actions);
    hide Reached, Inv, SettlementsRecorded;
    Threads(env, w);
    hide WorldInv;
    CallersHavePlans(env, w, i);
    CallersHavePlans(env, w, j);
    var t, u := w.calls[i], w.calls[j];
    assert t != u;
    hide TracesOk;
    assert ThreadOk(env.plans, w.claimed, w.db.budget.reservations, w.threads[t]);
    assert ThreadOk(env.plans, w.claimed, w.db.budget.reservations, w.threads[u]);
    assert !SharePlan(w.threads[t], w.threads[u]);
  }

  lemma {:induction false} TraceOfThread(env: Env, db: Tables, actions: seq<Action>, t: nat)
    requires Inv(db) && SettlementsRecorded(db) && t in Reached(env, db, actions).threads
    ensures
      var w := Reached(env, db, actions);
      ThreadsOk(env, w) && TraceOf(w, t) && Plans.Distinct(w.settlements) && Plans.Distinct(w.calls)
  {
    hide Reached, Inv, SettlementsRecorded, WorldInv, ThreadsOk, TracesOk, TraceOf, Plans.Distinct;
    var w := Reached(env, db, actions);
    ReachedKeeps(env, db, actions);
    Threads(env, w);
    TraceFrom(w, t);
  }

  lemma TraceFrom(w: World, t: nat)
    requires TracesOk(w) && t in w.threads
    ensures TraceOf(w, t) && Plans.Distinct(w.settlements) && Plans.Distinct(w.calls)
  {
    hide TraceOf, Plans.Distinct;
  }

  /** Which Provider calls are followed by exactly one settlement attempt. Nobody settles who has not
      called, or settles twice; and a caller that is finished has settled if and only if its call raised
      or the answer's own identifier is in form. */
  lemma {:induction false} EveryCallIsSettledOnce(env: Env, db: Tables, actions: seq<Action>, t: nat)
    requires Inv(db) && SettlementsRecorded(db) && t in Reached(env, db, actions).threads
    ensures
      var w := Reached(env, db, actions);
      && Plans.Distinct(w.settlements) && Plans.Distinct(w.calls)
      && (t in w.settlements ==> t in w.calls && t in w.replies)
      && (Finished(w.threads[t].phase) && t in w.calls ==>
            t in w.replies && (t in w.settlements <==> Settleable(w.replies[t])))
  {
    hide Reached, Inv, SettlementsRecorded, ThreadsOk, Plans.Distinct, Settleable;
    TraceOfThread(env, db, actions, t);
  }

  /** Wherever a call is going on, an answer with a bad identifier ends the request there: called, never to
      be settled, the rows as they were. */
  lemma {:induction false} BadIdentifierEndsUnsettled(env: Env, db: Tables, actions: seq<Action>, t: nat, reply: Reply)
    requires Inv(db) && SettlementsRecorded(db) && !Settleable(reply)
    requires t in Reached(env, db, actions).threads && Reached(env, db, actions).threads[t].phase.Calling?
    ensures
      var w, n := Reached(env, db, actions), Reached(env, db, actions + [EndCall(t, reply)]);
      && t in n.threads && Finished(n.threads[t].phase) && AnswerOf(n.threads[t].phase) == GatewayUnavailable
      && t in n.calls && t !in n.settlements && n.db == w.db
  {
    hide Inv, SettlementsRecorded, ThreadsOk, Reached, Next, Settleable, Plans.Distinct;
    TraceOfThread(env, db, actions, t);
    ReachedOneMore(env, db, actions, EndCall(t, reply));
    BadReplyLosesThread(env, Reached(env, db, actions), t, reply);
  }

  lemma BadReplyLosesThread(env: Env, w: World, t: nat, reply: Reply)
    requires t in w.threads && w.threads[t].phase.Calling? && !Settleable(reply)
    ensures Next(env, w, EndCall(t, reply)) == w.(threads := w.threads[t := w.threads[t].(phase := Escaped(BeforeSettling))],
                                                  replies := w.replies[t := reply])
  {
    hide IsStableIdentifier, Step;
  }

  /** An answer other than GATEWAY_UNAVAILABLE tells whether the Provider was called: it was exactly when
      the answer is one of the four that only a caller can get. */
  lemma {:induction false} RefusedNeverCalls(env: Env, db: Tables, actions: seq<Action>, t: nat)
    requires Inv(db) && SettlementsRecorded(db) && t in Reached(env, db, actions).threads
    requires Finished(Reached(env, db, actions).threads[t].phase)
    ensures
      var w := Reached(env, db, actions);
      var answer := AnswerOf(w.threads[t].phase);
      && (answer != GatewayUnavailable ==> (t in w.calls <==> AfterCall(answer)))
      && (answer == GatewayUnavailable && t in w.calls && t !in w.settlements ==> t in w.replies && !Settleable(w.replies[t]))
  {
    hide Reached, Inv, SettlementsRecorded, ThreadsOk, Plans.Distinct, Settleable;
    TraceOfThread(env, db, actions, t);
  }

  /** The answer OK means: the Provider was called, the reservation is settled, the invocation receipt is stored. */
  lemma {:induction false} OkMeansSettledAndReceipted(env: Env, db: Tables, actions: seq<Action>, t: nat)
    requires Inv(db) && SettlementsRecorded(db)
    requires t in Reached(env, db, actions).threads && Reached(env, db, actions).threads[t].phase == Done(OK)
    ensures
      var w := Reached(env, db, actions);
      && t in w.calls && t in w.settlements && t in w.receipts && w.threads[t].plan.Some?
      && w.threads[t].plan.value.reservation in w.db.budget.reservations
      && IsSettled(w.db.budget.reservations[w.threads[t].plan.value.reservation].status)
  {
    hide Reached, Inv, SettlementsRecorded, Plans.Distinct;
    var w := Reached(env, db, actions);
    TraceOfThread(env, db, actions, t);
    assert ThreadOk(env.plans, w.claimed, w.db.budget.reservations, w.threads[t]);
  }

  // ---------- what is checked before the call still holds during it ----------

  predicate Evidence(rows: ReservationMap, th: Thread) {
    match th.phase
    case ReservationRead(_, row) => th.plan.Some? && RowRead(rows, th.plan.value, row)
    case ManifestStored(config, row, _, bytes) => th.plan.Some? && RowRead(rows, th.plan.value, row) && Fits(config, row, bytes)
    case Calling(config, row, _, bytes) => th.plan.Some? && RowRead(rows, th.plan.value, row) && Fits(config, row, bytes)
    case _ => true
  }

  ghost predicate AllEvidence(w: World) {
    forall t :: t in w.threads ==> Evidence(w.db.budget.reservations, w.threads[t])
  }

  lemma RowReadGrows(b: Budget, later: Budget, plan: InvocationPlan, row: Reservation)
    requires RowRead(b.reservations, plan, row) && BudgetGrows(b, later)
    ensures RowRead(later.reservations, plan, row)
  {
    assert ReservationMoves(b.reservations[plan.reservation], later.reservations[plan.reservation]);
  }

  lemma CommandKeepsEvidence(env: Env, w: World, e: Envelope, input: Inputs)
    requires Inv(w.db) && AllEvidence(w)
    ensures AllEvidence(w.(db := Step(env.cfg, w.db, e, input).db))
  {
    hide Step, Inv, CoreGrows, IngestGrows, LogGrows, BudgetGrows, RowRead, Fits;
    var later := Step(env.cfg, w.db, e, input).db;
    StepGrows(env.cfg, w.db, e, input);
    forall t | t in w.threads ensures Evidence(later.budget.reservations, w.threads[t]) {
      assert Evidence(w.db.budget.reservations, w.threads[t]);
      forall plan, row | RowRead(w.db.budget.reservations, plan, row) ensures RowRead(later.budget.reservations, plan, row) {
        RowReadGrows(w.db.budget, later.budget, plan, row);
      }
    }
  }

  lemma PhaseKeepsEvidence(w: World, t: nat, next: Phase)
    requires AllEvidence(w) && t in w.threads && Evidence(w.db.budget.reservations, w.threads[t].(phase := next))
    ensures AllEvidence(WithPhase(w, t, next))
  {
    hide Evidence;
  }

  lemma ActKeepsEvidence(env: Env, w: World, a: Action)
    requires Inv(w.db) && AllEvidence(w) && !a.Arrive? && !a.Elsewhere? && a.thread in w.threads
    ensures AllEvidence(Act(env, w, a))
  {
    hide Inv, Step, AllEvidence, RowRead, Fits, ConfigPhase, ReservationPhase, ManifestPhase, Claimable, SettledPhase, IsStableIdentifier;
    var t, th := a.thread, w.threads[a.thread];
    assert Evidence(w.db.budget.reservations, th) by { EvidenceOf(w, t); }
    match a
    case Claim(_) => if th.phase.Arrived? { ClaimKeepsEvidence(env, w, t); }
    case ReadConfig(_, x) => if th.phase.Planned? { PhaseKeepsEvidence(w, t, ConfigPhase(env, w.db, x)); }
    case ReadReservation(_) =>
      if th.phase.ConfigRead? && th.plan.Some? {
        PhaseKeepsEvidence(w, t, ReservationPhase(env, w.db, th.phase.config, th.plan.value));
      }
    case StoreManifest(_, _, _, _, _) =>
      if th.phase.ReservationRead? { PhaseKeepsEvidence(w, t, ManifestPhase(th.phase.config, th.phase.row, a)); }
    case StartCall(_) =>
      if th.phase.ManifestStored? {
        var next := Calling(th.phase.config, th.phase.row, th.phase.sha, th.phase.wireBytes);
        PhaseKeepsEvidence(w, t, next);
        TracesDoNotMatter(WithPhase(w, t, next), w.calls + [t], w.settlements, w.receipts, w.replies);
      }
    case EndCall(_, reply) =>
      if th.phase.Calling? {
        var next := ReplyPhase(env, th.phase, reply);
        PhaseKeepsEvidence(w, t, next);
        TracesDoNotMatter(WithPhase(w, t, next), w.calls, w.settlements, w.receipts, w.replies[t := reply]);
      }
    case Settle(_, _, _, _, _) =>
      if th.phase.Returned? && th.plan.Some? {
        var e := SettleEnvelope(env, UsageReceiptFor(env, th.plan.value, th.phase, a.issuedAt), a.commandId);
        var after := w.(db := AfterAttempt(env, w.db, e, a.input, a.delivery));
        var next := SettledPhase(th.phase.usage, Step(env.cfg, w.db, e, a.input).result, a.delivery);
        if !a.delivery.NotSent? { CommandKeepsEvidence(env, w, e, a.input); }
        PhaseKeepsEvidence(after, t, next);
        TracesDoNotMatter(WithPhase(after, t, next), w.calls, w.settlements + [t], w.receipts, w.replies);
      }
    case StoreReceipt(_, stored) =>
      if th.phase.Accounted? {
        PhaseKeepsEvidence(w, t, if stored then Done(OK) else Done(InvocationReceiptFailed));
        TracesDoNotMatter(WithPhase(w, t, Done(OK)), w.calls, w.settlements, w.receipts + [t], w.replies);
      }
    case Escape(_) => if Escapes(th.phase) { PhaseKeepsEvidence(w, t, EscapePhase(th.phase)); }
  }

  lemma EvidenceOf(w: World, t: nat)
    requires AllEvidence(w) && t in w.threads
    ensures Evidence(w.db.budget.reservations, w.threads[t])
  {
  }

  lemma ClaimKeepsEvidence(env: Env, w: World, t: nat)
    requires AllEvidence(w) && t in w.threads && w.threads[t].phase.Arrived?
    ensures AllEvidence(Claimed(env, w, t))
  {
    hide Claimable, ClaimedAfter, RowRead, Fits;
  }

  lemma TracesDoNotMatter(w: World, calls: seq<nat>, settlements: seq<nat>, receipts: seq<nat>, replies: map<nat, Reply>)
    ensures AllEvidence(w) ==> AllEvidence(w.(calls := calls, settlements := settlements, receipts := receipts, replies := replies))
  {
    hide Evidence;
  }

  lemma {:induction false} ReachedHasEvidence(env: Env, db: Tables, actions: seq<Action>)
    requires Inv(db) && SettlementsRecorded(db)
    ensures AllEvidence(Reached(env, db, actions))
  {
    hide Inv, SettlementsRecorded, Act, Step, Evidence, TracesOk, ThreadsOk;
    if actions != [] {
      var front, a := actions[..|actions| - 1], actions[|actions| - 1];
      var w := Reached(env, db, front);
      ReachedHasEvidence(env, db, front);
      ReachedKeeps(env, db, front);
      match a
      case Arrive(t, _, _) => NewThreadHasEvidence(w, a);
      case Elsewhere(e, input) => CommandKeepsEvidence(env, w, e, input);
      case _ => if a.thread in w.threads { ActKeepsEvidence(env, w, a); }
    }
  }

  lemma NewThreadHasEvidence(w: World, a: Action)
    requires AllEvidence(w) && a.Arrive?
    ensures AllEvidence(w.(threads := w.threads[a.thread := NewThread(a)]))
  {
    hide RowRead, Fits;
  }

  ghost predicate Covered(env: Env, rows: ReservationMap, th: Thread, input: nat, output: nat)
    requires th.phase.Calling?
  {
    && th.plan.Some? && RowRead(rows, th.plan.value, th.phase.row)
    && rows[th.plan.value.reservation].maxima == th.phase.row.maxima
    && (input <= th.phase.wireBytes && output <= th.phase.row.maxima.output ==>
          HonestReport(env.price, th.phase.row.maxima, ReportOf(env, input, output)))
  }

  lemma EvidenceCovers(env: Env, rows: ReservationMap, th: Thread, input: nat, output: nat)
    requires th.phase.Calling? && Evidence(rows, th)
    ensures Covered(env, rows, th, input, output)
  {
    hide CeilCost;
  }

  /** While a thread is in the Provider call, it holds a reservation that was read as reserved for this
      very model call, still present with the same maxima, and its request fits those maxima; so a
      Provider that charges no more than the bytes sent and the tokens allowed reports an honest usage. */
  lemma {:induction false} CallsAreCovered(env: Env, db: Tables, actions: seq<Action>, t: nat, input: nat, output: nat)
    requires Inv(db) && SettlementsRecorded(db)
    requires t in Reached(env, db, actions).threads && Reached(env, db, actions).threads[t].phase.Calling?
    ensures
      var w := Reached(env, db, actions);
      Covered(env, w.db.budget.reservations, w.threads[t], input, output)
  {
    hide Reached, Inv, SettlementsRecorded, Evidence, Covered;
    var w := Reached(env, db, actions);
    ReachedHasEvidence(env, db, actions);
    EvidenceOf(w, t);
    EvidenceCovers(env, w.db.budget.reservations, w.threads[t], input, output);
  }
}
