/** The four State MCP methods an Agent may call (src/awakening/adapters/m4/state_mcp.py). */
module McpAdapter {
  import opened Base
  import opened Plans
  import opened Tables
  import opened Spec
  import opened StateTransactions
  import opened Invariant
  import opened StateService

  datatype AgentIdentity = Manager | Architect | Coach | Reviewer

  datatype McpMethod = GetSnapshot | GetCommandStatus | Submit | ApplyAuthorizedChange

  /** The fixed method matrix. */
  predicate Allows(identity: AgentIdentity, m: McpMethod) {
    match identity
    case Manager => m != Submit
    case Architect => m == Submit || m == GetCommandStatus
    case Coach => false
    case Reviewer => false
  }

  datatype Context = Context(id: string, identity: AgentIdentity, role: Role, scopes: seq<string>, programs: seq<Uuid>, authContext: string)

  function PrincipalOf(ctx: Context): Principal {
    Principal(ctx.id, Agent, ctx.scopes, ctx.programs, ctx.authContext)
  }

  datatype McpRequest =
    | SnapshotRequest
    | StatusRequest(command: Uuid)
    | SubmitRequest(commandId: Uuid, key: string, expected: nat, base: Uuid, change: Change)
    | ApplyRequest(proposal: Uuid, claimedVersion: int, key: string, decision: Option<Uuid>)

  datatype McpCall = McpCall(program: Uuid, ctx: Context, request: McpRequest, input: Inputs)

  datatype McpAnswer =
    | SnapshotView(program: Program, plan: Option<PlanVersion>, tasks: seq<TaskRow>)
    | StatusView(receipt: CommandReceipt)
    | Answer(result: CommandResult)
    | CallRefused(rejection: Rejection)
    | ProgramNotFound

  function MethodOf(q: McpRequest): McpMethod {
    match q
    case SnapshotRequest => GetSnapshot
    case StatusRequest(_) => GetCommandStatus
    case SubmitRequest(_, _, _, _, _) => Submit
    case ApplyRequest(_, _, _, _) => ApplyAuthorizedChange
  }

  /** Method matrix and Program scope, checked before anything is read. */
  function ContextRefusal(call: McpCall): Option<Rejection> {
    if !Allows(call.ctx.identity, MethodOf(call.request)) then Some(Rejection(PrincipalNotAllowed, MethodNotAllowed))
    else if call.program !in call.ctx.programs then Some(Rejection(ProgramScopeDenied, OutsideScope))
    else None
  }

  /** Persistent membership, checked against the rows. */
  function MemberRefusal(core: Core, ctx: Context): Option<Rejection> {
    if ctx.id !in core.members then Some(Rejection(ProgramScopeDenied, NotAMember))
    else if core.members[ctx.id].kind != Agent then Some(Rejection(PrincipalNotAllowed, MembershipMismatch))
    else if core.members[ctx.id].role != ctx.role then Some(Rejection(PrincipalNotAllowed, RoleNotAllowed))
    else None
  }

  function EnvelopeOf(call: McpCall): Envelope
    requires call.request.SubmitRequest?
  {
    var q := call.request;
    Envelope(q.commandId, q.key, call.program, PrincipalOf(call.ctx), Mcp, Command.SubmitProposal(q.expected, q.base, q.change))
  }

  /** The fixed answer to every apply: its identifier is derived from the request, nothing is delegated. */
  function ApplyRefused(call: McpCall): CommandResult
    requires call.request.ApplyRequest?
  {
    var q := call.request;
    RefusedResult(ApplyRefusalOf(call.program, q.proposal, q.claimedVersion, q.key, q.decision),
      Rejection(ReasonCode.ApprovalRequired, ApplyDisabled), None)
  }

  datatype McpOutcome = McpOutcome(db: Tables, answer: McpAnswer)

  ghost function McpStep(cfg: Config, db: Tables, call: McpCall): McpOutcome {
    var denied := ContextRefusal(call);
    if denied.Some? then McpOutcome(db, CallRefused(denied.value))
    else if call.request.ApplyRequest? then McpOutcome(db, Answer(ApplyRefused(call)))
    else if db.core.program.None? then McpOutcome(db, ProgramNotFound)
    else if MemberRefusal(db.core, call.ctx).Some? then McpOutcome(db, CallRefused(MemberRefusal(db.core, call.ctx).value))
    else
      match call.request
      case SnapshotRequest => McpOutcome(db, ViewOf(db.core))
      case StatusRequest(c) =>
        if c in db.log.receipts then McpOutcome(db, StatusView(db.log.receipts[c]))
        else McpOutcome(db, CallRefused(Rejection(NotFound, NoSuchObject)))
      case SubmitRequest(_, _, _, _, _) =>
        var o := Step(cfg, db, EnvelopeOf(call), call.input);
        McpOutcome(o.db, Answer(o.result))
  }

  function ViewOf(core: Core): McpAnswer
    requires core.program.Some?
  {
    var active := core.program.value.activePlan;
    SnapshotView(core.program.value,
      if active.Some? && active.value in core.plans then Some(core.plans[active.value]) else None,
      if active.Some? && active.value in core.tasks then core.tasks[active.value] else [])
  }

  class M4StateMcpAdapter {
    const tx: StateTransaction
    const cfg: Config

    constructor (tx: StateTransaction, cfg: Config)
      ensures this.tx == tx && this.cfg == cfg
    {
      this.tx, this.cfg := tx, cfg;
    }

    /** Method, scope and persistent role, re-checked for every call that reads or writes. */
    method Authorize(call: McpCall) returns (denied: Option<McpAnswer>)
      requires !call.request.ApplyRequest?
      ensures denied == if ContextRefusal(call).Some? then Some(CallRefused(ContextRefusal(call).value))
        else if tx.db.core.program.None? then Some(ProgramNotFound)
        else if MemberRefusal(tx.db.core, call.ctx).Some? then Some(CallRefused(MemberRefusal(tx.db.core, call.ctx).value))
        else None
    {
      var refusal := ContextRefusal(call);
      if refusal.Some? { return Some(CallRefused(refusal.value)); }
      if tx.db.core.program.None? { return Some(ProgramNotFound); }
      var member := MemberRefusal(tx.db.core, call.ctx);
      if member.Some? { return Some(CallRefused(member.value)); }
      return None;
    }

    method HandleRead(call: McpCall) returns (answer: McpAnswer)
      requires call.request.SnapshotRequest? || call.request.StatusRequest?
      ensures McpOutcome(tx.db, answer) == McpStep(cfg, tx.db, call)
    {
      var denied := Authorize(call);
      if denied.Some? { return denied.value; }
      if call.request.SnapshotRequest? { return ViewOf(tx.db.core); }
      if call.request.command !in tx.db.log.receipts { return CallRefused(Rejection(NotFound, NoSuchObject)); }
      return StatusView(tx.db.log.receipts[call.request.command]);
    }

    method SubmitProposal(call: McpCall) returns (answer: McpAnswer)
      requires call.request.SubmitRequest? && Inv(tx.db)
      modifies tx
      ensures McpOutcome(tx.db, answer) == McpStep(cfg, old(tx.db), call) && Inv(tx.db)
    {
      hide Inv, Step;
      var denied := Authorize(call);
      if denied.Some? { return denied.value; }
      var result := Dispatch(tx, cfg, EnvelopeOf(call), call.input);
      return Answer(result);
    }

    /** Validates the caller and refuses, without reading or writing the State Service. */
    method ApplyAuthorizedChange(call: McpCall) returns (answer: McpAnswer)
      requires call.request.ApplyRequest?
      ensures McpOutcome(tx.db, answer) == McpStep(cfg, tx.db, call)
      ensures answer.Answer? ==> answer.result.status == REJECTED
    {
      var refusal := ContextRefusal(call);
      if refusal.Some? { return CallRefused(refusal.value); }
      return Answer(ApplyRefused(call));
    }
  }

  // ---------- what an answer says ----------

  /** Who may ask for what. */
  predicate MayCall(identity: AgentIdentity, q: McpRequest) {
    match q
    case SnapshotRequest => identity == Manager
    case StatusRequest(_) => identity == Manager || identity == Architect
    case SubmitRequest(_, _, _, _, _) => identity == Architect
    case ApplyRequest(_, _, _, _) => identity == Manager
  }

  predicate IsAgentMember(core: Core, ctx: Context) {
    core.program.Some? && ctx.id in core.members && core.members[ctx.id] == Member(Agent, ctx.role)
  }

  /** A refused call, by the first thing that is missing. */
  predicate CallCannot(db: Tables, call: McpCall, r: Rejection) {
    var allowed := MayCall(call.ctx.identity, call.request);
    var scoped := allowed && call.program in call.ctx.programs;
    var asked := scoped && !call.request.ApplyRequest? && db.core.program.Some?;
    var known := asked && call.ctx.id in db.core.members;
    r.detail == NoDetail && (
      || (r.cause == MethodNotAllowed && r.code == PrincipalNotAllowed && !allowed)
      || (r.cause == OutsideScope && r.code == ProgramScopeDenied && allowed && !scoped)
      || (r.cause == NotAMember && r.code == ProgramScopeDenied && asked && !known)
      || (r.cause == MembershipMismatch && r.code == PrincipalNotAllowed && known && db.core.members[call.ctx.id].kind != Agent)
      || (r.cause == RoleNotAllowed && r.code == PrincipalNotAllowed && known && db.core.members[call.ctx.id].kind == Agent
          && db.core.members[call.ctx.id].role != call.ctx.role)
      || (r.cause == NoSuchObject && r.code == NotFound && scoped && IsAgentMember(db.core, call.ctx) && call.request.StatusRequest?
          && call.request.command !in db.log.receipts))
  }

  /** The active plan of the Program and its tasks. */
  predicate ViewShows(core: Core, program: Program, plan: Option<PlanVersion>, tasks: seq<TaskRow>) {
    && core.program == Some(program)
    && (match program.activePlan
        case Some(p) =>
          && plan == (if p in core.plans then Some(core.plans[p]) else None)
          && tasks == (if p in core.tasks then core.tasks[p] else [])
        case None => plan == None && tasks == [])
  }

  /** What an answer says about the call and the rows; only a submission may change them, as its own command would. */
  ghost predicate AnswerTells(cfg: Config, db: Tables, call: McpCall, o: McpOutcome) {
    var scoped := MayCall(call.ctx.identity, call.request) && call.program in call.ctx.programs;
    match o.answer
    case CallRefused(r) => o.db == db && CallCannot(db, call, r)
    case ProgramNotFound => o.db == db && scoped && !call.request.ApplyRequest? && db.core.program.None?
    case SnapshotView(program, plan, tasks) =>
      o.db == db && scoped && call.request.SnapshotRequest? && IsAgentMember(db.core, call.ctx) && ViewShows(db.core, program, plan, tasks)
    case StatusView(receipt) =>
      o.db == db && scoped && call.request.StatusRequest? && IsAgentMember(db.core, call.ctx)
      && call.request.command in db.log.receipts && receipt == db.log.receipts[call.request.command]
    case Answer(result) =>
      scoped && match call.request
      case ApplyRequest(proposal, version, key, decision) =>
        o.db == db && result == CommandResult(ApplyRefusalOf(call.program, proposal, version, key, decision), REJECTED,
          ReasonCode.ApprovalRequired, None, Refusal(Rejection(ReasonCode.ApprovalRequired, ApplyDisabled)), false)
      case SubmitRequest(id, key, expected, base, change) =>
        && IsAgentMember(db.core, call.ctx)
        && var agent := Principal(call.ctx.id, Agent, call.ctx.scopes, call.ctx.programs, call.ctx.authContext);
        Outcome(o.db, result) ==
          Step(cfg, db, Envelope(id, key, call.program, agent, Mcp, Command.SubmitProposal(expected, base, change)), call.input)
      case _ => false
  }

  lemma ViewIsShown(core: Core)
    requires core.program.Some?
    ensures ViewOf(core).SnapshotView? && ViewShows(core, ViewOf(core).program, ViewOf(core).plan, ViewOf(core).tasks)
  {
  }

  lemma ContextIsTold(db: Tables, call: McpCall)
    ensures ContextRefusal(call).None? <==> MayCall(call.ctx.identity, call.request) && call.program in call.ctx.programs
    ensures ContextRefusal(call).Some? ==> CallCannot(db, call, ContextRefusal(call).value)
  {
  }

  lemma MemberIsTold(db: Tables, call: McpCall)
    requires ContextRefusal(call).None? && !call.request.ApplyRequest? && db.core.program.Some?
    ensures MemberRefusal(db.core, call.ctx).None? <==> IsAgentMember(db.core, call.ctx)
    ensures MemberRefusal(db.core, call.ctx).Some? ==> CallCannot(db, call, MemberRefusal(db.core, call.ctx).value)
    ensures
      IsAgentMember(db.core, call.ctx) && call.request.StatusRequest? && call.request.command !in db.log.receipts ==>
        CallCannot(db, call, Rejection(NotFound, NoSuchObject))
  {
  }

  lemma GivenAnswerTells(cfg: Config, db: Tables, call: McpCall)
    ensures AnswerTells(cfg, db, call, McpStep(cfg, db, call))
  {
    hide Step, ViewShows, ViewOf, ContextRefusal, MemberRefusal, CallCannot, MayCall, IsAgentMember;
    ContextIsTold(db, call);
    if ContextRefusal(call).None? && !call.request.ApplyRequest? && db.core.program.Some? {
      MemberIsTold(db, call);
      ViewIsShown(db.core);
    }
  }

  lemma OneAnswerTells(cfg: Config, db: Tables, call: McpCall, a: McpOutcome, b: McpOutcome)
    requires AnswerTells(cfg, db, call, a) && AnswerTells(cfg, db, call, b)
    ensures a == b
  {
    hide Step;
  }

  /** Every answer of the adapter tells the truth, and each call has exactly one that does. */
  lemma AnswersTellTheTruth(cfg: Config, db: Tables, call: McpCall)
    ensures forall o :: AnswerTells(cfg, db, call, o) <==> o == McpStep(cfg, db, call)
  {
    hide AnswerTells, McpStep;
    GivenAnswerTells(cfg, db, call);
    forall o | AnswerTells(cfg, db, call, o) ensures o == McpStep(cfg, db, call) {
      OneAnswerTells(cfg, db, call, o, McpStep(cfg, db, call));
    }
  }

  // ---------- whatever Agents call, the plan stays ----------

  predicate SamePlans(c: Core, later: Core) {
    && later.plans == c.plans && later.tasks == c.tasks && later.decisions == c.decisions && later.members == c.members
    && (c.program.Some? ==> later.program.Some? && later.program.value.activePlan == c.program.value.activePlan)
    && (c.program.None? ==> later.program.None?)
  }

  lemma FilingKeepsPlans(cfg: Config, db: Tables, e: Envelope, input: Inputs)
    requires e.command.SubmitProposal? && db.core.program.Some? && SubmitMeaning(cfg, db, e, input).Perform?
    ensures
      var f := SubmitMeaning(cfg, db, e, input).effect;
      SamePlans(db.core, f.core) && f.ingest == db.ingest && f.budget == db.budget
  {
    hide ApplyChange, Contents;
  }

  lemma SubmittingKeepsPlans(cfg: Config, db: Tables, e: Envelope, input: Inputs)
    requires e.command.SubmitProposal?
    ensures
      var later := Step(cfg, db, e, input).db;
      SamePlans(db.core, later.core) && later.ingest == db.ingest && later.budget == db.budget
  {
    hide Step, SubmitMeaning, SamePlans;
    RowsAfterSubmitting(cfg, db, e, input);
    StaysTheSame(db.core);
    if db.core.program.Some? && SubmitMeaning(cfg, db, e, input).Perform? { FilingKeepsPlans(cfg, db, e, input); }
  }

  lemma StaysTheSame(c: Core)
    ensures SamePlans(c, c)
  {
  }

  lemma RowsAfterSubmitting(cfg: Config, db: Tables, e: Envelope, input: Inputs)
    requires e.command.SubmitProposal?
    ensures
      var later := Step(cfg, db, e, input).db;
      || later.(log := db.log) == db
      || (db.core.program.Some? && SubmitMeaning(cfg, db, e, input).Perform?
          && var f := SubmitMeaning(cfg, db, e, input).effect;
          later.core == f.core && later.ingest == f.ingest && later.budget == f.budget)
  {
    hide Admit, VersionRefusal, EventIds, OutboxIds, SubmitMeaning, KeyTaken;
  }

  ghost function McpRun(cfg: Config, db: Tables, calls: seq<McpCall>): Tables
    decreases |calls|
  {
    if calls == [] then db
    else McpStep(cfg, McpRun(cfg, db, calls[..|calls| - 1]), calls[|calls| - 1]).db
  }

  lemma McpStepKeepsPlans(cfg: Config, db: Tables, call: McpCall)
    ensures SamePlans(db.core, McpStep(cfg, db, call).db.core)
    ensures McpStep(cfg, db, call).db.ingest == db.ingest && McpStep(cfg, db, call).db.budget == db.budget
    ensures McpStep(cfg, db, call).db != db ==> call.ctx.identity == Architect && call.request.SubmitRequest?
  {
    hide Step;
    if call.request.SubmitRequest? { SubmittingKeepsPlans(cfg, db, EnvelopeOf(call), call.input); }
  }

  /** No run of MCP calls, by any identities, changes the active plan, adds a plan version or records
      a decision; without an Architect it changes nothing at all. */
  lemma {:induction false} AgentsNeverChangeThePlan(cfg: Config, db: Tables, calls: seq<McpCall>)
    ensures SamePlans(db.core, McpRun(cfg, db, calls).core)
    ensures McpRun(cfg, db, calls).ingest == db.ingest && McpRun(cfg, db, calls).budget == db.budget
    ensures (forall i :: 0 <= i < |calls| ==> calls[i].ctx.identity != Architect) ==> McpRun(cfg, db, calls) == db
    decreases |calls|
  {
    hide McpStep;
    if calls != [] {
      var front := calls[..|calls| - 1];
      AgentsNeverChangeThePlan(cfg, db, front);
      McpStepKeepsPlans(cfg, McpRun(cfg, db, front), calls[|calls| - 1]);
    }
  }
}
