/** What every reachable Program satisfies in its plans, proposals, approvals and decisions,
    and that each M2 command keeps it. */
module CoreInvariant {
  import opened Base
  import opened Plans
  import opened Tables
  import opened Spec

  type PlanMap = map<Uuid, PlanVersion>
  type ProposalMap = map<Uuid, Proposal>
  type ApprovalMap = map<Uuid, Approval>
  type DecisionMap = map<Uuid, Decision>

  /** Plan versions form one chain 1..n ending in the active plan. */
  ghost predicate History(active: Option<Uuid>, plans: PlanMap) {
    && active.Some? && active.value in plans
    && plans[active.value].versionNo == |plans|
    && (forall p :: p in plans ==> 1 <= plans[p].versionNo <= |plans|)
    && (forall p, q :: p in plans && q in plans && plans[p].versionNo == plans[q].versionNo ==> p == q)
    && (forall p :: p in plans ==> (plans[p].previous.None? <==> plans[p].versionNo == 1))
    && (forall p :: p in plans && plans[p].previous.Some? ==>
          plans[p].previous.value in plans && plans[plans[p].previous.value].versionNo + 1 == plans[p].versionNo)
  }

  /** Stored contents are well formed, and hashes and task rows agree with them. */
  ghost predicate Stored(plans: PlanMap, tasks: map<Uuid, seq<TaskRow>>) {
    && tasks.Keys == plans.Keys
    && (forall p :: p in plans ==> WellFormed(plans[p].content))
    && (forall p :: p in plans ==> plans[p].contentHash == Sha256OfPlan(plans[p].content))
    && (forall p :: p in plans ==> tasks[p] == TaskRows(plans[p].content))
  }

  /** A stored proposal still computes to the difference that was hashed at submission. */
  ghost predicate DiffHolds(plans: PlanMap, allowReorder: bool, p: Proposal) {
    && p.base in plans
    && ProposedContent(plans, p).Ok?
    && p.diff == DiffOf(plans, p.base, p.change, ProposedContent(plans, p).value)
    && p.diffHash == Sha256OfDiff(p.diff)
    && (p.risk == LowRisk || p.risk == HighRisk)
    && (p.risk == LowRisk <==> p.change.ReorderTasks? && allowReorder)
  }

  ghost predicate DiffsHold(plans: PlanMap, allowReorder: bool, proposals: ProposalMap) {
    forall x :: x in proposals ==> DiffHolds(plans, allowReorder, proposals[x])
  }

  function PairedStatus(s: ApprovalStatus): ProposalStatus {
    match s
    case ApprovalPending => AwaitingApproval
    case Approved => ProposalApproved
    case Denied => ProposalDenied
    case Expired => ProposalExpired
    case Consumed => Applied
  }

  predicate ApprovalBound(proposals: ProposalMap, a: Approval) {
    && a.proposal in proposals
    && proposals[a.proposal].risk == HighRisk
    && proposals[a.proposal].status == PairedStatus(a.status)
    && a.base == proposals[a.proposal].base
    && a.diffHash == proposals[a.proposal].diffHash
  }

  ghost predicate HasApproval(approvals: ApprovalMap, x: Uuid) {
    exists a :: a in approvals && approvals[a].proposal == x
  }

  /** One approval per high-risk proposal, none for a low-risk one, statuses in step. */
  ghost predicate ApprovalsPaired(proposals: ProposalMap, approvals: ApprovalMap) {
    && (forall a :: a in approvals ==> ApprovalBound(proposals, approvals[a]))
    && (forall a, b :: a in approvals && b in approvals && approvals[a].proposal == approvals[b].proposal ==> a == b)
    && (forall x :: x in proposals && proposals[x].risk == HighRisk ==> HasApproval(approvals, x))
    && (forall x :: x in proposals && proposals[x].risk == LowRisk ==>
          proposals[x].status == Pending || proposals[x].status == Applied)
  }

  predicate IsDecided(s: ApprovalStatus) { s == Approved || s == Denied || s == Consumed }

  predicate DecisionBound(approvals: ApprovalMap, members: map<string, Member>, d: Decision) {
    && d.approval in approvals
    && d.proposal == approvals[d.approval].proposal
    && d.base == approvals[d.approval].base
    && d.diffHash == approvals[d.approval].diffHash
    && d.expiresAt == approvals[d.approval].expiresAt
    && d.decidedAt < d.expiresAt
    && IsDecided(approvals[d.approval].status)
    && (d.verdict == Approve <==> approvals[d.approval].status != Denied)
    && d.decidedBy in members && members[d.decidedBy].role == Owner
  }

  ghost predicate HasDecision(decisions: DecisionMap, a: Uuid) {
    exists d :: d in decisions && decisions[d].approval == a
  }

  /** A decision exists, once, exactly for approved, denied and consumed approvals; an owner took it in time. */
  ghost predicate DecisionsPaired(approvals: ApprovalMap, members: map<string, Member>, decisions: DecisionMap) {
    && (forall d :: d in decisions ==> DecisionBound(approvals, members, decisions[d]))
    && (forall d, f :: d in decisions && f in decisions && decisions[d].approval == decisions[f].approval ==> d == f)
    && (forall a :: a in approvals && IsDecided(approvals[a].status) ==> HasDecision(decisions, a))
  }

  ghost predicate HasPlan(plans: PlanMap, x: Uuid) {
    exists p :: p in plans && plans[p].proposal == Some(x)
  }

  /** A version names what it restored, and the version it replaced, exactly when it is a restore. */
  predicate RestoreTold(p: PlanVersion, change: Change) {
    match change
    case RestorePlan(target) => p.restoredFrom == Some(target) && p.rolledBackFrom == p.previous
    case _ => p.restoredFrom.None? && p.rolledBackFrom.None?
  }

  /** A later plan version is the plan of the applied proposal it names, released by an approval when high-risk. */
  ghost predicate PlanTraced(plans: PlanMap, proposals: ProposalMap, decisions: DecisionMap, p: PlanVersion) {
    if p.previous.None? then
      p.risk == BootstrapRisk && p.proposal.None? && p.decision.None? && p.restoredFrom.None? && p.rolledBackFrom.None?
    else
      && p.proposal.Some? && p.proposal.value in proposals
      && var x := proposals[p.proposal.value];
      && x.status == Applied && RestoreTold(p, x.change)
      && Some(x.base) == p.previous && x.base in plans
      && p.risk == x.risk && p.diffHash == Some(x.diffHash)
      && ProposedContent(plans, x) == Ok(p.content)
      && (p.risk == HighRisk ==>
            && p.decision.Some? && p.decision.value in decisions
            && decisions[p.decision.value].verdict == Approve
            && decisions[p.decision.value].proposal == p.proposal.value)
      && (p.risk != HighRisk ==> p.risk == LowRisk && p.decision.None?)
  }

  ghost predicate Traced(plans: PlanMap, proposals: ProposalMap, decisions: DecisionMap) {
    && (forall p :: p in plans ==> PlanTraced(plans, proposals, decisions, plans[p]))
    && (forall x :: x in proposals && proposals[x].status == Applied ==> HasPlan(plans, x))
  }

  ghost predicate PlansKept(c: Core) {
    c.program.Some? && History(c.program.value.activePlan, c.plans) && Stored(c.plans, c.tasks)
  }

  ghost predicate DiffsKept(c: Core) {
    c.program.Some? && DiffsHold(c.plans, c.program.value.allowReorder, c.proposals)
  }

  ghost predicate PairingKept(c: Core) {
    && ApprovalsPaired(c.proposals, c.approvals)
    && DecisionsPaired(c.approvals, c.members, c.decisions)
  }

  ghost predicate CoreInv(c: Core) {
    if c.program.None? then c == EmptyTables.core
    else
      PlansKept(c) && DiffsKept(c) && PairingKept(c) && Traced(c.plans, c.proposals, c.decisions)
  }

  // ---------- create ----------

  lemma FirstPlanKeeps(id: Uuid, plan: PlanVersion)
    requires plan.versionNo == 1 && plan.previous.None? && plan.proposal.None? && plan.decision.None? && plan.risk == BootstrapRisk
    requires plan.restoredFrom.None? && plan.rolledBackFrom.None?
    requires WellFormed(plan.content) && plan.contentHash == Sha256OfPlan(plan.content)
    ensures History(Some(id), map[id := plan]) && Stored(map[id := plan], map[id := TaskRows(plan.content)])
    ensures Traced(map[id := plan], map[], map[])
  {
    hide WellFormed, TaskRows;
    assert |map[id := plan]| == 1;
  }

  lemma CreateKeeps(cfg: Config, db: Tables, e: Envelope, input: Inputs)
    requires CoreInv(db.core) && e.command.CreateProgram? && WellFormed(e.command.plan)
    requires CreateProgramMeaning(cfg, db, e, input).Perform?
    ensures CoreInv(CreateProgramMeaning(cfg, db, e, input).effect.core)
  {
    hide History, Stored, Traced, WellFormed, TaskRows, WithMembers;
    var c := CreateProgramMeaning(cfg, db, e, input).effect.core;
    FirstPlanKeeps(input.first, c.plans[input.first]);
    assert c.plans == map[input.first := c.plans[input.first]];
    assert c.tasks == map[input.first := TaskRows(c.plans[input.first].content)];
  }

  // ---------- submit ----------

  /** A new proposal, with its approval exactly when it is high-risk. */
  lemma NewProposalKeepsPairing(proposals: ProposalMap, approvals: ApprovalMap, x: Uuid, p: Proposal, a: Uuid,
          approval: Approval)
    requires ApprovalsPaired(proposals, approvals)
    requires x !in proposals
    requires p.risk == LowRisk ==> p.status == Pending
    requires p.risk == HighRisk ==> p.status == AwaitingApproval && a !in approvals
    requires approval.proposal == x && approval.status == ApprovalPending && approval.base == p.base && approval.diffHash == p.diffHash
    ensures ApprovalsPaired(proposals[x := p], if p.risk == HighRisk then approvals[a := approval] else approvals)
  {
    var proposals', approvals' := proposals[x := p], if p.risk == HighRisk then approvals[a := approval] else approvals;
    forall b | b in approvals' ensures ApprovalBound(proposals', approvals'[b]) {
      assert b in approvals ==> ApprovalBound(proposals, approvals[b]);
    }
    forall y | y in proposals' && proposals'[y].risk == HighRisk ensures HasApproval(approvals', y) {
      if y == x {
        assert approvals'[a].proposal == x;
      } else {
        assert HasApproval(approvals, y);
        var b :| b in approvals && approvals[b].proposal == y;
        assert approvals'[b].proposal == y;
      }
    }
  }

  lemma NewApprovalKeepsDecisions(approvals: ApprovalMap, members: map<string, Member>, decisions: DecisionMap,
          a: Uuid, approval: Approval)
    requires DecisionsPaired(approvals, members, decisions)
    requires a !in approvals && approval.status == ApprovalPending
    ensures DecisionsPaired(approvals[a := approval], members, decisions)
  {
    assert forall d :: d in decisions ==> DecisionBound(approvals, members, decisions[d]);
    assert forall b :: b in approvals && IsDecided(approvals[b].status) ==> HasDecision(decisions, b);
  }

  lemma NewProposalKeepsTracing(plans: PlanMap, proposals: ProposalMap, decisions: DecisionMap, x: Uuid, p: Proposal)
    requires Traced(plans, proposals, decisions)
    requires x !in proposals && p.status != Applied
    ensures Traced(plans, proposals[x := p], decisions)
  {
    var proposals' := proposals[x := p];
    forall q | q in plans ensures PlanTraced(plans, proposals', decisions, plans[q]) {
      assert PlanTraced(plans, proposals, decisions, plans[q]);
    }
  }

  lemma SubmitKeeps(cfg: Config, db: Tables, e: Envelope, input: Inputs)
    requires db.core.program.Some? && CoreInv(db.core) && e.command.SubmitProposal?
    requires SubmitMeaning(cfg, db, e, input).Perform?
    ensures CoreInv(SubmitMeaning(cfg, db, e, input).effect.core)
  {
    hide History, Stored, ApprovalsPaired, DecisionsPaired, Traced, ApplyChange;
    var c, n := db.core, SubmitMeaning(cfg, db, e, input).effect.core;
    var p := n.proposals[input.first];
    var approval := Approval(input.first, e.command.expected, p.base, p.diffHash, ApprovalPending, input.now + cfg.approvalTtl);
    NewProposalKeepsPairing(c.proposals, c.approvals, input.first, p, input.second, approval);
    if p.risk == HighRisk {
      NewApprovalKeepsDecisions(c.approvals, c.members, c.decisions, input.second, approval);
    }
    NewProposalKeepsTracing(c.plans, c.proposals, c.decisions, input.first, p);
    assert DiffHolds(c.plans, c.program.value.allowReorder, p);
  }

  // ---------- decide and expire: one approval and its proposal move together ----------

  lemma StatusIsNotPartOfTheDiff(plans: PlanMap, allow: bool, proposals: ProposalMap, x: Uuid, status: ProposalStatus)
    requires DiffsHold(plans, allow, proposals) && x in proposals
    ensures DiffsHold(plans, allow, proposals[x := proposals[x].(status := status)])
  {
    assert DiffHolds(plans, allow, proposals[x]);
    assert DiffHolds(plans, allow, proposals[x].(status := status));
  }

  lemma MoveKeepsPairing(proposals: ProposalMap, approvals: ApprovalMap, a: Uuid, status: ApprovalStatus)
    requires ApprovalsPaired(proposals, approvals) && a in approvals && approvals[a].proposal in proposals
    ensures
      var x := approvals[a].proposal;
      ApprovalsPaired(proposals[x := proposals[x].(status := PairedStatus(status))],
                      approvals[a := approvals[a].(status := status)])
  {
    var x := approvals[a].proposal;
    var proposals' := proposals[x := proposals[x].(status := PairedStatus(status))];
    var approvals' := approvals[a := approvals[a].(status := status)];
    assert ApprovalBound(proposals, approvals[a]);
    forall b | b in approvals' ensures ApprovalBound(proposals', approvals'[b]) {
      assert ApprovalBound(proposals, approvals[b]);
    }
    forall y | y in proposals' && proposals'[y].risk == HighRisk ensures HasApproval(approvals', y) {
      assert HasApproval(approvals, y);
      var b :| b in approvals && approvals[b].proposal == y;
      assert approvals'[b].proposal == y;
    }
  }

  lemma MoveKeepsTracing(plans: PlanMap, proposals: ProposalMap, decisions: DecisionMap, x: Uuid, status: ProposalStatus)
    requires Traced(plans, proposals, decisions) && x in proposals
    requires proposals[x].status != Applied && status != Applied
    ensures Traced(plans, proposals[x := proposals[x].(status := status)], decisions)
  {
    var proposals' := proposals[x := proposals[x].(status := status)];
    forall q | q in plans ensures PlanTraced(plans, proposals', decisions, plans[q]) {
      assert PlanTraced(plans, proposals, decisions, plans[q]);
    }
  }

  lemma NewDecisionKeepsTracing(plans: PlanMap, proposals: ProposalMap, decisions: DecisionMap, d: Uuid, decision: Decision)
    requires Traced(plans, proposals, decisions) && d !in decisions
    ensures Traced(plans, proposals, decisions[d := decision])
  {
    forall q | q in plans ensures PlanTraced(plans, proposals, decisions[d := decision], plans[q]) {
      assert PlanTraced(plans, proposals, decisions, plans[q]);
    }
  }

  lemma DecidingKeepsDecisions(approvals: ApprovalMap, members: map<string, Member>, decisions: DecisionMap,
                               a: Uuid, status: ApprovalStatus, d: Uuid, decision: Decision)
    requires DecisionsPaired(approvals, members, decisions)
    requires a in approvals && approvals[a].status == ApprovalPending && d !in decisions
    requires decision.approval == a
    requires DecisionBound(approvals[a := approvals[a].(status := status)], members, decision)
    ensures DecisionsPaired(approvals[a := approvals[a].(status := status)], members, decisions[d := decision])
  {
    var approvals', decisions' := approvals[a := approvals[a].(status := status)], decisions[d := decision];
    forall f | f in decisions' ensures DecisionBound(approvals', members, decisions'[f]) {
      assert f in decisions ==> DecisionBound(approvals, members, decisions[f]);
    }
    forall b | b in approvals' && IsDecided(approvals'[b].status) ensures HasDecision(decisions', b) {
      if b == a {
        assert decisions'[d].approval == b;
      } else {
        assert HasDecision(decisions, b);
        var f :| f in decisions && decisions[f].approval == b;
        assert decisions'[f].approval == b;
      }
    }
    forall f | f in decisions ensures decisions[f].approval != a {
      assert DecisionBound(approvals, members, decisions[f]);
    }
  }

  /** Expiring an undecided approval, or consuming an approved one, needs no new decision. */
  lemma MoveKeepsDecisions(approvals: ApprovalMap, members: map<string, Member>, decisions: DecisionMap, a: Uuid,
          status: ApprovalStatus)
    requires DecisionsPaired(approvals, members, decisions) && a in approvals
    requires (approvals[a].status == ApprovalPending && status == Expired) || (approvals[a].status == Approved && status == Consumed)
    ensures DecisionsPaired(approvals[a := approvals[a].(status := status)], members, decisions)
  {
    var approvals' := approvals[a := approvals[a].(status := status)];
    forall f | f in decisions ensures DecisionBound(approvals', members, decisions[f]) {
      assert DecisionBound(approvals, members, decisions[f]);
    }
    forall b | b in approvals' && IsDecided(approvals'[b].status) ensures HasDecision(decisions, b) {
      assert IsDecided(approvals[b].status);
    }
  }

  predicate IsOwner(c: Core, id: string) { id in c.members && c.members[id].role == Owner }

  lemma DecidePairs(cfg: Config, db: Tables, e: Envelope, input: Inputs)
    requires db.core.program.Some? && PairingKept(db.core) && e.command.RecordDecision? && IsOwner(db.core, e.principal.id)
    requires DecideMeaning(cfg, db, e, input).Perform?
    ensures PairingKept(DecideMeaning(cfg, db, e, input).effect.core)
  {
    hide ApprovalsPaired, DecisionsPaired;
    var c, n, a := db.core, DecideMeaning(cfg, db, e, input).effect.core, e.command.approval;
    var status := if e.command.verdict == Approve then Approved else Denied;
    MoveKeepsPairing(c.proposals, c.approvals, a, status);
    DecidingKeepsDecisions(c.approvals, c.members, c.decisions, a, status, input.first, n.decisions[input.first]);
  }

  lemma DecideKeeps(cfg: Config, db: Tables, e: Envelope, input: Inputs)
    requires db.core.program.Some? && CoreInv(db.core) && e.command.RecordDecision? && IsOwner(db.core, e.principal.id)
    requires DecideMeaning(cfg, db, e, input).Perform?
    ensures CoreInv(DecideMeaning(cfg, db, e, input).effect.core)
  {
    hide History, Stored, DiffsHold, DecisionsPaired, Traced;
    var c, n, a := db.core, DecideMeaning(cfg, db, e, input).effect.core, e.command.approval;
    var x := c.approvals[a].proposal;
    assert ApprovalBound(c.proposals, c.approvals[a]);
    hide ApprovalsPaired, ApprovalBound;
    DecidePairs(cfg, db, e, input);
    hide PairingKept;
    StatusIsNotPartOfTheDiff(c.plans, c.program.value.allowReorder, c.proposals, x, n.proposals[x].status);
    MoveKeepsTracing(c.plans, c.proposals, c.decisions, x, n.proposals[x].status);
    NewDecisionKeepsTracing(c.plans, n.proposals, c.decisions, input.first, n.decisions[input.first]);
  }

  lemma ExpireKeeps(cfg: Config, db: Tables, e: Envelope, input: Inputs)
    requires db.core.program.Some? && CoreInv(db.core) && e.command.ExpireApproval?
    requires ExpireMeaning(cfg, db, e, input).Perform?
    ensures CoreInv(ExpireMeaning(cfg, db, e, input).effect.core)
  {
    hide History, Stored, DiffsHold, DecisionsPaired, Traced;
    var c, a := db.core, e.command.approval;
    var x := c.approvals[a].proposal;
    assert ApprovalBound(c.proposals, c.approvals[a]);
    StatusIsNotPartOfTheDiff(c.plans, c.program.value.allowReorder, c.proposals, x, ProposalExpired);
    MoveKeepsPairing(c.proposals, c.approvals, a, Expired);
    MoveKeepsDecisions(c.approvals, c.members, c.decisions, a, Expired);
    MoveKeepsTracing(c.plans, c.proposals, c.decisions, x, ProposalExpired);
  }

  // ---------- apply ----------

  lemma ProposedContentIsStable(plans: PlanMap, later: PlanMap, p: Proposal)
    requires forall u :: u in plans ==> u in later && later[u] == plans[u]
    requires p.base in plans && ProposedContent(plans, p).Ok?
    ensures ProposedContent(later, p) == ProposedContent(plans, p)
  {
    ChangeIsStable(Contents(plans), Contents(later), plans[p.base].content, p.change);
  }

  lemma NewPlanKeepsHistory(active: Uuid, plans: PlanMap, id: Uuid, plan: PlanVersion)
    requires History(Some(active), plans) && id !in plans
    requires plan.previous == Some(active) && plan.versionNo == plans[active].versionNo + 1
    ensures History(Some(id), plans[id := plan])
  {
    OneMore(plans, id, plan);
    NewVersionIsUnique(plans, id, plan);
    NewVersionIsChained(active, plans, id, plan);
    hide *;
    PartsAreHistory(id, plans[id := plan]);
  }

  /** The parts of a history, put together. */
  lemma PartsAreHistory(active: Uuid, plans: PlanMap)
    requires active in plans && plans[active].versionNo == |plans| && forall p :: p in plans ==> 1 <= plans[p].versionNo <= |plans|
    requires forall p, q :: p in plans && q in plans && plans[p].versionNo == plans[q].versionNo ==> p == q
    requires IsChained(plans)
    ensures History(Some(active), plans)
  {
  }

  /** All but the first name a predecessor one version earlier. */
  ghost predicate IsChained(plans: PlanMap) {
    forall p :: p in plans ==>
      && (plans[p].previous.None? <==> plans[p].versionNo == 1)
      && (plans[p].previous.Some? ==>
            plans[p].previous.value in plans && plans[plans[p].previous.value].versionNo + 1 == plans[p].versionNo)
  }

  lemma NewVersionIsChained(active: Uuid, plans: PlanMap, id: Uuid, plan: PlanVersion)
    requires History(Some(active), plans) && id !in plans
    requires plan.previous == Some(active) && plan.versionNo == plans[active].versionNo + 1
    ensures IsChained(plans[id := plan])
  {
  }

  lemma NewVersionIsUnique(plans: PlanMap, id: Uuid, plan: PlanVersion)
    requires id !in plans && forall p :: p in plans ==> plans[p].versionNo < plan.versionNo
    requires forall p, q :: p in plans && q in plans && plans[p].versionNo == plans[q].versionNo ==> p == q
    ensures
      var later := plans[id := plan];
      forall p, q :: p in later && q in later && later[p].versionNo == later[q].versionNo ==> p == q
  {
  }

  lemma OneMore<V>(m: map<Uuid, V>, k: Uuid, v: V)
    requires k !in m
    ensures |m[k := v]| == |m| + 1
  {
    assert m[k := v].Keys == m.Keys + {k};
  }

  lemma NewPlanKeepsDiffs(plans: PlanMap, allow: bool, proposals: ProposalMap, id: Uuid, plan: PlanVersion)
    requires DiffsHold(plans, allow, proposals) && id !in plans
    ensures DiffsHold(plans[id := plan], allow, proposals)
  {
    forall x | x in proposals ensures DiffHolds(plans[id := plan], allow, proposals[x]) {
      assert DiffHolds(plans, allow, proposals[x]);
      ProposedContentIsStable(plans, plans[id := plan], proposals[x]);
    }
  }

  lemma NewPlanKeepsOldTraces(plans: PlanMap, proposals: ProposalMap, decisions: DecisionMap, id: Uuid,
          plan: PlanVersion, x: Uuid)
    requires Traced(plans, proposals, decisions) && id !in plans && x in proposals && proposals[x].status != Applied
    ensures forall q :: q in plans ==>
      PlanTraced(plans[id := plan], proposals[x := proposals[x].(status := Applied)], decisions, plans[q])
  {
    forall q | q in plans
      ensures PlanTraced(plans[id := plan], proposals[x := proposals[x].(status := Applied)], decisions, plans[q])
    {
      assert PlanTraced(plans, proposals, decisions, plans[q]);
      if plans[q].previous.Some? {
        ProposedContentIsStable(plans, plans[id := plan], proposals[plans[q].proposal.value]);
      }
    }
  }

  lemma NewPlanKeepsApplied(plans: PlanMap, proposals: ProposalMap, decisions: DecisionMap, id: Uuid,
          plan: PlanVersion, x: Uuid)
    requires Traced(plans, proposals, decisions) && id !in plans && x in proposals && plan.proposal == Some(x)
    ensures forall y :: y in proposals && (y == x || proposals[y].status == Applied) ==> HasPlan(plans[id := plan], y)
  {
    var plans' := plans[id := plan];
    forall y | y in proposals && (y == x || proposals[y].status == Applied) ensures HasPlan(plans', y) {
      if y == x {
        assert plans'[id].proposal == Some(x);
      } else {
        assert HasPlan(plans, y);
        var p :| p in plans && plans[p].proposal == Some(y);
        assert plans'[p].proposal == Some(y);
      }
    }
  }

  lemma AllTraced(plans: PlanMap, proposals: ProposalMap, decisions: DecisionMap, id: Uuid, plan: PlanVersion, x: Uuid)
    requires id !in plans && x in proposals
    requires forall q :: q in plans ==>
      PlanTraced(plans[id := plan], proposals[x := proposals[x].(status := Applied)], decisions, plans[q])
    requires PlanTraced(plans[id := plan], proposals[x := proposals[x].(status := Applied)], decisions, plan)
    requires forall y :: y in proposals && (y == x || proposals[y].status == Applied) ==> HasPlan(plans[id := plan], y)
    ensures Traced(plans[id := plan], proposals[x := proposals[x].(status := Applied)], decisions)
  {
    hide PlanTraced, HasPlan;
  }

  lemma NewPlanIsStored(plans: PlanMap, tasks: map<Uuid, seq<TaskRow>>, id: Uuid, plan: PlanVersion)
    requires Stored(plans, tasks) && WellFormed(plan.content) && plan.contentHash == Sha256OfPlan(plan.content)
    ensures Stored(plans[id := plan], tasks[id := TaskRows(plan.content)])
  {
  }

  lemma ProposedContentIsWellFormed(plans: PlanMap, tasks: map<Uuid, seq<TaskRow>>, p: Proposal)
    requires Stored(plans, tasks) && p.base in plans && ProposedContent(plans, p).Ok?
    ensures WellFormed(ProposedContent(plans, p).value)
  {
    ChangeKeepsWellFormed(Contents(plans), plans[p.base].content, p.change);
  }

  /** The released proposal is the one its approval was given for. */
  lemma ReleasedApproval(c: Core, x: Uuid, decision: Option<Uuid>, now: int)
    requires CoreInv(c) && c.program.Some? && x in c.proposals && c.proposals[x].risk == HighRisk
    requires DecisionRefusal(c, x, decision, now).None?
    ensures
      var a := c.decisions[decision.value].approval;
      a in c.approvals && c.approvals[a].proposal == x && c.approvals[a].status == Approved
      && c.proposals[x].status == ProposalApproved
  {
    hide History, Stored, DiffsHold, Traced;
    var d := c.decisions[decision.value];
    assert DecisionBound(c.approvals, c.members, d);
    assert ApprovalBound(c.proposals, c.approvals[d.approval]);
  }

  lemma ApplyKeepsPlans(cfg: Config, db: Tables, e: Envelope, input: Inputs)
    requires db.core.program.Some? && CoreInv(db.core) && e.command.ApplyProposal?
    requires ApplyMeaning(cfg, db, e, input).Perform?
    ensures PlansKept(ApplyMeaning(cfg, db, e, input).effect.core)
  {
    hide History, Stored, DiffsHold, ApprovalsPaired, DecisionsPaired, Traced, ApplyChange, WellFormed, DecisionRefusal;
    var c, n, x := db.core, ApplyMeaning(cfg, db, e, input).effect.core, e.command.proposal;
    var p, plan := c.proposals[x], n.plans[input.first];
    NewPlanKeepsHistory(p.base, c.plans, input.first, plan);
    ProposedContentIsWellFormed(c.plans, c.tasks, p);
    NewPlanIsStored(c.plans, c.tasks, input.first, plan);
  }

  lemma ApplyKeepsDiffs(cfg: Config, db: Tables, e: Envelope, input: Inputs)
    requires db.core.program.Some? && CoreInv(db.core) && e.command.ApplyProposal?
    requires ApplyMeaning(cfg, db, e, input).Perform?
    ensures DiffsKept(ApplyMeaning(cfg, db, e, input).effect.core)
  {
    hide History, Stored, DiffsHold, ApprovalsPaired, DecisionsPaired, Traced, ApplyChange, WellFormed, DecisionRefusal;
    var c, n, x := db.core, ApplyMeaning(cfg, db, e, input).effect.core, e.command.proposal;
    NewPlanKeepsDiffs(c.plans, c.program.value.allowReorder, c.proposals, input.first, n.plans[input.first]);
    StatusIsNotPartOfTheDiff(n.plans, c.program.value.allowReorder, c.proposals, x, Applied);
  }

  /** What an apply releases, and on which base. */
  lemma AppliedIsReleased(core: Core, c: Command, now: int)
    requires c.ApplyProposal? && core.program.Some? && ApplyRefusal(core, c, now).None?
    ensures c.proposal in core.proposals && core.proposals[c.proposal].status != Applied
    ensures core.proposals[c.proposal].risk == HighRisk ==>
      && c.decision.Some? && c.decision.value in core.decisions
      && core.decisions[c.decision.value].verdict == Approve && core.decisions[c.decision.value].proposal == c.proposal
  {
  }

  /** The new version is traced to the proposal it was made from. */
  lemma NewVersionIsTraced(cfg: Config, db: Tables, e: Envelope, input: Inputs)
    requires db.core.program.Some? && e.command.ApplyProposal? && ApplyMeaning(cfg, db, e, input).Perform?
    requires DiffsKept(db.core)
    ensures
      var n, x := ApplyMeaning(cfg, db, e, input).effect.core, e.command.proposal;
      && input.first !in db.core.plans && x in db.core.proposals && db.core.proposals[x].status != Applied
      && input.first in n.plans && n.plans == db.core.plans[input.first := n.plans[input.first]]
      && n.proposals == db.core.proposals[x := db.core.proposals[x].(status := Applied)]
      && n.decisions == db.core.decisions && n.plans[input.first].proposal == Some(x)
      && PlanTraced(n.plans, n.proposals, n.decisions, n.plans[input.first])
  {
    hide ApplyChange, TaskRows, RestoreTold, WellFormed, ApplyRefusal, DiffHolds, ReleasedBy;
    var c, n, x := db.core, ApplyMeaning(cfg, db, e, input).effect.core, e.command.proposal;
    AppliedIsReleased(c, e.command, input.now);
    var p, plan := c.proposals[x], n.plans[input.first];
    ProposalComputes(c, x);
    hide DiffsKept;
    ProposedContentIsStable(c.plans, n.plans, p);
    RestoreIsTold(c, x, p, e.command.decision, plan.content, e.principal.id);
  }

  lemma ProposalComputes(c: Core, x: Uuid)
    requires DiffsKept(c) && x in c.proposals
    ensures c.proposals[x].base in c.plans && ProposedContent(c.plans, c.proposals[x]).Ok?
    ensures c.proposals[x].risk == LowRisk || c.proposals[x].risk == HighRisk
  {
    hide ProposedContent;
    assert DiffHolds(c.plans, c.program.value.allowReorder, c.proposals[x]);
  }

  lemma RestoreIsTold(c: Core, id: Uuid, p: Proposal, decision: Option<Uuid>, content: Plan, author: string)
    requires p.base in c.plans
    ensures RestoreTold(NewPlanVersion(c, id, p, decision, content, author), p.change)
  {
  }

  lemma ApplyKeepsTracing(cfg: Config, db: Tables, e: Envelope, input: Inputs)
    requires db.core.program.Some? && CoreInv(db.core) && e.command.ApplyProposal?
    requires ApplyMeaning(cfg, db, e, input).Perform?
    ensures var n := ApplyMeaning(cfg, db, e, input).effect.core; Traced(n.plans, n.proposals, n.decisions)
  {
    NewVersionIsTraced(cfg, db, e, input);
    hide PlansKept, DiffsKept, PairingKept, Traced, PlanTraced, HasPlan, ApplyMeaning;
    var c, n, x := db.core, ApplyMeaning(cfg, db, e, input).effect.core, e.command.proposal;
    var plan := n.plans[input.first];
    NewPlanKeepsOldTraces(c.plans, c.proposals, c.decisions, input.first, plan, x);
    NewPlanKeepsApplied(c.plans, c.proposals, c.decisions, input.first, plan, x);
    AllTraced(c.plans, c.proposals, n.decisions, input.first, plan, x);
  }

  lemma ApplyKeeps(cfg: Config, db: Tables, e: Envelope, input: Inputs)
    requires db.core.program.Some? && CoreInv(db.core) && e.command.ApplyProposal?
    requires ApplyMeaning(cfg, db, e, input).Perform?
    ensures CoreInv(ApplyMeaning(cfg, db, e, input).effect.core)
  {
    hide History, Stored, ApprovalsPaired, DecisionsPaired, Traced, ApplyChange;
    var c, x := db.core, e.command.proposal;
    ApplyKeepsPlans(cfg, db, e, input);
    ApplyKeepsDiffs(cfg, db, e, input);
    ApplyKeepsTracing(cfg, db, e, input);
    assert DiffHolds(c.plans, c.program.value.allowReorder, c.proposals[x]);
    if c.proposals[x].risk == HighRisk {
      ReleasedApproval(c, x, e.command.decision, input.now);
      var a := c.decisions[e.command.decision.value].approval;
      MoveKeepsPairing(c.proposals, c.approvals, a, Consumed);
      MoveKeepsDecisions(c.approvals, c.members, c.decisions, a, Consumed);
    } else {
      LowRiskApplies(c.proposals, c.approvals, x);
    }
  }

  lemma LowRiskApplies(proposals: ProposalMap, approvals: ApprovalMap, x: Uuid)
    requires ApprovalsPaired(proposals, approvals) && x in proposals && proposals[x].risk == LowRisk
    ensures ApprovalsPaired(proposals[x := proposals[x].(status := Applied)], approvals)
  {
    var proposals' := proposals[x := proposals[x].(status := Applied)];
    forall a | a in approvals ensures ApprovalBound(proposals', approvals[a]) {
      assert ApprovalBound(proposals, approvals[a]);
    }
    forall y | y in proposals' && proposals'[y].risk == HighRisk ensures HasApproval(approvals, y) {
      assert proposals[y].risk == HighRisk;
    }
  }
}
