/** Plan versions over whole runs: one chain, and what was approved is what was applied. */
module PlanHistory {
  import opened Base
  import opened Plans
  import opened Tables
  import opened Spec
  import opened CoreInvariant
  import opened Invariant
  import opened Growth
  import M2Service

  // ---------- one linear history ----------

  /** The versions from the first one up to `p`, oldest first. */
  ghost function Chain(active: Option<Uuid>, plans: PlanMap, p: Uuid): (chain: seq<Uuid>)
    requires History(active, plans) && p in plans
    ensures |chain| == plans[p].versionNo && chain[|chain| - 1] == p
    ensures forall i :: 0 <= i < |chain| ==> chain[i] in plans && plans[chain[i]].versionNo == i + 1
    ensures forall i :: 0 < i < |chain| ==> plans[chain[i]].previous == Some(chain[i - 1])
    decreases plans[p].versionNo
  {
    if plans[p].previous.None? then [p] else Chain(active, plans, plans[p].previous.value) + [p]
  }

  /** `chain` is the whole history: versions 1..n without a gap, each naming its predecessor. */
  ghost predicate WholeHistory(c: Core, chain: seq<Uuid>) {
    && c.program.Some? && chain != [] && Elements(chain) == c.plans.Keys && Distinct(chain)
    && (forall i :: 0 <= i < |chain| ==> c.plans[chain[i]].versionNo == i + 1)
    && c.plans[chain[0]].previous.None?
    && (forall i :: 0 < i < |chain| ==> c.plans[chain[i]].previous == Some(chain[i - 1]))
    && c.program.value.activePlan == Some(chain[|chain| - 1])
  }

  lemma ChainCoversAll(active: Option<Uuid>, plans: PlanMap, p: Uuid)
    requires History(active, plans) && active.Some? && p in plans
    ensures p in Chain(active, plans, active.value)
  {
    var chain := Chain(active, plans, active.value);
    assert plans[chain[plans[p].versionNo - 1]].versionNo == plans[p].versionNo;
  }

  /** In every reachable Program the plan versions form one gap-free chain that ends in the active plan. */
  lemma {:induction false} HistoryIsLinear(cfg: Config, calls: seq<Call>) returns (chain: seq<Uuid>)
    ensures
      var c := Run(cfg, EmptyTables, calls).core;
      c.program.Some? ==> WholeHistory(c, chain)
  {
    var c := Run(cfg, EmptyTables, calls).core;
    ReachableCore(cfg, calls);
    hide Run;
    if c.program.None? { return []; }
    chain := ChainOf(c);
  }

  lemma {:induction false} ReachableCore(cfg: Config, calls: seq<Call>)
    ensures CoreInv(Run(cfg, EmptyTables, calls).core)
  {
    EmptyInv();
    RunKeeps(cfg, EmptyTables, calls);
    hide Run, CoreInv;
  }

  lemma ChainIsDistinct(active: Option<Uuid>, plans: PlanMap, p: Uuid)
    requires History(active, plans) && p in plans
    ensures Distinct(Chain(active, plans, p))
  {
    var chain := Chain(active, plans, p);
    forall i, j | 0 <= i < j < |chain| ensures chain[i] != chain[j] {
      assert plans[chain[i]].versionNo == i + 1 && plans[chain[j]].versionNo == j + 1;
    }
  }

  lemma ChainElements(active: Option<Uuid>, plans: PlanMap)
    requires History(active, plans)
    ensures active.Some? && Elements(Chain(active, plans, active.value)) == plans.Keys
  {
    var chain := Chain(active, plans, active.value);
    forall p | p in plans ensures p in chain { ChainCoversAll(active, plans, p); }
    assert forall i :: 0 <= i < |chain| ==> chain[i] in plans;
  }

  lemma ChainOf(c: Core) returns (chain: seq<Uuid>)
    requires c.program.Some? && CoreInv(c)
    ensures WholeHistory(c, chain)
  {
    hide History, Stored, DiffsKept, PairingKept, Traced, Distinct, Elements;
    var active, plans := c.program.value.activePlan, c.plans;
    ChainElements(active, plans);
    chain := Chain(active, plans, active.value);
    ChainIsDistinct(active, plans, active.value);
    FirstHasNoPrevious(active, plans, chain[0]);
  }

  lemma FirstHasNoPrevious(active: Option<Uuid>, plans: PlanMap, p: Uuid)
    requires History(active, plans) && p in plans && plans[p].versionNo == 1
    ensures plans[p].previous.None?
  {
  }

  /** Every stored version, whichever of the six changes made it, has unique task keys and orders,
      and its task rows and hash are those of its content. */
  lemma {:induction false} ReachablePlansAreWellFormed(cfg: Config, calls: seq<Call>)
    ensures
      var c := Run(cfg, EmptyTables, calls).core;
      Stored(c.plans, c.tasks)
  {
    ReachableCore(cfg, calls);
    hide Run, History, DiffsKept, PairingKept, Traced, WellFormed, TaskRows;
  }

  /** Contents, hashes and task rows of a stored version never change again. */
  lemma {:induction false} StoredVersionsNeverChange(cfg: Config, db: Tables, calls: seq<Call>)
    requires Inv(db)
    ensures Extends(db.core.plans, Run(cfg, db, calls).core.plans)
    ensures Extends(db.core.tasks, Run(cfg, db, calls).core.tasks)
  {
    RunGrows(cfg, db, calls);
    hide Run, Inv;
  }

  /** Two proposals applied on the same base are the same proposal. */
  lemma OneAppliedProposalPerBase(c: Core, x: Uuid, y: Uuid)
    requires c.program.Some? && CoreInv(c)
    requires x in c.proposals && y in c.proposals && c.proposals[x].status == Applied && c.proposals[y].status == Applied
    requires c.proposals[x].base == c.proposals[y].base
    ensures x == y
  {
    hide Stored, DiffsKept, PairingKept, ProposedContent;
    var p := PlanOfProposal(c, x);
    var q := PlanOfProposal(c, y);
    assert c.plans[p].versionNo == c.plans[q].versionNo;
  }

  lemma PlanOfProposal(c: Core, x: Uuid) returns (p: Uuid)
    requires c.program.Some? && CoreInv(c) && x in c.proposals && c.proposals[x].status == Applied
    ensures p in c.plans && c.plans[p].proposal == Some(x) && c.plans[p].previous == Some(c.proposals[x].base)
  {
    hide PlansKept, DiffsKept, PairingKept, ProposedContent;
    assert HasPlan(c.plans, x);
    p :| p in c.plans && c.plans[p].proposal == Some(x);
    assert PlanTraced(c.plans, c.proposals, c.decisions, c.plans[p]);
  }

  // ---------- every version is its change ----------

  /** What a stored version is to its predecessor: the plan that the change of its proposal asks for. A version
      names a restored version exactly when the change is a restore, and then its content is that version's. */
  ghost predicate ChangeTold(c: Core, p: PlanVersion) {
    if p.previous.None? then p.restoredFrom.None? && p.rolledBackFrom.None?
    else
      && p.previous.value in c.plans && p.proposal.Some? && p.proposal.value in c.proposals
      && var change := c.proposals[p.proposal.value].change;
      && Describes(Contents(c.plans), c.plans[p.previous.value].content, change, p.content)
      && (p.restoredFrom.Some? <==> change.RestorePlan?) && (p.rolledBackFrom.Some? <==> change.RestorePlan?)
      && (p.restoredFrom.Some? ==>
            && change == RestorePlan(p.restoredFrom.value) && p.rolledBackFrom == p.previous
            && p.restoredFrom.value in c.plans && p.content == c.plans[p.restoredFrom.value].content)
  }

  lemma VersionIsItsChange(c: Core, p: Uuid)
    requires c.program.Some? && CoreInv(c) && p in c.plans
    ensures ChangeTold(c, c.plans[p])
  {
    hide History, DiffsKept, PairingKept, ApplyChange, Describes;
    var plan := c.plans[p];
    assert PlanTraced(c.plans, c.proposals, c.decisions, plan);
    if plan.previous.Some? {
      var x := c.proposals[plan.proposal.value];
      assert WellFormed(c.plans[x.base].content);
      ChangesAreDescribed(Contents(c.plans), c.plans[x.base].content, x.change);
      assert Describes(Contents(c.plans), c.plans[x.base].content, x.change, plan.content);
      if x.change.RestorePlan? { DescribedRestore(Contents(c.plans), c.plans[x.base].content, x.change, plan.content); }
    }
  }

  lemma DescribedRestore(stored: map<Uuid, Plan>, base: Plan, change: Change, result: Plan)
    requires change.RestorePlan? && Describes(stored, base, change, result)
    ensures change.target in stored && result == stored[change.target]
  {
  }

  /** Over a whole run: every version is what its change asks for, field by field, against its predecessor. */
  lemma {:induction false} VersionsAreTheirChanges(cfg: Config, calls: seq<Call>)
    ensures
      var c := Run(cfg, EmptyTables, calls).core;
      forall p :: p in c.plans ==> ChangeTold(c, c.plans[p])
  {
    var c := Run(cfg, EmptyTables, calls).core;
    ReachableCore(cfg, calls);
    hide Run, CoreInv, ChangeTold;
    forall p | p in c.plans ensures ChangeTold(c, c.plans[p]) {
      ProgramExists(c, p);
      VersionIsItsChange(c, p);
    }
  }

  // ---------- approvals ----------

  /** Everything the state says about one high-risk proposal. */
  ghost predicate ApprovalStory(c: Core, x: Uuid, a: Uuid) {
    && x in c.proposals && a in c.approvals && c.approvals[a].proposal == x
    && (forall b :: b in c.approvals && c.approvals[b].proposal == x ==> b == a)
    && c.proposals[x].status == PairedStatus(c.approvals[a].status)
    && (HasDecision(c.decisions, a) <==> IsDecided(c.approvals[a].status))
    && (forall d, f :: d in c.decisions && f in c.decisions && c.decisions[d].approval == a && c.decisions[f].approval == a ==> d == f)
  }

  /** Every high-risk proposal has exactly one approval, in step with it, decided exactly when it is
      approved, denied or consumed, and then once. A low-risk one has none and is pending or applied. */
  lemma ApprovalsAreCoupled(c: Core, x: Uuid) returns (a: Uuid)
    requires c.program.Some? && CoreInv(c) && x in c.proposals
    ensures c.proposals[x].risk == HighRisk || c.proposals[x].risk == LowRisk
    ensures c.proposals[x].risk == LowRisk <==> c.proposals[x].change.ReorderTasks? && c.program.value.allowReorder
    ensures c.proposals[x].risk == HighRisk ==> ApprovalStory(c, x, a)
    ensures c.proposals[x].risk == LowRisk ==>
      && !HasApproval(c.approvals, x)
      && (c.proposals[x].status == Pending || c.proposals[x].status == Applied)
  {
    hide CoreInv, HasDecision, HasApproval;
    M2Service.RecomputationAgrees(c, x);
    Pairing(c);
    hide PairingKept;
    a := x;
    if c.proposals[x].risk == HighRisk {
      a := TheApproval(c.proposals, c.approvals, x);
      DecidedOnce(c, a);
    } else {
      NoApproval(c.proposals, c.approvals, x);
    }
  }

  lemma Pairing(c: Core)
    requires c.program.Some? && CoreInv(c)
    ensures ApprovalsPaired(c.proposals, c.approvals) && DecisionsPaired(c.approvals, c.members, c.decisions)
  {
    hide ApprovalsPaired, DecisionsPaired, PlansKept, DiffsKept, Traced;
  }

  lemma TheApproval(proposals: ProposalMap, approvals: ApprovalMap, x: Uuid) returns (a: Uuid)
    requires ApprovalsPaired(proposals, approvals) && x in proposals && proposals[x].risk == HighRisk
    ensures a in approvals && approvals[a].proposal == x && proposals[x].status == PairedStatus(approvals[a].status)
    ensures forall b :: b in approvals && approvals[b].proposal == x ==> b == a
  {
    assert HasApproval(approvals, x);
    a :| a in approvals && approvals[a].proposal == x;
    assert ApprovalBound(proposals, approvals[a]);
  }

  lemma NoApproval(proposals: ProposalMap, approvals: ApprovalMap, x: Uuid)
    requires ApprovalsPaired(proposals, approvals) && x in proposals && proposals[x].risk == LowRisk
    ensures !HasApproval(approvals, x) && (proposals[x].status == Pending || proposals[x].status == Applied)
  {
    forall b | b in approvals ensures approvals[b].proposal != x {
      assert ApprovalBound(proposals, approvals[b]);
    }
  }

  lemma DecidedOnce(c: Core, a: Uuid)
    requires DecisionsPaired(c.approvals, c.members, c.decisions) && a in c.approvals
    ensures HasDecision(c.decisions, a) <==> IsDecided(c.approvals[a].status)
    ensures forall d, f :: d in c.decisions && f in c.decisions && c.decisions[d].approval == a && c.decisions[f].approval == a ==> d == f
  {
    if HasDecision(c.decisions, a) {
      var d :| d in c.decisions && c.decisions[d].approval == a;
      assert DecisionBound(c.approvals, c.members, c.decisions[d]);
    }
  }

  // ---------- what was approved is what is applied ----------

  /** An owner approved, in time, exactly the difference that this plan version makes to its base. */
  ghost predicate Authorised(c: Core, p: PlanVersion) {
    && p.proposal.Some? && p.proposal.value in c.proposals && p.decision.Some? && p.decision.value in c.decisions
    && var x, d := c.proposals[p.proposal.value], c.decisions[p.decision.value];
    && d.verdict == Approve && d.proposal == p.proposal.value && d.decidedAt < d.expiresAt
    && IsOwner(c, d.decidedBy)
    && Some(d.base) == p.previous && Some(d.diffHash) == p.diffHash
    && d.approval in c.approvals && c.approvals[d.approval].status == Consumed
    && d.base == x.base && x.base in c.plans && Describes(Contents(c.plans), c.plans[x.base].content, x.change, p.content)
    && d.diffHash == Sha256OfDiff(DiffOf(c.plans, d.base, x.change, p.content))
  }

  lemma HighRiskVersionsAreAuthorised(c: Core, p: Uuid)
    requires c.program.Some? && CoreInv(c) && p in c.plans && c.plans[p].risk == HighRisk
    ensures Authorised(c, c.plans[p])
  {
    var plan := c.plans[p];
    VersionIsItsChange(c, p);
    hide PlansKept, ProposedContent, Describes;
    assert PlanTraced(c.plans, c.proposals, c.decisions, plan);
    hide Traced;
    assert DecisionBound(c.approvals, c.members, c.decisions[plan.decision.value]);
    assert ApprovalBound(c.proposals, c.approvals[c.decisions[plan.decision.value].approval]);
    assert DiffHolds(c.plans, c.program.value.allowReorder, c.proposals[plan.proposal.value]);
  }

  predicate SharedDecision(c: Core, p: Uuid, q: Uuid)
    requires p in c.plans && q in c.plans
  {
    c.plans[p].risk == HighRisk && c.plans[q].risk == HighRisk && c.plans[p].decision == c.plans[q].decision
  }

  /** A decision releases one plan version only. */
  lemma DecisionsAreNotShared(c: Core, p: Uuid, q: Uuid)
    requires c.program.Some? && CoreInv(c) && p in c.plans && q in c.plans && SharedDecision(c, p, q)
    ensures p == q
  {
    hide Stored, DiffsKept, PairingKept, ProposedContent;
    assert PlanTraced(c.plans, c.proposals, c.decisions, c.plans[p]);
    assert PlanTraced(c.plans, c.proposals, c.decisions, c.plans[q]);
    assert c.plans[p].versionNo == c.plans[q].versionNo;
  }

  /** Over a whole run: every high-risk version is authorised by a decision of its own. */
  lemma {:induction false} WhatWasApprovedIsApplied(cfg: Config, calls: seq<Call>)
    ensures
      var c := Run(cfg, EmptyTables, calls).core;
      && (forall p :: p in c.plans && c.plans[p].risk == HighRisk ==> Authorised(c, c.plans[p]))
      && (forall p, q :: p in c.plans && q in c.plans && SharedDecision(c, p, q) ==> p == q)
  {
    var c := Run(cfg, EmptyTables, calls).core;
    ReachableCore(cfg, calls);
    hide Run, CoreInv, Authorised;
    forall p | p in c.plans && c.plans[p].risk == HighRisk ensures Authorised(c, c.plans[p]) {
      ProgramExists(c, p);
      HighRiskVersionsAreAuthorised(c, p);
    }
    forall p, q | p in c.plans && q in c.plans && SharedDecision(c, p, q) ensures p == q {
      ProgramExists(c, p);
      DecisionsAreNotShared(c, p, q);
    }
  }

  lemma ProgramExists(c: Core, p: Uuid)
    requires CoreInv(c) && p in c.plans
    ensures c.program.Some?
  {
  }

  /** The release is used before it expires: a high-risk apply that commits reads a clock before the
      decision's expiry. */
  lemma AppliedBeforeExpiry(cfg: Config, db: Tables, e: Envelope, input: Inputs)
    requires Inv(db) && e.command.ApplyProposal?
    requires Step(cfg, db, e, input).result.status == COMMITTED && !Step(cfg, db, e, input).result.replayed
    ensures
      var c := Step(cfg, db, e, input).db.core;
      && input.first in c.plans && input.first !in db.core.plans
      && c.plans[input.first].proposal == Some(e.command.proposal)
      && (c.plans[input.first].risk == HighRisk ==>
            && c.plans[input.first].decision.Some? && c.plans[input.first].decision.value in db.core.decisions
            && input.now < db.core.decisions[c.plans[input.first].decision.value].expiresAt)
  {
    hide Inv, Admit, VersionRefusal, EventIds, OutboxIds, ProposedContent;
  }

  /** The content of a plan version is the one computed when its proposal was filed, however many
      commands ran in between; so "proposal diff mismatch" is never the answer. */
  lemma {:induction false} AppliedContentIsTheSubmittedOne(cfg: Config, db: Tables, e: Envelope, input: Inputs,
          between: seq<Call>, p: Uuid)
    requires Inv(db) && e.command.SubmitProposal?
    requires Step(cfg, db, e, input).result.status == COMMITTED && !Step(cfg, db, e, input).result.replayed
    requires
      var later := Run(cfg, Step(cfg, db, e, input).db, between).core;
      p in later.plans && later.plans[p].proposal == Some(input.first)
    ensures
      var later := Run(cfg, Step(cfg, db, e, input).db, between).core;
      && e.command.base in db.core.plans && later.plans[p].previous == Some(e.command.base)
      && Describes(Contents(db.core.plans), db.core.plans[e.command.base].content, e.command.change, later.plans[p].content)
      && ApplyChange(Contents(db.core.plans), db.core.plans[e.command.base].content, e.command.change) == Ok(later.plans[p].content)
      && RestoreTold(later.plans[p], e.command.change)
  {
    var filed := Step(cfg, db, e, input).db;
    var later := Run(cfg, filed, between);
    FiledProposal(cfg, db, e, input);
    StepKeeps(cfg, db, e, input);
    RunGrows(cfg, filed, between);
    RunKeeps(cfg, filed, between);
    hide Run, Step, RestoreTold;
    FiledStays(filed, later, input.first, p);
    ChangeIsStable(Contents(db.core.plans), Contents(later.core.plans), db.core.plans[e.command.base].content, e.command.change);
    KeysOfVersion(db, e.command.base);
    hide Inv, ApplyChange, Describes, Grows;
    ChangesAreDescribed(Contents(db.core.plans), db.core.plans[e.command.base].content, e.command.change);
  }

  lemma KeysOfVersion(db: Tables, p: Uuid)
    requires Inv(db) && p in db.core.plans
    ensures UniqueKeys(db.core.plans[p].content.tasks)
  {
    hide History, DiffsKept, PairingKept, Traced, IngestInvariant.IngestInv, BudgetInvariant.BudgetInv, LogInvariant.LogInv, UniqueKeys;
    assert WellFormed(db.core.plans[p].content);
  }

  lemma FiledProposal(cfg: Config, db: Tables, e: Envelope, input: Inputs)
    requires e.command.SubmitProposal?
    requires Step(cfg, db, e, input).result.status == COMMITTED && !Step(cfg, db, e, input).result.replayed
    ensures
      var filed := Step(cfg, db, e, input).db;
      && input.first in filed.core.proposals && filed.core.plans == db.core.plans
      && filed.core.proposals[input.first].base == e.command.base && filed.core.proposals[input.first].change == e.command.change
      && e.command.base in db.core.plans
      && ApplyChange(Contents(db.core.plans), db.core.plans[e.command.base].content, e.command.change).Ok?
  {
    hide Admit, VersionRefusal, EventIds, OutboxIds, ApplyChange;
  }

  lemma FiledStays(filed: Tables, later: Tables, x: Uuid, p: Uuid)
    requires Inv(later) && Grows(filed, later)
    requires x in filed.core.proposals && filed.core.proposals[x].base in filed.core.plans
    requires p in later.core.plans && later.core.plans[p].proposal == Some(x)
    ensures
      var y := filed.core.proposals[x];
      && Extends(filed.core.plans, later.core.plans)
      && y.base in later.core.plans && later.core.plans[p].previous == Some(y.base)
      && ApplyChange(Contents(later.core.plans), later.core.plans[y.base].content, y.change) == Ok(later.core.plans[p].content)
      && RestoreTold(later.core.plans[p], y.change)
  {
    hide RestoreTold;
    hide History, Stored, DiffsHold, PairingKept, ApplyChange, IngestInvariant.IngestInv, BudgetInvariant.BudgetInv, LogInvariant.LogInv;
    assert PlanTraced(later.core.plans, later.core.proposals, later.core.decisions, later.core.plans[p]);
  }

  // ---------- the approval window ----------

  lemma FiledApproval(cfg: Config, db: Tables, e: Envelope, input: Inputs)
    requires e.command.SubmitProposal?
    requires Step(cfg, db, e, input).result.status == COMMITTED && !Step(cfg, db, e, input).result.replayed
    ensures
      var c := Step(cfg, db, e, input).db.core;
      && input.first in c.proposals
      && (c.proposals[input.first].risk == HighRisk ==>
            input.second in c.approvals && c.approvals[input.second].proposal == input.first
            && c.approvals[input.second].expiresAt == input.now + cfg.approvalTtl)
  {
    hide Admit, VersionRefusal, EventIds, OutboxIds, ApplyChange;
  }

  lemma ApplyHoldsADecision(cfg: Config, db: Tables, e: Envelope, input: Inputs)
    requires e.command.ApplyProposal?
    requires Step(cfg, db, e, input).result.status == COMMITTED && !Step(cfg, db, e, input).result.replayed
    ensures
      var x, d := e.command.proposal, e.command.decision;
      && x in db.core.proposals
      && (db.core.proposals[x].risk == HighRisk ==>
            d.Some? && d.value in db.core.decisions && db.core.decisions[d.value].proposal == x
            && input.now < db.core.decisions[d.value].expiresAt)
  {
    hide Admit, VersionRefusal, EventIds, OutboxIds, ProposedContent, NewPlanVersion, AppliedRows;
  }

  /** A decision expires with the one approval of its proposal. */
  lemma DecisionWindow(c: Core, d: Uuid, a: Uuid)
    requires c.program.Some? && CoreInv(c) && d in c.decisions && a in c.approvals && c.approvals[a].proposal == c.decisions[d].proposal
    ensures c.decisions[d].expiresAt == c.approvals[a].expiresAt
  {
    hide PlansKept, DiffsKept, Traced;
    assert DecisionBound(c.approvals, c.members, c.decisions[d]);
  }

  /** A high-risk proposal is applied within the approval window of its filing, or never: whatever was
      decided in between, a commit reads a clock before filing time plus the window. */
  lemma {:induction false} AppliedWithinTheWindow(cfg: Config, db: Tables, e: Envelope, input: Inputs,
          between: seq<Call>, next: Envelope, input': Inputs)
    requires Inv(db) && e.command.SubmitProposal? && next.command.ApplyProposal? && next.command.proposal == input.first
    requires Step(cfg, db, e, input).result.status == COMMITTED && !Step(cfg, db, e, input).result.replayed
    requires
      var later := Run(cfg, Step(cfg, db, e, input).db, between);
      && Step(cfg, later, next, input').result.status == COMMITTED && !Step(cfg, later, next, input').result.replayed
      && input.first in later.core.proposals && later.core.proposals[input.first].risk == HighRisk
    ensures input'.now < input.now + cfg.approvalTtl
  {
    var filed := Step(cfg, db, e, input).db;
    var later := Run(cfg, filed, between);
    FiledApproval(cfg, db, e, input);
    ApplyHoldsADecision(cfg, later, next, input');
    StepKeeps(cfg, db, e, input);
    RunGrows(cfg, filed, between);
    RunKeeps(cfg, filed, between);
    hide Run, Step, CoreInv, IngestInvariant.IngestInv, BudgetInvariant.BudgetInv, LogInvariant.LogInv, IngestGrows, BudgetGrows, LogGrows;
    ProposalsHaveAProgram(later.core, input.first);
    DecisionWindow(later.core, next.command.decision.value, input.second);
  }

  lemma ProposalsHaveAProgram(c: Core, x: Uuid)
    requires CoreInv(c) && x in c.proposals
    ensures c.program.Some?
  {
  }
}
