/** Where the rows of a run come from: each was put there by one call of the run, and says what that call said. */
module Provenance {
  import opened Base
  import opened Plans
  import opened Tables
  import opened Spec
  import opened Outcomes
  import opened Reasons
  import opened Records
  import opened CoreInvariant
  import opened Invariant
  import opened Growth

  // ---------- one step ----------

  lemma InvKeysUnique(db: Tables)
    requires Inv(db)
    ensures KeysUnique(db.core)
  {
    hide History, DiffsKept, PairingKept, Traced, IngestInvariant.IngestInv, BudgetInvariant.BudgetInv, LogInvariant.LogInv, UniqueKeys;
    forall p | p in db.core.plans ensures UniqueKeys(db.core.plans[p].content.tasks) {
      assert WellFormed(db.core.plans[p].content);
    }
  }

  /** Nothing moves outside the log but by a command that is carried out. */
  lemma OnlyCommitsMove(cfg: Config, db: Tables, e: Envelope, input: Inputs)
    requires !Commits(cfg, db, e, input)
    ensures Step(cfg, db, e, input).db.(log := db.log) == db
  {
    hide Admit, Meaning, VersionRefusal, EventIds, OutboxIds, KeyTaken;
  }

  lemma StepIsRecorded(cfg: Config, db: Tables, e: Envelope, input: Inputs)
    requires Inv(db)
    ensures
      var o := Step(cfg, db, e, input);
      if Commits(cfg, db, e, input) then CommitsNow(cfg, db, e, input) && RowsRecorded(cfg, db, o.db, e, input)
      else o.db.(log := db.log) == db
  {
    hide Inv, Step, RowsRecorded, LogRecorded, CommitsNow, RefusalTold, KeysUnique;
    InvKeysUnique(db);
    if Commits(cfg, db, e, input) {
      StepsFollowTheRows(cfg, db, e, input);
      CommitsAreRecorded(cfg, db, e, input);
    } else {
      OnlyCommitsMove(cfg, db, e, input);
    }
  }

  // ---------- the first time a row is seen ----------

  /** The rows before call `i` of a run from the empty tables. */
  ghost function RowsBefore(cfg: Config, calls: seq<Call>, i: nat): Tables
    requires i <= |calls|
  {
    Run(cfg, EmptyTables, calls[..i])
  }

  lemma CallIsAStep(cfg: Config, calls: seq<Call>, i: nat)
    requires i < |calls|
    ensures RowsBefore(cfg, calls, i + 1) == Step(cfg, RowsBefore(cfg, calls, i), calls[i].envelope, calls[i].input).db
  {
    hide Step;
    assert calls[..i + 1][..i] == calls[..i];
  }

  lemma {:induction false} FirstSeen(cfg: Config, calls: seq<Call>, seen: Tables -> bool) returns (i: nat)
    requires !seen(EmptyTables) && seen(Run(cfg, EmptyTables, calls))
    ensures i < |calls| && !seen(RowsBefore(cfg, calls, i)) && seen(RowsBefore(cfg, calls, i + 1))
    decreases |calls|
  {
    hide Step;
    assert calls != [];
    var front := calls[..|calls| - 1];
    if seen(Run(cfg, EmptyTables, front)) {
      i := FirstSeen(cfg, front, seen);
      assert front[..i] == calls[..i] && front[..i + 1] == calls[..i + 1];
    } else {
      i := |front|;
      assert calls[..i + 1] == calls;
    }
  }

  lemma {:induction false} ReachedInv(cfg: Config, calls: seq<Call>, i: nat)
    requires i <= |calls|
    ensures Inv(RowsBefore(cfg, calls, i))
  {
    hide Run, Inv;
    EmptyInv();
    RunKeeps(cfg, EmptyTables, calls[..i]);
  }

  lemma {:induction false} LaterGrows(cfg: Config, calls: seq<Call>, i: nat, j: nat)
    requires i <= j <= |calls|
    ensures Grows(RowsBefore(cfg, calls, i), RowsBefore(cfg, calls, j))
    decreases j
  {
    hide Step, Grows, RowsBefore, Inv;
    if i == j {
      Stays(RowsBefore(cfg, calls, i));
    } else {
      LaterGrows(cfg, calls, i, j - 1);
      ReachedInv(cfg, calls, j - 1);
      CallIsAStep(cfg, calls, j - 1);
      StepGrows(cfg, RowsBefore(cfg, calls, j - 1), calls[j - 1].envelope, calls[j - 1].input);
      GrowsOn(RowsBefore(cfg, calls, i), RowsBefore(cfg, calls, j - 1), RowsBefore(cfg, calls, j));
    }
  }

  lemma WholeRun(cfg: Config, calls: seq<Call>)
    ensures RowsBefore(cfg, calls, |calls|) == Run(cfg, EmptyTables, calls)
  {
    hide Run;
    assert calls[..|calls|] == calls;
  }

  /** Call `i` of the run is carried out, and leaves its rows. */
  ghost predicate CarriedOut(cfg: Config, calls: seq<Call>, i: nat)
    requires i < |calls|
  {
    var e, input := calls[i].envelope, calls[i].input;
    && CommitsNow(cfg, RowsBefore(cfg, calls, i), e, input)
    && RowsRecorded(cfg, RowsBefore(cfg, calls, i), RowsBefore(cfg, calls, i + 1), e, input)
  }

  lemma {:induction false} CallMoves(cfg: Config, calls: seq<Call>, i: nat)
    requires i < |calls|
    ensures CarriedOut(cfg, calls, i)
         || RowsBefore(cfg, calls, i + 1).(log := RowsBefore(cfg, calls, i).log) == RowsBefore(cfg, calls, i)
  {
    hide Step, RowsBefore, Inv, CommitsNow, RowsRecorded, Commits;
    ReachedInv(cfg, calls, i);
    CallIsAStep(cfg, calls, i);
    StepIsRecorded(cfg, RowsBefore(cfg, calls, i), calls[i].envelope, calls[i].input);
  }

  // ---------- the Program ----------

  /** This call created the Program as it still is: its owner, its members and the standing permission to reorder. */
  ghost predicate ProgramCreatedBy(cfg: Config, call: Call, c: Core)
    requires c.program.Some?
  {
    var e := call.envelope;
    && e.command.CreateProgram? && e.channel == Web && e.principal.kind == User
    && c.program.value.owner == e.principal.id && c.program.value.allowReorder == e.command.allowReorder
    && FirstMembers(c.members, e.principal.id, cfg.bootstrap)
    && call.input.first in c.plans && c.plans[call.input.first].content == e.command.plan
  }

  lemma NewProgram(cfg: Config, db: Tables, later: Tables, e: Envelope, input: Inputs)
    requires CommitsNow(cfg, db, e, input) && RowsRecorded(cfg, db, later, e, input)
    requires db.core.program.None? && later.core.program.Some?
    ensures ProgramCreatedBy(cfg, Call(e, input), later.core)
  {
    hide NamesNew, LogNamesNew, KeyIsNew, FirstMembers, TasksOf, VersionRecorded, Describes, WithinCall, WithinTotals, WithinProgramCaps,
      ItemStates, ReceiptFits, RejectionFits, UsageFits, WasRequested, Possible, StillComputes, IsReleased, IsBound, Total;
  }

  /** A Program's owner, members and standing permission are those of the call that created it. */
  lemma {:induction false} ProgramComesFromItsOwner(cfg: Config, calls: seq<Call>) returns (i: nat)
    requires Run(cfg, EmptyTables, calls).core.program.Some?
    ensures i < |calls| && CarriedOut(cfg, calls, i)
    ensures ProgramCreatedBy(cfg, calls[i], Run(cfg, EmptyTables, calls).core)
  {
    i := FirstSeen(cfg, calls, (db: Tables) => db.core.program.Some?);
    CallMoves(cfg, calls, i);
    LaterGrows(cfg, calls, i + 1, |calls|);
    WholeRun(cfg, calls);
    hide Run, RowsBefore, CommitsNow, RowsRecorded, FirstMembers, IngestGrows, BudgetGrows, LogGrows, ProposalsMove, ApprovalsMove;
    NewProgram(cfg, RowsBefore(cfg, calls, i), RowsBefore(cfg, calls, i + 1), calls[i].envelope, calls[i].input);
    assert calls[i] == Call(calls[i].envelope, calls[i].input);
  }

  // ---------- decisions ----------

  /** The owner, at the web door, sent this very decision while the approval was open. */
  ghost predicate SentByTheOwner(core: Core, call: Call, id: Uuid, d: Decision) {
    var e := call.envelope;
    && e.command.RecordDecision? && call.input.first == id && e.channel == Web && e.principal.kind == User
    && e.principal.id in core.members && core.members[e.principal.id] == Member(User, Owner)
    && d.approval == e.command.approval && d.verdict == e.command.verdict && d.comment == e.command.comment
    && d.decidedBy == e.principal.id && d.decidedAt == call.input.now && call.input.now < d.expiresAt
    && d.approval in core.approvals && core.approvals[d.approval].proposal == d.proposal && d.proposal in core.proposals
    && d.expiresAt == core.approvals[d.approval].expiresAt
  }

  lemma NewDecision(cfg: Config, db: Tables, later: Tables, e: Envelope, input: Inputs, d: Uuid)
    requires CommitsNow(cfg, db, e, input) && RowsRecorded(cfg, db, later, e, input)
    requires d !in db.core.decisions && d in later.core.decisions
    ensures SentByTheOwner(db.core, Call(e, input), d, later.core.decisions[d])
  {
    hide NamesNew, LogNamesNew, KeyIsNew, FirstMembers, TasksOf, VersionRecorded, Describes, WithinCall, WithinTotals, WithinProgramCaps,
      ItemStates, ReceiptFits, RejectionFits, UsageFits, WasRequested, Possible, StillComputes, IsReleased, IsBound, Total;
  }

  /** Every decision of a run is the one that the owner sent, with its verdict, comment and time. */
  lemma {:induction false} DecisionsComeFromTheOwner(cfg: Config, calls: seq<Call>, d: Uuid) returns (i: nat)
    requires d in Run(cfg, EmptyTables, calls).core.decisions
    ensures i < |calls| && CarriedOut(cfg, calls, i)
    ensures SentByTheOwner(RowsBefore(cfg, calls, i).core, calls[i], d, Run(cfg, EmptyTables, calls).core.decisions[d])
  {
    i := FirstSeen(cfg, calls, (db: Tables) => d in db.core.decisions);
    CallMoves(cfg, calls, i);
    LaterGrows(cfg, calls, i + 1, |calls|);
    WholeRun(cfg, calls);
    hide Run, RowsBefore, CommitsNow, RowsRecorded, SentByTheOwner, IngestGrows, BudgetGrows, LogGrows, ProposalsMove, ApprovalsMove, ProgramMoves;
    NewDecision(cfg, RowsBefore(cfg, calls, i), RowsBefore(cfg, calls, i + 1), calls[i].envelope, calls[i].input, d);
    assert calls[i] == Call(calls[i].envelope, calls[i].input);
  }

  /** This call expired the approval, not before its time. */
  ghost predicate ExpiredBy(call: Call, a: Uuid, approval: Approval) {
    var e := call.envelope;
    && e.command.ExpireApproval? && e.command.approval == a && e.channel == Internal && (e.principal.kind == Service || e.principal.kind == System)
    && call.input.now >= approval.expiresAt
  }

  lemma NewlyExpired(cfg: Config, db: Tables, later: Tables, e: Envelope, input: Inputs, a: Uuid)
    requires CommitsNow(cfg, db, e, input) && RowsRecorded(cfg, db, later, e, input)
    requires a in later.core.approvals && later.core.approvals[a].status == Expired
    requires !(a in db.core.approvals && db.core.approvals[a].status == Expired)
    ensures ExpiredBy(Call(e, input), a, later.core.approvals[a])
  {
    hide NamesNew, LogNamesNew, KeyIsNew, FirstMembers, TasksOf, VersionRecorded, Describes, WithinCall, WithinTotals, WithinProgramCaps,
      ItemStates, ReceiptFits, RejectionFits, UsageFits, WasRequested, Possible, StillComputes, IsReleased, IsBound, Total;
  }

  /** No approval of a run expires before its time. */
  lemma {:induction false} ApprovalsExpireByTheClock(cfg: Config, calls: seq<Call>, a: Uuid) returns (i: nat)
    requires a in Run(cfg, EmptyTables, calls).core.approvals && Run(cfg, EmptyTables, calls).core.approvals[a].status == Expired
    ensures i < |calls| && CarriedOut(cfg, calls, i)
    ensures ExpiredBy(calls[i], a, Run(cfg, EmptyTables, calls).core.approvals[a])
  {
    i := FirstSeen(cfg, calls, (db: Tables) => a in db.core.approvals && db.core.approvals[a].status == Expired);
    CallMoves(cfg, calls, i);
    LaterGrows(cfg, calls, i + 1, |calls|);
    WholeRun(cfg, calls);
    hide Run, RowsBefore, CommitsNow, RowsRecorded, IngestGrows, BudgetGrows, LogGrows, Extends, ProposalsMove, ProgramMoves;
    NewlyExpired(cfg, RowsBefore(cfg, calls, i), RowsBefore(cfg, calls, i + 1), calls[i].envelope, calls[i].input, a);
    assert calls[i] == Call(calls[i].envelope, calls[i].input);
  }

  // ---------- proposals ----------

  /** This call filed the proposal, on the plan that was active then. */
  ghost predicate FiledBy(core: Core, call: Call, id: Uuid, x: Proposal) {
    var e := call.envelope;
    && e.command.SubmitProposal? && call.input.first == id && e.principal.id in core.members
    && x.base == e.command.base && x.change == e.command.change && x.proposedBy == e.principal.id && x.baseStateVersion == e.command.expected
    && core.program.Some? && core.program.value.activePlan == Some(x.base) && core.program.value.stateVersion == x.baseStateVersion
    && (x.risk == LowRisk <==> x.change.ReorderTasks? && core.program.value.allowReorder) && (x.risk == LowRisk || x.risk == HighRisk)
    && x.base in core.plans
    && Describes(Contents(core.plans), core.plans[x.base].content, x.change, x.diff.after.content)
    && x.diff == Diff(TypeOf(x.change), x.base, core.plans[x.base].contentHash, x.diff.after) && x.diffHash == Sha256OfDiff(x.diff)
  }

  lemma NewProposal(cfg: Config, db: Tables, later: Tables, e: Envelope, input: Inputs, x: Uuid)
    requires CommitsNow(cfg, db, e, input) && RowsRecorded(cfg, db, later, e, input)
    requires x !in db.core.proposals && x in later.core.proposals
    ensures FiledBy(db.core, Call(e, input), x, later.core.proposals[x])
  {
    hide NamesNew, LogNamesNew, KeyIsNew, FirstMembers, TasksOf, VersionRecorded, Describes, WithinCall, WithinTotals, WithinProgramCaps,
      ItemStates, ReceiptFits, RejectionFits, UsageFits, WasRequested, Possible, StillComputes, IsReleased, IsBound, Total, TypeOf;
  }

  /** Every proposal of a run is the one that was filed; afterwards only its status moves. */
  lemma {:induction false} ProposalsComeFromSubmissions(cfg: Config, calls: seq<Call>, x: Uuid) returns (i: nat)
    requires x in Run(cfg, EmptyTables, calls).core.proposals
    ensures i < |calls| && CarriedOut(cfg, calls, i)
    ensures FiledBy(RowsBefore(cfg, calls, i).core, calls[i], x, Run(cfg, EmptyTables, calls).core.proposals[x])
  {
    i := FirstSeen(cfg, calls, (db: Tables) => x in db.core.proposals);
    CallMoves(cfg, calls, i);
    LaterGrows(cfg, calls, i + 1, |calls|);
    WholeRun(cfg, calls);
    hide Run, RowsBefore, CommitsNow, RowsRecorded, IngestGrows, BudgetGrows, LogGrows, Extends, ApprovalsMove, ProgramMoves;
    NewProposal(cfg, RowsBefore(cfg, calls, i), RowsBefore(cfg, calls, i + 1), calls[i].envelope, calls[i].input, x);
    assert calls[i] == Call(calls[i].envelope, calls[i].input);
    StatusIsNotFiled(RowsBefore(cfg, calls, i).core, calls[i], x, RowsBefore(cfg, calls, i + 1).core.proposals[x],
      Run(cfg, EmptyTables, calls).core.proposals[x].status);
  }

  lemma StatusIsNotFiled(core: Core, call: Call, id: Uuid, x: Proposal, status: ProposalStatus)
    requires FiledBy(core, call, id, x)
    ensures FiledBy(core, call, id, x.(status := status))
  {
    hide Describes, TypeOf, Contents;
  }

  // ---------- plan versions ----------

  /** This call made the version, from the proposal that it names, while that was released. */
  ghost predicate AppliedBy(core: Core, call: Call, id: Uuid, p: PlanVersion) {
    var e := call.envelope;
    && e.command.ApplyProposal? && call.input.first == id && core.program.Some?
    && e.command.proposal in core.proposals && core.program.value.activePlan == p.previous && p.previous.Some?
    && IsReleased(core, e.command, call.input.now) && core.proposals[e.command.proposal].base in core.plans
    && VersionRecorded(core, p, e, core.proposals[e.command.proposal])
  }

  /** This call created the Program with this plan. */
  predicate CreatedBy(call: Call, id: Uuid, p: PlanVersion) {
    var e := call.envelope;
    && e.command.CreateProgram? && call.input.first == id && e.channel == Web && e.principal.kind == User
    && p == PlanVersion(1, None, None, None, None, BootstrapRisk, e.command.plan, Sha256OfPlan(e.command.plan), None, None, None, e.principal.id)
  }

  lemma NewVersion(cfg: Config, db: Tables, later: Tables, e: Envelope, input: Inputs, p: Uuid)
    requires CommitsNow(cfg, db, e, input) && RowsRecorded(cfg, db, later, e, input)
    requires p !in db.core.plans && p in later.core.plans
    ensures CreatedBy(Call(e, input), p, later.core.plans[p]) || AppliedBy(db.core, Call(e, input), p, later.core.plans[p])
  {
    hide NamesNew, LogNamesNew, KeyIsNew, FirstMembers, TasksOf, Describes, WithinCall, WithinTotals, WithinProgramCaps,
      ItemStates, ReceiptFits, RejectionFits, UsageFits, WasRequested, Possible, StillComputes, IsReleased, IsBound, Total;
  }

  lemma {:induction false} VersionsComeFromCalls(cfg: Config, calls: seq<Call>, p: Uuid) returns (i: nat)
    requires p in Run(cfg, EmptyTables, calls).core.plans
    ensures i < |calls| && CarriedOut(cfg, calls, i)
    ensures
      var plan := Run(cfg, EmptyTables, calls).core.plans[p];
      CreatedBy(calls[i], p, plan) || AppliedBy(RowsBefore(cfg, calls, i).core, calls[i], p, plan)
  {
    i := FirstSeen(cfg, calls, (db: Tables) => p in db.core.plans);
    CallMoves(cfg, calls, i);
    LaterGrows(cfg, calls, i + 1, |calls|);
    WholeRun(cfg, calls);
    hide Run, RowsBefore, CommitsNow, RowsRecorded, IngestGrows, BudgetGrows, LogGrows, ProposalsMove, ApprovalsMove, ProgramMoves;
    hide CreatedBy, AppliedBy;
    NewVersion(cfg, RowsBefore(cfg, calls, i), RowsBefore(cfg, calls, i + 1), calls[i].envelope, calls[i].input, p);
    assert calls[i] == Call(calls[i].envelope, calls[i].input);
  }

  // ---------- the story of one version ----------

  /** Call `s` filed the change that makes version `p` out of its predecessor; when it needed the owner, call `d`,
      between the two, is the owner's Approve of just that proposal, in time; and call `a` applied it. */
  ghost predicate Story(cfg: Config, calls: seq<Call>, p: PlanVersion, s: nat, d: nat, a: nat)
    requires s < |calls| && d < |calls| && a < |calls|
  {
    && s < a && CarriedOut(cfg, calls, s) && CarriedOut(cfg, calls, a)
    && calls[s].envelope.command.SubmitProposal? && calls[a].envelope.command.ApplyProposal?
    && p.proposal == Some(calls[s].input.first) == Some(calls[a].envelope.command.proposal)
    && p.previous == Some(calls[s].envelope.command.base)
    && var core := RowsBefore(cfg, calls, a).core;
    && p.previous.value in core.plans
    && Describes(Contents(core.plans), core.plans[p.previous.value].content, calls[s].envelope.command.change, p.content)
    && (p.risk == HighRisk ==>
          && s < d < a && CarriedOut(cfg, calls, d)
          && var e := calls[d].envelope;
          && e.command.RecordDecision? && e.command.verdict == Approve && p.decision == Some(calls[d].input.first)
          && e.channel == Web && e.principal.kind == User
          && var before := RowsBefore(cfg, calls, d).core;
          && e.principal.id in before.members && before.members[e.principal.id].role == Owner
          && e.command.approval in before.approvals && Some(before.approvals[e.command.approval].proposal) == p.proposal
          && calls[d].input.now < before.approvals[e.command.approval].expiresAt
          && calls[a].input.now < before.approvals[e.command.approval].expiresAt)
    && (p.risk != HighRisk ==> p.risk == LowRisk && calls[s].envelope.command.change.ReorderTasks?)
  }

  lemma {:induction false} Prefix(cfg: Config, calls: seq<Call>, i: nat, j: nat)
    requires i <= j <= |calls|
    ensures RowsBefore(cfg, calls[..j], i) == RowsBefore(cfg, calls, i)
    ensures i < j ==> (CarriedOut(cfg, calls[..j], i) <==> CarriedOut(cfg, calls, i)) && calls[..j][i] == calls[i]
  {
    hide Run, CommitsNow, RowsRecorded;
    assert calls[..j][..i] == calls[..i];
    if i < j { assert calls[..j][..i + 1] == calls[..i + 1]; }
  }

  /** What the last of the calls shows. */
  lemma ReleaseOf(core: Core, call: Call, id: Uuid, p: PlanVersion)
    requires AppliedBy(core, call, id, p)
    ensures call.envelope.command.ApplyProposal? && p.proposal == Some(call.envelope.command.proposal)
    ensures call.envelope.command.proposal in core.proposals
    ensures
      var c, x := call.envelope.command, core.proposals[call.envelope.command.proposal];
      && x.base in core.plans && p.previous == Some(x.base) && p.risk == x.risk
      && Describes(Contents(core.plans), core.plans[x.base].content, x.change, p.content)
      && (p.risk == HighRisk ==>
            && p.decision == c.decision && c.decision.Some? && c.decision.value in core.decisions
            && core.decisions[c.decision.value].verdict == Approve && core.decisions[c.decision.value].proposal == c.proposal
            && call.input.now < core.decisions[c.decision.value].expiresAt)
  {
    hide Describes, Contents;
  }

  /** A call that files a proposal is not preceded by a state that has it. */
  lemma {:induction false} FiledBefore(cfg: Config, calls: seq<Call>, s: nat, d: nat)
    requires s < |calls| && d <= |calls| && CarriedOut(cfg, calls, s) && calls[s].envelope.command.SubmitProposal?
    requires calls[s].input.first in RowsBefore(cfg, calls, d).core.proposals
    ensures s < d
  {
    hide RowsBefore, RowsRecorded, Can, LogNamesNew, Admitted, Current, IngestGrows, BudgetGrows, LogGrows, Extends, ApprovalsMove, ProgramMoves;
    if d <= s { LaterGrows(cfg, calls, d, s); }
  }

  /** The decision behind a high-risk version, as a call of the run. */
  lemma {:induction false} DecisionBehind(cfg: Config, calls: seq<Call>, a: nat, dec: Uuid) returns (d: nat)
    requires a <= |calls| && dec in RowsBefore(cfg, calls, a).core.decisions
    ensures d < a && CarriedOut(cfg, calls, d)
    ensures SentByTheOwner(RowsBefore(cfg, calls, d).core, calls[d], dec, RowsBefore(cfg, calls, a).core.decisions[dec])
  {
    hide Run, CarriedOut, SentByTheOwner;
    d := DecisionsComeFromTheOwner(cfg, calls[..a], dec);
    hide RowsBefore;
    Prefix(cfg, calls, d, a);
  }

  lemma {:induction false} ProposalBehind(cfg: Config, calls: seq<Call>, a: nat, x: Uuid) returns (s: nat)
    requires a <= |calls| && x in RowsBefore(cfg, calls, a).core.proposals
    ensures s < a && CarriedOut(cfg, calls, s)
    ensures FiledBy(RowsBefore(cfg, calls, s).core, calls[s], x, RowsBefore(cfg, calls, a).core.proposals[x])
  {
    hide Run, CarriedOut, FiledBy;
    s := ProposalsComeFromSubmissions(cfg, calls[..a], x);
    hide RowsBefore;
    Prefix(cfg, calls, s, a);
  }

  /** Every version of a run but the first has its story. */
  lemma {:induction false} EveryVersionHasItsStory(cfg: Config, calls: seq<Call>, p: Uuid) returns (s: nat, d: nat, a: nat)
    requires p in Run(cfg, EmptyTables, calls).core.plans && Run(cfg, EmptyTables, calls).core.plans[p].previous.Some?
    ensures s < |calls| && d < |calls| && a < |calls|
    ensures Story(cfg, calls, Run(cfg, EmptyTables, calls).core.plans[p], s, d, a)
  {
    hide Run, RowsBefore, CarriedOut, AppliedBy, Describes, Contents, TypeOf;
    var plan := Run(cfg, EmptyTables, calls).core.plans[p];
    a := VersionsComeFromCalls(cfg, calls, p);
    var core := RowsBefore(cfg, calls, a).core;
    ReleaseOf(core, calls[a], p, plan);
    var c := calls[a].envelope.command;
    s := ProposalBehind(cfg, calls, a, c.proposal);
    d := s;
    if plan.risk == HighRisk {
      d := DecisionBehind(cfg, calls, a, c.decision.value);
      FiledBefore(cfg, calls, s, d);
    }
  }

  // ---------- evidence ----------

  /** What the service vouches for in a stored receipt: the place and the identifiers it derives itself, the one
      policy, checker and format, and that the text may leave. Its issuer made the item that repeats it. */
  ghost predicate Vouched(cfg: Config, g: Ingest, r: EvidenceReceipt) {
    && r.exportSafe && r.format == PlainText && r.policy == cfg.policy && r.checker == cfg.checker
    && r.objectRef == ObjectRef(r.program, r.rawSha256)
    && r.receiptId == EvidenceReceiptOf(r.program, r.job, r.claim, r.objectRef, r.rawSha256, r.byteSize, r.format, r.policy, r.checker)
    && r.job in g.jobs && g.jobs[r.job].policy == r.policy && g.jobs[r.job].claim == Some(r.claim)
    && EvidenceItemOf(r.receiptId) in g.items
    && var item := g.items[EvidenceItemOf(r.receiptId)];
    && ItemStates(item, r, g.jobs[r.job].authorizationRef) && item.createdBy == r.issuedBy
  }

  ghost predicate AllVouched(cfg: Config, g: Ingest) {
    forall k :: k in g.receipts ==> g.receipts[k].receiptId == k && Vouched(cfg, g, g.receipts[k])
  }

  lemma VouchedStays(cfg: Config, g: Ingest, later: Ingest, r: EvidenceReceipt)
    requires IngestGrows(g, later) && Vouched(cfg, g, r)
    ensures Vouched(cfg, later, r)
  {
    hide ItemStates;
    assert JobMoves(g.jobs[r.job], later.jobs[r.job]);
  }

  lemma NewReceipt(cfg: Config, db: Tables, later: Tables, e: Envelope, input: Inputs, k: Uuid)
    requires CommitsNow(cfg, db, e, input) && RowsRecorded(cfg, db, later, e, input)
    requires k in later.ingest.receipts && (k in db.ingest.receipts ==> later.ingest.receipts[k] != db.ingest.receipts[k])
    ensures later.ingest.receipts[k].receiptId == k && Vouched(cfg, later.ingest, later.ingest.receipts[k])
    ensures e.command.FinalizeJob? && later.ingest.receipts[k] == e.command.receipt
    ensures e.channel == Internal && e.principal.kind == Service && e.principal.id == e.command.receipt.issuedBy
  {
    hide NamesNew, LogNamesNew, KeyIsNew, FirstMembers, TasksOf, VersionRecorded, Describes, WithinCall, WithinTotals, WithinProgramCaps,
      RejectionFits, UsageFits, WasRequested, Possible, StillComputes, IsReleased, IsBound, Total;
    hide SubmitRecorded, ApplyRecorded, CreateRecorded, ReserveRecorded, SettleRecorded;
    if !e.command.FinalizeJob? { OtherReceiptsStay(cfg, db, later, e, input); }
  }

  lemma OtherReceiptsStay(cfg: Config, db: Tables, later: Tables, e: Envelope, input: Inputs)
    requires RowsRecorded(cfg, db, later, e, input) && !e.command.FinalizeJob?
    ensures later.ingest.receipts == db.ingest.receipts
  {
    hide FirstMembers, TasksOf, VersionRecorded, Describes, WithinCall, WithinTotals, WithinProgramCaps, Total;
  }

  lemma CallKeepsVouched(cfg: Config, calls: seq<Call>, i: nat)
    requires i < |calls| && AllVouched(cfg, RowsBefore(cfg, calls, i).ingest)
    ensures AllVouched(cfg, RowsBefore(cfg, calls, i + 1).ingest)
  {
    hide Run, RowsBefore, CommitsNow, RowsRecorded, Vouched, CoreGrows, IngestGrows, BudgetGrows, LogGrows;
    var db, later := RowsBefore(cfg, calls, i), RowsBefore(cfg, calls, i + 1);
    CallMoves(cfg, calls, i);
    LaterGrows(cfg, calls, i, i + 1);
    if CarriedOut(cfg, calls, i) {
      forall k | k in later.ingest.receipts
        ensures later.ingest.receipts[k].receiptId == k && Vouched(cfg, later.ingest, later.ingest.receipts[k])
      {
        if k in db.ingest.receipts && later.ingest.receipts[k] == db.ingest.receipts[k] {
          VouchedStays(cfg, db.ingest, later.ingest, db.ingest.receipts[k]);
        } else {
          NewReceipt(cfg, db, later, calls[i].envelope, calls[i].input, k);
        }
      }
    }
  }

  lemma {:induction false} CallsKeepVouched(cfg: Config, calls: seq<Call>, i: nat)
    requires i <= |calls|
    ensures AllVouched(cfg, RowsBefore(cfg, calls, i).ingest)
  {
    hide Step, Vouched;
    if i > 0 {
      hide RowsBefore, AllVouched;
      CallsKeepVouched(cfg, calls, i - 1);
      CallKeepsVouched(cfg, calls, i - 1);
    }
  }

  /** In every reachable state the service vouches for every stored receipt. */
  lemma {:induction false} StoredReceiptsAreVouched(cfg: Config, calls: seq<Call>)
    ensures AllVouched(cfg, Run(cfg, EmptyTables, calls).ingest)
  {
    hide Run, RowsBefore, AllVouched;
    CallsKeepVouched(cfg, calls, |calls|);
    WholeRun(cfg, calls);
  }

  /** A finalize whose receipt falls short in one of these points is rejected, and stores nothing. */
  lemma UnfitReceiptsAreRejected(cfg: Config, db: Tables, e: Envelope, input: Inputs)
    requires Inv(db) && e.command.FinalizeJob? && KeyIsNew(db.log, e)
    requires e.command.job in db.ingest.jobs ==> !ReceiptFits(cfg, e, e.command.job, db.ingest.jobs[e.command.job], e.command.receipt)
    ensures Step(cfg, db, e, input).result.status == REJECTED && Step(cfg, db, e, input).db.(log := db.log) == db
  {
    hide Inv, Step, KeysUnique, RefusalTold, NamesNew, LogNamesNew, Admitted, Current;
    InvKeysUnique(db);
    StepsFollowTheRows(cfg, db, e, input);
    OnlyCommitsMove(cfg, db, e, input);
  }

  // ---------- budget ----------

  /** This call asked for the reservation. */
  ghost predicate AskedBy(core: Core, b: Budget, call: Call, id: Uuid, r: Reservation) {
    var e := call.envelope;
    && e.command.ReserveBudget? && call.input.first == id && e.channel == Internal && e.principal.kind == Service
    && e.principal.id in core.members && core.members[e.principal.id] == Member(Service, ServiceRole)
    && e.command.request == BudgetRequest(r.run, r.modelCall, r.snapshot, r.maxima) && r.requestedBy == e.principal.id
    && r.snapshot in b.snapshots && b.snapshots[r.snapshot].run == r.run
    && (r.status == Refused <==>
          !(WithinCall(b.snapshots[r.snapshot], r.maxima)
            && WithinTotals(b.reservations, b.snapshots[r.snapshot], OfSnapshot(r.run, r.snapshot), r.maxima)
            && WithinProgramCaps(b.reservations, r.maxima)))
  }

  lemma NewReservation(cfg: Config, db: Tables, later: Tables, e: Envelope, input: Inputs, k: Uuid)
    requires CommitsNow(cfg, db, e, input) && RowsRecorded(cfg, db, later, e, input)
    requires k !in db.budget.reservations && k in later.budget.reservations
    ensures AskedBy(db.core, db.budget, Call(e, input), k, later.budget.reservations[k])
  {
    hide NamesNew, LogNamesNew, KeyIsNew, FirstMembers, TasksOf, VersionRecorded, Describes, WithinCall, WithinTotals, WithinProgramCaps,
      ItemStates, ReceiptFits, RejectionFits, UsageFits, WasRequested, Possible, StillComputes, IsReleased, IsBound, Total;
  }

  lemma StatusIsNotAsked(core: Core, b: Budget, call: Call, id: Uuid, r: Reservation, later: Reservation)
    requires AskedBy(core, b, call, id, r) && ReservationMoves(r, later)
    ensures AskedBy(core, b, call, id, later)
  {
    hide WithinCall, WithinTotals, WithinProgramCaps;
  }

  /** Every reservation of a run was asked for, once, by a service member, and refused exactly when it broke a cap. */
  lemma {:induction false} ReservationsComeFromRequests(cfg: Config, calls: seq<Call>, k: Uuid) returns (i: nat)
    requires k in Run(cfg, EmptyTables, calls).budget.reservations
    ensures i < |calls| && CarriedOut(cfg, calls, i)
    ensures
      var before := RowsBefore(cfg, calls, i);
      AskedBy(before.core, before.budget, calls[i], k, Run(cfg, EmptyTables, calls).budget.reservations[k])
  {
    i := FirstSeen(cfg, calls, (db: Tables) => k in db.budget.reservations);
    CallMoves(cfg, calls, i);
    LaterGrows(cfg, calls, i + 1, |calls|);
    WholeRun(cfg, calls);
    hide Run, RowsBefore, CommitsNow, RowsRecorded, AskedBy, IngestGrows, CoreGrows, LogGrows, ReservationMoves;
    var before, after := RowsBefore(cfg, calls, i), RowsBefore(cfg, calls, i + 1);
    NewReservation(cfg, before, after, calls[i].envelope, calls[i].input, k);
    assert calls[i] == Call(calls[i].envelope, calls[i].input);
    StatusIsNotAsked(before.core, before.budget, calls[i], k, after.budget.reservations[k], Run(cfg, EmptyTables, calls).budget.reservations[k]);
  }

  /** This call settled the reservation, with this usage receipt. */
  ghost predicate SettledBy(b: Budget, call: Call, row: LedgerRow) {
    var e := call.envelope;
    && e.command == SettleBudget(row.receipt) && e.channel == Internal && e.principal.kind == Service
    && row.receipt.issuedBy == e.principal.id && row.reservation == row.receipt.reservation
    && row.reservation in b.reservations && b.reservations[row.reservation].status == Reserved
    && row.charged == (match row.receipt.usage case Reported(amounts) => amounts case Unknown => b.reservations[row.reservation].maxima)
  }

  lemma NewLedgerRow(cfg: Config, db: Tables, later: Tables, e: Envelope, input: Inputs, l: Uuid)
    requires CommitsNow(cfg, db, e, input) && RowsRecorded(cfg, db, later, e, input)
    requires l !in db.budget.ledger && l in later.budget.ledger
    ensures SettledBy(db.budget, Call(e, input), later.budget.ledger[l])
  {
    hide NamesNew, LogNamesNew, KeyIsNew, FirstMembers, TasksOf, VersionRecorded, Describes, WithinCall, WithinTotals, WithinProgramCaps,
      ItemStates, ReceiptFits, RejectionFits, UsageFits, WasRequested, Possible, StillComputes, IsReleased, IsBound, Total;
  }

  /** Every ledger row of a run is one settlement of the run, charged as its usage says. */
  lemma {:induction false} LedgerComesFromSettlements(cfg: Config, calls: seq<Call>, l: Uuid) returns (i: nat)
    requires l in Run(cfg, EmptyTables, calls).budget.ledger
    ensures i < |calls| && CarriedOut(cfg, calls, i)
    ensures SettledBy(RowsBefore(cfg, calls, i).budget, calls[i], Run(cfg, EmptyTables, calls).budget.ledger[l])
  {
    i := FirstSeen(cfg, calls, (db: Tables) => l in db.budget.ledger);
    CallMoves(cfg, calls, i);
    LaterGrows(cfg, calls, i + 1, |calls|);
    WholeRun(cfg, calls);
    hide Run, RowsBefore, CommitsNow, RowsRecorded, SettledBy, IngestGrows, CoreGrows, LogGrows;
    NewLedgerRow(cfg, RowsBefore(cfg, calls, i), RowsBefore(cfg, calls, i + 1), calls[i].envelope, calls[i].input, l);
    assert calls[i] == Call(calls[i].envelope, calls[i].input);
  }
}
