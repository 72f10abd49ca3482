/** A Provider call that is never settled, shown on a concrete run: the answer's own request identifier, "a b",
    holds a space, so the usage receipt cannot be built. The plans are the three that a live configuration
    names, the request is one user message that is the first plan's marker, and its length is that of the
    document the gateway sends for it. */
module GatewayDemonstration {
  import opened Base
  import opened Tables
  import opened Contracts
  import opened Spec
  import opened MarkerScan
  import opened PlanRegistry
  import opened Cost
  import opened Demonstration
  import opened Gateway
  import opened GatewayBudget

  // ---------- the configured plans ----------

  const Architect := "role_project_architect"
  const Coach := "execution_evidence_coach"
  const Judge := "independent_quality_reviewer"

  const RepresentativeSkills := map[
    Architect := "analyze_role_gap", Coach := "coach_task_submission", Judge := "review_evidence_against_rubric"]

  /** The three representative skills as the contract registry has them. */
  function SkillRegistry(): Registry {
    Registry(RepresentativeSkills, (identity, skill, version) =>
      identity in RepresentativeSkills && RepresentativeSkills[identity] == skill && version == "1.0.0")
  }

  /** The text of the three calls' identifiers; no other text is looked at. */
  function TextOf(u: Uuid): string {
    "00000000-0000-4000-8000-00000000000" + (if u == V4(2) then "2" else if u == V4(3) then "3" else "4")
  }

  function Marker(n: nat): string { Prefix + TextOf(V4(n)) }

  function RowOf(identity: string, n: nat): PlanRow
    requires identity in RepresentativeSkills
  {
    PlanRow(identity, V4(n), V4(10 * (n + 1)), RepresentativeSkills[identity], "1.0.0", Marker(n),
      [PlanRef("program_plan", "plan-1", "1", Digest('d'))], ["raw_evidence"])
  }

  function PlanRows(): seq<PlanRow> { [RowOf(Architect, 2), RowOf(Coach, 3), RowOf(Judge, 4)] }

  function FingerprintOf(identity: string): string {
    Digest(if identity == Architect then 'c' else if identity == Coach then 'd' else 'e')
  }

  lemma TextIsUuid(u: Uuid)
    ensures IsUuid4Text(TextOf(u))
  {
  }

  lemma MarkerIsCanonical(n: nat)
    ensures IsMarker(Marker(n))
  {
    TextIsUuid(V4(n));
    hide TextOf, IsUuid4Text;
    assert Marker(n)[8..] == TextOf(V4(n)) && Marker(n)[..8] == Prefix;
  }

  function PlanOf(identity: string, n: nat): (plan: InvocationPlan)
    requires identity in RepresentativeSkills
    ensures plan.marker.Some? && IsMarker(plan.marker.value)
    ensures plan.modelCall == V4(n) && plan.reservation == V4(10 * (n + 1))
  {
    MarkerIsCanonical(n);
    ToPlan(RowOf(identity, n))
  }

  function Plans3(): PlanTable {
    map[Digest('c') := PlanOf(Architect, 2), Digest('d') := PlanOf(Coach, 3), Digest('e') := PlanOf(Judge, 4)]
  }

  lemma NamesDiffer()
    ensures Architect != Coach && Coach != Judge && Architect != Judge
    ensures Architect in RepresentativeSkills && Coach in RepresentativeSkills && Judge in RepresentativeSkills
  {
    assert Architect[0] == 'r' && Coach[0] == 'e' && Judge[0] == 'i';
  }

  lemma DigestsDiffer()
    ensures Digest('c') != Digest('d') && Digest('d') != Digest('e') && Digest('c') != Digest('e')
  {
    assert Digest('c')[0] == 'c' && Digest('d')[0] == 'd' && Digest('e')[0] == 'e';
  }

  lemma RowIsAccepted(identity: string, n: nat)
    requires identity in RepresentativeSkills && 2 <= n <= 4
    ensures RowAccepted(RowOf(identity, n), TextOf, SkillRegistry())
  {
    MarkerIsCanonical(n);
    var row := RowOf(identity, n);
    assert RefAccepted(row.objectRefs[0]) by { hide Digest; }
    assert ExclusionsAccepted(row.exclusions);
    hide IsMarker, TextOf, RefAccepted, ExclusionsAccepted, RepresentativeSkills;
  }

  /** The parser accepts the three plans, and the table of the running gateway is made of them. */
  lemma PlansAreAccepted()
    ensures forall i :: 0 <= i < 3 ==> RowAccepted(PlanRows()[i], TextOf, SkillRegistry())
    ensures DistinctRows(PlanRows())
    ensures TableOf(PlanRows(), FingerprintOf) == Plans3()
  {
    NamesDiffer();
    hide RowAccepted, TextOf, RepresentativeSkills, Architect, Coach, Judge;
    RowIsAccepted(Architect, 2);
    RowIsAccepted(Coach, 3);
    RowIsAccepted(Judge, 4);
    assert forall i :: 0 <= i < 3 ==> RowAccepted(PlanRows()[i], TextOf, SkillRegistry());
    assert DistinctRows(PlanRows());
    TableOfRows();
  }

  lemma TableOfRows()
    ensures TableOf(PlanRows(), FingerprintOf) == Plans3()
  {
    NamesDiffer();
    DigestsDiffer();
    hide RepresentativeSkills, Architect, Coach, Judge, Digest, Marker;
    var rows := PlanRows();
    assert rows[..2][..1] == rows[..1] && rows[..1][..0] == [];
    assert TableOf(rows[..1], FingerprintOf) == map[Digest('c') := PlanOf(Architect, 2)];
    assert TableOf(rows[..2], FingerprintOf) == TableOf(rows[..1], FingerprintOf)[Digest('d') := PlanOf(Coach, 3)];
    assert rows[..2] == rows[..|rows| - 1];
  }

  // ---------- the gateway and the request ----------

  function GatewayOne(): Env {
    Env(Service1, Plans3(), V4(0), V4(1), V4(20), AuthorizedAlias, Price(200_000, 800_000),
        Principal(GatewayId, Service, ["model:gateway"], [V4(0)], "gateway"), receipt => "m4-settle:" + TextOf(receipt))
  }

  function PlanOne(): (plan: InvocationPlan)
    ensures plan.marker == Some(Marker(2)) && plan.skill == "analyze_role_gap" && plan.skillVersion == "1.0.0"
    ensures plan.modelCall == V4(2) && plan.reservation == V4(30)
  {
    NamesDiffer();
    PlanOf(Architect, 2)
  }

  function SessionOne(): Session {
    Session(Digest('c'), map["analyze_role_gap" := "1.0.0", "design_evidence_project" := "1.0.0", "build_versioned_plan" := "1.0.0",
                             "propose_replan_under_constraints" := "1.0.0", "distill_experience_candidate" := "1.0.0"])
  }

  /** One user message, which is the marker. */
  function Ask(): seq<Message> { [Message(true, Text(Marker(2)))] }

  const WireBytes: nat := 233

  /** The canonical JSON that the gateway sends for it; every character is one byte. */
  function Document(): (text: string)
    ensures |text| == WireBytes
  {
    "{\"enable_thinking\":false,\"max_tokens\":1000,\"messages\":[{\"content\":\"" + Marker(2) + "\",\"role\":\"user\"}],\"model\":\""
    + AuthorizedModel + "\",\"response_format\":{\"type\":\"json_object\"},\"seed\":0,\"temperature\":0.01}"
  }

  /** A Provider's answer that is good in every respect but its identifier. */
  function BadAnswer(): Reply { Answered(90, 10, Digest('b'), "a b") }

  function Script(): (s: seq<Action>)
    ensures |s| == 7
  {
    [Arrive(0, SessionOne(), Ask()), Claim(0), ReadConfig(0, true), ReadReservation(0),
     StoreManifest(0, true, WireBytes, Digest('a'), true), StartCall(0), EndCall(0, BadAnswer())]
  }

  lemma ConfigStartsUp(db: Tables)
    requires After(db, 5)
    ensures ConfigCommitted(GatewayOne(), Small, db)
  {
    ServiceMayRead(db);
    hide UsedUpTo, MayRead, HasService, Plans3, TextOf, Rows, AuthorizedAlias, AuthorizedModel;
  }

  lemma PlanStartsUp(db: Tables, identity: string, n: nat)
    requires After(db, 5) && identity in RepresentativeSkills && 2 <= n <= 4
    ensures PlanCommitted(GatewayOne(), Small, db.budget.reservations, PlanOf(identity, n))
  {
    hide UsedUpTo, HasService, Plans3, PlanOf, TextOf, Rows, RepresentativeSkills, AuthorizedAlias, AuthorizedModel;
    RowOfPlan(n);
  }

  lemma RatesStartUp()
    ensures CapsParse(Small) && RatesAdmitted(Price(200_000, 800_000), Small)
  {
    hide AuthorizedAlias, AuthorizedModel;
  }

  /** The start-up check accepts the rows after the first five commands, and the loaded configuration its caps
      and rates. */
  lemma StartUpIsAccepted()
    ensures ConfigCommitted(GatewayOne(), Small, RowsAfter(5))
    ensures PlansCommitted(GatewayOne(), Small, RowsAfter(5).budget.reservations)
    ensures CapsParse(Small) && RatesAdmitted(GatewayOne().price, Small)
  {
    hide RowsAfter, After, ConfigCommitted, PlanCommitted, CapsParse, RatesAdmitted, Small, PlanOf, Digest, Architect, Coach, Judge,
      RepresentativeSkills, TextOf, AuthorizedAlias;
    EachCallCommits(5);
    NamesDiffer();
    ConfigStartsUp(RowsAfter(5));
    PlanStartsUp(RowsAfter(5), Architect, 2);
    PlanStartsUp(RowsAfter(5), Coach, 3);
    PlanStartsUp(RowsAfter(5), Judge, 4);
    RatesStartUp();
  }

  lemma RowOfPlan(n: nat)
    requires 2 <= n <= 4
    ensures V4(10 * (n + 1)) in Rows(5) && Rows(5)[V4(10 * (n + 1))] == Held(n + 1)
  {
    hide Held;
  }

  // ---------- the run ----------

  /** The one thread, wherever it got, over unchanged rows. */
  ghost predicate Stands(w: World, db: Tables, p: Phase, calls: seq<nat>) {
    && w.db == db && w.calls == calls && w.settlements == []
    && w.threads == map[0 := Thread(SessionOne(), Ask(), if p.Arrived? then None else Some(PlanOne()), p)]
    && (p.Arrived? ==> w.claimed == {})
  }

  lemma MarkerIsAccepted()
    ensures MarkerAccepted(Ask(), Marker(2))
  {
    MarkerIsCanonical(2);
    hide IsMarker, TextOf, Marker, Carries;
    MarkerCarriesItself(Marker(2));
    assert LastUserContent(Ask()) == Text(Marker(2));
  }

  lemma PlanIsClaimable()
    ensures Claimable(GatewayOne().plans, {}, SessionOne(), Ask()) == Some(PlanOne())
  {
    DigestsDiffer();
    NamesDiffer();
    MarkerIsAccepted();
    hide MarkerAccepted, Marker, Digest, RepresentativeSkills, Architect, Coach, Judge, PlanOf, AuthorizedAlias;
  }

  lemma ClaimsPlan(w: World, db: Tables)
    requires Stands(w, db, Arrived, [])
    ensures Stands(Next(GatewayOne(), w, Claim(0)), db, Planned, [])
  {
    hide Claimable, ClaimedAfter, Step, GatewayOne, SessionOne, Ask, PlanOne;
    PlanIsClaimable();
  }

  lemma ServiceMayRead(db: Tables)
    requires After(db, 5)
    ensures MayRead(GatewayOne(), db.core)
  {
    hide UsedUpTo, BudgetAfter, Plans3, TextOf;
  }

  lemma MembersHaveAProgram(env: Env, core: Core)
    requires MayRead(env, core)
    ensures !ReadEscapes(env, core)
  {
  }

  lemma ConfigIsCommitted(db: Tables)
    requires After(db, 5)
    ensures ConfigPhase(GatewayOne(), db, true) == ConfigRead(Small)
  {
    hide UsedUpTo, HasService, MayRead, Plans3, TextOf, Rows;
    ServiceMayRead(db);
    assert !ReadEscapes(GatewayOne(), db.core) by { MembersHaveAProgram(GatewayOne(), db.core); }
    hide ReadEscapes;
  }

  lemma ReservationIsCommitted(db: Tables)
    requires After(db, 5)
    ensures ReservationPhase(GatewayOne(), db, Small, PlanOne()) == ReservationRead(Small, Held(3))
  {
    hide UsedUpTo, HasService, MayRead, Plans3, TextOf, Rows, PlanOne;
    ServiceMayRead(db);
    RowOfPlan(2);
    assert !ReadEscapes(GatewayOne(), db.core) by { MembersHaveAProgram(GatewayOne(), db.core); }
    hide ReadEscapes;
  }

  lemma RequestFits(a: Action)
    requires a == StoreManifest(0, true, WireBytes, Digest('a'), true)
    ensures ManifestPhase(Small, Held(3), a) == ManifestStored(Small, Held(3), Digest('a'), WireBytes)
  {
    hide Digest;
  }

  lemma ReadsRows(w: World, db: Tables)
    requires After(db, 5) && Stands(w, db, Planned, [])
    ensures Stands(Next(GatewayOne(), w, ReadConfig(0, true)), db, ConfigRead(Small), [])
  {
    hide After, Step, ConfigPhase, GatewayOne, SessionOne, PlanOne, Ask, Small;
    ConfigIsCommitted(db);
  }

  lemma ReadsReservation(w: World, db: Tables)
    requires After(db, 5) && Stands(w, db, ConfigRead(Small), [])
    ensures Stands(Next(GatewayOne(), w, ReadReservation(0)), db, ReservationRead(Small, Held(3)), [])
  {
    hide After, Step, ReservationPhase, Held, GatewayOne, SessionOne, PlanOne, Ask, Small;
    ReservationIsCommitted(db);
  }

  lemma StoresManifest(w: World, db: Tables, a: Action)
    requires Stands(w, db, ReservationRead(Small, Held(3)), []) && a == StoreManifest(0, true, WireBytes, Digest('a'), true)
    ensures Stands(Next(GatewayOne(), w, a), db, ManifestStored(Small, Held(3), Digest('a'), WireBytes), [])
  {
    hide Step, ManifestPhase, Held, Digest, GatewayOne, SessionOne, PlanOne, Ask, Small;
    RequestFits(a);
  }

  lemma CallsProvider(w: World, db: Tables, config: RuntimeConfig, row: Reservation, sha: string, bytes: nat)
    requires Stands(w, db, ManifestStored(config, row, sha, bytes), [])
    ensures Stands(Next(GatewayOne(), w, StartCall(0)), db, Calling(config, row, sha, bytes), [0])
  {
    hide Step, GatewayOne, SessionOne, PlanOne, Ask;
  }

  lemma HasSpace()
    ensures !IsStableIdentifier("a b")
  {
    assert "a b"[1] == ' ';
  }

  lemma LosesAnswer(w: World, db: Tables, config: RuntimeConfig, row: Reservation, sha: string, bytes: nat, reply: Reply)
    requires Stands(w, db, Calling(config, row, sha, bytes), [0]) && reply.Answered? && !IsStableIdentifier(reply.requestId)
    ensures Stands(Next(GatewayOne(), w, EndCall(0, reply)), db, Escaped(BeforeSettling), [0])
  {
    hide Step, IsStableIdentifier, ReportOf, GatewayOne, SessionOne, PlanOne, Ask;
  }

  lemma {:induction false} ScriptRuns(db: Tables)
    requires After(db, 5)
    ensures Stands(Reached(GatewayOne(), db, Script()[..3]), db, ConfigRead(Small), [])
    ensures Stands(Reached(GatewayOne(), db, Script()[..6]), db, Calling(Small, Held(3), Digest('a'), WireBytes), [0])
    ensures Stands(Reached(GatewayOne(), db, Script()), db, Escaped(BeforeSettling), [0])
  {
    hide After, Next, Stands, Held, Digest, IsStableIdentifier, GatewayOne, SessionOne, PlanOne, Ask, Small;
    var env, s := GatewayOne(), Script();
    assert s[..1] == [] + [s[0]] && s[..2] == s[..1] + [s[1]] && s[..3] == s[..2] + [s[2]] && s[..4] == s[..3] + [s[3]];
    assert s[..5] == s[..4] + [s[4]] && s[..6] == s[..5] + [s[5]] && s == s[..6] + [s[6]];
    FirstArrives(db);
    ReachedOneMore(env, db, s[..1], s[1]);
    ClaimsPlan(Reached(env, db, s[..1]), db);
    ReachedOneMore(env, db, s[..2], s[2]);
    ReadsRows(Reached(env, db, s[..2]), db);
    ReachedOneMore(env, db, s[..3], s[3]);
    ReadsReservation(Reached(env, db, s[..3]), db);
    ReachedOneMore(env, db, s[..4], s[4]);
    StoresManifest(Reached(env, db, s[..4]), db, s[4]);
    ReachedOneMore(env, db, s[..5], s[5]);
    CallsProvider(Reached(env, db, s[..5]), db, Small, Held(3), Digest('a'), WireBytes);
    ReachedOneMore(env, db, s[..6], s[6]);
    HasSpace();
    LosesAnswer(Reached(env, db, s[..6]), db, Small, Held(3), Digest('a'), WireBytes, BadAnswer());
  }

  lemma {:induction false} FirstArrives(db: Tables)
    ensures Stands(Reached(GatewayOne(), db, [Script()[0]]), db, Arrived, [])
  {
    hide GatewayOne, SessionOne, PlanOne, Marker, Digest, Step;
    ReachedOneMore(GatewayOne(), db, [], Script()[0]);
    assert [] + [Script()[0]] == [Script()[0]];
  }

  /** From the empty rows, after commands, plans and a start-up check that are all accepted: one request, one
      Provider call. The caller is finished, no settlement was attempted and the reservation is still reserved. */
  lemma AnUnsettledCallIsReachable()
    ensures
      var w := Reached(GatewayOne(), RowsAfter(5), Script());
      && 0 in w.threads && Finished(w.threads[0].phase) && AnswerOf(w.threads[0].phase) == GatewayUnavailable
      && 0 in w.calls && 0 !in w.settlements
      && V4(30) in w.db.budget.reservations && w.db.budget.reservations[V4(30)].status == Reserved
  {
    hide Script, Reached, RowsAfter, After, Step, GatewayOne, SessionOne, PlanOne, Ask, Small;
    EachCallCommits(5);
    StillReserved(RowsAfter(5));
    ScriptRuns(RowsAfter(5));
  }

  /** The same answer also reaches a request that never called: it decides nothing. */
  lemma TheSameAnswerWithoutACall()
    ensures
      var w := Reached(GatewayOne(), RowsAfter(5), Script()[..3] + [Escape(0)]);
      && 0 in w.threads && Finished(w.threads[0].phase) && AnswerOf(w.threads[0].phase) == GatewayUnavailable && 0 !in w.calls
  {
    hide Script, Reached, RowsAfter, After, Step, GatewayOne, SessionOne, PlanOne, Ask, Small;
    EachCallCommits(5);
    ScriptRuns(RowsAfter(5));
    ReachedOneMore(GatewayOne(), RowsAfter(5), Script()[..3], Escape(0));
  }

  lemma StillReserved(db: Tables)
    requires After(db, 5)
    ensures V4(30) in db.budget.reservations && db.budget.reservations[V4(30)].status == Reserved
  {
    hide UsedUpTo, Rows;
    RowOfPlan(2);
  }
}
