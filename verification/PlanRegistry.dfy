/** Single-use invocation plans: parsing them, and claiming each one at most once. */
module PlanRegistry {
  import opened Base
  import opened MarkerScan
  import Plans

  /** A committed object that a call may use. */
  datatype PlanRef = PlanRef(objectType: string, objectId: string, objectVersion: string, contentSha256: string)

  datatype InvocationPlan = InvocationPlan(
    modelCall: Uuid,
    reservation: Uuid,
    skill: string,
    skillVersion: string,
    marker: Option<string>,
    objectRefs: seq<PlanRef>,
    exclusions: seq<string>)

  /** Plans with a canonical marker or none, as their constructor enforces. */
  type PlanTable = plans: map<string, InvocationPlan> |
    forall f :: f in plans && plans[f].marker.Some? ==> IsMarker(plans[f].marker.value)
    witness map[]

  datatype Session = Session(fingerprint: string, skillVersions: map<string, string>)

  /** What one claim answers. */
  ghost function Claimable(plans: PlanTable, claimed: set<string>, s: Session, messages: seq<Message>): Option<InvocationPlan> {
    if s.fingerprint in claimed || s.fingerprint !in plans then None
    else
      var plan := plans[s.fingerprint];
      if plan.skill !in s.skillVersions || s.skillVersions[plan.skill] != plan.skillVersion then None
      else if plan.marker.Some? && !MarkerAccepted(messages, plan.marker.value) then None
      else Some(plan)
  }

  ghost predicate MarkerAccepted(messages: seq<Message>, marker: string) {
    var texts := Texts(LastUserContent(messages));
    texts.Some? && Carries(texts.value, marker)
  }

  ghost function ClaimedAfter(plans: PlanTable, claimed: set<string>, s: Session, messages: seq<Message>): set<string> {
    if Claimable(plans, claimed, s, messages).Some? then claimed + {s.fingerprint} else claimed
  }

  /** A plan of the table that nobody claimed yet, for a session that has its skill at its version, named by the
      marker in the last user message when it has one. */
  ghost predicate MayClaim(plans: PlanTable, claimed: set<string>, s: Session, messages: seq<Message>) {
    && s.fingerprint in plans && s.fingerprint !in claimed
    && var plan := plans[s.fingerprint];
    && plan.skill in s.skillVersions && s.skillVersions[plan.skill] == plan.skillVersion
    && (plan.marker.Some? ==>
          Texts(LastUserContent(messages)).Some? && Carries(Texts(LastUserContent(messages)).value, plan.marker.value))
  }

  class SingleUsePlanRegistry {
    const plans: PlanTable
    var claimed: set<string>

    constructor (plans: PlanTable)
      ensures this.plans == plans && claimed == {}
    {
      this.plans := plans;
      claimed := {};
    }

    /** One section under the lock. A refused claim leaves the registry as it was. */
    method Claim(s: Session, messages: seq<Message>) returns (plan: Option<InvocationPlan>)
      modifies this`claimed
      ensures plan == Claimable(plans, old(claimed), s, messages)
      ensures claimed == ClaimedAfter(plans, old(claimed), s, messages)
      ensures plan.Some? <==> MayClaim(plans, old(claimed), s, messages)
      ensures plan.None? ==> claimed == old(claimed)
      ensures plan.Some? ==> s.fingerprint !in old(claimed) && claimed == old(claimed) + {s.fingerprint} && plan.value == plans[s.fingerprint]
    {
      if s.fingerprint in claimed { return None; }
      if s.fingerprint !in plans { return None; }
      var found := plans[s.fingerprint];
      if found.skill !in s.skillVersions || s.skillVersions[found.skill] != found.skillVersion { return None; }
      if found.marker.Some? {
        var accepted := LastUserContentContainsMarker(messages, found.marker.value);
        if !accepted { return None; }
      }
      claimed := claimed + {s.fingerprint};
      return Some(found);
    }
  }

  // ---------- parsing ----------

  datatype PlanRow = PlanRow(
    identity: string,
    modelCall: Uuid,
    reservation: Uuid,
    skill: string,
    skillVersion: string,
    marker: string,
    objectRefs: seq<PlanRef>,
    exclusions: seq<string>)

  /** The skill each identity stands for, and the registered identity, skill and version combinations. */
  datatype Registry = Registry(skillOf: map<string, string>, allows: (string, string, string) -> bool)

  predicate SkillAccepted(row: PlanRow, registry: Registry) {
    && row.identity in registry.skillOf && registry.skillOf[row.identity] == row.skill
    && registry.allows(row.identity, row.skill, row.skillVersion)
  }

  predicate IsShortText(s: string, max: nat) { 1 <= |s| <= max }

  predicate RefAccepted(r: PlanRef) {
    && IsShortText(r.objectType, 256) && IsShortText(r.objectId, 256) && IsShortText(r.objectVersion, 256)
    && IsSha256(r.contentSha256)
  }

  predicate RefsAccepted(refs: seq<PlanRef>) {
    1 <= |refs| <= 8 && forall i :: 0 <= i < |refs| ==> RefAccepted(refs[i])
  }

  predicate ExclusionsAccepted(exclusions: seq<string>) {
    && 1 <= |exclusions| <= 16 && (forall i :: 0 <= i < |exclusions| ==> IsShortText(exclusions[i], 128))
    && Plans.Distinct(exclusions)
  }

  predicate RowAccepted(row: PlanRow, textOf: Uuid -> string, registry: Registry) {
    && IsMarker(row.marker) && row.marker == Prefix + textOf(row.modelCall)
    && SkillAccepted(row, registry) && ExclusionsAccepted(row.exclusions) && RefsAccepted(row.objectRefs)
  }

  predicate DistinctRows(rows: seq<PlanRow>) {
    forall i, j :: 0 <= i < j < |rows| ==> rows[i].modelCall != rows[j].modelCall && rows[i].reservation != rows[j].reservation
  }

  function ToPlan(row: PlanRow): InvocationPlan {
    InvocationPlan(row.modelCall, row.reservation, row.skill, row.skillVersion, Some(row.marker), row.objectRefs, row.exclusions)
  }

  /** A plan carries its row over, the identity left out. */
  predicate CarriesRow(plan: InvocationPlan, row: PlanRow) {
    && plan.modelCall == row.modelCall && plan.reservation == row.reservation && plan.marker == Some(row.marker)
    && plan.skill == row.skill && plan.skillVersion == row.skillVersion
    && plan.objectRefs == row.objectRefs && plan.exclusions == row.exclusions
  }

  function CallIds(rows: seq<PlanRow>): set<Uuid> { set row | row in rows :: row.modelCall }
  function ReservationIds(rows: seq<PlanRow>): set<Uuid> { set row | row in rows :: row.reservation }

  lemma OneMoreRow(rows: seq<PlanRow>, i: nat)
    requires i < |rows|
    ensures CallIds(rows[..i + 1]) == CallIds(rows[..i]) + {rows[i].modelCall}
    ensures ReservationIds(rows[..i + 1]) == ReservationIds(rows[..i]) + {rows[i].reservation}
  {
    assert rows[..i + 1] == rows[..i] + [rows[i]];
  }

  lemma FreshRow(rows: seq<PlanRow>, i: nat)
    requires i < |rows| && DistinctRows(rows[..i])
    requires rows[i].modelCall !in CallIds(rows[..i]) && rows[i].reservation !in ReservationIds(rows[..i])
    ensures DistinctRows(rows[..i + 1])
  {
    forall k | 0 <= k < i ensures rows[k].modelCall != rows[i].modelCall && rows[k].reservation != rows[i].reservation {
      assert rows[k] in rows[..i];
    }
    hide CallIds, ReservationIds;
    forall j, k | 0 <= j < k < i ensures rows[j].modelCall != rows[k].modelCall && rows[j].reservation != rows[k].reservation {
      assert rows[..i][j] == rows[j] && rows[..i][k] == rows[k];
    }
  }

  lemma RepeatedRow(rows: seq<PlanRow>, i: nat)
    requires i < |rows|
    requires rows[i].modelCall in CallIds(rows[..i]) || rows[i].reservation in ReservationIds(rows[..i])
    ensures !DistinctRows(rows)
  {
    var row :| row in rows[..i] && (row.modelCall == rows[i].modelCall || row.reservation == rows[i].reservation);
    var k :| 0 <= k < i && rows[k] == row;
  }

  /** The list is accepted by the size of its set, which says that nothing in it is repeated. */
  method CheckExclusions(exclusions: seq<string>) returns (ok: bool)
    ensures ok <==> ExclusionsAccepted(exclusions)
  {
    Plans.DistinctHasFullCardinality(exclusions);
    ok := 1 <= |exclusions| <= 16 && (forall i :: 0 <= i < |exclusions| ==> IsShortText(exclusions[i], 128))
      && |Plans.Elements(exclusions)| == |exclusions|;
  }

  /** Accepts a list of plans exactly when every row is in form, its skill is registered for its identity,
      its marker names its call, and no identifier is used twice. */
  method ParsePlans(rows: seq<PlanRow>, textOf: Uuid -> string, registry: Registry) returns (plans: Option<seq<InvocationPlan>>)
    ensures plans.Some? <==> (forall i :: 0 <= i < |rows| ==> RowAccepted(rows[i], textOf, registry)) && DistinctRows(rows)
    ensures plans.Some? ==> |plans.value| == |rows| && forall i :: 0 <= i < |rows| ==> plans.value[i] == ToPlan(rows[i])
    ensures plans.Some? ==> forall i :: 0 <= i < |rows| ==> CarriesRow(plans.value[i], rows[i])
  {
    hide IsMarker, DistinctRows, CallIds, ReservationIds, SkillAccepted, ExclusionsAccepted, RefsAccepted;
    var callIds: set<Uuid>, reservationIds: set<Uuid>, parsed: seq<InvocationPlan> := {}, {}, [];
    NoRows();
    for i := 0 to |rows|
      invariant forall k :: 0 <= k < i ==> RowAccepted(rows[k], textOf, registry)
      invariant DistinctRows(rows[..i]) && callIds == CallIds(rows[..i]) && reservationIds == ReservationIds(rows[..i])
      invariant |parsed| == i && forall k :: 0 <= k < i ==> parsed[k] == ToPlan(rows[k])
    {
      var row := rows[i];
      OneMoreRow(rows, i);
      if !IsMarker(row.marker) || row.marker != Prefix + textOf(row.modelCall) { return None; }
      if !SkillAccepted(row, registry) { return None; }
      var accepted := CheckExclusions(row.exclusions);
      if !accepted { return None; }
      if row.modelCall in callIds || row.reservation in reservationIds {
        RepeatedRow(rows, i);
        return None;
      }
      FreshRow(rows, i);
      if !RefsAccepted(row.objectRefs) { return None; }
      callIds, reservationIds := callIds + {row.modelCall}, reservationIds + {row.reservation};
      parsed := parsed + [ToPlan(row)];
    }
    assert rows[..|rows|] == rows;
    return Some(parsed);
  }

  lemma NoRows()
    ensures CallIds([]) == {} && ReservationIds([]) == {} && DistinctRows([])
  {
  }

  /** No two fingerprints lead to the same reservation. */
  ghost predicate OneFingerprintPerReservation(plans: map<string, InvocationPlan>) {
    forall f, g :: f in plans && g in plans && plans[f].reservation == plans[g].reservation ==> f == g
  }

  /** The table {fingerprint of identity: plan}; a later identity with the same fingerprint wins. */
  function TableOf(rows: seq<PlanRow>, fingerprint: string -> string): map<string, InvocationPlan> {
    if rows == [] then map[]
    else
      var last := rows[|rows| - 1];
      TableOf(rows[..|rows| - 1], fingerprint)[fingerprint(last.identity) := ToPlan(last)]
  }

  predicate FromRow(rows: seq<PlanRow>, fingerprint: string -> string, f: string, plan: InvocationPlan, i: int) {
    0 <= i < |rows| && fingerprint(rows[i].identity) == f && plan == ToPlan(rows[i])
  }

  lemma {:induction false} TableHoldsRow(rows: seq<PlanRow>, fingerprint: string -> string, f: string) returns (i: nat)
    requires f in TableOf(rows, fingerprint)
    ensures FromRow(rows, fingerprint, f, TableOf(rows, fingerprint)[f], i)
  {
    var front, last := rows[..|rows| - 1], rows[|rows| - 1];
    if f == fingerprint(last.identity) {
      i := |rows| - 1;
    } else {
      i := TableHoldsRow(front, fingerprint, f);
    }
  }

  /** Parsed plans give every reservation to one credential only. */
  lemma ParsedPlansDoNotShareReservations(rows: seq<PlanRow>, fingerprint: string -> string)
    requires DistinctRows(rows)
    ensures OneFingerprintPerReservation(TableOf(rows, fingerprint))
  {
    var table := TableOf(rows, fingerprint);
    forall f, g | f in table && g in table && table[f].reservation == table[g].reservation ensures f == g {
      var i := TableHoldsRow(rows, fingerprint, f);
      var j := TableHoldsRow(rows, fingerprint, g);
    }
  }
}
