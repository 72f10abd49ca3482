/** Plan contents and the six registered plan changes
    (src/awakening/state/service.py, _apply_change and _task_records). */
module Plans {
  import opened Base

  datatype Task = Task(key: string, title: string, order: int)

  datatype Plan = Plan(targetRole: string, durationWeeks: int, coreProject: string, rubric: string, tasks: seq<Task>)

  datatype Change =
    | ReorderTasks(taskOrder: seq<string>)
    | ChangeTargetRole(targetRole: string)
    | ReplaceCoreProject(coreProject: string)
    | ChangeDuration(durationWeeks: int)
    | ChangeRubric(rubric: string)
    | RestorePlan(target: Uuid)
    | Unregistered(name: string)

  /** SHA-256 of the canonical JSON of a plan, taken as injective. */
  datatype PlanHash = Sha256OfPlan(content: Plan)

  /** The reviewed difference; its own SHA-256 is again taken as injective. */
  datatype Diff = Diff(change: ChangeType, base: Uuid, before: PlanHash, after: PlanHash)
  datatype DiffHash = Sha256OfDiff(diff: Diff)

  datatype ChangeType = Reorder | TargetRole | CoreProject | Duration | Rubric | Restore | UnknownType

  function TypeOf(change: Change): ChangeType {
    match change
    case ReorderTasks(_) => Reorder
    case ChangeTargetRole(_) => TargetRole
    case ReplaceCoreProject(_) => CoreProject
    case ChangeDuration(_) => Duration
    case ChangeRubric(_) => Rubric
    case RestorePlan(_) => Restore
    case Unregistered(_) => UnknownType
  }

  datatype TaskRow = TaskRow(taskKey: string, position: int, title: string)

  function Keys(tasks: seq<Task>): (keys: seq<string>)
    ensures |keys| == |tasks| && forall i :: 0 <= i < |tasks| ==> keys[i] == tasks[i].key
  {
    seq(|tasks|, i requires 0 <= i < |tasks| => tasks[i].key)
  }

  /** Rows written for one stored plan version. */
  function TaskRows(plan: Plan): (rows: seq<TaskRow>)
  {
    seq(|plan.tasks|, i requires 0 <= i < |plan.tasks| =>
      TaskRow(plan.tasks[i].key, plan.tasks[i].order, plan.tasks[i].title))
  }

  /** The dictionary from key to task: with a repeated key the last task wins. */
  function ByKey(tasks: seq<Task>): (table: map<string, Task>)
    ensures table.Keys == set t | t in tasks :: t.key
    ensures forall k :: k in table ==> table[k] in tasks && table[k].key == k
  {
    if tasks == [] then map[]
    else
      var last := tasks[|tasks| - 1];
      assert tasks == tasks[..|tasks| - 1] + [last];
      ByKey(tasks[..|tasks| - 1])[last.key := last]
  }

  function Elements<T>(s: seq<T>): set<T> {
    set x | x in s
  }

  predicate AcceptsOrder(tasks: seq<Task>, requested: seq<string>) {
    Elements(requested) == ByKey(tasks).Keys && |requested| == |tasks|
  }

  function Reordered(tasks: seq<Task>, requested: seq<string>): seq<Task>
    requires AcceptsOrder(tasks, requested)
  {
    var table := ByKey(tasks);
    assert forall i :: 0 <= i < |requested| ==> requested[i] in Elements(requested);
    seq(|requested|, i requires 0 <= i < |requested| => table[requested[i]].(order := i))
  }

  /** One plan change against a base, where `stored` holds the contents a restore may name. */
  function ApplyChange(stored: map<Uuid, Plan>, base: Plan, change: Change): Result<Plan, Rejection> {
    match change
    case ReorderTasks(requested) =>
      if AcceptsOrder(base.tasks, requested) then Ok(base.(tasks := Reordered(base.tasks, requested)))
      else Err(Rejection(StateTransitionInvalid, OrderIsNotARearrangement))
    case ChangeTargetRole(role) => Ok(base.(targetRole := role))
    case ReplaceCoreProject(project) => Ok(base.(coreProject := project))
    case ChangeDuration(weeks) => Ok(base.(durationWeeks := weeks))
    case ChangeRubric(rubric) => Ok(base.(rubric := rubric))
    case RestorePlan(target) =>
      if target in stored then Ok(stored[target])
      else Err(Rejection(NotFound, RestoreTargetNotFound))
    case Unregistered(_) =>
      Err(Rejection(CommandNotRegistered, ChangeNotRegistered))
  }

  predicate UniqueKeys(tasks: seq<Task>) {
    forall i, j :: 0 <= i < j < |tasks| ==> tasks[i].key != tasks[j].key
  }

  predicate UniqueOrders(tasks: seq<Task>) {
    forall i, j :: 0 <= i < j < |tasks| ==> tasks[i].order != tasks[j].order
  }

  /** What program creation checks and every later change has to keep. */
  predicate WellFormed(plan: Plan) {
    plan.tasks != [] && UniqueKeys(plan.tasks) && UniqueOrders(plan.tasks)
  }

  function Label(t: Task): (string, string) { (t.key, t.title) }

  function Labels(tasks: seq<Task>): (labels: seq<(string, string)>)
    ensures |labels| == |tasks| && forall i :: 0 <= i < |tasks| ==> labels[i] == Label(tasks[i])
  {
    seq(|tasks|, i requires 0 <= i < |tasks| => Label(tasks[i]))
  }

  // ---------- lists without repetition ----------

  predicate Distinct<T(==)>(s: seq<T>) {
    forall i, j :: 0 <= i < j < |s| ==> s[i] != s[j]
  }

  lemma {:induction false} DistinctHasFullCardinality<T>(s: seq<T>)
    ensures |Elements(s)| <= |s|
    ensures Distinct(s) <==> |Elements(s)| == |s|
  {
    if s != [] {
      var front, last := s[..|s| - 1], s[|s| - 1];
      DistinctHasFullCardinality(front);
      assert Elements(s) == Elements(front) + {last};
      if last in front {
        assert Elements(s) == Elements(front);
        var i :| 0 <= i < |front| && front[i] == last;
        assert s[i] == s[|s| - 1];
      } else if Distinct(front) {
        assert forall i :: 0 <= i < |front| ==> s[i] in front;
      } else {
        var i, j :| 0 <= i < j < |front| && front[i] == front[j];
        assert s[i] == s[j];
      }
    }
  }

  lemma {:induction false} DistinctIsItsSet<T>(s: seq<T>)
    requires Distinct(s)
    ensures multiset(s) == multiset(Elements(s))
  {
    if s != [] {
      var front, last := s[..|s| - 1], s[|s| - 1];
      DistinctIsItsSet(front);
      assert s == front + [last];
      assert Elements(s) == Elements(front) + {last};
    }
  }

  // ---------- reorder ----------

  lemma {:induction false} ByKeyFinds(tasks: seq<Task>, i: nat)
    requires UniqueKeys(tasks) && i < |tasks|
    ensures tasks[i].key in ByKey(tasks) && ByKey(tasks)[tasks[i].key] == tasks[i]
  {
    assert tasks[i] in tasks;
    if i < |tasks| - 1 {
      ByKeyFinds(tasks[..|tasks| - 1], i);
    }
  }

  lemma KeysOfTable(tasks: seq<Task>)
    ensures Elements(Keys(tasks)) == ByKey(tasks).Keys
  {
    forall t | t in tasks ensures t.key in Elements(Keys(tasks)) {
      var i :| 0 <= i < |tasks| && tasks[i] == t;
      assert Keys(tasks)[i] == t.key;
    }
    assert forall k :: k in Elements(Keys(tasks)) ==> exists t :: t in tasks && t.key == k;
  }

  lemma EqualMultisetsEqualElements<T>(s: seq<T>, t: seq<T>)
    requires multiset(s) == multiset(t)
    ensures Elements(s) == Elements(t) && |s| == |t|
  {
    assert forall x :: x in s <==> x in multiset(s);
    assert forall x :: x in t <==> x in multiset(t);
    assert |multiset(s)| == |multiset(t)|;
  }

  /** Set equality plus length equality is enough: by counting, an order is accepted exactly when
      it is a rearrangement of the current task keys. */
  lemma AcceptedOrdersAreRearrangements(tasks: seq<Task>, requested: seq<string>)
    requires UniqueKeys(tasks)
    ensures AcceptsOrder(tasks, requested) <==> multiset(requested) == multiset(Keys(tasks))
    ensures AcceptsOrder(tasks, requested) ==> Distinct(requested)
  {
    var keys := Keys(tasks);
    KeysOfTable(tasks);
    DistinctHasFullCardinality(keys);
    if AcceptsOrder(tasks, requested) {
      DistinctHasFullCardinality(requested);
      DistinctIsItsSet(keys);
      DistinctIsItsSet(requested);
    }
    if multiset(requested) == multiset(keys) {
      EqualMultisetsEqualElements(requested, keys);
    }
  }

  lemma LabelSurvives(tasks: seq<Task>, requested: seq<string>, i: nat)
    requires UniqueKeys(tasks) && AcceptsOrder(tasks, requested) && i < |tasks|
    ensures Labels(tasks)[i] in Labels(Reordered(tasks, requested))
  {
    ByKeyFinds(tasks, i);
    assert tasks[i].key in Elements(requested);
    var j :| 0 <= j < |requested| && requested[j] == tasks[i].key;
    assert Labels(Reordered(tasks, requested))[j] == Labels(tasks)[i];
  }

  lemma LabelIsOld(tasks: seq<Task>, requested: seq<string>, j: nat)
    requires AcceptsOrder(tasks, requested) && j < |requested|
    ensures Labels(Reordered(tasks, requested))[j] in Labels(tasks)
  {
    assert requested[j] in Elements(requested);
    var t := ByKey(tasks)[requested[j]];
    var i :| 0 <= i < |tasks| && tasks[i] == t;
    assert Labels(tasks)[i] == Label(t);
  }

  lemma ReorderedKeys(tasks: seq<Task>, requested: seq<string>)
    requires AcceptsOrder(tasks, requested)
    ensures Keys(Reordered(tasks, requested)) == requested
    ensures forall i :: 0 <= i < |requested| ==> Reordered(tasks, requested)[i].order == i
  {
    assert forall i :: 0 <= i < |requested| ==> requested[i] in Elements(requested);
  }

  /** An accepted reorder yields the same tasks, in the requested order, renumbered 0..n-1. */
  lemma ReorderIsPermutation(tasks: seq<Task>, requested: seq<string>)
    requires UniqueKeys(tasks) && AcceptsOrder(tasks, requested)
    ensures Keys(Reordered(tasks, requested)) == requested
    ensures forall i :: 0 <= i < |tasks| ==> Reordered(tasks, requested)[i].order == i
    ensures multiset(Labels(Reordered(tasks, requested))) == multiset(Labels(tasks))
  {
    AcceptedOrdersAreRearrangements(tasks, requested);
    ReorderedKeys(tasks, requested);
    var old', new' := Labels(tasks), Labels(Reordered(tasks, requested));
    SameLabels(tasks, requested);
    hide AcceptsOrder, Reordered, Elements;
    assert Distinct(old');
    LabelsAreDistinct(Reordered(tasks, requested));
    DistinctIsItsSet(old');
    DistinctIsItsSet(new');
  }

  lemma LabelsAreDistinct(tasks: seq<Task>)
    requires Distinct(Keys(tasks))
    ensures Distinct(Labels(tasks))
  {
    assert forall i :: 0 <= i < |tasks| ==> Labels(tasks)[i].0 == Keys(tasks)[i];
  }

  lemma SameLabels(tasks: seq<Task>, requested: seq<string>)
    requires UniqueKeys(tasks) && AcceptsOrder(tasks, requested)
    ensures Elements(Labels(tasks)) == Elements(Labels(Reordered(tasks, requested)))
  {
    AcceptedOrdersAreRearrangements(tasks, requested);
    var old', new' := Labels(tasks), Labels(Reordered(tasks, requested));
    forall l | l in old' ensures l in new' {
      var i :| 0 <= i < |tasks| && old'[i] == l;
      LabelSurvives(tasks, requested, i);
    }
    forall l | l in new' ensures l in old' {
      var j :| 0 <= j < |requested| && new'[j] == l;
      LabelIsOld(tasks, requested, j);
    }
    assert Elements(old') == Elements(new');
  }

  /** Every accepted change of any of the six types keeps task keys and orders unique. */
  lemma ChangeKeepsWellFormed(stored: map<Uuid, Plan>, base: Plan, change: Change)
    requires WellFormed(base) && forall u :: u in stored ==> WellFormed(stored[u])
    requires ApplyChange(stored, base, change).Ok?
    ensures WellFormed(ApplyChange(stored, base, change).value)
  {
    if change.ReorderTasks? {
      ReorderIsPermutation(base.tasks, change.taskOrder);
      AcceptedOrdersAreRearrangements(base.tasks, change.taskOrder);
      var result := Reordered(base.tasks, change.taskOrder);
      assert forall i :: 0 <= i < |result| ==> Keys(result)[i] == result[i].key;
    }
  }

  // ---------- what a change means ----------

  /** The plan that a change asks for: the named field takes the named value and everything else stays, a
      reorder keeps the tasks and numbers them in the named order, a restore is the stored content. */
  predicate Describes(stored: map<Uuid, Plan>, base: Plan, change: Change, result: Plan) {
    match change
    case ReorderTasks(order) =>
      && Keys(result.tasks) == order && (forall i :: 0 <= i < |result.tasks| ==> result.tasks[i].order == i)
      && multiset(Labels(result.tasks)) == multiset(Labels(base.tasks))
      && result == Plan(base.targetRole, base.durationWeeks, base.coreProject, base.rubric, result.tasks)
    case ChangeTargetRole(role) => result == Plan(role, base.durationWeeks, base.coreProject, base.rubric, base.tasks)
    case ReplaceCoreProject(project) => result == Plan(base.targetRole, base.durationWeeks, project, base.rubric, base.tasks)
    case ChangeDuration(weeks) => result == Plan(base.targetRole, weeks, base.coreProject, base.rubric, base.tasks)
    case ChangeRubric(rubric) => result == Plan(base.targetRole, base.durationWeeks, base.coreProject, rubric, base.tasks)
    case RestorePlan(target) => target in stored && result == stored[target]
    case Unregistered(_) => false
  }

  /** When there is such a plan. */
  predicate Possible(stored: map<Uuid, Plan>, base: Plan, change: Change) {
    match change
    case ReorderTasks(order) => multiset(order) == multiset(Keys(base.tasks))
    case RestorePlan(target) => target in stored
    case Unregistered(_) => false
    case _ => true
  }

  lemma LabelsGiveKeys(tasks: seq<Task>, others: seq<Task>)
    requires multiset(Labels(tasks)) == multiset(Labels(others))
    ensures Elements(Keys(tasks)) <= Elements(Keys(others)) && |tasks| == |others|
  {
    EqualMultisetsEqualElements(Labels(tasks), Labels(others));
    forall k | k in Keys(tasks) ensures k in Keys(others) {
      var i :| 0 <= i < |tasks| && Keys(tasks)[i] == k;
      assert Labels(tasks)[i] in Elements(Labels(others));
      var j :| 0 <= j < |others| && Labels(others)[j] == Labels(tasks)[i];
      assert Keys(others)[j] == k;
    }
  }

  /** Two tasks of one list with the same key are the same task, so a label in both lists fixes the title. */
  lemma SameKeySameTitle(base: seq<Task>, tasks: seq<Task>, i: nat, j: nat)
    requires UniqueKeys(base) && i < |tasks| && j < |base| && tasks[i].key == base[j].key
    requires multiset(Labels(tasks)) == multiset(Labels(base))
    ensures tasks[i].title == base[j].title
  {
    EqualMultisetsEqualElements(Labels(tasks), Labels(base));
    assert Labels(tasks)[i] in Elements(Labels(base));
    var k :| 0 <= k < |base| && Labels(base)[k] == Labels(tasks)[i];
    assert k == j;
  }

  /** A described reorder is the computed one. */
  lemma DescribedReorder(base: seq<Task>, order: seq<string>, tasks: seq<Task>)
    requires UniqueKeys(base) && Keys(tasks) == order && (forall i :: 0 <= i < |tasks| ==> tasks[i].order == i)
    requires multiset(Labels(tasks)) == multiset(Labels(base))
    ensures AcceptsOrder(base, order) && Reordered(base, order) == tasks
  {
    LabelsGiveKeys(tasks, base);
    LabelsGiveKeys(base, tasks);
    KeysOfTable(base);
    assert AcceptsOrder(base, order);
    var result := Reordered(base, order);
    forall i | 0 <= i < |tasks| ensures result[i] == tasks[i] {
      assert order[i] in Elements(order);
      var j :| 0 <= j < |base| && base[j] == ByKey(base)[order[i]];
      assert tasks[i].key == order[i];
      SameKeySameTitle(base, tasks, i, j);
    }
  }

  /** A change succeeds exactly when it is possible, and then with exactly the plan that it describes. */
  lemma ChangesAreDescribed(stored: map<Uuid, Plan>, base: Plan, change: Change)
    requires UniqueKeys(base.tasks)
    ensures ApplyChange(stored, base, change).Ok? <==> Possible(stored, base, change)
    ensures forall result :: ApplyChange(stored, base, change) == Ok(result) <==> Describes(stored, base, change, result)
  {
    if change.ReorderTasks? {
      var order := change.taskOrder;
      AcceptedOrdersAreRearrangements(base.tasks, order);
      if AcceptsOrder(base.tasks, order) { ReorderIsPermutation(base.tasks, order); }
      hide AcceptsOrder, Reordered, UniqueKeys;
      forall result | Describes(stored, base, change, result) ensures ApplyChange(stored, base, change) == Ok(result) {
        DescribedReorder(base.tasks, order, result.tasks);
      }
    }
  }

  /** A successful change gives the same plan when more contents have been stored meanwhile. */
  lemma ChangeIsStable(stored: map<Uuid, Plan>, later: map<Uuid, Plan>, base: Plan, change: Change)
    requires forall u :: u in stored ==> u in later && later[u] == stored[u]
    requires ApplyChange(stored, base, change).Ok?
    ensures ApplyChange(later, base, change) == ApplyChange(stored, base, change)
  {
  }
}
