/** Locking the selected plans before they are executed
    (launchflow/flows/plan_utils.py:171-232), and what is locked once the executor has
    run them and the final block has been through. */
module LockPhase {
  import opened Options
  import opened PlanExecutor

  type Entity = string

  /** A selected plan and its child plans. `docker`: the lock is a `DockerLock`, which is
      never refused and excludes nobody. `noop`: `lock_plan` takes no lock. `stale`: the
      stored record is not the planned one, so `lock_plan` releases and raises. */
  datatype Tree =
    | ResourcePlan(id: PlanId, entity: Entity, docker: bool, noop: bool, stale: bool)
    | ServicePlan(id: PlanId, entity: Entity, noop: bool, stale: bool, children: seq<Tree>)

  datatype LockResult = Locked(entity: Entity) | DockerLocked | NothingToLock | Raised

  predicate IsDocker(t: Tree) {
    t.ResourcePlan? && t.docker
  }

  /** The plan takes a lock that excludes others. */
  predicate Exclusive(t: Tree) {
    !t.noop && !IsDocker(t)
  }

  function ChildPlans(t: Tree): seq<Tree> {
    if t.ServicePlan? then t.children else []
  }

  /// The plans that take part
  /// ------------------------

  /** `_build_lock_tasks_recursively`: each plan before its child plans. */
  function Flatten(plans: seq<Tree>): seq<Tree> {
    if plans == [] then []
    else [plans[0]] + (if plans[0].ServicePlan? then Flatten(plans[0].children) else []) + Flatten(plans[1..])
  }

  lemma FlattenCons(p: Tree, rest: seq<Tree>)
    ensures Flatten([p] + rest) == FlattenOne(p) + Flatten(rest)
  {
    assert ([p] + rest)[1..] == rest;
  }

  /** One plan and its child plans. */
  function FlattenOne(p: Tree): seq<Tree> {
    [p] + Flatten(ChildPlans(p))
  }

  /** `t` is one of the plans or below one. */
  ghost predicate Within(t: Tree, plans: seq<Tree>) {
    exists p <- plans :: t == p || (p.ServicePlan? && Within(t, p.children))
  }

  lemma {:induction false} FlattenIsWithin(plans: seq<Tree>, t: Tree)
    ensures t in Flatten(plans) <==> Within(t, plans)
  {
    if plans != [] {
      if plans[0].ServicePlan? {
        FlattenIsWithin(plans[0].children, t);
      }
      FlattenIsWithin(plans[1..], t);
      assert forall p :: p in plans <==> p == plans[0] || p in plans[1..];
    }
  }

  /** Every plan with a lock task is one of those selected, or a child of one with a task. */
  lemma {:induction false} FlattenFromAbove(plans: seq<Tree>, x: Tree)
    requires x in Flatten(plans)
    ensures x in plans || exists t <- Flatten(plans) :: x in ChildPlans(t)
  {
    if plans[0].ServicePlan? && x in Flatten(plans[0].children) {
      FlattenFromAbove(plans[0].children, x);
      if x in plans[0].children {
        assert plans[0] in Flatten(plans) && x in ChildPlans(plans[0]);
      } else {
        var t :| t in Flatten(plans[0].children) && x in ChildPlans(t);
        assert t in Flatten(plans);
      }
    } else if x in Flatten(plans[1..]) {
      FlattenFromAbove(plans[1..], x);
      if x !in plans[1..] {
        var t :| t in Flatten(plans[1..]) && x in ChildPlans(t);
        assert t in Flatten(plans);
      }
    }
  }

  lemma ChildrenFlattened(plans: seq<Tree>, t: Tree, x: Tree)
    requires t in Flatten(plans) && x in ChildPlans(t)
    ensures x in Flatten(plans)
  {
    FlattenIsWithin(plans, t);
    FlattenIsWithin(plans, x);
    WithinChild(plans, t, x);
  }

  lemma {:induction false} WithinChild(plans: seq<Tree>, t: Tree, x: Tree)
    requires Within(t, plans) && x in ChildPlans(t)
    ensures Within(x, plans)
  {
    var p :| p in plans && (t == p || (p.ServicePlan? && Within(t, p.children)));
    if t == p {
      assert Within(x, p.children);
    } else {
      WithinChild(p.children, t, x);
    }
  }

  /** How often a plan occurs among the plans and below them. */
  function Occurrences(plans: seq<Tree>, t: Tree): nat {
    if plans == [] then 0
    else
      (if plans[0] == t then 1 else 0) +
      (if plans[0].ServicePlan? then Occurrences(plans[0].children, t) else 0) +
      Occurrences(plans[1..], t)
  }

  /** Each occurrence has exactly one lock task. */
  lemma {:induction false} FlattenCounts(plans: seq<Tree>, t: Tree)
    ensures multiset(Flatten(plans))[t] == Occurrences(plans, t)
  {
    if plans != [] {
      var p, rest := plans[0], plans[1..];
      FlattenCounts(rest, t);
      if p.ServicePlan? {
        FlattenCounts(p.children, t);
      }
      CountOne(p, t);
      CountConcatenated(FlattenOne(p), Flatten(rest), t);
      assert plans == [p] + rest;
      FlattenCons(p, rest);
      assert Flatten(plans) == FlattenOne(p) + Flatten(rest);
    }
  }

  lemma CountOne(p: Tree, t: Tree)
    ensures multiset(FlattenOne(p))[t] == (if p == t then 1 else 0) + multiset(Flatten(ChildPlans(p)))[t]
  {
    CountConcatenated([p], Flatten(ChildPlans(p)), t);
  }

  lemma CountConcatenated(a: seq<Tree>, b: seq<Tree>, t: Tree)
    ensures multiset(a + b)[t] == multiset(a)[t] + multiset(b)[t]
  {
  }

  method BuildLockTasks(plans: seq<Tree>) returns (tasks: seq<Tree>)
    ensures tasks == Flatten(plans)
    ensures forall t :: multiset(tasks)[t] == Occurrences(plans, t)
  {
    forall t ensures multiset(Flatten(plans))[t] == Occurrences(plans, t) {
      FlattenCounts(plans, t);
    }
    tasks := [];
    for i := 0 to |plans|
      invariant Flatten(plans) == tasks + Flatten(plans[i..])
    {
      FlattenStep(plans, i, tasks, Flatten(plans));
      var below: seq<Tree> := [];
      if plans[i].ServicePlan? {
        below := BuildLockTasks(plans[i].children);
      }
      assert [plans[i]] + below == FlattenOne(plans[i]);
      tasks := tasks + ([plans[i]] + below);
    }
  }

  lemma FlattenStep(plans: seq<Tree>, i: nat, tasks: seq<Tree>, all: seq<Tree>)
    requires i < |plans| && all == tasks + Flatten(plans[i..])
    ensures all == (tasks + FlattenOne(plans[i])) + Flatten(plans[i + 1..])
  {
    var rest := plans[i + 1..];
    assert plans[i..] == [plans[i]] + rest;
    FlattenCons(plans[i], rest);
    ConcatAssociative(tasks, FlattenOne(plans[i]), Flatten(rest));
  }

  lemma ConcatAssociative<T>(a: seq<T>, b: seq<T>, c: seq<T>)
    ensures a + (b + c) == (a + b) + c
  {
  }

  /// Taking the locks
  /// ----------------

  /** Where one lock task is. `Taken`: it has the lock and has yet to compare the stored
      record with the planned one. */
  datatype TaskPhase = Todo | Taken | Ended(result: LockResult)

  /** The tasks of one call and everything that is locked, by whomever. */
  datatype Locking = Locking(phases: seq<TaskPhase>, locked: set<Entity>)

  function Begin(tasks: seq<Tree>, locked: set<Entity>): Locking {
    Locking(seq(|tasks|, i => Todo), locked)
  }

  predicate CanStep(k: Locking, i: int) {
    0 <= i < |k.phases| && !k.phases[i].Ended?
  }

  /** `lock_plan` up to the next answer of the lock or of the store: where the task is
      then, and what is locked. */
  function Advance(t: Tree, p: TaskPhase, locked: set<Entity>): (TaskPhase, set<Entity>)
    requires !p.Ended?
  {
    if p.Todo? then
      if t.noop then (Ended(NothingToLock), locked)
      else if IsDocker(t) then (Taken, locked)
      else if t.entity in locked then (Ended(Raised), locked)
      else (Taken, locked + {t.entity})
    else if t.stale then (Ended(Raised), if IsDocker(t) then locked else locked - {t.entity})
    else (Ended(if IsDocker(t) then DockerLocked else Locked(t.entity)), locked)
  }

  function StepTask(tasks: seq<Tree>, k: Locking, i: int): Locking
    requires |k.phases| == |tasks| && CanStep(k, i)
  {
    var (phase, locked) := Advance(tasks[i], k.phases[i], k.locked);
    Locking(k.phases[i := phase], locked)
  }

  /** The plan cannot have its lock, or might not: its record has changed, or it needs the
      lock for itself and another client has it or another of the plans wants it. */
  ghost predicate Disputed(tasks: seq<Tree>, locked: set<Entity>, i: nat)
    requires i < |tasks|
  {
    var t := tasks[i];
    !t.noop && (t.stale || (Exclusive(t) && (t.entity in locked || Wanted(tasks, t.entity, i))))
  }

  /** A plan other than the one at `i` wants the lock on `e`. */
  ghost predicate Wanted(tasks: seq<Tree>, e: Entity, i: nat) {
    exists j :: 0 <= j < |tasks| && j != i && Exclusive(tasks[j]) && tasks[j].entity == e
  }

  ghost predicate Lockable(tasks: seq<Tree>, locked: set<Entity>) {
    forall i: nat | i < |tasks| :: !Disputed(tasks, locked, i)
  }

  /** What the plans lock. */
  function EntitiesOf(tasks: seq<Tree>): set<Entity> {
    set t | t in tasks && Exclusive(t) :: t.entity
  }

  predicate Has(p: TaskPhase) {
    p.Taken? || (p.Ended? && p.result.Locked?)
  }

  /** The task at `i` has the lock on `e`. */
  predicate HasLock(tasks: seq<Tree>, phases: seq<TaskPhase>, i: int, e: Entity) {
    0 <= i < |tasks| && i < |phases| && Exclusive(tasks[i]) && Has(phases[i]) && tasks[i].entity == e
  }

  ghost predicate TaskOk(tasks: seq<Tree>, locked: set<Entity>, i: nat, p: TaskPhase)
    requires i < |tasks|
  {
    var t := tasks[i];
    match p
    case Todo => true
    case Taken => !t.noop && (Exclusive(t) ==> t.entity !in locked)
    case Ended(NothingToLock) => t.noop
    case Ended(Raised) => Disputed(tasks, locked, i)
    case Ended(DockerLocked) => !t.noop && IsDocker(t) && !t.stale
    case Ended(Locked(e)) => Exclusive(t) && t.entity !in locked && e == t.entity && !t.stale
  }

  /** What holds at every point, whatever the order of the steps. */
  ghost predicate LockInv(tasks: seq<Tree>, locked: set<Entity>, k: Locking) {
    && |k.phases| == |tasks|
    && (forall i: nat | i < |tasks| :: TaskOk(tasks, locked, i, k.phases[i]))
    && (forall i, j, e :: HasLock(tasks, k.phases, i, e) && HasLock(tasks, k.phases, j, e) ==> i == j)
    && (forall i, e :: HasLock(tasks, k.phases, i, e) ==> e in k.locked)
    && (forall e <- k.locked :: e in locked || exists i :: HasLock(tasks, k.phases, i, e))
    && locked <= k.locked
  }

  lemma BeginInv(tasks: seq<Tree>, locked: set<Entity>)
    ensures LockInv(tasks, locked, Begin(tasks, locked))
  {
  }

  lemma StepKeeps(tasks: seq<Tree>, locked: set<Entity>, k: Locking, i: int)
    requires LockInv(tasks, locked, k) && CanStep(k, i)
    ensures LockInv(tasks, locked, StepTask(tasks, k, i))
  {
    var k' := StepTask(tasks, k, i);
    var e := tasks[i].entity;
    forall j, x | j != i ensures HasLock(tasks, k'.phases, j, x) <==> HasLock(tasks, k.phases, j, x) {}
    assert TaskOk(tasks, locked, i, k.phases[i]);
    assert k.phases[i].Taken? && Exclusive(tasks[i]) ==> HasLock(tasks, k.phases, i, e);
    if k'.phases[i] == Ended(Raised) && k.phases[i].Todo? && e !in locked {
      var j :| HasLock(tasks, k.phases, j, e);
      assert TaskOk(tasks, locked, j, k.phases[j]);
      assert Wanted(tasks, e, i);
    }
    forall x | x in k'.locked ensures x in locked || exists j :: HasLock(tasks, k'.phases, j, x) {
      if x !in locked {
        if x == e && HasLock(tasks, k'.phases, i, e) {
          assert HasLock(tasks, k'.phases, i, x);
        } else {
          var j :| HasLock(tasks, k.phases, j, x);
          assert HasLock(tasks, k'.phases, j, x);
        }
      }
    }
  }

  /** How much of the tasks is left to do. */
  function Work(phases: seq<TaskPhase>): nat {
    if phases == [] then 0 else Work(phases[1..]) + if phases[0].Todo? then 2 else if phases[0].Taken? then 1 else 0
  }

  lemma {:induction false} WorkShrinks(phases: seq<TaskPhase>, i: nat, p: TaskPhase)
    requires i < |phases| && !phases[i].Ended? && (p.Ended? || (phases[i].Todo? && p.Taken?))
    ensures Work(phases[i := p]) < Work(phases)
  {
    if i == 0 {
      assert phases[0 := p][1..] == phases[1..];
    } else {
      assert phases[i := p][1..] == phases[1..][i - 1 := p];
      WorkShrinks(phases[1..], i - 1, p);
    }
  }

  function LockedBy(results: seq<LockResult>): set<Entity> {
    set r | r in results && r.Locked? :: r.entity
  }

  /** The results of lock tasks that have come to rest, in whatever order they went. */
  ghost predicate LockOutcome(tasks: seq<Tree>, locked: set<Entity>, results: seq<LockResult>) {
    && |results| == |tasks|
    && (forall i: nat | i < |tasks| :: TaskOk(tasks, locked, i, Ended(results[i])))
    && (forall i, j :: 0 <= i < j < |tasks| && results[i].Locked? && results[j].Locked? ==>
          results[i].entity != results[j].entity)
  }

  lemma AtRest(tasks: seq<Tree>, locked: set<Entity>, k: Locking, results: seq<LockResult>)
    requires LockInv(tasks, locked, k) && |results| == |tasks|
    requires forall i: nat | i < |tasks| :: k.phases[i] == Ended(results[i])
    ensures LockOutcome(tasks, locked, results)
    ensures k.locked == locked + LockedBy(results)
  {
    forall i, j | 0 <= i < j < |tasks| && results[i].Locked? && results[j].Locked?
      ensures results[i].entity != results[j].entity
    {
      assert TaskOk(tasks, locked, i, k.phases[i]) && TaskOk(tasks, locked, j, k.phases[j]);
      assert HasLock(tasks, k.phases, i, tasks[i].entity) && HasLock(tasks, k.phases, j, tasks[j].entity);
    }
    forall e ensures e in k.locked <==> e in locked + LockedBy(results) {
      if e in k.locked && e !in locked {
        var i :| HasLock(tasks, k.phases, i, e);
        assert TaskOk(tasks, locked, i, k.phases[i]);
        assert results[i] in results && results[i].entity == e;
      } else if e in LockedBy(results) {
        var i :| 0 <= i < |results| && results[i].Locked? && results[i].entity == e;
        assert TaskOk(tasks, locked, i, k.phases[i]);
        assert HasLock(tasks, k.phases, i, e);
      }
    }
  }

  /** In every order of the steps: no lock task raises exactly when each record is as
      planned and each lock that excludes others is free and asked for once, and then
      all of those are taken. */
  lemma LockAllSucceedsIff(tasks: seq<Tree>, locked: set<Entity>, results: seq<LockResult>)
    requires LockOutcome(tasks, locked, results)
    ensures Raised !in results <==> Lockable(tasks, locked)
    ensures Raised !in results ==> LockedBy(results) == EntitiesOf(tasks)
    ensures LockedBy(results) <= EntitiesOf(tasks) && LockedBy(results) !! locked
  {
    forall e | e in LockedBy(results) ensures e in EntitiesOf(tasks) && e !in locked {
      var i :| 0 <= i < |results| && results[i].Locked? && results[i].entity == e;
      assert TaskOk(tasks, locked, i, Ended(results[i]));
    }
    if Raised in results {
      var i :| 0 <= i < |results| && results[i] == Raised;
      assert TaskOk(tasks, locked, i, Ended(results[i]));
      assert Disputed(tasks, locked, i);
    } else {
      forall i: nat | i < |tasks| && Exclusive(tasks[i]) ensures results[i] == Locked(tasks[i].entity) {
        assert TaskOk(tasks, locked, i, Ended(results[i]));
        assert results[i] in results;
      }
      forall i: nat | i < |tasks| ensures !Disputed(tasks, locked, i) {
        assert TaskOk(tasks, locked, i, Ended(results[i]));
        assert results[i] in results;
      }
      forall e | e in EntitiesOf(tasks) ensures e in LockedBy(results) {
        var i :| 0 <= i < |tasks| && Exclusive(tasks[i]) && tasks[i].entity == e;
        assert results[i] in results;
      }
    }
  }

  /// The lock phase
  /// --------------

  /** Local plans are those of Docker resources. */
  function LocalPlans(plans: seq<Tree>): seq<Tree> {
    if plans == [] then [] else (if IsDocker(plans[0]) then [plans[0]] else []) + LocalPlans(plans[1..])
  }

  function RemotePlans(plans: seq<Tree>): seq<Tree> {
    if plans == [] then [] else (if IsDocker(plans[0]) then [] else [plans[0]]) + RemotePlans(plans[1..])
  }

  /** The lock tasks of local plans, then those of remote plans, child plans included. */
  function LockTasks(plans: seq<Tree>): seq<Tree> {
    Flatten(LocalPlans(plans)) + Flatten(RemotePlans(plans))
  }

  /** The tasks that get to run: those of remote plans wait for the environment's lock. */
  function RunningTasks(plans: seq<Tree>, environmentLocked: bool): seq<Tree> {
    Flatten(LocalPlans(plans)) + if environmentLocked then [] else Flatten(RemotePlans(plans))
  }

  lemma {:induction false} LocalTasksAreDocker(plans: seq<Tree>)
    ensures forall t <- Flatten(LocalPlans(plans)) :: IsDocker(t)
    decreases plans
  {
    if plans != [] {
      var rest := LocalPlans(plans[1..]);
      LocalTasksAreDocker(plans[1..]);
      FlattenCons(plans[0], rest);
      assert [] + rest == rest;
      forall t | t in Flatten(LocalPlans(plans)) ensures IsDocker(t) {
        assert t in Flatten(rest) || t == plans[0];
      }
    }
  }

  /** Splitting the plans loses none of their tasks. */
  lemma {:induction false} SplitFlattens(plans: seq<Tree>, t: Tree)
    ensures t in LockTasks(plans) <==> t in Flatten(plans)
    decreases plans
  {
    if plans != [] {
      var p, locals, remotes := plans[0], LocalPlans(plans[1..]), RemotePlans(plans[1..]);
      SplitFlattens(plans[1..], t);
      assert plans == [p] + plans[1..];
      FlattenCons(p, plans[1..]);
      assert [] + locals == locals && [] + remotes == remotes;
      if IsDocker(p) {
        FlattenCons(p, locals);
        assert LocalPlans(plans) == [p] + locals && RemotePlans(plans) == remotes;
      } else {
        FlattenCons(p, remotes);
        assert LocalPlans(plans) == locals && RemotePlans(plans) == [p] + remotes;
      }
    }
  }

  /** Everything can be locked. */
  ghost predicate CanEnter(plans: seq<Tree>, locked: set<Entity>, environmentLocked: bool) {
    && (RemotePlans(plans) != [] ==> !environmentLocked)
    && Lockable(LockTasks(plans), locked)
  }

  /// When everything can be locked, by where the plans stand
  /// -------------------------------------------------------

  /** The plan at a position: an index among the plans, then among its child plans, and
      so on. */
  function PlanAt(plans: seq<Tree>, path: seq<nat>): Option<Tree>
    decreases |path|
  {
    if path == [] || path[0] >= |plans| then None
    else if |path| == 1 then Some(plans[path[0]])
    else if plans[path[0]].ServicePlan? then PlanAt(plans[path[0]].children, path[1..])
    else None
  }

  /** The plan at the position takes the lock on `e`, to the exclusion of others. */
  predicate TakesAt(plans: seq<Tree>, path: seq<nat>, e: Entity) {
    var t := PlanAt(plans, path);
    t.Some? && !t.value.noop && !(t.value.ResourcePlan? && t.value.docker) && t.value.entity == e
  }

  /** At no position a record has changed, each lock that excludes others is free and asked
      for at one position only, and the environment is free unless all plans are local. */
  ghost predicate FreeToLock(plans: seq<Tree>, locked: set<Entity>, environmentLocked: bool) {
    && FreshAndFree(plans, locked)
    && NoneAskedTwice(plans)
    && (environmentLocked ==> forall t <- plans :: t.ResourcePlan? && t.docker)
  }

  ghost predicate FreshAndFree(plans: seq<Tree>, locked: set<Entity>) {
    && (forall path ::
          PlanAt(plans, path).Some? && !PlanAt(plans, path).value.noop ==> !PlanAt(plans, path).value.stale)
    && (forall path, e :: TakesAt(plans, path, e) ==> e !in locked)
  }

  ghost predicate NoneAskedTwice(plans: seq<Tree>) {
    forall p, q, e :: TakesAt(plans, p, e) && TakesAt(plans, q, e) ==> p == q
  }

  /** How many tasks take the lock on `e`. */
  function Takers(tasks: seq<Tree>, e: Entity): nat {
    if tasks == [] then 0 else (if Exclusive(tasks[0]) && tasks[0].entity == e then 1 else 0) + Takers(tasks[1..], e)
  }

  lemma {:induction false} TakersConcat(a: seq<Tree>, b: seq<Tree>, e: Entity)
    ensures Takers(a + b, e) == Takers(a, e) + Takers(b, e)
    decreases a
  {
    if a == [] {
      assert a + b == b;
    } else {
      assert (a + b)[1..] == a[1..] + b;
      TakersConcat(a[1..], b, e);
    }
  }

  /** The same over the trees. */
  function TakersBelow(plans: seq<Tree>, e: Entity): nat {
    if plans == [] then 0
    else
      (if Exclusive(plans[0]) && plans[0].entity == e then 1 else 0) +
      (if plans[0].ServicePlan? then TakersBelow(plans[0].children, e) else 0) +
      TakersBelow(plans[1..], e)
  }

  lemma {:induction false} TakersFlatten(plans: seq<Tree>, e: Entity)
    ensures Takers(Flatten(plans), e) == TakersBelow(plans, e)
  {
    if plans != [] {
      var p, rest := plans[0], plans[1..];
      if p.ServicePlan? {
        TakersFlatten(p.children, e);
      }
      TakersFlatten(rest, e);
      assert plans == [p] + rest;
      FlattenCons(p, rest);
      TakersConcat(FlattenOne(p), Flatten(rest), e);
      TakersConcat([p], Flatten(ChildPlans(p)), e);
    }
  }

  lemma {:induction false} TakersSplit(plans: seq<Tree>, e: Entity)
    ensures TakersBelow(LocalPlans(plans), e) + TakersBelow(RemotePlans(plans), e) == TakersBelow(plans, e)
    decreases plans
  {
    if plans != [] {
      TakersSplit(plans[1..], e);
      TakersCons(plans[0], LocalPlans(plans[1..]), e);
      TakersCons(plans[0], RemotePlans(plans[1..]), e);
      assert [] + LocalPlans(plans[1..]) == LocalPlans(plans[1..]);
      assert [] + RemotePlans(plans[1..]) == RemotePlans(plans[1..]);
    }
  }

  lemma TakersCons(p: Tree, rest: seq<Tree>, e: Entity)
    ensures TakersBelow([p] + rest, e) ==
      (if Exclusive(p) && p.entity == e then 1 else 0) +
      (if p.ServicePlan? then TakersBelow(p.children, e) else 0) + TakersBelow(rest, e)
  {
    assert ([p] + rest)[1..] == rest;
  }

  lemma {:induction false} TakerCounts(tasks: seq<Tree>, i: nat, e: Entity)
    requires i < |tasks| && Exclusive(tasks[i]) && tasks[i].entity == e
    ensures Takers(tasks, e) >= 1
    decreases i
  {
    if i > 0 {
      TakerCounts(tasks[1..], i - 1, e);
    }
  }

  lemma {:induction false} TwoTakersCount(tasks: seq<Tree>, i: nat, j: nat, e: Entity)
    requires i < j < |tasks| && Exclusive(tasks[i]) && tasks[i].entity == e
    requires Exclusive(tasks[j]) && tasks[j].entity == e
    ensures Takers(tasks, e) >= 2
    decreases i
  {
    if i == 0 {
      TakerCounts(tasks[1..], j - 1, e);
    } else {
      TwoTakersCount(tasks[1..], i - 1, j - 1, e);
    }
  }

  lemma {:induction false} FindTaker(tasks: seq<Tree>, e: Entity) returns (i: nat)
    requires Takers(tasks, e) >= 1
    ensures i < |tasks| && Exclusive(tasks[i]) && tasks[i].entity == e
    decreases tasks
  {
    if Exclusive(tasks[0]) && tasks[0].entity == e {
      i := 0;
    } else {
      i := FindTaker(tasks[1..], e);
      i := i + 1;
    }
  }

  lemma {:induction false} FindTwoTakers(tasks: seq<Tree>, e: Entity) returns (i: nat, j: nat)
    requires Takers(tasks, e) >= 2
    ensures i < j < |tasks| && Exclusive(tasks[i]) && tasks[i].entity == e
    ensures Exclusive(tasks[j]) && tasks[j].entity == e
    decreases tasks
  {
    if Exclusive(tasks[0]) && tasks[0].entity == e {
      i := 0;
      j := FindTaker(tasks[1..], e);
      j := j + 1;
    } else {
      i, j := FindTwoTakers(tasks[1..], e);
      i, j := i + 1, j + 1;
    }
  }

  /** Each task by itself can have its lock. */
  ghost predicate EachFree(tasks: seq<Tree>, locked: set<Entity>) {
    && (forall t <- tasks :: !t.noop ==> !t.stale)
    && (forall t <- tasks :: Exclusive(t) ==> t.entity !in locked)
  }

  ghost predicate AtMostOnce(tasks: seq<Tree>) {
    forall e {:trigger Takers(tasks, e)} :: Takers(tasks, e) <= 1
  }

  /** No task is disputed exactly if each can have its lock and none is asked for twice. */
  lemma LockableIff(tasks: seq<Tree>, locked: set<Entity>)
    ensures Lockable(tasks, locked) <==> EachFree(tasks, locked) && AtMostOnce(tasks)
  {
    if Lockable(tasks, locked) {
      LockableIsFree(tasks, locked);
    }
    if EachFree(tasks, locked) && AtMostOnce(tasks) {
      forall i: nat | i < |tasks| ensures !Disputed(tasks, locked, i) {
        assert tasks[i] in tasks && Takers(tasks, tasks[i].entity) <= 1;
        OnlyTaker(tasks, i);
      }
    }
  }

  lemma LockableIsFree(tasks: seq<Tree>, locked: set<Entity>)
    requires Lockable(tasks, locked)
    ensures EachFree(tasks, locked) && AtMostOnce(tasks)
  {
    forall t | t in tasks ensures (!t.noop ==> !t.stale) && (Exclusive(t) ==> t.entity !in locked) {
      var i: nat :| i < |tasks| && tasks[i] == t;
      assert !Disputed(tasks, locked, i);
    }
    forall e ensures Takers(tasks, e) <= 1 {
      if Takers(tasks, e) >= 2 {
        TwiceIsDisputed(tasks, locked, e);
      }
    }
  }

  lemma TwiceIsDisputed(tasks: seq<Tree>, locked: set<Entity>, e: Entity)
    requires Takers(tasks, e) >= 2
    ensures !Lockable(tasks, locked)
  {
    var i, j := FindTwoTakers(tasks, e);
    assert Wanted(tasks, e, i);
    assert Disputed(tasks, locked, i);
  }

  lemma OnlyTaker(tasks: seq<Tree>, i: nat)
    requires i < |tasks| && Takers(tasks, tasks[i].entity) <= 1
    ensures Exclusive(tasks[i]) ==> !Wanted(tasks, tasks[i].entity, i)
  {
    if Exclusive(tasks[i]) {
      forall j | 0 <= j < |tasks| && j != i && Exclusive(tasks[j]) ensures tasks[j].entity != tasks[i].entity {
        if tasks[j].entity == tasks[i].entity {
          if i < j {
            TwoTakersCount(tasks, i, j, tasks[i].entity);
          } else {
            TwoTakersCount(tasks, j, i, tasks[i].entity);
          }
        }
      }
    }
  }

  lemma {:induction false} PositionCounts(plans: seq<Tree>, path: seq<nat>, e: Entity)
    requires TakesAt(plans, path, e)
    ensures TakersBelow(plans, e) >= 1
    decreases plans
  {
    if path[0] > 0 {
      assert PlanAt(plans, path) == PlanAt(plans[1..], [path[0] - 1] + path[1..]) by { ShiftPath(plans, path); }
      PositionCounts(plans[1..], [path[0] - 1] + path[1..], e);
    } else if |path| > 1 {
      PositionCounts(plans[0].children, path[1..], e);
    }
  }

  lemma ShiftPath(plans: seq<Tree>, path: seq<nat>)
    requires plans != [] && path != [] && path[0] > 0
    ensures PlanAt(plans, path) == PlanAt(plans[1..], [path[0] - 1] + path[1..])
  {
    assert ([path[0] - 1] + path[1..])[1..] == path[1..];
  }

  lemma {:induction false} TwoPositionsCount(plans: seq<Tree>, p: seq<nat>, q: seq<nat>, e: Entity)
    requires TakesAt(plans, p, e) && TakesAt(plans, q, e) && p != q
    ensures TakersBelow(plans, e) >= 2
    decreases plans
  {
    if p[0] > 0 && q[0] > 0 {
      ShiftPath(plans, p);
      ShiftPath(plans, q);
      var p', q' := [p[0] - 1] + p[1..], [q[0] - 1] + q[1..];
      assert p' != q' by {
        assert p == [p'[0] + 1] + p'[1..] && q == [q'[0] + 1] + q'[1..];
      }
      TwoPositionsCount(plans[1..], p', q', e);
    } else if p[0] == q[0] == 0 && |p| > 1 && |q| > 1 {
      assert p[1..] != q[1..] by {
        assert p == [0] + p[1..] && q == [0] + q[1..];
      }
      TwoPositionsCount(plans[0].children, p[1..], q[1..], e);
    } else {
      PartCounts(plans, p, e);
      PartCounts(plans, q, e);
    }
  }

  /** Which part of the count a position belongs to: the first plan, what is below it, or
      the other plans. */
  lemma PartCounts(plans: seq<Tree>, path: seq<nat>, e: Entity)
    requires TakesAt(plans, path, e)
    ensures plans != [] && path != []
    ensures path[0] > 0 ==> TakersBelow(plans[1..], e) >= 1
    ensures path[0] == 0 && |path| > 1 ==> plans[0].ServicePlan? && TakersBelow(plans[0].children, e) >= 1
    ensures path == [0] ==> Exclusive(plans[0]) && plans[0].entity == e
    ensures path[0] == 0 && |path| == 1 ==> path == [0]
  {
    if path[0] > 0 {
      ShiftPath(plans, path);
      PositionCounts(plans[1..], [path[0] - 1] + path[1..], e);
    } else if |path| > 1 {
      PositionCounts(plans[0].children, path[1..], e);
    }
  }

  lemma {:induction false} FindPosition(plans: seq<Tree>, e: Entity) returns (path: seq<nat>)
    requires TakersBelow(plans, e) >= 1
    ensures TakesAt(plans, path, e)
    decreases plans
  {
    if Exclusive(plans[0]) && plans[0].entity == e {
      path := [0];
    } else if plans[0].ServicePlan? && TakersBelow(plans[0].children, e) >= 1 {
      var below := FindPosition(plans[0].children, e);
      path := [0] + below;
      assert path[1..] == below;
    } else {
      var other := FindPosition(plans[1..], e);
      path := [other[0] + 1] + other[1..];
      ShiftBack(plans, other, path);
    }
  }

  lemma ShiftBack(plans: seq<Tree>, other: seq<nat>, path: seq<nat>)
    requires plans != [] && other != [] && path == [other[0] + 1] + other[1..]
    ensures PlanAt(plans, path) == PlanAt(plans[1..], other)
  {
    ShiftPath(plans, path);
    assert [path[0] - 1] + path[1..] == other;
  }

  lemma {:induction false} FindTwoPositions(plans: seq<Tree>, e: Entity) returns (p: seq<nat>, q: seq<nat>)
    requires TakersBelow(plans, e) >= 2
    ensures TakesAt(plans, p, e) && TakesAt(plans, q, e) && p != q
    decreases plans
  {
    var first := Exclusive(plans[0]) && plans[0].entity == e;
    var below := if plans[0].ServicePlan? then TakersBelow(plans[0].children, e) else 0;
    if below >= 2 {
      var p', q' := FindTwoPositions(plans[0].children, e);
      p, q := [0] + p', [0] + q';
      assert p[1..] == p' && q[1..] == q';
    } else if TakersBelow(plans[1..], e) >= 2 {
      var p', q' := FindTwoPositions(plans[1..], e);
      p, q := [p'[0] + 1] + p'[1..], [q'[0] + 1] + q'[1..];
      ShiftBack(plans, p', p);
      ShiftBack(plans, q', q);
      assert p' == [p[0] - 1] + p[1..] && q' == [q[0] - 1] + q[1..];
    } else {
      p, q := FindInParts(plans, e, first, below);
    }
  }

  lemma FindInParts(plans: seq<Tree>, e: Entity, first: bool, below: nat) returns (p: seq<nat>, q: seq<nat>)
    requires plans != [] && first == (Exclusive(plans[0]) && plans[0].entity == e)
    requires below == (if plans[0].ServicePlan? then TakersBelow(plans[0].children, e) else 0)
    requires TakersBelow(plans, e) >= 2 && below <= 1 && TakersBelow(plans[1..], e) <= 1
    ensures TakesAt(plans, p, e) && TakesAt(plans, q, e) && p != q
  {
    if first {
      p := [0];
    } else {
      var inner := FindPosition(plans[0].children, e);
      p := [0] + inner;
      assert p[1..] == inner;
    }
    if TakersBelow(plans[1..], e) >= 1 {
      var other := FindPosition(plans[1..], e);
      q := [other[0] + 1] + other[1..];
      ShiftBack(plans, other, q);
    } else {
      var inner := FindPosition(plans[0].children, e);
      q := [0] + inner;
      assert q[1..] == inner;
    }
  }

  /** What is at some position has a lock task, and the other way round. */
  lemma {:induction false} AtIsWithin(plans: seq<Tree>, path: seq<nat>)
    requires PlanAt(plans, path).Some?
    ensures Within(PlanAt(plans, path).value, plans)
    decreases |path|
  {
    assert plans[path[0]] in plans;
    if |path| > 1 {
      AtIsWithin(plans[path[0]].children, path[1..]);
    }
  }

  lemma {:induction false} WithinIsAt(plans: seq<Tree>, t: Tree) returns (path: seq<nat>)
    requires Within(t, plans)
    ensures PlanAt(plans, path) == Some(t)
  {
    var p :| p in plans && (t == p || (p.ServicePlan? && Within(t, p.children)));
    var i: nat :| i < |plans| && plans[i] == p;
    if t == p {
      path := [i];
    } else {
      var below := WithinIsAt(p.children, t);
      path := [i] + below;
      assert path[1..] == below;
    }
  }

  /** The lock phase lets the flow in exactly if, by where the plans stand, each lock can
      be had. */
  lemma EntersIffFree(plans: seq<Tree>, locked: set<Entity>, environmentLocked: bool)
    ensures CanEnter(plans, locked, environmentLocked) <==> FreeToLock(plans, locked, environmentLocked)
  {
    var tasks := LockTasks(plans);
    LockableIff(tasks, locked);
    EachFreeIff(plans, locked);
    NoneTwiceIff(plans);
    AllLocalIff(plans);
  }

  lemma {:induction false} AllLocalIff(plans: seq<Tree>)
    ensures RemotePlans(plans) == [] <==> forall t <- plans :: t.ResourcePlan? && t.docker
  {
    if plans != [] {
      AllLocalIff(plans[1..]);
      assert forall t :: t in plans <==> t == plans[0] || t in plans[1..];
    }
  }

  lemma TaskHasPosition(plans: seq<Tree>, t: Tree) returns (path: seq<nat>)
    requires t in LockTasks(plans)
    ensures PlanAt(plans, path) == Some(t)
    ensures Exclusive(t) ==> TakesAt(plans, path, t.entity)
  {
    SplitFlattens(plans, t);
    FlattenIsWithin(plans, t);
    path := WithinIsAt(plans, t);
  }

  lemma PositionHasTask(plans: seq<Tree>, path: seq<nat>)
    requires PlanAt(plans, path).Some?
    ensures PlanAt(plans, path).value in LockTasks(plans)
  {
    var t := PlanAt(plans, path).value;
    AtIsWithin(plans, path);
    FlattenIsWithin(plans, t);
    SplitFlattens(plans, t);
  }

  lemma EntitiesByPosition(plans: seq<Tree>)
    ensures forall e :: e in EntitiesOf(LockTasks(plans)) <==> exists path :: TakesAt(plans, path, e)
  {
    forall e | e in EntitiesOf(LockTasks(plans)) ensures exists path :: TakesAt(plans, path, e) {
      var t :| t in LockTasks(plans) && Exclusive(t) && t.entity == e;
      var path := TaskHasPosition(plans, t);
    }
    forall path, e | TakesAt(plans, path, e) ensures e in EntitiesOf(LockTasks(plans)) {
      PositionHasTask(plans, path);
    }
  }

  lemma EachFreeIff(plans: seq<Tree>, locked: set<Entity>)
    ensures EachFree(LockTasks(plans), locked) <==> FreshAndFree(plans, locked)
  {
    if FreshAndFree(plans, locked) {
      forall t | t in LockTasks(plans) ensures (!t.noop ==> !t.stale) && (Exclusive(t) ==> t.entity !in locked) {
        var path := TaskHasPosition(plans, t);
      }
    }
    if EachFree(LockTasks(plans), locked) {
      forall path | PlanAt(plans, path).Some?
        ensures !PlanAt(plans, path).value.noop ==> !PlanAt(plans, path).value.stale
      {
        PositionHasTask(plans, path);
      }
      forall path, e | TakesAt(plans, path, e) ensures e !in locked {
        PositionHasTask(plans, path);
      }
    }
  }

  lemma TakersAgree(plans: seq<Tree>, e: Entity)
    ensures Takers(LockTasks(plans), e) == TakersBelow(plans, e)
  {
    TakersConcat(Flatten(LocalPlans(plans)), Flatten(RemotePlans(plans)), e);
    TakersFlatten(LocalPlans(plans), e);
    TakersFlatten(RemotePlans(plans), e);
    TakersSplit(plans, e);
  }

  lemma NoneTwiceIff(plans: seq<Tree>)
    ensures AtMostOnce(LockTasks(plans)) <==> NoneAskedTwice(plans)
  {
    if AtMostOnce(LockTasks(plans)) {
      forall p, q, e | TakesAt(plans, p, e) && TakesAt(plans, q, e) ensures p == q {
        TakersAgree(plans, e);
        if p != q {
          TwoPositionsCount(plans, p, q, e);
        }
      }
    }
    if NoneAskedTwice(plans) {
      forall e ensures Takers(LockTasks(plans), e) <= 1 {
        TakersAgree(plans, e);
        if TakersBelow(plans, e) >= 2 {
          var p, q := FindTwoPositions(plans, e);
        }
      }
    }
  }

  /** The locks that a failed phase is bound to leave behind. */
  ghost predicate SurelyStranded(plans: seq<Tree>, locked: set<Entity>, e: Entity) {
    exists i: nat :: i < |LockTasks(plans)| && StrandedAt(LockTasks(plans), locked, i, e)
  }

  ghost predicate StrandedAt(tasks: seq<Tree>, locked: set<Entity>, i: nat, e: Entity)
    requires i < |tasks|
  {
    Exclusive(tasks[i]) && tasks[i].entity == e && !Disputed(tasks, locked, i)
  }

  class LockTable {
    var locked: set<Entity>
    var environmentLocked: bool

    constructor ()
      ensures locked == {} && !environmentLocked
    {
      locked, environmentLocked := {}, false;
    }

    /** The lock tasks step in any order. */
    method RunLockTasks(tasks: seq<Tree>) returns (results: seq<LockResult>)
      modifies this`locked
      ensures LockOutcome(tasks, old(locked), results)
      ensures locked == old(locked) + LockedBy(results)
    {
      var phases := seq(|tasks|, i => Todo);
      BeginInv(tasks, locked);
      while exists i :: 0 <= i < |phases| && !phases[i].Ended?
        invariant LockInv(tasks, old(locked), Locking(phases, locked))
        decreases Work(phases)
      {
        var i :| 0 <= i < |phases| && !phases[i].Ended?;
        ghost var k := Locking(phases, locked);
        StepKeeps(tasks, old(locked), k, i);
        WorkShrinks(phases, i, StepTask(tasks, k, i).phases[i]);
        var phase := RunTask(tasks[i], phases[i]);
        phases := phases[i := phase];
        assert Locking(phases, locked) == StepTask(tasks, k, i);
      }
      results := seq(|tasks|, i requires 0 <= i < |tasks| => phases[i].result);
      AtRest(tasks, old(locked), Locking(phases, locked), results);
    }

    /** One stretch of `lock_plan`: it asks for the lock, or compares and gives the lock
        back if the record is not the planned one. */
    method RunTask(t: Tree, phase: TaskPhase) returns (phase': TaskPhase)
      requires !phase.Ended?
      modifies this`locked
      ensures (phase', locked) == Advance(t, phase, old(locked))
    {
      if phase.Todo? {
        if t.noop {
          return Ended(NothingToLock);
        }
        if !IsDocker(t) {
          if t.entity in locked {
            return Ended(Raised);
          }
          locked := locked + {t.entity};
        }
        return Taken;
      }
      if t.stale {
        if !IsDocker(t) {
          locked := locked - {t.entity};
        }
        return Ended(Raised);
      }
      return Ended(if IsDocker(t) then DockerLocked else Locked(t.entity));
    }

    /** The `finally` block sees the results of the outer `gather`: locks of local plans,
        and for all remote plans together one list, which is no lock. */
    method ReleaseTopLevel(results: seq<LockResult>)
      modifies this`locked
      ensures locked == old(locked) - LockedBy(results)
    {
      for i := 0 to |results|
        invariant locked == old(locked) - LockedBy(results[..i])
      {
        assert results[..i + 1] == results[..i] + [results[i]];
        if results[i].Locked? {
          locked := locked - {results[i].entity};
        }
      }
      assert results[..|results|] == results;
    }

    /** `async with lock_plans(*plans): execute_plans(plans)`, if the call of the executor
        has come to rest as `run` says. The body is entered exactly if everything can be
        locked, and holds it all. Afterwards only the locks of child plans are left whose
        parent was not executed. If the body is not entered, what the remote plans have
        locked stays; the final block releases nothing that excludes anybody. */
    method LockAndExecute(plans: seq<Tree>, log: seq<Event>, ghost c: Call, ghost w: Layout, ghost run: seq<State>)
      returns (entered: bool, heldInBody: set<Entity>)
      requires Consistent(c, w) && IsRun(c, run) && Quiescent(c, Last(run)) && log == Last(run).log
      requires Mirrors(c, plans)
      modifies this
      ensures environmentLocked == old(environmentLocked)
      ensures entered <==> FreeToLock(plans, old(locked), old(environmentLocked))
      ensures entered ==> forall e :: e in heldInBody <==> e in old(locked) || exists path :: TakesAt(plans, path, e)
      ensures entered ==> locked == old(locked) + Kept(plans, Last(run))
      ensures old(locked) <= locked <= old(locked) + EntitiesOf(LockTasks(plans))
      ensures !entered && old(environmentLocked) ==> locked == old(locked)
      ensures !entered && !old(environmentLocked) ==> forall e | SurelyStranded(plans, old(locked), e) :: e in locked
    {
      var results, split, raised := TakeLocks(plans);
      PhaseMeaning(plans, old(locked), environmentLocked, results, split);
      EntersIffFree(plans, old(locked), environmentLocked);
      EntitiesByPosition(plans);
      heldInBody := locked;
      entered := !raised;
      if entered {
        RunBody(LockTasks(plans), log);
        LocksAfterwards(plans, old(locked), c, w, run);
      }
      ReleaseTopLevel(results[..split]);
    }

    /** The executor's events, as far as locks are concerned. */
    method RunBody(tasks: seq<Tree>, log: seq<Event>)
      modifies this`locked
      ensures locked == AfterEvents(tasks, old(locked), log)
    {
      for i := 0 to |log|
        invariant locked == AfterEvents(tasks, old(locked), log[..i])
      {
        assert log[..i + 1][..i] == log[..i];
        locked := locked - GivenBy(tasks, log[i]);
      }
      assert log[..|log|] == log;
    }

    /** The outer `gather`: the results of the local plans' tasks come first, up to
        `split`. The remote plans' tasks run under the environment's lock, in a `gather`
        that raises as soon as one of them does; the others go on and keep their locks. */
    method TakeLocks(plans: seq<Tree>) returns (results: seq<LockResult>, split: nat, raised: bool)
      modifies this
      ensures environmentLocked == old(environmentLocked)
      ensures split == |Flatten(LocalPlans(plans))|
      ensures LockOutcome(RunningTasks(plans, environmentLocked), old(locked), results)
      ensures locked == old(locked) + LockedBy(results)
      ensures raised <==> Raised in results || (RemotePlans(plans) != [] && environmentLocked)
    {
      var localPlans, remotePlans := Split(plans);
      var tasks := BuildLockTasks(localPlans);
      split := |tasks|;
      var refused := remotePlans != [] && environmentLocked;
      if remotePlans != [] && !environmentLocked {
        var remoteTasks := BuildLockTasks(remotePlans);
        tasks := tasks + remoteTasks;
        environmentLocked := true;
        assert tasks == RunningTasks(plans, old(environmentLocked));
        results := RunLockTasks(tasks);
        environmentLocked := false;
      } else {
        assert tasks == RunningTasks(plans, old(environmentLocked));
        results := RunLockTasks(tasks);
      }
      raised := refused || Raised in results;
    }

    method Split(plans: seq<Tree>) returns (localPlans: seq<Tree>, remotePlans: seq<Tree>)
      ensures localPlans == LocalPlans(plans) && remotePlans == RemotePlans(plans)
    {
      localPlans, remotePlans := [], [];
      for i := 0 to |plans|
        invariant localPlans == LocalPlans(plans[..i]) && remotePlans == RemotePlans(plans[..i])
      {
        SplitStep(plans, i);
        if IsDocker(plans[i]) {
          localPlans := localPlans + [plans[i]];
        } else {
          remotePlans := remotePlans + [plans[i]];
        }
      }
      assert plans[..|plans|] == plans;
    }
  }

  lemma SplitStep(plans: seq<Tree>, i: nat)
    requires i < |plans|
    ensures LocalPlans(plans[..i + 1]) == LocalPlans(plans[..i]) + if IsDocker(plans[i]) then [plans[i]] else []
    ensures RemotePlans(plans[..i + 1]) == RemotePlans(plans[..i]) + if IsDocker(plans[i]) then [] else [plans[i]]
  {
    assert plans[..i + 1] == plans[..i] + [plans[i]];
    SplitAppend(plans[..i], plans[i]);
  }

  lemma SplitAppend(plans: seq<Tree>, p: Tree)
    ensures LocalPlans(plans + [p]) == LocalPlans(plans) + if IsDocker(p) then [p] else []
    ensures RemotePlans(plans + [p]) == RemotePlans(plans) + if IsDocker(p) then [] else [p]
  {
    AppendLocal(plans, p);
    AppendRemote(plans, p);
  }

  lemma {:induction false} AppendLocal(plans: seq<Tree>, p: Tree)
    ensures LocalPlans(plans + [p]) == LocalPlans(plans) + if IsDocker(p) then [p] else []
    decreases plans
  {
    if plans == [] {
      assert plans + [p] == [p];
    } else {
      assert (plans + [p])[1..] == plans[1..] + [p];
      AppendLocal(plans[1..], p);
      var head := if IsDocker(plans[0]) then [plans[0]] else [];
      ConcatAssociative(head, LocalPlans(plans[1..]), if IsDocker(p) then [p] else []);
    }
  }

  lemma {:induction false} AppendRemote(plans: seq<Tree>, p: Tree)
    ensures RemotePlans(plans + [p]) == RemotePlans(plans) + if IsDocker(p) then [] else [p]
    decreases plans
  {
    if plans == [] {
      assert plans + [p] == [p];
    } else {
      assert (plans + [p])[1..] == plans[1..] + [p];
      AppendRemote(plans[1..], p);
      var head := if IsDocker(plans[0]) then [] else [plans[0]];
      ConcatAssociative(head, RemotePlans(plans[1..]), if IsDocker(p) then [] else [p]);
    }
  }

  /** The locks of local plans exclude nobody, so the final block releases nothing. */
  lemma LocalResultsLockNothing(plans: seq<Tree>, locked: set<Entity>, results: seq<LockResult>,
                                environmentLocked: bool)
    requires LockOutcome(RunningTasks(plans, environmentLocked), locked, results)
    ensures LockedBy(results[..|Flatten(LocalPlans(plans))|]) == {}
  {
    var tasks, split := RunningTasks(plans, environmentLocked), |Flatten(LocalPlans(plans))|;
    LocalTasksAreDocker(plans);
    forall i: nat | i < split ensures !results[i].Locked? {
      assert tasks[i] in Flatten(LocalPlans(plans));
      assert TaskOk(tasks, locked, i, Ended(results[i]));
    }
    forall r | r in results[..split] ensures !r.Locked? {
      var i :| 0 <= i < split && results[i] == r;
    }
  }

  lemma StrandedStay(plans: seq<Tree>, locked: set<Entity>, results: seq<LockResult>, e: Entity)
    requires LockOutcome(LockTasks(plans), locked, results) && SurelyStranded(plans, locked, e)
    ensures e in LockedBy(results)
  {
    var tasks := LockTasks(plans);
    var i: nat :| i < |tasks| && StrandedAt(tasks, locked, i, e);
    assert TaskOk(tasks, locked, i, Ended(results[i]));
    assert results[i] == Locked(e) && results[i] in results;
  }

  /** What the phase comes to, for every order in which the lock tasks stepped. */
  lemma PhaseMeaning(plans: seq<Tree>, locked: set<Entity>, environmentLocked: bool, results: seq<LockResult>,
                     split: nat)
    requires LockOutcome(RunningTasks(plans, environmentLocked), locked, results)
    requires split == |Flatten(LocalPlans(plans))|
    ensures var raised := Raised in results || (RemotePlans(plans) != [] && environmentLocked);
            && (!raised <==> CanEnter(plans, locked, environmentLocked))
            && (!raised ==> LockedBy(results) == EntitiesOf(LockTasks(plans)))
    ensures split <= |results| && LockedBy(results[..split]) == {}
    ensures LockedBy(results) <= EntitiesOf(LockTasks(plans)) && LockedBy(results) !! locked
    ensures environmentLocked ==> LockedBy(results) == {}
    ensures !environmentLocked ==> forall e | SurelyStranded(plans, locked, e) :: e in LockedBy(results)
  {
    var tasks := RunningTasks(plans, environmentLocked);
    LockAllSucceedsIff(tasks, locked, results);
    LocalResultsLockNothing(plans, locked, results, environmentLocked);
    if RemotePlans(plans) == [] || !environmentLocked {
      assert tasks == LockTasks(plans);
    }
    if environmentLocked {
      assert results[..split] == results;
    } else {
      forall e | SurelyStranded(plans, locked, e) ensures e in LockedBy(results) {
        StrandedStay(plans, locked, results, e);
      }
    }
  }

  /// Giving the locks back
  /// ---------------------

  /** Executing a plan ends with releasing its lock; abandoning it releases at once. */
  predicate Releases(e: Event) {
    e.Finished? || e.DroppedByParent?
  }

  /** What the event gives back: the lock of the plan that it is about. */
  function GivenBy(tasks: seq<Tree>, e: Event): set<Entity> {
    set t | t in tasks && Exclusive(t) && Releases(e) && t.id == e.id :: t.entity
  }

  function AfterEvents(tasks: seq<Tree>, locked: set<Entity>, log: seq<Event>): set<Entity>
    decreases |log|
  {
    if log == [] then locked
    else AfterEvents(tasks, locked, log[..|log| - 1]) - GivenBy(tasks, log[|log| - 1])
  }

  /** The call of the executor is about these plans: those that take a lock are passed to
      it, and their child plans to the nested calls. */
  ghost predicate Mirrors(c: Call, plans: seq<Tree>) {
    && (forall t <- plans :: !t.noop ==> t.id in c.top)
    && (forall t <- Flatten(plans), x <- ChildPlans(t) :: !x.noop ==> IsChild(c, x.id, t.id))
  }

  /** The locks that nobody gives back: of the child plans of plans that were not executed. */
  ghost function Kept(plans: seq<Tree>, s: State): set<Entity> {
    set t, x | t in Flatten(plans) && x in ChildPlans(t) && Exclusive(x) && !WasExecuted(s, t.id) :: x.entity
  }

  ghost predicate Released(log: seq<Event>, id: PlanId) {
    exists e <- log :: Releases(e) && e.id == id
  }

  /** Exactly the locks of plans whose release is in the log are gone. */
  lemma {:induction false} EventsRelease(tasks: seq<Tree>, locked: set<Entity>, log: seq<Event>, e: Entity)
    ensures e in AfterEvents(tasks, locked, log) <==>
            e in locked && forall t <- tasks :: Exclusive(t) && t.entity == e ==> !Released(log, t.id)
    decreases |log|
  {
    if log != [] {
      var rest, last := log[..|log| - 1], log[|log| - 1];
      EventsRelease(tasks, locked, rest, e);
      assert forall v :: v in log <==> v in rest || v == last;
      assert e in GivenBy(tasks, last) <==>
        exists t <- tasks :: Exclusive(t) && t.entity == e && Releases(last) && t.id == last.id;
    }
  }

  /** What a lock excludes nobody else asks for. */
  lemma OneTakerEach(tasks: seq<Tree>, locked: set<Entity>, t: Tree, u: Tree)
    requires Lockable(tasks, locked)
    requires t in tasks && u in tasks && Exclusive(t) && Exclusive(u) && t.entity == u.entity
    ensures t == u
  {
    var i :| 0 <= i < |tasks| && tasks[i] == t;
    var j :| 0 <= j < |tasks| && tasks[j] == u;
    forall k | 0 <= k < |tasks| && k != i && Exclusive(tasks[k]) ensures tasks[k].entity != t.entity {
      assert !Disputed(tasks, locked, i);
    }
  }

  lemma ReleasedIff(c: Call, w: Layout, s: State, id: PlanId)
    requires Inv(c, w, s)
    ensures Released(s.log, id) <==> (id in s.nodes && s.nodes[id].Done?) || WasDropped(s, id)
  {
    forall ok ensures WasFinished(s, id, ok) <==> id in s.nodes && s.nodes[id] == Done(ok) {}
    if id in s.nodes && s.nodes[id].Done? {
      var e := Finished(id, s.nodes[id].ok);
      assert WasFinished(s, id, s.nodes[id].ok);
      assert e in s.log && Releases(e);
    }
    if WasDropped(s, id) {
      var e := DroppedByParent(id);
      assert e in s.log && Releases(e);
    }
    if Released(s.log, id) {
      var e :| e in s.log && Releases(e) && e.id == id;
      if e.Finished? {
        assert WasFinished(s, id, e.ok);
      } else {
        assert WasDropped(s, id);
      }
    }
  }

  /** A plan that was passed to the executor has given its lock back when it has come to
      rest; a child plan has exactly if its parent was executed. */
  lemma ReleasedAtRest(c: Call, w: Layout, run: seq<State>, id: PlanId)
    requires Consistent(c, w) && IsRun(c, run) && Quiescent(c, Last(run))
    ensures id in c.top ==> Released(Last(run).log, id)
    ensures forall q :: IsChild(c, id, q) ==> (Released(Last(run).log, id) <==> WasExecuted(Last(run), q))
  {
    RunInv(c, w, run);
    NoDeadlock(c, w, run);
    ReleasedIff(c, w, Last(run), id);
    forall q | IsChild(c, id, q) ensures Released(Last(run).log, id) <==> WasExecuted(Last(run), q) {
      ChildrenRegistered(c, w, run, q, id);
      AbandonedByParent(c, w, run, q, id);
    }
  }

  /** Lock phase and executor together: of what was locked in between, only the locks of
      child plans of plans that were not executed are left. */
  lemma LocksAfterwards(plans: seq<Tree>, locked: set<Entity>, c: Call, w: Layout, run: seq<State>)
    requires Consistent(c, w) && IsRun(c, run) && Quiescent(c, Last(run))
    requires Mirrors(c, plans) && Lockable(LockTasks(plans), locked)
    ensures AfterEvents(LockTasks(plans), locked + EntitiesOf(LockTasks(plans)), Last(run).log) ==
            locked + Kept(plans, Last(run))
    ensures Kept(plans, Last(run)) <= EntitiesOf(LockTasks(plans))
  {
    var tasks, log := LockTasks(plans), Last(run).log;
    KeptIsLocked(plans, Last(run));
    forall e
      ensures e in AfterEvents(tasks, locked + EntitiesOf(tasks), log) <==> e in locked + Kept(plans, Last(run))
    {
      EventsRelease(tasks, locked + EntitiesOf(tasks), log, e);
      if t :| t in tasks && Exclusive(t) && t.entity == e {
        OthersKeepAway(tasks, locked, t);
        forall u | u in tasks && Exclusive(u) && u.entity == e ensures u == t {
          OneTakerEach(tasks, locked, t, u);
        }
        KeptIff(plans, locked, c, w, run, t);
      }
    }
  }

  lemma KeptIsLocked(plans: seq<Tree>, s: State)
    ensures Kept(plans, s) <= EntitiesOf(LockTasks(plans))
  {
    forall e | e in Kept(plans, s) ensures e in EntitiesOf(LockTasks(plans)) {
      var t, x :| t in Flatten(plans) && x in ChildPlans(t) && Exclusive(x) && !WasExecuted(s, t.id) && x.entity == e;
      ChildrenFlattened(plans, t, x);
      SplitFlattens(plans, x);
    }
  }

  lemma OthersKeepAway(tasks: seq<Tree>, locked: set<Entity>, t: Tree)
    requires Lockable(tasks, locked) && t in tasks && Exclusive(t)
    ensures t.entity !in locked
  {
    var i :| 0 <= i < |tasks| && tasks[i] == t;
    assert !Disputed(tasks, locked, i);
  }

  lemma KeptIff(plans: seq<Tree>, locked: set<Entity>, c: Call, w: Layout, run: seq<State>, t: Tree)
    requires Consistent(c, w) && IsRun(c, run) && Quiescent(c, Last(run))
    requires Mirrors(c, plans) && Lockable(LockTasks(plans), locked)
    requires t in LockTasks(plans) && Exclusive(t)
    ensures t.entity in Kept(plans, Last(run)) <==> !Released(Last(run).log, t.id)
  {
    var s := Last(run);
    SplitFlattens(plans, t);
    FlattenFromAbove(plans, t);
    ReleasedAtRest(c, w, run, t.id);
    if t.entity in Kept(plans, s) {
      var q, x :|
        q in Flatten(plans) && x in ChildPlans(q) && Exclusive(x) && !WasExecuted(s, q.id) && x.entity == t.entity;
      ChildrenFlattened(plans, q, x);
      SplitFlattens(plans, x);
      OneTakerEach(LockTasks(plans), locked, x, t);
      assert IsChild(c, x.id, q.id);
    }
    if !Released(s.log, t.id) {
      var q :| q in Flatten(plans) && t in ChildPlans(q);
      assert IsChild(c, t.id, q.id);
      assert t.entity in Kept(plans, s);
    }
  }

  /** Every lock is given back if only plans that were passed to the executor have child
      plans and these depend on nothing, as service plans do: they are always executed. */
  lemma NothingKept(plans: seq<Tree>, c: Call, w: Layout, run: seq<State>)
    requires Consistent(c, w) && IsRun(c, run) && Quiescent(c, Last(run))
    requires forall t <- Flatten(plans) :: ChildPlans(t) != [] ==>
      t.id in c.top && t.id in c.plans && c.plans[t.id].dependsOn == []
    ensures Kept(plans, Last(run)) == {}
  {
    RunInv(c, w, run);
    NoDeadlock(c, w, run);
    forall t | t in Flatten(plans) && ChildPlans(t) != [] ensures WasExecuted(Last(run), t.id) {
      assert NodeInv(c, Last(run), t.id, WasExecuted(Last(run), t.id));
    }
  }

  /** A parent's handler abandons only children that are finished or were never passed on. */
  lemma DoneBeforeParent(c: Call, w: Layout, s: State, x: PlanId)
    requires Inv(c, w, s)
    ensures ParentFailed(c, w, s, x) <==> WasDropped(s, x) || x in s.dropping
    ensures ParentFailed(c, w, s, x) && x in s.nodes ==> s.nodes[x].Done?
  {
    var q := w.parent(x);
    if q in s.nodes {
      assert NodeInv(c, s, q, WasExecuted(s, q));
    }
  }

  /** At every point of every run a plan that is being executed holds its lock. */
  lemma ExecutingHoldsLock(plans: seq<Tree>, locked: set<Entity>, c: Call, w: Layout, run: seq<State>, t: Tree)
    requires Consistent(c, w) && IsRun(c, run)
    requires Lockable(LockTasks(plans), locked) && t in LockTasks(plans) && Exclusive(t)
    requires t.id in Last(run).nodes && Last(run).nodes[t.id].Executing?
    ensures t.entity in AfterEvents(LockTasks(plans), locked + EntitiesOf(LockTasks(plans)), Last(run).log)
  {
    var tasks, s := LockTasks(plans), Last(run);
    RunInv(c, w, run);
    ReleasedIff(c, w, s, t.id);
    DoneBeforeParent(c, w, s, t.id);
    forall u | u in tasks && Exclusive(u) && u.entity == t.entity ensures u == t {
      OneTakerEach(tasks, locked, t, u);
    }
    EventsRelease(tasks, locked + EntitiesOf(tasks), s.log, t.entity);
  }
}
