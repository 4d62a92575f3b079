/** The concurrent plan executor of launchflow/flows/plan.py.

    A call of `execute_plans` registers its plans in a process-wide registry and
    starts one asyncio task per plan. A task checks that its dependencies are
    registered, waits for them, and then abandons or executes its plan. Executing a
    service plan re-enters `execute_plans` with the service's child plans. Control
    can change hands only at an `await`, so a run is a sequence of atomic steps of
    the tasks; the order in which tasks step is arbitrary. */
module PlanExecutor {
  type PlanId = string

  /** What executing a plan does once its dependencies have succeeded.
      `RaisesEarly`: it fails before its child plans are passed to the executor.
      `FailsLate`: it fails after its child plans have finished.
      For a plan without children the two are the same failure. */
  datatype Outcome = Succeeds | RaisesEarly | FailsLate

  datatype Plan = Plan(dependsOn: seq<PlanId>, children: seq<PlanId>, outcome: Outcome)

  /** One outermost call: every plan that it can reach, the plans passed to it, and
      the results that earlier calls left in the registry. */
  datatype Call = Call(plans: map<PlanId, Plan>, top: seq<PlanId>, prior: map<PlanId, bool>)

  /** `Idle`: registered, `execute_task` is None. `Scheduled`: the task exists and has
      not run. `Waiting`: it is gathering its dependencies. `Executing`: inside
      `execute_plan`. */
  datatype Phase = Idle | Scheduled | Waiting | Executing | Done(ok: bool)

  /** `DroppedByParent`: `abandon_plan` called by the parent's exception handler
      rather than by the executor. */
  datatype Event =
    | Executed(id: PlanId)
    | Abandoned(id: PlanId)
    | Finished(id: PlanId, ok: bool)
    | DroppedByParent(id: PlanId)

  /** `nodes` holds what this call registered; anything else is looked up in
      `call.prior`, which the new registrations shadow. `dropping` are the plans whose
      `abandon_plan` a handler has scheduled and which has not run yet: the handler of a
      service plan does not await the `gather` over them. */
  datatype State = State(nodes: map<PlanId, Phase>, log: seq<Event>, dropping: set<PlanId>)

  datatype Action = Launch(id: PlanId) | Start(id: PlanId) | Resolve(id: PlanId) | Finish(id: PlanId) | Drop(id: PlanId)

  predicate Registered(c: Call, s: State, id: PlanId) {
    id in s.nodes || id in c.prior
  }

  predicate Completed(c: Call, s: State, id: PlanId) {
    if id in s.nodes then s.nodes[id].Done? else id in c.prior
  }

  predicate Succeeded(c: Call, s: State, id: PlanId) {
    if id in s.nodes then s.nodes[id] == Done(true) else id in c.prior && c.prior[id]
  }

  function Ids(ids: seq<PlanId>): set<PlanId> {
    set x | x in ids
  }

  function Register(nodes: map<PlanId, Phase>, ids: seq<PlanId>): map<PlanId, Phase> {
    map id | id in nodes.Keys + Ids(ids) :: if id in Ids(ids) then Idle else nodes[id]
  }

  lemma RegisterNext(nodes: map<PlanId, Phase>, ids: seq<PlanId>, i: nat)
    requires i < |ids|
    ensures Register(nodes, ids[..i + 1]) == Register(nodes, ids[..i])[ids[i] := Idle]
    ensures Ids(ids[..i + 1]) == Ids(ids[..i]) + {ids[i]}
  {
    assert ids[..i + 1] == ids[..i] + [ids[i]];
    assert forall x :: x in ids[..i + 1] <==> x in ids[..i] || x == ids[i];
  }

  /** The part of the registry that belongs to one call. */
  function Part(nodes: map<PlanId, Phase>, ids: set<PlanId>): map<PlanId, Phase> {
    map id | id in ids && id in nodes :: nodes[id]
  }

  lemma RegisterPart(nodes: map<PlanId, Phase>, current: set<PlanId>, ids: seq<PlanId>)
    ensures Part(Register(nodes, ids), current + Ids(ids)) == Register(Part(nodes, current), ids)
    ensures Register(nodes, ids).Keys == nodes.Keys + Ids(ids)
  {
  }

  function Init(c: Call): State {
    State(Register(map[], c.top), [], {})
  }

  predicate Enabled(c: Call, s: State, a: Action) {
    if a.Drop? then a.id in s.dropping else TaskEnabled(c, s, a)
  }

  /** The task of a plan can take its next step. */
  predicate TaskEnabled(c: Call, s: State, a: Action) {
    && a.id in s.nodes
    && a.id in c.plans
    && var p := c.plans[a.id];
    match a
    case Launch(id) => s.nodes[id] == Idle
    case Start(id) => s.nodes[id] == Scheduled
    case Resolve(id) => s.nodes[id] == Waiting && forall d <- p.dependsOn :: Completed(c, s, d)
    case Finish(id) => s.nodes[id] == Executing && forall x <- p.children :: Completed(c, s, x)
    case Drop(_) => false
  }

  /** The step abandons its plan: a dependency is not registered, or one failed. */
  predicate Abandons(c: Call, s: State, a: Action)
    requires TaskEnabled(c, s, a)
  {
    || (a.Start? && exists d <- c.plans[a.id].dependsOn :: !Registered(c, s, d))
    || (a.Resolve? && exists d <- c.plans[a.id].dependsOn :: !Succeeded(c, s, d))
  }

  predicate Executes(c: Call, s: State, a: Action)
    requires TaskEnabled(c, s, a)
  {
    a.Resolve? && !Abandons(c, s, a)
  }

  /** Where the stepping plan goes. `Resolve` abandons the plan, or takes it into
      `execute_plan` and, if it has children, on to the nested call: a plan that saves
      its in-progress record before it passes on its children is still `Waiting`. */
  function NextPhase(c: Call, s: State, a: Action): Phase
    requires TaskEnabled(c, s, a)
  {
    var p := c.plans[a.id];
    match a
    case Launch(_) => Scheduled
    case Start(_) => if Abandons(c, s, a) then Done(false) else Waiting
    case Resolve(_) => if Abandons(c, s, a) || p.outcome == RaisesEarly then Done(false) else Executing
    case Finish(_) => Done(p.outcome == Succeeds && forall x <- p.children :: Succeeded(c, s, x))
  }

  /** The step runs the exception handler of a plan that failed by itself. */
  predicate Dropping(c: Call, s: State, a: Action)
    requires TaskEnabled(c, s, a)
  {
    || (Executes(c, s, a) && c.plans[a.id].outcome == RaisesEarly)
    || (a.Finish? && c.plans[a.id].outcome == FailsLate)
  }

  /** What the step reports. */
  function Emits(c: Call, s: State, a: Action): seq<Event>
    requires TaskEnabled(c, s, a)
  {
    var head := if Executes(c, s, a) then [Executed(a.id)] else if Abandons(c, s, a) then [Abandoned(a.id)] else [];
    var phase := NextPhase(c, s, a);
    head + if phase.Done? then [Finished(a.id, phase.ok)] else []
  }

  function TaskNodes(c: Call, s: State, a: Action): map<PlanId, Phase>
    requires TaskEnabled(c, s, a)
  {
    var phase := NextPhase(c, s, a);
    (if phase == Executing then Register(s.nodes, c.plans[a.id].children) else s.nodes)[a.id := phase]
  }

  /** The children that the step's exception handler schedules to be abandoned. */
  function Scheduling(c: Call, s: State, a: Action): set<PlanId>
    requires TaskEnabled(c, s, a)
  {
    if Dropping(c, s, a) then Ids(c.plans[a.id].children) else {}
  }

  /** A step of a task. A plan that enters `execute_plan` registers its children. */
  function TaskNext(c: Call, s: State, a: Action): State
    requires TaskEnabled(c, s, a)
  {
    State(TaskNodes(c, s, a), s.log + Emits(c, s, a), s.dropping + Scheduling(c, s, a))
  }

  /** One atomic step: of a task, or of an `abandon_plan` that a handler scheduled. */
  function Next(c: Call, s: State, a: Action): State
    requires Enabled(c, s, a)
  {
    if a.Drop? then State(s.nodes, s.log + [DroppedByParent(a.id)], s.dropping - {a.id}) else TaskNext(c, s, a)
  }

  ghost predicate Step(c: Call, s: State, s': State) {
    exists a :: Enabled(c, s, a) && s' == Next(c, s, a)
  }

  ghost predicate IsRun(c: Call, run: seq<State>) {
    && |run| > 0
    && run[0] == Init(c)
    && forall i :: 0 <= i < |run| - 1 ==> Step(c, run[i], run[i + 1])
  }

  function Last(run: seq<State>): State
    requires |run| > 0
  {
    run[|run| - 1]
  }

  ghost predicate Quiescent(c: Call, s: State) {
    forall a :: !Enabled(c, s, a)
  }

  /// What a caller owes the executor
  /// -------------------------------

  /** How the plans of a call hang together: a rank that falls along every wait, and
      the one plan that a child belongs to. */
  datatype Layout = Layout(rank: PlanId -> nat, parent: PlanId -> PlanId)

  /** Dependencies and children are strictly below their plan: no cyclic wait. */
  ghost predicate Acyclic(c: Call, w: Layout) {
    forall id <- c.plans ::
      && (forall d <- c.plans[id].dependsOn :: d in c.plans ==> w.rank(d) < w.rank(id))
      && (forall x <- c.plans[id].children :: x in c.plans && w.rank(x) < w.rank(id))
  }

  /** No plan id is registered twice: a plan has one parent, or is passed directly. */
  ghost predicate DistinctIds(c: Call, w: Layout) {
    && (forall t <- c.top :: t in c.plans)
    && (forall q <- c.plans, x <- c.plans[q].children :: x !in c.top && w.parent(x) == q)
  }

  /** What every result below rests on. */
  ghost predicate Consistent(c: Call, w: Layout) {
    Acyclic(c, w) && DistinctIds(c, w)
  }

  ghost predicate IsChild(c: Call, x: PlanId, q: PlanId) {
    q in c.plans && x in c.plans[q].children
  }

  /** `p` is a child of `q`, or a child of a child, and so on: `q` encloses `p`. */
  ghost predicate Under(c: Call, w: Layout, p: PlanId, q: PlanId)
    requires Acyclic(c, w)
    decreases w.rank(q)
  {
    q in c.plans && (p in c.plans[q].children || exists r <- c.plans[q].children :: Under(c, w, p, r))
  }

  ghost predicate Reachable(c: Call, w: Layout, p: PlanId)
    requires Acyclic(c, w)
  {
    p in c.top || exists t <- c.top :: Under(c, w, p, t)
  }

  /** `e` cannot finish with success before `q` has: they are one, or a dependency or a
      child of `e` cannot. */
  ghost predicate Settles(c: Call, w: Layout, e: PlanId, q: PlanId)
    requires Acyclic(c, w)
    decreases w.rank(e)
  {
    e in c.plans && (e == q || exists x :: Needs(c, e, x) && Settles(c, w, x, q))
  }

  /** `x` is a plan of the call that `e` waits for, before or while it executes. */
  ghost predicate Needs(c: Call, e: PlanId, x: PlanId) {
    e in c.plans && x in c.plans && (x in c.plans[e].dependsOn || x in c.plans[e].children)
  }

  /** `a` is not entered before `q` has finished with success. */
  ghost predicate AwaitsBefore(c: Call, w: Layout, a: PlanId, q: PlanId)
    requires Acyclic(c, w)
  {
    a in c.plans && exists e <- c.plans[a].dependsOn :: Settles(c, w, e, q)
  }

  /** By the time `p` is registered `d` is, too: `d` is passed directly to the call, or
      its parent encloses `p`, or a plan that encloses `p` waits for its parent. */
  ghost predicate InScope(c: Call, w: Layout, p: PlanId, d: PlanId)
    requires Acyclic(c, w)
  {
    var q := w.parent(d);
    || d in c.top
    || (IsChild(c, d, q) && exists a :: Under(c, w, p, a) && (a == q || AwaitsBefore(c, w, a, q)))
  }

  /** Every plan that can be registered depends on plans in scope, and on ids that this
      call never registers. */
  ghost predicate Scoped(c: Call, w: Layout)
    requires Acyclic(c, w)
  {
    forall p <- c.plans, d <- c.plans[p].dependsOn :: d in c.plans && Reachable(c, w, p) ==> InScope(c, w, p, d)
  }

  ghost predicate WellFormed(c: Call, w: Layout) {
    Consistent(c, w) && Scoped(c, w)
  }

  /** A call without child plans, to which every plan is passed directly. */
  lemma FlatIsWellFormed(c: Call, w: Layout)
    requires forall t <- c.top :: t in c.plans
    requires forall id <- c.plans :: c.plans[id].children == [] && id in c.top
    requires forall id <- c.plans, d <- c.plans[id].dependsOn :: d in c.plans ==> w.rank(d) < w.rank(id)
    ensures WellFormed(c, w)
  {
    assert Consistent(c, w);
  }

  /// The recursive specification
  /// ---------------------------

  /** The result a plan must have, whatever the schedule. */
  ghost predicate Ok(c: Call, w: Layout, id: PlanId)
    requires Acyclic(c, w) && id in c.plans
    decreases w.rank(id), 1
  {
    && DepsOk(c, w, id)
    && c.plans[id].outcome == Succeeds
    && forall x <- c.plans[id].children :: Ok(c, w, x)
  }

  /** Every dependency is registered and ok: the plan is executed, not abandoned. */
  ghost predicate DepsOk(c: Call, w: Layout, id: PlanId)
    requires Acyclic(c, w) && id in c.plans
    decreases w.rank(id), 0
  {
    forall d <- c.plans[id].dependsOn ::
      if d in c.plans then Ok(c, w, d) else d in c.prior && c.prior[d]
  }

  /// The invariant of every run
  /// --------------------------

  /** How often the plan was executed or abandoned by the executor. */
  function Runs(log: seq<Event>, id: PlanId): nat {
    Count(log, Executed(id)) + Count(log, Abandoned(id))
  }

  function Count(log: seq<Event>, e: Event): nat {
    if log == [] then 0 else Count(log[..|log| - 1], e) + if log[|log| - 1] == e then 1 else 0
  }

  /** A plan begins executing only after all its dependencies finished with success. */
  ghost predicate DependencyFirst(c: Call, log: seq<Event>) {
    forall i | 0 <= i < |log| && log[i].Executed? && log[i].id in c.plans ::
      FinishedBefore(c, log[..i], log[i].id)
  }

  /** In this call, or, for an id that is not passed to it directly, in an earlier one. */
  ghost predicate FinishedBefore(c: Call, log: seq<Event>, id: PlanId)
    requires id in c.plans
  {
    forall d <- c.plans[id].dependsOn :: Finished(d, true) in log || (d !in c.top && d in c.prior && c.prior[d])
  }

  ghost predicate Shape(c: Call, w: Layout, s: State) {
    && s.nodes.Keys <= c.plans.Keys
    && (forall t <- c.top :: t in s.nodes)
    && (forall id {:trigger RegisteredByParent(c, w, s, id)} | id in s.nodes ::
          id in c.top || RegisteredByParent(c, w, s, id))
  }

  ghost predicate RegisteredByParent(c: Call, w: Layout, s: State, id: PlanId) {
    var q := w.parent(id);
    IsChild(c, id, q) && q in s.nodes && ChildrenPresent(c, s, q)
  }

  ghost predicate ChildrenPresent(c: Call, s: State, id: PlanId)
    requires id in c.plans
  {
    forall x <- c.plans[id].children :: x in s.nodes
  }

  ghost predicate ChildrenAbsent(c: Call, s: State, id: PlanId)
    requires id in c.plans
  {
    forall x <- c.plans[id].children :: x !in s.nodes
  }

  ghost predicate ChildrenDone(c: Call, s: State, id: PlanId)
    requires id in c.plans
  {
    forall x <- c.plans[id].children :: x in s.nodes && s.nodes[x].Done?
  }

  ghost predicate ChildrenOk(c: Call, s: State, id: PlanId)
    requires id in c.plans
  {
    forall x <- c.plans[id].children :: x in s.nodes && s.nodes[x] == Done(true)
  }

  /** `executed`: the plan was executed rather than abandoned. A finished plan has passed
      on its children exactly if it was executed and got that far, and it succeeded
      exactly if it was executed, did not fail itself, and all its children did. A plan
      without dependencies is not abandoned. */
  ghost predicate NodeInv(c: Call, s: State, id: PlanId, executed: bool)
    requires s.nodes.Keys <= c.plans.Keys && id in s.nodes
  {
    var p := c.plans[id];
    match s.nodes[id]
    case Idle => ChildrenAbsent(c, s, id)
    case Scheduled => ChildrenAbsent(c, s, id)
    case Waiting => ChildrenAbsent(c, s, id) && forall d <- p.dependsOn :: Registered(c, s, d)
    case Executing => executed && p.outcome != RaisesEarly && ChildrenPresent(c, s, id)
    case Done(ok) =>
      && (executed || p.dependsOn != [])
      && (ok <==> executed && p.outcome == Succeeds && ChildrenOk(c, s, id))
      && if executed && p.outcome != RaisesEarly then ChildrenDone(c, s, id) else ChildrenAbsent(c, s, id)
  }

  predicate Begun(s: State, id: PlanId) {
    id in s.nodes && (s.nodes[id].Executing? || s.nodes[id].Done?)
  }

  predicate WasExecuted(s: State, id: PlanId) {
    Executed(id) in s.log
  }

  predicate WasFinished(s: State, id: PlanId, ok: bool) {
    Finished(id, ok) in s.log
  }

  ghost predicate NodesOk(c: Call, s: State) {
    && s.nodes.Keys <= c.plans.Keys
    && forall id <- s.nodes :: NodeInv(c, s, id, WasExecuted(s, id))
  }

  ghost predicate LogInv(c: Call, s: State) {
    && DependencyFirst(c, s.log)
    && (forall id, ok {:trigger WasFinished(s, id, ok)} ::
          WasFinished(s, id, ok) <==> id in s.nodes && s.nodes[id] == Done(ok))
    && (forall id {:trigger Begun(s, id)} :: Runs(s.log, id) == if Begun(s, id) then 1 else 0)
    && (forall id {:trigger WasExecuted(s, id)} :: WasExecuted(s, id) ==> Begun(s, id))
  }

  /** `x` is a child of a plan that was executed and whose own step failed. */
  ghost predicate ParentFailed(c: Call, w: Layout, s: State, x: PlanId) {
    var q := w.parent(x);
    IsChild(c, x, q) && q in s.nodes && s.nodes[q].Done? && WasExecuted(s, q) && c.plans[q].outcome != Succeeds
  }

  predicate WasDropped(s: State, x: PlanId) {
    DroppedByParent(x) in s.log
  }

  /** Each child of such a plan is waiting to be abandoned, or has been, once. */
  ghost predicate DropInv(c: Call, w: Layout, s: State) {
    && (forall x {:trigger WasDropped(s, x)} :: WasDropped(s, x) ==> x !in s.dropping)
    && (forall x {:trigger WasDropped(s, x)} {:trigger ParentFailed(c, w, s, x)} ::
      ParentFailed(c, w, s, x) <==> WasDropped(s, x) || x in s.dropping)
  }

  ghost predicate Inv(c: Call, w: Layout, s: State) {
    Shape(c, w, s) && NodesOk(c, s) && LogInv(c, s) && DropInv(c, w, s)
  }

  lemma CountConcat(a: seq<Event>, b: seq<Event>, e: Event)
    ensures Count(a + b, e) == Count(a, e) + Count(b, e)
  {
    if b == [] {
      assert a + b == a;
    } else {
      assert (a + b)[..|a + b| - 1] == a + b[..|b| - 1];
      CountConcat(a, b[..|b| - 1], e);
    }
  }

  lemma {:induction false} CountMember(log: seq<Event>, e: Event)
    ensures Count(log, e) > 0 <==> e in log
    decreases |log|
  {
    if log != [] {
      var rest := log[..|log| - 1];
      CountMember(rest, e);
      assert log == rest + [log[|log| - 1]];
    }
  }

  lemma InitInv(c: Call, w: Layout)
    requires Consistent(c, w)
    ensures Inv(c, w, Init(c))
  {
  }

  /// A step of a task
  /// ----------------

  lemma StepShape(c: Call, w: Layout, s: State, a: Action)
    requires Consistent(c, w) && Shape(c, w, s) && TaskEnabled(c, s, a)
    ensures Shape(c, w, TaskNext(c, s, a))
  {
    var s' := TaskNext(c, s, a);
    forall id | id in s'.nodes
      ensures id in c.top || RegisteredByParent(c, w, s', id)
    {
      if id in s.nodes && id !in c.top {
        assert RegisteredByParent(c, w, s, id);
      }
    }
  }

  /** What a step of `id` may do to the registry. */
  ghost predicate Grows(c: Call, s: State, s': State, id: PlanId) {
    && s.nodes.Keys <= s'.nodes.Keys
    && (forall y <- s.nodes :: y != id ==> s'.nodes[y] == s.nodes[y])
    && (forall y <- s'.nodes :: y !in s.nodes ==> IsChild(c, y, id) && s'.nodes[y] == Idle)
  }

  lemma NextGrows(c: Call, s: State, a: Action)
    requires TaskEnabled(c, s, a) && NodesOk(c, s)
    ensures a.id in s.nodes && Grows(c, s, TaskNext(c, s, a), a.id)
    ensures Remaining(TaskNext(c, s, a), a.id) < Remaining(s, a.id) <= 4
  {
    assert NodeInv(c, s, a.id, WasExecuted(s, a.id));
  }

  /** The log gets at most the stepping plan's own events. */
  lemma LogMembers(c: Call, s: State, a: Action)
    requires TaskEnabled(c, s, a)
    ensures forall id :: WasExecuted(TaskNext(c, s, a), id) <==> WasExecuted(s, id) || (id == a.id && Executes(c, s, a))
    ensures forall id :: WasDropped(TaskNext(c, s, a), id) <==> WasDropped(s, id)
  {
  }

  lemma StepNodes(c: Call, w: Layout, s: State, a: Action)
    requires Consistent(c, w) && Inv(c, w, s) && TaskEnabled(c, s, a)
    ensures NodesOk(c, TaskNext(c, s, a))
  {
    var s' := TaskNext(c, s, a);
    NextGrows(c, s, a);
    LogMembers(c, s, a);
    StepShape(c, w, s, a);
    forall id | id in s'.nodes ensures NodeInv(c, s', id, WasExecuted(s', id)) {
      if id == a.id {
        StepOwnNode(c, s, a);
      } else {
        if id !in s.nodes {
          NewNode(c, w, s, id);
        }
        StepOtherNode(c, w, s, s', a.id, id, WasExecuted(s, id));
      }
    }
  }

  lemma StepOwnNode(c: Call, s: State, a: Action)
    requires NodesOk(c, s) && LogInv(c, s) && TaskEnabled(c, s, a)
    requires TaskNext(c, s, a).nodes.Keys <= c.plans.Keys
    ensures a.id in TaskNext(c, s, a).nodes
    ensures NodeInv(c, TaskNext(c, s, a), a.id, WasExecuted(s, a.id) || Executes(c, s, a))
  {
    assert NodeInv(c, s, a.id, WasExecuted(s, a.id));
    assert WasExecuted(s, a.id) ==> Begun(s, a.id);
  }

  /** A plan that is not registered has no registered child. */
  lemma NewNode(c: Call, w: Layout, s: State, id: PlanId)
    requires Consistent(c, w) && Shape(c, w, s) && id in c.plans && id !in s.nodes
    ensures ChildrenAbsent(c, s, id)
  {
    forall x | x in c.plans[id].children ensures x !in s.nodes {
      assert w.parent(x) == id;
      assert x in s.nodes ==> RegisteredByParent(c, w, s, x);
    }
  }

  lemma StepOtherNode(c: Call, w: Layout, s: State, s': State, actor: PlanId, id: PlanId, executed: bool)
    requires Consistent(c, w) && s.nodes.Keys <= c.plans.Keys && s'.nodes.Keys <= c.plans.Keys
    requires actor in s.nodes && !s.nodes[actor].Done? && Grows(c, s, s', actor)
    requires id in s'.nodes && id != actor
    requires if id in s.nodes then NodeInv(c, s, id, executed) else ChildrenAbsent(c, s, id)
    ensures NodeInv(c, s', id, executed)
  {
    forall x | x in c.plans[id].children ensures x in s'.nodes <==> x in s.nodes {
      assert w.parent(x) == id;
    }
    if id in s.nodes {
      assert forall d :: Registered(c, s, d) ==> Registered(c, s', d);
    }
  }

  lemma ExtendDependencyFirst(c: Call, log: seq<Event>, tail: seq<Event>)
    requires DependencyFirst(c, log)
    requires forall i :: 0 <= i < |tail| && tail[i].Executed? ==>
      i == 0 && (tail[i].id in c.plans ==> FinishedBefore(c, log, tail[i].id))
    ensures DependencyFirst(c, log + tail)
  {
    var log' := log + tail;
    forall i | 0 <= i < |log'| && log'[i].Executed? && log'[i].id in c.plans
      ensures FinishedBefore(c, log'[..i], log'[i].id)
    {
      if i < |log| {
        assert log'[..i] == log[..i];
      } else {
        assert log'[i] == tail[i - |log|];
        assert log'[..i] == log;
      }
    }
  }

  lemma LogCounts(c: Call, s: State, a: Action, id: PlanId)
    requires TaskEnabled(c, s, a)
    ensures Runs(TaskNext(c, s, a).log, id) ==
            Runs(s.log, id) + if id == a.id && (Executes(c, s, a) || Abandons(c, s, a)) then 1 else 0
  {
    RunsConcat(s.log, Emits(c, s, a), id);
  }

  lemma RunsConcat(log: seq<Event>, tail: seq<Event>, id: PlanId)
    requires |tail| <= 2 && (|tail| == 2 ==> tail[1].Finished?)
    ensures Runs(log + tail, id) ==
      Runs(log, id) + if |tail| > 0 && tail[0] in {Executed(id), Abandoned(id)} then 1 else 0
  {
    CountConcat(log, tail, Executed(id));
    CountConcat(log, tail, Abandoned(id));
    CountFew(tail, Executed(id));
    CountFew(tail, Abandoned(id));
  }

  /** At most one of two events is the one counted. */
  lemma CountFew(log: seq<Event>, e: Event)
    requires |log| <= 2 && (|log| == 2 ==> log[1].Finished?)
    requires !e.Finished?
    ensures Count(log, e) == if |log| > 0 && log[0] == e then 1 else 0
  {
    if |log| == 2 {
      assert log[..1] == [log[0]];
      assert [log[0]][..0] == [];
    } else if |log| == 1 {
      assert log[..0] == [];
    }
  }

  lemma StepRuns(c: Call, s: State, a: Action, id: PlanId)
    requires NodesOk(c, s) && LogInv(c, s) && TaskEnabled(c, s, a)
    ensures Runs(TaskNext(c, s, a).log, id) == if Begun(TaskNext(c, s, a), id) then 1 else 0
    ensures WasExecuted(TaskNext(c, s, a), id) ==> Begun(TaskNext(c, s, a), id)
  {
    LogCounts(c, s, a, id);
    LogMembers(c, s, a);
    StepBegins(c, s, a, id);
    assert WasExecuted(s, id) ==> Begun(s, id);
    assert Runs(s.log, id) == if Begun(s, id) then 1 else 0;
  }

  /** A plan begins when it is executed or abandoned. */
  lemma StepBegins(c: Call, s: State, a: Action, id: PlanId)
    requires NodesOk(c, s) && TaskEnabled(c, s, a)
    ensures Begun(TaskNext(c, s, a), id) <==> Begun(s, id) || (id == a.id && (Executes(c, s, a) || Abandons(c, s, a)))
    ensures id == a.id && (Executes(c, s, a) || Abandons(c, s, a)) ==> !Begun(s, id)
  {
    NextGrows(c, s, a);
  }

  lemma StepFinished(c: Call, s: State, a: Action, id: PlanId, ok: bool)
    requires NodesOk(c, s) && LogInv(c, s) && TaskEnabled(c, s, a)
    ensures WasFinished(TaskNext(c, s, a), id, ok) <==>
            id in TaskNext(c, s, a).nodes && TaskNext(c, s, a).nodes[id] == Done(ok)
  {
    NextGrows(c, s, a);
    assert WasFinished(s, id, ok) <==> id in s.nodes && s.nodes[id] == Done(ok);
    assert Finished(id, ok) in Emits(c, s, a) <==> id == a.id && NextPhase(c, s, a) == Done(ok);
  }

  lemma StepLog(c: Call, w: Layout, s: State, a: Action)
    requires Shape(c, w, s) && NodesOk(c, s) && LogInv(c, s) && TaskEnabled(c, s, a)
    ensures LogInv(c, TaskNext(c, s, a))
  {
    var s' := TaskNext(c, s, a);
    if Executes(c, s, a) {
      forall d | d in c.plans[a.id].dependsOn
        ensures Finished(d, true) in s.log || (d !in c.top && d in c.prior && c.prior[d])
      {
        assert Succeeded(c, s, d);
        assert d in s.nodes ==> WasFinished(s, d, true);
      }
    }
    ExtendDependencyFirst(c, s.log, Emits(c, s, a));
    forall id, ok
      ensures WasFinished(s', id, ok) <==> id in s'.nodes && s'.nodes[id] == Done(ok)
    {
      StepFinished(c, s, a, id, ok);
    }
    forall id
      ensures Runs(s'.log, id) == if Begun(s', id) then 1 else 0
      ensures WasExecuted(s', id) ==> Begun(s', id)
    {
      StepRuns(c, s, a, id);
    }
  }

  lemma StepDrops(c: Call, w: Layout, s: State, a: Action)
    requires Consistent(c, w) && Inv(c, w, s) && TaskEnabled(c, s, a)
    ensures DropInv(c, w, TaskNext(c, s, a))
  {
    var s' := TaskNext(c, s, a);
    NextGrows(c, s, a);
    LogMembers(c, s, a);
    assert WasExecuted(s, a.id) ==> Begun(s, a.id);
    assert NodeInv(c, s, a.id, WasExecuted(s, a.id));
    forall x
      ensures WasDropped(s', x) ==> x !in s'.dropping
      ensures ParentFailed(c, w, s', x) <==> WasDropped(s', x) || x in s'.dropping
    {
      StepDrop(c, w, s, a, x);
    }
  }

  lemma StepDrop(c: Call, w: Layout, s: State, a: Action, x: PlanId)
    requires Consistent(c, w) && NodesOk(c, s) && LogInv(c, s) && DropInv(c, w, s) && TaskEnabled(c, s, a)
    ensures WasDropped(s, x) ==> x !in TaskNext(c, s, a).dropping
    ensures ParentFailed(c, w, TaskNext(c, s, a), x) <==> WasDropped(s, x) || x in TaskNext(c, s, a).dropping
  {
    NextGrows(c, s, a);
    LogMembers(c, s, a);
    assert NodeInv(c, s, a.id, WasExecuted(s, a.id));
    assert WasExecuted(s, a.id) ==> Begun(s, a.id);
    assert ParentFailed(c, w, s, x) <==> WasDropped(s, x) || x in s.dropping;
    if IsChild(c, x, a.id) {
      assert w.parent(x) == a.id;
    }
  }

  lemma DropKeeps(c: Call, w: Layout, s: State, x: PlanId)
    requires Inv(c, w, s) && x in s.dropping
    ensures Inv(c, w, Next(c, s, Drop(x)))
  {
    var s' := Next(c, s, Drop(x));
    ExtendDependencyFirst(c, s.log, [DroppedByParent(x)]);
    forall id ensures WasExecuted(s', id) == WasExecuted(s, id) {}
    forall id ensures WasDropped(s', id) <==> WasDropped(s, id) || id == x {}
    forall id, ok ensures WasFinished(s', id, ok) == WasFinished(s, id, ok) {}
    forall id ensures Runs(s'.log, id) == Runs(s.log, id) && Begun(s', id) == Begun(s, id) {
      RunsConcat(s.log, [DroppedByParent(x)], id);
    }
    forall y ensures ParentFailed(c, w, s', y) == ParentFailed(c, w, s, y) {}
    forall id | id in s'.nodes ensures NodeInv(c, s', id, WasExecuted(s', id)) {
      assert NodeInv(c, s, id, WasExecuted(s, id));
    }
    forall id | id in s'.nodes && id !in c.top ensures RegisteredByParent(c, w, s', id) {
      assert RegisteredByParent(c, w, s, id);
    }
  }

  lemma StepInv(c: Call, w: Layout, s: State, a: Action)
    requires Consistent(c, w) && Inv(c, w, s) && Enabled(c, s, a)
    ensures Inv(c, w, Next(c, s, a))
  {
    if a.Drop? {
      DropKeeps(c, w, s, a.id);
    } else {
      StepShape(c, w, s, a);
      StepNodes(c, w, s, a);
      StepLog(c, w, s, a);
      StepDrops(c, w, s, a);
    }
  }

  lemma LastStep(c: Call, run: seq<State>) returns (shorter: seq<State>, a: Action)
    requires IsRun(c, run) && |run| > 1
    ensures shorter == run[..|run| - 1] && IsRun(c, shorter)
    ensures Enabled(c, Last(shorter), a) && Last(run) == Next(c, Last(shorter), a)
  {
    shorter := run[..|run| - 1];
    var n := |run| - 2;
    assert Step(c, run[n], run[n + 1]);
    a :| Enabled(c, run[n], a) && run[n + 1] == Next(c, run[n], a);
  }

  lemma {:induction false} RunInv(c: Call, w: Layout, run: seq<State>)
    requires Consistent(c, w) && IsRun(c, run)
    ensures Inv(c, w, Last(run))
    decreases |run|
  {
    if |run| == 1 {
      InitInv(c, w);
    } else {
      var shorter, a := LastStep(c, run);
      RunInv(c, w, shorter);
      StepInv(c, w, Last(shorter), a);
    }
  }

  /// Progress and termination
  /// ------------------------

  /** While some plan is unfinished, it or something it waits for can step, and need not
      be one of the plans in `avoid` entering, if it does not wait for those. */
  lemma {:induction false} FindStep(c: Call, w: Layout, s: State, id: PlanId, avoid: set<PlanId>) returns (a: Action)
    requires Consistent(c, w) && NodesOk(c, s)
    requires id in s.nodes && !s.nodes[id].Done?
    requires forall q <- avoid :: !Settles(c, w, id, q)
    ensures TaskEnabled(c, s, a) && !(a.Resolve? && a.id in avoid)
    decreases w.rank(id)
  {
    assert NodeInv(c, s, id, WasExecuted(s, id));
    var p := c.plans[id];
    match s.nodes[id]
    case Idle => a := Launch(id);
    case Scheduled => a := Start(id);
    case Waiting =>
      if d :| d in p.dependsOn && !Completed(c, s, d) {
        assert Needs(c, id, d);
        a := FindStep(c, w, s, d, avoid);
      } else {
        a := Resolve(id);
      }
    case Executing =>
      if x :| x in p.children && !Completed(c, s, x) {
        assert Needs(c, id, x);
        a := FindStep(c, w, s, x, avoid);
      } else {
        a := Finish(id);
      }
  }

  /** How far a plan still has to go; an unregistered plan has all of it before it. */
  function Remaining(s: State, id: PlanId): nat {
    if id !in s.nodes then 5 else
    match s.nodes[id]
    case Idle => 4
    case Scheduled => 3
    case Waiting => 2
    case Executing => 1
    case Done(_) => 0
  }

  ghost function Stage(c: Call, s: State, k: nat): set<PlanId> {
    set id | id in c.plans && Remaining(s, id) > k
  }

  /** The plans that a handler has not yet abandoned. */
  ghost function Undropped(c: Call, s: State): set<PlanId> {
    set x | x in c.plans && !WasDropped(s, x)
  }

  ghost function Measure(c: Call, s: State): nat {
    |Stage(c, s, 0)| + |Stage(c, s, 1)| + |Stage(c, s, 2)| + |Stage(c, s, 3)| + |Stage(c, s, 4)| + |Undropped(c, s)|
  }

  lemma SubsetSize<T>(a: set<T>, b: set<T>)
    requires a <= b
    ensures |a| <= |b|
    ensures a != b ==> |a| < |b|
  {
    assert b == a + (b - a);
    assert a != b ==> b - a != {};
  }

  lemma StepDecreases(c: Call, w: Layout, s: State, a: Action)
    requires Consistent(c, w) && Inv(c, w, s) && Enabled(c, s, a)
    ensures Measure(c, Next(c, s, a)) < Measure(c, s)
  {
    if a.Drop? {
      DropDecreases(c, w, s, a.id);
    } else {
      NextGrows(c, s, a);
      LogMembers(c, s, a);
      MeasureShrinks(c, s, TaskNext(c, s, a), a.id);
      assert Undropped(c, TaskNext(c, s, a)) == Undropped(c, s);
    }
  }

  lemma DropDecreases(c: Call, w: Layout, s: State, x: PlanId)
    requires Consistent(c, w) && DropInv(c, w, s) && x in s.dropping
    ensures Measure(c, Next(c, s, Drop(x))) < Measure(c, s)
  {
    var s' := Next(c, s, Drop(x));
    assert WasDropped(s', x) && !WasDropped(s, x);
    assert ParentFailed(c, w, s, x);
    forall k: nat ensures Stage(c, s', k) == Stage(c, s, k) {}
    assert Undropped(c, s') <= Undropped(c, s) by {
      forall y | WasDropped(s, y) ensures WasDropped(s', y) {}
    }
    assert x in Undropped(c, s) && x !in Undropped(c, s');
    SubsetSize(Undropped(c, s'), Undropped(c, s));
  }

  lemma MeasureShrinks(c: Call, s: State, s': State, id: PlanId)
    requires id in s.nodes && id in c.plans && Grows(c, s, s', id)
    requires Remaining(s', id) < Remaining(s, id) <= 4
    ensures |Stage(c, s', 0)| + |Stage(c, s', 1)| + |Stage(c, s', 2)| + |Stage(c, s', 3)| + |Stage(c, s', 4)| <
            |Stage(c, s, 0)| + |Stage(c, s, 1)| + |Stage(c, s, 2)| + |Stage(c, s, 3)| + |Stage(c, s, 4)|
  {
    StageShrinks(c, s, s', id, 0);
    StageShrinks(c, s, s', id, 1);
    StageShrinks(c, s, s', id, 2);
    StageShrinks(c, s, s', id, 3);
    StageShrinks(c, s, s', id, 4);
  }

  lemma StageShrinks(c: Call, s: State, s': State, id: PlanId, k: nat)
    requires id in s.nodes && id in c.plans && Grows(c, s, s', id)
    requires Remaining(s', id) < Remaining(s, id)
    ensures |Stage(c, s', k)| <= |Stage(c, s, k)|
    ensures k == Remaining(s', id) ==> |Stage(c, s', k)| < |Stage(c, s, k)|
  {
    assert Stage(c, s', k) <= Stage(c, s, k);
    assert k == Remaining(s', id) ==> id in Stage(c, s, k) && id !in Stage(c, s', k);
    SubsetSize(Stage(c, s', k), Stage(c, s, k));
  }

  /// Main results, whatever the scope of the dependencies
  /// ----------------------------------------------------

  ghost predicate AllDone(s: State) {
    forall id <- s.nodes :: s.nodes[id].Done?
  }

  /** A run that can no longer step has finished every plan it registered. */
  lemma NoDeadlock(c: Call, w: Layout, run: seq<State>)
    requires Consistent(c, w) && IsRun(c, run)
    requires Quiescent(c, Last(run))
    ensures AllDone(Last(run)) && Last(run).dropping == {}
  {
    var s := Last(run);
    RunInv(c, w, run);
    forall id | id in s.nodes ensures s.nodes[id].Done? {
      if !s.nodes[id].Done? {
        var a := FindStep(c, w, s, id, {});
        assert Enabled(c, s, a);
      }
    }
    forall x ensures x !in s.dropping {
      assert !Enabled(c, s, Drop(x));
    }
  }

  /** No run is longer than the work that the call describes. */
  lemma {:induction false} Terminates(c: Call, w: Layout, run: seq<State>)
    requires Consistent(c, w) && IsRun(c, run)
    ensures |run| - 1 + Measure(c, Last(run)) <= Measure(c, Init(c)) <= 6 * |c.plans|
    decreases |run|
  {
    if |run| == 1 {
      forall k: nat ensures |Stage(c, Init(c), k)| <= |c.plans| {
        SubsetSize(Stage(c, Init(c), k), c.plans.Keys);
      }
      SubsetSize(Undropped(c, Init(c)), c.plans.Keys);
    } else {
      var shorter, a := LastStep(c, run);
      Terminates(c, w, shorter);
      RunInv(c, w, shorter);
      StepDecreases(c, w, Last(shorter), a);
    }
  }

  /** Exactly once: a registered plan is executed once or abandoned once by the
      executor, never both; an unregistered one neither. */
  lemma ExactlyOnce(c: Call, w: Layout, run: seq<State>, id: PlanId)
    requires Consistent(c, w) && IsRun(c, run)
    requires Quiescent(c, Last(run))
    ensures Runs(Last(run).log, id) == if id in Last(run).nodes then 1 else 0
    ensures Count(Last(run).log, Executed(id)) == if WasExecuted(Last(run), id) then 1 else 0
  {
    RunInv(c, w, run);
    NoDeadlock(c, w, run);
    assert id in Last(run).nodes ==> Begun(Last(run), id);
    assert Runs(Last(run).log, id) == if Begun(Last(run), id) then 1 else 0;
    CountMember(Last(run).log, Executed(id));
  }

  /** A plan has succeeded exactly if it was executed, did not fail by itself, and all
      its children have succeeded. */
  lemma ResultIsEarned(c: Call, w: Layout, run: seq<State>, id: PlanId)
    requires Consistent(c, w) && IsRun(c, run)
    requires Quiescent(c, Last(run)) && id in Last(run).nodes
    ensures id in c.plans
    ensures Last(run).nodes[id] == Done(true) <==>
      WasExecuted(Last(run), id) && c.plans[id].outcome == Succeeds && ChildrenOk(c, Last(run), id)
  {
    RunInv(c, w, run);
    NoDeadlock(c, w, run);
    assert NodeInv(c, Last(run), id, WasExecuted(Last(run), id));
  }

  /** A child plan is registered exactly when its parent got as far as passing it on. */
  lemma ChildrenRegistered(c: Call, w: Layout, run: seq<State>, q: PlanId, x: PlanId)
    requires Consistent(c, w) && IsRun(c, run)
    requires Quiescent(c, Last(run)) && IsChild(c, x, q)
    ensures x in Last(run).nodes <==> WasExecuted(Last(run), q) && c.plans[q].outcome != RaisesEarly
  {
    RunInv(c, w, run);
    NoDeadlock(c, w, run);
    assert WasExecuted(Last(run), q) ==> Begun(Last(run), q);
    assert w.parent(x) == q;
    if q in Last(run).nodes {
      assert NodeInv(c, Last(run), q, WasExecuted(Last(run), q));
    } else {
      NewNode(c, w, Last(run), q);
    }
  }

  /** The parent's handler abandons a child exactly when the parent was executed and
      failed by itself. With `FailsLate` the executor has then executed or abandoned the
      child already, so "never both" holds of the executor alone. */
  lemma AbandonedByParent(c: Call, w: Layout, run: seq<State>, q: PlanId, x: PlanId)
    requires Consistent(c, w) && IsRun(c, run)
    requires Quiescent(c, Last(run)) && IsChild(c, x, q)
    ensures WasDropped(Last(run), x) <==> WasExecuted(Last(run), q) && c.plans[q].outcome != Succeeds
    ensures WasDropped(Last(run), x) && Runs(Last(run).log, x) == 1
       <==> WasExecuted(Last(run), q) && c.plans[q].outcome == FailsLate
  {
    RunInv(c, w, run);
    NoDeadlock(c, w, run);
    ExactlyOnce(c, w, run, x);
    ChildrenRegistered(c, w, run, q, x);
    assert w.parent(x) == q;
    assert WasExecuted(Last(run), q) ==> Begun(Last(run), q);
    assert ParentFailed(c, w, Last(run), x) <==> WasDropped(Last(run), x) || x in Last(run).dropping;
  }

  /** Dependency safety, at every point of every run: a dependency has finished with
      success in this call, or, if it is not passed to it directly, in an earlier one. */
  lemma DependenciesFinishFirst(c: Call, w: Layout, run: seq<State>, i: nat, p: PlanId, d: PlanId)
    requires Consistent(c, w) && IsRun(c, run)
    requires i < |Last(run).log| && Last(run).log[i] == Executed(p)
    requires p in c.plans && d in c.plans[p].dependsOn
    ensures Finished(d, true) in Last(run).log[..i] || (d !in c.top && d in c.prior && c.prior[d])
  {
    RunInv(c, w, run);
    assert FinishedBefore(c, Last(run).log[..i], p);
  }

  /// Results by the specification
  /// ----------------------------

  ghost predicate DepsDone(c: Call, s: State, id: PlanId)
    requires id in c.plans
  {
    forall d <- c.plans[id].dependsOn :: d in c.plans ==> d in s.nodes && s.nodes[d].Done?
  }

  /** What holds in addition if dependencies are in scope. */
  ghost predicate SpecInv(c: Call, w: Layout, s: State)
    requires Acyclic(c, w)
  {
    && s.nodes.Keys <= c.plans.Keys
    && (forall id <- s.nodes :: Reachable(c, w, id))
    && (forall id <- s.nodes :: NodeSpec(c, w, s, id, WasExecuted(s, id)))
  }

  ghost predicate NodeSpec(c: Call, w: Layout, s: State, id: PlanId, executed: bool)
    requires Acyclic(c, w) && id in c.plans && id in s.nodes
  {
    && (Begun(s, id) ==> (executed <==> DepsOk(c, w, id)))
    && (executed ==> DepsDone(c, s, id))
    && (s.nodes[id].Done? ==> s.nodes[id].ok == Ok(c, w, id))
  }

  /** A plan enclosed by `q` is registered only if `q` was executed. */
  lemma UnderRegistered(c: Call, w: Layout, s: State, p: PlanId, q: PlanId)
    requires Consistent(c, w) && Shape(c, w, s) && NodesOk(c, s)
    requires p in s.nodes && Under(c, w, p, q)
    ensures q in s.nodes && ChildrenPresent(c, s, q) && WasExecuted(s, q)
    decreases w.rank(q)
  {
    if p in c.plans[q].children {
      ChildRegistered(c, w, s, p, q);
    } else {
      var r :| r in c.plans[q].children && Under(c, w, p, r);
      UnderRegistered(c, w, s, p, r);
      ChildRegistered(c, w, s, r, q);
    }
  }

  lemma ChildRegistered(c: Call, w: Layout, s: State, x: PlanId, q: PlanId)
    requires Consistent(c, w) && Shape(c, w, s) && NodesOk(c, s)
    requires x in s.nodes && IsChild(c, x, q)
    ensures q in s.nodes && ChildrenPresent(c, s, q) && WasExecuted(s, q)
  {
    assert w.parent(x) == q;
    assert RegisteredByParent(c, w, s, x);
    assert NodeInv(c, s, q, WasExecuted(s, q));
  }

  /** What must settle before a plan that has succeeded has succeeded. */
  lemma SettledBefore(c: Call, w: Layout, s: State, e: PlanId, q: PlanId)
    requires Consistent(c, w) && NodesOk(c, s) && SpecInv(c, w, s)
    requires e in s.nodes && s.nodes[e] == Done(true) && Settles(c, w, e, q)
    ensures q in s.nodes && s.nodes[q] == Done(true)
    decreases w.rank(e)
  {
    if e != q {
      var x :| Needs(c, e, x) && Settles(c, w, x, q);
      assert NodeInv(c, s, e, WasExecuted(s, e)) && NodeSpec(c, w, s, e, WasExecuted(s, e));
      if x in c.plans[e].dependsOn {
        assert DepsOk(c, w, e);
        assert NodeSpec(c, w, s, x, WasExecuted(s, x));
      }
      SettledBefore(c, w, s, x, q);
    }
  }

  /** A dependency in scope is registered no later than its dependent. */
  lemma InScopeRegistered(c: Call, w: Layout, s: State, p: PlanId, d: PlanId)
    requires WellFormed(c, w) && Inv(c, w, s) && SpecInv(c, w, s)
    requires p in s.nodes && d in c.plans[p].dependsOn && d in c.plans
    ensures d in s.nodes
  {
    assert Reachable(c, w, p) && InScope(c, w, p, d);
    if d !in c.top {
      var q := w.parent(d);
      var a :| Under(c, w, p, a) && (a == q || AwaitsBefore(c, w, a, q));
      UnderRegistered(c, w, s, p, a);
      if a != q {
        AwaitedRegistered(c, w, s, a, q);
      }
    }
  }

  /** What a plan that was executed had awaited has passed on its children. */
  lemma AwaitedRegistered(c: Call, w: Layout, s: State, a: PlanId, q: PlanId)
    requires Consistent(c, w) && NodesOk(c, s) && LogInv(c, s) && SpecInv(c, w, s)
    requires a in s.nodes && WasExecuted(s, a) && AwaitsBefore(c, w, a, q)
    ensures q in s.nodes && ChildrenPresent(c, s, q)
  {
    var e :| e in c.plans[a].dependsOn && Settles(c, w, e, q);
    DependencyDone(c, w, s, a, e);
    SettledBefore(c, w, s, e, q);
    DonePresent(c, s, q);
  }

  lemma DependencyDone(c: Call, w: Layout, s: State, a: PlanId, e: PlanId)
    requires Acyclic(c, w) && LogInv(c, s) && SpecInv(c, w, s)
    requires a in s.nodes && WasExecuted(s, a) && e in c.plans[a].dependsOn && e in c.plans
    ensures e in s.nodes && s.nodes[e] == Done(true)
  {
    assert NodeSpec(c, w, s, a, WasExecuted(s, a)) && Begun(s, a);
    assert NodeSpec(c, w, s, e, WasExecuted(s, e));
  }

  lemma DonePresent(c: Call, s: State, q: PlanId)
    requires NodesOk(c, s) && q in s.nodes && s.nodes[q] == Done(true)
    ensures ChildrenPresent(c, s, q)
  {
    assert NodeInv(c, s, q, WasExecuted(s, q));
  }

  lemma DepsAgree(c: Call, w: Layout, s: State, id: PlanId)
    requires WellFormed(c, w) && Inv(c, w, s) && SpecInv(c, w, s) && id in s.nodes
    requires forall d <- c.plans[id].dependsOn :: Completed(c, s, d)
    ensures DepsOk(c, w, id) <==> forall d <- c.plans[id].dependsOn :: Succeeded(c, s, d)
    ensures DepsDone(c, s, id)
  {
    forall d | d in c.plans[id].dependsOn
      ensures Succeeded(c, s, d) <==> if d in c.plans then Ok(c, w, d) else d in c.prior && c.prior[d]
      ensures d in c.plans ==> d in s.nodes && s.nodes[d].Done?
    {
      if d in c.plans {
        InScopeRegistered(c, w, s, id, d);
        assert NodeSpec(c, w, s, d, WasExecuted(s, d));
      }
    }
  }

  lemma {:induction false} UnderChild(c: Call, w: Layout, x: PlanId, id: PlanId, t: PlanId)
    requires Acyclic(c, w) && IsChild(c, x, id) && Under(c, w, id, t)
    ensures Under(c, w, x, t)
    decreases w.rank(t)
  {
    if id in c.plans[t].children {
      assert Under(c, w, x, id);
    } else {
      var r :| r in c.plans[t].children && Under(c, w, id, r);
      UnderChild(c, w, x, id, r);
    }
  }

  lemma ChildReachable(c: Call, w: Layout, x: PlanId, id: PlanId)
    requires Acyclic(c, w) && IsChild(c, x, id) && Reachable(c, w, id)
    ensures Reachable(c, w, x)
  {
    if id in c.top {
      assert Under(c, w, x, id);
    } else {
      var t :| t in c.top && Under(c, w, id, t);
      UnderChild(c, w, x, id, t);
    }
  }

  lemma SpecOwnNode(c: Call, w: Layout, s: State, a: Action)
    requires WellFormed(c, w) && Inv(c, w, s) && SpecInv(c, w, s) && TaskEnabled(c, s, a)
    ensures NodeSpec(c, w, TaskNext(c, s, a), a.id, WasExecuted(s, a.id) || Executes(c, s, a))
  {
    assert WasExecuted(s, a.id) ==> Begun(s, a.id);
    match a
    case Launch(id) =>
    case Start(id) => SpecStart(c, w, s, id);
    case Resolve(id) => SpecResolve(c, w, s, id);
    case Finish(id) => SpecFinish(c, w, s, id);
  }

  lemma SpecStart(c: Call, w: Layout, s: State, id: PlanId)
    requires WellFormed(c, w) && Inv(c, w, s) && SpecInv(c, w, s) && TaskEnabled(c, s, Start(id))
    ensures NodeSpec(c, w, TaskNext(c, s, Start(id)), id, false)
  {
    if d :| d in c.plans[id].dependsOn && !Registered(c, s, d) {
      if d in c.plans {
        InScopeRegistered(c, w, s, id, d);
      }
      assert !DepsOk(c, w, id);
    }
  }

  lemma SpecResolve(c: Call, w: Layout, s: State, id: PlanId)
    requires WellFormed(c, w) && Inv(c, w, s) && SpecInv(c, w, s) && TaskEnabled(c, s, Resolve(id))
    ensures NodeSpec(c, w, TaskNext(c, s, Resolve(id)), id, Executes(c, s, Resolve(id)))
  {
    DepsAgree(c, w, s, id);
    NextGrows(c, s, Resolve(id));
  }

  lemma SpecFinish(c: Call, w: Layout, s: State, id: PlanId)
    requires WellFormed(c, w) && Inv(c, w, s) && SpecInv(c, w, s) && TaskEnabled(c, s, Finish(id))
    ensures NodeSpec(c, w, TaskNext(c, s, Finish(id)), id, true)
  {
    assert NodeInv(c, s, id, WasExecuted(s, id)) && NodeSpec(c, w, s, id, WasExecuted(s, id));
    NextGrows(c, s, Finish(id));
    forall x | x in c.plans[id].children ensures Succeeded(c, s, x) <==> Ok(c, w, x) {
      assert NodeSpec(c, w, s, x, WasExecuted(s, x));
    }
  }

  lemma SpecOtherNode(c: Call, w: Layout, s: State, s': State, actor: PlanId, id: PlanId, executed: bool)
    requires Acyclic(c, w) && actor in s.nodes && !s.nodes[actor].Done? && Grows(c, s, s', actor)
    requires id in s'.nodes && id != actor && id in c.plans
    requires if id in s.nodes then NodeSpec(c, w, s, id, executed) else !executed
    ensures NodeSpec(c, w, s', id, executed)
  {
  }

  lemma StepSpec(c: Call, w: Layout, s: State, a: Action)
    requires WellFormed(c, w) && Inv(c, w, s) && SpecInv(c, w, s) && Enabled(c, s, a)
    ensures SpecInv(c, w, Next(c, s, a))
  {
    var s' := Next(c, s, a);
    StepInv(c, w, s, a);
    if a.Drop? {
      forall id | id in s'.nodes ensures Reachable(c, w, id) && NodeSpec(c, w, s', id, WasExecuted(s', id)) {
        assert WasExecuted(s', id) == WasExecuted(s, id);
        assert NodeSpec(c, w, s, id, WasExecuted(s, id));
      }
    } else {
      NextGrows(c, s, a);
      LogMembers(c, s, a);
      SpecOwnNode(c, w, s, a);
      forall id | id in s'.nodes ensures Reachable(c, w, id) && NodeSpec(c, w, s', id, WasExecuted(s', id)) {
        if id !in s.nodes {
          ChildReachable(c, w, id, a.id);
          assert WasExecuted(s, id) ==> Begun(s, id);
        }
        if id != a.id {
          SpecOtherNode(c, w, s, s', a.id, id, WasExecuted(s, id));
        }
      }
    }
  }

  lemma InitSpec(c: Call, w: Layout)
    requires Consistent(c, w)
    ensures SpecInv(c, w, Init(c))
  {
  }

  lemma {:induction false} RunSpec(c: Call, w: Layout, run: seq<State>)
    requires WellFormed(c, w) && IsRun(c, run)
    ensures SpecInv(c, w, Last(run))
    decreases |run|
  {
    if |run| == 1 {
      InitSpec(c, w);
    } else {
      var shorter, a := LastStep(c, run);
      RunSpec(c, w, shorter);
      RunInv(c, w, shorter);
      StepSpec(c, w, Last(shorter), a);
    }
  }

  /** Every registered plan has the result of the recursive specification. */
  ghost predicate AsSpecified(c: Call, w: Layout, s: State)
    requires Acyclic(c, w)
  {
    forall id <- s.nodes :: id in c.plans && s.nodes[id] == Done(Ok(c, w, id))
  }

  /** Confluence: whatever the schedule, each plan ends with the result of the
      recursive specification. */
  lemma Confluence(c: Call, w: Layout, run: seq<State>)
    requires WellFormed(c, w) && IsRun(c, run)
    requires Quiescent(c, Last(run))
    ensures forall t <- c.top :: t in Last(run).nodes
    ensures AsSpecified(c, w, Last(run))
  {
    RunInv(c, w, run);
    RunSpec(c, w, run);
    NoDeadlock(c, w, run);
    var s := Last(run);
    forall id | id in s.nodes ensures id in c.plans && s.nodes[id] == Done(Ok(c, w, id)) {
      assert NodeSpec(c, w, s, id, WasExecuted(s, id));
    }
  }

  /** Which plans are executed rather than abandoned. */
  lemma ExecutedIffDepsOk(c: Call, w: Layout, run: seq<State>, id: PlanId)
    requires WellFormed(c, w) && IsRun(c, run)
    requires Quiescent(c, Last(run)) && id in Last(run).nodes
    ensures id in c.plans && (WasExecuted(Last(run), id) <==> DepsOk(c, w, id))
  {
    RunInv(c, w, run);
    RunSpec(c, w, run);
    NoDeadlock(c, w, run);
    assert NodeSpec(c, w, Last(run), id, WasExecuted(Last(run), id));
    assert Begun(Last(run), id);
  }

  /** At rest a plan whose dependencies are passed to the call directly, or are no plans of
      it, was executed exactly if all of them have succeeded. */
  lemma ExecutedIffSucceeded(c: Call, w: Layout, s: State, id: PlanId)
    requires WellFormed(c, w) && Inv(c, w, s) && SpecInv(c, w, s) && AllDone(s)
    requires id in s.nodes && forall d <- c.plans[id].dependsOn :: d in c.plans ==> d in c.top
    ensures WasExecuted(s, id) <==> forall d <- c.plans[id].dependsOn :: Succeeded(c, s, d)
  {
    assert NodeSpec(c, w, s, id, WasExecuted(s, id)) && Begun(s, id);
    forall d | d in c.plans[id].dependsOn
      ensures Succeeded(c, s, d) <==> if d in c.plans then Ok(c, w, d) else d in c.prior && c.prior[d]
    {
      if d in c.plans {
        assert NodeSpec(c, w, s, d, WasExecuted(s, d));
      }
    }
  }

  /// The mutable registry
  /// --------------------

  /** The process-wide registry `_ALL_PLAN_NODES`, and the plans whose `abandon_plan` a
      handler has scheduled. The task of a plan steps when the event loop picks it; which
      of the tasks that can step is picked is arbitrary. */
  class Registry {
    var nodes: map<PlanId, Phase>
    var dropping: set<PlanId>
    ghost var current: set<PlanId>
    ghost var log: seq<Event>

    /** Between calls every task of a plan has finished. */
    ghost predicate Valid()
      reads this
    {
      forall id <- nodes :: nodes[id].Done?
    }

    ghost function Results(): map<PlanId, bool>
      reads this
      requires Valid()
    {
      map id | id in nodes :: nodes[id].ok
    }

    /** The registry seen from inside a call. */
    ghost function View(): State
      reads this
    {
      State(Part(nodes, current), log, dropping)
    }

    ghost predicate Serves(c: Call, w: Layout)
      reads this
    {
      && Consistent(c, w) && Overlays(c) && Inv(c, w, View())
      && (Scoped(c, w) ==> SpecInv(c, w, View()))
    }

    /** The registrations of this call shadow the results of earlier ones. */
    ghost predicate Overlays(c: Call)
      reads this
    {
      && nodes.Keys == current + c.prior.Keys
      && (forall id <- c.prior :: id !in current ==> nodes[id] == Done(c.prior[id]))
    }

    constructor ()
      ensures Valid() && nodes == map[]
    {
      nodes, dropping, current, log := map[], {}, {}, [];
    }

    /** `_ALL_PLAN_NODES[node.plan.id] = node`: a node without a task, old or new id. */
    method RegisterPlans(ids: seq<PlanId>)
      modifies this`nodes, this`current
      ensures nodes == Register(old(nodes), ids)
      ensures forall id <- ids :: id in nodes && nodes[id] == Idle
      ensures forall id <- old(nodes) :: id !in ids ==> id in nodes && nodes[id] == old(nodes)[id]
      ensures current == old(current) + Ids(ids)
    {
      var i := 0;
      while i < |ids|
        invariant 0 <= i <= |ids|
        invariant nodes == Register(old(nodes), ids[..i])
        invariant current == old(current) + Ids(ids[..i])
      {
        RegisterNext(old(nodes), ids, i);
        nodes := nodes[ids[i] := Idle];
        current := current + {ids[i]};
        i := i + 1;
      }
      assert ids[..i] == ids;
    }

    /** The first dependency that no call has registered. */
    method FindMissing(ids: seq<PlanId>) returns (missing: bool)
      ensures missing <==> exists d <- ids :: d !in nodes
    {
      for i := 0 to |ids|
        invariant forall d <- ids[..i] :: d in nodes
      {
        if ids[i] !in nodes {
          return true;
        }
      }
      return false;
    }

    /** `all(result.success for result in results)` over finished plans. */
    method AllSucceeded(ids: seq<PlanId>) returns (ok: bool)
      requires forall d <- ids :: d in nodes && nodes[d].Done?
      ensures ok <==> forall d <- ids :: nodes[d] == Done(true)
    {
      for i := 0 to |ids|
        invariant forall d <- ids[..i] :: nodes[d] == Done(true)
      {
        if !nodes[ids[i]].ok {
          return false;
        }
      }
      return true;
    }

    predicate AllFinished(ids: seq<PlanId>)
      reads this
    {
      forall d <- ids :: d in nodes && nodes[d].Done?
    }

    /** The task of `id`, if it has one, is not blocked in a `gather`. */
    predicate CanStep(plans: map<PlanId, Plan>, id: PlanId)
      reads this
    {
      && id in nodes
      && id in plans
      && match nodes[id]
         case Idle => true
         case Scheduled => true
         case Waiting => AllFinished(plans[id].dependsOn)
         case Executing => AllFinished(plans[id].children)
         case Done(_) => false
    }

    ghost function ActionOf(id: PlanId): Action
      reads this
      requires id in nodes && !nodes[id].Done?
    {
      match nodes[id]
      case Idle => Launch(id)
      case Scheduled => Start(id)
      case Waiting => Resolve(id)
      case Executing => Finish(id)
    }

    lemma LookupAgrees(c: Call)
      requires Overlays(c)
      ensures forall d :: Registered(c, View(), d) <==> d in nodes
      ensures forall d :: Completed(c, View(), d) <==> d in nodes && nodes[d].Done?
      ensures forall d :: Succeeded(c, View(), d) <==> d in nodes && nodes[d] == Done(true)
    {
    }

    method SetPhase(ghost c: Call, id: PlanId, phase: Phase)
      requires Overlays(c) && id in current
      modifies this`nodes
      ensures Overlays(c) && View() == old(View()).(nodes := old(View()).nodes[id := phase])
    {
      nodes := nodes[id := phase];
    }

    /** The exception handler of `p`: `gather` schedules the abandoning of its children. */
    method ScheduleDrops(p: Plan)
      modifies this`dropping
      ensures dropping == old(dropping) + Ids(p.children)
    {
      dropping := dropping + Ids(p.children);
    }

    /** The task has just been created: it looks up its dependencies. */
    method StartTask(ghost c: Call, p: Plan, id: PlanId)
      requires Overlays(c) && id in current && TaskEnabled(c, View(), Start(id)) && c.plans[id] == p
      modifies this`nodes
      ensures Overlays(c)
      ensures View() == TaskNext(c, old(View()), Start(id)).(log := log)
    {
      LookupAgrees(c);
      var missing := FindMissing(p.dependsOn);
      SetPhase(c, id, if missing then Done(false) else Waiting);
    }

    /** The dependencies have finished: the plan is abandoned or entered. */
    method ResolveTask(ghost c: Call, p: Plan, id: PlanId)
      requires Overlays(c) && id in current && TaskEnabled(c, View(), Resolve(id)) && c.plans[id] == p
      modifies this`nodes, this`current, this`dropping
      ensures Overlays(c)
      ensures View() == TaskNext(c, old(View()), Resolve(id)).(log := log)
    {
      LookupAgrees(c);
      var ok := AllSucceeded(p.dependsOn);
      if ok && p.outcome != RaisesEarly {
        RegisterPart(nodes, current, p.children);
        RegisterPlans(p.children);
        SetPhase(c, id, Executing);
      } else {
        if ok {
          ScheduleDrops(p);
        }
        SetPhase(c, id, Done(false));
      }
    }

    /** The child plans have finished: the plan has its result. */
    method FinishTask(ghost c: Call, p: Plan, id: PlanId)
      requires Overlays(c) && id in current && TaskEnabled(c, View(), Finish(id)) && c.plans[id] == p
      modifies this`nodes, this`dropping
      ensures Overlays(c)
      ensures View() == TaskNext(c, old(View()), Finish(id)).(log := log)
    {
      LookupAgrees(c);
      var ok := AllSucceeded(p.children);
      if p.outcome == FailsLate {
        ScheduleDrops(p);
      }
      SetPhase(c, id, Done(ok && p.outcome == Succeeds));
    }

    /** Runs one task from where it is to its next `await`. */
    method StepTask(ghost c: Call, ghost w: Layout, plans: map<PlanId, Plan>, id: PlanId)
      requires plans == c.plans && Serves(c, w) && id in current && CanStep(plans, id)
      requires TaskEnabled(c, View(), ActionOf(id))
      modifies this
      ensures View() == TaskNext(c, old(View()), old(ActionOf(id)))
      ensures Serves(c, w)
    {
      ghost var before := View();
      ghost var a := ActionOf(id);
      RunTask(c, plans[id], id);
      log := log + Emits(c, before, a);
      assert View() == TaskNext(c, before, a);
      StepServes(c, w, before, a);
    }

    method RunTask(ghost c: Call, p: Plan, id: PlanId)
      requires Overlays(c) && id in current && id in nodes && !nodes[id].Done?
      requires TaskEnabled(c, View(), ActionOf(id)) && c.plans[id] == p
      modifies this`nodes, this`current, this`dropping
      ensures Overlays(c)
      ensures View() == TaskNext(c, old(View()), old(ActionOf(id))).(log := log)
    {
      match nodes[id] {
        case Idle => SetPhase(c, id, Scheduled);
        case Scheduled => StartTask(c, p, id);
        case Waiting => ResolveTask(c, p, id);
        case Executing => FinishTask(c, p, id);
      }
    }

    /** Runs an `abandon_plan` that a handler scheduled. */
    method RunDrop(ghost c: Call, ghost w: Layout, x: PlanId)
      requires Serves(c, w) && x in dropping
      modifies this`dropping, this`log
      ensures Serves(c, w) && View() == Next(c, old(View()), Drop(x))
    {
      ghost var before := View();
      dropping := dropping - {x};
      log := log + [DroppedByParent(x)];
      StepServes(c, w, before, Drop(x));
    }

    /** Runs the event loop until every task of the call has finished. The results
        come back in the order in which the plans were passed; they are the results in
        the registry, and, if dependencies are in scope, those of the recursive
        specification, whichever task the loop picks at each turn. */
    method ExecutePlans(plans: map<PlanId, Plan>, top: seq<PlanId>, ghost w: Layout) returns (results: seq<bool>)
      requires Valid() && Consistent(Call(plans, top, Results()), w)
      modifies this
      ensures Valid()
      ensures |results| == |top|
      ensures forall i :: 0 <= i < |top| ==> top[i] in nodes && nodes[top[i]] == Done(results[i])
      ensures Scoped(old(Call(plans, top, Results())), w) ==>
        forall i :: 0 <= i < |top| ==> results[i] == Ok(old(Call(plans, top, Results())), w, top[i])
      ensures old(nodes).Keys <= nodes.Keys
      ensures forall id <- nodes :: id in plans || (id in old(nodes) && nodes[id] == old(nodes)[id])
      ensures Serves(old(Call(plans, top, Results())), w)
    {
      ghost var c := Call(plans, top, Results());
      results := RunCall(c, w, plans, top);
      if Scoped(c, w) {
        ResultsOf(c, w);
      }
    }

    method RunCall(ghost c: Call, ghost w: Layout, plans: map<PlanId, Plan>, top: seq<PlanId>)
      returns (results: seq<bool>)
      requires Valid() && Consistent(c, w) && c == Call(plans, top, Results())
      modifies this
      ensures Valid() && Serves(c, w)
      ensures |results| == |top|
      ensures forall i :: 0 <= i < |top| ==> top[i] in nodes && nodes[top[i]] == Done(results[i])
      ensures c.prior.Keys <= nodes.Keys
      ensures forall id <- nodes :: id in c.plans || (id in c.prior && nodes[id] == Done(c.prior[id]))
    {
      BeginCall(c, w, top);
      RunEventLoop(c, w, plans);
      AtRest(c, w);
      results := Gather(top);
    }

    /** What earlier calls left scheduled is not followed any further. */
    method BeginCall(ghost c: Call, ghost w: Layout, top: seq<PlanId>)
      requires Valid() && Consistent(c, w) && top == c.top && c.prior == Results()
      modifies this
      ensures Serves(c, w)
    {
      Reset(c, top);
      InitServes(c, w);
    }

    method Reset(ghost c: Call, top: seq<PlanId>)
      requires Valid() && top == c.top && c.prior == Results()
      modifies this
      ensures Overlays(c) && View() == Init(c)
    {
      current, log, dropping := {}, [], {};
      RegisterPart(nodes, current, top);
      RegisterPlans(top);
    }

    method RunEventLoop(ghost c: Call, ghost w: Layout, plans: map<PlanId, Plan>)
      requires plans == c.plans && Serves(c, w)
      modifies this
      ensures Serves(c, w) && Valid()
    {
      while exists id :: id in nodes && !nodes[id].Done?
        invariant Serves(c, w)
        decreases Measure(c, View())
      {
        var dropFirst := *;
        if dropFirst && dropping != {} {
          var x :| x in dropping;
          StepDecreases(c, w, View(), Drop(x));
          RunDrop(c, w, x);
        } else {
          SomeTaskCanStep(c, w);
          var id :| id in nodes && CanStep(plans, id);
          ReadyIsEnabled(c, w, id);
          StepTask(c, w, plans, id);
        }
      }
    }

    lemma SomeTaskCanStep(c: Call, w: Layout)
      requires Serves(c, w) && !Valid()
      ensures exists id <- nodes :: CanStep(c.plans, id)
    {
      LookupAgrees(c);
      var s := View();
      var unfinished :| unfinished in nodes && !nodes[unfinished].Done?;
      var a := FindStep(c, w, s, unfinished, {});
      assert CanStep(c.plans, a.id);
    }

    lemma ReadyIsEnabled(c: Call, w: Layout, id: PlanId)
      requires Serves(c, w) && CanStep(c.plans, id)
      ensures id in current && TaskEnabled(c, View(), ActionOf(id))
      ensures Measure(c, TaskNext(c, View(), ActionOf(id))) < Measure(c, View())
    {
      LookupAgrees(c);
      StepDecreases(c, w, View(), ActionOf(id));
    }

    lemma AtRest(c: Call, w: Layout)
      requires Serves(c, w) && Valid()
      ensures AllFinished(c.top) && c.prior.Keys <= nodes.Keys
      ensures forall id <- nodes :: id in c.plans || (id in c.prior && nodes[id] == Done(c.prior[id]))
    {
      assert forall id <- current :: id in View().nodes;
      assert forall id <- c.top :: id in View().nodes;
    }

    lemma ResultsOf(c: Call, w: Layout)
      requires Serves(c, w) && Valid() && Scoped(c, w)
      ensures forall id <- c.top :: id in c.plans && id in nodes && nodes[id] == Done(Ok(c, w, id))
    {
      forall id | id in c.top ensures id in c.plans && id in nodes && nodes[id] == Done(Ok(c, w, id)) {
        assert id in View().nodes;
        assert NodeSpec(c, w, View(), id, WasExecuted(View(), id));
      }
    }

    method Gather(ids: seq<PlanId>) returns (results: seq<bool>)
      requires AllFinished(ids)
      ensures |results| == |ids|
      ensures forall i :: 0 <= i < |ids| ==> nodes[ids[i]] == Done(results[i])
    {
      results := [];
      for i := 0 to |ids|
        invariant |results| == i
        invariant forall j :: 0 <= j < i ==> nodes[ids[j]] == Done(results[j])
      {
        results := results + [nodes[ids[i]].ok];
      }
    }
  }

  lemma InitServes(c: Call, w: Layout)
    requires Consistent(c, w)
    ensures Inv(c, w, Init(c)) && SpecInv(c, w, Init(c))
  {
    InitInv(c, w);
    InitSpec(c, w);
  }

  lemma StepServes(c: Call, w: Layout, s: State, a: Action)
    requires Consistent(c, w) && Inv(c, w, s) && Enabled(c, s, a)
    requires Scoped(c, w) ==> SpecInv(c, w, s)
    ensures Inv(c, w, Next(c, s, a))
    ensures Scoped(c, w) ==> SpecInv(c, w, Next(c, s, a))
  {
    StepInv(c, w, s, a);
    if Scoped(c, w) {
      StepSpec(c, w, s, a);
    }
  }
}
