/** Which sets of plans the executor can be trusted with.

    `resolve_resource_dependencies_dfs` can make a plan depend on a child of a service
    plan it is not nested under: it appends the child to the `depends_on` of a parent
    plan that it resolves once more (launchflow/flows/create_flows.py:900-926). Ids are
    still distinct and the relation acyclic, but the plan is then abandoned or executed
    depending on whether the service has registered its children by then. */
module PlanScopes {
  import opened PlanExecutor
  import DependencyPlanner

  /// When results are those of the specification
  /// -------------------------------------------

  /** The same plans, whatever becomes of them and whatever earlier calls have left. */
  ghost predicate SameShape(c: Call, c': Call) {
    && c'.top == c.top && c'.plans.Keys == c.plans.Keys
    && forall id <- c.plans ::
      c'.plans[id].dependsOn == c.plans[id].dependsOn && c'.plans[id].children == c.plans[id].children
  }

  /** Every run that has come to rest has the results of the recursive specification. */
  ghost predicate AlwaysAsSpecified(c: Call, w: Layout) {
    forall c', run :: SameShape(c, c') && IsRun(c', run) && Quiescent(c', Last(run)) ==>
      Acyclic(c', w) && AsSpecified(c', w, Last(run))
  }

  /** The executor's results are those of the specification, for all outcomes, all
      earlier results and all schedules, exactly if every dependency is in scope. */
  lemma AsSpecifiedIffScoped(c: Call, w: Layout)
    requires Consistent(c, w)
    ensures AlwaysAsSpecified(c, w) <==> Scoped(c, w)
  {
    if Scoped(c, w) {
      forall c', run | SameShape(c, c') && IsRun(c', run) && Quiescent(c', Last(run))
        ensures Acyclic(c', w) && AsSpecified(c', w, Last(run))
      {
        SameScope(c, c', w);
        Confluence(c', w, run);
      }
    } else {
      var p, d :|
        p in c.plans && d in c.plans[p].dependsOn && d in c.plans && Reachable(c, w, p) && !InScope(c, w, p, d);
      SameScope(c, AllGood(c), w);
      ShapeKeepsScope(c, AllGood(c), w, p, d);
      var run, id := OutOfScopeFails(AllGood(c), w, p, d);
      AllGoodOk(c, w, id);
    }
  }

  lemma {:induction false} SameUnder(c: Call, c': Call, w: Layout, p: PlanId, q: PlanId)
    requires Acyclic(c, w) && Acyclic(c', w) && SameShape(c, c')
    ensures Under(c, w, p, q) <==> Under(c', w, p, q)
    decreases w.rank(q)
  {
    if q in c.plans {
      forall r | r in c.plans[q].children ensures Under(c, w, p, r) <==> Under(c', w, p, r) {
        SameUnder(c, c', w, p, r);
      }
    }
  }

  lemma {:induction false} SameSettles(c: Call, c': Call, w: Layout, e: PlanId, q: PlanId)
    requires Acyclic(c, w) && Acyclic(c', w) && SameShape(c, c')
    ensures Settles(c, w, e, q) <==> Settles(c', w, e, q)
    decreases w.rank(e)
  {
    if e in c.plans {
      forall x ensures Needs(c, e, x) <==> Needs(c', e, x) {}
      forall x | Needs(c, e, x) ensures Settles(c, w, x, q) <==> Settles(c', w, x, q) {
        SameSettles(c, c', w, x, q);
      }
    }
  }

  lemma SameAwaits(c: Call, c': Call, w: Layout, a: PlanId, q: PlanId)
    requires Acyclic(c, w) && Acyclic(c', w) && SameShape(c, c')
    ensures AwaitsBefore(c, w, a, q) <==> AwaitsBefore(c', w, a, q)
  {
    if a in c.plans {
      forall e | e in c.plans[a].dependsOn ensures Settles(c, w, e, q) <==> Settles(c', w, e, q) {
        SameSettles(c, c', w, e, q);
      }
    }
  }

  lemma ShapeKeepsScope(c: Call, c': Call, w: Layout, p: PlanId, d: PlanId)
    requires Acyclic(c, w) && Acyclic(c', w) && SameShape(c, c')
    ensures Reachable(c, w, p) <==> Reachable(c', w, p)
    ensures InScope(c, w, p, d) <==> InScope(c', w, p, d)
  {
    forall a ensures Under(c, w, p, a) <==> Under(c', w, p, a) {
      SameUnder(c, c', w, p, a);
    }
    forall a ensures AwaitsBefore(c, w, a, w.parent(d)) <==> AwaitsBefore(c', w, a, w.parent(d)) {
      SameAwaits(c, c', w, a, w.parent(d));
    }
  }

  lemma SameScope(c: Call, c': Call, w: Layout)
    requires Consistent(c, w) && SameShape(c, c')
    ensures Consistent(c', w)
    ensures Scoped(c, w) ==> Scoped(c', w)
  {
    assert Acyclic(c', w);
    if Scoped(c, w) {
      forall p, d | p in c'.plans && d in c'.plans[p].dependsOn && d in c'.plans && Reachable(c', w, p)
        ensures InScope(c', w, p, d)
      {
        ShapeKeepsScope(c, c', w, p, d);
      }
    }
  }

  /** Everything succeeds, and every id that is not a plan has succeeded earlier. */
  ghost function AllGood(c: Call): (c': Call)
    ensures SameShape(c, c')
  {
    Call(map id | id in c.plans :: c.plans[id].(outcome := Succeeds), c.top, map d | d in Outside(c) :: true)
  }

  ghost function Outside(c: Call): set<PlanId> {
    set id, d | id in c.plans && d in c.plans[id].dependsOn && d !in c.plans :: d
  }

  lemma {:induction false} AllGoodOk(c: Call, w: Layout, id: PlanId)
    requires Acyclic(AllGood(c), w) && id in c.plans
    ensures Ok(AllGood(c), w, id)
    decreases w.rank(id)
  {
    var c' := AllGood(c);
    forall d | d in c'.plans[id].dependsOn && d in c'.plans ensures Ok(c', w, d) {
      AllGoodOk(c, w, d);
    }
    forall x | x in c'.plans[id].children ensures Ok(c', w, x) {
      AllGoodOk(c, w, x);
    }
    assert DepsOk(c', w, id);
  }

  /// A run that goes wrong
  /// ---------------------

  lemma Extend(c: Call, run: seq<State>, a: Action) returns (run': seq<State>)
    requires IsRun(c, run) && Enabled(c, Last(run), a)
    ensures IsRun(c, run') && Last(run') == Next(c, Last(run), a)
  {
    run' := run + [Next(c, Last(run), a)];
    forall i | 0 <= i < |run'| - 1 ensures Step(c, run'[i], run'[i + 1]) {
      if i < |run| - 1 {
        assert Step(c, run[i], run[i + 1]);
      } else {
        assert Enabled(c, run'[i], a) && run'[i + 1] == Next(c, run'[i], a);
      }
    }
  }

  /** What has finished stays as it is until the run has come to rest. */
  lemma {:induction false} RunToRest(c: Call, w: Layout, run: seq<State>, id: PlanId) returns (run': seq<State>)
    requires Consistent(c, w) && IsRun(c, run)
    requires id in Last(run).nodes && Last(run).nodes[id].Done?
    ensures IsRun(c, run') && Quiescent(c, Last(run'))
    ensures id in Last(run').nodes && Last(run').nodes[id] == Last(run).nodes[id]
    decreases Measure(c, Last(run))
  {
    run' := run;
    if a :| Enabled(c, Last(run), a) {
      RunInv(c, w, run);
      StepDecreases(c, w, Last(run), a);
      StaysDone(c, w, Last(run), a, id);
      var longer := Extend(c, run, a);
      run' := RunToRest(c, w, longer, id);
    }
  }

  lemma StaysDone(c: Call, w: Layout, s: State, a: Action, id: PlanId)
    requires Inv(c, w, s) && Enabled(c, s, a) && id in s.nodes && s.nodes[id].Done?
    ensures id in Next(c, s, a).nodes && Next(c, s, a).nodes[id] == s.nodes[id]
  {
    if !a.Drop? {
      NextGrows(c, s, a);
    }
  }

  /** The parent of `d`, if it has one: as long as it is not entered, `d` is not registered. */
  ghost function Registrar(c: Call, w: Layout, d: PlanId): set<PlanId> {
    if IsChild(c, d, w.parent(d)) then {w.parent(d)} else {}
  }

  lemma StaysUnregistered(c: Call, w: Layout, s: State, a: Action, d: PlanId)
    requires Consistent(c, w) && Inv(c, w, s) && TaskEnabled(c, s, a)
    requires d !in s.nodes && !(a.Resolve? && a.id in Registrar(c, w, d))
    ensures d !in TaskNext(c, s, a).nodes
  {
    if IsChild(c, d, a.id) {
      assert w.parent(d) == a.id;
    }
  }

  /** `p` is not registered: some plan that encloses it is, and has not been entered. */
  lemma {:induction false} Frontier(c: Call, w: Layout, s: State, p: PlanId, t: PlanId) returns (a: PlanId)
    requires Acyclic(c, w) && s.nodes.Keys <= c.plans.Keys
    requires t in s.nodes && p !in s.nodes && Under(c, w, p, t)
    ensures a in s.nodes && Under(c, w, p, a) && !ChildrenPresent(c, s, a)
    decreases w.rank(t)
  {
    if p in c.plans[t].children {
      a := t;
    } else {
      var r :| r in c.plans[t].children && Under(c, w, p, r);
      if r in s.nodes {
        a := Frontier(c, w, s, p, r);
      } else {
        a := t;
      }
    }
  }

  ghost predicate SomeFailed(s: State) {
    exists id <- s.nodes :: s.nodes[id] == Done(false)
  }

  /** While nothing has failed, a step towards registering `p` can be made that does not
      register `d`, which is out of scope. */
  lemma StepTowards(c: Call, w: Layout, s: State, p: PlanId, d: PlanId) returns (a: Action)
    requires Consistent(c, w) && Inv(c, w, s)
    requires Reachable(c, w, p) && p !in s.nodes && !SomeFailed(s)
    requires d !in c.top && !InScope(c, w, p, d)
    ensures TaskEnabled(c, s, a) && !(a.Resolve? && a.id in Registrar(c, w, d))
  {
    var t :| t in c.top && Under(c, w, p, t);
    var b := Frontier(c, w, s, p, t);
    var avoid := Registrar(c, w, d);
    forall q | q in avoid ensures q != b && !AwaitsBefore(c, w, b, q) {
      assert Under(c, w, p, b) && q == w.parent(d);
    }
    NotEntered(c, s, b);
    match s.nodes[b]
    case Idle => a := Launch(b);
    case Scheduled => a := Start(b);
    case Waiting => a := StepWaiting(c, w, s, b, avoid);
  }

  lemma NotEntered(c: Call, s: State, b: PlanId)
    requires NodesOk(c, s) && b in s.nodes && !ChildrenPresent(c, s, b) && !SomeFailed(s)
    ensures s.nodes[b].Idle? || s.nodes[b].Scheduled? || s.nodes[b].Waiting?
  {
    assert NodeInv(c, s, b, WasExecuted(s, b));
  }

  lemma StepWaiting(c: Call, w: Layout, s: State, b: PlanId, avoid: set<PlanId>) returns (a: Action)
    requires Consistent(c, w) && NodesOk(c, s) && b in s.nodes && s.nodes[b].Waiting? && b !in avoid
    requires forall q <- avoid :: !AwaitsBefore(c, w, b, q)
    ensures TaskEnabled(c, s, a) && !(a.Resolve? && a.id in avoid)
  {
    assert NodeInv(c, s, b, WasExecuted(s, b));
    if e :| e in c.plans[b].dependsOn && !Completed(c, s, e) {
      a := FindStep(c, w, s, e, avoid);
    } else {
      a := Resolve(b);
    }
  }

  /** The run that executes only what registering `p` needs. */
  lemma {:induction false} Steer(c: Call, w: Layout, run: seq<State>, p: PlanId, d: PlanId) returns (run': seq<State>)
    requires Consistent(c, w) && IsRun(c, run)
    requires Reachable(c, w, p) && d !in c.top && !InScope(c, w, p, d)
    requires d !in Last(run).nodes && (p in Last(run).nodes ==> Last(run).nodes[p] == Idle)
    ensures IsRun(c, run') && d !in Last(run').nodes
    ensures SomeFailed(Last(run')) || (p in Last(run').nodes && Last(run').nodes[p] == Idle)
    decreases Measure(c, Last(run))
  {
    run' := run;
    var s := Last(run);
    if p !in s.nodes && !SomeFailed(s) {
      RunInv(c, w, run);
      var a := StepTowards(c, w, s, p, d);
      StaysUnregistered(c, w, s, a, d);
      StepDecreases(c, w, s, a);
      NextGrows(c, s, a);
      var longer := Extend(c, run, a);
      run' := Steer(c, w, longer, p, d);
    }
  }

  /** With a dependency out of scope some run ends with a failure, though every plan
      succeeds once it is executed and every id outside the call has succeeded. */
  lemma OutOfScopeFails(c: Call, w: Layout, p: PlanId, d: PlanId) returns (run: seq<State>, id: PlanId)
    requires Consistent(c, w) && p in c.plans && d in c.plans && d in c.plans[p].dependsOn
    requires Reachable(c, w, p) && !InScope(c, w, p, d) && d !in c.prior
    ensures IsRun(c, run) && Quiescent(c, Last(run))
    ensures id in c.plans && id in Last(run).nodes && Last(run).nodes[id] == Done(false)
  {
    run := [Init(c)];
    run := Steer(c, w, run, p, d);
    if !SomeFailed(Last(run)) {
      run := Extend(c, run, Launch(p));
      assert d !in Last(run).nodes && d in c.plans[p].dependsOn && !Registered(c, Last(run), d);
      run := Extend(c, run, Start(p));
      assert Last(run).nodes[p] == Done(false);
    }
    id :| id in Last(run).nodes && Last(run).nodes[id] == Done(false);
    run := RunToRest(c, w, run, id);
    RunInv(c, w, run);
  }

  /// Where it happens
  /// ----------------

  /** Service plan "s" passes on its child "d"; plan "p" depends on "d". */
  function Racy(): Call {
    Call(map["p" := Plan(["d"], [], Succeeds), "s" := Plan([], ["d"], Succeeds), "d" := Plan([], [], Succeeds)],
         ["s", "p"], map[])
  }

  ghost function RacyLayout(): Layout {
    Layout((id: PlanId) => if id == "d" then 0 else 1, (id: PlanId) => "s")
  }

  ghost predicate At(run: seq<State>, p: Phase, s: Phase) {
    && IsRun(Racy(), run)
    && Last(run).nodes.Keys == {"p", "s"}
    && Last(run).nodes["p"] == p && Last(run).nodes["s"] == s
  }

  ghost predicate AtThree(run: seq<State>, p: Phase, s: Phase, d: Phase) {
    && IsRun(Racy(), run)
    && Last(run).nodes.Keys == {"p", "s", "d"}
    && Last(run).nodes["p"] == p && Last(run).nodes["s"] == s && Last(run).nodes["d"] == d
  }

  lemma Begin() returns (run: seq<State>)
    ensures At(run, Idle, Idle)
  {
    run := [Init(Racy())];
  }

  /** While `s` awaits its first save, `p` finds its dependency missing and is abandoned. */
  lemma DependentFirst() returns (run: seq<State>)
    ensures At(run, Done(false), Idle)
  {
    run := Begin();
    run := Extend(Racy(), run, Launch("p"));
    assert "d" in Racy().plans["p"].dependsOn;
    run := Extend(Racy(), run, Start("p"));
  }

  lemma ServiceEnters() returns (run: seq<State>)
    ensures AtThree(run, Idle, Executing, Idle)
  {
    run := Begin();
    run := Extend(Racy(), run, Launch("s"));
    run := Extend(Racy(), run, Start("s"));
    assert At(run, Idle, Waiting);
    run := Extend(Racy(), run, Resolve("s"));
    assert "d" in Racy().plans["s"].children;
  }

  lemma ChildFinishes(before: seq<State>) returns (run: seq<State>)
    requires AtThree(before, Idle, Executing, Idle)
    ensures AtThree(run, Idle, Executing, Done(true))
  {
    run := Extend(Racy(), before, Launch("d"));
    run := Extend(Racy(), run, Start("d"));
    assert AtThree(run, Idle, Executing, Waiting);
    run := Extend(Racy(), run, Resolve("d"));
    assert AtThree(run, Idle, Executing, Executing);
    run := Extend(Racy(), run, Finish("d"));
  }

  /** `s` first: it registers `d` without a pause, which `p` then finds and awaits. */
  lemma ServiceFirst() returns (run: seq<State>)
    ensures AtThree(run, Done(true), Executing, Done(true))
  {
    run := ServiceEnters();
    run := ChildFinishes(run);
    run := Extend(Racy(), run, Launch("p"));
    run := Extend(Racy(), run, Start("p"));
    assert AtThree(run, Waiting, Executing, Done(true));
    run := Extend(Racy(), run, Resolve("p"));
    assert AtThree(run, Executing, Executing, Done(true));
    run := Extend(Racy(), run, Finish("p"));
  }

  lemma RacyPlans()
    ensures Racy().plans.Keys == {"p", "s", "d"}
    ensures Racy().plans["p"] == Plan(["d"], [], Succeeds)
    ensures Racy().plans["s"] == Plan([], ["d"], Succeeds)
    ensures Racy().plans["d"] == Plan([], [], Succeeds)
    ensures RacyLayout().rank("d") == 0 && RacyLayout().rank("p") == 1 && RacyLayout().rank("s") == 1
    ensures RacyLayout().parent("d") == "s"
  {
  }

  lemma RacyIsAcyclic(c: Call, w: Layout)
    requires c.plans.Keys == {"p", "s", "d"}
    requires c.plans["p"] == Plan(["d"], [], Succeeds)
    requires c.plans["s"] == Plan([], ["d"], Succeeds)
    requires c.plans["d"] == Plan([], [], Succeeds)
    requires c.top == ["s", "p"]
    requires w.rank("d") == 0 && w.rank("p") == 1 && w.rank("s") == 1 && w.parent("d") == "s"
    ensures Acyclic(c, w) && DistinctIds(c, w) && !Scoped(c, w)
  {
    assert Acyclic(c, w);
    assert DistinctIds(c, w);
    forall a ensures !Under(c, w, "p", a) {
      assert !Under(c, w, "p", "d");
    }
    assert "d" in c.plans["p"].dependsOn && Reachable(c, w, "p") && !InScope(c, w, "p", "d");
  }

  /** Acyclic plans with distinct ids are not enough: two runs with two results. */
  lemma ScopeIsNeeded() returns (one: seq<State>, other: seq<State>)
    ensures Acyclic(Racy(), RacyLayout()) && DistinctIds(Racy(), RacyLayout()) && !Scoped(Racy(), RacyLayout())
    ensures IsRun(Racy(), one) && IsRun(Racy(), other)
    ensures "p" in Last(one).nodes && "p" in Last(other).nodes
    ensures Last(one).nodes["p"] == Done(false) && Last(other).nodes["p"] == Done(true)
  {
    RacyPlans();
    RacyIsAcyclic(Racy(), RacyLayout());
    one := DependentFirst();
    other := ServiceFirst();
  }

  /** Where such a dependency comes from. Resource "p" was planned by the enclosing flow;
      it depends on "d", which exists in the environment but was not planned there. A
      service then plans "d" and "c", and "c" depends on "p". */
  predicate ServiceOverPlanned(t: DependencyPlanner.Task) {
    && t.planned.Keys == {"c", "d"} && t.parents.Keys == {"p"} && t.stored == map["d" := "y"]
    && t.planned["c"] == t.planned["d"] == t.parents["p"] == DependencyPlanner.CreatePlan(false)
    && t.dependencies.Keys == {"c", "d", "p"}
    && t.dependencies["c"] == [DependencyPlanner.Ref("p", "x")]
    && t.dependencies["p"] == [DependencyPlanner.Ref("d", "y")]
    && t.dependencies["d"] == []
  }

  /** The outer plan "p" may wait for the service's "d", and nothing fails to plan. */
  lemma OuterPlanWaitsForChild(t: DependencyPlanner.Task, rank: string -> nat)
    requires ServiceOverPlanned(t) && rank("c") == 2 && rank("p") == 1 && rank("d") == 0
    ensures DependencyPlanner.WellFormed(t, rank)
    ensures DependencyPlanner.WaitsFor(t, "p", "d") && !DependencyPlanner.Fails(t, rank, "p")
  {
    assert DependencyPlanner.Ref("d", "y") in t.dependencies["p"];
    assert !DependencyPlanner.Fails(t, rank, "d");
  }

  /** Resolving "p", as the search from "c" does, appends the service's plan for "d" to
      the `depends_on` of the outer plan: the situation of `Racy`. */
  method ExtendOuterPlan(planner: DependencyPlanner.Planner)
    requires ServiceOverPlanned(planner.t)
    requires planner.rank("c") == 2 && planner.rank("p") == 1 && planner.rank("d") == 0
    requires planner.Valid()
    modifies planner
    ensures "d" in DependencyPlanner.DependsOn(planner.shared, "p")
  {
    OuterPlanWaitsForChild(planner.t, planner.rank);
    var failed := planner.Resolve("p");
  }
}
