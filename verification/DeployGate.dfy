/** Which deploy plans a deploy flow executes
    (launchflow/flows/deploy_flows.py:656-727, 835-984; plan_utils.py:72-168). */
module DeployGate {
  type Name = string

  datatype Operation = Noop | Create | Update | Replace

  /** The result of planning the creation of one service or resource. */
  datatype CreatePlan =
    | ServicePlan(name: Name, op: Operation)
    | ResourcePlan(name: Name, op: Operation)
    | FailedService(name: Name)
    | FailedResource(name: Name)

  datatype DeployPlan = DeployPlan(name: Name) | FailedDeploy(name: Name)

  predicate Failed(p: CreatePlan) {
    p.FailedService? || p.FailedResource?
  }

  /** A plan that the user can select. */
  predicate Valid(p: CreatePlan) {
    !Failed(p) && p.op != Noop
  }

  /// Planning
  /// --------

  /** Under `--skip-create` a deploy plan is swapped for a failure if creating its
      service failed to plan or has something to do. */
  predicate MissingCreate(creates: seq<CreatePlan>, n: Name) {
    exists p <- creates :: p.name == n && (p.FailedService? || (p.ServicePlan? && p.op != Noop))
  }

  method SwapUncreated(deploys: seq<DeployPlan>, creates: seq<CreatePlan>) returns (kept: seq<DeployPlan>)
    ensures |kept| == |deploys|
    ensures forall i :: 0 <= i < |deploys| ==>
      kept[i] == if MissingCreate(creates, deploys[i].name) then FailedDeploy(deploys[i].name) else deploys[i]
    ensures forall i :: 0 <= i < |deploys| ==>
      (kept[i] == deploys[i] <==>
        || deploys[i].FailedDeploy?
        || forall p <- creates :: p.name == deploys[i].name ==>
             p.ResourcePlan? || p.FailedResource? || p == ServicePlan(p.name, Noop))
  {
    kept := [];
    for i := 0 to |deploys|
      invariant |kept| == i
      invariant forall j :: 0 <= j < i ==>
        kept[j] == if MissingCreate(creates, deploys[j].name) then FailedDeploy(deploys[j].name) else deploys[j]
    {
      var d := deploys[i];
      kept := kept + [if MissingCreate(creates, d.name) then FailedDeploy(d.name) else d];
    }
  }

  /// Selecting
  /// ---------

  datatype Selection<T> = NoneValid | Selected(plans: seq<T>)

  /** `select_plans` over create plans: nothing to select from, or the valid plans that
      the user approves. */
  method SelectCreates(plans: seq<CreatePlan>, approved: set<CreatePlan>) returns (s: Selection<CreatePlan>)
    ensures s.NoneValid? <==> forall p <- plans :: !Valid(p)
    ensures s.Selected? ==> forall p :: p in s.plans <==> p in plans && Valid(p) && p in approved
    ensures s.NoneValid? <==> forall p <- plans :: p.FailedService? || p.FailedResource? || p.op == Noop
    ensures s.Selected? ==> forall p :: p in s.plans <==>
      p in plans && p in approved && (p.ServicePlan? || p.ResourcePlan?) && p.op != Noop
  {
    var valid, selected: seq<CreatePlan> := false, [];
    for i := 0 to |plans|
      invariant valid <==> exists p <- plans[..i] :: Valid(p)
      invariant forall p :: p in selected <==> p in plans[..i] && Valid(p) && p in approved
    {
      assert plans[..i + 1] == plans[..i] + [plans[i]];
      if Valid(plans[i]) {
        valid := true;
        if plans[i] in approved {
          selected := selected + [plans[i]];
        }
      }
    }
    assert plans[..|plans|] == plans;
    return if valid then Selected(selected) else NoneValid;
  }

  method SelectDeploys(plans: seq<DeployPlan>, approved: set<Name>) returns (names: set<Name>)
    ensures names == set n | n in approved && DeployPlan(n) in plans
  {
    names := {};
    for i := 0 to |plans|
      invariant names == set n | n in approved && DeployPlan(n) in plans[..i]
    {
      assert plans[..i + 1] == plans[..i] + [plans[i]];
      if plans[i].DeployPlan? && plans[i].name in approved {
        names := names + {plans[i].name};
      }
    }
    assert plans[..|plans|] == plans;
  }

  /** `service_names_that_need_create`, from the create plans and all failures. */
  ghost predicate NeedsCreate(creates: seq<CreatePlan>, deploys: seq<DeployPlan>, n: Name) {
    ServicePlan(n, Create) in creates || FailedService(n) in creates || FailedDeploy(n) in deploys
  }

  method NamesThatNeedCreate(creates: seq<CreatePlan>, deploys: seq<DeployPlan>) returns (names: set<Name>)
    ensures forall n :: n in names <==> NeedsCreate(creates, deploys, n)
    ensures forall n :: n in names <==>
      ServicePlan(n, Create) in creates || FailedService(n) in creates || FailedDeploy(n) in deploys
  {
    names := {};
    for i := 0 to |creates|
      invariant forall n :: n in names <==> ServicePlan(n, Create) in creates[..i] || FailedService(n) in creates[..i]
    {
      assert creates[..i + 1] == creates[..i] + [creates[i]];
      var p := creates[i];
      if p.FailedService? || (p.ServicePlan? && p.op == Create) {
        names := names + {p.name};
      }
    }
    assert creates[..|creates|] == creates;
    for i := 0 to |deploys|
      invariant forall n :: n in names <==> NeedsCreate(creates, deploys[..i], n)
    {
      assert deploys[..i + 1] == deploys[..i] + [deploys[i]];
      if deploys[i].FailedDeploy? {
        names := names + {deploys[i].name};
      }
    }
    assert deploys[..|deploys|] == deploys;
  }

  /// The flow
  /// --------

  /** What the user approves, whether the two lock phases are entered, and which create
      executions succeed. */
  datatype Choices = Choices(
    creates: set<CreatePlan>, deploys: set<Name>, createsLocked: bool, deploysLocked: bool, succeeds: set<CreatePlan>)

  /** The selected creates have all been locked, executed and found to succeed. */
  ghost predicate CreatesDone(creates: seq<CreatePlan>, ch: Choices) {
    forall p :: SelectedCreate(creates, ch, p) ==> ch.createsLocked && p in ch.succeeds
  }

  ghost predicate SelectedCreate(creates: seq<CreatePlan>, ch: Choices, p: CreatePlan) {
    p in creates && Valid(p) && p in ch.creates
  }

  /** The service has what it needs: no create is due, or its create is selected. */
  ghost predicate Deployable(creates: seq<CreatePlan>, deploys: seq<DeployPlan>, ch: Choices, n: Name) {
    && DeployPlan(n) in deploys
    && (NeedsCreate(creates, deploys, n) ==> SelectedCreate(creates, ch, ServicePlan(n, Create)))
  }

  /** The flow from the plans to the executed deploys: a deploy is executed exactly when
      it is approved, its service has what it needs, every selected create plan was locked
      and succeeded, and the deploys could be locked. A lock phase that is not entered
      raises out of the flow. */
  method Deploy(creates: seq<CreatePlan>, deploys: seq<DeployPlan>, ch: Choices) returns (executed: set<Name>)
    ensures forall n :: n in executed <==>
      && n in ch.deploys && Deployable(creates, deploys, ch, n)
      && CreatesDone(creates, ch) && ch.deploysLocked
    ensures forall n :: n in executed <==>
      && n in ch.deploys && DeployPlan(n) in deploys
      && (ServicePlan(n, Create) in creates || FailedService(n) in creates || FailedDeploy(n) in deploys ==>
            ServicePlan(n, Create) in creates && ServicePlan(n, Create) in ch.creates)
      && (forall p <- creates :: (p.ServicePlan? || p.ResourcePlan?) && p.op != Noop && p in ch.creates ==>
            ch.createsLocked && p in ch.succeeds)
      && ch.deploysLocked
  {
    var needed := NamesThatNeedCreate(creates, deploys);
    var selection := SelectCreates(creates, ch.creates);
    var selected: seq<CreatePlan> := if selection.Selected? then selection.plans else [];
    assert forall p :: p in selected <==> SelectedCreate(creates, ch, p);
    var created := set p | p in selected && p.ServicePlan? && p.op == Create :: p.name;
    assert forall n :: n in created <==> SelectedCreate(creates, ch, ServicePlan(n, Create));
    var blocked := needed - created;
    var remaining := RemoveBlocked(deploys, blocked);
    var selectedDeploys := SelectDeploys(remaining, ch.deploys);
    if selectedDeploys == {} {
      assert forall n :: !(n in ch.deploys && Deployable(creates, deploys, ch, n)) by {
        forall n | n in ch.deploys && Deployable(creates, deploys, ch, n) ensures n in selectedDeploys {}
      }
      return {};
    }
    if selected != [] && !ch.createsLocked {
      assert SelectedCreate(creates, ch, selected[0]);
      return {};
    }
    if (exists p <- selected :: p !in ch.succeeds) || !ch.deploysLocked {
      return {};
    }
    return selectedDeploys;
  }

  method RemoveBlocked(deploys: seq<DeployPlan>, blocked: set<Name>) returns (kept: seq<DeployPlan>)
    ensures forall d :: d in kept <==> d in deploys && d.DeployPlan? && d.name !in blocked
  {
    kept := [];
    for i := 0 to |deploys|
      invariant forall d :: d in kept <==> d in deploys[..i] && d.DeployPlan? && d.name !in blocked
    {
      assert deploys[..i + 1] == deploys[..i] + [deploys[i]];
      if deploys[i].DeployPlan? && deploys[i].name !in blocked {
        kept := kept + [deploys[i]];
      }
    }
    assert deploys[..|deploys|] == deploys;
  }

  /** Under `--skip-create` nothing is created, and a deploy is executed only if creating
      its service had planned to nothing to do. */
  method DeploySkippingCreate(services: seq<CreatePlan>, deploys: seq<DeployPlan>, ch: Choices)
    returns (executed: set<Name>)
    requires forall d <- deploys :: exists p <- services :: p.name == d.name
    requires forall p <- services :: p.ServicePlan? || p.FailedService?
    ensures forall n :: n in executed ==>
      n in ch.deploys && DeployPlan(n) in deploys && forall p <- services :: p.name == n ==> p == ServicePlan(n, Noop)
    ensures forall n <- ch.deploys ::
      && ch.deploysLocked && DeployPlan(n) in deploys && FailedDeploy(n) !in deploys
      && (forall p <- services :: p.name == n ==> p == ServicePlan(n, Noop))
      ==> n in executed
  {
    var kept := SwapUncreated(deploys, services);
    executed := Deploy([], kept, ch);
    forall n | n in executed
      ensures DeployPlan(n) in deploys && forall p <- services :: p.name == n ==> p == ServicePlan(n, Noop)
    {
      var i :| 0 <= i < |kept| && kept[i] == DeployPlan(n);
      assert deploys[i] == DeployPlan(n);
    }
    forall n | n in ch.deploys && ch.deploysLocked && DeployPlan(n) in deploys && FailedDeploy(n) !in deploys &&
               (forall p <- services :: p.name == n ==> p == ServicePlan(n, Noop))
      ensures n in executed
    {
      var i :| 0 <= i < |deploys| && deploys[i] == DeployPlan(n);
      assert kept[i] == DeployPlan(n);
      forall j | 0 <= j < |kept| ensures kept[j] != FailedDeploy(n) {
        assert deploys[j] in deploys;
      }
    }
  }
}
