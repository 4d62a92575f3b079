/** The record of a service over creates and deploys: `CreateServicePlan.execute_plan`
    (launchflow/flows/create_flows.py:494-626) and `DeployServicePlan.execute_plan`
    (launchflow/flows/deploy_flows.py:359-477), which runs a build and a release plan
    through the executor. */
module DeployService {
  import opened Options
  import PlanExecutor

  datatype ServiceStatus =
    | Ready | Creating | Updating | Deploying | CreateFailed | UpdateFailed | DeployFailed

  datatype ServiceState = ServiceState(
    product: string, status: ServiceStatus, inputs: Option<string>, serviceUrl: Option<string>,
    deploymentId: Option<string>)

  type Stored = Option<ServiceState>

  function DeploymentId(stored: Stored): Option<string> {
    if stored.Some? then stored.value.deploymentId else None
  }

  /// Creating a service
  /// ------------------

  /** How far a create gets: which of its saves reach the store, whether the resources
      are created, and the outputs and inputs that a success records. */
  datatype CreateAttempt = CreateAttempt(
    update: bool, pendingSaved: bool, resourcesOk: bool, outputsOk: bool, inputsOk: bool, finalSaved: bool,
    handlerSaved: bool,
    serviceUrl: Option<string>, inputs: string)

  /** The resources were created, and a record that knows of it reached the store. */
  ghost predicate CreateReaches(a: CreateAttempt) {
    && a.pendingSaved && a.resourcesOk
    && (a.handlerSaved || (a.outputsOk && a.inputsOk && a.finalSaved))
  }

  /** The status of the last record that reached the store. */
  ghost function CreateStatus(a: CreateAttempt): ServiceStatus {
    if a.pendingSaved && a.finalSaved && !a.resourcesOk then
      if a.update then UpdateFailed else CreateFailed
    else if a.pendingSaved && a.finalSaved && a.outputsOk && a.inputsOk then Ready
    else if !a.handlerSaved then
      if a.update then Updating else Creating
    else if !a.update && (!a.pendingSaved || (a.resourcesOk && !a.outputsOk)) then CreateFailed
    else UpdateFailed
  }

  class ServiceManager {
    var stored: Stored

    constructor (stored: Stored)
      ensures this.stored == stored
    {
      this.stored := stored;
    }

    /** A save that reaches the store or raises. */
    method Save(record: ServiceState, reaches: bool)
      modifies this
      ensures stored == if reaches then Some(record) else old(stored)
    {
      if reaches {
        stored := Some(record);
      }
    }

    /** No create, however it ends, touches the deployment id. The inputs are recorded only
        by a create whose resources, outputs and inputs are all there, the URL also by one
        whose inputs are not. The exception handler calls any failure but that of a create
        still in progress a failed update. */
    method ExecuteCreate(product: string, a: CreateAttempt) returns (success: bool)
      modifies this
      ensures success <==> a.pendingSaved && a.resourcesOk && a.outputsOk && a.inputsOk && a.finalSaved
      ensures DeploymentId(stored) == old(DeploymentId(stored))
      ensures !a.pendingSaved && !a.handlerSaved ==> stored == old(stored)
      ensures a.pendingSaved || a.handlerSaved ==> stored.Some? && stored.value.product == product
      ensures a.pendingSaved || a.handlerSaved ==> stored.value.status == CreateStatus(a)
      ensures a.pendingSaved || a.handlerSaved ==>
        stored.value.serviceUrl ==
          if CreateReaches(a) && a.outputsOk then a.serviceUrl
          else if old(stored).Some? then old(stored).value.serviceUrl else None
      ensures a.pendingSaved || a.handlerSaved ==>
        stored.value.inputs ==
          if CreateReaches(a) && a.outputsOk && a.inputsOk then Some(a.inputs)
          else if old(stored).Some? then old(stored).value.inputs else None
    {
      var pending := if a.update then Updating else Creating;
      var failed := if a.update then UpdateFailed else CreateFailed;
      var record := match stored
        case Some(s) => s.(product := product, status := pending)
        case None => ServiceState(product, pending, None, None, None);
      Save(record, a.pendingSaved);
      if a.pendingSaved && (a.resourcesOk ==> a.outputsOk) {
        if a.resourcesOk {
          record := record.(status := Ready, serviceUrl := a.serviceUrl);
          if a.inputsOk {
            record := record.(inputs := Some(a.inputs));
          }
        } else {
          record := record.(status := failed);
        }
        if a.resourcesOk ==> a.inputsOk {
          Save(record, a.finalSaved);
          if a.finalSaved {
            return a.resourcesOk;
          }
        }
      }
      // The exception handler.
      record := record.(status := if record.status == Creating then CreateFailed else UpdateFailed);
      Save(record, a.handlerSaved);
      return false;
    }

    /** `execute_plan` of a deploy whose service has outputs. */
    method ExecuteDeploy(product: string, a: DeployAttempt, registry: PlanExecutor.Registry, name: string)
      returns (success: bool)
      requires registry.Valid()
      modifies this, registry
      ensures registry.Valid()
      ensures stored == AfterDeploy(old(stored), product, a)
      ensures success <==> DeploySucceeds(a)
      ensures !a.pendingSaved && !a.handlerSaved ==> stored == old(stored)
      ensures a.pendingSaved || a.handlerSaved ==>
        && stored.Some? && stored.value.product == product
        && stored.value.status == DeployStatus(a)
        && stored.value.serviceUrl == (
             if a.pendingSaved && DeployReaches(a) then if Works(a) then a.serviceUrl else None
             else if old(stored).Some? then old(stored).value.serviceUrl else None)
        && stored.value.deploymentId == (
             if a.pendingSaved && DeployReaches(a) && Works(a) then Some(a.id)
             else if old(stored).Some? then old(stored).value.deploymentId else None)
        && stored.value.inputs == (
             if a.pendingSaved && DeployReaches(a) && Works(a) && a.inputsOk then Some(a.inputs)
             else if old(stored).Some? then old(stored).value.inputs else None)
    {
      DeploySucceedsIff(a);
      var record := PendingDeploy(stored, product);
      Save(record, a.pendingSaved);
      if a.pendingSaved {
        var steps := StepsOf(a, name);
        assert ("build-" + name)[0] != ("release-" + name)[0];
        var results := RunWorkflow(steps, "release-" + name, a.releaseRaises, registry);
        var releaseOk := if a.hasBuild then results[1] else results[0];
        var deploySuccessful := false !in results;
        assert releaseOk == WorkflowSucceeds(a);
        assert deploySuccessful == WorkflowSucceeds(a);
        record := record.(serviceUrl := if releaseOk then a.serviceUrl else None);
        if deploySuccessful {
          record := record.(status := Ready, deploymentId := Some(a.id));
          if a.inputsOk {
            record := record.(inputs := Some(a.inputs));
          }
        } else {
          record := record.(status := DeployFailed);
        }
        if !deploySuccessful || a.inputsOk {
          Save(record, a.finalSaved);
          if a.finalSaved {
            return deploySuccessful;
          }
        }
      }
      // The exception handler.
      Save(record.(status := DeployFailed), a.handlerSaved);
      return false;
    }

    /** Runs a history of flows on this service. */
    method RunFlows(product: string, flows: seq<Flow>, registry: PlanExecutor.Registry, name: string)
      requires registry.Valid()
      modifies this, registry
      ensures DeploymentId(stored) ==
        if LastStoredId(flows).Some? then LastStoredId(flows) else old(DeploymentId(stored))
    {
      for i := 0 to |flows|
        invariant registry.Valid()
        invariant DeploymentId(stored) ==
          if LastStoredId(flows[..i]).Some? then LastStoredId(flows[..i]) else old(DeploymentId(stored))
      {
        assert flows[..i + 1][..i] == flows[..i];
        ghost var before := stored;
        match flows[i] {
          case CreateFlow(create) =>
            var success := ExecuteCreate(product, create);
          case DeployFlow(deploy) =>
            var success := ExecuteDeploy(product, deploy, registry, name);
            DeployIdAfter(before, product, deploy);
        }
      }
      assert flows[..|flows|] == flows;
    }
  }

  /// Releasing
  /// ---------

  /** A plan that a release depends on; building and promoting give a release its inputs. */
  datatype StepKind = Build | Promote | Other

  datatype Step = Step(id: PlanExecutor.PlanId, kind: StepKind, raises: bool, inputs: string)

  datatype StepResult = StepResult(kind: StepKind, success: bool, inputs: string)

  function ResultOf(step: Step): StepResult {
    StepResult(step.kind, !step.raises, step.inputs)
  }

  function ResultsOf(steps: seq<Step>): seq<StepResult> {
    seq(|steps|, i requires 0 <= i < |steps| => ResultOf(steps[i]))
  }

  predicate CarriesInputs(kind: StepKind) {
    kind.Build? || kind.Promote?
  }

  /** The first result that a release can take its inputs from. */
  ghost predicate IsReleaseInputs(results: seq<StepResult>, found: Option<StepResult>) {
    match found
    case None => forall r <- results :: !CarriesInputs(r.kind)
    case Some(r) => exists i :: 0 <= i < |results| && results[i] == r && FirstWithInputs(results, i)
  }

  ghost predicate FirstWithInputs(results: seq<StepResult>, i: nat)
    requires i < |results|
  {
    CarriesInputs(results[i].kind) && forall j :: 0 <= j < i ==> !CarriesInputs(results[j].kind)
  }

  /** `_get_release_inputs_from_dependency`. */
  method GetReleaseInputs(results: seq<StepResult>) returns (found: Option<StepResult>)
    ensures IsReleaseInputs(results, found)
    ensures found.None? <==> forall r <- results :: r.kind == Other
    ensures found.Some? ==> found.value in results && (found.value.kind == Build || found.value.kind == Promote)
  {
    for i := 0 to |results|
      invariant forall j :: 0 <= j < i ==> !CarriesInputs(results[j].kind)
    {
      if CarriesInputs(results[i].kind) {
        assert FirstWithInputs(results, i);
        return Some(results[i]);
      }
    }
    return None;
  }

  /** What becomes of a release once the plans it depends on have succeeded: it fails if
      it finds no inputs among their results, or if releasing raises. */
  method ReleaseOutcome(steps: seq<Step>, raises: bool) returns (outcome: PlanExecutor.Outcome)
    ensures outcome == OutcomeOfRelease(steps, raises)
  {
    var found := GetReleaseInputs(ResultsOf(steps));
    assert found.Some? <==> exists step <- steps :: CarriesInputs(step.kind) by {
      forall i | 0 <= i < |steps|
        ensures ResultsOf(steps)[i].kind == steps[i].kind && ResultsOf(steps)[i] in ResultsOf(steps)
      {}
    }
    return if found.Some? && !raises then PlanExecutor.Succeeds else PlanExecutor.FailsLate;
  }

  function OutcomeOfRelease(steps: seq<Step>, raises: bool): PlanExecutor.Outcome {
    if (exists step <- steps :: CarriesInputs(step.kind)) && !raises then PlanExecutor.Succeeds
    else PlanExecutor.FailsLate
  }

  /** A release succeeds exactly if all the plans it depends on do, one of them builds or
      promotes, and releasing does not raise. */
  predicate Released(steps: seq<Step>, raises: bool) {
    && (forall step <- steps :: !step.raises)
    && (exists step <- steps :: CarriesInputs(step.kind))
    && !raises
  }

  predicate DistinctSteps(steps: seq<Step>, release: PlanExecutor.PlanId) {
    && (forall i, j :: 0 <= i < j < |steps| ==> steps[i].id != steps[j].id)
    && (forall step <- steps :: step.id != release)
  }

  function StepIds(steps: seq<Step>): seq<PlanExecutor.PlanId> {
    seq(|steps|, i requires 0 <= i < |steps| => steps[i].id)
  }

  function PlanOf(step: Step): PlanExecutor.Plan {
    PlanExecutor.Plan([], [], if step.raises then PlanExecutor.FailsLate else PlanExecutor.Succeeds)
  }

  /** The plans and the release that depends on them, as the executor has them. */
  function Workflow(steps: seq<Step>, release: PlanExecutor.PlanId, outcome: PlanExecutor.Outcome)
    : map<PlanExecutor.PlanId, PlanExecutor.Plan>
    requires DistinctSteps(steps, release)
  {
    (map step | step in steps :: step.id := PlanOf(step))[release := PlanExecutor.Plan(StepIds(steps), [], outcome)]
  }

  ghost function WorkflowLayout(release: PlanExecutor.PlanId): PlanExecutor.Layout {
    PlanExecutor.Layout((id: PlanExecutor.PlanId) => if id == release then 1 else 0, (id: PlanExecutor.PlanId) => id)
  }

  /** The call has these plans. */
  ghost predicate IsWorkflow(c: PlanExecutor.Call, w: PlanExecutor.Layout, steps: seq<Step>,
                             release: PlanExecutor.PlanId, raises: bool) {
    && DistinctSteps(steps, release)
    && c.plans == Workflow(steps, release, OutcomeOfRelease(steps, raises)) && c.top == StepIds(steps) + [release]
    && w == WorkflowLayout(release)
  }

  lemma WorkflowPlans(c: PlanExecutor.Call, w: PlanExecutor.Layout, steps: seq<Step>,
                      release: PlanExecutor.PlanId, raises: bool)
    requires IsWorkflow(c, w, steps, release, raises)
    ensures forall step <- steps :: step.id in c.top && step.id in c.plans && c.plans[step.id] == PlanOf(step)
    ensures release in c.top && release in c.plans
    ensures c.plans[release] == PlanExecutor.Plan(StepIds(steps), [], OutcomeOfRelease(steps, raises))
    ensures forall id <- c.plans :: id == release || exists step <- steps :: step.id == id
  {
    forall i | 0 <= i < |steps| ensures steps[i].id in c.top {
      assert c.top[i] == steps[i].id;
    }
    assert c.top[|steps|] == release;
  }

  lemma WorkflowWellFormed(c: PlanExecutor.Call, w: PlanExecutor.Layout, steps: seq<Step>, release: PlanExecutor.PlanId,
                           raises: bool)
    requires IsWorkflow(c, w, steps, release, raises)
    ensures PlanExecutor.WellFormed(c, w)
  {
    WorkflowPlans(c, w, steps, release, raises);
    forall d | d in StepIds(steps) ensures d in c.top && d != release {
      var i :| 0 <= i < |steps| && StepIds(steps)[i] == d;
      assert steps[i] in steps;
    }
    forall id | id in c.plans
      ensures c.plans[id].children == [] && forall d <- c.plans[id].dependsOn :: d in StepIds(steps) && id == release
    {
      if id != release {
        var step :| step in steps && step.id == id;
      }
    }
    assert PlanExecutor.Consistent(c, w);
  }

  lemma WorkflowResults(c: PlanExecutor.Call, w: PlanExecutor.Layout, steps: seq<Step>,
                        release: PlanExecutor.PlanId, raises: bool)
    requires IsWorkflow(c, w, steps, release, raises) && PlanExecutor.WellFormed(c, w)
    ensures forall step <- steps :: step.id in c.plans && (PlanExecutor.Ok(c, w, step.id) <==> !step.raises)
    ensures release in c.plans && (PlanExecutor.Ok(c, w, release) <==> Released(steps, raises))
  {
    WorkflowPlans(c, w, steps, release, raises);
    forall step | step in steps ensures PlanExecutor.Ok(c, w, step.id) <==> !step.raises {
      StepAlone(c, w, step);
    }
    ReleaseAfter(c, w, steps, release, raises);
  }

  lemma StepAlone(c: PlanExecutor.Call, w: PlanExecutor.Layout, step: Step)
    requires PlanExecutor.Acyclic(c, w) && step.id in c.plans && c.plans[step.id] == PlanOf(step)
    ensures PlanExecutor.Ok(c, w, step.id) <==> !step.raises
  {
    assert PlanExecutor.DepsOk(c, w, step.id);
  }

  lemma ReleaseAfter(c: PlanExecutor.Call, w: PlanExecutor.Layout, steps: seq<Step>,
                     release: PlanExecutor.PlanId, raises: bool)
    requires PlanExecutor.Acyclic(c, w) && release in c.plans
    requires c.plans[release] == PlanExecutor.Plan(StepIds(steps), [], OutcomeOfRelease(steps, raises))
    requires forall step <- steps :: step.id in c.plans && (PlanExecutor.Ok(c, w, step.id) <==> !step.raises)
    ensures PlanExecutor.Ok(c, w, release) <==> Released(steps, raises)
  {
    forall d | d in StepIds(steps) ensures exists step <- steps :: step.id == d {
      var i :| 0 <= i < |steps| && StepIds(steps)[i] == d;
      assert steps[i] in steps;
    }
    forall step | step in steps ensures step.id in StepIds(steps) {
      var i :| 0 <= i < |steps| && steps[i] == step;
      assert StepIds(steps)[i] == step.id;
    }
    assert PlanExecutor.DepsOk(c, w, release) <==> forall step <- steps :: !step.raises;
  }

  /** Runs the plans and the release through the executor. The results come in the order
      of the plans, the release last. */
  method RunWorkflow(steps: seq<Step>, release: PlanExecutor.PlanId, raises: bool, registry: PlanExecutor.Registry)
    returns (results: seq<bool>)
    requires registry.Valid() && DistinctSteps(steps, release)
    modifies registry
    ensures registry.Valid()
    ensures |results| == |steps| + 1
    ensures forall i :: 0 <= i < |steps| ==> results[i] == !steps[i].raises
    ensures results[|steps|] == Released(steps, raises)
    ensures results[|steps|] <==>
      && (forall step <- steps :: !step.raises)
      && (exists step <- steps :: step.kind == Build || step.kind == Promote)
      && !raises
  {
    var outcome := ReleaseOutcome(steps, raises);
    ghost var w := WorkflowLayout(release);
    var plans, top := Workflow(steps, release, outcome), StepIds(steps) + [release];
    ghost var c := PlanExecutor.Call(plans, top, registry.Results());
    WorkflowWellFormed(c, w, steps, release, raises);
    WorkflowResults(c, w, steps, release, raises);
    results := registry.ExecutePlans(plans, top, w);
    forall i | 0 <= i < |steps| ensures results[i] == !steps[i].raises {
      assert top[i] == steps[i].id;
    }
  }

  /// Deploying a service
  /// -------------------

  /** How far a deploy gets. `hasBuild` is false under `--skip-build`. */
  datatype DeployAttempt = DeployAttempt(
    hasBuild: bool, pendingSaved: bool, buildRaises: bool, releaseRaises: bool, inputsOk: bool, finalSaved: bool,
    handlerSaved: bool, id: string, serviceUrl: Option<string>, inputs: string, image: string)

  /** What the release of a deploy depends on. */
  function StepsOf(a: DeployAttempt, name: string): seq<Step> {
    if a.hasBuild then [Step("build-" + name, Build, a.buildRaises, a.image)] else []
  }

  /** Build, if there is one, and release succeed. */
  predicate WorkflowSucceeds(a: DeployAttempt) {
    Released(StepsOf(a, ""), a.releaseRaises)
  }

  predicate DeploySucceeds(a: DeployAttempt) {
    a.pendingSaved && WorkflowSucceeds(a) && a.inputsOk && a.finalSaved
  }

  /** The record with the new deployment id reached the store, by the final save or by
      the exception handler's. */
  predicate StoresId(a: DeployAttempt) {
    a.pendingSaved && WorkflowSucceeds(a) && ((a.inputsOk && a.finalSaved) || a.handlerSaved)
  }

  /** There is a build, and neither it nor the release raises. */
  ghost predicate Works(a: DeployAttempt) {
    a.hasBuild && !a.buildRaises && !a.releaseRaises
  }

  /** What build and release came to reached the store: by the final save, which a
      workflow that worked gets to only if the inputs are there, or by the handler's. */
  ghost predicate DeployReaches(a: DeployAttempt) {
    a.handlerSaved || (a.finalSaved && (Works(a) ==> a.inputsOk))
  }

  /** The status of the last record that reached the store. */
  ghost function DeployStatus(a: DeployAttempt): ServiceStatus {
    if a.pendingSaved && a.finalSaved && Works(a) && a.inputsOk then Ready
    else if a.handlerSaved || (a.pendingSaved && a.finalSaved && !Works(a)) then DeployFailed
    else Deploying
  }

  function PendingDeploy(stored: Stored, product: string): ServiceState {
    match stored
    case Some(s) => s.(product := product, status := Deploying)
    case None => ServiceState(product, Deploying, None, None, None)
  }

  /** The record after build and release, before the final save. */
  function ReleasedRecord(stored: Stored, product: string, a: DeployAttempt): ServiceState {
    var url := if WorkflowSucceeds(a) then a.serviceUrl else None;
    var record := PendingDeploy(stored, product).(serviceUrl := url);
    if !WorkflowSucceeds(a) then record.(status := DeployFailed)
    else if !a.inputsOk then record.(status := Ready, deploymentId := Some(a.id))
    else record.(status := Ready, deploymentId := Some(a.id), inputs := Some(a.inputs))
  }

  function AfterDeploy(stored: Stored, product: string, a: DeployAttempt): Stored {
    if !a.pendingSaved then
      if a.handlerSaved then Some(PendingDeploy(stored, product).(status := DeployFailed)) else stored
    else
      var record := ReleasedRecord(stored, product, a);
      if (WorkflowSucceeds(a) ==> a.inputsOk) && a.finalSaved then Some(record)
      else if a.handlerSaved then Some(record.(status := DeployFailed))
      else Some(PendingDeploy(stored, product))
  }

  /// The deployment id
  /// -----------------

  lemma DeployIdAfter(stored: Stored, product: string, a: DeployAttempt)
    ensures DeploymentId(AfterDeploy(stored, product, a)) == if StoresId(a) then Some(a.id) else DeploymentId(stored)
  {
  }

  /** A deploy that fails leaves the stored id alone, unless build and release had both
      succeeded and the failure came after: then the handler stores the new id. */
  lemma FailedDeployChangesIdIff(stored: Stored, product: string, a: DeployAttempt)
    requires !DeploySucceeds(a) && DeploymentId(stored) != Some(a.id)
    ensures DeploymentId(AfterDeploy(stored, product, a)) != DeploymentId(stored)
      <==> a.pendingSaved && WorkflowSucceeds(a) && a.handlerSaved
  {
  }

  /** A history of flows on one service. */
  datatype Flow = CreateFlow(create: CreateAttempt) | DeployFlow(deploy: DeployAttempt)

  /** The id of the last deploy whose build and release succeeded and was saved. */
  function LastStoredId(flows: seq<Flow>): Option<string> {
    if flows == [] then None
    else
      var last := flows[|flows| - 1];
      if last.DeployFlow? && StoresId(last.deploy) then Some(last.deploy.id) else LastStoredId(flows[..|flows| - 1])
  }

  /// Deploying without a build
  /// -------------------------

  /** `plan_deploy_service` for a service of the stored product: whether there is a plan. */
  predicate CanPlanDeploy(stored: Stored, skipBuild: bool) {
    skipBuild ==> DeploymentId(stored).Some?
  }

  /** A deploy succeeds exactly if it builds, nothing raises, and its saves reach the store. */
  lemma DeploySucceedsIff(a: DeployAttempt)
    ensures DeploySucceeds(a) <==>
      a.hasBuild && !a.buildRaises && !a.releaseRaises && a.pendingSaved && a.inputsOk && a.finalSaved
  {
    if a.hasBuild {
      var step := StepsOf(a, "")[0];
      assert step in StepsOf(a, "") && CarriesInputs(step.kind);
    }
  }

  /** `--skip-build` asks for an earlier deployment and cannot use it: over any history of
      creates and of deploys without a build no deploy succeeds, although each could be
      planned again and again. */
  lemma {:induction false} SkipBuildNeverDeploys(flows: seq<Flow>, stored: Stored, product: string)
    requires forall f <- flows :: f.DeployFlow? ==> !f.deploy.hasBuild
    requires CanPlanDeploy(stored, true)
    ensures forall f <- flows :: f.DeployFlow? ==> !DeploySucceeds(f.deploy)
    ensures LastStoredId(flows) == None
    ensures forall f <- flows :: f.DeployFlow? ==> CanPlanDeploy(AfterDeploy(stored, product, f.deploy), true)
    decreases |flows|
  {
    if flows != [] {
      var last, rest := flows[|flows| - 1], flows[..|flows| - 1];
      SkipBuildNeverDeploys(rest, stored, product);
      assert forall f :: f in flows <==> f in rest || f == last;
      if last.DeployFlow? {
        DeploySucceedsIff(last.deploy);
        assert StepsOf(last.deploy, "") == [];
        DeployIdAfter(stored, product, last.deploy);
      }
    }
  }
}
