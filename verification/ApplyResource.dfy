/** Planning and applying one resource, from launchflow/flows/create_flows.py: the
    operation chosen by a diff against the stored record, the record saved at each
    point of `CreateResourcePlan.execute_plan`, and what the next plan makes of it. */
module ApplyResource {
  import opened Options
  import opened FlowState
  import opened IgnoredInputs

  /** A resource definition: its inputs as planned and as executed, the names of its
      dependencies, and its replacement and ignored arguments. */
  datatype Definition = Definition(
    product: string, planInputs: Inputs, executeInputs: Inputs, dependencies: seq<string>,
    replacement: set<string>, ignored: seq<Path>)

  datatype Operation = Noop | Create | Update | Replace

  /** `Broken`: a KeyError while the plan is made. */
  datatype Planned = FailedToPlan | Broken | Plan(op: Operation)

  /// Choosing the operation
  /// ----------------------

  /** Whether two values of one root argument are the same to DeepDiff. */
  type Same = (Json, Json) -> bool

  ghost predicate Reflexive(same: Same) {
    forall j :: same(j, j)
  }

  /** `affected_root_keys`. */
  function Affected(stored: Inputs, planned: Inputs, same: Same): set<string> {
    set k | k in stored.Keys + planned.Keys && (k !in stored || k !in planned || !same(stored[k], planned[k]))
  }

  function NewInputs(def: Definition, existing: Option<ResourceState>): Option<Json> {
    MergedInputs(def.planInputs, if existing.Some? then existing.value.inputs else None, def.ignored)
  }

  predicate CreatesAnew(existing: Option<ResourceState>) {
    existing.None? || existing.value.status in {CreateFailed, Unknown}
  }

  function StoredInputs(existing: Option<ResourceState>): Inputs {
    if existing.Some? && existing.value.inputs.Some? then existing.value.inputs.value else map[]
  }

  function OperationOf(def: Definition, existing: Option<ResourceState>, planned: Inputs, same: Same): Operation {
    if CreatesAnew(existing) then Create
    else
      var affected := Affected(StoredInputs(existing), planned, same);
      if affected == {} then Noop else if affected * def.replacement != {} then Replace else Update
  }

  /** `plan_create_resource` followed by the first look at the plan. */
  function PlanOf(def: Definition, existing: Option<ResourceState>, same: Same): Planned {
    if existing.Some? && existing.value.product != def.product && existing.value.product != UNKNOWN_PRODUCT then
      FailedToPlan
    else if existing.Some? && existing.value.status.IsPending() then
      FailedToPlan
    else
      var planned := NewInputs(def, existing);
      if planned.None? || !planned.value.Dict? then Broken
      else Plan(OperationOf(def, existing, planned.value.fields, same))
  }

  /** The argument is on one side only, or has two values that are not the same. */
  ghost predicate Changed(stored: Inputs, planned: Inputs, same: Same, k: string) {
    || (k in stored && k !in planned)
    || (k !in stored && k in planned)
    || (k in stored && k in planned && !same(stored[k], planned[k]))
  }

  /** A resource that was never created successfully is created; otherwise it is replaced
      if an argument changed that forces it, left alone if none changed, else updated. */
  lemma OperationMeaning(def: Definition, existing: Option<ResourceState>, planned: Inputs, same: Same)
    ensures var op := OperationOf(def, existing, planned, same);
            && (op == Create <==>
                  existing.None? || existing.value.status == CreateFailed || existing.value.status == Unknown)
            && (op != Create ==> (op == Noop <==> forall k :: !Changed(StoredInputs(existing), planned, same, k)))
            && (op != Create ==>
                  (op == Replace <==> exists k <- def.replacement :: Changed(StoredInputs(existing), planned, same, k)))
  {
    var affected := Affected(StoredInputs(existing), planned, same);
    forall k ensures k in affected <==> Changed(StoredInputs(existing), planned, same, k) {}
    if k :| k in affected {
      assert Changed(StoredInputs(existing), planned, same, k);
    }
    assert affected * def.replacement != {} <==> exists k <- def.replacement :: k in affected by {
      if k :| k in def.replacement && k in affected {
        assert k in affected * def.replacement;
      }
    }
  }

  /** `plan_create_resource`: it refuses a stored record of another product, unless that is
      a placeholder, and one in progress. The plan is made from the planned inputs, with
      the ignored arguments as they are stored, which may raise. */
  lemma PlanMeaning(def: Definition, existing: Option<ResourceState>, same: Same)
    ensures PlanOf(def, existing, same) == FailedToPlan <==>
      && existing.Some?
      && (|| (existing.value.product != def.product && existing.value.product != UNKNOWN_PRODUCT)
          || existing.value.status in {Creating, Updating, Replacing, Destroying})
    ensures PlanOf(def, existing, same).Broken? ==>
      existing.Some? && existing.value.inputs.Some? && def.ignored != []
    ensures PlanOf(def, existing, same).Plan? ==>
      var op := PlanOf(def, existing, same).op;
      && NewInputs(def, existing).Some? && NewInputs(def, existing).value.Dict?
      && var planned := NewInputs(def, existing).value.fields;
      && (op == Create <==>
            existing.None? || existing.value.status == CreateFailed || existing.value.status == Unknown)
      && (op != Create ==> (op == Noop <==> forall k :: !Changed(StoredInputs(existing), planned, same, k)))
      && (op != Create ==>
            (op == Replace <==> exists k <- def.replacement :: Changed(StoredInputs(existing), planned, same, k)))
  {
    var planned := NewInputs(def, existing);
    if planned.Some? && planned.value.Dict? {
      OperationMeaning(def, existing, planned.value.fields, same);
    }
  }

  /** `operation_type`: the loop stops at the first affected key that forces a
      replacement, in whatever order the keys come. */
  method OperationType(def: Definition, existing: Option<ResourceState>, planned: Inputs, same: Same)
    returns (op: Operation)
    ensures op == OperationOf(def, existing, planned, same)
    ensures op == Create <==>
      existing.None? || existing.value.status == CreateFailed || existing.value.status == Unknown
    ensures op != Create ==> (op == Noop <==> forall k :: !Changed(StoredInputs(existing), planned, same, k))
    ensures op != Create ==>
      (op == Replace <==> exists k <- def.replacement :: Changed(StoredInputs(existing), planned, same, k))
  {
    OperationMeaning(def, existing, planned, same);
    op := Noop;
    if CreatesAnew(existing) {
      return Create;
    }
    var affected := Affected(StoredInputs(existing), planned, same);
    if affected != {} {
      op := Update;
      var todo := affected;
      while todo != {}
        invariant todo <= affected && op == Update
        invariant forall k <- affected - todo :: k !in def.replacement
      {
        var k :| k in todo;
        if k in def.replacement {
          assert k in affected * def.replacement;
          return Replace;
        }
        todo := todo - {k};
      }
      assert affected * def.replacement == {};
    }
  }

  /// Executing the plan
  /// ------------------

  /** Where an execution fails, if it does. `PendingSaveFails`: nothing is saved.
      `LeavesPending`: an exception escapes after the in-progress record was saved (the
      inputs do not resolve, or the handler's own save fails). `ProviderFails`: the
      provider call raises. `DependenciesFail`: reading the dependencies raises once the
      new inputs are set. `FailsAfterCommit`: the save of the final record, or what
      follows it, raises. `LeavesReady`: likewise, with the final record stored, and the
      handler's save fails. */
  datatype Attempt =
    | PendingSaveFails
    | LeavesPending
    | ProviderFails
    | DependenciesFail(gcpId: Option<string>, awsArn: Option<string>)
    | FailsAfterCommit(gcpId: Option<string>, awsArn: Option<string>)
    | LeavesReady(gcpId: Option<string>, awsArn: Option<string>)
    | Succeeds(gcpId: Option<string>, awsArn: Option<string>)

  datatype Outcome = Raised | Failed | Succeeded

  function InProgress(op: Operation): ResourceStatus {
    match op
    case Update => Updating
    case Replace => Replacing
    case _ => Creating
  }

  /** The record saved before anything is done. */
  function PendingRecord(def: Definition, existing: Option<ResourceState>, op: Operation, now: nat): ResourceState {
    match existing
    case None => ResourceState(def.product, InProgress(op), None, [], None, None, None, now, now)
    case Some(r) => ResourceState(
      def.product, InProgress(op), r.inputs, r.dependsOn, r.gcpId, r.awsArn, None, r.createdAt, now)
  }

  function CommittedRecord(def: Definition, pending: ResourceState, gcpId: Option<string>, awsArn: Option<string>)
    : ResourceState
  {
    pending.(status := Ready, gcpId := gcpId, awsArn := awsArn, inputs := Some(def.executeInputs),
             dependsOn := def.dependencies)
  }

  /** What is stored after the attempt. */
  function After(def: Definition, existing: Option<ResourceState>, op: Operation, attempt: Attempt, now: nat)
    : Option<ResourceState>
  {
    var pending := PendingRecord(def, existing, op, now);
    match attempt
    case PendingSaveFails => existing
    case LeavesPending => Some(pending)
    case ProviderFails =>
      Some(pending.(status := GivenUp(pending.status), attemptedInputs := Some(def.executeInputs)))
    case DependenciesFail(gcpId, awsArn) =>
      Some(CommittedRecord(def, pending, gcpId, awsArn).(
        dependsOn := pending.dependsOn, status := UpdateFailed, attemptedInputs := Some(def.executeInputs)))
    case FailsAfterCommit(gcpId, awsArn) =>
      Some(CommittedRecord(def, pending, gcpId, awsArn).(
        status := UpdateFailed, attemptedInputs := Some(def.executeInputs)))
    case LeavesReady(gcpId, awsArn) => Some(CommittedRecord(def, pending, gcpId, awsArn))
    case Succeeds(gcpId, awsArn) => Some(CommittedRecord(def, pending, gcpId, awsArn))
  }

  /** What the caller of `execute_plan` gets: an exception, or a result. */
  function OutcomeOf(attempt: Attempt): Outcome {
    match attempt
    case PendingSaveFails => Raised
    case LeavesPending => Raised
    case LeavesReady(_, _) => Raised
    case Succeeds(_, _) => Succeeded
    case _ => Failed
  }

  class ResourceManager {
    var stored: Option<ResourceState>
    var locked: bool

    constructor (stored: Option<ResourceState>)
      ensures this.stored == stored && !locked
    {
      this.stored, this.locked := stored, false;
    }

    method Save(record: ResourceState)
      modifies this`stored
      ensures stored == Some(record)
    {
      stored := Some(record);
    }

    method Release()
      modifies this`locked
      ensures !locked
    {
      locked := false;
    }
  }

  /// What the record says, field by field
  /// ------------------------------------

  /** Product and times: a record keeps the time of its creation. */
  ghost predicate IdentityKept(record: ResourceState, def: Definition, existing: Option<ResourceState>, now: nat) {
    && record.product == def.product && record.updatedAt == now
    && record.createdAt == (if existing.None? then now else existing.value.createdAt)
  }

  /** The status of a handled failure before the provider is done is that of the operation;
      any later one counts as a failed update. */
  ghost predicate StatusAfter(status: ResourceStatus, op: Operation, attempt: Attempt) {
    match attempt
    case LeavesPending =>
      status == if op == Update then Updating else if op == Replace then Replacing else Creating
    case ProviderFails =>
      status == if op == Update then UpdateFailed else if op == Replace then ReplaceFailed else CreateFailed
    case DependenciesFail(_, _) => status == UpdateFailed
    case FailsAfterCommit(_, _) => status == UpdateFailed
    case LeavesReady(_, _) => status == Ready
    case Succeeds(_, _) => status == Ready
    case PendingSaveFails => true
  }

  /** Until the provider is done the record has the old inputs, dependencies and ids; then
      it has the executed inputs and the ids that the provider returned, each in its own
      field, and, once they have been read, the new dependencies. The inputs of a handled
      failure are noted. */
  ghost predicate InputsAfter(record: ResourceState, def: Definition, existing: Option<ResourceState>,
                              attempt: Attempt)
  {
    && (attempt.LeavesPending? || attempt.ProviderFails? ==>
          if existing.None? then record.inputs == None && record.gcpId == None && record.awsArn == None
          else && record.inputs == existing.value.inputs
               && record.gcpId == existing.value.gcpId && record.awsArn == existing.value.awsArn)
    && (!attempt.LeavesPending? && !attempt.ProviderFails? && !attempt.PendingSaveFails? ==>
          && record.inputs == Some(def.executeInputs)
          && record.gcpId == attempt.gcpId && record.awsArn == attempt.awsArn)
    && record.dependsOn == (
         if attempt.FailsAfterCommit? || attempt.LeavesReady? || attempt.Succeeds? then def.dependencies
         else if existing.None? then [] else existing.value.dependsOn)
    && record.attemptedInputs == (
         if attempt.ProviderFails? || attempt.DependenciesFail? || attempt.FailsAfterCommit?
         then Some(def.executeInputs) else None)
  }

  class CreateResourcePlan {
    const def: Definition
    const existing: Option<ResourceState>
    const op: Operation
    const manager: ResourceManager
    var hasLock: bool

    constructor (def: Definition, existing: Option<ResourceState>, op: Operation, manager: ResourceManager)
      ensures this.def == def && this.existing == existing && this.op == op && this.manager == manager && !hasLock
    {
      this.def, this.existing, this.op, this.manager, this.hasLock := def, existing, op, manager, false;
    }

    /** `execute_plan` under the plan's lock, which it releases however it ends. A plan
        without a lock is abandoned. */
    method ExecutePlan(attempt: Attempt, now: nat) returns (outcome: Outcome)
      requires hasLock ==> manager.locked && manager.stored == existing
      modifies manager
      ensures hasLock ==> manager.stored == After(def, existing, op, attempt, now) && !manager.locked
      ensures !hasLock ==> manager.stored == old(manager.stored) && manager.locked == old(manager.locked)
      ensures hasLock && attempt.PendingSaveFails? ==> manager.stored == existing
      ensures hasLock && !attempt.PendingSaveFails? ==>
        && manager.stored.Some?
        && IdentityKept(manager.stored.value, def, existing, now)
        && StatusAfter(manager.stored.value.status, op, attempt)
        && InputsAfter(manager.stored.value, def, existing, attempt)
      ensures outcome == if hasLock then OutcomeOf(attempt) else Failed
      ensures outcome == Succeeded <==> hasLock && attempt.Succeeds?
      ensures outcome == Raised <==>
        hasLock && (attempt.PendingSaveFails? || attempt.LeavesPending? || attempt.LeavesReady?)
    {
      if !hasLock {
        return Failed;
      }
      var record := PendingRecord(def, existing, op, now);
      outcome := OutcomeOf(attempt);
      if !attempt.PendingSaveFails? {
        manager.Save(record);
      }
      match attempt {
        case PendingSaveFails =>
        case LeavesPending =>
        case ProviderFails => GiveUp(record);
        case DependenciesFail(gcpId, awsArn) =>
          GiveUp(record.(status := Ready, gcpId := gcpId, awsArn := awsArn, inputs := Some(def.executeInputs)));
        case FailsAfterCommit(gcpId, awsArn) => GiveUp(CommittedRecord(def, record, gcpId, awsArn));
        case LeavesReady(gcpId, awsArn) => manager.Save(CommittedRecord(def, record, gcpId, awsArn));
        case Succeeds(gcpId, awsArn) => manager.Save(CommittedRecord(def, record, gcpId, awsArn));
      }
      manager.Release();
    }

    /** The exception handler: the status falls back on `UpdateFailed`, whatever it was. */
    method GiveUp(record: ResourceState)
      modifies manager`stored
      ensures manager.stored == Some(record.(
        status := if record.status == Creating then CreateFailed else if record.status == Replacing then ReplaceFailed
                  else UpdateFailed,
        attemptedInputs := Some(def.executeInputs)))
    {
      var failed := record;
      if record.status == Creating {
        failed := failed.(status := CreateFailed);
      } else if record.status == Replacing {
        failed := failed.(status := ReplaceFailed);
      } else {
        failed := failed.(status := UpdateFailed);
      }
      manager.Save(failed.(attemptedInputs := Some(def.executeInputs)));
    }
  }

  /// Convergence
  /// -----------

  /** The outputs that the inputs are built from have settled. */
  predicate Settled(def: Definition) {
    def.planInputs == def.executeInputs
  }

  function StoredDependsOn(existing: Option<ResourceState>): seq<string> {
    if existing.Some? then existing.value.dependsOn else []
  }

  predicate CleanFailure(attempt: Attempt) {
    attempt.PendingSaveFails? || attempt.ProviderFails?
  }

  /** A clean failure changes neither the stored inputs nor the dependencies, and the
      next plan is the same. */
  lemma CleanFailureKeepsPlan(def: Definition, existing: Option<ResourceState>, op: Operation, attempt: Attempt,
                              now: nat, same: Same)
    requires PlanOf(def, existing, same) == Plan(op) && op != Noop
    requires CleanFailure(attempt)
    ensures PlanOf(def, After(def, existing, op, attempt, now), same) == Plan(op)
    ensures StoredInputs(After(def, existing, op, attempt, now)) == StoredInputs(existing)
    ensures StoredDependsOn(After(def, existing, op, attempt, now)) == StoredDependsOn(existing)
  {
  }

  /** What a stored record with the executed inputs plans as: nothing to do, or a
      KeyError when an ignored argument is not among the inputs. */
  lemma PlanAfterCommit(def: Definition, record: ResourceState, same: Same)
    requires Settled(def) && Reflexive(same)
    requires record.product == def.product && record.inputs == Some(def.executeInputs)
    requires record.status in {Ready, UpdateFailed}
    ensures PlanOf(def, Some(record), same) ==
      if AllResolve(Dict(def.executeInputs), Effective([], def.ignored)) then Plan(Noop) else Broken
  {
    KeepAllSame(Dict(def.executeInputs), Effective([], def.ignored));
  }

  /** Which failures keep the plan: exactly the clean ones. A failure that leaves the
      in-progress record makes planning refuse the resource, and one after the provider
      call has already stored the new inputs, so that nothing is planned any more. */
  lemma FailureKeepsPlanIff(def: Definition, existing: Option<ResourceState>, op: Operation, attempt: Attempt, now: nat,
                            same: Same)
    requires Settled(def) && Reflexive(same)
    requires PlanOf(def, existing, same) == Plan(op) && op != Noop
    requires !attempt.Succeeds?
    ensures PlanOf(def, After(def, existing, op, attempt, now), same) == Plan(op) <==> CleanFailure(attempt)
  {
    if !CleanFailure(attempt) && !attempt.LeavesPending? {
      PlanAfterCommit(def, After(def, existing, op, attempt, now).value, same);
    }
  }

  /** The stored record after a sequence of plan-and-execute rounds. */
  function AfterAll(def: Definition, existing: Option<ResourceState>, op: Operation, attempts: seq<Attempt>, now: nat)
    : Option<ResourceState>
    decreases |attempts|
  {
    if attempts == [] then existing
    else AfterAll(def, After(def, existing, op, attempts[0], now), op, attempts[1..], now + 1)
  }

  /** However often the execution fails, the stored inputs and dependencies stay, and
      each round plans the operation of the first one. */
  lemma {:induction false} FailuresKeepPlan(def: Definition, existing: Option<ResourceState>, op: Operation,
                                            failures: seq<Attempt>, now: nat, same: Same)
    requires PlanOf(def, existing, same) == Plan(op) && op != Noop
    requires forall a <- failures :: CleanFailure(a)
    ensures PlanOf(def, AfterAll(def, existing, op, failures, now), same) == Plan(op)
    ensures StoredInputs(AfterAll(def, existing, op, failures, now)) == StoredInputs(existing)
    ensures StoredDependsOn(AfterAll(def, existing, op, failures, now)) == StoredDependsOn(existing)
    decreases |failures|
  {
    if failures != [] {
      CleanFailureKeepsPlan(def, existing, op, failures[0], now, same);
      FailuresKeepPlan(def, After(def, existing, op, failures[0], now), op, failures[1..], now + 1, same);
    }
  }

  /** Convergence: after any number of clean failures the first success stores the
      executed inputs, and the plan after it has nothing to do, provided that every
      ignored argument is an input (else it is a KeyError). */
  lemma Convergence(def: Definition, existing: Option<ResourceState>, op: Operation, failures: seq<Attempt>,
                    success: Attempt, now: nat, same: Same)
    requires Settled(def) && Reflexive(same)
    requires PlanOf(def, existing, same) == Plan(op) && op != Noop
    requires (forall a <- failures :: CleanFailure(a)) && success.Succeeds?
    ensures var failed := AfterAll(def, existing, op, failures, now);
            var ready := After(def, failed, op, success, now + |failures|);
            && PlanOf(def, failed, same) == Plan(op)
            && StoredInputs(ready) == def.executeInputs && StoredDependsOn(ready) == def.dependencies
            && (PlanOf(def, ready, same) == Plan(Noop) <==>
                  AllResolve(Dict(def.executeInputs), Effective([], def.ignored)))
  {
    FailuresKeepPlan(def, existing, op, failures, now, same);
    var failed := AfterAll(def, existing, op, failures, now);
    PlanAfterCommit(def, After(def, failed, op, success, now + |failures|).value, same);
  }

  /** Changing ignored arguments in the definition gives nothing to do, if the stored
      inputs have them and at most the last one is dotted. */
  lemma IgnoredChangesAreNoop(def: Definition, record: ResourceState, same: Same)
    requires Reflexive(same)
    requires record.product == def.product && record.inputs.Some?
    requires !CreatesAnew(Some(record)) && !record.status.IsPending()
    requires forall i :: 0 <= i < |def.ignored| - 1 ==> |def.ignored[i]| == 1
    requires DifferOnlyAt(Dict(def.planInputs), Dict(record.inputs.value), def.ignored)
    ensures PlanOf(def, Some(record), same) == Plan(Noop)
  {
    EffectiveIffDottedLast(def.ignored);
    KeepsStored(Dict(def.planInputs), Dict(record.inputs.value), def.ignored);
    NoopOnSame(def, record, same);
  }

  lemma NoopOnSame(def: Definition, record: ResourceState, same: Same)
    requires Reflexive(same)
    requires record.product == def.product && record.inputs.Some?
    requires !CreatesAnew(Some(record)) && !record.status.IsPending()
    requires NewInputs(def, Some(record)) == Some(Dict(record.inputs.value))
    ensures PlanOf(def, Some(record), same) == Plan(Noop)
  {
  }
}
