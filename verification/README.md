# A verified model of LaunchFlow's plan, lock, execute and destroy engine

LaunchFlow plans changes to cloud resources and services by comparing definitions with
stored records, locks what it is going to change, executes the plans concurrently, and
stores the outcome. This project models that engine in Dafny and proves what it promises
over every schedule, every number of clients, every dependency graph and every sequence
of failures. `dafny verify dfyconfig.toml` checks everything.

## What is modelled

| module | source | content |
|---|---|---|
| `PlanExecutor` | `launchflow/flows/plan.py` | the memoised concurrent executor, as atomic steps of its asyncio tasks and as a mutable registry that refines them |
| `PlanScopes` | `plan.py`, `create_flows.py` | on exactly which plan sets the executor's results are the specified ones, and how planning arrives at others |
| `DependencyPlanner` | `launchflow/flows/create_flows.py` | the concurrent depth-first searches that resolve the dependencies of the plans |
| `IgnoredInputs`, `ApplyResource` | `create_flows.py` | the diff, the chosen operation, and the records stored by each way an execution can end |
| `ResourceProtocol` | `create_flows.py`, `resource_flows.py`, `unlock_flows.py` | any number of clients planning, locking, comparing, writing, crashing and recovering on one resource |
| `Recovery` | `unlock_flows.py`, `resource_flows.py` | unlocking a resource from every point at which a flow may have crashed |
| `Locks` | `launchflow/locks.py` | the local and the GCS lock, call by call and step by step |
| `LockPhase` | `launchflow/flows/plan_utils.py` | locking plan trees before the execution, and what is locked after it |
| `DestroyScheduler` | `launchflow/flows/resource_flows.py` | the inverse dependency graph and the worklist that tears resources down |
| `NodeModes`, `Serialization` | `launchflow/node.py`, `launchflow/resource.py` | symbolic dependencies under a mode; the serialiser and the output decoder |
| `Duality` | several | planner, executor, records and destroy scheduler in a row: create order against destroy order |
| `DeployService`, `DeployGate` | `launchflow/flows/deploy_flows.py`, `create_flows.py` | the deployment id over histories of flows; which deploys are executed |
| `Migration` | `launchflow/flows/lf_cloud_migration.py` | copying stored state to another backend |
| `FlowState`, `Options` | `launchflow/models` | the stored records |

Control can pass from one coroutine to another only at an `await`, so each asyncio task is
modelled as a sequence of atomic stretches and a schedule as any sequence of them. Calls to
cloud providers, builds and releases are outcomes handed in from outside; a user's selection
is an arbitrary subset. Objects whose methods update fields are classes; each method is tied
to a specification on values, about which the lemmas are.

## Where the code differs from what one might expect

Each of these is a statement proved below.

* The executor's results are the specified ones, for all outcomes and all schedules, exactly
  if every dependency is in scope (`PlanScopes.AsSpecifiedIffScoped`); out of scope, a plan
  may end in two ways (`PlanScopes.ScopeIsNeeded`). Planning a service can append the plan
  of one of its own resources to an outer resource plan (`PlanScopes.ExtendOuterPlan`), which
  is then out of scope.
* A service plan that fails after its resources were executed abandons them all the same,
  without waiting for that (`PlanExecutor.AbandonedByParent`).
* When the lock phase fails, the locks that remote plans have taken stay: the final block
  releases nothing but Docker locks, which exclude nobody
  (`LockPhase.LockTable.LockAndExecute`, `LockPhase.LocalResultsLockNothing`).
* The child plans of a plan that is abandoned keep their locks (`LockPhase.LocksAfterwards`).
* Ignored arguments: a dotted name moves the loop's cursors for good, so it must come last
  in an unspecified order (`IgnoredInputs.EffectiveIffDottedLast`); an ignored argument that
  is not among the stored inputs makes every later plan fail (`ApplyResource.Convergence`).
* A failure after the provider call stores the new inputs under a failed status, and an
  exception outside the handler leaves the in-progress status or a finished record
  (`ApplyResource.FailureKeepsPlanIff`).
* A first create that crashes before its first save cannot be unlocked
  (`Recovery.CrashedApplyUnlocks`, `Recovery.RoundsKeepPlan`).
* A destroy writes the record it listed before it took the lock, so a failed teardown can
  undo an update that was saved in between (`ResourceProtocol.FailedDestroyMayLoseUpdate`,
  `ResourceProtocol.FailedDestroyKeepsIff`).
* A local lock object whose acquire raised looks acquired (`Locks.LocalLock.EnterAfterFailure`).
* A deploy with `--skip-build` never succeeds (`DeployService.SkipBuildNeverDeploys`), and a
  deploy that fails while saving its success stores the new deployment id
  (`DeployService.FailedDeployChangesIdIff`).
* Migrating from GCS ends in an error whenever anything is missing in the target, although
  the flow accepts that backend (`Migration.Migrator.Migrate`).

## Model

| member | source | states |
|---|---|---|
| PlanExecutor.Confluence | launchflow/flows/plan.py:148-230 | In every schedule that has come to rest, each registered plan has the result of the recursive specification: its dependencies are registered and ok, its own step succeeds, its children are ok |
| PlanExecutor.ExactlyOnce | launchflow/flows/plan.py:144-209 | On any acyclic plans with distinct ids, each registered plan is executed once or abandoned once by the executor, never both; an unregistered plan neither |
| PlanExecutor.ResultIsEarned | launchflow/flows/plan.py:193-225 | At rest a plan has succeeded exactly if it was executed, did not fail by itself, and all its child plans have succeeded |
| PlanExecutor.ExecutedIffDepsOk | launchflow/flows/plan.py:172-209 | With dependencies in scope, the executed plans are those whose dependencies are registered and ok |
| PlanExecutor.DependenciesFinishFirst | launchflow/flows/plan.py:172-209 | At every point of every run, a plan that was executed had each dependency finished with success before, in this call or, if it was not passed to it directly, in an earlier one |
| PlanExecutor.NoDeadlock | launchflow/flows/plan.py:189-230 | A run that cannot step has finished every registered plan and left no abandoning pending |
| PlanExecutor.FindStep | launchflow/flows/plan.py:148-230 | While a plan is unfinished, it or something it waits for can step, without entering any of the plans it does not wait for |
| PlanExecutor.Terminates | launchflow/flows/plan.py:148-230 | No run is longer than six steps per plan |
| PlanExecutor.RunInv | launchflow/flows/plan.py:139-230 | The invariant of registry, phases and log holds after every run |
| PlanExecutor.ChildrenRegistered | launchflow/flows/create_flows.py:552-557 | A child plan gets registered exactly when its parent was executed and did not fail before passing its children on |
| PlanExecutor.AbandonedByParent | launchflow/flows/create_flows.py:594-626 | Once everything has come to rest, the un-awaited abandons included, a child was abandoned by its parent's handler exactly when the parent was executed and failed by itself, and on top of the executor's own event exactly when it failed late |
| PlanExecutor.Registry.RegisterPlans | launchflow/flows/plan.py:144-146 | Registering replaces the node of each id by one without a task and keeps the rest |
| PlanExecutor.Registry.StartTask | launchflow/flows/plan.py:171-191 | A new task abandons its plan if a dependency is not registered and otherwise waits |
| PlanExecutor.Registry.ResolveTask | launchflow/flows/plan.py:193-209 | When all dependencies have finished, the plan is abandoned or entered, registering its children |
| PlanExecutor.Registry.StepTask | launchflow/flows/plan.py:148-225 | Each turn of a task is a step of the relation, whichever task the loop picks |
| PlanExecutor.Registry.RunDrop | launchflow/flows/create_flows.py:609-617 | An abandon that a handler scheduled runs as a step of its own |
| PlanExecutor.Registry.ExecutePlans | launchflow/flows/plan.py:139-230 | The call terminates and returns the results in the order in which the plans were passed, the specified ones if dependencies are in scope, and leaves other registered results alone |
| PlanScopes.AsSpecifiedIffScoped | launchflow/flows/plan.py:139-230 | For acyclic plans with distinct ids: every run at rest has the specified results, for all outcomes and all earlier results, exactly if every dependency is in scope: passed directly, or child of a plan that encloses the dependent or that such a plan waits for |
| PlanScopes.OutOfScopeFails | launchflow/flows/plan.py:172-187 | A dependency out of scope gives a run with a failed plan, whatever the other plans |
| PlanScopes.ScopeIsNeeded | launchflow/flows/plan.py:172-187 | Two runs of one acyclic plan set with distinct ids end the same plan differently |
| PlanScopes.ExtendOuterPlan | launchflow/flows/create_flows.py:900-926 | Resolving an outer resource plan while planning a service appends the service's own resource plan to it |
| DependencyPlanner.Planner.Resolve | launchflow/flows/create_flows.py:872-928 | Whatever the other searches do meanwhile, a search fails exactly on the recursive verdict, and on success has listed every direct dependency with something to do |
| DependencyPlanner.Planner.Visit | launchflow/flows/create_flows.py:877-926 | One dependency is found unusable exactly as specified: missing or of another product, failed to plan, or with something to do and failing |
| DependencyPlanner.Planner.Interleave | launchflow/flows/create_flows.py:885-886 | While a record is loaded, the other searches may have changed the shared state in any way they are allowed to |
| DependencyPlanner.Planner.ResolveAll | launchflow/flows/create_flows.py:930-935 | In any order of resolution the failed plans are those with a failing verdict, and for the others `depends_on` as a set is the planned direct dependencies with something to do |
| DependencyPlanner.FailsIffPathToCause | launchflow/flows/create_flows.py:872-928 | A plan fails exactly when a path of plans with something to do leads from it to a root cause |
| IgnoredInputs.NewResourceInputs | launchflow/flows/create_flows.py:92-108 | The loop copies the stored values at the effective paths, or raises |
| IgnoredInputs.EffectiveIffDottedLast | launchflow/flows/create_flows.py:100-107 | The effective paths are the named arguments exactly when no dotted one comes before another |
| IgnoredInputs.KeepAllKeeps | launchflow/flows/create_flows.py:92-108 | In the result each ignored argument has its stored value, overlapping paths included |
| IgnoredInputs.KeepAllLeaves | launchflow/flows/create_flows.py:92-108 | Whatever is on a path disjoint from the ignored ones, siblings of a dotted one included, keeps its planned value |
| IgnoredInputs.KeepsStored | launchflow/flows/create_flows.py:92-108 | If planned and stored inputs agree on every path disjoint from the ignored ones, the result is what is stored |
| IgnoredInputs.KeepAllSame | launchflow/flows/create_flows.py:92-108 | Planning the stored inputs gives the stored inputs, or raises if an ignored argument is not among them |
| ApplyResource.OperationType | launchflow/flows/create_flows.py:110-134 | Failed creates and placeholders are created; else a replacement exactly if some argument that forces one is on one side only or has two values that differ, nothing exactly if no argument does, and an update otherwise |
| ApplyResource.PlanMeaning | launchflow/flows/create_flows.py:804-840 | Planning refuses exactly a record in progress or of another product that is no placeholder; else the operation is as above, over the inputs with ignored arguments merged in |
| ApplyResource.CreateResourcePlan.ExecutePlan | launchflow/flows/create_flows.py:149-307 | For each way of ending, every field of the stored record: product, times, status, inputs, dependencies, each id in its own field, and the attempted inputs exactly after a handled failure; the lock is released in all of them; a plan without a lock changes nothing |
| ApplyResource.FailureKeepsPlanIff | launchflow/flows/create_flows.py:186-307 | A failed execution is followed by the same plan exactly if it failed before any save or at the provider |
| ApplyResource.FailuresKeepPlan | launchflow/flows/create_flows.py:171-204 | Any number of such failures leaves stored inputs and dependencies alone and plans the same operation each time |
| ApplyResource.Convergence | launchflow/flows/create_flows.py:92-134 | After them the first success stores the executed inputs, and the next plan has nothing to do exactly if every ignored argument is an input |
| ApplyResource.PlanAfterCommit | launchflow/flows/create_flows.py:252-266 | A record with the executed inputs plans to nothing to do, or to a KeyError |
| ApplyResource.IgnoredChangesAreNoop | launchflow/flows/create_flows.py:100-133 | Definitions that differ from the record at ignored arguments only, the last of them dotted or not, have nothing to do |
| ResourceProtocol.Serialisable | launchflow/flows/create_flows.py:387-435 | In every run of any clients, crashes and recoveries included, the writes come acquisition after acquisition, each acquisition's writes by one client, each write finding what the one before it left, and each create's first write finding exactly the record its plan was diffed against, or at most a placeholder where there was none |
| ResourceProtocol.NobodyBetween | launchflow/locks.py:90-107 | Between two writes under one acquisition of the lock there are only writes of that acquisition |
| ResourceProtocol.StartsFromPlanned | launchflow/flows/create_flows.py:414-435 | From the comparison to the first write the stored record is the planned one, or a placeholder of unknown product for one planned as absent |
| ResourceProtocol.CompareDecides | launchflow/flows/create_flows.py:406-435 | In any run the comparison lets a client through exactly if the stored record is the planned one or such a placeholder; otherwise the lock is free again and nothing was written |
| ResourceProtocol.WhileLocked | launchflow/flows/resource_flows.py:229-252 | While a destroy has marked its record, that is what is stored; deleting leaves neither record nor lock; a recovery leaves nothing in progress |
| ResourceProtocol.NoForeignWrite | launchflow/flows/create_flows.py:169-307 | While a client holds the lock no other client writes or holds it |
| ResourceProtocol.FailedDestroyMayLoseUpdate | launchflow/flows/resource_flows.py:229-252 | A run in which a saved update is overwritten by a destroy that listed the record before |
| ResourceProtocol.FailedDestroyKeepsIff | launchflow/flows/resource_flows.py:229-252 | In any run a failed teardown has changed only the status exactly if nobody wrote between its listing and its locking, or the last one to do so left what was listed but for the status |
| Recovery.UnlockResource | launchflow/flows/unlock_flows.py:7-30 | For every stored record and lock state, which of the three results there is; each in-progress status becomes its own failed one, nothing else changes, and the lock is gone |
| Recovery.UnlockWithoutLock | launchflow/flows/unlock_flows.py:10-14 | Without a lock it goes on exactly for a record in progress, as with one, and there is nothing left to unlock after it |
| Recovery.CrashedApplyUnlocks | launchflow/flows/unlock_flows.py:7-30 | After a crash of a create, update or replace, unlocking frees the lock exactly unless nothing was ever stored; an in-progress status becomes the failed one of the operation, and nothing else changes |
| Recovery.CrashedApplyReplans | launchflow/flows/create_flows.py:826-830 | If the commit had not been stored, the plan after unlocking is the crashed one |
| Recovery.RefusedIffInProgress | launchflow/flows/create_flows.py:826-830 | Of all points at which an execution may have crashed, planning refuses the resource exactly after those that leave it in progress, and after none once it has been unlocked |
| Recovery.RoundsKeepPlan | launchflow/flows/unlock_flows.py:7-30 | Over any sequence of failed executions and of crashes with unlocking, the operation planned and the stored inputs and dependencies stay, and the lock is free exactly unless a crash came before anything was ever stored |
| Recovery.ConvergesAfterCrashes | launchflow/flows/create_flows.py:92-134 | After any such sequence that leaves the lock free, the first success leaves nothing to do, exactly if every ignored argument is an input |
| Recovery.DestroyResource | launchflow/flows/resource_flows.py:181-258 | What is stored after each ending of a destroy: nothing, the listed record with its teardown failed or in progress, or the old one; the lock is gone in all of them |
| Recovery.PlanAfterDestroy | launchflow/flows/resource_flows.py:229-252 | Planning afterwards creates anew if the teardown worked, goes on from the listed record if its failure was saved, and is refused exactly if it could not be |
| Recovery.CrashedDestroyUnlocks | launchflow/flows/unlock_flows.py:7-30 | After a crash of a destroy that still holds the lock, unlocking works exactly if something is stored, and leaves the old record, no longer in progress, or the listed one with its teardown failed |
| Locks.LocalLock.Acquire | launchflow/locks.py:130-139 | The file is created if and only if it was absent; the lock information is set in either case |
| Locks.LocalLock.Release | launchflow/locks.py:141-149 | Exactly the lock's own file is deleted; a missing or foreign file raises |
| Locks.LocalLock.Enter | launchflow/locks.py:90-94 | A lock with lock information is not acquired again |
| Locks.LocalLock.Exit | launchflow/locks.py:96-107 | A missing file is swallowed, a foreign one is not |
| Locks.LocalLock.EnterAfterFailure | launchflow/locks.py:130-139 | Entering a lock object whose acquire failed succeeds while another client holds the path |
| Locks.GCSLock.Acquire | launchflow/locks.py:177-201 | The blob is created if and only if it was absent; only then is the lock information set |
| Locks.GCSLock.Release | launchflow/locks.py:203-222 | Exactly the lock's own blob is deleted; the lock object is reset in any case |
| Locks.MutualExclusion | launchflow/locks.py:130-149 | In any run of any clients at most one is between its successful create and its delete, and the file is that client's |
| Locks.OnlyOwnFileDeleted | launchflow/locks.py:203-222 | Reading, comparing and deleting in separate steps, a release deletes only its own file |
| Locks.GetsInIffAbsent | launchflow/locks.py:130-139 | In any run a client gets in exactly if there is no file, and otherwise leaves it alone |
| Locks.ReleaseLetsOthersIn | launchflow/locks.py:203-222 | A release of a client that is inside ends with no file and nobody inside, and any other client can get in then |
| Locks.WipedReleaseDeletesNothing | launchflow/managers/resource_manager.py:103-109 | After a destroy wiped the directory with the lock file, its release deletes nothing, even if the path is locked again |
| Locks.ForceUnlockSafeIff | launchflow/locks.py:151-157 | Removing the lock file keeps exclusion in all continuations exactly if no live client is inside |
| LockPhase.BuildLockTasks | launchflow/flows/plan_utils.py:171-178 | The lock tasks are the plans and all their child plans, parents first, one for each occurrence |
| LockPhase.FlattenIsWithin | launchflow/flows/plan_utils.py:171-178 | A plan has a lock task exactly if it is one of the plans or below one, at any depth |
| LockPhase.FlattenCounts | launchflow/flows/plan_utils.py:171-178 | A plan has as many lock tasks as it has occurrences in the trees |
| LockPhase.EntersIffFree | launchflow/flows/plan_utils.py:204-222 | Everything can be locked exactly if, over the positions in the trees, no record is stale, each excluding lock is free and asked for at one position only, and the environment is free or all plans are local |
| LockPhase.LockTable.RunLockTasks | launchflow/flows/plan_utils.py:188-211 | The lock tasks step in any order; each ends with its lock, with a Docker lock that excludes nobody, without one, or raises for a reason; exactly the excluding locks obtained are added |
| LockPhase.LockAllSucceedsIff | launchflow/flows/plan_utils.py:211-222 | In every order no lock task raises exactly if each record is as planned and each lock that excludes others is free and asked for once, and then all of those are held |
| LockPhase.LockTable.TakeLocks | launchflow/flows/plan_utils.py:181-211 | Local plans' tasks and, under the environment's lock, remote plans' tasks have run; the phase fails if one raised or the environment is locked |
| LockPhase.LockTable.ReleaseTopLevel | launchflow/flows/plan_utils.py:224-232 | The final block releases the locks among the outer results |
| LockPhase.LocalResultsLockNothing | launchflow/locks.py:110-121 | Those are the Docker locks of local plans, so that it releases nothing that excludes anybody |
| LockPhase.LockTable.LockAndExecute | launchflow/flows/plan_utils.py:193-232 | Lock phase, executor and final block: the body is entered exactly if, by the positions in the trees, each lock can be had, holds exactly those, and leaves only the locks of child plans of plans that were not executed; if it is not entered, what remote plans have locked stays |
| LockPhase.LocksAfterwards | launchflow/flows/plan.py:182-209 | The lock table after any run of the executor at rest: what it was before the phase, and the locks of child plans of plans that were not executed |
| LockPhase.ReleasedAtRest | launchflow/flows/create_flows.py:136-169 | Every plan passed to the executor has given its lock back, a child plan exactly if its parent was executed |
| LockPhase.NothingKept | launchflow/flows/create_flows.py:552-626 | If the plans with child plans depend on nothing, as service plans do, every lock is given back |
| LockPhase.ExecutingHoldsLock | launchflow/flows/create_flows.py:154-169 | At every point of every run a plan that is being executed holds its lock |
| DestroyScheduler.Scheduler.Organize | launchflow/flows/resource_flows.py:149-171 | Children and parents are the selected edges in the two directions, and the roots are the plans without a parent |
| DestroyScheduler.KeyedIsLast | launchflow/flows/resource_flows.py:149-156 | Of several plans for one name the last one is scheduled |
| DestroyScheduler.Scheduler.StartChildren | launchflow/flows/resource_flows.py:568-575 | After a completion the queue holds exactly what is ready and not started |
| DestroyScheduler.Scheduler.WaitForSome | launchflow/flows/resource_flows.py:579-581 | The loop waits on a nonempty set, one or more attempts end in any order, and what is left shrinks |
| DestroyScheduler.Scheduler.Destroy | launchflow/flows/resource_flows.py:540-582 | For every order of completions the loop ends; each teardown started once, after all dependents' teardowns had ended; everything that could start did; the result is whether no returned attempt failed |
| DestroyScheduler.StartedIffUnblocked | launchflow/flows/resource_flows.py:547-582 | On an acyclic selection a teardown is started exactly if no teardown above it raised |
| DestroyScheduler.EverythingStarts | launchflow/flows/resource_flows.py:547-582 | If every attempt returns, successful or not, every selected resource's teardown is started |
| DestroyScheduler.CyclesNeverStart | launchflow/flows/resource_flows.py:149-171 | Resources on or only reachable through a cycle are never started |
| NodeModes.Depends.CreateField | launchflow/node.py:99-125 | The field is resolved or left symbolic as mode, cache and outputs say, and the cache keeps what it knew |
| NodeModes.Depends.InputsDependOn | launchflow/node.py:293-297 | The extra dependencies and the mentioned nodes that the cache holds as unresolved; the mode is restored |
| NodeModes.Depends.Dependencies | launchflow/node.py:299-304 | The extra dependencies and all mentioned nodes, whatever the cache, which stays as it is; the mode is restored |
| NodeModes.Depends.ExecuteInputs | launchflow/node.py:265-267 | Succeeds exactly if all mentioned outputs are there; nothing symbolic is left; the mode is restored in either case |
| NodeModes.Depends.RunCall | launchflow/node.py:136-150 | Any nesting of decorated calls, exceptions included, restores the mode, and each function sees its own |
| NodeModes.CallRaisesIff | launchflow/node.py:136-150 | A decorated function raises exactly if it does so itself or one of its callees does; it runs to its end, in its own mode, exactly if none of them does |
| NodeModes.FoundIsOpenSearched | launchflow/node.py:283-291 | The search finds the unresolved nodes that are mentioned through dataclasses, and no others |
| NodeModes.RecordsAreSearched | launchflow/node.py:283-291 | A dataclass is resolved and searched field by field |
| NodeModes.ContainersAreOpaque | launchflow/node.py:283-291 | A list or dict keeps its symbolic items, and the search finds none of them |
| Serialization.SerializeIdempotent | launchflow/node.py:23-48 | Serialising twice is serialising once, and the fixed points are the normal values |
| Serialization.SerializeIsNormal | launchflow/node.py:23-48 | The result has no bool, enum, symbol or record and no None in a dict, at any depth |
| Serialization.SerializeType | launchflow/node.py:23-39 | The recursion computes the specified value: texts for bools, enums and symbols, scalars as they are, lists of the same length |
| Serialization.SerializedEntries | launchflow/node.py:42-48 | A dict loses exactly its None values; the other entries keep their keys and order |
| Serialization.BuildJsonDict | launchflow/node.py:42-48 | The loop, which serialises kept values twice, computes what serialising once gives |
| Serialization.ToOutputType | launchflow/resource.py:33-52 | Filtering, popping, nested decoding, construction and assignment give each field its decoded value, or an error |
| Serialization.DecodedField | launchflow/resource.py:33-52 | Each field of the decoded record has what was written under its name, decoded if it is a dataclass, or else its default |
| Serialization.RoundTripIff | launchflow/resource.py:33-52 | Decoding what `to_dict` wrote gives the record back exactly if its plain values are normal and its None values are defaults, down to nested records |
| Duality.PlannedIsRecorded | launchflow/flows/create_flows.py:258-262 | What a plan waits for is recorded, and the two agree exactly if nothing could be resolved while planning |
| Duality.CreatedInOrder | launchflow/flows/plan.py:172-209 | In any create run of the selected plans, an edge that the planner listed is followed dependency first; only a dependency that was not selected may have succeeded in an earlier call instead |
| Duality.DestroyedInOrder | launchflow/flows/resource_flows.py:158-171 | In any destroy run over the records that the create run left, every recorded edge is torn down dependent first; a record has the edges of its definition if the create stored them, else exactly the older ones |
| Duality.CreateThenDestroy | launchflow/flows/create_flows.py:258-266 | The planner, the executor, the records and the destroy scheduler run one after the other, with both orders as above |
| DeployService.ServiceManager.ExecuteCreate | launchflow/flows/create_flows.py:494-626 | For each way of ending, every field of the stored record; no create changes the deployment id |
| DeployService.ServiceManager.ExecuteDeploy | launchflow/flows/deploy_flows.py:359-477 | For each way of ending, every field of the stored record, with build and release run by the executor |
| DeployService.GetReleaseInputs | launchflow/flows/deploy_flows.py:218-228 | The first build or promote result among the results, or none |
| DeployService.RunWorkflow | launchflow/flows/deploy_flows.py:412-425 | The results of the plans and of the release that depends on them, in that order; the release succeeds exactly if all of them do, one builds or promotes, and releasing does not raise |
| DeployService.ServiceManager.RunFlows | launchflow/flows/deploy_flows.py:405-460 | Over any history of creates and deploys the stored id is that of the last deploy whose build and release succeeded and was saved |
| DeployService.FailedDeployChangesIdIff | launchflow/flows/deploy_flows.py:427-460 | A failed deploy changes the stored id exactly if build and release had succeeded and the handler's save reached the store |
| DeployService.DeploySucceedsIff | launchflow/flows/deploy_flows.py:218-243 | A deploy succeeds exactly if it has a build, nothing raises, and its saves reach the store |
| DeployService.SkipBuildNeverDeploys | launchflow/flows/deploy_flows.py:607-627 | `--skip-build` can be planned over an earlier deployment, again and again, and over any history of creates and such deploys none succeeds and no new id is stored |
| DeployGate.NamesThatNeedCreate | launchflow/flows/deploy_flows.py:858-865 | The services whose create is due or that failed to plan |
| DeployGate.SelectCreates | launchflow/flows/plan_utils.py:83-95 | None exactly if no plan is valid, else the valid plans that were approved |
| DeployGate.SwapUncreated | launchflow/flows/deploy_flows.py:702-725 | Deploy plans of services with a create due or failed become failures |
| DeployGate.Deploy | launchflow/flows/deploy_flows.py:835-984 | A deploy is executed exactly if it was approved, its service needs no create or had it selected, every selected create was locked and succeeded, and the deploys could be locked |
| DeployGate.DeploySkippingCreate | launchflow/flows/deploy_flows.py:700-727 | With creates skipped, a deploy is executed only if creating its service had nothing to do |
| Migration.Migrator.MigrateEntities | launchflow/flows/lf_cloud_migration.py:26-103 | Missing entities are added with their tofu states; a source that is not local raises after saving the first missing record without them |
| Migration.Migrator.MigrateEnvironment | launchflow/flows/lf_cloud_migration.py:171-216 | One environment is merged, keeping what is there; it raises exactly if the source is not local and something is missing |
| Migration.Migrator.Migrate | launchflow/flows/lf_cloud_migration.py:219-252 | The target becomes the merge, or the run raises exactly if the source is not local and something is missing; every record of the target is kept in both cases |
| Migration.MergeAddsMissing | launchflow/flows/lf_cloud_migration.py:171-216 | The merge has every missing environment, resource and service of the source with its tofu states, and no other environment, resource or service; what an existing record has stays |
| Migration.MergeIsNoopIff | launchflow/flows/lf_cloud_migration.py:171-216 | A merge changes nothing exactly if the target has every record of the source |
| Migration.MergeTwice | launchflow/flows/lf_cloud_migration.py:171-216 | A second migration changes nothing |

## Left out

- Cloud resource and service classes, tofu, Docker, build and release commands: their calls are outcomes handed in.
- User interface, prompts, tables, progress and log files: a selection is an arbitrary subset; exceptions raised while printing are not modelled.
- Exceptions that leave `execute_plan` or `abandon_plan`: in the executor a plan has a result; that a raised exception ends the surrounding `gather` early while the other tasks go on is not modelled.
- Two plans with one id within one call: the executor's results are stated for distinct ids; a later call that registers an id again runs it again, which the model has.
- Overlapping outermost calls of `execute_plans`: calls follow one another, and nested calls are those of service and deploy plans. Abandons that a finished call has left scheduled are not followed into the next one.
- The LaunchFlow lock server: its decision is made remotely.
- Deleting a resource is one step: the local and GCS backends remove the files of its directory one by one, the lock file among them.
- Locking the environment is modelled only where plans are locked.
- LockPhase.LockTable.LockAndExecute: other clients neither take nor free these locks meanwhile; what stays after a failure is stated for when all lock tasks have come to rest, which may be after the call has raised.
- ResourceProtocol.Serialisable: product checks while planning are left out, so that more plans are allowed than the flow makes; force-unlock is used only on a crashed owner.
- Recovery.UnlockResource: no other client takes the lock between the force-unlock and the acquire.
- Unlocking services and the promote flow: the service code does not map every in-progress status.
- DependencyPlanner.Planner.Interleave: the records in the environment do not change while plans are resolved.
- ApplyResource.OperationType: DeepDiff is any reflexive comparison of the values of one root key.
- IgnoredInputs.NewResourceInputs: values are copied; later writes through a shared nested dict of the stored record are not modelled.
- Docker resources: their record is read from the container's labels and saving it does nothing; ApplyResource and Recovery are about resources with a stored record.
- Duality.CreateThenDestroy: resources that are created on their own; those of services are executed by a nested call. Executions that raise out of their plan are left out here as in the executor.
- DestroyScheduler.Scheduler.Destroy: listing, filtering and locking the selection come before it; a plan's lock is released inside an attempt.
- NodeModes.Depends.CreateField: cache keys are nodes, without hash collisions.
- Serialization.RoundTripIff: tuples, non-string enum values and field types given as strings are not modelled.
- DeployService.ServiceManager.ExecuteDeploy: a release whose service has no outputs afterwards raises out of its plan, which is not modelled.
- Migration.Migrator.Migrate: target locks and requests succeed; creating the project is not modelled.
- Validation of names, URLs, environment flows, telemetry, caching of outputs on disk: easy or unrelated to the engine.
