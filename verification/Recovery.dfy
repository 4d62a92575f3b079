/** Recovery of a resource whose flow crashed while holding its lock
    (launchflow/flows/unlock_flows.py:7-30). */
module Recovery {
  import opened Options
  import opened FlowState
  import opened IgnoredInputs
  import opened ApplyResource

  datatype Result = Unlocked | ResourceNotFound | LockNotFound

  /** What `unlock_resource` makes of the stored record and the lock. Without a record it
      raises before it touches the lock; without a lock it goes on only if the record
      is pending. */
  function AfterUnlock(stored: Option<ResourceState>, locked: bool): (Option<ResourceState>, bool, Result) {
    if stored.None? then (None, locked, ResourceNotFound)
    else if !locked && !stored.value.status.IsPending() then (stored, false, LockNotFound)
    else (Some(stored.value.(status := GivenUp(stored.value.status))), false, Unlocked)
  }

  /** Each in-progress status becomes its own failed one, any other status stays. */
  ghost predicate StatusGivenUp(before: ResourceStatus, after: ResourceStatus) {
    && (before == Creating ==> after == CreateFailed)
    && (before == Destroying ==> after == DeleteFailed)
    && (before == Updating ==> after == UpdateFailed)
    && (before == Replacing ==> after == ReplaceFailed)
    && (before !in {Creating, Destroying, Updating, Replacing} ==> after == before)
  }

  /** Unlocking goes on without a lock exactly if the record is in progress, and ends the
      same way as with one; after it there is nothing left to unlock. */
  lemma UnlockWithoutLock(stored: ResourceState)
    ensures var (stored', locked', result) := AfterUnlock(Some(stored), false);
            && (result == Unlocked <==> stored.status in {Creating, Destroying, Updating, Replacing})
            && (result != Unlocked ==> result == LockNotFound && stored' == Some(stored))
            && (result == Unlocked ==> stored' == AfterUnlock(Some(stored), true).0)
            && !locked' && AfterUnlock(stored', false) == (stored', false, LockNotFound)
  {
  }

  method UnlockResource(manager: ResourceManager) returns (result: Result)
    modifies manager
    ensures (manager.stored, manager.locked, result) == AfterUnlock(old(manager.stored), old(manager.locked))
    ensures result == ResourceNotFound <==> old(manager.stored).None?
    ensures result == LockNotFound <==>
      && old(manager.stored).Some? && !old(manager.locked)
      && old(manager.stored).value.status !in {Creating, Destroying, Updating, Replacing}
    ensures result != Unlocked ==> manager.stored == old(manager.stored) && manager.locked == old(manager.locked)
    ensures result == Unlocked ==>
      && !manager.locked && manager.stored.Some?
      && manager.stored.value == old(manager.stored).value.(status := manager.stored.value.status)
      && StatusGivenUp(old(manager.stored).value.status, manager.stored.value.status)
  {
    if manager.stored.None? {
      return ResourceNotFound;
    }
    var status := manager.stored.value.status;
    if manager.locked {
      manager.locked := false;
    } else if !status.IsPending() {
      return LockNotFound;
    }
    manager.locked := true;
    var record := manager.stored.value;
    if record.status == Creating {
      record := record.(status := CreateFailed);
    } else if record.status == Destroying {
      record := record.(status := DeleteFailed);
    } else if record.status == Updating {
      record := record.(status := UpdateFailed);
    } else if record.status == Replacing {
      record := record.(status := ReplaceFailed);
    }
    manager.Save(record);
    manager.Release();
    return Unlocked;
  }

  /** The status that a failed execution of the operation ends with. */
  function FailedStatus(op: Operation): ResourceStatus {
    match op
    case Update => UpdateFailed
    case Replace => ReplaceFailed
    case _ => CreateFailed
  }

  /** A crash of a create, update or replace leaves the lock and whatever an attempt had
      stored by then. Unlocking succeeds exactly when there is a record: only a first
      create that crashes before its first save stays locked, with nothing to unlock. An
      in-progress status becomes the operation's failed one, and nothing else changes. */
  lemma CrashedApplyUnlocks(def: Definition, existing: Option<ResourceState>, op: Operation, progress: Attempt,
                            now: nat, same: Same)
    requires PlanOf(def, existing, same) == Plan(op) && op != Noop
    ensures var stored := After(def, existing, op, progress, now);
            var (stored', locked', result) := AfterUnlock(stored, true);
            && (!locked' <==> !(existing.None? && progress.PendingSaveFails?))
            && (!locked' <==> result == Unlocked)
            && (locked' ==> result == ResourceNotFound && stored' == stored)
            && (!locked' && progress.LeavesPending? ==> stored' == Some(stored.value.(status := FailedStatus(op))))
            && (!locked' && !progress.LeavesPending? ==> stored' == stored && !stored.value.status.IsPending())
  {
  }

  /** Unlocking a crashed execution whose commit had not been stored is as good as a
      clean failure: the next plan is the crashed one. */
  lemma CrashedApplyReplans(def: Definition, existing: Option<ResourceState>, op: Operation, progress: Attempt,
                            now: nat, same: Same)
    requires PlanOf(def, existing, same) == Plan(op) && op != Noop
    requires progress.PendingSaveFails? || progress.LeavesPending? || progress.ProviderFails?
    ensures var stored' := AfterUnlock(After(def, existing, op, progress, now), true).0;
            && PlanOf(def, stored', same) == Plan(op)
            && StoredInputs(stored') == StoredInputs(existing)
            && StoredDependsOn(stored') == StoredDependsOn(existing)
  {
  }

  /** Planning refuses a resource after a crash exactly if the crash left it in progress,
      and never once it has been unlocked. */
  lemma RefusedIffInProgress(def: Definition, existing: Option<ResourceState>, op: Operation, progress: Attempt,
                             now: nat, same: Same)
    requires PlanOf(def, existing, same) == Plan(op) && op != Noop
    ensures var stored := After(def, existing, op, progress, now);
            && (PlanOf(def, stored, same) == FailedToPlan <==> progress.LeavesPending?)
            && PlanOf(def, AfterUnlock(stored, true).0, same) != FailedToPlan
  {
    CrashedApplyUnlocks(def, existing, op, progress, now, same);
  }

  /// Any sequence of failures and crashes
  /// ------------------------------------

  /** One round of planning and executing: the execution ends by itself, or its process
      crashes after `progress` and the resource is unlocked. */
  datatype Round = Attempted(attempt: Attempt) | Crashed(progress: Attempt)

  /** The round ends before the commit is stored, with the failure handled or unlocked. */
  predicate Uncommitted(r: Round) {
    match r
    case Attempted(a) => CleanFailure(a)
    case Crashed(p) => CleanFailure(p) || p.LeavesPending?
  }

  /** What is stored after some rounds, and whether it is still locked. While it is, no
      plan can be executed. */
  function AfterRounds(def: Definition, stored: Option<ResourceState>, op: Operation, rounds: seq<Round>, now: nat)
    : (Option<ResourceState>, bool)
    decreases |rounds|
  {
    if rounds == [] then (stored, false)
    else
      var (stored', locked') := match rounds[0]
        case Attempted(a) => (After(def, stored, op, a, now), false)
        case Crashed(p) =>
          var (record, locked, _) := AfterUnlock(After(def, stored, op, p, now), true);
          (record, locked);
      if locked' then (stored', true) else AfterRounds(def, stored', op, rounds[1..], now + 1)
  }

  /** Whether some round crashes before anything was ever stored. */
  predicate Strands(stored: Option<ResourceState>, rounds: seq<Round>)
    decreases |rounds|
  {
    && stored.None? && rounds != []
    && (|| rounds[0] == Crashed(PendingSaveFails)
        || (rounds[0] == Attempted(PendingSaveFails) && Strands(stored, rounds[1..])))
  }

  /** Failures and crashes in any order: every round plans the same operation over the
      same stored inputs and dependencies, and the lock is free again unless one of them
      crashed before anything was ever stored. */
  lemma {:induction false} RoundsKeepPlan(def: Definition, stored: Option<ResourceState>, op: Operation,
                                          rounds: seq<Round>, now: nat, same: Same)
    requires PlanOf(def, stored, same) == Plan(op) && op != Noop
    requires forall r <- rounds :: Uncommitted(r)
    ensures var (stored', locked') := AfterRounds(def, stored, op, rounds, now);
            && PlanOf(def, stored', same) == Plan(op)
            && StoredInputs(stored') == StoredInputs(stored) && StoredDependsOn(stored') == StoredDependsOn(stored)
            && (locked' <==> Strands(stored, rounds))
    decreases |rounds|
  {
    if rounds != [] {
      assert Uncommitted(rounds[0]);
      match rounds[0] {
        case Attempted(a) =>
          CleanFailureKeepsPlan(def, stored, op, a, now, same);
          RoundsKeepPlan(def, After(def, stored, op, a, now), op, rounds[1..], now + 1, same);
        case Crashed(p) =>
          CrashedApplyUnlocks(def, stored, op, p, now, same);
          CrashedApplyReplans(def, stored, op, p, now, same);
          var unlocked := AfterUnlock(After(def, stored, op, p, now), true);
          if !unlocked.1 {
            RoundsKeepPlan(def, unlocked.0, op, rounds[1..], now + 1, same);
          }
      }
    }
  }

  /** After any failures and crashes that leave the lock free, the first success stores
      the executed inputs and dependencies, and there is nothing left to do, provided
      that every ignored argument is an input. */
  lemma ConvergesAfterCrashes(def: Definition, stored: Option<ResourceState>, op: Operation, rounds: seq<Round>,
                              success: Attempt, now: nat, same: Same)
    requires Settled(def) && Reflexive(same)
    requires PlanOf(def, stored, same) == Plan(op) && op != Noop
    requires (forall r <- rounds :: Uncommitted(r)) && !Strands(stored, rounds) && success.Succeeds?
    ensures var (failed, locked) := AfterRounds(def, stored, op, rounds, now);
            var ready := After(def, failed, op, success, now + |rounds|);
            && !locked
            && StoredInputs(ready) == def.executeInputs && StoredDependsOn(ready) == def.dependencies
            && (PlanOf(def, ready, same) == Plan(Noop) <==>
                  AllResolve(Dict(def.executeInputs), Effective([], def.ignored)))
  {
    RoundsKeepPlan(def, stored, op, rounds, now, same);
    var failed := AfterRounds(def, stored, op, rounds, now).0;
    PlanAfterCommit(def, After(def, failed, op, success, now + |rounds|).value, same);
  }

  /// Destroying a resource
  /// ---------------------

  /** How far a destroy has got: it holds the lock, has saved the in-progress record, has
      saved the failure of the teardown, or has deleted what is stored. */
  datatype Progress = LockTaken | MarkedDestroying | TeardownFailed | Deleted

  /** What is stored and whether it is locked. The destroy saves the record it listed
      earlier, whatever `current` is; deleting the resource's directory, which holds the
      lock file, ends the lock. */
  function DuringDestroy(current: Option<ResourceState>, listed: ResourceState, p: Progress)
    : (Option<ResourceState>, bool)
  {
    match p
    case LockTaken => (current, true)
    case MarkedDestroying => (Some(listed.(status := Destroying)), true)
    case TeardownFailed => (Some(listed.(status := DeleteFailed)), true)
    case Deleted => (None, false)
  }

  /** How a destroy ends that is not cut short: its first save raises, the teardown
      works, it fails and that is saved, or that save raises, too. */
  datatype Ending = FirstSaveFails | TornDown | TeardownSaved | TeardownUnsaved

  function ProgressOf(ending: Ending): Progress {
    match ending
    case FirstSaveFails => LockTaken
    case TornDown => Deleted
    case TeardownSaved => TeardownFailed
    case TeardownUnsaved => MarkedDestroying
  }

  /** `_destroy_resource` from the acquired lock on: what is stored in the end is what was
      stored at that point, and the lock is gone. */
  method DestroyResource(manager: ResourceManager, listed: ResourceState, ending: Ending) returns (outcome: Outcome)
    requires manager.locked
    modifies manager
    ensures manager.stored == DuringDestroy(old(manager.stored), listed, ProgressOf(ending)).0
    ensures !manager.locked
    ensures outcome == if ending.TornDown? then Succeeded else if ending.TeardownSaved? then Failed else Raised
    ensures ending.TornDown? ==> manager.stored.None?
    ensures ending.TeardownSaved? ==> manager.stored == Some(listed.(status := DeleteFailed))
    ensures ending.TeardownUnsaved? ==> manager.stored == Some(listed.(status := Destroying))
    ensures ending.FirstSaveFails? ==> manager.stored == old(manager.stored)
  {
    var record := listed.(status := Destroying);
    outcome := Raised;
    if !ending.FirstSaveFails? {
      manager.Save(record);
      if ending.TornDown? {
        manager.stored := None;
        manager.locked := false;
        outcome := Succeeded;
      } else if ending.TeardownSaved? {
        record := record.(status := DeleteFailed);
        manager.Save(record);
        outcome := Failed;
      }
    }
    manager.Release();
  }

  /** Planning after a destroy has ended: anew after a teardown that worked, from the listed
      record after one that failed, and refused exactly if its failure could not be saved. */
  lemma PlanAfterDestroy(def: Definition, current: ResourceState, listed: ResourceState, ending: Ending, same: Same)
    requires PlanOf(def, Some(current), same) != FailedToPlan
    requires listed.product == def.product
    ensures var stored := DuringDestroy(Some(current), listed, ProgressOf(ending)).0;
            && (ending.TornDown? ==> stored.None? && PlanOf(def, stored, same) == Plan(Create))
            && (ending.TeardownSaved? ==>
                  && stored.Some? && StoredInputs(stored) == StoredInputs(Some(listed))
                  && PlanOf(def, stored, same) != Plan(Create))
            && (PlanOf(def, stored, same) == FailedToPlan <==> ending.TeardownUnsaved?)
  {
    PlanMeaning(def, DuringDestroy(Some(current), listed, ProgressOf(ending)).0, same);
  }

  /** A destroy that crashes with the lock can be unlocked exactly when something is
      stored; then the record is what it was before the destroy, no longer in progress,
      or the listed one with its teardown failed. */
  lemma CrashedDestroyUnlocks(current: Option<ResourceState>, listed: ResourceState, p: Progress)
    requires DuringDestroy(current, listed, p).1
    ensures var (stored', locked', result) := AfterUnlock(DuringDestroy(current, listed, p).0, true);
            && (result == Unlocked <==> !(p.LockTaken? && current.None?))
            && (result == Unlocked <==> !locked')
            && (result == Unlocked ==> stored'.Some? && !stored'.value.status.IsPending())
            && (result == Unlocked ==>
                  stored' == if p.LockTaken? then Some(current.value.(status := GivenUp(current.value.status)))
                             else Some(listed.(status := DeleteFailed)))
  {
    assert p.TeardownFailed? ==> GivenUp(DeleteFailed) == DeleteFailed;
  }
}
