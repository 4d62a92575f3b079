/** Dependency resolution while planning a create, from launchflow/flows/create_flows.py.

    `plan_create_resources` plans each resource by itself and then resolves the
    dependencies of all plans with concurrent depth-first searches. The searches share
    `resource_name_to_plan`, into which they write back the failures they meet, and
    the `depends_on` lists of the plans, and can be interrupted wherever they load a
    record from the environment. */
module DependencyPlanner {
  type Name = string
  type Product = string

  /** What planning a resource by itself gave. */
  datatype Entry = FailedToPlan | CreatePlan(noop: bool)

  /** A resource that the inputs of another one depend on. */
  datatype Ref = Ref(name: Name, product: Product)

  /** What a call of `plan_create_resources` works on: the plans it made, the plans made
      for the enclosing flow, the dependencies of each planned resource, and the
      products of the resources stored in the environment. */
  datatype Task = Task(
    planned: map<Name, Entry>, parents: map<Name, Entry>, dependencies: map<Name, seq<Ref>>, stored: map<Name, Product>)

  predicate HasPlan(t: Task, n: Name) {
    n in t.planned || n in t.parents
  }

  function EntryOf(t: Task, n: Name): Entry
    requires HasPlan(t, n)
  {
    if n in t.planned then t.planned[n] else t.parents[n]
  }

  /** The search descends into `n`. */
  predicate Pending(t: Task, n: Name) {
    HasPlan(t, n) && EntryOf(t, n) == CreatePlan(false)
  }

  /** Dependencies of every plan are known, the enclosing flow passes on only plans that
      did not fail, and no search runs into itself. */
  ghost predicate WellFormed(t: Task, rank: Name -> nat) {
    && (forall n :: HasPlan(t, n) ==> n in t.dependencies)
    && (forall n <- t.parents :: t.parents[n].CreatePlan?)
    && (forall n, r :: HasPlan(t, n) && r in t.dependencies[n] && Pending(t, r.name) ==> rank(r.name) < rank(n))
  }

  /** The verdict on a plan: it failed itself, or one of its dependencies is unusable.
      A plan with nothing to do counts as usable whatever it depends on. */
  predicate Fails(t: Task, rank: Name -> nat, n: Name)
    requires WellFormed(t, rank) && HasPlan(t, n)
    decreases rank(n), 1
  {
    EntryOf(t, n).FailedToPlan? || exists r <- t.dependencies[n] :: Unusable(t, rank, n, r)
  }

  predicate Unusable(t: Task, rank: Name -> nat, n: Name, r: Ref)
    requires WellFormed(t, rank) && HasPlan(t, n) && r in t.dependencies[n]
    decreases rank(n), 0
  {
    if !HasPlan(t, r.name) then
      r.name !in t.stored || t.stored[r.name] != r.product
    else
      EntryOf(t, r.name).FailedToPlan? || (Pending(t, r.name) && Fails(t, rank, r.name))
  }

  /** `d` is a direct dependency of `n` that is planned and has something to do. */
  predicate WaitsFor(t: Task, n: Name, d: Name)
    requires HasPlan(t, n) ==> n in t.dependencies
  {
    HasPlan(t, n) && Pending(t, d) && exists r <- t.dependencies[n] :: r.name == d
  }

  /** The state the searches share. */
  datatype Shared = Shared(plans: map<Name, Entry>, dependsOn: map<Name, seq<Name>>)

  /** What every search keeps true at each point where another may run: an entry is as
      it was planned, or is a failure that the verdict confirms; `depends_on` lists
      only usable direct dependencies with something to do. */
  predicate Sound(t: Task, rank: Name -> nat, s: Shared)
    requires WellFormed(t, rank)
  {
    && (forall n <- t.planned :: n in s.plans)
    && (forall n <- s.plans :: HasPlan(t, n) && EntryAllowed(t, rank, n, s.plans[n]))
    && (forall n <- s.dependsOn :: forall d <- s.dependsOn[n] :: MayAppend(t, rank, n, d))
  }

  predicate EntryAllowed(t: Task, rank: Name -> nat, n: Name, e: Entry)
    requires WellFormed(t, rank) && HasPlan(t, n)
  {
    e == EntryOf(t, n) || (e.FailedToPlan? && Pending(t, n) && Fails(t, rank, n))
  }

  predicate MayAppend(t: Task, rank: Name -> nat, n: Name, d: Name)
    requires WellFormed(t, rank)
  {
    WaitsFor(t, n, d) && !Fails(t, rank, d)
  }

  function DependsOn(s: Shared, n: Name): seq<Name> {
    if n in s.dependsOn then s.dependsOn[n] else []
  }

  /** Lists only grow. */
  predicate Grows(s: Shared, s': Shared) {
    forall n <- s.dependsOn :: DependsOn(s, n) <= DependsOn(s', n)
  }

  class Planner {
    const t: Task
    const rank: Name -> nat
    var shared: Shared

    ghost predicate Valid()
      reads this
    {
      WellFormed(t, rank) && Sound(t, rank, shared)
    }

    constructor (t: Task, rank: Name -> nat)
      requires WellFormed(t, rank)
      ensures Valid() && this.t == t && this.rank == rank
      ensures shared == Shared(t.planned, map[])
    {
      this.t, this.rank, this.shared := t, rank, Shared(t.planned, map[]);
    }

    /** An `await` that reaches the event loop: the other searches may have done
        anything that they are allowed to do. */
    method Interleave()
      requires Valid()
      modifies this
      ensures Valid() && Grows(old(shared), shared)
    {
      var other: Shared := *;
      if Sound(t, rank, other) && Grows(shared, other) {
        shared := other;
      }
    }

    /** `resolve_resource_dependencies_dfs` on a plan that did not fail by itself. */
    method Resolve(n: Name) returns (failed: bool)
      requires Valid() && HasPlan(t, n) && EntryOf(t, n).CreatePlan?
      modifies this
      ensures Valid() && Grows(old(shared), shared)
      ensures failed <==> Fails(t, rank, n)
      ensures !failed ==> forall d :: WaitsFor(t, n, d) ==> d in DependsOn(shared, n)
      decreases rank(n), 1
    {
      var refs := t.dependencies[n];
      for i := 0 to |refs|
        invariant Valid() && Grows(old(shared), shared)
        invariant forall j :: 0 <= j < i ==> !Unusable(t, rank, n, refs[j])
        invariant ListedUpTo(t, refs, i, DependsOn(shared, n))
      {
        label before:
        var unusable := Visit(n, refs[i]);
        if unusable {
          return true;
        }
        StillListed(t, refs, i, n, old@before(shared), shared);
      }
      AllListed(t, n, DependsOn(shared, n));
      return false;
    }

    /** One round of the loop over the dependencies of `n`. */
    method Visit(n: Name, r: Ref) returns (unusable: bool)
      requires Valid() && HasPlan(t, n) && r in t.dependencies[n]
      modifies this
      ensures Valid() && Grows(old(shared), shared)
      ensures unusable <==> Unusable(t, rank, n, r)
      ensures !unusable && Pending(t, r.name) ==> r.name in DependsOn(shared, n)
      ensures r.name !in t.planned && r.name !in t.parents ==>
        (unusable <==> r.name !in t.stored || t.stored[r.name] != r.product)
      ensures HasPlan(t, r.name) && EntryOf(t, r.name) == FailedToPlan ==> unusable
      ensures HasPlan(t, r.name) && EntryOf(t, r.name) == CreatePlan(true) ==> !unusable
      ensures HasPlan(t, r.name) && EntryOf(t, r.name) == CreatePlan(false) ==> (unusable <==> Fails(t, rank, r.name))
      decreases rank(n), 0
    {
      var d := r.name;
      if d !in shared.plans && d !in t.parents {
        Interleave();
        return d !in t.stored || t.stored[d] != r.product;
      }
      var entry := if d in shared.plans then shared.plans[d] else t.parents[d];
      assert EntryAllowed(t, rank, d, entry);
      if entry.FailedToPlan? {
        return true;
      }
      if entry.noop {
        return false;
      }
      var dFailed := Resolve(d);
      if dFailed {
        WriteBack(d);
        return true;
      }
      assert WaitsFor(t, n, d);
      Append(n, d);
      return false;
    }

    /** `resource_name_to_plan[name] = resolved_dependency_plan` for a failure. */
    method WriteBack(d: Name)
      requires Valid() && Pending(t, d) && Fails(t, rank, d)
      modifies this
      ensures Valid() && Grows(old(shared), shared)
    {
      shared := shared.(plans := shared.plans[d := FailedToPlan]);
    }

    /** `plan.depends_on.append(resolved_dependency_plan)`. */
    method Append(n: Name, d: Name)
      requires Valid() && MayAppend(t, rank, n, d)
      modifies this
      ensures Valid() && Grows(old(shared), shared)
      ensures d in DependsOn(shared, n)
    {
      shared := shared.(dependsOn := shared.dependsOn[n := DependsOn(shared, n) + [d]]);
    }

    /** The `gather` over all plans of the call, in whatever order they resolve.
        `failed` is where the result list holds a `FailedToPlan`. */
    method ResolveAll() returns (failed: set<Name>)
      requires Valid()
      modifies this
      ensures Valid()
      ensures failed == set n | n in t.planned && Fails(t, rank, n)
      ensures forall n <- t.planned, d :: !Fails(t, rank, n) ==> (d in DependsOn(shared, n) <==> WaitsFor(t, n, d))
      ensures forall n <- t.planned, d :: n !in failed ==>
        (d in DependsOn(shared, n) <==>
           && (exists r <- t.dependencies[n] :: r.name == d)
           && (if d in t.planned then t.planned[d] == CreatePlan(false)
               else d in t.parents && t.parents[d] == CreatePlan(false)))
    {
      failed := {};
      var todo := t.planned.Keys;
      while todo != {}
        invariant Valid() && todo <= t.planned.Keys
        invariant failed == set n | n in t.planned && n !in todo && Fails(t, rank, n)
        invariant forall n <- t.planned, d ::
          n !in todo && !Fails(t, rank, n) && WaitsFor(t, n, d) ==> d in DependsOn(shared, n)
      {
        var n :| n in todo;
        label before:
        var nFailed := true;
        if t.planned[n].CreatePlan? {
          nFailed := Resolve(n);
        }
        if nFailed {
          failed := failed + {n};
        }
        todo := todo - {n};
        AllStillListed(t, old@before(shared), shared);
      }
      forall n, d | n in t.planned && d in DependsOn(shared, n) ensures WaitsFor(t, n, d) {
        assert MayAppend(t, rank, n, d);
      }
    }
  }

  /** Those of the first dependencies that have something to do are on the list. */
  predicate ListedUpTo(t: Task, refs: seq<Ref>, i: nat, list: seq<Name>)
    requires i <= |refs|
  {
    forall j :: 0 <= j < i && Pending(t, refs[j].name) ==> refs[j].name in list
  }

  lemma StillListed(t: Task, refs: seq<Ref>, i: nat, n: Name, s: Shared, s': Shared)
    requires i < |refs| && Grows(s, s')
    requires ListedUpTo(t, refs, i, DependsOn(s, n))
    requires Pending(t, refs[i].name) ==> refs[i].name in DependsOn(s', n)
    ensures ListedUpTo(t, refs, i + 1, DependsOn(s', n))
  {
    AllStillListed(t, s, s');
  }

  lemma AllListed(t: Task, n: Name, list: seq<Name>)
    requires HasPlan(t, n) && n in t.dependencies
    requires ListedUpTo(t, t.dependencies[n], |t.dependencies[n]|, list)
    ensures forall d :: WaitsFor(t, n, d) ==> d in list
  {
  }

  lemma AllStillListed(t: Task, s: Shared, s': Shared)
    requires Grows(s, s')
    ensures forall n, d :: d in DependsOn(s, n) ==> d in DependsOn(s', n)
  {
    forall n, d | d in DependsOn(s, n) ensures d in DependsOn(s', n) {
      assert n in s.dependsOn && DependsOn(s, n) <= DependsOn(s', n);
      var i :| 0 <= i < |DependsOn(s, n)| && DependsOn(s, n)[i] == d;
      assert DependsOn(s', n)[i] == d;
    }
  }

  /// The verdict, without the search
  /// -------------------------------

  /** `n` is where a failure comes from. */
  predicate RootCause(t: Task, n: Name)
    requires HasPlan(t, n) ==> n in t.dependencies
  {
    HasPlan(t, n) && (EntryOf(t, n).FailedToPlan? || exists r <- t.dependencies[n] :: BadRef(t, r))
  }

  /** Not planned and missing or of another product in the environment, or planned in
      vain. */
  predicate BadRef(t: Task, r: Ref) {
    if HasPlan(t, r.name) then EntryOf(t, r.name).FailedToPlan?
    else r.name !in t.stored || t.stored[r.name] != r.product
  }

  /** Each plan on the path waits for the next one. */
  ghost predicate Path(t: Task, path: seq<Name>)
    requires forall n :: HasPlan(t, n) ==> n in t.dependencies
  {
    && |path| > 0 && HasPlan(t, path[0])
    && (forall i :: 0 <= i < |path| - 1 ==> WaitsFor(t, path[i], path[i + 1]))
  }

  /** A plan fails exactly when a path of plans with something to do leads from it to
      a root cause. */
  lemma FailsIffPathToCause(t: Task, rank: Name -> nat, n: Name)
    requires WellFormed(t, rank) && HasPlan(t, n)
    ensures Fails(t, rank, n) <==> exists path :: Path(t, path) && path[0] == n && RootCause(t, path[|path| - 1])
  {
    if Fails(t, rank, n) {
      var path := PathToCause(t, rank, n);
    }
    forall path | Path(t, path) && path[0] == n && RootCause(t, path[|path| - 1])
      ensures Fails(t, rank, n)
    {
      CauseReaches(t, rank, path);
    }
  }

  lemma {:induction false} PathToCause(t: Task, rank: Name -> nat, n: Name) returns (path: seq<Name>)
    requires WellFormed(t, rank) && HasPlan(t, n) && Fails(t, rank, n)
    ensures Path(t, path) && path[0] == n && RootCause(t, path[|path| - 1])
    decreases rank(n)
  {
    if RootCause(t, n) {
      path := [n];
    } else {
      var r :| r in t.dependencies[n] && Unusable(t, rank, n, r);
      assert !BadRef(t, r);
      var rest := PathToCause(t, rank, r.name);
      path := [n] + rest;
      assert WaitsFor(t, n, r.name);
    }
  }

  lemma {:induction false} CauseReaches(t: Task, rank: Name -> nat, path: seq<Name>)
    requires WellFormed(t, rank) && Path(t, path) && RootCause(t, path[|path| - 1])
    ensures Fails(t, rank, path[0])
    decreases |path|
  {
    var n := path[0];
    if |path| == 1 {
      if EntryOf(t, n).CreatePlan? {
        var r :| r in t.dependencies[n] && BadRef(t, r);
        assert Unusable(t, rank, n, r);
      }
    } else {
      assert WaitsFor(t, path[0], path[1]);
      var rest := path[1..];
      forall i | 0 <= i < |rest| - 1 ensures WaitsFor(t, rest[i], rest[i + 1]) {
        assert WaitsFor(t, path[i + 1], path[i + 1 + 1]);
      }
      CauseReaches(t, rank, rest);
      var r :| r in t.dependencies[n] && r.name == path[1];
      assert Unusable(t, rank, n, r);
    }
  }
}
