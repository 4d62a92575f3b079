/** Creating and destroying along the same edges, from the definitions through planning,
    executing and recording to tearing down. A create run orders a resource after the
    dependencies that its plan listed; the record it stores lists all its dependencies,
    and a later destroy run tears it down before each of them. */
module Duality {
  import opened Options
  import opened FlowState
  import opened ApplyResource
  import NodeModes
  import DependencyPlanner
  import PlanExecutor
  import DestroyScheduler

  type Name = string

  type PlanId = PlanExecutor.PlanId

  datatype Resource = Resource(def: Definition, template: NodeModes.Template, extra: set<Name>)

  /// Planning
  /// --------

  /** `inputs_depend_on`, with the outputs cache as it was while planning. */
  function PlannedDependencies(r: Resource, cache: NodeModes.Cache): set<Name> {
    r.extra + (set n | n in NodeModes.Searched(r.template) && n in NodeModes.Unresolved(cache))
  }

  /** `dependencies`: what a successful create stores. */
  function RecordedDependencies(r: Resource): set<Name> {
    r.extra + NodeModes.Searched(r.template)
  }

  /** What a plan waits for is recorded, whatever the cache; the two agree exactly when
      no dependency could be resolved while planning. */
  lemma PlannedIsRecorded(r: Resource, cache: NodeModes.Cache)
    ensures PlannedDependencies(r, cache) <= RecordedDependencies(r)
    ensures PlannedDependencies(r, cache) == RecordedDependencies(r)
      <==> NodeModes.Searched(r.template) <= r.extra + NodeModes.Unresolved(cache)
  {
    if PlannedDependencies(r, cache) == RecordedDependencies(r) {
      forall n | n in NodeModes.Searched(r.template) ensures n in r.extra + NodeModes.Unresolved(cache) {
        assert n in PlannedDependencies(r, cache);
      }
    }
  }

  function StoredOf(store: map<Name, ResourceState>, n: Name): Option<ResourceState> {
    if n in store then Some(store[n]) else None
  }

  function EntryFor(p: Planned): DependencyPlanner.Entry {
    match p
    case Plan(op) => DependencyPlanner.CreatePlan(op == Noop)
    case _ => DependencyPlanner.FailedToPlan
  }

  function Names(refs: seq<DependencyPlanner.Ref>): set<Name> {
    set r | r in refs :: r.name
  }

  function Entries(resources: map<Name, Resource>, stored: map<Name, ResourceState>, same: Same)
    : map<Name, DependencyPlanner.Entry>
  {
    map n | n in resources :: EntryFor(PlanOf(resources[n].def, StoredOf(stored, n), same))
  }

  function Operations(resources: map<Name, Resource>, stored: map<Name, ResourceState>,
                      same: Same): map<Name, Operation> {
    map n | n in resources && PlanOf(resources[n].def, StoredOf(stored, n), same).Plan? ::
      PlanOf(resources[n].def, StoredOf(stored, n), same).op
  }

  predicate HasOperations(planned: map<Name, DependencyPlanner.Entry>, ops: map<Name, Operation>) {
    forall n <- planned :: planned[n] == DependencyPlanner.CreatePlan(false) ==> n in ops
  }

  lemma PendingHasOperation(resources: map<Name, Resource>, stored: map<Name, ResourceState>, same: Same)
    ensures Entries(resources, stored, same).Keys == resources.Keys
    ensures HasOperations(Entries(resources, stored, same), Operations(resources, stored, same))
  {
  }

  /** The plans and dependencies that the definitions give. */
  ghost predicate FromDefinitions(t: DependencyPlanner.Task, resources: map<Name, Resource>,
                                  stored: map<Name, ResourceState>, cache: NodeModes.Cache, same: Same) {
    && t.planned == Entries(resources, stored, same)
    && t.parents == map[]
    && t.dependencies.Keys == resources.Keys
    && (forall n {:trigger DependsAsDefined(t, resources, cache, n)} | n in resources ::
          DependsAsDefined(t, resources, cache, n))
  }

  ghost predicate DependsAsDefined(t: DependencyPlanner.Task, resources: map<Name, Resource>, cache: NodeModes.Cache,
                                   n: Name)
    requires n in resources && n in t.dependencies
  {
    Names(t.dependencies[n]) == PlannedDependencies(resources[n], cache)
  }

  /** What each definition hands to the record. */
  ghost predicate RecordsAll(resources: map<Name, Resource>) {
    forall n {:trigger RecordsFor(resources, n)} | n in resources :: RecordsFor(resources, n)
  }

  ghost predicate RecordsFor(resources: map<Name, Resource>, n: Name)
    requires n in resources
  {
    (set d | d in resources[n].def.dependencies) == RecordedDependencies(resources[n])
  }

  /** The planner's `depends_on` lists, as they are once everything has been resolved. */
  ghost predicate Resolved(t: DependencyPlanner.Task, rank: Name -> nat, shared: DependencyPlanner.Shared)
    requires DependencyPlanner.WellFormed(t, rank)
  {
    forall n <- t.planned, d :: !DependencyPlanner.Fails(t, rank, n) ==>
      (d in DependencyPlanner.DependsOn(shared, n) <==> DependencyPlanner.WaitsFor(t, n, d))
  }

  /// Executing
  /// ---------

  function OpName(op: Operation): string {
    match op
    case Noop => "noop"
    case Create => "create"
    case Update => "update"
    case Replace => "replace"
  }

  /** `Plan.id`, for the operation planned for each name. */
  function IdOf(ops: map<Name, Operation>, n: Name): PlanId {
    OpName(if n in ops then ops[n] else Noop) + "-" + n
  }

  lemma IdsDiffer(ops: map<Name, Operation>)
    ensures forall n, m :: IdOf(ops, n) == IdOf(ops, m) ==> n == m
  {
    forall n, m | IdOf(ops, n) == IdOf(ops, m) ensures n == m {
      var a, b := OpName(if n in ops then ops[n] else Noop), OpName(if m in ops then ops[m] else Noop);
      assert (a + "-" + n)[0] == a[0] && (b + "-" + m)[0] == b[0];
      assert a == b;
      assert (a + "-" + n)[|a| + 1..] == n && (b + "-" + m)[|b| + 1..] == m;
    }
  }

  function IdsOf(ops: map<Name, Operation>, names: seq<Name>): seq<PlanId> {
    seq(|names|, i requires 0 <= i < |names| => IdOf(ops, names[i]))
  }

  lemma IdsMember(ops: map<Name, Operation>, names: seq<Name>, n: Name)
    ensures IdOf(ops, n) in IdsOf(ops, names) <==> n in names
  {
    IdsDiffer(ops);
    if n in names {
      var i :| 0 <= i < |names| && names[i] == n;
      assert IdsOf(ops, names)[i] == IdOf(ops, n);
    }
  }

  function OutcomeFor(attempt: Attempt): PlanExecutor.Outcome {
    if OutcomeOf(attempt) == Succeeded then PlanExecutor.Succeeds else PlanExecutor.FailsLate
  }

  /** One create run: what was planned, in which order the selected plans are passed to
      the executor, and how executing each of them ends. */
  datatype Creation = Creation(
    ops: map<Name, Operation>, dependsOn: map<Name, seq<Name>>, selected: seq<Name>, attempts: map<Name, Attempt>)

  ghost predicate Complete(k: Creation) {
    forall n <- k.selected :: n in k.ops && n in k.attempts
  }

  function ListOf(k: Creation, n: Name): seq<Name> {
    if n in k.dependsOn then k.dependsOn[n] else []
  }

  function PlanFor(k: Creation, n: Name): PlanExecutor.Plan
    requires n in k.attempts
  {
    PlanExecutor.Plan(IdsOf(k.ops, ListOf(k, n)), [], OutcomeFor(k.attempts[n]))
  }

  function PlansOf(k: Creation): map<PlanId, PlanExecutor.Plan>
    requires Complete(k)
  {
    IdsDiffer(k.ops);
    map n | n in k.selected :: IdOf(k.ops, n) := PlanFor(k, n)
  }

  function CallOf(k: Creation, prior: map<PlanId, bool>): PlanExecutor.Call
    requires Complete(k)
  {
    PlanExecutor.Call(PlansOf(k), IdsOf(k.ops, k.selected), prior)
  }

  function NamesById(k: Creation): map<PlanId, Name> {
    IdsDiffer(k.ops);
    map n | n in k.selected :: IdOf(k.ops, n) := n
  }

  ghost function LayoutOf(k: Creation, rank: Name -> nat): PlanExecutor.Layout {
    var names := NamesById(k);
    PlanExecutor.Layout((id: PlanId) => if id in names then rank(names[id]) else 0, (id: PlanId) => id)
  }

  ghost predicate Falling(k: Creation, rank: Name -> nat) {
    forall n {:trigger FallsAt(k, rank, n)} | n in k.selected :: FallsAt(k, rank, n)
  }

  ghost predicate FallsAt(k: Creation, rank: Name -> nat, n: Name) {
    forall d <- ListOf(k, n) :: d in k.selected ==> rank(d) < rank(n)
  }

  lemma PlansById(k: Creation, n: Name)
    requires Complete(k)
    ensures IdOf(k.ops, n) in PlansOf(k) <==> n in k.selected
    ensures n in k.selected ==> PlansOf(k)[IdOf(k.ops, n)] == PlanFor(k, n) && NamesById(k)[IdOf(k.ops, n)] == n
  {
    IdsDiffer(k.ops);
  }

  lemma ListFalls(k: Creation, rank: Name -> nat, n: Name, d: PlanId)
    requires Complete(k) && n in k.selected && FallsAt(k, rank, n)
    requires d in IdsOf(k.ops, ListOf(k, n)) && d in PlansOf(k)
    ensures LayoutOf(k, rank).rank(d) < LayoutOf(k, rank).rank(IdOf(k.ops, n))
  {
    var i :| 0 <= i < |ListOf(k, n)| && IdOf(k.ops, ListOf(k, n)[i]) == d;
    PlansById(k, ListOf(k, n)[i]);
    PlansById(k, n);
  }

  /** Everything is passed to the executor directly, so that all dependencies are in scope. */
  lemma CallIsWellFormed(k: Creation, rank: Name -> nat, prior: map<PlanId, bool>)
    requires Complete(k) && Falling(k, rank)
    ensures PlanExecutor.WellFormed(CallOf(k, prior), LayoutOf(k, rank))
  {
    var c, w := CallOf(k, prior), LayoutOf(k, rank);
    forall id | id in c.plans
      ensures c.plans[id].children == [] && id in c.top
      ensures forall d <- c.plans[id].dependsOn :: d in c.plans ==> w.rank(d) < w.rank(id)
    {
      var n :| n in k.selected && IdOf(k.ops, n) == id;
      PlansById(k, n);
      IdsMember(k.ops, k.selected, n);
      assert FallsAt(k, rank, n);
      forall d | d in c.plans[id].dependsOn && d in c.plans ensures w.rank(d) < w.rank(id) {
        ListFalls(k, rank, n, d);
      }
    }
    forall id | id in c.top ensures id in c.plans {
      TopIsPlan(k, id);
    }
    PlanExecutor.FlatIsWellFormed(c, w);
  }

  lemma TopIsPlan(k: Creation, id: PlanId)
    requires Complete(k) && id in IdsOf(k.ops, k.selected)
    ensures id in PlansOf(k)
  {
    var i :| 0 <= i < |k.selected| && IdOf(k.ops, k.selected[i]) == id;
    PlansById(k, k.selected[i]);
  }

  /// Recording
  /// ---------

  /** Executing any of the plans ends with a result. */
  predicate NoneRaises(names: set<Name>, attempts: map<Name, Attempt>) {
    forall n <- names :: n in attempts && OutcomeOf(attempts[n]) != Raised
  }

  /** The records after the run: those of the executed plans are new. */
  function StoreAfter(resources: map<Name, Resource>, stored: map<Name, ResourceState>, k: Creation,
                      executed: set<Name>, now: nat): map<Name, ResourceState>
    requires executed <= resources.Keys * k.ops.Keys * k.attempts.Keys
    requires NoneRaises(executed, k.attempts)
  {
    map n | n in stored.Keys + executed ::
      if n in executed then NewRecord(resources[n].def, StoredOf(stored, n), k.ops[n], k.attempts[n], now)
      else stored[n]
  }

  function NewRecord(def: Definition, existing: Option<ResourceState>, op: Operation, attempt: Attempt, now: nat)
    : ResourceState
    requires OutcomeOf(attempt) != Raised
  {
    After(def, existing, op, attempt, now).value
  }

  /** The attempt stored the new dependencies. */
  predicate Commits(attempt: Attempt) {
    attempt.Succeeds? || attempt.FailsAfterCommit?
  }

  /** A plan that was executed leaves all dependencies in the record if it got as far as
      that, and those that were there before if it did not. */
  lemma RecordAfter(resources: map<Name, Resource>, stored: map<Name, ResourceState>, k: Creation, executed: set<Name>,
                    now: nat, n: Name)
    requires executed <= resources.Keys * k.ops.Keys * k.attempts.Keys && RecordsAll(resources)
    requires NoneRaises(executed, k.attempts)
    requires n in executed
    ensures n in StoreAfter(resources, stored, k, executed, now)
    ensures (set d | d in StoreAfter(resources, stored, k, executed, now)[n].dependsOn) ==
            EdgesOf(resources[n], StoredOf(stored, n), k.attempts[n])
  {
    assert RecordsFor(resources, n);
  }

  /// Tearing down
  /// ------------

  /** The destroy plans for these names, with the recorded dependencies. */
  function Condemn(names: seq<Name>, store: map<Name, ResourceState>): seq<DestroyScheduler.Plan> {
    if names == [] then []
    else
      var last := names[|names| - 1];
      Condemn(names[..|names| - 1], store) +
        if last in store then [DestroyScheduler.Plan(last, store[last].dependsOn)] else []
  }

  lemma {:induction false} CondemnedByName(names: seq<Name>, store: map<Name, ResourceState>, n: Name)
    ensures n in DestroyScheduler.Keyed(Condemn(names, store)) <==> n in names && n in store
    ensures n in DestroyScheduler.Keyed(Condemn(names, store)) ==>
      DestroyScheduler.Keyed(Condemn(names, store))[n] == store[n].dependsOn
    decreases |names|
  {
    if names != [] {
      var rest, last := names[..|names| - 1], names[|names| - 1];
      CondemnedByName(rest, store, n);
      assert forall m :: m in names <==> m in rest || m == last;
      if last in store {
        var plan := DestroyScheduler.Plan(last, store[last].dependsOn);
        assert (Condemn(rest, store) + [plan])[..|Condemn(rest, store)|] == Condemn(rest, store);
      } else {
        assert Condemn(rest, store) + [] == Condemn(rest, store);
      }
    }
  }

  /// From end to end
  /// ---------------

  /** What is given of a create run and of the destroy run after it. */
  ghost predicate Chained(t: DependencyPlanner.Task, rank: Name -> nat, shared: DependencyPlanner.Shared,
                          resources: map<Name, Resource>, k: Creation) {
    && DependencyPlanner.WellFormed(t, rank) && Resolved(t, rank, shared)
    && t.planned.Keys == resources.Keys && t.parents == map[]
    && k.dependsOn == shared.dependsOn && Complete(k)
    && (forall n <- k.selected :: n in t.planned && t.planned[n] == DependencyPlanner.CreatePlan(false) &&
          !DependencyPlanner.Fails(t, rank, n))
    && (forall n <- k.selected :: n in resources && OutcomeOf(k.attempts[n]) != Raised)
  }

  lemma ChainedFalls(t: DependencyPlanner.Task, rank: Name -> nat, shared: DependencyPlanner.Shared,
                     resources: map<Name, Resource>, k: Creation)
    requires Chained(t, rank, shared, resources, k)
    ensures Falling(k, rank)
  {
    forall n | n in k.selected ensures FallsAt(k, rank, n) {
      forall d | d in ListOf(k, n) ensures rank(d) < rank(n) {
        assert d in DependencyPlanner.DependsOn(shared, n) && DependencyPlanner.WaitsFor(t, n, d);
      }
    }
  }

  /** The plans that were executed, by name. */
  ghost function ExecutedNames(k: Creation, s: PlanExecutor.State): set<Name> {
    set n | n in k.selected && PlanExecutor.WasExecuted(s, IdOf(k.ops, n))
  }

  /** For any create run: an edge that the planner has listed is followed dependency
      first, at every point of the run. Only a dependency that is not among the selected
      plans may instead have been created by an earlier call. */
  lemma CreatedInOrder(k: Creation, prior: map<PlanId, bool>, log: seq<PlanExecutor.Event>, x: Name, d: Name, i: nat)
    requires Complete(k) && x in k.selected && d in ListOf(k, x)
    requires PlanExecutor.DependencyFirst(CallOf(k, prior), log)
    requires i < |log| && log[i] == PlanExecutor.Executed(IdOf(k.ops, x))
    ensures || PlanExecutor.Finished(IdOf(k.ops, d), true) in log[..i]
            || (d !in k.selected && IdOf(k.ops, d) in prior && prior[IdOf(k.ops, d)])
  {
    var c := CallOf(k, prior);
    PlansById(k, x);
    IdsMember(k.ops, ListOf(k, x), d);
    IdsMember(k.ops, k.selected, d);
    assert PlanExecutor.FinishedBefore(c, log[..i], IdOf(k.ops, x));
    assert IdOf(k.ops, d) in c.plans[IdOf(k.ops, x)].dependsOn;
  }

  /** For any destroy run after it, over any of the recorded resources: the teardown of a
      dependency starts after that of its dependent has ended, along every edge that the
      records have. An executed plan's record has exactly the edges of its definition,
      planned ones among them, if it got as far as storing them, and exactly those that
      were stored before if its create failed earlier. */
  lemma DestroyedInOrder(resources: map<Name, Resource>, stored: map<Name, ResourceState>, cache: NodeModes.Cache,
                         k: Creation, executed: set<Name>, now: nat, condemned: seq<Name>,
                         h: DestroyScheduler.History, x: Name, d: Name)
    requires executed <= resources.Keys * k.ops.Keys * k.attempts.Keys && RecordsAll(resources)
    requires NoneRaises(executed, k.attempts)
    requires x in executed && x in condemned && d in condemned
    requires var store := StoreAfter(resources, stored, k, executed, now);
             d in store && DestroyScheduler.DependentsFirst(DestroyScheduler.Keyed(Condemn(condemned, store)), h)
    ensures var keyed := DestroyScheduler.Keyed(Condemn(condemned, StoreAfter(resources, stored, k, executed, now)));
            && x in keyed && d in keyed
            && (d in keyed[x] <==> d in EdgesOf(resources[x], StoredOf(stored, x), k.attempts[x]))
            && (d in PlannedDependencies(resources[x], cache) && Commits(k.attempts[x]) ==> d in keyed[x])
            && TornDownInOrder(h, x, d, EdgesOf(resources[x], StoredOf(stored, x), k.attempts[x]))
  {
    var store := StoreAfter(resources, stored, k, executed, now);
    var keyed := DestroyScheduler.Keyed(Condemn(condemned, store));
    RecordAfter(resources, stored, k, executed, now, x);
    CondemnedByName(condemned, store, x);
    CondemnedByName(condemned, store, d);
    InSet(keyed[x], d);
    InSet(StoredDependsOn(StoredOf(stored, x)), d);
    PlannedIsRecorded(resources[x], cache);
    if d in keyed[x] {
      TornDownAfter(keyed, h, x, d);
    }
  }

  lemma InSet(names: seq<Name>, d: Name)
    ensures d in names <==> d in set m | m in names
  {
  }

  lemma TornDownAfter(keyed: DestroyScheduler.Selection, h: DestroyScheduler.History, x: Name, d: Name)
    requires x in keyed && d in keyed && d in keyed[x] && DestroyScheduler.DependentsFirst(keyed, h)
    ensures forall j :: 0 <= j < |h.starts| && h.starts[j] == d ==> x in h.ended && h.ended[x] <= j
  {
    assert DestroyScheduler.Edge(keyed, x, d);
    assert x in DestroyScheduler.Parents(keyed, d);
  }

  /// Running it
  /// ----------

  method ToRefs(names: set<Name>, product: Name -> string) returns (refs: seq<DependencyPlanner.Ref>)
    ensures Names(refs) == names
  {
    refs := [];
    var todo := names;
    while todo != {}
      invariant todo <= names && Names(refs) == names - todo
    {
      var n :| n in todo;
      NamesAppend(refs, DependencyPlanner.Ref(n, product(n)));
      refs := refs + [DependencyPlanner.Ref(n, product(n))];
      todo := todo - {n};
    }
  }

  lemma NamesAppend(refs: seq<DependencyPlanner.Ref>, r: DependencyPlanner.Ref)
    ensures Names(refs + [r]) == Names(refs) + {r.name}
  {
    assert forall x :: x in refs + [r] <==> x in refs || x == r;
  }

  method ToSeq(names: set<Name>) returns (list: seq<Name>)
    ensures forall n :: n in list <==> n in names
  {
    list := [];
    var todo := names;
    while todo != {}
      invariant todo <= names && forall n :: n in list <==> n in names - todo
    {
      var n :| n in todo;
      list := list + [n];
      todo := todo - {n};
    }
  }

  /** A later lookup does not change what the cache says of nodes it knows. */
  lemma StaysPlanned(r: Resource, cache: NodeModes.Cache, used: set<Name>, available: set<Name>)
    requires NodeModes.Mentions(r.template) <= cache.Keys
    ensures PlannedDependencies(r, NodeModes.Filled(cache, used, available)) == PlannedDependencies(r, cache)
  {
    NodeModes.SearchedIsMentioned(r.template);
  }

  ghost predicate DiscoveredFor(resources: map<Name, Resource>, refs: map<Name, seq<DependencyPlanner.Ref>>,
                                cache: NodeModes.Cache, n: Name)
    requires n in resources
  {
    && n in refs && Names(refs[n]) == PlannedDependencies(resources[n], cache)
    && NodeModes.Mentions(resources[n].template) <= cache.Keys
  }

  /** `inputs_depend_on` of every resource, over one shared cache. */
  method Discover(resources: map<Name, Resource>, product: Name -> string, depends: NodeModes.Depends)
    returns (refs: map<Name, seq<DependencyPlanner.Ref>>)
    modifies depends
    ensures refs.Keys == resources.Keys
    ensures forall n <- resources :: Names(refs[n]) == PlannedDependencies(resources[n], depends.cache)
  {
    refs := map[];
    var todo := resources.Keys;
    while todo != {}
      invariant todo <= resources.Keys && refs.Keys == resources.Keys - todo
      invariant forall n {:trigger DiscoveredFor(resources, refs, depends.cache, n)} | n in resources && n !in todo ::
        DiscoveredFor(resources, refs, depends.cache, n)
    {
      var n :| n in todo;
      ghost var before, refsBefore := depends.cache, refs;
      var nodes := depends.InputsDependOn(resources[n].template, resources[n].extra);
      var list := ToRefs(nodes, product);
      refs := refs[n := list];
      todo := todo - {n};
      forall m | m in resources && m !in todo ensures DiscoveredFor(resources, refs, depends.cache, m) {
        if m != n {
          assert DiscoveredFor(resources, refsBefore, before, m);
          StaysPlanned(resources[m], before, NodeModes.Mentions(resources[n].template), depends.available);
        }
      }
    }
    forall n | n in resources ensures Names(refs[n]) == PlannedDependencies(resources[n], depends.cache) {
      assert DiscoveredFor(resources, refs, depends.cache, n);
    }
  }

  ghost predicate SameEdges(given: map<Name, Resource>, resources: map<Name, Resource>) {
    forall n <- resources :: n in given && RecordedDependencies(resources[n]) == RecordedDependencies(given[n])
  }

  /** `dependencies` of every resource, as its plan will record them. */
  method Annotate(resources: map<Name, Resource>, depends: NodeModes.Depends) returns (annotated: map<Name, Resource>)
    modifies depends
    ensures depends.cache == old(depends.cache)
    ensures annotated.Keys == resources.Keys && RecordsAll(annotated) && SameEdges(resources, annotated)
  {
    annotated := map[];
    var todo := resources.Keys;
    while todo != {}
      invariant todo <= resources.Keys && annotated.Keys == resources.Keys - todo && depends.cache == old(depends.cache)
      invariant RecordsAll(annotated) && SameEdges(resources, annotated)
    {
      var n :| n in todo;
      var r := resources[n];
      var nodes := depends.Dependencies(r.template, r.extra);
      var list := ToSeq(nodes);
      ghost var before := annotated;
      annotated := annotated[n := r.(def := r.def.(dependencies := list))];
      forall m | m in annotated ensures RecordsFor(annotated, m) {
        assert m != n ==> RecordsFor(before, m);
      }
      todo := todo - {n};
    }
  }

  /** No resource depends on itself, through however many others. */
  ghost predicate NoCycle(resources: map<Name, Resource>, rank: Name -> nat) {
    forall n <- resources, d <- RecordedDependencies(resources[n]) :: d in resources ==> rank(d) < rank(n)
  }

  lemma TaskIsWellFormed(t: DependencyPlanner.Task, resources: map<Name, Resource>, stored: map<Name, ResourceState>,
                         cache: NodeModes.Cache, same: Same, rank: Name -> nat)
    requires FromDefinitions(t, resources, stored, cache, same) && NoCycle(resources, rank)
    ensures DependencyPlanner.WellFormed(t, rank)
  {
    forall n, r | DependencyPlanner.HasPlan(t, n) && r in t.dependencies[n] && DependencyPlanner.Pending(t, r.name)
      ensures rank(r.name) < rank(n)
    {
      assert DependsAsDefined(t, resources, cache, n);
      assert r.name in Names(t.dependencies[n]);
      assert r.name in RecordedDependencies(resources[n]);
    }
  }

  lemma PassedDirectly(k: Creation, rank: Name -> nat, prior: map<PlanId, bool>, n: Name)
    requires Complete(k) && n in k.selected
    ensures var c := CallOf(k, prior);
            && IdOf(k.ops, n) in c.top && IdOf(k.ops, n) in c.plans
            && c.plans[IdOf(k.ops, n)].dependsOn == IdsOf(k.ops, ListOf(k, n))
            && forall d <- c.plans :: d in c.top
  {
    var c := CallOf(k, prior);
    PlansById(k, n);
    IdsMember(k.ops, k.selected, n);
    forall d | d in c.plans ensures d in c.top {
      var m :| m in k.selected && IdOf(k.ops, m) == d;
      IdsMember(k.ops, k.selected, m);
    }
  }

  ghost predicate Finished(k: Creation, registry: PlanExecutor.Registry, rank: Name -> nat, prior: map<PlanId, bool>)
    reads registry
  {
    && Complete(k) && registry.Valid() && registry.Serves(CallOf(k, prior), LayoutOf(k, rank))
    && PlanExecutor.WellFormed(CallOf(k, prior), LayoutOf(k, rank))
  }

  predicate AllSucceeded(nodes: map<PlanId, PlanExecutor.Phase>, ids: seq<PlanId>) {
    forall d <- ids :: d in nodes && nodes[d] == PlanExecutor.Done(true)
  }

  /** Whether a plan of a finished call was executed. */
  lemma IsExecuted(k: Creation, registry: PlanExecutor.Registry, rank: Name -> nat, prior: map<PlanId, bool>, n: Name)
    requires Finished(k, registry, rank, prior) && n in k.selected
    ensures AllSucceeded(registry.nodes, IdsOf(k.ops, ListOf(k, n))) <==>
            PlanExecutor.WasExecuted(registry.View(), IdOf(k.ops, n))
  {
    var c := CallOf(k, prior);
    registry.LookupAgrees(c);
    PassedDirectly(k, rank, prior, n);
    PlanExecutor.ExecutedIffSucceeded(c, LayoutOf(k, rank), registry.View(), IdOf(k.ops, n));
  }

  method CollectExecuted(k: Creation, registry: PlanExecutor.Registry, ghost rank: Name -> nat,
                         ghost prior: map<PlanId, bool>)
    returns (executed: set<Name>)
    requires Finished(k, registry, rank, prior)
    ensures executed == ExecutedNames(k, registry.View())
  {
    executed := set n | n in k.selected && AllSucceeded(registry.nodes, IdsOf(k.ops, ListOf(k, n)));
    forall n | n in k.selected
      ensures AllSucceeded(registry.nodes, IdsOf(k.ops, ListOf(k, n))) <==> n in ExecutedNames(k, registry.View())
    {
      IsExecuted(k, registry, rank, prior, n);
    }
  }

  /** What the user does: which plans are created, how each execution ends, and which
      resources are destroyed afterwards, in which way. */
  datatype Wishes = Wishes(
    chosen: set<Name>, attempts: map<Name, Attempt>, condemned: seq<Name>, teardown: Name -> DestroyScheduler.Attempt)

  method MakeTask(resources: map<Name, Resource>, stored: map<Name, ResourceState>, product: Name -> string, same: Same,
                  depends: NodeModes.Depends)
    returns (t: DependencyPlanner.Task)
    modifies depends
    ensures FromDefinitions(t, resources, stored, depends.cache, same)
  {
    var refs := Discover(resources, product, depends);
    t := DependencyPlanner.Task(
      Entries(resources, stored, same), map[], refs, map n | n in stored :: stored[n].product);
  }

  /** Of the plans that did not fail and have something to do, those that were chosen. */
  ghost predicate IsSelection(t: DependencyPlanner.Task, rank: Name -> nat, chosen: set<Name>, selected: seq<Name>)
    requires DependencyPlanner.WellFormed(t, rank)
  {
    forall n :: n in selected <==>
      && n in chosen && n in t.planned && t.planned[n] == DependencyPlanner.CreatePlan(false)
      && !DependencyPlanner.Fails(t, rank, n)
  }

  /** What a flow plans and selects. */
  method PlanCreation(given: map<Name, Resource>, stored: map<Name, ResourceState>, product: Name -> string, same: Same,
                      rank: Name -> nat, wishes: Wishes, depends: NodeModes.Depends)
    returns (resources: map<Name, Resource>, k: Creation,
             ghost t: DependencyPlanner.Task, ghost shared: DependencyPlanner.Shared)
    requires NoCycle(given, rank)
    requires NoneRaises(given.Keys, wishes.attempts)
    modifies depends
    ensures resources.Keys == given.Keys && RecordsAll(resources) && SameEdges(given, resources)
    ensures FromDefinitions(t, resources, stored, depends.cache, same)
    ensures Chained(t, rank, shared, resources, k)
    ensures k.attempts == wishes.attempts && IsSelection(t, rank, wishes.chosen, k.selected)
  {
    resources := Annotate(given, depends);
    KeepsNoCycle(given, resources, rank);
    var task := MakeTask(resources, stored, product, same, depends);
    t := task;
    TaskIsWellFormed(t, resources, stored, depends.cache, same, rank);
    PendingHasOperation(resources, stored, same);
    k, shared := Select(task, rank, Operations(resources, stored, same), resources, wishes);
  }

  /** Resolves the dependencies and lets the user choose among the plans that are left. */
  method Select(t: DependencyPlanner.Task, rank: Name -> nat, ops: map<Name, Operation>, resources: map<Name, Resource>,
                wishes: Wishes)
    returns (k: Creation, ghost shared: DependencyPlanner.Shared)
    requires DependencyPlanner.WellFormed(t, rank) && t.planned.Keys == resources.Keys && t.parents == map[]
    requires NoneRaises(resources.Keys, wishes.attempts) && HasOperations(t.planned, ops)
    ensures Chained(t, rank, shared, resources, k)
    ensures k.attempts == wishes.attempts && IsSelection(t, rank, wishes.chosen, k.selected)
  {
    var planner := new DependencyPlanner.Planner(t, rank);
    var failed := planner.ResolveAll();
    shared := planner.shared;
    var selected := ToSeq(set n | n in t.planned && n in wishes.chosen && n !in failed &&
                                  t.planned[n] == DependencyPlanner.CreatePlan(false));
    k := Creation(ops, planner.shared.dependsOn, selected, wishes.attempts);
  }

  /** Plans the definitions, lets the executor run the plans that were chosen, records what
      they did, and later destroys. Whatever the schedules, every planned edge is created
      dependency first, and every edge that the records have is torn down dependent first:
      those of the definition where the create stored them, else the older ones. */
  method CreateThenDestroy(given: map<Name, Resource>, stored: map<Name, ResourceState>,
                           product: Name -> string, same: Same, rank: Name -> nat, wishes: Wishes,
                           depends: NodeModes.Depends, registry: PlanExecutor.Registry, now: nat)
    returns (resources: map<Name, Resource>, k: Creation, store: map<Name, ResourceState>,
             ghost t: DependencyPlanner.Task, ghost s: PlanExecutor.State, ghost h: DestroyScheduler.History)
    requires NoCycle(given, rank) && registry.Valid()
    requires NoneRaises(given.Keys, wishes.attempts)
    modifies depends, registry
    ensures resources.Keys == given.Keys && SameEdges(given, resources)
    ensures FromDefinitions(t, resources, stored, depends.cache, same) && DependencyPlanner.WellFormed(t, rank)
    ensures IsSelection(t, rank, wishes.chosen, k.selected)
    ensures AllRun(k, s)
    ensures forall x <- k.selected, d <- k.selected :: d in PlannedDependencies(resources[x], depends.cache) ==>
      CreatedFirst(k, s, x, d)
    ensures ExecutedNames(k, s) <= resources.Keys * wishes.attempts.Keys
    ensures IsStoreAfter(store, stored, resources, wishes.attempts, ExecutedNames(k, s))
    ensures TornDown(wishes, store, h)
    ensures forall x, d :: x in ExecutedNames(k, s) && x in wishes.condemned && d in wishes.condemned && d in store ==>
      TornDownInOrder(h, x, d, EdgesOf(resources[x], StoredOf(stored, x), wishes.attempts[x]))
  {
    ghost var shared;
    resources, k, t, shared := PlanCreation(given, stored, product, same, rank, wishes, depends);
    ghost var cache := depends.cache;
    PlannedAreAwaited(t, resources, stored, cache, same, k);
    var executed;
    executed, s := Execute(t, rank, shared, resources, k, registry);
    assert forall n <- executed :: n in k.selected;
    store := StoreAfter(resources, stored, k, executed, now);
    StoreIsAfter(resources, stored, k, executed, now);
    h := TearDown(wishes, store);
    forall x, d | x in ExecutedNames(k, s) && x in wishes.condemned && d in wishes.condemned && d in store
      ensures TornDownInOrder(h, x, d, EdgesOf(resources[x], StoredOf(stored, x), wishes.attempts[x]))
    {
      DestroyedInOrder(resources, stored, cache, k, executed, now, wishes.condemned, h, x, d);
    }
  }

  /** Every selected plan was executed once or abandoned once. */
  ghost predicate AllRun(k: Creation, s: PlanExecutor.State) {
    forall n <- k.selected :: PlanExecutor.Runs(s.log, IdOf(k.ops, n)) == 1
  }

  /** Executed plans have new records with the edges that they got to store; the others
      are as they were. */
  ghost predicate IsStoreAfter(store: map<Name, ResourceState>, stored: map<Name, ResourceState>,
                               resources: map<Name, Resource>, attempts: map<Name, Attempt>, executed: set<Name>)
    requires executed <= resources.Keys * attempts.Keys
  {
    && store.Keys == stored.Keys + executed
    && (forall n <- store :: n !in executed ==> store[n] == stored[n])
    && (forall n <- executed ::
          (set d | d in store[n].dependsOn) == EdgesOf(resources[n], StoredOf(stored, n), attempts[n]))
  }

  lemma StoreIsAfter(resources: map<Name, Resource>, stored: map<Name, ResourceState>, k: Creation,
                     executed: set<Name>, now: nat)
    requires executed <= resources.Keys * k.ops.Keys * k.attempts.Keys && RecordsAll(resources)
    requires NoneRaises(executed, k.attempts)
    ensures IsStoreAfter(StoreAfter(resources, stored, k, executed, now), stored, resources, k.attempts, executed)
  {
    forall n | n in executed
      ensures (set d | d in StoreAfter(resources, stored, k, executed, now)[n].dependsOn) ==
              EdgesOf(resources[n], StoredOf(stored, n), k.attempts[n])
    {
      RecordAfter(resources, stored, k, executed, now, n);
    }
  }

  /** The destroy run has come to rest: what could start has started once, in order. */
  ghost predicate TornDown(wishes: Wishes, store: map<Name, ResourceState>, h: DestroyScheduler.History) {
    var keyed := DestroyScheduler.Keyed(Condemn(wishes.condemned, store));
    && DestroyScheduler.DependentsFirst(keyed, h) && DestroyScheduler.StartedOnce(h)
    && DestroyScheduler.Settled(keyed, map n | n in keyed :: wishes.teardown(n), set n | n in h.starts)
  }

  /** The edges in the record of `r` after its plan was executed. */
  function EdgesOf(r: Resource, existing: Option<ResourceState>, attempt: Attempt): set<Name> {
    if Commits(attempt) then RecordedDependencies(r) else set m | m in StoredDependsOn(existing)
  }

  method TearDown(wishes: Wishes, store: map<Name, ResourceState>) returns (ghost h: DestroyScheduler.History)
    ensures TornDown(wishes, store, h)
  {
    var scheduler := new DestroyScheduler.Scheduler(Condemn(wishes.condemned, store), wishes.teardown);
    var ok := scheduler.Destroy({});
    h := scheduler.history;
    assert scheduler.started == set n | n in h.starts;
  }

  /** `x` was not executed before `d` had finished with success. */
  ghost predicate CreatedFirst(k: Creation, s: PlanExecutor.State, x: Name, d: Name) {
    forall i: nat :: i < |s.log| && s.log[i] == PlanExecutor.Executed(IdOf(k.ops, x)) ==>
      PlanExecutor.Finished(IdOf(k.ops, d), true) in s.log[..i]
  }

  ghost predicate TornDownInOrder(h: DestroyScheduler.History, x: Name, d: Name, edges: set<Name>) {
    d in edges ==> forall j :: 0 <= j < |h.starts| && h.starts[j] == d ==> x in h.ended && h.ended[x] <= j
  }

  lemma KeepsNoCycle(given: map<Name, Resource>, resources: map<Name, Resource>, rank: Name -> nat)
    requires NoCycle(given, rank) && resources.Keys == given.Keys && SameEdges(given, resources)
    ensures NoCycle(resources, rank)
  {
  }

  lemma PlannedAreAwaited(t: DependencyPlanner.Task, resources: map<Name, Resource>, stored: map<Name, ResourceState>,
                          cache: NodeModes.Cache, same: Same, k: Creation)
    requires FromDefinitions(t, resources, stored, cache, same)
    requires forall n <- k.selected :: n in t.planned && t.planned[n] == DependencyPlanner.CreatePlan(false)
    ensures forall x <- k.selected, d <- k.selected :: d in PlannedDependencies(resources[x], cache) ==>
      DependencyPlanner.WaitsFor(t, x, d)
  {
    forall x, d | x in k.selected && d in k.selected && d in PlannedDependencies(resources[x], cache)
      ensures DependencyPlanner.WaitsFor(t, x, d)
    {
      assert DependsAsDefined(t, resources, cache, x);
      assert d in Names(t.dependencies[x]);
    }
  }

  /** The executor's part. */
  method Execute(ghost t: DependencyPlanner.Task, ghost rank: Name -> nat, ghost shared: DependencyPlanner.Shared,
                 ghost resources: map<Name, Resource>, k: Creation, registry: PlanExecutor.Registry)
    returns (executed: set<Name>, ghost s: PlanExecutor.State)
    requires Chained(t, rank, shared, resources, k) && registry.Valid()
    modifies registry
    ensures executed == ExecutedNames(k, s) && AllRun(k, s)
    ensures forall x <- k.selected, d <- k.selected :: DependencyPlanner.WaitsFor(t, x, d) ==> CreatedFirst(k, s, x, d)
  {
    ghost var prior := registry.Results();
    ghost var w := LayoutOf(k, rank);
    ChainedFalls(t, rank, shared, resources, k);
    CallIsWellFormed(k, rank, prior);
    var results := registry.ExecutePlans(PlansOf(k), IdsOf(k.ops, k.selected), w);
    s := registry.View();
    executed := CollectExecuted(k, registry, rank, prior);
    RanInOrder(t, rank, shared, resources, k, prior, s);
  }

  lemma RanInOrder(t: DependencyPlanner.Task, rank: Name -> nat, shared: DependencyPlanner.Shared,
                   resources: map<Name, Resource>, k: Creation, prior: map<PlanId, bool>, s: PlanExecutor.State)
    requires Chained(t, rank, shared, resources, k)
    requires PlanExecutor.Inv(CallOf(k, prior), LayoutOf(k, rank), s) && PlanExecutor.AllDone(s)
    ensures AllRun(k, s)
    ensures forall x <- k.selected, d <- k.selected :: DependencyPlanner.WaitsFor(t, x, d) ==> CreatedFirst(k, s, x, d)
  {
    forall n | n in k.selected ensures PlanExecutor.Runs(s.log, IdOf(k.ops, n)) == 1 {
      PassedDirectly(k, rank, prior, n);
      assert PlanExecutor.Begun(s, IdOf(k.ops, n));
    }
    forall x, d | x in k.selected && d in k.selected && DependencyPlanner.WaitsFor(t, x, d)
      ensures CreatedFirst(k, s, x, d)
    {
      assert d in DependencyPlanner.DependsOn(shared, x);
      ListedIsFirst(k, prior, s, x, d);
    }
  }

  lemma ListedIsFirst(k: Creation, prior: map<PlanId, bool>, s: PlanExecutor.State, x: Name, d: Name)
    requires Complete(k) && x in k.selected && d in k.selected && d in ListOf(k, x)
    requires PlanExecutor.DependencyFirst(CallOf(k, prior), s.log)
    ensures CreatedFirst(k, s, x, d)
  {
    forall i: nat | i < |s.log| && s.log[i] == PlanExecutor.Executed(IdOf(k.ops, x))
      ensures PlanExecutor.Finished(IdOf(k.ops, d), true) in s.log[..i]
    {
      CreatedInOrder(k, prior, s.log, x, d, i);
    }
  }
}
