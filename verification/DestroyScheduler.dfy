/** The destroy scheduler of launchflow/flows/resource_flows.py: resources are torn
    down dependents first, concurrently, by a worklist over the inverse of the
    dependency graph that the create flow recorded. */
module DestroyScheduler {
  type Name = string

  /** A locked plan, with the `depends_on` list stored with its resource. */
  datatype Plan = Plan(name: Name, dependsOn: seq<Name>)

  /** How the coroutine destroying one resource ends: `_destroy_resource` returned, or
      an exception left it (releasing a lock that is no longer ours raises). */
  datatype Attempt = Returned(success: bool) | Raised

  /** The history of one destroy: `starts` lists the teardowns in the order in which
      they were started, and `ended[n]` is the number of starts that had happened
      when `_destroy_resource` returned for `n`. */
  datatype History = History(starts: seq<Name>, ended: map<Name, nat>)

  type Selection = map<Name, seq<Name>>

  /** `keyed_plans`: of two plans for one resource name the later one stays. */
  function Keyed(plans: seq<Plan>): Selection {
    if plans == [] then map[] else
    var last := plans[|plans| - 1];
    Keyed(plans[..|plans| - 1])[last.name := last.dependsOn]
  }

  /** Every name is keyed, by the last plan that has it. */
  lemma {:induction false} KeyedIsLast(plans: seq<Plan>, i: nat)
    requires i < |plans| && forall j :: i < j < |plans| ==> plans[j].name != plans[i].name
    ensures plans[i].name in Keyed(plans) && Keyed(plans)[plans[i].name] == plans[i].dependsOn
    decreases |plans|
  {
    if i < |plans| - 1 {
      KeyedIsLast(plans[..|plans| - 1], i);
    }
  }

  /** `p` depends on `c`, and both are selected. */
  predicate Edge(keyed: Selection, p: Name, c: Name) {
    p in keyed && c in keyed && c in keyed[p]
  }

  function Children(keyed: Selection, p: Name): set<Name> {
    set c | c in keyed && Edge(keyed, p, c)
  }

  function Parents(keyed: Selection, c: Name): set<Name> {
    set p | p in keyed && Edge(keyed, p, c)
  }

  /// What any run of the scheduler leaves behind
  /// -------------------------------------------

  ghost predicate Distinct(names: seq<Name>) {
    forall i, j :: 0 <= i < j < |names| ==> names[i] != names[j]
  }

  /** A teardown starts only after every selected dependent's teardown has ended. */
  ghost predicate DependentsFirst(keyed: Selection, h: History) {
    forall i, p :: 0 <= i < |h.starts| && p in Parents(keyed, h.starts[i]) ==> p in h.ended && h.ended[p] <= i
  }

  /** Each teardown is started once, and ends after its own start. */
  ghost predicate StartedOnce(h: History) {
    && Distinct(h.starts)
    && (forall p <- h.ended :: p in h.starts && h.ended[p] <= |h.starts|)
    && (forall i :: 0 <= i < |h.starts| && h.starts[i] in h.ended ==> i < h.ended[h.starts[i]])
  }

  /** The scheduler has come to rest: what could start has, and what started ended. */
  ghost predicate Settled(keyed: Selection, attempts: map<Name, Attempt>, started: set<Name>)
    requires attempts.Keys == keyed.Keys
  {
    started == set n | n in keyed && forall p <- Parents(keyed, n) :: p in started && attempts[p].Returned?
  }

  ghost predicate Acyclic(keyed: Selection, rank: Name -> nat) {
    forall p, c :: Edge(keyed, p, c) ==> rank(p) < rank(c)
  }

  /** Nothing above `n` raises. */
  ghost predicate Unblocked(keyed: Selection, attempts: map<Name, Attempt>, rank: Name -> nat, n: Name)
    requires attempts.Keys == keyed.Keys && Acyclic(keyed, rank)
    decreases rank(n)
  {
    forall p <- Parents(keyed, n) :: attempts[p].Returned? && Unblocked(keyed, attempts, rank, p)
  }

  /** On an acyclic selection a teardown is started exactly when no teardown above it
      raised. A teardown that merely reports failure does not hold back the rest. */
  lemma {:induction false} StartedIffUnblocked(keyed: Selection, attempts: map<Name, Attempt>, started: set<Name>,
                                               rank: Name -> nat, n: Name)
    requires attempts.Keys == keyed.Keys && Acyclic(keyed, rank)
    requires Settled(keyed, attempts, started) && n in keyed
    ensures n in started <==> Unblocked(keyed, attempts, rank, n)
    decreases rank(n)
  {
    forall p | p in Parents(keyed, n)
      ensures p in started <==> Unblocked(keyed, attempts, rank, p)
    {
      StartedIffUnblocked(keyed, attempts, started, rank, p);
    }
  }

  /** If every attempt returns, successful or not, the whole selection is torn down. */
  lemma EverythingStarts(keyed: Selection, attempts: map<Name, Attempt>, started: set<Name>, rank: Name -> nat)
    requires attempts.Keys == keyed.Keys && Acyclic(keyed, rank)
    requires Settled(keyed, attempts, started)
    requires forall n <- attempts :: attempts[n].Returned?
    ensures started == keyed.Keys
  {
    forall n | n in keyed ensures n in started {
      AllUnblocked(keyed, attempts, rank, n);
      StartedIffUnblocked(keyed, attempts, started, rank, n);
    }
  }

  lemma {:induction false} AllUnblocked(keyed: Selection, attempts: map<Name, Attempt>, rank: Name -> nat, n: Name)
    requires attempts.Keys == keyed.Keys && Acyclic(keyed, rank)
    requires forall m <- attempts :: attempts[m].Returned?
    ensures Unblocked(keyed, attempts, rank, n)
    decreases rank(n)
  {
    forall p | p in Parents(keyed, n) ensures Unblocked(keyed, attempts, rank, p) {
      AllUnblocked(keyed, attempts, rank, p);
    }
  }

  /** Resources on a dependency cycle, or below one, are never started: they form a
      set in which every member has a dependent in the set. */
  lemma {:induction false} CyclesNeverStart(keyed: Selection, h: History, stuck: set<Name>, i: nat)
    requires DependentsFirst(keyed, h) && StartedOnce(h)
    requires forall m <- stuck :: Parents(keyed, m) * stuck != {}
    requires i < |h.starts|
    ensures h.starts[i] !in stuck
    decreases i
  {
    if h.starts[i] in stuck {
      var p :| p in Parents(keyed, h.starts[i]) * stuck;
      assert p in h.ended && p in h.starts;
      var k :| 0 <= k < |h.starts| && h.starts[k] == p;
      CyclesNeverStart(keyed, h, stuck, k);
    }
  }

  /// The scheduler
  /// -------------

  /** The worklist loop's variables; `started` and `history` are there for the proof. */
  datatype Work = Work(toStart: seq<Name>, pending: set<Name>, completed: set<Name>, results: seq<bool>,
                       started: set<Name>, history: History)

  type Links = map<Name, set<Name>>

  /** `children` and `parents` hold the same edges, in the two directions, and only
      edges of the selection. */
  ghost predicate Inverse(keyed: Selection, children: Links, parents: Links) {
    && children.Keys == parents.Keys == keyed.Keys
    && (forall p, c :: p in keyed && c in children[p] ==> Edge(keyed, p, c) && p in parents[c])
    && (forall p, c :: c in keyed && p in parents[c] ==> Edge(keyed, p, c) && c in children[p])
  }

  lemma AddEdge(keyed: Selection, children: Links, parents: Links, p: Name, c: Name)
    requires Edge(keyed, p, c) && Inverse(keyed, children, parents)
    ensures Inverse(keyed, children[p := children[p] + {c}], parents[c := parents[c] + {p}])
  {
    var children', parents' := children[p := children[p] + {c}], parents[c := parents[c] + {p}];
    forall x, y | x in keyed && y in children'[x] ensures Edge(keyed, x, y) && x in parents'[y] {
      assert (x == p && y == c) || y in children[x];
    }
    forall x, y | y in keyed && x in parents'[y] ensures Edge(keyed, x, y) && y in children'[x] {
      assert (x == p && y == c) || x in parents[y];
    }
  }

  lemma AllEdges(keyed: Selection, children: Links, parents: Links)
    requires Inverse(keyed, children, parents)
    requires forall p, c :: Edge(keyed, p, c) ==> c in children[p]
    ensures children == map p | p in keyed :: Children(keyed, p)
    ensures parents == map c | c in keyed :: Parents(keyed, c)
  {
    forall p | p in keyed ensures children[p] == Children(keyed, p) {
      forall c | c in Children(keyed, p) ensures c in children[p] { assert Edge(keyed, p, c); }
      forall c | c in children[p] ensures c in Children(keyed, p) { assert Edge(keyed, p, c); }
    }
    forall c | c in keyed ensures parents[c] == Parents(keyed, c) {
      forall p | p in Parents(keyed, c) ensures p in parents[c] { assert Edge(keyed, p, c); }
      forall p | p in parents[c] ensures p in Parents(keyed, c) { assert Edge(keyed, p, c); }
    }
  }

  class Scheduler {
    const keyed: Selection
    const attempts: map<Name, Attempt>

    var children: map<Name, set<Name>>
    var parents: map<Name, set<Name>>
    var roots: set<Name>

    var toStart: seq<Name>
    var pending: set<Name>
    var completed: set<Name>
    var results: seq<bool>

    ghost var started: set<Name>
    ghost var history: History

    constructor (plans: seq<Plan>, outcomes: Name -> Attempt)
      ensures keyed == Keyed(plans)
      ensures attempts == map n | n in keyed :: outcomes(n)
      ensures children == parents == map[] && roots == {} && Fresh()
    {
      var seen: Selection := map[];
      for i := 0 to |plans|
        invariant seen == Keyed(plans[..i])
      {
        assert plans[..i + 1][..i] == plans[..i];
        seen := seen[plans[i].name := plans[i].dependsOn];
      }
      assert plans[..|plans|] == plans;
      keyed := seen;
      attempts := map n | n in seen :: outcomes(n);
      children, parents, roots := map[], map[], {};
      toStart, pending, completed, results := [], {}, {}, [];
      started, history := {}, History([], map[]);
    }

    ghost predicate Fresh()
      reads this
    {
      && toStart == [] && pending == {} && completed == {} && results == []
      && started == {} && history == History([], map[])
    }

    ghost predicate Organized()
      reads this
    {
      && children == (map p | p in keyed :: Children(keyed, p))
      && parents == (map c | c in keyed :: Parents(keyed, c))
      && roots == (set c | c in keyed && Parents(keyed, c) == {})
    }

    /** `_organize_destroy_plans`: every plan starts out as a root; following an edge
        makes its target a child, and no root. */
    method Organize()
      modifies this`children, this`parents, this`roots
      ensures Organized()
      ensures forall p, c :: p in keyed && c in keyed ==>
        (c in children[p] <==> c in keyed[p]) && (p in parents[c] <==> c in keyed[p])
      ensures forall c :: c in roots <==> c in keyed && forall p <- keyed :: c !in keyed[p]
    {
      children := map n | n in keyed :: {};
      parents := map n | n in keyed :: {};
      roots := keyed.Keys;
      var todo := keyed.Keys;
      while todo != {}
        invariant todo <= keyed.Keys
        invariant Linked()
        invariant forall p, c :: Edge(keyed, p, c) && p !in todo ==> c in children[p]
      {
        var p :| p in todo;
        FollowAll(p);
        todo := todo - {p};
      }
      AllEdges(keyed, children, parents);
    }

    ghost predicate Linked()
      reads this
    {
      Inverse(keyed, children, parents) && roots == (set c | c in keyed && parents[c] == {})
    }

    method FollowAll(p: Name)
      requires p in keyed && Linked()
      modifies this`children, this`parents, this`roots
      ensures Linked() && forall q <- keyed :: q != p ==> children[q] == old(children)[q]
      ensures forall c :: Edge(keyed, p, c) ==> c in children[p]
    {
      var names := keyed[p];
      for i := 0 to |names|
        invariant Linked() && forall q <- keyed :: q != p ==> children[q] == old(children)[q]
        invariant forall j :: 0 <= j < i && names[j] in keyed ==> names[j] in children[p]
      {
        if names[i] in keyed {
          Follow(p, names[i]);
        }
      }
    }

    method Follow(p: Name, c: Name)
      requires Edge(keyed, p, c) && Linked()
      modifies this`children, this`parents, this`roots
      ensures Linked()
      ensures children == old(children)[p := old(children)[p] + {c}]
    {
      AddEdge(keyed, children, parents, p, c);
      if c in roots {
        roots := roots - {c};
      }
      children := children[p := children[p] + {c}];
      parents := parents[c := parents[c] + {p}];
    }

    /// The worklist loop

    ghost function View(): Work
      reads this
    {
      Work(toStart, pending, completed, results, started, history)
    }

    ghost predicate Valid()
      reads this
    {
      attempts.Keys == keyed.Keys && WorkOk(keyed, attempts, View())
    }

    /** `plans_to_start = organize_plans`. */
    method StartRoots()
      requires Organized() && Fresh() && attempts.Keys == keyed.Keys
      modifies this`toStart
      ensures Valid()
    {
      var todo := roots;
      while todo != {}
        invariant todo <= roots
        invariant Distinct(toStart)
        invariant forall n :: n in toStart <==> n in roots && n !in todo
      {
        var n :| n in todo;
        toStart := toStart + [n];
        todo := todo - {n};
      }
      forall n | n in keyed ensures Ready(keyed, completed, n) <==> n in roots {
        assert Ready(keyed, {}, n) <==> Parents(keyed, n) == {};
      }
    }

    /** `plans_to_start.pop(0)` and `asyncio.create_task`. */
    method StartNext()
      requires Valid() && toStart != []
      modifies this`toStart, this`pending, this`started, this`history
      ensures Valid() && View() == Popped(old(View()))
    {
      PopOk(keyed, attempts, View());
      PopFields(toStart[0]);
    }

    method PopFields(n: Name)
      requires toStart != [] && n == toStart[0]
      modifies this`toStart, this`pending, this`started, this`history
      ensures View() == Popped(old(View()))
    {
      toStart := toStart[1..];
      pending := pending + {n};
      started := started + {n};
      history := history.(starts := history.starts + [n]);
    }

    /** The rest of `execute_plan_wrapper` once the attempt at `n` has ended; there is
        no `await` in it. */
    method EndAttempt(n: Name)
      requires Organized() && Valid() && n in pending
      modifies this`toStart, this`pending, this`completed, this`results, this`history
      ensures Valid()
      ensures pending == old(pending) - {n} && started == old(started)
    {
      ghost var before := View();
      PendingIsKeyed(keyed, attempts, before, n);
      match attempts[n] {
        case Raised =>
          pending := pending - {n};
          RaiseOk(keyed, attempts, before, n);
          assert View() == before.(pending := before.pending - {n});
        case Returned(success) =>
          Complete(n, success);
      }
    }

    method Complete(n: Name, success: bool)
      requires Organized() && Valid() && n in pending && n in keyed && attempts[n] == Returned(success)
      modifies this`toStart, this`pending, this`completed, this`results, this`history
      ensures Valid()
      ensures pending == old(pending) - {n} && started == old(started)
    {
      ghost var before := View();
      MarkCompleted(n, success);
      BeforeReturn(keyed, attempts, before, n);
      StartChildren(n, before.completed);
      ReturnOk(keyed, attempts, before, n, toStart);
      assert View() == Returning(before, n, success).(toStart := toStart);
    }

    method MarkCompleted(n: Name, success: bool)
      modifies this`pending, this`completed, this`results, this`history
      ensures View() == Returning(old(View()), n, success)
    {
      pending := pending - {n};
      results := results + [success];
      completed := completed + {n};
      history := history.(ended := history.ended[n := |history.starts|]);
    }

    /** Starts the children of `n` whose parents have now all completed. */
    method StartChildren(n: Name, ghost before: set<Name>)
      requires Organized() && n in keyed && n !in before && completed == before + {n}
      requires QueueOk(keyed, toStart, started, before)
      requires forall m <- started :: Ready(keyed, before, m)
      modifies this`toStart
      ensures QueueOk(keyed, toStart, started, completed)
    {
      ghost var queued := toStart;
      var todo := children[n];
      while todo != {}
        invariant todo <= children[n]
        invariant Distinct(toStart)
        invariant forall m ::
          m in toStart <==> m in queued || (m in children[n] && m !in todo && Ready(keyed, completed, m))
      {
        var c :| c in todo;
        assert n in Parents(keyed, c);
        assert c in keyed && !Ready(keyed, before, c);
        if parents[c] <= completed {
          toStart := toStart + [c];
        }
        todo := todo - {c};
      }
      GrowQueue(keyed, queued, toStart, started, before, n);
    }

    /** Starts whatever is queued. */
    method Drain()
      requires Valid()
      modifies this`toStart, this`pending, this`started, this`history
      ensures Valid() && toStart == []
      ensures old(toStart) == [] ==> started == old(started) && pending == old(pending)
      ensures old(toStart) != [] ==> Left() < old(Left()) && pending != {}
    {
      while toStart != []
        invariant Valid()
        invariant toStart == old(toStart) ==> started == old(started) && pending == old(pending)
        invariant toStart != old(toStart) ==> Left() < old(Left()) && pending != {}
        decreases |toStart|
      {
        PopShrinks(keyed, attempts, View());
        StartNext();
      }
    }

    /** How many teardowns have not been started. */
    ghost function Left(): nat
      reads this`started
    {
      |keyed.Keys - started|
    }

    /** One task ends, of a resource or of a service. */
    method EndOne(services: set<Name>) returns (left: set<Name>)
      requires Organized() && Valid() && (pending != {} || services != {})
      modifies this`toStart, this`pending, this`completed, this`results, this`history
      ensures Organized() && Valid() && started == old(started)
      ensures |pending| + |left| < |old(pending)| + |services|
    {
      left := services;
      if {
        case pending != {} =>
          var n :| n in pending;
          EndAttempt(n);
        case left != {} =>
          var service :| service in left;
          left := left - {service};
      }
    }

    /** `asyncio.wait(pending, return_when=FIRST_COMPLETED)`: at least one task ends,
        and others may before the loop is resumed. */
    method WaitForSome(services: set<Name>) returns (left: set<Name>)
      requires Organized() && Valid() && (pending != {} || services != {})
      modifies this`toStart, this`pending, this`completed, this`results, this`history
      ensures Organized() && Valid() && started == old(started)
      ensures |pending| + |left| < |old(pending)| + |services|
    {
      left := EndOne(services);
      var more := *;
      while more && (pending != {} || left != {})
        invariant Organized() && Valid() && started == old(started)
        invariant |pending| + |left| < |old(pending)| + |services|
        decreases |pending| + |left|
      {
        left := EndOne(left);
        more := *;
      }
    }

    /** The destroy flow from the locked plans on. It returns whether every resource
        attempt that returned reported success; service attempts are not counted. */
    method Destroy(services: set<Name>) returns (ok: bool)
      requires Fresh() && attempts.Keys == keyed.Keys
      modifies this
      ensures Organized()
      ensures Settled(keyed, attempts, started)
      ensures StartedOnce(history) && DependentsFirst(keyed, history)
      ensures forall n :: n in history.starts <==> n in started
      ensures forall n <- started :: n in history.ended <==> attempts[n].Returned?
      ensures ok <==> forall n <- started :: attempts[n] != Returned(false)
    {
      Organize();
      StartRoots();
      var tasks := services;
      while pending != {} || tasks != {} || toStart != []
        invariant Organized() && Valid()
        decreases Left(), |pending| + |tasks|
      {
        Drain();
        tasks := WaitForSome(tasks);
      }
      AtRest(keyed, attempts, View());
      ok := false !in results;
    }
  }

  lemma PopShrinks(keyed: Selection, attempts: map<Name, Attempt>, k: Work)
    requires attempts.Keys == keyed.Keys && WorkOk(keyed, attempts, k) && k.toStart != []
    ensures |keyed.Keys - Popped(k).started| < |keyed.Keys - k.started|
  {
    PopQueue(keyed, k.toStart, k.started, k.completed);
    assert keyed.Keys - Popped(k).started == (keyed.Keys - k.started) - {k.toStart[0]};
  }

  lemma AtRest(keyed: Selection, attempts: map<Name, Attempt>, k: Work)
    requires attempts.Keys == keyed.Keys && WorkOk(keyed, attempts, k)
    requires k.toStart == [] && k.pending == {}
    ensures Settled(keyed, attempts, k.started)
    ensures HistoryOk(keyed, k.history, k.started, k.completed)
    ensures forall n <- k.started :: n in k.history.ended <==> attempts[n].Returned?
    ensures false in k.results <==> exists n <- k.started :: attempts[n] == Returned(false)
  {
    forall n | n in keyed
      ensures n in k.started <==> forall p <- Parents(keyed, n) :: p in k.started && attempts[p].Returned?
    {
      assert Ready(keyed, k.completed, n) <==> n in k.started;
    }
  }

  /** Every plan that `n` must wait for has completed. */
  ghost predicate Ready(keyed: Selection, completed: set<Name>, n: Name) {
    Parents(keyed, n) <= completed
  }

  ghost predicate WorkOk(keyed: Selection, attempts: map<Name, Attempt>, k: Work)
    requires attempts.Keys == keyed.Keys
  {
    && QueueOk(keyed, k.toStart, k.started, k.completed)
    && HistoryOk(keyed, k.history, k.started, k.completed)
    && TasksOk(keyed, attempts, k.started, k.pending, k.completed)
    && ResultsOk(attempts, k.results, k.completed)
  }

  ghost function Popped(k: Work): Work
    requires k.toStart != []
  {
    var n := k.toStart[0];
    k.(toStart := k.toStart[1..], pending := k.pending + {n}, started := k.started + {n},
       history := k.history.(starts := k.history.starts + [n]))
  }

  ghost function Returning(k: Work, n: Name, success: bool): Work {
    k.(pending := k.pending - {n}, completed := k.completed + {n}, results := k.results + [success],
       history := k.history.(ended := k.history.ended[n := |k.history.starts|]))
  }

  lemma PopOk(keyed: Selection, attempts: map<Name, Attempt>, k: Work)
    requires attempts.Keys == keyed.Keys && WorkOk(keyed, attempts, k) && k.toStart != []
    ensures WorkOk(keyed, attempts, Popped(k))
  {
    var n := k.toStart[0];
    PopQueue(keyed, k.toStart, k.started, k.completed);
    AddTask(keyed, attempts, k.started, k.pending, k.completed, n);
    RecordStart(keyed, k.history, k.started, k.completed, n);
  }

  lemma PendingIsKeyed(keyed: Selection, attempts: map<Name, Attempt>, k: Work, n: Name)
    requires attempts.Keys == keyed.Keys && WorkOk(keyed, attempts, k) && n in k.pending
    ensures n in keyed
  {
  }

  lemma RaiseOk(keyed: Selection, attempts: map<Name, Attempt>, k: Work, n: Name)
    requires attempts.Keys == keyed.Keys && WorkOk(keyed, attempts, k) && n in k.pending && n in keyed
    requires attempts[n].Raised?
    ensures WorkOk(keyed, attempts, k.(pending := k.pending - {n}))
  {
    EndTask(keyed, attempts, k.started, k.pending, k.completed, n);
  }

  lemma BeforeReturn(keyed: Selection, attempts: map<Name, Attempt>, k: Work, n: Name)
    requires attempts.Keys == keyed.Keys && WorkOk(keyed, attempts, k) && n in k.pending
    ensures n !in k.completed && QueueOk(keyed, k.toStart, k.started, k.completed)
    ensures forall m <- k.started :: Ready(keyed, k.completed, m)
  {
    forall m | m in k.started ensures Ready(keyed, k.completed, m) {
      var i :| 0 <= i < |k.history.starts| && k.history.starts[i] == m;
      forall p | p in Parents(keyed, m) ensures p in k.completed {
        assert p in Parents(keyed, k.history.starts[i]) && p in k.history.ended;
      }
    }
  }

  lemma ReturnOk(keyed: Selection, attempts: map<Name, Attempt>, k: Work, n: Name, queue: seq<Name>)
    requires attempts.Keys == keyed.Keys && WorkOk(keyed, attempts, k) && n in k.pending && n in keyed
    requires attempts[n].Returned? && QueueOk(keyed, queue, k.started, k.completed + {n})
    ensures WorkOk(keyed, attempts, Returning(k, n, attempts[n].success).(toStart := queue))
  {
    EndTask(keyed, attempts, k.started, k.pending, k.completed, n);
    RecordEnd(keyed, k.history, k.started, k.completed, n);
    AddResult(attempts, k.results, k.completed, n);
  }

  /** All results are true exactly when every completed attempt reported success. */
  ghost predicate ResultsOk(attempts: map<Name, Attempt>, results: seq<bool>, completed: set<Name>) {
    false in results <==> exists n <- completed :: n in attempts && attempts[n] == Returned(false)
  }

  lemma AddResult(attempts: map<Name, Attempt>, results: seq<bool>, completed: set<Name>, n: Name)
    requires ResultsOk(attempts, results, completed) && n in attempts && attempts[n].Returned?
    ensures ResultsOk(attempts, results + [attempts[n].success], completed + {n})
  {
    var results' := results + [attempts[n].success];
    assert false in results' <==> false in results || attempts[n].success == false;
  }

  ghost predicate HistoryOk(keyed: Selection, h: History, started: set<Name>, completed: set<Name>) {
    && StartedOnce(h) && DependentsFirst(keyed, h)
    && (forall n :: n in h.starts <==> n in started)
    && h.ended.Keys == completed
  }

  /** The queue holds what is ready and not yet started; nothing ready is forgotten. */
  ghost predicate QueueOk(keyed: Selection, queue: seq<Name>, started: set<Name>, completed: set<Name>) {
    && Distinct(queue)
    && (forall n <- queue :: n in keyed && n !in started)
    && (forall n {:trigger Ready(keyed, completed, n)} | n in keyed ::
          Ready(keyed, completed, n) <==> n in queue || n in started)
  }

  ghost predicate TasksOk(keyed: Selection, attempts: map<Name, Attempt>, started: set<Name>, pending: set<Name>,
                          completed: set<Name>)
    requires attempts.Keys == keyed.Keys
  {
    && started <= keyed.Keys && pending <= started && completed <= started - pending
    && (forall n <- started - pending :: n in completed <==> attempts[n].Returned?)
  }

  lemma PopQueue(keyed: Selection, queue: seq<Name>, started: set<Name>, completed: set<Name>)
    requires QueueOk(keyed, queue, started, completed) && queue != []
    ensures QueueOk(keyed, queue[1..], started + {queue[0]}, completed)
    ensures queue[0] in keyed && queue[0] !in started && Ready(keyed, completed, queue[0])
  {
    assert forall m :: m in queue <==> m == queue[0] || m in queue[1..];
    assert queue[0] !in queue[1..] && Ready(keyed, completed, queue[0]);
  }

  lemma GrowQueue(keyed: Selection, queued: seq<Name>, queue: seq<Name>, started: set<Name>, before: set<Name>, n: Name)
    requires QueueOk(keyed, queued, started, before) && Distinct(queue) && n in keyed && n !in before
    requires forall m :: m in queue <==> m in queued || (m in Children(keyed, n) && Ready(keyed, before + {n}, m))
    requires forall m <- started :: Ready(keyed, before, m)
    ensures QueueOk(keyed, queue, started, before + {n})
  {
    forall m | m in keyed
      ensures Ready(keyed, before + {n}, m) <==> m in queue || m in started
      ensures m in queue ==> m !in started
    {
      assert m in Children(keyed, n) <==> n in Parents(keyed, m);
      assert Ready(keyed, before, m) <==> m in queued || m in started;
      if n !in Parents(keyed, m) {
        assert Ready(keyed, before + {n}, m) <==> Ready(keyed, before, m);
      }
    }
  }

  lemma AddTask(keyed: Selection, attempts: map<Name, Attempt>, started: set<Name>, pending: set<Name>,
                completed: set<Name>, n: Name)
    requires attempts.Keys == keyed.Keys && TasksOk(keyed, attempts, started, pending, completed)
    requires n in keyed && n !in started
    ensures TasksOk(keyed, attempts, started + {n}, pending + {n}, completed)
  {
  }

  lemma EndTask(keyed: Selection, attempts: map<Name, Attempt>, started: set<Name>, pending: set<Name>,
                completed: set<Name>, n: Name)
    requires attempts.Keys == keyed.Keys && TasksOk(keyed, attempts, started, pending, completed)
    requires n in pending
    ensures n in keyed && n in started && n !in completed
    ensures TasksOk(keyed, attempts, started, pending - {n},
                    if attempts[n].Returned? then completed + {n} else completed)
  {
  }

  lemma RecordStart(keyed: Selection, h: History, started: set<Name>, completed: set<Name>, n: Name)
    requires HistoryOk(keyed, h, started, completed)
    requires n !in started && Ready(keyed, completed, n)
    ensures HistoryOk(keyed, h.(starts := h.starts + [n]), started + {n}, completed)
  {
  }

  lemma RecordEnd(keyed: Selection, h: History, started: set<Name>, completed: set<Name>, n: Name)
    requires HistoryOk(keyed, h, started, completed)
    requires n in started && n !in completed
    ensures HistoryOk(keyed, h.(ended := h.ended[n := |h.starts|]), started, completed + {n})
  {
  }
}
