/** Symbolic dependencies between nodes (launchflow/node.py:66-150, 265-304): inputs
    mention fields of other nodes' outputs, which a process-wide mode resolves, leaves
    symbolic, or resolves if the shared outputs cache allows it. */
module NodeModes {
  type Node = string

  /** The inputs of a node before the mode is applied: `Record` is a dataclass,
      `Container` a list or dict. */
  datatype Template = Literal | Ref(node: Node) | Record(fields: seq<Template>) | Container(items: seq<Template>)

  /** The inputs under a mode: `Symbolic` is a `DependsOnValue`. */
  datatype Value = Concrete | Symbolic(node: Node) | RecordOf(fields: seq<Value>) | ContainerOf(items: seq<Value>)

  datatype Mode = MaybeResolve | AlwaysResolve | NeverResolve

  datatype Result<T> = Ok(value: T) | OutputsNotFound

  /** What the cache says of a node: its outputs, or None for outputs not found. */
  type Cache = map<Node, bool>

  /** Every node that the template mentions. */
  function Mentions(t: Template): set<Node> {
    match t
    case Literal => {}
    case Ref(n) => {n}
    case Record(fields) => MentionsAll(fields)
    case Container(items) => MentionsAll(items)
  }

  function MentionsAll(ts: seq<Template>): set<Node> {
    if ts == [] then {} else Mentions(ts[0]) + MentionsAll(ts[1..])
  }

  /** The nodes mentioned through dataclasses only: where the search looks. */
  function Searched(t: Template): set<Node> {
    match t
    case Literal => {}
    case Ref(n) => {n}
    case Record(fields) => SearchedAll(fields)
    case Container(_) => {}
  }

  function SearchedAll(ts: seq<Template>): set<Node> {
    if ts == [] then {} else Searched(ts[0]) + SearchedAll(ts[1..])
  }

  /** The template with the nodes in `open` left symbolic. */
  function Instance(t: Template, open: set<Node>): Value {
    match t
    case Literal => Concrete
    case Ref(n) => if n in open then Symbolic(n) else Concrete
    case Record(fields) => RecordOf(Instances(fields, open))
    case Container(items) => ContainerOf(Instances(items, open))
  }

  function Instances(ts: seq<Template>, open: set<Node>): seq<Value> {
    if ts == [] then [] else [Instance(ts[0], open)] + Instances(ts[1..], open)
  }

  /** `_rec_inputs_depend_on`. */
  function Found(v: Value): set<Node> {
    match v
    case Symbolic(n) => {n}
    case RecordOf(fields) => FoundAll(fields)
    case _ => {}
  }

  function FoundAll(vs: seq<Value>): set<Node> {
    if vs == [] then {} else Found(vs[0]) + FoundAll(vs[1..])
  }

  lemma {:induction false} FoundIsOpenSearched(t: Template, open: set<Node>)
    ensures Found(Instance(t, open)) == Searched(t) * open
    decreases t
  {
    match t
    case Record(fields) => FoundAllIsOpenSearched(fields, open);
    case _ =>
  }

  lemma {:induction false} FoundAllIsOpenSearched(ts: seq<Template>, open: set<Node>)
    ensures FoundAll(Instances(ts, open)) == SearchedAll(ts) * open
    decreases ts
  {
    if ts != [] {
      FoundIsOpenSearched(ts[0], open);
      FoundAllIsOpenSearched(ts[1..], open);
      assert Instances(ts, open)[1..] == Instances(ts[1..], open);
    }
  }

  /** What the recursion ends with. */
  lemma LeavesAreSearched(n: Node, open: set<Node>)
    ensures Searched(Ref(n)) == Mentions(Ref(n)) == {n}
    ensures Searched(Literal) == Mentions(Literal) == {}
    ensures Found(Instance(Ref(n), open)) == if n in open then {n} else {}
    ensures Found(Instance(Literal, open)) == {}
  {
  }

  /** Containers keep their items, symbolic ones included, and the search does not look
      into them; a dataclass is searched field by field. */
  lemma ContainersAreOpaque(items: seq<Template>, open: set<Node>)
    ensures Instance(Container(items), open).ContainerOf?
    ensures |Instance(Container(items), open).items| == |items|
    ensures forall i :: 0 <= i < |items| ==> Instance(Container(items), open).items[i] == Instance(items[i], open)
    ensures Found(Instance(Container(items), open)) == {} == Searched(Container(items))
  {
    InstancesAt(items, open);
  }

  lemma RecordsAreSearched(fields: seq<Template>, open: set<Node>)
    ensures Instance(Record(fields), open).RecordOf?
    ensures |Instance(Record(fields), open).fields| == |fields|
    ensures forall i :: 0 <= i < |fields| ==> Instance(Record(fields), open).fields[i] == Instance(fields[i], open)
    ensures forall n :: n in Searched(Record(fields)) <==> exists f <- fields :: n in Searched(f)
    ensures forall n :: n in Mentions(Record(fields)) <==> exists f <- fields :: n in Mentions(f)
  {
    InstancesAt(fields, open);
    forall n
      ensures n in Searched(Record(fields)) <==> exists f <- fields :: n in Searched(f)
      ensures n in Mentions(Record(fields)) <==> exists f <- fields :: n in Mentions(f)
    {
      SearchedInSome(fields, n);
      MentionedInSome(fields, n);
    }
  }

  lemma {:induction false} InstancesAt(ts: seq<Template>, open: set<Node>)
    ensures |Instances(ts, open)| == |ts|
    ensures forall i :: 0 <= i < |ts| ==> Instances(ts, open)[i] == Instance(ts[i], open)
  {
    if ts != [] {
      InstancesAt(ts[1..], open);
    }
  }

  lemma {:induction false} SearchedInSome(ts: seq<Template>, n: Node)
    ensures n in SearchedAll(ts) <==> exists t <- ts :: n in Searched(t)
  {
    if ts != [] {
      SearchedInSome(ts[1..], n);
      if n in SearchedAll(ts) {
        if n in Searched(ts[0]) {
          assert ts[0] in ts;
        } else {
          var t :| t in ts[1..] && n in Searched(t);
          assert t in ts;
        }
      }
      if t :| t in ts && n in Searched(t) {
        assert t == ts[0] || t in ts[1..];
      }
    }
  }

  lemma {:induction false} MentionedInSome(ts: seq<Template>, n: Node)
    ensures n in MentionsAll(ts) <==> exists t <- ts :: n in Mentions(t)
  {
    if ts != [] {
      MentionedInSome(ts[1..], n);
      if n in MentionsAll(ts) {
        if n in Mentions(ts[0]) {
          assert ts[0] in ts;
        } else {
          var t :| t in ts[1..] && n in Mentions(t);
          assert t in ts;
        }
      }
      if t :| t in ts && n in Mentions(t) {
        assert t == ts[0] || t in ts[1..];
      }
    }
  }

  lemma {:induction false} SearchedIsMentioned(t: Template)
    ensures Searched(t) <= Mentions(t)
    decreases t
  {
    match t
    case Record(fields) => SearchedAllIsMentioned(fields);
    case _ =>
  }

  lemma {:induction false} SearchedAllIsMentioned(ts: seq<Template>)
    ensures SearchedAll(ts) <= MentionsAll(ts)
    decreases ts
  {
    if ts != [] {
      SearchedIsMentioned(ts[0]);
      SearchedAllIsMentioned(ts[1..]);
    }
  }

  /** Only nodes that are mentioned matter. */
  lemma {:induction false} InstanceLocal(t: Template, a: set<Node>, b: set<Node>)
    requires forall n <- Mentions(t) :: n in a <==> n in b
    ensures Instance(t, a) == Instance(t, b)
    decreases t
  {
    match t
    case Record(fields) => InstancesLocal(fields, a, b);
    case Container(items) => InstancesLocal(items, a, b);
    case _ =>
  }

  lemma {:induction false} InstancesLocal(ts: seq<Template>, a: set<Node>, b: set<Node>)
    requires forall n <- MentionsAll(ts) :: n in a <==> n in b
    ensures Instances(ts, a) == Instances(ts, b)
    decreases ts
  {
    if ts != [] {
      InstanceLocal(ts[0], a, b);
      InstancesLocal(ts[1..], a, b);
    }
  }

  /** The cache once the nodes in `used` have been looked up: what it knew it keeps. */
  function Filled(cache: Cache, used: set<Node>, available: set<Node>): Cache {
    map n | n in cache.Keys + used :: if n in cache then cache[n] else n in available
  }

  function Unresolved(cache: Cache): set<Node> {
    set n | n in cache && !cache[n]
  }

  /** The class-level state of `Depends`; `available` are the nodes whose outputs can be
      fetched. */
  class Depends {
    var mode: Mode
    var cache: Cache
    const available: set<Node>

    constructor (available: set<Node>)
      ensures mode == MaybeResolve && cache == map[] && this.available == available
    {
      this.mode, this.cache, this.available := MaybeResolve, map[], available;
    }

    ghost function OpenNodes(used: set<Node>): set<Node>
      reads this
    {
      match mode
      case NeverResolve => used
      case AlwaysResolve => {}
      case MaybeResolve => Unresolved(Filled(cache, used, available))
    }

    /** `_create_field`. */
    method CreateField(n: Node) returns (r: Result<Value>)
      modifies this`cache
      ensures r == if mode == AlwaysResolve && n !in available then OutputsNotFound
                   else Ok(Instance(Ref(n), old(OpenNodes({n}))))
      ensures cache == if mode == MaybeResolve then Filled(old(cache), {n}, available) else old(cache)
      ensures mode == NeverResolve ==> r == Ok(Symbolic(n))
      ensures mode == AlwaysResolve ==> r == if n in available then Ok(Concrete) else OutputsNotFound
      ensures mode == MaybeResolve ==>
        r == Ok(if (if n in old(cache) then old(cache)[n] else n in available) then Concrete else Symbolic(n))
      ensures mode == MaybeResolve ==>
        cache == if n in old(cache) then old(cache) else old(cache)[n := n in available]
    {
      match mode {
        case MaybeResolve =>
          if n in cache {
            assert cache == Filled(cache, {n}, available);
            return Ok(if cache[n] then Concrete else Symbolic(n));
          }
          cache := cache[n := n in available];
          assert cache == Filled(old(cache), {n}, available);
          return Ok(if n in available then Concrete else Symbolic(n));
        case AlwaysResolve =>
          if n !in available {
            return OutputsNotFound;
          }
          return Ok(Concrete);
        case NeverResolve =>
          return Ok(Symbolic(n));
      }
    }

    /** `inputs` under the current mode. */
    method Inputs(t: Template) returns (r: Result<Value>)
      modifies this`cache
      ensures r == if mode == AlwaysResolve && !(Mentions(t) <= available) then OutputsNotFound
                   else Ok(Instance(t, old(OpenNodes(Mentions(t)))))
      ensures mode != MaybeResolve ==> cache == old(cache)
      ensures mode == MaybeResolve ==> cache == Filled(old(cache), Mentions(t), available)
      decreases t, 0
    {
      match t {
        case Literal =>
          assert Filled(cache, {}, available) == cache;
          return Ok(Concrete);
        case Ref(n) =>
          r := CreateField(n);
        case Record(fields) =>
          var all := InputsAll(fields);
          r := if all.Ok? then Ok(RecordOf(all.value)) else OutputsNotFound;
        case Container(items) =>
          var all := InputsAll(items);
          r := if all.Ok? then Ok(ContainerOf(all.value)) else OutputsNotFound;
      }
    }

    method InputsAll(ts: seq<Template>) returns (r: Result<seq<Value>>)
      modifies this`cache
      ensures r == if mode == AlwaysResolve && !(MentionsAll(ts) <= available) then OutputsNotFound
                   else Ok(Instances(ts, old(OpenNodes(MentionsAll(ts)))))
      ensures mode != MaybeResolve ==> cache == old(cache)
      ensures mode == MaybeResolve ==> cache == Filled(old(cache), MentionsAll(ts), available)
      decreases ts
    {
      if ts == [] {
        assert Filled(cache, {}, available) == cache;
        return Ok([]);
      }
      var first := Inputs(ts[0]);
      if first.OutputsNotFound? {
        return OutputsNotFound;
      }
      ghost var openRest := OpenNodes(MentionsAll(ts[1..]));
      var rest := InputsAll(ts[1..]);
      if rest.OutputsNotFound? {
        return OutputsNotFound;
      }
      ghost var used := MentionsAll(ts);
      assert used == Mentions(ts[0]) + MentionsAll(ts[1..]);
      InstanceLocal(ts[0], old(OpenNodes(Mentions(ts[0]))), old(OpenNodes(used)));
      InstancesLocal(ts[1..], openRest, old(OpenNodes(used)));
      return Ok([first.value] + rest.value);
    }

    /** `_rec_inputs_depend_on` adds to the set it is given. */
    method RecInputsDependOn(v: Value, found: set<Node>) returns (found': set<Node>)
      ensures found' == found + Found(v)
      decreases v, 0
    {
      match v {
        case Symbolic(n) => return found + {n};
        case RecordOf(fields) =>
          found' := found;
          for i := 0 to |fields|
            invariant found' + FoundAll(fields[i..]) == found + FoundAll(fields)
          {
            assert fields[i..][1..] == fields[i + 1..];
            found' := RecInputsDependOn(fields[i], found');
          }
        case _ => return found;
      }
    }

    /** `inputs_depend_on`: under `MaybeResolve`, and back to the caller's mode. */
    method InputsDependOn(t: Template, extra: set<Node>) returns (nodes: set<Node>)
      modifies this
      ensures mode == old(mode)
      ensures cache == Filled(old(cache), Mentions(t), available)
      ensures nodes == extra + (set n | n in Searched(t) && n in Unresolved(cache))
      ensures forall n :: n in nodes <==>
        n in extra || (n in Searched(t) && if n in old(cache) then !old(cache)[n] else n !in available)
    {
      SearchedIsMentioned(t);
      var previous := mode;
      mode := MaybeResolve;
      var inputs := Inputs(t);
      mode := previous;
      FoundIsOpenSearched(t, Unresolved(cache));
      nodes := RecInputsDependOn(inputs.value, extra);
    }

    /** `dependencies`: under `NeverResolve`; the cache plays no part. */
    method Dependencies(t: Template, extra: set<Node>) returns (nodes: set<Node>)
      modifies this
      ensures mode == old(mode) && cache == old(cache)
      ensures nodes == extra + Searched(t)
    {
      var previous := mode;
      mode := NeverResolve;
      var inputs := Inputs(t);
      FoundIsOpenSearched(t, Mentions(t));
      SearchedIsMentioned(t);
      nodes := RecInputsDependOn(inputs.value, extra);
      mode := previous;
    }

    /** `execute_inputs`: raises unless all outputs are there; restores the mode anyway. */
    method ExecuteInputs(t: Template) returns (r: Result<Value>)
      modifies this
      ensures mode == old(mode) && cache == old(cache)
      ensures r.Ok? <==> Mentions(t) <= available
      ensures r.Ok? ==> Found(r.value) == {}
    {
      var previous := mode;
      mode := AlwaysResolve;
      r := Inputs(t);
      FoundIsOpenSearched(t, {});
      mode := previous;
    }

    /** The body of a decorated function: it calls further decorated functions and then
        returns or raises; an exception of a callee is its own. */
    method RunCall(call: Call) returns (raised: bool, seen: seq<Mode>)
      modifies this`mode
      ensures mode == old(mode)
      ensures (raised, seen) == Trace(call)
      decreases call, 0
    {
      var previous := mode;
      mode := call.mode;
      raised, seen := RunBody(call.body);
      if !raised {
        seen := seen + [mode];
        raised := call.raises;
      }
      mode := previous;
    }

    method RunBody(body: seq<Call>) returns (raised: bool, seen: seq<Mode>)
      modifies this`mode
      ensures mode == old(mode)
      ensures (raised, seen) == TraceAll(body)
      decreases body
    {
      if body == [] {
        return false, [];
      }
      raised, seen := RunCall(body[0]);
      if !raised {
        var more: seq<Mode>;
        raised, more := RunBody(body[1..]);
        seen := seen + more;
      }
    }
  }

  /** A call of a function decorated with `mode`. */
  datatype Call = Call(mode: Mode, body: seq<Call>, raises: bool)

  /** What a call does if every function sees its own mode once its callees are back. */
  function Trace(call: Call): (bool, seq<Mode>) {
    var (raised, seen) := TraceAll(call.body);
    if raised then (true, seen) else (call.raises, seen + [call.mode])
  }

  function TraceAll(body: seq<Call>): (bool, seq<Mode>) {
    if body == [] then (false, [])
    else
      var (raised, seen) := Trace(body[0]);
      if raised then (true, seen)
      else
        var (raised', more) := TraceAll(body[1..]);
        (raised', seen + more)
  }

  /** An exception of a callee reaches the caller, and nothing of the caller or of later
      callees runs after it. */
  lemma {:induction false} ExceptionsPropagate(body: seq<Call>)
    ensures TraceAll(body).0 <==> exists b <- body :: Trace(b).0
    decreases body
  {
    if body != [] {
      ExceptionsPropagate(body[1..]);
      assert forall b :: b in body <==> b == body[0] || b in body[1..];
      if Trace(body[0]).0 {
        assert body[0] in body;
      }
      assert TraceAll(body).0 <==> Trace(body[0]).0 || TraceAll(body[1..]).0;
    }
  }

  lemma {:induction false} NothingAfterException(body: seq<Call>, i: nat)
    requires i < |body| && Trace(body[i]).0
    ensures TraceAll(body) == TraceAll(body[..i + 1])
    decreases body
  {
    if i > 0 {
      NothingAfterException(body[1..], i - 1);
      assert body[..i + 1][1..] == body[1..][..i];
    } else {
      assert body[..1] == [body[0]];
    }
  }

  /** A function raises exactly if it does so itself or one of its callees does; without the
      latter it is itself run to its end, after its callees and in its own mode. */
  lemma CallRaisesIff(call: Call)
    ensures Trace(call).0 <==> call.raises || exists b <- call.body :: Trace(b).0
    ensures (exists b <- call.body :: Trace(b).0) ==> Trace(call).1 == TraceAll(call.body).1
    ensures !(exists b <- call.body :: Trace(b).0) ==> Trace(call).1 == TraceAll(call.body).1 + [call.mode]
  {
    ExceptionsPropagate(call.body);
  }
}
