/** How a planned resource's ignored arguments keep their stored values
    (launchflow/flows/create_flows.py:92-108). */
module IgnoredInputs {
  import opened Options
  import opened FlowState

  /** An argument name split at its dots. */
  type Path = p: seq<string> | p != [] witness ["resource_id"]

  function Get(j: Json, path: seq<string>): Option<Json> {
    if path == [] then Some(j)
    else if j.Dict? && path[0] in j.fields then Get(j.fields[path[0]], path[1..])
    else None
  }

  /** `root[p0][p1]...[pn] = v`; None is a KeyError or TypeError on the way down. */
  function SetAt(j: Json, path: Path, v: Json): Option<Json>
    decreases |path|
  {
    if !j.Dict? then None
    else if |path| == 1 then Some(Dict(j.fields[path[0] := v]))
    else if path[0] !in j.fields then None
    else
      var inner := SetAt(j.fields[path[0]], path[1..], v);
      if inner.None? then None else Some(Dict(j.fields[path[0] := inner.value]))
  }

  /** Copies the old value at one path. */
  function Keep(planned: Json, stored: Json, path: Path): Option<Json> {
    var v := Get(stored, path);
    if v.None? then None else SetAt(planned, path, v.value)
  }

  /** Copies the old values at all paths, from left to right. */
  function KeepAll(planned: Json, stored: Json, paths: seq<Path>): Option<Json>
    decreases |paths|
  {
    if paths == [] then Some(planned)
    else
      var next := Keep(planned, stored, paths[0]);
      if next.None? then None else KeepAll(next.value, stored, paths[1..])
  }

  /** The paths that the loop in the source addresses: its two cursors are moved down by
      a dotted key and not moved back up for the next one. */
  function Effective(prefix: seq<string>, keys: seq<Path>): seq<Path>
    decreases |keys|
  {
    if keys == [] then []
    else
      var parents := keys[0][..|keys[0]| - 1];
      [prefix + keys[0]] + Effective(prefix + parents, keys[1..])
  }

  /** The loop addresses the arguments that were named exactly when no dotted key comes
      before another key. The keys are a set, iterated in an unspecified order. */
  lemma {:induction false} EffectiveIffDottedLast(keys: seq<Path>)
    ensures Effective([], keys) == keys <==> forall i :: 0 <= i < |keys| - 1 ==> |keys[i]| == 1
    decreases |keys|
  {
    if |keys| > 1 {
      var parents := keys[0][..|keys[0]| - 1];
      assert [] + keys[0] == keys[0] && [] + parents == parents;
      assert Effective([], keys) == [keys[0]] + Effective(parents, keys[1..]);
      assert Effective(parents, keys[1..])[0] == parents + keys[1];
      if parents == [] {
        EffectiveIffDottedLast(keys[1..]);
        assert forall i :: 0 <= i < |keys| - 2 ==> keys[1..][i] == keys[i + 1];
      } else {
        assert |parents + keys[1]| > |keys[1]|;
        assert Effective([], keys)[1] != keys[1];
      }
    } else if |keys| == 1 {
      assert [] + keys[0] == keys[0];
    }
  }

  lemma GetRoot(j: Json, path: Path)
    requires |path| == 1
    ensures Get(j, path) == if j.Dict? && path[0] in j.fields then Some(j.fields[path[0]]) else None
  {
    assert path[1..] == [];
  }

  lemma {:induction false} GetStops(j: Json, prefix: seq<string>, rest: seq<string>)
    requires Get(j, prefix).None?
    ensures Get(j, prefix + rest).None?
    decreases |prefix|
  {
    var path := prefix + rest;
    if j.Dict? && prefix[0] in j.fields {
      assert path[1..] == prefix[1..] + rest;
      GetStops(j.fields[prefix[0]], prefix[1..], rest);
    }
  }

  lemma {:induction false} SetStops(j: Json, prefix: seq<string>, rest: Path, v: Json)
    requires Get(j, prefix).None?
    ensures SetAt(j, prefix + rest, v).None?
    decreases |prefix|
  {
    var path := prefix + rest;
    if j.Dict? && prefix[0] in j.fields {
      assert path[1..] == prefix[1..] + rest;
      SetStops(j.fields[prefix[0]], prefix[1..], rest, v);
    }
  }

  /** The new inputs: the planned ones, with the stored values of what the loop addresses. */
  function MergedInputs(planned: Inputs, existing: Option<Inputs>, keys: seq<Path>): Option<Json> {
    if existing.None? then Some(Dict(planned))
    else KeepAll(Dict(planned), Dict(existing.value), Effective([], keys))
  }

  /** `_new_resource_inputs`, for one order of the ignored arguments; None is a KeyError. */
  method NewResourceInputs(planned: Inputs, existing: Option<Inputs>, keys: seq<Path>) returns (r: Option<Json>)
    ensures r == MergedInputs(planned, existing, keys)
    ensures existing.None? ==> r == Some(Dict(planned))
    ensures existing.Some? ==> r == KeepAll(Dict(planned), Dict(existing.value), Effective([], keys))
  {
    if existing.None? {
      return Some(Dict(planned));
    }
    var current, stored := Dict(planned), Dict(existing.value);
    var cursor: seq<string> := [];
    for i := 0 to |keys|
      invariant KeepAll(Dict(planned), stored, Effective([], keys)) ==
        KeepAll(current, stored, Effective(cursor, keys[i..]))
    {
      var key := keys[i];
      ghost var path := cursor + key;
      assert Effective(cursor, keys[i..]) ==
        [path] + Effective(cursor + key[..|key| - 1], keys[i + 1..]) by {
        assert keys[i..][1..] == keys[i + 1..];
      }
      assert Keep(current, stored, path).None? ==>
        KeepAll(current, stored, Effective(cursor, keys[i..])).None?;
      ghost var start := cursor;
      for j := 0 to |key| - 1
        invariant cursor == start + key[..j]
      {
        cursor := cursor + [key[j]];
        assert start + key[..j + 1] == cursor;
        assert path == cursor + key[j + 1..];
        if Get(current, cursor).None? || Get(stored, cursor).None? {
          Unreachable(current, stored, cursor, key[j + 1..]);
          return None;
        }
      }
      assert path == cursor + [key[|key| - 1]];
      var v := Get(stored, cursor + [key[|key| - 1]]);
      if v.None? {
        return None;
      }
      var next := SetAt(current, cursor + [key[|key| - 1]], v.value);
      if next.None? {
        return None;
      }
      current := next.value;
    }
    return Some(current);
  }

  lemma Unreachable(current: Json, stored: Json, prefix: seq<string>, rest: Path)
    requires Get(current, prefix).None? || Get(stored, prefix).None?
    ensures Keep(current, stored, prefix + rest).None?
  {
    if Get(stored, prefix).None? {
      GetStops(stored, prefix, rest);
    } else if Get(stored, prefix + rest).Some? {
      SetStops(current, prefix, rest, Get(stored, prefix + rest).value);
    }
  }

  /// What keeping the old values achieves
  /// ------------------------------------

  /** Writing the value that is there changes nothing. */
  lemma {:induction false} SetSame(j: Json, path: Path)
    requires Get(j, path).Some?
    ensures SetAt(j, path, Get(j, path).value) == Some(j)
    decreases |path|
  {
    if |path| == 1 {
      assert Get(j, path) == Some(j.fields[path[0]]);
      assert j.fields[path[0] := j.fields[path[0]]] == j.fields;
    } else {
      SetSame(j.fields[path[0]], path[1..]);
      assert j.fields[path[0] := j.fields[path[0]]] == j.fields;
    }
  }

  /** Writing the stored value at `path` does not disturb a stored value elsewhere. */
  lemma {:induction false} SetKeeps(j: Json, stored: Json, path: Path, at: Path)
    requires Get(stored, path).Some? && SetAt(j, path, Get(stored, path).value).Some?
    requires at == path || Get(j, at) == Get(stored, at)
    ensures Get(SetAt(j, path, Get(stored, path).value).value, at) == Get(stored, at)
    decreases |path|
  {
    var k := path[0];
    var j' := SetAt(j, path, Get(stored, path).value).value;
    if at[0] == k {
      if |path| == 1 {
        assert Get(stored, path) == Some(stored.fields[k]);
        assert j'.fields[k] == stored.fields[k];
      } else if |at| == 1 {
        assert j.fields[k] == stored.fields[k];
        assert Get(stored, path) == Get(j.fields[k], path[1..]);
        SetSame(j.fields[k], path[1..]);
      } else {
        SetKeeps(j.fields[k], stored.fields[k], path[1..], at[1..]);
      }
    } else {
      assert j'.fields == j.fields[k := j'.fields[k]];
    }
  }

  /** In the result every ignored argument has its stored value. */
  lemma {:induction false} KeepAllKeeps(planned: Json, stored: Json, paths: seq<Path>, done: seq<Path>)
    requires KeepAll(planned, stored, paths).Some?
    requires forall p <- done :: Get(planned, p) == Get(stored, p)
    ensures forall p <- done + paths :: Get(KeepAll(planned, stored, paths).value, p) == Get(stored, p)
    decreases |paths|
  {
    if paths != [] {
      var next := Keep(planned, stored, paths[0]).value;
      forall p | p in done + [paths[0]] ensures Get(next, p) == Get(stored, p) {
        SetKeeps(planned, stored, paths[0], p);
      }
      KeepAllKeeps(next, stored, paths[1..], done + [paths[0]]);
      assert done + [paths[0]] + paths[1..] == done + paths;
    }
  }

  /** Neither path leads to or through the other. */
  predicate Disjoint(p: seq<string>, q: seq<string>) {
    !(p <= q) && !(q <= p)
  }

  lemma DisjointTails(p: seq<string>, q: seq<string>)
    requires p != [] && q != [] && p[0] == q[0]
    ensures Disjoint(p, q) <==> Disjoint(p[1..], q[1..])
  {
    assert p == [p[0]] + p[1..] && q == [q[0]] + q[1..];
  }

  /** Writing at one path leaves what is on a disjoint one. */
  lemma {:induction false} SetElsewhere(j: Json, path: Path, v: Json, at: seq<string>)
    requires SetAt(j, path, v).Some? && Disjoint(path, at)
    ensures Get(SetAt(j, path, v).value, at) == Get(j, at)
    decreases |path|
  {
    if at[0] == path[0] {
      DisjointTails(path, at);
      if |path| > 1 {
        SetElsewhere(j.fields[path[0]], path[1..], v, at[1..]);
      }
    }
  }

  /** What is on a path disjoint from all ignored ones has its planned value. */
  lemma {:induction false} KeepAllLeaves(planned: Json, stored: Json, paths: seq<Path>, at: seq<string>)
    requires KeepAll(planned, stored, paths).Some?
    requires forall p <- paths :: Disjoint(p, at)
    ensures Get(KeepAll(planned, stored, paths).value, at) == Get(planned, at)
    decreases |paths|
  {
    if paths != [] {
      assert Disjoint(paths[0], at);
      SetElsewhere(planned, paths[0], Get(stored, paths[0]).value, at);
      KeepAllLeaves(Keep(planned, stored, paths[0]).value, stored, paths[1..], at);
    }
  }

  /** A value can be written at the path: all above it are dicts. */
  predicate Settable(j: Json, path: Path)
    decreases |path|
  {
    j.Dict? && (|path| == 1 || (path[0] in j.fields && Settable(j.fields[path[0]], path[1..])))
  }

  lemma {:induction false} SetAtIffSettable(j: Json, path: Path, v: Json)
    ensures SetAt(j, path, v).Some? <==> Settable(j, path)
    decreases |path|
  {
    if |path| > 1 && j.Dict? && path[0] in j.fields {
      SetAtIffSettable(j.fields[path[0]], path[1..], v);
    }
  }

  lemma {:induction false} ResolvesIsSettable(j: Json, path: Path)
    requires Get(j, path).Some?
    ensures Settable(j, path)
    decreases |path|
  {
    if |path| > 1 {
      ResolvesIsSettable(j.fields[path[0]], path[1..]);
    }
  }

  /** Writing a stored value leaves the other ignored paths writable. */
  lemma {:induction false} StaysSettable(j: Json, stored: Json, path: Path, p: Path)
    requires Get(stored, path).Some? && Get(stored, p).Some?
    requires Settable(j, path) && Settable(j, p)
    ensures SetAt(j, path, Get(stored, path).value).Some?
    ensures Settable(SetAt(j, path, Get(stored, path).value).value, p)
    decreases |path|
  {
    SetAtIffSettable(j, path, Get(stored, path).value);
    if p[0] == path[0] && |p| > 1 {
      if |path| == 1 {
        GetRoot(stored, path);
        ResolvesIsSettable(stored, p);
      } else {
        StaysSettable(j.fields[path[0]], stored.fields[path[0]], path[1..], p[1..]);
      }
    }
  }

  lemma {:induction false} KeepAllResolves(planned: Json, stored: Json, paths: seq<Path>)
    requires forall p <- paths :: Get(stored, p).Some? && Settable(planned, p)
    ensures KeepAll(planned, stored, paths).Some?
    decreases |paths|
  {
    if paths != [] {
      assert Get(stored, paths[0]).Some? && Settable(planned, paths[0]);
      SetAtIffSettable(planned, paths[0], Get(stored, paths[0]).value);
      forall p | p in paths[1..] ensures Get(stored, p).Some? && Settable(Keep(planned, stored, paths[0]).value, p) {
        StaysSettable(planned, stored, paths[0], p);
      }
      KeepAllResolves(Keep(planned, stored, paths[0]).value, stored, paths[1..]);
    }
  }

  /** The two agree on every path that is disjoint from those given. */
  ghost predicate AgreeElsewhere(a: Json, b: Json, paths: set<seq<string>>) {
    forall at {:trigger AllDisjoint(paths, at)} :: AllDisjoint(paths, at) ==> Get(a, at) == Get(b, at)
  }

  ghost predicate AllDisjoint(paths: set<seq<string>>, at: seq<string>) {
    forall p <- paths :: Disjoint(p, at)
  }

  function Tails(paths: set<seq<string>>, k: string): set<seq<string>> {
    set p | p in paths && p != [] && p[0] == k :: p[1..]
  }

  /** Values that agree on some paths, where both resolve, and elsewhere are the same. */
  lemma {:induction false} SameIfAgree(a: Json, b: Json, paths: set<seq<string>>)
    requires forall p <- paths :: Get(a, p).Some? && Get(a, p) == Get(b, p)
    requires AgreeElsewhere(a, b, paths)
    ensures a == b
    decreases a
  {
    if paths == {} {
      assert AllDisjoint(paths, []);
    } else if [] !in paths {
      var some :| some in paths;
      assert Get(a, some).Some?;
      forall k ensures (k in a.fields <==> k in b.fields) && (k in a.fields ==> a.fields[k] == b.fields[k]) {
        SameAtKey(a, b, paths, k);
      }
      assert a.fields == b.fields;
    }
  }

  lemma {:induction false} SameAtKey(a: Json, b: Json, paths: set<seq<string>>, k: string)
    requires a.Dict? && b.Dict? && [] !in paths
    requires forall p <- paths :: Get(a, p).Some? && Get(a, p) == Get(b, p)
    requires AgreeElsewhere(a, b, paths)
    ensures (k in a.fields <==> k in b.fields) && (k in a.fields ==> a.fields[k] == b.fields[k])
    decreases a, 0
  {
    if p :| p in paths && p[0] == k {
      assert Get(a, p).Some? && k in a.fields && k in b.fields;
      forall t | t in Tails(paths, k) ensures Get(a.fields[k], t).Some? && Get(a.fields[k], t) == Get(b.fields[k], t) {
        var q :| q in paths && q != [] && q[0] == k && q[1..] == t;
        assert Get(a, q).Some? && Get(a, q) == Get(b, q);
      }
      forall at | AllDisjoint(Tails(paths, k), at) ensures Get(a.fields[k], at) == Get(b.fields[k], at) {
        AgreesBelow(a, b, paths, k, at);
      }
      SameIfAgree(a.fields[k], b.fields[k], Tails(paths, k));
    } else {
      assert AllDisjoint(paths, [k]);
      GetRoot(a, [k]);
      GetRoot(b, [k]);
    }
  }

  lemma AgreesBelow(a: Json, b: Json, paths: set<seq<string>>, k: string, at: seq<string>)
    requires a.Dict? && b.Dict? && k in a.fields && k in b.fields && [] !in paths
    requires AgreeElsewhere(a, b, paths) && AllDisjoint(Tails(paths, k), at)
    ensures Get(a.fields[k], at) == Get(b.fields[k], at)
  {
    var below := [k] + at;
    assert below[1..] == at;
    forall p | p in paths ensures Disjoint(p, below) {
      if p[0] == k {
        assert p[1..] in Tails(paths, k);
        DisjointTails(p, below);
      }
    }
    assert AllDisjoint(paths, below);
    assert Get(a, below) == Get(b, below);
  }

  /** What was planned differs from what is stored at the ignored paths only, and those
      resolve in what is stored. */
  ghost predicate DifferOnlyAt(planned: Json, stored: Json, paths: seq<Path>) {
    && (forall p <- paths :: Get(stored, p).Some? && Settable(planned, p))
    && AgreeElsewhere(planned, stored, set p | p in paths)
  }

  /** Keeping the stored values then gives what is stored. */
  lemma KeepsStored(planned: Json, stored: Json, paths: seq<Path>)
    requires DifferOnlyAt(planned, stored, paths)
    ensures KeepAll(planned, stored, paths) == Some(stored)
  {
    KeepAllResolves(planned, stored, paths);
    var result := KeepAll(planned, stored, paths).value;
    var all: set<seq<string>> := set p | p in paths;
    KeepAllKeeps(planned, stored, paths, []);
    forall p | p in all ensures Get(result, p).Some? && Get(result, p) == Get(stored, p) {
      assert p in [] + paths;
    }
    forall at | AllDisjoint(all, at) ensures Get(result, at) == Get(stored, at) {
      KeepAllLeaves(planned, stored, paths, at);
    }
    SameIfAgree(result, stored, all);
  }

  predicate AllResolve(stored: Json, paths: seq<Path>) {
    forall p <- paths :: Get(stored, p).Some?
  }

  /** Planning what is stored gives what is stored, or a KeyError for an ignored
      argument that is not among the stored inputs. */
  lemma {:induction false} KeepAllSame(stored: Json, paths: seq<Path>)
    ensures KeepAll(stored, stored, paths) == if AllResolve(stored, paths) then Some(stored) else None
    decreases |paths|
  {
    if paths != [] {
      if Get(stored, paths[0]).Some? {
        SetSame(stored, paths[0]);
        KeepAllSame(stored, paths[1..]);
        assert forall p :: p in paths <==> p == paths[0] || p in paths[1..];
      }
    }
  }
}
