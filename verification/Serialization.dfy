/** The serialiser of inputs and outputs (launchflow/node.py:23-63) and the decoder of
    stored outputs (launchflow/resource.py:33-52). */
module Serialization {
  /** Python values. An `Enum` is held by its value, a plain string; a `Symbol` is a
      `DependsOnValue`, held by its text; a `Record` is a dataclass instance. */
  datatype Py =
    | Null | Bool(b: bool) | Int(n: int) | Str(s: string) | Enum(value: string) | Symbol(text: string)
    | List(items: seq<Py>)
    | Dict(entries: seq<Entry>)
    | Record(fields: seq<Entry>)

  datatype Entry = Entry(key: string, val: Py)

  /// Serialising
  /// -----------

  function Size(v: Py): nat {
    match v
    case List(items) => 1 + SizeAll(items)
    case Dict(entries) => 1 + SizeEntries(entries)
    case Record(fields) => 2 + SizeEntries(fields)
    case _ => 1
  }

  function SizeAll(vs: seq<Py>): nat {
    if vs == [] then 0 else 1 + Size(vs[0]) + SizeAll(vs[1..])
  }

  function SizeEntries(es: seq<Entry>): nat {
    if es == [] then 0 else 1 + Size(es[0].val) + SizeEntries(es[1..])
  }

  /** `dataclasses.asdict`: records become dicts, inside lists and dicts too. */
  function AsDict(v: Py): (d: Py)
    ensures Size(d) <= Size(v)
    decreases v
  {
    match v
    case List(items) => List(AsDictAll(items))
    case Dict(entries) => Dict(AsDictEntries(entries))
    case Record(fields) => Dict(AsDictEntries(fields))
    case _ => v
  }

  function AsDictAll(vs: seq<Py>): (ds: seq<Py>)
    ensures SizeAll(ds) <= SizeAll(vs)
    decreases vs
  {
    if vs == [] then [] else [AsDict(vs[0])] + AsDictAll(vs[1..])
  }

  function AsDictEntries(es: seq<Entry>): (ds: seq<Entry>)
    ensures SizeEntries(ds) <= SizeEntries(es)
    decreases es
  {
    if es == [] then [] else [Entry(es[0].key, AsDict(es[0].val))] + AsDictEntries(es[1..])
  }

  function BoolText(b: bool): string {
    if b then "true" else "false"
  }

  /** `_serialize_type`. */
  function Serialize(v: Py): (r: Py)
    ensures Size(r) <= Size(v)
    decreases Size(v), 0
  {
    match v
    case Symbol(text) => Str(text)
    case Record(fields) => Dict(JsonDict(AsDictEntries(fields)))
    case Dict(entries) => Dict(JsonDict(entries))
    case Enum(value) => Str(value)
    case List(items) => List(SerializeAll(items))
    case Bool(b) => Str(BoolText(b))
    case _ => v
  }

  function SerializeAll(vs: seq<Py>): (rs: seq<Py>)
    ensures SizeAll(rs) <= SizeAll(vs)
    decreases SizeAll(vs), 0
  {
    if vs == [] then [] else [Serialize(vs[0])] + SerializeAll(vs[1..])
  }

  /** What a dict keeps of one entry. */
  function Kept(e: Entry): seq<Entry>
    decreases Size(e.val), 1
  {
    var v := Serialize(e.val);
    if v.Null? then [] else [Entry(e.key, v)]
  }

  /** `_json_dict` with each value serialised once: None-valued entries are dropped. */
  function JsonDict(es: seq<Entry>): (rs: seq<Entry>)
    ensures SizeEntries(rs) <= SizeEntries(es)
    decreases SizeEntries(es), 0
  {
    if es == [] then []
    else
      var rest := JsonDict(es[1..]);
      var kept := Kept(es[0]) + rest;
      assert kept != rest ==> kept[1..] == rest;
      kept
  }

  /** `to_dict`. */
  function ToDict(fields: seq<Entry>): seq<Entry> {
    JsonDict(AsDictEntries(fields))
  }

  /** Nothing that needs serialising, and no None in a dict, at any depth. */
  predicate Normal(v: Py) {
    match v
    case List(items) => forall x <- items :: Normal(x)
    case Dict(entries) => forall e <- entries :: !e.val.Null? && Normal(e.val)
    case _ => v.Null? || v.Int? || v.Str?
  }

  lemma {:induction false} SerializeIsNormal(v: Py)
    ensures Normal(Serialize(v))
    decreases Size(v), 1
  {
    match v
    case Record(fields) => JsonDictIsNormal(AsDictEntries(fields));
    case Dict(entries) => JsonDictIsNormal(entries);
    case List(items) => SerializeAllIsNormal(items);
    case _ =>
  }

  lemma {:induction false} SerializeAllIsNormal(vs: seq<Py>)
    ensures forall x <- SerializeAll(vs) :: Normal(x)
    decreases SizeAll(vs), 0
  {
    if vs != [] {
      SerializeIsNormal(vs[0]);
      SerializeAllIsNormal(vs[1..]);
    }
  }

  lemma {:induction false} JsonDictIsNormal(es: seq<Entry>)
    ensures forall e <- JsonDict(es) :: !e.val.Null? && Normal(e.val)
    decreases SizeEntries(es), 0
  {
    if es != [] {
      SerializeIsNormal(es[0].val);
      JsonDictIsNormal(es[1..]);
    }
  }

  lemma {:induction false} NormalIsFixed(v: Py)
    requires Normal(v)
    ensures Serialize(v) == v
    decreases Size(v), 1
  {
    match v
    case Dict(entries) => NormalEntriesFixed(entries);
    case List(items) => NormalAllFixed(items);
    case _ =>
  }

  lemma {:induction false} NormalAllFixed(vs: seq<Py>)
    requires forall x <- vs :: Normal(x)
    ensures SerializeAll(vs) == vs
    decreases SizeAll(vs), 0
  {
    if vs != [] {
      NormalIsFixed(vs[0]);
      NormalAllFixed(vs[1..]);
    }
  }

  lemma {:induction false} NormalEntriesFixed(es: seq<Entry>)
    requires forall e <- es :: !e.val.Null? && Normal(e.val)
    ensures JsonDict(es) == es
    decreases SizeEntries(es), 0
  {
    if es != [] {
      NormalIsFixed(es[0].val);
      NormalEntriesFixed(es[1..]);
    }
  }

  /** Serialising twice is serialising once; what it leaves alone is what is normal. */
  lemma SerializeIdempotent(v: Py)
    ensures Serialize(Serialize(v)) == Serialize(v)
    ensures Serialize(v) == v <==> Normal(v)
  {
    SerializeIsNormal(v);
    NormalIsFixed(Serialize(v));
    if Normal(v) {
      NormalIsFixed(v);
    }
  }

  /** A list is serialised item by item. */
  lemma {:induction false} SerializedItems(vs: seq<Py>, i: nat)
    requires i < |vs|
    ensures |SerializeAll(vs)| == |vs|
    ensures SerializeAll(vs)[i] == Serialize(vs[i])
    decreases |vs|
  {
    SerializedLength(vs);
    if i > 0 {
      SerializedItems(vs[1..], i - 1);
    }
  }

  lemma {:induction false} SerializedLength(vs: seq<Py>)
    ensures |SerializeAll(vs)| == |vs|
    decreases |vs|
  {
    if vs != [] {
      SerializedLength(vs[1..]);
    }
  }

  /** How many of the first entries are kept: those that do not serialise to None. */
  function KeptBefore(es: seq<Entry>, i: nat): nat
    requires i <= |es|
    decreases i
  {
    if i == 0 then 0 else KeptBefore(es, i - 1) + if es[i - 1].val.Null? then 0 else 1
  }

  /** A dict loses exactly its None values; the other entries keep their keys and their
      order. */
  lemma {:induction false} SerializedEntries(es: seq<Entry>, i: nat)
    requires i < |es| && !es[i].val.Null?
    ensures KeptBefore(es, i) < |JsonDict(es)| == KeptBefore(es, |es|)
    ensures JsonDict(es)[KeptBefore(es, i)] == Entry(es[i].key, Serialize(es[i].val))
    decreases |es|
  {
    SerializedCount(es);
    KeptShift(es, i);
    NullIffNull(es[0].val);
    if i > 0 {
      SerializedEntries(es[1..], i - 1);
    } else {
      NullIffNull(es[i].val);
    }
  }

  lemma NullIffNull(v: Py)
    ensures Serialize(v).Null? <==> v.Null?
  {
  }

  lemma {:induction false} SerializedCount(es: seq<Entry>)
    ensures |JsonDict(es)| == KeptBefore(es, |es|)
    decreases |es|
  {
    if es != [] {
      SerializedCount(es[1..]);
      KeptShift(es, |es|);
      NullIffNull(es[0].val);
    }
  }

  lemma {:induction false} KeptShift(es: seq<Entry>, i: nat)
    requires i <= |es|
    ensures i > 0 ==> KeptBefore(es, i) == (if es[0].val.Null? then 0 else 1) + KeptBefore(es[1..], i - 1)
    decreases i
  {
    if i > 1 {
      KeptShift(es, i - 1);
      assert es[1..][i - 2] == es[i - 1];
    }
  }

  /** `_serialize_type` as written: dicts by the loop below. */
  method SerializeType(v: Py) returns (r: Py)
    ensures r == Serialize(v)
    ensures v.Symbol? ==> r == Str(v.text)
    ensures v.Enum? ==> r == Str(v.value)
    ensures v == Bool(true) ==> r == Str("true")
    ensures v == Bool(false) ==> r == Str("false")
    ensures v.Null? || v.Int? || v.Str? ==> r == v
    ensures v.List? ==> r.List? && |r.items| == |v.items|
    decreases Size(v), 1
  {
    match v {
      case Symbol(text) => return Str(text);
      case Record(fields) =>
        var entries := BuildJsonDict(AsDictEntries(fields));
        return Dict(entries);
      case Dict(entries) =>
        var entries' := BuildJsonDict(entries);
        return Dict(entries');
      case Enum(value) => return Str(value);
      case List(items) =>
        var items' := SerializeList(items);
        SerializedLength(items);
        return List(items');
      case Bool(b) => return Str(BoolText(b));
      case _ => return v;
    }
  }

  method SerializeList(vs: seq<Py>) returns (out: seq<Py>)
    ensures out == SerializeAll(vs)
    decreases SizeAll(vs), 0
  {
    out := [];
    for i := 0 to |vs|
      invariant out + SerializeAll(vs[i..]) == SerializeAll(vs)
    {
      ItemIsSmaller(vs, i);
      SerializeAllFrom(vs, i);
      var x := SerializeType(vs[i]);
      out := out + [x];
    }
  }

  lemma SerializeAllFrom(vs: seq<Py>, i: nat)
    requires i < |vs|
    ensures SerializeAll(vs[i..]) == [Serialize(vs[i])] + SerializeAll(vs[i + 1..])
  {
    assert vs[i..][1..] == vs[i + 1..];
  }

  lemma {:induction false} ItemIsSmaller(vs: seq<Py>, i: nat)
    requires i < |vs|
    ensures Size(vs[i]) < SizeAll(vs)
  {
    if i > 0 {
      ItemIsSmaller(vs[1..], i - 1);
    }
  }

  /** `_json_dict` as written. */
  method BuildJsonDict(es: seq<Entry>) returns (out: seq<Entry>)
    ensures out == JsonDict(es)
    decreases SizeEntries(es), 0
  {
    out := [];
    for i := 0 to |es|
      invariant out + JsonDict(es[i..]) == JsonDict(es)
    {
      EntryIsSmaller(es, i);
      JsonDictStep(es, i, out, JsonDict(es));
      var kept := KeepEntry(es[i]);
      out := out + kept;
    }
  }

  /** A value that is kept is serialised a second time. */
  method KeepEntry(e: Entry) returns (kept: seq<Entry>)
    ensures kept == Kept(e)
    decreases Size(e.val), 2
  {
    var v := SerializeType(e.val);
    if v.Null? {
      return [];
    }
    SerializeIdempotent(e.val);
    var again := SerializeType(v);
    return [Entry(e.key, again)];
  }

  /** One round of the loop. */
  lemma JsonDictStep(es: seq<Entry>, i: nat, out: seq<Entry>, all: seq<Entry>)
    requires i < |es| && out + JsonDict(es[i..]) == all
    ensures (out + Kept(es[i])) + JsonDict(es[i + 1..]) == all
  {
    var rest := es[i + 1..];
    assert es[i..] == [es[i]] + rest;
    JsonDictCons(es[i], rest);
    ConcatAssociative(out, Kept(es[i]), JsonDict(rest));
  }

  lemma JsonDictCons(e: Entry, rest: seq<Entry>)
    ensures JsonDict([e] + rest) == Kept(e) + JsonDict(rest)
  {
    assert ([e] + rest)[1..] == rest;
  }

  lemma ConcatAssociative<T>(a: seq<T>, b: seq<T>, c: seq<T>)
    ensures a + (b + c) == (a + b) + c
  {
  }

  lemma {:induction false} EntryIsSmaller(es: seq<Entry>, i: nat)
    requires i < |es|
    ensures Size(es[i].val) < SizeEntries(es)
  {
    if i > 0 {
      EntryIsSmaller(es[1..], i - 1);
    }
  }

  /// Decoding
  /// --------

  /** A field of an output class: `Plain` is any type that is not itself a dataclass.
      A field without `init` cannot be passed to the constructor. */
  datatype Type = Plain | Class(fields: seq<Field>)

  datatype Field = Field(name: string, ty: Type, default: Default, init: bool)

  datatype Default = NoDefault | Default(value: Py)

  datatype Result<T> = Ok(value: T) | Error

  function Lookup(es: seq<Entry>, name: string): Result<Py> {
    if es == [] then Error
    else if es[0].key == name then Ok(es[0].val)
    else Lookup(es[1..], name)
  }

  /** The fields that every class of outputs inherits, and that the decoder sets after
      construction. */
  predicate Inherited(name: string) {
    name == "gcp_id" || name == "aws_arn"
  }

  /** Field names are distinct, and exactly the inherited fields are not passed to the
      constructor; their default is None. */
  predicate OutputClass(fields: seq<Field>) {
    && (forall i, j :: 0 <= i < j < |fields| ==> fields[i].name != fields[j].name)
    && (forall f <- fields :: f.init <==> !Inherited(f.name))
    && (forall f <- fields :: !f.init ==> f.ty.Plain? && f.default == Default(Null))
    && (forall f <- fields :: f.ty.Class? ==> OutputClass(f.ty.fields))
  }

  /** `name in v` where the decoder expects a dict: part of a string, or an item of a list. */
  predicate Contains(v: Py, name: string) {
    match v
    case Str(s) => exists i :: 0 <= i <= |s| && name <= s[i..]
    case List(items) => Str(name) in items
    case _ => false
  }

  /** What the decoder makes of a value that is no dict: indexing it by name raises, and so
      does looking for a name in anything but a string or a list; but if it never comes to
      that, all fields have their defaults. */
  function DecodeBare(v: Py, fields: seq<Field>): Result<seq<Entry>> {
    if fields == [] then Ok([])
    else
      var f := fields[0];
      var rest := DecodeBare(v, fields[1..]);
      if (v.Str? || v.List?) && !Contains(v, f.name) && f.ty.Plain? && f.default.Default? && rest.Ok? then
        Ok([Entry(f.name, f.default.value)] + rest.value)
      else Error
  }

  /** The value of one field: decoded if its type is a dataclass, else taken from the
      outputs, else its default. */
  function DecodeField(es: seq<Entry>, f: Field): Result<Py>
    decreases f, 0
  {
    match Lookup(es, f.name)
    case Ok(v) =>
      if f.ty.Class? then
        var r := if v.Dict? then Decode(v.entries, f.ty.fields) else DecodeBare(v, f.ty.fields);
        if r.Ok? then Ok(Record(r.value)) else Error
      else Ok(v)
    case Error =>
      if f.ty.Plain? && f.default.Default? then Ok(f.default.value) else Error
  }

  /** `_to_output_type`: the field values of the constructed record, in order. */
  function Decode(es: seq<Entry>, fields: seq<Field>): Result<seq<Entry>>
    decreases fields
  {
    if fields == [] then Ok([])
    else
      var v := DecodeField(es, fields[0]);
      var rest := Decode(es, fields[1..]);
      if v.Ok? && rest.Ok? then Ok([Entry(fields[0].name, v.value)] + rest.value) else Error
  }

  /** The record has the fields of the class, in order, down to nested classes. */
  predicate Conforms(record: seq<Entry>, fields: seq<Field>)
    decreases fields
  {
    if fields == [] then record == []
    else
      && record != [] && record[0].key == fields[0].name
      && (fields[0].ty.Class? ==> record[0].val.Record? && Conforms(record[0].val.fields, fields[0].ty.fields))
      && Conforms(record[1..], fields[1..])
  }

  /** What survives: a None whose field defaults to None, other plain values that are
      normal already, and nested records that survive. */
  predicate Survives(record: seq<Entry>, fields: seq<Field>)
    requires Conforms(record, fields)
    decreases fields, 0
  {
    fields != [] ==> ValueSurvives(record[0].val, fields[0]) && Survives(record[1..], fields[1..])
  }

  predicate ValueSurvives(v: Py, f: Field)
    requires f.ty.Class? ==> v.Record? && Conforms(v.fields, f.ty.fields)
    decreases f, 0
  {
    if f.ty.Class? then Survives(v.fields, f.ty.fields)
    else if v.Null? then f.default == Default(Null)
    else Normal(v)
  }

  lemma {:induction false} NormalAsDict(v: Py)
    requires Normal(v)
    ensures AsDict(v) == v
    decreases v
  {
    match v
    case List(items) => NormalAllAsDict(items);
    case Dict(entries) => NormalEntriesAsDict(entries);
    case _ =>
  }

  lemma {:induction false} NormalAllAsDict(vs: seq<Py>)
    requires forall x <- vs :: Normal(x)
    ensures AsDictAll(vs) == vs
    decreases vs
  {
    if vs != [] {
      NormalAsDict(vs[0]);
      NormalAllAsDict(vs[1..]);
    }
  }

  lemma {:induction false} NormalEntriesAsDict(es: seq<Entry>)
    requires forall e <- es :: Normal(e.val)
    ensures AsDictEntries(es) == es
    decreases es
  {
    if es != [] {
      NormalAsDict(es[0].val);
      NormalEntriesAsDict(es[1..]);
    }
  }

  /** What `to_dict` writes for one field value is that value exactly if it is normal. */
  lemma WrittenSameIffNormal(v: Py)
    ensures Serialize(AsDict(v)) == v <==> Normal(v)
    ensures Serialize(AsDict(v)).Null? <==> v.Null?
  {
    SerializeIsNormal(AsDict(v));
    if Normal(v) {
      NormalAsDict(v);
      NormalIsFixed(v);
    }
  }

  predicate HasKey(es: seq<Entry>, name: string) {
    exists e <- es :: e.key == name
  }

  lemma {:induction false} LookupConcat(a: seq<Entry>, b: seq<Entry>, name: string)
    ensures Lookup(a + b, name) == if HasKey(a, name) then Lookup(a, name) else Lookup(b, name)
    decreases a
  {
    if a == [] {
      assert a + b == b;
    } else {
      assert (a + b)[1..] == a[1..] + b;
      LookupConcat(a[1..], b, name);
      assert HasKey(a, name) <==> a[0].key == name || HasKey(a[1..], name);
    }
  }

  lemma {:induction false} LookupAbsent(es: seq<Entry>, name: string)
    requires !HasKey(es, name)
    ensures Lookup(es, name) == Error
    decreases es
  {
    if es != [] {
      assert es[0] in es && !HasKey(es[1..], name);
      LookupAbsent(es[1..], name);
    }
  }

  /** `to_dict` field by field. */
  function Written(e: Entry): seq<Entry> {
    Kept(Entry(e.key, AsDict(e.val)))
  }

  lemma ToDictStep(record: seq<Entry>)
    requires record != []
    ensures ToDict(record) == Written(record[0]) + ToDict(record[1..])
  {
    assert AsDictEntries(record)[1..] == AsDictEntries(record[1..]);
  }

  lemma {:induction false} ToDictKeys(record: seq<Entry>, name: string)
    requires !HasKey(record, name)
    ensures !HasKey(ToDict(record), name)
    decreases record
  {
    if record != [] {
      ToDictStep(record);
      assert record[0] in record && !HasKey(record[1..], name);
      ToDictKeys(record[1..], name);
    }
  }

  lemma {:induction false} ConformingKeys(record: seq<Entry>, fields: seq<Field>, name: string)
    requires Conforms(record, fields) && forall f <- fields :: f.name != name
    ensures !HasKey(record, name)
    decreases fields
  {
    if fields != [] {
      assert fields[0] in fields;
      ConformingKeys(record[1..], fields[1..], name);
    }
  }

  /** Round trip: decoding what `to_dict` wrote gives the record back exactly when the
      record survives. */
  lemma RoundTripIff(record: seq<Entry>, fields: seq<Field>)
    requires Conforms(record, fields) && OutputClass(fields)
    ensures Decode(ToDict(record), fields) == Ok(record) <==> Survives(record, fields)
  {
    assert [] + ToDict(record) == ToDict(record);
    RoundTripAfter([], record, fields);
  }

  /** The same, for the fields from some point on: `before` is what was written for the
      earlier ones. */
  lemma {:induction false} RoundTripAfter(before: seq<Entry>, record: seq<Entry>, fields: seq<Field>)
    requires Conforms(record, fields) && OutputClass(fields)
    requires forall f <- fields :: !HasKey(before, f.name)
    ensures Decode(before + ToDict(record), fields) == Ok(record) <==> Survives(record, fields)
    decreases fields, 1
  {
    if fields != [] {
      var before' := before + Written(record[0]);
      WrittenFirst(before, record);
      TailIsOutputClass(fields);
      KeysStayAbsent(before, record[0], fields);
      RoundTripAfter(before', record[1..], fields[1..]);
      RoundTripField(before, record, fields);
      DecodeStep(before + ToDict(record), record, fields);
    }
  }

  lemma WrittenFirst(before: seq<Entry>, record: seq<Entry>)
    requires record != []
    ensures before + ToDict(record) == before + Written(record[0]) + ToDict(record[1..])
  {
    ToDictStep(record);
  }

  lemma KeysStayAbsent(before: seq<Entry>, e: Entry, fields: seq<Field>)
    requires fields != [] && OutputClass(fields) && e.key == fields[0].name
    requires forall f <- fields :: !HasKey(before, f.name)
    ensures forall f <- fields[1..] :: !HasKey(before + Written(e), f.name)
  {
    forall f | f in fields[1..] ensures !HasKey(before + Written(e), f.name) {
      NamedApart(fields, f);
      KeyStaysAbsent(before, e, f.name);
    }
  }

  lemma NamedApart(fields: seq<Field>, f: Field)
    requires fields != [] && OutputClass(fields) && f in fields[1..]
    ensures f in fields && f.name != fields[0].name
  {
    var j :| 0 <= j < |fields[1..]| && fields[1..][j] == f;
    assert fields[0].name != fields[j + 1].name;
  }

  lemma KeyStaysAbsent(before: seq<Entry>, e: Entry, name: string)
    requires !HasKey(before, name) && e.key != name
    ensures !HasKey(before + Written(e), name)
  {
  }

  lemma TailIsOutputClass(fields: seq<Field>)
    requires fields != [] && OutputClass(fields)
    ensures OutputClass(fields[1..])
  {
    forall i, j | 0 <= i < j < |fields[1..]| ensures fields[1..][i].name != fields[1..][j].name {
      assert fields[i + 1].name != fields[j + 1].name;
    }
    forall f | f in fields[1..] ensures f in fields {}
  }

  lemma DecodeStep(es: seq<Entry>, record: seq<Entry>, fields: seq<Field>)
    requires fields != [] && record != [] && record[0].key == fields[0].name
    ensures Decode(es, fields) == Ok(record) <==>
      DecodeField(es, fields[0]) == Ok(record[0].val) && Decode(es, fields[1..]) == Ok(record[1..])
  {
    assert record == [record[0]] + record[1..];
    if Decode(es, fields).Ok? {
      assert Decode(es, fields).value[1..] == Decode(es, fields[1..]).value;
    }
  }

  /** The first field alone. */
  lemma {:induction false} RoundTripField(before: seq<Entry>, record: seq<Entry>, fields: seq<Field>)
    requires fields != [] && Conforms(record, fields) && OutputClass(fields) && !HasKey(before, fields[0].name)
    ensures DecodeField(before + ToDict(record), fields[0]) == Ok(record[0].val) <==>
            ValueSurvives(record[0].val, fields[0])
    decreases fields, 0
  {
    var f, v := fields[0], record[0].val;
    FieldIsWritten(before, record, fields);
    WrittenSameIffNormal(v);
    if f.ty.Class? {
      assert f in fields;
      assert Serialize(AsDict(v)) == Dict(ToDict(v.fields));
      assert [] + ToDict(v.fields) == ToDict(v.fields);
      RoundTripAfter([], v.fields, f.ty.fields);
    }
  }

  lemma FieldIsWritten(before: seq<Entry>, record: seq<Entry>, fields: seq<Field>)
    requires fields != [] && Conforms(record, fields) && OutputClass(fields) && !HasKey(before, fields[0].name)
    ensures Lookup(before + ToDict(record), fields[0].name) ==
      if record[0].val.Null? then Error else Ok(Serialize(AsDict(record[0].val)))
  {
    var name := fields[0].name;
    ToDictStep(record);
    WrittenSameIffNormal(record[0].val);
    LookupConcat(before, ToDict(record), name);
    LookupConcat(Written(record[0]), ToDict(record[1..]), name);
    forall f | f in fields[1..] ensures f.name != name {
      NamedApart(fields, f);
    }
    ConformingKeys(record[1..], fields[1..], name);
    ToDictKeys(record[1..], name);
    LookupAbsent(ToDict(record[1..]), name);
  }

  /** The decoder succeeds exactly if it can fill each field, and fills each by itself: with
      what was written under its name, decoded if its type is a dataclass; else, unless it
      is one or has no default, with its default. */
  lemma {:induction false} DecodedField(es: seq<Entry>, fields: seq<Field>, i: nat)
    requires Decode(es, fields).Ok? && i < |fields|
    ensures |Decode(es, fields).value| == |fields|
    ensures var f, e := fields[i], Decode(es, fields).value[i];
            && e.key == f.name
            && (Lookup(es, f.name).Error? ==> f.ty.Plain? && f.default == Default(e.val))
            && (Lookup(es, f.name).Ok? && f.ty.Plain? ==> e.val == Lookup(es, f.name).value)
            && (Lookup(es, f.name).Ok? && f.ty.Class? && Lookup(es, f.name).value.Dict? ==>
                  && Decode(Lookup(es, f.name).value.entries, f.ty.fields).Ok?
                  && e.val == Record(Decode(Lookup(es, f.name).value.entries, f.ty.fields).value))
    decreases |fields|
  {
    DecodedLength(es, fields);
    if i > 0 {
      DecodedField(es, fields[1..], i - 1);
    }
  }

  lemma {:induction false} DecodedLength(es: seq<Entry>, fields: seq<Field>)
    requires Decode(es, fields).Ok?
    ensures |Decode(es, fields).value| == |fields|
    decreases |fields|
  {
    if fields != [] {
      DecodedLength(es, fields[1..]);
    }
  }

  /** A field that is missing and has no default, or is a dataclass, makes it raise. */
  lemma MissingFieldRaises(es: seq<Entry>, fields: seq<Field>, i: nat)
    requires i < |fields| && Lookup(es, fields[i].name).Error?
    requires fields[i].ty.Class? || fields[i].default.NoDefault?
    ensures Decode(es, fields).Error?
  {
    DecodeFails(es, fields, i);
  }

  /// The decoder as written
  /// ----------------------

  lemma {:induction false} DecodeAll(es: seq<Entry>, fields: seq<Field>, out: seq<Entry>)
    requires |out| == |fields|
    requires forall i :: 0 <= i < |fields| ==>
      out[i].key == fields[i].name && DecodeField(es, fields[i]) == Ok(out[i].val)
    ensures Decode(es, fields) == Ok(out)
    decreases fields
  {
    if fields != [] {
      DecodeAll(es, fields[1..], out[1..]);
      assert out == [out[0]] + out[1..];
    }
  }

  lemma {:induction false} DecodeFails(es: seq<Entry>, fields: seq<Field>, i: nat)
    requires i < |fields| && DecodeField(es, fields[i]).Error?
    ensures Decode(es, fields).Error?
    decreases fields
  {
    if i > 0 {
      DecodeFails(es, fields[1..], i - 1);
    }
  }

  /** Only what the class knows is passed on; nested classes are decoded; the inherited
      ids are set on the finished record. */
  method ToOutputType(es: seq<Entry>, fields: seq<Field>) returns (r: Result<seq<Entry>>)
    requires OutputClass(fields)
    ensures r == Decode(es, fields)
    decreases fields, 1
  {
    var filtered: map<string, Py> := Filter(es, fields);
    var gcpId := if "gcp_id" in filtered then filtered["gcp_id"] else Null;
    var awsArn := if "aws_arn" in filtered then filtered["aws_arn"] else Null;
    filtered := filtered - {"gcp_id", "aws_arn"};
    var nested := DecodeNested(es, fields, filtered);
    if nested.Error? {
      return Error;
    }
    r := Construct(es, fields, nested.value, gcpId, awsArn);
  }

  /** `filtered` has what was written for a constructor argument. */
  predicate Holds(es: seq<Entry>, filtered: map<string, Py>, f: Field) {
    Lookup(es, f.name) == if f.name in filtered then Ok(filtered[f.name]) else Error
  }

  /** `filtered` has the decoded value of a nested class. */
  predicate HoldsDecoded(es: seq<Entry>, filtered: map<string, Py>, f: Field) {
    f.name in filtered && DecodeField(es, f) == Ok(filtered[f.name])
  }

  method DecodeNested(es: seq<Entry>, fields: seq<Field>, given: map<string, Py>) returns (r: Result<map<string, Py>>)
    requires OutputClass(fields)
    requires forall f <- fields :: f.init ==> Holds(es, given, f)
    ensures r.Ok? ==> forall f <- fields :: f.init && f.ty.Plain? ==> Holds(es, r.value, f)
    ensures r.Ok? ==> forall f <- fields :: f.init && f.ty.Class? ==> HoldsDecoded(es, r.value, f)
    ensures r.Error? ==> Decode(es, fields).Error?
    decreases fields, 0
  {
    var filtered := given;
    for i := 0 to |fields|
      invariant forall f <- fields :: f.init && f.ty.Plain? ==> Holds(es, filtered, f)
      invariant forall j :: 0 <= j < i && fields[j].ty.Class? ==> HoldsDecoded(es, filtered, fields[j])
    {
      var f := fields[i];
      if f.ty.Class? {
        assert f in fields;
        var nested := Lookup(es, f.name);
        if nested.Error? {
          DecodeFails(es, fields, i);
          return Error;
        }
        var inner;
        if nested.value.Dict? {
          inner := ToOutputType(nested.value.entries, f.ty.fields);
        } else {
          inner := FromBare(nested.value, f.ty.fields);
        }
        if inner.Error? {
          DecodeFails(es, fields, i);
          return Error;
        }
        OthersNamedApart(fields, i);
        filtered := filtered[f.name := Record(inner.value)];
      }
    }
    return Ok(filtered);
  }

  method FromBare(v: Py, fields: seq<Field>) returns (r: Result<seq<Entry>>)
    ensures r == DecodeBare(v, fields)
  {
    var out: seq<Entry> := [];
    PrependNothing(DecodeBare(v, fields));
    assert fields[0..] == fields;
    for i := 0 to |fields|
      invariant DecodeBare(v, fields) == Prepend(out, DecodeBare(v, fields[i..]))
    {
      var f := fields[i];
      assert fields[i..][1..] == fields[i + 1..];
      if !(v.Str? || v.List?) || Contains(v, f.name) || f.ty.Class? || f.default.NoDefault? {
        return Error;
      }
      PrependOne(out, Entry(f.name, f.default.value), DecodeBare(v, fields[i + 1..]));
      out := out + [Entry(f.name, f.default.value)];
    }
    assert out + [] == out;
    return Ok(out);
  }

  lemma PrependNothing(r: Result<seq<Entry>>)
    ensures Prepend([], r) == r
  {
    assert r.Ok? ==> [] + r.value == r.value;
  }

  function Prepend(out: seq<Entry>, r: Result<seq<Entry>>): Result<seq<Entry>> {
    if r.Ok? then Ok(out + r.value) else Error
  }

  lemma PrependOne(out: seq<Entry>, e: Entry, r: Result<seq<Entry>>)
    ensures Prepend(out, Prepend([e], r)) == Prepend(out + [e], r)
  {
    if r.Ok? {
      assert out + ([e] + r.value) == out + [e] + r.value;
    }
  }

  lemma OthersNamedApart(fields: seq<Field>, i: nat)
    requires OutputClass(fields) && i < |fields|
    ensures forall j :: 0 <= j < |fields| && j != i ==> fields[j].name != fields[i].name
  {
    forall j | 0 <= j < |fields| && j != i ensures fields[j].name != fields[i].name {
      if j < i {
        assert fields[j].name != fields[i].name;
      }
    }
  }

  method Filter(es: seq<Entry>, fields: seq<Field>) returns (filtered: map<string, Py>)
    ensures forall f <- fields :: f.name in filtered <==> Lookup(es, f.name).Ok?
    ensures forall n <- filtered :: (exists f <- fields :: f.name == n) && Lookup(es, n) == Ok(filtered[n])
  {
    filtered := map[];
    for i := 0 to |fields|
      invariant forall f <- fields[..i] :: f.name in filtered <==> Lookup(es, f.name).Ok?
      invariant forall n <- filtered :: (exists f <- fields :: f.name == n) && Lookup(es, n) == Ok(filtered[n])
    {
      var v := Lookup(es, fields[i].name);
      if v.Ok? {
        filtered := filtered[fields[i].name := v.value];
      }
    }
  }

  /** `init_fn(**filtered)` and the two assignments after it. */
  method Construct(es: seq<Entry>, fields: seq<Field>, filtered: map<string, Py>, gcpId: Py, awsArn: Py)
    returns (r: Result<seq<Entry>>)
    requires OutputClass(fields)
    requires forall f <- fields :: f.init && f.ty.Class? ==> HoldsDecoded(es, filtered, f)
    requires forall f <- fields :: f.init && f.ty.Plain? ==> Holds(es, filtered, f)
    requires forall f <- fields :: !f.init ==>
      (if f.name == "gcp_id" then gcpId else awsArn) ==
      (if Lookup(es, f.name).Ok? then Lookup(es, f.name).value else Null)
    ensures r == Decode(es, fields)
  {
    var out: seq<Entry> := [];
    for i := 0 to |fields|
      invariant |out| == i
      invariant forall j :: 0 <= j < i ==> out[j].key == fields[j].name && DecodeField(es, fields[j]) == Ok(out[j].val)
    {
      var f := fields[i];
      assert f in fields;
      if !f.init {
        var given := if f.name == "gcp_id" then gcpId else awsArn;
        out := out + [Entry(f.name, if gcpId.Null? && awsArn.Null? then f.default.value else given)];
      } else if f.name in filtered {
        out := out + [Entry(f.name, filtered[f.name])];
      } else if f.default.Default? {
        out := out + [Entry(f.name, f.default.value)];
      } else {
        DecodeFails(es, fields, i);
        return Error;
      }
    }
    DecodeAll(es, fields, out);
    return Ok(out);
  }
}
