/** The structured-query primitives: field references, projections and
    collection selectors with their `data()` shapes, the JSON encoder hook
    that renders library objects through `data()`, and the records of the
    orders, cursors and filters the query builder constructs. */
module StructuredQuery {
  import opened PyData
  import opened Json

  /** `FieldReference(p).data()`: the one-key dict `{"fieldPath": p}`. */
  function FieldReferenceData(p: Py): (r: Py)
    ensures r.PDict? && Keys(r.entries) == [PStr("fieldPath")]
    ensures DictGet(r.entries, PStr("fieldPath")) == Some(p)
  {
    Single("fieldPath", p)
  }

  /** A projection holds whatever list it was constructed with. */
  datatype Projection = Projection(fields: Py)

  /** `Projection(fs).data()`: `{"fields": fs}`, the list itself. */
  function ProjectionData(pr: Projection): (r: Py)
    ensures r.PDict? && Keys(r.entries) == [PStr("fields")]
    ensures DictGet(r.entries, PStr("fields")) == Some(pr.fields)
  {
    Single("fields", pr.fields)
  }

  predicate IsFieldReference(v: Py)
  {
    v.PObj? && v.obj.FieldReference?
  }

  /** The `fields` setter: it walks the list and raises ValueError at an
      element that is not a field reference; it never stores the list, so the
      projection comes back unchanged. */
  function SetFields(pr: Projection, fields: seq<Py>): (r: Result<Projection>)
    ensures r.Ok? <==> forall i :: 0 <= i < |fields| ==> IsFieldReference(fields[i])
    ensures r.Err? ==> r.error == ValueError
    ensures r.Ok? ==> r.value == pr
  {
    if fields == [] then Ok(pr)
    else if !IsFieldReference(fields[0]) then Err(ValueError)
    else SetFields(pr, fields[1..])
  }

  /** The list `[FieldReference(field_path=p) for p in paths]`. */
  function FieldReferences(paths: seq<Py>): (r: seq<Py>)
    ensures |r| == |paths|
    ensures forall i :: 0 <= i < |paths| ==> r[i] == PObj(FieldReference(paths[i]))
  {
    seq(|paths|, i requires 0 <= i < |paths| => PObj(FieldReference(paths[i])))
  }

  /** A collection selector holds whatever it was constructed with. */
  datatype CollectionSelector = CollectionSelector(collections: Py)

  /** `CollectionSelector(c).data()`: a one-element list holding
      `{"collectionId": c[0], "allDescendants": c[1]}`; indexing `c` is where
      it can fail. */
  function CollectionSelectorData(cs: CollectionSelector): (r: Result<Py>)
    ensures (cs.collections.PTuple? || cs.collections.PList?) ==>
              (r.Ok? <==> |cs.collections.items| >= 2)
    ensures (cs.collections.PTuple? || cs.collections.PList?) && r.Err? ==> r.error == IndexError
    ensures r.Ok? ==> GetItem(cs.collections, 0).Ok? && GetItem(cs.collections, 1).Ok? &&
                      r.value == PList([CollectionEntry(GetItem(cs.collections, 0).value,
                                                        GetItem(cs.collections, 1).value)])
  {
    var id :- GetItem(cs.collections, 0);
    var all :- GetItem(cs.collections, 1);
    Ok(PList([CollectionEntry(id, all)]))
  }

  /** `{"collectionId": id, "allDescendants": all}`. */
  function CollectionEntry(id: Py, all: Py): (r: Py)
    ensures r.PDict? && Keys(r.entries) == [PStr("collectionId"), PStr("allDescendants")]
    ensures DictGet(r.entries, PStr("collectionId")) == Some(id)
    ensures DictGet(r.entries, PStr("allDescendants")) == Some(all)
  {
    PDict([(PStr("collectionId"), id), (PStr("allDescendants"), all)])
  }

  /** `StructuredQueryEncoder.default(o)`: `o.data()`. A `Value` instance's
      `data()` is the wire object fixed when it was built. */
  function EncoderDefault(o: Obj): (r: Py)
    ensures o.FieldReference? ==> r == FieldReferenceData(o.fieldPath)
    ensures o.ValueInstance? ==> r == o.valueType
  {
    match o
    case FieldReference(p) => FieldReferenceData(p)
    case ValueInstance(w) => w
  }

  /** No library object left in a value position, at any depth. Dict keys
      are not looked at: `json.dumps` never passes a key to the hook. */
  predicate ObjectFree(v: Py)
  {
    match v
    case PObj(_) => false
    case PTuple(xs) => forall i :: 0 <= i < |xs| ==> ObjectFree(xs[i])
    case PList(xs) => forall i :: 0 <= i < |xs| ==> ObjectFree(xs[i])
    case PDict(d) => forall i :: 0 <= i < |d| ==> ObjectFree(d[i].1)
    case _ => true
  }

  /** What `json.dumps(v, cls=StructuredQueryEncoder)` writes out: every
      library object the encoder meets is replaced by its `data()`, which is
      written in turn; everything else is written as it is. */
  function Rendered(v: Py): (r: Py)
    ensures ObjectFree(r)
    ensures v.PDict? ==> r.PDict? && |r.entries| == |v.entries| &&
                         forall i :: 0 <= i < |v.entries| ==> r.entries[i].0 == v.entries[i].0
    ensures v.PTuple? ==> r.PTuple? && |r.items| == |v.items|
    ensures v.PList? ==> r.PList? && |r.items| == |v.items|
    ensures v.PNone? || v.PBool? || v.PInt? || v.PFloat? || v.PStr? ==> r == v
    decreases v
  {
    match v
    case PObj(FieldReference(p)) => Single("fieldPath", Rendered(p))
    case PObj(ValueInstance(w)) => Rendered(w)
    case PTuple(xs) => PTuple(seq(|xs|, i requires 0 <= i < |xs| => Rendered(xs[i])))
    case PList(xs) => PList(seq(|xs|, i requires 0 <= i < |xs| => Rendered(xs[i])))
    case PDict(d) => PDict(seq(|d|, i requires 0 <= i < |d| => (d[i].0, Rendered(d[i].1))))
    case _ => v
  }

  /** Data without objects is written as it is. */
  lemma {:induction false} RenderedKeeps(v: Py)
    requires ObjectFree(v)
    ensures Rendered(v) == v
    decreases v
  {
    match v
    case PTuple(xs) =>
      forall i | 0 <= i < |xs| ensures Rendered(xs[i]) == xs[i] {
        RenderedKeeps(xs[i]);
      }
      assert Rendered(v).items == xs;
    case PList(xs) =>
      forall i | 0 <= i < |xs| ensures Rendered(xs[i]) == xs[i] {
        RenderedKeeps(xs[i]);
      }
      assert Rendered(v).items == xs;
    case PDict(d) =>
      forall i | 0 <= i < |d| ensures Rendered(d[i].1) == d[i].1 {
        RenderedKeeps(d[i].1);
      }
      assert Rendered(v).entries == d;
    case _ =>
  }

  /** `json.loads(json.dumps(v, cls=StructuredQueryEncoder))`: objects go
      through the hook, then the plain JSON round trip converts the dict keys
      to strs (TypeError for a key of any other kind), turns tuples into
      lists and keeps one entry per key. */
  function Serialize(v: Py, floatText: Float -> string): (r: Result<Py>)
    ensures r.Ok? <==> Dumpable(Rendered(v))
    ensures r.Err? ==> r.error == TypeError
    ensures r.Ok? ==> IsPlain(r.value)
  {
    PlainJson(Rendered(v), floatText)
  }

  /** The encoder renders an object exactly as it renders the object's
      `data()`. */
  lemma {:induction false} SerializeUsesHook(o: Obj, floatText: Float -> string)
    ensures Serialize(PObj(o), floatText) == Serialize(EncoderDefault(o), floatText)
  {
    if o.FieldReference? {
      var d := FieldReferenceData(o.fieldPath).entries;
      assert Rendered(PDict(d)).entries == [(PStr("fieldPath"), Rendered(o.fieldPath))];
    }
  }

  /** Rendering a dict keeps its keys and renders the value each key holds. */
  lemma {:induction false} RenderedDict(d: seq<(Py, Py)>)
    ensures Rendered(PDict(d)).PDict?
    ensures forall key :: key in Keys(Rendered(PDict(d)).entries) <==> key in Keys(d)
    ensures forall key :: key in Keys(d) ==> DictValue(Rendered(PDict(d)).entries, key) == Rendered(DictValue(d, key))
  {
    var r := Rendered(PDict(d)).entries;
    assert forall i :: 0 <= i < |d| ==> r[i] == (d[i].0, Rendered(d[i].1));
    forall key ensures (key in Keys(r) <==> key in Keys(d)) && (key in Keys(d) ==> DictValue(r, key) == Rendered(DictValue(d, key))) {
      KeysAgree(d, r, key);
    }
  }

  /** A one-key dict goes through the round trip as its value does, and
      comes back with the same key. */
  lemma {:induction false} SerializeSingle(name: string, x: Py, floatText: Float -> string)
    requires Serialize(Single(name, x), floatText).Ok?
    ensures Serialize(x, floatText).Ok?
    ensures Serialize(Single(name, x), floatText) == Ok(Single(name, Serialize(x, floatText).value))
  {
    assert Rendered(Single(name, x)).entries == [(PStr(name), Rendered(x))];
    SinglePair(PStr(name), Rendered(x), floatText);
  }

  /** A dict keyed by strs comes back with the same keys, each holding the
      round trip of the value the dict gives it. */
  lemma {:induction false} SerializeStrKeys(d: seq<(Py, Py)>, floatText: Float -> string)
    requires forall j :: 0 <= j < |d| ==> d[j].0.PStr?
    requires Serialize(PDict(d), floatText).Ok?
    ensures Serialize(PDict(d), floatText).value.PDict?
    ensures forall key :: key in Keys(Serialize(PDict(d), floatText).value.entries) <==> key in Keys(d)
    ensures forall key :: key in Keys(d) ==>
              Serialize(DictValue(d, key), floatText) == Ok(DictValue(Serialize(PDict(d), floatText).value.entries, key))
  {
    RenderedDict(d);
    var r := Rendered(PDict(d)).entries;
    StrKeyedDict(r, floatText);
  }

  /** Dict keys of the scalar kinds, at every depth, in every pair; objects
      are looked through to the data they stand for. */
  predicate ScalarKeys(v: Py)
  {
    match v
    case PObj(FieldReference(p)) => ScalarKeys(p)
    case PObj(ValueInstance(w)) => ScalarKeys(w)
    case PTuple(xs) => forall i :: 0 <= i < |xs| ==> ScalarKeys(xs[i])
    case PList(xs) => forall i :: 0 <= i < |xs| ==> ScalarKeys(xs[i])
    case PDict(d) => forall i :: 0 <= i < |d| ==> KeyDumpable(d[i].0) && ScalarKeys(d[i].1)
    case _ => true
  }

  /** Once the hook has removed the objects, only a dict key can make the
      round trip fail: with scalar keys throughout it succeeds. */
  lemma {:induction false} ScalarKeysDumpable(v: Py)
    requires ScalarKeys(v)
    ensures Dumpable(Rendered(v))
    decreases v
  {
    match v
    case PObj(FieldReference(p)) =>
      ScalarKeysDumpable(p);
      PairsDumpable([(PStr("fieldPath"), Rendered(p))]);
    case PObj(ValueInstance(w)) =>
      ScalarKeysDumpable(w);
    case PTuple(xs) =>
      forall i | 0 <= i < |xs| ensures Dumpable(Rendered(xs[i])) {
        ScalarKeysDumpable(xs[i]);
      }
    case PList(xs) =>
      forall i | 0 <= i < |xs| ensures Dumpable(Rendered(xs[i])) {
        ScalarKeysDumpable(xs[i]);
      }
    case PDict(d) =>
      var r := Rendered(v).entries;
      forall i | 0 <= i < |d| ensures KeyDumpable(r[i].0) && Dumpable(r[i].1) {
        ScalarKeysDumpable(d[i].1);
      }
      PairsDumpable(r);
    case _ =>
  }

  /** The round trip succeeds for data whose dict keys are all scalars. */
  lemma {:induction false} SerializeScalarKeys(v: Py, floatText: Float -> string)
    requires ScalarKeys(v)
    ensures Serialize(v, floatText).Ok?
  {
    ScalarKeysDumpable(v);
  }

  /** A key `json.dumps` cannot write, such as a tuple, is a TypeError. */
  lemma {:induction false} BadKeyRefused(k: Py, x: Py, floatText: Float -> string)
    requires !KeyDumpable(k)
    ensures Serialize(PDict([(k, x)]), floatText) == Err(TypeError)
  {
    var d := Rendered(PDict([(k, x)])).entries;
    assert d == [(k, Rendered(x))];
    assert Keys(d) == [k];
    assert Items(d)[0].0 == k;
  }

  /** An int key comes back as its decimal text. */
  lemma {:induction false} IntKeyConverted(i: int, x: Py, floatText: Float -> string)
    requires IsPlain(x)
    ensures Serialize(PDict([(PInt(i), x)]), floatText) == Ok(PDict([(PStr(IntText(i)), x)]))
  {
    PlainObjectFree(x);
    RenderedKeeps(PDict([(PInt(i), x)]));
    SingleDumped(PInt(i), x, floatText);
  }

  /** Plain data has no objects. */
  lemma {:induction false} PlainObjectFree(v: Py)
    requires IsPlain(v)
    ensures ObjectFree(v)
    decreases v
  {
    match v
    case PList(xs) =>
      forall i | 0 <= i < |xs| ensures ObjectFree(xs[i]) {
        PlainObjectFree(xs[i]);
      }
    case PDict(d) =>
      forall i | 0 <= i < |d| ensures ObjectFree(d[i].1) {
        PlainObjectFree(d[i].1);
      }
    case _ =>
  }

  /** Plain JSON survives the round trip unchanged. */
  lemma {:induction false} SerializeKeepsJson(v: Py, floatText: Float -> string)
    requires IsPlain(v)
    ensures Serialize(v, floatText) == Ok(v)
  {
    PlainObjectFree(v);
    RenderedKeeps(v);
    PlainJsonKeeps(v, floatText);
  }

  /** Serializing what serializing returned changes nothing. */
  lemma {:induction false} SerializeIdempotent(v: Py, floatText: Float -> string)
    requires Serialize(v, floatText).Ok?
    ensures Serialize(Serialize(v, floatText).value, floatText) == Serialize(v, floatText)
  {
    SerializeKeepsJson(Serialize(v, floatText).value, floatText);
  }

  /** The sort direction of an order. */
  datatype Direction = Ascending | Descending | DirectionUnspecified

  /** The comparison operators of a field filter. */
  datatype FieldOperator =
    | LessThan
    | LessThanOrEqual
    | GreaterThan
    | GreaterThanOrEqual
    | Equal
    | NotEqual
    | ArrayContains
    | In
    | ArrayContainsAny
    | NotIn

  /** The operators of a unary filter. */
  datatype UnaryOperator = IsNull | IsNan

  /** What the query builder passes to `Filter(...)`: a field filter with an
      operator and a `Value`, or a unary filter. */
  datatype FilterClause =
    | FieldFilter(field: Obj, op: FieldOperator, value: Obj)
    | UnaryFilter(field: Obj, unaryOp: UnaryOperator)

  /** `Order(field=..., direction=...)`. */
  datatype Order = Order(field: Obj, direction: Direction)

  /** `Cursor(before=..., values=...)`. */
  datatype Cursor = Cursor(before: bool, values: Obj)

  /** The `data()` of `Filter`, `Order` and `Cursor`, whose definitions are
      not part of this model; `Order.data()` is a list, since the builder
      concatenates it. */
  datatype Renderers = Renderers(filter: FilterClause -> Py, order: Order -> seq<Py>, cursor: Cursor -> Py)
}
