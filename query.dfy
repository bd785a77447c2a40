/** The immutable query builder. A query holds eight clauses, each `None`
    until a builder sets it; every builder checks its arguments and returns a
    new query with exactly one clause replaced. `to_json` writes the set
    clauses under `"structuredQuery"`. */
module Query {
  import opened PyData
  import opened Values
  import opened StructuredQuery
  import opened Json

  /** The equality operator, the only one allowed with None or NaN. */
  const EqOp: string := "=="

  /** The operator table, in its declaration order. */
  const ComparisonOperators: seq<(string, FieldOperator)> := [
    ("<", LessThan),
    ("<=", LessThanOrEqual),
    (">", GreaterThan),
    (">=", GreaterThanOrEqual),
    (EqOp, Equal),
    ("!=", NotEqual),
    ("array_contains", ArrayContains),
    ("in", In),
    ("array_contains_any", ArrayContainsAny),
    ("not_in", NotIn)
  ]

  /** The table's keys in Python's string order, as the error message lists
      them. */
  const SortedChoices: seq<string> :=
    ["!=", "<", "<=", "==", ">", ">=", "array_contains", "array_contains_any", "in", "not_in"]

  /** Python's `<` on strings: code point by code point, a proper prefix first. */
  predicate StrLess(a: string, b: string)
  {
    if a == [] then b != []
    else b != [] && (a[0] < b[0] || (a[0] == b[0] && StrLess(a[1..], b[1..])))
  }

  lemma {:induction false} StrLessTransitive(a: string, b: string, c: string)
    requires StrLess(a, b) && StrLess(b, c)
    ensures StrLess(a, c)
    decreases |a|
  {
    if a != [] && a[0] == b[0] && b[0] == c[0] {
      StrLessTransitive(a[1..], b[1..], c[1..]);
    }
  }

  /** A string comes before any longer string it begins. */
  lemma {:induction false} PrefixLess(a: string, b: string)
    requires b != []
    ensures StrLess(a, a + b)
    decreases |a|
  {
    if a != [] {
      assert (a + b)[1..] == a[1..] + b;
      PrefixLess(a[1..], b);
    }
  }

  /** The choices that extend the one before them come after it. */
  lemma {:induction false} PrefixPairsSorted()
    ensures StrLess(SortedChoices[1], SortedChoices[2])
    ensures StrLess(SortedChoices[4], SortedChoices[5])
    ensures StrLess(SortedChoices[6], SortedChoices[7])
  {
    var s := SortedChoices;
    PrefixLess("<", "=");
    assert s[2] == "<" + "=";
    PrefixLess(">", "=");
    assert s[5] == ">" + "=";
    PrefixLess("array_contains", "_any");
    assert s[7] == "array_contains" + "_any";
  }

  /** The other neighbouring choices differ in their first character. */
  lemma {:induction false} FirstCharPairsSorted()
    ensures forall k :: k in {0, 2, 3, 5, 7, 8} ==> StrLess(SortedChoices[k], SortedChoices[k + 1])
  {
    forall k | k in {0, 2, 3, 5, 7, 8} ensures StrLess(SortedChoices[k], SortedChoices[k + 1]) {
      assert SortedChoices[k][0] < SortedChoices[k + 1][0];
    }
  }

  /** Each choice comes before the next one. */
  lemma {:induction false} ChoicesPairSorted(k: nat)
    requires k < |SortedChoices| - 1
    ensures StrLess(SortedChoices[k], SortedChoices[k + 1])
  {
    PrefixPairsSorted();
    FirstCharPairsSorted();
    if k !in {1, 4, 6} {
      assert k in {0, 2, 3, 5, 7, 8};
    }
  }

  /** A list whose neighbours are in order is in order. */
  lemma {:induction false} SortedFromAdjacent(s: seq<string>)
    requires forall k :: 0 <= k < |s| - 1 ==> StrLess(s[k], s[k + 1])
    ensures forall i, j :: 0 <= i < j < |s| ==> StrLess(s[i], s[j])
  {
    forall i, j | 0 <= i < j < |s| ensures StrLess(s[i], s[j]) {
      var k := i;
      while k + 1 < j
        invariant i <= k < j && StrLess(s[i], s[k + 1])
      {
        StrLessTransitive(s[i], s[k + 1], s[k + 2]);
        k := k + 1;
      }
    }
  }

  /** The operator strings in table order. */
  function OperatorStrings(): (r: seq<string>)
    ensures |r| == |ComparisonOperators|
    ensures forall i :: 0 <= i < |r| ==> r[i] == ComparisonOperators[i].0
  {
    seq(|ComparisonOperators|, i requires 0 <= i < |ComparisonOperators| => ComparisonOperators[i].0)
  }

  /** The listed choices are the table's keys, each once, in ascending order. */
  lemma {:induction false} SortedChoicesSorted()
    ensures forall i, j :: 0 <= i < j < |SortedChoices| ==> StrLess(SortedChoices[i], SortedChoices[j])
    ensures |SortedChoices| == |OperatorStrings()|
    ensures forall i :: 0 <= i < |SortedChoices| ==> SortedChoices[i] in OperatorStrings()
    ensures forall i :: 0 <= i < |OperatorStrings()| ==> OperatorStrings()[i] in SortedChoices
  {
    forall k | 0 <= k < |SortedChoices| - 1 ensures StrLess(SortedChoices[k], SortedChoices[k + 1]) {
      ChoicesPairSorted(k);
    }
    SortedFromAdjacent(SortedChoices);
    var o := OperatorStrings();
    assert SortedChoices == [o[5], o[0], o[1], o[4], o[2], o[3], o[6], o[8], o[7], o[9]];
  }

  /** The ten operator strings are distinct and name ten distinct operators. */
  lemma {:induction false} OperatorsDistinct()
    ensures forall i, j :: 0 <= i < j < |ComparisonOperators| ==>
              ComparisonOperators[i].0 != ComparisonOperators[j].0 &&
              ComparisonOperators[i].1 != ComparisonOperators[j].1
  {
    var t := ComparisonOperators;
    forall i, j | 0 <= i < j < |t| ensures t[i].0 != t[j].0 && t[i].1 != t[j].1 {
    }
  }

  /** The operator a string names, by the first matching table row. */
  function OperatorLookup(table: seq<(string, FieldOperator)>, op: string): (r: Option<FieldOperator>)
    ensures r.Some? <==> exists i :: 0 <= i < |table| && table[i].0 == op
    ensures r.Some? ==> (op, r.value) in table
  {
    if table == [] then None
    else if table[0].0 == op then Some(table[0].1)
    else OperatorLookup(table[1..], op)
  }

  /** `_field_filter_op_string(op)`: the table's operator, or a ValueError
      listing the sorted choices. */
  function FieldFilterOpString(op: string): (r: Result<FieldOperator>)
    ensures r.Ok? <==> op in OperatorStrings()
    ensures r.Ok? ==> (op, r.value) in ComparisonOperators
    ensures r.Err? ==> r.error == UnknownOperator(op, SortedChoices)
  {
    match OperatorLookup(ComparisonOperators, op)
    case Some(o) => Ok(o)
    case None => Err(UnknownOperator(op, SortedChoices))
  }

  /** Each of the ten strings reads back as the operator it is paired with. */
  lemma {:induction false} OperatorTableRoundTrip(i: nat)
    requires i < |ComparisonOperators|
    ensures FieldFilterOpString(ComparisonOperators[i].0) == Ok(ComparisonOperators[i].1)
  {
    OperatorsDistinct();
    var r := FieldFilterOpString(ComparisonOperators[i].0);
    assert ComparisonOperators[i].0 == OperatorStrings()[i];
    var j :| 0 <= j < |ComparisonOperators| && ComparisonOperators[j] == (ComparisonOperators[i].0, r.value);
    assert i == j;
  }

  /** `_isnan(v)`: any value is allowed; only a float can be NaN. */
  function IsNaNValue(v: Py): (r: bool)
    ensures !v.PFloat? ==> !r
    ensures v.PFloat? ==> (r <==> IsNaN(v.f))
  {
    v.PFloat? && IsNaN(v.f)
  }

  /** Python's `float("nan")` and a negative NaN are NaN; infinity, the
      string "nan" and None are not. */
  lemma {:induction false} IsNaNValueCases()
    ensures IsNaNValue(PFloat(Float(0x7FF8_0000_0000_0000)))
    ensures IsNaNValue(PFloat(Float(0xFFF8_0000_0000_0001)))
    ensures !IsNaNValue(PFloat(Float(0x7FF0_0000_0000_0000)))
    ensures !IsNaNValue(PStr("nan")) && !IsNaNValue(PNone)
  {
  }

  /** A query: each clause is `None` until set. */
  datatype Query = Query(
    select: Py,
    fromColl: Py,
    where: Py,
    orderBy: Py,
    startAt: Py,
    endAt: Py,
    offset: Py,
    limit: Py)

  /** `Query()`. */
  const Empty: Query := Query(PNone, PNone, PNone, PNone, PNone, PNone, PNone, PNone)

  /** `__eq__` between two queries: clause by clause. */
  function Eq(a: Query, b: Query): (r: bool)
    ensures r <==> a == b
  {
    a.select == b.select && a.fromColl == b.fromColl && a.where == b.where &&
    a.orderBy == b.orderBy && a.startAt == b.startAt && a.endAt == b.endAt &&
    a.offset == b.offset && a.limit == b.limit
  }

  /** `select(field_paths)`: TypeError unless every path is a str; then the
      projection of the paths replaces the select clause. */
  function Select(q: Query, paths: seq<Py>): (r: Result<Query>)
    ensures r.Ok? <==> forall i :: 0 <= i < |paths| ==> paths[i].PStr?
    ensures r.Err? ==> r.error == TypeError
    ensures r.Ok? ==> r.value == q.(select := r.value.select)
    ensures r.Ok? ==> r.value.select == ProjectionData(Projection(PList(FieldReferences(paths))))
  {
    if exists i :: 0 <= i < |paths| && !paths[i].PStr? then Err(TypeError)
    else Ok(q.(select := ProjectionData(Projection(PList(FieldReferences(paths))))))
  }

  /** Once serialized, the select clause is `{"fields": [{"fieldPath": p}, ...]}`
      with the paths in the order given. */
  lemma {:induction false} SelectJson(q: Query, paths: seq<Py>, floatText: Float -> string)
    requires Select(q, paths).Ok?
    ensures Serialize(Select(q, paths).value.select, floatText) ==
            Ok(Single("fields", PList(seq(|paths|, i requires 0 <= i < |paths| => Single("fieldPath", paths[i])))))
  {
    var refs := FieldReferences(paths);
    var written := seq(|paths|, i requires 0 <= i < |paths| => Single("fieldPath", paths[i]));
    var rendered := Rendered(PList(refs));
    forall i | 0 <= i < |paths| ensures rendered.items[i] == written[i] {
      assert Rendered(refs[i]) == Single("fieldPath", Rendered(paths[i]));
    }
    assert rendered.items == written;
    var d := Select(q, paths).value.select.entries;
    assert Rendered(PDict(d)).entries == [(PStr("fields"), rendered)];
    var w := Single("fields", PList(written));
    forall i | 0 <= i < |paths| ensures IsPlain(written[i]) {
      assert written[i].entries == [(PStr("fieldPath"), paths[i])];
    }
    assert IsPlain(w);
    PlainJsonKeeps(w, floatText);
  }

  /** `fromCollection(collection)`: the collection must have length 2
      (ValueError), a str first (TypeError) and a bool second (TypeError);
      its selector data replaces the from clause. */
  function FromCollection(q: Query, collection: Py): (r: Result<Query>)
    ensures Len(collection).Err? ==> r == Err(TypeError)
    ensures (collection.PTuple? || collection.PList?) ==>
              (r.Ok? <==> |collection.items| == 2 && collection.items[0].PStr? && collection.items[1].PBool?)
    ensures (collection.PTuple? || collection.PList?) && |collection.items| != 2 ==> r == Err(ValueError)
    ensures r.Ok? ==> r.value == q.(fromColl := r.value.fromColl)
    ensures (collection.PTuple? || collection.PList?) && |collection.items| == 2 && !collection.items[0].PStr? ==>
              r == Err(TypeError)
    ensures ((collection.PTuple? || collection.PList?) && |collection.items| == 2 && collection.items[0].PStr? &&
             !collection.items[1].PBool?) ==> r == Err(TypeError)
    ensures r.Ok? ==> GetItem(collection, 0).Ok? && GetItem(collection, 0).value.PStr? &&
                      GetItem(collection, 1).Ok? && GetItem(collection, 1).value.PBool? &&
                      r.value.fromColl == PList([CollectionEntry(GetItem(collection, 0).value,
                                                                 GetItem(collection, 1).value)])
    ensures (collection.PTuple? || collection.PList?) && r.Ok? ==>
              r.value.fromColl == PList([CollectionEntry(collection.items[0], collection.items[1])])
  {
    var n :- Len(collection);
    if n != 2 then Err(ValueError)
    else
      var id :- GetItem(collection, 0);
      if !id.PStr? then Err(TypeError)
      else
        var all :- GetItem(collection, 1);
        if !all.PBool? then Err(TypeError)
        else
          Ok(q.(fromColl := CollectionSelectorData(CollectionSelector(collection)).value))
  }

  /** The type checks `where` makes before it looks at the value: field and
      op are strs, and a truthy key is a str. */
  predicate FilterArgsChecked(field: Py, op: Py, key: Py)
  {
    field.PStr? && op.PStr? && !(Truthy(key) && !key.PStr?)
  }

  /** The filter `where(field, op, key, value)` builds. Checks run in the
      source's order: field and op must be str, a truthy key must be str;
      None and NaN take a unary filter and only "=="; otherwise the operator
      is looked up before the value is encoded. */
  function BuildFilter(field: Py, op: Py, key: Py, value: Py, clock: Clock): (r: Result<FilterClause>)
    ensures !field.PStr? || !op.PStr? || (Truthy(key) && !key.PStr?) ==> r == Err(TypeError)
    ensures field.PStr? && op.PStr? && (value.PNone? || IsNaNValue(value)) ==>
              (r.Ok? <==> !(Truthy(key) && !key.PStr?) && op.s == EqOp)
    ensures r.Ok? && value.PNone? ==> r.value == UnaryFilter(FieldReference(field), IsNull)
    ensures r.Ok? && IsNaNValue(value) ==> r.value == UnaryFilter(FieldReference(field), IsNan)
    ensures FilterArgsChecked(field, op, key) && (value.PNone? || IsNaNValue(value)) && op.s != EqOp ==>
              r == Err(ValueError)
    ensures FilterArgsChecked(field, op, key) && !value.PNone? && !IsNaNValue(value) && op.s in OperatorStrings() ==>
              (r.Ok? <==> Encode(key, value, clock).Ok?)
    ensures (FilterArgsChecked(field, op, key) && !value.PNone? && !IsNaNValue(value) && op.s in OperatorStrings() &&
             Encode(key, value, clock).Err?) ==> r == Err(Encode(key, value, clock).error)
    ensures r.Ok? && !value.PNone? && !IsNaNValue(value) ==>
              r.value.FieldFilter? && r.value.field == FieldReference(field) &&
              (op.s, r.value.op) in ComparisonOperators &&
              Encode(key, value, clock).Ok? && r.value.value == ValueInstance(Encode(key, value, clock).value)
    ensures (FilterArgsChecked(field, op, key) && !value.PNone? && !IsNaNValue(value) &&
             op.s !in OperatorStrings()) ==> r == Err(UnknownOperator(op.s, SortedChoices))
  {
    if !field.PStr? || !op.PStr? then Err(TypeError)
    else if Truthy(key) && !key.PStr? then Err(TypeError)
    else if value.PNone? then
      if op.s != EqOp then Err(ValueError) else Ok(UnaryFilter(FieldReference(field), IsNull))
    else if IsNaNValue(value) then
      if op.s != EqOp then Err(ValueError) else Ok(UnaryFilter(FieldReference(field), IsNan))
    else
      var o :- FieldFilterOpString(op.s);
      var w :- Encode(key, value, clock);
      Ok(FieldFilter(FieldReference(field), o, ValueInstance(w)))
  }

  /** `where(...)`: the rendered filter replaces the where clause. */
  function Where(q: Query, field: Py, op: Py, key: Py, value: Py, clock: Clock, render: Renderers): (r: Result<Query>)
    ensures r.Ok? <==> BuildFilter(field, op, key, value, clock).Ok?
    ensures r.Err? ==> r.error == BuildFilter(field, op, key, value, clock).error
    ensures r.Ok? ==> r.value == q.(where := render.filter(BuildFilter(field, op, key, value, clock).value))
  {
    var clause :- BuildFilter(field, op, key, value, clock);
    Ok(q.(where := render.filter(clause)))
  }

  /** The three direction strings `orderBy` accepts. */
  function ParseDirection(direction: Py): (r: Result<Direction>)
    ensures r.Ok? <==> direction in [PStr("ASCENDING"), PStr("DESCENDING"), PStr("DIRECTION_UNSPECIFIED")]
    ensures r.Err? ==> r.error == ValueError
  {
    if direction == PStr("ASCENDING") then Ok(Ascending)
    else if direction == PStr("DESCENDING") then Ok(Descending)
    else if direction == PStr("DIRECTION_UNSPECIFIED") then Ok(DirectionUnspecified)
    else Err(ValueError)
  }

  /** `orderBy(field, direction)`: the field must be str and the direction
      one of the three; the new order's list is appended to the orders
      already there (list + list; None counts as no orders yet). */
  function OrderBy(q: Query, field: Py, direction: Py, render: Renderers): (r: Result<Query>)
    ensures !field.PStr? ==> r == Err(TypeError)
    ensures field.PStr? && ParseDirection(direction).Err? ==> r == Err(ValueError)
    ensures r.Ok? ==> r.value == q.(orderBy := r.value.orderBy)
    ensures r.Ok? ==> r.value.orderBy.PList? &&
                      r.value.orderBy.items ==
                        (if q.orderBy.PList? then q.orderBy.items else []) +
                        render.order(Order(FieldReference(field), ParseDirection(direction).value))
    ensures field.PStr? && ParseDirection(direction).Ok? ==> (r.Ok? <==> q.orderBy.PNone? || q.orderBy.PList?)
  {
    if !field.PStr? then Err(TypeError)
    else
      var dir :- ParseDirection(direction);
      var added := render.order(Order(FieldReference(field), dir));
      if q.orderBy.PNone? then Ok(q.(orderBy := PList(added)))
      else if q.orderBy.PList? then Ok(q.(orderBy := PList(q.orderBy.items + added)))
      else Err(TypeError)
  }

  /** Chained `orderBy` calls keep call order. */
  lemma {:induction false} OrderByAppends(q: Query, f1: Py, d1: Py, f2: Py, d2: Py, render: Renderers)
    requires q.orderBy.PNone?
    requires OrderBy(q, f1, d1, render).Ok?
    ensures OrderBy(OrderBy(q, f1, d1, render).value, f2, d2, render).Ok? <==>
              f2.PStr? && ParseDirection(d2).Ok?
    ensures OrderBy(OrderBy(q, f1, d1, render).value, f2, d2, render).Ok? ==>
              OrderBy(OrderBy(q, f1, d1, render).value, f2, d2, render).value.orderBy ==
                PList(render.order(Order(FieldReference(f1), ParseDirection(d1).value)) +
                      render.order(Order(FieldReference(f2), ParseDirection(d2).value)))
  {
  }

  /** The cursor `startAt`/`endAt` build: the key must be str and `before` a
      bool (TypeError), and the value must encode under the key. */
  function BuildCursor(key: Py, value: Py, before: Py, clock: Clock): (r: Result<Cursor>)
    ensures !key.PStr? || !before.PBool? ==> r == Err(TypeError)
    ensures key.PStr? && before.PBool? ==> (r.Ok? <==> Encode(key, value, clock).Ok?)
    ensures r.Err? && key.PStr? && before.PBool? ==> r.error == Encode(key, value, clock).error
    ensures r.Ok? ==> r.value == Cursor(before.b, ValueInstance(Encode(key, value, clock).value))
  {
    if !key.PStr? then Err(TypeError)
    else if !before.PBool? then Err(TypeError)
    else
      var w :- Encode(key, value, clock);
      Ok(Cursor(before.b, ValueInstance(w)))
  }

  /** `startAt(key, value, before)`: the rendered cursor replaces startAt. */
  function StartAt(q: Query, key: Py, value: Py, before: Py, clock: Clock, render: Renderers): (r: Result<Query>)
    ensures r.Ok? <==> BuildCursor(key, value, before, clock).Ok?
    ensures r.Err? ==> r.error == BuildCursor(key, value, before, clock).error
    ensures r.Ok? ==> r.value == q.(startAt := render.cursor(BuildCursor(key, value, before, clock).value))
  {
    var c :- BuildCursor(key, value, before, clock);
    Ok(q.(startAt := render.cursor(c)))
  }

  /** `endAt(key, value, before)`: the rendered cursor replaces endAt. */
  function EndAt(q: Query, key: Py, value: Py, before: Py, clock: Clock, render: Renderers): (r: Result<Query>)
    ensures r.Ok? <==> BuildCursor(key, value, before, clock).Ok?
    ensures r.Err? ==> r.error == BuildCursor(key, value, before, clock).error
    ensures r.Ok? ==> r.value == q.(endAt := render.cursor(BuildCursor(key, value, before, clock).value))
  {
    var c :- BuildCursor(key, value, before, clock);
    Ok(q.(endAt := render.cursor(c)))
  }

  /** `offset(n)`: any int but a bool, with no sign check. */
  function Offset(q: Query, n: Py): (r: Result<Query>)
    ensures r.Ok? <==> n.PInt?
    ensures r.Err? ==> r.error == TypeError
    ensures r.Ok? ==> r.value == q.(offset := n)
  {
    if n.PBool? then Err(TypeError)
    else if !n.PInt? then Err(TypeError)
    else Ok(q.(offset := n))
  }

  /** `limit(n)`: any int but a bool, with no sign check. */
  function Limit(q: Query, n: Py): (r: Result<Query>)
    ensures r.Ok? <==> n.PInt?
    ensures r.Err? ==> r.error == TypeError
    ensures r.Ok? ==> r.value == q.(limit := n)
  {
    if n.PBool? then Err(TypeError)
    else if !n.PInt? then Err(TypeError)
    else Ok(q.(limit := n))
  }

  /** The clauses in attribute order, each with the name `to_json` writes it
      under. */
  function Clauses(q: Query): (r: seq<(string, Py)>)
    ensures |r| == 8
  {
    [("select", q.select), ("from", q.fromColl), ("where", q.where), ("orderBy", q.orderBy),
     ("startAt", q.startAt), ("endAt", q.endAt), ("offset", q.offset), ("limit", q.limit)]
  }

  /** The names `to_json` uses, in attribute order. */
  const ClauseNames: seq<string> := ["select", "from", "where", "orderBy", "startAt", "endAt", "offset", "limit"]

  /** The truthy clauses, in order, as dict entries. */
  function Present(cs: seq<(string, Py)>): (r: seq<(Py, Py)>)
    ensures |r| <= |cs|
    ensures forall j :: 0 <= j < |r| ==> exists i :: 0 <= i < |cs| && r[j] == (PStr(cs[i].0), cs[i].1) && Truthy(cs[i].1)
    ensures forall i :: 0 <= i < |cs| && Truthy(cs[i].1) ==> (PStr(cs[i].0), cs[i].1) in r
  {
    if cs == [] then []
    else
      var rest := Present(cs[..|cs| - 1]);
      var last := cs[|cs| - 1];
      if Truthy(last.1) then rest + [(PStr(last.0), last.1)] else rest
  }

  /** `to_json()`: collects the truthy clauses into `{"structuredQuery": {...}}`
      and sends the result through the encoder's JSON round trip. */
  method ToJson(q: Query, floatText: Float -> string) returns (r: Result<Py>)
    ensures r == Serialize(Single("structuredQuery", PDict(Present(Clauses(q)))), floatText)
    ensures r.Ok? ==> r.value.PDict? && |r.value.entries| == 1 && r.value.entries[0].0 == PStr("structuredQuery") &&
                      r.value.entries[0].1.PDict?
    ensures r.Ok? ==> forall k :: 0 <= k < 8 ==>
              (PStr(ClauseNames[k]) in Keys(r.value.entries[0].1.entries) <==> Truthy(Clauses(q)[k].1))
  {
    var clauses := Clauses(q);
    var inner: seq<(Py, Py)> := [];
    var i := 0;
    while i < |clauses|
      invariant 0 <= i <= |clauses|
      invariant inner == Present(clauses[..i])
    {
      assert clauses[..i + 1][..i] == clauses[..i];
      if Truthy(clauses[i].1) {
        inner := inner + [(PStr(clauses[i].0), clauses[i].1)];
      }
      i := i + 1;
    }
    assert clauses[..i] == clauses;
    r := Serialize(Single("structuredQuery", PDict(inner)), floatText);
    if r.Ok? {
      ToJsonKeys(q, floatText, r.value);
    }
  }

  /** The keys of what `to_json()` returns, for all eight clauses at once. */
  lemma {:induction false} ToJsonKeys(q: Query, floatText: Float -> string, out: Py)
    requires Serialize(Single("structuredQuery", PDict(Present(Clauses(q)))), floatText) == Ok(out)
    ensures out.PDict? && |out.entries| == 1 && out.entries[0].0 == PStr("structuredQuery") && out.entries[0].1.PDict?
    ensures forall k :: 0 <= k < 8 ==> (PStr(ClauseNames[k]) in Keys(out.entries[0].1.entries) <==> Truthy(Clauses(q)[k].1))
  {
    ToJsonKey(q, floatText, out, 0);
    forall k | 0 <= k < 8
      ensures PStr(ClauseNames[k]) in Keys(out.entries[0].1.entries) <==> Truthy(Clauses(q)[k].1)
    {
      ToJsonKey(q, floatText, out, k);
    }
  }

  /** One clause's key in what `to_json()` returns. */
  lemma {:induction false} ToJsonKey(q: Query, floatText: Float -> string, out: Py, k: nat)
    requires Serialize(Single("structuredQuery", PDict(Present(Clauses(q)))), floatText) == Ok(out)
    requires k < 8
    ensures out.PDict? && |out.entries| == 1 && out.entries[0].0 == PStr("structuredQuery") && out.entries[0].1.PDict?
    ensures PStr(ClauseNames[k]) in Keys(out.entries[0].1.entries) <==> Truthy(Clauses(q)[k].1)
  {
    ToJsonOutput(q, floatText, out, k);
  }

  /** `to_json` can only fail on a dict key `json.dumps` cannot write: when
      every clause has scalar keys throughout, the round trip succeeds. */
  lemma {:induction false} ToJsonSucceeds(q: Query, floatText: Float -> string)
    requires forall k :: 0 <= k < 8 ==> ScalarKeys(Clauses(q)[k].1)
    ensures Serialize(Single("structuredQuery", PDict(Present(Clauses(q)))), floatText).Ok?
  {
    var inner := Present(Clauses(q));
    forall j | 0 <= j < |inner| ensures KeyDumpable(inner[j].0) && ScalarKeys(inner[j].1) {
      var i :| 0 <= i < 8 && inner[j] == (PStr(Clauses(q)[i].0), Clauses(q)[i].1) && Truthy(Clauses(q)[i].1);
    }
    assert ScalarKeys(PDict(inner));
    SerializeScalarKeys(Single("structuredQuery", PDict(inner)), floatText);
  }

  /** In the entries `Present` keeps, a name whose clause is truthy is a key
      holding that clause, and a name whose clause is falsy is no key at all. */
  lemma {:induction false} PresentLookup(cs: seq<(string, Py)>, k: nat)
    requires forall i, j :: 0 <= i < j < |cs| ==> cs[i].0 != cs[j].0
    requires k < |cs|
    ensures PStr(cs[k].0) in Keys(Present(cs)) <==> Truthy(cs[k].1)
    ensures Truthy(cs[k].1) ==> DictGet(Present(cs), PStr(cs[k].0)) == Some(cs[k].1)
  {
    var inner := Present(cs);
    var name := PStr(cs[k].0);
    if name in Keys(inner) {
      var l := Lookup(inner, name).value;
      var i :| 0 <= i < |cs| && inner[l] == (PStr(cs[i].0), cs[i].1) && Truthy(cs[i].1);
      assert cs[i].0 == cs[k].0;
      assert i == k;
    }
    if Truthy(cs[k].1) {
      var j :| 0 <= j < |inner| && inner[j] == (name, cs[k].1);
      assert inner[j].0 == name;
    }
  }

  /** The body under "structuredQuery" has a clause's key exactly when the
      clause is truthy, and that key holds the clause. */
  lemma {:induction false} ToJsonClauses(q: Query, k: nat)
    requires k < 8
    ensures PStr(ClauseNames[k]) in Keys(Present(Clauses(q))) <==> Truthy(Clauses(q)[k].1)
    ensures Truthy(Clauses(q)[k].1) ==> DictGet(Present(Clauses(q)), PStr(ClauseNames[k])) == Some(Clauses(q)[k].1)
  {
    var cs := Clauses(q);
    assert forall i :: 0 <= i < 8 ==> cs[i].0 == ClauseNames[i];
    PresentLookup(cs, k);
  }

  /** What `to_json()` returns: the one-key dict `{"structuredQuery": body}`,
      where the body has a clause's name as a key exactly when the clause is
      truthy, and that key holds the clause after the JSON round trip. */
  lemma {:induction false} ToJsonOutput(q: Query, floatText: Float -> string, out: Py, k: nat)
    requires Serialize(Single("structuredQuery", PDict(Present(Clauses(q)))), floatText) == Ok(out)
    requires k < 8
    ensures out.PDict? && |out.entries| == 1 && out.entries[0].0 == PStr("structuredQuery")
    ensures out.entries[0].1.PDict?
    ensures PStr(ClauseNames[k]) in Keys(out.entries[0].1.entries) <==> Truthy(Clauses(q)[k].1)
    ensures Truthy(Clauses(q)[k].1) ==>
              Serialize(Clauses(q)[k].1, floatText) == Ok(DictValue(out.entries[0].1.entries, PStr(ClauseNames[k])))
  {
    var inner := Present(Clauses(q));
    SerializeSingle("structuredQuery", PDict(inner), floatText);
    forall j | 0 <= j < |inner| ensures inner[j].0.PStr? {
      var i :| 0 <= i < 8 && inner[j] == (PStr(Clauses(q)[i].0), Clauses(q)[i].1) && Truthy(Clauses(q)[i].1);
    }
    SerializeStrKeys(inner, floatText);
    ToJsonClauses(q, k);
  }
}
