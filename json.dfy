/** `json.loads(json.dumps(v))` as the library applies it to request bodies
    and query payloads: what `json.dumps` refuses, and the plain data that
    `json.loads` builds from what it wrote. */
module Json {
  import opened PyData

  /** The str `json.dumps` writes for a dict key: str keys unchanged; int,
      bool, None and float keys converted (`floatText` is the float's JSON
      text); any other key is a TypeError. */
  function JsonKey(k: Py, floatText: Float -> string): (r: Result<Py>)
    ensures r.Ok? <==> KeyDumpable(k)
    ensures r.Err? ==> r.error == TypeError
    ensures r.Ok? ==> r.value.PStr?
    ensures k.PStr? ==> r == Ok(k)
  {
    match k
    case PStr(_) => Ok(k)
    case PInt(i) => Ok(PStr(IntText(i)))
    case PBool(b) => Ok(PStr(if b then "true" else "false"))
    case PNone => Ok(PStr("null"))
    case PFloat(f) => Ok(PStr(floatText(f)))
    case _ => Err(TypeError)
  }

  predicate KeyDumpable(k: Py)
  {
    k.PStr? || k.PInt? || k.PBool? || k.PNone? || k.PFloat?
  }

  /** What `json.dumps` accepts without an encoder hook: no library objects,
      and dict keys of the scalar kinds, at any depth. A dict is checked
      through the items it iterates, so a value a later pair overwrites is
      never looked at. */
  predicate Dumpable(v: Py)
  {
    match v
    case PObj(_) => false
    case PTuple(xs) => forall j :: 0 <= j < |xs| ==> Dumpable(xs[j])
    case PList(xs) => forall j :: 0 <= j < |xs| ==> Dumpable(xs[j])
    case PDict(d) => forall j :: 0 <= j < |Items(d)| ==> KeyDumpable(Items(d)[j].0) && Dumpable(Items(d)[j].1)
    case _ => true
  }

  /** The NaN `json.loads` builds for the text `NaN`: Python's `float('nan')`,
      the quiet NaN with sign and payload clear. */
  const CanonicalNaN: Float := Float(0x7FF8_0000_0000_0000)

  /** What `json.loads` produces: no objects, no tuples, dicts with distinct
      str keys, and no NaN other than the canonical one. */
  predicate IsPlain(v: Py)
  {
    match v
    case PObj(_) => false
    case PFloat(f) => !IsNaN(f) || f == CanonicalNaN
    case PTuple(_) => false
    case PList(xs) => forall j :: 0 <= j < |xs| ==> IsPlain(xs[j])
    case PDict(d) => DistinctKeys(d) && forall j :: 0 <= j < |d| ==> d[j].0.PStr? && IsPlain(d[j].1)
    case _ => true
  }

  /** `json.loads(json.dumps(v))`: a TypeError for what cannot be dumped;
      otherwise tuples come back as lists, a dict's items come back with
      their keys as strs, and every NaN, which `json.dumps` writes as `NaN`
      whatever its sign and payload, comes back as the canonical NaN. `json.loads` keeps one entry per key, so two keys
      that dump to the same str (1 and "1") leave one entry, at the first
      one's position, with the last one's value. */
  function PlainJson(v: Py, floatText: Float -> string): (r: Result<Py>)
    ensures r.Ok? <==> Dumpable(v)
    ensures r.Err? ==> r.error == TypeError
    ensures r.Ok? ==> IsPlain(r.value)
    decreases v, 1
  {
    match v
    case PObj(_) => Err(TypeError)
    case PTuple(xs) =>
      var ys :- PlainItems(v, |xs|, floatText);
      Ok(PList(ys))
    case PList(xs) =>
      var ys :- PlainItems(v, |xs|, floatText);
      Ok(PList(ys))
    case PDict(d) =>
      var es :- PlainEntries(v, Items(d), |Items(d)|, floatText);
      PlainDictOfItems(es);
      Ok(PDict(Items(es)))
    case PFloat(f) => if IsNaN(f) then Ok(PFloat(CanonicalNaN)) else Ok(v)
    case _ => Ok(v)
  }

  /** The first `k` items of a tuple or list, each through the round trip. */
  function PlainItems(v: Py, k: nat, floatText: Float -> string): (r: Result<seq<Py>>)
    requires (v.PTuple? || v.PList?) && k <= |v.items|
    ensures r.Ok? <==> forall j :: 0 <= j < k ==> Dumpable(v.items[j])
    ensures r.Err? ==> r.error == TypeError
    ensures r.Ok? ==> |r.value| == k && forall j :: 0 <= j < k ==>
              IsPlain(r.value[j]) && PlainJson(v.items[j], floatText) == Ok(r.value[j])
    decreases v, 0, k
  {
    if k == 0 then Ok([])
    else
      var ys :- PlainItems(v, k - 1, floatText);
      var y :- PlainJson(v.items[k - 1], floatText);
      Ok(ys + [y])
  }

  /** The first `k` of a dict's items, keys and values through the round
      trip: the pairs `json.dumps` writes. The items' values are parts of the
      dict `v`. */
  function PlainEntries(v: Py, items: seq<(Py, Py)>, k: nat, floatText: Float -> string): (r: Result<seq<(Py, Py)>>)
    requires k <= |items|
    requires forall j :: 0 <= j < |items| ==> items[j].1 < v
    ensures r.Ok? <==> forall j :: 0 <= j < k ==> KeyDumpable(items[j].0) && Dumpable(items[j].1)
    ensures r.Err? ==> r.error == TypeError
    ensures r.Ok? ==> |r.value| == k && forall j :: 0 <= j < k ==>
              r.value[j].0.PStr? && IsPlain(r.value[j].1) &&
              JsonKey(items[j].0, floatText) == Ok(r.value[j].0) &&
              PlainJson(items[j].1, floatText) == Ok(r.value[j].1)
    decreases v, 0, k
  {
    if k == 0 then Ok([])
    else
      var es :- PlainEntries(v, items, k - 1, floatText);
      var key :- JsonKey(items[k - 1].0, floatText);
      var value :- PlainJson(items[k - 1].1, floatText);
      Ok(es + [(key, value)])
  }

  /** Taking the items of str-keyed pairs with plain values gives a plain
      dict: what `json.loads` builds from the text `json.dumps` wrote. */
  lemma {:induction false} PlainDictOfItems(es: seq<(Py, Py)>)
    requires forall j :: 0 <= j < |es| ==> es[j].0.PStr? && IsPlain(es[j].1)
    ensures IsPlain(PDict(Items(es)))
  {
    ItemsDistinct(es);
    ItemsFrom(es);
  }

  /** Plain data survives the round trip unchanged. */
  lemma {:induction false} PlainJsonKeeps(v: Py, floatText: Float -> string)
    requires IsPlain(v)
    ensures PlainJson(v, floatText) == Ok(v)
    decreases v, 1
  {
    match v
    case PList(xs) =>
      PlainItemsKeep(v, |xs|, floatText);
      assert xs[..|xs|] == xs;
    case PDict(d) =>
      ItemsOfDistinct(d);
      PlainEntriesKeep(v, |d|, floatText);
      assert Items(d) == d;
      assert d[..|d|] == d;
    case _ =>
  }

  lemma {:induction false} PlainItemsKeep(v: Py, k: nat, floatText: Float -> string)
    requires v.PList? && IsPlain(v) && k <= |v.items|
    ensures PlainItems(v, k, floatText) == Ok(v.items[..k])
    decreases v, 0, k
  {
    if k > 0 {
      PlainItemsKeep(v, k - 1, floatText);
      PlainJsonKeeps(v.items[k - 1], floatText);
      assert v.items[..k] == v.items[..k - 1] + [v.items[k - 1]];
    }
  }

  lemma {:induction false} PlainEntriesKeep(v: Py, k: nat, floatText: Float -> string)
    requires v.PDict? && IsPlain(v) && k <= |v.entries|
    ensures PlainEntries(v, v.entries, k, floatText) == Ok(v.entries[..k])
    decreases v, 0, k
  {
    if k > 0 {
      var item := v.entries[k - 1];
      assert v.entries[..k] == v.entries[..k - 1] + [item];
      PlainEntriesKeep(v, k - 1, floatText);
      assert IsPlain(item.1) && item.0.PStr?;
      PlainJsonKeeps(item.1, floatText);
    }
  }

  /** The round trip sees a dict only through its items: two pair lists that
      make the same dict dump alike. */
  lemma {:induction false} PlainJsonSeesItems(d: seq<(Py, Py)>, floatText: Float -> string)
    ensures PlainJson(PDict(d), floatText) == PlainJson(PDict(Items(d)), floatText)
  {
    var items := Items(d);
    ItemsDistinct(d);
    assert forall j :: 0 <= j < |items| ==> items[j].1 < PDict(items);
    PlainEntriesOfItems(PDict(d), PDict(items), items, |items|, floatText);
    PlainJsonDict(d, floatText);
    PlainJsonDict(items, floatText);
  }

  /** The round trip of a dict, unfolded once. */
  lemma {:induction false} PlainJsonDict(d: seq<(Py, Py)>, floatText: Float -> string)
    ensures PlainJson(PDict(d), floatText) ==
            var es := PlainEntries(PDict(d), Items(d), |Items(d)|, floatText);
            if es.Err? then Err(es.error) else Ok(PDict(Items(es.value)))
  {
  }

  /** Which dict the items belong to does not change what they dump to. */
  lemma {:induction false} PlainEntriesOfItems(v: Py, w: Py, items: seq<(Py, Py)>, k: nat, floatText: Float -> string)
    requires k <= |items|
    requires forall j :: 0 <= j < |items| ==> items[j].1 < v && items[j].1 < w
    ensures PlainEntries(v, items, k, floatText) == PlainEntries(w, items, k, floatText)
  {
    var a := PlainEntries(v, items, k, floatText);
    var b := PlainEntries(w, items, k, floatText);
    if a.Ok? {
      forall j | 0 <= j < k ensures a.value[j] == b.value[j] {
        assert JsonKey(items[j].0, floatText) == Ok(a.value[j].0) == Ok(b.value[j].0);
        assert PlainJson(items[j].1, floatText) == Ok(a.value[j].1) == Ok(b.value[j].1);
      }
      assert a.value == b.value;
    }
  }

  /** A dict whose items are already plain dumps to its items. */
  lemma {:induction false} PlainItemsKept(d: seq<(Py, Py)>, floatText: Float -> string)
    requires IsPlain(PDict(Items(d)))
    ensures PlainJson(PDict(d), floatText) == Ok(PDict(Items(d)))
  {
    PlainJsonSeesItems(d, floatText);
    PlainJsonKeeps(PDict(Items(d)), floatText);
  }

  /** Two pairs with one key make a dict with one item: the second value. */
  lemma {:induction false} LastPairWins(key: Py, a: Py, b: Py)
    ensures Items([(key, a), (key, b)]) == [(key, b)]
  {
    var d := [(key, a), (key, b)];
    assert d[..1] == [(key, a)];
    assert Keys(d) == [key];
  }

  /** A value that a later pair with the same key overwrites is not dumped:
      `{k: object, k: x}` is the dict `{k: x}` and dumps as that, although the
      object alone could not be dumped. */
  lemma {:induction false} OverwrittenValueIgnored(k: string, o: Obj, x: Py, floatText: Float -> string)
    requires IsPlain(x)
    ensures PlainJson(PDict([(PStr(k), PObj(o)), (PStr(k), x)]), floatText) == Ok(PDict([(PStr(k), x)]))
  {
    var d := [(PStr(k), PObj(o)), (PStr(k), x)];
    var e := [(PStr(k), x)];
    LastPairWins(PStr(k), PObj(o), x);
    assert IsPlain(PDict(e));
    PlainItemsKept(d, floatText);
  }

  /** The same object as the last value of its key is a TypeError. */
  lemma {:induction false} LiveObjectRefused(k: string, o: Obj, floatText: Float -> string)
    ensures PlainJson(PDict([(PStr(k), PObj(o))]), floatText) == Err(TypeError)
  {
    var d := [(PStr(k), PObj(o))];
    assert Keys(d) == [PStr(k)];
    assert Items(d)[0].1 == PObj(o);
    assert !Dumpable(PDict(d));
  }

  /** A dict whose pairs all have a scalar key and a dumpable value is
      dumpable, whichever of them the dict keeps. */
  lemma {:induction false} PairsDumpable(d: seq<(Py, Py)>)
    requires forall i :: 0 <= i < |d| ==> KeyDumpable(d[i].0) && Dumpable(d[i].1)
    ensures Dumpable(PDict(d))
  {
    ItemsFrom(d);
    forall j | 0 <= j < |Items(d)| ensures KeyDumpable(Items(d)[j].0) && Dumpable(Items(d)[j].1) {
      var i :| 0 <= i < |d| && d[i] == Items(d)[j];
    }
  }

  /** A one-pair dict goes through the round trip as its key and its value
      do: `json.dumps` can write it exactly when it can write both, and the
      result holds the converted key and the value's round trip. */
  lemma {:induction false} SinglePair(k: Py, x: Py, floatText: Float -> string)
    requires Dumpable(PDict([(k, x)]))
    ensures KeyDumpable(k) && Dumpable(x)
    ensures PlainJson(PDict([(k, x)]), floatText) ==
            Ok(PDict([(JsonKey(k, floatText).value, PlainJson(x, floatText).value)]))
  {
    var d := [(k, x)];
    SingleItems(k, x);
    assert Items(d)[0] == (k, x);
    var e := [(JsonKey(k, floatText).value, PlainJson(x, floatText).value)];
    assert PlainEntries(PDict(d), d, 0, floatText) == Ok([]);
    assert JsonKey(d[0].0, floatText) == Ok(e[0].0) && PlainJson(d[0].1, floatText) == Ok(e[0].1);
    assert [] + e == e;
    assert PlainEntries(PDict(d), d, 1, floatText) == Ok(e);
    SingleItems(e[0].0, e[0].1);
    PlainJsonDict(d, floatText);
  }

  /** A one-pair dict with a scalar key and a plain value comes back with
      its key converted. */
  lemma {:induction false} SingleDumped(k: Py, x: Py, floatText: Float -> string)
    requires KeyDumpable(k) && IsPlain(x)
    ensures PlainJson(PDict([(k, x)]), floatText) == Ok(PDict([(JsonKey(k, floatText).value, x)]))
  {
    PlainJsonKeeps(x, floatText);
    PairsDumpable([(k, x)]);
    SinglePair(k, x, floatText);
  }

  /** A dict keyed by strs comes back as its items' round trip, with every
      key in place. */
  lemma {:induction false} StrKeyedItems(d: seq<(Py, Py)>, floatText: Float -> string)
    requires forall j :: 0 <= j < |d| ==> d[j].0.PStr?
    requires Dumpable(PDict(d))
    ensures PlainEntries(PDict(d), Items(d), |Items(d)|, floatText).Ok?
    ensures PlainJson(PDict(d), floatText) == Ok(PDict(PlainEntries(PDict(d), Items(d), |Items(d)|, floatText).value))
    ensures forall j :: 0 <= j < |Items(d)| ==>
              PlainEntries(PDict(d), Items(d), |Items(d)|, floatText).value[j].0 == Items(d)[j].0
  {
    var items := Items(d);
    ItemsDistinct(d);
    ItemsFrom(d);
    var es := PlainEntries(PDict(d), items, |items|, floatText).value;
    forall j | 0 <= j < |es| ensures es[j].0 == items[j].0 {
      assert items[j] in d;
    }
    assert DistinctKeys(es);
    ItemsOfDistinct(es);
    PlainJsonDict(d, floatText);
  }

  /** A dict keyed by strs comes back with the same keys, each holding the
      round trip of the value the dict gives it. */
  lemma {:induction false} StrKeyedDict(d: seq<(Py, Py)>, floatText: Float -> string)
    requires forall j :: 0 <= j < |d| ==> d[j].0.PStr?
    requires Dumpable(PDict(d))
    ensures PlainJson(PDict(d), floatText).Ok? && PlainJson(PDict(d), floatText).value.PDict?
    ensures Keys(PlainJson(PDict(d), floatText).value.entries) == Keys(d)
    ensures forall key :: key in Keys(d) ==>
              PlainJson(DictValue(d, key), floatText) == Ok(DictValue(PlainJson(PDict(d), floatText).value.entries, key))
  {
    StrKeyedKeys(d, floatText);
    forall key | key in Keys(d)
      ensures PlainJson(DictValue(d, key), floatText) == Ok(DictValue(PlainJson(PDict(d), floatText).value.entries, key))
    {
      var j :| 0 <= j < |Keys(d)| && Keys(d)[j] == key;
      StrKeyedValue(d, j, floatText);
    }
  }

  /** The keys of a dict keyed by strs survive the round trip, in order. */
  lemma {:induction false} StrKeyedKeys(d: seq<(Py, Py)>, floatText: Float -> string)
    requires forall j :: 0 <= j < |d| ==> d[j].0.PStr?
    requires Dumpable(PDict(d))
    ensures PlainJson(PDict(d), floatText).Ok? && PlainJson(PDict(d), floatText).value.PDict?
    ensures Keys(PlainJson(PDict(d), floatText).value.entries) == Keys(d)
  {
    StrKeyedItems(d, floatText);
    var es := PlainEntries(PDict(d), Items(d), |Items(d)|, floatText).value;
    ItemsDistinct(d);
    assert DistinctKeys(es);
    KeysOfDistinct(es);
  }

  /** One key of a dict keyed by strs: its value in the result is the round
      trip of its value in the dict. */
  lemma {:induction false} StrKeyedValue(d: seq<(Py, Py)>, j: nat, floatText: Float -> string)
    requires forall j :: 0 <= j < |d| ==> d[j].0.PStr?
    requires Dumpable(PDict(d))
    requires j < |Keys(d)|
    ensures PlainJson(PDict(d), floatText).Ok? && PlainJson(PDict(d), floatText).value.PDict?
    ensures Keys(d)[j] in Keys(PlainJson(PDict(d), floatText).value.entries)
    ensures PlainJson(DictValue(d, Keys(d)[j]), floatText) ==
            Ok(DictValue(PlainJson(PDict(d), floatText).value.entries, Keys(d)[j]))
  {
    StrKeyedItems(d, floatText);
    var es := PlainEntries(PDict(d), Items(d), |Items(d)|, floatText).value;
    ItemsDistinct(d);
    assert DistinctKeys(es);
    DistinctValue(es, j);
    assert Items(d)[j].1 == DictValue(d, Keys(d)[j]);
  }

  /** Any NaN, whatever its sign and payload, comes back as the canonical
      NaN; every other float comes back with its bits. */
  lemma {:induction false} NaNCanonical(f: Float, floatText: Float -> string)
    ensures IsNaN(f) ==> PlainJson(PFloat(f), floatText) == Ok(PFloat(CanonicalNaN))
    ensures !IsNaN(f) ==> PlainJson(PFloat(f), floatText) == Ok(PFloat(f))
    ensures IsNaN(CanonicalNaN)
  {
  }

  /** Validating what validation returned changes nothing. */
  lemma {:induction false} PlainJsonIdempotent(v: Py, floatText: Float -> string)
    requires PlainJson(v, floatText).Ok?
    ensures PlainJson(PlainJson(v, floatText).value, floatText) == PlainJson(v, floatText)
  {
    PlainJsonKeeps(PlainJson(v, floatText).value, floatText);
  }
}
