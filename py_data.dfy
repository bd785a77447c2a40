/** Python data as the library handles it: the payloads that callers pass in
    and the dicts and lists that the `data()` methods build.

    A dict is kept as the list of (key, value) pairs it was built from and is
    read the way Python's `dict(pairs)` reads such a list: each key sits at the
    position of its first pair and carries the value of its last pair. */
module PyData {

  datatype Option<+T> = None | Some(value: T)

  /** The exceptions the modelled code raises. `UnknownOperator` is the
      ValueError raised for an operator string outside the comparison table;
      its message lists the valid choices, which it carries. */
  datatype Error =
    | TypeError
    | ValueError
    | KeyError
    | IndexError
    | AttributeError
    | UnknownOperator(op: string, choices: seq<string>)

  datatype Result<+T> = Ok(value: T) | Err(error: Error) {
    predicate IsFailure() { Err? }

    function PropagateFailure<U>(): Result<U>
      requires Err?
    {
      Err(error)
    }

    function Extract(): T
      requires Ok?
    {
      value
    }
  }

  /** A Python float, kept as its IEEE 754 binary64 bit pattern; the model does
      no arithmetic on floats. */
  datatype Float = Float(bits: bv64)

  /** `math.isnan`: exponent all ones and a nonzero fraction. */
  predicate IsNaN(f: Float)
  {
    f.bits & 0x7FF0_0000_0000_0000 == 0x7FF0_0000_0000_0000 &&
    f.bits & 0x000F_FFFF_FFFF_FFFF != 0
  }

  /** `bool(f)` is false exactly for +0.0 and -0.0. */
  predicate IsZero(f: Float)
  {
    f.bits & 0x7FFF_FFFF_FFFF_FFFF == 0
  }

  datatype Py =
    | PNone
    | PBool(b: bool)
    | PInt(i: int)
    | PFloat(f: Float)
    | PStr(s: string)
    | PTuple(items: seq<Py>)
    | PList(items: seq<Py>)
    | PDict(entries: seq<(Py, Py)>)
    | PObj(obj: Obj)

  /** Instances of the library's own classes that end up inside data: the
      `FieldReference` objects a projection holds and `Value` objects, whose
      `data()` is the wire object fixed when they were built. */
  datatype Obj =
    | FieldReference(fieldPath: Py)
    | ValueInstance(valueType: Py)

  /** Python truthiness of a value. */
  predicate Truthy(v: Py)
  {
    match v
    case PNone => false
    case PBool(b) => b
    case PInt(i) => i != 0
    case PFloat(f) => !IsZero(f)
    case PStr(s) => s != ""
    case PTuple(xs) => xs != []
    case PList(xs) => xs != []
    case PDict(d) => d != []
    case PObj(_) => true
  }

  /** `isinstance(v, int)`: `bool` is a subclass of `int`. */
  predicate IsInt(v: Py)
  {
    v.PInt? || v.PBool?
  }

  /** The integer an `int` or `bool` stands for. */
  function IntOf(v: Py): int
    requires IsInt(v)
  {
    if v.PInt? then v.i else if v.b then 1 else 0
  }

  /** A one-key dict `{name: v}`. */
  function Single(name: string, v: Py): Py
  {
    PDict([(PStr(name), v)])
  }

  /** Index of the pair whose value `dict(d)[k]` returns: the last one with key k. */
  function Lookup(d: seq<(Py, Py)>, k: Py): (r: Option<nat>)
    ensures r.Some? ==> r.value < |d| && d[r.value].0 == k
    ensures r.Some? ==> forall j :: r.value < j < |d| ==> d[j].0 != k
    ensures r.None? <==> forall j :: 0 <= j < |d| ==> d[j].0 != k
  {
    if |d| == 0 then None
    else if d[|d| - 1].0 == k then Some(|d| - 1)
    else Lookup(d[..|d| - 1], k)
  }

  /** `dict(d).get(k)`. */
  function DictGet(d: seq<(Py, Py)>, k: Py): (r: Option<Py>)
    ensures r.Some? <==> exists j :: 0 <= j < |d| && d[j].0 == k
  {
    match Lookup(d, k)
    case Some(i) => Some(d[i].1)
    case None => None
  }

  /** `list(dict(d).keys())`: each key once, in order of first appearance. */
  function Keys(d: seq<(Py, Py)>): (ks: seq<Py>)
    ensures forall k :: k in ks <==> exists j :: 0 <= j < |d| && d[j].0 == k
    ensures forall i, j :: 0 <= i < j < |ks| ==> ks[i] != ks[j]
    ensures |ks| <= |d|
  {
    if |d| == 0 then []
    else
      var ks := Keys(d[..|d| - 1]);
      if d[|d| - 1].0 in ks then ks else ks + [d[|d| - 1].0]
  }

  /** `dict(d)[k]` for a key that is there: the value of the last pair with
      that key, a part of the dict. */
  function DictValue(d: seq<(Py, Py)>, k: Py): (v: Py)
    requires k in Keys(d)
    ensures DictGet(d, k) == Some(v)
    ensures (k, v) in d
    ensures v < PDict(d)
  {
    d[Lookup(d, k).value].1
  }

  /** `list(dict(d).items())`: each key once, in order of first appearance,
      with the value the dict holds for it. */
  function Items(d: seq<(Py, Py)>): (r: seq<(Py, Py)>)
    ensures |r| == |Keys(d)|
    ensures forall j :: 0 <= j < |r| ==> r[j].0 == Keys(d)[j] && r[j].1 < PDict(d)
  {
    var ks := Keys(d);
    seq(|ks|, j requires 0 <= j < |ks| => (ks[j], DictValue(d, ks[j])))
  }

  /** Each item is one of the dict's pairs and holds the value the dict
      gives its key. */
  lemma {:induction false} ItemsFrom(d: seq<(Py, Py)>)
    ensures forall j :: 0 <= j < |Items(d)| ==> Items(d)[j] in d && DictGet(d, Items(d)[j].0) == Some(Items(d)[j].1)
  {
  }

  /** No key appears in two pairs: the shape of a dict Python builds. */
  predicate DistinctKeys(d: seq<(Py, Py)>)
  {
    forall i, j :: 0 <= i < j < |d| ==> d[i].0 != d[j].0
  }

  /** The keys of a dict with distinct keys are its pairs' keys, in order. */
  lemma {:induction false} KeysOfDistinct(d: seq<(Py, Py)>)
    requires DistinctKeys(d)
    ensures |Keys(d)| == |d|
    ensures forall j :: 0 <= j < |d| ==> Keys(d)[j] == d[j].0
  {
    if d != [] {
      var p := d[..|d| - 1];
      KeysOfDistinct(p);
      assert d[|d| - 1].0 !in Keys(p);
    }
  }

  /** A dict with distinct keys iterates exactly its pairs. */
  lemma {:induction false} ItemsOfDistinct(d: seq<(Py, Py)>)
    requires DistinctKeys(d)
    ensures Items(d) == d
  {
    KeysOfDistinct(d);
    forall j | 0 <= j < |d| ensures Items(d)[j] == d[j] {
      var i := Lookup(d, d[j].0).value;
      assert i == j;
    }
  }

  /** A one-pair dict iterates that pair. */
  lemma {:induction false} SingleItems(k: Py, x: Py)
    ensures Items([(k, x)]) == [(k, x)]
  {
    ItemsOfDistinct([(k, x)]);
  }

  /** In a dict with distinct keys, each pair's key reads back its own value. */
  lemma {:induction false} DistinctValue(d: seq<(Py, Py)>, j: nat)
    requires DistinctKeys(d) && j < |d|
    ensures d[j].0 in Keys(d) && DictValue(d, d[j].0) == d[j].1
  {
    var i := Lookup(d, d[j].0).value;
    assert d[i].0 == d[j].0;
  }

  /** Two pair lists with the same key at every position have the same keys
      and find a key at the same position, whatever their values. */
  lemma {:induction false} KeysAgree(a: seq<(Py, Py)>, b: seq<(Py, Py)>, key: Py)
    requires |a| == |b| && forall j :: 0 <= j < |a| ==> a[j].0 == b[j].0
    ensures key in Keys(a) <==> key in Keys(b)
    ensures key in Keys(a) ==> Lookup(a, key) == Lookup(b, key)
  {
    if key in Keys(a) {
      var i := Lookup(a, key).value;
      assert b[i].0 == key;
      var l := Lookup(b, key).value;
      assert a[l].0 == key;
    }
  }

  /** The items of any dict have distinct keys, so taking them again changes
      nothing. */
  lemma {:induction false} ItemsDistinct(d: seq<(Py, Py)>)
    ensures DistinctKeys(Items(d))
    ensures Items(Items(d)) == Items(d)
  {
    ItemsOfDistinct(Items(d));
  }

  /** `len(v)`; TypeError for a value that has no length. */
  function Len(v: Py): (r: Result<nat>)
    ensures r.Err? ==> r.error == TypeError
  {
    match v
    case PTuple(xs) => Ok(|xs|)
    case PList(xs) => Ok(|xs|)
    case PStr(s) => Ok(|s|)
    case PDict(d) => Ok(|Keys(d)|)
    case _ => Err(TypeError)
  }

  /** `v[i]` for a non-negative integer index. */
  function GetItem(v: Py, i: nat): (r: Result<Py>)
    ensures (v.PTuple? || v.PList?) ==> r == (if i < |v.items| then Ok(v.items[i]) else Err(IndexError))
  {
    match v
    case PTuple(xs) => if i < |xs| then Ok(xs[i]) else Err(IndexError)
    case PList(xs) => if i < |xs| then Ok(xs[i]) else Err(IndexError)
    case PStr(s) => if i < |s| then Ok(PStr([s[i]])) else Err(IndexError)
    case PDict(d) =>
      (match DictGet(d, PInt(i))
       case Some(x) => Ok(x)
       case None => Err(KeyError))
    case _ => Err(TypeError)
  }

  /** Whether `hash(v)` succeeds: lists and dicts are unhashable, tuples are
      hashable when their items are. */
  predicate Hashable(v: Py)
  {
    match v
    case PList(_) => false
    case PDict(_) => false
    case PTuple(xs) => forall i :: 0 <= i < |xs| ==> Hashable(xs[i])
    case _ => true
  }

  function DigitText(n: nat): string
    requires n < 10
  {
    ["0123456789"[n]]
  }

  /** Decimal text of a natural number. */
  function NatText(n: nat): (s: string)
    ensures |s| >= 1
    ensures forall i :: 0 <= i < |s| ==> '0' <= s[i] <= '9'
  {
    if n < 10 then DigitText(n) else NatText(n / 10) + DigitText(n % 10)
  }

  /** `str(i)` for an int. */
  function IntText(i: int): string
  {
    if i < 0 then "-" + NatText(-i) else NatText(i)
  }

  /** `str(v)`. It is spelled out for None, bool, int and str; for the other
      kinds of value Python's own formatting is passed in as `pyStr`. */
  function Str(v: Py, pyStr: Py -> string): (s: string)
    ensures v.PStr? ==> s == v.s
  {
    match v
    case PStr(s) => s
    case PNone => "None"
    case PBool(b) => if b then "True" else "False"
    case PInt(i) => IntText(i)
    case _ => pyStr(v)
  }
}
