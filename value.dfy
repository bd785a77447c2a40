/** The Firestore value encoder: `Value(key, value)` checks the payload against
    the tag `key` and fixes, once, the one-key wire object that `data()` then
    returns, e.g. `{"integerValue": 7}`. Array and map values wrap exactly one
    child value. */
module Values {
  import opened PyData

  /** `currentTime(minus)`: the current UTC time less `minus` seconds, as a
      `YYYY-MM-DDTHH:MM:SSZ` string. The clock is outside the model. */
  type Clock = int -> string

  /** The eleven tags, in the order `determine()` tests them. */
  const Tags: seq<string> :=
    ["null", "bool", "int", "double", "time", "string", "bytes", "ref", "geo", "array", "map"]

  /** The wire name each tag's object is keyed by. */
  function WireName(tag: string): string
  {
    match tag
    case "null" => "nullValue"
    case "bool" => "booleanValue"
    case "int" => "integerValue"
    case "double" => "doubleValue"
    case "time" => "timestampValue"
    case "string" => "stringValue"
    case "bytes" => "bytesValue"
    case "ref" => "referenceValue"
    case "geo" => "geoPointValue"
    case "array" => "arrayValue"
    case "map" => "mapValue"
    case _ => ""
  }

  /** A one-key wire object keyed by the wire name of `tag`. */
  predicate IsWireObject(w: Py, tag: string)
  {
    w.PDict? && |w.entries| == 1 && w.entries[0].0 == PStr(WireName(tag))
  }

  /** The two-slot dict `{"key": k, "value": v}` that arrays and maps take. */
  function Slots(k: Py, v: Py): Py
  {
    PDict([(PStr("key"), k), (PStr("value"), v)])
  }

  /** The check of an array or map payload: exactly two keys, each of them
      "key" or "value". */
  predicate HasSlots(d: seq<(Py, Py)>)
  {
    |Keys(d)| == 2 && forall k :: k in Keys(d) ==> k == PStr("key") || k == PStr("value")
  }

  /** The slot check passes exactly when the payload's keys are "key" and
      "value" and nothing else. */
  lemma {:induction false} SlotsExactly(d: seq<(Py, Py)>)
    ensures HasSlots(d) <==> (PStr("key") in Keys(d) && PStr("value") in Keys(d) &&
                              forall j :: 0 <= j < |d| ==> d[j].0 == PStr("key") || d[j].0 == PStr("value"))
  {
    if HasSlots(d) {
      SlotsPresent(d);
    }
    if PStr("key") in Keys(d) && PStr("value") in Keys(d) &&
       forall j :: 0 <= j < |d| ==> d[j].0 == PStr("key") || d[j].0 == PStr("value") {
      SlotsOnly(d);
    }
  }

  lemma {:induction false} SlotsPresent(d: seq<(Py, Py)>)
    requires HasSlots(d)
    ensures PStr("key") in Keys(d) && PStr("value") in Keys(d)
    ensures forall j :: 0 <= j < |d| ==> d[j].0 == PStr("key") || d[j].0 == PStr("value")
  {
    var ks := Keys(d);
    assert ks[0] in ks && ks[1] in ks && ks[0] != ks[1];
    forall j | 0 <= j < |d| ensures d[j].0 == PStr("key") || d[j].0 == PStr("value") {
      assert d[j].0 in ks;
    }
  }

  lemma {:induction false} SlotsOnly(d: seq<(Py, Py)>)
    requires PStr("key") in Keys(d) && PStr("value") in Keys(d)
    requires forall j :: 0 <= j < |d| ==> d[j].0 == PStr("key") || d[j].0 == PStr("value")
    ensures HasSlots(d)
  {
    var ks := Keys(d);
    forall i | 0 <= i < |ks| ensures ks[i] in {PStr("key"), PStr("value")} {
      assert ks[i] in ks;
      var j :| 0 <= j < |d| && d[j].0 == ks[i];
    }
    assert |ks| >= 2 by {
      if |ks| < 2 {
        assert false;
      }
    }
    AtMost(ks, {PStr("key"), PStr("value")});
  }

  /** A list of distinct values drawn from the set `vs` is no longer than `vs`. */
  lemma {:induction false} AtMost(ks: seq<Py>, vs: set<Py>)
    requires forall i, j :: 0 <= i < j < |ks| ==> ks[i] != ks[j]
    requires forall i :: 0 <= i < |ks| ==> ks[i] in vs
    ensures |ks| <= |vs|
  {
    if ks != [] {
      var last := ks[|ks| - 1];
      AtMost(ks[..|ks| - 1], vs - {last});
    }
  }

  /** `TimestampValue(timestamp=m)` for an int: an offset of zero (or False)
      takes the current time, any other offset must lie in 0..269. */
  function TimestampFromOffset(m: int, clock: Clock): (r: Result<Py>)
    ensures r.Ok? <==> m == 0 || 0 <= m <= 269
    ensures r.Err? ==> r.error == ValueError
    ensures r.Ok? ==> r.value == Single("timestampValue", PStr(clock(m)))
  {
    if m != 0 && !(0 <= m <= 269) then Err(ValueError)
    else Ok(Single("timestampValue", PStr(clock(m))))
  }

  /** `GeoPointValue(geo)` for a tuple: exactly two floats, else ValueError. */
  function GeoPoint(g: seq<Py>): (r: Result<Py>)
    ensures r.Ok? <==> |g| == 2 && g[0].PFloat? && g[1].PFloat?
    ensures r.Ok? ==> IsWireObject(r.value, "geo")
    ensures r.Err? ==> r.error == ValueError
    ensures r.Ok? ==> r.value.PDict? && Keys(r.value.entries) == [PStr("geoPointValue")] &&
                      r.value.entries[0].1.PDict? &&
                      DictGet(r.value.entries[0].1.entries, PStr("latitude")) == Some(g[0]) &&
                      DictGet(r.value.entries[0].1.entries, PStr("longitude")) == Some(g[1])
  {
    if |g| != 2 || !g[0].PFloat? || !g[1].PFloat? then Err(ValueError)
    else
      var pair := [(PStr("latitude"), g[0]), (PStr("longitude"), g[1])];
      assert pair[..1] == [pair[0]];
      Ok(Single("geoPointValue", PDict(pair)))
  }

  /** `Value(key, value).data()`. */
  function Encode(key: Py, value: Py, clock: Clock): (r: Result<Py>)
    ensures !key.PStr? ==> r == Err(TypeError)
    ensures key.PStr? && key.s !in Tags ==> r == Err(ValueError)
    ensures r.Ok? ==> key.PStr? && key.s in Tags && IsWireObject(r.value, key.s)
    decreases value
  {
    if !key.PStr? then Err(TypeError)
    else if key.s == "array" then
      if !value.PDict? then Err(TypeError)
      else if !HasSlots(value.entries) then Err(KeyError)
      else EncodeArray(value, clock)
    else if key.s == "map" then
      if !value.PDict? then Err(TypeError)
      else if !HasSlots(value.entries) then Err(KeyError)
      else EncodeMap(value, clock)
    else EncodeScalar(key.s, value, clock)
  }

  /** The branches of `determine()` for the tags whose payload holds no
      other value, and the ValueError for an unknown tag; each success puts
      the payload under the tag's wire name. */
  function EncodeScalar(tag: string, value: Py, clock: Clock): (r: Result<Py>)
    requires tag != "array" && tag != "map"
    ensures tag !in Tags ==> r == Err(ValueError)
    ensures r.Ok? ==> tag in Tags && IsWireObject(r.value, tag)
  {
    if tag == "null" then
      if value.PNone? then Ok(Single(WireName(tag), PStr("NULL_VALUE"))) else Err(TypeError)
    else if tag == "bool" then
      if value.PBool? then Ok(Single(WireName(tag), value)) else Err(TypeError)
    else if tag == "int" then
      if IsInt(value) then Ok(Single(WireName(tag), value)) else Err(TypeError)
    else if tag == "double" then
      if value.PFloat? then Ok(Single(WireName(tag), value)) else Err(TypeError)
    else if tag == "time" then
      if value.PStr? then Ok(Single(WireName(tag), value))
      else if IsInt(value) then TimestampFromOffset(IntOf(value), clock)
      else Err(TypeError)
    else if tag == "string" then
      if value.PStr? then Ok(Single(WireName(tag), value)) else Err(TypeError)
    else if tag == "bytes" then
      if value.PStr? then Ok(Single(WireName(tag), value)) else Err(TypeError)
    else if tag == "ref" then
      if value.PStr? then Ok(Single(WireName(tag), value)) else Err(TypeError)
    else if tag == "geo" then
      if value.PTuple? then GeoPoint(value.items) else Err(TypeError)
    else Err(ValueError)
  }

  /** `ArrayValue(value=Value(key=v["key"], value=v["value"])).data()`. */
  function EncodeArray(value: Py, clock: Clock): (r: Result<Py>)
    requires value.PDict? && HasSlots(value.entries)
    ensures r.Ok? ==> IsWireObject(r.value, "array")
    decreases value, 0
  {
    var d := value.entries;
    SlotsPresent(d);
    var child :- Encode(SlotValue(d, "key"), SlotValue(d, "value"), clock);
    NestedWireNames();
    Ok(Single("arrayValue", Single("values", PList([child]))))
  }

  /** `MapValue(key=v["key"], value=Value(key=v["value"]["key"],
      value=v["value"]["value"])).data()`: the inner payload must itself have
      the two slots, and the outer "key" slot becomes the single field name. */
  function EncodeMap(value: Py, clock: Clock): (r: Result<Py>)
    requires value.PDict? && HasSlots(value.entries)
    ensures r.Ok? ==> IsWireObject(r.value, "map")
    decreases value, 0
  {
    var d := value.entries;
    SlotsPresent(d);
    var inner := SlotValue(d, "value");
    if !inner.PDict? then Err(AttributeError)
    else if !HasSlots(inner.entries) then Err(KeyError)
    else
      SlotsPresent(inner.entries);
      var child :- Encode(SlotValue(inner.entries, "key"), SlotValue(inner.entries, "value"), clock);
      var name := SlotValue(d, "key");
      NestedWireNames();
      if !Hashable(name) then Err(TypeError)
      else Ok(Single("mapValue", Single("fields", PDict([(name, child)]))))
  }

  /** `d[name]` for a slot the check has shown to be there. */
  function SlotValue(d: seq<(Py, Py)>, name: string): (v: Py)
    requires PStr(name) in Keys(d)
    ensures v < PDict(d)
  {
    DictValue(d, PStr(name))
  }

  /** The payload type `determine()` demands for each tag before it builds
      anything. */
  predicate Accepts(tag: string, v: Py)
  {
    match tag
    case "null" => v.PNone?
    case "bool" => v.PBool?
    case "int" => IsInt(v)
    case "double" => v.PFloat?
    case "time" => v.PStr? || IsInt(v)
    case "string" => v.PStr?
    case "bytes" => v.PStr?
    case "ref" => v.PStr?
    case "geo" => v.PTuple?
    case "array" => v.PDict?
    case "map" => v.PDict?
    case _ => false
  }

  /** A payload of the wrong kind for a known tag is a TypeError, raised before
      any other check; the plain tags wrap an accepted payload unchanged. */
  lemma {:induction false} EncodeTypeCheck(tag: string, v: Py, clock: Clock)
    requires tag in Tags
    ensures !Accepts(tag, v) ==> Encode(PStr(tag), v, clock) == Err(TypeError)
    ensures Accepts(tag, v) && tag in ["bool", "int", "double", "string", "bytes", "ref"] ==>
              Encode(PStr(tag), v, clock) == Ok(Single(WireName(tag), v))
    ensures Accepts(tag, v) && tag == "null" ==>
              Encode(PStr(tag), v, clock) == Ok(Single("nullValue", PStr("NULL_VALUE")))
  {
  }

  /** A time payload is stored as given when it is a str and goes through
      the offset check when it is an int; a geo tuple goes through the
      geo-point check; an array or map payload without exactly the two slots
      is a KeyError. */
  lemma {:induction false} EncodeCases(v: Py, clock: Clock)
    ensures v.PStr? ==> Encode(PStr("time"), v, clock) == Ok(Single("timestampValue", v))
    ensures IsInt(v) ==> Encode(PStr("time"), v, clock) == TimestampFromOffset(IntOf(v), clock)
    ensures v.PTuple? ==> Encode(PStr("geo"), v, clock) == GeoPoint(v.items)
    ensures v.PDict? && !HasSlots(v.entries) ==>
              Encode(PStr("array"), v, clock) == Err(KeyError) && Encode(PStr("map"), v, clock) == Err(KeyError)
  {
  }

  /** An array payload `{"key": k, "value": x}` (in either order) holds the
      one child `Value(k, x)`: its error is the array's error, and otherwise
      the array's wire object lists exactly the child's. */
  lemma {:induction false} EncodeArrayContents(v: Py, k: Py, x: Py, clock: Clock)
    requires v.PDict? && HasSlots(v.entries)
    requires DictGet(v.entries, PStr("key")) == Some(k) && DictGet(v.entries, PStr("value")) == Some(x)
    ensures Encode(k, x, clock).Err? ==> Encode(PStr("array"), v, clock) == Encode(k, x, clock)
    ensures Encode(k, x, clock).Ok? ==>
              Encode(PStr("array"), v, clock) ==
              Ok(Single("arrayValue", Single("values", PList([Encode(k, x, clock).value]))))
  {
    SlotsPresent(v.entries);
  }

  /** A map payload's inner "value" slot must be a dict (AttributeError
      otherwise) with exactly the two slots (KeyError otherwise). */
  lemma {:induction false} EncodeMapChecks(v: Py, inner: Py, clock: Clock)
    requires v.PDict? && HasSlots(v.entries)
    requires DictGet(v.entries, PStr("value")) == Some(inner)
    ensures !inner.PDict? ==> Encode(PStr("map"), v, clock) == Err(AttributeError)
    ensures inner.PDict? && !HasSlots(inner.entries) ==> Encode(PStr("map"), v, clock) == Err(KeyError)
  {
    SlotsPresent(v.entries);
  }

  /** A map payload `{"key": name, "value": {"key": k, "value": x}}` holds the
      one field `name` with the child `Value(k, x)`: the child's error comes
      first, an unhashable name is a TypeError, and otherwise the map's wire
      object is `{"fields": {name: child}}`. */
  lemma {:induction false} EncodeMapContents(v: Py, name: Py, inner: Py, k: Py, x: Py, clock: Clock)
    requires v.PDict? && HasSlots(v.entries)
    requires DictGet(v.entries, PStr("key")) == Some(name) && DictGet(v.entries, PStr("value")) == Some(inner)
    requires inner.PDict? && HasSlots(inner.entries)
    requires DictGet(inner.entries, PStr("key")) == Some(k) && DictGet(inner.entries, PStr("value")) == Some(x)
    ensures Encode(k, x, clock).Err? ==> Encode(PStr("map"), v, clock) == Encode(k, x, clock)
    ensures Encode(k, x, clock).Ok? && !Hashable(name) ==> Encode(PStr("map"), v, clock) == Err(TypeError)
    ensures Encode(k, x, clock).Ok? && Hashable(name) ==>
              Encode(PStr("map"), v, clock) ==
              Ok(Single("mapValue", Single("fields", PDict([(name, Encode(k, x, clock).value)]))))
  {
    SlotsPresent(v.entries);
    SlotsPresent(inner.entries);
  }

  /** The inverse of `Encode`: reads a wire object back into a tag and a
      payload that builds it. Array and map payloads come back in their
      two-slot form; a time comes back as the string that was stored. */
  function Decode(w: Py): Option<(string, Py)>
    decreases w, 1
  {
    if !w.PDict? || |w.entries| != 1 || !w.entries[0].0.PStr? then None
    else
      var name := w.entries[0].0.s;
      var p := w.entries[0].1;
      if name == "arrayValue" then DecodeArray(p)
      else if name == "mapValue" then DecodeMap(p)
      else DecodeScalar(name, p)
  }

  /** The wire objects whose payload is not another wire object. */
  function DecodeScalar(name: string, p: Py): (r: Option<(string, Py)>)
    ensures r.Some? ==> r.value.0 != "array" && r.value.0 != "map" && WireName(r.value.0) == name
  {
    match name
    case "nullValue" => if p == PStr("NULL_VALUE") then Some(("null", PNone)) else None
    case "booleanValue" => if p.PBool? then Some(("bool", p)) else None
    case "integerValue" => if IsInt(p) then Some(("int", p)) else None
    case "doubleValue" => if p.PFloat? then Some(("double", p)) else None
    case "timestampValue" => if p.PStr? then Some(("time", p)) else None
    case "stringValue" => if p.PStr? then Some(("string", p)) else None
    case "bytesValue" => if p.PStr? then Some(("bytes", p)) else None
    case "referenceValue" => if p.PStr? then Some(("ref", p)) else None
    case "geoPointValue" =>
      if p.PDict? && |p.entries| == 2 && p.entries[0].0 == PStr("latitude") &&
         p.entries[1].0 == PStr("longitude") && p.entries[0].1.PFloat? && p.entries[1].1.PFloat?
      then Some(("geo", PTuple([p.entries[0].1, p.entries[1].1])))
      else None
    case _ => None
  }

  /** `{"values": [c]}` for a decodable `c`. */
  function DecodeArray(p: Py): Option<(string, Py)>
    decreases p, 0
  {
    if p.PDict? && |p.entries| == 1 && p.entries[0].0 == PStr("values") &&
       p.entries[0].1.PList? && |p.entries[0].1.items| == 1
    then
      match Decode(p.entries[0].1.items[0])
      case Some((t, q)) => Some(("array", Slots(PStr(t), q)))
      case None => None
    else None
  }

  /** `{"fields": {name: c}}` for a hashable name and a decodable `c`. */
  function DecodeMap(p: Py): Option<(string, Py)>
    decreases p, 0
  {
    if p.PDict? && |p.entries| == 1 && p.entries[0].0 == PStr("fields") &&
       p.entries[0].1.PDict? && |p.entries[0].1.entries| == 1 &&
       Hashable(p.entries[0].1.entries[0].0)
    then
      match Decode(p.entries[0].1.entries[0].1)
      case Some((t, q)) => Some(("map", Slots(p.entries[0].1.entries[0].0, Slots(PStr(t), q))))
      case None => None
    else None
  }

  /** The wire names of the two kinds that nest another value. */
  lemma {:induction false} NestedWireNames()
    ensures WireName("array") == "arrayValue" && WireName("map") == "mapValue"
  {
  }

  /** The two-slot dict passes the slot check and its slots read back. */
  lemma {:induction false} SlotsRead(k: Py, v: Py)
    ensures HasSlots(Slots(k, v).entries)
    ensures SlotValue(Slots(k, v).entries, "key") == k
    ensures SlotValue(Slots(k, v).entries, "value") == v
  {
    var d := Slots(k, v).entries;
    assert d[0].0 == PStr("key") && d[1].0 == PStr("value");
    SlotsOnly(d);
  }

  /** Whatever `Decode` reads out of a wire object builds that same object
      again: the decoded tag and payload are a `Value(...)` call whose
      `data()` is `w`. */
  lemma {:induction false} DecodeThenEncode(w: Py, clock: Clock)
    requires Decode(w).Some?
    ensures Encode(PStr(Decode(w).value.0), Decode(w).value.1, clock) == Ok(w)
    decreases w, 1
  {
    var name := w.entries[0].0.s;
    var p := w.entries[0].1;
    assert w == Single(name, p);
    if name == "arrayValue" {
      ArrayThenEncode(p, clock);
    } else if name == "mapValue" {
      MapThenEncode(p, clock);
    } else {
      ScalarThenEncode(name, p, clock);
      EncodeIsScalar(Decode(w).value.0, Decode(w).value.1, clock);
    }
  }

  /** Under a tag other than array and map, `Encode` is `EncodeScalar`. */
  lemma {:induction false} EncodeIsScalar(tag: string, value: Py, clock: Clock)
    requires tag != "array" && tag != "map"
    ensures Encode(PStr(tag), value, clock) == EncodeScalar(tag, value, clock)
  {
  }

  lemma {:induction false} ScalarThenEncode(name: string, p: Py, clock: Clock)
    requires DecodeScalar(name, p).Some?
    ensures EncodeScalar(DecodeScalar(name, p).value.0, DecodeScalar(name, p).value.1, clock) == Ok(Single(name, p))
  {
    if name == "geoPointValue" {
      GeoThenEncode(p);
    }
  }

  lemma {:induction false} ArrayThenEncode(p: Py, clock: Clock)
    requires DecodeArray(p).Some?
    ensures Encode(PStr("array"), DecodeArray(p).value.1, clock) == Ok(Single("arrayValue", p))
    decreases p, 0
  {
    var c := p.entries[0].1.items[0];
    var (ct, cq) := Decode(c).value;
    DecodeThenEncode(c, clock);
    SlotsRead(PStr(ct), cq);
    assert p.entries[0].1.items == [c];
    assert p.entries == [(PStr("values"), PList([c]))];
  }

  lemma {:induction false} MapThenEncode(p: Py, clock: Clock)
    requires DecodeMap(p).Some?
    ensures Encode(PStr("map"), DecodeMap(p).value.1, clock) == Ok(Single("mapValue", p))
    decreases p, 0
  {
    var name := p.entries[0].1.entries[0].0;
    var c := p.entries[0].1.entries[0].1;
    var (ct, cq) := Decode(c).value;
    DecodeThenEncode(c, clock);
    SlotsRead(PStr(ct), cq);
    SlotsRead(name, Slots(PStr(ct), cq));
    assert p.entries[0].1.entries == [(name, c)];
    assert p.entries == [(PStr("fields"), PDict([(name, c)]))];
  }

  /** Every wire object `Encode` builds decodes again, under the tag it was
      built with; apart from a time given as an offset and the two nested
      kinds, the payload comes back exactly. */
  lemma {:induction false} EncodeThenDecode(key: Py, value: Py, clock: Clock)
    requires Encode(key, value, clock).Ok?
    ensures Decode(Encode(key, value, clock).value).Some?
    ensures Decode(Encode(key, value, clock).value).value.0 == key.s
    ensures !(key.s == "time" && IsInt(value)) && key.s != "array" && key.s != "map" ==>
              Decode(Encode(key, value, clock).value).value.1 == value
    decreases value, 1
  {
    if key.s == "array" {
      ArrayThenDecode(value, clock);
    } else if key.s == "map" {
      MapThenDecode(value, clock);
    } else {
      ScalarThenDecode(key.s, value, clock);
    }
  }

  /** A geographical point decodes to the pair it was built from. */
  lemma {:induction false} GeoThenDecode(value: Py)
    requires value.PTuple? && GeoPoint(value.items).Ok?
    ensures Decode(GeoPoint(value.items).value) == Some(("geo", value))
  {
    assert value.items == [value.items[0], value.items[1]];
  }

  /** A geographical point's wire object encodes back to itself. */
  lemma {:induction false} GeoThenEncode(p: Py)
    requires DecodeScalar("geoPointValue", p).Some?
    ensures GeoPoint(DecodeScalar("geoPointValue", p).value.1.items) == Ok(Single("geoPointValue", p))
  {
    assert p.entries == [p.entries[0], p.entries[1]];
  }

  lemma {:induction false} ScalarThenDecode(tag: string, value: Py, clock: Clock)
    requires tag != "array" && tag != "map" && EncodeScalar(tag, value, clock).Ok?
    ensures Decode(EncodeScalar(tag, value, clock).value).Some?
    ensures Decode(EncodeScalar(tag, value, clock).value).value.0 == tag
    ensures !(tag == "time" && IsInt(value)) ==> Decode(EncodeScalar(tag, value, clock).value).value.1 == value
  {
    if tag == "geo" {
      GeoThenDecode(value);
    }
  }

  lemma {:induction false} ArrayThenDecode(value: Py, clock: Clock)
    requires value.PDict? && HasSlots(value.entries) && EncodeArray(value, clock).Ok?
    ensures DecodeArray(EncodeArray(value, clock).value.entries[0].1).Some?
    decreases value, 0
  {
    var d := value.entries;
    SlotsPresent(d);
    EncodeThenDecode(SlotValue(d, "key"), SlotValue(d, "value"), clock);
  }

  lemma {:induction false} MapThenDecode(value: Py, clock: Clock)
    requires value.PDict? && HasSlots(value.entries) && EncodeMap(value, clock).Ok?
    ensures DecodeMap(EncodeMap(value, clock).value.entries[0].1).Some?
    decreases value, 0
  {
    var d := value.entries;
    SlotsPresent(d);
    var inner := SlotValue(d, "value");
    SlotsPresent(inner.entries);
    EncodeThenDecode(SlotValue(inner.entries, "key"), SlotValue(inner.entries, "value"), clock);
  }
}
