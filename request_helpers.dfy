/** What the two helper files share: the path-joining loop of `build_url`,
    `build_params` and `build_body` (the same code in both files), and the
    `json.loads(json.dumps(...))` round trip `validate_json` applies. */
module RequestHelpers {
  import opened PyData
  import opened Values
  import opened Json

  // ---------------------------------------------------------------------
  // build_url: the loop over the positional arguments

  /** An argument the loop accepts: None (skipped) or a str. */
  predicate PathArg(a: Py)
  {
    a.PNone? || a.PStr?
  }

  /** What the loop appends for one accepted argument: nothing for None, the
      str followed by "/" unless it sits at the last position. */
  function Segment(a: Py, last: bool): string
    requires PathArg(a)
  {
    if a.PNone? then "" else if last then a.s else a.s + "/"
  }

  /** The url after the loop has handled the first `k` arguments. */
  function PathOf(args: seq<Py>, k: nat): string
    requires k <= |args|
    requires forall j :: 0 <= j < k ==> PathArg(args[j])
  {
    if k == 0 then "" else PathOf(args, k - 1) + Segment(args[k - 1], k - 1 == |args| - 1)
  }

  /** The str arguments, in order, with the None ones dropped. */
  function Strings(args: seq<Py>): seq<string>
    requires forall j :: 0 <= j < |args| ==> PathArg(args[j])
  {
    if args == [] then []
    else
      var a := args[|args| - 1];
      assert PathArg(a);
      Strings(args[..|args| - 1]) + (if a.PNone? then [] else [a.s])
  }

  /** `"/".join(xs)`. */
  function Join(xs: seq<string>): string
  {
    if xs == [] then ""
    else if |xs| == 1 then xs[0]
    else Join(xs[..|xs| - 1]) + "/" + xs[|xs| - 1]
  }

  /** Every element followed by "/". */
  function Slashed(xs: seq<string>): string
  {
    if xs == [] then "" else Slashed(xs[..|xs| - 1]) + xs[|xs| - 1] + "/"
  }

  lemma {:induction false} SlashedIsJoin(xs: seq<string>)
    ensures Slashed(xs) == if xs == [] then "" else Join(xs) + "/"
  {
    if |xs| > 1 {
      SlashedIsJoin(xs[..|xs| - 1]);
    } else if |xs| == 1 {
      assert xs[..0] == [];
    }
  }

  /** `Strings` of one more argument. */
  lemma {:induction false} StringsSnoc(args: seq<Py>, k: nat)
    requires 0 < k <= |args|
    requires forall j :: 0 <= j < |args| ==> PathArg(args[j])
    ensures Strings(args[..k]) == Strings(args[..k - 1]) + (if args[k - 1].PNone? then [] else [args[k - 1].s])
  {
    assert args[..k][..k - 1] == args[..k - 1];
  }

  /** `Slashed` of one more element. */
  lemma {:induction false} SlashedSnoc(xs: seq<string>, x: string)
    ensures Slashed(xs + [x]) == Slashed(xs) + (x + "/")
  {
    assert (xs + [x])[..|xs|] == xs;
    assert Slashed(xs) + x + "/" == Slashed(xs) + (x + "/");
  }

  /** Before the last position every present argument is followed by "/". */
  lemma {:induction false} PrefixPath(args: seq<Py>, k: nat)
    requires k < |args|
    requires forall j :: 0 <= j < |args| ==> PathArg(args[j])
    ensures PathOf(args, k) == Slashed(Strings(args[..k]))
  {
    if k == 0 {
      assert args[..0] == [];
    } else {
      PrefixPath(args, k - 1);
      StringsSnoc(args, k);
      if args[k - 1].PStr? {
        assert PathOf(args, k) == PathOf(args, k - 1) + (args[k - 1].s + "/");
        SlashedSnoc(Strings(args[..k - 1]), args[k - 1].s);
      } else {
        assert PathOf(args, k) == PathOf(args, k - 1);
        assert Strings(args[..k]) == Strings(args[..k - 1]);
      }
    }
  }

  /** When the last argument is present the loop builds the "/"-join of the
      present arguments; when it is None the join keeps a trailing "/". */
  lemma {:induction false} PathIsJoin(args: seq<Py>)
    requires forall j :: 0 <= j < |args| ==> PathArg(args[j])
    ensures args != [] && args[|args| - 1].PStr? ==> PathOf(args, |args|) == Join(Strings(args))
    ensures args == [] || args[|args| - 1].PNone? ==>
              PathOf(args, |args|) == if Strings(args) == [] then "" else Join(Strings(args)) + "/"
  {
    if args != [] {
      var n := |args|;
      PrefixPath(args, n - 1);
      assert args[..n] == args;
      var s := Strings(args[..n - 1]);
      SlashedIsJoin(s);
      if args[n - 1].PStr? {
        var t := s + [args[n - 1].s];
        assert Strings(args) == t;
        assert t[..|s|] == s;
      } else {
        assert Strings(args) == s;
      }
    }
  }

  /** The loop of `build_url`: ValueError at the first argument that is
      neither None nor a str, else the joined path. */
  method JoinPath(args: seq<Py>) returns (r: Result<string>)
    ensures r.Err? <==> exists j :: 0 <= j < |args| && !PathArg(args[j])
    ensures r.Err? ==> r.error == ValueError
    ensures r.Ok? ==> r.value == PathOf(args, |args|)
  {
    var url := "";
    var i := 0;
    while i < |args|
      invariant 0 <= i <= |args|
      invariant forall j :: 0 <= j < i ==> PathArg(args[j])
      invariant url == PathOf(args, i)
    {
      var sub := args[i];
      if !sub.PNone? {
        if sub.PStr? {
          if i != |args| - 1 {
            url := url + (sub.s + "/");
          } else {
            url := url + sub.s;
          }
        } else {
          return Err(ValueError);
        }
      }
      i := i + 1;
    }
    return Ok(url);
  }

  // ---------------------------------------------------------------------
  // build_params

  /** Keyword arguments in call order; Python keeps their names distinct. */
  type Kwargs = seq<(string, Py)>

  predicate DistinctNames(kw: Kwargs)
  {
    forall i, j :: 0 <= i < j < |kw| ==> kw[i].0 != kw[j].0
  }

  /** The key a non-dict argument is stored under: `mask` and `updateMask`
      get the suffix ".fieldPaths", every other name is kept. */
  function ParamName(name: string): (r: string)
    ensures name == "mask" ==> r == "mask.fieldPaths"
    ensures name == "updateMask" ==> r == "updateMask.fieldPaths"
    ensures name != "mask" && name != "updateMask" ==> r == name
  {
    if name == "mask" || name == "updateMask" then name + ".fieldPaths" else name
  }

  /** `d.get(k)`, None when absent. */
  function DocValue(d: seq<(Py, Py)>, k: Py): Py
  {
    match DictGet(d, k)
    case Some(v) => v
    case None => PNone
  }

  /** Every key `Keys` lists has a value. */
  lemma {:induction false} KeysFound(d: seq<(Py, Py)>)
    ensures forall j :: 0 <= j < |Keys(d)| ==> DictGet(d, Keys(d)[j]) == Some(DocValue(d, Keys(d)[j]))
  {
    forall j | 0 <= j < |Keys(d)| ensures DictGet(d, Keys(d)[j]).Some? {
      assert Keys(d)[j] in Keys(d);
    }
  }

  /** The writes one keyword argument makes to `params`, in order; `pyStr`
      is `str()` on the values the model does not render itself. */
  function ParamWrites(name: string, v: Py, pyStr: Py -> string): (r: seq<(string, Py)>)
    ensures v.PNone? ==> r == []
    ensures v.PDict? && name != "currentDocument" ==> r == []
    ensures !v.PNone? && !v.PDict? ==> r == [(ParamName(name), v)]
    ensures v.PDict? && name == "currentDocument" ==>
              |r| == |Keys(v.entries)| &&
              forall j :: 0 <= j < |r| ==>
                r[j].0 == "currentDocument." + Str(Keys(v.entries)[j], pyStr) &&
                DictGet(v.entries, Keys(v.entries)[j]) == Some(r[j].1)
  {
    if v.PNone? then []
    else if v.PDict? then
      if name == "currentDocument" then
        var ks := Keys(v.entries);
        KeysFound(v.entries);
        seq(|ks|, j requires 0 <= j < |ks| => ("currentDocument." + Str(ks[j], pyStr), DocValue(v.entries, ks[j])))
      else []
    else [(ParamName(name), v)]
  }

  /** Assigning `m[key] = value` for each write in turn. */
  function Apply(m: map<string, Py>, ws: seq<(string, Py)>): map<string, Py>
  {
    if ws == [] then m else Apply(m, ws[..|ws| - 1])[ws[|ws| - 1].0 := ws[|ws| - 1].1]
  }

  /** The dict `build_params` returns, as a map (insertion order aside). */
  function Params(kw: Kwargs, pyStr: Py -> string): map<string, Py>
  {
    if kw == [] then map[]
    else Apply(Params(kw[..|kw| - 1], pyStr), ParamWrites(kw[|kw| - 1].0, kw[|kw| - 1].1, pyStr))
  }

  /** Whether one keyword argument writes `key`. */
  predicate WritesKey(arg: (string, Py), pyStr: Py -> string, key: string)
  {
    exists j :: 0 <= j < |ParamWrites(arg.0, arg.1, pyStr)| && ParamWrites(arg.0, arg.1, pyStr)[j].0 == key
  }

  lemma {:induction false} ApplyDomain(m: map<string, Py>, ws: seq<(string, Py)>, key: string)
    ensures key in Apply(m, ws) <==> key in m || exists j :: 0 <= j < |ws| && ws[j].0 == key
  {
    if ws != [] {
      var p := ws[..|ws| - 1];
      ApplyDomain(m, p, key);
      assert forall j :: 0 <= j < |p| ==> p[j] == ws[j];
    }
  }

  /** One more write is one more assignment. */
  lemma {:induction false} ApplyStep(m: map<string, Py>, ws: seq<(string, Py)>, j: nat)
    requires j < |ws|
    ensures Apply(m, ws[..j + 1]) == Apply(m, ws[..j])[ws[j].0 := ws[j].1]
  {
    assert ws[..j + 1][..j] == ws[..j];
  }

  /** Writes to other keys leave a key's entry alone. */
  lemma {:induction false} ApplyUntouched(m: map<string, Py>, ws: seq<(string, Py)>, key: string)
    requires forall j :: 0 <= j < |ws| ==> ws[j].0 != key
    ensures key in Apply(m, ws) <==> key in m
    ensures key in m ==> Apply(m, ws)[key] == m[key]
  {
    if ws != [] {
      ApplyUntouched(m, ws[..|ws| - 1], key);
    }
  }

  /** The last write to a key decides its value. */
  lemma {:induction false} ApplyLastWrite(m: map<string, Py>, ws: seq<(string, Py)>, j: nat)
    requires j < |ws|
    requires forall l :: j < l < |ws| ==> ws[l].0 != ws[j].0
    ensures ws[j].0 in Apply(m, ws) && Apply(m, ws)[ws[j].0] == ws[j].1
  {
    if j < |ws| - 1 {
      ApplyLastWrite(m, ws[..|ws| - 1], j);
    }
  }

  /** A key already present stays present. */
  lemma {:induction false} ApplyKeeps(m: map<string, Py>, ws: seq<(string, Py)>, key: string)
    requires key in m
    ensures key in Apply(m, ws)
  {
    if ws != [] {
      ApplyKeeps(m, ws[..|ws| - 1], key);
    }
  }

  /** Every written key is present. */
  lemma {:induction false} ApplyWrites(m: map<string, Py>, ws: seq<(string, Py)>, j: nat)
    requires j < |ws|
    ensures ws[j].0 in Apply(m, ws)
  {
    if j < |ws| - 1 {
      ApplyWrites(m, ws[..|ws| - 1], j);
    }
  }

  /** A key the last argument writes is in the result. */
  lemma {:induction false} LastWritten(kw: Kwargs, pyStr: Py -> string, key: string)
    requires kw != [] && WritesKey(kw[|kw| - 1], pyStr, key)
    ensures key in Params(kw, pyStr)
  {
    var last := kw[|kw| - 1];
    var ws := ParamWrites(last.0, last.1, pyStr);
    var j :| 0 <= j < |ws| && ws[j].0 == key;
    ApplyWrites(Params(kw[..|kw| - 1], pyStr), ws, j);
  }

  /** A key the earlier arguments put in the result stays there. */
  lemma {:induction false} EarlierKept(kw: Kwargs, pyStr: Py -> string, key: string)
    requires kw != [] && key in Params(kw[..|kw| - 1], pyStr)
    ensures key in Params(kw, pyStr)
  {
    var last := kw[|kw| - 1];
    ApplyKeeps(Params(kw[..|kw| - 1], pyStr), ParamWrites(last.0, last.1, pyStr), key);
  }

  /** A key some argument writes ends up in the result. */
  lemma {:induction false} ParamsHasWritten(kw: Kwargs, pyStr: Py -> string, key: string, i: nat)
    requires i < |kw| && WritesKey(kw[i], pyStr, key)
    ensures key in Params(kw, pyStr)
  {
    var p := kw[..|kw| - 1];
    if i < |p| {
      assert p[i] == kw[i];
      ParamsHasWritten(p, pyStr, key, i);
      EarlierKept(kw, pyStr, key);
    } else {
      LastWritten(kw, pyStr, key);
    }
  }

  /** A key in the result was written by some argument. */
  lemma {:induction false} ParamsOnlyWritten(kw: Kwargs, pyStr: Py -> string, key: string)
    ensures key in Params(kw, pyStr) ==> exists i :: 0 <= i < |kw| && WritesKey(kw[i], pyStr, key)
  {
    if kw != [] && key in Params(kw, pyStr) {
      var p := kw[..|kw| - 1];
      var last := kw[|kw| - 1];
      var ws := ParamWrites(last.0, last.1, pyStr);
      ApplyDomain(Params(p, pyStr), ws, key);
      if key in Params(p, pyStr) {
        ParamsOnlyWritten(p, pyStr, key);
        var i :| 0 <= i < |p| && WritesKey(p[i], pyStr, key);
        assert kw[i] == p[i];
      } else {
        assert WritesKey(kw[|kw| - 1], pyStr, key);
      }
    }
  }

  /** `build_params` returns exactly the keys some argument writes: None
      values and dicts under any name but `currentDocument` add nothing. */
  lemma {:induction false} ParamsDomain(kw: Kwargs, pyStr: Py -> string, key: string)
    ensures key in Params(kw, pyStr) <==> exists i :: 0 <= i < |kw| && WritesKey(kw[i], pyStr, key)
  {
    if key in Params(kw, pyStr) {
      ParamsOnlyWritten(kw, pyStr, key);
    } else {
      forall i | 0 <= i < |kw| ensures !WritesKey(kw[i], pyStr, key) {
        if WritesKey(kw[i], pyStr, key) {
          ParamsHasWritten(kw, pyStr, key, i);
        }
      }
    }
  }

  /** A non-None, non-dict argument is stored under its (renamed) name,
      unless a later argument overwrites that key. */
  lemma {:induction false} ParamsScalar(kw: Kwargs, pyStr: Py -> string, i: nat)
    requires i < |kw| && !kw[i].1.PNone? && !kw[i].1.PDict?
    requires forall l :: i < l < |kw| ==> !WritesKey(kw[l], pyStr, ParamName(kw[i].0))
    ensures ParamName(kw[i].0) in Params(kw, pyStr)
    ensures Params(kw, pyStr)[ParamName(kw[i].0)] == kw[i].1
  {
    var key := ParamName(kw[i].0);
    var p := kw[..|kw| - 1];
    var last := kw[|kw| - 1];
    var ws := ParamWrites(last.0, last.1, pyStr);
    if i == |kw| - 1 {
      ApplyLastWrite(Params(p, pyStr), ws, 0);
    } else {
      assert p[i] == kw[i];
      forall l | i < l < |p| ensures !WritesKey(p[l], pyStr, key) {
        assert p[l] == kw[l];
      }
      ParamsScalar(p, pyStr, i);
      assert !WritesKey(last, pyStr, key);
      ApplyUntouched(Params(p, pyStr), ws, key);
    }
  }

  /** A dict under `currentDocument` is flattened: its key `k` is stored as
      "currentDocument.<k>" with the dict's value, unless a later key of the
      dict or a later argument writes the same name. */
  lemma {:induction false} ParamsDocument(kw: Kwargs, pyStr: Py -> string, i: nat, j: nat)
    requires i < |kw| && kw[i].0 == "currentDocument" && kw[i].1.PDict?
    requires j < |Keys(kw[i].1.entries)|
    requires forall l :: j < l < |Keys(kw[i].1.entries)| ==>
               Str(Keys(kw[i].1.entries)[l], pyStr) != Str(Keys(kw[i].1.entries)[j], pyStr)
    requires forall l :: i < l < |kw| ==>
               !WritesKey(kw[l], pyStr, "currentDocument." + Str(Keys(kw[i].1.entries)[j], pyStr))
    ensures "currentDocument." + Str(Keys(kw[i].1.entries)[j], pyStr) in Params(kw, pyStr)
    ensures Some(Params(kw, pyStr)["currentDocument." + Str(Keys(kw[i].1.entries)[j], pyStr)]) ==
            DictGet(kw[i].1.entries, Keys(kw[i].1.entries)[j])
  {
    var ks := Keys(kw[i].1.entries);
    var key := "currentDocument." + Str(ks[j], pyStr);
    var p := kw[..|kw| - 1];
    var last := kw[|kw| - 1];
    var ws := ParamWrites(last.0, last.1, pyStr);
    if i == |kw| - 1 {
      forall l | j < l < |ws| ensures ws[l].0 != ws[j].0 {
        var pfx := "currentDocument.";
        assert ws[l].0 == pfx + Str(ks[l], pyStr);
        assert (pfx + Str(ks[l], pyStr))[|pfx|..] == Str(ks[l], pyStr);
        assert (pfx + Str(ks[j], pyStr))[|pfx|..] == Str(ks[j], pyStr);
      }
      ApplyLastWrite(Params(p, pyStr), ws, j);
    } else {
      assert p[i] == kw[i];
      forall l | i < l < |p| ensures !WritesKey(p[l], pyStr, key) {
        assert p[l] == kw[l];
      }
      ParamsDocument(p, pyStr, i, j);
      assert !WritesKey(last, pyStr, key);
      ApplyUntouched(Params(p, pyStr), ws, key);
    }
  }

  /** `build_params(**kw)`: the loop over the arguments, with the inner loop
      over the keys of a dict argument. */
  method BuildParams(kw: Kwargs, pyStr: Py -> string) returns (params: map<string, Py>)
    ensures params == Params(kw, pyStr)
  {
    params := map[];
    var i := 0;
    while i < |kw|
      invariant 0 <= i <= |kw|
      invariant params == Params(kw[..i], pyStr)
    {
      assert kw[..i + 1][..i] == kw[..i];
      var (key, v) := kw[i];
      assert Params(kw[..i + 1], pyStr) == Apply(params, ParamWrites(key, v, pyStr));
      if !v.PNone? {
        if v.PDict? {
          params := WriteDocument(params, key, v, pyStr);
        } else {
          params := params[ParamName(key) := v];
          assert [(ParamName(key), v)][..0] == [];
        }
      }
      i := i + 1;
    }
    assert kw[..i] == kw;
  }

  /** The inner loop of `build_params` over the keys of a dict argument,
      which writes only when the argument is `currentDocument`. */
  method WriteDocument(params: map<string, Py>, key: string, v: Py, pyStr: Py -> string)
    returns (out: map<string, Py>)
    requires v.PDict?
    ensures out == Apply(params, ParamWrites(key, v, pyStr))
  {
    var ks := Keys(v.entries);
    ghost var ws := ParamWrites(key, v, pyStr);
    KeysFound(v.entries);
    out := params;
    var j := 0;
    while j < |ks|
      invariant 0 <= j <= |ks|
      invariant key == "currentDocument" ==> out == Apply(params, ws[..j])
      invariant key != "currentDocument" ==> out == params
    {
      if key == "currentDocument" {
        ApplyStep(params, ws, j);
        assert ws[j] == ("currentDocument." + Str(ks[j], pyStr), DocValue(v.entries, ks[j]));
        out := out["currentDocument." + Str(ks[j], pyStr) := DocValue(v.entries, ks[j])];
      }
      j := j + 1;
    }
    if key == "currentDocument" {
      assert ws[..j] == ws;
    } else {
      assert ws == [];
    }
  }

  // ---------------------------------------------------------------------
  // build_body

  /** The entry one keyword argument adds to the body: a list `mask` as
      `{"fieldPaths": mask}`, a list `documents` as it is, an int `readTime`
      in 0..269 as the time that many seconds ago (ValueError outside that
      range); nothing for anything else. */
  function BodyEntry(name: string, v: Py, clock: Clock): Result<Option<Py>>
  {
    if name == "mask" then
      if v.PList? then Ok(Some(Single("fieldPaths", v))) else Ok(None)
    else if name == "documents" then
      if v.PList? then Ok(Some(v)) else Ok(None)
    else if name == "readTime" then
      if IsInt(v) then
        if 0 <= IntOf(v) <= 269 then Ok(Some(PStr(clock(IntOf(v))))) else Err(ValueError)
      else Ok(None)
    else Ok(None)
  }

  /** A `readTime` the body rejects. */
  predicate BadReadTime(arg: (string, Py))
  {
    arg.0 == "readTime" && IsInt(arg.1) && !(0 <= IntOf(arg.1) <= 269)
  }

  /** The dict `build_body` returns, as a map. */
  function Body(kw: Kwargs, clock: Clock): (r: Result<map<string, Py>>)
    ensures r.Err? <==> exists i :: 0 <= i < |kw| && BadReadTime(kw[i])
    ensures r.Err? ==> r.error == ValueError
  {
    if kw == [] then Ok(map[])
    else
      var p := kw[..|kw| - 1];
      assert forall i :: 0 <= i < |p| ==> p[i] == kw[i];
      var m :- Body(p, clock);
      var e :- BodyEntry(kw[|kw| - 1].0, kw[|kw| - 1].1, clock);
      Ok(if e.Some? then m[kw[|kw| - 1].0 := e.value] else m)
  }

  /** The body holds only `mask`, `documents` and `readTime`, and only when an
      argument of that name was passed. */
  lemma {:induction false} BodyKeys(kw: Kwargs, clock: Clock, key: string)
    requires Body(kw, clock).Ok?
    ensures key in Body(kw, clock).value ==> key == "mask" || key == "documents" || key == "readTime"
    ensures key in Body(kw, clock).value ==> exists i :: 0 <= i < |kw| && kw[i].0 == key
  {
    if kw != [] {
      var p := kw[..|kw| - 1];
      BodyKeys(p, clock, key);
      if key in Body(p, clock).value {
        var i :| 0 <= i < |p| && p[i].0 == key;
        assert kw[i] == p[i];
      }
    }
  }

  /** What each accepted argument contributes, with distinct argument names. */
  lemma {:induction false} BodyEntries(kw: Kwargs, clock: Clock, i: nat)
    requires DistinctNames(kw) && i < |kw|
    requires Body(kw, clock).Ok?
    ensures kw[i].0 == "mask" ==>
              ("mask" in Body(kw, clock).value <==> kw[i].1.PList?) &&
              (kw[i].1.PList? ==> Body(kw, clock).value["mask"] == Single("fieldPaths", kw[i].1))
    ensures kw[i].0 == "documents" ==>
              ("documents" in Body(kw, clock).value <==> kw[i].1.PList?) &&
              (kw[i].1.PList? ==> Body(kw, clock).value["documents"] == kw[i].1)
    ensures kw[i].0 == "readTime" ==>
              ("readTime" in Body(kw, clock).value <==> IsInt(kw[i].1)) &&
              (IsInt(kw[i].1) ==> 0 <= IntOf(kw[i].1) <= 269 &&
                                  Body(kw, clock).value["readTime"] == PStr(clock(IntOf(kw[i].1))))
  {
    var p := kw[..|kw| - 1];
    var name := kw[|kw| - 1].0;
    assert Body(p, clock).Ok?;
    if i < |kw| - 1 {
      assert p[i] == kw[i];
      assert DistinctNames(p);
      BodyEntries(p, clock, i);
      assert name != kw[i].0;
    } else {
      BodyKeys(p, clock, kw[i].0);
      assert forall l :: 0 <= l < |p| ==> p[l] == kw[l];
    }
  }

  /** `build_body(**kw)`: the loop over the arguments, returning early with
      ValueError on an out-of-range `readTime`. */
  method BuildBody(kw: Kwargs, clock: Clock) returns (r: Result<map<string, Py>>)
    ensures r == Body(kw, clock)
  {
    var data: map<string, Py> := map[];
    var i := 0;
    while i < |kw|
      invariant 0 <= i <= |kw|
      invariant Body(kw[..i], clock) == Ok(data)
    {
      assert kw[..i + 1][..i] == kw[..i];
      var (key, v) := kw[i];
      if key == "mask" {
        if v.PList? {
          data := data[key := Single("fieldPaths", v)];
        }
      } else if key == "documents" {
        if v.PList? {
          data := data[key := v];
        }
      } else if key == "readTime" {
        if IsInt(v) {
          if 0 <= IntOf(v) <= 269 {
            data := data[key := PStr(clock(IntOf(v)))];
          } else {
            assert BadReadTime(kw[i]);
            return Err(ValueError);
          }
        }
      }
      i := i + 1;
    }
    assert kw[..i] == kw;
    return Ok(data);
  }

  // ---------------------------------------------------------------------
  // validate_json

  /** The round trip under the `try` that turns every failure into ValueError. */
  function JsonOrValueError(v: Py, floatText: Float -> string): (r: Result<Py>)
    ensures r.Ok? <==> Dumpable(v)
    ensures r.Err? ==> r.error == ValueError
    ensures r.Ok? ==> r == PlainJson(v, floatText)
  {
    var j := PlainJson(v, floatText);
    if j.Err? then Err(ValueError) else j
  }
}
