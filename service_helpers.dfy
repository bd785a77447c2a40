/** The request helpers of the services package: `build_url` prefixes its
    delimiter with ":", `validate_json` decides on its first argument alone,
    and `_currentTime` checks the range of its offset. */
module ServiceHelpers {
  import opened PyData
  import opened Values
  import opened RequestHelpers
  import FirestoreHelpers

  /** `build_url(*args, delimiter=...)`: the joined path, then a truthy
      delimiter appended as ":" followed by its `str()`. */
  method BuildUrl(args: seq<Py>, delimiter: Py, pyStr: Py -> string) returns (r: Result<string>)
    ensures (exists j :: 0 <= j < |args| && !PathArg(args[j])) ==> r == Err(ValueError)
    ensures (forall j :: 0 <= j < |args| ==> PathArg(args[j])) ==>
              r == Ok(PathOf(args, |args|) + if Truthy(delimiter) then ":" + Str(delimiter, pyStr) else "")
  {
    var url :- JoinPath(args);
    if Truthy(delimiter) {
      url := url + (":" + Str(delimiter, pyStr));
    } else {
      assert url + "" == url;
    }
    return Ok(url);
  }

  /** `validate_json(*args)`: the loop returns or raises on its first pass,
      so only the first argument counts: a dict goes through the json round
      trip, anything else is a ValueError; with no arguments the result is
      None. */
  method ValidateJson(args: seq<Py>, floatText: Float -> string) returns (r: Result<Py>)
    ensures args == [] ==> r == Ok(PNone)
    ensures args != [] && !args[0].PDict? ==> r == Err(ValueError)
    ensures args != [] && args[0].PDict? ==> r == JsonOrValueError(args[0], floatText)
  {
    if args == [] {
      return Ok(PNone);
    }
    if args[0].PDict? {
      return JsonOrValueError(args[0], floatText);
    }
    return Err(ValueError);
  }

  /** `_currentTime(minus)`: a nonzero offset outside 0..269 is a ValueError;
      otherwise the time is the one the unchecked copy computes. */
  function CurrentTime(minus: int, clock: Clock): (r: Result<string>)
    ensures r.Ok? <==> 0 <= minus <= 269
    ensures r.Err? ==> r.error == ValueError
    ensures r.Ok? ==> r.value == FirestoreHelpers.CurrentTime(minus, clock)
  {
    if minus != 0 then
      if 0 <= minus <= 269 then Ok(clock(minus)) else Err(ValueError)
    else Ok(clock(0))
  }

  /** `build_body` checks a `readTime` before it reaches `_currentTime`, so
      this copy's range check never fires from there, and the body holds the
      time both copies compute. */
  lemma {:induction false} BodyReadTimeChecked(kw: Kwargs, clock: Clock, i: nat)
    requires DistinctNames(kw) && i < |kw| && kw[i].0 == "readTime" && IsInt(kw[i].1)
    requires Body(kw, clock).Ok?
    ensures CurrentTime(IntOf(kw[i].1), clock).Ok?
    ensures "readTime" in Body(kw, clock).value
    ensures Body(kw, clock).value["readTime"] == PStr(CurrentTime(IntOf(kw[i].1), clock).value)
    ensures Body(kw, clock).value["readTime"] == PStr(FirestoreHelpers.CurrentTime(IntOf(kw[i].1), clock))
  {
    BodyEntries(kw, clock, i);
  }
}
