/** The request helpers of the Firestore service package: `build_url`
    appends its delimiter as it is, `validate_json` looks for the first dict
    among its arguments, and `_currentTime` subtracts its offset unchecked. */
module FirestoreHelpers {
  import opened PyData
  import opened Values
  import opened RequestHelpers

  /** `build_url(*args, delimiter=...)`: the joined path, then a truthy
      delimiter appended verbatim; a truthy delimiter that is not a str cannot
      be added to the url (TypeError). */
  method BuildUrl(args: seq<Py>, delimiter: Py) returns (r: Result<string>)
    ensures (exists j :: 0 <= j < |args| && !PathArg(args[j])) ==> r == Err(ValueError)
    ensures (forall j :: 0 <= j < |args| ==> PathArg(args[j])) ==>
              r == if !Truthy(delimiter) then Ok(PathOf(args, |args|))
                   else if delimiter.PStr? then Ok(PathOf(args, |args|) + delimiter.s)
                   else Err(TypeError)
  {
    var url :- JoinPath(args);
    if Truthy(delimiter) {
      if delimiter.PStr? {
        url := url + delimiter.s;
      } else {
        return Err(TypeError);
      }
    }
    return Ok(url);
  }

  /** The position of the first dict among the arguments. */
  function FirstDict(args: seq<Py>): (r: Option<nat>)
    ensures r.Some? ==> r.value < |args| && args[r.value].PDict? &&
                        forall j :: 0 <= j < r.value ==> !args[j].PDict?
    ensures r.None? <==> forall j :: 0 <= j < |args| ==> !args[j].PDict?
  {
    if args == [] then None
    else if args[0].PDict? then Some(0)
    else
      match FirstDict(args[1..])
      case Some(i) => Some(i + 1)
      case None =>
        assert forall j :: 1 <= j < |args| ==> args[j] == args[1..][j - 1];
        None
  }

  /** `validate_json(*args)`: arguments that are not dicts are skipped; the
      first dict goes through the json round trip (any failure there is a
      ValueError) and is returned; with no dict the result is None. */
  method ValidateJson(args: seq<Py>, floatText: Float -> string) returns (r: Result<Py>)
    ensures FirstDict(args).None? ==> r == Ok(PNone)
    ensures FirstDict(args).Some? ==> r == JsonOrValueError(args[FirstDict(args).value], floatText)
  {
    var i := 0;
    while i < |args|
      invariant 0 <= i <= |args|
      invariant forall j :: 0 <= j < i ==> !args[j].PDict?
    {
      if args[i].PDict? {
        return JsonOrValueError(args[i], floatText);
      }
      i := i + 1;
    }
    return Ok(PNone);
  }

  /** `_currentTime(minus)`: the time `minus` seconds before the clock's
      present, with no check of `minus`. Its `if minus:` only skips
      subtracting zero seconds, so None and 0 both read the clock at 0. */
  function CurrentTime(minus: int, clock: Clock): string
  {
    clock(minus)
  }
}
