# pyVTFirebase structured-query core, modelled in Dafny

This project models the part of pyVTFirebase that builds requests for the
Firestore REST API without touching the network:

- the value encoder `Value(key, value)`, which checks a payload against a
  type tag and fixes the one-key wire object its `data()` returns
  (`{"integerValue": 7}`, `{"arrayValue": {"values": [...]}}`, ...);
- the structured-query primitives (`FieldReference`, `Projection` with its
  `fields` setter, `CollectionSelector`) and the JSON encoder hook that
  renders library objects through `data()`;
- the immutable query builder (`select`, `fromCollection`, `where`,
  `orderBy`, `startAt`, `endAt`, `offset`, `limit`, `__eq__`, `to_json`),
  its operator table and its NaN/None unary-filter selection;
- the older query builder with a `parent` field, whose `fromCollection`
  takes a list of `(collectionId, allDescendants)` pairs;
- the two copies of the request helpers (`build_url`, `build_params`,
  `validate_json`, `build_body`, `_currentTime`).

Python values are one datatype, `PyData.Py` (None, bool, int, float as IEEE
bits, str, tuple, list, dict as an ordered list of pairs, library objects).
A dict reads with `dict(pairs)` semantics: a key sits at its first position
and holds its last value. Exceptions are `Err` results carrying the Python
exception class.

Files and modules:

| file | module | models |
|---|---|---|
| `py_data.dfy` | `PyData` | Python values, truthiness, dict lookup, `len`, indexing, `str()` of scalars |
| `value.dfy` | `Values` | `types/value.py` |
| `structured_query.dfy` | `StructuredQuery` | `types/structuredQuery.py`, and the `json` round trip through the encoder hook |
| `json.dfy` | `Json` | `json.loads(json.dumps(...))` without a hook: what `json.dumps` refuses, how it converts dict keys, and what `json.loads` builds |
| `query.dfy` | `Query` | `types/query.py` (builder functions; `to_json` as a loop) |
| `legacy_query.dfy` | `LegacyQuery` | `firestore/query.py` |
| `request_helpers.dfy` | `RequestHelpers` | the code both helper files share: the `build_url` loop, `build_params`, `build_body`, and the error handling `validate_json` puts around the `json` round trip |
| `firestore_helpers.dfy` | `FirestoreHelpers` | what is particular to `firestore/helpers.py` |
| `service_helpers.dfy` | `ServiceHelpers` | what is particular to `services/helpers.py` |

`build_params` and `build_body` are the same code in
`pyVTFirebase/services/firestore/helpers.py` and
`pyVTFirebase/services/helpers.py`, so both copies are modelled by the same
members in `RequestHelpers`. The rows below cite the first copy. The copies
differ in three places: the delimiter of `build_url`, the strictness of
`validate_json`, and the range check of `_currentTime`. Each module has its
own member for these.

The builders and `data()` methods are pure, so they are functions. The loops
that fill a dict or a string step by step are methods with loop invariants:
`to_json` in both query builders and the helper loops. Each such method is
proved equal to a specification function, and the lemmas are stated about
that function.

## Model

| member | source | states |
|---|---|---|
| Values.Encode | pyVTFirebase/services/firestore/types/value.py:21-110 | a non-str key is a TypeError and an unknown tag a ValueError; a success is a one-key wire object keyed by the tag's wire name (the payload errors of each tag are stated by `Values.EncodeTypeCheck`, `Values.EncodeCases` and `Values.EncodeMapChecks`) |
| Values.EncodeScalar | pyVTFirebase/services/firestore/types/value.py:24-68 | for the nine tags other than array and map, a success is a one-key wire object keyed by the tag's wire name; a name outside the tag list is a ValueError |
| Values.EncodeCases | pyVTFirebase/services/firestore/types/value.py:44-107 | a str time is stored as given and an int time goes through the offset check; a geo tuple goes through the geo-point check; an array or map dict without exactly the two slots is a KeyError |
| Values.EncodeTypeCheck | pyVTFirebase/services/firestore/types/value.py:24-63 | a payload of the wrong kind for a known tag is a TypeError (`int` accepts bools); the six plain tags wrap an accepted payload unchanged under their wire name; `null` gives `{"nullValue": "NULL_VALUE"}` |
| Values.TimestampFromOffset | pyVTFirebase/services/firestore/types/value.py:189-203 | an int offset is accepted exactly when it is 0 or within 0..269 (ValueError otherwise); the wire object holds the clock's time that many seconds back |
| Values.GeoPoint | pyVTFirebase/services/firestore/types/value.py:270-298 | accepted exactly when the tuple holds two floats (ValueError otherwise); latitude and longitude read back as its two items |
| Values.EncodeArray | pyVTFirebase/services/firestore/types/value.py:69-85 | an encoded array is a one-key `arrayValue` wire object |
| Values.EncodeArrayContents | pyVTFirebase/services/firestore/types/value.py:69-85 | the child `Value(v["key"], v["value"])` fails the array with its own error; otherwise the array is `{"arrayValue": {"values": [child]}}` |
| Values.EncodeMap | pyVTFirebase/services/firestore/types/value.py:86-107 | an encoded map is a one-key `mapValue` wire object |
| Values.EncodeMapChecks | pyVTFirebase/services/firestore/types/value.py:93-102 | the inner `value` slot must be a dict (AttributeError otherwise, from `.keys()`) with exactly the two slots (KeyError otherwise) |
| Values.EncodeMapContents | pyVTFirebase/services/firestore/types/value.py:104-105 | the child's error comes first; an unhashable field name is a TypeError; otherwise the map is `{"mapValue": {"fields": {name: child}}}` |
| Values.SlotsExactly | pyVTFirebase/services/firestore/types/value.py:76-82 | the array/map key check passes exactly when the dict's keys are "key" and "value" and nothing else |
| Values.SlotsRead | pyVTFirebase/services/firestore/types/value.py:83 | the dict `{"key": k, "value": v}` passes the check and its slots read back as k and v |
| Values.DecodeThenEncode | pyVTFirebase/services/firestore/types/value.py:112-118 | every wire object the decoder reads is rebuilt exactly by encoding what it read (encode after decode is the identity) |
| Values.EncodeThenDecode | pyVTFirebase/services/firestore/types/value.py:112-118 | every encoded value decodes again under its own tag, and the payload comes back unchanged except for int timestamps, arrays and maps |
| StructuredQuery.FieldReferenceData | pyVTFirebase/services/firestore/types/structuredQuery.py:64-65 | `data()` is a dict whose one key "fieldPath" holds the path |
| StructuredQuery.ProjectionData | pyVTFirebase/services/firestore/types/structuredQuery.py:88-89 | `data()` is a dict whose one key "fields" holds the list it was built with |
| StructuredQuery.SetFields | pyVTFirebase/services/firestore/types/structuredQuery.py:82-86 | the setter succeeds exactly when every element is a field reference, raises ValueError otherwise, and never changes the projection |
| StructuredQuery.FieldReferences | pyVTFirebase/services/firestore/types/query.py:124-128 | one field reference per path, in order |
| StructuredQuery.CollectionSelectorData | pyVTFirebase/services/firestore/types/structuredQuery.py:102-103 | for a tuple or list, `data()` succeeds exactly when it has two or more items (IndexError otherwise) and is a one-entry list of items 0 and 1 |
| StructuredQuery.CollectionEntry | pyVTFirebase/services/firestore/types/structuredQuery.py:103 | the entry's keys are "collectionId" then "allDescendants", holding the two values given |
| StructuredQuery.EncoderDefault | pyVTFirebase/services/firestore/types/structuredQuery.py:110-111 | the hook returns a field reference's `data()` and a value's wire object |
| StructuredQuery.Rendered | pyVTFirebase/services/firestore/types/structuredQuery.py:110-111 | what `json.dumps` writes with the hook: no object is left in any value position, and dicts, tuples and lists keep their keys and lengths |
| StructuredQuery.RenderedKeeps | pyVTFirebase/services/firestore/types/structuredQuery.py:110-111 | data without objects is written as it is |
| StructuredQuery.Serialize | pyVTFirebase/services/firestore/types/query.py:101 | the round trip succeeds exactly when the rendered data can be dumped (TypeError otherwise), and then yields plain data: no objects, no tuples, distinct str keys |
| StructuredQuery.SerializeSingle | pyVTFirebase/services/firestore/types/query.py:101 | a one-key dict with a str key survives the round trip exactly when its value does, and comes back holding the value's round trip under the same key |
| StructuredQuery.SerializeStrKeys | pyVTFirebase/services/firestore/types/query.py:101 | a str-keyed dict comes back with the same keys, each holding the round trip of the value the dict gives it |
| StructuredQuery.RenderedDict | pyVTFirebase/services/firestore/types/structuredQuery.py:110-111 | the encoder hook keeps a dict's keys and renders the value each key holds |
| StructuredQuery.SerializeUsesHook | pyVTFirebase/services/firestore/types/structuredQuery.py:110-111 | the encoder renders an object exactly as it renders the object's `data()` |
| StructuredQuery.ScalarKeysDumpable | pyVTFirebase/services/firestore/types/structuredQuery.py:110-111 | once the hook has removed the objects, data whose dict keys are all str, int, float, bool or None can be dumped |
| StructuredQuery.SerializeScalarKeys | pyVTFirebase/services/firestore/types/query.py:101 | with scalar dict keys throughout, the round trip succeeds |
| StructuredQuery.BadKeyRefused | pyVTFirebase/services/firestore/types/query.py:101 | a dict key of any other kind, such as a tuple, is a TypeError |
| StructuredQuery.IntKeyConverted | pyVTFirebase/services/firestore/types/query.py:101 | an int key comes back as its decimal text |
| StructuredQuery.SerializeKeepsJson | pyVTFirebase/services/firestore/types/query.py:101 | plain JSON data, whose only NaN is the canonical one, survives the round trip unchanged |
| StructuredQuery.SerializeIdempotent | pyVTFirebase/services/firestore/types/query.py:101 | serializing what serializing returned changes nothing |
| Query.OperatorStrings | pyVTFirebase/services/firestore/types/query.py:20-31 | the operator strings are the table's keys, in table order |
| Query.SortedChoicesSorted | pyVTFirebase/services/firestore/types/query.py:468 | the choices listed in the error message are in strictly increasing string order and are exactly the table's keys |
| Query.OperatorsDistinct | pyVTFirebase/services/firestore/types/query.py:20-31 | the table maps distinct strings to distinct operators |
| Query.OperatorLookup | pyVTFirebase/services/firestore/types/query.py:466 | a lookup succeeds exactly when the string is a key of the table, and returns the operator paired with it |
| Query.FieldFilterOpString | pyVTFirebase/services/firestore/types/query.py:455-470 | succeeds exactly for the ten operator strings, with their table operator; otherwise the error carries the string and the sorted choices |
| Query.OperatorTableRoundTrip | pyVTFirebase/services/firestore/types/query.py:20-31 | every entry of the table is found again by its own string |
| Query.IsNaNValue | pyVTFirebase/services/firestore/types/query.py:440-452 | a float is NaN exactly when `math.isnan` says so; any other value is not |
| Query.IsNaNValueCases | pyVTFirebase/services/firestore/types/query.py:440-452 | the quiet and a negative NaN bit pattern are NaN; infinity, the str "nan" and None are not |
| Query.Eq | pyVTFirebase/services/firestore/types/query.py:58-70 | two queries are equal exactly when all eight clauses are equal |
| Query.Select | pyVTFirebase/services/firestore/types/query.py:103-140 | succeeds exactly when every path is a str (TypeError otherwise); only the select clause changes, to the projection of the paths' field references |
| Query.SelectJson | pyVTFirebase/services/firestore/types/query.py:124-131 | the select clause serializes without error to `{"fields": [{"fieldPath": p}, ...]}`, one entry per path in order |
| Query.FromCollection | pyVTFirebase/services/firestore/types/query.py:142-181 | a value without a length is a TypeError; a tuple or list that is not a (str, bool) pair is refused (ValueError for a wrong length, TypeError for a non-str first or non-bool second item); on success only the from clause changes, to the one selector entry `{"collectionId": collection[0], "allDescendants": collection[1]}` |
| Query.BuildFilter | pyVTFirebase/services/firestore/types/query.py:183-217 | a non-str field or operator, or a truthy non-str key, is a TypeError; a None or NaN value gives an IS_NULL or IS_NAN unary filter with "==" and is a ValueError with any other operator; otherwise an unknown operator is the sorted-choices ValueError, and with a known one the filter succeeds exactly when the value encodes, failing with the encoder's error, and holds the table's operator and the encoded value |
| Query.Where | pyVTFirebase/services/firestore/types/query.py:183-228 | fails exactly when the filter cannot be built, with its error; otherwise only the where clause changes, to the rendered filter |
| Query.ParseDirection | pyVTFirebase/services/firestore/types/query.py:253-261 | only the three direction names are accepted; anything else is a ValueError |
| Query.OrderBy | pyVTFirebase/services/firestore/types/query.py:230-275 | a non-str field is a TypeError and a bad direction a ValueError; otherwise the rendered order is appended to the existing order list and nothing else changes |
| Query.OrderByAppends | pyVTFirebase/services/firestore/types/query.py:263-264 | two successive orderBy calls leave both rendered orders in call order |
| Query.BuildCursor | pyVTFirebase/services/firestore/types/query.py:313-319 | a non-str key or non-bool `before` is a TypeError; otherwise the cursor wraps the encoded value and fails exactly as the encoder does |
| Query.StartAt | pyVTFirebase/services/firestore/types/query.py:277-330 | fails exactly when the cursor cannot be built, with the cursor's error; otherwise only the startAt clause changes |
| Query.EndAt | pyVTFirebase/services/firestore/types/query.py:332-385 | fails exactly when the cursor cannot be built, with the cursor's error; otherwise only the endAt clause changes |
| Query.Offset | pyVTFirebase/services/firestore/types/query.py:387-411 | accepted exactly for an int that is not a bool (TypeError otherwise); only the offset changes |
| Query.Limit | pyVTFirebase/services/firestore/types/query.py:413-437 | accepted exactly for an int that is not a bool (TypeError otherwise); only the limit changes |
| Query.Present | pyVTFirebase/services/firestore/types/query.py:82-99 | the written entries are exactly the truthy clauses, each under its own name |
| Query.ToJson | pyVTFirebase/services/firestore/types/query.py:72-101 | the loop builds `{"structuredQuery": {...}}` of the truthy clauses and passes it through the encoder round trip, whose TypeError it raises; a returned dict has the one key "structuredQuery", whose body has a clause's name exactly when that clause is truthy |
| Query.ToJsonOutput | pyVTFirebase/services/firestore/types/query.py:80-101 | the value `to_json` returns is `{"structuredQuery": body}`; the body has a clause's name as a key exactly when the clause is truthy, and that key holds the clause's own JSON round trip |
| Query.ToJsonSucceeds | pyVTFirebase/services/firestore/types/query.py:72-101 | when every clause has scalar dict keys throughout, `to_json` does not fail |
| Query.PresentLookup | pyVTFirebase/services/firestore/types/query.py:82-99 | a clause's name is a key of the written dict exactly when the clause is truthy, and then it holds the clause |
| Query.ToJsonClauses | pyVTFirebase/services/firestore/types/query.py:82-99 | for each of the eight clauses: its key is present exactly when it is truthy, and then it holds the clause |
| LegacyQuery.New | pyVTFirebase/services/firestore/query.py:8-28 | a new query keeps its parent and has every clause None |
| LegacyQuery.Eq | pyVTFirebase/services/firestore/query.py:30-43 | two queries are equal exactly when the parent and all eight clauses are equal |
| LegacyQuery.Select | pyVTFirebase/services/firestore/query.py:63-89 | no check on the paths; only the select clause changes, to `{"fields": [...]}` of their field references |
| LegacyQuery.CheckPair | pyVTFirebase/services/firestore/query.py:102-108 | an element passes exactly when it is a tuple of a str and a bool; a non-tuple is a TypeError, a non-str at index 0 or a non-bool at index 1 is a TypeError, and a tuple too short for the index being read is an IndexError |
| LegacyQuery.CheckPairs | pyVTFirebase/services/firestore/query.py:101-108 | the loop passes exactly when every element is a pair; on failure the error is that of the first element that is not |
| LegacyQuery.FromCollection | pyVTFirebase/services/firestore/query.py:91-122 | after the checks the whole list goes to one selector: fewer than two pairs is an IndexError, and with two or more the single entry holds the first and second pairs themselves |
| LegacyQuery.OnePairFails | pyVTFirebase/services/firestore/query.py:110-115 | one well-formed pair is refused with an IndexError |
| LegacyQuery.TwoPairsMerge | pyVTFirebase/services/firestore/query.py:110-115 | two pairs give one entry whose collectionId is the first tuple and whose allDescendants is the second |
| LegacyQuery.CollectionEntries | pyVTFirebase/services/firestore/query.py:110 | one selector entry per pair, in order |
| LegacyQuery.FromCollectionIntended | pyVTFirebase/services/firestore/query.py:91-122 | the same checks, then one `{"collectionId", "allDescendants"}` entry per pair in order; only the from clause changes |
| LegacyQuery.IntendedAcceptsOnePair | pyVTFirebase/services/firestore/query.py:91-122 | the corrected version accepts a single pair and selects that collection |
| LegacyQuery.Written | pyVTFirebase/services/firestore/query.py:49-59 | only "select" and "from" are written, each holding a truthy value |
| LegacyQuery.ToJson | pyVTFirebase/services/firestore/query.py:45-61 | the loop over the attributes builds the dict the specification function describes |
| LegacyQuery.ToJsonShape | pyVTFirebase/services/firestore/query.py:45-61 | the dict is exactly "select" when the select clause is truthy, then "from" when the from clause is truthy; the parent and other clauses never appear |
| RequestHelpers.SlashedIsJoin | pyVTFirebase/services/firestore/helpers.py:15-16 | appending "/" after every item is the "/"-join followed by one "/" |
| RequestHelpers.PrefixPath | pyVTFirebase/services/firestore/helpers.py:13-16 | before the last position, each present argument is followed by "/" |
| RequestHelpers.PathIsJoin | pyVTFirebase/services/firestore/helpers.py:10-18 | with the last argument present, the url is the "/"-join of the present arguments; with it None, the join keeps a trailing "/" |
| RequestHelpers.JoinPath | pyVTFirebase/services/firestore/helpers.py:10-18 | ValueError exactly when some argument is neither None nor a str; otherwise the path the loop specification gives |
| RequestHelpers.ParamName | pyVTFirebase/services/firestore/helpers.py:38-39 | `mask` and `updateMask` get ".fieldPaths"; every other name is kept |
| RequestHelpers.KeysFound | pyVTFirebase/services/firestore/helpers.py:34-36 | every key the inner loop visits has a value in the dict |
| RequestHelpers.ParamWrites | pyVTFirebase/services/firestore/helpers.py:31-41 | None writes nothing; a dict writes nothing unless it is `currentDocument`, which writes "currentDocument.<k>" for each of its keys with that key's value; anything else is written once under its renamed name |
| RequestHelpers.ApplyDomain | pyVTFirebase/services/firestore/helpers.py:36-41 | after a run of dict assignments, the keys are the old keys and the assigned ones |
| RequestHelpers.ApplyUntouched | pyVTFirebase/services/firestore/helpers.py:36-41 | assignments to other keys leave a key's entry alone |
| RequestHelpers.ApplyLastWrite | pyVTFirebase/services/firestore/helpers.py:36-41 | a key holds the value of the last assignment to it |
| RequestHelpers.ParamsHasWritten | pyVTFirebase/services/firestore/helpers.py:30-43 | a key some argument writes is in the result |
| RequestHelpers.ParamsOnlyWritten | pyVTFirebase/services/firestore/helpers.py:30-43 | a key in the result was written by some argument |
| RequestHelpers.ParamsDomain | pyVTFirebase/services/firestore/helpers.py:30-43 | the result's keys are exactly the keys the arguments write: None values and dicts under other names add nothing |
| RequestHelpers.ParamsScalar | pyVTFirebase/services/firestore/helpers.py:38-41 | a non-None, non-dict argument is stored under its renamed name unless a later argument writes that name |
| RequestHelpers.ParamsDocument | pyVTFirebase/services/firestore/helpers.py:33-36 | each key k of a `currentDocument` dict is stored as "currentDocument.k" with the dict's value, unless written again later |
| RequestHelpers.BuildParams | pyVTFirebase/services/firestore/helpers.py:26-43 | the two nested loops build the dict the specification function describes |
| RequestHelpers.WriteDocument | pyVTFirebase/services/firestore/helpers.py:34-36 | the inner loop makes exactly the writes of a dict argument |
| RequestHelpers.Body | pyVTFirebase/services/firestore/helpers.py:56-76 | ValueError exactly when some `readTime` is an int outside 0..269 |
| RequestHelpers.BodyKeys | pyVTFirebase/services/firestore/helpers.py:60-74 | the body holds only `mask`, `documents` and `readTime`, and each only when an argument of that name was passed |
| RequestHelpers.BodyEntries | pyVTFirebase/services/firestore/helpers.py:61-74 | a list `mask` is stored as `{"fieldPaths": mask}`, a list `documents` as it is, an int `readTime` as the time that many seconds back; values of any other kind are dropped |
| RequestHelpers.BuildBody | pyVTFirebase/services/firestore/helpers.py:56-76 | the loop builds the body the specification function describes, or stops with its ValueError |
| Json.JsonKey | pyVTFirebase/services/firestore/helpers.py:51 | str, int, bool, None and float keys become strs (str keys unchanged); any other key is a TypeError |
| Json.PlainJson | pyVTFirebase/services/firestore/helpers.py:51 | the round trip succeeds exactly for data without objects and with scalar keys among the items the dicts keep, and then yields plain data: no tuples, distinct str keys, and any NaN turned into Python's canonical NaN |
| Json.NaNCanonical | pyVTFirebase/services/firestore/helpers.py:51 | a NaN of any sign and payload comes back as the canonical NaN `float('nan')`; any other float keeps its bits |
| Json.PlainItems | pyVTFirebase/services/firestore/helpers.py:51 | list and tuple items go through the round trip one by one, in order |
| Json.PlainEntries | pyVTFirebase/services/firestore/helpers.py:51 | a dict's items go through the round trip one by one, key and value, in order |
| Json.PlainJsonSeesItems | pyVTFirebase/services/firestore/helpers.py:51 | a dict dumps as its items do: each key once, at its first position, with its last value |
| Json.OverwrittenValueIgnored | pyVTFirebase/services/firestore/helpers.py:51 | a value a later pair overwrites is not dumped: `{k: object, k: x}` comes back as `{k: x}` |
| Json.LiveObjectRefused | pyVTFirebase/services/firestore/helpers.py:51 | an object that a dict keeps is a TypeError |
| Json.PairsDumpable | pyVTFirebase/services/firestore/helpers.py:51 | a dict whose pairs all have a scalar key and a dumpable value is dumpable |
| Json.SinglePair | pyVTFirebase/services/firestore/helpers.py:51 | a one-pair dict can be dumped exactly when its key and value can, and comes back as the converted key holding the value's round trip |
| Json.StrKeyedDict | pyVTFirebase/services/firestore/helpers.py:51 | a dumpable str-keyed dict comes back with exactly its keys, in order, each holding the round trip of the value the dict gives it |
| Json.SingleDumped | pyVTFirebase/services/firestore/helpers.py:51 | a one-pair dict with a scalar key and a plain value (no NaN but the canonical one) comes back with its key converted |
| Json.PlainJsonKeeps | pyVTFirebase/services/firestore/helpers.py:51 | data that is already plain (no objects, no tuples, str keys, no NaN but the canonical one) comes back unchanged |
| Json.PlainJsonIdempotent | pyVTFirebase/services/firestore/helpers.py:51 | validating what validation returned changes nothing |
| RequestHelpers.JsonOrValueError | pyVTFirebase/services/firestore/helpers.py:50-53 | every failure of the round trip surfaces as a ValueError; a success is the round trip's result |
| FirestoreHelpers.BuildUrl | pyVTFirebase/services/firestore/helpers.py:6-23 | a bad argument is a ValueError; otherwise the joined path, followed by a truthy str delimiter as it is (a truthy non-str delimiter is a TypeError) |
| FirestoreHelpers.FirstDict | pyVTFirebase/services/firestore/helpers.py:48-49 | the position of the first dict argument, or none when no argument is a dict |
| FirestoreHelpers.ValidateJson | pyVTFirebase/services/firestore/helpers.py:46-53 | non-dict arguments are skipped; the first dict is validated and returned; with no dict the result is None |
| ServiceHelpers.BuildUrl | pyVTFirebase/services/helpers.py:8-25 | a bad argument is a ValueError; otherwise the joined path, followed by ":" and the `str()` of a truthy delimiter |
| ServiceHelpers.ValidateJson | pyVTFirebase/services/helpers.py:48-56 | no arguments gives None; a first argument that is not a dict is a ValueError; a dict first argument is validated and returned |
| ServiceHelpers.CurrentTime | pyVTFirebase/services/helpers.py:82-92 | an offset outside 0..269 is a ValueError; otherwise the time is the one the unchecked copy in the other file computes |
| ServiceHelpers.BodyReadTimeChecked | pyVTFirebase/services/helpers.py:72-75 | `build_body` checks the range before calling `_currentTime`, so that function's own check never fires from there, and the body's `readTime` is the time both copies compute |

## Left out

- Wall-clock reads: the current UTC time, less an offset, is a `Clock` parameter that maps the offset to the formatted string. Time arithmetic and `strftime` formatting are not modelled.
- `str()` and `repr` of floats, and of values other than None, bools, ints and strs, are parameters (`pyStr`, `floatText`). Float arithmetic is not modelled; NaN is decided from the IEEE bits.
- Object identity: the model compares field references and values structurally. Python compares instances of these classes, which define no `__eq__`, by identity. So `Query.Eq` and `LegacyQuery.Eq` report equal in some cases where Python reports unequal.
- Query.Eq, LegacyQuery.Eq: fields are compared as Dafny values, not with Python's `==`. Python's dict `==` ignores the order of keys and pairs that a later pair overwrites, and float `==` holds for `0.0 == -0.0` but fails for NaN against itself. Where a field holds such a dict or float, the model can give the opposite answer.
- Query.Select, LegacyQuery.Select, LegacyQuery.FromCollection: the argument is the list that `list(...)` makes of it. So the TypeError for a non-iterable argument, the splitting of a str into its characters and the iteration of a dict's keys are not modelled.
- Default arguments (`direction="ASCENDING"` of `orderBy`, `value=None` and `before=True` of `startAt`/`endAt`, `key=None` and `value=None` of `where`, `minus=None` of `_currentTime`) are not modelled as defaults: callers of the model pass every argument explicitly, and `minus=None` is passed as 0.
- `__eq__` against an object that is not a query returns `NotImplemented`; both models only compare two queries.
- Python's `1 == 1.0 == True` in dict keys and comparisons is not modelled: `PInt(1)`, `PBool(true)` and a float 1.0 are distinct keys.
- StructuredQuery.ScalarKeysDumpable: states only that scalar dict keys are enough for the round trip to succeed. That a key of another kind fails is stated for a one-pair dict (`StructuredQuery.BadKeyRefused`), not for a key nested at any depth.
- `json.dumps` options other than the defaults (`skipkeys`, `sort_keys`, `allow_nan=False`) are not used by the library and are not modelled; the JSON text of a float key is the `floatText` parameter.
- RequestHelpers.Params: `build_params` returns a dict; the model returns a map, so the insertion order of the keys is not captured. The same holds for RequestHelpers.Body.
- The `data()` of `Filter`, `Order`, `Cursor` and the operator enums: `types/query.py` imports them, but the structured-query module shown does not define them. Their definitions are not part of this model. The builder records what it passes to their constructors, and `Renderers` stands for their `data()`. The only constraint known about them is that an order's `data()` is a list, because `orderBy` concatenates it.
- `__repr__` methods (`json.dumps` of the same data) are not modelled.
- Values.EncodeArray, Values.EncodeMap: they state only the shape of the wire object. `Values.EncodeArrayContents` and `Values.EncodeMapContents` state what it holds.
- Values.EncodeThenDecode: for an array or a map it states only that the result decodes under the same tag, because the decoded payload is the two-slot dict rebuilt from the child. The inverse lemma `Values.DecodeThenEncode` states that encoding the decoded payload gives the wire object back exactly.
- FirestoreHelpers.CurrentTime has no range check, so it always yields the clock's string. It has no contract of its own; `ServiceHelpers.CurrentTime` and `ServiceHelpers.BodyReadTimeChecked` state what it computes.
- The docstrings of `offset` and `limit` ask for a positive number. The code does not check this, so the model accepts any int that is not a bool.

## Findings

| source | as written | input that shows it | evidently intended | confidence | as-written member | corrected member |
|---|---|---|---|---|---|---|
| pyVTFirebase/services/firestore/query.py:110-115 | `fromCollection` hands the whole list of pairs to one `CollectionSelector`, whose `data()` takes list items 0 and 1 as the collection id and the descendants flag | `[("users", False)]` raises IndexError; `[("a", False), ("b", True)]` gives one entry whose collectionId is `("a", False)` and whose allDescendants is `("b", True)` | one `{"collectionId": id, "allDescendants": flag}` entry per pair, in order | not executed | LegacyQuery.OnePairFails | LegacyQuery.FromCollectionIntended |
