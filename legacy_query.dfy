/** The earlier query builder: like the current one it is immutable, but it
    also carries the parent document path, has only `select` and
    `fromCollection`, and its `_to_json` writes only those two clauses. */
module LegacyQuery {
  import opened PyData
  import opened StructuredQuery

  /** A query: the parent, then eight clauses that are `None` until set. */
  datatype Query = Query(
    parent: Py,
    select: Py,
    fromColl: Py,
    where: Py,
    orderBy: Py,
    startAt: Py,
    endAt: Py,
    offset: Py,
    limit: Py)

  /** `Query(parent)`. */
  function New(parent: Py): (r: Query)
    ensures r.parent == parent
    ensures r.select.PNone? && r.fromColl.PNone? && r.where.PNone? && r.orderBy.PNone?
    ensures r.startAt.PNone? && r.endAt.PNone? && r.offset.PNone? && r.limit.PNone?
  {
    Query(parent, PNone, PNone, PNone, PNone, PNone, PNone, PNone, PNone)
  }

  /** `__eq__` between two queries: the parent and every clause. */
  function Eq(a: Query, b: Query): (r: bool)
    ensures r <==> a == b
  {
    a.parent == b.parent && a.select == b.select && a.fromColl == b.fromColl &&
    a.where == b.where && a.orderBy == b.orderBy && a.startAt == b.startAt &&
    a.endAt == b.endAt && a.offset == b.offset && a.limit == b.limit
  }

  /** `select(field_paths)`: no check on the paths; the projection of their
      field references replaces the select clause. */
  function Select(q: Query, paths: seq<Py>): (r: Query)
    ensures r == q.(select := r.select)
    ensures r.select.PDict? && Keys(r.select.entries) == [PStr("fields")]
    ensures DictGet(r.select.entries, PStr("fields")) == Some(PList(FieldReferences(paths)))
  {
    q.(select := ProjectionData(Projection(PList(FieldReferences(paths)))))
  }

  /** The check the loop makes of one element: a tuple, a str at index 0 and
      a bool at index 1 (indexing a too-short tuple is an IndexError). */
  function CheckPair(coll: Py): (r: Result<()>)
    ensures r.Ok? <==> IsPair(coll)
    ensures !coll.PTuple? ==> r == Err(TypeError)
    ensures coll.PTuple? && |coll.items| == 0 ==> r == Err(IndexError)
    ensures coll.PTuple? && |coll.items| >= 1 && !coll.items[0].PStr? ==> r == Err(TypeError)
    ensures coll.PTuple? && |coll.items| == 1 && coll.items[0].PStr? ==> r == Err(IndexError)
    ensures coll.PTuple? && |coll.items| >= 2 && coll.items[0].PStr? && !coll.items[1].PBool? ==> r == Err(TypeError)
  {
    if !coll.PTuple? then Err(TypeError)
    else if |coll.items| < 1 then Err(IndexError)
    else if !coll.items[0].PStr? then Err(TypeError)
    else if |coll.items| < 2 then Err(IndexError)
    else if !coll.items[1].PBool? then Err(TypeError)
    else Ok(())
  }

  /** A tuple whose first two items are a str and a bool. */
  predicate IsPair(coll: Py)
  {
    coll.PTuple? && |coll.items| >= 2 && coll.items[0].PStr? && coll.items[1].PBool?
  }

  /** The validation loop over all elements, stopping at the first failure. */
  function CheckPairs(colls: seq<Py>): (r: Result<()>)
    ensures r.Ok? <==> forall i :: 0 <= i < |colls| ==> IsPair(colls[i])
    ensures r.Err? ==> exists i :: 0 <= i < |colls| && !IsPair(colls[i]) &&
                        r == CheckPair(colls[i]) && forall j :: 0 <= j < i ==> IsPair(colls[j])
  {
    if colls == [] then Ok(())
    else
      var head := CheckPair(colls[0]);
      if head.Err? then head
      else
        var rest := CheckPairs(colls[1..]);
        if rest.Err? then
          ghost var i :| 0 <= i < |colls[1..]| && !IsPair(colls[1..][i]) &&
                         rest == CheckPair(colls[1..][i]) && forall j :: 0 <= j < i ==> IsPair(colls[1..][j]);
          assert colls[i + 1] == colls[1..][i];
          rest
        else rest
  }

  /** `fromCollection(collections)` as written: after the loop, the whole
      list goes to one `CollectionSelector`, whose `data()` takes the list's
      first element as the collection id and its second as the descendants
      flag. */
  function FromCollection(q: Query, colls: seq<Py>): (r: Result<Query>)
    ensures CheckPairs(colls).Err? ==> r == Err(CheckPairs(colls).error)
    ensures CheckPairs(colls).Ok? ==> (r.Ok? <==> |colls| >= 2)
    ensures CheckPairs(colls).Ok? && |colls| < 2 ==> r == Err(IndexError)
    ensures r.Ok? ==> r.value == q.(fromColl := PList([CollectionEntry(colls[0], colls[1])]))
  {
    var _ :- CheckPairs(colls);
    var data :- CollectionSelectorData(CollectionSelector(PList(colls)));
    Ok(q.(fromColl := data))
  }

  /** A single well-formed pair is rejected with an IndexError. */
  lemma {:induction false} OnePairFails(q: Query)
    ensures FromCollection(q, [PTuple([PStr("users"), PBool(false)])]) == Err(IndexError)
  {
    assert CheckPairs([PTuple([PStr("users"), PBool(false)])]).Ok?;
  }

  /** Two pairs give one entry whose id and flag are the two whole tuples. */
  lemma {:induction false} TwoPairsMerge(q: Query)
    ensures FromCollection(q, [PTuple([PStr("a"), PBool(false)]), PTuple([PStr("b"), PBool(true)])]) ==
            Ok(q.(fromColl := PList([CollectionEntry(PTuple([PStr("a"), PBool(false)]),
                                                     PTuple([PStr("b"), PBool(true)]))])))
  {
    var colls := [PTuple([PStr("a"), PBool(false)]), PTuple([PStr("b"), PBool(true)])];
    assert IsPair(colls[0]) && IsPair(colls[1]);
  }

  /** The selector entry of one pair. */
  function PairEntry(c: Py): Py
    requires IsPair(c)
  {
    CollectionEntry(c.items[0], c.items[1])
  }

  /** One selector entry per pair, in order. */
  function CollectionEntries(colls: seq<Py>): (r: seq<Py>)
    requires forall i :: 0 <= i < |colls| ==> IsPair(colls[i])
    ensures |r| == |colls|
    ensures forall i :: 0 <= i < |colls| ==> r[i] == PairEntry(colls[i])
  {
    seq(|colls|, i requires 0 <= i < |colls| && IsPair(colls[i]) => PairEntry(colls[i]))
  }

  /** `fromCollection` as intended: the same checks, then one
      `{"collectionId", "allDescendants"}` entry per pair, in the order given. */
  function FromCollectionIntended(q: Query, colls: seq<Py>): (r: Result<Query>)
    ensures r.Ok? <==> forall i :: 0 <= i < |colls| ==> IsPair(colls[i])
    ensures r.Err? ==> r.error == CheckPairs(colls).error
    ensures r.Ok? ==> r.value == q.(fromColl := r.value.fromColl)
    ensures r.Ok? ==> r.value.fromColl.PList? && |r.value.fromColl.items| == |colls|
    ensures r.Ok? ==> forall i :: 0 <= i < |colls| ==>
              r.value.fromColl.items[i] == CollectionEntry(colls[i].items[0], colls[i].items[1])
  {
    var _ :- CheckPairs(colls);
    Ok(q.(fromColl := PList(CollectionEntries(colls))))
  }

  /** Every list of one or more pairs is accepted by the intended version. */
  lemma {:induction false} IntendedAcceptsOnePair(q: Query, id: string, all: bool)
    ensures FromCollectionIntended(q, [PTuple([PStr(id), PBool(all)])]).Ok?
    ensures FromCollectionIntended(q, [PTuple([PStr(id), PBool(all)])]).value.fromColl ==
            PList([CollectionEntry(PStr(id), PBool(all))])
  {
    var colls := [PTuple([PStr(id), PBool(all)])];
    assert IsPair(colls[0]);
    assert CollectionEntries(colls) == [CollectionEntry(PStr(id), PBool(all))];
  }

  /** The attributes of a query in the order `vars()` lists them. */
  function Attributes(q: Query): (r: seq<(string, Py)>)
    ensures |r| == 9
  {
    [("_parent", q.parent), ("_select", q.select), ("_from_coll", q.fromColl), ("_where", q.where),
     ("_orderBy", q.orderBy), ("_startAt", q.startAt), ("_endAt", q.endAt), ("_offset", q.offset),
     ("_limit", q.limit)]
  }

  /** The entries `_to_json` writes for a list of attributes: a truthy
      `_select` as "select" and a truthy `_from_coll` as "from". */
  function Written(attrs: seq<(string, Py)>): (r: seq<(Py, Py)>)
    ensures forall j :: 0 <= j < |r| ==> r[j].0 == PStr("select") || r[j].0 == PStr("from")
    ensures forall j :: 0 <= j < |r| ==> Truthy(r[j].1)
    ensures |r| <= |attrs|
  {
    if attrs == [] then []
    else
      var rest := Written(attrs[..|attrs| - 1]);
      var (name, v) := attrs[|attrs| - 1];
      if !Truthy(v) then rest
      else if name == "_select" then rest + [(PStr("select"), v)]
      else if name == "_from_coll" then rest + [(PStr("from"), v)]
      else rest
  }

  /** `_to_json()`: a dict of at most the select and from clauses. */
  method ToJson(q: Query) returns (r: Py)
    ensures r == PDict(Written(Attributes(q)))
  {
    var attrs := Attributes(q);
    var data: seq<(Py, Py)> := [];
    var i := 0;
    while i < |attrs|
      invariant 0 <= i <= |attrs|
      invariant data == Written(attrs[..i])
    {
      assert attrs[..i + 1][..i] == attrs[..i];
      var (name, v) := attrs[i];
      if Truthy(v) {
        if name == "_select" {
          data := data + [(PStr("select"), v)];
        }
        if name == "_from_coll" {
          data := data + [(PStr("from"), v)];
        }
      }
      i := i + 1;
    }
    assert attrs[..i] == attrs;
    r := PDict(data);
  }

  /** Attributes other than the select and from clauses write nothing. */
  lemma {:induction false} WrittenIgnores(attrs: seq<(string, Py)>, k: nat)
    requires k <= |attrs|
    requires forall l :: k <= l < |attrs| ==> attrs[l].0 != "_select" && attrs[l].0 != "_from_coll"
    ensures Written(attrs) == Written(attrs[..k])
  {
    if |attrs| > k {
      WrittenIgnores(attrs[..|attrs| - 1], k);
      assert attrs[..|attrs| - 1][..k] == attrs[..k];
    } else {
      assert attrs[..k] == attrs;
    }
  }

  /** The written dict is exactly: "select" when the select clause is truthy,
      then "from" when the from clause is truthy. */
  lemma {:induction false} ToJsonShape(q: Query)
    ensures Written(Attributes(q)) ==
            (if Truthy(q.select) then [(PStr("select"), q.select)] else []) +
            (if Truthy(q.fromColl) then [(PStr("from"), q.fromColl)] else [])
  {
    var a := Attributes(q);
    WrittenIgnores(a, 3);
    assert a[..1][..0] == [];
    assert Written(a[..1]) == [];
    assert a[..2][..1] == a[..1];
    assert Written(a[..2]) == if Truthy(q.select) then [(PStr("select"), q.select)] else [];
    assert a[..3][..2] == a[..2];
  }
}
