/**
 * The correspondence tables of app/models/mapper.py: `TasksMapper` links a
 * Notion task id to a Google task id with the time each side was last
 * synced, `ListBucketMapper` links a Notion bucket to a Google task list.
 * The Mongo collections become in-memory sequences of records kept in
 * insertion order, which is the order `find_one` and `find` see them in.
 */
module Mapper {
  import opened Basics

  /** One `TasksMapper` document. */
  datatype TaskMapping = TaskMapping(notionId: Id, googleId: Id, notionSync: int, googleSync: int)

  /** One `ListBucketMapper` document. */
  datatype ListBucket = ListBucket(notionId: Id, googleId: Id)

  /** A condition on one id field, in the shapes the source's Mongo filters take. */
  datatype IdCond = Any | Is(id: Id) | In(ids: seq<Id>) | NotIn(ids: seq<Id>)

  /** A filter on the two id fields of a mapping document. */
  datatype Filter = Filter(notion: IdCond, google: IdCond)

  predicate Holds(c: IdCond, id: Id)
  {
    match c
    case Any => true
    case Is(x) => id == x
    case In(xs) => id in xs
    case NotIn(xs) => id !in xs
  }

  predicate Matches(f: Filter, m: TaskMapping)
  {
    Holds(f.notion, m.notionId) && Holds(f.google, m.googleId)
  }

  /**
   * What the optional arguments of `get` select: each id that is truthy
   * must be equal, an id given as None or "" constrains nothing.
   */
  predicate Selects(notionId: Option<Id>, googleId: Option<Id>, n: Id, g: Id)
  {
    (Truthy(notionId) ==> n == notionId.value) && (Truthy(googleId) ==> g == googleId.value)
  }

  /** The Mongo filter `get` builds from its optional arguments. */
  function KeyFilter(notionId: Option<Id>, googleId: Option<Id>): (f: Filter)
    ensures forall m :: Matches(f, m) <==> Selects(notionId, googleId, m.notionId, m.googleId)
    ensures !Truthy(notionId) && !Truthy(googleId) ==> f == Filter(Any, Any)
  {
    Filter(if Truthy(notionId) then Is(notionId.value) else Any,
           if Truthy(googleId) then Is(googleId.value) else Any)
  }

  /** `TasksMapper.get`: the first mapping the given ids select, or None. */
  function Get(records: seq<TaskMapping>, notionId: Option<Id>, googleId: Option<Id>): (r: Option<TaskMapping>)
    ensures r.Some? ==> r.value in records
    ensures r.Some? && Truthy(notionId) ==> r.value.notionId == notionId.value
    ensures r.Some? && Truthy(googleId) ==> r.value.googleId == googleId.value
    ensures r.None? <==> forall i :: 0 <= i < |records| ==> !Selects(notionId, googleId, records[i].notionId, records[i].googleId)
  {
    First(records, (m: TaskMapping) => Matches(KeyFilter(notionId, googleId), m))
  }

  /** `get` returns the FIRST selected mapping in store order. */
  lemma GetIsFirstSelected(records: seq<TaskMapping>, notionId: Option<Id>, googleId: Option<Id>, i: nat)
    requires i < |records| && Selects(notionId, googleId, records[i].notionId, records[i].googleId)
    requires forall j :: 0 <= j < i ==> !Selects(notionId, googleId, records[j].notionId, records[j].googleId)
    ensures Get(records, notionId, googleId) == Some(records[i])
  {
    var p := (m: TaskMapping) => Matches(KeyFilter(notionId, googleId), m);
    FirstIsAtFirstIndex(records, p, i);
  }

  /** `get()` with neither id builds the empty filter and returns whatever record comes first. */
  lemma GetWithoutIdsIsFirstRecord(records: seq<TaskMapping>, notionId: Option<Id>, googleId: Option<Id>)
    requires !Truthy(notionId) && !Truthy(googleId)
    ensures records == [] ==> Get(records, notionId, googleId) == None
    ensures records != [] ==> Get(records, notionId, googleId) == Some(records[0])
  {
    if records != [] {
      GetIsFirstSelected(records, notionId, googleId, 0);
    }
  }

  /** `TasksMapper.find`: every mapping matching the filter, in store order. */
  function Find(records: seq<TaskMapping>, f: Filter): (r: seq<TaskMapping>)
    ensures |r| <= |records|
    ensures forall m :: m in r <==> m in records && Matches(f, m)
  {
    if records == [] then []
    else (if Matches(f, records[0]) then [records[0]] else []) + Find(records[1..], f)
  }

  /** The mappings a filter does not match, in store order: what `delete_many` leaves behind. */
  function Reject(records: seq<TaskMapping>, f: Filter): (r: seq<TaskMapping>)
    ensures forall m :: m in r <==> m in records && !Matches(f, m)
    ensures |r| + |Find(records, f)| == |records|
  {
    if records == [] then []
    else (if Matches(f, records[0]) then [] else [records[0]]) + Reject(records[1..], f)
  }

  /** `find` distributes over the store: so it keeps store order and drops only non-matching records. */
  lemma {:induction false} FindAppend(a: seq<TaskMapping>, b: seq<TaskMapping>, f: Filter)
    ensures Find(a + b, f) == Find(a, f) + Find(b, f)
  {
    if a == [] {
      assert a + b == b;
    } else {
      assert (a + b)[1..] == a[1..] + b;
      FindAppend(a[1..], b, f);
    }
  }

  /** Two mappings with the same pair of ids are the same document for `update`. */
  predicate SameKeys(a: TaskMapping, b: TaskMapping)
  {
    a.notionId == b.notionId && a.googleId == b.googleId
  }

  /**
   * The store after `update`: the first document with the same Notion id and
   * Google id is overwritten with `m`; with no such document nothing changes.
   */
  function Updated(records: seq<TaskMapping>, m: TaskMapping): (r: seq<TaskMapping>)
    ensures |r| == |records|
    ensures (forall i :: 0 <= i < |records| ==> !SameKeys(records[i], m)) ==> r == records
    ensures forall i :: 0 <= i < |records| && SameKeys(records[i], m) && (forall j :: 0 <= j < i ==> !SameKeys(records[j], m)) ==> r == records[i := m]
    ensures forall i :: 0 <= i < |records| ==> SameKeys(r[i], records[i])
  {
    match FirstIndex(records, (x: TaskMapping) => SameKeys(x, m))
    case None => records
    case Some(i) => records[i := m]
  }

  /** The in-memory `TasksMapper` collection, changed in place by `create`, `update` and `delete_many`. */
  class TaskMapperTable {
    var records: seq<TaskMapping>

    constructor (initial: seq<TaskMapping>)
      ensures records == initial
    {
      records := initial;
    }

    /** `create`: inserts exactly one document equal to `m`. */
    method Create(m: TaskMapping)
      modifies this
      ensures records == old(records) + [m]
    {
      records := records + [m];
    }

    /** `update`: overwrites the document keyed by both ids of `m`. */
    method Update(m: TaskMapping)
      modifies this
      ensures records == Updated(old(records), m)
    {
      records := Updated(records, m);
    }

    /** `delete_many`: removes exactly the matching documents and reports how many went. */
    method DeleteMany(f: Filter) returns (count: nat)
      modifies this
      ensures records == Reject(old(records), f)
      ensures count == |old(records)| - |records|
      ensures count == |Find(old(records), f)|
    {
      count := |Find(records, f)|;
      records := Reject(records, f);
    }
  }

  /** `ListBucketMapper.get`: the first bucket link the given ids select, or None. */
  function GetBucket(buckets: seq<ListBucket>, notionId: Option<Id>, googleId: Option<Id>): (r: Option<ListBucket>)
    ensures r.Some? ==> r.value in buckets
    ensures r.Some? && Truthy(notionId) ==> r.value.notionId == notionId.value
    ensures r.Some? && Truthy(googleId) ==> r.value.googleId == googleId.value
    ensures r.None? <==> forall i :: 0 <= i < |buckets| ==> !Selects(notionId, googleId, buckets[i].notionId, buckets[i].googleId)
  {
    First(buckets, (b: ListBucket) => Selects(notionId, googleId, b.notionId, b.googleId))
  }

  /** `ListBucketMapper.get` also returns the first selected link, and the first link when no id is given. */
  lemma GetBucketIsFirstSelected(buckets: seq<ListBucket>, notionId: Option<Id>, googleId: Option<Id>, i: nat)
    requires i < |buckets| && Selects(notionId, googleId, buckets[i].notionId, buckets[i].googleId)
    requires forall j :: 0 <= j < i ==> !Selects(notionId, googleId, buckets[j].notionId, buckets[j].googleId)
    ensures GetBucket(buckets, notionId, googleId) == Some(buckets[i])
  {
    var p := (b: ListBucket) => Selects(notionId, googleId, b.notionId, b.googleId);
    FirstIsAtFirstIndex(buckets, p, i);
  }
}
