/** The browser-side store of saved vision queries: one ordered list per
    camera, kept in a string-keyed store under `streamQueries-<cameraId>`.
    JSON encoding is abstracted: the store maps a key to the parsed list. */
module StreamQueries {
  import opened Base
  import opened JsText

  datatype ResponseType = StringResponse | ArrayResponse

  /** A saved query. */
  datatype StreamQuery = StreamQuery(
    id: string,
    name: string,
    prompt: string,
    responseType: ResponseType,
    think: bool,
    frameCount: int,
    cameraId: int)

  /** A query without its `id` and `cameraId`, as `addQuery` receives it. */
  datatype QueryFields = QueryFields(
    name: string,
    prompt: string,
    responseType: ResponseType,
    think: bool,
    frameCount: int)

  /** A partial update; a `None` field is absent from the update object. */
  datatype QueryUpdates = QueryUpdates(
    name: Option<string>,
    prompt: Option<string>,
    responseType: Option<ResponseType>,
    think: Option<bool>,
    frameCount: Option<int>)

  /** The storage key of a camera's list: a fixed prefix, then the id as
      JavaScript prints it. */
  function StorageKey(cameraId: int): (key: string)
    ensures |key| > 14 && key[..14] == "streamQueries-" && key[14..] == IntToDecimal(cameraId)
  {
    "streamQueries-" + IntToDecimal(cameraId)
  }

  /** Different cameras never share a storage key. */
  lemma StorageKeyInjective(a: int, b: int)
    requires a != b
    ensures StorageKey(a) != StorageKey(b)
  {
    var prefix := "streamQueries-";
    if StorageKey(a) == StorageKey(b) {
      assert IntToDecimal(a) == StorageKey(a)[|prefix|..] == StorageKey(b)[|prefix|..] == IntToDecimal(b);
      IntToDecimalInjective(a, b);
    }
  }

  /** `getQueriesForCamera`, on the store's contents: the stored list, or the
      empty list when nothing is stored under the camera's key. */
  function ListFor(store: map<string, seq<StreamQuery>>, cameraId: int): (r: seq<StreamQuery>)
    ensures StorageKey(cameraId) in store ==> r == store[StorageKey(cameraId)]
    ensures StorageKey(cameraId) !in store ==> r == []
  {
    if StorageKey(cameraId) in store then store[StorageKey(cameraId)] else []
  }

  /** Writing one camera's list leaves every other camera's list as it was. */
  lemma OtherCamerasUntouched(store: map<string, seq<StreamQuery>>, cameraId: int,
                              queries: seq<StreamQuery>, other: int)
    requires other != cameraId
    ensures ListFor(store[StorageKey(cameraId) := queries], other) == ListFor(store, other)
  {
    StorageKeyInjective(cameraId, other);
  }

  /** Writing a camera's list and reading it back gives that list. */
  lemma ReadBackWritten(store: map<string, seq<StreamQuery>>, cameraId: int, queries: seq<StreamQuery>)
    ensures ListFor(store[StorageKey(cameraId) := queries], cameraId) == queries
  {
  }

  /** An absent key reads as the empty list. */
  lemma AbsentKeyReadsEmpty(store: map<string, seq<StreamQuery>>, cameraId: int)
    requires StorageKey(cameraId) !in store
    ensures ListFor(store, cameraId) == []
  {
  }

  /** Some stored query has the id. */
  predicate HasId(queries: seq<StreamQuery>, queryId: string)
  {
    |queries| > 0 && (queries[0].id == queryId || HasId(queries[1..], queryId))
  }

  /** `queries.findIndex(q => q.id === queryId)`: the first index holding the
      id, or -1 when none does. */
  function FindIndex(queries: seq<StreamQuery>, queryId: string): (r: int)
    ensures r == -1 <==> !HasId(queries, queryId)
    ensures r != -1 ==> 0 <= r < |queries| && queries[r].id == queryId
    ensures r != -1 ==> forall j :: 0 <= j < r ==> queries[j].id != queryId
  {
    if |queries| == 0 then -1
    else if queries[0].id == queryId then 0
    else
      var k := FindIndex(queries[1..], queryId);
      if k == -1 then -1 else k + 1
  }

  /** `queries.find(q => q.id === queryId) || null`. */
  function Find(queries: seq<StreamQuery>, queryId: string): (r: Option<StreamQuery>)
    ensures r.None? <==> !HasId(queries, queryId)
    ensures r.Some? ==> r.value == queries[FindIndex(queries, queryId)]
  {
    var i := FindIndex(queries, queryId);
    if i == -1 then None else Some(queries[i])
  }

  /** `queries.filter(q => q.id !== queryId)`. */
  function RemoveId(queries: seq<StreamQuery>, queryId: string): (r: seq<StreamQuery>)
    ensures |r| <= |queries|
    ensures forall i :: 0 <= i < |r| ==> r[i].id != queryId
    ensures forall q :: q in r <==> q in queries && q.id != queryId
  {
    if |queries| == 0 then []
    else if queries[0].id == queryId then RemoveId(queries[1..], queryId)
    else [queries[0]] + RemoveId(queries[1..], queryId)
  }

  /** Filtering keeps the length exactly when no element has the id. */
  lemma {:induction false} RemoveIdKeepsLengthIffAbsent(queries: seq<StreamQuery>, queryId: string)
    ensures |RemoveId(queries, queryId)| == |queries| <==> !HasId(queries, queryId)
  {
    if |queries| > 0 {
      RemoveIdKeepsLengthIffAbsent(queries[1..], queryId);
    }
  }

  /** Filtering a list in which no element has the id leaves it as it is. */
  lemma {:induction false} RemoveIdWithoutId(queries: seq<StreamQuery>, queryId: string)
    requires !HasId(queries, queryId)
    ensures RemoveId(queries, queryId) == queries
  {
    if |queries| > 0 {
      RemoveIdWithoutId(queries[1..], queryId);
      assert queries == [queries[0]] + queries[1..];
    }
  }

  /** Filtering distributes over concatenation, so relative order is kept. */
  lemma {:induction false} RemoveIdAppend(a: seq<StreamQuery>, b: seq<StreamQuery>, queryId: string)
    ensures RemoveId(a + b, queryId) == RemoveId(a, queryId) + RemoveId(b, queryId)
  {
    if |a| > 0 {
      assert (a + b)[1..] == a[1..] + b;
      RemoveIdAppend(a[1..], b, queryId);
    } else {
      assert a + b == b;
    }
  }

  /** The record `addQuery` builds: the given fields, the fresh id and the camera. */
  function NewQuery(fields: QueryFields, freshId: string, cameraId: int): (q: StreamQuery)
    ensures q.id == freshId && q.cameraId == cameraId
    ensures q.name == fields.name && q.prompt == fields.prompt && q.responseType == fields.responseType
    ensures q.think == fields.think && q.frameCount == fields.frameCount
  {
    StreamQuery(freshId, fields.name, fields.prompt, fields.responseType, fields.think, fields.frameCount, cameraId)
  }

  /** `{ ...q, ...updates }`: present fields replace, absent ones keep. */
  function Merge(q: StreamQuery, u: QueryUpdates): (r: StreamQuery)
    ensures r.id == q.id && r.cameraId == q.cameraId
    ensures r.name == OrDefault(u.name, q.name) && r.prompt == OrDefault(u.prompt, q.prompt)
    ensures r.responseType == (if u.responseType.Some? then u.responseType.value else q.responseType)
    ensures r.think == (if u.think.Some? then u.think.value else q.think)
    ensures r.frameCount == (if u.frameCount.Some? then u.frameCount.value else q.frameCount)
  {
    StreamQuery(
      q.id,
      OrDefault(u.name, q.name),
      OrDefault(u.prompt, q.prompt),
      if u.responseType.Some? then u.responseType.value else q.responseType,
      if u.think.Some? then u.think.value else q.think,
      if u.frameCount.Some? then u.frameCount.value else q.frameCount,
      q.cameraId)
  }

  /** A query added under an id no stored query has is what a lookup of that
      id finds afterwards. */
  lemma {:induction false} FindAfterAppend(queries: seq<StreamQuery>, q: StreamQuery)
    requires !HasId(queries, q.id)
    ensures Find(queries + [q], q.id) == Some(q)
  {
    if |queries| > 0 {
      assert (queries + [q])[1..] == queries[1..] + [q];
      FindAfterAppend(queries[1..], q);
    }
  }

  /** Lookups of every other id are unaffected by the append. */
  lemma {:induction false} FindOtherAfterAppend(queries: seq<StreamQuery>, q: StreamQuery, queryId: string)
    requires queryId != q.id
    ensures Find(queries + [q], queryId) == Find(queries, queryId)
  {
    if |queries| > 0 {
      assert (queries + [q])[1..] == queries[1..] + [q];
      FindOtherAfterAppend(queries[1..], q, queryId);
    } else {
      assert queries + [q] == [q];
    }
  }

  /** The string-keyed store the utilities read and write. */
  class QueryStore {
    var items: map<string, seq<StreamQuery>>

    constructor (initial: map<string, seq<StreamQuery>>)
      ensures items == initial
    {
      items := initial;
    }

    /** `getQueriesForCamera`. */
    function QueriesForCamera(cameraId: int): (r: seq<StreamQuery>)
      reads this
      ensures StorageKey(cameraId) in items ==> r == items[StorageKey(cameraId)]
      ensures StorageKey(cameraId) !in items ==> r == []
    {
      ListFor(items, cameraId)
    }

    /** `getQuery`: the first stored query of the camera with the id, if any. */
    function GetQuery(cameraId: int, queryId: string): (r: Option<StreamQuery>)
      reads this
      ensures r.None? <==> !HasId(QueriesForCamera(cameraId), queryId)
      ensures r.Some? ==> r.value.id == queryId && r.value in QueriesForCamera(cameraId)
      // it is the first query with the id: every query stored before it has another id
      ensures r.Some? ==>
        var queries := QueriesForCamera(cameraId);
        exists i :: 0 <= i < |queries| && queries[i] == r.value && forall j :: 0 <= j < i ==> queries[j].id != queryId
    {
      Find(QueriesForCamera(cameraId), queryId)
    }

    /** `saveQueriesForCamera`: replace the camera's list, nothing else. */
    method SaveQueriesForCamera(cameraId: int, queries: seq<StreamQuery>)
      modifies this
      ensures items == old(items)[StorageKey(cameraId) := queries]
      ensures QueriesForCamera(cameraId) == queries
    {
      items := items[StorageKey(cameraId) := queries];
    }

    /** `addQuery`, with the fresh id supplied by the caller. */
    method AddQuery(cameraId: int, fields: QueryFields, freshId: string) returns (newQuery: StreamQuery)
      modifies this
      ensures newQuery == NewQuery(fields, freshId, cameraId)
      ensures items == old(items)[StorageKey(cameraId) := old(QueriesForCamera(cameraId)) + [newQuery]]
      ensures !HasId(old(QueriesForCamera(cameraId)), freshId) ==> GetQuery(cameraId, freshId) == Some(newQuery)
      ensures forall other :: other != cameraId ==> ListFor(items, other) == ListFor(old(items), other)
    {
      var queries := QueriesForCamera(cameraId);
      newQuery := NewQuery(fields, freshId, cameraId);
      queries := queries + [newQuery];
      SaveQueriesForCamera(cameraId, queries);
      if !HasId(old(QueriesForCamera(cameraId)), freshId) {
        FindAfterAppend(old(QueriesForCamera(cameraId)), newQuery);
      }
      forall other | other != cameraId
        ensures ListFor(items, other) == ListFor(old(items), other)
      {
        OtherCamerasUntouched(old(items), cameraId, queries, other);
      }
    }

    /** `updateQuery`: merge the updates into the first query with the id. */
    method UpdateQuery(cameraId: int, queryId: string, updates: QueryUpdates) returns (r: Option<StreamQuery>)
      modifies this
      ensures r.None? <==> !HasId(old(QueriesForCamera(cameraId)), queryId)
      ensures r.None? ==> items == old(items)
      ensures r.Some? ==>
        var before := old(QueriesForCamera(cameraId));
        var i := FindIndex(before, queryId);
        && r.value == Merge(before[i], updates)
        && items == old(items)[StorageKey(cameraId) := before[i := r.value]]
      ensures |QueriesForCamera(cameraId)| == |old(QueriesForCamera(cameraId))|
      ensures forall other :: other != cameraId ==> ListFor(items, other) == ListFor(old(items), other)
    {
      var queries := QueriesForCamera(cameraId);
      var index := FindIndex(queries, queryId);
      if index == -1 {
        return None;
      }
      queries := queries[index := Merge(queries[index], updates)];
      SaveQueriesForCamera(cameraId, queries);
      r := Some(queries[index]);
      forall other | other != cameraId
        ensures ListFor(items, other) == ListFor(old(items), other)
      {
        OtherCamerasUntouched(old(items), cameraId, queries, other);
      }
    }

    /** `deleteQuery`: drop every query with the id; false when there is none. */
    method DeleteQuery(cameraId: int, queryId: string) returns (deleted: bool)
      modifies this
      ensures deleted <==> HasId(old(QueriesForCamera(cameraId)), queryId)
      ensures !deleted ==> items == old(items)
      ensures deleted ==> items == old(items)[StorageKey(cameraId) := RemoveId(old(QueriesForCamera(cameraId)), queryId)]
      ensures forall other :: other != cameraId ==> ListFor(items, other) == ListFor(old(items), other)
    {
      var queries := QueriesForCamera(cameraId);
      var filtered := RemoveId(queries, queryId);
      RemoveIdKeepsLengthIffAbsent(queries, queryId);
      if |filtered| == |queries| {
        return false;
      }
      SaveQueriesForCamera(cameraId, filtered);
      deleted := true;
      forall other | other != cameraId
        ensures ListFor(items, other) == ListFor(old(items), other)
      {
        OtherCamerasUntouched(old(items), cameraId, filtered, other);
      }
    }
  }
}
