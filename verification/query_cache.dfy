/**
 * The slice of the client-side query cache that the survey pages use: cached
 * pages of survey records keyed by query key, read and written wholesale
 * (`getQueriesData`/`setQueriesData`, matched by key prefix) or one key at a
 * time (`setQueryData`). Writing undefined to a key leaves it as it was.
 */
module QueryCache {
  import opened Js

  /** A survey record as the server returns it. */
  type Record = Object

  /** The `data` object of a page response: `surveys`, `totalPages` and the rest. */
  datatype PageBody = PageBody(surveys: Option<seq<Record>>, totalPages: Option<int>, rest: Object)

  /** A page response: its `data` object (if any) and its other properties. */
  datatype QueryData = QueryData(data: Option<PageBody>, rest: Object)

  /** A query key such as `['surveys', 3]`. */
  type QueryKey = seq<JsValue>

  /** Cached data per query key; None is a query whose data is undefined. */
  type Entries = map<QueryKey, Option<QueryData>>

  /** Partial key matching: the filter key is a prefix of the query's key. */
  predicate Matches(key: QueryKey, prefix: QueryKey) {
    prefix <= key
  }

  /** `setQueryData(key, data)`: undefined data leaves the cache as it was. */
  function SetEntry(entries: Entries, key: QueryKey, data: Option<QueryData>): (r: Entries)
    ensures data.None? ==> r == entries
    ensures data.Some? ==> r.Keys == entries.Keys + {key} && r[key] == data
    ensures forall k :: k in entries && k != key ==> k in r && r[k] == entries[k]
  {
    if data.None? then entries else entries[key := data]
  }

  /** One updater application as `setQueriesData` performs it for a key. */
  function UpdateEntry(current: Option<QueryData>, f: Option<QueryData> -> Option<QueryData>): (r: Option<QueryData>)
    ensures f(current).None? ==> r == current
    ensures f(current).Some? ==> r == f(current)
  {
    if f(current).None? then current else f(current)
  }

  /** `setQueriesData({queryKey: prefix}, f)`: every cached key matching the prefix is updated. */
  function ApplyToMatching(entries: Entries, prefix: QueryKey, f: Option<QueryData> -> Option<QueryData>): (r: Entries)
    ensures r.Keys == entries.Keys
    ensures forall k :: k in entries && !Matches(k, prefix) ==> r[k] == entries[k]
    ensures forall k :: k in entries && Matches(k, prefix) ==> r[k] == UpdateEntry(entries[k], f)
  {
    map k | k in entries :: if Matches(k, prefix) then UpdateEntry(entries[k], f) else entries[k]
  }

  /** `getQueriesData({queryKey: prefix})`: the cached data of every matching key. */
  function Snapshot(entries: Entries, prefix: QueryKey): (r: Entries)
    ensures forall k :: k in r <==> k in entries && Matches(k, prefix)
    ensures forall k :: k in r ==> r[k] == entries[k]
  {
    map k | k in entries && Matches(k, prefix) :: entries[k]
  }

  /** The keys a snapshot would actually write back (those with defined data). */
  function DefinedKeys(snapshot: Entries): set<QueryKey> {
    set k | k in snapshot && snapshot[k].Some?
  }

  /** `setQueryData` for every entry of a snapshot, in any order. */
  function Restore(entries: Entries, snapshot: Entries): (r: Entries)
    ensures r.Keys == entries.Keys + DefinedKeys(snapshot)
    ensures forall k :: k in DefinedKeys(snapshot) ==> r[k] == snapshot[k]
    ensures forall k :: k in entries && k !in DefinedKeys(snapshot) ==> r[k] == entries[k]
  {
    map k | k in entries.Keys + DefinedKeys(snapshot) ::
      if k in DefinedKeys(snapshot) then snapshot[k] else entries[k]
  }

  /** The part of a snapshot whose keys are in `keys`. */
  function Restrict(snapshot: Entries, keys: set<QueryKey>): (r: Entries)
    ensures r.Keys == snapshot.Keys * keys
    ensures forall k :: k in r ==> r[k] == snapshot[k]
  {
    map k | k in snapshot && k in keys :: snapshot[k]
  }

  /** Writing back one more snapshot entry extends the restored part by that key. */
  lemma RestoreStep(entries: Entries, snapshot: Entries, done: set<QueryKey>, key: QueryKey)
    requires key in snapshot && key !in done
    ensures SetEntry(Restore(entries, Restrict(snapshot, done)), key, snapshot[key])
            == Restore(entries, Restrict(snapshot, done + {key}))
  {
    var before := Restore(entries, Restrict(snapshot, done));
    var after := Restore(entries, Restrict(snapshot, done + {key}));
    var stepped := SetEntry(before, key, snapshot[key]);
    assert DefinedKeys(Restrict(snapshot, done + {key})) ==
           DefinedKeys(Restrict(snapshot, done)) + (if snapshot[key].Some? then {key} else {});
    assert stepped.Keys == after.Keys;
    forall k | k in after ensures stepped[k] == after[k] {
    }
  }

  /**
   * Rolling back: if the updater leaves undefined data undefined, writing a
   * snapshot taken before `setQueriesData` back to the cache gives the cache
   * exactly as it was.
   */
  lemma RollbackRestores(entries: Entries, prefix: QueryKey, f: Option<QueryData> -> Option<QueryData>)
    requires f(None) == None
    ensures Restore(ApplyToMatching(entries, prefix, f), Snapshot(entries, prefix)) == entries
  {
    var updated := ApplyToMatching(entries, prefix, f);
    var snapshot := Snapshot(entries, prefix);
    var restored := Restore(updated, snapshot);
    assert restored.Keys == entries.Keys;
    forall k | k in entries ensures restored[k] == entries[k] {
      if Matches(k, prefix) && entries[k].None? {
        assert updated[k] == UpdateEntry(None, f) == None;
      }
    }
  }

  /** The query client: the cache shared by every component of the page. */
  class QueryClient {
    var entries: Entries

    constructor (initial: Entries)
      ensures entries == initial
    {
      entries := initial;
    }

    /** `getQueriesData({queryKey: prefix})` */
    function QueriesData(prefix: QueryKey): (r: Entries)
      reads this
      ensures forall k :: k in r <==> k in entries && Matches(k, prefix)
      ensures forall k :: k in r ==> r[k] == entries[k]
    {
      Snapshot(entries, prefix)
    }

    /** `setQueriesData({queryKey: prefix}, f)` */
    method SetQueriesData(prefix: QueryKey, f: Option<QueryData> -> Option<QueryData>)
      modifies this
      ensures entries == ApplyToMatching(old(entries), prefix, f)
    {
      entries := ApplyToMatching(entries, prefix, f);
    }

    /** `setQueryData(key, data)` */
    method SetQueryData(key: QueryKey, data: Option<QueryData>)
      modifies this
      ensures entries == SetEntry(old(entries), key, data)
    {
      entries := SetEntry(entries, key, data);
    }
  }
}
