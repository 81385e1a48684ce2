/** pkg/config/cache.go: the per-object key/value cache that every secret and
    every storage mapping carries. Go's `map[any]any` becomes a map over two
    tagged unions; a Go type assertion on a cached value becomes a match on
    its tag. */
module ObjectCache {
  import opened Common

  /** The cache keys the plugins use. */
  datatype Key =
    | GotKeys                         // IAM: oldest/newest key pair
    | SecretUpdatedAt(name: string)   // GitHub: UpdatedAt of one action secret
    | EnvVarsSeen                     // CircleCI: names of the known env vars
    | Named(tag: string)              // any other comparable key

  /** The values the plugins store; Nil is Go's nil interface value. */
  datatype Value =
    | Nil
    | KeyList(keys: seq<Option<AccessKey>>)
    | Instant(at: Time)
    | NameSet(names: set<string>)
    | Text(text: string)

  class Cache {
    /** The underlying Go map; None is the nil map of a fresh object. */
    var table: Option<map<Key, Value>>

    constructor ()
      ensures table == None
    {
      table := None;
    }

    /** initCache: makes an empty map only when there is none yet. */
    method InitCache()
      modifies this
      ensures old(table).None? ==> table == Some(map[])
      ensures old(table).Some? ==> table == old(table)
    {
      if table.None? {
        table := Some(map[]);
      }
    }

    /** CacheGet: the stored value and true, or (Nil, false) when nothing is
        stored; a nil map behaves as an empty one. */
    function CacheGet(k: Key): (r: (Value, bool))
      reads this
      ensures r.1 <==> table.Some? && k in table.value
      ensures r.1 ==> r.0 == table.value[k]
      ensures !r.1 ==> r.0 == Nil
    {
      if table.Some? && k in table.value then (table.value[k], true) else (Nil, false)
    }

    /** CacheSet: writing to the nil map panics in Go, so the cache must have
        been initialised. Only `k` changes. */
    method CacheSet(k: Key, v: Value)
      requires table.Some?
      modifies this
      ensures table.Some?
      ensures CacheGet(k) == (v, true)
      ensures forall k' :: k' != k ==> CacheGet(k') == old(CacheGet(k'))
      ensures table == Some(old(table).value[k := v])
    {
      table := Some(table.value[k := v]);
    }

    /** CacheClear: deletes `k`; deleting from the nil map is a no-op. */
    method CacheClear(k: Key)
      modifies this
      ensures CacheGet(k) == (Nil, false)
      ensures forall k' :: k' != k ==> CacheGet(k') == old(CacheGet(k'))
      ensures old(table).None? ==> table == None
      ensures old(table).Some? ==> table == Some(old(table).value - {k})
    {
      if table.Some? {
        table := Some(table.value - {k});
      }
    }
  }

  /** The sequence of cache_test.go: get on a fresh initialised cache misses,
      set then get hits, a second set replaces, clear makes it miss; storing
      Nil still counts as present. */
  method CacheScenario()
  {
    var c := new Cache();
    assert c.CacheGet(Named("key")) == (Nil, false);
    c.InitCache();
    assert c.table == Some(map[]);
    assert c.CacheGet(Named("key")) == (Nil, false);
    c.CacheSet(Named("key"), Text("value"));
    assert c.CacheGet(Named("key")) == (Text("value"), true);
    c.CacheSet(Named("key"), Text("value2"));
    assert c.CacheGet(Named("key")) == (Text("value2"), true);
    c.CacheClear(Named("key"));
    assert c.CacheGet(Named("key")) == (Nil, false);
    c.CacheSet(Named("nil"), Nil);
    assert c.CacheGet(Named("nil")) == (Nil, true);
    c.InitCache();
    assert c.CacheGet(Named("nil")) == (Nil, true);
  }
}
