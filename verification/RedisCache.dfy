/** The cache client: a key-value store whose failures are misses and no-ops, never errors. */
module RedisCache {
  import opened Domain
  import opened CacheAside

  class Cache {
    var entries: Cached
    var reachable: bool

    constructor (reachable: bool)
      ensures entries == map[] && this.reachable == reachable
    {
      entries, this.reachable := map[], reachable;
    }

    /** What readers of this cache can see right now. */
    function Visible(): Cached
      reads this
    {
      if reachable then entries else map[]
    }

    method GetJson(key: string) returns (r: Option<Entry>)
      ensures r == if key in Visible() then Some(Visible()[key]) else None
    {
      r := None;
      if reachable && key in entries {
        r := Some(entries[key]);
      }
    }

    method SetJson(key: string, value: Entry)
      modifies this`entries
      ensures entries == if reachable then old(entries)[key := value] else old(entries)
    {
      if reachable {
        entries := entries[key := value];
      }
    }

    /** Deletes any number of keys in one call. */
    method Invalidate(keys: set<string>)
      modifies this`entries
      ensures entries == if reachable then old(entries) - keys else old(entries)
    {
      if reachable {
        entries := entries - keys;
      }
    }
  }
}
