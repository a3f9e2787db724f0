/**
 * The in-memory cache the credential broker runs against in its tests
 * (pkg/tests/cache_mock.go). Values are the cached strings themselves; the
 * JSON encoding the mock applies to them is the identity on this model.
 */
module Cache {
  import opened Wrappers

  const MissingKey := "key does not exist in cache"

  class MockCache {
    /** The `Data` map; None is Go's nil map, created lazily by both operations. */
    var data: Option<map<string, string>>
    /** The TTL each key was last stored with. The mock discards it; it is kept here only to state what callers asked for. */
    ghost var requestedTtl: map<string, int>

    /** The stored entries, empty while the map is nil. */
    function Entries(): map<string, string>
      reads this
    {
      if data.Some? then data.value else map[]
    }

    constructor()
      ensures data == None && requestedTtl == map[]
      ensures Entries() == map[]
    {
      data := None;
      requestedTtl := map[];
    }

    /** Get: the stored value, or an error for an absent key; the entries never change. */
    method Get(key: string) returns (r: Result<string, string>)
      modifies this
      ensures data == Some(old(Entries()))
      ensures Entries() == old(Entries())
      ensures requestedTtl == old(requestedTtl)
      ensures key in Entries() ==> r == Success(Entries()[key])
      ensures key !in Entries() ==> r == Failure(MissingKey)
    {
      if data.None? {
        data := Some(map[]);
      }
      var m := data.value;
      if key !in m {
        return Failure(MissingKey);
      }
      r := Success(m[key]);
    }

    /** Set: stores `val` under `key` alone; the TTL has no effect on the entries. */
    method Set(key: string, val: string, ttl: int) returns (r: Result<(), string>)
      modifies this
      ensures r.Success?
      ensures data == Some(old(Entries())[key := val])
      ensures requestedTtl == old(requestedTtl)[key := ttl]
    {
      if data.None? {
        data := Some(map[]);
      }
      data := Some(data.value[key := val]);
      requestedTtl := requestedTtl[key := ttl];
      r := Success(());
    }
  }

  /** A Set followed by a Get of the same key yields the stored value, whatever the TTL. */
  method SetThenGet(c: MockCache, key: string, val: string, ttl: int) returns (r: Result<string, string>)
    modifies c
    ensures r == Success(val)
    ensures forall k :: k in old(c.Entries()) && k != key ==> k in c.Entries() && c.Entries()[k] == old(c.Entries())[k]
  {
    var _ := c.Set(key, val, ttl);
    r := c.Get(key);
  }
}
