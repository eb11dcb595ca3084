/** Module pools, after `src/pools/in-memory-pool-store.ts`: one flat map that behaves as a map for each scope. */
module PoolStore {
  import opened Basics
  import opened Text
  import opened FlatKeys
  import Sorting

  datatype Entry = Entry(key: string, value: string, updatedAt: nat)

  /** The order of listings, given an order of keys. */
  function ByKey(upTo: (string, string) -> bool): (Entry, Entry) -> bool {
    (a: Entry, b: Entry) => upTo(a.key, b.key)
  }

  class InMemoryPoolStore {
    const upTo: (string, string) -> bool
    var entries: map<string, Entry>
    var clock: nat
    ghost var contents: map<(Scope, string), Entry>

    ghost predicate Valid()
      reads this
    {
      Stands(entries, contents) && forall p :: p in contents ==> contents[p].key == p.1
    }

    constructor (upTo: (string, string) -> bool)
      ensures Valid() && contents == map[] && this.upTo == upTo
    {
      this.upTo := upTo;
      entries, clock, contents := map[], 0, map[];
    }

    method Get(scope: Scope, key: string) returns (found: Option<Entry>)
      requires Valid()
      ensures found == if (scope, key) in contents then Some(contents[(scope, key)]) else None
    {
      hide Stands, Id;
      StandsAt(entries, contents, scope, key);
      var id := Id(scope, key);
      found := if id in entries then Some(entries[id]) else None;
    }

    method Set(scope: Scope, key: string, value: string)
      requires Valid()
      modifies this
      ensures Valid() && clock == old(clock) + 1
      ensures contents == old(contents)[(scope, key) := Entry(key, value, clock)]
    {
      hide Stands, Id;
      clock := clock + 1;
      StandsPut(entries, contents, scope, key, Entry(key, value, clock));
      entries := entries[Id(scope, key) := Entry(key, value, clock)];
      contents := contents[(scope, key) := Entry(key, value, clock)];
    }

    method Delete(scope: Scope, key: string) returns (deleted: bool)
      requires Valid()
      modifies this
      ensures Valid() && clock == old(clock)
      ensures deleted == ((scope, key) in old(contents)) && contents == old(contents) - {(scope, key)}
    {
      hide Stands, Id;
      StandsAt(entries, contents, scope, key);
      StandsDrop(entries, contents, scope, key);
      deleted := Id(scope, key) in entries;
      entries := entries - {Id(scope, key)};
      contents := contents - {(scope, key)};
    }

    /** The entries of the scope whose keys have the prefix, each once and in the order of their keys, and none of any other scope. */
    method List(scope: Scope, keyPrefix: string) returns (listed: seq<Entry>)
      requires Valid()
      ensures forall e :: e in listed <==>
        (scope, e.key) in contents && StartsWith(e.key, keyPrefix) && contents[(scope, e.key)] == e
      ensures NoRepeats(listed)
      ensures Sorting.Orders(ByKey(upTo)) ==> Sorting.Rises(ByKey(upTo), listed)
    {
      hide Id, Sorting.Orders, Sorting.Rises, ByKey;
      var prefix := Id(scope, keyPrefix);
      var found := set id | id in entries && StartsWith(id, prefix) :: entries[id];
      forall e | e in found
        ensures (scope, e.key) in contents && StartsWith(e.key, keyPrefix) && contents[(scope, e.key)] == e
      {
        var id :| id in entries && StartsWith(id, prefix) && entries[id] == e;
        var s, key :| (s, key) in contents && Id(s, key) == id;
        ScanIsExact(scope, keyPrefix, s, key);
      }
      forall key | (scope, key) in contents && StartsWith(key, keyPrefix) ensures contents[(scope, key)] in found {
        ScanIsExact(scope, keyPrefix, scope, key);
        assert Id(scope, key) in entries;
      }
      listed := Sorting.SortSet(ByKey(upTo), found);
    }
  }
}
