/** The resource cache, after `src/connections/in-memory-resource-cache-store.ts`. A scope is a tenant and a connection. */
module ResourceCache {
  import opened Basics
  import opened FlatKeys
  import Sorting

  datatype Resource = Resource(id: string, parentId: Option<string>, content: string)

  datatype Cached = Cached(resource: Resource, fetchedAt: int)

  /** The cache as callers see it: for each scope, snapshots by resource id. */
  type Contents = map<(Scope, string), Cached>

  /** No parent named, or the parent (perhaps none) a row must have. */
  type Within = Option<Option<string>>

  predicate InParent(within: Within, r: Resource) {
    within.Some? ==> r.parentId == within.value
  }

  // ---------------------------------------------------------------------------------------------
  // What the operations mean

  function Put(c: Contents, scope: Scope, r: Resource, now: int): Contents {
    c[(scope, r.id) := Cached(r, now)]
  }

  function PutMany(c: Contents, scope: Scope, rs: seq<Resource>, now: int): Contents {
    if rs == [] then c else Put(PutMany(c, scope, rs[..|rs| - 1], now), scope, rs[|rs| - 1], now)
  }

  /** The rows of a scope a prune removes. */
  function Doomed(c: Contents, scope: Scope, keep: set<string>, within: Within): set<(Scope, string)> {
    set p | p in c && p.0 == scope && p.1 !in keep && InParent(within, c[p].resource)
  }

  function Ids(rs: seq<Resource>): set<string> { set r | r in rs :: r.id }

  /** The last snapshot of a resource in a listing. */
  function LastOf(rs: seq<Resource>, id: string): Option<Resource> {
    if rs == [] then None else if rs[|rs| - 1].id == id then Some(rs[|rs| - 1]) else LastOf(rs[..|rs| - 1], id)
  }

  lemma {:induction false} LastOfIs(rs: seq<Resource>, id: string)
    ensures LastOf(rs, id).Some? <==> id in Ids(rs)
    ensures LastOf(rs, id).Some? ==> LastOf(rs, id).value in rs && LastOf(rs, id).value.id == id
  {
    if rs != [] {
      var front, last := rs[..|rs| - 1], rs[|rs| - 1];
      LastOfIs(front, id);
      assert rs == front + [last];
      assert Ids(rs) == Ids(front) + {last.id};
    }
  }

  lemma {:induction false} PutManyAt(c: Contents, scope: Scope, rs: seq<Resource>, now: int, p: (Scope, string))
    ensures var after := PutMany(c, scope, rs, now);
      if p.0 == scope && LastOf(rs, p.1).Some? then p in after && after[p] == Cached(LastOf(rs, p.1).value, now)
      else (p in after <==> p in c) && (p in c ==> after[p] == c[p])
  {
    if rs != [] {
      PutManyAt(c, scope, rs[..|rs| - 1], now, p);
    }
  }

  // ---------------------------------------------------------------------------------------------
  // The store: one flat map

  datatype Stored = Stored(scopeKey: string, resourceId: string, parentId: Option<string>, entry: Cached)

  function RowFor(scope: Scope, entry: Cached): Stored {
    Stored(ScopeKey(scope), entry.resource.id, entry.resource.parentId, entry)
  }

  ghost function Rows(c: Contents): map<(Scope, string), Stored> {
    map p | p in c :: RowFor(p.0, c[p])
  }

  ghost predicate Keyed(c: Contents) {
    forall p :: p in c ==> c[p].resource.id == p.1
  }

  /** The order of listings, given an order of ids. */
  function ById(upTo: (string, string) -> bool): (Cached, Cached) -> bool {
    (a: Cached, b: Cached) => upTo(a.resource.id, b.resource.id)
  }

  class InMemoryResourceCacheStore {
    const upTo: (string, string) -> bool
    var rows: map<string, Stored>
    ghost var contents: Contents

    ghost predicate Valid()
      reads this
    {
      Keyed(contents) && Stands(rows, Rows(contents))
    }

    constructor (upTo: (string, string) -> bool)
      ensures Valid() && contents == map[] && this.upTo == upTo
    {
      this.upTo := upTo;
      rows, contents := map[], map[];
    }

    method Get(scope: Scope, id: string) returns (found: Option<Cached>)
      requires Valid()
      ensures found == if (scope, id) in contents then Some(contents[(scope, id)]) else None
    {
      hide Stands, Id, ScopeKey;
      StandsAt(rows, Rows(contents), scope, id);
      found := if Id(scope, id) in rows then Some(rows[Id(scope, id)].entry) else None;
    }

    method PutOne(scope: Scope, r: Resource, now: int)
      requires Valid()
      modifies this
      ensures Valid() && contents == Put(old(contents), scope, r, now)
    {
      hide Stands, Id, ScopeKey;
      var row := Stored(ScopeKey(scope), r.id, r.parentId, Cached(r, now));
      StandsPut(rows, Rows(contents), scope, r.id, row);
      assert Rows(contents)[(scope, r.id) := row] == Rows(Put(contents, scope, r, now));
      rows := rows[Id(scope, r.id) := row];
      contents := Put(contents, scope, r, now);
    }

    method PutAll(scope: Scope, rs: seq<Resource>, now: int)
      requires Valid()
      modifies this
      ensures Valid() && contents == PutMany(old(contents), scope, rs, now)
    {
      hide Put;
      for i := 0 to |rs|
        invariant Valid() && contents == PutMany(old(contents), scope, rs[..i], now)
      {
        assert rs[..i + 1][..i] == rs[..i];
        PutOne(scope, rs[i], now);
      }
      assert rs[..|rs|] == rs;
    }

    method Delete(scope: Scope, id: string) returns (deleted: bool)
      requires Valid()
      modifies this
      ensures Valid() && deleted == ((scope, id) in old(contents)) && contents == old(contents) - {(scope, id)}
      ensures rows == old(rows) - {Id(scope, id)}
    {
      hide Stands, Id, ScopeKey;
      StandsAt(rows, Rows(contents), scope, id);
      StandsDrop(rows, Rows(contents), scope, id);
      assert Rows(contents) - {(scope, id)} == Rows(contents - {(scope, id)});
      deleted := Id(scope, id) in rows;
      rows := rows - {Id(scope, id)};
      contents := contents - {(scope, id)};
    }

    /** The keys of a scope's rows, under the parent rule. */
    method RowsWithin(scope: Scope, within: Within) returns (ids: set<string>)
      requires Valid()
      ensures forall key :: (scope, key) in contents && InParent(within, contents[(scope, key)].resource) ==> Id(scope, key) in ids
      ensures AreRows(ids, rows, contents, scope, within)
    {
      hide Id, ScopeKey;
      ids := set id | id in rows && rows[id].scopeKey == ScopeKey(scope) && (within.Some? ==> rows[id].parentId == within.value);
      forall id | id in ids
        ensures exists key :: Holds(rows, contents, scope, within, id, key)
      {
        var s, key :| (s, key) in Rows(contents) && Id(s, key) == id;
        assert rows[id] == RowFor(s, contents[(s, key)]);
        ScopeKeyInjective(s, scope);
        assert Holds(rows, contents, scope, within, id, key);
      }
      forall key | (scope, key) in contents && InParent(within, contents[(scope, key)].resource) ensures Id(scope, key) in ids {
        assert Rows(contents)[(scope, key)] == RowFor(scope, contents[(scope, key)]);
      }
    }

    /** The snapshots of a scope, under the parent rule, each once and in the order of their ids. */
    method List(scope: Scope, within: Within) returns (listed: seq<Cached>)
      requires Valid()
      ensures forall e :: e in listed <==> (scope, e.resource.id) in contents && contents[(scope, e.resource.id)] == e && InParent(within, e.resource)
      ensures NoRepeats(listed)
      ensures Sorting.Orders(ById(upTo)) ==> Sorting.Rises(ById(upTo), listed)
    {
      hide Stands, Id, ScopeKey, Sorting.Orders, Sorting.Rises, ById;
      var ids := RowsWithin(scope, within);
      var found := set id | id in ids :: rows[id].entry;
      forall e: Cached | (scope, e.resource.id) in contents && contents[(scope, e.resource.id)] == e && InParent(within, e.resource) ensures e in found {
        assert Id(scope, e.resource.id) in ids;
        StandsAt(rows, Rows(contents), scope, e.resource.id);
      }
      listed := Sorting.SortSet(ById(upTo), found);
    }

    method Prune(scope: Scope, keep: set<string>, within: Within) returns (pruned: nat)
      requires Valid()
      modifies this
      ensures Valid()
      ensures contents == old(contents) - Doomed(old(contents), scope, keep, within)
      ensures pruned == |Doomed(old(contents), scope, keep, within)|
    {
      hide Stands, Id, ScopeKey, AreRows, Pending, Keyed;
      pruned := 0;
      var rest := RowsWithin(scope, within);
      ghost var doomed := Doomed(contents, scope, keep, within);
      ghost var gone: set<(Scope, string)> := {};
      assert Pending(doomed, gone, rest, scope) by { AllPending(doomed, rest, scope, contents, within); }
      while rest != {}
        invariant Valid() && gone <= doomed && |gone| == pruned && contents == old(contents) - gone
        invariant AreRows(rest, rows, contents, scope, within) && Pending(doomed, gone, rest, scope)
        decreases |rest|
      {
        var id :| id in rest;
        ghost var key := TakeRow(rest, rows, contents, scope, within, id);
        var row := rows[id];
        if row.resourceId !in keep {
          DropRow(rest, rows, contents, scope, within, id, key);
          PendingDrop(doomed, gone, rest, scope, id, key);
          var _ := Delete(scope, row.resourceId);
          pruned := pruned + 1;
          gone := gone + {(scope, key)};
        } else {
          SkipRow(rest, rows, contents, scope, within, id);
          PendingSkip(doomed, gone, rest, scope, id, key);
        }
        rest := rest - {id};
      }
      NonePending(doomed, gone, scope);
    }
  }

  // ---------------------------------------------------------------------------------------------
  // What a prune keeps track of while it walks the rows

  /** The row with this flat id is the snapshot of this key. */
  ghost predicate Holds(rows: map<string, Stored>, c: Contents, scope: Scope, within: Within, id: string, key: string) {
    && (scope, key) in c && InParent(within, c[(scope, key)].resource)
    && id == Id(scope, key) && id in rows && rows[id] == RowFor(scope, c[(scope, key)])
  }

  ghost predicate AreRows(ids: set<string>, rows: map<string, Stored>, c: Contents, scope: Scope, within: Within) {
    forall id :: id in ids ==> exists key :: Holds(rows, c, scope, within, id, key)
  }

  /** What is still to go has its row still to come. */
  ghost predicate Pending(doomed: set<(Scope, string)>, gone: set<(Scope, string)>, rest: set<string>, scope: Scope) {
    forall p :: p in doomed && p !in gone ==> p.0 == scope && Id(scope, p.1) in rest
  }

  lemma TakeRow(rest: set<string>, rows: map<string, Stored>, c: Contents, scope: Scope, within: Within, id: string) returns (key: string)
    requires AreRows(rest, rows, c, scope, within) && id in rest && Keyed(c)
    ensures Holds(rows, c, scope, within, id, key) && rows[id].resourceId == key
  {
    key :| Holds(rows, c, scope, within, id, key);
  }

  lemma DropRow(rest: set<string>, rows: map<string, Stored>, c: Contents, scope: Scope, within: Within, id: string, key: string)
    requires AreRows(rest, rows, c, scope, within) && id == Id(scope, key)
    ensures AreRows(rest - {id}, rows - {id}, c - {(scope, key)}, scope, within)
  {
    hide Id;
    forall other | other in rest - {id} ensures exists k :: Holds(rows - {id}, c - {(scope, key)}, scope, within, other, k) {
      var k :| Holds(rows, c, scope, within, other, k);
      assert Holds(rows - {id}, c - {(scope, key)}, scope, within, other, k);
    }
  }

  lemma SkipRow(rest: set<string>, rows: map<string, Stored>, c: Contents, scope: Scope, within: Within, id: string)
    requires AreRows(rest, rows, c, scope, within)
    ensures AreRows(rest - {id}, rows, c, scope, within)
  {
    hide Holds;
  }

  lemma AllPending(doomed: set<(Scope, string)>, rest: set<string>, scope: Scope, c: Contents, within: Within)
    requires forall p :: p in doomed ==> p.0 == scope && p in c && InParent(within, c[p].resource)
    requires forall key :: (scope, key) in c && InParent(within, c[(scope, key)].resource) ==> Id(scope, key) in rest
    ensures Pending(doomed, {}, rest, scope)
  {
    hide Id;
    forall p | p in doomed ensures Id(scope, p.1) in rest { assert p == (scope, p.1); }
  }

  lemma PendingDrop(doomed: set<(Scope, string)>, gone: set<(Scope, string)>, rest: set<string>, scope: Scope, id: string, key: string)
    requires Pending(doomed, gone, rest, scope) && id == Id(scope, key)
    ensures Pending(doomed, gone + {(scope, key)}, rest - {id}, scope)
  {
    OtherIds(scope, key);
  }

  lemma PendingSkip(doomed: set<(Scope, string)>, gone: set<(Scope, string)>, rest: set<string>, scope: Scope, id: string, key: string)
    requires Pending(doomed, gone, rest, scope) && id == Id(scope, key) && (scope, key) !in doomed
    ensures Pending(doomed, gone, rest - {id}, scope)
  {
    OtherIds(scope, key);
  }

  lemma NonePending(doomed: set<(Scope, string)>, gone: set<(Scope, string)>, scope: Scope)
    requires Pending(doomed, gone, {}, scope) && gone <= doomed
    ensures gone == doomed
  {
    forall p | p in doomed ensures p in gone {}
  }

  lemma OtherIds(scope: Scope, key: string)
    ensures forall other :: Id(scope, other) == Id(scope, key) ==> other == key
  {
    hide Id;
    forall other | Id(scope, other) == Id(scope, key) ensures other == key {
      IdInjective(scope, other, scope, key);
    }
  }
}
