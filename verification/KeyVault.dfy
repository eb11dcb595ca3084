/**
 * A vault as the program has it: a cache filled in place over stores it shares. Left alone, each method
 * carries its operation of `Vault` through from start to finish.
 */
module KeyVault {
  import opened Basics
  import opened Envelope
  import opened Vault

  /** The tenant key store: the first key wins. */
  class InMemoryTenantKeyStore {
    var keys: map<string, Bytes>

    constructor ()
      ensures keys == map[]
    {
      keys := map[];
    }

    method Ensure(tenant: string, sealed: Bytes) returns (effective: Bytes)
      modifies this
      ensures keys == if tenant in old(keys) then old(keys) else old(keys)[tenant := sealed]
      ensures effective == keys[tenant]
    {
      if tenant in keys {
        return keys[tenant];
      }
      keys := keys[tenant := sealed];
      effective := sealed;
    }

    method Find(tenant: string) returns (found: Option<Bytes>)
      ensures found == if tenant in keys then Some(keys[tenant]) else None
    {
      found := if tenant in keys then Some(keys[tenant]) else None;
    }
  }

  class SecretStore {
    var secrets: map<Name, Bytes>
    ghost var meaning: map<Name, Bytes>

    constructor ()
      ensures secrets == map[] && meaning == map[]
    {
      secrets, meaning := map[], map[];
    }

    method Put(name: Name, sealed: Bytes, ghost plain: Bytes)
      modifies this
      ensures secrets == old(secrets)[name := sealed] && meaning == old(meaning)[name := plain]
    {
      secrets, meaning := secrets[name := sealed], meaning[name := plain];
    }

    method Get(name: Name) returns (found: Option<Bytes>)
      ensures found == if name in secrets then Some(secrets[name]) else None
    {
      found := if name in secrets then Some(secrets[name]) else None;
    }
  }

  // ---------------------------------------------------------------------------------------------
  // An operation carried through

  predicate Settled(op: Op) { op.phase.HaveKey? || op.phase.Done? }

  function Next(s: Setup, w: World, op: Op): (World, Op) {
    if Settled(op) then (w, op) else Work(s, w, op)
  }

  /** Look in the cache, in the store, and create a key if there is none. */
  function Fetched(s: Setup, w: World, op: Op): (World, Op) {
    var (w1, op1) := Next(s, w, op);
    var (w2, op2) := Next(s, w1, op1);
    Next(s, w2, op2)
  }

  function Finished(s: Setup, w: World, op: Op): (World, Op) {
    var (w1, op1) := if op.phase.Getting? then Work(s, w, op) else (w, op);
    var (w2, op2) := Fetched(s, w1, op1);
    Work(s, w2, op2)
  }

  ghost function CachesOf(cache: map<string, Bytes>, id: nat): map<(nat, string), Bytes> {
    map t | t in cache :: (id, t) := cache[t]
  }

  class KeyVault {
    const setup: Setup
    const id: nat
    const dataKeys: InMemoryTenantKeyStore
    const store: SecretStore
    var cache: map<string, Bytes>
    var draws: nat

    /** The world as this vault sees it; the caches of other vaults are theirs. */
    ghost function Now(): World
      reads this, dataKeys, store
    {
      World(dataKeys.keys, store.secrets, store.meaning, CachesOf(cache, id), [], draws)
    }

    constructor (setup: Setup, id: nat, dataKeys: InMemoryTenantKeyStore, store: SecretStore)
      ensures this.setup == setup && this.id == id && this.dataKeys == dataKeys && this.store == store && cache == map[] && draws == 0
    {
      this.setup, this.id, this.dataKeys, this.store, cache, draws := setup, id, dataKeys, store, map[], 0;
    }

    /** The tenant's data key, cached for as long as the process lives. */
    method DataKey(tenant: string, mayCreate: bool, ghost op: Op) returns (key: Result<Bytes, Trouble>)
      requires op.vault == id && op.tenant == tenant && op.phase.NeedKey?
      requires mayCreate <==> !(setup.kind(id) == ModelKeys && op.job == Resolve)
      modifies this, dataKeys
      ensures var (w1, op1) := Fetched(setup, old(Now()), op);
        && Now() == w1
        && op1 == op.(phase := match key case Ok(k) => HaveKey(op.phase.held, k) case Err(e) => Done(Err(e)))
    {
      hide Seal, OpenDataKey, Fetched, Unlocked, CachesOf;
      ghost var before := Now();
      CacheHas(cache, id, tenant);
      if tenant in cache {
        FetchedFromCache(setup, before, op);
        return Ok(cache[tenant]);
      }
      var existing := dataKeys.Find(tenant);
      var effective;
      if existing.Some? {
        effective := existing.value;
        FetchedFromStore(setup, before, op);
      } else if !mayCreate {
        FetchedNothing(setup, before, op);
        return Err(NoDataKey);
      } else {
        var sealed := Seal(setup.aead, setup.keys(draws), setup.master, setup.ivs(draws));
        draws := draws + 1;
        effective := dataKeys.Ensure(tenant, sealed);
        FetchedFresh(setup, before, op);
      }
      var key0 := OpenDataKey(setup.aead, effective, setup.master);
      UnlockedIs(setup, Now(), op, op.phase.held);
      if key0.Err? {
        return Err(Cipher(key0.error));
      }
      CachePut(cache, id, tenant, key0.value);
      cache := cache[tenant := key0.value];
      return Ok(key0.value);
    }

    method Save(tenant: string, name: string, plain: Bytes) returns (result: Result<Option<Bytes>, Trouble>)
      modifies this, dataKeys, store
      ensures var (w1, op1) := Finished(setup, old(Now()), Started(setup, id, tenant, name, Store(plain)));
        Now() == w1 && op1.phase == Done(result)
    {
      hide Seal, OpenDataKey, Fetched, CachesOf;
      ghost var op := Started(setup, id, tenant, name, Store(plain));
      if setup.kind(id) == ModelKeys && plain == [] {
        SettledStays(setup, Now(), op);
        return Err(EmptyKey);
      }
      var key := DataKey(tenant, true, op);
      if key.Err? {
        return Err(key.error);
      }
      var sealed := Seal(setup.aead, plain, key.value, setup.ivs(draws));
      draws := draws + 1;
      store.Put((setup.kind(id), tenant, name), sealed, plain);
      return Ok(None);
    }

    method Answer(tenant: string, name: string) returns (result: Result<Option<Bytes>, Trouble>)
      modifies this, dataKeys
      ensures var (w1, op1) := Finished(setup, old(Now()), Started(setup, id, tenant, name, Resolve));
        Now() == w1 && op1.phase == Done(result)
    {
      hide Seal, Open, OpenDataKey, Fetched, CachesOf;
      ghost var op := Work(setup, Now(), Started(setup, id, tenant, name, Resolve)).1;
      var sealed := store.Get((setup.kind(id), tenant, name));
      if sealed.None? {
        SettledStays(setup, Now(), op);
        return Ok(None);
      }
      var key := DataKey(tenant, setup.kind(id) != ModelKeys, op);
      if key.Err? {
        return Err(key.error);
      }
      var plain := Open(setup.aead, sealed.value, key.value);
      if plain.Err? {
        return Err(Cipher(plain.error));
      }
      return Ok(Some(plain.value));
    }
  }

  lemma SettledStays(s: Setup, w: World, op: Op)
    requires Settled(op)
    ensures Fetched(s, w, op) == (w, op)
  {}

  lemma CachePut(cache: map<string, Bytes>, id: nat, tenant: string, key: Bytes)
    ensures CachesOf(cache[tenant := key], id) == CachesOf(cache, id)[(id, tenant) := key]
  {}

  lemma CacheHas(cache: map<string, Bytes>, id: nat, tenant: string)
    ensures (id, tenant) in CachesOf(cache, id) <==> tenant in cache
    ensures tenant in cache ==> CachesOf(cache, id)[(id, tenant)] == cache[tenant]
  {}

  lemma UnlockedIs(s: Setup, w: World, op: Op, held: Option<Bytes>)
    requires op.tenant in w.dataKeys
    ensures Unlocked(s, w, op, held) ==
      match OpenDataKey(s.aead, w.dataKeys[op.tenant], s.master)
      case Err(e) => (w, op.(phase := Done(Err(Cipher(e)))))
      case Ok(key) => (w.(caches := w.caches[(op.vault, op.tenant) := key]), op.(phase := HaveKey(held, key)))
  {
    hide OpenDataKey;
  }

  lemma FetchedFromCache(s: Setup, w: World, op: Op)
    requires op.phase.NeedKey? && (op.vault, op.tenant) in w.caches
    ensures Fetched(s, w, op) == (w, op.(phase := HaveKey(op.phase.held, w.caches[(op.vault, op.tenant)])))
  {}

  lemma FetchedFromStore(s: Setup, w: World, op: Op)
    requires op.phase.NeedKey? && (op.vault, op.tenant) !in w.caches && op.tenant in w.dataKeys
    ensures Fetched(s, w, op) == Unlocked(s, w, op, op.phase.held)
  {
    hide OpenDataKey;
  }

  lemma FetchedNothing(s: Setup, w: World, op: Op)
    requires op.phase.NeedKey? && (op.vault, op.tenant) !in w.caches && op.tenant !in w.dataKeys
    requires s.kind(op.vault) == ModelKeys && op.job == Resolve
    ensures Fetched(s, w, op) == (w, op.(phase := Done(Err(NoDataKey))))
  {}

  lemma FetchedFresh(s: Setup, w: World, op: Op)
    requires op.phase.NeedKey? && (op.vault, op.tenant) !in w.caches && op.tenant !in w.dataKeys
    requires !(s.kind(op.vault) == ModelKeys && op.job == Resolve)
    ensures var sealed := Seal(s.aead, s.keys(w.draws), s.master, s.ivs(w.draws));
      Fetched(s, w, op) == Unlocked(s, w.(draws := w.draws + 1, dataKeys := w.dataKeys[op.tenant := sealed]), op, op.phase.held)
  {
    hide OpenDataKey, Seal;
  }
}
