/**
 * Flat keys for nested names, after the `#id` functions of `src/pools/in-memory-pool-store.ts`,
 * `src/connections/in-memory-resource-cache-store.ts` and `src/connections/in-memory-connection-store.ts`.
 * Every part but the last carries its length, so nothing in it can be mistaken for a boundary.
 */
module FlatKeys {
  import opened Basics
  import opened Text

  function Frame(part: string, rest: string): string { Decimal(|part|) + [':'] + (part + "/" + rest) }

  lemma FrameSplit(a: string, x: string, b: string, y: string)
    requires Frame(a, x) == Frame(b, y)
    ensures a == b && x == y
  {
    hide Decimal;
    var p, q := a + "/" + x, b + "/" + y;
    NumeralsSplit(Decimal(|a|), Decimal(|b|), p, q, ':');
    DecimalInjective(|a|, |b|);
    assert a == p[..|a|] == q[..|b|] == b;
    assert x == p[|a| + 1..] == q[|b| + 1..] == y;
  }

  lemma FramePush(a: string, x: string, z: string)
    ensures Frame(a, x) + z == Frame(a, x + z)
  {
    hide Decimal;
    assert (a + "/" + x) + z == a + "/" + (x + z);
  }

  /** A framed key extends another exactly when the parts agree and what follows extends. */
  lemma FrameExtends(a: string, x: string, b: string, y: string)
    ensures Frame(a, x) <= Frame(b, y) <==> a == b && x <= y
  {
    hide Frame;
    if Frame(a, x) <= Frame(b, y) {
      var z := Frame(b, y)[|Frame(a, x)|..];
      FramePush(a, x, z);
      FrameSplit(a, x + z, b, y);
    }
    if a == b && x <= y {
      FramePush(a, x, y[|x|..]);
      assert x + y[|x|..] == y;
    }
  }

  datatype Scope = Scope(tenant: string, area: string)

  /** `tenant` and `area` (a module, or a connection) framed, then the key as it is. */
  function Id(scope: Scope, key: string): string { Frame(scope.tenant, Frame(scope.area, key)) }

  function ScopeKey(scope: Scope): string {
    Decimal(|scope.tenant|) + [':'] + (scope.tenant + "/" + (Decimal(|scope.area|) + [':'] + scope.area))
  }

  lemma IdIsScoped(scope: Scope, key: string)
    ensures Id(scope, key) == ScopeKey(scope) + "/" + key
  {
    hide Decimal;
    var c := Decimal(|scope.area|) + [':'] + scope.area;
    assert Frame(scope.area, key) == c + "/" + key;
    assert scope.tenant + "/" + Frame(scope.area, key) == scope.tenant + "/" + c + "/" + key;
  }

  /** A scan by prefix finds the scope's own entries whose key has the prefix, and no others, whatever the ids contain. */
  lemma ScanIsExact(scope: Scope, prefix: string, scope': Scope, key: string)
    ensures StartsWith(Id(scope', key), Id(scope, prefix)) <==> scope' == scope && StartsWith(key, prefix)
  {
    FrameExtends(scope.tenant, Frame(scope.area, prefix), scope'.tenant, Frame(scope'.area, key));
    FrameExtends(scope.area, prefix, scope'.area, key);
  }

  lemma IdInjective(scope: Scope, key: string, scope': Scope, key': string)
    requires Id(scope, key) == Id(scope', key')
    ensures scope == scope' && key == key'
  {
    ScanIsExact(scope, key, scope', key');
    ScanIsExact(scope', key', scope, key);
  }

  lemma ScopeKeyInjective(scope: Scope, scope': Scope)
    requires ScopeKey(scope) == ScopeKey(scope')
    ensures scope == scope'
  {
    IdIsScoped(scope, "");
    IdIsScoped(scope', "");
    IdInjective(scope, "", scope', "");
  }

  function CredentialId(tenant: string, connection: string): string { Frame(tenant, connection) }

  lemma CredentialIdInjective(tenant: string, connection: string, tenant': string, connection': string)
    requires CredentialId(tenant, connection) == CredentialId(tenant', connection')
    ensures tenant == tenant' && connection == connection'
  {
    FrameExtends(tenant, connection, tenant', connection');
    FrameExtends(tenant', connection', tenant, connection);
  }

  // ---------------------------------------------------------------------------------------------
  // A flat map that stands for a nested one

  /** The flat map holds the nested map's entries under their ids and nothing else. */
  ghost predicate Stands<V(!new)>(flat: map<string, V>, nested: map<(Scope, string), V>) {
    && (forall scope, key :: (scope, key) in nested ==> Id(scope, key) in flat && flat[Id(scope, key)] == nested[(scope, key)])
    && (forall id :: id in flat ==> exists scope, key :: (scope, key) in nested && Id(scope, key) == id)
  }

  lemma StandsAt<V(!new)>(flat: map<string, V>, nested: map<(Scope, string), V>, scope: Scope, key: string)
    requires Stands(flat, nested)
    ensures Id(scope, key) in flat <==> (scope, key) in nested
    ensures (scope, key) in nested ==> flat[Id(scope, key)] == nested[(scope, key)]
  {
    if Id(scope, key) in flat {
      var scope', key' :| (scope', key') in nested && Id(scope', key') == Id(scope, key);
      IdInjective(scope, key, scope', key');
    }
  }

  lemma StandsPut<V(!new)>(flat: map<string, V>, nested: map<(Scope, string), V>, scope: Scope, key: string, value: V)
    requires Stands(flat, nested)
    ensures Stands(flat[Id(scope, key) := value], nested[(scope, key) := value])
  {
    hide Id;
    var after, wide := nested[(scope, key) := value], flat[Id(scope, key) := value];
    forall s, k | (s, k) in after ensures Id(s, k) in wide && wide[Id(s, k)] == after[(s, k)] {
      if Id(s, k) == Id(scope, key) { IdInjective(s, k, scope, key); }
    }
    forall id | id in wide ensures exists s, k :: (s, k) in after && Id(s, k) == id {
      if id == Id(scope, key) {
        assert (scope, key) in after;
      } else {
        var s, k :| (s, k) in nested && Id(s, k) == id;
        assert (s, k) in after;
      }
    }
  }

  lemma StandsDrop<V(!new)>(flat: map<string, V>, nested: map<(Scope, string), V>, scope: Scope, key: string)
    requires Stands(flat, nested)
    ensures Stands(flat - {Id(scope, key)}, nested - {(scope, key)})
  {
    hide Id;
    var after := nested - {(scope, key)};
    forall s, k | (s, k) in after ensures Id(s, k) != Id(scope, key) {
      if Id(s, k) == Id(scope, key) { IdInjective(s, k, scope, key); }
    }
    forall id | id in flat - {Id(scope, key)} ensures exists s, k :: (s, k) in after && Id(s, k) == id {
      var s, k :| (s, k) in nested && Id(s, k) == id;
      assert (s, k) in after;
    }
  }
}
