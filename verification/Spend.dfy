/** What a tenant spent, whole and in groups, after `src/telemetry/model-usage.ts`. Money is a real number here. */
module Spend {
  import opened Basics
  import Sorting

  datatype Record = Record(tenant: string, session: Option<string>, task: string, model: string,
    cost: real, input: nat, output: nat, cached: nat)

  datatype Sum = Sum(cost: real, calls: nat, input: nat, output: nat, cached: nat)

  datatype Slice = Slice(key: string, sum: Sum)

  datatype Dimension = ByModel | ByTask | BySession | ByDay

  const ZERO := Sum(0.0, 0, 0, 0, 0)

  function Plus(a: Sum, b: Sum): Sum {
    Sum(a.cost + b.cost, a.calls + b.calls, a.input + b.input, a.output + b.output, a.cached + b.cached)
  }

  function One(r: Record): Sum { Sum(r.cost, 1, r.input, r.output, r.cached) }

  function Total(records: seq<Record>): Sum {
    if records == [] then ZERO else Plus(Total(records[..|records| - 1]), One(records[|records| - 1]))
  }

  /** No group for a call that has no key: a day is not known in memory, and a call may have no session. */
  function KeyOf(r: Record, dim: Dimension): Option<string> {
    match dim
    case ByModel => Some(r.model)
    case ByTask => Some(r.task)
    case BySession => r.session
    case ByDay => None
  }

  predicate Counts(r: Record, tenant: string, dim: Dimension) { r.tenant == tenant && KeyOf(r, dim).Some? }

  // ---------------------------------------------------------------------------------------------
  // Groups, in the order their keys first came

  function Sums(slices: seq<Slice>): Sum {
    if slices == [] then ZERO else Plus(Sums(slices[..|slices| - 1]), slices[|slices| - 1].sum)
  }

  predicate Has(slices: seq<Slice>, key: string) {
    exists i :: 0 <= i < |slices| && slices[i].key == key
  }

  lemma PlusIs(a: Sum, b: Sum, c: Sum)
    ensures Plus(a, ZERO) == a && Plus(ZERO, a) == a && Plus(a, b) == Plus(b, a)
    ensures Plus(Plus(a, b), c) == Plus(a, Plus(b, c))
  {}

  lemma {:induction false} SumsAppend(a: seq<Slice>, b: seq<Slice>)
    ensures Sums(a + b) == Plus(Sums(a), Sums(b))
  {
    hide Plus;
    if b == [] {
      assert a + b == a;
      PlusIs(Sums(a), ZERO, ZERO);
    } else {
      var front, whole := b[..|b| - 1], a + b;
      assert whole[..|whole| - 1] == a + front && whole[|whole| - 1] == b[|b| - 1];
      SumsAppend(a, front);
      PlusIs(Sums(a), Sums(front), b[|b| - 1].sum);
    }
  }

  lemma SumsOne(s: Slice)
    ensures Sums([s]) == s.sum
  {
    hide Plus;
    assert [s][..0] == [];
    assert Sums([s][..0]) == ZERO;
    PlusIs(s.sum, ZERO, ZERO);
  }

  lemma {:induction false} SumsChange(slices: seq<Slice>, i: nat, s: Slice, more: Sum)
    requires i < |slices| && s.sum == Plus(slices[i].sum, more)
    ensures Sums(slices[i := s]) == Plus(Sums(slices), more)
  {
    hide Plus, Sums;
    var a, b := slices[..i], slices[i + 1..];
    assert slices == a + ([slices[i]] + b) && slices[i := s] == a + ([s] + b);
    SumsAppend(a, [slices[i]] + b);
    SumsAppend(a, [s] + b);
    SumsAppend([slices[i]], b);
    SumsAppend([s], b);
    SumsOne(slices[i]);
    SumsOne(s);
    PlusRegroup(Sums(a), slices[i].sum, Sums(b), more);
  }

  lemma PlusRegroup(a: Sum, x: Sum, b: Sum, more: Sum)
    ensures Plus(a, Plus(Plus(x, more), b)) == Plus(Plus(a, Plus(x, b)), more)
  {}

  ghost predicate KeysDiffer(slices: seq<Slice>) {
    forall i, j :: 0 <= i < j < |slices| ==> slices[i].key != slices[j].key
  }

  /** The records of one group. */
  ghost function Mine(records: seq<Record>, tenant: string, dim: Dimension, key: string): seq<Record> {
    Filter((r: Record) => r.tenant == tenant && KeyOf(r, dim) == Some(key), records)
  }

  ghost function Counted(records: seq<Record>, tenant: string, dim: Dimension): seq<Record> {
    Filter((r: Record) => Counts(r, tenant, dim), records)
  }

  /** The keys there are records for. */
  ghost function Keys(records: seq<Record>, tenant: string, dim: Dimension): set<string> {
    set r | r in records && Counts(r, tenant, dim) :: KeyOf(r, dim).value
  }

  /**
   * The groups stand for the counted records: one for each key there are records for; together they sum to all
   * of the records, and each to its own.
   */
  ghost predicate Groups(slices: seq<Slice>, records: seq<Record>, tenant: string, dim: Dimension) {
    && KeysDiffer(slices)
    && Sums(slices) == Total(Counted(records, tenant, dim))
    && (forall i :: 0 <= i < |slices| ==> slices[i].sum == Total(Mine(records, tenant, dim, slices[i].key)))
    && (forall key :: Has(slices, key) <==> key in Keys(records, tenant, dim))
  }

  lemma TotalPush(keep: Record -> bool, records: seq<Record>, i: nat)
    requires i < |records|
    ensures Total(Filter(keep, records[..i + 1])) ==
      if keep(records[i]) then Plus(Total(Filter(keep, records[..i])), One(records[i])) else Total(Filter(keep, records[..i]))
  {
    FilterPush(keep, records, i);
    var before := Filter(keep, records[..i]);
    assert (before + [records[i]])[..|before|] == before && before + [] == before;
  }

  lemma MinePush(records: seq<Record>, tenant: string, dim: Dimension, i: nat, key: string)
    requires i < |records|
    ensures Total(Mine(records[..i + 1], tenant, dim, key)) ==
      if records[i].tenant == tenant && KeyOf(records[i], dim) == Some(key) then Plus(Total(Mine(records[..i], tenant, dim, key)), One(records[i]))
      else Total(Mine(records[..i], tenant, dim, key))
  {
    TotalPush((r: Record) => r.tenant == tenant && KeyOf(r, dim) == Some(key), records, i);
  }

  lemma CountedPush(records: seq<Record>, tenant: string, dim: Dimension, i: nat)
    requires i < |records|
    ensures Total(Counted(records[..i + 1], tenant, dim)) ==
      if Counts(records[i], tenant, dim) then Plus(Total(Counted(records[..i], tenant, dim)), One(records[i]))
      else Total(Counted(records[..i], tenant, dim))
  {
    TotalPush((r: Record) => Counts(r, tenant, dim), records, i);
  }

  function Find(slices: seq<Slice>, key: string): (i: nat)
    ensures i <= |slices| && (i < |slices| <==> Has(slices, key)) && (i < |slices| ==> slices[i].key == key)
  {
    if slices == [] then 0
    else if slices[0].key == key then 0
    else
      assert Has(slices[1..], key) <==> Has(slices, key) by {
        if Has(slices, key) { var j :| 0 <= j < |slices| && slices[j].key == key; assert slices[1..][j - 1].key == key; }
        if Has(slices[1..], key) { var j :| 0 <= j < |slices[1..]| && slices[1..][j].key == key; assert slices[j + 1].key == key; }
      }
      1 + Find(slices[1..], key)
  }

  /** A record enters its group, which it may be the first of. */
  function Entered(slices: seq<Slice>, key: string, r: Record): seq<Slice> {
    var i := Find(slices, key);
    var slice := if i < |slices| then slices[i] else Slice(key, ZERO);
    var fuller := Slice(key, Plus(slice.sum, One(r)));
    if i < |slices| then slices[i := fuller] else slices + [fuller]
  }

  lemma EnteredGroups(slices: seq<Slice>, records: seq<Record>, tenant: string, dim: Dimension, i: nat)
    requires i < |records| && Groups(slices, records[..i], tenant, dim) && Counts(records[i], tenant, dim)
    ensures Groups(Entered(slices, KeyOf(records[i], dim).value, records[i]), records[..i + 1], tenant, dim)
  {
    hide Total, Sums, Mine, Counted, Find, Keys, Has;
    var r, key := records[i], KeyOf(records[i], dim).value;
    var k, after := Find(slices, key), Entered(slices, key, r);
    CountedPush(records, tenant, dim, i);
    assert records[..i + 1] == records[..i] + [r];
    if k < |slices| {
      SumsChange(slices, k, after[k], One(r));
    } else {
      SumsAppend(slices, [after[k]]);
      SumsOne(after[k]);
      NoneYet(records[..i], tenant, dim, key);
    }
    assert KeysDiffer(after) by { StillDiffer(slices, key, r); }
    forall j | 0 <= j < |after| ensures after[j].sum == Total(Mine(records[..i + 1], tenant, dim, after[j].key)) {
      MinePush(records, tenant, dim, i, after[j].key);
    }
    forall any ensures Has(after, any) <==> any in Keys(records[..i + 1], tenant, dim) {
      HasAlso(slices, key, r, any);
      KeysPush(records[..i], r, tenant, dim);
    }
  }

  lemma NoneYet(records: seq<Record>, tenant: string, dim: Dimension, key: string)
    requires key !in Keys(records, tenant, dim)
    ensures Total(Mine(records, tenant, dim, key)) == ZERO
  {
    FilterNone((r: Record) => r.tenant == tenant && KeyOf(r, dim) == Some(key), records);
  }

  lemma StillDiffer(slices: seq<Slice>, key: string, r: Record)
    requires KeysDiffer(slices)
    ensures KeysDiffer(Entered(slices, key, r))
  {
    hide Plus, Find;
  }

  lemma HasAlso(slices: seq<Slice>, key: string, r: Record, any: string)
    ensures Has(Entered(slices, key, r), any) <==> any == key || Has(slices, any)
  {
    hide Plus, Find;
    var after := Entered(slices, key, r);
    assert |slices| <= |after| && forall j :: 0 <= j < |slices| ==> after[j].key == slices[j].key;
    assert after[Find(slices, key)].key == key;
    if j :| 0 <= j < |slices| && slices[j].key == any { assert after[j].key == any; }
  }

  lemma KeysPush(records: seq<Record>, r: Record, tenant: string, dim: Dimension)
    ensures Keys(records + [r], tenant, dim) ==
      Keys(records, tenant, dim) + if Counts(r, tenant, dim) then {KeyOf(r, dim).value} else {}
  {
    var all := records + [r];
    assert r in all && forall x :: x in all <==> x in records || x == r;
  }

  // ---------------------------------------------------------------------------------------------
  // Dearest first

  predicate NoCheaper(a: Slice, b: Slice) { a.sum.cost >= b.sum.cost }

  function Sorted(slices: seq<Slice>): seq<Slice> { Sorting.Sorted(NoCheaper, slices) }

  ghost predicate Falls(slices: seq<Slice>) {
    forall i, j :: 0 <= i < j < |slices| ==> slices[i].sum.cost >= slices[j].sum.cost
  }

  lemma {:induction false} InsertedSums(s: Slice, sorted: seq<Slice>)
    ensures Sums(Sorting.Inserted(NoCheaper, s, sorted)) == Plus(Sums(sorted), s.sum)
  {
    hide Sums, Plus;
    SumsOne(s);
    if sorted == [] || !NoCheaper(sorted[0], s) {
      SumsAppend([s], sorted);
      PlusIs(s.sum, Sums(sorted), ZERO);
    } else {
      InsertedSums(s, sorted[1..]);
      assert sorted == [sorted[0]] + sorted[1..];
      SumsAppend([sorted[0]], Sorting.Inserted(NoCheaper, s, sorted[1..]));
      SumsAppend([sorted[0]], sorted[1..]);
      PlusIs(Sums([sorted[0]]), Sums(sorted[1..]), s.sum);
    }
  }

  lemma {:induction false} SortedSums(slices: seq<Slice>)
    ensures Sums(Sorting.Sorted(NoCheaper, slices)) == Sums(slices)
  {
    hide Plus, Sorting.Inserted;
    if slices != [] {
      var front, last := slices[..|slices| - 1], slices[|slices| - 1];
      SortedSums(front);
      InsertedSums(last, Sorting.Sorted(NoCheaper, front));
    }
  }

  /** Sorting gives the same groups, the dearest first, and the same sum. */
  lemma SortedIs(slices: seq<Slice>)
    ensures Falls(Sorted(slices)) && multiset(Sorted(slices)) == multiset(slices) && Sums(Sorted(slices)) == Sums(slices)
    ensures |Sorted(slices)| == |slices|
  {
    hide Sums, Sorting.Sorted;
    CostsAreOrdered();
    Sorting.SortedIs(NoCheaper, slices);
    SortedSums(slices);
  }

  lemma CostsAreOrdered()
    ensures Sorting.Orders(NoCheaper)
  {}

  // ---------------------------------------------------------------------------------------------
  // What a breakdown shows

  predicate Concerns(r: Record, tenant: string, session: Option<string>) {
    r.tenant == tenant && (session.None? || r.session == session)
  }

  ghost function Matching(records: seq<Record>, tenant: string, session: Option<string>): seq<Record> {
    Filter((r: Record) => Concerns(r, tenant, session), records)
  }

  /** What the matching calls cost, how many there are, and what went in and out. */
  ghost function Spent(records: seq<Record>, tenant: string, session: Option<string>): Sum {
    Total(Matching(records, tenant, session))
  }

  ghost function Elsewhere(records: seq<Record>, tenant: string, session: string): seq<Record> {
    Filter((r: Record) => r.tenant == tenant && r.session != Some(session), records)
  }

  ghost function InSessions(records: seq<Record>, tenant: string): seq<Record> {
    Filter((r: Record) => r.tenant == tenant && r.session.Some?, records)
  }

  /** One slice a key, as many as the limit lets through, each the sum of its own records, the dearest first. */
  ghost predicate Breaks(slices: seq<Slice>, records: seq<Record>, tenant: string, dim: Dimension, limit: nat) {
    var keys := Keys(records, tenant, dim);
    && |slices| == Min(limit, |keys|) && KeysDiffer(slices) && Falls(slices)
    && (forall i :: 0 <= i < |slices| ==> slices[i].key in keys && slices[i].sum == Total(Mine(records, tenant, dim, slices[i].key)))
    && (forall key, i :: key in keys && !Has(slices, key) && 0 <= i < |slices| ==>
          Total(Mine(records, tenant, dim, key)).cost <= slices[i].sum.cost)
  }

  lemma {:induction false} KeysAreCounted(slices: seq<Slice>, keys: set<string>)
    requires KeysDiffer(slices) && forall key :: Has(slices, key) <==> key in keys
    ensures |slices| == |keys|
  {
    if slices == [] {
      assert keys == {} by {
        forall key ensures key !in keys { assert !Has(slices, key); }
      }
    } else {
      var rest, key := slices[1..], slices[0].key;
      assert Has(slices, key);
      forall any ensures Has(rest, any) <==> any in keys - {key} {
        if j :| 0 <= j < |rest| && rest[j].key == any { assert slices[j + 1].key == any; assert Has(slices, any); }
        if any in keys - {key} {
          assert Has(slices, any);
          var j :| 0 <= j < |slices| && slices[j].key == any;
          assert rest[j - 1].key == any;
        }
      }
      KeysAreCounted(rest, keys - {key});
    }
  }

  /** The first groups, sorted, are what a breakdown shows. */
  lemma FirstSortedBreaks(groups: seq<Slice>, records: seq<Record>, tenant: string, dim: Dimension, limit: nat)
    requires Groups(groups, records, tenant, dim)
    ensures Breaks(Sorted(groups)[..Min(limit, |Sorted(groups)|)], records, tenant, dim, limit)
  {
    hide Sums, Total, Mine, Sorted, Keys, Counted;
    SortedIs(groups);
    KeysAreCounted(groups, Keys(records, tenant, dim));
    var sorted := Sorted(groups);
    var slices := sorted[..Min(limit, |sorted|)];
    SameBagDiffers(groups, sorted);
    forall i | 0 <= i < |sorted|
      ensures sorted[i].key in Keys(records, tenant, dim) && sorted[i].sum == Total(Mine(records, tenant, dim, sorted[i].key))
    {
      assert sorted[i] in multiset(groups);
      var j :| 0 <= j < |groups| && groups[j] == sorted[i];
      assert Has(groups, sorted[i].key);
    }
    forall key, i | key in Keys(records, tenant, dim) && !Has(slices, key) && 0 <= i < |slices|
      ensures Total(Mine(records, tenant, dim, key)).cost <= slices[i].sum.cost
    {
      assert Has(groups, key);
      var k := CutOff(groups, sorted, |slices|, key);
    }
  }

  lemma CutOff(groups: seq<Slice>, sorted: seq<Slice>, n: nat, key: string) returns (k: nat)
    requires multiset(groups) == multiset(sorted) && n <= |sorted| && Has(groups, key) && !Has(sorted[..n], key)
    ensures n <= k < |sorted| && sorted[k].key == key
  {
    var j :| 0 <= j < |groups| && groups[j].key == key;
    assert groups[j] in multiset(sorted);
    k :| 0 <= k < |sorted| && sorted[k] == groups[j];
    forall x | 0 <= x < n ensures sorted[x].key != key {
      assert sorted[x] == sorted[..n][x];
    }
  }

  /** Sorting keeps the keys apart. */
  lemma {:induction false} SameBagDiffers(a: seq<Slice>, b: seq<Slice>)
    requires KeysDiffer(a) && multiset(a) == multiset(b)
    ensures KeysDiffer(b)
  {
    forall i, j | 0 <= i < j < |b| ensures b[i].key != b[j].key {
      assert b[i] in multiset(a) && b[j] in multiset(a);
      var x :| 0 <= x < |a| && a[x] == b[i];
      var y :| 0 <= y < |a| && a[y] == b[j];
      if b[i] == b[j] {
        TwiceIn(b, i, j);
        OnceIn(a, x);
      }
    }
  }

  lemma TwiceIn(s: seq<Slice>, i: nat, j: nat)
    requires i < j < |s| && s[i] == s[j]
    ensures multiset(s)[s[i]] >= 2
  {
    assert s == s[..j] + [s[j]] + s[j + 1..];
    assert s[i] in s[..j];
  }

  lemma OnceIn(s: seq<Slice>, i: nat)
    requires i < |s| && KeysDiffer(s)
    ensures multiset(s)[s[i]] == 1
  {
    assert s == s[..i] + [s[i]] + s[i + 1..];
    assert s[i] !in s[..i] && s[i] !in s[i + 1..];
  }

  /** With room for every group, the slices sum to all the counted records. */
  lemma AllSortedSum(groups: seq<Slice>, records: seq<Record>, tenant: string, dim: Dimension, limit: nat)
    requires Groups(groups, records, tenant, dim) && limit >= |Keys(records, tenant, dim)|
    ensures Sums(Sorted(groups)[..Min(limit, |Sorted(groups)|)]) == Total(Counted(records, tenant, dim))
  {
    hide Sums, Total, Sorted, Counted, Keys;
    SortedIs(groups);
    KeysAreCounted(groups, Keys(records, tenant, dim));
    assert Sorted(groups)[..|groups|] == Sorted(groups);
  }

  /** Every call has a model and a task: with room for every group, the slices by either sum to the whole spend. */
  lemma SlicesAreTheSpend(groups: seq<Slice>, records: seq<Record>, tenant: string, dim: Dimension, limit: nat)
    requires Groups(groups, records, tenant, dim) && limit >= |Keys(records, tenant, dim)| && (dim == ByModel || dim == ByTask)
    ensures Sums(Sorted(groups)[..Min(limit, |Sorted(groups)|)]) == Spent(records, tenant, None)
  {
    hide Sums, Total, Sorted, Groups, Keys;
    AllSortedSum(groups, records, tenant, dim, limit);
    FilterSame((r: Record) => Counts(r, tenant, dim), (r: Record) => Concerns(r, tenant, None), records);
  }

  /** By session, they sum to what was spent in sessions. */
  lemma SessionSlicesAreTheSpendInSessions(groups: seq<Slice>, records: seq<Record>, tenant: string, limit: nat)
    requires Groups(groups, records, tenant, BySession) && limit >= |Keys(records, tenant, BySession)|
    ensures Sums(Sorted(groups)[..Min(limit, |Sorted(groups)|)]) == Total(InSessions(records, tenant))
  {
    hide Sums, Total, Sorted, Groups, Keys;
    AllSortedSum(groups, records, tenant, BySession, limit);
    FilterSame((r: Record) => Counts(r, tenant, BySession), (r: Record) => r.tenant == tenant && r.session.Some?, records);
  }

  /** A tenant's spend is what it spent in a session and what it spent outside of it. */
  lemma {:induction false} SpendSplits(records: seq<Record>, tenant: string, session: string)
    ensures Spent(records, tenant, None) == Plus(Spent(records, tenant, Some(session)), Total(Elsewhere(records, tenant, session)))
  {
    hide Total, Spent, Elsewhere, Plus;
    if records == [] {
      assert Spent([], tenant, None) == Plus(Spent([], tenant, Some(session)), Total(Elsewhere([], tenant, session))) by {
        NothingSplits(tenant, session);
      }
    } else {
      var n := |records| - 1;
      var front := records[..n];
      SpendSplits(front, tenant, session);
      assert records[..n + 1] == records;
      SpentPush(records, tenant, None, n);
      SpentPush(records, tenant, Some(session), n);
      ElsewherePush(records, tenant, session, n);
      PlusEither(Spent(front, tenant, Some(session)), Total(Elsewhere(front, tenant, session)), One(records[n]));
    }
  }

  lemma NothingSplits(tenant: string, session: string)
    ensures Spent([], tenant, None) == Plus(Spent([], tenant, Some(session)), Total(Elsewhere([], tenant, session)))
  {
    hide Total, Matching, Elsewhere, Plus;
    NothingMatches(tenant, None);
    NothingMatches(tenant, Some(session));
    NothingElsewhere(tenant, session);
    NothingTotals([]);
    PlusIs(ZERO, ZERO, ZERO);
  }

  lemma NothingElsewhere(tenant: string, session: string)
    ensures Elsewhere([], tenant, session) == []
  {}

  lemma SpentPush(records: seq<Record>, tenant: string, session: Option<string>, i: nat)
    requires i < |records|
    ensures Spent(records[..i + 1], tenant, session) ==
      if Concerns(records[i], tenant, session) then Plus(Spent(records[..i], tenant, session), One(records[i]))
      else Spent(records[..i], tenant, session)
  {
    hide Total, Matching;
    MatchingPush(records, tenant, session, i);
  }

  lemma PlusEither(a: Sum, b: Sum, more: Sum)
    ensures Plus(Plus(a, b), more) == Plus(Plus(a, more), b) == Plus(a, Plus(b, more))
  {}

  lemma MatchingPush(records: seq<Record>, tenant: string, session: Option<string>, i: nat)
    requires i < |records|
    ensures var before, after := Matching(records[..i], tenant, session), Matching(records[..i + 1], tenant, session);
      if Concerns(records[i], tenant, session) then after == before + [records[i]] && Total(after) == Plus(Total(before), One(records[i]))
      else after == before
  {
    FilterPush((r: Record) => Concerns(r, tenant, session), records, i);
    TotalPush((r: Record) => Concerns(r, tenant, session), records, i);
  }

  lemma ElsewherePush(records: seq<Record>, tenant: string, session: string, i: nat)
    requires i < |records|
    ensures Total(Elsewhere(records[..i + 1], tenant, session)) ==
      if records[i].tenant == tenant && records[i].session != Some(session) then Plus(Total(Elsewhere(records[..i], tenant, session)), One(records[i]))
      else Total(Elsewhere(records[..i], tenant, session))
  {
    TotalPush((r: Record) => r.tenant == tenant && r.session != Some(session), records, i);
  }

  // ---------------------------------------------------------------------------------------------
  // The recorder

  class InMemoryUsageRecorder {
    var records: seq<Record>

    constructor ()
      ensures records == []
    {
      records := [];
    }

    method Add(r: Record)
      modifies this
      ensures records == old(records) + [r]
    {
      records := records + [r];
    }

    method Narrow(tenant: string, session: Option<string>) returns (matching: seq<Record>)
      ensures matching == Matching(records, tenant, session)
      ensures |matching| == |set i | 0 <= i < |records| && Concerns(records[i], tenant, session)|
    {
      hide Total, Matching, Concerns;
      matching := [];
      ghost var places: set<int> := {};
      assert Matching([], tenant, session) == [] by { NothingMatches(tenant, session); }
      for i := 0 to |records|
        invariant matching == Matching(records[..i], tenant, session)
        invariant places == Places(records, tenant, session, i) && |places| == |matching|
      {
        PlacesPush(records, tenant, session, i);
        MatchingPush(records, tenant, session, i);
        if Concerns(records[i], tenant, session) {
          matching := matching + [records[i]];
          places := places + {i};
        }
      }
      assert records[..|records|] == records;
    }

    /** Four sums over the matching records: what they cost, how many there are, and what went in and out. */
    method Spend(tenant: string, session: Option<string>) returns (cost: real, calls: nat, input: nat, output: nat)
      ensures var spent := Spent(records, tenant, session);
        cost == spent.cost && calls == spent.calls && input == spent.input && output == spent.output
      ensures calls == |set i | 0 <= i < |records| && Concerns(records[i], tenant, session)|
    {
      hide Total, Matching;
      var matching := Narrow(tenant, session);
      calls := |matching|;
      cost, input, output := 0.0, 0, 0;
      assert Total(matching[..0]) == ZERO by { NothingTotals(matching[..0]); }
      for i := 0 to |matching|
        invariant var sum := Total(matching[..i]);
          cost == sum.cost && input == sum.input && output == sum.output && sum.calls == i
      {
        TotalOneMore(matching, i);
        cost := cost + matching[i].cost;
        input := input + matching[i].input;
        output := output + matching[i].output;
      }
      assert matching[..|matching|] == matching;
    }

    /**
     * The dearest groups of a dimension. While none is cut off, they sum to the records they were made of: all of
     * a tenant's by model or by task, those in a session by session. There is no day to group by.
     */
    method Breakdown(tenant: string, dim: Dimension, limit: nat) returns (slices: seq<Slice>)
      ensures Breaks(slices, records, tenant, dim, limit)
      ensures dim == ByDay ==> slices == []
      ensures limit >= |Keys(records, tenant, dim)| && (dim == ByModel || dim == ByTask) ==> Sums(slices) == Spent(records, tenant, None)
      ensures limit >= |Keys(records, tenant, dim)| && dim == BySession ==>
        Sums(slices) == Total(InSessions(records, tenant))
    {
      hide Sums, Total, Groups, Entered, Sorted, Falls, Mine, Counted, Spent, KeysDiffer, Has;
      var groups: seq<Slice> := [];
      assert Groups([], records[..0], tenant, dim) by { NoGroups(tenant, dim); }
      for i := 0 to |records|
        invariant Groups(groups, records[..i], tenant, dim)
      {
        SkippedGroups(groups, records, tenant, dim, i);
        if Counts(records[i], tenant, dim) {
          EnteredGroups(groups, records, tenant, dim, i);
          groups := Entered(groups, KeyOf(records[i], dim).value, records[i]);
        }
      }
      assert records[..|records|] == records;
      slices := Sorted(groups)[..Min(limit, |Sorted(groups)|)];
      FirstSortedBreaks(groups, records, tenant, dim, limit);
      if dim == ByDay {
        NoDays(records, tenant);
      } else if limit >= |Keys(records, tenant, dim)| {
        if dim == BySession {
          SessionSlicesAreTheSpendInSessions(groups, records, tenant, limit);
        } else {
          SlicesAreTheSpend(groups, records, tenant, dim, limit);
        }
      }
    }
  }

  // ---------------------------------------------------------------------------------------------
  // A breakdown read off the records

  function Added(values: seq<real>): real {
    if values == [] then 0.0 else Added(values[..|values| - 1]) + values[|values| - 1]
  }

  function AddedUp(values: seq<nat>): nat {
    if values == [] then 0 else AddedUp(values[..|values| - 1]) + values[|values| - 1]
  }

  /** A total adds up each of the figures of the records, and counts them. */
  ghost predicate AddsUp(sum: Sum, records: seq<Record>) {
    var n := |records|;
    && sum.calls == n
    && sum.cost == Added(seq(n, i requires 0 <= i < n => records[i].cost))
    && sum.input == AddedUp(seq(n, i requires 0 <= i < n => records[i].input))
    && sum.output == AddedUp(seq(n, i requires 0 <= i < n => records[i].output))
    && sum.cached == AddedUp(seq(n, i requires 0 <= i < n => records[i].cached))
  }

  lemma AddedPush(values: seq<real>, more: seq<real>, last: real)
    requires values == more + [last]
    ensures Added(values) == Added(more) + last
  {
    assert values[..|values| - 1] == more;
  }

  lemma AddedUpPush(values: seq<nat>, more: seq<nat>, last: nat)
    requires values == more + [last]
    ensures AddedUp(values) == AddedUp(more) + last
  {
    assert values[..|values| - 1] == more;
  }

  lemma {:induction false} TotalAddsUp(records: seq<Record>)
    ensures AddsUp(Total(records), records)
  {
    hide Added, AddedUp;
    if records == [] {
      NothingAdded();
    } else {
      var n := |records| - 1;
      var front, last := records[..n], records[n];
      TotalAddsUp(front);
      AddedPush(seq(n + 1, i requires 0 <= i < n + 1 => records[i].cost), seq(n, i requires 0 <= i < n => front[i].cost), last.cost);
      AddedUpPush(seq(n + 1, i requires 0 <= i < n + 1 => records[i].input), seq(n, i requires 0 <= i < n => front[i].input), last.input);
      AddedUpPush(seq(n + 1, i requires 0 <= i < n + 1 => records[i].output), seq(n, i requires 0 <= i < n => front[i].output), last.output);
      AddedUpPush(seq(n + 1, i requires 0 <= i < n + 1 => records[i].cached), seq(n, i requires 0 <= i < n => front[i].cached), last.cached);
    }
  }

  lemma NothingAdded()
    ensures AddsUp(ZERO, [])
  {}

  /** By model the key is the model of the record, by task its task, by session its session; no record has a day. */
  predicate InSlice(r: Record, tenant: string, dim: Dimension, key: string) {
    && r.tenant == tenant
    && (dim == ByModel ==> r.model == key)
    && (dim == ByTask ==> r.task == key)
    && (dim == BySession ==> r.session == Some(key))
    && dim != ByDay
  }

  ghost function Share(records: seq<Record>, tenant: string, dim: Dimension, key: string): seq<Record> {
    Filter((r: Record) => InSlice(r, tenant, dim, key), records)
  }

  lemma ShareIsMine(records: seq<Record>, tenant: string, dim: Dimension, key: string)
    ensures Share(records, tenant, dim, key) == Mine(records, tenant, dim, key)
    ensures Share(records, tenant, dim, key) != [] <==> key in Keys(records, tenant, dim)
  {
    FilterSame((r: Record) => InSlice(r, tenant, dim, key), (r: Record) => r.tenant == tenant && KeyOf(r, dim) == Some(key), records);
    var mine := Mine(records, tenant, dim, key);
    if mine != [] {
      assert mine[0] in mine;
    }
    if key in Keys(records, tenant, dim) {
      var r :| r in records && Counts(r, tenant, dim) && KeyOf(r, dim).value == key;
      assert r in mine;
    }
  }

  /** Each slice adds up the records that name its key, of which there are some. */
  lemma SlicesAre(slices: seq<Slice>, records: seq<Record>, tenant: string, dim: Dimension, limit: nat, i: nat)
    requires Breaks(slices, records, tenant, dim, limit) && i < |slices|
    ensures AddsUp(slices[i].sum, Share(records, tenant, dim, slices[i].key)) && Share(records, tenant, dim, slices[i].key) != []
  {
    hide Total, Mine, Share, Keys, Falls, Added, AddedUp, KeysDiffer, Has;
    ShareIsMine(records, tenant, dim, slices[i].key);
    TotalAddsUp(Mine(records, tenant, dim, slices[i].key));
  }

  /**
   * A key that some record names has a slice, unless the limit is used up and every slice is at least as dear as
   * what the records of that key cost.
   */
  lemma LeftOutAtTheLimit(slices: seq<Slice>, records: seq<Record>, tenant: string, dim: Dimension, limit: nat, key: string, cost: Sum)
    requires Breaks(slices, records, tenant, dim, limit)
    requires Share(records, tenant, dim, key) != [] && AddsUp(cost, Share(records, tenant, dim, key))
    ensures Has(slices, key) || (|slices| == limit && forall i :: 0 <= i < |slices| ==> cost.cost <= slices[i].sum.cost)
  {
    hide Total, Mine, Share, Keys, Falls, Added, AddedUp, KeysDiffer, Has;
    ShareIsMine(records, tenant, dim, key);
    TotalAddsUp(Mine(records, tenant, dim, key));
    if !Has(slices, key) && |slices| < limit {
      AllHaveSlices(slices, Keys(records, tenant, dim), key);
    }
  }

  lemma AllHaveSlices(slices: seq<Slice>, keys: set<string>, key: string)
    requires KeysDiffer(slices) && |slices| == |keys| && key in keys
    requires forall i :: 0 <= i < |slices| ==> slices[i].key in keys
    ensures Has(slices, key)
  {
    hide KeysDiffer;
    var shown := set i | 0 <= i < |slices| :: slices[i].key;
    assert forall any :: Has(slices, any) <==> any in shown;
    KeysAreCounted(slices, shown);
    assert |keys - shown| == |keys| - |shown|;
  }

  lemma NoDays(records: seq<Record>, tenant: string)
    ensures Keys(records, tenant, ByDay) == {}
  {}

  /** Where the matching records stand. */
  ghost function Places(records: seq<Record>, tenant: string, session: Option<string>, n: nat): set<int>
    requires n <= |records|
  {
    set i | 0 <= i < n && Concerns(records[i], tenant, session)
  }

  lemma PlacesPush(records: seq<Record>, tenant: string, session: Option<string>, i: nat)
    requires i < |records|
    ensures i !in Places(records, tenant, session, i)
    ensures Places(records, tenant, session, i + 1) ==
      Places(records, tenant, session, i) + if Concerns(records[i], tenant, session) then {i} else {}
  {}

  lemma NothingMatches(tenant: string, session: Option<string>)
    ensures Matching([], tenant, session) == []
  {}

  lemma NothingTotals(records: seq<Record>)
    requires records == []
    ensures Total(records) == ZERO
  {}

  lemma TotalOneMore(records: seq<Record>, i: nat)
    requires i < |records|
    ensures Total(records[..i + 1]) == Plus(Total(records[..i]), One(records[i]))
  {
    assert records[..i + 1][..i] == records[..i];
  }

  lemma NoGroups(tenant: string, dim: Dimension)
    ensures Groups([], [], tenant, dim)
  {}

  lemma SkippedGroups(slices: seq<Slice>, records: seq<Record>, tenant: string, dim: Dimension, i: nat)
    requires i < |records| && Groups(slices, records[..i], tenant, dim)
    ensures !Counts(records[i], tenant, dim) ==> Groups(slices, records[..i + 1], tenant, dim)
  {
    hide Sums, Total, Mine, Counted, Keys;
    if !Counts(records[i], tenant, dim) {
      CountedPush(records, tenant, dim, i);
      assert records[..i + 1] == records[..i] + [records[i]];
      KeysPush(records[..i], records[i], tenant, dim);
      forall j | 0 <= j < |slices| ensures slices[j].sum == Total(Mine(records[..i + 1], tenant, dim, slices[j].key)) {
        MinePush(records, tenant, dim, i, slices[j].key);
      }
    }
  }

  // ---------------------------------------------------------------------------------------------
  // The price of a call

  datatype Price = Price(input: real, output: real, cached: real)

  /** Per million tokens. */
  function Exact(input: nat, output: nat, cached: nat, price: Price): real {
    (input as real * price.input + output as real * price.output + cached as real * price.cached) / 1000000.0
  }

  /** `Math.round`: halves go up. */
  function Round(x: real): int { (x + 0.5).Floor }

  function ComputeCostUsd(input: nat, output: nat, cached: nat, price: Price): real {
    Round(Exact(input, output, cached, price) * 100000000.0) as real / 100000000.0
  }

  /** A cost is off by at most half of its last digit, and never falls when a call takes more tokens. */
  lemma CostIsCloseAndMonotone(input: nat, output: nat, cached: nat, input': nat, output': nat, cached': nat, price: Price)
    requires price.input >= 0.0 && price.output >= 0.0 && price.cached >= 0.0
    requires input <= input' && output <= output' && cached <= cached'
    ensures var million := input as real * price.input + output as real * price.output + cached as real * price.cached;
      -0.000000005 <= ComputeCostUsd(input, output, cached, price) - million / 1000000.0 <= 0.000000005
    ensures ComputeCostUsd(input, output, cached, price) <= ComputeCostUsd(input', output', cached', price)
  {
    hide Exact, Round;
    ExactIs(input, output, cached, price);
    ExactGrows(input, output, cached, input', output', cached', price);
    RoundIs(Exact(input, output, cached, price), Exact(input', output', cached', price));
  }

  lemma ExactIs(input: nat, output: nat, cached: nat, price: Price)
    ensures Exact(input, output, cached, price) ==
      (input as real * price.input + output as real * price.output + cached as real * price.cached) / 1000000.0
  {}

  lemma ExactGrows(input: nat, output: nat, cached: nat, input': nat, output': nat, cached': nat, price: Price)
    requires price.input >= 0.0 && price.output >= 0.0 && price.cached >= 0.0
    requires input <= input' && output <= output' && cached <= cached'
    ensures Exact(input, output, cached, price) <= Exact(input', output', cached', price)
  {
    Grows(input, input', price.input);
    Grows(output, output', price.output);
    Grows(cached, cached', price.cached);
    Shares(input as real * price.input, output as real * price.output, cached as real * price.cached,
      input' as real * price.input, output' as real * price.output, cached' as real * price.cached);
  }

  lemma Shares(a: real, b: real, c: real, a': real, b': real, c': real)
    requires a <= a' && b <= b' && c <= c'
    ensures (a + b + c) / 1000000.0 <= (a' + b' + c') / 1000000.0
  {}

  lemma RoundIs(a: real, b: real)
    requires a <= b
    ensures var r := Round(a * 100000000.0) as real / 100000000.0; -0.000000005 <= r - a <= 0.000000005
    ensures Round(a * 100000000.0) as real / 100000000.0 <= Round(b * 100000000.0) as real / 100000000.0
  {
    hide Round;
    var x, y := a * 100000000.0, b * 100000000.0;
    RoundIsNear(x, y);
    Scaled(Round(x) as real - x, -0.5, 0.5);
    Scaled(Round(y) as real - Round(x) as real, 0.0, Round(y) as real - Round(x) as real);
    assert x / 100000000.0 == a;
  }

  lemma RoundIsNear(x: real, y: real)
    requires x <= y
    ensures -0.5 <= Round(x) as real - x <= 0.5 && Round(x) <= Round(y)
  {}

  lemma Scaled(d: real, low: real, high: real)
    requires low <= d <= high
    ensures low / 100000000.0 <= d / 100000000.0 <= high / 100000000.0
  {}

  lemma Grows(n: nat, m: nat, price: real)
    requires n <= m && price >= 0.0
    ensures n as real * price <= m as real * price
  {
    assert (m - n) as real * price >= 0.0;
    assert m as real * price == n as real * price + (m - n) as real * price;
  }
}
