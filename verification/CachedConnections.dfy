/**
 * The policy over the resource cache, after `src/connections/cached-connections.ts`, and the paginated
 * listing it polls, after `src/connections/memory-connector.ts`.
 */
module CachedConnections {
  import opened Basics
  import opened Text
  import opened FlatKeys
  import opened ResourceCache
  import Sorting

  datatype Page = Page(resources: seq<Resource>, nextCursor: Option<string>)

  /** What a source answers to its n-th call: a page for a parent and a cursor, or None when it raises. */
  type Source = (nat, Option<string>, Option<string>) -> Option<Page>

  /** An empty cursor ends a listing like a missing one. */
  predicate More(cursor: Option<string>) { cursor.Some? && cursor.value != "" }

  datatype Polled = Raised | Collected(resources: seq<Resource>, truncated: bool)

  /** The loop of a refresh: page by page, up to the page cap. */
  function Poll(source: Source, calls: nat, parent: Option<string>, cursor: Option<string>, pages: nat, maxPages: int): Polled
    decreases Max(maxPages - pages, 0)
  {
    match source(calls, parent, if More(cursor) then cursor else None)
    case None => Raised
    case Some(page) =>
      if !More(page.nextCursor) then Collected(page.resources, false)
      else if pages + 1 >= maxPages then Collected(page.resources, true)
      else
        match Poll(source, calls + 1, parent, page.nextCursor, pages + 1, maxPages)
        case Raised => Raised
        case Collected(rest, truncated) => Collected(page.resources + rest, truncated)
  }

  // ---------------------------------------------------------------------------------------------
  // What a poll asks for, page by page

  /** The cursor the n-th page is asked with: none, then the one the page before gave. */
  function CursorFor(pages: seq<Page>, n: nat): Option<string>
    requires n <= |pages|
  {
    if n == 0 then None else pages[n - 1].nextCursor
  }

  /** Pages a source answered one after another, each asked with the cursor of the one before. */
  ghost predicate IsChain(source: Source, calls: nat, parent: Option<string>, pages: seq<Page>) {
    forall n :: 0 <= n < |pages| ==> Follows(source, calls, parent, pages, n)
  }

  ghost predicate Follows(source: Source, calls: nat, parent: Option<string>, pages: seq<Page>, n: nat)
    requires n < |pages|
  {
    source(calls + n, parent, CursorFor(pages, n)) == Some(pages[n]) && (n > 0 ==> More(pages[n - 1].nextCursor))
  }

  /** All the pages there are, or as many as the cap allows. */
  ghost predicate Ends(pages: seq<Page>, cap: nat) {
    pages != [] && |pages| <= cap && (More(pages[|pages| - 1].nextCursor) ==> |pages| == cap)
  }

  /** There is more to ask for, and the source raises when it is asked. */
  ghost predicate Breaks(source: Source, calls: nat, parent: Option<string>, pages: seq<Page>, cap: nat) {
    && |pages| < cap && (pages != [] ==> More(pages[|pages| - 1].nextCursor))
    && source(calls + |pages|, parent, CursorFor(pages, |pages|)) == None
  }

  function ResourcesOf(pages: seq<Page>): seq<Resource> {
    if pages == [] then [] else pages[0].resources + ResourcesOf(pages[1..])
  }

  /** A poll that goes through, and the pages it goes through. */
  ghost predicate GoesThrough(source: Source, calls: nat, parent: Option<string>, pages: seq<Page>, cap: nat) {
    IsChain(source, calls, parent, pages) && Ends(pages, cap)
  }

  /** A poll that meets an error, and the pages before it. */
  ghost predicate MeetsAnError(source: Source, calls: nat, parent: Option<string>, pages: seq<Page>, cap: nat) {
    IsChain(source, calls, parent, pages) && Breaks(source, calls, parent, pages, cap)
  }

  /** Everything on the pages, cut short if there was more. */
  function Whole(pages: seq<Page>): Polled
    requires pages != []
  {
    Collected(ResourcesOf(pages), More(pages[|pages| - 1].nextCursor))
  }

  lemma {:induction false} EndsFrom(source: Source, calls: nat, parent: Option<string>, pages: seq<Page>, maxPages: int, n: nat)
    requires IsChain(source, calls, parent, pages) && Ends(pages, Max(1, maxPages)) && n < |pages|
    ensures Poll(source, calls + n, parent, CursorFor(pages, n), n, maxPages) ==
      Collected(ResourcesOf(pages[n..]), More(pages[|pages| - 1].nextCursor))
    decreases |pages| - n
  {
    hide More;
    assert Follows(source, calls, parent, pages, n);
    NoCursor();
    assert pages[n..][1..] == pages[n + 1..];
    if n + 1 < |pages| {
      assert Follows(source, calls, parent, pages, n + 1);
      EndsFrom(source, calls, parent, pages, maxPages, n + 1);
    } else {
      assert pages[n + 1..] == [];
      assert pages[n].resources + [] == pages[n].resources;
    }
  }

  lemma {:induction false} BreaksFrom(source: Source, calls: nat, parent: Option<string>, pages: seq<Page>, maxPages: int, n: nat)
    requires IsChain(source, calls, parent, pages) && Breaks(source, calls, parent, pages, Max(1, maxPages)) && n <= |pages|
    ensures Poll(source, calls + n, parent, CursorFor(pages, n), n, maxPages) == Raised
    decreases |pages| - n
  {
    hide More;
    NoCursor();
    if n > 0 && n < |pages| { assert Follows(source, calls, parent, pages, n); }
    if n < |pages| {
      assert Follows(source, calls, parent, pages, n);
      if n + 1 < |pages| { assert Follows(source, calls, parent, pages, n + 1); }
      BreaksFrom(source, calls, parent, pages, maxPages, n + 1);
    }
  }

  lemma NoCursor()
    ensures !More(None)
  {}

  /** The pages a poll goes through, behind those it went through already. */
  lemma {:induction false} ChainFrom(source: Source, calls: nat, parent: Option<string>, before: seq<Page>, cap: nat) returns (pages: seq<Page>)
    requires IsChain(source, calls, parent, before) && |before| < cap && (before != [] ==> More(before[|before| - 1].nextCursor))
    ensures IsChain(source, calls, parent, pages) && (Ends(pages, cap) || Breaks(source, calls, parent, pages, cap))
    decreases cap - |before|
  {
    hide More;
    pages := before;
    var answer := source(calls + |before|, parent, CursorFor(before, |before|));
    if answer.Some? {
      pages := before + [answer.value];
      forall n | 0 <= n < |pages| ensures Follows(source, calls, parent, pages, n) {
        if n < |before| { assert Follows(source, calls, parent, before, n); }
      }
      if More(answer.value.nextCursor) && |pages| < cap {
        pages := ChainFrom(source, calls, parent, pages, cap);
      }
    }
  }

  /**
   * What a poll comes to, for any source: it raises exactly when a page it asks for does, and otherwise gives the
   * resources of all the pages in order, cut short exactly when the last of as many as the cap allows says there is more.
   */
  lemma PollIs(source: Source, calls: nat, parent: Option<string>, maxPages: int)
    ensures exists pages :: GoesThrough(source, calls, parent, pages, Max(1, maxPages)) || MeetsAnError(source, calls, parent, pages, Max(1, maxPages))
    ensures forall pages :: MeetsAnError(source, calls, parent, pages, Max(1, maxPages)) ==>
      Poll(source, calls, parent, None, 0, maxPages) == Raised
    ensures forall pages :: GoesThrough(source, calls, parent, pages, Max(1, maxPages)) ==>
      pages != [] && Poll(source, calls, parent, None, 0, maxPages) == Whole(pages)
  {
    hide Poll, More, Ends, Breaks, IsChain;
    var all := ChainFrom(source, calls, parent, [], Max(1, maxPages)) by { NoChain(source, calls, parent); }
    assert GoesThrough(source, calls, parent, all, Max(1, maxPages)) || MeetsAnError(source, calls, parent, all, Max(1, maxPages));
    forall pages | MeetsAnError(source, calls, parent, pages, Max(1, maxPages)) ensures Poll(source, calls, parent, None, 0, maxPages) == Raised {
      BreaksFrom(source, calls, parent, pages, maxPages, 0);
    }
    forall pages | GoesThrough(source, calls, parent, pages, Max(1, maxPages))
      ensures pages != [] && Poll(source, calls, parent, None, 0, maxPages) == Whole(pages)
    {
      SomePage(pages, Max(1, maxPages));
      EndsFrom(source, calls, parent, pages, maxPages, 0);
      assert pages[0..] == pages;
    }
  }

  lemma NoChain(source: Source, calls: nat, parent: Option<string>)
    ensures IsChain(source, calls, parent, [])
  {}

  lemma SomePage(pages: seq<Page>, cap: nat)
    requires Ends(pages, cap)
    ensures pages != []
  {}

  /** Upsert what was listed, then drop what was not, unless the listing was cut short. */
  function Reconciled(c: Contents, scope: Scope, polled: Polled, within: Within, now: int): Contents
    requires polled.Collected?
  {
    var warmed := PutMany(c, scope, polled.resources, now);
    if polled.truncated then warmed else warmed - Doomed(warmed, scope, Ids(polled.resources), within)
  }

  // ---------------------------------------------------------------------------------------------
  // What a refresh leaves

  predicate Listed(polled: Polled, scope: Scope, p: (Scope, string))
    requires polled.Collected?
  {
    p.0 == scope && p.1 in Ids(polled.resources)
  }

  /**
   * A listed resource is there with its last snapshot; any other is as it was, except that a complete
   * listing removes those of the scope that lie under the parent it was for.
   */
  lemma ReconciledAt(c: Contents, scope: Scope, polled: Polled, within: Within, now: int, p: (Scope, string))
    requires polled.Collected?
    ensures var after := Reconciled(c, scope, polled, within, now);
      if Listed(polled, scope, p) then
        LastOf(polled.resources, p.1).Some? && p in after && after[p] == Cached(LastOf(polled.resources, p.1).value, now)
      else
        && (p in after <==> p in c && (polled.truncated || p.0 != scope || !InParent(within, c[p].resource)))
        && (p in after ==> after[p] == c[p])
  {
    PutManyAt(c, scope, polled.resources, now, p);
    LastOfIs(polled.resources, p.1);
  }

  /** A complete refresh of a whole connection leaves exactly what was listed, and counts exactly what went. */
  lemma WholeRefreshIsExact(c: Contents, scope: Scope, polled: Polled, now: int)
    requires polled.Collected? && !polled.truncated
    ensures var after := Reconciled(c, scope, polled, None, now);
      forall id :: (scope, id) in after <==> id in Ids(polled.resources)
    ensures Doomed(PutMany(c, scope, polled.resources, now), scope, Ids(polled.resources), None) ==
      set p | p in c && p.0 == scope && p.1 !in Ids(polled.resources)
  {
    var warmed := PutMany(c, scope, polled.resources, now);
    forall id ensures (scope, id) in Reconciled(c, scope, polled, None, now) <==> id in Ids(polled.resources) {
      ReconciledAt(c, scope, polled, None, now, (scope, id));
    }
    forall p: (Scope, string) ensures p in Doomed(warmed, scope, Ids(polled.resources), None) <==> p in c && p.0 == scope && p.1 !in Ids(polled.resources) {
      PutManyAt(c, scope, polled.resources, now, p);
      LastOfIs(polled.resources, p.1);
    }
  }

  /** A refresh that was cut short removes nothing, and no refresh touches another connection. */
  lemma RefreshKeepsTheRest(c: Contents, scope: Scope, polled: Polled, within: Within, now: int, p: (Scope, string))
    requires polled.Collected? && p in c && (polled.truncated || p.0 != scope)
    ensures var after := Reconciled(c, scope, polled, within, now); p in after && (p.0 != scope ==> after[p] == c[p])
  {
    ReconciledAt(c, scope, polled, within, now, p);
  }

  // ---------------------------------------------------------------------------------------------
  // The paginated listing

  predicate IsNumeral(s: string) { forall i :: 0 <= i < |s| ==> IsDigit(s[i]) }

  /** One page of a listing; a cursor is the position to go on from. */
  function Paginate(all: seq<Resource>, cursor: Option<string>, limit: nat): Page
    requires More(cursor) ==> IsNumeral(cursor.value)
  {
    var start := if More(cursor) then Number(cursor.value) else 0;
    var next := start + limit;
    Page(all[Min(start, |all|)..Min(next, |all|)], if next < |all| then Some(Decimal(next)) else None)
  }

  const DEFAULT_LIMIT: nat := 50

  /** A connection whose listings stay as they are while it is polled. */
  ghost predicate Serves(source: Source, listing: Option<string> -> seq<Resource>) {
    forall n: nat, parent: Option<string>, cursor: Option<string> :: (More(cursor) ==> IsNumeral(cursor.value)) ==>
      source(n, parent, cursor) == Some(Paginate(listing(parent), cursor, DEFAULT_LIMIT))
  }

  function Times(k: nat): nat { k * DEFAULT_LIMIT }

  lemma {:induction false} PollFrom(source: Source, listing: Option<string> -> seq<Resource>, calls: nat, parent: Option<string>,
                                    start: nat, cursor: Option<string>, pages: nat, maxPages: int)
    requires Serves(source, listing)
    requires cursor == (if start == 0 then None else Some(Decimal(start))) && start <= |listing(parent)|
    ensures var all, k := listing(parent), Max(1, maxPages - pages);
      Poll(source, calls, parent, cursor, pages, maxPages) ==
        Collected(all[start..Min(|all|, start + Times(k))], |all| > start + Times(k))
    decreases Max(maxPages - pages, 0)
  {
    hide Paginate, Number, Decimal, Times;
    var all, k := listing(parent), Max(1, maxPages - pages);
    PageAt(all, start, cursor);
    var next := start + DEFAULT_LIMIT;
    assert source(calls, parent, cursor) == Some(Paginate(all, cursor, DEFAULT_LIMIT));
    TimesStep(k);
    if next < |all| && pages + 1 < maxPages {
      assert k - 1 == Max(1, maxPages - (pages + 1));
      PollFrom(source, listing, calls + 1, parent, next, Some(Decimal(next)), pages + 1, maxPages);
      Slices(all, start, next, Min(|all|, next + Times(k - 1)));
    }
  }

  lemma TimesStep(k: nat)
    requires k >= 1
    ensures Times(k) == Times(k - 1) + DEFAULT_LIMIT && Times(0) == 0
  {}

  lemma Slices<T>(s: seq<T>, a: nat, b: nat, c: nat)
    requires a <= b <= c <= |s|
    ensures s[a..b] + s[b..c] == s[a..c]
  {}

  lemma PageAt(all: seq<Resource>, start: nat, cursor: Option<string>)
    requires cursor == (if start == 0 then None else Some(Decimal(start))) && start <= |all|
    ensures More(cursor) ==> IsNumeral(cursor.value)
    ensures var page, next := Paginate(all, cursor, DEFAULT_LIMIT), start + DEFAULT_LIMIT;
      && page.resources == all[start..Min(next, |all|)]
      && page.nextCursor == (if next < |all| then Some(Decimal(next)) else None)
      && (next < |all| ==> More(page.nextCursor))
    ensures (if More(cursor) then cursor else None) == cursor
  {
    hide Number, Decimal;
    NumberOfDecimal(start);
  }

  function PageCount(n: nat): nat { if n == 0 then 1 else (n + DEFAULT_LIMIT - 1) / DEFAULT_LIMIT }

  /** Polling collects the listing once, in order, and cuts it short exactly when it has more pages than the cap allows. */
  lemma PollIsTheListing(source: Source, listing: Option<string> -> seq<Resource>, calls: nat, parent: Option<string>, maxPages: int)
    requires Serves(source, listing)
    ensures var all, cap := listing(parent), Max(1, maxPages);
      var polled := Poll(source, calls, parent, None, 0, maxPages);
      && polled.Collected?
      && (polled.truncated <==> PageCount(|all|) > cap)
      && polled.resources == (if PageCount(|all|) > cap then all[..Times(cap)] else all)
  {
    PollFrom(source, listing, calls, parent, 0, None, 0, maxPages);
    var all, cap := listing(parent), Max(1, maxPages);
    if all != [] {
      PagesFit(|all|, cap);
    }
    assert PageCount(|all|) > cap <==> |all| > Times(cap);
  }

  lemma PagesFit(n: nat, cap: nat)
    requires n >= 1 && cap >= 1
    ensures PageCount(n) > cap <==> n > Times(cap)
  {
    var q := (n + 49) / 50;
    assert n + 49 == 50 * q + (n + 49) % 50;
  }

  function ResourceOrder(upTo: (string, string) -> bool): (Resource, Resource) -> bool {
    (a: Resource, b: Resource) => upTo(a.id, b.id)
  }

  function Under(held: seq<Resource>, parent: Option<string>): seq<Resource> {
    Filter((r: Resource) => parent.None? || r.parentId == parent, held)
  }

  /** How the memory connector lists what it holds of a connection: kept to a parent if one is named, in the order of ids. */
  function MemoryListing(upTo: (string, string) -> bool, held: seq<Resource>): Option<string> -> seq<Resource> {
    (parent: Option<string>) => Sorting.Sorted(ResourceOrder(upTo), Under(held, parent))
  }

  /**
   * Polling the memory connector collects the resources under the parent, each once and in the order of their ids;
   * with more pages of them than the cap allows, the first of that order.
   */
  lemma MemoryPollIsInOrder(source: Source, upTo: (string, string) -> bool, held: seq<Resource>, calls: nat, parent: Option<string>, maxPages: int)
    returns (rest: seq<Resource>)
    requires Serves(source, MemoryListing(upTo, held))
    ensures var cap, polled := Max(1, maxPages), Poll(source, calls, parent, None, 0, maxPages);
      && polled.Collected?
      && (polled.truncated <==> PageCount(|Under(held, parent)|) > cap)
      && (polled.truncated ==> |polled.resources| == Times(cap)) && (!polled.truncated ==> rest == [])
      && multiset(polled.resources + rest) == multiset(Under(held, parent))
      && (Sorting.Orders(ResourceOrder(upTo)) ==> Sorting.Rises(ResourceOrder(upTo), polled.resources + rest))
  {
    hide Poll, Sorting.Sorted, Sorting.Orders, Sorting.Rises, ResourceOrder, Under, Serves;
    var listing := MemoryListing(upTo, held);
    PollIsTheListing(source, listing, calls, parent, maxPages);
    Sorting.SortedIs(ResourceOrder(upTo), Under(held, parent));
    var polled := Poll(source, calls, parent, None, 0, maxPages);
    rest := listing(parent)[|polled.resources|..];
    assert polled.resources + rest == listing(parent);
    if polled.truncated { CapFits(|listing(parent)|, Max(1, maxPages)); }
  }

  lemma CapFits(n: nat, cap: nat)
    requires cap >= 1 && PageCount(n) > cap
    ensures n > Times(cap)
  {
    if n >= 1 { PagesFit(n, cap); }
  }

  /** A refresh of a whole connection within the page cap makes the scope a mirror of the listing. */
  lemma RefreshMirrorsTheListing(c: Contents, scope: Scope, source: Source, listing: Option<string> -> seq<Resource>, calls: nat, maxPages: int, now: int)
    requires Serves(source, listing) && PageCount(|listing(None)|) <= Max(1, maxPages)
    requires forall r, r' :: r in listing(None) && r' in listing(None) && r.id == r'.id ==> r == r'
    ensures var polled := Poll(source, calls, None, None, 0, maxPages);
      && polled.Collected?
      && var after := Reconciled(c, scope, polled, None, now);
         && (forall id :: (scope, id) in after ==> id in Ids(listing(None)))
         && (forall r :: r in listing(None) ==> (scope, r.id) in after && after[(scope, r.id)] == Cached(r, now))
  {
    hide Poll, Reconciled, LastOf;
    PollIsTheListing(source, listing, calls, None, maxPages);
    var polled := Poll(source, calls, None, None, 0, maxPages);
    WholeRefreshIsExact(c, scope, polled, now);
    var after := Reconciled(c, scope, polled, None, now);
    forall r | r in listing(None) ensures (scope, r.id) in after && after[(scope, r.id)] == Cached(r, now) {
      ReconciledAt(c, scope, polled, None, now, (scope, r.id));
      LastOfIs(polled.resources, r.id);
    }
  }

  // ---------------------------------------------------------------------------------------------
  // The policy

  datatype Summary = Summary(fetched: nat, pruned: nat, truncated: bool)

  /** The parent a listing is asked for: none for the top level, whose rows alone are then pruned. */
  function AskedFor(parent: Within): Option<string> { if parent.Some? then parent.value else None }

  class CachedConnections {
    const cache: InMemoryResourceCacheStore
    const source: Scope -> Source
    const single: (Scope, nat, string) -> Option<Resource>
    const ttlMs: int
    const maxRefreshPages: int
    var calls: nat
    /** Every resource a source has handed out, with the connection it came from. */
    ghost var given: set<(Scope, Resource)>

    ghost predicate Valid()
      reads this, cache
    {
      && cache.Valid()
      && forall p :: p in cache.contents ==> (p.0, cache.contents[p].resource) in given
    }

    constructor (source: Scope -> Source, single: (Scope, nat, string) -> Option<Resource>, upTo: (string, string) -> bool,
                 ttlMs: int, maxRefreshPages: int)
      ensures Valid() && cache.contents == map[] && fresh(cache)
    {
      this.source, this.single, this.ttlMs, this.maxRefreshPages := source, single, ttlMs, maxRefreshPages;
      calls, given := 0, {};
      cache := new InMemoryResourceCacheStore(upTo);
    }

    /** A fresh snapshot, or what the source says now; a stale snapshot when the source fails. */
    method Read(scope: Scope, id: string, now: int) returns (r: Option<Resource>)
      requires Valid()
      modifies this`calls, this`given, cache
      ensures Valid()
      ensures var c, answer := old(cache.contents), single(scope, old(calls), id);
        if (scope, id) in c && now - c[(scope, id)].fetchedAt < ttlMs then
          r == Some(c[(scope, id)].resource) && cache.contents == c && calls == old(calls)
        else
          && calls == old(calls) + 1
          && (answer.Some? ==> r == answer && cache.contents == Put(c, scope, answer.value, now))
          && (answer.None? ==> cache.contents == c && r == if (scope, id) in c then Some(c[(scope, id)].resource) else None)
      ensures r.Some? ==> (scope, r.value) in given
    {
      hide Stands, Keyed, Rows;
      var cached := cache.Get(scope, id);
      if cached.Some? && now - cached.value.fetchedAt < ttlMs {
        assert (scope, cache.contents[(scope, id)].resource) in given;
        return Some(cached.value.resource);
      }
      var answer := single(scope, calls, id);
      calls := calls + 1;
      if answer.None? {
        if cached.Some? {
          assert (scope, cache.contents[(scope, id)].resource) in given;
          return Some(cached.value.resource);
        }
        return None;
      }
      cache.PutOne(scope, answer.value, now);
      given := given + {(scope, answer.value)};
      return answer;
    }

    /** The loop of a refresh: what was collected and the ids seen. */
    method PollAll(scope: Scope, parent: Option<string>) returns (polled: Polled, seen: set<string>)
      modifies this`calls
      ensures polled == Poll(source(scope), old(calls), parent, None, 0, maxRefreshPages)
      ensures polled.Collected? ==> seen == Ids(polled.resources)
    {
      hide Ids;
      var ask := source(scope);
      ghost var whole := Poll(ask, calls, parent, None, 0, maxRefreshPages);
      var cursor: Option<string>, pages, collected: seq<Resource> := None, 0, [];
      seen := {};
      NothingSeen();
      while true
        invariant seen == Ids(collected) && (pages > 0 ==> pages < maxRefreshPages)
        invariant whole == Behind(collected, Poll(ask, calls, parent, cursor, pages, maxRefreshPages))
        decreases Max(maxRefreshPages - pages, 0), pages == 0
      {
        var page := ask(calls, parent, if More(cursor) then cursor else None);
        calls := calls + 1;
        if page.None? {
          return Raised, seen;
        }
        IdsJoin(collected, page.value.resources);
        seen := seen + Ids(page.value.resources);
        collected := collected + page.value.resources;
        cursor := page.value.nextCursor;
        pages := pages + 1;
        if More(cursor) && pages >= maxRefreshPages {
          return Collected(collected, true), seen;
        }
        if !More(cursor) {
          return Collected(collected, false), seen;
        }
        assert whole == Behind(collected, Poll(ask, calls, parent, cursor, pages, maxRefreshPages)) by {
          BehindJoins(collected[..|collected| - |page.value.resources|], page.value.resources, Poll(ask, calls, parent, cursor, pages, maxRefreshPages));
        }
      }
    }

    /** Poll the source and reconcile; None stands for an error of the source, which changes nothing. */
    method Refresh(scope: Scope, parent: Within, now: int) returns (summary: Option<Summary>)
      requires Valid()
      modifies this`calls, this`given, cache
      ensures Valid()
      ensures var polled := Poll(source(scope), old(calls), AskedFor(parent), None, 0, maxRefreshPages);
        if polled.Raised? then summary.None? && cache.contents == old(cache.contents)
        else
          && cache.contents == Reconciled(old(cache.contents), scope, polled, parent, now)
          && summary == Some(Summary(|polled.resources|,
               if polled.truncated then 0
               else |Doomed(PutMany(old(cache.contents), scope, polled.resources, now), scope, Ids(polled.resources), parent)|,
               polled.truncated))
      ensures forall pages :: MeetsAnError(source(scope), old(calls), AskedFor(parent), pages, Max(1, maxRefreshPages)) ==>
        summary.None? && cache.contents == old(cache.contents)
      ensures forall pages :: GoesThrough(source(scope), old(calls), AskedFor(parent), pages, Max(1, maxRefreshPages)) ==>
        && pages != [] && cache.contents == Reconciled(old(cache.contents), scope, Whole(pages), parent, now)
        && summary.Some? && summary.value.fetched == |ResourcesOf(pages)| && summary.value.truncated == Whole(pages).truncated
    {
      hide Stands, Keyed, Rows, Poll, Doomed, PutMany, Ids, LastOf, MeetsAnError, GoesThrough, ResourcesOf;
      PollIs(source(scope), calls, AskedFor(parent), maxRefreshPages);
      var polled, seen := PollAll(scope, AskedFor(parent));
      if polled.Raised? {
        return None;
      }
      cache.PutAll(scope, polled.resources, now);
      var pruned := 0;
      if !polled.truncated {
        pruned := cache.Prune(scope, seen, parent);
      }
      given := given + set r | r in polled.resources :: (scope, r);
      forall p | p in cache.contents ensures (p.0, cache.contents[p].resource) in given {
        ReconciledAt(old(cache.contents), scope, polled, parent, now, p);
        LastOfIs(polled.resources, p.1);
      }
      return Some(Summary(|polled.resources|, pruned, polled.truncated));
    }

    /** Forget a snapshot, so that the next read asks the source. */
    method Invalidate(scope: Scope, id: string) returns (deleted: bool)
      requires Valid()
      modifies cache
      ensures Valid() && deleted == ((scope, id) in old(cache.contents)) && cache.contents == old(cache.contents) - {(scope, id)}
    {
      deleted := cache.Delete(scope, id);
    }
  }

  /** What was collected before, in front of what is still to come. */
  function Behind(before: seq<Resource>, polled: Polled): Polled {
    match polled
    case Raised => Raised
    case Collected(rest, truncated) => Collected(before + rest, truncated)
  }

  lemma BehindJoins(a: seq<Resource>, b: seq<Resource>, polled: Polled)
    ensures Behind(a, Behind(b, polled)) == Behind(a + b, polled)
  {
    if polled.Collected? {
      assert a + (b + polled.resources) == a + b + polled.resources;
    }
  }

  lemma NothingSeen()
    ensures Ids([]) == {}
  {}

  lemma IdsJoin(a: seq<Resource>, b: seq<Resource>)
    ensures Ids(a + b) == Ids(a) + Ids(b)
  {
    forall id ensures id in Ids(a + b) <==> id in Ids(a) + Ids(b) {
      assert forall r :: r in a + b <==> r in a || r in b;
    }
  }
}
