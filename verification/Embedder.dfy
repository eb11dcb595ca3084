/**
 * Embedding in batches, after `src/memory/openai-compatible-embedder.ts`: a provider answers a batch in any
 * order and says which index each answer is for.
 */
module Embedder {
  import opened Basics

  type Vector = seq<real>

  /** One answer: an index, when the provider gives one, and a vector, when it has one. */
  datatype Entry = Entry(index: Option<nat>, embedding: Option<Vector>)

  /** A place of the result that was never filled is a hole. */
  type Filled = seq<Option<Vector>>

  datatype Embedded = Raised | Vectors(all: Filled)

  /** What a provider answers to its n-th request, or None when the request fails. */
  type Provider = (nat, seq<string>) -> Option<seq<Entry>>

  function Place(data: seq<Entry>, k: nat): nat
    requires k < |data|
  {
    if data[k].index.Some? then data[k].index.value else k
  }

  /** Writing past the end of an array makes it longer. */
  function Written(ordered: Filled, at: nat, v: Vector): Filled {
    if at < |ordered| then ordered[at := Some(v)] else ordered + Holes(at - |ordered|) + [Some(v)]
  }

  function Holes(n: nat): (r: Filled)
    ensures |r| == n && forall i :: 0 <= i < n ==> r[i] == None
  {
    seq(n, _ => None)
  }

  /** What a batch's answer should be: one vector for each text, each index once. */
  ghost predicate Faithful(batch: seq<string>, data: seq<Entry>, vector: string -> Vector) {
    && |data| == |batch|
    && (forall k :: 0 <= k < |data| ==> Place(data, k) < |batch| && data[k].embedding == Some(vector(batch[Place(data, k)])))
    && forall j, k :: 0 <= j < k < |data| ==> Place(data, j) != Place(data, k)
  }

  /** A request that failed, was answered short or long, or with a vector missing. */
  predicate Unusable(batch: seq<string>, answer: Option<seq<Entry>>) {
    answer.None? || |answer.value| != |batch| || exists k :: 0 <= k < |answer.value| && answer.value[k].embedding.None?
  }

  /** At each place the last vector that was answered for it, and a hole where none was; as long as the batch, or longer if written past it. */
  ghost predicate Placed(all: Filled, data: seq<Entry>, n: nat, least: nat)
    requires n <= |data|
  {
    && |all| >= least
    && (forall k :: 0 <= k < n ==> Place(data, k) < |all|)
    && (|all| > least ==> exists k :: 0 <= k < n && Place(data, k) == |all| - 1)
    && forall p :: 0 <= p < |all| ==> LastAt(all[p], data, n, p)
  }

  ghost predicate LastAt(v: Option<Vector>, data: seq<Entry>, n: nat, p: nat)
    requires n <= |data|
  {
    if forall k :: 0 <= k < n ==> Place(data, k) != p then v.None?
    else exists k :: 0 <= k < n && Place(data, k) == p && v == data[k].embedding && forall j :: k < j < n ==> Place(data, j) != p
  }

  lemma WrittenIsPlaced(all: Filled, data: seq<Entry>, n: nat, least: nat)
    requires n < |data| && data[n].embedding.Some? && Placed(all, data, n, least)
    ensures Placed(Written(all, Place(data, n), data[n].embedding.value), data, n + 1, least)
  {
    hide LastAt;
    var at, v := Place(data, n), data[n].embedding.value;
    var after := Written(all, at, v);
    assert after[at] == Some(v);
    forall p | 0 <= p < |after| ensures LastAt(after[p], data, n + 1, p) {
      LastOneMore(if p < |all| then all[p] else None, data, n, p) by {
        if p >= |all| { NoneThere(all, data, n, least, p); }
      }
    }
    if |after| > least {
      if at >= |all| { assert Place(data, n) == |after| - 1; }
    }
  }

  lemma NothingPlaced(data: seq<Entry>, least: nat)
    ensures Placed(Holes(least), data, 0, least)
  {}

  lemma NoneThere(all: Filled, data: seq<Entry>, n: nat, least: nat, p: nat)
    requires n <= |data| && Placed(all, data, n, least) && p >= |all|
    ensures LastAt(None, data, n, p)
  {}

  lemma LastOneMore(v: Option<Vector>, data: seq<Entry>, n: nat, p: nat)
    requires n < |data| && LastAt(v, data, n, p)
    ensures LastAt(if Place(data, n) == p then data[n].embedding else v, data, n + 1, p)
  {}

  method BatchEmbed(batch: seq<string>, answer: Option<seq<Entry>>, ghost vector: string -> Vector) returns (r: Embedded)
    ensures r.Raised? <==> Unusable(batch, answer)
    ensures r.Vectors? ==> Placed(r.all, answer.value, |batch|, |batch|)
    ensures answer.Some? && Faithful(batch, answer.value, vector) ==> r == Vectors(Pointwise(batch, vector))
  {
    hide LastAt;
    if answer.None? || |answer.value| != |batch| {
      return Raised;
    }
    NothingPlaced(answer.value, |batch|);
    var data, ordered := answer.value, Holes(|batch|);
    for k := 0 to |data|
      invariant forall j :: 0 <= j < k ==> data[j].embedding.Some?
      invariant Placed(ordered, data, k, |batch|)
      invariant Faithful(batch, data, vector) ==> |ordered| == |batch| && forall j :: 0 <= j < k ==> ordered[Place(data, j)] == data[j].embedding
    {
      if data[k].embedding.None? {
        return Raised;
      }
      WrittenIsPlaced(ordered, data, k, |batch|);
      ordered := Written(ordered, Place(data, k), data[k].embedding.value);
    }
    if Faithful(batch, data, vector) {
      AllPlaces(batch, data, ordered, vector);
    }
    return Vectors(ordered);
  }

  function Pointwise(texts: seq<string>, vector: string -> Vector): (r: Filled)
    ensures |r| == |texts| && forall i :: 0 <= i < |texts| ==> r[i] == Some(vector(texts[i]))
  {
    seq(|texts|, i requires 0 <= i < |texts| => Some(vector(texts[i])))
  }

  /** As many different places as there are texts: every place is filled. */
  lemma AllPlaces(batch: seq<string>, data: seq<Entry>, ordered: Filled, vector: string -> Vector)
    requires Faithful(batch, data, vector) && |ordered| == |batch|
    requires forall j :: 0 <= j < |data| ==> ordered[Place(data, j)] == data[j].embedding
    ensures ordered == Pointwise(batch, vector)
  {
    var places := seq(|data|, k requires 0 <= k < |data| => Place(data, k));
    forall i | 0 <= i < |batch| ensures ordered[i] == Some(vector(batch[i])) {
      Hit(places, i);
      var k :| 0 <= k < |places| && places[k] == i;
      assert ordered[Place(data, k)] == data[k].embedding;
    }
  }

  lemma Hit(places: seq<nat>, i: nat)
    requires i < |places| && NoRepeats(places) && forall k :: 0 <= k < |places| ==> places[k] < |places|
    ensures i in places
  {
    Size(places);
    if i !in places {
      Fewer(Members(places), Below(|places|) - {i});
    }
  }

  lemma Fewer(a: set<nat>, b: set<nat>)
    requires a <= b
    ensures |a| <= |b|
  {
    assert b == a + (b - a);
  }

  function Below(n: nat): (r: set<nat>)
    ensures |r| == n && forall k :: k in r <==> 0 <= k < n
  {
    if n == 0 then {} else Below(n - 1) + {n - 1}
  }

  function Members(s: seq<nat>): (r: set<nat>)
    ensures forall x :: x in r <==> x in s
  {
    if s == [] then {} else Members(s[1..]) + {s[0]}
  }

  lemma {:induction false} Size(s: seq<nat>)
    requires NoRepeats(s)
    ensures |Members(s)| == |s|
  {
    if s != [] {
      Size(s[1..]);
    }
  }

  /** The request for the texts from `start` on. */
  function Batch(texts: seq<string>, start: nat, size: nat): seq<string>
    requires start <= |texts|
  {
    texts[start..Min(start + size, |texts|)]
  }

  /** A provider that answers every batch of these texts from `start` on, in whatever order. */
  ghost predicate AnswersFrom(provider: Provider, calls: nat, texts: seq<string>, start: nat, size: nat, vector: string -> Vector)
    requires size >= 1
    decreases |texts| - start
  {
    start >= |texts| ||
    (var answer := provider(calls, Batch(texts, start, size));
     answer.Some? && Faithful(Batch(texts, start, size), answer.value, vector)
     && AnswersFrom(provider, calls + 1, texts, start + size, size, vector))
  }

  lemma PointwiseJoin(texts: seq<string>, start: nat, size: nat, vector: string -> Vector)
    requires start <= |texts|
    ensures Pointwise(texts[..start], vector) + Pointwise(Batch(texts, start, size), vector) == Pointwise(texts[..Min(start + size, |texts|)], vector)
  {}

  /** The n-th request, if there is one. */
  predicate Fails(provider: Provider, calls: nat, texts: seq<string>, size: nat, n: nat) {
    n * size < |texts| && Unusable(Batch(texts, n * size, size), provider(calls + n, Batch(texts, n * size, size)))
  }

  /** What the n-th request was answered with, put in place. */
  ghost predicate Gives(provider: Provider, calls: nat, texts: seq<string>, size: nat, n: nat, part: Filled) {
    && n * size < |texts| && !Fails(provider, calls, texts, size, n)
    && var batch := Batch(texts, n * size, size);
    Placed(part, provider(calls + n, batch).value, |batch|, |batch|)
  }

  /** Request by request, as many as the texts take. */
  ghost predicate Gathered(provider: Provider, calls: nat, texts: seq<string>, size: nat, parts: seq<Filled>) {
    && |texts| <= |parts| * size
    && forall n :: 0 <= n < |parts| ==> Gives(provider, calls, texts, size, n, parts[n])
  }

  /**
   * One vector for each text, in the order of the texts, whatever the batch size and the order of the answers. A request
   * that cannot be used fails the whole; otherwise the result is what the requests were answered with, one after another.
   */
  method Embed(provider: Provider, calls: nat, texts: seq<string>, size: nat, ghost vector: string -> Vector) returns (r: Embedded)
    requires size >= 1
    ensures AnswersFrom(provider, calls, texts, 0, size, vector) ==> r == Vectors(Pointwise(texts, vector))
    ensures r.Raised? <==> exists n: nat :: Fails(provider, calls, texts, size, n)
    ensures r.Vectors? ==> exists parts :: Gathered(provider, calls, texts, size, parts) && r.all == Flatten(parts)
  {
    hide Faithful, Pointwise, Batch, Placed, Unusable;
    var vectors: Filled := [];
    var start, call: nat := 0, calls;
    ghost var n: nat, parts: seq<Filled> := 0, [];
    assert Pointwise(texts[..0], vector) == [];
    while start < |texts|
      invariant start == n * size && call == calls + n && |parts| == n
      invariant vectors == Flatten(parts)
      invariant forall k :: 0 <= k < n ==> Gives(provider, calls, texts, size, k, parts[k])
      invariant AnswersFrom(provider, calls, texts, 0, size, vector) ==>
        AnswersFrom(provider, call, texts, start, size, vector) && vectors == Pointwise(texts[..Min(start, |texts|)], vector)
      decreases |texts| - start
    {
      var batch := Batch(texts, start, size);
      var answered := BatchEmbed(batch, provider(call, batch), vector);
      if answered.Raised? {
        assert Fails(provider, calls, texts, size, n);
        return Raised;
      }
      assert Gives(provider, calls, texts, size, n, answered.all);
      FlattenPush(parts, answered.all);
      vectors := vectors + answered.all;
      PointwiseJoin(texts, start, size, vector);
      start, call := start + size, call + 1;
      n, parts := n + 1, parts + [answered.all];
    }
    assert texts[..|texts|] == texts;
    NoneFails(provider, calls, texts, size, parts);
    return Vectors(vectors);
  }

  lemma NoneFails(provider: Provider, calls: nat, texts: seq<string>, size: nat, parts: seq<Filled>)
    requires Gathered(provider, calls, texts, size, parts)
    ensures forall n: nat :: !Fails(provider, calls, texts, size, n)
  {
    hide Placed, Unusable;
    forall n: nat ensures !Fails(provider, calls, texts, size, n) {
      if n < |parts| {
        assert Gives(provider, calls, texts, size, n, parts[n]);
      } else {
        Times(|parts|, n, size);
      }
    }
  }

  lemma Times(a: nat, b: nat, size: nat)
    requires a <= b
    ensures a * size <= b * size
  {}
}
