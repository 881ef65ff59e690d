/** `get_recommendations`: the relationships of one product, split by type,
    each bucket sorted by descending similarity score (stably, as Python's
    `sorted(..., reverse=True)` is) and cut to `limit` entries with Python's
    slice `[:limit]`. */
module Recommend {
  import opened Wrappers

  /** One row of `get_product_relationships`: the target product and the
      relationship from the product asked about. */
  datatype RelatedProduct = RelatedProduct(
    productId: int,
    sku: string,
    title: string,
    category: Option<string>,
    brand: Option<string>,
    price: Option<real>,
    relationshipType: string,
    similarityScore: real,
    reasoning: string)

  datatype Recommendations = Recommendations(
    similar: seq<RelatedProduct>,
    complements: seq<RelatedProduct>,
    alternatives: seq<RelatedProduct>)

  const SimilarTo := "SIMILAR_TO"
  const Complements := "COMPLEMENTS"
  const AlternativeTo := "ALTERNATIVE_TO"

  /** The default of the `limit` parameter. */
  const DefaultLimit := 5

  // ---------------------------------------------------------------------
  // Filters
  // ---------------------------------------------------------------------

  /** The relationships of type `t`, in input order: each occurs as often as
      in the input, and nothing else occurs. */
  function OfType(rels: seq<RelatedProduct>, t: string): (r: seq<RelatedProduct>)
    ensures forall x :: x in r <==> x in rels && x.relationshipType == t
    ensures forall x :: multiset(r)[x] == if x.relationshipType == t then multiset(rels)[x] else 0
  {
    if rels == [] then []
    else
      assert rels == [rels[0]] + rels[1..];
      (if rels[0].relationshipType == t then [rels[0]] else []) + OfType(rels[1..], t)
  }

  /** The elements with score `k`, in order. Two sequences with the same
      `WithScore` for every `k` order each group of ties alike. */
  function WithScore(s: seq<RelatedProduct>, k: real): (r: seq<RelatedProduct>)
    ensures forall x :: x in r <==> x in s && x.similarityScore == k
  {
    if s == [] then []
    else (if s[0].similarityScore == k then [s[0]] else []) + WithScore(s[1..], k)
  }

  // ---------------------------------------------------------------------
  // Stable sort by descending score
  // ---------------------------------------------------------------------

  predicate SortedByScoreDesc(s: seq<RelatedProduct>) {
    forall i, j | 0 <= i < j < |s| :: s[i].similarityScore >= s[j].similarityScore
  }

  /** Puts `x` in front of the first element whose score is not above its
      own, so that `x` precedes the elements it ties with. */
  function Insert(x: RelatedProduct, s: seq<RelatedProduct>): (r: seq<RelatedProduct>)
    ensures multiset(r) == multiset(s) + multiset{x}
  {
    if s == [] || s[0].similarityScore <= x.similarityScore then [x] + s
    else
      assert s == [s[0]] + s[1..];
      [s[0]] + Insert(x, s[1..])
  }

  /** No element scores above `v`. */
  predicate AllAtMost(s: seq<RelatedProduct>, v: real) {
    forall i | 0 <= i < |s| :: s[i].similarityScore <= v
  }

  lemma ConsSorted(h: RelatedProduct, t: seq<RelatedProduct>)
    requires SortedByScoreDesc(t) && AllAtMost(t, h.similarityScore)
    ensures SortedByScoreDesc([h] + t)
  {
    var r := [h] + t;
    forall i, j | 0 <= i < j < |r|
      ensures r[i].similarityScore >= r[j].similarityScore
    {
      assert r[j] == t[j - 1];
      if i > 0 {
        assert r[i] == t[i - 1];
      }
    }
  }

  lemma {:induction false} InsertAtMost(x: RelatedProduct, s: seq<RelatedProduct>, v: real)
    requires AllAtMost(s, v) && x.similarityScore <= v
    ensures AllAtMost(Insert(x, s), v)
    decreases |s|
  {
    if s != [] && s[0].similarityScore > x.similarityScore {
      var rest := Insert(x, s[1..]);
      InsertAtMost(x, s[1..], v);
      var r := [s[0]] + rest;
      assert Insert(x, s) == r;
      forall i | 0 <= i < |r|
        ensures r[i].similarityScore <= v
      {
        if i > 0 {
          assert r[i] == rest[i - 1];
        }
      }
    } else {
      var r := [x] + s;
      forall i | 0 <= i < |r|
        ensures r[i].similarityScore <= v
      {
        if i > 0 {
          assert r[i] == s[i - 1];
        }
      }
    }
  }

  lemma {:induction false} InsertSorted(x: RelatedProduct, s: seq<RelatedProduct>)
    requires SortedByScoreDesc(s)
    ensures SortedByScoreDesc(Insert(x, s))
    decreases |s|
  {
    if s != [] && s[0].similarityScore > x.similarityScore {
      var t := s[1..];
      assert SortedByScoreDesc(t) && AllAtMost(t, s[0].similarityScore) by {
        forall i | 0 <= i < |t|
          ensures t[i] == s[i + 1]
        {
        }
      }
      InsertSorted(x, t);
      InsertAtMost(x, t, s[0].similarityScore);
      ConsSorted(s[0], Insert(x, t));
    } else {
      assert AllAtMost(s, x.similarityScore) by {
        forall i | 0 <= i < |s|
          ensures s[i].similarityScore <= x.similarityScore
        {
          assert s[0].similarityScore >= s[i].similarityScore;
        }
      }
      ConsSorted(x, s);
    }
  }

  lemma WithScoreCons(h: RelatedProduct, t: seq<RelatedProduct>, k: real)
    ensures WithScore([h] + t, k) == (if h.similarityScore == k then [h] else []) + WithScore(t, k)
  {
    assert ([h] + t)[1..] == t;
  }

  lemma SwapEmpty(a: seq<RelatedProduct>, b: seq<RelatedProduct>, w: seq<RelatedProduct>)
    requires a == [] || b == []
    ensures a + (b + w) == b + (a + w)
  {
    if a == [] {
      assert a + (b + w) == b + w;
      assert a + w == w;
    } else {
      assert b + w == w;
      assert b + (a + w) == a + w;
    }
  }

  /** `x` joins its group of ties at the front and no other group changes. */
  lemma {:induction false} InsertTies(x: RelatedProduct, s: seq<RelatedProduct>, k: real)
    ensures WithScore(Insert(x, s), k) == (if x.similarityScore == k then [x] else []) + WithScore(s, k)
    decreases |s|
  {
    if s == [] || s[0].similarityScore <= x.similarityScore {
      assert Insert(x, s) == [x] + s;
      WithScoreCons(x, s, k);
    } else {
      var t := s[1..];
      var rest := Insert(x, t);
      assert Insert(x, s) == [s[0]] + rest;
      assert s == [s[0]] + t;
      InsertTies(x, t, k);
      WithScoreCons(s[0], rest, k);
      WithScoreCons(s[0], t, k);
      var hx := if x.similarityScore == k then [x] else [];
      var h0 := if s[0].similarityScore == k then [s[0]] else [];
      SwapEmpty(h0, hx, WithScore(t, k));
    }
  }

  /** `sorted(s, key=lambda x: x['similarity_score'], reverse=True)`. */
  function SortByScoreDesc(s: seq<RelatedProduct>): (r: seq<RelatedProduct>)
    ensures SortedByScoreDesc(r)
    ensures multiset(r) == multiset(s)
    ensures forall k :: WithScore(r, k) == WithScore(s, k)
  {
    if s == [] then []
    else
      assert s == [s[0]] + s[1..];
      var rest := SortByScoreDesc(s[1..]);
      InsertSorted(s[0], rest);
      assert forall k :: WithScore(Insert(s[0], rest), k) == WithScore(s, k) by {
        forall k
          ensures WithScore(Insert(s[0], rest), k) == WithScore(s, k)
        {
          InsertTies(s[0], rest, k);
        }
      }
      Insert(s[0], rest)
  }

  lemma {:induction false} HeadOf(t: seq<RelatedProduct>, u: seq<RelatedProduct>)
    requires SortedByScoreDesc(t) && SortedByScoreDesc(u)
    requires forall k :: WithScore(t, k) == WithScore(u, k)
    requires t != []
    ensures u != [] && u[0] == t[0]
  {
    var k := t[0].similarityScore;
    assert t[0] in WithScore(u, k);
    var m := u[0].similarityScore;
    assert u[0] in WithScore(t, m);
    var j :| 0 <= j < |t| && t[j] == u[0];
    var i :| 0 <= i < |u| && u[i] == t[0];
    assert m == k;
    assert WithScore(t, k) == [t[0]] + WithScore(t[1..], k);
    assert WithScore(u, k) == [u[0]] + WithScore(u[1..], k);
    assert WithScore(t, k)[0] == t[0] && WithScore(u, k)[0] == u[0];
  }

  /** A sequence sorted by descending score is determined by the order of
      each group of ties. */
  lemma {:induction false} SortedUnique(t: seq<RelatedProduct>, u: seq<RelatedProduct>)
    requires SortedByScoreDesc(t) && SortedByScoreDesc(u)
    requires forall k :: WithScore(t, k) == WithScore(u, k)
    ensures t == u
    decreases |t|
  {
    if t != [] {
      HeadOf(t, u);
    }
    if u != [] {
      HeadOf(u, t);
    }
    if t != [] {
      forall k
        ensures WithScore(t[1..], k) == WithScore(u[1..], k)
      {
        var h := if t[0].similarityScore == k then [t[0]] else [];
        assert WithScore(t, k) == h + WithScore(t[1..], k);
        assert WithScore(u, k) == h + WithScore(u[1..], k);
        assert (h + WithScore(t[1..], k))[|h|..] == WithScore(t[1..], k);
        assert (h + WithScore(u[1..], k))[|h|..] == WithScore(u[1..], k);
      }
      SortedUnique(t[1..], u[1..]);
      assert t == [t[0]] + t[1..];
      assert u == [u[0]] + u[1..];
    }
  }

  /** `SortByScoreDesc` is the stable sort: any arrangement sorted by
      descending score that keeps the input order among ties is it. */
  lemma SortIsStable(s: seq<RelatedProduct>, t: seq<RelatedProduct>)
    requires SortedByScoreDesc(t)
    requires forall k :: WithScore(t, k) == WithScore(s, k)
    ensures t == SortByScoreDesc(s)
  {
    SortedUnique(t, SortByScoreDesc(s));
  }

  // ---------------------------------------------------------------------
  // Python's slice s[:limit]
  // ---------------------------------------------------------------------

  /** A non-negative limit keeps at most `limit` elements; a negative one
      drops `-limit` elements from the end. */
  function Take(s: seq<RelatedProduct>, limit: int): (r: seq<RelatedProduct>)
    ensures r <= s
    ensures 0 <= limit <= |s| ==> |r| == limit
    ensures limit >= |s| ==> r == s
    ensures limit < 0 ==> |r| == if |s| + limit > 0 then |s| + limit else 0
  {
    if limit >= 0 then
      if limit < |s| then s[..limit] else s
    else
      if |s| + limit > 0 then s[..|s| + limit] else []
  }

  lemma {:induction false} WithScorePrefix(p: seq<RelatedProduct>, s: seq<RelatedProduct>, k: real)
    requires p <= s
    ensures WithScore(p, k) <= WithScore(s, k)
    decreases |p|
  {
    if p != [] {
      assert p[1..] <= s[1..];
      WithScorePrefix(p[1..], s[1..], k);
    }
  }

  // ---------------------------------------------------------------------
  // The recommendations
  // ---------------------------------------------------------------------

  function Bucket(rels: seq<RelatedProduct>, t: string, limit: int): seq<RelatedProduct> {
    Take(SortByScoreDesc(OfType(rels, t)), limit)
  }

  function GetRecommendations(rels: seq<RelatedProduct>, limit: int): Recommendations {
    Recommendations(
      Bucket(rels, SimilarTo, limit),
      Bucket(rels, Complements, limit),
      Bucket(rels, AlternativeTo, limit))
  }

  /** One bucket, its order: it is a prefix of all the relationships of its
      type sorted by descending score, so it is sorted and keeps the input
      order among ties. */
  lemma BucketOrder(rels: seq<RelatedProduct>, t: string, limit: int)
    ensures var b := Bucket(rels, t, limit);
      var all := OfType(rels, t);
      && b <= SortByScoreDesc(all)
      && SortedByScoreDesc(b)
      && (forall k :: WithScore(b, k) <= WithScore(all, k))
  {
    var all := OfType(rels, t);
    var sorted := SortByScoreDesc(all);
    var b := Bucket(rels, t, limit);
    forall k
      ensures WithScore(b, k) <= WithScore(all, k)
    {
      WithScorePrefix(b, sorted, k);
    }
  }

  /** One bucket, its contents: only relationships of its type taken from
      the input; a non-negative limit bounds it and it fills up to the limit
      when there are enough; a limit at least the number of relationships of
      the type keeps every one of them, each as often as in the input. */
  lemma BucketContents(rels: seq<RelatedProduct>, t: string, limit: int)
    ensures var b := Bucket(rels, t, limit);
      var all := OfType(rels, t);
      && (forall x :: x in b ==> x in rels && x.relationshipType == t)
      && (limit >= 0 ==> |b| <= limit)
      && (0 <= limit <= |all| ==> |b| == limit)
      && (limit >= |all| ==> multiset(b) == multiset(all))
  {
    var sorted := SortByScoreDesc(OfType(rels, t));
    var b := Bucket(rels, t, limit);
    forall x | x in b
      ensures x in rels && x.relationshipType == t
    {
      assert multiset(sorted)[x] > 0;
    }
  }

  /** Each relationship lands only in the bucket of its type; relationships of
      any other type are dropped. */
  lemma BucketsByType(rels: seq<RelatedProduct>, limit: int, x: RelatedProduct)
    ensures var r := GetRecommendations(rels, limit);
      && (x in r.similar ==> x in rels && x.relationshipType == SimilarTo)
      && (x in r.complements ==> x in rels && x.relationshipType == Complements)
      && (x in r.alternatives ==> x in rels && x.relationshipType == AlternativeTo)
  {
    BucketContents(rels, SimilarTo, limit);
    BucketContents(rels, Complements, limit);
    BucketContents(rels, AlternativeTo, limit);
  }

  /** With the default limit, every bucket holds at most five entries. */
  lemma DefaultLimitBound(rels: seq<RelatedProduct>)
    ensures var r := GetRecommendations(rels, DefaultLimit);
      |r.similar| <= 5 && |r.complements| <= 5 && |r.alternatives| <= 5
  {
    BucketContents(rels, SimilarTo, DefaultLimit);
    BucketContents(rels, Complements, DefaultLimit);
    BucketContents(rels, AlternativeTo, DefaultLimit);
  }
}
