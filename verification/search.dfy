/** Brute-force similarity search over the in-memory store. */
module Search {
  import opened Options
  import opened VectorStore
  import opened Vectors

  /** A scored record and its place in the dictionary's order. */
  datatype Hit = Hit(record: Record, score: real, at: nat)

  /** The filter is a parameter: does the record satisfy it? */
  type Matches = Record -> bool

  ghost predicate Better(g: Hit, h: Hit) { g.score > h.score || (g.score == h.score && g.at < h.at) }

  /** Descending by score, ties in dictionary order. */
  ghost predicate Ranked(hits: seq<Hit>) { forall i, j :: 0 <= i < j < |hits| ==> Better(hits[i], hits[j]) }

  /** Stable descending insertion of a hit that comes after all the others. */
  function Insert(h: Hit, hits: seq<Hit>): seq<Hit> {
    if hits == [] then [h]
    else if hits[0].score < h.score then [h] + hits
    else [hits[0]] + Insert(h, hits[1..])
  }

  lemma {:induction false} InsertRanks(h: Hit, hits: seq<Hit>)
    requires Ranked(hits) && forall i :: 0 <= i < |hits| ==> hits[i].at < h.at
    ensures Ranked(Insert(h, hits))
    ensures forall x :: x in Insert(h, hits) <==> x == h || x in hits
    ensures |Insert(h, hits)| == |hits| + 1
  {
    if hits != [] && hits[0].score >= h.score {
      InsertRanks(h, hits[1..]);
      var tail := Insert(h, hits[1..]);
      assert hits == [hits[0]] + hits[1..];
      forall i | 0 <= i < |tail| ensures Better(hits[0], tail[i]) {
        assert tail[i] in tail;
      }
    }
  }

  ghost predicate IsHit(sqrt: Sqrt, query: Vector, matches: Matches, candidates: seq<Record>, h: Hit) {
    && h.at < |candidates| && h.record == candidates[h.at] && matches(h.record)
    && Cosine(sqrt, query, h.record.vector) == Some(h.score)
  }

  /** `hits` ranks exactly the matching ones among the first `n` candidates. */
  ghost predicate Ranks(sqrt: Sqrt, query: Vector, matches: Matches, candidates: seq<Record>, hits: seq<Hit>, n: nat)
    requires n <= |candidates|
  {
    && Ranked(hits)
    && (forall h :: h in hits <==> IsHit(sqrt, query, matches, candidates, h) && h.at < n)
  }

  lemma AddHit(sqrt: Sqrt, query: Vector, matches: Matches, candidates: seq<Record>, hits: seq<Hit>, n: nat, score: real)
    requires n < |candidates| && Ranks(sqrt, query, matches, candidates, hits, n)
    requires matches(candidates[n]) && Cosine(sqrt, query, candidates[n].vector) == Some(score)
    ensures Ranks(sqrt, query, matches, candidates, Insert(Hit(candidates[n], score, n), hits), n + 1)
  {
    forall i | 0 <= i < |hits| ensures hits[i].at < n { assert hits[i] in hits; }
    InsertRanks(Hit(candidates[n], score, n), hits);
  }

  /** The records in dictionary order; None is the error on a candidate of the wrong dimension.
      `ranking` is the whole ranked list that the result is sliced from. */
  method TopMatches(sqrt: Sqrt, query: Vector, topK: int, matches: Matches, candidates: seq<Record>)
    returns (r: Option<seq<Hit>>, ghost ranking: seq<Hit>)
    ensures r.None? <==> exists i :: 0 <= i < |candidates| && matches(candidates[i]) && |candidates[i].vector| != |query|
    ensures r.Some? ==> Ranks(sqrt, query, matches, candidates, ranking, |candidates|) && r.value == Slice(ranking, topK)
  {
    var hits: seq<Hit> := [];
    for i := 0 to |candidates|
      invariant Ranks(sqrt, query, matches, candidates, hits, i)
      invariant forall k :: 0 <= k < i && matches(candidates[k]) ==> |candidates[k].vector| == |query|
    {
      if matches(candidates[i]) {
        var score := Cosine(sqrt, query, candidates[i].vector);
        if score.None? { return None, []; }
        AddHit(sqrt, query, matches, candidates, hits, i, score.value);
        hits := Insert(Hit(candidates[i], score.value, i), hits);
      }
    }
    ranking := hits;
    r := Some(Slice(hits, topK));
  }

  /** For a non-negative `topK` the result is the best matches: that many or all of them, in
      descending order, every score between -1 and 1, and nothing left out scores higher. */
  lemma TopKAreBest(sqrt: Sqrt, query: Vector, matches: Matches, candidates: seq<Record>, ranking: seq<Hit>, topK: int)
    requires IsSqrt(sqrt) && topK >= 0 && Ranks(sqrt, query, matches, candidates, ranking, |candidates|)
    ensures var r := Slice(ranking, topK);
            && (|r| == topK || r == ranking) && |r| <= topK
            && (forall i, j :: 0 <= i < j < |r| ==> r[i].score >= r[j].score)
            && (forall h :: h in r ==> IsHit(sqrt, query, matches, candidates, h) && -1.0 <= h.score <= 1.0)
            && (forall g, h :: g in r && IsHit(sqrt, query, matches, candidates, h) && h !in r ==> Better(g, h))
  {
    var r := Slice(ranking, topK);
    forall h | h in r ensures IsHit(sqrt, query, matches, candidates, h) && -1.0 <= h.score <= 1.0 {
      assert h in ranking;
      CosineIsBounded(sqrt, query, h.record.vector);
    }
    assert forall i, j :: 0 <= i < j < |r| ==> Better(r[i], r[j]);
    forall g, h | g in r && IsHit(sqrt, query, matches, candidates, h) && h !in r ensures Better(g, h) {
      assert h in ranking;
      var i :| 0 <= i < |r| && r[i] == g;
      var j :| 0 <= j < |ranking| && ranking[j] == h;
      assert ranking[i] == g && j >= |r|;
    }
  }

  /** The ranking is the only one: order and ties are settled. */
  lemma {:induction false} RankingIsUnique(a: seq<Hit>, b: seq<Hit>, n: nat)
    requires Ranked(a) && Ranked(b) && (forall h :: h in a <==> h in b) && n <= |a|
    ensures n <= |b| && forall i :: 0 <= i < n ==> a[i] == b[i]
  {
    if n > 0 {
      RankingIsUnique(a, b, n - 1);
      assert a[n - 1] in a;
      var j :| 0 <= j < |b| && b[j] == a[n - 1];
      assert j >= n - 1;
      assert b[n - 1] in b;
      var k :| 0 <= k < |a| && a[k] == b[n - 1];
      assert k >= n - 1;
      assert k == n - 1;
    }
  }
}
