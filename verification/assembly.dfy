/** From a region's drafts to chunks: merging an undersized tail, then numbering. */
module Assembly {
  import opened Options
  import opened Regions
  import opened Identity
  import opened Ledger

  datatype Draft = Draft(types: seq<Kind>, text: string, tokens: nat, tableAtomic: bool, sectionPath: Option<string>)

  type Counter = string -> nat

  const SEPARATOR := "\n\n"

  // ---- merging two drafts ----

  /** The first list, then what the second adds, in order of first appearance. */
  function Union(a: seq<Kind>, b: seq<Kind>): seq<Kind> {
    if b == [] then a
    else
      var n := |b| - 1;
      var u := Union(a, b[..n]);
      if b[n] in u then u else u + [b[n]]
  }

  lemma {:induction false} UnionIsExact(a: seq<Kind>, b: seq<Kind>)
    ensures var u := Union(a, b);
            && a <= u
            && (forall k :: k in u <==> k in a || k in b)
            && forall i, j :: 0 <= i < j < |u| && |a| <= j ==> u[i] != u[j]
  {
    if b != [] {
      UnionIsExact(a, b[..|b| - 1]);
      assert b == b[..|b| - 1] + [b[|b| - 1]];
    }
  }

  function MergeTwo(count: Counter, predecessor: Draft, last: Draft): Draft {
    var text := predecessor.text + SEPARATOR + last.text;
    Draft(Union(predecessor.types, last.types), text, count(text), predecessor.tableAtomic, predecessor.sectionPath)
  }

  method MergeTwoDrafts(count: Counter, predecessor: Draft, last: Draft) returns (r: Draft)
    ensures r == MergeTwo(count, predecessor, last)
    ensures r.text == predecessor.text + "\n\n" + last.text && r.tokens == count(r.text)
    ensures r.sectionPath == predecessor.sectionPath && r.tableAtomic == predecessor.tableAtomic
  {
    var text := predecessor.text + SEPARATOR + last.text;
    var types := predecessor.types;
    for i := 0 to |last.types|
      invariant types == Union(predecessor.types, last.types[..i])
    {
      assert last.types[..i + 1][..i] == last.types[..i];
      if last.types[i] !in types { types := types + [last.types[i]]; }
    }
    assert last.types[..|last.types|] == last.types;
    r := Draft(types, text, count(text), predecessor.tableAtomic, predecessor.sectionPath);
  }

  // ---- merging the tail ----

  /** Everything from `j` on, folded into one draft. */
  function TailFrom(count: Counter, drafts: seq<Draft>, j: nat): Draft
    requires j < |drafts|
    decreases |drafts| - j
  {
    if j == |drafts| - 1 then drafts[j] else MergeTwo(count, drafts[j], TailFrom(count, drafts, j + 1))
  }

  /** With everything from `j` on already folded, the loop folds once more. */
  predicate Mergeable(count: Counter, min: int, drafts: seq<Draft>, j: nat)
    requires j < |drafts|
  {
    var tail := TailFrom(count, drafts, j);
    j > 0 && tail.tokens < min && !tail.tableAtomic && !drafts[j - 1].tableAtomic
  }

  /** The result: a prefix untouched, the rest folded, at the last place where the loop stops. */
  ghost predicate MergedAt(count: Counter, min: int, drafts: seq<Draft>, merged: seq<Draft>, k: nat) {
    && k < |drafts| && merged == drafts[..k] + [TailFrom(count, drafts, k)]
    && !Mergeable(count, min, drafts, k)
    && forall j :: k < j < |drafts| ==> Mergeable(count, min, drafts, j)
  }

  method MergeUndersizedTail(count: Counter, min: int, drafts: seq<Draft>) returns (merged: seq<Draft>, ghost k: nat)
    ensures drafts == [] ==> merged == []
    ensures drafts != [] ==> MergedAt(count, min, drafts, merged, k)
  {
    merged := drafts;
    k := if drafts == [] then 0 else |drafts| - 1;
    while |merged| > 1 && merged[|merged| - 1].tokens < min
          && !merged[|merged| - 1].tableAtomic && !merged[|merged| - 2].tableAtomic
      invariant drafts == [] ==> merged == []
      invariant drafts != [] ==> k < |drafts| && |merged| == k + 1 && merged[..k] == drafts[..k]
      invariant drafts != [] ==> merged[k] == TailFrom(count, drafts, k)
      invariant forall j :: k < j < |drafts| ==> Mergeable(count, min, drafts, j)
    {
      var n := |merged|;
      assert merged[n - 2] == merged[..k][k - 1] == drafts[k - 1];
      assert Mergeable(count, min, drafts, k);
      var one := MergeTwoDrafts(count, merged[n - 2], merged[n - 1]);
      merged := merged[..n - 2] + [one];
      k := k - 1;
    }
  }

  lemma StopIsUnique(count: Counter, min: int, drafts: seq<Draft>, a: seq<Draft>, k: nat, b: seq<Draft>, k': nat)
    requires MergedAt(count, min, drafts, a, k) && MergedAt(count, min, drafts, b, k')
    ensures k == k' && a == b
  {
  }

  // ---- what merging keeps ----

  function JoinFrom(drafts: seq<Draft>, j: nat): string
    requires j < |drafts|
    decreases |drafts| - j
  {
    if j == |drafts| - 1 then drafts[j].text else drafts[j].text + SEPARATOR + JoinFrom(drafts, j + 1)
  }

  lemma {:induction false} TailText(count: Counter, drafts: seq<Draft>, j: nat)
    requires j < |drafts|
    ensures TailFrom(count, drafts, j).text == JoinFrom(drafts, j)
    ensures forall k :: k in TailFrom(count, drafts, j).types <==> exists i :: j <= i < |drafts| && k in drafts[i].types
    decreases |drafts| - j
  {
    if j < |drafts| - 1 {
      TailText(count, drafts, j + 1);
      UnionIsExact(drafts[j].types, TailFrom(count, drafts, j + 1).types);
    }
  }

  /** The blank-line join of the texts does not change, whatever is merged. */
  lemma {:induction false} MergeKeepsText(count: Counter, min: int, drafts: seq<Draft>, merged: seq<Draft>, k: nat, i: nat)
    requires MergedAt(count, min, drafts, merged, k) && i <= k
    ensures JoinFrom(merged, i) == JoinFrom(drafts, i)
    decreases k - i
  {
    if i < k {
      MergeKeepsText(count, min, drafts, merged, k, i + 1);
      assert merged[i] == drafts[i];
    } else {
      TailText(count, drafts, k);
    }
  }

  /** Every draft carries the count of its own text. */
  ghost predicate Counted(count: Counter, drafts: seq<Draft>) {
    forall i :: 0 <= i < |drafts| ==> drafts[i].tokens == count(drafts[i].text)
  }

  lemma MergeKeepsCounts(count: Counter, min: int, drafts: seq<Draft>, merged: seq<Draft>, k: nat)
    requires Counted(count, drafts) && MergedAt(count, min, drafts, merged, k)
    ensures Counted(count, merged)
  {
  }

  /** Joining two texts costs at most `s` tokens more than the two together. */
  ghost predicate Subadditive(count: Counter, s: nat) {
    forall a, b :: count(a + SEPARATOR + b) <= count(a) + s + count(b)
  }

  /** Pieces of at most `limit` tokens stay within `limit`, or `limit + s + min - 1` for the one
      that absorbed an undersized tail. */
  lemma MergeKeepsSize(count: Counter, s: nat, min: int, limit: nat, drafts: seq<Draft>, merged: seq<Draft>, k: nat)
    requires Subadditive(count, s) && Counted(count, drafts) && MergedAt(count, min, drafts, merged, k)
    requires forall i :: 0 <= i < |drafts| ==> drafts[i].tokens <= limit
    ensures forall i :: 0 <= i < |merged| ==> merged[i].tokens <= limit || merged[i].tokens <= limit + s + min - 1
  {
    if k < |drafts| - 1 {
      var tail := TailFrom(count, drafts, k + 1);
      assert Mergeable(count, min, drafts, k + 1);
      assert tail.tokens == count(tail.text);
      assert count(drafts[k].text + SEPARATOR + tail.text) <= count(drafts[k].text) + s + count(tail.text);
    }
  }

  /** A folded draft keeps the section path and the strategy of the first draft in it. */
  lemma {:induction false} TailKeepsFirst(count: Counter, drafts: seq<Draft>, j: nat)
    requires j < |drafts|
    ensures TailFrom(count, drafts, j).sectionPath == drafts[j].sectionPath
    ensures TailFrom(count, drafts, j).tableAtomic == drafts[j].tableAtomic
    ensures j < |drafts| - 1 ==> TailFrom(count, drafts, j).tokens == count(JoinFrom(drafts, j))
    decreases |drafts| - j
  {
    TailText(count, drafts, j);
  }

  /** Whatever was folded was too small and free of tables. */
  lemma OnlyUndersizedIsFolded(count: Counter, min: int, drafts: seq<Draft>, merged: seq<Draft>, k: nat, j: nat)
    requires MergedAt(count, min, drafts, merged, k) && k < j < |drafts|
    ensures TailFrom(count, drafts, j).tokens < min && !drafts[j].tableAtomic && !drafts[j - 1].tableAtomic
  {
    assert Mergeable(count, min, drafts, j);
    TailKeepsFirst(count, drafts, j);
  }

  /** A piece that is too small is left last only if it is alone or a table forbids the merge. */
  lemma StopsOnlyIfForced(count: Counter, min: int, drafts: seq<Draft>, merged: seq<Draft>, k: nat)
    requires MergedAt(count, min, drafts, merged, k)
    ensures merged != [] && (merged[|merged| - 1].tokens >= min || |merged| == 1
                             || merged[|merged| - 1].tableAtomic || merged[|merged| - 2].tableAtomic)
  {
    assert merged[k] == TailFrom(count, drafts, k);
    if k > 0 { assert merged[k - 1] == drafts[k - 1]; }
  }

  /** A list whose last piece is large enough, or is or follows a table, is left alone. */
  lemma LeavesAlone(count: Counter, min: int, drafts: seq<Draft>, merged: seq<Draft>, k: nat)
    requires MergedAt(count, min, drafts, merged, k)
    requires var n := |drafts|;
             drafts[n - 1].tokens >= min || drafts[n - 1].tableAtomic || (n > 1 && drafts[n - 2].tableAtomic)
    ensures merged == drafts
  {
    var n := |drafts|;
    assert !Mergeable(count, min, drafts, n - 1);
    assert k == n - 1;
    assert drafts == drafts[..k] + [drafts[k]];
  }

  // ---- numbering ----

  datatype Chunk = Chunk(chunkId: string, docId: string, position: nat, draft: Draft)

  /** None is an identity error: a malformed document id with anything to number. */
  method AssignPositions(hash: Hash, docId: string, drafts: seq<Draft>) returns (r: Option<seq<Chunk>>)
    ensures r.None? <==> drafts != [] && !IsHexId(docId)
    ensures r.Some? ==> Numbered(hash, docId, drafts, r.value)
  {
    var chunks: seq<Chunk> := [];
    for position := 0 to |drafts|
      invariant Numbered(hash, docId, drafts[..position], chunks)
      invariant position > 0 ==> IsHexId(docId)
    {
      var id := DeriveChunkId(hash, docId, position);
      if id.None? { return None; }
      chunks := chunks + [Chunk(id.value, docId, position, drafts[position])];
    }
    assert drafts[..|drafts|] == drafts;
    r := Some(chunks);
  }

  ghost predicate Numbered(hash: Hash, docId: string, drafts: seq<Draft>, chunks: seq<Chunk>) {
    |chunks| == |drafts| &&
    forall i :: 0 <= i < |chunks| ==>
      && chunks[i].position == i && chunks[i].docId == docId && chunks[i].draft == drafts[i]
      && DeriveChunkId(hash, docId, i) == Some(chunks[i].chunkId)
  }

  /** Within a document and across documents, different chunks have different ids. */
  lemma ChunkIdsAreDistinct(hash: Hash, d: string, a: seq<Draft>, x: seq<Chunk>, d': string, b: seq<Draft>, y: seq<Chunk>,
                            i: nat, j: nat)
    requires CollisionFree(hash) && Numbered(hash, d, a, x) && Numbered(hash, d', b, y) && i < |x| && j < |y|
    requires x[i].chunkId == y[j].chunkId
    ensures d == d' && i == j
  {
    ChunkIdNamesItsChunk(hash, d, i, d', j);
  }

  // ---- the whole assembly ----

  /** What a strategy makes of a region is a parameter. */
  type Strategy = Region -> seq<Draft>

  function Concat(parts: seq<seq<Draft>>, n: nat): seq<Draft>
    requires n <= |parts|
  {
    if n == 0 then [] else Concat(parts, n - 1) + parts[n - 1]
  }

  /** `part` is what one region contributes. */
  ghost predicate Contributes(count: Counter, min: int, drafts: seq<Draft>, part: seq<Draft>) {
    if drafts == [] then part == [] else exists k :: MergedAt(count, min, drafts, part, k)
  }

  /** One contribution per region. */
  ghost predicate Contributions(count: Counter, min: int, strategy: Strategy, regions: seq<Region>, parts: seq<seq<Draft>>) {
    |parts| == |regions| && forall i :: 0 <= i < |regions| ==> Contributes(count, min, strategy(regions[i]), parts[i])
  }

  /** The drafts are the contributions of the document's regions, in document order. */
  ghost predicate Drafted(count: Counter, min: int, strategy: Strategy, elements: seq<Element>, drafts: seq<Draft>) {
    exists regions, parts ::
      && Partitions(regions, elements) && Contributions(count, min, strategy, regions, parts)
      && drafts == Concat(parts, |parts|)
  }

  /** The document is partitioned, each region contributes its merged drafts, and the chunks are
      these contributions in document order, numbered throughout. */
  method AssembleChunks(hash: Hash, count: Counter, min: int, strategy: Strategy, docId: string, elements: seq<Element>)
    returns (r: Option<seq<Chunk>>)
    ensures r.Some? ==>
              exists drafts :: Drafted(count, min, strategy, elements, drafts) && Numbered(hash, docId, drafts, r.value)
    ensures r.None? ==>
              !IsHexId(docId) && exists drafts :: Drafted(count, min, strategy, elements, drafts) && drafts != []
  {
    var regions := PartitionRegions(elements);
    ghost var parts: seq<seq<Draft>> := [];
    var all: seq<Draft> := [];
    for i := 0 to |regions|
      invariant |parts| == i && all == Concat(parts, i)
      invariant forall j :: 0 <= j < i ==> Contributes(count, min, strategy(regions[j]), parts[j])
    {
      var merged, k := MergeUndersizedTail(count, min, strategy(regions[i]));
      all := all + merged;
      ConcatExtends(parts, merged, i);
      parts := parts + [merged];
    }
    assert Contributions(count, min, strategy, regions, parts);
    assert Drafted(count, min, strategy, elements, all);
    r := AssignPositions(hash, docId, all);
  }

  /** So the chunks of a document are a function of it: two assemblies under one id agree. */
  lemma AssemblyIsDetermined(count: Counter, min: int, strategy: Strategy, elements: seq<Element>, a: seq<Draft>, b: seq<Draft>)
    requires Drafted(count, min, strategy, elements, a) && Drafted(count, min, strategy, elements, b)
    ensures a == b
  {
    var rs, p :| Partitions(rs, elements) && Contributions(count, min, strategy, rs, p) && a == Concat(p, |p|);
    var rs', q :| Partitions(rs', elements) && Contributions(count, min, strategy, rs', q) && b == Concat(q, |q|);
    PartitionIsUnique(rs, rs', elements);
    forall i | 0 <= i < |rs| ensures p[i] == q[i] {
      ContributionIsUnique(count, min, strategy(rs[i]), p[i], q[i]);
    }
    assert p == q;
  }

  lemma ContributionIsUnique(count: Counter, min: int, drafts: seq<Draft>, a: seq<Draft>, b: seq<Draft>)
    requires Contributes(count, min, drafts, a) && Contributes(count, min, drafts, b)
    ensures a == b
  {
    if drafts != [] {
      var k :| MergedAt(count, min, drafts, a, k);
      var k' :| MergedAt(count, min, drafts, b, k');
      StopIsUnique(count, min, drafts, a, k, b, k');
    }
  }

  lemma {:induction false} ConcatExtends(parts: seq<seq<Draft>>, more: seq<Draft>, n: nat)
    requires n <= |parts|
    ensures Concat(parts + [more], n) == Concat(parts, n)
  {
    if n > 0 { ConcatExtends(parts, more, n - 1); }
  }
}
