/** Document and chunk ids: hashes of their preimages. The hash is a parameter. */
module Identity {
  import opened Options
  import opened Ledger

  type Hash = string -> string

  ghost predicate CollisionFree(hash: Hash) { forall x, y :: hash(x) == hash(y) ==> x == y }

  function Digit(n: nat): char
    requires n < 10
  {
    (('0' as int) + n) as char
  }

  /** `str(n)`. */
  function Decimal(n: nat): (s: string)
    ensures |s| > 0 && forall i :: 0 <= i < |s| ==> '0' <= s[i] <= '9'
  {
    if n < 10 then [Digit(n)] else Decimal(n / 10) + [Digit(n % 10)]
  }

  lemma DecimalSplits(n: nat)
    ensures var s := Decimal(n);
            && s[|s| - 1] == Digit(n % 10)
            && (n < 10 <==> |s| == 1)
            && (n >= 10 ==> s[..|s| - 1] == Decimal(n / 10))
  {
  }

  lemma {:induction false} DecimalIsInjective(n: nat, m: nat)
    requires Decimal(n) == Decimal(m)
    ensures n == m
  {
    DecimalSplits(n);
    DecimalSplits(m);
    if n >= 10 { DecimalIsInjective(n / 10, m / 10); }
  }

  /** The number a string of digits denotes. */
  function ValueOf(s: string): nat
    requires forall i :: 0 <= i < |s| ==> '0' <= s[i] <= '9'
  {
    if s == [] then 0 else 10 * ValueOf(s[..|s| - 1]) + ((s[|s| - 1] as int) - ('0' as int))
  }

  /** The decimal of a number denotes it, without a leading zero. */
  lemma {:induction false} DecimalDenotes(n: nat)
    ensures ValueOf(Decimal(n)) == n
    ensures Decimal(n)[0] == '0' ==> n == 0
  {
    DecimalSplits(n);
    if n >= 10 {
      DecimalDenotes(n / 10);
      assert Decimal(n)[0] == Decimal(n / 10)[0];
    } else {
      assert Decimal(n)[..0] == [];
    }
  }

  /** What is hashed for a chunk: the document id, then the index in decimal. */
  lemma ChunkPreimageIs(docId: string, index: nat)
    ensures docId <= ChunkPreimage(docId, index)
    ensures var rest := ChunkPreimage(docId, index)[|docId|..];
            (forall i :: 0 <= i < |rest| ==> '0' <= rest[i] <= '9') && ValueOf(rest) == index
  {
    DecimalDenotes(index);
    assert ChunkPreimage(docId, index)[|docId|..] == Decimal(index);
  }

  function ChunkPreimage(docId: string, index: nat): string { docId + Decimal(index) }

  /** The unseparated preimage is still unambiguous: an accepted document id is 64 hex digits,
      or 65 characters of which the last is a newline, and no index contains one. */
  lemma ChunkPreimageIsInjective(d: string, i: nat, d': string, i': nat)
    requires IsHexId(d) && IsHexId(d') && ChunkPreimage(d, i) == ChunkPreimage(d', i')
    ensures d == d' && i == i'
  {
    var p, p' := ChunkPreimage(d, i), ChunkPreimage(d', i');
    assert p[64] == if |d| == 65 then '\n' else Decimal(i)[0];
    assert p'[64] == if |d'| == 65 then '\n' else Decimal(i')[0];
    assert |d| == |d'|;
    assert d == p[..|d|] && d' == p'[..|d|];
    assert Decimal(i) == p[|d|..] && Decimal(i') == p'[|d|..];
    DecimalIsInjective(i, i');
  }

  /** None is the source's identity error. */
  function DeriveChunkId(hash: Hash, docId: string, index: int): Option<string> {
    if !IsHexId(docId) || index < 0 then None else Some(hash(ChunkPreimage(docId, index)))
  }

  /** A chunk id names one document and one position in it. */
  lemma ChunkIdNamesItsChunk(hash: Hash, d: string, i: int, d': string, i': int)
    requires CollisionFree(hash)
    requires DeriveChunkId(hash, d, i).Some? && DeriveChunkId(hash, d, i) == DeriveChunkId(hash, d', i')
    ensures d == d' && i == i'
  {
    ChunkPreimageIsInjective(d, i, d', i');
  }

  function DeriveDocId(hash: Hash, source: string, blobPath: string): Option<string> {
    if source == "" || blobPath == "" then None else Some(hash(source + blobPath))
  }

  /** A document id is not a name for its pair: two pairs share it exactly when their
      concatenations agree. */
  lemma DocIdNamesTheConcatenation(hash: Hash, s: string, b: string, s': string, b': string)
    requires CollisionFree(hash) && s != "" && b != "" && s' != "" && b' != ""
    ensures DeriveDocId(hash, s, b) == DeriveDocId(hash, s', b') <==> s + b == s' + b'
    ensures DeriveDocId(hash, s, b).Some? && DeriveDocId(hash, "", b).None? && DeriveDocId(hash, s, "").None?
  {
    if DeriveDocId(hash, s, b) == DeriveDocId(hash, s', b') {
      assert hash(s + b) == hash(s' + b');
    }
  }

  lemma TwoDocumentsOneId(hash: Hash)
    ensures DeriveDocId(hash, "ab", "c") == DeriveDocId(hash, "a", "bc") != None
  {
    assert "ab" + "c" == "a" + "bc";
  }

  /** All or nothing: one bad index refuses the whole batch. With no index at all even a
      malformed document id passes. */
  method DeriveChunkIdsBatch(hash: Hash, docId: string, indices: seq<int>) returns (r: Option<map<int, string>>)
    ensures r.None? <==> indices != [] && (!IsHexId(docId) || exists k :: 0 <= k < |indices| && indices[k] < 0)
    ensures r.Some? ==>
              && (forall i :: i in r.value <==> i in indices)
              && forall i :: i in r.value ==> DeriveChunkId(hash, docId, i) == Some(r.value[i])
  {
    var ids: map<int, string> := map[];
    for k := 0 to |indices|
      invariant (k > 0 ==> IsHexId(docId)) && forall j :: 0 <= j < k ==> indices[j] >= 0
      invariant forall i :: i in ids <==> i in indices[..k]
      invariant forall i :: i in ids ==> DeriveChunkId(hash, docId, i) == Some(ids[i])
    {
      var id := DeriveChunkId(hash, docId, indices[k]);
      if id.None? { return None; }
      ids := ids[indices[k] := id.value];
      assert indices[..k + 1] == indices[..k] + [indices[k]];
    }
    assert indices[..|indices|] == indices;
    r := Some(ids);
  }
}
