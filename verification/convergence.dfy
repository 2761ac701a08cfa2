/** Indexing over whole runs: any sequence of attempts, successful or broken anywhere. */
module Convergence {
  import opened Options
  import opened VectorStore
  import opened Indexing

  function Part(s: Store, d: DocId): Store { map c | c in s && s[c].docId == d :: s[c] }

  ghost predicate OneVersion(s: Store, d: DocId) {
    forall c, c' :: c in IdsOf(s, d) && c' in IdsOf(s, d) ==> s[c].docVersion == s[c'].docVersion
  }

  ghost predicate OwnedRecords(owner: Owner, records: seq<Record>) {
    forall x :: x in records ==> x.docId == owner(x.chunkId)
  }

  lemma {:induction false} LastOfMembers(records: seq<Record>, c: ChunkId)
    ensures LastOf(records, c).Some? <==> c in IdSet(records)
  {
    if records != [] {
      var n := |records| - 1;
      LastOfMembers(records[..n], c);
      assert records == records[..n] + [records[n]];
    }
  }

  /** The store after an attempt, id by id. */
  lemma AttemptLookup(a: Attempt, s: Store, s': Store, c: ChunkId)
    requires Explains(a, s, s')
    ensures c in s' <==> (c in s && c !in a.gone) || LastOf(a.landed, c).Some?
    ensures c in s' ==> s'[c] == if LastOf(a.landed, c).Some? then LastOf(a.landed, c).value else s[c]
    ensures LastOf(a.landed, c).Some? ==>
              var x := LastOf(a.landed, c).value;
              && x in a.records && x.chunkId == c && x.docId == a.docId && x.docVersion == a.version && c in IdSet(a.records)
  {
    PutLookup(s - a.gone, a.landed, c);
  }

  /** An attempt on one document never touches another's records. */
  lemma OthersUntouched(owner: Owner, a: Attempt, s: Store, s': Store, e: DocId)
    requires Explains(a, s, s') && Owned(owner, s) && OwnedRecords(owner, a.records)
    ensures Owned(owner, s')
    ensures e != a.docId ==> Part(s', e) == Part(s, e)
  {
    forall c
      ensures c in s' ==> s'[c].docId == owner(c)
      ensures e != a.docId ==> (c in Part(s', e) <==> c in Part(s, e))
      ensures e != a.docId && c in Part(s, e) && c in Part(s', e) ==> Part(s', e)[c] == Part(s, e)[c]
    {
      AttemptLookup(a, s, s', c);
    }
  }

  /** With deletion on a version change, a document's records share one version after every
      attempt, wherever it broke. */
  lemma OneVersionKept(owner: Owner, a: Attempt, s: Store, s': Store, d: DocId)
    requires Explains(a, s, s') && Owned(owner, s) && OwnedRecords(owner, a.records) && a.purge
    requires OneVersion(s, d)
    ensures OneVersion(s', d)
  {
    if d != a.docId {
      OthersUntouched(owner, a, s, s', d);
      forall c | c in IdsOf(s', d) ensures c in IdsOf(s, d) && s[c] == s'[c] {
        assert c in Part(s', d);
      }
    } else {
      forall c | c in IdsOf(s', d) ensures s'[c].docVersion == if a.landed != [] then a.version else s'[c].docVersion
                                   ensures a.landed == [] ==> c in IdsOf(s, d) && s'[c] == s[c]
      {
        AttemptLookup(a, s, s', c);
      }
    }
  }

  /** The store may be indexed under this version and these ids without leaving anything behind:
      whatever it holds for the document is of another version, or under the same ids. */
  ghost predicate Prepared(s: Store, d: DocId, v: Version, ids: set<ChunkId>) {
    OneVersion(s, d) && forall c :: c in IdsOf(s, d) && s[c].docVersion == v ==> c in ids
  }

  lemma PreparedKept(owner: Owner, a: Attempt, s: Store, s': Store, d: DocId, v: Version, ids: set<ChunkId>)
    requires Explains(a, s, s') && Owned(owner, s) && OwnedRecords(owner, a.records) && a.purge
    requires a.docId == d ==> a.version == v && IdSet(a.records) == ids
    requires Prepared(s, d, v, ids)
    ensures Prepared(s', d, v, ids)
  {
    OneVersionKept(owner, a, s, s', d);
    OthersUntouched(owner, a, s, s', d);
    forall c | c in IdsOf(s', d) && s'[c].docVersion == v ensures c in ids {
      AttemptLookup(a, s, s', c);
      if d != a.docId { assert c in Part(s', d); }
    }
  }

  /** A successful attempt leaves exactly its own records if and only if it saw another version and
      deleted, or the document had no id that the new records lack. */
  lemma SuccessLeavesIff(a: Attempt, s: Store, s': Store)
    requires Explains(a, s, s') && a.done
    ensures Part(s', a.docId) == Put(map[], a.records) <==> Stale(a) || IdsOf(s, a.docId) <= IdSet(a.records)
  {
    var d, wanted := a.docId, Put(map[], a.records);
    forall c
      ensures c in wanted <==> c in IdSet(a.records)
      ensures c in wanted ==> c in Part(s', d) && Part(s', d)[c] == wanted[c]
      ensures c in Part(s', d) && c !in wanted <==> c in IdsOf(s, d) && c !in a.gone && c !in IdSet(a.records)
    {
      AttemptLookup(a, s, s', c);
      PutLookup(map[], a.records, c);
      LastOfMembers(a.records, c);
      assert LastOf(a.landed, c) == LastOf(a.records, c);
    }
    if Stale(a) || IdsOf(s, d) <= IdSet(a.records) {
      assert Part(s', d) == wanted;
    }
  }

  /** For a document stored under one version: if and only if it was not already stored under the
      same version with an id the new records lack; such a record stays behind as an orphan. */
  lemma SuccessIsExact(a: Attempt, s: Store, s': Store)
    requires Explains(a, s, s') && a.done && a.purge && OneVersion(s, a.docId)
    ensures Part(s', a.docId) == Put(map[], a.records) <==> Prepared(s, a.docId, a.version, IdSet(a.records))
  {
    SuccessLeavesIff(a, s, s');
    if !Stale(a) {
      assert forall c :: c in IdsOf(s, a.docId) ==> s[c].docVersion == a.version;
    }
  }

  /** With deletion switched off, the condition is on the ids alone. */
  lemma SuccessWithoutPurge(a: Attempt, s: Store, s': Store)
    requires Explains(a, s, s') && a.done && !a.purge
    ensures Part(s', a.docId) == Put(map[], a.records) <==> IdsOf(s, a.docId) <= IdSet(a.records)
  {
    SuccessLeavesIff(a, s, s');
  }

  // ---- runs ----

  /** The states an arbitrary sequence of attempts goes through. */
  ghost predicate RunOf(owner: Owner, states: seq<Store>, attempts: seq<Attempt>) {
    && |states| == |attempts| + 1 && Owned(owner, states[0])
    && (forall i :: 0 <= i < |attempts| ==> attempts[i].purge && OwnedRecords(owner, attempts[i].records))
    && (forall i :: 0 <= i < |attempts| ==> Explains(attempts[i], states[i], states[i + 1]))
  }

  lemma {:induction false} RunKeepsOwners(owner: Owner, states: seq<Store>, attempts: seq<Attempt>, i: nat)
    requires RunOf(owner, states, attempts) && i < |states|
    ensures Owned(owner, states[i])
  {
    if i > 0 {
      RunKeepsOwners(owner, states, attempts, i - 1);
      OthersUntouched(owner, attempts[i - 1], states[i - 1], states[i], attempts[i - 1].docId);
    }
  }

  /** In every state of every run each document is stored under one version. */
  lemma {:induction false} AlwaysOneVersion(owner: Owner, states: seq<Store>, attempts: seq<Attempt>, i: nat, d: DocId)
    requires RunOf(owner, states, attempts) && i < |states| && OneVersion(states[0], d)
    ensures OneVersion(states[i], d)
  {
    if i > 0 {
      AlwaysOneVersion(owner, states, attempts, i - 1, d);
      RunKeepsOwners(owner, states, attempts, i - 1);
      OneVersionKept(owner, attempts[i - 1], states[i - 1], states[i], d);
    }
  }

  lemma {:induction false} StaysPrepared(owner: Owner, states: seq<Store>, attempts: seq<Attempt>, i: nat,
                                         d: DocId, v: Version, ids: set<ChunkId>)
    requires RunOf(owner, states, attempts) && i < |states| && Prepared(states[0], d, v, ids)
    requires forall k :: 0 <= k < i && attempts[k].docId == d ==> attempts[k].version == v && IdSet(attempts[k].records) == ids
    ensures Prepared(states[i], d, v, ids)
  {
    if i > 0 {
      StaysPrepared(owner, states, attempts, i - 1, d, v, ids);
      RunKeepsOwners(owner, states, attempts, i - 1);
      PreparedKept(owner, attempts[i - 1], states[i - 1], states[i], d, v, ids);
    }
  }

  /** A document nobody indexes in a stretch of the run keeps its records. */
  lemma {:induction false} BystandersKeep(owner: Owner, states: seq<Store>, attempts: seq<Attempt>, lo: nat, hi: nat, e: DocId)
    requires RunOf(owner, states, attempts) && lo <= hi < |states|
    requires forall k :: lo <= k < hi ==> attempts[k].docId != e
    ensures Part(states[hi], e) == Part(states[lo], e)
  {
    if lo < hi {
      BystandersKeep(owner, states, attempts, lo, hi - 1, e);
      RunKeepsOwners(owner, states, attempts, hi - 1);
      OthersUntouched(owner, attempts[hi - 1], states[hi - 1], states[hi], e);
    }
  }

  /** Retries converge. Start where the document is absent, stored under another version, or
      stored under the same version with no foreign ids. Let any number of attempts with the
      same version and ids break anywhere, mixed with attempts on other documents. Once one
      succeeds, and as long as later attempts are on other documents, the store holds for this
      document exactly the records of the one that succeeded. */
  lemma RetriesConverge(owner: Owner, states: seq<Store>, attempts: seq<Attempt>, d: DocId, last: nat)
    requires RunOf(owner, states, attempts) && last < |attempts|
    requires attempts[last].docId == d && attempts[last].done
    requires Prepared(states[0], d, attempts[last].version, IdSet(attempts[last].records))
    requires forall k :: 0 <= k < last && attempts[k].docId == d ==>
               attempts[k].version == attempts[last].version && IdSet(attempts[k].records) == IdSet(attempts[last].records)
    requires forall k :: last < k < |attempts| ==> attempts[k].docId != d
    ensures Part(states[|attempts|], d) == Put(map[], attempts[last].records)
  {
    var v, ids := attempts[last].version, IdSet(attempts[last].records);
    StaysPrepared(owner, states, attempts, last, d, v, ids);
    SuccessIsExact(attempts[last], states[last], states[last + 1]);
    BystandersKeep(owner, states, attempts, last + 1, |attempts|, d);
  }

  /** Re-indexing the same version with fewer chunks leaves the dropped one behind. */
  lemma FewerChunksLeaveOrphans(a: Attempt, s: Store, s': Store, orphan: ChunkId)
    requires Explains(a, s, s') && a.done && orphan in IdsOf(s, a.docId)
    requires a.seen == Some(a.version) && orphan !in IdSet(a.records)
    ensures orphan in s' && s'[orphan] == s[orphan]
  {
    AttemptLookup(a, s, s', orphan);
  }
}
