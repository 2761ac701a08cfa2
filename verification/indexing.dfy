/**
 Idempotent indexing: delete before upsert on a version change, batches, one retry of the
 failed items; over a store whose every call may fail item by item or break midway.
 */
module Indexing {
  import opened Options
  import opened VectorStore
  import Stages

  /** A declared error code, or none for any other exception. */
  type Cause = Option<Stages.Code>

  const PARTIAL: Cause := Some(Stages.IndexerPartialBatchFailure)

  /** What one adapter call does: everything, everything but some items, or some items and then
      an exception. */
  datatype Fault = Clean | Fails(ids: set<ChunkId>) | Breaks(ids: set<ChunkId>, cause: Cause)

  function Causes(faults: seq<Fault>): set<Cause> { set f | f in faults && f.Breaks? :: f.cause }

  /** What the `i`th call from here on will do. */
  function FaultAt(faults: seq<Fault>, i: nat): Fault { if i < |faults| then faults[i] else Clean }

  function Rest(faults: seq<Fault>): seq<Fault> { if faults == [] then [] else faults[1..] }

  /** The items of a batch that a call does not accept. */
  function Rejected(f: Fault, batch: seq<Record>): set<ChunkId> { if f.Fails? then f.ids * IdSet(batch) else {} }

  /** No call breaks and no item fails in two calls running. */
  ghost predicate Smooth(faults: seq<Fault>) {
    && (forall i :: 0 <= i < |faults| ==> !faults[i].Breaks?)
    && (forall i, j :: 0 <= i && j == i + 1 < |faults| && faults[i].Fails? && faults[j].Fails? ==> faults[i].ids * faults[j].ids == {})
  }

  datatype Reply<T> = Got(value: T) | Broke(cause: Cause)

  function Only(batch: seq<Record>, ids: set<ChunkId>): (r: seq<Record>)
    ensures forall x :: x in r <==> x in batch && x.chunkId in ids
  {
    if batch == [] then []
    else
      var n := |batch| - 1;
      if batch[n].chunkId in ids then Only(batch[..n], ids) + [batch[n]] else Only(batch[..n], ids)
  }

  function Without(batch: seq<Record>, ids: set<ChunkId>): (r: seq<Record>)
    ensures forall x :: x in r <==> x in batch && x.chunkId !in ids
  {
    if batch == [] then []
    else
      var n := |batch| - 1;
      if batch[n].chunkId in ids then Without(batch[..n], ids) else Without(batch[..n], ids) + [batch[n]]
  }

  function IdSet(batch: seq<Record>): set<ChunkId> { set r | r in batch :: r.chunkId }

  /** Two batches that leave the same record under every id. */
  ghost predicate Same(a: seq<Record>, b: seq<Record>) { forall c :: LastOf(a, c) == LastOf(b, c) }

  lemma {:induction false} LastOfAppend(a: seq<Record>, b: seq<Record>, c: ChunkId)
    ensures LastOf(a + b, c) == if LastOf(b, c).Some? then LastOf(b, c) else LastOf(a, c)
  {
    if b == [] {
      assert a + b == a;
    } else {
      var n := |b| - 1;
      assert (a + b)[..|a + b| - 1] == a + b[..n];
      LastOfAppend(a, b[..n], c);
    }
  }

  lemma LastOfNext(a: seq<Record>, r: Record, c: ChunkId)
    ensures LastOf(a + [r], c) == if r.chunkId == c then Some(r) else LastOf(a, c)
  {
    assert (a + [r])[..|a|] == a;
  }

  lemma {:induction false} LastOfOnly(batch: seq<Record>, ids: set<ChunkId>, c: ChunkId)
    ensures LastOf(Only(batch, ids), c) == if c in ids then LastOf(batch, c) else None
  {
    if batch != [] {
      var n := |batch| - 1;
      LastOfOnly(batch[..n], ids, c);
      LastOfNext(Only(batch[..n], ids), batch[n], c);
    }
  }

  lemma {:induction false} LastOfWithout(batch: seq<Record>, ids: set<ChunkId>, c: ChunkId)
    ensures LastOf(Without(batch, ids), c) == if c in ids then None else LastOf(batch, c)
  {
    if batch != [] {
      var n := |batch| - 1;
      LastOfWithout(batch[..n], ids, c);
      LastOfNext(Without(batch[..n], ids), batch[n], c);
    }
  }

  lemma {:induction false} Partition(batch: seq<Record>, ids: set<ChunkId>)
    ensures |Only(batch, ids)| + |Without(batch, ids)| == |batch|
  {
    if batch != [] { Partition(batch[..|batch| - 1], ids); }
  }

  /** Landing the failed items after the others is the same as landing the batch at once. */
  lemma RetrySame(batch: seq<Record>, ids: set<ChunkId>)
    ensures Same(Without(batch, ids) + Only(batch, ids), batch)
    ensures |Without(batch, ids)| + |Only(batch, ids)| == |batch|
  {
    forall c ensures LastOf(Without(batch, ids) + Only(batch, ids), c) == LastOf(batch, c) {
      LastOfAppend(Without(batch, ids), Only(batch, ids), c);
      LastOfOnly(batch, ids, c);
      LastOfWithout(batch, ids, c);
    }
    Partition(batch, ids);
  }

  lemma SameAppends(a: seq<Record>, a': seq<Record>, b: seq<Record>, b': seq<Record>)
    requires Same(a, a') && Same(b, b')
    ensures Same(a + b, a' + b')
  {
    forall c ensures LastOf(a + b, c) == LastOf(a' + b', c) {
      LastOfAppend(a, b, c);
      LastOfAppend(a', b', c);
    }
  }

  lemma {:induction false} PutAppends(s: Store, a: seq<Record>, b: seq<Record>)
    ensures Put(Put(s, a), b) == Put(s, a + b)
  {
    if b == [] {
      assert a + b == a;
    } else {
      assert (a + b)[..|a + b| - 1] == a + b[..|b| - 1];
      PutAppends(s, a, b[..|b| - 1]);
    }
  }

  datatype Outcome = Outcome(succeeded: seq<ChunkId>, failed: set<ChunkId>)

  /** A store behind an unreliable wire: each call consumes one fault. */
  class Adapter {
    const index: InMemoryIndexer
    const owner: Owner
    var faults: seq<Fault>

    ghost predicate Valid()
      reads this, index
    {
      index.Valid() && Owned(owner, index.records)
    }

    constructor (index: InMemoryIndexer, owner: Owner, faults: seq<Fault>)
      requires index.Valid() && Owned(owner, index.records)
      ensures Valid() && this.index == index && this.owner == owner && this.faults == faults
    {
      this.index := index;
      this.owner := owner;
      this.faults := faults;
    }

    method NextFault() returns (f: Fault)
      modifies this`faults
      ensures f == FaultAt(old(faults), 0) && faults == Rest(old(faults))
      ensures Causes(faults) <= Causes(old(faults)) && (f.Breaks? ==> f.cause in Causes(old(faults)))
    {
      if faults == [] { return Clean; }
      f := faults[0];
      faults := faults[1..];
    }

    method Upsert(batch: seq<Record>) returns (r: Reply<Outcome>, ghost landed: seq<Record>)
      requires Valid() && OwnedBatch(owner, batch)
      modifies this`faults, index`records, index`byDoc
      ensures Valid() && index.records == Put(old(index.records), landed)
      ensures forall x :: x in landed ==> x in batch
      ensures r.Got? ==>
                && r.value.failed <= IdSet(batch)
                && landed == Without(batch, r.value.failed) && |r.value.succeeded| == |landed|
      ensures faults == Rest(old(faults))
      ensures var f := FaultAt(old(faults), 0);
              if f.Breaks? then r == Broke(f.cause) else r.Got? && r.value.failed == Rejected(f, batch)
      ensures Causes(faults) <= Causes(old(faults)) && (r.Broke? ==> r.cause in Causes(old(faults)))
    {
      var f := NextFault();
      var kept := match f
        case Clean => batch
        case Fails(ids) => Without(batch, ids * IdSet(batch))
        case Breaks(ids, _) => Only(batch, ids);
      forall i | 0 <= i < |kept| ensures kept[i].docId == owner(kept[i].chunkId) {
        assert kept[i] in kept && kept[i] in batch;
      }
      PutAgrees(owner, index.records, index.byDoc, kept);
      var ids := index.Upsert(kept);
      landed := kept;
      if f.Breaks? { return Broke(f.cause), landed; }
      if f.Clean? { WithoutNone(batch); }
      r := Got(Outcome(ids, if f.Fails? then f.ids * IdSet(batch) else {}));
    }

    method GetDocVersion(docId: DocId) returns (r: Reply<VersionLookup>)
      requires Valid()
      modifies this`faults
      ensures r.Got? ==> !r.value.KeyMissing? && (r.value.NoRecords? <==> IdsOf(index.records, docId) == {})
      ensures r.Got? && r.value.Known? ==>
                exists c :: c in IdsOf(index.records, docId) && index.records[c].docVersion == r.value.version
      ensures faults == Rest(old(faults)) && (r.Broke? <==> FaultAt(old(faults), 0).Breaks?)
      ensures Causes(faults) <= Causes(old(faults)) && (r.Broke? ==> r.cause in Causes(old(faults)))
    {
      var f := NextFault();
      if f.Breaks? { return Broke(f.cause); }
      var v := index.GetDocVersion(docId);
      r := Got(v);
    }

    /** A delete that breaks has removed any part of the document. */
    method DeleteByDocId(docId: DocId) returns (r: Reply<nat>, ghost gone: set<ChunkId>)
      requires Valid()
      modifies this`faults, index`records, index`byDoc
      ensures Valid() && index.records == old(index.records) - gone
      ensures gone <= IdsOf(old(index.records), docId)
      ensures r.Got? ==> gone == IdsOf(old(index.records), docId) && r.value == |gone|
      ensures faults == Rest(old(faults)) && (r.Broke? <==> FaultAt(old(faults), 0).Breaks?)
      ensures Causes(faults) <= Causes(old(faults)) && (r.Broke? ==> r.cause in Causes(old(faults)))
    {
      var f := NextFault();
      if f.Breaks? {
        PartialDeleteAgrees(index.records, index.byDoc, docId, f.ids);
        gone := IdsOf(index.records, docId) * f.ids;
        assert Listed(index.byDoc, docId) == IdsOf(index.records, docId);
        var ids := Listed(index.byDoc, docId) * f.ids;
        index.byDoc := index.byDoc[docId := Listed(index.byDoc, docId) - f.ids];
        index.records := index.records - ids;
        return Broke(f.cause), gone;
      }
      gone := IdsOf(index.records, docId);
      var count := index.DeleteByDocId(docId);
      r := Got(count);
    }
  }

  lemma SmoothRest(faults: seq<Fault>)
    ensures Smooth(faults) ==> Smooth(Rest(faults)) && !FaultAt(faults, 0).Breaks?
    ensures Rest(faults) == [] ==> FaultAt(faults, 1) == Clean
    ensures FaultAt(Rest(faults), 0) == FaultAt(faults, 1)
    ensures Smooth(faults) && FaultAt(faults, 0).Fails? && FaultAt(faults, 1).Fails? ==>
              FaultAt(faults, 0).ids * FaultAt(faults, 1).ids == {}
  {
  }

  lemma {:induction false} OnlyIds(batch: seq<Record>, ids: set<ChunkId>)
    ensures IdSet(Only(batch, ids)) == IdSet(batch) * ids
  {
    forall c ensures c in IdSet(Only(batch, ids)) <==> c in IdSet(batch) * ids {
      if c in IdSet(batch) * ids {
        var r :| r in batch && r.chunkId == c;
        assert r in Only(batch, ids);
      }
    }
  }

  /** The second pass meets the second fault, and fails on what both faults reject. */
  lemma RetryFaults(faults: seq<Fault>, batch: seq<Record>)
    ensures FaultAt(Rest(faults), 0) == FaultAt(faults, 1)
    ensures var f, g := FaultAt(faults, 0), FaultAt(faults, 1);
            && Rejected(g, Only(batch, Rejected(f, batch))) == Rejected(f, batch) * Rejected(g, batch)
            && (Smooth(faults) ==> !f.Breaks? && !g.Breaks? && Rejected(f, batch) * Rejected(g, batch) == {})
    ensures Smooth(faults) ==> Smooth(Rest(faults)) && Smooth(Rest(Rest(faults)))
  {
    SmoothRest(faults);
    SmoothRest(Rest(faults));
    OnlyIds(batch, Rejected(FaultAt(faults, 0), batch));
  }

  lemma OnlyOwned(owner: Owner, batch: seq<Record>, ids: set<ChunkId>)
    requires OwnedBatch(owner, batch)
    ensures OwnedBatch(owner, Only(batch, ids))
  {
    var kept := Only(batch, ids);
    forall i | 0 <= i < |kept| ensures kept[i].docId == owner(kept[i].chunkId) {
      assert kept[i] in kept && kept[i] in batch;
    }
  }

  lemma {:induction false} WithoutNone(batch: seq<Record>)
    ensures Without(batch, {}) == batch
  {
    if batch != [] { WithoutNone(batch[..|batch| - 1]); }
  }

  lemma PartialDeleteAgrees(s: Store, b: ByDoc, d: DocId, ids: set<ChunkId>)
    requires Agrees(s, b)
    ensures Agrees(s - IdsOf(s, d) * ids, b[d := Listed(b, d) - ids])
  {
    var s', b' := s - IdsOf(s, d) * ids, b[d := Listed(b, d) - ids];
    forall e ensures Listed(b', e) == IdsOf(s', e) {
      assert Listed(b, e) == IdsOf(s, e);
      assert IdsOf(s', e) == if e == d then IdsOf(s, e) - ids else IdsOf(s, e);
    }
  }

  // ---- the orchestrator ----

  function Min(a: nat, b: nat): nat { if a < b then a else b }

  /** `_batched`: consecutive slices of at most `size` that concatenate to the input. */
  method Batched<T>(items: seq<T>, size: nat) returns (batches: seq<seq<T>>)
    requires size > 0
    ensures Flatten(batches) == items
    ensures forall i :: 0 <= i < |batches| ==> 0 < |batches[i]| <= size && (i < |batches| - 1 ==> |batches[i]| == size)
  {
    batches := [];
    var start := 0;
    while start < |items|
      invariant 0 <= start && Flatten(batches) == items[..Min(start, |items|)]
      invariant forall i :: 0 <= i < |batches| ==> 0 < |batches[i]| <= size && (i < |batches| - 1 ==> |batches[i]| == size)
      invariant start <= |items| ==> forall i :: 0 <= i < |batches| ==> |batches[i]| == size
      decreases |items| - start
    {
      var batch := items[start..Min(start + size, |items|)];
      assert (batches + [batch])[..|batches|] == batches;
      batches := batches + [batch];
      start := start + size;
    }
  }

  function Flatten<T>(xs: seq<seq<T>>): seq<T> {
    if xs == [] then [] else Flatten(xs[..|xs| - 1]) + xs[|xs| - 1]
  }

  datatype Receipt = Receipt(upserted: nat, deleted: nat)

  /** What one attempt did to the store, whether or not it got through. `seen` is the version it
      read, `gone` what it deleted, `landed` what it wrote. */
  datatype Attempt = Attempt(
    docId: DocId,
    records: seq<Record>,
    version: Version,
    purge: bool,
    seen: Option<Version>,
    gone: set<ChunkId>,
    landed: seq<Record>,
    done: bool)

  predicate Stale(a: Attempt) { a.purge && a.seen.Some? && a.seen.value != a.version }

  ghost predicate Sees(s: Store, d: DocId, seen: Option<Version>) {
    && (seen.None? <==> IdsOf(s, d) == {})
    && (seen.Some? ==> exists c :: c in IdsOf(s, d) && s[c].docVersion == seen.value)
  }

  ghost predicate AllOf(records: seq<Record>, d: DocId, v: Version) {
    forall x :: x in records ==> x.docId == d && x.docVersion == v
  }

  /** The effect an attempt may have. */
  ghost predicate Explains(a: Attempt, s: Store, s': Store) {
    && AllOf(a.records, a.docId, a.version)
    && s' == Put(s - a.gone, a.landed)
    && Sees(s, a.docId, a.seen)
    && a.gone <= IdsOf(s, a.docId)
    && (forall x :: x in a.landed ==> x in a.records)
    && (a.gone != {} ==> Stale(a))
    && (Stale(a) && (a.landed != [] || a.done) ==> a.gone == IdsOf(s, a.docId))
    && (a.done ==> Same(a.landed, a.records))
  }

  class Indexer {
    const adapter: Adapter
    const batchSize: nat
    const purge: bool

    constructor (adapter: Adapter, batchSize: nat, purge: bool)
      requires batchSize > 0
      ensures this.adapter == adapter && this.batchSize == batchSize && this.purge == purge
    {
      this.adapter := adapter;
      this.batchSize := batchSize;
      this.purge := purge;
    }

    /** One batch, and one more try for the items that failed. */
    method UpsertBatchWithRetry(batch: seq<Record>) returns (r: Reply<nat>, ghost landed: seq<Record>)
      requires adapter.Valid() && OwnedBatch(adapter.owner, batch)
      modifies adapter`faults, adapter.index`records, adapter.index`byDoc
      ensures adapter.Valid() && adapter.index.records == Put(old(adapter.index.records), landed)
      ensures forall x :: x in landed ==> x in batch
      ensures r.Got? ==> Same(landed, batch) && r.value == |batch|
      ensures var f, g := FaultAt(old(adapter.faults), 0), FaultAt(old(adapter.faults), 1);
              && (f.Breaks? ==> r == Broke(f.cause))
              && (!f.Breaks? && Rejected(f, batch) == {} ==> r == Got(|batch|))
              && (!f.Breaks? && Rejected(f, batch) != {} && g.Breaks? ==> r == Broke(g.cause))
              && (!f.Breaks? && !g.Breaks? && Rejected(f, batch) * Rejected(g, batch) == {} ==> r == Got(|batch|))
              && (!f.Breaks? && !g.Breaks? && Rejected(f, batch) * Rejected(g, batch) != {} ==> r == Broke(PARTIAL))
      ensures Smooth(old(adapter.faults)) ==> r.Got? && Smooth(adapter.faults)
      ensures Causes(adapter.faults) <= Causes(old(adapter.faults))
      ensures r.Broke? ==> r.cause == PARTIAL || r.cause in Causes(old(adapter.faults))
    {
      RetryFaults(adapter.faults, batch);
      var first, a := adapter.Upsert(batch);
      landed := a;
      if first.Broke? { return Broke(first.cause), landed; }
      var failed := first.value.failed;
      RetrySame(batch, failed);
      if failed == {} {
        WithoutNone(batch);
        return Got(|first.value.succeeded|), landed;
      }
      var second, b := RetryFailed(batch, failed);
      landed := a + b;
      PutAppends(old(adapter.index.records), a, b);
      if second.Broke? { return Broke(second.cause), landed; }
      r := Got(|first.value.succeeded| + second.value);
    }

    /** The second pass over a batch, with the failed items alone. */
    method RetryFailed(batch: seq<Record>, failed: set<ChunkId>) returns (r: Reply<nat>, ghost landed: seq<Record>)
      requires adapter.Valid() && OwnedBatch(adapter.owner, batch)
      modifies adapter`faults, adapter.index`records, adapter.index`byDoc
      ensures adapter.Valid() && adapter.index.records == Put(old(adapter.index.records), landed)
      ensures forall x :: x in landed ==> x in batch
      ensures r.Got? ==> landed == Only(batch, failed) && r.value == |landed|
      ensures var g := FaultAt(old(adapter.faults), 0);
              r == if g.Breaks? then Broke(g.cause)
                   else if Rejected(g, Only(batch, failed)) == {} then Got(|Only(batch, failed)|) else Broke(PARTIAL)
      ensures adapter.faults == Rest(old(adapter.faults)) && Causes(adapter.faults) <= Causes(old(adapter.faults))
      ensures r.Broke? ==> r.cause == PARTIAL || r.cause in Causes(old(adapter.faults))
    {
      var again := Only(batch, failed);
      OnlyOwned(adapter.owner, batch, failed);
      var second, b := adapter.Upsert(again);
      landed := b;
      if second.Broke? { return Broke(second.cause), landed; }
      if second.value.failed != {} { return Broke(PARTIAL), landed; }
      WithoutNone(again);
      r := Got(|second.value.succeeded|);
    }

    method MaybeDeleteStale(docId: DocId, version: Version) returns (r: Reply<nat>, ghost seen: Option<Version>, ghost gone: set<ChunkId>)
      requires adapter.Valid()
      modifies adapter`faults, adapter.index`records, adapter.index`byDoc
      ensures adapter.Valid() && adapter.index.records == old(adapter.index.records) - gone
      ensures gone <= IdsOf(old(adapter.index.records), docId) && Sees(old(adapter.index.records), docId, seen)
      ensures gone != {} ==> purge && seen.Some? && seen.value != version
      ensures r.Got? && purge && seen.Some? && seen.value != version ==> gone == IdsOf(old(adapter.index.records), docId)
      ensures r.Got? ==> r.value == |gone|
      ensures Smooth(old(adapter.faults)) ==> r.Got? && Smooth(adapter.faults)
      ensures Causes(adapter.faults) <= Causes(old(adapter.faults))
      ensures r.Broke? ==> r.cause in Causes(old(adapter.faults))
    {
      SmoothRest(adapter.faults);
      SmoothRest(Rest(adapter.faults));
      gone := {};
      seen := AnyVersion(adapter.index.records, docId);
      if !purge { return Got(0), seen, gone; }
      var existing := adapter.GetDocVersion(docId);
      if existing.Broke? { return Broke(existing.cause), seen, gone; }
      if existing.value.Known? {
        seen := Some(existing.value.version);
        if existing.value.version != version {
          r, gone := adapter.DeleteByDocId(docId);
          return r, seen, gone;
        }
      }
      r := Got(0);
    }

    /** One attempt: whatever fails on the way, its effect is one an `Attempt` explains, and the
        receipt counts every record. */
    method UpsertAll(docId: DocId, records: seq<Record>) returns (r: Reply<Receipt>, ghost a: Attempt)
      requires adapter.Valid() && OwnedBatch(adapter.owner, records) && batchSize > 0
      requires records != [] && AllOf(records, docId, records[0].docVersion)
      modifies adapter`faults, adapter.index`records, adapter.index`byDoc
      ensures adapter.Valid() && Explains(a, old(adapter.index.records), adapter.index.records)
      ensures a.docId == docId && a.records == records && a.version == records[0].docVersion && a.purge == purge
      ensures a.done <==> r.Got?
      ensures r.Got? ==> r.value.upserted == |records| && r.value.deleted == |a.gone|
      ensures Smooth(old(adapter.faults)) ==> r.Got?
      ensures r.Broke? ==> r.cause == PARTIAL || r.cause in Causes(old(adapter.faults))
    {
      var version := records[0].docVersion;
      var deleted, seen, gone := MaybeDeleteStale(docId, version);
      ghost var base := adapter.index.records;
      a := Attempt(docId, records, version, purge, seen, gone, [], false);
      if deleted.Broke? { return Broke(deleted.cause), a; }
      var batches := Batched(records, batchSize);
      var count := 0;
      ghost var landed: seq<Record> := [];
      for i := 0 to |batches|
        invariant adapter.Valid() && adapter.index.records == Put(base, landed)
        invariant forall x :: x in landed ==> x in records
        invariant Same(landed, Flatten(batches[..i])) && count == |Flatten(batches[..i])|
        invariant Causes(adapter.faults) <= Causes(old(adapter.faults))
        invariant Smooth(old(adapter.faults)) ==> Smooth(adapter.faults)
      {
        BatchIsPart(batches, i);
        assert batches[..i + 1][..i] == batches[..i];
        forall k | 0 <= k < |batches[i]| ensures batches[i][k].docId == adapter.owner(batches[i][k].chunkId) {
          assert batches[i][k] in records;
        }
        var n, more := UpsertBatchWithRetry(batches[i]);
        PutAppends(base, landed, more);
        if n.Broke? {
          a := a.(landed := landed + more);
          return Broke(n.cause), a;
        }
        SameAppends(landed, Flatten(batches[..i]), more, batches[i]);
        landed := landed + more;
        count := count + n.value;
      }
      assert batches[..|batches|] == batches;
      a := a.(landed := landed, done := true);
      r := Got(Receipt(count, deleted.value));
    }
  }

  ghost function AnyVersion(s: Store, d: DocId): (v: Option<Version>)
    ensures Sees(s, d, v)
  {
    if IdsOf(s, d) == {} then None else var c :| c in IdsOf(s, d); Some(s[c].docVersion)
  }

  lemma {:induction false} BatchIsPart<T>(batches: seq<seq<T>>, i: nat)
    requires i < |batches|
    ensures forall x :: x in batches[i] ==> x in Flatten(batches)
  {
    if i < |batches| - 1 {
      BatchIsPart(batches[..|batches| - 1], i);
    }
  }
}
