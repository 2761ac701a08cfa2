/** `Indexer.index` as a whole: validation, the store, and the ledger, over any redeliveries. */
module IndexStage {
  import opened Options
  import opened Ledger
  import opened Stages
  import opened VectorStore
  import opened Indexing
  import opened Convergence

  /** Everything stored for the document is exactly the target's ids at the target version, each
      record taken from one of the deliveries. */
  ghost predicate Complete(store: Store, d: DocId, v: Version, ids: set<ChunkId>, lists: seq<seq<Record>>) {
    && IdsOf(store, d) == ids
    && forall c :: c in ids ==> store[c].docVersion == v && Delivered(lists, store[c])
  }

  ghost predicate Delivered(lists: seq<seq<Record>>, x: Record) { exists i :: 0 <= i < |lists| && x in lists[i] }

  lemma DeliveredGrows(lists: seq<seq<Record>>, more: seq<Record>, x: Record)
    ensures Delivered(lists, x) ==> Delivered(lists + [more], x)
    ensures x in more ==> Delivered(lists + [more], x)
  {
    if Delivered(lists, x) {
      var i :| 0 <= i < |lists| && x in lists[i];
      assert (lists + [more])[i] == lists[i];
    }
    assert (lists + [more])[|lists|] == more;
  }

  /** A success completes a prepared document. */
  lemma SuccessCompletes(a: Attempt, s: Store, s': Store, ids: set<ChunkId>, lists: seq<seq<Record>>)
    requires Explains(a, s, s') && a.done && a.purge && IdSet(a.records) == ids
    requires Prepared(s, a.docId, a.version, ids)
    ensures Complete(s', a.docId, a.version, ids, lists + [a.records])
  {
    SuccessIsExact(a, s, s');
    var wanted := Put(map[], a.records);
    forall c
      ensures c in IdsOf(s', a.docId) <==> c in ids
      ensures c in ids ==> s'[c].docVersion == a.version && s'[c] in a.records
    {
      PutLookup(map[], a.records, c);
      LastOfMembers(a.records, c);
      assert c in Part(s', a.docId) <==> c in wanted;
      assert c in wanted ==> Part(s', a.docId)[c] == wanted[c];
    }
    forall c | c in ids ensures Delivered(lists + [a.records], s'[c]) {
      DeliveredGrows(lists, a.records, s'[c]);
    }
  }

  /** No redelivery of the same version and ids damages a complete document, however it breaks. */
  lemma CompleteSurvives(a: Attempt, s: Store, s': Store, ids: set<ChunkId>, lists: seq<seq<Record>>)
    requires Explains(a, s, s') && IdSet(a.records) == ids && ids != {}
    requires Complete(s, a.docId, a.version, ids, lists)
    ensures Complete(s', a.docId, a.version, ids, lists + [a.records])
  {
    assert !Stale(a);
    forall c
      ensures c in IdsOf(s', a.docId) <==> c in ids
      ensures c in ids ==> s'[c].docVersion == a.version && Delivered(lists + [a.records], s'[c])
    {
      AttemptLookup(a, s, s', c);
      if c in ids {
        DeliveredGrows(lists, a.records, s'[c]);
      }
    }
  }

  lemma CompleteKeeps(s: Store, s': Store, d: DocId, v: Version, ids: set<ChunkId>, lists: seq<seq<Record>>, more: seq<Record>)
    requires Complete(s, d, v, ids, lists) && s' == s
    ensures Complete(s', d, v, ids, lists + [more])
  {
    forall c | c in ids ensures Delivered(lists + [more], s'[c]) { DeliveredGrows(lists, more, s'[c]); }
  }

  class IndexWorker {
    const worker: StageWorker
    const indexer: Indexer
    const dimensions: int

    ghost predicate Valid()
      reads this, worker, worker.ledger, indexer, indexer.adapter, indexer.adapter.index
    {
      && worker.profile == INDEXER && worker.ledger.Valid()
      && indexer.adapter.Valid() && indexer.batchSize > 0 && indexer.purge
    }

    constructor (worker: StageWorker, indexer: Indexer, dimensions: int)
      requires worker.profile == INDEXER && worker.ledger.Valid()
      requires indexer.adapter.Valid() && indexer.batchSize > 0 && indexer.purge
      ensures Valid() && this.worker == worker && this.indexer == indexer && this.dimensions == dimensions
    {
      this.worker := worker;
      this.indexer := indexer;
      this.dimensions := dimensions;
    }

    /** One model, the configured dimensions, and something to index. */
    predicate Acceptable(records: seq<Record>) {
      && records != []
      && forall i :: 0 <= i < |records| ==>
           records[i].embeddingModel == records[0].embeddingModel && records[i].embeddingDimensions == dimensions
    }

    /** The code a batch is refused with: nothing to index, then more than one model, then other
        dimensions. */
    ghost predicate Condemned(records: seq<Record>, code: Code) {
      if records == [] then code == IndexerEmptyRecords
      else if exists i :: 0 <= i < |records| && records[i].embeddingModel != records[0].embeddingModel then code == IndexerMixedModelBatch
      else code == IndexerDimensionMismatch && exists i :: 0 <= i < |records| && records[i].embeddingDimensions != dimensions
    }

    /** What is wrong with a batch, in the order the checks are made. */
    method Validate(records: seq<Record>) returns (r: Option<Code>)
      ensures r == Some(IndexerEmptyRecords) <==> records == []
      ensures r == Some(IndexerMixedModelBatch) <==>
                exists i, j :: 0 <= i < |records| && 0 <= j < |records| && records[i].embeddingModel != records[j].embeddingModel
      ensures r == Some(IndexerDimensionMismatch) <==>
                && (forall i, j :: 0 <= i < |records| && 0 <= j < |records| ==> records[i].embeddingModel == records[j].embeddingModel)
                && exists i :: 0 <= i < |records| && records[i].embeddingDimensions != dimensions
      ensures r in {None, Some(IndexerEmptyRecords), Some(IndexerMixedModelBatch), Some(IndexerDimensionMismatch)}
      ensures r.None? <==> Acceptable(records)
      ensures r.Some? ==> Condemned(records, r.value)
    {
      if records == [] { return Some(IndexerEmptyRecords); }
      for i := 0 to |records|
        invariant forall k :: 0 <= k < i ==> records[k].embeddingModel == records[0].embeddingModel
      {
        if records[i].embeddingModel != records[0].embeddingModel { return Some(IndexerMixedModelBatch); }
      }
      for i := 0 to |records|
        invariant forall k :: 0 <= k < i ==> records[k].embeddingDimensions == dimensions
      {
        if records[i].embeddingDimensions != dimensions { return Some(IndexerDimensionMismatch); }
      }
      r := None;
    }

    /** One delivery. Refused input never reaches the store; otherwise the store sees one attempt,
        and the row at the stage becomes indexed exactly when that attempt got through. */
    method Index(docId: string, version: Version, records: seq<Record>, reason: string, now: Time)
      returns (r: Result, ghost attempt: Option<Attempt>)
      requires Valid() && OwnedBatch(indexer.adapter.owner, records) && AllOf(records, DocId(docId), version)
      modifies worker.ledger`rows, indexer.adapter`faults, indexer.adapter.index`records, indexer.adapter.index`byDoc
      ensures Valid()
      ensures attempt.None? ==> indexer.adapter.index.records == old(indexer.adapter.index.records)
      ensures attempt.Some? ==>
                && Explains(attempt.value, old(indexer.adapter.index.records), indexer.adapter.index.records)
                && attempt.value.docId == DocId(docId) && attempt.value.version == version
                && attempt.value.records == records && attempt.value.purge
      ensures forall k :: k in old(worker.ledger.rows) ==> k in worker.ledger.rows
      ensures forall k :: k in old(worker.ledger.rows) && k != docId ==> worker.ledger.rows[k] == old(worker.ledger.rows)[k]
      ensures IsHexId(docId) && docId in old(worker.ledger.rows) ==>
                RowAfter(old(worker.ledger.rows)[docId].status, worker.ledger.rows[docId].status, attempt)
      ensures Smooth(old(indexer.adapter.faults)) && Acceptable(records) && IsHexId(docId)
              && docId in old(worker.ledger.rows) && old(worker.ledger.rows)[docId].status == Indexing ==>
                r == Delivered && worker.ledger.rows[docId].status == Indexed
      ensures attempt.None? <==> !Acceptable(records)
      ensures IsHexId(docId) && docId in old(worker.ledger.rows) && old(worker.ledger.rows)[docId].status == Indexing ==>
                && (r == Delivered <==> attempt.Some? && attempt.value.done)
                && (r != Delivered ==> r.Raised?)
                && (attempt.None? ==> Condemned(records, r.code))
                && (attempt.Some? && r.Raised? ==>
                      r.code in {IndexerPartialBatchFailure, IndexerInternal} || Some(r.code) in Causes(old(indexer.adapter.faults)))
    {
      var work;
      work, attempt := TryIndex(docId, version, records);
      r := Report(docId, work, reason, now);
    }

    /** The delivery's one write to the ledger. */
    method Report(docId: string, work: Work, reason: string, now: Time) returns (r: Result)
      requires worker.profile == INDEXER && worker.ledger.Valid() && (work.Refuses? ==> work.code in INDEXER.preflight)
      modifies worker.ledger`rows
      ensures worker.ledger.Valid()
      ensures forall k :: k in old(worker.ledger.rows) ==> k in worker.ledger.rows
      ensures forall k :: k in old(worker.ledger.rows) && k != docId ==> worker.ledger.rows[k] == old(worker.ledger.rows)[k]
      ensures IsHexId(docId) && docId in old(worker.ledger.rows) ==>
                && (old(worker.ledger.rows)[docId].status == Indexing ==> Answers(INDEXER, work, worker.ledger.rows[docId].status, r))
                && (old(worker.ledger.rows)[docId].status in {Indexed, Failed, Archived} ==>
                      worker.ledger.rows[docId].status == old(worker.ledger.rows)[docId].status)
    {
      if IsHexId(docId) && docId in worker.ledger.rows {
        RowMoves(worker.names, worker.ledger.rows[docId], work, reason, now);
      }
      r := worker.Deliver(docId, work, reason, now);
    }

    /** The work of a delivery: what it came to, and what it did to the store. */
    method TryIndex(docId: string, version: Version, records: seq<Record>) returns (work: Work, ghost attempt: Option<Attempt>)
      requires Valid() && OwnedBatch(indexer.adapter.owner, records) && AllOf(records, DocId(docId), version)
      modifies indexer.adapter`faults, indexer.adapter.index`records, indexer.adapter.index`byDoc
      ensures indexer.adapter.Valid()
      ensures work.Refuses? <==> attempt.None?
      ensures work.Refuses? ==> work.code in INDEXER.preflight && Condemned(records, work.code)
      ensures work.Delivers? <==> attempt.Some? && attempt.value.done
      ensures work.Crashes? ==> None in Causes(old(indexer.adapter.faults))
      ensures work.Fails? ==> Some(work.code) == PARTIAL || Some(work.code) in Causes(old(indexer.adapter.faults))
      ensures work.Refuses? <==> !Acceptable(records)
      ensures Smooth(old(indexer.adapter.faults)) && Acceptable(records) ==> work.Delivers?
      ensures attempt.None? ==> indexer.adapter.index.records == old(indexer.adapter.index.records)
      ensures attempt.Some? ==>
                && Explains(attempt.value, old(indexer.adapter.index.records), indexer.adapter.index.records)
                && attempt.value.docId == DocId(docId) && attempt.value.version == version
                && attempt.value.records == records && attempt.value.purge
    {
      attempt := None;
      var bad := Validate(records);
      if bad.Some? { return Refuses(bad.value), attempt; }
      assert records[0] in records;
      var reply, a := indexer.UpsertAll(DocId(docId), records);
      attempt := Some(a);
      work := match reply
        case Got(_) => Work.Delivers
        case Broke(None) => Crashes
        case Broke(Some(code)) => Work.Fails(code);
    }

    /** The `i`th delivery of the document. */
    method IndexAgain(docId: string, version: Version, ghost ids: set<ChunkId>, lists: seq<seq<Record>>, i: nat, reason: string, now: Time)
      requires Valid() && IsHexId(docId) && docId in worker.ledger.rows && worker.ledger.rows[docId].status in {Indexing, Indexed, Failed}
      requires ids != {} && Prepared(indexer.adapter.index.records, DocId(docId), version, ids)
      requires i < |lists| && OwnedBatch(indexer.adapter.owner, lists[i]) && AllOf(lists[i], DocId(docId), version) && IdSet(lists[i]) == ids
      requires worker.ledger.rows[docId].status == Indexed ==>
                 Complete(indexer.adapter.index.records, DocId(docId), version, ids, lists[..i])
      modifies worker.ledger`rows, indexer.adapter`faults, indexer.adapter.index`records, indexer.adapter.index`byDoc
      ensures Valid() && docId in worker.ledger.rows && worker.ledger.rows[docId].status in {Indexing, Indexed, Failed}
      ensures Prepared(indexer.adapter.index.records, DocId(docId), version, ids)
      ensures worker.ledger.rows[docId].status == Indexed ==>
                Complete(indexer.adapter.index.records, DocId(docId), version, ids, lists[..i + 1])
      ensures forall e :: e != DocId(docId) ==> Part(indexer.adapter.index.records, e) == Part(old(indexer.adapter.index.records), e)
      ensures old(worker.ledger.rows)[docId].status != Indexing ==>
                worker.ledger.rows[docId].status == old(worker.ledger.rows)[docId].status
      ensures old(worker.ledger.rows)[docId].status == Indexing && Smooth(old(indexer.adapter.faults)) && Acceptable(lists[i]) ==>
                worker.ledger.rows[docId].status == Indexed
    {
      ghost var s := indexer.adapter.index.records;
      ghost var status := worker.ledger.rows[docId].status;
      var r, attempt := Index(docId, version, lists[i], reason, now);
      assert lists[..i + 1] == lists[..i] + [lists[i]];
      Deliveries(indexer.adapter.owner, s, indexer.adapter.index.records, DocId(docId), version, ids, lists[..i], lists[i], attempt, status,
                 worker.ledger.rows[docId].status);
    }

    /** Any number of deliveries of one document at one version, broken anywhere. */
    method IndexAll(docId: string, version: Version, ids: set<ChunkId>, lists: seq<seq<Record>>, reason: string, now: Time)
      requires Valid() && IsHexId(docId) && docId in worker.ledger.rows && worker.ledger.rows[docId].status == Indexing
      requires ids != {} && Prepared(indexer.adapter.index.records, DocId(docId), version, ids)
      requires forall i :: 0 <= i < |lists| ==>
                 && OwnedBatch(indexer.adapter.owner, lists[i]) && AllOf(lists[i], DocId(docId), version)
                 && IdSet(lists[i]) == ids
      modifies worker.ledger`rows, indexer.adapter`faults, indexer.adapter.index`records, indexer.adapter.index`byDoc
      ensures Valid() && docId in worker.ledger.rows
      ensures worker.ledger.rows[docId].status in {Indexing, Indexed, Failed}
      ensures worker.ledger.rows[docId].status == Indexed ==>
                Complete(indexer.adapter.index.records, DocId(docId), version, ids, lists)
      ensures forall e :: e != DocId(docId) ==> Part(indexer.adapter.index.records, e) == Part(old(indexer.adapter.index.records), e)
      ensures lists != [] && Smooth(old(indexer.adapter.faults)) && Acceptable(lists[0]) ==> worker.ledger.rows[docId].status == Indexed
    {
      var d := DocId(docId);
      ghost var smooth := lists != [] && Smooth(indexer.adapter.faults) && Acceptable(lists[0]);
      ghost var start := indexer.adapter.index.records;
      for i := 0 to |lists|
        invariant Valid() && docId in worker.ledger.rows
        invariant worker.ledger.rows[docId].status in {Indexing, Indexed, Failed}
        invariant Prepared(indexer.adapter.index.records, d, version, ids)
        invariant worker.ledger.rows[docId].status == Indexed ==>
                    Complete(indexer.adapter.index.records, d, version, ids, lists[..i])
        invariant forall e :: e != d ==> Part(indexer.adapter.index.records, e) == Part(start, e)
        invariant i == 0 ==> worker.ledger.rows[docId].status == Indexing && indexer.adapter.faults == old(indexer.adapter.faults)
        invariant i > 0 && smooth ==> worker.ledger.rows[docId].status == Indexed
      {
        IndexAgain(docId, version, ids, lists, i, reason, now);
      }
      assert lists[..|lists|] == lists;
    }
  }

  /** How one delivery moves the row: from the stage to indexed exactly on success, from indexed
      and failed nowhere. */
  ghost predicate RowAfter(before: Status, after: Status, attempt: Option<Attempt>) {
    && (before == Indexing ==>
          && after in {Indexing, Indexed, Failed}
          && (after == Indexed <==> attempt.Some? && attempt.value.done))
    && (before in {Indexed, Failed, Archived} ==> after == before)
  }

  lemma RowMoves(names: Names, row: Row, work: Work, reason: string, now: Time)
    requires row.stage == row.status && (work.Refuses? ==> work.code in INDEXER.preflight)
    ensures var req := RequestFor(names, INDEXER, Route(INDEXER, work), reason);
            && (row.status == Indexing ==>
                  && Accepts(row, req) && req.to in {Indexing, Indexed, Failed} && (req.to == Indexed <==> work.Delivers?))
            && (row.status in {Indexed, Failed, Archived} ==> !Accepts(row, req))
  {
  }

  /** One more delivery keeps the store prepared, and complete once the row is indexed. */
  lemma Deliveries(owner: Owner, s: Store, s': Store, d: DocId, v: Version, ids: set<ChunkId>, lists: seq<seq<Record>>,
                   records: seq<Record>, attempt: Option<Attempt>, before: Status, after: Status)
    requires ids != {} && Prepared(s, d, v, ids) && Owned(owner, s) && OwnedBatch(owner, records) && IdSet(records) == ids
    requires attempt.None? ==> s' == s
    requires attempt.Some? ==>
               && Explains(attempt.value, s, s') && attempt.value.docId == d && attempt.value.version == v
               && attempt.value.records == records && attempt.value.purge
    requires before in {Indexing, Indexed, Failed} && RowAfter(before, after, attempt)
    requires before == Indexed ==> Complete(s, d, v, ids, lists)
    ensures Prepared(s', d, v, ids)
    ensures after == Indexed ==> Complete(s', d, v, ids, lists + [records])
    ensures forall e :: e != d ==> Part(s', e) == Part(s, e)
  {
    if attempt.None? {
      if before == Indexed { CompleteKeeps(s, s', d, v, ids, lists, records); }
    } else {
      var a := attempt.value;
      forall x | x in a.records ensures x.docId == owner(x.chunkId) {
        var i :| 0 <= i < |records| && records[i] == x;
      }
      PreparedKept(owner, a, s, s', d, v, ids);
      forall e | e != d ensures Part(s', e) == Part(s, e) { OthersUntouched(owner, a, s, s', e); }
      if before == Indexed {
        CompleteSurvives(a, s, s', ids, lists);
      } else if after == Indexed {
        SuccessCompletes(a, s, s', ids, lists);
      }
    }
  }
}
