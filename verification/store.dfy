/** The in-memory vector store: records by chunk id and a secondary index by document. */
module VectorStore {
  import opened Options

  datatype ChunkId = ChunkId(hash: string)
  datatype DocId = DocId(hash: string)
  datatype Version = Version(hash: string)

  datatype Record = Record(
    chunkId: ChunkId,
    docId: DocId,
    docVersion: Version,
    vector: seq<real>,
    text: string,
    position: nat,
    sectionPath: Option<string>,
    elementTypes: seq<string>,
    strategy: string,
    allowedGroups: seq<string>,
    trustTier: string,
    embeddingModel: string,
    embeddingDimensions: int,
    configVersion: string,
    indexedAt: int)

  type Store = map<ChunkId, Record>
  type ByDoc = map<DocId, set<ChunkId>>

  // ---- upserts as values ----

  function Put(s: Store, batch: seq<Record>): Store {
    if batch == [] then s
    else
      var n := |batch| - 1;
      Put(s, batch[..n])[batch[n].chunkId := batch[n]]
  }

  function Note(b: ByDoc, r: Record): ByDoc {
    b[r.docId := (if r.docId in b then b[r.docId] else {}) + {r.chunkId}]
  }

  function NoteAll(b: ByDoc, batch: seq<Record>): ByDoc {
    if batch == [] then b else Note(NoteAll(b, batch[..|batch| - 1]), batch[|batch| - 1])
  }

  /** The record a batch leaves under an id. */
  function LastOf(batch: seq<Record>, c: ChunkId): (r: Option<Record>)
    ensures r.Some? ==> r.value in batch && r.value.chunkId == c
  {
    if batch == [] then None
    else
      var n := |batch| - 1;
      if batch[n].chunkId == c then Some(batch[n]) else LastOf(batch[..n], c)
  }

  lemma {:induction false} PutLookup(s: Store, batch: seq<Record>, c: ChunkId)
    ensures c in Put(s, batch) <==> c in s || LastOf(batch, c).Some?
    ensures c in Put(s, batch) ==>
              Put(s, batch)[c] == if LastOf(batch, c).Some? then LastOf(batch, c).value else s[c]
  {
    if batch != [] { PutLookup(s, batch[..|batch| - 1], c); }
  }

  // ---- the secondary index ----

  function IdsOf(s: Store, d: DocId): set<ChunkId> { set c | c in s && s[c].docId == d }

  function Listed(b: ByDoc, d: DocId): set<ChunkId> { if d in b then b[d] else {} }

  ghost predicate Keyed(s: Store) { forall c :: c in s ==> s[c].chunkId == c }

  ghost predicate Agrees(s: Store, b: ByDoc) {
    Keyed(s) && forall d :: Listed(b, d) == IdsOf(s, d)
  }

  /** A chunk id belongs to one document: ids are derived from the document's own. */
  type Owner = ChunkId -> DocId

  ghost predicate Owned(owner: Owner, s: Store) { forall c :: c in s ==> s[c].docId == owner(c) }

  ghost predicate OwnedBatch(owner: Owner, batch: seq<Record>) {
    forall i :: 0 <= i < |batch| ==> batch[i].docId == owner(batch[i].chunkId)
  }

  /** One upsert keeps the two maps in agreement exactly when it does not take an id over
      from another document. */
  lemma PutOneAgreesIff(s: Store, b: ByDoc, r: Record)
    requires Agrees(s, b)
    ensures Agrees(s[r.chunkId := r], Note(b, r)) <==> (r.chunkId in s ==> s[r.chunkId].docId == r.docId)
  {
    var s', b' := s[r.chunkId := r], Note(b, r);
    if r.chunkId in s && s[r.chunkId].docId != r.docId {
      var d := s[r.chunkId].docId;
      assert Listed(b', d) == Listed(b, d) == IdsOf(s, d);
      assert r.chunkId in Listed(b', d) && r.chunkId !in IdsOf(s', d);
    } else {
      forall d ensures Listed(b', d) == IdsOf(s', d) {
        assert Listed(b, d) == IdsOf(s, d);
        assert IdsOf(s', d) == if d == r.docId then IdsOf(s, d) + {r.chunkId} else IdsOf(s, d);
      }
    }
  }

  lemma {:induction false} PutAgrees(owner: Owner, s: Store, b: ByDoc, batch: seq<Record>)
    requires Agrees(s, b) && Owned(owner, s) && OwnedBatch(owner, batch)
    ensures Agrees(Put(s, batch), NoteAll(b, batch)) && Owned(owner, Put(s, batch))
  {
    if batch != [] {
      var n := |batch| - 1;
      PutAgrees(owner, s, b, batch[..n]);
      PutOneAgreesIff(Put(s, batch[..n]), NoteAll(b, batch[..n]), batch[n]);
    }
  }

  lemma DeleteAgrees(s: Store, b: ByDoc, d: DocId)
    requires Agrees(s, b)
    ensures Agrees(s - IdsOf(s, d), b - {d})
  {
    var s' := s - IdsOf(s, d);
    forall e ensures Listed(b - {d}, e) == IdsOf(s', e) {
      assert Listed(b, e) == IdsOf(s, e);
      assert IdsOf(s', e) == if e == d then {} else IdsOf(s, e);
    }
  }

  datatype VersionLookup = NoRecords | Known(version: Version) | KeyMissing

  class InMemoryIndexer {
    var records: Store
    var byDoc: ByDoc
    var schema: Option<(int, string)>

    ghost predicate Valid()
      reads this
    {
      Agrees(records, byDoc)
    }

    constructor ()
      ensures Valid() && records == map[] && byDoc == map[] && schema == None
    {
      records := map[];
      byDoc := map[];
      schema := None;
    }

    /** Sets the schema once; a different one is a conflict and changes nothing. */
    method EnsureSchema(dimensions: int, metric: string) returns (ok: bool)
      modifies this`schema
      ensures ok <==> old(schema) == None || old(schema) == Some((dimensions, metric))
      ensures schema == if old(schema) == None then Some((dimensions, metric)) else old(schema)
      ensures ok ==> schema == Some((dimensions, metric))
    {
      if schema == None {
        schema := Some((dimensions, metric));
        return true;
      }
      ok := schema == Some((dimensions, metric));
    }

    method Upsert(batch: seq<Record>) returns (succeeded: seq<ChunkId>)
      modifies this`records, this`byDoc
      ensures records == Put(old(records), batch) && byDoc == NoteAll(old(byDoc), batch)
      ensures |succeeded| == |batch| && forall i :: 0 <= i < |batch| ==> succeeded[i] == batch[i].chunkId
    {
      succeeded := [];
      for i := 0 to |batch|
        invariant records == Put(old(records), batch[..i]) && byDoc == NoteAll(old(byDoc), batch[..i])
        invariant |succeeded| == i && forall k :: 0 <= k < i ==> succeeded[k] == batch[k].chunkId
      {
        assert batch[..i + 1][..i] == batch[..i];
        records := records[batch[i].chunkId := batch[i]];
        byDoc := Note(byDoc, batch[i]);
        succeeded := succeeded + [batch[i].chunkId];
      }
      assert batch[..|batch|] == batch;
    }

    method DeleteByDocId(docId: DocId) returns (count: nat)
      modifies this`records, this`byDoc
      ensures records == old(records) - Listed(old(byDoc), docId) && byDoc == old(byDoc) - {docId}
      ensures count == |Listed(old(byDoc), docId)|
      ensures old(Valid()) ==> Valid() && count == |IdsOf(old(records), docId)| && records == old(records) - IdsOf(old(records), docId)
    {
      if old(Valid()) {
        DeleteAgrees(records, byDoc, docId);
        assert Listed(byDoc, docId) == IdsOf(records, docId);
      }
      var chunkIds := Listed(byDoc, docId);
      count := |chunkIds|;
      byDoc := byDoc - {docId};
      var left := chunkIds;
      while left != {}
        invariant left <= chunkIds && records == old(records) - (chunkIds - left) && byDoc == old(byDoc) - {docId}
        decreases left
      {
        var c :| c in left;
        left := left - {c};
        records := records - {c};
      }
    }

    method CountByDocId(docId: DocId) returns (count: nat)
      ensures count == |Listed(byDoc, docId)|
      ensures Valid() ==> count == |IdsOf(records, docId)|
    {
      assert Valid() ==> Listed(byDoc, docId) == IdsOf(records, docId);
      count := |Listed(byDoc, docId)|;
    }

    /** The version of any one record of the document. While the maps agree the lookup never
        misses, and it finds nothing exactly when there is nothing. */
    method GetDocVersion(docId: DocId) returns (r: VersionLookup)
      ensures r.NoRecords? <==> Listed(byDoc, docId) == {}
      ensures r.Known? ==> exists c :: c in Listed(byDoc, docId) && c in records && records[c].docVersion == r.version
      ensures r.KeyMissing? ==> exists c :: c in Listed(byDoc, docId) && c !in records
      ensures Valid() ==> !r.KeyMissing? && (r.NoRecords? <==> IdsOf(records, docId) == {})
      ensures Valid() && r.Known? ==> exists c :: c in IdsOf(records, docId) && records[c].docVersion == r.version
    {
      assert Valid() ==> Listed(byDoc, docId) == IdsOf(records, docId);
      var chunkIds := Listed(byDoc, docId);
      if chunkIds == {} { return NoRecords; }
      var c :| c in chunkIds;
      if c !in records { return KeyMissing; }
      r := Known(records[c].docVersion);
    }
  }

  /** Without one owner per chunk id the agreement can be lost: after a second document takes an
      id over and is then deleted, the first document's version lookup has no record to read. */
  method TakenOverId(first: Record, second: Record) returns (r: VersionLookup)
    requires first.chunkId == second.chunkId && first.docId != second.docId
    ensures r == KeyMissing
  {
    var index := new InMemoryIndexer();
    assert [first][..0] == [] && [second][..0] == [];
    assert NoteAll(map[], [first][..0]) == map[] && Put(map[], [first][..0]) == map[];
    var ids := index.Upsert([first]);
    assert index.byDoc == Note(map[], first);
    assert Listed(index.byDoc, first.docId) == {first.chunkId};
    assert NoteAll(index.byDoc, [second][..0]) == index.byDoc;
    ids := index.Upsert([second]);
    assert Listed(index.byDoc, second.docId) == {second.chunkId};
    var count := index.DeleteByDocId(second.docId);
    assert Listed(index.byDoc, first.docId) == {first.chunkId};
    r := index.GetDocVersion(first.docId);
  }

  /** The provisioning adapter over the same store. */
  class InMemoryProvisioner {
    const indexer: InMemoryIndexer

    constructor (indexer: InMemoryIndexer)
      ensures this.indexer == indexer
    {
      this.indexer := indexer;
    }

    /** Creating is idempotent: it succeeds exactly when describing would then show the request. */
    method CreateIndex(dimensions: int, metric: string) returns (ok: bool)
      modifies indexer`schema
      ensures ok <==> indexer.schema == Some((dimensions, metric))
      ensures old(indexer.schema).Some? ==> indexer.schema == old(indexer.schema)
    {
      ok := indexer.EnsureSchema(dimensions, metric);
    }
  }
}
