/** Concurrent duplicates of one version: when is a finished delivery safe? */
module Duplicates {
  import opened Options
  import opened VectorStore
  import opened Indexing
  import opened Convergence
  import opened Interleaving

  /** The document, its version and the ids every delivery of it has. */
  datatype Target = Target(docId: DocId, version: Version, ids: set<ChunkId>)

  /** Deliveries are duplicates of the target; everything else is free. */
  ghost predicate Hits(t: Target, a: Action) {
    a.Deliver? ==> a.version == t.version && IdSet(a.records) == t.ids
  }

  ghost predicate HitsAll(t: Target, run: seq<Action>) { forall i :: 0 <= i < |run| ==> Hits(t, run[i]) }

  // ---- the invariant ----

  /** Everything stored for the document is of the target version and ids. */
  ghost predicate Pure(t: Target, store: Store) {
    forall c :: c in IdsOf(store, t.docId) ==> store[c].docVersion == t.version && c in t.ids
  }

  /** The record under `c` is there and some worker wrote it. */
  ghost predicate Covered(t: Target, store: Store, workers: map<WorkerId, Worker>, c: ChunkId) {
    c in IdsOf(store, t.docId) && exists x :: x in workers && store[c] in workers[x].records
  }

  /** Some worker deleted the document and has not put `c` back yet. */
  ghost predicate Owed(workers: map<WorkerId, Worker>, c: ChunkId) {
    exists x :: x in workers && workers[x].deleted && c !in workers[x].landed
  }

  ghost predicate WorkerOk(t: Target, store: Store, wk: Worker) {
    && AllOf(wk.records, t.docId, t.version) && wk.version == t.version && IdSet(wk.records) == t.ids && wk.landed <= t.ids
    && (wk.phase == Upserting || wk.phase == Finished ==> Pure(t, store))
    && (wk.phase == Finished ==> wk.landed == t.ids)
    && (wk.phase == Looking || wk.phase == Deleting ==> wk.landed == {} && !wk.deleted)
  }

  ghost predicate Inv(t: Target, s: World) {
    && Prepared(s.store, t.docId, t.version, t.ids)
    && (forall w :: w in s.workers ==> WorkerOk(t, s.store, s.workers[w]))
    && Accounted(t, s)
  }

  /** Whatever a worker has written is there, or is owed by a worker that deleted it. */
  ghost predicate Accounted(t: Target, s: World) {
    forall w, c :: w in s.workers && c in s.workers[w].landed ==> Covered(t, s.store, s.workers, c) || Owed(s.workers, c)
  }

  lemma LandKeepsPure(t: Target, store: Store, part: seq<Record>)
    requires AllOf(part, t.docId, t.version) && IdSet(part) <= t.ids && Pure(t, store)
    ensures Pure(t, Put(store, part)) && Prepared(Put(store, part), t.docId, t.version, t.ids)
  {
    forall c | c in IdsOf(Put(store, part), t.docId)
      ensures Put(store, part)[c].docVersion == t.version && c in t.ids
    {
      LandLookup(t.docId, store, part, t.version, c);
    }
  }

  lemma PartOfAll(records: seq<Record>, part: seq<Record>, t: Target)
    requires AllOf(records, t.docId, t.version) && IdSet(records) == t.ids && forall x :: x in part ==> x in records
    ensures AllOf(part, t.docId, t.version) && IdSet(part) <= t.ids
  {
  }

  lemma LandStep(t: Target, s: World, w: WorkerId, part: seq<Record>)
    requires Inv(t, s) && Enabled(t.docId, s, Land(w, part))
    ensures Inv(t, Next(t.docId, s, Land(w, part)))
  {
    var s' := Next(t.docId, s, Land(w, part));
    var wk := s.workers[w];
    assert WorkerOk(t, s.store, wk);
    PartOfAll(wk.records, part, t);
    LandKeepsPure(t, s.store, part);
    LandAccounts(t, s, w, part);
    forall x | x in s'.workers ensures WorkerOk(t, s'.store, s'.workers[x]) {
      assert WorkerOk(t, s.store, s.workers[x]);
    }
  }

  lemma LandAccounts(t: Target, s: World, w: WorkerId, part: seq<Record>)
    requires Accounted(t, s) && Enabled(t.docId, s, Land(w, part))
    requires AllOf(part, t.docId, t.version) && IdSet(part) <= t.ids
    ensures Accounted(t, Next(t.docId, s, Land(w, part)))
  {
    var s' := Next(t.docId, s, Land(w, part));
    forall x, c | x in s'.workers && c in s'.workers[x].landed
      ensures Covered(t, s'.store, s'.workers, c) || Owed(s'.workers, c)
    {
      LandLookup(t.docId, s.store, part, t.version, c);
      if c in IdSet(part) {
        assert s'.store[c] in s'.workers[w].records;
      } else {
        assert c in s.workers[x].landed;
        KeepsAccount(t, s, s', c);
      }
    }
  }

  /** An account of `c` survives a step that leaves its record and the debts on it alone. */
  lemma KeepsAccount(t: Target, s: World, s': World, c: ChunkId)
    requires Covered(t, s.store, s.workers, c) || Owed(s.workers, c)
    requires c in IdsOf(s.store, t.docId) ==> c in IdsOf(s'.store, t.docId) && s'.store[c] == s.store[c]
    requires forall x :: x in s.workers ==> x in s'.workers && s'.workers[x].records == s.workers[x].records
    requires forall x :: x in s.workers && s.workers[x].deleted && c !in s.workers[x].landed ==>
               s'.workers[x].deleted && c !in s'.workers[x].landed
    ensures Covered(t, s'.store, s'.workers, c) || Owed(s'.workers, c)
  {
    if Covered(t, s.store, s.workers, c) {
      var x :| x in s.workers && s.store[c] in s.workers[x].records;
      assert s'.store[c] in s'.workers[x].records;
    } else {
      var x :| x in s.workers && s.workers[x].deleted && c !in s.workers[x].landed;
      assert s'.workers[x].deleted;
    }
  }

  lemma DeleteStep(t: Target, s: World, w: WorkerId)
    requires Inv(t, s) && Enabled(t.docId, s, Delete(w))
    ensures Inv(t, Next(t.docId, s, Delete(w)))
  {
    var s' := Next(t.docId, s, Delete(w));
    assert WorkerOk(t, s.store, s.workers[w]);
    assert IdsOf(s'.store, t.docId) == {};
    forall x | x in s'.workers ensures WorkerOk(t, s'.store, s'.workers[x]) {
      assert WorkerOk(t, s.store, s.workers[x]);
    }
    forall c ensures Owed(s'.workers, c) {
      assert s'.workers[w].deleted && c !in s'.workers[w].landed;
    }
  }

  /** A worker that goes straight to its upserts saw nothing or the target version. */
  lemma LookedPure(t: Target, store: Store, seen: Option<Version>)
    requires Prepared(store, t.docId, t.version, t.ids) && Sees(store, t.docId, seen)
    requires seen.Some? ==> seen.value == t.version
    ensures Pure(t, store)
  {
    if seen.Some? {
      var c :| c in IdsOf(store, t.docId) && store[c].docVersion == seen.value;
    }
  }

  /** Steps that change one worker's phase or add a worker. */
  lemma PhaseStep(t: Target, s: World, a: Action)
    requires Inv(t, s) && Enabled(t.docId, s, a) && Hits(t, a) && (a.Deliver? || a.Look? || a.Finish? || a.Crash?)
    ensures Inv(t, Next(t.docId, s, a))
  {
    var s' := Next(t.docId, s, a);
    if a.Look? && s'.workers[a.w].phase == Upserting { LookedPure(t, s.store, a.seen); }
    forall x | x in s'.workers ensures WorkerOk(t, s'.store, s'.workers[x]) {
      if x in s.workers { assert WorkerOk(t, s.store, s.workers[x]); }
    }
    PhaseAccounts(t, s, a);
  }

  lemma PhaseAccounts(t: Target, s: World, a: Action)
    requires Accounted(t, s) && Enabled(t.docId, s, a) && (a.Deliver? || a.Look? || a.Finish? || a.Crash?)
    ensures Accounted(t, Next(t.docId, s, a))
  {
    var s' := Next(t.docId, s, a);
    forall x, c | x in s'.workers && c in s'.workers[x].landed
      ensures Covered(t, s'.store, s'.workers, c) || Owed(s'.workers, c)
    {
      assert x in s.workers && c in s.workers[x].landed;
      KeepsAccount(t, s, s', c);
    }
  }

  lemma ElsewhereStep(t: Target, s: World, store: Store)
    requires Inv(t, s) && Enabled(t.docId, s, Elsewhere(store))
    ensures Inv(t, Next(t.docId, s, Elsewhere(store)))
  {
    var s' := Next(t.docId, s, Elsewhere(store));
    SamePart(t.docId, s.store, store);
    forall x | x in s'.workers ensures WorkerOk(t, s'.store, s'.workers[x]) {
      assert WorkerOk(t, s.store, s.workers[x]);
    }
    forall x, c | x in s'.workers && c in s'.workers[x].landed
      ensures Covered(t, s'.store, s'.workers, c) || Owed(s'.workers, c)
    {
      KeepsAccount(t, s, s', c);
    }
  }

  lemma BreakStep(t: Target, s: World, w: WorkerId, gone: set<ChunkId>)
    requires Inv(t, s) && Enabled(t.docId, s, BreakDelete(w, gone))
    ensures Inv(t, Next(t.docId, s, BreakDelete(w, gone)))
  {
    var s' := Next(t.docId, s, BreakDelete(w, gone));
    assert WorkerOk(t, s.store, s.workers[w]);
    forall x | x in s'.workers ensures WorkerOk(t, s'.store, s'.workers[x]) {
      assert WorkerOk(t, s.store, s.workers[x]);
    }
    forall c ensures Owed(s'.workers, c) {
      assert s'.workers[w].deleted && c !in s'.workers[w].landed;
    }
  }

  lemma Step(t: Target, s: World, a: Action)
    requires Inv(t, s) && Enabled(t.docId, s, a) && Hits(t, a)
    ensures Inv(t, Next(t.docId, s, a))
  {
    match a
    case Land(w, part) => LandStep(t, s, w, part);
    case Delete(w) => DeleteStep(t, s, w);
    case BreakDelete(w, gone) => BreakStep(t, s, w, gone);
    case Elsewhere(store) => ElsewhereStep(t, s, store);
    case _ => PhaseStep(t, s, a);
  }

  lemma {:induction false} Reaches(t: Target, s: World, run: seq<Action>)
    requires Inv(t, s) && Legal(t.docId, s, run) && HitsAll(t, run)
    ensures Inv(t, Execute(t.docId, s, run))
    decreases |run|
  {
    if run != [] {
      Step(t, s, run[0]);
      Reaches(t, Next(t.docId, s, run[0]), run[1..]);
    }
  }

  // ---- convergence ----

  ghost predicate SomeFinished(s: World) { exists w :: w in s.workers && s.workers[w].phase == Finished }

  ghost predicate DeletersFinished(s: World) {
    forall x :: x in s.workers && s.workers[x].deleted ==> s.workers[x].phase == Finished
  }

  /** Once some worker has finished, and every worker that deleted has finished too, the
      document's ids are exactly the target's, every record is of the target version and was
      written by one of the workers. */
  lemma DuplicatesConverge(t: Target, s: World)
    requires Inv(t, s) && SomeFinished(s) && DeletersFinished(s)
    ensures IdsOf(s.store, t.docId) == t.ids && Pure(t, s.store)
    ensures forall c :: c in t.ids ==> Covered(t, s.store, s.workers, c)
  {
    var w :| w in s.workers && s.workers[w].phase == Finished;
    assert WorkerOk(t, s.store, s.workers[w]);
    forall c | c in t.ids ensures Covered(t, s.store, s.workers, c) {
      assert c in s.workers[w].landed;
      forall x | x in s.workers && s.workers[x].deleted ensures c in s.workers[x].landed {
        assert WorkerOk(t, s.store, s.workers[x]);
      }
    }
  }

  // ---- exactly when a finished delivery is safe ----

  /** Nobody is about to delete, and nobody will be: what is stored is of the target version. */
  ghost predicate Calm(t: Target, s: World) {
    Pure(t, s.store) && forall w :: w in s.workers ==> s.workers[w].phase != Deleting
  }

  lemma CalmStep(t: Target, s: World, a: Action)
    requires Inv(t, s) && Calm(t, s) && Enabled(t.docId, s, a) && Hits(t, a)
    ensures Calm(t, Next(t.docId, s, a))
    ensures IdsOf(s.store, t.docId) <= IdsOf(Next(t.docId, s, a).store, t.docId)
    ensures forall w :: w in s.workers ==>
              w in Next(t.docId, s, a).workers && Next(t.docId, s, a).workers[w].deleted == s.workers[w].deleted
    ensures forall w :: w in Next(t.docId, s, a).workers && w !in s.workers ==> !Next(t.docId, s, a).workers[w].deleted
  {
    match a
    case Land(w, part) =>
      assert WorkerOk(t, s.store, s.workers[w]);
      PartOfAll(s.workers[w].records, part, t);
      LandKeepsPure(t, s.store, part);
      forall c | c in IdsOf(s.store, t.docId) ensures c in IdsOf(Put(s.store, part), t.docId) {
        LandLookup(t.docId, s.store, part, t.version, c);
      }
    case Elsewhere(store) => SamePart(t.docId, s.store, store);
    case Look(w, seen) => assert WorkerOk(t, s.store, s.workers[w]);
    case _ =>
  }

  lemma {:induction false} StaysCalm(t: Target, s: World, run: seq<Action>)
    requires Inv(t, s) && Calm(t, s) && Legal(t.docId, s, run) && HitsAll(t, run)
    ensures Calm(t, Execute(t.docId, s, run))
    ensures IdsOf(s.store, t.docId) <= IdsOf(Execute(t.docId, s, run).store, t.docId)
    ensures (forall w :: w in s.workers ==> !s.workers[w].deleted) ==>
              forall w :: w in Execute(t.docId, s, run).workers ==> !Execute(t.docId, s, run).workers[w].deleted
    decreases |run|
  {
    if run != [] {
      Step(t, s, run[0]);
      CalmStep(t, s, run[0]);
      StaysCalm(t, Next(t.docId, s, run[0]), run[1..]);
    }
  }

  /** Every continuation keeps the document complete. */
  ghost predicate StaysComplete(t: Target, s: World) {
    forall run :: Legal(t.docId, s, run) && HitsAll(t, run) ==> IdsOf(Execute(t.docId, s, run).store, t.docId) == t.ids
  }

  /** A complete document stays complete in every continuation if and only if no duplicate is
      about to delete. */
  lemma CompleteIsSafeIff(t: Target, s: World)
    requires Inv(t, s) && Pure(t, s.store) && IdsOf(s.store, t.docId) == t.ids != {}
    ensures StaysComplete(t, s) <==> forall w :: w in s.workers ==> s.workers[w].phase != Deleting
  {
    if w :| w in s.workers && s.workers[w].phase == Deleting {
      One(t.docId, s, Delete(w));
      assert IdsOf(Next(t.docId, s, Delete(w)).store, t.docId) == {};
      assert Legal(t.docId, s, [Delete(w)]) && HitsAll(t, [Delete(w)]);
    } else {
      forall run | Legal(t.docId, s, run) && HitsAll(t, run)
        ensures IdsOf(Execute(t.docId, s, run).store, t.docId) == t.ids
      {
        StaysCalm(t, s, run);
      }
    }
  }

  /** In every run, as soon as some delivery has finished the document is complete. */
  ghost predicate FinishedMeansComplete(t: Target, store: Store) {
    forall run :: (Legal(t.docId, World(store, map[]), run) && HitsAll(t, run)
                   && SomeFinished(Execute(t.docId, World(store, map[]), run))) ==>
      IdsOf(Execute(t.docId, World(store, map[]), run).store, t.docId) == t.ids
  }

  lemma PureIsPrepared(t: Target, store: Store)
    requires Pure(t, store)
    ensures Prepared(store, t.docId, t.version, t.ids)
  {
  }

  lemma PureIsSafe(t: Target, store: Store)
    requires Pure(t, store)
    ensures FinishedMeansComplete(t, store)
  {
    var s0 := World(store, map[]);
    PureIsPrepared(t, store);
    forall run | Legal(t.docId, s0, run) && HitsAll(t, run) && SomeFinished(Execute(t.docId, s0, run))
      ensures IdsOf(Execute(t.docId, s0, run).store, t.docId) == t.ids
    {
      Reaches(t, s0, run);
      StaysCalm(t, s0, run);
      DuplicatesConverge(t, Execute(t.docId, s0, run));
    }
  }

  /** Concurrent duplicates are safe, for every store, if and only if what it holds for the document
      is of the target version and under the target's ids: then a finished delivery means a
      complete document in every interleaving. Otherwise a duplicate that saw another version can
      still delete what another has finished, or an id outside the target stays behind. */
  lemma DuplicatesAreSafeIff(t: Target, store: Store, records: seq<Record>)
    requires t.ids != {} && AllOf(records, t.docId, t.version) && IdSet(records) == t.ids
    ensures FinishedMeansComplete(t, store) <==> Pure(t, store)
  {
    var s0 := World(store, map[]);
    if Pure(t, store) {
      PureIsSafe(t, store);
    } else if c :| c in IdsOf(store, t.docId) && store[c].docVersion != t.version {
      var run := LateDelete(t, store, records, store[c].docVersion);
      assert Legal(t.docId, s0, run);
    } else {
      var c :| c in IdsOf(store, t.docId) && c !in t.ids;
      var run := OrphanStays(t, store, records, c);
      assert Legal(t.docId, s0, run);
    }
  }

  /** One undisturbed delivery over a stored id that the target lacks. */
  lemma OrphanStays(t: Target, store: Store, records: seq<Record>, orphan: ChunkId) returns (run: seq<Action>)
    requires AllOf(records, t.docId, t.version) && IdSet(records) == t.ids
    requires orphan in IdsOf(store, t.docId) && store[orphan].docVersion == t.version && orphan !in t.ids
    ensures Legal(t.docId, World(store, map[]), run) && HitsAll(t, run)
    ensures var s := Execute(t.docId, World(store, map[]), run); SomeFinished(s) && orphan in IdsOf(s.store, t.docId)
  {
    var d, s0 := t.docId, World(store, map[]);
    var d0, l0, p0, f0 := Deliver(0, records, t.version), Look(0, Some(t.version)), Land(0, records), Finish(0);
    One(d, s0, d0);
    var s1 := Next(d, s0, d0);
    assert Sees(store, d, Some(t.version));
    Then(d, s0, [d0], l0);
    var s2 := Next(d, s1, l0);
    Then(d, s0, [d0] + [l0], p0);
    var s3 := Next(d, s2, p0);
    assert s3.workers[0].landed == IdSet(records);
    Then(d, s0, [d0] + [l0] + [p0], f0);
    LandLookup(d, store, records, t.version, orphan);
    run := [d0] + [l0] + [p0] + [f0];
    assert Next(d, s3, f0).workers[0].phase == Finished;
  }

  /** The losing interleaving: both look, one deletes, upserts and finishes, the other deletes. */
  lemma LateDelete(t: Target, store: Store, records: seq<Record>, stale: Version) returns (run: seq<Action>)
    requires AllOf(records, t.docId, t.version) && IdSet(records) == t.ids
    requires stale != t.version && Sees(store, t.docId, Some(stale))
    ensures Legal(t.docId, World(store, map[]), run) && HitsAll(t, run)
    ensures var s := Execute(t.docId, World(store, map[]), run);
            SomeFinished(s) && IdsOf(s.store, t.docId) == {}
  {
    var d, s0 := t.docId, World(store, map[]);
    var late, winner := Worker(records, t.version, Deleting, false, {}), Worker(records, t.version, Deleting, false, {});
    var looks := BothLook(t, store, records, stale);
    var s := World(store, map[0 := late, 1 := winner]);
    Then(d, s0, looks, Delete(1));
    var s1 := Next(d, s, Delete(1));
    Then(d, s0, looks + [Delete(1)], Land(1, records));
    var s2 := Next(d, s1, Land(1, records));
    assert s2.workers[1].landed == IdSet(records);
    Then(d, s0, looks + [Delete(1)] + [Land(1, records)], Finish(1));
    var s3 := Next(d, s2, Finish(1));
    Then(d, s0, looks + [Delete(1)] + [Land(1, records)] + [Finish(1)], Delete(0));
    run := looks + [Delete(1)] + [Land(1, records)] + [Finish(1)] + [Delete(0)];
    var s4 := Next(d, s3, Delete(0));
    assert s4.workers[1].phase == Finished && IdsOf(s4.store, d) == {};
  }

  lemma BothLook(t: Target, store: Store, records: seq<Record>, stale: Version) returns (run: seq<Action>)
    requires AllOf(records, t.docId, t.version) && IdSet(records) == t.ids
    requires stale != t.version && Sees(store, t.docId, Some(stale))
    ensures Legal(t.docId, World(store, map[]), run) && HitsAll(t, run)
    ensures var wk := Worker(records, t.version, Deleting, false, {});
            Execute(t.docId, World(store, map[]), run) == World(store, map[0 := wk, 1 := wk])
  {
    var d, s0 := t.docId, World(store, map[]);
    var wk := Worker(records, t.version, Deleting, false, {});
    var d0, l0 := Deliver(0, records, t.version), Look(0, Some(stale));
    var d1, l1 := Deliver(1, records, t.version), Look(1, Some(stale));
    One(d, s0, d0);
    Then(d, s0, [d0], l0);
    assert Next(d, Next(d, s0, d0), l0) == World(store, map[0 := wk]);
    Then(d, s0, [d0] + [l0], d1);
    Then(d, s0, [d0] + [l0] + [d1], l1);
    assert Next(d, Next(d, World(store, map[0 := wk]), d1), l1) == World(store, map[0 := wk, 1 := wk]);
    run := [d0] + [l0] + [d1] + [l1];
  }
}
