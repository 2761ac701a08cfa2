/** Overlapping deliveries of different versions: when do they keep a document at one version? */
module Overlap {
  import opened Options
  import opened VectorStore
  import opened Indexing
  import opened Convergence
  import opened Interleaving

  datatype Delivery = Delivery(version: Version, records: seq<Record>)

  ghost predicate WellFormed(d: DocId, menu: set<Delivery>) {
    forall x :: x in menu ==> AllOf(x.records, d, x.version)
  }

  ghost predicate FromMenu(menu: set<Delivery>, run: seq<Action>) {
    forall i :: 0 <= i < |run| && run[i].Deliver? ==> Delivery(run[i].version, run[i].records) in menu
  }

  /** Records of different versions never lie under different ids. */
  ghost predicate Compatible(menu: set<Delivery>) {
    forall a, b :: a in menu && b in menu && a.version != b.version ==> Collide(a.records, b.records)
  }

  ghost predicate Collide(a: seq<Record>, b: seq<Record>) {
    forall x, y :: x in a && y in b ==> x.chunkId == y.chunkId
  }

  /** An upserting worker finds another version only under the one id it is about to write. */
  ghost predicate Fits(d: DocId, store: Store, wk: Worker) {
    wk.phase == Upserting ==>
      forall c :: c in IdsOf(store, d) && store[c].docVersion != wk.version ==> AllUnder(wk.records, c)
  }

  ghost predicate AllUnder(records: seq<Record>, c: ChunkId) {
    forall x :: x in records ==> x.chunkId == c
  }

  ghost predicate Inv(d: DocId, menu: set<Delivery>, s: World) {
    && OneVersion(s.store, d)
    && (forall w :: w in s.workers ==>
          Delivery(s.workers[w].version, s.workers[w].records) in menu && Fits(d, s.store, s.workers[w]))
  }

  lemma LandOneVersion(d: DocId, store: Store, wk: Worker, part: seq<Record>)
    requires OneVersion(store, d) && wk.phase == Upserting && Fits(d, store, wk)
    requires AllOf(wk.records, d, wk.version) && forall x :: x in part ==> x in wk.records
    ensures OneVersion(Put(store, part), d)
    ensures part != [] ==> forall c :: c in IdsOf(Put(store, part), d) ==> Put(store, part)[c].docVersion == wk.version
  {
    if part != [] {
      assert part[0] in part && part[0].chunkId in IdSet(part);
      forall c | c in IdsOf(Put(store, part), d) ensures Put(store, part)[c].docVersion == wk.version {
        LandLookup(d, store, part, wk.version, c);
        assert AllUnder(wk.records, c) ==> part[0].chunkId == c;
      }
    }
  }

  lemma LandFits(d: DocId, menu: set<Delivery>, store: Store, wk: Worker, part: seq<Record>, other: Worker)
    requires Compatible(menu) && WellFormed(d, menu)
    requires Delivery(wk.version, wk.records) in menu && Delivery(other.version, other.records) in menu
    requires Fits(d, store, other) && forall x :: x in part ==> x in wk.records
    ensures Fits(d, Put(store, part), other)
  {
    var store' := Put(store, part);
    assert AllOf(Delivery(wk.version, wk.records).records, d, wk.version);
    if other.phase == Upserting {
      forall c | c in IdsOf(store', d) && store'[c].docVersion != other.version ensures AllUnder(other.records, c) {
        LandLookup(d, store, part, wk.version, c);
        if c in IdSet(part) {
          PutLookup(store, part, c);
          LastOfMembers(part, c);
          assert store'[c] in wk.records && store'[c].chunkId == c;
          assert Collide(wk.records, other.records);
        }
      }
    }
  }

  lemma LandKeeps(d: DocId, menu: set<Delivery>, s: World, w: WorkerId, part: seq<Record>)
    requires Inv(d, menu, s) && Compatible(menu) && WellFormed(d, menu) && Enabled(d, s, Land(w, part))
    ensures Inv(d, menu, Next(d, s, Land(w, part)))
  {
    var s' := Next(d, s, Land(w, part));
    var wk := s.workers[w];
    LandOneVersion(d, s.store, wk, part);
    forall x | x in s'.workers ensures Fits(d, s'.store, s'.workers[x]) {
      LandFits(d, menu, s.store, wk, part, s.workers[x]);
    }
  }

  lemma {:induction false} Reaches(d: DocId, menu: set<Delivery>, s: World, run: seq<Action>)
    requires Inv(d, menu, s) && Compatible(menu) && WellFormed(d, menu) && Legal(d, s, run) && FromMenu(menu, run)
    ensures OneVersion(Execute(d, s, run).store, d)
    decreases |run|
  {
    if run != [] {
      Step(d, menu, s, run[0]);
      Reaches(d, menu, Next(d, s, run[0]), run[1..]);
    }
  }

  lemma Step(d: DocId, menu: set<Delivery>, s: World, a: Action)
    requires Inv(d, menu, s) && Compatible(menu) && WellFormed(d, menu) && Enabled(d, s, a)
    requires a.Deliver? ==> Delivery(a.version, a.records) in menu
    ensures Inv(d, menu, Next(d, s, a))
  {
    match a
    case Land(w, part) => LandKeeps(d, menu, s, w, part);
    case Elsewhere(store) => SamePart(d, s.store, store);
    case _ =>
  }

  // ---- the other direction ----

  /** Delivers and looks: the worker is then about to delete or to upsert. */
  lemma Enter(d: DocId, s: World, w: WorkerId, x: Delivery, seen: Option<Version>) returns (run: seq<Action>)
    requires w !in s.workers && AllOf(x.records, d, x.version) && Sees(s.store, d, seen)
    ensures Legal(d, s, run) && FromMenu({x}, run)
    ensures var phase := if Outdated(seen, x.version) then Deleting else Upserting;
            Execute(d, s, run) == World(s.store, s.workers[w := Worker(x.records, x.version, phase, false, {})])
  {
    var deliver, look := Deliver(w, x.records, x.version), Look(w, seen);
    One(d, s, deliver);
    Then(d, s, [deliver], look);
    run := [deliver] + [look];
    assert Next(d, Next(d, s, deliver), look).workers
        == s.workers[w := Worker(x.records, x.version, if Outdated(seen, x.version) then Deleting else Upserting, false, {})];
  }

  /** Deletes if it must: the worker is then about to upsert. */
  lemma Clear(d: DocId, s: World, w: WorkerId) returns (run: seq<Action>)
    requires w in s.workers && (s.workers[w].phase == Deleting || s.workers[w].phase == Upserting)
    ensures Legal(d, s, run) && FromMenu({}, run)
    ensures var s' := Execute(d, s, run);
            && w in s'.workers && s'.workers[w].phase == Upserting && s'.workers[w].records == s.workers[w].records
            && forall x :: x in s.workers && x != w ==> x in s'.workers && s'.workers[x] == s.workers[x]
  {
    run := [];
    if s.workers[w].phase == Deleting {
      One(d, s, Delete(w));
      run := [Delete(w)];
    }
  }

  lemma MenuJoins(menu: set<Delivery>, a: seq<Action>, b: seq<Action>, menu': set<Delivery>)
    requires FromMenu(menu, a) && FromMenu(menu', b)
    ensures FromMenu(menu + menu', a + b)
  {
  }

  /** Both workers are past their look and their delete, and nothing of the other's is in the way. */
  lemma BothUpsert(d: DocId, store: Store, a: Delivery, b: Delivery) returns (run: seq<Action>)
    requires AllOf(a.records, d, a.version) && AllOf(b.records, d, b.version)
    ensures Legal(d, World(store, map[]), run) && FromMenu({a, b}, run)
    ensures var s := Execute(d, World(store, map[]), run);
            && 0 in s.workers && s.workers[0].phase == Upserting && s.workers[0].records == a.records
            && 1 in s.workers && s.workers[1].phase == Upserting && s.workers[1].records == b.records
  {
    var s0 := World(store, map[]);
    var seen := AnyVersion(store, d);
    var r0 := Enter(d, s0, 0, a, seen);
    var s1 := Execute(d, s0, r0);
    var r1 := Enter(d, s1, 1, b, seen);
    Join(d, s0, r0, r1);
    var s2 := Execute(d, s1, r1);
    var r2 := Clear(d, s2, 0);
    Join(d, s0, r0 + r1, r2);
    var s3 := Execute(d, s2, r2);
    var r3 := Clear(d, s3, 1);
    Join(d, s0, r0 + r1 + r2, r3);
    run := r0 + r1 + r2 + r3;
    MenuJoins({a}, r0, r1, {b});
    MenuJoins({a} + {b}, r0 + r1, r2, {});
    MenuJoins({a} + {b} + {}, r0 + r1 + r2, r3, {});
    assert {a} + {b} + {} + {} == {a, b};
  }

  /** Two deliveries with records of different versions under different ids mix, from any store. */
  lemma Mixes(d: DocId, store: Store, a: Delivery, b: Delivery, x: Record, y: Record) returns (run: seq<Action>)
    requires AllOf(a.records, d, a.version) && AllOf(b.records, d, b.version) && a.version != b.version
    requires x in a.records && y in b.records && x.chunkId != y.chunkId
    ensures Legal(d, World(store, map[]), run) && FromMenu({a, b}, run)
    ensures !OneVersion(Execute(d, World(store, map[]), run).store, d)
  {
    var s0 := World(store, map[]);
    run := BothUpsert(d, store, a, b);
    var s := Execute(d, s0, run);
    Then(d, s0, run, Land(0, [x]));
    var s1 := Next(d, s, Land(0, [x]));
    Then(d, s0, run + [Land(0, [x])], Land(1, [y]));
    LandLookup(d, s.store, [x], a.version, x.chunkId);
    LandLookup(d, s1.store, [y], b.version, x.chunkId);
    LandLookup(d, s1.store, [y], b.version, y.chunkId);
    var s2 := Next(d, s1, Land(1, [y]));
    assert x in [x] && y in [y] && x.chunkId in IdSet([x]) && y.chunkId in IdSet([y]);
    assert x.chunkId in IdsOf(s2.store, d) && y.chunkId in IdsOf(s2.store, d);
    assert s2.store[x.chunkId].docVersion == a.version && s2.store[y.chunkId].docVersion == b.version;
    run := run + [Land(0, [x])] + [Land(1, [y])];
  }

  ghost predicate AlwaysOneVersion(d: DocId, menu: set<Delivery>, store: Store) {
    forall run :: Legal(d, World(store, map[]), run) && FromMenu(menu, run) ==>
      OneVersion(Execute(d, World(store, map[]), run).store, d)
  }

  lemma FromLarger(small: set<Delivery>, menu: set<Delivery>, run: seq<Action>)
    requires FromMenu(small, run) && small <= menu
    ensures FromMenu(menu, run)
  {
  }

  /** Overlapping deliveries keep a document at one version in every interleaving if and only if
      no two of them bring records of different versions under different ids. */
  lemma OneVersionIff(d: DocId, menu: set<Delivery>, store: Store)
    requires OneVersion(store, d) && WellFormed(d, menu)
    ensures AlwaysOneVersion(d, menu, store) <==> Compatible(menu)
  {
    if Compatible(menu) {
      forall run | Legal(d, World(store, map[]), run) && FromMenu(menu, run)
        ensures OneVersion(Execute(d, World(store, map[]), run).store, d)
      {
        Reaches(d, menu, World(store, map[]), run);
      }
    } else {
      var a, b :| a in menu && b in menu && a.version != b.version && !Collide(a.records, b.records);
      var x, y :| x in a.records && y in b.records && x.chunkId != y.chunkId;
      var run := Mixes(d, store, a, b, x, y);
      FromLarger({a, b}, menu, run);
      assert Legal(d, World(store, map[]), run);
    }
  }
}
