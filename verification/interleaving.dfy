/**
 Concurrent deliveries of one document: any number of workers index it at the same time,
 interleaved call by call, each with its own version and records, each free to crash anywhere
 and to break in the middle of a delete, while other documents change.
 */
module Interleaving {
  import opened Options
  import opened VectorStore
  import opened Indexing
  import opened Convergence

  type WorkerId = nat

  datatype Phase = Looking | Deleting | Upserting | Finished | Crashed

  /** `landed` is what this worker has written. */
  datatype Worker = Worker(records: seq<Record>, version: Version, phase: Phase, deleted: bool, landed: set<ChunkId>)

  datatype World = World(store: Store, workers: map<WorkerId, Worker>)

  datatype Action =
    | Deliver(w: WorkerId, records: seq<Record>, version: Version)
    | Look(w: WorkerId, seen: Option<Version>)
    | Delete(w: WorkerId)
    | BreakDelete(w: WorkerId, gone: set<ChunkId>)
    | Land(w: WorkerId, part: seq<Record>)
    | Finish(w: WorkerId)
    | Crash(w: WorkerId)
    | Elsewhere(store: Store)

  ghost predicate Enabled(d: DocId, s: World, a: Action) {
    match a
    case Deliver(w, records, version) => w !in s.workers && AllOf(records, d, version)
    case Look(w, seen) => w in s.workers && s.workers[w].phase == Looking && Sees(s.store, d, seen)
    case Delete(w) => w in s.workers && s.workers[w].phase == Deleting
    case BreakDelete(w, _) => w in s.workers && s.workers[w].phase == Deleting
    case Land(w, part) =>
      w in s.workers && s.workers[w].phase == Upserting && forall x :: x in part ==> x in s.workers[w].records
    case Finish(w) =>
      w in s.workers && s.workers[w].phase == Upserting && s.workers[w].landed == IdSet(s.workers[w].records)
    case Crash(w) => w in s.workers && s.workers[w].phase != Finished
    case Elsewhere(store) => Part(store, d) == Part(s.store, d)
  }

  predicate Outdated(seen: Option<Version>, version: Version) { seen.Some? && seen.value != version }

  ghost function Next(d: DocId, s: World, a: Action): World
    requires Enabled(d, s, a)
  {
    match a
    case Deliver(w, records, version) => s.(workers := s.workers[w := Worker(records, version, Looking, false, {})])
    case Look(w, seen) =>
      var phase := if Outdated(seen, s.workers[w].version) then Deleting else Upserting;
      s.(workers := s.workers[w := s.workers[w].(phase := phase)])
    case Delete(w) =>
      World(s.store - IdsOf(s.store, d), s.workers[w := s.workers[w].(phase := Upserting, deleted := true)])
    case BreakDelete(w, gone) =>
      World(s.store - IdsOf(s.store, d) * gone, s.workers[w := s.workers[w].(phase := Crashed, deleted := true)])
    case Land(w, part) =>
      World(Put(s.store, part), s.workers[w := s.workers[w].(landed := s.workers[w].landed + IdSet(part))])
    case Finish(w) => s.(workers := s.workers[w := s.workers[w].(phase := Finished)])
    case Crash(w) => s.(workers := s.workers[w := s.workers[w].(phase := Crashed)])
    case Elsewhere(store) => s.(store := store)
  }

  ghost predicate Legal(d: DocId, s: World, run: seq<Action>)
    decreases |run|
  {
    run == [] || (Enabled(d, s, run[0]) && Legal(d, Next(d, s, run[0]), run[1..]))
  }

  ghost function Execute(d: DocId, s: World, run: seq<Action>): World
    requires Legal(d, s, run)
    decreases |run|
  {
    if run == [] then s else Execute(d, Next(d, s, run[0]), run[1..])
  }

  lemma One(d: DocId, s: World, a: Action)
    requires Enabled(d, s, a)
    ensures Legal(d, s, [a]) && Execute(d, s, [a]) == Next(d, s, a)
  {
    assert [a][1..] == [];
    assert Legal(d, Next(d, s, a), []) && Execute(d, Next(d, s, a), []) == Next(d, s, a);
  }

  lemma {:induction false} Join(d: DocId, s: World, first: seq<Action>, second: seq<Action>)
    requires Legal(d, s, first) && Legal(d, Execute(d, s, first), second)
    ensures Legal(d, s, first + second) && Execute(d, s, first + second) == Execute(d, Execute(d, s, first), second)
    decreases |first|
  {
    if first == [] {
      assert first + second == second;
    } else {
      Join(d, Next(d, s, first[0]), first[1..], second);
      assert (first + second)[0] == first[0] && (first + second)[1..] == first[1..] + second;
    }
  }

  /** A stretch of two runs. */
  lemma Then(d: DocId, s: World, run: seq<Action>, a: Action)
    requires Legal(d, s, run) && Enabled(d, Execute(d, s, run), a)
    ensures Legal(d, s, run + [a]) && Execute(d, s, run + [a]) == Next(d, Execute(d, s, run), a)
  {
    One(d, Execute(d, s, run), a);
    Join(d, s, run, [a]);
  }

  /** What upserting a part does, id by id. */
  lemma LandLookup(d: DocId, store: Store, part: seq<Record>, version: Version, c: ChunkId)
    requires AllOf(part, d, version)
    ensures c in IdSet(part) ==>
              c in IdsOf(Put(store, part), d) && Put(store, part)[c] in part && Put(store, part)[c].docVersion == version
    ensures c !in IdSet(part) ==>
              (c in IdsOf(Put(store, part), d) <==> c in IdsOf(store, d))
              && (c in IdsOf(store, d) ==> Put(store, part)[c] == store[c])
  {
    PutLookup(store, part, c);
    LastOfMembers(part, c);
  }

  lemma SamePart(d: DocId, a: Store, b: Store)
    requires Part(a, d) == Part(b, d)
    ensures forall c :: (c in IdsOf(a, d) <==> c in IdsOf(b, d)) && (c in IdsOf(a, d) ==> a[c] == b[c])
  {
    forall c ensures (c in IdsOf(a, d) <==> c in IdsOf(b, d)) && (c in IdsOf(a, d) ==> a[c] == b[c]) {
      assert c in Part(a, d) <==> c in Part(b, d);
      assert c in Part(a, d) ==> Part(a, d)[c] == Part(b, d)[c];
    }
  }
}
