/**
 Concurrent duplicates together with the document's ledger row: a worker that finished asks for
 the row to be indexed, and everyone may ask for anything else at any time.
 */
module IndexedRows {
  import opened Options
  import opened Ledger
  import opened LedgerTraces
  import opened VectorStore
  import opened Indexing
  import I = Interleaving
  import D = Duplicates

  datatype State = State(world: I.World, row: Row)

  datatype Action =
    | Go(step: I.Action)
    | Tell(w: I.WorkerId, now: Time)
    | Ask(e: Event)

  const EXIT := Request(Indexed, Indexed, None, None, None)

  ghost predicate Enabled(d: DocId, s: State, a: Action) {
    match a
    case Go(step) => I.Enabled(d, s.world, step)
    case Tell(w, _) => w in s.world.workers && s.world.workers[w].phase == I.Finished
    case Ask(e) => e.req.to != Indexed
  }

  ghost function Next(d: DocId, s: State, a: Action): State
    requires Enabled(d, s, a)
  {
    match a
    case Go(step) => s.(world := I.Next(d, s.world, step))
    case Tell(_, now) => s.(row := Step(s.row, Event(EXIT, now)))
    case Ask(e) => s.(row := Step(s.row, e))
  }

  ghost predicate Legal(d: DocId, s: State, run: seq<Action>)
    decreases |run|
  {
    run == [] || (Enabled(d, s, run[0]) && Legal(d, Next(d, s, run[0]), run[1..]))
  }

  ghost function Execute(d: DocId, s: State, run: seq<Action>): State
    requires Legal(d, s, run)
    decreases |run|
  {
    if run == [] then s else Execute(d, Next(d, s, run[0]), run[1..])
  }

  /** What the store sees of a run. */
  function Steps(run: seq<Action>): seq<I.Action> {
    if run == [] then []
    else if run[0].Go? then [run[0].step] + Steps(run[1..])
    else Steps(run[1..])
  }

  lemma {:induction false} StoreSees(t: D.Target, s: State, run: seq<Action>)
    requires Legal(t.docId, s, run) && D.HitsAll(t, Steps(run))
    ensures I.Legal(t.docId, s.world, Steps(run))
    ensures Execute(t.docId, s, run).world == I.Execute(t.docId, s.world, Steps(run))
    decreases |run|
  {
    if run != [] {
      var rest := Steps(run[1..]);
      if run[0].Go? {
        assert Steps(run)[1..] == rest && Steps(run)[0] == run[0].step;
        assert forall i :: 0 <= i < |rest| ==> rest[i] == Steps(run)[i + 1];
      }
      StoreSees(t, Next(t.docId, s, run[0]), run[1..]);
    }
  }

  /** The row is indexed only if some worker has finished. */
  ghost predicate Backed(s: State) { s.row.status == Indexed ==> D.SomeFinished(s.world) }

  lemma StepBacks(d: DocId, s: State, a: Action)
    requires Enabled(d, s, a) && Backed(s)
    ensures Backed(Next(d, s, a))
  {
    var s' := Next(d, s, a);
    if a.Go? && D.SomeFinished(s.world) {
      var w :| w in s.world.workers && s.world.workers[w].phase == I.Finished;
      assert w in s'.world.workers && s'.world.workers[w].phase == I.Finished;
    }
  }

  lemma {:induction false} RunBacks(d: DocId, s: State, run: seq<Action>)
    requires Legal(d, s, run) && Backed(s)
    ensures Backed(Execute(d, s, run))
    decreases |run|
  {
    if run != [] {
      StepBacks(d, s, run[0]);
      RunBacks(d, Next(d, s, run[0]), run[1..]);
    }
  }

  function Lifted(run: seq<I.Action>): seq<Action> {
    if run == [] then [] else [Go(run[0])] + Lifted(run[1..])
  }

  /** A run of the store followed by a finished worker's request. */
  lemma {:induction false} Reported(t: D.Target, s: State, run: seq<I.Action>, w: I.WorkerId, now: Time)
    requires I.Legal(t.docId, s.world, run) && D.HitsAll(t, run)
    requires var end := I.Execute(t.docId, s.world, run); w in end.workers && end.workers[w].phase == I.Finished
    ensures var all := Lifted(run) + [Tell(w, now)];
            && Legal(t.docId, s, all) && Steps(all) == run
            && Execute(t.docId, s, all) == State(I.Execute(t.docId, s.world, run), Step(s.row, Event(EXIT, now)))
    decreases |run|
  {
    var all := Lifted(run) + [Tell(w, now)];
    if run == [] {
      assert all == [Tell(w, now)] && all[1..] == [];
      var s' := Next(t.docId, s, Tell(w, now));
      assert Legal(t.docId, s', []) && Execute(t.docId, s', []) == s';
    } else {
      var s' := Next(t.docId, s, Go(run[0]));
      Reported(t, s', run[1..], w, now);
      assert all[0] == Go(run[0]) && all[1..] == Lifted(run[1..]) + [Tell(w, now)];
      assert Steps(all) == [run[0]] + Steps(all[1..]) == run;
    }
  }

  /** In every interleaving, an indexed row has exactly the target's ids in the store. */
  ghost predicate IndexedMeansComplete(t: D.Target, store: Store, row: Row) {
    forall run :: (Legal(t.docId, State(I.World(store, map[]), row), run) && D.HitsAll(t, Steps(run))
                   && Execute(t.docId, State(I.World(store, map[]), row), run).row.status == Indexed) ==>
      IdsOf(Execute(t.docId, State(I.World(store, map[]), row), run).world.store, t.docId) == t.ids
  }

  lemma PureIsEnough(t: D.Target, store: Store, row: Row)
    requires D.Pure(t, store) && row.status == Indexing
    ensures IndexedMeansComplete(t, store, row)
  {
    var s := State(I.World(store, map[]), row);
    D.PureIsSafe(t, store);
    forall run | Legal(t.docId, s, run) && D.HitsAll(t, Steps(run)) && Execute(t.docId, s, run).row.status == Indexed
      ensures IdsOf(Execute(t.docId, s, run).world.store, t.docId) == t.ids
    {
      RunBacks(t.docId, s, run);
      StoreSees(t, s, run);
    }
  }

  /** Under concurrent duplicates an indexed row means a complete document if and only if what was
      stored for it before is of the target version and under the target's ids. */
  lemma IndexedIsCompleteIff(t: D.Target, store: Store, row: Row, records: seq<Record>, now: Time)
    requires row.status == Indexing && row.stage == Indexing
    requires t.ids != {} && AllOf(records, t.docId, t.version) && IdSet(records) == t.ids
    ensures IndexedMeansComplete(t, store, row) <==> D.Pure(t, store)
  {
    if D.Pure(t, store) {
      PureIsEnough(t, store, row);
    } else {
      var s, world := State(I.World(store, map[]), row), I.World(store, map[]);
      D.DuplicatesAreSafeIff(t, store, records);
      var run :| I.Legal(t.docId, world, run) && D.HitsAll(t, run) && D.SomeFinished(I.Execute(t.docId, world, run))
                 && IdsOf(I.Execute(t.docId, world, run).store, t.docId) != t.ids;
      var w :| w in I.Execute(t.docId, world, run).workers && I.Execute(t.docId, world, run).workers[w].phase == I.Finished;
      Reported(t, s, run, w, now);
      assert Step(row, Event(EXIT, now)).status == Indexed;
      assert Legal(t.docId, s, Lifted(run) + [Tell(w, now)]);
    }
  }
}
