/**
 The claim protocol with its reads behind the cache. The registry is the protocol's; every write
 of it that takes effect is a write of the cache's wrapped registry. Threads ask, store and clear
 at any time, and a worker's read is served from an unexpired slot or is what its own thread was
 answered when it asked, however long ago that was.
 */
module CachedProtocol {
  import opened Options
  import opened Entries
  import opened Registry
  import P = Protocol
  import I = ProtocolInvariant
  import H = ProtocolTheorems
  import C = CacheRuns

  datatype World = World(state: P.State, cache: C.State)

  datatype Setup = Setup(c: P.Config, ttl: int)

  datatype Action =
    | Own(act: P.Action)
    | Cache(step: C.Action)
    | ReadSlot(w: P.WorkerId, now: Time)
    | ReadAsked(w: P.WorkerId, thread: C.ThreadId, at: Time)

  /** Reads that go through the cache; a registration reads its own conflict back directly. */
  predicate ReadsCache(s: P.State, w: P.WorkerId) {
    w in s.workers && P.ReadsRegistry(s.workers[w].pc) && !s.workers[w].pc.Rereading?
  }

  predicate Enabled(p: Setup, s: World, a: Action) {
    match a
    case Own(act) => P.Enabled(p.c, s.state, act) && (act.Read? ==> s.state.workers[act.w].pc.Rereading?)
    case Cache(step) => !step.Write? && C.Enabled(s.cache, step)
    case ReadSlot(w, now) =>
      ReadsCache(s.state, w) && p.c.indexName in s.cache.byName && now - s.cache.byName[p.c.indexName].at < p.ttl
    case ReadAsked(w, t, at) => ReadsCache(s.state, w) && C.Enabled(s.cache, C.Store(t, p.c.indexName, at))
  }

  /** The read the worker makes, as the protocol sees it. */
  function SeenBy(p: Setup, s: World, a: Action): Option<Entry>
    requires Enabled(p, s, a) && (a.ReadSlot? || a.ReadAsked?)
  {
    if a.ReadSlot? then s.cache.byName[p.c.indexName].value else s.cache.asked[a.thread].value
  }

  /** A write that took effect reaches the wrapped registry. */
  function Reflected(p: Setup, cache: C.State, before: seq<P.Record>, after: seq<P.Record>): C.State {
    if |after| == |before| + 1 then cache.(entries := cache.entries[p.c.indexName := after[|before|].after]) else cache
  }

  function Next(p: Setup, s: World, a: Action): World
    requires Enabled(p, s, a)
  {
    match a
    case Own(act) =>
      var v := P.Next(p.c, s.state, act);
      World(v, Reflected(p, s.cache, s.state.core.log, v.core.log))
    case Cache(step) => s.(cache := C.Next(s.cache, step))
    case ReadSlot(w, _) => s.(state := ReadBy(p, s.state, w, SeenBy(p, s, a)))
    case ReadAsked(w, t, at) =>
      World(ReadBy(p, s.state, w, SeenBy(p, s, a)), C.Next(s.cache, C.Store(t, p.c.indexName, at)))
  }

  /** The worker goes on with what it was shown. */
  function ReadBy(p: Setup, v: P.State, w: P.WorkerId, seen: Option<Entry>): P.State
    requires ReadsCache(v, w)
  {
    v.(workers := v.workers[w := P.AfterRead(p.c, v.clock, v.workers[w], seen)])
  }

  predicate Legal(p: Setup, s: World, run: seq<Action>)
    decreases |run|
  {
    run == [] || (Enabled(p, s, run[0]) && Legal(p, Next(p, s, run[0]), run[1..]))
  }

  function Execute(p: Setup, s: World, run: seq<Action>): World
    requires Legal(p, s, run)
    decreases |run|
  {
    if run == [] then s else Execute(p, Next(p, s, run[0]), run[1..])
  }

  // ---- everything the cache can show was once stored ----

  ghost predicate Past(log: seq<P.Record>, v: Option<Entry>) { v.Some? ==> P.EverStored(log, v.value) }

  ghost predicate Inv(p: Setup, s: World) {
    && Lookup(s.cache.entries, p.c.indexName) == P.Cell(s.state.core.log)
    && (p.c.indexName in s.cache.byName ==> Past(s.state.core.log, s.cache.byName[p.c.indexName].value))
    && (forall t :: t in s.cache.asked && s.cache.asked[t].name == p.c.indexName ==> Past(s.state.core.log, s.cache.asked[t].value))
  }

  predicate Initial(p: Setup, s: World) {
    P.Initial(s.state) && C.Initial(s.cache) && p.c.indexName !in s.cache.entries
  }

  /** The history grows by at most one write, and that write is what the registry makes of it. */
  lemma OneWrite(c: P.Config, v: P.State, act: P.Action)
    requires P.Enabled(c, v, act)
    ensures var log, log' := v.core.log, P.Next(c, v, act).core.log;
            || log' == log
            || (|log'| == |log| + 1 && log'[..|log|] == log && Written(P.Cell(log), log'[|log|].op) == Some(log'[|log|].after))
  {
  }

  /** So what the cache wraps moves exactly as the lock-based registry does. */
  lemma ReflectedIsPerformed(p: Setup, s: World, act: P.Action)
    requires Inv(p, s) && Enabled(p, s, Own(act))
    ensures var log, log' := s.state.core.log, P.Next(p.c, s.state, act).core.log;
            Next(p, s, Own(act)).cache.entries ==
              if log' == log then s.cache.entries else PerformOn(s.cache.entries, p.c.indexName, log'[|log|].op)
  {
    OneWrite(p.c, s.state, act);
  }

  lemma PastGrows(log: seq<P.Record>, log': seq<P.Record>, v: Option<Entry>)
    requires Past(log, v) && log <= log'
    ensures Past(log', v)
  {
    if v.Some? { I.StoredGrows(log, log', v.value); }
  }

  lemma CellIsPast(log: seq<P.Record>)
    ensures Past(log, P.Cell(log))
  {
    if log != [] { assert log[|log| - 1].after == P.Cell(log).value; }
  }

  lemma OwnKeeps(p: Setup, s: World, act: P.Action)
    requires Inv(p, s) && Enabled(p, s, Own(act))
    ensures Inv(p, Next(p, s, Own(act)))
  {
    OneWrite(p.c, s.state, act);
    var s' := Next(p, s, Own(act));
    var log, log' := s.state.core.log, s'.state.core.log;
    if p.c.indexName in s.cache.byName { PastGrows(log, log', s.cache.byName[p.c.indexName].value); }
    forall t | t in s.cache.asked && s.cache.asked[t].name == p.c.indexName ensures Past(log', s.cache.asked[t].value) {
      PastGrows(log, log', s.cache.asked[t].value);
    }
  }

  lemma Step(p: Setup, s: World, a: Action)
    requires Inv(p, s) && Enabled(p, s, a)
    ensures Inv(p, Next(p, s, a))
  {
    match a
    case Own(act) => OwnKeeps(p, s, act);
    case _ => CellIsPast(s.state.core.log);
  }

  /** What the worker is shown is a read the protocol allows. */
  lemma ReadIsAllowed(p: Setup, s: World, a: Action)
    requires Inv(p, s) && Enabled(p, s, a) && (a.ReadSlot? || a.ReadAsked?)
    ensures P.Enabled(p.c, s.state, P.Read(a.w, SeenBy(p, s, a)))
    ensures Next(p, s, a).state == P.Next(p.c, s.state, P.Read(a.w, SeenBy(p, s, a)))
  {
    assert Past(s.state.core.log, SeenBy(p, s, a));
  }

  /** A protocol run whose reads go through the cache is a run of the protocol: the cache's own
      steps disappear, and each cached read is a read of an earlier value or of absence. */
  lemma {:induction false} IsProtocolRun(p: Setup, s: World, run: seq<Action>) returns (seen: seq<P.Action>)
    requires Inv(p, s) && Legal(p, s, run)
    ensures P.Legal(p.c, s.state, seen) && P.Execute(p.c, s.state, seen) == Execute(p, s, run).state
    ensures |seen| <= |run|
    decreases |run|
  {
    seen := [];
    if run != [] {
      Step(p, s, run[0]);
      var rest := IsProtocolRun(p, Next(p, s, run[0]), run[1..]);
      match run[0] {
        case Cache(_) => seen := rest;
        case Own(act) => seen := [act] + rest;
        case ReadSlot(w, _) =>
          ReadIsAllowed(p, s, run[0]);
          seen := [P.Read(w, SeenBy(p, s, run[0]))] + rest;
        case ReadAsked(w, _, _) =>
          ReadIsAllowed(p, s, run[0]);
          seen := [P.Read(w, SeenBy(p, s, run[0]))] + rest;
      }
      if !run[0].Cache? { assert seen[1..] == rest; }
    }
  }

  /** So every guarantee of the protocol holds behind the cache, whatever its TTL, however its
      threads interleave and whoever clears it when. */
  lemma ClaimsBehindTheCache(p: Setup, s0: World, run: seq<Action>)
    requires Initial(p, s0) && Legal(p, s0, run)
    ensures var s := Execute(p, s0, run).state;
            && H.Exclusive(s.core.log) && H.SettingsFixed(s.core) && H.Monotone(s.core.log) && H.ReadyIsReal(s)
            && Lookup(Execute(p, s0, run).cache.entries, p.c.indexName) == P.Cell(s.core.log)
  {
    var seen := IsProtocolRun(p, s0, run);
    H.ReachesFromStart(p.c, s0.state, seen);
    var s := Execute(p, s0, run).state;
    H.ChainIsExclusive(s.core.log);
    H.CoreFixesSettings(s.core);
    H.ChainIsMonotone(s.core.log);
    H.InvMeansReal(s);
    StaysLinked(p, s0, run);
  }

  lemma {:induction false} StaysLinked(p: Setup, s: World, run: seq<Action>)
    requires Inv(p, s) && Legal(p, s, run)
    ensures Inv(p, Execute(p, s, run))
    decreases |run|
  {
    if run != [] {
      Step(p, s, run[0]);
      StaysLinked(p, Next(p, s, run[0]), run[1..]);
    }
  }
}
