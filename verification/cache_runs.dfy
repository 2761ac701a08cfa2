/**
 The cache under threads. A `get` is up to three separate steps: a look under the lock, an
 unlocked call of the wrapped registry, and a store under the lock. A write is two: the call of
 the wrapped registry and the clearing of the cache. Any number of threads interleave between
 these steps, and writers that do not go through this cache write without clearing it.
 */
module CacheRuns {
  import opened Options
  import opened Entries
  import opened Registry

  type ThreadId = nat

  datatype Slot = Slot(value: Option<Entry>, at: Time)

  datatype Asked = Asked(name: string, value: Option<Entry>)

  datatype State = State(entries: map<string, Entry>, byName: map<string, Slot>, asked: map<ThreadId, Asked>)

  datatype Action =
    | Ask(thread: ThreadId, name: string)
    | Store(thread: ThreadId, name: string, at: Time)
    | Write(name: string, op: Op)
    | Clear

  predicate Initial(s: State) { s.byName == map[] && s.asked == map[] }

  predicate Enabled(s: State, a: Action) {
    match a
    case Ask(t, _) => t !in s.asked
    case Store(t, name, _) => t in s.asked && s.asked[t].name == name
    case Write(name, op) => op.Register? ==> op.candidate.indexName == name
    case Clear => true
  }

  function Next(s: State, a: Action): State
    requires Enabled(s, a)
  {
    match a
    case Ask(t, name) => s.(asked := s.asked[t := Asked(name, Lookup(s.entries, name))])
    case Store(t, name, at) => s.(byName := s.byName[name := Slot(s.asked[t].value, at)], asked := s.asked - {t})
    case Write(name, op) => s.(entries := PerformOn(s.entries, name, op))
    case Clear => s.(byName := map[])
  }

  /** The first `n` steps can be taken. */
  predicate Legal(s: State, run: seq<Action>, n: nat)
    requires n <= |run|
    decreases n, 0
  {
    n == 0 || (Legal(s, run, n - 1) && Enabled(Execute(s, run, n - 1), run[n - 1]))
  }

  /** The state after the first `n` steps. */
  function Execute(s: State, run: seq<Action>, n: nat): State
    requires n <= |run| && Legal(s, run, n)
    decreases n, 1
  {
    if n == 0 then s else Next(Execute(s, run, n - 1), run[n - 1])
  }

  /** What a `get` returns that starts now and is not overtaken. */
  function Answer(ttl: int, s: State, name: string, now: Time): Option<Entry> {
    if name in s.byName && now - s.byName[name].at < ttl then s.byName[name].value else Lookup(s.entries, name)
  }

  lemma {:induction false} LegalPrefix(s: State, run: seq<Action>, n: nat, i: nat)
    requires i <= n <= |run| && Legal(s, run, n)
    ensures Legal(s, run, i)
  {
    if i < n { LegalPrefix(s, run, n - 1, i); }
  }

  /** What the wrapped registry held for a name before step `i` of a legal run. */
  ghost function Held(s: State, run: seq<Action>, i: nat, name: string): Option<Entry>
    requires i <= |run| && Legal(s, run, |run|)
  {
    LegalPrefix(s, run, |run|, i);
    Lookup(Execute(s, run, i).entries, name)
  }

  predicate StoresName(a: Action, name: string) { a.Store? && a.name == name }

  /** The last store of a name among the first `n` steps, if no clearing followed it. */
  function LastStore(run: seq<Action>, name: string, n: nat): (r: Option<nat>)
    requires n <= |run|
    ensures r.Some? ==>
              && r.value < n && StoresName(run[r.value], name)
              && forall j :: r.value < j < n ==> !run[j].Clear? && !StoresName(run[j], name)
    ensures r.None? ==> forall i :: 0 <= i < n && StoresName(run[i], name) ==> exists j :: i < j < n && run[j].Clear?
  {
    if n == 0 || run[n - 1].Clear? then None
    else if StoresName(run[n - 1], name) then Some(n - 1)
    else LastStore(run, name, n - 1)
  }

  predicate AsksFor(a: Action, thread: ThreadId) { a.Ask? && a.thread == thread }

  /** The last time a thread asked before step `i`. */
  function AskBefore(run: seq<Action>, thread: ThreadId, i: nat): (r: Option<nat>)
    requires i <= |run|
    ensures r.Some? ==>
              r.value < i && AsksFor(run[r.value], thread) && forall j :: r.value < j < i ==> !AsksFor(run[j], thread)
  {
    if i == 0 then None
    else if AsksFor(run[i - 1], thread) then Some(i - 1)
    else AskBefore(run, thread, i - 1)
  }

  // ---- what the cache holds, from the history alone ----

  /** A thread on its way to store holds what the registry answered when it asked. */
  lemma {:induction false} AskedIs(s: State, run: seq<Action>, n: nat, t: ThreadId)
    requires Initial(s) && n <= |run| && Legal(s, run, |run|) && Legal(s, run, n) && t in Execute(s, run, n).asked
    ensures var a := AskBefore(run, t, n);
            a.Some? && run[a.value].name == Execute(s, run, n).asked[t].name
            && Execute(s, run, n).asked[t].value == Held(s, run, a.value, run[a.value].name)
  {
    if n > 0 && !AsksFor(run[n - 1], t) { AskedIs(s, run, n - 1, t); }
  }

  /** The name is cached exactly if some store of it has not been cleared since; the slot then
      holds that store's stamp and what its thread was answered when it asked. */
  lemma {:induction false} SlotIs(s: State, run: seq<Action>, n: nat, name: string)
    requires Initial(s) && n <= |run| && Legal(s, run, |run|) && Legal(s, run, n)
    ensures var last := LastStore(run, name, n);
            && (name in Execute(s, run, n).byName <==> last.Some?)
            && (last.Some? ==>
                  var a := AskBefore(run, run[last.value].thread, last.value);
                  && a.Some? && run[a.value].name == name
                  && Execute(s, run, n).byName[name] == Slot(Held(s, run, a.value, name), run[last.value].at))
  {
    if n > 0 {
      SlotIs(s, run, n - 1, name);
      if StoresName(run[n - 1], name) { AskedIs(s, run, n - 1, run[n - 1].thread); }
    }
  }

  /** The value the last uncleared store put in, and its stamp. */
  ghost function Stored(s: State, run: seq<Action>, name: string): Option<Slot>
    requires Initial(s) && Legal(s, run, |run|)
  {
    var last := LastStore(run, name, |run|);
    if last.None? then None
    else
      SlotIs(s, run, |run|, name);
      var a := AskBefore(run, run[last.value].thread, last.value);
      Some(Slot(Held(s, run, a.value, name), run[last.value].at))
  }

  /** Over every interleaving: a read is current if and only if nobody has stored the name since
      the last clearing, or the last such store has expired, or what it stored is what the
      registry holds now. */
  lemma ReadIsCurrentIff(ttl: int, s: State, run: seq<Action>, name: string, now: Time)
    requires Initial(s) && Legal(s, run, |run|)
    ensures Answer(ttl, Execute(s, run, |run|), name, now) == Held(s, run, |run|, name) <==>
              var slot := Stored(s, run, name);
              slot.None? || now - slot.value.at >= ttl || slot.value.value == Held(s, run, |run|, name)
  {
    SlotIs(s, run, |run|, name);
  }

  predicate Writes(a: Action, name: string) { a.Write? && a.name == name }

  lemma {:induction false} HeldWithoutWrites(s: State, run: seq<Action>, i: nat, j: nat, name: string)
    requires i <= j <= |run| && Legal(s, run, |run|)
    requires forall k :: i <= k < j ==> !Writes(run[k], name)
    ensures Held(s, run, j, name) == Held(s, run, i, name)
  {
    if i < j {
      HeldWithoutWrites(s, run, i, j - 1, name);
      LegalPrefix(s, run, |run|, j);
    }
  }

  /** Where a stale read comes from: a thread that asked before the last write of that name, and
      stored after the last clearing. */
  lemma StaleAskedBeforeWrite(ttl: int, s: State, run: seq<Action>, name: string, now: Time)
    requires Initial(s) && Legal(s, run, |run|)
    requires Answer(ttl, Execute(s, run, |run|), name, now) != Held(s, run, |run|, name)
    ensures exists a, k, i ::
              && 0 <= a < i < |run| && a < k < |run|
              && run[a].Ask? && run[a].name == name && Writes(run[k], name)
              && StoresName(run[i], name) && run[i].thread == run[a].thread && now - run[i].at < ttl
              && (forall j :: i < j < |run| ==> !run[j].Clear?)
  {
    SlotIs(s, run, |run|, name);
    var i := LastStore(run, name, |run|).value;
    var a := AskBefore(run, run[i].thread, i).value;
    if forall k :: a < k < |run| ==> !Writes(run[k], name) {
      HeldWithoutWrites(s, run, a, |run|, name);
    }
    var k :| a < k < |run| && Writes(run[k], name);
    assert run[a].Ask? && StoresName(run[i], name);
  }

  /** A write at step `w` that took effect and that nobody has overwritten: the reads after it
      show it if and only if the last uncleared store, if there is one that has not expired, has
      stored just that entry; and every thread that asked after the write stores that entry. In
      particular this says when a read after `touch_verified` reflects it. */
  lemma WriteIsVisibleIff(ttl: int, s: State, run: seq<Action>, w: nat, name: string, now: Time)
    requires Initial(s) && Legal(s, run, |run|) && w < |run| && Writes(run[w], name)
    requires Written(Held(s, run, w, name), run[w].op).Some?
    requires forall k :: w < k < |run| ==> !Writes(run[k], name)
    ensures var e := Written(Held(s, run, w, name), run[w].op);
            var slot := Stored(s, run, name);
            var last := LastStore(run, name, |run|);
            && Held(s, run, |run|, name) == e
            && (Answer(ttl, Execute(s, run, |run|), name, now) == e <==>
                  slot.None? || now - slot.value.at >= ttl || slot.value.value == e)
            && (last.Some? ==>
                  var a := AskBefore(run, run[last.value].thread, last.value);
                  a.Some? && (a.value > w ==> slot.value.value == e))
  {
    LegalPrefix(s, run, |run|, w + 1);
    HeldWithoutWrites(s, run, w + 1, |run|, name);
    ReadIsCurrentIff(ttl, s, run, name, now);
    SlotIs(s, run, |run|, name);
    var last := LastStore(run, name, |run|);
    if last.Some? && AskBefore(run, run[last.value].thread, last.value).value > w {
      HeldWithoutWrites(s, run, w + 1, AskBefore(run, run[last.value].thread, last.value).value, name);
    }
  }

  /** So if the clearing that follows the write is followed only by stores of threads that asked
      after the write, the promise holds; one thread that asked before it is enough to break it. */
  lemma TouchIsLost(ttl: int, entries: map<string, Entry>, name: string, at: Time, now: Time)
    requires name in entries && entries[name].lastVerifiedAt != Some(at) && ttl > 0
    ensures var s := State(entries, map[], map[]);
            var run := [Ask(0, name), Write(name, Touch(at)), Clear, Store(0, name, now)];
            && Legal(s, run, 4)
            && Held(s, run, 4, name) == Some(entries[name].(lastVerifiedAt := Some(at)))
            && Answer(ttl, Execute(s, run, 4), name, now) == Some(entries[name])
  {
    var s := State(entries, map[], map[]);
    var run := [Ask(0, name), Write(name, Touch(at)), Clear, Store(0, name, now)];
    var s1 := Next(s, run[0]);
    var s2 := Next(s1, run[1]);
    var s3 := Next(s2, run[2]);
    assert Legal(s, run, 0) && Execute(s, run, 0) == s;
    assert Legal(s, run, 1) && Execute(s, run, 1) == s1;
    assert Legal(s, run, 2) && Execute(s, run, 2) == s2;
    assert Legal(s, run, 3) && Execute(s, run, 3) == s3;
  }
}
