/**
 The ETag-conditional registry over a table whose writes can time out ambiguously.

 A call reads a row, then sends a conditional write (insert-if-absent, or replace while the
 row's ETag is the one read: If-Match, section 13.1.1 of RFC 9110). A timed-out attempt stays
 with the network and may be served at any later moment, any number of times, also after its
 call has given up. Rows are keyed by (vertical, index name).
 */
module Table {
  import opened Options
  import opened Entries
  import opened Registry

  type CallId = nat
  type Key = (string, string)

  datatype Row = Row(entry: Entry, etag: nat)

  /** A replace remembers the entry it was computed from. */
  datatype Request = Insert(entry: Entry) | Replace(entry: Entry, etag: nat, base: Entry)

  datatype Verdict = Answered(entry: Entry) | Refused | Unavailable

  datatype Phase =
    | Reading
    | Writing(attempts: nat)
    | Rereading
    | Finished(verdict: Verdict)

  datatype Call = Call(name: string, op: Op, phase: Phase, key: Key, request: Option<Request>, sent: bool)

  /** One write that took effect, and for which call. */
  datatype Effect = Effect(id: CallId, name: string, op: Op)

  /** `stamped` remembers what each ETag was issued for. */
  datatype State = State(
    rows: map<Key, Row>,
    stamped: seq<(Key, Entry)>,
    calls: map<CallId, Call>,
    log: seq<Effect>)

  datatype Action =
    | Invoke(id: CallId, name: string, op: Op)
    | ReadRow(id: CallId, found: Option<Key>)
    | Attempt(id: CallId)
    | TimeOut(id: CallId)
    | LandLate(id: CallId)
    | Reread(id: CallId)
    | ReadDown(id: CallId)

  function EntryAt(rows: map<Key, Row>, key: Key): Option<Entry> {
    if key in rows then Some(rows[key].entry) else None
  }

  /** Does the server let the request through? */
  predicate Accepts(rows: map<Key, Row>, key: Key, request: Request) {
    match request
    case Insert(_) => key !in rows
    case Replace(_, etag, _) => key in rows && rows[key].etag == etag
  }

  /** The server's side of one delivery. */
  function Serve(s: State, id: CallId): State
    requires id in s.calls && s.calls[id].request.Some?
  {
    var call := s.calls[id];
    if Accepts(s.rows, call.key, call.request.value) then
      s.(rows := s.rows[call.key := Row(call.request.value.entry, |s.stamped|)],
         stamped := s.stamped + [(call.key, call.request.value.entry)],
         log := s.log + [Effect(id, call.name, call.op)])
    else s
  }

  /** A reclaim reads the row of the snapshot's own vertical, every other call whichever row
      has its name. */
  predicate MayFind(rows: map<Key, Row>, call: Call, found: Option<Key>) {
    if call.op.Reclaim? then
      var key := (call.op.observed.vertical, call.name);
      found == if key in rows then Some(key) else None
    else if found.Some? then found.value in rows && found.value.1 == call.name
    else forall k :: k in rows ==> k.1 != call.name
  }

  predicate Enabled(max: nat, s: State, a: Action) {
    match a
    case Invoke(id, name, op) =>
      && id !in s.calls && (op.Register? ==> name == op.candidate.indexName)
      && (NewToken(op).Some? ==> forall i :: i in s.calls ==> NewToken(s.calls[i].op) != NewToken(op))
    case ReadRow(id, found) =>
      id in s.calls && s.calls[id].phase.Reading? && MayFind(s.rows, s.calls[id], found)
    case Attempt(id) => id in s.calls && s.calls[id].phase.Writing? && s.calls[id].request.Some?
    case TimeOut(id) => id in s.calls && s.calls[id].phase.Writing? && s.calls[id].phase.attempts < max
    case LandLate(id) => id in s.calls && s.calls[id].sent && s.calls[id].request.Some?
    case Reread(id) => id in s.calls && s.calls[id].phase.Rereading?
    case ReadDown(id) => id in s.calls && (s.calls[id].phase.Reading? || s.calls[id].phase.Rereading?)
  }

  function SetPhase(s: State, id: CallId, phase: Phase): State
    requires id in s.calls
  {
    s.(calls := s.calls[id := s.calls[id].(phase := phase)])
  }

  function Next(max: nat, s: State, a: Action): State
    requires Enabled(max, s, a)
  {
    match a
    case Invoke(id, name, op) =>
      (match op
       case Register(e) =>
         s.(calls := s.calls[id := Call(name, op, Writing(0), (e.vertical, name), Some(Insert(e)), false)])
       case _ => s.(calls := s.calls[id := Call(name, op, Reading, ("", ""), None, false)]))
    case ReadRow(id, found) =>
      var call := s.calls[id];
      if found.None? then SetPhase(s, id, Finished(Refused))
      else
        var row := s.rows[found.value];
        (match Written(Some(row.entry), call.op)
         case None => SetPhase(s, id, Finished(Refused))
         case Some(updated) =>
           s.(calls := s.calls[id := call.(phase := Writing(0),
                                           key := (updated.vertical, call.name),
                                           request := Some(Replace(updated, row.etag, row.entry)))]))
    case Attempt(id) =>
      var call := s.calls[id];
      SetPhase(Serve(s, id), id,
               if Accepts(s.rows, call.key, call.request.value) then Finished(Answered(call.request.value.entry))
               else if call.op.Register? then Rereading
               else Finished(Refused))
    case TimeOut(id) =>
      var call := s.calls[id];
      var n := call.phase.attempts + 1;
      s.(calls := s.calls[id := call.(sent := true,
                                      phase := if n < max then Writing(n) else Finished(Unavailable))])
    case LandLate(id) => Serve(s, id)
    case Reread(id) =>
      var call := s.calls[id];
      SetPhase(s, id, if call.key in s.rows then Finished(Answered(s.rows[call.key].entry)) else Finished(Refused))
    case ReadDown(id) => SetPhase(s, id, Finished(Unavailable))
  }

  predicate Initial(s: State) { s == State(map[], [], map[], []) }

  predicate Legal(max: nat, s: State, run: seq<Action>)
    decreases |run|
  {
    run == [] || (Enabled(max, s, run[0]) && Legal(max, Next(max, s, run[0]), run[1..]))
  }

  function Execute(max: nat, s: State, run: seq<Action>): State
    requires Legal(max, s, run)
    decreases |run|
  {
    if run == [] then s else Execute(max, Next(max, s, run[0]), run[1..])
  }

  // ---- the refinement ----

  /** The lock-based registry after the same effects in the same order. */
  function Replay(log: seq<Effect>): map<string, Entry> {
    if log == [] then map[]
    else var last := log[|log| - 1]; PerformOn(Replay(log[..|log| - 1]), last.name, last.op)
  }

  /** The vertical is a function of the index name in everything callers pass. */
  predicate Homed(home: string -> string, name: string, op: Op) {
    match op
    case Register(e) => e.vertical == home(name)
    case Reclaim(o, n) => o.vertical == home(name) && n.vertical == home(name)
    case _ => true
  }

  ghost predicate HomedRun(home: string -> string, run: seq<Action>) {
    forall i :: 0 <= i < |run| && run[i].Invoke? ==> Homed(home, run[i].name, run[i].op)
  }

  /** Every effect is a step the lock-based registry would take on the same call. */
  ghost predicate Agrees(home: string -> string, s: State) {
    forall n: string :: Lookup(Replay(s.log), n) == EntryAt(s.rows, (home(n), n))
  }

  predicate RowOk(home: string -> string, s: State, k: Key)
    requires k in s.rows
  {
    && k.0 == home(k.1) && s.rows[k].entry.vertical == k.0
    && s.rows[k].etag < |s.stamped| && s.stamped[s.rows[k].etag] == (k, s.rows[k].entry)
  }

  predicate CallOk(home: string -> string, s: State, call: Call) {
    && Homed(home, call.name, call.op)
    && (call.phase.Writing? || call.sent || call.phase.Rereading? ==> call.request.Some?)
    && (call.phase.Rereading? ==> call.op.Register?)
    && (call.phase.Reading? ==> call.request.None?)
    && (call.request.Some? ==>
          && call.key == (home(call.name), call.name)
          && call.request.value.entry.vertical == home(call.name)
          && match call.request.value
             case Insert(e) => call.op == Register(e)
             case Replace(u, etag, base) =>
               && !call.op.Register?
               && etag < |s.stamped| && s.stamped[etag] == (call.key, base)
               && Written(Some(base), call.op) == Some(u))
  }

  /** A request whose effect has been recorded can never be accepted again. */
  predicate Spent(s: State, call: Call) {
    && call.request.Some? && call.key in s.rows
    && (call.request.value.Replace? ==> s.rows[call.key].etag > call.request.value.etag)
  }

  ghost predicate LogOk(s: State) {
    && (forall i :: 0 <= i < |s.log| ==> Recorded(s, s.log[i]))
    && (forall i, j :: 0 <= i < j < |s.log| ==> s.log[i].id != s.log[j].id)
  }

  ghost predicate Inv(home: string -> string, s: State) {
    && (forall k :: k in s.rows ==> RowOk(home, s, k))
    && (forall i :: i in s.calls ==> CallOk(home, s, s.calls[i]))
    && LogOk(s)
    && Agrees(home, s)
  }

  /** An accepted request finds exactly the entry it was computed from: an ETag is issued
      once, so an equal ETag means an untouched row. */
  lemma AcceptedMeansUntouched(home: string -> string, s: State, id: CallId)
    requires Inv(home, s) && id in s.calls && s.calls[id].request.Some?
    requires Accepts(s.rows, s.calls[id].key, s.calls[id].request.value)
    ensures var call := s.calls[id];
            Written(Lookup(Replay(s.log), call.name), call.op) == Some(call.request.value.entry)
    ensures forall i :: 0 <= i < |s.log| ==> s.log[i].id != id
  {
    var call := s.calls[id];
    assert CallOk(home, s, call);
    assert Lookup(Replay(s.log), call.name) == EntryAt(s.rows, call.key);
    if call.request.value.Replace? {
      assert RowOk(home, s, call.key);
    }
  }

  lemma ServeAgrees(home: string -> string, s: State, id: CallId)
    requires Inv(home, s) && id in s.calls && s.calls[id].request.Some?
    requires Accepts(s.rows, s.calls[id].key, s.calls[id].request.value)
    ensures Agrees(home, Serve(s, id))
  {
    var call := s.calls[id];
    var e := call.request.value.entry;
    AcceptedMeansUntouched(home, s, id);
    assert CallOk(home, s, call);
    ReplayNext(s.log, Effect(id, call.name, call.op), e);
    var s' := Serve(s, id);
    forall n: string ensures Lookup(Replay(s'.log), n) == EntryAt(s'.rows, (home(n), n)) {
      assert Lookup(Replay(s.log), n) == EntryAt(s.rows, (home(n), n));
    }
  }

  lemma ReplayNext(log: seq<Effect>, effect: Effect, e: Entry)
    requires Written(Lookup(Replay(log), effect.name), effect.op) == Some(e)
    ensures Replay(log + [effect]) == Replay(log)[effect.name := e]
  {
    assert (log + [effect])[..|log|] == log;
  }

  lemma ServeRows(home: string -> string, s: State, id: CallId, k: Key)
    requires Inv(home, s) && id in s.calls && s.calls[id].request.Some? && k in Serve(s, id).rows
    ensures RowOk(home, Serve(s, id), k)
  {
    assert CallOk(home, s, s.calls[id]);
    if k in s.rows { assert RowOk(home, s, k); }
  }

  ghost predicate Recorded(s: State, e: Effect) {
    && e.id in s.calls && s.calls[e.id].name == e.name && s.calls[e.id].op == e.op
    && Spent(s, s.calls[e.id])
  }

  /** The request just accepted is spent, and those spent before stay spent. */
  lemma ServeSpends(home: string -> string, s: State, id: CallId)
    requires Inv(home, s) && id in s.calls && s.calls[id].request.Some?
    requires Accepts(s.rows, s.calls[id].key, s.calls[id].request.value)
    ensures Recorded(Serve(s, id), Effect(id, s.calls[id].name, s.calls[id].op))
  {
    assert CallOk(home, s, s.calls[id]);
  }

  lemma StaysSpent(home: string -> string, s: State, id: CallId, e: Effect)
    requires Inv(home, s) && id in s.calls && s.calls[id].request.Some? && Recorded(s, e)
    requires Accepts(s.rows, s.calls[id].key, s.calls[id].request.value)
    ensures Recorded(Serve(s, id), e)
  {
    assert CallOk(home, s, s.calls[id]) && CallOk(home, s, s.calls[e.id]);
  }

  lemma ServeCalls(home: string -> string, s: State, id: CallId, i: CallId)
    requires Inv(home, s) && id in s.calls && s.calls[id].request.Some? && i in s.calls
    ensures CallOk(home, Serve(s, id), s.calls[i])
  {
    assert CallOk(home, s, s.calls[i]);
  }

  lemma ServeLog(home: string -> string, s: State, id: CallId)
    requires Inv(home, s) && id in s.calls && s.calls[id].request.Some?
    requires Accepts(s.rows, s.calls[id].key, s.calls[id].request.value)
    ensures LogOk(Serve(s, id))
  {
    var s' := Serve(s, id);
    AcceptedMeansUntouched(home, s, id);
    ServeSpends(home, s, id);
    forall i | 0 <= i < |s.log| ensures Recorded(s', s.log[i]) {
      StaysSpent(home, s, id, s.log[i]);
    }
    LogExtends(s', s.log, Effect(id, s.calls[id].name, s.calls[id].op));
  }

  lemma LogExtends(s: State, log: seq<Effect>, e: Effect)
    requires s.log == log + [e] && Recorded(s, e)
    requires forall i :: 0 <= i < |log| ==> Recorded(s, log[i]) && log[i].id != e.id
    requires forall i, j :: 0 <= i < j < |log| ==> log[i].id != log[j].id
    ensures LogOk(s)
  {
  }

  lemma ServeKeeps(home: string -> string, s: State, id: CallId)
    requires Inv(home, s) && id in s.calls && s.calls[id].request.Some?
    ensures Inv(home, Serve(s, id))
  {
    var s' := Serve(s, id);
    if Accepts(s.rows, s.calls[id].key, s.calls[id].request.value) {
      ServeAgrees(home, s, id);
      ServeLog(home, s, id);
      forall k | k in s'.rows ensures RowOk(home, s', k) {
        ServeRows(home, s, id, k);
      }
      forall i | i in s'.calls ensures CallOk(home, s', s'.calls[i]) {
        ServeCalls(home, s, id, i);
      }
    }
  }

  lemma PhaseLog(s: State, id: CallId, call: Call)
    requires LogOk(s)
    requires id in s.calls ==> call.name == s.calls[id].name && call.op == s.calls[id].op
    requires id in s.calls && s.calls[id].request.Some? ==> call.request == s.calls[id].request && call.key == s.calls[id].key
    ensures LogOk(s.(calls := s.calls[id := call]))
  {
  }

  /** Changing one call's phase, or adding a call, leaves everything else as it was. */
  lemma PhaseKeeps(home: string -> string, s: State, id: CallId, call: Call)
    requires Inv(home, s) && CallOk(home, s, call)
    requires id in s.calls ==> call.name == s.calls[id].name && call.op == s.calls[id].op
    requires id in s.calls && s.calls[id].request.Some? ==> call.request == s.calls[id].request && call.key == s.calls[id].key
    ensures Inv(home, s.(calls := s.calls[id := call]))
  {
    var s' := s.(calls := s.calls[id := call]);
    PhaseLog(s, id, call);
    forall k | k in s'.rows ensures RowOk(home, s', k) { assert RowOk(home, s, k); }
    forall n: string ensures Lookup(Replay(s'.log), n) == EntryAt(s'.rows, (home(n), n)) {
      assert Lookup(Replay(s.log), n) == EntryAt(s.rows, (home(n), n));
    }
    forall i | i in s'.calls ensures CallOk(home, s', s'.calls[i]) {
      if i != id { assert CallOk(home, s, s.calls[i]); }
    }
  }

  lemma AttemptKeeps(home: string -> string, max: nat, s: State, id: CallId)
    requires Inv(home, s) && Enabled(max, s, Attempt(id))
    ensures Inv(home, Next(max, s, Attempt(id)))
  {
    ServeKeeps(home, s, id);
    var t, call := Serve(s, id), Next(max, s, Attempt(id)).calls[id];
    assert CallOk(home, t, t.calls[id]);
    PhaseKeeps(home, t, id, call);
  }

  lemma ReadKeeps(home: string -> string, max: nat, s: State, a: Action)
    requires Inv(home, s) && a.ReadRow? && Enabled(max, s, a)
    ensures Inv(home, Next(max, s, a))
  {
    assert CallOk(home, s, s.calls[a.id]);
    if a.found.Some? { assert RowOk(home, s, a.found.value); }
    PhaseKeeps(home, s, a.id, Next(max, s, a).calls[a.id]);
  }

  lemma Step(home: string -> string, max: nat, s: State, a: Action)
    requires Inv(home, s) && Enabled(max, s, a)
    requires a.Invoke? ==> Homed(home, a.name, a.op)
    ensures Inv(home, Next(max, s, a))
  {
    match a
    case Attempt(id) => AttemptKeeps(home, max, s, id);
    case LandLate(id) => ServeKeeps(home, s, id);
    case ReadRow(_, _) => ReadKeeps(home, max, s, a);
    case Invoke(id, _, _) => PhaseKeeps(home, s, id, Next(max, s, a).calls[id]);
    case TimeOut(id) => QuietKeeps(home, max, s, a);
    case Reread(id) => QuietKeeps(home, max, s, a);
    case ReadDown(id) => QuietKeeps(home, max, s, a);
  }

  lemma QuietKeeps(home: string -> string, max: nat, s: State, a: Action)
    requires Inv(home, s) && (a.TimeOut? || a.Reread? || a.ReadDown?) && Enabled(max, s, a)
    ensures Inv(home, Next(max, s, a))
  {
    assert CallOk(home, s, s.calls[a.id]);
    PhaseKeeps(home, s, a.id, Next(max, s, a).calls[a.id]);
  }

  lemma {:induction false} Reaches(home: string -> string, max: nat, s: State, run: seq<Action>)
    requires Inv(home, s) && Legal(max, s, run) && HomedRun(home, run)
    ensures Inv(home, Execute(max, s, run))
    decreases |run|
  {
    if run != [] {
      Step(home, max, s, run[0]);
      Reaches(home, max, Next(max, s, run[0]), run[1..]);
    }
  }
}
