/**
 The claim protocol over the ETag table. The workers are the protocol's; every registry write
 of theirs is a call of the table, which reads, sends a conditional write, may time out, be
 retried, land late or be read back. Between the call and its return the worker waits while
 everyone else goes on. Reads of the workers may be stale, as in the protocol.
 */
module TableProtocol {
  import opened Options
  import opened Entries
  import opened Registry
  import P = Protocol
  import I = ProtocolInvariant
  import H = ProtocolTheorems
  import M = ProtocolTimes
  import T = Table
  import A = TableTheorems

  type WorkerId = P.WorkerId

  /** A worker inside a registry write. */
  datatype Pending = Pending(id: T.CallId, token: Token)

  datatype World = World(
    core: P.Core,
    clock: Time,
    workers: map<WorkerId, P.Worker>,
    table: T.State,
    pending: map<WorkerId, Pending>,
    callers: map<T.CallId, WorkerId>)

  datatype Action =
    | Own(act: P.Action)
    | Call(w: WorkerId, id: T.CallId, token: Token)
    | Net(step: T.Action)
    | Return(w: WorkerId)

  /** The index, the vertical its name belongs to, and the table's retry budget. */
  datatype Setup = Setup(c: P.Config, home: string -> string, max: nat)

  function Key(p: Setup): T.Key { (p.home(p.c.indexName), p.c.indexName) }

  /** The protocol's view: the same workers, and the table's effects as the shared history. */
  function View(s: World): P.State { P.State(s.core, s.clock, s.workers) }

  predicate Initial(s: World) {
    && P.Initial(View(s)) && T.Initial(s.table) && s.pending == map[] && s.callers == map[]
  }

  predicate Enabled(p: Setup, s: World, a: Action) {
    match a
    case Own(act) =>
      && !act.Write? && !act.Land? && P.Enabled(p.c, View(s), act)
      && (I.Actor(act).Some? ==> I.Actor(act).value !in s.pending)
      && (act.Spawn? ==> act.scenario.vertical == p.home(p.c.indexName))
    case Call(w, id, token) =>
      && w in s.workers && w !in s.pending && P.WritesRegistry(p.c, s.clock, s.workers[w])
      && (P.DrawsToken(s.workers[w].pc) ==> token !in s.core.issued)
      && T.Enabled(p.max, s.table, T.Invoke(id, p.c.indexName, P.OpOf(p.c, s.clock, s.workers[w], token)))
    case Net(step) => !step.Invoke? && T.Enabled(p.max, s.table, step)
    case Return(w) =>
      && w in s.pending && w in s.workers && s.pending[w].id in s.table.calls
      && s.table.calls[s.pending[w].id].phase.Finished? && P.WritesRegistry(p.c, s.clock, s.workers[w])
  }

  /** What the worker makes of the table's verdict. */
  function Answered(p: Setup, now: Time, wk: P.Worker, token: Token, v: T.Verdict): P.Worker
    requires P.WritesRegistry(p.c, now, wk)
  {
    match v
    case Answered(e) => P.AfterWrite(p.c, now, wk, token, Returned(e))
    case Refused => P.AfterWrite(p.c, now, wk, token, Conflict)
    case Unavailable => wk.(pc := P.Raised(P.RegistryUnavailable))
  }

  /** A table step that took effect is one more write of the shared history. */
  function Recorded(s: World, table: T.State): P.Core {
    if |table.log| == |s.table.log| + 1 && table.log[|s.table.log|].id in s.callers then
      P.Commit(s.core, table.log[|s.table.log|].op, s.callers[table.log[|s.table.log|].id])
    else s.core
  }

  function Next(p: Setup, s: World, a: Action): World
    requires Enabled(p, s, a)
  {
    match a
    case Own(act) =>
      var v := P.Next(p.c, View(s), act);
      s.(core := v.core, clock := v.clock, workers := v.workers)
    case Call(w, id, token) =>
      var op := P.OpOf(p.c, s.clock, s.workers[w], token);
      s.(core := P.Issue(s.core, s.workers[w].pc, token),
         table := T.Next(p.max, s.table, T.Invoke(id, p.c.indexName, op)),
         pending := s.pending[w := Pending(id, token)],
         callers := s.callers[id := w])
    case Net(step) =>
      var table := T.Next(p.max, s.table, step);
      s.(core := Recorded(s, table), table := table)
    case Return(w) =>
      var v := s.table.calls[s.pending[w].id].phase.verdict;
      s.(workers := s.workers[w := Answered(p, s.clock, s.workers[w], s.pending[w].token, v)],
         pending := s.pending - {w})
  }

  predicate Legal(p: Setup, s: World, run: seq<Action>)
    decreases |run|
  {
    run == [] || (Enabled(p, s, run[0]) && Legal(p, Next(p, s, run[0]), run[1..]))
  }

  function Execute(p: Setup, s: World, run: seq<Action>): World
    requires Legal(p, s, run)
    decreases |run|
  {
    if run == [] then s else Execute(p, Next(p, s, run[0]), run[1..])
  }

  // ---- the invariant ----

  /** The history is the table's effects, and its last entry is the row. */
  ghost predicate Linked(p: Setup, s: World) {
    && P.Cell(s.core.log) == T.EntryAt(s.table.rows, Key(p))
    && |s.core.log| == |s.table.log|
    && (forall i :: 0 <= i < |s.core.log| ==> s.core.log[i].op == s.table.log[i].op)
  }

  /** What an answer tells the worker that gets it. */
  ghost predicate Fits(core: P.Core, op: Op, e: Entry) {
    && P.EverStored(core.log, e)
    && (op.MarkReady? || op.Touch? ==> e.status == Ready)
    && (op.Reclaim? ==> I.IsClaim(e))
  }

  /** Every call, pending, given up or still in the network, may take effect without harm. */
  ghost predicate CallFits(p: Setup, s: World, id: T.CallId)
    requires id in s.table.calls
  {
    var call := s.table.calls[id];
    && call.name == p.c.indexName && id in s.callers && I.OpOk(s.core, call.op)
    && (NewToken(call.op).Some? ==> NewToken(call.op).value in s.core.issued)
    && (!A.Logged(s.table.log, id) ==> I.TokenFreeIn(s.core.log, call.op))
    && (call.phase.Finished? && call.phase.verdict.Answered? ==> Fits(s.core, call.op, call.phase.verdict.entry))
  }

  predicate Matches(pc: P.Pc, op: Op) {
    match pc
    case Claiming => op.Register?
    case Waiting(_, _) => op.Reclaim?
    case MarkingFailed(_, _, _) => op.MarkFailed?
    case Finalizing(_) => op.MarkReady?
    case Touching(_) => op.Touch?
    case _ => false
  }

  ghost predicate PendingFits(p: Setup, s: World, w: WorkerId)
    requires w in s.pending
  {
    && w in s.workers && s.pending[w].id in s.table.calls
    && P.WritesRegistry(p.c, s.clock, s.workers[w]) && Matches(s.workers[w].pc, s.table.calls[s.pending[w].id].op)
  }

  ghost predicate CallsFit(p: Setup, s: World) { forall id :: id in s.table.calls ==> CallFits(p, s, id) }

  ghost predicate PendingsFit(p: Setup, s: World) { forall w :: w in s.pending ==> PendingFits(p, s, w) }

  ghost predicate AtHome(p: Setup, s: World) {
    forall w :: w in s.workers ==> s.workers[w].scenario.vertical == p.home(p.c.indexName)
  }

  ghost predicate Inv(p: Setup, s: World) {
    && I.Inv(View(s)) && s.core.flying == {}
    && T.Inv(p.home, s.table) && A.UniqueTokens(s.table.calls)
    && Linked(p, s) && CallsFit(p, s) && PendingsFit(p, s) && AtHome(p, s)
  }

  // ---- what growing history keeps ----

  lemma OpOkGrows(core: P.Core, core': P.Core, op: Op)
    requires I.OpOk(core, op) && I.Grows(core, core')
    ensures I.OpOk(core', op)
  {
    if op.Touch? {
      var i :| 0 <= i < |core.log| && core.log[i].after.status == Ready;
      assert core'.log[i].after.status == Ready;
    }
  }

  lemma FitsGrows(core: P.Core, core': P.Core, op: Op, e: Entry)
    requires Fits(core, op, e) && I.Grows(core, core')
    ensures Fits(core', op, e)
  {
    I.StoredGrows(core.log, core'.log, e);
  }

  /** A step that adds nothing to the history and to the calls keeps every call fitting. */
  lemma CallsKeep(p: Setup, s: World, s': World, id: T.CallId)
    requires id in s.table.calls && CallFits(p, s, id) && s'.table == s.table
    requires I.Grows(s.core, s'.core) && s'.core.log == s.core.log && s.core.issued <= s'.core.issued
    requires forall i :: i in s.callers ==> i in s'.callers
    ensures CallFits(p, s', id)
  {
    var call := s.table.calls[id];
    OpOkGrows(s.core, s'.core, call.op);
    if call.phase.Finished? && call.phase.verdict.Answered? { FitsGrows(s.core, s'.core, call.op, call.phase.verdict.entry); }
  }

  lemma AllCallsKeep(p: Setup, s: World, s': World)
    requires CallsFit(p, s) && s'.table == s.table
    requires I.Grows(s.core, s'.core) && s'.core.log == s.core.log && s.core.issued <= s'.core.issued
    requires forall i :: i in s.callers ==> i in s'.callers
    ensures CallsFit(p, s')
  {
    forall id | id in s'.table.calls ensures CallFits(p, s', id) { CallsKeep(p, s, s', id); }
  }

  lemma AllStillPending(p: Setup, s: World, s': World)
    requires PendingsFit(p, s) && s'.clock >= s.clock
    requires forall w :: w in s'.pending ==> w in s.pending && s'.pending[w] == s.pending[w]
    requires forall w :: w in s'.pending && w in s.workers ==> w in s'.workers && s'.workers[w] == s.workers[w]
    requires forall i :: i in s.table.calls ==> i in s'.table.calls && s'.table.calls[i].op == s.table.calls[i].op
    ensures PendingsFit(p, s')
  {
    forall w | w in s'.pending ensures PendingFits(p, s', w) {
      assert PendingFits(p, s, w);
      StillPending(p, s, s', w);
    }
  }

  // ---- the workers' own steps ----

  lemma OwnCore(p: Setup, s: World, act: P.Action)
    requires I.Inv(View(s)) && s.core.flying == {} && Enabled(p, s, Own(act))
    ensures var v := P.Next(p.c, View(s), act);
            && v.core.flying == {} && v.core.log == s.core.log && v.core.issued == s.core.issued && v.clock >= s.clock
            && I.Grows(s.core, v.core) && I.Inv(v)
  {
    I.Step(p.c, View(s), act);
    I.StepCore(p.c, View(s), act);
  }

  lemma StillPending(p: Setup, s: World, s': World, w: WorkerId)
    requires w in s.pending && PendingFits(p, s, w) && w in s'.pending && s'.pending[w] == s.pending[w]
    requires w in s'.workers && s'.workers[w] == s.workers[w] && s'.clock >= s.clock
    requires forall i :: i in s.table.calls ==> i in s'.table.calls && s'.table.calls[i].op == s.table.calls[i].op
    ensures PendingFits(p, s', w)
  {
  }

  lemma OwnStep(p: Setup, s: World, act: P.Action)
    requires Inv(p, s) && Enabled(p, s, Own(act))
    ensures Inv(p, Next(p, s, Own(act)))
  {
    var s' := Next(p, s, Own(act));
    var v := P.Next(p.c, View(s), act);
    OwnCore(p, s, act);
    assert View(s') == v;
    forall id | id in s'.table.calls ensures CallFits(p, s', id) { CallsKeep(p, s, s', id); }
    forall w | w in s'.pending ensures PendingFits(p, s', w) {
      assert PendingFits(p, s, w);
      OthersStay(p.c, View(s), act, w);
      StillPending(p, s, s', w);
    }
    forall w | w in s'.workers ensures s'.workers[w].scenario.vertical == p.home(p.c.indexName) {
      ScenarioStays(p.c, View(s), act, w);
    }
  }

  lemma OthersStay(c: P.Config, v: P.State, act: P.Action, w: WorkerId)
    requires P.Enabled(c, v, act) && w in v.workers && I.Actor(act) != Some(w)
    ensures w in P.Next(c, v, act).workers && P.Next(c, v, act).workers[w] == v.workers[w]
  {
  }

  lemma ScenarioStays(c: P.Config, v: P.State, act: P.Action, w: WorkerId)
    requires P.Enabled(c, v, act) && !act.Write? && w in P.Next(c, v, act).workers
    ensures if w in v.workers then P.Next(c, v, act).workers[w].scenario == v.workers[w].scenario
            else act.Spawn? && P.Next(c, v, act).workers[w].scenario == act.scenario
  {
  }

  // ---- calling the table ----

  lemma CallIsHomed(p: Setup, s: World, w: WorkerId, token: Token)
    requires Inv(p, s) && w in s.workers && P.WritesRegistry(p.c, s.clock, s.workers[w])
    ensures T.Homed(p.home, p.c.indexName, P.OpOf(p.c, s.clock, s.workers[w], token))
  {
    var wk := s.workers[w];
    assert I.WorkerOk(s.core, wk);
    if wk.pc.Waiting? {
      I.StoredSettings(s.core.log, wk.pc.current);
      I.StoredSettings(s.core.log, P.Cell(s.core.log).value) by {
        assert s.core.log[|s.core.log| - 1].after == P.Cell(s.core.log).value;
      }
      assert T.RowOk(p.home, s.table, Key(p));
    }
  }

  /** A fresh token is fresh for the table too, so a call is never blocked. */
  lemma CallIsNeverBlocked(p: Setup, s: World, w: WorkerId, id: T.CallId, token: Token)
    requires Inv(p, s) && w in s.workers && w !in s.pending && P.WritesRegistry(p.c, s.clock, s.workers[w])
    requires P.DrawsToken(s.workers[w].pc) ==> token !in s.core.issued
    requires id !in s.table.calls
    ensures Enabled(p, s, Call(w, id, token))
  {
    var op := P.OpOf(p.c, s.clock, s.workers[w], token);
    OpNames(p.c, s.clock, s.workers[w], token);
    if NewToken(op).Some? {
      forall i | i in s.table.calls ensures NewToken(s.table.calls[i].op) != NewToken(op) { assert CallFits(p, s, i); }
    }
  }

  lemma OpNames(c: P.Config, now: Time, wk: P.Worker, token: Token)
    requires P.WritesRegistry(c, now, wk)
    ensures var op := P.OpOf(c, now, wk, token);
            && (op.Register? ==> op.candidate.indexName == c.indexName)
            && (NewToken(op).Some? ==> NewToken(op) == Some(token) && P.DrawsToken(wk.pc))
  {
  }

  lemma IssueGrows(core: P.Core, pc: P.Pc, token: Token)
    ensures var core' := P.Issue(core, pc, token);
            && I.Grows(core, core') && core'.log == core.log && core.issued <= core'.issued
            && core'.live == core.live && core'.flying == core.flying
  {
  }

  lemma CallView(p: Setup, s: World, w: WorkerId, id: T.CallId, token: Token)
    requires Inv(p, s) && Enabled(p, s, Call(w, id, token))
    ensures I.Inv(View(Next(p, s, Call(w, id, token))))
  {
    var s' := Next(p, s, Call(w, id, token));
    I.WorkerWrites(p.c, View(s), w, token);
    IssueGrows(s.core, s.workers[w].pc, token);
    forall x | x in s'.workers ensures I.WorkerOk(s'.core, s'.workers[x]) {
      assert I.WorkerOk(s.core, s.workers[x]);
      I.WorkerOkGrows(s.core, s'.core, s.workers[x]);
    }
  }

  lemma InvokedTable(max: nat, t: T.State, id: T.CallId, name: string, op: Op)
    requires A.UniqueTokens(t.calls) && T.Enabled(max, t, T.Invoke(id, name, op))
    ensures var t' := T.Next(max, t, T.Invoke(id, name, op));
            && A.UniqueTokens(t'.calls) && t'.rows == t.rows && t'.log == t.log
            && id in t'.calls && t'.calls[id].op == op
            && forall i :: i in t.calls ==> i in t'.calls && t'.calls[i] == t.calls[i]
  {
  }

  lemma CallStep(p: Setup, s: World, w: WorkerId, id: T.CallId, token: Token)
    requires Inv(p, s) && Enabled(p, s, Call(w, id, token))
    ensures Inv(p, Next(p, s, Call(w, id, token)))
  {
    var s' := Next(p, s, Call(w, id, token));
    var op := P.OpOf(p.c, s.clock, s.workers[w], token);
    CallView(p, s, w, id, token);
    IssueGrows(s.core, s.workers[w].pc, token);
    CallIsHomed(p, s, w, token);
    T.Step(p.home, p.max, s.table, T.Invoke(id, p.c.indexName, op));
    InvokedTable(p.max, s.table, id, p.c.indexName, op);
    assert Linked(p, s');
    forall i | i in s'.table.calls ensures CallFits(p, s', i) { InvokedFits(p, s, w, id, token, i); }
    forall x | x in s'.pending ensures PendingFits(p, s', x) {
      if x == w {
        OpMatches(p.c, s.clock, s.workers[w], token);
      } else {
        assert PendingFits(p, s, x);
        StillPending(p, s, s', x);
      }
    }
  }

  lemma OpMatches(c: P.Config, now: Time, wk: P.Worker, token: Token)
    requires P.WritesRegistry(c, now, wk)
    ensures Matches(wk.pc, P.OpOf(c, now, wk, token))
  {
  }

  lemma InvokedFits(p: Setup, s: World, w: WorkerId, id: T.CallId, token: Token, i: T.CallId)
    requires Inv(p, s) && Enabled(p, s, Call(w, id, token)) && i in Next(p, s, Call(w, id, token)).table.calls
    ensures CallFits(p, Next(p, s, Call(w, id, token)), i)
  {
    var s' := Next(p, s, Call(w, id, token));
    I.WorkerWrites(p.c, View(s), w, token);
    IssueGrows(s.core, s.workers[w].pc, token);
    if i != id {
      assert CallFits(p, s, i) && s'.table.calls[i] == s.table.calls[i] && s'.table.log == s.table.log;
      var call := s.table.calls[i];
      OpOkGrows(s.core, s'.core, call.op);
      if call.phase.Finished? && call.phase.verdict.Answered? { FitsGrows(s.core, s'.core, call.op, call.phase.verdict.entry); }
    }
  }

  // ---- returning ----

  lemma AnsweredOk(p: Setup, now: Time, wk: P.Worker, core: P.Core, token: Token, v: T.Verdict, op: Op)
    requires I.CoreInv(core) && I.WorkerOk(core, wk) && P.WritesRegistry(p.c, now, wk) && Matches(wk.pc, op)
    requires v.Answered? ==> Fits(core, op, v.entry)
    ensures I.WorkerOk(core, Answered(p, now, wk, token, v))
  {
    match v
    case Answered(e) =>
      AnswerIsClaim(core, e);
      I.AfterWriteOk(p.c, now, wk, core, token, Returned(e));
    case Refused => I.AfterWriteOk(p.c, now, wk, core, token, Conflict);
    case Unavailable =>
  }

  lemma AnsweredScenario(p: Setup, now: Time, wk: P.Worker, token: Token, v: T.Verdict)
    requires P.WritesRegistry(p.c, now, wk)
    ensures Answered(p, now, wk, token, v).scenario == wk.scenario
  {
  }

  lemma ReturnedWorker(p: Setup, s: World, w: WorkerId)
    requires Inv(p, s) && Enabled(p, s, Return(w))
    ensures I.WorkerOk(s.core, Next(p, s, Return(w)).workers[w])
    ensures Next(p, s, Return(w)).workers[w].scenario.vertical == p.home(p.c.indexName)
  {
    var wk, q := s.workers[w], s.pending[w];
    var call := s.table.calls[q.id];
    assert I.WorkerOk(s.core, wk) && PendingFits(p, s, w) && CallFits(p, s, q.id);
    AnsweredOk(p, s.clock, wk, s.core, q.token, call.phase.verdict, call.op);
    AnsweredScenario(p, s.clock, wk, q.token, call.phase.verdict);
  }

  lemma ReturnKeeps(p: Setup, s: World, s': World, w: WorkerId)
    requires Inv(p, s) && s'.core == s.core && s'.clock == s.clock && s'.table == s.table && s'.callers == s.callers
    requires s'.pending == s.pending - {w} && w in s'.workers && I.WorkerOk(s.core, s'.workers[w])
    requires s'.workers[w].scenario.vertical == p.home(p.c.indexName)
    requires s'.workers == s.workers[w := s'.workers[w]]
    ensures Inv(p, s')
  {
    ReturnView(p, s, s', w);
    AllCallsKeep(p, s, s');
    AllStillPending(p, s, s');
  }

  lemma ReturnStep(p: Setup, s: World, w: WorkerId)
    requires Inv(p, s) && Enabled(p, s, Return(w))
    ensures Inv(p, Next(p, s, Return(w)))
  {
    ReturnedWorker(p, s, w);
    ReturnKeeps(p, s, Next(p, s, Return(w)), w);
  }

  lemma ReturnView(p: Setup, s: World, s': World, w: WorkerId)
    requires I.Inv(View(s)) && s'.core == s.core && w in s'.workers && I.WorkerOk(s.core, s'.workers[w])
    requires forall x :: x in s'.workers && x != w ==> x in s.workers && s'.workers[x] == s.workers[x]
    ensures I.Inv(View(s'))
  {
    forall x | x in s'.workers ensures I.WorkerOk(s'.core, s'.workers[x]) {
      if x != w { assert I.WorkerOk(s.core, s.workers[x]); }
    }
  }

  lemma AnswerIsClaim(core: P.Core, e: Entry)
    requires I.CoreInv(core) && P.EverStored(core.log, e)
    ensures e.claimToken.Some? ==> I.IsClaim(e)
  {
    var i :| 0 <= i < |core.log| && core.log[i].after == e;
    I.ChainEntry(core.log, i);
  }

  // ---- the table's steps ----

  /** Did this step of the table take effect? */
  predicate TakesEffect(p: Setup, s: World, step: T.Action)
    requires T.Enabled(p.max, s.table, step)
  {
    (step.Attempt? || step.LandLate?) && T.Accepts(s.table.rows, s.table.calls[step.id].key, s.table.calls[step.id].request.value)
  }

  lemma NetShape(p: Setup, s: World, step: T.Action)
    requires !step.Invoke? && T.Enabled(p.max, s.table, step)
    ensures var t, t' := s.table, T.Next(p.max, s.table, step);
            && t'.calls.Keys == t.calls.Keys
            && (forall i :: i in t.calls ==> t'.calls[i].op == t.calls[i].op && t'.calls[i].name == t.calls[i].name)
            && (forall i :: i in t.calls && i != step.id ==> t'.calls[i] == t.calls[i])
            && (TakesEffect(p, s, step) ==>
                  && t'.log == t.log + [T.Effect(step.id, t.calls[step.id].name, t.calls[step.id].op)]
                  && T.EntryAt(t'.rows, t.calls[step.id].key) == Some(t.calls[step.id].request.value.entry))
            && (!TakesEffect(p, s, step) ==> t'.log == t.log && t'.rows == t.rows)
  {
  }

  /** An accepted write is, for the shared history, exactly the call it was made for. */
  lemma AcceptedCommits(p: Setup, s: World, id: T.CallId)
    requires T.Inv(p.home, s.table) && Linked(p, s) && id in s.table.calls && CallFits(p, s, id)
    requires s.table.calls[id].request.Some?
    requires T.Accepts(s.table.rows, s.table.calls[id].key, s.table.calls[id].request.value)
    ensures var call := s.table.calls[id];
            && call.key == Key(p) && !A.Logged(s.table.log, id)
            && Written(P.Cell(s.core.log), call.op) == Some(call.request.value.entry)
  {
    T.AcceptedMeansUntouched(p.home, s.table, id);
    assert T.CallOk(p.home, s.table, s.table.calls[id]);
    assert Lookup(T.Replay(s.table.log), p.c.indexName) == T.EntryAt(s.table.rows, Key(p));
  }

  /** The part of the invariant that the table's steps rest on. */
  ghost predicate NetInv(p: Setup, s: World) {
    && I.CoreInv(s.core) && s.core.flying == {}
    && T.Inv(p.home, s.table) && A.UniqueTokens(s.table.calls)
    && Linked(p, s) && CallsFit(p, s)
  }

  lemma NetRecords(p: Setup, s: World, step: T.Action, s': World)
    requires Enabled(p, s, Net(step)) && TakesEffect(p, s, step) && s' == Next(p, s, Net(step))
    requires step.id in s.callers
    ensures s'.core == P.Commit(s.core, s.table.calls[step.id].op, s.callers[step.id])
  {
    NetShape(p, s, step);
  }

  /** The write the table accepted is the one the shared history gets. */
  lemma EffectCommits(p: Setup, s: World, step: T.Action, s': World)
    requires NetInv(p, s) && Enabled(p, s, Net(step)) && TakesEffect(p, s, step) && s' == Next(p, s, Net(step))
    ensures var call := s.table.calls[step.id];
            && step.id in s.callers && call.key == Key(p)
            && s'.core == s.core.(log := s.core.log + [P.Record(call.op, s.callers[step.id], call.request.value.entry)])
            && I.CoreInv(s'.core) && I.Grows(s.core, s'.core)
  {
    var call := s.table.calls[step.id];
    assert CallFits(p, s, step.id);
    NetRecords(p, s, step, s');
    AcceptedCommits(p, s, step.id);
    CommitRecords(s.core, call.op, s.callers[step.id], call.request.value.entry);
  }

  lemma CommitRecords(core: P.Core, op: Op, w: WorkerId, e: Entry)
    requires I.CoreInv(core) && core.flying == {} && I.OpOk(core, op) && I.TokenFreeIn(core.log, op)
    requires NewToken(op).Some? ==> NewToken(op).value in core.issued
    requires Written(P.Cell(core.log), op) == Some(e)
    ensures P.Commit(core, op, w) == core.(log := core.log + [P.Record(op, w, e)])
    ensures I.CoreInv(P.Commit(core, op, w)) && I.Grows(core, P.Commit(core, op, w))
  {
    I.CommitKeeps(core, op, w);
  }

  lemma NetLinked(p: Setup, s: World, step: T.Action, s': World)
    requires NetInv(p, s) && Enabled(p, s, Net(step)) && s' == Next(p, s, Net(step))
    ensures Linked(p, s') && I.CoreInv(s'.core) && I.Grows(s.core, s'.core)
    ensures s'.core.flying == {} && s'.core.issued == s.core.issued
  {
    NetShape(p, s, step);
    if TakesEffect(p, s, step) {
      EffectCommits(p, s, step, s');
      LinkExtends(p, s, s', s'.core.log[|s.core.log|], s'.table.log[|s.table.log|]);
    } else {
      assert s'.core == s.core;
    }
  }

  lemma LinkExtends(p: Setup, s: World, s': World, r: P.Record, e: T.Effect)
    requires Linked(p, s) && s'.core.log == s.core.log + [r] && s'.table.log == s.table.log + [e] && r.op == e.op
    requires T.EntryAt(s'.table.rows, Key(p)) == Some(r.after)
    ensures Linked(p, s')
  {
  }

  /** The last write of the history fits the call that made it. */
  lemma LastFits(core: P.Core, r: P.Record)
    requires I.CoreInv(core) && core.log != [] && core.log[|core.log| - 1] == r
    ensures Fits(core, r.op, r.after)
  {
    var last := |core.log| - 1;
    assert core.log[last].after == r.after;
    I.ChainEntry(core.log, last);
    if last > 0 { assert I.Link(core.log[last - 1].after, core.log[last]); }
  }

  lemma EffectFits(p: Setup, s: World, step: T.Action, s': World)
    requires NetInv(p, s) && Enabled(p, s, Net(step)) && TakesEffect(p, s, step) && s' == Next(p, s, Net(step))
    ensures var call := s.table.calls[step.id]; Fits(s'.core, call.op, call.request.value.entry)
  {
    EffectCommits(p, s, step, s');
    LastFits(s'.core, s'.core.log[|s'.core.log| - 1]);
  }

  lemma NetFits(p: Setup, s: World, step: T.Action, s': World, id: T.CallId)
    requires NetInv(p, s) && Enabled(p, s, Net(step)) && s' == Next(p, s, Net(step)) && id in s.table.calls
    ensures id in s'.table.calls && CallFits(p, s', id)
  {
    assert CallFits(p, s, id);
    NetShape(p, s, step);
    NetLinked(p, s, step, s');
    NetTokens(p, s, step, s', id);
    if s'.table.calls[id].phase.Finished? && s'.table.calls[id].phase.verdict.Answered? { NetAnswers(p, s, step, s', id); }
    StillFits(p, s, s', id);
  }

  lemma StillFits(p: Setup, s: World, s': World, id: T.CallId)
    requires id in s.table.calls && CallFits(p, s, id) && id in s'.table.calls
    requires s'.table.calls[id].op == s.table.calls[id].op && s'.table.calls[id].name == s.table.calls[id].name
    requires I.Grows(s.core, s'.core) && s'.core.issued == s.core.issued && s'.callers == s.callers
    requires !A.Logged(s'.table.log, id) ==> I.TokenFreeIn(s'.core.log, s.table.calls[id].op)
    requires s'.table.calls[id].phase.Finished? && s'.table.calls[id].phase.verdict.Answered? ==>
               Fits(s'.core, s.table.calls[id].op, s'.table.calls[id].phase.verdict.entry)
    ensures CallFits(p, s', id)
  {
    OpOkGrows(s.core, s'.core, s.table.calls[id].op);
  }

  lemma StaysFree(log: seq<P.Record>, r: P.Record, op: Op)
    requires I.TokenFreeIn(log, op) && (NewToken(op).Some? ==> NewToken(r.op) != NewToken(op))
    ensures I.TokenFreeIn(log + [r], op)
  {
  }

  lemma NetTokens(p: Setup, s: World, step: T.Action, s': World, id: T.CallId)
    requires NetInv(p, s) && Enabled(p, s, Net(step)) && s' == Next(p, s, Net(step)) && id in s.table.calls
    ensures !A.Logged(s'.table.log, id) ==> I.TokenFreeIn(s'.core.log, s.table.calls[id].op)
  {
    assert CallFits(p, s, id);
    NetShape(p, s, step);
    if TakesEffect(p, s, step) && !A.Logged(s'.table.log, id) {
      EffectCommits(p, s, step, s');
      A.LoggedGrows(s.table.log, s'.table.log[|s.table.log|]);
      StaysFree(s.core.log, s'.core.log[|s.core.log|], s.table.calls[id].op);
    }
  }

  /** How a table step changes one call's answer. */
  lemma AnswerShape(p: Setup, s: World, step: T.Action, id: T.CallId)
    requires T.Inv(p.home, s.table) && !step.Invoke? && T.Enabled(p.max, s.table, step) && id in s.table.calls
    ensures var call, call' := s.table.calls[id], T.Next(p.max, s.table, step).calls[id];
            call'.phase.Finished? && call'.phase.verdict.Answered? && call'.phase != call.phase ==>
              || (step == T.Reread(id) && call.op.Register? && call.key == (p.home(call.name), call.name)
                  && T.EntryAt(s.table.rows, call.key) == Some(call'.phase.verdict.entry))
              || (step == T.Attempt(id) && TakesEffect(p, s, step) && call'.phase.verdict.entry == call.request.value.entry)
  {
    assert T.CallOk(p.home, s.table, s.table.calls[id]);
  }

  lemma NetAnswers(p: Setup, s: World, step: T.Action, s': World, id: T.CallId)
    requires NetInv(p, s) && Enabled(p, s, Net(step)) && s' == Next(p, s, Net(step))
    requires id in s.table.calls && id in s'.table.calls
    requires s'.table.calls[id].phase.Finished? && s'.table.calls[id].phase.verdict.Answered?
    ensures Fits(s'.core, s.table.calls[id].op, s'.table.calls[id].phase.verdict.entry)
  {
    var call, call' := s.table.calls[id], s'.table.calls[id];
    assert CallFits(p, s, id);
    AnswerShape(p, s, step, id);
    NetLinked(p, s, step, s');
    if call'.phase == call.phase {
      FitsGrows(s.core, s'.core, call.op, call.phase.verdict.entry);
    } else if step.Reread? {
      RereadFits(p, s, id, call'.phase.verdict.entry);
      FitsGrows(s.core, s'.core, call.op, call'.phase.verdict.entry);
    } else {
      EffectFits(p, s, step, s');
    }
  }

  lemma RereadFits(p: Setup, s: World, id: T.CallId, e: Entry)
    requires Linked(p, s) && id in s.table.calls && s.table.calls[id].op.Register? && s.table.calls[id].key == Key(p)
    requires T.EntryAt(s.table.rows, Key(p)) == Some(e)
    ensures Fits(s.core, s.table.calls[id].op, e)
  {
    CellFits(s.core, s.table.calls[id].op);
  }

  lemma CellFits(core: P.Core, op: Op)
    requires core.log != [] && op.Register?
    ensures Fits(core, op, P.Cell(core.log).value)
  {
    assert core.log[|core.log| - 1].after == P.Cell(core.log).value;
  }

  lemma NetStep(p: Setup, s: World, step: T.Action)
    requires Inv(p, s) && Enabled(p, s, Net(step))
    ensures Inv(p, Next(p, s, Net(step)))
  {
    var s' := Next(p, s, Net(step));
    NetLinked(p, s, step, s');
    NetShape(p, s, step);
    T.Step(p.home, p.max, s.table, step);
    NetView(p, s, s');
    forall id | id in s'.table.calls ensures CallFits(p, s', id) { NetFits(p, s, step, s', id); }
    AllStillPending(p, s, s');
  }

  lemma NetView(p: Setup, s: World, s': World)
    requires I.Inv(View(s)) && I.CoreInv(s'.core) && I.Grows(s.core, s'.core) && s'.workers == s.workers
    ensures I.Inv(View(s'))
  {
    forall x | x in s'.workers ensures I.WorkerOk(s'.core, s'.workers[x]) {
      assert I.WorkerOk(s.core, s.workers[x]);
      I.WorkerOkGrows(s.core, s'.core, s.workers[x]);
    }
  }

  // ---- over every run ----

  lemma Step(p: Setup, s: World, a: Action)
    requires Inv(p, s) && Enabled(p, s, a)
    ensures Inv(p, Next(p, s, a))
  {
    match a
    case Own(act) => OwnStep(p, s, act);
    case Call(w, id, token) => CallStep(p, s, w, id, token);
    case Net(step) => NetStep(p, s, step);
    case Return(w) => ReturnStep(p, s, w);
  }

  lemma {:induction false} Reaches(p: Setup, s: World, run: seq<Action>)
    requires Inv(p, s) && Legal(p, s, run)
    ensures Inv(p, Execute(p, s, run))
    decreases |run|
  {
    if run != [] {
      Step(p, s, run[0]);
      Reaches(p, Next(p, s, run[0]), run[1..]);
    }
  }

  lemma InitialInv(p: Setup, s: World)
    requires Initial(s)
    ensures Inv(p, s)
  {
    I.InitialInv(View(s));
  }

  /** Nothing written under a replaced token ever takes effect again. */
  ghost predicate Superseding(log: seq<P.Record>) {
    forall i, k :: 0 <= i && i + 1 < k < |log| && NewToken(log[i].op).Some? ==>
      && (H.Finalizes(log[k].op) ==> log[k].op.expected != NewToken(log[i].op))
      && (log[k].op.Reclaim? ==> log[k].op.observed.claimToken != NewToken(log[i].op))
  }

  lemma ChainSupersedes(core: P.Core)
    requires I.CoreInv(core)
    ensures Superseding(core.log)
  {
    var log := core.log;
    forall i, k | 0 <= i && i + 1 < k < |log| && NewToken(log[i].op).Some?
      ensures H.Finalizes(log[k].op) ==> log[k].op.expected != NewToken(log[i].op)
      ensures log[k].op.Reclaim? ==> log[k].op.observed.claimToken != NewToken(log[i].op)
    {
      I.ChainEntry(log, k - 1);
      assert I.Link(log[k - 1].after, log[k]);
    }
  }

  ghost predicate Guarantees(p: Setup, s: World) {
    && Linked(p, s)
    && H.Exclusive(s.core.log) && Superseding(s.core.log)
    && H.SettingsFixed(s.core) && H.Monotone(s.core.log)
    && H.ReadyIsReal(View(s))
    && forall w :: w in s.workers ==> s.workers[w].pc != P.Raised(P.AssertionFailed)
  }

  lemma InvGuarantees(p: Setup, s: World)
    requires I.Inv(View(s)) && Linked(p, s)
    ensures Guarantees(p, s)
  {
    H.ChainIsExclusive(s.core.log);
    ChainSupersedes(s.core);
    H.CoreFixesSettings(s.core);
    H.ChainIsMonotone(s.core.log);
    H.InvMeansReal(View(s));
    forall w | w in s.workers ensures s.workers[w].pc != P.Raised(P.AssertionFailed) {
      assert I.WorkerOk(s.core, s.workers[w]);
    }
  }

  /** The protocol's guarantees over the table. In every run of any number of workers, with
      timeouts, retries, late landings, conflicts on writes that landed, stale reads and zombie
      holders: the effects the table served, in order, are exclusive claims in which superseded
      tokens never act again, all with the same settings and ever the same creation; the row shows
      the last of them; and every entry that is ready, and everything an `ensure` returned,
      describes the live index. */
  lemma ClaimsOverTheTable(p: Setup, s0: World, run: seq<Action>)
    requires Initial(s0) && Legal(p, s0, run)
    ensures Guarantees(p, Execute(p, s0, run))
  {
    InitialInv(p, s0);
    Reaches(p, s0, run);
    InvGuarantees(p, Execute(p, s0, run));
  }

  // ---- waiting over the table ----

  lemma PollsReturn(p: Setup, now: Time, wk: P.Worker, token: Token, v: T.Verdict)
    requires P.WritesRegistry(p.c, now, wk) && H.PollsInTime(p.c, now, wk)
    ensures H.PollsInTime(p.c, now, Answered(p, now, wk, token, v))
  {
    match v
    case Answered(e) => H.PollsWrite(p.c, now, wk, token, Returned(e));
    case Refused => H.PollsWrite(p.c, now, wk, token, Conflict);
    case Unavailable =>
  }

  lemma PollsStep(p: Setup, s: World, a: Action)
    requires Enabled(p, s, a) && H.AllPollsInTime(p.c, View(s))
    ensures H.AllPollsInTime(p.c, View(Next(p, s, a)))
  {
    match a
    case Own(act) => H.PollsStep(p.c, View(s), act);
    case Return(w) =>
      PollsReturn(p, s.clock, s.workers[w], s.pending[w].token, s.table.calls[s.pending[w].id].phase.verdict);
    case _ =>
  }

  lemma WaitsReturn(p: Setup, now: Time, wk: P.Worker, token: Token, v: T.Verdict)
    requires P.WritesRegistry(p.c, now, wk) && H.WaitsPaid(wk)
    ensures H.WaitsPaid(Answered(p, now, wk, token, v))
  {
    match v
    case Answered(e) => H.WaitsWrite(p.c, now, wk, token, Returned(e));
    case Refused => H.WaitsWrite(p.c, now, wk, token, Conflict);
    case Unavailable =>
  }

  /** The workers read the table itself: every read shows the row as it is. */
  predicate Direct(p: Setup, s: World, a: Action) {
    a.Own? && a.act.Read? ==> a.act.seen == T.EntryAt(s.table.rows, Key(p))
  }

  predicate DirectRun(p: Setup, s: World, run: seq<Action>)
    requires Legal(p, s, run)
    decreases |run|
  {
    run == [] || (Direct(p, s, run[0]) && DirectRun(p, Next(p, s, run[0]), run[1..]))
  }

  lemma WaitsStep(p: Setup, s: World, a: Action)
    requires I.Inv(View(s)) && Linked(p, s) && Enabled(p, s, a) && Direct(p, s, a) && H.AllWaitsPaid(View(s))
    ensures H.AllWaitsPaid(View(Next(p, s, a)))
  {
    match a
    case Own(act) =>
      assert P.Linearizable(View(s), act);
      H.WaitsStep(p.c, View(s), act);
    case Return(w) =>
      WaitsReturn(p, s.clock, s.workers[w], s.pending[w].token, s.table.calls[s.pending[w].id].phase.verdict);
    case _ =>
  }

  lemma {:induction false} WaitsHold(p: Setup, s: World, run: seq<Action>)
    requires Inv(p, s) && Legal(p, s, run) && H.AllPollsInTime(p.c, View(s))
    ensures H.AllPollsInTime(p.c, View(Execute(p, s, run)))
    ensures H.AllWaitsPaid(View(s)) && DirectRun(p, s, run) ==> H.AllWaitsPaid(View(Execute(p, s, run)))
    decreases |run|
  {
    if run != [] {
      Step(p, s, run[0]);
      PollsStep(p, s, run[0]);
      if H.AllWaitsPaid(View(s)) && DirectRun(p, s, run) { WaitsStep(p, s, run[0]); }
      WaitsHold(p, Next(p, s, run[0]), run[1..]);
    }
  }

  /** Waiting over the table: one wait loop polls at most once per interval before its deadline in
      every run, and with direct reads an `ensure` waits at most once plus once per finalization
      that the table refused it. */
  lemma WaitingOverTheTable(p: Setup, s0: World, run: seq<Action>)
    requires Initial(s0) && Legal(p, s0, run)
    ensures H.AllPollsInTime(p.c, View(Execute(p, s0, run)))
    ensures DirectRun(p, s0, run) ==>
              forall w :: w in Execute(p, s0, run).workers ==>
                Execute(p, s0, run).workers[w].waits <= 1 + Execute(p, s0, run).workers[w].superseded
  {
    InitialInv(p, s0);
    WaitsHold(p, s0, run);
    if DirectRun(p, s0, run) {
      forall w | w in Execute(p, s0, run).workers
        ensures Execute(p, s0, run).workers[w].waits <= 1 + Execute(p, s0, run).workers[w].superseded
      {
        assert H.WaitsPaid(View(Execute(p, s0, run)).workers[w]);
      }
    }
  }

  // ---- reclaims over the table ----

  ghost predicate CallsOld(p: Setup, s: World) {
    forall id :: id in s.table.calls ==> M.OldEnough(p.c, s.table.calls[id].op)
  }

  lemma CallsOldStep(p: Setup, s: World, a: Action)
    requires Enabled(p, s, a) && CallsOld(p, s)
    ensures CallsOld(p, Next(p, s, a))
  {
    match a
    case Call(w, _, token) => M.WritesAreOldEnough(p.c, s.clock, s.workers[w], token);
    case Net(step) => NetShape(p, s, step);
    case _ =>
  }

  lemma {:induction false} CallsOldHolds(p: Setup, s: World, run: seq<Action>)
    requires Legal(p, s, run) && CallsOld(p, s)
    ensures CallsOld(p, Execute(p, s, run))
    decreases |run|
  {
    if run != [] {
      CallsOldStep(p, s, run[0]);
      CallsOldHolds(p, Next(p, s, run[0]), run[1..]);
    }
  }

  /** Over the table too no claim is taken over before it is stale. */
  lemma ReclaimsOverTheTable(p: Setup, s0: World, run: seq<Action>, i: nat)
    requires Initial(s0) && Legal(p, s0, run) && i < |Execute(p, s0, run).core.log|
    requires Execute(p, s0, run).core.log[i].op.Reclaim?
    ensures var op := Execute(p, s0, run).core.log[i].op;
            && op.observed.claimedAt.Some? && op.replacement.claimedAt.Some?
            && op.replacement.claimedAt.value - op.observed.claimedAt.value >= p.c.staleAfter
  {
    InitialInv(p, s0);
    Reaches(p, s0, run);
    CallsOldHolds(p, s0, run);
    var s := Execute(p, s0, run);
    assert T.Recorded(s.table, s.table.log[i]);
    assert M.OldEnough(p.c, s.table.calls[s.table.log[i].id].op);
  }
}
