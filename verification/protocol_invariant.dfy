/**
 What every step of the claim protocol keeps. The shared part is one chain of writes,
 each linked to the one before it; a worker's claim is always an entry of that chain.
 */
module ProtocolInvariant {
  import opened Options
  import opened Entries
  import opened Protocol

  /** A live claim: everything a reclaimer or the creating worker will need is present. */
  predicate IsClaim(e: Entry) {
    e.status == Provisioning && e.claimToken.Some? && e.claimedAt.Some? && e.resolvedTemplate.Some?
  }

  /** The only writes that may follow `prev`. */
  predicate Link(prev: Entry, r: Record) {
    match prev.status
    case Provisioning =>
      || (&& r.op.Reclaim? && r.op.observed == prev && r.op.replacement == r.after
          && r.after == prev.(claimToken := r.after.claimToken, claimedAt := r.after.claimedAt)
          && r.after.claimToken.Some? && r.after.claimedAt.Some?)
      || (r.op.MarkReady? && r.op.expected == prev.claimToken && r.after == ReadyOf(prev, r.op.now))
      || (r.op.MarkFailed? && r.op.expected == prev.claimToken && r.after == FailedOf(prev, r.op.reason))
    case Ready => r.op.Touch? && r.after == prev.(lastVerifiedAt := Some(r.op.now))
    case Failed => false
    case Retired => false
  }

  ghost predicate Chain(log: seq<Record>) {
    && (log != [] ==> log[0].op == Register(log[0].after) && IsClaim(log[0].after))
    && forall i :: 0 < i < |log| ==> Link(log[i - 1].after, log[i])
  }

  ghost predicate TokenFreeIn(log: seq<Record>, op: Op) {
    NewToken(op).Some? ==> forall i :: 0 <= i < |log| ==> NewToken(log[i].op) != NewToken(op)
  }

  ghost predicate DistinctTokens(core: Core) {
    && (forall i, j :: 0 <= i < j < |core.log| && NewToken(core.log[i].op).Some? ==>
          NewToken(core.log[i].op) != NewToken(core.log[j].op))
    && (forall i :: 0 <= i < |core.log| && NewToken(core.log[i].op).Some? ==>
          NewToken(core.log[i].op).value in core.issued)
    && (forall f :: f in core.flying ==> TokenFreeIn(core.log, f.op))
    && (forall f :: f in core.flying && NewToken(f.op).Some? ==> NewToken(f.op).value in core.issued)
    && (forall f, g :: (f in core.flying && g in core.flying && NewToken(f.op).Some?
                        && NewToken(f.op) == NewToken(g.op)) ==> f == g)
  }

  ghost predicate EverReady(log: seq<Record>) {
    exists i :: 0 <= i < |log| && log[i].after.status == Ready
  }

  /** The live index is the one the first claim asked for. */
  predicate LiveMatches(core: Core) {
    core.log != [] && core.live == Some(SchemaOf(core.log[0].after))
  }

  /** Writes the protocol may issue, now or late. */
  ghost predicate OpOk(core: Core, op: Op) {
    match op
    case Register(e) => IsClaim(e)
    case Reclaim(o, n) =>
      && o.status == Provisioning && n.claimToken.Some? && n.claimedAt.Some?
      && n == o.(claimToken := n.claimToken, claimedAt := n.claimedAt)
    case MarkReady(t, _) => t.Some? && LiveMatches(core)
    case MarkFailed(_, t) => t.Some?
    case Touch(_) => EverReady(core.log)
    case Retire => false
  }

  ghost predicate CoreInv(core: Core) {
    && Chain(core.log)
    && DistinctTokens(core)
    && (forall f :: f in core.flying ==> OpOk(core, f.op))
    && (EverReady(core.log) ==> LiveMatches(core))
    && CreatesOk(core.creates, core.log)
  }

  /** Every creation asked for what the first claim resolved. */
  ghost predicate CreatesOk(creates: seq<Creation>, log: seq<Record>) {
    forall i :: 0 <= i < |creates| ==>
      log != [] && Some(creates[i].template) == log[0].after.resolvedTemplate
      && Schema(creates[i].dimensions, creates[i].metric) == SchemaOf(log[0].after)
  }

  /** A worker only ever holds entries the registry really stored. */
  ghost predicate WorkerOk(core: Core, wk: Worker) {
    match wk.pc
    case Probing(e) => EverStored(core.log, e) && IsClaim(e)
    case Creating(e) => EverStored(core.log, e) && IsClaim(e)
    case Describing(e) => EverStored(core.log, e) && IsClaim(e)
    case MarkingFailed(e, _, code) => EverStored(core.log, e) && IsClaim(e) && code != AssertionFailed
    case Finalizing(e) => EverStored(core.log, e) && IsClaim(e) && LiveMatches(core)
    case Refetching(e) => EverStored(core.log, e) && IsClaim(e)
    case Waiting(e, _) => EverStored(core.log, e) && IsClaim(e)
    case CheckingDeadline(e, _) => EverStored(core.log, e) && IsClaim(e)
    case Sleeping(e, _, _) => EverStored(core.log, e) && IsClaim(e)
    case Polling(e, _) => EverStored(core.log, e) && IsClaim(e)
    case Verifying(e) => EverStored(core.log, e) && e.status == Ready
    case Touching(e) => EverStored(core.log, e) && e.status == Ready
    case Done(e) => EverStored(core.log, e) && e.status == Ready
    case Raised(code) => code != AssertionFailed
    case _ => true
  }

  ghost predicate Inv(s: State) {
    && CoreInv(s.core)
    && forall w :: w in s.workers ==> WorkerOk(s.core, s.workers[w])
  }

  // ---- facts about one chain ----

  /** Every entry of the chain carries the first claim's settings, and is either a full
      claim with the first claim's template or has given its token up. */
  lemma {:induction false} ChainEntry(log: seq<Record>, i: nat)
    requires Chain(log) && i < |log|
    ensures SettingsOf(log[i].after) == SettingsOf(log[0].after)
    ensures log[i].after.status != Retired
    ensures log[i].after.status == Provisioning ==>
              IsClaim(log[i].after) && log[i].after.resolvedTemplate == log[0].after.resolvedTemplate
              && log[i].after.claimToken == NewToken(log[i].op)
    ensures log[i].after.status != Provisioning ==> log[i].after.claimToken.None? && NewToken(log[i].op).None?
  {
    if i > 0 {
      ChainEntry(log, i - 1);
      assert Link(log[i - 1].after, log[i]);
    }
  }

  /** Ready stays ready; nothing follows a failure. */
  lemma {:induction false} Settled(log: seq<Record>, i: nat, j: nat)
    requires Chain(log) && i <= j < |log|
    requires log[i].after.status != Provisioning
    ensures log[j].after.status == log[i].after.status
    ensures log[i].after.status == Failed ==> i == j
  {
    ChainEntry(log, i);
    if i < j {
      Settled(log, i, j - 1);
      assert Link(log[j - 1].after, log[j]);
    }
  }

  lemma StoredSettings(log: seq<Record>, e: Entry)
    requires Chain(log) && EverStored(log, e)
    ensures log != [] && SettingsOf(e) == SettingsOf(log[0].after)
    ensures e.status == Provisioning ==> IsClaim(e) && e.resolvedTemplate == log[0].after.resolvedTemplate
    ensures e.status == Ready ==> EverReady(log)
  {
    var i :| 0 <= i < |log| && log[i].after == e;
    ChainEntry(log, i);
  }

  // ---- the shared part ----

  /** What one step may do to the shared part. */
  ghost predicate Grows(core: Core, core': Core) {
    && core.log <= core'.log
    && (core.live.Some? ==> core'.live == core.live)
  }

  lemma StoredGrows(log: seq<Record>, log': seq<Record>, e: Entry)
    requires log <= log' && EverStored(log, e)
    ensures EverStored(log', e)
  {
    var i :| 0 <= i < |log| && log[i].after == e;
    assert log'[i].after == e;
  }

  lemma WorkerOkGrows(core: Core, core': Core, wk: Worker)
    requires WorkerOk(core, wk) && Grows(core, core')
    ensures WorkerOk(core', wk)
  {
    match wk.pc
    case Probing(e) => StoredGrows(core.log, core'.log, e);
    case Creating(e) => StoredGrows(core.log, core'.log, e);
    case Describing(e) => StoredGrows(core.log, core'.log, e);
    case MarkingFailed(e, _, _) => StoredGrows(core.log, core'.log, e);
    case Finalizing(e) => StoredGrows(core.log, core'.log, e);
    case Refetching(e) => StoredGrows(core.log, core'.log, e);
    case Waiting(e, _) => StoredGrows(core.log, core'.log, e);
    case CheckingDeadline(e, _) => StoredGrows(core.log, core'.log, e);
    case Sleeping(e, _, _) => StoredGrows(core.log, core'.log, e);
    case Polling(e, _) => StoredGrows(core.log, core'.log, e);
    case Verifying(e) => StoredGrows(core.log, core'.log, e);
    case Touching(e) => StoredGrows(core.log, core'.log, e);
    case Done(e) => StoredGrows(core.log, core'.log, e);
    case _ =>
  }

  /** An allowed write that takes effect extends the chain by a link. */
  lemma CommitLinks(core: Core, op: Op)
    requires CoreInv(core) && OpOk(core, op)
    requires Written(Cell(core.log), op).Some?
    ensures var e := Written(Cell(core.log), op).value;
            && (core.log == [] ==> op == Register(e) && IsClaim(e))
            && (core.log != [] ==> forall w: WorkerId :: Link(core.log[|core.log| - 1].after, Record(op, w, e)))
            && (e.status == Ready ==> LiveMatches(core))
  {
    if core.log != [] {
      var last := |core.log| - 1;
      ChainEntry(core.log, last);
      if op.Touch? {
        var i :| 0 <= i < |core.log| && core.log[i].after.status == Ready;
        Settled(core.log, i, last);
      }
    }
  }

  lemma CommitTokens(core: Core, op: Op, w: WorkerId)
    requires DistinctTokens(core) && TokenFreeIn(core.log, op)
    requires NewToken(op).Some? ==> NewToken(op).value in core.issued
    requires NewToken(op).Some? ==> forall f :: f in core.flying ==> NewToken(f.op) != NewToken(op)
    ensures DistinctTokens(Commit(core, op, w))
  {
    var core' := Commit(core, op, w);
    forall f | f in core'.flying ensures TokenFreeIn(core'.log, f.op) {
      assert TokenFreeIn(core.log, f.op);
    }
  }

  lemma CommitKeeps(core: Core, op: Op, w: WorkerId)
    requires CoreInv(core) && OpOk(core, op) && TokenFreeIn(core.log, op)
    requires NewToken(op).Some? ==> NewToken(op).value in core.issued
    requires NewToken(op).Some? ==> forall f :: f in core.flying ==> NewToken(f.op) != NewToken(op)
    ensures CoreInv(Commit(core, op, w)) && Grows(core, Commit(core, op, w))
  {
    if Written(Cell(core.log), op).Some? {
      CommitLinks(core, op);
      var core' := Commit(core, op, w);
      var n := |core.log|;
      assert core'.log[..n] == core.log;
      assert Chain(core'.log);
      CommitTokens(core, op, w);
      if EverReady(core.log) {
        var i :| 0 <= i < n && core.log[i].after.status == Ready;
        assert core'.log[i].after.status == Ready;
      }
      forall f | f in core'.flying ensures OpOk(core', f.op) {
        assert OpOk(core, f.op);
      }
    }
  }

  // ---- the steps ----

  /** The write a worker is about to make is allowed, and its new token is unused. */
  lemma WorkerWrites(c: Config, s: State, w: WorkerId, token: Token)
    requires Inv(s) && w in s.workers && WritesRegistry(c, s.clock, s.workers[w])
    requires DrawsToken(s.workers[w].pc) ==> token !in s.core.issued
    ensures var op := OpOf(c, s.clock, s.workers[w], token);
            var core := Issue(s.core, s.workers[w].pc, token);
            && CoreInv(core) && OpOk(core, op) && TokenFreeIn(core.log, op)
            && (NewToken(op).Some? ==> NewToken(op).value in core.issued)
            && (NewToken(op).Some? ==> forall f :: f in core.flying ==> NewToken(f.op) != NewToken(op))
  {
    var wk := s.workers[w];
    var core := Issue(s.core, wk.pc, token);
    assert WorkerOk(s.core, wk);
    assert core.log == s.core.log && core.flying == s.core.flying && core.live == s.core.live;
    forall f | f in core.flying ensures OpOk(core, f.op) {
      assert OpOk(s.core, f.op);
    }
    assert DistinctTokens(core);
    if wk.pc.Touching? {
      StoredSettings(core.log, wk.pc.entry);
    }
  }

  lemma AfterLosingOk(c: Config, now: Time, wk: Worker, core: Core, e: Entry)
    requires CoreInv(core) && EverStored(core.log, e)
    ensures WorkerOk(core, AfterLosing(c, now, wk, e))
    ensures WorkerOk(core, DispatchExisting(c, now, wk, e))
  {
    StoredSettings(core.log, e);
    if e.status == Ready {
      var r := ResolveTemplate(c, wk.scenario);
    }
  }

  lemma ReadStep(c: Config, s: State, w: WorkerId, seen: Option<Entry>)
    requires Inv(s) && Enabled(c, s, Read(w, seen))
    ensures WorkerOk(s.core, AfterRead(c, s.clock, s.workers[w], seen))
  {
    var wk := s.workers[w];
    if seen.Some? {
      if wk.pc.Rereading? {
        assert s.core.log[|s.core.log| - 1].after == seen.value;
      }
      assert EverStored(s.core.log, seen.value);
      StoredSettings(s.core.log, seen.value);
      AfterLosingOk(c, s.clock, wk, s.core, seen.value);
      if wk.pc.Rereading? && seen.value.claimToken.Some? {
        ChainEntry(s.core.log, |s.core.log| - 1);
      }
    }
  }

  /** A write that timed out joins the writes in flight. */
  lemma LaunchKeeps(core: Core, f: Flying)
    requires CoreInv(core) && OpOk(core, f.op) && TokenFreeIn(core.log, f.op)
    requires NewToken(f.op).Some? ==> NewToken(f.op).value in core.issued
    requires NewToken(f.op).Some? ==> forall g :: g in core.flying ==> NewToken(g.op) != NewToken(f.op)
    ensures CoreInv(core.(flying := core.flying + {f}))
  {
    var core' := core.(flying := core.flying + {f});
    forall g | g in core'.flying ensures OpOk(core', g.op) {
      assert OpOk(core, g.op);
    }
    assert DistinctTokens(core');
  }

  lemma WriteCore(c: Config, s: State, a: Action)
    requires Inv(s) && a.Write? && Enabled(c, s, a)
    ensures CoreInv(Next(c, s, a).core) && Grows(s.core, Next(c, s, a).core)
  {
    var wk := s.workers[a.w];
    var op := OpOf(c, s.clock, wk, a.token);
    var core := Issue(s.core, wk.pc, a.token);
    WorkerWrites(c, s, a.w, a.token);
    if a.mode.Vague? {
      LaunchKeeps(core, Flying(op, a.w, GuardOf(core.log, op)));
    } else {
      CommitKeeps(core, op, a.w);
    }
  }

  /** What a write returns to its caller is stored, and has the status the caller relies on. */
  lemma CleanReply(c: Config, s: State, w: WorkerId, token: Token)
    requires Inv(s) && Enabled(c, s, Write(w, token, Clean))
    ensures var wk := s.workers[w];
            var reply := Perform(Cell(s.core.log), OpOf(c, s.clock, wk, token)).1;
            reply.Returned? ==>
              && EverStored(Next(c, s, Write(w, token, Clean)).core.log, reply.entry)
              && (wk.pc.Finalizing? || wk.pc.Touching? ==> reply.entry.status == Ready)
              && (wk.pc.Waiting? ==> IsClaim(reply.entry))
              && (reply.entry.claimToken.Some? ==> IsClaim(reply.entry))
  {
    var a := Write(w, token, Clean);
    var wk := s.workers[w];
    var op := OpOf(c, s.clock, wk, token);
    var core' := Next(c, s, a).core;
    var reply := Perform(Cell(s.core.log), op).1;
    assert WorkerOk(s.core, wk);
    WriteCore(c, s, a);
    if reply.Returned? {
      var last := |core'.log| - 1;
      assert core'.log[last].after == reply.entry;
      ChainEntry(core'.log, last);
      if wk.pc.Touching? {
        assert Link(core'.log[last - 1].after, core'.log[last]);
      }
    }
  }

  lemma CleanActor(c: Config, s: State, w: WorkerId, token: Token)
    requires Inv(s) && Enabled(c, s, Write(w, token, Clean))
    ensures var s' := Next(c, s, Write(w, token, Clean)); WorkerOk(s'.core, s'.workers[w])
  {
    var wk := s.workers[w];
    var core' := Next(c, s, Write(w, token, Clean)).core;
    WriteCore(c, s, Write(w, token, Clean));
    assert WorkerOk(s.core, wk);
    WorkerOkGrows(s.core, core', wk);
    CleanReply(c, s, w, token);
    AfterWriteOk(c, s.clock, wk, core', token, Perform(Cell(s.core.log), OpOf(c, s.clock, wk, token)).1);
  }

  lemma AfterWriteOk(c: Config, now: Time, wk: Worker, core: Core, token: Token, reply: Reply)
    requires CoreInv(core) && WorkerOk(core, wk) && WritesRegistry(c, now, wk)
    requires reply.Returned? ==>
               && EverStored(core.log, reply.entry)
               && (wk.pc.Finalizing? || wk.pc.Touching? ==> reply.entry.status == Ready)
               && (wk.pc.Waiting? ==> IsClaim(reply.entry))
               && (reply.entry.claimToken.Some? ==> IsClaim(reply.entry))
    ensures WorkerOk(core, AfterWrite(c, now, wk, token, reply))
  {
    if reply.Returned? { AfterLosingOk(c, now, wk, core, reply.entry); }
  }

  lemma WriteActor(c: Config, s: State, a: Action)
    requires Inv(s) && a.Write? && Enabled(c, s, a)
    ensures WorkerOk(Next(c, s, a).core, Next(c, s, a).workers[a.w])
  {
    if a.mode.Clean? {
      CleanActor(c, s, a.w, a.token);
    } else {
      var wk := s.workers[a.w];
      WriteCore(c, s, a);
      assert WorkerOk(s.core, wk);
      WorkerOkGrows(s.core, Next(c, s, a).core, wk);
    }
  }

  lemma CreateStep(c: Config, s: State, a: Action)
    requires Inv(s) && a.Create? && Enabled(c, s, a)
    ensures CoreInv(Next(c, s, a).core) && Grows(s.core, Next(c, s, a).core)
    ensures WorkerOk(Next(c, s, a).core, Next(c, s, a).workers[a.w])
  {
    var wk := s.workers[a.w];
    assert WorkerOk(s.core, wk);
    StoredSettings(s.core.log, wk.pc.won);
    var core' := Next(c, s, a).core;
    forall f | f in core'.flying ensures OpOk(core', f.op) {
      assert OpOk(s.core, f.op);
    }
  }

  lemma LandStep(c: Config, s: State, a: Action)
    requires Inv(s) && a.Land? && Enabled(c, s, a)
    ensures CoreInv(Next(c, s, a).core) && Grows(s.core, Next(c, s, a).core)
  {
    var core := s.core.(flying := s.core.flying - {a.f});
    assert OpOk(s.core, a.f.op);
    forall f | f in core.flying ensures OpOk(core, f.op) {
      assert OpOk(s.core, f.op);
    }
    assert CoreInv(core);
    CommitKeeps(core, a.f.op, a.f.writer);
  }

  lemma StepCore(c: Config, s: State, a: Action)
    requires Inv(s) && Enabled(c, s, a)
    ensures CoreInv(Next(c, s, a).core) && Grows(s.core, Next(c, s, a).core)
  {
    match a
    case Write(_, _, _) => WriteCore(c, s, a);
    case Create(_, _) => CreateStep(c, s, a);
    case Land(_) => LandStep(c, s, a);
    case _ =>
  }

  /** The worker an action belongs to, if it has one. */
  function Actor(a: Action): Option<WorkerId> {
    match a
    case Tick(_) => None
    case Land(_) => None
    case Spawn(w, _) => Some(w)
    case Read(w, _) => Some(w)
    case Write(w, _, _) => Some(w)
    case RegistryDown(w) => Some(w)
    case Look(w) => Some(w)
    case Create(w, _) => Some(w)
    case AdapterDown(w) => Some(w)
    case Local(w) => Some(w)
  }

  lemma OnlyActorMoves(c: Config, s: State, a: Action, v: WorkerId)
    requires Enabled(c, s, a) && v in Next(c, s, a).workers && Actor(a) != Some(v)
    ensures v in s.workers && Next(c, s, a).workers[v] == s.workers[v]
  {
  }

  lemma StepActor(c: Config, s: State, a: Action)
    requires Inv(s) && Enabled(c, s, a) && Actor(a).Some?
    ensures Actor(a).value in Next(c, s, a).workers
    ensures WorkerOk(Next(c, s, a).core, Next(c, s, a).workers[Actor(a).value])
  {
    match a
    case Write(_, _, _) => WriteActor(c, s, a);
    case Read(w, seen) => ReadStep(c, s, w, seen);
    case Create(_, _) => CreateStep(c, s, a);
    case Look(w) => LookOk(c, s.core, s.workers[w]);
    case Local(w) => LocalOk(c, s.clock, s.core, s.workers[w]);
    case _ =>
  }

  lemma LookOk(c: Config, core: Core, wk: Worker)
    requires CoreInv(core) && WorkerOk(core, wk) && LooksAtIndex(c, wk)
    ensures WorkerOk(core, AfterLook(c, wk, core.live))
  {
    if wk.pc.Describing? { StoredSettings(core.log, wk.pc.won); }
  }

  lemma LocalOk(c: Config, now: Time, core: Core, wk: Worker)
    requires WorkerOk(core, wk) && (wk.pc.Waiting? || wk.pc.CheckingDeadline? || wk.pc.Sleeping?)
    ensures WorkerOk(core, AfterLocal(c, now, wk))
  {
  }

  /** Every action, whoever takes it and however the registry misbehaves, keeps the invariant. */
  lemma Step(c: Config, s: State, a: Action)
    requires Inv(s) && Enabled(c, s, a)
    ensures Inv(Next(c, s, a)) && Grows(s.core, Next(c, s, a).core)
  {
    var s' := Next(c, s, a);
    StepCore(c, s, a);
    forall v | v in s'.workers ensures WorkerOk(s'.core, s'.workers[v]) {
      if Actor(a) == Some(v) {
        StepActor(c, s, a);
      } else {
        OnlyActorMoves(c, s, a, v);
        WorkerOkGrows(s.core, s'.core, s.workers[v]);
      }
    }
  }

  lemma {:induction false} Reaches(c: Config, s: State, run: seq<Action>)
    requires Inv(s) && Legal(c, s, run)
    ensures Inv(Execute(c, s, run)) && Grows(s.core, Execute(c, s, run).core)
    decreases |run|
  {
    if run != [] {
      Step(c, s, run[0]);
      Reaches(c, Next(c, s, run[0]), run[1..]);
    }
  }

  lemma InitialInv(s: State)
    requires Initial(s)
    ensures Inv(s)
  {
  }
}
