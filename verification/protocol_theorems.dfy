/**
 What the claim protocol guarantees over every run: any number of workers, any
 interleaving, stale reads, ambiguous writes and zombie claim holders included.
 */
module ProtocolTheorems {
  import opened Options
  import opened Entries
  import opened Protocol
  import opened ProtocolInvariant

  predicate Finalizes(op: Op) { op.MarkReady? || op.MarkFailed? }

  lemma ReachesFromStart(c: Config, s0: State, run: seq<Action>)
    requires Initial(s0) && Legal(c, s0, run)
    ensures Inv(Execute(c, s0, run))
  {
    InitialInv(s0);
    Reaches(c, s0, run);
  }

  /** Finalizations name the stored token, reclaims the stored snapshot, and there is at most one
      finalization in the whole history. */
  ghost predicate Exclusive(log: seq<Record>) {
    && (forall i :: 0 <= i < |log| && Finalizes(log[i].op) ==>
          i > 0 && log[i].op.expected.Some? && log[i].op.expected == log[i - 1].after.claimToken)
    && (forall i :: 0 <= i < |log| && log[i].op.Reclaim? ==> i > 0 && log[i].op.observed == log[i - 1].after)
    && (forall i, j :: 0 <= i < j < |log| && Finalizes(log[i].op) ==> !Finalizes(log[j].op))
  }

  lemma ChainIsExclusive(log: seq<Record>)
    requires Chain(log)
    ensures Exclusive(log)
  {
    forall i | 0 <= i < |log| && Finalizes(log[i].op)
      ensures i > 0 && log[i].op.expected.Some? && log[i].op.expected == log[i - 1].after.claimToken
    {
      assert Link(log[i - 1].after, log[i]);
      ChainEntry(log, i - 1);
    }
    forall i, j | 0 <= i < j < |log| && Finalizes(log[i].op) ensures !Finalizes(log[j].op) {
      assert Link(log[i - 1].after, log[i]);
      Settled(log, i, j - 1);
      assert Link(log[j - 1].after, log[j]);
    }
  }

  /** A finalization or reclaim takes effect only against the token or snapshot stored at
      that moment, and an index is finalized at most once, by whichever claim is current. */
  lemma ClaimExclusivity(c: Config, s0: State, run: seq<Action>)
    requires Initial(s0) && Legal(c, s0, run)
    ensures Exclusive(Execute(c, s0, run).core.log)
  {
    ReachesFromStart(c, s0, run);
    ChainIsExclusive(Execute(c, s0, run).core.log);
  }

  /** Once a token has been replaced in the cell, nothing written under it ever takes effect
      again, whether its holder is still running or its request is still in flight. */
  lemma SupersededForever(c: Config, s: State, run: seq<Action>, i: nat)
    requires Inv(s) && Legal(c, s, run)
    requires i < |s.core.log| - 1 && NewToken(s.core.log[i].op).Some?
    ensures var t := NewToken(s.core.log[i].op);
            var log := Execute(c, s, run).core.log;
            && |s.core.log| <= |log|
            && forall k :: |s.core.log| <= k < |log| ==>
                 && (Finalizes(log[k].op) ==> log[k].op.expected != t)
                 && (log[k].op.Reclaim? ==> log[k].op.observed.claimToken != t)
                 && log[k].after.claimToken != t
  {
    var t := NewToken(s.core.log[i].op);
    var log := Execute(c, s, run).core.log;
    Reaches(c, s, run);
    assert log[i] == s.core.log[i];
    forall k | |s.core.log| - 1 <= k < |log| ensures log[k].after.claimToken != t {
      ChainEntry(log, k);
    }
    forall k | |s.core.log| <= k < |log|
      ensures Finalizes(log[k].op) ==> log[k].op.expected != t
      ensures log[k].op.Reclaim? ==> log[k].op.observed.claimToken != t
    {
      assert Link(log[k - 1].after, log[k]);
    }
  }

  /** Zombie holders: a worker finalizing a claim that is no longer the stored one changes
      nothing, in any answer mode of the registry. */
  lemma ZombieWriteHasNoEffect(c: Config, s: State, w: WorkerId, token: Token, mode: WriteMode)
    requires Inv(s) && Enabled(c, s, Write(w, token, mode))
    requires s.workers[w].pc.Finalizing? || s.workers[w].pc.MarkingFailed?
    requires Cell(s.core.log) != Some(s.workers[w].pc.won)
    ensures Next(c, s, Write(w, token, mode)).core.log == s.core.log
  {
    var wk := s.workers[w];
    assert WorkerOk(s.core, wk);
    SupersededToken(s.core.log, wk.pc.won);
    assert Written(Cell(s.core.log), OpOf(c, s.clock, wk, token)).None?;
  }

  /** A claim that is no longer the stored entry has no say over it. */
  lemma SupersededToken(log: seq<Record>, won: Entry)
    requires Chain(log) && EverStored(log, won) && IsClaim(won) && Cell(log) != Some(won)
    requires forall i, j :: 0 <= i < j < |log| && NewToken(log[i].op).Some? ==> NewToken(log[i].op) != NewToken(log[j].op)
    ensures Cell(log).Some? && Cell(log).value.claimToken != won.claimToken
  {
    var i :| 0 <= i < |log| && log[i].after == won;
    ChainEntry(log, i);
    ChainEntry(log, |log| - 1);
  }

  /** All entries ever stored agree on the resolved settings and creation time, and so do all
      `create_index` calls on their arguments. */
  ghost predicate SettingsFixed(core: Core) {
    && (forall i, j :: 0 <= i < |core.log| && 0 <= j < |core.log| ==>
          SettingsOf(core.log[i].after) == SettingsOf(core.log[j].after))
    && (forall i, j :: 0 <= i < |core.creates| && 0 <= j < |core.creates| ==> core.creates[i] == core.creates[j])
  }

  lemma CoreFixesSettings(core: Core)
    requires CoreInv(core)
    ensures SettingsFixed(core)
  {
    forall i, j | 0 <= i < |core.log| && 0 <= j < |core.log|
      ensures SettingsOf(core.log[i].after) == SettingsOf(core.log[j].after)
    {
      ChainEntry(core.log, i);
      ChainEntry(core.log, j);
    }
  }

  /** By first holder, zombie or reclaimer, every creation has the same arguments. */
  lemma SettingsNeverChange(c: Config, s0: State, run: seq<Action>)
    requires Initial(s0) && Legal(c, s0, run)
    ensures SettingsFixed(Execute(c, s0, run).core)
  {
    ReachesFromStart(c, s0, run);
    CoreFixesSettings(Execute(c, s0, run).core);
  }

  /** Ready entries describe the live index, and so does whatever an `ensure` has returned. */
  ghost predicate ReadyIsReal(s: State) {
    && (forall i :: 0 <= i < |s.core.log| && s.core.log[i].after.status == Ready ==>
          s.core.live == Some(SchemaOf(s.core.log[i].after)))
    && (forall w :: w in s.workers && s.workers[w].pc.Done? ==>
          && EverStored(s.core.log, s.workers[w].pc.entry)
          && s.workers[w].pc.entry.status == Ready
          && s.core.live == Some(SchemaOf(s.workers[w].pc.entry)))
  }

  lemma InvMeansReal(s: State)
    requires Inv(s)
    ensures ReadyIsReal(s)
  {
    forall i | 0 <= i < |s.core.log| && s.core.log[i].after.status == Ready
      ensures s.core.live == Some(SchemaOf(s.core.log[i].after))
    {
      ChainEntry(s.core.log, i);
    }
    forall w | w in s.workers && s.workers[w].pc.Done?
      ensures EverStored(s.core.log, s.workers[w].pc.entry)
      ensures s.workers[w].pc.entry.status == Ready
      ensures s.core.live == Some(SchemaOf(s.workers[w].pc.entry))
    {
      assert WorkerOk(s.core, s.workers[w]);
      StoredSettings(s.core.log, s.workers[w].pc.entry);
    }
  }

  lemma ReadyMeansReal(c: Config, s0: State, run: seq<Action>)
    requires Initial(s0) && Legal(c, s0, run)
    ensures ReadyIsReal(Execute(c, s0, run))
  {
    ReachesFromStart(c, s0, run);
    InvMeansReal(Execute(c, s0, run));
  }

  /** A claim value is stored by exactly one write, so comparing by value is as good as an
      ETag: a reclaim that succeeds saw no write at all since its snapshot was stored. */
  lemma ReclaimSeesNoAba(c: Config, s0: State, run: seq<Action>, observed: Entry, replacement: Entry)
    requires Initial(s0) && Legal(c, s0, run)
    requires observed.status == Provisioning
    requires Written(Cell(Execute(c, s0, run).core.log), Reclaim(observed, replacement)).Some?
    ensures var log := Execute(c, s0, run).core.log;
            forall i :: 0 <= i < |log| ==> (log[i].after == observed <==> i == |log| - 1)
  {
    var log := Execute(c, s0, run).core.log;
    ReachesFromStart(c, s0, run);
    var last := |log| - 1;
    ChainEntry(log, last);
    forall i | 0 <= i < last ensures log[i].after != observed {
      ChainEntry(log, i);
    }
  }

  /** Provisioning comes first and never comes back, a failure is final, and every stored claim
      carries token, claim time and template. */
  ghost predicate Monotone(log: seq<Record>) {
    && (forall i, j :: 0 <= i <= j < |log| && log[i].after.status != Provisioning ==> log[j].after.status == log[i].after.status)
    && (forall i :: 0 <= i < |log| - 1 ==> log[i].after.status != Failed)
    && (forall i :: 0 <= i < |log| && log[i].after.status == Provisioning ==> IsClaim(log[i].after))
  }

  lemma ChainIsMonotone(log: seq<Record>)
    requires Chain(log)
    ensures Monotone(log)
  {
    forall i, j | 0 <= i <= j < |log| && log[i].after.status != Provisioning
      ensures log[j].after.status == log[i].after.status
      ensures log[i].after.status == Failed ==> i == j
    {
      Settled(log, i, j);
    }
    forall i | 0 <= i < |log| - 1 ensures log[i].after.status != Failed {
      if log[i].after.status == Failed { Settled(log, i, i + 1); }
    }
    forall i | 0 <= i < |log| && log[i].after.status == Provisioning ensures IsClaim(log[i].after) {
      ChainEntry(log, i);
    }
  }

  /** The lifecycle over every run; and the creation-time assertion cannot fire. */
  lemma LifecycleIsMonotone(c: Config, s0: State, run: seq<Action>)
    requires Initial(s0) && Legal(c, s0, run)
    ensures var s := Execute(c, s0, run);
            && Monotone(s.core.log)
            && (forall w :: w in s.workers ==> s.workers[w].pc != Raised(AssertionFailed))
  {
    var s := Execute(c, s0, run);
    ReachesFromStart(c, s0, run);
    ChainIsMonotone(s.core.log);
    forall w | w in s.workers ensures s.workers[w].pc != Raised(AssertionFailed) {
      assert WorkerOk(s.core, s.workers[w]);
    }
  }

  /** What the registry held at any earlier moment is a read the protocol tolerates, so every
      guarantee above survives a cache that answers with any of its past answers. */
  lemma EarlierAnswerIsTolerated(c: Config, s0: State, before: seq<Action>, after: seq<Action>, w: WorkerId)
    requires Initial(s0) && Legal(c, s0, before) && Legal(c, Execute(c, s0, before), after)
    requires var s := Execute(c, Execute(c, s0, before), after);
             w in s.workers && ReadsRegistry(s.workers[w].pc) && !s.workers[w].pc.Rereading?
    ensures Enabled(c, Execute(c, Execute(c, s0, before), after), Read(w, Cell(Execute(c, s0, before).core.log)))
    ensures Enabled(c, Execute(c, Execute(c, s0, before), after), Read(w, None))
  {
    ReachesFromStart(c, s0, before);
    var mid := Execute(c, s0, before);
    Reaches(c, mid, after);
    if mid.core.log != [] {
      assert mid.core.log[|mid.core.log| - 1].after == Cell(mid.core.log).value;
      StoredGrows(mid.core.log, Execute(c, mid, after).core.log, Cell(mid.core.log).value);
    }
  }

  // ---- waiting ----

  /** Polls taken so far never outrun the clock, counted from the entry of the wait loop. */
  predicate PollsInTime(c: Config, now: Time, wk: Worker) {
    && (match wk.pc
        case Waiting(_, d) => wk.polls * c.pollInterval <= now - (d - c.waitTimeout)
        case CheckingDeadline(_, d) => wk.polls * c.pollInterval <= now - (d - c.waitTimeout)
        case Polling(_, d) => wk.polls * c.pollInterval <= now - (d - c.waitTimeout)
        case Sleeping(_, d, wake) => wk.polls * c.pollInterval <= wake - (d - c.waitTimeout)
        case _ => true)
    && (wk.polls > 0 ==> (wk.polls - 1) * c.pollInterval < c.waitTimeout)
  }

  ghost predicate AllPollsInTime(c: Config, s: State) {
    forall w :: w in s.workers ==> PollsInTime(c, s.clock, s.workers[w])
  }

  lemma PollsRead(c: Config, now: Time, wk: Worker, seen: Option<Entry>)
    requires ReadsRegistry(wk.pc) && PollsInTime(c, now, wk)
    ensures PollsInTime(c, now, AfterRead(c, now, wk, seen))
  {
  }

  lemma PollsWrite(c: Config, now: Time, wk: Worker, token: Token, reply: Reply)
    requires WritesRegistry(c, now, wk) && PollsInTime(c, now, wk)
    ensures PollsInTime(c, now, AfterWrite(c, now, wk, token, reply))
  {
  }

  lemma PollsLocal(c: Config, now: Time, wk: Worker)
    requires wk.pc.Waiting? || wk.pc.CheckingDeadline? || wk.pc.Sleeping?
    requires wk.pc.Sleeping? ==> now >= wk.pc.wakeAt
    requires PollsInTime(c, now, wk)
    ensures PollsInTime(c, now, AfterLocal(c, now, wk))
  {
    var m := wk.polls * c.pollInterval;
    assert (wk.polls + 1) * c.pollInterval == m + c.pollInterval;
  }

  lemma PollsActor(c: Config, s: State, a: Action, w: WorkerId)
    requires Enabled(c, s, a) && AllPollsInTime(c, s) && Actor(a) == Some(w) && w in Next(c, s, a).workers
    ensures PollsInTime(c, Next(c, s, a).clock, Next(c, s, a).workers[w])
  {
    match a
    case Read(_, seen) => PollsRead(c, s.clock, s.workers[w], seen);
    case Write(_, token, mode) =>
      PollsWrite(c, s.clock, s.workers[w], token, Conflict);
      PollsWrite(c, s.clock, s.workers[w], token, Perform(Cell(s.core.log), OpOf(c, s.clock, s.workers[w], token)).1);
    case Local(_) => PollsLocal(c, s.clock, s.workers[w]);
    case _ =>
  }

  lemma PollsStep(c: Config, s: State, a: Action)
    requires Enabled(c, s, a)
    requires AllPollsInTime(c, s)
    ensures AllPollsInTime(c, Next(c, s, a))
  {
    var s' := Next(c, s, a);
    forall w | w in s'.workers ensures PollsInTime(c, s'.clock, s'.workers[w]) {
      if Actor(a) == Some(w) {
        PollsActor(c, s, a, w);
      } else {
        OnlyActorMoves(c, s, a, w);
      }
    }
  }

  /** One wait loop polls at most once per interval that starts before its deadline. */
  lemma {:induction false} WaitLoopIsBounded(c: Config, s: State, run: seq<Action>)
    requires Legal(c, s, run)
    requires AllPollsInTime(c, s)
    ensures AllPollsInTime(c, Execute(c, s, run))
    decreases |run|
  {
    if run != [] {
      PollsStep(c, s, run[0]);
      WaitLoopIsBounded(c, Next(c, s, run[0]), run[1..]);
    }
  }

  /** May the worker still enter a wait loop without losing another claim first? */
  predicate MayEnterWait(pc: Pc) {
    pc.Starting? || pc.Claiming? || pc.Rereading? || pc.Refetching?
  }

  predicate WaitsPaid(wk: Worker) {
    wk.waits + (if MayEnterWait(wk.pc) then 1 else 0) <= 1 + wk.superseded
  }

  ghost predicate AllWaitsPaid(s: State) {
    forall w :: w in s.workers ==> WaitsPaid(s.workers[w])
  }

  lemma WaitsRead(c: Config, now: Time, wk: Worker, seen: Option<Entry>)
    requires ReadsRegistry(wk.pc) && WaitsPaid(wk) && (wk.pc.Polling? ==> seen.Some?)
    ensures WaitsPaid(AfterRead(c, now, wk, seen))
  {
  }

  lemma WaitsWrite(c: Config, now: Time, wk: Worker, token: Token, reply: Reply)
    requires WritesRegistry(c, now, wk) && WaitsPaid(wk)
    ensures WaitsPaid(AfterWrite(c, now, wk, token, reply))
  {
  }

  lemma WaitsStep(c: Config, s: State, a: Action)
    requires Inv(s) && Enabled(c, s, a) && Linearizable(s, a)
    requires AllWaitsPaid(s)
    ensures AllWaitsPaid(Next(c, s, a))
  {
    var s' := Next(c, s, a);
    forall w | w in s'.workers ensures WaitsPaid(s'.workers[w]) {
      if Actor(a) != Some(w) {
        OnlyActorMoves(c, s, a, w);
      } else {
        match a
        case Read(_, seen) =>
          assert WorkerOk(s.core, s.workers[w]);
          WaitsRead(c, s.clock, s.workers[w], seen);
        case Write(_, token, _) =>
          WaitsWrite(c, s.clock, s.workers[w], token,
                     Perform(Cell(s.core.log), OpOf(c, s.clock, s.workers[w], token)).1);
        case _ =>
      }
    }
  }

  /** Over an atomic registry one `ensure` waits at most once, plus once per claim it lost. */
  lemma {:induction false} WaitsAreFew(c: Config, s: State, run: seq<Action>)
    requires Inv(s) && Legal(c, s, run) && LinearizableRun(c, s, run)
    requires AllWaitsPaid(s)
    ensures AllWaitsPaid(Execute(c, s, run))
    decreases |run|
  {
    if run != [] {
      Step(c, s, run[0]);
      WaitsStep(c, s, run[0]);
      WaitsAreFew(c, Next(c, s, run[0]), run[1..]);
    }
  }

  /** Both bounds from the start, for every worker of every run over an atomic registry. */
  lemma WaitingTerminates(c: Config, s0: State, run: seq<Action>)
    requires Initial(s0) && Legal(c, s0, run) && LinearizableRun(c, s0, run)
    requires c.pollInterval > 0
    ensures var s := Execute(c, s0, run);
            forall w :: w in s.workers ==>
              && s.workers[w].waits <= 1 + s.workers[w].superseded
              && (s.workers[w].polls > 0 ==> (s.workers[w].polls - 1) * c.pollInterval < c.waitTimeout)
  {
    InitialInv(s0);
    WaitsAreFew(c, s0, run);
    WaitLoopIsBounded(c, s0, run);
    var s := Execute(c, s0, run);
    forall w | w in s.workers
      ensures s.workers[w].waits <= 1 + s.workers[w].superseded
      ensures s.workers[w].polls > 0 ==> (s.workers[w].polls - 1) * c.pollInterval < c.waitTimeout
    {
      assert WaitsPaid(s.workers[w]) && PollsInTime(c, s.clock, s.workers[w]);
    }
  }

  // ---- what is claimed ----

  /** Which template a scenario gets: its own, or the default for none or an empty one; unresolved
      exactly if there is no such template or it insists on other dimensions. */
  lemma TemplateIs(c: Config, sc: Scenario)
    ensures var own := sc.templateId.Some? && sc.templateId.value != "";
            var id := if own then sc.templateId.value else c.defaultTemplateId;
            var r := ResolveTemplate(c, sc);
            && (r == Unresolved(TemplateNotFound) <==> id !in c.templates)
            && (r == Unresolved(TemplateInvalid) <==>
                  id in c.templates && c.templates[id].dimensions.Some? && c.templates[id].dimensions.value != sc.dimensions)
            && (r.Resolved? ==> r.template == c.templates[id] && r.dimensions == sc.dimensions && r.metric == c.templates[id].metric)
  {
  }

  /** Every claim that enters the history by registration is complete and describes a scenario and
      its template, under the token its worker drew. */
  lemma ClaimDescribesScenario(c: Config, now: Time, wk: Worker, token: Token)
    requires wk.pc.Claiming? && ResolveTemplate(c, wk.scenario).Resolved?
    ensures var e := OpOf(c, now, wk, token).candidate;
            var t := ResolveTemplate(c, wk.scenario);
            && IsClaim(e) && e.claimToken == Some(token) && e.claimedAt == Some(now) && e.createdAt == now
            && e.indexName == c.indexName && e.vertical == wk.scenario.vertical && e.scenarioId == wk.scenario.scenarioId
            && e.embeddingModel == wk.scenario.embeddingModel && e.resolvedTemplate == Some(t.template)
            && e.templateId == t.template.templateId && e.templateVersion == t.template.templateVersion
            && e.dimensions == t.dimensions && e.metric == t.metric && e.lastVerifiedAt.None? && e.lastErrorMessage.None?
  {
  }
}
