/** The protocol's clocks: how old a claim must be to be reclaimed, and when waiting ends. */
module ProtocolTimes {
  import opened Options
  import opened Entries
  import opened Protocol
  import opened ProtocolInvariant

  // ---- reclaiming ----

  /** A reclaim replaces a claim that was taken at least `staleAfter` before its own. */
  predicate OldEnough(c: Config, op: Op) {
    op.Reclaim? ==>
      && op.observed.claimedAt.Some? && op.replacement.claimedAt.Some?
      && op.replacement.claimedAt.value - op.observed.claimedAt.value >= c.staleAfter
  }

  ghost predicate AllOldEnough(c: Config, core: Core) {
    && (forall i :: 0 <= i < |core.log| ==> OldEnough(c, core.log[i].op))
    && (forall f :: f in core.flying ==> OldEnough(c, f.op))
  }

  lemma WritesAreOldEnough(c: Config, now: Time, wk: Worker, token: Token)
    requires WritesRegistry(c, now, wk)
    ensures OldEnough(c, OpOf(c, now, wk, token))
  {
  }

  lemma OldEnoughStep(c: Config, s: State, a: Action)
    requires Enabled(c, s, a) && AllOldEnough(c, s.core)
    ensures AllOldEnough(c, Next(c, s, a).core)
  {
    if a.Write? { WritesAreOldEnough(c, s.clock, s.workers[a.w], a.token); }
  }

  lemma {:induction false} OldEnoughHolds(c: Config, s: State, run: seq<Action>)
    requires Legal(c, s, run) && AllOldEnough(c, s.core)
    ensures AllOldEnough(c, Execute(c, s, run).core)
    decreases |run|
  {
    if run != [] {
      OldEnoughStep(c, s, run[0]);
      OldEnoughHolds(c, Next(c, s, run[0]), run[1..]);
    }
  }

  /** Over every run: no claim is ever taken over before it is stale, by anyone, zombie, late
      landing or stale read notwithstanding. */
  lemma ReclaimsAreStale(c: Config, s0: State, run: seq<Action>, i: nat)
    requires Initial(s0) && Legal(c, s0, run) && i < |Execute(c, s0, run).core.log|
    requires Execute(c, s0, run).core.log[i].op.Reclaim?
    ensures var op := Execute(c, s0, run).core.log[i].op;
            && op.observed.claimedAt.Some? && op.replacement.claimedAt.Some?
            && op.replacement.claimedAt.value - op.observed.claimedAt.value >= c.staleAfter
  {
    OldEnoughHolds(c, s0, run);
    assert OldEnough(c, Execute(c, s0, run).core.log[i].op);
  }

  /** And a waiting worker may reclaim exactly from that age on. */
  lemma MayReclaimIff(c: Config, now: Time, wk: Worker)
    requires wk.pc.Waiting? && wk.pc.current.claimedAt.Some?
    ensures WritesRegistry(c, now, wk) <==> now - wk.pc.current.claimedAt.value >= c.staleAfter
  {
  }

  // ---- waiting ----

  /** The deadline a worker in the wait loop carries. */
  function Deadline(pc: Pc): Option<Time> {
    match pc
    case Waiting(_, d) => Some(d)
    case CheckingDeadline(_, d) => Some(d)
    case Sleeping(_, d, _) => Some(d)
    case Polling(_, d) => Some(d)
    case _ => None
  }

  /** Every step of every worker: the deadline is set `waitTimeout` ahead on entry and then kept, a
      timeout is raised only once it has passed, a sleep is one poll interval, begun before the
      deadline and not cut short. */
  lemma WaitingIsTimed(c: Config, s: State, a: Action, w: WorkerId)
    requires Enabled(c, s, a) && w in s.workers && w in Next(c, s, a).workers
    ensures var pc, pc' := s.workers[w].pc, Next(c, s, a).workers[w].pc;
            && (Deadline(pc).None? && Deadline(pc').Some? ==> Deadline(pc') == Some(s.clock + c.waitTimeout))
            && (Deadline(pc).Some? && Deadline(pc').Some? ==> Deadline(pc') == Deadline(pc))
            && (pc' == Raised(ProvisionTimeout) && pc' != pc ==>
                  (pc.CheckingDeadline? && s.clock >= pc.deadline) || (pc.MarkingFailed? && pc.code == ProvisionTimeout))
            && (pc'.MarkingFailed? && pc' != pc ==> pc'.code in {SchemaDrift, ProvisionerUnavailable})
            && (pc.CheckingDeadline? && s.clock < pc.deadline ==> !pc'.Raised?)
            && (pc'.Sleeping? && !pc.Sleeping? ==>
                  pc.CheckingDeadline? && s.clock < pc.deadline && pc'.wakeAt == s.clock + c.pollInterval)
            && (pc.Sleeping? && pc' != pc ==> s.clock >= pc.wakeAt)
  {
    if Actor(a) != Some(w) {
      OnlyActorMoves(c, s, a, w);
    } else if a.Write? {
      WriteIsTimed(c, s, a);
    } else if a.Read? {
      ReadIsTimed(c, s.clock, s.workers[w], a.seen);
    }
  }

  lemma ReadIsTimed(c: Config, now: Time, wk: Worker, seen: Option<Entry>)
    requires ReadsRegistry(wk.pc)
    ensures var pc, pc' := wk.pc, AfterRead(c, now, wk, seen).pc;
            && (Deadline(pc').Some? ==> Deadline(pc') == Deadline(pc) || (Deadline(pc').value == now + c.waitTimeout && Deadline(pc).None?))
            && pc' != Raised(ProvisionTimeout) && !pc'.Sleeping? && !pc'.MarkingFailed?
  {
  }

  lemma WriteIsTimed(c: Config, s: State, a: Action)
    requires Enabled(c, s, a) && a.Write?
    ensures var pc, pc' := s.workers[a.w].pc, Next(c, s, a).workers[a.w].pc;
            && (Deadline(pc').Some? ==> Deadline(pc') == Deadline(pc) || (Deadline(pc').value == s.clock + c.waitTimeout && Deadline(pc).None?))
            && (pc' == Raised(ProvisionTimeout) ==> pc.MarkingFailed? && pc.code == ProvisionTimeout)
            && !pc'.Sleeping? && !pc'.MarkingFailed?
  {
  }
}
