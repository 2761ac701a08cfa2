/** What each error of `ensure` means: the one thing the worker has just learned. */
module ProtocolErrors {
  import opened Options
  import opened Entries
  import opened Protocol
  import opened ProtocolInvariant

  /** A stored verification that is young enough to be trusted. */
  predicate Trusted(c: Config, now: Time, e: Entry) {
    e.lastVerifiedAt.Some? && now - e.lastVerifiedAt.value < c.verifyInterval
  }

  /** The entry that the worker's own registration put there. */
  predicate Own(pc: Pc, e: Entry) { pc.Rereading? && e.claimToken == Some(pc.token) }

  /** Where a read leads. */
  lemma ReadMeans(c: Config, now: Time, wk: Worker, e: Entry)
    requires ReadsRegistry(wk.pc)
    ensures var pc := AfterRead(c, now, wk, Some(e)).pc;
            && (Own(wk.pc, e) ==> pc == Probing(e))
            && (!Own(wk.pc, e) && e.status == Failed ==> pc == Raised(ProvisionFailed))
            && (!Own(wk.pc, e) && e.status == Retired ==> pc == Raised(IndexRetired))
            && (!Own(wk.pc, e) && e.status == Provisioning ==> pc.Waiting? && pc.current == e)
            && (!Own(wk.pc, e) && e.status == Ready && (wk.pc.Starting? ==> Trusted(c, now, e)) ==> pc == Done(e))
            && (!Own(wk.pc, e) && e.status == Ready && wk.pc.Starting? && !Trusted(c, now, e) ==>
                  var t := ResolveTemplate(c, wk.scenario);
                  pc == if t.Resolved? then Verifying(e) else Raised(t.code))
  {
  }

  lemma AbsenceMeans(c: Config, now: Time, wk: Worker)
    requires ReadsRegistry(wk.pc)
    ensures var pc, t := AfterRead(c, now, wk, None).pc, ResolveTemplate(c, wk.scenario);
            pc == if wk.pc.Rereading? then Raised(ProvisionConflict)
                  else if !c.autoCreate then Raised(AutoCreateDisabled)
                  else if t.Resolved? then Claiming else Raised(t.code)
  {
  }

  /** Where a write leads: an unanswered one ends the call, a registration that found something
      else there goes by what it found, and a conflict is an error only of a touch. */
  lemma WriteMeans(c: Config, s: State, a: Action)
    requires Enabled(c, s, a) && a.Write?
    ensures var wk, pc, cell := s.workers[a.w], Next(c, s, a).workers[a.w].pc, Cell(s.core.log);
            && (pc == Raised(RegistryUnavailable) <==> a.mode.Vague? || (wk.pc.MarkingFailed? && wk.pc.code == RegistryUnavailable))
            && (wk.pc.MarkingFailed? && !a.mode.Vague? ==> pc == Raised(wk.pc.code))
            && (wk.pc.Claiming? && a.mode.Clean? && cell.None? ==> pc.Probing? && pc.won == OpOf(c, s.clock, wk, a.token).candidate)
            && (wk.pc.Claiming? && a.mode.Clean? && cell.Some? && cell.value.claimToken != Some(a.token) ==>
                  match cell.value.status
                  case Ready => pc == Done(cell.value)
                  case Failed => pc == Raised(ProvisionFailed)
                  case Retired => pc == Raised(IndexRetired)
                  case Provisioning => pc == Waiting(cell.value, s.clock + c.waitTimeout))
            && (wk.pc.Touching? && !a.mode.Vague? && pc.Raised? <==>
                  wk.pc.Touching? && (a.mode.Refused? || a.mode.LandedButConflict? || (a.mode.Clean? && cell.None?)))
            && (wk.pc.Touching? && !a.mode.Vague? && pc.Raised? ==> pc == Raised(ProvisionConflict))
            && (wk.pc.Finalizing? || wk.pc.Waiting? ==> pc.Raised? ==> a.mode.Vague?)
  {
  }

  /** What the live index leads to. */
  lemma LookMeans(c: Config, s: State, a: Action)
    requires Enabled(c, s, a) && a.Look?
    ensures var wk, pc, t := s.workers[a.w], Next(c, s, a).workers[a.w].pc, ResolveTemplate(c, s.workers[a.w].scenario);
            && (wk.pc.Verifying? ==>
                  pc == if s.core.live == Some(Schema(t.dimensions, t.metric)) && wk.pc.entry.templateVersion >= t.template.templateVersion
                        then Touching(wk.pc.entry) else Raised(SchemaDrift))
            && (wk.pc.Probing? ==> pc == if s.core.live.Some? then Describing(wk.pc.won) else Creating(wk.pc.won))
            && (wk.pc.Describing? ==>
                  if s.core.live == Some(SchemaOf(wk.pc.won)) then pc == Finalizing(wk.pc.won)
                  else pc.MarkingFailed? && pc.won == wk.pc.won && pc.code == SchemaDrift)
  {
  }

  lemma CreateMeans(c: Config, s: State, a: Action)
    requires Enabled(c, s, a) && a.Create? && s.workers[a.w].pc.won.resolvedTemplate.Some?
    ensures var won, pc := s.workers[a.w].pc.won, Next(c, s, a).workers[a.w].pc;
            && (a.fault.Some? ==> pc.MarkingFailed? && pc.won == won && pc.code == ProvisionerUnavailable)
            && (a.fault.None? && s.core.live in {None, Some(SchemaOf(won))} ==> pc == Describing(won))
            && (a.fault.None? && s.core.live !in {None, Some(SchemaOf(won))} ==> pc.MarkingFailed? && pc.won == won && pc.code == SchemaDrift)
  {
  }

  /** In which step each code may be raised, over all workers and steps. */
  ghost predicate Explained(c: Config, s: State, a: Action, wk: Worker, code: Code) {
    match code
    case AutoCreateDisabled => a.Read? && a.seen.None? && !c.autoCreate
    case ProvisionConflict => (a.Read? && a.seen.None? && wk.pc.Rereading?) || (a.Write? && wk.pc.Touching?)
    case ProvisionFailed =>
      || (a.Read? && a.seen.Some? && a.seen.value.status == Failed)
      || (a.Write? && wk.pc.Claiming? && Cell(s.core.log).Some? && Cell(s.core.log).value.status == Failed)
    case IndexRetired =>
      || (a.Read? && a.seen.Some? && a.seen.value.status == Retired)
      || (a.Write? && wk.pc.Claiming? && Cell(s.core.log).Some? && Cell(s.core.log).value.status == Retired)
    case ProvisionTimeout => a.Local? && wk.pc.CheckingDeadline? && s.clock >= wk.pc.deadline
    case ProvisionerUnavailable => a.AdapterDown? || (a.Write? && wk.pc.MarkingFailed?)
    case SchemaDrift => (a.Look? && wk.pc.Verifying?) || (a.Write? && wk.pc.MarkingFailed?)
    case TemplateInvalid => a.Read? && ResolveTemplate(c, wk.scenario) == Unresolved(TemplateInvalid)
    case TemplateNotFound => a.Read? && ResolveTemplate(c, wk.scenario) == Unresolved(TemplateNotFound)
    case RegistryUnavailable => a.RegistryDown? || (a.Write? && a.mode.Vague?)
    case AssertionFailed => a.Create? && wk.pc.Creating? && wk.pc.won.resolvedTemplate.None?
  }

  /** The codes a claim is marked failed with. */
  ghost predicate MarksKnown(s: State) {
    forall w :: w in s.workers && s.workers[w].pc.MarkingFailed? ==> s.workers[w].pc.code in {SchemaDrift, ProvisionerUnavailable}
  }

  lemma {:induction false} MarksAreKnown(c: Config, s: State, run: seq<Action>)
    requires Legal(c, s, run) && MarksKnown(s)
    ensures MarksKnown(Execute(c, s, run))
    decreases |run|
  {
    if run != [] {
      MarksStep(c, s, run[0]);
      MarksAreKnown(c, Next(c, s, run[0]), run[1..]);
    }
  }

  lemma MarksStep(c: Config, s: State, a: Action)
    requires Enabled(c, s, a) && MarksKnown(s)
    ensures MarksKnown(Next(c, s, a))
  {
    var s' := Next(c, s, a);
    forall w | w in s'.workers && s'.workers[w].pc.MarkingFailed? ensures s'.workers[w].pc.code in {SchemaDrift, ProvisionerUnavailable} {
      if Actor(a) != Some(w) { OnlyActorMoves(c, s, a, w); }
    }
  }

  /** Over every run: whenever a step makes a worker raise an error, the error is the one for what
      that step told it. */
  lemma ErrorsMean(c: Config, s0: State, run: seq<Action>, a: Action, w: WorkerId)
    requires Initial(s0) && Legal(c, s0, run) && Enabled(c, Execute(c, s0, run), a)
    requires var s := Execute(c, s0, run); w in s.workers && !s.workers[w].pc.Raised? && Next(c, s, a).workers[w].pc.Raised?
    ensures var s := Execute(c, s0, run);
            Actor(a) == Some(w) && Explained(c, s, a, s.workers[w], Next(c, s, a).workers[w].pc.code)
  {
    var s := Execute(c, s0, run);
    MarksAreKnown(c, s0, run);
    if Actor(a) != Some(w) {
      OnlyActorMoves(c, s, a, w);
    } else if a.Read? {
      if a.seen.Some? { ReadMeans(c, s.clock, s.workers[w], a.seen.value); } else { AbsenceMeans(c, s.clock, s.workers[w]); }
    } else if a.Write? {
      WriteMeans(c, s, a);
    } else if a.Look? {
      LookMeans(c, s, a);
    }
  }
}
