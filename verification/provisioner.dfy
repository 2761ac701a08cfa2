/**
 `IndexProvisioner.ensure` as the program it is, run by one worker against a hostile world:
 before each of its registry or adapter calls the other workers may take any steps, and the
 call itself may be answered stale, ambiguously or with a fault. The script of all that is
 finite and otherwise arbitrary. Every such run is a run of the step system.
 */
module Provisioner {
  import opened Options
  import opened Entries
  import opened Protocol
  import ProtocolInvariant
  import ProtocolTheorems

  datatype Result = Ok(entry: Entry) | Err(code: Code)

  datatype Answer = Fresh | Stale(i: nat) | Absent | Down

  /** What happens around one call of the worker. */
  datatype Round = Round(others: seq<Action>, answer: Answer, mode: WriteMode, fault: Option<bool>)

  const CALM := Round([], Fresh, Clean, None)

  datatype Sight = Seen(entry: Option<Entry>) | Gone

  lemma {:induction false} ExecuteSnoc(c: Config, s: State, run: seq<Action>, a: Action)
    requires Legal(c, s, run) && Enabled(c, Execute(c, s, run), a)
    ensures Legal(c, s, run + [a]) && Execute(c, s, run + [a]) == Next(c, Execute(c, s, run), a)
    decreases |run|
  {
    if run == [] {
      var s' := Next(c, s, a);
      assert (run + [a])[0] == a && (run + [a])[1..] == [];
      assert Legal(c, s', []) && Execute(c, s', []) == s';
    } else {
      ExecuteSnoc(c, Next(c, s, run[0]), run[1..], a);
      assert (run + [a])[0] == run[0] && (run + [a])[1..] == run[1..] + [a];
    }
  }

  class IndexProvisioner {
    const c: Config
    const me: WorkerId
    var world: State
    var plan: seq<Round>
    ghost const origin: State
    ghost var trace: seq<Action>

    ghost predicate Valid()
      reads this
    {
      && Initial(origin) && Legal(c, origin, trace) && Execute(c, origin, trace) == world
      && me in world.workers
    }

    function Me(): Worker
      requires me in world.workers
      reads this
    {
      world.workers[me]
    }

    /** Starts one `ensure` call of worker `me` in a world nobody has touched yet. */
    constructor (c: Config, me: WorkerId, scenario: Scenario, live: Option<Schema>, issued: set<Token>, now: Time, plan: seq<Round>)
      ensures Valid() && Me().pc == Starting && this.c == c && this.plan == plan
    {
      var s := State(Core([], {}, live, issued, []), now, map[]);
      this.c := c;
      this.me := me;
      this.plan := plan;
      this.origin := s;
      world := Next(c, s, Spawn(me, scenario));
      trace := [Spawn(me, scenario)];
      new;
      ExecuteSnoc(c, s, [], Spawn(me, scenario));
      assert [] + [Spawn(me, scenario)] == trace;
    }

    lemma Invariant()
      requires Valid()
      ensures ProtocolInvariant.Inv(world) && ProtocolInvariant.WorkerOk(world.core, Me())
    {
      ProtocolTheorems.ReachesFromStart(c, origin, trace);
    }

    /** Nothing but the answer of the call happened, or the script got shorter. */
    twostate predicate Progress()
      reads this
    {
      |plan| < |old(plan)| || (old(plan) == [] && plan == [] && world.core.log == old(world.core.log))
    }

    method Apply(a: Action)
      requires Valid() && Enabled(c, world, a)
      modifies this`world, this`trace
      ensures Valid() && world == Next(c, old(world), a) && trace == old(trace) + [a]
    {
      ExecuteSnoc(c, origin, trace, a);
      world := Next(c, world, a);
      trace := trace + [a];
    }

    /** Lets the others move. Steps of this worker in the script are skipped. */
    method Yield() returns (round: Round)
      requires Valid()
      modifies this`world, this`trace, this`plan
      ensures Valid() && Me() == old(Me())
      ensures old(plan) == [] ==> plan == [] && world == old(world) && round == CALM
      ensures old(plan) != [] ==> |plan| < |old(plan)|
      ensures old(trace) <= trace
    {
      if plan == [] { return CALM; }
      round := plan[0];
      plan := plan[1..];
      var i := 0;
      while i < |round.others|
        invariant Valid() && Me() == old(Me()) && plan == old(plan)[1..] && old(trace) <= trace
      {
        var a := round.others[i];
        if Enabled(c, world, a) && ProtocolInvariant.Actor(a) != Some(me) {
          ProtocolInvariant.OnlyActorMoves(c, world, a, me);
          Apply(a);
        }
        i := i + 1;
      }
    }

    /** A claim token nobody has used. */
    method FreshToken() returns (t: Token)
      ensures t !in world.core.issued
    {
      t := "";
      while t in world.core.issued
        decreases set u | u in world.core.issued && |u| >= |t|
      {
        ghost var longer := set u | u in world.core.issued && |u| >= |t|;
        assert t in longer;
        t := t + "0";
        assert (set u | u in world.core.issued && |u| >= |t|) < longer;
      }
    }

    // ---- registry calls ----

    method Get() returns (r: Sight)
      requires Valid() && ReadsRegistry(Me().pc) && !Me().pc.Rereading?
      modifies this`world, this`trace, this`plan
      ensures Valid() && Progress()
      ensures r.Gone? ==> Me().pc == Raised(RegistryUnavailable)
      ensures r.Seen? ==> Me() == AfterRead(c, world.clock, old(Me()), r.entry)
      ensures r.Seen? && r.entry.Some? ==> EverStored(world.core.log, r.entry.value)
      ensures old(plan) == [] ==> r == Seen(Cell(world.core.log)) && world.clock == old(world.clock) && world.core == old(world.core)
      ensures Me().scenario == old(Me()).scenario
    {
      var round := Yield();
      match round.answer {
        case Down =>
          Apply(RegistryDown(me));
          return Gone;
        case Absent => r := Seen(None);
        case Stale(i) =>
          r := Seen(if i < |world.core.log| then Some(world.core.log[i].after) else Cell(world.core.log));
        case Fresh => r := Seen(Cell(world.core.log));
      }
      assert r.entry.Some? ==> EverStored(world.core.log, r.entry.value) by {
        if r.entry == Cell(world.core.log) && r.entry.Some? {
          assert world.core.log[|world.core.log| - 1].after == r.entry.value;
        }
      }
      Apply(Read(me, r.entry));
    }

    /** One registry write, whatever the registry answers. */
    method Put(token: Token, round: Round) returns (mode: WriteMode)
      requires Valid() && WritesRegistry(c, world.clock, Me())
      requires DrawsToken(Me().pc) ==> token !in world.core.issued
      modifies this`world, this`trace
      ensures Valid() && (round == CALM ==> mode == Clean)
      ensures Enabled(c, old(world), Write(me, token, mode))
      ensures world == Next(c, old(world), Write(me, token, mode)) && old(trace) <= trace
    {
      mode := round.mode;
      if !Enabled(c, world, Write(me, token, mode)) { mode := Clean; }
      Apply(Write(me, token, mode));
    }

    /** `mark_ready` under the worker's own token. With the script used up it fails only if
        the claim had been superseded before. */
    method MarkReady(won: Entry)
      requires Valid() && Me().pc == Finalizing(won)
      modifies this`world, this`trace, this`plan
      ensures Valid() && |plan| <= |old(plan)|
      ensures Me().pc == Raised(RegistryUnavailable) || Me().pc.Done? || Me().pc == Refetching(won)
      ensures Me().pc.Refetching? && |plan| == |old(plan)| ==> !old(Mine(won))
      ensures old(plan) == [] && old(Mine(won)) ==>
                && plan == [] && world.clock == old(world.clock) && world.core.live == old(world.core.live)
                && Me().pc == Done(ReadyOf(won, world.clock)) && Mine(ReadyOf(won, world.clock))
    {
      var round := Yield();
      var mode := Put("", round);
    }

    /** The worker now holds the claim it saw, under a token and a claim time of its own. */
    ghost predicate TookOver(observed: Entry)
      requires me in world.workers
      reads this
    {
      && Me().pc.Probing? && Mine(Me().pc.won) && Me().pc.won.claimToken.Some?
      && Me().pc.won == observed.(claimToken := Me().pc.won.claimToken, claimedAt := Some(world.clock))
    }

    /** `_try_reclaim` of a stale claim: won, lost, or no answer. */
    method TryReclaim(observed: Entry, round: Round)
      requires Valid() && Me().pc.Waiting? && Me().pc.current == observed && IsStale(c, world.clock, observed)
      modifies this`world, this`trace
      ensures Valid() && world.clock == old(world.clock)
      ensures || Me().pc == Raised(RegistryUnavailable)
              || (Me().pc.Probing? && (round == CALM ==> Mine(Me().pc.won)))
              || Me().pc == CheckingDeadline(observed, old(Me()).pc.deadline)
      ensures round == CALM && old(Mine(observed)) ==>
                TookOver(observed) && world.core.live == old(world.core.live)
    {
      var token := FreshToken();
      var mode := Put(token, round);
    }

    /** From the deadline check to the next poll: false when the deadline has passed. */
    method Sleep() returns (ok: bool)
      requires Valid() && Me().pc.CheckingDeadline? && c.pollInterval > 0
      modifies this`world, this`trace, this`plan
      ensures Valid() && |plan| <= |old(plan)|
      ensures if ok then Me().pc == Polling(old(Me()).pc.current, old(Me()).pc.deadline)
              else Me().pc == Raised(ProvisionTimeout)
      ensures ok ==> old(world.clock) < old(Me()).pc.deadline
      ensures ok && |plan| == |old(plan)| ==> world.clock > old(world.clock)
      ensures old(plan) == [] ==>
                && plan == [] && world.core == old(world.core) && (ok <==> old(world.clock) < old(Me()).pc.deadline)
                && (ok ==> world.clock == old(world.clock) + c.pollInterval)
    {
      Apply(Local(me));
      if Me().pc.Raised? { return false; }
      var wakeAt := Me().pc.wakeAt;
      var round := Yield();
      if world.clock < wakeAt {
        Apply(Tick(wakeAt - world.clock));
      }
      Apply(Local(me));
      ok := true;
    }

    /** The head of the wait loop: reclaim if stale, give up past the deadline, else sleep. */
    method ReclaimOrSleep(current: Entry, deadline: Time)
      requires Valid() && c.pollInterval > 0 && Me().pc == Waiting(current, deadline)
      modifies this`world, this`trace, this`plan
      ensures Valid() && |plan| <= |old(plan)|
      ensures || Me().pc.Raised?
              || (Me().pc.Probing? && (|plan| == |old(plan)| ==> Mine(Me().pc.won)))
              || (&& Me().pc == Polling(current, deadline)
                  && (|plan| == |old(plan)| ==> old(world.clock) < deadline && old(world.clock) < world.clock))
      ensures old(plan) == [] && old(Mine(current)) ==>
                && plan == [] && world.core.live == old(world.core.live)
                && (if current.claimedAt.Some? && old(world.clock) - current.claimedAt.value >= c.staleAfter then TookOver(current)
                    else if old(world.clock) >= deadline then Me().pc == Raised(ProvisionTimeout)
                    else && Me().pc == Polling(current, deadline) && world.core == old(world.core)
                         && world.clock == old(world.clock) + c.pollInterval)
    {
      var round := Yield();
      if IsStale(c, world.clock, current) {
        TryReclaim(current, round);
        if !Me().pc.CheckingDeadline? { return; }
      } else {
        Apply(Local(me));
      }
      var awake := Sleep();
    }

    // ---- adapter calls ----

    /** `index_exists` or `describe_index`: false when the adapter raised. */
    /** Has this worker called the adapter about the live index since its `n`th step? */
    ghost predicate LookedSince(n: nat)
      reads this
    {
      exists i :: n <= i < |trace| && (trace[i] == Look(me) || trace[i] == AdapterDown(me))
    }

    method LookAtIndex() returns (ok: bool)
      requires Valid() && LooksAtIndex(c, Me())
      modifies this`world, this`trace, this`plan
      ensures Valid() && Progress()
      ensures if ok then Me() == AfterLook(c, old(Me()), world.core.live) else Me().pc == Raised(ProvisionerUnavailable)
      ensures old(plan) == [] ==> ok && plan == [] && world.core == old(world.core) && world.clock == old(world.clock)
      ensures old(trace) <= trace && LookedSince(|old(trace)|)
    {
      var round := Yield();
      if round.fault.Some? {
        Apply(AdapterDown(me));
        assert trace[|trace| - 1] == AdapterDown(me);
        return false;
      }
      Apply(Look(me));
      assert trace[|trace| - 1] == Look(me);
      ok := true;
    }

    method CreateIndex()
      requires Valid() && Me().pc.Creating?
      modifies this`world, this`trace, this`plan
      ensures Valid() && Progress()
      ensures Me().pc == Describing(old(Me()).pc.won) || (Me().pc.MarkingFailed? && Me().pc.won == old(Me()).pc.won)
      ensures old(plan) == [] ==>
                && plan == [] && world.clock == old(world.clock) && world.core.log == old(world.core.log)
                && world.core.live == LiveAfterCreate(old(world.core.live), SchemaOf(old(Me()).pc.won), None)
                && Me() == AfterCreate(old(Me()), old(world.core.live), None)
    {
      var round := Yield();
      Invariant();
      Apply(Create(me, round.fault));
    }

    // ---- the orchestration ----

    ghost predicate Ends(r: Result)
      requires me in world.workers
      reads this
    {
      Me().pc == match r case Ok(e) => Done(e) case Err(code) => Raised(code)
    }

    /** Does the cell still hold the claim this worker is working on? */
    predicate Mine(won: Entry)
      reads this
    {
      Cell(world.core.log) == Some(won)
    }

    /** The age of a verification, by the fields alone. */
    predicate Recent(e: Entry, now: Time) { e.lastVerifiedAt.Some? && now - e.lastVerifiedAt.value < c.verifyInterval }

    /** When an undisturbed wait looks at the claim for the last time: the first poll that is not
        before the deadline. */
    function LastLook(now: Time, deadline: Time): Time
      requires c.pollInterval > 0
      decreases deadline - now
    {
      if now >= deadline then now else LastLook(now + c.pollInterval, deadline)
    }

    lemma {:induction false} LastLookIs(now: Time, deadline: Time) returns (polls: nat)
      requires c.pollInterval > 0
      ensures LastLook(now, deadline) == now + polls * c.pollInterval
      ensures if now >= deadline then polls == 0 else deadline <= LastLook(now, deadline) < deadline + c.pollInterval
      decreases deadline - now
    {
      if now >= deadline { return 0; }
      var rest := LastLookIs(now + c.pollInterval, deadline);
      polls := rest + 1;
    }

    lemma LastLookIsLater(now: Time, deadline: Time)
      requires c.pollInterval > 0
      ensures LastLook(now, deadline) >= now
    {
      var polls := LastLookIs(now, deadline);
    }

    /** The claim is stale by the time an undisturbed wait has looked for the last time. */
    predicate Abandoned(e: Entry, now: Time)
      requires c.pollInterval > 0
    {
      e.claimedAt.Some? && LastLook(now, now + c.waitTimeout) - e.claimedAt.value >= c.staleAfter
    }

    /** An entry that was checked against the live index, undisturbed. */
    ghost predicate Checked(t: Resolution, live: Option<Schema>, entry: Entry, now: Time, r: Result) {
      && (t.Unresolved? ==> r == Err(t.code))
      && (t.Resolved? ==>
            r == if live != Some(Schema(t.dimensions, t.metric)) || entry.templateVersion < t.template.templateVersion
                 then Err(SchemaDrift) else Ok(entry.(lastVerifiedAt := Some(now))))
    }

    /** An abandoned claim that was taken over and finished, undisturbed. */
    ghost predicate Inherited(live: Option<Schema>, entry: Entry, r: Result)
      reads this
    {
      if live in {None, Some(SchemaOf(entry))}
      then r.Ok? && Mine(r.entry) && r.entry.status == Ready && SettingsOf(r.entry) == SettingsOf(entry)
      else r == Err(SchemaDrift)
    }

    /** What an undisturbed call answers, by the entry it finds. */
    ghost predicate Answers(found: Entry, t: Resolution, live: Option<Schema>, now: Time, r: Result)
      requires c.pollInterval > 0
      reads this
    {
      match found.status
      case Failed => r == Err(ProvisionFailed)
      case Retired => r == Err(IndexRetired)
      case Ready => if Recent(found, now) then r == Ok(found) else Checked(t, live, found, now, r)
      case Provisioning => if Abandoned(found, now) then Inherited(live, found, r) else r == Err(ProvisionTimeout)
    }

    /** `ensure`: terminates under every finite script, and what it returns is a ready entry
        that describes the live index. Undisturbed, the entry found decides the answer, and an
        unknown index is created. */
    method Ensure() returns (r: Result)
      requires Valid() && Me().pc == Starting && c.pollInterval > 0
      modifies this`world, this`trace, this`plan
      ensures Valid() && Ends(r)
      ensures r.Ok? ==> r.entry.status == Ready && world.core.live == Some(SchemaOf(r.entry))
      ensures r.Ok? ==> EverStored(world.core.log, r.entry)
      ensures var t := ResolveTemplate(c, old(Me()).scenario);
              var found, live, now := old(Cell(world.core.log)), old(world.core.live), old(world.clock);
              old(plan) == [] ==>
                && (found.Some? ==> Answers(found.value, t, live, now, r))
                && (found.None? && !c.autoCreate ==> r == Err(AutoCreateDisabled))
                && (found.None? && c.autoCreate && t.Unresolved? ==> r == Err(t.code))
                && (found.None? && c.autoCreate && t.Resolved? ==>
                      if live in {None, Some(Schema(t.dimensions, t.metric))}
                      then r.Ok? && Mine(r.entry) && SchemaOf(r.entry) == Schema(t.dimensions, t.metric)
                      else r == Err(SchemaDrift))
    {
      var seen := Get();
      if seen.Gone? {
        r := Err(RegistryUnavailable);
      } else if seen.entry.None? {
        r := ClaimNew();
      } else {
        r := DispatchExisting(seen.entry.value);
      }
      EndsReal(r);
    }

    /** What a worker has returned is stored, ready, and describes the live index. */
    lemma EndsReal(r: Result)
      requires Valid() && Ends(r)
      ensures r.Ok? ==>
                && r.entry.status == Ready && world.core.live == Some(SchemaOf(r.entry))
                && EverStored(world.core.log, r.entry)
    {
      Invariant();
      if r.Ok? { ProtocolInvariant.StoredSettings(world.core.log, r.entry); }
    }

    method DispatchExisting(entry: Entry) returns (r: Result)
      requires Valid() && c.pollInterval > 0
      requires Me().pc == Protocol.DispatchExisting(c, world.clock, Me(), entry).pc
      requires EverStored(world.core.log, entry)
      modifies this`world, this`trace, this`plan
      ensures Valid() && Ends(r)
      ensures entry.status == Failed ==> r == Err(ProvisionFailed) && world == old(world)
      ensures entry.status == Retired ==> r == Err(IndexRetired) && world == old(world)
      ensures entry.status == Ready && entry.lastVerifiedAt.Some? && old(world.clock) - entry.lastVerifiedAt.value < c.verifyInterval ==>
                r == Ok(entry) && world == old(world)
      ensures old(plan) == [] && old(Mine(entry)) ==>
                Answers(entry, ResolveTemplate(c, old(Me()).scenario), old(world.core.live), old(world.clock), r)
    {
      if entry.status == Ready {
        r := HandleReady(entry);
      } else {
        r := AfterLosingClaim(entry);
      }
    }

    /** A verification less than the interval ago is trusted without any call. Otherwise the live
        index is looked at; undisturbed, it and the template version decide, and the entry is
        returned with its new verification time. */
    method HandleReady(entry: Entry) returns (r: Result)
      requires Valid() && entry.status == Ready
      requires Me().pc == Protocol.DispatchExisting(c, world.clock, Me(), entry).pc
      modifies this`world, this`trace, this`plan
      ensures Valid() && Ends(r)
      ensures entry.lastVerifiedAt.Some? && old(world.clock) - entry.lastVerifiedAt.value < c.verifyInterval ==>
                r == Ok(entry) && world == old(world)
      ensures var t := ResolveTemplate(c, old(Me()).scenario);
              entry.lastVerifiedAt.None? || old(world.clock) - entry.lastVerifiedAt.value >= c.verifyInterval ==>
                && (t.Unresolved? ==> r == Err(t.code) && world == old(world))
                && (t.Resolved? ==> LookedSince(|old(trace)|))
                && (t.Resolved? && old(plan) == [] ==>
                      && world.core.live == old(world.core.live)
                      && (r == Err(SchemaDrift) <==>
                            old(world.core.live) != Some(Schema(t.dimensions, t.metric))
                            || entry.templateVersion < t.template.templateVersion)
                      && (r != Err(SchemaDrift) && old(Mine(entry)) ==> r == Ok(entry.(lastVerifiedAt := Some(old(world.clock))))))
    {
      if entry.lastVerifiedAt.Some? && !Elapsed(world.clock, entry.lastVerifiedAt.value, c.verifyInterval) {
        return Ok(entry);
      }
      var resolution := ResolveTemplate(c, Me().scenario);
      if resolution.Unresolved? { return Err(resolution.code); }
      var ok := LookAtIndex();
      if !ok { return Err(ProvisionerUnavailable); }
      if Me().pc.Raised? { return Err(SchemaDrift); }
      var round := Yield();
      var mode := Put("", round);
      r := if Me().pc.Done? then Ok(Me().pc.entry) else Err(Me().pc.code);
    }

    method AfterLosingClaim(entry: Entry) returns (r: Result)
      requires Valid() && c.pollInterval > 0
      requires Me().pc == AfterLosing(c, world.clock, Me(), entry).pc
      requires EverStored(world.core.log, entry)
      modifies this`world, this`trace, this`plan
      ensures Valid() && Ends(r)
      ensures entry.status == Ready ==> r == Ok(entry) && world == old(world)
      ensures entry.status == Failed ==> r == Err(ProvisionFailed) && world == old(world)
      ensures entry.status == Retired ==> r == Err(IndexRetired) && world == old(world)
      ensures entry.status == Provisioning && old(plan) == [] && old(Mine(entry)) ==>
                if Abandoned(entry, old(world.clock)) then Inherited(old(world.core.live), entry, r) else r == Err(ProvisionTimeout)
      decreases |plan|, if entry.status == Provisioning then 6 else 0
    {
      match entry.status {
        case Ready => r := Ok(entry);
        case Provisioning => r := WaitForReady(entry);
        case Failed => r := Err(ProvisionFailed);
        case Retired => r := Err(IndexRetired);
      }
    }

    method ClaimNew() returns (r: Result)
      requires Valid() && c.pollInterval > 0
      requires Me().pc == Protocol.ClaimNew(c, Me()).pc
      modifies this`world, this`trace, this`plan
      ensures Valid() && Ends(r)
      ensures !c.autoCreate ==> r == Err(AutoCreateDisabled) && world == old(world)
      ensures var t := ResolveTemplate(c, old(Me()).scenario);
              c.autoCreate && t.Unresolved? ==> r == Err(t.code) && world == old(world)
      ensures var t := ResolveTemplate(c, old(Me()).scenario);
              old(plan) == [] && old(world.core.log) == [] && c.autoCreate && t.Resolved? ==>
                if old(world.core.live) in {None, Some(Schema(t.dimensions, t.metric))}
                then && r.Ok? && Mine(r.entry) && SchemaOf(r.entry) == Schema(t.dimensions, t.metric)
                     && world.core.live == Some(SchemaOf(r.entry)) && Describes(r.entry, old(Me()).scenario, t.template, old(world.clock))
                else r == Err(SchemaDrift) && world.core.live == old(world.core.live)
      decreases |plan|, 13
    {
      if !c.autoCreate { return Err(AutoCreateDisabled); }
      var resolution := ResolveTemplate(c, Me().scenario);
      if resolution.Unresolved? { return Err(resolution.code); }
      var round := Yield();
      var token := FreshToken();
      var mode := Put(token, round);
      if mode.Vague? { return Err(RegistryUnavailable); }
      if mode.Reread? {
        var known := ReadBack(token);
        if !known { return Err(Me().pc.code); }
      }
      r := AfterRegister(token);
    }

    /** The entry carries the scenario's and the template's own settings. */
    predicate Describes(e: Entry, scenario: Scenario, template: Template, at: Time) {
      && e.indexName == c.indexName && e.vertical == scenario.vertical && e.scenarioId == scenario.scenarioId
      && e.embeddingModel == scenario.embeddingModel && e.createdAt == at
      && e.templateId == template.templateId && e.templateVersion == template.templateVersion
    }

    /** A refused insert is read back. */
    method ReadBack(token: Token) returns (known: bool)
      requires Valid() && Me().pc == Rereading(token)
      modifies this`world, this`trace, this`plan
      ensures Valid() && |plan| <= |old(plan)|
      ensures !known ==> Me().pc.Raised?
      ensures known ==> Cell(world.core.log).Some? && Me().pc == AfterRegistering(token, Cell(world.core.log).value).pc
    {
      var round := Yield();
      if round.answer.Down? {
        Apply(RegistryDown(me));
        return false;
      }
      Apply(Read(me, Cell(world.core.log)));
      known := Cell(world.core.log).Some?;
    }

    /** Where the worker goes with the entry its registration returned. */
    function AfterRegistering(token: Token, stored: Entry): Worker
      requires me in world.workers
      reads this
    {
      if stored.claimToken == Some(token) then Me().(pc := Probing(stored)) else AfterLosing(c, world.clock, Me(), stored)
    }

    method AfterRegister(token: Token) returns (r: Result)
      requires Valid() && c.pollInterval > 0 && Cell(world.core.log).Some?
      requires Me().pc == AfterRegistering(token, Cell(world.core.log).value).pc
      modifies this`world, this`trace, this`plan
      ensures Valid() && Ends(r)
      ensures var stored := Cell(old(world.core.log)).value;
              old(plan) == [] && stored.claimToken == Some(token) ==>
                if old(world.core.live) in {None, Some(SchemaOf(stored))}
                then r == Ok(ReadyOf(stored, world.clock)) && world.core.live == Some(SchemaOf(stored)) && Mine(r.entry)
                else r == Err(SchemaDrift) && world.core.live == old(world.core.live)
      decreases |plan|, 12
    {
      var stored := Cell(world.core.log).value;
      assert world.core.log[|world.core.log| - 1].after == stored;
      if stored.claimToken == Some(token) {
        r := ClaimAndCreate(stored);
      } else {
        r := AfterLosingClaim(stored);
      }
    }

    method ClaimAndCreate(won: Entry) returns (r: Result)
      requires Valid() && c.pollInterval > 0 && Me().pc == Probing(won)
      modifies this`world, this`trace, this`plan
      ensures Valid() && Ends(r)
      ensures old(plan) == [] && old(Mine(won)) && old(world.core.live) in {None, Some(SchemaOf(won))} ==>
                r == Ok(ReadyOf(won, world.clock)) && world.core.live == Some(SchemaOf(won)) && Mine(ReadyOf(won, world.clock))
      ensures old(plan) == [] && old(Mine(won)) && old(world.core.live) !in {None, Some(SchemaOf(won))} ==>
                && r == Err(SchemaDrift) && world.core.live == old(world.core.live)
                && Mine(FailedOf(won, DRIFTED))
      decreases |plan|, if Mine(won) then 4 else 11
    {
      var ok := LookAtIndex();
      if !ok { return Err(ProvisionerUnavailable); }
      if Me().pc.Creating? {
        CreateIndex();
      }
      if Me().pc.Describing? {
        ok := LookAtIndex();
        if !ok { return Err(ProvisionerUnavailable); }
      }
      if Me().pc.MarkingFailed? {
        r := GiveUp(won);
        return;
      }
      r := FinalizeReady(won);
    }

    /** Marks the own claim failed and raises what went wrong. */
    method GiveUp(won: Entry) returns (r: Result)
      requires Valid() && Me().pc.MarkingFailed? && Me().pc.won == won
      modifies this`world, this`trace, this`plan
      ensures Valid() && Ends(r) && |plan| <= |old(plan)|
      ensures r.Err? && (r.code == RegistryUnavailable || r.code == old(Me()).pc.code)
      ensures old(plan) == [] && old(Mine(won)) ==>
                && r == Err(old(Me()).pc.code) && world.core.live == old(world.core.live)
                && Mine(FailedOf(won, old(Me()).pc.reason))
    {
      var code := Me().pc.code;
      var round := Yield();
      var mode := Put("", round);
      r := Err(if mode.Vague? then RegistryUnavailable else code);
    }

    method FinalizeReady(won: Entry) returns (r: Result)
      requires Valid() && c.pollInterval > 0 && Me().pc == Finalizing(won)
      modifies this`world, this`trace, this`plan
      ensures Valid() && Ends(r)
      ensures old(plan) == [] && old(Mine(won)) ==>
                r == Ok(ReadyOf(won, world.clock)) && world.core.live == old(world.core.live) && Mine(ReadyOf(won, world.clock))
      decreases |plan|, if Mine(won) then 1 else 8
    {
      MarkReady(won);
      if Me().pc.Raised? { return Err(RegistryUnavailable); }
      if Me().pc.Done? { return Ok(Me().pc.entry); }
      Invariant();
      var seen := Get();
      if seen.Gone? { return Err(RegistryUnavailable); }
      if seen.entry.None? {
        r := ClaimNew();
      } else {
        r := AfterLosingClaim(seen.entry.value);
      }
    }

    /** The bounded poll and reclaim loop. */
    method WaitForReady(entry: Entry) returns (r: Result)
      requires Valid() && c.pollInterval > 0
      requires Me().pc == Waiting(entry, world.clock + c.waitTimeout)
      modifies this`world, this`trace, this`plan
      ensures Valid() && Ends(r)
      ensures entry.status == Provisioning && old(plan) == [] && old(Mine(entry)) ==>
                if Abandoned(entry, old(world.clock)) then Inherited(old(world.core.live), entry, r) else r == Err(ProvisionTimeout)
      decreases |plan|, 5
    {
      var current := entry;
      var deadline := world.clock + c.waitTimeout;
      while true
        invariant Valid() && Me().pc == Waiting(current, deadline)
        invariant |plan| <= |old(plan)|
        invariant (entry.status == Provisioning && old(plan) == [] && old(Mine(entry))) ==>
                    && plan == [] && world.core == old(world.core) && current == entry
                    && LastLook(world.clock, deadline) == LastLook(old(world.clock), deadline)
        decreases |plan|, deadline - world.clock
      {
        LastLookIsLater(world.clock, deadline);
        ReclaimOrSleep(current, deadline);
        if Me().pc.Raised? { return Err(Me().pc.code); }
        if Me().pc.Probing? {
          r := ClaimAndCreate(Me().pc.won);
          return;
        }
        var again: Option<Entry>;
        again, r := Poll(current, deadline);
        if again.None? { return; }
        current := again.value;
      }
    }

    /** The tail of the wait loop: anything but a claim in progress ends the wait. */
    method Poll(current: Entry, deadline: Time) returns (again: Option<Entry>, r: Result)
      requires Valid() && c.pollInterval > 0 && Me().pc == Polling(current, deadline)
      modifies this`world, this`trace, this`plan
      ensures Valid() && if again.Some? then Me().pc == Waiting(again.value, deadline) && |plan| <= |old(plan)| else Ends(r)
      ensures again.Some? && |plan| == |old(plan)| ==> world.clock == old(world.clock)
      ensures old(plan) == [] && old(Mine(current)) && current.status == Provisioning ==>
                again == Some(current) && plan == [] && world.core == old(world.core) && world.clock == old(world.clock)
      decreases |plan|, 4
    {
      Invariant();
      var refreshed := Get();
      if refreshed.Gone? { return None, Err(RegistryUnavailable); }
      if refreshed.entry.None? {
        r := ClaimNew();
        return None, r;
      }
      if refreshed.entry.value.status != Provisioning {
        r := AfterLosingClaim(refreshed.entry.value);
        return None, r;
      }
      return Some(refreshed.entry.value), Err(ProvisionTimeout);
    }
  }
}
