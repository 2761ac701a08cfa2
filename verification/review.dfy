/** Vertical resolution, parking, and the human review queue. */
module Review {
  import opened Options
  import opened Ledger
  import opened LedgerTraces

  datatype Scenario = Scenario(scenarioId: string, vertical: string)

  /** Scenarios by id, and the enabled scenario of each vertical. */
  datatype ScenarioStore = ScenarioStore(byId: map<string, Scenario>, byVertical: map<string, Scenario>)

  datatype Envelope = Envelope(
    docId: string,
    scenarioId: Option<string>,
    vertical: Option<string>,
    source: string,
    blobPath: string)

  datatype Rule = Rule(pattern: string, vertical: string)

  datatype Config = Config(rules: seq<Rule>, parkUnresolved: bool, suggestVerticals: bool)

  datatype Source = ReviewAssignment | EnvelopeScenarioId | EnvelopeVertical | SourceMapping

  datatype Resolution =
    | Resolved(vertical: string, scenarioId: string, source: Source)
    | Unresolved
    | ScenarioNotFound(key: string)

  /** `fnmatch` is a parameter: does the source match the pattern? */
  type Glob = (string, string) -> bool

  predicate IsGlob(pattern: string) { '*' in pattern || '?' in pattern || '[' in pattern }

  /** A pattern is a glob if one of the three wildcard characters occurs anywhere in it, and a rule
      of any other pattern matches by equality alone. */
  lemma GlobIs(glob: Glob, r: Rule, before: string, c: char, behind: string, source: string)
    ensures c in {'*', '?', '['} ==> IsGlob(before + [c] + behind)
    ensures IsGlob(before + [c] + behind) ==> c in {'*', '?', '['} || IsGlob(before + behind)
    ensures !IsGlob("")
    ensures !IsGlob(r.pattern) && (MatchesExactly(r, source) || MatchesGlob(glob, r, source)) ==> r.pattern == source
  {
    assert (before + [c] + behind)[|before|] == c;
  }

  predicate MatchesExactly(r: Rule, source: string) { !IsGlob(r.pattern) && r.pattern == source }

  predicate MatchesGlob(glob: Glob, r: Rule, source: string) { IsGlob(r.pattern) && glob(source, r.pattern) }

  /** Exact rules before glob rules, first listed wins within each kind. */
  method SelectSourceRule(glob: Glob, source: string, rules: seq<Rule>) returns (r: Option<Rule>, ghost at: nat)
    ensures r.None? <==> forall i :: 0 <= i < |rules| ==> !MatchesExactly(rules[i], source) && !MatchesGlob(glob, rules[i], source)
    ensures r.Some? ==> at < |rules| && rules[at] == r.value
    ensures r.Some? && MatchesExactly(r.value, source) ==>
              forall i :: 0 <= i < at ==> !MatchesExactly(rules[i], source)
    ensures r.Some? && !MatchesExactly(r.value, source) ==>
              && MatchesGlob(glob, r.value, source)
              && (forall i :: 0 <= i < |rules| ==> !MatchesExactly(rules[i], source))
              && forall i :: 0 <= i < at ==> !MatchesGlob(glob, rules[i], source)
    ensures r == RuleFor(glob, source, rules)
  {
    RuleForUnfolds(glob, source, rules);
    for i := 0 to |rules|
      invariant forall k :: 0 <= k < i ==> !MatchesExactly(rules[k], source)
      invariant FirstExact(source, rules) == FirstExact(source, rules[i..])
    {
      if MatchesExactly(rules[i], source) { return Some(rules[i]), i; }
      assert rules[i..][1..] == rules[i + 1..];
    }
    for i := 0 to |rules|
      invariant forall k :: 0 <= k < i ==> !MatchesGlob(glob, rules[k], source)
      invariant FirstGlob(glob, source, rules) == FirstGlob(glob, source, rules[i..])
    {
      if MatchesGlob(glob, rules[i], source) { return Some(rules[i]), i; }
      assert rules[i..][1..] == rules[i + 1..];
    }
    return None, 0;
  }

  function FirstExact(source: string, rules: seq<Rule>): Option<Rule> {
    if rules == [] then None
    else if MatchesExactly(rules[0], source) then Some(rules[0])
    else FirstExact(source, rules[1..])
  }

  function FirstGlob(glob: Glob, source: string, rules: seq<Rule>): Option<Rule> {
    if rules == [] then None
    else if MatchesGlob(glob, rules[0], source) then Some(rules[0])
    else FirstGlob(glob, source, rules[1..])
  }

  function RuleFor(glob: Glob, source: string, rules: seq<Rule>): Option<Rule> {
    var exact := FirstExact(source, rules);
    if exact.Some? then exact else FirstGlob(glob, source, rules)
  }

  lemma RuleForUnfolds(glob: Glob, source: string, rules: seq<Rule>)
    ensures FirstExact(source, rules) == FirstExact(source, rules[0..])
    ensures FirstGlob(glob, source, rules) == FirstGlob(glob, source, rules[0..])
  {
    assert rules[0..] == rules;
  }

  function Found(store: map<string, Scenario>, key: string, source: Source): Resolution {
    if key in store then Resolved(store[key].vertical, store[key].scenarioId, source) else ScenarioNotFound(key)
  }

  /** The decision order: a human's assignment, then the envelope, then the source mapping. */
  function Resolve(store: ScenarioStore, config: Config, glob: Glob, row: Option<Row>, env: Envelope): Resolution {
    if row.Some? && row.value.assignedScenario.Some? then Found(store.byId, row.value.assignedScenario.value, ReviewAssignment)
    else if env.scenarioId.Some? then Found(store.byId, env.scenarioId.value, EnvelopeScenarioId)
    else if env.vertical.Some? then Found(store.byVertical, env.vertical.value, EnvelopeVertical)
    else match RuleFor(glob, env.source, config.rules)
      case Some(rule) => Found(store.byVertical, rule.vertical, SourceMapping)
      case None => Unresolved
  }

  lemma {:induction false} FirstExactIs(source: string, rules: seq<Rule>)
    ensures FirstExact(source, rules).None? <==> forall i :: 0 <= i < |rules| ==> !MatchesExactly(rules[i], source)
    ensures FirstExact(source, rules).Some? ==> MatchesExactly(FirstExact(source, rules).value, source)
  {
    if rules != [] {
      FirstExactIs(source, rules[1..]);
      assert rules == [rules[0]] + rules[1..];
    }
  }

  lemma {:induction false} FirstGlobIs(glob: Glob, source: string, rules: seq<Rule>)
    ensures FirstGlob(glob, source, rules).None? <==> forall i :: 0 <= i < |rules| ==> !MatchesGlob(glob, rules[i], source)
    ensures FirstGlob(glob, source, rules).Some? ==> MatchesGlob(glob, FirstGlob(glob, source, rules).value, source)
  {
    if rules != [] {
      FirstGlobIs(glob, source, rules[1..]);
      assert rules == [rules[0]] + rules[1..];
    }
  }

  /** Rule `k` is the one that counts for a source: the first exact match, or without any exact
      match the first matching glob. */
  ghost predicate Decides(glob: Glob, source: string, rules: seq<Rule>, k: nat) {
    && k < |rules|
    && if MatchesExactly(rules[k], source) then forall i :: 0 <= i < k ==> !MatchesExactly(rules[i], source)
       else
         && MatchesGlob(glob, rules[k], source)
         && (forall i :: 0 <= i < |rules| ==> !MatchesExactly(rules[i], source))
         && (forall i :: 0 <= i < k ==> !MatchesGlob(glob, rules[i], source))
  }

  lemma {:induction false} FirstExactAt(source: string, rules: seq<Rule>, k: nat)
    requires k < |rules| && MatchesExactly(rules[k], source) && forall i :: 0 <= i < k ==> !MatchesExactly(rules[i], source)
    ensures FirstExact(source, rules) == Some(rules[k])
  {
    if k > 0 { FirstExactAt(source, rules[1..], k - 1); }
  }

  lemma {:induction false} FirstGlobAt(glob: Glob, source: string, rules: seq<Rule>, k: nat)
    requires k < |rules| && MatchesGlob(glob, rules[k], source) && forall i :: 0 <= i < k ==> !MatchesGlob(glob, rules[i], source)
    ensures FirstGlob(glob, source, rules) == Some(rules[k])
  {
    if k > 0 { FirstGlobAt(glob, source, rules[1..], k - 1); }
  }

  lemma DecidingRule(glob: Glob, source: string, rules: seq<Rule>, k: nat)
    requires Decides(glob, source, rules, k)
    ensures RuleFor(glob, source, rules) == Some(rules[k])
  {
    if MatchesExactly(rules[k], source) {
      FirstExactAt(source, rules, k);
    } else {
      FirstExactIs(source, rules);
      FirstGlobAt(glob, source, rules, k);
    }
  }

  /** The scenario a resolution names. */
  predicate Names(r: Resolution, sc: Scenario, source: Source) {
    r.Resolved? && r.vertical == sc.vertical && r.scenarioId == sc.scenarioId && r.source == source
  }

  /** What each signal resolves to: exactly the scenario it names, or not-found if there is none. */
  lemma ResolutionNames(store: ScenarioStore, config: Config, glob: Glob, row: Option<Row>, env: Envelope, k: nat)
    ensures var r := Resolve(store, config, glob, row, env);
            var chosen := row.Some? && row.value.assignedScenario.Some?;
            && (chosen ==>
                  var id := row.value.assignedScenario.value;
                  if id in store.byId then Names(r, store.byId[id], ReviewAssignment) else r == ScenarioNotFound(id))
            && (!chosen && env.scenarioId.Some? ==>
                  var id := env.scenarioId.value;
                  if id in store.byId then Names(r, store.byId[id], EnvelopeScenarioId) else r == ScenarioNotFound(id))
            && (!chosen && env.scenarioId.None? && env.vertical.Some? ==>
                  var v := env.vertical.value;
                  if v in store.byVertical then Names(r, store.byVertical[v], EnvelopeVertical) else r == ScenarioNotFound(v))
            && (!chosen && env.scenarioId.None? && env.vertical.None? && Decides(glob, env.source, config.rules, k) ==>
                  var v := config.rules[k].vertical;
                  if v in store.byVertical then Names(r, store.byVertical[v], SourceMapping) else r == ScenarioNotFound(v))
  {
    if Decides(glob, env.source, config.rules, k) { DecidingRule(glob, env.source, config.rules, k); }
  }

  ghost predicate Unmapped(glob: Glob, source: string, rules: seq<Rule>) {
    forall i :: 0 <= i < |rules| ==> !MatchesExactly(rules[i], source) && !MatchesGlob(glob, rules[i], source)
  }

  /** Which signal decides, for every row and envelope: a document is unresolved exactly when it
      carries no signal at all; a signal of lower rank is never consulted, so a missing scenario
      is reported and not papered over; and with an assignment the envelope is irrelevant. */
  lemma ResolutionIsExact(store: ScenarioStore, config: Config, glob: Glob, row: Option<Row>, env: Envelope, other: Envelope)
    ensures var r := Resolve(store, config, glob, row, env);
            var chosen := row.Some? && row.value.assignedScenario.Some?;
            && (r.Unresolved? <==> !chosen && env.scenarioId.None? && env.vertical.None? && Unmapped(glob, env.source, config.rules))
            && (chosen ==> r == Resolve(store, config, glob, row, other))
            && (r.Resolved? ==>
                  && (r.source == ReviewAssignment <==> chosen)
                  && (r.source == EnvelopeScenarioId <==> !chosen && env.scenarioId.Some?)
                  && (r.source == EnvelopeVertical <==> !chosen && env.scenarioId.None? && env.vertical.Some?))
            && (r.ScenarioNotFound? && chosen ==> r.key == row.value.assignedScenario.value && r.key !in store.byId)
            && (r.ScenarioNotFound? && !chosen && env.scenarioId.Some? ==> r.key == env.scenarioId.value && r.key !in store.byId)
            && (r.ScenarioNotFound? && !chosen && env.scenarioId.None? ==> r.key !in store.byVertical)
  {
    FirstExactIs(env.source, config.rules);
    FirstGlobIs(glob, env.source, config.rules);
  }

  datatype Parked = Parked(source: string, blobPath: string, suggested: seq<string>)

  function Prefix(s: string): string {
    if s == [] || s[0] == ':' then [] else [s[0]] + Prefix(s[1..])
  }

  /** The prefix ends before the first colon. */
  lemma {:induction false} PrefixIs(s: string)
    ensures Prefix(s) <= s && ':' !in Prefix(s)
    ensures |Prefix(s)| < |s| ==> s[|Prefix(s)|] == ':'
  {
    if s != [] && s[0] != ':' {
      PrefixIs(s[1..]);
      assert s == [s[0]] + s[1..];
    }
  }

  /** Rule `k` shares the source's prefix and suggests `v`. */
  predicate Suggests(source: string, rules: seq<Rule>, k: int, v: string) {
    0 <= k < |rules| && Prefix(rules[k].pattern) == Prefix(source) && rules[k].vertical == v
  }

  /** Some rule among the first `n` suggests `v`. */
  ghost predicate SuggestedBy(source: string, rules: seq<Rule>, n: int, v: string) {
    exists k :: k < n && Suggests(source, rules, k, v)
  }

  /** The verticals the first `n` rules suggest, each once, in order of first suggestion. */
  ghost predicate Suggestions(source: string, rules: seq<Rule>, n: int, out: seq<string>) {
    && (forall v :: v in out <==> SuggestedBy(source, rules, n, v))
    && (forall i, j :: 0 <= i < j < |out| ==> out[i] != out[j])
    && FirstSeenOrder(source, rules, out)
  }

  /** Before any rule suggests a later entry, another has suggested each earlier one. */
  ghost predicate FirstSeenOrder(source: string, rules: seq<Rule>, out: seq<string>) {
    forall i, j, q :: 0 <= i < j < |out| && Suggests(source, rules, q, out[j]) ==> SuggestedBy(source, rules, q, out[i])
  }

  lemma SuggestedNext(source: string, rules: seq<Rule>, n: nat, v: string)
    requires n < |rules|
    ensures SuggestedBy(source, rules, n + 1, v) <==> SuggestedBy(source, rules, n, v) || Suggests(source, rules, n, v)
  {
  }

  /** A vertical first suggested by rule `n` goes to the end. */
  lemma OrderNext(source: string, rules: seq<Rule>, n: nat, out: seq<string>, v: string)
    requires n < |rules| && FirstSeenOrder(source, rules, out)
    requires forall u :: u in out ==> SuggestedBy(source, rules, n, u)
    requires !SuggestedBy(source, rules, n, v)
    ensures FirstSeenOrder(source, rules, out + [v])
  {
    var out' := out + [v];
    forall i, j, q | 0 <= i < j < |out'| && Suggests(source, rules, q, out'[j]) ensures SuggestedBy(source, rules, q, out'[i]) {
      if j == |out| {
        assert out[i] in out;
        assert q >= n;
        var k :| k < n && Suggests(source, rules, k, out[i]);
        assert k < q && Suggests(source, rules, k, out'[i]);
      } else {
        assert Suggests(source, rules, q, out[j]) && SuggestedBy(source, rules, q, out[i]);
      }
    }
  }

  lemma SuggestNext(source: string, rules: seq<Rule>, n: nat, out: seq<string>)
    requires n < |rules| && Suggestions(source, rules, n, out)
    ensures var v := rules[n].vertical;
            Suggestions(source, rules, n + 1, if Suggests(source, rules, n, v) && v !in out then out + [v] else out)
  {
    var v := rules[n].vertical;
    forall u ensures SuggestedBy(source, rules, n + 1, u) <==> SuggestedBy(source, rules, n, u) || Suggests(source, rules, n, u) {
      SuggestedNext(source, rules, n, u);
    }
    if Suggests(source, rules, n, v) && v !in out { OrderNext(source, rules, n, out, v); }
  }

  method SuggestVerticals(source: string, rules: seq<Rule>) returns (out: seq<string>)
    ensures Suggestions(source, rules, |rules|, out)
  {
    out := [];
    var seen: set<string> := {};
    for i := 0 to |rules|
      invariant forall v :: v in out <==> v in seen
      invariant Suggestions(source, rules, i, out)
    {
      SuggestNext(source, rules, i, out);
      if Prefix(rules[i].pattern) == Prefix(source) && rules[i].vertical !in seen {
        seen := seen + {rules[i].vertical};
        out := out + [rules[i].vertical];
      }
    }
  }

  /** What a parked document's side record holds. */
  ghost predicate ParkedFor(config: Config, env: Envelope, p: Parked) {
    && p.source == env.source && p.blobPath == env.blobPath
    && if config.suggestVerticals then Suggestions(env.source, config.rules, |config.rules|, p.suggested) else p.suggested == []
  }

  /** The parking side table. */
  class ReviewRegistry {
    var records: map<string, Parked>

    constructor ()
      ensures records == map[]
    {
      records := map[];
    }

    method Record(docId: string, p: Parked)
      modifies this
      ensures records == old(records)[docId := p]
    {
      records := records[docId := p];
    }

    method Discard(docId: string)
      modifies this
      ensures records == old(records) - {docId}
    {
      records := records - {docId};
    }
  }

  datatype LoadResult =
    | Loaded(scenario: Scenario, source: Source)
    | NotFound
    | VerticalUnresolved
    | LedgerRefused(observed: Option<Row>)
    | BadId

  const UNRESOLVED_CODE := "VERTICAL_UNRESOLVED"

  function ParkRequest(reason: string): Request {
    Request(NeedsReview, NeedsReview, Some(UNRESOLVED_CODE), Some(reason), None)
  }

  class VerticalLoader {
    const store: ScenarioStore
    const ledger: InMemoryLedgerStore
    const registry: ReviewRegistry
    const config: Config
    const glob: Glob

    constructor (store: ScenarioStore, ledger: InMemoryLedgerStore, registry: ReviewRegistry, config: Config, glob: Glob)
      ensures this.store == store && this.ledger == ledger && this.registry == registry
      ensures this.config == config && this.glob == glob
    {
      this.store := store;
      this.ledger := ledger;
      this.registry := registry;
      this.config := config;
      this.glob := glob;
    }

    function RowOf(docId: string): Option<Row>
      reads ledger
    {
      if docId in ledger.rows then Some(ledger.rows[docId]) else None
    }

    /** `resolve` never writes. */
    method ResolveEnvelope(env: Envelope) returns (r: Resolution)
      ensures r == Resolve(store, config, glob, RowOf(env.docId), env)
    {
      var row := ledger.Get(env.docId);
      if row.Some? && row.value.assignedScenario.Some? {
        return Found(store.byId, row.value.assignedScenario.value, ReviewAssignment);
      }
      if env.scenarioId.Some? { return Found(store.byId, env.scenarioId.value, EnvelopeScenarioId); }
      if env.vertical.Some? { return Found(store.byVertical, env.vertical.value, EnvelopeVertical); }
      var rule, at := SelectSourceRule(glob, env.source, config.rules);
      if rule.Some? { return Found(store.byVertical, rule.value.vertical, SourceMapping); }
      r := Unresolved;
    }

    /** Parks an unresolved document; losing that write to progress is not an error. */
    method Park(env: Envelope, reason: string, now: Time) returns (r: LoadResult)
      requires ledger.Valid()
      modifies ledger`rows, registry
      ensures ledger.Valid()
      ensures !config.parkUnresolved ==> r == VerticalUnresolved && registry.records == old(registry.records)
      ensures config.parkUnresolved ==>
                && env.docId in registry.records && ParkedFor(config, env, registry.records[env.docId])
                && registry.records == old(registry.records)[env.docId := registry.records[env.docId]]
      ensures config.parkUnresolved && !IsHexId(env.docId) ==> r == BadId
      ensures config.parkUnresolved && IsHexId(env.docId) && env.docId !in old(ledger.rows) ==> r == LedgerRefused(None)
      ensures !(config.parkUnresolved && IsHexId(env.docId) && env.docId in old(ledger.rows)) ==> ledger.rows == old(ledger.rows)
      ensures config.parkUnresolved && IsHexId(env.docId) && env.docId in old(ledger.rows) ==>
                var row := old(ledger.rows)[env.docId];
                && ledger.rows == old(ledger.rows)[env.docId := Step(row, Event(ParkRequest(reason), now))]
                && r == if row.status == Failed then LedgerRefused(Some(row)) else VerticalUnresolved
    {
      if !config.parkUnresolved { return VerticalUnresolved; }
      var suggested := [];
      if config.suggestVerticals { suggested := SuggestVerticals(env.source, config.rules); }
      registry.Record(env.docId, Parked(env.source, env.blobPath, suggested));
      if env.docId in ledger.rows { ParkOutcome(ledger.rows[env.docId], reason); }
      var w := ledger.Transition(env.docId, ParkRequest(reason), now);
      if w.IdentityInvalid? { return BadId; }
      if w.TransitionInvalid? && !IsBenignLoss(w.observed, NeedsReview, NeedsReview) {
        return LedgerRefused(w.observed);
      }
      r := VerticalUnresolved;
    }

    /** The row a load leaves behind an unresolved look. */
    function LoadedRow(row: Row, between: seq<Event>, reason: string, now: Time): Row {
      var mid := Run(row, between);
      if config.parkUnresolved then Step(mid, Event(ParkRequest(reason), now)) else mid
    }

    /** `load`: between its look at the ledger and its parking write others may move the row. */
    method Load(env: Envelope, between: seq<Event>, reason: string, now: Time) returns (r: LoadResult)
      requires ledger.Valid()
      modifies ledger`rows, registry
      ensures ledger.Valid()
      ensures var seen := old(Resolve(store, config, glob, RowOf(env.docId), env));
              && (!seen.Unresolved? ==>
                    && ledger.rows == old(ledger.rows) && registry.records == old(registry.records)
                    && r == if seen.Resolved? && seen.scenarioId in store.byId
                            then Loaded(store.byId[seen.scenarioId], seen.source) else NotFound)
              && (seen.Unresolved? ==>
                    if IsHexId(env.docId) && env.docId in old(ledger.rows)
                    then && ledger.rows == old(ledger.rows)[env.docId := LoadedRow(old(ledger.rows)[env.docId], between, reason, now)]
                         && var mid := Run(old(ledger.rows)[env.docId], between);
                            r == if config.parkUnresolved && mid.status == Failed then LedgerRefused(Some(mid)) else VerticalUnresolved
                    else && ledger.rows == old(ledger.rows)
                         && r == if !config.parkUnresolved then VerticalUnresolved
                                 else if !IsHexId(env.docId) then BadId else LedgerRefused(None))
              && (seen.Unresolved? ==>
                    if config.parkUnresolved
                    then && env.docId in registry.records && ParkedFor(config, env, registry.records[env.docId])
                         && registry.records == old(registry.records)[env.docId := registry.records[env.docId]]
                    else registry.records == old(registry.records))
      ensures env.docId in old(ledger.rows) && old(ledger.rows)[env.docId].assignedScenario.Some? ==>
                && ledger.rows == old(ledger.rows) && registry.records == old(registry.records)
                && (r == NotFound || (r.Loaded? && r.source == ReviewAssignment))
    {
      var seen := ResolveEnvelope(env);
      match seen {
        case ScenarioNotFound(_) => return NotFound;
        case Resolved(_, id, source) =>
          if id !in store.byId { return NotFound; }
          return Loaded(store.byId[id], source);
        case Unresolved =>
          ghost var before := ledger.rows;
          if IsHexId(env.docId) && env.docId in ledger.rows { Interfere(ledger, env.docId, between); }
          r := Park(env, reason, now);
          assert IsHexId(env.docId) && env.docId in before ==>
            ledger.rows == before[env.docId := LoadedRow(before[env.docId], between, reason, now)];
      }
    }
  }

  lemma ParkOutcome(row: Row, reason: string)
    requires row.stage == row.status
    ensures Accepts(row, ParkRequest(reason)) <==> row.status in {Pending, NeedsReview}
    ensures IsBenignLoss(Some(row), NeedsReview, NeedsReview) <==> row.status !in {Pending, Failed}
  {
  }

  /** What each of the review's writes leaves on a row that accepts it. */
  lemma ReviewRows(row: Row, scenarioId: string, reason: string, now: Time)
    requires row.stage == row.status && row.status in {Pending, NeedsReview}
    ensures var parked := Step(row, Event(ParkRequest(reason), now));
            && parked.status == NeedsReview && parked.errorCode == Some(UNRESOLVED_CODE) && parked.errorMessage == Some(reason)
            && parked.assignedScenario == row.assignedScenario
    ensures var back := Step(row, Event(AssignRequest(scenarioId), now));
            && back.status == Pending && back.assignedScenario == Some(scenarioId)
            && (row.status == NeedsReview ==> back.errorCode.None? && back.errorMessage.None? && back.attempts == 1)
    ensures var rejected := Step(row, Event(RejectRequest(reason), now));
            && rejected.status == Failed && rejected.errorCode == Some(REJECTED_CODE) && rejected.errorMessage == Some(reason)
            && rejected.attempts == row.attempts
  {
  }

  // ---- a human's assignment is final ----

  /** No request, accepted or not, ever clears an assignment. */
  lemma {:induction false} AssignmentPersists(row: Row, es: seq<Event>)
    requires row.assignedScenario.Some?
    ensures Run(row, es).assignedScenario.Some?
  {
    if es != [] { AssignmentPersists(row, es[..|es| - 1]); }
  }

  /** Once an assigning request was accepted, every later resolution of that document, whatever
      happened to the row and whatever the envelope says, uses an assignment or reports the
      scenario missing; it is never unresolved, so it is never parked again. */
  lemma AssignmentIsFinal(store: ScenarioStore, config: Config, glob: Glob, row: Row, before: seq<Event>, assign: Event,
                          after: seq<Event>, env: Envelope)
    requires assign.req.assignedScenario.Some? && Accepts(Run(row, before), assign.req)
    ensures var r := Resolve(store, config, glob, Some(Run(row, before + [assign] + after)), env);
            r.ScenarioNotFound? || (r.Resolved? && r.source == ReviewAssignment)
  {
    RunSplits(row, before + [assign], after);
    assert (before + [assign])[..|before|] == before;
    AssignmentPersists(Run(row, before + [assign]), after);
  }

  function AssignRequest(scenarioId: string): Request {
    Request(Pending, Pending, None, None, Some(scenarioId))
  }

  /** A document that has an assignment ends parked by a load's late write if and only if that
      write finds the assignment already there and the row still pending or parked. */
  lemma AssignedEndsParkedIff(row: Row, between: seq<Event>, reason: string, now: Time)
    requires row.stage == row.status
    ensures var mid := Run(row, between);
            var end := Step(mid, Event(ParkRequest(reason), now));
            end.status == NeedsReview && end.assignedScenario.Some? <==>
              mid.assignedScenario.Some? && mid.status in {Pending, NeedsReview}
  {
    RunKeepsStage(row, between);
    ParkOutcome(Run(row, between), reason);
  }

  /** Such a load exists: it looked before the assignment and writes after it. */
  lemma OverlappingLoadParksAgain(row: Row, scenarioId: string, reason: string, now: Time)
    requires row.status == Pending && row.stage == Pending
    ensures var between := [Event(ParkRequest(reason), now), Event(AssignRequest(scenarioId), now)];
            var end := Step(Run(row, between), Event(ParkRequest(reason), now));
            end.status == NeedsReview && end.assignedScenario == Some(scenarioId)
  {
    var between := [Event(ParkRequest(reason), now), Event(AssignRequest(scenarioId), now)];
    assert between[..1] == [between[0]] && between[..1][..0] == [];
    assert Run(row, between[..1][..0]) == row;
    assert Run(row, between[..1]).status == NeedsReview;
    AssignedEndsParkedIff(row, between, reason, now);
  }

  // ---- the review queue ----

  datatype ReviewResult = Finished | ScenarioMissing | NotInReview | Refused(observed: Option<Row>)

  class ReviewQueue {
    const ledger: InMemoryLedgerStore
    const store: ScenarioStore
    const registry: ReviewRegistry

    constructor (ledger: InMemoryLedgerStore, store: ScenarioStore, registry: ReviewRegistry)
      ensures this.ledger == ledger && this.store == store && this.registry == registry
    {
      this.ledger := ledger;
      this.store := store;
      this.registry := registry;
    }

    /** Returns a parked document to pending under the chosen scenario. `between` is what other
        reviewers and workers do after the parked check. */
    method Assign(docId: string, scenarioId: string, between: seq<Event>, now: Time) returns (r: ReviewResult)
      requires ledger.Valid() && (docId in ledger.rows ==> IsHexId(docId))
      modifies ledger`rows, registry
      ensures ledger.Valid()
      ensures r.ScenarioMissing? <==> scenarioId !in store.byId
      ensures r.NotInReview? <==>
                scenarioId in store.byId && !(docId in old(ledger.rows) && old(ledger.rows)[docId].status == NeedsReview)
      ensures r.ScenarioMissing? || r.NotInReview? ==> ledger.rows == old(ledger.rows) && registry.records == old(registry.records)
      ensures r.Finished? || r.Refused? ==>
                var mid := Run(old(ledger.rows)[docId], between);
                && ledger.rows == old(ledger.rows)[docId := Step(mid, Event(AssignRequest(scenarioId), now))]
                && (r.Finished? <==> mid.status != Archived) && (r.Refused? ==> r.observed == Some(mid))
                && (r.Finished? && ledger.rows[docId] == mid <==> OnPath(mid.status) && mid.status != Pending)
      ensures registry.records == if r.Finished? then old(registry.records) - {docId} else old(registry.records)
    {
      if scenarioId !in store.byId { return ScenarioMissing; }
      if docId !in ledger.rows || ledger.rows[docId].status != NeedsReview { return NotInReview; }
      ghost var before := ledger.rows;
      Interfere(ledger, docId, between);
      AssignOutcome(ledger.rows[docId], scenarioId);
      NothingRecordedIff(ledger.rows[docId], scenarioId, now);
      var w := ledger.Transition(docId, AssignRequest(scenarioId), now);
      assert ledger.rows == before[docId := Step(Run(before[docId], between), Event(AssignRequest(scenarioId), now))];
      if w.TransitionInvalid? && !IsBenignLoss(w.observed, Pending, Pending) { return Refused(w.observed); }
      registry.Discard(docId);
      r := Finished;
    }

    method Reject(docId: string, reason: string, between: seq<Event>, now: Time) returns (r: ReviewResult)
      requires ledger.Valid() && (docId in ledger.rows ==> IsHexId(docId))
      modifies ledger`rows, registry
      ensures ledger.Valid() && !r.ScenarioMissing?
      ensures r.NotInReview? <==> !(docId in old(ledger.rows) && old(ledger.rows)[docId].status == NeedsReview)
      ensures r.NotInReview? ==> ledger.rows == old(ledger.rows) && registry.records == old(registry.records)
      ensures !r.NotInReview? ==>
                var mid := Run(old(ledger.rows)[docId], between);
                && ledger.rows == old(ledger.rows)[docId := Step(mid, Event(RejectRequest(reason), now))]
                && (r.Finished? <==> mid.status !in {Failed, Archived}) && (r.Refused? ==> r.observed == Some(mid))
      ensures registry.records == if r.Finished? then old(registry.records) - {docId} else old(registry.records)
    {
      if docId !in ledger.rows || ledger.rows[docId].status != NeedsReview { return NotInReview; }
      ghost var before := ledger.rows;
      Interfere(ledger, docId, between);
      RejectOutcome(ledger.rows[docId], reason);
      var w := ledger.Transition(docId, RejectRequest(reason), now);
      assert ledger.rows == before[docId := Step(Run(before[docId], between), Event(RejectRequest(reason), now))];
      if w.TransitionInvalid? && !IsBenignLoss(w.observed, Failed, Failed) { return Refused(w.observed); }
      registry.Discard(docId);
      r := Finished;
    }
  }

  const REJECTED_CODE := "VERTICAL_REJECTED"

  function RejectRequest(reason: string): Request {
    Request(Failed, Failed, Some(REJECTED_CODE), Some(reason), None)
  }

  lemma AssignOutcome(row: Row, scenarioId: string)
    requires row.stage == row.status
    ensures Accepts(row, AssignRequest(scenarioId)) <==> row.status in {Pending, Failed, NeedsReview}
    ensures IsBenignLoss(Some(row), Pending, Pending) <==> OnPath(row.status)
  {
  }

  lemma RejectOutcome(row: Row, reason: string)
    requires row.stage == row.status
    ensures Accepts(row, RejectRequest(reason)) <==> row.status !in {Indexed, Failed, Archived}
    ensures IsBenignLoss(Some(row), Failed, Failed) <==> row.status == Indexed
  {
  }

  /** The assignment is not set once: a second one replaces the first if and only if it meets the
      row pending, failed or parked. */
  lemma SecondAssignmentIff(row: Row, first: string, second: string, now: Time)
    requires row.stage == row.status && row.assignedScenario == Some(first) && second != first
    ensures var end := Step(row, Event(AssignRequest(second), now));
            && (end.assignedScenario == Some(first) <==> row.status !in {Pending, Failed, NeedsReview})
            && (end.assignedScenario == Some(second) <==> row.status in {Pending, Failed, NeedsReview})
  {
    AssignOutcome(row, second);
  }

  /** A reviewer is told the assignment succeeded although nothing was recorded if and only if the
      row has moved on along the path. */
  lemma NothingRecordedIff(mid: Row, scenarioId: string, now: Time)
    requires mid.stage == mid.status
    ensures ((Accepts(mid, AssignRequest(scenarioId)) || IsBenignLoss(Some(mid), Pending, Pending))
             && Step(mid, Event(AssignRequest(scenarioId), now)) == mid)
        <==> (OnPath(mid.status) && mid.status != Pending)
  {
    AssignOutcome(mid, scenarioId);
    if mid.status == Pending { assert Step(mid, Event(AssignRequest(scenarioId), now)).attempts == mid.attempts + 1; }
  }

  /** Two reviewers who both saw the document parked: the second overwrites the first while the
      row is pending, and is told it succeeded though nothing was recorded once a worker entered. */
  lemma SecondAssignment(row: Row, first: string, second: string, now: Time)
    requires row.status == NeedsReview && row.stage == NeedsReview && first != second
    ensures var one := Step(row, Event(AssignRequest(first), now));
            Step(one, Event(AssignRequest(second), now)).assignedScenario == Some(second)
    ensures var one := Step(row, Event(AssignRequest(first), now));
            var entered := Step(one, Event(Request(Analyzing, Analyzing, None, None, None), now));
            Step(entered, Event(AssignRequest(second), now)) == entered && IsBenignLoss(Some(entered), Pending, Pending)
  {
    var one := Step(row, Event(AssignRequest(first), now));
    SecondAssignmentIff(one, first, second, now);
    NothingRecordedIff(Step(one, Event(Request(Analyzing, Analyzing, None, None, None), now)), second, now);
  }
}
