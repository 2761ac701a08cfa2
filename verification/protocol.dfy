/**
 The claim / reclaim protocol of `IndexProvisioner.ensure` for one index name, as a step
 system: any number of workers, one step per registry call or adapter call.

 The registry is the weakest one the provisioner may be given. A cached read may return
 any entry ever stored, or nothing. A write may report a conflict although it landed, or
 time out and land much later. The lock-based registry is the special case of `Linearizable`
 actions. Names are independent (each registry method changes its own key only), so one
 name is enough.
 */
module Protocol {
  import opened Options
  import opened Entries

  type WorkerId = nat

  datatype Schema = Schema(dimensions: int, metric: string)

  function SchemaOf(e: Entry): Schema { Schema(e.dimensions, e.metric) }

  datatype Scenario = Scenario(
    vertical: string,
    scenarioId: string,
    templateId: Option<string>,
    embeddingModel: string,
    dimensions: int)

  datatype Config = Config(
    indexName: string,
    templates: map<string, Template>,
    defaultTemplateId: string,
    staleAfter: int,
    verifyInterval: int,
    waitTimeout: int,
    pollInterval: int,
    autoCreate: bool)

  datatype Code =
    | AutoCreateDisabled
    | ProvisionConflict
    | ProvisionFailed
    | ProvisionTimeout
    | ProvisionerUnavailable
    | IndexRetired
    | SchemaDrift
    | TemplateInvalid
    | TemplateNotFound
    | RegistryUnavailable
    | AssertionFailed

  /** Where a worker stands: the registry or adapter call it makes next. */
  datatype Pc =
    | Starting
    | Claiming
    | Rereading(token: Token)
    | Probing(won: Entry)
    | Creating(won: Entry)
    | Describing(won: Entry)
    | MarkingFailed(won: Entry, reason: string, code: Code)
    | Finalizing(won: Entry)
    | Refetching(won: Entry)
    | Waiting(current: Entry, deadline: Time)
    | CheckingDeadline(current: Entry, deadline: Time)
    | Sleeping(current: Entry, deadline: Time, wakeAt: Time)
    | Polling(current: Entry, deadline: Time)
    | Verifying(entry: Entry)
    | Touching(entry: Entry)
    | Done(entry: Entry)
    | Raised(code: Code)

  /** `waits` counts wait loops entered, `superseded` lost finalizations, `polls` the
      sleeps of the current wait loop. */
  datatype Worker = Worker(scenario: Scenario, pc: Pc, waits: nat, superseded: nat, polls: nat)

  /** One write that took effect. */
  datatype Record = Record(op: Op, writer: WorkerId, after: Entry)

  /** A write that timed out at its caller. It still lands if the cell equals `guard` when
      the store gets to it. */
  datatype Flying = Flying(op: Op, writer: WorkerId, guard: Option<Entry>)

  datatype Creation = Creation(template: Template, dimensions: int, metric: string)

  /** What the workers share: the history of effective writes, writes still in flight,
      the live index, every claim token handed out, and every `create_index` call. */
  datatype Core = Core(
    log: seq<Record>,
    flying: set<Flying>,
    live: Option<Schema>,
    issued: set<Token>,
    creates: seq<Creation>)

  datatype State = State(core: Core, clock: Time, workers: map<WorkerId, Worker>)

  datatype WriteMode = Clean | Refused | LandedButConflict | Vague | Reread

  datatype Action =
    | Tick(dt: nat)
    | Spawn(w: WorkerId, scenario: Scenario)
    | Read(w: WorkerId, seen: Option<Entry>)
    | Write(w: WorkerId, token: Token, mode: WriteMode)
    | RegistryDown(w: WorkerId)
    | Look(w: WorkerId)
    | Create(w: WorkerId, fault: Option<bool>)
    | AdapterDown(w: WorkerId)
    | Local(w: WorkerId)
    | Land(f: Flying)

  /** The registry cell: what the last effective write left. */
  function Cell(log: seq<Record>): Option<Entry> {
    if log == [] then None else Some(log[|log| - 1].after)
  }

  predicate EverStored(log: seq<Record>, e: Entry) {
    exists i :: 0 <= i < |log| && log[i].after == e
  }

  function Commit(core: Core, op: Op, writer: WorkerId): Core {
    match Written(Cell(core.log), op)
    case Some(e) => core.(log := core.log + [Record(op, writer, e)])
    case None => core
  }

  predicate Elapsed(now: Time, since: Time, threshold: int) { now - since >= threshold }

  predicate IsStale(c: Config, now: Time, e: Entry) {
    e.claimedAt.Some? && Elapsed(now, e.claimedAt.value, c.staleAfter)
  }

  datatype Resolution = Resolved(template: Template, dimensions: int, metric: string) | Unresolved(code: Code)

  /** An absent or empty template id falls back to the default one. */
  function ResolveTemplate(c: Config, scenario: Scenario): Resolution {
    var id := if scenario.templateId.Some? && scenario.templateId.value != ""
              then scenario.templateId.value else c.defaultTemplateId;
    if id !in c.templates then Unresolved(TemplateNotFound)
    else
      var t := c.templates[id];
      if t.dimensions.Some? && t.dimensions.value != scenario.dimensions then Unresolved(TemplateInvalid)
      else Resolved(t, if t.dimensions.Some? then t.dimensions.value else scenario.dimensions, t.metric)
  }

  function Candidate(c: Config, now: Time, sc: Scenario, r: Resolution, token: Token): Entry
    requires r.Resolved?
  {
    Entry(c.indexName, sc.vertical, sc.scenarioId, r.template.templateId, r.template.templateVersion,
          r.dimensions, r.metric, sc.embeddingModel, Provisioning, now, None, None,
          Some(token), Some(now), None, Some(r.template))
  }

  function ClaimNew(c: Config, wk: Worker): Worker {
    if !c.autoCreate then wk.(pc := Raised(AutoCreateDisabled))
    else match ResolveTemplate(c, wk.scenario)
      case Unresolved(code) => wk.(pc := Raised(code))
      case Resolved(_, _, _) => wk.(pc := Claiming)
  }

  function EnterWait(c: Config, now: Time, wk: Worker, e: Entry): Worker {
    wk.(pc := Waiting(e, now + c.waitTimeout), waits := wk.waits + 1, polls := 0)
  }

  function AfterLosing(c: Config, now: Time, wk: Worker, e: Entry): Worker {
    match e.status
    case Ready => wk.(pc := Done(e))
    case Provisioning => EnterWait(c, now, wk, e)
    case Failed => wk.(pc := Raised(ProvisionFailed))
    case Retired => wk.(pc := Raised(IndexRetired))
  }

  function DispatchExisting(c: Config, now: Time, wk: Worker, e: Entry): Worker {
    if e.status == Ready then
      if e.lastVerifiedAt.Some? && !Elapsed(now, e.lastVerifiedAt.value, c.verifyInterval)
      then wk.(pc := Done(e))
      else match ResolveTemplate(c, wk.scenario)
        case Unresolved(code) => wk.(pc := Raised(code))
        case Resolved(_, _, _) => wk.(pc := Verifying(e))
    else AfterLosing(c, now, wk, e)
  }

  predicate ReadsRegistry(pc: Pc) {
    pc.Starting? || pc.Refetching? || pc.Polling? || pc.Rereading?
  }

  predicate WritesRegistry(c: Config, now: Time, wk: Worker) {
    || (wk.pc.Claiming? && ResolveTemplate(c, wk.scenario).Resolved?)
    || (wk.pc.Waiting? && IsStale(c, now, wk.pc.current))
    || wk.pc.MarkingFailed? || wk.pc.Finalizing? || wk.pc.Touching?
  }

  /** Claiming and reclaiming are the two writes that draw a new claim token. */
  predicate DrawsToken(pc: Pc) { pc.Claiming? || pc.Waiting? }

  function OpOf(c: Config, now: Time, wk: Worker, token: Token): Op
    requires WritesRegistry(c, now, wk)
  {
    match wk.pc
    case Claiming => Register(Candidate(c, now, wk.scenario, ResolveTemplate(c, wk.scenario), token))
    case Waiting(cur, _) => Reclaim(cur, cur.(claimToken := Some(token), claimedAt := Some(now)))
    case MarkingFailed(won, reason, _) => MarkFailed(reason, won.claimToken)
    case Finalizing(won) => MarkReady(won.claimToken, now)
    case Touching(_) => Touch(now)
  }

  function AfterWrite(c: Config, now: Time, wk: Worker, token: Token, reply: Reply): Worker
    requires WritesRegistry(c, now, wk)
  {
    match wk.pc
    case Claiming =>
      (match reply
       case Returned(e) =>
         if e.claimToken == Some(token) then wk.(pc := Probing(e)) else AfterLosing(c, now, wk, e)
       case Conflict => wk.(pc := Raised(ProvisionConflict)))
    case Waiting(cur, deadline) =>
      (match reply
       case Returned(e) => wk.(pc := Probing(e))
       case Conflict => wk.(pc := CheckingDeadline(cur, deadline)))
    case MarkingFailed(_, _, code) => wk.(pc := Raised(code))
    case Finalizing(won) =>
      (match reply
       case Returned(e) => wk.(pc := Done(e))
       case Conflict => wk.(pc := Refetching(won), superseded := wk.superseded + 1))
    case Touching(_) =>
      (match reply
       case Returned(e) => wk.(pc := Done(e))
       case Conflict => wk.(pc := Raised(ProvisionConflict)))
  }

  function AfterRead(c: Config, now: Time, wk: Worker, seen: Option<Entry>): Worker
    requires ReadsRegistry(wk.pc)
  {
    match wk.pc
    case Starting =>
      if seen.None? then ClaimNew(c, wk) else DispatchExisting(c, now, wk, seen.value)
    case Refetching(_) =>
      if seen.None? then ClaimNew(c, wk) else AfterLosing(c, now, wk, seen.value)
    case Polling(_, deadline) =>
      if seen.None? then ClaimNew(c, wk)
      else if seen.value.status != Provisioning then AfterLosing(c, now, wk, seen.value)
      else wk.(pc := Waiting(seen.value, deadline))
    case Rereading(token) =>
      if seen.None? then wk.(pc := Raised(ProvisionConflict))
      else if seen.value.claimToken == Some(token) then wk.(pc := Probing(seen.value))
      else AfterLosing(c, now, wk, seen.value)
  }

  const DRIFTED := "incompatible after creation"

  function AfterLook(c: Config, wk: Worker, live: Option<Schema>): Worker
    requires wk.pc.Probing? || wk.pc.Describing? || (wk.pc.Verifying? && ResolveTemplate(c, wk.scenario).Resolved?)
  {
    match wk.pc
    case Probing(won) => wk.(pc := if live.Some? then Describing(won) else Creating(won))
    case Describing(won) =>
      if live != Some(SchemaOf(won))
      then wk.(pc := MarkingFailed(won, DRIFTED, SchemaDrift))
      else wk.(pc := Finalizing(won))
    case Verifying(e) =>
      var r := ResolveTemplate(c, wk.scenario);
      if live != Some(Schema(r.dimensions, r.metric)) || e.templateVersion < r.template.templateVersion
      then wk.(pc := Raised(SchemaDrift))
      else wk.(pc := Touching(e))
  }

  predicate LooksAtIndex(c: Config, wk: Worker) {
    wk.pc.Probing? || wk.pc.Describing? || (wk.pc.Verifying? && ResolveTemplate(c, wk.scenario).Resolved?)
  }

  /** `create_index`: set if absent, no-op if equal, refuse if different. A fault may strike
      before or after the index came into being. */
  function LiveAfterCreate(live: Option<Schema>, wanted: Schema, fault: Option<bool>): Option<Schema> {
    if live.None? && (fault.None? || fault.value) then Some(wanted) else live
  }

  function AfterCreate(wk: Worker, live: Option<Schema>, fault: Option<bool>): Worker
    requires wk.pc.Creating?
  {
    var won := wk.pc.won;
    if fault.Some? then wk.(pc := MarkingFailed(won, "create_index raised", ProvisionerUnavailable))
    else if live.Some? && live != Some(SchemaOf(won))
    then wk.(pc := MarkingFailed(won, "schema conflict", SchemaDrift))
    else wk.(pc := Describing(won))
  }

  function AfterLocal(c: Config, now: Time, wk: Worker): Worker
    requires wk.pc.Waiting? || wk.pc.CheckingDeadline? || wk.pc.Sleeping?
  {
    match wk.pc
    case Waiting(cur, deadline) => wk.(pc := CheckingDeadline(cur, deadline))
    case CheckingDeadline(cur, deadline) =>
      if now >= deadline then wk.(pc := Raised(ProvisionTimeout))
      else wk.(pc := Sleeping(cur, deadline, now + c.pollInterval), polls := wk.polls + 1)
    case Sleeping(cur, deadline, _) => wk.(pc := Polling(cur, deadline))
  }

  predicate Enabled(c: Config, s: State, a: Action) {
    match a
    case Tick(_) => true
    case Spawn(w, _) => w !in s.workers
    case Read(w, seen) =>
      && w in s.workers && ReadsRegistry(s.workers[w].pc)
      && (if s.workers[w].pc.Rereading? then seen == Cell(s.core.log)
          else seen.None? || EverStored(s.core.log, seen.value))
    case Write(w, token, mode) =>
      && w in s.workers && WritesRegistry(c, s.clock, s.workers[w])
      && (DrawsToken(s.workers[w].pc) ==> token !in s.core.issued)
      && (mode.Reread? ==> s.workers[w].pc.Claiming?)
      && (mode.Refused? || mode.LandedButConflict? ==> !s.workers[w].pc.Claiming?)
    case RegistryDown(w) => w in s.workers && ReadsRegistry(s.workers[w].pc)
    case Look(w) => w in s.workers && LooksAtIndex(c, s.workers[w])
    case Create(w, _) => w in s.workers && s.workers[w].pc.Creating?
    case AdapterDown(w) => w in s.workers && LooksAtIndex(c, s.workers[w])
    case Local(w) =>
      && w in s.workers
      && (match s.workers[w].pc
          case Waiting(cur, _) => !IsStale(c, s.clock, cur)
          case CheckingDeadline(_, _) => true
          case Sleeping(_, _, wakeAt) => s.clock >= wakeAt
          case _ => false)
    case Land(f) => f in s.core.flying
  }

  function Issue(core: Core, pc: Pc, token: Token): Core {
    if DrawsToken(pc) then core.(issued := core.issued + {token}) else core
  }

  /** Where a timed-out write may still land: an insert on an empty cell, any other write
      on exactly the entry its call had read. */
  function GuardOf(log: seq<Record>, op: Op): Option<Entry> {
    if op.Register? then None else Cell(log)
  }

  function Next(c: Config, s: State, a: Action): State
    requires Enabled(c, s, a)
  {
    match a
    case Tick(dt) => s.(clock := s.clock + dt)
    case Spawn(w, sc) => s.(workers := s.workers[w := Worker(sc, Starting, 0, 0, 0)])
    case Read(w, seen) => s.(workers := s.workers[w := AfterRead(c, s.clock, s.workers[w], seen)])
    case Write(w, token, mode) =>
      var wk := s.workers[w];
      var op := OpOf(c, s.clock, wk, token);
      var core := Issue(s.core, wk.pc, token);
      var reply := Perform(Cell(core.log), op).1;
      (match mode
       case Clean =>
         State(Commit(core, op, w), s.clock, s.workers[w := AfterWrite(c, s.clock, wk, token, reply)])
       case Refused =>
         State(core, s.clock, s.workers[w := AfterWrite(c, s.clock, wk, token, Conflict)])
       case LandedButConflict =>
         State(Commit(core, op, w), s.clock, s.workers[w := AfterWrite(c, s.clock, wk, token, Conflict)])
       case Vague =>
         State(core.(flying := core.flying + {Flying(op, w, GuardOf(core.log, op))}), s.clock,
               s.workers[w := wk.(pc := Raised(RegistryUnavailable))])
       case Reread =>
         State(Commit(core, op, w), s.clock, s.workers[w := wk.(pc := Rereading(token))]))
    case RegistryDown(w) => s.(workers := s.workers[w := s.workers[w].(pc := Raised(RegistryUnavailable))])
    case Look(w) => s.(workers := s.workers[w := AfterLook(c, s.workers[w], s.core.live)])
    case Create(w, fault) =>
      var wk := s.workers[w];
      var won := wk.pc.won;
      if won.resolvedTemplate.None? then s.(workers := s.workers[w := wk.(pc := Raised(AssertionFailed))])
      else State(s.core.(live := LiveAfterCreate(s.core.live, SchemaOf(won), fault),
                    creates := s.core.creates + [Creation(won.resolvedTemplate.value, won.dimensions, won.metric)]),
            s.clock, s.workers[w := AfterCreate(wk, s.core.live, fault)])
    case AdapterDown(w) => s.(workers := s.workers[w := s.workers[w].(pc := Raised(ProvisionerUnavailable))])
    case Local(w) => s.(workers := s.workers[w := AfterLocal(c, s.clock, s.workers[w])])
    case Land(f) =>
      var core := s.core.(flying := s.core.flying - {f});
      s.(core := if Cell(core.log) == f.guard then Commit(core, f.op, f.writer) else core)
  }

  /** No entry, no claim, no worker; the live index may already exist, made by someone else. */
  predicate Initial(s: State) {
    && s.core.log == [] && s.core.flying == {} && s.core.creates == []
    && s.workers == map[]
  }

  predicate Legal(c: Config, s: State, run: seq<Action>)
    decreases |run|
  {
    run == [] || (Enabled(c, s, run[0]) && Legal(c, Next(c, s, run[0]), run[1..]))
  }

  function Execute(c: Config, s: State, run: seq<Action>): State
    requires Legal(c, s, run)
    decreases |run|
  {
    if run == [] then s else Execute(c, Next(c, s, run[0]), run[1..])
  }

  /** Actions of a registry whose calls are atomic and always answered. */
  predicate Linearizable(s: State, a: Action) {
    match a
    case Read(_, seen) => seen == Cell(s.core.log)
    case Write(_, _, mode) => mode.Clean?
    case _ => true
  }

  predicate LinearizableRun(c: Config, s: State, run: seq<Action>)
    requires Legal(c, s, run)
    decreases |run|
  {
    run == [] || (Linearizable(s, run[0]) && LinearizableRun(c, Next(c, s, run[0]), run[1..]))
  }
}
