# Vestibule in Dafny

Vestibule is a document-ingestion pipeline that has to survive at-least-once delivery and
concurrent duplicate workers. This project models the parts where that is hard and proves what
they promise. `dafny verify dfyconfig.toml` checks all of it.

* **Provisioning** (`entries`, `registry`, `protocol`, `protocol_invariant`, `protocol_theorems`,
  `protocol_times`, `protocol_errors`, `provisioner`, `table`, `table_theorems`, `table_calls`,
  `table_protocol`, `retry`, `cache`, `cache_runs`, `cached_protocol`, `codec`). The claim and reclaim
  protocol is a step system: any number of workers, every registry call and adapter call one
  step, with reads that may return any earlier value or absence, and writes that may be refused
  after landing, time out and land later, or never land. The theorems hold over all its runs.
  `provisioner` is `IndexProvisioner.ensure` as a program with its loop, and every execution of it
  is proved to be a run of that system. `table` is the ETag-conditional registry with its own
  ambiguous timeouts, proved to refine the lock-based one; `table_protocol` runs the protocol's
  workers on it. `cache_runs` interleaves the steps of cached reads and writes, and
  `cached_protocol` puts the protocol's reads behind them.
* **Ledger** (`ledger`, `ledger_traces`, `stages`, `review`, `reprocessor`). The store, its
  transition table and triage function, histories of unbounded length, and the stage workers,
  the loader, the review queue and the operator tooling as clients any of whose writes may lose
  a race.
* **Indexing** (`store`, `indexing`, `convergence`, `interleaving`, `duplicates`, `overlap`,
  `index_stage`, `indexed_rows`). Two maps that must agree, attempts that may break anywhere, the convergence of
  retries, exactly when concurrent deliveries are safe, and the stage with its ledger row.
* **Chunks and vectors** (`identity`, `regions`, `assembly`, `vectors`, `embedding`, `search`).
  Partitioning, the tail merge, ids, and vector arithmetic over the reals.

Parameters stand for what the code only calls: clocks are arguments, the hash is assumed
collision-free where a statement needs it, `fnmatch`, search filters, the embedding model, the
token counter, chunk strategies, error severities, timestamp and JSON formats and the square
root (known by its square) are function arguments, and other actors are arbitrary sequences of
requests or steps.

Where code and documentation disagree the model follows the code:

* `assigned_scenario_id` is documented as set once and never overwritten (ledger/store.py, lines
  230 and 780); a later value replaces it exactly on pending, failed and parked rows
  (`Review.SecondAssignmentIff`). The same docstring says a row returns to pending only from
  needs-review; failed rows do too (`LedgerTraces.ReturnsToPendingIff`).
* The cached registry promises that a `get` right after `touch_verified` reflects it
  (cached_registry.py, line 133); exactly when it does is `CacheRuns.WriteIsVisibleIff`, and a
  thread that asked before the touch can break it (`CacheRuns.TouchIsLost`).
* The analyzer's comment after a benign entry loss says no further ledger write happens; exactly
  when one does is `Stages.LostEntryWritesIff`.
* A reclaim over the table may own a claim that it was told it lost (`TableTheorems.LandedYetRefused`);
  refusals can be believed exactly if nothing is ever retried (`TableTheorems.RefusalsAreTrueIff`).
* Retried indexing is described as safe (indexer.py, lines 396 to 400). Among concurrent duplicates
  it is exactly if everything stored is of the same version and under the same ids
  (`Duplicates.DuplicatesAreSafeIff`).
* `summarize` and `list_failed` speak of every failed document but see the newest 10 000. The total
  is short exactly if there are more (`Reprocessor.Operator.Summarize`); exactly when a listing or a
  batch suffers is `Reprocessor.ListingIsCompleteIff`, with `Reprocessor.HiddenFailure` an input.
* A load that overlaps an assignment can park the document once more, exactly under
  `Review.AssignedEndsParkedIff`; loads that start later never do.

## Model

| member | source | states |
|---|---|---|
| `ProtocolTheorems.ClaimExclusivity` | src/vestibule/provisioning/provisioner.py:193-405 | over every run of any number of workers: a finalization that takes effect names the stored token, a reclaim the stored snapshot, and an index is finalized at most once |
| `ProtocolTheorems.SupersededForever` | src/vestibule/provisioning/provisioner.py:308-339 | once a token has been replaced, no finalization or reclaim under it takes effect in any continuation, from a running holder or from a request still in flight |
| `ProtocolTheorems.ZombieWriteHasNoEffect` | src/vestibule/provisioning/provisioner.py:308-322 | a worker finalizing a claim that is no longer the stored entry changes nothing, whatever the registry answers |
| `ProtocolTheorems.SettingsNeverChange` | src/vestibule/provisioning/provisioner.py:260-306 | all entries ever stored agree on every resolved setting and the creation time, so all `create_index` calls of a run have equal arguments |
| `ProtocolTheorems.ReadyMeansReal` | src/vestibule/provisioning/provisioner.py:270-322 | every ready entry describes the live index, and every value an `ensure` returns is a stored ready entry that does |
| `ProtocolTheorems.ReclaimSeesNoAba` | src/vestibule/provisioning/registry.py:202-227 | if a value-equality reclaim succeeds, the observed entry was stored exactly once and nothing was written since |
| `ProtocolTheorems.LifecycleIsMonotone` | src/vestibule/provisioning/registry.py:202-275 | ready and failed never return to provisioning, nothing follows a failure, every stored claim carries token, claim time and template, and the assertion before creation never fires |
| `ProtocolTheorems.EarlierAnswerIsTolerated` | src/vestibule/provisioning/stores/cached_registry.py:75-84 | any value the registry held at an earlier moment, or absence, is a read the step system allows, so the guarantees hold over stale reads |
| `ProtocolTheorems.WaitLoopIsBounded` | src/vestibule/provisioning/provisioner.py:341-367 | over every run and registry, one wait loop polls no more often than there are poll intervals before its own deadline |
| `ProtocolTheorems.WaitsAreFew` | src/vestibule/provisioning/provisioner.py:308-367 | over an atomic registry an `ensure` enters the wait loop at most once plus once per claim of its own that was superseded |
| `ProtocolTheorems.WaitingTerminates` | src/vestibule/provisioning/provisioner.py:341-367 | both bounds for every worker of every run from the start |
| `ProtocolTimes.ReclaimsAreStale` | src/vestibule/provisioning/provisioner.py:369-405 | in every run each reclaim that took effect replaced a claim at least the staleness threshold older than its own, whoever issued it and however late it landed |
| `ProtocolTimes.MayReclaimIff` | src/vestibule/provisioning/provisioner.py:369-377 | a waiting worker may reclaim exactly from that age on |
| `ProtocolTimes.WaitingIsTimed` | src/vestibule/provisioning/provisioner.py:341-367 | every step of every worker: the deadline is set one timeout ahead on entry and kept, a timeout is raised only after it, and a sleep is one poll interval, begun before the deadline and not cut short |
| `ProtocolErrors.ErrorsMean` | src/vestibule/provisioning/provisioner.py:103-405 | over every run: whenever a step makes a worker raise, the code is the one for what that step told it |
| `ProtocolErrors.ReadMeans` | src/vestibule/provisioning/provisioner.py:128-157 | where every entry read leads, at each place that reads: own token, status and age of the verification decide |
| `ProtocolErrors.AbsenceMeans` | src/vestibule/provisioning/provisioner.py:193-226 | where a missing entry leads: a claim, or disabled creation, an unresolvable template or a conflict |
| `ProtocolErrors.WriteMeans` | src/vestibule/provisioning/provisioner.py:201-339 | where each registry write leads: unanswered ones end the call, a registration that found another entry goes by its status, and only a touch turns a conflict into an error |
| `ProtocolErrors.LookMeans` | src/vestibule/provisioning/provisioner.py:159-191 | where the live index leads: drift exactly on another schema or an entry older than the template |
| `ProtocolErrors.CreateMeans` | src/vestibule/provisioning/provisioner.py:270-306 | where a creation leads: unavailable on a fault, drift on another live schema, otherwise on to the description |
| `ProtocolTheorems.TemplateIs` | src/vestibule/provisioning/provisioner.py:228-258 | the scenario's own template, or the default for none or an empty one; not found and invalid exactly for a missing template and for other dimensions |
| `ProtocolTheorems.ClaimDescribesScenario` | src/vestibule/provisioning/provisioner.py:201-219 | a registered claim is complete and describes scenario and template, under its worker's own token and time |
| `ProtocolInvariant.Step` | src/vestibule/provisioning/provisioner.py:193-405 | every action of every worker, and every late landing, keeps the protocol invariant and only extends the history |
| `ProtocolInvariant.Reaches` | src/vestibule/provisioning/provisioner.py:193-405 | the invariant holds after every legal run and the history only grows |
| `ProtocolInvariant.CommitKeeps` | src/vestibule/provisioning/registry.py:183-275 | an allowed write on the current cell keeps the chain of entries, the uniqueness of tokens and the match with the live index |
| `ProtocolInvariant.CreateStep` | src/vestibule/provisioning/provisioner.py:260-306 | `create_index`, faulty or not, keeps the invariant: the live index is the one the first claim asked for or is left alone |
| `ProtocolInvariant.ChainEntry` | src/vestibule/provisioning/registry.py:183-275 | each stored entry keeps the first claim's settings and is either a complete claim or has given its token up |
| `Provisioner.IndexProvisioner.Ensure` | src/vestibule/provisioning/provisioner.py:103-126 | for every finite script of interference, stale and ambiguous answers: terminates, stays a legal run of the step system, and returns an entry that is ready and matches the live index. Undisturbed, the stored entry decides: failed and retired raise, a recent verification is trusted, an older one is checked and stamped, a claim is taken over if it is stale by the last look before the timeout and otherwise times out, and an unknown index is created |
| `Provisioner.IndexProvisioner.DispatchExisting` | src/vestibule/provisioning/provisioner.py:128-138 | failed and retired entries raise their codes without any call, a ready one verified less than the interval ago is returned without any call; undisturbed, all cases as for `ensure` |
| `Provisioner.IndexProvisioner.AfterLosingClaim` | src/vestibule/provisioning/provisioner.py:140-157 | ready returns the entry, failed and retired raise their codes, all without any call; undisturbed, a claim in progress is taken over exactly if it is stale by the last look, and otherwise times out |
| `Provisioner.IndexProvisioner.HandleReady` | src/vestibule/provisioning/provisioner.py:159-191 | a verification less than the interval ago is trusted without any call; from that age on the live index is looked at, and undisturbed the call reports drift exactly if the live schema differs from the resolved one or the template is newer, and otherwise returns the entry with the new time |
| `Provisioner.IndexProvisioner.ClaimNew` | src/vestibule/provisioning/provisioner.py:193-226 | disabled creation and an unresolvable template raise without any call; undisturbed on an unknown index it ends with a stored ready entry of the scenario's and the template's settings, or with drift if another index is live |
| `Provisioner.IndexProvisioner.ClaimAndCreate` | src/vestibule/provisioning/provisioner.py:260-306 | undisturbed, the own claim becomes ready and the live index is its schema, or it is marked failed with drift and the live index stays; disturbed, it ends in a legal state of the step system |
| `Provisioner.IndexProvisioner.FinalizeReady` | src/vestibule/provisioning/provisioner.py:308-322 | undisturbed, exactly the own claim becomes ready; disturbed, it ends in a legal state of the step system |
| `Provisioner.IndexProvisioner.WaitForReady` | src/vestibule/provisioning/provisioner.py:341-367 | the poll and reclaim loop terminates by script and deadline; undisturbed it takes the claim over and finishes it exactly if the claim is stale at the first poll that is not before the deadline, and otherwise times out |
| `Provisioner.IndexProvisioner.LastLookIs` | src/vestibule/provisioning/provisioner.py:341-367 | that poll is a whole number of intervals after the start and less than one interval after the deadline |
| `Provisioner.IndexProvisioner.TryReclaim` | src/vestibule/provisioning/provisioner.py:379-405 | a stale claim is replaced only against the observed snapshot; lost, won and unanswered reclaims each leave the worker in the right state; undisturbed it is won, with a new token and claim time and nothing else changed |
| `Registry.InMemoryIndexRegistry.Register` | src/vestibule/provisioning/registry.py:183-200 | inserts only into an empty cell and otherwise returns the stored entry; every other name untouched |
| `Registry.InMemoryIndexRegistry.Reclaim` | src/vestibule/provisioning/registry.py:202-227 | replaces only an entry equal to the observed one, conflict and no change otherwise |
| `Registry.InMemoryIndexRegistry.TouchVerified` | src/vestibule/provisioning/registry.py:229-237 | only stamps the verification time of an existing entry |
| `Registry.InMemoryIndexRegistry.MarkReady` | src/vestibule/provisioning/registry.py:239-256 | takes effect only under the expected token and gives the token up |
| `Registry.InMemoryIndexRegistry.MarkFailed` | src/vestibule/provisioning/registry.py:258-275 | takes effect only under the expected token and records the reason |
| `Registry.InMemoryIndexRegistry.MarkRetired` | src/vestibule/provisioning/registry.py:277-283 | sets the status alone; the claim token stays, as in the source |
| `Registry.PerformOnIsChanged` | src/vestibule/provisioning/registry.py:183-283 | the class and the pure meaning of a call agree on the whole map |
| `TableTheorems.RefinesLockBasedRegistry` | src/vestibule/provisioning/stores/table_storage_registry.py:167-364 | if vertical follows from name: after every run with timeouts, retries and late deliveries the rows are what the lock-based registry holds after the logged calls; each call takes effect at most once; a success answer is backed by the caller's own effect; without a timeout a refusal means no effect |
| `TableCalls.UncontendedCallIsAtomic` | src/vestibule/provisioning/stores/table_storage_registry.py:167-305 | after any history, a call that is left alone ends with the lock-based registry's own reply and change, for every operation |
| `TableCalls.VerdictMeans` | src/vestibule/provisioning/stores/table_storage_registry.py:167-364 | over all steps: unavailable exactly after an outage or the last timeout, refused exactly on a missing row, a mismatch or a lost condition, answered exactly with the row as stored |
| `TableTheorems.StepSimulates` | src/vestibule/provisioning/stores/table_storage_registry.py:167-364 | each table step is one call of the lock-based registry or none |
| `TableTheorems.OwnTokenMeansOwnInsert` | src/vestibule/provisioning/stores/table_storage_registry.py:167-194 | a registration answered with the caller's own token was inserted by this very call |
| `TableTheorems.RetriedInsertFindsItself` | src/vestibule/provisioning/stores/table_storage_registry.py:167-194 | a registration that landed behind a timeout and is retried into a conflict reads its own entry back while unsuperseded |
| `TableTheorems.LandedYetRefused` | src/vestibule/provisioning/stores/table_storage_registry.py:196-227 | every acceptable replace can land behind a timeout and still be reported as a conflict |
| `TableTheorems.RefusalsAreTrueIff` | src/vestibule/provisioning/stores/table_storage_registry.py:324-364 | in every run a replacing call that was told it was refused took no effect, if and only if the retry budget is a single attempt |
| `TableTheorems.TwoVerticalsBothWin` | src/vestibule/provisioning/stores/table_storage_registry.py:178-184 | without the vertical condition two registrations of one name both succeed, where the lock-based registry returns the first |
| `TableProtocol.ClaimsOverTheTable` | src/vestibule/provisioning/provisioner.py:193-405 | the claim protocol run over the table itself, with its timeouts, retries, late landings and conflicts on landed writes: the effects served are exclusive claims of one set of settings with a monotone lifecycle, all creations are equal, superseded tokens never act again, the row shows the last effect, and everything ready or returned describes the live index |
| `TableProtocol.ReclaimsOverTheTable` | src/vestibule/provisioning/provisioner.py:369-405 | over the table too no claim is taken over before it is stale |
| `TableProtocol.WaitingOverTheTable` | src/vestibule/provisioning/provisioner.py:308-367 | over the table one wait loop polls at most once per interval before its deadline, and with direct reads an `ensure` waits at most once plus once per finalization the table refused it |
| `TableProtocol.Step` | src/vestibule/provisioning/stores/table_storage_registry.py:167-364 | every step of a worker, call, table step and return keeps protocol invariant, table invariant and the link between them |
| `TableProtocol.EffectCommits` | src/vestibule/provisioning/stores/table_storage_registry.py:196-305 | a write the table accepts is, for the shared history, exactly the protocol write it was issued for |
| `TableProtocol.CallIsNeverBlocked` | src/vestibule/provisioning/provisioner.py:193-226 | a token that is fresh for the protocol is fresh for the table, so composing them restricts no worker |
| `Table.AcceptedMeansUntouched` | src/vestibule/provisioning/stores/table_storage_registry.py:196-305 | an accepted conditional write finds exactly the entry it was computed from, and never takes effect twice |
| `Table.Step` | src/vestibule/provisioning/stores/table_storage_registry.py:167-364 | every delivery, timeout, late landing and re-read keeps the table invariant |
| `Table.Reaches` | src/vestibule/provisioning/stores/table_storage_registry.py:167-364 | the table invariant holds after every run |
| `Retry.WithRetry` | src/vestibule/provisioning/stores/table_storage_registry.py:324-364 | attempts stop at the first answer that may not be retried or at the budget; the last answer alone decides the report |
| `Retry.ConflictReported` | src/vestibule/provisioning/stores/table_storage_registry.py:400-418 | a conflict is reported if and only if some attempt in budget met 409 or 412 after retryable answers only |
| `Retry.RetryableIff` | src/vestibule/provisioning/stores/table_storage_registry.py:400-418 | by status alone: 429 and 5xx and timeouts are retried, 409 and 412 are the conflicts |
| `Codec.EntryToEntity` | src/vestibule/provisioning/stores/_entity_codec.py:31-67 | the entity holds each required field and exactly the present optional ones |
| `Codec.RoundTrip` | src/vestibule/provisioning/stores/_entity_codec.py:31-112 | decoding what was encoded gives the entry back |
| `Codec.EncodingIsInjective` | src/vestibule/provisioning/stores/_entity_codec.py:31-67 | one entity encodes at most one entry, so value equality of entries is equality of what is stored |
| `Codec.MissingKeys` | src/vestibule/provisioning/stores/_entity_codec.py:85-112 | dropping a key makes the entity unreadable if and only if the field is required |
| `Codec.MergeIsSafeIff` | src/vestibule/provisioning/stores/_entity_codec.py:34-38 | merging over an older entity reads back correctly if and only if the older one had no optional field the new one lacks; hence full replacement |
| `Cache.CachedIndexRegistry.Get` | src/vestibule/provisioning/stores/cached_registry.py:75-84 | returns the wrapped registry's current answer, or an earlier one whose fill stamp is younger than the TTL |
| `Cache.CachedIndexRegistry.Register` | src/vestibule/provisioning/stores/cached_registry.py:97-109 | the outcome is the wrapped registry's alone and the whole cache is dropped |
| `Cache.CachedIndexRegistry.Reclaim` | src/vestibule/provisioning/stores/cached_registry.py:111-127 | never answered from the cache; a success drops the whole cache, a conflict keeps it |
| `Cache.CachedIndexRegistry.TouchVerified` | src/vestibule/provisioning/stores/cached_registry.py:129-141 | never answered from the cache; a success drops the whole cache |
| `Cache.CachedIndexRegistry.MarkReady` | src/vestibule/provisioning/stores/cached_registry.py:143-156 | never answered from the cache; a success drops the whole cache |
| `Cache.CachedIndexRegistry.MarkFailed` | src/vestibule/provisioning/stores/cached_registry.py:158-167 | never answered from the cache; a success drops the whole cache |
| `Cache.ReadAfterTouch` | src/vestibule/provisioning/stores/cached_registry.py:129-141 | without a concurrent thread the next read shows the touched entry |
| `Cache.Play` | src/vestibule/provisioning/stores/cached_registry.py:75-202 | the class, its lock sections and wrapped calls taken in any order in which threads may take them, does what the step system says |
| `CacheRuns.ReadIsCurrentIff` | src/vestibule/provisioning/stores/cached_registry.py:75-84 | over every interleaving of any number of threads: a read is current if and only if nobody stored the name since the last clearing, or that store has expired, or what it stored is what the registry holds now |
| `CacheRuns.StaleAskedBeforeWrite` | src/vestibule/provisioning/stores/cached_registry.py:75-84 | a stale read comes from a thread that asked before a later write of that name and stored after the last clearing, within the TTL |
| `CacheRuns.WriteIsVisibleIff` | src/vestibule/provisioning/stores/cached_registry.py:129-141 | a write that took effect, such as a touch, is reflected by later reads if and only if the last uncleared, unexpired store holds just that entry; threads that asked after the write always store it |
| `CacheRuns.TouchIsLost` | src/vestibule/provisioning/stores/cached_registry.py:129-141 | one thread that asked before a touch and stores after its clearing makes the next read return the untouched entry |
| `CacheRuns.SlotIs` | src/vestibule/provisioning/stores/cached_registry.py:75-84 | what is cached, from the history alone: the answer the last uncleared storer got when it asked, with its stamp |
| `CachedProtocol.IsProtocolRun` | src/vestibule/provisioning/stores/cached_registry.py:75-202 | a protocol run whose reads go through the cache, with any threads asking, storing and clearing, is a run of the protocol |
| `CachedProtocol.ClaimsBehindTheCache` | src/vestibule/provisioning/stores/cached_registry.py:75-202 | so exclusivity, fixed settings, the lifecycle and ready-means-real hold behind the cache at every TTL |
| `CachedProtocol.ReflectedIsPerformed` | src/vestibule/provisioning/stores/cached_registry.py:97-167 | what the cache wraps moves exactly as the lock-based registry does on the protocol's effective writes |
| `Ledger.InMemoryLedgerStore.Create` | src/vestibule/ledger/store.py:648-666 | idempotent by id; a malformed id changes nothing |
| `Ledger.InMemoryLedgerStore.Transition` | src/vestibule/ledger/store.py:668-701 | writes exactly the validated update or nothing, and reports the row it lost to |
| `Ledger.InMemoryLedgerStore.ListByStatus` | src/vestibule/ledger/store.py:708-715 | the matching rows, newest first, ties in insertion order, within the limit |
| `Ledger.ListedIsSound` | src/vestibule/ledger/store.py:708-715 | a listing holds current rows of the asked status, newest first; it is a prefix of all of them, the whole unless the limit cuts it |
| `Ledger.NewestFirstOrders` | src/vestibule/ledger/store.py:708-715 | the ordering is a descending permutation |
| `Ledger.InsertNewestAt` | src/vestibule/ledger/store.py:708-715 | ordering inserts each row at one place and moves nothing else |
| `Ledger.PlaceIs` | src/vestibule/ledger/store.py:708-715 | that place is behind every row at least as new and before every older one, so ties keep insertion order |
| `Ledger.HexIdIs` | src/vestibule/identity/derive.py:22-23 | the accepted ids are 64 lowercase hex digits, alone or followed by one newline |
| `Ledger.RejectionIs` | src/vestibule/ledger/store.py:454-522 | why a request is rejected: unknown document, stage mismatch, finished document and missing code, each exactly |
| `LedgerTraces.ClosedForm` | src/vestibule/ledger/store.py:454-522 | after any requests by anyone the row is a function of the accepted history: last status, id, configuration and ingestion time of its creation, last supplied scenario, attempts by trailing run, error code and message by the request that last set them |
| `LedgerTraces.RunStart` | src/vestibule/ledger/store.py:718-747 | the trailing run of equal statuses that the attempt counter counts |
| `LedgerTraces.ErrorSource` | src/vestibule/ledger/store.py:750-774 | the request whose error fields the row carries: the last of the trailing run with a code, otherwise the one that began the run |
| `LedgerTraces.RejectedRequestsChangeNothing` | src/vestibule/ledger/store.py:668-701 | leaving the rejected requests out gives the same row and the same accepted history |
| `LedgerTraces.TriageIsExact` | src/vestibule/ledger/store.py:333-423 | for a forward target the verdict is benign if and only if the row is on the path and really reached that status since it was last pending |
| `LedgerTraces.PathIsVisitedInOrder` | src/vestibule/ledger/store.py:171-179 | while on the path, a row has visited since pending exactly the statuses at or before its own |
| `LedgerTraces.TriageOffPath` | src/vestibule/ledger/store.py:393-423 | the exact verdicts for failed, archived and needs-review targets |
| `LedgerTraces.TriageNeedsConsistency` | src/vestibule/ledger/store.py:333-423 | nothing is benign about a missing row, or a request or a row whose stage is not its status |
| `LedgerTraces.StageExitIsSettled` | src/vestibule/ledger/store.py:333-423 | a stage the row entered finds its exit write accepted or benign, or the row failed or archived, unless the row went back to pending |
| `LedgerTraces.ExitSettledIff` | src/vestibule/ledger/store.py:333-423 | a late exit write is accepted, benign or explained exactly if the row failed, was archived, or stands at the stage or beyond; otherwise every visit of that stage was followed by a return to pending |
| `LedgerTraces.StragglerAfterRequeue` | src/vestibule/ledger/store.py:333-423 | after a requeue a straggler's exit write is refused and not benign, so that condition is needed |
| `LedgerTraces.PendingAgain` | src/vestibule/ledger/store.py:147-169 | in every history a row is pending again only from failed or from review |
| `LedgerTraces.ReturnsToPendingIff` | src/vestibule/ledger/store.py:147-169 | a request back to pending is accepted exactly on pending, failed and needs-review rows |
| `LedgerTraces.Interfere` | src/vestibule/ledger/store.py:668-701 | other writers' requests on one row act as a run and touch no other row |
| `Stages.StageWorker.Deliver` | src/vestibule/indexer/indexer.py:195-205 | one delivery of Chunker, Embedder or Indexer: its one write took effect or was triaged. On a row at the stage, by the work alone: success moves it on, a crash is an internal error and leaves it, refused input and permanent errors fail it, declared transient errors keep their code and leave it, any other error is internal. On a row another worker took past the stage: success stays success, a retry changes nothing and is refused except by the indexer, and a permanent failure ends every document that is not indexed yet |
| `Stages.StageWorker.Redeliver` | src/vestibule/indexer/indexer.py:368-401 | any number n of transient failures leaves the row at its stage with attempts raised by n and other rows untouched |
| `Stages.StageWorker.Terminalize` | src/vestibule/embedder/embedder.py:202-230 | the failing write took effect, or the row was completed by another worker, or the refusal is reported |
| `Stages.StageWorker.Retry` | src/vestibule/chunker/chunker.py:236-257 | the self-transition took effect, or is triaged where the stage triages it, or the refusal is reported |
| `Stages.StageWorker.Advance` | src/vestibule/chunker/chunker.py:307-332 | the exit write took effect, or is a benign loss, or the refusal is reported |
| `Stages.RouteIsRight` | src/vestibule/indexer/indexer.py:326-366 | the same for every outcome of the work and every row at the stage: permanent iff failed with that code, transient iff same stage with one more attempt, success iff next stage |
| `Stages.DeclaredErrorsKeepTheirCode` | src/vestibule/indexer/indexer.py:326-366 | the declared errors of each stage are reported under their own code, and end the document exactly if they are permanent |
| `Stages.TransientCodes` | src/vestibule/indexer/model.py:148-206 | which codes are registered as transient |
| `Stages.Analyze` | src/vestibule/analyzer/analyzer.py:99-154 | entry write, parsing while others move the row, outcome write: final row and answer for every row and interference |
| `Stages.AnalyzedQuietly` | src/vestibule/analyzer/analyzer.py:99-154 | undisturbed on a pending or analyzing row: a parsed document goes to chunking, an unusable one is failed, a parser failure stays analyzing, with code and reason, and the caller is told so |
| `Stages.Enter` | src/vestibule/analyzer/analyzer.py:127-139 | a lost entry is benign only past the stage, otherwise the call ends |
| `Stages.Settle` | src/vestibule/analyzer/analyzer.py:141-234 | by the status the outcome write meets: a success is refused only off the path or at pending, a permanent failure only by a settled row, a retry lands only at pending or analyzing; what lands carries the failure's code and reason and the right attempt count |
| `Stages.EntryWrite` | src/vestibule/analyzer/analyzer.py:127-139 | which rows the analyzer may enter, and which losses are benign |
| `Stages.AnalyzedIsRun` | src/vestibule/analyzer/analyzer.py:99-154 | an analyze call is a stretch of ledger history, so all results on histories hold of documents that analyzers work on |
| `Stages.LostEntryWritesIff` | src/vestibule/analyzer/analyzer.py:133-139 | a call that lost its entry leaves the row as the others made it if and only if it parsed, or its failure met a settled row, or its retry met a row neither pending nor analyzing |
| `Stages.LostEntryFailsIff` | src/vestibule/analyzer/analyzer.py:185-200 | it leaves the document failed if and only if the others did, or its own failure met a row neither completed nor archived |
| `Stages.LateAnalyzerFailsProgress` | src/vestibule/analyzer/analyzer.py:185-200 | so the analyze call of an undisturbed duplicate fails a document that is chunking, embedding or indexing |
| `Stages.RedeliveriesFailIff` | src/vestibule/analyzer/analyzer.py:99-154 | over any number of redeliveries to a document the others keep past the stage: it ends failed if and only if some call found it unusable before the others completed it, and otherwise exactly where the others took it |
| `Review.SelectSourceRule` | src/vestibule/vertical/loader.py:464-489 | exact rules before glob rules, first listed wins, none only if nothing matches |
| `Review.GlobIs` | src/vestibule/vertical/loader.py:459-489 | a pattern is a glob exactly if a wildcard character occurs in it, and any other matches by equality alone |
| `Review.SuggestVerticals` | src/vestibule/vertical/loader.py:491-518 | each vertical of a rule sharing the source prefix, once, no other, in the order in which the rules first suggest them |
| `Review.ResolutionIsExact` | src/vestibule/vertical/loader.py:193-235 | which signal decides for every row and envelope: unresolved exactly without any signal, lower ranks never consulted even if the named scenario is missing, the envelope irrelevant under an assignment |
| `Review.ResolutionNames` | src/vestibule/vertical/loader.py:193-341 | what each signal resolves to: vertical and id of exactly the scenario it names, or not-found if there is none |
| `Review.PrefixIs` | src/vestibule/vertical/loader.py:491-518 | the prefix rules are compared by ends before the first colon |
| `Review.VerticalLoader.Park` | src/vestibule/vertical/loader.py:374-442 | records source, path and suggestions, then parks, or loses benignly, or reports the refusal; exactly one row and one record are touched |
| `Review.VerticalLoader.Load` | src/vestibule/vertical/loader.py:343-372 | a resolved document changes nothing and is loaded exactly if the resolved scenario exists; an unresolved one gives the exact answer, row and side record on the row as others left it; with an assignment nothing is written |
| `Review.AssignmentPersists` | src/vestibule/ledger/store.py:777-794 | no sequence of requests clears an assignment |
| `Review.AssignmentIsFinal` | src/vestibule/vertical/loader.py:193-235 | after an accepted assignment, in every later ledger state and for every envelope, resolution uses an assignment or reports not-found, never unresolved |
| `Review.AssignedEndsParkedIff` | src/vestibule/vertical/loader.py:343-442 | a load's late write parks an assigned document if and only if it meets the assignment with the row still pending or parked |
| `Review.OverlappingLoadParksAgain` | src/vestibule/vertical/loader.py:343-442 | a load that looked before the assignment can still park after it |
| `Review.SecondAssignmentIff` | src/vestibule/ledger/store.py:777-794 | a second assignment replaces the first if and only if it meets the row pending, failed or parked |
| `Review.NothingRecordedIff` | src/vestibule/vertical/review_queue.py:223-240 | the reviewer is told of success though nothing was recorded if and only if the row has moved on along the path |
| `Review.SecondAssignment` | src/vestibule/vertical/review_queue.py:192-240 | a second reviewer overwrites the first while pending, and is told it succeeded though nothing was recorded once a worker entered |
| `Review.ReviewQueue.Assign` | src/vestibule/vertical/review_queue.py:192-240 | exact outcome, row and side record for every interference after the parked check: refused only by an archived row, finished without recording exactly on rows that moved on |
| `Review.ReviewQueue.Reject` | src/vestibule/vertical/review_queue.py:242-268 | exact outcome, row and side record for every interference; refused only by a failed or archived row |
| `Review.ReviewRows` | src/vestibule/vertical/review_queue.py:192-268 | what parking, assigning and rejecting leave on a row that accepts them: status, code, message, scenario and attempts |
| `Reprocessor.Operator.ListFailed` | src/vestibule/reprocessor/reprocessor.py:170-201 | distinct documents, newest failure first, each item showing every field of the current failed row with the stage and severity of its code, all with the asked code, stage and age, within the limit |
| `Reprocessor.StagesAre` | src/vestibule/reprocessor/reprocessor.py:69-95 | which stage each prefix stands for, and unknown for every other code |
| `Reprocessor.PassesIff` | src/vestibule/reprocessor/reprocessor.py:176-201 | which rows a filter lets through, by their fields; the time bound is inclusive |
| `Reprocessor.TakeIs` | src/vestibule/reprocessor/reprocessor.py:176-201 | the limit keeps the first rows, none for a limit of zero or less |
| `Reprocessor.ListingIsExact` | src/vestibule/reprocessor/reprocessor.py:170-201 | distinct current failed rows, newest first, all passing the filter, within the limit |
| `Reprocessor.FailuresAreExact` | src/vestibule/reprocessor/reprocessor.py:60-67 | the scan holds all failed rows, or 10 000 of them of which none is older than any left out |
| `Reprocessor.ListingIsCompleteIff` | src/vestibule/reprocessor/reprocessor.py:176-201 | a listing is the newest matches of the whole ledger if and only if the scan limit cuts nothing, or the asked limit is filled before the cut, or nothing behind the cut passes the filter |
| `Reprocessor.CandidatesAreCompleteIff` | src/vestibule/reprocessor/reprocessor.py:299-300 | the same exact condition for the candidates of a batch |
| `Reprocessor.CrowdedOut` | src/vestibule/reprocessor/reprocessor.py:278-316 | if none of the scanned failures has the code, the listing is empty and a batch has no candidate, however many older failures have it |
| `Reprocessor.HiddenFailure` | src/vestibule/reprocessor/reprocessor.py:60-67 | the failing input: 10 000 newer failures of another code hide the one document that failed with the asked code |
| `Reprocessor.NothingToRequeue` | src/vestibule/reprocessor/reprocessor.py:278-316 | a batch without candidates completes and touches no row |
| `Reprocessor.Operator.Summarize` | src/vestibule/reprocessor/reprocessor.py:203-230 | both count maps tally exactly and sum to the total, which is the number of failed rows capped at the scan limit; oldest and newest are the extremes |
| `Reprocessor.CountedBy` | src/vestibule/reprocessor/reprocessor.py:203-230 | what the two maps count by: the recorded code and the stage of that code, unknown for none |
| `Reprocessor.BumpAddsOne` | src/vestibule/reprocessor/reprocessor.py:215-219 | counting one row raises the sum of a count map by one |
| `Reprocessor.Operator.Requeue` | src/vestibule/reprocessor/reprocessor.py:232-276 | not-found, not-failed, refused only if archived between check and write, otherwise requeued or benignly overtaken |
| `Reprocessor.Operator.RequeueByErrorCode` | src/vestibule/reprocessor/reprocessor.py:278-316 | requeued and skipped are the ordered split of the listed candidates by their row at their turn; it stops with an error exactly at the first one archived inside its own turn |
| `Reprocessor.Operator.RequeueAll` | src/vestibule/reprocessor/reprocessor.py:301-316 | the same for any list of stored documents and any acts of other operators before and inside each turn |
| `Reprocessor.BatchSplits` | src/vestibule/reprocessor/reprocessor.py:312-316 | every candidate is accounted for exactly once |
| `Reprocessor.CandidatesAreFailed` | src/vestibule/reprocessor/reprocessor.py:299-300 | candidates are distinct, failed with that code, and within both caps |
| `Reprocessor.TurnIsClean` | src/vestibule/reprocessor/reprocessor.py:303-311 | with others acting only between calls no turn fails; a requeued row goes failed to pending with attempts 0 and errors cleared, and the turn touches nothing else |
| `Reprocessor.UntouchedBetween` | src/vestibule/reprocessor/reprocessor.py:303-311 | a row not requeued ends where the others' own requests take it |
| `Reprocessor.RequeuedOnce` | src/vestibule/reprocessor/reprocessor.py:303-311 | a requeued row sees the others' requests and exactly one reset, at its turn |
| `Reprocessor.QuietBatch` | src/vestibule/reprocessor/reprocessor.py:278-316 | left alone, a batch requeues every candidate |
| `Reprocessor.RowsAreIndependent` | src/vestibule/ledger/store.py:668-701 | requests about other documents never influence a row |
| `Reprocessor.Operator.Archive` | src/vestibule/reprocessor/reprocessor.py:318-348 | archived or benignly so, refused otherwise; left alone, the row keeps its failure code and gets the reason as its message |
| `VectorStore.InMemoryIndexer.EnsureSchema` | src/vestibule/indexer/adapters/in_memory.py:77-95 | sets once, repeats are no-ops, a different schema is a conflict that changes nothing |
| `VectorStore.InMemoryIndexer.Upsert` | src/vestibule/indexer/adapters/in_memory.py:97-105 | both maps after the whole batch, and one success per record |
| `VectorStore.InMemoryIndexer.DeleteByDocId` | src/vestibule/indexer/adapters/in_memory.py:107-113 | removes exactly the document's records and counts them; keeps the maps in agreement |
| `VectorStore.InMemoryIndexer.CountByDocId` | src/vestibule/indexer/adapters/in_memory.py:115-118 | while the maps agree, the number of records with that document id |
| `VectorStore.InMemoryIndexer.GetDocVersion` | src/vestibule/indexer/adapters/in_memory.py:120-127 | while the maps agree the lookup never misses and is empty exactly when no record exists |
| `VectorStore.PutOneAgreesIff` | src/vestibule/indexer/adapters/in_memory.py:97-105 | one upsert keeps primary and secondary map in agreement if and only if it takes no id over from another document |
| `VectorStore.PutAgrees` | src/vestibule/indexer/adapters/in_memory.py:97-105 | when chunk id determines document id, every batch keeps the agreement |
| `VectorStore.DeleteAgrees` | src/vestibule/indexer/adapters/in_memory.py:107-113 | so does every delete |
| `VectorStore.TakenOverId` | src/vestibule/indexer/adapters/in_memory.py:107-127 | otherwise a take-over and a delete leave a version lookup without a record |
| `VectorStore.InMemoryProvisioner.CreateIndex` | src/vestibule/provisioning/adapters/in_memory.py:43-72 | succeeds exactly when the live schema is then the requested one; an existing schema never changes |
| `Indexing.Batched` | src/vestibule/indexer/indexer.py:522-533 | the batches concatenate to the input, none empty, none over size, all but the last full |
| `Indexing.RetrySame` | src/vestibule/indexer/indexer.py:466-481 | landing the failed items after the others is landing the batch, and the counts add up |
| `Indexing.Indexer.UpsertBatchWithRetry` | src/vestibule/indexer/indexer.py:447-481 | under any faults only records of the batch land; on success all of them did and the count is their number. The answer is exact: a broken call gives its cause, and the batch succeeds exactly if no item fails in both passes |
| `Indexing.Indexer.RetryFailed` | src/vestibule/indexer/indexer.py:466-481 | the second pass sends the failed items alone and answers exactly by what still fails |
| `Indexing.Indexer.MaybeDeleteStale` | src/vestibule/indexer/indexer.py:429-445 | deletes only this document and only on a version change, completely unless the delete broke |
| `Indexing.Indexer.UpsertAll` | src/vestibule/indexer/indexer.py:403-427 | one attempt under any faults keeps both maps in agreement and has an explainable effect; it gets through whenever no call breaks and no item fails twice running; a receipt counts every record; an error carries the cause of the call that broke, or partial failure |
| `Convergence.RetriesConverge` | src/vestibule/indexer/indexer.py:403-481 | from an absent document, another version or the same version without foreign ids, any number of broken attempts mixed with other documents and one success leave exactly the successful records |
| `Convergence.SuccessLeavesIff` | src/vestibule/indexer/indexer.py:403-445 | whatever is stored, mixed versions included: a success leaves exactly its own records if and only if it saw another version and deleted, or no stored id of the document is missing from the new records |
| `Convergence.SuccessIsExact` | src/vestibule/indexer/indexer.py:429-445 | a success leaves exactly its own records if and only if the document was not stored under the same version with an id the new records lack |
| `Convergence.SuccessWithoutPurge` | src/vestibule/indexer/indexer.py:440-441 | with deletion off, if and only if the stored ids are among the new ones |
| `Convergence.FewerChunksLeaveOrphans` | src/vestibule/indexer/indexer.py:442-445 | re-indexing the same version with fewer chunks keeps the dropped record |
| `Convergence.AlwaysOneVersion` | src/vestibule/indexer/indexer.py:429-445 | in every state of every sequence of attempts, one after another, each document is stored under one version |
| `Convergence.BystandersKeep` | src/vestibule/indexer/indexer.py:403-481 | a document nobody indexes keeps its records through any stretch of the run |
| `Convergence.OthersUntouched` | src/vestibule/indexer/indexer.py:403-481 | one attempt, broken or not, touches no other document |
| `Duplicates.DuplicatesConverge` | src/vestibule/indexer/indexer.py:403-481 | any number of concurrent duplicates of one version, crashing anywhere and breaking mid-delete: once one finished and every one that deleted finished, the ids are exactly the target's, all of the target version, each record written by one of them |
| `Duplicates.Step` | src/vestibule/indexer/indexer.py:403-481 | every call of every duplicate, every crash, broken delete and change to other documents keeps the invariant: what a worker wrote is there or owed by a worker that deleted it |
| `Duplicates.Reaches` | src/vestibule/indexer/indexer.py:403-481 | that invariant holds after every interleaving from a prepared store |
| `Duplicates.DuplicatesAreSafeIff` | src/vestibule/indexer/indexer.py:429-445 | for every store: in every interleaving a finished delivery means a complete document, if and only if what is stored for it when the deliveries begin is of the target version and under the target's ids |
| `Duplicates.CompleteIsSafeIff` | src/vestibule/indexer/indexer.py:442-445 | a complete document stays complete in every continuation if and only if no duplicate is about to delete |
| `Duplicates.LateDelete` | src/vestibule/indexer/indexer.py:442-445 | the losing interleaving: both duplicates look, one finishes, the other deletes |
| `Duplicates.OrphanStays` | src/vestibule/indexer/indexer.py:442-445 | the other losing run: one undisturbed delivery over a stored id of the same version that the target lacks |
| `IndexedRows.IndexedIsCompleteIff` | src/vestibule/indexer/indexer.py:494-519 | with the ledger row: under concurrent duplicates, finished workers reporting and anyone asking for anything else, an indexed row means a complete document if and only if that same condition holds |
| `Overlap.OneVersionIff` | src/vestibule/indexer/indexer.py:429-445 | overlapping deliveries of any versions keep a document at one version in every interleaving if and only if no two of them bring records of different versions under different ids |
| `Overlap.Mixes` | src/vestibule/indexer/indexer.py:429-445 | two deliveries that do, mix versions from every store |
| `IndexStage.IndexWorker.Index` | src/vestibule/indexer/indexer.py:171-205 | refused input never reaches the store and raises the first thing wrong with it; otherwise the store sees one attempt, and a row at the stage becomes indexed, and the caller is told of success, exactly when that attempt got through, which it does whenever no call breaks and no item fails twice running; an error is the cause of a broken call, a partial failure or internal |
| `IndexStage.IndexWorker.IndexAll` | src/vestibule/indexer/indexer.py:171-205 | over any number of redeliveries broken anywhere: a row that reached indexed has exactly the target ids and version in the store, each record from one of the deliveries, and other documents are untouched; without faults the first acceptable delivery gets there |
| `IndexStage.IndexWorker.Validate` | src/vestibule/indexer/indexer.py:207-237 | empty, mixed-model and wrong-dimension batches, each exactly and in that order |
| `IndexStage.CompleteSurvives` | src/vestibule/indexer/indexer.py:396-400 | no redelivery of the same version and ids damages a complete document, however it breaks |
| `Regions.PartitionRegions` | src/vestibule/chunker/chunker.py:335-364 | the regions cover the document end to end: each table alone with its caption, every other run maximal |
| `Regions.PartitionIsUnique` | src/vestibule/chunker/chunker.py:335-384 | a document has exactly one such partition |
| `Regions.CaptionIs` | src/vestibule/chunker/chunker.py:367-384 | a table has a caption exactly if a paragraph or image caption stands just before it, and then that text |
| `Regions.RegionsFlatten` | src/vestibule/chunker/chunker.py:335-364 | the regions flatten to the input |
| `Regions.SplitIntoSections` | src/vestibule/chunker/strategies/structure_aware.py:75-102 | every run between headings is one section under the heading before it, and only headings lie between |
| `Regions.SplitIsUnique` | src/vestibule/chunker/strategies/structure_aware.py:75-102 | a region has exactly one such split |
| `Regions.SectionsFlatten` | src/vestibule/chunker/strategies/structure_aware.py:75-102 | the sections flatten to the elements that are not headings |
| `Assembly.MergeTwoDrafts` | src/vestibule/chunker/chunker.py:413-437 | texts joined by a blank line, recounted tokens, the predecessor's section path and strategy, types in order of first appearance |
| `Assembly.UnionIsExact` | src/vestibule/chunker/chunker.py:428-431 | the merged types keep the first list, hold exactly both lists' kinds and add no duplicate |
| `Assembly.MergeUndersizedTail` | src/vestibule/chunker/chunker.py:387-410 | a prefix untouched and the rest folded into one, at the last place where the merge condition fails |
| `Assembly.StopIsUnique` | src/vestibule/chunker/chunker.py:403-410 | that place and the result are determined |
| `Assembly.TailKeepsFirst` | src/vestibule/chunker/chunker.py:413-437 | a folded draft keeps section path and strategy of the first draft in it and counts its own text |
| `Assembly.OnlyUndersizedIsFolded` | src/vestibule/chunker/chunker.py:403-410 | whatever was folded was too small and no table, nor was what it was folded into |
| `Assembly.StopsOnlyIfForced` | src/vestibule/chunker/chunker.py:403-410 | a piece that is too small is left last only if it is alone or a table forbids the merge |
| `Assembly.LeavesAlone` | src/vestibule/chunker/chunker.py:403-410 | a list whose last piece is large enough, or is or follows a table, is left alone |
| `Assembly.MergeKeepsText` | src/vestibule/chunker/chunker.py:413-437 | the blank-line join of all texts is unchanged |
| `Assembly.MergeKeepsCounts` | src/vestibule/chunker/chunker.py:432-437 | every draft still carries the count of its own text |
| `Assembly.MergeKeepsSize` | src/vestibule/chunker/chunker.py:387-410 | under a counter subadditive up to s, pieces of at most T stay within T or T+s+min-1 |
| `Assembly.AssignPositions` | src/vestibule/chunker/chunker.py:440-464 | positions count up from zero and every id is derived from document and position |
| `Assembly.ChunkIdsAreDistinct` | src/vestibule/chunker/chunker.py:440-464 | equal chunk ids, within or across documents, name the same document and position |
| `Assembly.AssembleChunks` | src/vestibule/chunker/chunker.py:259-278 | the chunks are the regions' merged drafts in document order, numbered throughout |
| `Assembly.AssemblyIsDetermined` | src/vestibule/chunker/chunker.py:259-278 | the assembled drafts are determined by the document: there is no second way to satisfy the assembly contract |
| `Identity.ChunkPreimageIsInjective` | src/vestibule/identity/derive.py:67-69 | document id and index can be read off the unseparated preimage, also for the 65-character ids the pattern admits |
| `Identity.ChunkIdNamesItsChunk` | src/vestibule/identity/derive.py:59-69 | with a collision-free hash a chunk id names one document and one index |
| `Identity.DecimalIsInjective` | src/vestibule/identity/derive.py:67-69 | different indices print differently |
| `Identity.DecimalDenotes` | src/vestibule/identity/derive.py:67-69 | the printed index reads back as the number, without leading zeros |
| `Identity.ChunkPreimageIs` | src/vestibule/identity/derive.py:67-69 | what is hashed is the document id followed by the index in decimal |
| `Identity.DocIdNamesTheConcatenation` | src/vestibule/identity/derive.py:47-56 | two source and path pairs share a document id if and only if their concatenations agree; an empty source or path is refused |
| `Identity.TwoDocumentsOneId` | src/vestibule/identity/derive.py:56-56 | two different pairs that share one |
| `Identity.DeriveChunkIdsBatch` | src/vestibule/identity/derive.py:72-82 | all or nothing: refused exactly if there is anything to derive and the document id is malformed or an index negative, otherwise the individual ids |
| `Vectors.CauchySchwarz` | src/vestibule/indexer/adapters/in_memory.py:194-196 | the squared dot product is at most the product of the squared norms |
| `Vectors.CosineIsBounded` | src/vestibule/indexer/adapters/in_memory.py:183-199 | for all vectors of equal length the similarity exists and lies in [-1, 1] |
| `Vectors.CosineIs` | src/vestibule/indexer/adapters/in_memory.py:183-199 | the score times both norms is the dot product, and it is zero against a zero vector |
| `Vectors.CosineOfSelf` | src/vestibule/indexer/adapters/in_memory.py:183-199 | a vector that is not zero scores one against itself |
| `Vectors.CosineOfOpposite` | src/vestibule/indexer/adapters/in_memory.py:183-199 | turning a vector round negates its score against everything |
| `Vectors.DotPicks` | src/vestibule/indexer/adapters/in_memory.py:194-194 | the dot product with a unit vector reads off that coordinate |
| `Vectors.DotIsBilinear` | src/vestibule/indexer/adapters/in_memory.py:194-194 | it is symmetric and additive, which with the former determines it |
| `Vectors.RenormalizedIsUnit` | src/vestibule/embedder/embedder.py:410-430 | a truncated vector that is not zero comes out with norm one, a zero one unchanged |
| `Vectors.RenormalizingKeepsCosine` | src/vestibule/embedder/embedder.py:410-430 | against every query the score is that of the truncated vector |
| `Embedding.EmbedAll` | src/vestibule/embedder/embedder.py:292-309 | over a pointwise model every chunk gets the vector it would get alone, in order, at every batch size; otherwise the counts must match |
| `Search.TopMatches` | src/vestibule/indexer/adapters/in_memory.py:129-160 | the slice of a ranking that holds exactly the matching records; an error if and only if a match has the wrong dimension |
| `Search.TopKAreBest` | src/vestibule/indexer/adapters/in_memory.py:158-160 | for non-negative k: that many or all, descending, scores in [-1, 1], and nothing left out ranks above anything returned |
| `Vectors.SliceIs` | src/vestibule/indexer/adapters/in_memory.py:158-160 | what a slice of any bound keeps, negative ones included |
| `Search.RankingIsUnique` | src/vestibule/indexer/adapters/in_memory.py:159-159 | scores and dictionary order determine the ranking |

## Left out

- `mark_retired` in protocol runs: it leaves the claim token in place, so the protocol theorems are about runs without it; the call itself is modelled on the registry.
- Several index names in one protocol run: the step system follows one name; the registry contracts say that no call touches another name.
- Timeouts as threads: a timeout is an ambiguous outcome; thread pools, backoff, jitter and Retry-After are not modelled.
- `list_by_vertical` and the per-vertical half of the cache: single reads with no part in the protocol.
- Table rows hold entries; that the stored form determines the entry is proved separately in `Codec`.
- Entity decoding reads a number or a text as stored; Python's conversions of one into the other, and field validation beyond types, are not modelled.
- Record assembly (`_build_records`) and the length check of the embedder: plumbing and a single-branch check, present in `Stages` as refused input.
- Floating-point rounding: vectors are over the reals.
- The recursive splitter, the tokenizer, table-atomic rendering and `_retag`: strategies are parameters of `Assembly.AssembleChunks`.
- The spelling of error codes is a parameter of `Stages`; severities are a constant table.
- Who may take the exits of failed (operator or pipeline): convention only in the source.
- Scenario stores over tables and their cache, Azure, OpenAI, FastEmbed, Document Intelligence and PyMuPDF wrappers, type detection, PDF layout, YAML, JSON and schema validation.
