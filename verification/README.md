# Verified models of libbeat's stateful cores

This project models seven pieces of libbeat whose correctness rests on invariants that no single function shows, and
proves those invariants in Dafny 4.11. `dafny verify dfyconfig.toml` checks all of it.

- **State stores** (`StateStore.dfy`, `StateStoreReaping.dfy`, `StateStoreClose.dfy`, `StateStoreDraining.dfy`,
  `StateStoreNames.dfy`, `StateStoreUse.dfy`). The
  registry with its reference-counted shared stores is a state machine over atomic steps. The decrement of the count and
  the look at it under the mutex are two steps, and so are the steps inside `Get`, so that every interleaving is a sequence
  of actions. In every run there is no use after
  close, counting is exact, a retired store stays retired, and a registered store without a reference is attended to.
  Closing exactly once does not hold in every run: a second decrement to zero while an earlier releaser has not looked
  again yet (`Hazard`) leads to the panic "removing an unknown store". Runs without a hazard are proved to close every
  store exactly once: at most once at any time, and once when all handles have been closed, which every such run can
  still reach. From every first hazard a panicking continuation is proved to exist. In every run a handle leads to a store
  of the name it was got under; without a hazard handles in use share a store exactly when they were got under one name.
- **Runner lists and autodiscover** (`RunnerLists.dfy`, `Autodiscover.dfy`). `RunnerList` and the autodiscover worker are
  classes; the worker refines a small state machine whose invariant is that the two dirty flags never lose an update.
- **Ingest pipelines** (`Pipelines.dfy`, `PipelineChecks.dfy`, `PipelineGuards.dfy`, `PipelineTheorems.dfy`,
  `PipelineSurvival.dfy`, `PipelineAdapter.dfy`). The
  recursive down-levelling of processor trees: soundness, idempotence, confluence over versions, when it fails, what it
  drops, what becomes of the rest, and when it changes nothing.
- **Dashboards** (`Dashboards.dfy`, `DashboardCycles.dfy`). The memoised walk over references, the marks it leaves over
  series of imports, and why no cycle of references may be within reach.
- **UTF-16 to UTF-8** (`Unicode.dfy`, `Transcoding.dfy`, `ByteBuffers.dfy`). UTF-8 follows section 3 of RFC 3629, UTF-16
  sections 2.1 and 2.2 of RFC 2781. The transcoder writes into growable buffers that come from a shared pool.
- **Expiring cache** (`Caches.dfy`, `CacheWrites.dfy`). Eviction is invisible, a value is found exactly until its deadline,
  and each write is told by what later lookups find.
- **Name trees** (`Names.dfy`, `Namespaces.dfy`, `Fields.dfy`, `Templates.dfy`, `TemplateMerging.dfy`,
  `TemplateTidying.dfy`, `TemplateCollections.dfy`, `TemplateSharing.dfy`, `TemplateGaining.dfy`,
  `TemplateIndependence.dfy`, `TemplateLists.dfy`, `TemplateExplicit.dfy`, `TemplateQuiet.dfy`, `TemplateExamples.dfy`,
  `TemplateVisits.dfy`, `TemplateLeaves.dfy`, `TemplateProcessor.dfy`). The processor namespace as a trie of heap objects, the conflict check on field trees, and the
  generation of index templates from field trees. A dynamic template made from a group whose properties stand in the
  output shares that map with the output. Such a template carries the place of the map and is read there; when the map is
  overwritten or dropped it keeps what the map held.

Code that updates objects or runs loops is modelled by classes and methods, each proved against a specification function;
the theorems are about those functions.

## Where the code does less than its documentation says

For each of these a lemma gives inputs that show it, and a theorem says exactly when the code does what is promised.

- Two releasers of one shared store can panic: `PanicIsReachable`; exactly the first hazards can lead there:
  `ClosedExactlyOnce`, `HazardCanPanic`.
- Handles of one name are meant to share one store. From exactly the first hazards on two of them can have a store each:
  `HazardCanSplit`, `SharedIffOneName`.
- `Registry.Close` says it blocks until all stores in use are closed. It waits for unregistered names, not for the
  backends: `RegistryClosesBeforeBackend`, `WhenRegistryMayClose`.
- `RunnerList.Stop` does not count its stops, so that starts minus stops tells the runners exactly when Stop has never
  stopped any: `StopBalancesIffEmpty` for every list with runners, `CountersAlongHistory` for all lists of a process.
- From Elasticsearch 7.13 on a pipeline needs no adapting, but an empty list comes back as nil, which is JSON null:
  `EmptyListTurnsNil`, `PipelineUnchangedIff`, `NewVersionsKeepPipelines`.
- An import that fails after marking assets makes a retry leave them out: `RetryLosesAnAsset`, `LostUnlessRoot`,
  `MarksTellUploadsIff`.
- A high surrogate without its low one swallows the next unit, even a terminating NUL: `BrokenPairSwallows`,
  `StandardIffUnbroken`.
- `ConcatFields` says it fails when both lists define the same keys. It misses keys of dotted names, the keys that
  histograms add and, after an earlier concatenation, keys of repeated siblings: `DottedNamesMiss`, `HistogramsMiss`,
  `ChainsMiss`, `DisjointIffGuarded`.
- Consecutive groups that are explicit dynamic templates do not add up in general: `ExplicitGroupsDoNotMerge`,
  `SharedInsideDoesNotMerge`. They do when properties are there already and the second brings no template and no error:
  `QuietAddsUpThere`, `ExplicitAfterGroup`. The exact conditions are `ExplicitGroupsMergeThere`, `ExplicitGroupsMergeNew`
  and, from the field lists, `PlainGroupsMergeIff` and `QuietAddsUpNewIff`.

## Model

| member | source | states |
|---|---|---|
| `StateStore.InvKept` | statestore/store.go:57-179 | every step of every thread keeps: exact reference counts, wait group equal to the active names, closed or retiring stores dead and out of reach, no use after close, no self-deadlock of Get |
| `StateStore.InvAlongRun` | statestore/registry.go:58-87 | the invariant holds after every run |
| `StateStore.NoUseAfterClose` | statestore/store.go:64-154 | in every interleaving no operation reaches a closed backend, a handle that accepts or drains operations has an open one, and Get's own Release never waits for the mutex Get holds |
| `StateStore.CountIsExact` | statestore/store.go:156-165 | the count is the number of unreleased handles plus the references of a running Get; the wait group counts the active stores |
| `StateStore.RetiredForever` | statestore/store.go:167-179 | a store unregistered at zero is never retained or registered again, whatever happens later |
| `StateStoreReaping.AttendedKept` | statestore/store.go:160-179 | every step, hazards included, keeps: a registered store with count zero has been found by a running Get or has a releaser that will look again |
| `StateStoreReaping.AttendedAlongRun` | statestore/store.go:57-179 | so it holds after every run |
| `StateStoreReaping.WaitingForSomebody` | statestore/registry.go:50-54 | while the wait group is not zero a Get is running or some handle has a store to give back or to look at again |
| `StateStoreClose.OrderlyAlongRun` | statestore/store.go:160-179 | hazard-free runs keep one releaser per stage, registered stores for whoever needs them, and the three stages of a store |
| `StateStoreClose.ClosedExactlyOnce` | statestore/store.go:160-179 | without a hazard: no panic, at most one close per store, and exactly one for every store when no Get runs and all handles are closed; an unregistered store is closed once or has its one closer, every open handle's store is active, wait group equals active |
| `StateStoreClose.WhenRegistryMayClose` | statestore/registry.go:50-54 | when the wait of Close is over no handle holds a store; all backends are closed if and only if nobody is between unregistering and closing |
| `StateStoreClose.HazardCanPanic` | statestore/registry.go:79-83 | from every first hazard of a run some continuation panics |
| `StateStoreClose.PanicIsReachable` | statestore/store.go:160-179 | a concrete run of two handles reaches the panic |
| `StateStoreClose.RegistryClosesBeforeBackend` | statestore/registry.go:50-54 | a concrete hazard-free run closes the registry while a backend is open |
| `StateStoreDraining.EveryRunCanDrain` | statestore/store.go:64-76 | every hazard-free run can go on, without a hazard, to where all handles are closed and every backend has been closed exactly once |
| `StateStoreNames.GetYieldsItsName` | statestore/registry.go:58-77 | a Get, whatever other threads do between its lookup and its return, yields a handle to a store of its name: the active store and no new one if the name was active, otherwise exactly one new store that nobody else has |
| `StateStoreNames.NamesAreKept` | statestore/registry.go:58-77 | in every run each handle's store has the name of the last lookup before the handle was returned |
| `StateStoreNames.OneStoreOneName` | statestore/registry.go:62-74 | in every run handles of one store were got under one name |
| `StateStoreNames.SharedIffOneName` | statestore/registry.go:56-77 | without a hazard two handles in use share a store if and only if they were got under one name |
| `StateStoreNames.HazardCanSplit` | statestore/registry.go:79-87 | from every first hazard some continuation has two handles in use of one name with a store each |
| `StateStoreNames.OperationsReachTheirStore` | statestore/store.go:78-154 | in every run an operation through a handle reaches an open backend of the name the handle was got under |
| `StateStoreNames.RegistryCloseComesLast` | statestore/registry.go:50-54 | without a hazard, when the backend registry is closed no name is active and no handle holds a store |
| `StateStoreUse.OpenHandleWorks` | statestore/store.go:78-154 | in every run without a panic an open handle accepts an operation at any time, which calls the backend and leaves the state as it was |
| `StateStoreUse.ClosedHandleRefuses` | statestore/store.go:64-86 | once Close has begun a handle accepts no operation, whatever happens later |
| `StateStoreUse.AnyNameCanBeGot` | statestore/registry.go:58-77 | whenever the mutex is free and nothing has panicked, some continuation gets an open store under any given name |
| `RunnerLists.RunnerList.Diff` | cfgfile/list.go:88-109 | what to start and what to stop is the difference of wanted and running hashes; it fails if and only if some configuration does not hash |
| `RunnerLists.RunnerList.StopRunners` | cfgfile/list.go:113-128 | exactly the given runners are stopped once each and dropped, the others untouched |
| `RunnerLists.RunnerList.StartOne` | cfgfile/list.go:131-164 | if and only if the factory is able to, one runner is created from the given configuration, entered, started and counted; otherwise nothing changes |
| `RunnerLists.RunnerList.StartRunners` | cfgfile/list.go:130-175 | new instances for exactly those hashes of the list for which the factory is able to create one, from the listed configurations, started one after the other; an error if and only if it is not able to for one of them |
| `RunnerLists.RunnerList.Reload` | cfgfile/list.go:84-184 | all stops, then all starts, in the form of `Reloaded`; started is everything wanted that did not run and can be created, from a given configuration of its hash; an error if and only if something did not hash or could not be created; the running metric is the size of the list |
| `RunnerLists.RunnerList.Stop` | cfgfile/list.go:187-213 | every runner is stopped once, the list is empty, the counters stay |
| `RunnerLists.ReloadLeaves` | cfgfile/list.go:84-184 | left are the wanted runners that were running, as the same instances, and the created ones as new instances |
| `RunnerLists.ReloadBalances` | cfgfile/list.go:124-164 | a reload keeps starts minus stops equal to the number of runners |
| `RunnerLists.StopBalancesIffEmpty` | cfgfile/list.go:187-213 | after Stop that balance holds if and only if nothing was running |
| `RunnerLists.LedgerAlongHistory` | cfgfile/list.go:84-213 | over any series of Reload and Stop every instance is started once and stopped at most once, after its start; started and not stopped are exactly the listed ones |
| `RunnerLists.BalancedAlongReloads` | cfgfile/list.go:84-184 | over reloads alone starts minus stops is the number of runners |
| `RunnerLists.ReloadCounts` | cfgfile/list.go:113-181 | a reload counts exactly the change in the number of runners |
| `RunnerLists.CountersAlongHistory` | cfgfile/list.go:84-213 | over any Reload and Stop calls on any lists of the process, which share the counters, starts minus stops is the runners there are plus those that Stop has stopped |
| `RunnerLists.RunningMetricIff` | cfgfile/list.go:177-181 | after a reload the running metric tells the runners of the process if and only if no other list has any |
| `Autodiscover.GatherKeys` | autodiscover/autodiscover.go:214-254 | the keys gathered from a start event are those of its configurations that hash and are stored already or pass the check |
| `Autodiscover.NoticedExactly` | autodiscover/autodiscover.go:253-266 | the counting argument: there is a new key or a smaller size if and only if the key set changed, and otherwise the stored configurations are the same |
| `Autodiscover.StepSynced` | autodiscover/autodiscover.go:129-186 | start, stop and timer keep: both flags down means the running hashes are the desired ones |
| `Autodiscover.FlagsNeverLoseAnUpdate` | autodiscover/autodiscover.go:129-289 | that holds after every sequence of events and timer ticks |
| `Autodiscover.TimerSettles` | autodiscover/autodiscover.go:154-183 | a tick on which everything missing can be created leaves exactly the desired hashes and both flags down |
| `Autodiscover.TickRunsTheWanted` | autodiscover/autodiscover.go:154-183 | after a tick only desired hashes run, and all of them that ran or could be created |
| `Autodiscover.StopForgets` | autodiscover/autodiscover.go:271-289 | a stop leaves nothing stored for its id and every other id as it was, and raises the flag if and only if something was stored |
| `Autodiscover.StartStores` | autodiscover/autodiscover.go:188-269 | a start leaves exactly the accepted hashes stored for its id and every other id as it was, and raises the flag if and only if the key set changed |
| `Autodiscover.StoppedIsGone` | autodiscover/autodiscover.go:154-289 | after the stop of the only id that wanted a hash and a tick at any later time the hash does not run, until some start proposes it again |
| `Autodiscover.StopEventStopsRunner` | autodiscover/autodiscover.go:129-186 | the same for everything that arrives at the worker loop |
| `Autodiscover.GetIDTells` | autodiscover/autodiscover.go:307-319 | events share an id if and only if provider and instance are the same, for provider names without a colon |
| `Autodiscover.SharedHashSurvives` | autodiscover/autodiscover.go:129-289 | through any inputs, a running hash that at every moment some event id wants keeps running |
| `Autodiscover.SparedIsWanted` | autodiscover/autodiscover.go:188-289 | one event id that is not stopped and goes on proposing the hash is enough, whatever the other ids do |
| `Autodiscover.Manager.Collect` | autodiscover/autodiscover.go:220-254 | the loop over the configurations computes `Gather` and notices every key that is new |
| `Autodiscover.Manager.HandleStart` | autodiscover/autodiscover.go:188-269 | the stored keys become exactly the accepted hashes, and it reports a change if and only if the key set changed |
| `Autodiscover.Manager.HandleStop` | autodiscover/autodiscover.go:271-289 | the id is not stored any more, the others are as before; a change is reported if and only if it had configurations |
| `Autodiscover.Manager.OnEvent` | autodiscover/autodiscover.go:135-152 | an event with start, stop or both is those steps of the state machine in order; a stop leaves nothing for its id, a start alone the accepted hashes, and other ids stay |
| `Autodiscover.Manager.AllConfigs` | autodiscover/autodiscover.go:158-163 | the list handed to Reload wants exactly the union of the desired hashes |
| `Autodiscover.Manager.OnTimer` | autodiscover/autodiscover.go:154-183 | a tick is the timer step for the hashes the factory is able to create; kept runners are the same instances |
| `Autodiscover.Manager.Work` | autodiscover/autodiscover.go:129-186 | the worker loop runs the state machine on every arrival in order: events as their starts and stops, each tick as one timer step |
| `PipelineChecks.TableByType` | fileset/compatibility.go:38-115 | running the table in order is what the entries for the processor's type say, also after a convert has become a grok |
| `PipelineChecks.AdaptedOutcome` | fileset/compatibility.go:280-297 | when a processor is refused and when it is dropped |
| `PipelineChecks.AdaptedAccepted` | fileset/compatibility.go:312-429 | what comes through has no type or option that the table rejects, under its new name too |
| `PipelineChecks.AcceptedUnchanged` | fileset/compatibility.go:280-297 | what the table accepts comes through unchanged |
| `PipelineChecks.AdaptersKeepTheRest` | fileset/compatibility.go:314-416 | the adapters touch only the options they are about: an existing guard of a set stays, that of an append is only extended, and an ip conversion becomes a grok on the same field |
| `PipelineGuards.SetGuardIff` | fileset/compatibility.go:314-343 | a set gets a condition if and only if it has the option, a text value and no condition; it says that the trimmed, null-safe path of the value is there |
| `PipelineGuards.AppendGuardIff` | fileset/compatibility.go:345-391 | an append gets one if and only if duplicates are forbidden, field and value are texts and no condition mentions "contains" in any case; it keeps what stood there, or else tests the value, and tells the null-safe field and value apart |
| `PipelineGuards.TrimmedIff` | fileset/compatibility.go:333-334 | trimming leaves exactly what stands between opening braces and blanks and closing ones |
| `PipelineGuards.NullSafeJoins` | fileset/compatibility.go:335 | the parts of a dotted path joined by "?." |
| `PipelineGuards.OtherOptionsStay` | fileset/compatibility.go:30-116 | a processor that survives keeps every option that the entries for its type and version are not about, and loses its description exactly before 7.9 |
| `PipelineChecks.BeforeIff` | fileset/compatibility.go:30-116 | a version check with a minor release means earlier majors and earlier minors |
| `PipelineChecks.AdaptedInTwoSteps` | fileset/compatibility.go:38-115 | for one processor a newer version in between makes no difference |
| `PipelineTheorems.ParseOfMap` | fileset/compatibility.go:125-143 | a processor printed as a map parses back to itself |
| `PipelineTheorems.MapOfParse` | fileset/compatibility.go:194-199 | whatever parses prints as it was |
| `PipelineTheorems.AdaptedIsFine` | fileset/compatibility.go:240-300 | after adapting, no processor at any depth has anything the table rejects for the version, and no list of handlers is empty without being nil |
| `PipelineTheorems.UnchangedIffFine` | fileset/compatibility.go:237-303 | a processor tree is returned unchanged if and only if it is fine and no list of handlers within reach is empty without being nil |
| `PipelineTheorems.FailsIffBroken` | fileset/compatibility.go:224-297 | adapting fails if and only if some reachable processor is malformed or refused |
| `PipelineTheorems.SurvivorsInOrder` | fileset/compatibility.go:237-303 | adapting a list adds nothing and keeps the order of what it keeps, so a foreach never gets two inner processors |
| `PipelineSurvival.DroppedIff` | fileset/compatibility.go:257-297 | a processor is dropped if and only if it can be adapted and the table deletes it, or it is a foreach whose inner processor is dropped; handlers have no say |
| `PipelineSurvival.SurvivorBecomes` | fileset/compatibility.go:242-299 | a processor survives if and only if it is neither broken nor deleted, and becomes what `Becomes` says of its tree: own options adapted, kept handlers in order, the handler list gone exactly when all of a non-empty one go, inner processor adapted |
| `PipelineSurvival.BecomesOne` | fileset/compatibility.go:242-299 | there is only one such tree |
| `PipelineSurvival.PipelineBecomes` | fileset/compatibility.go:213-303 | both sections of an adapted pipeline hold exactly the kept processors, adapted and in order |
| `PipelineTheorems.AdaptOneTwice` | fileset/compatibility.go:240-300 | for trees, adapting to a newer version first and then to the older gives what adapting to the older gives |
| `PipelineTheorems.NewVersionsAreFine` | fileset/compatibility.go:38-115 | from 7.13.0 on a tree is fine if and only if it is not broken |
| `PipelineTheorems.PipelineIsFine` | fileset/compatibility.go:213-221 | an adapted pipeline is fine, has no empty list that is not nil, and everything outside its two sections is left alone |
| `PipelineTheorems.PipelineUnchangedIff` | fileset/compatibility.go:213-304 | a pipeline is returned unchanged if and only if it is fine and no list within reach is empty without being nil |
| `PipelineTheorems.EmptyListTurnsNil` | fileset/compatibility.go:237-302 | for every version an empty list of processors comes back as nil |
| `PipelineTheorems.PipelineIdempotent` | fileset/compatibility.go:213-304 | adapting again to the same version changes nothing |
| `PipelineTheorems.PipelineInTwoSteps` | fileset/compatibility.go:213-304 | for v <= w, if adapting to v succeeds, adapting to w and then to v succeeds with the same result |
| `PipelineTheorems.NewerFirstHidesAFailure` | fileset/compatibility.go:247-297 | the converse fails: for all v before 6.7 and w from 6.7 to before 7.12 a concrete processor fails for v but is dropped for w |
| `PipelineTheorems.NewVersionsKeepPipelines` | fileset/compatibility.go:213-304 | from 7.13.0 on a pipeline that can be adapted is returned as it is if and only if no list within reach is empty without being nil |
| `PipelineTheorems.NewVersionsOnlyNil` | fileset/compatibility.go:240-303 | from 7.13.0 on a processor tree that can be adapted is returned with its empty lists of handlers made nil and nothing else changed |
| `PipelineAdapter.NewProcessor` | fileset/compatibility.go:125-143 | computes `Parse`, errors included |
| `PipelineAdapter.Check` | fileset/compatibility.go:280-297 | the loop over the table computes `RunChecks` |
| `PipelineAdapter.AdaptProcessor` | fileset/compatibility.go:242-299 | the body of the loop, with handlers and inner processor, computes `AdaptOne` |
| `PipelineAdapter.AdaptProcessors` | fileset/compatibility.go:237-303 | the loop computes `AdaptList`, stopping at the first error |
| `PipelineAdapter.AdaptSectionOf` | fileset/compatibility.go:223-304 | missing and malformed sections, and the adapted one, nil when nothing is left |
| `PipelineAdapter.AdaptPipelineForCompatibility` | fileset/compatibility.go:213-221 | computes `AdaptPipeline`; on success the result is fine for the version and has no empty list that is not nil |
| `Dashboards.WalkWell` | dashboards/kibana_loader.go:189-228 | without a cycle within reach the walk sends new good assets once each, references before referrers, the path last; it fails if and only if something within reach is missing or bad; marks stay closed under references either way |
| `Dashboards.WalkSendsTheReachable` | dashboards/kibana_loader.go:189-228 | a walk that goes well sends exactly what is reachable and not marked, and the path, and marks exactly what it followed |
| `Dashboards.MarksStayClosed` | dashboards/kibana_loader.go:150-179 | the marks are closed under references after every series of imports, failed ones included |
| `Dashboards.SuccessfulImport` | dashboards/kibana_loader.go:150-179 | after a success everything reachable was sent in this call or marked before |
| `Dashboards.MarksTellUploadsIff` | dashboards/kibana_loader.go:150-179 | marks equal uploads if and only if the version is not supported, or the first unmarked references lead to a missing or bad asset, or all assets are good and the upload goes through or there is nothing new to mark |
| `Dashboards.NothingMarkedIff` | dashboards/kibana_loader.go:198-218 | a walk that fails marks nothing new if and only if following the first unmarked reference each time leads to the missing or bad asset |
| `Dashboards.MarksTellUploadsAlong` | dashboards/kibana_loader.go:150-179 | over every series of such calls marks equal uploads, and uploaded is exactly what a successful import reaches |
| `Dashboards.LostUnlessRoot` | dashboards/kibana_loader.go:203-205 | an asset marked but not uploaded is uploaded by a later series if and only if some call imports it as its own root and succeeds |
| `Dashboards.RetryLosesAnAsset` | dashboards/kibana_loader.go:168-177 | a concrete retry sends a dashboard without the search it refers to, which never arrives |
| `Dashboards.KibanaLoader.AddReferences` | dashboards/kibana_loader.go:189-228 | the recursive loop computes `Walk`, result and marks |
| `Dashboards.KibanaLoader.Import` | dashboards/kibana_loader.go:150-179 | version check, reading, walk, upload and mark, as `ImportDashboard` |
| `DashboardCycles.AcyclicEnds` | dashboards/kibana_loader.go:198-218 | without a cycle within reach the recursion is no deeper than the number of reachable assets and computes `Walk` |
| `DashboardCycles.TrapNeverEnds` | dashboards/kibana_loader.go:198-218 | a walk into a set of assets that refer into the set never ends well at any depth, and marks none of them |
| `DashboardCycles.EndsIffNoCycle` | dashboards/kibana_loader.go:189-228 | with good assets and no marks the recursion ends if and only if no cycle is within reach |
| `DashboardCycles.EndsIffItLeadsToEnd` | dashboards/kibana_loader.go:198-218 | from any marks closed under references, bad assets included: the recursion ends if and only if following, each time, the first reference that does not lead to good assets without an unmarked cycle comes to an asset that is missing, unparsable or has no such reference |
| `DashboardCycles.SucceedsIffFine` | dashboards/kibana_loader.go:189-228 | and it ends with success if and only if everything within reach is good and no unmarked cycle is |
| `Unicode.DecodeOfUtf8` | common/bytes.go:108-125 | encoding scalar values gives well-formed UTF-8 that decodes to them |
| `Unicode.Utf8OfDecode` | common/bytes.go:130-131 | whatever decodes is the encoding of what it decodes to |
| `Unicode.TextIsDecoded` | common/bytes.go:130-131 | on well-formed text the characters of a Go string are its decoding |
| `Unicode.NulIsNul` | common/bytes.go:130-131 | the zero byte, and nothing else, stands for NUL, in ill-formed text too |
| `Unicode.FromBytesOfBytes` | common/bytes.go:130-135 | little-endian bytes of units read back as the units |
| `Unicode.LowByteFirst` | common/bytes.go:130-135 | the low byte of every unit comes first |
| `Transcoding.OutputWellFormed` | common/bytes.go:94-128 | for every input, lone and broken surrogates included, the output is well-formed UTF-8 and reads back as the characters written |
| `Transcoding.OutputBound` | common/bytes.go:94-128 | at most three bytes are written for every two read |
| `Transcoding.RunesOfUtf16` | common/bytes.go:101-126 | text comes back from UTF-16 up to its first NUL |
| `Transcoding.RoundTrip` | common/bytes.go:94-135 | every text comes back from UTF-16 bytes up to its first NUL, with ill-formed bytes replaced |
| `Transcoding.RoundTripIff` | common/bytes.go:94-135 | it comes back as it was if and only if it is well formed and has no NUL |
| `Transcoding.UnbrokenDecodes` | common/bytes.go:101-126 | without a broken pair before the first NUL the output is the standard decoding up to it |
| `Transcoding.StandardIffUnbroken` | common/bytes.go:112-120 | without NUL the output is the standard decoding if and only if no pair is broken |
| `Transcoding.BrokenPairSwallows` | common/bytes.go:112-120 | concrete inputs that lose a letter and a terminating NUL |
| `Transcoding.NulHidesABrokenPair` | common/bytes.go:103-120 | a concrete input with a swallowed NUL on which both decodings agree by accident |
| `ByteBuffers.ByteBuffer.Write` | sys/buffer.go:34-46 | appends all of its argument, grown or not, and nothing is truncated |
| `ByteBuffers.ByteBuffer.Reset` | sys/buffer.go:48-52 | empty, with the whole store available |
| `ByteBuffers.ByteBuffer.Reserve` | sys/buffer.go:73-84 | holds n bytes: those of the old store if they fit, zeros of a new one otherwise |
| `ByteBuffers.BufferPool.Take` | sys/bufferpool.go:34-40 | a waiting or a new buffer, empty either way, sharing its store with no waiting one |
| `ByteBuffers.BufferPool.Free` | sys/bufferpool.go:42-48 | the buffer waits with the others |
| `ByteBuffers.UTF16ToUTF8Bytes` | common/bytes.go:94-128 | an error if and only if the length is odd; otherwise appends exactly the transcoded text, within bounds |
| `ByteBuffers.UTF16BytesToString` | sys/strings.go:27-38 | the text does not depend on what the pooled buffer held |
| `ByteBuffers.RoundTripThroughPool` | sys/strings.go:27-38 | whatever the pool holds, a text comes back if and only if it is well formed and has no NUL |
| `Caches.CleanUpIsInvisible` | common/cache.go:115-228 | erasing every clean-up from a run with a nondecreasing clock leaves the answers of all other operations the same, in both expiry modes |
| `Caches.ValueStaysUntilDeadline` | common/cache.go:47-55 | a stored value is found exactly until its deadline, whatever happens to other keys and however often the cache is cleaned |
| `Caches.SizeSeesCleanUp` | common/cache.go:230-236 | the size is not invisible: a clean-up changes it if and only if something stored has expired |
| `Caches.ClockGoingBackShows` | common/cache.go:47-50 | with a clock that goes back a clean-up shows: a concrete run |
| `CacheWrites.WrittenIsFound` | common/cache.go:277-290 | after a successful Put, PutIfAbsent or Replace the new value is found exactly until its deadline, whatever happens to other keys; without access expiry that is the time of the write plus the timeout given, or the default if none is |
| `CacheWrites.DeletedIsGone` | common/cache.go:189-195 | after a delete nothing is found under the key at any time until it is put again |
| `CacheWrites.AbsentUntilBrought` | common/cache.go:115-195 | an absent or expired key is not found again until it is put again |
| `CacheWrites.FoundAsBefore` | common/cache.go:115-228 | what is found under a key does not depend on operations on other keys or on clean-ups |
| `CacheWrites.UnwrittenChangesNoValue` | common/cache.go:124-176 | PutIfAbsent on a live key, Replace on an absent one and storing nil change no value |
| `CacheWrites.AnswerIsLookup` | common/cache.go:115-195 | every operation on a key answers what was found before, except that storing nil panics where something would be stored |
| `CacheWrites.EntriesAreLookups` | common/cache.go:218-228 | the entries are what lookups at the times of the readings find |
| `CacheWrites.CleanUpTells` | common/cache.go:201-215 | a clean-up takes out, and tells, exactly what has expired when it is looked at |
| `Caches.Cache.Find` | common/cache.go:264-274 | the live value, prolonged on access expiry |
| `Caches.Cache.Store` | common/cache.go:277-290 | stores with the given or the default timeout; nil is refused and changes nothing |
| `Caches.Cache.PutWithTimeout` | common/cache.go:148-154 | a `Put` step, with its panic on nil |
| `Caches.Cache.PutIfAbsentWithTimeout` | common/cache.go:124-134 | a `PutIfAbsent` step |
| `Caches.Cache.ReplaceWithTimeout` | common/cache.go:166-176 | a `Replace` step |
| `Caches.Cache.GetValue` | common/cache.go:180-185 | a `Get` step |
| `Caches.Cache.DeleteKey` | common/cache.go:189-195 | a `Delete` step |
| `Caches.Cache.CleanUpAll` | common/cache.go:201-215 | in any order of visits exactly the expired elements go; the listener hears of exactly those and the count is theirs |
| `Caches.Cache.AllEntries` | common/cache.go:218-228 | in any order of visits exactly the live elements |
| `Names.SplitOfJoin` | processors/namespace.go:49 | dot-free components are recovered from a dotted name |
| `Names.PrefixOfSplit` | processors/namespace.go:49 | component-wise prefixes are the dotted prefixes |
| `Namespaces.Namespace.Add` | processors/namespace.go:56-87 | succeeds if and only if no registered path equals, is a prefix of or extends the new one; then adds exactly it; on failure no object of the trie changes; no namespace in the trie is ever empty |
| `Namespaces.Namespace.Register` | processors/namespace.go:47-54 | the same for dotted names |
| `Namespaces.ClashOfNames` | processors/namespace.go:47-54 | paths clash if and only if the names are equal or one is a dotted prefix of the other |
| `Namespaces.Namespace.RegisteredPrefixFree` | processors/namespace.go:56-87 | the trie always represents a prefix-free set of names |
| `Namespaces.Section` | processors/namespace.go:91-107 | finds the one section a configuration sets, or fails if and only if there is none |
| `Namespaces.Namespace.Resolve` | processors/namespace.go:89-122 | finds the constructor registered under the name a nested configuration spells; fails if and only if it spells none |
| `Namespaces.FoundOnce` | processors/namespace.go:89-122 | a configuration names at most one processor |
| `Fields.GetKeys` | mapping/field.go:402-422 | the accumulating loop computes `Keys`, histogram keys included |
| `Fields.KeysAreTheLeaves` | mapping/field.go:402-422 | the keys are the dotted names of the leaves in order, each histogram's two keys after its field |
| `Fields.GetFieldIff` | mapping/field.go:371-395 | finds a field if and only if it is the leaf at that path in the tree that lookups see, which has of siblings with one name only the first |
| `Fields.HasKeyIffLeaf` | mapping/field.go:345-369 | true if and only if the path is a leaf of that tree |
| `Fields.HasKeyIffListed` | mapping/field.go:284-291 | HasKey and GetKeys agree on plain names |
| `Fields.HasNodeIff` | mapping/field.go:307-333 | true if and only if the path is a node of that tree or lies below a leaf |
| `Fields.ContainsIffNode` | mapping/field.go:469-472 | a key is refused as contained if and only if it is a node of that tree |
| `Fields.NotAnObjectIff` | mapping/field.go:473-478 | a key is refused as below a non-object if and only if a proper prefix is a leaf of that tree that is not an object |
| `Fields.Conflicts` | mapping/field.go:444-453 | collects the conflict of every key in order |
| `Fields.ConcatFields` | mapping/field.go:426-442 | computes `Concat`, empty lists included |
| `Fields.ConcatSucceedsIff` | mapping/field.go:424-482 | two non-empty lists concatenate if and only if no key of the second is a node of the first's tree or below one of its non-object leaves, repeated names included |
| `Fields.DisjointIffGuarded` | mapping/field.go:424-442 | success means disjoint keys for every second list if and only if every key of the first list is a node, or below a non-object leaf, of the tree that lookups see |
| `Fields.PlainIsGuarded` | mapping/field.go:455-482 | lists with unique, non-empty, dot-free names and no histograms do |
| `Fields.UniqueIsWhole` | mapping/field.go:465-480 | where sibling names are unique that tree is the list itself |
| `Fields.ConcatKeepsKeys` | mapping/field.go:439-441 | then the result has the keys of both in order, and they share none |
| `Fields.DottedNamesMiss` | mapping/field.go:455-482 | a concrete list with a dotted name that concatenates with itself |
| `Fields.HistogramsMiss` | mapping/field.go:415-418 | a histogram concatenates with every list whose key is its values key, although that is among its own keys |
| `Fields.ChainsMiss` | mapping/field.go:465-480 | for all names x, y, z: after two concatenations a key is there twice |
| `TemplateMerging.ProcessConcat` | template/processor.go:73-174 | processing a concatenation is processing one list after the other, up to the first error |
| `TemplateMerging.GroupStep` | template/processor.go:232-262 | a group processes its fields on the properties already there and replaces its mapping |
| `TemplateMerging.MergeGroups` | template/processor.go:232-262 | two consecutive groups, or nested fields, of one name and settings mean what one with both field lists means: same error, analyzers, default fields and template keys and, without an error, same output and same templates, in content and in what they share |
| `TemplateTidying.ProcessProper` | template/processor.go:238-249 | outputs stay trees of objects, and the error that properties are not a map cannot come |
| `TemplateTidying.TidiedMeansTheSame` | template/processor.go:67-175 | merging all runs of alike groups at every depth keeps everything that is generated |
| `TemplateTidying.TidiedIsTidy` | template/processor.go:232-262 | and leaves no two alike groups side by side |
| `TemplateCollections.ProcessGrows` | template/processor.go:504-532 | collections are only added to in order, no dynamic template is recorded twice, and a recorded one keeps its key and changes only by ceasing to share |
| `TemplateCollections.GeneratedKey` | mapping/field.go:337-343 | the generated key is the components of the name with "properties" between them |
| `TemplateSharing.ProcessConfined` | template/processor.go:238-259 | processing fields leaves alone every template that shares nothing below their output, and new templates share only what stands below it |
| `TemplateSharing.ProcessLeads` | template/processor.go:145-155 | after any fields, failing ones included, every template that shares properties below the place finds them in the output, and not empty |
| `TemplateGaining.TemplatesOnlyGain` | template/processor.go:238-259 | whatever fields are processed, failing ones included, no template loses a property, be it that it shares the output, stops sharing it or never did |
| `TemplateIndependence.ProcessAlongside` | template/processor.go:504-532 | output, error, analyzers and default fields do not depend on the templates known; the new templates are those collected from nothing, less the known ones; and templates in front that agree go on to agree, whatever else is known |
| `TemplateIndependence.ProcessApart` | template/processor.go:232-262 | nor do error, analyzers and default fields depend on the output, nor the new templates unless a group among the fields becomes one |
| `TemplateExplicit.ExplicitGroupsMergeThere` | template/processor.go:238-259 | with properties there, two explicit groups that are otherwise alike generate what one with both field lists generates if and only if the first fails, templates are unsupported, it has nothing to record, its key is known, the second's first new template would be its template, or the second's fields bring neither a template nor an error and are not the first to bring a property |
| `TemplateExplicit.ExplicitGroupsMergeNew` | template/processor.go:145-155 | without properties there: if and only if the first fails, templates are unsupported, it has nothing to record, or the second's fields leave the first's templates as they are, collect the same with and without the first's properties, and its template is known or comes first in any case |
| `TemplateQuiet.QuietAddsUpThere` | template/processor.go:238-259 | on properties that are there, an explicit group whose fields define no template and no analyzer at any depth adds up with any explicit group before it |
| `TemplateQuiet.PlainGroupsMergeIff` | template/processor.go:145-155 | without properties there and no explicit group in either field list: known, or the second's first new template is the same, or its fields bring no error, no new template and no new property |
| `TemplateQuiet.QuietAddsUpNewIff` | template/processor.go:145-155 | and if the second's fields define no template and no analyzer: known, or they bring no new property |
| `TemplateExamples.ExplicitAfterGroup` | template/processor.go:238-259 | behind any group of the same name that left properties such groups add up |
| `TemplateExamples.ExplicitGroupsDoNotMerge` | template/processor.go:146-151 | for all names, on an empty output: two explicit groups with a leaf each do not generate what one with both generates |
| `TemplateExamples.SharedInsideDoesNotMerge` | template/processor.go:254-259 | for all names: when the first holds a group and an explicit group of one name and the second adds to them, two groups do not generate what one generates, whether or not the template of the first is known |
| `TemplateVisits.ProcessFollows` | template/processor.go:67-186 | on every tree, errors included: processing fails if and only if two definitions of an analyzer clash on the walk over the tree, and collects exactly the analyzers, default fields and object-type templates of the fields the walk comes by; a clash among multi-fields only ends these |
| `TemplateVisits.CollectedFromTree` | template/processor.go:177-186 | where analyzers agree: the default fields added are, in order, the dotted names from the root of exactly the keyword, text, match_only_text and wildcard fields that are indexed and whose nearest setting is true, multi-fields included; the templates that match by path are those of the object types, with the dotted name from the root and ".*" if it has no star |
| `TemplateLeaves.InOutputIff` | template/processor.go:86-155 | without explicit groups, an entry that no leaf lies above is in the output if and only if it was there or some field brings it; aliases only with the migration, histograms only where known, groups with settings or with something inside |
| `TemplateLeaves.OnlyWhatIsBrought` | template/processor.go:398-424 | on every tree, errors and explicit groups included, nothing else comes into the output |
| `TemplateLeaves.ShownIsThere` | template/processor.go:145-155 | what a field brings and no later leaf covers is in the output |
| `TemplateLeaves.ShownAsItIs` | template/processor.go:145-155 | and the last leaf about an entry is what stands there, with its settings and its multi-fields |
| `TemplateLeaves.GroupEntry` | template/processor.go:223-262 | the entry of a group has its dynamic setting, the nested type exactly for nested fields, the new properties and nothing else |
| `TemplateLeaves.LeafRecorded` | template/processor.go:145-151 | a leaf that is an explicit template is recorded under its name with its mapping where that is supported, and stays out of the output |
| `TemplateProcessor.Processor.Process` | template/processor.go:67-175 | the loop over the fields computes `Templates.Process`, partial effects on an error included |
| `TemplateProcessor.Processor.ProcessField` | template/processor.go:74-172 | one round of it |
| `TemplateProcessor.Processor.ProcessGroup` | template/processor.go:232-262 | a group: the properties already there, its fields, its mapping, and where its properties are shared |
| `TemplateProcessor.Processor.Place` | template/processor.go:145-155 | the mapping becomes a template that shares the group's properties if they stand in the output, or goes into the output, where a leaf ends the sharing of what it overwrites |
| `TemplateProcessor.Processor.AddDynamicTemplate` | template/processor.go:504-532 | recorded in order unless its key is known; index and list agree |
| `TemplateProcessor.Processor.AddToDefaultFields` | template/processor.go:177-186 | the full name is appended unless the field is not indexed |
| `TemplateProcessor.Processor.AddObjectTypes` | template/processor.go:441-483 | one dynamic template per known object type, named and matched by path |
| `TemplateProcessor.Processor.PutAnalyzers` | template/processor.go:157-172 | a redefinition is written and then refused if it differs |

## Left out

- State stores: SafeWaitGroup is taken to refuse Add after Close and to wait for all Done, one owner closes each handle,
  and Store.Close's Add, Close and Done are one step. A failing backend Access changes nothing and is not a step.
- Runner lists: HashConfig is any partial function of the configuration; each reload comes with the hashes for which the
  factory is able to create a runner. Runners stop in some order, one after the other. The counters moduleStarts,
  moduleStops and moduleRunning belong to the process; the class keeps what its own list contributes, and
  `CountersAlongHistory` adds the lists up. Status reporters, diagnostics and logging are not modelled.
- Autodiscover: CheckConfig's answer comes with each proposed configuration. The metadata store and the debounce times
  are not modelled; after Stop the model makes no claim.
- `PipelineAdapter.AdaptSectionOf`: the configuration maps are values, so that a pipeline left half-changed by an error is
  not described.
- `PipelineChecks.AdaptersKeepTheRest`: a target field that is not text is printed as a fixed string, not as Go prints it.
- Pipelines: the guards written in Painless are strings without a meaning. Text is lower-cased only where that gives an
  ASCII letter, which is all that the search for "contains" (fileset/compatibility.go:362) can see.
- `PipelineTheorems.PipelineInTwoSteps`: says nothing when adapting straight to the older version fails, because going
  through a newer one can then succeed by dropping what fails, as `NewerFirstHidesAFailure` shows.
- Dashboards: files are read from a map that does not change, references are resolved to paths beforehand, and the text
  of an asset is represented by its path. `Dashboards` requires that no cycle is within reach of a dashboard;
  `DashboardCycles` shows what happens otherwise.
- `Transcoding.UnbrokenDecodes`: one direction only on inputs with NUL, because the two decodings can agree by accident
  there, as `NulHidesABrokenPair` shows.
- Buffers: capacity is unbounded; buffers dropped by the garbage collector's clearing of the pool are not modelled
  beyond `Take` being free to give a new one.
- Cache: operations are atomic, although Get prolongs elements under a read lock only; the janitor is any sequence of
  clean-ups. Durations do not overflow.
- Namespaces: conditions ("when") are skipped, not evaluated; `Constructors` is not modelled.
- Fields: loading from YAML and validation are not modelled; error texts are reduced to the kind of conflict and the key.
- Templates: scalar settings of a leaf (index, doc_values, copy_to, meta, ignore_above, scaling factor, norms, type) are
  taken as rendered for the version. Writing to and reading from a mapstr follows the components of a dotted key; keys
  that are stored with dots, and analyzer names with dots, are not modelled.
- `TemplateMerging.MergeGroups`: after an error, when nothing is generated, outputs and what templates hold are not
  compared, because a group that was put in place before the error is in one output and not in the other, and a template
  may share the map around it. The keys of the templates are compared.
- `TemplateTidying.TidiedMeansTheSame`: after an error as `TemplateMerging.MergeGroups`.
- `TemplateExplicit.ExplicitGroupsMergeThere`: after an error as `TemplateMerging.MergeGroups`.
- `TemplateExplicit.ExplicitGroupsMergeNew`: after an error as `TemplateMerging.MergeGroups`.
- `TemplateProcessor.Processor.Process`: the output is a value that is passed on, not a map that is changed in place. Of
  the sharing between maps only that of templates with the output shows, and is kept by places; ceasing to share is a step
  here and none in the program.
- HTTP, Kibana, Elasticsearch and file access, command line and configuration loading, event types, idxmgmt, licenser,
  conditions, failover and the ebpf watcher are not part of this model.
