# Verified models of the AgentCore accelerator

Dafny models of the parts of this repository whose correctness is not visible in any one
function, with proofs of what those parts are for.

- **Migration approval and cutover readiness** (`infra_utils/platform_config.py`). Five
  stages each carry a time-limited gate and a plan digest; the traffic digest chains
  over the others. `MigrationModel` holds the configuration and its cross-field rules,
  `MigrationPlan` the five plan documents, `MigrationBinding` and `MigrationDigests`
  what a digest fixes and what it forgets, `MigrationReadiness` the stage checks and the
  theorems about time; `MigrationFields` and `MigrationRules` read readiness and the
  loader's rules off the fields of the file. The documents are serialised by a full
  model of `json.dumps` (`Json`, with the strings of section 7 of RFC 8259) over sorted
  keys (`Canonical`, `Sorting`), so "the digest binds the plan" is proved down to the
  characters that are hashed; only SHA-256 itself is a parameter.
- **The invocation gate** (`dashboard/server.py`): a sliding-window limiter and a
  bounded semaphore as a class, and the threads that use it as a state machine in which
  any step may raise (`InvocationGates`). `RuntimeAnswer` is the dashboard's reading of
  a runtime's answer, `AnswerShown` the same from the side of who writes it.
- **The migration adapter** (`migration/adapter/adapter.py`): the restart-once
  supervisor against every interleaving with process exits and invocations
  (`ChildSupervisor`, and read off its history `SupervisorHistory`), the bounded wait at
  start-up and the live probe (`HealthProbes`), and the child's environment
  (`LegacyEnv`, `LegacyText`).
- **Configuration transport**: `to_env` against `apply_environment_overrides` as a lens
  (`EnvTransport`), what each variable's text does (`EnvFields`), and `expected_stacks`
  against the stacks and dependencies `app.py` builds (`Stacks`).
- **Policy templates** (`infra_utils/policy_loader.py`): the sentinel pattern
  (`Tokens`), the leftover check on serialised JSON (`LeftoverScan`), the algebra of
  substitution (`Substitution`, and for text with stray brackets `SplicedTokens`), the
  two loaders (`PolicyLoader`).
- **Tool verification** (`scripts/invoke.py`): the verdict over decoded events
  (`ToolVerdict`), the same read off fields and paths (`VerdictFields`), and the
  line-wise event reader (`SseEvents`), which takes each `data:` line as one event, a
  subset of section 9.2.6 of the WHATWG HTML standard.
- **Source hashing** (`infra_utils/source_hash.py`): `SourceHash`, `SourceHashLaws`.
- **The manifest editor** (`scripts/usecase.py`): `ManifestEdit`, and its result line by
  line for every layout of the file (`ManifestCases`).

`Text` has the Python string operations the others use. Code that changes state or loops
in the source is a class or a method here, proved against a function; laws are proved
about that function. Times are integers of microseconds in the migration model and real
numbers in the gate and the probes. `dafny verify dfyconfig.toml` checks everything.

## Where the code does less than its words

These are proved, each with its exact condition or a concrete case.

- The gate reads its clock before taking its lock, so its window is 60 seconds only up
  to the age of that reading (`RateBound`, tight by `RateBoundIsTight`), and it can
  refuse a caller who is within the rate: exactly when (`WronglyRefusedIff`,
  `GateCanErrIff`), and by which run (`RacedHistoryRefusesTooMuch`).
- An exception between the slot being taken and the handler's flag being set, or in the
  `finally` before the release, loses a slot for good (`SlotsComeBackIff`,
  `AllSlotsLost`, `AnySlotsCanBeLost`).
- No digest covers `deployment.federation` or `use_cases`: they can change under a ready
  cutover (`FederationIsNotBound`).
- `load_control` promises no unresolved token, but a token with a tab or newline inside
  its brackets passes its check (`LoadedWithATokenIff`,
  `TabHidesATokenFromTheJsonCheck`); `load_control_text` has no such gap.
- Substituting twice is substituting once except where the first pass leaves a leaf that
  is one token and whitespace (`SubstTwiceIff`, `BlankValuesDoNotCompose`). In text with
  stray brackets a value can complete a token (`SecondPassIffNotSpliced`,
  `StrayBracketsBreakIdempotence`).
- A flag given as `True` is on for `expected_stacks` and off for `app.py`
  (`ContractParity`, `TrueIsMisread`).
- The legacy `KEY=VALUE` text loses commas in one decoder, and commas and trailing
  whitespace in the other (`AppRoundTrip`, `AdapterRoundTrip`).
- `alive()` can say yes of a process that is gone: while the supervisor is inside
  `wait()`, CPython's `poll()` does not look (`AliveMeansRunning`, `AliveMayBeStale`).
- A payload can be forwarded after the child has been given up, since the evidence is
  gathered earlier: exactly when (`ForwardIsLateIff`, `SomeoneAnswersIff`), and by which
  run (`ForwardMayComeTooLate`).
- Adding a use case to a populated block that ends in an unterminated line glues the
  entry to that line (`EntryLandsInBlockIff`, `EditKeepsEveryLineIff`,
  `SecondRunOnText`, `UnterminatedBlockRunsOut`).
- Nothing keeps two use cases from declaring one stack (`NamesAreDistinctIff`,
  `NamesCanClash`).
- The hash's list of excluded directories and extensions is matched against whole
  directory names only, so `pkg.egg-info` is hashed (`EggInfoIsSeen`).
- A file's hash does not separate its path from its bytes (`NameRunsIntoBytes`); moving,
  renaming or editing one file still shows (`MovedFileShows`, `EditedFileShows`).

## Model

| member | source | states |
|---|---|---|
| InvocationGates.InvocationGate.constructor | dashboard/server.py:76-86 | a new gate has no history and all its slots |
| InvocationGates.InvocationGate.Acquire | dashboard/server.py:88-98 | evicts from the front, then admits exactly when the history is short and a slot is free; an exception leaves some pops done, or the slot taken and the reading not appended |
| InvocationGates.InvocationGate.Release | dashboard/server.py:100-101 | returns one slot; releasing more than was taken is the semaphore's error and changes nothing |
| InvocationGates.DoPost | dashboard/server.py:519-629 | with an exception possible in the checks, inside acquire, before the flag, in the work and before the release: the slots are as before except for exactly the fates that cost one |
| InvocationGates.EvictionIsExactIff | dashboard/server.py:91-92 | popping the front is dropping every reading older than 60 seconds if and only if no stale reading stands behind a fresh one |
| InvocationGates.EvictionCounts | dashboard/server.py:91-94 | the length the limiter compares is the number of fresh readings plus the stale ones that stand behind a fresh one |
| InvocationGates.EvictionNeverForgetsFreshReadings | dashboard/server.py:91-92 | on any history, ordered or not, eviction keeps every reading of the last 60 seconds |
| InvocationGates.WronglyRefusedIff | dashboard/server.py:88-98 | a caller within the rate is refused if and only if a slot is free and the stale readings behind fresh ones fill what is left of the rate; an admission is never wrong |
| InvocationGates.GateAdmitsIff | dashboard/server.py:88-98 | over all runs: who enters promptly is admitted if and only if a slot is free and the admissions of the last 60 seconds and those stale readings are fewer than per_minute |
| InvocationGates.RacedHistoryRefusesTooMuch | dashboard/server.py:88-94 | for every delta above zero, a run of racing threads that leaves a gate which refuses a caller within the rate |
| InvocationGates.GateCanErrIff | dashboard/server.py:88-98 | some run does that if and only if a reading can be older than its lock, per_minute is at least 2 and there is a slot |
| InvocationGates.RateBound | dashboard/server.py:88-98 | in every run, if each clock reading is at most delta old when its lock is entered, any window of 60 - delta seconds of lock time has at most per_minute admissions |
| InvocationGates.RateBoundIsTight | dashboard/server.py:88-98 | for every longer window there is a run with one admission more, so the bound cannot be improved |
| InvocationGates.ExceptionsStrikeAnywhere | dashboard/server.py:519-629 | an exception may strike at every point of a handler before its finally block, and no handler is done but by that block |
| InvocationGates.SlotConservation | dashboard/server.py:519-629 | in every run, with an exception possible at each step, slots in use are the handlers between their acquire and their finally plus the slots lost so far, never more than concurrent, never released twice |
| InvocationGates.SlotsComeBackIff | dashboard/server.py:576-629 | once all handlers are done every slot is back if and only if no exception struck between the slot being taken and the flag being set, or in the finally before the release |
| InvocationGates.AllSlotsLost | dashboard/server.py:95-97 | once every slot is lost no caller is ever admitted again |
| InvocationGates.AnySlotsCanBeLost | dashboard/server.py:88-97 | any number of slots, up to all, can be lost: a run that ends with all handlers done and that many gone |
| InvocationGates.QuietGateAdmits | dashboard/server.py:88-98 | after 60 quiet seconds a free slot is enough for the next call to be admitted |
| InvocationGates.PromptGateIsExact | dashboard/server.py:88-98 | with prompt locks the gate admits if and only if fewer than per_minute admissions are in the last 60 seconds and a slot is left |
| RuntimeAnswer.ParseRuntimeResponse | dashboard/server.py:344-414 | display text of at most 24000 characters and at most 40 trace entries: the literal after the agent marker, or else the scan of the decoded objects, or else the whole body; raises exactly when the scan meets a type that cannot be looked up |
| RuntimeAnswer.ScanLines | dashboard/server.py:360-400 | the line loop computes the scan of the objects among the decoded lines and stops when the trace is full |
| RuntimeAnswer.TextStays | dashboard/server.py:312-336 | the text of an event is unchanged when everything but the framework's text fields is erased, at every depth of wrapping |
| RuntimeAnswer.TraceStays | dashboard/server.py:372-398 | so is its trace entry, when all but names, types and codes is erased |
| RuntimeAnswer.SameShownSameDisplay | dashboard/server.py:344-414 | two bodies that differ only in erased parts, of their events or of the one object they are, are displayed alike |
| RuntimeAnswer.ToolResultsAreRemoved | dashboard/server.py:313-317 | the erased parts include tool results, foreign messages and every field no rule reads |
| RuntimeAnswer.InnerPartsAreRemoved | dashboard/server.py:301-309 | of the assistant's own message they include all but role and content, and of a list of content all but the texts of its blocks |
| RuntimeAnswer.OuterPartsAreRemoved | dashboard/server.py:328-398 | and so it is with the content of a typed message; of a tool in use only the name is left |
| AnswerShown.UtteranceIsRead | dashboard/server.py:312-336 | an utterance written in any of the seven known shapes, wrapped to any depth, is read back whatever fields follow it, unless one of those is read first |
| AnswerShown.TurnsAreScanned | dashboard/server.py:360-400 | while the trace has room, the scan takes texts and trace entries of a stream in order |
| AnswerShown.StreamIsShown | dashboard/server.py:344-414 | of a stream the display shows what was said, in order, and traces the tools called and the errors, in order; with nothing said, and no document either, the fixed sentence |
| AnswerShown.FullTraceStops | dashboard/server.py:397-402 | with the fortieth entry the reading stops, whatever else the stream holds |
| AnswerShown.UnhashableRaises | dashboard/server.py:369-374 | an event whose type is a list or an object makes the reading raise, if it gets there |
| AnswerShown.LongBodyIsCut | dashboard/server.py:346 | of a body only the first 24000 characters are read |
| AnswerShown.DocumentIsShown | dashboard/server.py:404-414 | a body that is one document shows its one utterance |
| AnswerShown.MarkedTextIsShown | dashboard/server.py:350-357 | a body with the agent marker shows what follows it without the whitespace around it, as a literal if it is one |
| ChildSupervisor.Child.constructor | migration/adapter/adapter.py:189-196 | a new child has no process and no restart used |
| ChildSupervisor.Child.Start | migration/adapter/adapter.py:198-208 | a successful Popen makes one more process and points the field at it; a failed one changes nothing |
| ChildSupervisor.Child.PumpStderr | migration/adapter/adapter.py:210-213 | the tail is the last 50 lines ever read |
| ChildSupervisor.Child.Supervise | migration/adapter/adapter.py:215-228 | for every list of exits: one restart on the first, giving up on the second, the thread dead if Popen raises, and the processes and restarts that leaves |
| ChildSupervisor.LoopIsTheMachine | migration/adapter/adapter.py:215-228 | for every list of exits the machine of all interleavings has a run in which the supervisor does the same |
| ChildSupervisor.AtMostTwoStarts | migration/adapter/adapter.py:215-228 | over all interleavings: at most two processes ever; given up only after two observed exits, with nothing running |
| ChildSupervisor.GivingUpIsFinal | migration/adapter/adapter.py:221-226 | once given up, nothing runs again, and every call that asks is refused |
| ChildSupervisor.AliveMeansRunning | migration/adapter/adapter.py:230-231 | three unlocked reads at three moments, yet a yes means the polled process is current, the only one that can be running, and the child not given up; and it is running unless the supervisor is still waiting to be told of its exit |
| ChildSupervisor.AliveMayBeStale | migration/adapter/adapter.py:215-231 | a run in which the answer is yes when no process is left |
| SupervisorHistory.HistoryFixesState | migration/adapter/adapter.py:198-231 | in every run the counts of what has happened fix processes, restarts, verdict and the supervisor's place, and each call is on the one way to a forward or was refused on it |
| SupervisorHistory.EnabledInHistory | migration/adapter/adapter.py:198-231 | and which step may come next: no interleaving is held back |
| SupervisorHistory.HealthIsTold | migration/adapter/adapter.py:230-231 | a call reads that the child is healthy if and only if the supervisor has not decided twice |
| SupervisorHistory.ProcessIsTold | migration/adapter/adapter.py:230-231 | that there is a process if and only if one was started |
| SupervisorHistory.LifeIsTold | migration/adapter/adapter.py:230-231 | and that it is alive if and only if the current process has not exited or the supervisor is inside wait() |
| SupervisorHistory.ProbeIsTold | migration/adapter/adapter.py:370-382 | and it goes on exactly on a passing probe |
| SupervisorHistory.ForwardNeedsEvidence | migration/adapter/adapter.py:360-383 | no payload is forwarded unless that same call read the child healthy, then a process there, was told it is alive, and then saw a passing probe |
| SupervisorHistory.ForwardedOnce | migration/adapter/adapter.py:360-383 | and none twice |
| ChildSupervisor.FirstExitIsRepaired | migration/adapter/adapter.py:218-228 | after a first exit three supervisor steps lead to a second running process |
| ChildSupervisor.ForwardIsLateIff | migration/adapter/adapter.py:360-383 | in every run, when a call is forwarded: the process it asked about is running if and only if it was when polled and has not exited since, and the child has been given up if and only if the supervisor has decided twice |
| ChildSupervisor.SomeoneAnswersIff | migration/adapter/adapter.py:360-383 | some process is there to take the call if and only if that one is, or it was replaced by one that has not exited |
| ChildSupervisor.ForwardMayComeTooLate | migration/adapter/adapter.py:360-383 | a run in which a call is forwarded after both processes are gone |
| HealthProbes.LiveHealthTimeout | migration/adapter/adapter.py:174-183 | for every reading of the variable, a timeout above 0 and at most 5 seconds, the given one where it is in range |
| HealthProbes.CheckChildHealth | migration/adapter/adapter.py:273-290 | healthy exactly by the declared or undeclared rule, escaping exactly on an exception it does not name; the request's own timeout is between 0.05 and 5 seconds |
| HealthProbes.AnswersMean | migration/adapter/adapter.py:250-264 | which answers end the wait at start-up, and which escape it |
| HealthProbes.ProbeTimeoutMeans | migration/adapter/adapter.py:251-254 | a request of the wait may take what is left until the deadline, at least 0.05 and at most 2 seconds |
| HealthProbes.TurnTakes | migration/adapter/adapter.py:247-265 | a turn takes what its steps take and the sleep in full |
| HealthProbes.WaitForChild | migration/adapter/adapter.py:234-270 | ends at the first turn past the deadline, given up, accepted or raising, no earlier and no later, and within a bounded number of turns |
| HealthProbes.WaitIsBounded | migration/adapter/adapter.py:247-265 | if each request respects its timeout, the wait is over before deadline + 0.05 + interval, plus what the scheduler lost in one turn |
| HealthProbes.BoundIsTight | migration/adapter/adapter.py:247-265 | environments that come as close to that bound as one likes |
| HealthProbes.ReadyMeansAccepted | migration/adapter/adapter.py:249-264 | the wait returns normally if and only if some request made in time, before giving up or an exception that is not caught, is accepted |
| HealthProbes.WaitIsDetermined | migration/adapter/adapter.py:249-264 | one environment allows one outcome |
| LegacyEnv.ParsePairs | migration/adapter/adapter.py:67-78 | the loop computes the pairs, skipping blank items, and stops at the first item without an equals sign |
| LegacyEnv.EnvNameMeans | infra_utils/platform_config.py:530 | which names a declared variable may have, by code point |
| LegacyEnv.AppRoundTrip | app.py:233-238 | app.py's decoder returns what to_env printed if and only if no value holds a comma |
| LegacyEnv.AdapterRoundTrip | migration/adapter/adapter.py:67-78 | parse_pairs does if and only if no value holds a comma or ends in whitespace |
| LegacyEnv.AdapterImpliesApp | app.py:233-238 | where the adapter's decoder is right, app.py's is |
| LegacyEnv.LegacyTextIsAmbiguous | infra_utils/platform_config.py:1908-1911 | a value with a comma prints like two entries |
| LegacyEnv.JsonTextIsLossless | infra_utils/platform_config.py:1905-1907 | the JSON transport is the same text only for the same map |
| LegacyEnv.BuildChildEnv | migration/adapter/adapter.py:95-144 | the child's map: secrets over declared values over the adapter's own environment, and nothing else |
| LegacyText.TextIsRead | migration/adapter/adapter.py:67-78 | entries with whitespace around keys and at their ends, and blank items between them, are read as exactly those entries, a later one replacing an earlier one, or else the first item that is no entry is complained of |
| LegacyText.ChildIsGivenText | migration/adapter/adapter.py:95-99 | that is what the child is given, unless there is JSON |
| LegacyText.ChildIsGivenJson | migration/adapter/adapter.py:95-98 | which comes first |
| LegacyText.NothingDeclared | migration/adapter/adapter.py:95-99 | with neither, nothing is declared |
| EnvTransport.ApplyOverrides | infra_utils/platform_config.py:1726-1816 | putting the tables variable by variable gives the configuration overlaid and validated, or the first flag that is neither true nor false |
| EnvTransport.PutTable | infra_utils/platform_config.py:1765-1767 | one table's loop overlays exactly its given variables |
| EnvTransport.PutFlags | infra_utils/platform_config.py:1782-1788 | the flags' loop does the same or reports the first bad flag |
| EnvTransport.PutSpecials | infra_utils/platform_config.py:1790-1802 | web search and the model list, each by its own rule |
| EnvTransport.TablesAgree | infra_utils/platform_config.py:1842-1886 | the two functions' separate tables name the same setting for every variable |
| EnvTransport.PutGet | infra_utils/platform_config.py:1726-1816 | to_env of the result shows every given variable in its normal form |
| EnvTransport.FlagsComeBack | infra_utils/platform_config.py:1782-1799 | a given flag always shows, lower-cased |
| EnvTransport.PutFrame | infra_utils/platform_config.py:1635-1640 | every other variable shows as before, except that an automatic web search follows a region that was given |
| EnvTransport.GetPut | infra_utils/platform_config.py:1842-1923 | applying a configuration's own environment gives it back with web search settled, where its numbers are read back from their printed form |
| EnvTransport.ResolvedIsLegal | infra_utils/platform_config.py:1575-1579 | a configuration that passed validation passes it with web search settled |
| EnvTransport.ResolvedPrintsAlike | infra_utils/platform_config.py:1635-1640 | settling web search does not change what is printed |
| EnvTransport.PutPut | infra_utils/platform_config.py:1726-1816 | applying e1 and then e2 is applying their merge with e2 winning: the same configuration or the same refusal |
| EnvTransport.EmptyIsAbsent | infra_utils/platform_config.py:1736-1738 | an empty value counts as an absent one |
| EnvFields.AllowListFromText | infra_utils/platform_config.py:1797-1801 | model names with whitespace around them and blank items between, joined by commas, set the allow-list to exactly those names in order |
| EnvFields.EveryTextIsSlots | infra_utils/platform_config.py:1797-1801 | and every text is of that form |
| EnvFields.RefusalInFields | infra_utils/platform_config.py:1782-1796 | refused if and only if some flag is given a text that is neither true nor false, and that flag is the one reported |
| EnvFields.AppliedInFields | infra_utils/platform_config.py:1726-1816 | a configuration results if and only if no flag is refused, each setting is what its variable puts or what it was, and the rules hold, web search being settled in production |
| Stacks.FederatedRole | infra_utils/platform_config.py:1698-1716 | standalone exactly outside the federated strategy; an error exactly for an account on neither side |
| Stacks.ExpectedStacks | infra_utils/platform_config.py:1642-1696 | the full list for this role when every need of every use case names a core stack of the list, or else the wrong account or the first use case with a need that names none |
| Stacks.MetIsNamed | infra_utils/platform_config.py:1684-1694 | a need is met if and only if the prefix with its name is among the core names of the list |
| Stacks.CoreSpelledOut | infra_utils/platform_config.py:1661-1678 | the core names, stack by stack, from the flags and the role |
| Stacks.CoreList | infra_utils/platform_config.py:1661-1678 | the core stacks that exist, in the canonical order |
| Stacks.AddUseCases | infra_utils/platform_config.py:1684-1695 | use cases in sorted order, each after its needs were checked |
| Stacks.MakeCore | app.py:396-781 | app.py makes the core stacks its own flags and role call for, in the same order |
| Stacks.DependencyPairs | app.py:551-833 | the dependency table, pair by pair |
| Stacks.WireServices | app.py:551-634 | identity, memory and gateway wait for exactly the existing stacks of the dependency table |
| Stacks.WireRuntimes | app.py:705-781 | so do the runtimes |
| Stacks.WireObservability | app.py:825-833 | so does observability |
| Stacks.BuildApp | app.py:64-104 | app.py's whole build or its refusal; the production gate behind the configuration never fires for a manifest |
| Stacks.CfgIsConfig | app.py:74-81 | a text setting reaches app.py as the overridden configuration has it |
| Stacks.FlagIsConfig | app.py:102-104 | a flag does unless it is given in a spelling of true that app.py does not read |
| Stacks.MisreadMeans | infra_utils/platform_config.py:1785-1788 | which are exactly the spellings other than lower case |
| Stacks.WithoutAManifest | app.py:64-104 | without a manifest the flags and names are the environment's, or the defaults: a2a on, networking and security off |
| Stacks.TrueIsMisread | app.py:102-104 | such as True, for every flag |
| Stacks.ContractParity | infra_utils/platform_config.py:1642-1696 | app.py builds exactly what expected_stacks lists, in the same order, if and only if no flag that matters to the role is misread |
| Stacks.ListIsADeployOrder | app.py:551-833 | the list has every stack after all stacks app.py makes it wait for |
| Stacks.UseCasesCannotPoseAsCore | infra_utils/platform_config.py:1365-1371 | the uc- prefix keeps use-case stacks from taking a core stack's name |
| Stacks.NamesAreDistinctIff | infra_utils/platform_config.py:1642-1696 | all names of the list differ if and only if no suffix is declared twice by the enabled use cases |
| Stacks.NamesCanClash | infra_utils/platform_config.py:1365-1371 | two manifests that validate and clash |
| Tokens.MatchMeans | infra_utils/policy_loader.py:36 | the matcher finds exactly the texts the pattern describes, whatever follows them |
| Tokens.WordMeans | infra_utils/policy_loader.py:36 | which characters a name has, by code point |
| Tokens.SearchSomewhere | infra_utils/policy_loader.py:36 | a search succeeds exactly when some position matches |
| Tokens.FindAllMeans | infra_utils/policy_loader.py:36 | findall gives exactly the names of the tokens that stand somewhere in the text |
| Tokens.FindAllApart | infra_utils/policy_loader.py:36 | and over a boundary no token reaches across, first those of the one side and then those of the other |
| LeftoverScan.ScanFindsPerString | infra_utils/policy_loader.py:111-117 | what is found in json.dumps is what is found in each key and string leaf, in order, with only U+0020 inside a token's brackets |
| LeftoverScan.ScanIsPerString | infra_utils/policy_loader.py:111-117 | the check on json.dumps fires if and only if some key or string leaf holds a token with only U+0020 inside |
| Substitution.SubLeaves | infra_utils/policy_loader.py:103-107 | in clean text, what substitution leaves is the list of tokens the parameters do not cover, so a covering map leaves none |
| Substitution.SubThenSub | infra_utils/policy_loader.py:103-107 | on one clean string, p and then q is one pass with p winning |
| Substitution.SubstIdempotent | infra_utils/policy_loader.py:86-108 | on a clean tree with bracket-free values a second pass changes nothing |
| Substitution.SubstTwiceIff | infra_utils/policy_loader.py:86-108 | on a clean tree with bracket-free values, p and then q is one pass with p winning if and only if no leaf comes down to one token of q with whitespace around it |
| Substitution.SubstComposes | infra_utils/policy_loader.py:86-108 | which values that are not blank ensure |
| Substitution.BlankValuesDoNotCompose | infra_utils/policy_loader.py:98-101 | a blank value can turn the rest of a string into a whole token, which then becomes a raw value |
| Substitution.SubFixedIff | infra_utils/policy_loader.py:103-107 | any text stays as it is if and only if it holds no token the parameters cover |
| SplicedTokens.CoveredTokenIffSpliced | infra_utils/policy_loader.py:103-107 | after a first pass over any text a covered token stands there if and only if neighbouring characters and values of the text spell one |
| SplicedTokens.SecondPassIffNotSpliced | infra_utils/policy_loader.py:103-107 | so a second pass changes nothing if and only if none is spliced, as none is in clean text |
| Substitution.StrayBracketsBreakIdempotence | infra_utils/policy_loader.py:103-107 | in text with stray brackets a replacement can complete a new token |
| PolicyLoader.ResolveParams | infra_utils/policy_loader.py:66-83 | caller values, then defaults; the sorted missing names exactly when a required name has neither |
| PolicyLoader.ResolutionIsUnique | infra_utils/policy_loader.py:66-83 | that description has one answer |
| PolicyLoader.LoadControl | infra_utils/policy_loader.py:120-141 | a loaded document is the substituted one and has no token with only spaces inside, in any key or leaf; a refusal names exactly the tokens there are |
| PolicyLoader.LoadControlText | infra_utils/policy_loader.py:158-192 | a loaded text is the substituted one and has no token at all; a refusal names exactly those there are |
| PolicyLoader.RefusedExactlyWhenUncovered | infra_utils/policy_loader.py:111-141 | a clean control is refused if and only if a key holds a token or a leaf's token, of those the check can see, has no parameter |
| PolicyLoader.LoadedIsFreeIff | infra_utils/policy_loader.py:86-141 | the substituted document is free of tokens, whatever their whitespace, if and only if no key holds one and every token of a leaf has a parameter |
| PolicyLoader.LoadedWithATokenIff | infra_utils/policy_loader.py:111-141 | a control is loaded with a token left in it if and only if every token the check can see is covered and some other is not, or is in a key |
| PolicyLoader.TextRefusedExactlyWhenUncovered | infra_utils/policy_loader.py:178-191 | a clean text is refused if and only if some token has no parameter |
| PolicyLoader.KeyTokenAlwaysRefused | infra_utils/policy_loader.py:93-94 | a token in a key is refused whatever the parameters |
| PolicyLoader.TabHidesATokenFromTheJsonCheck | infra_utils/policy_loader.py:112 | a leftover token with a tab inside passes one check and fails the other |
| ToolVerdict.ValidateToolResult | scripts/invoke.py:238-300 | the two accumulators and the four checks give the declarative verdict, or fail on an event that is not an object |
| ToolVerdict.Tally | scripts/invoke.py:247-282 | the loop collects exactly the calls and reports of all events, at every depth |
| ToolVerdict.TallyEvent | scripts/invoke.py:251-282 | one turn of it |
| ToolVerdict.Conclude | scripts/invoke.py:284-300 | the checks after it, in order |
| ToolVerdict.AcceptedMeans | scripts/invoke.py:238-246 | accepted if and only if the tool has a result, none of its results failed, and any marker occurs in one of them |
| ToolVerdict.OrderAndRepetitionDoNotMatter | scripts/invoke.py:250-300 | the verdict depends only on which events occur |
| ToolVerdict.PermutedEventsJudgeAlike | scripts/invoke.py:250-300 | in particular not on their order |
| ToolVerdict.ToolFreeEventsDoNotMatter | scripts/invoke.py:250-300 | events that neither call nor report change nothing |
| ToolVerdict.FailureIsPermanent | scripts/invoke.py:294-295 | no later event undoes a failed result, and only a failure overturns acceptance |
| ToolVerdict.ValidateRuntimeSuccess | scripts/invoke.py:208-235 | fails exactly when nothing was decoded or some object anywhere reports a failure |
| VerdictFields.WalkIsEveryPath | scripts/invoke.py:176-184 | the walk yields exactly the objects some path of keys and indices leads to |
| VerdictFields.VerdictInFields | scripts/invoke.py:238-300 | the verdict is failed if and only if some result of a called id, anywhere in any event, has a status that lower-cases to error or isError true; and so for the other verdicts |
| VerdictFields.AcceptedInFields | scripts/invoke.py:238-300 | accepted if and only if some result belongs to a call of the tool, none failed, and one has the marker in its content, if one is asked for |
| VerdictFields.TroubleInFields | scripts/invoke.py:208-235 | an application failure if and only if some object anywhere has one of the three statuses, or a code of at least 400 and an error |
| SseEvents.ReadEvents | scripts/invoke.py:187-195 | the loop yields the decodable data lines in order |
| SseEvents.BreakMeans | scripts/invoke.py:187-195 | where lines end, by code point |
| SseEvents.EventsSurvive | scripts/invoke.py:187-195 | events written one a line, however the lines end, among keepalives, other fields and data that does not decode, are read back in order, where json.loads reads back each of them |
| SseEvents.DecodedPayloads | scripts/invoke.py:198-205 | the one document of a body, or else its events |
| SseEvents.PayloadsSurvive | scripts/invoke.py:198-205 | so a document yields itself and a stream its events |
| SseEvents.StreamBinds | scripts/invoke.py:187-195 | whatever the parser, the text of a stream fixes its events and their order |
| Json.DumpsInjective | infra_utils/platform_config.py:1940-1946 | json.dumps gives different values different texts |
| Json.EscapeMeans | infra_utils/platform_config.py:1940-1946 | how each character is written: the two-letter escapes, printable ASCII as it is, and otherwise its code unit, or a pair of surrogates, in hexadecimal |
| Json.QuotedUnique | infra_utils/platform_config.py:1940-1946 | a quoted string ends where its own closing quote is |
| Canonical.CanonicalBinds | infra_utils/platform_config.py:1940-1946 | the hashed text fixes the document up to the order of keys |
| Canonical.CanonicalIgnoresFieldOrder | infra_utils/platform_config.py:1940-1946 | and does not depend on that order |
| Sorting.SortCanonical | infra_utils/platform_config.py:802-804 | sorted() forgets the order its input came in, when equal keys mean equal elements |
| Sorting.SortBinds | infra_utils/platform_config.py:1964-1967 | and nothing else |
| MigrationDigests.TrafficDigestBinds | infra_utils/platform_config.py:2054-2091 | barring a collision among the documents compared, two traffic digests are equal if and only if the cutovers agree on everything bound, including which stages are required |
| MigrationDigests.StageDigestsAgree | infra_utils/platform_config.py:1949-2051 | the same, if and only if, for the runtime, network, data and trigger digests |
| MigrationDigests.DigestsAreCanonical | infra_utils/platform_config.py:1964-2027 | every digest is unchanged by permuting secrets, workload accounts, dependencies, resolvers, subnets, security groups or datasets |
| MigrationBinding.SourceBinds | infra_utils/platform_config.py:1975-2005 | the source block's text fixes the source, up to the order of secrets |
| MigrationBinding.EnvAgrees | infra_utils/platform_config.py:1975-2005 | the environment's text fixes the environment as a map |
| MigrationBinding.DatasetsBind | infra_utils/platform_config.py:1961-1972 | the datasets' text fixes them up to order |
| MigrationReadiness.DeadlineIsLeast | infra_utils/platform_config.py:733-743 | the deadline is the least expiry of the gates |
| MigrationReadiness.ClosedForm | infra_utils/platform_config.py:2309-2328 | cutover is ready at t if and only if a condition without the clock holds and t is before the least required expiry |
| MigrationReadiness.ReadinessDecays | infra_utils/platform_config.py:2516-2521 | once lost, readiness never returns |
| MigrationReadiness.ReadinessLastsAtMostAWeek | infra_utils/platform_config.py:683-714 | it ends within 7 days of every required approval, none of which is later than the traffic approval |
| MigrationReadiness.TamperEvidence | infra_utils/platform_config.py:2239-2288 | two ready configurations that share a traffic gate listing one digest are the same cutover |
| MigrationReadiness.ReadinessFollowsTheCutover | infra_utils/platform_config.py:2094-2328 | readiness depends on nothing but that cutover and the gates |
| MigrationReadiness.FederationIsNotBound | infra_utils/platform_config.py:1975-2005 | the federation block and the use cases can change under a ready cutover |
| MigrationReadiness.DigestsIgnoreGates | infra_utils/platform_config.py:1949-2091 | all five digests are independent of every gate |
| MigrationReadiness.ApprovalFixpoint | infra_utils/platform_config.py:2094-2306 | every valid configuration with a requested cutover and complete receipts can be approved into a valid file that is ready for exactly 7 days |
| MigrationReadiness.OnlyRequestedAndProvenCutoversAreReady | infra_utils/platform_config.py:2239-2258 | no gates make an unrequested cutover, or one without receipts, ready |
| MigrationFields.StatusInFields | infra_utils/platform_config.py:2094-2328 | the status of each of the five stages, from the fields: not required, ready or blocked |
| MigrationFields.ReadyInFields | infra_utils/platform_config.py:2094-2328 | cutover is ready if and only if it is requested, both receipts are filled in, and every stage asked for has an unexpired approval of its digest no later than the traffic approval |
| MigrationFields.ApprovableInFields | infra_utils/platform_config.py:843-854 | those receipts are all that is needed: the file can then be approved and is ready for exactly 7 days |
| MigrationFields.UnapprovableInFields | infra_utils/platform_config.py:843-854 | and no gates make up for a missing one |
| MigrationRules.PlanInFields | infra_utils/platform_config.py:1204-1282 | the validators of the records together allow exactly these plans: shadow and safety mode by trigger, canary or switch by trigger, packaging by mode, retained data behind declared dependencies, a known account |
| MigrationRules.GateInFields | infra_utils/platform_config.py:650-714 | a gate is valid if and only if its texts are tidy and short enough, two different people sign it, and it has no dates or is complete and lasts at most 7 days |
| MigrationRules.ReadyCutoverIsSafe | infra_utils/platform_config.py:2309-2328 | a ready cutover of a valid file obeys all these rules, and each stage asked for was approved by someone other than its owner at most 7 days before |
| SourceHash.HashFile | infra_utils/source_hash.py:41-48 | hashing in 8192-byte chunks is hashing the path and the whole content |
| SourceHash.Walk | infra_utils/source_hash.py:33-49 | the walk with its sorted, pruned directories appends the hashes of the listing, in order |
| SourceHash.WalkFiles | infra_utils/source_hash.py:36-49 | one directory's files |
| SourceHash.WalkFolders | infra_utils/source_hash.py:33-35 | its subdirectories |
| SourceHash.ComputeSourceHash | infra_utils/source_hash.py:28-50 | placeholder, empty, or the short hash of all hashes |
| SourceHash.ComponentImageTag | infra_utils/source_hash.py:53-67 | computes the tag that TagBinds and TreesBind are about |
| SourceHashLaws.ListingHolds | infra_utils/source_hash.py:33-49 | the listing holds exactly the kept files below kept directories |
| SourceHashLaws.ListingAscends | infra_utils/source_hash.py:35-36 | in one strict order of paths |
| SourceHashLaws.SameFilesSameDigest | infra_utils/source_hash.py:28-50 | two trees with the same kept files have the same digest |
| SourceHashLaws.ListingOrderDoesNotMatter | infra_utils/source_hash.py:33-39 | permuting every directory and changing what is excluded changes nothing |
| SourceHashLaws.UnseenIff | infra_utils/source_hash.py:33-39 | one more entry goes unseen if and only if no kept file can be reached in it |
| SourceHashLaws.KeptMeans | infra_utils/source_hash.py:10-40 | which names of files and directories are left out |
| SourceHashLaws.ExcludedIsUnseen | infra_utils/source_hash.py:11-25 | as with the listed directories, compiled files, logs and .DS_Store |
| SourceHashLaws.EggInfoIsSeen | infra_utils/source_hash.py:10-25 | but not with a directory whose name only ends in a listed one |
| SourceHashLaws.CombinedTextBinds | infra_utils/source_hash.py:49-50 | barring a collision, the combined text is equal if and only if every file's stream is |
| SourceHashLaws.DigestBinds | infra_utils/source_hash.py:28-50 | and so is the digest |
| SourceHashLaws.NameRunsIntoBytes | infra_utils/source_hash.py:42-46 | moving characters from a name into the bytes goes unseen |
| SourceHashLaws.DigestIsShort | infra_utils/source_hash.py:28-50 | the digest is the first 16 characters of a hash if some kept file can be reached, and one of two fixed words otherwise |
| SourceHashLaws.TagIsShort | infra_utils/source_hash.py:53-67 | without a pattern the tag is the digest, with one the first 16 characters of a hash |
| SourceHashLaws.TagTextBinds | infra_utils/source_hash.py:62-66 | the tag's text fixes both digest and pattern |
| SourceHashLaws.TagBinds | infra_utils/source_hash.py:53-67 | barring a collision, two images of a pattern have one tag if and only if their sources have one digest and the pattern is the same |
| SourceHashLaws.TreesBind | infra_utils/source_hash.py:28-67 | for two trees: if and only if every file's stream and the pattern are the same |
| SourceHashLaws.StreamFixesPath | infra_utils/source_hash.py:41-46 | with the same bytes two files have one stream if and only if they have one path, names holding no slash |
| SourceHashLaws.MovedFileShows | infra_utils/source_hash.py:28-50 | barring a collision, moving or renaming one kept file changes the digest |
| SourceHashLaws.EditedFileShows | infra_utils/source_hash.py:28-50 | so does changing its bytes |
| SourceHashLaws.AddedFileShows | infra_utils/source_hash.py:28-50 | and adding one or taking one away |
| ManifestEdit.EnableInManifest | scripts/usecase.py:78-114 | leaves a text that names the use case, and otherwise makes the edit of one of three branches |
| ManifestEdit.ScanBlock | scripts/usecase.py:104-108 | finds the end of the block |
| ManifestEdit.EditKeepsEveryLine | scripts/usecase.py:88-112 | every line that is not blank is kept in order, a header at most re-spaced, and only the entry (with its key, where there was none) is new |
| ManifestEdit.EditKeepsEveryLineIff | scripts/usecase.py:88-112 | in an existing block that is so if and only if the block does not run into an unterminated line; then that line is lost to the entry |
| ManifestEdit.EntryLandsInBlockIff | scripts/usecase.py:88-112 | the entry stands on a line of its own under a key line, with only blank or indented lines between, if and only if the block does not run into an unterminated line |
| ManifestEdit.SecondRunOnText | scripts/usecase.py:84-85 | a second run changes nothing, unless and only unless the populated block ran into an unterminated line that is not blank |
| ManifestEdit.UnterminatedBlockRunsOut | scripts/usecase.py:101-109 | a text for which it does not |
| ManifestEdit.NewlineIsEnough | scripts/usecase.py:101-109 | which a final newline rules out |
| ManifestCases.NamedMeans | scripts/usecase.py:84 | the name is found if and only if some line is whitespace, the name and a colon, the whitespace on it or on a blank line above |
| ManifestCases.HeaderMeans | scripts/usecase.py:86 | which lines are headers of an empty block |
| ManifestCases.FilledCase | scripts/usecase.py:86-98 | every line of the result when the first header has braces or nothing indented below it |
| ManifestCases.FilledWhen | scripts/usecase.py:86-90 | that branch is taken if and only if the text has that layout |
| ManifestCases.AppendedCase | scripts/usecase.py:99-109 | every line when there is a block to append to and it ends within the text |
| ManifestCases.GluedCase | scripts/usecase.py:99-109 | and when it runs to the end of an unterminated text |
| ManifestCases.AddedCase | scripts/usecase.py:110-111 | every line when the key is not there |

## Left out

- EnvTransport.GetPut: that each of the configuration's own numbers is read back from its printed form is a hypothesis, since float parsing is a parameter.
- SseEvents.EventsSurvive: so is that json.loads reads back each event written.
- SHA-256 is a parameter. "Binds" results assume no collision among the documents being compared, and the hexadecimal shape of the output where a gate stores it.
- Each gate reads the clock for itself in the source; here one evaluation has one time. By the closed form the result differs only if a gate expires during the evaluation.
- Strings are sequences of Unicode scalar values; lone surrogates, `str.isprintable` in gate text and full case folding (ASCII lower-casing here) are not modelled.
- ARN, hostname, URL, model-id and placeholder checks, and every other single-field shape rule, are predicates or left out; the cross-field rules of the migration block are in.
- The wording of readiness details, errors and warnings, and all renderers.
- Context overrides of CDK, which outrank the environment in `app.py`, and the rotation flags of the M2M credential.
- What the CDK stacks contain, and what a use case's `build` does beyond making the stacks it declares.
- boto3, HTTP and process calls: their outcomes are inputs. Reading a child's stderr and waiting for its exit are steps of the environment.
- Stacks.BuildApp: the list of stacks is kept as components and named at the end, where `app.py` names each as it makes it.
- SourceHash.ComputeSourceHash: symbolic links and files that change while they are read.
- ManifestEdit.EnableInManifest: line breaks other than newline, which `str.splitlines` also honours, and whether the edited text is still the YAML meant (a `use_cases` block in flow style is not).
- A `data:` event spread over several lines, which the standard joins and the source reads line by line.
- RuntimeAnswer.ParseRuntimeResponse: `ast.literal_eval` is a parameter, and what it raises besides SyntaxError and ValueError is not modelled.
- The stream of a forwarded call, the same-origin and request checks of the dashboard beyond their outcome, and its monitor: readable branch by branch.
