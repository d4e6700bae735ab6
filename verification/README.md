# TraceCore in Dafny

TraceCore runs an agent against a small simulated world under hard budgets and a sandbox,
records every step, and later verifies, replays, compares, migrates and indexes the recorded
artifacts. This project models that machinery and proves what it keeps. `dafny verify
dfyconfig.toml` checks everything.

## How the model is laid out

- `Values`, `Text`, `Order`: JSON-like values, Python's string operations, its stable sort.
- `Paths`, `RootLaws`, `Network`, `HostLaws`, `EnvSpec`, `Environment`, `Listings`: path
  normalisation and what a root covers, the host guard and what it records, the guarded
  environment as functions and as the objects `Environment` and `GuardedEnv`, and directory
  listings.
- `Failures`, `Budgets`, `RunnerSpec`, `Runner`, `CrashLaws`, `RunnerLaws`, `TraceLaws`: the episode loop.
  `RunnerSpec` has it as functions over arbitrary stateful agents, actions, setups and
  validators; `Runner` has the imperative loop and proves that it computes the same;
  `CrashLaws` has when an exception leaves it, `RunnerLaws` what every run keeps, `TraceLaws`
  what its trace and result tell.
- `Artifacts`, `Bundle`, `BundleLaws`, `SandboxLaws`, `Replay`, `ReplayLaws`, `Diff`,
  `DiffLaws`: artifacts as JSON, bundles and their verification, the sandboxes under which
  every run verifies, the three replay checks, and run diffs, each tied to a declarative
  relation and to what the runner emits.
- `Phrase`, `ChainService`, `ChainLaws`, `RateService`, `ChainAgent`, `HandshakeTask`,
  `HandshakeRun`, `HandshakeSafety`, `HandshakeLaws`, `ChainRuns`, `LineSafety`, `Scripts`: the two handshake
  services, the agent that talks to them, and their composition through the runner.
- `LogStream`, `LogStreamRuns`, `LogStreamSetup`: the log-stream agent, all its runs, and the
  streams its setup can draw.
- `Shipped`: the three tasks with their own sandbox, budgets and setup values, end to end.
- `Migration`, `Metrics`, `Leaderboard`, `LeaderboardLaws`, `LlmShims`: the artifact
  normaliser, recovery times, the leaderboard index and the completion shim.

Objects that the source updates in place are classes here; their methods are proved against
functions on values, and the laws are proved about those functions.

## What the results assume

- Budgets are not negative.
- An exception that the loop does not catch leaves the run (`Crashed`). `CrashLaws.RunCrashes`
  says exactly when that happens: only when setup, agent, marking or validator raises, never
  because of the result the runner builds.
- A sandbox declares both lists. Which sandboxes make guard and offline check agree is a
  result (`SandboxLaws.AccessesAgreeIff`), not an assumption.
- Artifacts are dictionaries whose trace is a list of dictionaries where the source would
  otherwise raise.
- Agents, actions and validators do not change a value that they were given or that they have
  handed over. The runner passes the very dictionary that it records: an agent that sets
  `obs["step"] = 7` in `observe` forges the step of its own entry, and one that deletes the key
  makes the run raise.
- SHA-256 and the signature are arbitrary functions to text without spaces, JSON writing and
  reading is the identity on the values that are written, texts hold no lone surrogates, and
  clocks, run ids and the parsing of time stamps and of JSON text in action arguments are
  parameters. The results about the shipped tasks ask that time stamps hold no line separator.

## Where the code does less than it seems to

- `verify_bundle` cuts the rows of a bundle with `splitlines`, which also splits at U+0085,
  U+2028 and U+2029, and the writer leaves these characters as they are. An agent that plays
  the text U+2028 has its bundle rejected under every sandbox, although both replay checks
  accept it (`ReplayLaws.SeparatorRejected`). So the bundles of all runs
  of a task verify only where no step can be taken (`SandboxLaws.RunsVerifyIff`). A single run
  verifies exactly when no text in its rows holds such a character and the offline check
  allows what it recorded (`SandboxLaws.RunVerifies`); the shipped tasks never write one.
- A host that was let through can be recorded in a form that the same allowlist rejects.
  "http:// :.:" is recorded as ":" under an allowlist with "*", names with a colon come
  out of "*.example.com" in the same way, and "[::1]" is recorded as "::1"
  (`Network.BracketedLiteralRejectedOffline`). Guard and offline check agree on all hosts
  exactly when the allowlist has no wildcard that can match a name and each entry that can be
  recorded passes its own check (`HostLaws.HostsAgreeIff`).
- A sandbox root can be guarded in another form than it is declared in. Guard and offline
  check agree on all paths exactly when the declared roots cover the guarded ones
  (`Paths.OfflineAgreesIffCovered`). A task manifest normalises its roots first, so that only
  "." without "/" fails, and "//", for which no guard can be built
  (`Paths.ManifestRootsCovered`); a task that comes from a plugin loader can also declare "app"
  (`Paths.RelativeRootDisagrees`).
- All runs of a task record only what the offline check allows exactly when its sandbox meets
  both conditions or no action can be called (`SandboxLaws.RunsInsideIff`).
- `sign_bundle` signs the digests and then changes the manifest and the digests: the signature
  fits the file beside it only if the digest of the manifest stayed the same
  (`BundleLaws.SignatureCoversOldDigests`).
- The chain service takes a commit without id and response before any handshake. The token can
  be had that way on every service whose required payload asks for no handshake id
  (`ChainLaws.BareCommitGrants`), so also on the one the task sets up
  (`Shipped.BareCommitAsShipped`); `ChainLaws.GrantExplained` says which grants are earned.
- For failed runs strict replay asks more than replay: a condition on the two exits
  (`ReplayLaws.StrictIsReplay`).
- `normalize_path` is not idempotent on "." (`Paths.NormalizeIdempotent`).
- The agent cannot read a code with a newline, a trailing dot or space, or, against the chain
  service, a placeholder (`ChainRuns.ChainSucceedsIff`). The codes of the setups are fine.
- An audit entry with an empty text field does not survive its key (`Diff.EntryRoundTrip`).

## Model

| member | source | states |
|---|---|---|
| Paths.NormalizedShape | agent_bench/env/filesystem.py:8-17 | a path that normalises becomes an absolute text with exactly the components the input had, without a parent step |
| Paths.NormalizeIdempotent | agent_bench/env/filesystem.py:8-17 | normalising twice is normalising once, except exactly for relative paths made of "." only, which end at "/" |
| Paths.FixedRootsCovered | agent_bench/env/environment.py:16-20 | roots that normalise to themselves are guarded as declared and cover what the guard admits |
| Paths.OfflineAgreesIffCovered | agent_bench/env/environment.py:124-139 | guard and offline check agree on every path exactly when the declared roots cover the guarded ones; what a root covers is RootLaws.RootCovers |
| Paths.ManifestRootsCovered | agent_bench/tasks/registry.py:49-70 | roots normalised by a manifest are covered exactly when none is the empty text and "/." does not stand without "/" |
| Paths.RelativeRootDisagrees | agent_bench/tasks/loader.py:66-75 | a loader's root "app" is declared as it is and guarded as "/app", so that the offline check rejects what the guard let through |
| RootLaws.ComponentsRead | agent_bench/env/filesystem.py:8-17 | the components of a path are its pieces between slashes, in order, but for empty pieces and "." |
| RootLaws.NormalizeIff | agent_bench/env/filesystem.py:8-17 | a path normalises exactly when it is not empty and no piece of it is "..", and then to its leading slashes and its components |
| RootLaws.RootCovers | agent_bench/env/environment.py:133-135 | a root covers a path exactly when its components begin those of the path: "/app" covers "/app/x" but not "/application" |
| RootLaws.AdmitIff | agent_bench/env/environment.py:124-139 | the guard lets a path through exactly when it normalises and some declared root is a root directory, or has the same leading slashes and components that begin those of the path, or both are "." |
| RootLaws.OfflineIff | agent_bench/runner/bundle.py:304-307 | under roots declared in normal form the offline check takes exactly the paths that the components of some root begin |
| Network.RecheckPlain | agent_bench/env/environment.py:37-88 | a recorded host without colon, slash, bracket or white space passes the same check again in its recorded form |
| Network.RecheckExact | agent_bench/env/environment.py:60-88 | under an allowlist of exact plain names every admitted host passes the check again |
| Network.UrlReadsBack | agent_bench/env/environment.py:37-58 | scheme, host and port of a URL are read back, whatever path follows |
| Network.BracketReadsBack | agent_bench/env/environment.py:37-58 | a bracketed host, colons included, and the port behind it are read back |
| Network.WildcardMeans | agent_bench/env/environment.py:59-66 | a wildcard entry matches exactly the names that end behind a dot in its domain |
| Network.UrlAdmittedIff | agent_bench/env/environment.py:76-88 | a URL is let through, as its host, exactly when it is http or https on port 80 or 443 to a listed name |
| Network.EntryReads | agent_bench/env/environment.py:26-34 | case, surrounding space, brackets and a trailing dot of an allowlist entry do not matter |
| Network.BracketedLiteralRejectedOffline | agent_bench/env/environment.py:37-58 | "[::1]" is admitted and recorded as "::1", which the same guard then rejects |
| HostLaws.RecordedIff | agent_bench/env/environment.py:37-88 | the recorded hosts are exactly the texts the allowlist matches that are lower case, not empty and without slash, leading blank and trailing dot |
| HostLaws.HostsAgreeIff | agent_bench/env/environment.py:60-88 | every admitted host passes the check again in its recorded form exactly when no wildcard can match a name and each recordable entry passes its own check |
| EnvSpec.PerformAudits | agent_bench/env/environment.py:124-186 | one guarded call records at most one permitted entry, none outside an audit window, and a changed file is the very key that was recorded |
| EnvSpec.ExecuteAudits | agent_bench/env/environment.py:141-186 | any sequence of guarded calls keeps the window, only appends permitted entries, and appends nothing while no window is open |
| EnvSpec.AccessTouchesKey | agent_bench/env/environment.py:124-180 | an admitted read depends on the normalised key alone, an admitted write changes that key alone, a denied access changes nothing |
| EnvSpec.ExecuteRecordsExactly | agent_bench/env/environment.py:141-186 | inside an audit window the new entries are exactly those due for the calls made, in order: none is left out |
| EnvSpec.MarksAll | agent_bench/env/environment.py:250-252 | marking adds exactly the normal forms of the paths and succeeds exactly when every path has one |
| EnvSpec.FilesReadBack | agent_bench/env/environment.py:164-180 | what is written is read back under every path with the same key and under no other; a missing file reads as missing exactly when it does not exist |
| EnvSpec.TablesReadBack | agent_bench/env/environment.py:191-207 | hidden state and output are separate tables; each value is read back under its own key |
| Environment.Environment.ListDir | agent_bench/env/environment.py:238-248 | the loop over the store collects and sorts the children that the specification names |
| Environment.Environment.MarkSeen | agent_bench/env/environment.py:250-252 | paths are normalised and added one by one until the first bad one |
| Environment.GuardedEnv.ListDir | agent_bench/env/environment.py:157-161 | the guarded call refines one step of the guarded-environment model: denial, audit entry, listing |
| Environment.GuardedEnv.WriteFile | agent_bench/env/environment.py:176-180 | refines the model step: a denied write changes nothing, an admitted one changes the audited key |
| Environment.GuardedEnv.RequireNetwork | agent_bench/env/environment.py:183-186 | refines the model step: only an admitted host is recorded, in normalised form |
| Environment.GuardedEnv.Run | tasks/log_stream_monitor/actions.py:15-30 | task code run call by call on the object ends in the state and outcome that the execution function gives |
| Listings.ParentFree | agent_bench/env/filesystem.py:13-16 | a key contains a parent step exactly when ".." is one of its components |
| Listings.CallsKeepCanonical | agent_bench/env/environment.py:176-180 | stores written through absolute, single-slash, non-root paths keep keys of that form under every call |
| Listings.KeyNormal | agent_bench/env/filesystem.py:8-17 | such keys are their own normal form |
| Listings.ListsChildren | agent_bench/env/environment.py:238-248 | list_dir on such a store gives exactly the immediate children, sorted, each once |
| Listings.ListingStaysInside | agent_bench/env/environment.py:157-161 | everything listed in an admitted directory is under the allowlist, whatever the store holds |
| Listings.StopsAdmitted | agent_bench/env/environment.py:124-161 | what a listing of an admitted directory names is admitted in turn, under the same key |
| Listings.ListingReaches | agent_bench/env/environment.py:238-248 | listing again and again from a directory reaches a file exactly when the file lies below it |
| Failures.ClassifyFailure | agent_bench/runner/failures.py:38-41 | every termination reason is classified into the taxonomy |
| Failures.EnsureKeeps | agent_bench/runner/failures.py:26-59 | ensure_failure_type accepts and keeps a payload exactly when its failure type is what the taxonomy asks for |
| Failures.ClassifyMeans | agent_bench/runner/failures.py:14-41 | both budgets count as exhausted, an exception as an invalid action, known reasons as themselves, all else as a logic failure |
| Budgets.Budgets.ConsumeStep | agent_bench/runner/budgets.py:15-16 | one step less, the tool-call counter untouched |
| Budgets.Budgets.ConsumeToolCall | agent_bench/runner/budgets.py:18-19 | one tool call less, the step counter untouched |
| Runner.MarkListed | agent_bench/runner/runner.py:561-564 | after a successful list_dir result the listed paths are marked as seen; a value that cannot be iterated or a bad path raises |
| Runner.RunWindow | agent_bench/runner/runner.py:468-517 | however an action ends, its audit window is closed and its entries are handed over |
| Runner.Episode.Iteration | agent_bench/runner/runner.py:309-396 | one turn of the loop on the mutable budget, environment and trace refines the iteration function; the timeout return is never reached |
| Runner.Episode.Act | agent_bench/runner/runner.py:397-593 | from the consumed step to the appended entry: invalid action, tool-call gate, sandbox violation, exception or result, each with the entry and audit that TraceLaws.IterateRecords fixes |
| Runner.Episode.Validate | agent_bench/runner/runner.py:563-671 | marking, validation and the verdict; the return for a negative tool-call counter is never reached |
| Runner.Run | agent_bench/runner/runner.py:247-671 | the whole imperative run returns what the run function gives, for every agent, task and validator |
| RunnerSpec.IterateSpends | agent_bench/runner/runner.py:309-396 | an iteration that goes on spends exactly one step: the loop ends within max_steps turns |
| RunnerLaws.NewEntryFits | agent_bench/runner/runner.py:566-593 | as long as the agent leaves the observation it was given alone, the entry an iteration appends has the next step number, observed the previous action and result, and leaves the budget its delta leaves |
| TraceLaws.IterateRecords | agent_bench/runner/runner.py:397-593 | a turn appends one entry exactly when the agent plays something invalid or something a call is left for; the entry holds what was played, what came of it (returned, violated, raised or invalid) and as its audit every access the action's code was due, however that code ended |
| TraceLaws.RunRecords | agent_bench/runner/runner.py:309-593 | entry i of every finished run is that of turn i, so no audit of a call that raised is lost |
| TraceLaws.IterateCarries | agent_bench/runner/runner.py:561-671 | the next turn begins with the store as action, marking and validation left it, outside any audit window |
| TraceLaws.ListingMarks | agent_bench/runner/runner.py:563-564 | only a successful list_dir marks paths as seen, and exactly the normal forms of those it listed |
| TraceLaws.IterateTells | agent_bench/runner/runner.py:309-669 | the exit of a run follows from what its last turn was: budgets, the agent's move, the validity of its action |
| TraceLaws.RunTells | agent_bench/runner/runner.py:309-669 | the result of every finished run repeats what ended it: reason and type agree with the last entry's error, or with the validator's excerpt |
| CrashLaws.VerdictInTaxonomy | agent_bench/runner/runner.py:169-203 | a terminal validation of any content is normalised to a failure type of the taxonomy |
| CrashLaws.JudgeFinishes | agent_bench/runner/runner.py:594-669 | ensure_failure_type never raises on a verdict: any dictionary the validator returns ends the run in a result or lets it go on |
| CrashLaws.IterateCrashes | agent_bench/runner/runner.py:309-669 | an exception leaves an iteration exactly when the agent raises, or a valid action within both budgets never returns, lists what cannot be marked, or meets a validator that raises or returns no dictionary |
| CrashLaws.RunCrashes | agent_bench/runner/runner.py:247-671 | an exception leaves a run exactly when the sandbox cannot be built, setup raises, or some iteration has code that raises: never because of the failure taxonomy |
| CrashLaws.RunFinishes | agent_bench/runner/runner.py:247-671 | agents, actions and validators that never raise always get a result |
| RunnerLaws.VerdictStable | agent_bench/runner/runner.py:169-203 | normalising the recorded validator snapshot again gives the same verdict |
| RunnerLaws.ValidActionIff | agent_bench/runner/runner.py:82-99 | an action passes exactly when it names an action of the schema and the call gets every parameter |
| RunnerLaws.IterateLawful | agent_bench/runner/runner.py:309-669 | every iteration keeps the loop invariant or ends in a lawful result, or in an exception exactly when its code raises |
| RunnerLaws.RunLawful | agent_bench/runner/runner.py:309-669 | for code that leaves the values it was given or handed over alone: every run ends in a result unless its code raises; budgets conserved over the trace, counters tied to trace length and exit, success exactly when the last validation was ok, failure type in the taxonomy, only permitted accesses recorded |
| SandboxLaws.AccessesAgreeIff | agent_bench/runner/bundle.py:295-323 | the offline check allows every access the guard permits exactly when the declared roots cover the guarded ones and the allowlist rechecks |
| Bundle.BundleDir.WriteToolCalls | agent_bench/runner/bundle.py:65-79 | one row for each trace entry, in order, with exactly the seven copied fields |
| Bundle.BundleDir.WriteIntegrity | agent_bench/runner/bundle.py:96-102 | one digest line for each named file; no other file changes |
| Bundle.BundleDir.Write | agent_bench/runner/bundle.py:105-136 | the directory holds manifest, rows, validator and digests of the run, or is untouched when the run id is missing |
| Bundle.BundleDir.CheckIntegrity | agent_bench/runner/bundle.py:235-252 | no error exactly when every digest line names an existing file with that digest |
| Bundle.BundleDir.Verify | agent_bench/runner/bundle.py:226-325 | verify_bundle accepts exactly the directories whose digests hold and whose recorded accesses are inside the declared sandbox |
| Bundle.CheckAudit | agent_bench/runner/bundle.py:295-323 | no error exactly when every entry of a row is allowed |
| BundleLaws.WrittenSound | agent_bench/runner/bundle.py:105-136 | a written bundle verifies exactly when the run declares a sandbox, its audits stay inside it, and no row holds a line separator that splitlines cuts at |
| BundleLaws.TamperingDetected | agent_bench/runner/bundle.py:235-252 | replacing a hashed file by one with another digest is always detected |
| BundleLaws.RemovalDetected | agent_bench/runner/bundle.py:235-252 | a hashed file that was taken away is always detected |
| BundleLaws.LineHoldsIff | agent_bench/runner/bundle.py:235-252 | a digest line passes exactly when it is blank or is the digest of some file, two spaces and its name |
| BundleLaws.SoundIff | agent_bench/runner/bundle.py:226-325 | accepted are exactly the directories whose digest lines all pass, whose manifest declares both lists, and whose rows are each blank or JSON with an audit list of allowed accesses |
| BundleLaws.EmittedSound | agent_bench/runner/bundle.py:226-325 | the bundle of an emitted artifact verifies exactly when every recorded access is allowed and no text in its rows holds a line separator: integrity and sandbox never fail |
| BundleLaws.SignedSound | agent_bench/runner/bundle.py:139-223 | signing a written bundle, with the changed manifest and new digests, changes no verdict of verify_bundle |
| BundleLaws.SignatureCoversOldDigests | agent_bench/runner/bundle.py:193-221 | the signature is the one of the digests before the manifest was marked, and fits the file beside it exactly when marking did not change the manifest's digest |
| SandboxLaws.RunsInsideIff | agent_bench/runner/bundle.py:295-323 | whatever agent, actions, setup and validator do, all runs of a task record only what the offline check allows exactly when its sandbox has covered roots and an allowlist that rechecks, or no action can be called |
| SandboxLaws.RunVerifies | agent_bench/runner/bundle.py:226-325 | the bundle of a run verifies exactly when the offline check allows what it recorded and its rows hold no line separator |
| SandboxLaws.AgreeingVerifies | agent_bench/runner/bundle.py:226-325 | under a sandbox that agrees the bundle of any run verifies exactly when its rows hold no line separator |
| SandboxLaws.BreakerRuns | agent_bench/runner/bundle.py:65-79 | an agent that plays U+2028 gets a run within its sandbox whose row is not one line, on every task with a step |
| SandboxLaws.RunsVerifyIff | agent_bench/runner/bundle.py:274-283 | the bundles of all runs of a task, over all agents, verify exactly when no sandbox can be built or no step can be taken |
| SandboxLaws.RunVerifiesPlain | agent_bench/runner/bundle.py:226-325 | under any allowlist, wildcards included, a run that recorded only plain hosts verifies exactly when its rows hold no line separator |
| SandboxLaws.ExactNamesAgree | agent_bench/env/environment.py:60-88 | covered roots and exact plain host names make a sandbox that agrees |
| Bundle.BundleDir.Sign | agent_bench/runner/bundle.py:139-223 | the digests as they were are signed, three manifest fields are added and the digests written anew; without digests nothing changes |
| Replay.CompareStep | agent_bench/runner/replay.py:70-91 | no divergence is reported exactly when action, result and audit agree |
| Replay.ValidateSandbox | agent_bench/runner/replay.py:94-102 | no error exactly for a sandbox with both lists |
| Replay.CompareTraces | agent_bench/runner/replay.py:167-188 | the gated loop over both traces finds an error exactly when some step disagrees or leaves the sandbox |
| Replay.CheckReplay | agent_bench/runner/replay.py:140-190 | the verdict equals the declarative agreement of bundle and run: gating on earlier errors never changes it |
| Replay.CheckRecord | agent_bench/runner/replay.py:220-271 | the verdict equals the same agreement of two runs |
| Replay.CheckStrict | agent_bench/runner/replay.py:193-217 | the verdict is agreement and no budget count above the baseline |
| ReplayLaws.AgreesSymmetric | agent_bench/runner/replay.py:220-271 | agreement does not depend on which run came first |
| ReplayLaws.AgreesTransitive | agent_bench/runner/replay.py:220-271 | agreement carries over from run to run |
| ReplayLaws.AgreesReflexive | agent_bench/runner/replay.py:220-271 | a run agrees with itself exactly when it declares a sandbox that holds all its audits |
| ReplayLaws.EmittedAgreeIff | agent_bench/runner/replay.py:220-271 | two runs of the runner replay each other exactly when they ended alike, declare the same sandbox and took the same steps with the same actions, results and accesses, all of them allowed |
| ReplayLaws.DiskChangesNothing | agent_bench/runner/replay.py:47-67 | replaying against the written bundle of a run gives the verdict of comparing with the run itself |
| ReplayLaws.RerunSameEnd | agent_bench/runner/runner.py:309-669 | two runs of one episode differ in time stamps only |
| ReplayLaws.RerunReplays | agent_bench/runner/replay.py:140-271 | a second run of any episode under any sandbox passes check_record and check_replay against the first exactly when the offline check allows what the first recorded; verify_bundle accepts it exactly when, besides, its rows hold no line separator |
| ReplayLaws.SeparatorRejected | agent_bench/runner/replay.py:47-58 | on every task with a step, a re-run of an agent that plays U+2028 passes both replay checks while verify_bundle rejects the bundle |
| ReplayLaws.StrictIsReplay | agent_bench/runner/replay.py:193-217 | for any two finished runs that replay accepts strict mode adds exactly this: the re-run may not end at the tool-call gate unless the first did, nor get past an action when the first failed inside one; for successful runs it adds nothing |
| Phrase.ExtractReplaced | agent_bench/agents/chain_agent.py:36-55 | marker search, newline cut and stripping give back the filled-in phrase exactly when the code has no newline and no trailing dot or space |
| Phrase.ChainPhrase | tasks/rate_limited_chain/service.py:46-49 | the agent reads the phrase the chain service expects exactly when, besides, the code holds no placeholder |
| Phrase.RatePhrase | tasks/deterministic_rate_service/service.py:65-66 | the agent reads the phrase the rate service expects exactly when the code survives stripping |
| Phrase.AlphanumericPhrases | tasks/rate_limited_chain/setup.py:36-39 | both phrases agree for every code of letters and digits and every id of the services |
| ChainAgent.ChainAgent.ReadPhrase | agent_bench/agents/chain_agent.py:36-55 | the loop over separators computes the phrase function |
| ChainAgent.ChainAgent.Act | agent_bench/agents/chain_agent.py:69-152 | each turn of the agent object changes its fields and plays the action that the reaction function gives, in every branch |
| ChainAgent.RefusalAnswered | agent_bench/agents/chain_agent.py:101-116 | a refused /token makes the agent wait as told, try again, start a new handshake or ask for the payload anew, by its error |
| ChainAgent.OutputGranted | agent_bench/agents/chain_agent.py:69-152 | whatever it observes, the agent sets no output but a token that /token granted it |
| ChainService.MockChainAPI.Advance | tasks/rate_limited_chain/service.py:23-26 | time moves forward by the steps, or nothing changes for a negative number |
| ChainService.MockChainAPI.PayloadIsValid | tasks/rate_limited_chain/service.py:38-44 | valid exactly when every required field has its value |
| ChainService.MockChainAPI.Call | tasks/rate_limited_chain/service.py:51-105 | every endpoint changes the fields and answers as the transition function says |
| ChainLaws.AlwaysExplained | tasks/rate_limited_chain/service.py:51-105 | after every history the id comes from the latest handshake, confirmation from a commit behind it, and the temporary failure has been answered at most once |
| ChainLaws.GrantExplained | tasks/rate_limited_chain/service.py:75-105 | a granted token is earned by handshake and commit exactly when some handshake came before it |
| ChainLaws.GrantNeedsHandshake | tasks/rate_limited_chain/service.py:75-105 | when commits name a string id, every granted token follows the latest handshake, a commit for it in time, the rate limit and the one temporary failure |
| ChainLaws.BareCommitGrants | tasks/rate_limited_chain/service.py:62-105 | a token can be had without any handshake exactly on the services whose required payload asks for no handshake id, whatever block, window and pending failure |
| ChainLaws.TokenTells | tasks/rate_limited_chain/service.py:75-105 | the first of five obstacles, in the order of the code, is the error of /token; without any the secret is handed out |
| ChainLaws.CountersCount | tasks/rate_limited_chain/service.py:23-105 | over every history only advancing moves the clock, each /token is counted, and each one the rate limit refused once more |
| RateService.MockDeterministicService.Call | tasks/deterministic_rate_service/service.py:51-113 | every endpoint changes fields and history and answers as the transition function says |
| RateService.AlwaysAccounted | tasks/deterministic_rate_service/service.py:48-113 | after every history the recorded log accounts for id and confirmation |
| RateService.GrantLogged | tasks/deterministic_rate_service/service.py:76-113 | a granted token is backed by a logged handshake and a good commit behind it, the commit carried the phrase for its id, and a pending temporary failure was answered exactly once |
| RateService.CountersLogged | tasks/deterministic_rate_service/service.py:48-113 | over every history the log explains the counters: calls of /token, refusals by the rate limit, and refusals for a wrong id, phrase or payload |
| Scripts.RunScript | agent_bench/runner/runner.py:309-669 | when every iteration follows a script the budgets alone decide exit and step count |
| HandshakeRun.AgentPlays | agent_bench/agents/chain_agent.py:69-152 | the action the agent plays in each stage of a cooperating handshake |
| HandshakeRun.SetupStocks | tasks/rate_limited_chain/setup.py:41-57 | setup leaves the hidden state that actions and validator look up |
| HandshakeLaws.ActionLeaves | tasks/rate_limited_chain/actions.py:39-124 | whatever an agent plays, an action changes no file, hidden state or seen path, sets no output but ACCESS_TOKEN, and reaches the service only by calls with a dictionary payload and by waits for a positive number of steps |
| HandshakeLaws.JudgesPass | tasks/rate_limited_chain/validate.py:8-22 | both validators pass exactly the secret of a confirmed service |
| HandshakeRun.EpisodeRuns | agent_bench/runner/runner.py:309-669 | against any service that cooperates the run ends by script: success after the exact number of steps or at the smaller budget |
| HandshakeSafety.RespondHonest | agent_bench/agents/chain_agent.py:69-152 | whatever it observes, the agent commits only the phrase it reads for the id it names |
| HandshakeSafety.ActionHarmless | tasks/rate_limited_chain/actions.py:39-124 | no action of an honest agent changes the hidden state or confirms a service that expects something else |
| HandshakeSafety.NeverSucceeds | agent_bench/runner/runner.py:309-669 | no run on a service that never confirms such commits succeeds, whatever the budgets |
| ChainRuns.ChainRun | tasks/rate_limited_chain/actions.py:63-124 | success after exactly 6 steps, 2 more under a rate limit, 1 more with a temporary failure, when both budgets reach that; else the exit and the steps of the smaller budget |
| ChainRuns.ChainSucceedsIff | tasks/rate_limited_chain/validate.py:8-22 | for every code: success exactly when the agent can read it and both budgets reach that length |
| ChainRuns.RateRun | tasks/deterministic_rate_service/actions.py:63-124 | the same count against the deterministic rate service |
| ChainRuns.RateSucceedsIff | tasks/deterministic_rate_service/validate.py:8-18 | for every code: success exactly when the code survives stripping and both budgets reach that length |
| LineSafety.ChainAnswers | tasks/rate_limited_chain/service.py:52-105 | whatever it is asked, the chain service keeps its secret and answers without a line separator |
| LineSafety.RateAnswers | tasks/deterministic_rate_service/service.py:51-113 | so does the rate service |
| LineSafety.CleanSafe | agent_bench/agents/chain_agent.py:69-152 | with safe setup texts and such a service no stage of a run puts a line separator into an entry |
| LogStream.LogStreamMonitorAgent.ExtractStreamCode | agent_bench/agents/log_stream_monitor_agent.py:19-25 | the search through entries and words finds the code the specification names |
| LogStream.LogStreamMonitorAgent.Act | agent_bench/agents/log_stream_monitor_agent.py:27-50 | each turn updates cursor and done and plays the action the reaction function gives |
| LogStream.ExtractMeans | agent_bench/agents/log_stream_monitor_agent.py:19-25 | the code found is that of the first marked word of the first critical entry that has one; nothing is found exactly when there is none |
| LogStreamRuns.PollRuns | tasks/log_stream_monitor/actions.py:15-30 | polling a cursor returns that page, the next cursor and whether it was the last, and records exactly the lookups made |
| LogStreamRuns.StreamSetup | tasks/log_stream_monitor/setup.py:28-50 | setup leaves one file for each page and none behind the last |
| LogStreamRuns.StreamRuns | agent_bench/agents/log_stream_monitor_agent.py:27-50 | every stream and all budgets: exit, steps used and success are determined by the first page with a code and the smaller budget |
| LogStreamRuns.CriticalFound | agent_bench/agents/log_stream_monitor_agent.py:19-25 | noise before and after does not hide the critical entry: the code comes out as it went in |
| LogStreamRuns.PlantedSucceeds | tasks/log_stream_monitor/setup.py:28-50 | on a stream with the critical entry on page k (counted from 1) and noise before it the run succeeds, at step k + 1, exactly when both budgets allow it |
| LogStreamSetup.NoiseQuiet | tasks/log_stream_monitor/setup.py:11-25 | no noise template, filled with any number, is taken for a critical entry or splits a line |
| LogStreamSetup.SetupPlants | tasks/log_stream_monitor/setup.py:28-46 | every stream that setup can draw is such a stream, with the code where it was drawn |
| LogStreamSetup.SetupSafe | tasks/log_stream_monitor/setup.py:11-46 | no stream that setup can draw puts a line separator into a run |
| Diff.KeyRoundTrip | agent_bench/runner/baseline.py:235-255 | an audit key survives the way through an entry |
| Diff.EntryRoundTrip | agent_bench/runner/baseline.py:235-255 | an entry survives the way through a key exactly when none of its text is empty |
| Diff.NormalizeIoAudit | agent_bench/runner/baseline.py:202-232 | the entries come out sorted and record the same set of accesses |
| Diff.IoAuditDiff | agent_bench/runner/baseline.py:258-271 | the delta lists the set differences in key order, and there is none for equal sets |
| Diff.DeltaTurnsOneIntoOther | agent_bench/runner/baseline.py:258-271 | removing "removed" and adding "added" turns one audit into the other; no delta exactly for equal audits |
| Diff.DiffRuns | agent_bench/runner/baseline.py:274-359 | run summaries, flags, counts and the list of differing steps equal their declarative counterparts; which steps differ is Diff.NoDiffsIffAgree |
| Diff.DiffsReport | agent_bench/runner/baseline.py:293-312 | every differing step is reported once, in order, and no other |
| Diff.DiffTells | agent_bench/runner/baseline.py:293-312 | a reported step shows the entry of each run on its own side and the change from the accesses of the first to those of the second |
| Diff.NoDiffsIffSame | agent_bench/runner/baseline.py:293-312 | nothing is reported exactly when every step agrees up to volatile fields (which ones: Diff.NoDiffsIffAgree) |
| Diff.NoDiffsSameLength | agent_bench/runner/baseline.py:293-312 | traces of dictionaries without a difference are equally long |
| Diff.EntriesSameIff | agent_bench/runner/baseline.py:184-199 | dictionary entries compare equal exactly when they agree on every field outside action_ts, budget_after_step, budget_delta, io_audit and telemetry |
| Diff.IoKeysMean | agent_bench/runner/baseline.py:202-241 | the accesses of an audit value are the texts its dictionary items show in type, op, path and host, unless an item shows none |
| Diff.NoDiffsIffAgree | agent_bench/runner/baseline.py:293-312 | nothing is reported exactly when the traces agree, step by step, on every field but those five and on the accesses; so also on action and result |
| Diff.DiffsSwap | agent_bench/runner/baseline.py:274-345 | swapping the runs swaps sides, added and removed on the same steps |
| Diff.CountsBalance | agent_bench/runner/baseline.py:300-302 | summary counts are the sums over the reported steps and balance the accesses of both runs |
| DiffLaws.RerunDiffsEmpty | agent_bench/runner/baseline.py:184-199 | a second run of any episode at another time differs from the first in no step and no access |
| DiffLaws.AgreeingRunsShareAudits | agent_bench/runner/baseline.py:258-271 | runs that check_record accepts have no audit delta |
| Migration.NormalizeActionTrace | agent_bench/runner/migration.py:66-82 | the loop fills every missing entry field with its default |
| Migration.SettleOutcome | agent_bench/runner/migration.py:120-146 | settles success and failure fields as Migration.OutcomeMeans says, raises exactly when no taxonomy failure type can be had, and says whether it changed anything |
| Migration.MigrateRunArtifact | agent_bench/runner/migration.py:86-157 | raises exactly for artifacts without a usable failure type (Migration.MigratableIff); otherwise the changed flag is true exactly when the result differs from the payload |
| Migration.MigratedOutcome | agent_bench/runner/migration.py:120-146 | the outcome of the migrated artifact is that of the given one: success kept or told by the failure type, given failure type and reasons kept, missing ones derived |
| Migration.OutcomeMeans | agent_bench/runner/migration.py:116-146 | a given success stays, a missing one is true exactly when the failure type is None; a given failure type stays, a missing one follows from the termination reason; reasons are kept or filled |
| Migration.MigratableIff | agent_bench/runner/migration.py:116-146 | migration raises exactly for failures whose given type is outside the taxonomy, or that have none and a list or dictionary as termination reason |
| Migration.MigratedEntry | agent_bench/runner/migration.py:66-82 | each entry keeps its fields, and each of the eight fields it lacks gets its default: position, start time, or empty |
| Migration.MigratedHash | agent_bench/runner/migration.py:153-155 | what changes or has no hash gets the hash of the artifact as it is otherwise; what stays keeps the one it has |
| Migration.MigratedKeeps | agent_bench/runner/migration.py:66-82 | trace length, the fields of dictionary entries and all other keys are kept |
| Migration.MigratedBackfills | agent_bench/runner/migration.py:41-111 | an old artifact gets its budgets from its own counters, the agent as its reference, and numbered entries for unreadable ones |
| Migration.MigrationIdempotent | agent_bench/runner/migration.py:86-157 | a second pass succeeds and returns the same artifact |
| Migration.UnchangedIffCurrent | agent_bench/runner/migration.py:86-157 | migration leaves an artifact alone exactly when it is in the current form |
| Migration.MigratedIsCurrent | agent_bench/runner/migration.py:86-157 | whatever comes out of a migration is in the current form |
| Metrics.ScanGroup | agent_bench/runner/metrics.py:244-263 | the loop over the sorted runs of a group gives the times between begin and end of its incidents, and their number |
| Metrics.ScanCounts | agent_bench/runner/metrics.py:244-263 | incidents are the failures that follow no failure, recoveries the successes that follow one; the guard on negative times drops none |
| Metrics.ScanTimes | agent_bench/runner/metrics.py:250-263 | the recovery times are, for each position where an incident ends, the time since the failure that opened it, however many failures followed |
| Metrics.RecoveryAt | agent_bench/runner/metrics.py:250-263 | the k-th incident that ends gives the k-th recovery time, measured from the run that began it |
| Metrics.LatestIsLast | agent_bench/runner/metrics.py:244-247 | stable sorting brings the latest timestamped run to the end |
| Metrics.ComputeMttr | agent_bench/runner/metrics.py:228-273 | the first limit runs, grouped and scanned, give the recovery times of all groups, measured from the failure that opened each incident, the number of incidents, and the mean in seconds, rounded to a tenth |
| Metrics.RoundsToNearest | agent_bench/runner/metrics.py:265 | rounding moves a mean by at most 0.05 and no full tenth |
| Metrics.GroupBalances | agent_bench/runner/metrics.py:235-263 | in each group incidents exceed recoveries by one exactly when its latest run failed, and recovery times fit between its first and last time stamp |
| Metrics.MttrConserves | agent_bench/runner/metrics.py:235-273 | incidents minus recoveries is the number of groups whose latest timestamped run failed |
| Metrics.PctRank | agent_bench/runner/metrics.py:276-281 | the percentile is one of the values, with at most len*pct/100 values below it and more than that up to it |
| Leaderboard.BuildSubmissionRecord | agent_bench/leaderboard.py:30-94 | a record is built exactly for verified, signed bundles with all identifying fields, and holds the copied manifest fields, the validator, the provenance, the directory and the clean report |
| Leaderboard.LeaderboardDir.IngestBundle | agent_bench/leaderboard.py:97-139 | an exception changes nothing; otherwise the submission is stored and its entry replaces the old one in sorted order |
| Leaderboard.IngestKeepsConsistent | agent_bench/leaderboard.py:124-132 | an ingest keeps the index sorted, with one entry a run that agrees with the stored submission |
| Leaderboard.HistoryRefinesMap | agent_bench/leaderboard.py:97-139 | after any ingests the store holds the last submission of each run and a consistent index |
| Leaderboard.EntriesTell | agent_bench/leaderboard.py:116-124 | an index entry shows id, agent, reference, success and time of the stored submission |
| Leaderboard.IndexCounts | agent_bench/leaderboard.py:124-132 | the index has as many entries as there are runs |
| Leaderboard.IndexOrdered | agent_bench/leaderboard.py:124-132 | the index is in the order of the ingest times, and of the run ids where these are equal |
| Leaderboard.HistoryDoesNotShow | agent_bench/leaderboard.py:124-132 | histories that end in the same submissions end in the same index |
| LeaderboardLaws.RunIngests | agent_bench/leaderboard.py:30-94 | the bundle of any finished run, once signed, can be ingested exactly when it verifies and its session names run and agent; the record then names that run, agent, task and outcome |
| LeaderboardLaws.IngestsIffVerifies | agent_bench/leaderboard.py:30-94 | a run is ingestible exactly when its bundle verifies and its session names run and agent |
| LeaderboardLaws.RunsIngestIff | agent_bench/leaderboard.py:30-94 | the signed bundles of all runs of a task, over all agents, can be ingested exactly when there is no sandbox, or the session names run and agent and no step can be taken |
| LlmShims.LLMBudget.Consume | agent_bench/integrations/llm_shims.py:41-52 | counts the call, then the tokens; raises exactly when a limit is passed |
| LlmShims.DeterministicLLMShim.Reset | agent_bench/integrations/llm_shims.py:80-82 | after a reset the shim is as a new one |
| LlmShims.DeterministicLLMShim.Complete | agent_bench/integrations/llm_shims.py:88-107 | a completion is looked up or popped and charged; a missing one costs nothing |
| LlmShims.SessionInvariant | agent_bench/integrations/llm_shims.py:88-107 | until a violation queue and usage account exactly for the answered calls; a violation cuts the session off |
| LlmShims.SessionSafe | agent_bench/integrations/llm_shims.py:41-107 | between resets the texts are a beginning of the queue, at most max_calls of them and at most max_tokens in all, and none follows a violation |
| LlmShims.ServedIff | agent_bench/integrations/llm_shims.py:41-107 | a recorded call is answered exactly when neither its number nor its tokens pass a limit; what an unrecorded one and one past the limit cost |
| LlmShims.QueueAnswersIff | agent_bench/integrations/llm_shims.py:88-107 | a queue answers all calls of a session, in recorded order, exactly when they fit into queue, call limit and token limit |
| LlmShims.MappingAnswers | agent_bench/integrations/llm_shims.py:88-107 | a mapping answers with the recorded text of the key and fails exactly for unrecorded keys |
| Shipped.SuccessCertified | agent_bench/runner/bundle.py:105-325 | under a shipped sandbox every successful run whose rows hold no line separator verifies offline and is replayed by a second run at another time |
| Shipped.ChainAsShipped | tasks/rate_limited_chain/setup.py:18-57 | for every seed the chain task as shipped is solved in exactly 9 steps and 9 tool calls, its bundle verifies, and a re-run replays |
| Shipped.BareCommitAsShipped | tasks/rate_limited_chain/setup.py:18-37 | for every seed the token of the chain task as shipped can be had without a handshake |
| Shipped.RateAsShipped | tasks/deterministic_rate_service/setup.py:18-59 | for any numbers setup draws the rate-service task as shipped is solved in exactly 9 steps, verifies and replays |
| Shipped.StreamAsShipped | tasks/log_stream_monitor/setup.py:28-50 | whatever setup draws, with the code on page k (counted from 1), the log-stream task as shipped is solved in k + 1 steps, verifies and replays |

## Left out

- Values.Json: Python's `True == 1 == 1.0` is not modelled, equality of values is structural, and there are no floats among artifact values.
- Text.Lower: lower-casing, digit tests and the reading of integers cover ASCII, which is what host names, ports and waiting times use.
- EnvSpec.Program: task code is a strategy over its replies with a bound on its calls; code that would go on past the bound counts as never returning.
- HandshakeTask.SERVICE_OBJECT: the service object is kept in the state that task code carries, and the hidden state holds a marker in its place.
- GuardedEnv._ensure_allowed: the stack inspection is not modelled; callers are permitted task code.
- RunnerSpec.Session: time stamps, run ids, harness version, task hash, wall-clock time, telemetry, the LLM trace and the reasoning benchmark are volatile and not part of the emitted artifact here.
- runner._stable_payload and runner._inject_artifact_hash: the hash still covers latencies, so equal hashes across runs cannot be promised, and nothing else reads it.
- RunnerSpec.NormalizeTerminal: texts of error messages are shortened where they print Python values, such as the list of allowed roots.
- HandshakeTask.SetupCalls: the flag chain_task_initialized, which nothing reads, and the random choice of secrets, codes and nonces are left out; the values are arbitrary instead.
- ChainAgent.Respond: a result of a type the agent cannot handle makes it raise at once, before later fields are read.
- Bundle.Readable: files that are not UTF-8, manifests and rows that are JSON but no dictionaries, and directories that cannot be created raise in the source and are excluded.
- Bundle.BundleDir.Sign: the signature is an uninterpreted function; loading keys, verifying signatures and zip hashing are foreign cryptography and file formats.
- Bundle.PieceOf: a row that is cut counts as one unreadable piece; when a piece between two separators is JSON of its own, such as a number, verify_bundle raises instead of returning errors, and neither accepts the bundle.
- RunnerLaws.NewEntryFits: an agent that changes the observation it was given is not modelled; it can forge or remove the step of its entry.
- RunnerLaws.RunLawful: the same holds for every value that agent, actions or validator change after handing it over.
- Diff.DiffRuns: the difference of the wall-clock times is left out; no artifact value here is a float.
- baseline.summarize_runs, compute_metrics and compute_all_metrics: sums and averages over groups, easier than the recovery scan that is modelled.
- Metrics.ComputeMttr: mean and rounding are those of exact numbers, with ties to the even tenth; the last bit of a float mean is not modelled, nor is the filter by agent and task, which happens before.
- Metrics.Pct: the rank is computed in integers, as the float product is exact for lists of any real length.
- Migration.Run: the hash covers an abstract function of the whole artifact; which fields it skips is not modelled.
- Leaderboard.SubmissionFile: run ids are taken as file names, and an index file that something else wrote is not modelled.
- LlmShims.SessionSafe: asks that no limit is negative; a negative limit makes every call a violation.
- LlmShims.DeterministicLLMShim: loading fixtures from disk and the hash of prompts are parameters.
- The command line, the wizard, the web interface, subprocess isolation, batches, registries, schema validation, the other demo agents and their file-reading tasks: plumbing around what is modelled.
- DiffLaws.RerunDiffsEmpty: entries hold no LLM trace here; in the source that field is compared as well and equals only if the agent records it without times.
