# ApiHub test-node launcher — a Dafny model

This project models the deterministic core of the test infrastructure that
brings up an ApiHub node for integration tests:

- **Option completion and domain handling** (`launcher-utils.js`):
  - filling `defaultOptions` into the supplied options;
  - creating the storage folder;
  - appending the default domains `default`, `test1` and `test2`;
  - normalising a domain given as a string or as an object;
  - choosing validators and deriving the BDNS table;
  - projecting that table into per-domain files;
  - patching each domain config with `contracts.constitution`;
  - the configuration files written under `<rootFolder>/external-volume/config`.
- **`ApiHubTestNodeLauncher.launchAsync`** (`index.js`):
  - random-port allocation against the shared `maxTries` budget;
  - the pre-`try` configuration steps, whose failures are not retried;
  - the `try` region: the contract worker, the constitution patch, the wait of at most 10 probes for the port to be released, and starting the node;
  - the restart of the whole pipeline when a step inside the `try` fails while budget remains.
- **The Test Infrastructure Runner** (`tir.js`):
  - `addDomain` and the guards of `launch`;
  - the "all domains started" countdown and the error-latched agent-transaction countdown;
  - the bounded zeromq port search of `launchLocalMonitor`;
  - argument normalisation in `launchVirtualMQNode`;
  - the config defaulting of the configurable and contract launchers.
- **The shutdown fan-out** (`engine/util/exitHandler.js`): one kill per registered child, exit status 0 when there was at least one child, and the same handler registered for six process events.

## How it is modelled

- **`Js`: JavaScript values.**
  - A JavaScript value is the datatype `Js.Value`.
  - An object is an ordered list of key/value pairs, so `Object.keys` order is the list order (insertion order; see "Left out" for array-index keys). `Lookup` of a missing key gives `undefined`.
  - `Truthy`, `Nullish` (`== null`) and `TypeOf` follow the language.
- **`Io`: everything outside the model is an oracle `World`.**
  - Every external call takes one tick of a global clock.
  - The oracle says what each call returns: the candidate of `getRandomPort`, the answer of `isPortAvailableAsync`, and the reply of the apihub worker and instance.
  - For the apihub worker and instance, DID creation and resolution, `bdns.setBDNSHosts`, the environment set-up, `mkdir`, file writes and the zeromq bind, it also says whether the call rejects; for the worker and instance, whether it never settles.
  - The file system is a map from `(folder, name)` to content: either a JSON value or raw text.
  - A promise that never settles is `Pends`.
- **`LauncherUtils`, `Launcher`, `Tir` and `ExitHandler`** follow the four source files.
  - Mutation in the source is made explicit in the model.
  - The constitution patch mutates object domains in place, so a retry after it writes the patched configs. `PatchDomains` therefore returns both the written list and the list the launcher keeps.
  - `getCompleteOptions` pushes the default domains into the caller's own `domains` array. `Tir.ContractRun` relies on this when it reads back `config.domains[0]`.

Three behaviours of the code that are easy to misread:

- **Config paths.** The configuration paths are derived from `rootFolder` (`index.js:70-73, 85`), not from the `storageFolder` that `getCompleteOptions` creates. A `rootFolder` that is not a string makes the first of those steps throw a TypeError, outside the `try`, so it is never retried.
- **No first-event guard.** The exit handler has no "first event only" guard. Every delivery of any of the six events runs the full handler (`ExitHandler.EveryEventRunsHandler`).
- **Attempt bound.** The number of attempts is bounded by `max(1, maxTries)`, not by `maxTries`. With `maxTries <= 0` and no port, allocation is skipped and one attempt still runs, on port `undefined`.

Quirks of the code that the model keeps:

- `launchApiHubTestNodeWithContractAsync` ignores a non-object `domain` argument beyond its truthiness: a name, a non-zero number or a function suppresses the `"contract"` default, while `0`, `false` or `""` does not.
- A `null` domain argument makes it discard `config` entirely, because `typeof null === "object"` (`Tir.ContractBase`).

## Model

| member | source | states |
|---|---|---|
| LauncherUtils.DomainNameAndConfig | psknode/tests/util/ApiHubTestNodeLauncher/launcher-utils.js:137-141 | a string `s` gives `{name: s, config: {}}`; an object gives its own `name` and `config`; only `null`/`undefined` fail (TypeError) |
| LauncherUtils.FillDefaults | psknode/tests/util/ApiHubTestNodeLauncher/launcher-utils.js:13-18 | every key reads as the supplied value unless that is `== null`, then as the default; the key set is the union of supplied and default keys; keys stay unique |
| LauncherUtils.WithStorageFolder | psknode/tests/util/ApiHubTestNodeLauncher/launcher-utils.js:19-22 | a falsy `storageFolder` is replaced by the fresh temporary folder, a truthy one is kept; every other key unchanged |
| LauncherUtils.WithDomains | psknode/tests/util/ApiHubTestNodeLauncher/launcher-utils.js:24-39 | `domains` becomes `[]` when falsy, then the default domains are merged in exactly when `includeDefaultDomains` is truthy; other keys unchanged |
| LauncherUtils.MergeDefaultDomains | psknode/tests/util/ApiHubTestNodeLauncher/launcher-utils.js:28-39 | the original domains are a prefix, unchanged; only default names absent from the list are appended, every absent one is, at most three, in the order default, test1, test2 |
| LauncherUtils.AbsentDefaults | psknode/tests/util/ApiHubTestNodeLauncher/launcher-utils.js:29-37 | the filtered default names are exactly those of default/test1/test2 not already configured, in that order |
| LauncherUtils.MergeCoversDefaults | psknode/tests/util/ApiHubTestNodeLauncher/launcher-utils.js:28-39 | after the merge every default domain name is configured |
| LauncherUtils.MergeIdempotent | psknode/tests/util/ApiHubTestNodeLauncher/launcher-utils.js:28-39 | merging the defaults into a merged list appends nothing |
| LauncherUtils.MergeKeepsNamesUnique | psknode/tests/util/ApiHubTestNodeLauncher/launcher-utils.js:28-39 | if the supplied domain names are distinct, so are the merged ones |
| LauncherUtils.CompleteOptions | psknode/tests/util/ApiHubTestNodeLauncher/launcher-utils.js:12-42 | getCompleteOptions: null-filled defaults for every key but `storageFolder` and `domains`, a truthy storage folder, the domains merge, and no other keys added |
| LauncherUtils.Validators | psknode/tests/util/ApiHubTestNodeLauncher/launcher-utils.js:79-86 | supplied truthy validators are returned unchanged, otherwise exactly `[{DID: validatorDID, URL: nodeUrl}]` |
| LauncherUtils.AddBdnsEntries | psknode/tests/util/ApiHubTestNodeLauncher/launcher-utils.js:92-103 | the table's keys are the existing keys plus the domain names, each mapped to the shared entry |
| LauncherUtils.BdnsEntries | psknode/tests/util/ApiHubTestNodeLauncher/launcher-utils.js:88-106 | a truthy supplied `bdns` is returned untouched; otherwise an object whose key set equals the set of domain names, every value the entry with `replicas: []`, the four service lists `[nodeUrl]` and the validators |
| LauncherUtils.BdnsProjection | psknode/tests/util/ApiHubTestNodeLauncher/launcher-utils.js:174-183 | one `(domain, content)` entry per top-level key, in key order, content the map value; nothing for a string, which is stored as raw text; for an object with unique keys, rebuilding an object from the entries gives back the BDNS table |
| LauncherUtils.PatchConfig | psknode/tests/util/ApiHubTestNodeLauncher/launcher-utils.js:146-150 | `contracts.constitution` becomes the seed; other config keys and other `contracts` keys are unchanged; a falsy `contracts` starts from `{}` |
| LauncherUtils.PatchConfigTwice | psknode/tests/util/ApiHubTestNodeLauncher/launcher-utils.js:146-150 | patching an already patched config only replaces the seed |
| LauncherUtils.PatchDomain | psknode/tests/util/ApiHubTestNodeLauncher/launcher-utils.js:145-153 | the written `{name, config}` keeps the name and carries the patched config; an object domain is patched in place (same keys, same other fields), a string domain is unchanged |
| LauncherUtils.PatchDomains | psknode/tests/util/ApiHubTestNodeLauncher/launcher-utils.js:143-155 | same length, same names in the same order, every config patched with the seed, and the kept list mutated exactly as the in-place patch does |
| LauncherUtils.ConfigFolderPath | psknode/tests/util/ApiHubTestNodeLauncher/launcher-utils.js:44-46 | defined exactly for string folders, as `<folder>/external-volume/config` |
| LauncherUtils.StoreServerConfig | psknode/tests/util/ApiHubTestNodeLauncher/launcher-utils.js:157-160 | succeeds iff the folder is a string and the write succeeds; then `apihub.json` holds the server config; errors are the TypeError or the write rejection |
| LauncherUtils.DomainConfigFiles | psknode/tests/util/ApiHubTestNodeLauncher/launcher-utils.js:165-170 | one `<name>.json` file per domain, in order, holding that domain's config |
| LauncherUtils.StoreServerDomainConfigs | psknode/tests/util/ApiHubTestNodeLauncher/launcher-utils.js:162-171 | succeeds iff the folder is a string and all writes succeed; then, for every configured name, `domains/<name>.json` holds the config of the last domain of that name, and no file outside `domains/` changes |
| LauncherUtils.LastOccurrence | psknode/tests/util/ApiHubTestNodeLauncher/launcher-utils.js:164-170 | every name in a well-formed domain list has a last occurrence: an index with that name and no later domain of the same name, whose write is the one left on disk |
| LauncherUtils.StoreBdns | psknode/tests/util/ApiHubTestNodeLauncher/launcher-utils.js:173-199 | succeeds iff the folder is a string, the table is an object or a string, and every mkdir/write it attempts succeeds; then `bdns.hosts` holds the table, every key of an object table has `bdns/<key>.json` holding its entry, nothing outside `bdns/` but `bdns.hosts` changes, and with no entries nothing else is written |
| LauncherUtils.StoreBdnsReadBack | psknode/tests/util/ApiHubTestNodeLauncher/launcher-utils.js:190-198 | after the per-domain writes every key's file holds its entry and files outside `bdns/` are untouched |
| Launcher.DefaultValues | psknode/tests/util/ApiHubTestNodeLauncher/index.js:21-33 | the defaults give `maxTries` 100 and null `domains`, `bdns` and `contractBuildFilePath` |
| Launcher.DefaultFacts | psknode/tests/util/ApiHubTestNodeLauncher/index.js:21-33 | the defaults have unique keys, no `port` or `storageFolder`, and shapes every launcher accepts |
| Launcher.Search | psknode/tests/util/ApiHubTestNodeLauncher/index.js:55-65 | the first free candidate is taken; every earlier candidate was busy and cost one unit of budget; when the budget runs out the last candidate is kept with budget 0 |
| Launcher.Allocate | psknode/tests/util/ApiHubTestNodeLauncher/index.js:53-66 | a truthy supplied port is used without generating a candidate or spending budget; otherwise the search above, never raising an error |
| Launcher.AwaitPortRelease | psknode/tests/util/ApiHubTestNodeLauncher/index.js:109-122 | at most 10 probes, stopping at the first free one; on exhaustion exactly 10 probes all busy |
| Launcher.ConstructFields | psknode/tests/util/ApiHubTestNodeLauncher/index.js:35-43 | the launcher's `maxTries`, `port`, `rootFolder` and `storageFolder` are the completed options' values |
| Launcher.ConstructLookup | psknode/tests/util/ApiHubTestNodeLauncher/index.js:40 | every completed option other than `storageFolder` and `domains` is the supplied value or, when that is `== null`, the default |
| Launcher.ConstructDomains | psknode/tests/util/ApiHubTestNodeLauncher/index.js:40-43 | the launcher's domains are the supplied ones, merged with the defaults iff `includeDefaultDomains` |
| Launcher.ConstructValid | psknode/tests/util/ApiHubTestNodeLauncher/index.js:35-43 | with the launcher's defaults: the port is the supplied one, `maxTries` the supplied number or 100, and the contract path is set iff one was supplied |
| Launcher.New | psknode/tests/util/ApiHubTestNodeLauncher/index.js:35-43 | the constructor: falsy options mean the defaults; the result is well formed with the supplied port, `maxTries` or 100, and contract mode iff `contractBuildFilePath` is truthy |
| Launcher.ValidatorDID | psknode/tests/util/ApiHubTestNodeLauncher/launcher-utils.js:69-77 | a truthy supplied `validatorDID` is returned without a call; otherwise one identity creation, whose identifier string is returned or whose rejection is passed on |
| Launcher.Configure | psknode/tests/util/ApiHubTestNodeLauncher/index.js:70-73 | a failure is a pre-`try` error; success needs a string `rootFolder` and leaves `apihub.json` holding the server config and, for every domain name, `domains/<name>.json` holding that domain's config; with working collaborators a string `rootFolder` suffices |
| Launcher.Register | psknode/tests/util/ApiHubTestNodeLauncher/index.js:75-91 | the validator DID is undefined without a contract, the supplied one when given, otherwise a created identifier; on success the BDNS table is the supplied truthy `bdns` or an object keyed by exactly the domain names, and it is on disk (`bdns.hosts` and one `bdns/<key>.json` per key) with nothing else changed; failures are pre-`try` errors |
| Launcher.Publish | psknode/tests/util/ApiHubTestNodeLauncher/index.js:84-91 | derives the BDNS table (the supplied truthy `bdns`, else one entry per domain name) and stores it: on success `bdns.hosts` and every per-key file hold it and nothing outside `bdns/` changes; failures are pre-`try` errors; with working collaborators and a string `rootFolder` it succeeds |
| Launcher.Prepare | psknode/tests/util/ApiHubTestNodeLauncher/index.js:52-91 | everything before the `try`: the allocated port and budget, `nodeUrl = "http://localhost:" + port`, the validator DID, and only pre-`try` errors; on success the server config, every domain config and the BDNS table (keyed by the domain names unless `bdns` was supplied) are all on disk together |
| Launcher.PreparedFilesCoverDomains | psknode/tests/util/ApiHubTestNodeLauncher/index.js:70-88 | after a successful preparation `apihub.json` exists, every domain name has its `domains/` file, and without a supplied `bdns` the stored `bdns.hosts` is an object whose keys are exactly the domain names, each with its `bdns/` file |
| Launcher.Start | psknode/tests/util/ApiHubTestNodeLauncher/index.js:125-127 | a collaborator call that may hang (never settle), reject, or return the oracle's reply |
| Launcher.StartNode | psknode/tests/util/ApiHubTestNodeLauncher/index.js:125-143 | the worker is used iff `useWorker`; a hang never settles, a rejection is a `try` error, and success assembles the result from port, node URL, folders, seed and DID |
| Launcher.RunTry | psknode/tests/util/ApiHubTestNodeLauncher/index.js:93-143 | the `try` region never raises a pre-`try` error; without a contract the domains and files are untouched; in contract mode a hanging or rejecting worker leaves the domains unpatched (stuck, or rejected with the worker's error), otherwise the domains are patched in place with the worker's seed, and a launch returns that seed with every patched config written; when no collaborator fails or hangs it launches |
| Launcher.LaunchedConfigsCarrySeed | psknode/tests/util/ApiHubTestNodeLauncher/index.js:101-107 | after a contract launch every domain name's `domains/<name>.json` holds a config whose `contracts.constitution` is the returned `domainSeed` |
| Launcher.PatchKeepsNames | psknode/tests/util/ApiHubTestNodeLauncher/launcher-utils.js:143-153 | the in-place patch keeps the set of domain names |
| Launcher.RunAttempt | psknode/tests/util/ApiHubTestNodeLauncher/index.js:52-143 | one pass: it is fatal iff the pre-`try` steps fail, and then with exactly their error; `try` failures are retryable; a resolved result is well formed on the allocated port |
| Launcher.WellLaunchedAcrossRetries | psknode/tests/util/ApiHubTestNodeLauncher/index.js:146-152 | a restart keeps the options, port and folders, so a result well formed for the retry is well formed for the original launcher |
| Launcher.LaunchAsync | psknode/tests/util/ApiHubTestNodeLauncher/index.js:52-153 | terminates after at most `max(1, maxTries)` attempts; resolves iff the last attempt launched, with a well-formed result; rejects with the last attempt's error; a second attempt happens iff the first failed inside the `try` with budget above 1; every retried error is a `try` error, the first being the first attempt's; a `try` error rejects only once the budget is at or below 0 |
| Launcher.PreTryFailureNotRetried | psknode/tests/util/ApiHubTestNodeLauncher/index.js:52-91 | when the steps before the `try` fail, the launch makes one attempt and rejects with exactly that error |
| Launcher.RetrySpendsBudget | psknode/tests/util/ApiHubTestNodeLauncher/index.js:144-152 | every retry costs one unit of the shared budget: the remaining budget is at most `maxTries` minus the retries, minus one more when the last attempt failed inside the `try` |
| Launcher.RetryRestarts | psknode/tests/util/ApiHubTestNodeLauncher/index.js:144-152 | after a failure inside the `try` with budget above one, the launch settles exactly as a fresh launch with one unit less on the domains the failed attempt left, counting one more attempt and that error as the first retried |
| Launcher.NoRetryEndsLaunch | psknode/tests/util/ApiHubTestNodeLauncher/index.js:52-152 | in every other case the first attempt ends the launch: one attempt, nothing retried, resolving, rejecting with the attempt's own error, or never settling as the attempt did, with one unit spent on a `try` failure |
| Launcher.FixedPortBudgetExact | psknode/tests/util/ApiHubTestNodeLauncher/index.js:53-152 | with a supplied port the budget left is exactly `maxTries` minus one per `try` failure, and a launch that rethrows a `try` failure has made all `max(1, maxTries)` attempts |
| Launcher.FailingStartFailsAttempt | psknode/tests/util/ApiHubTestNodeLauncher/index.js:52-127 | with a fixed port, working configuration steps and an instance start that always rejects, one attempt spends no budget and fails inside the `try` with the start's rejection |
| Launcher.FailingStartExhaustsBudget | psknode/tests/util/ApiHubTestNodeLauncher/index.js:144-153 | with a fixed port and an instance start that always rejects, the launch makes exactly `max(1, maxTries)` attempts and rethrows the start error |
| Launcher.FirstAttemptLaunchesWhenNothingFails | psknode/tests/util/ApiHubTestNodeLauncher/index.js:52-143 | when no collaborator fails, the first attempt resolves on the allocated port |
| Tir.DomainRecordFields | psknode/tests/util/tir.js:40-49 | the stored record: name, agents, constitution folder, `workspace = rootFolder/nodes/key`, `blockchain = workspace/conf`, bundles folder defaulting to the bundles path |
| Tir.AddDomain | psknode/tests/util/tir.js:39-50 | stores or overwrites the record under the domain name; other entries unchanged; a new name is appended |
| Tir.StartLaunch | psknode/tests/util/tir.js:58-70 | a callable-only call shifts the arguments; the "Test node already launched!" and "VirtualMQ node already launched!" guards; an undefined callable with a nullish first argument throws a TypeError; success iff no node is set |
| Tir.DomainCountdown | psknode/tests/util/tir.js:175-183 | with N domains the callback fires once, on the N-th boot message, and never for N = 0 or later messages |
| Tir.AgentTransactions | psknode/tests/util/tir.js:309-344 | without agents the callback fires once with no error; otherwise every error is reported, success fires iff the first agents+1 replies all succeed, and only ever as the first call, so at most once and never after an error |
| Tir.MonitorTries | psknode/tests/util/tir.js:229-237 | the bind budget is the given number when it is a non-negative number, otherwise 100 |
| Tir.BindMonitor | psknode/tests/util/tir.js:246-261 | at most that many bind attempts; success on the first bind that works; otherwise "Could not find a free port for zeromq" after all attempts failed |
| Tir.VirtualMQArgs | psknode/tests/util/tir.js:194-213 | `(object, cb)` uses the object; `(folder, cb)` gives `{maxTries: 100, rootFolder: folder}`; `(cb)` gives `maxTries` 100; `(n, folder, cb)` gives `{maxTries: n, rootFolder: folder}` |
| Tir.LaunchNode | psknode/tests/util/tir.js:215-223 | the VirtualMQ node is recorded exactly when the launch resolves |
| Tir.LaunchVirtualMQNode | psknode/tests/util/tir.js:194-224 | delivers the launched port, or the launch error, of a launcher built from the normalised config |
| Tir.ConfigurableOptions | psknode/tests/util/tir.js:486-489 | a truthy non-object config is rejected with "Invalid config specified"; a falsy one becomes `{}`; an object is kept |
| Tir.LaunchConfigurable | psknode/tests/util/tir.js:485-495 | rejects an invalid config with "Invalid config specified"; otherwise resolves iff the launch does, with the launch result minus `node` and the node recorded, and rejects iff the launch does, with the same error |
| Tir.DeliverSummary | psknode/tests/util/tir.js:491-494 | the delivered summary is the launch result without `node` when the launch resolves, and the launch's own error when it rejects |
| Tir.ContractBase | psknode/tests/util/tir.js:525-531 | an object domain replaces the config; a `null` domain empties it; any other domain (string, number, boolean, function, undefined) keeps the config, an object config as it is and a falsy, number, boolean or function config as `{}` |
| Tir.ContractOptions | psknode/tests/util/tir.js:521-537 | rejects a missing or non-string path; with neither a truthy non-object domain argument (a name, a number, a function) nor `config.domains` the domains are `["contract"]`, otherwise they are kept; the path is added and everything else kept |
| Tir.ContractDomainConfig | psknode/tests/util/tir.js:543-546 | the returned domain config is the first domain's config (when it is an object) with `contracts.constitution` set to the seed |
| Tir.ContractLauncher | psknode/tests/util/tir.js:537-538 | the launcher built from those options runs in contract mode |
| Tir.ContractDomains | psknode/tests/util/tir.js:531-534 | for any domain argument: with neither a truthy non-object domain nor `config.domains` the domains become `["contract"]`; otherwise the config is unchanged; other options are kept |
| Tir.NumberDomainSuppressesDefault | psknode/tests/util/tir.js:525-534 | a `domain` of `5` is not an object and is truthy, so it leaves `domains` unset instead of `["contract"]` |
| Tir.ZeroDomainKeepsDefault | psknode/tests/util/tir.js:525-534 | a `domain` of `0` is falsy, so the domains become `["contract"]` |
| Tir.NumberConfigSpreadsEmpty | psknode/tests/util/tir.js:525-531 | a `config` of `5` next to an absent domain starts the options from `{}` |
| Tir.ContractRun | psknode/tests/util/tir.js:538-554 | resolves iff the launch does, with the launch result without `node`, a string seed, a `domainConfig` whose `contracts.constitution` is that seed, and the node recorded; rejects iff the launch does, with the same error |
| Tir.DeliverContract | psknode/tests/util/tir.js:543-554 | the delivered result is the launch result without `node` plus a `domainConfig` whose `contracts.constitution` is the string `domainSeed`; a rejection passes the launch's error on |
| ExitHandler.Handle | engine/util/exitHandler.js:5-17 | one kill per child, in key order, and exit status 0 iff no kill threw and there was at least one child; no exit call otherwise; a throw happens at the first missing child or failing kill, and exactly the kills before it (plus that one when it had a pid) are issued |
| ExitHandler.Install | engine/util/exitHandler.js:20-23 | the same handler is appended once for each of the six events, in order, after the existing listeners |
| ExitHandler.DistinctRegistrations | engine/util/exitHandler.js:20-23 | with distinct event names, an event runs the handler once if registered and never otherwise |
| ExitHandler.EveryEventRunsHandler | engine/util/exitHandler.js:1-23 | each of `exit`, `SIGINT`, `SIGUSR1`, `SIGUSR2`, `uncaughtException` and `SIGTERM` runs the handler, on every delivery; no other event does |

## Left out

- **JavaScript numbers** are mathematical integers. Floating point, `NaN` and string-to-number coercion are not modelled.
- **`path.join` normalisation** is not modelled. Paths are plain concatenations with `/`.
- **`JSON.stringify`** and the exact file format are not modelled. A written file holds the value itself (`Io.Content`).
- **`fs.mkdtempSync`**: the fresh storage folder is a parameter.
- **`tir.js` parameters**: `createKey` and the default bundles path are also parameters.
- **Logging** (`console`, `Logger`) is left out: it has no effect on results.
- **Worker and instance plumbing** is an oracle. This covers `ApiHubTestNodeLauncherWorkerBoot.js`, `createApiHubInstanceWorkerAsync`, `createApiHubInstanceAsync` and `runOctopusScriptAsync`.
  - A boot error is only logged in the worker, so the parent never settles; this is the oracle's `hangs`.
  - The contract worker's `domainSeed` is modelled as a string.
- **`psknode/core/ConfigBuilder.js`** is not part of this model. It is DSU creation, CSB transactions and an unbounded HTTP polling loop.
- **The rest of `tir.js`** is left out: the DSU bundle-building callback chain, zeromq sockets and swarm-engine wiring, timers, `tearDown`, and module-load side effects. Of the agent countdown, only the counter logic is modelled (`Tir.AgentTransactions`), over a sequence of transaction replies.
- **`launchApiHubTestNodeWithContract`** (the callback form) is left out: it forwards the wrong arguments to the async form (`tir.js:516`).
- **`Tir.LaunchWithContract`** only composes `Tir.ContractOptions` and `Tir.ContractRun`; the properties are stated on those two.
- **Node's process semantics around the exit handler** are left out: `process.exit` re-entering the `exit` listener, and a throw inside a listener. `ExitHandler.Handle` stops at the first throwing kill. `process.kill`'s answer is an oracle.
- **Launcher.AcceptableOptions**: the launcher is only modelled for options whose `maxTries` is nullish or a number, whose `port` is a primitive (undefined, null, boolean, number or string), whose `domains` is falsy or a list of well-formed domains, and whose `bdns` is falsy or a truthy non-array value. Other shapes make the source throw or coerce in ways the model does not follow.
- **LauncherUtils.WellFormedDomain**: a domain is a string, or an object with a string `name` and an object `config` whose `contracts` is falsy or an object. Other shapes are left out for the same reason.
- **LauncherUtils.StoreBdns**: only modelled for a truthy, non-array BDNS value (`LauncherUtils.BdnsShape`). `getBDNSEntries` never yields a falsy one.
- **Tir.VirtualMQAcceptable and Tir.ConfigurableAcceptable**: the tir entry points are only modelled for arguments that lead to acceptable launcher options.
- **Tir.ContractArgsAcceptable**: the contract launch takes any `domain` and `config` except these:
  - an array `domain`;
  - when `domain` is not an object or `null`, a non-empty string or array `config`. Spreading those yields index keys (`"0"`, `"1"`, …), which the model's options do not represent.
  - Object arguments must also be acceptable launcher options, as above.
- **Functions as JavaScript values** are opaque (`Js.Value.Fn`). Reading a property of a function gives `undefined`, except that `tearDownAfter.call` is recognised in `Tir.StartLaunch`.
- **Launcher.LaunchAsync**: the attempt bound is `max(1, maxTries)`, not `maxTries`. See above for why the code allows one attempt at budget 0.
- **Object key order for array-index keys**: JavaScript enumerates integer-like keys (`"0"`, `"42"`) in ascending order before all other keys. The model keeps plain insertion order (`Js.Put`, `Tir.AddDomain`), so "a new key is enumerated last" holds only for keys that are not array indices, such as ordinary domain names.
- **Hangs of the configuration steps**: only the node starts and the contract worker (`Launcher.Start`) can fail to settle. DID creation and resolution (`Io.Collaborator.CreateIdentity`, `Io.Collaborator.ResolveDid`), the environment set-up, `mkdir`, the file writes and `setBDNSHosts` always settle, by rejecting or succeeding, so a promise of theirs that never settles is not modelled.
- **Launcher.Search / Launcher.AwaitPortRelease**: `isPortAvailableAsync` always resolves, with the oracle's answer (`World.portFree`). A rejection of that probe is not modelled. In the source it would be a pre-`try` error, not retried, during allocation (`index.js:59`), and a retried `try` error while waiting for the contract worker to release the port (`index.js:111`). The port helpers' module `tir-utils.js` is not part of this model.
