# BranchOff.js orchestration core, modelled in Dafny

BranchOff deploys every branch of a Git repository as its own running
instance. A GitHub webhook event becomes a *pipeline*, and every pipeline
is a sequence of tasks on a serial queue. The staging run (mode `test`)
clones the branch, fires its `create` hook, starts it and fires its `test`
hook. It then fires `pass` or `fail` and tears the staging copy down.
After a pass, `create` and `update` promote the branch to its release
context.

Each deployment is a *context*. It has an id derived from
(uri, branch, mode), a checkout directory, a port and a scale. Contexts
live in a JSON registry file, the "ecosystem". Per-branch behaviour comes
from a configuration file in the checkout: the preferred port, pm2 settings
and layered environment variables.

This project models the orchestration logic of `core.js` and `app.js`:

- `values.dfy` (`Values`): JavaScript values and truthiness, the `||`
  chain, loose `== true`, ASCII lower-casing, decimal text.
- `registry.dfy` (`Registry`): the context record, the id sanitiser, the
  persisted copy (without `config`), the read fallback, first-fit port
  allocation and the scale clamp.
- `cascade.dfy` (`Cascade`): the eight-key preferred-port chain, the
  `instances`/`execMode` defaults, and the twenty-layer environment merge.
- `hooks.dfy` (`Hooks`): hook selection and its `(0, "No file")`
  fallback, commit pinning in `create`/`update`, the process-manager name.
- `accept.dfy` (`Accept`): the `uris`/`branches` allow-list filter.
- `core.dfy` (`Core`): class `Orchestrator`. It holds the registry file as
  state, and has `available`, `save`, the registry step of `destroy`,
  `resolve` (with its labelled port scan as a loop), `configuration`,
  `env` and `trigger`. It also runs a pipeline's step list against the
  registry, which ties the step effects in `pipeline.dfy` to these
  operations.
- `queue.dfy` (`Queue`): class `TaskQueue`, the `async.queue` of
  concurrency 1 and its worker's completion rule, plus `defer`.
- `pipeline.dfy` (`Pipeline`): the steps each pipeline (`restore`,
  `create`, `test`, `update`, `destroy`) runs when it runs alone, and
  what those steps do to the set of registered ids.
- `events.dfy` (`Events`): `handleGitEvent`, from event name and payload
  to a pipeline, to no operation, or to an error.

Several behaviours of the code are stated as they are. Some of them
differ from what one might expect:

- A requested scale of 0 is stored as 0. There is no lower bound of 1.
- A `pull_request` event, or any event other than `create`, `push`,
  `update` or `destroy`, starts nothing.
- The `after` commit of a push is never read.
- A `create` event uses the whole `ref` as the branch. A `push` uses only
  the text after its last `/`.
- A test run ended by a signal reports a `null` code, which is falsy. It
  therefore counts as a pass and promotes. A missing test hook reports 0
  and promotes too.
- Ids are not unique per (uri, branch, mode). The release context of
  branch `footest` and the staging context of branch `foo` share one id.
  A test run of `foo` then adopts the `footest` release entry, sets its
  mode to `test`, and tears down the staging id of `footest` instead of
  its own, so the adopted entry stays registered.

## Model

| member | source | states |
|---|---|---|
| Values.OrChainFirstTruthy | core.js:416-423 | a chain of JavaScript OR operators yields the first truthy operand, with every earlier one falsy; when all are falsy it yields the last operand |
| Values.DigitsRoundTrip | core.js:348 | the decimal text of a port reads back as that port |
| Registry.Sanitize | core.js:199 | deleting the characters outside `[a-zA-Z0-9-]` yields a string no longer than the input made only of id characters |
| Registry.SanitizeAppend | core.js:199 | deleting the characters outside `[a-zA-Z0-9-]` from a concatenation sanitises each part separately |
| Registry.SanitizeKeepsIdChars | core.js:199 | a string made only of id characters is left unchanged |
| Registry.SanitizeIdempotent | core.js:199 | sanitising twice is the same as sanitising once |
| Registry.ContextId | core.js:196-200 | the id has only id characters and is exactly the kept characters of uri, branch and mode, in order |
| Registry.StagingIdDiffers | core.js:199 | the staging id (mode `test`) of a branch never equals its release id (mode `''`) |
| Registry.IdsCollideAcrossModes | core.js:199 | branch `footest` in mode `''` and branch `foo` in mode `test` get the same id |
| Registry.IdsCollideOnDroppedChars | core.js:199 | branches `feature/x` and `featurex` get the same id |
| Registry.PersistedUpsert | core.js:156-161 | writing an upserted map is the written map with that one key upserted; writing twice is writing once |
| Registry.PortFree | core.js:144-154 | a port is free when no registry entry holds it; its properties are stated by `AllocatedPortIsFirstFit` |
| Registry.FirstFreeFrom | core.js:210-219 | the labelled port scan from a given port; its properties are stated by `FirstFreeFromIsFirstFit` |
| Registry.AllocatedPort | core.js:203-219 | the port a new context gets; its properties are stated by `AllocatedPortIsFirstFit` |
| Registry.AllocatedPortIsFirstFit | core.js:209-219 | a new context gets the least port of `[start, end)` held by no entry, or `start` exactly when all are held |
| Registry.FirstFreeFromIsFirstFit | core.js:209-219 | the scan from any port of the range returns the least free port from there on, or `start` |
| Registry.ClampedScale | core.js:231-235 | the scale is the absolute value of a numeric request, else of the previous scale (1 when it was falsy), capped at the instance cap |
| Registry.ZeroScaleStaysZero | core.js:232-235 | a requested scale of 0 is stored as 0 |
| Cascade.EffectiveMode | core.js:248 | the mode used in key paths and `BRANCHOFF_MODE` is never empty: the context's mode when set, `release` exactly when it is empty |
| Cascade.PreferPortPaths | core.js:416-423 | the preferred-port keys, eight of them, most specific first and bare `preferPort` last |
| Cascade.LookupAll | core.js:416-423 | each element is the lookup of the path at the same position |
| Cascade.PreferredPort | core.js:415-423 | the OR chain over the eight lookups; its properties are stated by `PreferredPortPrecedence` |
| Cascade.PreferredPortPrecedence | core.js:415-423 | the preferred port is the first truthy of the eight lookups in order, or the bare `preferPort` value when none is truthy |
| Cascade.TakesPreferredPort | core.js:429 | the preferred port is taken when it is a number that no registry entry holds; used by `Core.ConfigurationCaches` and `Core.ConfigurationKeepsPortsDistinct` |
| Cascade.Instances | core.js:426 | `instances` is config `pm2.instances` when truthy, else the context's scale |
| Cascade.ExecMode | core.js:427 | `execMode` is config `pm2.exec_mode` when truthy, else `cluster`; it is always truthy |
| Cascade.EnvPaths | core.js:258-274 | the seventeen `env` config blocks, in the order written, the duplicated `#mode` keys included, with the most specific block last |
| Cascade.Merge | core.js:250 | `Object.assign` over layers; its properties are stated by `MergeLastWins` |
| Cascade.MergeLastWins | core.js:250-275 | in an `Object.assign` merge, a key is present iff some layer defines it, and it holds the value of the last layer that does |
| Cascade.BuiltIns | core.js:251-257 | the built-in layer defines exactly the seven `BRANCHOFF_*` variables |
| Cascade.ProcessEnvLayer | core.js:250 | the process-environment layer has exactly the process environment's keys |
| Cascade.EnvLayers | core.js:250-275 | the merge has twenty layers: process env, the built-ins, the seventeen config blocks in the order written, then `extra` |
| Cascade.Environment | core.js:244-279 | the environment `env` returns; its properties are stated by `EnvironmentPrecedence` |
| Cascade.EnvironmentPrecedence | core.js:250-275 | `extra` always wins; a key is in the environment iff some layer defines it; with no later layer defining them, `BRANCHOFF_MODE` is the effective mode and `BRANCHOFF_BRANCH` the branch |
| Hooks.HooksDir | core.js:303 | the hooks directory is config `hooksDir` when truthy, else `hooks`; a truthy non-string makes `path.join` throw, and there is then no directory |
| Hooks.HookCandidates | core.js:301-304 | two candidates, the per-checkout `branchoff@<event>` first; each script lies in the directory it is run from |
| Hooks.SelectExists | core.js:282-295 | the chosen candidate is an existing non-directory file and every earlier candidate is not; none is chosen iff no candidate qualifies |
| Hooks.PlanHook | core.js:297-308 | the per-checkout script runs from the checkout when it is a file; otherwise the hooks-directory script runs from the hooks directory when it is a file; otherwise, or when `path.join` throws, no hook runs |
| Hooks.MissingHookIsSuccess | core.js:297-313 | with neither candidate a file, or with a hooks directory that makes `path.join` throw, `trigger` reports code 0 and `No file` whatever the shell would report; when the per-checkout hook exists its result is passed on |
| Hooks.PinnedCommit | core.js:321-325 | the commit chosen is the argument when non-empty, else the context's commit; it is reset to exactly when it is a string other than `latest` in any letter case |
| Hooks.PinnedCommitLatest | core.js:336-340 | a stored commit is dropped iff it spells `latest` in some letter case |
| Hooks.ProcessName | core.js:441 | the process-manager name; its properties are stated by `ProcessNameCarriesPort` |
| Hooks.ProcessNameCarriesPort | core.js:441 | the process name starts with the port's digits and a dash, and the port reads back from it |
| Accept.TrimStart | core.js:491 | only leading blanks are removed, and the result does not start with one |
| Accept.TrimEnd | core.js:491 | only trailing blanks are removed, and the result does not end with one |
| Accept.Trim | core.js:491 | `trim()` removes blanks only, and only at both ends |
| Accept.Split | core.js:492 | `split(',')` yields at least one piece, and no piece holds a comma |
| Accept.SplitJoin | core.js:492 | joining the pieces of a split with commas gives back the setting exactly |
| Accept.AcceptsBounds | core.js:488-506 | with no allow-lists everything is accepted; a uri containing a comma never matches a non-empty list |
| Core.ConfiguredContext | core.js:394-435 | the context `configuration` leaves behind; its properties are stated by `ConfigurationCaches` and `ConfigurationKeepsPortsDistinct` |
| Core.UpsertKeepsPortsDistinct | core.js:156-161 | upserting a context that keeps its own port, or takes a free one, keeps all registered ports distinct |
| Core.ConfigurationCaches | core.js:394-435 | a second `configuration` is a cache hit; the port changes only on a miss, only to the preferred port, and only when no entry holds it; only the cached fields and the port change |
| Core.ConfigurationKeepsPortsDistinct | core.js:429-432 | taking the preferred port and saving keeps all registered ports distinct |
| Core.Orchestrator.Ecosystem | core.js:166-174 | reading the registry file through `Registry.Read`, where a missing, unparsable or non-object file reads as `{}` |
| Core.Orchestrator.Available | core.js:144-154 | `available(port)` holds when no registry entry holds the port |
| Core.Orchestrator.Write | core.js:175-187 | the file afterwards holds the map with every `config` removed, and reading it back gives that map, with the same ids |
| Core.Orchestrator.Save | core.js:156-161 | the registry afterwards is the old one with exactly the context's id upserted |
| Core.Orchestrator.Forget | core.js:356-358 | the registry afterwards is the old one without the id, and unchanged when the id was absent |
| Core.Orchestrator.ScanPorts | core.js:209-219 | the labelled scan returns the first-fit port: a free port of the range, or `start` when every port is held |
| Core.Orchestrator.Resolve | core.js:194-242 | an existing entry keeps its port, cwd and dir, and a new one gets the first-fit port; `commit` changes only for a string; `mode` is set; the scale is clamped; the registry maps the id to the result and gains exactly that id; ids stay keyed and ports stay distinct |
| Core.Orchestrator.RunSteps | app.js:21-114 | running a step list through `resolve` and the registry step of `destroy` changes the registered ids exactly as `Pipeline.KeysAfter` says |
| Core.Orchestrator.RunDeploy | app.js:45-102 | `create` or `update` run on the registry, with the staging id free or the staged context's own: the staging id is gone afterwards, and the release id is registered iff the test passed or it already was |
| Core.Orchestrator.Configure | core.js:394-435 | the result is the configured context; the registry is written only when the preferred port is taken, and then with that one entry upserted |
| Core.Orchestrator.Env | core.js:244-279 | the environment is the twenty-layer merge over the configured context; with a cached config nothing changes |
| Core.Orchestrator.Trigger | core.js:297-313 | `trigger` configures the context, plans the hook, and reports `(0, "No file")` when there is none |
| Queue.TaskQueue.Defer | core.js:94-97 | a deferred task is appended and nothing starts |
| Queue.TaskQueue.StartNext | core.js:68-88 | with nothing in flight, the head task starts; it stays in flight only when it takes `next`; otherwise nothing happens; FIFO order and concurrency 1 are kept |
| Queue.TaskQueue.Complete | core.js:72-76 | `next` ends the task in flight; a call with nothing in flight changes nothing |
| Queue.SerialRun | core.js:68-97 | for any two deferred tasks the first starts at once; the second starts alongside it only when the first finishes at once, and otherwise only after `next` is called |
| Pipeline.DestroyPlan | app.js:103-114 | the destroy pipeline's steps; their effect is stated by `DestroyRemovesOnlyItsId` |
| Pipeline.StagedOwner | core.js:206-207 | the uri and branch of the context the staging `resolve` returns: the stored entry's when the staging id is registered, else the pipeline's own |
| Pipeline.TeardownId | app.js:77 | the test run tears down the staging id of the staged context's own uri and branch: the pipeline's staging id when it was free, else the stored entry's |
| Pipeline.TestPlan | app.js:63-82 | the test pipeline's steps; their shape and effect are stated by `TestPlanShape` and `TestPlanKeys` |
| Pipeline.PromotionPlan | app.js:52-57 | the promotion steps of `create` and `update`; their shape and effect are stated by `PromotionPlanShape` and `PromotionPlanKeys` |
| Pipeline.DeployPlan | app.js:45-102 | the steps of `create` and `update`; their effect is stated by `DeployPlanKeys` and their order by `TestGating` |
| Pipeline.DeployPlanResolvesOwnIds | core.js:196-200 | every resolve step of `create` and `update` stands for the id `resolve` computes from its own uri, branch and mode |
| Pipeline.EntryPlan | app.js:33-40 | the steps `restore` defers for one entry; their effect is stated by `RestorePlanKeys` |
| Pipeline.RestorePlan | app.js:22-44 | the steps of `restore`, entry by entry; their effect is stated by `RestorePlanKeys` |
| Pipeline.Effect | core.js:239 | a resolve step registers its id, a destroy step removes its id, and every other step leaves the ids alone |
| Pipeline.KeysAfter | app.js:21-114 | the registered ids after a step list; composed by `KeysAfterCons` and `KeysAfterAppend` |
| Pipeline.KeysAfterCons | app.js:21-114 | the effect of a step list is the effect of its first step followed by the rest |
| Pipeline.KeysAfterAppend | app.js:21-114 | the effect of two step lists in a row is their composed effect |
| Pipeline.KeysAfterNeutral | app.js:21-114 | steps that neither resolve nor destroy leave the registered ids alone |
| Pipeline.DestroyRemovesOnlyItsId | app.js:103-114 | the destroy pipeline removes its own id and no other; on an absent id the registry ends as it began |
| Pipeline.TestPlanKeys | app.js:63-82 | a test run registers the staging id and removes the teardown id, keeping every other id; when the staging id is free or the staged context's own, the staging id is gone afterwards |
| Pipeline.CollidingTestKeepsEntry | app.js:66-77 | when the staging id of `foo` holds the release entry of `footest`, the test run of `foo` tears down another id and the entry stays registered |
| Pipeline.PromotionPlanKeys | app.js:49-57 | a promotion registers the release id and changes nothing else |
| Pipeline.DeployPlanKeys | app.js:45-102 | after `create` or `update` the ids are the old ones with the staging id added and the teardown id removed, plus the release id after a pass; with the staging id the staged context's own, the staging id is gone and the release id is registered iff the test passed or it was already registered |
| Pipeline.TestPlanShape | app.js:63-82 | the test run has eleven steps, with the verdict sixth and the teardown of the staged context's own staging id before the test callback; the only pass/fail hook is the verdict; only the staging context is started |
| Pipeline.PromotionPlanShape | app.js:49-57 | a promotion touches only the release context and ends by starting it |
| Pipeline.VerdictGating | app.js:73-80 | `pass` fires iff the test code is falsy, and `fail` iff it is truthy |
| Pipeline.ReleaseStartGating | app.js:45-102 | the release context starts iff the test passed, and only after the test callback |
| Pipeline.TestGating | app.js:45-114 | the verdict hooks and the release start follow the test code; the teardown of the staged context's own staging id is steps 8 and 9, the test callback step 11, and the pipeline's callback always last |
| Pipeline.FalsyCodesPromote | app.js:73-80 | a signalled test run and a missing test hook both promote |
| Pipeline.RestorePlanKeys | app.js:22-44 | `restore` removes the staging id recomputed from each test-mode entry's uri and branch, and keeps every other id |
| Pipeline.RestoreRemovesStagingEntries | app.js:33-34 | when every test-mode entry is stored under its own staging id, none of them is registered after `restore` |
| Pipeline.Restore | app.js:22-44 | the restore loop emits, entry by entry, the destroy pipeline for a staging entry, and clone, `create` hook, start and callback for any other |
| Events.LastSlash | app.js:122 | `lastIndexOf('/')` is the position of the last slash, or -1 when there is none |
| Events.LastSegment | app.js:122 | the branch taken from a ref is its suffix after the last slash, and holds no slash |
| Events.EventBranch | app.js:117-125 | the branch is the repository's default branch when there is no `ref`, else a slash-free segment of it |
| Events.Normalise | app.js:127-148 | a ping throws; a branch create keeps the whole ref; a push is renamed, so neither `ping` nor `push` comes out |
| Events.PushEvent | app.js:138-147 | a push is `create` iff `created == true`, `destroy` iff not that and `deleted == true`, and `update` iff neither |
| Events.Dispatch | app.js:156-163 | only `create`, `update` and `destroy` start a pipeline, on the given uri and branch |
| Events.HandleGitEvent | app.js:116-164 | a missing repository throws; a started pipeline always has a non-empty uri and branch; without a `ref` the branch is the default branch (create aside); `create`, `push`, `update` and `destroy` never yield no operation |
| Events.RefusedEvents | app.js:128-135 | a ping always throws, and so does a create event whose ref type is not `branch` |
| Events.PushMapping | app.js:117-147 | a push is `create` when `created == true`, else `destroy` when `deleted == true`, else `update`; the branch is the ref's last segment |
| Events.CreateKeepsWholeRef | app.js:131-137 | a branch create event uses the whole ref as the branch, unlike a push of the same ref |
| Events.OtherEventsStartNothing | app.js:156-163 | any other event name, such as `pull_request`, starts no pipeline |
| Events.OpPlan | app.js:156-163 | a destroy from a webhook tears down the release context; no operation runs no step |
| Events.DeletedPushRemovesRelease | app.js:138-147 | a push that deletes a branch removes its release id from the registry and nothing else |

## Left out

- Shell commands (`exec`, core.js:99-142) and the command strings of `create`, `update` and `destroy` are not modelled. Only their exit code is modelled, as a parameter.
- pm2 calls in `start` and `destroy` are not modelled. A process manager is reached through asynchronous callbacks. `start` is not modelled beyond its process name.
- Filesystem I/O is not modelled. The registry file is an in-memory `Stored` value. The loaded config is a parameter. "Is an existing non-directory file" is an abstract predicate.
- A failed registry write is not modelled. The code only logs it, and the model assumes every write succeeds.
- Lookups do not split key paths on dots. `selectn` is an abstract lookup from the whole path to a value.
- A config layer that is a string would be spread into `env` by `Object.assign`. This is not modelled: such a layer, and any non-object layer, contributes nothing.
- `trim` and `toLowerCase` cover ASCII only, plus the common Unicode blanks listed in `Accept.Blank`.
- Numbers are integers. A fractional scale or port is not modelled.
- `Values.LooselyTrue`: `== true` holds only for `true`, the number 1 and the string `"1"`. Other strings that JavaScript reads as 1, such as `" 1"` or `"1.0"`, are not modelled.
- A context is a value that operations return, not an object mutated in place. Aliasing between a pipeline's copy and the registry is not captured.
- `resolve` runs synchronously outside the queue, so overlapping pipelines interleave. This race is not modelled: a pipeline is modelled running alone, as a list of steps.
- Logging, `hrtime` timing and the `drain` message are not modelled.
- The Express routes, the webhook handler wiring and the `ignite` command line are not modelled.
- `path.join` normalisation of `.` and `..` is not modelled.
- `Events.HandleGitEvent` does not model the exact message of the TypeError a missing repository raises.
- `Queue.TaskQueue.StartNext` does not model an exception thrown by a task.
- Registry.JoinPath: it is a plain join with one `/`. Duplicate and trailing separators are not collapsed as `path.join` does, and an empty base yields `/name` where `path.join` yields `name`.
- Registry.Read: a registry file holding JSON `null` passes the `typeof === 'object'` test at core.js:169, and the next `resolve` then throws at core.js:206. A JSON array passes that test too and is used as the registry. The model has no value for either file: `Stored` is unreadable, not an object, or a map.
- Core.Orchestrator.RunSteps: it only follows resolve and destroy steps. The other steps are assumed to add no id, and the port save of `configuration` upserts an id that is already registered.
- Core.Orchestrator.RunSteps and Core.Orchestrator.RunDeploy resolve with no scale and no commit: `create`, `update` and `destroy` from a webhook pass none.
