# Request lifecycle of the jovo BaseApp, in Dafny

This project models the request pipeline of the jovo framework's `BaseApp`
(`jovo-core/src/BaseApp.ts`): the fixed list of twelve named stages the
application registers when constructed, the one-time `setup` stage guarded
by the `initialized` flag, the linear walk through the remaining stages of
`handle`, the `ERR_NO_MATCHING_PLATFORM` abort after `platform.init`, and the
catch block that records the error on the request, runs the `fail` stage and
then calls `host.fail(e)`.

The handlers of each stage live in middleware that is not part of this
model. What they do is abstracted as an oracle (`BaseApp.Oracle`): for each
stage, "completes" or "throws error e", whether a `jovo` object exists
once `platform.init` has run, and whether the host's `fail` call returns or
throws. Given the application state and an oracle,
`BaseApp.Handle` is a pure function returning the new application state, the
stages run (the trace), the error recorded as `handleRequest.error`, the
arguments of the `host.fail` calls, and the error with which `handle` itself
rejects, if any. `Requests.Serve` folds `Handle` over a sequence of oracles,
one per request, to state how the `setup` flag behaves across requests.

Modules:

- `Wrappers` (wrappers.dfy): `Option`.
- `Stages` (stages.dfy): the stage datatype, stage names, the stage list, stage positions and name lookup.
- `ActionSets` (action_set.dfy): the per-stage middleware lists built from the stage list, and `setUp`.
- `BaseApp` (base_app.dfy): errors, the oracle, the application state, `getPlatformByName`, and `handle` split into its setup check, try block and catch block.
- `Requests` (requests.dfy): sequences of requests.

In three places the code does less than a request orchestrator is commonly
expected to do. The model follows the code:

- One might expect the host to be told of a failure even when the `fail`
  handlers themselves throw. In the code, `host.fail(e)` comes after the
  awaited `fail` stage (jovo-core/src/BaseApp.ts:172-173). So a throwing
  `fail` stage skips `host.fail`, and its error escapes `handle`. The model
  has this: `hostFails` is empty and `rejected` holds the `fail` stage's error.
- One might expect per-request errors never to escape `handle`. Errors
  thrown by the `fail` stage do, as described above.
- One might expect the setup barrier to be race-free. The code checks a plain
  boolean and then awaits `setup` (jovo-core/src/BaseApp.ts:110-114).
  Overlapping first requests could therefore each run `setup`. The model
  handles requests strictly one after another and claims nothing about
  overlap.

## Model

| member | source | states |
|---|---|---|
| Stages.StageListIsFixed | jovo-core/src/BaseApp.ts:42-55 | The registered names are exactly `setup, request, platform.init, platform.nlu, nlu, user.load, router, handler, user.save, platform.output, response, fail`, in that order. `fail` is last, every stage is in the list, and each stage sits at its own position. |
| Stages.Index | jovo-core/src/BaseApp.ts:42-55 | Every stage has a position in the stage list, and the list holds that stage at that position. |
| Stages.NameLookupRoundTrip | jovo-core/src/BaseApp.ts:42-55 | A stage's middleware name resolves back to that stage, and a name resolves to a stage exactly when it is that stage's name. So no two stages share a name. |
| ActionSets.ConstructedMiddlewareMatchesStages | jovo-core/src/BaseApp.ts:42-55 | In a freshly constructed application, a middleware exists for a name exactly when the name is a stage name, and it starts empty. So every `middleware(...)!` in `handle` finds its middleware. |
| ActionSets.SetUp | jovo-core/src/BaseApp.ts:74-76 | `setUp` appends the callback to the end of the `setup` middleware. It leaves the set of middleware names and every other middleware unchanged. |
| ActionSets.SetUpKeepsOrder | jovo-core/src/BaseApp.ts:74-76 | After several `setUp` calls, the `setup` middleware holds its earlier handlers followed by exactly the new callbacks, in registration order. No other middleware changes. |
| BaseApp.GetPlatformByName | jovo-core/src/BaseApp.ts:90-92 | The lookup finds a platform exactly when one is installed under that name, and then it is the installed one. |
| BaseApp.GetPlatformAfterInstall | jovo-core/src/BaseApp.ts:90-92 | The lookup finds the platform installed last under a name. Installing under one name does not change lookups of other names. A new application finds no platform. |
| BaseApp.TryStagesAreInnerPipeline | jovo-core/src/BaseApp.ts:115-154 | The stages `handle` walks in its try block are the stage list minus its first stage (`setup`) and its last stage (`fail`), in the same order. |
| BaseApp.RunStages | jovo-core/src/BaseApp.ts:115-154 | Walking the stages runs a prefix of them. Every stage before the last one run raised nothing. Without an error, all stages ran and none raised anything. With an error, it is the one raised by the last stage run. |
| BaseApp.RunStagesStopsAtFirstError | jovo-core/src/BaseApp.ts:115-154 | When stage k is the first stage to raise an error, the walk runs exactly the stages up to and including k, and reports k's error. |
| BaseApp.SetupPhase | jovo-core/src/BaseApp.ts:110-114 | `setup` runs exactly when the flag is unset. Afterwards the flag is set exactly when it was already set or `setup` completed. A throwing `setup` leaves the flag unset and reports its error. |
| BaseApp.TryBlock | jovo-core/src/BaseApp.ts:105-154 | The try block runs `setup` exactly when the flag was unset, and never runs `fail`. Without an error it runs `setup` if needed, then all ten stages in order. |
| BaseApp.CatchBlock | jovo-core/src/BaseApp.ts:170-173 | When the `fail` stage completes, `host.fail` is called once, with the caught error; `handle` then rejects exactly when the host throws, with the host's error. When `fail` throws, `host.fail` is not called and the `fail` error escapes. |
| BaseApp.Handle | jovo-core/src/BaseApp.ts:99-175 | One request: platforms are unchanged, `setup` runs exactly when the flag was unset, and the flag ends set exactly when it was set or `setup` completed. `fail` runs exactly when an error was recorded, and then it runs last. Without an error the host is not called. With an error, the host is called once with that same error if `fail` completes, and `handle` rejects exactly when that call throws, with the host's error; if `fail` throws, the host is not called and `handle` rejects with the `fail` error. |
| BaseApp.HappyPath | jovo-core/src/BaseApp.ts:115-154 | A request records no error exactly when no stage raises one. In that case the trace is `setup` (if the flag was unset) followed by the ten try-block stages in order. `fail` does not run, `host.fail` is not called and `handle` does not reject. |
| BaseApp.SetupErrorSkipsRest | jovo-core/src/BaseApp.ts:110-114 | A throwing `setup` is followed only by `fail`. Its error is recorded and the flag stays unset. |
| BaseApp.StageErrorSkipsRest | jovo-core/src/BaseApp.ts:155-173 | When try-block stage k is the first to raise error e, the later stages are skipped and the trace ends with `fail`. e is recorded on the request. The host receives exactly e once if `fail` completes, and nothing if `fail` throws. |
| BaseApp.NoMatchingPlatformGoesToFail | jovo-core/src/BaseApp.ts:116-124 | When `platform.init` completes without a `jovo` object, the `ERR_NO_MATCHING_PLATFORM` error is recorded. The trace is `[setup?] request, platform.init, fail`, and the host receives that error if `fail` completes. |
| BaseApp.NoJovoNeverPassesInit | jovo-core/src/BaseApp.ts:116-124 | Without a `jovo` object, no stage after `platform.init` except `fail` runs, whatever the other stages do. |
| BaseApp.TraceFollowsStageList | jovo-core/src/BaseApp.ts:105-173 | The stages of every request, failed or not, appear in stage-list order. So no stage runs twice, and `fail` is last when it runs. |
| Requests.Serve | jovo-core/src/BaseApp.ts:110-114 | Across a sequence of requests, platforms are unchanged and a set flag stays set. The flag ends set exactly when it started set or some request's `setup` completed. |
| Requests.InitializedNeverRunsSetup | jovo-core/src/BaseApp.ts:110-114 | Once the application is initialized, no later request runs `setup`, and it stays initialized. |
| Requests.SetupRunsUntilItSucceeds | jovo-core/src/BaseApp.ts:110-114 | Starting uninitialized, request i runs `setup` exactly when every earlier request's `setup` threw. |
| Requests.SetupRunCount | jovo-core/src/BaseApp.ts:110-114 | Starting uninitialized, `setup` runs once per leading request whose `setup` throws, plus once for the first request whose `setup` completes, if there is one. |
| Requests.NoSetupRunsOnceInitialized | jovo-core/src/BaseApp.ts:110-114 | An initialized application runs `setup` in none of its requests. |
| Requests.SetupRunsExactlyOnce | jovo-core/src/BaseApp.ts:110-114 | Starting uninitialized, when the first request's `setup` completes, `setup` runs exactly once over the whole sequence, in that first request, and the application ends initialized. Later requests' `setup` outcomes do not matter, since they never run it. |

## Left out

- The process hooks for `unhandledRejection`, `uncaughtException`, `exit` and `SIGINT`, and the `NODE_ENV` gate around them (jovo-core/src/BaseApp.ts:7-17, 57-67). These are process I/O with no effect on the pipeline.
- The diagnostic statements are assumed not to throw. In the code they read fields of the `jovo` object (jovo-core/src/BaseApp.ts:127-129, 136-137, 148, 162-166). A `jovo` object lacking `$session`, for example, would make them throw: inside the try block that error would go to `fail`, and inside the catch block it would escape before `fail` runs.
- The `JOVO_LOG_LEVEL` setting, all `Log` diagnostics, the `JSON.stringify` snapshots of the `jovo` object and `JovoError.printError`. They affect observability only. The model does not represent the contents of the `jovo` object, only whether it exists after `platform.init`.
- What stage handlers do. Middleware `run` is not part of this model: the outcome of running a stage is an input (the oracle). The model does not cover an unknown stage name being refused at registration.
- ActionSets.Create, ActionSets.Middleware and ActionSets.SetUp rest on assumed behaviour of code outside `BaseApp.ts`. `Extensible`, `ActionSet` and middleware `use` are not part of this model. The model assumes the `ActionSet` constructor creates one empty handler list per given name, `middleware(name)` looks that list up by name, and `use` appends to it. `ActionSets.ConstructedMiddlewareMatchesStages` and `ActionSets.SetUpKeepsOrder` hold under these assumptions. `BaseApp.Handle` does not consult the action set; the oracle stands for running it.
- Which platform produces the `jovo` object. The oracle's `jovoAfterInit` stands for it, and the platform map is never consulted by `handle`.
- Overlapping asynchronous `handle` calls. Requests are handled strictly one after another, so the model makes no race-freedom claim about the `setup` flag.
- `tearDown`, `onRequest`, `onResponse`, `onError`, `onFail` and `initWebhook` (jovo-core/src/BaseApp.ts:83-87, 95-97, 177-199). These are thin wrappers over an event emitter that is not part of this model.
- The empty `install` and `uninstall` (jovo-core/src/BaseApp.ts:201-207). They do nothing.
- The `config`, `$db`, `$cms` and `$data` fields. `handle` does not read them.
- The `app` and `host` references on the request context (jovo-core/src/BaseApp.ts:100-104). The host appears only through the arguments of its `fail` calls (`hostFails`) and their outcome. Stage handlers receive `app` and could change the application, `$platform` included. The oracle cannot change application state, so "platforms are unchanged" in `BaseApp.Handle` and `Requests.Serve` holds only for handlers that leave the platform map alone.
