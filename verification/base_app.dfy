/** One request through the application: `BaseApp.handle`
    (jovo-core/src/BaseApp.ts:99-175) as a pure function from the
    application state and a stage outcome oracle to the new state, the
    stages run, the error recorded on the request and the failure
    notifications given to the host. */
module BaseApp {
  import opened Wrappers
  import opened Stages

  /** A value a stage may throw. `JovoError` is the framework's structured
      error; `Thrown` stands for any other value a handler throws. */
  datatype Error =
    | JovoError(message: string, code: string, origin: string, hint: string)
    | Thrown(id: nat)

  /** The error raised when no platform integration produced a `jovo`
      object during `platform.init`. */
  const NoMatchingPlatform: Error :=
    JovoError("Can't handle request object.", "ERR_NO_MATCHING_PLATFORM", "jovo-core",
              "Please add an integration that handles that type of request.")

  /** What running the handlers of one stage does: complete, or throw. */
  datatype Outcome = Ok | Throws(error: Error)

  /** The behaviour of the collaborators for one request: the outcome of
      each stage, whether a `jovo` object exists once `platform.init` has
      run, and what the host's `fail` does when it is called. Each stage
      runs at most once per request, and the host is called at most once,
      so one outcome each covers every run. */
  datatype Oracle = Oracle(run: Stage -> Outcome, jovoAfterInit: bool, hostFail: Outcome)

  /** An installed platform integration, identified by its name. */
  datatype Platform = Platform(name: string)

  /** The application state that outlives a request: the one-time setup
      flag and the installed platforms by name. */
  datatype App = App(initialized: bool, platforms: map<string, Platform>)

  /** A freshly constructed application: not initialized, no platforms. */
  const NewApp: App := App(false, map[])

  /** Installs a platform under a name, as an integration does with
      `$platform.set`. */
  function WithPlatform(app: App, name: string, p: Platform): App
  {
    app.(platforms := app.platforms[name := p])
  }

  /** The platform installed under a name, if any. */
  function GetPlatformByName(app: App, name: string): (r: Option<Platform>)
    ensures r.Some? <==> name in app.platforms
    ensures r.Some? ==> r.value == app.platforms[name]
  {
    if name in app.platforms then Some(app.platforms[name]) else None
  }

  /** Looking a platform up finds the one installed last under that name,
      and installing under one name leaves every other lookup alone. */
  lemma GetPlatformAfterInstall(app: App, name: string, other: string, p: Platform)
    ensures GetPlatformByName(WithPlatform(app, name, p), name) == Some(p)
    ensures other != name ==>
              GetPlatformByName(WithPlatform(app, name, p), other) == GetPlatformByName(app, other)
    ensures GetPlatformByName(NewApp, name) == None
  {
  }

  /** The stages of the try block after the setup check, in source order. */
  const TryStages: seq<Stage> :=
    [Request, PlatformInit, PlatformNlu, Nlu, UserLoad,
     Router, Handler, UserSave, PlatformOutput, Response]

  /** The stages the try block runs are the stage list without its first
      (`setup`, run separately) and last (`fail`, run by the catch block). */
  lemma TryStagesAreInnerPipeline()
    ensures TryStages == Pipeline[1..|Pipeline| - 1]
    ensures forall i :: 0 <= i < |TryStages| ==> Index(TryStages[i]) == i + 1
    ensures Setup !in TryStages && Fail !in TryStages
  {
  }

  /** The error, if any, with which running a stage of the try block leaves
      that block: the stage's own error, or, for `platform.init` that
      completes without a `jovo` object, the no-matching-platform error. */
  function Step(o: Oracle, s: Stage): Option<Error>
  {
    match o.run(s)
    case Throws(e) => Some(e)
    case Ok => if s == PlatformInit && !o.jovoAfterInit then Some(NoMatchingPlatform) else None
  }

  /** Stage i of a run of stages completes without raising an error. */
  predicate CompletesAt(o: Oracle, stages: seq<Stage>, i: int)
  {
    0 <= i < |stages| && Step(o, stages[i]).None?
  }

  /** The stages run in some block and the error that left it, if any. */
  datatype Run = Run(trace: seq<Stage>, error: Option<Error>)

  /** Runs stages one after another until one raises an error. */
  function RunStages(stages: seq<Stage>, o: Oracle): (r: Run)
    ensures |r.trace| <= |stages| && r.trace == stages[..|r.trace|]
    ensures forall s :: s in r.trace ==> s in stages
    ensures forall i :: 0 <= i < |r.trace| - 1 ==> CompletesAt(o, r.trace, i)
    ensures r.error.None? ==>
              r.trace == stages && forall i :: 0 <= i < |stages| ==> CompletesAt(o, stages, i)
    ensures r.error.Some? ==> |r.trace| > 0 && r.error == Step(o, r.trace[|r.trace| - 1])
    decreases |stages|
  {
    if |stages| == 0 then Run([], None)
    else match Step(o, stages[0])
      case Some(e) => Run([stages[0]], Some(e))
      case None =>
        var rest := RunStages(stages[1..], o);
        var r := Run([stages[0]] + rest.trace, rest.error);
        assert CompletesAt(o, r.trace, 0);
        assert forall i :: 1 <= i < |r.trace| ==> CompletesAt(o, r.trace, i) == CompletesAt(o, rest.trace, i - 1);
        assert forall i :: 1 <= i < |stages| ==> CompletesAt(o, stages, i) == CompletesAt(o, stages[1..], i - 1);
        r
  }

  /** What (part of) the try block leaves behind: the setup flag
      afterwards, the stages run and the error that left it, if any. */
  datatype Tried = Tried(initialized: bool, trace: seq<Stage>, error: Option<Error>)

  /** The stages a request runs before the try block's stage list: `setup`
      exactly when the application is not yet initialized. */
  function SetupPrefix(app: App): seq<Stage>
  {
    if app.initialized then [] else [Setup]
  }

  /** Runs `setup` when the application is not yet initialized, and sets
      the flag only once `setup` has completed. */
  function SetupPhase(app: App, o: Oracle): (r: Tried)
    ensures r.trace == SetupPrefix(app)
    ensures r.initialized <==> app.initialized || o.run(Setup).Ok?
    ensures r.error.Some? <==> !app.initialized && o.run(Setup).Throws?
    ensures r.error.Some? ==> r.error.value == o.run(Setup).error && !r.initialized
  {
    if app.initialized then Tried(true, [], None)
    else match o.run(Setup)
      case Ok => Tried(true, [Setup], None)
      case Throws(e) => Tried(false, [Setup], Some(e))
  }

  /** The try block: the setup check, then the stages in order, leaving at
      the first error. */
  function TryBlock(app: App, o: Oracle): (r: Tried)
    ensures r.initialized <==> app.initialized || o.run(Setup).Ok?
    ensures Setup in r.trace <==> !app.initialized
    ensures Fail !in r.trace
    ensures r.error.None? ==> r.trace == SetupPrefix(app) + TryStages
  {
    TryStagesAreInnerPipeline();
    var setup := SetupPhase(app, o);
    if setup.error.Some? then setup
    else
      var body := RunStages(TryStages, o);
      Tried(setup.initialized, setup.trace + body.trace, body.error)
  }

  /** What the catch block hands to the host and what escapes `handle`. */
  datatype Catch = Catch(hostFails: seq<Error>, rejected: Option<Error>)

  /** The catch block for an error e: run `fail`, then call `host.fail(e)`.
      A throwing `fail` stage leaves before the host is called, and its
      error escapes `handle`; so does an error the host itself throws. */
  function CatchBlock(e: Error, o: Oracle): (r: Catch)
    ensures o.run(Fail).Ok? ==> r.hostFails == [e]
    ensures o.run(Fail).Ok? ==> (r.rejected.None? <==> o.hostFail.Ok?)
    ensures o.run(Fail).Ok? && o.hostFail.Throws? ==> r.rejected == Some(o.hostFail.error)
    ensures o.run(Fail).Throws? ==> r.hostFails == [] && r.rejected == Some(o.run(Fail).error)
  {
    match o.run(Fail)
    case Throws(f) => Catch([], Some(f))
    case Ok =>
      match o.hostFail
      case Ok => Catch([e], None)
      case Throws(h) => Catch([e], Some(h))
  }

  /** Everything one `handle` call produces. `error` is what the request
      context records as `handleRequest.error`; `hostFails` lists the
      arguments of the `host.fail` calls, in order; `rejected` is the error
      with which `handle` itself fails, if any. */
  datatype HandleResult = HandleResult(
    app: App,
    trace: seq<Stage>,
    error: Option<Error>,
    hostFails: seq<Error>,
    rejected: Option<Error>)

  /** One request through the pipeline. */
  function Handle(app: App, o: Oracle): (r: HandleResult)
    ensures r.app.platforms == app.platforms
    ensures Setup in r.trace <==> !app.initialized
    ensures r.app.initialized <==> app.initialized || o.run(Setup).Ok?
    ensures r.error.None? <==> Fail !in r.trace
    ensures r.error.None? ==> r.hostFails == [] && r.rejected.None?
    ensures r.error.Some? ==> r.trace[|r.trace| - 1] == Fail
    ensures r.error.Some? && o.run(Fail).Ok? ==> r.hostFails == [r.error.value]
    ensures r.error.Some? && o.run(Fail).Ok? ==> (r.rejected.None? <==> o.hostFail.Ok?)
    ensures r.error.Some? && o.run(Fail).Ok? && o.hostFail.Throws? ==>
              r.rejected == Some(o.hostFail.error)
    ensures r.error.Some? && o.run(Fail).Throws? ==>
              r.hostFails == [] && r.rejected == Some(o.run(Fail).error)
  {
    var tried := TryBlock(app, o);
    var app' := app.(initialized := tried.initialized);
    match tried.error
    case None => HandleResult(app', tried.trace, None, [], None)
    case Some(e) =>
      var c := CatchBlock(e, o);
      HandleResult(app', tried.trace + [Fail], Some(e), c.hostFails, c.rejected)
  }

  /** No stage of the try block raises an error, `setup` included when it
      runs. */
  predicate Succeeds(app: App, o: Oracle)
  {
    && (app.initialized || o.run(Setup).Ok?)
    && forall i :: 0 <= i < |TryStages| ==> CompletesAt(o, TryStages, i)
  }

  /** When stage k is the first that raises an error, the run stops right
      after it with that error. */
  lemma {:induction false} RunStagesStopsAtFirstError(stages: seq<Stage>, o: Oracle, k: nat)
    requires k < |stages|
    requires forall j :: 0 <= j < k ==> CompletesAt(o, stages, j)
    requires Step(o, stages[k]).Some?
    ensures RunStages(stages, o) == Run(stages[..k + 1], Step(o, stages[k]))
  {
    var r := RunStages(stages, o);
    var t := |r.trace|;
    assert r.error.None? ==> CompletesAt(o, stages, k);
    assert r.trace[t - 1] == stages[t - 1];
    assert t - 1 < k ==> CompletesAt(o, stages, t - 1);
    assert t - 1 > k ==> CompletesAt(o, r.trace, k);
  }

  /** A request succeeds exactly when no stage raises an error; then it runs
      `setup` if needed and every stage of the try block once, in order,
      never runs `fail` and never calls `host.fail`. */
  lemma HappyPath(app: App, o: Oracle)
    ensures Handle(app, o).error.None? <==> Succeeds(app, o)
    ensures Succeeds(app, o) ==>
              && Handle(app, o).trace == SetupPrefix(app) + TryStages
              && Handle(app, o).hostFails == []
              && Handle(app, o).rejected.None?
  {
    var setup := SetupPhase(app, o);
    if Succeeds(app, o) {
      var body := RunStages(TryStages, o);
      assert body.error.Some? ==> !CompletesAt(o, TryStages, |body.trace| - 1);
    }
  }

  /** A throwing `setup` ends the try block at once: the flag stays unset,
      and only `fail` runs after it. */
  lemma SetupErrorSkipsRest(app: App, o: Oracle)
    requires !app.initialized && o.run(Setup).Throws?
    ensures Handle(app, o).trace == [Setup, Fail]
    ensures Handle(app, o).error == Some(o.run(Setup).error)
    ensures !Handle(app, o).app.initialized
  {
  }

  /** When stage k of the try block is the first to raise an error e, the
      stages after it are skipped, e is recorded on the request, `fail` runs
      and, if it completes, `host.fail` is called once with that same e. */
  lemma StageErrorSkipsRest(app: App, o: Oracle, k: nat)
    requires app.initialized || o.run(Setup).Ok?
    requires k < |TryStages|
    requires forall j :: 0 <= j < k ==> CompletesAt(o, TryStages, j)
    requires Step(o, TryStages[k]).Some?
    ensures Handle(app, o).trace == SetupPrefix(app) + TryStages[..k + 1] + [Fail]
    ensures Handle(app, o).error == Step(o, TryStages[k])
    ensures o.run(Fail).Ok? ==> Handle(app, o).hostFails == [Step(o, TryStages[k]).value]
    ensures o.run(Fail).Throws? ==> Handle(app, o).hostFails == []
  {
    RunStagesStopsAtFirstError(TryStages, o, k);
  }

  /** A `platform.init` that completes without producing a `jovo` object
      raises the no-matching-platform error: `request` and `platform.init`
      are the last stages before `fail`, and the host is told that error. */
  lemma NoMatchingPlatformGoesToFail(app: App, o: Oracle)
    requires app.initialized || o.run(Setup).Ok?
    requires o.run(Request).Ok? && o.run(PlatformInit).Ok? && !o.jovoAfterInit
    ensures Handle(app, o).trace == SetupPrefix(app) + [Request, PlatformInit, Fail]
    ensures Handle(app, o).error == Some(NoMatchingPlatform)
    ensures o.run(Fail).Ok? ==> Handle(app, o).hostFails == [NoMatchingPlatform]
  {
    StageErrorSkipsRest(app, o, 1);
    assert TryStages[..2] == [Request, PlatformInit];
  }

  /** Without a `jovo` object no stage after `platform.init` runs except
      `fail`, whatever else happens. */
  lemma NoJovoNeverPassesInit(app: App, o: Oracle)
    requires !o.jovoAfterInit
    ensures forall s :: s in Handle(app, o).trace && Index(PlatformInit) < Index(s) ==> s == Fail
  {
    var setup := SetupPhase(app, o);
    if setup.error.None? {
      if Step(o, Request).Some? {
        RunStagesStopsAtFirstError(TryStages, o, 0);
        assert TryStages[..1] == [Request];
      } else {
        RunStagesStopsAtFirstError(TryStages, o, 1);
        assert TryStages[..2] == [Request, PlatformInit];
      }
    }
  }

  /** The stages of every request, failed or not, follow the order of the
      stage list; so none runs twice and `fail`, when it runs, runs last. */
  lemma TraceFollowsStageList(app: App, o: Oracle)
    ensures InPipelineOrder(Handle(app, o).trace)
  {
    var tried := TryBlock(app, o).trace;
    var off := Index(Request) - |SetupPrefix(app)|;
    TriedStagesAreConsecutive(app, o);
    ConsecutiveIsOrdered(tried, off);
    if Fail in Handle(app, o).trace {
      assert Handle(app, o).trace == tried + [Fail];
      AppendFailKeepsOrder(tried);
    }
  }

  /** The try block runs a consecutive stretch of the stage list, starting
      at `setup` or, once initialized, at `request`. */
  lemma TriedStagesAreConsecutive(app: App, o: Oracle)
    ensures forall p :: 0 <= p < |TryBlock(app, o).trace| ==>
              Index(TryBlock(app, o).trace[p]) == p + (Index(Request) - |SetupPrefix(app)|)
  {
    TryStagesAreInnerPipeline();
    var setup := SetupPhase(app, o);
    var tried := TryBlock(app, o).trace;
    var off := Index(Request) - |SetupPrefix(app)|;
    if setup.error.None? {
      var body := RunStages(TryStages, o).trace;
      assert tried == setup.trace + body;
      forall p | 0 <= p < |tried|
        ensures Index(tried[p]) == p + off
      {
        if p >= |setup.trace| {
          assert tried[p] == body[p - |setup.trace|] == TryStages[p - |setup.trace|];
        }
      }
    }
  }
}
