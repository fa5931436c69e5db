/** The application's action set: one middleware, i.e. an ordered list of
    registered handlers, per stage name. The constructor builds it from the
    stage list (jovo-core/src/BaseApp.ts:42-55) and `setUp` appends to the
    `setup` middleware (jovo-core/src/BaseApp.ts:74-76). Handlers are
    opaque values of type H; what running them does is abstracted by the
    stage outcome oracle of the BaseApp module. */
module ActionSets {
  import opened Wrappers
  import opened Stages

  datatype ActionSet<H> = ActionSet(middleware: map<string, seq<H>>)

  /** An action set with one empty middleware per given name. */
  function Create<H>(names: seq<string>): ActionSet<H>
  {
    ActionSet(map n | n in names :: [])
  }

  /** The action set a freshly constructed application holds. */
  function AppActionSet<H>(): ActionSet<H>
  {
    Create(Names())
  }

  /** The handlers of the middleware with the given name, if it exists. */
  function Middleware<H>(a: ActionSet<H>, name: string): (r: Option<seq<H>>)
    ensures r.Some? <==> name in a.middleware
    ensures r.Some? ==> r.value == a.middleware[name]
  {
    if name in a.middleware then Some(a.middleware[name]) else None
  }

  /** Registers a callback on the `setup` middleware. The source asserts the
      middleware exists, which every constructed application guarantees. */
  function SetUp<H>(a: ActionSet<H>, callback: H): (r: ActionSet<H>)
    requires "setup" in a.middleware
    ensures r.middleware.Keys == a.middleware.Keys
    ensures r.middleware["setup"] == a.middleware["setup"] + [callback]
    ensures forall n :: n in a.middleware && n != "setup" ==> r.middleware[n] == a.middleware[n]
  {
    ActionSet(a.middleware["setup" := a.middleware["setup"] + [callback]])
  }

  /** Registers callbacks on `setup` one after another. */
  function SetUpAll<H>(a: ActionSet<H>, callbacks: seq<H>): ActionSet<H>
    requires "setup" in a.middleware
    decreases |callbacks|
  {
    if |callbacks| == 0 then a
    else SetUpAll(SetUp(a, callbacks[0]), callbacks[1..])
  }

  /** In a constructed application exactly the stage names resolve to a
      middleware, each one starting empty; so every `middleware(...)!` the
      request pipeline performs succeeds. */
  lemma ConstructedMiddlewareMatchesStages<H>(name: string)
    ensures Middleware(AppActionSet<H>(), name).Some? <==> Lookup(name).Some?
    ensures Middleware(AppActionSet<H>(), name).Some? ==> Middleware(AppActionSet<H>(), name).value == []
  {
    var a := AppActionSet<H>();
    StageListIsFixed();
    if Lookup(name).Some? {
      var s := Lookup(name).value;
      assert Names()[Index(s)] == name;
    }
  }

  /** `setUp` keeps registration order: after registering callbacks in turn,
      the `setup` middleware holds its earlier handlers followed by exactly
      those callbacks, and no other middleware changes. */
  lemma {:induction false} SetUpKeepsOrder<H>(a: ActionSet<H>, callbacks: seq<H>)
    requires "setup" in a.middleware
    ensures SetUpAll(a, callbacks).middleware.Keys == a.middleware.Keys
    ensures SetUpAll(a, callbacks).middleware["setup"] == a.middleware["setup"] + callbacks
    ensures forall n :: n in a.middleware && n != "setup" ==>
              SetUpAll(a, callbacks).middleware[n] == a.middleware[n]
    decreases |callbacks|
  {
    if |callbacks| > 0 {
      var b := SetUp(a, callbacks[0]);
      SetUpKeepsOrder(b, callbacks[1..]);
      assert a.middleware["setup"] + [callbacks[0]] + callbacks[1..] == a.middleware["setup"] + callbacks;
    } else {
      assert a.middleware["setup"] + callbacks == a.middleware["setup"];
    }
  }
}
