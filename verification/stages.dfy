/** The fixed list of named stages of the request lifecycle, as the
    application hands it to its action set when it is constructed
    (jovo-core/src/BaseApp.ts:42-55). */
module Stages {
  import opened Wrappers

  /** One named stage. Handlers registered on a stage run when the
      request pipeline reaches it. */
  datatype Stage =
    | Setup
    | Request
    | PlatformInit
    | PlatformNlu
    | Nlu
    | UserLoad
    | Router
    | Handler
    | UserSave
    | PlatformOutput
    | Response
    | Fail

  /** The middleware name of a stage. */
  function Name(s: Stage): string
  {
    match s
    case Setup => "setup"
    case Request => "request"
    case PlatformInit => "platform.init"
    case PlatformNlu => "platform.nlu"
    case Nlu => "nlu"
    case UserLoad => "user.load"
    case Router => "router"
    case Handler => "handler"
    case UserSave => "user.save"
    case PlatformOutput => "platform.output"
    case Response => "response"
    case Fail => "fail"
  }

  /** The stage list of the application, in the order it is registered. */
  const Pipeline: seq<Stage> :=
    [Setup, Request, PlatformInit, PlatformNlu, Nlu, UserLoad,
     Router, Handler, UserSave, PlatformOutput, Response, Fail]

  /** The names handed to the action set: the stage list, by name. */
  function Names(): seq<string>
  {
    seq(|Pipeline|, i requires 0 <= i < |Pipeline| => Name(Pipeline[i]))
  }

  /** The position of a stage in the stage list. */
  function Index(s: Stage): (k: nat)
    ensures k < |Pipeline| && Pipeline[k] == s
  {
    match s
    case Setup => 0
    case Request => 1
    case PlatformInit => 2
    case PlatformNlu => 3
    case Nlu => 4
    case UserLoad => 5
    case Router => 6
    case Handler => 7
    case UserSave => 8
    case PlatformOutput => 9
    case Response => 10
    case Fail => 11
  }

  /** The stage a middleware name denotes, if any: the lookup behind
      `this.middleware(name)`. */
  function Lookup(name: string): (r: Option<Stage>)
    ensures r.Some? ==> Name(r.value) == name
    ensures r.None? ==> forall s: Stage :: Name(s) != name
  {
    if name == "setup" then Some(Setup)
    else if name == "request" then Some(Request)
    else if name == "platform.init" then Some(PlatformInit)
    else if name == "platform.nlu" then Some(PlatformNlu)
    else if name == "nlu" then Some(Nlu)
    else if name == "user.load" then Some(UserLoad)
    else if name == "router" then Some(Router)
    else if name == "handler" then Some(Handler)
    else if name == "user.save" then Some(UserSave)
    else if name == "platform.output" then Some(PlatformOutput)
    else if name == "response" then Some(Response)
    else if name == "fail" then Some(Fail)
    else None
  }

  /** The application registers exactly these twelve names, in this order,
      with `fail` last, and every stage appears exactly once. */
  lemma StageListIsFixed()
    ensures Names() == ["setup", "request", "platform.init", "platform.nlu", "nlu",
                        "user.load", "router", "handler", "user.save",
                        "platform.output", "response", "fail"]
    ensures Pipeline[|Pipeline| - 1] == Fail
    ensures forall s: Stage :: s in Pipeline
    ensures forall i :: 0 <= i < |Pipeline| ==> Index(Pipeline[i]) == i
  {
    forall s: Stage
      ensures s in Pipeline
    {
      assert Pipeline[Index(s)] == s;
    }
  }

  /** Distinct stages have distinct names, so a name identifies its stage
      and looking up a stage's own name finds that stage. */
  lemma NameLookupRoundTrip(s: Stage, name: string)
    ensures Lookup(Name(s)) == Some(s)
    ensures Lookup(name) == Some(s) <==> Name(s) == name
  {
  }

  /** A run of stages that respects the order of the stage list. */
  predicate InPipelineOrder(t: seq<Stage>)
  {
    forall i, j :: 0 <= i < j < |t| ==> Index(t[i]) < Index(t[j])
  }

  /** A run whose stages sit at consecutive positions of the stage list
      respects its order. */
  lemma ConsecutiveIsOrdered(t: seq<Stage>, off: int)
    requires forall p :: 0 <= p < |t| ==> Index(t[p]) == p + off
    ensures InPipelineOrder(t)
  {
  }

  /** `fail` is last in the stage list, so running it after an ordered run
      that did not contain it keeps the order. */
  lemma AppendFailKeepsOrder(t: seq<Stage>)
    requires InPipelineOrder(t) && Fail !in t
    ensures InPipelineOrder(t + [Fail])
  {
    forall i | 0 <= i < |t|
      ensures Index(t[i]) < Index(Fail)
    {
      assert t[i] != Fail;
    }
  }
}
