/** A sequence of requests handled one after another by the same
    application: `handle` folded over one stage outcome oracle per request.
    This is where the one-time `setup` flag (jovo-core/src/BaseApp.ts:26,
    110-114) shows its behaviour. Requests are strictly sequential: the
    overlapping of asynchronous `handle` calls is not modelled. */
module Requests {
  import opened Stages
  import opened BaseApp

  /** The application after a sequence of requests, and each request's
      result in order. */
  datatype Served = Served(app: App, results: seq<HandleResult>)

  /** Handles the requests in order, each seeing the state the previous
      one left. */
  function Serve(app: App, requests: seq<Oracle>): (s: Served)
    ensures |s.results| == |requests|
    ensures s.app.platforms == app.platforms
    ensures app.initialized ==> s.app.initialized
    ensures s.app.initialized <==>
              app.initialized || exists j :: 0 <= j < |requests| && requests[j].run(Setup).Ok?
    decreases |requests|
  {
    if |requests| == 0 then Served(app, [])
    else
      var r := Handle(app, requests[0]);
      var rest := Serve(r.app, requests[1..]);
      assert forall j :: 1 <= j < |requests| ==> requests[j] == requests[1..][j - 1];
      Served(rest.app, [r] + rest.results)
  }

  /** Serving a non-empty sequence handles its first request and then
      serves the rest from the state that request left. */
  lemma ServeFirst(app: App, requests: seq<Oracle>)
    requires |requests| > 0
    ensures Serve(app, requests).results[0] == Handle(app, requests[0])
    ensures Serve(app, requests).results[1..] ==
              Serve(Handle(app, requests[0]).app, requests[1..]).results
    ensures Serve(app, requests).app == Serve(Handle(app, requests[0]).app, requests[1..]).app
  {
  }

  /** How many of the results ran `setup`. */
  function SetupRuns(results: seq<HandleResult>): nat
    decreases |results|
  {
    if |results| == 0 then 0
    else (if Setup in results[0].trace then 1 else 0) + SetupRuns(results[1..])
  }

  /** The number of leading requests whose `setup` throws. */
  function LeadingSetupErrors(requests: seq<Oracle>): (n: nat)
    ensures n <= |requests|
    ensures forall j :: 0 <= j < n ==> requests[j].run(Setup).Throws?
    ensures n < |requests| ==> requests[n].run(Setup).Ok?
    decreases |requests|
  {
    if |requests| == 0 || requests[0].run(Setup).Ok? then 0
    else 1 + LeadingSetupErrors(requests[1..])
  }

  /** Once the application is initialized no later request runs `setup`. */
  lemma {:induction false} InitializedNeverRunsSetup(app: App, requests: seq<Oracle>, i: nat)
    requires app.initialized && i < |requests|
    ensures Setup !in Serve(app, requests).results[i].trace
    ensures Serve(app, requests).app.initialized
    decreases |requests|
  {
    var r := Handle(app, requests[0]);
    ServeFirst(app, requests);
    if i > 0 {
      InitializedNeverRunsSetup(r.app, requests[1..], i - 1);
      assert Serve(app, requests).results[i] == Serve(r.app, requests[1..]).results[i - 1];
    } else if |requests| > 1 {
      InitializedNeverRunsSetup(r.app, requests[1..], 0);
    }
  }

  /** Starting uninitialized, request i runs `setup` exactly when every
      earlier request's `setup` threw: the flag is set only by a `setup`
      that completes, and a throwing one is retried by the next request. */
  lemma {:induction false} SetupRunsUntilItSucceeds(app: App, requests: seq<Oracle>, i: nat)
    requires !app.initialized && i < |requests|
    ensures Setup in Serve(app, requests).results[i].trace <==>
              forall j :: 0 <= j < i ==> requests[j].run(Setup).Throws?
    decreases |requests|
  {
    var s := Serve(app, requests);
    var r := Handle(app, requests[0]);
    ServeFirst(app, requests);
    if i > 0 {
      var rest := Serve(r.app, requests[1..]);
      assert s.results[i] == rest.results[i - 1];
      if requests[0].run(Setup).Ok? {
        InitializedNeverRunsSetup(r.app, requests[1..], i - 1);
      } else {
        SetupRunsUntilItSucceeds(r.app, requests[1..], i - 1);
        assert (forall j :: 0 <= j < i - 1 ==> requests[1..][j].run(Setup).Throws?) <==>
               (forall j :: 0 <= j < i ==> requests[j].run(Setup).Throws?)
        by {
          assert forall j :: 1 <= j < i ==> requests[j] == requests[1..][j - 1];
        }
      }
    } else {
      assert s.results[0] == r;
    }
  }

  /** Starting uninitialized, `setup` runs once for every leading request
      whose `setup` throws, plus once more for the first whose `setup`
      completes, if there is one. */
  lemma {:induction false} SetupRunCount(app: App, requests: seq<Oracle>)
    requires !app.initialized
    ensures SetupRuns(Serve(app, requests).results) ==
              LeadingSetupErrors(requests) + (if LeadingSetupErrors(requests) < |requests| then 1 else 0)
    decreases |requests|
  {
    if |requests| > 0 {
      var r := Handle(app, requests[0]);
      var s := Serve(app, requests);
      assert s.results[1..] == Serve(r.app, requests[1..]).results;
      if r.app.initialized {
        NoSetupRunsOnceInitialized(r.app, requests[1..]);
      } else {
        SetupRunCount(r.app, requests[1..]);
      }
    }
  }

  /** An initialized application runs `setup` in none of its requests. */
  lemma {:induction false} NoSetupRunsOnceInitialized(app: App, requests: seq<Oracle>)
    requires app.initialized
    ensures SetupRuns(Serve(app, requests).results) == 0
    decreases |requests|
  {
    if |requests| > 0 {
      var r := Handle(app, requests[0]);
      var s := Serve(app, requests);
      assert s.results[1..] == Serve(r.app, requests[1..]).results;
      NoSetupRunsOnceInitialized(r.app, requests[1..]);
    }
  }

  /** Starting uninitialized, when the first request's `setup` completes,
      `setup` runs exactly once over the whole sequence, in that first
      request; so it does over any sequence whose `setup` always completes. */
  lemma SetupRunsExactlyOnce(app: App, requests: seq<Oracle>)
    requires !app.initialized && |requests| > 0
    requires requests[0].run(Setup).Ok?
    ensures SetupRuns(Serve(app, requests).results) == 1
    ensures Setup in Serve(app, requests).results[0].trace
    ensures Serve(app, requests).app.initialized
  {
    SetupRunCount(app, requests);
  }
}
