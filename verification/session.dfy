/** A client over time: a sequence of `setDebug` calls and verb calls on one
    MailjetClient, with the log of every transport call the session made. */
module Session {
  import opened Wrappers
  import opened Collaborators
  import opened MailjetRequest
  import opened MailjetClient
  import opened Dispatch

  datatype Step = Configure(mode: int) | Issue(verb: Verb, req: Request)

  datatype Trace = Trace(client: Client, results: seq<Result<Response, Error>>, calls: seq<Call>)

  /** The client once `step` has run: only `setDebug` changes it. */
  function After(c: Client, step: Step): Client {
    if step.Configure? then SetDebug(c, step.mode) else c
  }

  /** Number of verb calls among `steps`. */
  function Issued(steps: seq<Step>): nat {
    if steps == [] then 0 else (if steps[0].Issue? then 1 else 0) + Issued(steps[1..])
  }

  /** Number of verb calls among `steps` whose request path builds. */
  function Built(steps: seq<Step>): nat {
    if steps == [] then 0
    else (if steps[0].Issue? && steps[0].req.path.Success? then 1 else 0) + Built(steps[1..])
  }

  /** Runs the steps in order from client `c`: one result per verb call, and
      never more transport calls than verb calls. */
  function Run(c: Client, steps: seq<Step>, env: Env): (t: Trace)
    ensures |t.results| == Issued(steps)
    ensures |t.calls| <= |t.results|
    decreases |steps|
  {
    if steps == [] then Trace(c, [], [])
    else
      match steps[0]
      case Configure(mode) => Run(SetDebug(c, mode), steps[1..], env)
      case Issue(v, req) =>
        var o := Send(c, v, req, env);
        var rest := Run(c, steps[1..], env);
        Trace(rest.client, [o.result] + rest.results, o.calls + rest.calls)
  }

  /** A client in NOCALL_DEBUG that is never switched to another mode never
      touches the transport, whatever it is asked to do. */
  lemma {:induction false} OfflineSessionMakesNoCalls(c: Client, steps: seq<Step>, env: Env)
    requires c.debug == NoCallDebug
    requires forall i :: 0 <= i < |steps| && steps[i].Configure? ==> steps[i].mode == NoCallDebug
    ensures Run(c, steps, env).calls == []
    decreases |steps|
  {
    if steps != [] {
      OfflineSessionMakesNoCalls(After(c, steps[0]), steps[1..], env);
    }
  }

  /** A live client that stays live makes exactly one transport call per verb
      call whose URL builds, and none for the others. */
  lemma {:induction false} LiveSessionCallsOncePerRequest(c: Client, steps: seq<Step>, env: Env)
    requires c.debug != NoCallDebug
    requires forall i :: 0 <= i < |steps| && steps[i].Configure? ==> steps[i].mode != NoCallDebug
    ensures |Run(c, steps, env).calls| == Built(steps)
    decreases |steps|
  {
    if steps != [] {
      LiveSessionCallsOncePerRequest(After(c, steps[0]), steps[1..], env);
    }
  }

  /** The console logger, once installed, stays: the session ends with it
      exactly when the client started with it or some step set VERBOSE_DEBUG. */
  lemma {:induction false} ConsoleLoggerIsSticky(c: Client, steps: seq<Step>, env: Env)
    ensures Run(c, steps, env).client.logger == Console
        <==> c.logger == Console || Configure(VerboseDebug) in steps
    decreases |steps|
  {
    if steps != [] {
      var next := After(c, steps[0]);
      ConsoleLoggerIsSticky(next, steps[1..], env);
      assert steps == [steps[0]] + steps[1..];
    }
  }

  /** No step changes the credentials or the registered headers. */
  lemma {:induction false} SessionKeepsCredentials(c: Client, steps: seq<Step>, env: Env)
    ensures var d := Run(c, steps, env).client;
      d.apiKey == c.apiKey && d.apiSecret == c.apiSecret && d.headers == c.headers
    decreases |steps|
  {
    if steps != [] {
      SessionKeepsCredentials(After(c, steps[0]), steps[1..], env);
    }
  }

  /** The session's final debug mode is the one its last `setDebug` set,
      stored verbatim. */
  lemma {:induction false} LastModeWins(c: Client, before: seq<Step>, mode: int,
                                        after: seq<Step>, env: Env)
    requires forall i :: 0 <= i < |after| ==> after[i].Issue?
    ensures Run(c, before + [Configure(mode)] + after, env).client.debug == mode
    decreases |before|
  {
    var steps := before + [Configure(mode)] + after;
    if before == [] {
      assert steps[1..] == after;
      NoConfigureKeepsMode(SetDebug(c, mode), after, env);
    } else {
      var next := After(c, before[0]);
      assert steps[0] == before[0];
      assert steps[1..] == before[1..] + [Configure(mode)] + after;
      LastModeWins(next, before[1..], mode, after, env);
    }
  }

  /** Verb calls alone leave the debug mode as it was. */
  lemma {:induction false} NoConfigureKeepsMode(c: Client, steps: seq<Step>, env: Env)
    requires forall i :: 0 <= i < |steps| ==> steps[i].Issue?
    ensures Run(c, steps, env).client.debug == c.debug
    decreases |steps|
  {
    if steps != [] {
      NoConfigureKeepsMode(c, steps[1..], env);
    }
  }
}
