/** The run of one wrapped command: spawn it, wait for it, and send exactly
    one notification, a failure alert when spawning or waiting fails and the
    end-of-run summary otherwise. Spawning, waiting and sending are effects
    outside the program; they appear here as the outcomes the outside world
    hands back, and every attempt is recorded in a trace. */
module Runner {
  import opened Wrappers
  import opened Errors
  import opened Ntfy

  newtype Byte = b: int | 0 <= b < 256
  type Bytes = seq<Byte>

  /** What the operating system reports for the child: it could not be
      spawned, it could not be waited on, or it exited with its captured
      output and, unless a signal ended it, an exit code. */
  datatype ChildOutcome =
    | SpawnFailed(spawnCause: string)
    | WaitFailed(waitCause: string)
    | Exited(stdout: Bytes, stderr: Bytes, code: Option<int>)

  /** What the HTTP transport reports for one POST: a response with some
      status, or a failure to send or to receive a response. */
  datatype SendOutcome = Response(status: int) | TransportFailed(cause: string)

  /** One effect on the outside world. */
  datatype Event =
    | Launch(program: string, args: seq<string>)
    | Await
    | Post(request: Request)

  const SpawnContext := "failed to spawn process "

  /** A failed spawn: the I/O cause under a line that names the executable. */
  function SpawnError(program: string, cause: string): (e: Error)
    ensures e.Context? && e.inner == Io(cause)
    ensures |e.context| == |SpawnContext| + |program|
    ensures e.context[..|SpawnContext|] == SpawnContext && e.context[|SpawnContext|..] == program
  {
    Context(SpawnContext + program, Io(cause))
  }

  /** A failed wait: the I/O cause under the fixed line "context". */
  function WaitError(cause: string): (e: Error)
    ensures e.Context? && e.inner == Io(cause)
    ensures |e.context| < |SpawnContext|
  {
    Context("context", Io(cause))
  }

  /** A failed send: the I/O cause under a line that names the send. */
  function SendError(cause: string): (e: Error)
    ensures e.Context? && e.inner == Io(cause)
    ensures |e.context| < |SpawnContext|
  {
    Context("failed to send message", Io(cause))
  }

  /** The three failures of a run never produce the same error, whatever
      their causes and whatever executable is named. */
  lemma RunErrorsDistinct(program: string, c1: string, c2: string, c3: string)
    ensures SpawnError(program, c1) != WaitError(c2)
    ensures SpawnError(program, c1) != SendError(c3)
    ensures WaitError(c2) != SendError(c3)
  {
  }

  /** The requests posted in a trace, in order. */
  function Posts(trace: seq<Event>): (requests: seq<Request>)
    ensures |requests| <= |trace|
    ensures forall r :: r in requests <==> Post(r) in trace
  {
    if trace == [] then []
    else
      var rest := Posts(trace[1..]);
      if trace[0].Post? then [trace[0].request] + rest else rest
  }

  lemma {:induction false} PostsAppend(a: seq<Event>, b: seq<Event>)
    ensures Posts(a + b) == Posts(a) + Posts(b)
  {
    if a == [] {
      assert a + b == b;
    } else {
      assert (a + b)[1..] == a[1..] + b;
      PostsAppend(a[1..], b);
    }
  }

  // ---------------------------------------------------------------------------
  // The specification of one run

  /** The effects of one run, given what the child did. `lossy` is the
      text decoding of captured bytes (it never fails) and `debug` the
      rendering of an error; both belong to libraries outside this model. */
  function RunTrace(config: NtfyConfig, child: ChildOutcome, lossy: Bytes -> string, debug: Error -> string): (t: seq<Event>)
    requires |config.cmdArgs| >= 1
    ensures |t| == (if child.SpawnFailed? then 2 else 3)
    ensures t[0].Launch? && t[|t| - 1].Post?
    ensures forall i :: 0 < i < |t| - 1 ==> t[i] == Await
  {
    var program := config.cmdArgs[0];
    var launch := Launch(program, config.cmdArgs[1..]);
    match child
    case SpawnFailed(cause) =>
      [launch, Post(NotificationRequest(config, SpawnFailedTitle(program), AlertBody(debug(SpawnError(program, cause))), false))]
    case WaitFailed(cause) =>
      [launch, Await, Post(NotificationRequest(config, WaitFailedTitle(program), AlertBody(debug(WaitError(cause))), false))]
    case Exited(out, err, code) =>
      [launch, Await, Post(SummaryRequest(config, lossy(out), lossy(err), ReturnCode(code)))]
  }

  /** What a run returns, given what the child did and what the transport
      reported for the one notification sent. */
  function RunOutcome(config: NtfyConfig, child: ChildOutcome, send: SendOutcome): (r: Result<(), Error>)
    requires |config.cmdArgs| >= 1
    ensures r.Ok? <==> child.Exited? && send.Response?
    ensures r.Err? ==> r.error.Context? && r.error.inner.Io?
  {
    match child
    case SpawnFailed(cause) => Err(SpawnError(config.cmdArgs[0], cause))
    case WaitFailed(cause) => Err(WaitError(cause))
    case Exited(_, _, _) =>
      match send
      case Response(_) => Ok(())
      case TransportFailed(cause) => Err(SendError(cause))
  }

  /** Every run launches the executable with the remaining tokens as its
      arguments, and then attempts exactly one notification, last. */
  lemma OneNotificationPerRun(config: NtfyConfig, child: ChildOutcome, lossy: Bytes -> string, debug: Error -> string)
    requires |config.cmdArgs| >= 1
    ensures var t := RunTrace(config, child, lossy, debug);
      t[0] == Launch(config.cmdArgs[0], config.cmdArgs[1..]) &&
      t[|t| - 1].Post? &&
      Posts(t) == [t[|t| - 1].request]
  {
  }

  /** The process is waited on exactly when it was spawned. */
  lemma WaitOnlyAfterSpawn(config: NtfyConfig, child: ChildOutcome, lossy: Bytes -> string, debug: Error -> string)
    requires |config.cmdArgs| >= 1
    ensures Await in RunTrace(config, child, lossy, debug) <==> !child.SpawnFailed?
  {
  }

  /** A spawn or wait failure is reported by an alert to the configured
      URL, with a failure classification, titled after the failing step and
      the executable, whose body renders the very error the run returns. */
  lemma FailuresAlert(config: NtfyConfig, child: ChildOutcome, send: SendOutcome, lossy: Bytes -> string, debug: Error -> string)
    requires |config.cmdArgs| >= 1
    requires !child.Exited?
    ensures var t := RunTrace(config, child, lossy, debug);
      var r := t[|t| - 1].request;
      r.url == config.url && r.body == AlertBody(debug(RunOutcome(config, child, send).error))
    ensures var t := RunTrace(config, child, lossy, debug);
      var h := t[|t| - 1].request.headers;
      TitleHeader in h && PriorityHeader in h && TagsHeader in h &&
      h[TitleHeader] == (if child.SpawnFailed? then SpawnFailedTitle(config.cmdArgs[0]) else WaitFailedTitle(config.cmdArgs[0])) &&
      h[PriorityHeader] == "high" && h[TagsHeader] == "rotating_light"
  {
  }

  /** After a normal exit the summary carries both decoded streams, names
      the executable, and reads as a success exactly when the child reported
      exit code zero. */
  lemma SummaryReflectsExit(config: NtfyConfig, out: Bytes, err: Bytes, code: Option<int>, lossy: Bytes -> string, debug: Error -> string)
    requires |config.cmdArgs| >= 1
    ensures var t := RunTrace(config, Exited(out, err, code), lossy, debug);
      var r := t[|t| - 1].request;
      r.url == config.url &&
      r.body == SummaryBody(lossy(out), lossy(err)) &&
      TitleHeader in r.headers && r.headers[TitleHeader] == SummaryTitle(config.cmdArgs[0]) &&
      PriorityHeader in r.headers && (r.headers[PriorityHeader] == "low" <==> code == Some(0))
  {
  }

  /** Every request of a run carries the bearer token exactly when one is
      configured. */
  lemma AuthorizationIffToken(config: NtfyConfig, child: ChildOutcome, lossy: Bytes -> string, debug: Error -> string)
    requires |config.cmdArgs| >= 1
    ensures forall r :: r in Posts(RunTrace(config, child, lossy, debug)) ==>
      (AuthorizationHeader in r.headers <==> config.token.Some?) &&
      (config.token.Some? ==> r.headers[AuthorizationHeader] == BearerValue(config.token.value))
  {
  }

  /** A spawn or wait failure is returned as it was raised, whatever the
      transport reported for the alert. */
  lemma OriginalErrorReturned(config: NtfyConfig, child: ChildOutcome, alert1: SendOutcome, alert2: SendOutcome)
    requires |config.cmdArgs| >= 1
    requires !child.Exited?
    ensures RunOutcome(config, child, alert1) == RunOutcome(config, child, alert2)
    ensures RunOutcome(config, child, alert1) ==
      if child.SpawnFailed? then Err(SpawnError(config.cmdArgs[0], child.spawnCause)) else Err(WaitError(child.waitCause))
  {
  }

  /** After a normal exit the run succeeds exactly when the summary got a
      response, whatever its status and whatever the child's exit code. */
  lemma SummarySendDecides(config: NtfyConfig, out: Bytes, err: Bytes, code: Option<int>, send: SendOutcome)
    requires |config.cmdArgs| >= 1
    ensures RunOutcome(config, Exited(out, err, code), send).Ok? <==> send.Response?
  {
  }

  // ---------------------------------------------------------------------------
  // The program's side

  /** The outside world as the program touches it: every process launch,
      every wait and every HTTP request, in order. */
  class Host {
    var trace: seq<Event>

    constructor ()
      ensures trace == []
    {
      trace := [];
    }

    /** Posts one notification. It fails only when the transport does; the
        response's status is never looked at. */
    method Notify(config: NtfyConfig, title: string, content: string, success: bool, send: SendOutcome)
      returns (r: Result<(), Error>)
      requires ValidHeaderValue(title)
      requires config.token.Some? ==> ValidHeaderValue(BearerValue(config.token.value))
      modifies this
      ensures trace == old(trace) + [Post(NotificationRequest(config, title, content, success))]
      ensures send.Response? ==> r == Ok(())
      ensures send.TransportFailed? ==> r == Err(SendError(send.cause))
    {
      var headers := BuildHeaders(title, success, config.token);
      trace := trace + [Post(Request(config.url, headers, content))];
      match send
      case Response(_) =>
        r := Ok(());
      case TransportFailed(cause) =>
        r := Err(SendError(cause));
    }

    /** Sends the end-of-run summary of the captured streams. */
    method SendMessage(config: NtfyConfig, stdout: string, stderr: string, exitCode: int, send: SendOutcome)
      returns (r: Result<(), Error>)
      requires Runnable(config)
      modifies this
      ensures trace == old(trace) + [Post(SummaryRequest(config, stdout, stderr, exitCode))]
      ensures send.Response? ==> r == Ok(())
      ensures send.TransportFailed? ==> r == Err(SendError(send.cause))
    {
      var content := SummaryBody(stdout, stderr);
      var title := SummaryTitle(config.cmdArgs[0]);
      TitlesValid(config.cmdArgs[0]);
      if config.token.Some? {
        BearerValid(config.token.value);
      }
      r := Notify(config, title, content, exitCode == 0, send);
    }

    /** Runs the configured command once and notifies its result. `send`
        is what the transport reports for the one notification attempted. */
    method Run(config: NtfyConfig, child: ChildOutcome, send: SendOutcome, lossy: Bytes -> string, debug: Error -> string)
      returns (r: Result<(), Error>)
      requires Runnable(config)
      modifies this
      ensures trace == old(trace) + RunTrace(config, child, lossy, debug)
      ensures r == RunOutcome(config, child, send)
      ensures Posts(trace) == Posts(old(trace)) + Posts(RunTrace(config, child, lossy, debug))
      ensures |Posts(trace)| == |Posts(old(trace))| + 1
    {
      var program := config.cmdArgs[0];
      ghost var before := trace;
      ghost var effects := RunTrace(config, child, lossy, debug);
      TitlesValid(program);
      if config.token.Some? {
        BearerValid(config.token.value);
      }
      trace := trace + [Launch(program, config.cmdArgs[1..])];
      if child.SpawnFailed? {
        var e := SpawnError(program, child.spawnCause);
        var _ := Notify(config, SpawnFailedTitle(program), AlertBody(debug(e)), false, send);
        r := Err(e);
        assert trace == before + effects;
      } else {
        trace := trace + [Await];
        if child.WaitFailed? {
          var e := WaitError(child.waitCause);
          var _ := Notify(config, WaitFailedTitle(program), AlertBody(debug(e)), false, send);
          r := Err(e);
          assert trace == before + effects;
        } else {
          var stdout := lossy(child.stdout);
          var stderr := lossy(child.stderr);
          var returnCode := ReturnCode(child.code);
          r := SendMessage(config, stdout, stderr, returnCode, send);
          assert trace == before + effects;
        }
      }
      PostsAppend(before, effects);
      OneNotificationPerRun(config, child, lossy, debug);
    }
  }
}
