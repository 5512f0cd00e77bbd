/** The command-line front end: resolve the configuration from the parsed
    flags and the environment, then run the command once. */
module Cli {
  import opened Wrappers
  import opened Errors
  import opened Ntfy
  import opened Runner

  /** What the argument parser hands over: the `--url` and `--token` flag
      values, if given, and the positional command tokens in order. */
  datatype Matches = Matches(url: Option<string>, token: Option<string>, cmdArgs: seq<string>)

  /** The environment variables that hold Unicode text. */
  type Env = map<string, string>

  const UrlVar := "NTFY_URL"
  const TokenVar := "NTFY_TOKEN"
  const NoUrlMessage := "no url provided (either via environment variable or argument)"

  /** The value of a variable, if it is set. */
  function EnvVar(env: Env, name: string): (v: Option<string>)
    ensures v.Some? <==> name in env
    ensures v.Some? ==> v.value == env[name]
  {
    if name in env then Some(env[name]) else None
  }

  /** Resolves the configuration. The command line needs at least one
      token (the argument parser refuses it otherwise); the URL comes from
      the flag, else from the environment, else resolution fails; the token
      comes from the flag, else from the environment, else there is none. */
  function ParseArgs(m: Matches, env: Env): (r: Result<NtfyConfig, Error>)
    ensures r.Ok? <==> |m.cmdArgs| >= 1 && (m.url.Some? || UrlVar in env)
    ensures m.cmdArgs == [] ==> r == Err(Usage)
    ensures m.cmdArgs != [] && m.url.None? && UrlVar !in env ==> r == Err(Message(NoUrlMessage))
    ensures r.Ok? ==> |r.value.cmdArgs| >= 1 && r.value.cmdArgs == m.cmdArgs
    ensures r.Ok? ==> r.value.url == (if m.url.Some? then m.url.value else env[UrlVar])
    ensures r.Ok? ==>
      r.value.token == (if m.token.Some? then m.token else if TokenVar in env then Some(env[TokenVar]) else None)
  {
    if m.cmdArgs == [] then Err(Usage)
    else
      match m.url.Or(EnvVar(env, UrlVar))
      case None => Err(Message(NoUrlMessage))
      case Some(url) => Ok(NtfyConfig(url, m.token.Or(EnvVar(env, TokenVar)), m.cmdArgs))
  }

  const RunContext := "failed to notify command result"

  /** What the program returns: the resolution error, or the run's result
      with any run error wrapped in one line of context. */
  function MainOutcome(m: Matches, env: Env, child: ChildOutcome, send: SendOutcome): (r: Result<(), Error>)
    ensures r.Ok? <==> ParseArgs(m, env).Ok? && RunOutcome(ParseArgs(m, env).value, child, send).Ok?
    ensures ParseArgs(m, env).Err? ==> r == Err(ParseArgs(m, env).error)
    ensures ParseArgs(m, env).Ok? && r.Err? ==>
      r.error == Context(RunContext, RunOutcome(ParseArgs(m, env).value, child, send).error)
  {
    match ParseArgs(m, env)
    case Err(e) => Err(e)
    case Ok(config) =>
      match RunOutcome(config, child, send)
      case Ok(_) => Ok(())
      case Err(e) => Err(Context(RunContext, e))
  }

  /** The program: resolve the configuration, then run. Nothing is
      launched or posted when resolution fails. */
  method Entry(host: Host, m: Matches, env: Env, child: ChildOutcome, send: SendOutcome,
               lossy: Bytes -> string, debug: Error -> string)
    returns (r: Result<(), Error>)
    requires ParseArgs(m, env).Ok? ==> Runnable(ParseArgs(m, env).value)
    modifies host
    ensures r == MainOutcome(m, env, child, send)
    ensures ParseArgs(m, env).Err? ==> host.trace == old(host.trace)
    ensures ParseArgs(m, env).Ok? ==>
      host.trace == old(host.trace) + RunTrace(ParseArgs(m, env).value, child, lossy, debug)
  {
    var parsed := ParseArgs(m, env);
    if parsed.Err? {
      return Err(parsed.error);
    }
    var outcome := host.Run(parsed.value, child, send, lossy, debug);
    if outcome.Err? {
      return Err(Context(RunContext, outcome.error));
    }
    r := Ok(());
  }

  const EchoUrl := "http://localhost:8080"
  const EchoConfig := NtfyConfig(EchoUrl, None, ["echo", "hello"])

  /** The request the integration test expects for `echo hello`. */
  const EchoRequest := Request(EchoUrl,
    map[MarkdownHeader := "yes", TitleHeader := "Executing command echo",
        PriorityHeader := "low", TagsHeader := "heavy_check_mark"],
    "stdout:\n\n```\nhello\n\n```\n\nstderr:\n\n```\n\n```")

  lemma EchoSummaryRequest()
    ensures SummaryRequest(EchoConfig, "hello\n", "", 0) == EchoRequest
  {
    var title := SummaryTitle("echo");
    var body := SummaryBody("hello\n", "");
    assert title == "Executing command echo";
    assert body == EchoRequest.body;
    assert SummaryRequest(EchoConfig, "hello\n", "", 0) == Request(EchoUrl, HeadersFor(title, true, None), body);
    SuccessHeadersWithoutToken(title);
  }

  /** The echo scenario of the integration test: `--url` given, no token
      anywhere, `echo hello` printing "hello" and a newline and exiting with
      0. Exactly one request is posted, with this body and with exactly these
      headers built by the notifier (no `Authorization`), and the program
      succeeds once the server responds. */
  lemma EchoHelloScenario(env: Env, out: Bytes, err: Bytes, lossy: Bytes -> string, debug: Error -> string)
    requires TokenVar !in env
    requires lossy(out) == "hello\n" && lossy(err) == ""
    ensures var m := Matches(Some(EchoUrl), None, ["echo", "hello"]);
      ParseArgs(m, env) == Ok(EchoConfig) &&
      Posts(RunTrace(EchoConfig, Exited(out, err, Some(0)), lossy, debug)) == [EchoRequest] &&
      MainOutcome(m, env, Exited(out, err, Some(0)), Response(200)) == Ok(())
  {
    var child := Exited(out, err, Some(0));
    EchoSummaryRequest();
    var t := RunTrace(EchoConfig, child, lossy, debug);
    assert t[|t| - 1].request == EchoRequest;
    OneNotificationPerRun(EchoConfig, child, lossy, debug);
  }
}
