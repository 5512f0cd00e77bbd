# cmdntfy in Dafny

cmdntfy wraps a command. It runs the command once and captures its
standard output, its standard error and its exit code. It then POSTs a
markdown notification to an ntfy endpoint. The notification has:

- a title;
- an `X-Priority` and an `X-Tags` header that mark success or failure;
- an `Authorization: Bearer` header when a token is configured.

If the command cannot be spawned or waited on, cmdntfy sends a failure
alert instead. It then returns the original error.

This project models that logic with the operating system and the network
abstracted away. A process spawn, a wait and an HTTP send are not
performed. Each of them is a value that says how it turned out:

- `ChildOutcome`: `SpawnFailed | WaitFailed | Exited(stdout, stderr, code)`;
- `SendOutcome`: `Response(status) | TransportFailed`.

Every effect the program has on the outside world is appended to the
trace of a `Host` object. The trace events are `Launch(program, args)`,
`Await` and `Post(request)`.

Modules:

- `Wrappers`: `Option` and `Result`.
- `Errors`: the error chain. An error is an I/O cause, a message, or an
  error wrapped in a line of context.
- `Ntfy` (`src/lib.rs`): the configuration, the header map and the
  request of `notify`, and the title forms and bodies of `send_message`
  and of `run`'s alerts. It also holds `ReturnCode`, the exit-code
  sentinel that `run` applies before calling `send_message`.
  `BuildHeaders` builds the header map one insertion at a time and is
  proved equal to the specification function `HeadersFor`.
- `Runner` (`src/lib.rs`, `run`): the `Host` class and its methods
  `Notify`, `SendMessage` and `Run`. `Run` is proved against two
  specification functions. `RunTrace` gives the effects of one run and
  `RunOutcome` gives its result. The lemmas beside them state the
  properties of a run.
- `Cli` (`src/main.rs`): URL and token resolution (`ParseArgs`), the
  program's overall result (`MainOutcome`) and the entry method `Entry`.
  It also holds the integration test's `echo hello` scenario as a lemma.

## Model

| member | source | states |
|---|---|---|
| `Ntfy.HeadersFor` | src/lib.rs:84-100 | Every notification carries `X-Markdown: yes` and `X-Title` equal to the title. Priority is `low` and tags `heavy_check_mark` iff success, otherwise `high` and `rotating_light`, and no other values occur. `Authorization` is present iff a token is set, and then equals `Bearer <token>`. No other header names occur. |
| `Ntfy.BuildHeaders` | src/lib.rs:84-100 | The successive insertions yield exactly `HeadersFor`. The title and the bearer value must be valid header values, because the source unwraps their conversion. |
| `Ntfy.SuccessHeadersWithoutToken` | src/lib.rs:84-100 | A success notification without a token has exactly the four fixed headers. |
| `Ntfy.NotificationRequest` | src/lib.rs:102-106 | A notification is posted to the configured URL with the content as its raw body. It carries the given title, `low` priority iff success, and `Authorization` iff a token is configured. |
| `Ntfy.ValidHeaderValueConcat` | src/lib.rs:86 | A concatenation is a valid header value iff both parts are. |
| `Ntfy.TitlesValid` | src/lib.rs:86 | Each title form is a valid header value iff the executable name is. |
| `Ntfy.BearerValid` | src/lib.rs:98 | `Bearer <token>` is a valid header value iff the token is. |
| `Ntfy.TitlesNameProgram` | src/lib.rs:26 | Each of the three titles ends with the executable name, unchanged. The titles are built at lines 26, 39 and 75. |
| `Ntfy.TitlesDistinct` | src/lib.rs:39 | The spawn-alert, wait-alert and summary titles never coincide, whatever executables they name. The other two titles are at lines 26 and 75. |
| `Ntfy.SummaryBody` | src/lib.rs:68-71 | The summary body opens with the labelled stdout fence and ends with the closing fence. Its length is both streams plus the fixed markup. |
| `Ntfy.SummaryBodyLayout` | src/lib.rs:68-71 | The body is a stdout block followed by a stderr block, each fenced. Both blocks are present even for empty streams. Each stream sits unchanged at a fixed position, and the length is the two streams plus the fixed markup. |
| `Ntfy.SummaryBodyInjective` | src/lib.rs:68-71 | Given the stdout length, the body determines both streams. |
| `Ntfy.SummaryBodyAmbiguous` | src/lib.rs:68-71 | Without the stdout length the body is ambiguous: a stdout containing the stderr opening gives the same body as a different pair of streams. |
| `Ntfy.AlertBody` | src/lib.rs:27 | The alert body is the label `Error:` with a newline and a space, followed by the error's rendering unchanged. The wait alert at line 40 uses the same form. |
| `Ntfy.ReturnCode` | src/lib.rs:50 | The reported code is zero iff the child reported zero. A missing code becomes the sentinel -1, which never counts as success. A reported code is passed through unchanged. |
| `Ntfy.SummaryRequest` | src/lib.rs:68-78 | The summary goes to the configured URL and has the summary body. Its title is `Executing command <executable>`. It is classified as success iff the exit code is 0. |
| `Runner.SpawnError` | src/lib.rs:20 | A spawn failure keeps its I/O cause under one line of context: `failed to spawn process ` followed by the executable name. |
| `Runner.WaitError` | src/lib.rs:34 | A wait failure keeps its I/O cause under one line of context, shorter than any spawn context. |
| `Runner.SendError` | src/lib.rs:108 | A send failure keeps its I/O cause under one line of context, shorter than any spawn context. |
| `Runner.RunErrorsDistinct` | src/lib.rs:20 | The spawn, wait and send errors never coincide, whatever their causes. Their contexts are at lines 20, 34 and 108. |
| `Runner.Posts` | src/lib.rs:102-108 | The requests extracted from a trace are no more numerous than its events. A request is extracted iff it was posted in the trace. |
| `Runner.PostsAppend` | src/lib.rs:102-108 | The requests posted by two consecutive stretches of a trace are those of the first followed by those of the second. |
| `Runner.RunTrace` | src/lib.rs:14-57 | A run has two effects when the spawn fails and three otherwise. It starts with a launch, ends with a POST, and anything in between is the wait. |
| `Runner.RunOutcome` | src/lib.rs:23-59 | A run succeeds iff the child exited and the notification got a response. Every run error keeps an I/O cause under one line of context. |
| `Runner.OneNotificationPerRun` | src/lib.rs:13-59 | Every run first launches `cmd_args[0]` with `cmd_args[1..]` as its arguments. It then posts exactly one notification, as its last effect. |
| `Runner.WaitOnlyAfterSpawn` | src/lib.rs:14-34 | The child is waited on iff it was spawned. |
| `Runner.FailuresAlert` | src/lib.rs:23-45 | On a spawn or wait failure, the one notification is titled `Failed to spawn process <executable>` or `Failed to wait on <executable>`. It is classified as a failure. It goes to the configured URL, and its body renders the very error the run returns. |
| `Runner.SummaryReflectsExit` | src/lib.rs:48-57 | After a normal exit, the one notification is the summary of both decoded streams, sent to the configured URL. It is `low` priority iff the child reported exit code 0. |
| `Runner.AuthorizationIffToken` | src/lib.rs:95-100 | Every request of a run, alert or summary, carries `Authorization: Bearer <token>` iff a token is configured. |
| `Runner.OriginalErrorReturned` | src/lib.rs:23-45 | A spawn or wait failure returns the original error, with its context. The result is the same whatever the transport reported for the alert. |
| `Runner.SummarySendDecides` | src/lib.rs:52-59 | After a normal exit, whatever the child's exit code, the run succeeds iff the summary got a response. The response status does not matter. |
| `Runner.Host.Notify` | src/lib.rs:83-111 | Appends exactly one POST of the notification to the trace. Fails, with the "failed to send message" context, only on a transport failure. Any response status counts as success. |
| `Runner.Host.SendMessage` | src/lib.rs:62-81 | Appends exactly the summary request to the trace and reports the send result unchanged. |
| `Runner.Host.Run` | src/lib.rs:13-60 | The new trace is the old one followed by `RunTrace`, and the result is `RunOutcome`. The number of posted requests grows by exactly one. |
| `Cli.ParseArgs` | src/main.rs:31-61 | Resolution succeeds iff there is a command token and a URL from the flag or `NTFY_URL`. The URL is the flag value, else `NTFY_URL`. The token is the flag value, else `NTFY_TOKEN`, else absent, and its absence is no error. The config has at least one command token and carries them unchanged and in order. A missing URL gives the no-URL error. |
| `Cli.EnvVar` | src/main.rs:37 | A variable yields a value iff it is set, and then its value. The token variable is read the same way at line 51. |
| `Cli.MainOutcome` | src/main.rs:64-70 | The program fails iff resolution or the run fails. A resolution error is returned as is. A run error is wrapped in the "failed to notify command result" context. |
| `Cli.Entry` | src/main.rs:64-70 | Returns `MainOutcome`. When resolution fails, nothing is launched or posted. Otherwise the trace grows by exactly `RunTrace`. |
| `Cli.EchoSummaryRequest` | test/integration/test_cmdntfy.py:45-64 | The summary for `echo hello` without a token has exactly the body the integration test expects. Its notifier headers are exactly the four the test checks. |
| `Cli.EchoHelloScenario` | test/integration/test_cmdntfy.py:26-64 | The integration test's run resolves to the expected config and posts exactly one request: the expected body and the four expected notifier headers, with no `Authorization`. The program then succeeds on a 200 response. |

## Left out

- Process spawning, piping and waiting are operating-system I/O. They are
  modelled only as the `ChildOutcome` the operating system reports.
  Closing the child's stdin is not modelled.
- The HTTP client is network I/O. A send is modelled only as its
  `SendOutcome`, and the request (URL, headers, body) is recorded in the
  trace. Client construction is left out, and so is the response body,
  which is never read.
- `Request.headers` holds only the header map the notifier builds. The HTTP
  client and transport add headers of their own, such as `accept`, `host`
  and `content-length`. Those are not modelled.
- `String::from_utf8_lossy` belongs to the Rust standard library. It is
  the parameter `lossy`: an uninterpreted total function from bytes to
  text. Its replacement of invalid sequences is not modelled.
- The `{:?}` rendering of an error in alert bodies is library formatting.
  It is the parameter `debug`, and the alert body is `"Error:\n "` followed
  by it.
- `HeaderValue::from_str(..).unwrap()` panics on an invalid title or token.
  It does not return an error. The model states validity as a precondition
  (`ValidHeaderValue`, `Runnable`) instead of modelling the panic.
- The clap argument parser, usage rendering and `eprintln!` are a CLI
  library and console I/O. `Matches` holds only the flag values and the
  positional tokens.
- `Cli.ParseArgs`: a missing command token is modelled as `Err(Usage)`.
  The real clap prints its own message and exits with status 2 from
  `get_matches`, without returning.
- Environment variables whose value is not Unicode read as absent in the
  source. `Env` holds only Unicode-valued variables.
- Header names are written as the source writes them (`X-Title`). The HTTP
  library sends them in lower case, and HTTP header names are
  case-insensitive.
- `Ntfy.ReturnCode`: the exit code is an unbounded integer, not a 32-bit
  one. Only its comparison with zero matters.
- `Cli.Entry`: the process exit status derived from the returned `Result`
  is not modelled.
