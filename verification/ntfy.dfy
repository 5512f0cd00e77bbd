/** The notification side of the wrapper: the resolved configuration, the
    headers of a notification, and the titles and bodies of the three kinds of
    notification (spawn alert, wait alert, end-of-run summary). */
module Ntfy {
  import opened Wrappers

  /** The configuration, built once at start-up and never changed: the
      endpoint URL, an optional bearer token and the command line (the
      executable first, then its arguments). */
  datatype NtfyConfig = NtfyConfig(url: string, token: Option<string>, cmdArgs: seq<string>)

  /** Header name to header value. Inserting a name that is already present
      replaces its value, as map update does. */
  type Headers = map<string, string>

  /** One HTTP POST as it leaves the program. */
  datatype Request = Request(url: string, headers: Headers, body: string)

  const MarkdownHeader := "X-Markdown"
  const TitleHeader := "X-Title"
  const PriorityHeader := "X-Priority"
  const TagsHeader := "X-Tags"
  const AuthorizationHeader := "Authorization"

  /** Every header name a notification can carry. */
  const HeaderNames: set<string> :=
    {MarkdownHeader, TitleHeader, PriorityHeader, TagsHeader, AuthorizationHeader}

  // ---------------------------------------------------------------------------
  // Header values

  /** A character the HTTP library accepts in a header value: a tab, or any
      character whose encoding bytes are at least 32 and not 127 (every
      non-ASCII character qualifies, since its bytes are all at least 128). */
  predicate ValidHeaderChar(c: char) {
    c == '\t' || (32 <= c as int && c as int != 127)
  }

  /** A string the HTTP library turns into a header value without failing. */
  predicate ValidHeaderValue(s: string) {
    forall i :: 0 <= i < |s| ==> ValidHeaderChar(s[i])
  }

  lemma {:induction false} ValidHeaderValueConcat(a: string, b: string)
    ensures ValidHeaderValue(a + b) <==> ValidHeaderValue(a) && ValidHeaderValue(b)
  {
    if ValidHeaderValue(a + b) {
      forall i | 0 <= i < |a| ensures ValidHeaderChar(a[i]) {
        assert a[i] == (a + b)[i];
      }
      forall i | 0 <= i < |b| ensures ValidHeaderChar(b[i]) {
        assert b[i] == (a + b)[|a| + i];
      }
    }
  }

  function BearerValue(token: string): string {
    "Bearer " + token
  }

  /** What a configuration needs for every notification of a run to be
      built: a command line with an executable (titles name it), an
      executable name and a token that are valid header values. */
  predicate Runnable(config: NtfyConfig) {
    |config.cmdArgs| >= 1 &&
    ValidHeaderValue(config.cmdArgs[0]) &&
    (config.token.Some? ==> ValidHeaderValue(config.token.value))
  }

  // ---------------------------------------------------------------------------
  // Headers

  /** The headers of a notification with the given title and success flag. */
  function HeadersFor(title: string, success: bool, token: Option<string>): (h: Headers)
    ensures h.Keys <= HeaderNames
    ensures MarkdownHeader in h && h[MarkdownHeader] == "yes"
    ensures TitleHeader in h && h[TitleHeader] == title
    ensures PriorityHeader in h && h[PriorityHeader] in {"low", "high"}
    ensures TagsHeader in h && h[TagsHeader] in {"heavy_check_mark", "rotating_light"}
    ensures h[PriorityHeader] == "low" <==> success
    ensures h[TagsHeader] == "heavy_check_mark" <==> success
    ensures AuthorizationHeader in h <==> token.Some?
    ensures token.Some? ==> h[AuthorizationHeader] == BearerValue(token.value)
  {
    var classified :=
      if success then map[PriorityHeader := "low", TagsHeader := "heavy_check_mark"]
      else map[PriorityHeader := "high", TagsHeader := "rotating_light"];
    var common := map[MarkdownHeader := "yes", TitleHeader := title] + classified;
    match token
    case None => common
    case Some(t) => common[AuthorizationHeader := BearerValue(t)]
  }

  /** Builds the headers one insertion at a time, as the notifier does. The
      title and the bearer value must be valid header values: the notifier
      does not handle the library's refusal of them. */
  method BuildHeaders(title: string, success: bool, token: Option<string>) returns (h: Headers)
    requires ValidHeaderValue(title)
    requires token.Some? ==> ValidHeaderValue(BearerValue(token.value))
    ensures h == HeadersFor(title, success, token)
  {
    h := map[];
    h := h[MarkdownHeader := "yes"];
    h := h[TitleHeader := title];
    if success {
      h := h[PriorityHeader := "low"];
      h := h[TagsHeader := "heavy_check_mark"];
    } else {
      h := h[PriorityHeader := "high"];
      h := h[TagsHeader := "rotating_light"];
    }
    if token.Some? {
      h := h[AuthorizationHeader := BearerValue(token.value)];
    }
  }

  /** A success notification without a token carries exactly the four
      fixed headers. */
  lemma SuccessHeadersWithoutToken(title: string)
    ensures HeadersFor(title, true, None) ==
      map[MarkdownHeader := "yes", TitleHeader := title, PriorityHeader := "low", TagsHeader := "heavy_check_mark"]
  {
  }

  /** The request a notification becomes: posted to the configured URL,
      with the content as its raw body. */
  function NotificationRequest(config: NtfyConfig, title: string, content: string, success: bool): (r: Request)
    ensures r.url == config.url && r.body == content
    ensures TitleHeader in r.headers && r.headers[TitleHeader] == title
    ensures PriorityHeader in r.headers && (r.headers[PriorityHeader] == "low" <==> success)
    ensures AuthorizationHeader in r.headers <==> config.token.Some?
  {
    Request(config.url, HeadersFor(title, success, config.token), content)
  }

  // ---------------------------------------------------------------------------
  // Titles

  const SpawnFailedPrefix := "Failed to spawn process "
  const WaitFailedPrefix := "Failed to wait on "
  const SummaryPrefix := "Executing command "

  function SpawnFailedTitle(program: string): string { SpawnFailedPrefix + program }
  function WaitFailedTitle(program: string): string { WaitFailedPrefix + program }
  function SummaryTitle(program: string): string { SummaryPrefix + program }

  /** Each title ends with the executable's name, exactly as given. */
  lemma TitlesNameProgram(program: string)
    ensures SpawnFailedTitle(program)[|SpawnFailedPrefix|..] == program
    ensures WaitFailedTitle(program)[|WaitFailedPrefix|..] == program
    ensures SummaryTitle(program)[|SummaryPrefix|..] == program
  {
  }

  /** The three kinds of notification never share a title, whatever the
      executables they name. */
  lemma TitlesDistinct(p: string, q: string)
    ensures SpawnFailedTitle(p) != WaitFailedTitle(q)
    ensures SpawnFailedTitle(p) != SummaryTitle(q)
    ensures WaitFailedTitle(p) != SummaryTitle(q)
  {
    assert SpawnFailedTitle(p)[10] == 's' && WaitFailedTitle(q)[10] == 'w';
    assert SpawnFailedTitle(p)[0] == 'F' && WaitFailedTitle(p)[0] == 'F' && SummaryTitle(q)[0] == 'E';
  }

  /** A notification's title is a valid header value exactly when the
      executable's name is. */
  lemma TitlesValid(program: string)
    ensures ValidHeaderValue(SpawnFailedTitle(program)) <==> ValidHeaderValue(program)
    ensures ValidHeaderValue(WaitFailedTitle(program)) <==> ValidHeaderValue(program)
    ensures ValidHeaderValue(SummaryTitle(program)) <==> ValidHeaderValue(program)
  {
    ValidHeaderValueConcat(SpawnFailedPrefix, program);
    ValidHeaderValueConcat(WaitFailedPrefix, program);
    ValidHeaderValueConcat(SummaryPrefix, program);
  }

  /** The bearer value is a valid header value exactly when the token is. */
  lemma BearerValid(token: string)
    ensures ValidHeaderValue(BearerValue(token)) <==> ValidHeaderValue(token)
  {
    ValidHeaderValueConcat("Bearer ", token);
  }

  // ---------------------------------------------------------------------------
  // Bodies

  const StdoutOpening := "stdout:\n\n```\n"
  const StderrOpening := "\n```\n\nstderr:\n\n```\n"
  const Closing := "\n```"

  /** The markdown body of the end-of-run summary: the captured standard
      output and standard error, each in its own labelled fenced block. */
  function SummaryBody(stdout: string, stderr: string): (b: string)
    ensures |b| == |StdoutOpening| + |stdout| + |StderrOpening| + |stderr| + |Closing|
    ensures b[..|StdoutOpening|] == StdoutOpening && b[|b| - |Closing|..] == Closing
  {
    StdoutOpening + stdout + StderrOpening + stderr + Closing
  }

  /** Both fenced blocks are always there, empty output included, and each
      holds its stream unchanged at a position fixed by the stdout length. */
  lemma SummaryBodyLayout(stdout: string, stderr: string)
    ensures var b, o, s := SummaryBody(stdout, stderr), |StdoutOpening|, |StdoutOpening| + |stdout| + |StderrOpening|;
      |b| == s + |stderr| + |Closing| &&
      b[..o] == StdoutOpening &&
      b[o..o + |stdout|] == stdout &&
      b[o + |stdout|..s] == StderrOpening &&
      b[s..s + |stderr|] == stderr &&
      b[s + |stderr|..] == Closing
  {
  }

  /** Once the stdout length is known, the summary body gives back both
      streams. Without that length the body alone is ambiguous; see
      SummaryBodyAmbiguous. */
  lemma SummaryBodyInjective(o1: string, e1: string, o2: string, e2: string)
    requires |o1| == |o2|
    requires SummaryBody(o1, e1) == SummaryBody(o2, e2)
    ensures o1 == o2 && e1 == e2
  {
    SummaryBodyLayout(o1, e1);
    SummaryBodyLayout(o2, e2);
  }

  /** The body alone does not determine the streams: a standard output
      that contains the stderr opening reads like a second block. */
  lemma SummaryBodyAmbiguous()
    ensures SummaryBody("a" + StderrOpening + "b", "c") == SummaryBody("a", "b" + StderrOpening + "c")
    ensures "a" + StderrOpening + "b" != "a"
  {
  }

  /** The body of a spawn or wait alert: the error's rendering after a
      fixed label. */
  const AlertLabel := "Error:\n "

  function AlertBody(detail: string): (b: string)
    ensures |b| == |AlertLabel| + |detail|
    ensures b[..|AlertLabel|] == AlertLabel && b[|AlertLabel|..] == detail
  {
    AlertLabel + detail
  }

  // ---------------------------------------------------------------------------
  // The summary

  /** The exit code reported to the summary: the child's own code, or -1
      when the operating system reports none (a child killed by a signal).
      Only a reported zero reads as success. */
  function ReturnCode(code: Option<int>): (c: int)
    ensures c == 0 <==> code == Some(0)
    ensures code.None? ==> c < 0
    ensures code.None? ==> c == -1
    ensures code.Some? ==> c == code.value
  {
    code.GetOr(-1)
  }

  /** The end-of-run summary request. */
  function SummaryRequest(config: NtfyConfig, stdout: string, stderr: string, exitCode: int): (r: Request)
    requires |config.cmdArgs| >= 1
    ensures r.url == config.url && r.body == SummaryBody(stdout, stderr)
    ensures TitleHeader in r.headers && r.headers[TitleHeader] == SummaryTitle(config.cmdArgs[0])
    ensures PriorityHeader in r.headers && (r.headers[PriorityHeader] == "low" <==> exitCode == 0)
    ensures TagsHeader in r.headers && (r.headers[TagsHeader] == "heavy_check_mark" <==> exitCode == 0)
  {
    NotificationRequest(config, SummaryTitle(config.cmdArgs[0]), SummaryBody(stdout, stderr), exitCode == 0)
  }
}
