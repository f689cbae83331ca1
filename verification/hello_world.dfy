/**
 The HTTP function: it reads the `url` query parameter, accepts only URLs
 under the allow-listed prefix, fetches the document, converts it with the
 fixed configuration and answers with exactly one response.

 The HTTP runtime, the network, the conversion engine and the UTF-8 encoder
 are capabilities passed in through `Env`; the response is a value, and the
 side effects are an ordered trace of events.
 */
module HelloWorld {
  import opened Wrappers
  import opened JavaLang
  import opened Logging
  import opened Scrooge

  /** The query parameters as the runtime presents them: name to all its values. */
  type Query = map<string, seq<string>>

  /** The only origin the function fetches from. */
  const UrlPrefix: string := "https://scroogexhtml.com/rtf/"

  /** The document the usage page suggests. */
  const ExampleUrl: string := "https://scroogexhtml.com/rtf/features-fonts.rtf"

  /** The text of the log line before its `{}` anchor. */
  const LogFormat: string := "Converting URL to InputStream: "

  /** The informational line logged before a fetch: the pattern with the URL in its anchor. */
  function LogLine(url: string): (line: string)
    ensures StartsWith(line, LogFormat) && line[|LogFormat|..] == url
  {
    assert '{' !in LogFormat;
    BraceFreeIsAnchorFree(LogFormat);
    FormatFillsFirstAnchor(LogFormat, "", url);
    assert LogFormat + "{}" + "" == LogFormat + "{}";
    assert LogFormat + url + "" == LogFormat + url;
    Format(LogFormat + "{}", url)
  }

  // ---------------------------------------------------------------------------
  // Response bodies
  // ---------------------------------------------------------------------------

  /** Every page the handler writes opens and closes the same way. */
  const PageOpen: string := "<html><body>"
  const PageClose: string := "</body></html>"

  /** A complete page: framed by the opening and closing markup. */
  predicate IsWholePage(text: string)
  {
    && |PageOpen| + |PageClose| <= |text|
    && text[..|PageOpen|] == PageOpen
    && text[|text| - |PageClose|..] == PageClose
  }

  /** The usage page up to the example URL. */
  const UsageHead: string :=
    PageOpen +
    "<h1>RTF to HTML Converter</h1>" +
    "<p>Please provide a 'url' parameter pointing to an RTF file.</p>" +
    "<p>Example usage: <code>?url="

  /** The usage page after the example URL. */
  const UsageTail: string := "</code></p>" + PageClose

  /** The text `writeInstructions` writes. */
  const UsagePage: string := UsageHead + ExampleUrl + UsageTail

  /** The error page's markup before the explanatory phrase. */
  const ErrorOpening: string := PageOpen + "<h1>Error</h1>" + "<p>"

  /** The phrase that introduces the failure's message. */
  const FailurePhrase: string := "Failed to process the RTF document: "

  /** The error page up to the failure's message. */
  const ErrorHead: string := ErrorOpening + FailurePhrase

  /** The error page after the failure's message. */
  const ErrorTail: string := "</p>" + PageClose

  /** The text the exception handler writes for a failure whose message reads `detail`. */
  function ErrorPage(detail: string): (page: string)
    ensures IsWholePage(page)
    ensures |page| == |ErrorHead| + |detail| + |ErrorTail|
    ensures page[..|ErrorHead|] == ErrorHead && page[|page| - |ErrorTail|..] == ErrorTail
    ensures page[|ErrorHead|..|page| - |ErrorTail|] == detail
  {
    var page := ErrorHead + detail + ErrorTail;
    assert page[..|ErrorHead|] == ErrorHead;
    assert page[|ErrorHead|..|page| - |ErrorTail|] == detail;
    assert page[|page| - |ErrorTail|..] == ErrorTail;
    assert page[..|PageOpen|] == ErrorHead[..|PageOpen|];
    assert page[|page| - |PageClose|..] == ErrorTail[|ErrorTail| - |PageClose|..];
    page
  }

  /** Recovers the failure's message from an error page; `None` for any other text. */
  function ErrorDetail(text: string): (r: Option<string>)
    ensures r.Some? ==> text == ErrorPage(r.value)
  {
    if |ErrorHead| + |ErrorTail| <= |text|
       && text[..|ErrorHead|] == ErrorHead
       && text[|text| - |ErrorTail|..] == ErrorTail
    then
      var detail := text[|ErrorHead|..|text| - |ErrorTail|];
      assert text == text[..|ErrorHead|] + detail + text[|text| - |ErrorTail|..];
      Some(detail)
    else
      None
  }

  /** An error page, whatever its message, never reads as the usage page: the headings differ. */
  lemma ErrorPageIsNotUsagePage(detail: string)
    ensures ErrorPage(detail) != UsagePage
  {
    var at := |PageOpen + "<h1>"|;
    assert ErrorPage(detail)[at] == 'E';
    assert UsagePage[at] == 'R';
  }

  // ---------------------------------------------------------------------------
  // Collaborators
  // ---------------------------------------------------------------------------

  /**
   What `IOUtils.toByteArray(URI.create(url))` does: the bytes, an
   `IOException`, or anything else it throws (an unchecked exception, or an
   `Error` such as running out of memory).
   */
  datatype Download = Downloaded(content: seq<byte>) | IoFailure(cause: Throwable) | Unchecked(cause: Throwable)

  /** What the handler receives from `getCurrentRtf`: a stream over bytes, null, or a thrown object. */
  datatype Fetched = Stream(content: seq<byte>) | NullStream | Raised(cause: Throwable)

  /**
   `getCurrentRtf`: a stream over the downloaded bytes; an `IOException` is
   rethrown wrapped in a `RuntimeException`; anything else propagates as is.
   It never returns null.
   */
  function GetCurrentRtf(download: Download): (f: Fetched)
    ensures !f.NullStream?
    ensures f.Stream? <==> download.Downloaded?
    ensures f.Stream? ==> f.content == download.content
    ensures download.IoFailure? ==>
              f.Raised? && f.cause.IsException() && f.cause.className == RuntimeExceptionClass
              && f.cause.message == Some(ToString(download.cause))
    ensures download.Unchecked? ==> f == Raised(download.cause)
  {
    match download
    case Downloaded(content) => Stream(content)
    case IoFailure(cause) => Raised(WrapInRuntimeException(cause))
    case Unchecked(cause) => Raised(cause)
  }

  /** The capabilities the handler calls: fetching a URL, converting bytes, encoding text as UTF-8. */
  datatype Env = Env(
    fetch: string -> Fetched,
    convert: (Config, seq<byte>) -> Conversion,
    encode: string -> seq<byte>)

  /** The environment in which fetching is done by `getCurrentRtf` over a downloader. */
  function WithDownloader(
    download: string -> Download,
    convert: (Config, seq<byte>) -> Conversion,
    encode: string -> seq<byte>): Env
  {
    Env(url => GetCurrentRtf(download(url)), convert, encode)
  }

  // ---------------------------------------------------------------------------
  // Responses
  // ---------------------------------------------------------------------------

  /** A response body: text through `getWriter`, or bytes through `getOutputStream`. */
  datatype Body = Written(text: string) | Streamed(bytes: seq<byte>)

  /** The one call of the engine: the configuration it was given and the bytes it read. */
  datatype ConvertCall = ConvertCall(config: Config, input: seq<byte>)

  /** A side effect of handling a request, in the order it happens. */
  datatype Event = Logged(line: string) | FetchAttempted(url: string) | ConversionInvoked(call: ConvertCall)

  /** The status set (`None`: never set, so the runtime's default 200 applies) and the body. */
  datatype Response = Response(status: Option<int>, body: Body)

  /** The handler either answers or lets a throwable escape to the runtime; either way, after its effects. */
  datatype Outcome =
    | Responded(response: Response, trace: seq<Event>)
    | Escaped(exception: Throwable, trace: seq<Event>)

  /** The answer to a missing or disallowed `url`. */
  const Rejection: Response := Response(Some(400), Written(UsagePage))

  /** What `getFirst()` throws on an empty list. */
  const NoSuchElement: Throwable := Throwable(ExceptionKind, NoSuchElementClass, None)

  // ---------------------------------------------------------------------------
  // The request as the contracts read it
  // ---------------------------------------------------------------------------

  /** The `url` parameter: absent, bound to an empty list, or its first value. */
  datatype UrlParam = Missing | NoValue | First(url: string)

  function UrlParamOf(query: Option<Query>): UrlParam
  {
    if query.None? || "url" !in query.value then Missing
    else if |query.value["url"]| == 0 then NoValue
    else First(query.value["url"][0])
  }

  /** The request names a URL under the allow-listed prefix. */
  predicate Approved(query: Option<Query>)
  {
    UrlParamOf(query).First? && StartsWith(UrlParamOf(query).url, UrlPrefix)
  }

  /** What an approved request's fetch yields. */
  function FetchOf(query: Option<Query>, env: Env): Fetched
    requires Approved(query)
  {
    env.fetch(UrlParamOf(query).url)
  }

  /** The throwable, if any, raised inside the handler's `try` block. */
  function Thrown(url: string, env: Env): Option<Throwable>
  {
    match env.fetch(url)
    case Raised(e) => Some(e)
    case NullStream => None
    case Stream(content) =>
      match env.convert(CreateScrooge(), content)
      case ConversionFailure(e) => Some(e)
      case Html(_) => None
  }

  /** The effects of an approved request: log, fetch, and the engine call when there are bytes to convert. */
  function EffectsOf(url: string, fetched: Fetched): seq<Event>
  {
    [Logged(LogLine(url)), FetchAttempted(url)]
    + (if fetched.Stream? then [ConversionInvoked(ConvertCall(CreateScrooge(), fetched.content))] else [])
  }

  // ---------------------------------------------------------------------------
  // The handler
  // ---------------------------------------------------------------------------

  /** The `catch (Exception e)` block: an exception becomes the error page, anything else escapes. */
  function CatchException(e: Throwable, trace: seq<Event>): (o: Outcome)
    ensures o.trace == trace
    ensures o.Escaped? <==> !e.IsException()
    ensures o.Escaped? ==> o.exception == e
    ensures o.Responded? ==> o.response == Response(Some(500), Written(ErrorPage(MessageText(e))))
    ensures o.Responded? ==> o.response.body != Written(UsagePage)
  {
    if e.IsException() then
      ErrorPageIsNotUsagePage(MessageText(e));
      Responded(Response(Some(500), Written(ErrorPage(MessageText(e)))), trace)
    else
      Escaped(e, trace)
  }

  /**
   The `try` block and its handler, for a URL that passed the prefix check:
   log, fetch, convert, and answer.
   */
  function ProcessApproved(url: string, env: Env): (o: Outcome)
    ensures env.fetch(url).Stream? ==>
              o.trace == [Logged(LogLine(url)), FetchAttempted(url),
                          ConversionInvoked(ConvertCall(CreateScrooge(), env.fetch(url).content))]
    ensures !env.fetch(url).Stream? ==> o.trace == [Logged(LogLine(url)), FetchAttempted(url)]
    ensures o.Escaped? <==> Thrown(url, env).Some? && !Thrown(url, env).value.IsException()
    ensures o.Escaped? ==> o.exception == Thrown(url, env).value
    ensures Thrown(url, env).Some? && Thrown(url, env).value.IsException() ==>
              o.Responded? && o.response == Response(Some(500), Written(ErrorPage(MessageText(Thrown(url, env).value))))
    ensures o.Responded? && o.response == Response(Some(500), Written(UsagePage)) <==> env.fetch(url).NullStream?
    ensures o.Responded? ==> o.response.status != Some(400)
    ensures o.Responded? && o.response.status.None? <==> env.fetch(url).Stream? && Thrown(url, env).None?
    ensures o.Responded? && o.response.status.None? ==>
              var conversion := env.convert(CreateScrooge(), env.fetch(url).content);
              conversion.Html? && o.response.body == Streamed(env.encode(conversion.text))
    ensures o.Responded? ==> (o.response.body.Streamed? <==> o.response.status.None?)
  {
    var trace := EffectsOf(url, env.fetch(url));
    match env.fetch(url)
    case Raised(e) => CatchException(e, trace)
    case NullStream => Responded(Response(Some(500), Written(UsagePage)), trace)
    case Stream(content) =>
      match env.convert(CreateScrooge(), content)
      case ConversionFailure(e) => CatchException(e, trace)
      case Html(html) => Responded(Response(None, Streamed(env.encode(html))), trace)
  }

  /** `service`: one request, one outcome. */
  function Service(query: Option<Query>, env: Env): (o: Outcome)
    // A missing or disallowed url: 400 and the usage page, with no log and no fetch.
    ensures !Approved(query) && !UrlParamOf(query).NoValue? ==> o == Responded(Rejection, [])
    ensures o.Responded? ==> (o.response.status == Some(400) <==> !Approved(query))
    // An empty value list throws before anything else happens.
    ensures UrlParamOf(query).NoValue? ==> o == Escaped(NoSuchElement, [])
    // An approved url is logged once, then fetched verbatim; the engine runs iff there are bytes,
    // on exactly those bytes and with the fixed configuration.
    ensures Approved(query) ==>
              var url := UrlParamOf(query).url;
              && |o.trace| >= 2 && o.trace[..2] == [Logged(LogLine(url)), FetchAttempted(url)]
              && (FetchOf(query, env).Stream? ==>
                    o.trace == [Logged(LogLine(url)), FetchAttempted(url),
                                ConversionInvoked(ConvertCall(CreateScrooge(), FetchOf(query, env).content))])
              && (!FetchOf(query, env).Stream? ==> o.trace == [Logged(LogLine(url)), FetchAttempted(url)])
    // Only an empty value list or an Error from fetch or conversion escapes.
    ensures o.Escaped? <==>
              || UrlParamOf(query).NoValue?
              || (Approved(query) && Thrown(UrlParamOf(query).url, env).Some?
                  && !Thrown(UrlParamOf(query).url, env).value.IsException())
    ensures Approved(query) && Thrown(UrlParamOf(query).url, env).Some? ==>
              var e := Thrown(UrlParamOf(query).url, env).value;
              && (!e.IsException() ==> o.Escaped? && o.exception == e)
              && (e.IsException() ==>
                    o.Responded? && o.response == Response(Some(500), Written(ErrorPage(MessageText(e)))))
    // A null stream: 500 and the usage page, and no conversion.
    ensures o.Responded? && o.response == Response(Some(500), Written(UsagePage)) <==>
              Approved(query) && FetchOf(query, env).NullStream?
    // Success leaves the status unset and streams exactly the encoded conversion.
    ensures o.Responded? && o.response.status.None? <==>
              Approved(query) && FetchOf(query, env).Stream? && Thrown(UrlParamOf(query).url, env).None?
    ensures o.Responded? && o.response.status.None? ==>
              var conversion := env.convert(CreateScrooge(), FetchOf(query, env).content);
              conversion.Html? && o.response.body == Streamed(env.encode(conversion.text))
    ensures o.Responded? ==> (o.response.body.Streamed? <==> o.response.status.None?)
  {
    if query.None? || "url" !in query.value then
      Responded(Rejection, [])
    else
      var qp := query.value["url"];
      if |qp| == 0 then
        Escaped(NoSuchElement, [])
      else
        var url := qp[0];
        if StartsWith(url, UrlPrefix) then
          ProcessApproved(url, env)
        else
          Responded(Rejection, [])
  }
}
