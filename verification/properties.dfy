/** Properties of the handler that relate several requests or several pieces of the model. */
module HelloWorldProperties {
  import opened Wrappers
  import opened JavaLang
  import opened Scrooge
  import opened HelloWorld

  /** Reading the error page back gives exactly the message it was built from. */
  lemma ErrorDetailRoundTrip(detail: string)
    ensures ErrorDetail(ErrorPage(detail)) == Some(detail)
  {
    var page := ErrorPage(detail);
    assert page[|ErrorHead|..|page| - |ErrorTail|] == detail;
  }

  /** The usage page is not an error page. */
  lemma UsagePageCarriesNoError()
    ensures ErrorDetail(UsagePage) == None
  {
    if ErrorDetail(UsagePage).Some? {
      ErrorPageIsNotUsagePage(ErrorDetail(UsagePage).value);
    }
  }

  /** The usage page is a whole page with its heading, and shows the example URL after `?url=`. */
  lemma UsagePageLayout()
    ensures IsWholePage(UsagePage)
    ensures UsagePage[|PageOpen|..|PageOpen| + |"<h1>RTF to HTML Converter</h1>"|] == "<h1>RTF to HTML Converter</h1>"
    ensures UsagePage[|UsageHead| - |"?url="|..|UsageHead|] == "?url="
    ensures UsagePage[|UsageHead|..|UsageHead| + |ExampleUrl|] == ExampleUrl
  {
    MiddleSlice(UsageHead, ExampleUrl, UsageTail);
    assert UsagePage[..|PageOpen|] == UsageHead[..|PageOpen|];
    assert UsagePage[|UsagePage| - |PageClose|..] == UsageTail[|UsageTail| - |PageClose|..];
  }

  /** The error page states the fixed phrase followed by the message, verbatim. */
  lemma ErrorPageQuotesMessage(detail: string)
    ensures ErrorPage(detail)[|ErrorOpening|..|ErrorOpening| + |FailurePhrase| + |detail|] == FailurePhrase + detail
  {
    assert ErrorPage(detail) == ErrorOpening + (FailurePhrase + detail) + ErrorTail;
    MiddleSlice(ErrorOpening, FailurePhrase + detail, ErrorTail);
  }

  lemma MiddleSlice<T>(a: seq<T>, b: seq<T>, c: seq<T>)
    ensures (a + b + c)[|a|..|a| + |b|] == b
  {
  }

  /** The logged line is recoverable: different URLs give different lines. */
  lemma LogLineIdentifiesUrl(u1: string, u2: string)
    requires LogLine(u1) == LogLine(u2)
    ensures u1 == u2
  {
  }

  /** Only the first `url` value decides: requests that agree on it get the same outcome. */
  lemma OnlyFirstUrlMatters(q1: Option<Query>, q2: Option<Query>, env: Env)
    requires UrlParamOf(q1) == UrlParamOf(q2)
    ensures Service(q1, env) == Service(q2, env)
  {
  }

  /** Replacing every `url` value after the first, or any other parameter, changes nothing. */
  lemma LaterUrlValuesIgnored(q: Query, others: Query, url: string, rest1: seq<string>, rest2: seq<string>, env: Env)
    ensures Service(Some(others["url" := [url] + rest1]), env) == Service(Some(q["url" := [url] + rest2]), env)
  {
    OnlyFirstUrlMatters(Some(others["url" := [url] + rest1]), Some(q["url" := [url] + rest2]), env);
  }

  /** Every path under the prefix is logged and then fetched, whatever follows the prefix. */
  lemma AnyPathUnderPrefixIsFetched(rest: string, env: Env)
    ensures var url := UrlPrefix + rest;
            Service(Some(map["url" := [url]]), env).trace[..2] == [Logged(LogLine(url)), FetchAttempted(url)]
  {
    assert (UrlPrefix + rest)[..|UrlPrefix|] == UrlPrefix;
  }

  /** A URL outside the prefix is rejected with the usage page, never logged and never fetched. */
  lemma OtherOriginIsRejected(url: string, env: Env)
    requires |url| < |UrlPrefix| || url[..|UrlPrefix|] != UrlPrefix
    ensures Service(Some(map["url" := [url]]), env) == Responded(Rejection, [])
  {
  }

  /** The example the usage page suggests is itself accepted and fetched. */
  lemma UsageExampleIsAccepted(env: Env)
    ensures Approved(Some(map["url" := [ExampleUrl]]))
    ensures FetchAttempted(ExampleUrl) in Service(Some(map["url" := [ExampleUrl]]), env).trace
  {
    assert ExampleUrl[..|UrlPrefix|] == UrlPrefix;
    var o := Service(Some(map["url" := [ExampleUrl]]), env);
    assert o.trace[1] == FetchAttempted(ExampleUrl);
  }

  /** Whatever the request and the environment, the engine always receives the same configuration. */
  lemma ConfigIsRequestIndependent(q1: Option<Query>, env1: Env, c1: ConvertCall, q2: Option<Query>, env2: Env, c2: ConvertCall)
    requires ConversionInvoked(c1) in Service(q1, env1).trace
    requires ConversionInvoked(c2) in Service(q2, env2).trace
    ensures c1.config == c2.config == CreateScrooge()
  {
  }

  /**
   With the real `getCurrentRtf`, a failed download of an accepted URL shows the
   error page, 500, whose message names the cause's class and repeats its
   message; the engine is not invoked.
   */
  lemma DownloadFailureShowsErrorPage(
    url: string, download: string -> Download,
    convert: (Config, seq<byte>) -> Conversion, encode: string -> seq<byte>)
    requires StartsWith(url, UrlPrefix)
    requires download(url).IoFailure?
    ensures var o := Service(Some(map["url" := [url]]), WithDownloader(download, convert, encode));
            var cause := download(url).cause;
            && o.Responded?
            && o.response == Response(Some(500), Written(ErrorPage(ToString(cause))))
            && o.trace == [Logged(LogLine(url)), FetchAttempted(url)]
            && ErrorDetail(o.response.body.text).Some?
            && StartsWith(ErrorDetail(o.response.body.text).value, cause.className)
            && (cause.message.Some? ==>
                  var d := ErrorDetail(o.response.body.text).value;
                  |cause.message.value| <= |d| && d[|d| - |cause.message.value|..] == cause.message.value)
  {
    var env := WithDownloader(download, convert, encode);
    assert env.fetch(url) == GetCurrentRtf(download(url));
    var cause := download(url).cause;
    WrappedMessageNamesCause(cause);
    ErrorDetailRoundTrip(ToString(cause));
  }

  /** With the real `getCurrentRtf`, no request is answered with 500 and the usage page. */
  lemma NullStreamUnreachable(
    query: Option<Query>, download: string -> Download,
    convert: (Config, seq<byte>) -> Conversion, encode: string -> seq<byte>)
    ensures var o := Service(query, WithDownloader(download, convert, encode));
            !(o.Responded? && o.response == Response(Some(500), Written(UsagePage)))
  {
    var env := WithDownloader(download, convert, encode);
    if Approved(query) {
      var url := UrlParamOf(query).url;
      assert env.fetch(url) == GetCurrentRtf(download(url));
    }
  }

  /** An `Error` thrown by the engine is not caught: it escapes after the engine call. */
  lemma EngineErrorEscapes(url: string, env: Env, content: seq<byte>, e: Throwable)
    requires StartsWith(url, UrlPrefix)
    requires env.fetch(url) == Stream(content)
    requires env.convert(CreateScrooge(), content) == ConversionFailure(e) && !e.IsException()
    ensures Service(Some(map["url" := [url]]), env)
         == Escaped(e, [Logged(LogLine(url)), FetchAttempted(url), ConversionInvoked(ConvertCall(CreateScrooge(), content))])
  {
  }
}
