/**
 The handler described stage by stage, each stage returning an explicit
 result instead of throwing: the validator yields a source URL or a reason
 for rejection, fetching and conversion yield a document or a failure, and
 the renderer maps each terminal stage to its response. `ServiceIsPipeline`
 shows that this staged reading and the handler's nested branches agree on
 every request.
 */
module Pipeline {
  import opened Wrappers
  import opened JavaLang
  import opened Scrooge
  import opened HelloWorld

  /** The validator's verdict on a request. */
  datatype Validation =
    | MissingParameter
    | EmptyParameter
    | DisallowedOrigin(rejected: string)
    | SourceUrl(url: string)

  function Validate(query: Option<Query>): (v: Validation)
    ensures v.SourceUrl? <==> Approved(query)
    ensures v.SourceUrl? ==> StartsWith(v.url, UrlPrefix) && v.url == UrlParamOf(query).url
    ensures v.MissingParameter? <==> query.None? || "url" !in query.value
    ensures v.EmptyParameter? <==> query.Some? && "url" in query.value && |query.value["url"]| == 0
    ensures v.DisallowedOrigin? <==> UrlParamOf(query).First? && !StartsWith(UrlParamOf(query).url, UrlPrefix)
    ensures v.DisallowedOrigin? ==>
              !StartsWith(v.rejected, UrlPrefix) && query.Some? && "url" in query.value
              && |query.value["url"]| > 0 && v.rejected == query.value["url"][0]
  {
    match UrlParamOf(query)
    case Missing => MissingParameter
    case NoValue => EmptyParameter
    case First(url) => if StartsWith(url, UrlPrefix) then SourceUrl(url) else DisallowedOrigin(url)
  }

  /** Where a request's processing ends. */
  datatype Stage =
    | Rejected
    | FirstValueMissing
    | FetchFailed(url: string, cause: Throwable)
    | NullDocument(url: string)
    | ConvertFailed(url: string, call: ConvertCall, cause: Throwable)
    | Converted(url: string, call: ConvertCall, html: string)

  /** Fetch, then convert with the fixed configuration, stopping at the first failure. */
  function Process(v: Validation, env: Env): Stage
  {
    match v
    case MissingParameter => Rejected
    case DisallowedOrigin(_) => Rejected
    case EmptyParameter => FirstValueMissing
    case SourceUrl(url) =>
      match env.fetch(url)
      case Raised(e) => FetchFailed(url, e)
      case NullStream => NullDocument(url)
      case Stream(content) =>
        var call := ConvertCall(CreateScrooge(), content);
        match env.convert(call.config, call.input)
        case ConversionFailure(e) => ConvertFailed(url, call, e)
        case Html(html) => Converted(url, call, html)
  }

  /** The terminal state machine: one response (or escaping throwable) per stage, after that stage's effects. */
  function Render(s: Stage, encode: string -> seq<byte>): Outcome
  {
    match s
    case Rejected => Responded(Rejection, [])
    case FirstValueMissing => Escaped(NoSuchElement, [])
    case FetchFailed(url, e) =>
      CatchException(e, [Logged(LogLine(url)), FetchAttempted(url)])
    case NullDocument(url) =>
      Responded(Response(Some(500), Written(UsagePage)), [Logged(LogLine(url)), FetchAttempted(url)])
    case ConvertFailed(url, call, e) =>
      CatchException(e, [Logged(LogLine(url)), FetchAttempted(url), ConversionInvoked(call)])
    case Converted(url, call, html) =>
      Responded(Response(None, Streamed(encode(html))), [Logged(LogLine(url)), FetchAttempted(url), ConversionInvoked(call)])
  }

  /** The handler is the composition validate, process, render. */
  lemma ServiceIsPipeline(query: Option<Query>, env: Env)
    ensures Service(query, env) == Render(Process(Validate(query), env), env.encode)
  {
  }
}
