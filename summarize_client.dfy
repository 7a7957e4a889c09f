/** The browser-side summarize call of lib/hooks/use-summarize.ts: it posts `{text}` to the
    summarize endpoint and turns the reply into the summary string or an exception with a
    message chosen by a fixed precedence. The HTTP client's behaviour is an input. */
module SummarizeClient {
  import opened Wrappers
  import opened Text
  import SummarizeRoute

  const ApiPath := "/api/summarize"
  const NoSummary := "No summary was generated"
  const ClientFallback := "Failed to generate summary"

  /** The request the mutation sends: a POST of `{text}` to `ApiPath`. */
  datatype ApiRequest = ApiRequest(path: string, text: string)

  /** How the HTTP client settles: it resolves with the body's `summary` member (possibly
      missing), or rejects with the `error` member of the response body, when there is a
      response carrying one, and its own message. */
  datatype Reply = Resolved(summary: Option<string>) | Rejected(responseError: Option<string>, message: string)

  function Request(text: string): ApiRequest {
    ApiRequest(ApiPath, text)
  }

  /** The request body the endpoint parses from the request: `text` is the string sent. */
  function BodyOf(r: ApiRequest): SummarizeRoute.RequestBody {
    SummarizeRoute.Parsed(SummarizeRoute.Str(r.text))
  }

  /** `error.response?.data?.error || error.message || "Failed to generate summary"`. */
  function RethrownMessage(responseError: Option<string>, message: string): (m: string)
    ensures m != ""
    ensures responseError.Some? && Truthy(responseError.value) ==> m == responseError.value
    ensures (responseError.None? || !Truthy(responseError.value)) && Truthy(message) ==> m == message
    ensures (responseError.None? || !Truthy(responseError.value)) && !Truthy(message) ==> m == ClientFallback
  {
    if responseError.Some? && Truthy(responseError.value) then responseError.value
    else if Truthy(message) then message
    else ClientFallback
  }

  /** The `mutationFn`: resolves with a truthy summary; every other outcome rejects. A missing
      or empty summary throws inside the `try`; that error has no `response`, so the rethrown
      message is its own. */
  function Resolve(reply: Reply): (r: Result<string, string>)
    ensures r.Ok? <==> reply.Resolved? && reply.summary.Some? && Truthy(reply.summary.value)
    ensures r.Ok? ==> r.value == reply.summary.value
    ensures r.Err? ==> r.error != ""
    ensures reply.Resolved? && r.Err? ==> r.error == NoSummary
    ensures reply.Rejected? ==> r == Err(RethrownMessage(reply.responseError, reply.message))
  {
    match reply
    case Resolved(summary) =>
      if summary.Some? && Truthy(summary.value) then Ok(summary.value)
      else Err(RethrownMessage(None, NoSummary))
    case Rejected(responseError, message) => Err(RethrownMessage(responseError, message))
  }

  /** The HTTP client's settling on a response of the endpoint: a 2xx status resolves with the
      body; any other status rejects with the body attached and the client's own `message`. */
  function Deliver(resp: SummarizeRoute.Response, message: string): (reply: Reply)
    ensures 200 <= resp.status < 300 && resp.body.SummaryBody? ==> reply == Resolved(resp.body.summary)
    ensures !(200 <= resp.status < 300) && resp.body.ErrorBody? ==>
              reply == Rejected(Some(resp.body.error), message)
  {
    if 200 <= resp.status < 300 then
      Resolved(if resp.body.SummaryBody? then resp.body.summary else None)
    else
      Rejected(if resp.body.ErrorBody? then Some(resp.body.error) else None, message)
  }

  /** End to end: the summary reaches the caller exactly when the endpoint answered with a
      non-empty one (in particular the non-empty `summaryText` the service put at the reply
      path), and every error message of the endpoint reaches the caller verbatim,
      whatever the HTTP client's own message. */
  lemma ErrorsReachCaller(text: string, upstream: SummarizeRoute.Upstream, message: string,
                          summaryText: string)
    ensures var resp := SummarizeRoute.Post(BodyOf(Request(text)), upstream).response;
            var r := Resolve(Deliver(resp, message));
            && (r.Ok? <==> resp.status == 200 && resp.body.summary.Some? && resp.body.summary.value != "")
            && (r.Ok? ==> r.value == resp.body.summary.value)
            && ((!IsBlank(text) && upstream.Replied? && summaryText != "" &&
                 SummarizeRoute.ExtractSummary(upstream.candidates) == Ok(Some(summaryText)))
                ==> r == Ok(summaryText))
            && (resp.body.ErrorBody? ==> r == Err(resp.body.error))
            && (IsBlank(text) ==> r == Err(SummarizeRoute.TextRequired))
  {
    var resp := SummarizeRoute.Post(BodyOf(Request(text)), upstream).response;
    if IsBlank(text) {
      assert SummarizeRoute.TextMissing(SummarizeRoute.Str(text));
    }
  }
}
