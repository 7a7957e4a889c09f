/** The `POST /api/summarize` handler of app/api/summarize/route.ts: it validates the `text` of
    the request body, forwards a prompt to the generative-text service and turns the reply, or
    any exception, into a JSON response. The request body and the upstream reply are inputs. */
module SummarizeRoute {
  import opened Wrappers
  import opened Text

  const PromptPrefix := "Summarize the following text in a concise way (max 150 words): "
  const TextRequired := "Text content is required"
  const RouteFallback := "Failed to summarize text"

  /** The `text` member of the parsed body: missing (`undefined`), a string, or a JSON value of
      another type, which is truthy (a number other than 0, `true`, an object, an array) or not. */
  datatype TextField = Absent | Str(s: string) | Other(truthy: bool)

  /** The outcome of `await request.json()` and the destructuring of its result: it throws with a
      message, or yields the `text` member. */
  datatype RequestBody = Unreadable(message: string) | Parsed(text: TextField)

  /** The shape of the service's JSON reply that the handler walks down:
      `candidates[0].content.parts[0].text`; any level may be missing. */
  datatype Part = Part(text: Option<string>)
  datatype Content = Content(parts: Option<seq<Part>>)
  datatype Candidate = Candidate(content: Option<Content>)

  /** The upstream call: it rejects with the HTTP client's error message, or resolves with data. */
  datatype Upstream = Failed(message: string) | Replied(candidates: Option<seq<Candidate>>)

  /** The JSON response body. `{summary}` with a missing summary serialises as `{}`. */
  datatype Reply = SummaryBody(summary: Option<string>) | ErrorBody(error: string)
  datatype Response = Response(status: int, body: Reply)

  /** What one request produces: the response, and the prompt sent upstream if there was a call. */
  datatype Exchange = Exchange(response: Response, prompt: Option<string>)

  /** The message of the TypeError the JavaScript engine raises when the handler reads
      property `prop` of `undefined`. */
  function ReadOfUndefined(prop: string): (m: string)
    ensures m != ""
  {
    "Cannot read properties of undefined (reading '" + prop + "')"
  }

  /** The message of the TypeError raised by calling `text.trim()` on a non-string. */
  const TrimNotAFunction := "text.trim is not a function"

  /** `!text || text.trim().length === 0`, for the `text` values that do not throw. */
  predicate TextMissing(f: TextField) {
    match f
    case Absent => true
    case Str(s) => s == "" || IsBlank(s)
    case Other(truthy) => !truthy
  }

  /** `response.data.candidates[0].content.parts[0].text`: the text, or the message it throws. */
  function ExtractSummary(candidates: Option<seq<Candidate>>): (r: Result<Option<string>, string>)
    ensures r.Err? ==> r.error != ""
    ensures r.Ok? <==>
              candidates.Some? && |candidates.value| > 0 &&
              candidates.value[0].content.Some? &&
              candidates.value[0].content.value.parts.Some? &&
              |candidates.value[0].content.value.parts.value| > 0
    ensures r.Ok? ==> r.value == candidates.value[0].content.value.parts.value[0].text
  {
    if candidates.None? then Err(ReadOfUndefined("0"))
    else if |candidates.value| == 0 then Err(ReadOfUndefined("content"))
    else
      var c := candidates.value[0];
      if c.content.None? then Err(ReadOfUndefined("parts"))
      else if c.content.value.parts.None? then Err(ReadOfUndefined("0"))
      else if |c.content.value.parts.value| == 0 then Err(ReadOfUndefined("text"))
      else Ok(c.content.value.parts.value[0].text)
  }

  /** The `catch` block: status 500 with the exception's message, or the default when it is empty. */
  function Failure(message: string): (r: Response)
    ensures r.status == 500 && r.body.ErrorBody? && r.body.error != ""
    ensures message != "" ==> r.body.error == message
    ensures message == "" ==> r.body.error == RouteFallback
  {
    Response(500, ErrorBody(if message != "" then message else RouteFallback))
  }

  /** The prompt sent upstream for a validated text. */
  function Prompt(text: string): (p: string)
    ensures StartsWith(p, PromptPrefix) && p[|PromptPrefix|..] == text
  {
    PromptPrefix + text
  }

  /** `POST`. */
  function Post(body: RequestBody, upstream: Upstream): (x: Exchange)
    // Exactly one kind of body: a summary with 200, an error otherwise.
    ensures x.response.status in {200, 400, 500}
    ensures x.response.status == 200 <==> x.response.body.SummaryBody?
    ensures x.response.body.ErrorBody? ==> x.response.body.error != ""
    // Missing or blank text: 400 with the fixed message and no upstream call.
    ensures body.Parsed? && TextMissing(body.text) ==>
              x == Exchange(Response(400, ErrorBody(TextRequired)), None)
    ensures x.response.status == 400 ==> body.Parsed? && TextMissing(body.text)
    // The upstream call is made exactly for a present, non-blank string, with the fixed prefix.
    ensures x.prompt.Some? <==> body.Parsed? && body.text.Str? && !IsBlank(body.text.s)
    ensures x.prompt.Some? ==> x.prompt.value == Prompt(body.text.s)
    // A truthy non-string text makes `text.trim()` throw: 500 with that message, no upstream call.
    ensures body.Parsed? && body.text.Other? && body.text.truthy ==>
              x == Exchange(Failure(TrimNotAFunction), None)
    // Success carries the text found at the fixed path of the reply.
    ensures x.response.status == 200 ==>
              x.prompt.Some? && upstream.Replied? &&
              ExtractSummary(upstream.candidates) == Ok(x.response.body.summary)
    // A valid text and a reply with the whole path give 200 with the text found there.
    ensures body.Parsed? && body.text.Str? && !IsBlank(body.text.s) && upstream.Replied? &&
            ExtractSummary(upstream.candidates).Ok? ==>
              x.response == Response(200, SummaryBody(ExtractSummary(upstream.candidates).value))
  {
    match body
    case Unreadable(m) => Exchange(Failure(m), None)
    case Parsed(f) =>
      if TextMissing(f) then Exchange(Response(400, ErrorBody(TextRequired)), None)
      else if !f.Str? then Exchange(Failure(TrimNotAFunction), None)
      else
        var prompt := Prompt(f.s);
        match upstream
        case Failed(m) => Exchange(Failure(m), Some(prompt))
        case Replied(candidates) =>
          match ExtractSummary(candidates)
          case Err(m) => Exchange(Failure(m), Some(prompt))
          case Ok(summary) => Exchange(Response(200, SummaryBody(summary)), Some(prompt))
  }

  /** Every failure inside the `try` becomes a 500 that carries the failure's message: a body
      that cannot be read, a truthy non-string `text` on which `trim` is called, an upstream
      error, and a reply without the candidates/parts path. */
  lemma FailuresAreServerErrors(body: RequestBody, upstream: Upstream)
    ensures body.Unreadable? ==> Post(body, upstream).response == Failure(body.message)
    ensures body.Parsed? && body.text.Other? && body.text.truthy ==>
              Post(body, upstream) == Exchange(Failure(TrimNotAFunction), None)
    ensures body.Parsed? && body.text.Str? && !IsBlank(body.text.s) && upstream.Failed? ==>
              Post(body, upstream).response == Failure(upstream.message)
    ensures body.Parsed? && body.text.Str? && !IsBlank(body.text.s) && upstream.Replied? &&
            ExtractSummary(upstream.candidates).Err? ==>
              Post(body, upstream).response.status == 500 &&
              Post(body, upstream).response.body.error == ExtractSummary(upstream.candidates).error
  {
  }

  /** The outcome for a blank or missing text does not depend on the upstream service at all. */
  lemma RejectionIgnoresUpstream(body: RequestBody, u1: Upstream, u2: Upstream)
    requires body.Parsed? && TextMissing(body.text)
    ensures Post(body, u1) == Post(body, u2)
  {
  }

  /** The empty body `{}`, an empty string and a whitespace-only string are all rejected. */
  lemma BlankExamples(upstream: Upstream)
    ensures Post(Parsed(Absent), upstream).response == Response(400, ErrorBody(TextRequired))
    ensures Post(Parsed(Str("")), upstream).response.status == 400
    ensures Post(Parsed(Str(" \n\t")), upstream).response.status == 400
    ensures Post(Parsed(Str(" a ")), upstream).prompt == Some(PromptPrefix + " a ")
  {
    assert !IsWhitespace(" a "[1]);
  }
}
