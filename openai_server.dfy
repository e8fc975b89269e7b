/**
  The single-provider chat server: `/api/chat` forwards the message to OpenAI and sends
  back the generated text unchanged, or, when the call fails, one of four fixed error
  replies chosen by the error's HTTP status, always with status 500. The call's result is
  an `Outcome` parameter: an SDK error with a status is `HttpNotOk`, any other exception
  is `Threw`.
 */
module OpenAiServer {
  import opened Options
  import opened Providers

  const RateLimited := "Rate limit exceeded. " + "Please try again in a moment."
  const AuthFailed := "API authentication error. " + "Please check your OpenAI API key."
  const Forbidden := "Permission denied. " + "Please check your API key permissions."
  const UnknownPrefix := "Error: "
  const NoDetail := "AI could not respond."

  /** What the handler sends: `res.status(...).json({ reply })`. */
  datatype ChatResponse = ChatResponse(status: int, reply: string)

  /** `error.status`: present on errors the SDK raised for an HTTP answer, undefined on the others. */
  function StatusOf(failure: Outcome): Option<int> {
    match failure
    case HttpNotOk(status, _) => Some(status)
    case _ => None
  }

  /** `error.message`. */
  function MessageOf(failure: Outcome): string {
    match failure
    case HttpNotOk(_, detail) => detail
    case Threw(message) => message
    case Ok(_) => ""
  }

  /**
    The reply text of the catch block. Each of the three known statuses has its own text,
    which no other error produces; every other error reports its own message after
    "Error: ", or a stock text when that message is empty.
   */
  function ErrorText(status: Option<int>, message: string): (text: string)
    ensures text == RateLimited <==> status == Some(429)
    ensures text == AuthFailed <==> status == Some(401)
    ensures text == Forbidden <==> status == Some(403)
    ensures status != Some(429) && status != Some(401) && status != Some(403) ==>
      && |text| >= |UnknownPrefix|
      && text[..|UnknownPrefix|] == UnknownPrefix
      && text[|UnknownPrefix|..] == (if message == "" then NoDetail else message)
  {
    assert RateLimited[0] == 'R' && AuthFailed[0] == 'A' && Forbidden[0] == 'P';
    if status == Some(429) then RateLimited
    else if status == Some(401) then AuthFailed
    else if status == Some(403) then Forbidden
    else
      var text := UnknownPrefix + (if message == "" then NoDetail else message);
      assert text[0] == 'E' && text[..|UnknownPrefix|] == UnknownPrefix;
      text
  }

  /** The `/api/chat` handler: the content unchanged on success, the mapped error text with 500 otherwise. */
  function Chat(outcome: Outcome): (r: ChatResponse)
    ensures r.status == 200 <==> outcome.Ok?
    ensures !outcome.Ok? ==> r.status == 500 && |r.reply| > 0
    ensures outcome.Ok? ==> r.reply == outcome.content
  {
    match outcome
    case Ok(content) => ChatResponse(200, content)
    case _ => ChatResponse(500, ErrorText(StatusOf(outcome), MessageOf(outcome)))
  }

  /** A rate-limit, authentication or permission error is reported the same way whatever its message says. */
  lemma KnownStatusIgnoresMessage(status: int, detail1: string, detail2: string)
    requires status == 429 || status == 401 || status == 403
    ensures Chat(HttpNotOk(status, detail1)) == Chat(HttpNotOk(status, detail2))
  {
  }

  /** A failure without a known status passes its message through; an empty message gets the stock text. */
  lemma UnknownFailureReportsMessage(failure: Outcome)
    requires !failure.Ok?
    requires StatusOf(failure) != Some(429) && StatusOf(failure) != Some(401) && StatusOf(failure) != Some(403)
    ensures Chat(failure).reply == UnknownPrefix + (if MessageOf(failure) == "" then NoDetail else MessageOf(failure))
  {
    var text := Chat(failure).reply;
    assert text == text[..|UnknownPrefix|] + text[|UnknownPrefix|..];
  }

  /** A network error that happens to carry the rate-limit text is still reported as an unknown error. */
  lemma ThrownErrorIsNeverRateLimit(message: string)
    ensures Chat(Threw(message)).reply != RateLimited
  {
  }

}
