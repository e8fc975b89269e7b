/**
  The multi-provider chat server: `/api/chat` answers through `tryAIProviders`, which tries
  OpenAI (only when the client was created at start-up, that is when its key is set), then
  Groq, then Hugging Face, and finally the local generator `generateSmartResponse` behind
  its own badge. Each provider's answer is an `Outcome` parameter.
 */
module MultiAiServer {
  import opened Options
  import opened Text
  import opened Rules
  import opened Providers

  const FunctionsIntro := "Great question! JavaScript functions are reusable blocks of code. Here's how they work:"
  const ProgrammingBefore := "I can help you with programming! You mentioned: \""
  const ProgrammingAfter := "\". "
  const DefaultBefore := "Hello! I'm MindSpark AI. You said: \""
  const DefaultAfter :=
    "\". I'm here to help with programming and web development. What would you like to learn?"

  /** "function" and "javascript" */
  const FunctionsTest := Both(Has("function"), Has("javascript"))
  /** "code", "program" or "javascript" */
  const ProgrammingTest := Either(Has("code"), Either(Has("program"), Has("javascript")))

  const Generator := Table(
    [ Rule(FunctionsTest, Single(Fixed(FunctionsIntro))),
      Rule(ProgrammingTest, Single(Echo(ProgrammingBefore, ProgrammingAfter))) ],
    Single(Echo(DefaultBefore, DefaultAfter)))

  /** `generateSmartResponse(message)`: total, and never empty. */
  function GenerateSmartResponse(message: string): (reply: string)
    ensures |reply| > 0
  {
    assert WellFormed(Generator);
    Respond(Generator, message, 0.0)
  }

  /** The if/return chain of `generateSmartResponse` as written, on the lowered message. */
  function IfChain(message: string): string {
    var m := Lower(message);
    if Holds(FunctionsTest, m) then FunctionsIntro
    else if Holds(ProgrammingTest, m) then ProgrammingBefore + message + ProgrammingAfter
    else DefaultBefore + message + DefaultAfter
  }

  /** The rule table answers every message exactly as the if/return chain does. */
  lemma Precedence(message: string)
    ensures GenerateSmartResponse(message) == IfChain(message)
  {
    var m := Lower(message);
    if Holds(FunctionsTest, m) {
      RuleWins(Generator, message, 0);
    } else if Holds(ProgrammingTest, m) {
      RuleWins(Generator, message, 1);
    } else {
      DefaultWhenNoRule(Generator, message);
    }
  }

  /** Every reply but the functions introduction repeats the message verbatim. */
  lemma EchoesUnlessFunctions(message: string)
    requires !Holds(FunctionsTest, Lower(message))
    ensures Contains(GenerateSmartResponse(message), message)
  {
    Precedence(message);
    if Holds(ProgrammingTest, Lower(message)) {
      ContainsInfix(ProgrammingBefore, message, ProgrammingAfter);
    } else {
      ContainsInfix(DefaultBefore, message, DefaultAfter);
    }
  }

  /** "javascript" without "function" is programming help, in any letter case. */
  lemma JavascriptAloneIsProgramming(message: string)
    requires Contains(Lower(message), "javascript") && !Contains(Lower(message), "function")
    ensures GenerateSmartResponse(message) == ProgrammingBefore + message + ProgrammingAfter
  {
    var m := Lower(message);
    assert Holds(Either(Has("program"), Has("javascript")), m);
    assert !Holds(FunctionsTest, m);
    Precedence(message);
  }

  const OpenAIBadge := "🤖 **[OpenAI GPT-4]** "
  const GroqBadge := "🚀 **[Groq Llama3]** "
  const HuggingFaceBadge := "🤗 **[Hugging Face]** "
  const LocalBadge := "🧠 **[Smart Local AI]** "

  /** `tryGroq(message)`: null without a key, on a non-ok status and on a thrown error. */
  function TryGroq(groqKey: Option<string>, groq: Outcome): (r: Option<string>)
    ensures r.Some? <==> Enabled(groqKey) && groq.Ok?
    ensures r.Some? ==> r.value == GroqBadge + groq.content
  {
    TryProvider(groqKey, groq, GroqBadge)
  }

  /** `tryHuggingFace(message)`: null without a key, on a non-ok status and on a thrown error. */
  function TryHuggingFace(hfKey: Option<string>, hf: Outcome): (r: Option<string>)
    ensures r.Some? <==> Enabled(hfKey) && hf.Ok?
    ensures r.Some? ==> r.value == HuggingFaceBadge + hf.content
  {
    TryProvider(hfKey, hf, HuggingFaceBadge)
  }

  /** The credentials and what each provider's call would come back with. */
  datatype Upstream = Upstream(
    openaiKey: Option<string>, openai: Outcome,
    groqKey: Option<string>, groq: Outcome,
    hfKey: Option<string>, hf: Outcome)

  /**
    `tryAIProviders(message)`: OpenAI's answer is returned as soon as it arrives (every
    failure, a 429 included, is caught and falls through); Groq's and Hugging Face's
    answers are returned when truthy; otherwise the badged local reply.
   */
  function TryAIProviders(message: string, up: Upstream): (reply: string)
    ensures |reply| > 0
  {
    var fromOpenAI := TryProvider(up.openaiKey, up.openai, OpenAIBadge);
    if fromOpenAI.Some? then fromOpenAI.value
    else
      var groqResponse := TryGroq(up.groqKey, up.groq);
      if Truthy(groqResponse) then groqResponse.value
      else
        var hfResponse := TryHuggingFace(up.hfKey, up.hf);
        if Truthy(hfResponse) then hfResponse.value
        else LocalBadge + GenerateSmartResponse(message)
  }

  /** The three providers as fallback stages, in the order they are tried. */
  function Stages(up: Upstream): (stages: seq<Stage>)
    ensures DistinctProviders(stages)
  {
    [ Stage(OpenAI, up.openaiKey, up.openai, OpenAIBadge),
      Stage(Groq, up.groqKey, up.groq, GroqBadge),
      Stage(HuggingFace, up.hfKey, up.hf, HuggingFaceBadge) ]
  }

  /** `tryAIProviders` is the three-stage fallback chain ending in the badged local reply. */
  lemma TryAIProvidersIsChain(message: string, up: Upstream)
    ensures TryAIProviders(message, up) == Chain(Stages(up), LocalBadge + GenerateSmartResponse(message)).reply
  {
    var stages := Stages(up);
    var local := LocalBadge + GenerateSmartResponse(message);
    BadgedSuccessIsTruthy(up.groqKey, up.groq, GroqBadge);
    BadgedSuccessIsTruthy(up.hfKey, up.hf, HuggingFaceBadge);
    assert stages[1..][1..][1..] == [];
    assert Chain(stages[1..][1..][1..], local).reply == local;
  }

  /** The `/api/chat` reply. */
  function Chat(message: string, up: Upstream): (reply: string)
    ensures |reply| > 0
    ensures reply == Chain(Stages(up), LocalBadge + GenerateSmartResponse(message)).reply
  {
    TryAIProvidersIsChain(message, up);
    TryAIProviders(message, up)
  }

  /** No provider is called twice for one message (the SDK's own retries aside). */
  lemma NoProviderCalledTwice(message: string, up: Upstream)
    ensures NoDuplicates(Chain(Stages(up), LocalBadge + GenerateSmartResponse(message)).called)
  {
    ChainNoRetry(Stages(up), LocalBadge + GenerateSmartResponse(message));
  }

  /** When OpenAI answers, neither Groq nor Hugging Face is called. */
  lemma OpenAISuccessCallsNoOther(message: string, up: Upstream)
    requires Enabled(up.openaiKey) && up.openai.Ok?
    ensures var called := Chain(Stages(up), LocalBadge + GenerateSmartResponse(message)).called;
      Groq !in called && HuggingFace !in called
  {
    var stages := Stages(up);
    var local := LocalBadge + GenerateSmartResponse(message);
    assert FirstSuccess(stages) == Some(0);
    ChainStopsAtFirstSuccess(stages, local, 1);
    ChainStopsAtFirstSuccess(stages, local, 2);
  }

  /** An OpenAI quota error (429), like any other OpenAI failure, leaves the reply that of the remaining chain. */
  lemma QuotaExceededFallsThrough(message: string, up: Upstream, detail: string)
    requires up.openai == HttpNotOk(429, detail)
    ensures TryAIProviders(message, up) == TryAIProviders(message, up.(openaiKey := None))
  {
  }

  /** With no credential at all, the local reply is sent with its badge and nothing is called. */
  lemma NoKeysMeansLocal(message: string, up: Upstream)
    requires !Enabled(up.openaiKey) && !Enabled(up.groqKey) && !Enabled(up.hfKey)
    ensures var r := Chain(Stages(up), LocalBadge + GenerateSmartResponse(message));
      r.reply == LocalBadge + GenerateSmartResponse(message) && r.called == []
  {
    var stages := Stages(up);
    assert stages[1..][1..][1..] == [];
  }

}
