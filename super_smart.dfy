/**
  The "super smart" chat server: `/api/chat` asks Groq first and falls back to the local
  generator `generateSuperSmartResponse`, whose rules are, in order, the DOM guide, the
  functions tutorial, the programming reply and the default reply. Guide texts are kept
  to their heading line; the echoing replies keep the text around the message on that line.
 */
module SuperSmartServer {
  import opened Options
  import opened Text
  import opened Rules
  import opened Providers

  const DomGuide := "🎯 **DOM Manipulation - Complete Expert Guide**"
  const FunctionsTutorial := "🚀 **JavaScript Functions - Master Class Tutorial**"
  const ProgrammingBefore := "💻 **Programming Expert at Your Service!**\n\nYou mentioned: \""
  const ProgrammingAfter := "\". I'm here to make you an amazing developer!"
  const DefaultBefore := "🧠 **Super Smart AI Ready for Action!**\n\nHey there! You said: \""
  const DefaultAfter := "\""

  /** "dom" and ("manipulation" or "javascript") */
  const DomTest := Both(Has("dom"), Either(Has("manipulation"), Has("javascript")))
  /** "function" and "javascript" */
  const FunctionsTest := Both(Has("function"), Has("javascript"))
  /** "code", "program", "javascript" or "help" */
  const ProgrammingTest := Either(Has("code"), Either(Has("program"), Either(Has("javascript"), Has("help"))))

  const Generator := Table(
    [ Rule(DomTest, Single(Fixed(DomGuide))),
      Rule(FunctionsTest, Single(Fixed(FunctionsTutorial))),
      Rule(ProgrammingTest, Single(Echo(ProgrammingBefore, ProgrammingAfter))) ],
    Single(Echo(DefaultBefore, DefaultAfter)))

  /** `generateSuperSmartResponse(message)`: total, and never empty. */
  function GenerateSuperSmartResponse(message: string): (reply: string)
    ensures |reply| > 0
  {
    assert WellFormed(Generator);
    Respond(Generator, message, 0.0)
  }

  const GroqBadge := "🚀 **[Groq Llama3 - Real AI]** "

  /** `tryGroqAI(message)`: null without a key, on a non-ok status and on any throw; the badged content otherwise. */
  function TryGroqAI(groqKey: Option<string>, groq: Outcome): (r: Option<string>)
    ensures r.Some? <==> Enabled(groqKey) && groq.Ok?
    ensures r.Some? ==> r.value == GroqBadge + groq.content
  {
    TryProvider(groqKey, groq, GroqBadge)
  }

  /** The `/api/chat` reply: Groq's badged answer when there is one, the local reply otherwise. */
  function Chat(message: string, groqKey: Option<string>, groq: Outcome): (reply: string)
    ensures Enabled(groqKey) && groq.Ok? ==> reply == GroqBadge + groq.content
    ensures !(Enabled(groqKey) && groq.Ok?) ==> reply == GenerateSuperSmartResponse(message)
    ensures |reply| > 0
  {
    var groqResponse := TryGroqAI(groqKey, groq);
    BadgedSuccessIsTruthy(groqKey, groq, GroqBadge);
    if Truthy(groqResponse) then groqResponse.value else GenerateSuperSmartResponse(message)
  }

  /** The handler is the one-stage fallback chain: Groq is called once if it has a key, and never otherwise. */
  lemma ChatIsChain(message: string, groqKey: Option<string>, groq: Outcome)
    ensures var chain := Chain([Stage(Groq, groqKey, groq, GroqBadge)], GenerateSuperSmartResponse(message));
      && Chat(message, groqKey, groq) == chain.reply
      && chain.called == (if Enabled(groqKey) then [Groq] else [])
  {
    var stages := [Stage(Groq, groqKey, groq, GroqBadge)];
    assert stages[1..] == [];
    assert stages[..1] == stages;
  }

  /**
    The if/return chain of `generateSuperSmartResponse` as written: matching is on the
    lowered message, and the programming and default replies paste in the message as typed.
   */
  function IfChain(message: string): string {
    var m := Lower(message);
    if Holds(DomTest, m) then DomGuide
    else if Holds(FunctionsTest, m) then FunctionsTutorial
    else if Holds(ProgrammingTest, m) then ProgrammingBefore + message + ProgrammingAfter
    else DefaultBefore + message + DefaultAfter
  }

  /** The rule table answers every message exactly as the if/return chain does: first test first. */
  lemma Precedence(message: string)
    ensures GenerateSuperSmartResponse(message) == IfChain(message)
  {
    var m := Lower(message);
    if Holds(DomTest, m) {
      RuleWins(Generator, message, 0);
    } else if Holds(FunctionsTest, m) {
      RuleWins(Generator, message, 1);
    } else if Holds(ProgrammingTest, m) {
      RuleWins(Generator, message, 2);
    } else {
      DefaultWhenNoRule(Generator, message);
    }
  }

  /** Whenever no guide applies, the reply contains the message verbatim. */
  lemma EchoesUnlessGuide(message: string)
    requires !Holds(DomTest, Lower(message)) && !Holds(FunctionsTest, Lower(message))
    ensures Contains(GenerateSuperSmartResponse(message), message)
  {
    Precedence(message);
    if Holds(ProgrammingTest, Lower(message)) {
      ContainsInfix(ProgrammingBefore, message, ProgrammingAfter);
    } else {
      ContainsInfix(DefaultBefore, message, DefaultAfter);
    }
  }

  /** A message naming the DOM, functions and JavaScript gets the DOM guide, not the functions tutorial. */
  lemma DomBeforeFunctions(message: string)
    requires Contains(Lower(message), "dom") && Contains(Lower(message), "function")
    requires Contains(Lower(message), "javascript")
    ensures GenerateSuperSmartResponse(message) == DomGuide
    ensures Holds(FunctionsTest, Lower(message))
  {
    DomBeforeFunctionsOrNot(message);
  }

  /** Raw substring matching: "random javascript" has "dom" inside "random" and gets the DOM guide. */
  lemma RandomJavascriptGetsDomGuide(m: string)
    requires m == "random javascript"
    ensures GenerateSuperSmartResponse(m) == DomGuide
  {
    assert OccursAt(m, "dom", 3);
    assert OccursAt(m, "javascript", 7);
    OccursLowered(m, "dom", 3);
    OccursLowered(m, "javascript", 7);
    DomBeforeFunctionsOrNot(m);
  }

  /** The DOM test alone decides: whatever else the message names, "dom" with "javascript" gets the DOM guide. */
  lemma DomBeforeFunctionsOrNot(message: string)
    requires Contains(Lower(message), "dom") && Contains(Lower(message), "javascript")
    ensures GenerateSuperSmartResponse(message) == DomGuide
  {
    var m := Lower(message);
    assert Holds(Has("javascript"), m);
    assert Holds(Either(Has("manipulation"), Has("javascript")), m);
    assert Holds(DomTest, m);
    Precedence(message);
  }

}
