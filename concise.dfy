/**
  The "concise" chat server: Groq first with a shorter badge, then the local generator
  `generateConciseResponse`, whose rules are the todo-app snippet followed by single-keyword
  snippets (DOM, functions, arrays, events, CSS) and a default reply, the only one that
  repeats the message.
 */
module ConciseServer {
  import opened Options
  import opened Text
  import opened Rules
  import opened Providers

  const TodoSnippet := "🎯 **Quick Todo App (JavaScript)**"
  const DomSnippet := "🎯 **DOM Basics**"
  const FunctionsSnippet := "🎯 **JavaScript Functions**"
  const ArraysSnippet := "🎯 **JavaScript Arrays**"
  const EventsSnippet := "🎯 **JavaScript Events**"
  const CssSnippet := "🎯 **Quick CSS**"
  const DefaultBefore := "🤖 **MindSpark AI - Ready to Help!**\n\nYou asked: \""
  const DefaultAfter := "\""

  /** "todo" and ("app", "build" or "add") */
  const TodoTest := Both(Has("todo"), Either(Has("app"), Either(Has("build"), Has("add"))))
  /** "css" or "style" */
  const CssTest := Either(Has("css"), Has("style"))

  const Generator := Table(
    [ Rule(TodoTest, Single(Fixed(TodoSnippet))),
      Rule(Has("dom"), Single(Fixed(DomSnippet))),
      Rule(Has("function"), Single(Fixed(FunctionsSnippet))),
      Rule(Has("array"), Single(Fixed(ArraysSnippet))),
      Rule(Has("event"), Single(Fixed(EventsSnippet))),
      Rule(CssTest, Single(Fixed(CssSnippet))) ],
    Single(Echo(DefaultBefore, DefaultAfter)))

  /** `generateConciseResponse(message)`: total, and never empty. */
  function GenerateConciseResponse(message: string): (reply: string)
    ensures |reply| > 0
  {
    assert WellFormed(Generator);
    Respond(Generator, message, 0.0)
  }

  const GroqBadge := "🚀 **[Groq AI]** "

  /** `tryGroqAI(message)`: null without a key, on a non-ok status and on any throw; the badged content otherwise. */
  function TryGroqAI(groqKey: Option<string>, groq: Outcome): (r: Option<string>)
    ensures r.Some? <==> Enabled(groqKey) && groq.Ok?
    ensures r.Some? ==> r.value == GroqBadge + groq.content
  {
    TryProvider(groqKey, groq, GroqBadge)
  }

  /** The `/api/chat` reply: the local generator runs exactly when Groq gave nothing. */
  function Chat(message: string, groqKey: Option<string>, groq: Outcome): (reply: string)
    ensures Enabled(groqKey) && groq.Ok? ==> reply == GroqBadge + groq.content
    ensures !(Enabled(groqKey) && groq.Ok?) ==> reply == GenerateConciseResponse(message)
    ensures |reply| > 0
  {
    var groqResponse := TryGroqAI(groqKey, groq);
    BadgedSuccessIsTruthy(groqKey, groq, GroqBadge);
    if Truthy(groqResponse) then groqResponse.value else GenerateConciseResponse(message)
  }

  /** The handler is the one-stage fallback chain: Groq is called once if it has a key, and never otherwise. */
  lemma ChatIsChain(message: string, groqKey: Option<string>, groq: Outcome)
    ensures var chain := Chain([Stage(Groq, groqKey, groq, GroqBadge)], GenerateConciseResponse(message));
      && Chat(message, groqKey, groq) == chain.reply
      && chain.called == (if Enabled(groqKey) then [Groq] else [])
  {
    var stages := [Stage(Groq, groqKey, groq, GroqBadge)];
    assert stages[1..] == [];
    assert stages[..1] == stages;
  }

  /** The if/return chain of `generateConciseResponse` as written, on the lowered message. */
  function IfChain(message: string): string {
    var m := Lower(message);
    if Holds(TodoTest, m) then TodoSnippet
    else if Contains(m, "dom") then DomSnippet
    else if Contains(m, "function") then FunctionsSnippet
    else if Contains(m, "array") then ArraysSnippet
    else if Contains(m, "event") then EventsSnippet
    else if Holds(CssTest, m) then CssSnippet
    else DefaultBefore + message + DefaultAfter
  }

  /** The rule table answers every message exactly as the if/return chain does: first test first. */
  lemma Precedence(message: string)
    ensures GenerateConciseResponse(message) == IfChain(message)
  {
    var m := Lower(message);
    if Holds(TodoTest, m) {
      RuleWins(Generator, message, 0);
    } else if Contains(m, "dom") {
      RuleWins(Generator, message, 1);
    } else if Contains(m, "function") {
      RuleWins(Generator, message, 2);
    } else if Contains(m, "array") {
      RuleWins(Generator, message, 3);
    } else if Contains(m, "event") {
      RuleWins(Generator, message, 4);
    } else if Holds(CssTest, m) {
      RuleWins(Generator, message, 5);
    } else {
      DefaultWhenNoRule(Generator, message);
    }
  }

  const Snippets := [TodoSnippet, DomSnippet, FunctionsSnippet, ArraysSnippet, EventsSnippet, CssSnippet]

  /** Only the default reply depends on the message: once any topic is named, the reply is one of the six snippets. */
  lemma SnippetsIgnoreMessage(message: string)
    requires var m := Lower(message);
      || Holds(TodoTest, m) || Contains(m, "dom") || Contains(m, "function")
      || Contains(m, "array") || Contains(m, "event") || Holds(CssTest, m)
    ensures GenerateConciseResponse(message) in Snippets
  {
    Precedence(message);
  }

  /** The CSS snippet answers "style" as well as "css". */
  lemma StyleMeansCss(message: string)
    requires !Holds(TodoTest, Lower(message))
    requires !Contains(Lower(message), "dom") && !Contains(Lower(message), "function")
    requires !Contains(Lower(message), "array") && !Contains(Lower(message), "event")
    requires Contains(Lower(message), "style")
    ensures GenerateConciseResponse(message) == CssSnippet
  {
    assert Holds(Has("style"), Lower(message));
    Precedence(message);
  }

  /** "dom event" names two topics; the earlier rule, DOM, answers. */
  lemma DomEventGetsDomSnippet(m: string)
    requires m == "dom event"
    ensures GenerateConciseResponse(m) == DomSnippet
  {
    assert OccursAt(m, "dom", 0);
    assert OccursAt(m, "event", 4);
    LowerOfLowered(m);
    MissingPairExcludes(m, "todo", 0);
    assert !Holds(TodoTest, m);
    assert Contains(m, "dom");
    Precedence(m);
  }

}
