/**
  The "balanced" chat server: the same Groq-first handler as the super smart server, with
  the local generator `generateBalancedResponse`, whose rules are, in order, the todo-app
  guide, the DOM guide, the functions guide, the programming reply and the default reply.
 */
module BalancedServer {
  import opened Options
  import opened Text
  import opened Rules
  import opened Providers

  const TodoGuide := "🎯 **Todo App - Quick Start Guide**"
  const DomGuide := "🎯 **DOM Manipulation Essentials**"
  const FunctionsGuide := "🚀 **JavaScript Functions - Core Concepts**"
  const ProgrammingBefore := "💻 **Programming Help - I'm Here to Help!**\n\nYou asked: \""
  const ProgrammingAfter := "\""
  const DefaultBefore := "🧠 **Smart AI Ready to Help!**\n\nHey! You said: \""
  const DefaultAfter := "\""

  /** "todo" and ("app" or "build") */
  const TodoTest := Both(Has("todo"), Either(Has("app"), Has("build")))
  /** "dom" and ("manipulation" or "javascript") */
  const DomTest := Both(Has("dom"), Either(Has("manipulation"), Has("javascript")))
  /** "function" and "javascript" */
  const FunctionsTest := Both(Has("function"), Has("javascript"))
  /** "code", "program", "javascript" or "help" */
  const ProgrammingTest := Either(Has("code"), Either(Has("program"), Either(Has("javascript"), Has("help"))))

  const Generator := Table(
    [ Rule(TodoTest, Single(Fixed(TodoGuide))),
      Rule(DomTest, Single(Fixed(DomGuide))),
      Rule(FunctionsTest, Single(Fixed(FunctionsGuide))),
      Rule(ProgrammingTest, Single(Echo(ProgrammingBefore, ProgrammingAfter))) ],
    Single(Echo(DefaultBefore, DefaultAfter)))

  /** `generateBalancedResponse(message)`: total, and never empty. */
  function GenerateBalancedResponse(message: string): (reply: string)
    ensures |reply| > 0
  {
    assert WellFormed(Generator);
    Respond(Generator, message, 0.0)
  }

  const GroqBadge := "🚀 **[Groq Llama3 - Real AI]** "

  /** `tryGroqAI(message)`: null without a key, on a non-ok status and on any throw; the badged content otherwise. */
  function TryGroqAI(groqKey: Option<string>, groq: Outcome): (r: Option<string>)
    ensures r.Some? <==> Enabled(groqKey) && groq.Ok?
    ensures r.Some? ==> r.value == GroqBadge + groq.content
  {
    TryProvider(groqKey, groq, GroqBadge)
  }

  /** The `/api/chat` reply: Groq's badged answer when there is one, the local reply otherwise. */
  function Chat(message: string, groqKey: Option<string>, groq: Outcome): (reply: string)
    ensures Enabled(groqKey) && groq.Ok? ==> reply == GroqBadge + groq.content
    ensures !(Enabled(groqKey) && groq.Ok?) ==> reply == GenerateBalancedResponse(message)
    ensures |reply| > 0
  {
    var groqResponse := TryGroqAI(groqKey, groq);
    BadgedSuccessIsTruthy(groqKey, groq, GroqBadge);
    if Truthy(groqResponse) then groqResponse.value else GenerateBalancedResponse(message)
  }

  /** The handler is the one-stage fallback chain: Groq is called once if it has a key, and never otherwise. */
  lemma ChatIsChain(message: string, groqKey: Option<string>, groq: Outcome)
    ensures var chain := Chain([Stage(Groq, groqKey, groq, GroqBadge)], GenerateBalancedResponse(message));
      && Chat(message, groqKey, groq) == chain.reply
      && chain.called == (if Enabled(groqKey) then [Groq] else [])
  {
    var stages := [Stage(Groq, groqKey, groq, GroqBadge)];
    assert stages[1..] == [];
    assert stages[..1] == stages;
  }

  /** The if/return chain of `generateBalancedResponse` as written, on the lowered message. */
  function IfChain(message: string): string {
    var m := Lower(message);
    if Holds(TodoTest, m) then TodoGuide
    else if Holds(DomTest, m) then DomGuide
    else if Holds(FunctionsTest, m) then FunctionsGuide
    else if Holds(ProgrammingTest, m) then ProgrammingBefore + message + ProgrammingAfter
    else DefaultBefore + message + DefaultAfter
  }

  /** The rule table answers every message exactly as the if/return chain does: first test first. */
  lemma Precedence(message: string)
    ensures GenerateBalancedResponse(message) == IfChain(message)
  {
    var m := Lower(message);
    if Holds(TodoTest, m) {
      RuleWins(Generator, message, 0);
    } else if Holds(DomTest, m) {
      RuleWins(Generator, message, 1);
    } else if Holds(FunctionsTest, m) {
      RuleWins(Generator, message, 2);
    } else if Holds(ProgrammingTest, m) {
      RuleWins(Generator, message, 3);
    } else {
      DefaultWhenNoRule(Generator, message);
    }
  }

  /** Whenever no guide applies, the reply contains the message verbatim. */
  lemma EchoesUnlessGuide(message: string)
    requires !Holds(TodoTest, Lower(message)) && !Holds(DomTest, Lower(message))
    requires !Holds(FunctionsTest, Lower(message))
    ensures Contains(GenerateBalancedResponse(message), message)
  {
    Precedence(message);
    if Holds(ProgrammingTest, Lower(message)) {
      ContainsInfix(ProgrammingBefore, message, ProgrammingAfter);
    } else {
      ContainsInfix(DefaultBefore, message, DefaultAfter);
    }
  }

  /** The todo test comes first: "todo" with "app" or "build" gets the todo guide whatever else is asked. */
  lemma TodoFirst(message: string)
    requires Contains(Lower(message), "todo")
    requires Contains(Lower(message), "app") || Contains(Lower(message), "build")
    ensures GenerateBalancedResponse(message) == TodoGuide
  {
    var m := Lower(message);
    assert Holds(Has("app"), m) || Holds(Has("build"), m);
    assert Holds(Either(Has("app"), Has("build")), m);
    assert Holds(TodoTest, m);
    Precedence(message);
  }

  /** "how do i build a todo app" gets the todo guide. */
  lemma BuildTodoAppGetsTodoGuide(m: string)
    requires m == "how do i build a todo app"
    ensures GenerateBalancedResponse(m) == TodoGuide
  {
    assert OccursAt(m, "todo", 17);
    assert OccursAt(m, "app", 22);
    OccursLowered(m, "todo", 17);
    OccursLowered(m, "app", 22);
    TodoFirst(m);
  }

  /** "todo app javascript help" gets the todo guide, not the programming reply its other words would trigger. */
  lemma TodoBeatsProgramming(m: string)
    requires m == "todo app javascript help"
    ensures GenerateBalancedResponse(m) == TodoGuide
    ensures Holds(ProgrammingTest, Lower(m))
  {
    assert OccursAt(m, "todo", 0);
    assert OccursAt(m, "app", 5);
    assert OccursAt(m, "help", 20);
    LowerOfLowered(m);
    assert Holds(Has("help"), m);
    assert Holds(Either(Has("javascript"), Has("help")), m);
    assert Holds(Either(Has("program"), Either(Has("javascript"), Has("help"))), m);
    TodoFirst(m);
  }

}
