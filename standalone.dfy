/**
  The stand-alone chat page: no server at all. The send handler trims the input, ignores
  a blank one, records the user's message, and then records the reply of the local
  generator `generateSmartResponse`. Two of the generator's templates pick one of several
  texts with `Math.floor(Math.random() * n)`; the random number is a parameter. The reply
  delay and the page rendering are not modelled; the conversation history is.
 */
module StandaloneScript {
  import opened Options
  import opened Text
  import opened Rules

  const Greetings := [
    "Hello! I'm MindSpark AI. How can I help you today?",
    "Hi there! Ready to chat or need coding help?",
    "Hey! I'm here to help with programming or just chat!"]
  const TodoGuide := "🎯 **Quick Todo App (JavaScript)**"
  const DomEssentials := "🎯 **DOM Essentials**"
  const JavaScriptHelp := "🚀 **JavaScript Help**"
  /** The four general replies, each the message between two fixed texts. */
  const General := [
    Echo("That's interesting! You said: \"",
         "\". I'm MindSpark AI and I love helping with both coding and general conversation. What would you like to explore?"),
    Echo("Great question! About \"",
         "\" - I can help you with programming, web development, or just chat about topics that interest you. What's on your mind?"),
    Echo("I see you mentioned \"",
         "\". As MindSpark AI, I'm here to assist with JavaScript, HTML, CSS, or we can discuss whatever you'd like to talk about!"),
    Echo("Interesting! \"",
         "\" - I'm equipped to help with coding projects, explain programming concepts, or have general conversations. How can I assist you today?")]

  /** "hello", "hi" or "hey" */
  const GreetingTest := Either(Has("hello"), Either(Has("hi"), Has("hey")))
  /** "todo" and ("app", "build" or "add") */
  const TodoTest := Both(Has("todo"), Either(Has("app"), Either(Has("build"), Has("add"))))
  const DomTest := Has("dom")
  /** "javascript" or "js" */
  const JavaScriptTest := Either(Has("javascript"), Has("js"))

  const Generator := Table(
    [ Rule(GreetingTest, Random([Fixed(Greetings[0]), Fixed(Greetings[1]), Fixed(Greetings[2])])),
      Rule(TodoTest, Single(Fixed(TodoGuide))),
      Rule(DomTest, Single(Fixed(DomEssentials))),
      Rule(JavaScriptTest, Single(Fixed(JavaScriptHelp))) ],
    Random(General))

  /** `generateSmartResponse(message)` for the value `roll` of `Math.random()`: total, and never empty. */
  function GenerateSmartResponse(message: string, roll: real): (reply: string)
    requires IsRoll(roll)
    ensures |reply| > 0
  {
    assert WellFormed(Generator);
    Respond(Generator, message, roll)
  }

  /** The if/return chain of `generateSmartResponse` as written, with its two random picks. */
  function IfChain(message: string, roll: real): string
    requires IsRoll(roll)
  {
    var m := Lower(message);
    if Holds(GreetingTest, m) then Greetings[Pick(3, roll)]
    else if Holds(TodoTest, m) then TodoGuide
    else if Holds(DomTest, m) then DomEssentials
    else if Holds(JavaScriptTest, m) then JavaScriptHelp
    else
      var p := General[Pick(4, roll)];
      p.before + message + p.after
  }

  /** The rule table answers every message and roll exactly as the if/return chain does. */
  lemma Precedence(message: string, roll: real)
    requires IsRoll(roll)
    ensures GenerateSmartResponse(message, roll) == IfChain(message, roll)
  {
    var m := Lower(message);
    if Holds(GreetingTest, m) {
      RuleWins(Generator, message, 0);
    } else if Holds(TodoTest, m) {
      RuleWins(Generator, message, 1);
    } else if Holds(DomTest, m) {
      RuleWins(Generator, message, 2);
    } else if Holds(JavaScriptTest, m) {
      RuleWins(Generator, message, 3);
    } else {
      DefaultWhenNoRule(Generator, message);
    }
  }

  /** A greeting gets one of exactly three fixed texts, whatever the roll. */
  lemma GreetingIsOneOfThree(message: string, roll: real)
    requires IsRoll(roll) && Holds(GreetingTest, Lower(message))
    ensures GenerateSmartResponse(message, roll) in Greetings
  {
    Precedence(message, roll);
  }

  /** The general replies all repeat the message verbatim, whichever one the roll picks. */
  lemma GeneralEchoes(message: string, roll: real)
    requires IsRoll(roll)
    requires var m := Lower(message);
      !Holds(GreetingTest, m) && !Holds(TodoTest, m) && !Holds(DomTest, m) && !Holds(JavaScriptTest, m)
    ensures Contains(GenerateSmartResponse(message, roll), message)
  {
    Precedence(message, roll);
    var p := General[Pick(4, roll)];
    ContainsInfix(p.before, message, p.after);
  }

  /** Outside the greeting and the general replies the roll plays no part. */
  lemma TopicsIgnoreRoll(message: string, roll1: real, roll2: real)
    requires IsRoll(roll1) && IsRoll(roll2)
    requires var m := Lower(message);
      !Holds(GreetingTest, m) && (Holds(TodoTest, m) || Holds(DomTest, m) || Holds(JavaScriptTest, m))
    ensures GenerateSmartResponse(message, roll1) == GenerateSmartResponse(message, roll2)
  {
    Precedence(message, roll1);
    Precedence(message, roll2);
  }

  /** The greeting comes first: "hi, build a todo app" is greeted although it asks for the todo app. */
  lemma GreetingBeforeTodo(m: string, roll: real)
    requires m == "hi, build a todo app" && IsRoll(roll)
    ensures GenerateSmartResponse(m, roll) in Greetings
  {
    assert OccursAt(m, "hi", 0);
    OccursLowered(m, "hi", 0);
    assert Holds(Either(Has("hi"), Has("hey")), Lower(m));
    GreetingIsOneOfThree(m, roll);
  }

  /** "hi, build a todo app" does pass the todo test, which comes too late to be used. */
  lemma HiBuildTodoAppAsksForTodo(m: string)
    requires m == "hi, build a todo app"
    ensures Holds(TodoTest, Lower(m))
  {
    assert OccursAt(m, "todo", 12);
    assert OccursAt(m, "app", 17);
    OccursLowered(m, "todo", 12);
    OccursLowered(m, "app", 17);
    assert Holds(Either(Has("app"), Either(Has("build"), Has("add"))), Lower(m));
  }

  /** "json" names no greeting, no todo and no DOM. */
  lemma JsonNamesNoEarlierTopic(m: string)
    requires m == "json"
    ensures !Contains(m, "hello") && !Contains(m, "hi") && !Contains(m, "hey")
    ensures !Contains(m, "todo") && !Contains(m, "dom")
  {
    MissingCharExcludes(m, "hello", 'h');
    MissingCharExcludes(m, "hi", 'h');
    MissingCharExcludes(m, "hey", 'h');
    MissingCharExcludes(m, "todo", 't');
    MissingCharExcludes(m, "dom", 'd');
  }

  /** Raw substring matching: "json" contains "js" and gets the JavaScript help. */
  lemma JsonGetsJavaScriptHelp(m: string, roll: real)
    requires m == "json" && IsRoll(roll)
    ensures GenerateSmartResponse(m, roll) == JavaScriptHelp
  {
    LowerOfLowered(m);
    JsonNamesNoEarlierTopic(m);
    assert !Holds(Has("hello"), m);
    assert !Holds(Either(Has("hi"), Has("hey")), m);
    assert !Holds(GreetingTest, m);
    assert !Holds(Has("todo"), m);
    assert !Holds(TodoTest, m);
    assert !Holds(DomTest, m);
    assert OccursAt(m, "js", 0);
    assert Holds(Has("js"), m);
    assert Holds(JavaScriptTest, m);
    Precedence(m, roll);
  }

  /** One entry of `conversationHistory` (its time stamp is not modelled). */
  datatype Entry = Entry(sender: string, text: string, kind: string)

  class ChatPage {
    var history: seq<Entry>

    /** `let conversationHistory = [];` */
    constructor()
      ensures history == []
    {
      history := [];
    }

    /**
      The send handler: a blank input (empty or white space only) does nothing; otherwise
      the trimmed message is recorded and returned, to be answered once the reply delay
      is over.
     */
    method Send(raw: string) returns (sent: Option<string>)
      modifies this
      ensures sent.None? <==> AllSpace(raw)
      ensures sent.None? ==> history == old(history)
      ensures sent.Some? ==> sent.value == Trim(raw) && history == old(history) + [Entry("You", Trim(raw), "user")]
    {
      var message := Trim(raw);
      TrimEmptyIffAllSpace(raw);
      if message == [] {
        return None;
      }
      history := history + [Entry("You", message, "user")];
      sent := Some(message);
    }

    /** The delayed callback: the generator's reply to the sent message is recorded. */
    method Answer(message: string, roll: real) returns (reply: string)
      requires IsRoll(roll)
      modifies this
      ensures reply == GenerateSmartResponse(message, roll)
      ensures history == old(history) + [Entry("MindSpark AI", reply, "bot")]
    {
      reply := GenerateSmartResponse(message, roll);
      history := history + [Entry("MindSpark AI", reply, "bot")];
    }

    /** The clear button: the history is emptied only when the user confirms. */
    method Clear(confirmed: bool)
      modifies this
      ensures history == (if confirmed then [] else old(history))
    {
      if confirmed {
        history := [];
      }
    }
  }

  /** White space typed before a message is dropped by the trim: it never changes what is sent. */
  lemma {:induction false} LeadingSpaceIrrelevant(pad: string, raw: string)
    requires AllSpace(pad)
    ensures Trim(pad + raw) == Trim(raw)
  {
    if pad == [] {
      assert pad + raw == raw;
    } else {
      var s := pad + raw;
      assert s[1..] == pad[1..] + raw;
      assert IsJsSpace(s[0]);
      LeadingSpaceIrrelevant(pad[1..], raw);
    }
  }

}
