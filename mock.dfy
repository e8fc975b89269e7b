/**
  The mock chat server: `/api/chat` never calls a provider; every reply comes from the
  local generator `generateSmartResponse`, whose rules are, in order, the functions guide,
  the how-to-use guide, fundamentals, web development, debugging, greeting, how-are-you and
  the default reply.
 */
module MockServer {
  import opened Text
  import opened Rules

  const FunctionsGuide := "🚀 **JavaScript Functions - Complete Guide**"
  const UsageGuide := "🎯 **How to Use JavaScript Functions - Step by Step**"
  const FundamentalsBefore := "💡 **JavaScript Fundamentals**\n\nBased on your question about \""
  const FundamentalsAfter := "\", here's what you need to know:"
  const WebBefore := "🎨 **Web Development Help**\n\nYou mentioned: \""
  const WebAfter := "\". Here's how to build modern websites:"
  const DebuggingBefore := "🐛 **Debugging Help - Let's Fix This!**\n\nYou mentioned: \""
  const DebuggingAfter := "\". Here's how to debug like a pro:"
  const Greeting := "👋 **Hello! I'm MindSpark AI - Your Coding Mentor**"
  const Wellbeing := "🤖 **I'm doing fantastic, thanks for asking!**"
  const DefaultBefore := "🧠 **Interesting! Let me help you with that.**\n\nYou said: \""
  const DefaultAfter := "\""

  /** "function" and "javascript" */
  const FunctionsTest := Both(Has("function"), Has("javascript"))
  /** ("how to use" or "how do i use") and ("function" or "them") */
  const UsageTest := Both(Either(Has("how to use"), Has("how do i use")), Either(Has("function"), Has("them")))
  const FundamentalsTest := Either(Has("variable"), Either(Has("loop"), Either(Has("array"), Has("object"))))
  const WebTest := Either(Has("html"), Either(Has("css"), Either(Has("styling"), Has("website"))))
  const DebuggingTest := Either(Has("error"), Either(Has("bug"), Either(Has("debug"), Has("not working"))))
  const GreetingTest := Either(Has("hello"), Either(Has("hi"), Has("hey")))
  const WellbeingTest := Either(Has("how are you"), Has("how do you"))

  const Generator := Table(
    [ Rule(FunctionsTest, Single(Fixed(FunctionsGuide))),
      Rule(UsageTest, Single(Fixed(UsageGuide))),
      Rule(FundamentalsTest, Single(Echo(FundamentalsBefore, FundamentalsAfter))),
      Rule(WebTest, Single(Echo(WebBefore, WebAfter))),
      Rule(DebuggingTest, Single(Echo(DebuggingBefore, DebuggingAfter))),
      Rule(GreetingTest, Single(Fixed(Greeting))),
      Rule(WellbeingTest, Single(Fixed(Wellbeing))) ],
    Single(Echo(DefaultBefore, DefaultAfter)))

  /** `generateSmartResponse(message)`: total, and never empty. */
  function GenerateSmartResponse(message: string): (reply: string)
    ensures |reply| > 0
  {
    assert WellFormed(Generator);
    Respond(Generator, message, 0.0)
  }

  /** The `/api/chat` reply: no provider is consulted; the local reply is sent for every message, never empty. */
  function Chat(message: string): (reply: string)
    ensures reply == GenerateSmartResponse(message)
    ensures |reply| > 0
  {
    GenerateSmartResponse(message)
  }

  /** The if/return chain of `generateSmartResponse` as written, on the lowered message. */
  function IfChain(message: string): string {
    var m := Lower(message);
    if Holds(FunctionsTest, m) then FunctionsGuide
    else if Holds(UsageTest, m) then UsageGuide
    else if Holds(FundamentalsTest, m) then FundamentalsBefore + message + FundamentalsAfter
    else if Holds(WebTest, m) then WebBefore + message + WebAfter
    else if Holds(DebuggingTest, m) then DebuggingBefore + message + DebuggingAfter
    else if Holds(GreetingTest, m) then Greeting
    else if Holds(WellbeingTest, m) then Wellbeing
    else DefaultBefore + message + DefaultAfter
  }

  /** The rule table answers every message exactly as the if/return chain does: first test first. */
  lemma Precedence(message: string)
    ensures GenerateSmartResponse(message) == IfChain(message)
  {
    var m := Lower(message);
    if Holds(FunctionsTest, m) {
      RuleWins(Generator, message, 0);
    } else if Holds(UsageTest, m) {
      RuleWins(Generator, message, 1);
    } else if Holds(FundamentalsTest, m) {
      RuleWins(Generator, message, 2);
    } else if Holds(WebTest, m) {
      RuleWins(Generator, message, 3);
    } else if Holds(DebuggingTest, m) {
      RuleWins(Generator, message, 4);
    } else if Holds(GreetingTest, m) {
      RuleWins(Generator, message, 5);
    } else if Holds(WellbeingTest, m) {
      RuleWins(Generator, message, 6);
    } else {
      DefaultWhenNoRule(Generator, message);
    }
  }

  /** Outside the two function guides and the two small-talk replies, the reply contains the message verbatim. */
  lemma EchoesUnlessFixed(message: string)
    requires var m := Lower(message);
      !Holds(FunctionsTest, m) && !Holds(UsageTest, m)
      && (Holds(FundamentalsTest, m) || Holds(WebTest, m) || Holds(DebuggingTest, m)
          || (!Holds(GreetingTest, m) && !Holds(WellbeingTest, m)))
    ensures Contains(GenerateSmartResponse(message), message)
  {
    var m := Lower(message);
    Precedence(message);
    if Holds(FundamentalsTest, m) {
      ContainsInfix(FundamentalsBefore, message, FundamentalsAfter);
    } else if Holds(WebTest, m) {
      ContainsInfix(WebBefore, message, WebAfter);
    } else if Holds(DebuggingTest, m) {
      ContainsInfix(DebuggingBefore, message, DebuggingAfter);
    } else {
      ContainsInfix(DefaultBefore, message, DefaultAfter);
    }
  }

  /** The five rules before the greeting all fail on a message that names none of their words. */
  lemma {:induction false} NoTopic(m: string)
    requires !Contains(m, "function") && !Contains(m, "how to use") && !Contains(m, "how do i use")
    requires !Contains(m, "variable") && !Contains(m, "loop") && !Contains(m, "array") && !Contains(m, "object")
    requires !Contains(m, "html") && !Contains(m, "css") && !Contains(m, "styling") && !Contains(m, "website")
    requires !Contains(m, "error") && !Contains(m, "bug") && !Contains(m, "debug") && !Contains(m, "not working")
    ensures !Holds(FunctionsTest, m) && !Holds(UsageTest, m) && !Holds(FundamentalsTest, m)
    ensures !Holds(WebTest, m) && !Holds(DebuggingTest, m)
  {
    assert !Holds(Has("function"), m);
    assert !Holds(Either(Has("how to use"), Has("how do i use")), m);
    assert !Holds(Either(Has("array"), Has("object")), m);
    assert !Holds(Either(Has("loop"), Either(Has("array"), Has("object"))), m);
    assert !Holds(Either(Has("styling"), Has("website")), m);
    assert !Holds(Either(Has("css"), Either(Has("styling"), Has("website"))), m);
    assert !Holds(Either(Has("debug"), Has("not working")), m);
    assert !Holds(Either(Has("bug"), Either(Has("debug"), Has("not working"))), m);
  }

  /** "this" asks about neither functions nor their use. */
  lemma ThisNotFunctions(m: string)
    requires m == "this"
    ensures !Contains(m, "function") && !Contains(m, "how to use") && !Contains(m, "how do i use")
  {
    MissingCharExcludes(m, "function", 'f');
    MissingCharExcludes(m, "how to use", 'o');
    MissingCharExcludes(m, "how do i use", 'o');
  }

  /** "this" names no fundamental. */
  lemma ThisNotFundamentals(m: string)
    requires m == "this"
    ensures !Contains(m, "variable") && !Contains(m, "loop") && !Contains(m, "array") && !Contains(m, "object")
  {
    MissingCharExcludes(m, "variable", 'v');
    MissingCharExcludes(m, "loop", 'o');
    MissingCharExcludes(m, "array", 'a');
    MissingCharExcludes(m, "object", 'o');
  }

  /** "this" names nothing about web pages. */
  lemma ThisNotWeb(m: string)
    requires m == "this"
    ensures !Contains(m, "html") && !Contains(m, "css") && !Contains(m, "styling") && !Contains(m, "website")
  {
    MissingCharExcludes(m, "html", 'm');
    MissingCharExcludes(m, "css", 'c');
    MissingCharExcludes(m, "styling", 'y');
    MissingCharExcludes(m, "website", 'w');
  }

  /** "this" names nothing about debugging. */
  lemma ThisNotBugs(m: string)
    requires m == "this"
    ensures !Contains(m, "error") && !Contains(m, "bug") && !Contains(m, "debug") && !Contains(m, "not working")
  {
    MissingCharExcludes(m, "error", 'e');
    MissingCharExcludes(m, "bug", 'b');
    MissingCharExcludes(m, "debug", 'd');
    MissingCharExcludes(m, "not working", 'n');
  }

  /** "hey, how are you" asks about neither functions nor their use. */
  lemma HeyNotFunctions(m: string)
    requires m == "hey, how are you"
    ensures !Contains(m, "function") && !Contains(m, "how to use") && !Contains(m, "how do i use")
  {
    MissingCharExcludes(m, "function", 'f');
    MissingCharExcludes(m, "how to use", 't');
    MissingCharExcludes(m, "how do i use", 'd');
  }

  /** "hey, how are you" names no fundamental. */
  lemma HeyNotFundamentals(m: string)
    requires m == "hey, how are you"
    ensures !Contains(m, "variable") && !Contains(m, "loop") && !Contains(m, "array") && !Contains(m, "object")
  {
    MissingCharExcludes(m, "variable", 'v');
    MissingCharExcludes(m, "loop", 'l');
    MissingPairExcludes(m, "array", 1);
    MissingCharExcludes(m, "object", 'b');
  }

  /** "hey, how are you" names nothing about web pages. */
  lemma HeyNotWeb(m: string)
    requires m == "hey, how are you"
    ensures !Contains(m, "html") && !Contains(m, "css") && !Contains(m, "styling") && !Contains(m, "website")
  {
    MissingCharExcludes(m, "html", 't');
    MissingCharExcludes(m, "css", 'c');
    MissingCharExcludes(m, "styling", 's');
    MissingCharExcludes(m, "website", 'b');
  }

  /** "hey, how are you" names nothing about debugging. */
  lemma HeyNotBugs(m: string)
    requires m == "hey, how are you"
    ensures !Contains(m, "error") && !Contains(m, "bug") && !Contains(m, "debug") && !Contains(m, "not working")
  {
    MissingPairExcludes(m, "error", 1);
    MissingCharExcludes(m, "bug", 'b');
    MissingCharExcludes(m, "debug", 'd');
    MissingCharExcludes(m, "not working", 'n');
  }

  /** Raw substring matching: "this" contains "hi", so it is answered as a greeting. */
  lemma ThisIsAGreeting(m: string)
    requires m == "this"
    ensures GenerateSmartResponse(m) == Greeting
  {
    LowerOfLowered(m);
    ThisNotFunctions(m);
    ThisNotFundamentals(m);
    ThisNotWeb(m);
    ThisNotBugs(m);
    NoTopic(m);
    assert OccursAt(m, "hi", 1);
    assert Holds(Either(Has("hi"), Has("hey")), m);
    Precedence(m);
  }

  /** "hey, how are you" also passes the how-are-you test, which comes too late to be used. */
  lemma HeyAsksHowAreYou(m: string)
    requires m == "hey, how are you"
    ensures Holds(WellbeingTest, Lower(m))
  {
    LowerOfLowered(m);
    assert OccursAt(m, "how are you", 5);
    assert Holds(Has("how are you"), m);
  }

  /** The greeting rule comes before the how-are-you rule: "hey, how are you" gets the greeting. */
  lemma GreetingBeforeWellbeing(m: string)
    requires m == "hey, how are you"
    ensures GenerateSmartResponse(m) == Greeting
  {
    LowerOfLowered(m);
    HeyNotFunctions(m);
    HeyNotFundamentals(m);
    HeyNotWeb(m);
    HeyNotBugs(m);
    NoTopic(m);
    assert OccursAt(m, "hey", 0);
    assert Holds(Has("hey"), m);
    assert Holds(Either(Has("hi"), Has("hey")), m);
    Precedence(m);
  }

}
