/**
  The local reply generators' common shape: the message is lowered once, an ordered list
  of rules is tried top to bottom, the first rule whose keyword test holds picks the reply
  template, and an unconditional default comes last. A keyword test is built from raw
  substring tests with `&&` and `||`. A template is fixed text, the original (not lowered)
  message pasted between two fixed texts, or one of several such pieces picked by
  `Math.floor(Math.random() * n)`, the random number being a parameter here.
 */
module Rules {
  import opened Options
  import opened Text

  /** A keyword test on the lowered message. */
  datatype Pred =
    | Has(word: string)           // msg.includes(word)
    | Both(left: Pred, right: Pred)   // left && right
    | Either(left: Pred, right: Pred) // left || right

  predicate Holds(p: Pred, msg: string) {
    match p
    case Has(w) => Contains(msg, w)
    case Both(a, b) => Holds(a, msg) && Holds(b, msg)
    case Either(a, b) => Holds(a, msg) || Holds(b, msg)
  }

  /** A piece of reply text: fixed, or the message pasted verbatim between two fixed texts. */
  datatype Piece = Fixed(text: string) | Echo(before: string, after: string)

  function Fill(p: Piece, message: string): string {
    match p
    case Fixed(t) => t
    case Echo(b, a) => b + message + a
  }

  datatype Template = Single(piece: Piece) | Random(options: seq<Piece>)

  /** The values `Math.random()` can return. */
  predicate IsRoll(roll: real) {
    0.0 <= roll < 1.0
  }

  /** `Math.floor(roll * n)`: always a valid index into a list of `n` options. */
  function Pick(n: nat, roll: real): (k: nat)
    requires n > 0 && IsRoll(roll)
    ensures k < n
    ensures k as real <= roll * n as real < k as real + 1.0
  {
    assert roll * n as real < n as real by {
      assert (1.0 - roll) * n as real > 0.0;
    }
    (roll * n as real).Floor
  }

  predicate NonEmptyPiece(p: Piece) {
    match p
    case Fixed(t) => t != []
    case Echo(b, a) => b != [] || a != []
  }

  predicate WellFormedTemplate(t: Template) {
    match t
    case Single(p) => NonEmptyPiece(p)
    case Random(opts) => opts != [] && forall k :: 0 <= k < |opts| ==> NonEmptyPiece(opts[k])
  }

  /** The reply text a template produces for the original message and a random number. */
  function Render(t: Template, message: string, roll: real): (r: string)
    requires WellFormedTemplate(t) && IsRoll(roll)
    ensures |r| > 0
  {
    match t
    case Single(p) => Fill(p, message)
    case Random(opts) => Fill(opts[Pick(|opts|, roll)], message)
  }

  datatype Rule = Rule(when: Pred, reply: Template)

  /** An ordered rule list with its unconditional default. */
  datatype Table = Table(rules: seq<Rule>, fallback: Template)

  predicate WellFormed(table: Table) {
    && WellFormedTemplate(table.fallback)
    && forall k :: 0 <= k < |table.rules| ==> WellFormedTemplate(table.rules[k].reply)
  }

  /** The index of the first rule whose test holds on the lowered message, if any. */
  function FirstMatch(rules: seq<Rule>, msg: string): (r: Option<nat>)
    ensures r.Some? ==> r.value < |rules| && Holds(rules[r.value].when, msg)
    ensures r.Some? ==> forall j :: 0 <= j < r.value ==> !Holds(rules[j].when, msg)
    ensures r.None? <==> forall j :: 0 <= j < |rules| ==> !Holds(rules[j].when, msg)
  {
    if rules == [] then None
    else if Holds(rules[0].when, msg) then Some(0)
    else
      match FirstMatch(rules[1..], msg)
      case None => None
      case Some(k) => Some(k + 1)
  }

  /** The template the generator uses for `message`: the first matching rule's, else the default. */
  function Chosen(table: Table, message: string): Template {
    match FirstMatch(table.rules, Lower(message))
    case Some(i) => table.rules[i].reply
    case None => table.fallback
  }

  /** The generator itself: `const msg = message.toLowerCase(); if (...) return ...; ...; return default`. */
  function Respond(table: Table, message: string, roll: real): (r: string)
    requires WellFormed(table) && IsRoll(roll)
    ensures |r| > 0
  {
    var t := Chosen(table, message);
    assert WellFormedTemplate(t);
    Render(t, message, roll)
  }

  /** First match wins: when rule `i` holds and no earlier rule does, rule `i`'s template is used. */
  lemma RuleWins(table: Table, message: string, i: nat)
    requires i < |table.rules|
    requires Holds(table.rules[i].when, Lower(message))
    requires forall j :: 0 <= j < i ==> !Holds(table.rules[j].when, Lower(message))
    ensures Chosen(table, message) == table.rules[i].reply
  {
  }

  /** When no rule holds, the default template is used. */
  lemma DefaultWhenNoRule(table: Table, message: string)
    requires forall j :: 0 <= j < |table.rules| ==> !Holds(table.rules[j].when, Lower(message))
    ensures Chosen(table, message) == table.fallback
  {
  }

  /** Which template is used depends only on the lowered message: matching ignores ASCII case. */
  lemma ChoiceIgnoresCase(table: Table, message: string)
    ensures Chosen(table, message) == Chosen(table, Lower(message))
  {
    LowerIdempotent(message);
  }

  /** An echoing template puts the original message, not its lowered form, into the reply. */
  lemma EchoKeepsMessage(table: Table, message: string, roll: real)
    requires WellFormed(table) && IsRoll(roll)
    requires Chosen(table, message).Single? && Chosen(table, message).piece.Echo?
    ensures Respond(table, message, roll)
         == Chosen(table, message).piece.before + message + Chosen(table, message).piece.after
    ensures Contains(Respond(table, message, roll), message)
  {
    var p := Chosen(table, message).piece;
    ContainsInfix(p.before, message, p.after);
  }

  /** Templates without a random choice make the generator a function of the message alone. */
  predicate Deterministic(table: Table) {
    && table.fallback.Single?
    && forall k :: 0 <= k < |table.rules| ==> table.rules[k].reply.Single?
  }

  lemma RollIrrelevant(table: Table, message: string, roll1: real, roll2: real)
    requires WellFormed(table) && Deterministic(table) && IsRoll(roll1) && IsRoll(roll2)
    ensures Respond(table, message, roll1) == Respond(table, message, roll2)
  {
    assert Chosen(table, message).Single?;
  }

}
