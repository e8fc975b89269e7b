/**
  Upstream language-model providers and the fallback chain over them.
  A network call is not made here: each provider's answer is an `Outcome` value
  given as a parameter, and a chain records which providers it actually called,
  so that "not called", "called once" and "called in this order" can be stated.
 */
module Providers {
  import opened Options

  /** What one upstream call came back with. */
  datatype Outcome =
    | Ok(content: string)                  // 2xx; the generated text at the provider's path
    | HttpNotOk(status: int, detail: string) // a response whose `ok` is false (or an SDK error carrying that status)
    | Threw(message: string)               // a network failure, a bad body, any other exception

  datatype Provider = OpenAI | Groq | HuggingFace

  /** `if (!process.env.KEY)`: a credential that is unset or the empty string disables the provider. */
  predicate Enabled(key: Option<string>) {
    key.Some? && key.value != ""
  }

  /**
    One `tryX(message)` function: returns `null` (None) before any call when the credential is
    missing, `null` on a non-ok status or a thrown error, and the badge followed by the content
    on success.
   */
  function TryProvider(key: Option<string>, outcome: Outcome, badge: string): (r: Option<string>)
    ensures r.Some? <==> Enabled(key) && outcome.Ok?
    ensures r.Some? ==> r.value == badge + outcome.content
  {
    if !Enabled(key) then None
    else match outcome
      case Ok(content) => Some(badge + content)
      case HttpNotOk(_, _) => None
      case Threw(_) => None
  }

  /** JavaScript truthiness of the value a `tryX` function returns. */
  predicate Truthy(r: Option<string>) {
    r.Some? && r.value != ""
  }

  /** With a non-empty badge, every success is truthy, so an `if (reply)` test never discards one. */
  lemma BadgedSuccessIsTruthy(key: Option<string>, outcome: Outcome, badge: string)
    requires badge != ""
    ensures Truthy(TryProvider(key, outcome, badge)) <==> Enabled(key) && outcome.Ok?
  {
  }

  /** One step of a chain: who, with which credential, what its call would return, and its badge. */
  datatype Stage = Stage(provider: Provider, key: Option<string>, outcome: Outcome, badge: string)

  predicate Succeeds(s: Stage) {
    Enabled(s.key) && s.outcome.Ok?
  }

  /** The reply a chain settles on and the providers it called, in call order. */
  datatype Resolution = Resolution(reply: string, called: seq<Provider>)

  /** The index of the first stage that is enabled and succeeds. */
  function FirstSuccess(stages: seq<Stage>): (r: Option<nat>)
    ensures r.Some? ==> r.value < |stages| && Succeeds(stages[r.value])
    ensures r.Some? ==> forall j :: 0 <= j < r.value ==> !Succeeds(stages[j])
    ensures r.None? <==> forall j :: 0 <= j < |stages| ==> !Succeeds(stages[j])
  {
    if stages == [] then None
    else if Succeeds(stages[0]) then Some(0)
    else
      match FirstSuccess(stages[1..])
      case None => None
      case Some(k) => Some(k + 1)
  }

  /** The providers of the enabled stages, in stage order. */
  function EnabledProviders(stages: seq<Stage>): (ps: seq<Provider>)
    ensures |ps| <= |stages|
  {
    if stages == [] then []
    else if Enabled(stages[0].key) then [stages[0].provider] + EnabledProviders(stages[1..])
    else EnabledProviders(stages[1..])
  }

  /**
    The fallback chain: each enabled provider is called once, in order; the first success
    is returned with its badge; disabled providers are skipped without a call; when every
    stage fails the local reply is returned.
   */
  function Chain(stages: seq<Stage>, local: string): (r: Resolution)
    ensures FirstSuccess(stages).Some? ==>
      var k := FirstSuccess(stages).value;
      && r.reply == stages[k].badge + stages[k].outcome.content
      && r.called == EnabledProviders(stages[..k + 1])
    ensures FirstSuccess(stages).None? ==>
      r.reply == local && r.called == EnabledProviders(stages)
  {
    if stages == [] then Resolution(local, [])
    else
      var s := stages[0];
      var rest := Chain(stages[1..], local);
      var later := FirstSuccess(stages[1..]);
      assert later.Some? ==> stages[..later.value + 2][1..] == stages[1..][..later.value + 1];
      if !Enabled(s.key) then rest
      else match TryProvider(s.key, s.outcome, s.badge)
        case Some(reply) => Resolution(reply, [s.provider])
        case None => Resolution(rest.reply, [s.provider] + rest.called)
  }

  predicate DistinctProviders(stages: seq<Stage>) {
    forall i, j :: 0 <= i < j < |stages| ==> stages[i].provider != stages[j].provider
  }

  predicate NoDuplicates(ps: seq<Provider>) {
    forall i, j :: 0 <= i < j < |ps| ==> ps[i] != ps[j]
  }

  /** Every provider listed as enabled comes from an enabled stage. */
  lemma {:induction false} EnabledProvidersFrom(stages: seq<Stage>, p: Provider)
    requires p in EnabledProviders(stages)
    ensures exists i :: 0 <= i < |stages| && stages[i].provider == p && Enabled(stages[i].key)
  {
    if stages[0].provider == p && Enabled(stages[0].key) {
      assert stages[0].provider == p;
    } else {
      EnabledProvidersFrom(stages[1..], p);
      var i :| 0 <= i < |stages[1..]| && stages[1..][i].provider == p && Enabled(stages[1..][i].key);
      assert stages[i + 1] == stages[1..][i];
    }
  }

  /** Distinct stages give a call list without repetition. */
  lemma {:induction false} EnabledProvidersDistinct(stages: seq<Stage>)
    requires DistinctProviders(stages)
    ensures NoDuplicates(EnabledProviders(stages))
  {
    if stages != [] {
      var tail := stages[1..];
      assert DistinctProviders(tail) by {
        forall i, j | 0 <= i < j < |tail| ensures tail[i].provider != tail[j].provider {
          assert tail[i] == stages[i + 1] && tail[j] == stages[j + 1];
        }
      }
      EnabledProvidersDistinct(tail);
      if Enabled(stages[0].key) {
        var ps := EnabledProviders(stages);
        assert ps == [stages[0].provider] + EnabledProviders(tail);
        forall j | 0 < j < |ps| ensures ps[0] != ps[j] {
          EnabledProvidersFrom(tail, ps[j]);
          var i :| 0 <= i < |tail| && tail[i].provider == ps[j] && Enabled(tail[i].key);
          assert tail[i] == stages[i + 1];
        }
      }
    }
  }

  /** No retry: with distinct providers, no provider is called twice in one chain. */
  lemma ChainNoRetry(stages: seq<Stage>, local: string)
    requires DistinctProviders(stages)
    ensures NoDuplicates(Chain(stages, local).called)
  {
    match FirstSuccess(stages)
    case None => EnabledProvidersDistinct(stages);
    case Some(k) =>
      var prefix := stages[..k + 1];
      assert DistinctProviders(prefix);
      EnabledProvidersDistinct(prefix);
  }

  /** A provider none of whose stages is enabled is not in the enabled list. */
  lemma {:induction false} EnabledProvidersExclude(stages: seq<Stage>, p: Provider)
    requires forall i :: 0 <= i < |stages| && stages[i].provider == p ==> !Enabled(stages[i].key)
    ensures p !in EnabledProviders(stages)
  {
    if stages != [] {
      EnabledProvidersExclude(stages[1..], p);
    }
  }

  /** A disabled provider is never called. */
  lemma ChainSkipsDisabled(stages: seq<Stage>, local: string, i: nat)
    requires DistinctProviders(stages)
    requires i < |stages| && !Enabled(stages[i].key)
    ensures stages[i].provider !in Chain(stages, local).called
  {
    var scope := if FirstSuccess(stages).Some? then stages[..FirstSuccess(stages).value + 1] else stages;
    assert forall j :: 0 <= j < |scope| ==> scope[j] == stages[j];
    EnabledProvidersExclude(scope, stages[i].provider);
  }

  /** Ordering: a provider ranked after the first success is never called. */
  lemma ChainStopsAtFirstSuccess(stages: seq<Stage>, local: string, j: nat)
    requires DistinctProviders(stages)
    requires FirstSuccess(stages).Some? && FirstSuccess(stages).value < j < |stages|
    ensures stages[j].provider !in Chain(stages, local).called
  {
    var prefix := stages[..FirstSuccess(stages).value + 1];
    assert forall i :: 0 <= i < |prefix| ==> prefix[i] == stages[i];
    EnabledProvidersExclude(prefix, stages[j].provider);
  }

  /** Totality: with a non-empty local reply and non-empty badges, the chain's reply is never empty. */
  lemma ChainTotal(stages: seq<Stage>, local: string)
    requires local != []
    requires forall k :: 0 <= k < |stages| ==> stages[k].badge != []
    ensures Chain(stages, local).reply != []
  {
  }

  /** Any failure is absorbed: a stage whose call fails yields the same reply as if it were disabled. */
  lemma {:induction false} FailureAbsorbed(stages: seq<Stage>, local: string, i: nat)
    requires i < |stages| && !stages[i].outcome.Ok?
    ensures Chain(stages, local).reply == Chain(stages[i := stages[i].(key := None)], local).reply
  {
    var other := stages[i := stages[i].(key := None)];
    assert forall k :: 0 <= k < |stages| ==> (Succeeds(stages[k]) <==> Succeeds(other[k]));
    assert FirstSuccess(stages) == FirstSuccess(other) by {
      FirstSuccessAgrees(stages, other);
    }
  }

  /** Two chains whose stages succeed at the same places and carry the same replies settle on the same index. */
  lemma {:induction false} FirstSuccessAgrees(a: seq<Stage>, b: seq<Stage>)
    requires |a| == |b|
    requires forall k :: 0 <= k < |a| ==> (Succeeds(a[k]) <==> Succeeds(b[k]))
    ensures FirstSuccess(a) == FirstSuccess(b)
  {
    if a != [] && !Succeeds(a[0]) {
      FirstSuccessAgrees(a[1..], b[1..]);
    }
  }

}
