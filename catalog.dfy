/**
  Products as both stores see them: plain JSON objects looked up by their `id`
  property with strict equality, the two list queries the stores use on them
  (`findIndex` by id and `filter` on a different id), and the result of one
  `fetch` as the client code observes it.
 */
module Catalog {
  import opened Options
  import opened Js

  /** A product is whatever object the client sent, plus the `id` the server gave it. */
  type Product = Object

  /** `p.id` */
  function IdOf(p: Product): JsValue {
    Get(p, "id")
  }

  /** `ps.findIndex(p => p.id === id)`, with None for `-1`. */
  function IndexOfId(ps: seq<Product>, id: JsValue): (r: Option<nat>)
    ensures r.Some? ==> r.value < |ps| && IdOf(ps[r.value]) == id
    ensures r.Some? ==> forall j :: 0 <= j < r.value ==> IdOf(ps[j]) != id
    ensures r.None? <==> forall j :: 0 <= j < |ps| ==> IdOf(ps[j]) != id
  {
    if ps == [] then None
    else if IdOf(ps[0]) == id then Some(0)
    else
      match IndexOfId(ps[1..], id)
      case None => None
      case Some(k) => Some(k + 1)
  }

  /** `ps.filter(p => p.id !== id)`: exactly the products with another id survive. */
  function WithoutId(ps: seq<Product>, id: JsValue): (r: seq<Product>)
    ensures |r| <= |ps|
    ensures forall p :: p in r <==> p in ps && IdOf(p) != id
  {
    if ps == [] then []
    else if IdOf(ps[0]) == id then WithoutId(ps[1..], id)
    else [ps[0]] + WithoutId(ps[1..], id)
  }

  /** The filter keeps the survivors in their original order: it distributes over concatenation. */
  lemma {:induction false} WithoutIdAppend(a: seq<Product>, b: seq<Product>, id: JsValue)
    ensures WithoutId(a + b, id) == WithoutId(a, id) + WithoutId(b, id)
  {
    if a == [] {
      assert a + b == b;
    } else {
      assert (a + b)[1..] == a[1..] + b;
      WithoutIdAppend(a[1..], b, id);
    }
  }

  /** Deleting an id no product has leaves the list as it was. */
  lemma {:induction false} WithoutIdNoMatch(ps: seq<Product>, id: JsValue)
    requires forall j :: 0 <= j < |ps| ==> IdOf(ps[j]) != id
    ensures WithoutId(ps, id) == ps
  {
    if ps != [] {
      WithoutIdNoMatch(ps[1..], id);
    }
  }

  /** Deleting the same id twice is deleting it once. */
  lemma WithoutIdIdempotent(ps: seq<Product>, id: JsValue)
    ensures WithoutId(WithoutId(ps, id), id) == WithoutId(ps, id)
  {
    var r := WithoutId(ps, id);
    assert forall j :: 0 <= j < |r| ==> r[j] in r;
    WithoutIdNoMatch(r, id);
  }

  /** Deleting an id that occurs removes at least one product. */
  lemma {:induction false} WithoutIdShrinks(ps: seq<Product>, id: JsValue)
    requires IndexOfId(ps, id).Some?
    ensures |WithoutId(ps, id)| < |ps|
  {
    if IdOf(ps[0]) != id {
      WithoutIdShrinks(ps[1..], id);
    }
  }

  /**
    The URL round trip: `parseInt` on the server reads back exactly the integer id
    the client wrote into `/api/products/${id}`, for every id JavaScript writes in plain
    digits (the server's `Date.now()` ids are far inside that range).
   */
  lemma IdTextRoundTrip(n: int)
    requires PlainNotation(n)
    ensures ParseInt(Decimal(n)) == Some(n)
  {
    var s := Decimal(n);
    if n < 0 {
      ParseIntNegativeNumeral(-n, s);
    } else {
      ParseIntNumeral(n, s);
    }
  }

  /**
    One `fetch` as the client observes it: an ok response with its parsed body, a
    response whose `ok` is false, or a failure (network error, or a body `res.json()`
    cannot parse). `alert` and `console` output are not modelled.
   */
  datatype Fetch<T> = Ok(body: T) | NotOk(status: int) | Failed

}
