/**
  The storefront script: the same product list and add path as the shop page, without
  edit mode, plus the search box. A search filters the list for display only: it swaps
  the filtered list in, renders it, and puts the original back.
 */
module Storefront {
  import opened Options
  import opened Text
  import opened Js
  import opened Catalog
  import opened ProductForm

  /** How a submit of the product form ended. */
  datatype SubmitOutcome =
    | Refused  // the validation alert: nothing was sent
    | Added    // the POST succeeded
    | Errored  // the request failed; the error was logged and nothing changed

  /**
    The filter callback `name.toLowerCase().includes(term) || description.toLowerCase().includes(term)`.
    None stands for the TypeError thrown when a property read by it is not a string; the
    description is read only when the name did not match.
   */
  function Matches(p: Product, term: string): (m: Option<bool>)
    ensures m.None? <==>
      !Get(p, "name").Str? || (!Contains(Lower(Get(p, "name").s), term) && !Get(p, "description").Str?)
    ensures m == Some(true) <==>
      && Get(p, "name").Str?
      && (|| Contains(Lower(Get(p, "name").s), term)
          || (Get(p, "description").Str? && Contains(Lower(Get(p, "description").s), term)))
  {
    match Get(p, "name")
    case Str(name) =>
      if Contains(Lower(name), term) then Some(true)
      else (
        match Get(p, "description")
        case Str(description) => Some(Contains(Lower(description), term))
        case _ => None
      )
    case _ => None
  }

  /**
    `ps.filter(keep)` with a callback that may throw (None): the kept products in list
    order, or None as soon as the callback throws.
   */
  function Filter(ps: seq<Product>, keep: Product -> Option<bool>): (r: Option<seq<Product>>)
    ensures r.Some? ==> |r.value| <= |ps|
    ensures r.Some? ==> forall k :: 0 <= k < |r.value| ==> keep(r.value[k]) == Some(true)
  {
    if ps == [] then Some([])
    else
      var rest := Filter(ps[1..], keep);
      match keep(ps[0])
      case None => None
      case Some(hit) =>
        match rest
        case None => None
        case Some(tail) => Some(if hit then [ps[0]] + tail else tail)
  }

  /** The search's `products.filter(...)`: the products matching the term, or None when a callback throws. */
  function Hits(ps: seq<Product>, term: string): (r: Option<seq<Product>>)
    ensures r.Some? ==> |r.value| <= |ps|
    ensures r.Some? ==> forall k :: 0 <= k < |r.value| ==> Matches(r.value[k], term) == Some(true)
  {
    Filter(ps, p => Matches(p, term))
  }

  /** The filter throws exactly when the callback throws on some product. */
  lemma {:induction false} FilterThrows(ps: seq<Product>, keep: Product -> Option<bool>)
    ensures Filter(ps, keep).None? <==> exists j :: 0 <= j < |ps| && keep(ps[j]).None?
  {
    if ps != [] {
      FilterThrows(ps[1..], keep);
      assert forall j :: 1 <= j < |ps| ==> ps[j] == ps[1..][j - 1];
      if keep(ps[0]).None? {
        assert Filter(ps, keep).None?;
      } else {
        assert Filter(ps, keep).None? <==> Filter(ps[1..], keep).None?;
        if Filter(ps[1..], keep).None? {
          var j :| 0 <= j < |ps[1..]| && keep(ps[1..][j]).None?;
          assert keep(ps[j + 1]).None?;
        }
      }
    }
  }

  /** The filter keeps exactly the listed products the callback accepts: nothing is lost and nothing is invented. */
  lemma {:induction false} FilterMembers(ps: seq<Product>, keep: Product -> Option<bool>)
    requires Filter(ps, keep).Some?
    ensures forall p :: p in Filter(ps, keep).value <==> p in ps && keep(p) == Some(true)
  {
    if ps != [] {
      var tail := Filter(ps[1..], keep).value;
      FilterMembers(ps[1..], keep);
      assert ps == [ps[0]] + ps[1..];
      if keep(ps[0]) == Some(true) {
        assert Filter(ps, keep).value == [ps[0]] + tail;
      } else {
        assert Filter(ps, keep).value == tail;
      }
    }
  }

  /** The filter keeps the kept products in list order: it distributes over concatenation. */
  lemma {:induction false} FilterAppend(a: seq<Product>, b: seq<Product>, keep: Product -> Option<bool>)
    requires Filter(a, keep).Some? && Filter(b, keep).Some?
    ensures Filter(a + b, keep) == Some(Filter(a, keep).value + Filter(b, keep).value)
  {
    var right := Filter(b, keep).value;
    if a == [] {
      assert a + b == b;
      assert Filter(a, keep) == Some([]);
      assert [] + right == right;
    } else {
      var ab := a + b;
      assert ab[1..] == a[1..] + b;
      assert ab[0] == a[0];
      var tail := Filter(a[1..], keep).value;
      FilterAppend(a[1..], b, keep);
      assert Filter(ab[1..], keep) == Some(tail + right);
      if keep(a[0]) == Some(true) {
        assert Filter(ab, keep) == Some([a[0]] + (tail + right));
        assert [a[0]] + (tail + right) == ([a[0]] + tail) + right;
      } else {
        assert Filter(ab, keep) == Some(tail + right);
      }
    }
  }

  /**
    What a search shows: the whole list for a blank term; otherwise the listed products that
    match the lowered, trimmed term (None: the search threw).
   */
  function SearchResult(ps: seq<Product>, raw: string): (r: Option<seq<Product>>)
    ensures Trim(Lower(raw)) == [] ==> r == Some(ps)
    ensures r.Some? && Trim(Lower(raw)) != [] ==>
      forall p :: p in r.value <==> p in ps && Matches(p, Trim(Lower(raw))) == Some(true)
  {
    var term := Trim(Lower(raw));
    if term == [] then Some(ps)
    else
      var keep := p => Matches(p, term);
      if Filter(ps, keep).None? then None
      else
        FilterMembers(ps, keep);
        Filter(ps, keep)
  }

  class Shop {
    var products: seq<Product>

    /** `let products = [];` */
    constructor()
      ensures products == []
    {
      products := [];
    }

    /** `loadProducts`: an ok answer replaces the whole list; any failure leaves it. */
    method Load(response: Fetch<seq<Product>>)
      modifies this
      ensures products == (if response.Ok? then response.body else old(products))
    {
      if response.Ok? {
        products := response.body;
      }
    }

    /** `addProduct`: only an ok answer appends, and what is appended is the server's product. */
    method AddProduct(data: ProductData, response: Fetch<Product>) returns (added: Option<Product>)
      modifies this
      ensures added == (if response.Ok? then Some(response.body) else None)
      ensures products == (if response.Ok? then old(products) + [response.body] else old(products))
    {
      if response.Ok? {
        products := products + [response.body];
        added := Some(response.body);
      } else {
        added := None;
      }
    }

    /** The submit handler: refuse an invalid form before any request, otherwise add it. */
    method Submit(form: FormInput, response: Fetch<Product>) returns (outcome: SubmitOutcome)
      modifies this
      ensures !Valid(Collect(form)) ==> outcome == Refused && products == old(products)
      ensures Valid(Collect(form)) ==>
        if response.Ok? then outcome == Added && products == old(products) + [response.body]
        else outcome == Errored && products == old(products)
    {
      var data := Collect(form);
      if !Valid(data) {
        return Refused;
      }
      var added := AddProduct(data, response);
      outcome := if added.Some? then Added else Errored;
    }

    /**
      `searchProducts`: shows the result of the search, and the list afterwards is the list
      before, since the filtered list is swapped in only for rendering.
     */
    method Search(raw: string) returns (shown: Option<seq<Product>>)
      modifies this
      ensures shown == SearchResult(old(products), raw)
      ensures products == old(products)
    {
      var term := Trim(Lower(raw));
      if term == [] {
        shown := Some(products);
        return;
      }
      var filtered := Hits(products, term);
      if filtered.None? {
        shown := None;
        return;
      }
      var original := products;
      products := filtered.value;
      shown := Some(products);
      products := original;
    }
  }

  /** A blank search box (empty or white space only) shows the whole list. */
  lemma BlankSearchShowsAll(ps: seq<Product>, raw: string)
    requires AllSpace(raw)
    ensures SearchResult(ps, raw) == Some(ps)
  {
    assert AllSpace(Lower(raw)) by {
      forall i | 0 <= i < |raw| ensures IsJsSpace(Lower(raw)[i]) {
        assert IsJsSpace(raw[i]);
      }
    }
    TrimEmptyIffAllSpace(Lower(raw));
  }

  /** The search ignores the case of what is typed. */
  lemma SearchIgnoresCase(ps: seq<Product>, raw: string)
    ensures SearchResult(ps, raw) == SearchResult(ps, Lower(raw))
  {
    LowerIdempotent(raw);
  }

  /** A product whose name contains the typed text, in whatever case, is among the hits. */
  lemma NameHitIgnoresCase(p: Product, typed: string)
    requires Get(p, "name").Str? && Contains(Get(p, "name").s, typed)
    ensures Matches(p, Lower(typed)) == Some(true)
  {
    ContainsLowered(Get(p, "name").s, typed);
  }

}
