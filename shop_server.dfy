/**
  The shop back end: one in-memory `products` array behind five routes. Each route
  handler is a method of `ProductStore`; the clock value that `Date.now()` supplies
  and the `:id` path parameter are arguments.
 */
module ShopServer {
  import opened Options
  import opened Js
  import opened Catalog

  /** What a handler sends with `res.json`: the whole list, one product, or a `{ message }` object. */
  datatype Body = List(items: seq<Product>) | One(item: Product) | Note(message: string)

  datatype Response = Response(status: int, body: Body)

  /** `{ id: Date.now(), ...req.body }`: a body that carries its own `id` overrides the clock value. */
  function NewProduct(now: int, body: Object): (p: Product)
    ensures p.Keys == {"id"} + body.Keys
    ensures IdOf(p) == if "id" in body then body["id"] else Num(now as real)
    ensures forall k :: k in body ==> p[k] == body[k]
  {
    Spread(map["id" := Num(now as real)], body)
  }

  /** The id a `:id` path parameter selects: `parseInt` of it, or None for NaN (which no id equals). */
  function ParamId(param: string): (id: Option<JsValue>)
    ensures id.Some? <==> ParseInt(param).Some?
    ensures id.Some? ==> id.value == Num(ParseInt(param).value as real)
  {
    match ParseInt(param)
    case None => None
    case Some(n) => Some(Num(n as real))
  }

  /** The index a PUT updates: the first product whose id is the parameter's. */
  function PutIndex(ps: seq<Product>, param: string): (i: Option<nat>)
    ensures i.Some? ==> i.value < |ps| && ParamId(param).Some? && IdOf(ps[i.value]) == ParamId(param).value
    ensures i.Some? ==> forall j :: 0 <= j < i.value ==> IdOf(ps[j]) != ParamId(param).value
    ensures i.None? <==> ParamId(param).None? || forall j :: 0 <= j < |ps| ==> IdOf(ps[j]) != ParamId(param).value
  {
    match ParamId(param)
    case None => None
    case Some(id) => IndexOfId(ps, id)
  }

  /** The list a DELETE by id leaves: every product with the parameter's id is gone. */
  function Deleted(ps: seq<Product>, param: string): (r: seq<Product>)
    ensures ParamId(param).None? ==> r == ps
    ensures ParamId(param).Some? ==> forall p :: p in r <==> p in ps && IdOf(p) != ParamId(param).value
  {
    match ParamId(param)
    case None => ps
    case Some(id) => WithoutId(ps, id)
  }

  /** The server's list of products and its route handlers. */
  class ProductStore {
    var products: seq<Product>

    /** `let products = [];` */
    constructor()
      ensures products == []
    {
      products := [];
    }

    /** GET /api/products: the current list, unchanged. */
    method GetAll() returns (r: Response)
      ensures r.status == 200 && r.body == List(products)
    {
      r := Response(200, List(products));
    }

    /** POST /api/products: exactly one new product, at the end, echoed back with status 201. */
    method Post(now: int, body: Object) returns (r: Response)
      modifies this
      ensures products == old(products) + [NewProduct(now, body)]
      ensures r == Response(201, One(NewProduct(now, body)))
    {
      var p := NewProduct(now, body);
      products := products + [p];
      r := Response(201, One(p));
    }

    /**
      PUT /api/products/:id: the body's fields are merged over the first product with that id,
      every other entry stays as it was; with no such product the answer is 404 and nothing changes.
     */
    method Put(param: string, body: Object) returns (r: Response)
      modifies this
      ensures PutIndex(old(products), param).Some? ==>
        var i := PutIndex(old(products), param).value;
        && products == old(products)[i := Spread(old(products)[i], body)]
        && r == Response(200, One(products[i]))
      ensures PutIndex(old(products), param).None? ==>
        products == old(products) && r == Response(404, Note("Product not found"))
    {
      var index := PutIndex(products, param);
      if index.Some? {
        var i := index.value;
        products := products[i := Spread(products[i], body)];
        r := Response(200, One(products[i]));
      } else {
        r := Response(404, Note("Product not found"));
      }
    }

    /** DELETE /api/products/:id: the list without that id; the same answer whether or not anything matched. */
    method DeleteById(param: string) returns (r: Response)
      modifies this
      ensures products == Deleted(old(products), param)
      ensures r == Response(200, Note("Product deleted"))
    {
      products := Deleted(products, param);
      r := Response(200, Note("Product deleted"));
    }

    /** DELETE /api/products: the list is emptied. */
    method DeleteAll() returns (r: Response)
      modifies this
      ensures products == []
      ensures r == Response(200, Note("All products cleared"))
    {
      products := [];
      r := Response(200, Note("All products cleared"));
    }
  }

  /** A PUT never changes a product's id unless the body carries one. */
  lemma PutKeepsId(ps: seq<Product>, param: string, body: Object)
    requires PutIndex(ps, param).Some? && "id" !in body
    ensures var i := PutIndex(ps, param).value;
      IdOf(Spread(ps[i], body)) == IdOf(ps[i])
  {
  }

  /** The text `${id}` of an integer id selects that id on the server. */
  lemma ParamOfIntegerId(n: int)
    requires PlainNotation(n)
    ensures ParamId(Decimal(n)) == Some(Num(n as real))
  {
    IdTextRoundTrip(n);
  }

  /** Deleting by the decimal text of an integer id removes exactly the products with that id, keeping order. */
  lemma DeleteByIntegerId(ps: seq<Product>, n: int)
    requires PlainNotation(n)
    ensures Deleted(ps, Decimal(n)) == WithoutId(ps, Num(n as real))
  {
    ParamOfIntegerId(n);
  }

  /** A parameter that is not a number deletes nothing and updates nothing. */
  lemma NotANumberChangesNothing(ps: seq<Product>, param: string)
    requires ParseInt(param).None?
    ensures Deleted(ps, param) == ps && PutIndex(ps, param).None?
  {
  }

}
