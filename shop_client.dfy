/**
  The shop page script: a local copy of the product list kept in step with the server,
  and the edit mode held in `editingId` (`null` when the form adds, a product id when it
  updates). Each `fetch` the page makes is an argument, and so is the answer to `confirm`.
 */
module ShopClient {
  import opened Options
  import opened Js
  import opened Catalog
  import opened ProductForm

  /** How a submit of the product form ended. */
  datatype SubmitOutcome =
    | Refused  // the validation alert: nothing was sent
    | Updated  // the PUT succeeded
    | Added    // the POST succeeded
    | Errored  // the request failed; the error was logged and nothing changed

  /**
    `const index = products.findIndex(p => p.id === id); if (index !== -1) products[index] = replacement;`:
    the first product with that id is replaced, and only it.
   */
  function ReplaceFirst(ps: seq<Product>, id: JsValue, replacement: Product): (r: seq<Product>)
    ensures |r| == |ps|
    ensures IndexOfId(ps, id).None? ==> r == ps
    ensures IndexOfId(ps, id).Some? ==>
      var i := IndexOfId(ps, id).value;
      r[i] == replacement && forall j :: 0 <= j < |ps| && j != i ==> r[j] == ps[j]
  {
    match IndexOfId(ps, id)
    case None => ps
    case Some(i) => ps[i := replacement]
  }

  class ProductPage {
    var products: seq<Product>
    var editingId: JsValue

    /** `let products = []; let editingId = null;` */
    constructor()
      ensures products == [] && editingId == Null
    {
      products := [];
      editingId := Null;
    }

    /** `loadProducts`: an ok answer replaces the whole list; any failure leaves it. */
    method Load(response: Fetch<seq<Product>>)
      modifies this
      ensures products == (if response.Ok? then response.body else old(products))
      ensures editingId == old(editingId)
    {
      if response.Ok? {
        products := response.body;
      }
    }

    /**
      `addProduct`: only an ok answer appends, and what is appended is the product the
      server returned (with its id), not the data that was sent. The result is that
      product, or None where the script rethrows.
     */
    method AddProduct(data: ProductData, response: Fetch<Product>) returns (added: Option<Product>)
      modifies this
      ensures added == (if response.Ok? then Some(response.body) else None)
      ensures products == (if response.Ok? then old(products) + [response.body] else old(products))
      ensures editingId == old(editingId)
    {
      if response.Ok? {
        products := products + [response.body];
        added := Some(response.body);
      } else {
        added := None;
      }
    }

    /** `startEditProduct`: enter edit mode for a listed id; an unknown id changes nothing. */
    method StartEdit(id: JsValue)
      modifies this
      ensures products == old(products)
      ensures editingId == (if IndexOfId(products, id).Some? then id else old(editingId))
    {
      var found := IndexOfId(products, id);
      if found.Some? {
        editingId := id;
      }
    }

    /** `cancelEdit`: back to add mode. */
    method CancelEdit()
      modifies this
      ensures editingId == Null && products == old(products)
    {
      editingId := Null;
    }

    /** `deleteProduct`: after a confirmed, ok DELETE every product with that id is removed locally. */
    method Delete(id: JsValue, confirmed: bool, response: Fetch<()>)
      modifies this
      ensures products == (if confirmed && response.Ok? then WithoutId(old(products), id) else old(products))
      ensures editingId == old(editingId)
    {
      if !confirmed {
        return;
      }
      if response.Ok? {
        products := WithoutId(products, id);
      }
    }

    /** The clear-all button: after a confirmed, ok DELETE the local list is empty. */
    method ClearAll(confirmed: bool, response: Fetch<()>)
      modifies this
      ensures products == (if confirmed && response.Ok? then [] else old(products))
      ensures editingId == old(editingId)
    {
      if confirmed && response.Ok? {
        products := [];
      }
    }

    /**
      The submit handler. An invalid form is refused before any request. In edit mode
      (a truthy `editingId`) the PUT's answer replaces the first product with that id and
      edit mode ends; a failed PUT keeps both the list and edit mode. Otherwise the form
      data is added through `AddProduct`. Only the request the mode calls for is used.
     */
    method Submit(form: FormInput, putResponse: Fetch<Product>, postResponse: Fetch<Product>)
      returns (outcome: SubmitOutcome)
      modifies this
      ensures !Valid(Collect(form)) ==>
        outcome == Refused && products == old(products) && editingId == old(editingId)
      ensures Valid(Collect(form)) && Truthy(old(editingId)) ==>
        if putResponse.Ok? then
          && outcome == Updated
          && products == ReplaceFirst(old(products), old(editingId), putResponse.body)
          && editingId == Null
        else
          outcome == Errored && products == old(products) && editingId == old(editingId)
      ensures Valid(Collect(form)) && !Truthy(old(editingId)) ==>
        && editingId == old(editingId)
        && if postResponse.Ok? then
             outcome == Added && products == old(products) + [postResponse.body]
           else
             outcome == Errored && products == old(products)
    {
      var data := Collect(form);
      if !Valid(data) {
        return Refused;
      }
      if Truthy(editingId) {
        if putResponse.Ok? {
          products := ReplaceFirst(products, editingId, putResponse.body);
          CancelEdit();
          outcome := Updated;
        } else {
          outcome := Errored;
        }
      } else {
        var added := AddProduct(data, postResponse);
        outcome := if added.Some? then Added else Errored;
      }
    }
  }

  /** Replacing the entry of an id the list lacks is no change at all. */
  lemma ReplaceMissing(ps: seq<Product>, id: JsValue, replacement: Product)
    requires forall j :: 0 <= j < |ps| ==> IdOf(ps[j]) != id
    ensures ReplaceFirst(ps, id, replacement) == ps
  {
  }

  /**
    Replacing the product under edit with the server's copy of it (same id) keeps every
    id where it was, so a later lookup by that id still finds the same position.
   */
  lemma ReplaceKeepsIds(ps: seq<Product>, id: JsValue, replacement: Product)
    requires IdOf(replacement) == id
    ensures var r := ReplaceFirst(ps, id, replacement);
      forall j :: 0 <= j < |ps| ==> IdOf(r[j]) == IdOf(ps[j])
  {
  }

}
