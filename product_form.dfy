/**
  The product form both storefront scripts read on submit: every text field is trimmed,
  the price goes through `parseFloat`, and the submit goes ahead only when the name,
  the price and the image are all truthy.
 */
module ProductForm {
  import opened Text
  import opened Js

  /** What `parseFloat(priceInput.value)` gave: NaN, or a finite number. */
  datatype Price = NaN | Number(value: real)

  /** The four raw input values at the moment of the submit. */
  datatype FormInput = FormInput(name: string, price: Price, image: string, description: string)

  /** The price as a JSON value: `JSON.stringify` writes NaN as `null`. */
  function PriceValue(p: Price): (v: JsValue)
    ensures Truthy(v) <==> p.Number? && p.value != 0.0
  {
    match p
    case NaN => Null
    case Number(x) => Num(x)
  }

  /** The `productData` object built from the form, one field per property. */
  datatype ProductData = ProductData(name: JsValue, price: JsValue, image: JsValue, description: JsValue)

  /**
    Each field comes from its own input: the text fields trimmed (so with no white space at
    either end, and each a piece of what was typed), the price through `parseFloat`.
   */
  function Collect(f: FormInput): (data: ProductData)
    ensures data.name == Str(Trim(f.name)) && data.image == Str(Trim(f.image))
    ensures data.description == Str(Trim(f.description))
    ensures data.price == PriceValue(f.price)
    ensures Trimmed(data.name.s) && Trimmed(data.image.s) && Trimmed(data.description.s)
    ensures Contains(f.name, data.name.s) && Contains(f.image, data.image.s)
    ensures Contains(f.description, data.description.s)
  {
    ProductData(Str(Trim(f.name)), PriceValue(f.price), Str(Trim(f.image)), Str(Trim(f.description)))
  }

  /** The object `JSON.stringify(productData)` describes: what the server receives as the request body. */
  function AsObject(data: ProductData): Object {
    map["name" := data.name, "price" := data.price, "image" := data.image, "description" := data.description]
  }

  /**
    `!productData.name || !productData.price || !productData.image` is false: none of the
    three required fields is missing, null or empty.
   */
  predicate Valid(data: ProductData)
    ensures Valid(data) ==> data.name !in {Undefined, Null, Str("")} && data.image !in {Undefined, Null, Str("")}
    ensures Valid(data) ==> data.price !in {Undefined, Null, Num(0.0)}
  {
    Truthy(data.name) && Truthy(data.price) && Truthy(data.image)
  }

  /** A trimmed text field is truthy exactly when the raw input is not blank. */
  lemma TrimmedFieldTruthy(s: string)
    ensures Truthy(Str(Trim(s))) <==> !AllSpace(s)
  {
    TrimEmptyIffAllSpace(s);
  }

  /**
    The validation in terms of the raw form: a name and an image that are not blank
    (white space only counts as blank) and a price that parsed to a number other than 0.
    The description may be anything.
   */
  lemma ValidIff(f: FormInput)
    ensures Valid(Collect(f)) <==>
      && !AllSpace(f.name)
      && f.price.Number? && f.price.value != 0.0
      && !AllSpace(f.image)
  {
    var name, price, image := Str(Trim(f.name)), PriceValue(f.price), Str(Trim(f.image));
    assert Valid(Collect(f)) == (Truthy(name) && Truthy(price) && Truthy(image));
    TrimmedFieldTruthy(f.name);
    TrimmedFieldTruthy(f.image);
  }

  /** Two forms that differ only in their description are accepted or refused alike. */
  lemma DescriptionIrrelevant(f: FormInput, description: string)
    ensures Valid(Collect(f)) == Valid(Collect(f.(description := description)))
  {
    ValidIff(f);
    ValidIff(f.(description := description));
  }

}
