/**
 * A product row as the storefront scripts receive it from `GET /api/products`:
 * every field may be missing (`null`/`undefined`), the id is always there.
 * Prices are whole numbers here.
 */
module Catalog {
  import opened Js

  datatype RawProduct = RawProduct(
    id: int,
    name: Option<string>,
    productType: Option<string>,
    description: Option<string>,
    price: Option<int>,
    category: Option<string>,
    brand: Option<string>,
    image: Option<string>,
    features: Option<seq<string>>,
    stock: Option<int>)

  /** The inline SVG the storefront pages show for a product without an image. */
  const PLACEHOLDER_IMAGE := "data:image/svg+xml,<svg xmlns=\"http://www.w3.org/2000/svg\" viewBox=\"0 0 300 200\"><rect width=\"300\" height=\"200\" fill=\"%23f0f0f0\"/></svg>"

  /** `features || fallback`: any array, even an empty one, is truthy. */
  function FeaturesOr(f: Option<seq<string>>, fallback: seq<string>): (r: seq<string>)
    ensures JList(StrList(r)) == Or(ListValue(f), JList(StrList(fallback)))
    ensures f.Some? ==> r == f.value
    ensures f.None? ==> r == fallback
  {
    if f.Some? then f.value else fallback
  }

  /** An array of strings as a JavaScript value. */
  function StrList(xs: seq<string>): seq<JsValue> {
    seq(|xs|, i requires 0 <= i < |xs| => JStr(xs[i]))
  }

  /** A possibly missing array of strings as a JavaScript value. */
  function ListValue(f: Option<seq<string>>): Option<JsValue> {
    if f.Some? then Some(JList(StrList(f.value))) else None
  }
}
