/**
 * The product modal of the storefront: what it shows for a product, the
 * category name, and the quantity stepper (the same stepper the home page
 * script installs).
 */
module ModalManager {
  import opened Js
  import opened Text
  import Numbers

  const MIN_QUANTITY := 1
  const MAX_QUANTITY := 10

  datatype ModalProduct = ModalProduct(
    id: int, name: string, category: string, description: string, image: string,
    stock: int, inStock: bool, features: seq<string>)

  /** `categoryNames[category] || 'Ürün'`, with four known keys. */
  function GetCategoryName(category: string): (name: string)
    ensures category == "caylar" ==> name == "Çaylar"
    ensures category == "baklagil" ==> name == "Baklagil"
    ensures category == "baharat" ==> name == "Baharat"
    ensures category == "organik" ==> name == "Organik"
    ensures category !in {"caylar", "baklagil", "baharat", "organik"} ==> name == "Ürün"
  {
    match category
    case "caylar" => "Çaylar"
    case "baklagil" => "Baklagil"
    case "baharat" => "Baharat"
    case "organik" => "Organik"
    case _ => "Ürün"
  }

  const STOCK_PREFIX := "Stok: "
  const STOCK_SUFFIX := " adet"
  const OUT_OF_STOCK := "Stokta yok"

  /** The stock line: the count for a product in stock, else the out-of-stock text. */
  function StockLabel(p: ModalProduct): (line: string)
    ensures p.inStock ==> line == STOCK_PREFIX + IntToString(p.stock) + STOCK_SUFFIX
    ensures !p.inStock ==> line == OUT_OF_STOCK
  {
    if p.inStock then STOCK_PREFIX + IntToString(p.stock) + STOCK_SUFFIX else OUT_OF_STOCK
  }

  /** The stock line of a product in stock reads back as its stock, and never as the out-of-stock text. */
  lemma StockLabelReadsBack(p: ModalProduct)
    requires p.inStock
    ensures var line := StockLabel(p);
      |line| > |STOCK_PREFIX| + |STOCK_SUFFIX| &&
      Numbers.ToNumber(line[|STOCK_PREFIX|..|line| - |STOCK_SUFFIX|]) == Some(p.stock) &&
      line != OUT_OF_STOCK
  {
    var line := StockLabel(p);
    var digits := IntToString(p.stock);
    Middle(STOCK_PREFIX, digits, STOCK_SUFFIX);
    Numbers.IntNumeral(p.stock);
  }

  lemma Middle(a: string, m: string, b: string)
    ensures |a + m + b| == |a| + |m| + |b|
    ensures (a + m + b)[|a|..|a + m + b| - |b|] == m
  {
    var s := a + m + b;
    assert forall i :: 0 <= i < |m| ==> s[|a| + i] == m[i];
  }

  /** What `populateModal` and `setupAddToCartButton` write into the modal. */
  datatype ModalView = ModalView(
    image: string, name: string, categoryName: string, description: string, stockText: string,
    outOfStockStyle: bool, features: seq<string>, quantity: int, buttonDisabled: bool)

  function Populate(p: ModalProduct): (v: ModalView)
    ensures v.buttonDisabled <==> !p.inStock
    ensures v.outOfStockStyle <==> !p.inStock
    ensures v.stockText == StockLabel(p) && v.categoryName == GetCategoryName(p.category)
    ensures v.quantity == MIN_QUANTITY
    ensures v.image == p.image && v.name == p.name && v.description == p.description && v.features == p.features
  {
    ModalView(p.image, p.name, GetCategoryName(p.category), p.description, StockLabel(p),
              !p.inStock, p.features, MIN_QUANTITY, !p.inStock)
  }

  /**
   * `changeQuantity(change)`: the parsed input plus the change, clamped to
   * [1, 10]. An input that does not parse (`NaN`) stays `NaN`, since both
   * comparisons with `NaN` are false.
   */
  method ChangeQuantity(current: Option<int>, change: int) returns (next: Option<int>)
    ensures current.None? ==> next.None?
    ensures current.Some? ==> next.Some? && MIN_QUANTITY <= next.value <= MAX_QUANTITY
    ensures current.Some? && MIN_QUANTITY <= current.value + change <= MAX_QUANTITY ==>
      next == Some(current.value + change)
    ensures current.Some? && current.value + change < MIN_QUANTITY ==> next == Some(MIN_QUANTITY)
    ensures current.Some? && current.value + change > MAX_QUANTITY ==> next == Some(MAX_QUANTITY)
  {
    if current.None? {
      return None;
    }
    var newQuantity := current.value + change;
    if newQuantity < MIN_QUANTITY {
      newQuantity := MIN_QUANTITY;
    }
    if newQuantity > MAX_QUANTITY {
      newQuantity := MAX_QUANTITY;
    }
    next := Some(newQuantity);
  }
}
