/**
 * The shopping cart: items keyed by product id with a quantity, the totals
 * shown in the header and at checkout, and the edits the storefront makes.
 * The cart kept in local storage is the `items` field here.
 */
module CartManager {
  import opened Js
  import Seqs

  datatype CartItem = CartItem(id: int, name: string, price: int, image: string, quantity: int)

  /** A product of the storefront's static catalog. */
  datatype CatalogProduct = CatalogProduct(id: int, name: string, price: int, image: string, inStock: bool)

  function Quantity(item: CartItem): int {
    item.quantity
  }

  function Subtotal(item: CartItem): int {
    item.price * item.quantity
  }

  /** `getItemCount`: the sum of the quantities. */
  function ItemCount(items: seq<CartItem>): int {
    Seqs.SumOf(items, Quantity)
  }

  /** `getTotal`: the sum of price times quantity. */
  function Total(items: seq<CartItem>): int {
    Seqs.SumOf(items, Subtotal)
  }

  /** `cart.find(item => item.id === id)`, as a position. */
  function IndexOfId(items: seq<CartItem>, id: int): (i: int)
    ensures -1 <= i < |items|
    ensures i >= 0 ==> items[i].id == id && forall j :: 0 <= j < i ==> items[j].id != id
    ensures i == -1 <==> forall j :: 0 <= j < |items| ==> items[j].id != id
  {
    if items == [] then -1
    else if items[0].id == id then 0
    else
      var k := IndexOfId(items[1..], id);
      assert forall j :: 1 <= j < |items| ==> items[j] == items[1..][j - 1];
      if k == -1 then -1 else k + 1
  }

  /**
   * The cart after `addToCart(id, quantity)`: an item already there grows by
   * `quantity`; a new id is appended when the catalog has it in stock;
   * otherwise nothing changes.
   */
  function AfterAdd(items: seq<CartItem>, id: int, quantity: int, catalog: seq<CatalogProduct>): (r: seq<CartItem>)
    ensures var k := IndexOfId(items, id);
      k >= 0 ==> |r| == |items| && r[k] == items[k].(quantity := items[k].quantity + quantity)
                 && forall j :: 0 <= j < |items| && j != k ==> r[j] == items[j]
    ensures var p := Seqs.Find(catalog, (c: CatalogProduct) => c.id == id);
      IndexOfId(items, id) == -1 && p.Some? && p.value.inStock ==>
        r == items + [CartItem(id, p.value.name, p.value.price, p.value.image, quantity)]
    ensures var p := Seqs.Find(catalog, (c: CatalogProduct) => c.id == id);
      IndexOfId(items, id) == -1 && !(p.Some? && p.value.inStock) ==> r == items
  {
    var k := IndexOfId(items, id);
    if k >= 0 then items[k := items[k].(quantity := items[k].quantity + quantity)]
    else
      var p := Seqs.Find(catalog, (c: CatalogProduct) => c.id == id);
      if p.Some? && p.value.inStock then items + [CartItem(id, p.value.name, p.value.price, p.value.image, quantity)]
      else items
  }

  /** Whether `addToCart` changes the cart at all. */
  predicate AddTakesEffect(items: seq<CartItem>, id: int, catalog: seq<CatalogProduct>) {
    var p := Seqs.Find(catalog, (c: CatalogProduct) => c.id == id);
    IndexOfId(items, id) >= 0 || (p.Some? && p.value.inStock)
  }

  /** Adding raises the item count by exactly `quantity` when it takes effect, and by nothing otherwise. */
  lemma {:induction false} AddCount(items: seq<CartItem>, id: int, quantity: int, catalog: seq<CatalogProduct>)
    ensures ItemCount(AfterAdd(items, id, quantity, catalog)) ==
            ItemCount(items) + (if AddTakesEffect(items, id, catalog) then quantity else 0)
  {
    var k := IndexOfId(items, id);
    var r := AfterAdd(items, id, quantity, catalog);
    if k >= 0 {
      assert r == items[k := items[k].(quantity := items[k].quantity + quantity)];
      Seqs.SumOfUpdate(items, k, items[k].(quantity := items[k].quantity + quantity), Quantity);
    } else if AddTakesEffect(items, id, catalog) {
      var p := Seqs.Find(catalog, (c: CatalogProduct) => c.id == id);
      var item := CartItem(id, p.value.name, p.value.price, p.value.image, quantity);
      Seqs.SumOfAppend(items, [item], Quantity);
      assert Seqs.SumOf([item], Quantity) == quantity;
    }
  }

  /** Price of the item `addToCart` would add to or create, when it takes effect. */
  function AddedPrice(items: seq<CartItem>, id: int, catalog: seq<CatalogProduct>): int {
    var k := IndexOfId(items, id);
    var p := Seqs.Find(catalog, (c: CatalogProduct) => c.id == id);
    if k >= 0 then items[k].price else if p.Some? then p.value.price else 0
  }

  /** Adding raises the total by exactly price times `quantity` when it takes effect, and by nothing otherwise. */
  lemma {:induction false} AddTotal(items: seq<CartItem>, id: int, quantity: int, catalog: seq<CatalogProduct>)
    ensures Total(AfterAdd(items, id, quantity, catalog)) ==
            Total(items) + (if AddTakesEffect(items, id, catalog) then AddedPrice(items, id, catalog) * quantity else 0)
  {
    var k := IndexOfId(items, id);
    var r := AfterAdd(items, id, quantity, catalog);
    if k >= 0 {
      var old_ := items[k];
      var new_ := old_.(quantity := old_.quantity + quantity);
      assert r == items[k := new_];
      Seqs.SumOfUpdate(items, k, new_, Subtotal);
      assert Subtotal(new_) == Subtotal(old_) + old_.price * quantity by {
        assert old_.price * (old_.quantity + quantity) == old_.price * old_.quantity + old_.price * quantity;
      }
    } else if AddTakesEffect(items, id, catalog) {
      var p := Seqs.Find(catalog, (c: CatalogProduct) => c.id == id);
      var item := CartItem(id, p.value.name, p.value.price, p.value.image, quantity);
      Seqs.SumOfAppend(items, [item], Subtotal);
      assert Seqs.SumOf([item], Subtotal) == p.value.price * quantity;
    }
  }

  /** Adding never gives two items the same id. */
  lemma {:induction false} AddKeepsIdsDistinct(items: seq<CartItem>, id: int, quantity: int, catalog: seq<CatalogProduct>)
    requires DistinctIds(items)
    ensures DistinctIds(AfterAdd(items, id, quantity, catalog))
  {
    var k := IndexOfId(items, id);
    var r := AfterAdd(items, id, quantity, catalog);
    if k >= 0 {
      forall i, j | 0 <= i < j < |r| ensures r[i].id != r[j].id {
        assert r[i].id == items[i].id && r[j].id == items[j].id;
      }
    }
  }

  predicate DistinctIds(items: seq<CartItem>) {
    forall i, j :: 0 <= i < j < |items| ==> items[i].id != items[j].id
  }

  /** `removeFromCart(id)`: every item with the id goes, the others stay in order. */
  function AfterRemove(items: seq<CartItem>, id: int): (r: seq<CartItem>)
    ensures forall i :: 0 <= i < |r| ==> r[i].id != id
    ensures forall i :: 0 <= i < |items| && items[i].id != id ==> items[i] in r
    ensures Seqs.SubseqOf(r, items)
  {
    Seqs.FilterIsSubseq(items, (it: CartItem) => it.id != id);
    Seqs.Filter(items, (it: CartItem) => it.id != id)
  }

  /** Removing takes away exactly the quantities and the subtotals of the removed items. */
  lemma RemoveTotals(items: seq<CartItem>, id: int)
    ensures var gone := Seqs.Filter(items, (it: CartItem) => it.id == id);
      ItemCount(AfterRemove(items, id)) == ItemCount(items) - ItemCount(gone)
      && Total(AfterRemove(items, id)) == Total(items) - Total(gone)
  {
    var keep := (it: CartItem) => it.id != id;
    var drop := (it: CartItem) => it.id == id;
    Seqs.SumOfFilterSplit(items, keep, drop, Quantity);
    Seqs.SumOfFilterSplit(items, keep, drop, Subtotal);
  }

  class Cart {
    var items: seq<CartItem>

    /** `loadCart`: the saved cart, or an empty one. */
    constructor (saved: Option<seq<CartItem>>)
      ensures items == if saved.Some? then saved.value else []
    {
      items := if saved.Some? then saved.value else [];
    }

    /** `addToCart` always reports success, whatever happened to the cart. */
    method AddToCart(id: int, catalog: seq<CatalogProduct>, quantity: int := 1) returns (ok: bool)
      modifies this
      ensures ok
      ensures items == AfterAdd(old(items), id, quantity, catalog)
    {
      var k := IndexOfId(items, id);
      if k >= 0 {
        items := items[k := items[k].(quantity := items[k].quantity + quantity)];
      } else {
        var p := Seqs.Find(catalog, (c: CatalogProduct) => c.id == id);
        if p.Some? && p.value.inStock {
          items := items + [CartItem(id, p.value.name, p.value.price, p.value.image, quantity)];
        }
      }
      ok := true;
    }

    method RemoveFromCart(id: int)
      modifies this
      ensures items == AfterRemove(old(items), id)
    {
      items := Seqs.Filter(items, (it: CartItem) => it.id != id);
    }

    method ClearCart()
      modifies this
      ensures items == []
    {
      items := [];
    }

    /** `checkout`: nothing on an empty cart; otherwise the order total is reported and the cart emptied. */
    method Checkout() returns (placed: bool, total: int)
      modifies this
      ensures placed <==> old(items) != []
      ensures placed ==> total == Total(old(items)) && items == []
      ensures !placed ==> items == old(items)
    {
      if items == [] {
        return false, 0;
      }
      total := Total(items);
      items := [];
      placed := true;
    }

    function GetTotal(): (t: int)
      reads this
      ensures t == Total(items)
      ensures items == [] ==> t == 0
      ensures (forall i :: 0 <= i < |items| ==> items[i].price >= 0 && items[i].quantity >= 0) ==> t >= 0
    {
      NonNegativeSum(items, Subtotal);
      Total(items)
    }

    function GetItemCount(): (n: int)
      reads this
      ensures n == ItemCount(items)
      ensures items == [] ==> n == 0
      ensures (forall i :: 0 <= i < |items| ==> items[i].quantity >= 0) ==> n >= 0
    {
      NonNegativeSum(items, Quantity);
      ItemCount(items)
    }
  }

  /** A sum of values that are never negative is not negative. */
  lemma {:induction false} NonNegativeSum(s: seq<CartItem>, f: CartItem -> int)
    ensures (forall i :: 0 <= i < |s| ==> f(s[i]) >= 0) ==> Seqs.SumOf(s, f) >= 0
    decreases |s|
  {
    if s != [] {
      NonNegativeSum(s[1..], f);
      assert forall i :: 1 <= i < |s| ==> s[i] == s[1..][i - 1];
    }
  }
}
