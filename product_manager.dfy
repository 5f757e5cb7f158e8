/**
 * The home-page product grid component (`ProductManager`): the normalised
 * catalog, the category / search / price filters with a sort, and the
 * read-only helpers over the catalog. The name order (`localeCompare`) is
 * the parameter `nameBefore`.
 */
module ProductManager {
  import opened Js
  import opened Text
  import opened Catalog
  import Seqs

  const DEFAULT_FEATURES := ["Doğal", "Kaliteli", "Taze"]

  datatype Product = Product(
    id: int, name: string, description: string, price: int, category: string, brand: string,
    image: string, features: seq<string>, inStock: bool, stock: int)

  /** The map applied to the backend rows. */
  function Normalize(raw: RawProduct): (p: Product)
    ensures p.id == raw.id
    ensures p.inStock <==> raw.stock.Some? && raw.stock.value > 0
    ensures p.stock == NumOr(raw.stock, 0) && p.price == NumOr(raw.price, 0)
    ensures p.name == StrOr(raw.name, "Ürün") && p.description == StrOr(raw.description, "Açıklama mevcut değil")
    ensures p.category == StrOr(raw.category, "genel") && p.brand == StrOr(raw.brand, "")
    ensures p.image == StrOr(raw.image, PLACEHOLDER_IMAGE) && p.features == FeaturesOr(raw.features, DEFAULT_FEATURES)
  {
    Product(raw.id, StrOr(raw.name, "Ürün"), StrOr(raw.description, "Açıklama mevcut değil"),
            NumOr(raw.price, 0), StrOr(raw.category, "genel"), StrOr(raw.brand, ""),
            StrOr(raw.image, PLACEHOLDER_IMAGE), FeaturesOr(raw.features, DEFAULT_FEATURES),
            raw.stock.Some? && raw.stock.value > 0, NumOr(raw.stock, 0))
  }

  /** After normalisation the stock flag and the stock count agree: in stock iff the count is positive. */
  lemma InStockIffPositive(raw: RawProduct)
    ensures Normalize(raw).inStock <==> Normalize(raw).stock > 0
  {
  }

  // ----- loadProducts -----

  predicate CategoryOk(p: Product, category: string) {
    category == "all" || p.category == category
  }

  /** `searchTerm` is stored lower-cased, so only the product's text is lowered here. */
  predicate SearchOk(p: Product, term: string) {
    term == "" || Contains(Lower(p.name), term) || Contains(Lower(p.description), term)
  }

  predicate PriceOk(p: Product, maxPrice: int) {
    p.price <= maxPrice
  }

  function ByCategory(s: seq<Product>, category: string): seq<Product> {
    if category != "all" then Seqs.Filter(s, (p: Product) => p.category == category) else s
  }

  function BySearch(s: seq<Product>, term: string): seq<Product> {
    if term != "" then Seqs.Filter(s, (p: Product) => Contains(Lower(p.name), term) || Contains(Lower(p.description), term)) else s
  }

  function ByPrice(s: seq<Product>, maxPrice: int): seq<Product> {
    Seqs.Filter(s, (p: Product) => p.price <= maxPrice)
  }

  function IdUp(a: Product, b: Product): bool { a.id <= b.id }
  function PriceUp(a: Product, b: Product): bool { a.price <= b.price }
  function PriceDown(a: Product, b: Product): bool { b.price <= a.price }

  /** The sort switch: 'price-low', 'price-high', 'name', and by ascending id for anything else. */
  function Arrange(s: seq<Product>, sort: string, nameBefore: (string, string) -> bool): (r: seq<Product>)
    ensures multiset(r) == multiset(s)
  {
    if sort == "price-low" then Seqs.Sort(s, PriceUp)
    else if sort == "price-high" then Seqs.Sort(s, PriceDown)
    else if sort == "name" then Seqs.Sort(s, (a: Product, b: Product) => nameBefore(a.name, b.name))
    else Seqs.Sort(s, IdUp)
  }

  /** `filteredProducts` as `loadProducts` computes it. */
  function Shown(s: seq<Product>, category: string, term: string, maxPrice: int, sort: string,
                 nameBefore: (string, string) -> bool): seq<Product> {
    Arrange(ByPrice(BySearch(ByCategory(s, category), term), maxPrice), sort, nameBefore)
  }

  lemma ByCategoryKeeps(s: seq<Product>, category: string)
    ensures ByCategory(s, category) == Seqs.Filter(s, (p: Product) => CategoryOk(p, category))
  {
    if category != "all" {
      Seqs.FilterSame(s, (p: Product) => p.category == category, (p: Product) => CategoryOk(p, category));
    } else {
      Seqs.FilterAll(s, (p: Product) => CategoryOk(p, category));
    }
  }

  lemma BySearchKeeps(s: seq<Product>, term: string)
    ensures BySearch(s, term) == Seqs.Filter(s, (p: Product) => SearchOk(p, term))
  {
    if term != "" {
      Seqs.FilterSame(s, (p: Product) => Contains(Lower(p.name), term) || Contains(Lower(p.description), term),
                      (p: Product) => SearchOk(p, term));
    } else {
      Seqs.FilterAll(s, (p: Product) => SearchOk(p, term));
    }
  }

  /**
   * A product is shown iff it is in the catalog and all three conditions
   * hold, each as many times as in the catalog; the shown list is the
   * filtered list reordered.
   */
  lemma {:induction false} ShownSpec(s: seq<Product>, category: string, term: string, maxPrice: int, sort: string,
                                    nameBefore: (string, string) -> bool)
    ensures var keep := (p: Product) => CategoryOk(p, category) && SearchOk(p, term) && PriceOk(p, maxPrice);
      multiset(Shown(s, category, term, maxPrice, sort, nameBefore)) == multiset(Seqs.Filter(s, keep))
    ensures forall p :: p in Shown(s, category, term, maxPrice, sort, nameBefore) <==>
      p in s && CategoryOk(p, category) && SearchOk(p, term) && PriceOk(p, maxPrice)
  {
    var fc := (p: Product) => CategoryOk(p, category);
    var fs := (p: Product) => SearchOk(p, term);
    var fp := (p: Product) => p.price <= maxPrice;
    var fcs := (p: Product) => fc(p) && fs(p);
    var keep := (p: Product) => CategoryOk(p, category) && SearchOk(p, term) && PriceOk(p, maxPrice);
    ByCategoryKeeps(s, category);
    BySearchKeeps(ByCategory(s, category), term);
    Seqs.FilterTwice(s, fc, fs, fcs);
    Seqs.FilterTwice(s, fcs, fp, keep);
    var f := Seqs.Filter(s, keep);
    assert ByPrice(BySearch(ByCategory(s, category), term), maxPrice) == f;
    var r := Shown(s, category, term, maxPrice, sort, nameBefore);
    assert multiset(r) == multiset(f);
    forall p ensures p in r <==> p in s && keep(p) {
      assert p in r <==> p in multiset(r);
      assert p in f <==> p in multiset(f);
      if p in s && keep(p) {
        var i :| 0 <= i < |s| && s[i] == p;
        assert s[i] in f;
      }
    }
  }

  /** The default order lists ids in ascending order, and the price orders are monotone. */
  lemma {:induction false} ShownOrder(s: seq<Product>, sort: string, nameBefore: (string, string) -> bool, i: int, j: int)
    requires 0 <= i <= j < |s|
    ensures sort != "price-low" && sort != "price-high" && sort != "name" ==>
      Arrange(s, sort, nameBefore)[i].id <= Arrange(s, sort, nameBefore)[j].id
    ensures Arrange(s, "price-low", nameBefore)[i].price <= Arrange(s, "price-low", nameBefore)[j].price
    ensures Arrange(s, "price-high", nameBefore)[i].price >= Arrange(s, "price-high", nameBefore)[j].price
  {
    Seqs.SortSorted(s, IdUp);
    Seqs.SortedByKey(Seqs.Sort(s, IdUp), (p: Product) => p.id, i, j);
    Seqs.SortSorted(s, PriceUp);
    Seqs.SortedByKey(Seqs.Sort(s, PriceUp), (p: Product) => p.price, i, j);
    Seqs.SortSorted(s, PriceDown);
    var down := Seqs.Sort(s, PriceDown);
    assert Seqs.Sorted(down, (a: Product, b: Product) => (-a.price) <= (-b.price)) by {
      forall k | 0 <= k < |down| - 1 ensures -down[k].price <= -down[k + 1].price {
        assert PriceDown(down[k], down[k + 1]);
      }
    }
    Seqs.SortedByKey(down, (p: Product) => -p.price, i, j);
  }

  /** `categoryNames[category] || 'Ürün'`. */
  function GetCategoryName(category: string): (name: string)
    ensures category == "caylar" ==> name == "Çaylar"
    ensures category == "baklagil" ==> name == "Baklagil"
    ensures category == "baharat" ==> name == "Baharat"
    ensures category == "organik" ==> name == "Organik"
    ensures category == "kuruyemis" ==> name == "Kuruyemiş"
    ensures category !in {"caylar", "baklagil", "baharat", "organik", "kuruyemis"} ==> name == "Ürün"
  {
    match category
    case "caylar" => "Çaylar"
    case "baklagil" => "Baklagil"
    case "baharat" => "Baharat"
    case "organik" => "Organik"
    case "kuruyemis" => "Kuruyemiş"
    case _ => "Ürün"
  }

  class Manager {
    var products: seq<Product>
    var filteredProducts: seq<Product>
    var currentCategory: string
    var currentPriceRange: int
    var currentSort: string
    var searchTerm: string
    const nameBefore: (string, string) -> bool

    constructor (nameBefore: (string, string) -> bool)
      ensures products == [] && filteredProducts == []
      ensures currentCategory == "all" && currentPriceRange == 300 && currentSort == "default" && searchTerm == ""
      ensures this.nameBefore == nameBefore
    {
      products := [];
      filteredProducts := [];
      currentCategory := "all";
      currentPriceRange := 300;
      currentSort := "default";
      searchTerm := "";
      this.nameBefore := nameBefore;
    }

    /** `loadProductsFromBackend` on a successful response: `data.data || []`, normalised. */
    method LoadFromBackend(rows: Option<seq<RawProduct>>)
      modifies this`products
      ensures var data := if rows.Some? then rows.value else [];
        |products| == |data| && forall i :: 0 <= i < |data| ==> products[i] == Normalize(data[i])
    {
      var data := if rows.Some? then rows.value else [];
      products := seq(|data|, i requires 0 <= i < |data| => Normalize(data[i]));
    }

    method LoadProducts()
      modifies this`filteredProducts
      ensures filteredProducts == Shown(products, currentCategory, searchTerm, currentPriceRange, currentSort, nameBefore)
    {
      var filtered := products;
      var category, term, maxPrice := currentCategory, searchTerm, currentPriceRange;
      if category != "all" {
        filtered := Seqs.Filter(filtered, (p: Product) => p.category == category);
      }
      if term != "" {
        filtered := Seqs.Filter(filtered, (p: Product) => Contains(Lower(p.name), term) || Contains(Lower(p.description), term));
      }
      filtered := Seqs.Filter(filtered, (p: Product) => p.price <= maxPrice);
      filtered := Arrange(filtered, currentSort, nameBefore);
      filteredProducts := filtered;
    }

    /** The search box: the term is stored lower-cased. */
    method SetSearch(value: string)
      modifies this`searchTerm, this`filteredProducts
      ensures searchTerm == Lower(value)
      ensures filteredProducts == Shown(products, currentCategory, searchTerm, currentPriceRange, currentSort, nameBefore)
    {
      searchTerm := Lower(value);
      LoadProducts();
    }

    method SetPriceRange(maxPrice: int)
      modifies this`currentPriceRange, this`filteredProducts
      ensures currentPriceRange == maxPrice
      ensures filteredProducts == Shown(products, currentCategory, searchTerm, currentPriceRange, currentSort, nameBefore)
    {
      currentPriceRange := maxPrice;
      LoadProducts();
    }

    method SetSort(sort: string)
      modifies this`currentSort, this`filteredProducts
      ensures currentSort == sort
      ensures filteredProducts == Shown(products, currentCategory, searchTerm, currentPriceRange, currentSort, nameBefore)
    {
      currentSort := sort;
      LoadProducts();
    }

    method FilterByCategory(category: string)
      modifies this`currentCategory, this`filteredProducts
      ensures currentCategory == category
      ensures filteredProducts == Shown(products, currentCategory, searchTerm, currentPriceRange, currentSort, nameBefore)
    {
      currentCategory := category;
      LoadProducts();
    }

    /** `products.find(p => p.id === id)`. */
    function GetProduct(id: int): (r: Option<Product>)
      reads this
      ensures r.Some? <==> exists i | 0 <= i < |products| :: products[i].id == id
      ensures r.Some? ==> exists i | 0 <= i < |products| ::
        products[i] == r.value && r.value.id == id && forall j | 0 <= j < i :: products[j].id != id
    {
      Seqs.Find(products, (p: Product) => p.id == id)
    }

    /** The number of catalog positions holding a product of that category. */
    function GetCategoryCount(category: string): (n: nat)
      reads this
      ensures n == |set i | 0 <= i < |products| && products[i].category == category|
      ensures n <= |products|
    {
      var keep := (p: Product) => p.category == category;
      Seqs.CountWhereIndices(products, keep);
      assert Seqs.Positions(products, keep) == set i | 0 <= i < |products| && products[i].category == category;
      Seqs.CountWhere(products, keep)
    }

    /** Exactly the in-stock products, in catalog order. */
    function GetInStockProducts(): (r: seq<Product>)
      reads this
      ensures Seqs.SubseqOf(r, products)
      ensures forall i :: 0 <= i < |r| ==> r[i].inStock
      ensures forall i :: 0 <= i < |products| && products[i].inStock ==> products[i] in r
    {
      Seqs.FilterIsSubseq(products, (p: Product) => p.inStock);
      Seqs.Filter(products, (p: Product) => p.inStock)
    }

    /** Exactly the products priced within `[min, max]`, both ends included, in catalog order. */
    function GetProductsByPriceRange(min: int, max: int): (r: seq<Product>)
      reads this
      ensures Seqs.SubseqOf(r, products)
      ensures forall i :: 0 <= i < |r| ==> min <= r[i].price <= max
      ensures forall i :: 0 <= i < |products| && min <= products[i].price <= max ==> products[i] in r
    {
      Seqs.FilterIsSubseq(products, (p: Product) => p.price >= min && p.price <= max);
      Seqs.Filter(products, (p: Product) => p.price >= min && p.price <= max)
    }
  }
}
