/**
 * The product detail page: the normalised catalog, the product shown, its
 * related products and the favourites list (the list kept in local storage
 * is a field here).
 */
module ProductDetail {
  import opened Js
  import opened Catalog
  import Seqs

  const DEFAULT_FEATURES := ["Doğal ve organik", "Yüksek kalite", "Günlük taze"]
  const RELATED_LIMIT := 4

  datatype Product = Product(
    id: int, name: string, description: string, price: int, category: string, brand: string,
    image: string, features: seq<string>, stock: int)

  function Normalize(raw: RawProduct): (p: Product)
    ensures p.id == raw.id
    ensures p.name == StrOr(raw.name, "Ürün") && p.description == StrOr(raw.description, "Açıklama mevcut değil")
    ensures p.price == NumOr(raw.price, 0) && p.stock == NumOr(raw.stock, 0)
    ensures p.category == StrOr(raw.category, "genel") && p.brand == StrOr(raw.brand, "")
    ensures p.image == StrOr(raw.image, PLACEHOLDER_IMAGE) && p.features == FeaturesOr(raw.features, DEFAULT_FEATURES)
  {
    Product(raw.id, StrOr(raw.name, "Ürün"), StrOr(raw.description, "Açıklama mevcut değil"),
            NumOr(raw.price, 0), StrOr(raw.category, "genel"), StrOr(raw.brand, ""),
            StrOr(raw.image, PLACEHOLDER_IMAGE), FeaturesOr(raw.features, DEFAULT_FEATURES), NumOr(raw.stock, 0))
  }

  function AsRaw(p: Product): RawProduct {
    RawProduct(p.id, Some(p.name), None, Some(p.description), Some(p.price), Some(p.category),
               Some(p.brand), Some(p.image), Some(p.features), Some(p.stock))
  }

  /** Normalising is idempotent, and a product missing every field gets the page's defaults. */
  lemma NormalizeDefaults(raw: RawProduct)
    ensures Normalize(AsRaw(Normalize(raw))) == Normalize(raw)
    ensures var bare := RawProduct(raw.id, None, None, None, None, None, None, None, None, None);
      Normalize(bare) == Product(raw.id, "Ürün", "Açıklama mevcut değil", 0, "genel", "", PLACEHOLDER_IMAGE, DEFAULT_FEATURES, 0)
  {
  }

  /** `categoryNames[category] || category`. */
  function GetCategoryName(category: string): (name: string)
    ensures category == "caylar" ==> name == "Çaylar"
    ensures category == "baklagil" ==> name == "Baklagil"
    ensures category == "baharat" ==> name == "Baharat"
    ensures category == "organik" ==> name == "Organik"
    ensures category == "kuruyemis" ==> name == "Kuruyemiş"
    ensures category !in {"caylar", "baklagil", "baharat", "organik", "kuruyemis"} ==> name == category
  {
    match category
    case "caylar" => "Çaylar"
    case "baklagil" => "Baklagil"
    case "baharat" => "Baharat"
    case "organik" => "Organik"
    case "kuruyemis" => "Kuruyemiş"
    case _ => category
  }

  predicate IsRelated(p: Product, current: Product) {
    p.category == current.category && p.id != current.id
  }

  /** `products.filter(same category, other id).slice(0, 4)`. */
  function RelatedProducts(products: seq<Product>, current: Product): (r: seq<Product>)
    ensures |r| <= RELATED_LIMIT
    ensures forall i :: 0 <= i < |r| ==> IsRelated(r[i], current) && r[i] in products
    ensures Seqs.SubseqOf(r, products)
    ensures |r| == if Seqs.CountWhere(products, (p: Product) => IsRelated(p, current)) < RELATED_LIMIT
                   then Seqs.CountWhere(products, (p: Product) => IsRelated(p, current)) else RELATED_LIMIT
    ensures r <= Seqs.Filter(products, (p: Product) => IsRelated(p, current))
  {
    var all := Seqs.Filter(products, (p: Product) => IsRelated(p, current));
    Seqs.FilterIsSubseq(products, (p: Product) => IsRelated(p, current));
    var r := if |all| <= RELATED_LIMIT then all else all[..RELATED_LIMIT];
    PrefixSubseq(all, r, products);
    r
  }

  /** A prefix of a subsequence is a subsequence. */
  lemma {:induction false} PrefixSubseq(a: seq<Product>, r: seq<Product>, s: seq<Product>)
    requires r <= a && Seqs.SubseqOf(a, s)
    ensures Seqs.SubseqOf(r, s)
    decreases |s|
  {
    if r != [] {
      assert a != [] && s != [];
      if a[0] == s[0] && Seqs.SubseqOf(a[1..], s[1..]) {
        PrefixSubseq(a[1..], r[1..], s[1..]);
      } else {
        PrefixSubseq(a, r, s[1..]);
      }
    }
  }

  /** No two entries share an id. */
  predicate DistinctIds(favs: seq<Product>) {
    forall i, j :: 0 <= i < j < |favs| ==> favs[i].id != favs[j].id
  }

  predicate HasId(favs: seq<Product>, id: int) {
    exists i | 0 <= i < |favs| :: favs[i].id == id
  }

  /** The favourites after `addToFavorites` with `p` shown: appended only when no favourite has its id. */
  function AddFavorite(favs: seq<Product>, p: Product): (r: seq<Product>)
    ensures HasId(favs, p.id) ==> r == favs
    ensures !HasId(favs, p.id) ==> r == favs + [p]
    ensures DistinctIds(favs) ==> DistinctIds(r)
    ensures HasId(r, p.id)
  {
    if Seqs.Find(favs, (f: Product) => f.id == p.id).Some? then favs
    else
      var r := favs + [p];
      assert r[|favs|].id == p.id;
      r
  }

  datatype FavoriteOutcome = Added | AlreadyFavorite | NothingShown

  class Page {
    var products: seq<Product>
    var currentProduct: Option<Product>
    var related: seq<Product>
    var notFound: bool
    var favorites: seq<Product>

    predicate Valid()
      reads this
    {
      DistinctIds(favorites)
    }

    constructor (favorites: seq<Product>)
      requires DistinctIds(favorites)
      ensures Valid() && products == [] && currentProduct == None && related == [] && !notFound
      ensures this.favorites == favorites
    {
      products := [];
      currentProduct := None;
      related := [];
      notFound := false;
      this.favorites := favorites;
    }

    method LoadProducts(rows: Option<seq<RawProduct>>)
      modifies this`products
      ensures var data := if rows.Some? then rows.value else [];
        |products| == |data| && forall i :: 0 <= i < |data| ==> products[i] == Normalize(data[i])
    {
      var data := if rows.Some? then rows.value else [];
      products := seq(|data|, i requires 0 <= i < |data| => Normalize(data[i]));
    }

    /** `loadProductDetail(id)`: the first product whose id is exactly `id`, or the not-found page. */
    method LoadProductDetail(id: int)
      requires Valid()
      modifies this`currentProduct, this`related, this`notFound
      ensures Valid()
      ensures currentProduct == Seqs.Find(products, (p: Product) => p.id == id)
      ensures currentProduct.Some? ==> related == RelatedProducts(products, currentProduct.value) && !notFound
      ensures currentProduct.None? <==> notFound
      ensures currentProduct.None? ==> related == old(related)
    {
      currentProduct := Seqs.Find(products, (p: Product) => p.id == id);
      if currentProduct.Some? {
        related := RelatedProducts(products, currentProduct.value);
        notFound := false;
      } else {
        notFound := true;
      }
    }

    /** `initializeProductDetail`: the id parsed from the URL; `None` for NaN. NaN and 0 are falsy. */
    method Initialize(productId: Option<int>)
      requires Valid()
      modifies this`currentProduct, this`related, this`notFound
      ensures Valid()
      ensures (productId.None? || productId.value == 0) ==> notFound && unchanged(this`currentProduct, this`related)
      ensures productId.Some? && productId.value != 0 ==>
        currentProduct == Seqs.Find(products, (p: Product) => p.id == productId.value)
    {
      if productId.Some? && productId.value != 0 {
        LoadProductDetail(productId.value);
      } else {
        notFound := true;
      }
    }

    method AddToFavorites() returns (outcome: FavoriteOutcome)
      requires Valid()
      modifies this`favorites
      ensures Valid()
      ensures currentProduct.None? ==> outcome == NothingShown && favorites == old(favorites)
      ensures currentProduct.Some? ==> favorites == AddFavorite(old(favorites), currentProduct.value)
      ensures outcome == Added <==> currentProduct.Some? && !HasId(old(favorites), currentProduct.value.id)
    {
      if currentProduct.None? {
        return NothingShown;
      }
      var p := currentProduct.value;
      var existing := Seqs.Find(favorites, (f: Product) => f.id == p.id);
      if existing.None? {
        favorites := favorites + [p];
        outcome := Added;
      } else {
        outcome := AlreadyFavorite;
      }
    }
  }
}
