/**
 * The admin panel's in-memory product list: form validation, adding with a
 * fresh id, merging an edit, deleting, searching, filtering, per-category
 * counts, import, and the password gate.
 */
module AdminPanel {
  import opened Js
  import opened Text
  import Seqs
  import opened Numbers

  const PASSWORD := "hakgida2024"

  /** The admin panel's own placeholder, which also carries the caption "Ürün Resmi". */
  const ADMIN_PLACEHOLDER_IMAGE := "data:image/svg+xml,<svg xmlns=\"http://www.w3.org/2000/svg\" viewBox=\"0 0 300 200\"><rect width=\"300\" height=\"200\" fill=\"%23f0f0f0\"/><text x=\"150\" y=\"100\" text-anchor=\"middle\" dy=\".3em\" fill=\"%23999\" font-family=\"Arial, sans-serif\" font-size=\"16\">Ürün Resmi</text></svg>"

  /**
   * A product as the panel holds it. Rows from the backend and products added
   * in the panel have no `features`; imported rows may have them.
   */
  datatype AdminProduct = AdminProduct(
    id: int, name: string, category: string, productType: Option<string>, price: int,
    description: string, brand: Option<string>, image: Option<string>, stock: int,
    features: Option<seq<string>>)

  /** The raw form: an empty price field is `None`; a stock field that does not parse is `None`. */
  datatype FormInput = FormInput(
    name: string, category: string, price: Option<int>, description: string,
    brand: string, image: string, stock: Option<int>)

  /** `productData` as `saveProduct` builds it from the form. */
  datatype ProductData = ProductData(
    name: string, category: string, price: int, description: string,
    brand: Option<string>, image: Option<string>, stock: int)

  function DataOf(form: FormInput): (d: ProductData)
    ensures d.name == Trim(form.name) && d.description == Trim(form.description)
    ensures d.category == form.category
    ensures d.price == (if form.price.Some? then form.price.value else 0)
    ensures d.stock == NumOr(form.stock, 0)
    ensures d.brand == (if form.brand == "" then None else Some(form.brand))
    ensures d.image == (if Trim(form.image) == "" then None else Some(Trim(form.image)))
  {
    ProductData(
      Trim(form.name), form.category, if form.price.Some? then form.price.value else 0,
      Trim(form.description), if form.brand == "" then None else Some(form.brand),
      if Trim(form.image) == "" then None else Some(Trim(form.image)), NumOr(form.stock, 0))
  }

  datatype Rejection = EmptyName | NoCategory | EmptyDescription | NegativePrice | NegativeStock

  /** The first failed rule, checked in the form's order; `None` when the data may be saved. */
  function Validate(d: ProductData): (r: Option<Rejection>)
    ensures r == Some(EmptyName) <==> d.name == ""
    ensures r == Some(NoCategory) <==> d.name != "" && d.category == ""
    ensures r == Some(EmptyDescription) <==> d.name != "" && d.category != "" && d.description == ""
    ensures r == Some(NegativePrice) <==> d.name != "" && d.category != "" && d.description != "" && d.price < 0
    ensures r == Some(NegativeStock) <==>
      d.name != "" && d.category != "" && d.description != "" && d.price >= 0 && d.stock < 0
    ensures r == None <==> d.name != "" && d.category != "" && d.description != "" && d.price >= 0 && d.stock >= 0
  {
    if d.name == "" then Some(EmptyName)
    else if d.category == "" then Some(NoCategory)
    else if d.description == "" then Some(EmptyDescription)
    else if d.price < 0 then Some(NegativePrice)
    else if d.stock < 0 then Some(NegativeStock)
    else None
  }

  /** `Math.max(...ids, 0)`. */
  function MaxId(ps: seq<AdminProduct>): (m: int)
    ensures m >= 0
    ensures forall i :: 0 <= i < |ps| ==> ps[i].id <= m
    ensures m == 0 || exists i :: 0 <= i < |ps| && ps[i].id == m
  {
    if ps == [] then 0
    else
      var rest := MaxId(ps[1..]);
      assert forall i :: 1 <= i < |ps| ==> ps[i] == ps[1..][i - 1];
      if ps[0].id > rest then ps[0].id else rest
  }

  /** `id == s` for a numeric id and a string: the string is converted; `NaN` equals nothing. */
  predicate LooseEquals(id: int, s: string) {
    ToNumber(s) == Some(id)
  }

  /** The edit field holds the id as the panel wrote it, and that string finds the id again. */
  lemma LooseEqualsOwnId(id: int)
    ensures LooseEquals(id, IntToString(id))
  {
    IntNumeral(id);
  }

  /** `products.findIndex(p => p.id == editId)`. */
  function FindIndex(ps: seq<AdminProduct>, editId: string): (i: int)
    ensures -1 <= i < |ps|
    ensures i >= 0 ==> LooseEquals(ps[i].id, editId) && forall j :: 0 <= j < i ==> !LooseEquals(ps[j].id, editId)
    ensures i == -1 <==> forall j :: 0 <= j < |ps| ==> !LooseEquals(ps[j].id, editId)
  {
    if ps == [] then -1
    else if LooseEquals(ps[0].id, editId) then 0
    else
      var k := FindIndex(ps[1..], editId);
      assert forall j :: 1 <= j < |ps| ==> ps[j] == ps[1..][j - 1];
      if k == -1 then -1 else k + 1
  }

  function ImageOr(image: Option<string>): (r: string)
    ensures image.Some? ==> r == image.value
    ensures image.None? ==> r == ADMIN_PLACEHOLDER_IMAGE
  {
    if image.Some? then image.value else ADMIN_PLACEHOLDER_IMAGE
  }

  /** `{ ...old, ...productData, image: image || placeholder }`: the id and any features survive. */
  function Merge(p: AdminProduct, d: ProductData): (r: AdminProduct)
    ensures r.id == p.id && r.features == p.features
    ensures r.name == d.name && r.category == d.category && r.description == d.description
    ensures r.price == d.price && r.stock == d.stock && r.brand == d.brand && r.productType == None
    ensures r.image == Some(ImageOr(d.image))
  {
    AdminProduct(p.id, d.name, d.category, None, d.price, d.description, d.brand, Some(ImageOr(d.image)), d.stock, p.features)
  }

  /** `{ id, ...productData, image: image || placeholder }`: a new product has no features. */
  function NewProduct(id: int, d: ProductData): (r: AdminProduct)
    ensures r.id == id && r.features == None && r.image == Some(ImageOr(d.image))
    ensures r == Merge(r, d)
  {
    AdminProduct(id, d.name, d.category, None, d.price, d.description, d.brand, Some(ImageOr(d.image)), d.stock, None)
  }

  datatype SaveOutcome = Rejected(reason: Rejection) | Added(id: int) | Updated(index: nat) | NoMatch

  /**
   * The product list and outcome after `saveProduct` on the form's data: rejected data changes
   * nothing; an empty edit field adds a product with a fresh id at the end;
   * otherwise the first loosely matching product is merged in place and every
   * other entry is kept.
   */
  function Saved(ps: seq<AdminProduct>, d: ProductData, editId: string): (r: (seq<AdminProduct>, SaveOutcome))
    ensures Validate(d).Some? ==> r == (ps, Rejected(Validate(d).value))
    ensures Validate(d).None? && editId == "" ==> r.1 == Added(MaxId(ps) + 1)
    ensures Validate(d).None? && editId == "" ==> |r.0| == |ps| + 1
    ensures Validate(d).None? && editId == "" ==> r.0[..|ps|] == ps
    ensures Validate(d).None? && editId == "" ==> r.0[|ps|] == NewProduct(MaxId(ps) + 1, d)
    ensures Validate(d).None? && editId != "" && FindIndex(ps, editId) == -1 ==> r == (ps, NoMatch)
    ensures Validate(d).None? && editId != "" && FindIndex(ps, editId) != -1 ==>
      var k := FindIndex(ps, editId);
      r.1 == Updated(k) && |r.0| == |ps| && r.0[k] == Merge(ps[k], d)
      && forall j :: 0 <= j < |ps| && j != k ==> r.0[j] == ps[j]
  {
    if Validate(d).Some? then (ps, Rejected(Validate(d).value))
    else if editId == "" then AddTo(ps, d)
    else EditIn(ps, FindIndex(ps, editId), d)
  }

  /** The add branch: the product goes at the end with the next id. */
  function AddTo(ps: seq<AdminProduct>, d: ProductData): (r: (seq<AdminProduct>, SaveOutcome))
    ensures r.1 == Added(MaxId(ps) + 1)
    ensures |r.0| == |ps| + 1 && r.0[..|ps|] == ps && r.0[|ps|] == NewProduct(MaxId(ps) + 1, d)
  {
    var id := MaxId(ps) + 1;
    var grown := ps + [NewProduct(id, d)];
    assert grown[..|ps|] == ps;
    (grown, Added(id))
  }

  /** The edit branch: the entry at `k`, when there is one, is merged in place. */
  function EditIn(ps: seq<AdminProduct>, k: int, d: ProductData): (r: (seq<AdminProduct>, SaveOutcome))
    requires -1 <= k < |ps|
    ensures k == -1 ==> r == (ps, NoMatch)
    ensures k != -1 ==> r.1 == Updated(k) && |r.0| == |ps| && r.0[k] == Merge(ps[k], d)
    ensures k != -1 ==> forall j :: 0 <= j < |ps| && j != k ==> r.0[j] == ps[j]
  {
    if k == -1 then (ps, NoMatch) else (ps[k := Merge(ps[k], d)], Updated(k))
  }

  // ---------------------------------------------------------------------------
  // Search. As written, `product.features.some(...)` is evaluated for every
  // product whose name and description miss the query, and it throws when the
  // product has no features.
  // ---------------------------------------------------------------------------

  predicate TextHit(p: AdminProduct, query: string) {
    ContainsIgnoreCase(p.name, query) || ContainsIgnoreCase(p.description, query)
  }

  predicate FeatureHit(features: seq<string>, query: string) {
    exists i :: 0 <= i < |features| && ContainsIgnoreCase(features[i], query)
  }

  /** The search filter with a missing feature list read as empty. */
  predicate SearchHit(p: AdminProduct, query: string) {
    TextHit(p, query) || (p.features.Some? && FeatureHit(p.features.value, query))
  }

  datatype SearchResult = Shown(items: seq<AdminProduct>) | TypeError

  /** The filter callback of `searchProducts` applied left to right, as written. */
  function FilterAsWritten(ps: seq<AdminProduct>, query: string): (r: SearchResult)
    ensures r == TypeError <==> exists i :: 0 <= i < |ps| && !TextHit(ps[i], query) && ps[i].features.None?
    ensures r.Shown? ==> r.items == Seqs.Filter(ps, (p: AdminProduct) => SearchHit(p, query))
  {
    if ps == [] then Shown([])
    else
      var rest := FilterAsWritten(ps[1..], query);
      assert forall i :: 1 <= i < |ps| ==> ps[i] == ps[1..][i - 1];
      if !TextHit(ps[0], query) && ps[0].features.None? then TypeError
      else if rest == TypeError then TypeError
      else if SearchHit(ps[0], query) then Shown([ps[0]] + rest.items)
      else rest
  }

  /** `searchProducts(query)` as written. */
  function SearchAsWritten(ps: seq<AdminProduct>, query: string): (r: SearchResult)
    ensures Trim(query) == "" ==> r == Shown(ps)
    ensures Trim(query) != "" ==> r == FilterAsWritten(ps, query)
  {
    if Trim(query) == "" then Shown(ps) else FilterAsWritten(ps, query)
  }

  /** A product added in the panel has no features, and a query that misses its name and description throws. */
  lemma SearchThrowsOnAddedProduct()
    ensures var d := ProductData("Çay", "caylar", 10, "Siyah çay", None, None, 1);
      SearchAsWritten([NewProduct(1, d)], "x") == TypeError
  {
    var d := ProductData("Çay", "caylar", 10, "Siyah çay", None, None, 1);
    var p := NewProduct(1, d);
    assert !ContainsIgnoreCase(p.name, "x") && !ContainsIgnoreCase(p.description, "x") by {
      assert Lower("x") == "x";
      assert forall i :: 0 <= i < |Lower(p.name)| ==> Lower(p.name)[i] != 'x';
      assert forall i :: 0 <= i < |Lower(p.description)| ==> Lower(p.description)[i] != 'x';
      assert !Contains(Lower(p.name), "x") by {
        forall i | 0 <= i <= |Lower(p.name)| - 1 ensures !OccursAt(Lower(p.name), "x", i) {
          assert Lower(p.name)[i..i + 1][0] == Lower(p.name)[i];
        }
      }
      assert !Contains(Lower(p.description), "x") by {
        forall i | 0 <= i <= |Lower(p.description)| - 1 ensures !OccursAt(Lower(p.description), "x", i) {
          assert Lower(p.description)[i..i + 1][0] == Lower(p.description)[i];
        }
      }
    }
    assert Trim("x") == "x" by {
      TrimTrimmed("x");
    }
  }

  /** The corrected search: blank queries show everything, otherwise exactly the hits, in order. */
  function Search(ps: seq<AdminProduct>, query: string): (r: seq<AdminProduct>)
    ensures Trim(query) == "" ==> r == ps
    ensures Trim(query) != "" ==> forall i :: 0 <= i < |r| ==> SearchHit(r[i], query) && r[i] in ps
    ensures Trim(query) != "" ==> forall i :: 0 <= i < |ps| && SearchHit(ps[i], query) ==> ps[i] in r
    ensures Seqs.SubseqOf(r, ps)
  {
    if Trim(query) == "" then
      SubseqRefl(ps);
      ps
    else
      Seqs.FilterIsSubseq(ps, (p: AdminProduct) => SearchHit(p, query));
      Seqs.Filter(ps, (p: AdminProduct) => SearchHit(p, query))
  }

  lemma {:induction false} SubseqRefl(s: seq<AdminProduct>)
    ensures Seqs.SubseqOf(s, s)
    decreases |s|
  {
    if s != [] {
      SubseqRefl(s[1..]);
    }
  }

  /** `filterProducts(category)`: an empty category shows everything, else exactly that category. */
  function FilterByCategory(ps: seq<AdminProduct>, category: string): (r: seq<AdminProduct>)
    ensures category == "" ==> r == ps
    ensures category != "" ==> forall i :: 0 <= i < |r| ==> r[i].category == category && r[i] in ps
    ensures category != "" ==> forall i :: 0 <= i < |ps| && ps[i].category == category ==> ps[i] in r
  {
    if category == "" then ps else Seqs.Filter(ps, (p: AdminProduct) => p.category == category)
  }

  /** The product count shown on a category card. */
  function CategoryCount(ps: seq<AdminProduct>, key: string): (n: nat)
    ensures n == |set i | 0 <= i < |ps| && ps[i].category == key|
  {
    var keep := (p: AdminProduct) => p.category == key;
    Seqs.CountWhereIndices(ps, keep);
    assert Seqs.Positions(ps, keep) == set i | 0 <= i < |ps| && ps[i].category == key;
    Seqs.CountWhere(ps, keep)
  }

  datatype CategoryInfo = CategoryInfo(name: string, icon: string, color: string, emoji: string)

  /** One count per known category key. */
  function CategoryCounts(ps: seq<AdminProduct>, categories: map<string, CategoryInfo>): (counts: map<string, nat>)
    ensures counts.Keys == categories.Keys
    ensures forall k :: k in counts ==> counts[k] == |set i | 0 <= i < |ps| && ps[i].category == k|
  {
    map k | k in categories :: CategoryCount(ps, k)
  }

  /** `{ ...categories, ...imported }`: imported keys win, every other key keeps its entry. */
  function MergeCategories(categories: map<string, CategoryInfo>, imported: Option<map<string, CategoryInfo>>)
    : (r: map<string, CategoryInfo>)
    ensures imported.None? ==> r == categories
    ensures imported.Some? ==> r.Keys == categories.Keys + imported.value.Keys
    ensures imported.Some? ==> forall k :: k in imported.value ==> r[k] == imported.value[k]
    ensures imported.Some? ==> forall k :: k in categories && k !in imported.value ==> r[k] == categories[k]
  {
    if imported.Some? then categories + imported.value else categories
  }

  /** The twelve categories the panel starts with. */
  const INITIAL_CATEGORIES: map<string, CategoryInfo> := map[
      "caylar" := CategoryInfo("Çaylar", "fas fa-leaf", "#27ae60", "🍃"),
      "baklagil" := CategoryInfo("Baklagil", "fas fa-seedling", "#e74c3c", "🫘"),
      "bakliyat" := CategoryInfo("Bakliyat", "fas fa-seedling", "#8b4513", "🌾"),
      "bulgur" := CategoryInfo("Bulgur", "fas fa-wheat-awn", "#daa520", "🌾"),
      "baharat" := CategoryInfo("Baharat", "fas fa-pepper-hot", "#f39c12", "🌶️"),
      "salca" := CategoryInfo("Salça", "fas fa-bottle-droplet", "#dc2626", "🍅"),
      "makarna" := CategoryInfo("Makarna", "fas fa-utensils", "#fbbf24", "🍝"),
      "seker" := CategoryInfo("Şeker", "fas fa-cube", "#f8fafc", "🧊"),
      "yag" := CategoryInfo("Yağ", "fas fa-oil-can", "#fcd34d", "🫒"),
      "icecek" := CategoryInfo("İçecek", "fas fa-bottle-water", "#06b6d4", "🥤"),
      "organik" := CategoryInfo("Organik", "fas fa-spa", "#8e44ad", "🌱"),
      "kuruyemis" := CategoryInfo("Kuruyemiş", "fas fa-apple-alt", "#795548", "🥜")]

  predicate HasId(ps: seq<AdminProduct>, id: int) {
    exists i :: 0 <= i < |ps| && ps[i].id == id
  }

  class Panel {
    var products: seq<AdminProduct>
    var isLoggedIn: bool
    var categories: map<string, CategoryInfo>
    /** The rows the products table shows. */
    var shown: seq<AdminProduct>

    constructor ()
      ensures products == [] && !isLoggedIn && categories == INITIAL_CATEGORIES && shown == []
    {
      products := [];
      isLoggedIn := false;
      categories := INITIAL_CATEGORIES;
      shown := [];
    }

    method LoadFromBackend(rows: Option<seq<AdminProduct>>)
      modifies this`products
      ensures products == (if rows.Some? then rows.value else [])
    {
      products := if rows.Some? then rows.value else [];
    }

    method Login(password: string) returns (ok: bool)
      modifies this`isLoggedIn
      ensures ok <==> password == PASSWORD
      ensures isLoggedIn == (ok || old(isLoggedIn))
    {
      if password == PASSWORD {
        isLoggedIn := true;
        ok := true;
      } else {
        ok := false;
      }
    }

    method Logout()
      modifies this`isLoggedIn
      ensures !isLoggedIn
    {
      isLoggedIn := false;
    }

    /** `saveProduct` with the form's contents and the hidden edit field. */
    method SaveProduct(form: FormInput, editId: string) returns (outcome: SaveOutcome)
      modifies this`products
      ensures (products, outcome) == Saved(old(products), DataOf(form), editId)
    {
      outcome := Store(DataOf(form), editId);
    }

    /** The body of `saveProduct` once the form has been read into `d`. */
    method Store(d: ProductData, editId: string) returns (outcome: SaveOutcome)
      modifies this`products
      ensures (products, outcome) == Saved(old(products), d, editId)
    {
      var ps := products;
      var err := Validate(d);
      if err.Some? {
        assert Saved(ps, d, editId) == (ps, Rejected(err.value));
        return Rejected(err.value);
      }
      if editId != "" {
        var k := FindIndex(ps, editId);
        assert Saved(ps, d, editId) == EditIn(ps, k, d);
        if k == -1 {
          return NoMatch;
        }
        products := ps[k := Merge(ps[k], d)];
        outcome := Updated(k);
      } else {
        var id := MaxId(ps) + 1;
        assert Saved(ps, d, editId) == AddTo(ps, d);
        products := ps + [NewProduct(id, d)];
        outcome := Added(id);
      }
    }

    /**
     * `deleteProduct(id)`: nothing happens for an unknown id; otherwise the
     * local list loses every product with that id once the user confirms and
     * the backend reports success.
     */
    method DeleteProduct(id: int, confirmed: bool, backendDeleted: bool)
      modifies this`products
      ensures HasId(old(products), id) && confirmed && backendDeleted ==>
        products == Seqs.Filter(old(products), (p: AdminProduct) => p.id != id)
      ensures !(HasId(old(products), id) && confirmed && backendDeleted) ==> products == old(products)
    {
      var found := Seqs.Find(products, (p: AdminProduct) => p.id == id);
      if found.Some? && confirmed && backendDeleted {
        products := Seqs.Filter(products, (p: AdminProduct) => p.id != id);
      }
    }

    /** Import of `{ products, categories }` once confirmed: products replaced, categories merged. */
    method Import(imported: seq<AdminProduct>, importedCategories: Option<map<string, CategoryInfo>>)
      modifies this`products, this`categories
      ensures products == imported
      ensures categories == MergeCategories(old(categories), importedCategories)
    {
      products := imported;
      categories := MergeCategories(categories, importedCategories);
    }

    /** `searchProducts(query)` with the corrected feature test. */
    method SearchProducts(query: string)
      modifies this`shown
      ensures shown == Search(products, query)
    {
      shown := Search(products, query);
    }

    method FilterProducts(category: string)
      modifies this`shown
      ensures shown == FilterByCategory(products, category)
    {
      shown := FilterByCategory(products, category);
    }
  }

  /** Adding keeps ids unique and the new id exceeds every existing one. */
  lemma AddIsFresh(ps: seq<AdminProduct>, d: ProductData)
    requires forall i, j :: 0 <= i < j < |ps| ==> ps[i].id != ps[j].id
    ensures var r := ps + [NewProduct(MaxId(ps) + 1, d)];
      forall i, j :: 0 <= i < j < |r| ==> r[i].id != r[j].id
    ensures forall i :: 0 <= i < |ps| ==> ps[i].id < MaxId(ps) + 1
  {
  }

  /** Deleting leaves no product with the id and keeps every other product, in order. */
  lemma {:induction false} DeleteRemovesAll(ps: seq<AdminProduct>, id: int)
    ensures !HasId(Seqs.Filter(ps, (p: AdminProduct) => p.id != id), id)
    ensures forall i :: 0 <= i < |ps| && ps[i].id != id ==> ps[i] in Seqs.Filter(ps, (p: AdminProduct) => p.id != id)
    ensures Seqs.SubseqOf(Seqs.Filter(ps, (p: AdminProduct) => p.id != id), ps)
  {
    Seqs.FilterIsSubseq(ps, (p: AdminProduct) => p.id != id);
  }
}
