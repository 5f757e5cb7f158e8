/**
 * The product listing page: the normalised catalog, the active filters and
 * sort, and pagination by fifteen. `applyFilters` filters by category,
 * brand and search term, sorts, clamps the current page and shows one page.
 * The name order (`localeCompare` with the Turkish locale) is the parameter
 * `nameBefore`.
 */
module ProductsPage {
  import opened Js
  import opened Text
  import opened Catalog
  import Seqs

  const PAGE_SIZE := 15
  const NO_DESCRIPTION := "Ürün açıklaması henüz eklenmedi."

  datatype Product = Product(
    id: int, name: string, productType: string, description: string, price: int,
    category: string, brand: string, image: string, features: seq<string>, stock: int)

  // ----- normalisation of the backend rows -----

  function Normalize(raw: RawProduct): (p: Product)
    ensures p.id == raw.id
    ensures p.name == StrOr(raw.name, "Ürün") && p.productType == StrOr(raw.productType, "")
    ensures p.description == StrOr(raw.description, "Açıklama mevcut değil")
    ensures p.price == NumOr(raw.price, 0) && p.stock == NumOr(raw.stock, 0)
    ensures p.category == StrOr(raw.category, "genel") && p.brand == StrOr(raw.brand, "")
    ensures p.image == StrOr(raw.image, PLACEHOLDER_IMAGE) && p.features == FeaturesOr(raw.features, [])
  {
    Product(raw.id, StrOr(raw.name, "Ürün"), StrOr(raw.productType, ""),
            StrOr(raw.description, "Açıklama mevcut değil"), NumOr(raw.price, 0),
            StrOr(raw.category, "genel"), StrOr(raw.brand, ""), StrOr(raw.image, PLACEHOLDER_IMAGE),
            FeaturesOr(raw.features, []), NumOr(raw.stock, 0))
  }

  /** A normalised product, sent back as a row. */
  function AsRaw(p: Product): RawProduct {
    RawProduct(p.id, Some(p.name), Some(p.productType), Some(p.description), Some(p.price),
               Some(p.category), Some(p.brand), Some(p.image), Some(p.features), Some(p.stock))
  }

  /** Normalising is idempotent: the defaults are themselves kept by a second pass. */
  lemma NormalizeIdempotent(raw: RawProduct)
    ensures Normalize(AsRaw(Normalize(raw))) == Normalize(raw)
  {
  }

  // ----- the filters -----

  /** The category filter is off for '' and 'all'. */
  predicate CategoryFilterOn(category: string) {
    category != "" && category != "all"
  }

  predicate BrandMatches(p: Product, brand: string) {
    Contains(Lower(p.brand), Lower(brand))
  }

  /** The search term occurs, ignoring case, in the name, the description or some feature. */
  predicate SearchMatches(p: Product, term: string) {
    ContainsIgnoreCase(p.name, term) || ContainsIgnoreCase(p.description, term)
    || exists i | 0 <= i < |p.features| :: ContainsIgnoreCase(p.features[i], term)
  }

  function ByCategory(s: seq<Product>, category: string): seq<Product> {
    if CategoryFilterOn(category) then Seqs.Filter(s, (p: Product) => p.category == category) else s
  }

  function ByBrand(s: seq<Product>, brand: Option<string>): seq<Product> {
    if brand.Some? && brand.value != "" then Seqs.Filter(s, p => BrandMatches(p, brand.value)) else s
  }

  function BySearch(s: seq<Product>, term: string): seq<Product> {
    if term != "" then Seqs.Filter(s, p => SearchMatches(p, term)) else s
  }

  /** The three filters in the page's order: category, brand, search. */
  function Filtered(s: seq<Product>, category: string, brand: Option<string>, term: string): seq<Product> {
    BySearch(ByBrand(ByCategory(s, category), brand), term)
  }

  predicate KeepCategory(p: Product, category: string) {
    !CategoryFilterOn(category) || p.category == category
  }

  predicate KeepBrand(p: Product, brand: Option<string>) {
    brand.None? || brand.value == "" || BrandMatches(p, brand.value)
  }

  predicate KeepSearch(p: Product, term: string) {
    term == "" || SearchMatches(p, term)
  }

  /** What the three filters together keep. */
  predicate Keeps(p: Product, category: string, brand: Option<string>, term: string) {
    KeepCategory(p, category) && KeepBrand(p, brand) && KeepSearch(p, term)
  }

  lemma ByCategoryFilters(s: seq<Product>, category: string)
    ensures ByCategory(s, category) == Seqs.Filter(s, (p: Product) => KeepCategory(p, category))
  {
    if CategoryFilterOn(category) {
      Seqs.FilterSame(s, (p: Product) => p.category == category, (p: Product) => KeepCategory(p, category));
    } else {
      Seqs.FilterAll(s, (p: Product) => KeepCategory(p, category));
    }
  }

  lemma ByBrandFilters(s: seq<Product>, brand: Option<string>)
    ensures ByBrand(s, brand) == Seqs.Filter(s, (p: Product) => KeepBrand(p, brand))
  {
    if brand.Some? && brand.value != "" {
      Seqs.FilterSame(s, (p: Product) => BrandMatches(p, brand.value), (p: Product) => KeepBrand(p, brand));
    } else {
      Seqs.FilterAll(s, (p: Product) => KeepBrand(p, brand));
    }
  }

  lemma BySearchFilters(s: seq<Product>, term: string)
    ensures BySearch(s, term) == Seqs.Filter(s, (p: Product) => KeepSearch(p, term))
  {
    if term != "" {
      Seqs.FilterSame(s, (p: Product) => SearchMatches(p, term), (p: Product) => KeepSearch(p, term));
    } else {
      Seqs.FilterAll(s, (p: Product) => KeepSearch(p, term));
    }
  }

  /** The successive filters are one filter by `Keeps`. */
  lemma {:induction false} FilteredIsOneFilter(s: seq<Product>, category: string, brand: Option<string>, term: string)
    ensures Filtered(s, category, brand, term) == Seqs.Filter(s, (p: Product) => Keeps(p, category, brand, term))
  {
    var fc := (p: Product) => KeepCategory(p, category);
    var fb := (p: Product) => KeepBrand(p, brand);
    var fs := (p: Product) => KeepSearch(p, term);
    ByCategoryFilters(s, category);
    var s1 := ByCategory(s, category);
    ByBrandFilters(s1, brand);
    var s2 := ByBrand(s1, brand);
    BySearchFilters(s2, term);
    var fcb := (p: Product) => fc(p) && fb(p);
    Seqs.FilterTwice(s, fc, fb, fcb);
    Seqs.FilterTwice(s, fcb, fs, (p: Product) => Keeps(p, category, brand, term));
  }

  /** A product is listed iff it is in the catalog and passes every active filter; the order is the catalog's. */
  lemma {:induction false} FilteredSpec(s: seq<Product>, category: string, brand: Option<string>, term: string)
    ensures Seqs.SubseqOf(Filtered(s, category, brand, term), s)
    ensures forall i :: 0 <= i < |s| && Keeps(s[i], category, brand, term) ==> s[i] in Filtered(s, category, brand, term)
    ensures forall p :: p in Filtered(s, category, brand, term) ==> p in s && Keeps(p, category, brand, term)
  {
    FilteredIsOneFilter(s, category, brand, term);
    Seqs.FilterIsSubseq(s, p => Keeps(p, category, brand, term));
  }

  // ----- sorting -----

  function PriceUp(a: Product, b: Product): bool { a.price <= b.price }
  function PriceDown(a: Product, b: Product): bool { b.price <= a.price }

  /** The active sort: 'price-low', 'price-high', 'name', or none (any other value leaves the order). */
  function Arrange(s: seq<Product>, sort: Option<string>, nameBefore: (string, string) -> bool): (r: seq<Product>)
    ensures multiset(r) == multiset(s)
  {
    if sort == Some("price-low") then Seqs.Sort(s, PriceUp)
    else if sort == Some("price-high") then Seqs.Sort(s, PriceDown)
    else if sort == Some("name") then Seqs.Sort(s, (a: Product, b: Product) => nameBefore(a.name, b.name))
    else s
  }

  /** What `applyFilters` lists, before pagination. */
  function Listing(s: seq<Product>, category: string, brand: Option<string>, term: string,
                   sort: Option<string>, nameBefore: (string, string) -> bool): seq<Product> {
    Arrange(Filtered(s, category, brand, term), sort, nameBefore)
  }

  /** 'price-low' orders by non-decreasing price and 'price-high' by non-increasing price. */
  lemma {:induction false} PriceSortsOrder(s: seq<Product>, nameBefore: (string, string) -> bool, i: int, j: int)
    requires 0 <= i <= j < |s|
    ensures Arrange(s, Some("price-low"), nameBefore)[i].price <= Arrange(s, Some("price-low"), nameBefore)[j].price
    ensures Arrange(s, Some("price-high"), nameBefore)[i].price >= Arrange(s, Some("price-high"), nameBefore)[j].price
  {
    Seqs.SortSorted(s, PriceUp);
    var up := Seqs.Sort(s, PriceUp);
    assert up == Arrange(s, Some("price-low"), nameBefore);
    Seqs.SortedByKey(up, (p: Product) => p.price, i, j);
    Seqs.SortSorted(s, PriceDown);
    var down := Seqs.Sort(s, PriceDown);
    assert Seqs.Sorted(down, (a: Product, b: Product) => (-a.price) <= (-b.price)) by {
      forall k | 0 <= k < |down| - 1 ensures -down[k].price <= -down[k + 1].price {
        assert PriceDown(down[k], down[k + 1]);
      }
    }
    Seqs.SortedByKey(down, (p: Product) => -p.price, i, j);
  }

  // ----- pagination -----

  /** `Math.max(1, Math.ceil(n / PAGE_SIZE))`. */
  function TotalPages(n: nat): (t: int)
    ensures t >= 1 && n <= PAGE_SIZE * t
    ensures n > 0 ==> PAGE_SIZE * (t - 1) < n
    ensures n == 0 ==> t == 1
  {
    if n == 0 then 1 else (n + PAGE_SIZE - 1) / PAGE_SIZE
  }

  /** `applyFilters`' clamp: down to the last page, then up to the first. */
  function ClampPage(page: int, total: int): (p: int)
    ensures total >= 1 ==> 1 <= p <= total
    ensures 1 <= page <= total ==> p == page
  {
    var q := if page > total then total else page;
    if q < 1 then 1 else q
  }

  /** `goToPage`'s clamp: `Math.max(1, Math.min(page, totalPages))`; it agrees with `applyFilters`' one. */
  function GoToPageClamp(page: int, total: int): (p: int)
    ensures total >= 1 ==> p == ClampPage(page, total)
  {
    var m := if page < total then page else total;
    if 1 > m then 1 else m
  }

  /** `list.slice((p - 1) * PAGE_SIZE, p * PAGE_SIZE)`. */
  function PageOf(list: seq<Product>, p: int): (r: seq<Product>)
    requires p >= 1
    ensures |r| <= PAGE_SIZE
  {
    var start := (p - 1) * PAGE_SIZE;
    var end := start + PAGE_SIZE;
    if start >= |list| then [] else list[start..if end < |list| then end else |list|]
  }

  /** Pages 1..k one after the other. */
  function PagesUpTo(list: seq<Product>, k: nat): seq<Product> {
    if k == 0 then [] else PagesUpTo(list, k - 1) + PageOf(list, k)
  }

  lemma {:induction false} PagesUpToPrefix(list: seq<Product>, k: nat)
    ensures PagesUpTo(list, k) == list[..if PAGE_SIZE * k < |list| then PAGE_SIZE * k else |list|]
  {
    if k > 0 {
      PagesUpToPrefix(list, k - 1);
    }
  }

  /** Pages 1..totalPages, concatenated, are the whole listing, and no displayed page is ever empty unless the listing is. */
  lemma PagesCoverListing(list: seq<Product>, p: int)
    requires 1 <= p <= TotalPages(|list|)
    ensures PagesUpTo(list, TotalPages(|list|)) == list
    ensures list != [] ==> PageOf(list, p) != []
  {
    PagesUpToPrefix(list, TotalPages(|list|));
  }

  /** The page-number buttons `renderPagination` draws around the current page. */
  method PageWindow(current: int, total: int) returns (pages: seq<int>)
    ensures var lo := if current - 2 > 1 then current - 2 else 1;
      var hi := if current + 2 < total then current + 2 else total;
      |pages| == (if hi >= lo then hi - lo + 1 else 0) && forall i :: 0 <= i < |pages| ==> pages[i] == lo + i
    ensures 1 <= current <= total ==> current in pages && |pages| <= 5
    ensures forall i :: 0 <= i < |pages| ==> 1 <= pages[i] <= total
  {
    var lo := if current - 2 > 1 then current - 2 else 1;
    var hi := if current + 2 < total then current + 2 else total;
    pages := [];
    var p := lo;
    while p <= hi
      invariant lo <= p && (p <= hi + 1 || hi < lo)
      invariant hi < lo ==> p == lo
      invariant |pages| == p - lo && forall i :: 0 <= i < |pages| ==> pages[i] == lo + i
    {
      pages := pages + [p];
      p := p + 1;
    }
    if 1 <= current <= total {
      assert pages[current - lo] == current;
    }
  }

  /** The controls of `renderPagination`: none for a single page, else «, the window, ». */
  datatype Controls = Controls(prevPage: int, prevDisabled: bool, nextPage: int, nextDisabled: bool)

  function Pagination(current: int, total: int): (c: Option<Controls>)
    ensures c.None? <==> total <= 1
    ensures c.Some? ==> c.value.prevPage == current - 1 && c.value.nextPage == current + 1
    ensures c.Some? ==> (c.value.prevDisabled <==> current == 1) && (c.value.nextDisabled <==> current == total)
  {
    if total <= 1 then None else Some(Controls(current - 1, current == 1, current + 1, current == total))
  }

  // ----- truncateDescription -----

  /** `words.slice(0, limit)` for a limit that may be negative (counted from the end). */
  function TakeWords(words: seq<string>, limit: int): (r: seq<string>)
    ensures r == words[..if limit >= |words| then |words| else if limit >= 0 then limit
                          else if |words| + limit > 0 then |words| + limit else 0]
  {
    if limit >= |words| then words
    else if limit >= 0 then words[..limit]
    else if |words| + limit > 0 then words[..|words| + limit]
    else []
  }

  /** `truncateDescription(text, wordLimit)`. */
  function TruncateDescription(text: Option<string>, wordLimit: int := 15): (r: string)
    ensures text.None? || text.value == "" ==> r == NO_DESCRIPTION
    ensures text.Some? && text.value != "" && |SplitWs(Trim(text.value))| <= wordLimit ==> r == text.value
    ensures text.Some? && text.value != "" && |SplitWs(Trim(text.value))| > wordLimit >= 0 ==>
      r == Join(SplitWs(Trim(text.value))[..wordLimit], " ") + "..."
  {
    if text.None? || text.value == "" then NO_DESCRIPTION
    else
      var words := SplitWs(Trim(text.value));
      if |words| <= wordLimit then text.value else Join(TakeWords(words, wordLimit), " ") + "..."
  }

  /** A truncated description keeps exactly the first `wordLimit` words of the text, then '...'. */
  lemma {:induction false} TruncatedWords(text: string, wordLimit: int)
    requires text != "" && wordLimit >= 1 && |SplitWs(Trim(text))| > wordLimit
    ensures var r := TruncateDescription(Some(text), wordLimit);
      |r| >= 3 && r[|r| - 3..] == "..."
      && SplitWs(r[..|r| - 3]) == SplitWs(Trim(text))[..wordLimit]
  {
    var words := SplitWs(Trim(text));
    assert SplitWs([]) == [[]];
    assert Trim(text) != [];
    SplitWsPlain(Trim(text));
    var kept := words[..wordLimit];
    PlainPrefix(words, wordLimit);
    SplitJoin(kept);
    var j := Join(kept, " ");
    assert TakeWords(words, wordLimit) == kept;
    var r := TruncateDescription(Some(text), wordLimit);
    assert r == j + "...";
    assert r[..|j|] == j && r[|j|..] == "...";
  }

  lemma PlainPrefix(words: seq<string>, n: nat)
    requires n <= |words| && PlainWords(words)
    ensures PlainWords(words[..n])
  {
    var kept := words[..n];
    forall k | 0 <= k < |kept| ensures kept[k] != [] && NoWs(kept[k]) {
      assert kept[k] == words[k];
    }
  }

  // ----- the page state -----

  class Page {
    var products: seq<Product>
    var currentPage: int
    var totalPages: int
    var lastFiltered: seq<Product>
    var shown: seq<Product>
    var activeCategory: string
    var activeBrand: Option<string>
    var activeSearch: string
    var activeSort: Option<string>
    const nameBefore: (string, string) -> bool

    /** The shown page is the clamped current page of the current listing. */
    predicate Consistent()
      reads this
    {
      lastFiltered == Listing(products, activeCategory, activeBrand, activeSearch, activeSort, nameBefore)
      && totalPages == TotalPages(|lastFiltered|)
      && 1 <= currentPage <= totalPages
      && shown == PageOf(lastFiltered, currentPage)
    }

    constructor (nameBefore: (string, string) -> bool)
      ensures products == [] && lastFiltered == [] && shown == []
      ensures currentPage == 1 && totalPages == 1
      ensures activeCategory == "all" && activeBrand == None && activeSearch == "" && activeSort == None
      ensures this.nameBefore == nameBefore
      ensures Consistent()
    {
      products := [];
      currentPage := 1;
      totalPages := 1;
      lastFiltered := [];
      shown := [];
      activeCategory := "all";
      activeBrand := None;
      activeSearch := "";
      activeSort := None;
      this.nameBefore := nameBefore;
    }

    /** `loadProductsFromBackend` on a successful response: `data.data || []`, normalised. */
    method LoadProducts(rows: Option<seq<RawProduct>>)
      modifies this
      ensures products == seq(|RowsOrEmpty(rows)|, i requires 0 <= i < |RowsOrEmpty(rows)| => Normalize(RowsOrEmpty(rows)[i]))
      ensures unchanged(this`currentPage, this`totalPages, this`lastFiltered, this`shown)
      ensures unchanged(this`activeCategory, this`activeBrand, this`activeSearch, this`activeSort)
    {
      var data := RowsOrEmpty(rows);
      products := seq(|data|, i requires 0 <= i < |data| => Normalize(data[i]));
    }

    method ApplyFilters()
      modifies this`lastFiltered, this`totalPages, this`currentPage, this`shown
      ensures lastFiltered == Listing(products, activeCategory, activeBrand, activeSearch, activeSort, nameBefore)
      ensures currentPage == ClampPage(old(currentPage), totalPages)
      ensures Consistent()
    {
      var result := Listing(products, activeCategory, activeBrand, activeSearch, activeSort, nameBefore);
      var total := TotalPages(|result|);
      var page := currentPage;
      if page > total {
        page := total;
      }
      if page < 1 {
        page := 1;
      }
      assert page == ClampPage(currentPage, total);
      lastFiltered := result;
      totalPages := total;
      currentPage := page;
      shown := PageOf(result, page);
    }

    method FilterByCategory(category: Option<string>)
      modifies this
      ensures activeCategory == StrOr(category, "all") && currentPage == 1
      ensures unchanged(this`products, this`activeBrand, this`activeSearch, this`activeSort)
      ensures Consistent()
    {
      activeCategory := StrOr(category, "all");
      currentPage := 1;
      ApplyFilters();
    }

    method FilterByBrand(brand: Option<string>)
      modifies this
      ensures activeBrand == (if brand.Some? && brand.value != "" then brand else None) && currentPage == 1
      ensures unchanged(this`products, this`activeCategory, this`activeSearch, this`activeSort)
      ensures Consistent()
    {
      activeBrand := if brand.Some? && brand.value != "" then brand else None;
      currentPage := 1;
      ApplyFilters();
    }

    method SearchProducts(term: Option<string>)
      modifies this
      ensures activeSearch == Trim(StrOr(term, "")) && currentPage == 1
      ensures unchanged(this`products, this`activeCategory, this`activeBrand, this`activeSort)
      ensures Consistent()
    {
      SetSearch(Trim(StrOr(term, "")));
    }

    method SetSearch(search: string)
      modifies this
      ensures activeSearch == search && currentPage == 1
      ensures unchanged(this`products, this`activeCategory, this`activeBrand, this`activeSort)
      ensures Consistent()
    {
      activeSearch := search;
      currentPage := 1;
      ApplyFilters();
    }

    method SortProducts(sort: Option<string>)
      modifies this
      ensures activeSort == (if sort.Some? && sort.value != "" then sort else None) && currentPage == 1
      ensures unchanged(this`products, this`activeCategory, this`activeBrand, this`activeSearch)
      ensures Consistent()
    {
      activeSort := if sort.Some? && sort.value != "" then sort else None;
      currentPage := 1;
      ApplyFilters();
    }

    /** `goToPage(page)`: a non-number is ignored; otherwise the page is clamped and the filters re-applied. */
    method GoToPage(page: Option<int>)
      modifies this
      ensures page.None? ==> unchanged(this)
      ensures page.Some? ==>
        Consistent() && currentPage == ClampPage(GoToPageClamp(page.value, old(totalPages)), totalPages)
      ensures page.Some? && old(Consistent()) ==> currentPage == ClampPage(page.value, totalPages)
      ensures unchanged(this`products, this`activeCategory, this`activeBrand, this`activeSearch, this`activeSort)
    {
      if page.None? {
        return;
      }
      currentPage := GoToPageClamp(page.value, totalPages);
      ApplyFilters();
    }
  }

  /** `data.data || []`. */
  function RowsOrEmpty(rows: Option<seq<RawProduct>>): seq<RawProduct> {
    if rows.Some? then rows.value else []
  }
}
