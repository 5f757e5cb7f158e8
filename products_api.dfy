/**
 * The `/api/products` routes: the listing query (search, exact filters, sort
 * order, pagination), reading one product, and the admin-only create, update
 * and delete. The table is a map from id to row, updated in place.
 */
module ProductsApi {
  import opened Js
  import opened Text
  import Seqs
  import opened CategoryModel
  import PM = ProductModel

  const DEFAULT_LIMIT: nat := 50
  const DEFAULT_OFFSET: nat := 0

  /** A stored product: its validated columns and its creation time. */
  datatype Stored = Stored(record: PM.ProductRecord, createdAt: int)

  // ---------------------------------------------------------------------
  // Listing

  /** The query string after `parseInt`; `None` for a parameter that is not given. */
  datatype Query = Query(
    search: Option<string>, sort: Option<string>, limit: Option<nat>, offset: Option<nat>,
    brand: Option<string>, category: Option<string>)

  datatype SortColumn = PriceColumn | NameColumn | CreatedAtColumn
  datatype Order = Order(column: SortColumn, ascending: bool)

  const DEFAULT_ORDER := Order(CreatedAtColumn, false)

  /** The `ORDER BY` the `sort` parameter selects; anything unrecognised keeps newest first. */
  function OrderFor(sort: Option<string>): (o: Order)
    ensures sort == Some("price-low") ==> o == Order(PriceColumn, true)
    ensures sort == Some("price-high") ==> o == Order(PriceColumn, false)
    ensures sort == Some("name") ==> o == Order(NameColumn, true)
    ensures sort == Some("newest") ==> o == Order(CreatedAtColumn, false)
    ensures sort == Some("oldest") ==> o == Order(CreatedAtColumn, true)
    ensures (sort.None? || sort.value !in {"price-low", "price-high", "name", "newest", "oldest"}) ==> o == DEFAULT_ORDER
  {
    if sort.None? || sort.value == "" then DEFAULT_ORDER
    else match sort.value
      case "price-low" => Order(PriceColumn, true)
      case "price-high" => Order(PriceColumn, false)
      case "name" => Order(NameColumn, true)
      case "newest" => Order(CreatedAtColumn, false)
      case "oldest" => Order(CreatedAtColumn, true)
      case _ => DEFAULT_ORDER
  }

  /** `LIKE '%term%'` on a column; a `NULL` column matches nothing. */
  predicate Like(column: Option<string>, term: string) {
    column.Some? && Contains(column.value, term)
  }

  /** The `WHERE` clause: a non-empty search term in name, description or brand, then exact brand and category. */
  predicate Matches(r: PM.ProductRecord, q: Query) {
    (q.search.None? || q.search.value == "" ||
      Like(r.name, q.search.value) || Like(r.description, q.search.value) || Like(r.brand, q.search.value)) &&
    (q.brand.None? || q.brand.value == "" || r.brand == Some(q.brand.value)) &&
    (q.category.None? || q.category.value == "" || r.category == Some(q.category.value))
  }

  function Hits(table: seq<Stored>, q: Query): seq<Stored> {
    Seqs.Filter(table, (s: Stored) => Matches(s.record, q))
  }

  /** `LIMIT limit OFFSET offset` on a result. */
  function Window(s: seq<Stored>, offset: nat, limit: nat): (r: seq<Stored>)
    ensures |r| <= limit
    ensures offset >= |s| ==> r == []
    ensures offset < |s| ==> r == s[offset..if offset + limit <= |s| then offset + limit else |s|]
  {
    if offset >= |s| then [] else s[offset..if offset + limit <= |s| then offset + limit else |s|]
  }

  datatype Listing = Listing(data: seq<Stored>, total: nat, limit: nat, offset: nat, hasMore: bool, order: Order)

  /**
   * `GET /api/products`. `table` is the table in the order the database
   * returns it for `OrderFor(q.sort)`; the count and the page run the same
   * `WHERE` clause.
   */
  function List(table: seq<Stored>, q: Query): (l: Listing)
    ensures l.limit == (if q.limit.Some? then q.limit.value else DEFAULT_LIMIT)
    ensures l.offset == (if q.offset.Some? then q.offset.value else DEFAULT_OFFSET)
    ensures l.order == OrderFor(q.sort)
    ensures l.total == Seqs.CountWhere(table, (s: Stored) => Matches(s.record, q)) && l.total <= |table|
    ensures l.hasMore <==> l.total > l.offset + l.limit
    ensures |l.data| <= l.limit
    ensures forall i :: 0 <= i < |l.data| ==> Matches(l.data[i].record, q) && l.data[i] in table
    ensures l.data == Window(Hits(table, q), l.offset, l.limit)
  {
    var limit := if q.limit.Some? then q.limit.value else DEFAULT_LIMIT;
    var offset := if q.offset.Some? then q.offset.value else DEFAULT_OFFSET;
    var hits := Hits(table, q);
    CountIsFilterLength(table, q);
    WindowOfHits(table, q, offset, limit);
    Listing(Window(hits, offset, limit), |hits|, limit, offset, |hits| > offset + limit, OrderFor(q.sort))
  }

  lemma WindowOfHits(table: seq<Stored>, q: Query, offset: nat, limit: nat)
    ensures var w := Window(Hits(table, q), offset, limit);
      forall i :: 0 <= i < |w| ==> Matches(w[i].record, q) && w[i] in table
  {
    var hits := Hits(table, q);
    var w := Window(hits, offset, limit);
    forall i | 0 <= i < |w| ensures Matches(w[i].record, q) && w[i] in table {
      assert w[i] == hits[offset + i];
    }
  }

  lemma {:induction false} CountIsFilterLength(table: seq<Stored>, q: Query)
    ensures |Hits(table, q)| == Seqs.CountWhere(table, (s: Stored) => Matches(s.record, q))
    decreases |table|
  {
    if table != [] {
      CountIsFilterLength(table[1..], q);
    }
  }

  /**
   * `hasMore` tells the truth about the page: a page with more after it is
   * full, and a page without more reaches the end of the results.
   */
  lemma HasMoreIsExact(table: seq<Stored>, q: Query)
    ensures var l := List(table, q);
      (l.hasMore ==> |l.data| == l.limit) &&
      (!l.hasMore ==> l.offset + |l.data| == l.total || (l.offset >= l.total && l.data == []))
  {
    CountIsFilterLength(table, q);
  }

  // ---------------------------------------------------------------------
  // Create and update

  /** A request body; absent, `null` and a value are told apart, since update treats them differently. */
  datatype Body = Body(
    name: Given<string>, category: Given<string>, description: Given<string>, brand: Given<string>,
    productType: Given<string>, image: Given<string>, price: Given<int>, stock: Given<int>)

  predicate FalsyText(g: Given<string>) {
    !g.Value? || g.v == ""
  }

  predicate FalsyNumber(g: Given<int>) {
    !g.Value? || g.v == 0
  }

  const REQUIRED := ["name", "category", "description"]

  function RequiredValue(b: Body, field: string): Given<string> {
    if field == "name" then b.name
    else if field == "category" then b.category
    else if field == "description" then b.description
    else Absent
  }

  /** `requiredFields.filter(field => !productData[field])`. */
  function MissingFields(b: Body): (r: seq<string>)
    ensures "name" in r <==> FalsyText(b.name)
    ensures "category" in r <==> FalsyText(b.category)
    ensures "description" in r <==> FalsyText(b.description)
    ensures Seqs.SubseqOf(r, REQUIRED)
  {
    var keep := (f: string) => FalsyText(RequiredValue(b, f));
    var r := Seqs.Filter(REQUIRED, keep);
    Seqs.FilterIsSubseq(REQUIRED, keep);
    assert keep(REQUIRED[0]) ==> REQUIRED[0] in r;
    assert keep(REQUIRED[1]) ==> REQUIRED[1] in r;
    assert keep(REQUIRED[2]) ==> REQUIRED[2] in r;
    r
  }

  /** A falsy price or stock is sent as `null`. */
  function NullIfFalsy(g: Given<int>): (r: Option<int>)
    ensures r.None? <==> FalsyNumber(g)
    ensures r.Some? ==> r.value == g.v && r.value != 0
  {
    if FalsyNumber(g) then None else Some(g.v)
  }

  /** The row `Product.create` is given. */
  function CreateRecord(b: Body): (r: PM.ProductRecord)
    ensures r.price.None? || r.price.value != 0
    ensures r.stock.None? || r.stock.value != 0
    ensures MissingFields(b) == [] ==> r.name.Some? && r.category.Some? && r.description.Some?
    ensures r.price == NullIfFalsy(b.price) && r.stock == NullIfFalsy(b.stock)
    ensures r.name == (if b.name.Value? then Some(b.name.v) else None)
    ensures r.category == (if b.category.Value? then Some(b.category.v) else None)
    ensures r.brand == (if b.brand.Value? then Some(b.brand.v) else None)
    ensures r.productType == (if b.productType.Value? then Some(b.productType.v) else None)
    ensures r.description == (if b.description.Value? then Some(b.description.v) else None)
    ensures r.image == (if b.image.Value? then Some(b.image.v) else None)
  {
    assert MissingFields(b) == [] ==> !FalsyText(b.name) && !FalsyText(b.category) && !FalsyText(b.description);
    PM.ProductRecord(Column(b.name, None), Column(b.category, None), Column(b.brand, None), Column(b.productType, None),
                     NullIfFalsy(b.price), Column(b.description, None), Column(b.image, None), NullIfFalsy(b.stock))
  }

  /** `product.update(updateData)`: an absent text column is kept; price and stock are always written. */
  function Merge(prior: PM.ProductRecord, b: Body): (r: PM.ProductRecord)
    ensures b.name.Absent? ==> r.name == prior.name
    ensures b.description.Absent? ==> r.description == prior.description
    ensures b.category.Absent? ==> r.category == prior.category
    ensures !b.name.Absent? ==> r.name == Column(b.name, None)
    ensures r.price == NullIfFalsy(b.price) && r.stock == NullIfFalsy(b.stock)
    ensures b.price.Absent? ==> r.price.None?
  {
    PM.ProductRecord(Keep(prior.name, b.name), Keep(prior.category, b.category), Keep(prior.brand, b.brand),
                     Keep(prior.productType, b.productType), NullIfFalsy(b.price), Keep(prior.description, b.description),
                     Keep(prior.image, b.image), NullIfFalsy(b.stock))
  }

  function Keep(prior: Option<string>, g: Given<string>): Option<string> {
    if g.Absent? then prior else Column(g, None)
  }

  /** The columns an update writes: the text columns present in the body, and always price and stock. */
  predicate Written(b: Body, f: PM.Field) {
    match f
    case Name => !b.name.Absent?
    case Category => !b.category.Absent?
    case Brand => !b.brand.Absent?
    case Type => !b.productType.Absent?
    case Description => !b.description.Absent?
    case Image => !b.image.Absent?
    case Price => true
    case Stock => true
  }

  /** A column an update does not write keeps its value, and so its verdict. */
  lemma UnwrittenKeepsVerdict(prior: PM.ProductRecord, b: Body, f: PM.Field)
    requires !Written(b, f)
    ensures PM.FieldOk(Merge(prior, b), f) == PM.FieldOk(prior, f)
  {
    var r := Merge(prior, b);
    match f
    case Name => assert r.name == prior.name;
    case Category => assert r.category == prior.category;
    case Brand => assert r.brand == prior.brand;
    case Type => assert r.productType == prior.productType;
    case Description => assert r.description == prior.description;
    case Image => assert r.image == prior.image;
  }

  /**
   * The ORM validates only the columns an update writes. On a valid stored
   * row that is the same as validating the whole merged row.
   */
  lemma WrittenColumnsSuffice(prior: PM.ProductRecord, b: Body)
    requires PM.Valid(prior)
    ensures PM.Valid(Merge(prior, b)) <==> forall f :: Written(b, f) ==> PM.FieldOk(Merge(prior, b), f)
  {
    forall f | !Written(b, f)
      ensures PM.FieldOk(Merge(prior, b), f)
    {
      UnwrittenKeepsVerdict(prior, b, f);
    }
  }

  // ---------------------------------------------------------------------
  // Responses and the table

  datatype Response =
    | Found(row: Stored)
    | Created(id: int)
    | Updated(row: Stored)
    | Deleted
    | Missing(fields: seq<string>)
    | Invalid(errors: seq<PM.Field>)
    | NotFound

  function Status(r: Response): (code: int)
    ensures code == 404 <==> r.NotFound?
    ensures code == 400 <==> r.Missing? || r.Invalid?
    ensures code == 201 <==> r.Created?
  {
    match r
    case Found(_) => 200
    case Created(_) => 201
    case Updated(_) => 200
    case Deleted => 200
    case Missing(_) => 400
    case Invalid(_) => 400
    case NotFound => 404
  }

  class Store {
    var rows: map<int, Stored>
    var nextId: int

    /** Every stored row passes the validators and has an id below the next one. */
    predicate Valid()
      reads this
    {
      forall id :: id in rows ==> PM.Valid(rows[id].record) && id < nextId
    }

    constructor ()
      ensures Valid() && rows == map[] && nextId == 1
    {
      rows := map[];
      nextId := 1;
    }

    /** `GET /api/products/:id`. */
    function Get(id: int): (r: Response)
      reads this
      ensures r.NotFound? <==> id !in rows
      ensures id in rows ==> r == Found(rows[id])
    {
      if id in rows then Found(rows[id]) else NotFound
    }

    /** `POST /api/products`: required fields first, then the validators, then the insert. */
    method Create(b: Body, now: int) returns (r: Response)
      requires Valid()
      modifies this
      ensures Valid()
      ensures MissingFields(b) != [] ==> r == Missing(MissingFields(b)) && rows == old(rows) && nextId == old(nextId)
      ensures MissingFields(b) == [] && PM.Violations(CreateRecord(b)) != [] ==>
        r == Invalid(PM.Violations(CreateRecord(b))) && rows == old(rows) && nextId == old(nextId)
      ensures MissingFields(b) == [] && PM.Violations(CreateRecord(b)) == [] ==>
        r == Created(old(nextId)) && old(nextId) !in old(rows) &&
        rows == old(rows)[old(nextId) := Stored(CreateRecord(b), now)] && nextId == old(nextId) + 1
    {
      var missing := MissingFields(b);
      if missing != [] {
        return Missing(missing);
      }
      var record := CreateRecord(b);
      var errors := PM.Violations(record);
      if errors != [] {
        return Invalid(errors);
      }
      PM.ValidIffNoViolations(record);
      rows := rows[nextId := Stored(record, now)];
      r := Created(nextId);
      nextId := nextId + 1;
    }

    /** `PUT /api/products/:id`: 404 for an unknown id, else the merged row if the validators accept it. */
    method Update(id: int, b: Body) returns (r: Response)
      requires Valid()
      modifies this`rows
      ensures Valid()
      ensures id !in old(rows) ==> r == NotFound && rows == old(rows)
      ensures id in old(rows) ==>
        var merged := Merge(old(rows)[id].record, b);
        (PM.Violations(merged) != [] ==> r == Invalid(PM.Violations(merged)) && rows == old(rows)) &&
        (PM.Violations(merged) == [] ==>
          r == Updated(Stored(merged, old(rows)[id].createdAt)) && rows == old(rows)[id := r.row])
    {
      if id !in rows {
        return NotFound;
      }
      var merged := Merge(rows[id].record, b);
      var errors := PM.Violations(merged);
      if errors != [] {
        return Invalid(errors);
      }
      PM.ValidIffNoViolations(merged);
      var row := Stored(merged, rows[id].createdAt);
      rows := rows[id := row];
      r := Updated(row);
    }

    /** `DELETE /api/products/:id`: 404 for an unknown id, else the row is gone. */
    method Delete(id: int) returns (r: Response)
      requires Valid()
      modifies this`rows
      ensures Valid()
      ensures id !in old(rows) ==> r == NotFound && rows == old(rows)
      ensures id in old(rows) ==> r == Deleted && rows == old(rows) - {id}
    {
      if id !in rows {
        return NotFound;
      }
      rows := rows - {id};
      r := Deleted;
    }
  }
}
