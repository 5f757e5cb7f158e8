/**
 * The field rules of the `Product` table: the validators the ORM runs on
 * create and update, the image-URL rule, and the fixed category list the API
 * serves.
 */
module ProductModel {
  import opened Js
  import opened Text

  /** The category keys the table accepts. */
  const CATEGORY_KEYS: seq<string> := ["caylar", "baklagil", "bakliyat", "bulgur", "baharat", "salca",
                                       "makarna", "seker", "yag", "icecek", "organik", "kuruyemis"]
  const MAX_LABEL_LENGTH := 100

  /** The validator library's `notEmpty`: some character is not white space. */
  predicate NotEmpty(s: string) {
    exists i :: 0 <= i < |s| && !IsWs(s[i])
  }

  /** The variation selectors U+FE0E and U+FE0F, which the length validator does not count. */
  predicate IsPresentationSelector(c: char) {
    c == '\U{FE0E}' || c == '\U{FE0F}'
  }

  /** The length the `len` validator measures: code points other than presentation selectors. */
  function MeasuredLength(s: string): (n: nat)
    ensures n <= |s|
    ensures (forall i :: 0 <= i < |s| ==> !IsPresentationSelector(s[i])) ==> n == |s|
  {
    if s == [] then 0
    else
      var rest := MeasuredLength(s[1..]);
      assert forall i :: 1 <= i < |s| ==> s[i] == s[1..][i - 1];
      (if IsPresentationSelector(s[0]) then 0 else 1) + rest
  }

  /** A regular expression `.` matches anything but these. */
  predicate IsLineTerminator(c: char) {
    c == '\n' || c == '\r' || c == '\U{2028}' || c == '\U{2029}'
  }

  /** `/^https?:\/\/.+/`: the scheme, then at least one character that is not a line terminator. */
  ghost predicate UrlShape(v: string) {
    exists p :: p in {"http://", "https://"} && StartsWith(v, p) && |v| > |p| && !IsLineTerminator(v[|p|])
  }

  const DATA_IMAGE := "data:image/"
  const BASE64_MARK := ";base64,"

  /** The marker `;base64,` starts at position `m`. */
  predicate MarkAt(v: string, m: nat) {
    m + |BASE64_MARK| <= |v| && v[m..m + |BASE64_MARK|] == BASE64_MARK
  }

  /** No line terminator between the end of the prefix and position `m`. */
  predicate ClearUpTo(v: string, m: nat) {
    forall k :: |DATA_IMAGE| <= k < m && k < |v| ==> !IsLineTerminator(v[k])
  }

  /** `/^data:image\/.+;base64,/`: the prefix, a non-empty run without line terminators, then the marker. */
  ghost predicate Base64Shape(v: string) {
    StartsWith(v, DATA_IMAGE) && exists m: nat :: |DATA_IMAGE| < m && MarkAt(v, m) && ClearUpTo(v, m)
  }

  function IsUrl(v: string): (b: bool)
    ensures b <==> UrlShape(v)
  {
    var http := StartsWith(v, "http://") && |v| > 7 && !IsLineTerminator(v[7]);
    var https := StartsWith(v, "https://") && |v| > 8 && !IsLineTerminator(v[8]);
    assert |"http://"| == 7 && |"https://"| == 8;
    http || https
  }

  /** The marker search of the base64 pattern from position `j`, the run before `j` being clear. */
  function ScanBase64(v: string, j: nat): (b: bool)
    requires |DATA_IMAGE| < j && ClearUpTo(v, j)
    ensures b <==> exists m: nat :: j <= m && MarkAt(v, m) && ClearUpTo(v, m)
    decreases |v| - j
  {
    if j + |BASE64_MARK| > |v| then false
    else if MarkAt(v, j) then true
    else if IsLineTerminator(v[j]) then
      assert forall m: nat :: j < m ==> !ClearUpTo(v, m);
      false
    else ScanBase64(v, j + 1)
  }

  function IsBase64(v: string): (b: bool)
    ensures b <==> Base64Shape(v)
  {
    var n := |DATA_IMAGE|;
    if !StartsWith(v, DATA_IMAGE) || |v| <= n then false
    else if IsLineTerminator(v[n]) then
      assert forall m: nat :: n < m ==> !ClearUpTo(v, m);
      false
    else ScanBase64(v, n + 1)
  }

  /** `isValidImage`: null, empty and blank values pass; anything else is a URL or a base64 image. */
  function ImageOk(image: Option<string>): (ok: bool)
    ensures image.None? ==> ok
    ensures image.Some? && Trim(image.value) == "" ==> ok
    ensures image.Some? && Trim(image.value) != "" ==> (ok <==> UrlShape(image.value) || Base64Shape(image.value))
  {
    match image
    case None => true
    case Some(v) => Trim(v) == "" || IsUrl(v) || IsBase64(v)
  }

  /** A row as the ORM validates it; `None` is SQL `NULL`. */
  datatype ProductRecord = ProductRecord(
    name: Option<string>, category: Option<string>, brand: Option<string>, productType: Option<string>,
    price: Option<int>, description: Option<string>, image: Option<string>, stock: Option<int>)

  datatype Field = Name | Category | Brand | Type | Price | Description | Image | Stock

  const FIELDS: seq<Field> := [Name, Category, Brand, Type, Price, Description, Image, Stock]

  predicate LabelOk(s: Option<string>) {
    s.None? || MeasuredLength(s.value) <= MAX_LABEL_LENGTH
  }

  predicate NonNegative(n: Option<int>) {
    n.None? || n.value >= 0
  }

  /** The rules of one column. A `NULL` in a column that allows it skips that column's validators. */
  predicate FieldOk(r: ProductRecord, f: Field) {
    match f
    case Name => r.name.Some? && NotEmpty(r.name.value)
    case Category => r.category.Some? && NotEmpty(r.category.value) && r.category.value in CATEGORY_KEYS
    case Brand => LabelOk(r.brand)
    case Type => LabelOk(r.productType)
    case Price => NonNegative(r.price)
    case Description => r.description.Some? && NotEmpty(r.description.value)
    case Image => ImageOk(r.image)
    case Stock => NonNegative(r.stock)
  }

  /** The columns whose rules fail, in declaration order. */
  function Violations(r: ProductRecord): (errs: seq<Field>)
    ensures forall f :: f in errs <==> !FieldOk(r, f)
    ensures forall i, j :: 0 <= i < j < |errs| ==> errs[i] != errs[j]
  {
    EveryField();
    FailingAmong(r, FIELDS)
  }

  lemma EveryField()
    ensures forall f: Field :: f in FIELDS
  {
    forall f: Field ensures f in FIELDS {
      match f
      case Name => assert FIELDS[0] == f;
      case Category => assert FIELDS[1] == f;
      case Brand => assert FIELDS[2] == f;
      case Type => assert FIELDS[3] == f;
      case Price => assert FIELDS[4] == f;
      case Description => assert FIELDS[5] == f;
      case Image => assert FIELDS[6] == f;
      case Stock => assert FIELDS[7] == f;
    }
  }

  function FailingAmong(r: ProductRecord, fs: seq<Field>): (errs: seq<Field>)
    requires forall i, j :: 0 <= i < j < |fs| ==> fs[i] != fs[j]
    ensures forall f :: f in errs <==> f in fs && !FieldOk(r, f)
    ensures forall i, j :: 0 <= i < j < |errs| ==> errs[i] != errs[j]
  {
    if fs == [] then []
    else
      var rest := FailingAmong(r, fs[1..]);
      assert fs[0] !in fs[1..];
      if FieldOk(r, fs[0]) then rest else [fs[0]] + rest
  }

  /** A record the validators accept: no column fails. */
  predicate Valid(r: ProductRecord) {
    forall f :: FieldOk(r, f)
  }

  lemma ValidIffNoViolations(r: ProductRecord)
    ensures Valid(r) <==> Violations(r) == []
  {
    if Violations(r) != [] {
      assert Violations(r)[0] in Violations(r);
    }
  }

  datatype CategoryEntry = CategoryEntry(key: string, name: string, icon: string)

  /** `Product.getCategories()`: five fixed entries, every key one the table accepts. */
  function GetCategories(): (r: seq<CategoryEntry>)
    ensures |r| == 5
    ensures forall i :: 0 <= i < |r| ==> r[i].key in CATEGORY_KEYS
    ensures forall i, j :: 0 <= i < j < |r| ==> r[i].key != r[j].key
  {
    [CategoryEntry("caylar", "Çaylar", "🍃"), CategoryEntry("baklagil", "Baklagil", "🫘"),
     CategoryEntry("baharat", "Baharat", "🌶️"), CategoryEntry("organik", "Organik", "🌱"),
     CategoryEntry("kuruyemis", "Kuruyemiş", "🥜")]
  }
}
