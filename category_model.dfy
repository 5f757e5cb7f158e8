/**
 * The field rules and defaults of the `Category` table. A column a create
 * request leaves out gets its default; an explicit `NULL` does not.
 */
module CategoryModel {
  import opened Js
  import opened Text
  import ProductModel

  const DEFAULT_ICON := "fas fa-tag"
  const DEFAULT_COLOR := "#666666"
  const DEFAULT_ACTIVE := true

  /** A column of a create request: left out, given as `null`, or given a value. */
  datatype Given<T> = Absent | Null | Value(v: T)

  datatype CategoryInput = CategoryInput(
    key: Given<string>, name: Given<string>, icon: Given<string>, color: Given<string>, isActive: Given<bool>)

  /** A row as the ORM validates it; `None` is SQL `NULL`. */
  datatype CategoryRow = CategoryRow(
    key: Option<string>, name: Option<string>, icon: Option<string>, color: Option<string>, isActive: Option<bool>)

  function Column<T>(g: Given<T>, default: Option<T>): (r: Option<T>)
    ensures g.Value? ==> r == Some(g.v)
    ensures g.Null? ==> r == None
    ensures g.Absent? ==> r == default
  {
    match g
    case Absent => default
    case Null => None
    case Value(v) => Some(v)
  }

  /** The row a create request produces: icon, colour and the active flag have defaults, key and name do not. */
  function WithDefaults(input: CategoryInput): (row: CategoryRow)
    ensures input.icon.Absent? ==> row.icon == Some(DEFAULT_ICON)
    ensures input.color.Absent? ==> row.color == Some(DEFAULT_COLOR)
    ensures input.isActive.Absent? ==> row.isActive == Some(DEFAULT_ACTIVE)
    ensures input.key.Absent? ==> row.key == None
    ensures input.name.Absent? ==> row.name == None
    ensures input.key.Value? ==> row.key == Some(input.key.v)
    ensures input.name.Value? ==> row.name == Some(input.name.v)
    ensures input.icon.Value? ==> row.icon == Some(input.icon.v)
    ensures input.color.Value? ==> row.color == Some(input.color.v)
    ensures input.isActive.Value? ==> row.isActive == Some(input.isActive.v)
    ensures input.key.Null? ==> row.key == None
    ensures input.name.Null? ==> row.name == None
    ensures input.icon.Null? ==> row.icon == None
    ensures input.color.Null? ==> row.color == None
    ensures input.isActive.Null? ==> row.isActive == None
  {
    CategoryRow(Column(input.key, None), Column(input.name, None), Column(input.icon, Some(DEFAULT_ICON)),
                Column(input.color, Some(DEFAULT_COLOR)), Column(input.isActive, Some(DEFAULT_ACTIVE)))
  }

  predicate IsHexDigit(c: char) {
    '0' <= c <= '9' || 'A' <= c <= 'F' || 'a' <= c <= 'f'
  }

  /** `/^#[0-9A-F]{6}$/i`: a hash and exactly six hex digits of either case. */
  predicate IsHexColor(s: string) {
    |s| == 7 && s[0] == '#' && forall i :: 1 <= i < 7 ==> IsHexDigit(s[i])
  }

  datatype CategoryField = Key | Name | Color | IsActive

  /** The rules of one column. A `NULL` colour skips the pattern; a `NULL` elsewhere is a violation. */
  predicate FieldOk(row: CategoryRow, f: CategoryField) {
    match f
    case Key => row.key.Some? && ProductModel.NotEmpty(row.key.value) && Lower(row.key.value) == row.key.value
    case Name => row.name.Some? && ProductModel.NotEmpty(row.name.value)
    case Color => row.color.None? || IsHexColor(row.color.value)
    case IsActive => row.isActive.Some?
  }

  function Flag(row: CategoryRow, f: CategoryField): seq<CategoryField> {
    if FieldOk(row, f) then [] else [f]
  }

  /** The failing columns, in declaration order. */
  function Violations(row: CategoryRow): (errs: seq<CategoryField>)
    ensures forall f :: f in errs <==> !FieldOk(row, f)
    ensures |errs| <= 4
  {
    Flag(row, Key) + Flag(row, Name) + Flag(row, Color) + Flag(row, IsActive)
  }

  /**
   * The defaults are themselves valid: giving only a key and a name is
   * accepted exactly when those two are, and only then.
   */
  lemma DefaultsValid(key: string, name: string)
    ensures IsHexColor(DEFAULT_COLOR)
    ensures var row := WithDefaults(CategoryInput(Value(key), Value(name), Absent, Absent, Absent));
      Violations(row) == [] <==>
        ProductModel.NotEmpty(key) && Lower(key) == key && ProductModel.NotEmpty(name)
  {
    var row := WithDefaults(CategoryInput(Value(key), Value(name), Absent, Absent, Absent));
    assert forall i :: 1 <= i < 7 ==> DEFAULT_COLOR[i] == '6';
    assert FieldOk(row, Color) && FieldOk(row, IsActive);
  }

  /** The colour pattern ignores case: lower-casing a valid colour keeps it valid. */
  lemma HexColorLower(s: string)
    requires IsHexColor(s)
    ensures IsHexColor(Lower(s))
  {
    forall i | 1 <= i < 7
      ensures IsHexDigit(Lower(s)[i])
    {
      assert Lower(s)[i] == LowerChar(s[i]);
    }
  }
}
