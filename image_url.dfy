/**
 * `getImageUrl` of the React storefront: the address an image path is shown
 * from. The API base is read from the build environment, so it is a parameter.
 */
module ImageUrl {
  import opened Js
  import opened Text

  const DEFAULT_API_BASE := "http://localhost:3001"
  /** The placeholder address; the scheme is its own literal so that its characters are visible to the proofs below. */
  const DEFAULT_PRODUCT_IMAGE := "https://" + "images.unsplash.com/photo-1599420186946-7b6fb4e297f0?w=400&h=400&fit=crop"
  const UPLOADS := "/uploads/"

  /** `VITE_API_URL || 'http://localhost:3001'`. */
  function ApiBase(env: Option<string>): (base: string)
    ensures (env.None? || env.value == "") ==> base == DEFAULT_API_BASE
    ensures env.Some? && env.value != "" ==> base == env.value
  {
    StrOr(env, DEFAULT_API_BASE)
  }

  /** An address the helper hands back untouched. */
  predicate Absolute(s: string) {
    StartsWith(s, "http") || StartsWith(s, "data:image")
  }

  function GetImageUrl(path: Option<string>, base: string): (url: string)
    ensures (path.None? || path.value == "") ==> url == DEFAULT_PRODUCT_IMAGE
    ensures path.Some? && path.value != "" && Absolute(path.value) ==> url == path.value
    ensures path.Some? && path.value != "" && !Absolute(path.value) ==> url == base + UPLOADS + path.value
  {
    if path.None? || path.value == "" then DEFAULT_PRODUCT_IMAGE
    else if StartsWith(path.value, "http") then path.value
    else if StartsWith(path.value, "data:image") then path.value
    else base + UPLOADS + path.value
  }

  /** With a base that starts with `http`, as the default does, every result is absolute. */
  lemma ResultAbsolute(path: Option<string>, base: string)
    requires StartsWith(base, "http")
    ensures Absolute(GetImageUrl(path, base))
  {
    var url := GetImageUrl(path, base);
    if path.None? || path.value == "" {
      DefaultImageIsHttp();
    } else if !Absolute(path.value) {
      assert url[..4] == base[..4];
    }
  }

  /** Applying the helper to its own result changes nothing, whenever the base starts with `http`. */
  lemma Idempotent(path: Option<string>, base: string)
    requires StartsWith(base, "http")
    ensures GetImageUrl(Some(GetImageUrl(path, base)), base) == GetImageUrl(path, base)
  {
    ResultAbsolute(path, base);
  }

  lemma DefaultImageIsHttp()
    ensures StartsWith(DEFAULT_PRODUCT_IMAGE, "http")
  {
    assert "https://"[..4] == "http";
  }

  lemma DefaultBaseIsHttp()
    ensures StartsWith(ApiBase(None), "http")
  {
    assert DEFAULT_API_BASE[0] == 'h' && DEFAULT_API_BASE[1] == 't' && DEFAULT_API_BASE[2] == 't' && DEFAULT_API_BASE[3] == 'p';
  }
}
