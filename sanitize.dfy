/**
 * The text sanitisers of the storefront: `cleanHtmlAttributes`,
 * `forceCleanText` (three identical copies, one per page script) and
 * `cleanProduct`. The attribute-stripping regular expressions between the
 * tag removal and the white-space collapse are the parameter `strip`; every
 * property below holds whatever `strip` does.
 */
module Sanitize {
  import opened Js
  import opened Text

  /** The letters and digits of `[a-zA-ZÇÖÜĞIŞçöüğış0-9]`. */
  predicate IsWordChar(c: char) {
    ('a' <= c <= 'z') || ('A' <= c <= 'Z') || ('0' <= c <= '9')
    || c == 'Ç' || c == 'Ö' || c == 'Ü' || c == 'Ğ' || c == 'I' || c == 'Ş'
    || c == 'ç' || c == 'ö' || c == 'ü' || c == 'ğ' || c == 'ı' || c == 'ş'
  }

  predicate HasWordChar(s: string) {
    exists i | 0 <= i < |s| :: IsWordChar(s[i])
  }

  predicate IsMarkupChar(c: char) {
    c == '<' || c == '>' || c == '"' || c == '\''
  }

  /** None of `< > " '` occurs. */
  predicate NoMarkup(s: string) {
    forall i :: 0 <= i < |s| ==> !IsMarkupChar(s[i])
  }

  /** Collapsing and trimming white space brings in no markup character. */
  lemma SquashKeepsNoMarkup(s: string)
    requires NoMarkup(s)
    ensures NoMarkup(Squash(s))
  {
    var q := Squash(s);
    forall i | 0 <= i < |q| ensures !IsMarkupChar(q[i]) {
      assert q[i] == ' ' || q[i] in s;
    }
  }

  /** No `<` has a `>` anywhere after it: nothing `/<[^>]*>/` could match is left. */
  predicate TagFree(s: string) {
    forall i, j :: 0 <= i < j < |s| && s[i] == '<' ==> s[j] != '>'
  }

  /** What every sanitiser output satisfies. */
  predicate Clean(s: string) {
    Trimmed(s) && NoDoubleWs(s) && OnlySpaces(s) && (s == "" || (|s| >= 2 && HasWordChar(s)))
  }

  /** Index of the first `c` in `s`, or `|s|`. */
  function IndexOf(s: string, c: char): (i: nat)
    ensures i <= |s| && c !in s[..i]
    ensures i < |s| ==> s[i] == c
    ensures i == |s| <==> c !in s
  {
    if s == [] then 0 else if s[0] == c then 0 else 1 + IndexOf(s[1..], c)
  }

  /** `s.replace(/<[^>]*>/g, '')`: each `<` with a later `>` is removed together with everything up to that `>`. */
  function RemoveTags(s: string): (r: string)
    ensures TagFree(r)
    ensures |r| <= |s|
    ensures forall c :: c in r ==> c in s
    ensures '<' !in s ==> r == s
    decreases |s|
  {
    if s == [] then []
    else if s[0] == '<' && '>' in s[1..] then
      RemoveTags(s[1..][IndexOf(s[1..], '>') + 1..])
    else
      var t := RemoveTags(s[1..]);
      assert s[0] == '<' ==> forall c :: c in t ==> c != '>';
      var r := [s[0]] + t;
      assert forall i :: 1 <= i < |r| ==> r[i] == t[i - 1];
      r
  }

  /** `s.replace(/[…]/g, '')` for a class of single characters. */
  function RemoveChars(s: string, bad: set<char>): (r: string)
    ensures forall i :: 0 <= i < |r| ==> r[i] !in bad
    ensures forall c :: c in r <==> c in s && c !in bad
    ensures |r| <= |s|
  {
    if s == [] then []
    else if s[0] in bad then RemoveChars(s[1..], bad)
    else [s[0]] + RemoveChars(s[1..], bad)
  }

  /** The last check of both sanitisers: fewer than two characters, or no letter or digit, gives ''. */
  function Meaningful(s: string): (r: string)
    ensures r == "" || (r == s && |r| >= 2 && HasWordChar(r))
    ensures |s| >= 2 && HasWordChar(s) ==> r == s
  {
    if |s| < 2 || !HasWordChar(s) then "" else s
  }

  /** The texts that send `forceCleanText` down its markup-removing branch. */
  predicate LooksLikeMarkup(s: string) {
    Contains(s, "<") || Contains(s, "alt=") || Contains(s, "loading=") || Contains(s, "onerror=")
  }

  /** The markup-removing branch: tags, then the attribute steps, then quotes, then angle brackets. */
  function StripMarkup(s: string, strip: string -> string): (r: string)
    ensures NoMarkup(r)
  {
    var u := RemoveChars(strip(RemoveTags(s)), {'"', '\''});
    var t := RemoveChars(u, {'<', '>'});
    assert forall i :: 0 <= i < |t| ==> t[i] in u;
    t
  }

  /**
   * `forceCleanText(text)`: '' for a falsy text; a text that looks like
   * markup loses its tags, attributes, quotes and angle brackets; then white
   * space is collapsed and trimmed and a text without substance becomes ''.
   */
  function ForceCleanText(text: Option<string>, strip: string -> string): (r: string)
    ensures Clean(r)
    ensures text.None? || text.value == "" ==> r == ""
    ensures text.Some? && LooksLikeMarkup(text.value) ==> NoMarkup(r)
    ensures text.Some? && !LooksLikeMarkup(text.value) ==> r == Meaningful(Squash(text.value))
  {
    if text.None? || text.value == "" then ""
    else
      var s := text.value;
      var t := if LooksLikeMarkup(s) then StripMarkup(s, strip) else s;
      if LooksLikeMarkup(s) then SquashKeepsNoMarkup(t); Meaningful(Squash(t))
      else Meaningful(Squash(t))
  }

  /** Text that is already clean, single-spaced and without markup passes through unchanged. */
  lemma {:induction false} ForceCleanKeepsPlainText(s: string, strip: string -> string)
    requires Clean(s) && s != "" && NoMarkup(s)
    requires !Contains(s, "alt=") && !Contains(s, "loading=") && !Contains(s, "onerror=")
    ensures ForceCleanText(Some(s), strip) == s
  {
    assert !Contains(s, "<") by {
      forall i | 0 <= i <= |s| - 1 ensures !OccursAt(s, "<", i) {
        assert s[i..i + 1][0] == s[i];
      }
    }
    assert !LooksLikeMarkup(s);
    SquashSingleSpaced(s);
    assert Meaningful(s) == s;
  }

  /** `cleanHtmlAttributes(text)`: tags, then the attribute steps, then white space, then the substance check. */
  function CleanHtmlAttributes(text: Option<string>, strip: string -> string): (r: string)
    ensures Clean(r)
    ensures text.None? || text.value == "" ==> r == ""
  {
    if text.None? || text.value == "" then ""
    else Meaningful(Squash(strip(RemoveTags(text.value))))
  }

  /**
   * `cleanProduct(product)`: a copy with the same keys in which every string
   * field is cleaned and every other field is left as it was.
   */
  function CleanProduct(product: JsObject, strip: string -> string): (r: JsObject)
    ensures r.Keys == product.Keys
    ensures forall k :: k in product && !product[k].JStr? ==> r[k] == product[k]
    ensures forall k :: k in r && r[k].JStr? ==> Clean(r[k].s)
    ensures forall k :: k in product && product[k].JStr? ==>
      r[k] == JStr(CleanHtmlAttributes(Some(product[k].s), strip))
  {
    map k | k in product :: if product[k].JStr? then JStr(CleanHtmlAttributes(Some(product[k].s), strip)) else product[k]
  }
}
