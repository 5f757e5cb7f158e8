/**
 * String helpers shared by the model: the JavaScript notion of white space
 * (what `\s`, `String.prototype.trim` and `split(/\s+/)` use), lower-casing,
 * `includes`/`startsWith`, white-space collapsing and integer formatting.
 */
module Text {

  /** JavaScript white space: WhiteSpace and LineTerminator code points. */
  predicate IsWs(c: char) {
    c == ' ' || c == '\t' || c == '\n' || c == '\r' || c == '\U{000B}' || c == '\U{000C}'
    || c == '\U{00A0}' || c == '\U{FEFF}' || c == '\U{1680}' || ('\U{2000}' <= c <= '\U{200A}')
    || c == '\U{2028}' || c == '\U{2029}' || c == '\U{202F}' || c == '\U{205F}' || c == '\U{3000}'
  }

  /** No white-space character anywhere in `s`. */
  predicate NoWs(s: string) {
    forall i :: 0 <= i < |s| ==> !IsWs(s[i])
  }

  /** No two adjacent white-space characters. */
  predicate NoDoubleWs(s: string) {
    forall i :: 0 <= i < |s| - 1 ==> !WsPairAt(s, i)
  }

  /** White space at `i` and at `i + 1`. */
  predicate WsPairAt(s: string, i: int)
    requires 0 <= i < |s| - 1
  {
    IsWs(s[i]) && IsWs(s[i + 1])
  }

  /** Every white-space character of `s` is a plain space. */
  predicate OnlySpaces(s: string) {
    forall i :: 0 <= i < |s| ==> IsWs(s[i]) ==> s[i] == ' '
  }

  /** Neither starts nor ends with white space. */
  predicate Trimmed(s: string) {
    s == [] || (!IsWs(s[0]) && !IsWs(s[|s| - 1]))
  }

  /**
   * `toLowerCase` on one character: ASCII letters and the Turkish capitals
   * Ç Ö Ü Ğ Ş. Other upper-case code points are left as they are.
   */
  function LowerChar(c: char): (r: char)
    ensures 'A' <= c <= 'Z' ==> 'a' <= r <= 'z'
    ensures !IsWs(c) ==> !IsWs(r)
  {
    if 'A' <= c <= 'Z' then (c as int + 32) as char
    else if c == 'Ç' then 'ç'
    else if c == 'Ö' then 'ö'
    else if c == 'Ü' then 'ü'
    else if c == 'Ğ' then 'ğ'
    else if c == 'Ş' then 'ş'
    else c
  }

  /** The upper-case letters outside ASCII that the model lowers. */
  const TURKISH_CAPITALS := "ÇÖÜĞŞ"

  /** A capital the model lowers: ASCII or one of Ç Ö Ü Ğ Ş. */
  predicate IsCapital(c: char) {
    ('A' <= c <= 'Z') || c in TURKISH_CAPITALS
  }

  /** One character: a capital moves to its small letter, every other character stays, white space with it. */
  lemma LowerCharFacts(c: char)
    ensures 'A' <= c <= 'Z' ==> LowerChar(c) as int == c as int + 32
    ensures !IsCapital(c) ==> LowerChar(c) == c
    ensures !IsCapital(LowerChar(c))
    ensures IsWs(LowerChar(c)) <==> IsWs(c)
  {
  }

  /** `toLowerCase`: each character is lowered on its own. */
  function Lower(s: string): (r: string)
    ensures |r| == |s|
    ensures forall i :: 0 <= i < |s| ==> r[i] == LowerChar(s[i])
  {
    seq(|s|, i requires 0 <= i < |s| => LowerChar(s[i]))
  }

  /** Lower-casing leaves no capital, moves no white space, and keeps text without capitals as it is. */
  lemma LowerFacts(s: string)
    ensures forall i :: 0 <= i < |s| ==> !IsCapital(Lower(s)[i])
    ensures forall i :: 0 <= i < |s| ==> (IsWs(Lower(s)[i]) <==> IsWs(s[i]))
    ensures (forall i :: 0 <= i < |s| ==> !IsCapital(s[i])) ==> Lower(s) == s
  {
    forall i | 0 <= i < |s| ensures !IsCapital(Lower(s)[i]) && (IsWs(Lower(s)[i]) <==> IsWs(s[i])) {
      LowerCharFacts(s[i]);
    }
    if forall i :: 0 <= i < |s| ==> !IsCapital(s[i]) {
      forall i | 0 <= i < |s| ensures Lower(s)[i] == s[i] {
        LowerCharFacts(s[i]);
      }
    }
  }

  /** Lowering twice is lowering once. */
  lemma LowerIdempotent(s: string)
    ensures Lower(Lower(s)) == Lower(s)
  {
    LowerFacts(s);
    LowerFacts(Lower(s));
  }

  /** `needle` occurs in `hay` starting at index `i`. */
  predicate OccursAt(hay: string, needle: string, i: int) {
    0 <= i <= |hay| - |needle| && hay[i..i + |needle|] == needle
  }

  /** `hay.includes(needle)`. */
  predicate Contains(hay: string, needle: string) {
    exists i | 0 <= i <= |hay| - |needle| :: OccursAt(hay, needle, i)
  }

  /** `s.startsWith(p)`. */
  predicate StartsWith(s: string, p: string) {
    p <= s
  }

  /** Case-insensitive `includes`, as `a.toLowerCase().includes(b.toLowerCase())`. */
  predicate ContainsIgnoreCase(hay: string, needle: string) {
    Contains(Lower(hay), Lower(needle))
  }

  lemma ContainsEmpty(hay: string)
    ensures Contains(hay, "")
  {
    assert OccursAt(hay, "", 0);
  }

  lemma ContainsAt(hay: string, needle: string, i: int)
    requires 0 <= i <= |hay| - |needle| && hay[i..i + |needle|] == needle
    ensures Contains(hay, needle)
  {
    assert OccursAt(hay, needle, i);
  }

  /** Drops the white space at the front of `s`. */
  function TrimStart(s: string): (r: string)
    ensures |r| <= |s| && r == s[|s| - |r|..]
    ensures r == [] || !IsWs(r[0])
    ensures forall i :: 0 <= i < |s| - |r| ==> IsWs(s[i])
  {
    if s == [] || !IsWs(s[0]) then s else TrimStart(s[1..])
  }

  /** Drops the white space at the end of `s`. */
  function TrimEnd(s: string): (r: string)
    ensures |r| <= |s| && r == s[..|r|]
    ensures r == [] || !IsWs(r[|r| - 1])
    ensures forall i :: |r| <= i < |s| ==> IsWs(s[i])
  {
    if s == [] || !IsWs(s[|s| - 1]) then s else TrimEnd(s[..|s| - 1])
  }

  /** Every character of `s` is white space. */
  predicate AllWs(s: string)
    decreases |s|
  {
    s == [] || (IsWs(s[0]) && AllWs(s[1..]))
  }

  lemma {:induction false} AllWsAt(s: string)
    ensures AllWs(s) <==> forall i :: 0 <= i < |s| ==> IsWs(s[i])
    decreases |s|
  {
    if s != [] {
      AllWsAt(s[1..]);
      assert forall i :: 1 <= i < |s| ==> s[i] == s[1..][i - 1];
    }
  }

  /** `s[a..b]` is what is left after cutting white space only, before `a` and from `b` on. */
  predicate CutsOnlyWs(s: string, a: int, b: int) {
    0 <= a <= b <= |s| && AllWs(s[..a]) && AllWs(s[b..])
  }

  /** The characters of `s` that are not white space, in order. */
  function Visible(s: string): string {
    if s == [] then [] else (if IsWs(s[0]) then [] else [s[0]]) + Visible(s[1..])
  }

  lemma {:induction false} VisibleAppend(a: string, b: string)
    ensures Visible(a + b) == Visible(a) + Visible(b)
    decreases |a|
  {
    if a == [] {
      assert a + b == b;
    } else {
      assert (a + b)[1..] == a[1..] + b;
      VisibleAppend(a[1..], b);
    }
  }

  lemma {:induction false} VisibleOfWs(s: string)
    requires AllWs(s)
    ensures Visible(s) == []
    decreases |s|
  {
    if s != [] {
      VisibleOfWs(s[1..]);
    }
  }

  /** `String.prototype.trim`: a slice of the input with no white space left at either end. */
  function Trim(s: string): (r: string)
    ensures Trimmed(r)
    ensures exists a, b :: 0 <= a <= b <= |s| && r == s[a..b]
  {
    var t := TrimStart(s);
    var r := TrimEnd(t);
    assert r == s[|s| - |t|..|s| - |t| + |r|];
    assert r != [] ==> r[0] == t[0];
    r
  }

  /** Where `trim` cuts: before the first and after the last non-white-space character, so only white space is cut. */
  function TrimCut(s: string): (c: (nat, nat))
    ensures CutsOnlyWs(s, c.0, c.1)
    ensures Trimmed(s[c.0..c.1])
  {
    var t := TrimStart(s);
    var r := TrimEnd(t);
    var a := |s| - |t|;
    CutsCompose(s, a, t, |r|, r);
    (a, a + |r|)
  }

  /** Trimming keeps every visible character, in order. */
  lemma TrimVisible(s: string)
    ensures Visible(Trim(s)) == Visible(s)
  {
    var a, b := TrimBounds(s);
    CutVisible(s, a, b);
  }

  /** Cutting white space from the front and then from the back cuts white space only. */
  lemma CutsCompose(s: string, a: int, t: string, n: int, r: string)
    requires 0 <= a <= |s| && t == s[a..] && forall i :: 0 <= i < a ==> IsWs(s[i])
    requires 0 <= n <= |t| && r == t[..n] && forall j :: n <= j < |t| ==> IsWs(t[j])
    requires (t == [] || !IsWs(t[0])) && (r == [] || !IsWs(r[|r| - 1]))
    ensures CutsOnlyWs(s, a, a + n) && r == s[a..a + n]
    ensures Trimmed(r)
  {
    assert r != [] ==> r[0] == t[0];
    AllWsAt(s[..a]);
    AllWsAt(s[a + n..]);
    var tail := s[a + n..];
    forall i | 0 <= i < |tail| ensures IsWs(tail[i]) {
      assert tail[i] == t[n + i];
    }
  }

  /** Cutting white space only keeps the visible characters. */
  lemma CutVisible(s: string, a: int, b: int)
    requires CutsOnlyWs(s, a, b)
    ensures Visible(s[a..b]) == Visible(s)
  {
    assert s == s[..a] + s[a..b] + s[b..];
    VisibleAppend(s[..a] + s[a..b], s[b..]);
    VisibleAppend(s[..a], s[a..b]);
    VisibleOfWs(s[..a]);
    VisibleOfWs(s[b..]);
  }

  lemma SliceKeepsNoDoubleWs(s: string, a: int, b: int)
    requires 0 <= a <= b <= |s| && NoDoubleWs(s)
    ensures NoDoubleWs(s[a..b])
  {
    var t := s[a..b];
    forall i | 0 <= i < |t| - 1 ensures !WsPairAt(t, i) {
      assert t[i] == s[a + i] && t[i + 1] == s[a + i + 1];
      assert !WsPairAt(s, a + i);
    }
  }

  lemma SliceKeepsOnlySpaces(s: string, a: int, b: int)
    requires 0 <= a <= b <= |s| && OnlySpaces(s)
    ensures OnlySpaces(s[a..b])
  {
    var t := s[a..b];
    forall i | 0 <= i < |t| ensures IsWs(t[i]) ==> t[i] == ' ' {
      assert t[i] == s[a + i];
    }
  }

  /** Drops every leading white-space character (the rest of a `\s+` run). */
  function DropWs(s: string): (r: string)
    ensures |r| <= |s| && r == s[|s| - |r|..]
    ensures r == [] || !IsWs(r[0])
    ensures forall i :: 0 <= i < |s| - |r| ==> IsWs(s[i])
  {
    if s != [] && IsWs(s[0]) then DropWs(s[1..]) else s
  }

  /** Every character of `r` is a space or occurs in `s`. */
  predicate CharsFrom(r: string, s: string) {
    forall i :: 0 <= i < |r| ==> r[i] == ' ' || r[i] in s
  }

  /** `s.replace(/\s+/g, ' ')`: every maximal white-space run becomes one space. */
  function Collapse(s: string): (r: string)
    ensures |r| <= |s|
    decreases |s|
  {
    if s == [] then []
    else if IsWs(s[0]) then [' '] + Collapse(DropWs(s))
    else [s[0]] + Collapse(s[1..])
  }

  /** The collapsed text has no two adjacent white-space characters, only plain spaces, no character from elsewhere, and is empty iff the input is. */
  lemma {:induction false} CollapseSpacing(s: string)
    ensures NoDoubleWs(Collapse(s)) && OnlySpaces(Collapse(s)) && CharsFrom(Collapse(s), s)
    ensures Collapse(s) == [] <==> s == []
    ensures Collapse(s) != [] && !IsWs(s[0]) ==> Collapse(s)[0] == s[0]
    ensures Collapse(s) != [] && IsWs(s[0]) ==> Collapse(s)[0] == ' '
    decreases |s|
  {
    if s != [] {
      if IsWs(s[0]) {
        var rest := DropWs(s);
        var t := Collapse(rest);
        CollapseSpacing(rest);
        SuffixChars(s, rest);
        ConsSpacing(' ', t);
        ConsCharsFrom(' ', t, rest, s);
      } else {
        var t := Collapse(s[1..]);
        CollapseSpacing(s[1..]);
        SuffixChars(s, s[1..]);
        ConsSpacing(s[0], t);
        ConsCharsFrom(s[0], t, s[1..], s);
      }
    }
  }

  /** Collapsing keeps every visible character, in order. */
  lemma {:induction false} CollapseVisible(s: string)
    ensures Visible(Collapse(s)) == Visible(s)
    decreases |s|
  {
    if s != [] {
      if IsWs(s[0]) {
        var rest := DropWs(s);
        CollapseVisible(rest);
        DropWsVisible(s);
        assert ([' '] + Collapse(rest))[1..] == Collapse(rest);
      } else {
        CollapseVisible(s[1..]);
        assert ([s[0]] + Collapse(s[1..]))[1..] == Collapse(s[1..]);
      }
    }
  }

  lemma {:induction false} DropWsVisible(s: string)
    ensures Visible(DropWs(s)) == Visible(s)
    decreases |s|
  {
    if s != [] && IsWs(s[0]) {
      DropWsVisible(s[1..]);
    }
  }

  /** A word without white space passes through the collapse unchanged. */
  lemma {:induction false} CollapseWordPrefix(w: string, u: string)
    requires NoWs(w)
    ensures Collapse(w + u) == w + Collapse(u)
    decreases |w|
  {
    if w == [] {
      assert w + u == u;
    } else {
      NoWsTail(w);
      CollapseWordPrefix(w[1..], u);
      CollapseWordStep(w[0], w[1..], u);
      assert [w[0]] + w[1..] == w;
    }
  }

  lemma CollapseWordStep(c: char, v: string, u: string)
    requires !IsWs(c) && Collapse(v + u) == v + Collapse(u)
    ensures Collapse(([c] + v) + u) == ([c] + v) + Collapse(u)
  {
    AppendAssoc([c], v, u);
    CollapseCons(c, v + u);
    AppendAssoc([c], v, Collapse(u));
  }

  lemma AppendAssoc(a: string, b: string, c: string)
    ensures (a + b) + c == a + (b + c)
  {
  }

  lemma NoWsTail(w: string)
    requires w != [] && NoWs(w)
    ensures NoWs(w[1..])
  {
    forall i | 0 <= i < |w| - 1 ensures !IsWs(w[1..][i]) {
      assert w[1..][i] == w[i + 1];
    }
  }

  lemma CollapseCons(c: char, u: string)
    requires !IsWs(c)
    ensures Collapse([c] + u) == [c] + Collapse(u)
  {
    assert ([c] + u)[1..] == u;
  }

  /** `s.replace(/\s+/g, ' ')` is `s.split(/\s+/).join(' ')`: the pieces between the runs survive, each run becomes one space. */
  lemma {:induction false} CollapseIsSplitJoin(s: string)
    ensures Collapse(s) == Join(SplitWs(s), " ")
    decreases |s|
  {
    var i := FirstWs(s);
    var w := s[..i];
    var u := s[i..];
    assert s == w + u;
    CollapseWordPrefix(w, u);
    if i == |s| {
      assert u == [];
      assert SplitWs(s) == [s];
    } else {
      var rest := DropWs(u);
      var tail := SplitWs(rest);
      assert SplitWs(s) == [w] + tail;
      calc {
        Collapse(s);
      ==
        w + Collapse(u);
      == { assert Collapse(u) == [' '] + Collapse(rest); }
        w + ([' '] + Collapse(rest));
      == { CollapseIsSplitJoin(rest); }
        w + (" " + Join(tail, " "));
      == { JoinCons(w, tail, " "); }
        Join(SplitWs(s), " ");
      }
    }
  }

  lemma JoinCons(w: string, tail: seq<string>, sep: string)
    requires tail != []
    ensures Join([w] + tail, sep) == w + (sep + Join(tail, sep))
  {
    assert ([w] + tail)[1..] == tail;
  }

  lemma SuffixChars(s: string, u: string)
    requires |u| <= |s| && u == s[|s| - |u|..]
    ensures forall c :: c in u ==> c in s
  {
    forall c | c in u ensures c in s {
      var i :| 0 <= i < |u| && u[i] == c;
      assert s[|s| - |u| + i] == c;
    }
  }

  /** Putting a character in front of single-spaced text keeps it single-spaced. */
  lemma ConsSpacing(c: char, t: string)
    requires NoDoubleWs(t) && OnlySpaces(t)
    requires IsWs(c) ==> c == ' ' && (t == [] || !IsWs(t[0]))
    ensures NoDoubleWs([c] + t) && OnlySpaces([c] + t)
  {
    var r := [c] + t;
    forall i | 1 <= i < |r| ensures r[i] == t[i - 1] { }
    forall i | 1 <= i < |r| - 1 ensures !WsPairAt(r, i) {
      assert !WsPairAt(t, i - 1);
    }
  }

  lemma ConsCharsFrom(c: char, t: string, u: string, s: string)
    requires CharsFrom(t, u) && (forall x :: x in u ==> x in s)
    requires c == ' ' || c in s
    ensures CharsFrom([c] + t, s)
  {
    var r := [c] + t;
    forall i | 1 <= i < |r| ensures r[i] == ' ' || r[i] in s {
      assert r[i] == t[i - 1];
    }
  }

  /** `s.replace(/\s+/g, ' ').trim()`. */
  function Squash(s: string): (r: string)
    ensures Trimmed(r) && NoDoubleWs(r) && OnlySpaces(r) && CharsFrom(r, s)
    ensures |r| <= |s|
  {
    var c := Collapse(s);
    CollapseSpacing(s);
    TrimKeepsSpacing(c);
    Trim(c)
  }

  /** Squashing keeps every visible character, in order. */
  lemma SquashVisible(s: string)
    ensures Visible(Squash(s)) == Visible(s)
  {
    CollapseVisible(s);
    TrimVisible(Collapse(s));
  }

  /** `replace(/\s+/g, ' ').trim()` is `split(/\s+/).join(' ').trim()`. */
  lemma SquashIsSplitJoin(s: string)
    ensures Squash(s) == Trim(Join(SplitWs(s), " "))
  {
    CollapseIsSplitJoin(s);
  }

  lemma TrimKeepsSpacing(c: string)
    requires NoDoubleWs(c) && OnlySpaces(c)
    ensures NoDoubleWs(Trim(c)) && OnlySpaces(Trim(c))
    ensures forall i :: 0 <= i < |Trim(c)| ==> Trim(c)[i] in c
  {
    var a, b := TrimBounds(c);
    SliceKeepsSpacing(c, a, b);
  }

  /** Where `trim` cuts: the result is the slice between the two bounds. */
  lemma TrimBounds(s: string) returns (a: nat, b: nat)
    ensures CutsOnlyWs(s, a, b) && Trim(s) == s[a..b]
  {
    var c := TrimCut(s);
    a, b := c.0, c.1;
  }

  lemma SliceKeepsSpacing(c: string, a: int, b: int)
    requires 0 <= a <= b <= |c| && NoDoubleWs(c) && OnlySpaces(c)
    ensures NoDoubleWs(c[a..b]) && OnlySpaces(c[a..b])
    ensures forall i :: 0 <= i < b - a ==> c[a..b][i] in c
  {
    SliceKeepsNoDoubleWs(c, a, b);
    SliceKeepsOnlySpaces(c, a, b);
    forall i | 0 <= i < b - a ensures c[a..b][i] in c {
      assert c[a..b][i] == c[a + i];
    }
  }

  /** Collapsing and trimming a trimmed, single-spaced text changes nothing. */
  lemma {:induction false} SquashSingleSpaced(s: string)
    requires Trimmed(s) && NoDoubleWs(s) && OnlySpaces(s)
    ensures Squash(s) == s
  {
    CollapseSingleSpaced(s);
    TrimTrimmed(s);
  }

  /** A text without white-space runs other than single spaces is its own collapse. */
  lemma {:induction false} CollapseSingleSpaced(s: string)
    requires NoDoubleWs(s) && OnlySpaces(s)
    ensures Collapse(s) == s
    decreases |s|
  {
    if s != [] {
      var t := s[1..];
      SpacingTail(s);
      CollapseSingleSpaced(t);
      if IsWs(s[0]) {
        assert DropWs(t) == t;
        assert DropWs(s) == t;
      }
      assert s == [s[0]] + t;
    }
  }

  lemma SpacingTail(s: string)
    requires s != [] && NoDoubleWs(s) && OnlySpaces(s)
    ensures NoDoubleWs(s[1..]) && OnlySpaces(s[1..])
    ensures IsWs(s[0]) ==> s[0] == ' ' && (s[1..] == [] || !IsWs(s[1..][0]))
  {
    assert s[1..] == s[1..|s|];
    SliceKeepsNoDoubleWs(s, 1, |s|);
    SliceKeepsOnlySpaces(s, 1, |s|);
    if |s| > 1 {
      assert !WsPairAt(s, 0);
    }
  }

  lemma {:induction false} TrimTrimmed(s: string)
    requires Trimmed(s)
    ensures Trim(s) == s
  {
    assert TrimStart(s) == s;
    assert TrimEnd(s) == s;
  }

  /** Index of the first white-space character of `s`, or `|s|`. */
  function FirstWs(s: string): (i: nat)
    ensures i <= |s| && NoWs(s[..i])
    ensures i < |s| ==> IsWs(s[i])
  {
    if s == [] || IsWs(s[0]) then 0 else 1 + FirstWs(s[1..])
  }

  /** `s.split(/\s+/)`: the pieces between maximal white-space runs. */
  function SplitWs(s: string): (r: seq<string>)
    ensures |r| >= 1
    decreases |s|
  {
    var i := FirstWs(s);
    if i == |s| then [s] else [s[..i]] + SplitWs(DropWs(s[i..]))
  }

  /** Splitting trimmed, non-empty text gives non-empty words without white space. */
  lemma {:induction false} SplitWsPlain(s: string)
    requires s != [] && Trimmed(s)
    ensures PlainWords(SplitWs(s))
    decreases |s|
  {
    var i := FirstWs(s);
    if i < |s| {
      var rest := DropWs(s[i..]);
      RestTrimmed(s, i);
      SplitWsPlain(rest);
      var tail := SplitWs(rest);
      assert SplitWs(s) == [s[..i]] + tail;
      assert s[..i] != [] && NoWs(s[..i]) by { assert i != 0; }
      PlainWordsCons(s[..i], tail);
    }
  }

  /** What follows the first white-space run of trimmed text is trimmed and non-empty. */
  lemma RestTrimmed(s: string, i: nat)
    requires s != [] && Trimmed(s) && i < |s| && IsWs(s[i])
    ensures DropWs(s[i..]) != [] && Trimmed(DropWs(s[i..]))
  {
    var t := s[i..];
    var rest := DropWs(t);
    assert !IsWs(t[|t| - 1]) by { assert t[|t| - 1] == s[|s| - 1]; }
    assert rest != [];
    assert rest[|rest| - 1] == t[|t| - 1] by {
      assert rest == t[|t| - |rest|..];
    }
  }

  lemma PlainWordsCons(w: string, tail: seq<string>)
    requires w != [] && NoWs(w) && PlainWords(tail)
    ensures PlainWords([w] + tail)
  {
    var r := [w] + tail;
    forall k | 0 <= k < |r| ensures r[k] != [] && NoWs(r[k]) {
      if k > 0 { assert r[k] == tail[k - 1]; }
    }
  }

  /** `words.join(sep)`. */
  function Join(words: seq<string>, sep: string): string {
    if words == [] then ""
    else if |words| == 1 then words[0]
    else words[0] + sep + Join(words[1..], sep)
  }

  /** Words as `split(/\s+/)` produces them from trimmed text: non-empty, no white space. */
  predicate PlainWords(words: seq<string>) {
    forall k :: 0 <= k < |words| ==> words[k] != [] && NoWs(words[k])
  }

  lemma FirstWsOfWord(w: string, rest: string)
    requires NoWs(w)
    ensures FirstWs(w + rest) == |w| + FirstWs(rest)
    decreases |w|
  {
    if w != [] {
      assert (w + rest)[1..] == w[1..] + rest;
      FirstWsOfWord(w[1..], rest);
    } else {
      assert w + rest == rest;
    }
  }

  /** Splitting re-joined plain words gives back the words. */
  lemma {:induction false} SplitJoin(words: seq<string>)
    requires |words| >= 1 && PlainWords(words)
    ensures SplitWs(Join(words, " ")) == words
    decreases |words|
  {
    if |words| == 1 {
      FirstWsOfWord(words[0], "");
      assert words[0] + "" == words[0];
    } else {
      var w := words[0];
      var tail := Join(words[1..], " ");
      PlainTail(words);
      JoinStartsPlain(words[1..]);
      SplitCons(w, tail);
      SplitJoin(words[1..]);
      assert words == [w] + words[1..];
    }
  }

  lemma PlainTail(words: seq<string>)
    requires |words| >= 1 && PlainWords(words)
    ensures PlainWords(words[1..])
  {
    forall k | 0 <= k < |words| - 1 ensures words[1..][k] != [] && NoWs(words[1..][k]) {
      assert words[1..][k] == words[k + 1];
    }
  }

  /** A word, one space and text starting with a non-space split into the word and the text's pieces. */
  lemma SplitCons(w: string, tail: string)
    requires w != [] && NoWs(w) && tail != [] && !IsWs(tail[0])
    ensures SplitWs(w + " " + tail) == [w] + SplitWs(tail)
  {
    var s := w + " " + tail;
    assert s == w + (" " + tail);
    FirstWsOfWord(w, " " + tail);
    assert FirstWs(" " + tail) == 0;
    assert s[..|w|] == w;
    assert s[|w|..] == " " + tail;
    assert DropWs(" " + tail) == tail by {
      assert (" " + tail)[1..] == tail;
    }
  }

  lemma {:induction false} JoinStartsPlain(words: seq<string>)
    requires |words| >= 1 && PlainWords(words)
    ensures Join(words, " ") != [] && !IsWs(Join(words, " ")[0])
  {
    if |words| > 1 {
      assert Join(words, " ")[0] == words[0][0];
    }
  }

  function DigitChar(d: int): char
    requires 0 <= d <= 9
  {
    "0123456789"[d]
  }

  /** Decimal digits of a natural number, as template literals print it. */
  function NatToString(n: nat): (r: string)
    ensures |r| >= 1
    ensures forall i :: 0 <= i < |r| ==> '0' <= r[i] <= '9'
  {
    if n < 10 then [DigitChar(n)] else NatToString(n / 10) + [DigitChar(n % 10)]
  }

  /** A template literal's `${n}`: the decimal digits, after a `-` when negative; they read back as `n`. */
  function IntToString(n: int): (r: string)
    ensures |r| >= 1
    ensures n >= 0 ==> DigitsOnly(r) && DigitsValue(r) == n
    ensures n < 0 ==> |r| >= 2 && r[0] == '-' && DigitsOnly(r[1..]) && DigitsValue(r[1..]) == -n
  {
    if n >= 0 then
      NatToStringValue(n);
      NatToString(n)
    else
      NatToStringValue(-n);
      var d := NatToString(-n);
      assert ("-" + d)[1..] == d;
      "-" + d
  }

  predicate DigitsOnly(s: string) {
    forall i :: 0 <= i < |s| ==> '0' <= s[i] <= '9'
  }

  /** Value of a digit string. */
  function DigitsValue(s: string): nat
    requires DigitsOnly(s)
  {
    if s == [] then 0 else DigitsValue(s[..|s| - 1]) * 10 + (s[|s| - 1] as int - '0' as int)
  }

  /** Formatting a natural number and reading it back gives the number. */
  lemma {:induction false} NatToStringValue(n: nat)
    ensures DigitsValue(NatToString(n)) == n
  {
    if n >= 10 {
      var r := NatToString(n);
      assert r[..|r| - 1] == NatToString(n / 10);
      NatToStringValue(n / 10);
    }
  }
}
