/**
 * `Number(s)` for the numerals the model meets: optional white space around an
 * optionally signed run of decimal digits, with the empty string reading as 0.
 */
module Numbers {
  import opened Js
  import opened Text

  /** Whether `s` is a string of decimal digits with at least one digit. */
  predicate AllDigits(s: string) {
    s != [] && forall i :: 0 <= i < |s| ==> '0' <= s[i] <= '9'
  }

  /** The value of an already trimmed numeral: empty is 0, an optionally signed run of digits is its value. */
  function NumeralOf(t: string): Option<int> {
    if t == "" then Some(0)
    else if AllDigits(t) then Some(DigitsValue(t))
    else if |t| > 1 && t[0] == '-' && AllDigits(t[1..]) then Some(0 - DigitsValue(t[1..]) as int)
    else if |t| > 1 && t[0] == '+' && AllDigits(t[1..]) then Some(DigitsValue(t[1..]))
    else None
  }

  /**
   * `Number(s)`: white space around the
   * numeral is ignored, blank is 0, anything that is not a numeral is `NaN` (`None`).
   */
  function ToNumber(s: string): Option<int> {
    NumeralOf(Trim(s))
  }

  /** A run of digits reads as its value, and with a minus sign as its negation. */
  lemma NumeralOfDigits(t: string)
    requires AllDigits(t)
    ensures NumeralOf(t) == Some(DigitsValue(t))
    ensures NumeralOf("-" + t) == Some(0 - DigitsValue(t) as int)
  {
    var minus := "-" + t;
    assert minus[1..] == t;
    assert !AllDigits(minus) by {
      assert minus[0] == '-';
    }
  }

  /** A formatted integer needs no trimming. */
  lemma IntTrimmed(id: int)
    ensures Trim(IntToString(id)) == IntToString(id)
  {
    IntHasNoOuterWs(id);
    TrimTrimmed(IntToString(id));
  }

  lemma IntHasNoOuterWs(id: int)
    ensures Trimmed(IntToString(id))
  {
    var d := NatToString(if id >= 0 then id else -id);
    var s := IntToString(id);
    assert s[|s| - 1] == d[|d| - 1];
    assert s[0] == '-' || s[0] == d[0];
  }

  /** A formatted integer is a numeral of its value. */
  lemma IntNumeralOf(id: int)
    ensures NumeralOf(IntToString(id)) == Some(id)
  {
    var r := IntToString(id);
    if id >= 0 {
      assert AllDigits(r);
    } else {
      assert !AllDigits(r) by {
        assert r[0] == '-';
      }
      assert AllDigits(r[1..]);
    }
  }

  /** `String(n)` and `Number` are inverse on integers. */
  lemma IntNumeral(id: int)
    ensures ToNumber(IntToString(id)) == Some(id)
  {
    IntTrimmed(id);
    IntNumeralOf(id);
  }
}
