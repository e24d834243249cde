/** The quantity-input sanitiser of the cart page's `input` handler. */
module Quantity {
  import opened Text

  /** `s.replace(/[^\d]/g, "")`: every character that is not an ASCII digit
      removed, the digits kept in order. */
  function DigitsOnly(s: string): (r: string)
    ensures IsDigits(r) && |r| <= |s|
    ensures IsDigits(s) ==> r == s
    ensures r == [] <==> forall i :: 0 <= i < |s| ==> !IsDigit(s[i])
    ensures |s| == 1 ==> r == (if IsDigit(s[0]) then s else [])
  {
    if s == [] then []
    else if IsDigit(s[0]) then [s[0]] + DigitsOnly(s[1..])
    else DigitsOnly(s[1..])
  }

  /** Stripping works piece by piece: the digits of `s + t` are the digits
      of `s` followed by those of `t`. With the one-character case above,
      this fixes the result: every digit kept, in its original order. */
  lemma {:induction false} DigitsOnlyAppend(s: string, t: string)
    ensures DigitsOnly(s + t) == DigitsOnly(s) + DigitsOnly(t)
    decreases |s|
  {
    if s == [] {
      assert s + t == t;
    } else {
      assert (s + t)[0] == s[0];
      assert (s + t)[1..] == s[1..] + t;
      DigitsOnlyAppend(s[1..], t);
    }
  }

  /** The value written back into the quantity field: the digits the user
      typed, or "1" when they are absent or denote a number below 1. */
  function Sanitize(raw: string): (r: string)
    ensures r != [] && IsDigits(r) && DigitsValue(r) >= 1
    ensures DigitsValue(DigitsOnly(raw)) >= 1 ==> r == DigitsOnly(raw)
    ensures DigitsValue(DigitsOnly(raw)) == 0 ==> r == "1"
  {
    var val := DigitsOnly(raw);
    if val == "" || DigitsValue(val) < 1 then "1" else val
  }

  /** An entry that is already a digit string of value at least 1 is
      left exactly as typed (leading zeros included). */
  lemma SanitizeKeepsValidEntry(s: string)
    requires s != [] && IsDigits(s) && DigitsValue(s) >= 1
    ensures Sanitize(s) == s
  {
  }

  /** Sanitising twice is sanitising once. */
  lemma SanitizeIdempotent(raw: string)
    ensures Sanitize(Sanitize(raw)) == Sanitize(raw)
  {
    SanitizeKeepsValidEntry(Sanitize(raw));
  }

  /** What the sanitiser does with a sign, a decimal point, a zero and a
      non-numeric entry: only the digits are kept, so "-5" becomes "5" and
      "2.5" becomes "25"; "0" and "abc" become "1". */
  lemma SanitizeExamples()
    ensures Sanitize("-5") == "5"
    ensures Sanitize("2.5") == "25"
    ensures Sanitize("0") == "1"
    ensures Sanitize("abc") == "1"
    ensures Sanitize("007") == "007"
  {
    assert DigitsOnly("-5") == "5";
    assert DigitsOnly("2.5") == "25";
    assert DigitsOnly("abc") == "";
    assert DigitsValue("0") == 0;
    assert DigitsValue("007") == 7 by {
      assert "007"[..2] == "00" && "00"[..1] == "0" && "0"[..0] == "";
    }
    assert DigitsValue("25") == 25 by {
      assert "25"[..1] == "2" && "2"[..0] == "";
    }
  }
}
