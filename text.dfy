/** String primitives the cart page relies on: JavaScript's `trim`,
    `toLowerCase` (restricted to ASCII letters), the `\d` character class,
    and the decimal reading and writing of whole numbers. */
module Text {

  /** The characters `String.prototype.trim` removes: the ECMAScript
      WhiteSpace and LineTerminator code points. */
  predicate IsWhitespace(c: char) {
    var n := c as int;
    n == 0x09 || n == 0x0A || n == 0x0B || n == 0x0C || n == 0x0D || n == 0x20 ||
    n == 0xA0 || n == 0x1680 || (0x2000 <= n <= 0x200A) || n == 0x2028 ||
    n == 0x2029 || n == 0x202F || n == 0x205F || n == 0x3000 || n == 0xFEFF
  }

  predicate AllWhitespace(s: string) {
    forall i :: 0 <= i < |s| ==> IsWhitespace(s[i])
  }

  /** Leading whitespace removed. */
  function TrimStart(s: string): (r: string)
    ensures |r| <= |s| && r == s[|s| - |r|..]
    ensures AllWhitespace(s[..|s| - |r|])
    ensures r == [] || !IsWhitespace(r[0])
  {
    if s != [] && IsWhitespace(s[0]) then TrimStart(s[1..]) else s
  }

  /** Trailing whitespace removed. */
  function TrimEnd(s: string): (r: string)
    ensures |r| <= |s| && r == s[..|r|]
    ensures AllWhitespace(s[|r|..])
    ensures r == [] || !IsWhitespace(r[|r| - 1])
  {
    if s != [] && IsWhitespace(s[|s| - 1]) then TrimEnd(s[..|s| - 1]) else s
  }

  /** `s.trim()`: leading and then trailing whitespace removed. */
  function Trim(s: string): (r: string)
    ensures r == [] || (!IsWhitespace(r[0]) && !IsWhitespace(r[|r| - 1]))
  {
    TrimEnd(TrimStart(s))
  }

  /** What `trim` returns is an infix of its input with only whitespace cut
      away on either side. */
  lemma TrimIsInfix(s: string)
    ensures var r := Trim(s);
      exists a :: (0 <= a <= |s| - |r| && r == s[a..a + |r|] &&
                   AllWhitespace(s[..a]) && AllWhitespace(s[a + |r|..]))
  {
    var t := TrimStart(s);
    var r := TrimEnd(t);
    var a := |s| - |t|;
    assert r == s[a..a + |r|];
    assert s[a + |r|..] == t[|r|..];
    assert AllWhitespace(s[..a]) && AllWhitespace(s[a + |r|..]);
    assert r == Trim(s);
  }

  /** Whitespace in front of a string never survives `TrimStart`. */
  lemma {:induction false} TrimStartSkipsPrefix(p: string, s: string)
    requires AllWhitespace(p)
    ensures TrimStart(p + s) == TrimStart(s)
    decreases |p|
  {
    if p != [] {
      assert (p + s)[0] == p[0];
      assert (p + s)[1..] == p[1..] + s;
      assert TrimStart(p + s) == TrimStart(p[1..] + s);
      TrimStartSkipsPrefix(p[1..], s);
    } else {
      assert p + s == s;
    }
  }

  /** Once a non-whitespace character is reached, what follows is kept. */
  lemma {:induction false} TrimStartKeepsTail(s: string, q: string)
    requires !AllWhitespace(s)
    ensures TrimStart(s + q) == TrimStart(s) + q
    decreases |s|
  {
    if IsWhitespace(s[0]) {
      assert (s + q)[1..] == s[1..] + q;
      assert !AllWhitespace(s[1..]) by {
        var i :| 0 <= i < |s| && !IsWhitespace(s[i]);
        assert s[1..][i - 1] == s[i];
      }
      TrimStartKeepsTail(s[1..], q);
    }
  }

  /** Whitespace at the end of a string never survives `TrimEnd`. */
  lemma {:induction false} TrimEndSkipsSuffix(s: string, q: string)
    requires AllWhitespace(q)
    ensures TrimEnd(s + q) == TrimEnd(s)
    decreases |q|
  {
    if q != [] {
      var n := |q|;
      assert (s + q)[|s + q| - 1] == q[n - 1];
      assert (s + q)[..|s + q| - 1] == s + q[..n - 1];
      assert TrimEnd(s + q) == TrimEnd(s + q[..n - 1]);
      TrimEndSkipsSuffix(s, q[..n - 1]);
    } else {
      assert s + q == s;
    }
  }

  /** Surrounding a string with whitespace does not change what `trim`
      returns. */
  lemma TrimIgnoresPadding(p: string, s: string, q: string)
    requires AllWhitespace(p) && AllWhitespace(q)
    ensures Trim(p + s + q) == Trim(s)
  {
    assert p + s + q == p + (s + q);
    TrimStartSkipsPrefix(p, s + q);
    if AllWhitespace(s) {
      EmptyAfterTrimStart(s);
      EmptyAfterTrimStart(s + q);
    } else {
      TrimStartKeepsTail(s, q);
      TrimEndSkipsSuffix(TrimStart(s), q);
    }
  }

  lemma EmptyAfterTrimStart(s: string)
    requires AllWhitespace(s)
    ensures TrimStart(s) == []
  {
    TrimStartSkipsPrefix(s, []);
    assert s + [] == s;
  }

  /** `toLowerCase` on one character, for the ASCII letters. */
  function LowerChar(c: char): (r: char)
    ensures IsWhitespace(r) == IsWhitespace(c)
  {
    if 'A' <= c <= 'Z' then (c as int + 32) as char else c
  }

  function Lower(s: string): (r: string)
    ensures |r| == |s|
    ensures forall i :: 0 <= i < |s| ==> r[i] == LowerChar(s[i])
  {
    if s == [] then [] else [LowerChar(s[0])] + Lower(s[1..])
  }

  /** Lower-casing and trimming commute: letters are never whitespace. */
  lemma {:induction false} LowerTrimStart(s: string)
    ensures Lower(TrimStart(s)) == TrimStart(Lower(s))
    decreases |s|
  {
    if s != [] && IsWhitespace(s[0]) {
      assert Lower(s)[1..] == Lower(s[1..]);
      LowerTrimStart(s[1..]);
    }
  }

  lemma {:induction false} LowerTrimEnd(s: string)
    ensures Lower(TrimEnd(s)) == TrimEnd(Lower(s))
    decreases |s|
  {
    if s != [] && IsWhitespace(s[|s| - 1]) {
      assert Lower(s)[..|s| - 1] == Lower(s[..|s| - 1]);
      LowerTrimEnd(s[..|s| - 1]);
    }
  }

  lemma LowerTrim(s: string)
    ensures Lower(Trim(s)) == Trim(Lower(s))
  {
    LowerTrimStart(s);
    LowerTrimEnd(TrimStart(s));
  }

  /** The `\d` class of a JavaScript regular expression without the `u` flag. */
  predicate IsDigit(c: char) {
    '0' <= c <= '9'
  }

  predicate IsDigits(s: string) {
    forall i :: 0 <= i < |s| ==> IsDigit(s[i])
  }

  /** `Number(s)` for a string of decimal digits (0 for the empty string). */
  function DigitsValue(s: string): (v: nat)
    requires IsDigits(s)
  {
    if s == [] then 0
    else DigitsValue(s[..|s| - 1]) * 10 + (s[|s| - 1] as int - '0' as int)
  }

  /** A digit string denotes 0 exactly when all its digits are zeros (the
      empty string included): the case the quantity handler replaces by 1. */
  lemma {:induction false} DigitsValueZero(s: string)
    requires IsDigits(s)
    ensures DigitsValue(s) == 0 <==> forall i :: 0 <= i < |s| ==> s[i] == '0'
    decreases |s|
  {
    if s != [] {
      var init := s[..|s| - 1];
      assert IsDigits(init) by {
        assert forall i :: 0 <= i < |init| ==> init[i] == s[i];
      }
      DigitsValueZero(init);
      assert (forall i :: 0 <= i < |s| ==> s[i] == '0') <==>
        (forall i :: 0 <= i < |init| ==> init[i] == '0') && s[|s| - 1] == '0';
    }
  }

  function DigitChar(d: nat): (c: char)
    requires d < 10
    ensures IsDigit(c) && c as int - '0' as int == d
  {
    ('0' as int + d) as char
  }

  /** The decimal numeral of `n`, as JavaScript prints a whole number. */
  function NatToString(n: nat): (r: string)
    ensures r != [] && IsDigits(r)
    ensures DigitsValue(r) == n
    ensures |r| > 1 ==> r[0] != '0'
  {
    if n < 10 then [DigitChar(n)]
    else
      var r := NatToString(n / 10) + [DigitChar(n % 10)];
      assert r[..|r| - 1] == NatToString(n / 10);
      r
  }
}
