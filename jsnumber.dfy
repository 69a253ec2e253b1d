/** The JavaScript numbers this code reads from strings: `parseInt(s, 10)`,
    `Number(s)` and the truthiness tests `!!n` and `n || d` on them. */
module JsNumber {
  import opened Wrappers
  import opened Text

  /** A JavaScript number as it arises here: NaN, or an integer. */
  datatype Number = NaN | Num(value: int)

  /** `!!n`: zero and NaN are falsy, every other number is truthy. */
  predicate Truthy(n: Number) {
    n.Num? && n.value != 0
  }

  /** The longest prefix of `s` made of decimal digits. */
  function DigitPrefix(s: string): (d: string)
    ensures |d| <= |s| && d == s[..|d|] && IsDigits(d)
    ensures |d| == |s| || !IsDigit(s[|d|])
  {
    if s == [] || !IsDigit(s[0]) then []
    else
      var d := DigitPrefix(s[1..]);
      assert s[..1 + |d|] == [s[0]] + s[1..][..|d|];
      [s[0]] + d
  }

  /** A string of digits is its own digit prefix. */
  lemma {:induction false} DigitPrefixOfDigits(s: string)
    requires IsDigits(s)
    ensures DigitPrefix(s) == s
  {
    if s != [] {
      DigitPrefixOfDigits(s[1..]);
    }
  }

  /** The sign a number text may start with, and the text after it. */
  function SplitSign(t: string): (r: (bool, string))
    ensures t != [] && (t[0] == '-' || t[0] == '+') ==> r == (t[0] == '-', t[1..])
    ensures !(t != [] && (t[0] == '-' || t[0] == '+')) ==> r == (false, t)
  {
    if t != [] && (t[0] == '-' || t[0] == '+') then (t[0] == '-', t[1..]) else (false, t)
  }

  function Signed(negative: bool, magnitude: nat): int {
    if negative then -(magnitude as int) else magnitude
  }

  /** `parseInt(s, 10)`: leading white space is skipped, one optional sign is
      read, then the longest run of decimal digits; without a digit the result is NaN. */
  function ParseInt(s: string): (n: Number)
    ensures n.NaN? <==> DigitPrefix(SplitSign(TrimStart(s)).1) == []
  {
    var (negative, body) := SplitSign(TrimStart(s));
    var digits := DigitPrefix(body);
    if digits == [] then NaN else Num(Signed(negative, DigitsValue(digits)))
  }

  /** `Number(s)` for the strings this code passes it: white space around the
      text is ignored, a blank string is 0, an optionally signed run of decimal
      digits is its value, and anything else is NaN. `Number(null)` is 0. */
  function ToNumber(s: Option<string>): (n: Number)
    ensures s.None? ==> n == Num(0)
    ensures s.Some? && IsBlank(s.value) ==> n == Num(0)
    ensures s.Some? && Trim(s.value) != [] ==>
      var (negative, body) := SplitSign(Trim(s.value));
      n == if body != [] && IsDigits(body) then Num(Signed(negative, DigitsValue(body))) else NaN
  {
    match s
    case None => Num(0)
    case Some(text) =>
      var t := Trim(text);
      TrimEmptyIffBlank(text);
      if t == [] then Num(0)
      else
        var (negative, body) := SplitSign(t);
        if body != [] && IsDigits(body) then Num(Signed(negative, DigitsValue(body))) else NaN
  }

  /** `String(n)` is an optional minus sign and the digits of `|n|`, with no
      white space at either end. */
  lemma IntToStringParts(n: int)
    ensures var s := IntToString(n);
      && s != [] && !IsSpace(s[0]) && !IsSpace(s[|s| - 1])
      && SplitSign(s) == (n < 0, NatToString(if n < 0 then -n else n))
  {
    var s := IntToString(n);
    var m: nat := if n < 0 then -n else n;
    var d := NatToString(m);
    assert IsDigit(d[0]) && IsDigit(d[|d| - 1]);
    if n < 0 {
      assert s[|s| - 1] == d[|d| - 1];
    } else {
      assert s == d;
    }
  }

  /** Reading back `String(n)` with `parseInt` gives `n`. */
  lemma ParseIntRoundTrip(n: int)
    ensures ParseInt(IntToString(n)) == Num(n)
  {
    var s := IntToString(n);
    var m: nat := if n < 0 then -n else n;
    IntToStringParts(n);
    NatToStringRoundTrip(m);
    DigitPrefixOfDigits(NatToString(m));
    assert TrimStart(s) == s;
  }

  /** `parseInt` of a run of decimal digits, leading zeros included, is its value. */
  lemma ParseDigits(s: string)
    requires s != [] && IsDigits(s)
    ensures ParseInt(s) == Num(DigitsValue(s))
  {
    assert IsDigit(s[0]) && !IsSpace(s[0]);
    assert TrimStart(s) == s;
    assert SplitSign(s) == (false, s);
    DigitPrefixOfDigits(s);
  }

  /** `Number` of a text with no surrounding white space that is an optional
      sign followed by digits. */
  lemma ToNumberOfSignedDigits(s: string, negative: bool, digits: string)
    requires s != [] && Trim(s) == s
    requires SplitSign(s) == (negative, digits) && digits != [] && IsDigits(digits)
    ensures ToNumber(Some(s)) == Num(Signed(negative, DigitsValue(digits)))
  {
  }

  /** `Number` of a text with no surrounding white space that is not an
      optional sign followed by digits is NaN. */
  lemma ToNumberOfNonDigits(s: string)
    requires s != [] && Trim(s) == s && !IsDigits(SplitSign(s).1)
    ensures ToNumber(Some(s)) == NaN
  {
  }

  /** Reading back `String(n)` with `Number` gives `n`. */
  lemma ToNumberRoundTrip(n: int)
    ensures ToNumber(Some(IntToString(n))) == Num(n)
  {
    var s := IntToString(n);
    var m: nat := if n < 0 then -n else n;
    IntToStringParts(n);
    TrimOfTrimmed(s);
    NatToStringRoundTrip(m);
    ToNumberOfSignedDigits(s, n < 0, NatToString(m));
  }
}
