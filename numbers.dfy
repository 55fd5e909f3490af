/** JavaScript's conversions between strings and numbers, as far as the views use them:
    `parseInt(s)` (radix 10), `parseFloat(s)`, `Number(s)` and `String(n)`.
    NaN is `None`. */
module Numbers {
  import opened Seqs
  import Text

  predicate IsDigit(c: char)
  {
    '0' <= c <= '9'
  }

  predicate AllDigits(s: string)
  {
    forall i :: 0 <= i < |s| ==> IsDigit(s[i])
  }

  function DigitValue(c: char): nat
    requires IsDigit(c)
  {
    c as int - '0' as int
  }

  function DigitChar(d: nat): (c: char)
    requires d < 10
    ensures IsDigit(c) && DigitValue(c) == d
  {
    ('0' as int + d) as char
  }

  /** The longest prefix of `s` made of decimal digits. */
  function LeadingDigits(s: string): (r: string)
    ensures |r| <= |s| && r == s[..|r|]
    ensures AllDigits(r)
    ensures |r| < |s| ==> !IsDigit(s[|r|])
  {
    if s != [] && IsDigit(s[0]) then [s[0]] + LeadingDigits(s[1..]) else []
  }

  /** The value of a string of decimal digits, most significant first. */
  function DigitsValue(ds: string): nat
    requires AllDigits(ds)
  {
    if ds == [] then 0 else DigitsValue(ds[..|ds| - 1]) * 10 + DigitValue(ds[|ds| - 1])
  }

  /** An optional leading `-` or `+`: whether the number is negative, and what follows the sign. */
  function SplitSign(s: string): (bool, string)
  {
    if s != [] && s[0] == '-' then (true, s[1..])
    else if s != [] && s[0] == '+' then (false, s[1..])
    else (false, s)
  }

  function Signed(negative: bool, magnitude: nat): int
  {
    if negative then -(magnitude as int) else magnitude
  }

  /** `parseInt(s)`: leading white space is skipped, then an optional sign, then the longest
      run of digits is read and anything after it ignored; no digit at all gives NaN. */
  function ParseInt(s: string): Option<int>
  {
    var (negative, rest) := SplitSign(Text.TrimStart(s));
    var ds := LeadingDigits(rest);
    if ds == [] then None else Some(Signed(negative, DigitsValue(ds)))
  }

  /** `Number(s)` on a string: white space around the text is ignored, a blank string is 0,
      and otherwise the whole text must be an optionally signed run of digits. */
  function NumberOf(s: string): Option<int>
  {
    var t := Text.Trim(s);
    if t == [] then Some(0)
    else
      var (negative, rest) := SplitSign(t);
      if rest != [] && AllDigits(rest) then Some(Signed(negative, DigitsValue(rest))) else None
  }

  function Pow10(n: nat): (p: nat)
    ensures p >= 1
  {
    if n == 0 then 1 else 10 * Pow10(n - 1)
  }

  /** `parseFloat(s)`: leading white space, an optional sign, digits, and an optional `.` with
      more digits; at least one digit must be present. */
  function ParseFloat(s: string): Option<real>
  {
    var (negative, rest) := SplitSign(Text.TrimStart(s));
    var whole := LeadingDigits(rest);
    var after := rest[|whole|..];
    var fraction := if after != [] && after[0] == '.' then LeadingDigits(after[1..]) else [];
    if whole == [] && fraction == [] then None
    else
      var magnitude := DigitsValue(whole) as real + DigitsValue(fraction) as real / Pow10(|fraction|) as real;
      Some(if negative then -magnitude else magnitude)
  }

  function NatToString(n: nat): (r: string)
    ensures r != [] && AllDigits(r)
  {
    if n < 10 then [DigitChar(n)] else NatToString(n / 10) + [DigitChar(n % 10)]
  }

  /** `String(n)` for an integer: an optional `-` and the decimal digits, no leading zeros. */
  function IntToString(n: int): (r: string)
    ensures r != []
  {
    if n < 0 then "-" + NatToString(-n) else NatToString(n)
  }

  lemma {:induction false} NatToStringValue(n: nat)
    ensures DigitsValue(NatToString(n)) == n
  {
    if n >= 10 {
      NatToStringValue(n / 10);
      var s := NatToString(n);
      assert s[..|s| - 1] == NatToString(n / 10);
    }
  }

  lemma {:induction false} LeadingDigitsOfDigits(s: string)
    requires AllDigits(s)
    ensures LeadingDigits(s) == s
  {
    if s != [] {
      LeadingDigitsOfDigits(s[1..]);
    }
  }

  /** `String(n)` has no white space at either end, so trimming leaves it alone. */
  lemma IntToStringTrimmed(n: int)
    ensures Text.TrimStart(IntToString(n)) == IntToString(n)
    ensures Text.Trim(IntToString(n)) == IntToString(n)
  {
    var s := IntToString(n);
    var m: nat := if n < 0 then -n else n;
    assert IsDigit(NatToString(m)[0]) && IsDigit(NatToString(m)[|NatToString(m)| - 1]);
    assert !Text.IsSpace(s[0]) && !Text.IsSpace(s[|s| - 1]);
    Text.TrimUnchanged(s);
  }

  /** The sign and digits `String(n)` writes. */
  lemma IntToStringSplit(n: int)
    ensures SplitSign(IntToString(n)) == (n < 0, NatToString(if n < 0 then -n else n))
  {
    if n < 0 {
      assert IntToString(n)[1..] == NatToString(-n);
    } else {
      assert IsDigit(NatToString(n)[0]);
    }
  }

  lemma ParseIntReadsString(n: int)
    ensures ParseInt(IntToString(n)) == Some(n)
  {
    var m: nat := if n < 0 then -n else n;
    NatToStringValue(m);
    LeadingDigitsOfDigits(NatToString(m));
    IntToStringTrimmed(n);
    IntToStringSplit(n);
  }

  lemma NumberOfReadsString(n: int)
    ensures NumberOf(IntToString(n)) == Some(n)
  {
    var m: nat := if n < 0 then -n else n;
    NatToStringValue(m);
    IntToStringTrimmed(n);
    IntToStringSplit(n);
  }

  /** Reading back what `String(n)` wrote gives `n`, both with `parseInt` and with `Number`. */
  lemma ParseIntToString(n: int)
    ensures ParseInt(IntToString(n)) == Some(n)
    ensures NumberOf(IntToString(n)) == Some(n)
  {
    ParseIntReadsString(n);
    NumberOfReadsString(n);
  }

  /** `Number("NaN")` is NaN: the text `String` writes for NaN does not read back as a number. */
  lemma NumberOfNaN()
    ensures NumberOf("NaN") == None
    ensures ParseInt("NaN") == None
  {
    Text.TrimUnchanged("NaN");
    assert !AllDigits("NaN") by {
      assert !IsDigit("NaN"[0]);
    }
  }

  /** `String(x)` for a number that may be NaN. */
  function NumberToString(v: Option<int>): string
  {
    match v
    case Some(n) => IntToString(n)
    case None => "NaN"
  }

  /** Reading back what `String(x)` wrote with `Number` gives `x`, NaN included. */
  lemma NumberOfNumberToString(v: Option<int>)
    ensures NumberOf(NumberToString(v)) == v
  {
    if v.Some? {
      NumberOfReadsString(v.value);
    } else {
      NumberOfNaN();
    }
  }

  /** Reading back what `String(x)` wrote with `parseInt` gives `x`, NaN included. */
  lemma ParseIntNumberToString(v: Option<int>)
    ensures ParseInt(NumberToString(v)) == v
  {
    if v.Some? {
      ParseIntReadsString(v.value);
    } else {
      NumberOfNaN();
    }
  }

  /** Distinct integers print differently. */
  lemma IntToStringInjective(a: int, b: int)
    requires IntToString(a) == IntToString(b)
    ensures a == b
  {
    ParseIntReadsString(a);
    ParseIntReadsString(b);
  }
}
