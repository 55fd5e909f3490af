/** The string operations the views use: `trim`, `toLowerCase` and `includes`. */
module Text {

  /** White space as `String.prototype.trim` and the `\s` regular-expression class see it
      (the ASCII part: space, tab, line feed, vertical tab, form feed, carriage return). */
  predicate IsSpace(c: char)
  {
    c == ' ' || 9 <= c as int <= 13
  }

  predicate AllSpace(s: string)
  {
    forall i :: 0 <= i < |s| ==> IsSpace(s[i])
  }

  function TrimStart(s: string): (r: string)
    ensures |r| <= |s| && r == s[|s| - |r|..]
    ensures AllSpace(s[..|s| - |r|])
    ensures r != [] ==> !IsSpace(r[0])
  {
    if s != [] && IsSpace(s[0]) then TrimStart(s[1..]) else s
  }

  function TrimEnd(s: string): (r: string)
    ensures |r| <= |s| && r == s[..|r|]
    ensures AllSpace(s[|r|..])
    ensures r != [] ==> !IsSpace(r[|r| - 1])
  {
    if s != [] && IsSpace(s[|s| - 1]) then
      var r := TrimEnd(s[..|s| - 1]);
      assert s[|r|..] == s[..|s| - 1][|r|..] + [s[|s| - 1]];
      r
    else s
  }

  /** `s.trim()`: `s` without its leading and trailing white space. */
  function Trim(s: string): (r: string)
    ensures r == [] <==> AllSpace(s)
    ensures r != [] ==> !IsSpace(r[0]) && !IsSpace(r[|r| - 1])
  {
    var t := TrimStart(s);
    var r := TrimEnd(t);
    assert r == [] ==> AllSpace(s) by {
      if r == [] {
        assert t == t[|r|..];
        forall i | 0 <= i < |s| ensures IsSpace(s[i]) {
          if i < |s| - |t| {
            assert s[i] == s[..|s| - |t|][i];
          } else {
            assert s[i] == t[i - (|s| - |t|)];
          }
        }
      }
    }
    r
  }

  /** `!s.trim()`: the string is empty or only white space. */
  predicate IsBlank(s: string)
  {
    Trim(s) == []
  }

  /** A string that neither starts nor ends with white space is its own trim. */
  lemma TrimUnchanged(s: string)
    requires s != [] && !IsSpace(s[0]) && !IsSpace(s[|s| - 1])
    ensures TrimStart(s) == s && TrimEnd(s) == s && Trim(s) == s
  {
  }

  /** Trimming an already-trimmed string changes nothing. */
  lemma TrimIdempotent(s: string)
    ensures Trim(Trim(s)) == Trim(s)
  {
    var r := Trim(s);
    if r != [] {
      assert !IsSpace(r[0]);
      assert TrimStart(r) == r;
      assert !IsSpace(r[|r| - 1]);
      assert TrimEnd(r) == r;
    }
  }

  /** A character above U+FFFF is written in UTF-16 as a surrogate pair. */
  predicate IsAstral(c: char)
  {
    c as int > 0xFFFF
  }

  /** `s.length`: JavaScript counts UTF-16 code units, so an astral character counts twice. */
  function Utf16Length(s: string): (n: nat)
    ensures |s| <= n <= 2 * |s|
    ensures n == |s| <==> forall i :: 0 <= i < |s| ==> !IsAstral(s[i])
    ensures (forall i :: 0 <= i < |s| ==> IsAstral(s[i])) ==> n == 2 * |s|
  {
    if s == [] then 0
    else
      var rest := Utf16Length(s[1..]);
      assert forall i :: 1 <= i < |s| ==> s[i] == s[1..][i - 1];
      (if IsAstral(s[0]) then 2 else 1) + rest
  }

  /** The capital letters of Latin-1: `A` to `Z`, and U+00C0 to U+00DE except the
      multiplication sign U+00D7 (`Á`, `É`, `Ñ`, `Ú`, `Ü` and the rest). */
  predicate IsLatinCapital(c: char)
  {
    'A' <= c <= 'Z' || (192 <= c as int <= 222 && c as int != 215)
  }

  /** A Latin-1 capital lowers to the letter 32 code points above it. */
  function LowerChar(c: char): (r: char)
    ensures IsLatinCapital(c) ==> r as int == c as int + 32
    ensures !IsLatinCapital(c) ==> r == c
    ensures !IsLatinCapital(r)
  {
    if IsLatinCapital(c) then (c as int + 32) as char else c
  }

  /** `s.toLowerCase()` on the letters of Latin-1. */
  function ToLower(s: string): (r: string)
    ensures |r| == |s|
    ensures forall i :: 0 <= i < |s| ==> r[i] == LowerChar(s[i])
  {
    seq(|s|, i requires 0 <= i < |s| => LowerChar(s[i]))
  }

  /** `s.includes(t)`: `t` occurs in `s` as a contiguous piece. */
  predicate Includes(s: string, t: string)
  {
    exists i :: 0 <= i <= |s| - |t| && OccursAt(s, t, i)
  }

  predicate OccursAt(s: string, t: string, i: int)
    requires 0 <= i <= |s| - |t|
  {
    s[i..i + |t|] == t
  }

  /** Every string includes the empty string, so an empty search term matches everything. */
  lemma IncludesEmpty(s: string)
    ensures Includes(s, [])
  {
    assert OccursAt(s, [], 0);
  }

  /** Case-insensitive substring search, as the views write it. */
  predicate IncludesIgnoringCase(s: string, term: string)
  {
    Includes(ToLower(s), ToLower(term))
  }

  /** A Spanish capitalised name lowers as `toLowerCase` lowers it, so `ñan` finds `ÑANDÚ`. */
  lemma SpanishNameLowers()
    ensures ToLower("ÑANDÚ") == "ñandú"
    ensures IncludesIgnoringCase("ÑANDÚ", "ñan")
  {
    assert ToLower("ñan") == "ñan";
    assert OccursAt(ToLower("ÑANDÚ"), "ñan", 0);
  }
}
