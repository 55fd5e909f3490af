/** The `truncateText` loop that the report and ticket printers share: a text that is too wide
    for its column loses characters from the end until it fits with `...` appended. The
    renderer's text measurement is an uninterpreted width function. */
module Truncation {
  import Text

  const Dots: string := "..."

  /** Keeping the first `n` characters is the longest choice that fits with `...` after it,
      or nothing fits and `n` is 0. */
  predicate LongestFit(text: string, n: nat, maxWidth: real, width: string -> real)
  {
    && n <= |text|
    && (width(text[..n] + Dots) <= maxWidth || n == 0)
    && forall k :: n < k <= |text| ==> width(text[..k] + Dots) > maxWidth
  }

  /** What a truncation promises: a blank text becomes the placeholder, a text that fits is
      kept, and otherwise the result is the longest prefix that fits followed by `...`. */
  predicate Truncated(text: string, maxWidth: real, width: string -> real, placeholder: string, r: string)
  {
    if Text.IsBlank(text) then r == placeholder
    else if width(text) <= maxWidth then r == text
    else
      && |Dots| <= |r| <= |text| + |Dots|
      && r == text[..|r| - |Dots|] + Dots
      && LongestFit(text, |r| - |Dots|, maxWidth, width)
  }

  /** The `while` loop: drop the last character while the text with `...` is too wide. */
  method Shorten(text: string, maxWidth: real, width: string -> real) returns (truncated: string)
    ensures |truncated| <= |text| && truncated == text[..|truncated|]
    ensures LongestFit(text, |truncated|, maxWidth, width)
  {
    truncated := text;
    while width(truncated + Dots) > maxWidth && |truncated| > 0
      invariant truncated == text[..|truncated|]
      invariant forall k :: |truncated| < k <= |text| ==> width(text[..k] + Dots) > maxWidth
      decreases |truncated|
    {
      truncated := truncated[..|truncated| - 1];
    }
  }

  method Truncate(text: string, maxWidth: real, width: string -> real, placeholder: string) returns (r: string)
    ensures Truncated(text, maxWidth, width, placeholder, r)
  {
    if Text.IsBlank(text) {
      return placeholder;
    }
    if width(text) <= maxWidth {
      return text;
    }
    var truncated := Shorten(text, maxWidth, width);
    r := truncated + Dots;
    assert r[..|r| - |Dots|] == truncated;
  }

  /** At most one prefix length is the longest fit. */
  lemma LongestFitUnique(text: string, n1: nat, n2: nat, maxWidth: real, width: string -> real)
    requires LongestFit(text, n1, maxWidth, width) && LongestFit(text, n2, maxWidth, width)
    ensures n1 == n2
  {
  }

  /** The promise pins the result down: two results that both keep it are the same string. */
  lemma TruncatedUnique(text: string, maxWidth: real, width: string -> real, placeholder: string, r1: string, r2: string)
    requires Truncated(text, maxWidth, width, placeholder, r1)
    requires Truncated(text, maxWidth, width, placeholder, r2)
    ensures r1 == r2
  {
    if !Text.IsBlank(text) && width(text) > maxWidth {
      LongestFitUnique(text, |r1| - |Dots|, |r2| - |Dots|, maxWidth, width);
    }
  }
}
