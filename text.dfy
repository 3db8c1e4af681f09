/**
 * String helpers used by the core. A Dafny `string` is a sequence of Unicode
 * scalar values, which is exactly what Rust's `str::chars` iterates over, so
 * `|s|` is `s.chars().count()` and no operation here can split a multi-byte
 * character.
 */
module Text {

  /** Rust's `char::is_whitespace`: the Unicode White_Space property. */
  predicate IsWhitespace(c: char) {
    ('\t' <= c <= '\r') || c == ' ' || c == '\U{0085}' || c == '\U{00A0}' || c == '\U{1680}'
    || ('\U{2000}' <= c <= '\U{200A}') || c == '\U{2028}' || c == '\U{2029}' || c == '\U{202F}'
    || c == '\U{205F}' || c == '\U{3000}'
  }

  /** Every character of `s` is whitespace (this includes the empty string). */
  ghost predicate Blank(s: string) {
    forall i :: 0 <= i < |s| ==> IsWhitespace(s[i])
  }

  /** `str::trim_start`: drops the longest whitespace prefix. */
  function TrimStart(s: string): string {
    if |s| > 0 && IsWhitespace(s[0]) then TrimStart(s[1..]) else s
  }

  /** `str::trim_end`: drops the longest whitespace suffix. */
  function TrimEnd(s: string): string {
    if |s| > 0 && IsWhitespace(s[|s| - 1]) then TrimEnd(s[..|s| - 1]) else s
  }

  /** `str::trim`: whitespace removed from both ends. */
  function Trim(s: string): string {
    TrimEnd(TrimStart(s))
  }

  /**
   * `trim_start` leaves a suffix of `s`; what it drops is blank, and what it
   * keeps does not start with whitespace.
   */
  lemma {:induction false} TrimStartSpec(s: string)
    ensures var r := TrimStart(s);
      && |r| <= |s| && r == s[|s| - |r|..]
      && Blank(s[..|s| - |r|])
      && (r != [] ==> !IsWhitespace(r[0]))
  {
    if |s| > 0 && IsWhitespace(s[0]) {
      TrimStartSpec(s[1..]);
      var r := TrimStart(s[1..]);
      assert s[1..][..|s| - 1 - |r|] == s[1..|s| - |r|];
    }
  }

  /**
   * `trim_end` leaves a prefix of `s`; what it drops is blank, and what it
   * keeps does not end with whitespace.
   */
  lemma {:induction false} TrimEndSpec(s: string)
    ensures var r := TrimEnd(s);
      && |r| <= |s| && r == s[..|r|]
      && Blank(s[|r|..])
      && (r != [] ==> !IsWhitespace(r[|r| - 1]))
  {
    if |s| > 0 && IsWhitespace(s[|s| - 1]) {
      TrimEndSpec(s[..|s| - 1]);
    }
  }

  /**
   * The trimmed string is empty exactly when `s` is blank, and otherwise
   * starts and ends with a non-whitespace character.
   */
  lemma {:induction false} TrimSpec(s: string)
    ensures |Trim(s)| <= |s|
    ensures Trim(s) == [] <==> Blank(s)
    ensures Trim(s) != [] ==> !IsWhitespace(Trim(s)[0]) && !IsWhitespace(Trim(s)[|Trim(s)| - 1])
  {
    var t := TrimStart(s);
    TrimStartSpec(s);
    TrimEndSpec(t);
    assert s == s[..|s| - |t|] + t;
  }

  /**
   * The trimmed string is `s` with a blank prefix and a blank suffix cut off:
   * a contiguous piece of the original, at the offset `trim_start` leaves.
   */
  lemma {:induction false} TrimIsInfix(s: string)
    ensures var i, n := |s| - |TrimStart(s)|, |Trim(s)|;
      && 0 <= i && i + n <= |s|
      && Trim(s) == s[i..i + n]
      && Blank(s[..i]) && Blank(s[i + n..])
  {
    var t := TrimStart(s);
    TrimStartSpec(s);
    TrimEndSpec(t);
    SliceOfSuffix(s, |s| - |t|, |TrimEnd(t)|);
  }

  /** Cutting `s[i..]` at `n` is cutting `s` at `i + n`. */
  lemma {:induction false} SliceOfSuffix(s: string, i: nat, n: nat)
    requires i + n <= |s|
    ensures s[i..][..n] == s[i..i + n] && s[i..][n..] == s[i + n..]
  {
  }

  /** Trimming a string that starts and ends with non-whitespace changes nothing. */
  lemma {:induction false} TrimKeepsTight(s: string)
    requires s != [] && !IsWhitespace(s[0]) && !IsWhitespace(s[|s| - 1])
    ensures Trim(s) == s
  {
  }

  /** `trim` is idempotent. */
  lemma {:induction false} TrimIdempotent(s: string)
    ensures Trim(Trim(s)) == Trim(s)
  {
    TrimSpec(s);
    if Trim(s) != [] {
      TrimKeepsTight(Trim(s));
    }
  }

  /** `s.chars().take(n).collect()`: the first `n` characters, or all of them. */
  function Take(s: string, n: nat): string {
    if |s| <= n then s else s[..n]
  }

  function DigitChar(d: nat): char
    requires d < 10
  {
    "0123456789"[d]
  }

  /** Decimal rendering of a natural number, as `format!("{n}")` prints a `usize`. */
  function Decimal(n: nat): string {
    if n < 10 then [DigitChar(n)] else Decimal(n / 10) + [DigitChar(n % 10)]
  }
}
