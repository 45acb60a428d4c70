/**
 * The JavaScript string built-ins the todo code relies on: `String.prototype.trim`,
 * the UTF-16 `length` that Zod's `min`/`max` checks compare, `Number.prototype.toString`
 * for non-negative integers, and `Array.prototype.join`.
 */
module JsText {

  /** WhiteSpace and LineTerminator code points of ECMAScript: exactly what `trim` removes. */
  predicate IsTrimmable(c: char) {
    || c == '\t' || c == '\n' || c == '\U{B}' || c == '\U{C}' || c == '\r' || c == ' '
    || c == '\U{A0}' || c == '\U{1680}' || ('\U{2000}' <= c <= '\U{200A}')
    || c == '\U{2028}' || c == '\U{2029}' || c == '\U{202F}' || c == '\U{205F}'
    || c == '\U{3000}' || c == '\U{FEFF}'
  }

  /** Every character of `s` satisfies `p` (true for the empty string). */
  predicate AllChars(s: string, p: char -> bool) {
    forall i :: 0 <= i < |s| ==> p(s[i])
  }

  /** Every character of `s` is one that `trim` removes (this includes the empty string). */
  predicate IsBlank(s: string) {
    AllChars(s, IsTrimmable)
  }

  /** The first index from `k` on whose character fails `p`, or `|s|`. */
  function SkipFrom(s: string, p: char -> bool, k: nat): (n: nat)
    requires k <= |s|
    ensures k <= n <= |s|
    ensures forall i :: k <= i < n ==> p(s[i])
    ensures n < |s| ==> !p(s[n])
    decreases |s| - k
  {
    if k == |s| || !p(s[k]) then k else SkipFrom(s, p, k + 1)
  }

  /** The smallest `n` such that every character in `s[n..k]` satisfies `p`. */
  function BackFrom(s: string, p: char -> bool, k: nat): (n: nat)
    requires k <= |s|
    ensures n <= k
    ensures forall i :: n <= i < k ==> p(s[i])
    ensures n > 0 ==> !p(s[n - 1])
  {
    if k == 0 || !p(s[k - 1]) then k else BackFrom(s, p, k - 1)
  }

  /**
   * `s` without the characters satisfying `p` at either end: the part from the first
   * character that fails `p` to the last one, or nothing when there is none.
   */
  function StripBy(s: string, p: char -> bool): (r: string)
    ensures |r| <= |s|
  {
    var a := SkipFrom(s, p, 0);
    var b := BackFrom(s, p, |s|);
    if a < b then s[a..b] else []
  }

  /** `String.prototype.trim`: `s` without its leading and trailing trimmable characters. */
  function Trim(s: string): (r: string)
    ensures |r| <= |s|
  {
    StripBy(s, IsTrimmable)
  }

  /** Where `StripBy(s, p)` lies in `s`: between stripped ends, with kept ends that fail `p`. */
  lemma StripBounds(s: string, p: char -> bool) returns (a: int, b: int)
    ensures 0 <= a <= b <= |s| && StripBy(s, p) == s[a..b]
    ensures forall i :: 0 <= i < a ==> p(s[i])
    ensures forall i :: b <= i < |s| ==> p(s[i])
    ensures a < b ==> !p(s[a]) && !p(s[b - 1])
  {
    a := SkipFrom(s, p, 0);
    var e := BackFrom(s, p, |s|);
    b := if a < e then e else a;
  }

  /** Stripping leaves nothing exactly when every character satisfies `p`. */
  lemma StripEmptyIffAll(s: string, p: char -> bool)
    ensures StripBy(s, p) == [] <==> AllChars(s, p)
  {
    var a, b := StripBounds(s, p);
    if a < b {
      assert StripBy(s, p)[0] == s[a];
    }
  }

  /** A string whose ends fail `p` is left as it is. */
  lemma StripUnchanged(s: string, p: char -> bool)
    requires s != [] && !p(s[0]) && !p(s[|s| - 1])
    ensures StripBy(s, p) == s
  {
    assert SkipFrom(s, p, 0) == 0;
    assert BackFrom(s, p, |s|) == |s|;
    assert s[0..|s|] == s;
  }

  /**
   * `Trim(s)` is the middle slice `s[a..b]` of `s`: everything cut off is trimmable,
   * and a non-empty result neither starts nor ends with a trimmable character.
   */
  lemma TrimIsCore(s: string)
    ensures exists a, b :: 0 <= a <= b <= |s| && Trim(s) == s[a..b]
                          && IsBlank(s[..a]) && IsBlank(s[b..])
    ensures Trim(s) != [] ==> !IsTrimmable(Trim(s)[0]) && !IsTrimmable(Trim(s)[|Trim(s)| - 1])
  {
    var a, b := StripBounds(s, IsTrimmable);
    assert IsBlank(s[..a]) by {
      forall i | 0 <= i < a ensures IsTrimmable(s[..a][i]) {
        assert s[..a][i] == s[i];
      }
    }
    assert IsBlank(s[b..]) by {
      forall i | 0 <= i < |s| - b ensures IsTrimmable(s[b..][i]) {
        assert s[b..][i] == s[b + i];
      }
    }
  }

  /** The trimmed string is empty exactly when the input is blank. */
  lemma TrimEmptyIffBlank(s: string)
    ensures Trim(s) == [] <==> IsBlank(s)
  {
    StripEmptyIffAll(s, IsTrimmable);
  }

  /** A string that neither starts nor ends with a trimmable character is its own trim. */
  lemma TrimUnchanged(s: string)
    requires s != [] && !IsTrimmable(s[0]) && !IsTrimmable(s[|s| - 1])
    ensures Trim(s) == s
  {
    StripUnchanged(s, IsTrimmable);
  }

  /** Trimming twice is trimming once. */
  lemma TrimIdempotent(s: string)
    ensures Trim(Trim(s)) == Trim(s)
  {
    var a, b := StripBounds(s, IsTrimmable);
    var r := Trim(s);
    if r != [] {
      assert r[0] == s[a] && r[|r| - 1] == s[b - 1];
      StripUnchanged(r, IsTrimmable);
    }
  }

  /** The number of UTF-16 code units of `s`: JavaScript's `length`. */
  function Utf16Length(s: string): (n: nat)
    ensures |s| <= n <= 2 * |s|
  {
    if s == [] then 0 else (if s[0] as int >= 0x1_0000 then 2 else 1) + Utf16Length(s[1..])
  }

  /** Outside the supplementary planes every character is one code unit. */
  lemma {:induction false} Utf16LengthOfBmp(s: string)
    requires forall i :: 0 <= i < |s| ==> s[i] as int < 0x1_0000
    ensures Utf16Length(s) == |s|
  {
    if s != [] {
      Utf16LengthOfBmp(s[1..]);
    }
  }

  /** The decimal digit `d` as a character. */
  function DigitChar(d: nat): (c: char)
    requires d < 10
    ensures '0' <= c <= '9' && c as int - '0' as int == d
  {
    (d + '0' as int) as char
  }

  predicate IsDigits(s: string) {
    forall i :: 0 <= i < |s| ==> '0' <= s[i] <= '9'
  }

  /** `n.toString()` for a non-negative integer `n`: its decimal digits, most significant first. */
  function NatToString(n: nat): (r: string)
    ensures r != [] && IsDigits(r)
    ensures |r| == 1 <==> n < 10
  {
    if n < 10 then [DigitChar(n)] else NatToString(n / 10) + [DigitChar(n % 10)]
  }

  /** The value of a string of decimal digits (the inverse of `NatToString`). */
  function DigitsValue(s: string): nat
    requires IsDigits(s)
  {
    if s == [] then 0 else 10 * DigitsValue(s[..|s| - 1]) + (s[|s| - 1] as int - '0' as int)
  }

  /** Reading the decimal digits back gives the number. */
  lemma {:induction false} NatToStringRoundTrip(n: nat)
    ensures DigitsValue(NatToString(n)) == n
  {
    var r := NatToString(n);
    if n >= 10 {
      NatToStringRoundTrip(n / 10);
      assert r[..|r| - 1] == NatToString(n / 10);
    }
  }

  /** `toString` gives different strings for different numbers. */
  lemma NatToStringInjective(m: nat, n: nat)
    requires NatToString(m) == NatToString(n)
    ensures m == n
  {
    NatToStringRoundTrip(m);
    NatToStringRoundTrip(n);
  }

  /** `parts.join(sep)`, by cases; `JoinSnoc` states its left-to-right law. */
  function Join(parts: seq<string>, sep: string): (r: string)
    ensures parts == [] ==> r == []
    ensures |parts| == 1 ==> r == parts[0]
    ensures |parts| > 1 ==> r == parts[0] + sep + Join(parts[1..], sep)
  {
    if parts == [] then []
    else if |parts| == 1 then parts[0]
    else parts[0] + sep + Join(parts[1..], sep)
  }

  /** Joining one more part appends the separator and that part. */
  lemma {:induction false} JoinSnoc(parts: seq<string>, p: string, sep: string)
    requires parts != []
    ensures Join(parts + [p], sep) == Join(parts, sep) + sep + p
  {
    if |parts| > 1 {
      assert (parts + [p])[1..] == parts[1..] + [p];
      JoinSnoc(parts[1..], p, sep);
    } else {
      assert (parts + [p])[1..] == [p];
    }
  }
}
