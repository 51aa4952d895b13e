/**
 * The pieces of JavaScript string behaviour the command-line client relies on:
 * `String.prototype.trim`, the regular-expression character classes `\d` and
 * `\w`, ASCII case folding, `Array.prototype.join`, and the decimal rendering
 * of integral numbers in template literals.
 */
module Text {

  /** The regular-expression class `\d` (without the `u` flag): `[0-9]`. */
  predicate IsDigit(c: char) { '0' <= c <= '9' }

  /** The regular-expression class `\w` (without the `u` flag): `[A-Za-z0-9_]`. */
  predicate IsWordChar(c: char) {
    'a' <= c <= 'z' || 'A' <= c <= 'Z' || IsDigit(c) || c == '_'
  }

  predicate AllDigits(s: string) {
    forall k :: 0 <= k < |s| ==> IsDigit(s[k])
  }

  predicate AllWordChars(s: string) {
    forall k :: 0 <= k < |s| ==> IsWordChar(s[k])
  }

  /**
   * The characters `trim` removes: ECMAScript WhiteSpace (tab, vertical tab,
   * form feed, no-break space, byte order mark and every space separator of
   * category Zs) and LineTerminator (line feed, carriage return, U+2028, U+2029).
   */
  predicate IsJsSpace(c: char)
    ensures IsJsSpace(c) ==> !IsWordChar(c)
  {
    var n := c as int;
    n == 0x09 || n == 0x0A || n == 0x0B || n == 0x0C || n == 0x0D || n == 0x20
    || n == 0xA0 || n == 0x1680 || (0x2000 <= n <= 0x200A)
    || n == 0x2028 || n == 0x2029 || n == 0x202F || n == 0x205F
    || n == 0x3000 || n == 0xFEFF
  }

  /**
   * Case folding of a case-insensitive regular expression without the `u`
   * flag, as it acts when the pattern character is ASCII: only the letters
   * A-Z change. A non-ASCII character never folds onto an ASCII one.
   */
  function AsciiLower(c: char): (l: char)
    ensures 'A' <= c <= 'Z' ==> 'a' <= l <= 'z' && l as int == c as int + 32
    ensures !('A' <= c <= 'Z') ==> l == c
  {
    if 'A' <= c <= 'Z' then (c as int + 32) as char else c
  }

  /** Every character of `s` in `[lo, hi)` is white space. */
  predicate SpaceBetween(s: string, lo: nat, hi: nat)
    requires lo <= hi <= |s|
  {
    forall k :: lo <= k < hi ==> IsJsSpace(s[k])
  }

  /** The first index at or after `i` whose character is not white space, or `|s|`. */
  function SkipSpace(s: string, i: nat): (j: nat)
    requires i <= |s|
    ensures i <= j <= |s| && SpaceBetween(s, i, j)
    ensures j == |s| || !IsJsSpace(s[j])
    decreases |s| - i
  {
    if i < |s| && IsJsSpace(s[i]) then SkipSpace(s, i + 1) else i
  }

  /**
   * Scanning back from `j`, but not past `lo`: the index just after the last
   * character that is not white space, or `lo`.
   */
  function SkipSpaceBack(s: string, lo: nat, j: nat): (k: nat)
    requires lo <= j <= |s|
    ensures lo <= k <= j && SpaceBetween(s, k, j)
    ensures k == lo || !IsJsSpace(s[k - 1])
    decreases j
  {
    if lo < j && IsJsSpace(s[j - 1]) then SkipSpaceBack(s, lo, j - 1) else j
  }

  /** `s.trimEnd()`: drops trailing white space. */
  function TrimEnd(s: string): (r: string)
    ensures |r| <= |s| && r == s[..|r|]
    ensures SpaceBetween(s, |r|, |s|)
    ensures r == [] || !IsJsSpace(r[|r| - 1])
  {
    s[..SkipSpaceBack(s, 0, |s|)]
  }

  /**
   * `s.trim()`: the part of `s` between its leading and its trailing white
   * space. The result is empty exactly when `s` is white space only.
   */
  function Trim(s: string): (r: string)
    ensures r == [] || (!IsJsSpace(r[0]) && !IsJsSpace(r[|r| - 1]))
    ensures r == [] <==> SpaceBetween(s, 0, |s|)
    ensures var lo := SkipSpace(s, 0);
      lo + |r| <= |s| && r == s[lo..lo + |r|]
      && SpaceBetween(s, 0, lo) && SpaceBetween(s, lo + |r|, |s|)
  {
    var lo := SkipSpace(s, 0);
    s[lo..SkipSpaceBack(s, lo, |s|)]
  }

  /** A string with no white space at either end is its own trim. */
  lemma TrimUnchanged(s: string)
    requires s == [] || (!IsJsSpace(s[0]) && !IsJsSpace(s[|s| - 1]))
    ensures Trim(s) == s
  {
  }

  /**
   * Scanning back over `a + b`, where `a` does not end in white space, never
   * leaves `b`.
   */
  lemma {:induction false} SkipSpaceBackAppend(a: string, b: string, lo: nat, j: nat)
    requires a != [] && !IsJsSpace(a[|a| - 1]) && lo < |a| && j <= |b|
    ensures SkipSpaceBack(a + b, lo, |a| + j) == |a| + SkipSpaceBack(b, 0, j)
    decreases j
  {
    if j > 0 {
      assert (a + b)[|a| + j - 1] == b[j - 1];
      if IsJsSpace(b[j - 1]) {
        SkipSpaceBackAppend(a, b, lo, j - 1);
      }
    } else {
      assert (a + b)[|a| - 1] == a[|a| - 1];
    }
  }

  /**
   * Trimming `a + b`, where `a` neither starts nor ends with white space,
   * keeps `a` and drops only the trailing white space of `b`.
   */
  lemma TrimAppend(a: string, b: string)
    requires a != [] && !IsJsSpace(a[0]) && !IsJsSpace(a[|a| - 1])
    ensures Trim(a + b) == a + TrimEnd(b)
  {
    assert SkipSpace(a + b, 0) == 0 by { assert (a + b)[0] == a[0]; }
    SkipSpaceBackAppend(a, b, 0, |b|);
    assert (a + b)[0..|a| + SkipSpaceBack(b, 0, |b|)] == a + b[..SkipSpaceBack(b, 0, |b|)];
  }

  /** Where the three pieces of `x + y + z` lie. */
  lemma Concat3Slices<T>(x: seq<T>, y: seq<T>, z: seq<T>)
    ensures var s := x + y + z;
      s[..|x|] == x && s[|x|..|x| + |y|] == y && s[|x| + |y|..] == z
  {
  }

  /** The total length of the parts. */
  function TotalLength(parts: seq<string>): nat
  {
    if parts == [] then 0 else |parts[0]| + TotalLength(parts[1..])
  }

  /**
   * `parts.join(sep)`: the parts in order with one separator between each
   * neighbouring pair; no parts give the empty string.
   */
  function Join(parts: seq<string>, sep: string): (r: string)
    ensures parts == [] ==> r == ""
    ensures parts != [] ==>
      |r| == TotalLength(parts) + (|parts| - 1) * |sep| && r[..|parts[0]|] == parts[0]
  {
    if |parts| == 0 then ""
    else if |parts| == 1 then parts[0]
    else parts[0] + sep + Join(parts[1..], sep)
  }

  /** Joining one more part appends a separator and that part. */
  lemma {:induction false} JoinAppend(parts: seq<string>, p: string, sep: string)
    requires parts != []
    ensures Join(parts + [p], sep) == Join(parts, sep) + sep + p
    decreases |parts|
  {
    if |parts| == 1 {
      assert (parts + [p])[1..] == [p];
    } else {
      assert (parts + [p])[1..] == parts[1..] + [p];
      JoinAppend(parts[1..], p, sep);
    }
  }
  /** The digit character of a value below ten. */
  function DigitChar(d: nat): (c: char)
    requires d < 10
    ensures IsDigit(c) && c as int - '0' as int == d
  {
    ('0' as int + d) as char
  }

  /** The decimal text of a natural number, without leading zeros. */
  function NatToString(n: nat): (s: string)
    ensures |s| > 0 && AllDigits(s)
    ensures s[0] == '0' ==> n == 0
    decreases n
  {
    if n < 10 then [DigitChar(n)] else NatToString(n / 10) + [DigitChar(n % 10)]
  }

  /** `${n}` for an integral JavaScript number of moderate size. */
  function IntToString(n: int): (r: string)
    ensures |r| > 0 && (r[0] == '-' <==> n < 0)
    ensures n < 0 ==> AllDigits(r[1..]) && |r| > 1 && r[1] != '0'
    ensures n >= 0 ==> AllDigits(r) && (r[0] == '0' ==> n == 0)
    ensures n >= 0 ==> DecimalValue(r) == n
    ensures n < 0 ==> DecimalValue(r[1..]) == -n
  {
    if n < 0 then
      NatToStringRoundTrip(-n);
      assert ("-" + NatToString(-n))[1..] == NatToString(-n);
      "-" + NatToString(-n)
    else
      NatToStringRoundTrip(n);
      NatToString(n)
  }

  /** The value of a decimal digit string, read from the left. */
  function DecimalValue(s: string): nat
    requires AllDigits(s)
  {
    if s == [] then 0 else 10 * DecimalValue(s[..|s| - 1]) + (s[|s| - 1] as int - '0' as int)
  }

  /** The decimal text of `n` reads back as `n`. */
  lemma {:induction false} NatToStringRoundTrip(n: nat)
    ensures DecimalValue(NatToString(n)) == n
    decreases n
  {
    var s := NatToString(n);
    if n >= 10 {
      NatToStringRoundTrip(n / 10);
      assert s[..|s| - 1] == NatToString(n / 10);
    }
  }
}
