/**
  The few PHP built-ins whose exact behaviour the application's decisions depend on:
  `empty()` and loose `==` on strings, `trim()` with its default character set,
  `str_replace($needle, '', $s)`, and the decimal rendering of integers used in
  string concatenation.
 */
module Php {
  import opened Wrappers

  /** `empty($s)` for a string: true for "" and for "0". */
  predicate IsEmptyString(s: string) {
    s == "" || s == "0"
  }

  /** `empty($x)` for a value that is NULL or a string. */
  predicate IsEmptyValue(o: Option<string>) {
    o.None? || IsEmptyString(o.value)
  }

  /** `$x == NULL` for a value that is NULL or a string (PHP 8): only NULL and "". */
  predicate IsLooseNull(o: Option<string>) {
    o.None? || o.value == ""
  }

  /** String interpolation of a value that is NULL or a string: NULL becomes "". */
  function Interpolate(o: Option<string>): string {
    o.GetOr("")
  }

  // ---------------------------------------------------------------------------
  // Decimal digits

  predicate IsDigit(c: char) {
    '0' <= c <= '9'
  }

  predicate AllDigits(s: string) {
    forall i :: 0 <= i < |s| ==> IsDigit(s[i])
  }

  /** A non-empty string of decimal digits. */
  predicate IsDigits(s: string) {
    |s| > 0 && AllDigits(s)
  }

  function DigitChar(d: nat): (c: char)
    requires d < 10
    ensures IsDigit(c)
  {
    (48 + d) as char
  }

  function DigitValue(c: char): nat
    requires IsDigit(c)
  {
    c as int - 48
  }

  /** The value of a string of decimal digits (leading zeros allowed). */
  function ParseDigits(s: string): nat
    requires AllDigits(s)
    decreases |s|
  {
    if s == [] then 0 else 10 * ParseDigits(s[..|s| - 1]) + DigitValue(s[|s| - 1])
  }

  /** The string PHP produces when a non-negative integer is concatenated: `'form-'.$id`. */
  function NatToString(n: nat): (s: string)
    ensures IsDigits(s)
    ensures n > 0 ==> s[0] != '0'
    decreases n
  {
    if n < 10 then [DigitChar(n)] else NatToString(n / 10) + [DigitChar(n % 10)]
  }

  /** Reading back the decimal rendering gives the number again. */
  lemma {:induction false} ParseNatToString(n: nat)
    ensures ParseDigits(NatToString(n)) == n
    decreases n
  {
    var s := NatToString(n);
    if n < 10 {
      assert s[..|s| - 1] == [];
    } else {
      ParseNatToString(n / 10);
      assert s[..|s| - 1] == NatToString(n / 10);
    }
  }

  /** Distinct numbers render as distinct strings. */
  lemma NatToStringInjective(m: nat, n: nat)
    ensures NatToString(m) == NatToString(n) <==> m == n
  {
    if NatToString(m) == NatToString(n) {
      ParseNatToString(m);
      ParseNatToString(n);
    }
  }

  /**
    Loose `==` between two strings (or between a string and an integer's rendering):
    two digit strings compare by value, anything else compares as text. PHP's other
    numeric-string forms (sign, decimal point, exponent, surrounding blanks) are not modelled.
   */
  predicate LooseEqual(a: string, b: string) {
    if IsDigits(a) && IsDigits(b) then ParseDigits(a) == ParseDigits(b) else a == b
  }

  /** Loose `==` between two values that are NULL or strings (PHP 8). */
  predicate LooseEqualOpt(a: Option<string>, b: Option<string>) {
    match (a, b)
    case (None, None) => true
    case (None, Some(t)) => t == ""
    case (Some(s), None) => s == ""
    case (Some(s), Some(t)) => LooseEqual(s, t)
  }

  // ---------------------------------------------------------------------------
  // trim()

  /** PHP's default `trim` set: space, tab, newline, carriage return, NUL, vertical tab. */
  predicate IsTrimChar(c: char) {
    c == ' ' || c == '\t' || c == '\n' || c == '\r' || c == '\0' || c == '\U{000B}'
  }

  predicate AllTrimChars(s: string) {
    forall i :: 0 <= i < |s| ==> IsTrimChar(s[i])
  }

  /** Neither the first nor the last character is in the trim set. */
  predicate IsTrimmed(s: string) {
    s == [] || (!IsTrimChar(s[0]) && !IsTrimChar(s[|s| - 1]))
  }

  function TrimLeft(s: string): string
    decreases |s|
  {
    if |s| > 0 && IsTrimChar(s[0]) then TrimLeft(s[1..]) else s
  }

  function TrimRight(s: string): string
    decreases |s|
  {
    if |s| > 0 && IsTrimChar(s[|s| - 1]) then TrimRight(s[..|s| - 1]) else s
  }

  /** `trim($s)` with the default character set. */
  function Trim(s: string): string {
    TrimRight(TrimLeft(s))
  }

  /** TrimLeft removes a prefix of trim characters and stops at a non-trim character. */
  lemma {:induction false} TrimLeftSplit(s: string) returns (p: string)
    ensures s == p + TrimLeft(s) && AllTrimChars(p)
    ensures TrimLeft(s) == [] || !IsTrimChar(TrimLeft(s)[0])
    decreases |s|
  {
    if |s| > 0 && IsTrimChar(s[0]) {
      var p' := TrimLeftSplit(s[1..]);
      p := [s[0]] + p';
      assert s == [s[0]] + s[1..];
    } else {
      p := [];
    }
  }

  /** TrimRight removes a suffix of trim characters and stops at a non-trim character. */
  lemma {:induction false} TrimRightSplit(s: string) returns (q: string)
    ensures s == TrimRight(s) + q && AllTrimChars(q)
    ensures TrimRight(s) == [] || !IsTrimChar(TrimRight(s)[|TrimRight(s)| - 1])
    decreases |s|
  {
    if |s| > 0 && IsTrimChar(s[|s| - 1]) {
      var q' := TrimRightSplit(s[..|s| - 1]);
      q := q' + [s[|s| - 1]];
      assert s == s[..|s| - 1] + [s[|s| - 1]];
    } else {
      q := [];
    }
  }

  /**
    `trim` only removes characters from the two ends: the input is the result with a
    run of trim characters before and after it, and the result starts and ends with a
    character outside the trim set.
   */
  lemma TrimSplit(s: string) returns (p: string, q: string)
    ensures s == p + Trim(s) + q
    ensures AllTrimChars(p) && AllTrimChars(q)
    ensures IsTrimmed(Trim(s))
  {
    p := TrimLeftSplit(s);
    var t := TrimLeft(s);
    q := TrimRightSplit(t);
    if Trim(s) != [] {
      assert Trim(s)[0] == t[0];
    }
  }

  lemma {:induction false} TrimLeftOfTrimChars(p: string, m: string)
    requires AllTrimChars(p)
    requires m == [] || !IsTrimChar(m[0])
    ensures TrimLeft(p + m) == m
    decreases |p|
  {
    if p != [] {
      assert (p + m)[1..] == p[1..] + m;
      TrimLeftOfTrimChars(p[1..], m);
    }
  }

  lemma {:induction false} TrimRightOfTrimChars(m: string, q: string)
    requires AllTrimChars(q)
    requires m == [] || !IsTrimChar(m[|m| - 1])
    ensures TrimRight(m + q) == m
    decreases |q|
  {
    if q != [] {
      assert (m + q)[..|m + q| - 1] == m + q[..|q| - 1];
      TrimRightOfTrimChars(m, q[..|q| - 1]);
    }
  }

  /**
    Reference characterisation of `trim`: whenever a string is a trimmed middle part
    surrounded by runs of trim characters, `trim` returns exactly that middle part.
   */
  lemma TrimUnique(p: string, m: string, q: string)
    requires AllTrimChars(p) && AllTrimChars(q) && IsTrimmed(m)
    ensures Trim(p + m + q) == m
  {
    if m == [] {
      assert p + m + q == p + q;
      TrimLeftOfTrimChars(p + q, []);
      assert p + q + [] == p + q;
    } else {
      assert p + m + q == p + (m + q);
      TrimLeftOfTrimChars(p, m + q);
      TrimRightOfTrimChars(m, q);
    }
  }

  /** `trim(trim($s)) == trim($s)`. */
  lemma TrimIdempotent(s: string)
    ensures Trim(Trim(s)) == Trim(s)
  {
    var _, _ := TrimSplit(s);
    TrimUnique([], Trim(s), []);
    assert [] + Trim(s) + [] == Trim(s);
  }

  // ---------------------------------------------------------------------------
  // str_replace($needle, '', $s)

  predicate StartsWith(s: string, prefix: string) {
    |prefix| <= |s| && s[..|prefix|] == prefix
  }

  /** `needle` occurs somewhere in `s` as a contiguous substring. */
  predicate Occurs(needle: string, s: string)
    decreases |s|
  {
    StartsWith(s, needle) || (|s| > 0 && Occurs(needle, s[1..]))
  }

  /**
    `str_replace($needle, '', $s)`: scanning left to right, every non-overlapping
    occurrence of `needle` is deleted; an empty needle leaves `s` as it is.
   */
  function RemoveAll(s: string, needle: string): (r: string)
    decreases |s|
  {
    if needle == [] then s
    else if StartsWith(s, needle) then RemoveAll(s[|needle|..], needle)
    else if s == [] then []
    else [s[0]] + RemoveAll(s[1..], needle)
  }

  /** Without an occurrence of the needle, the string comes back unchanged. */
  lemma {:induction false} RemoveAllAbsent(s: string, needle: string)
    requires !Occurs(needle, s)
    ensures RemoveAll(s, needle) == s
    decreases |s|
  {
    if needle != [] && s != [] {
      RemoveAllAbsent(s[1..], needle);
      assert s == [s[0]] + s[1..];
    }
  }

  /**
    Each deletion removes a whole copy of the needle: the input is longer than the
    result by exactly `k` needle lengths, `k` being the number of copies deleted.
   */
  lemma {:induction false} RemoveAllLength(s: string, needle: string) returns (k: nat)
    requires needle != []
    ensures |s| == |RemoveAll(s, needle)| + k * |needle|
    decreases |s|
  {
    if StartsWith(s, needle) {
      var k' := RemoveAllLength(s[|needle|..], needle);
      k := k' + 1;
      assert k * |needle| == k' * |needle| + |needle|;
    } else if s != [] {
      k := RemoveAllLength(s[1..], needle);
    } else {
      k := 0;
    }
  }

  /** Deleting copies of the needle never makes the string longer. */
  lemma RemoveAllNoLonger(s: string, needle: string)
    ensures |RemoveAll(s, needle)| <= |s|
  {
    if needle != [] {
      var k := RemoveAllLength(s, needle);
    }
  }

  /** A leading copy of the needle is removed and the scan resumes right after it. */
  lemma RemoveAllLeading(needle: string, rest: string)
    requires needle != []
    ensures RemoveAll(needle + rest, needle) == RemoveAll(rest, needle)
  {
    assert StartsWith(needle + rest, needle);
    assert (needle + rest)[|needle|..] == rest;
  }

  /** A string whose first character differs from the needle's does not start with it. */
  lemma HeadMismatch(s: string, needle: string)
    requires |s| > 0 && |needle| > 0 && s[0] != needle[0]
    ensures !StartsWith(s, needle)
  {
    if |needle| <= |s| {
      assert s[..|needle|][0] == s[0];
    }
  }

  /** A first character that does not start a copy of the needle is kept, and the scan moves on. */
  lemma RemoveAllKeepsHead(c: char, rest: string, needle: string)
    requires needle != [] && !StartsWith([c] + rest, needle)
    ensures RemoveAll([c] + rest, needle) == [c] + RemoveAll(rest, needle)
  {
    assert ([c] + rest)[1..] == rest;
  }

  /** A string shorter than the needle holds no copy of it. */
  lemma {:induction false} RemoveAllShort(s: string, needle: string)
    requires |s| < |needle|
    ensures RemoveAll(s, needle) == s
    decreases |s|
  {
    if s != [] {
      RemoveAllShort(s[1..], needle);
      assert s == [s[0]] + s[1..];
    }
  }

  /** A prefix none of whose characters begins the needle is kept whole, and the scan resumes after it. */
  lemma {:induction false} RemoveAllKeepsPrefix(p: string, rest: string, needle: string)
    requires needle != []
    requires forall i :: 0 <= i < |p| ==> p[i] != needle[0]
    ensures RemoveAll(p + rest, needle) == p + RemoveAll(rest, needle)
    decreases |p|
  {
    if p != [] {
      var c, tail := p[0], p[1..] + rest;
      assert p + rest == [c] + tail;
      assert ([c] + tail)[0] == c;
      HeadMismatch([c] + tail, needle);
      RemoveAllKeepsHead(c, tail, needle);
      RemoveAllKeepsPrefix(p[1..], rest, needle);
      assert p == [c] + p[1..];
      assert [c] + (p[1..] + RemoveAll(rest, needle)) == p + RemoveAll(rest, needle);
    } else {
      assert p + rest == rest;
      assert p + RemoveAll(rest, needle) == RemoveAll(rest, needle);
    }
  }
}
