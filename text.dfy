/**
 * The string primitives the handlers rely on, written out as Rust defines
 * them: `str::trim`, `str::to_lowercase` (ASCII part), `str::split` on a
 * character, `str::starts_with`, `String::len` (a UTF-8 byte count) and the
 * decimal formatting and parsing of `i64`.
 */
module Text {
  import opened Wrappers

  // ---------------------------------------------------------------------
  // Whitespace and trimming
  // ---------------------------------------------------------------------

  /** Rust's `char::is_whitespace`: the Unicode White_Space property. */
  predicate IsWhitespace(c: char) {
    || ('\t' <= c <= '\r')
    || c == ' '
    || c == '\U{0085}'
    || c == '\U{00A0}'
    || c == '\U{1680}'
    || ('\U{2000}' <= c <= '\U{200A}')
    || c == '\U{2028}'
    || c == '\U{2029}'
    || c == '\U{202F}'
    || c == '\U{205F}'
    || c == '\U{3000}'
  }

  /** Where `trim_start` cuts: the first character at or after `i` that is not whitespace. */
  function SkipLeading(s: string, i: nat): (k: nat)
    requires i <= |s|
    ensures i <= k <= |s|
    ensures forall m :: i <= m < k ==> IsWhitespace(s[m])
    ensures k == |s| || !IsWhitespace(s[k])
    decreases |s| - i
  {
    if i < |s| && IsWhitespace(s[i]) then SkipLeading(s, i + 1) else i
  }

  /** Where `trim_end` cuts `s[lo..j]`: just after its last character that is not whitespace. */
  function SkipTrailing(s: string, lo: nat, j: nat): (k: nat)
    requires lo <= j <= |s|
    ensures lo <= k <= j
    ensures forall m :: k <= m < j ==> IsWhitespace(s[m])
    ensures k == lo || !IsWhitespace(s[k - 1])
    decreases j - lo
  {
    if lo < j && IsWhitespace(s[j - 1]) then SkipTrailing(s, lo, j - 1) else j
  }

  /** `str::trim`: the input without its leading and trailing whitespace. */
  function Trim(s: string): (r: string)
    ensures |r| <= |s|
    ensures r == [] || (!IsWhitespace(r[0]) && !IsWhitespace(r[|r| - 1]))
  {
    var lo := SkipLeading(s, 0);
    var hi := SkipTrailing(s, lo, |s|);
    assert lo < hi ==> s[lo..hi][0] == s[lo] && s[lo..hi][hi - lo - 1] == s[hi - 1];
    s[lo..hi]
  }

  /** Where trim cuts: the kept slice `s[i..j]`, with only whitespace outside it and none at its ends. */
  lemma TrimBounds(s: string) returns (i: nat, j: nat)
    ensures i <= j <= |s| && Trim(s) == s[i..j]
    ensures forall k :: 0 <= k < i ==> IsWhitespace(s[k])
    ensures forall k :: j <= k < |s| ==> IsWhitespace(s[k])
    ensures i < j ==> !IsWhitespace(s[i]) && !IsWhitespace(s[j - 1])
  {
    i := SkipLeading(s, 0);
    j := SkipTrailing(s, i, |s|);
  }

  /** Whatever trim leaves is a slice of the input with no whitespace at either end, and only whitespace is cut. */
  lemma TrimShape(s: string)
    ensures exists i, j ::
      && 0 <= i <= j <= |s| && Trim(s) == s[i..j]
      && (forall k :: 0 <= k < i ==> IsWhitespace(s[k]))
      && (forall k :: j <= k < |s| ==> IsWhitespace(s[k]))
    ensures Trim(s) == [] || (!IsWhitespace(Trim(s)[0]) && !IsWhitespace(Trim(s)[|Trim(s)| - 1]))
    ensures Trim(s) == [] <==> forall i :: 0 <= i < |s| ==> IsWhitespace(s[i])
  {
    var i, j := TrimBounds(s);
  }

  /** A string with no whitespace at either end is left as it is by trim. */
  lemma TrimFixed(t: string)
    requires t == [] || (!IsWhitespace(t[0]) && !IsWhitespace(t[|t| - 1]))
    ensures Trim(t) == t
  {
    assert SkipLeading(t, 0) == 0;
    assert SkipTrailing(t, 0, |t|) == |t|;
  }

  /** Trimming twice is trimming once. */
  lemma TrimIdempotent(s: string)
    ensures Trim(Trim(s)) == Trim(s)
  {
    TrimFixed(Trim(s));
  }

  /** Trimming removes whitespace only: any other character survives it. */
  lemma TrimKeeps(s: string, c: char)
    requires !IsWhitespace(c)
    ensures (c in s) <==> (c in Trim(s))
  {
    var i, j := TrimBounds(s);
    SliceKeeps(s, i, j, c);
  }

  /** A character that occurs nowhere outside `s[i..j]` occurs in `s` exactly when it occurs in the slice. */
  lemma SliceKeeps(s: string, i: nat, j: nat, c: char)
    requires i <= j <= |s|
    requires forall k :: 0 <= k < i ==> s[k] != c
    requires forall k :: j <= k < |s| ==> s[k] != c
    ensures (c in s) <==> (c in s[i..j])
  {
    if c in s {
      var k :| 0 <= k < |s| && s[k] == c;
      assert s[i..j][k - i] == c;
    }
    if c in s[i..j] {
      var k :| 0 <= k < j - i && s[i..j][k] == c;
      assert s[i + k] == c;
    }
  }

  // ---------------------------------------------------------------------
  // Lower-casing
  // ---------------------------------------------------------------------

  predicate IsAsciiUpper(c: char) {
    'A' <= c <= 'Z'
  }

  /** Lower-case mapping of one character, restricted to ASCII letters. */
  function LowerChar(c: char): (d: char)
    ensures !IsAsciiUpper(d)
    ensures IsAsciiUpper(c) ==> d as int == c as int + 32
    ensures !IsAsciiUpper(c) ==> d == c
  {
    if IsAsciiUpper(c) then (c as int + 32) as char else c
  }

  /** `str::to_lowercase` on the ASCII letters; every other character is kept. */
  function Lower(s: string): (r: string)
    ensures |r| == |s|
    ensures forall i :: 0 <= i < |s| ==> r[i] == LowerChar(s[i])
  {
    seq(|s|, i requires 0 <= i < |s| => LowerChar(s[i]))
  }

  /** Lower-casing neither makes nor unmakes whitespace. */
  lemma LowerCharWhitespace(c: char)
    ensures IsWhitespace(LowerChar(c)) == IsWhitespace(c)
  {
  }

  predicate IsAsciiLetter(c: char) {
    IsAsciiUpper(c) || 'a' <= c <= 'z'
  }

  /** A character that is not an ASCII letter occurs exactly where it did. */
  lemma LowerKeeps(s: string, c: char)
    requires !IsAsciiLetter(c)
    ensures (c in s) <==> (c in Lower(s))
  {
    if c in s {
      var k :| 0 <= k < |s| && s[k] == c;
      assert Lower(s)[k] == c;
    }
    if c in Lower(s) {
      var k :| 0 <= k < |s| && Lower(s)[k] == c;
      assert s[k] == c;
    }
  }

  /** The email normalisation of the signup and profile handlers: trim, then lower-case. */
  function Normalise(s: string): (r: string)
    ensures forall i :: 0 <= i < |r| ==> !IsAsciiUpper(r[i])
  {
    Lower(Trim(s))
  }

  /** Normalising keeps every character that is neither whitespace nor an ASCII letter. */
  lemma NormaliseKeeps(s: string, c: char)
    requires !IsWhitespace(c) && !IsAsciiLetter(c)
    ensures (c in s) <==> (c in Normalise(s))
  {
    TrimKeeps(s, c);
    LowerKeeps(Trim(s), c);
  }

  /** Normalising an already normalised string changes nothing. */
  lemma NormaliseIdempotent(s: string)
    ensures Normalise(Normalise(s)) == Normalise(s)
  {
    var t := Trim(s);
    var n := Lower(t);
    if n != [] {
      LowerCharWhitespace(t[0]);
      LowerCharWhitespace(t[|t| - 1]);
    }
    TrimFixed(n);
    assert Lower(n) == n;
  }

  // ---------------------------------------------------------------------
  // Prefixes and splitting
  // ---------------------------------------------------------------------

  /** `str::starts_with`: `s` is `prefix` followed by the rest of `s`. */
  function StartsWith(s: string, prefix: string): (b: bool)
    ensures b <==> |prefix| <= |s| && s == prefix + s[|prefix|..]
  {
    |prefix| <= |s| && s[..|prefix|] == prefix
  }

  /** Position of the first occurrence of `c`. */
  function FirstIndex(s: string, c: char): (i: nat)
    requires c in s
    ensures i < |s| && s[i] == c && c !in s[..i]
  {
    if s[0] == c then 0 else 1 + FirstIndex(s[1..], c)
  }

  /**
   * `s.split(sep).collect()`: the pieces between separators, in order. As in
   * Rust, there is always at least one piece (the empty string gives `[""]`).
   */
  function Split(s: string, sep: char): (parts: seq<string>)
    ensures |parts| >= 1
    ensures forall k :: 0 <= k < |parts| ==> sep !in parts[k]
    decreases |s|
  {
    if sep !in s then [s]
    else
      var i := FirstIndex(s, sep);
      [s[..i]] + Split(s[i + 1..], sep)
  }

  /** The pieces glued back together with the separator. */
  function Join(parts: seq<string>, sep: char): string
    requires |parts| >= 1
  {
    if |parts| == 1 then parts[0] else parts[0] + [sep] + Join(parts[1..], sep)
  }

  /** Splitting loses nothing: joining the pieces gives the input back. */
  lemma {:induction false} JoinSplit(s: string, sep: char)
    ensures Join(Split(s, sep), sep) == s
    decreases |s|
  {
    if sep in s {
      var i := FirstIndex(s, sep);
      var rest := s[i + 1..];
      JoinSplit(rest, sep);
      var parts := Split(s, sep);
      assert parts[1..] == Split(rest, sep);
      assert s == s[..i] + [sep] + rest;
    }
  }

  /** The first piece is everything before the first separator. */
  lemma SplitFirst(s: string, sep: char)
    ensures Split(s, sep)[0] == if sep in s then s[..FirstIndex(s, sep)] else s
  {
  }

  /** There is a second piece exactly when the separator occurs. */
  lemma SplitHasSecond(s: string, sep: char)
    ensures |Split(s, sep)| >= 2 <==> sep in s
    ensures sep in s ==> Split(s, sep)[1] == Split(s[FirstIndex(s, sep) + 1..], sep)[0]
  {
  }

  // ---------------------------------------------------------------------
  // Byte length
  // ---------------------------------------------------------------------

  /** Number of bytes UTF-8 uses for one scalar value. */
  function Utf8Width(c: char): (w: nat)
    ensures 1 <= w <= 4
    ensures w == 1 <==> c as int < 0x80
    ensures w == 2 <==> 0x80 <= c as int < 0x800
    ensures w == 3 <==> 0x800 <= c as int < 0x1_0000
    ensures w == 4 <==> 0x1_0000 <= c as int
  {
    var cp := c as int;
    if cp < 0x80 then 1 else if cp < 0x800 then 2 else if cp < 0x1_0000 then 3 else 4
  }

  /** `String::len`: the length in UTF-8 bytes, not in characters. */
  function Utf8Len(s: string): (n: nat)
    ensures |s| <= n <= 4 * |s|
  {
    if s == [] then 0 else Utf8Width(s[0]) + Utf8Len(s[1..])
  }

  /** The byte length of a concatenation is the sum of the byte lengths. */
  lemma {:induction false} Utf8LenConcat(s: string, t: string)
    ensures Utf8Len(s + t) == Utf8Len(s) + Utf8Len(t)
    decreases |s|
  {
    if s != [] {
      assert (s + t)[0] == s[0] && (s + t)[1..] == s[1..] + t;
      Utf8LenConcat(s[1..], t);
    } else {
      assert s + t == t;
    }
  }

  // ---------------------------------------------------------------------
  // Decimal integers (`i64::to_string` and `str::parse::<i64>`)
  // ---------------------------------------------------------------------

  const I64_MIN: int := -0x8000_0000_0000_0000
  const I64_MAX: int := 0x7FFF_FFFF_FFFF_FFFF

  predicate InI64(x: int) {
    I64_MIN <= x <= I64_MAX
  }

  predicate IsDigit(c: char) {
    '0' <= c <= '9'
  }

  predicate AllDigits(s: string) {
    forall i :: 0 <= i < |s| ==> IsDigit(s[i])
  }

  function DigitValue(c: char): nat
    requires IsDigit(c)
  {
    c as int - '0' as int
  }

  function DigitChar(d: nat): (c: char)
    requires d < 10
    ensures IsDigit(c) && DigitValue(c) == d
  {
    ('0' as int + d) as char
  }

  /** Value of a run of decimal digits, most significant first. */
  function DigitsValue(s: string): nat
    requires AllDigits(s)
  {
    if s == [] then 0 else 10 * DigitsValue(s[..|s| - 1]) + DigitValue(s[|s| - 1])
  }

  /** Decimal digits of a natural number, with no leading zero. */
  function NatToString(n: nat): (s: string)
    ensures |s| >= 1 && AllDigits(s)
  {
    if n < 10 then [DigitChar(n)] else NatToString(n / 10) + [DigitChar(n % 10)]
  }

  /** `i64::to_string` (and `Display` for integers): optional minus sign, then digits. */
  function IntToString(n: int): (r: string)
    ensures |r| >= 1
    ensures r[0] == '-' <==> n < 0
    ensures AllDigits(if n < 0 then r[1..] else r)
  {
    if n < 0 then "-" + NatToString(-n) else NatToString(n)
  }

  /**
   * `str::parse::<i64>`: an optional `+` or `-`, then at least one ASCII
   * digit and nothing else, with a value that fits in 64 bits.
   */
  function ParseI64(s: string): (r: Option<int>)
    ensures r.Some? ==> InI64(r.value)
    ensures r.Some? ==> s != [] && (s[0] == '+' || s[0] == '-' || IsDigit(s[0]))
  {
    if s == [] then None
    else if (s[0] == '+' || s[0] == '-') && |s| == 1 then None
    else
      var negative := s[0] == '-';
      var digits := if s[0] == '+' || s[0] == '-' then s[1..] else s;
      if !AllDigits(digits) then None
      else
        var magnitude: int := DigitsValue(digits);
        var v := if negative then -magnitude else magnitude;
        if InI64(v) then Some(v) else None
  }

  lemma {:induction false} DigitsRoundTrip(n: nat)
    ensures DigitsValue(NatToString(n)) == n
  {
    if n >= 10 {
      DigitsRoundTrip(n / 10);
      var s := NatToString(n);
      assert s[..|s| - 1] == NatToString(n / 10);
    }
  }

  /** Formatting an `i64` and parsing it back gives the same number. */
  lemma ParseFormatRoundTrip(n: int)
    requires InI64(n)
    ensures ParseI64(IntToString(n)) == Some(n)
  {
    var s := IntToString(n);
    if n < 0 {
      var d := NatToString(-n);
      DigitsRoundTrip(-n);
      assert s == "-" + d;
      assert s[0] == '-' && |s| > 1 && s[1..] == d;
      assert AllDigits(s[1..]) && DigitsValue(s[1..]) == -n;
    } else {
      DigitsRoundTrip(n);
      assert s == NatToString(n);
      assert IsDigit(s[0]) && s[0] != '+' && s[0] != '-';
      assert AllDigits(s) && DigitsValue(s) == n;
    }
  }

  /** Distinct numbers print differently. */
  lemma IntToStringInjective(a: int, b: int)
    requires InI64(a) && InI64(b) && IntToString(a) == IntToString(b)
    ensures a == b
  {
    ParseFormatRoundTrip(a);
    ParseFormatRoundTrip(b);
  }
}
