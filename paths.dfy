/** Endpoint paths: PHP's decimal rendering of an `int` interpolated into a path
    (`"{$domainId}"`), paths as sequences of segments, and the parsers that take
    both apart again. */
module Paths {
  import opened Values

  /** The character of a decimal digit. */
  function DigitChar(d: int): (c: char)
    requires 0 <= d < 10
    ensures '0' <= c <= '9' && c as int - '0' as int == d
  {
    ('0' as int + d) as char
  }

  predicate AllDigits(s: string) {
    forall i :: 0 <= i < |s| ==> '0' <= s[i] <= '9'
  }

  /** The digits of a natural number, most significant first, no leading zeros. */
  function Digits(n: nat): (s: string)
    ensures |s| > 0 && AllDigits(s)
    ensures n == 0 || s[0] != '0'
    decreases n
  {
    if n < 10 then [DigitChar(n)] else Digits(n / 10) + [DigitChar(n % 10)]
  }

  /** `(string) $n` for a PHP int: a minus sign for negatives, then the digits. */
  function Decimal(n: int): (s: string)
    ensures |s| > 0 && '/' !in s
    // canonical: a leading zero only for 0 itself, and no "-0"
    ensures s[0] == '0' <==> n == 0
    ensures s[0] == '-' <==> n < 0
  {
    var s := if n < 0 then "-" + Digits(-n) else Digits(n);
    assert forall i :: 0 <= i < |s| ==> s[i] != '/';
    s
  }

  /** The value of a string of decimal digits. */
  function ParseDigits(s: string): nat
    requires AllDigits(s)
  {
    if s == [] then 0 else 10 * ParseDigits(s[..|s| - 1]) + (s[|s| - 1] as int - '0' as int)
  }

  /** Reads back a decimal integer; `None` for anything else. */
  function ParseDecimal(s: string): Option<int> {
    if |s| > 1 && s[0] == '-' && AllDigits(s[1..]) then Some(-(ParseDigits(s[1..]) as int))
    else if |s| > 0 && AllDigits(s) then Some(ParseDigits(s))
    else None
  }

  lemma {:induction false} DigitsRoundTrip(n: nat)
    ensures ParseDigits(Digits(n)) == n
    decreases n
  {
    if n >= 10 {
      var s := Digits(n);
      assert s[..|s| - 1] == Digits(n / 10);
      DigitsRoundTrip(n / 10);
    }
  }

  /** An interpolated id can always be read back: rendering is injective. */
  lemma DecimalRoundTrip(n: int)
    ensures ParseDecimal(Decimal(n)) == Some(n)
  {
    if n < 0 {
      var s := Decimal(n);
      assert s[1..] == Digits(-n);
      DigitsRoundTrip(-n);
    } else {
      DigitsRoundTrip(n);
    }
  }

  lemma DecimalInjective(m: int, n: int)
    requires Decimal(m) == Decimal(n)
    ensures m == n
  {
    DecimalRoundTrip(m);
    DecimalRoundTrip(n);
  }

  /** A path from its segments: `Path(["a", "b"]) == "/a/b"`. */
  function Path(segments: seq<string>): (p: string)
    ensures |segments| > 0 ==> |p| > 0 && p[0] == '/'
  {
    if segments == [] then "" else "/" + segments[0] + Path(segments[1..])
  }

  /** Concatenating segment lists concatenates their paths. */
  lemma {:induction false} PathAppend(a: seq<string>, b: seq<string>)
    ensures Path(a + b) == Path(a) + Path(b)
    decreases |a|
  {
    if a != [] {
      assert (a + b)[1..] == a[1..] + b;
      PathAppend(a[1..], b);
    } else {
      assert a + b == b;
    }
  }

  /** Splits a string at every `/`. */
  function Split(s: string): (parts: seq<string>)
    ensures |parts| > 0
  {
    if s == [] then [""]
    else
      var rest := Split(s[1..]);
      if s[0] == '/' then [""] + rest else [[s[0]] + rest[0]] + rest[1..]
  }

  /** The segments of a path that starts with `/`. */
  function Segments(p: string): seq<string> {
    if |p| > 0 && p[0] == '/' then Split(p[1..]) else []
  }

  predicate NoSlash(segments: seq<string>) {
    forall i :: 0 <= i < |segments| ==> '/' !in segments[i]
  }

  lemma {:induction false} SplitPlain(a: string)
    requires '/' !in a
    ensures Split(a) == [a]
    decreases |a|
  {
    if a != [] {
      SplitPlain(a[1..]);
      assert [a[0]] + a[1..] == a;
    }
  }

  lemma {:induction false} SplitAtSlash(a: string, b: string)
    requires '/' !in a
    ensures Split(a + "/" + b) == [a] + Split(b)
    decreases |a|
  {
    var s := a + "/" + b;
    if a == [] {
      assert s == "/" + b && s[1..] == b;
    } else {
      assert s[1..] == a[1..] + "/" + b;
      SplitAtSlash(a[1..], b);
      assert [a[0]] + a[1..] == a;
    }
  }

  lemma {:induction false} SplitPath(segments: seq<string>)
    requires |segments| > 0 && NoSlash(segments)
    ensures Split(segments[0] + Path(segments[1..])) == segments
    decreases |segments|
  {
    var rest := segments[1..];
    if rest == [] {
      assert segments[0] + Path(rest) == segments[0];
      SplitPlain(segments[0]);
    } else {
      assert segments[0] + Path(rest) == segments[0] + "/" + (rest[0] + Path(rest[1..]));
      SplitAtSlash(segments[0], rest[0] + Path(rest[1..]));
      SplitPath(rest);
      assert segments == [segments[0]] + rest;
    }
  }

  /** A segment followed by nothing or by more path is determined by the string: the
      segment ends at the first `/`. */
  lemma {:induction false} SegmentPrefix(x: string, s: string, y: string, t: string)
    requires '/' !in x && '/' !in y
    requires s == [] || s[0] == '/'
    requires t == [] || t[0] == '/'
    requires x + s == y + t
    ensures x == y
    decreases |x|
  {
    assert x != [] ==> (x + s)[0] == x[0];
    assert y != [] ==> (y + t)[0] == y[0];
    if x != [] && y != [] {
      assert x[1..] + s == (x + s)[1..] && y[1..] + t == (y + t)[1..];
      SegmentPrefix(x[1..], s, y[1..], t);
      assert x == [x[0]] + x[1..] && y == [y[0]] + y[1..];
    }
  }

  /** A path built from segments without `/` can be taken apart into those segments. */
  lemma {:induction false} PathRoundTrip(segments: seq<string>)
    requires NoSlash(segments)
    ensures Segments(Path(segments)) == segments
  {
    if segments != [] {
      var tail := segments[0] + Path(segments[1..]);
      assert Path(segments) == "/" + tail;
      assert ("/" + tail)[1..] == tail;
      SplitPath(segments);
    }
  }
}
