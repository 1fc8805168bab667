/** Bytes, ASCII text and the decimal numbers that the HTTP layer reads and writes. */
module Bytes {
  import opened Wrappers

  /** A `u8`. */
  type Byte = b: int | 0 <= b < 256

  /** The largest `u32`, `u32::MAX`. */
  const U32_MAX: nat := 0xFFFF_FFFF

  /** Rust's `n as u8`: keeps the low eight bits. */
  function AsByte(n: nat): (b: Byte)
    ensures n < 256 ==> b == n
    ensures (n - b) % 256 == 0
  {
    n % 256
  }

  function Min(a: int, b: int): (m: int)
    ensures m <= a && m <= b && (m == a || m == b)
  {
    if a <= b then a else b
  }

  /** `s.as_bytes()` for the ASCII strings the model writes. */
  function FromString(s: string): (r: seq<Byte>)
    ensures |r| == |s|
  {
    seq(|s|, i requires 0 <= i < |s| => (s[i] as int) % 256)
  }

  /** Reads bytes back as characters (`str::from_utf8` on ASCII input). */
  function ToChars(b: seq<Byte>): (r: string)
    ensures |r| == |b|
  {
    seq(|b|, i requires 0 <= i < |b| => b[i] as char)
  }

  /** ASCII text survives the round trip through bytes. */
  lemma ToCharsFromString(s: string)
    requires forall i :: 0 <= i < |s| ==> s[i] as int < 256
    ensures ToChars(FromString(s)) == s
  {
    assert forall i :: 0 <= i < |s| ==> ToChars(FromString(s))[i] == s[i];
  }

  predicate IsDigit(c: char) { '0' <= c <= '9' }

  predicate AllDigits(s: string) { forall i :: 0 <= i < |s| ==> IsDigit(s[i]) }

  /** The value of a string of decimal digits, most significant first. */
  function DigitsValue(s: string): nat
    requires AllDigits(s)
  {
    if s == [] then 0 else 10 * DigitsValue(s[..|s| - 1]) + (s[|s| - 1] as int - '0' as int)
  }

  /** `n.to_string()` for an unsigned integer. */
  function NatToString(n: nat): (s: string)
    ensures |s| > 0 && AllDigits(s)
    ensures DigitsValue(s) == n
    ensures n >= 10 ==> s[0] != '0'
    decreases n
  {
    var last := [('0' as int + n % 10) as char];
    if n < 10 then last
    else
      var front := NatToString(n / 10);
      assert (front + last)[..|front + last| - 1] == front;
      front + last
  }

  /**
   * `str::parse::<u32>()` / `str::parse::<usize>()`: an optional '+', then at
   * least one decimal digit, and a value below `limit` (`u32::MAX + 1` or
   * `usize::MAX + 1`); anything else is an error.
   */
  function ParseUnsigned(s: string, limit: nat): (r: Option<nat>)
    ensures r.Some? ==> r.value < limit
    ensures r.Some? ==> exists d :: (s == d || s == "+" + d) && d != [] && AllDigits(d) && DigitsValue(d) == r.value
    ensures forall d :: (s == d || s == "+" + d) && d != [] && AllDigits(d) && DigitsValue(d) < limit ==> r == Some(DigitsValue(d))
  {
    var digits := if |s| > 0 && s[0] == '+' then s[1..] else s;
    assert s == digits || s == "+" + digits;
    if digits == [] || !AllDigits(digits) then None
    else if DigitsValue(digits) < limit then Some(DigitsValue(digits))
    else None
  }

  /** Every number the model renders reads back as itself. */
  lemma ParseRendered(n: nat, limit: nat)
    requires n < limit
    ensures ParseUnsigned(NatToString(n), limit) == Some(n)
  {
  }

  function AsciiLower(c: char): char
  {
    if 'A' <= c <= 'Z' then (c as int + 32) as char else c
  }

  /** `eq_ignore_ascii_case`. */
  predicate EqIgnoreAsciiCase(a: string, b: string)
  {
    |a| == |b| && forall i :: 0 <= i < |a| ==> AsciiLower(a[i]) == AsciiLower(b[i])
  }

  predicate NoSlash(s: string) { forall k :: 0 <= k < |s| ==> s[k] != '/' }

  /** Splits on every '/', as `str::split("/")` does: always at least one part. */
  function SplitSlash(s: string): (parts: seq<string>)
    ensures |parts| >= 1
  {
    if s == [] then [""]
    else
      var rest := SplitSlash(s[1..]);
      if s[0] == '/' then [""] + rest
      else [[s[0]] + rest[0]] + rest[1..]
  }

  /** No part of a split contains the separator. */
  lemma {:induction false} SplitPartsHaveNoSlash(s: string)
    ensures forall i :: 0 <= i < |SplitSlash(s)| ==> NoSlash(SplitSlash(s)[i])
  {
    if s != [] {
      SplitPartsHaveNoSlash(s[1..]);
    }
  }

  /** `parts.join("/")`. */
  function JoinSlash(parts: seq<string>): string
    requires |parts| >= 1
  {
    if |parts| == 1 then parts[0] else parts[0] + "/" + JoinSlash(parts[1..])
  }

  /** Putting a character in front of the first part puts it in front of the joined text. */
  lemma JoinFront(c: char, parts: seq<string>)
    requires |parts| >= 1
    ensures JoinSlash([[c] + parts[0]] + parts[1..]) == [c] + JoinSlash(parts)
  {
    var ps := [[c] + parts[0]] + parts[1..];
    if |parts| > 1 {
      assert ps[1..] == parts[1..];
    }
  }

  /** Splitting and joining on '/' are inverse: no text is lost or invented. */
  lemma {:induction false} JoinSplit(s: string)
    ensures JoinSlash(SplitSlash(s)) == s
  {
    if s != [] {
      var rest := SplitSlash(s[1..]);
      JoinSplit(s[1..]);
      if s[0] == '/' {
        assert ([""] + rest)[1..] == rest;
      } else {
        JoinFront(s[0], rest);
      }
      assert s == [s[0]] + s[1..];
    }
  }

  /** Text without a '/' is a single part. */
  lemma {:induction false} SplitNoSlash(s: string)
    requires NoSlash(s)
    ensures SplitSlash(s) == [s]
  {
    if s != [] {
      SplitNoSlash(s[1..]);
      assert s == [s[0]] + s[1..];
    }
  }

  /** One step of the split: a leading '/' starts a new part, any other character joins the first. */
  lemma SplitCons(c: char, t: string)
    ensures SplitSlash([c] + t) == if c == '/' then [""] + SplitSlash(t)
                                   else [[c] + SplitSlash(t)[0]] + SplitSlash(t)[1..]
  {
    assert ([c] + t)[0] == c && ([c] + t)[1..] == t;
  }

  /** Consing onto a concatenation. */
  lemma ConsAssoc<T>(h: T, x: seq<T>, y: seq<T>)
    ensures [h] + (x + y) == ([h] + x) + y
  {}

  /** Consing onto the tail of a concatenation whose first part is not empty. */
  lemma ConsAssocTail(h: string, x: seq<string>, y: seq<string>)
    requires |x| >= 1
    ensures [h] + (x + y)[1..] == ([h] + x[1..]) + y
    ensures (x + y)[0] == x[0]
  {
    assert (x + y)[1..] == x[1..] + y;
  }

  /** Splitting text with a '/' between `a` and `b` splits `a` and `b` separately. */
  lemma {:induction false} SplitAround(a: string, b: string)
    ensures SplitSlash(a + "/" + b) == SplitSlash(a) + SplitSlash(b)
  {
    if a == [] {
      assert a + "/" + b == ['/'] + b;
      SplitCons('/', b);
    } else {
      var rest := a[1..] + "/" + b;
      assert a + "/" + b == [a[0]] + rest;
      assert a == [a[0]] + a[1..];
      SplitCons(a[0], rest);
      SplitCons(a[0], a[1..]);
      SplitAround(a[1..], b);
      var x, y := SplitSlash(a[1..]), SplitSlash(b);
      if a[0] == '/' {
        ConsAssoc("", x, y);
      } else {
        ConsAssocTail([a[0]] + x[0], x, y);
      }
    }
  }

  /** Joining parts that contain no '/' and splitting again gives the parts back. */
  lemma {:induction false} SplitJoin(parts: seq<string>)
    requires |parts| >= 1
    requires forall i :: 0 <= i < |parts| ==> NoSlash(parts[i])
    ensures SplitSlash(JoinSlash(parts)) == parts
  {
    SplitNoSlash(parts[0]);
    if |parts| > 1 {
      SplitJoin(parts[1..]);
      SplitAround(parts[0], JoinSlash(parts[1..]));
      assert parts == [parts[0]] + parts[1..];
    }
  }
}
