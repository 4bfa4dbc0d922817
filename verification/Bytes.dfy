/** Octets, searches in them, and the decimal texts both ends of a wire write numbers in. */
module Bytes {
  import opened Wrappers

  type byte = x: int | 0 <= x < 256
  type Bytes = seq<byte>

  // ----- searches: bytes.find -----

  predicate Occurs(data: Bytes, pattern: Bytes, i: int) {
    0 <= i && i + |pattern| <= |data| && data[i..i + |pattern|] == pattern
  }

  /** The first occurrence of `pattern` in `data` from `at` on. */
  function Find(data: Bytes, pattern: Bytes, at: nat): (found: Option<nat>)
    ensures found.Some? ==> at <= found.value && Occurs(data, pattern, found.value)
    decreases |data| + 1 - at
  {
    if at + |pattern| > |data| then None
    else if Occurs(data, pattern, at) then Some(at)
    else Find(data, pattern, at + 1)
  }

  /** No earlier place is an occurrence, and without an answer none is. */
  lemma {:induction false} FindIsFirst(data: Bytes, pattern: Bytes, at: nat, i: nat)
    requires at <= i && Occurs(data, pattern, i)
    ensures Find(data, pattern, at).Some? && Find(data, pattern, at).value <= i
    decreases |data| + 1 - at
  {
    if !Occurs(data, pattern, at) {
      FindIsFirst(data, pattern, at + 1, i);
    }
  }

  /** An occurrence lies in a prefix exactly when it ends there. */
  lemma OccursPrefix(p: Bytes, data: Bytes, pattern: Bytes, i: int)
    requires p <= data
    ensures Occurs(p, pattern, i) <==> Occurs(data, pattern, i) && i + |pattern| <= |p|
  {
    if 0 <= i && i + |pattern| <= |p| {
      assert p[i..i + |pattern|] == data[i..i + |pattern|];
    }
  }

  lemma Front(a: Bytes, b: Bytes, c: Bytes)
    ensures a <= a + b + c && (a + b + c)[..|a|] == a
  {
  }

  lemma Middle(a: Bytes, b: Bytes, c: Bytes)
    ensures (a + b + c)[|a|..|a| + |b|] == b
  {
  }

  lemma Back(a: Bytes, b: Bytes, c: Bytes)
    ensures a + b <= a + b + c && (a + b + c)[|a| + |b|..] == c
  {
  }

  // ----- decimal texts -----

  function Digit(d: nat): char
    requires d < 10
  {
    '0' + d as char
  }

  /** A number as decimal text, with no leading zero. */
  function Decimal(n: nat): (s: string)
    ensures |s| > 0
    ensures forall i :: 0 <= i < |s| ==> '0' <= s[i] <= '9'
  {
    if n < 10 then [Digit(n)] else Decimal(n / 10) + [Digit(n % 10)]
  }

  /** The octets of an ASCII text (a character that is none becomes a question mark). */
  function Ascii(s: string): (b: Bytes)
    ensures |b| == |s|
    ensures forall i :: 0 <= i < |s| && s[i] as int < 128 ==> b[i] == s[i] as int
  {
    seq(|s|, i requires 0 <= i < |s| => if s[i] as int < 128 then s[i] as int else 63)
  }

  lemma {:induction false} DecimalInjective(m: nat, n: nat)
    requires Decimal(m) == Decimal(n)
    ensures m == n
  {
    var s, t := Decimal(m), Decimal(n);
    if m >= 10 && n >= 10 {
      assert s[..|s| - 1] == Decimal(m / 10) && t[..|t| - 1] == Decimal(n / 10);
      DecimalInjective(m / 10, n / 10);
      assert s[|s| - 1] == Digit(m % 10) && t[|t| - 1] == Digit(n % 10);
    }
  }

  /** Of two texts cut at their first spaces. */
  lemma {:induction false} FirstSpace(a: string, b: string, c: string, d: string)
    requires ' ' !in a && ' ' !in c && a + " " + b == c + " " + d
    ensures a == c && b == d
  {
    var s, t := a + " " + b, c + " " + d;
    assert s[0] == (if a == [] then ' ' else a[0]) && t[0] == (if c == [] then ' ' else c[0]);
    if a == [] || c == [] {
      assert b == s[1..] && d == t[1..];
    } else {
      assert s[1..] == a[1..] + " " + b && t[1..] == c[1..] + " " + d;
      FirstSpace(a[1..], b, c[1..], d);
    }
  }

  /** Two numbers with a space between are read back one way only. */
  lemma TwoDecimals(m: nat, n: nat, x: nat, y: nat)
    requires Decimal(m) + " " + Decimal(n) == Decimal(x) + " " + Decimal(y)
    ensures m == x && n == y
  {
    FirstSpace(Decimal(m), Decimal(n), Decimal(x), Decimal(y));
    DecimalInjective(m, x);
    DecimalInjective(n, y);
  }

  lemma AsciiInjective(s: string, t: string)
    requires Ascii(s) == Ascii(t)
    requires (forall i :: 0 <= i < |s| ==> s[i] as int < 128) && (forall i :: 0 <= i < |t| ==> t[i] as int < 128)
    ensures s == t
  {
    forall i | 0 <= i < |s| ensures s[i] == t[i] {
      assert Ascii(s)[i] == Ascii(t)[i];
    }
  }
}
