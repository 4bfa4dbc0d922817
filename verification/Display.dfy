/** Names as the site context shows them (`units`, `shown`, `_escape`, `_cut` in site.py): nothing in a
    name can break a served line, and no two names are shown alike. */
module Display {
  // ----- lengths -----

  /** The UTF-16 code units of a character. */
  function CharUnits(c: char): nat {
    if c as int <= 0xFFFF then 1 else 2
  }

  /** `units` */
  function Units(text: string): nat {
    if text == [] then 0 else CharUnits(text[0]) + Units(text[1..])
  }

  lemma {:induction false} UnitsConcat(a: string, b: string)
    ensures Units(a + b) == Units(a) + Units(b)
  {
    if a == [] {
      assert a + b == b;
    } else {
      UnitsConcat(a[1..], b);
      assert (a + b)[1..] == a[1..] + b;
    }
  }

  /** `text.encode('utf-16-le')`, a code unit at a time: a character past 0xFFFF is a pair of surrogates. */
  function Utf16(text: string): seq<nat> {
    if text == [] then []
    else
      var code := text[0] as int;
      (if code <= 0xFFFF then [code] else [0xD800 + (code - 0x1_0000) / 1024, 0xDC00 + (code - 0x1_0000) % 1024]) + Utf16(text[1..])
  }

  /** A length in units is the length of that encoding. */
  lemma {:induction false} UnitsAreUtf16(text: string)
    ensures Units(text) == |Utf16(text)|
  {
    if text != [] {
      UnitsAreUtf16(text[1..]);
    }
  }

  // ----- escapes -----

  /** C0, DEL, C1 and the two Unicode line breaks. */
  predicate Breaks(c: char) {
    var code := c as int;
    code < 0x20 || 0x7F <= code <= 0x9F || code == 0x2028 || code == 0x2029
  }

  predicate Escaped(c: char) { Breaks(c) || c == '\\' }

  function HexDigit(n: nat): (c: char)
    requires n < 16
    ensures '0' <= c <= '9' || 'a' <= c <= 'f'
  {
    if n < 10 then '0' + n as char else 'a' + (n - 10) as char
  }

  /** `\xNN` or `\uNNNN` */
  function Escape(c: char): (s: string)
    requires Escaped(c)
  {
    var code := c as int;
    if code <= 0xFF then ['\\', 'x', HexDigit(code / 16), HexDigit(code % 16)]
    else ['\\', 'u', HexDigit(code / 4096), HexDigit(code / 256 % 16), HexDigit(code / 16 % 16), HexDigit(code % 16)]
  }

  /** `shown` */
  function Shown(text: string): string {
    if text == [] then []
    else (if Escaped(text[0]) then Escape(text[0]) else [text[0]]) + Shown(text[1..])
  }

  // ----- reading a shown text -----

  function HexValue(c: char): nat {
    if '0' <= c <= '9' then c as int - '0' as int else if 'a' <= c <= 'f' then c as int - 'a' as int + 10 else 0
  }

  /** A character from its code, where there is one. */
  function FromCode(code: nat): char {
    if code < 0xD800 || 0xE000 <= code < 0x11_0000 then code as char else ' '
  }

  /** The text a shown text was: every backslash in it starts an escape. */
  function Read(s: string): string {
    if s == [] then []
    else if s[0] != '\\' then [s[0]] + Read(s[1..])
    else if |s| >= 4 && s[1] == 'x' then [FromCode(HexValue(s[2]) * 16 + HexValue(s[3]))] + Read(s[4..])
    else if |s| >= 6 && s[1] == 'u' then
      [FromCode(HexValue(s[2]) * 4096 + HexValue(s[3]) * 256 + HexValue(s[4]) * 16 + HexValue(s[5]))] + Read(s[6..])
    else []
  }

  lemma HexBack(n: nat)
    requires n < 16
    ensures HexValue(HexDigit(n)) == n
  {
  }

  lemma EscapeRead(c: char, rest: string)
    requires Escaped(c)
    ensures Read(Escape(c) + rest) == [c] + Read(rest)
  {
    var code := c as int;
    var s := Escape(c) + rest;
    if code <= 0xFF {
      HexBack(code / 16);
      HexBack(code % 16);
      assert s[4..] == rest;
      assert FromCode(code / 16 * 16 + code % 16) == c;
    } else {
      HexBack(code / 4096);
      HexBack(code / 256 % 16);
      HexBack(code / 16 % 16);
      HexBack(code % 16);
      assert s[6..] == rest;
      assert code / 4096 * 4096 + code / 256 % 16 * 256 + code / 16 % 16 * 16 + code % 16 == code;
    }
  }

  /** `shown` is invertible. */
  lemma {:induction false} ShownIsRead(text: string)
    ensures Read(Shown(text)) == text
  {
    if text != [] {
      ShownIsRead(text[1..]);
      if Escaped(text[0]) {
        EscapeRead(text[0], Shown(text[1..]));
      } else {
        assert ([text[0]] + Shown(text[1..]))[1..] == Shown(text[1..]);
      }
    }
  }

  /** No two texts are shown alike. */
  lemma ShownInjective(a: string, b: string)
    ensures Shown(a) == Shown(b) <==> a == b
  {
    ShownIsRead(a);
    ShownIsRead(b);
  }

  /** A character no terminal and no reader takes for a control or a line's end. */
  predicate Printable(c: char) {
    var code := c as int;
    0x20 <= code < 0x7F || (0xA0 <= code && code != 0x2028 && code != 0x2029)
  }

  /** No shown text holds a control or line-breaking character. */
  lemma {:induction false} ShownIsOneLine(text: string)
    ensures forall i :: 0 <= i < |Shown(text)| ==> Printable(Shown(text)[i])
  {
    if text != [] {
      ShownIsOneLine(text[1..]);
    }
  }

  lemma {:induction false} ShownIsLonger(text: string)
    ensures |Shown(text)| >= |text| && (|Shown(text)| == |text| ==> forall i :: 0 <= i < |text| ==> !Escaped(text[i]))
  {
    if text != [] {
      ShownIsLonger(text[1..]);
      assert forall i :: 1 <= i < |text| ==> text[i] == text[1..][i - 1];
    }
  }

  /** A text is shown as it is exactly when it holds no line-breaking or control character and no backslash. */
  lemma {:induction false} PlainIsShown(text: string)
    ensures Shown(text) == text <==> forall i :: 0 <= i < |text| ==> Printable(text[i]) && text[i] != '\\'
  {
    ShownIsLonger(text);
    if text != [] && forall i :: 0 <= i < |text| ==> Printable(text[i]) && text[i] != '\\' {
      assert forall i :: 0 <= i < |text| - 1 ==> text[1..][i] == text[i + 1];
      PlainIsShown(text[1..]);
      assert text == [text[0]] + text[1..];
    }
  }

  // ----- cuts -----

  const ELLIPSIS: char := '\U{2026}'

  /** How many characters of `text` fit `room` code units. */
  function Fitting(text: string, room: int): (n: nat)
    ensures n <= |text|
  {
    if text == [] || CharUnits(text[0]) > room then 0 else 1 + Fitting(text[1..], room - CharUnits(text[0]))
  }

  function Cut(text: string, limit: int): string {
    if Units(text) <= limit then text else text[..Fitting(text, limit - 1)] + [ELLIPSIS]
  }

  /** The start that fits, and no longer one does. */
  lemma {:induction false} FittingIsLongest(text: string, room: int)
    ensures Fitting(text, room) > 0 ==> Units(text[..Fitting(text, room)]) <= room
    ensures forall n :: Fitting(text, room) < n <= |text| ==> Units(text[..n]) > room
  {
    if text != [] {
      var u := CharUnits(text[0]);
      FittingIsLongest(text[1..], room - u);
      forall n | 0 < n <= |text| ensures Units(text[..n]) == u + Units(text[1..][..n - 1]) {
        assert text[..n][1..] == text[1..][..n - 1];
      }
      if u > room {
        forall n | 0 < n <= |text| ensures Units(text[..n]) > room { }
      } else {
        var k := Fitting(text[1..], room - u);
        assert k == 0 ==> text[1..][..k] == [];
        forall n | 1 + k < n <= |text| ensures Units(text[..n]) > room {
          assert Units(text[1..][..n - 1]) > room - u;
        }
      }
    }
  }

  /** A start of `text` with the ellipsis after it. */
  function Shortened(text: string, n: nat): string
    requires n <= |text|
  {
    text[..n] + [ELLIPSIS]
  }

  lemma ShortenedUnits(text: string, n: nat)
    requires n <= |text|
    ensures Units(Shortened(text, n)) == Units(text[..n]) + 1
  {
    UnitsConcat(text[..n], [ELLIPSIS]);
    assert Units([ELLIPSIS]) == CharUnits(ELLIPSIS) + Units([]);
  }

  /** `_cut` gives the text where it fits, else the longest start of it that fits the limit with the
      ellipsis after it; what it gives fits, unless not even the ellipsis does. */
  lemma CutIsLongest(text: string, limit: int)
    ensures Units(text) <= limit ==> Cut(text, limit) == text
    ensures Units(text) > limit ==> Cut(text, limit) == Shortened(text, Fitting(text, limit - 1))
    ensures forall m :: Fitting(text, limit - 1) < m <= |text| ==> Units(Shortened(text, m)) > limit
    ensures limit >= 1 ==> Units(Cut(text, limit)) <= limit
  {
    var n := Fitting(text, limit - 1);
    FittingIsLongest(text, limit - 1);
    forall m | 0 <= m <= |text| ensures Units(Shortened(text, m)) == Units(text[..m]) + 1 {
      ShortenedUnits(text, m);
    }
    if Units(text) > limit >= 1 && n == 0 {
      assert text[..n] == [];
    }
  }

  /** A cut of a shown text is still one line. */
  lemma CutIsOneLine(text: string, limit: int)
    ensures forall i :: 0 <= i < |Cut(Shown(text), limit)| ==> Printable(Cut(Shown(text), limit)[i])
  {
    ShownIsOneLine(text);
  }

  /** `_cut`: characters are kept while there is room. */
  method CutText(text: string, limit: int) returns (cut: string)
    ensures cut == Cut(text, limit)
  {
    if Units(text) <= limit {
      return text;
    }
    var kept: string, room := [], limit - 1;
    var i := 0;
    while i < |text|
      invariant 0 <= i <= |text| && kept == text[..i]
      invariant Fitting(text, limit - 1) == i + Fitting(text[i..], room)
    {
      room := room - CharUnits(text[i]);
      if room < 0 {
        break;
      }
      assert text[i..][1..] == text[i + 1..];
      kept := kept + [text[i]];
      i := i + 1;
    }
    cut := kept + [ELLIPSIS];
  }
}
