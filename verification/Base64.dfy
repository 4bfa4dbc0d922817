/** Base64, section 4 of RFC 4648: what `base64` prints, and what `base64.b64decode(…, validate=True)`
    reads. */
module Base64 {
  import opened Bytes
  import opened Wrappers

  /** The alphabet, by its values. */
  function Letter(v: nat): (c: char)
    requires v < 64
    ensures c != ' ' && c != '=' && 0x20 < c as int < 0x7F
  {
    if v < 26 then 'A' + v as char
    else if v < 52 then 'a' + (v - 26) as char
    else if v < 62 then '0' + (v - 52) as char
    else if v == 62 then '+' else '/'
  }

  function LetterValue(c: char): (v: Option<nat>)
    ensures v.Some? ==> v.value < 64
  {
    if 'A' <= c <= 'Z' then Some(c as int - 'A' as int)
    else if 'a' <= c <= 'z' then Some(c as int - 'a' as int + 26)
    else if '0' <= c <= '9' then Some(c as int - '0' as int + 52)
    else if c == '+' then Some(62) else if c == '/' then Some(63) else None
  }

  /** Three octets as four letters; the last group is padded. */
  function Encode(b: Bytes): (s: string)
    ensures forall i :: 0 <= i < |s| ==> s[i] != ' ' && 0x20 < s[i] as int < 0x7F
  {
    if b == [] then []
    else if |b| == 1 then [Letter(b[0] / 4), Letter(b[0] % 4 * 16), '=', '=']
    else if |b| == 2 then [Letter(b[0] / 4), Letter(b[0] % 4 * 16 + b[1] / 16), Letter(b[1] % 16 * 4), '=']
    else
      [Letter(b[0] / 4), Letter(b[0] % 4 * 16 + b[1] / 16), Letter(b[1] % 16 * 4 + b[2] / 64), Letter(b[2] % 64)] + Encode(b[3..])
  }

  /** The octets four values make. */
  function First(v0: nat, v1: nat): byte
    requires v0 < 64 && v1 < 64
  {
    v0 * 4 + v1 / 16
  }

  function Second(v1: nat, v2: nat): byte
    requires v1 < 64 && v2 < 64
  {
    v1 % 16 * 16 + v2 / 4
  }

  function Third(v2: nat, v3: nat): byte
    requires v2 < 64 && v3 < 64
  {
    v2 % 4 * 64 + v3
  }

  /** None where a character is not in the alphabet, or the padding is not what the length needs. */
  function Decode(s: string): Option<Bytes> {
    if s == [] then Some([])
    else if |s| < 4 then None
    else
      var v0, v1 := LetterValue(s[0]), LetterValue(s[1]);
      if v0.None? || v1.None? then None
      else if |s| == 4 && s[2] == '=' && s[3] == '=' then Some([First(v0.value, v1.value)])
      else
        var v2 := LetterValue(s[2]);
        if v2.None? then None
        else if |s| == 4 && s[3] == '=' then Some([First(v0.value, v1.value), Second(v1.value, v2.value)])
        else
          var v3, rest := LetterValue(s[3]), Decode(s[4..]);
          if v3.None? || rest.None? then None
          else Some([First(v0.value, v1.value), Second(v1.value, v2.value), Third(v2.value, v3.value)] + rest.value)
  }

  lemma LetterBack(v: nat)
    requires v < 64
    ensures LetterValue(Letter(v)) == Some(v)
  {
  }

  lemma GroupValues(a: byte, b: byte, c: byte)
    ensures First(a / 4, a % 4 * 16 + b / 16) == a
    ensures Second(a % 4 * 16 + b / 16, b % 16 * 4 + c / 64) == b
    ensures Third(b % 16 * 4 + c / 64, c % 64) == c
  {
    var v1, v2 := a % 4 * 16 + b / 16, b % 16 * 4 + c / 64;
    assert v1 / 16 == a % 4 && v1 % 16 == b / 16;
    assert v2 / 4 == b % 16 && v2 % 4 == c / 64;
  }

  lemma OneBack(a: byte)
    ensures Decode(Encode([a])) == Some([a])
  {
    hide First, Letter, LetterValue;
    LetterBack(a / 4);
    LetterBack(a % 4 * 16);
    GroupValues(a, 0, 0);
  }

  lemma TwoBack(a: byte, b: byte)
    ensures Decode(Encode([a, b])) == Some([a, b])
  {
    hide First, Second, Letter, LetterValue;
    LetterBack(a / 4);
    LetterBack(a % 4 * 16 + b / 16);
    LetterBack(b % 16 * 4);
    GroupValues(a, b, 0);
  }

  /** A group is read back before the rest is. */
  lemma GroupBack(a: byte, b: byte, c: byte, rest: string)
    ensures var v1, v2 := a % 4 * 16 + b / 16, b % 16 * 4 + c / 64;
            var s := [Letter(a / 4), Letter(v1), Letter(v2), Letter(c % 64)] + rest;
            Decode(s) == if Decode(rest).Some? then Some([a, b, c] + Decode(rest).value) else None
  {
    hide First, Second, Third, Letter, LetterValue;
    var v1, v2 := a % 4 * 16 + b / 16, b % 16 * 4 + c / 64;
    LetterBack(a / 4);
    LetterBack(v1);
    LetterBack(v2);
    LetterBack(c % 64);
    GroupValues(a, b, c);
    var s := [Letter(a / 4), Letter(v1), Letter(v2), Letter(c % 64)] + rest;
    assert s[4..] == rest && s[3] != '=' && s[2] != '=';
  }

  lemma {:induction false} RoundTrip(b: Bytes)
    ensures Decode(Encode(b)) == Some(b)
  {
    hide Letter, LetterValue, Decode;
    if |b| == 0 {
      NothingBack();
    } else if |b| == 1 {
      OneBack(b[0]);
      assert b == [b[0]];
    } else if |b| == 2 {
      TwoBack(b[0], b[1]);
      assert b == [b[0], b[1]];
    } else {
      GroupBack(b[0], b[1], b[2], Encode(b[3..]));
      RoundTrip(b[3..]);
      assert b == [b[0], b[1], b[2]] + b[3..];
    }
  }

  lemma NothingBack()
    ensures Decode([]) == Some([])
  {
  }

  // ----- what is read at all -----

  predicate IsLetter(c: char) {
    'A' <= c <= 'Z' || 'a' <= c <= 'z' || '0' <= c <= '9' || c == '+' || c == '/'
  }

  /** Groups of four letters, of which the last may close in one or two equals signs. */
  predicate WellFormed(s: string)
    decreases |s|
  {
    s == [] ||
    (|s| >= 4 && IsLetter(s[0]) && IsLetter(s[1])
     && ((IsLetter(s[2]) && IsLetter(s[3]) && WellFormed(s[4..]))
         || (|s| == 4 && s[3] == '=' && (IsLetter(s[2]) || s[2] == '='))))
  }

  function Pads(s: string): nat {
    if |s| >= 2 && s[|s| - 2] == '=' then 2 else if s != [] && s[|s| - 1] == '=' then 1 else 0
  }

  lemma LetterExactly(c: char)
    ensures LetterValue(c).Some? <==> IsLetter(c)
    ensures IsLetter(c) ==> c != '='
  {
  }

  /** Decoding fails exactly on what is not so formed. */
  lemma {:induction false} DecodesExactly(s: string)
    ensures Decode(s).Some? <==> WellFormed(s)
    decreases |s|
  {
    hide LetterValue, IsLetter, First, Second, Third;
    if |s| >= 4 {
      DecodesExactly(s[4..]);
      LetterExactly(s[0]);
      LetterExactly(s[1]);
      LetterExactly(s[2]);
      LetterExactly(s[3]);
    }
  }

  /** Three octets come of a group, less one for each pad. */
  lemma {:induction false} DecodedLength(s: string)
    requires Decode(s).Some?
    ensures |s| % 4 == 0 && |Decode(s).value| == |s| / 4 * 3 - Pads(s)
    decreases |s|
  {
    hide LetterValue, IsLetter, First, Second, Third;
    if |s| > 4 {
      DecodedRest(s);
      DecodedLength(s[4..]);
    } else if |s| == 4 {
      LetterExactly(s[2]);
      LetterExactly(s[3]);
      assert s[4..] == [];
    }
  }

  lemma DecodedRest(s: string)
    requires |s| > 4 && Decode(s).Some?
    ensures Decode(s[4..]).Some? && |Decode(s).value| == 3 + |Decode(s[4..]).value|
  {
    hide LetterValue, First, Second, Third;
  }
}
