/** The checksum a staged write is verified by (`cksum`, `_REVERSED` in executor/ssh.py).

    Registers and octets are bit strings, most significant bit first, so a binary text and its
    reversal are what they are in the source. `ZlibCrc32` is the library's reflected CRC-32;
    `PosixCrc` is the "cksum" utility of IEEE Std 1003.1, stated as it is there: the remainder of a
    division of bit polynomials. `Cksum` computes the second through the first. */
module Crc {
  import opened Bytes

  type Bits = seq<bool>

  /** A CRC register, and a generator polynomial without its leading term. */
  type Register = s: Bits | |s| == 32 witness seq(32, _ => false)

  // ----- numbers, binary texts and reversal -----

  /** The `w` low bits of `n`, most significant first: `f'{n:0{w}b}'`. */
  function BitsOf(n: nat, w: nat): (s: Bits)
    ensures |s| == w
    decreases w, n
  {
    if w == 0 then [] else BitsOf(n / 2, w - 1) + [n % 2 == 1]
  }

  /** The number a binary text names: `int(s, 2)`. */
  function Value(s: Bits): nat {
    if s == [] then 0 else 2 * Value(s[..|s| - 1]) + (if s[|s| - 1] then 1 else 0)
  }

  function Pow2(w: nat): (p: nat)
    ensures p > 0
  {
    if w == 0 then 1 else 2 * Pow2(w - 1)
  }

  lemma {:induction false} BitsValue(s: Bits)
    ensures Value(s) < Pow2(|s|)
    ensures BitsOf(Value(s), |s|) == s
  {
    if s != [] {
      var front := s[..|s| - 1];
      BitsValue(front);
      assert Value(s) / 2 == Value(front);
      assert s == front + [s[|s| - 1]];
    }
  }

  function Reverse(s: Bits): (r: Bits)
    ensures |r| == |s|
    ensures forall i :: 0 <= i < |s| ==> r[i] == s[|s| - 1 - i]
  {
    seq(|s|, i requires 0 <= i < |s| => s[|s| - 1 - i])
  }

  function Xor(a: Bits, b: Bits): (r: Bits)
    requires |a| == |b|
    ensures |r| == |a|
    ensures forall i :: 0 <= i < |a| ==> r[i] == (a[i] != b[i])
  {
    seq(|a|, i requires 0 <= i < |a| => a[i] != b[i])
  }

  function Zeros(n: nat): (r: Bits)
    ensures |r| == n
    ensures forall i :: 0 <= i < n ==> !r[i]
  {
    seq(n, _ => false)
  }

  function Complement(s: Bits): (r: Bits)
    ensures |r| == |s|
    ensures forall i :: 0 <= i < |s| ==> r[i] == !s[i]
  {
    seq(|s|, i requires 0 <= i < |s| => !s[i])
  }

  function When(c: bool, a: Register): Register {
    if c then a else Zeros(32)
  }

  /** G(x) without x^32, by its exponents; the utility's and the library's polynomial are the same. */
  const EXPONENTS: set<nat> := {26, 23, 22, 16, 12, 11, 10, 8, 7, 5, 4, 2, 1, 0}

  /** G(x) with the highest power first, 0x04C11DB7. */
  function Generator(): Register {
    seq(32, i requires 0 <= i < 32 => 31 - i in EXPONENTS)
  }

  /** G(x) with the lowest power first, 0xEDB88320. */
  function Reflected(): Register {
    seq(32, i requires 0 <= i < 32 => i in EXPONENTS)
  }

  /** 0xFFFFFFFF */
  function Ones(): (r: Register)
    ensures forall i :: 0 <= i < 32 ==> r[i]
  {
    seq(32, _ => true)
  }

  // ----- the reflected CRC of the library -----

  /** One data bit into the library's register: the low end meets the bit, the register shifts right. */
  function ReflectedBit(poly: Register, reg: Register, bit: bool): Register {
    Xor([false] + reg[..31], When(reg[31] != bit, poly))
  }

  /** An octet, its least significant bit first. */
  function ReflectedOctet(poly: Register, reg: Register, octet: Bits): Register
    decreases octet, poly
  {
    if octet == [] then reg
    else ReflectedOctet(poly, ReflectedBit(poly, reg, octet[|octet| - 1]), octet[..|octet| - 1])
  }

  function ReflectedData(poly: Register, reg: Register, data: Bytes): Register
    decreases data, poly
  {
    if data == [] then reg
    else ReflectedData(poly, ReflectedOctet(poly, reg, BitsOf(data[0], 8)), data[1..])
  }

  /** `zlib.crc32(data, value)`: the register is complemented on the way in and on the way out. */
  function ZlibCrc32(data: Bytes, value: Register): Register {
    Complement(ReflectedData(Reflected(), Complement(value), data))
  }

  // ----- the POSIX utility -----

  /** The bits of a message, each octet's most significant bit first. */
  function Message(data: Bytes): Bits {
    if data == [] then [] else BitsOf(data[0], 8) + Message(data[1..])
  }

  /** One step of a long division by x^32 + G: bring a bit down, subtract G when the top bit leaves. */
  function DivideBit(g: Register, rem: Register, bit: bool): Register {
    Xor(rem[1..] + [bit], When(rem[0], g))
  }

  /** The remainder of `rem` followed by the bits `m`, as a polynomial over GF(2). */
  function Divide(g: Register, rem: Register, m: Bits): Register
    decreases m, g
  {
    if m == [] then rem else Divide(g, DivideBit(g, rem, m[0]), m[1..])
  }

  /** The octets of a length, least significant first and no more than it needs. */
  function LengthOctets(n: nat): Bytes {
    if n == 0 then [] else [n % 256] + LengthOctets(n / 256)
  }

  /** IEEE Std 1003.1, cksum: M(x) is the data then its length; x^32 M(x) is divided by G(x) and the
      remainder complemented. */
  function PosixCrc(data: Bytes): nat {
    var message := Message(data + LengthOctets(|data|));
    Value(Complement(Divide(Generator(), Zeros(32), message + Zeros(32))))
  }

  /** What the utility prints for `data` read on its standard input. */
  function PosixCksum(data: Bytes): string {
    Decimal(PosixCrc(data)) + " " + Decimal(|data|)
  }

  /** The number that octets write, the least significant first. */
  function NumberOf(octets: Bytes): nat {
    if octets == [] then 0 else octets[0] + 256 * NumberOf(octets[1..])
  }

  /** A length's octets write it, and no more of them than it needs. */
  lemma {:induction false} LengthOctetsAre(n: nat)
    ensures NumberOf(LengthOctets(n)) == n
    ensures n > 0 ==> LengthOctets(n) != [] && LengthOctets(n)[|LengthOctets(n)| - 1] != 0
  {
    if n > 0 {
      LengthOctetsAre(n / 256);
      assert LengthOctets(n)[1..] == LengthOctets(n / 256);
    }
  }

  function Bit(b: bool): nat { if b then 1 else 0 }

  lemma OneMoreBit(s: Bits, k: nat)
    requires k < |s|
    ensures Value(s[..k + 1]) == 2 * Value(s[..k]) + Bit(s[k])
  {
    assert s[..k + 1][..k] == s[..k];
  }

  lemma FourBits(s: Bits, k: nat)
    requires k + 4 <= |s|
    ensures Value(s[..k + 4]) == 16 * Value(s[..k]) + 8 * Bit(s[k]) + 4 * Bit(s[k + 1]) + 2 * Bit(s[k + 2]) + Bit(s[k + 3])
  {
    hide Value;
    OneMoreBit(s, k);
    OneMoreBit(s, k + 1);
    OneMoreBit(s, k + 2);
    OneMoreBit(s, k + 3);
  }

  predicate HasPower(i: int) { i in EXPONENTS }

  lemma GeneratorBit(i: nat)
    requires i < 32
    ensures Generator()[i] <==> HasPower(31 - i)
  {
  }

  function Nibble(k: nat): nat {
    8 * Bit(HasPower(k + 3)) + 4 * Bit(HasPower(k + 2)) + 2 * Bit(HasPower(k + 1)) + Bit(HasPower(k))
  }

  lemma GeneratorFour(k: nat)
    requires k + 4 <= 32
    ensures Value(Generator()[..k + 4]) == 16 * Value(Generator()[..k]) + Nibble(28 - k)
  {
    hide Value, Generator, HasPower;
    FourBits(Generator(), k);
    GeneratorBit(k);
    GeneratorBit(k + 1);
    GeneratorBit(k + 2);
    GeneratorBit(k + 3);
  }

  lemma HighNibbles()
    ensures Nibble(28) == 0 && Nibble(24) == 4
  {
  }

  lemma MiddleNibbles()
    ensures Nibble(20) == 0xC && Nibble(16) == 1
  {
  }

  lemma LowNibbles()
    ensures Nibble(12) == 1 && Nibble(8) == 0xD && Nibble(4) == 0xB && Nibble(0) == 7
  {
  }

  lemma GeneratorEnds()
    ensures Value(Generator()[..0]) == 0 && Generator()[..32] == Generator()
  {
  }

  /** The polynomial, a hexadecimal digit at a time. */
  lemma GeneratorIs()
    ensures Value(Generator()) == 0x04C11DB7
  {
    hide *;
    GeneratorEnds();
    HighNibbles();
    MiddleNibbles();
    LowNibbles();
    GeneratorFour(0);
    GeneratorFour(4);
    GeneratorFour(8);
    GeneratorFour(12);
    GeneratorFour(16);
    GeneratorFour(20);
    GeneratorFour(24);
    GeneratorFour(28);
  }

  // ----- division is linear -----

  lemma DivideBitLinear(g: Register, a: Register, b: Register, x: bool, y: bool)
    ensures DivideBit(g, Xor(a, b), x != y) == Xor(DivideBit(g, a, x), DivideBit(g, b, y))
  {
  }

  lemma {:induction false} DivideLinear(g: Register, a: Register, b: Register, m: Bits, n: Bits)
    requires |m| == |n|
    ensures Divide(g, Xor(a, b), Xor(m, n)) == Xor(Divide(g, a, m), Divide(g, b, n))
    decreases m
  {
    if m != [] {
      DivideBitLinear(g, a, b, m[0], n[0]);
      DivideLinear(g, DivideBit(g, a, m[0]), DivideBit(g, b, n[0]), m[1..], n[1..]);
      assert Xor(m, n)[1..] == Xor(m[1..], n[1..]);
    }
  }

  lemma {:induction false} DivideConcat(g: Register, rem: Register, m: Bits, n: Bits)
    ensures Divide(g, rem, m + n) == Divide(g, Divide(g, rem, m), n)
    decreases m
  {
    if m == [] {
      assert m + n == n;
    } else {
      assert (m + n)[0] == m[0] && (m + n)[1..] == m[1..] + n;
      hide DivideBit;
      DivideConcat(g, DivideBit(g, rem, m[0]), m[1..], n);
    }
  }

  /** A register whose first `k` bits are zero shifts `k` zeros in without a subtraction. */
  lemma {:induction false} DivideShift(g: Register, rem: Register, k: nat)
    requires k <= 32
    requires forall i :: 0 <= i < k ==> !rem[i]
    ensures Divide(g, rem, Zeros(k)) == rem[k..] + Zeros(k)
    decreases k
  {
    if k == 0 {
      assert rem[0..] + Zeros(0) == rem;
    } else {
      var next := DivideBit(g, rem, false);
      assert next == rem[1..] + [false];
      DivideShift(g, next, k - 1);
      assert Zeros(k)[1..] == Zeros(k - 1);
      assert next[k - 1..] + Zeros(k - 1) == rem[k..] + Zeros(k);
    }
  }

  /** x^32 leaves G. */
  lemma LeadingBit(g: Register, b: bool)
    ensures Divide(g, Zeros(32), [b] + Zeros(32)) == When(b, g)
  {
    var one: Register := Zeros(31) + [b];
    assert DivideBit(g, Zeros(32), b) == one;
    DivideShift(g, one, 31);
    var top := Divide(g, one, Zeros(31));
    assert top == [b] + Zeros(31);
    DivideConcat(g, one, Zeros(31), [false]);
    assert Zeros(31) + [false] == Zeros(32);
    assert Divide(g, top, [false]) == DivideBit(g, top, false);
    assert DivideBit(g, top, false) == When(b, g);
    assert ([b] + Zeros(32))[1..] == Zeros(32);
  }

  // ----- the shift-register form of the division -----

  /** One data bit into the register form: it meets the top end, and the register shifts left. */
  function ShiftBit(g: Register, reg: Register, bit: bool): Register {
    Xor(reg[1..] + [false], When(reg[0] != bit, g))
  }

  function Shift(g: Register, reg: Register, m: Bits): Register
    decreases m, g
  {
    if m == [] then reg else Shift(g, ShiftBit(g, reg, m[0]), m[1..])
  }

  lemma DataBit(g: Register, rem: Register, b: bool)
    ensures Divide(g, rem, [b] + Zeros(32)) == Xor(Divide(g, rem, [false] + Zeros(32)), When(b, g))
  {
    hide DivideBit, Divide, When;
    LeadingBit(g, b);
    DivideLinear(g, rem, Zeros(32), [false] + Zeros(32), [b] + Zeros(32));
    assert Xor(rem, Zeros(32)) == rem;
    assert Xor([false] + Zeros(32), [b] + Zeros(32)) == [b] + Zeros(32);
  }

  lemma ZeroBitLast(g: Register, rem: Register)
    ensures Divide(g, rem, [false] + Zeros(32)) == DivideBit(g, Divide(g, rem, Zeros(32)), false)
  {
    hide DivideBit;
    DivideConcat(g, rem, Zeros(32), [false]);
    assert [false] + Zeros(32) == Zeros(32) + [false];
    OneBit(g, Divide(g, rem, Zeros(32)), false);
  }

  lemma OneBit(g: Register, rem: Register, b: bool)
    ensures Divide(g, rem, [b]) == DivideBit(g, rem, b)
  {
    hide DivideBit;
    assert [b][1..] == [];
  }

  lemma ShiftsAlike(g: Register, reg: Register, b: bool)
    ensures Xor(DivideBit(g, reg, false), When(b, g)) == ShiftBit(g, reg, b)
  {
  }

  lemma ShiftBitDivides(g: Register, rem: Register, b: bool)
    ensures ShiftBit(g, Divide(g, rem, Zeros(32)), b) == Divide(g, DivideBit(g, rem, b), Zeros(32))
  {
    hide DivideBit, ShiftBit, When;
    assert Divide(g, DivideBit(g, rem, b), Zeros(32)) == Divide(g, rem, [b] + Zeros(32)) by {
      assert ([b] + Zeros(32))[1..] == Zeros(32);
    }
    DataBit(g, rem, b);
    ZeroBitLast(g, rem);
    ShiftsAlike(g, Divide(g, rem, Zeros(32)), b);
  }

  lemma {:induction false} ShiftDivides(g: Register, rem: Register, m: Bits)
    ensures Shift(g, Divide(g, rem, Zeros(32)), m) == Divide(g, rem, m + Zeros(32))
    decreases m
  {
    if m == [] {
      assert m + Zeros(32) == Zeros(32);
    } else {
      ShiftBitDivides(g, rem, m[0]);
      ShiftDivides(g, DivideBit(g, rem, m[0]), m[1..]);
      assert (m + Zeros(32))[1..] == m[1..] + Zeros(32);
    }
  }

  lemma {:induction false} ShiftConcat(g: Register, reg: Register, m: Bits, n: Bits)
    ensures Shift(g, reg, m + n) == Shift(g, Shift(g, reg, m), n)
    decreases m
  {
    hide ShiftBit;
    if m == [] {
      assert m + n == n;
    } else {
      assert (m + n)[0] == m[0] && (m + n)[1..] == m[1..] + n;
      ShiftConcat(g, ShiftBit(g, reg, m[0]), m[1..], n);
    }
  }

  lemma {:induction false} DivideNothing(g: Register, n: nat)
    ensures Divide(g, Zeros(32), Zeros(n)) == Zeros(32)
  {
    if n > 0 {
      assert DivideBit(g, Zeros(32), false) == Zeros(32);
      DivideNothing(g, n - 1);
      assert Zeros(n)[1..] == Zeros(n - 1);
    }
  }

  lemma {:induction false} OnesValue(s: Bits)
    requires forall i :: 0 <= i < |s| ==> s[i]
    ensures Value(s) + 1 == Pow2(|s|)
  {
    if s != [] {
      OnesValue(s[..|s| - 1]);
    }
  }

  /** Of nothing, the utility prints the CRC 4294967295 and the size 0. */
  lemma NothingIsSummed()
    ensures PosixCksum([]) == "4294967295 0"
  {
    hide Decimal, Value, Divide, Message, Pow2, Generator, LengthOctets;
    DivideNothing(Generator(), 32);
    NothingsMessage();
    OnesValue(Complement(Zeros(32)));
    NumbersOfNothing();
  }

  lemma NumbersOfNothing()
    ensures Pow2(32) == 4294967296 && Decimal(4294967295) == "4294967295" && Decimal(0) == "0"
  {
    hide Decimal, Pow2;
    assert Pow2(0) == 1 by { FirstPower(); }
    EightMore(0);
    EightMore(8);
    EightMore(16);
    EightMore(24);
    FirstDecimals();
    NextDecimal(42);
    NextDecimal(429);
    NextDecimal(4294);
    NextDecimal(42949);
    NextDecimal(429496);
    NextDecimal(4294967);
    NextDecimal(42949672);
    NextDecimal(429496729);
    NextDecimal(4294967295);
  }

  lemma FirstPower()
    ensures Pow2(0) == 1
  {
  }

  lemma EightMore(w: nat)
    ensures Pow2(w + 8) == 256 * Pow2(w)
  {
    assert Pow2(w + 4) == 16 * Pow2(w) by { assert Pow2(w + 2) == 4 * Pow2(w); }
    assert Pow2(w + 6) == 4 * Pow2(w + 4);
  }

  lemma FirstDecimals()
    ensures Decimal(4) == "4" && Decimal(0) == "0"
  {
  }

  lemma NextDecimal(n: nat)
    requires n >= 10
    ensures Decimal(n) == Decimal(n / 10) + [Digit(n % 10)]
  {
  }

  lemma NothingsMessage()
    ensures Message([] + LengthOctets(0)) + Zeros(32) == Zeros(32)
  {
    assert [] + LengthOctets(0) == [];
    assert Message([]) + Zeros(32) == Zeros(32);
  }

  // ----- reversal carries one register to the other -----

  lemma ReverseWhen(c: bool, a: Register)
    ensures Reverse(When(c, a)) == When(c, Reverse(a))
  {
    assert Reverse(Zeros(32)) == Zeros(32);
  }

  lemma ReverseXor(a: Bits, b: Bits)
    requires |a| == |b|
    ensures Reverse(Xor(a, b)) == Xor(Reverse(a), Reverse(b))
  {
  }

  lemma ReverseShifted(reg: Register)
    ensures Reverse([false] + reg[..31]) == Reverse(reg)[1..] + [false] && Reverse(reg)[0] == reg[31]
  {
  }

  lemma ReverseBit(poly: Register, reg: Register, bit: bool)
    ensures Reverse(ReflectedBit(poly, reg, bit)) == ShiftBit(Reverse(poly), Reverse(reg), bit)
  {
    hide Reverse, Xor, When;
    ReverseShifted(reg);
    ReverseWhen(reg[31] != bit, poly);
    ReverseXor([false] + reg[..31], When(reg[31] != bit, poly));
  }

  lemma {:induction false} ReverseOctet(poly: Register, reg: Register, octet: Bits)
    ensures Reverse(ReflectedOctet(poly, reg, Reverse(octet))) == Shift(Reverse(poly), Reverse(reg), octet)
    decreases octet
  {
    if octet != [] {
      var r := Reverse(octet);
      var next := ReflectedBit(poly, reg, octet[0]);
      assert r[|r| - 1] == octet[0] && r[..|r| - 1] == Reverse(octet[1..]);
      assert ReflectedOctet(poly, reg, r) == ReflectedOctet(poly, next, Reverse(octet[1..]));
      ReverseOctet(poly, next, octet[1..]);
      ReverseBit(poly, reg, octet[0]);
    }
  }

  /** `_REVERSED`: the octet with its bits in the other order. */
  function ReversedOctet(b: byte): (r: byte)
    ensures BitsOf(r, 8) == Reverse(BitsOf(b, 8))
  {
    var bits := Reverse(BitsOf(b, 8));
    BitsValue(bits);
    assert Pow2(8) == 256;
    Value(bits)
  }

  /** `data.translate(_REVERSED)` */
  function Translate(data: Bytes): (r: Bytes)
    ensures |r| == |data|
    ensures forall i :: 0 <= i < |data| ==> r[i] == ReversedOctet(data[i])
  {
    seq(|data|, i requires 0 <= i < |data| => ReversedOctet(data[i]))
  }

  lemma {:induction false} ReverseData(poly: Register, reg: Register, data: Bytes)
    ensures Reverse(ReflectedData(poly, reg, Translate(data))) == Shift(Reverse(poly), Reverse(reg), Message(data))
    decreases data
  {
    if data != [] {
      var bits := BitsOf(data[0], 8);
      ReverseOctet(poly, reg, bits);
      ReverseData(poly, ReflectedOctet(poly, reg, Reverse(bits)), data[1..]);
      ShiftConcat(Reverse(poly), Reverse(reg), bits, Message(data[1..]));
      assert Translate(data)[1..] == Translate(data[1..]);
    }
  }

  /** For every reflected polynomial: its CRC of the reversed octets, reversed, divides by the
      polynomial reversed. */
  lemma ReversedCrcDivides(poly: Register, message: Bytes)
    ensures Reverse(ReflectedData(poly, Zeros(32), Translate(message)))
         == Divide(Reverse(poly), Zeros(32), Message(message) + Zeros(32))
  {
    ReverseData(poly, Zeros(32), message);
    assert Reverse(Zeros(32)) == Zeros(32);
    DivideNothing(Reverse(poly), 32);
    ShiftDivides(Reverse(poly), Zeros(32), Message(message));
  }

  lemma GeneratorReversed()
    ensures Reverse(Reflected()) == Generator()
  {
    forall i | 0 <= i < 32 ensures Reverse(Reflected())[i] == Generator()[i] {
    }
  }

  lemma ReverseComplement(s: Bits)
    ensures Reverse(Complement(s)) == Complement(Reverse(s))
  {
  }

  lemma ComplementedCrcDivides(poly: Register, start: Register, message: Bytes)
    requires Complement(start) == Zeros(32)
    ensures Reverse(Complement(ReflectedData(poly, Complement(start), Translate(message))))
         == Complement(Divide(Reverse(poly), Zeros(32), Message(message) + Zeros(32)))
  {
    ReversedCrcDivides(poly, message);
    ReverseComplement(ReflectedData(poly, Zeros(32), Translate(message)));
  }

  /** The reflected CRC of the bit-reversed octets, its own binary text reversed, is the utility's. */
  lemma ReversedCrcIsPosix(data: Bytes)
    ensures Value(Reverse(ZlibCrc32(Translate(data + LengthOctets(|data|)), Ones()))) == PosixCrc(data)
  {
    assert Complement(Ones()) == Zeros(32);
    GeneratorReversed();
    ComplementedCrcDivides(Reflected(), Ones(), data + LengthOctets(|data|));
  }

  /** `cksum`: the length octets, then the CRC through the library, its binary text reversed. */
  method Cksum(data: Bytes) returns (printed: string)
    ensures printed == PosixCksum(data)
  {
    var size: nat, length: Bytes := |data|, [];
    while size != 0
      invariant length + LengthOctets(size) == LengthOctets(|data|)
    {
      assert length + LengthOctets(size) == length + [size % 256] + LengthOctets(size / 256);
      length := length + [size % 256];
      size := size / 256;
    }
    assert length == LengthOctets(|data|);
    var value := ZlibCrc32(Translate(data + length), Ones());
    ReversedCrcIsPosix(data);
    printed := Decimal(Value(Reverse(value))) + " " + Decimal(|data|);
  }
}
