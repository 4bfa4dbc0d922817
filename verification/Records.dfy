/** End records (`record`, `record_line`, `_status` in executor/launch.py): how a program says that its
    command has ended, and how a reader finds that in a stream still growing. */
module Records {
  import opened Bytes
  import opened Wrappers

  /** What follows the end nonce: the kind, one to three digits and a full stop. `start` and `stop`
      are where it lies in the stream. */
  datatype Tail = Tail(kind: byte, number: nat, start: nat, stop: nat)

  const X: byte := 120
  const S: byte := 115
  const STOP: byte := 46

  predicate IsDigit(b: byte) { 48 <= b <= 57 }

  predicate IsHex(b: byte) { IsDigit(b) || 97 <= b <= 102 }

  /** A nonce as `secrets.token_hex(16)` draws it: 32 hexadecimal digits. */
  predicate IsNonce(nonce: Bytes) {
    |nonce| == 32 && forall i :: 0 <= i < |nonce| ==> IsHex(nonce[i])
  }

  function DigitValue(b: byte): nat
    requires IsDigit(b)
  {
    b - 48
  }

  /** `RECORD_TAIL.match(data, at)`: `([xs])([0-9]{1,3})\.` */
  function TailAt(data: Bytes, at: nat): (tail: Option<Tail>)
    ensures tail.Some? ==> tail.value.start == at && at + 3 <= tail.value.stop <= at + 5 && tail.value.stop <= |data|
    ensures tail.Some? ==> !IsHex(data[at]) && !IsHex(data[tail.value.stop - 1])
  {
    if at + 3 > |data| || (data[at] != X && data[at] != S) || !IsDigit(data[at + 1]) then None
    else
      var one := DigitValue(data[at + 1]);
      if data[at + 2] == STOP then Some(Tail(data[at], one, at, at + 3))
      else if at + 4 > |data| || !IsDigit(data[at + 2]) then None
      else
        var two := 10 * one + DigitValue(data[at + 2]);
        if data[at + 3] == STOP then Some(Tail(data[at], two, at, at + 4))
        else if at + 5 > |data| || !IsDigit(data[at + 3]) || data[at + 4] != STOP then None
        else Some(Tail(data[at], 10 * two + DigitValue(data[at + 3]), at, at + 5))
  }

  /** The number decimal digits write. */
  function NumberOf(digits: Bytes): nat
    requires forall i :: 0 <= i < |digits| ==> IsDigit(digits[i])
  {
    if digits == [] then 0 else 10 * NumberOf(digits[..|digits| - 1]) + DigitValue(digits[|digits| - 1])
  }

  /** A kind, `n` digits and a full stop. */
  predicate IsTail(data: Bytes, at: nat, n: nat) {
    && 1 <= n <= 3 && at + n + 2 <= |data| && (data[at] == 120 || data[at] == 115)
    && (forall i :: at < i <= at + n ==> IsDigit(data[i])) && data[at + n + 1] == 46
  }

  lemma NumberOfShort(d: Bytes)
    requires forall i :: 0 <= i < |d| ==> IsDigit(d[i])
    ensures |d| == 1 ==> NumberOf(d) == DigitValue(d[0])
    ensures |d| == 2 ==> NumberOf(d) == 10 * DigitValue(d[0]) + DigitValue(d[1])
    ensures |d| == 3 ==> NumberOf(d) == 10 * (10 * DigitValue(d[0]) + DigitValue(d[1])) + DigitValue(d[2])
  {
    if |d| == 1 {
      assert d[..0] == [];
    } else if 2 <= |d| <= 3 {
      NumberOfShort(d[..|d| - 1]);
    }
  }

  /** A tail is found exactly where there is one, of one, two or three digits, with the number they write. */
  lemma TailExactly(data: Bytes, at: nat)
    ensures TailAt(data, at).Some? <==> exists n: nat :: IsTail(data, at, n)
    ensures forall n: nat :: IsTail(data, at, n) ==>
              TailAt(data, at) == Some(Tail(data[at], NumberOf(data[at + 1..at + 1 + n]), at, at + n + 2))
  {
    forall n: nat | IsTail(data, at, n)
      ensures TailAt(data, at) == Some(Tail(data[at], NumberOf(data[at + 1..at + 1 + n]), at, at + n + 2)) {
      NumberOfShort(data[at + 1..at + 1 + n]);
      assert n == 1 ==> TailAt(data, at) == Some(Tail(data[at], DigitValue(data[at + 1]), at, at + 3));
    }
    if TailAt(data, at).Some? {
      assert IsTail(data, at, TailAt(data, at).value.stop - at - 2);
    }
  }

  /** A complete record for the nonce `end` at `i`. */
  function RecordAt(data: Bytes, end: Bytes, i: nat): (tail: Option<Tail>)
    ensures tail.Some? ==> tail.value.start == i + |end| && i + |end| + 3 <= tail.value.stop <= |data|
  {
    if Occurs(data, end, i) then TailAt(data, i + |end|) else None
  }

  /** The first place, from `at` on, where a complete record starts. */
  function Place(data: Bytes, end: Bytes, at: nat): (place: Option<nat>)
    ensures place.Some? ==> at <= place.value <= |data| && RecordAt(data, end, place.value).Some?
    decreases |data| + 1 - at
  {
    if at + |end| > |data| then None
    else if RecordAt(data, end, at).Some? then Some(at)
    else Place(data, end, at + 1)
  }

  function FirstRecord(data: Bytes, end: Bytes, at: nat): (tail: Option<Tail>) {
    var place := Place(data, end, at);
    if place.Some? then RecordAt(data, end, place.value) else None
  }

  predicate HasRecord(data: Bytes, end: Bytes) {
    Place(data, end, 0).Some?
  }

  /** No earlier place starts a record, and without an answer none does. */
  lemma {:induction false} PlaceIsFirst(data: Bytes, end: Bytes, at: nat, i: nat)
    requires at <= i && RecordAt(data, end, i).Some?
    ensures Place(data, end, at).Some? && Place(data, end, at).value <= i
    decreases |data| + 1 - at
  {
    if RecordAt(data, end, at).None? {
      PlaceIsFirst(data, end, at + 1, i);
    }
  }

  lemma {:induction false} PlaceSkips(data: Bytes, end: Bytes, at: nat, until: nat)
    requires at <= until
    requires forall i :: at <= i < until ==> RecordAt(data, end, i).None?
    ensures Place(data, end, at) == Place(data, end, until)
    decreases until - at
  {
    if at < until {
      PlaceSkips(data, end, at + 1, until);
    }
  }

  /** Nothing before the nonce is a record. */
  lemma {:induction false} FindSkips(data: Bytes, end: Bytes, at: nat)
    ensures var found := Find(data, end, at);
            Place(data, end, at) == if found.Some? then Place(data, end, found.value) else None
    decreases |data| + 1 - at
  {
    if at + |end| <= |data| && !Occurs(data, end, at) {
      FindSkips(data, end, at + 1);
    }
  }

  /** `record`: it searches for the nonce, and steps past an occurrence that no tail follows. */
  method Record(data: Bytes, end: Bytes, start: nat) returns (tail: Option<Tail>)
    ensures tail == FirstRecord(data, end, start)
  {
    var at := start;
    var found := Find(data, end, at);
    FindSkips(data, end, at);
    while found.Some?
      invariant Place(data, end, start) == if found.Some? then Place(data, end, found.value) else None
      invariant found.Some? ==> Occurs(data, end, found.value)
      decreases if found.Some? then |data| + 1 - found.value else 0
    {
      tail := TailAt(data, found.value + |end|);
      if tail.Some? {
        return;
      }
      at := found.value + 1;
      found := Find(data, end, at);
      FindSkips(data, end, at);
    }
    tail := None;
  }

  // ----- records in a stream still growing -----

  /** A record is complete in a prefix exactly when it ends there. */
  lemma RecordPrefix(p: Bytes, data: Bytes, end: Bytes, i: nat)
    requires p <= data
    ensures RecordAt(p, end, i)
         == if RecordAt(data, end, i).Some? && RecordAt(data, end, i).value.stop <= |p| then RecordAt(data, end, i) else None
  {
    OccursPrefix(p, data, end, i);
    assert forall k :: 0 <= k < |p| ==> p[k] == data[k];
  }

  /** Neither a kind letter nor a full stop is a hexadecimal digit, so a record ends before a later
      nonce begins. */
  lemma NoStraddle(data: Bytes, end: Bytes, i: nat, other: Bytes, j: nat)
    requires IsNonce(other) && |end| == |other|
    requires RecordAt(data, end, i).Some? && Occurs(data, other, j) && i < j
    ensures RecordAt(data, end, i).value.stop <= j
  {
    var kind, dot := i + |end|, RecordAt(data, end, i).value.stop - 1;
    assert !IsHex(data[kind]) && !IsHex(data[dot]);
    assert forall k :: j <= k < j + |other| ==> data[k] == data[j..j + |other|][k - j] && IsHex(data[k]);
  }

  /** Of two records in a growing stream, the earlier is complete before the later starts. */
  lemma EarlierIsComplete(p: Bytes, data: Bytes, end: Bytes, i: nat, j: nat)
    requires IsNonce(end) && p <= data && i < j
    requires RecordAt(data, end, i).Some? && RecordAt(p, end, j).Some?
    ensures RecordAt(p, end, i).Some?
  {
    RecordPrefix(p, data, end, j);
    NoStraddle(data, end, i, end, j);
    RecordPrefix(p, data, end, i);
  }

  /** More bytes never change the first record. */
  lemma FirstRecordStays(p: Bytes, data: Bytes, end: Bytes)
    requires IsNonce(end) && p <= data && HasRecord(p, end)
    ensures HasRecord(data, end) && Place(data, end, 0) == Place(p, end, 0)
    ensures FirstRecord(data, end, 0) == FirstRecord(p, end, 0)
  {
    var j := Place(p, end, 0).value;
    RecordPrefix(p, data, end, j);
    PlaceIsFirst(data, end, 0, j);
    var i := Place(data, end, 0).value;
    if i < j {
      EarlierIsComplete(p, data, end, i, j);
      PlaceIsFirst(p, end, 0, i);
    }
  }

  /** A stream that holds its first record whole has that one first. */
  lemma FirstRecordOfPrefix(p: Bytes, data: Bytes, end: Bytes)
    requires p <= data
    ensures HasRecord(p, end) ==> HasRecord(data, end)
    ensures HasRecord(data, end) && FirstRecord(data, end, 0).value.stop <= |p| ==>
              HasRecord(p, end) && FirstRecord(p, end, 0) == FirstRecord(data, end, 0)
  {
    if HasRecord(p, end) {
      var j := Place(p, end, 0).value;
      RecordPrefix(p, data, end, j);
      PlaceIsFirst(data, end, 0, j);
    }
    if HasRecord(data, end) && FirstRecord(data, end, 0).value.stop <= |p| {
      var i := Place(data, end, 0).value;
      RecordPrefix(p, data, end, i);
      PlaceIsFirst(p, end, 0, i);
    }
  }

  /** Where a later scan resumes: `max(0, len(buf) - len(end) - 5)`. */
  function Resume(length: nat, end: Bytes): nat {
    if length < |end| + 5 then 0 else length - |end| - 5
  }

  /** Of what was scanned, no more than the longest record is read again. */
  lemma ResumeRereads(length: nat, end: Bytes)
    ensures length - (|end| + 5) <= Resume(length, end) <= length
  {
  }

  /** A scan that found nothing loses nothing by resuming there, whatever arrives. */
  lemma ResumeSkipsNothing(buf: Bytes, data: Bytes, end: Bytes)
    requires buf <= data && !HasRecord(buf, end)
    ensures Place(data, end, 0) == Place(data, end, Resume(|buf|, end))
  {
    forall i: nat | i < Resume(|buf|, end) ensures RecordAt(data, end, i).None? {
      RecordPrefix(buf, data, end, i);
      if RecordAt(buf, end, i).Some? { PlaceIsFirst(buf, end, 0, i); }
    }
    PlaceSkips(data, end, 0, Resume(|buf|, end));
  }

  // ----- the printer -----

  /** What the program's last lines make of a status: bash reports a death by signal N as 128 + N,
      and `signals` are the numbers `kill -l` names as terminating signals. */
  datatype Ending = Exited(code: nat) | Signalled(number: nat) {
    predicate Printable() {
      if Exited? then code < 1000 else number < 1000
    }
  }

  function EndingOf(status: nat, signals: set<nat>): Ending {
    if status > 128 && status - 128 in signals then Signalled(status - 128) else Exited(status)
  }

  function EndingText(ending: Ending): string {
    match ending
    case Exited(code) => "x" + Decimal(code)
    case Signalled(number) => "s" + Decimal(number)
  }

  /** The exit code a caller is given. */
  function ExitCode(ending: Ending): int {
    match ending
    case Exited(code) => code
    case Signalled(number) => -(number as int)
  }

  /** `record_line`: `printf %s%s%s.` of the nonce's two halves and the ending. */
  function RecordLine(end: Bytes, ending: Ending): Bytes
    requires IsNonce(end)
  {
    end[..16] + end[16..] + Ascii(EndingText(ending)) + Ascii(".")
  }

  /** `_status` */
  function Status(tail: Tail): int {
    if tail.kind == S then -(tail.number as int) else tail.number
  }

  lemma ShortDecimal(n: nat)
    requires n < 1000
    ensures Decimal(n) == if n < 10 then [Digit(n)]
                          else if n < 100 then [Digit(n / 10), Digit(n % 10)]
                          else [Digit(n / 100), Digit(n / 10 % 10), Digit(n % 10)]
  {
    if n >= 100 {
      assert Decimal(n / 10) == [Digit(n / 100), Digit(n / 10 % 10)];
    }
  }

  lemma PrintedTail(data: Bytes, at: nat, kind: byte, n: nat)
    requires n < 1000 && (kind == X || kind == S)
    requires at + |Decimal(n)| + 2 <= |data| && data[at] == kind
    requires data[at + 1 + |Decimal(n)|] == STOP
    requires forall i :: 0 <= i < |Decimal(n)| ==> data[at + 1 + i] == Decimal(n)[i] as int
    ensures TailAt(data, at) == Some(Tail(kind, n, at, at + |Decimal(n)| + 2))
  {
    hide Decimal, TailAt;
    ShortDecimal(n);
    var d := Decimal(n);
    assert data[at + 1 + 0] == d[0] as int;
    if n < 10 {
      OneDigit(data, at);
    } else {
      assert data[at + 1 + 1] == d[1] as int;
      if n < 100 {
        TwoDigits(data, at);
      } else {
        assert data[at + 1 + 2] == d[2] as int;
        ThreeDigits(data, at);
        assert 10 * (10 * (n / 100) + n / 10 % 10) + n % 10 == n;
      }
    }
  }

  lemma OneDigit(data: Bytes, at: nat)
    requires at + 3 <= |data| && (data[at] == X || data[at] == S) && IsDigit(data[at + 1]) && data[at + 2] == STOP
    ensures TailAt(data, at) == Some(Tail(data[at], DigitValue(data[at + 1]), at, at + 3))
  {
  }

  lemma TwoDigits(data: Bytes, at: nat)
    requires at + 4 <= |data| && (data[at] == X || data[at] == S) && IsDigit(data[at + 1]) && IsDigit(data[at + 2]) && data[at + 3] == STOP
    ensures TailAt(data, at) == Some(Tail(data[at], 10 * DigitValue(data[at + 1]) + DigitValue(data[at + 2]), at, at + 4))
  {
  }

  lemma ThreeDigits(data: Bytes, at: nat)
    requires at + 5 <= |data| && (data[at] == X || data[at] == S) && IsDigit(data[at + 1]) && IsDigit(data[at + 2])
    requires IsDigit(data[at + 3]) && data[at + 4] == STOP
    ensures TailAt(data, at) == Some(Tail(data[at],
              10 * (10 * DigitValue(data[at + 1]) + DigitValue(data[at + 2])) + DigitValue(data[at + 3]), at, at + 5))
  {
  }

  lemma PrintedLine(end: Bytes, ending: Ending)
    requires IsNonce(end)
    ensures var line, text := RecordLine(end, ending), EndingText(ending);
            && |line| == |text| + 33 && line[..32] == end && line[32 + |text|] == STOP
            && (forall i :: 0 <= i < |text| ==> line[32 + i] == text[i] as int)
  {
    var text := EndingText(ending);
    assert end[..16] + end[16..] == end;
    assert RecordLine(end, ending) == end + (Ascii(text) + Ascii("."));
  }

  /** What a printed record's octets are, wherever it lies. */
  lemma PrintedOctets(data: Bytes, at: nat, end: Bytes, ending: Ending)
    requires IsNonce(end) && at + |RecordLine(end, ending)| <= |data|
    requires data[at..at + |RecordLine(end, ending)|] == RecordLine(end, ending)
    ensures var text := EndingText(ending);
            && |RecordLine(end, ending)| == |text| + 33 && data[at..at + 32] == end && data[at + 32 + |text|] == STOP
            && forall i :: 0 <= i < |text| ==> data[at + 32 + i] == text[i] as int
  {
    hide RecordLine, EndingText;
    var line, text := RecordLine(end, ending), EndingText(ending);
    PrintedLine(end, ending);
    assert forall i :: 0 <= i < |line| ==> data[at + i] == line[i];
    assert data[at..at + 32] == line[..32];
    assert data[at + (32 + |text|)] == line[32 + |text|];
    forall i | 0 <= i < |text| ensures data[at + 32 + i] == text[i] as int {
      assert data[at + (32 + i)] == line[32 + i];
    }
  }

  lemma EndingTextIs(ending: Ending)
    ensures var n := if ending.Exited? then ending.code else ending.number;
            EndingText(ending) == [if ending.Exited? then 'x' else 's'] + Decimal(n)
  {
  }

  /** A printed record is read back as the ending it was printed for, wherever it lies. */
  lemma PrintedRecord(data: Bytes, at: nat, end: Bytes, ending: Ending)
    requires IsNonce(end) && ending.Printable()
    requires at + |RecordLine(end, ending)| <= |data|
    requires data[at..at + |RecordLine(end, ending)|] == RecordLine(end, ending)
    ensures RecordAt(data, end, at).Some?
    ensures Status(RecordAt(data, end, at).value) == ExitCode(ending)
    ensures RecordAt(data, end, at).value.stop == at + |RecordLine(end, ending)|
  {
    hide RecordLine, EndingText, Decimal, TailAt, IsNonce;
    var n := if ending.Exited? then ending.code else ending.number;
    var text := EndingText(ending);
    PrintedOctets(data, at, end, ending);
    EndingTextIs(ending);
    assert data[at + 32 + 0] == text[0] as int;
    forall i | 0 <= i < |Decimal(n)| ensures data[at + 32 + 1 + i] == Decimal(n)[i] as int {
      assert data[at + 32 + (1 + i)] == text[1 + i] as int;
    }
    assert |end| == 32 by { NonceLength(end); }
    PrintedTail(data, at + 32, if ending.Exited? then X else S, n);
  }

  lemma NonceLength(end: Bytes)
    requires IsNonce(end)
    ensures |end| == 32
  {
  }
}
