/** The remote listing of the site's files (`READ_SITE` and `parse_remote` in site.py): a line for each
    file, each name and content one base64 word, and a count. */
module Listing {
  import opened Bytes
  import opened Site
  import opened Wrappers
  import Base64

  // ----- lines -----

  /** The characters `str.splitlines` ends a line at. */
  predicate EndsLine(c: char) {
    var code := c as int;
    0x0A <= code <= 0x0D || 0x1C <= code <= 0x1E || code == 0x85 || code == 0x2028 || code == 0x2029
  }

  predicate Unbroken(s: string) { forall i :: 0 <= i < |s| ==> !EndsLine(s[i]) }

  /** How much of `s` comes before the first line end. */
  function LineLength(s: string): (n: nat)
    ensures n <= |s| && Unbroken(s[..n]) && (n < |s| ==> EndsLine(s[n]))
  {
    if s == [] || EndsLine(s[0]) then 0 else 1 + LineLength(s[1..])
  }

  /** `s.splitlines()`; a carriage return and a line feed end one line. */
  function SplitLines(s: string): seq<string>
    decreases |s|
  {
    if s == [] then []
    else
      var n := LineLength(s);
      var after := if n == |s| then n else if s[n] == '\r' && n + 1 < |s| && s[n + 1] == '\n' then n + 2 else n + 1;
      [s[..n]] + SplitLines(s[after..])
  }

  /** Lines as they are printed. */
  function Lined(lines: seq<string>): string {
    if lines == [] then [] else lines[0] + "\n" + Lined(lines[1..])
  }

  predicate AllUnbroken(lines: seq<string>) { forall k :: 0 <= k < |lines| ==> Unbroken(lines[k]) }

  lemma {:induction false} LineLengthIs(line: string, rest: string)
    requires Unbroken(line) && (rest == [] || EndsLine(rest[0]))
    ensures LineLength(line + rest) == |line|
  {
    if line == [] {
      assert line + rest == rest;
    } else {
      assert (line + rest)[1..] == line[1..] + rest;
      LineLengthIs(line[1..], rest);
    }
  }

  lemma LineSplits(line: string, rest: string)
    requires Unbroken(line)
    ensures SplitLines(line + "\n" + rest) == [line] + SplitLines(rest)
    ensures line != [] ==> SplitLines(line) == [line]
  {
    var s := line + "\n" + rest;
    assert s == line + ("\n" + rest);
    LineLengthIs(line, "\n" + rest);
    assert s[|line| + 1..] == rest && s[..|line|] == line;
    assert line + [] == line;
    LineLengthIs(line, []);
  }

  lemma EndsLineIs(c: char)
    ensures EndsLine(c) <==> c as int in {10, 11, 12, 13, 28, 29, 30, 0x85, 0x2028, 0x2029}
  {
  }

  /** Each line with what ended it. */
  function Ended(lines: seq<string>, ends: seq<string>): string
    requires |lines| == |ends|
  {
    if lines == [] then [] else lines[0] + ends[0] + Ended(lines[1..], ends[1..])
  }

  /** A line end: a carriage return and a line feed, or one character, or, of the last line, none; a carriage return
      alone comes before no line feed. */
  predicate Ends(end: string, rest: string) {
    || end == "\r\n"
    || (|end| == 1 && EndsLine(end[0]) && (end == "\r" && rest != [] ==> rest[0] != '\n'))
    || (end == "" && rest == "")
  }

  lemma CutTwice(s: string, n: nat, m: nat)
    requires n <= m <= |s|
    ensures s == s[..n] + s[n..m] + s[m..]
  {
  }

  /** How far a text's first line and its end reach. */
  function Past(s: string): (past: nat)
    requires s != []
    ensures LineLength(s) <= past <= |s| && past > 0
  {
    var n := LineLength(s);
    if n == |s| then n else if s[n] == '\r' && n + 1 < |s| && s[n + 1] == '\n' then n + 2 else n + 1
  }

  lemma SplitStep(s: string)
    requires s != []
    ensures SplitLines(s) == [s[..LineLength(s)]] + SplitLines(s[Past(s)..]) && Unbroken(s[..LineLength(s)])
    ensures Ends(s[LineLength(s)..Past(s)], s[Past(s)..]) && (LineLength(s) == Past(s) ==> s[..LineLength(s)] != "")
  {
    hide EndsLine;
  }

  /** A text's lines are unbroken, only the last is without an end, and with their ends they are the text. */
  lemma {:induction false} SplitLinesIs(s: string) returns (ends: seq<string>)
    ensures |ends| == |SplitLines(s)| && Ended(SplitLines(s), ends) == s && AllUnbroken(SplitLines(s))
    ensures forall k :: 0 <= k < |ends| ==> Ends(ends[k], Ended(SplitLines(s)[k + 1..], ends[k + 1..]))
    ensures forall k :: 0 <= k < |ends| && ends[k] == "" ==> SplitLines(s)[k] != ""
    decreases |s|
  {
    hide LineLength, EndsLine, Ends, Past, Unbroken;
    ends := [];
    if s == [] {
      NoLines();
    } else {
      var n, past := LineLength(s), Past(s);
      var rest := SplitLinesIs(s[past..]);
      SplitStep(s);
      CutTwice(s, n, past);
      hide SplitLines;
      ends := [s[n..past]] + rest;
      var lines := SplitLines(s);
      assert lines[1..] == SplitLines(s[past..]) && ends[1..] == rest;
      forall k | 0 <= k < |ends| ensures Ends(ends[k], Ended(lines[k + 1..], ends[k + 1..])) {
        if k > 0 {
          assert lines[k + 1..] == lines[1..][k..] && ends[k + 1..] == rest[k..];
        }
      }
    }
  }

  // ----- a start of what was printed -----

  /** A start of printed lines is some of them whole, and a start of the next. */
  lemma {:induction false} StartOfLines(lines: seq<string>, p: string) returns (k: nat, q: string)
    requires AllUnbroken(lines) && p <= Lined(lines) && p != Lined(lines)
    ensures k < |lines| && q <= lines[k]
    ensures p == Lined(lines[..k]) + q && SplitLines(p) == lines[..k] + if q == [] then [] else [q]
    decreases |lines|
  {
    hide LineLength, Unbroken, EndsLine, SplitLines;
    assert Lined([]) == [] && SplitLines([]) == [] by { NoLines(); }
    var first, rest := lines[0], lines[1..];
    assert Lined(lines) == first + ("\n" + Lined(rest));
    if |p| <= |first| {
      k, q := 0, p;
      StartIsUnbroken(first, p);
      if p != [] {
        LineSplits(p, []);
      }
      assert p == [] + q && lines[..0] == [];
    } else {
      var more := p[|first| + 1..];
      assert p[..|first| + 1] == first + "\n";
      assert p == first + "\n" + more;
      assert more <= Lined(rest) by {
        assert Lined(rest) == Lined(lines)[|first| + 1..];
      }
      var j;
      j, q := StartOfLines(rest, more);
      k := j + 1;
      LineSplits(first, more);
      assert lines[..k] == [first] + rest[..j];
      assert lines[..k][1..] == rest[..j];
    }
  }

  lemma NoLines()
    ensures Lined([]) == [] && SplitLines([]) == []
  {
  }

  lemma StartIsUnbroken(line: string, p: string)
    requires Unbroken(line) && p <= line
    ensures Unbroken(p)
  {
  }

  lemma {:induction false} LinesSplit(lines: seq<string>)
    requires AllUnbroken(lines)
    ensures SplitLines(Lined(lines)) == lines
  {
    hide LineLength, Unbroken, EndsLine;
    if lines != [] {
      LineSplits(lines[0], Lined(lines[1..]));
      LinesSplit(lines[1..]);
    }
  }

  // ----- numbers: int(text) -----

  function Stripped(s: string): string {
    if s != [] && IsSpace(s[0]) then Stripped(s[1..])
    else if s != [] && IsSpace(s[|s| - 1]) then Stripped(s[..|s| - 1])
    else s
  }

  /** Digits, a single underscore allowed between two. */
  function Digits(s: string, sofar: nat, after: bool): Option<nat> {
    if s == [] then if after then Some(sofar) else None
    else if '0' <= s[0] <= '9' then Digits(s[1..], 10 * sofar + (s[0] as int - '0' as int), true)
    else if s[0] == '_' && after then Digits(s[1..], sofar, false)
    else None
  }

  function IntOf(text: string): Option<int> {
    var s := Stripped(text);
    var signed := s != [] && (s[0] == '-' || s[0] == '+');
    var n := Digits(if signed then s[1..] else s, 0, false);
    if n.None? then None else Some(if signed && s[0] == '-' then -(n.value as int) else n.value)
  }

  predicate AllDigits(s: string) { forall i :: 0 <= i < |s| ==> '0' <= s[i] <= '9' }

  predicate AllSpaces(s: string) { forall i :: 0 <= i < |s| ==> IsSpace(s[i]) }

  /** Stripping takes off the spaces at both ends, and all of them. */
  lemma {:induction false} StrippedIs(s: string) returns (before: string, beyond: string)
    ensures s == before + Stripped(s) + beyond && AllSpaces(before) && AllSpaces(beyond)
    ensures Stripped(s) != [] ==> !IsSpace(Stripped(s)[0]) && !IsSpace(Stripped(s)[|Stripped(s)| - 1])
    decreases |s|
  {
    hide IsSpace;
    before, beyond := [], [];
    if s != [] && IsSpace(s[0]) {
      before, beyond := StrippedIs(s[1..]);
      before := [s[0]] + before;
    } else if s != [] && IsSpace(s[|s| - 1]) {
      before, beyond := StrippedIs(s[..|s| - 1]);
      beyond := beyond + [s[|s| - 1]];
    }
  }

  predicate IsDigit(c: char) { '0' <= c <= '9' }

  /** Digits, with single underscores between some of them. */
  predicate Grouped(s: string) {
    && s != [] && IsDigit(s[0]) && IsDigit(s[|s| - 1])
    && (forall i :: 0 <= i < |s| ==> IsDigit(s[i]) || s[i] == '_')
    && (forall i :: 0 <= i < |s| - 1 && s[i] == '_' ==> s[i + 1] != '_')
  }

  /** The number that the digits among them write, after `sofar`. */
  function NumberOf(s: string, sofar: nat): nat {
    if s == [] then sofar
    else NumberOf(s[1..], if IsDigit(s[0]) then 10 * sofar + (s[0] as int - '0' as int) else sofar)
  }

  lemma {:induction false} DigitsExactly(s: string, sofar: nat, after: bool)
    ensures Digits(s, sofar, after).Some? <==> (after && s == []) || Grouped(s) || (after && |s| > 1 && s[0] == '_' && Grouped(s[1..]))
    ensures Digits(s, sofar, after).Some? ==> Digits(s, sofar, after).value == NumberOf(s, sofar)
    decreases |s|
  {
    if s != [] && IsDigit(s[0]) {
      DigitsExactly(s[1..], 10 * sofar + (s[0] as int - '0' as int), true);
      GroupedMore(s);
    } else if s != [] && s[0] == '_' && after {
      DigitsExactly(s[1..], sofar, false);
    }
  }

  lemma GroupedMore(s: string)
    requires s != [] && IsDigit(s[0])
    ensures Grouped(s) <==> |s| == 1 || Grouped(s[1..]) || (|s| > 2 && s[1] == '_' && Grouped(s[2..]))
  {
    if |s| > 1 {
      var t := s[1..];
      assert forall i :: 0 <= i < |t| ==> t[i] == s[i + 1];
      if |s| > 2 {
        assert forall i :: 0 <= i < |s| - 2 ==> s[2..][i] == s[i + 2];
      }
    }
  }

  /** `int` reads, between spaces, digits so grouped, perhaps after one sign; and nothing else. */
  lemma IntExactly(text: string)
    ensures var s := Stripped(text);
            && (Grouped(s) ==> IntOf(text) == Some(NumberOf(s, 0) as int))
            && (s != [] && s[0] == '+' && Grouped(s[1..]) ==> IntOf(text) == Some(NumberOf(s[1..], 0) as int))
            && (s != [] && s[0] == '-' && Grouped(s[1..]) ==> IntOf(text) == Some(-(NumberOf(s[1..], 0) as int)))
            && (IntOf(text).Some? ==> Grouped(s) || (s != [] && (s[0] == '+' || s[0] == '-') && Grouped(s[1..])))
  {
    hide Stripped, Grouped, Digits, NumberOf;
    var s := Stripped(text);
    DigitsExactly(s, 0, false);
    if s != [] { DigitsExactly(s[1..], 0, false); }
    SignIsNoDigit(s);
  }

  lemma SignIsNoDigit(s: string)
    ensures Grouped(s) ==> s != [] && s[0] != '+' && s[0] != '-'
  {
  }

  lemma {:induction false} DigitsSnoc(s: string, d: char, sofar: nat, after: bool)
    requires AllDigits(s) && '0' <= d <= '9' && s != []
    ensures Digits(s, sofar, after).Some?
    ensures Digits(s + [d], sofar, after) == Some(10 * Digits(s, sofar, after).value + (d as int - '0' as int))
  {
    assert (s + [d])[1..] == s[1..] + [d];
    if |s| > 1 {
      DigitsSnoc(s[1..], d, 10 * sofar + (s[0] as int - '0' as int), true);
    } else {
      assert s[1..] + [d] == [d] && [d][1..] == [] && s[1..] == [];
      var first := 10 * sofar + (s[0] as int - '0' as int);
      assert Digits(s, sofar, after) == Digits([], first, true) == Some(first);
      assert Digits([d], first, true) == Digits([], 10 * first + (d as int - '0' as int), true);
    }
  }

  lemma {:induction false} DecimalReads(n: nat)
    ensures Digits(Decimal(n), 0, false) == Some(n)
  {
    if n < 10 {
      assert [Digit(n)][1..] == [];
    } else {
      DecimalReads(n / 10);
      DigitsSnoc(Decimal(n / 10), Digit(n % 10), 0, false);
    }
  }

  /** A number cut short is a smaller one. */
  lemma {:induction false} DecimalCutShort(n: nat, k: nat)
    requires 0 < k < |Decimal(n)|
    ensures Digits(Decimal(n)[..k], 0, false).Some? && Digits(Decimal(n)[..k], 0, false).value < n
  {
    var front := Decimal(n / 10);
    assert Decimal(n) == front + [Digit(n % 10)];
    assert Decimal(n)[..k] == front[..k];
    if k == |front| {
      assert front[..k] == front;
      DecimalReads(n / 10);
    } else {
      DecimalCutShort(n / 10, k);
    }
  }

  lemma IntOfDigits(s: string)
    requires AllDigits(s)
    ensures s == [] ==> IntOf(s) == None
    ensures s != [] ==> Digits(s, 0, false).Some? && IntOf(s) == Some(Digits(s, 0, false).value)
  {
    if s != [] {
      assert !IsSpace(s[0]) && !IsSpace(s[|s| - 1]);
      AllDigitsRead(s);
    }
  }

  lemma {:induction false} AllDigitsRead(s: string)
    requires AllDigits(s) && s != []
    ensures Digits(s, 0, false).Some?
  {
    if |s| > 1 {
      AllDigitsRead(s[..|s| - 1]);
      assert s == s[..|s| - 1] + [s[|s| - 1]];
      DigitsSnoc(s[..|s| - 1], s[|s| - 1], 0, false);
    } else {
      assert s[1..] == [];
    }
  }

  // ----- the printer -----

  /** A regular `*.md` entry of the directory: its name's octets, and its content if it could be read. */
  datatype Entry = Readable(raw: Bytes, content: Bytes) | Closed(raw: Bytes)

  datatype Directory = NoSuch | NotADirectory | NoAccess | Holding(entries: seq<Entry>)

  function LineOf(e: Entry): string {
    match e
    case Readable(raw, content) => "file " + Base64.Encode(raw) + " " + Base64.Encode(content)
    case Closed(raw) => "unreadable-file " + Base64.Encode(raw)
  }

  function LinesOf(entries: seq<Entry>): (lines: seq<string>)
    ensures |lines| == |entries|
  {
    seq(|entries|, i requires 0 <= i < |entries| => LineOf(entries[i]))
  }

  function EndLine(n: nat): string { "end " + Decimal(n) }

  function AnswerLines(dir: Directory): seq<string> {
    match dir
    case NoSuch => [MISSING]
    case NotADirectory => [NOTDIR]
    case NoAccess => [UNREADABLE]
    case Holding(entries) => LinesOf(entries) + [EndLine(|entries|)]
  }

  /** What `READ_SITE` prints. */
  function Answer(dir: Directory): string {
    Lined(AnswerLines(dir))
  }

  // ----- the parser -----

  /** How a name's octets and a content's are decoded. */
  datatype Decoders = Decoders(name: Bytes -> string, content: Bytes -> string)

  datatype LineRead = Skip | Got(file: SiteFile) | Unread(detail: string) | Bad

  function Space(s: string): (n: nat)
    ensures n <= |s|
  {
    if s == [] || s[0] == ' ' then 0 else 1 + Space(s[1..])
  }

  /** `s.partition(' ')` */
  function Before(s: string): string { s[..Space(s)] }
  function Beyond(s: string): string { if Space(s) < |s| then s[Space(s) + 1..] else [] }

  function ReadFile(d: Decoders, rest: string): LineRead {
    var raw, body := Base64.Decode(Before(rest)), Base64.Decode(Beyond(rest));
    if raw.None? then Bad
    else if !Eligible(d.name(raw.value)) then Skip
    else if body.None? then Bad
    else Got(SiteFile(d.name(raw.value), d.content(body.value), raw.value))
  }

  function ReadClosed(d: Decoders, rest: string): LineRead {
    var raw := Base64.Decode(rest);
    if raw.None? then Bad
    else if Eligible(d.name(raw.value)) then Unread(d.name(raw.value) + ": permission denied")
    else Skip
  }

  function ReadLine(d: Decoders, line: string): LineRead {
    if Before(line) == "file" then ReadFile(d, Beyond(line))
    else if Before(line) == "unreadable-file" then ReadClosed(d, Beyond(line))
    else Bad
  }

  datatype Parse = Files(files: seq<SiteFile>) | Refused(detail: string) | Malformed

  /** The lines in order; the first that is bad, or names an eligible file that was not read, ends them. */
  function ReadLines(d: Decoders, lines: seq<string>): Parse {
    if lines == [] then Files([])
    else
      var front := ReadLines(d, lines[..|lines| - 1]);
      if !front.Files? then front
      else
        match ReadLine(d, lines[|lines| - 1])
        case Skip => front
        case Got(f) => Files(front.files + [f])
        case Unread(detail) => Refused(detail)
        case Bad => Malformed
  }

  predicate IsEnd(line: string) { |line| >= 4 && line[..4] == "end " }

  function Incomplete(where: string): SiteContext { Unreadable(where, "the answer was incomplete") }
  function Malformation(where: string): SiteContext { Unreadable(where, "the answer was malformed") }
  function NotReadable(where: string): SiteContext { Unreadable(where, "permission denied") }
  function NotDirectory(where: string): SiteContext { Unreadable(where, "not a directory") }

  const MISSING := "missing"
  const NOTDIR := "notdir"
  const UNREADABLE := "unreadable"

  /** The lines before the last, once the last has given its count. */
  function ReadCounted(d: Decoders, lines: seq<string>, count: int, where: string): SiteContext {
    match ReadLines(d, lines)
    case Malformed => Malformation(where)
    case Refused(detail) => Unreadable(where, detail)
    case Files(files) => if count != |lines| then Incomplete(where) else FoundFiles(files, where)
  }

  function Read(d: Decoders, lines: seq<string>, where: string): SiteContext {
    if lines == [MISSING] then Missing(where)
    else if lines == [UNREADABLE] then NotReadable(where)
    else if lines == [NOTDIR] then NotDirectory(where)
    else if lines == [] || !IsEnd(lines[|lines| - 1]) then Incomplete(where)
    else
      var count := IntOf(lines[|lines| - 1][4..]);
      if count.None? then Malformation(where) else ReadCounted(d, lines[..|lines| - 1], count.value, where)
  }

  /** `parse_remote` */
  method ParseRemote(d: Decoders, stdout: string, where: string) returns (context: SiteContext)
    ensures context == Read(d, SplitLines(stdout), where)
  {
    hide SplitLines, IntOf, Missing, NotReadable, NotDirectory, Incomplete, Malformation, ReadCounted, IsEnd;
    var lines := SplitLines(stdout);
    if lines == [MISSING] {
      return Missing(where);
    }
    if lines == [UNREADABLE] {
      return NotReadable(where);
    }
    if lines == [NOTDIR] {
      return NotDirectory(where);
    }
    if lines == [] || !IsEnd(lines[|lines| - 1]) {
      return Incomplete(where);
    }
    assert |lines[|lines| - 1]| >= 4 by { EndIsLong(lines[|lines| - 1]); }
    var count := IntOf(lines[|lines| - 1][4..]);
    if count.None? {
      return Malformation(where);
    }
    context := ParseCounted(d, lines[..|lines| - 1], count.value, where);
  }

  lemma IsEndExactly(line: string)
    ensures IsEnd(line) <==> "end " <= line
  {
  }

  lemma EndIsLong(line: string)
    requires IsEnd(line)
    ensures |line| >= 4
  {
  }

  method ParseCounted(d: Decoders, lines: seq<string>, count: int, where: string) returns (context: SiteContext)
    ensures context == ReadCounted(d, lines, count, where)
  {
    hide ReadLine, Unreadable, Incomplete, Malformation, FoundFiles;
    var files := [];
    for i := 0 to |lines|
      invariant ReadLines(d, lines[..i]) == Files(files)
    {
      assert lines[..i + 1][..i] == lines[..i];
      match ReadLine(d, lines[i]) {
        case Skip =>
        case Got(f) =>
          files := files + [f];
        case Unread(detail) =>
          ReadLinesStop(d, lines, i + 1);
          return Unreadable(where, detail);
        case Bad =>
          ReadLinesStop(d, lines, i + 1);
          return Malformation(where);
      }
    }
    assert lines[..|lines|] == lines;
    if count != |lines| {
      return Incomplete(where);
    }
    context := FoundFiles(files, where);
  }

  lemma {:induction false} ReadLinesStop(d: Decoders, lines: seq<string>, i: nat)
    requires i <= |lines| && !ReadLines(d, lines[..i]).Files?
    ensures ReadLines(d, lines) == ReadLines(d, lines[..i])
  {
    hide ReadLine;
    if i == |lines| {
      assert lines[..i] == lines;
    } else {
      var front := lines[..|lines| - 1];
      assert front[..i] == lines[..i];
      ReadLinesStop(d, front, i);
    }
  }

  // ----- round trip -----

  lemma {:induction false} SpaceIs(word: string, rest: string)
    requires ' ' !in word && (rest == [] || rest[0] == ' ')
    ensures Space(word + rest) == |word|
  {
    if word == [] {
      assert word + rest == rest;
    } else {
      assert (word + rest)[1..] == word[1..] + rest;
      SpaceIs(word[1..], rest);
    }
  }

  lemma PartitionIs(word: string, rest: string)
    requires ' ' !in word
    ensures Before(word + " " + rest) == word && Beyond(word + " " + rest) == rest
  {
    SpaceIs(word, " " + rest);
    assert word + " " + rest == word + (" " + rest);
  }

  /** What an entry's line is read as. */
  function Told(d: Decoders, e: Entry): LineRead {
    if !Eligible(d.name(e.raw)) then Skip
    else if e.Closed? then Unread(d.name(e.raw) + ": permission denied")
    else Got(SiteFile(d.name(e.raw), d.content(e.content), e.raw))
  }

  lemma FileLineIsRead(d: Decoders, raw: Bytes, content: Bytes)
    ensures ReadLine(d, LineOf(Readable(raw, content))) == Told(d, Readable(raw, content))
  {
    hide Base64.Encode, Base64.Decode, Eligible, Before, Beyond, ReadClosed;
    Base64.RoundTrip(raw);
    Base64.RoundTrip(content);
    var name, body := Base64.Encode(raw), Base64.Encode(content);
    assert LineOf(Readable(raw, content)) == "file" + " " + (name + " " + body);
    PartitionIs("file", name + " " + body);
    PartitionIs(name, body);
  }

  lemma ClosedLineIsRead(d: Decoders, raw: Bytes)
    ensures ReadLine(d, LineOf(Closed(raw))) == Told(d, Closed(raw))
  {
    hide Base64.Encode, Base64.Decode, Eligible, Before, Beyond, ReadFile;
    Base64.RoundTrip(raw);
    var name := Base64.Encode(raw);
    assert LineOf(Closed(raw)) == "unreadable-file" + " " + name;
    PartitionIs("unreadable-file", name);
    assert "unreadable-file"[0] != "file"[0];
  }

  lemma LineIsRead(d: Decoders, e: Entry)
    ensures ReadLine(d, LineOf(e)) == Told(d, e)
  {
    hide ReadLine, LineOf, Told;
    if e.Readable? { FileLineIsRead(d, e.raw, e.content); } else { ClosedLineIsRead(d, e.raw); }
  }

  /** The eligible files of a directory. */
  function FilesOf(d: Decoders, entries: seq<Entry>): seq<SiteFile> {
    if entries == [] then []
    else
      var told := Told(d, entries[|entries| - 1]);
      FilesOf(d, entries[..|entries| - 1]) + if told.Got? then [told.file] else []
  }

  predicate AllRead(d: Decoders, entries: seq<Entry>) {
    forall i :: 0 <= i < |entries| ==> !Told(d, entries[i]).Unread?
  }

  /** The first entry that is eligible and could not be read, or how many entries there are. */
  function FirstUnread(d: Decoders, entries: seq<Entry>): (i: nat)
    ensures i <= |entries| && (i < |entries| ==> Told(d, entries[i]).Unread?)
    ensures forall j :: 0 <= j < i ==> !Told(d, entries[j]).Unread?
  {
    if entries == [] || Told(d, entries[0]).Unread? then 0 else 1 + FirstUnread(d, entries[1..])
  }

  lemma {:induction false} FirstUnreadOf(d: Decoders, entries: seq<Entry>)
    requires entries != []
    ensures FirstUnread(d, entries[..|entries| - 1]) < |entries| - 1 ==>
              FirstUnread(d, entries) == FirstUnread(d, entries[..|entries| - 1])
    ensures FirstUnread(d, entries[..|entries| - 1]) == |entries| - 1 ==>
              FirstUnread(d, entries) == if Told(d, entries[|entries| - 1]).Unread? then |entries| - 1 else |entries|
  {
    hide Told;
    var front := entries[..|entries| - 1];
    assert forall j :: 0 <= j < |front| ==> front[j] == entries[j];
  }

  /** The lines printed are read as the eligible files, in the order listed; or refused, naming the first
      eligible entry that could not be read. */
  lemma {:induction false} LinesAreRead(d: Decoders, entries: seq<Entry>)
    ensures ReadLines(d, LinesOf(entries))
         == if AllRead(d, entries) then Files(FilesOf(d, entries)) else Refused(Told(d, entries[FirstUnread(d, entries)]).detail)
  {
    hide ReadLine, Told, LineOf;
    if entries != [] {
      var front, last := entries[..|entries| - 1], entries[|entries| - 1];
      LinesAreRead(d, front);
      LineIsRead(d, last);
      FirstUnreadOf(d, entries);
      assert LinesOf(entries)[..|entries| - 1] == LinesOf(front);
      ToldIsNotBad(d, last);
      assert AllRead(d, entries) <==> AllRead(d, front) && !Told(d, last).Unread?;
    }
  }

  lemma ToldIsNotBad(d: Decoders, e: Entry)
    ensures !Told(d, e).Bad?
  {
  }

  lemma LinesUnbroken(entries: seq<Entry>)
    ensures AllUnbroken(LinesOf(entries) + [EndLine(|entries|)])
    ensures forall k :: 0 <= k < |entries| ==> LineOf(entries[k]) != [] && (LineOf(entries[k])[0] == 'f' || LineOf(entries[k])[0] == 'u')
  {
    hide Base64.Encode;
  }

  lemma EndIsRead(n: nat)
    ensures IsEnd(EndLine(n)) && IntOf(EndLine(n)[4..]) == Some(n)
  {
    assert EndLine(n)[4..] == Decimal(n);
    IntOfDigits(Decimal(n));
    DecimalReads(n);
  }

  lemma WordsUnbroken()
    ensures AllUnbroken([MISSING]) && AllUnbroken([NOTDIR]) && AllUnbroken([UNREADABLE])
    ensures MISSING != UNREADABLE && MISSING != NOTDIR && UNREADABLE != NOTDIR
  {
    assert MISSING[0] == 'm' && NOTDIR[0] == 'n' && UNREADABLE[0] == 'u';
  }

  lemma EndIsNoWord(n: nat)
    ensures EndLine(n) != MISSING && EndLine(n) != UNREADABLE && EndLine(n) != NOTDIR
  {
    assert EndLine(n)[0] == 'e' && MISSING[0] == 'm' && NOTDIR[0] == 'n' && UNREADABLE[0] == 'u';
  }

  lemma HoldingIsRead(d: Decoders, entries: seq<Entry>, where: string)
    ensures Read(d, SplitLines(Answer(Holding(entries))), where) == ReadCounted(d, LinesOf(entries), |entries|, where)
  {
    hide SplitLines, Lined, IntOf, LinesOf, ReadCounted, EndLine, IsEnd, AllUnbroken, Missing;
    var lines := LinesOf(entries) + [EndLine(|entries|)];
    LinesUnbroken(entries);
    LinesSplit(lines);
    EndIsRead(|entries|);
    EndIsNoWord(|entries|);
    assert lines[..|entries|] == LinesOf(entries);
    assert lines[|lines| - 1] == EndLine(|entries|);
  }

  lemma SomeUnread(d: Decoders, entries: seq<Entry>)
    ensures !AllRead(d, entries) ==>
              var i := FirstUnread(d, entries);
              i < |entries| && Told(d, entries[i]) == Unread(d.name(entries[i].raw) + ": permission denied")
  {
    var i := FirstUnread(d, entries);
    assert i == |entries| ==> AllRead(d, entries);
  }

  lemma WordIsRead(d: Decoders, dir: Directory, where: string)
    requires !dir.Holding?
    ensures Read(d, SplitLines(Answer(dir)), where)
         == if dir.NoSuch? then Missing(where) else if dir.NotADirectory? then NotDirectory(where) else NotReadable(where)
  {
    hide SplitLines, Lined, IntOf, AllUnbroken, Missing, NotReadable, NotDirectory, ReadCounted;
    WordsUnbroken();
    LinesSplit(AnswerLines(dir));
  }

  /** What is printed is read back: an absent directory, one that is none, one that cannot be read; an
      eligible file that could not be read; else the eligible files that are not blank, in the byte order of
      their names. */
  lemma AnswerIsRead(d: Decoders, dir: Directory, where: string)
    ensures dir.NoSuch? ==> Read(d, SplitLines(Answer(dir)), where) == Missing(where)
    ensures dir.NotADirectory? ==> Read(d, SplitLines(Answer(dir)), where) == NotDirectory(where)
    ensures dir.NoAccess? ==> Read(d, SplitLines(Answer(dir)), where) == NotReadable(where)
    ensures dir.Holding? && AllRead(d, dir.entries) ==>
              Read(d, SplitLines(Answer(dir)), where) == FoundFiles(FilesOf(d, dir.entries), where)
    ensures dir.Holding? && !AllRead(d, dir.entries) ==>
              var i := FirstUnread(d, dir.entries);
              i < |dir.entries|
              && Read(d, SplitLines(Answer(dir)), where) == Unreadable(where, d.name(dir.entries[i].raw) + ": permission denied")
  {
    hide SplitLines, Lined, IntOf, AllUnbroken, Missing, NotReadable, NotDirectory, FoundFiles, LinesOf, UnreadableReason;
    hide Told, FirstUnread, ReadLines, FilesOf, Read;
    if dir.Holding? {
      HoldingIsRead(d, dir.entries, where);
      LinesAreRead(d, dir.entries);
      SomeUnread(d, dir.entries);
    } else {
      WordIsRead(d, dir, where);
    }
  }

  // ----- the order of a directory -----

  lemma FilesOfStep(d: Decoders, entries: seq<Entry>)
    requires entries != []
    ensures multiset(FilesOf(d, entries))
         == multiset(FilesOf(d, entries[..|entries| - 1])) + multiset(FilesOf(d, [entries[|entries| - 1]]))
  {
    hide Told;
    var last := entries[|entries| - 1];
    assert [last][..0] == [] && FilesOf(d, []) == [];
  }

  lemma {:induction false} FilesOfSplit(d: Decoders, entries: seq<Entry>, i: nat)
    requires i < |entries|
    ensures multiset(FilesOf(d, entries)) == multiset(FilesOf(d, entries[..i] + entries[i + 1..])) + multiset(FilesOf(d, [entries[i]]))
  {
    hide FilesOf;
    var front := entries[..|entries| - 1];
    FilesOfStep(d, entries);
    if i == |entries| - 1 {
      assert entries[..i] + entries[i + 1..] == front;
    } else {
      var less := entries[..i] + entries[i + 1..];
      FilesOfSplit(d, front, i);
      FilesOfStep(d, less);
      assert less[..|less| - 1] == front[..i] + front[i + 1..];
    }
  }

  lemma Without(entries: seq<Entry>, i: nat)
    requires i < |entries|
    ensures multiset(entries[..i] + entries[i + 1..]) == multiset(entries) - multiset{entries[i]}
  {
    assert entries == entries[..i] + [entries[i]] + entries[i + 1..];
  }

  lemma {:induction false} FilesOfAnyOrder(d: Decoders, a: seq<Entry>, b: seq<Entry>)
    requires multiset(a) == multiset(b)
    ensures multiset(FilesOf(d, a)) == multiset(FilesOf(d, b))
  {
    hide Told, FilesOf;
    assert |a| == |multiset(a)| == |multiset(b)| == |b|;
    if a == [] {
      assert b == [];
    } else {
      var n := |a| - 1;
      assert a[n] in multiset(b);
      var i :| 0 <= i < |b| && b[i] == a[n];
      assert a[..n] + a[n + 1..] == a[..n];
      Without(a, n);
      Without(b, i);
      FilesOfAnyOrder(d, a[..n], b[..i] + b[i + 1..]);
      FilesOfSplit(d, a, n);
      FilesOfSplit(d, b, i);
    }
  }

  predicate DistinctEntries(entries: seq<Entry>) {
    forall i, j :: 0 <= i < j < |entries| ==> entries[i].raw != entries[j].raw
  }

  lemma {:induction false} FilesAreDistinct(d: Decoders, entries: seq<Entry>)
    requires DistinctEntries(entries)
    ensures DistinctNames(FilesOf(d, entries))
    ensures forall f :: f in FilesOf(d, entries) ==> exists i :: 0 <= i < |entries| && entries[i].raw == f.raw
  {
    if entries != [] {
      var front := entries[..|entries| - 1];
      FilesAreDistinct(d, front);
      forall f | f in FilesOf(d, entries) ensures exists i :: 0 <= i < |entries| && entries[i].raw == f.raw {
        if f in FilesOf(d, front) {
          var i :| 0 <= i < |front| && front[i].raw == f.raw;
          assert entries[i].raw == f.raw;
        } else {
          assert entries[|entries| - 1].raw == f.raw;
        }
      }
    }
  }

  /** The order a directory lists its entries in, under distinct names, is no matter. */
  lemma AnyOrder(d: Decoders, a: seq<Entry>, b: seq<Entry>, where: string)
    requires multiset(a) == multiset(b) && DistinctEntries(a) && AllRead(d, a)
    ensures Read(d, SplitLines(Answer(Holding(a))), where) == Read(d, SplitLines(Answer(Holding(b))), where)
  {
    hide Told, FilesOf, SplitLines, Read, FoundFiles, Answer, LineOf;
    forall i | 0 <= i < |b| ensures !Told(d, b[i]).Unread? {
      assert b[i] in multiset(a);
    }
    AnswerIsRead(d, Holding(a), where);
    AnswerIsRead(d, Holding(b), where);
    FilesOfAnyOrder(d, a, b);
    FilesAreDistinct(d, a);
    FoundAnyOrder(FilesOf(d, a), FilesOf(d, b), where);
  }

  // ----- any answer at all -----

  /** A line that does not end the read: a file's, its name and, if that is eligible, its content base64; or an
      unread file's whose name, base64 too, is not eligible. */
  predicate Fine(d: Decoders, line: string) {
    var rest := Beyond(line);
    || (Before(line) == "file" && Base64.Decode(Before(rest)).Some?
        && (Eligible(d.name(Base64.Decode(Before(rest)).value)) ==> Base64.Decode(Beyond(rest)).Some?))
    || (Before(line) == "unreadable-file" && Base64.Decode(rest).Some? && !Eligible(d.name(Base64.Decode(rest).value)))
  }

  /** An eligible file that could not be read. */
  predicate SaysUnread(d: Decoders, line: string) {
    Before(line) == "unreadable-file" && Base64.Decode(Beyond(line)).Some? && Eligible(d.name(Base64.Decode(Beyond(line)).value))
  }

  lemma LineIs(d: Decoders, line: string)
    ensures ReadLine(d, line).Skip? || ReadLine(d, line).Got? <==> Fine(d, line)
    ensures SaysUnread(d, line) ==>
              ReadLine(d, line) == Unread(d.name(Base64.Decode(Beyond(line)).value) + ": permission denied")
    ensures !Fine(d, line) && !SaysUnread(d, line) ==> ReadLine(d, line) == Bad
  {
    hide Before, Beyond, Base64.Decode, Eligible;
    assert "file" != "unreadable-file" by { assert |"file"| != |"unreadable-file"|; }
  }

  lemma {:induction false} AllFine(d: Decoders, lines: seq<string>)
    ensures ReadLines(d, lines).Files? <==> forall k :: 0 <= k < |lines| ==> Fine(d, lines[k])
  {
    hide ReadLine, Fine;
    if lines != [] {
      var front := lines[..|lines| - 1];
      AllFine(d, front);
      LineIs(d, lines[|lines| - 1]);
      assert (forall k :: 0 <= k < |lines| ==> Fine(d, lines[k])) <==>
             (forall k :: 0 <= k < |front| ==> Fine(d, front[k])) && Fine(d, lines[|lines| - 1]);
    }
  }

  /** The lines close in a count of those before it. */
  predicate Counted(lines: seq<string>) {
    lines != [] && IsEnd(lines[|lines| - 1]) && IntOf(lines[|lines| - 1][4..]) == Some(|lines| - 1)
  }

  /** Whatever lines are read, the read does not fail exactly when they say that the directory is missing, or count
      themselves and are all fine. */
  lemma AcceptedExactly(d: Decoders, lines: seq<string>, where: string)
    ensures !Read(d, lines, where).failed
       <==> lines == [MISSING] || (Counted(lines) && forall k :: 0 <= k < |lines| - 1 ==> Fine(d, lines[k]))
    ensures lines == [MISSING] ==> Read(d, lines, where) == SiteContext([], MissingReason(where), false)
    ensures Read(d, lines, where).failed ==> Read(d, lines, where).files == []
  {
    hide IntOf, Fine, ReadLines, UnreadableReason, MissingReason, FoundFiles, IsEnd;
    WordsAreNoEnd();
    if lines != [] && IsEnd(lines[|lines| - 1]) {
      EndIsLong(lines[|lines| - 1]);
      var front := lines[..|lines| - 1];
      AllFine(d, front);
      if ReadLines(d, front).Files? { FoundIs(ReadLines(d, front).files, where); }
      assert forall k :: 0 <= k < |front| ==> front[k] == lines[k];
    }
  }

  lemma WordsAreNoEnd()
    ensures !IsEnd(MISSING) && !IsEnd(UNREADABLE) && !IsEnd(NOTDIR)
    ensures MISSING != UNREADABLE && MISSING != NOTDIR && UNREADABLE != NOTDIR
  {
    WordsUnbroken();
    assert "end "[0] == 'e' && MISSING[..4][0] == 'm' && NOTDIR[..4][0] == 'n' && UNREADABLE[..4][0] == 'u';
  }

  /** And why a read fails: no count at its end, incomplete; one that is no number, malformed; else the first line that
      is not fine, an unread file named, or malformed; else another count than theirs, incomplete. */
  lemma RefusedAs(d: Decoders, lines: seq<string>, where: string, k: nat)
    requires lines != [MISSING] && lines != [UNREADABLE] && lines != [NOTDIR]
    ensures lines == [] || !IsEnd(lines[|lines| - 1]) ==>
              Read(d, lines, where) == SiteContext([], UnreadableReason(where, "the answer was incomplete"), true)
    ensures lines != [] && IsEnd(lines[|lines| - 1]) && IntOf(lines[|lines| - 1][4..]).None? ==>
              Read(d, lines, where) == SiteContext([], UnreadableReason(where, "the answer was malformed"), true)
    ensures lines != [] && IsEnd(lines[|lines| - 1]) && IntOf(lines[|lines| - 1][4..]).Some? ==>
              && (k < |lines| - 1 && !Fine(d, lines[k]) && (forall j :: 0 <= j < k ==> Fine(d, lines[j])) ==>
                    Read(d, lines, where) == SiteContext([], UnreadableReason(where,
                      if SaysUnread(d, lines[k]) then d.name(Base64.Decode(Beyond(lines[k])).value) + ": permission denied"
                      else "the answer was malformed"), true))
              && ((forall j :: 0 <= j < |lines| - 1 ==> Fine(d, lines[j])) && !Counted(lines) ==>
                    Read(d, lines, where) == SiteContext([], UnreadableReason(where, "the answer was incomplete"), true))
  {
    hide IntOf, Fine, ReadLine, ReadLines, UnreadableReason, FoundFiles, IsEnd, SaysUnread, Beyond, Base64.Decode;
    if lines != [] && IsEnd(lines[|lines| - 1]) {
      EndIsLong(lines[|lines| - 1]);
      var front := lines[..|lines| - 1];
      AllFine(d, front);
      if k < |front| && !Fine(d, lines[k]) && forall j :: 0 <= j < k ==> Fine(d, lines[j]) {
        FirstNotFine(d, front, k);
      }
      assert forall j :: 0 <= j < |front| ==> front[j] == lines[j];
    }
  }

  lemma FirstNotFine(d: Decoders, lines: seq<string>, k: nat)
    requires k < |lines| && !Fine(d, lines[k]) && forall j :: 0 <= j < k ==> Fine(d, lines[j])
    ensures ReadLines(d, lines) == if SaysUnread(d, lines[k]) then Refused(d.name(Base64.Decode(Beyond(lines[k])).value) + ": permission denied")
                                   else Malformed
  {
    hide ReadLine, Fine, SaysUnread, Beyond, Base64.Decode;
    var upto := lines[..k + 1];
    AllFine(d, lines[..k]);
    LineIs(d, lines[k]);
    SaidUnread(d, lines[k]);
    assert upto[..k] == lines[..k];
    ReadLinesStop(d, lines, k + 1);
  }

  lemma SaidUnread(d: Decoders, line: string)
    ensures SaysUnread(d, line) ==> Base64.Decode(Beyond(line)).Some?
  {
  }

  // ----- an answer cut short -----

  lemma StartOfEnd(n: nat, q: string)
    requires q <= EndLine(n) && q != EndLine(n) && IsEnd(q)
    ensures IntOf(q[4..]).None? || IntOf(q[4..]).value < n
  {
    hide Stripped;
    var k := |q| - 4;
    assert EndLine(n)[4..] == Decimal(n);
    assert q[4..] == Decimal(n)[..k];
    IntOfDigits(q[4..]);
    if k > 0 {
      DecimalCutShort(n, k);
    }
  }

  /** Lines whose last is no count, or gives another than theirs, are a failed read. */
  lemma ShortFails(d: Decoders, lines: seq<string>, where: string)
    requires lines != [MISSING]
    requires lines == [] || !IsEnd(lines[|lines| - 1]) || IntOf(lines[|lines| - 1][4..]).None?
             || IntOf(lines[|lines| - 1][4..]).value != |lines| - 1
    ensures Read(d, lines, where).failed && Read(d, lines, where).files == []
  {
    hide IntOf, ReadLines, UnreadableReason, IsEnd;
    if lines != [] && IsEnd(lines[|lines| - 1]) {
      EndIsLong(lines[|lines| - 1]);
    }
  }

  lemma {:induction false} LinedWhole(lines: seq<string>)
    requires lines != []
    ensures Lined(lines) == Lined(lines[..|lines| - 1]) + (lines[|lines| - 1] + "\n")
    decreases |lines|
  {
    var front, last := lines[..|lines| - 1], lines[|lines| - 1];
    if |lines| == 1 {
      NoLines();
      assert lines[1..] == [] && front == [];
      assert last + "\n" + [] == last + "\n" && [] + (last + "\n") == last + "\n";
    } else {
      LinedWhole(lines[1..]);
      assert lines[1..][..|lines| - 2] == front[1..];
      LinedStep(lines);
      LinedStep(front);
      LinedJoin(lines[0] + "\n", Lined(front[1..]), last + "\n");
    }
  }

  lemma LinedStep(lines: seq<string>)
    requires lines != []
    ensures Lined(lines) == (lines[0] + "\n") + Lined(lines[1..])
  {
  }

  lemma LinedJoin(a: string, b: string, c: string)
    ensures a + (b + c) == a + b + c
  {
  }

  /** A start of an answer that is short of more than its last newline is a failed read, never fewer files. */
  lemma CutShortFails(d: Decoders, dir: Directory, p: string, where: string)
    requires p <= Answer(dir) && |p| < |Answer(dir)| - 1
    ensures Read(d, SplitLines(p), where).failed && Read(d, SplitLines(p), where).files == []
  {
    hide SplitLines, Lined, IntOf, Read, IsEnd, LineOf, EndLine, Unbroken, LinesOf;
    var lines := AnswerLines(dir);
    WordsUnbroken();
    if dir.Holding? { LinesUnbroken(dir.entries); }
    var k, q := StartOfLines(lines, p);
    LinedWhole(lines);
    if k == |lines| - 1 {
      assert lines[..k] == lines[..|lines| - 1];
      assert q != lines[k];
    }
    var read := lines[..k] + if q == [] then [] else [q];
    CutShort(d, dir, k, q);
    ShortFails(d, read, where);
  }

  lemma EndStarts(q: string)
    requires IsEnd(q)
    ensures q[0] == 'e'
  {
    assert q[..4][0] == 'e';
  }

  lemma CutShort(d: Decoders, dir: Directory, k: nat, q: string)
    requires k < |AnswerLines(dir)| && q <= AnswerLines(dir)[k] && (k == |AnswerLines(dir)| - 1 ==> q != AnswerLines(dir)[k])
    ensures var read := AnswerLines(dir)[..k] + if q == [] then [] else [q];
            && read != [MISSING]
            && (read == [] || !IsEnd(read[|read| - 1]) || IntOf(read[|read| - 1][4..]).None?
                || IntOf(read[|read| - 1][4..]).value != |read| - 1)
  {
    hide IntOf, LineOf, EndLine, IsEnd;
    var lines := AnswerLines(dir);
    var read := lines[..k] + if q == [] then [] else [q];
    LinesStart(dir);
    assert MISSING[0] == 'm';
    assert q != [] ==> q[0] == lines[k][0];
    assert read != [] ==> read[|read| - 1][0] == lines[|read| - 1][0];
    if read != [] && IsEnd(read[|read| - 1]) {
      EndStarts(read[|read| - 1]);
      StartOfEnd(|dir.entries|, q);
    }
  }

  /** The first letter tells the lines apart. */
  lemma LinesStart(dir: Directory)
    ensures var lines := AnswerLines(dir);
            forall k :: 0 <= k < |lines| ==>
              && lines[k] != []
              && (lines[k][0] == 'e' ==> dir.Holding? && k == |dir.entries| && lines[k] == EndLine(|dir.entries|))
              && (lines[k][0] == 'm' ==> lines == [MISSING])
  {
    hide LineOf;
    assert MISSING[0] == 'm' && NOTDIR[0] == 'n' && UNREADABLE[0] == 'u';
    if dir.Holding? {
      LinesUnbroken(dir.entries);
      assert EndLine(|dir.entries|)[0] == 'e';
    }
  }
}
