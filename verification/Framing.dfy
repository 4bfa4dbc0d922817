/** What a command's two streams say (`separate` in executor/launch.py): the bytes between the start
    sentinel and the end record, and the status the record carries. */
module Framing {
  import opened Bytes
  import opened Wrappers
  import opened Records

  const TIMEOUT_EXIT_CODE: int := -1001
  const NOT_STARTED_EXIT_CODE: int := -1002
  const CONNECTION_LOST_EXIT_CODE: int := -1003

  const TAKEN_MARK: Bytes := Ascii("cluster-mcp:parked-descriptor-taken")
  const TAKEN_NOTE: Bytes :=
    Ascii("cluster-mcp: the command did not start: the login initialisation took a descriptor its streams were parked on, so it was not run; the server log has the details\n")
  const UNFINISHED_NOTE: Bytes :=
    Ascii("cluster-mcp: the launch ended before it reported the command's end, so its output may be incomplete\n")
  const LOST_NOTE: Bytes := Ascii("cluster-mcp: the connection was lost; the command may have run\n")

  function SignedAscii(n: int): Bytes {
    if n < 0 then Ascii("-") + Ascii(Decimal(-n)) else Ascii(Decimal(n))
  }

  function NotStartedNote(code: int): Bytes {
    Ascii("cluster-mcp: the command did not start (exit ") + SignedAscii(code) + Ascii("); the server log has the details\n")
  }

  function LateNote(code: int): Bytes {
    Ascii("cluster-mcp: the command exited ") + SignedAscii(code) + Ascii(", but not all of its output had arrived at the timeout\n")
  }

  const REDIRECTED_START: Bytes := Ascii("cluster-mcp: the login initialisation redirected the command's ")
  const REDIRECTED_END: Bytes := Ascii("; it was not captured\n")

  function RedirectedNote(stream: nat): Bytes {
    REDIRECTED_START + (if stream == 0 then Ascii("stdout") else Ascii("stderr")) + REDIRECTED_END
  }

  datatype Marks = Marks(start: Bytes, end: Bytes)

  datatype Answer = Answer(out: Bytes, err: Bytes, code: int)

  datatype Result<+T> = Ok(value: T) | EmptyNonce

  /** `_after` */
  function After(data: Bytes, sentinel: Bytes): Option<Bytes> {
    var at := Find(data, sentinel, 0);
    if at.Some? then Some(data[at.value + |sentinel|..]) else None
  }

  // ----- one stream -----

  /** What a stream carries of the command: nothing (it never reached this stream), output without an
      end yet, or output and the status reported. */
  datatype Part = Redirected | Unfinished(output: Bytes) | Ended(output: Bytes, status: int)

  function PartOf(data: Bytes, marks: Marks): Part {
    var kept := After(data, marks.start);
    if kept.None? then Redirected
    else
      var tail := FirstRecord(kept.value, marks.end, 0);
      if tail.None? then Unfinished(kept.value)
      else Ended(kept.value[..Place(kept.value, marks.end, 0).value], Status(tail.value))
  }

  function OutputOf(part: Part): Bytes {
    if part.Redirected? then [] else part.output
  }

  predicate Interrupted(code: int) {
    code == TIMEOUT_EXIT_CODE || code == CONNECTION_LOST_EXIT_CODE
  }

  // ----- both streams -----

  function RedirectedNotes(out: Part, err: Part): Bytes {
    (if out.Redirected? then RedirectedNote(0) else []) + (if err.Redirected? then RedirectedNote(1) else [])
  }

  /** The answer two streams make, by what each of them says. */
  function Judge(out: Part, err: Part, taken: bool, code: int, note: Bytes): Answer {
    if out.Redirected? && err.Redirected? then
      if Interrupted(code) then Answer([], note, code)
      else if taken then Answer([], TAKEN_NOTE + note, NOT_STARTED_EXIT_CODE)
      else Answer([], NotStartedNote(code) + note, NOT_STARTED_EXIT_CODE)
    else
      var redirected := RedirectedNotes(out, err);
      if Interrupted(code) then Answer(OutputOf(out), OutputOf(err) + redirected + note, code)
      else
        var unfinished := if out.Unfinished? || err.Unfinished? then UNFINISHED_NOTE else [];
        var status := if out.Ended? then out.status else if err.Ended? then err.status else code;
        Answer(OutputOf(out), OutputOf(err) + redirected + unfinished + note, status)
  }

  predicate Taken(err: Bytes) {
    Find(err, TAKEN_MARK, 0).Some?
  }

  function Separated(out: Bytes, err: Bytes, code: int, marks: Marks, note: Bytes): Result<Answer> {
    if marks.start == [] || marks.end == [] then EmptyNonce
    else Ok(Judge(PartOf(out, marks), PartOf(err, marks), Taken(err), code, note))
  }

  /** One stream, cut between its marks. */
  method CutStream(ghost data: Bytes, kept: Option<Bytes>, marks: Marks) returns (part: Part)
    requires kept == After(data, marks.start)
    ensures part == PartOf(data, marks)
  {
    hide Place, RecordAt, Find, Status, TailAt;
    if kept.None? {
      return Redirected;
    }
    var tail := Record(kept.value, marks.end, 0);
    if tail.None? {
      return Unfinished(kept.value);
    }
    TailPlace(kept.value, marks.end);
    return Ended(kept.value[..tail.value.start - |marks.end|], Status(tail.value));
  }

  lemma BothRedirected(out: Bytes, err: Bytes, marks: Marks)
    ensures PartOf(out, marks).Redirected? <==> After(out, marks.start).None?
    ensures PartOf(err, marks).Redirected? <==> After(err, marks.start).None?
  {
  }

  lemma NeitherStarted(out: Part, err: Part, taken: bool, code: int, note: Bytes)
    requires out.Redirected? && err.Redirected?
    ensures Judge(out, err, taken, code, note)
         == if Interrupted(code) then Answer([], note, code)
            else if taken then Answer([], TAKEN_NOTE + note, NOT_STARTED_EXIT_CODE)
            else Answer([], NotStartedNote(code) + note, NOT_STARTED_EXIT_CODE)
  {
  }

  /** `separate`: the streams in turn, their outputs, statuses and notes accumulated. */
  method Separate(out: Bytes, err: Bytes, code: int, marks: Marks, note: Bytes) returns (answer: Result<Answer>)
    ensures answer == Separated(out, err, code, marks, note)
  {
    hide Place, RecordAt, Find, Ascii, Taken, RedirectedNote, NotStartedNote, Present, Status, Judge, PartOf, After;
    if marks.start == [] || marks.end == [] {
      return EmptyNonce;
    }
    var kept := [After(out, marks.start), After(err, marks.start)];
    BothRedirected(out, err, marks);
    if kept[0].None? && kept[1].None? {
      NeitherStarted(PartOf(out, marks), PartOf(err, marks), Taken(err), code, note);
      if Interrupted(code) {
        return Ok(Answer([], note, code));
      }
      if Taken(err) {
        return Ok(Answer([], TAKEN_NOTE + note, NOT_STARTED_EXIT_CODE));
      }
      return Ok(Answer([], NotStartedNote(code) + note, NOT_STARTED_EXIT_CODE));
    }
    answer := SeparateStarted(out, err, kept, code, marks, note);
  }

  /** Its loop, for a command that reached a stream. */
  method SeparateStarted(out: Bytes, err: Bytes, kept: seq<Option<Bytes>>, code: int, marks: Marks, note: Bytes)
    returns (answer: Result<Answer>)
    requires kept == [After(out, marks.start), After(err, marks.start)]
    requires !PartOf(out, marks).Redirected? || !PartOf(err, marks).Redirected?
    ensures answer == Ok(Judge(PartOf(out, marks), PartOf(err, marks), Taken(err), code, note))
  {
    hide Place, RecordAt, Find, Ascii, Taken, RedirectedNote, NotStartedNote, Present, Status, Judge, PartOf, After;
    ghost var parts := [PartOf(out, marks), PartOf(err, marks)];
    var streams: seq<Bytes>, statuses: seq<Option<int>>, notes: Bytes := [], [], [];
    for i := 0 to 2
      invariant |streams| == i
      invariant forall j :: 0 <= j < i ==> streams[j] == OutputOf(parts[j])
      invariant notes == (if i > 0 && parts[0].Redirected? then RedirectedNote(0) else [])
                       + (if i > 1 && parts[1].Redirected? then RedirectedNote(1) else [])
      invariant statuses == (if i > 0 then Reported(parts[0]) else []) + (if i > 1 then Reported(parts[1]) else [])
    {
      var part := CutStream(if i == 0 then out else err, kept[i], marks);
      match part {
        case Redirected =>
          notes := notes + RedirectedNote(i);
          streams := streams + [[]];
        case Unfinished(output) =>
          streams := streams + [output];
          statuses := statuses + [None];
        case Ended(output, status) =>
          streams := streams + [output];
          statuses := statuses + [Some(status)];
      }
    }
    Accumulated(parts[0], parts[1], Taken(err), code, note);
    if Interrupted(code) {
      return Ok(Answer(streams[0], streams[1] + notes + note, code));
    }
    if None in statuses {
      notes := notes + UNFINISHED_NOTE;
    }
    var reported := Present(statuses);
    answer := Ok(Answer(streams[0], streams[1] + notes + note, if reported != [] then reported[0] else code));
  }

  function Gathered(out: Part, err: Part, statuses: seq<Option<int>>, notes: Bytes, code: int, note: Bytes): Answer {
    if Interrupted(code) then Answer(OutputOf(out), OutputOf(err) + notes + note, code)
    else
      var reported := Present(statuses);
      Answer(OutputOf(out), OutputOf(err) + (if None in statuses then notes + UNFINISHED_NOTE else notes) + note,
             if reported != [] then reported[0] else code)
  }

  /** The two parts' notes and statuses, gathered in the streams' order, make the answer. */
  lemma Accumulated(out: Part, err: Part, taken: bool, code: int, note: Bytes)
    requires !out.Redirected? || !err.Redirected?
    ensures Judge(out, err, taken, code, note) == Gathered(out, err, Reported(out) + Reported(err), RedirectedNotes(out, err), code, note)
  {
    hide Present, Reported, RedirectedNotes, Ascii, OutputOf, NotStartedNote;
    PresentTwo(out, err);
    NotesAppend(OutputOf(err), RedirectedNotes(out, err), UNFINISHED_NOTE, note);
  }

  lemma NotesAppend(a: Bytes, b: Bytes, c: Bytes, d: Bytes)
    ensures a + b + c + d == a + (b + c) + d && a + b + [] + d == a + b + d
  {
  }

  function Present(statuses: seq<Option<int>>): seq<int> {
    if statuses == [] then []
    else (if statuses[0].Some? then [statuses[0].value] else []) + Present(statuses[1..])
  }

  /** What a stream adds to the statuses. */
  function Reported(part: Part): seq<Option<int>> {
    match part
    case Redirected => []
    case Unfinished(_) => [None]
    case Ended(_, status) => [Some(status)]
  }

  lemma PresentTwo(out: Part, err: Part)
    ensures Present(Reported(out) + Reported(err))
         == (if out.Ended? then [out.status] else []) + (if err.Ended? then [err.status] else [])
    ensures None in Reported(out) + Reported(err) <==> out.Unfinished? || err.Unfinished?
  {
    var a, b := Reported(out), Reported(err);
    PresentOne(err);
    if out.Redirected? {
      assert a + b == b;
    } else {
      assert (a + b)[0] == a[0] && (a + b)[1..] == b;
      assert out.Unfinished? ==> (a + b)[0] == None;
      assert err.Unfinished? ==> (a + b)[1] == None;
    }
  }

  lemma PresentOne(part: Part)
    ensures Present(Reported(part)) == if part.Ended? then [part.status] else []
    ensures None in Reported(part) <==> part.Unfinished?
  {
    if !part.Redirected? {
      assert Reported(part)[1..] == [];
      assert part.Unfinished? ==> Reported(part)[0] == None;
    }
  }

  lemma TailPlace(data: Bytes, end: Bytes)
    requires HasRecord(data, end)
    ensures FirstRecord(data, end, 0).Some?
    ensures FirstRecord(data, end, 0).value.start == Place(data, end, 0).value + |end|
  {
  }

  // ----- classification -----

  /** A stream by its marks: no sentinel, nothing of the command's; no record after it, all that follows it; a
      record, what lies between the two and the status it carries. */
  lemma PartIsCut(data: Bytes, marks: Marks)
    ensures Find(data, marks.start, 0).None? ==> PartOf(data, marks) == Redirected
    ensures Find(data, marks.start, 0).Some? ==>
              var kept := data[Find(data, marks.start, 0).value + |marks.start|..];
              && (Place(kept, marks.end, 0).None? ==> PartOf(data, marks) == Unfinished(kept))
              && (Place(kept, marks.end, 0).Some? ==>
                    var i := Place(kept, marks.end, 0).value;
                    PartOf(data, marks) == Ended(kept[..i], Status(RecordAt(kept, marks.end, i).value)))
  {
    hide Place, RecordAt, Status;
  }

  /** What is served of two streams and a wire's word, case by case. A command neither stream has reached: nothing,
      and the wire's timeout or loss, or the code and the note that say it never started. Else each stream's output;
      after stderr's, a note for a stream that was redirected, one for an end that was never reported unless the
      wire was interrupted, and the wire's own; the code the wire's if it was interrupted, else the status stdout's
      record carries, else stderr's, else the wire's. */
  lemma AnswerIs(out: Bytes, err: Bytes, code: int, marks: Marks, note: Bytes)
    requires marks.start != [] && marks.end != []
    ensures Separated(out, err, code, marks, note).Ok?
    ensures var a, b, answer := PartOf(out, marks), PartOf(err, marks), Separated(out, err, code, marks, note).value;
            var stopped := code == TIMEOUT_EXIT_CODE || code == CONNECTION_LOST_EXIT_CODE;
            && (a.Redirected? ==> answer.out == []) && (!a.Redirected? ==> answer.out == a.output)
            && (a.Redirected? && b.Redirected? ==>
                  && (stopped ==> answer.err == note && answer.code == code)
                  && (!stopped ==>
                        answer.err == (if Find(err, TAKEN_MARK, 0).Some? then TAKEN_NOTE else NotStartedNote(code)) + note
                        && answer.code == NOT_STARTED_EXIT_CODE))
            && (!a.Redirected? && b.Redirected? ==>
                  answer.err == RedirectedNote(1) + (if !stopped && a.Unfinished? then UNFINISHED_NOTE else []) + note)
            && (a.Redirected? && !b.Redirected? ==>
                  answer.err == b.output + RedirectedNote(0) + (if !stopped && b.Unfinished? then UNFINISHED_NOTE else []) + note)
            && (!a.Redirected? && !b.Redirected? ==>
                  answer.err == b.output + (if !stopped && (a.Unfinished? || b.Unfinished?) then UNFINISHED_NOTE else []) + note)
            && (!a.Redirected? || !b.Redirected? ==>
                  && (stopped ==> answer.code == code)
                  && (!stopped && a.Ended? ==> answer.code == a.status)
                  && (!stopped && !a.Ended? && b.Ended? ==> answer.code == b.status)
                  && (!stopped && !a.Ended? && !b.Ended? ==> answer.code == code))
  {
    hide PartOf, Ascii, RedirectedNote, NotStartedNote, Find;
    var a, b := PartOf(out, marks), PartOf(err, marks);
    var output := OutputOf(b);
    forall x: Bytes ensures x + [] == x && [] + x == x {}
    NotesAppend(output, RedirectedNote(0), UNFINISHED_NOTE, note);
  }

  /** A nonce that is empty is refused, and nothing else is. */
  lemma NonceRefused(out: Bytes, err: Bytes, code: int, marks: Marks, note: Bytes)
    ensures Separated(out, err, code, marks, note) == EmptyNonce <==> |marks.start| == 0 || |marks.end| == 0
  {
    hide Judge, PartOf;
  }

  /** The notes name the stream, and a code as a signed number. */
  lemma NotesSay(code: nat)
    ensures RedirectedNote(0) == REDIRECTED_START + Ascii("stdout") + REDIRECTED_END
    ensures RedirectedNote(1) == REDIRECTED_START + Ascii("stderr") + REDIRECTED_END
    ensures SignedAscii(code) == Ascii(Decimal(code)) && (code > 0 ==> SignedAscii(-(code as int)) == Ascii("-") + Ascii(Decimal(code)))
  {
    hide Decimal, Ascii;
  }

  /** `NOT_STARTED_EXIT_CODE` is answered exactly when neither stream holds the sentinel and the wire
      reported neither a timeout nor a loss; or when the wire's own code was that one and no stream
      reported an end, since a record's status has three digits. */
  lemma NotStartedExactly(out: Bytes, err: Bytes, code: int, marks: Marks, note: Bytes)
    requires marks.start != [] && marks.end != []
    ensures var started := Find(out, marks.start, 0).Some? || Find(err, marks.start, 0).Some?;
            var ended := PartOf(out, marks).Ended? || PartOf(err, marks).Ended?;
            Separated(out, err, code, marks, note).value.code == NOT_STARTED_EXIT_CODE
            <==> (!started && !Interrupted(code)) || (started && !ended && code == NOT_STARTED_EXIT_CODE)
  {
    StatusIsShort(out, marks);
    StatusIsShort(err, marks);
  }

  /** For a code a wire can give (an exit status, -1 without one, minus a signal's number, a timeout or a
      loss), it is answered exactly when the command never started. */
  lemma NotStartedByWire(out: Bytes, err: Bytes, code: int, marks: Marks, note: Bytes)
    requires marks.start != [] && marks.end != [] && (code > -1000 || Interrupted(code))
    ensures Separated(out, err, code, marks, note).value.code == NOT_STARTED_EXIT_CODE
       <==> Find(out, marks.start, 0).None? && Find(err, marks.start, 0).None? && !Interrupted(code)
  {
    hide Separated, Find, PartOf;
    NotStartedExactly(out, err, code, marks, note);
  }

  lemma JudgedInterrupted(out: Part, err: Part, taken: bool, code: int, note: Bytes)
    requires out.Ended? ==> -999 <= out.status <= 999
    requires err.Ended? ==> -999 <= err.status <= 999
    ensures var answer := Judge(out, err, taken, code, note);
            && (Interrupted(answer.code) <==> Interrupted(code))
            && (Interrupted(code) ==> answer.code == code && answer.out == OutputOf(out))
            && (exists text :: answer.err == text + note)
  {
    hide Ascii, NotStartedNote, RedirectedNotes;
    var redirected := RedirectedNotes(out, err);
    var unfinished := if out.Unfinished? || err.Unfinished? then UNFINISHED_NOTE else [];
    assert [] + note == note;
    assert Judge(out, err, taken, code, note).err
        in {[] + note, TAKEN_NOTE + note, NotStartedNote(code) + note, OutputOf(err) + redirected + note,
            OutputOf(err) + redirected + unfinished + note};
  }

  /** A timeout and a loss stay what they are; nothing else becomes one. */
  lemma InterruptedExactly(out: Bytes, err: Bytes, code: int, marks: Marks, note: Bytes)
    requires marks.start != [] && marks.end != []
    ensures var answer := Separated(out, err, code, marks, note).value;
            && (Interrupted(answer.code) <==> Interrupted(code))
            && (Interrupted(code) ==> answer.code == code && answer.out == OutputOf(PartOf(out, marks)))
            && note == answer.err[|answer.err| - |note|..]
  {
    hide Judge, PartOf, Interrupted;
    StatusIsShort(out, marks);
    StatusIsShort(err, marks);
    JudgedInterrupted(PartOf(out, marks), PartOf(err, marks), Taken(err), code, note);
    var answer := Separated(out, err, code, marks, note).value;
    var text :| answer.err == text + note;
    assert answer.err[|text|..] == note;
  }

  lemma StatusIsShort(data: Bytes, marks: Marks)
    ensures var part := PartOf(data, marks); part.Ended? ==> -999 <= part.status <= 999
  {
  }

  // ----- the round trip -----

  /** A prefix that holds the sentinel holds it at the same place. */
  lemma SentinelInPrefix(p: Bytes, data: Bytes, start: Bytes)
    requires p <= data && Find(p, start, 0).Some?
    ensures Find(data, start, 0) == Find(p, start, 0)
  {
    var at := Find(p, start, 0).value;
    OccursPrefix(p, data, start, at);
    FindIsFirst(data, start, 0, at);
    var at' := Find(data, start, 0).value;
    OccursPrefix(p, data, start, at');
    FindIsFirst(p, start, 0, at');
  }

  lemma SentinelWithinPrefix(p: Bytes, data: Bytes, start: Bytes)
    requires p <= data && Find(data, start, 0).Some? && Find(data, start, 0).value + |start| <= |p|
    ensures Find(p, start, 0) == Find(data, start, 0)
  {
    var at := Find(data, start, 0).value;
    OccursPrefix(p, data, start, at);
    FindIsFirst(p, start, 0, at);
    SentinelInPrefix(p, data, start);
  }

  /** The sentinel's first occurrence is the one that ends the noise, whatever follows it. */
  lemma FirstSentinel(noise: Bytes, start: Bytes, rest: Bytes)
    requires Find(noise + start, start, 0) == Some(|noise|)
    ensures Find(noise + start + rest, start, 0) == Some(|noise|)
    ensures After(noise + start + rest, start) == Some(rest)
  {
    Back(noise, start, rest);
    SentinelInPrefix(noise + start, noise + start + rest, start);
  }

  /** A printed end record is the first one, whatever the output before it looks like, short of a
      complete record, and whatever follows it. */
  lemma FirstPrintedRecord(output: Bytes, end: Bytes, ending: Ending, rest: Bytes)
    requires IsNonce(end) && ending.Printable() && !HasRecord(output, end)
    ensures var kept := output + RecordLine(end, ending) + rest;
            Place(kept, end, 0) == Some(|output|)
            && Status(FirstRecord(kept, end, 0).value) == ExitCode(ending)
            && FirstRecord(kept, end, 0).value.stop == |output| + |RecordLine(end, ending)|
  {
    hide RecordLine, TailAt, Place, IsNonce;
    var kept := output + RecordLine(end, ending) + rest;
    Middle(output, RecordLine(end, ending), rest);
    NonceLength(end);
    PrintedRecord(kept, |output|, end, ending);
    PlaceIsFirst(kept, end, 0, |output|);
    var i := Place(kept, end, 0).value;
    if i < |output| {
      NoStraddle(kept, end, i, end, |output|);
      Front(output, RecordLine(end, ending), rest);
      RecordPrefix(output, kept, end, i);
      PlaceIsFirst(output, end, 0, i);
    }
  }

  /** What a stream carries: noise, the sentinel, the command's output, its end record, and whatever
      is printed after it. */
  function Printed(noise: Bytes, marks: Marks, output: Bytes, ending: Ending, rest: Bytes): Bytes
    requires IsNonce(marks.end)
  {
    noise + marks.start + (output + RecordLine(marks.end, ending) + rest)
  }

  lemma PartIs(data: Bytes, marks: Marks, kept: Bytes, i: nat)
    requires After(data, marks.start) == Some(kept) && Place(kept, marks.end, 0) == Some(i)
    ensures PartOf(data, marks) == Ended(kept[..i], Status(FirstRecord(kept, marks.end, 0).value))
  {
  }

  /** The framing round trip: one stream. */
  lemma StreamRoundTrip(noise: Bytes, marks: Marks, output: Bytes, ending: Ending, rest: Bytes)
    requires IsNonce(marks.end) && ending.Printable()
    requires Find(noise + marks.start, marks.start, 0) == Some(|noise|)
    requires !HasRecord(output, marks.end)
    ensures PartOf(Printed(noise, marks, output, ending, rest), marks) == Ended(output, ExitCode(ending))
  {
    var kept := output + RecordLine(marks.end, ending) + rest;
    var data := Printed(noise, marks, output, ending, rest);
    assert After(data, marks.start) == Some(kept) by { FirstSentinel(noise, marks.start, kept); }
    StreamEnds(data, marks, output, ending, rest);
  }

  lemma StreamEnds(data: Bytes, marks: Marks, output: Bytes, ending: Ending, rest: Bytes)
    requires IsNonce(marks.end) && ending.Printable() && !HasRecord(output, marks.end)
    requires After(data, marks.start) == Some(output + RecordLine(marks.end, ending) + rest)
    ensures PartOf(data, marks) == Ended(output, ExitCode(ending))
  {
    FirstPrintedRecord(output, marks.end, ending, rest);
    PartIs(data, marks, output + RecordLine(marks.end, ending) + rest, |output|);
    Front(output, RecordLine(marks.end, ending), rest);
  }

  /** The framing round trip: a command's two outputs and its status come back exactly, whatever
      status the wire itself reports. */
  lemma RoundTrip(noise: Bytes, noise': Bytes, marks: Marks, output: Bytes, output': Bytes, ending: Ending,
                  rest: Bytes, rest': Bytes, code: int, note: Bytes)
    requires IsNonce(marks.start) && IsNonce(marks.end) && ending.Printable() && !Interrupted(code)
    requires Find(noise + marks.start, marks.start, 0) == Some(|noise|)
    requires Find(noise' + marks.start, marks.start, 0) == Some(|noise'|)
    requires !HasRecord(output, marks.end) && !HasRecord(output', marks.end)
    ensures Separated(Printed(noise, marks, output, ending, rest), Printed(noise', marks, output', ending, rest'),
                      code, marks, note)
         == Ok(Answer(output, output' + note, ExitCode(ending)))
  {
    StreamRoundTrip(noise, marks, output, ending, rest);
    StreamRoundTrip(noise', marks, output', ending, rest');
    BothEnded(output, output', ExitCode(ending), ExitCode(ending),
              Taken(Printed(noise', marks, output', ending, rest')), code, note);
  }

  lemma BothEnded(output: Bytes, output': Bytes, status: int, status': int, taken: bool, code: int, note: Bytes)
    requires !Interrupted(code)
    ensures Judge(Ended(output, status), Ended(output', status'), taken, code, note) == Answer(output, output' + note, status)
  {
    assert output' + ([] + []) + [] + note == output' + note;
  }

  /** Every status a command can end with is printable. */
  lemma StatusPrintable(status: nat, signals: set<nat>)
    requires status < 256
    ensures EndingOf(status, signals).Printable()
    ensures -127 <= ExitCode(EndingOf(status, signals)) <= 255
    ensures ExitCode(EndingOf(status, signals)) == if status > 128 && status - 128 in signals then 128 - status else status
  {
  }

  // ----- streams cut anywhere past their record -----

  /** The first complete record of the whole stream starts after the sentinel: the place a reader that
      never looks for the sentinel stops at is the one `separate` cuts at. */
  predicate Framed(data: Bytes, marks: Marks) {
    Find(data, marks.start, 0).Some? && HasRecord(data, marks.end)
    && Place(data, marks.end, 0).value >= Find(data, marks.start, 0).value + |marks.start|
  }

  /** `p` carries all that matters of `data`: its first record, or all there is. */
  predicate Covers(p: Bytes, data: Bytes, end: Bytes) {
    p <= data && (if HasRecord(data, end) then FirstRecord(data, end, 0).value.stop <= |p| else p == data)
  }

  lemma RecordShifts(data: Bytes, end: Bytes, k: nat, i: nat)
    requires k <= |data|
    ensures RecordAt(data[k..], end, i).Some? <==> RecordAt(data, end, k + i).Some?
    ensures RecordAt(data, end, k + i).Some? ==>
              RecordAt(data[k..], end, i).value == RecordAt(data, end, k + i).value.(start := i + |end|, stop := RecordAt(data, end, k + i).value.stop - k)
  {
    var kept := data[k..];
    assert forall j :: 0 <= j < |kept| ==> kept[j] == data[k + j];
    if k + i + |end| <= |data| {
      assert kept[i..i + |end|] == data[k + i..k + i + |end|];
    }
  }

  /** Where the command's bytes begin. */
  function Cut(data: Bytes, marks: Marks): nat
    requires Find(data, marks.start, 0).Some?
    ensures Cut(data, marks) <= |data|
  {
    Find(data, marks.start, 0).value + |marks.start|
  }

  /** Past `k`, the first record of a stream whose first record is not before `k`. */
  lemma PlaceShifts(data: Bytes, end: Bytes, k: nat)
    requires k <= |data| && HasRecord(data, end) && Place(data, end, 0).value >= k
    ensures Place(data[k..], end, 0) == Some(Place(data, end, 0).value - k)
  {
    hide RecordAt, Occurs;
    var i := Place(data, end, 0).value;
    RecordShifts(data, end, k, i - k);
    PlaceIsFirst(data[k..], end, 0, i - k);
    var j := Place(data[k..], end, 0).value;
    RecordShifts(data, end, k, j);
    PlaceIsFirst(data, end, 0, k + j);
  }

  /** In a framed stream the record of the stream is the record after the sentinel. */
  lemma FramedPart(data: Bytes, marks: Marks)
    requires Framed(data, marks)
    ensures var k, i := Cut(data, marks), Place(data, marks.end, 0).value;
            PartOf(data, marks) == Ended(data[k..i], Status(RecordAt(data, marks.end, i).value))
  {
    hide Place, RecordAt, Find, Occurs;
    var k, i := Cut(data, marks), Place(data, marks.end, 0).value;
    PlaceShifts(data, marks.end, k);
    RecordShifts(data, marks.end, k, i - k);
    PartIs(data, marks, data[k..], i - k);
    assert data[k..][..i - k] == data[k..i];
  }

  /** A framed stream says the same wherever it is cut past its record. */
  lemma FramedPrefix(p: Bytes, data: Bytes, marks: Marks)
    requires IsNonce(marks.end) && Framed(data, marks)
    requires p <= data && HasRecord(p, marks.end)
    ensures Framed(p, marks) && PartOf(p, marks) == PartOf(data, marks)
  {
    hide Place, RecordAt, Find, TailAt, Status, IsNonce;
    FirstRecordStays(p, data, marks.end);
    SentinelWithinPrefix(p, data, marks.start);
    FramedPart(data, marks);
    FramedPart(p, marks);
    var k, i := Cut(data, marks), Place(data, marks.end, 0).value;
    RecordPrefix(p, data, marks.end, i);
    assert p[k..i] == data[k..i];
  }

  /** The record `separate` reads is a record of the whole stream. */
  lemma EndedRecord(data: Bytes, marks: Marks)
    requires PartOf(data, marks).Ended?
    ensures Find(data, marks.start, 0).Some?
    ensures Place(data[Cut(data, marks)..], marks.end, 0).Some?
    ensures RecordAt(data, marks.end, Cut(data, marks) + Place(data[Cut(data, marks)..], marks.end, 0).value).Some?
    ensures HasRecord(data, marks.end)
  {
    hide Place, RecordAt, Find, Status;
    var k := Cut(data, marks);
    var j := Place(data[k..], marks.end, 0).value;
    RecordShifts(data, marks.end, k, j);
    PlaceIsFirst(data, marks.end, 0, k + j);
  }

  /** A stream whose first record starts in the noise or in the sentinel is misread when it is cut at
      that record: the sentinel has not come, or no record follows it. */
  lemma UnframedPrefix(data: Bytes, marks: Marks) returns (p: Bytes)
    requires IsNonce(marks.end)
    requires HasRecord(data, marks.end) && PartOf(data, marks).Ended? && !Framed(data, marks)
    ensures p <= data && HasRecord(p, marks.end) && !PartOf(p, marks).Ended?
  {
    hide Place, RecordAt;
    var i := Place(data, marks.end, 0).value;
    var stop := RecordAt(data, marks.end, i).value.stop;
    p := data[..stop];
    RecordPrefix(p, data, marks.end, i);
    PlaceIsFirst(p, marks.end, 0, i);
    if PartOf(p, marks).Ended? {
      EndedRecord(p, marks);
      SentinelInPrefix(p, data, marks.start);
      var j := Cut(p, marks) + Place(p[Cut(p, marks)..], marks.end, 0).value;
      LaterIsOutside(p, data, marks.end, i, j);
    }
  }

  /** Cut at its first record, a stream holds no later one. */
  lemma LaterIsOutside(p: Bytes, data: Bytes, end: Bytes, i: nat, j: nat)
    requires IsNonce(end) && p <= data && i < j
    requires RecordAt(data, end, i).Some? && |p| == RecordAt(data, end, i).value.stop
    ensures RecordAt(p, end, j).None?
  {
    RecordPrefix(p, data, end, j);
    if RecordAt(p, end, j).Some? {
      NoStraddle(data, end, i, end, j);
    }
  }

  /** Exactly the framed streams say the same wherever they are cut past a complete record. */
  lemma FramedExactly(data: Bytes, marks: Marks)
    requires IsNonce(marks.end) && PartOf(data, marks).Ended?
    ensures Framed(data, marks)
      <==> forall p :: p <= data && HasRecord(p, marks.end) ==> PartOf(p, marks) == PartOf(data, marks)
  {
    EndedRecord(data, marks);
    if Framed(data, marks) {
      forall p | p <= data && HasRecord(p, marks.end) ensures PartOf(p, marks) == PartOf(data, marks) {
        FramedPrefix(p, data, marks);
      }
    } else {
      var p := UnframedPrefix(data, marks);
      assert p <= data && HasRecord(p, marks.end) && PartOf(p, marks) != PartOf(data, marks);
    }
  }

  /** A printed stream is framed when neither its noise nor its sentinel and output hold a record. */
  lemma PrintedIsFramed(noise: Bytes, marks: Marks, output: Bytes, ending: Ending, rest: Bytes)
    requires IsNonce(marks.start) && IsNonce(marks.end) && ending.Printable()
    requires Find(noise + marks.start, marks.start, 0) == Some(|noise|)
    requires !HasRecord(noise, marks.end) && !HasRecord(marks.start + output, marks.end)
    ensures Framed(Printed(noise, marks, output, ending, rest), marks)
  {
    hide Place, RecordAt, Find, Occurs, RecordLine;
    var kept := output + RecordLine(marks.end, ending) + rest;
    FirstSentinel(noise, marks.start, kept);
    var body := marks.start + output + RecordLine(marks.end, ending) + rest;
    FirstPrintedRecord(marks.start + output, marks.end, ending, rest);
    SentinelFirst(marks.start, output, RecordLine(marks.end, ending), rest);
    RecordsPastNoise(noise, body, marks, |marks.start + output|);
    assert noise + body == noise + marks.start + kept;
  }

  lemma SentinelFirst(a: Bytes, b: Bytes, c: Bytes, d: Bytes)
    ensures (a + b + c + d)[..|a|] == a
    ensures a + b + c + d == a + (b + c + d)
  {
  }

  lemma NoiseThenBody(noise: Bytes, body: Bytes, start: Bytes)
    requires |start| <= |body| && body[..|start|] == start
    ensures var data := noise + body; noise <= data && data[|noise|..] == body && Occurs(data, start, |noise|)
  {
    var data := noise + body;
    assert data[|noise|..] == body;
    assert data[|noise|..|noise| + |start|] == body[..|start|];
  }

  lemma FirstPastNoise(noise: Bytes, data: Bytes, marks: Marks, i: nat)
    requires IsNonce(marks.start) && IsNonce(marks.end) && noise <= data && Occurs(data, marks.start, |noise|)
    requires !HasRecord(noise, marks.end) && Place(data[|noise|..], marks.end, 0) == Some(i)
    ensures Place(data, marks.end, 0) == Some(|noise| + i)
  {
    hide RecordAt, IsNonce, Occurs, Place;
    var n := |noise|;
    RecordShifts(data, marks.end, n, i);
    PlaceIsFirst(data, marks.end, 0, n + i);
    if Place(data, marks.end, 0).value < n {
      NoRecordInNoise(noise, data, marks, Place(data, marks.end, 0).value);
    } else {
      PlaceShifts(data, marks.end, n);
    }
  }

  /** Ahead of a body that starts with a nonce, noise without a record adds none. */
  lemma RecordsPastNoise(noise: Bytes, body: Bytes, marks: Marks, i: nat)
    requires IsNonce(marks.start) && IsNonce(marks.end)
    requires |body| >= 32 && body[..32] == marks.start
    requires !HasRecord(noise, marks.end) && Place(body, marks.end, 0) == Some(i)
    ensures Place(noise + body, marks.end, 0) == Some(|noise| + i)
  {
    hide RecordAt, IsNonce, Occurs, HasRecord, Place;
    NonceLength(marks.start);
    NoiseThenBody(noise, body, marks.start);
    FirstPastNoise(noise, noise + body, marks, i);
  }

  lemma NoRecordInNoise(noise: Bytes, data: Bytes, marks: Marks, j: nat)
    requires IsNonce(marks.start) && IsNonce(marks.end) && noise <= data
    requires Occurs(data, marks.start, |noise|) && !HasRecord(noise, marks.end) && j < |noise|
    ensures RecordAt(data, marks.end, j).None?
  {
    RecordPrefix(noise, data, marks.end, j);
    if RecordAt(data, marks.end, j).Some? {
      NoStraddle(data, marks.end, j, marks.start, |noise|);
      PlaceIsFirst(noise, marks.end, 0, j);
    }
  }
}
