/** Reading a command's streams until both ends are in (`_collect` in executor/ssh.py).

    The channel is a script of rounds, one for each turn of the read loop: the bytes its drains find and
    what it reports when asked. A round says nothing of how the bytes were split on the way. */
module Collect {
  import opened Bytes
  import opened Wrappers
  import opened Records
  import opened Framing

  /** One turn of the loop. `out` and `err` are what the first drain finds; `closed`, `eof` and `exit`
      what the channel then reports; `lateOut` and `lateErr` what a drain after the channel has ended,
      or after the deadline, still finds; `lateEof` the end of output as it then reports it;
      `expired`, that the deadline has passed. */
  datatype Round = Round(out: Bytes, err: Bytes, closed: bool, eof: bool, exit: Option<int>,
                         lateOut: Bytes, lateErr: Bytes, lateEof: bool, expired: bool)
  {
    /** `_ended` */
    predicate Ended() { closed || (eof && exit.Some?) }

    /** `_lost`, asked after the last drain of an ended channel. */
    predicate Lost() { closed && !lateEof }

    /** `recv_exit_status`: a channel that ends without a status reports -1. */
    function Code(): int { if exit.Some? then exit.value else -1 }
  }

  datatype Read = Read(out: Bytes, err: Bytes, code: int, note: Bytes)

  predicate BothEnds(out: Bytes, err: Bytes, end: Bytes) {
    HasRecord(out, end) && HasRecord(err, end)
  }

  /** How a round ends the read, given all the bytes so far; None to go on. */
  function Settled(round: Round, out: Bytes, err: Bytes, end: Option<Bytes>): Option<Read> {
    if end.Some? && BothEnds(out, err, end.value) then Some(Read(out, err, round.Code(), []))
    else if round.Ended() then
      var out', err' := out + round.lateOut, err + round.lateErr;
      if round.Lost() && !(end.Some? && BothEnds(out', err', end.value))
      then Some(Read(out', err', CONNECTION_LOST_EXIT_CODE, LOST_NOTE))
      else Some(Read(out', err', round.Code(), []))
    else if round.expired then
      if round.exit.Some? then Some(Read(out, err, TIMEOUT_EXIT_CODE, LateNote(round.exit.value)))
      else Some(Read(out + round.lateOut, err + round.lateErr, TIMEOUT_EXIT_CODE, []))
    else None
  }

  /** The whole read, every scan from the start of the stream; None while it goes on. */
  function Collected(script: seq<Round>, out: Bytes, err: Bytes, end: Option<Bytes>): Option<Read> {
    if script == [] then None
    else
      var out', err' := out + script[0].out, err + script[0].err;
      var settled := Settled(script[0], out', err', end);
      if settled.Some? then settled else Collected(script[1..], out', err', end)
  }

  /** A scan state is -1 once its stream's record is found, else a place no record starts before. */
  predicate Scanned(at: int, data: Bytes, end: Bytes) {
    if at < 0 then at == -1 && HasRecord(data, end)
    else !HasRecord(data, end) && at == Resume(|data|, end)
  }

  /** One stream's scan: from where the last one stopped, over what has arrived since. */
  method Scan(data: Bytes, end: Bytes, at: int, ghost before: Bytes) returns (next: int)
    requires before <= data && (Scanned(at, before, end) || (at == 0 && before == []))
    ensures Scanned(next, data, end)
  {
    if at >= 0 {
      var found := Record(data, end, at);
      if before != [] || at != 0 {
        ResumeSkipsNothing(before, data, end);
      }
      next := if found.Some? then -1 else Resume(|data|, end);
    } else {
      FirstRecordOfPrefix(before, data, end);
      next := -1;
    }
  }

  /** `_collect`: the buffers grow, and each scan resumes where the last could not have missed. */
  method CollectChannel(script: seq<Round>, end: Option<Bytes>) returns (read: Option<Read>)
    ensures read == Collected(script, [], [], end)
  {
    var out: Bytes, err: Bytes := [], [];
    var scanned := [0, 0];
    ghost var before: Bytes, before': Bytes := [], [];
    for i := 0 to |script|
      invariant Collected(script, [], [], end) == Collected(script[i..], out, err, end)
      invariant |scanned| == 2 && before == out && before' == err
      invariant end.Some? ==> Scanned(scanned[0], out, end.value) || (scanned[0] == 0 && out == [])
      invariant end.Some? ==> Scanned(scanned[1], err, end.value) || (scanned[1] == 0 && err == [])
    {
      var round := script[i];
      assert script[i..][1..] == script[i + 1..];
      out, err := out + round.out, err + round.err;
      if end.Some? {
        var a := Scan(out, end.value, scanned[0], before);
        var b := Scan(err, end.value, scanned[1], before');
        scanned := [a, b];
        if scanned == [-1, -1] {
          return Some(Read(out, err, round.Code(), []));
        }
      }
      if round.Ended() {
        out, err := out + round.lateOut, err + round.lateErr;
        if round.Lost() {
          var complete := false;
          if end.Some? {
            var first := Record(out, end.value, 0);
            var second := Record(err, end.value, 0);
            complete := first.Some? && second.Some?;
          }
          if !complete {
            return Some(Read(out, err, CONNECTION_LOST_EXIT_CODE, LOST_NOTE));
          }
        }
        return Some(Read(out, err, round.Code(), []));
      }
      if round.expired {
        if round.exit.Some? {
          return Some(Read(out, err, TIMEOUT_EXIT_CODE, LateNote(round.exit.value)));
        }
        out, err := out + round.lateOut, err + round.lateErr;
        return Some(Read(out, err, TIMEOUT_EXIT_CODE, []));
      }
      before, before' := out, err;
    }
    read := None;
  }

  // ----- how a read ends, by what the rounds report -----

  /** A round that leaves the read going: a record is still missing, the channel is open and has not delivered both
      its end of output and an exit status, and the deadline has not passed. */
  predicate GoesOn(round: Round, out: Bytes, err: Bytes, end: Option<Bytes>) {
    && !(end.Some? && HasRecord(out, end.value) && HasRecord(err, end.value))
    && !round.closed && !(round.eof && round.exit.Some?) && !round.expired
  }

  /** What the drains have found by the end of round `n`. */
  function OutBy(script: seq<Round>, out: Bytes, n: nat): Bytes
    requires n < |script|
  {
    out + Outs(script[..n + 1])
  }

  function ErrBy(script: seq<Round>, err: Bytes, n: nat): Bytes
    requires n < |script|
  {
    err + Errs(script[..n + 1])
  }

  lemma ByStep(script: seq<Round>, out: Bytes, err: Bytes, n: nat)
    requires n < |script|
    ensures n == 0 ==> OutBy(script, out, 0) == out + script[0].out && ErrBy(script, err, 0) == err + script[0].err
    ensures n > 0 ==> OutBy(script, out, n) == OutBy(script[1..], out + script[0].out, n - 1)
                      && ErrBy(script, err, n) == ErrBy(script[1..], err + script[0].err, n - 1)
  {
    assert script[..1][1..] == [];
    if n > 0 {
      assert script[..n + 1][1..] == script[1..][..n];
      assert out + (script[0].out + Outs(script[1..][..n])) == out + script[0].out + Outs(script[1..][..n]);
      assert err + (script[0].err + Errs(script[1..][..n])) == err + script[0].err + Errs(script[1..][..n]);
    }
  }

  /** The rounds before the `n`th leave the read going. */
  predicate OpenUntil(script: seq<Round>, out: Bytes, err: Bytes, end: Option<Bytes>, n: nat)
    requires n <= |script|
  {
    forall j :: 0 <= j < n ==> GoesOn(script[j], OutBy(script, out, j), ErrBy(script, err, j), end)
  }

  /** What the first round that does not leave it going ends the read with. Both records in: all that was read,
      and the exit status, or -1 before it has come. The channel ended: that and all a last drain finds, and
      the exit status or -1, unless it closed without its end of output and short of a record, which is a lost
      connection. The deadline: a timeout, with the note that names the status where one has come, and else with
      what was printed while the command stopped. */
  predicate EndsAs(read: Read, round: Round, out: Bytes, err: Bytes, end: Option<Bytes>) {
    var status := if round.exit.Some? then round.exit.value else -1;
    var both := end.Some? && HasRecord(out, end.value) && HasRecord(err, end.value);
    var late, late' := out + round.lateOut, err + round.lateErr;
    var bothLate := end.Some? && HasRecord(late, end.value) && HasRecord(late', end.value);
    var ended := round.closed || (round.eof && round.exit.Some?);
    && (both ==> read == Read(out, err, status, []))
    && (!both && ended && round.closed && !round.lateEof && !bothLate ==>
          read == Read(late, late', CONNECTION_LOST_EXIT_CODE, LOST_NOTE))
    && (!both && ended && (!round.closed || round.lateEof || bothLate) ==> read == Read(late, late', status, []))
    && (!both && !ended && round.exit.Some? ==> read == Read(out, err, TIMEOUT_EXIT_CODE, LateNote(round.exit.value)))
    && (!both && !ended && round.exit.None? ==> read == Read(late, late', TIMEOUT_EXIT_CODE, []))
  }

  /** For every script: the read goes on through all its rounds, or ends as its first round that does not leave it
      going says. */
  lemma {:induction false} EndsExactly(script: seq<Round>, out: Bytes, err: Bytes, end: Option<Bytes>, n: nat)
    requires n <= |script| && OpenUntil(script, out, err, end, n)
    ensures n == |script| ==> Collected(script, out, err, end).None?
    ensures n < |script| && !GoesOn(script[n], OutBy(script, out, n), ErrBy(script, err, n), end) ==>
              Collected(script, out, err, end).Some?
              && EndsAs(Collected(script, out, err, end).value, script[n], OutBy(script, out, n), ErrBy(script, err, n), end)
    decreases n
  {
    hide HasRecord, OutBy, ErrBy, LateNote;
    if script != [] {
      ByStep(script, out, err, 0);
      if n > 0 {
        assert GoesOn(script[0], OutBy(script, out, 0), ErrBy(script, err, 0), end);
        forall j | 0 <= j < n - 1
          ensures GoesOn(script[1..][j], OutBy(script[1..], out + script[0].out, j), ErrBy(script[1..], err + script[0].err, j), end) {
          ByStep(script, out, err, j + 1);
        }
        if n < |script| { ByStep(script, out, err, n); }
        EndsExactly(script[1..], out + script[0].out, err + script[0].err, end, n - 1);
      }
    }
  }

  /** The code of a read is an exit status that arrived, -1, a timeout or a loss. */
  lemma {:induction false} CollectedCode(script: seq<Round>, out: Bytes, err: Bytes, end: Option<Bytes>)
    requires Collected(script, out, err, end).Some?
    ensures var code := Collected(script, out, err, end).value.code;
            Interrupted(code) || exists i :: 0 <= i < |script| && code == script[i].Code()
  {
    hide HasRecord;
    var out', err' := out + script[0].out, err + script[0].err;
    if Settled(script[0], out', err', end).None? {
      CollectedCode(script[1..], out', err', end);
      var code := Collected(script[1..], out', err', end).value.code;
      if !Interrupted(code) {
        var i :| 0 <= i < |script[1..]| && code == script[1..][i].Code();
        assert code == script[i + 1].Code();
      }
    }
  }

  // ----- schedules -----

  /** A script that carries the streams `total` and `total'`: what has arrived is always a start of
      each, a channel that ends with its end of output has brought all that matters of both, no deadline
      passes, and no connection is lost before both end records are in. */
  predicate Carries(script: seq<Round>, out: Bytes, err: Bytes, total: Bytes, total': Bytes, end: Bytes) {
    script == [] ||
    var round := script[0];
    var now, now' := out + round.out, err + round.err;
    && now <= total && now' <= total'
    && !round.expired
    && (round.Ended() ==> Covers(now + round.lateOut, total, end) && Covers(now' + round.lateErr, total', end))
    && Carries(script[1..], now, now', total, total', end)
  }

  /** Both of a command's streams, framed. */
  predicate BothFramed(total: Bytes, total': Bytes, marks: Marks) {
    IsNonce(marks.start) && IsNonce(marks.end) && Framed(total, marks) && Framed(total', marks)
  }

  /** What is served of two framed streams, whatever was read past their records and whatever the wire
      reports. */
  lemma CutsAgree(read: Read, total: Bytes, total': Bytes, marks: Marks)
    requires BothFramed(total, total', marks) && !Interrupted(read.code)
    requires read.out <= total && read.err <= total' && BothEnds(read.out, read.err, marks.end)
    ensures Separated(read.out, read.err, read.code, marks, read.note)
         == Separated(total, total', 0, marks, read.note)
  {
    hide Find, Place;
    FramedPrefix(read.out, total, marks);
    FramedPrefix(read.err, total', marks);
    FramedPart(total, marks);
  }

  /** Schedule independence: however the streams are split and whenever the exit status, the end of
      output and the close arrive, a read that ends serves one result. */
  lemma {:induction false} ScheduleIndependent(script: seq<Round>, out: Bytes, err: Bytes, total: Bytes, total': Bytes, marks: Marks)
    requires BothFramed(total, total', marks)
    requires Carries(script, out, err, total, total', marks.end)
    requires Collected(script, out, err, Some(marks.end)).Some?
    requires forall i :: 0 <= i < |script| ==> !Interrupted(script[i].Code())
    ensures var read := Collected(script, out, err, Some(marks.end)).value;
            Separated(read.out, read.err, read.code, marks, read.note) == Separated(total, total', 0, marks, [])
  {
    hide Separated, Framed, HasRecord, Covers;
    var round := script[0];
    var now, now' := out + round.out, err + round.err;
    var settled := Settled(round, now, now', Some(marks.end));
    if settled.Some? {
      if !BothEnds(now, now', marks.end) {
        CoveredEnds(now + round.lateOut, total, marks);
        CoveredEnds(now' + round.lateErr, total', marks);
      }
      CutsAgree(settled.value, total, total', marks);
    } else {
      ScheduleIndependent(script[1..], now, now', total, total', marks);
    }
  }

  lemma CoveredEnds(p: Bytes, total: Bytes, marks: Marks)
    requires Framed(total, marks) && Covers(p, total, marks.end)
    ensures p <= total && HasRecord(p, marks.end)
  {
    FirstRecordOfPrefix(p, total, marks.end);
  }

  /** A read ends no later than the round that has both records in. */
  lemma {:induction false} EndsWithRecords(script: seq<Round>, out: Bytes, err: Bytes, end: Bytes, k: nat)
    requires k < |script|
    requires BothEnds(out + Outs(script[..k + 1]), err + Errs(script[..k + 1]), end)
    ensures Collected(script, out, err, Some(end)).Some?
    decreases k
  {
    if k == 0 {
      assert script[..1][1..] == [];
      assert out + Outs(script[..1]) == out + script[0].out;
      assert err + Errs(script[..1]) == err + script[0].err;
    } else {
      assert script[..k + 1][1..] == script[1..][..k];
      assert out + Outs(script[..k + 1]) == out + script[0].out + Outs(script[1..][..k]);
      assert err + Errs(script[..k + 1]) == err + script[0].err + Errs(script[1..][..k]);
      EndsWithRecords(script[1..], out + script[0].out, err + script[0].err, end, k - 1);
    }
  }

  function Outs(script: seq<Round>): Bytes {
    if script == [] then [] else script[0].out + Outs(script[1..])
  }

  function Errs(script: seq<Round>): Bytes {
    if script == [] then [] else script[0].err + Errs(script[1..])
  }

  lemma RecordOfSuffix(front: Bytes, data: Bytes, end: Bytes)
    ensures HasRecord(data, end) ==> HasRecord(front + data, end)
  {
    assert (front + data)[|front|..] == data;
    if HasRecord(data, end) {
      var i := Place(data, end, 0).value;
      RecordShifts(front + data, end, |front|, i);
      PlaceIsFirst(front + data, end, 0, |front| + i);
    }
  }

  /** Over printed streams the one result is the command's own: its outputs and its status, on every
      schedule. */
  lemma PrintedSchedules(script: seq<Round>, noise: Bytes, noise': Bytes, marks: Marks, output: Bytes, output': Bytes,
                         ending: Ending, rest: Bytes, rest': Bytes)
    requires IsNonce(marks.start) && IsNonce(marks.end) && ending.Printable()
    requires Find(noise + marks.start, marks.start, 0) == Some(|noise|) && !HasRecord(noise, marks.end)
    requires Find(noise' + marks.start, marks.start, 0) == Some(|noise'|) && !HasRecord(noise', marks.end)
    requires !HasRecord(marks.start + output, marks.end) && !HasRecord(marks.start + output', marks.end)
    requires var total, total' := Printed(noise, marks, output, ending, rest), Printed(noise', marks, output', ending, rest');
             Carries(script, [], [], total, total', marks.end)
    requires Collected(script, [], [], Some(marks.end)).Some?
    requires forall i :: 0 <= i < |script| ==> !Interrupted(script[i].Code())
    ensures var read := Collected(script, [], [], Some(marks.end)).value;
            Separated(read.out, read.err, read.code, marks, read.note) == Ok(Answer(output, output', ExitCode(ending)))
  {
    hide Find, HasRecord, Printed, Separated, Carries, Collected, Framed;
    var total, total' := Printed(noise, marks, output, ending, rest), Printed(noise', marks, output', ending, rest');
    PrintedIsFramed(noise, marks, output, ending, rest);
    PrintedIsFramed(noise', marks, output', ending, rest');
    ScheduleIndependent(script, [], [], total, total', marks);
    RecordOfSuffix(marks.start, output, marks.end);
    RecordOfSuffix(marks.start, output', marks.end);
    RoundTrip(noise, noise', marks, output, output', ending, rest, rest', 0, []);
    assert output' + [] == output';
  }

  // ----- and exactly those streams -----

  /** A script that carries the two streams, ends, and whose wire reports neither a timeout nor a loss. */
  predicate Delivers(script: seq<Round>, total: Bytes, total': Bytes, marks: Marks) {
    && Carries(script, [], [], total, total', marks.end) && Collected(script, [], [], Some(marks.end)).Some?
    && forall i :: 0 <= i < |script| ==> !Interrupted(script[i].Code())
  }

  function Served(script: seq<Round>, marks: Marks): Result<Answer>
    requires Collected(script, [], [], Some(marks.end)).Some?
  {
    var read := Collected(script, [], [], Some(marks.end)).value;
    Separated(read.out, read.err, read.code, marks, read.note)
  }

  /** Every script that delivers the streams is served alike. */
  ghost predicate Independent(total: Bytes, total': Bytes, marks: Marks) {
    forall a, b :: Delivers(a, total, total', marks) && Delivers(b, total, total', marks) ==> Served(a, marks) == Served(b, marks)
  }

  /** One round that finds this much of each stream. */
  function Burst(out: Bytes, err: Bytes): seq<Round> {
    [Round(out, err, false, false, None, [], [], false, false)]
  }

  lemma BurstDelivers(p: Bytes, p': Bytes, total: Bytes, total': Bytes, marks: Marks)
    requires p <= total && p' <= total' && BothEnds(p, p', marks.end)
    ensures Delivers(Burst(p, p'), total, total', marks)
    ensures Served(Burst(p, p'), marks) == Separated(p, p', -1, marks, [])
  {
    hide HasRecord, Separated, Covers;
    var script := Burst(p, p');
    assert [] + p == p && [] + p' == p';
    assert script[1..] == [];
    assert Carries(script[1..], p, p', total, total', marks.end);
    assert Carries(script, [], [], total, total', marks.end);
    assert script[0].Code() == -1;
  }

  /** Two cuts of the streams that are served differently. */
  lemma CutsTell(p: Bytes, p': Bytes, q: Bytes, q': Bytes, total: Bytes, total': Bytes, marks: Marks)
    requires p <= total && p' <= total' && BothEnds(p, p', marks.end)
    requires q <= total && q' <= total' && BothEnds(q, q', marks.end)
    requires Separated(p, p', -1, marks, []) != Separated(q, q', -1, marks, [])
    ensures !Independent(total, total', marks)
  {
    hide HasRecord, Separated, Delivers, Served;
    BurstDelivers(p, p', total, total', marks);
    BurstDelivers(q, q', total, total', marks);
  }

  /** What is served of stderr beside an ended stdout. */
  function ErrOf(part: Part): Bytes {
    match part
    case Redirected => RedirectedNote(1)
    case Unfinished(output) => output + UNFINISHED_NOTE
    case Ended(output, _) => output
  }

  lemma ErrBeside(out: Part, err: Part, taken: bool)
    requires out.Ended?
    ensures Judge(out, err, taken, -1, []).err == ErrOf(err)
  {
    hide Ascii, RedirectedNote;
    match err
    case Redirected => assert [] + ([] + RedirectedNote(1)) + [] + [] == RedirectedNote(1);
    case Unfinished(output) => assert output + ([] + []) + UNFINISHED_NOTE + [] == output + UNFINISHED_NOTE;
    case Ended(output, _) => assert output + ([] + []) + [] + [] == output;
  }

  /** And beside an ended stderr: a note is added unless stdout has ended. */
  lemma OutBeside(out: Part, err: Part, taken: bool)
    requires err.Ended?
    ensures out.Ended? <==> |Judge(out, err, taken, -1, []).err| == |err.output|
  {
    NotesDiffer();
    hide Ascii;
  }

  lemma NotesDiffer()
    ensures |RedirectedNote(0)| > 0 && |UNFINISHED_NOTE| > 40 && RedirectedNote(1) != UNFINISHED_NOTE
  {
    assert |RedirectedNote(1)| != |UNFINISHED_NOTE|;
  }

  lemma SeparatedErr(out: Bytes, err: Bytes, marks: Marks)
    requires IsNonce(marks.start) && IsNonce(marks.end)
    ensures Separated(out, err, -1, marks, []) == Ok(Judge(PartOf(out, marks), PartOf(err, marks), Taken(err), -1, []))
  {
    hide Judge, PartOf;
  }

  lemma UnframedOut(total: Bytes, total': Bytes, marks: Marks)
    requires IsNonce(marks.start) && IsNonce(marks.end)
    requires PartOf(total, marks).Ended? && PartOf(total', marks).Ended? && !Framed(total, marks)
    ensures !Independent(total, total', marks)
  {
    hide PartOf, Judge, Framed, Independent, Separated, HasRecord, Taken;
    EndedRecord(total, marks);
    EndedRecord(total', marks);
    var p := UnframedPrefix(total, marks);
    SeparatedErr(p, total', marks);
    SeparatedErr(total, total', marks);
    OutBeside(PartOf(p, marks), PartOf(total', marks), Taken(total'));
    OutBeside(PartOf(total, marks), PartOf(total', marks), Taken(total'));
    CutsTell(p, total', total, total', total, total', marks);
  }

  /** Two cuts of an unframed stream, each past a complete record, of which stderr would be served two ways. */
  lemma UnframedCuts(data: Bytes, marks: Marks) returns (p: Bytes, q: Bytes)
    requires IsNonce(marks.start) && IsNonce(marks.end) && PartOf(data, marks).Ended? && !Framed(data, marks)
    ensures p <= data && q <= data && HasRecord(p, marks.end) && HasRecord(q, marks.end)
    ensures ErrOf(PartOf(p, marks)) != ErrOf(PartOf(q, marks))
  {
    hide Place, RecordAt, Find, PartOf, ErrOf, Ascii;
    EndedRecord(data, marks);
    p := UnframedPrefix(data, marks);
    if PartOf(p, marks).Redirected? {
      q := data[..Cut(data, marks)];
      BareSentinel(p, q, data, marks);
    } else {
      q := data;
      if |ErrOf(PartOf(p, marks))| == |ErrOf(PartOf(data, marks))| {
        OneMore(p, data, marks);
        q := data[..|p| + 1];
      }
    }
  }

  /** Cut right after the sentinel, where a shorter cut had none. */
  lemma BareSentinel(p: Bytes, q: Bytes, data: Bytes, marks: Marks)
    requires IsNonce(marks.end) && Find(data, marks.start, 0).Some? && q == data[..Cut(data, marks)]
    requires p <= data && HasRecord(p, marks.end) && PartOf(p, marks).Redirected?
    ensures HasRecord(q, marks.end) && ErrOf(PartOf(p, marks)) != ErrOf(PartOf(q, marks))
  {
    hide Place, RecordAt, Find, Ascii, RedirectedNote;
    if Cut(data, marks) <= |p| {
      SentinelWithinPrefix(p, data, marks.start);
    }
    SentinelWithinPrefix(q, data, marks.start);
    FirstRecordOfPrefix(p, q, marks.end);
    assert q[Cut(data, marks)..] == [];
    NoRecordInNothing(marks.end);
    NotesDiffer();
    assert [] + UNFINISHED_NOTE == UNFINISHED_NOTE;
  }

  lemma NoRecordInNothing(end: Bytes)
    requires IsNonce(end)
    ensures FirstRecord([], end, 0).None?
  {
  }

  lemma PartPast(data: Bytes, marks: Marks)
    requires Find(data, marks.start, 0).Some?
    ensures var kept := data[Cut(data, marks)..];
            && (HasRecord(kept, marks.end) ==>
                  PartOf(data, marks).Ended? && PartOf(data, marks).output == kept[..Place(kept, marks.end, 0).value])
            && (!HasRecord(kept, marks.end) ==> PartOf(data, marks) == Unfinished(kept))
  {
    hide Place, RecordAt, Find, Status;
  }

  /** A start of what follows the sentinel holds no record that ends past it. */
  lemma NotYet(kept: Bytes, more: Bytes, end: Bytes)
    requires IsNonce(end) && more <= kept && HasRecord(kept, end) && Place(kept, end, 0).value + 35 > |more|
    ensures !HasRecord(more, end)
  {
    hide Place, RecordAt, IsNonce;
    NonceLength(end);
    if HasRecord(more, end) {
      FirstRecordStays(more, kept, end);
    }
  }

  lemma StillUnfinished(q: Bytes, data: Bytes, marks: Marks)
    requires IsNonce(marks.end) && q <= data && Find(q, marks.start, 0).Some? && Find(data, marks.start, 0) == Find(q, marks.start, 0)
    requires var kept := data[Cut(data, marks)..];
             HasRecord(kept, marks.end) && Place(kept, marks.end, 0).value + 35 > |q| - Cut(q, marks)
    ensures PartOf(q, marks) == Unfinished(q[Cut(q, marks)..])
  {
    hide Place, RecordAt, Find, PartOf, IsNonce, HasRecord;
    var k := Cut(q, marks);
    assert q[k..] == data[k..][..|q| - k];
    NotYet(data[k..], q[k..], marks.end);
    PartPast(q, marks);
  }

  lemma ErrLength(part: Part)
    ensures part.Unfinished? ==> |ErrOf(part)| == |part.output| + |UNFINISHED_NOTE|
    ensures part.Ended? ==> |ErrOf(part)| == |part.output|
  {
    hide Ascii;
  }

  /** How much of a stream its part is. */
  lemma PartLength(data: Bytes, marks: Marks)
    requires Find(data, marks.start, 0).Some?
    ensures PartOf(data, marks).Unfinished? ==> |PartOf(data, marks).output| == |data| - Cut(data, marks)
    ensures PartOf(data, marks).Ended? ==>
              && HasRecord(data[Cut(data, marks)..], marks.end)
              && |PartOf(data, marks).output| == Place(data[Cut(data, marks)..], marks.end, 0).value <= |data| - Cut(data, marks)
  {
    hide Find, PartOf, RecordAt, Place;
    PartPast(data, marks);
  }

  lemma SameSentinel(p: Bytes, data: Bytes, marks: Marks)
    requires p <= data && !PartOf(p, marks).Redirected?
    ensures Find(p, marks.start, 0).Some? && Find(data, marks.start, 0) == Find(p, marks.start, 0)
    ensures Cut(p, marks) == Cut(data, marks) && p[Cut(p, marks)..] <= data[Cut(p, marks)..]
  {
    hide Find, PartOf;
    SentinelOf(p, marks);
    SentinelInPrefix(p, data, marks.start);
  }

  /** Where the two would be served as much, the record is a note's length past the cut. */
  lemma RecordIsFar(p: Bytes, data: Bytes, marks: Marks)
    requires PartOf(data, marks).Ended? && p <= data
    requires PartOf(p, marks).Unfinished? && |ErrOf(PartOf(p, marks))| == |ErrOf(PartOf(data, marks))|
    ensures Find(p, marks.start, 0).Some? && Find(data, marks.start, 0) == Find(p, marks.start, 0)
    ensures HasRecord(data[Cut(data, marks)..], marks.end)
    ensures Place(data[Cut(data, marks)..], marks.end, 0).value == |p| + |UNFINISHED_NOTE| - Cut(data, marks)
    ensures |p| + |UNFINISHED_NOTE| <= |data|
  {
    hide Find, Ascii, PartOf, ErrOf, RecordAt, Place, HasRecord, Cut;
    SameSentinel(p, data, marks);
    PartLength(p, marks);
    PartLength(data, marks);
    ErrLength(PartOf(p, marks));
    ErrLength(PartOf(data, marks));
  }

  /** A cut that has the sentinel and not yet its record: one octet more is served as one octet more, unless the
      record has come. */
  lemma OneMore(p: Bytes, data: Bytes, marks: Marks)
    requires IsNonce(marks.end) && PartOf(data, marks).Ended? && p <= data && HasRecord(p, marks.end)
    requires PartOf(p, marks).Unfinished? && |ErrOf(PartOf(p, marks))| == |ErrOf(PartOf(data, marks))|
    ensures |p| < |data| && HasRecord(data[..|p| + 1], marks.end)
    ensures |ErrOf(PartOf(data[..|p| + 1], marks))| == |ErrOf(PartOf(p, marks))| + 1
  {
    hide Place, RecordAt, Find, Ascii, PartOf, IsNonce, HasRecord;
    RecordIsFar(p, data, marks);
    NotesDiffer();
    var q := data[..|p| + 1];
    SentinelOf(p, marks);
    SentinelInPrefix(p, data, marks.start);
    SentinelWithinPrefix(q, data, marks.start);
    FirstRecordOfPrefix(p, q, marks.end);
    PartPast(p, marks);
    StillUnfinished(q, data, marks);
  }

  lemma SentinelOf(data: Bytes, marks: Marks)
    ensures !PartOf(data, marks).Redirected? ==> Find(data, marks.start, 0).Some?
  {
    hide Place, RecordAt, Status;
  }

  lemma UnframedErr(total: Bytes, total': Bytes, marks: Marks)
    requires IsNonce(marks.start) && IsNonce(marks.end)
    requires PartOf(total, marks).Ended? && PartOf(total', marks).Ended? && !Framed(total', marks)
    ensures !Independent(total, total', marks)
  {
    hide PartOf, Judge, Framed, Independent, Separated, HasRecord, Taken, ErrOf;
    EndedRecord(total, marks);
    var p, q := UnframedCuts(total', marks);
    SeparatedErr(total, p, marks);
    SeparatedErr(total, q, marks);
    ErrBeside(PartOf(total, marks), PartOf(p, marks), Taken(p));
    ErrBeside(PartOf(total, marks), PartOf(q, marks), Taken(q));
    CutsTell(total, p, total, q, total, total', marks);
  }

  /** Of two streams that both carry an end, every schedule is served alike if and only if both are framed. */
  lemma IndependentExactly(total: Bytes, total': Bytes, marks: Marks)
    requires IsNonce(marks.start) && IsNonce(marks.end) && PartOf(total, marks).Ended? && PartOf(total', marks).Ended?
    ensures Independent(total, total', marks) <==> Framed(total, marks) && Framed(total', marks)
  {
    hide PartOf, Framed, Served, Separated, Collected, Carries;
    if !Framed(total, marks) {
      UnframedOut(total, total', marks);
    } else if !Framed(total', marks) {
      UnframedErr(total, total', marks);
    } else {
      forall a, b | Delivers(a, total, total', marks) && Delivers(b, total, total', marks) ensures Served(a, marks) == Served(b, marks) {
        DeliveredWhole(a, total, total', marks);
        DeliveredWhole(b, total, total', marks);
      }
    }
  }

  lemma DeliveredWhole(script: seq<Round>, total: Bytes, total': Bytes, marks: Marks)
    requires BothFramed(total, total', marks) && Delivers(script, total, total', marks)
    ensures Served(script, marks) == Separated(total, total', 0, marks, [])
  {
    hide Separated, Framed, Collected, Carries;
    ScheduleIndependent(script, [], [], total, total', marks);
  }

  /** A record before the sentinel is the first. */
  lemma EarlyRecord(data: Bytes, marks: Marks, early: Ending)
    requires IsNonce(marks.start) && IsNonce(marks.end) && early.Printable() && RecordLine(marks.end, early) <= data
    ensures HasRecord(data, marks.end) && Place(data, marks.end, 0) == Some(0) && !Framed(data, marks)
  {
    hide RecordLine, RecordAt, Find, Place, IsNonce;
    NonceLength(marks.start);
    PrintedRecord(data, 0, marks.end, early);
    PlaceIsFirst(data, marks.end, 0, 0);
  }

  /** A record past a sentinel ends the stream, wherever the sentinel is first found. */
  lemma RecordPastSentinel(data: Bytes, marks: Marks, at: nat, ending: Ending)
    requires IsNonce(marks.start) && IsNonce(marks.end) && ending.Printable() && at >= |marks.start|
    requires Occurs(data, marks.start, at - |marks.start|) && Occurs(data, RecordLine(marks.end, ending), at)
    ensures PartOf(data, marks).Ended?
  {
    hide RecordLine, RecordAt, Find, Place, IsNonce, PartOf;
    FindIsFirst(data, marks.start, 0, at - |marks.start|);
    PrintedRecord(data, at, marks.end, ending);
    var k := Cut(data, marks);
    RecordShifts(data, marks.end, k, at - k);
    PlaceIsFirst(data[k..], marks.end, 0, at - k);
    PartPast(data, marks);
  }

  lemma ThreeParts(a: Bytes, b: Bytes, c: Bytes)
    ensures a <= a + b + c && Occurs(a + b + c, b, |a|) && Occurs(a + b + c, c, |a| + |b|)
  {
    var data := a + b + c;
    Middle(a, b, c);
    Back(a, b, c);
    assert data[|a| + |b|..|a| + |b| + |c|] == data[|a| + |b|..];
  }

  /** A stream that is not framed: a login file has printed a record before the sentinel came. */
  lemma UnframedStream(marks: Marks, early: Ending, ending: Ending)
    requires IsNonce(marks.start) && IsNonce(marks.end) && early.Printable() && ending.Printable()
    ensures var data := RecordLine(marks.end, early) + marks.start + RecordLine(marks.end, ending);
            PartOf(data, marks).Ended? && !Framed(data, marks)
  {
    hide RecordLine, IsNonce, Framed, PartOf, Find, Place, Occurs;
    var first, last := RecordLine(marks.end, early), RecordLine(marks.end, ending);
    ThreeParts(first, marks.start, last);
    EarlyRecord(first + marks.start + last, marks, early);
    RecordPastSentinel(first + marks.start + last, marks, |first| + |marks.start|, ending);
  }
}
