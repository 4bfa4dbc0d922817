/** A local or delegated launch (`_Pipes`, `run_process` in executor/launch.py): two pipes read without
    blocking, each done at its end or at its end record. */
module Pipes {
  import opened Bytes
  import opened Wrappers
  import opened Records
  import opened Framing
  import opened Collect

  /** What one `_read` finds: all the pipe holds now, and whether it has ended. */
  datatype Chunk = Chunk(data: Bytes, eof: bool)

  /** What the class's fields amount to; stdout is stream 0 and stderr stream 1. */
  datatype State = State(bufs: seq<Bytes>, done: seq<bool>, recorded: bool) {
    predicate Wf() { |bufs| == 2 && |done| == 2 }

    /** `complete` */
    predicate Complete()
      requires Wf()
    {
      done[0] && done[1]
    }
  }

  const FRESH: State := State([[], []], [false, false], false)

  /** `_read`: the record is looked for in the whole of what the stream has carried. */
  function ReadStep(s: State, i: nat, chunk: Chunk, end: Option<Bytes>): (s': State)
    requires s.Wf() && i < 2
    ensures s'.Wf()
  {
    var buf := s.bufs[i] + chunk.data;
    var ended := !chunk.eof && end.Some? && !s.done[i] && HasRecord(buf, end.value);
    State(s.bufs[i := buf], s.done[i := s.done[i] || chunk.eof || ended], s.recorded || ended)
  }

  /** A read of stream `i`, if it is not done. */
  function ReadOpen(s: State, i: nat, chunk: Option<Chunk>, end: Option<Bytes>): (s': State)
    requires s.Wf() && i < 2
    ensures s'.Wf()
  {
    if chunk.Some? && !s.done[i] then ReadStep(s, i, chunk.value, end) else s
  }

  /** The pipes of one launch. */
  class Pipes {
    const end: Option<Bytes>
    var bufs: seq<Bytes>
    var scanned: seq<nat>
    var done: seq<bool>
    var recorded: bool

    ghost predicate Valid()
      reads this
    {
      |bufs| == |done| == |scanned| == 2
      && forall i :: 0 <= i < 2 && !done[i] && end.Some? ==> Scanned(scanned[i], bufs[i], end.value)
    }

    ghost function Abstract(): State
      reads this
    {
      State(bufs, done, recorded)
    }

    constructor (end: Option<Bytes>)
      ensures Valid() && Abstract() == FRESH && this.end == end
    {
      this.end := end;
      bufs, scanned, done, recorded := [[], []], [0, 0], [false, false], false;
    }

    /** `_read`: the scan resumes where the last one stopped. */
    method ReadStream(i: nat, chunk: Chunk)
      requires Valid() && i < 2
      modifies this
      ensures Valid() && Abstract() == ReadStep(old(Abstract()), i, chunk, end)
    {
      ghost var before := bufs[i];
      bufs := bufs[i := bufs[i] + chunk.data];
      if chunk.eof {
        done := done[i := true];
        return;
      }
      if end.Some? && !done[i] {
        var found := Record(bufs[i], end.value, scanned[i]);
        ResumeSkipsNothing(before, bufs[i], end.value);
        if found.Some? {
          recorded := true;
          done := done[i := true];
        } else {
          scanned := scanned[i := Resume(|bufs[i]|, end.value)];
        }
      }
    }

    /** `wait` and `drain`: each ready stream that is not done is read. */
    method ReadReady(ready: seq<Option<Chunk>>)
      requires Valid() && |ready| == 2
      modifies this
      ensures Valid() && Abstract() == ReadOpen(ReadOpen(old(Abstract()), 0, ready[0], end), 1, ready[1], end)
    {
      hide HasRecord;
      if ready[0].Some? && !done[0] {
        ReadStream(0, ready[0].value);
      }
      if ready[1].Some? && !done[1] {
        ReadStream(1, ready[1].value);
      }
    }
  }

  // ----- a launch -----

  /** One turn of the loop: what `poll` says, what a drain of an exited launch finds, the streams found
      ready by `wait`, the status of a launch reaped after its record, whether the deadline has passed
      and what is read while the group is stopped. */
  datatype Turn = Turn(poll: Option<int>, drained: seq<Option<Chunk>>, ready: seq<Option<Chunk>>, reaped: int,
                       expired: bool, stopping: seq<Option<Chunk>>)
  {
    predicate Wf() { |drained| == |ready| == |stopping| == 2 }
  }

  function Both(s: State, chunks: seq<Option<Chunk>>, end: Option<Bytes>): (s': State)
    requires s.Wf() && |chunks| == 2
    ensures s'.Wf()
  {
    ReadOpen(ReadOpen(s, 0, chunks[0], end), 1, chunks[1], end)
  }

  /** How a turn ends the launch; None to go on. */
  function TurnEnds(turn: Turn, s: State, end: Option<Bytes>): Option<Read>
    requires s.Wf() && turn.Wf()
  {
    if s.Complete() && s.recorded then Some(Read(s.bufs[0], s.bufs[1], turn.reaped, []))
    else if turn.poll.Some? then
      var s' := Both(s, turn.drained, end);
      Some(Read(s'.bufs[0], s'.bufs[1], turn.poll.value, []))
    else if turn.expired then
      var s' := Both(s, turn.stopping, end);
      Some(Read(s'.bufs[0], s'.bufs[1], TIMEOUT_EXIT_CODE, []))
    else None
  }

  function Ran(script: seq<Turn>, s: State, end: Option<Bytes>): Option<Read>
    requires s.Wf() && forall i :: 0 <= i < |script| ==> script[i].Wf()
  {
    if script == [] then None
    else
      var ended := TurnEnds(script[0], s, end);
      if ended.Some? then ended else Ran(script[1..], Both(s, script[0].ready, end), end)
  }

  /** `run_process` */
  method RunProcess(script: seq<Turn>, end: Option<Bytes>) returns (read: Option<Read>)
    requires forall i :: 0 <= i < |script| ==> script[i].Wf()
    ensures read == Ran(script, FRESH, end)
  {
    hide ReadOpen, HasRecord;
    var pipes := new Pipes(end);
    for i := 0 to |script|
      invariant pipes.Valid() && pipes.end == end && fresh(pipes)
      invariant Ran(script, FRESH, end) == Ran(script[i..], pipes.Abstract(), end)
    {
      var turn := script[i];
      assert script[i..][1..] == script[i + 1..];
      if pipes.done[0] && pipes.done[1] && pipes.recorded {
        return Some(Read(pipes.bufs[0], pipes.bufs[1], turn.reaped, []));
      }
      if turn.poll.Some? {
        pipes.ReadReady(turn.drained);
        return Some(Read(pipes.bufs[0], pipes.bufs[1], turn.poll.value, []));
      }
      if turn.expired {
        pipes.ReadReady(turn.stopping);
        return Some(Read(pipes.bufs[0], pipes.bufs[1], TIMEOUT_EXIT_CODE, []));
      }
      pipes.ReadReady(turn.ready);
    }
    read := None;
  }

  // ----- how a launch ends, by what its turns find -----

  /** What the pipes hold before turn `n`. */
  function HeldBy(script: seq<Turn>, s: State, end: Option<Bytes>, n: nat): (s': State)
    requires s.Wf() && n <= |script| && forall i :: 0 <= i < |script| ==> script[i].Wf()
    ensures s'.Wf()
    decreases n
  {
    if n == 0 then s
    else
      assert script[0].Wf();
      HeldBy(script[1..], Both(s, script[0].ready, end), end, n - 1)
  }

  /** A turn that leaves the launch going: a stream is not done, or no record was seen, and the launch has not
      exited, nor the deadline passed. */
  predicate TurnGoesOn(turn: Turn, s: State)
    requires s.Wf()
  {
    !(s.done[0] && s.done[1] && s.recorded) && turn.poll.None? && !turn.expired
  }

  /** What the first other turn ends it with: both streams done, a record among them, all that was read and the
      status it was reaped with; a launch that exited, its status and all a last drain finds; the deadline, a
      timeout and what is read while the group is stopped. There is never a note. */
  predicate TurnEndsAs(read: Read, turn: Turn, s: State, end: Option<Bytes>)
    requires s.Wf() && turn.Wf()
  {
    var complete := s.done[0] && s.done[1] && s.recorded;
    && read.note == []
    && (complete ==> read.out == s.bufs[0] && read.err == s.bufs[1] && read.code == turn.reaped)
    && (!complete && turn.poll.Some? ==>
          read.out == More(s, 0, turn.drained) && read.err == More(s, 1, turn.drained) && read.code == turn.poll.value)
    && (!complete && turn.poll.None? ==>
          read.out == More(s, 0, turn.stopping) && read.err == More(s, 1, turn.stopping) && read.code == TIMEOUT_EXIT_CODE)
  }

  /** What a stream holds once it has been read, if it is not done and there is something to find. */
  function More(s: State, i: nat, chunks: seq<Option<Chunk>>): Bytes
    requires s.Wf() && |chunks| == 2 && i < 2
  {
    if chunks[i].Some? && !s.done[i] then s.bufs[i] + chunks[i].value.data else s.bufs[i]
  }

  /** A read adds what it finds, and the stream is done at its end, or once it holds its record. */
  lemma ReadIs(s: State, i: nat, chunk: Option<Chunk>, end: Option<Bytes>)
    requires s.Wf() && i < 2
    ensures var s' := ReadOpen(s, i, chunk, end);
            && s'.bufs[1 - i] == s.bufs[1 - i] && s'.done[1 - i] == s.done[1 - i]
            && (s.done[i] || chunk.None? ==> s' == s)
            && (!s.done[i] && chunk.Some? ==>
                  && s'.bufs[i] == s.bufs[i] + chunk.value.data
                  && (s'.done[i] <==> chunk.value.eof || (end.Some? && HasRecord(s'.bufs[i], end.value)))
                  && (s'.recorded <==> s.recorded || (!chunk.value.eof && end.Some? && HasRecord(s'.bufs[i], end.value))))
  {
    hide HasRecord;
  }

  /** Both streams, each by what was found of it. */
  lemma BothIs(s: State, chunks: seq<Option<Chunk>>, end: Option<Bytes>)
    requires s.Wf() && |chunks| == 2
    ensures Both(s, chunks, end).bufs[0] == More(s, 0, chunks) && Both(s, chunks, end).bufs[1] == More(s, 1, chunks)
  {
    hide HasRecord, ReadOpen;
    ReadIs(s, 0, chunks[0], end);
    ReadIs(ReadOpen(s, 0, chunks[0], end), 1, chunks[1], end);
  }

  predicate TurnsGoOn(script: seq<Turn>, s: State, end: Option<Bytes>, n: nat)
    requires s.Wf() && n <= |script| && forall i :: 0 <= i < |script| ==> script[i].Wf()
  {
    forall j :: 0 <= j < n ==> TurnGoesOn(script[j], HeldBy(script, s, end, j))
  }

  /** For every script: the launch goes on through all its turns, or ends as the first that does not leave it going
      says. */
  lemma {:induction false} LaunchEndsExactly(script: seq<Turn>, s: State, end: Option<Bytes>, n: nat)
    requires s.Wf() && n <= |script| && (forall i :: 0 <= i < |script| ==> script[i].Wf()) && TurnsGoOn(script, s, end, n)
    ensures n == |script| ==> Ran(script, s, end).None?
    ensures n < |script| && !TurnGoesOn(script[n], HeldBy(script, s, end, n)) ==>
              Ran(script, s, end).Some? && TurnEndsAs(Ran(script, s, end).value, script[n], HeldBy(script, s, end, n), end)
    decreases n
  {
    hide Both, More;
    if script != [] {
      assert HeldBy(script, s, end, 0) == s;
      if n == 0 {
        BothIs(s, script[0].drained, end);
        BothIs(s, script[0].stopping, end);
      } else {
        var next := Both(s, script[0].ready, end);
        assert TurnGoesOn(script[0], HeldBy(script, s, end, 0));
        forall j | 0 <= j < n - 1 ensures TurnGoesOn(script[1..][j], HeldBy(script[1..], next, end, j)) {
          assert TurnGoesOn(script[j + 1], HeldBy(script, s, end, j + 1));
        }
        LaunchEndsExactly(script[1..], next, end, n - 1);
      }
    }
  }

  /** The code of a launch is what `poll` said, the status it was reaped with, or a timeout. */
  lemma {:induction false} RanCode(script: seq<Turn>, s: State, end: Option<Bytes>)
    requires s.Wf() && (forall i :: 0 <= i < |script| ==> script[i].Wf()) && Ran(script, s, end).Some?
    ensures var code := Ran(script, s, end).value.code;
            code == TIMEOUT_EXIT_CODE || exists i :: 0 <= i < |script| && (code == script[i].reaped || script[i].poll == Some(code))
    decreases script
  {
    hide ReadOpen;
    if TurnEnds(script[0], s, end).None? {
      var next := Both(s, script[0].ready, end);
      RanCode(script[1..], next, end);
      var code := Ran(script[1..], next, end).value.code;
      if code != TIMEOUT_EXIT_CODE {
        var i :| 0 <= i < |script[1..]| && (code == script[1..][i].reaped || script[1..][i].poll == Some(code));
        assert code == script[i + 1].reaped || script[i + 1].poll == Some(code);
      }
    }
  }

  // ----- schedules -----

  /** Each buffer is a start of its stream, and one whose stream is done holds its record. */
  predicate Reading(s: State, totals: seq<Bytes>, end: Bytes) {
    s.Wf() && |totals| == 2
    && forall i :: 0 <= i < 2 ==> s.bufs[i] <= totals[i] && (s.done[i] ==> HasRecord(s.bufs[i], end))
  }

  /** What a read of stream `i` may find: more of the stream, and its end only after all that matters. */
  predicate Finds(s: State, i: nat, chunk: Option<Chunk>, totals: seq<Bytes>, end: Bytes)
    requires s.Wf() && |totals| == 2 && i < 2
  {
    chunk.Some? && !s.done[i] ==>
      s.bufs[i] + chunk.value.data <= totals[i]
      && (chunk.value.eof ==> Covers(s.bufs[i] + chunk.value.data, totals[i], end))
  }

  predicate FindsBoth(s: State, chunks: seq<Option<Chunk>>, totals: seq<Bytes>, end: Bytes)
    requires s.Wf() && |totals| == 2 && |chunks| == 2
  {
    Finds(s, 0, chunks[0], totals, end) && Finds(s, 1, chunks[1], totals, end)
  }

  /** A script that carries the streams: a launch found exited has written all that matters of both, and
      no deadline passes. */
  predicate CarriesPipes(script: seq<Turn>, s: State, totals: seq<Bytes>, end: Bytes)
    requires s.Wf() && |totals| == 2 && forall i :: 0 <= i < |script| ==> script[i].Wf()
  {
    script == [] ||
    var turn := script[0];
    && turn.Wf() && !turn.expired
    && FindsBoth(s, turn.ready, totals, end)
    && (turn.poll.Some? ==>
          && FindsBoth(s, turn.drained, totals, end)
          && var s' := Both(s, turn.drained, Some(end));
             forall i :: 0 <= i < 2 ==> s'.done[i] || Covers(s'.bufs[i], totals[i], end))
    && CarriesPipes(script[1..], Both(s, turn.ready, Some(end)), totals, end)
  }

  lemma ReadKeeps(s: State, i: nat, chunk: Option<Chunk>, totals: seq<Bytes>, marks: Marks)
    requires Reading(s, totals, marks.end) && i < 2 && Framed(totals[i], marks)
    requires Finds(s, i, chunk, totals, marks.end)
    ensures Reading(ReadOpen(s, i, chunk, Some(marks.end)), totals, marks.end)
  {
    if chunk.Some? && !s.done[i] && chunk.value.eof {
      hide HasRecord, Framed;
      CoveredEnds(s.bufs[i] + chunk.value.data, totals[i], marks);
    }
  }

  lemma BothKeeps(s: State, chunks: seq<Option<Chunk>>, totals: seq<Bytes>, marks: Marks)
    requires Reading(s, totals, marks.end) && |chunks| == 2 && Framed(totals[0], marks) && Framed(totals[1], marks)
    requires FindsBoth(s, chunks, totals, marks.end)
    ensures Reading(Both(s, chunks, Some(marks.end)), totals, marks.end)
  {
    hide HasRecord, Framed, Covers;
    ReadKeeps(s, 0, chunks[0], totals, marks);
    ReadKeeps(ReadOpen(s, 0, chunks[0], Some(marks.end)), 1, chunks[1], totals, marks);
  }

  /** A launch serves, on every schedule, the result a channel serves of the same two streams. */
  lemma {:induction false} LaunchIndependent(script: seq<Turn>, s: State, totals: seq<Bytes>, marks: Marks)
    requires |totals| == 2 && BothFramed(totals[0], totals[1], marks)
    requires Reading(s, totals, marks.end) && forall i :: 0 <= i < |script| ==> script[i].Wf()
    requires CarriesPipes(script, s, totals, marks.end)
    requires Ran(script, s, Some(marks.end)).Some? && !Interrupted(Ran(script, s, Some(marks.end)).value.code)
    ensures var read := Ran(script, s, Some(marks.end)).value;
            Separated(read.out, read.err, read.code, marks, read.note) == Separated(totals[0], totals[1], 0, marks, [])
    decreases script
  {
    hide Separated, Framed, HasRecord, Covers, ReadOpen;
    var turn := script[0];
    var ended := TurnEnds(turn, s, Some(marks.end));
    if ended.Some? {
      if !(s.Complete() && s.recorded) {
        BothKeeps(s, turn.drained, totals, marks);
        var s' := Both(s, turn.drained, Some(marks.end));
        if !s'.done[0] { CoveredEnds(s'.bufs[0], totals[0], marks); }
        if !s'.done[1] { CoveredEnds(s'.bufs[1], totals[1], marks); }
      }
      CutsAgree(ended.value, totals[0], totals[1], marks);
    } else {
      BothKeeps(s, turn.ready, totals, marks);
      LaunchIndependent(script[1..], Both(s, turn.ready, Some(marks.end)), totals, marks);
    }
  }

  /** One result for both wires: a channel read and a launch of the same two streams are served alike. */
  lemma WiresAgree(rounds: seq<Round>, turns: seq<Turn>, total: Bytes, total': Bytes, marks: Marks)
    requires BothFramed(total, total', marks)
    requires Carries(rounds, [], [], total, total', marks.end)
    requires Collected(rounds, [], [], Some(marks.end)).Some?
    requires forall i :: 0 <= i < |rounds| ==> !Interrupted(rounds[i].Code())
    requires forall i :: 0 <= i < |turns| ==> turns[i].Wf()
    requires CarriesPipes(turns, FRESH, [total, total'], marks.end)
    requires Ran(turns, FRESH, Some(marks.end)).Some? && !Interrupted(Ran(turns, FRESH, Some(marks.end)).value.code)
    ensures var a, b := Collected(rounds, [], [], Some(marks.end)).value, Ran(turns, FRESH, Some(marks.end)).value;
            Separated(a.out, a.err, a.code, marks, a.note) == Separated(b.out, b.err, b.code, marks, b.note)
  {
    hide Separated, Framed, HasRecord, Covers, ReadOpen, Carries, CarriesPipes, Collected, Ran;
    ScheduleIndependent(rounds, [], [], total, total', marks);
    LaunchIndependent(turns, FRESH, [total, total'], marks);
  }
}
