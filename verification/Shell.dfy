/** What a shell makes of a command's output, and the launch that rests on it (`ssh_command` and
    `BOOTSTRAP` in executor/launch.py). */
module Shell {
  import opened Bytes
  import opened Wrappers
  import opened Words
  import Base64

  const NEWLINE: byte := 10
  const DOT: byte := 46

  predicate EndsWith(output: Bytes, b: byte) { output != [] && output[|output| - 1] == b }

  /** `$(…)`: the trailing newlines go, and so does every NUL. */
  function Captured(output: Bytes): Bytes {
    if EndsWith(output, NEWLINE) then Captured(output[..|output| - 1]) else WithoutNul(output)
  }

  function WithoutNul(output: Bytes): Bytes {
    if output == [] then [] else (if output[0] == 0 then [] else [output[0]]) + WithoutNul(output[1..])
  }

  lemma {:induction false} NothingToDrop(output: Bytes)
    requires 0 !in output
    ensures WithoutNul(output) == output
  {
    if output != [] {
      NothingToDrop(output[1..]);
    }
  }

  lemma {:induction false} CapturedIsShorter(output: Bytes)
    ensures |Captured(output)| <= |output|
  {
    if EndsWith(output, NEWLINE) {
      CapturedIsShorter(output[..|output| - 1]);
    } else {
      WithoutNulIsShorter(output);
    }
  }

  lemma {:induction false} WithoutNulIsShorter(output: Bytes)
    ensures |WithoutNul(output)| <= |output|
  {
    if output != [] {
      WithoutNulIsShorter(output[1..]);
    }
  }

  /** Output without a NUL is captured as it is exactly when no newline ends it. */
  lemma CapturedExactly(output: Bytes)
    requires 0 !in output
    ensures Captured(output) == output <==> !EndsWith(output, NEWLINE)
  {
    if EndsWith(output, NEWLINE) {
      CapturedIsShorter(output[..|output| - 1]);
    } else {
      NothingToDrop(output);
    }
  }

  /** No NUL is ever captured. */
  lemma {:induction false} NoNulCaptured(output: Bytes)
    ensures 0 !in WithoutNul(output) && 0 !in Captured(output)
  {
    if output != [] {
      NoNulCaptured(output[1..]);
      if EndsWith(output, NEWLINE) {
        NoNulCaptured(output[..|output| - 1]);
      }
    }
  }

  predicate AllNewlines(output: Bytes) { forall i :: 0 <= i < |output| ==> output[i] == NEWLINE }

  /** What is captured of output without a NUL is all of it but the newlines at its end. */
  lemma {:induction false} CapturedIs(output: Bytes)
    requires 0 !in output
    ensures Captured(output) <= output && AllNewlines(output[|Captured(output)|..]) && !EndsWith(Captured(output), NEWLINE)
  {
    if EndsWith(output, NEWLINE) {
      var front := output[..|output| - 1];
      CapturedIs(front);
      assert output == front + [NEWLINE];
      assert output[|Captured(front)|..] == front[|Captured(front)|..] + [NEWLINE];
    } else {
      NothingToDrop(output);
    }
  }

  // ----- the launch over SSH -----

  /** `"${p%.}"` */
  function WithoutDot(p: Bytes): Bytes {
    if EndsWith(p, DOT) then p[..|p| - 1] else p
  }

  /** The program the bootstrap starts for the word in `$1`: what is decoded, a full stop printed after it,
      captured, and the full stop taken off; None where decoding fails. */
  function Launched(word: string): Option<Bytes> {
    var decoded := Base64.Decode(word);
    if decoded.None? then None else Some(WithoutDot(Captured(decoded.value + [DOT])))
  }

  lemma {:induction false} EncodedIsSafe(b: Bytes)
    ensures AllSafe(Base64.Encode(b))
  {
    if |b| >= 3 {
      EncodedIsSafe(b[3..]);
    }
  }

  /** The program arrives exactly, its trailing newlines with it, as one word that needs no quoting. */
  lemma ProgramArrives(prog: Bytes)
    requires prog != [] && 0 !in prog
    ensures Launched(Base64.Encode(prog)) == Some(prog)
    ensures Fields(Base64.Encode(prog), Plain, Option.None) == Some([Literals(Base64.Encode(prog))])
  {
    hide Base64.Encode, Base64.Decode, Fields;
    var word := Base64.Encode(prog);
    Base64.RoundTrip(prog);
    CapturedExactly(prog + [DOT]);
    assert (prog + [DOT])[..|prog|] == prog;
    EncodedIsSafe(prog);
    EncodedIsSome(prog);
    SafeWordReads(word, "", Option.None);
    assert word + "" == word && [] + Literals(word) == Literals(word);
    NothingMore(Literals(word));
  }

  /** A word that is not what base64 prints starts nothing, rather than an empty program. */
  lemma BadWordStartsNothing(word: string)
    ensures !Base64.WellFormed(word) ==> Launched(word).None?
  {
    Base64.DecodesExactly(word);
  }

  lemma EncodedIsSome(b: Bytes)
    requires b != []
    ensures Base64.Encode(b) != []
  {
  }

  lemma NothingMore(word: Field)
    ensures Fields("", Plain, Some(word)) == Some([word])
  {
    assert [word] + [] == [word];
  }
}
