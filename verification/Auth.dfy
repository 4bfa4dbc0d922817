/** How an authentication ended (`_auth_cause` and `_auth_ending` in executor/ssh.py): an `AuthFailure`
    carries what each source tried came to, which may be an `AuthFailure` again. */
module Auth {
  /** What a source's `result` holds: an exception, or anything else. */
  datatype Source = Failed(failure: Exception) | Succeeded

  /** `AuthFailure`; another `AuthenticationException`, with whether its class is one of the refusals; any
      other exception. */
  datatype Exception = AuthFailure(sources: seq<Source>) | Authentication(refusal: bool, text: string) | Other(detail: nat)

  datatype Ending = Closed | TimedOut | Refused | NoEnding

  const AUTH_CLOSED := "Authentication failed: transport shut down or saw EOF"
  const AUTH_TIMED_OUT := "Authentication timeout."

  /** The sources that failed, in order. */
  function Failures(sources: seq<Source>): (failures: seq<Exception>)
    ensures forall i :: 0 <= i < |failures| ==> Failed(failures[i]) in sources
  {
    if sources == [] then []
    else (if sources[0].Failed? then [sources[0].failure] else []) + Failures(sources[1..])
  }

  function CountFailed(sources: seq<Source>): nat {
    if sources == [] then 0 else CountFailed(sources[..|sources| - 1]) + if sources[|sources| - 1].Failed? then 1 else 0
  }

  /** Every source that failed is there, in order, and no other. */
  lemma {:induction false} FailuresExactly(sources: seq<Source>, k: nat)
    requires k <= |sources|
    ensures |Failures(sources)| == CountFailed(sources) && CountFailed(sources[..k]) <= CountFailed(sources)
    ensures k < |sources| && sources[k].Failed? ==>
              CountFailed(sources[..k]) < CountFailed(sources) && Failures(sources)[CountFailed(sources[..k])] == sources[k].failure
  {
    hide CountFailed;
    NoneFailed();
    if sources != [] {
      var rest := sources[1..];
      CountFront(sources, |sources|);
      CountFront(sources, k);
      FailuresExactly(rest, if k == 0 then 0 else k - 1);
      assert sources[..|sources|] == sources && rest[..|rest|] == rest && sources[..0] == [];
    }
  }

  lemma NoneFailed()
    ensures CountFailed([]) == 0
  {
  }

  lemma {:induction false} CountFront(sources: seq<Source>, k: nat)
    requires 0 < |sources| && k <= |sources|
    ensures k > 0 ==> CountFailed(sources[..k]) == (if sources[0].Failed? then 1 else 0) + CountFailed(sources[1..][..k - 1])
  {
    if k > 1 {
      CountFront(sources, k - 1);
      assert sources[..k][..k - 1] == sources[..k - 1] && sources[1..][..k - 1][..k - 2] == sources[1..][..k - 2];
    } else if k == 1 {
      assert sources[..1][..0] == [] && sources[1..][..0] == [];
    }
  }

  function Size(exc: Exception): nat
    decreases exc, 0
  {
    if exc.AuthFailure? then 1 + Sizes(exc, |exc.sources|) else 0
  }

  /** Of the first `n` sources. */
  function Sizes(exc: Exception, n: nat): nat
    requires exc.AuthFailure? && n <= |exc.sources|
    decreases exc, 0, n
  {
    if n == 0 then 0
    else Sizes(exc, n - 1) + if exc.sources[n - 1].Failed? then Size(exc.sources[n - 1].failure) else 0
  }

  lemma {:induction false} FailureIsSmaller(exc: Exception, n: nat, failure: Exception)
    requires exc.AuthFailure? && n <= |exc.sources| && Failed(failure) in exc.sources[..n]
    ensures Size(failure) <= Sizes(exc, n)
  {
    if exc.sources[n - 1] != Failed(failure) {
      FailureIsSmaller(exc, n - 1, failure);
    }
  }

  predicate AllSmaller(failures: seq<Exception>, bound: nat) {
    forall i :: 0 <= i < |failures| ==> Size(failures[i]) < bound
  }

  lemma FailuresAreSmaller(exc: Exception)
    requires exc.AuthFailure?
    ensures AllSmaller(Failures(exc.sources), Size(exc))
  {
    var n := |exc.sources|;
    assert exc.sources[..n] == exc.sources;
    forall i | 0 <= i < |Failures(exc.sources)| ensures Size(Failures(exc.sources)[i]) < Size(exc) {
      FailureIsSmaller(exc, n, Failures(exc.sources)[i]);
    }
  }

  /** The first failure that is no refusal, if there is one, from `failures` on. */
  function FirstOther(failures: seq<Exception>, bound: nat): (k: nat)
    requires AllSmaller(failures, bound)
    ensures k <= |failures|
    decreases bound, 0, |failures|
  {
    if failures == [] || AuthEnding(failures[0]) != Refused then 0 else 1 + FirstOther(failures[1..], bound)
  }

  /** `_auth_cause` */
  function AuthCause(exc: Exception): (cause: Exception)
    ensures cause == exc || Size(cause) < Size(exc)
    decreases Size(exc), 1
  {
    if !exc.AuthFailure? then exc
    else
      var failures := Failures(exc.sources);
      FailuresAreSmaller(exc);
      var k := FirstOther(failures, Size(exc));
      if k < |failures| then AuthCause(failures[k]) else if failures != [] then failures[|failures| - 1] else exc
  }

  /** `_auth_ending` */
  function AuthEnding(exc: Exception): Ending
    decreases Size(exc), 2
  {
    match exc
    case AuthFailure(_) =>
      var cause := AuthCause(exc);
      if cause == exc then Refused else AuthEnding(cause)
    case Authentication(refusal, text) =>
      if refusal then Refused else if text == AUTH_CLOSED then Closed else if text == AUTH_TIMED_OUT then TimedOut else Refused
    case Other(_) => NoEnding
  }

  // ----- leaves -----

  /** The failures themselves, left to right; an `AuthFailure` that tried nothing is one. */
  function Leaves(exc: Exception): (leaves: seq<Exception>)
    decreases Size(exc), 1
  {
    if !exc.AuthFailure? || Failures(exc.sources) == [] then [exc]
    else
      FailuresAreSmaller(exc);
      AllLeaves(Failures(exc.sources), Size(exc))
  }

  function AllLeaves(failures: seq<Exception>, bound: nat): seq<Exception>
    requires AllSmaller(failures, bound)
    decreases bound, 0, |failures|
  {
    if failures == [] then [] else Leaves(failures[0]) + AllLeaves(failures[1..], bound)
  }

  /** The first leaf that is no refusal. */
  function Decisive(leaves: seq<Exception>): (k: nat)
    ensures k <= |leaves| && (k < |leaves| ==> AuthEnding(leaves[k]) != Refused)
    ensures forall i :: 0 <= i < k ==> AuthEnding(leaves[i]) == Refused
  {
    if leaves == [] || AuthEnding(leaves[0]) != Refused then 0 else 1 + Decisive(leaves[1..])
  }

  /** The ending the leaves give: a refusal when all of them are, else the first other's. */
  function Verdict(leaves: seq<Exception>): Ending {
    if Decisive(leaves) < |leaves| then AuthEnding(leaves[Decisive(leaves)]) else Refused
  }

  lemma {:induction false} DecisiveConcat(a: seq<Exception>, b: seq<Exception>)
    ensures Verdict(a + b) == if Verdict(a) != Refused then Verdict(a) else Verdict(b)
  {
    hide AuthEnding;
    if a == [] {
      assert a + b == b;
    } else {
      assert (a + b)[1..] == a[1..] + b;
      DecisiveConcat(a[1..], b);
      VerdictStep(a + b);
      VerdictStep(a);
    }
  }

  lemma VerdictStep(leaves: seq<Exception>)
    requires leaves != []
    ensures Verdict(leaves) == if AuthEnding(leaves[0]) != Refused then AuthEnding(leaves[0]) else Verdict(leaves[1..])
  {
    hide AuthEnding;
  }

  /** The ending of a failed authentication. */
  function VerdictOf(failures: seq<Exception>, bound: nat): Ending
    requires AllSmaller(failures, bound)
  {
    var k := FirstOther(failures, bound);
    if k < |failures| then AuthEnding(failures[k]) else Refused
  }

  lemma {:induction false} FirstOtherStops(failures: seq<Exception>, bound: nat)
    requires AllSmaller(failures, bound)
    ensures var k := FirstOther(failures, bound);
            && (k < |failures| ==> AuthEnding(failures[k]) != Refused)
            && (forall i :: 0 <= i < k ==> AuthEnding(failures[i]) == Refused)
    decreases |failures|
  {
    hide AuthEnding;
    if failures != [] && AuthEnding(failures[0]) == Refused {
      FirstOtherStops(failures[1..], bound);
    }
  }

  lemma VerdictOfNone()
    ensures Verdict([]) == Refused
  {
  }

  lemma VerdictOfStep(failures: seq<Exception>, bound: nat)
    requires AllSmaller(failures, bound) && failures != []
    ensures VerdictOf(failures, bound)
         == if AuthEnding(failures[0]) != Refused then AuthEnding(failures[0]) else VerdictOf(failures[1..], bound)
  {
    hide AuthEnding;
  }

  lemma {:induction false} FailuresVerdict(failures: seq<Exception>, bound: nat)
    requires AllSmaller(failures, bound)
    ensures VerdictOf(failures, bound) == Verdict(AllLeaves(failures, bound))
    decreases bound, 0, |failures|
  {
    hide AuthEnding, Verdict, Leaves, VerdictOf;
    if failures == [] {
      VerdictOfNone();
      NoFailures(bound);
    } else {
      FailuresVerdict(failures[1..], bound);
      EndingIsVerdict(failures[0]);
      DecisiveConcat(Leaves(failures[0]), AllLeaves(failures[1..], bound));
      VerdictOfStep(failures, bound);
    }
  }

  lemma NoFailures(bound: nat)
    ensures VerdictOf([], bound) == Refused
  {
  }

  /** A failure ends as its sources' failures do. */
  lemma {:induction false} CauseEnding(exc: Exception)
    requires exc.AuthFailure? && Failures(exc.sources) != [] && AllSmaller(Failures(exc.sources), Size(exc))
    ensures AuthEnding(exc) == VerdictOf(Failures(exc.sources), Size(exc))
    decreases Size(exc), 0
  {
    var failures := Failures(exc.sources);
    FirstOtherStops(failures, Size(exc));
    var k := FirstOther(failures, Size(exc));
    if k < |failures| {
      var failure := failures[k];
      assert AuthCause(exc) == AuthCause(failure);
      if failure.AuthFailure? && Failures(failure.sources) != [] {
        FailuresAreSmaller(failure);
        CauseEnding(failure);
      }
    }
  }

  /** For every tree of failures, whatever its depth: refused exactly when every leaf is a refusal, else as
      the first leaf that is none ended, left to right. */
  lemma {:induction false} EndingIsVerdict(exc: Exception)
    ensures AuthEnding(exc) == Verdict(Leaves(exc))
    decreases Size(exc), 1
  {
    hide Verdict;
    if exc.AuthFailure? && Failures(exc.sources) != [] {
      FailuresAreSmaller(exc);
      FailuresVerdict(Failures(exc.sources), Size(exc));
      CauseEnding(exc);
    } else {
      VerdictStep([exc]);
      VerdictOfNone();
      assert [exc][1..] == [];
    }
  }

  lemma RefusedExactly(exc: Exception)
    ensures AuthEnding(exc) == Refused <==> forall i :: 0 <= i < |Leaves(exc)| ==> AuthEnding(Leaves(exc)[i]) == Refused
    ensures AuthEnding(exc) != Refused ==>
              var k := Decisive(Leaves(exc));
              && k < |Leaves(exc)| && AuthEnding(exc) == AuthEnding(Leaves(exc)[k])
              && forall i :: 0 <= i < k ==> AuthEnding(Leaves(exc)[i]) == Refused
  {
    hide AuthEnding, Leaves;
    EndingIsVerdict(exc);
  }

  // ----- leaves and causes -----

  /** How a leaf ends: the link closed or the time ran out, by their own words and unless the class is a refusal's; any
      other authentication, and one that tried nothing, refused; what is no authentication, not at all. */
  lemma LeafEndsAs(exc: Exception)
    ensures exc.Other? <==> AuthEnding(exc).NoEnding? && !exc.AuthFailure?
    ensures exc.Authentication? ==>
              && (AuthEnding(exc) == Closed <==> !exc.refusal && exc.text == AUTH_CLOSED)
              && (AuthEnding(exc) == TimedOut <==> !exc.refusal && exc.text == AUTH_TIMED_OUT)
              && (AuthEnding(exc) == Refused <==> exc.refusal || (exc.text != AUTH_CLOSED && exc.text != AUTH_TIMED_OUT))
    ensures exc.AuthFailure? && Failures(exc.sources) == [] ==> AuthEnding(exc) == Refused
  {
    assert AUTH_CLOSED[15] == 'f' && AUTH_TIMED_OUT[15] == 't';
  }

  /** The failure that decides: that of the first source not refused, as it decides itself; else the last source's
      refusal; and an exception itself where it carries no source's failure. */
  lemma CauseIs(exc: Exception, k: nat)
    ensures !exc.AuthFailure? || Failures(exc.sources) == [] ==> AuthCause(exc) == exc
    ensures exc.AuthFailure? && k < |Failures(exc.sources)| && AuthEnding(Failures(exc.sources)[k]) != Refused
            && (forall i :: 0 <= i < k ==> AuthEnding(Failures(exc.sources)[i]) == Refused) ==>
              AuthCause(exc) == AuthCause(Failures(exc.sources)[k])
    ensures exc.AuthFailure? && Failures(exc.sources) != []
            && (forall i :: 0 <= i < |Failures(exc.sources)| ==> AuthEnding(Failures(exc.sources)[i]) == Refused) ==>
              AuthCause(exc) == Failures(exc.sources)[|Failures(exc.sources)| - 1]
  {
    hide AuthEnding, AuthCause, FirstOther, Failures, Size;
    if exc.AuthFailure? {
      FailuresAreSmaller(exc);
      CauseStep(exc);
      FirstOtherStops(Failures(exc.sources), Size(exc));
    } else {
      NoCause(exc);
    }
  }

  lemma NoCause(exc: Exception)
    ensures !exc.AuthFailure? ==> AuthCause(exc) == exc
  {
  }

  lemma CauseStep(exc: Exception)
    requires exc.AuthFailure? && AllSmaller(Failures(exc.sources), Size(exc))
    ensures var failures := Failures(exc.sources);
            var k := FirstOther(failures, Size(exc));
            AuthCause(exc) == if k < |failures| then AuthCause(failures[k]) else if failures != [] then failures[|failures| - 1] else exc
  {
    hide AuthEnding, FirstOther, Failures, Size;
  }
}
