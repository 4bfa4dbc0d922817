/** The reconnect protocol on a clock: how many failures a call can meet, and, on an ideal clock, that it
    starts or joins nothing after its last start, returns by its deadline, meets at most one aborted
    attempt between two failures, and takes finitely many steps.

    An ideal clock moves only while every call sleeps, waits on an attempt whose outcome has not come,
    or has returned, and never past the end of a sleep or of a wait. */
module ReconnectTime {
  import opened Wrappers
  import opened Regions
  import opened Reconnect
  import opened ReconnectSafety

  // ----- backoff, on any clock -----

  /** The wait after the `n`th failure. */
  function Delay(n: nat): (d: Time)
    ensures INITIAL_RECONNECT_DELAY <= d <= MAX_RECONNECT_DELAY
  {
    if n == 0 then INITIAL_RECONNECT_DELAY else Min(Delay(n - 1) * 2.0, MAX_RECONNECT_DELAY)
  }

  /** The first `n` waits together. */
  function Backoff(n: nat): (t: Time)
    ensures t >= 0.5 * n as real
  {
    if n == 0 then 0.0 else Backoff(n - 1) + Delay(n - 1)
  }

  lemma {:induction false} BackoffGrows(m: nat, n: nat)
    requires m <= n
    ensures Backoff(m) <= Backoff(n)
  {
    if m < n { BackoffGrows(m, n - 1); }
  }

  /** How long a call has been at it, by the failures it has taken: it has slept every backoff but one
      its last start cut short. */
  predicate BackoffFine(call: Call, now: Time) {
    var f := call.failures;
    && call.entered <= now
    && (!call.phase.Returned? ==> call.delay == Delay(f))
    && (call.phase.Sleeping? ==> call.phase.wake >= Min(call.entered + Backoff(f), call.LastStart()))
    && (!call.phase.Sleeping? && !call.phase.Returned? ==> now >= Min(call.entered + Backoff(f), call.LastStart()))
    && (!call.phase.Returned? && f >= 1 ==> call.entered + Backoff(f - 1) < call.LastStart())
    && (call.phase.Returned? && f >= 2 ==> call.entered + Backoff(f - 2) < call.LastStart())
  }

  predicate BackoffOk(s: State, k: CallId)
    requires k in s.calls
  {
    BackoffFine(s.calls[k], s.now)
  }

  predicate BackoffInv(s: State) {
    forall k :: k in s.calls ==> BackoffOk(s, k)
  }

  lemma BackoffStays(s: State, s': State, k: CallId)
    requires k in s.calls && BackoffOk(s, k) && k in s'.calls && s'.calls[k] == s.calls[k] && s.now <= s'.now
    ensures BackoffOk(s', k)
  {
  }

  /** A failure taken as the cause: one more, and a sleep unless the last start has passed. */
  lemma BackoffAfterFailure(call: Call, now: Time)
    requires call.delay == Delay(call.failures) && now >= Min(call.entered + Backoff(call.failures), call.LastStart())
    requires now < call.LastStart()
    ensures Min(call.delay * 2.0, MAX_RECONNECT_DELAY) == Delay(call.failures + 1)
    ensures call.entered + Backoff(call.failures) < call.LastStart()
    ensures now + Min(call.delay, call.LastStart() - now) >= Min(call.entered + Backoff(call.failures + 1), call.LastStart())
  {
    var f := call.failures;
    assert Backoff(f + 1) == Backoff(f) + Delay(f);
  }

  lemma BackoffAfterVerdict(call: Call, a: AttemptId, pending: Pending, now: Time)
    requires BackoffFine(call, now) && call.phase.Judging?
    ensures BackoffFine(Verdict(call, a, pending, now), now)
  {
    hide Delay, Backoff;
    if now < call.LastStart() { BackoffAfterFailure(call, now); }
    if call.failures >= 2 { BackoffGrows(call.failures - 2, call.failures - 1); }
  }

  lemma BackoffAfterJudge(s: State, step: Step)
    requires May(s, step) && step.Judge? && BackoffOk(s, step.call)
    ensures step.call in Does(s, step).calls && BackoffOk(Does(s, step), step.call)
  {
    hide BackoffFine, Verdict;
    var a := s.calls[step.call].phase.attempt;
    BackoffAfterVerdict(s.calls[step.call], a, s.attempts[a].pending, s.now);
  }

  ghost predicate KeepsCall(call: Call, call': Call) {
    call' == call.(phase := call'.phase, joins := call'.joins) && !call'.phase.Sleeping?
  }

  lemma LockKeepsCall(s: State, k: CallId, slot: AttemptId, d: Decision)
    requires k in s.calls && (d.Join? ==> d.attempt in s.attempts)
    ensures k in Locked(s, k, slot, d).calls && KeepsCall(s.calls[k], Locked(s, k, slot, d).calls[k])
  {
  }

  /** Every other step of a call leaves its count and its delay, and does not put it to sleep. */
  lemma OtherKeepsCall(s: State, step: Step)
    requires May(s, step) && step.OfCall() && !step.Judge?
    ensures step.call in Does(s, step).calls
    ensures KeepsCall(s.calls[step.call], Does(s, step).calls[step.call]) && !s.calls[step.call].phase.Returned?
  {
    hide Does, May, Decide, Locked, Departed, AbortDecided, TransportClosed;
    if step.Lock? { LockDoes(s, step); LockKeepsCall(s, step.call, step.slot, Decide(s, s.calls[step.call], step.startFails)); }
    else if step.Leave? { LeaveDoes(s, step); DepartedIs(s, step.call); }
    else if step.Abort? { AbortDoes(s, step); AbortDecidedIs(s, step.call); }
    else if step.Close? { CloseDoes(s, step); TransportClosedIs(s, step.call, step.transport); }
    else { MoveDoes(s, step); }
  }

  lemma BackoffAfterOther(s: State, step: Step)
    requires May(s, step) && step.OfCall() && !step.Judge? && BackoffOk(s, step.call)
    ensures step.call in Does(s, step).calls && BackoffOk(Does(s, step), step.call)
  {
    hide CallDoes, Backoff, Delay;
    OtherKeepsCall(s, step);
    NowGrows(s, step);
    var f := s.calls[step.call].failures;
    if f >= 2 { BackoffGrows(f - 2, f - 1); }
    assert s.calls[step.call].phase.Sleeping? ==> s.now >= s.calls[step.call].phase.wake;
  }

  lemma BackoffKept(s: State, step: Step)
    requires BackoffInv(s) && May(s, step)
    ensures BackoffInv(Does(s, step))
  {
    hide Does, BackoffOk;
    var s' := Does(s, step);
    NowGrows(s, step);
    forall k | k in s'.calls ensures BackoffOk(s', k) {
      CallSource(s, step, k);
      if step.OfCall() && step.call == k {
        if step.Judge? { BackoffAfterJudge(s, step); } else { BackoffAfterOther(s, step); }
      } else if step.Enter? && step.call == k {
        BackoffAtFirst(s, step);
      } else {
        BackoffStays(s, s', k);
      }
    }
  }

  lemma BackoffAtFirst(s: State, step: Step)
    requires May(s, step) && step.Enter?
    ensures step.call in Does(s, step).calls && BackoffOk(Does(s, step), step.call)
  {
  }

  lemma NowGrows(s: State, step: Step)
    requires May(s, step)
    ensures s.now <= Does(s, step).now && (!step.Tick? ==> Does(s, step).now == s.now)
  {
    hide CallDoes, WorkerDoes, OpenerDoes;
    if step.Close? { CloseLeaves(s, step); }
    else if step.OfCall() { CallLeaves(s, step); }
    else if step.OfWorker() { WorkerLeaves(s, step); }
    else if step.OfOpener() { OpenerFrame(s, step); }
  }

  /** A call is touched by its own steps only. */
  lemma CallSource(s: State, step: Step, k: CallId)
    requires May(s, step) && k in Does(s, step).calls
    ensures ((step.OfCall() || step.Enter?) && step.call == k) || (k in s.calls && Does(s, step).calls[k] == s.calls[k])
  {
    hide CallDoes, WorkerDoes, OpenerDoes;
    if step.OfCall() { CallTouchesOne(s, step); }
    else if step.OfWorker() { WorkerLeaves(s, step); }
    else if step.OfOpener() { OpenerFrame(s, step); }
  }

  /** `limit` failures fill the time from a call's start to its last start. */
  predicate Fills(call: Call, limit: nat) {
    limit >= 1 && call.entered + Backoff(limit - 1) >= call.LastStart()
  }

  lemma FailuresWithin(s: State, k: CallId, limit: nat)
    requires k in s.calls && BackoffOk(s, k) && Fills(s.calls[k], limit)
    ensures s.calls[k].failures <= limit
    ensures !s.calls[k].phase.Returned? ==> s.calls[k].failures <= limit - 1 || limit == 1
  {
    var f := s.calls[k].failures;
    if f >= 2 && f - 2 >= limit - 1 { BackoffGrows(limit - 1, f - 2); }
    if f >= 1 && f - 1 >= limit - 1 { BackoffGrows(limit - 1, f - 1); }
  }

  /** Some number of failures fills any window. */
  lemma LimitExists(call: Call) returns (limit: nat)
    ensures Fills(call, limit)
  {
    var window := call.LastStart() - call.entered;
    limit := if window <= 0.0 then 1 else (2.0 * window).Floor + 2;
    assert Backoff(limit - 1) >= 0.5 * (limit - 1) as real;
  }

  /** The default window of 45 s is filled by 9. */
  lemma DefaultWindow(call: Call)
    requires call.deadline <= call.entered + 45.0
    ensures Fills(call, 9)
  {
    assert Delay(1) == 1.0 && Delay(2) == 2.0 && Delay(3) == 4.0 && Delay(4) == 8.0 && Delay(5) == 10.0;
    assert Delay(6) == 10.0 && Delay(7) == 10.0;
    assert Backoff(2) == 1.5 && Backoff(4) == 7.5 && Backoff(6) == 25.5 && Backoff(8) == 45.5;
  }

  lemma {:induction false} BackoffHolds(states: seq<State>, steps: seq<Step>, i: nat)
    requires Run(states, steps) && i < |states|
    ensures BackoffInv(states[i])
    decreases i
  {
    hide May, Does, BackoffOk;
    if i > 0 {
      BackoffHolds(states, steps, i - 1);
      BackoffKept(states[i - 1], steps[i - 1]);
    }
  }

  /** On any clock, a call with the default window takes at most 9 failures as its cause. */
  lemma AtMostNineFailures(states: seq<State>, steps: seq<Step>, i: nat, k: CallId)
    requires Run(states, steps) && i < |states| && k in states[i].calls
    requires states[i].calls[k].deadline <= states[i].calls[k].entered + 45.0
    ensures states[i].calls[k].failures <= 9
  {
    BackoffHolds(states, steps, i);
    DefaultWindow(states[i].calls[k]);
    FailuresWithin(states[i], k, 9);
  }

  // ----- an ideal clock -----

  /** How far time may pass while a call is where it is. */
  predicate Rests(s: State, call: Call, later: Time) {
    match call.phase
    case Returned(_) => true
    case Sleeping(wake) => later <= wake
    case Waiting(a, wake) => later <= wake && !DoneIn(s, a)
    case _ => false
  }

  predicate Ideal(s: State, step: Step) {
    May(s, step) && (step.Tick? && step.later != s.now ==> forall k :: k in s.calls ==> Rests(s, s.calls[k], step.later))
  }

  ghost predicate IdealRun(states: seq<State>, steps: seq<Step>) {
    Run(states, steps) && forall i :: 0 <= i < |steps| ==> Ideal(states[i], steps[i])
  }

  predicate SettledNow(s: State, a: AttemptId) { DoneIn(s, a) && s.attempts[a].settledAt == s.now }

  /** Where the clock stands, by where the call is. */
  predicate PhaseTimely(s: State, call: Call) {
    match call.phase
    case Begun => call.skipped.None? && s.now == call.entered
    case AtLock(scheduled) =>
      if scheduled then s.now <= call.LastStart() && call.skipped.None?
      else (call.skipped.None? ==> s.now == call.entered) && (call.skipped.Some? ==> SettledNow(s, call.skipped.value) && s.now <= call.deadline)
    case Sleeping(wake) => s.now <= wake <= call.LastStart() && call.skipped.None?
    case Waiting(a, wake) => s.now <= wake <= call.deadline && (DoneIn(s, a) ==> SettledNow(s, a))
    case Leaving(a) => s.now == call.deadline && (DoneIn(s, a) ==> SettledNow(s, a))
    case Aborting(a) => s.now == call.deadline && (DoneIn(s, a) ==> SettledNow(s, a))
    case Closing(a, _) => s.now == call.deadline && (DoneIn(s, a) ==> SettledNow(s, a))
    case Judging(a) => s.now <= call.deadline && SettledNow(s, a)
    case Returned(_) => true
  }

  /** A call that has just met an aborted attempt is on one that is not. */
  predicate MeetsOne(s: State, call: Call) {
    (call.phase.Waiting? || call.phase.Leaving? || call.phase.Judging?) && call.skipped.Some? ==>
      call.phase.attempt in s.attempts && !s.attempts[call.phase.attempt].pending.aborted
  }

  predicate Joining(phase: Phase) { phase.Waiting? || phase.Leaving? || phase.Aborting? || phase.Closing? || phase.Judging? }

  /** Attempts met, by failures taken. */
  predicate JoinsOk(call: Call) {
    call.joins <= 2 * call.failures + One(call.skipped.Some?) + One(Joining(call.phase) || call.phase.Returned?)
  }

  predicate CallTimely(s: State, k: CallId)
    requires k in s.calls
  {
    PhaseTimely(s, s.calls[k]) && MeetsOne(s, s.calls[k]) && JoinsOk(s.calls[k]) && s.calls[k].delay >= 0.0
  }

  /** An attempt was started no later than its starter's last start, and until its starter has left at
      its deadline it has a waiter; so one that is aborted has run for the lead. */
  predicate AttemptTimely(s: State, a: AttemptId)
    requires a in s.attempts
  {
    var t := s.attempts[a];
    && t.startedAt <= s.now
    && t.starter in s.calls && t.startedAt <= s.calls[t.starter].LastStart()
    && (t.pending.done ==> t.startedAt <= t.settledAt <= s.now)
    && (!t.pending.done ==> s.calls[t.starter].phase.WaitsOn(a) || s.now >= s.calls[t.starter].deadline)
    && (t.pending.aborted ==> t.startedAt + FINAL_ATTEMPT_LEAD <= s.now)
    && (t.pending.aborted && t.pending.done ==> t.startedAt + FINAL_ATTEMPT_LEAD <= t.settledAt)
  }

  /** Attempts are serial. */
  predicate SerialOk(s: State, a: AttemptId)
    requires a in s.attempts
  {
    s.attempts[a].pending.done && s.inflight.Some? && s.inflight.value in s.attempts ==>
      s.attempts[a].settledAt <= s.attempts[s.inflight.value].startedAt
  }

  ghost predicate TimeInv(s: State) {
    (forall k :: k in s.calls ==> CallTimely(s, k))
    && (forall a :: a in s.attempts ==> AttemptTimely(s, a) && SerialOk(s, a))
  }

  lemma TimelyCall(s: State, k: CallId)
    requires TimeInv(s) && k in s.calls
    ensures CallTimely(s, k)
  {
  }

  lemma TimelyAttempt(s: State, a: AttemptId)
    requires TimeInv(s) && a in s.attempts
    ensures AttemptTimely(s, a) && SerialOk(s, a)
  {
  }

  // ----- what a step does to an attempt's history -----

  /** An attempt keeps when and by whom it was started; it is settled when it becomes done, and then for
      good; and only the abort of an attempt that no call waits on marks it. */
  ghost predicate HistoryKept(s: State, step: Step, a: AttemptId, t: Attempt, t': Attempt) {
    && t'.startedAt == t.startedAt && t'.starter == t.starter
    && (t.pending.done ==> t' == t.(worker := t'.worker))
    && (!t.pending.done && t'.pending.done ==> t'.settledAt == s.now)
    && (t'.pending.aborted && !t.pending.aborted ==>
          step.Abort? && !t.pending.done && t.pending.waiters == 0 && step.call in s.calls && s.calls[step.call].phase == Aborting(a))
  }

  lemma HistoryByLock(s: State, k: CallId, slot: AttemptId, d: Decision, a: AttemptId, step: Step)
    requires k in s.calls && slot !in s.attempts && (d.Join? ==> d.attempt in s.attempts && !s.attempts[d.attempt].pending.done)
    requires a in s.attempts
    ensures a in Locked(s, k, slot, d).attempts && HistoryKept(s, step, a, s.attempts[a], Locked(s, k, slot, d).attempts[a])
  {
  }

  lemma HistoryByCall(s: State, step: Step, a: AttemptId)
    requires SlotInv(s) && May(s, step) && step.OfCall() && a in s.attempts
    ensures a in Does(s, step).attempts && HistoryKept(s, step, a, s.attempts[a], Does(s, step).attempts[a])
  {
    hide SlotInv, Decide, Judged, Locked, Does, May, Departed, AbortDecided, TransportClosed;
    if step.Lock? {
      LockDoes(s, step);
      var d := Decide(s, s.calls[step.call], step.startFails);
      if d.Join? { SlotAt(s, d.attempt); }
      HistoryByLock(s, step.call, step.slot, d, a, step);
    } else if step.Judge? { JudgedFrame(s, step); JudgeDoes(s, step); }
    else if step.Leave? { LeaveDoes(s, step); DepartedIs(s, step.call); }
    else if step.Abort? { AbortDoes(s, step); AbortDecidedIs(s, step.call); }
    else if step.Close? { CloseDoes(s, step); TransportClosedIs(s, step.call, step.transport); }
    else { MoveDoes(s, step); }
  }

  lemma HistoryByStep(s: State, step: Step, a: AttemptId)
    requires SlotInv(s) && May(s, step) && a in s.attempts
    ensures a in Does(s, step).attempts && HistoryKept(s, step, a, s.attempts[a], Does(s, step).attempts[a])
  {
    hide SlotInv, CallDoes, OpenerDoes;
    if step.OfCall() { HistoryByCall(s, step, a); }
    else if step.OfWorker() { SlotAt(s, step.attempt); }
    else if step.OfOpener() { OpenerFrame(s, step); }
  }

  /** An attempt just added by call `k`. */
  ghost predicate JustStarted(s: State, s': State, k: CallId, a: AttemptId) {
    a in s'.attempts && k in s.calls && k in s'.calls
    && var t := s'.attempts[a];
       t.startedAt == s.now && t.settledAt == s.now && t.starter == k && !t.pending.aborted
       && s'.calls[k].deadline == s.calls[k].deadline && s.inflight.None?
       && (!t.pending.done ==> s'.calls[k].phase.WaitsOn(a) && s'.inflight == Some(a))
       && s.calls[k].phase.AtLock? && (s.calls[k].phase.scheduled || s.now < s.calls[k].LastStart())
  }

  ghost predicate InTime(s: State, k: CallId) {
    k in s.calls && s.calls[k].phase.AtLock? && (s.calls[k].phase.scheduled || s.now < s.calls[k].LastStart())
  }

  lemma StartAdds(s: State, k: CallId, slot: AttemptId)
    requires InTime(s, k) && s.inflight.None?
    ensures JustStarted(s, StartAttempt(s, k, slot), k, slot)
  {
  }

  lemma FailedStartAdds(s: State, k: CallId, slot: AttemptId, failure: Failure)
    requires InTime(s, k) && s.inflight.None?
    ensures JustStarted(s, StartFailed(s, k, slot, failure), k, slot)
  {
  }

  lemma LockedAddsSlot(s: State, k: CallId, slot: AttemptId, d: Decision, a: AttemptId)
    requires k in s.calls && (d.Join? ==> d.attempt in s.attempts) && a in Locked(s, k, slot, d).attempts && a !in s.attempts
    ensures a == slot && (d.Start? || d.StartFails?)
  {
  }

  lemma LockAdds(s: State, k: CallId, slot: AttemptId, startFails: Option<Failure>, a: AttemptId)
    requires k in s.calls && s.calls[k].phase.AtLock? && slot !in s.attempts && (s.inflight.Some? ==> s.inflight.value in s.attempts)
    requires a in Locked(s, k, slot, Decide(s, s.calls[k], startFails)).attempts && a !in s.attempts
    ensures a == slot && JustStarted(s, Locked(s, k, slot, Decide(s, s.calls[k], startFails)), k, a)
  {
    hide Decide, JustStarted, StartAttempt, StartFailed;
    var d := Decide(s, s.calls[k], startFails);
    LockedAddsSlot(s, k, slot, d, a);
    DecideIs(s, s.calls[k], startFails);
    if d.Start? { StartAdds(s, k, slot); } else { FailedStartAdds(s, k, slot, d.failure); }
  }

  /** An attempt that a step adds is the one its call starts. */
  lemma AttemptSource(s: State, step: Step, a: AttemptId)
    requires May(s, step) && a in Does(s, step).attempts && a !in s.attempts
    ensures step.Lock? && a == step.slot && JustStarted(s, Does(s, step), step.call, a)
  {
    hide CallDoes, WorkerDoes, OpenerDoes, JustStarted, CallMay, WorkerMay, OpenerMay, Locked, Decide;
    if step.OfWorker() { WorkerAddsNone(s, step, a); }
    else if step.OfOpener() { OpenerFrame(s, step); }
    else if step.Lock? { LockDoes(s, step); LockAdds(s, step.call, step.slot, step.startFails, a); }
    else if step.OfCall() { OtherAddsNone(s, step, a); }
  }

  lemma OtherAddsNone(s: State, step: Step, a: AttemptId)
    requires May(s, step) && step.OfCall() && !step.Lock? && a in Does(s, step).attempts
    ensures a in s.attempts
  {
    hide Does, May, Judged, Departed, AbortDecided, TransportClosed, Aborts;
    if step.Judge? { JudgedFrame(s, step); JudgeDoes(s, step); }
    else if step.Leave? { LeaveDoes(s, step); DepartedIs(s, step.call); }
    else if step.Abort? { AbortDoes(s, step); AbortDecidedIs(s, step.call); }
    else if step.Close? { CloseDoes(s, step); TransportClosedIs(s, step.call, step.transport); }
    else { MoveDoes(s, step); }
  }

  lemma WorkerAddsNone(s: State, step: Step, a: AttemptId)
    requires May(s, step) && step.OfWorker() && a in Does(s, step).attempts
    ensures a in s.attempts
  {
    hide CallDoes, CallMay, OpenerDoes, OpenerMay;
  }

  /** The slot only empties, or is taken by a new attempt. */
  lemma SlotSource(s: State, step: Step)
    requires May(s, step) && Does(s, step).inflight.Some?
    ensures Does(s, step).inflight == s.inflight || (step.Lock? && Does(s, step).inflight == Some(step.slot) && s.inflight.None?)
  {
    hide CallDoes, OpenerDoes;
    if step.Lock? { LockSlot(s, step); }
    else if step.OfCall() { OtherSlot(s, step); }
    else if step.OfOpener() { OpenerFrame(s, step); }
  }

  lemma LockedSlot(s: State, k: CallId, slot: AttemptId, d: Decision)
    requires k in s.calls && (d.Join? ==> d.attempt in s.attempts)
    ensures Locked(s, k, slot, d).inflight == s.inflight || (d.Start? && Locked(s, k, slot, d).inflight == Some(slot))
  {
  }

  lemma LockSlot(s: State, step: Step)
    requires May(s, step) && step.Lock? && Does(s, step).inflight.Some?
    ensures Does(s, step).inflight == s.inflight || (Does(s, step).inflight == Some(step.slot) && s.inflight.None?)
  {
    hide Does, May, Locked, Decide;
    LockDoes(s, step);
    LockedSlot(s, step.call, step.slot, Decide(s, s.calls[step.call], step.startFails));
  }

  lemma OtherSlot(s: State, step: Step)
    requires May(s, step) && step.OfCall() && !step.Lock?
    ensures Does(s, step).inflight == s.inflight
  {
    hide Judged, Locked, WorkerDoes, WorkerMay, OpenerDoes, OpenerMay;
    if step.Judge? { JudgedFrame(s, step); }
  }

  // ----- attempts stay timely -----

  lemma DeadlineStays(s: State, step: Step, k: CallId)
    requires May(s, step) && k in s.calls
    ensures k in Does(s, step).calls && Does(s, step).calls[k].deadline == s.calls[k].deadline
    ensures Does(s, step).calls[k].entered == s.calls[k].entered
  {
    hide CallDoes, WorkerDoes, OpenerDoes;
    if step.OfCall() {
      CallTouchesOne(s, step);
      if step.Judge? { JudgeKeepsDeadline(s, step); } else { OtherKeepsCall(s, step); }
    }
    else if step.OfWorker() { WorkerLeaves(s, step); }
    else if step.OfOpener() { OpenerFrame(s, step); }
  }

  lemma JudgeKeepsDeadline(s: State, step: Step)
    requires May(s, step) && step.Judge?
    ensures step.call in Does(s, step).calls && Does(s, step).calls[step.call].deadline == s.calls[step.call].deadline
    ensures Does(s, step).calls[step.call].entered == s.calls[step.call].entered
  {
  }

  /** What a call does with the attempt it started: it waits on it until it is done or the deadline. */
  lemma StarterStays(s: State, step: Step, k: CallId, a: AttemptId)
    requires May(s, step) && k in s.calls && CallTimely(s, k) && s.calls[k].phase.WaitsOn(a) && !DoneIn(Does(s, step), a)
    requires a in s.attempts
    ensures k in Does(s, step).calls
    ensures Does(s, step).calls[k].phase.WaitsOn(a) || s.now >= s.calls[k].deadline
  {
    hide WorkerDoes, OpenerDoes, Locked, Judged;
    DeadlineStays(s, step, k);
    if step.OfCall() && step.call == k {
      assert step.Poll? || step.Woken? || step.Leave?;
    } else {
      CallSource(s, step, k);
    }
  }

  /** An attempt no call waits on has outlived its starter's wait. */
  lemma AbortIsLate(s: State, a: AttemptId)
    requires Inv(s) && TimeInv(s) && a in s.attempts && !s.attempts[a].pending.done && s.attempts[a].pending.waiters == 0
    ensures s.attempts[a].startedAt + FINAL_ATTEMPT_LEAD <= s.now
  {
    hide SlotInv, WorkInv, PublishInv, TransportInv, CallInv, PlaceInv;
    TimelyAttempt(s, a);
    var k := s.attempts[a].starter;
    assert CountOk(s, a);
    assert WaitersOf(s, a) == {};
    assert k !in WaitersOf(s, a);
  }

  lemma OldAttemptTimely(s: State, step: Step, a: AttemptId)
    requires Inv(s) && TimeInv(s) && May(s, step) && a in s.attempts
    ensures a in Does(s, step).attempts && AttemptTimely(Does(s, step), a)
  {
    hide Inv, TimeInv, May, Does;
    var s' := Does(s, step);
    var t, k := s.attempts[a], s.attempts[a].starter;
    InvSlot(s);
    HistoryByStep(s, step, a);
    TimelyAttempt(s, a);
    NowGrows(s, step);
    DeadlineStays(s, step, k);
    if s'.attempts[a].pending.aborted && !t.pending.aborted { AbortIsLate(s, a); }
    if !s'.attempts[a].pending.done && s.calls[k].phase.WaitsOn(a) {
      TimelyCall(s, k);
      StarterStays(s, step, k, a);
    }
  }

  lemma InvSlot(s: State)
    requires Inv(s)
    ensures SlotInv(s)
  {
  }

  lemma AttemptsStayTimely(s: State, step: Step, a: AttemptId)
    requires Inv(s) && TimeInv(s) && May(s, step) && a in Does(s, step).attempts
    ensures AttemptTimely(Does(s, step), a)
  {
    hide Inv, TimeInv, May, Does;
    if a in s.attempts {
      OldAttemptTimely(s, step, a);
    } else {
      AttemptSource(s, step, a);
      NowGrows(s, step);
      TimelyCall(s, step.call);
    }
  }

  lemma AttemptsStaySerial(s: State, step: Step, a: AttemptId)
    requires Inv(s) && TimeInv(s) && May(s, step) && a in Does(s, step).attempts
    ensures SerialOk(Does(s, step), a)
  {
    hide Inv, TimeInv, May, Does;
    var s' := Does(s, step);
    if s'.inflight.Some? && s'.inflight.value in s'.attempts && s'.attempts[a].pending.done {
      SlotSource(s, step);
      NowGrows(s, step);
      InvSlot(s);
      var b := s'.inflight.value;
      if s'.inflight == s.inflight { OldSerial(s, step, a, b); } else { NewSerial(s, step, a, b); }
    }
  }

  lemma OldSerial(s: State, step: Step, a: AttemptId, b: AttemptId)
    requires Inv(s) && TimeInv(s) && May(s, step) && s.inflight == Some(b) && Does(s, step).inflight == Some(b)
    requires a in Does(s, step).attempts && Does(s, step).attempts[a].pending.done && b in Does(s, step).attempts
    ensures Does(s, step).attempts[a].settledAt <= Does(s, step).attempts[b].startedAt
  {
    hide TimeInv, May, Does, WorkInv, PublishInv, TransportInv, CallInv, WaiterInv, PlaceInv;
    assert b in s.attempts;
    HistoryByStep(s, step, b);
    if a in s.attempts {
      HistoryByStep(s, step, a);
      TimelyAttempt(s, a);
      assert SlotOk(s, a);
      SlotKept(s, step);
      assert SlotOk(Does(s, step), a);
    } else {
      AttemptSource(s, step, a);
    }
  }

  lemma NewSerial(s: State, step: Step, a: AttemptId, b: AttemptId)
    requires Inv(s) && TimeInv(s) && May(s, step) && step.Lock? && step.slot == b && s.inflight.None?
    requires a in Does(s, step).attempts && Does(s, step).attempts[a].pending.done && Does(s, step).inflight == Some(b) && b in Does(s, step).attempts
    ensures Does(s, step).attempts[a].settledAt <= Does(s, step).attempts[b].startedAt
  {
    hide Inv, TimeInv, May, Does;
    InvSlot(s);
    SlotFree(s, step);
    AttemptSource(s, step, b);
    if a in s.attempts {
      HistoryByStep(s, step, a);
      TimelyAttempt(s, a);
    } else {
      AttemptSource(s, step, a);
    }
  }

  lemma SlotFree(s: State, step: Step)
    requires May(s, step) && step.Lock?
    ensures step.slot !in s.attempts
  {
  }

  // ----- calls stay timely -----

  lemma InvCall(s: State, k: CallId)
    requires Inv(s) && k in s.calls
    ensures PhaseOk(s, s.calls[k].phase)
  {
    assert CallOk(s, k);
  }

  /** Attempts as a call sees them across a step that takes no time. */
  lemma SettledStays(s: State, step: Step, a: AttemptId)
    requires Inv(s) && May(s, step) && Does(s, step).now == s.now && a in s.attempts
    ensures a in Does(s, step).attempts
    ensures DoneIn(s, a) ==> DoneIn(Does(s, step), a) && (SettledNow(s, a) ==> SettledNow(Does(s, step), a))
    ensures DoneIn(Does(s, step), a) && !DoneIn(s, a) ==> SettledNow(Does(s, step), a)
  {
    hide Inv, May, Does;
    InvSlot(s);
    HistoryByStep(s, step, a);
  }

  /** While a call waits on an attempt, nothing marks it. */
  lemma WaitedNotMarked(s: State, step: Step, k: CallId, a: AttemptId)
    requires Inv(s) && May(s, step) && k in s.calls && a in s.attempts && !s.attempts[a].pending.aborted
    requires s.calls[k].phase.WaitsOn(a) || DoneIn(s, a)
    ensures a in Does(s, step).attempts && !Does(s, step).attempts[a].pending.aborted
  {
    hide May, Does, SlotInv, WorkInv, PublishInv, TransportInv, CallInv, PlaceInv;
    HistoryByStep(s, step, a);
    assert CountOk(s, a);
    assert k in WaitersOf(s, a) <==> s.calls[k].phase.WaitsOn(a);
  }

  lemma OtherStaysTimely(s: State, step: Step, k: CallId)
    requires Inv(s) && TimeInv(s) && Ideal(s, step) && k in s.calls && k in Does(s, step).calls
    requires Does(s, step).calls[k] == s.calls[k]
    ensures CallTimely(Does(s, step), k)
  {
    hide Inv, TimeInv, May, Does;
    var s', call := Does(s, step), s.calls[k];
    TimelyCall(s, k);
    InvCall(s, k);
    NowGrows(s, step);
    if s'.now == s.now {
      match call.phase {
        case Waiting(a, _) =>
          SettledStays(s, step, a);
          if call.skipped.Some? { WaitedNotMarked(s, step, k, a); }
        case Leaving(a) =>
          SettledStays(s, step, a);
          if call.skipped.Some? { WaitedNotMarked(s, step, k, a); }
        case Judging(a) =>
          SettledStays(s, step, a);
          if call.skipped.Some? { WaitedNotMarked(s, step, k, a); }
        case Aborting(a) => SettledStays(s, step, a);
        case Closing(a, _) => SettledStays(s, step, a);
        case AtLock(scheduled) =>
          if call.skipped.Some? && !scheduled { SettledStays(s, step, call.skipped.value); }
        case _ =>
      }
    } else {
      TickMoves(s, step);
      assert Rests(s, call, step.later);
    }
  }

  lemma TickMoves(s: State, step: Step)
    requires May(s, step) && Does(s, step).now != s.now
    ensures step.Tick? && Does(s, step) == s.(now := step.later)
  {
    hide CallDoes, WorkerDoes, OpenerDoes;
    NowGrows(s, step);
  }

  /** A call that has just met an aborted attempt joins one that is not: it was started after that one
      was settled, at this very moment, and has not run for the lead. */
  lemma JoinsFresh(s: State, k: CallId, a: AttemptId)
    requires Inv(s) && TimeInv(s) && k in s.calls && s.calls[k].phase == AtLock(false) && s.calls[k].skipped.Some?
    requires s.inflight == Some(a) && a in s.attempts
    ensures !s.attempts[a].pending.aborted
  {
    hide Inv, TimeInv;
    TimelyCall(s, k);
    TimelyAttempt(s, a);
    TimelyAttempt(s, s.calls[k].skipped.value);
  }

  lemma JoinTimely(s: State, k: CallId, a: AttemptId)
    requires k in s.calls && CallTimely(s, k) && s.calls[k].phase.AtLock? && a in s.attempts && !s.attempts[a].pending.done
    requires s.now <= s.calls[k].LastStart()
    requires s.calls[k].skipped.Some? ==> !s.attempts[a].pending.aborted
    ensures k in JoinAttempt(s, k, a).calls && CallTimely(JoinAttempt(s, k, a), k)
  {
  }

  lemma StartTimely(s: State, k: CallId, slot: AttemptId)
    requires k in s.calls && CallTimely(s, k) && s.calls[k].phase.AtLock? && s.now <= s.calls[k].LastStart()
    ensures k in StartAttempt(s, k, slot).calls && CallTimely(StartAttempt(s, k, slot), k)
  {
  }

  lemma ReturnTimely(s: State, s': State, k: CallId, outcome: Outcome)
    requires k in s.calls && CallTimely(s, k)
    requires k in s'.calls && s'.calls[k] == s.calls[k].(phase := Returned(outcome))
    ensures CallTimely(s', k)
  {
  }

  lemma LockIsTimely(s: State, k: CallId)
    requires k in s.calls && CallTimely(s, k) && s.calls[k].phase.AtLock?
    ensures s.calls[k].phase.scheduled ==> s.now <= s.calls[k].LastStart() && s.calls[k].skipped.None?
  {
  }

  lemma LockStaysTimely(s: State, step: Step)
    requires Inv(s) && TimeInv(s) && May(s, step) && step.Lock?
    ensures step.call in Does(s, step).calls && CallTimely(Does(s, step), step.call)
  {
    hide Inv, TimeInv, Decide, CallTimely, JoinAttempt, StartAttempt, Does, May;
    LockDoes(s, step);
    var k := step.call;
    TimelyCall(s, k);
    LockIsTimely(s, k);
    DecideIs(s, s.calls[k], step.startFails);
    match Decide(s, s.calls[k], step.startFails)
    case Use => ReturnTimely(s, Does(s, step), k, Transport(s.Live()));
    case GiveUp => ReturnTimely(s, Does(s, step), k, Message(s.calls[k].cause));
    case Join(a) =>
      InvSlot(s);
      SlotOpen(s, a);
      if s.calls[k].skipped.Some? { JoinsFresh(s, k, a); }
      JoinTimely(s, k, a);
    case Start => StartTimely(s, k, step.slot);
    case StartFails(failure) => ReturnTimely(s, Does(s, step), k, Message(Caused(step.slot, failure)));
  }

  lemma DecideIs(s: State, call: Call, startFails: Option<Failure>)
    requires call.phase.AtLock?
    ensures var d := Decide(s, call, startFails);
            (d.Join? || d.Start? || d.StartFails? ==> call.phase.scheduled || s.now < call.LastStart())
            && (d.Join? ==> s.inflight == Some(d.attempt))
  {
  }

  lemma SlotOpen(s: State, a: AttemptId)
    requires SlotInv(s) && s.inflight == Some(a)
    ensures a in s.attempts && !DoneIn(s, a)
  {
    assert SlotOk(s, a);
  }

  lemma VerdictTimely(s: State, s': State, k: CallId, a: AttemptId)
    requires k in s.calls && s.calls[k].phase == Judging(a) && CallTimely(s, k) && a in s.attempts
    requires s' == WithCall(s, k, Verdict(s.calls[k], a, s.attempts[a].pending, s.now))
    ensures CallTimely(s', k)
  {
  }

  /** The steps of a call that waits: a poll, an outcome, a departure. */
  lemma WaitStaysTimely(s: State, step: Step)
    requires May(s, step) && (step.Poll? || step.Woken?) && CallTimely(s, step.call)
    ensures step.call in Does(s, step).calls && CallTimely(Does(s, step), step.call)
  {
    hide WorkerDoes, WorkerMay, OpenerDoes, OpenerMay;
  }

  lemma LeaveStaysTimely(s: State, step: Step)
    requires May(s, step) && step.Leave? && CallTimely(s, step.call)
    ensures step.call in Does(s, step).calls && CallTimely(Does(s, step), step.call)
  {
    hide Does, May;
    LeaveDoes(s, step);
  }

  lemma AbortStaysTimely(s: State, step: Step)
    requires May(s, step) && step.Abort? && CallTimely(s, step.call)
    ensures step.call in Does(s, step).calls && CallTimely(Does(s, step), step.call)
  {
    hide Does, May;
    AbortDoes(s, step);
  }

  lemma CloseStaysTimely(s: State, step: Step)
    requires May(s, step) && step.Close? && CallTimely(s, step.call)
    ensures step.call in Does(s, step).calls && CallTimely(Does(s, step), step.call)
  {
    hide Does, May;
    CloseDoes(s, step);
  }

  lemma ClosedStaysTimely(s: State, step: Step)
    requires May(s, step) && step.Closed? && CallTimely(s, step.call)
    ensures step.call in Does(s, step).calls && CallTimely(Does(s, step), step.call)
  {
    hide WorkerDoes, WorkerMay, OpenerDoes, OpenerMay, Departed, AbortDecided, TransportClosed, Locked, Judged;
  }

  lemma LoopStaysTimely(s: State, step: Step)
    requires May(s, step) && (step.FastPath? || step.Wake?) && CallTimely(s, step.call)
    ensures step.call in Does(s, step).calls && CallTimely(Does(s, step), step.call)
  {
    hide WorkerDoes, WorkerMay, OpenerDoes, OpenerMay;
  }

  lemma OwnStaysTimely(s: State, step: Step)
    requires TimeInv(s) && May(s, step) && step.OfCall() && !step.Lock? && !step.Judge?
    ensures step.call in Does(s, step).calls && CallTimely(Does(s, step), step.call)
  {
    hide TimeInv, Does, CallTimely;
    TimelyCall(s, step.call);
    if step.Poll? || step.Woken? { WaitStaysTimely(s, step); }
    else if step.Leave? { LeaveStaysTimely(s, step); }
    else if step.FastPath? || step.Wake? { LoopStaysTimely(s, step); }
    else if step.Abort? { AbortStaysTimely(s, step); }
    else if step.Close? { CloseStaysTimely(s, step); }
    else { ClosedStaysTimely(s, step); }
  }

  lemma JudgeStaysTimely(s: State, step: Step)
    requires Inv(s) && TimeInv(s) && May(s, step) && step.Judge?
    ensures step.call in Does(s, step).calls && CallTimely(Does(s, step), step.call)
  {
    hide Inv, TimeInv, CallTimely, Verdict;
    TimelyCall(s, step.call);
    VerdictTimely(s, Does(s, step), step.call, s.calls[step.call].phase.attempt);
  }

  lemma EnterTimely(s: State, step: Step)
    requires May(s, step) && step.Enter?
    ensures step.call in Does(s, step).calls && CallTimely(Does(s, step), step.call)
  {
  }

  lemma CallsStayTimely(s: State, step: Step, k: CallId)
    requires Inv(s) && TimeInv(s) && Ideal(s, step) && k in Does(s, step).calls
    ensures CallTimely(Does(s, step), k)
  {
    hide Inv, TimeInv, May, Does, CallTimely;
    CallSource(s, step, k);
    if (step.OfCall() || step.Enter?) && step.call == k {
      if step.Enter? { EnterTimely(s, step); }
      else if step.Lock? { LockStaysTimely(s, step); }
      else if step.Judge? { JudgeStaysTimely(s, step); }
      else { OwnStaysTimely(s, step); }
    } else {
      OtherStaysTimely(s, step, k);
    }
  }

  lemma TimeKept(s: State, step: Step)
    requires Inv(s) && TimeInv(s) && Ideal(s, step)
    ensures TimeInv(Does(s, step))
  {
    hide Inv, May, Does, CallTimely, AttemptTimely, SerialOk;
    var s' := Does(s, step);
    forall k | k in s'.calls ensures CallTimely(s', k) { CallsStayTimely(s, step, k); }
    forall a | a in s'.attempts ensures AttemptTimely(s', a) && SerialOk(s', a) {
      AttemptsStayTimely(s, step, a);
      AttemptsStaySerial(s, step, a);
    }
  }

  lemma {:induction false} TimeHolds(states: seq<State>, steps: seq<Step>, i: nat)
    requires IdealRun(states, steps) && i < |states|
    ensures TimeInv(states[i]) && Inv(states[i])
    decreases i
  {
    hide Inv, May, Does, CallTimely, AttemptTimely, SerialOk;
    InvHolds(states, steps, i);
    if i > 0 {
      TimeHolds(states, steps, i - 1);
      TimeKept(states[i - 1], steps[i - 1]);
    }
  }

  // ----- deadlines -----

  /** A call starts or joins nothing after its last start. */
  lemma NothingAfterLastStart(states: seq<State>, steps: seq<Step>, i: nat, k: CallId)
    requires IdealRun(states, steps) && i < |steps| && k in states[i].calls && k in states[i + 1].calls
    requires states[i + 1].calls[k].joins != states[i].calls[k].joins
    ensures states[i].now <= states[i].calls[k].LastStart()
  {
    hide Inv, TimeInv, May, Does, CallTimely;
    var s, step := states[i], steps[i];
    TimeHolds(states, steps, i);
    TimelyCall(s, k);
    CallSource(s, step, k);
    if step.Enter? { EnterIsNew(s, step); }
    assert step.OfCall() && step.call == k;
    JoinsOnlyAtLock(s, step);
    LockIsTimely(s, k);
    DecideIs(s, s.calls[k], step.startFails);
  }

  lemma JoinsOnlyAtLock(s: State, step: Step)
    requires May(s, step) && step.OfCall() && step.call in Does(s, step).calls
    requires Does(s, step).calls[step.call].joins != s.calls[step.call].joins
    ensures step.Lock? && s.calls[step.call].phase.AtLock?
    ensures var d := Decide(s, s.calls[step.call], step.startFails); d.Join? || d.Start?
  {
    hide Decide, CallDoes;
    if step.Lock? { JoinedByLock(s, step); }
    else if step.Judge? { JudgeJoinsNone(s, step); }
    else { OtherJoinsNone(s, step); }
  }

  lemma JoinedByLock(s: State, step: Step)
    requires May(s, step) && step.Lock? && step.call in Does(s, step).calls
    requires Does(s, step).calls[step.call].joins != s.calls[step.call].joins
    ensures var d := Decide(s, s.calls[step.call], step.startFails); d.Join? || d.Start?
  {
    hide Decide, Locked;
    LockJoins(s, step.call, step.slot, Decide(s, s.calls[step.call], step.startFails));
  }

  ghost predicate SameJoins(s: State, s': State, k: CallId) {
    k in s.calls && k in s'.calls && s'.calls[k].joins == s.calls[k].joins
  }

  lemma LeaveJoinsNone(s: State, k: CallId)
    requires k in s.calls && s.calls[k].phase.Leaving? && s.calls[k].phase.attempt in s.attempts
    ensures SameJoins(s, Departed(s, k), k)
  {
  }

  lemma AbortJoinsNone(s: State, k: CallId)
    requires k in s.calls && s.calls[k].phase.Aborting? && s.calls[k].phase.attempt in s.attempts
    ensures SameJoins(s, AbortDecided(s, k), k)
  {
  }

  lemma CloseJoinsNone(s: State, k: CallId, t: TransportId)
    requires k in s.calls && s.calls[k].phase.Closing?
    ensures SameJoins(s, TransportClosed(s, k, t), k)
  {
  }

  lemma OtherJoinsNone(s: State, step: Step)
    requires May(s, step) && step.OfCall() && !step.Lock? && !step.Judge?
    ensures SameJoins(s, Does(s, step), step.call)
  {
    hide Locked, Judged, Departed, AbortDecided, TransportClosed, WorkerDoes, WorkerMay, OpenerDoes, OpenerMay;
    if step.Leave? { LeaveDoes(s, step); LeaveJoinsNone(s, step.call); }
    else if step.Abort? { AbortDoes(s, step); AbortJoinsNone(s, step.call); }
    else if step.Close? { CloseDoes(s, step); CloseJoinsNone(s, step.call, step.transport); }
  }

  lemma JudgeJoinsNone(s: State, step: Step)
    requires May(s, step) && step.Judge?
    ensures step.call in Does(s, step).calls && Does(s, step).calls[step.call].joins == s.calls[step.call].joins
  {
  }

  lemma LockJoins(s: State, k: CallId, slot: AttemptId, d: Decision)
    requires k in s.calls && (d.Join? ==> d.attempt in s.attempts)
    ensures k in Locked(s, k, slot, d).calls
    ensures Locked(s, k, slot, d).calls[k].joins != s.calls[k].joins ==> d.Join? || d.Start?
  {
  }

  /** A call is back by its deadline, or at once when it came after it. */
  lemma BackByDeadline(states: seq<State>, steps: seq<Step>, i: nat, k: CallId)
    requires IdealRun(states, steps) && i < |states| && k in states[i].calls && !states[i].calls[k].phase.Returned?
    ensures states[i].now <= Max(states[i].calls[k].deadline, states[i].calls[k].entered)
  {
    TimeHolds(states, steps, i);
    BackoffHolds(states, steps, i);
    assert CallTimely(states[i], k) && BackoffOk(states[i], k);
  }

  /** An attempt is aborted only after it has run for the lead. */
  lemma AbortedRanForLead(states: seq<State>, steps: seq<Step>, i: nat, a: AttemptId)
    requires IdealRun(states, steps) && i < |states| && a in states[i].attempts && states[i].attempts[a].pending.aborted
    ensures states[i].now >= states[i].attempts[a].startedAt + FINAL_ATTEMPT_LEAD
    ensures DoneIn(states[i], a) ==> states[i].attempts[a].settledAt >= states[i].attempts[a].startedAt + FINAL_ATTEMPT_LEAD
  {
    TimeHolds(states, steps, i);
    assert AttemptTimely(states[i], a);
  }

  /** A call meets at most one aborted attempt between two failures, so with the default window it starts
      or joins at most 20 attempts. */
  lemma FewAttempts(states: seq<State>, steps: seq<Step>, i: nat, k: CallId)
    requires IdealRun(states, steps) && i < |states| && k in states[i].calls
    ensures states[i].calls[k].joins <= 2 * states[i].calls[k].failures + 2
    ensures states[i].calls[k].deadline <= states[i].calls[k].entered + 45.0 ==> states[i].calls[k].joins <= 20
  {
    TimeHolds(states, steps, i);
    assert CallTimely(states[i], k);
    if states[i].calls[k].deadline <= states[i].calls[k].entered + 45.0 {
      AtMostNineFailures(states, steps, i, k);
    }
  }

  // ----- termination -----

  /** Polls left before the deadline. */
  function Polls(deadline: Time, wake: Time): nat {
    if wake >= deadline then 0 else (10.0 * (deadline - wake)).Floor + 1
  }

  /** How far a call is from returning: the failures it may still take, whether it may still meet an
      aborted attempt, where it is in the loop, and how long it may stay there. */
  datatype Rank = Rank(failures: int, again: nat, place: nat, more: nat)

  function RankOf(s: State, call: Call, limit: nat): Rank {
    var f, g := limit - call.failures, One(call.skipped.None?);
    match call.phase
    case Begun => Rank(f, g, 9, 0)
    case Sleeping(_) => Rank(f, g, 9, 0)
    case AtLock(_) => Rank(f, g, 8, 0)
    case Waiting(a, wake) => if DoneIn(s, a) then Rank(f, g, 5, 0) else Rank(f, g, 7, Polls(call.deadline, wake))
    case Leaving(_) => Rank(f, g, 6, 0)
    case Judging(_) => Rank(f, g, 4, 0)
    case Aborting(_) => Rank(f, g, 3, 0)
    case Closing(_, ts) => Rank(f, g, 2, |ts|)
    case Returned(_) => Rank(0, 0, 0, 0)
  }

  predicate Below(a: Rank, b: Rank) {
    a.failures < b.failures
    || (a.failures == b.failures && (a.again < b.again
        || (a.again == b.again && (a.place < b.place || (a.place == b.place && a.more < b.more)))))
  }

  lemma PollsFall(call: Call, now: Time, wake: Time)
    requires wake <= now < call.deadline
    ensures Polls(call.deadline, NextPoll(call, now)) < Polls(call.deadline, wake)
  {
    var next := NextPoll(call, now);
    assert next >= Min(wake + ATTEMPT_POLL, call.deadline);
    if next < call.deadline {
      assert 10.0 * (call.deadline - next) <= 10.0 * (call.deadline - wake) - 1.0;
    }
  }

  /** The ranks of a call below which it has returned. */
  lemma RankIsNatural(s: State, k: CallId, limit: nat)
    requires k in s.calls && BackoffOk(s, k) && Fills(s.calls[k], limit)
    ensures RankOf(s, s.calls[k], limit).failures >= 0
  {
    FailuresWithin(s, k, limit);
  }

  lemma VerdictFalls(s: State, s': State, call: Call, a: AttemptId, pending: Pending, limit: nat)
    requires call.phase == Judging(a) && call.failures <= limit && (pending.aborted ==> call.skipped.None?)
    requires !Verdict(call, a, pending, s.now).phase.Returned? || call.failures <= limit
    ensures Below(RankOf(s', Verdict(call, a, pending, s.now), limit), RankOf(s, call, limit))
  {
  }

  ghost predicate Falls(s: State, s': State, k: CallId, limit: nat) {
    k in s.calls && k in s'.calls && Below(RankOf(s', s'.calls[k], limit), RankOf(s, s.calls[k], limit))
  }

  lemma PollFalls(s: State, step: Step, limit: nat)
    requires May(s, step) && step.Poll? && s.calls[step.call].failures <= limit
    ensures Falls(s, Does(s, step), step.call, limit)
  {
    hide Polls;
    var call := s.calls[step.call];
    if s.now < call.deadline { PollsFall(call, s.now, call.phase.wake); }
  }

  lemma CloseFalls(s: State, step: Step, limit: nat)
    requires May(s, step) && step.Close? && s.calls[step.call].failures <= limit
    ensures Falls(s, Does(s, step), step.call, limit)
  {
    hide Polls;
    var ts := s.calls[step.call].phase.transports;
    assert |ts - {step.transport}| == |ts| - 1;
  }

  lemma LeaveFalls(s: State, step: Step, limit: nat)
    requires May(s, step) && step.Leave? && s.calls[step.call].failures <= limit
    ensures Falls(s, Does(s, step), step.call, limit)
  {
    hide Polls, Does, May;
    LeaveDoes(s, step);
  }

  lemma AbortFalls(s: State, step: Step, limit: nat)
    requires May(s, step) && step.Abort? && s.calls[step.call].failures <= limit
    ensures Falls(s, Does(s, step), step.call, limit)
  {
    hide Polls, Does, May;
    AbortDoes(s, step);
  }

  lemma OtherFalls(s: State, step: Step, limit: nat)
    requires May(s, step) && step.OfCall() && s.calls[step.call].failures <= limit
    requires !step.Judge? && !step.Lock? && !step.Poll? && !step.Close?
    ensures Falls(s, Does(s, step), step.call, limit)
  {
    hide Locked, Judged, Polls, Departed, AbortDecided, TransportClosed, WorkerDoes, WorkerMay, OpenerDoes, OpenerMay;
    if step.Leave? { LeaveFalls(s, step, limit); }
    else if step.Abort? { AbortFalls(s, step, limit); }
  }

  lemma LockFalls(s: State, k: CallId, slot: AttemptId, d: Decision, limit: nat)
    requires k in s.calls && s.calls[k].phase.AtLock? && s.calls[k].failures <= limit
    requires d.Join? ==> d.attempt in s.attempts
    ensures Falls(s, Locked(s, k, slot, d), k, limit)
  {
    hide Polls;
  }

  /** Every step a call takes brings it nearer to its return. */
  lemma OwnStepFalls(states: seq<State>, steps: seq<Step>, i: nat, k: CallId, limit: nat)
    requires IdealRun(states, steps) && i < |steps| && steps[i].OfCall() && steps[i].call == k
    requires k in states[i].calls && Fills(states[i].calls[k], limit)
    ensures Falls(states[i], states[i + 1], k, limit)
  {
    hide Inv, TimeInv, Falls, CallTimely, BackoffOk, Locked, Judged, Decide, Fills;
    var s, step := states[i], steps[i];
    TimeHolds(states, steps, i);
    BackoffHolds(states, steps, i);
    TimelyCall(s, k);
    FailuresWithin(s, k, limit);
    if step.Lock? {
      LockFalls(s, k, step.slot, Decide(s, s.calls[k], step.startFails), limit);
    } else if step.Judge? {
      JudgeFalls(s, step, limit);
    } else if step.Poll? {
      PollFalls(s, step, limit);
    } else if step.Close? {
      CloseFalls(s, step, limit);
    } else {
      OtherFalls(s, step, limit);
    }
  }

  lemma JudgeFalls(s: State, step: Step, limit: nat)
    requires May(s, step) && step.Judge? && CallTimely(s, step.call) && s.calls[step.call].failures <= limit
    ensures Falls(s, Does(s, step), step.call, limit)
  {
    hide RankOf, Below, Verdict;
    var a := s.calls[step.call].phase.attempt;
    VerdictFalls(s, Does(s, step), s.calls[step.call], a, s.attempts[a].pending, limit);
  }

  /** No step but a call's own moves it away from its return. */
  lemma OtherStepKeeps(states: seq<State>, steps: seq<Step>, i: nat, k: CallId, limit: nat)
    requires IdealRun(states, steps) && i < |steps| && k in states[i].calls && !(steps[i].OfCall() && steps[i].call == k)
    ensures k in states[i + 1].calls && states[i + 1].calls[k] == states[i].calls[k]
    ensures var before, after := RankOf(states[i], states[i].calls[k], limit), RankOf(states[i + 1], states[i + 1].calls[k], limit);
            after == before || Below(after, before)
  {
    hide Inv, May, Does, Grows, Polls;
    InvHolds(states, steps, i);
    InvKept(states[i], steps[i]);
    DeadlineStays(states[i], steps[i], k);
    CallSource(states[i], steps[i], k);
    if steps[i].Enter? { EnterIsNew(states[i], steps[i]); }
    assert forall a :: DoneIn(states[i], a) ==> DoneIn(states[i + 1], a) by {
      forall a | DoneIn(states[i], a) ensures DoneIn(states[i + 1], a) { DoneGrows(states[i], states[i + 1], a); }
    }
  }

  lemma BelowOnward(a: Rank, b: Rank, c: Rank)
    requires Below(a, b) && (b == c || Below(b, c))
    ensures Below(a, c)
  {
  }

  /** Along a run a call's rank never rises, and any step of its own leaves it lower for good; as the
      ranks are well-founded, a call takes finitely many steps. */
  lemma {:induction false} RankFallsForGood(states: seq<State>, steps: seq<Step>, i: nat, j: nat, k: CallId, limit: nat)
    requires IdealRun(states, steps) && i <= j < |steps| && k in states[i].calls && Fills(states[i].calls[k], limit)
    requires steps[i].OfCall() && steps[i].call == k
    ensures k in states[j + 1].calls && Fills(states[j + 1].calls[k], limit)
    ensures Below(RankOf(states[j + 1], states[j + 1].calls[k], limit), RankOf(states[i], states[i].calls[k], limit))
    decreases j
  {
    hide RankOf, Below, May, Does, Backoff;
    if i < j {
      RankFallsForGood(states, steps, i, j - 1, k, limit);
    }
    DeadlineStays(states[j], steps[j], k);
    if steps[j].OfCall() && steps[j].call == k {
      OwnStepFalls(states, steps, j, k, limit);
    } else {
      OtherStepKeeps(states, steps, j, k, limit);
    }
    if i < j {
      var a, b := RankOf(states[j + 1], states[j + 1].calls[k], limit), RankOf(states[j], states[j].calls[k], limit);
      if a != b { BelowOnward(a, b, RankOf(states[i], states[i].calls[k], limit)); }
    }
  }

  lemma EnterIsNew(s: State, step: Step)
    requires May(s, step) && step.Enter?
    ensures step.call !in s.calls
  {
  }

  lemma DoneGrows(s: State, s': State, a: AttemptId)
    requires Grows(s, s') && DoneIn(s, a)
    ensures DoneIn(s', a)
  {
  }

  /** A call that has not returned can take a step of its own, unless it sleeps or waits for a time that
      has not come; so by `BackByDeadline` nothing but its own step can follow its deadline. */
  lemma CanStep(states: seq<State>, steps: seq<Step>, i: nat, k: CallId, slot: AttemptId) returns (step: Step)
    requires Run(states, steps) && i < |states| && k in states[i].calls && slot !in states[i].attempts
    requires var call := states[i].calls[k];
             && !call.phase.Returned?
             && (call.phase.Sleeping? ==> states[i].now >= call.phase.wake)
             && (call.phase.Waiting? ==> states[i].now >= call.phase.wake || DoneIn(states[i], call.phase.attempt))
    ensures step.OfCall() && step.call == k && May(states[i], step)
  {
    hide Does, Decide, WorkerMay, OpenerMay, Inv;
    var s := states[i];
    InvHolds(states, steps, i);
    InvCall(s, k);
    InvSlot(s);
    match s.calls[k].phase
    case Begun => step := FastPath(k);
    case AtLock(_) => step := Lock(k, slot, None);
    case Waiting(a, _) => step := if DoneIn(s, a) then Woken(k) else Poll(k);
    case Leaving(a) => step := Leave(k);
    case Aborting(a) => step := Abort(k);
    case Closing(_, ts) =>
      if ts == {} { step := Closed(k); } else { var t :| t in ts; step := Close(k, t); }
    case Judging(a) => step := Judge(k);
    case Sleeping(_) => step := Wake(k);
  }
}
