/** What the steps of the reconnect protocol come to, said of the state alone: whose transport a call returns,
    when it joins or starts an attempt, when it gives up, what ends an attempt; and that a call does not give
    up while it could still try. */
module ReconnectTurns {
  import opened Wrappers
  import opened Regions
  import opened Reconnect
  import opened ReconnectSafety
  import opened ReconnectTime

  /** The published connection is there and connected. */
  predicate Connected(s: State) {
    s.published.Some? && s.published.value in s.conns && s.conns[s.published.value].live
  }

  /** Nothing but the call has changed. */
  predicate OnlyCall(s: State, s': State, k: CallId) {
    k in s'.calls && s' == s.(calls := s.calls[k := s'.calls[k]])
  }

  // ----- a call's turn at the lock -----

  /** A live connection is used while nothing is in flight. */
  predicate TurnUses(s: State) { s.inflight.None? && Connected(s) }

  /** The call's last start has passed, and it has not just slept a backoff. */
  predicate TurnStops(s: State, call: Call)
    requires call.phase.AtLock?
  {
    !call.phase.scheduled && s.now >= call.deadline - 2.0
  }

  /** What a turn leaves: the live connection's transport returned; or the last cause reported; or the call waiting
      on the attempt in flight, one waiter more; or on one just started; or, where no thread could be started, that
      failure reported and the slot free. */
  ghost predicate TurnLeaves(s: State, s': State, k: CallId, slot: AttemptId, startFails: Option<Failure>)
    requires k in s.calls && s.calls[k].phase.AtLock?
  {
    k in s'.calls &&
    var call, phase := s.calls[k], s'.calls[k].phase;
    if TurnUses(s) then OnlyCall(s, s', k) && phase == Returned(Transport(s.published))
    else if TurnStops(s, call) then OnlyCall(s, s', k) && phase == Returned(Message(call.cause))
    else if s.inflight.Some? then
      var a := s.inflight.value;
      && phase.Waiting? && phase.attempt == a && PollsFrom(s.now, call, phase.wake)
      && s'.calls[k] == call.(joins := call.joins + 1, phase := phase)
      && a in s.attempts && !s.attempts[a].pending.done && a in s'.attempts && s'.inflight == s.inflight
      && s'.attempts[a].pending == s.attempts[a].pending.(waiters := s.attempts[a].pending.waiters + 1)
    else
      && slot !in s.attempts && slot in s'.attempts
      && var p := s'.attempts[slot].pending;
         && p.transport.None? && p.conn.None? && !p.aborted && p.waiters == 1
         && (startFails.None? ==>
               && phase.Waiting? && phase.attempt == slot && PollsFrom(s.now, call, phase.wake) && s'.inflight == Some(slot)
               && s'.calls[k] == call.(joins := call.joins + 1, phase := phase)
               && !p.done && p.error.None? && s'.attempts[slot].worker.Building?)
         && (startFails.Some? ==>
               && phase == Returned(Message(Caused(slot, startFails.value))) && s'.inflight.None?
               && p.done && p.error == startFails && s'.attempts[slot].worker.Ended?)
  }

  /** The next look at the deadline: a tenth of a second on, or at the deadline, and at once past it. */
  predicate PollsFrom(now: Time, call: Call, wake: Time) {
    && (now >= call.deadline ==> wake == now)
    && (now < call.deadline ==> wake == (if now + 0.1 < call.deadline then now + 0.1 else call.deadline))
  }

  lemma DecideAtTurn(s: State, call: Call, startFails: Option<Failure>)
    requires call.phase.AtLock?
    ensures Decide(s, call, startFails) ==
              if TurnUses(s) then Use
              else if TurnStops(s, call) then GiveUp
              else if s.inflight.Some? then Join(s.inflight.value)
              else if startFails.Some? then StartFails(startFails.value) else Start
    ensures TurnUses(s) ==> s.Live() == s.published
  {
  }

  lemma LockedLeaves(s: State, k: CallId, slot: AttemptId, startFails: Option<Failure>)
    requires k in s.calls && s.calls[k].phase.AtLock? && slot !in s.attempts
    requires s.inflight.Some? ==> s.inflight.value in s.attempts && !s.attempts[s.inflight.value].pending.done
    ensures TurnLeaves(s, Locked(s, k, slot, Decide(s, s.calls[k], startFails)), k, slot, startFails)
  {
    hide Decide, TurnUses, TurnStops, TurnLeaves, JoinAttempt, StartAttempt, StartFailed;
    DecideAtTurn(s, s.calls[k], startFails);
    if TurnUses(s) { UseLeaves(s, k, slot, startFails); }
    else if TurnStops(s, s.calls[k]) { StopLeaves(s, k, slot, startFails); }
    else if s.inflight.Some? { JoinLeaves(s, k, slot, startFails); }
    else { StartLeaves(s, k, slot, startFails); }
  }

  lemma UseLeaves(s: State, k: CallId, slot: AttemptId, startFails: Option<Failure>)
    requires k in s.calls && s.calls[k].phase.AtLock? && TurnUses(s)
    ensures TurnLeaves(s, AtPhase(s, k, Returned(Transport(s.published))), k, slot, startFails)
  {
    hide TurnUses, TurnStops;
  }

  lemma StopLeaves(s: State, k: CallId, slot: AttemptId, startFails: Option<Failure>)
    requires k in s.calls && s.calls[k].phase.AtLock? && !TurnUses(s) && TurnStops(s, s.calls[k])
    ensures TurnLeaves(s, AtPhase(s, k, Returned(Message(s.calls[k].cause))), k, slot, startFails)
  {
    hide TurnUses, TurnStops;
  }

  lemma JoinLeaves(s: State, k: CallId, slot: AttemptId, startFails: Option<Failure>)
    requires k in s.calls && s.calls[k].phase.AtLock? && !TurnUses(s) && !TurnStops(s, s.calls[k])
    requires s.inflight.Some? && s.inflight.value in s.attempts && !s.attempts[s.inflight.value].pending.done
    ensures TurnLeaves(s, JoinAttempt(s, k, s.inflight.value), k, slot, startFails)
  {
    hide TurnUses, TurnStops;
  }

  lemma StartLeaves(s: State, k: CallId, slot: AttemptId, startFails: Option<Failure>)
    requires k in s.calls && s.calls[k].phase.AtLock? && !TurnUses(s) && !TurnStops(s, s.calls[k])
    requires s.inflight.None? && slot !in s.attempts
    ensures startFails.None? ==> TurnLeaves(s, StartAttempt(s, k, slot), k, slot, startFails)
    ensures startFails.Some? ==> TurnLeaves(s, StartFailed(s, k, slot, startFails.value), k, slot, startFails)
  {
    hide TurnUses, TurnStops;
  }

  /** At every turn of every run. */
  lemma TurnIs(states: seq<State>, steps: seq<Step>, i: nat)
    requires Run(states, steps) && i < |steps| && steps[i].Lock?
    ensures steps[i].call in states[i].calls && states[i].calls[steps[i].call].phase.AtLock?
    ensures TurnLeaves(states[i], states[i + 1], steps[i].call, steps[i].slot, steps[i].startFails)
  {
    hide Inv, Locked, Decide, TurnLeaves, Does, May;
    var s, step := states[i], steps[i];
    InvHolds(states, steps, i);
    InvSlot(s);
    assert May(s, step) && states[i + 1] == Does(s, step);
    LockDoes(s, step);
    if s.inflight.Some? { SlotOpen(s, s.inflight.value); }
    LockedLeaves(s, step.call, step.slot, step.startFails);
  }

  // ----- its other steps -----

  /** What becomes of a call that judges the outcome of attempt `a`. A success: its transport is returned. An attempt
      that was aborted: another turn at once, its failure not taken. Any other failure is the call's cause: reported
      at once where it is a refusal, or the last start has passed; else the call sleeps its backoff, no longer
      than until its last start, and doubles the next, up to ten seconds. */
  predicate JudgeLeaves(s: State, s': State, k: CallId, a: AttemptId)
    requires k in s.calls && a in s.attempts
  {
    OnlyCall(s, s', k) &&
    var call, call', p := s.calls[k], s'.calls[k], s.attempts[a].pending;
    var lastStart := call.deadline - 2.0;
    if p.error.None? then call' == call.(phase := Returned(Transport(p.transport)))
    else if p.aborted then call' == call.(phase := AtLock(false), skipped := Some(a))
    else
      var cause := Caused(a, p.error.value);
      && call'.cause == cause && call'.deadline == call.deadline && call'.entered == call.entered
      && call'.failures == call.failures + 1 && call'.joins == call.joins && call'.skipped.None?
      && (if p.error.value.Refused? || s.now >= lastStart then call'.phase == Returned(Message(cause))
          else
            && call'.phase == Sleeping(if s.now + call.delay < lastStart then s.now + call.delay else lastStart)
            && call'.delay == if call.delay * 2.0 < 10.0 then call.delay * 2.0 else 10.0)
  }

  /** A call at its deadline leaves the attempt, unless the outcome has just come, which it then judges; the last to
      leave goes on to abort it. */
  predicate LeaveLeaves(s: State, s': State, k: CallId, a: AttemptId)
    requires k in s.calls && a in s.attempts
  {
    k in s'.calls &&
    var p, phase := s.attempts[a].pending, s'.calls[k].phase;
    if p.done then OnlyCall(s, s', k) && phase == Waiting(a, s.now)
    else
      && a in s'.attempts && s'.attempts[a] == s.attempts[a].(pending := p.(waiters := p.waiters - 1))
      && phase == if p.waiters == 1 then Aborting(a) else Returned(Message(s.calls[k].cause))
  }

  /** The transports the attempt's connection has made. */
  predicate Made(s: State, a: AttemptId, t: TransportId)
    requires a in s.attempts
  {
    t in s.transports && s.attempts[a].pending.conn == Some(s.transports[t])
  }

  /** It is marked, and all its transports are to be closed, exactly when its outcome has not come, no call has joined
      it since, and it has made one. */
  ghost predicate AbortLeaves(s: State, s': State, k: CallId, a: AttemptId)
    requires k in s.calls && a in s.attempts
  {
    k in s'.calls &&
    var p, phase := s.attempts[a].pending, s'.calls[k].phase;
    if !p.done && p.waiters == 0 && exists t :: Made(s, a, t) then
      && a in s'.attempts && s'.attempts[a] == s.attempts[a].(pending := p.(aborted := true))
      && phase.Closing? && phase.attempt == a && forall t :: t in phase.transports <==> Made(s, a, t)
    else OnlyCall(s, s', k) && phase == Returned(Message(s.calls[k].cause))
  }

  /** What each of a call's steps but its turn leaves. */
  ghost predicate StepLeaves(s: State, s': State, step: Step)
    requires step.OfCall() && !step.Lock? && CallMay(s, step)
  {
    step.call in s'.calls &&
    var k, call, phase := step.call, s.calls[step.call], s'.calls[step.call].phase;
    match step
    case FastPath(_) => OnlyCall(s, s', k) && phase == if Connected(s) then Returned(Transport(s.published)) else AtLock(false)
    case Poll(_) =>
      OnlyCall(s, s', k)
      && (if s.now >= call.deadline then phase == Leaving(call.phase.attempt)
          else phase.Waiting? && phase.attempt == call.phase.attempt && PollsFrom(s.now, call, phase.wake))
    case Woken(_) => OnlyCall(s, s', k) && phase == Judging(call.phase.attempt)
    case Leave(_) => LeaveLeaves(s, s', k, call.phase.attempt)
    case Abort(_) => AbortLeaves(s, s', k, call.phase.attempt)
    case Close(_, t) =>
      && t in s'.closed && (t in s.transports && s.transports[t] in s.conns ==>
                              s.transports[t] in s'.conns && !s'.conns[s.transports[t]].live)
      && phase == Closing(call.phase.attempt, call.phase.transports - {t}) && s'.attempts == s.attempts
    case Closed(_) => OnlyCall(s, s', k) && phase == Returned(Message(call.cause))
    case Judge(_) => JudgeLeaves(s, s', k, call.phase.attempt)
    case Wake(_) => OnlyCall(s, s', k) && phase == AtLock(true)
  }

  lemma VerdictLeaves(s: State, k: CallId)
    requires k in s.calls && s.calls[k].phase.Judging? && s.calls[k].phase.attempt in s.attempts
    ensures k in Judged(s, k).calls && JudgeLeaves(s, Judged(s, k), k, s.calls[k].phase.attempt)
  {
  }

  lemma DepartedLeaves(s: State, k: CallId)
    requires k in s.calls && s.calls[k].phase.Leaving? && s.calls[k].phase.attempt in s.attempts
    ensures k in Departed(s, k).calls && LeaveLeaves(s, Departed(s, k), k, s.calls[k].phase.attempt)
  {
  }

  lemma AbortDecidedLeaves(s: State, k: CallId)
    requires k in s.calls && s.calls[k].phase.Aborting? && s.calls[k].phase.attempt in s.attempts
    ensures k in AbortDecided(s, k).calls && AbortLeaves(s, AbortDecided(s, k), k, s.calls[k].phase.attempt)
  {
    var a := s.calls[k].phase.attempt;
    var made := s.TransportsOf(s.attempts[a].pending.conn);
    assert forall t :: t in made <==> Made(s, a, t);
  }

  lemma ClosedLeaves(s: State, k: CallId, t: TransportId)
    requires k in s.calls && s.calls[k].phase.Closing?
    ensures var s' := TransportClosed(s, k, t);
            && k in s'.calls && t in s'.closed && s'.attempts == s.attempts
            && (t in s.transports && s.transports[t] in s.conns ==>
                  s.transports[t] in s'.conns && !s'.conns[s.transports[t]].live)
            && s'.calls[k].phase == Closing(s.calls[k].phase.attempt, s.calls[k].phase.transports - {t})
  {
  }

  lemma CallStepIs(s: State, step: Step)
    requires May(s, step) && step.OfCall() && !step.Lock?
    ensures CallMay(s, step) && StepLeaves(s, Does(s, step), step)
  {
    hide Judged, Departed, AbortDecided, TransportClosed, Locked, JudgeLeaves, LeaveLeaves, AbortLeaves, WorkerDoes, WorkerMay,
         OpenerDoes, OpenerMay;
    if step.Judge? { VerdictLeaves(s, step.call); }
    else if step.Leave? { DepartedLeaves(s, step.call); }
    else if step.Abort? { AbortDecidedLeaves(s, step.call); }
    else if step.Close? { ClosedLeaves(s, step.call, step.transport); }
  }

  // ----- how an attempt ends -----

  /** Of a connection that has just opened: it is published, and the one it replaces is owed a release; or a live one
      stays published, and the new one is owed it. `used` is what calls are given. */
  predicate Publishes(s: State, s': State, c: ConnId, used: Option<ConnId>, owed: Option<ConnId>) {
    if Connected(s) then s'.published == s.published && used == s.published && owed == Some(c)
    else s'.published == Some(c) && used == Some(c) && owed == s.published
  }

  /** The attempt is done and the slot free, with the failure, or the transport of what was published; one that was
      aborted is a failure, whatever its connection came to. */
  predicate SettleLeaves(s: State, s': State, a: AttemptId)
    requires a in s.attempts && (s.attempts[a].worker.Opened? || s.attempts[a].worker.Failing?)
  {
    a in s'.attempts &&
    var p, p', worker, worker' := s.attempts[a].pending, s'.attempts[a].pending, s.attempts[a].worker, s'.attempts[a].worker;
    && p'.done && p'.waiters == p.waiters && p'.aborted == p.aborted && s'.attempts[a].settledAt == s.now
    && s'.inflight == (if s.inflight == Some(a) then None else s.inflight)
    && (if worker.Failing? then
          p'.error == Some(worker.failure) && p'.transport == p.transport && worker'.Ended? && s'.published == s.published
        else if p.aborted then
          p'.error == Some(WasAborted) && p'.transport == p.transport && worker' == Owing(worker.conn) && s'.published == s.published
        else
          && p'.error == p.error && worker'.Settled()
          && Publishes(s, s', worker.conn, p'.transport, worker'.Holds()))
  }

  /** A thread in `open`: nothing to do while a connection is live; and its own, once open, is published likewise. */
  ghost predicate OpenLeaves(s: State, s': State, o: OpenerId)
    requires o in s.openers
  {
    o in s'.openers &&
    var opener, opener' := s.openers[o], s'.openers[o];
    && (opener.Asking? ==> opener' == if Connected(s) then OpenerEnded else OpenerBuilding)
    && (opener.OpenerOpened? ==>
          exists used :: (opener'.OpenerOwing? || opener'.OpenerEnded?) && Publishes(s, s', opener.conn, used, opener'.Holds()))
  }

  /** Not connected, and no one's any more. */
  predicate Gone(s: State, c: ConnId) {
    c in s.released && c in s.conns && !s.conns[c].live
  }

  /** What each of a worker's other steps leaves: a connection built, not connected yet; shared; opened, connected if it
      says so; and, of one that failed or is owed a release, let go. */
  predicate WorkLeaves(s: State, s': State, step: Step)
    requires step.OfWorker() && !step.SettleOpened? && !step.SettleFailed? && WorkerMay(s, step)
  {
    step.attempt in s'.attempts && s'.published == s.published && s'.inflight == s.inflight &&
    var a, worker, worker' := step.attempt, s.attempts[step.attempt].worker, s'.attempts[step.attempt].worker;
    match step
    case Build(_, c) => worker' == Built(c) && c in s'.conns && s'.conns[c] == Conn(ByAttempt(a), false)
    case BuildFails(_, failure) => worker' == Failing(failure) && s'.conns == s.conns
    case Share(_) => worker' == Opening(worker.conn) && s'.attempts[a].pending == s.attempts[a].pending.(conn := Some(worker.conn))
    case MakeTransport(_, t) => worker' == worker && t in s'.transports && s'.transports[t] == worker.conn
    case OpenReturns(_, live) => worker' == Opened(worker.conn) && worker.conn in s'.conns && s'.conns[worker.conn].live == live
    case OpenFails(_, failure) => worker' == Dropping(worker.conn, failure)
    case Drop(_) => worker' == Failing(worker.failure) && Gone(s', worker.conn)
    case Release(_) => worker'.Ended? && Gone(s', worker.conn)
  }

  /** And of an opener's. */
  predicate OpenerLeaves(s: State, s': State, step: Step)
    requires step.OfOpener() && !step.OpenAsks? && !step.OpenPublishes? && OpenerMay(s, step)
  {
    step.opener in s'.openers && s'.published == s.published &&
    var o, opener, opener' := step.opener, s.openers[step.opener], s'.openers[step.opener];
    match step
    case OpenBuilds(_, c) => opener' == OpenerOpening(c) && c in s'.conns && s'.conns[c] == Conn(ByOpener(o), false)
    case OpenMakesTransport(_, t) => opener' == opener && t in s'.transports && s'.transports[t] == opener.conn
    case OpenOpens(_, live) => opener' == OpenerOpened(opener.conn) && opener.conn in s'.conns && s'.conns[opener.conn].live == live
    case OpenGivesUp(_) => opener' == OpenerOwing(opener.conn)
    case OpenReleases(_) => opener'.OpenerEnded? && Gone(s', opener.conn)
  }

  lemma WorkerStepIs(s: State, step: Step)
    requires May(s, step) && step.OfWorker() && !step.SettleOpened? && !step.SettleFailed?
    ensures WorkerMay(s, step) && WorkLeaves(s, Does(s, step), step)
  {
    hide CallDoes, CallMay, OpenerDoes, OpenerMay;
  }

  lemma OpenerStepIs(s: State, step: Step)
    requires May(s, step) && step.OfOpener() && !step.OpenAsks? && !step.OpenPublishes?
    ensures OpenerMay(s, step) && OpenerLeaves(s, Does(s, step), step)
  {
    hide CallDoes, CallMay, WorkerDoes, WorkerMay;
  }

  lemma SettleIs(s: State, step: Step)
    requires May(s, step) && (step.SettleOpened? || step.SettleFailed?)
    ensures step.attempt in s.attempts && (s.attempts[step.attempt].worker.Opened? || s.attempts[step.attempt].worker.Failing?)
    ensures SettleLeaves(s, Does(s, step), step.attempt)
  {
    hide CallDoes, CallMay, OpenerDoes, OpenerMay;
  }

  lemma OpenIs(s: State, step: Step)
    requires May(s, step) && (step.OpenAsks? || step.OpenPublishes?)
    ensures step.opener in s.openers && OpenLeaves(s, Does(s, step), step.opener)
  {
    hide CallDoes, CallMay, WorkerDoes, WorkerMay;
    if step.OpenPublishes? {
      var s', c := Does(s, step), s.openers[step.opener].conn;
      assert Publishes(s, s', c, if Connected(s) then s.published else Some(c), s'.openers[step.opener].Holds());
    }
  }

  // ----- when a call gives up -----

  /** A call that leaves an attempt, or ends one, has reached its deadline. */
  ghost predicate LateOk(s: State, k: CallId)
    requires k in s.calls
  {
    var phase := s.calls[k].phase;
    phase.Leaving? || phase.Aborting? || phase.Closing? ==> s.now >= s.calls[k].deadline
  }

  ghost predicate LateInv(s: State) {
    forall k :: k in s.calls ==> LateOk(s, k)
  }

  lemma LateOwn(s: State, step: Step)
    requires May(s, step) && step.OfCall() && LateOk(s, step.call)
    ensures step.call in Does(s, step).calls && LateOk(Does(s, step), step.call)
  {
    hide Locked, Decide, Judged, Departed, AbortDecided, TransportClosed, WorkerDoes, WorkerMay, OpenerDoes, OpenerMay;
    NowGrows(s, step);
    DeadlineStays(s, step, step.call);
    if step.Lock? { LockPhase(s, step.call, step.slot, Decide(s, s.calls[step.call], step.startFails)); }
    else { CallStepIs(s, step); }
  }

  lemma LockPhase(s: State, k: CallId, slot: AttemptId, d: Decision)
    requires k in s.calls && (d.Join? ==> d.attempt in s.attempts)
    ensures k in Locked(s, k, slot, d).calls
    ensures Locked(s, k, slot, d).calls[k].phase.Waiting? || Locked(s, k, slot, d).calls[k].phase.Returned?
  {
  }

  lemma LateKept(s: State, step: Step)
    requires LateInv(s) && May(s, step)
    ensures LateInv(Does(s, step))
  {
    hide May, Does, LateOk;
    var s' := Does(s, step);
    forall k | k in s'.calls ensures LateOk(s', k) {
      LateOne(s, step, k);
    }
  }

  lemma LateOne(s: State, step: Step, k: CallId)
    requires LateInv(s) && May(s, step) && k in Does(s, step).calls
    ensures LateOk(Does(s, step), k)
  {
    hide CallDoes, WorkerDoes, OpenerDoes, CallMay, WorkerMay, OpenerMay;
    CallSource(s, step, k);
    NowGrows(s, step);
    if step.OfCall() && step.call == k {
      assert LateOk(s, k) by { CallExists(s, step); }
      LateOwn(s, step);
    } else if !(step.Enter? && step.call == k) {
      assert LateOk(s, k);
    }
  }

  lemma CallExists(s: State, step: Step)
    requires May(s, step) && step.OfCall()
    ensures step.call in s.calls
  {
  }

  lemma {:induction false} LateHolds(states: seq<State>, steps: seq<Step>, i: nat)
    requires Run(states, steps) && i < |states|
    ensures LateInv(states[i])
    decreases i
  {
    hide May, Does, LateOk;
    if i > 0 {
      LateHolds(states, steps, i - 1);
      LateKept(states[i - 1], steps[i - 1]);
    }
  }

  /** On any clock, a call gives up only when its last start has passed, when its cause is a refusal, or when a
      thread of its own could not start. */
  lemma GivesUpOnlyFor(states: seq<State>, steps: seq<Step>, i: nat, k: CallId)
    requires Run(states, steps) && i < |steps| && k in states[i].calls && k in states[i + 1].calls
    requires !states[i].calls[k].phase.Returned?
    requires states[i + 1].calls[k].phase.Returned? && states[i + 1].calls[k].phase.outcome.Message?
    ensures var cause := states[i + 1].calls[k].phase.outcome.cause;
            || states[i].now >= states[i].calls[k].deadline - 2.0
            || (cause.Caused? && cause.failure.Refused?)
            || (steps[i].Lock? && steps[i].call == k && cause.Caused? && steps[i].startFails == Some(cause.failure)
                && states[i].inflight.None?)
  {
    hide May, Does, TurnLeaves, LateOk;
    var s, step := states[i], steps[i];
    LateHolds(states, steps, i);
    CallSource(s, step, k);
    assert LateOk(s, k);
    if step.Enter? { EnterIsNew(s, step); }
    assert step.OfCall() && step.call == k;
    if step.Lock? { TurnIs(states, steps, i); GivenUpAtTurn(s, states[i + 1], k, step.slot, step.startFails); }
    else { CallStepIs(s, step); GivenUpAtStep(s, states[i + 1], step); }
  }

  lemma GivenUpAtTurn(s: State, s': State, k: CallId, slot: AttemptId, startFails: Option<Failure>)
    requires k in s.calls && s.calls[k].phase.AtLock? && TurnLeaves(s, s', k, slot, startFails)
    requires k in s'.calls && s'.calls[k].phase.Returned? && s'.calls[k].phase.outcome.Message?
    ensures || s.now >= s.calls[k].deadline - 2.0
            || (s.inflight.None? && startFails.Some? && s'.calls[k].phase.outcome.cause == Caused(slot, startFails.value))
  {
  }

  lemma GivenUpAtStep(s: State, s': State, step: Step)
    requires step.OfCall() && !step.Lock? && CallMay(s, step) && StepLeaves(s, s', step) && LateOk(s, step.call)
    requires step.call in s'.calls && s'.calls[step.call].phase.Returned? && s'.calls[step.call].phase.outcome.Message?
    ensures var cause := s'.calls[step.call].phase.outcome.cause;
            s.now >= s.calls[step.call].deadline - 2.0 || (cause.Caused? && cause.failure.Refused?)
  {
  }

  // ----- and that it does not while it could still try -----

  /** Attempt `a`, which the call is on or has just met, was still going at the call's last start. */
  ghost predicate WasGoing(s: State, call: Call, a: AttemptId) {
    && (call.phase.Names(a) || call.skipped == Some(a))
    && a in s.attempts && (s.attempts[a].pending.done ==> s.attempts[a].settledAt >= call.deadline - 2.0)
  }

  /** With an ideal clock, a call that gives up, and not for a refusal or a thread that could not start, came too late
      to try; or an attempt it was on was still going when its last start passed. */
  lemma StillTrying(states: seq<State>, steps: seq<Step>, i: nat, k: CallId)
    requires IdealRun(states, steps) && i < |steps| && k in states[i].calls && k in states[i + 1].calls
    requires !states[i].calls[k].phase.Returned?
    requires states[i + 1].calls[k].phase.Returned? && states[i + 1].calls[k].phase.outcome.Message?
    requires var cause := states[i + 1].calls[k].phase.outcome.cause;
             && !(cause.Caused? && cause.failure.Refused?)
             && !(steps[i].Lock? && steps[i].call == k && cause.Caused? && steps[i].startFails == Some(cause.failure))
    ensures || states[i].calls[k].entered >= states[i].calls[k].deadline - 2.0
            || exists a :: WasGoing(states[i], states[i].calls[k], a)
  {
    hide Inv, May, Does, TurnLeaves, LateOk, TimeInv, CallTimely;
    var s, step := states[i], steps[i];
    GivesUpOnlyFor(states, steps, i, k);
    TimeHolds(states, steps, i);
    TimelyCall(s, k);
    InvCall(s, k);
    CallSource(s, step, k);
    if step.Enter? { EnterIsNew(s, step); }
    if step.Lock? { TurnIs(states, steps, i); StoppedTurn(s, states[i + 1], k, step.slot, step.startFails); }
    else { CallStepIs(s, step); StoppedStep(s, states[i + 1], step); }
  }

  lemma StoppedTurn(s: State, s': State, k: CallId, slot: AttemptId, startFails: Option<Failure>)
    requires k in s.calls && s.calls[k].phase.AtLock? && TurnLeaves(s, s', k, slot, startFails) && CallTimely(s, k)
    requires k in s'.calls && s'.calls[k].phase.Returned? && s'.calls[k].phase.outcome.Message?
    requires s.now >= s.calls[k].deadline - 2.0
    requires !(startFails.Some? && s'.calls[k].phase.outcome.cause == Caused(slot, startFails.value))
    ensures s.calls[k].entered >= s.calls[k].deadline - 2.0 || exists a :: WasGoing(s, s.calls[k], a)
  {
    var call := s.calls[k];
    if call.skipped.Some? {
      assert SettledNow(s, call.skipped.value);
      assert WasGoing(s, call, call.skipped.value);
    }
  }

  lemma StoppedStep(s: State, s': State, step: Step)
    requires step.OfCall() && !step.Lock? && CallMay(s, step) && StepLeaves(s, s', step) && CallTimely(s, step.call)
    requires PhaseOk(s, s.calls[step.call].phase) && s.now >= s.calls[step.call].deadline - 2.0
    requires step.call in s'.calls && s'.calls[step.call].phase.Returned? && s'.calls[step.call].phase.outcome.Message?
    ensures exists a :: WasGoing(s, s.calls[step.call], a)
  {
    var call := s.calls[step.call];
    assert WasGoing(s, call, call.phase.attempt);
  }

  /** The call is on attempt `a`, which has succeeded with this transport, or has returned it. */
  ghost predicate OnSuccess(s: State, k: CallId, a: AttemptId, used: Option<ConnId>) {
    && k in s.calls && DoneIn(s, a) && s.attempts[a].pending.error.None? && s.attempts[a].pending.transport == used
    && var phase := s.calls[k].phase;
       ((phase.Waiting? || phase.Leaving? || phase.Judging?) && phase.attempt == a) || phase == Returned(Transport(used))
  }

  lemma SuccessStays(s: State, step: Step, k: CallId, a: AttemptId, used: Option<ConnId>)
    requires Inv(s) && May(s, step) && OnSuccess(s, k, a, used)
    ensures OnSuccess(Does(s, step), k, a, used)
  {
    hide Inv, May, Does, Grows;
    var s' := Does(s, step);
    InvKept(s, step);
    DeadlineStays(s, step, k);
    CallSource(s, step, k);
    DoneGrows(s, s', a);
    RecordStays(s, s', a);
    if step.Enter? { EnterIsNew(s, step); }
    if step.OfCall() && step.call == k {
      if step.Lock? { LockDoes(s, step); } else { CallStepIs(s, step); SuccessStep(s, s', step, a, used); }
    }
  }

  lemma RecordStays(s: State, s': State, a: AttemptId)
    requires Grows(s, s') && DoneIn(s, a)
    ensures a in s'.attempts && s'.attempts[a].pending == s.attempts[a].pending
  {
  }

  lemma SuccessStep(s: State, s': State, step: Step, a: AttemptId, used: Option<ConnId>)
    requires step.OfCall() && !step.Lock? && CallMay(s, step) && StepLeaves(s, s', step) && OnSuccess(s, step.call, a, used)
    requires DoneIn(s', a) && s'.attempts[a].pending == s.attempts[a].pending
    ensures OnSuccess(s', step.call, a, used)
  {
    hide AbortLeaves, PollsFrom, Made;
  }

  /** Once the attempt a call is on has succeeded, the call returns that attempt's transport and nothing else, whatever
      the clock and its deadline are: from then on it is about to, or has. */
  lemma {:induction false} SuccessIsUsed(states: seq<State>, steps: seq<Step>, i: nat, j: nat, k: CallId, a: AttemptId)
    requires Run(states, steps) && i <= j < |states| && k in states[i].calls && DoneIn(states[i], a)
    requires states[i].attempts[a].pending.error.None?
    requires var phase := states[i].calls[k].phase; (phase.Waiting? || phase.Leaving? || phase.Judging?) && phase.attempt == a
    ensures OnSuccess(states[j], k, a, states[i].attempts[a].pending.transport)
    decreases j
  {
    hide Inv, May, Does;
    if i < j {
      SuccessIsUsed(states, steps, i, j - 1, k, a);
      InvHolds(states, steps, j - 1);
      SuccessStays(states[j - 1], steps[j - 1], k, a, states[i].attempts[a].pending.transport);
    }
  }
}
