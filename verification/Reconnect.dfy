/** The reconnect protocol of `SSHExecutor` (executor/ssh.py) as a transition system: any number of
    calls and of threads in `open`, one worker a connect attempt, every interleaving of their
    lock-protected regions and of the unlocked actions between them, and an environment that ends a
    connection or an attempt at any time.

    The regions themselves are the functions of `Regions`, which the class of `Executor` implements. */
module Reconnect {
  import opened Wrappers
  import opened Regions

  type Time = real

  // ----- constants, in seconds -----

  const INITIAL_RECONNECT_DELAY: Time := 0.5
  const MAX_RECONNECT_DELAY: Time := 10.0
  const ATTEMPT_POLL: Time := 0.1
  const FINAL_ATTEMPT_LEAD: Time := 2.0

  function Min(a: Time, b: Time): Time { if a < b then a else b }
  function Max(a: Time, b: Time): Time { if a < b then b else a }

  // ----- connections -----

  datatype Maker = ByAttempt(attempt: AttemptId) | ByOpener(opener: OpenerId)

  /** A connection: who built it, and whether it is connected. */
  datatype Conn = Conn(maker: Maker, live: bool)

  /** Where a connection is accounted for (a history variable). */
  datatype Place = AtWorker(attempt: AttemptId) | AtOpener(opener: OpenerId) | AtPublished | AtReleased

  // ----- threads -----

  /** A worker: `_attempt`, then the rest of `_settle`. */
  datatype Worker =
    | Building
    | Built(conn: ConnId)
    | Opening(conn: ConnId)
    | Opened(conn: ConnId)
    | Dropping(conn: ConnId, failure: Failure)
    | Failing(failure: Failure)
    | Owing(conn: ConnId)
    | Ended
  {
    predicate Settled() { Owing? || Ended? }

    function Holds(): Option<ConnId> {
      match this
      case Built(c) => Some(c)
      case Opening(c) => Some(c)
      case Opened(c) => Some(c)
      case Dropping(c, _) => Some(c)
      case Owing(c) => Some(c)
      case _ => None
    }
  }

  /** A connect attempt: what the calls share of it, its worker, and when it was started, by which call,
      and when it was settled (history). */
  datatype Attempt = Attempt(pending: Pending, worker: Worker, startedAt: Time, starter: CallId, settledAt: Time)

  /** A thread in the public `open`. */
  datatype Opener =
    | Asking
    | OpenerBuilding
    | OpenerOpening(conn: ConnId)
    | OpenerOpened(conn: ConnId)
    | OpenerOwing(conn: ConnId)
    | OpenerEnded
  {
    function Holds(): Option<ConnId> {
      match this
      case OpenerOpening(c) => Some(c)
      case OpenerOpened(c) => Some(c)
      case OpenerOwing(c) => Some(c)
      case _ => None
    }
  }

  /** What a call reports when it gives up: `timed out` when it met no failure, else the failure of an
      attempt. */
  datatype Cause = NoCause | Caused(attempt: AttemptId, failure: Failure)

  /** What `_ensure_connected` returns: the transport of a connection, or a message. */
  datatype Outcome = Transport(conn: Option<ConnId>) | Message(cause: Cause)

  datatype Phase =
    | Begun
    | AtLock(scheduled: bool)
    | Waiting(attempt: AttemptId, wake: Time)
    | Leaving(attempt: AttemptId)
    | Aborting(attempt: AttemptId)
    | Closing(attempt: AttemptId, transports: set<TransportId>)
    | Judging(attempt: AttemptId)
    | Sleeping(wake: Time)
    | Returned(outcome: Outcome)
  {
    /** The call is counted in the attempt's `waiters` while that attempt is not done. */
    predicate WaitsOn(a: AttemptId) { (Waiting? || Leaving?) && attempt == a }

    predicate Names(a: AttemptId) { (Waiting? || Leaving? || Aborting? || Closing? || Judging?) && attempt == a }
  }

  /** One `_ensure_connected(deadline)`. The last three count, for the proofs: the failures it took as
      its cause, the attempts it started or joined, and whether the last one it met was aborted. */
  datatype Call = Call(entered: Time, deadline: Time, delay: Time, cause: Cause, phase: Phase,
                       failures: nat, joins: nat, skipped: Option<AttemptId>)
  {
    function LastStart(): Time { deadline - FINAL_ATTEMPT_LEAD }
  }

  // ----- the state -----

  datatype State = State(
    now: Time,
    conns: map<ConnId, Conn>,
    transports: map<TransportId, ConnId>,
    closed: map<TransportId, AttemptId>,
    published: Option<ConnId>,
    everPublished: set<ConnId>,
    inflight: Option<AttemptId>,
    attempts: map<AttemptId, Attempt>,
    openers: map<OpenerId, Opener>,
    calls: map<CallId, Call>,
    released: set<ConnId>,
    places: map<ConnId, Place>)
  {
    /** `_live(self._conn)`: the published connection, while it is connected. */
    function Live(): Option<ConnId> {
      if published.Some? && published.value in conns && conns[published.value].live then published else None
    }

    /** `_transports(conn)`: those its client and its gateways have made so far. */
    function TransportsOf(conn: Option<ConnId>): (ts: set<TransportId>) {
      set t | t in transports && Some(transports[t]) == conn
    }
  }

  predicate Init(s: State) {
    s.conns == map[] && s.transports == map[] && s.closed == map[] && s.published == None && s.everPublished == {}
    && s.inflight == None && s.attempts == map[] && s.openers == map[] && s.calls == map[] && s.released == {} && s.places == map[]
  }

  // ----- the steps -----

  datatype Step =
    // The environment.
    | Tick(later: Time)
    | Kill(conn: ConnId)
    // A call.
    | Enter(call: CallId, deadline: Time)
    | FastPath(call: CallId)
    | Lock(call: CallId, slot: AttemptId, startFails: Option<Failure>)
    | Poll(call: CallId)
    | Woken(call: CallId)
    | Leave(call: CallId)
    | Abort(call: CallId)
    | Close(call: CallId, transport: TransportId)
    | Closed(call: CallId)
    | Judge(call: CallId)
    | Wake(call: CallId)
    // A worker.
    | Build(attempt: AttemptId, conn: ConnId)
    | BuildFails(attempt: AttemptId, failure: Failure)
    | Share(attempt: AttemptId)
    | MakeTransport(attempt: AttemptId, transport: TransportId)
    | OpenReturns(attempt: AttemptId, live: bool)
    | OpenFails(attempt: AttemptId, failure: Failure)
    | Drop(attempt: AttemptId)
    | SettleFailed(attempt: AttemptId)
    | SettleOpened(attempt: AttemptId)
    | Release(attempt: AttemptId)
    // A thread in `open`.
    | OpenCalled(opener: OpenerId)
    | OpenAsks(opener: OpenerId)
    | OpenBuilds(opener: OpenerId, conn: ConnId)
    | OpenMakesTransport(opener: OpenerId, transport: TransportId)
    | OpenOpens(opener: OpenerId, live: bool)
    | OpenGivesUp(opener: OpenerId)
    | OpenPublishes(opener: OpenerId)
    | OpenReleases(opener: OpenerId)
  {
    predicate OfCall() {
      FastPath? || Lock? || Poll? || Woken? || Leave? || Abort? || Close? || Closed? || Judge? || Wake?
    }

    predicate OfWorker() {
      Build? || BuildFails? || Share? || MakeTransport? || OpenReturns? || OpenFails? || Drop? || SettleFailed? || SettleOpened? || Release?
    }

    predicate OfOpener() {
      OpenAsks? || OpenBuilds? || OpenMakesTransport? || OpenOpens? || OpenGivesUp? || OpenPublishes? || OpenReleases?
    }
  }

  predicate DoneIn(s: State, a: AttemptId) { a in s.attempts && s.attempts[a].pending.done }

  /** A connection can be connected when `open` returns only if it has a transport and none was closed. */
  predicate MayBeLive(s: State, c: ConnId) {
    s.TransportsOf(Some(c)) != {} && forall t :: t in s.TransportsOf(Some(c)) ==> t !in s.closed
  }

  predicate CallMay(s: State, step: Step)
    requires step.OfCall()
  {
    step.call in s.calls &&
    var phase := s.calls[step.call].phase;
    match step
    case FastPath(_) => phase.Begun?
    case Lock(_, slot, _) => phase.AtLock? && slot !in s.attempts && (s.inflight.Some? ==> s.inflight.value in s.attempts)
    case Poll(_) => phase.Waiting? && !DoneIn(s, phase.attempt) && s.now >= phase.wake
    case Woken(_) => phase.Waiting? && DoneIn(s, phase.attempt)
    case Leave(_) => phase.Leaving? && phase.attempt in s.attempts
    case Abort(_) => phase.Aborting? && phase.attempt in s.attempts
    case Close(_, t) => phase.Closing? && t in phase.transports
    case Closed(_) => phase.Closing? && phase.transports == {}
    case Judge(_) => phase.Judging? && phase.attempt in s.attempts
    case Wake(_) => phase.Sleeping? && s.now >= phase.wake
  }

  predicate WorkerMay(s: State, step: Step)
    requires step.OfWorker()
  {
    step.attempt in s.attempts &&
    var worker := s.attempts[step.attempt].worker;
    match step
    case Build(_, c) => worker.Building? && c !in s.conns
    case BuildFails(_, _) => worker.Building?
    case Share(_) => worker.Built?
    case MakeTransport(_, t) => worker.Opening? && t !in s.transports
    case OpenReturns(_, live) => worker.Opening? && worker.conn in s.conns && (live ==> MayBeLive(s, worker.conn))
    case OpenFails(_, _) => worker.Opening?
    case Drop(_) => worker.Dropping? && worker.conn in s.conns
    case SettleFailed(_) => worker.Failing?
    case SettleOpened(_) => worker.Opened?
    case Release(_) => worker.Owing? && worker.conn in s.conns
  }

  predicate OpenerMay(s: State, step: Step)
    requires step.OfOpener()
  {
    step.opener in s.openers &&
    var opener := s.openers[step.opener];
    match step
    case OpenAsks(_) => opener.Asking?
    case OpenBuilds(_, c) => opener.OpenerBuilding? && c !in s.conns
    case OpenMakesTransport(_, t) => opener.OpenerOpening? && t !in s.transports
    case OpenOpens(_, live) => opener.OpenerOpening? && opener.conn in s.conns && (live ==> MayBeLive(s, opener.conn))
    case OpenGivesUp(_) => opener.OpenerOpening?
    case OpenPublishes(_) => opener.OpenerOpened?
    case OpenReleases(_) => opener.OpenerOwing? && opener.conn in s.conns
  }

  predicate May(s: State, step: Step) {
    if step.OfCall() then CallMay(s, step)
    else if step.OfWorker() then WorkerMay(s, step)
    else if step.OfOpener() then OpenerMay(s, step)
    else match step
      case Tick(later) => s.now <= later
      case Kill(c) => c in s.conns
      case Enter(k, _) => k !in s.calls
      case OpenCalled(o) => o !in s.openers
      case _ => false
  }

  // ----- what a step does -----

  function WithCall(s: State, k: CallId, call: Call): State { s.(calls := s.calls[k := call]) }

  function AtPhase(s: State, k: CallId, phase: Phase): State
    requires k in s.calls
  {
    WithCall(s, k, s.calls[k].(phase := phase))
  }

  function WithAttempt(s: State, a: AttemptId, attempt: Attempt): State { s.(attempts := s.attempts[a := attempt]) }

  function WithPending(s: State, a: AttemptId, pending: Pending): State
    requires a in s.attempts
  {
    WithAttempt(s, a, s.attempts[a].(pending := pending))
  }

  function AtWork(s: State, a: AttemptId, worker: Worker): State
    requires a in s.attempts
  {
    WithAttempt(s, a, s.attempts[a].(worker := worker))
  }

  function Killed(s: State, c: ConnId): State
    requires c in s.conns
  {
    s.(conns := s.conns[c := s.conns[c].(live := false)])
  }

  /** `_release`: the connection's clients are closed, and it is no one's any more. */
  function Let(s: State, c: ConnId): State
    requires c in s.conns
  {
    Killed(s, c).(released := s.released + {c}, places := s.places[c := AtReleased])
  }

  /** When the next poll of an attempt ends: `min(ATTEMPT_POLL, deadline - now)`, never in the past. */
  function NextPoll(call: Call, now: Time): Time {
    now + Max(0.0, Min(ATTEMPT_POLL, call.deadline - now))
  }

  /** What the locked region at the head of `_ensure_connected`'s loop decides. */
  datatype Decision = Use | GiveUp | Join(attempt: AttemptId) | Start | StartFails(failure: Failure)

  function Decide(s: State, call: Call, startFails: Option<Failure>): (d: Decision)
    requires call.phase.AtLock?
    ensures d.Join? ==> s.inflight == Some(d.attempt)
    ensures d.Start? || d.StartFails? ==> s.inflight.None? && s.Live().None?
    ensures d.Use? ==> s.Live().Some?
  {
    match Choose(s.inflight.Some?, s.Live().Some?, call.phase.scheduled, s.now >= call.LastStart())
    case UseLive => Use
    case StopTrying => GiveUp
    case JoinIt => Join(s.inflight.value)
    case StartOne => if startFails.Some? then StartFails(startFails.value) else Start
  }

  function JoinAttempt(s: State, k: CallId, a: AttemptId): State
    requires k in s.calls && a in s.attempts
  {
    var call := s.calls[k];
    WithCall(WithPending(s, a, Joined(s.attempts[a].pending)), k,
             call.(joins := call.joins + 1, phase := Waiting(a, NextPoll(call, s.now))))
  }

  function StartAttempt(s: State, k: CallId, slot: AttemptId): State
    requires k in s.calls
  {
    var call := s.calls[k];
    WithCall(WithAttempt(s, slot, Attempt(NEW_PENDING, Building, s.now, k, s.now)), k,
             call.(joins := call.joins + 1, phase := Waiting(slot, NextPoll(call, s.now)))).(inflight := Some(slot))
  }

  /** A worker thread that cannot start: the slot is freed within the region that took it. */
  function StartFailed(s: State, k: CallId, slot: AttemptId, failure: Failure): State
    requires k in s.calls
  {
    AtPhase(WithAttempt(s, slot, Attempt(Failed(NEW_PENDING, failure), Ended, s.now, k, s.now)), k,
            Returned(Message(Caused(slot, failure))))
  }

  function Locked(s: State, k: CallId, slot: AttemptId, d: Decision): State
    requires k in s.calls && (d.Join? ==> d.attempt in s.attempts)
  {
    match d
    case Use => AtPhase(s, k, Returned(Transport(s.Live())))
    case GiveUp => AtPhase(s, k, Returned(Message(s.calls[k].cause)))
    case Join(a) => JoinAttempt(s, k, a)
    case Start => StartAttempt(s, k, slot)
    case StartFails(failure) => StartFailed(s, k, slot, failure)
  }

  /** What a call makes of a done attempt. */
  function Verdict(call: Call, a: AttemptId, pending: Pending, now: Time): Call {
    if pending.error.None? then call.(phase := Returned(Transport(pending.transport)))
    else if pending.aborted then call.(phase := AtLock(false), skipped := Some(a))
    else
      var cause := Caused(a, pending.error.value);
      var adopted := call.(cause := cause, failures := call.failures + 1, skipped := None);
      if pending.error.value.Refused? || now >= call.LastStart() then adopted.(phase := Returned(Message(cause)))
      else
        adopted.(phase := Sleeping(now + Min(call.delay, call.LastStart() - now)),
                 delay := Min(call.delay * 2.0, MAX_RECONNECT_DELAY))
  }

  function Judged(s: State, k: CallId): State
    requires k in s.calls && s.calls[k].phase.Judging? && s.calls[k].phase.attempt in s.attempts
  {
    var call := s.calls[k];
    WithCall(s, k, Verdict(call, call.phase.attempt, s.attempts[call.phase.attempt].pending, s.now))
  }

  /** `_leave`, and what a call does next. */
  function Departed(s: State, k: CallId): State
    requires k in s.calls && s.calls[k].phase.Leaving? && s.calls[k].phase.attempt in s.attempts
  {
    var call := s.calls[k];
    var a := call.phase.attempt;
    var left := Left(s.attempts[a].pending);
    if left.None? then AtPhase(s, k, Waiting(a, s.now))
    else AtPhase(WithPending(s, a, left.value), k,
                 if left.value.waiters == 0 then Aborting(a) else Returned(Message(call.cause)))
  }

  /** `_abort`'s region. */
  function AbortDecided(s: State, k: CallId): State
    requires k in s.calls && s.calls[k].phase.Aborting? && s.calls[k].phase.attempt in s.attempts
  {
    var call := s.calls[k];
    var a := call.phase.attempt;
    var pending := s.attempts[a].pending;
    var closing := s.TransportsOf(pending.conn);
    if Aborts(pending, closing) then AtPhase(WithPending(s, a, Marked(pending)), k, Closing(a, closing))
    else AtPhase(s, k, Returned(Message(call.cause)))
  }

  /** A transport closed, outside the lock. */
  function TransportClosed(s: State, k: CallId, t: TransportId): State
    requires k in s.calls && s.calls[k].phase.Closing?
  {
    var phase := s.calls[k].phase;
    var closed := if t in s.transports && s.transports[t] in s.conns then Killed(s, s.transports[t]) else s;
    AtPhase(closed.(closed := s.closed[t := phase.attempt]), k, Closing(phase.attempt, phase.transports - {t}))
  }

  function CallDoes(s: State, step: Step): State
    requires step.OfCall() && CallMay(s, step)
  {
    var k := step.call;
    var call := s.calls[k];
    match step
    case FastPath(_) => AtPhase(s, k, if s.Live().Some? then Returned(Transport(s.Live())) else AtLock(false))
    case Lock(_, slot, startFails) => Locked(s, k, slot, Decide(s, call, startFails))
    case Poll(_) => AtPhase(s, k, if s.now >= call.deadline then Leaving(call.phase.attempt)
                                  else Waiting(call.phase.attempt, NextPoll(call, s.now)))
    case Woken(_) => AtPhase(s, k, Judging(call.phase.attempt))
    case Leave(_) => Departed(s, k)
    case Abort(_) => AbortDecided(s, k)
    case Close(_, t) => TransportClosed(s, k, t)
    case Closed(_) => AtPhase(s, k, Returned(Message(call.cause)))
    case Judge(_) => Judged(s, k)
    case Wake(_) => AtPhase(s, k, AtLock(true))
  }

  /** The slot after `a` is settled: `if self._inflight is pending`. */
  function Freed(s: State, a: AttemptId): Option<AttemptId> {
    if s.inflight == Some(a) then None else s.inflight
  }

  function Placed(places: map<ConnId, Place>, c: Option<ConnId>, place: Place): map<ConnId, Place> {
    if c.Some? then places[c.value := place] else places
  }

  function SettledOpen(s: State, a: AttemptId): State
    requires a in s.attempts && s.attempts[a].worker.Opened?
  {
    var attempt := s.attempts[a];
    var c := attempt.worker.conn;
    var settled := Settled(attempt.pending, c, s.published, s.Live());
    var next := if settled.dropped.Some? then Owing(settled.dropped.value) else Ended;
    WithAttempt(s, a, attempt.(pending := settled.pending, worker := next, settledAt := s.now)).(
      published := settled.published,
      everPublished := if settled.published == Some(c) then s.everPublished + {c} else s.everPublished,
      inflight := Freed(s, a),
      places := Placed(Placed(s.places, settled.published, AtPublished), settled.dropped, AtWorker(a)))
  }

  function WorkerDoes(s: State, step: Step): State
    requires step.OfWorker() && WorkerMay(s, step)
  {
    var a := step.attempt;
    var attempt := s.attempts[a];
    var worker := attempt.worker;
    match step
    case Build(_, c) =>
      AtWork(s, a, Built(c)).(conns := s.conns[c := Conn(ByAttempt(a), false)], places := s.places[c := AtWorker(a)])
    case BuildFails(_, failure) => AtWork(s, a, Failing(failure))
    case Share(_) => WithAttempt(s, a, attempt.(pending := attempt.pending.(conn := Some(worker.conn)), worker := Opening(worker.conn)))
    case MakeTransport(_, t) => s.(transports := s.transports[t := worker.conn])
    case OpenReturns(_, live) =>
      AtWork(s, a, Opened(worker.conn)).(conns := s.conns[worker.conn := s.conns[worker.conn].(live := live)])
    case OpenFails(_, failure) => AtWork(s, a, Dropping(worker.conn, failure))
    case Drop(_) => AtWork(Let(s, worker.conn), a, Failing(worker.failure))
    case SettleFailed(_) =>
      WithAttempt(s, a, attempt.(pending := Failed(attempt.pending, worker.failure), worker := Ended, settledAt := s.now)).(
        inflight := Freed(s, a))
    case SettleOpened(_) => SettledOpen(s, a)
    case Release(_) => AtWork(Let(s, worker.conn), a, Ended)
  }

  function OpenerAt(s: State, o: OpenerId, opener: Opener): State { s.(openers := s.openers[o := opener]) }

  function OpenerDoes(s: State, step: Step): State
    requires step.OfOpener() && OpenerMay(s, step)
  {
    var o := step.opener;
    var opener := s.openers[o];
    match step
    case OpenAsks(_) => OpenerAt(s, o, if s.Live().Some? then OpenerEnded else OpenerBuilding)
    case OpenBuilds(_, c) =>
      OpenerAt(s, o, OpenerOpening(c)).(conns := s.conns[c := Conn(ByOpener(o), false)], places := s.places[c := AtOpener(o)])
    case OpenMakesTransport(_, t) => s.(transports := s.transports[t := opener.conn])
    case OpenOpens(_, live) =>
      OpenerAt(s, o, OpenerOpened(opener.conn)).(conns := s.conns[opener.conn := s.conns[opener.conn].(live := live)])
    case OpenGivesUp(_) => OpenerAt(s, o, OpenerOwing(opener.conn))
    case OpenPublishes(_) =>
      var c := opener.conn;
      var put := Publish(c, s.published, s.Live());
      OpenerAt(s, o, if put.dropped.Some? then OpenerOwing(put.dropped.value) else OpenerEnded).(
        published := put.published,
        everPublished := if put.published == Some(c) then s.everPublished + {c} else s.everPublished,
        places := Placed(Placed(s.places, put.published, AtPublished), put.dropped, AtOpener(o)))
    case OpenReleases(_) => OpenerAt(Let(s, opener.conn), o, OpenerEnded)
  }

  function Does(s: State, step: Step): State
    requires May(s, step)
  {
    if step.OfCall() then CallDoes(s, step)
    else if step.OfWorker() then WorkerDoes(s, step)
    else if step.OfOpener() then OpenerDoes(s, step)
    else match step
      case Tick(later) => s.(now := later)
      case Kill(c) => Killed(s, c)
      case Enter(k, deadline) => WithCall(s, k, Call(s.now, deadline, INITIAL_RECONNECT_DELAY, NoCause, Begun, 0, 0, None))
      case OpenCalled(o) => OpenerAt(s, o, Asking)
  }

  // ----- steps, one kind at a time -----

  lemma LockDoes(s: State, step: Step)
    requires May(s, step) && step.Lock?
    ensures step.call in s.calls && s.calls[step.call].phase.AtLock? && step.slot !in s.attempts
    ensures s.inflight.Some? ==> s.inflight.value in s.attempts
    ensures Does(s, step) == Locked(s, step.call, step.slot, Decide(s, s.calls[step.call], step.startFails))
  {
    hide Locked, Decide, WorkerDoes, OpenerDoes;
  }

  lemma LeaveDoes(s: State, step: Step)
    requires May(s, step) && step.Leave?
    ensures step.call in s.calls && s.calls[step.call].phase.Leaving? && s.calls[step.call].phase.attempt in s.attempts
    ensures Does(s, step) == Departed(s, step.call)
  {
    hide Departed, WorkerDoes, OpenerDoes;
  }

  lemma AbortDoes(s: State, step: Step)
    requires May(s, step) && step.Abort?
    ensures step.call in s.calls && s.calls[step.call].phase.Aborting? && s.calls[step.call].phase.attempt in s.attempts
    ensures Does(s, step) == AbortDecided(s, step.call)
  {
    hide AbortDecided, WorkerDoes, OpenerDoes;
  }

  lemma CloseDoes(s: State, step: Step)
    requires May(s, step) && step.Close?
    ensures step.call in s.calls && s.calls[step.call].phase.Closing? && step.transport in s.calls[step.call].phase.transports
    ensures Does(s, step) == TransportClosed(s, step.call, step.transport)
  {
    hide TransportClosed, WorkerDoes, OpenerDoes;
  }

  /** A call's steps that change its phase alone. */
  lemma MoveDoes(s: State, step: Step)
    requires May(s, step) && (step.FastPath? || step.Poll? || step.Woken? || step.Closed? || step.Wake?)
    ensures step.call in s.calls && step.call in Does(s, step).calls
    ensures !s.calls[step.call].phase.Returned? && !Does(s, step).calls[step.call].phase.Sleeping?
    ensures Does(s, step) == AtPhase(s, step.call, Does(s, step).calls[step.call].phase)
  {
    hide Locked, Judged, Departed, AbortDecided, TransportClosed, WorkerDoes, OpenerDoes;
  }

  lemma JudgeDoes(s: State, step: Step)
    requires May(s, step) && step.Judge?
    ensures step.call in s.calls && s.calls[step.call].phase.Judging? && s.calls[step.call].phase.attempt in s.attempts
    ensures Does(s, step) == Judged(s, step.call)
  {
    hide Judged, WorkerDoes, OpenerDoes;
  }

  lemma SettleDoes(s: State, step: Step)
    requires May(s, step) && step.SettleOpened?
    ensures step.attempt in s.attempts && s.attempts[step.attempt].worker.Opened?
    ensures Does(s, step) == SettledOpen(s, step.attempt)
  {
    hide SettledOpen, CallDoes, OpenerDoes;
  }

  /** A departure leaves an attempt as it was, or one still open with a waiter less. */
  lemma DepartedIs(s: State, k: CallId)
    requires k in s.calls && s.calls[k].phase.Leaving? && s.calls[k].phase.attempt in s.attempts
    ensures var s', a := Departed(s, k), s.calls[k].phase.attempt;
            && k in s'.calls && !s'.calls[k].phase.Sleeping?
            && s' == AtPhase(s, k, s'.calls[k].phase).(attempts := s'.attempts)
            && (s'.attempts == s.attempts || (Left(s.attempts[a].pending).Some?
                && s'.attempts == s.attempts[a := s.attempts[a].(pending := Left(s.attempts[a].pending).value)]))
  {
    hide Left;
    var s', call := Departed(s, k), s.calls[k];
    var a := call.phase.attempt;
    var left := Left(s.attempts[a].pending);
    if left.None? {
      assert s' == AtPhase(s, k, Waiting(a, s.now));
    } else {
      var next := if left.value.waiters == 0 then Aborting(a) else Returned(Message(call.cause));
      assert s' == AtPhase(WithPending(s, a, left.value), k, next);
    }
  }

  /** An abort's region leaves an attempt as it was, or marks it. */
  lemma AbortDecidedIs(s: State, k: CallId)
    requires k in s.calls && s.calls[k].phase.Aborting? && s.calls[k].phase.attempt in s.attempts
    ensures var s', a := AbortDecided(s, k), s.calls[k].phase.attempt;
            && k in s'.calls && !s'.calls[k].phase.Sleeping?
            && s' == AtPhase(s, k, s'.calls[k].phase).(attempts := s'.attempts)
            && (s'.attempts == s.attempts || (Aborts(s.attempts[a].pending, s.TransportsOf(s.attempts[a].pending.conn))
                && s'.attempts == s.attempts[a := s.attempts[a].(pending := Marked(s.attempts[a].pending))]))
  {
    hide Aborts, Marked;
    var s', call := AbortDecided(s, k), s.calls[k];
    var a := call.phase.attempt;
    var pending := s.attempts[a].pending;
    var closing := s.TransportsOf(pending.conn);
    if Aborts(pending, closing) {
      assert s' == AtPhase(WithPending(s, a, Marked(pending)), k, Closing(a, closing));
    } else {
      assert s' == AtPhase(s, k, Returned(Message(call.cause)));
    }
  }

  lemma TransportClosedIs(s: State, k: CallId, t: TransportId)
    requires k in s.calls && s.calls[k].phase.Closing?
    ensures var s' := TransportClosed(s, k, t);
            && k in s'.calls && s'.calls[k].phase.Closing?
            && s' == AtPhase(s, k, s'.calls[k].phase).(conns := s'.conns, closed := s'.closed)
  {
  }

  // ----- runs -----

  /** The states of a run, one more than its steps. */
  predicate Run(states: seq<State>, steps: seq<Step>) {
    |states| == |steps| + 1 && Init(states[0])
    && forall i :: 0 <= i < |steps| ==> May(states[i], steps[i]) && states[i + 1] == Does(states[i], steps[i])
  }
}
