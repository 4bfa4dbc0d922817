/** What every step of the reconnect protocol keeps, on any clock: single flight, aborts that never
    cross a publication, honest causes, and an account of every connection. */
module ReconnectSafety {
  import opened Wrappers
  import opened Regions
  import opened Reconnect

  // ----- the slot -----

  ghost predicate SlotOk(s: State, a: AttemptId)
    requires a in s.attempts
  {
    (!s.attempts[a].pending.done <==> s.inflight == Some(a))
    && (s.attempts[a].pending.done <==> s.attempts[a].worker.Settled())
  }

  /** The slot is set exactly when one unsettled worker exists. */
  ghost predicate SlotInv(s: State) {
    (s.inflight.Some? ==> s.inflight.value in s.attempts)
    && forall a :: a in s.attempts ==> SlotOk(s, a)
  }

  // ----- attempts, workers and the connections they made -----

  ghost predicate MadeBy(s: State, c: ConnId, maker: Maker) { c in s.conns && s.conns[c].maker == maker }

  ghost predicate AttemptOk(s: State, a: AttemptId)
    requires a in s.attempts
  {
    var p, w := s.attempts[a].pending, s.attempts[a].worker;
    && (w.Building? || w.Built? ==> p.conn == None)
    && (w.Opening? || w.Opened? || w.Dropping? ==> p.conn == w.Holds())
    && (w.Holds().Some? ==> w.Holds().value in s.conns)
    && (w.Built? ==> MadeBy(s, w.conn, ByAttempt(a)))
    && (p.conn.Some? ==> MadeBy(s, p.conn.value, ByAttempt(a)))
    && (p.aborted ==> p.conn.Some?)
    && (p.done ==> (p.error.Some? <==> p.transport.None?))
    && (!p.done ==> p.error.None? && p.transport.None?)
    && (p.aborted && p.done ==> p.error.Some?)
  }

  ghost predicate OpenerOk(s: State, o: OpenerId)
    requires o in s.openers
  {
    var p := s.openers[o];
    (p.Holds().Some? ==> p.Holds().value in s.conns)
    && (p.OpenerOpening? || p.OpenerOpened? ==> MadeBy(s, p.Holds().value, ByOpener(o)))
  }

  ghost predicate WorkInv(s: State) {
    (s.published.Some? ==> s.published.value in s.conns)
    && (forall a :: a in s.attempts ==> AttemptOk(s, a)) && (forall o :: o in s.openers ==> OpenerOk(s, o))
  }

  // ----- publications -----

  ghost predicate PublishedOk(s: State, c: ConnId) {
    c in s.conns
    && var maker := s.conns[c].maker;
       maker.ByAttempt? ==> DoneIn(s, maker.attempt) && !s.attempts[maker.attempt].pending.aborted
  }

  ghost predicate PublishInv(s: State) {
    (s.published.Some? ==> s.published.value in s.everPublished)
    && (forall c :: c in s.everPublished ==> PublishedOk(s, c))
    && (forall a :: a in s.attempts && s.attempts[a].pending.transport.Some? ==>
          s.attempts[a].pending.transport.value in s.everPublished)
  }

  // ----- transports -----

  ghost predicate AbortedConn(s: State, a: AttemptId, c: ConnId) {
    a in s.attempts && s.attempts[a].pending.aborted && s.attempts[a].pending.conn == Some(c)
  }

  ghost predicate ClosedOk(s: State, t: TransportId)
    requires t in s.closed
  {
    t in s.transports && AbortedConn(s, s.closed[t], s.transports[t])
    && s.transports[t] in s.conns && !s.conns[s.transports[t]].live
  }

  ghost predicate TransportInv(s: State) {
    (forall t :: t in s.transports ==> s.transports[t] in s.conns) && (forall t :: t in s.closed ==> ClosedOk(s, t))
  }

  // ----- calls -----

  /** The failure of an attempt that was done and not aborted. */
  ghost predicate Honest(s: State, cause: Cause) {
    cause.Caused? ==>
      cause.attempt in s.attempts
      && var p := s.attempts[cause.attempt].pending; p.done && !p.aborted && p.error == Some(cause.failure)
  }

  ghost predicate PhaseOk(s: State, phase: Phase) {
    match phase
    case Begun => true
    case AtLock(_) => true
    case Sleeping(_) => true
    case Waiting(a, _) => a in s.attempts
    case Leaving(a) => a in s.attempts
    case Aborting(a) => a in s.attempts
    case Closing(a, ts) => a in s.attempts && forall t :: t in ts ==> t in s.transports && AbortedConn(s, a, s.transports[t])
    case Judging(a) => DoneIn(s, a)
    case Returned(Message(cause)) => Honest(s, cause)
    case Returned(Transport(conn)) => conn.Some? && conn.value in s.everPublished
  }

  ghost predicate CallOk(s: State, k: CallId)
    requires k in s.calls
  {
    Honest(s, s.calls[k].cause) && PhaseOk(s, s.calls[k].phase)
  }

  ghost predicate HasCall(s: State, k: CallId) { k in s.calls && CallOk(s, k) }

  ghost predicate CallInv(s: State) {
    forall k :: k in s.calls ==> CallOk(s, k)
  }

  // ----- waiters -----

  ghost function WaitersOf(s: State, a: AttemptId): set<CallId> {
    set k | k in s.calls && s.calls[k].phase.WaitsOn(a)
  }

  ghost predicate CountOk(s: State, a: AttemptId)
    requires a in s.attempts
  {
    !s.attempts[a].pending.done ==> s.attempts[a].pending.waiters == |WaitersOf(s, a)|
  }

  ghost predicate WaiterInv(s: State) {
    forall a :: a in s.attempts ==> CountOk(s, a)
  }

  // ----- an account of connections -----

  /** The places a connection can be: in a worker's or an opener's hands, published, or released. */
  ghost predicate Owns(s: State, c: ConnId, place: Place) {
    match place
    case AtWorker(a) => a in s.attempts && s.attempts[a].worker.Holds() == Some(c)
    case AtOpener(o) => o in s.openers && s.openers[o].Holds() == Some(c)
    case AtPublished => s.published == Some(c)
    case AtReleased => c in s.released
  }

  ghost predicate PlaceInv(s: State) {
    s.places.Keys == s.conns.Keys
    && (forall c :: c in s.conns ==> Owns(s, c, s.places[c]))
    && (forall c, place :: Owns(s, c, place) ==> c in s.conns && s.places[c] == place)
  }

  ghost predicate Inv(s: State) {
    SlotInv(s) && WorkInv(s) && PublishInv(s) && TransportInv(s) && CallInv(s) && WaiterInv(s) && PlaceInv(s)
  }

  // ----- the slot is kept -----

  /** Only the regions that end an attempt, start one or change its record bear on the slot. */
  lemma SlotFrame(s: State, s': State)
    requires SlotInv(s) && s'.attempts == s.attempts && s'.inflight == s.inflight
    ensures SlotInv(s')
  {
    forall a | a in s'.attempts ensures SlotOk(s', a) { assert SlotOk(s, a); }
  }

  /** An attempt whose record stays open, or stays done, as its worker does. */
  lemma SlotRecord(s: State, s': State, a: AttemptId, attempt: Attempt)
    requires SlotInv(s) && a in s.attempts && s'.attempts == s.attempts[a := attempt]
    requires attempt.pending.done == attempt.worker.Settled()
    requires s'.inflight == if attempt.pending.done then Freed(s, a) else s.inflight
    requires s.attempts[a].pending.done ==> attempt.pending.done
    ensures SlotInv(s')
  {
    assert SlotOk(s, a);
    forall b | b in s'.attempts ensures SlotOk(s', b) { assert SlotOk(s, b); }
  }

  /** A new attempt: in flight, or already failed when its thread could not start. */
  lemma SlotAdded(s: State, s': State, a: AttemptId, attempt: Attempt)
    requires SlotInv(s) && a !in s.attempts && s'.attempts == s.attempts[a := attempt]
    requires attempt.pending.done == attempt.worker.Settled() && s.inflight.None?
    requires s'.inflight == if attempt.pending.done then None else Some(a)
    ensures SlotInv(s')
  {
    forall b | b in s'.attempts ensures SlotOk(s', b) { assert b in s.attempts ==> SlotOk(s, b); }
  }

  lemma SlotLocked(s: State, k: CallId, slot: AttemptId, d: Decision)
    requires SlotInv(s) && k in s.calls && slot !in s.attempts
    requires d.Join? ==> d.attempt in s.attempts && s.inflight == Some(d.attempt)
    requires d.Start? || d.StartFails? ==> s.inflight.None?
    ensures SlotInv(Locked(s, k, slot, d))
  {
    hide SlotInv;
    var s' := Locked(s, k, slot, d);
    match d
    case Use => SlotFrame(s, s');
    case GiveUp => SlotFrame(s, s');
    case Join(a) =>
      SlotAt(s, a);
      SlotRecord(s, s', a, s'.attempts[a]);
    case Start => SlotAdded(s, s', slot, s'.attempts[slot]);
    case StartFails(_) => SlotAdded(s, s', slot, s'.attempts[slot]);
  }

  lemma SlotKeptLock(s: State, step: Step)
    requires SlotInv(s) && May(s, step) && step.Lock?
    ensures SlotInv(Does(s, step))
  {
    hide SlotInv, Decide, Does, May, Locked;
    LockDoes(s, step);
    SlotLocked(s, step.call, step.slot, Decide(s, s.calls[step.call], step.startFails));
  }

  lemma SlotKeptByCall(s: State, step: Step)
    requires SlotInv(s) && May(s, step) && step.OfCall() && !step.Lock?
    ensures SlotInv(Does(s, step))
  {
    hide SlotInv, Does, May, Judged, Departed, AbortDecided, TransportClosed;
    var s', k := Does(s, step), step.call;
    if step.Judge? { JudgedFrame(s, step); JudgeDoes(s, step); }
    else if step.Leave? { LeaveDoes(s, step); DepartedIs(s, k); }
    else if step.Abort? { AbortDoes(s, step); AbortDecidedIs(s, k); }
    else if step.Close? { CloseDoes(s, step); TransportClosedIs(s, k, step.transport); }
    else { MoveDoes(s, step); }
    if s'.attempts != s.attempts {
      var a := s.calls[k].phase.attempt;
      SlotAt(s, a);
      SlotRecord(s, s', a, s'.attempts[a]);
    } else {
      SlotFrame(s, s');
    }
  }

  lemma JudgedFrame(s: State, step: Step)
    requires May(s, step) && step.Judge?
    ensures Judged(s, step.call) == s.(calls := Judged(s, step.call).calls)
  {
  }

  lemma SlotAt(s: State, a: AttemptId)
    requires SlotInv(s) && a in s.attempts
    ensures SlotOk(s, a)
  {
  }

  lemma SlotKeptByWorker(s: State, step: Step)
    requires SlotInv(s) && May(s, step) && step.OfWorker()
    ensures SlotInv(Does(s, step))
  {
    hide SlotInv, CallDoes, CallMay, OpenerDoes, OpenerMay;
    var s' := WorkerDoes(s, step);
    var a := step.attempt;
    SlotAt(s, a);
    if step.MakeTransport? {
      SlotFrame(s, s');
    } else {
      SlotRecord(s, s', a, s'.attempts[a]);
    }
  }

  lemma SlotKept(s: State, step: Step)
    requires SlotInv(s) && May(s, step)
    ensures SlotInv(Does(s, step))
  {
    hide SlotInv, CallDoes, WorkerDoes, OpenerDoes;
    if step.Lock? { SlotKeptLock(s, step); }
    else if step.OfCall() { SlotKeptByCall(s, step); }
    else if step.OfWorker() { SlotKeptByWorker(s, step); }
    else if step.OfOpener() { OpenerFrame(s, step); SlotFrame(s, Does(s, step)); }
    else { SlotFrame(s, Does(s, step)); }
  }

  /** A thread in `open` touches no attempt and no call. */
  lemma OpenerFrame(s: State, step: Step)
    requires May(s, step) && step.OfOpener()
    ensures Does(s, step).attempts == s.attempts && Does(s, step).inflight == s.inflight
    ensures Does(s, step).calls == s.calls && Does(s, step).closed == s.closed && Does(s, step).now == s.now
  {
    hide CallDoes, CallMay, WorkerDoes, WorkerMay;
  }

  // ----- what a step leaves alone -----

  lemma LockLeaves(s: State, k: CallId, slot: AttemptId, d: Decision)
    requires k in s.calls && (d.Join? ==> d.attempt in s.attempts)
    ensures var s' := Locked(s, k, slot, d); s' == s.(calls := s'.calls, attempts := s'.attempts, inflight := s'.inflight)
  {
  }

  /** But for a close, a call touches only calls, attempts and the slot. */
  lemma CallLeaves(s: State, step: Step)
    requires May(s, step) && step.OfCall() && !step.Close?
    ensures Does(s, step) == s.(calls := Does(s, step).calls, attempts := Does(s, step).attempts, inflight := Does(s, step).inflight)
  {
    hide Does, May, Locked, Decide, Judged, Departed, AbortDecided;
    if step.Judge? { JudgedFrame(s, step); JudgeDoes(s, step); }
    else if step.Lock? { LockDoes(s, step); LockLeaves(s, step.call, step.slot, Decide(s, s.calls[step.call], step.startFails)); }
    else if step.Leave? { LeaveDoes(s, step); DepartedIs(s, step.call); }
    else if step.Abort? { AbortDoes(s, step); AbortDecidedIs(s, step.call); }
    else { MoveDoes(s, step); }
  }

  /** A worker touches no call, no opener and nothing an abort closed. */
  lemma WorkerLeaves(s: State, step: Step)
    requires May(s, step) && step.OfWorker()
    ensures Does(s, step).calls == s.calls && Does(s, step).openers == s.openers && Does(s, step).closed == s.closed
    ensures Does(s, step).now == s.now
  {
    hide CallDoes, CallMay, OpenerDoes, OpenerMay;
  }

  // ----- what only grows -----

  /** The record of a done attempt is frozen, an aborted attempt stays aborted, and nothing that was
      built, made or published is forgotten. */
  ghost predicate Grows(s: State, s': State) {
    && (forall c :: c in s.conns ==> c in s'.conns && s'.conns[c].maker == s.conns[c].maker)
    && (forall t :: t in s.transports ==> t in s'.transports && s'.transports[t] == s.transports[t])
    && s.everPublished <= s'.everPublished
    && (forall a :: a in s.attempts ==> a in s'.attempts && RecordGrows(s.attempts[a].pending, s'.attempts[a].pending))
  }

  ghost predicate RecordGrows(p: Pending, p': Pending) {
    (p.done ==> p' == p) && (p.aborted ==> p'.aborted && p'.conn == p.conn)
  }

  lemma AttemptAt(s: State, a: AttemptId)
    requires WorkInv(s) && a in s.attempts
    ensures AttemptOk(s, a)
    ensures s.published.Some? ==> s.published.value in s.conns
  {
  }

  lemma GrowsFrame(s: State, s': State)
    requires s'.attempts == s.attempts && s'.transports == s.transports && s.everPublished <= s'.everPublished
    requires forall c :: c in s.conns ==> c in s'.conns && s'.conns[c].maker == s.conns[c].maker
    ensures Grows(s, s')
  {
  }

  lemma GrowsRecord(s: State, s': State, a: AttemptId, attempt: Attempt)
    requires s'.attempts == s.attempts[a := attempt]
    requires a in s.attempts ==> RecordGrows(s.attempts[a].pending, attempt.pending)
    requires s'.transports == s.transports && s'.conns == s.conns && s.everPublished <= s'.everPublished
    ensures Grows(s, s')
  {
  }

  lemma LockedGrows(s: State, k: CallId, slot: AttemptId, d: Decision)
    requires k in s.calls && slot !in s.attempts
    requires d.Join? ==> d.attempt in s.attempts && !s.attempts[d.attempt].pending.done
    ensures Grows(s, Locked(s, k, slot, d))
  {
    hide Grows;
    var s' := Locked(s, k, slot, d);
    match d
    case Use => GrowsFrame(s, s');
    case GiveUp => GrowsFrame(s, s');
    case Join(a) => GrowsRecord(s, s', a, s'.attempts[a]);
    case Start => GrowsRecord(s, s', slot, s'.attempts[slot]);
    case StartFails(_) => GrowsRecord(s, s', slot, s'.attempts[slot]);
  }

  lemma GrowsByLock(s: State, step: Step)
    requires SlotInv(s) && May(s, step) && step.Lock?
    ensures Grows(s, Does(s, step))
  {
    hide SlotInv, Decide, Grows, Does, May, Locked;
    LockDoes(s, step);
    if s.inflight.Some? { SlotAt(s, s.inflight.value); }
    LockedGrows(s, step.call, step.slot, Decide(s, s.calls[step.call], step.startFails));
  }

  lemma GrowsByLeave(s: State, k: CallId)
    requires k in s.calls && s.calls[k].phase.Leaving? && s.calls[k].phase.attempt in s.attempts
    ensures Grows(s, Departed(s, k))
  {
    hide Grows;
    var s', a := Departed(s, k), s.calls[k].phase.attempt;
    GrowsRecord(s, s', a, s'.attempts[a]);
  }

  lemma GrowsByAbort(s: State, k: CallId)
    requires k in s.calls && s.calls[k].phase.Aborting? && s.calls[k].phase.attempt in s.attempts
    ensures Grows(s, AbortDecided(s, k))
  {
    hide Grows;
    var s', a := AbortDecided(s, k), s.calls[k].phase.attempt;
    GrowsRecord(s, s', a, s'.attempts[a]);
  }

  lemma GrowsByClose(s: State, k: CallId, t: TransportId)
    requires k in s.calls && s.calls[k].phase.Closing?
    ensures Grows(s, TransportClosed(s, k, t))
  {
    hide Grows;
    GrowsFrame(s, TransportClosed(s, k, t));
  }

  lemma GrowsByCall(s: State, step: Step)
    requires May(s, step) && step.OfCall() && !step.Lock?
    ensures Grows(s, Does(s, step))
  {
    hide Locked, Judged, Grows, Departed, AbortDecided, TransportClosed, WorkerDoes, WorkerMay, OpenerDoes, OpenerMay;
    if step.Leave? { LeaveDoes(s, step); GrowsByLeave(s, step.call); }
    else if step.Abort? { AbortDoes(s, step); GrowsByAbort(s, step.call); }
    else if step.Close? { CloseDoes(s, step); GrowsByClose(s, step.call, step.transport); }
    else {
      if step.Judge? { JudgedFrame(s, step); }
      GrowsFrame(s, Does(s, step));
    }
  }

  lemma GrowsBySettle(s: State, step: Step)
    requires SlotInv(s) && May(s, step) && step.SettleOpened?
    ensures Grows(s, Does(s, step))
  {
    hide SlotInv, Grows, Does, May;
    SettleDoes(s, step);
    var s', a := Does(s, step), step.attempt;
    SlotAt(s, a);
    GrowsRecord(s, s', a, s'.attempts[a]);
  }

  lemma GrowsWork(s: State, s': State, a: AttemptId)
    requires a in s.attempts && a in s'.attempts && s'.attempts == s.attempts[a := s'.attempts[a]]
    requires RecordGrows(s.attempts[a].pending, s'.attempts[a].pending)
    requires forall c :: c in s.conns ==> c in s'.conns && s'.conns[c].maker == s.conns[c].maker
    requires forall t :: t in s.transports ==> t in s'.transports && s'.transports[t] == s.transports[t]
    requires s.everPublished <= s'.everPublished
    ensures Grows(s, s')
  {
  }

  lemma GrowsByWorker(s: State, step: Step)
    requires SlotInv(s) && WorkInv(s) && May(s, step) && step.OfWorker()
    ensures Grows(s, Does(s, step))
  {
    hide SlotInv, WorkInv, Grows, CallDoes, CallMay, OpenerDoes, OpenerMay, SettledOpen;
    if step.SettleOpened? {
      GrowsBySettle(s, step);
    } else {
      SlotAt(s, step.attempt);
      AttemptAt(s, step.attempt);
      GrowsWork(s, Does(s, step), step.attempt);
    }
  }

  lemma GrowsByStep(s: State, step: Step)
    requires SlotInv(s) && WorkInv(s) && May(s, step)
    ensures Grows(s, Does(s, step))
  {
    hide SlotInv, WorkInv, CallDoes, WorkerDoes;
    if step.Lock? { GrowsByLock(s, step); }
    else if step.OfCall() { GrowsByCall(s, step); }
    else if step.OfWorker() { GrowsByWorker(s, step); }
  }

  // ----- attempts and workers are kept -----

  lemma WorkFrame(s: State, s': State)
    requires WorkInv(s) && Grows(s, s') && s'.attempts == s.attempts && s'.openers == s.openers && s'.published == s.published
    ensures WorkInv(s')
  {
    forall a | a in s'.attempts ensures AttemptOk(s', a) { assert AttemptOk(s, a); }
    forall o | o in s'.openers ensures OpenerOk(s', o) { assert OpenerOk(s, o); }
  }

  lemma WorkUpdate(s: State, s': State, a: AttemptId, attempt: Attempt)
    requires WorkInv(s) && Grows(s, s') && s'.attempts == s.attempts[a := attempt] && s'.openers == s.openers
    requires AttemptOk(s', a) && (s'.published.Some? ==> s'.published.value in s'.conns)
    ensures WorkInv(s')
  {
    forall b | b in s'.attempts ensures AttemptOk(s', b) { assert b in s.attempts ==> AttemptOk(s, b); }
    forall o | o in s'.openers ensures OpenerOk(s', o) { assert OpenerOk(s, o); }
  }

  lemma WorkOpener(s: State, s': State, o: OpenerId)
    requires WorkInv(s) && Grows(s, s') && s'.attempts == s.attempts
    requires o in s'.openers && s'.openers == s.openers[o := s'.openers[o]] && OpenerOk(s', o)
    requires s'.published.Some? ==> s'.published.value in s'.conns
    ensures WorkInv(s')
  {
    forall a | a in s'.attempts ensures AttemptOk(s', a) { assert AttemptOk(s, a); }
    forall p | p in s'.openers ensures OpenerOk(s', p) { assert p in s.openers ==> OpenerOk(s, p); }
  }

  lemma PublishedBuilt(s: State)
    requires WorkInv(s)
    ensures s.published.Some? ==> s.published.value in s.conns
  {
  }

  lemma WorkJoin(s: State, k: CallId, a: AttemptId)
    requires WorkInv(s) && k in s.calls && a in s.attempts
    requires Grows(s, JoinAttempt(s, k, a))
    ensures WorkInv(JoinAttempt(s, k, a))
  {
    hide WorkInv, Grows;
    var s' := JoinAttempt(s, k, a);
    PublishedBuilt(s);
    AttemptAt(s, a);
    WorkUpdate(s, s', a, s'.attempts[a]);
  }

  lemma WorkNew(s: State, s': State, a: AttemptId)
    requires WorkInv(s) && Grows(s, s') && a in s'.attempts && s'.attempts == s.attempts[a := s'.attempts[a]]
    requires s'.openers == s.openers && s'.published == s.published && s'.conns == s.conns
    requires (s'.attempts[a].pending == NEW_PENDING && s'.attempts[a].worker == Building)
          || (s'.attempts[a].worker == Ended && exists f :: s'.attempts[a].pending == Failed(NEW_PENDING, f))
    ensures WorkInv(s')
  {
    hide WorkInv, Grows;
    PublishedBuilt(s);
    WorkUpdate(s, s', a, s'.attempts[a]);
  }

  lemma WorkLocked(s: State, k: CallId, slot: AttemptId, d: Decision)
    requires WorkInv(s) && k in s.calls && slot !in s.attempts && (d.Join? ==> d.attempt in s.attempts)
    requires Grows(s, Locked(s, k, slot, d))
    ensures WorkInv(Locked(s, k, slot, d))
  {
    hide WorkInv, Grows;
    var s' := Locked(s, k, slot, d);
    match d
    case Use => WorkFrame(s, s');
    case GiveUp => WorkFrame(s, s');
    case Join(a) => WorkJoin(s, k, a);
    case Start => WorkNew(s, s', slot);
    case StartFails(failure) =>
      assert s'.attempts[slot].pending == Failed(NEW_PENDING, failure);
      WorkNew(s, s', slot);
  }

  lemma WorkKeptByLock(s: State, step: Step)
    requires SlotInv(s) && WorkInv(s) && May(s, step) && step.Lock?
    ensures WorkInv(Does(s, step))
  {
    hide SlotInv, WorkInv, Decide, Grows, Does, May, Locked;
    LockDoes(s, step);
    GrowsByLock(s, step);
    WorkLocked(s, step.call, step.slot, Decide(s, s.calls[step.call], step.startFails));
  }

  lemma WorkKeptByCall(s: State, step: Step)
    requires SlotInv(s) && WorkInv(s) && May(s, step) && step.OfCall() && !step.Lock?
    ensures WorkInv(Does(s, step))
  {
    hide SlotInv, WorkInv, Grows, Does, May, Judged, Departed, AbortDecided, TransportClosed;
    var s', k := Does(s, step), step.call;
    GrowsByCall(s, step);
    if step.Judge? { JudgedFrame(s, step); JudgeDoes(s, step); }
    else if step.Leave? { LeaveDoes(s, step); DepartedIs(s, k); }
    else if step.Abort? { AbortDoes(s, step); AbortDecidedIs(s, k); }
    else if step.Close? { CloseDoes(s, step); TransportClosedIs(s, k, step.transport); }
    else { MoveDoes(s, step); }
    if s'.attempts != s.attempts {
      var a := s.calls[k].phase.attempt;
      AttemptAt(s, a);
      if step.Abort? { HasConn(s, s.attempts[a].pending.conn); }
      WorkUpdate(s, s', a, s'.attempts[a]);
    } else {
      WorkFrame(s, s');
    }
  }

  /** Only a built connection has transports to close. */
  lemma HasConn(s: State, conn: Option<ConnId>)
    ensures s.TransportsOf(conn) != {} ==> conn.Some?
  {
    assert conn.None? ==> forall t :: t !in s.TransportsOf(conn);
  }

  lemma WorkKeptByWorker(s: State, step: Step)
    requires SlotInv(s) && WorkInv(s) && May(s, step) && step.OfWorker() && !step.SettleOpened?
    ensures WorkInv(Does(s, step))
  {
    hide SlotInv, WorkInv, Grows, SettledOpen, CallDoes, CallMay, OpenerDoes, OpenerMay;
    var s', a := Does(s, step), step.attempt;
    GrowsByWorker(s, step);
    SlotAt(s, a);
    AttemptAt(s, a);
    if step.MakeTransport? {
      WorkFrame(s, s');
    } else {
      WorkUpdate(s, s', a, s'.attempts[a]);
    }
  }

  lemma WorkKeptBySettle(s: State, step: Step)
    requires SlotInv(s) && WorkInv(s) && May(s, step) && step.SettleOpened?
    ensures WorkInv(Does(s, step))
  {
    hide SlotInv, WorkInv, Grows, Does, May;
    SettleDoes(s, step);
    var s', a := Does(s, step), step.attempt;
    GrowsByWorker(s, step);
    SlotAt(s, a);
    AttemptAt(s, a);
    WorkUpdate(s, s', a, s'.attempts[a]);
  }

  lemma WorkKeptByOpener(s: State, step: Step)
    requires WorkInv(s) && May(s, step) && step.OfOpener() && Grows(s, Does(s, step))
    ensures WorkInv(Does(s, step))
  {
    hide WorkInv, Grows, CallDoes, CallMay, WorkerDoes, WorkerMay;
    var s', o := Does(s, step), step.opener;
    OpenerFrame(s, step);
    OpenerIs(s, o);
    if step.OpenMakesTransport? {
      WorkFrame(s, s');
    } else {
      WorkOpener(s, s', o);
    }
  }

  lemma OpenerIs(s: State, o: OpenerId)
    requires WorkInv(s) && o in s.openers
    ensures OpenerOk(s, o)
    ensures s.published.Some? ==> s.published.value in s.conns
  {
  }

  lemma WorkKept(s: State, step: Step)
    requires SlotInv(s) && WorkInv(s) && May(s, step)
    ensures WorkInv(Does(s, step))
  {
    hide SlotInv, WorkInv, CallDoes, WorkerDoes, OpenerDoes, Grows;
    GrowsByStep(s, step);
    if step.Lock? { WorkKeptByLock(s, step); }
    else if step.OfCall() { WorkKeptByCall(s, step); }
    else if step.SettleOpened? { WorkKeptBySettle(s, step); }
    else if step.OfWorker() { WorkKeptByWorker(s, step); }
    else if step.OfOpener() { WorkKeptByOpener(s, step); }
    else if step.OpenCalled? {
      OpenersGrow(s, step.opener);
    } else {
      WorkFrame(s, Does(s, step));
    }
  }

  lemma OpenersGrow(s: State, o: OpenerId)
    requires WorkInv(s) && o !in s.openers
    ensures WorkInv(OpenerAt(s, o, Asking))
  {
    var s' := OpenerAt(s, o, Asking);
    forall a | a in s'.attempts ensures AttemptOk(s', a) { assert AttemptOk(s, a); }
    forall p | p in s'.openers ensures OpenerOk(s', p) { assert p in s.openers ==> OpenerOk(s, p); }
  }

  // ----- publications are kept -----

  lemma PublishFrame(s: State, s': State)
    requires PublishInv(s) && Grows(s, s') && s'.published == s.published && s'.everPublished == s.everPublished
    requires forall a :: a in s'.attempts && s'.attempts[a].pending.transport.Some? ==>
               (a in s.attempts && s.attempts[a].pending.transport == s'.attempts[a].pending.transport)
    ensures PublishInv(s')
  {
    forall c | c in s'.everPublished ensures PublishedOk(s', c) { assert PublishedOk(s, c); }
  }

  /** A connection published by its settled, unaborted attempt or by an opener. */
  lemma PublishNew(s: State, s': State, c: ConnId)
    requires PublishInv(s) && Grows(s, s') && s'.published == Some(c) && s'.everPublished == s.everPublished + {c}
    requires PublishedOk(s', c)
    requires forall a :: a in s'.attempts && s'.attempts[a].pending.transport.Some? ==>
               (a in s.attempts && s.attempts[a].pending.transport == s'.attempts[a].pending.transport)
               || s'.attempts[a].pending.transport == Some(c)
    ensures PublishInv(s')
  {
    forall d | d in s'.everPublished ensures PublishedOk(s', d) { assert d != c ==> PublishedOk(s, d); }
  }

  /** Every attempt of `s'` that has a transport had it in `s`. */
  ghost predicate GivesNone(s: State, s': State, a: AttemptId) {
    a in s'.attempts && s'.attempts[a].pending.transport.Some? ==>
      a in s.attempts && s.attempts[a].pending.transport == s'.attempts[a].pending.transport
  }

  lemma DepartureGivesNone(s: State, k: CallId, a: AttemptId)
    requires k in s.calls && s.calls[k].phase.Leaving? && s.calls[k].phase.attempt in s.attempts
    ensures GivesNone(s, Departed(s, k), a)
  {
  }

  lemma AbortGivesNone(s: State, k: CallId, a: AttemptId)
    requires k in s.calls && s.calls[k].phase.Aborting? && s.calls[k].phase.attempt in s.attempts
    ensures GivesNone(s, AbortDecided(s, k), a)
  {
  }

  /** A call gives no attempt a transport. */
  lemma CallGivesNone(s: State, step: Step, a: AttemptId)
    requires May(s, step) && step.OfCall()
    ensures GivesNone(s, Does(s, step), a)
  {
    hide Decide, Judged, Locked, Departed, AbortDecided, TransportClosed, WorkerDoes, WorkerMay, OpenerDoes, OpenerMay;
    if step.Judge? { JudgedFrame(s, step); }
    else if step.Lock? { LockDoes(s, step); LockGivesNone(s, step.call, step.slot, Decide(s, s.calls[step.call], step.startFails), a); }
    else if step.Leave? { LeaveDoes(s, step); DepartureGivesNone(s, step.call, a); }
    else if step.Abort? { AbortDoes(s, step); AbortGivesNone(s, step.call, a); }
    else if step.Close? { CloseLeaves(s, step); }
  }

  lemma LockGivesNone(s: State, k: CallId, slot: AttemptId, d: Decision, a: AttemptId)
    requires k in s.calls && (d.Join? ==> d.attempt in s.attempts)
    ensures GivesNone(s, Locked(s, k, slot, d), a)
  {
  }

  lemma PublishKeptBySettle(s: State, step: Step)
    requires SlotInv(s) && WorkInv(s) && PublishInv(s) && May(s, step) && step.SettleOpened?
    requires Grows(s, Does(s, step))
    ensures PublishInv(Does(s, step))
  {
    hide SlotInv, WorkInv, Grows, Does, May;
    SettleDoes(s, step);
    var s', a := Does(s, step), step.attempt;
    var attempt := s.attempts[a];
    var c := attempt.worker.conn;
    AttemptAt(s, a);
    SlotAt(s, a);
    if attempt.pending.aborted {
      ConnsSame(s, step);
      PublishFrame(s, s');
    } else if s.Live().Some? {
      PublishHandedBack(s, s', a);
    } else {
      ConnsSame(s, step);
      PublishNew(s, s', c);
    }
  }

  lemma ConnsSame(s: State, step: Step)
    requires May(s, step) && step.SettleOpened?
    ensures Does(s, step).conns == s.conns
  {
  }

  /** A worker handed the live connection takes the transport of one that was published. */
  lemma PublishHandedBack(s: State, s': State, a: AttemptId)
    requires PublishInv(s) && Grows(s, s') && s.Live().Some? && a in s'.attempts
    requires s'.published == s.published && s'.everPublished == s.everPublished
    requires s'.attempts == s.attempts[a := s'.attempts[a]] && s'.attempts[a].pending.transport == s.Live()
    ensures PublishInv(s')
  {
    forall c | c in s'.everPublished ensures PublishedOk(s', c) { assert PublishedOk(s, c); }
  }

  lemma PublishKeptByCall(s: State, step: Step)
    requires PublishInv(s) && May(s, step) && step.OfCall() && Grows(s, Does(s, step))
    ensures PublishInv(Does(s, step))
  {
    hide Does, Grows, PublishInv;
    var s' := Does(s, step);
    if step.Close? { CloseLeaves(s, step); } else { CallLeaves(s, step); }
    forall a | a in s'.attempts && s'.attempts[a].pending.transport.Some?
      ensures a in s.attempts && s.attempts[a].pending.transport == s'.attempts[a].pending.transport
    {
      CallGivesNone(s, step, a);
    }
    PublishFrame(s, s');
  }

  lemma CloseLeaves(s: State, step: Step)
    requires May(s, step) && step.Close?
    ensures Does(s, step) == s.(calls := Does(s, step).calls, conns := Does(s, step).conns, closed := Does(s, step).closed)
  {
  }

  lemma PublishedEver(s: State)
    requires PublishInv(s) && s.published.Some?
    ensures s.everPublished + {s.published.value} == s.everPublished
  {
  }

  lemma PublishKeptByOpener(s: State, step: Step)
    requires WorkInv(s) && PublishInv(s) && May(s, step) && step.OfOpener()
    requires Grows(s, Does(s, step))
    ensures PublishInv(Does(s, step))
  {
    hide WorkInv, Grows, PublishInv, CallDoes, CallMay, WorkerDoes, WorkerMay;
    var s', o := Does(s, step), step.opener;
    OpenerFrame(s, step);
    OpenerIs(s, o);
    if step.OpenPublishes? && s.Live().None? {
      PublishNew(s, s', s.openers[o].conn);
    } else {
      if s.published.Some? { PublishedEver(s); }
      PublishFrame(s, s');
    }
  }

  lemma PublishKept(s: State, step: Step)
    requires SlotInv(s) && WorkInv(s) && PublishInv(s) && May(s, step)
    ensures PublishInv(Does(s, step))
  {
    hide SlotInv, WorkInv, CallDoes, SettledOpen, OpenerDoes, Grows, PublishInv;
    GrowsByStep(s, step);
    if step.OfCall() {
      PublishKeptByCall(s, step);
    } else if step.SettleOpened? {
      PublishKeptBySettle(s, step);
    } else if step.OfOpener() {
      PublishKeptByOpener(s, step);
    } else {
      PublishFrame(s, Does(s, step));
    }
  }

  // ----- closed transports are kept -----

  lemma TransportFrame(s: State, s': State)
    requires TransportInv(s) && Grows(s, s') && s'.closed == s.closed
    requires forall t :: t in s'.transports && t !in s.transports ==> s'.transports[t] in s'.conns
    requires forall t :: t in s.closed ==> t in s.transports && s.transports[t] in s'.conns && !s'.conns[s.transports[t]].live
    ensures TransportInv(s')
  {
    forall t | t in s'.closed ensures ClosedOk(s', t) { assert ClosedOk(s, t); }
  }

  /** No step but an `open` that returns makes a connection live, and that one has no closed transport. */
  lemma StaysDead(s: State, step: Step, t: TransportId)
    requires TransportInv(s) && May(s, step) && t in s.closed
    ensures t in s.transports && s.transports[t] in s.conns
    ensures s.transports[t] in Does(s, step).conns && !Does(s, step).conns[s.transports[t]].live
  {
    hide CallDoes, Settled;
    assert ClosedOk(s, t);
    assert t in s.TransportsOf(Some(s.transports[t]));
    if step.Close? { CloseKills(s, step); }
    else if step.OfCall() { CallLeaves(s, step); }
  }

  lemma CloseKills(s: State, step: Step)
    requires May(s, step) && step.Close?
    ensures forall c :: c in s.conns ==> c in Does(s, step).conns && (Does(s, step).conns[c].live ==> s.conns[c].live)
  {
  }

  lemma NewTransportsBuilt(s: State, step: Step, t: TransportId)
    requires WorkInv(s) && TransportInv(s) && May(s, step) && t in Does(s, step).transports && t !in s.transports
    ensures Does(s, step).transports[t] in Does(s, step).conns
  {
    hide WorkInv, CallDoes;
    if step.MakeTransport? { AttemptAt(s, step.attempt); }
    else if step.OpenMakesTransport? { OpenerIs(s, step.opener); }
    else if step.Close? { CloseLeaves(s, step); }
    else if step.OfCall() { CallLeaves(s, step); }
  }

  lemma TransportKept(s: State, step: Step)
    requires SlotInv(s) && WorkInv(s) && TransportInv(s) && CallInv(s) && May(s, step)
    ensures TransportInv(Does(s, step))
  {
    hide SlotInv, WorkInv, CallInv, Does, Grows;
    var s' := Does(s, step);
    GrowsByStep(s, step);
    forall t | t in s'.transports && t !in s.transports ensures s'.transports[t] in s'.conns { NewTransportsBuilt(s, step, t); }
    forall t | t in s.closed ensures t in s.transports && s.transports[t] in s.conns && s.transports[t] in s'.conns && !s'.conns[s.transports[t]].live {
      StaysDead(s, step, t);
    }
    if step.Close? {
      TransportKeptByClose(s, step);
    } else {
      ClosedSame(s, step);
      TransportFrame(s, s');
    }
  }

  lemma ClosedSame(s: State, step: Step)
    requires May(s, step) && !step.Close?
    ensures Does(s, step).closed == s.closed
  {
    hide CallDoes, WorkerDoes, OpenerDoes;
    if step.OfCall() { CallLeaves(s, step); }
    else if step.OfWorker() { WorkerLeaves(s, step); }
    else if step.OfOpener() { OpenerFrame(s, step); }
  }

  lemma TransportKeptByClose(s: State, step: Step)
    requires SlotInv(s) && WorkInv(s) && TransportInv(s) && CallInv(s) && May(s, step) && step.Close?
    requires Grows(s, Does(s, step))
    requires forall t :: t in s.closed ==>
               t in s.transports && s.transports[t] in Does(s, step).conns && !Does(s, step).conns[s.transports[t]].live
    ensures TransportInv(Does(s, step))
  {
    hide SlotInv, WorkInv;
    var s' := Does(s, step);
    assert CallOk(s, step.call);
    forall t | t in s'.closed ensures ClosedOk(s', t) { assert t in s.closed ==> ClosedOk(s, t); }
  }

  // ----- calls are kept -----

  lemma CallAt(s: State, k: CallId)
    requires CallInv(s) && k in s.calls
    ensures CallOk(s, k)
  {
  }

  lemma HonestStays(s: State, s': State, cause: Cause)
    requires Grows(s, s') && Honest(s, cause)
    ensures Honest(s', cause)
  {
  }

  lemma PhaseStays(s: State, s': State, phase: Phase)
    requires Grows(s, s') && PhaseOk(s, phase)
    ensures PhaseOk(s', phase)
  {
  }

  /** A call that is not touched stays as it should be. */
  lemma CallStays(s: State, s': State, k: CallId)
    requires Grows(s, s') && k in s.calls && CallOk(s, k) && k in s'.calls && s'.calls[k] == s.calls[k]
    ensures CallOk(s', k)
  {
    hide Grows, Honest, PhaseOk;
    HonestStays(s, s', s.calls[k].cause);
    PhaseStays(s, s', s.calls[k].phase);
  }

  lemma CallsUpdate(s: State, s': State, k: CallId)
    requires CallInv(s) && Grows(s, s') && k in s'.calls && s'.calls == s.calls[k := s'.calls[k]] && CallOk(s', k)
    ensures CallInv(s')
  {
    hide Grows, CallOk;
    forall j | j in s'.calls ensures CallOk(s', j) {
      if j != k { CallAt(s, j); CallStays(s, s', j); }
    }
  }

  lemma CallsFrame(s: State, s': State)
    requires CallInv(s) && Grows(s, s') && s'.calls == s.calls
    ensures CallInv(s')
  {
    hide Grows, CallOk;
    forall j | j in s'.calls ensures CallOk(s', j) { CallAt(s, j); CallStays(s, s', j); }
  }

  lemma LivePublished(s: State)
    requires PublishInv(s) && s.Live().Some?
    ensures s.Live().value in s.everPublished
  {
  }

  lemma LockedHasCall(s: State, s': State, k: CallId, slot: AttemptId, d: Decision)
    requires k in s.calls && (d.Join? ==> d.attempt in s.attempts) && s' == Locked(s, k, slot, d)
    requires Honest(s', s.calls[k].cause) && (d.StartFails? ==> Honest(s', Caused(slot, d.failure)))
    requires d.Use? ==> s.Live().Some? && s.Live().value in s.everPublished
    ensures HasCall(s', k)
  {
    hide Honest;
  }

  lemma CallAfterLock(s: State, step: Step)
    requires CallInv(s) && PublishInv(s) && May(s, step) && step.Lock? && Grows(s, Does(s, step))
    ensures HasCall(Does(s, step), step.call)
  {
    hide CallInv, PublishInv, Decide, Grows, Honest, Does, May, HasCall, StartFailed;
    LockDoes(s, step);
    var s', k := Does(s, step), step.call;
    var d := Decide(s, s.calls[k], step.startFails);
    CallAt(s, k);
    HonestStays(s, s', s.calls[k].cause);
    if d.Use? { LivePublished(s); }
    if d.StartFails? { StartFailureHonest(s, k, step.slot, d.failure); }
    LockedHasCall(s, s', k, step.slot, d);
  }

  lemma StartFailureHonest(s: State, k: CallId, slot: AttemptId, failure: Failure)
    requires k in s.calls
    ensures Honest(StartFailed(s, k, slot, failure), Caused(slot, failure))
  {
  }

  /** A judged attempt is done, so what a call takes from it is settled for good. */
  lemma CallAfterJudge(s: State, step: Step)
    requires CallInv(s) && WorkInv(s) && PublishInv(s) && May(s, step) && step.Judge? && Grows(s, Does(s, step))
    ensures HasCall(Does(s, step), step.call)
  {
    hide CallInv, WorkInv, PublishInv, Grows, WorkerDoes, WorkerMay, OpenerDoes, OpenerMay;
    var call := s.calls[step.call];
    var a := call.phase.attempt;
    CallAt(s, step.call);
    AttemptAt(s, a);
    JudgedFrame(s, step);
    HonestStays(s, Does(s, step), call.cause);
    if s.attempts[a].pending.error.None? { TransportPublished(s, a); }
  }

  lemma TransportPublished(s: State, a: AttemptId)
    requires PublishInv(s) && a in s.attempts && s.attempts[a].pending.transport.Some?
    ensures s.attempts[a].pending.transport.value in s.everPublished
  {
  }

  lemma DepartedPhase(s: State, k: CallId)
    requires k in s.calls && s.calls[k].phase.Leaving? && s.calls[k].phase.attempt in s.attempts
    ensures var s', a := Departed(s, k), s.calls[k].phase.attempt;
            k in s'.calls && (s'.calls[k].phase == Waiting(a, s.now) || s'.calls[k].phase == Aborting(a)
                              || s'.calls[k].phase == Returned(Message(s.calls[k].cause)))
  {
  }

  lemma CallAfterLeave(s: State, s': State, k: CallId)
    requires k in s.calls && s.calls[k].phase.Leaving? && s.calls[k].phase.attempt in s.attempts
    requires s' == Departed(s, k) && Honest(s', s.calls[k].cause)
    ensures HasCall(s', k)
  {
    hide Honest, Departed;
    DepartedIs(s, k);
    DepartedPhase(s, k);
  }

  lemma CallAfterAbort(s: State, s': State, k: CallId)
    requires k in s.calls && s.calls[k].phase.Aborting? && s.calls[k].phase.attempt in s.attempts
    requires s' == AbortDecided(s, k) && Honest(s', s.calls[k].cause)
    ensures HasCall(s', k)
  {
    hide Honest;
  }

  lemma CallAfterClose(s: State, s': State, k: CallId, t: TransportId)
    requires k in s.calls && s.calls[k].phase.Closing? && CallOk(s, k)
    requires s' == TransportClosed(s, k, t) && Honest(s', s.calls[k].cause)
    ensures HasCall(s', k)
  {
    hide Honest;
  }

  lemma CallAfterOther(s: State, step: Step)
    requires CallInv(s) && WorkInv(s) && PublishInv(s) && May(s, step) && step.OfCall() && !step.Lock? && !step.Judge?
    requires Grows(s, Does(s, step))
    ensures HasCall(Does(s, step), step.call)
  {
    hide CallInv, PublishInv, WorkInv, Grows, Honest, Locked, Judged, Departed, AbortDecided, TransportClosed, WorkerDoes, WorkerMay, OpenerDoes, OpenerMay;
    var s', k := Does(s, step), step.call;
    CallAt(s, k);
    HonestStays(s, s', s.calls[k].cause);
    PhaseStays(s, s', s.calls[k].phase);
    if step.FastPath? && s.Live().Some? { LivePublished(s); }
    else if step.Leave? { LeaveDoes(s, step); CallAfterLeave(s, s', k); }
    else if step.Abort? { AbortDoes(s, step); CallAfterAbort(s, s', k); }
    else if step.Close? { CloseDoes(s, step); CallAfterClose(s, s', k, step.transport); }
  }

  lemma LockTouchesOne(s: State, k: CallId, slot: AttemptId, d: Decision)
    requires k in s.calls && (d.Join? ==> d.attempt in s.attempts)
    ensures k in Locked(s, k, slot, d).calls
    ensures Locked(s, k, slot, d).calls == s.calls[k := Locked(s, k, slot, d).calls[k]]
  {
  }

  lemma JudgeTouchesOne(s: State, step: Step)
    requires May(s, step) && step.Judge?
    ensures step.call in Judged(s, step.call).calls
    ensures Judged(s, step.call).calls == s.calls[step.call := Judged(s, step.call).calls[step.call]]
  {
  }

  lemma CallTouchesOne(s: State, step: Step)
    requires May(s, step) && step.OfCall()
    ensures step.call in Does(s, step).calls
    ensures Does(s, step).calls == s.calls[step.call := Does(s, step).calls[step.call]]
  {
    hide Does, May, Locked, Decide, Judged, Departed, AbortDecided, TransportClosed;
    if step.Judge? { JudgeTouchesOne(s, step); JudgeDoes(s, step); }
    else if step.Lock? { LockDoes(s, step); LockTouchesOne(s, step.call, step.slot, Decide(s, s.calls[step.call], step.startFails)); }
    else if step.Leave? { LeaveDoes(s, step); DepartedIs(s, step.call); }
    else if step.Abort? { AbortDoes(s, step); AbortDecidedIs(s, step.call); }
    else if step.Close? { CloseDoes(s, step); TransportClosedIs(s, step.call, step.transport); }
    else { MoveDoes(s, step); }
  }

  lemma CallKept(s: State, step: Step)
    requires SlotInv(s) && WorkInv(s) && PublishInv(s) && CallInv(s) && May(s, step)
    ensures CallInv(Does(s, step))
  {
    hide SlotInv, WorkInv, PublishInv, CallInv, CallOk, Grows, CallDoes, WorkerDoes, OpenerDoes;
    var s' := Does(s, step);
    GrowsByStep(s, step);
    if step.OfCall() {
      CallTouchesOne(s, step);
      if step.Lock? { CallAfterLock(s, step); }
      else if step.Judge? { CallAfterJudge(s, step); }
      else { CallAfterOther(s, step); }
      CallsUpdate(s, s', step.call);
    } else if step.Enter? {
      NewCall(s, step.call, step.deadline);
      CallsUpdate(s, s', step.call);
    } else {
      if step.OfWorker() { WorkerLeaves(s, step); }
      if step.OfOpener() { OpenerFrame(s, step); }
      CallsFrame(s, s');
    }
  }

  lemma NewCall(s: State, k: CallId, deadline: Time)
    requires k !in s.calls
    ensures CallOk(Does(s, Enter(k, deadline)), k)
  {
  }

  // ----- waiters are kept -----

  function One(b: bool): int { if b then 1 else 0 }

  ghost predicate Waits(s: State, k: CallId, a: AttemptId) { k in s.calls && s.calls[k].phase.WaitsOn(a) }

  lemma OneChanges(before: set<CallId>, after: set<CallId>, k: CallId)
    requires forall j :: j != k ==> (j in before <==> j in after)
    ensures |after| == |before| + One(k in after) - One(k in before)
  {
    assert after - {k} == before - {k};
    assert |after - {k}| == |after| - One(k in after);
    assert |before - {k}| == |before| - One(k in before);
  }

  /** One call's change of phase changes an attempt's waiters by what that call is to it. */
  lemma WaitersDelta(s: State, s': State, k: CallId, a: AttemptId)
    requires k in s.calls && k in s'.calls && s'.calls == s.calls[k := s'.calls[k]]
    ensures |WaitersOf(s', a)| == |WaitersOf(s, a)| + One(Waits(s', k, a)) - One(Waits(s, k, a))
  {
    OneChanges(WaitersOf(s, a), WaitersOf(s', a), k);
  }

  /** An attempt open after a step, and what it was before. */
  ghost predicate OpenBefore(s: State, s': State, a: AttemptId, more: int) {
    a in s'.attempts && !s'.attempts[a].pending.done ==>
      a in s.attempts && !s.attempts[a].pending.done && s'.attempts[a].pending.waiters == s.attempts[a].pending.waiters + more
  }

  lemma WaiterUpdate(s: State, s': State, k: CallId)
    requires WaiterInv(s) && k in s.calls && k in s'.calls && s'.calls == s.calls[k := s'.calls[k]]
    requires forall a :: OpenBefore(s, s', a, One(Waits(s', k, a)) - One(Waits(s, k, a)))
    ensures WaiterInv(s')
  {
    forall a | a in s'.attempts ensures CountOk(s', a) {
      assert OpenBefore(s, s', a, One(Waits(s', k, a)) - One(Waits(s, k, a)));
      if !s'.attempts[a].pending.done {
        assert CountOk(s, a);
        WaitersDelta(s, s', k, a);
      }
    }
  }

  lemma WaiterFrame(s: State, s': State)
    requires WaiterInv(s) && s'.calls == s.calls
    requires forall a :: a in s'.attempts && !s'.attempts[a].pending.done ==>
               a in s.attempts && !s.attempts[a].pending.done && s'.attempts[a].pending.waiters == s.attempts[a].pending.waiters
    ensures WaiterInv(s')
  {
    forall a | a in s'.attempts ensures CountOk(s', a) {
      if !s'.attempts[a].pending.done {
        assert CountOk(s, a);
        assert WaitersOf(s', a) == WaitersOf(s, a);
      }
    }
  }

  lemma NoneWaitsOnNew(s: State, a: AttemptId)
    requires CallInv(s) && a !in s.attempts
    ensures WaitersOf(s, a) == {}
  {
    forall k | k in s.calls ensures !s.calls[k].phase.WaitsOn(a) { assert CallOk(s, k); }
  }

  lemma WaiterKeptByStart(s: State, k: CallId, slot: AttemptId)
    requires WaiterInv(s) && CallInv(s) && k in s.calls && s.calls[k].phase.AtLock? && slot !in s.attempts
    ensures WaiterInv(StartAttempt(s, k, slot))
  {
    var s' := StartAttempt(s, k, slot);
    forall a | a in s'.attempts ensures CountOk(s', a) {
      WaitersDelta(s, s', k, a);
      if a == slot { NoneWaitsOnNew(s, a); } else { assert CountOk(s, a); }
    }
  }

  lemma WaiterKeptByJoin(s: State, k: CallId, a: AttemptId)
    requires WaiterInv(s) && k in s.calls && s.calls[k].phase.AtLock? && a in s.attempts
    ensures WaiterInv(JoinAttempt(s, k, a))
  {
    hide WaiterInv;
    WaiterUpdate(s, JoinAttempt(s, k, a), k);
  }

  lemma WaiterKeptByStartFailure(s: State, k: CallId, slot: AttemptId, failure: Failure)
    requires WaiterInv(s) && k in s.calls && s.calls[k].phase.AtLock? && slot !in s.attempts
    ensures WaiterInv(StartFailed(s, k, slot, failure))
  {
    hide WaiterInv;
    WaiterUpdate(s, StartFailed(s, k, slot, failure), k);
  }

  /** A call that waits on no attempt before or after counts for none. */
  lemma WaiterKeptByPhase(s: State, s': State, k: CallId)
    requires WaiterInv(s) && k in s.calls && k in s'.calls && s'.calls == s.calls[k := s'.calls[k]]
    requires s'.attempts == s.attempts
    requires forall a :: a in s.attempts && !s.attempts[a].pending.done ==> (Waits(s', k, a) <==> Waits(s, k, a))
    ensures WaiterInv(s')
  {
    hide WaiterInv;
    WaiterUpdate(s, s', k);
  }

  lemma WaiterKeptByLock(s: State, step: Step)
    requires WaiterInv(s) && CallInv(s) && May(s, step) && step.Lock?
    ensures WaiterInv(Does(s, step))
  {
    hide WaiterInv, CallInv, Decide, JoinAttempt, StartAttempt, StartFailed, Does, May;
    LockDoes(s, step);
    var k := step.call;
    match Decide(s, s.calls[k], step.startFails)
    case Use => WaiterKeptByPhase(s, Does(s, step), k);
    case GiveUp => WaiterKeptByPhase(s, Does(s, step), k);
    case Join(a) => WaiterKeptByJoin(s, k, a);
    case Start => WaiterKeptByStart(s, k, step.slot);
    case StartFails(failure) => WaiterKeptByStartFailure(s, k, step.slot, failure);
  }

  lemma WaiterKeptByLeave(s: State, step: Step)
    requires WaiterInv(s) && May(s, step) && step.Leave?
    ensures WaiterInv(Does(s, step))
  {
    hide WaiterInv;
    var s', k := Does(s, step), step.call;
    var a := s.calls[k].phase.attempt;
    if s.attempts[a].pending.done {
      WaiterKeptByPhase(s, s', k);
    } else {
      assert Waits(s, k, a) && forall b :: !Waits(s', k, b);
      WaiterUpdate(s, s', k);
    }
  }

  lemma WaiterKeptByAbort(s: State, step: Step)
    requires WaiterInv(s) && May(s, step) && step.Abort?
    ensures WaiterInv(Does(s, step))
  {
    hide WaiterInv, Does, May, AbortDecided, Aborts;
    AbortDoes(s, step);
    AbortDecidedIs(s, step.call);
    AbortWaitsOnNone(s, step.call);
    WaiterUpdate(s, Does(s, step), step.call);
  }

  lemma AbortWaitsOnNone(s: State, k: CallId)
    requires k in s.calls && s.calls[k].phase.Aborting? && s.calls[k].phase.attempt in s.attempts
    ensures forall a :: !Waits(s, k, a) && !Waits(AbortDecided(s, k), k, a)
  {
  }

  lemma WaiterKeptByCall(s: State, step: Step)
    requires WaiterInv(s) && May(s, step) && step.OfCall() && !step.Lock? && !step.Leave? && !step.Abort?
    ensures WaiterInv(Does(s, step))
  {
    hide WaiterInv, Locked, Judged;
    CallTouchesOne(s, step);
    if step.Judge? { JudgedFrame(s, step); JudgedWaitsOnNone(s, step); }
    WaiterKeptByPhase(s, Does(s, step), step.call);
  }

  lemma JudgedWaitsOnNone(s: State, step: Step)
    requires May(s, step) && step.Judge?
    ensures forall a :: !Waits(s, step.call, a) && !Waits(Judged(s, step.call), step.call, a)
  {
  }

  lemma WaiterKeptBySettle(s: State, step: Step)
    requires SlotInv(s) && WaiterInv(s) && May(s, step) && step.SettleOpened?
    ensures WaiterInv(Does(s, step))
  {
    hide SlotInv, WaiterInv, Does, May;
    SettleDoes(s, step);
    SlotAt(s, step.attempt);
    WaiterFrame(s, Does(s, step));
  }

  lemma WaiterKeptByWorker(s: State, step: Step)
    requires SlotInv(s) && WaiterInv(s) && May(s, step) && step.OfWorker()
    ensures WaiterInv(Does(s, step))
  {
    hide SlotInv, WaiterInv, CallDoes, CallMay, OpenerDoes, OpenerMay, SettledOpen;
    if step.SettleOpened? {
      WaiterKeptBySettle(s, step);
    } else {
      SlotAt(s, step.attempt);
      WorkerLeaves(s, step);
      WaiterFrame(s, Does(s, step));
    }
  }

  lemma WaiterKept(s: State, step: Step)
    requires SlotInv(s) && CallInv(s) && WaiterInv(s) && May(s, step)
    ensures WaiterInv(Does(s, step))
  {
    hide SlotInv, CallInv, WaiterInv, CallDoes, WorkerDoes, OpenerDoes;
    if step.Lock? { WaiterKeptByLock(s, step); }
    else if step.Leave? { WaiterKeptByLeave(s, step); }
    else if step.Abort? { WaiterKeptByAbort(s, step); }
    else if step.OfCall() { WaiterKeptByCall(s, step); }
    else if step.OfWorker() { WaiterKeptByWorker(s, step); }
    else if step.OfOpener() { OpenerFrame(s, step); WaiterFrame(s, Does(s, step)); }
    else if step.Enter? { WaiterKeptByEnter(s, step.call, step.deadline); }
    else { WaiterFrame(s, Does(s, step)); }
  }

  lemma WaiterKeptByEnter(s: State, k: CallId, deadline: Time)
    requires WaiterInv(s) && k !in s.calls
    ensures WaiterInv(Does(s, Enter(k, deadline)))
  {
    var s' := Does(s, Enter(k, deadline));
    forall a | a in s'.attempts ensures CountOk(s', a) {
      assert CountOk(s, a);
      assert WaitersOf(s', a) == WaitersOf(s, a);
    }
  }

  // ----- the account is kept -----

  /** Places move together with what holds the connections. */
  lemma PlaceFrame(s: State, s': State)
    requires PlaceInv(s) && s'.conns.Keys == s.conns.Keys && s'.places == s.places && s'.published == s.published
    requires s'.released == s.released && s'.openers == s.openers
    requires forall a :: a in s.attempts ==> a in s'.attempts
    requires forall a :: a in s'.attempts ==>
               s'.attempts[a].worker.Holds() == if a in s.attempts then s.attempts[a].worker.Holds() else None
    ensures PlaceInv(s')
  {
    forall c | c in s'.conns ensures Owns(s', c, s'.places[c]) { assert Owns(s, c, s.places[c]); }
    forall c, place | Owns(s', c, place) ensures c in s'.conns && s'.places[c] == place { assert Owns(s, c, place); }
  }

  /** Only connection `c` changes hands. */
  lemma PlaceMoves(s: State, s': State, c: ConnId, place: Place)
    requires PlaceInv(s) && s'.conns.Keys == s.conns.Keys + {c} && s'.places == s.places[c := place]
    requires forall d, p :: d != c ==> (Owns(s', d, p) <==> Owns(s, d, p))
    requires forall p :: Owns(s', c, p) <==> p == place
    ensures PlaceInv(s')
  {
    forall d | d in s'.conns ensures Owns(s', d, s'.places[d]) {
      if d != c { assert Owns(s, d, s.places[d]); }
    }
  }

  lemma PlaceAt(s: State, c: ConnId, place: Place)
    requires PlaceInv(s) && Owns(s, c, place)
    ensures c in s.conns && c in s.places && s.places[c] == place
  {
  }

  lemma PlaceKeptByLock(s: State, k: CallId, slot: AttemptId, d: Decision)
    requires PlaceInv(s) && k in s.calls && slot !in s.attempts && (d.Join? ==> d.attempt in s.attempts)
    ensures PlaceInv(Locked(s, k, slot, d))
  {
    hide PlaceInv;
    PlaceFrame(s, Locked(s, k, slot, d));
  }

  lemma PlaceKeptByLeave(s: State, k: CallId)
    requires PlaceInv(s) && k in s.calls && s.calls[k].phase.Leaving? && s.calls[k].phase.attempt in s.attempts
    ensures PlaceInv(Departed(s, k))
  {
    hide PlaceInv, Departed;
    DepartedIs(s, k);
    PlaceFrame(s, Departed(s, k));
  }

  lemma PlaceKeptByAbort(s: State, k: CallId)
    requires PlaceInv(s) && k in s.calls && s.calls[k].phase.Aborting? && s.calls[k].phase.attempt in s.attempts
    ensures PlaceInv(AbortDecided(s, k))
  {
    hide PlaceInv, AbortDecided, Aborts;
    AbortDecidedIs(s, k);
    PlaceFrame(s, AbortDecided(s, k));
  }

  lemma PlaceKeptByClose(s: State, k: CallId, t: TransportId)
    requires PlaceInv(s) && k in s.calls && s.calls[k].phase.Closing?
    ensures PlaceInv(TransportClosed(s, k, t))
  {
    hide PlaceInv;
    PlaceFrame(s, TransportClosed(s, k, t));
  }

  lemma PlaceKeptByCall(s: State, step: Step)
    requires PlaceInv(s) && May(s, step) && step.OfCall() && !step.Lock?
    ensures PlaceInv(Does(s, step))
  {
    hide PlaceInv, Locked, Judged, Departed, AbortDecided, TransportClosed, WorkerDoes, WorkerMay, OpenerDoes, OpenerMay;
    if step.Leave? { LeaveDoes(s, step); PlaceKeptByLeave(s, step.call); }
    else if step.Abort? { AbortDoes(s, step); PlaceKeptByAbort(s, step.call); }
    else if step.Close? { CloseDoes(s, step); PlaceKeptByClose(s, step.call, step.transport); }
    else {
      if step.Judge? { JudgedFrame(s, step); }
      PlaceFrame(s, Does(s, step));
    }
  }

  lemma PlaceKeptByBuild(s: State, step: Step)
    requires PlaceInv(s) && May(s, step) && step.Build?
    ensures PlaceInv(Does(s, step))
  {
    hide CallDoes, CallMay, OpenerDoes, OpenerMay;
    var s', a, c := Does(s, step), step.attempt, step.conn;
    forall p ensures Owns(s', c, p) <==> p == AtWorker(a) { assert !Owns(s, c, p); }
    PlaceMoves(s, s', c, AtWorker(a));
  }

  lemma PlaceKeptByLetting(s: State, step: Step)
    requires PlaceInv(s) && May(s, step) && (step.Drop? || step.Release?)
    ensures PlaceInv(Does(s, step))
  {
    hide CallDoes, CallMay, OpenerDoes, OpenerMay;
    var s', a := Does(s, step), step.attempt;
    var c := s.attempts[a].worker.conn;
    assert Owns(s, c, AtWorker(a));
    forall p ensures Owns(s', c, p) <==> p == AtReleased { assert p != AtWorker(a) ==> !Owns(s, c, p); }
    PlaceMoves(s, s', c, AtReleased);
  }

  /** A worker that keeps its hold. */
  lemma PlaceKeptByHold(s: State, step: Step)
    requires PlaceInv(s) && May(s, step) && step.OfWorker()
    requires !step.Build? && !step.Drop? && !step.Release? && !step.SettleOpened?
    ensures PlaceInv(Does(s, step))
  {
    hide PlaceInv, CallDoes, CallMay, OpenerDoes, OpenerMay;
    PlaceFrame(s, Does(s, step));
  }

  /** An attempt that is not published, aborted or handed another's connection, owes its own a release. */
  lemma PlaceKeptByDiscard(s: State, step: Step)
    requires PlaceInv(s) && May(s, step) && step.SettleOpened?
    requires s.attempts[step.attempt].pending.aborted || s.Live().Some?
    ensures PlaceInv(Does(s, step))
  {
    hide Does, May;
    SettleDoes(s, step);
    var s', a := Does(s, step), step.attempt;
    var c := s.attempts[a].worker.conn;
    PlaceAt(s, c, AtWorker(a));
    if s.published.Some? { PlaceAt(s, s.published.value, AtPublished); }
    assert s'.places == s.places;
    PlaceFrame(s, s');
  }

  /** A publication: the new connection takes the place of the old one, which its worker now owes a
      release. */
  lemma PlaceKeptByPublish(s: State, step: Step)
    requires PlaceInv(s) && May(s, step) && step.SettleOpened?
    requires !s.attempts[step.attempt].pending.aborted && s.Live().None?
    ensures PlaceInv(Does(s, step))
  {
    hide Does, May;
    SettleDoes(s, step);
    var s', a := Does(s, step), step.attempt;
    var c := s.attempts[a].worker.conn;
    PlaceAt(s, c, AtWorker(a));
    if s.published.Some? { PlaceAt(s, s.published.value, AtPublished); }
    forall d | d in s'.conns ensures Owns(s', d, s'.places[d]) { assert Owns(s, d, s.places[d]); }
    forall d, p | Owns(s', d, p) ensures d in s'.conns && s'.places[d] == p {
      if p == AtWorker(a) { assert Owns(s, d, AtPublished); }
      else if p == AtPublished { assert d == c; }
      else { assert Owns(s, d, p); }
    }
  }

  lemma PlaceKeptByOpener(s: State, step: Step)
    requires PlaceInv(s) && May(s, step) && step.OfOpener() && !step.OpenPublishes? && !step.OpenBuilds? && !step.OpenReleases?
    ensures PlaceInv(Does(s, step))
  {
    var s', o := Does(s, step), step.opener;
    forall c | c in s'.conns ensures Owns(s', c, s'.places[c]) { assert Owns(s, c, s.places[c]); }
    forall c, p | Owns(s', c, p) ensures c in s'.conns && s'.places[c] == p { assert Owns(s, c, p); }
  }

  lemma PlaceKeptByOpenerBuilds(s: State, step: Step)
    requires PlaceInv(s) && May(s, step) && step.OpenBuilds?
    ensures PlaceInv(Does(s, step))
  {
    hide CallDoes, CallMay, WorkerDoes, WorkerMay;
    var s', o := Does(s, step), step.opener;
    forall p ensures Owns(s', step.conn, p) <==> p == AtOpener(o) { assert !Owns(s, step.conn, p); }
    PlaceMoves(s, s', step.conn, AtOpener(o));
  }

  lemma PlaceKeptByOpenerReleases(s: State, step: Step)
    requires PlaceInv(s) && May(s, step) && step.OpenReleases?
    ensures PlaceInv(Does(s, step))
  {
    hide CallDoes, CallMay, WorkerDoes, WorkerMay;
    var s', o := Does(s, step), step.opener;
    var c := s.openers[o].conn;
    assert Owns(s, c, AtOpener(o));
    forall p ensures Owns(s', c, p) <==> p == AtReleased { assert p != AtOpener(o) ==> !Owns(s, c, p); }
    PlaceMoves(s, s', c, AtReleased);
  }

  lemma PlaceKeptByOpenerPublishes(s: State, step: Step)
    requires PlaceInv(s) && May(s, step) && step.OpenPublishes?
    ensures PlaceInv(Does(s, step))
  {
    hide CallDoes, CallMay, WorkerDoes, WorkerMay;
    var s', o := Does(s, step), step.opener;
    var c := s.openers[o].conn;
    PlaceAt(s, c, AtOpener(o));
    if s.published.Some? { PlaceAt(s, s.published.value, AtPublished); }
    forall d | d in s'.conns ensures Owns(s', d, s'.places[d]) { assert Owns(s, d, s.places[d]); }
    forall d, p | Owns(s', d, p) ensures d in s'.conns && s'.places[d] == p {
      if p == AtOpener(o) { assert s.Live().None? ==> Owns(s, d, AtPublished); }
      else if p == AtPublished { assert s.Live().Some? ==> Owns(s, d, AtPublished); }
      else { assert Owns(s, d, p); }
    }
  }

  lemma PlaceKept(s: State, step: Step)
    requires PlaceInv(s) && May(s, step)
    ensures PlaceInv(Does(s, step))
  {
    hide PlaceInv, CallDoes, WorkerDoes, OpenerDoes;
    if step.Lock? {
      LockPlaces(s, step);
    } else if step.OfCall() { PlaceKeptByCall(s, step); }
    else if step.Build? { PlaceKeptByBuild(s, step); }
    else if step.Drop? || step.Release? { PlaceKeptByLetting(s, step); }
    else if step.SettleOpened? {
      if s.attempts[step.attempt].pending.aborted || s.Live().Some? { PlaceKeptByDiscard(s, step); }
      else { PlaceKeptByPublish(s, step); }
    }
    else if step.OfWorker() { PlaceKeptByHold(s, step); }
    else if step.OpenPublishes? { PlaceKeptByOpenerPublishes(s, step); }
    else if step.OpenBuilds? { PlaceKeptByOpenerBuilds(s, step); }
    else if step.OpenReleases? { PlaceKeptByOpenerReleases(s, step); }
    else if step.OfOpener() { PlaceKeptByOpener(s, step); }
    else if step.OpenCalled? { PlaceKeptByAsking(s, step.opener); }
    else { PlaceFrame(s, Does(s, step)); }
  }

  lemma LockPlaces(s: State, step: Step)
    requires PlaceInv(s) && May(s, step) && step.Lock?
    ensures PlaceInv(Does(s, step))
  {
    hide PlaceInv, Locked, Decide;
    PlaceKeptByLock(s, step.call, step.slot, Decide(s, s.calls[step.call], step.startFails));
  }

  lemma PlaceKeptByAsking(s: State, o: OpenerId)
    requires PlaceInv(s) && o !in s.openers
    ensures PlaceInv(OpenerAt(s, o, Asking))
  {
    var s' := OpenerAt(s, o, Asking);
    forall c | c in s'.conns ensures Owns(s', c, s'.places[c]) { assert Owns(s, c, s.places[c]); }
    forall c, p | Owns(s', c, p) ensures c in s'.conns && s'.places[c] == p { assert Owns(s, c, p); }
  }

  // ----- every run -----

  lemma InitHolds(s: State)
    requires Init(s)
    ensures Inv(s)
  {
  }

  lemma InvKept(s: State, step: Step)
    requires Inv(s) && May(s, step)
    ensures Inv(Does(s, step)) && Grows(s, Does(s, step))
  {
    hide SlotInv, WorkInv, PublishInv, TransportInv, CallInv, WaiterInv, PlaceInv, Grows, May, Does;
    SlotKept(s, step);
    WorkKept(s, step);
    PublishKept(s, step);
    TransportKept(s, step);
    CallKept(s, step);
    WaiterKept(s, step);
    PlaceKept(s, step);
    GrowsByStep(s, step);
  }

  /** The invariant holds in every state of every run. */
  lemma {:induction false} InvHolds(states: seq<State>, steps: seq<Step>, i: nat)
    requires Run(states, steps) && i < |states|
    ensures Inv(states[i])
    decreases i
  {
    hide Inv, May, Does, Init;
    if i == 0 {
      InitHolds(states[0]);
    } else {
      InvHolds(states, steps, i - 1);
      InvKept(states[i - 1], steps[i - 1]);
    }
  }

  lemma GrowsOnward(s: State, t: State, u: State)
    requires Grows(s, t) && Grows(t, u)
    ensures Grows(s, u)
  {
  }

  lemma GrowsSame(s: State)
    ensures Grows(s, s)
  {
  }

  /** What has grown along a run stays: an outcome is frozen once it has come. */
  lemma {:induction false} RunGrows(states: seq<State>, steps: seq<Step>, i: nat, j: nat)
    requires Run(states, steps) && i <= j < |states|
    ensures Grows(states[i], states[j])
    decreases j
  {
    hide Inv, May, Does, Init, Grows;
    if i == j {
      GrowsSame(states[i]);
    } else {
      RunGrows(states, steps, i, j - 1);
      InvHolds(states, steps, j - 1);
      InvKept(states[j - 1], steps[j - 1]);
      GrowsOnward(states[i], states[j - 1], states[j]);
    }
  }

  // ----- the main results -----

  /** Abort and publish never cross. A transport an abort closed, at any state of any run, belongs to a
      connection that no state of that run publishes; and no attempt marked aborted ever has its
      connection published, though the closing happens outside the lock. */
  lemma AbortNeverCrossesPublish(states: seq<State>, steps: seq<Step>, i: nat, j: nat)
    requires Run(states, steps) && i < |states| && j < |states|
    ensures forall t :: t in states[i].closed && t in states[i].transports ==> states[i].transports[t] !in states[j].everPublished
    ensures forall a, c :: AbortedConn(states[i], a, c) ==> c !in states[j].everPublished && states[j].published != Some(c)
  {
    var last := if i < j then j else i;
    var s := states[last];
    RunGrows(states, steps, i, last);
    RunGrows(states, steps, j, last);
    InvHolds(states, steps, i);
    InvHolds(states, steps, j);
    InvHolds(states, steps, last);
    forall a, c | AbortedConn(states[i], a, c) ensures c !in states[j].everPublished && states[j].published != Some(c) {
      assert AttemptOk(s, a);
      assert AbortedConn(s, a, c);
      assert c in s.everPublished ==> PublishedOk(s, c);
    }
    forall t | t in states[i].closed ensures states[i].transports[t] !in states[j].everPublished {
      assert ClosedOk(states[i], t);
      assert AbortedConn(states[i], states[i].closed[t], states[i].transports[t]);
    }
  }

  /** The outcome of an attempt is settled once: when it is done, its error, its transport, its waiters
      and whether it was aborted never change again. */
  lemma DoneIsFrozen(states: seq<State>, steps: seq<Step>, i: nat, j: nat, a: AttemptId)
    requires Run(states, steps) && i <= j < |states| && DoneIn(states[i], a)
    ensures a in states[j].attempts && states[j].attempts[a].pending == states[i].attempts[a].pending
  {
    RunGrows(states, steps, i, j);
  }

  /** Single flight: the slot is set exactly when one unsettled worker exists, and while an attempt is
      not done its `waiters` is the number of calls waiting on it. */
  lemma SingleFlight(states: seq<State>, steps: seq<Step>, i: nat)
    requires Run(states, steps) && i < |states|
    ensures forall a :: a in states[i].attempts ==>
              (!states[i].attempts[a].worker.Settled() <==> states[i].inflight == Some(a))
    ensures forall a :: a in states[i].attempts && !states[i].attempts[a].pending.done ==>
              states[i].attempts[a].pending.waiters == |WaitersOf(states[i], a)|
    ensures states[i].inflight.Some? ==> states[i].inflight.value in states[i].attempts
  {
    InvHolds(states, steps, i);
    forall a | a in states[i].attempts
      ensures (!states[i].attempts[a].worker.Settled() <==> states[i].inflight == Some(a))
      ensures !states[i].attempts[a].pending.done ==> states[i].attempts[a].pending.waiters == |WaitersOf(states[i], a)|
    {
      assert SlotOk(states[i], a) && CountOk(states[i], a);
    }
  }

  /** Honest outcomes: a call returns the transport of a connection that was published, or a message
      naming `timed out` or the failure of an attempt that was done and not aborted. */
  lemma HonestOutcomes(states: seq<State>, steps: seq<Step>, i: nat, k: CallId)
    requires Run(states, steps) && i < |states| && k in states[i].calls && states[i].calls[k].phase.Returned?
    ensures match states[i].calls[k].phase.outcome
            case Transport(conn) => conn.Some? && conn.value in states[i].everPublished
            case Message(cause) => Honest(states[i], cause)
  {
    InvHolds(states, steps, i);
    assert CallOk(states[i], k);
  }

  /** A done attempt without an error carries the transport of a connection that was published. */
  lemma SuccessWasPublished(states: seq<State>, steps: seq<Step>, i: nat, a: AttemptId)
    requires Run(states, steps) && i < |states| && DoneIn(states[i], a) && states[i].attempts[a].pending.error.None?
    ensures states[i].attempts[a].pending.transport.Some?
    ensures states[i].attempts[a].pending.transport.value in states[i].everPublished
  {
    InvHolds(states, steps, i);
    assert AttemptOk(states[i], a);
  }

  /** Conservation: every connection ever built is in exactly one place. */
  lemma Conservation(states: seq<State>, steps: seq<Step>, i: nat, c: ConnId)
    requires Run(states, steps) && i < |states|
    ensures c in states[i].conns <==> exists place :: Owns(states[i], c, place)
    ensures forall p, q :: Owns(states[i], c, p) && Owns(states[i], c, q) ==> p == q
  {
    InvHolds(states, steps, i);
    if c in states[i].conns { assert Owns(states[i], c, states[i].places[c]); }
  }

  /** Publishing never displaces a connection that is live at that moment: the published connection
      changes only when it is dead or there is none, and the one displaced is owed a release by the
      thread that displaced it. */
  lemma DisplacesOnlyDead(s: State, step: Step)
    requires May(s, step) && Does(s, step).published != s.published
    ensures step.OfWorker() || step.OfOpener()
    ensures s.Live().None? && Does(s, step).published.Some?
    ensures s.published.Some? ==> Owns(Does(s, step), s.published.value, if step.OfWorker() then AtWorker(step.attempt) else AtOpener(step.opener))
  {
    hide Inv, CallDoes, WorkerDoes, OpenerDoes;
    if step.Close? { CloseLeaves(s, step); }
    else if step.OfCall() { CallLeaves(s, step); }
    else if step.OfWorker() { WorkerDisplaces(s, step); }
    else { OpenerDisplaces(s, step); }
  }

  lemma WorkerDisplaces(s: State, step: Step)
    requires May(s, step) && step.OfWorker() && Does(s, step).published != s.published
    ensures s.Live().None? && Does(s, step).published.Some?
    ensures s.published.Some? ==> Owns(Does(s, step), s.published.value, AtWorker(step.attempt))
  {
    hide CallDoes, CallMay, OpenerDoes, OpenerMay;
  }

  lemma OpenerDisplaces(s: State, step: Step)
    requires May(s, step) && !step.OfCall() && !step.OfWorker() && Does(s, step).published != s.published
    ensures step.OfOpener() && s.Live().None? && Does(s, step).published.Some?
    ensures s.published.Some? ==> Owns(Does(s, step), s.published.value, AtOpener(step.opener))
  {
  }
}
