/** The lock-protected regions of `SSHExecutor` (executor/ssh.py), as functions of what they read: the
    shared record of a connect attempt, the published connection, and whether it is live. */
module Regions {
  import opened Wrappers

  type ConnId = nat
  type TransportId = nat
  type AttemptId = nat
  type OpenerId = nat
  type CallId = nat

  /** Why an attempt failed: a refused authentication, the abort's own error, or anything else. */
  datatype Failure = Refused(detail: nat) | WasAborted | Other(detail: nat)

  /** `_Pending`'s fields. A transport is named by its connection. */
  datatype Pending = Pending(done: bool, transport: Option<ConnId>, error: Option<Failure>, conn: Option<ConnId>,
                             waiters: int, aborted: bool)

  const NEW_PENDING: Pending := Pending(false, None, None, None, 1, false)

  /** What publishing leaves: the published connection, the transport to use, the connection to release. */
  datatype Put = Put(published: Option<ConnId>, transport: Option<ConnId>, dropped: Option<ConnId>)

  /** `_publish`: a live published connection stays and the new one goes; else the new one takes its
      place. */
  function Publish(conn: ConnId, published: Option<ConnId>, live: Option<ConnId>): Put {
    if live.Some? then Put(published, live, Some(conn)) else Put(Some(conn), Some(conn), published)
  }

  /** `_settle` after a failure. */
  function Failed(p: Pending, failure: Failure): Pending {
    p.(error := Some(failure), done := true)
  }

  datatype Settlement = Settlement(pending: Pending, published: Option<ConnId>, dropped: Option<ConnId>)

  /** `_settle` after `open` returned: an aborted attempt is recorded as failed, any other is published. */
  function Settled(p: Pending, conn: ConnId, published: Option<ConnId>, live: Option<ConnId>): Settlement {
    if p.aborted then Settlement(Failed(p, WasAborted), published, Some(conn))
    else
      var put := Publish(conn, published, live);
      Settlement(p.(transport := put.transport, done := true), put.published, put.dropped)
  }

  /** A call joins the attempt in flight. */
  function Joined(p: Pending): Pending {
    p.(waiters := p.waiters + 1)
  }

  /** `_leave`: None when the outcome has just come. */
  function Left(p: Pending): Option<Pending> {
    if p.done then None else Some(p.(waiters := p.waiters - 1))
  }

  /** `_abort`'s decision, taken again under the lock. */
  predicate Aborts(p: Pending, transports: set<TransportId>) {
    !p.done && p.waiters == 0 && transports != {}
  }

  function Marked(p: Pending): Pending {
    p.(aborted := true)
  }

  /** What the region at the head of `_ensure_connected`'s loop chooses. */
  datatype Choice = UseLive | StopTrying | JoinIt | StartOne

  /** `busy`: an attempt is in flight; `live`: the published connection is connected; `scheduled`: the call has
      just slept a backoff; `late`: its last start has passed. */
  function Choose(busy: bool, live: bool, scheduled: bool, late: bool): (choice: Choice)
    ensures choice.JoinIt? ==> busy
    ensures choice.StartOne? ==> !busy && !live
    ensures choice.UseLive? ==> live
  {
    if !busy && live then UseLive
    else if !scheduled && late then StopTrying
    else if busy then JoinIt
    else StartOne
  }
}
