/** `SSHExecutor` and `_Pending` (executor/ssh.py) as the objects they are: each method is one of the
    regions held under the executor's lock, and does to its objects what the region's function says. */
module Executor {
  import opened Wrappers
  import opened Regions

  const RECONNECT_FACTOR: real := 3.0
  const CONNECT_TIMEOUT: real := 15.0

  /** `_Pending` */
  class Attempt {
    var done: bool
    var transport: Option<ConnId>
    var error: Option<Failure>
    var conn: Option<ConnId>
    var waiters: int
    var aborted: bool

    ghost function Record(): Pending
      reads this
    {
      Pending(done, transport, error, conn, waiters, aborted)
    }

    constructor ()
      ensures Record() == NEW_PENDING
    {
      done, transport, error, conn, waiters, aborted := false, None, None, None, 1, false;
    }
  }

  class SSHExecutor {
    var conn: Option<ConnId>
    var inflight: Attempt?
    var window: real

    constructor ()
      ensures conn == None && inflight == null && window == RECONNECT_FACTOR * CONNECT_TIMEOUT
    {
      conn, inflight, window := None, null, RECONNECT_FACTOR * CONNECT_TIMEOUT;
    }

    /** `_publish`: `live` is the published connection while it is connected, and `bound` the new one's
        connect bound, from which the window of later reconnects is taken. */
    method PublishConn(link: ConnId, bound: real, live: Option<ConnId>) returns (transport: Option<ConnId>, dropped: Option<ConnId>)
      modifies this`conn, this`window
      ensures Put(conn, transport, dropped) == Publish(link, old(conn), live)
      ensures live.Some? ==> conn == old(conn) && transport == live && dropped == Some(link) && window == old(window)
      ensures live.None? ==> conn == transport == Some(link) && dropped == old(conn) && window == 3.0 * bound
    {
      if live.Some? {
        return live, Some(link);
      }
      dropped := conn;
      conn := Some(link);
      window := RECONNECT_FACTOR * bound;
      transport := Some(link);
    }

    /** `_settle`, the attempt failed. */
    method SettleFailure(pending: Attempt, failure: Failure)
      modifies this`inflight, pending
      ensures pending.Record() == Failed(old(pending.Record()), failure)
      ensures pending.Record() == old(pending.Record()).(error := Some(failure), done := true)
      ensures inflight == if old(inflight) == pending then null else old(inflight)
    {
      pending.error := Some(failure);
      if inflight == pending {
        inflight := null;
      }
      pending.done := true;
    }

    /** `_settle`, the connection opened: an aborted attempt is recorded as failed, any other is
        published. */
    method SettleSuccess(pending: Attempt, link: ConnId, bound: real, live: Option<ConnId>) returns (dropped: Option<ConnId>)
      modifies this, pending
      ensures pending.done && pending.aborted == old(pending.aborted) && pending.waiters == old(pending.waiters) && pending.conn == old(pending.conn)
      ensures old(pending.aborted) ==>
                pending.error == Some(WasAborted) && pending.transport == old(pending.transport)
                && conn == old(conn) && dropped == Some(link) && window == old(window)
      ensures !old(pending.aborted) && live.Some? ==>
                pending.error == old(pending.error) && pending.transport == live
                && conn == old(conn) && dropped == Some(link) && window == old(window)
      ensures !old(pending.aborted) && live.None? ==>
                pending.error == old(pending.error) && pending.transport == conn == Some(link)
                && dropped == old(conn) && window == 3.0 * bound
      ensures Settlement(pending.Record(), conn, dropped) == Settled(old(pending.Record()), link, old(conn), live)
      ensures inflight == if old(inflight) == pending then null else old(inflight)
    {
      if pending.aborted {
        pending.error := Some(WasAborted);
        dropped := Some(link);
      } else {
        var transport;
        transport, dropped := PublishConn(link, bound, live);
        pending.transport := transport;
      }
      if inflight == pending {
        inflight := null;
      }
      pending.done := true;
    }

    /** `_leave`'s region: whether the call left, and whether it was the last. */
    method LeaveAttempt(pending: Attempt) returns (left: bool, last: bool)
      modifies pending
      ensures left == !old(pending.done) == Left(old(pending.Record())).Some?
      ensures pending.Record() == if left then Left(old(pending.Record())).value else old(pending.Record())
      ensures left ==> pending.Record() == old(pending.Record()).(waiters := old(pending.waiters) - 1)
      ensures last <==> left && old(pending.waiters) == 1
    {
      if pending.done {
        return false, false;
      }
      pending.waiters := pending.waiters - 1;
      return true, pending.waiters == 0;
    }

    /** `_abort`'s region: the transports to close once the lock is let go, none when the attempt is left
        alone. */
    method AbortAttempt(pending: Attempt, transports: set<TransportId>) returns (closing: set<TransportId>)
      modifies pending
      ensures closing == if Aborts(old(pending.Record()), transports) then transports else {}
      ensures pending.Record() == if Aborts(old(pending.Record()), transports) then Marked(old(pending.Record())) else old(pending.Record())
      ensures !old(pending.done) && old(pending.waiters) == 0 && transports != {} ==>
                closing == transports && pending.Record() == old(pending.Record()).(aborted := true)
      ensures old(pending.done) || old(pending.waiters) != 0 || transports == {} ==>
                closing == {} && pending.Record() == old(pending.Record())
    {
      if pending.done || pending.waiters != 0 {
        return {};
      }
      if transports == {} {
        return {};
      }
      pending.aborted := true;
      closing := transports;
    }

    /** `_ensure_connected`'s region, once it has decided to go on: the call joins the attempt in flight,
        or starts one; one whose thread cannot start is failed and the slot freed. */
    method JoinOrStart(startFails: Option<Failure>) returns (pending: Attempt, started: bool)
      modifies this`inflight, inflight
      ensures started == (old(inflight) == null)
      ensures !started ==> pending == old(inflight) == inflight && pending.Record() == Joined(old(inflight.Record()))
      ensures !started ==> pending.Record() == old(inflight.Record()).(waiters := old(inflight.waiters) + 1)
      ensures started ==> fresh(pending)
      ensures started && startFails.None? ==> inflight == pending && pending.Record() == NEW_PENDING
      ensures started && startFails.Some? ==> inflight == null && pending.Record() == Failed(NEW_PENDING, startFails.value)
    {
      if inflight != null {
        pending := inflight;
        pending.waiters := pending.waiters + 1;
        return pending, false;
      }
      pending := new Attempt();
      inflight := pending;
      if startFails.Some? {
        inflight := null;
        pending.error := startFails;
        pending.done := true;
      }
      started := true;
    }

    /** The whole region: the live connection's transport is used when no attempt is in flight; else the call
        stops trying once its last start has passed, unless it has just slept its backoff; else it joins or
        starts an attempt. */
    method TakeTurn(live: Option<ConnId>, scheduled: bool, late: bool, startFails: Option<Failure>)
      returns (choice: Choice, transport: Option<ConnId>, pending: Attempt?)
      modifies this`inflight, inflight
      ensures choice == Choose(old(inflight) != null, live.Some?, scheduled, late)
      ensures choice.UseLive? <==> old(inflight) == null && live.Some?
      ensures choice.StopTrying? <==> !choice.UseLive? && !scheduled && late
      ensures choice.JoinIt? <==> old(inflight) != null && (scheduled || !late)
      ensures choice.StartOne? <==> old(inflight) == null && live.None? && (scheduled || !late)
      ensures transport == if choice.UseLive? then live else None
      ensures choice.UseLive? || choice.StopTrying? ==>
                pending == null && inflight == old(inflight) && (inflight != null ==> inflight.Record() == old(inflight.Record()))
      ensures choice.JoinIt? ==>
                pending == old(inflight) == inflight && pending != null && pending.Record() == Joined(old(inflight.Record()))
      ensures choice.StartOne? ==>
                pending != null && fresh(pending)
                && inflight == (if startFails.None? then pending else null)
                && pending.Record() == if startFails.None? then NEW_PENDING else Failed(NEW_PENDING, startFails.value)
    {
      if inflight == null && live.Some? {
        return UseLive, live, null;
      }
      if !scheduled && late {
        return StopTrying, None, null;
      }
      var joined, started := JoinOrStart(startFails);
      return if started then StartOne else JoinIt, None, joined;
    }
  }
}
