/** The MCP connection pool: a monitor with lazy creation, discard and close. */
module Pool {

  // ---- What the mutex protects -------------------------------------------------------------------

  /** `idle` is the buffered channel of idle sessions, oldest first. */
  datatype Core = Core(size: int, maxSize: nat, closed: bool, idle: seq<nat>)

  datatype Wake = NoWake | Signal | Broadcast

  /** How one turn of the acquire loop ends. */
  datatype Turn = PoolClosed | Took(session: nat) | Reserved | Cancelled | Sleep

  function AcquireTurn(c: Core, ctxErr: bool): (Core, Turn) {
    if c.closed then (c, PoolClosed)
    else if c.idle != [] then (c.(idle := c.idle[1..]), Took(c.idle[0]))
    else if c.size < c.maxSize then (c.(size := c.size + 1), Reserved)
    else if ctxErr then (c, Cancelled)
    else (c, Sleep)
  }

  /** Giving a lease back: into the channel while open, otherwise the session is to be closed. */
  function ReleaseTurn(c: Core, session: nat): (Core, Wake) {
    if c.closed then (c.(size := c.size - 1), Broadcast) else (c.(idle := c.idle + [session]), Signal)
  }

  function DropTurn(c: Core): (Core, Wake) { (c.(size := c.size - 1), Broadcast) }

  function CloseTurn(c: Core): (Core, seq<nat>) {
    if c.closed then (c, []) else (c.(closed := true, size := c.size - |c.idle|, idle := []), c.idle)
  }

  class PoolMonitor {
    var size: int
    const maxSize: nat
    var closed: bool
    var sessions: seq<nat>

    /** NewPool: one initial connection, returned to the channel. */
    constructor (maxSize: nat, first: nat)
      requires maxSize >= 1
      ensures Contents() == Core(1, maxSize, false, [first])
    {
      this.size, this.maxSize, closed, sessions := 1, maxSize, false, [first];
    }

    ghost function Contents(): Core
      reads this
    {
      Core(size, maxSize, closed, sessions)
    }

    /** One turn of the loop in acquire, from lock to unlock or Wait. */
    method Acquire(ctxErr: bool) returns (turn: Turn)
      modifies this
      ensures (Contents(), turn) == AcquireTurn(old(Contents()), ctxErr)
      ensures turn.PoolClosed? <==> old(closed)
      ensures turn.Took? <==> !old(closed) && old(sessions) != []
      ensures turn.Reserved? <==> !old(closed) && old(sessions) == [] && old(size) < maxSize
      ensures turn.Cancelled? <==> !old(closed) && old(sessions) == [] && old(size) >= maxSize && ctxErr
      ensures turn.Took? ==> [turn.session] + sessions == old(sessions)
      ensures !turn.Took? ==> sessions == old(sessions)
      ensures size == old(size) + (if turn.Reserved? then 1 else 0) && closed == old(closed)
    {
      if closed {
        return PoolClosed;
      }
      if |sessions| > 0 {
        turn := Took(sessions[0]);
        sessions := sessions[1..];
        return;
      }
      if size < maxSize {
        size := size + 1;
        return Reserved;
      }
      if ctxErr {
        return Cancelled;
      }
      turn := Sleep;
    }

    /** After connect succeeded: the session is leased, unless the pool was closed meanwhile. */
    method Connected() returns (open: bool)
      modifies this
      ensures open == !old(closed) && Contents() == if open then old(Contents()) else DropTurn(old(Contents())).0
    {
      if closed {
        size := size - 1;
        return false;
      }
      open := true;
    }

    method ConnectFailed() returns (wake: Wake)
      modifies this
      ensures (Contents(), wake) == DropTurn(old(Contents()))
      ensures size == old(size) - 1 && sessions == old(sessions) && closed == old(closed) && wake.Broadcast?
    {
      size := size - 1;
      wake := Broadcast;
    }

    /** The send into the channel must not block while the lock is held. */
    method Release(session: nat) returns (wake: Wake)
      requires !closed ==> |sessions| < maxSize
      modifies this
      ensures (Contents(), wake) == ReleaseTurn(old(Contents()), session)
      ensures closed == old(closed) && (closed ==> wake.Broadcast?) && (!closed ==> wake.Signal?)
      ensures sessions == (if closed then old(sessions) else old(sessions) + [session])
      ensures size == (if closed then old(size) - 1 else old(size))
    {
      if closed {
        size := size - 1;
        return Broadcast;
      }
      sessions := sessions + [session];
      wake := Signal;
    }

    method Discard() returns (wake: Wake)
      modifies this
      ensures (Contents(), wake) == DropTurn(old(Contents()))
      ensures size == old(size) - 1 && sessions == old(sessions) && closed == old(closed) && wake.Broadcast?
    {
      size := size - 1;
      wake := Broadcast;
    }

    /** Close drains the idle sessions one by one. */
    method Close() returns (idle: seq<nat>)
      modifies this
      ensures (Contents(), idle) == CloseTurn(old(Contents()))
      ensures closed && (old(closed) ==> idle == [] && size == old(size) && sessions == old(sessions))
      ensures !old(closed) ==> idle == old(sessions) && sessions == [] && size + |idle| == old(size)
    {
      if closed {
        return [];
      }
      closed := true;
      idle := [];
      while |sessions| > 0
        invariant idle + sessions == old(sessions) && size == old(size) - |idle| && closed
        decreases |sessions|
      {
        idle := idle + [sessions[0]];
        sessions := sessions[1..];
        size := size - 1;
      }
      assert idle == old(sessions);
    }
  }

  // ---- Callers as a step system --------------------------------------------------------------------------

  datatype Thread =
    | Trying                     // before its first turn
    | Waiting                    // asleep in cond.Wait
    | Woken                      // woken, not yet run
    | Connecting                 // holds reserved capacity
    | Connected(session: nat)    // connected, has not retaken the lock
    | Failed                     // connect failed, has not retaken the lock
    | Leased(session: nat)
    | Closing(todo: seq<nat>)    // sessions it must still close, outside the lock
    | Done

  /** `used`: sessions ever created; `closed`: sessions on which Close was called. */
  datatype System = System(core: Core, threads: map<nat, Thread>, used: set<nat>, closed: set<nat>)

  datatype Event =
    | Enter(t: nat)
    | Turns(t: nat, ctxErr: bool)
    | ConnectOk(t: nat, session: nat)
    | ConnectError(t: nat)
    | Relock(t: nat)
    | Release(t: nat, woken: nat)
    | Discard(t: nat)
    | Cancel
    | ClosePool(t: nat)
    | CloseSession(t: nat)

  function Broadcasting(threads: map<nat, Thread>): map<nat, Thread> {
    map t | t in threads :: if threads[t].Waiting? then Woken else threads[t]
  }

  /** Signal wakes one sleeping caller, if there is any; `w` is the one it happens to wake. */
  ghost predicate Signals(threads: map<nat, Thread>, w: nat, threads': map<nat, Thread>) {
    if exists t | t in threads :: threads[t].Waiting?
    then w in threads && threads[w].Waiting? && threads' == threads[w := Woken]
    else threads' == threads
  }

  function Sessions(th: Thread): seq<nat> {
    match th
    case Connected(x) => [x]
    case Leased(x) => [x]
    case Closing(todo) => todo
    case _ => []
  }

  /** Holds one unit of the pool's capacity. */
  predicate Holds(th: Thread) { th.Connecting? || th.Connected? || th.Failed? || th.Leased? }

  function AfterTurn(turn: Turn): Thread {
    match turn
    case Took(x) => Leased(x)
    case Reserved => Connecting
    case Sleep => Waiting
    case _ => Done
  }

  ghost predicate Step(s: System, e: Event, s': System) {
    match e
    case Enter(t) => t !in s.threads && s' == s.(threads := s.threads[t := Trying])
    case Turns(t, ctxErr) =>
      t in s.threads && (s.threads[t].Trying? || s.threads[t].Woken?) &&
      var (core, turn) := AcquireTurn(s.core, ctxErr);
      s' == s.(core := core, threads := s.threads[t := AfterTurn(turn)])
    case ConnectOk(t, x) =>
      t in s.threads && s.threads[t].Connecting? && x !in s.used &&
      s' == s.(threads := s.threads[t := Connected(x)], used := s.used + {x})
    case ConnectError(t) => t in s.threads && s.threads[t].Connecting? && s' == s.(threads := s.threads[t := Failed])
    case Relock(t) =>
      t in s.threads &&
      ((s.threads[t].Failed? && s' == s.(core := DropTurn(s.core).0, threads := Broadcasting(s.threads[t := Done]))) ||
       (s.threads[t].Connected? &&
        s' == if s.core.closed then s.(core := DropTurn(s.core).0,
                                       threads := Broadcasting(s.threads[t := Closing([s.threads[t].session])]))
              else s.(threads := s.threads[t := Leased(s.threads[t].session)])))
    case Release(t, w) =>
      t in s.threads && s.threads[t].Leased? &&
      var x := s.threads[t].session;
      s'.core == ReleaseTurn(s.core, x).0 && s' == s.(core := s'.core, threads := s'.threads) &&
      if s.core.closed then s'.threads == Broadcasting(s.threads[t := Closing([x])])
      else Signals(s.threads[t := Done], w, s'.threads)
    case Discard(t) =>
      t in s.threads && s.threads[t].Leased? &&
      s' == s.(core := DropTurn(s.core).0, threads := Broadcasting(s.threads[t := Closing([s.threads[t].session])]))
    case Cancel => s' == s.(threads := Broadcasting(s.threads))
    case ClosePool(t) =>
      t !in s.threads &&
      var (core, idle) := CloseTurn(s.core);
      var woken := if s.core.closed then s.threads else Broadcasting(s.threads);
      s' == s.(core := core, threads := woken[t := Closing(idle)])
    case CloseSession(t) =>
      t in s.threads && s.threads[t].Closing? && s.threads[t].todo != [] &&
      s' == s.(threads := s.threads[t := Closing(s.threads[t].todo[1..])], closed := s.closed + {s.threads[t].todo[0]})
  }

  /** After NewPool: one idle session and nobody inside. */
  ghost predicate Start(s: System) {
    s.core.maxSize >= 1 && !s.core.closed && s.core.size == 1 == |s.core.idle| && s.threads == map[] &&
    s.used == {s.core.idle[0]} && s.closed == {}
  }

  ghost predicate IsRun(run: seq<System>, events: seq<Event>) {
    |run| == |events| + 1 && Start(run[0]) && forall i | 0 <= i < |events| :: Step(run[i], events[i], run[i + 1])
  }
}
