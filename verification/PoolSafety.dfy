/** Safety of the pool's runs. */
module PoolSafety {
  import opened Pool

  // Conservation, session ownership and the absence of lost wake-ups.

  ghost function Holders(threads: map<nat, Thread>): set<nat> { set t | t in threads && Holds(threads[t]) }

  ghost function Wokens(threads: map<nat, Thread>): set<nat> { set t | t in threads && threads[t].Woken? }

  ghost predicate Sleeping(threads: map<nat, Thread>) { exists t | t in threads :: threads[t].Waiting? }

  predicate Distinct(xs: seq<nat>) { forall i, j | 0 <= i < j < |xs| :: xs[i] != xs[j] }

  // ---- The invariant ---------------------------------------------------------------------------------

  /** Capacity is idle, leased or being connected, and never exceeds the maximum. */
  ghost predicate Conserved(s: System) {
    s.core.size == |s.core.idle| + |Holders(s.threads)| && s.core.size <= s.core.maxSize &&
    (s.core.closed ==> s.core.idle == [])
  }

  /** A caller sleeps only when nothing is left for it to do that nobody else has been woken for. */
  ghost predicate NoLostWakeup(s: System) {
    Sleeping(s.threads) ==> !s.core.closed && s.core.size == s.core.maxSize && |s.core.idle| <= |Wokens(s.threads)|
  }

  ghost predicate OwnedBy(s: System, t: nat)
    requires t in s.threads
  {
    var xs := Sessions(s.threads[t]);
    Distinct(xs) && forall x | x in xs :: x in s.used && x !in s.core.idle && x !in s.closed
  }

  /** Every session is in at most one place: idle, with one thread, or closed. */
  ghost predicate Owned(s: System) {
    Distinct(s.core.idle) && s.closed <= s.used && (forall x | x in s.core.idle :: x in s.used && x !in s.closed) &&
    (forall t | t in s.threads :: OwnedBy(s, t)) &&
    forall t, u | t in s.threads && u in s.threads && t != u :: Apart(Sessions(s.threads[t]), Sessions(s.threads[u]))
  }

  predicate Apart(xs: seq<nat>, ys: seq<nat>) { forall x | x in xs :: x !in ys }

  ghost predicate Inv(s: System) { Conserved(s) && NoLostWakeup(s) && Owned(s) }

  // ---- Counting ------------------------------------------------------------------------------------------

  /** One thread changes state: the holders gain or lose at most that thread. */
  lemma {:induction false} HoldersUpdate(threads: map<nat, Thread>, t: nat, th: Thread)
    ensures Holders(threads[t := th]) == if Holds(th) then Holders(threads) + {t} else Holders(threads) - {t}
    ensures Wokens(threads[t := th]) == if th.Woken? then Wokens(threads) + {t} else Wokens(threads) - {t}
  {
  }

  lemma {:induction false} HoldersCount(threads: map<nat, Thread>, t: nat, th: Thread)
    ensures |Holders(threads[t := th])| ==
      |Holders(threads)| - (if t in threads && Holds(threads[t]) then 1 else 0) + if Holds(th) then 1 else 0
    ensures |Wokens(threads[t := th])| ==
      |Wokens(threads)| - (if t in threads && threads[t].Woken? then 1 else 0) + if th.Woken? then 1 else 0
  {
    HoldersUpdate(threads, t, th);
  }

  lemma {:induction false} BroadcastKeeps(threads: map<nat, Thread>)
    ensures Holders(Broadcasting(threads)) == Holders(threads) && !Sleeping(Broadcasting(threads))
    ensures forall t | t in threads :: Sessions(Broadcasting(threads)[t]) == Sessions(threads[t])
  {
  }

  // ---- Conservation and wake-ups ----------------------------------------------------------------------------

  lemma {:induction false} TurnCounts(s: System, t: nat, ctxErr: bool, s': System)
    requires Conserved(s) && NoLostWakeup(s) && Step(s, Turns(t, ctxErr), s')
    ensures Conserved(s') && NoLostWakeup(s')
  {
    HoldersCount(s.threads, t, s'.threads[t]);
    if Sleeping(s'.threads) && !s'.threads[t].Waiting? {
      var u :| u in s'.threads && s'.threads[u].Waiting?;
      assert s.threads[u].Waiting?;
    }
  }

  lemma {:induction false} ReleaseCounts(s: System, t: nat, w: nat, s': System)
    requires Conserved(s) && NoLostWakeup(s) && Step(s, Release(t, w), s')
    ensures Conserved(s') && NoLostWakeup(s')
  {
    if s.core.closed {
      HoldersCount(s.threads, t, Closing([s.threads[t].session]));
      BroadcastKeeps(s.threads[t := Closing([s.threads[t].session])]);
    } else {
      var mid := s.threads[t := Done];
      HoldersCount(s.threads, t, Done);
      if Sleeping(mid) {
        HoldersCount(mid, w, Woken);
        var u :| u in mid && mid[u].Waiting?;
        assert s.threads[u].Waiting?;
      }
    }
  }

  lemma {:induction false} DropCounts(s: System, t: nat, th: Thread, s': System)
    requires Conserved(s) && t in s.threads && Holds(s.threads[t]) && !Holds(th)
    requires s'.core == DropTurn(s.core).0 && s'.threads == Broadcasting(s.threads[t := th])
    ensures Conserved(s') && NoLostWakeup(s')
  {
    HoldersCount(s.threads, t, th);
    BroadcastKeeps(s.threads[t := th]);
  }

  lemma {:induction false} QuietCounts(s: System, t: nat, th: Thread, s': System)
    requires Conserved(s) && NoLostWakeup(s) && s'.core == s.core && s'.threads == s.threads[t := th]
    requires Holds(th) == (t in s.threads && Holds(s.threads[t])) && !th.Waiting? && !th.Woken? &&
      (t in s.threads ==> !s.threads[t].Woken?)
    ensures Conserved(s') && NoLostWakeup(s')
  {
    HoldersCount(s.threads, t, th);
    if Sleeping(s'.threads) {
      var u :| u in s'.threads && s'.threads[u].Waiting?;
      assert s.threads[u].Waiting?;
    }
  }

  lemma {:induction false} CloseCounts(s: System, t: nat, s': System)
    requires Conserved(s) && NoLostWakeup(s) && Step(s, ClosePool(t), s')
    ensures Conserved(s') && NoLostWakeup(s')
  {
    if s.core.closed {
      QuietCounts(s, t, Closing([]), s');
    } else {
      BroadcastKeeps(s.threads);
      HoldersCount(Broadcasting(s.threads), t, Closing(s.core.idle));
    }
  }

  lemma {:induction false} CountsKept(s: System, e: Event, s': System)
    requires Conserved(s) && NoLostWakeup(s) && Step(s, e, s')
    ensures Conserved(s') && NoLostWakeup(s')
  {
    match e
    case Enter(t) => QuietCounts(s, t, Trying, s');
    case Turns(t, ctxErr) => TurnCounts(s, t, ctxErr, s');
    case ConnectOk(t, x) => QuietCounts(s, t, Connected(x), s');
    case ConnectError(t) => QuietCounts(s, t, Failed, s');
    case Relock(t) =>
      if s.threads[t].Failed? {
        DropCounts(s, t, Done, s');
      } else if s.core.closed {
        DropCounts(s, t, Closing([s.threads[t].session]), s');
      } else {
        QuietCounts(s, t, Leased(s.threads[t].session), s');
      }
    case Release(t, w) => ReleaseCounts(s, t, w, s');
    case Discard(t) => DropCounts(s, t, Closing([s.threads[t].session]), s');
    case Cancel => BroadcastKeeps(s.threads);
    case ClosePool(t) => CloseCounts(s, t, s');
    case CloseSession(t) => QuietCounts(s, t, Closing(s.threads[t].todo[1..]), s');
  }

  // ---- Session ownership ------------------------------------------------------------------------------------------

  /** Ownership of a thread map depends only on the sessions each thread has. */
  lemma {:induction false} OwnedSame(s: System, s': System)
    requires Owned(s) && s'.core.idle == s.core.idle && s'.used == s.used && s'.closed == s.closed
    requires forall t | t in s'.threads ::
      (t in s.threads && Sessions(s'.threads[t]) == Sessions(s.threads[t])) || Sessions(s'.threads[t]) == []
    ensures Owned(s')
  {
    forall t | t in s'.threads ensures OwnedBy(s', t) {
      if t in s.threads { assert OwnedBy(s, t); }
    }
    forall t, u | t in s'.threads && u in s'.threads && t != u
      ensures Apart(Sessions(s'.threads[t]), Sessions(s'.threads[u]))
    {
      if t in s.threads && u in s.threads { assert Apart(Sessions(s.threads[t]), Sessions(s.threads[u])); }
    }
  }

  /** Thread `t` takes over `xs` from the idle channel, from creation, or from its own hands. */
  lemma {:induction false} OwnedMove(s: System, t: nat, xs: seq<nat>, s': System)
    requires Owned(s) && s.used <= s'.used && s'.closed <= s'.used && s.closed <= s'.closed
    requires Distinct(s'.core.idle) && (forall x | x in s'.core.idle :: x in s'.used && x !in s'.closed)
    requires forall x | x in s'.core.idle :: x in s.core.idle || (t in s.threads && x in Sessions(s.threads[t]))
    requires forall x | x in s'.closed && x !in s.closed :: t in s.threads && x in Sessions(s.threads[t])
    requires t in s'.threads && Sessions(s'.threads[t]) == xs && Distinct(xs)
    requires forall x | x in xs :: x in s'.used && x !in s'.core.idle && x !in s'.closed
    requires forall x | x in xs :: x in s.core.idle || x !in s.used || (t in s.threads && x in Sessions(s.threads[t]))
    requires forall u | u in s'.threads && u != t ::
      (u in s.threads && Sessions(s'.threads[u]) == Sessions(s.threads[u])) || Sessions(s'.threads[u]) == []
    ensures Owned(s')
  {
    forall u | u in s'.threads ensures OwnedBy(s', u) {
      if u != t && u in s.threads {
        assert OwnedBy(s, u);
        if t in s.threads { assert Apart(Sessions(s.threads[t]), Sessions(s.threads[u])); }
      }
    }
    forall u, v | u in s'.threads && v in s'.threads && u != v
      ensures Apart(Sessions(s'.threads[u]), Sessions(s'.threads[v]))
    {
      MovedApart(s, t, s', u, v);
    }
  }

  lemma {:induction false} MovedApart(s: System, t: nat, s': System, u: nat, v: nat)
    requires Owned(s) && t in s'.threads && u in s'.threads && v in s'.threads && u != v
    requires forall x | x in Sessions(s'.threads[t]) ::
      x in s.core.idle || x !in s.used || (t in s.threads && x in Sessions(s.threads[t]))
    requires forall w | w in s'.threads && w != t ::
      (w in s.threads && Sessions(s'.threads[w]) == Sessions(s.threads[w])) || Sessions(s'.threads[w]) == []
    ensures Apart(Sessions(s'.threads[u]), Sessions(s'.threads[v]))
  {
    if u in s.threads { assert OwnedBy(s, u); }
    if v in s.threads { assert OwnedBy(s, v); }
    if u in s.threads && v in s.threads {
      assert Apart(Sessions(s.threads[u]), Sessions(s.threads[v]));
      assert Apart(Sessions(s.threads[v]), Sessions(s.threads[u]));
    }
  }

  lemma {:induction false} TurnOwned(s: System, t: nat, ctxErr: bool, s': System)
    requires Owned(s) && Step(s, Turns(t, ctxErr), s')
    ensures Owned(s')
  {
    if s'.threads[t].Leased? {
      assert forall x | x in s'.core.idle :: x in s.core.idle;
      assert s.core.idle[0] !in s'.core.idle;
      OwnedMove(s, t, [s.core.idle[0]], s');
    } else {
      OwnedSame(s, s');
    }
  }

  /** The released session moves from the thread to the end of the channel. */
  lemma {:induction false} ReturnedIdle(s: System, t: nat, x: nat, s': System)
    requires Owned(s) && t in s.threads && s.threads[t] == Leased(x) && s'.core.idle == s.core.idle + [x]
    requires s'.used == s.used && s'.closed == s.closed && t in s'.threads && Sessions(s'.threads[t]) == []
    requires forall u | u in s'.threads && u != t :: u in s.threads && Sessions(s'.threads[u]) == Sessions(s.threads[u])
    ensures Owned(s')
  {
    assert OwnedBy(s, t) && x in Sessions(s.threads[t]);
    OwnedMove(s, t, [], s');
  }

  lemma {:induction false} ReleaseOwned(s: System, t: nat, w: nat, s': System)
    requires Owned(s) && Step(s, Release(t, w), s')
    ensures Owned(s')
  {
    var x := s.threads[t].session;
    assert OwnedBy(s, t) && x in Sessions(s.threads[t]);
    if s.core.closed {
      BroadcastKeeps(s.threads[t := Closing([x])]);
      OwnedSame(s, s');
    } else {
      ReturnedIdle(s, t, x, s');
    }
  }

  lemma {:induction false} CloseOwned(s: System, t: nat, s': System)
    requires Owned(s) && Step(s, ClosePool(t), s') && (s.core.closed ==> s.core.idle == [])
    ensures Owned(s')
  {
    BroadcastKeeps(s.threads);
    OwnedMove(s, t, s'.threads[t].todo, s');
  }

  lemma {:induction false} CloseSessionOwned(s: System, t: nat, s': System)
    requires Owned(s) && Step(s, CloseSession(t), s')
    ensures Owned(s') && s.threads[t].todo[0] !in s.closed
  {
    var todo := s.threads[t].todo;
    assert OwnedBy(s, t);
    assert todo[0] in todo && todo[0] !in todo[1..];
    forall x | x in s.core.idle ensures x != todo[0] { }
    OwnedMove(s, t, todo[1..], s');
  }

  lemma {:induction false} ConnectOwned(s: System, t: nat, x: nat, s': System)
    requires Owned(s) && Step(s, ConnectOk(t, x), s')
    ensures Owned(s')
  {
    OwnedMove(s, t, [x], s');
  }

  lemma {:induction false} OwnedKept(s: System, e: Event, s': System)
    requires Owned(s) && (s.core.closed ==> s.core.idle == []) && Step(s, e, s')
    ensures Owned(s')
  {
    hide Owned;
    match e
    case Turns(t, ctxErr) => TurnOwned(s, t, ctxErr, s');
    case ConnectOk(t, x) => ConnectOwned(s, t, x, s');
    case Release(t, w) => ReleaseOwned(s, t, w, s');
    case ClosePool(t) => CloseOwned(s, t, s');
    case CloseSession(t) => CloseSessionOwned(s, t, s');
    case Relock(t) => BroadcastKeeps(s.threads[t := s'.threads[t]]); OwnedSame(s, s');
    case Discard(t) => BroadcastKeeps(s.threads[t := s'.threads[t]]); OwnedSame(s, s');
    case Cancel => BroadcastKeeps(s.threads); OwnedSame(s, s');
    case _ => OwnedSame(s, s');
  }

  // ---- Runs -------------------------------------------------------------------------------------------------------

  lemma {:induction false} RunInv(run: seq<System>, events: seq<Event>, k: nat)
    requires IsRun(run, events) && k < |run|
    ensures Inv(run[k])
  {
    if k > 0 {
      RunInv(run, events, k - 1);
      hide Step, NoLostWakeup, Owned;
      CountsKept(run[k - 1], events[k - 1], run[k]);
      OwnedKept(run[k - 1], events[k - 1], run[k]);
    }
  }

  /**
   No lost wake-up: whenever a caller sleeps, the pool is open and full, and every idle session has a woken caller
   on its way to take it.
   */
  lemma NoWakeupIsLost(run: seq<System>, events: seq<Event>, k: nat, t: nat)
    requires IsRun(run, events) && k < |run| && t in run[k].threads && run[k].threads[t].Waiting?
    ensures !run[k].core.closed && run[k].core.size == run[k].core.maxSize &&
      |run[k].core.idle| <= |Wokens(run[k].threads)|
  {
    RunInv(run, events, k);
    hide IsRun;
    assert Sleeping(run[k].threads);
  }

  /** size is idle plus leased plus connecting, never exceeds maxSize, and leaves room for every lease to come back. */
  lemma CapacityIsConserved(run: seq<System>, events: seq<Event>, k: nat)
    requires IsRun(run, events) && k < |run|
    ensures run[k].core.size == |run[k].core.idle| + |Holders(run[k].threads)| <= run[k].core.maxSize
    ensures (exists t | t in run[k].threads :: run[k].threads[t].Leased?) ==> |run[k].core.idle| < run[k].core.maxSize
    ensures run[k].core.closed ==> run[k].core.idle == [] && (Holders(run[k].threads) == {} ==> run[k].core.size == 0)
  {
    RunInv(run, events, k);
    hide IsRun;
    if exists t | t in run[k].threads :: run[k].threads[t].Leased? {
      var t :| t in run[k].threads && run[k].threads[t].Leased?;
      assert t in Holders(run[k].threads);
    }
  }

  /** A session has at most one lessee; once closed it is neither leased, nor idle, nor closed again. */
  lemma SessionHasOneOwner(run: seq<System>, events: seq<Event>, k: nat, t: nat, u: nat)
    requires IsRun(run, events) && k < |run| && t in run[k].threads && run[k].threads[t].Leased?
    ensures run[k].threads[t].session !in run[k].closed && run[k].threads[t].session !in run[k].core.idle
    ensures var threads := run[k].threads;
      u in threads && threads[u].Leased? && threads[u].session == threads[t].session ==> u == t
  {
    RunInv(run, events, k);
    hide IsRun;
    assert OwnedBy(run[k], t);
    assert run[k].threads[t].session in Sessions(run[k].threads[t]);
    if u in run[k].threads && u != t {
      assert Apart(Sessions(run[k].threads[t]), Sessions(run[k].threads[u]));
      assert run[k].threads[u].Leased? ==> run[k].threads[u].session in Sessions(run[k].threads[u]);
    }
  }

  lemma {:induction false} ClosedOnce(run: seq<System>, events: seq<Event>, k: nat, t: nat)
    requires IsRun(run, events) && k < |events| && events[k] == CloseSession(t)
    ensures t in run[k].threads && run[k].threads[t].Closing? && run[k].threads[t].todo != [] &&
      run[k].threads[t].todo[0] !in run[k].closed
  {
    RunInv(run, events, k);
    assert Step(run[k], events[k], run[k + 1]);
    CloseSessionOwned(run[k], t, run[k + 1]);
  }

  lemma {:induction false} ClosedForGood(run: seq<System>, events: seq<Event>, j: nat, k: nat)
    requires IsRun(run, events) && j <= k < |run|
    ensures run[j].closed <= run[k].closed && (run[j].core.closed ==> run[k].core.closed)
  {
    if j < k {
      ClosedForGood(run, events, j, k - 1);
      assert Step(run[k - 1], events[k - 1], run[k]);
    }
  }

  /** After Close no session ever becomes idle again. */
  lemma NothingIdleAfterClose(run: seq<System>, events: seq<Event>, j: nat, k: nat)
    requires IsRun(run, events) && j <= k < |run| && run[j].core.closed
    ensures run[k].core.closed && run[k].core.idle == []
  {
    ClosedForGood(run, events, j, k);
    RunInv(run, events, k);
  }

  /** How a turn of the acquire loop ends for its caller, in every run. */
  lemma TurnEnds(run: seq<System>, events: seq<Event>, k: nat)
    requires IsRun(run, events) && k < |events| && events[k].Turns?
    ensures var c, t, ctxErr := run[k].core, events[k].t, events[k].ctxErr;
      t in run[k + 1].threads &&
      var th := run[k + 1].threads[t];
      (th.Leased? <==> !c.closed && c.idle != []) &&
      (th.Connecting? <==> !c.closed && c.idle == [] && c.size < c.maxSize) &&
      (th.Waiting? <==> !c.closed && c.idle == [] && c.size >= c.maxSize && !ctxErr) &&
      (th.Done? <==> c.closed || (c.idle == [] && c.size >= c.maxSize && ctxErr)) &&
      (th.Leased? ==> th.session == c.idle[0])
  {
    assert Step(run[k], events[k], run[k + 1]);
  }

  /** Cancellation, discard and the first close leave nobody asleep; a release wakes one sleeper if there is any. */
  lemma WhoIsWoken(run: seq<System>, events: seq<Event>, k: nat, u: nat)
    requires IsRun(run, events) && k < |events| && u in run[k].threads && run[k].threads[u].Waiting?
    ensures u in run[k + 1].threads
    ensures events[k].Cancel? || events[k].Discard? || (events[k].ClosePool? && !run[k].core.closed) ==>
      run[k + 1].threads[u].Woken?
    ensures events[k].Release? && !run[k].core.closed ==>
      exists w | w in run[k].threads && run[k].threads[w].Waiting? ::
        w in run[k + 1].threads && run[k + 1].threads[w].Woken?
  {
    assert Step(run[k], events[k], run[k + 1]);
    if events[k].Release? && !run[k].core.closed {
      assert run[k].threads[events[k].t := Done][u].Waiting?;
      var w := events[k].woken;
      assert w in run[k].threads && run[k].threads[w].Waiting? && run[k + 1].threads[w].Woken?;
    }
  }
}
