/** Lease lifetimes. */
module RateLeases {
  import opened Messages
  import opened RateStore
  import opened RateSafety
  import opened RateRuns

  // How long a lease can be finished, and which calls charge nothing, over whole runs.

  // ---- One lease under the steps of the store --------------------------------------------------------------

  function LeaseOf(st: Store, id: string): Option<Lease> { if id in st.leases then Some(st.leases[id]) else None }

  lemma {:induction false} SettleKeepsLeases(st: Store, tokens: seq<TokenReservation>, now: int, actual: int)
    ensures var st' := SettleTokens(st, tokens, now, actual);
      st'.leases == st.leases && st'.hist == st.hist.(settled := st'.hist.settled)
    decreases |tokens|
  {
    if tokens != [] {
      SettleKeepsLeases(SettledOne(st, tokens[0], now, actual), tokens[1..], now, actual);
    }
  }

  lemma {:induction false} ChargeKeepsLeases(st: Store, rs: seq<RequestCounter>, now: int)
    ensures var st' := ChargeRequests(st, rs, now);
      st'.leases == st.leases && st'.hist == st.hist.(admitted := st'.hist.admitted)
    decreases |rs|
  {
    if rs != [] {
      ChargeKeepsLeases(ChargedOne(st, rs[0], now), rs[1..], now);
    }
  }

  predicate Due(lease: Option<Lease>, now: int) {
    lease.Some? && lease.value.state.Pending? && now >= lease.value.pendingUntil
  }

  function Closed(ttl: Ttl, lease: Lease, state: LeaseState, now: int): Lease {
    lease.(state := state, terminalUntil := now + TerminalTtl(ttl, lease.window))
  }

  function Kept(lease: Option<Lease>, now: int): Option<Lease> {
    if lease.Some? && !lease.value.state.Pending? && now >= lease.value.terminalUntil then None else lease
  }

  /** A lease after the cleanup pass: expired when due, gone once its retention has passed. */
  function Cleaned(ttl: Ttl, lease: Option<Lease>, now: int): Option<Lease> {
    Kept(if Due(lease, now) then Some(Closed(ttl, lease.value, Expired, now)) else lease, now)
  }

  lemma {:induction false} CloseLease(ttl: Ttl, st: Store, x: string, state: LeaseState, now: int, actual: int,
                                      id: string)
    requires x in st.leases
    ensures var st' := Close(ttl, st, x, state, now, actual);
      LeaseOf(st', id) == (if x == id then Some(Closed(ttl, st.leases[x], state, now)) else LeaseOf(st, id)) &&
      st'.hist.admissions == st.hist.admissions &&
      st'.hist.settlements[id] == st.hist.settlements[id] + if x == id then 1 else 0
  {
    SettleKeepsLeases(st, st.leases[x].tokens, now, actual);
    hide SettleTokens;
  }

  lemma {:induction false} CleanOneLease(ttl: Ttl, st: Store, x: string, now: int, id: string)
    ensures var st', lease := CleanOne(ttl, st, x, now), LeaseOf(st, id);
      LeaseOf(st', id) == (if x == id then Cleaned(ttl, lease, now) else lease) &&
      st'.hist.admissions == st.hist.admissions &&
      st'.hist.settlements[id] == st.hist.settlements[id] + if x == id && Due(lease, now) then 1 else 0
  {
    hide Close;
    if x in st.leases { CloseLease(ttl, st, x, Expired, now, -1, id); CloseLease(ttl, st, x, Expired, now, -1, x); }
  }

  /** The cleanup pass, as one lease sees it, in whatever order the leases are visited. */
  lemma {:induction false} CleanLease(ttl: Ttl, st: Store, order: seq<string>, now: int, id: string)
    ensures var st', lease := Clean(ttl, st, order, now), LeaseOf(st, id);
      LeaseOf(st', id) == (if id in order then Cleaned(ttl, lease, now) else lease) &&
      st'.hist.admissions == st.hist.admissions &&
      st'.hist.settlements[id] == st.hist.settlements[id] + if id in order && Due(lease, now) then 1 else 0
    decreases |order|
  {
    if order != [] {
      var next := CleanOne(ttl, st, order[0], now);
      CleanOneLease(ttl, st, order[0], now, id);
      CleanLease(ttl, next, order[1..], now, id);
      assert id in order <==> id == order[0] || id in order[1..];
      hide CleanOne;
    }
  }

  // ---- What callers see ------------------------------------------------------------------------------------

  /** The event is a commit or release of this lease. */
  predicate Finishes(e: Event, id: string) { (e.op.CommitOp? && e.op.id == id) || (e.op.ReleaseOp? && e.op.id == id) }

  function Requested(e: Event): LeaseState { if e.op.CommitOp? then Committed else Released }

  /** Error of a commit or release. */
  function Answer(ttl: Ttl, st: Store, e: Event): Option<LeaseError> {
    match e.op
    case ReserveOp(_) => None
    case CommitOp(id, actual) => FinishStep(ttl, st, id, Committed, if actual < 0 then 0 else actual, e.now, e.order).1
    case ReleaseOp(id) => FinishStep(ttl, st, id, Released, -1, e.now, e.order).1
  }

  /** The lease is settled in the step from `s` to `s'`. */
  ghost predicate SettledIn(s: System, s': System, id: string) {
    s'.st.hist.settlements[id] > s.st.hist.settlements[id]
  }

  /** How a lease was settled: by the call that was told so, or else by expiry. */
  function How(ttl: Ttl, s: System, e: Event, id: string): LeaseState {
    if Finishes(e, id) && Answer(ttl, s.st, e).None? then Requested(e) else Expired
  }

  // ---- Steps ---------------------------------------------------------------------------------------------------

  lemma {:induction false} FinishLease(ttl: Ttl, st: Store, x: string, state: LeaseState, actual: int, now: int,
                                       id: string)
    ensures var (st', error) := FinishClean(ttl, st, x, state, actual, now); var lease := LeaseOf(st, id);
      var took := x == id && lease.Some? && lease.value.state.Pending?;
      LeaseOf(st', id) == (if took then Some(Closed(ttl, lease.value, state, now)) else lease) &&
      st'.hist.admissions == st.hist.admissions &&
      st'.hist.settlements[id] == st.hist.settlements[id] + (if took then 1 else 0) &&
      (x == id ==> (error.None? <==> took)) && (error.Some? ==> st' == st) &&
      (x == id && !took ==> error == Some(if lease.None? then LeaseUnknown
                                          else TerminalError(lease.value.state, state)))
  {
    hide Close;
    if x in st.leases { CloseLease(ttl, st, x, state, now, actual, id); }
  }

  lemma {:induction false} ReserveLease(ttl: Ttl, st: Store, r: Reservation, now: int, id: string)
    ensures var st' := ReserveClean(ttl, st, r, now).0;
      st'.hist.settlements == st.hist.settlements && st'.hist.admissions[id] >= st.hist.admissions[id] &&
      (st'.hist.admissions[id] == st.hist.admissions[id] ==> LeaseOf(st', id) == LeaseOf(st, id))
  {
    var cs := CheckTokens(CheckRequests(st.counters, r.requests, now).0, r.tokens, now).0;
    ChargeKeepsLeases(st.(counters := cs), r.requests, now);
    hide CheckRequests, CheckTokens, ChargeRequests, ChargeTokens, NewLease;
  }

  /** A lease that is settled, retained until `until`, and then forgotten. */
  ghost predicate Terminal(s: System, id: string, how: LeaseState, until: int) {
    !how.Pending? &&
    match LeaseOf(s.st, id)
    case None => s.now >= until
    case Some(lease) => lease.state == how && lease.terminalUntil == until
  }

  ghost predicate SameAdmissions(s: System, s': System, id: string) {
    s'.st.hist.admissions[id] == s.st.hist.admissions[id]
  }

  /** A step as one lease sees it: cleanup first, unless the call is refused before it, then the call itself. */
  lemma {:induction false} StepLease(l: Limiter, ttl: Ttl, s: System, e: Event, s': System, id: string)
    requires Step(l, ttl, s, e, s')
    ensures s'.st.hist.admissions[id] >= s.st.hist.admissions[id]
    ensures var clean := Cleaned(ttl, LeaseOf(s.st, id), e.now);
      Finishes(e, id) ==>
        (Answer(ttl, s.st, e).None? <==> clean.Some? && clean.value.state.Pending?) &&
        (Answer(ttl, s.st, e).None? ==> LeaseOf(s'.st, id) == Some(Closed(ttl, clean.value, Requested(e), e.now))) &&
        (Answer(ttl, s.st, e).Some? ==>
          LeaseOf(s'.st, id) == clean && s'.st == Clean(ttl, s.st, e.order, e.now) &&
          Answer(ttl, s.st, e).value == if clean.None? then LeaseUnknown
            else TerminalError(clean.value.state, Requested(e)))
    ensures !Finishes(e, id) && SameAdmissions(s, s', id) ==>
      LeaseOf(s'.st, id) == Cleaned(ttl, LeaseOf(s.st, id), e.now) || (s'.st == s.st && s'.now == e.now)
    ensures SettledIn(s, s', id) <==>
      s'.st != s.st && (Due(LeaseOf(s.st, id), e.now) || (Finishes(e, id) && Answer(ttl, s.st, e).None?))
  {
    CleanLease(ttl, s.st, e.order, e.now, id);
    var clean := Clean(ttl, s.st, e.order, e.now);
    assert LeaseOf(clean, id) == Cleaned(ttl, LeaseOf(s.st, id), e.now);
    assert Due(LeaseOf(s.st, id), e.now) ==> id in e.order;
    hide Clean, FinishClean, ReserveClean, Cleaned, Closed, Due;
    match e.op
    case ReserveOp(r) => ReserveLease(ttl, clean, r, e.now, id);
    case CommitOp(x, actual) => FinishLease(ttl, clean, x, Committed, if actual < 0 then 0 else actual, e.now, id);
    case ReleaseOp(x) => FinishLease(ttl, clean, x, Released, -1, e.now, id);
  }

  /** The settling step leaves the lease terminal. */
  lemma {:induction false} SettleTerminal(l: Limiter, ttl: Ttl, s: System, e: Event, s': System, id: string)
    requires Step(l, ttl, s, e, s') && SettledIn(s, s', id) && SameAdmissions(s, s', id)
    ensures id in s.st.leases && Terminal(s', id, How(ttl, s, e, id), e.now + TerminalTtl(ttl, s.st.leases[id].window))
  {
    StepLease(l, ttl, s, e, s', id);
    hide Step, Answer;
  }

  lemma {:induction false} TerminalStep(l: Limiter, ttl: Ttl, s: System, e: Event, s': System, id: string,
                                        how: LeaseState, until: int)
    requires Step(l, ttl, s, e, s') && Terminal(s, id, how, until) && SameAdmissions(s, s', id)
    ensures Terminal(s', id, how, until) && !SettledIn(s, s', id)
    ensures Finishes(e, id) ==>
      Answer(ttl, s.st, e) == Some(if e.now >= until then LeaseUnknown else TerminalError(how, Requested(e))) &&
      s'.st == Clean(ttl, s.st, e.order, e.now)
  {
    StepLease(l, ttl, s, e, s', id);
    assert s'.now == e.now >= s.now;
    hide Step, Answer, Clean;
  }

  // ---- Runs ------------------------------------------------------------------------------------------------------

  lemma {:induction false} RunAdmissions(l: Limiter, ttl: Ttl, run: seq<System>, events: seq<Event>, i: nat, k: nat,
                                         id: string)
    requires IsRun(l, ttl, run, events) && i <= k < |run|
    ensures run[i].st.hist.admissions[id] <= run[k].st.hist.admissions[id]
  {
    hide Step, Answer, Clean, Configured;
    if i < k {
      RunAdmissions(l, ttl, run, events, i, k - 1, id);
      StepLease(l, ttl, run[k - 1], events[k - 1], run[k], id);
    }
  }

  lemma {:induction false} RunTerminal(l: Limiter, ttl: Ttl, run: seq<System>, events: seq<Event>, i: nat, k: nat,
                                       id: string, how: LeaseState, until: int)
    requires IsRun(l, ttl, run, events) && i <= k < |run| && SameAdmissions(run[i], run[k], id) &&
      Terminal(run[i], id, how, until)
    ensures Terminal(run[k], id, how, until)
  {
    hide Step, Terminal, Answer, Clean, TerminalError, Requested, Finishes, Configured;
    if i < k {
      RunAdmissions(l, ttl, run, events, i, k - 1, id);
      RunAdmissions(l, ttl, run, events, k - 1, k, id);
      RunTerminal(l, ttl, run, events, i, k - 1, id, how, until);
      TerminalStep(l, ttl, run[k - 1], events[k - 1], run[k], id, how, until);
    }
  }

  /**
   Once a lease is settled by commit, release or expiry, every later commit or release of its ID, until the ID is
   admitted anew, changes nothing beyond cleanup and is told how the lease was settled; after the retention period
   the lease is unknown.
   */
  lemma LaterCallsChargeNothing(l: Limiter, ttl: Ttl, run: seq<System>, events: seq<Event>, i: nat, k: nat, id: string)
    requires IsRun(l, ttl, run, events) && i < k < |events| && SettledIn(run[i], run[i + 1], id) &&
      Finishes(events[k], id)
    requires run[k + 1].st.hist.admissions[id] == run[i].st.hist.admissions[id]
    ensures id in run[i].st.leases
    ensures var how, held := How(ttl, run[i], events[i], id), events[k].now - events[i].now;
      Answer(ttl, run[k].st, events[k]) ==
        Some(if held >= run[i].st.leases[id].window && held >= ttl.terminal then LeaseUnknown
             else if how.Expired? then LeaseExpired
             else if how == Requested(events[k]) then LeaseTerminal
             else LeaseCrossTerminal)
    ensures run[k + 1].st == Clean(ttl, run[k].st, events[k].order, events[k].now) && !SettledIn(run[k], run[k + 1], id)
  {
    RunAdmissions(l, ttl, run, events, i, i + 1, id);
    RunAdmissions(l, ttl, run, events, i + 1, k, id);
    RunAdmissions(l, ttl, run, events, k, k + 1, id);
    hide Step, Terminal, Answer, How, Clean;
    SettleTerminal(l, ttl, run[i], events[i], run[i + 1], id);
    var how, until := How(ttl, run[i], events[i], id), events[i].now + TerminalTtl(ttl, run[i].st.leases[id].window);
    RunTerminal(l, ttl, run, events, i + 1, k, id, how, until);
    TerminalStep(l, ttl, run[k], events[k], run[k + 1], id, how, until);
  }

  // ---- How long a lease stays pending ------------------------------------------------------------------------------

  /** `window` is the largest window of the counters, or zero without counters. */
  ghost predicate LargestWindow(r: Reservation, window: int) {
    window >= 0 && (forall c | c in r.requests :: c.window <= window) &&
    (forall c | c in r.tokens :: c.window <= window) &&
    (window == 0 || (exists c | c in r.requests :: c.window == window) ||
     exists c | c in r.tokens :: c.window == window)
  }

  lemma {:induction false} RequestWindowLargest(rs: seq<RequestCounter>)
    ensures RequestWindow(rs) >= 0 && (forall c | c in rs :: c.window <= RequestWindow(rs))
    ensures RequestWindow(rs) == 0 || exists c | c in rs :: c.window == RequestWindow(rs)
  {
    if rs != [] {
      var front, last := rs[..|rs| - 1], rs[|rs| - 1];
      RequestWindowLargest(front);
      assert forall c :: c in rs <==> c in front || c == last;
    }
  }

  lemma {:induction false} TokenWindowLargest(w: int, rs: seq<TokenReservation>)
    ensures TokenWindow(w, rs) >= w && (forall c | c in rs :: c.window <= TokenWindow(w, rs))
    ensures TokenWindow(w, rs) == w || exists c | c in rs :: c.window == TokenWindow(w, rs)
  {
    if rs != [] {
      var front, last := rs[..|rs| - 1], rs[|rs| - 1];
      TokenWindowLargest(w, front);
      assert forall c :: c in rs <==> c in front || c == last;
    }
  }

  lemma {:induction false} AdmittedLease(ttl: Ttl, st: Store, r: Reservation, now: int)
    requires ReserveClean(ttl, st, r, now).1.Admitted?
    ensures var lease := LeaseOf(ReserveClean(ttl, st, r, now).0, r.id);
      lease.Some? && lease.value.state.Pending? && LargestWindow(r, lease.value.window) &&
      lease.value.pendingUntil == now + (if 2 * lease.value.window > ttl.pending then 2 * lease.value.window
                                         else ttl.pending)
  {
    var cs := CheckTokens(CheckRequests(st.counters, r.requests, now).0, r.tokens, now).0;
    ChargeKeepsLeases(st.(counters := cs), r.requests, now);
    RequestWindowLargest(r.requests);
    TokenWindowLargest(RequestWindow(r.requests), r.tokens);
    hide CheckRequests, CheckTokens, ChargeRequests, ChargeTokens, RequestWindow, TokenWindow;
  }

  /** Pending until `until`, and not longer. */
  ghost predicate Live(s: System, id: string, until: int) {
    var lease := LeaseOf(s.st, id);
    (lease.Some? && lease.value.state.Pending? ==> lease.value.pendingUntil == until) &&
    (s.now < until ==> lease.Some? && lease.value.state.Pending?)
  }

  lemma {:induction false} LiveStep(l: Limiter, ttl: Ttl, s: System, e: Event, s': System, id: string, until: int)
    requires Step(l, ttl, s, e, s') && Live(s, id, until) && SameAdmissions(s, s', id) && !Finishes(e, id)
    ensures Live(s', id, until)
  {
    StepLease(l, ttl, s, e, s', id);
    assert s'.now == e.now >= s.now;
    hide Step, Answer, Clean;
  }

  lemma {:induction false} LiveRun(l: Limiter, ttl: Ttl, run: seq<System>, events: seq<Event>, i: nat, k: nat,
                                   id: string, until: int)
    requires IsRun(l, ttl, run, events) && i <= k < |run| && SameAdmissions(run[i], run[k], id) &&
      Live(run[i], id, until)
    requires forall m | i <= m < k :: !Finishes(events[m], id)
    ensures Live(run[k], id, until)
  {
    hide Step, Live, Answer, Clean, Configured, Finishes;
    if i < k {
      RunAdmissions(l, ttl, run, events, i, k - 1, id);
      RunAdmissions(l, ttl, run, events, k - 1, k, id);
      LiveRun(l, ttl, run, events, i, k - 1, id, until);
      LiveStep(l, ttl, run[k - 1], events[k - 1], run[k], id, until);
    }
  }

  /**
   A lease that was admitted at step `i` and not finished since can be committed or released at step `k` if and only if
   less time has passed than the pending lifetime: the configured one, or twice the window of any of its counters.
   */
  lemma LeaseLifetime(l: Limiter, ttl: Ttl, run: seq<System>, events: seq<Event>, i: nat, k: nat, id: string)
    requires IsRun(l, ttl, run, events) && i < k < |events| && events[i].op.ReserveOp? && events[i].op.r.id == id
    requires ReserveStep(ttl, run[i].st, events[i].op.r, events[i].now, events[i].order).1.Admitted?
    requires (forall m | i < m < k :: !Finishes(events[m], id)) && Finishes(events[k], id)
    requires SameAdmissions(run[i + 1], run[k], id)
    ensures var r, held := events[i].op.r, events[k].now - events[i].now;
      Answer(ttl, run[k].st, events[k]).None? <==>
        held < ttl.pending || (exists c | c in r.requests :: held < 2 * c.window) ||
        (exists c | c in r.tokens :: held < 2 * c.window)
    ensures LeaseOf(run[i + 1].st, id).Some? && LargestWindow(events[i].op.r, LeaseOf(run[i + 1].st, id).value.window)
  {
    assert Step(l, ttl, run[i], events[i], run[i + 1]) && Step(l, ttl, run[k], events[k], run[k + 1]);
    AdmittedLease(ttl, Clean(ttl, run[i].st, events[i].order, events[i].now), events[i].op.r, events[i].now);
    hide Clean, ReserveClean;
    var lease := LeaseOf(run[i + 1].st, id).value;
    var until := lease.pendingUntil;
    assert Live(run[i + 1], id, until);
    hide Answer;
    LiveRun(l, ttl, run, events, i + 1, k, id, until);
    StepLease(l, ttl, run[k], events[k], run[k + 1], id);
    RunTime(l, ttl, run, events, i + 1, k);
    hide IsRun, Step;
    WithinWindow(events[i].op.r, lease.window, events[k].now - events[i].now);
    hide LargestWindow;
  }

  lemma {:induction false} WithinWindow(r: Reservation, window: int, held: int)
    requires LargestWindow(r, window) && held >= 0
    ensures held < 2 * window <==>
      (exists c | c in r.requests :: held < 2 * c.window) || exists c | c in r.tokens :: held < 2 * c.window
  {
  }

  lemma {:induction false} RunTime(l: Limiter, ttl: Ttl, run: seq<System>, events: seq<Event>, i: nat, k: nat)
    requires IsRun(l, ttl, run, events) && i <= k < |run|
    ensures run[i].now <= run[k].now
  {
    if i < k {
      RunTime(l, ttl, run, events, i, k - 1);
      assert Step(l, ttl, run[k - 1], events[k - 1], run[k]);
    }
  }

  // ---- Refused reservations ----------------------------------------------------------------------------------------

  lemma {:induction false} RefusedOnlyPrunes(l: Limiter, ttl: Ttl, st: Store, r: Reservation, now: int)
    requires AllSliding(l, st.counters) && InScope(l, r) && !ReserveClean(ttl, st, r, now).1.Admitted?
    ensures var st' := ReserveClean(ttl, st, r, now).0;
      st'.leases == st.leases && st'.hist == st.hist && OnlyPruned(l, st.counters, st'.counters, now)
  {
    CheckRequestsFacts(l, st.counters, r.requests, now);
    var cs1 := CheckRequests(st.counters, r.requests, now).0;
    CheckTokensFacts(l, cs1, r.tokens, now);
    hide RequestsInScope, TokensInScope, AllSliding, OnlyPruned, CheckRequests, CheckTokens, Granted;
    PruneChain(l, st.counters, cs1, CheckTokens(cs1, r.tokens, now).0, now);
    Unpruned(l, st.counters, now);
  }

  lemma {:induction false} Unpruned(l: Limiter, cs: map<CounterKey, Counter>, now: int)
    ensures OnlyPruned(l, cs, cs, now)
  {
  }

  lemma {:induction false} CleanSliding(l: Limiter, ttl: Ttl, s: System, order: seq<string>, now: int)
    requires Inv(l, s.st, s.now) && Configured(l) && s.now <= now
    ensures AllSliding(l, Clean(ttl, s.st, order, now).counters)
  {
    hide Inv, AllSliding, Clean;
    InvLater(l, s.st, s.now, now);
    CleanInv(l, ttl, s.st, order, now);
    InvSliding(l, Clean(ttl, s.st, order, now), now);
  }

  /**
   In every run, a reservation that is not admitted, because some counter has no room, because its ID is retained or
   because it is malformed, charges no counter: beyond cleanup it creates or prunes counters, and admits nothing.
   */
  lemma RefusalChargesNothing(l: Limiter, ttl: Ttl, run: seq<System>, events: seq<Event>, k: nat)
    requires IsRun(l, ttl, run, events) && k < |events| && events[k].op.ReserveOp?
    requires !ReserveStep(ttl, run[k].st, events[k].op.r, events[k].now, events[k].order).1.Admitted?
    ensures var e, st' := events[k], run[k + 1].st; var clean := Clean(ttl, run[k].st, e.order, e.now);
      var reply := ReserveStep(ttl, run[k].st, e.op.r, e.now, e.order).1;
      (reply.Invalid? ==> st' == run[k].st) &&
      (!reply.Invalid? ==>
        st'.leases == clean.leases && st'.hist == clean.hist && OnlyPruned(l, clean.counters, st'.counters, e.now)) &&
      (!reply.Invalid? ==> (reply.Retained? <==> e.op.r.id in clean.leases))
    ensures run[k + 1].st.hist.admissions == run[k].st.hist.admissions &&
      run[k + 1].st.hist.admitted == run[k].st.hist.admitted
  {
    RunInv(l, ttl, run, events, k);
    assert Step(l, ttl, run[k], events[k], run[k + 1]);
    var e := events[k];
    var clean := Clean(ttl, run[k].st, e.order, e.now);
    CleanSliding(l, ttl, run[k], e.order, e.now);
    CleanAdmitsNothing(ttl, run[k].st, e.order, e.now);
    hide IsRun, Inv, Clean, AllSliding, InScope, OnlyPruned, CheckRequests, CheckTokens, Granted;
    if ValidReservation(e.op.r) { RefusedOnlyPrunes(l, ttl, clean, e.op.r, e.now); }
  }

  lemma {:induction false} CleanAdmitsNothing(ttl: Ttl, st: Store, order: seq<string>, now: int)
    ensures var st' := Clean(ttl, st, order, now);
      st'.hist.admissions == st.hist.admissions && st'.hist.admitted == st.hist.admitted
    decreases |order|
  {
    if order != [] {
      var id := order[0];
      if id in st.leases { SettleKeepsLeases(st, st.leases[id].tokens, now, -1); }
      CleanAdmitsNothing(ttl, CleanOne(ttl, st, id, now), order[1..], now);
    }
  }
}
