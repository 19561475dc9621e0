/** What is admitted and charged. */
module RateAdmission {
  import opened Messages
  import opened RateCounters
  import opened RateStore
  import opened RateSafety
  import opened RateRuns
  import opened RateLeases

  // ---- When a reservation is admitted -------------------------------------------------------------------------

  lemma {:induction false} SinceIsCount(ts: seq<int>, cutoff: int, now: int)
    requires forall i | 0 <= i < |ts| :: ts[i] <= now
    ensures |TimesSince(ts, cutoff)| == CountIn(ts, cutoff, now)
  {
    if ts != [] { SinceIsCount(ts[..|ts| - 1], cutoff, now); }
  }

  lemma {:induction false} SinceIsSum(es: seq<TokenEvent>, cutoff: int, now: int)
    requires forall i | 0 <= i < |es| :: es[i].at <= now
    ensures Total(EventsSince(es, cutoff)) == SumIn(es, cutoff, now)
  {
    if es != [] {
      var front, last := es[..|es| - 1], es[|es| - 1];
      SinceIsSum(front, cutoff, now);
      if last.at >= cutoff { TotalSnoc(EventsSince(front, cutoff), last); }
    }
  }

  lemma {:induction false} TotalSnoc(es: seq<TokenEvent>, e: TokenEvent)
    ensures Total(es + [e]) == Total(es) + e.tokens
  {
    assert (es + [e])[..|es|] == es;
  }

  /** Room in one request counter, measured on everything that was ever admitted. */
  ghost predicate RequestFits(st: Store, c: RequestCounter, now: int) {
    CountIn(Admits(st.hist, c.key), now - c.window, now) < c.limit
  }

  /** Room in one token counter: what was settled within the window, what is pending, and the new amount. */
  ghost predicate TokensFit(st: Store, c: TokenReservation, now: int) {
    SumIn(Settles(st.hist, c.key), now - c.window, now) + PendingSum(st.leases, c.key) + c.amount <= c.limit
  }

  lemma {:induction false} RequestView(l: Limiter, st: Store, c: RequestCounter, now: int)
    requires KeyOk(l, st, now, c.key) && Rate(c.limit, c.window) == RateOf(l, RequestKey(c.key))
    ensures |Pruned(View(l, st.counters, RequestKey(c.key)), now).requests| < c.limit <==> RequestFits(st, c, now)
  {
    var k := RequestKey(c.key);
    PruneKeepsRequests(l, k, View(l, st.counters, k), Admits(st.hist, c.key), now);
    SinceIsCount(Admits(st.hist, c.key), now - c.window, now);
  }

  lemma {:induction false} TokenView(l: Limiter, st: Store, c: TokenReservation, now: int)
    requires KeyOk(l, st, now, c.key) && Rate(c.limit, c.window) == RateOf(l, TokenKey(c.key))
    ensures var p := Pruned(View(l, st.counters, TokenKey(c.key)), now);
      Total(p.tokens) + p.reserved + c.amount <= c.limit <==> TokensFit(st, c, now)
  {
    var k := TokenKey(c.key);
    PruneKeepsTokens(l, k, View(l, st.counters, k), Settles(st.hist, c.key), PendingSum(st.leases, c.key), now);
    SinceIsSum(Settles(st.hist, c.key), now - c.window, now);
  }

  lemma {:induction false} RequestsFitIff(l: Limiter, st: Store, rs: seq<RequestCounter>, now: int)
    requires Inv(l, st, now) && RequestsInScope(l, rs)
    ensures CheckRequests(st.counters, rs, now).1 <==> forall i | 0 <= i < |rs| :: RequestFits(st, rs[i], now)
  {
    InvSliding(l, st, now);
    CheckRequestsFacts(l, st.counters, rs, now);
    forall i | 0 <= i < |rs|
      ensures |Pruned(View(l, st.counters, RequestKey(rs[i].key)), now).requests| < rs[i].limit <==>
        RequestFits(st, rs[i], now)
    {
      assert KeyOk(l, st, now, rs[i].key);
      RequestView(l, st, rs[i], now);
    }
    hide *;
  }

  lemma {:induction false} TokensFitIff(l: Limiter, st: Store, rs: seq<TokenReservation>, now: int)
    requires Inv(l, st, now) && TokensInScope(l, rs)
    ensures CheckTokens(st.counters, rs, now).1 <==> forall i | 0 <= i < |rs| :: TokensFit(st, rs[i], now)
  {
    InvSliding(l, st, now);
    CheckTokensFacts(l, st.counters, rs, now);
    forall i | 0 <= i < |rs|
      ensures var p := Pruned(View(l, st.counters, TokenKey(rs[i].key)), now);
        Total(p.tokens) + p.reserved + rs[i].amount <= rs[i].limit <==> TokensFit(st, rs[i], now)
    {
      assert KeyOk(l, st, now, rs[i].key);
      TokenView(l, st, rs[i], now);
    }
    hide *;
  }

  /** On a cleaned store a new reservation is admitted exactly when every one of its counters has room. */
  lemma {:induction false} AdmitsIff(l: Limiter, ttl: Ttl, st: Store, r: Reservation, now: int)
    requires Inv(l, st, now) && InScope(l, r) && r.id !in st.leases
    ensures ReserveClean(ttl, st, r, now).1.Admitted? <==>
      (forall i | 0 <= i < |r.requests| :: RequestFits(st, r.requests[i], now)) &&
      forall i | 0 <= i < |r.tokens| :: TokensFit(st, r.tokens[i], now)
  {
    var (cs, roomy) := CheckRequests(st.counters, r.requests, now);
    var st1 := st.(counters := cs);
    RequestsFitIff(l, st, r.requests, now);
    InvSliding(l, st, now);
    CheckRequestsFacts(l, st.counters, r.requests, now);
    PruningKeeps(l, st, cs, now);
    hide Inv, CheckRequests, CheckTokens, RequestsInScope, TokensInScope, Granted, OnlyPruned, AllSliding, RequestFits;
    TokensFitIff(l, st1, r.tokens, now);
    assert forall i | 0 <= i < |r.tokens| :: TokensFit(st1, r.tokens[i], now) <==> TokensFit(st, r.tokens[i], now);
  }

  /** The store that a reservation or settlement of event `e` finds once the cleanup pass is over. */
  ghost function CleanAt(ttl: Ttl, s: System, e: Event): Store { Clean(ttl, s.st, e.order, e.now) }

  lemma {:induction false} CleanedInv(l: Limiter, ttl: Ttl, run: seq<System>, events: seq<Event>, k: nat)
    requires IsRun(l, ttl, run, events) && k < |events|
    ensures Inv(l, CleanAt(ttl, run[k], events[k]), events[k].now) && Configured(l)
    ensures Step(l, ttl, run[k], events[k], run[k + 1])
  {
    RunInv(l, ttl, run, events, k);
    assert Step(l, ttl, run[k], events[k], run[k + 1]);
    hide Inv, Clean, IsRun;
    InvLater(l, run[k].st, run[k].now, events[k].now);
    CleanInv(l, ttl, run[k].st, events[k].order, events[k].now);
  }

  /**
   In every run a valid reservation whose ID is not retained is admitted if and only if every one of its request keys
   has fewer than `limit` admissions in the closed window that ends now, and every one of its token keys stays within
   its limit with what was settled in that window, what is pending, and the new amount.
   */
  lemma AdmittedExactlyWithRoom(l: Limiter, ttl: Ttl, run: seq<System>, events: seq<Event>, k: nat)
    requires IsRun(l, ttl, run, events) && k < |events| && events[k].op.ReserveOp? && ValidReservation(events[k].op.r)
    requires events[k].op.r.id !in CleanAt(ttl, run[k], events[k]).leases
    ensures var e, st := events[k], CleanAt(ttl, run[k], events[k]);
      var rs, ts := e.op.r.requests, e.op.r.tokens;
      ReserveStep(ttl, run[k].st, e.op.r, e.now, e.order).1.Admitted? <==>
        (forall i | 0 <= i < |rs| ::
          CountIn(Admits(st.hist, rs[i].key), e.now - rs[i].window, e.now) < rs[i].limit) &&
        forall i | 0 <= i < |ts| ::
          SumIn(Settles(st.hist, ts[i].key), e.now - ts[i].window, e.now) + PendingSum(st.leases, ts[i].key) +
          ts[i].amount <= ts[i].limit
  {
    hide Inv, Clean, InScope, ReserveClean;
    CleanedInv(l, ttl, run, events, k);
    hide IsRun;
    AdmitsIff(l, ttl, CleanAt(ttl, run[k], events[k]), events[k].op.r, events[k].now);
  }

  /** A reservation is malformed without an ID, with a limit or window that is not positive, or a negative amount. */
  lemma MalformedExactly(ttl: Ttl, st: Store, r: Reservation, now: int, order: seq<string>)
    ensures ReserveStep(ttl, st, r, now, order).1.Invalid? <==>
      r.id == "" || (exists c | c in r.requests :: c.limit <= 0 || c.window <= 0) ||
      exists c | c in r.tokens :: c.limit <= 0 || c.window <= 0 || c.amount < 0
  {
    hide Clean, CheckRequests, CheckTokens, Granted;
  }

  // ---- What an admission charges ------------------------------------------------------------------------------

  lemma {:induction false} FoundAt(l: Limiter, rs: seq<TokenReservation>, i: nat)
    requires TokensInScope(l, rs) && i < |rs|
    ensures FindToken(rs, rs[i].key) == Some(rs[i]) && Amount(rs, rs[i].key) == rs[i].amount
  {
    if i > 0 {
      ScopeTail(l, rs);
      assert rs[1..][i - 1] == rs[i];
      FoundAt(l, rs[1..], i - 1);
    }
  }

  lemma {:induction false} RequestFound(rs: seq<RequestCounter>, i: nat)
    requires i < |rs|
    ensures FindRequest(rs, rs[i].key)
  {
    if i > 0 {
      assert rs[1..][i - 1] == rs[i];
      RequestFound(rs[1..], i - 1);
    }
  }

  /**
   An admitted reservation is charged once in each of its counters, at the time of the call, and nowhere else: one
   admission per request key, and its amount on top of what is pending per token key.
   */
  lemma AdmissionCharges(l: Limiter, ttl: Ttl, run: seq<System>, events: seq<Event>, k: nat)
    requires IsRun(l, ttl, run, events) && k < |events| && events[k].op.ReserveOp?
    requires ReserveStep(ttl, run[k].st, events[k].op.r, events[k].now, events[k].order).1.Admitted?
    ensures var r, st, st' := events[k].op.r, CleanAt(ttl, run[k], events[k]), run[k + 1].st;
      (forall i | 0 <= i < |r.requests| ::
        Admits(st'.hist, r.requests[i].key) == Admits(st.hist, r.requests[i].key) + [events[k].now]) &&
      (forall key | !(exists i | 0 <= i < |r.requests| :: r.requests[i].key == key) ::
        Admits(st'.hist, key) == Admits(st.hist, key)) &&
      (forall i | 0 <= i < |r.tokens| ::
        PendingSum(st'.leases, r.tokens[i].key) == PendingSum(st.leases, r.tokens[i].key) + r.tokens[i].amount) &&
      (forall key | !(exists i | 0 <= i < |r.tokens| :: r.tokens[i].key == key) ::
        PendingSum(st'.leases, key) == PendingSum(st.leases, key)) &&
      (forall key :: Settles(st'.hist, key) == Settles(st.hist, key)) && r.id in st'.leases && r.id !in st.leases &&
      st'.leases == st.leases[r.id := st'.leases[r.id]] && st'.leases[r.id].state.Pending? &&
      st'.leases[r.id].tokens == r.tokens
  {
    hide Inv, Clean, InScope, ReserveClean;
    CleanedInv(l, ttl, run, events, k);
    hide IsRun;
    AdmittedCharges(l, ttl, CleanAt(ttl, run[k], events[k]), events[k].op.r, events[k].now);
  }

  lemma {:induction false} AdmittedCharges(l: Limiter, ttl: Ttl, st: Store, r: Reservation, now: int)
    requires Inv(l, st, now) && InScope(l, r) && ReserveClean(ttl, st, r, now).1.Admitted?
    ensures var st' := ReserveClean(ttl, st, r, now).0;
      (forall i | 0 <= i < |r.requests| ::
        Admits(st'.hist, r.requests[i].key) == Admits(st.hist, r.requests[i].key) + [now]) &&
      (forall key | !(exists i | 0 <= i < |r.requests| :: r.requests[i].key == key) ::
        Admits(st'.hist, key) == Admits(st.hist, key)) &&
      (forall i | 0 <= i < |r.tokens| ::
        PendingSum(st'.leases, r.tokens[i].key) == PendingSum(st.leases, r.tokens[i].key) + r.tokens[i].amount) &&
      (forall key | !(exists i | 0 <= i < |r.tokens| :: r.tokens[i].key == key) ::
        PendingSum(st'.leases, key) == PendingSum(st.leases, key)) &&
      (forall key :: Settles(st'.hist, key) == Settles(st.hist, key)) && r.id in st'.leases && r.id !in st.leases &&
      st'.leases == st.leases[r.id := st'.leases[r.id]] && st'.leases[r.id].state.Pending? &&
      st'.leases[r.id].tokens == r.tokens
  {
    var cs := CheckTokens(CheckRequests(st.counters, r.requests, now).0, r.tokens, now).0;
    var st1 := st.(counters := cs);
    CheckedSliding(l, st, r, now);
    forall key ensures Charged(st, Granted(ttl, st1, r, now), r, now, key) { ChargedKey(l, ttl, st1, r, now, key); }
    GrantedParts(l, ttl, st1, r, now, "");
    var st' := ReserveClean(ttl, st, r, now).0;
    assert st' == Granted(ttl, st1, r, now);
    hide ReserveClean, Granted, Inv, CheckRequests, CheckTokens, AllSliding, View;
    forall i | 0 <= i < |r.requests|
      ensures Admits(st'.hist, r.requests[i].key) == Admits(st.hist, r.requests[i].key) + [now]
    {
      RequestFound(r.requests, i);
      assert Charged(st, st', r, now, r.requests[i].key);
    }
    forall key | !(exists i | 0 <= i < |r.requests| :: r.requests[i].key == key)
      ensures Admits(st'.hist, key) == Admits(st.hist, key)
    {
      RequestAbsent(r.requests, key);
      assert Charged(st, st', r, now, key);
    }
    forall i | 0 <= i < |r.tokens|
      ensures PendingSum(st'.leases, r.tokens[i].key) == PendingSum(st.leases, r.tokens[i].key) + r.tokens[i].amount
    {
      FoundAt(l, r.tokens, i);
      assert Charged(st, st', r, now, r.tokens[i].key);
    }
    forall key | !(exists i | 0 <= i < |r.tokens| :: r.tokens[i].key == key)
      ensures PendingSum(st'.leases, key) == PendingSum(st.leases, key)
    {
      NotFound(r.tokens, key);
      assert Charged(st, st', r, now, key);
    }
    forall key ensures Settles(st'.hist, key) == Settles(st.hist, key) { assert Charged(st, st', r, now, key); }
  }

  ghost predicate Charged(st: Store, st': Store, r: Reservation, now: int, key: string) {
    Admits(st'.hist, key) == (if FindRequest(r.requests, key) then Admits(st.hist, key) + [now]
                              else Admits(st.hist, key)) &&
    PendingSum(st'.leases, key) == PendingSum(st.leases, key) + Amount(r.tokens, key) &&
    Settles(st'.hist, key) == Settles(st.hist, key)
  }

  lemma {:induction false} ChargedKey(l: Limiter, ttl: Ttl, st: Store, r: Reservation, now: int, key: string)
    requires AllSliding(l, st.counters) && InScope(l, r) && r.id !in st.leases
    ensures Charged(st, Granted(ttl, st, r, now), r, now, key)
  {
    GrantedParts(l, ttl, st, r, now, key);
    hide Granted, View, AllSliding, InScope;
    SumUpdate(st.leases, r.id, NewLease(ttl, r, now), key);
  }

  lemma {:induction false} CheckedSliding(l: Limiter, st: Store, r: Reservation, now: int)
    requires Inv(l, st, now) && InScope(l, r)
    ensures AllSliding(l, CheckTokens(CheckRequests(st.counters, r.requests, now).0, r.tokens, now).0)
  {
    InvSliding(l, st, now);
    hide Inv, AllSliding, RequestsInScope, TokensInScope;
    CheckRequestsFacts(l, st.counters, r.requests, now);
    CheckTokensFacts(l, CheckRequests(st.counters, r.requests, now).0, r.tokens, now);
  }

  // ---- What a settlement charges --------------------------------------------------------------------------------

  /** What was settled when `n` tokens are charged at `now`; nothing is recorded for nothing. */
  function WithCharge(h: seq<TokenEvent>, now: int, n: int): seq<TokenEvent> {
    if n > 0 then h + [TokenEvent(now, n)] else h
  }

  /**
   A successful commit settles the usage that it reports, in every token counter of its lease, whatever was reserved;
   a successful release settles the reserved estimate. Counters that the lease does not name are left alone.
   */
  lemma SettlementCharges(l: Limiter, ttl: Ttl, run: seq<System>, events: seq<Event>, k: nat, id: string)
    requires IsRun(l, ttl, run, events) && k < |events| && Finishes(events[k], id)
    requires Answer(ttl, run[k].st, events[k]).None?
    ensures id in CleanAt(ttl, run[k], events[k]).leases
    ensures var e, st, st' := events[k], CleanAt(ttl, run[k], events[k]), run[k + 1].st;
      var tokens := st.leases[id].tokens;
      (forall i | 0 <= i < |tokens| ::
        var n := if e.op.ReleaseOp? then tokens[i].amount else if e.op.actual < 0 then 0 else e.op.actual;
        Settles(st'.hist, tokens[i].key) == WithCharge(Settles(st.hist, tokens[i].key), e.now, n)) &&
      (forall i | 0 <= i < |tokens| ::
        PendingSum(st'.leases, tokens[i].key) == PendingSum(st.leases, tokens[i].key) - tokens[i].amount) &&
      forall key | !(exists i | 0 <= i < |tokens| :: tokens[i].key == key) ::
        Settles(st'.hist, key) == Settles(st.hist, key) && PendingSum(st'.leases, key) == PendingSum(st.leases, key)
  {
    hide Inv, Clean, FinishClean;
    CleanedInv(l, ttl, run, events, k);
    var e, st := events[k], CleanAt(ttl, run[k], events[k]);
    FinishedPending(ttl, st, id, Requested(e),
                    if e.op.ReleaseOp? then -1 else if e.op.actual < 0 then 0 else e.op.actual, e.now);
    hide IsRun;
    ClosedCharges(l, ttl, st, id, Requested(e), e.now,
                  if e.op.ReleaseOp? then -1 else if e.op.actual < 0 then 0 else e.op.actual);
  }

  lemma {:induction false} FinishedPending(ttl: Ttl, st: Store, id: string, state: LeaseState, actual: int, now: int)
    requires FinishClean(ttl, st, id, state, actual, now).1.None?
    ensures id in st.leases && st.leases[id].state.Pending?
    ensures FinishClean(ttl, st, id, state, actual, now).0 == Close(ttl, st, id, state, now, actual)
  {
    hide Close;
  }

  lemma {:induction false} ClosedCharges(l: Limiter, ttl: Ttl, st: Store, id: string, state: LeaseState, now: int,
                                         actual: int)
    requires Inv(l, st, now) && id in st.leases && st.leases[id].state.Pending? && !state.Pending?
    ensures var st', tokens := Close(ttl, st, id, state, now, actual), st.leases[id].tokens;
      (forall i | 0 <= i < |tokens| ::
        Settles(st'.hist, tokens[i].key) ==
          WithCharge(Settles(st.hist, tokens[i].key), now, if actual < 0 then tokens[i].amount else actual)) &&
      (forall i | 0 <= i < |tokens| ::
        PendingSum(st'.leases, tokens[i].key) == PendingSum(st.leases, tokens[i].key) - tokens[i].amount) &&
      forall key | !(exists i | 0 <= i < |tokens| :: tokens[i].key == key) ::
        Settles(st'.hist, key) == Settles(st.hist, key) && PendingSum(st'.leases, key) == PendingSum(st.leases, key)
  {
    var st', tokens := Close(ttl, st, id, state, now, actual), st.leases[id].tokens;
    InvSliding(l, st, now);
    assert TokensInScope(l, tokens);
    hide Close, AllSliding, View, KeyOk, Balanced, PendingSum, TokensInScope, SettledCounter;
    forall i | 0 <= i < |tokens|
      ensures Settles(st'.hist, tokens[i].key) ==
        WithCharge(Settles(st.hist, tokens[i].key), now, if actual < 0 then tokens[i].amount else actual)
      ensures PendingSum(st'.leases, tokens[i].key) == PendingSum(st.leases, tokens[i].key) - tokens[i].amount
    {
      FoundAt(l, tokens, i);
      CloseParts(l, ttl, st, id, state, now, actual, tokens[i].key);
    }
    forall key | !(exists i | 0 <= i < |tokens| :: tokens[i].key == key)
      ensures Settles(st'.hist, key) == Settles(st.hist, key) &&
        PendingSum(st'.leases, key) == PendingSum(st.leases, key)
    {
      NotFound(tokens, key);
      CloseParts(l, ttl, st, id, state, now, actual, key);
    }
  }

  // ---- What expiry charges ----------------------------------------------------------------------------------------

  /** Settled and pending tokens of a key together. */
  ghost function Spent(st: Store, key: string): int { Total(Settles(st.hist, key)) + PendingSum(st.leases, key) }

  lemma {:induction false} ExpiryKeepsSpent(l: Limiter, ttl: Ttl, st: Store, id: string, now: int, key: string)
    requires Inv(l, st, now) && id in st.leases && st.leases[id].state.Pending?
    ensures Spent(Close(ttl, st, id, Expired, now, -1), key) == Spent(st, key)
  {
    var tokens := st.leases[id].tokens;
    InvSliding(l, st, now);
    assert TokensInScope(l, tokens);
    CloseParts(l, ttl, st, id, Expired, now, -1, key);
    hide Close, AllSliding, View, Inv, PendingSum, SettledCounter;
    if FindToken(tokens, key).Some? {
      FoundAmount(l, tokens, key, -1);
      TotalSnoc(Settles(st.hist, key), TokenEvent(now, Amount(tokens, key)));
    }
  }

  lemma {:induction false} CleanOneKeepsSpent(l: Limiter, ttl: Ttl, st: Store, id: string, now: int, key: string)
    requires Inv(l, st, now) && Configured(l)
    ensures Spent(CleanOne(ttl, st, id, now), key) == Spent(st, key)
  {
    hide Inv, Close;
    var st1 := st;
    if id in st.leases && st.leases[id].state.Pending? && now >= st.leases[id].pendingUntil {
      ExpiryKeepsSpent(l, ttl, st, id, now, key);
      st1 := Close(ttl, st, id, Expired, now, -1);
    }
    if Forget(st1, id, now) != st1 { SumForget(st1.leases, id, key); }
  }

  lemma {:induction false} CleanKeepsSpent(l: Limiter, ttl: Ttl, st: Store, order: seq<string>, now: int, key: string)
    requires Inv(l, st, now) && Configured(l)
    ensures Spent(Clean(ttl, st, order, now), key) == Spent(st, key)
    decreases |order|
  {
    hide Inv, CleanOne, Spent;
    if order != [] {
      CleanOneKeepsSpent(l, ttl, st, order[0], now, key);
      CleanOneInv(l, ttl, st, order[0], now);
      CleanKeepsSpent(l, ttl, CleanOne(ttl, st, order[0], now), order[1..], now, key);
    }
  }

  /** Expiry settles exactly what the expired leases had reserved: settled and pending tokens together stay the same. */
  lemma ExpirySettlesEstimates(l: Limiter, ttl: Ttl, run: seq<System>, events: seq<Event>, k: nat, key: string)
    requires IsRun(l, ttl, run, events) && k < |events|
    ensures var st, clean := run[k].st, CleanAt(ttl, run[k], events[k]);
      Total(Settles(clean.hist, key)) + PendingSum(clean.leases, key) ==
      Total(Settles(st.hist, key)) + PendingSum(st.leases, key)
  {
    RunInv(l, ttl, run, events, k);
    assert Step(l, ttl, run[k], events[k], run[k + 1]);
    hide Inv, Clean, IsRun;
    InvLater(l, run[k].st, run[k].now, events[k].now);
    CleanKeepsSpent(l, ttl, run[k].st, events[k].order, events[k].now, key);
  }

  // ---- Fixed windows ------------------------------------------------------------------------------------------------

  /** The counter's window has not begun, or is over. */
  predicate RolledOver(c: Counter, now: int) { c.fixedStart.None? || now - c.fixedStart.value >= c.window }

  /** A fixed-window counter under the given key, as the store holds it or would create it. */
  ghost predicate Fixed(st: Store, k: CounterKey, window: int, c: Counter) {
    c == CounterOf(st.counters, k, FixedWindow, window) && c.strategy.FixedWindow? && c.window == window
  }

  /**
   One request against a fixed window: it is admitted exactly if fewer than `limit` requests were counted since the
   window began, and it counts as one more; a window that is over begins anew with the call.
   */
  lemma FixedWindowRequest(ttl: Ttl, st: Store, id: string, q: RequestCounter, now: int, c: Counter)
    requires id !in st.leases && q.strategy.FixedWindow? && Fixed(st, RequestKey(q.key), q.window, c)
    ensures var (st', reply) := ReserveClean(ttl, st, Reservation(id, [q], []), now);
      var used := if RolledOver(c, now) then 0 else c.fixedRequests;
      (reply.Admitted? <==> used < q.limit) && RequestKey(q.key) in st'.counters &&
      var c' := st'.counters[RequestKey(q.key)];
      c'.fixedRequests == (if reply.Admitted? then used + 1 else used) &&
      c'.fixedStart == (if RolledOver(c, now) then Some(now) else c.fixedStart)
  {
    var r := Reservation(id, [q], []);
    var k, p := RequestKey(q.key), Pruned(c, now);
    var cs := st.counters[k := p];
    assert [q][1..] == [];
    assert CheckRequests(st.counters, [q], now) == (cs, p.fixedRequests < q.limit);
    assert CheckTokens(cs, [], now) == (cs, true);
    var st1 := st.(counters := cs);
    assert ChargeRequests(st1, [q], now) == ChargedOne(st1, q, now);
  }

  /** The same for tokens: what was settled since the window began, what is reserved, and the new amount. */
  lemma FixedWindowTokens(ttl: Ttl, st: Store, id: string, q: TokenReservation, now: int, c: Counter)
    requires id !in st.leases && q.strategy.FixedWindow? && Fixed(st, TokenKey(q.key), q.window, c)
    ensures var (st', reply) := ReserveClean(ttl, st, Reservation(id, [], [q]), now);
      var used := if RolledOver(c, now) then 0 else c.fixedTokens;
      var reserved := if RolledOver(c, now) then 0 else c.reserved;
      (reply.Admitted? <==> used + reserved + q.amount <= q.limit) && TokenKey(q.key) in st'.counters &&
      var c' := st'.counters[TokenKey(q.key)];
      c'.fixedTokens == used && c'.reserved == (if reply.Admitted? then reserved + q.amount else reserved) &&
      c'.fixedStart == (if RolledOver(c, now) then Some(now) else c.fixedStart)
  {
    var k, p := TokenKey(q.key), Pruned(c, now);
    var cs := st.counters[k := p];
    assert [q][1..] == [];
    assert CheckRequests(st.counters, [], now) == (st.counters, true);
    assert CheckTokens(st.counters, [q], now) == (cs, p.fixedTokens + p.reserved + q.amount <= q.limit);
    var st1 := st.(counters := cs);
    assert ChargeRequests(st1, [], now) == st1;
    assert ChargeTokens(cs, [q]) == cs[k := p.(reserved := p.reserved + q.amount)];
  }

  /** Settlement in a fixed window: the reserve shrinks, not below zero, and the charge counts in the current window. */
  lemma FixedWindowSettles(st: Store, q: TokenReservation, now: int, actual: int, c: Counter)
    requires q.strategy.FixedWindow? && Fixed(st, TokenKey(q.key), q.window, c)
    ensures var st' := SettleTokens(st, [q], now, actual);
      var used := if RolledOver(c, now) then 0 else c.fixedTokens;
      var reserved := if RolledOver(c, now) then 0 else c.reserved;
      var n := if actual < 0 then q.amount else actual;
      TokenKey(q.key) in st'.counters &&
      var c' := st'.counters[TokenKey(q.key)];
      c'.fixedTokens == (if n > 0 then used + n else used) &&
      c'.reserved == (if reserved >= q.amount then reserved - q.amount else 0)
  {
    assert [q][1..] == [];
    assert SettleTokens(st, [q], now, actual) == SettledOne(st, q, now, actual);
  }
}
