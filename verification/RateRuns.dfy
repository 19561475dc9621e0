/** Runs of the lease store. */
module RateRuns {
  import opened RateCounters
  import opened RateStore
  import opened RateSafety

  // ---- Effect of a settlement or an admission on one key ---------------------------------------------

  lemma {:induction false} Replaced(l: Limiter, cs: map<CounterKey, Counter>, k: CounterKey, c: Counter)
    requires AllSliding(l, cs) && (Sliding(l, k, View(l, cs, k)) ==> Sliding(l, k, c))
    ensures AllSliding(l, cs[k := c]) && View(l, cs[k := c], k) == c
  {
    var next := cs[k := c];
    forall x ensures Sliding(l, x, View(l, next, x)) {
      assert Sliding(l, x, View(l, cs, x));
    }
  }

  lemma {:induction false} NotFound(rs: seq<TokenReservation>, key: string)
    requires forall i | 0 <= i < |rs| :: rs[i].key != key
    ensures FindToken(rs, key).None?
  {
    if rs != [] { NotFound(rs[1..], key); }
  }

  lemma {:induction false} ScopeTail(l: Limiter, rs: seq<TokenReservation>)
    requires TokensInScope(l, rs) && rs != []
    ensures TokensInScope(l, rs[1..]) && FindToken(rs[1..], rs[0].key).None?
  {
    NotFound(rs[1..], rs[0].key);
  }

  function SettledBy(h: seq<TokenEvent>, now: int, n: int): seq<TokenEvent> {
    if n <= 0 then h else h + [TokenEvent(now, n)]
  }

  /** What SettleTokens does to a token counter and to its history. */
  lemma {:induction false} SettleAt(l: Limiter, st: Store, tokens: seq<TokenReservation>, now: int, actual: int,
                                    key: string)
    requires TokensInScope(l, tokens) && AllSliding(l, st.counters)
    ensures var st', found := SettleTokens(st, tokens, now, actual), FindToken(tokens, key);
      View(l, st'.counters, TokenKey(key)) ==
        (if found.Some? then SettledCounter(View(l, st.counters, TokenKey(key)), now, found.value.amount, actual)
         else View(l, st.counters, TokenKey(key))) &&
      Settles(st'.hist, key) ==
        (if found.Some? then SettledBy(Settles(st.hist, key), now, Charge(found.value.amount, actual))
         else Settles(st.hist, key))
    decreases |tokens|
  {
    if tokens != [] {
      var r := tokens[0];
      ScopeTail(l, tokens);
      SettleStep(l, st, r, now, actual, key);
      SettleAt(l, SettledOne(st, r, now, actual), tokens[1..], now, actual, key);
      assert SettleTokens(st, tokens, now, actual) ==
        SettleTokens(SettledOne(st, r, now, actual), tokens[1..], now, actual);
      hide SettledOne, SettledCounter, View, AllSliding, TokensInScope, Settles, SettledBy, Charge, SettleTokens;
    }
  }

  lemma {:induction false} SettleStep(l: Limiter, st: Store, r: TokenReservation, now: int, actual: int, key: string)
    requires TokensInScope(l, [r]) && AllSliding(l, st.counters)
    ensures var st' := SettledOne(st, r, now, actual);
      AllSliding(l, st'.counters) &&
      (forall q :: View(l, st'.counters, RequestKey(q)) == View(l, st.counters, RequestKey(q))) &&
      View(l, st'.counters, TokenKey(key)) ==
        (if key == r.key then SettledCounter(View(l, st.counters, TokenKey(key)), now, r.amount, actual)
         else View(l, st.counters, TokenKey(key))) &&
      Settles(st'.hist, key) ==
        (if key == r.key then SettledBy(Settles(st.hist, key), now, Charge(r.amount, actual))
         else Settles(st.hist, key)) &&
      st'.leases == st.leases && st'.hist == st.hist.(settled := st'.hist.settled)
  {
    assert [r][0] == r;
    var k := TokenKey(r.key);
    assert CounterOf(st.counters, k, r.strategy, r.window) == View(l, st.counters, k);
    Replaced(l, st.counters, k, SettledCounter(View(l, st.counters, k), now, r.amount, actual));
  }

  lemma {:induction false} ScopeHead(l: Limiter, rs: seq<TokenReservation>)
    requires TokensInScope(l, rs) && rs != []
    ensures TokensInScope(l, [rs[0]])
  {
  }

  /** SettleTokens touches nothing but token counters and their history. */
  lemma {:induction false} SettleFrame(l: Limiter, st: Store, tokens: seq<TokenReservation>, now: int, actual: int)
    requires TokensInScope(l, tokens) && AllSliding(l, st.counters)
    ensures var st' := SettleTokens(st, tokens, now, actual);
      AllSliding(l, st'.counters) &&
      (forall q :: View(l, st'.counters, RequestKey(q)) == View(l, st.counters, RequestKey(q))) &&
      st'.leases == st.leases && st'.hist == st.hist.(settled := st'.hist.settled)
    decreases |tokens|
  {
    if tokens != [] {
      var r := tokens[0];
      ScopeTail(l, tokens);
      ScopeHead(l, tokens);
      SettleStep(l, st, r, now, actual, "");
      SettleFrame(l, SettledOne(st, r, now, actual), tokens[1..], now, actual);
      assert SettleTokens(st, tokens, now, actual) ==
        SettleTokens(SettledOne(st, r, now, actual), tokens[1..], now, actual);
    }
  }

  function FindRequest(rs: seq<RequestCounter>, key: string): bool {
    rs != [] && (rs[0].key == key || FindRequest(rs[1..], key))
  }

  lemma {:induction false} RequestTail(l: Limiter, rs: seq<RequestCounter>)
    requires RequestsInScope(l, rs) && rs != []
    ensures RequestsInScope(l, rs[1..]) && !FindRequest(rs[1..], rs[0].key)
  {
    RequestAbsent(rs[1..], rs[0].key);
  }

  lemma {:induction false} RequestAbsent(rs: seq<RequestCounter>, key: string)
    requires forall i | 0 <= i < |rs| :: rs[i].key != key
    ensures !FindRequest(rs, key)
  {
    if rs != [] { RequestAbsent(rs[1..], key); }
  }

  lemma {:induction false} ChargeStep(l: Limiter, st: Store, r: RequestCounter, now: int, key: string)
    requires RequestsInScope(l, [r]) && AllSliding(l, st.counters)
    ensures var st' := ChargedOne(st, r, now);
      AllSliding(l, st'.counters) &&
      (forall q :: View(l, st'.counters, TokenKey(q)) == View(l, st.counters, TokenKey(q))) &&
      View(l, st'.counters, RequestKey(key)) ==
        (if key == r.key then AddRequest(View(l, st.counters, RequestKey(key)), now)
         else View(l, st.counters, RequestKey(key))) &&
      Admits(st'.hist, key) == (if key == r.key then Admits(st.hist, key) + [now] else Admits(st.hist, key)) &&
      st'.leases == st.leases && st'.hist == st.hist.(admitted := st'.hist.admitted)
  {
    assert [r][0] == r;
    var k := RequestKey(r.key);
    assert CounterOf(st.counters, k, r.strategy, r.window) == View(l, st.counters, k);
    Replaced(l, st.counters, k, AddRequest(View(l, st.counters, k), now));
  }

  /** What ChargeRequests does to a request counter, to its history and to the rest. */
  lemma {:induction false} ChargeAt(l: Limiter, st: Store, rs: seq<RequestCounter>, now: int, key: string)
    requires RequestsInScope(l, rs) && AllSliding(l, st.counters)
    ensures var st' := ChargeRequests(st, rs, now);
      AllSliding(l, st'.counters) &&
      (forall q :: View(l, st'.counters, TokenKey(q)) == View(l, st.counters, TokenKey(q))) &&
      View(l, st'.counters, RequestKey(key)) ==
        (if FindRequest(rs, key) then AddRequest(View(l, st.counters, RequestKey(key)), now)
         else View(l, st.counters, RequestKey(key))) &&
      Admits(st'.hist, key) == (if FindRequest(rs, key) then Admits(st.hist, key) + [now] else Admits(st.hist, key)) &&
      st'.leases == st.leases && st'.hist == st.hist.(admitted := st'.hist.admitted)
    decreases |rs|
  {
    if rs != [] {
      RequestTail(l, rs);
      assert RequestsInScope(l, [rs[0]]);
      ChargeStep(l, st, rs[0], now, key);
      ChargeAt(l, ChargedOne(st, rs[0], now), rs[1..], now, key);
      assert ChargeRequests(st, rs, now) == ChargeRequests(ChargedOne(st, rs[0], now), rs[1..], now);
      hide ChargedOne, View, AllSliding, RequestsInScope, Admits, AddRequest, ChargeRequests;
    }
  }

  lemma {:induction false} ReserveAt(l: Limiter, cs: map<CounterKey, Counter>, rs: seq<TokenReservation>, key: string)
    requires TokensInScope(l, rs) && AllSliding(l, cs)
    ensures var cs', c := ChargeTokens(cs, rs), View(l, cs, TokenKey(key));
      AllSliding(l, cs') && (forall q :: View(l, cs', RequestKey(q)) == View(l, cs, RequestKey(q))) &&
      View(l, cs', TokenKey(key)) == c.(reserved := c.reserved + Amount(rs, key))
    decreases |rs|
  {
    if rs != [] {
      var k := TokenKey(rs[0].key);
      var c := View(l, cs, k);
      ScopeTail(l, rs);
      assert CounterOf(cs, k, rs[0].strategy, rs[0].window) == c;
      var cs1 := cs[k := c.(reserved := c.reserved + rs[0].amount)];
      Replaced(l, cs, k, c.(reserved := c.reserved + rs[0].amount));
      ReserveAt(l, cs1, rs[1..], key);
    }
  }

  // ---- The invariant ---------------------------------------------------------------------------------------

  ghost predicate KeyOk(l: Limiter, st: Store, now: int, key: string) {
    RequestOk(l, RequestKey(key), View(l, st.counters, RequestKey(key)), Admits(st.hist, key), now) &&
    TokenOk(l, TokenKey(key), View(l, st.counters, TokenKey(key)), Settles(st.hist, key),
            PendingSum(st.leases, key), now)
  }

  ghost predicate Tight(l: Limiter, st: Store, now: int, key: string) {
    TokenTight(l, TokenKey(key), Settles(st.hist, key), PendingSum(st.leases, key), now)
  }

  /** Each new lease is settled once, or is still pending. */
  ghost predicate Balanced(st: Store, id: string) {
    st.hist.admissions[id] == st.hist.settlements[id] + if id in st.leases && st.leases[id].state.Pending? then 1 else 0
  }

  ghost predicate Inv(l: Limiter, st: Store, now: int) {
    LeasesOk(l, st.leases) && (forall key :: KeyOk(l, st, now, key)) && forall id :: Balanced(st, id)
  }

  ghost predicate InvTight(l: Limiter, st: Store, now: int) { forall key :: Tight(l, st, now, key) }

  lemma {:induction false} InvSliding(l: Limiter, st: Store, now: int)
    requires Inv(l, st, now)
    ensures AllSliding(l, st.counters)
  {
    forall k ensures Sliding(l, k, View(l, st.counters, k)) {
      assert KeyOk(l, st, now, k.key);
    }
  }

  lemma {:induction false} InvLater(l: Limiter, st: Store, now: int, later: int)
    requires Inv(l, st, now) && now <= later
    ensures Inv(l, st, later) && (InvTight(l, st, now) ==> InvTight(l, st, later))
  {
    hide RequestOk, TokenOk, TokenTight;
    forall key ensures KeyOk(l, st, later, key) && (InvTight(l, st, now) ==> Tight(l, st, later, key)) {
      assert KeyOk(l, st, now, key);
      KeyLater(l, st, now, later, key);
    }
  }

  lemma {:induction false} KeyLater(l: Limiter, st: Store, now: int, later: int, key: string)
    requires KeyOk(l, st, now, key) && now <= later
    ensures KeyOk(l, st, later, key) && (Tight(l, st, now, key) ==> Tight(l, st, later, key))
  {
    var rk, tk := RequestKey(key), TokenKey(key);
    TimeMoves(l, rk, View(l, st.counters, rk), Admits(st.hist, key), [], 0, now, later);
    TimeMoves(l, tk, View(l, st.counters, tk), [], Settles(st.hist, key), PendingSum(st.leases, key), now, later);
  }

  /** Pruning alone changes nothing that is promised. */
  lemma {:induction false} PruningKeeps(l: Limiter, st: Store, cs: map<CounterKey, Counter>, now: int)
    requires Inv(l, st, now) && OnlyPruned(l, st.counters, cs, now)
    ensures Inv(l, st.(counters := cs), now) && (InvTight(l, st, now) ==> InvTight(l, st.(counters := cs), now))
  {
    var st' := st.(counters := cs);
    forall key ensures KeyOk(l, st', now, key) {
      assert KeyOk(l, st, now, key);
      PrunedKey(l, st, cs, now, key);
    }
    forall id ensures Balanced(st', id) { assert Balanced(st, id); }
    hide KeyOk;
    if InvTight(l, st, now) {
      forall key ensures Tight(l, st', now, key) { assert Tight(l, st, now, key); }
    }
  }

  lemma {:induction false} PrunedKey(l: Limiter, st: Store, cs: map<CounterKey, Counter>, now: int, key: string)
    requires KeyOk(l, st, now, key) && OnlyPruned(l, st.counters, cs, now)
    ensures KeyOk(l, st.(counters := cs), now, key)
  {
    var rk, tk := RequestKey(key), TokenKey(key);
    hide RequestOk, TokenOk;
    PruneKeepsRequests(l, rk, View(l, st.counters, rk), Admits(st.hist, key), now);
    PruneKeepsTokens(l, tk, View(l, st.counters, tk), Settles(st.hist, key), PendingSum(st.leases, key), now);
  }

  // ---- Settling a lease -----------------------------------------------------------------------------------------

  /** Charges no more than was reserved, in every counter of the lease. */
  ghost predicate Modest(tokens: seq<TokenReservation>, actual: int) {
    forall i | 0 <= i < |tokens| :: Charge(tokens[i].amount, actual) <= tokens[i].amount
  }

  lemma {:induction false} FoundAmount(l: Limiter, tokens: seq<TokenReservation>, key: string, actual: int)
    requires TokensInScope(l, tokens) && FindToken(tokens, key).Some?
    ensures Amount(tokens, key) >= 0
    ensures Modest(tokens, actual) ==> Charge(Amount(tokens, key), actual) <= Amount(tokens, key)
  {
    if tokens[0].key != key {
      assert forall i | 0 <= i < |tokens[1..]| :: tokens[1..][i] == tokens[i + 1];
      FoundAmount(l, tokens[1..], key, actual);
    }
  }

  lemma {:induction false} CloseParts(l: Limiter, ttl: Ttl, st: Store, id: string, state: LeaseState, now: int,
                                      actual: int, key: string)
    requires LeasesOk(l, st.leases) && AllSliding(l, st.counters) && id in st.leases && st.leases[id].state.Pending? &&
      !state.Pending?
    ensures var st', found := Close(ttl, st, id, state, now, actual), FindToken(st.leases[id].tokens, key);
      View(l, st'.counters, RequestKey(key)) == View(l, st.counters, RequestKey(key)) &&
      Admits(st'.hist, key) == Admits(st.hist, key) &&
      View(l, st'.counters, TokenKey(key)) ==
        (if found.Some? then SettledCounter(View(l, st.counters, TokenKey(key)), now, found.value.amount, actual)
         else View(l, st.counters, TokenKey(key))) &&
      Settles(st'.hist, key) ==
        (if found.Some? then SettledBy(Settles(st.hist, key), now, Charge(found.value.amount, actual))
         else Settles(st.hist, key)) &&
      PendingSum(st'.leases, key) == PendingSum(st.leases, key) - Amount(st.leases[id].tokens, key)
  {
    var tokens, st' := st.leases[id].tokens, Close(ttl, st, id, state, now, actual);
    SettleAt(l, st, tokens, now, actual, key);
    SettleFrame(l, st, tokens, now, actual);
    ClosedHist(ttl, st, id, state, now, actual, key);
    hide Close, SettleTokens, View, AllSliding, SettledCounter;
    SumUpdate(st.leases, id, st'.leases[id], key);
  }

  /** The token counter of a settled lease, given the parts above. */
  lemma {:induction false} CloseToken(l: Limiter, k: CounterKey, c: Counter, settled: seq<TokenEvent>, owed: int,
                                      now: int, tokens: seq<TokenReservation>,
                                      actual: int, key: string)
    requires TokenOk(l, k, c, settled, owed, now) && TokensInScope(l, tokens) && FindToken(tokens, key).Some? &&
      Amount(tokens, key) <= owed
    requires c.window == RateOf(l, k).window >= 0
    ensures TokenOk(l, k, SettledCounter(c, now, Amount(tokens, key), actual),
                    SettledBy(settled, now, Charge(Amount(tokens, key), actual)),
                    owed - Amount(tokens, key), now)
    ensures TokenTight(l, k, settled, owed, now) && Modest(tokens, actual) ==>
      TokenTight(l, k, SettledBy(settled, now, Charge(Amount(tokens, key), actual)), owed - Amount(tokens, key), now)
  {
    var amount := Amount(tokens, key);
    var n := Charge(amount, actual);
    FoundAmount(l, tokens, key, actual);
    assert NonNegative(settled);
    hide TokenOk, SettledCounter, Amount, FindToken;
    SettleKeeps(l, k, c, settled, owed, now, amount, actual);
    if TokenTight(l, k, settled, owed, now) && Modest(tokens, actual) && n > 0 {
      SettleStaysTight(l, k, settled, owed, now, amount, n);
    }
  }

  lemma {:induction false} CloseKey(l: Limiter, ttl: Ttl, st: Store, id: string, state: LeaseState, now: int,
                                    actual: int, key: string)
    requires LeasesOk(l, st.leases) && AllSliding(l, st.counters) && KeyOk(l, st, now, key) && Configured(l)
    requires id in st.leases && st.leases[id].state.Pending? && !state.Pending?
    ensures KeyOk(l, Close(ttl, st, id, state, now, actual), now, key)
    ensures Tight(l, st, now, key) && Modest(st.leases[id].tokens, actual) ==>
      Tight(l, Close(ttl, st, id, state, now, actual), now, key)
  {
    var tokens, tk := st.leases[id].tokens, TokenKey(key);
    CloseParts(l, ttl, st, id, state, now, actual, key);
    SumCovers(l, st.leases, id, key);
    assert View(l, st.counters, tk).window == RateOf(l, tk).window >= 0;
    assert TokensInScope(l, tokens);
    hide Close, PendingSum, View, AllSliding, LeasesOk, TokensInScope, TokenOk, RequestOk, TokenTight, SettledCounter,
         SettledBy, Configured;
    if FindToken(tokens, key).Some? {
      CloseToken(l, tk, View(l, st.counters, tk), Settles(st.hist, key), PendingSum(st.leases, key), now, tokens,
                 actual, key);
    }
  }

  lemma {:induction false} ClosedHist(ttl: Ttl, st: Store, id: string, state: LeaseState, now: int, actual: int,
                                      key: string)
    requires id in st.leases && SettleTokens(st, st.leases[id].tokens, now, actual).leases == st.leases
    ensures var st' := Close(ttl, st, id, state, now, actual);
      var settled := SettleTokens(st, st.leases[id].tokens, now, actual);
      st'.counters == settled.counters && Settles(st'.hist, key) == Settles(settled.hist, key) &&
      Admits(st'.hist, key) == Admits(settled.hist, key) &&
      id in st'.leases && st'.leases == st.leases[id := st'.leases[id]] && st'.leases[id].state == state &&
      st'.leases[id].tokens == st.leases[id].tokens &&
      st'.hist.admissions == settled.hist.admissions && st'.hist.settlements == settled.hist.settlements + multiset{id}
  {
  }

  lemma {:induction false} CloseInv(l: Limiter, ttl: Ttl, st: Store, id: string, state: LeaseState, now: int,
                                    actual: int)
    requires Inv(l, st, now) && Configured(l) && id in st.leases && st.leases[id].state.Pending? && !state.Pending?
    ensures Inv(l, Close(ttl, st, id, state, now, actual), now)
    ensures InvTight(l, st, now) && Modest(st.leases[id].tokens, actual) ==>
      InvTight(l, Close(ttl, st, id, state, now, actual), now)
  {
    var st' := Close(ttl, st, id, state, now, actual);
    InvSliding(l, st, now);
    SettleFrame(l, st, st.leases[id].tokens, now, actual);
    ClosedHist(ttl, st, id, state, now, actual, "");
    hide Close, SettleTokens, KeyOk, Tight, AllSliding;
    forall key ensures KeyOk(l, st', now, key) {
      assert KeyOk(l, st, now, key);
      CloseKey(l, ttl, st, id, state, now, actual, key);
    }
    forall x ensures Balanced(st', x) { assert Balanced(st, x); }
    if InvTight(l, st, now) && Modest(st.leases[id].tokens, actual) {
      forall key ensures Tight(l, st', now, key) {
        assert KeyOk(l, st, now, key) && Tight(l, st, now, key);
        CloseKey(l, ttl, st, id, state, now, actual, key);
      }
    }
  }

  lemma {:induction false} ForgetInv(l: Limiter, st: Store, id: string, now: int)
    requires Inv(l, st, now)
    ensures Inv(l, Forget(st, id, now), now) && (InvTight(l, st, now) ==> InvTight(l, Forget(st, id, now), now))
  {
    var st' := Forget(st, id, now);
    if st' != st {
      hide RequestOk, TokenOk, TokenTight;
      forall key ensures KeyOk(l, st', now, key) && (InvTight(l, st, now) ==> Tight(l, st', now, key)) {
        assert KeyOk(l, st, now, key) && (InvTight(l, st, now) ==> Tight(l, st, now, key));
        SumForget(st.leases, id, key);
      }
      forall x ensures Balanced(st', x) { assert Balanced(st, x); }
    }
  }

  lemma {:induction false} CleanOneInv(l: Limiter, ttl: Ttl, st: Store, id: string, now: int)
    requires Inv(l, st, now) && Configured(l)
    ensures Inv(l, CleanOne(ttl, st, id, now), now) &&
      (InvTight(l, st, now) ==> InvTight(l, CleanOne(ttl, st, id, now), now))
  {
    hide Inv, InvTight, Close, Forget;
    if id in st.leases && st.leases[id].state.Pending? && now >= st.leases[id].pendingUntil {
      CloseInv(l, ttl, st, id, Expired, now, -1);
      ForgetInv(l, Close(ttl, st, id, Expired, now, -1), id, now);
    } else {
      ForgetInv(l, st, id, now);
    }
  }

  lemma {:induction false} CleanInv(l: Limiter, ttl: Ttl, st: Store, order: seq<string>, now: int)
    requires Inv(l, st, now) && Configured(l)
    ensures Inv(l, Clean(ttl, st, order, now), now) &&
      (InvTight(l, st, now) ==> InvTight(l, Clean(ttl, st, order, now), now))
    decreases |order|
  {
    hide Inv, InvTight, CleanOne;
    if order != [] {
      CleanOneInv(l, ttl, st, order[0], now);
      CleanInv(l, ttl, CleanOne(ttl, st, order[0], now), order[1..], now);
    }
  }

  // ---- Granting a reservation -----------------------------------------------------------------------------------

  /** Room in every counter, measured against the full history. */
  ghost predicate HasRoom(l: Limiter, st: Store, r: Reservation, now: int, key: string) {
    (FindRequest(r.requests, key) ==>
      |TimesSince(Admits(st.hist, key), now - RateOf(l, RequestKey(key)).window)| < RateOf(l, RequestKey(key)).count) &&
    (FindToken(r.tokens, key).Some? ==>
      Total(EventsSince(Settles(st.hist, key), now - RateOf(l, TokenKey(key)).window)) +
      PendingSum(st.leases, key) + Amount(r.tokens, key) <= RateOf(l, TokenKey(key)).count)
  }

  lemma {:induction false} GrantedParts(l: Limiter, ttl: Ttl, st: Store, r: Reservation, now: int, key: string)
    requires AllSliding(l, st.counters) && InScope(l, r)
    ensures var st' := Granted(ttl, st, r, now);
      View(l, st'.counters, RequestKey(key)) ==
        (if FindRequest(r.requests, key) then AddRequest(View(l, st.counters, RequestKey(key)), now)
         else View(l, st.counters, RequestKey(key))) &&
      Admits(st'.hist, key) ==
        (if FindRequest(r.requests, key) then Admits(st.hist, key) + [now] else Admits(st.hist, key)) &&
      View(l, st'.counters, TokenKey(key)) ==
        (var c := View(l, st.counters, TokenKey(key)); c.(reserved := c.reserved + Amount(r.tokens, key))) &&
      Settles(st'.hist, key) == Settles(st.hist, key) && st'.leases == st.leases[r.id := NewLease(ttl, r, now)] &&
      st'.hist.settlements == st.hist.settlements && st'.hist.admissions == st.hist.admissions + multiset{r.id}
  {
    var charged := ChargeRequests(st, r.requests, now);
    ChargeAt(l, st, r.requests, now, key);
    ReserveAt(l, charged.counters, r.tokens, key);
  }

  lemma {:induction false} ReserveMore(l: Limiter, k: CounterKey, c: Counter, settled: seq<TokenEvent>, owed: int,
                                       now: int, amount: int)
    requires TokenOk(l, k, c, settled, owed, now)
    ensures TokenOk(l, k, c.(reserved := c.reserved + amount), settled, owed + amount, now)
  {
  }

  lemma {:induction false} TightMore(l: Limiter, k: CounterKey, settled: seq<TokenEvent>, owed: int, now: int,
                                     amount: int)
    requires TokenTight(l, k, settled, owed, now) &&
      Total(EventsSince(settled, now - RateOf(l, k).window)) + owed + amount <= RateOf(l, k).count
    ensures TokenTight(l, k, settled, owed + amount, now)
  {
  }

  lemma {:induction false} GrantedRequests(l: Limiter, ttl: Ttl, st: Store, r: Reservation, now: int, key: string)
    requires AllSliding(l, st.counters) && InScope(l, r) && Configured(l) && KeyOk(l, st, now, key) &&
      HasRoom(l, st, r, now, key)
    ensures var st' := Granted(ttl, st, r, now);
      RequestOk(l, RequestKey(key), View(l, st'.counters, RequestKey(key)), Admits(st'.hist, key), now)
  {
    var rk := RequestKey(key);
    GrantedParts(l, ttl, st, r, now, key);
    if FindRequest(r.requests, key) {
      assert View(l, st.counters, rk).window == RateOf(l, rk).window >= 0;
      hide RequestOk, TokenOk, Granted, View, AllSliding, InScope, AddRequest;
      AdmitKeeps(l, rk, View(l, st.counters, rk), Admits(st.hist, key), now);
    } else {
      hide *;
    }
  }

  lemma {:induction false} GrantedTokens(l: Limiter, ttl: Ttl, st: Store, r: Reservation, now: int, key: string)
    requires AllSliding(l, st.counters) && InScope(l, r) && r.id !in st.leases && KeyOk(l, st, now, key) &&
      HasRoom(l, st, r, now, key)
    ensures var st', tk := Granted(ttl, st, r, now), TokenKey(key);
      TokenOk(l, tk, View(l, st'.counters, tk), Settles(st'.hist, key), PendingSum(st'.leases, key), now) &&
      (Tight(l, st, now, key) ==> Tight(l, st', now, key))
  {
    var tk, owed, more := TokenKey(key), PendingSum(st.leases, key), Amount(r.tokens, key);
    GrantedParts(l, ttl, st, r, now, key);
    SumUpdate(st.leases, r.id, NewLease(ttl, r, now), key);
    assert PendingSum(Granted(ttl, st, r, now).leases, key) == owed + more;
    hide Granted, PendingSum, View, AllSliding, InScope, TokenOk, RequestOk, TokenTight;
    ReserveMore(l, tk, View(l, st.counters, tk), Settles(st.hist, key), owed, now, more);
    if Tight(l, st, now, key) && FindToken(r.tokens, key).Some? {
      TightMore(l, tk, Settles(st.hist, key), owed, now, more);
    }
  }

  lemma {:induction false} GrantedKey(l: Limiter, ttl: Ttl, st: Store, r: Reservation, now: int, key: string)
    requires AllSliding(l, st.counters) && InScope(l, r) && Configured(l) && r.id !in st.leases &&
      KeyOk(l, st, now, key) && HasRoom(l, st, r, now, key)
    ensures KeyOk(l, Granted(ttl, st, r, now), now, key) &&
      (Tight(l, st, now, key) ==> Tight(l, Granted(ttl, st, r, now), now, key))
  {
    GrantedRequests(l, ttl, st, r, now, key);
    GrantedTokens(l, ttl, st, r, now, key);
  }

  lemma {:induction false} GrantedInv(l: Limiter, ttl: Ttl, st: Store, r: Reservation, now: int)
    requires Inv(l, st, now) && InScope(l, r) && Configured(l) && r.id !in st.leases &&
      forall key :: HasRoom(l, st, r, now, key)
    ensures Inv(l, Granted(ttl, st, r, now), now) &&
      (InvTight(l, st, now) ==> InvTight(l, Granted(ttl, st, r, now), now))
  {
    var st' := Granted(ttl, st, r, now);
    InvSliding(l, st, now);
    GrantedParts(l, ttl, st, r, now, "");
    hide Granted, KeyOk, Tight, AllSliding, HasRoom;
    forall key ensures KeyOk(l, st', now, key) && (InvTight(l, st, now) ==> Tight(l, st', now, key)) {
      assert KeyOk(l, st, now, key) && HasRoom(l, st, r, now, key) && (InvTight(l, st, now) ==> Tight(l, st, now, key));
      GrantedKey(l, ttl, st, r, now, key);
    }
    forall x ensures Balanced(st', x) { assert Balanced(st, x); }
  }

  lemma {:induction false} RequestRoom(l: Limiter, st: Store, rs: seq<RequestCounter>, now: int, key: string)
    requires KeyOk(l, st, now, key) && RequestsInScope(l, rs) && FindRequest(rs, key)
    requires forall i | 0 <= i < |rs| ::
      |Pruned(View(l, st.counters, RequestKey(rs[i].key)), now).requests| < rs[i].limit
    ensures var rate := RateOf(l, RequestKey(key));
      |TimesSince(Admits(st.hist, key), now - rate.window)| < rate.count
  {
    if rs[0].key == key {
      PruneKeepsRequests(l, RequestKey(key), View(l, st.counters, RequestKey(key)), Admits(st.hist, key), now);
      assert Rate(rs[0].limit, rs[0].window) == RateOf(l, RequestKey(key));
    } else {
      RequestTail(l, rs);
      assert forall i | 0 <= i < |rs[1..]| :: rs[1..][i] == rs[i + 1];
      RequestRoom(l, st, rs[1..], now, key);
    }
  }

  lemma {:induction false} TokenRoom(l: Limiter, st: Store, rs: seq<TokenReservation>, now: int, key: string)
    requires KeyOk(l, st, now, key) && TokensInScope(l, rs) && FindToken(rs, key).Some?
    requires forall i | 0 <= i < |rs| ::
      var c := Pruned(View(l, st.counters, TokenKey(rs[i].key)), now);
      Total(c.tokens) + c.reserved + rs[i].amount <= rs[i].limit
    ensures var rate := RateOf(l, TokenKey(key));
      Total(EventsSince(Settles(st.hist, key), now - rate.window)) + PendingSum(st.leases, key) + Amount(rs, key) <=
      rate.count
  {
    if rs[0].key == key {
      PruneKeepsTokens(l, TokenKey(key), View(l, st.counters, TokenKey(key)), Settles(st.hist, key),
                       PendingSum(st.leases, key), now);
      assert Rate(rs[0].limit, rs[0].window) == RateOf(l, TokenKey(key));
    } else {
      ScopeTail(l, rs);
      assert forall i | 0 <= i < |rs[1..]| :: rs[1..][i] == rs[i + 1];
      TokenRoom(l, st, rs[1..], now, key);
    }
  }

  lemma {:induction false} AllHaveRoom(l: Limiter, st: Store, cs: map<CounterKey, Counter>, r: Reservation, now: int)
    requires Inv(l, st, now) && Inv(l, st.(counters := cs), now) && InScope(l, r)
    requires forall i | 0 <= i < |r.requests| ::
      |Pruned(View(l, st.counters, RequestKey(r.requests[i].key)), now).requests| < r.requests[i].limit
    requires forall i | 0 <= i < |r.tokens| ::
      var c := Pruned(View(l, cs, TokenKey(r.tokens[i].key)), now);
      Total(c.tokens) + c.reserved + r.tokens[i].amount <= r.tokens[i].limit
    ensures forall key :: HasRoom(l, st, r, now, key)
  {
    var st1 := st.(counters := cs);
    forall key ensures HasRoom(l, st, r, now, key) {
      assert KeyOk(l, st, now, key) && KeyOk(l, st1, now, key);
      hide KeyOk, Pruned, View, RequestsInScope, TokensInScope;
      if FindRequest(r.requests, key) { RequestRoom(l, st, r.requests, now, key); }
      if FindToken(r.tokens, key).Some? { TokenRoom(l, st1, r.tokens, now, key); }
    }
  }

  lemma {:induction false} RoomUnpruned(l: Limiter, st: Store, cs: map<CounterKey, Counter>, r: Reservation, now: int)
    requires forall key :: HasRoom(l, st, r, now, key)
    ensures forall key :: HasRoom(l, st.(counters := cs), r, now, key)
  {
    var st' := st.(counters := cs);
    forall key ensures HasRoom(l, st', r, now, key) { assert HasRoom(l, st, r, now, key); }
  }

  /** A reservation is granted only with room everywhere; otherwise nothing but pruning happens. */
  lemma {:induction false} ReserveCleanInv(l: Limiter, ttl: Ttl, st: Store, r: Reservation, now: int)
    requires Inv(l, st, now) && InScope(l, r) && Configured(l)
    ensures var st' := ReserveClean(ttl, st, r, now).0;
      Inv(l, st', now) && (InvTight(l, st, now) ==> InvTight(l, st', now))
  {
    hide Inv, InvTight, RequestsInScope, TokensInScope, OnlyPruned, AllSliding, Pruned, View, HasRoom, Granted,
         CheckRequests, CheckTokens;
    if r.id !in st.leases {
      InvSliding(l, st, now);
      CheckRequestsFacts(l, st.counters, r.requests, now);
      var (cs1, roomy) := CheckRequests(st.counters, r.requests, now);
      PruningKeeps(l, st, cs1, now);
      if roomy {
        CheckTokensFacts(l, cs1, r.tokens, now);
        var (cs2, fits) := CheckTokens(cs1, r.tokens, now);
        PruningKeeps(l, st.(counters := cs1), cs2, now);
        if fits {
          AllHaveRoom(l, st, cs1, r, now);
          RoomUnpruned(l, st, cs2, r, now);
          GrantedInv(l, ttl, st.(counters := cs2), r, now);
        }
      }
    }
  }

  // ---- Runs ---------------------------------------------------------------------------------------------------------

  datatype Op =
    | ReserveOp(r: Reservation)
    | CommitOp(id: string, actual: int)
    | ReleaseOp(id: string)

  /** `order` is the order in which the cleanup pass happens to visit the leases. */
  datatype Event = Event(op: Op, now: int, order: seq<string>)

  datatype System = System(st: Store, now: int)

  function After(ttl: Ttl, st: Store, e: Event): Store {
    match e.op
    case ReserveOp(r) => ReserveStep(ttl, st, r, e.now, e.order).0
    case CommitOp(id, actual) => FinishStep(ttl, st, id, Committed, if actual < 0 then 0 else actual, e.now, e.order).0
    case ReleaseOp(id) => FinishStep(ttl, st, id, Released, -1, e.now, e.order).0
  }

  ghost predicate Step(l: Limiter, ttl: Ttl, s: System, e: Event, s': System) {
    e.now >= s.now && (forall id :: id in e.order <==> id in s.st.leases) && (e.op.ReserveOp? ==> InScope(l, e.op.r)) &&
    s' == System(After(ttl, s.st, e), e.now)
  }

  /** A commit reports no more than the amounts that its lease reserved. */
  ghost predicate ModestStep(ttl: Ttl, s: System, e: Event) {
    e.op.CommitOp? ==>
      var st := Clean(ttl, s.st, e.order, e.now);
      e.op.id in st.leases && st.leases[e.op.id].state.Pending? ==> Modest(st.leases[e.op.id].tokens,
          if e.op.actual < 0 then 0 else e.op.actual)
  }

  ghost predicate IsRun(l: Limiter, ttl: Ttl, run: seq<System>, events: seq<Event>) {
    Configured(l) && |run| == |events| + 1 && run[0].st == Store(map[], map[], NO_HISTORY) &&
    forall i | 0 <= i < |events| :: Step(l, ttl, run[i], events[i], run[i + 1])
  }

  ghost predicate AllModest(ttl: Ttl, run: seq<System>, events: seq<Event>) {
    |run| == |events| + 1 && forall i | 0 <= i < |events| :: ModestStep(ttl, run[i], events[i])
  }

  lemma {:induction false} FinishCleanInv(l: Limiter, ttl: Ttl, st: Store, id: string, state: LeaseState, actual: int,
                                          now: int)
    requires Inv(l, st, now) && Configured(l) && !state.Pending?
    ensures var st' := FinishClean(ttl, st, id, state, actual, now).0;
      Inv(l, st', now) &&
      (InvTight(l, st, now) &&
       (id in st.leases && st.leases[id].state.Pending? ==> Modest(st.leases[id].tokens, actual)) ==>
       InvTight(l, st', now))
  {
    hide Inv, InvTight, Close;
    if id in st.leases && st.leases[id].state.Pending? {
      CloseInv(l, ttl, st, id, state, now, actual);
    }
  }

  lemma {:induction false} StepInv(l: Limiter, ttl: Ttl, s: System, e: Event, s': System)
    requires Inv(l, s.st, s.now) && Configured(l) && Step(l, ttl, s, e, s')
    ensures Inv(l, s'.st, s'.now) && (InvTight(l, s.st, s.now) && ModestStep(ttl, s, e) ==> InvTight(l, s'.st, s'.now))
  {
    hide Inv, InvTight, FinishClean, ReserveClean, Clean, Modest;
    InvLater(l, s.st, s.now, e.now);
    CleanInv(l, ttl, s.st, e.order, e.now);
    var clean := Clean(ttl, s.st, e.order, e.now);
    match e.op
    case ReserveOp(r) => ReserveCleanInv(l, ttl, clean, r, e.now);
    case CommitOp(id, actual) => FinishCleanInv(l, ttl, clean, id, Committed, if actual < 0 then 0 else actual, e.now);
    case ReleaseOp(id) =>
      FinishCleanInv(l, ttl, clean, id, Released, -1, e.now);
      if id in clean.leases { AtEstimate(clean.leases[id].tokens); }
  }

  /** Release and expiry charge exactly the reserved estimate. */
  lemma {:induction false} AtEstimate(tokens: seq<TokenReservation>)
    ensures Modest(tokens, -1)
  {
  }

  lemma {:induction false} StartInv(l: Limiter, now: int)
    requires Configured(l)
    ensures Inv(l, Store(map[], map[], NO_HISTORY), now) && InvTight(l, Store(map[], map[], NO_HISTORY), now)
  {
    var st := Store(map[], map[], NO_HISTORY);
    forall key ensures KeyOk(l, st, now, key) && Tight(l, st, now, key) {
      assert TimesSince([], now - RateOf(l, RequestKey(key)).window) == [];
      assert EventsSince([], now - RateOf(l, TokenKey(key)).window) == [];
      assert PendingSum(st.leases, key) == 0;
    }
  }

  lemma {:induction false} RunInv(l: Limiter, ttl: Ttl, run: seq<System>, events: seq<Event>, k: nat)
    requires IsRun(l, ttl, run, events) && k < |run|
    ensures Inv(l, run[k].st, run[k].now) && (AllModest(ttl, run, events) ==> InvTight(l, run[k].st, run[k].now))
  {
    hide Inv, InvTight, Step, ModestStep;
    if k == 0 {
      StartInv(l, run[0].now);
    } else {
      RunInv(l, ttl, run, events, k - 1);
      StepInv(l, ttl, run[k - 1], events[k - 1], run[k]);
    }
  }

  /** No closed interval of one window ever contains more admitted requests of a key than its limit. */
  lemma RequestSafety(l: Limiter, ttl: Ttl, run: seq<System>, events: seq<Event>, k: nat, key: string, from: int)
    requires IsRun(l, ttl, run, events) && k < |run|
    ensures var rate := RateOf(l, RequestKey(key));
      CountIn(Admits(run[k].st.hist, key), from, from + rate.window) <= rate.count
  {
    RunInv(l, ttl, run, events, k);
    hide IsRun;
    assert KeyOk(l, run[k].st, run[k].now, key);
    var rate := RateOf(l, RequestKey(key));
    assert RequestsWithin(Admits(run[k].st.hist, key), from, rate.window) <= rate.count;
  }

  /** What a token counter holds in reserve is exactly what its pending leases reserved. */
  lemma ReservedIsPending(l: Limiter, ttl: Ttl, run: seq<System>, events: seq<Event>, k: nat, key: string)
    requires IsRun(l, ttl, run, events) && k < |run|
    ensures View(l, run[k].st.counters, TokenKey(key)).reserved == PendingSum(run[k].st.leases, key)
    ensures forall id | id in run[k].st.leases && run[k].st.leases[id].state.Pending? ::
      0 <= Amount(run[k].st.leases[id].tokens, key) <= View(l, run[k].st.counters, TokenKey(key)).reserved
  {
    RunInv(l, ttl, run, events, k);
    hide IsRun;
    assert KeyOk(l, run[k].st, run[k].now, key);
    forall id | id in run[k].st.leases && run[k].st.leases[id].state.Pending?
      ensures 0 <= Amount(run[k].st.leases[id].tokens, key) <= PendingSum(run[k].st.leases, key)
    {
      SumCovers(l, run[k].st.leases, id, key);
    }
  }

  /** If commits report no more than was reserved, no closed window interval ever settles more tokens than the limit. */
  lemma TokenSafety(l: Limiter, ttl: Ttl, run: seq<System>, events: seq<Event>, k: nat, key: string, from: int)
    requires IsRun(l, ttl, run, events) && AllModest(ttl, run, events) && k < |run|
    ensures var rate := RateOf(l, TokenKey(key));
      SumIn(Settles(run[k].st.hist, key), from, from + rate.window) <= rate.count
  {
    RunInv(l, ttl, run, events, k);
    hide IsRun, AllModest, Inv;
    assert Tight(l, run[k].st, run[k].now, key);
    var rate := RateOf(l, TokenKey(key));
    assert TokensWithin(Settles(run[k].st.hist, key), from, rate.window) <= rate.count;
  }

  /** Every new lease is settled exactly once, by its commit, its release or its expiry, or is still pending. */
  lemma LeaseSettledOnce(l: Limiter, ttl: Ttl, run: seq<System>, events: seq<Event>, k: nat, id: string)
    requires IsRun(l, ttl, run, events) && k < |run|
    ensures run[k].st.hist.admissions[id] ==
      run[k].st.hist.settlements[id] + if id in run[k].st.leases && run[k].st.leases[id].state.Pending? then 1 else 0
  {
    RunInv(l, ttl, run, events, k);
    hide IsRun, KeyOk;
    assert Balanced(run[k].st, id);
  }
}
