/** Limiter safety. */
module RateSafety {
  import opened Messages
  import opened RateCounters
  import opened RateStore

  // What the sliding-window limiter sends to its store, and what that keeps within the limits.

  // ---- Scope: what the limiter sends to its store ------------------------------------------------

  datatype Rate = Rate(count: int, window: int)

  /** Per-key and global limits of one limiter with sliding windows; a missing limit has no counter. */
  datatype Limiter = Limiter(request: Option<Rate>, globalRequest: Option<Rate>, token: Option<Rate>,
                             globalToken: Option<Rate>)

  ghost predicate Configured(l: Limiter) {
    (l.request.Some? ==> l.request.value.count > 0 && l.request.value.window > 0) &&
    (l.globalRequest.Some? ==> l.globalRequest.value.count > 0 && l.globalRequest.value.window > 0) &&
    (l.token.Some? ==> l.token.value.count > 0 && l.token.value.window > 0) &&
    (l.globalToken.Some? ==> l.globalToken.value.count > 0 && l.globalToken.value.window > 0)
  }

  const GLOBAL: string := "global"

  function KeyFor(key: string): string { "key:" + key }

  function RequestFor(key: string, rate: Option<Rate>): seq<RequestCounter> {
    if rate.None? then [] else [RequestCounter(key, rate.value.count, rate.value.window, SlidingWindow)]
  }

  function TokensFor(key: string, rate: Option<Rate>, estimate: int): seq<TokenReservation> {
    if rate.None? then [] else [TokenReservation(key, rate.value.count, rate.value.window, SlidingWindow, estimate)]
  }

  /** The counters of one provider attempt. */
  function MakeReservation(l: Limiter, id: string, key: string, estimate: int): Reservation {
    Reservation(id, RequestFor(KeyFor(key), l.request) + RequestFor(GLOBAL, l.globalRequest),
                TokensFor(KeyFor(key), l.token, estimate) + TokensFor(GLOBAL, l.globalToken, estimate))
  }

  /** The limit that governs a counter. */
  function RateOf(l: Limiter, k: CounterKey): Rate {
    var r := match k
      case RequestKey(key) => if key == GLOBAL then l.globalRequest else l.request
      case TokenKey(key) => if key == GLOBAL then l.globalToken else l.token;
    if r.Some? then r.value else Rate(1, 1)
  }

  ghost predicate TokensInScope(l: Limiter, rs: seq<TokenReservation>) {
    (forall i, j | 0 <= i < j < |rs| :: rs[i].key != rs[j].key) &&
    forall i | 0 <= i < |rs| :: rs[i].strategy.SlidingWindow? &&
      Rate(rs[i].limit, rs[i].window) == RateOf(l, TokenKey(rs[i].key)) && rs[i].amount >= 0
  }

  ghost predicate RequestsInScope(l: Limiter, rs: seq<RequestCounter>) {
    (forall i, j | 0 <= i < j < |rs| :: rs[i].key != rs[j].key) &&
    forall i | 0 <= i < |rs| ::
      rs[i].strategy.SlidingWindow? && Rate(rs[i].limit, rs[i].window) == RateOf(l, RequestKey(rs[i].key))
  }

  ghost predicate InScope(l: Limiter, r: Reservation) { RequestsInScope(l, r.requests) && TokensInScope(l, r.tokens) }

  /** Counters of one reservation have distinct keys, and each key always comes with the same window and limit. */
  lemma LimiterStaysInScope(l: Limiter, id: string, key: string, estimate: int)
    requires estimate >= 0
    ensures InScope(l, MakeReservation(l, id, key, estimate))
  {
    assert KeyFor(key)[0] == 'k' && GLOBAL[0] == 'g';
  }

  /** Each configured limit has exactly one counter, with that limit and window; nothing else is counted. */
  lemma LimitsAreCounted(l: Limiter, id: string, key: string, estimate: int)
    ensures var r := MakeReservation(l, id, key, estimate);
      r.id == id &&
      (forall c :: c in r.requests <==>
        (l.request == Some(Rate(c.limit, c.window)) && c.key == "key:" + key && c.strategy.SlidingWindow?) ||
        (l.globalRequest == Some(Rate(c.limit, c.window)) && c.key == "global" && c.strategy.SlidingWindow?)) &&
      forall c :: c in r.tokens <==>
        c.amount == estimate && c.strategy.SlidingWindow? &&
        ((l.token == Some(Rate(c.limit, c.window)) && c.key == "key:" + key) ||
         (l.globalToken == Some(Rate(c.limit, c.window)) && c.key == "global"))
  {
    RequestForSays(KeyFor(key), l.request);
    RequestForSays(GLOBAL, l.globalRequest);
    TokensForSays(KeyFor(key), l.token, estimate);
    TokensForSays(GLOBAL, l.globalToken, estimate);
    hide RequestFor, TokensFor;
  }

  lemma RequestForSays(key: string, rate: Option<Rate>)
    ensures forall c :: c in RequestFor(key, rate) <==>
      rate == Some(Rate(c.limit, c.window)) && c.key == key && c.strategy.SlidingWindow?
  {
  }

  lemma TokensForSays(key: string, rate: Option<Rate>, estimate: int)
    ensures forall c :: c in TokensFor(key, rate, estimate) <==>
      rate == Some(Rate(c.limit, c.window)) && c.key == key && c.strategy.SlidingWindow? && c.amount == estimate
  {
  }

  // ---- One counter and its history --------------------------------------------------------------------

  ghost function View(l: Limiter, cs: map<CounterKey, Counter>, k: CounterKey): Counter {
    CounterOf(cs, k, SlidingWindow, RateOf(l, k).window)
  }

  ghost predicate Sliding(l: Limiter, k: CounterKey, c: Counter) {
    c.strategy.SlidingWindow? && c.window == RateOf(l, k).window
  }

  ghost predicate TimesPruned(kept: seq<int>, all: seq<int>, latest: int) {
    exists cut: int :: cut <= latest && kept == TimesSince(all, cut)
  }

  ghost predicate EventsPruned(kept: seq<TokenEvent>, all: seq<TokenEvent>, latest: int) {
    exists cut: int :: cut <= latest && kept == EventsSince(all, cut)
  }

  /** No closed interval of one window holds more admitted requests than the limit. */
  ghost predicate RequestBound(rate: Rate, admitted: seq<int>) {
    forall from :: RequestsWithin(admitted, from, rate.window) <= rate.count
  }

  ghost predicate TokenBound(rate: Rate, settled: seq<TokenEvent>) {
    forall from :: TokensWithin(settled, from, rate.window) <= rate.count
  }

  /** Admissions in the closed interval from `from` to `from + window`. */
  function RequestsWithin(admitted: seq<int>, from: int, window: int): nat { CountIn(admitted, from, from + window) }

  function TokensWithin(settled: seq<TokenEvent>, from: int, window: int): int { SumIn(settled, from, from + window) }

  ghost predicate RequestOk(l: Limiter, k: CounterKey, c: Counter, admitted: seq<int>, now: int) {
    Sliding(l, k, c) && TimesPruned(c.requests, admitted, now - c.window) &&
    (forall i | 0 <= i < |admitted| :: admitted[i] <= now) &&
    RequestBound(RateOf(l, k), admitted)
  }

  ghost predicate TokenOk(l: Limiter, k: CounterKey, c: Counter, settled: seq<TokenEvent>, owed: int, now: int) {
    Sliding(l, k, c) && EventsPruned(c.tokens, settled, now - c.window) && NonNegative(settled) &&
    (forall i | 0 <= i < |settled| :: settled[i].at <= now) && c.reserved == owed
  }

  /** What is settled in the current window plus what is still reserved stays within the limit. */
  ghost predicate TokenTight(l: Limiter, k: CounterKey, settled: seq<TokenEvent>, owed: int, now: int) {
    Total(EventsSince(settled, now - RateOf(l, k).window)) + owed <= RateOf(l, k).count &&
    TokenBound(RateOf(l, k), settled)
  }

  lemma {:induction false} TimeMoves(l: Limiter, k: CounterKey, c: Counter, admitted: seq<int>,
                                     settled: seq<TokenEvent>, owed: int, now: int, later: int)
    requires now <= later
    ensures RequestOk(l, k, c, admitted, now) ==> RequestOk(l, k, c, admitted, later)
    ensures TokenOk(l, k, c, settled, owed, now) ==> TokenOk(l, k, c, settled, owed, later)
    ensures NonNegative(settled) && TokenTight(l, k, settled, owed, now) ==> TokenTight(l, k, settled, owed, later)
  {
    if NonNegative(settled) {
      SinceShrinks(settled, now - RateOf(l, k).window, later - RateOf(l, k).window);
    }
  }

  lemma {:induction false} PruneKeepsRequests(l: Limiter, k: CounterKey, c: Counter, admitted: seq<int>, now: int)
    requires RequestOk(l, k, c, admitted, now)
    ensures RequestOk(l, k, Pruned(c, now), admitted, now) &&
      Pruned(c, now).requests == TimesSince(admitted, now - c.window)
  {
    var cut: int :| cut <= now - c.window && c.requests == TimesSince(admitted, cut);
    TimesSinceTwice(admitted, cut, now - c.window);
  }

  lemma {:induction false} PruneKeepsTokens(l: Limiter, k: CounterKey, c: Counter, settled: seq<TokenEvent>, owed: int,
                                            now: int)
    requires TokenOk(l, k, c, settled, owed, now)
    ensures TokenOk(l, k, Pruned(c, now), settled, owed, now) &&
      Pruned(c, now).tokens == EventsSince(settled, now - c.window)
  {
    var cut: int :| cut <= now - c.window && c.tokens == EventsSince(settled, cut);
    EventsSinceTwice(settled, cut, now - c.window);
  }

  /** One admission into a counter with room keeps every interval within the limit. */
  lemma {:induction false} AdmitKeeps(l: Limiter, k: CounterKey, c: Counter, admitted: seq<int>, now: int)
    requires RequestOk(l, k, c, admitted, now) && |TimesSince(admitted, now - c.window)| < RateOf(l, k).count &&
      c.window >= 0
    ensures RequestOk(l, k, AddRequest(c, now), admitted + [now], now)
  {
    var rate, more := RateOf(l, k), admitted + [now];
    var cut: int :| cut <= now - c.window && c.requests == TimesSince(admitted, cut);
    TimesSinceSnoc(admitted, now, cut);
    forall from ensures RequestsWithin(more, from, rate.window) <= rate.count {
      assert RequestsWithin(admitted, from, rate.window) <= rate.count;
      CountSnoc(admitted, now, from, from + rate.window);
      if from <= now <= from + rate.window {
        CountBound(admitted, now - rate.window, from, from + rate.window);
      }
    }
  }

  lemma {:induction false} ChargeKeeps(l: Limiter, k: CounterKey, c: Counter, settled: seq<TokenEvent>, owed: int,
                                       now: int, n: int)
    requires TokenOk(l, k, c, settled, owed, now) && n > 0 && c.window >= 0
    ensures TokenOk(l, k, AddTokens(c, now, n), settled + [TokenEvent(now, n)], owed, now)
  {
    var cut: int :| cut <= now - c.window && c.tokens == EventsSince(settled, cut);
    EventsSinceSnoc(settled, TokenEvent(now, n), cut);
  }

  /** One settlement frees its reservation and charges what was used. */
  lemma {:induction false} SettleKeeps(l: Limiter, k: CounterKey, c: Counter, settled: seq<TokenEvent>, owed: int,
                                       now: int, amount: int, actual: int)
    requires TokenOk(l, k, c, settled, owed, now) && 0 <= amount <= owed && c.window >= 0
    ensures var n := Charge(amount, actual);
      TokenOk(l, k, SettledCounter(c, now, amount, actual),
              if n <= 0 then settled else settled + [TokenEvent(now, n)], owed - amount, now)
  {
    PruneKeepsTokens(l, k, c, settled, owed, now);
    var n, p := Charge(amount, actual), Unreserved(Pruned(c, now), amount);
    hide Pruned;
    assert TokenOk(l, k, p, settled, owed - amount, now);
    if n > 0 { ChargeKeeps(l, k, p, settled, owed - amount, now, n); }
  }

  lemma {:induction false} WithinAfterSettle(settled: seq<TokenEvent>, now: int, n: int, from: int, rate: Rate)
    requires NonNegative(settled) && n > 0 && TokensWithin(settled, from, rate.window) <= rate.count
    requires Total(EventsSince(settled, now - rate.window)) + n <= rate.count
    ensures TokensWithin(settled + [TokenEvent(now, n)], from, rate.window) <= rate.count
  {
    SumSnoc(settled, TokenEvent(now, n), from, from + rate.window);
    if from <= now <= from + rate.window {
      SumBound(settled, now - rate.window, from, from + rate.window);
    }
  }

  /** A settlement that charges no more than it reserved stays within the limit. */
  lemma {:induction false} SettleStaysTight(l: Limiter, k: CounterKey, settled: seq<TokenEvent>, owed: int, now: int,
                                            amount: int, n: int)
    requires NonNegative(settled) && TokenTight(l, k, settled, owed, now) && 0 < n <= amount <= owed &&
      RateOf(l, k).window >= 0
    ensures TokenTight(l, k, settled + [TokenEvent(now, n)], owed - amount, now)
  {
    var rate, e := RateOf(l, k), TokenEvent(now, n);
    EventsSinceSnoc(settled, e, now - rate.window);
    TotalSnoc(EventsSince(settled, now - rate.window), e);
    hide Total, EventsSince, TokensWithin;
    forall from ensures TokensWithin(settled + [e], from, rate.window) <= rate.count {
      WithinAfterSettle(settled, now, n, from, rate);
    }
  }

  // ---- What pending leases still owe ---------------------------------------------------------------------

  function FindToken(rs: seq<TokenReservation>, key: string): Option<TokenReservation> {
    if rs == [] then None else if rs[0].key == key then Some(rs[0]) else FindToken(rs[1..], key)
  }

  function Amount(rs: seq<TokenReservation>, key: string): int {
    if FindToken(rs, key).Some? then FindToken(rs, key).value.amount else 0
  }

  function Owed(leases: map<string, Lease>, id: string, key: string): int {
    if id in leases && leases[id].state.Pending? then Amount(leases[id].tokens, key) else 0
  }

  ghost function OwedBy(leases: map<string, Lease>, ids: set<string>, key: string): int
    decreases |ids|
  {
    if ids == {} then 0 else var id :| id in ids; Owed(leases, id, key) + OwedBy(leases, ids - {id}, key)
  }

  /** Sum of the amounts that pending leases hold in a token counter. */
  ghost function PendingSum(leases: map<string, Lease>, key: string): int { OwedBy(leases, leases.Keys, key) }

  lemma {:induction false} OwedSplit(leases: map<string, Lease>, ids: set<string>, key: string, x: string)
    requires x in ids
    ensures OwedBy(leases, ids, key) == Owed(leases, x, key) + OwedBy(leases, ids - {x}, key)
    decreases |ids|
  {
    var id :| id in ids && OwedBy(leases, ids, key) == Owed(leases, id, key) + OwedBy(leases, ids - {id}, key);
    if id != x {
      OwedSplit(leases, ids - {id}, key, x);
      OwedSplit(leases, ids - {x}, key, id);
      assert ids - {id} - {x} == ids - {x} - {id};
    }
  }

  lemma {:induction false} OwedAgree(a: map<string, Lease>, b: map<string, Lease>, ids: set<string>, key: string)
    requires forall id | id in ids :: Owed(a, id, key) == Owed(b, id, key)
    ensures OwedBy(a, ids, key) == OwedBy(b, ids, key)
    decreases |ids|
  {
    if ids != {} {
      var id :| id in ids && OwedBy(a, ids, key) == Owed(a, id, key) + OwedBy(a, ids - {id}, key);
      OwedAgree(a, b, ids - {id}, key);
      OwedSplit(b, ids, key, id);
    }
  }

  /** Replacing or adding one lease changes the sum by what that lease owes. */
  lemma {:induction false} SumUpdate(leases: map<string, Lease>, id: string, lease: Lease, key: string)
    ensures PendingSum(leases[id := lease], key) ==
      PendingSum(leases, key) - Owed(leases, id, key) + Owed(leases[id := lease], id, key)
  {
    var next := leases[id := lease];
    OwedSplit(next, next.Keys, key, id);
    assert next.Keys - {id} == leases.Keys - {id};
    OwedAgree(next, leases, leases.Keys - {id}, key);
    if id in leases {
      OwedSplit(leases, leases.Keys, key, id);
    } else {
      assert leases.Keys - {id} == leases.Keys;
    }
  }

  lemma {:induction false} SumForget(leases: map<string, Lease>, id: string, key: string)
    requires id in leases && !leases[id].state.Pending?
    ensures PendingSum(leases - {id}, key) == PendingSum(leases, key)
  {
    OwedSplit(leases, leases.Keys, key, id);
    assert (leases - {id}).Keys == leases.Keys - {id};
    OwedAgree(leases - {id}, leases, leases.Keys - {id}, key);
  }

  ghost predicate LeasesOk(l: Limiter, leases: map<string, Lease>) {
    forall id | id in leases :: TokensInScope(l, leases[id].tokens)
  }

  lemma {:induction false} AmountNonNegative(l: Limiter, rs: seq<TokenReservation>, key: string)
    requires TokensInScope(l, rs)
    ensures Amount(rs, key) >= 0
  {
    if rs != [] && rs[0].key != key { AmountNonNegative(l, rs[1..], key); }
  }

  lemma {:induction false} OwedNonNegative(l: Limiter, leases: map<string, Lease>, ids: set<string>, key: string)
    requires LeasesOk(l, leases)
    ensures OwedBy(leases, ids, key) >= 0
    decreases |ids|
  {
    if ids != {} {
      var id :| id in ids && OwedBy(leases, ids, key) == Owed(leases, id, key) + OwedBy(leases, ids - {id}, key);
      OwedNonNegative(l, leases, ids - {id}, key);
      if id in leases { AmountNonNegative(l, leases[id].tokens, key); }
      assert Owed(leases, id, key) >= 0;
    }
  }

  /** The reserved total covers the amount of each pending lease, so the clamp at zero never fires. */
  lemma {:induction false} SumCovers(l: Limiter, leases: map<string, Lease>, id: string, key: string)
    requires LeasesOk(l, leases) && id in leases && leases[id].state.Pending?
    ensures 0 <= Amount(leases[id].tokens, key) <= PendingSum(leases, key)
  {
    OwedSplit(leases, leases.Keys, key, id);
    OwedNonNegative(l, leases, leases.Keys - {id}, key);
    AmountNonNegative(l, leases[id].tokens, key);
  }

  // ---- Effect of the folds on one counter ------------------------------------------------------------------

  /** `cs'` differs from `cs` at most by pruning at `now`. */
  ghost predicate OnlyPruned(l: Limiter, cs: map<CounterKey, Counter>, cs': map<CounterKey, Counter>, now: int) {
    forall k :: View(l, cs', k) == View(l, cs, k) || View(l, cs', k) == Pruned(View(l, cs, k), now)
  }

  ghost predicate AllSliding(l: Limiter, cs: map<CounterKey, Counter>) { forall k :: Sliding(l, k, View(l, cs, k)) }

  lemma {:induction false} PrunedTwice(c: Counter, now: int)
    requires c.strategy.SlidingWindow?
    ensures Pruned(Pruned(c, now), now) == Pruned(c, now)
  {
    TimesSinceTwice(c.requests, now - c.window, now - c.window);
    EventsSinceTwice(c.tokens, now - c.window, now - c.window);
  }

  lemma {:induction false} OnePrune(l: Limiter, cs: map<CounterKey, Counter>, k: CounterKey, now: int)
    requires AllSliding(l, cs)
    ensures var cs' := cs[k := Pruned(View(l, cs, k), now)]; OnlyPruned(l, cs, cs', now) && AllSliding(l, cs')
  {
  }

  lemma {:induction false} PruneChain(l: Limiter, a: map<CounterKey, Counter>, b: map<CounterKey, Counter>,
                                      c: map<CounterKey, Counter>, now: int)
    requires OnlyPruned(l, a, b, now) && OnlyPruned(l, b, c, now) && AllSliding(l, a)
    ensures OnlyPruned(l, a, c, now)
  {
    hide Pruned, View;
    forall k ensures View(l, c, k) == View(l, a, k) || View(l, c, k) == Pruned(View(l, a, k), now) {
      assert Sliding(l, k, View(l, a, k));
      assert View(l, b, k) == View(l, a, k) || View(l, b, k) == Pruned(View(l, a, k), now);
      assert View(l, c, k) == View(l, b, k) || View(l, c, k) == Pruned(View(l, b, k), now);
      PrunedTwice(View(l, a, k), now);
    }
  }

  /** The request check only prunes, and it passes exactly when every counter has room. */
  lemma {:induction false} CheckRequestsFacts(l: Limiter, cs: map<CounterKey, Counter>, rs: seq<RequestCounter>,
                                              now: int)
    requires AllSliding(l, cs) && RequestsInScope(l, rs)
    ensures var (cs', ok) := CheckRequests(cs, rs, now);
      OnlyPruned(l, cs, cs', now) && AllSliding(l, cs') &&
      (ok <==> forall i | 0 <= i < |rs| :: |Pruned(View(l, cs, RequestKey(rs[i].key)), now).requests| < rs[i].limit)
    decreases |rs|
  {
    if rs != [] {
      var k := RequestKey(rs[0].key);
      var cs1 := cs[k := Pruned(View(l, cs, k), now)];
      OnePrune(l, cs, k, now);
      assert CounterOf(cs, k, rs[0].strategy, rs[0].window) == View(l, cs, k);
      CheckRequestsFacts(l, cs1, rs[1..], now);
      PruneChain(l, cs, cs1, CheckRequests(cs1, rs[1..], now).0, now);
      forall i | 1 <= i < |rs| ensures View(l, cs1, RequestKey(rs[i].key)) == View(l, cs, RequestKey(rs[i].key)) &&
        rs[i] == rs[1..][i - 1] {
        assert rs[0].key != rs[i].key;
      }
      hide OnlyPruned, AllSliding, View, Pruned, RequestsInScope;
    }
  }

  lemma {:induction false} CheckTokensFacts(l: Limiter, cs: map<CounterKey, Counter>, rs: seq<TokenReservation>,
                                            now: int)
    requires AllSliding(l, cs) && TokensInScope(l, rs)
    ensures var (cs', ok) := CheckTokens(cs, rs, now);
      OnlyPruned(l, cs, cs', now) && AllSliding(l, cs') &&
      (ok <==> forall i | 0 <= i < |rs| ::
        var c := Pruned(View(l, cs, TokenKey(rs[i].key)), now);
        Total(c.tokens) + c.reserved + rs[i].amount <= rs[i].limit)
    decreases |rs|
  {
    if rs != [] {
      var k := TokenKey(rs[0].key);
      var cs1 := cs[k := Pruned(View(l, cs, k), now)];
      OnePrune(l, cs, k, now);
      assert CounterOf(cs, k, rs[0].strategy, rs[0].window) == View(l, cs, k);
      CheckTokensFacts(l, cs1, rs[1..], now);
      PruneChain(l, cs, cs1, CheckTokens(cs1, rs[1..], now).0, now);
      forall i | 1 <= i < |rs|
        ensures View(l, cs1, TokenKey(rs[i].key)) == View(l, cs, TokenKey(rs[i].key)) && rs[i] == rs[1..][i - 1]
      {
        assert rs[0].key != rs[i].key;
      }
      hide OnlyPruned, AllSliding, View, Pruned, TokensInScope;
    }
  }
}
