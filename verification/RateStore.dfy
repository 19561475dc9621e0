/** The lease store. */
module RateStore {
  import opened Messages
  import opened RateCounters

  // Atomic multi-counter reservation, settlement and expiry of leases.

  datatype Strategy = SlidingWindow | FixedWindow

  datatype RequestCounter = RequestCounter(key: string, limit: int, window: int, strategy: Strategy)

  datatype TokenReservation = TokenReservation(key: string, limit: int, window: int, strategy: Strategy, amount: int)

  datatype Reservation = Reservation(id: string, requests: seq<RequestCounter>, tokens: seq<TokenReservation>)

  datatype LeaseState = Pending | Committed | Released | Expired

  datatype Lease = Lease(state: LeaseState, tokens: seq<TokenReservation>, window: int, pendingUntil: int,
                         terminalUntil: int)

  /** Request and token counters live under distinct prefixes of one map. */
  datatype CounterKey = RequestKey(key: string) | TokenKey(key: string)

  datatype Counter = Counter(
    strategy: Strategy, window: int, requests: seq<int>, tokens: seq<TokenEvent>, reserved: int,
    fixedStart: Option<int>, fixedRequests: int, fixedTokens: int)

  /** Everything that was ever admitted or settled. The store never reads it. */
  datatype History = History(
    admitted: map<string, seq<int>>,       // times of admitted requests, by key
    settled: map<string, seq<TokenEvent>>, // settled tokens, by key
    admissions: multiset<string>,          // lease IDs, once per new lease
    settlements: multiset<string>)         // lease IDs, once per commit, release or expiry

  datatype Store = Store(leases: map<string, Lease>, counters: map<CounterKey, Counter>, hist: History)

  datatype Ttl = Ttl(pending: int, terminal: int)

  datatype Reply = Admitted | Retained | Rejected | Invalid

  datatype LeaseError = LeaseUnknown | LeaseExpired | LeaseTerminal | LeaseCrossTerminal

  // ---- One counter ---------------------------------------------------------------------------

  function CounterOf(cs: map<CounterKey, Counter>, k: CounterKey, strategy: Strategy, window: int): Counter {
    if k in cs then cs[k] else Counter(strategy, window, [], [], 0, None, 0, 0)
  }

  function Pruned(c: Counter, now: int): Counter {
    if c.strategy.FixedWindow? then
      if c.fixedStart.None? || now - c.fixedStart.value >= c.window
      then c.(fixedStart := Some(now), fixedRequests := 0, fixedTokens := 0, reserved := 0) else c
    else c.(requests := TimesSince(c.requests, now - c.window), tokens := EventsSince(c.tokens, now - c.window))
  }

  function RequestCount(c: Counter): int { if c.strategy.FixedWindow? then c.fixedRequests else |c.requests| }

  function TokensUsed(c: Counter): int { if c.strategy.FixedWindow? then c.fixedTokens else Total(c.tokens) }

  function AddRequest(c: Counter, now: int): Counter {
    if c.strategy.FixedWindow? then c.(fixedRequests := c.fixedRequests + 1) else c.(requests := c.requests + [now])
  }

  function AddTokens(c: Counter, now: int, n: int): Counter {
    if n <= 0 then c
    else if c.strategy.FixedWindow? then c.(fixedTokens := c.fixedTokens + n)
    else c.(tokens := c.tokens + [TokenEvent(now, n)])
  }

  /** Tokens charged by a settlement; a negative actual stands for "at the reserved estimate". */
  function Charge(amount: int, actual: int): int { if actual < 0 then amount else actual }

  function Unreserved(c: Counter, amount: int): Counter {
    c.(reserved := if c.reserved - amount < 0 then 0 else c.reserved - amount)
  }

  function SettledCounter(c: Counter, now: int, amount: int, actual: int): Counter {
    AddTokens(Unreserved(Pruned(c, now), amount), now, Charge(amount, actual))
  }

  // ---- History -------------------------------------------------------------------------------

  function Admits(h: History, key: string): seq<int> { if key in h.admitted then h.admitted[key] else [] }

  function Settles(h: History, key: string): seq<TokenEvent> { if key in h.settled then h.settled[key] else [] }

  function Admit(h: History, key: string, now: int): History {
    h.(admitted := h.admitted[key := Admits(h, key) + [now]])
  }

  function Record(h: History, key: string, now: int, n: int): History {
    if n <= 0 then h else h.(settled := h.settled[key := Settles(h, key) + [TokenEvent(now, n)]])
  }

  // ---- Folds over the counters of a lease or reservation ------------------------------------------

  function SettledOne(st: Store, r: TokenReservation, now: int, actual: int): Store {
    var k := TokenKey(r.key);
    var c := SettledCounter(CounterOf(st.counters, k, r.strategy, r.window), now, r.amount, actual);
    st.(counters := st.counters[k := c], hist := Record(st.hist, r.key, now, Charge(r.amount, actual)))
  }

  function SettleTokens(st: Store, tokens: seq<TokenReservation>, now: int, actual: int): Store
    decreases |tokens|
  {
    if tokens == [] then st else SettleTokens(SettledOne(st, tokens[0], now, actual), tokens[1..], now, actual)
  }

  /** Room for one more request in every counter; counters are created and pruned up to the first refusal. */
  function CheckRequests(cs: map<CounterKey, Counter>, rs: seq<RequestCounter>, now: int)
    : (map<CounterKey, Counter>, bool)
    decreases |rs|
  {
    if rs == [] then (cs, true)
    else
      var k := RequestKey(rs[0].key);
      var c := Pruned(CounterOf(cs, k, rs[0].strategy, rs[0].window), now);
      if RequestCount(c) >= rs[0].limit then (cs[k := c], false) else CheckRequests(cs[k := c], rs[1..], now)
  }

  function CheckTokens(cs: map<CounterKey, Counter>, rs: seq<TokenReservation>, now: int)
    : (map<CounterKey, Counter>, bool)
    decreases |rs|
  {
    if rs == [] then (cs, true)
    else
      var k := TokenKey(rs[0].key);
      var c := Pruned(CounterOf(cs, k, rs[0].strategy, rs[0].window), now);
      if TokensUsed(c) + c.reserved + rs[0].amount > rs[0].limit then (cs[k := c], false)
      else CheckTokens(cs[k := c], rs[1..], now)
  }

  function ChargedOne(st: Store, r: RequestCounter, now: int): Store {
    var k := RequestKey(r.key);
    var c := AddRequest(CounterOf(st.counters, k, r.strategy, r.window), now);
    st.(counters := st.counters[k := c], hist := Admit(st.hist, r.key, now))
  }

  function ChargeRequests(st: Store, rs: seq<RequestCounter>, now: int): Store
    decreases |rs|
  {
    if rs == [] then st else ChargeRequests(ChargedOne(st, rs[0], now), rs[1..], now)
  }

  function ChargeTokens(cs: map<CounterKey, Counter>, rs: seq<TokenReservation>): map<CounterKey, Counter>
    decreases |rs|
  {
    if rs == [] then cs
    else
      var k := TokenKey(rs[0].key);
      var c := CounterOf(cs, k, rs[0].strategy, rs[0].window);
      ChargeTokens(cs[k := c.(reserved := c.reserved + rs[0].amount)], rs[1..])
  }

  // ---- Leases -----------------------------------------------------------------------------------------

  function Max(a: int, b: int): int { if a > b then a else b }

  function PendingTtl(ttl: Ttl, window: int): int { Max(2 * window, ttl.pending) }

  function TerminalTtl(ttl: Ttl, window: int): int { Max(window, ttl.terminal) }

  /** Settle a pending lease and move it to a terminal state. */
  function Close(ttl: Ttl, st: Store, id: string, state: LeaseState, now: int, actual: int): Store
    requires id in st.leases
  {
    var l := st.leases[id];
    var settled := SettleTokens(st, l.tokens, now, actual);
    settled.(leases := settled.leases[id := l.(state := state, terminalUntil := now + TerminalTtl(ttl, l.window))],
             hist := settled.hist.(settlements := settled.hist.settlements + multiset{id}))
  }

  function Forget(st: Store, id: string, now: int): Store {
    if id in st.leases && !st.leases[id].state.Pending? && now >= st.leases[id].terminalUntil
    then st.(leases := st.leases - {id}) else st
  }

  /** One lease of the cleanup pass: expire it when due, drop it once its retention has passed. */
  function CleanOne(ttl: Ttl, st: Store, id: string, now: int): Store {
    var due := id in st.leases && st.leases[id].state.Pending? && now >= st.leases[id].pendingUntil;
    Forget(if due then Close(ttl, st, id, Expired, now, -1) else st, id, now)
  }

  function Clean(ttl: Ttl, st: Store, order: seq<string>, now: int): Store
    decreases |order|
  {
    if order == [] then st else Clean(ttl, CleanOne(ttl, st, order[0], now), order[1..], now)
  }

  predicate ValidReservation(r: Reservation) {
    r.id != "" && (forall c | c in r.requests :: c.limit > 0 && c.window > 0) &&
    forall c | c in r.tokens :: c.limit > 0 && c.window > 0 && c.amount >= 0
  }

  function RequestWindow(rs: seq<RequestCounter>): int {
    if rs == [] then 0 else Max(RequestWindow(rs[..|rs| - 1]), rs[|rs| - 1].window)
  }

  function TokenWindow(w: int, rs: seq<TokenReservation>): int {
    if rs == [] then w else Max(TokenWindow(w, rs[..|rs| - 1]), rs[|rs| - 1].window)
  }

  function ReservationWindow(r: Reservation): int { TokenWindow(RequestWindow(r.requests), r.tokens) }

  function NewLease(ttl: Ttl, r: Reservation, now: int): Lease {
    var w := ReservationWindow(r);
    Lease(Pending, r.tokens, w, now + PendingTtl(ttl, w), now + TerminalTtl(ttl, w))
  }

  function Granted(ttl: Ttl, st: Store, r: Reservation, now: int): Store {
    var charged := ChargeRequests(st, r.requests, now);
    charged.(counters := ChargeTokens(charged.counters, r.tokens),
             leases := charged.leases[r.id := NewLease(ttl, r, now)],
             hist := charged.hist.(admissions := charged.hist.admissions + multiset{r.id}))
  }

  function ReserveClean(ttl: Ttl, st: Store, r: Reservation, now: int): (Store, Reply) {
    if r.id in st.leases then (st, Retained)
    else
      var (cs1, roomy) := CheckRequests(st.counters, r.requests, now);
      if !roomy then (st.(counters := cs1), Rejected)
      else
        var (cs2, fits) := CheckTokens(cs1, r.tokens, now);
        if !fits then (st.(counters := cs2), Rejected)
        else (Granted(ttl, st.(counters := cs2), r, now), Admitted)
  }

  function ReserveStep(ttl: Ttl, st: Store, r: Reservation, now: int, order: seq<string>): (Store, Reply) {
    if !ValidReservation(r) then (st, Invalid) else ReserveClean(ttl, Clean(ttl, st, order, now), r, now)
  }

  function TerminalError(state: LeaseState, requested: LeaseState): LeaseError {
    if state.Expired? then LeaseExpired else if state == requested then LeaseTerminal else LeaseCrossTerminal
  }

  function FinishClean(ttl: Ttl, st: Store, id: string, state: LeaseState, actual: int, now: int)
    : (Store, Option<LeaseError>)
  {
    if id !in st.leases then (st, Some(LeaseUnknown))
    else if !st.leases[id].state.Pending? then (st, Some(TerminalError(st.leases[id].state, state)))
    else (Close(ttl, st, id, state, now, actual), None)
  }

  /** Commit (state Committed, actual >= 0) or Release (state Released, actual < 0). */
  function FinishStep(ttl: Ttl, st: Store, id: string, state: LeaseState, actual: int, now: int,
                      order: seq<string>): (Store, Option<LeaseError>) {
    FinishClean(ttl, Clean(ttl, st, order, now), id, state, actual, now)
  }

  // ---- The store object --------------------------------------------------------------------------------------

  const NO_HISTORY := History(map[], map[], multiset{}, multiset{})

  class MemoryStore {
    const ttl: Ttl
    var leases: map<string, Lease>
    var counters: map<CounterKey, Counter>
    ghost var hist: History
    ghost var clock: int

    constructor (ttl: Ttl, ghost start: int)
      ensures Valid() && Contents() == Store(map[], map[], NO_HISTORY) && this.ttl == ttl && clock == start
    {
      this.ttl, leases, counters, hist, clock := ttl, map[], map[], NO_HISTORY, start;
    }

    ghost function Contents(): Store
      reads this
    {
      Store(leases, counters, hist)
    }

    /** Events are in the order of a clock that does not run backwards, so the binary search is exact. */
    ghost predicate Valid()
      reads this
    {
      forall k | k in counters :: CounterSorted(counters[k], clock)
    }

    /** prune of one counter, created when missing. */
    method Touch(k: CounterKey, strategy: Strategy, window: int, now: int)
      requires Valid() && now >= clock
      modifies this`counters, this`clock
      ensures Valid() && clock == now &&
        counters == old(counters)[k := Pruned(CounterOf(old(counters), k, strategy, window), now)]
    {
      hide CounterSorted, Pruned;
      FreshSorted(strategy, window, now);
      forall x | x in counters ensures CounterSorted(counters[x], now) { ClockMoves(counters[x], clock, now); }
      var c := PruneCounter(CounterOf(counters, k, strategy, window), now);
      clock := now;
      counters := counters[k := c];
    }

    /** Settlement of one token counter of a lease. */
    method SettleOne(r: TokenReservation, now: int, actual: int)
      requires Valid() && now >= clock
      modifies this`counters, this`clock, this`hist
      ensures Valid() && clock == now
      ensures var k := TokenKey(r.key);
        var before := CounterOf(old(counters), k, r.strategy, r.window);
        counters == old(counters)[k := SettledCounter(before, now, r.amount, actual)]
      ensures hist == Record(old(hist), r.key, now, Charge(r.amount, actual))
    {
      hide CounterSorted, Pruned, AddTokens, Unreserved;
      var k := TokenKey(r.key);
      Touch(k, r.strategy, r.window, now);
      var c := ReleaseAndCharge(counters[k], now, r.amount, actual);
      counters := counters[k := c];
      hist := Record(hist, r.key, now, Charge(r.amount, actual));
    }

    method Settle(tokens: seq<TokenReservation>, now: int, actual: int)
      requires Valid() && now >= clock
      modifies this`counters, this`clock, this`hist
      ensures Valid() && clock == (if tokens == [] then old(clock) else now)
      ensures Contents() == SettleTokens(old(Contents()), tokens, now, actual)
    {
      hide CounterSorted, SettledCounter, Record, Charge;
      var i := 0;
      while i < |tokens|
        invariant 0 <= i <= |tokens| && Valid() && clock == (if i == 0 then old(clock) else now)
        invariant leases == old(leases)
        invariant SettleTokens(Contents(), tokens[i..], now, actual) ==
          SettleTokens(old(Contents()), tokens, now, actual)
      {
        assert tokens[i..][1..] == tokens[i + 1..];
        SettleOne(tokens[i], now, actual);
        i := i + 1;
      }
    }

    method CloseLease(id: string, state: LeaseState, now: int, actual: int)
      requires Valid() && now >= clock && id in leases
      modifies this
      ensures Valid() && clock <= now && clock >= old(clock) &&
        Contents() == Close(ttl, old(Contents()), id, state, now, actual)
    {
      var l := leases[id];
      Settle(l.tokens, now, actual);
      leases := leases[id := l.(state := state, terminalUntil := now + TerminalTtl(ttl, l.window))];
      hist := hist.(settlements := hist.settlements + multiset{id});
    }

    /** cleanup visits every lease once, in an order the caller does not control. */
    method Cleanup(now: int, order: seq<string>)
      requires Valid() && now >= clock
      modifies this
      ensures Valid() && clock <= now && clock >= old(clock) && Contents() == Clean(ttl, old(Contents()), order, now)
    {
      var i := 0;
      while i < |order|
        invariant 0 <= i <= |order| && Valid() && old(clock) <= clock <= now
        invariant Clean(ttl, Contents(), order[i..], now) == Clean(ttl, old(Contents()), order, now)
      {
        var id := order[i];
        assert order[i..][1..] == order[i + 1..];
        if id in leases {
          if leases[id].state.Pending? && now >= leases[id].pendingUntil {
            CloseLease(id, Expired, now, -1);
          }
          if !leases[id].state.Pending? && now >= leases[id].terminalUntil {
            leases := leases - {id};
          }
        }
        i := i + 1;
      }
    }

    method RequestsFit(rs: seq<RequestCounter>, now: int) returns (ok: bool)
      requires Valid() && now >= clock
      modifies this`counters, this`clock
      ensures Valid() && old(clock) <= clock <= now && (counters, ok) == CheckRequests(old(counters), rs, now)
    {
      var i := 0;
      while i < |rs|
        invariant 0 <= i <= |rs| && Valid() && old(clock) <= clock <= now
        invariant CheckRequests(counters, rs[i..], now) == CheckRequests(old(counters), rs, now)
      {
        assert rs[i..][1..] == rs[i + 1..];
        var k := RequestKey(rs[i].key);
        Touch(k, rs[i].strategy, rs[i].window, now);
        if RequestCount(counters[k]) >= rs[i].limit {
          return false;
        }
        i := i + 1;
      }
      ok := true;
    }

    method TokensFit(rs: seq<TokenReservation>, now: int) returns (ok: bool)
      requires Valid() && now >= clock
      modifies this`counters, this`clock
      ensures Valid() && old(clock) <= clock <= now && (counters, ok) == CheckTokens(old(counters), rs, now)
    {
      var i := 0;
      while i < |rs|
        invariant 0 <= i <= |rs| && Valid() && old(clock) <= clock <= now
        invariant CheckTokens(counters, rs[i..], now) == CheckTokens(old(counters), rs, now)
      {
        assert rs[i..][1..] == rs[i + 1..];
        var k := TokenKey(rs[i].key);
        Touch(k, rs[i].strategy, rs[i].window, now);
        var used := counters[k].fixedTokens;
        if counters[k].strategy.SlidingWindow? {
          used := TokenCount(counters[k].tokens);
        }
        if used + counters[k].reserved + rs[i].amount > rs[i].limit {
          return false;
        }
        i := i + 1;
      }
      ok := true;
    }

    method ChargeRequestCounters(rs: seq<RequestCounter>, now: int)
      requires Valid() && now >= clock
      modifies this`counters, this`clock, this`hist
      ensures Valid() && clock == now && Contents() == ChargeRequests(old(Contents()), rs, now)
    {
      forall x | x in counters ensures CounterSorted(counters[x], now) { ClockMoves(counters[x], clock, now); }
      hide CounterSorted, AddRequest, Admit;
      clock := now;
      var i := 0;
      while i < |rs|
        invariant 0 <= i <= |rs| && Valid() && clock == now && leases == old(leases)
        invariant ChargeRequests(Contents(), rs[i..], now) == ChargeRequests(old(Contents()), rs, now)
      {
        var q := rs[i];
        assert rs[i..][1..] == rs[i + 1..];
        var k := RequestKey(q.key);
        FreshSorted(q.strategy, q.window, now);
        var c := CounterOf(counters, k, q.strategy, q.window);
        SortedAdmit(c, now);
        counters := counters[k := AddRequest(c, now)];
        hist := Admit(hist, q.key, now);
        i := i + 1;
      }
    }

    method ChargeTokenCounters(rs: seq<TokenReservation>)
      requires Valid()
      modifies this`counters
      ensures Valid() && counters == ChargeTokens(old(counters), rs)
    {
      hide CounterSorted;
      var i := 0;
      while i < |rs|
        invariant 0 <= i <= |rs| && Valid()
        invariant ChargeTokens(counters, rs[i..]) == ChargeTokens(old(counters), rs)
      {
        var q := rs[i];
        assert rs[i..][1..] == rs[i + 1..];
        var k := TokenKey(q.key);
        FreshSorted(q.strategy, q.window, clock);
        var c := CounterOf(counters, k, q.strategy, q.window);
        SortedReserve(c, c.reserved + q.amount, clock);
        counters := counters[k := c.(reserved := c.reserved + q.amount)];
        i := i + 1;
      }
    }

    method Reserve(r: Reservation, now: int, order: seq<string>) returns (reply: Reply)
      requires Valid() && now >= clock
      modifies this
      ensures Valid() && clock <= now && (Contents(), reply) == ReserveStep(ttl, old(Contents()), r, now, order)
    {
      if !ValidReservation(r) {
        return Invalid;
      }
      Cleanup(now, order);
      if r.id in leases {
        return Retained;
      }
      var roomy := RequestsFit(r.requests, now);
      if !roomy {
        return Rejected;
      }
      var fits := TokensFit(r.tokens, now);
      if !fits {
        return Rejected;
      }
      ChargeRequestCounters(r.requests, now);
      ChargeTokenCounters(r.tokens);
      leases := leases[r.id := NewLease(ttl, r, now)];
      hist := hist.(admissions := hist.admissions + multiset{r.id});
      reply := Admitted;
    }

    method Finish(id: string, state: LeaseState, actual: int, now: int, order: seq<string>)
      returns (error: Option<LeaseError>)
      requires Valid() && now >= clock
      modifies this
      ensures Valid() && clock <= now &&
        (Contents(), error) == FinishStep(ttl, old(Contents()), id, state, actual, now, order)
    {
      Cleanup(now, order);
      if id !in leases {
        return Some(LeaseUnknown);
      }
      if !leases[id].state.Pending? {
        return Some(TerminalError(leases[id].state, state));
      }
      CloseLease(id, state, now, actual);
      error := None;
    }

    method Commit(id: string, actual: int, now: int, order: seq<string>) returns (error: Option<LeaseError>)
      requires Valid() && now >= clock
      modifies this
      ensures Valid() && clock <= now
      ensures var charged := if actual < 0 then 0 else actual;
        (Contents(), error) == FinishStep(ttl, old(Contents()), id, Committed, charged, now, order)
    {
      error := Finish(id, Committed, if actual < 0 then 0 else actual, now, order);
    }

    method Release(id: string, now: int, order: seq<string>) returns (error: Option<LeaseError>)
      requires Valid() && now >= clock
      modifies this
      ensures Valid() && clock <= now &&
        (Contents(), error) == FinishStep(ttl, old(Contents()), id, Released, -1, now, order)
    {
      error := Finish(id, Released, -1, now, order);
    }
  }

  // ---- Sortedness --------------------------------------------------------------------------------------------------

  ghost predicate CounterSorted(c: Counter, clock: int) {
    SortedTimes(c.requests) && SortedEvents(c.tokens) && (forall i | 0 <= i < |c.requests| :: c.requests[i] <= clock) &&
    forall i | 0 <= i < |c.tokens| :: c.tokens[i].at <= clock
  }

  lemma {:induction false} TimesKept(ts: seq<int>, cutoff: int, bound: int)
    requires forall i | 0 <= i < |ts| :: ts[i] <= bound
    ensures forall i | 0 <= i < |TimesSince(ts, cutoff)| :: TimesSince(ts, cutoff)[i] <= bound
  {
    if ts != [] { TimesKept(ts[..|ts| - 1], cutoff, bound); }
  }

  lemma {:induction false} EventsKept(es: seq<TokenEvent>, cutoff: int, bound: int)
    requires forall i | 0 <= i < |es| :: es[i].at <= bound
    ensures forall i | 0 <= i < |EventsSince(es, cutoff)| :: EventsSince(es, cutoff)[i].at <= bound
  {
    if es != [] { EventsKept(es[..|es| - 1], cutoff, bound); }
  }

  /** prune: a fixed window rolls over, a sliding window drops what has left it. */
  method PruneCounter(c: Counter, now: int) returns (next: Counter)
    requires CounterSorted(c, now)
    ensures next == Pruned(c, now) && CounterSorted(next, now)
  {
    next := c;
    if c.strategy.FixedWindow? {
      if c.fixedStart.None? || now - c.fixedStart.value >= c.window {
        next := c.(fixedStart := Some(now), fixedRequests := 0, fixedTokens := 0, reserved := 0);
      }
    } else {
      var cutoff := now - c.window;
      TimesKept(c.requests, cutoff, now);
      EventsKept(c.tokens, cutoff, now);
      var requests := PruneTimes(c.requests, cutoff);
      var tokens := PruneTokenEvents(c.tokens, cutoff);
      next := c.(requests := requests, tokens := tokens);
    }
  }

  /** Free the reserved amount and charge what was used. */
  method ReleaseAndCharge(c: Counter, now: int, amount: int, actual: int) returns (next: Counter)
    requires CounterSorted(c, now)
    ensures next == AddTokens(Unreserved(c, amount), now, Charge(amount, actual)) && CounterSorted(next, now)
  {
    next := c.(reserved := c.reserved - amount);
    if next.reserved < 0 {
      next := next.(reserved := 0);
    }
    var n := actual;
    if n < 0 {
      n := amount;
    }
    SortedPush(next, now, n);
    next := AddTokens(next, now, n);
  }

  lemma ClockMoves(c: Counter, clock: int, now: int)
    requires CounterSorted(c, clock) && clock <= now
    ensures CounterSorted(c, now)
  {
  }

  lemma FreshSorted(strategy: Strategy, window: int, now: int)
    ensures CounterSorted(Counter(strategy, window, [], [], 0, None, 0, 0), now)
  {
  }

  lemma SortedAdmit(c: Counter, now: int)
    requires CounterSorted(c, now)
    ensures CounterSorted(AddRequest(c, now), now)
  {
  }

  lemma SortedReserve(c: Counter, reserved: int, now: int)
    requires CounterSorted(c, now)
    ensures CounterSorted(c.(reserved := reserved), now)
  {
  }

  lemma SortedPush(c: Counter, now: int, n: int)
    requires CounterSorted(c, now)
    ensures CounterSorted(AddTokens(c, now, n), now)
  {
  }
}
