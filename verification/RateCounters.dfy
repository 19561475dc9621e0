/** Event lists. */
module RateCounters {

  // Sliding windows: pruning by binary search, and sums over time intervals.

  datatype TokenEvent = TokenEvent(at: int, tokens: int)

  // ---- Filters ---------------------------------------------------------------------------------

  function TimesSince(ts: seq<int>, cutoff: int): seq<int> {
    if ts == [] then []
    else if ts[|ts| - 1] >= cutoff then TimesSince(ts[..|ts| - 1], cutoff) + [ts[|ts| - 1]]
    else TimesSince(ts[..|ts| - 1], cutoff)
  }

  function EventsSince(es: seq<TokenEvent>, cutoff: int): seq<TokenEvent> {
    if es == [] then []
    else if es[|es| - 1].at >= cutoff then EventsSince(es[..|es| - 1], cutoff) + [es[|es| - 1]]
    else EventsSince(es[..|es| - 1], cutoff)
  }

  predicate SortedTimes(ts: seq<int>) { forall i, j | 0 <= i < j < |ts| :: ts[i] <= ts[j] }

  predicate SortedEvents(es: seq<TokenEvent>) { forall i, j | 0 <= i < j < |es| :: es[i].at <= es[j].at }

  function Times(es: seq<TokenEvent>): seq<int> { seq(|es|, i requires 0 <= i < |es| => es[i].at) }

  /** sort.Search over sorted times: the least index whose time is not before the cutoff. */
  method SearchTimes(ts: seq<int>, cutoff: int) returns (k: nat)
    requires SortedTimes(ts)
    ensures k <= |ts| && (forall i | 0 <= i < k :: ts[i] < cutoff) && forall i | k <= i < |ts| :: ts[i] >= cutoff
  {
    var lo, hi := 0, |ts|;
    while lo < hi
      invariant 0 <= lo <= hi <= |ts|
      invariant forall i | 0 <= i < lo :: ts[i] < cutoff
      invariant forall i | hi <= i < |ts| :: ts[i] >= cutoff
    {
      var mid := (lo + hi) / 2;
      if ts[mid] < cutoff {
        lo := mid + 1;
      } else {
        hi := mid;
      }
    }
    k := lo;
  }

  lemma {:induction false} TimesSuffix(ts: seq<int>, cutoff: int, k: nat)
    requires k <= |ts| && (forall i | 0 <= i < k :: ts[i] < cutoff) && forall i | k <= i < |ts| :: ts[i] >= cutoff
    ensures TimesSince(ts, cutoff) == ts[k..]
  {
    if ts != [] {
      var front := ts[..|ts| - 1];
      if k < |ts| {
        TimesSuffix(front, cutoff, k);
        assert ts[k..] == front[k..] + [ts[|ts| - 1]];
      } else {
        TimesSuffix(front, cutoff, k - 1);
      }
    }
  }

  lemma {:induction false} EventsSuffix(es: seq<TokenEvent>, cutoff: int, k: nat)
    requires k <= |es| && (forall i | 0 <= i < k :: es[i].at < cutoff) && forall i | k <= i < |es| :: es[i].at >= cutoff
    ensures EventsSince(es, cutoff) == es[k..]
  {
    if es != [] {
      var front := es[..|es| - 1];
      if k < |es| {
        EventsSuffix(front, cutoff, k);
        assert es[k..] == front[k..] + [es[|es| - 1]];
      } else {
        EventsSuffix(front, cutoff, k - 1);
      }
    }
  }

  /** pruneTimes: the binary search drops exactly the events before the cutoff. */
  method PruneTimes(ts: seq<int>, cutoff: int) returns (kept: seq<int>)
    requires SortedTimes(ts)
    ensures kept == TimesSince(ts, cutoff) && SortedTimes(kept)
  {
    var k := SearchTimes(ts, cutoff);
    TimesSuffix(ts, cutoff, k);
    kept := ts[k..];
  }

  method PruneTokenEvents(es: seq<TokenEvent>, cutoff: int) returns (kept: seq<TokenEvent>)
    requires SortedEvents(es)
    ensures kept == EventsSince(es, cutoff) && SortedEvents(kept)
  {
    var k := SearchTimes(Times(es), cutoff);
    assert forall i | 0 <= i < |es| :: Times(es)[i] == es[i].at;
    EventsSuffix(es, cutoff, k);
    kept := es[k..];
  }

  lemma {:induction false} TimesSinceTwice(ts: seq<int>, c: int, d: int)
    requires c <= d
    ensures TimesSince(TimesSince(ts, c), d) == TimesSince(ts, d)
  {
    if ts != [] {
      var front, last := ts[..|ts| - 1], ts[|ts| - 1];
      TimesSinceTwice(front, c, d);
      if last >= c {
        TimesSinceSnoc(TimesSince(front, c), last, d);
      }
    }
  }

  lemma {:induction false} TimesSinceSnoc(ts: seq<int>, t: int, c: int)
    ensures TimesSince(ts + [t], c) == if t >= c then TimesSince(ts, c) + [t] else TimesSince(ts, c)
  {
    assert (ts + [t])[..|ts|] == ts;
  }

  lemma {:induction false} EventsSinceTwice(es: seq<TokenEvent>, c: int, d: int)
    requires c <= d
    ensures EventsSince(EventsSince(es, c), d) == EventsSince(es, d)
  {
    if es != [] {
      var front, last := es[..|es| - 1], es[|es| - 1];
      EventsSinceTwice(front, c, d);
      if last.at >= c {
        EventsSinceSnoc(EventsSince(front, c), last, d);
      }
    }
  }

  lemma {:induction false} EventsSinceSnoc(es: seq<TokenEvent>, e: TokenEvent, c: int)
    ensures EventsSince(es + [e], c) == if e.at >= c then EventsSince(es, c) + [e] else EventsSince(es, c)
  {
    assert (es + [e])[..|es|] == es;
  }

  // ---- Totals --------------------------------------------------------------------------------------

  function Total(es: seq<TokenEvent>): int {
    if es == [] then 0 else Total(es[..|es| - 1]) + es[|es| - 1].tokens
  }

  method TokenCount(es: seq<TokenEvent>) returns (total: int)
    ensures total == Total(es)
  {
    total := 0;
    var i := 0;
    while i < |es|
      invariant 0 <= i <= |es| && total == Total(es[..i])
    {
      assert es[..i + 1][..i] == es[..i];
      total := total + es[i].tokens;
      i := i + 1;
    }
    assert es[..i] == es;
  }

  /** Number of times within the closed interval. */
  function CountIn(ts: seq<int>, from: int, to: int): nat {
    if ts == [] then 0
    else CountIn(ts[..|ts| - 1], from, to) + if from <= ts[|ts| - 1] <= to then 1 else 0
  }

  /** Tokens settled within the closed interval. */
  function SumIn(es: seq<TokenEvent>, from: int, to: int): int {
    if es == [] then 0
    else SumIn(es[..|es| - 1], from, to) + if from <= es[|es| - 1].at <= to then es[|es| - 1].tokens else 0
  }

  lemma {:induction false} CountSnoc(ts: seq<int>, t: int, from: int, to: int)
    ensures CountIn(ts + [t], from, to) == CountIn(ts, from, to) + if from <= t <= to then 1 else 0
  {
    assert (ts + [t])[..|ts|] == ts;
  }

  lemma {:induction false} SumSnoc(es: seq<TokenEvent>, e: TokenEvent, from: int, to: int)
    ensures SumIn(es + [e], from, to) == SumIn(es, from, to) + if from <= e.at <= to then e.tokens else 0
  {
    assert (es + [e])[..|es|] == es;
  }

  lemma {:induction false} TotalSnoc(es: seq<TokenEvent>, e: TokenEvent)
    ensures Total(es + [e]) == Total(es) + e.tokens
  {
    assert (es + [e])[..|es|] == es;
  }

  /** Nothing lies outside what a later cutoff keeps. */
  lemma {:induction false} CountBound(ts: seq<int>, c: int, from: int, to: int)
    requires c <= from
    ensures CountIn(ts, from, to) <= |TimesSince(ts, c)|
  {
    if ts != [] { CountBound(ts[..|ts| - 1], c, from, to); }
  }

  predicate NonNegative(es: seq<TokenEvent>) { forall i | 0 <= i < |es| :: es[i].tokens >= 0 }

  lemma {:induction false} SumBound(es: seq<TokenEvent>, c: int, from: int, to: int)
    requires c <= from && NonNegative(es)
    ensures 0 <= SumIn(es, from, to) <= Total(EventsSince(es, c))
  {
    if es != [] {
      var front, last := es[..|es| - 1], es[|es| - 1];
      SumBound(front, c, from, to);
      TotalSnoc(EventsSince(front, c), last);
    }
  }

  lemma {:induction false} SinceShrinks(es: seq<TokenEvent>, c: int, d: int)
    requires c <= d && NonNegative(es)
    ensures 0 <= Total(EventsSince(es, d)) <= Total(EventsSince(es, c))
  {
    if es != [] {
      var front, last := es[..|es| - 1], es[|es| - 1];
      SinceShrinks(front, c, d);
      TotalSnoc(EventsSince(front, c), last);
      TotalSnoc(EventsSince(front, d), last);
    }
  }
}
