/** Delivery to one consumer. */
module EventSink {

  type Event = string

  /** The consumer: given everything it has received, does it want more? */
  type Consumer = seq<Event> -> bool

  /** `yielded` is what the consumer has received; `stopped`: it refused more; `closed`: the iterator returned. */
  datatype Sink = Sink(stopped: bool, closed: bool, queue: seq<Event>, yielded: seq<Event>)

  function Emitted(consumer: Consumer, s: Sink, ev: Event): Sink {
    if s.stopped || s.closed then s
    else s.(yielded := s.yielded + [ev], stopped := !consumer(s.yielded + [ev]))
  }

  function EmittedAll(consumer: Consumer, s: Sink, evs: seq<Event>): Sink {
    if evs == [] then s else Emitted(consumer, EmittedAll(consumer, s, evs[..|evs| - 1]), evs[|evs| - 1])
  }

  /** drain without concurrent writers. */
  function Drained(consumer: Consumer, s: Sink): Sink { EmittedAll(consumer, s.(queue := []), s.queue) }

  function Finished(consumer: Consumer, s: Sink, last: Event): Sink {
    var d := Drained(consumer, s);
    d.(yielded := if d.stopped || d.closed then d.yielded else d.yielded + [last], closed := true)
  }

  class Stream {
    const consumer: Consumer
    var stopped: bool
    var closed: bool
    var queue: seq<Event>
    var yielded: seq<Event>   // what the consumer's loop body has received

    constructor (consumer: Consumer)
      ensures this.consumer == consumer && Contents() == Sink(false, false, [], [])
    {
      this.consumer, stopped, closed, queue, yielded := consumer, false, false, [], [];
    }

    ghost function Contents(): Sink
      reads this
    {
      Sink(stopped, closed, queue, yielded)
    }

    /** Calls the consumer's loop body, unless it has stopped or the iterator has returned. */
    method Emit(ev: Event) returns (more: bool)
      modifies this
      ensures Contents() == Emitted(consumer, old(Contents()), ev)
      ensures more == (!old(stopped) && !old(closed) && !stopped)
    {
      if stopped || closed {
        return false;
      }
      yielded := yielded + [ev];
      if !consumer(yielded) {
        stopped := true;
        return false;
      }
      more := true;
    }

    method Enqueue(ev: Event)
      modifies this`queue
      ensures queue == old(queue) + [ev]
    {
      queue := queue + [ev];
    }

    method Drain()
      modifies this
      ensures Contents() == Drained(consumer, old(Contents()))
    {
      var batch := queue;
      queue := [];
      ghost var start := Contents();
      var i := 0;
      while i < |batch|
        invariant 0 <= i <= |batch| && Contents() == EmittedAll(consumer, start, batch[..i])
      {
        assert batch[..i + 1][..i] == batch[..i];
        var more := Emit(batch[i]);
        i := i + 1;
      }
      assert batch[..i] == batch;
    }

    method Finish(ev: Event)
      modifies this
      ensures Contents() == Finished(consumer, old(Contents()), ev)
    {
      Drain();
      if !stopped && !closed {
        yielded := yielded + [ev];
      }
      closed := true;
    }

    method Close()
      modifies this`closed
      ensures closed
    {
      closed := true;
    }
  }

  lemma {:induction false} EmitKeepsQueue(consumer: Consumer, s: Sink, evs: seq<Event>)
    ensures EmittedAll(consumer, s, evs).queue == s.queue && EmittedAll(consumer, s, evs).closed == s.closed
  {
    if evs != [] { EmitKeepsQueue(consumer, s, evs[..|evs| - 1]); }
  }

  // ---- Laws of the sink ------------------------------------------------------------------------------------

  /** The consumer accepted every event of a prefix but possibly its last. */
  ghost predicate Accepted(consumer: Consumer, base: seq<Event>, evs: seq<Event>) {
    forall i | 0 < i < |evs| :: consumer(base + evs[..i])
  }

  /** Emitting delivers a prefix: all of it while the consumer wants more, and nothing after it stops. */
  lemma {:induction false} EmitsPrefix(consumer: Consumer, s: Sink, evs: seq<Event>) returns (n: nat)
    requires !s.stopped && !s.closed
    ensures n <= |evs| && EmittedAll(consumer, s, evs).yielded == s.yielded + evs[..n] &&
      Accepted(consumer, s.yielded, evs[..n])
    ensures EmittedAll(consumer, s, evs).stopped <==> n > 0 && !consumer(s.yielded + evs[..n])
    ensures !EmittedAll(consumer, s, evs).stopped ==> n == |evs|
  {
    n := 0;
    if evs != [] {
      var front := evs[..|evs| - 1];
      EmitKeepsQueue(consumer, s, front);
      n := EmitsPrefix(consumer, s, front);
      assert front[..n] == evs[..n];
      if !EmittedAll(consumer, s, front).stopped {
        n := |evs|;
        assert evs[..n] == evs && front == evs[..n - 1];
        assert s.yielded + front + [evs[n - 1]] == s.yielded + evs;
        forall i | 0 < i < n ensures consumer(s.yielded + evs[..i]) {
          assert evs[..i] == front[..i];
        }
      }
    } else {
      assert evs[..0] == [] && s.yielded + [] == s.yielded;
    }
  }

  datatype Op = EmitOp(ev: Event) | EnqueueOp(ev: Event) | DrainOp | FinishOp(ev: Event) | CloseOp

  function Apply(consumer: Consumer, s: Sink, op: Op): Sink {
    match op
    case EmitOp(ev) => Emitted(consumer, s, ev)
    case EnqueueOp(ev) => s.(queue := s.queue + [ev])
    case DrainOp => Drained(consumer, s)
    case FinishOp(ev) => Finished(consumer, s, ev)
    case CloseOp => s.(closed := true)
  }

  function ApplyAll(consumer: Consumer, s: Sink, ops: seq<Op>): Sink {
    if ops == [] then s else Apply(consumer, ApplyAll(consumer, s, ops[..|ops| - 1]), ops[|ops| - 1])
  }

  lemma {:induction false} SilentEmits(consumer: Consumer, s: Sink, evs: seq<Event>)
    requires s.stopped || s.closed
    ensures EmittedAll(consumer, s, evs) == s
  {
    if evs != [] { SilentEmits(consumer, s, evs[..|evs| - 1]); }
  }

  /** After the consumer stops, or after the terminal event or close, nothing is ever yielded again. */
  lemma {:induction false} SilentAfterEnd(consumer: Consumer, s: Sink, ops: seq<Op>)
    requires s.stopped || s.closed
    ensures ApplyAll(consumer, s, ops).yielded == s.yielded &&
      (ApplyAll(consumer, s, ops).stopped || ApplyAll(consumer, s, ops).closed)
  {
    if ops != [] {
      var front := ApplyAll(consumer, s, ops[..|ops| - 1]);
      SilentAfterEnd(consumer, s, ops[..|ops| - 1]);
      SilentEmits(consumer, front.(queue := []), front.queue);
    }
  }

  /** The terminal event comes last: after everything queued, unless the consumer stopped or the iterator returned. */
  lemma FinishEnds(consumer: Consumer, s: Sink, last: Event)
    ensures var f, d := Finished(consumer, s, last), Drained(consumer, s);
      f.closed && s.yielded <= d.yielded <= f.yielded &&
      (if s.stopped || s.closed then f.yielded == s.yielded
       else if d.stopped then f.yielded == d.yielded
       else f.yielded == s.yielded + s.queue + [last])
  {
    if s.stopped || s.closed {
      SilentEmits(consumer, s.(queue := []), s.queue);
    } else {
      EmitKeepsQueue(consumer, s.(queue := []), s.queue);
      var n := EmitsPrefix(consumer, s.(queue := []), s.queue);
      assert s.queue[..|s.queue|] == s.queue;
    }
  }

  lemma {:induction false} ApplyConcat(consumer: Consumer, s: Sink, a: seq<Op>, b: seq<Op>)
    ensures ApplyAll(consumer, s, a + b) == ApplyAll(consumer, ApplyAll(consumer, s, a), b)
  {
    if b == [] {
      assert a + b == a;
    } else {
      var front := b[..|b| - 1];
      assert (a + b)[..|a + b| - 1] == a + front && (a + b)[|a + b| - 1] == b[|b| - 1];
      ApplyConcat(consumer, s, a, front);
    }
  }

  /**
   In every history of operations nothing is yielded after the terminal event, whatever is emitted, enqueued, drained
   or finished later; and the terminal event itself is yielded last, unless the consumer stopped before it.
   */
  lemma NothingAfterTerminal(consumer: Consumer, s: Sink, before: seq<Op>, ev: Event, later: seq<Op>)
    ensures var held := ApplyAll(consumer, s, before); var ended := ApplyAll(consumer, s, before + [FinishOp(ev)]);
      ApplyAll(consumer, s, before + [FinishOp(ev)] + later).yielded == ended.yielded &&
      (!held.stopped && !held.closed && !ended.stopped ==> ended.yielded == held.yielded + held.queue + [ev])
  {
    var held := ApplyAll(consumer, s, before);
    var all := before + [FinishOp(ev)];
    assert all[..|all| - 1] == before && all[|all| - 1] == FinishOp(ev);
    FinishEnds(consumer, held, ev);
    ApplyConcat(consumer, s, all, later);
    SilentAfterEnd(consumer, ApplyAll(consumer, s, all), later);
  }
}
