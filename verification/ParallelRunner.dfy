/** runParallel as a step system. */
module ParallelRunner {
  import opened EventSink

  // Workers claim indices and enqueue events; one goroutine drains them until all workers have returned.

  /** `waking`: inside enqueue, after the append and before the wake-up. */
  datatype Worker = Idle | Running(index: nat, waking: bool) | Exited

  /** The calling goroutine: waiting for wake or done, inside drain (for the last time or not), or returned. */
  datatype Caller = Selecting | Draining(batch: seq<Event>, last: bool) | Returned

  datatype Runner = Runner(
    n: nat, next: nat, workers: seq<Worker>, caller: Caller, wake: bool, sink: Sink,
    started: seq<nat>,      // indices in the order in which they were claimed
    returned: seq<nat>,     // indices whose call has returned
    enqueued: seq<Event>,   // all events of the workers, in the order of the queue
    emitted: seq<Event>)    // events passed to emit by drain, in order

  datatype Move =
    | Claim(w: nat)
    | Append(w: nat, ev: Event)
    | WakeUp(w: nat)
    | Return(w: nat)
    | SelectWake
    | SelectDone
    | TakeBatch
    | EmitNext

  function WorkerCount(n: nat, limit: int): nat { if 0 < limit < n then limit else n }

  ghost predicate Begin(r: Runner, n: nat, limit: int) {
    r.n == n && r.next == 0 && r.workers == seq(WorkerCount(n, limit), i => Idle) && r.caller.Selecting? &&
    r.sink.queue == [] && r.started == [] && r.returned == [] && r.enqueued == [] && r.emitted == []
  }

  ghost predicate Step(consumer: Consumer, r: Runner, m: Move, r': Runner) {
    match m
    case Claim(w) =>
      w < |r.workers| && r.workers[w].Idle? &&
      r' == r.(next := r.next + 1,
               workers := r.workers[w := if r.next < r.n then Running(r.next, false) else Exited],
               started := if r.next < r.n then r.started + [r.next] else r.started)
    case Append(w, ev) =>
      w < |r.workers| && r.workers[w].Running? && !r.workers[w].waking &&
      r' == r.(workers := r.workers[w := r.workers[w].(waking := true)], sink := r.sink.(queue := r.sink.queue + [ev]),
               enqueued := r.enqueued + [ev])
    case WakeUp(w) =>
      w < |r.workers| && r.workers[w].Running? && r.workers[w].waking &&
      r' == r.(workers := r.workers[w := r.workers[w].(waking := false)], wake := true)
    case Return(w) =>
      w < |r.workers| && r.workers[w].Running? && !r.workers[w].waking &&
      r' == r.(workers := r.workers[w := Idle], returned := r.returned + [r.workers[w].index])
    case SelectWake => r.caller.Selecting? && r.wake && r' == r.(wake := false, caller := Draining([], false))
    case SelectDone =>
      r.caller.Selecting? && (forall w | 0 <= w < |r.workers| :: r.workers[w].Exited?) &&
      r' == r.(caller := Draining([], true))
    case TakeBatch =>
      r.caller.Draining? && r.caller.batch == [] &&
      r' == r.(caller := if r.sink.queue != [] then Draining(r.sink.queue, r.caller.last)
                         else if r.caller.last then Returned else Selecting,
               sink := r.sink.(queue := []))
    case EmitNext =>
      r.caller.Draining? && r.caller.batch != [] &&
      r' == r.(caller := r.caller.(batch := r.caller.batch[1..]), sink := Emitted(consumer, r.sink, r.caller.batch[0]),
               emitted := r.emitted + [r.caller.batch[0]])
  }

  ghost predicate IsRun(consumer: Consumer, n: nat, limit: int, run: seq<Runner>, moves: seq<Move>) {
    |run| == |moves| + 1 && Begin(run[0], n, limit) &&
    forall i | 0 <= i < |moves| :: Step(consumer, run[i], moves[i], run[i + 1])
  }

  // ---- Invariant -------------------------------------------------------------------------------------------

  function Min(a: nat, b: nat): nat { if a < b then a else b }

  function Upto(k: nat): seq<nat> { seq(k, i => i) }

  function Batch(c: Caller): seq<Event> { if c.Draining? then c.batch else [] }

  /** Indices whose call is running, worker by worker. */
  function InProgress(ws: seq<Worker>): multiset<nat> {
    if ws == [] then multiset{} else InProgress(ws[..|ws| - 1]) + One(ws[|ws| - 1])
  }

  function One(w: Worker): multiset<nat> { if w.Running? then multiset{w.index} else multiset{} }

  lemma {:induction false} InProgressSnoc(ws: seq<Worker>, w: Worker)
    ensures InProgress(ws + [w]) == InProgress(ws) + One(w)
  {
    assert (ws + [w])[..|ws|] == ws;
  }

  lemma {:induction false} Swap(a: multiset<nat>, b: multiset<nat>, x: multiset<nat>, y: multiset<nat>,
                                z: multiset<nat>)
    requires a + x == b + y
    ensures (a + z) + x == (b + z) + y
  {
    assert (a + z) + x == (a + x) + z && (b + z) + y == (b + y) + z;
  }

  lemma {:induction false} InProgressUpdate(ws: seq<Worker>, w: nat, v: Worker)
    requires w < |ws|
    ensures InProgress(ws[w := v]) + One(ws[w]) == InProgress(ws) + One(v)
  {
    var last := |ws| - 1;
    var front, end := ws[..last], ws[last];
    assert ws == front + [end];
    hide InProgress, One;
    InProgressSnoc(front, end);
    if w == last {
      assert ws[w := v] == front + [v];
      InProgressSnoc(front, v);
      assert InProgress(front) + One(v) + One(end) == InProgress(front) + One(end) + One(v);
    } else {
      assert ws[w := v] == front[w := v] + [end] && front[w] == ws[w];
      InProgressSnoc(front[w := v], end);
      InProgressUpdate(front, w, v);
      Swap(InProgress(front[w := v]), InProgress(front), One(ws[w]), One(v), One(end));
    }
  }

  lemma {:induction false} NoneInProgress(ws: seq<Worker>)
    requires forall w | 0 <= w < |ws| :: !ws[w].Running?
    ensures InProgress(ws) == multiset{}
  {
    if ws != [] { NoneInProgress(ws[..|ws| - 1]); }
  }

  /** Indices are claimed in order, once each; a claimed index is running or has returned. */
  ghost predicate ClaimsOk(r: Runner, limit: int) {
    |r.workers| == WorkerCount(r.n, limit) && r.started == Upto(Min(r.next, r.n)) &&
    multiset(r.started) == multiset(r.returned) + InProgress(r.workers) &&
    forall w | 0 <= w < |r.workers| && r.workers[w].Exited? :: r.next >= r.n
  }

  /** Every event is queued, in the drained batch, or emitted, in the order in which it was enqueued. */
  ghost predicate EventsOk(consumer: Consumer, base: Sink, r: Runner) {
    r.enqueued == r.emitted + (Batch(r.caller) + r.sink.queue) &&
    r.sink == EmittedAll(consumer, base, r.emitted).(queue := r.sink.queue)
  }

  ghost predicate AllExited(r: Runner) { forall w | 0 <= w < |r.workers| :: r.workers[w].Exited? }

  ghost predicate CallerOk(r: Runner) {
    (r.caller.Returned? || (r.caller.Draining? && r.caller.last) ==> AllExited(r)) &&
    (r.caller.Returned? ==> r.sink.queue == [])
  }

  ghost predicate Inv(consumer: Consumer, base: Sink, limit: int, r: Runner) {
    ClaimsOk(r, limit) && EventsOk(consumer, base, r) && CallerOk(r)
  }

  lemma {:induction false} Cancel(a: multiset<nat>, b: multiset<nat>, x: multiset<nat>)
    requires a + x == b + x
    ensures a == b
  {
    assert a == (a + x) - x && b == (b + x) - x;
  }

  /** A worker that moves between states of the same index leaves the running calls alone. */
  lemma {:induction false} SameProgress(ws: seq<Worker>, w: nat, v: Worker)
    requires w < |ws| && One(v) == One(ws[w])
    ensures InProgress(ws[w := v]) == InProgress(ws)
  {
    InProgressUpdate(ws, w, v);
    Cancel(InProgress(ws[w := v]), InProgress(ws), One(v));
  }

  lemma {:induction false} MoreProgress(ws: seq<Worker>, w: nat, i: nat)
    requires w < |ws| && ws[w].Idle?
    ensures InProgress(ws[w := Running(i, false)]) == InProgress(ws) + multiset{i}
  {
    InProgressUpdate(ws, w, Running(i, false));
    var after := InProgress(ws[w := Running(i, false)]);
    assert after + multiset{} == after;
  }

  lemma {:induction false} ClaimKept(limit: int, r: Runner, w: nat, r': Runner)
    requires ClaimsOk(r, limit) && w < |r.workers| && r.workers[w].Idle? && r.next < r.n && r'.n == r.n &&
      r'.next == r.next + 1
    requires r'.workers == r.workers[w := Running(r.next, false)] && r'.started == r.started + [r.next] &&
      r'.returned == r.returned
    ensures ClaimsOk(r', limit)
  {
    MoreProgress(r.workers, w, r.next);
    NextIndex(r.next);
    hide InProgress, One, Upto;
    Regroup(r.started, r.returned, InProgress(r.workers), r.next);
  }

  lemma {:induction false} ExitKept(limit: int, r: Runner, w: nat, r': Runner)
    requires ClaimsOk(r, limit) && w < |r.workers| && r.workers[w].Idle? && r.next >= r.n && r'.n == r.n &&
      r'.next == r.next + 1
    requires r'.workers == r.workers[w := Exited] && r'.started == r.started && r'.returned == r.returned
    ensures ClaimsOk(r', limit)
  {
    SameProgress(r.workers, w, Exited);
    hide InProgress, One, Upto;
  }

  lemma {:induction false} NextIndex(k: nat)
    ensures Upto(k + 1) == Upto(k) + [k]
  {
  }

  lemma {:induction false} Regroup(started: seq<nat>, returned: seq<nat>, running: multiset<nat>, i: nat)
    requires multiset(started) == multiset(returned) + running
    ensures multiset(started + [i]) == multiset(returned) + (running + multiset{i})
  {
  }

  lemma {:induction false} LessProgress(ws: seq<Worker>, w: nat, i: nat)
    requires w < |ws| && ws[w] == Running(i, false)
    ensures InProgress(ws[w := Idle]) + multiset{i} == InProgress(ws)
  {
    InProgressUpdate(ws, w, Idle);
    var before := InProgress(ws);
    assert before + multiset{} == before;
  }

  lemma {:induction false} MoveOver(started: multiset<nat>, returned: seq<nat>, before: multiset<nat>,
                                    after: multiset<nat>, i: nat)
    requires started == multiset(returned) + before && after + multiset{i} == before
    ensures started == multiset(returned + [i]) + after
  {
    assert multiset(returned + [i]) == multiset(returned) + multiset{i};
    assert multiset(returned) + multiset{i} + after == multiset(returned) + (after + multiset{i});
  }

  lemma {:induction false} ReturnKept(limit: int, r: Runner, w: nat, i: nat, r': Runner)
    requires ClaimsOk(r, limit) && w < |r.workers| && r.workers[w] == Running(i, false) &&
      r'.workers == r.workers[w := Idle]
    requires r'.returned == r.returned + [i] && r'.started == r.started && r'.next == r.next && r'.n == r.n
    ensures ClaimsOk(r', limit)
  {
    LessProgress(r.workers, w, i);
    hide InProgress, One, Upto;
    MoveOver(multiset(r.started), r.returned, InProgress(r.workers), InProgress(r'.workers), i);
  }

  lemma {:induction false} EnqueueKept(limit: int, r: Runner, w: nat, waking: bool, r': Runner)
    requires ClaimsOk(r, limit) && w < |r.workers| && r.workers[w].Running? &&
      r'.workers == r.workers[w := r.workers[w].(waking := waking)]
    requires r'.started == r.started && r'.returned == r.returned && r'.next == r.next && r'.n == r.n
    ensures ClaimsOk(r', limit)
  {
    SameProgress(r.workers, w, r.workers[w].(waking := waking));
    hide InProgress;
  }

  lemma {:induction false} ClaimsKept(consumer: Consumer, limit: int, r: Runner, m: Move, r': Runner)
    requires ClaimsOk(r, limit) && Step(consumer, r, m, r')
    ensures ClaimsOk(r', limit)
  {
    match m
    case Claim(w) => if r.next < r.n { ClaimKept(limit, r, w, r'); } else { ExitKept(limit, r, w, r'); }
    case Append(w, _) => EnqueueKept(limit, r, w, true, r');
    case WakeUp(w) => EnqueueKept(limit, r, w, false, r');
    case Return(w) => ReturnKept(limit, r, w, r.workers[w].index, r');
    case _ =>
  }

  lemma {:induction false} EmittedSnoc(consumer: Consumer, base: Sink, evs: seq<Event>, ev: Event)
    ensures EmittedAll(consumer, base, evs + [ev]) == Emitted(consumer, EmittedAll(consumer, base, evs), ev)
  {
    assert (evs + [ev])[..|evs|] == evs;
  }

  lemma {:induction false} Appended(a: seq<Event>, b: seq<Event>, c: seq<Event>, ev: Event)
    ensures a + (b + c) + [ev] == a + (b + (c + [ev]))
  {
  }

  lemma {:induction false} Shifted(a: seq<Event>, b: seq<Event>, c: seq<Event>)
    requires b != []
    ensures a + (b + c) == (a + [b[0]]) + (b[1..] + c)
  {
  }

  lemma {:induction false} AppendKept(consumer: Consumer, base: Sink, r: Runner, ev: Event, r': Runner)
    requires EventsOk(consumer, base, r) && r'.caller == r.caller && r'.emitted == r.emitted
    requires r'.sink == r.sink.(queue := r.sink.queue + [ev]) && r'.enqueued == r.enqueued + [ev]
    ensures EventsOk(consumer, base, r')
  {
    hide EmittedAll;
    Appended(r.emitted, Batch(r.caller), r.sink.queue, ev);
  }

  lemma {:induction false} TakeKept(consumer: Consumer, base: Sink, r: Runner, r': Runner)
    requires EventsOk(consumer, base, r) && r.caller.Draining? && r.caller.batch == [] && r'.emitted == r.emitted &&
      r'.enqueued == r.enqueued
    requires r'.sink == r.sink.(queue := []) && Batch(r'.caller) == r.sink.queue
    ensures EventsOk(consumer, base, r')
  {
    hide EmittedAll;
    assert [] + r.sink.queue == r.sink.queue == r.sink.queue + [];
  }

  lemma {:induction false} EmitKept(consumer: Consumer, base: Sink, r: Runner, r': Runner)
    requires EventsOk(consumer, base, r) && r.caller.Draining? && r.caller.batch != [] && r'.enqueued == r.enqueued
    requires r'.emitted == r.emitted + [r.caller.batch[0]] && r'.caller == r.caller.(batch := r.caller.batch[1..])
    requires r'.sink == Emitted(consumer, r.sink, r.caller.batch[0])
    ensures EventsOk(consumer, base, r')
  {
    EmittedSnoc(consumer, base, r.emitted, r.caller.batch[0]);
    hide EmittedAll;
    Shifted(r.emitted, r.caller.batch, r.sink.queue);
  }

  lemma {:induction false} EventsKept(consumer: Consumer, base: Sink, r: Runner, m: Move, r': Runner)
    requires EventsOk(consumer, base, r) && Step(consumer, r, m, r')
    ensures EventsOk(consumer, base, r')
  {
    match m
    case Append(_, ev) => AppendKept(consumer, base, r, ev, r');
    case TakeBatch => hide EventsOk; TakeKept(consumer, base, r, r');
    case EmitNext => hide EventsOk; EmitKept(consumer, base, r, r');
    case _ => hide EmittedAll;
  }

  /** Once every worker has exited, no step but the caller's own is possible. */
  lemma {:induction false} CallerKept(consumer: Consumer, r: Runner, m: Move, r': Runner)
    requires CallerOk(r) && Step(consumer, r, m, r')
    ensures CallerOk(r')
  {
  }

  lemma {:induction false} RunInv(consumer: Consumer, n: nat, limit: int, run: seq<Runner>, moves: seq<Move>, k: nat)
    requires IsRun(consumer, n, limit, run, moves) && k < |run|
    ensures Inv(consumer, run[0].sink, limit, run[k]) && run[k].n == n
  {
    if k == 0 {
      NoneInProgress(run[0].workers);
    } else {
      RunInv(consumer, n, limit, run, moves, k - 1);
      assert Step(consumer, run[k - 1], moves[k - 1], run[k]);
      hide ClaimsOk, EventsOk, CallerOk, Step;
      ClaimsKept(consumer, limit, run[k - 1], moves[k - 1], run[k]);
      EventsKept(consumer, run[0].sink, run[k - 1], moves[k - 1], run[k]);
      CallerKept(consumer, run[k - 1], moves[k - 1], run[k]);
    }
  }

  lemma {:induction false} InProgressSize(ws: seq<Worker>)
    ensures |InProgress(ws)| <= |ws|
  {
    if ws != [] { InProgressSize(ws[..|ws| - 1]); }
  }

  /**
   In every interleaving indices are claimed in order and once each, and at most `limit` calls run at a time (all
   of them when there is no limit).
   */
  lemma ClaimsInOrder(consumer: Consumer, n: nat, limit: int, run: seq<Runner>, moves: seq<Move>, k: nat)
    requires IsRun(consumer, n, limit, run, moves) && k < |run|
    ensures run[k].started == Upto(|run[k].started|) && |run[k].started| <= n
    ensures multiset(run[k].started) == multiset(run[k].returned) + InProgress(run[k].workers)
    ensures limit > 0 ==> |InProgress(run[k].workers)| <= limit
  {
    RunInv(consumer, n, limit, run, moves, k);
    InProgressSize(run[k].workers);
  }

  /** The first `j` workers have claimed the first `j` indices. */
  ghost predicate Claimed(r: Runner, j: nat) {
    j <= |r.workers| <= r.n && r.next == j &&
    (forall w | 0 <= w < j :: r.workers[w] == Running(w, false)) &&
    forall w | j <= w < |r.workers| :: r.workers[w].Idle?
  }

  lemma ClaimNext(consumer: Consumer, r: Runner, j: nat) returns (r': Runner)
    requires Claimed(r, j) && j < |r.workers|
    ensures Step(consumer, r, Claim(j), r') && Claimed(r', j + 1) && |r'.workers| == |r.workers| && r'.n == r.n
  {
    r' := r.(next := r.next + 1, workers := r.workers[j := Running(r.next, false)], started := r.started + [r.next]);
  }

  lemma {:induction false} AllRunning(ws: seq<Worker>)
    requires forall w | 0 <= w < |ws| :: ws[w].Running?
    ensures |InProgress(ws)| == |ws|
  {
    if ws != [] { AllRunning(ws[..|ws| - 1]); }
  }

  /** The limit is reached: some run has that many calls in progress, and all of them when there is no limit. */
  lemma LimitIsReached(consumer: Consumer, n: nat, limit: int, start: Runner)
    returns (run: seq<Runner>, moves: seq<Move>)
    requires Begin(start, n, limit)
    ensures IsRun(consumer, n, limit, run, moves) && run[0] == start
    ensures |InProgress(run[|moves|].workers)| == if limit <= 0 || n <= limit then n else limit
  {
    run, moves := [start], [];
    while |moves| < |start.workers|
      invariant |moves| <= |start.workers| && |run| == |moves| + 1 && run[0] == start
      invariant Claimed(run[|moves|], |moves|) && |run[|moves|].workers| == |start.workers|
      invariant forall i | 0 <= i < |moves| :: Step(consumer, run[i], moves[i], run[i + 1])
    {
      var j := |moves|;
      var r' := ClaimNext(consumer, run[j], j);
      hide Step;
      run, moves := run + [r'], moves + [Claim(j)];
    }
    AllRunning(run[|moves|].workers);
  }

  /** A queued event is never forgotten: the caller drains, a wake-up is there, or a worker is about to give one. */
  ghost predicate Noticed(r: Runner) {
    r.caller.Selecting? && r.sink.queue != [] ==> r.wake || exists w | 0 <= w < |r.workers| :: Waking(r, w)
  }

  ghost predicate Waking(r: Runner, w: nat)
    requires w < |r.workers|
  {
    r.workers[w].Running? && r.workers[w].waking
  }

  lemma NoticedStep(consumer: Consumer, r: Runner, m: Move, r': Runner)
    requires Noticed(r) && Step(consumer, r, m, r')
    ensures Noticed(r')
  {
    if m.Append? {
      assert Waking(r', m.w);
    } else if r.caller.Selecting? && r.sink.queue != [] && !r.wake {
      var w :| 0 <= w < |r.workers| && Waking(r, w);
      if w < |r'.workers| && r'.workers[w] == r.workers[w] { assert Waking(r', w); }
    }
  }

  /** In every run, while the caller waits beside queued events, a wake-up is posted or about to be. */
  lemma {:induction false} NoEventIsForgotten(consumer: Consumer, n: nat, limit: int, run: seq<Runner>,
                                              moves: seq<Move>, k: nat)
    requires IsRun(consumer, n, limit, run, moves) && k < |run|
    ensures run[k].caller.Selecting? && run[k].sink.queue != [] ==>
      run[k].wake || exists w | 0 <= w < |run[k].workers| :: Waking(run[k], w)
  {
    if k > 0 {
      NoEventIsForgotten(consumer, n, limit, run, moves, k - 1);
      hide Step;
      NoticedStep(consumer, run[k - 1], moves[k - 1], run[k]);
    }
  }

  /**
   When runParallel returns, every index has run exactly once, the queue is empty, and every worker event has been
   passed to emit in the order in which it was enqueued.
   */
  lemma ReturnsComplete(consumer: Consumer, n: nat, limit: int, run: seq<Runner>, moves: seq<Move>, k: nat)
    requires IsRun(consumer, n, limit, run, moves) && k < |run| && run[k].caller.Returned?
    ensures run[k].started == Upto(n) && multiset(run[k].returned) == multiset(Upto(n))
    ensures run[k].sink.queue == [] && run[k].emitted == run[k].enqueued
    ensures run[k].sink == EmittedAll(consumer, run[0].sink, run[k].enqueued)
  {
    RunInv(consumer, n, limit, run, moves, k);
    NoneInProgress(run[k].workers);
    if n > 0 { assert run[k].workers[0].Exited?; }
    EmitKeepsQueue(consumer, run[0].sink, run[k].emitted);
    assert run[k].emitted + (Batch(run[k].caller) + run[k].sink.queue) == run[k].emitted;
  }

  /** What the consumer received at any moment is a prefix of the workers' events, and all of them unless it stopped. */
  lemma DeliveredInOrder(consumer: Consumer, n: nat, limit: int, run: seq<Runner>, moves: seq<Move>, k: nat)
    returns (m: nat)
    requires IsRun(consumer, n, limit, run, moves) && k < |run| && !run[0].sink.stopped && !run[0].sink.closed
    ensures m <= |run[k].emitted| && run[k].emitted <= run[k].enqueued
    ensures run[k].sink.yielded == run[0].sink.yielded + run[k].emitted[..m] &&
      (!run[k].sink.stopped ==> m == |run[k].emitted|)
  {
    RunInv(consumer, n, limit, run, moves, k);
    hide IsRun;
    m := EmitsPrefix(consumer, run[0].sink, run[k].emitted);
  }
}
