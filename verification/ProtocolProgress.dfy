/** Calls that may start can start, and what is asked for takes effect as it was asked for. */
module ProtocolProgress {
  import opened Messages
  import opened Execution
  import opened ToolBatch
  import opened Protocol
  import opened ProtocolInvariant
  import opened ProtocolAppends
  import opened ProtocolSaves
  import opened ProtocolRuns
  import opened ProtocolTheorems
  import opened ProtocolRecovery
  import opened ProtocolClaims
  import opened ProtocolLoss

  // ---- From a prepared batch to the start of one of its calls ------------------------------------------------

  /** The handler of `c` starts in the last of these steps, all of which are worker `t`'s own. */
  ghost predicate StartsLast(cfg: Config, s: State, run: seq<State>, labels: seq<Label>, t: nat, c: ToolCall) {
    Steps(cfg, run, labels) && run[0] == s && OwnSteps(labels, t) && labels != [] &&
    Starts(run[|labels| - 1], labels[|labels| - 1], run[|labels|], c, false)
  }

  /** A call that was never started, or one that recovery may replay. */
  predicate MayStart(c: ToolCall, recovering: bool) {
    c.status.Ready? || (c.status.InFlight? && recovering && c.replaySafe)
  }

  predicate Undenied(c: ToolCall) { c.approval.None? || c.approval.value.allow }

  /** A worker that holds the current record, in which `c` may start for it. */
  ghost predicate Holds(sh: Shared, w: Worker, c: ToolCall) {
    w.exec == sh.exec && w.exec.batch.Some? && DistinctIds(w.exec.batch.value.calls) && c in w.exec.batch.value.calls &&
    MayStart(c, !w.kind.Invocation?) && Undenied(c)
  }

  /** prepareToolBatch accepts the messages, and they do not answer the call yet. */
  ghost predicate Unanswered(cfg: Config, ms: seq<Message>, calls: seq<ToolCall>, id: string) {
    exists index: nat ::
      LastMatch(cfg, ms, calls, index) && ActiveBatch(cfg.hash, ms[index..], calls) && id !in ResultIds(ms[index + 1..])
  }

  lemma MatchesFor(cfg: Config, sh: Shared, w: Worker, c: ToolCall) returns (index: nat, w': Worker)
    requires Holds(sh, w, c) && w.pc.Prepare? && Unanswered(cfg, w.messages, w.exec.batch.value.calls, c.callId)
    ensures WorkerStep(cfg, sh, w, Match(index), sh, w') && Holds(sh, w', c)
    ensures w'.pc == Open(w.pc.given) || (w'.pc.PrepareAck? && w'.pc.given == w.pc.given && c.callId !in w'.pc.done)
  {
    index :| LastMatch(cfg, w.messages, w.exec.batch.value.calls, index) &&
      ActiveBatch(cfg.hash, w.messages[index..], w.exec.batch.value.calls) &&
      c.callId !in ResultIds(w.messages[index + 1..]);
    var done := IdSet(ResultIds(w.messages[index + 1..]));
    w' := w.(pc := if done == {} then Open(w.pc.given) else PrepareAck(done, w.pc.given));
    hide ActiveBatch, ResultIds;
  }

  lemma KeptCall(calls: seq<ToolCall>, done: set<string>, c: ToolCall)
    requires c in calls && c.callId !in done && !c.status.Completed? && DistinctIds(calls)
    ensures c in CompleteCalls(calls, done) && !AllCompleted(CompleteCalls(calls, done)) &&
      DistinctIds(CompleteCalls(calls, done))
  {
    var i :| 0 <= i < |calls| && calls[i] == c;
    assert CompleteCalls(calls, done)[i] == c;
  }

  lemma AcknowledgesFor(cfg: Config, sh: Shared, w: Worker, c: ToolCall) returns (sh': Shared, w': Worker)
    requires Holds(sh, w, c) && w.pc.PrepareAck? && c.callId !in w.pc.done
    ensures WorkerStep(cfg, sh, w, Save(Acked), sh', w') && Holds(sh', w', c) && w'.pc == Open(w.pc.given)
  {
    KeptCall(w.exec.batch.value.calls, w.pc.done, c);
    sh' := Saved(sh, Acknowledge(w.exec, w.pc.done, w.revision, w.lastSequence), sh.hist);
    w' := AfterSave(w, sh'.exec);
    hide AllCompleted, CompleteCalls, DistinctIds;
  }

  lemma OpensFor(cfg: Config, sh: Shared, w: Worker, c: ToolCall) returns (gates: seq<bool>, i: nat, w': Worker)
    requires Holds(sh, w, c) && w.pc.Open?
    ensures WorkerStep(cfg, sh, w, OpenBatch(gates), sh, w') && Holds(sh, w', c) && w'.pc.Dispatching?
    ensures DispatchShape(w'.pc.d) && i < |w'.pc.d.calls| && w'.pc.d.calls[i] == c && !w'.pc.d.gates[i] &&
      MayBegin(w'.pc.d, i)
  {
    var calls := w.exec.batch.value.calls;
    RemainingMembers(calls);
    assert c in Remaining(calls);
    hide Remaining;
    i :| 0 <= i < |Remaining(calls)| && Remaining(calls)[i] == c;
    gates := seq(|Remaining(calls)|, k => false);
    w' := Opened(w, w.pc.given, gates);
    var d := w'.pc.d;
    assert GatesSettled(d) && !AnyPending(d);
  }

  lemma BeginsFor(cfg: Config, sh: Shared, w: Worker, c: ToolCall, i: nat) returns (sh': Shared, w': Worker)
    requires Holds(sh, w, c) && w.pc.Dispatching? && DispatchShape(w.pc.d) && i < |w.pc.d.calls| && w.pc.d.calls[i] == c
    requires !w.pc.d.gates[i] && MayBegin(w.pc.d, i)
    ensures WorkerStep(cfg, sh, w, Begin(i, Acked), sh', w')
    ensures w'.pc.Dispatching? && DispatchShape(w'.pc.d) && |w'.pc.d.calls| == |w.pc.d.calls|
    ensures w'.pc.d.calls[i] == c && !w'.pc.d.gates[i] && w'.pc.d.outcomes[i].Running?
  {
    var calls, d := w.exec.batch.value.calls, w.pc.d;
    OnlyCall(calls, c);
    var begun := BeginCall(w.exec, c.callId, !w.kind.Invocation?);
    assert begun.Claimed?;
    sh' := Saved(sh, begun.r, BeginHistory(sh.hist, c, false));
    w' := w.(exec := sh'.exec,
             pc := Dispatching(d.(outcomes := d.outcomes[i := Running], started := d.started + {c.callId})));
    hide BeginCall, MayBegin, DistinctIds;
  }

  lemma OnlyCall(calls: seq<ToolCall>, c: ToolCall)
    requires DistinctIds(calls) && c in calls
    ensures FindCall(calls, c.callId) == Some(c)
  {
    var i :| 0 <= i < |calls| && calls[i] == c;
    var d := FindCall(calls, c.callId).value;
    var j :| 0 <= j < |calls| && calls[j] == d;
  }

  /** The step that starts the handler, in the run so far. */
  lemma Started(cfg: Config, s: State, run: seq<State>, labels: seq<Label>, sh: Shared, t: nat, w: Worker, c: ToolCall,
                i: nat)
    returns (run': seq<State>, labels': seq<Label>)
    requires Reached(cfg, s, run, labels, sh, t, w) && Holds(sh, w, c) && w.pc.Dispatching? && DispatchShape(w.pc.d)
    requires i < |w.pc.d.calls| && w.pc.d.calls[i] == c && !w.pc.d.gates[i] && MayBegin(w.pc.d, i)
    ensures StartsLast(cfg, s, run', labels', t, c) && labels <= labels'
  {
    var sh', w' := BeginsFor(cfg, sh, w, c, i);
    hide WorkerStep, Next, Holds, MayBegin;
    var last := run[|labels|];
    run', labels' := Onward(cfg, s, run, labels, sh, t, w, Begin(i, Acked), sh', w');
    StartSeen(cfg, s, run', labels', sh', t, w', c, i);
  }

  lemma StartSeen(cfg: Config, s: State, run: seq<State>, labels: seq<Label>, sh: Shared, t: nat, w: Worker,
                  c: ToolCall, i: nat)
    requires Reached(cfg, s, run, labels, sh, t, w) && labels != [] && labels[|labels| - 1] == Act(t, Begin(i, Acked))
    requires w.pc.Dispatching? && DispatchShape(w.pc.d) && i < |w.pc.d.calls|
    requires w.pc.d.calls[i] == c && !w.pc.d.gates[i] && w.pc.d.outcomes[i].Running?
    ensures StartsLast(cfg, s, run, labels, t, c)
  {
    var k := |labels| - 1;
    assert Next(cfg, run[k], labels[k], run[k + 1]);
    assert t in run[k].workers;
    hide Next;
  }

  /** From prepareToolBatch on: acknowledge what is answered, open the batch, start the call. */
  lemma StartsFromPrepare(cfg: Config, s: State, run: seq<State>, labels: seq<Label>, sh: Shared, t: nat, w: Worker,
                          c: ToolCall)
    returns (run': seq<State>, labels': seq<Label>)
    requires Reached(cfg, s, run, labels, sh, t, w) && Holds(sh, w, c) && w.pc.Prepare?
    requires Unanswered(cfg, w.messages, w.exec.batch.value.calls, c.callId)
    ensures StartsLast(cfg, s, run', labels', t, c) && labels <= labels'
  {
    var index, w1 := MatchesFor(cfg, sh, w, c);
    hide Reached, WorkerStep, Holds, Unanswered, StartsLast, MayBegin, DispatchShape;
    run', labels' := Onward(cfg, s, run, labels, sh, t, w, Match(index), sh, w1);
    var sh2, w2 := sh, w1;
    if w1.pc.PrepareAck? {
      sh2, w2 := AcknowledgesFor(cfg, sh, w1, c);
      run', labels' := Onward(cfg, s, run', labels', sh, t, w1, Save(Acked), sh2, w2);
    }
    var gates, i, w3 := OpensFor(cfg, sh2, w2, c);
    run', labels' := Onward(cfg, s, run', labels', sh2, t, w2, OpenBatch(gates), sh2, w3);
    run', labels' := Started(cfg, s, run', labels', sh2, t, w3, c, i);
  }

  lemma SameUnanswered(cfg: Config, ms: seq<Message>, calls: seq<ToolCall>, calls': seq<ToolCall>, id: string)
    requires SameCalls(calls, calls') && Unanswered(cfg, ms, calls, id)
    ensures Unanswered(cfg, ms, calls', id)
  {
    var index: nat :| LastMatch(cfg, ms, calls, index) && ActiveBatch(cfg.hash, ms[index..], calls) &&
      id !in ResultIds(ms[index + 1..]);
    SameActive(cfg, ms[index..], calls, calls');
    forall m ensures UseMatches(cfg.hash, m, calls') <==> UseMatches(cfg.hash, m, calls) {}
    hide UseMatches, SameCalls, ActiveBatch;
    assert LastMatch(cfg, ms, calls', index);
  }

  lemma SameActive(cfg: Config, ms: seq<Message>, calls: seq<ToolCall>, calls': seq<ToolCall>)
    requires SameCalls(calls, calls') && ActiveBatch(cfg.hash, ms, calls)
    ensures ActiveBatch(cfg.hash, ms, calls')
  {
    SameIds(calls, calls');
    assert forall id :: (exists c | c in calls :: c.callId == id) <==> id in CallIds(calls);
    assert forall id :: (exists c | c in calls' :: c.callId == id) <==> id in CallIds(calls');
    assert UseMatches(cfg.hash, ms[0], calls');
    hide UseMatches, CallIds, SameCalls;
  }

  // ---- A resume ---------------------------------------------------------------------------------------------------

  /** The call as the decisions of a resume leave it. */
  function Decided(c: ToolCall, ids: seq<string>, answer: string -> Decision): ToolCall {
    if c.callId in ids then c.(approval := Some(answer(c.callId))) else c
  }

  /**
   A resume is about to save its decisions into the current record. `c` is ready and unanswered, and is allowed by the
   decisions or was never asked about.
   */
  ghost predicate Resumes(cfg: Config, sh: Shared, w: Worker, c: ToolCall) {
    w.pc.SaveDecisions? && w.exec == sh.exec && w.exec.batch.Some? && c in w.exec.batch.value.calls &&
    c.status.Ready? &&
    (forall id | id in w.pc.ids :: exists d | d in w.exec.batch.value.calls :: d.callId == id) &&
    Unanswered(cfg, w.messages, w.exec.batch.value.calls, c.callId) &&
    if c.callId in w.pc.ids then w.pc.answer(c.callId).allow else c.approval.None? || c.approval.value.allow
  }

  lemma DecisionsSave(cfg: Config, sh: Shared, w: Worker) returns (sh': Shared, w': Worker)
    requires w.pc.SaveDecisions? && w.exec == sh.exec && w.exec.batch.Some?
    requires forall id | id in w.pc.ids :: exists d | d in w.exec.batch.value.calls :: d.callId == id
    ensures WorkerStep(cfg, sh, w, Save(Acked), sh', w') && w'.pc == Prepare(true) && w'.kind == w.kind
    ensures w'.messages == w.messages && w'.exec == sh'.exec && w'.exec.batch.Some?
    ensures w'.exec.batch.value.calls == DecideCalls(w.exec.batch.value.calls, w.pc.ids, w.pc.answer)
  {
    var next := WithCalls(w.exec, DecideCalls(w.exec.batch.value.calls, w.pc.ids, w.pc.answer));
    hide DecideCalls;
    assert SaveTarget(cfg, w) == Some(next);
    sh' := Saved(sh, next, HistoryAfter(sh, w));
    w' := w.(exec := sh'.exec, pc := Prepare(true));
    hide SaveTarget, HistoryAfter;
  }

  lemma DecidedHolds(cfg: Config, ms: seq<Message>, calls: seq<ToolCall>, ids: seq<string>, answer: string -> Decision,
                     c: ToolCall)
    requires DistinctIds(calls) && c in calls && Unanswered(cfg, ms, calls, c.callId)
    ensures var calls' := DecideCalls(calls, ids, answer);
      DistinctIds(calls') && Decided(c, ids, answer) in calls' && Unanswered(cfg, ms, calls', c.callId)
  {
    var calls' := DecideCalls(calls, ids, answer);
    DecidedCallsSame(calls, ids, answer);
    hide Unanswered;
    SameUnanswered(cfg, ms, calls, calls', c.callId);
    SameIds(calls, calls');
    var i :| 0 <= i < |calls| && calls[i] == c;
    assert calls'[i] == Decided(c, ids, answer);
  }

  lemma DecidesFor(cfg: Config, sh: Shared, w: Worker, c: ToolCall) returns (sh': Shared, w': Worker)
    requires Resumes(cfg, sh, w, c) && DistinctIds(w.exec.batch.value.calls)
    ensures WorkerStep(cfg, sh, w, Save(Acked), sh', w') && Holds(sh', w', Decided(c, w.pc.ids, w.pc.answer))
    ensures w'.pc == Prepare(true) && Unanswered(cfg, w'.messages, w'.exec.batch.value.calls, c.callId)
  {
    hide WorkerStep, Unanswered, DecideCalls, DistinctIds;
    sh', w' := DecisionsSave(cfg, sh, w);
    DecidedHolds(cfg, w.messages, w.exec.batch.value.calls, w.pc.ids, w.pc.answer, c);
  }

  lemma Distinct(cfg: Config, s: State, t: nat)
    requires Inv(cfg, s) && t in s.workers && s.workers[t].exec.batch.Some?
    ensures DistinctIds(s.workers[t].exec.batch.value.calls)
  {
    PcNow(cfg, s, t);
    hide Inv, PcOk;
  }

  /**
   In every reachable state in which a resume is about to save decisions that allow a ready call, its own steps can
   start that call, and the call carries the decision that was given.
   */
  lemma ResumeCanStart(cfg: Config, run: seq<State>, labels: seq<Label>, t: nat, c: ToolCall)
    returns (more: seq<State>, steps: seq<Label>)
    requires IsRun(cfg, run, labels) && t in run[|labels|].workers
    requires Resumes(cfg, run[|labels|].sh, run[|labels|].workers[t], c)
    ensures var pc := run[|labels|].workers[t].pc;
      StartsLast(cfg, run[|labels|], more, steps, t, Decided(c, pc.ids, pc.answer))
  {
    RunLength(cfg, run, labels);
    var s := run[|labels|];
    assert s.workers[t].exec.batch.Some?;
    hide IsRun, Inv, Resumes, StartsLast;
    RunInv(cfg, run, labels, |labels|);
    Distinct(cfg, s, t);
    hide *;
    var sh1, w1 := DecidesFor(cfg, s.sh, s.workers[t], c);
    Stays(cfg, s, t);
    more, steps := Onward(cfg, s, [s], [], s.sh, t, s.workers[t], Save(Acked), sh1, w1);
    more, steps := StartsFromPrepare(cfg, s, more, steps, sh1, t, w1, DecidedCall(s.workers[t], c));
  }

  function DecidedCall(w: Worker, c: ToolCall): (d: ToolCall)
    requires w.pc.SaveDecisions?
    ensures d == Decided(c, w.pc.ids, w.pc.answer) && d.callId == c.callId
  {
    Decided(c, w.pc.ids, w.pc.answer)
  }

  // ---- A recovery ---------------------------------------------------------------------------------------------------

  /** The record waits for its ready batch to be finished, and nothing in it needs a human. */
  ghost predicate Recoverable(cfg: Config, sh: Shared) {
    var e := sh.exec;
    e.status.StatusRunning? && e.phase.PhaseTools? && e.pendingPause.None? && e.batch.Some? &&
    e.batch.value.resolution.None? && 0 < e.batch.value.useLastSequence <= |sh.log| &&
    ActiveBatch(cfg.hash, sh.log[e.batch.value.useLastSequence - 1..], e.batch.value.calls) &&
    (forall c | c in e.batch.value.calls :: !c.status.Planned? && (c.status.InFlight? ==> c.replaySafe))
  }

  /** `c` is ready or may be replayed, was not denied, and has no canonical result. */
  ghost predicate Replayable(sh: Shared, c: ToolCall)
    requires sh.exec.batch.Some? && sh.exec.batch.value.useLastSequence <= |sh.log|
  {
    c in sh.exec.batch.value.calls && (c.status.Ready? || (c.status.InFlight? && c.replaySafe)) &&
    (c.approval.None? || c.approval.value.allow) &&
    c.callId !in ResultIds(sh.log[sh.exec.batch.value.useLastSequence..])
  }

  ghost function Reader(sh: Shared): Worker { Worker(Recovery, sh.exec, 0, 0, 0, [], 0, RecoverLog) }

  lemma RecoveryReads(cfg: Config, s: State, t: nat) returns (s': State, w: Worker)
    requires Recoverable(cfg, s.sh) && t !in s.workers
    ensures Next(cfg, s, Spawn(t, Reader(s.sh)), s') && s'.sh == s.sh && t in s'.workers &&
      s'.workers[t] == Reader(s.sh)
    ensures WorkerStep(cfg, s.sh, Reader(s.sh), LoadLog(0, Message(User, [])), s.sh, w)
    ensures w.kind.Recovery? && w.pc.Inspect? && w.exec == s.sh.exec
    ensures w.messages == s.sh.log[s.sh.exec.batch.value.useLastSequence - 1..]
  {
    s' := s.(workers := s.workers[t := Reader(s.sh)]);
    hide ActiveBatch;
    w := Loaded(s.sh, Reader(s.sh), s.sh.exec.batch.value.useLastSequence - 1).(pc := Inspect);
  }

  /** Inspection of a ready batch: acknowledge what is answered, or go on at once. */
  lemma RecoveryInspects(cfg: Config, sh: Shared, w: Worker)
    requires Recoverable(cfg, sh) && w.exec == sh.exec && w.kind.Recovery? && w.pc.Inspect?
    requires w.messages == sh.log[sh.exec.batch.value.useLastSequence - 1..] && sh.exec.batch.value.calls != []
    ensures WorkerStep(cfg, sh, w, Decide, sh, Inspected(cfg, w))
    ensures var done := ResultIds(w.messages[1..]);
      Inspected(cfg, w) == w.(pc := if done == [] then Check else RecoverAck(IdSet(done)))
  {
    assert w.messages != [];
    assert sh.exec.batch.value.calls[0] in sh.exec.batch.value.calls;
    hide ActiveBatch;
  }

  ghost predicate NothingUncertain(e: Record) {
    e.batch.Some? && forall c | c in e.batch.value.calls && c.status.InFlight? :: c.replaySafe
  }

  lemma CompletedFacts(calls: seq<ToolCall>, done: set<string>)
    requires forall c | c in calls && c.status.InFlight? :: c.replaySafe
    ensures SameCalls(calls, CompleteCalls(calls, done))
    ensures forall c | c in CompleteCalls(calls, done) && c.status.InFlight? :: c.replaySafe
  {
    forall d | d in CompleteCalls(calls, done) && d.status.InFlight? ensures d.replaySafe {
      var i :| 0 <= i < |calls| && CompleteCalls(calls, done)[i] == d;
      assert calls[i] in calls;
    }
  }

  lemma RecoveryAcks(cfg: Config, sh: Shared, w: Worker, c: ToolCall) returns (sh': Shared, w': Worker)
    requires Holds(sh, w, c) && w.pc.RecoverAck? && c.callId !in w.pc.done && NothingUncertain(w.exec)
    ensures WorkerStep(cfg, sh, w, Save(Acked), sh', w') && Holds(sh', w', c) && w'.pc.Check? &&
      NothingUncertain(w'.exec)
    ensures w'.kind == w.kind && w'.messages == w.messages &&
      SameCalls(w.exec.batch.value.calls, w'.exec.batch.value.calls)
  {
    hide AllCompleted, CompleteCalls, DistinctIds, SameCalls;
    KeptCall(w.exec.batch.value.calls, w.pc.done, c);
    CompletedFacts(w.exec.batch.value.calls, w.pc.done);
    sh' := Saved(sh, Acknowledge(w.exec, w.pc.done, w.revision, w.lastSequence), sh.hist);
    w' := AfterSave(w, sh'.exec);
  }

  lemma RecoveryChecks(cfg: Config, sh: Shared, w: Worker)
    requires w.pc.Check? && NothingUncertain(w.exec)
    ensures WorkerStep(cfg, sh, w, Decide, sh, Checked(w)) && Checked(w).pc.Prepare? &&
      Checked(w) == w.(pc := Checked(w).pc)
  {
  }

  lemma BoundaryIsFirst(cfg: Config, ms: seq<Message>, calls: seq<ToolCall>, id: string)
    requires ActiveBatch(cfg.hash, ms, calls) && id !in ResultIds(ms[1..])
    ensures Unanswered(cfg, ms, calls, id)
  {
    assert ms[0..] == ms;
    forall j | 0 < j < |ms| ensures !UseMatches(cfg.hash, ms[j], calls) { assert ms[j] in ms[1..]; }
    assert LastMatch(cfg, ms, calls, 0) && ActiveBatch(cfg.hash, ms[0..], calls) && id !in ResultIds(ms[0 + 1..]);
  }

  /** A recovery that has read record and log, up to the start. */
  lemma StartsFromInspect(cfg: Config, s: State, run: seq<State>, labels: seq<Label>, sh: Shared, t: nat, w: Worker,
                          c: ToolCall)
    returns (run': seq<State>, labels': seq<Label>)
    requires Reached(cfg, s, run, labels, sh, t, w) && Recoverable(cfg, sh) && Replayable(sh, c)
    requires Holds(sh, w, c) && w.kind.Recovery? && w.pc.Inspect?
    requires w.messages == sh.log[sh.exec.batch.value.useLastSequence - 1..]
    ensures StartsLast(cfg, s, run', labels', t, c) && labels <= labels'
  {
    var u := sh.exec.batch.value.useLastSequence;
    assert w.messages[1..] == sh.log[u..];
    RecoveryInspects(cfg, sh, w);
    hide Reached, WorkerStep, StartsLast, ResultIds, ActiveBatch, Inspected, Checked;
    BoundaryIsFirst(cfg, w.messages, w.exec.batch.value.calls, c.callId);
    var w1 := Inspected(cfg, w);
    run', labels' := Onward(cfg, s, run, labels, sh, t, w, Decide, sh, w1);
    var sh2, w2 := sh, w1;
    hide Holds, Recoverable, Unanswered, Replayable;
    HoldsMoved(sh, w, w1, c);
    if w1.pc.RecoverAck? {
      sh2, w2 := RecoveryAcks(cfg, sh, w1, c);
      run', labels' := Onward(cfg, s, run', labels', sh, t, w1, Save(Acked), sh2, w2);
      SameUnanswered(cfg, w.messages, w.exec.batch.value.calls, w2.exec.batch.value.calls, c.callId);
    }
    run', labels' := StartsFromCheck(cfg, s, run', labels', sh2, t, w2, c);
  }

  lemma StartsFromCheck(cfg: Config, s: State, run: seq<State>, labels: seq<Label>, sh: Shared, t: nat, w: Worker,
                        c: ToolCall)
    returns (run': seq<State>, labels': seq<Label>)
    requires Reached(cfg, s, run, labels, sh, t, w) && Holds(sh, w, c) && w.pc.Check? && NothingUncertain(w.exec)
    requires Unanswered(cfg, w.messages, w.exec.batch.value.calls, c.callId)
    ensures StartsLast(cfg, s, run', labels', t, c) && labels <= labels'
  {
    assert w.exec.batch.Some?;
    RecoveryChecks(cfg, sh, w);
    hide Reached, WorkerStep, StartsLast, Holds, Unanswered, Checked;
    run', labels' := Onward(cfg, s, run, labels, sh, t, w, Decide, sh, Checked(w));
    HoldsMoved(sh, w, Checked(w), c);
    run', labels' := StartsFromPrepare(cfg, s, run', labels', sh, t, Checked(w), c);
  }

  lemma HoldsMoved(sh: Shared, w: Worker, w': Worker, c: ToolCall)
    requires Holds(sh, w, c) && w' == w.(pc := w'.pc)
    ensures Holds(sh, w', c)
  {
  }

  /**
   In every reachable state with a recoverable record, a recovery that nobody disturbs starts any call that is ready, or
   in flight and replay-safe: it spawns, and its own steps lead to the start.
   */
  lemma RecoveryCanStart(cfg: Config, run: seq<State>, labels: seq<Label>, t: nat, c: ToolCall)
    returns (s: State, more: seq<State>, steps: seq<Label>)
    requires IsRun(cfg, run, labels) && Recoverable(cfg, run[|labels|].sh) && Replayable(run[|labels|].sh, c)
    requires t !in run[|labels|].workers
    ensures Next(cfg, run[|labels|], Spawn(t, Reader(run[|labels|].sh)), s) && StartsLast(cfg, s, more, steps, t, c)
  {
    RunLength(cfg, run, labels);
    var start := run[|labels|];
    hide IsRun, Inv;
    RunInv(cfg, run, labels, |labels|);
    assert start.sh.exec.batch.Some?;
    hide *;
    CurrentDistinct(cfg, start);
    s, more, steps := ReaderStarts(cfg, start, t, c);
  }

  lemma ReaderStarts(cfg: Config, start: State, t: nat, c: ToolCall)
    returns (s: State, more: seq<State>, steps: seq<Label>)
    requires Recoverable(cfg, start.sh) && Replayable(start.sh, c) && t !in start.workers
    requires DistinctIds(start.sh.exec.batch.value.calls)
    ensures Next(cfg, start, Spawn(t, Reader(start.sh)), s) && StartsLast(cfg, s, more, steps, t, c)
  {
    hide StartsLast, Next, WorkerStep, ResultIds, ActiveBatch, DistinctIds;
    var w;
    s, w := RecoveryReads(cfg, start, t);
    assert Holds(start.sh, w, c);
    hide *;
    Stays(cfg, s, t);
    more, steps := Onward(cfg, s, [s], [], s.sh, t, s.workers[t], LoadLog(0, Message(User, [])), s.sh, w);
    more, steps := StartsFromInspect(cfg, s, more, steps, s.sh, t, w, c);
  }

  lemma CurrentDistinct(cfg: Config, s: State)
    requires Inv(cfg, s) && s.sh.exec.batch.Some?
    ensures DistinctIds(s.sh.exec.batch.value.calls)
  {
    SharedHolds(cfg, s);
    hide Inv;
  }

  // ---- A fresh plan -------------------------------------------------------------------------------------------------

  lemma PlanSaves(cfg: Config, sh: Shared, w: Worker) returns (sh': Shared, w': Worker)
    requires w.pc.Plan? && w.exec == sh.exec && w.exec.batch.None? && w.revision == sh.revision && Flushed(w)
    ensures WorkerStep(cfg, sh, w, Save(Acked), sh', w') && w'.pc.AppendUse? && w'.kind == w.kind && sh'.log == sh.log
    ensures w'.exec == sh'.exec && w'.revision == sh'.revision && w'.persistedCount == |w.messages| &&
      w'.exec.batch.Some?
    ensures w'.exec.batch.value.calls == PlanCalls(cfg.hash, cfg.digest, w.exec.id, w.pc.requests)
    ensures w'.messages == w.messages + [UseMessage(w'.exec.batch.value.calls)]
  {
    hide PlanCalls, UseMessage;
    var next := SaveTarget(cfg, w).value;
    sh' := Saved(sh, next, HistoryAfter(sh, w));
    w' := AfterSave(w, sh'.exec);
    hide HistoryAfter;
  }

  lemma PlanAnnounces(cfg: Config, sh: Shared, w: Worker) returns (sh': Shared, w': Worker)
    requires w.pc.AppendUse? && w.exec == sh.exec && w.revision == sh.revision && w.exec.batch.Some?
    requires |w.messages| == w.persistedCount + 1
    ensures WorkerStep(cfg, sh, w, Append(Acked), sh', w') && w'.pc.MarkingReady? && w'.kind == w.kind
    ensures w'.exec == sh'.exec == sh.exec && w'.messages == w.messages &&
      sh'.log == sh.log + [w.messages[w.persistedCount]]
  {
    assert w.messages[w.persistedCount..] == [w.messages[w.persistedCount]];
    sh' := sh.(log := sh.log + w.messages[w.persistedCount..], revision := sh.revision + 1);
    w' := AfterAppend(w, sh.revision + 1, |sh.log| + 1);
  }

  lemma PlanReadies(cfg: Config, sh: Shared, w: Worker) returns (sh': Shared, w': Worker)
    requires w.pc.MarkingReady? && w.exec == sh.exec && w.kind.Invocation? && w.exec.batch.Some?
    requires AllPlanned(w.exec.batch.value.calls)
    ensures WorkerStep(cfg, sh, w, Save(Acked), sh', w') && w'.pc == Prepare(false) && w'.kind == w.kind
    ensures w'.exec == sh'.exec && w'.messages == w.messages && w'.exec.batch.Some?
    ensures w'.exec.batch.value.calls == ReadyCalls(w.exec.batch.value.calls)
  {
    hide ReadyCalls, AllPlanned;
    sh' := Saved(sh, MarkReady(w.exec, w.revision, w.lastSequence), HistoryAfter(sh, w));
    w' := AfterSave(w, sh'.exec);
    hide HistoryAfter;
  }

  /** The plan of acceptable requests: distinct calls that its own ToolUse message announces. */
  lemma PlanIsOpen(cfg: Config, id: string, rs: seq<Request>, ms: seq<Message>, i: nat)
    requires i < |rs| && (forall j, k | 0 <= j < k < |rs| :: rs[j].id != rs[k].id)
    requires forall r | r in rs :: cfg.hash(r.input).Some?
    ensures var calls := PlanCalls(cfg.hash, cfg.digest, id, rs);
      AllPlanned(calls) && DistinctIds(ReadyCalls(calls)) && ReadyCalls(calls)[i] in ReadyCalls(calls) &&
      Unanswered(cfg, ms + [UseMessage(calls)], ReadyCalls(calls), rs[i].id)
  {
    var calls := PlanCalls(cfg.hash, cfg.digest, id, rs);
    var out, n, use := ms + [UseMessage(calls)], |ms|, UseMessage(calls);
    forall k | 0 <= k < |rs| ensures cfg.hash(rs[k].input).Some? { assert rs[k] in rs; }
    assert UseMatches(cfg.hash, use, ReadyCalls(calls));
    assert out[n..] == [use] && [use][1..] == [] && out[n + 1..] == [];
    assert LastMatch(cfg, out, ReadyCalls(calls), n);
    assert ResultIds([]) == [];
    assert ActiveBatch(cfg.hash, out[n..], ReadyCalls(calls)) && rs[i].id !in ResultIds(out[n + 1..]);
  }

  /**
   In every reachable state in which an invocation is about to save a plan over the current record and log, its own
   steps can start each of the requested calls; the call carries the request's ID, name, key and replay-safety.
   */
  lemma PlanCanStart(cfg: Config, run: seq<State>, labels: seq<Label>, t: nat, i: nat)
    returns (more: seq<State>, steps: seq<Label>, c: ToolCall)
    requires IsRun(cfg, run, labels) && t in run[|labels|].workers
    requires var s, w := run[|labels|], run[|labels|].workers[t];
      w.pc.Plan? && w.exec == s.sh.exec && w.exec.batch.None? && w.revision == s.sh.revision && i < |w.pc.requests|
    ensures StartsLast(cfg, run[|labels|], more, steps, t, c)
    ensures var r := run[|labels|].workers[t].pc.requests[i];
      c.callId == r.id && c.name == r.name && c.replaySafe == r.replaySafe &&
      c.key == ToolExecutionKey(cfg.digest, cfg.id, r.id) &&
      cfg.hash(r.input) == Some(c.inputHash)
  {
    RunLength(cfg, run, labels);
    var s, w := run[|labels|], run[|labels|].workers[t];
    var rs := w.pc.requests;
    hide IsRun, Inv, StartsLast, WorkerStep, Reached, Holds, Unanswered;
    RunInv(cfg, run, labels, |labels|);
    PlannerFacts(cfg, s, t);
    PlanIsOpen(cfg, w.exec.id, rs, w.messages, i);
    c := ReadyCalls(PlanCalls(cfg.hash, cfg.digest, w.exec.id, rs))[i];
    assert rs[i] in rs;
    hide PlanCalls, ReadyCalls, AllPlanned, UseMessage, DistinctIds;
    Stays(cfg, s, t);
    var sh1, w1 := PlanSaves(cfg, s.sh, w);
    more, steps := Onward(cfg, s, [s], [], s.sh, t, w, Save(Acked), sh1, w1);
    var sh2, w2 := PlanAnnounces(cfg, sh1, w1);
    more, steps := Onward(cfg, s, more, steps, sh1, t, w1, Append(Acked), sh2, w2);
    var sh3, w3 := PlanReadies(cfg, sh2, w2);
    more, steps := Onward(cfg, s, more, steps, sh2, t, w2, Save(Acked), sh3, w3);
    FreshHolds(sh3, w3, c);
    more, steps := StartsFromPrepare(cfg, s, more, steps, sh3, t, w3, c);
  }

  lemma FreshHolds(sh: Shared, w: Worker, c: ToolCall)
    requires w.exec == sh.exec && w.exec.batch.Some? && DistinctIds(w.exec.batch.value.calls) &&
      c in w.exec.batch.value.calls
    requires c.status.Ready? && c.approval.None?
    ensures Holds(sh, w, c)
  {
  }

  lemma PlannerFacts(cfg: Config, s: State, t: nat)
    requires Inv(cfg, s) && t in s.workers && s.workers[t].pc.Plan?
    ensures var w := s.workers[t]; var rs := w.pc.requests;
      w.kind.Invocation? && Flushed(w) && w.exec.id == cfg.id &&
      (forall j, k | 0 <= j < k < |rs| :: rs[j].id != rs[k].id) &&
      forall r | r in rs :: cfg.hash(r.input).Some?
  {
    PcNow(cfg, s, t);
    hide Inv;
  }

  // ---- Decisions reach the dispatch -------------------------------------------------------------------------------

  /** Between the saved decisions and the dispatch that they are for. */
  predicate Preparing(pc: Pc) {
    (pc.Prepare? && pc.given) || (pc.PrepareAck? && pc.given) || (pc.Open? && pc.given)
  }

  /** Every named call of the worker's record carries its decision. */
  ghost predicate Carries(w: Worker, ids: seq<string>, answer: string -> Decision) {
    w.exec.batch.Some? ==>
      forall c | c in w.exec.batch.value.calls && c.callId in ids :: c.approval == Some(answer(c.callId))
  }

  lemma DecidedCarry(calls: seq<ToolCall>, ids: seq<string>, answer: string -> Decision)
    ensures forall c | c in DecideCalls(calls, ids, answer) && c.callId in ids :: c.approval == Some(answer(c.callId))
  {
  }

  lemma CompletedCarry(calls: seq<ToolCall>, done: set<string>, ids: seq<string>, answer: string -> Decision)
    requires forall c | c in calls && c.callId in ids :: c.approval == Some(answer(c.callId))
    ensures forall c | c in CompleteCalls(calls, done) && c.callId in ids :: c.approval == Some(answer(c.callId))
  {
    forall c | c in CompleteCalls(calls, done) && c.callId in ids ensures c.approval == Some(answer(c.callId)) {
      var i :| 0 <= i < |calls| && CompleteCalls(calls, done)[i] == c;
      assert calls[i] in calls;
    }
  }

  lemma SavedCarry(cfg: Config, s: State, l: Label, s': State, t: nat, ids: seq<string>, answer: string -> Decision)
    requires Next(cfg, s, l, s') && SaveTook(s, l, s', SaveDecisions(ids, answer)) && l.t == t
    requires t in s'.workers && Preparing(s'.workers[t].pc)
    ensures Carries(s'.workers[t], ids, answer)
  {
    var w := s.workers[t];
    DecidedCarry(if w.exec.batch.Some? then w.exec.batch.value.calls else [], ids, answer);
    hide DecideCalls, HistoryAfter;
  }

  lemma PreparedCarry(cfg: Config, s: State, l: Label, s': State, t: nat, ids: seq<string>, answer: string -> Decision)
    requires Next(cfg, s, l, s') && t in s.workers && t in s'.workers && Carries(s.workers[t], ids, answer)
    requires Preparing(s.workers[t].pc) && Preparing(s'.workers[t].pc)
    ensures Carries(s'.workers[t], ids, answer)
  {
    var w := s.workers[t];
    if l.Act? && l.t == t && l.a.Save? && w.exec.batch.Some? && w.pc.PrepareAck? {
      CompletedCarry(w.exec.batch.value.calls, w.pc.done, ids, answer);
    }
    hide CompleteCalls, AllCompleted, HistoryAfter, BeginCall, ActiveBatch, LastMatch, MayBegin, MaySettle, MayFinish,
         Collected,
         Inspected, Checked, Loaded, PlanAllowed;
  }

  lemma {:induction false} RunCarry(cfg: Config, run: seq<State>, labels: seq<Label>, j: nat, k: nat, t: nat,
                                    ids: seq<string>,
                                    answer: string -> Decision)
    requires IsRun(cfg, run, labels) && j < k <= |labels| &&
      SaveTook(run[j], labels[j], run[j + 1], SaveDecisions(ids, answer))
    requires labels[j].t == t && forall m | j < m <= k :: t in run[m].workers && Preparing(run[m].workers[t].pc)
    ensures t in run[k].workers && Preparing(run[k].workers[t].pc) && Carries(run[k].workers[t], ids, answer)
  {
    hide Next, Init, SaveTook, Carries;
    if k == j + 1 {
      SavedCarry(cfg, run[j], labels[j], run[k], t, ids, answer);
    } else {
      RunCarry(cfg, run, labels, j, k - 1, t, ids, answer);
      PreparedCarry(cfg, run[k - 1], labels[k - 1], run[k], t, ids, answer);
    }
  }

  /**
   After an accepted save of decisions, the dispatch that this worker opens next decides every remaining call that was
   asked about exactly as it was answered; the allowed ones may begin at once.
   */
  lemma DecisionsReachDispatch(cfg: Config, run: seq<State>, labels: seq<Label>, j: nat, k: nat, t: nat,
                               ids: seq<string>,
                               answer: string -> Decision, gates: seq<bool>)
    requires IsRun(cfg, run, labels) && j < k < |labels| &&
      SaveTook(run[j], labels[j], run[j + 1], SaveDecisions(ids, answer))
    requires labels[j].t == t && forall m | j < m <= k :: t in run[m].workers && Preparing(run[m].workers[t].pc)
    requires labels[k] == Act(t, OpenBatch(gates)) && Dispatches(run[k + 1], t)
    ensures var d := run[k + 1].workers[t].pc.d;
      DispatchShape(d) && forall i | 0 <= i < |d.calls| && d.calls[i].callId in ids ::
        DecisionFor(d, i) == Some(answer(d.calls[i].callId)) && (answer(d.calls[i].callId).allow ==> MayBegin(d, i))
  {
    RunCarry(cfg, run, labels, j, k, t, ids, answer);
    assert Next(cfg, run[k], labels[k], run[k + 1]);
    hide IsRun;
    OpenedCarry(run[k].workers[t], gates, ids, answer);
    hide Opened, Carries, MayBegin;
  }

  lemma OpenedCarry(w: Worker, gates: seq<bool>, ids: seq<string>, answer: string -> Decision)
    requires w.exec.batch.Some? && w.pc.Open? && w.pc.given && |gates| == |Remaining(w.exec.batch.value.calls)| &&
      Carries(w, ids, answer)
    ensures var v := Opened(w, true, gates);
      v.pc.Dispatching? ==>
        var d := v.pc.d;
        DispatchShape(d) && forall i | 0 <= i < |d.calls| && d.calls[i].callId in ids ::
          DecisionFor(d, i) == Some(answer(d.calls[i].callId)) && (answer(d.calls[i].callId).allow ==> MayBegin(d, i))
  {
    var calls := Remaining(w.exec.batch.value.calls);
    RemainingMembers(w.exec.batch.value.calls);
    hide Remaining;
    forall i | 0 <= i < |calls| && calls[i].callId in ids ensures calls[i].approval == Some(answer(calls[i].callId)) {
      assert calls[i] in calls;
    }
  }

  // ---- A recorded decision binds ------------------------------------------------------------------------------------

  /** The dispatch knows every recorded decision of its calls, and no other. */
  ghost predicate Honours(d: Dispatch) {
    DispatchShape(d) && forall i | 0 <= i < |d.calls| :: DecisionFor(d, i) == d.calls[i].approval
  }

  lemma DispatchComes(cfg: Config, sh: Shared, w: Worker, a: Action, sh': Shared, w': Worker)
    requires WorkerStep(cfg, sh, w, a, sh', w') && w'.pc.Dispatching?
    ensures w.pc.Dispatching? ==>
      w'.pc.d == w.pc.d.(outcomes := w'.pc.d.outcomes, started := w'.pc.d.started) &&
      |w'.pc.d.outcomes| == |w.pc.d.outcomes|
    ensures !w.pc.Dispatching? ==>
      w.pc.Open? && a.OpenBatch? && w.exec.batch.Some? &&
      |a.gates| == |Remaining(w.exec.batch.value.calls)| && w' == Opened(w, w.pc.given, a.gates)
  {
    hide BeginCall, SaveTarget, HistoryAfter, Opened, MayBegin, MaySettle, MayFinish, Remaining, PlanAllowed;
    hide ActiveBatch, Inspected, Checked, Collected, AfterSave, AfterAppend;
    if a.Collect? {
      CollectedStops(w, w.pc.d);
    } else if a.Decide? {
      DecidedStops(cfg, w);
    } else if a.Save? || a.Append? {
      var next := if SaveTarget(cfg, w).Some? then SaveTarget(cfg, w).value else w.exec;
      WrittenStops(w, next.(version := sh.exec.version + 1), sh.revision + 1,
                   |sh.log| + |w.messages| - w.persistedCount);
    }
  }

  lemma CollectedStops(w: Worker, d: Dispatch)
    requires DispatchShape(d) && w.pc.Dispatching?
    ensures !Collected(w, d).pc.Dispatching?
  {
    hide DefinitiveBlocks, Converted, PendingIds;
  }

  lemma WrittenStops(w: Worker, saved: Record, revision: nat, last: int)
    ensures Saves(w.pc) ==> !AfterSave(w, saved).pc.Dispatching?
    ensures !w.pc.Dispatching? && last >= 0 ==> !AfterAppend(w, revision, last).pc.Dispatching?
  {
  }

  lemma DecidedStops(cfg: Config, w: Worker)
    ensures !Inspected(cfg, w).pc.Dispatching? && !Checked(w).pc.Dispatching?
  {
    hide ActiveBatch, ResultIds, ConfirmsClaim;
  }

  lemma OpenedHonours(w: Worker, given: bool, gates: seq<bool>)
    requires w.exec.batch.Some? && |gates| == |Remaining(w.exec.batch.value.calls)|
    ensures var v := Opened(w, given, gates); v.pc.Dispatching? && !w.pc.Dispatching? ==> Honours(v.pc.d)
  {
    hide Remaining;
    var calls := Remaining(w.exec.batch.value.calls);
    forall i | 0 <= i < |calls| ensures calls[i] in calls {}
  }

  lemma {:induction false} DispatchHonours(cfg: Config, run: seq<State>, labels: seq<Label>, k: nat, t: nat)
    requires IsRun(cfg, run, labels) && k <= |labels| && Dispatches(run[k], t)
    ensures Honours(run[k].workers[t].pc.d)
  {
    hide Honours, WorkerStep;
    if k > 0 {
      assert Next(cfg, run[k - 1], labels[k - 1], run[k]);
      if Dispatches(run[k - 1], t) { DispatchHonours(cfg, run, labels, k - 1, t); }
      hide IsRun;
      StepHonours(cfg, run[k - 1], labels[k - 1], run[k], t);
    }
  }

  lemma StepHonours(cfg: Config, s: State, l: Label, s': State, t: nat)
    requires Next(cfg, s, l, s') && Dispatches(s', t) && (Dispatches(s, t) ==> Honours(s.workers[t].pc.d))
    ensures Honours(s'.workers[t].pc.d)
  {
    hide WorkerStep;
    if l.Act? && l.t == t {
      var w := s.workers[t];
      DispatchComes(cfg, s.sh, w, l.a, s'.sh, s'.workers[t]);
      hide Next;
      if !w.pc.Dispatching? {
        hide Opened, Honours;
        OpenedHonours(w, w.pc.given, l.a.gates);
      }
    }
  }

  /** A call with a recorded denial never starts, gated or not; a gated one starts only with a recorded permission. */
  lemma StartHonoursDecision(cfg: Config, run: seq<State>, labels: seq<Label>, k: nat, c: ToolCall, gate: bool)
    requires IsRun(cfg, run, labels) && k < |labels| && Starts(run[k], labels[k], run[k + 1], c, gate)
    ensures c.approval.Some? ==> c.approval.value.allow
    ensures gate ==> c.approval.Some?
  {
    var w, i := run[k].workers[labels[k].t], labels[k].a.i;
    assert Next(cfg, run[k], labels[k], run[k + 1]);
    hide BeginCall, IsRun;
    assert BeginStep(cfg, run[k].sh, w, i, labels[k].a.reply, run[k + 1].sh, run[k + 1].workers[labels[k].t]);
    hide Next;
    assert MayBegin(w.pc.d, i) && w.pc.d.calls[i] == c && w.pc.d.gates[i] == gate;
    hide BeginStep, WorkerStep, Starts;
    DispatchHonours(cfg, run, labels, k, labels[k].t);
  }

  // ---- What reconciliations and pauses do to the record ------------------------------------------------------------

  /** A successful Retry makes the call ready again; a claim is recorded as given. Nothing else changes. */
  lemma ReconciliationTakesEffect(cfg: Config, run: seq<State>, labels: seq<Label>, k: nat, pc: Pc)
    requires IsRun(cfg, run, labels) && k < |labels| && SaveTook(run[k], labels[k], run[k + 1], pc)
    requires pc.RetrySave? || pc.ResolveClaim?
    ensures Reconciles(run[k].sh.exec, run[k + 1].sh.exec, pc)
  {
    RunStep(cfg, run, labels, k);
    RunInv(cfg, run, labels, k);
    hide IsRun, Inv, Recorded;
    SaveIsRecorded(cfg, run[k], labels[k], run[k + 1], pc);
    var w := run[k].workers[labels[k].t];
    assert w.pc == pc && labels[k].t in run[k].workers;
    assert run[k + 1].sh.exec == SaveTarget(cfg, w).value.(version := run[k].sh.exec.version + 1);
    hide *;
    TakerIsCurrent(cfg, run[k], labels[k].t);
    ReconcilerTarget(cfg, run[k], labels[k].t);
    ReconciledTarget(cfg, w);
  }

  /** An uncertain call without a claim becomes ready, or gets its claim; everything else is kept. */
  ghost predicate Reconciles(e: Record, e': Record, pc: Pc)
    requires pc.RetrySave? || pc.ResolveClaim?
  {
    e.batch.Some? && e'.batch.Some? && e' == e.(batch := e'.batch, version := e.version + 1) &&
    var b, b' := e.batch.value, e'.batch.value;
    var id := if pc.RetrySave? then pc.callId else pc.claim.callId;
    b.resolution.None? && (exists c | c in b.calls :: c.callId == id && c.status.InFlight?) &&
    (pc.ResolveClaim? ==> b' == b.(resolution := Some(pc.claim))) &&
    (pc.RetrySave? ==>
      b' == b.(calls := b'.calls) && |b'.calls| == |b.calls| &&
      forall i | 0 <= i < |b.calls| ::
        b'.calls[i] == if b.calls[i].callId == pc.callId then b.calls[i].(status := Ready) else b.calls[i])
  }

  lemma ReconcilerTarget(cfg: Config, s: State, t: nat)
    requires Inv(cfg, s) && t in s.workers && (s.workers[t].pc.RetrySave? || s.workers[t].pc.ResolveClaim?)
    ensures var w := s.workers[t];
      w.exec.batch.Some? && w.exec.batch.value.resolution.None? &&
      var id := if w.pc.RetrySave? then w.pc.callId else w.pc.claim.callId;
      exists c | c in w.exec.batch.value.calls :: c.callId == id && c.status.InFlight?
  {
    PcNow(cfg, s, t);
    hide *;
    TargetAtPc(cfg, s.sh, s.workers[t]);
  }

  lemma TargetAtPc(cfg: Config, sh: Shared, w: Worker)
    requires PcOk(cfg, sh, w) && (w.pc.RetrySave? || w.pc.ResolveClaim?)
    ensures w.exec.batch.Some? && w.exec.batch.value.resolution.None? &&
      var id := if w.pc.RetrySave? then w.pc.callId else w.pc.claim.callId;
      exists c | c in w.exec.batch.value.calls :: c.callId == id && c.status.InFlight?
  {
    var id := if w.pc.RetrySave? then w.pc.callId else w.pc.claim.callId;
    assert InFlightTarget(w, id);
    hide PcOk;
    assert FindCall(w.exec.batch.value.calls, id).value in w.exec.batch.value.calls;
  }

  lemma ReconciledTarget(cfg: Config, w: Worker)
    requires (w.pc.RetrySave? || w.pc.ResolveClaim?) && SaveTarget(cfg, w).Some?
    requires w.exec.batch.Some? && w.exec.batch.value.resolution.None? &&
      var id := if w.pc.RetrySave? then w.pc.callId else w.pc.claim.callId;
      exists c | c in w.exec.batch.value.calls :: c.callId == id && c.status.InFlight?
    ensures Reconciles(w.exec, SaveTarget(cfg, w).value.(version := w.exec.version + 1), w.pc)
  {
  }

  lemma TakerIsCurrent(cfg: Config, s: State, t: nat)
    requires Inv(cfg, s) && t in s.workers && s.workers[t].exec.version == s.sh.exec.version
    ensures s.workers[t].exec == s.sh.exec
  {
    assert WorkerInv(cfg, s.sh, s.workers[t]);
    hide SharedInv, RecordOk, PcOk, LogCopy;
  }

  /** A pause is recorded as it was asked for, first as pending and then for good; a resume takes just it away. */
  lemma PauseTakesEffect(cfg: Config, run: seq<State>, labels: seq<Label>, k: nat, pc: Pc)
    requires IsRun(cfg, run, labels) && k < |labels| && SaveTook(run[k], labels[k], run[k + 1], pc)
    ensures var e, e' := run[k].sh.exec, run[k + 1].sh.exec;
      (pc.SavePendingPause? ==> e' == e.(pendingPause := Some(pc.pause), version := e.version + 1)) &&
      (pc.SavePause? ==>
        e'.status.StatusPaused? && e'.phase.PhasePaused? && e'.pause == Some(pc.pause) && e'.pendingPause.None? &&
        e'.batch == e.batch) &&
      (pc.ProjectPause? ==>
        e'.status.StatusPaused? && e'.phase.PhasePaused? && e'.pause == e.pendingPause && e'.pendingPause.None? &&
        e'.batch == e.batch) &&
      (pc.ResumeClaim? ==>
        e'.status.StatusRunning? && e'.phase.PhaseTools? && e'.pause.None? && e'.pendingPause == e.pendingPause &&
        e'.batch == e.batch)
  {
    RunStep(cfg, run, labels, k);
    RunInv(cfg, run, labels, k);
    hide IsRun, Inv, Recorded;
    SaveIsRecorded(cfg, run[k], labels[k], run[k + 1], pc);
    TakerIsCurrent(cfg, run[k], labels[k].t);
    hide Next, HistoryAfter;
  }

  /** A resume takes only a record that is paused. */
  lemma ResumeTakesPaused(cfg: Config, run: seq<State>, labels: seq<Label>, k: nat, answer: string -> Decision)
    requires IsRun(cfg, run, labels) && k < |labels| && SaveTook(run[k], labels[k], run[k + 1], ResumeClaim(answer))
    ensures run[k].sh.exec.status.StatusPaused? && run[k].sh.exec.pause.Some?
  {
    RunStep(cfg, run, labels, k);
    RunInv(cfg, run, labels, k);
    hide IsRun, Inv, Recorded;
    SaveIsRecorded(cfg, run[k], labels[k], run[k + 1], ResumeClaim(answer));
    assert labels[k].t in run[k].workers && run[k].workers[labels[k].t].pc.ResumeClaim?;
    hide *;
    TakerIsCurrent(cfg, run[k], labels[k].t);
    PcNow(cfg, run[k], labels[k].t);
    PausedAtPc(cfg, run[k].sh, run[k].workers[labels[k].t]);
  }

  lemma PausedAtPc(cfg: Config, sh: Shared, w: Worker)
    requires PcOk(cfg, sh, w) && w.pc.ResumeClaim?
    ensures w.exec.status.StatusPaused? && w.exec.pause.Some?
  {
  }

  /** A resume goes on only over the conversation at which the pause was saved: same revision, and same end if known. */
  lemma ResumeChecksLog(cfg: Config, s: State, l: Label, s': State)
    requires Next(cfg, s, l, s') && l.Act? && l.a.LoadLog? && l.t in s.workers && s.workers[l.t].pc.ResumeLog?
    ensures var it, w, n := s.workers[l.t].pc.it, s'.workers[l.t], |s.sh.log|;
      var same := s.sh.revision == it.revision && (it.lastSequence == 0 || n == 0 || n == it.lastSequence);
      var loaded := s.sh.log[if l.a.boundary <= n then l.a.boundary else n..];
      (!same <==> w.pc.Exit?) &&
      (same && it.pause.HumanPause? ==> w.pc.Loop? && w.messages == loaded + [l.a.text]) &&
      (same && it.pause.ApprovalPause? ==>
        w.pc == SaveDecisions(it.pause.calls, s.workers[l.t].pc.answer) && w.messages == loaded) &&
      (same ==> w.persistedCount == |loaded| && w.revision == s.sh.revision && w.lastSequence == n)
  {
  }

  /** An invocation is finalized only without a batch, and then the record is done, with the status of its outcome. */
  lemma FinalizationTakesEffect(cfg: Config, run: seq<State>, labels: seq<Label>, k: nat)
    requires IsRun(cfg, run, labels) && k < |labels| && labels[k].Act? && labels[k].a.Finalize?
    requires run[k].sh.exec.version < run[k + 1].sh.exec.version
    ensures var e, e' := run[k].sh.exec, run[k + 1].sh.exec;
      e.batch.None? && e'.status == labels[k].a.status && e'.phase.PhaseDone? && e'.pause.None? &&
      e'.batch.None? && e'.pendingPause == e.pendingPause && e'.id == e.id && run[k + 1].sh.log == run[k].sh.log
  {
    RunStep(cfg, run, labels, k);
    RunInv(cfg, run, labels, k);
    hide IsRun, Inv, Recorded, Next;
    FinalizedStep(cfg, run[k], labels[k], run[k + 1]);
    TakerIsCurrent(cfg, run[k], labels[k].t);
  }

  lemma FinalizedStep(cfg: Config, s: State, l: Label, s': State)
    requires Next(cfg, s, l, s') && l.Act? && l.a.Finalize? && s.sh.exec.version < s'.sh.exec.version
    ensures l.t in s.workers && s.workers[l.t].exec.version == s.sh.exec.version && s.workers[l.t].exec.batch.None?
    ensures var e, e' := s.workers[l.t].exec, s'.sh.exec;
      e'.status == l.a.status && e'.phase.PhaseDone? && e'.pause.None? && e'.batch == e.batch &&
      e'.pendingPause == e.pendingPause && e'.id == e.id && s'.sh.log == s.sh.log
  {
  }

  /**
   An operator can always retry a call in flight: a reconciliation that nobody disturbs spawns, and its one save makes
   the call ready again.
   */
  lemma RetryCanTake(cfg: Config, run: seq<State>, labels: seq<Label>, t: nat, c: ToolCall)
    returns (s: State, s': State)
    requires IsRun(cfg, run, labels) && t !in run[|labels|].workers
    requires var e := run[|labels|].sh.exec;
      e.batch.Some? && e.batch.value.resolution.None? && c in e.batch.value.calls && c.status.InFlight?
    ensures var w := Worker(Reconciliation, run[|labels|].sh.exec, 0, 0, 0, [], 0, RetrySave(c.callId));
      Next(cfg, run[|labels|], Spawn(t, w), s) && Next(cfg, s, Act(t, Save(Acked)), s')
    ensures RetryTook(s, Act(t, Save(Acked)), s', c.callId)
    ensures s'.sh.exec.batch.Some? && c.(status := Ready) in s'.sh.exec.batch.value.calls
  {
    RunLength(cfg, run, labels);
    var start := run[|labels|];
    hide IsRun, Inv, Next, WorkerStep;
    RunInv(cfg, run, labels, |labels|);
    CurrentDistinct(cfg, start);
    var w := Worker(Reconciliation, start.sh.exec, 0, 0, 0, [], 0, RetrySave(c.callId));
    OnlyCall(start.sh.exec.batch.value.calls, c);
    hide DistinctIds;
    s := RetrySpawns(cfg, start, t, w);
    var sh', w' := RetrySaves(cfg, start.sh, w, c);
    s' := State(sh', s.workers[t := w']);
    Lifted(cfg, s, t, Save(Acked), sh', w');
  }

  lemma RetrySpawns(cfg: Config, s: State, t: nat, w: Worker) returns (s': State)
    requires t !in s.workers && w == Worker(Reconciliation, s.sh.exec, 0, 0, 0, [], 0, w.pc) && w.pc.RetrySave?
    requires w.exec.batch.Some? && w.exec.batch.value.resolution.None?
    requires var c := FindCall(w.exec.batch.value.calls, w.pc.callId); c.Some? && c.value.status.InFlight?
    ensures Next(cfg, s, Spawn(t, w), s') && s' == s.(workers := s.workers[t := w])
  {
    s' := s.(workers := s.workers[t := w]);
  }

  lemma RetrySaves(cfg: Config, sh: Shared, w: Worker, c: ToolCall) returns (sh': Shared, w': Worker)
    requires w.pc == RetrySave(c.callId) && w.exec == sh.exec && w.exec.batch.Some? && c in w.exec.batch.value.calls
    ensures WorkerStep(cfg, sh, w, Save(Acked), sh', w') && sh'.exec.version == sh.exec.version + 1
    ensures sh'.exec.batch.Some? && c.(status := Ready) in sh'.exec.batch.value.calls
  {
    var calls := w.exec.batch.value.calls;
    var i :| 0 <= i < |calls| && calls[i] == c;
    assert SetStatus(calls, c.callId, Ready)[i] == c.(status := Ready);
    hide SetStatus;
    sh' := Saved(sh, WithCalls(sh.exec, SetStatus(calls, c.callId, Ready)), HistoryAfter(sh, w));
    w' := AfterSave(w, sh'.exec);
    hide HistoryAfter;
  }

  // ---- A pause is reached -----------------------------------------------------------------------------------------

  /** The current record, at the current revision, and nothing left to persist. */
  ghost predicate UpToDate(sh: Shared, w: Worker) {
    w.exec == sh.exec && w.revision == sh.revision && Flushed(w) && !w.kind.Reconciliation?
  }

  /** Every call has an outcome, none is uncertain, and somebody has to be asked. */
  ghost predicate MustPause(w: Worker, pause: Pause) {
    w.pc.Dispatching? && DispatchShape(w.pc.d) && (forall o | o in w.pc.d.outcomes :: Settled(o)) &&
    (forall o | o in w.pc.d.outcomes :: !o.CoordinationFailure? && !o.Unknown?) &&
    var human := exists o | o in w.pc.d.outcomes :: o.Definitive? && o.human;
    var pending := PendingIds(w.pc.d.calls, w.pc.d.outcomes);
    if human then pause == HumanPause else pending != [] && pause == ApprovalPause(pending)
  }

  lemma PauseCollects(cfg: Config, sh: Shared, w: Worker, pause: Pause) returns (blocks: seq<Block>, w': Worker)
    requires UpToDate(sh, w) && MustPause(w, pause)
    ensures WorkerStep(cfg, sh, w, Collect, sh, w') && w' == w.(pc := SavePendingPause(blocks, pause))
  {
    w' := Collected(w, w.pc.d);
    blocks := w'.pc.blocks;
  }

  lemma PausePends(cfg: Config, sh: Shared, w: Worker) returns (sh': Shared, w': Worker)
    requires UpToDate(sh, w) && w.pc.SavePendingPause?
    ensures WorkerStep(cfg, sh, w, Save(Acked), sh', w') && w'.exec == sh'.exec && w'.revision == sh'.revision
    ensures w'.kind == w.kind && sh'.log == sh.log && w'.persistedCount == |w.messages|
    ensures if w.pc.blocks == [] then w'.pc == SavePause(w.pc.pause) else
      w'.pc == CommitAppend(IdSet(ResultsOf(w.pc.blocks)), ToPause(w.pc.pause)) &&
      w'.messages == w.messages + [Message(User, w.pc.blocks)]
  {
    sh' := Saved(sh, w.exec.(pendingPause := Some(w.pc.pause)), sh.hist);
    w' := AfterSave(w, sh'.exec);
  }

  lemma PauseCommits(cfg: Config, sh: Shared, w: Worker) returns (sh': Shared, w': Worker)
    requires w.pc.CommitAppend? && w.pc.after.ToPause? && w.exec == sh.exec && w.revision == sh.revision
    requires |w.messages| == w.persistedCount + 1
    ensures WorkerStep(cfg, sh, w, Append(Acked), sh', w') && w'.exec == sh'.exec &&
      w'.pc == CommitAck(w.pc.done, w.pc.after)
    ensures sh'.log == sh.log + [w.messages[w.persistedCount]]
  {
    assert w.messages[w.persistedCount..] == [w.messages[w.persistedCount]];
    sh' := sh.(log := sh.log + w.messages[w.persistedCount..], revision := sh.revision + 1);
    w' := AfterAppend(w, sh.revision + 1, |sh.log| + 1);
  }

  lemma PauseAcknowledges(cfg: Config, sh: Shared, w: Worker) returns (sh': Shared, w': Worker)
    requires w.pc.CommitAck? && w.pc.after.ToPause? && w.exec == sh.exec
    ensures WorkerStep(cfg, sh, w, Save(Acked), sh', w') && w'.exec == sh'.exec && w'.pc == SavePause(w.pc.after.pause)
    ensures sh'.log == sh.log
  {
    hide Acknowledge;
    sh' := Saved(sh, Acknowledge(w.exec, w.pc.done, w.revision, w.lastSequence), sh.hist);
    w' := AfterSave(w, sh'.exec);
  }

  lemma PauseSaves(cfg: Config, sh: Shared, w: Worker) returns (sh': Shared, w': Worker)
    requires w.pc.SavePause? && w.exec == sh.exec
    ensures WorkerStep(cfg, sh, w, Save(Acked), sh', w') && sh'.exec.status.StatusPaused? &&
      sh'.exec.pause == Some(w.pc.pause)
    ensures sh'.exec.pendingPause.None? && sh'.log == sh.log
  {
    sh' := Saved(sh, SaveTarget(cfg, w).value, sh.hist);
    w' := AfterSave(w, sh'.exec);
  }

  /** Own steps of worker `t` lead from `s` to a record that is paused as asked. */
  ghost predicate Pauses(cfg: Config, s: State, run: seq<State>, labels: seq<Label>, t: nat, pause: Pause) {
    Steps(cfg, run, labels) && run[0] == s && OwnSteps(labels, t) &&
    var e := run[|labels|].sh.exec;
    e.status.StatusPaused? && e.pause == Some(pause) && e.pendingPause.None?
  }

  /** Whenever a dispatch ends with somebody to be asked, its worker can pause the record for exactly that. */
  lemma PauseCanTake(cfg: Config, s: State, t: nat, pause: Pause) returns (run: seq<State>, labels: seq<Label>)
    requires t in s.workers && UpToDate(s.sh, s.workers[t]) && MustPause(s.workers[t], pause)
    ensures Pauses(cfg, s, run, labels, t, pause)
  {
    hide WorkerStep, Reached, MustPause, Pauses;
    Stays(cfg, s, t);
    var w := s.workers[t];
    var blocks, w1 := PauseCollects(cfg, s.sh, w, pause);
    run, labels := Onward(cfg, s, [s], [], s.sh, t, w, Collect, s.sh, w1);
    var sh2, w2 := PausePends(cfg, s.sh, w1);
    run, labels := Onward(cfg, s, run, labels, s.sh, t, w1, Save(Acked), sh2, w2);
    if blocks != [] {
      var sh3, w3 := PauseCommits(cfg, sh2, w2);
      run, labels := Onward(cfg, s, run, labels, sh2, t, w2, Append(Acked), sh3, w3);
      sh2, w2 := PauseAcknowledges(cfg, sh3, w3);
      run, labels := Onward(cfg, s, run, labels, sh3, t, w3, Save(Acked), sh2, w2);
    }
    var sh4, w4 := PauseSaves(cfg, sh2, w2);
    run, labels := Onward(cfg, s, run, labels, sh2, t, w2, Save(Acked), sh4, w4);
    PausedNow(cfg, s, run, labels, sh4, t, w4, pause);
  }

  lemma PausedNow(cfg: Config, s: State, run: seq<State>, labels: seq<Label>, sh: Shared, t: nat, w: Worker,
                  pause: Pause)
    requires Reached(cfg, s, run, labels, sh, t, w)
    requires sh.exec.status.StatusPaused? && sh.exec.pause == Some(pause) && sh.exec.pendingPause.None?
    ensures Pauses(cfg, s, run, labels, t, pause)
  {
    hide Steps, OwnSteps;
  }
}
