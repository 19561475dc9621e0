/** A resume that has read an unfinished claim can lose it. */
module ProtocolLoss {
  import opened Messages
  import opened Execution
  import opened ToolBatch
  import opened Protocol
  import opened ProtocolInvariant
  import opened ProtocolAppends
  import opened ProtocolSaves
  import opened ProtocolRuns
  import opened ProtocolTheorems
  import opened ProtocolRecovery
  import opened ProtocolClaims

  // ---- A recorded batch always has a call that is not completed ---------------------------------------------

  ghost predicate HasWork(e: Record) { e.batch.Some? ==> exists c | c in e.batch.value.calls :: !c.status.Completed? }

  lemma MappedWork(calls: seq<ToolCall>, calls': seq<ToolCall>, c: ToolCall)
    requires c in calls && !c.status.Completed? && |calls'| == |calls|
    requires forall i | 0 <= i < |calls| && !calls[i].status.Completed? :: !calls'[i].status.Completed?
    ensures exists x | x in calls' :: !x.status.Completed?
  {
    var i :| 0 <= i < |calls| && calls[i] == c;
    assert calls'[i] in calls';
  }

  lemma AckLeavesWork(r: Record, b: Batch)
    ensures HasWork(WithBatch(r, b))
  {
  }

  lemma PlanHasWork(cfg: Config, rs: seq<Request>, e: Record, revision: nat, last: nat)
    requires rs != []
    ensures HasWork(PlanBatch(cfg.hash, cfg.digest, rs, e, revision, last))
  {
    var calls := PlanCalls(cfg.hash, cfg.digest, e.id, rs);
    assert calls[0] in calls && calls[0].status.Planned?;
  }

  lemma SaveLeavesWork(cfg: Config, sh: Shared, w: Worker, next: Record)
    requires PcOk(cfg, sh, w) && HasWork(w.exec) && SaveTarget(cfg, w) == Some(next)
    ensures HasWork(next)
  {
    if w.pc.Plan? {
      assert w.pc.requests != [];
      hide PcOk, HasWork;
      PlanHasWork(cfg, w.pc.requests, w.exec, w.revision, w.lastSequence);
    } else {
      hide PcOk;
      if w.pc.PrepareAck? || w.pc.CommitAck? || w.pc.RecoverAck? {
        AcknowledgeLeavesWork(w.exec, w.pc.done, w.revision, w.lastSequence);
        hide HasWork, Acknowledge;
      } else if w.pc.ClaimClear? {
        ClearLeavesWork(w.exec, w.pc.claim, w.revision, w.lastSequence);
        hide HasWork, ClearClaim;
      } else if w.exec.batch.Some? {
        hide Acknowledge, ClearClaim;
        var c :| c in w.exec.batch.value.calls && !c.status.Completed?;
        MappedWork(w.exec.batch.value.calls, next.batch.value.calls, c);
      }
    }
  }

  lemma AcknowledgeLeavesWork(e: Record, done: set<string>, revision: nat, last: nat)
    ensures HasWork(Acknowledge(e, done, revision, last))
  {
    if e.batch.Some? {
      AckLeavesWork(e.(revision := revision, lastSequence := last),
                    e.batch.value.(calls := CompleteCalls(e.batch.value.calls, done)));
    }
  }

  lemma ClearLeavesWork(e: Record, claim: Claim, revision: nat, last: nat)
    requires e.batch.Some?
    ensures HasWork(ClearClaim(e, claim, revision, last))
  {
    AckLeavesWork(e.(revision := revision, lastSequence := last),
                  e.batch.value.(calls := CompleteCalls(e.batch.value.calls, {claim.callId}), resolution := None));
  }

  lemma BeginLeavesWork(e: Record, id: string, recovering: bool, next: Record)
    requires HasWork(e) && BeginCall(e, id, recovering) == Claimed(next)
    ensures HasWork(next)
  {
    var c :| c in e.batch.value.calls && !c.status.Completed?;
    MappedWork(e.batch.value.calls, next.batch.value.calls, c);
  }

  lemma StepLeavesWork(cfg: Config, s: State, l: Label, s': State)
    requires Inv(cfg, s) && Next(cfg, s, l, s') && HasWork(s.sh.exec)
    ensures HasWork(s'.sh.exec)
  {
    hide SharedInv, WorkerInv, SaveTarget, HistoryAfter, AfterSave, BeginCall, Collected, Inspected, Checked, Opened,
         AfterAppend, Loaded, PlanAllowed, MayBegin, MaySettle, MayFinish, LastMatch, ActiveBatch;
    if s'.sh.exec != s.sh.exec {
      assert l.Act? && l.t in s.workers && (l.a.Save? || l.a.Begin? || l.a.Finalize?);
      var w := s.workers[l.t];
      assert w.exec.version == s.sh.exec.version;
      HoldsCurrent(cfg, s.sh, w);
      if l.a.Begin? {
        var id := w.pc.d.calls[l.a.i].callId;
        BeginLeavesWork(w.exec, id, !w.kind.Invocation?, BeginCall(w.exec, id, !w.kind.Invocation?).r);
      } else if l.a.Save? {
        assert PcOk(cfg, s.sh, w) by { PcNow(cfg, s, l.t); }
        SaveLeavesWork(cfg, s.sh, w, SaveTarget(cfg, w).value);
      }
    }
  }

  lemma PcNow(cfg: Config, s: State, t: nat)
    requires Inv(cfg, s) && t in s.workers
    ensures PcOk(cfg, s.sh, s.workers[t]) && RecordOk(cfg, s.sh.log, s.workers[t].exec, s.sh.hist)
  {
    assert WorkerInv(cfg, s.sh, s.workers[t]);
    hide SharedInv, PcOk, RecordOk;
  }

  lemma {:induction false} RunLeavesWork(cfg: Config, run: seq<State>, labels: seq<Label>, k: nat)
    requires IsRun(cfg, run, labels) && k < |run|
    ensures HasWork(run[k].sh.exec)
  {
    hide Inv, Next, HasWork;
    if k == 0 {
      StartHasNoBatch(cfg, run[0]);
    } else {
      RunLeavesWork(cfg, run, labels, k - 1);
      RunInv(cfg, run, labels, k - 1);
      StepLeavesWork(cfg, run[k - 1], labels[k - 1], run[k]);
    }
  }

  lemma StartHasNoBatch(cfg: Config, s: State)
    requires Init(cfg, s)
    ensures HasWork(s.sh.exec)
  {
  }

  // ---- Continuations of a state -------------------------------------------------------------------------------

  /** Every step is one of worker `t`. */
  ghost predicate OwnSteps(labels: seq<Label>, t: nat) {
    forall i | 0 <= i < |labels| :: labels[i].Act? && labels[i].t == t
  }

  /** Steps of worker `t` alone lead from `s` to shared state `sh` with the worker as `w`. */
  ghost predicate Reached(cfg: Config, s: State, run: seq<State>, labels: seq<Label>, sh: Shared, t: nat, w: Worker) {
    Steps(cfg, run, labels) && run[0] == s && run[|labels|].sh == sh && t in run[|labels|].workers &&
    run[|labels|].workers[t] == w && OwnSteps(labels, t)
  }

  lemma Onward(cfg: Config, s: State, run: seq<State>, labels: seq<Label>, sh: Shared, t: nat, w: Worker, a: Action,
               sh': Shared, w': Worker)
    returns (run': seq<State>, labels': seq<Label>)
    requires Reached(cfg, s, run, labels, sh, t, w) && WorkerStep(cfg, sh, w, a, sh', w')
    ensures Reached(cfg, s, run', labels', sh', t, w') && labels' == labels + [Act(t, a)] && |run'| == |labels'| + 1 &&
      run'[|labels|].sh == sh
  {
    hide Next, WorkerStep;
    var last := run[|labels|];
    var s' := State(sh', last.workers[t := w']);
    Lifted(cfg, last, t, a, sh', w');
    StepsAppend(cfg, run, labels, Act(t, a), s');
    run', labels' := run + [s'], labels + [Act(t, a)];
  }

  // ---- The worker that loses the claim --------------------------------------------------------------------------

  /** prepareToolBatch accepts the messages: the batch's last ToolUse message, followed only by answers to it. */
  ghost predicate Boundary(cfg: Config, ms: seq<Message>, calls: seq<ToolCall>) {
    exists index: nat :: LastMatch(cfg, ms, calls, index) && ActiveBatch(cfg.hash, ms[index..], calls)
  }

  /** An invocation with the current record, the current revision and nothing left to persist. */
  ghost predicate Over(sh: Shared, w: Worker, claim: Claim) {
    w.kind.Invocation? && w.exec == sh.exec && w.revision == sh.revision && Flushed(w) && HoldsClaim(w.exec, claim) &&
    HasWork(w.exec)
  }

  /** A resume that is about to save its decisions into a record with an unfinished claim. */
  ghost predicate ResumesOver(cfg: Config, sh: Shared, w: Worker, claim: Claim) {
    w.pc.SaveDecisions? && w.exec == sh.exec && w.revision == sh.revision && HoldsClaim(w.exec, claim) &&
    (forall id | id in w.pc.ids :: FindCall(w.exec.batch.value.calls, id).Some?) &&
    Boundary(cfg, w.messages, w.exec.batch.value.calls)
  }

  ghost predicate Unconfirmed(cfg: Config, log: seq<Message>, claim: Claim) {
    cfg.start <= |log| && forall x | x in Blocks(log[cfg.start..]) :: !ConfirmsClaim(x, claim)
  }

  // ---- Its steps ----------------------------------------------------------------------------------------------------

  lemma SameBoundary(cfg: Config, ms: seq<Message>, calls: seq<ToolCall>, calls': seq<ToolCall>)
    requires SameCalls(calls, calls') && Boundary(cfg, ms, calls)
    ensures Boundary(cfg, ms, calls')
  {
    var index: nat :| LastMatch(cfg, ms, calls, index) && ActiveBatch(cfg.hash, ms[index..], calls);
    forall m ensures UseMatches(cfg.hash, m, calls') <==> UseMatches(cfg.hash, m, calls) {}
    SameIds(calls, calls');
    assert forall id :: (exists c | c in calls :: c.callId == id) <==> id in CallIds(calls);
    assert forall id :: (exists c | c in calls' :: c.callId == id) <==> id in CallIds(calls');
    hide UseMatches, CallIds, SameCalls;
    assert LastMatch(cfg, ms, calls', index) && ActiveBatch(cfg.hash, ms[index..], calls');
  }

  lemma DecidedCallsSame(calls: seq<ToolCall>, ids: seq<string>, answer: string -> Decision)
    ensures SameCalls(calls, DecideCalls(calls, ids, answer))
    ensures (exists c | c in calls :: !c.status.Completed?) ==>
      exists c | c in DecideCalls(calls, ids, answer) :: !c.status.Completed?
  {
    if c :| c in calls && !c.status.Completed? { MappedWork(calls, DecideCalls(calls, ids, answer), c); }
  }

  lemma Decides(cfg: Config, sh: Shared, w: Worker, claim: Claim) returns (sh': Shared, w': Worker)
    requires ResumesOver(cfg, sh, w, claim) && w.kind.Invocation? && Flushed(w) && HasWork(sh.exec)
    ensures WorkerStep(cfg, sh, w, Save(Acked), sh', w') && sh'.log == sh.log
    ensures Over(sh', w', claim) && w'.pc == Prepare(true) && Boundary(cfg, w'.messages, w'.exec.batch.value.calls)
  {
    var calls, ids, answer := w.exec.batch.value.calls, w.pc.ids, w.pc.answer;
    DecidedCallsSame(calls, ids, answer);
    SameBoundary(cfg, w.messages, calls, DecideCalls(calls, ids, answer));
    hide Boundary, DecideCalls, SameCalls;
    var next := WithCalls(w.exec, DecideCalls(calls, ids, answer));
    sh' := Saved(sh, next, HistoryAfter(sh, w));
    w' := w.(exec := sh'.exec, pc := Prepare(true));
    assert SaveTarget(cfg, w) == Some(next);
    hide SaveTarget, HistoryAfter;
  }

  lemma Matches(cfg: Config, sh: Shared, w: Worker, claim: Claim) returns (index: nat, w': Worker)
    requires Over(sh, w, claim) && w.pc == Prepare(true) && Boundary(cfg, w.messages, w.exec.batch.value.calls)
    ensures WorkerStep(cfg, sh, w, Match(index), sh, w') && Over(sh, w', claim)
    ensures w'.pc == Open(true) || (w'.pc.PrepareAck? && w'.pc.given)
  {
    index :| LastMatch(cfg, w.messages, w.exec.batch.value.calls, index) &&
      ActiveBatch(cfg.hash, w.messages[index..], w.exec.batch.value.calls);
    var done := IdSet(ResultIds(w.messages[index + 1..]));
    w' := w.(pc := if done == {} then Open(true) else PrepareAck(done, true));
    hide ActiveBatch;
  }

  lemma Acknowledges(cfg: Config, sh: Shared, w: Worker, claim: Claim) returns (sh': Shared, w': Worker)
    requires Over(sh, w, claim) && w.pc.PrepareAck? && w.pc.given
    ensures WorkerStep(cfg, sh, w, Save(Acked), sh', w') && sh'.log == sh.log
    ensures !HoldsClaim(sh'.exec, claim) || (Over(sh', w', claim) && w'.pc == Open(true))
  {
    var next := Acknowledge(w.exec, w.pc.done, w.revision, w.lastSequence);
    AckLeavesWork(w.exec.(revision := w.revision, lastSequence := w.lastSequence),
                  w.exec.batch.value.(calls := CompleteCalls(w.exec.batch.value.calls, w.pc.done)));
    sh' := Saved(sh, next, sh.hist);
    w' := AfterSave(w, sh'.exec);
    hide AllCompleted, CompleteCalls;
  }

  /** The dispatch after its first `i` calls were refused. */
  ghost predicate Refusing(sh: Shared, w: Worker, claim: Claim, i: nat) {
    Over(sh, w, claim) && w.pc.Dispatching? && DispatchShape(w.pc.d) && w.pc.d.decisions.Some? && i <= |w.pc.d.calls| &&
    w.pc.d.calls != [] &&
    w.pc.d.calls == Remaining(w.exec.batch.value.calls) &&
    (forall j | 0 <= j < i :: w.pc.d.outcomes[j] == Definitive(Refusal(claim, w.pc.d.calls[j]), false)) &&
    forall j | i <= j < |w.pc.d.calls| :: w.pc.d.outcomes[j].Todo?
  }

  /** A result that says something else than the claim. */
  function Refusal(claim: Claim, c: ToolCall): Block {
    ToolResult(c.callId, ClaimResult(claim).content + "?", true, [])
  }

  lemma Opens(cfg: Config, sh: Shared, w: Worker, claim: Claim) returns (gates: seq<bool>, w': Worker)
    requires Over(sh, w, claim) && w.pc == Open(true)
    ensures WorkerStep(cfg, sh, w, OpenBatch(gates), sh, w') && Refusing(sh, w', claim, 0)
  {
    var calls := w.exec.batch.value.calls;
    RemainingMembers(calls);
    var c :| c in calls && !c.status.Completed?;
    assert c in Remaining(calls);
    hide Remaining;
    gates := seq(|Remaining(calls)|, i => false);
    w' := Opened(w, true, gates);
  }

  lemma Refuses(cfg: Config, sh: Shared, w: Worker, claim: Claim, i: nat) returns (w': Worker)
    requires Refusing(sh, w, claim, i) && i < |w.pc.d.calls|
    ensures WorkerStep(cfg, sh, w, Settle(i, Definitive(Refusal(claim, w.pc.d.calls[i]), false)), sh, w')
    ensures Refusing(sh, w', claim, i + 1) && |w'.pc.d.calls| == |w.pc.d.calls|
  {
    var d := w.pc.d;
    var o := Definitive(Refusal(claim, d.calls[i]), false);
    w' := w.(pc := Dispatching(d.(outcomes := d.outcomes[i := o])));
    hide HasWork, Remaining;
  }

  lemma {:induction false} RefusesAll(cfg: Config, s: State, run: seq<State>, labels: seq<Label>, sh: Shared, t: nat,
                                      w: Worker, claim: Claim, i: nat)
    returns (run': seq<State>, labels': seq<Label>, w': Worker)
    requires Reached(cfg, s, run, labels, sh, t, w) && Refusing(sh, w, claim, i)
    ensures Reached(cfg, s, run', labels', sh, t, w') && labels <= labels'
    ensures w'.pc.Dispatching? && Refusing(sh, w', claim, |w'.pc.d.calls|)
    decreases |w.pc.d.calls| - i
  {
    run', labels', w' := run, labels, w;
    if i < |w.pc.d.calls| {
      w' := Refuses(cfg, sh, w, claim, i);
      hide WorkerStep, Reached;
      run', labels' := Onward(cfg, s, run, labels, sh, t, w,
                              Settle(i, Definitive(Refusal(claim, w.pc.d.calls[i]), false)), sh, w');
      run', labels', w' := RefusesAll(cfg, s, run', labels', sh, t, w', claim, i + 1);
    }
  }

  /** All calls refused: one result each, none of them the claimed one. */
  lemma {:induction false} RefusedBlocks(claim: Claim, calls: seq<ToolCall>, outcomes: seq<Outcome>)
    requires |calls| == |outcomes| && forall j | 0 <= j < |calls| ::
      outcomes[j] == Definitive(Refusal(claim, calls[j]), false)
    ensures PendingIds(calls, outcomes) == [] && |DefinitiveBlocks(outcomes)| == |calls|
    ensures forall x | x in DefinitiveBlocks(outcomes) :: !ConfirmsClaim(x, claim)
    ensures forall c | c in calls :: c.callId in ResultsOf(DefinitiveBlocks(outcomes))
    decreases |calls|
  {
    if calls != [] {
      RefusedBlocks(claim, calls[1..], outcomes[1..]);
      var r, rest := Refusal(claim, calls[0]), DefinitiveBlocks(outcomes[1..]);
      assert DefinitiveBlocks(outcomes) == [r] + rest;
      assert !ConfirmsClaim(r, claim);
      assert ResultsOf([r] + rest) == [r.id] + ResultsOf(rest);
    }
  }

  lemma Collects(cfg: Config, sh: Shared, w: Worker, claim: Claim) returns (blocks: seq<Block>, w': Worker)
    requires w.pc.Dispatching? && Refusing(sh, w, claim, |w.pc.d.calls|)
    ensures WorkerStep(cfg, sh, w, Collect, sh, w')
    ensures w' == w.(messages := w.messages + [ResultMsg(blocks)], pc := CommitAppend(IdSet(ResultsOf(blocks)), ToLoop))
    ensures (forall x | x in blocks :: !ConfirmsClaim(x, claim)) &&
      forall c | c in Remaining(w.exec.batch.value.calls) :: c.callId in ResultsOf(blocks)
  {
    var d := w.pc.d;
    RefusedBlocks(claim, d.calls, d.outcomes);
    blocks := DefinitiveBlocks(d.outcomes);
    hide DefinitiveBlocks, PendingIds, ConfirmsClaim, Remaining, HasWork;
    AllDefinitive(w, d);
    hide Collected;
    w' := Collected(w, d);
  }

  lemma AllDefinitive(w: Worker, d: Dispatch)
    requires DispatchShape(d) && PendingIds(d.calls, d.outcomes) == [] && DefinitiveBlocks(d.outcomes) != []
    requires forall i | 0 <= i < |d.outcomes| :: d.outcomes[i].Definitive? && !d.outcomes[i].human
    ensures forall o | o in d.outcomes :: Settled(o)
    ensures var blocks := DefinitiveBlocks(d.outcomes);
      Collected(w, d) == w.(messages := w.messages + [ResultMsg(blocks)],
                            pc := CommitAppend(IdSet(ResultsOf(blocks)), ToLoop))
  {
    hide DefinitiveBlocks, PendingIds;
  }

  lemma Commits(cfg: Config, sh: Shared, w: Worker, blocks: seq<Block>) returns (sh': Shared, w': Worker)
    requires w.kind.Invocation? && w.exec == sh.exec && w.revision == sh.revision &&
      |w.messages| == w.persistedCount + 1
    requires w.messages[w.persistedCount] == ResultMsg(blocks) && w.pc == CommitAppend(IdSet(ResultsOf(blocks)), ToLoop)
    ensures WorkerStep(cfg, sh, w, Append(Acked), sh', w') &&
      sh' == sh.(log := sh.log + [ResultMsg(blocks)], revision := sh.revision + 1)
    ensures w'.kind == w.kind && w'.exec == sh'.exec && w'.pc == CommitAck(IdSet(ResultsOf(blocks)), ToLoop)
  {
    assert w.messages[w.persistedCount..] == [ResultMsg(blocks)];
    sh' := sh.(log := sh.log + [ResultMsg(blocks)], revision := sh.revision + 1);
    w' := AfterAppend(w, sh.revision + 1, |sh.log| + 1);
  }

  lemma AllAnswered(calls: seq<ToolCall>, done: set<string>)
    requires forall c | c in Remaining(calls) :: c.callId in done
    ensures AllCompleted(CompleteCalls(calls, done))
  {
    RemainingMembers(calls);
    forall i | 0 <= i < |calls| ensures CompleteCalls(calls, done)[i].status.Completed? {
      assert calls[i] in calls;
    }
  }

  lemma Completes(cfg: Config, sh: Shared, w: Worker, claim: Claim, done: set<string>) returns (sh': Shared, w': Worker)
    requires w.exec == sh.exec && w.exec.batch.Some? && w.pc == CommitAck(done, ToLoop)
    requires forall c | c in Remaining(w.exec.batch.value.calls) :: c.callId in done
    ensures WorkerStep(cfg, sh, w, Save(Acked), sh', w') && sh'.log == sh.log && !HoldsClaim(sh'.exec, claim)
  {
    AllAnswered(w.exec.batch.value.calls, done);
    hide AllCompleted, CompleteCalls, Remaining;
    sh' := Saved(sh, Acknowledge(w.exec, done, w.revision, w.lastSequence), sh.hist);
    w' := AfterSave(w, sh'.exec);
  }

  // ---- The loss --------------------------------------------------------------------------------------------------

  /**
   Steps of worker `t` alone lead from `s` to the loss: the last of them takes the claim out of the record although its
   outcome is not canonical, before the step or after it.
   */
  ghost predicate Lost(cfg: Config, s: State, run: seq<State>, labels: seq<Label>, t: nat, claim: Claim) {
    Steps(cfg, run, labels) && run[0] == s && labels != [] && OwnSteps(labels, t) &&
    HoldsClaim(run[|labels| - 1].sh.exec, claim) && !HoldsClaim(run[|labels|].sh.exec, claim) &&
    !ClaimIsCanonical(cfg, run[|labels| - 1].sh.log, claim) && !ClaimIsCanonical(cfg, run[|labels|].sh.log, claim)
  }

  lemma LostNow(cfg: Config, s: State, run: seq<State>, labels: seq<Label>, sh: Shared, sh': Shared, t: nat, w: Worker,
                claim: Claim)
    requires Reached(cfg, s, run, labels, sh', t, w) && labels != [] && |run| == |labels| + 1 &&
      run[|labels| - 1].sh == sh
    requires HoldsClaim(sh.exec, claim) && !HoldsClaim(sh'.exec, claim) && Unconfirmed(cfg, sh.log, claim) &&
      sh'.log == sh.log
    ensures Lost(cfg, s, run, labels, t, claim)
  {
    hide Steps, HoldsClaim, OwnSteps;
  }

  lemma StillUnconfirmed(cfg: Config, log: seq<Message>, blocks: seq<Block>, claim: Claim)
    requires Unconfirmed(cfg, log, claim) && forall x | x in blocks :: !ConfirmsClaim(x, claim)
    ensures Unconfirmed(cfg, log + [ResultMsg(blocks)], claim)
  {
    var m := ResultMsg(blocks);
    assert (log + [m])[cfg.start..] == log[cfg.start..] + [m];
    BlocksConcat(log[cfg.start..], [m]);
    SingleBlocks(m);
  }

  lemma NotCanonicalIsUnconfirmed(cfg: Config, sh: Shared, e: Record, claim: Claim)
    requires SharedInv(cfg, sh) && RecordOk(cfg, sh.log, e, sh.hist) && HoldsClaim(e, claim) &&
      !ClaimIsCanonical(cfg, sh.log, claim)
    ensures Unconfirmed(cfg, sh.log, claim)
  {
    ClaimIsOwn(cfg, sh, e, claim);
    assert LogOk(cfg, sh.log, sh.hist);
    hide SharedInv, RecordOk, ClaimIsCanonical, ConfirmsClaim;
    forall x | x in Blocks(sh.log[cfg.start..]) ensures !ConfirmsClaim(x, claim) {
      if ConfirmsClaim(x, claim) { ConfirmedOnce(cfg, sh, claim, x); }
    }
  }

  /** From the opened batch: refuse every remaining call, commit the refusals and acknowledge them. */
  lemma LosesFromOpen(cfg: Config, s: State, run: seq<State>, labels: seq<Label>, sh: Shared, t: nat, w: Worker,
                      claim: Claim)
    returns (run': seq<State>, labels': seq<Label>)
    requires Reached(cfg, s, run, labels, sh, t, w) && Over(sh, w, claim) && w.pc == Open(true) &&
      Unconfirmed(cfg, sh.log, claim)
    ensures Lost(cfg, s, run', labels', t, claim) && labels <= labels'
  {
    hide Reached, WorkerStep, Unconfirmed, Refusing, Lost;
    var gates, w1 := Opens(cfg, sh, w, claim);
    run', labels' := Onward(cfg, s, run, labels, sh, t, w, OpenBatch(gates), sh, w1);
    var w2;
    run', labels', w2 := RefusesAll(cfg, s, run', labels', sh, t, w1, claim, 0);
    run', labels' := LosesFromRefusals(cfg, s, run', labels', sh, t, w2, claim);
  }

  lemma RefusingIsOver(sh: Shared, w: Worker, claim: Claim, i: nat)
    requires Refusing(sh, w, claim, i)
    ensures Over(sh, w, claim)
  {
  }

  lemma LosesFromRefusals(cfg: Config, s: State, run: seq<State>, labels: seq<Label>, sh: Shared, t: nat, w: Worker,
                          claim: Claim)
    returns (run': seq<State>, labels': seq<Label>)
    requires Reached(cfg, s, run, labels, sh, t, w) && w.pc.Dispatching? && Refusing(sh, w, claim, |w.pc.d.calls|) &&
      Unconfirmed(cfg, sh.log, claim)
    ensures Lost(cfg, s, run', labels', t, claim) && labels <= labels'
  {
    hide Reached, WorkerStep, Unconfirmed, Refusing, Lost, ConfirmsClaim, Remaining;
    RefusingIsOver(sh, w, claim, |w.pc.d.calls|);
    var blocks, w1 := Collects(cfg, sh, w, claim);
    run', labels' := Onward(cfg, s, run, labels, sh, t, w, Collect, sh, w1);
    var sh2, w2 := Commits(cfg, sh, w1, blocks);
    run', labels' := Onward(cfg, s, run', labels', sh, t, w1, Append(Acked), sh2, w2);
    StillUnconfirmed(cfg, sh.log, blocks, claim);
    var done := IdSet(ResultsOf(blocks));
    var sh3, w3 := Completes(cfg, sh2, w2, claim, done);
    run', labels' := Onward(cfg, s, run', labels', sh2, t, w2, Save(Acked), sh3, w3);
    LostNow(cfg, s, run', labels', sh2, sh3, t, w3, claim);
  }

  lemma LosesFromPrepare(cfg: Config, s: State, run: seq<State>, labels: seq<Label>, sh: Shared, t: nat, w: Worker,
                         claim: Claim)
    returns (run': seq<State>, labels': seq<Label>)
    requires Reached(cfg, s, run, labels, sh, t, w) && Over(sh, w, claim) && w.pc == Prepare(true) &&
      Unconfirmed(cfg, sh.log, claim)
    requires Boundary(cfg, w.messages, w.exec.batch.value.calls)
    ensures Lost(cfg, s, run', labels', t, claim) && labels <= labels'
  {
    hide Reached, WorkerStep, Unconfirmed, Lost, Boundary;
    var index, w1 := Matches(cfg, sh, w, claim);
    run', labels' := Onward(cfg, s, run, labels, sh, t, w, Match(index), sh, w1);
    if w1.pc.PrepareAck? {
      var sh2, w2 := Acknowledges(cfg, sh, w1, claim);
      run', labels' := Onward(cfg, s, run', labels', sh, t, w1, Save(Acked), sh2, w2);
      if HoldsClaim(sh2.exec, claim) {
        run', labels' := LosesFromOpen(cfg, s, run', labels', sh2, t, w2, claim);
      } else {
        LostNow(cfg, s, run', labels', sh, sh2, t, w2, claim);
      }
    } else {
      run', labels' := LosesFromOpen(cfg, s, run', labels', sh, t, w1, claim);
    }
  }

  lemma LosesFromDecisions(cfg: Config, s: State, run: seq<State>, labels: seq<Label>, sh: Shared, t: nat, w: Worker,
                           claim: Claim)
    returns (run': seq<State>, labels': seq<Label>)
    requires Reached(cfg, s, run, labels, sh, t, w) && ResumesOver(cfg, sh, w, claim) && w.kind.Invocation? &&
      Flushed(w)
    requires HasWork(sh.exec) && Unconfirmed(cfg, sh.log, claim)
    ensures Lost(cfg, s, run', labels', t, claim) && labels <= labels'
  {
    hide Reached, WorkerStep, Unconfirmed, Lost, ResumesOver, Boundary, HasWork;
    var sh1, w1 := Decides(cfg, sh, w, claim);
    run', labels' := Onward(cfg, s, run, labels, sh, t, w, Save(Acked), sh1, w1);
    run', labels' := LosesFromPrepare(cfg, s, run', labels', sh1, t, w1, claim);
  }

  /**
   The other half of ClaimLostOnlyToResume: in every reachable state in which a resume is about to save its decisions
   into the current record, at the current revision and with the batch in its messages, an unfinished claim in that
   record can be lost by this resume alone.
   */
  lemma ResumeCanLoseClaim(cfg: Config, run: seq<State>, labels: seq<Label>, t: nat, claim: Claim)
    returns (more: seq<State>, steps: seq<Label>)
    requires IsRun(cfg, run, labels) && t in run[|labels|].workers
    requires var s := run[|labels|];
      ResumesOver(cfg, s.sh, s.workers[t], claim) && !ClaimIsCanonical(cfg, s.sh.log, claim)
    ensures Lost(cfg, run[|labels|], more, steps, t, claim)
  {
    RunLength(cfg, run, labels);
    hide IsRun, Inv, ResumesOver, Lost, ClaimIsCanonical, HasWork;
    RunInv(cfg, run, labels, |labels|);
    RunLeavesWork(cfg, run, labels, |labels|);
    more, steps := LosesFrom(cfg, run[|labels|], t, claim);
  }

  lemma LosesFrom(cfg: Config, s: State, t: nat, claim: Claim) returns (more: seq<State>, steps: seq<Label>)
    requires Inv(cfg, s) && HasWork(s.sh.exec) && t in s.workers && ResumesOver(cfg, s.sh, s.workers[t], claim)
    requires !ClaimIsCanonical(cfg, s.sh.log, claim)
    ensures Lost(cfg, s, more, steps, t, claim)
  {
    hide *;
    DecidingFacts(cfg, s, t, claim);
    var w := s.workers[t];
    NotCanonicalIsUnconfirmed(cfg, s.sh, w.exec, claim);
    Stays(cfg, s, t);
    more, steps := LosesFromDecisions(cfg, s, [s], [], s.sh, t, w, claim);
  }

  lemma DecidingFacts(cfg: Config, s: State, t: nat, claim: Claim)
    requires Inv(cfg, s) && t in s.workers && ResumesOver(cfg, s.sh, s.workers[t], claim)
    ensures var w := s.workers[t];
      SharedInv(cfg, s.sh) && RecordOk(cfg, s.sh.log, w.exec, s.sh.hist) && HoldsClaim(w.exec, claim) &&
      w.kind.Invocation? && Flushed(w)
  {
    hide Inv, SharedInv, RecordOk, PcOk, Boundary;
    SharedHolds(cfg, s);
    PcNow(cfg, s, t);
    DecidingWorker(cfg, s.sh, s.workers[t]);
  }

  lemma DecidingWorker(cfg: Config, sh: Shared, w: Worker)
    requires PcOk(cfg, sh, w) && w.pc.SaveDecisions?
    ensures w.kind.Invocation? && Flushed(w)
  {
  }

  lemma Stays(cfg: Config, s: State, t: nat)
    requires t in s.workers
    ensures Reached(cfg, s, [s], [], s.sh, t, s.workers[t])
  {
  }

  // ---- The guard that would prevent it ------------------------------------------------------------------------------

  /**
   A resume that is about to reload the record: its interrupt still fits the log, the record's batch holds the calls
   that were approved or denied, and the log ends in that batch.
   */
  ghost predicate ReloadsOver(cfg: Config, sh: Shared, w: Worker, claim: Claim) {
    w.kind.Invocation? && w.pc.ResumeReload? && w.pc.it.pause.ApprovalPause? && w.pc.it.revision == sh.revision &&
    (w.pc.it.lastSequence == 0 || |sh.log| == 0 || w.pc.it.lastSequence == |sh.log|) && HoldsClaim(sh.exec, claim) &&
    (forall id | id in w.pc.it.pause.calls :: FindCall(sh.exec.batch.value.calls, id).Some?) &&
    Boundary(cfg, sh.log, sh.exec.batch.value.calls)
  }

  lemma Reloads(cfg: Config, sh: Shared, w: Worker, claim: Claim) returns (w': Worker, w'': Worker)
    requires ReloadsOver(cfg, sh, w, claim)
    ensures WorkerStep(cfg, sh, w, LoadRecord, sh, w') &&
      WorkerStep(cfg, sh, w', LoadLog(0, Message(User, [])), sh, w'')
    ensures ResumesOver(cfg, sh, w'', claim) && w''.kind.Invocation? && Flushed(w'')
  {
    hide Boundary;
    w' := w.(exec := sh.exec, pc := ResumeLog(w.pc.it, w.pc.answer));
    w'' := Loaded(sh, w', 0).(pc := SaveDecisions(w.pc.it.pause.calls, w.pc.answer));
    assert sh.log[0..] == sh.log;
  }

  /**
   Reading the record once with an unfinished claim in it is enough: whenever a resume reloads such a record and its
   other checks pass, the claim can be lost. A reload that refuses a record with a claim is therefore exactly what
   is missing.
   */
  lemma ReloadCanLoseClaim(cfg: Config, run: seq<State>, labels: seq<Label>, t: nat, claim: Claim)
    returns (more: seq<State>, steps: seq<Label>)
    requires IsRun(cfg, run, labels) && t in run[|labels|].workers
    requires var s := run[|labels|];
      ReloadsOver(cfg, s.sh, s.workers[t], claim) && !ClaimIsCanonical(cfg, s.sh.log, claim)
    ensures Lost(cfg, run[|labels|], more, steps, t, claim) && steps[0] == Act(t, LoadRecord)
  {
    RunLength(cfg, run, labels);
    hide IsRun, Inv, ReloadsOver, Lost, ClaimIsCanonical, HasWork;
    RunInv(cfg, run, labels, |labels|);
    RunLeavesWork(cfg, run, labels, |labels|);
    more, steps := LosesFromReload(cfg, run[|labels|], t, claim);
  }

  lemma LosesFromReload(cfg: Config, s: State, t: nat, claim: Claim) returns (more: seq<State>, steps: seq<Label>)
    requires Inv(cfg, s) && HasWork(s.sh.exec) && t in s.workers && ReloadsOver(cfg, s.sh, s.workers[t], claim)
    requires !ClaimIsCanonical(cfg, s.sh.log, claim)
    ensures Lost(cfg, s, more, steps, t, claim) && steps[0] == Act(t, LoadRecord)
  {
    hide *;
    SharedHolds(cfg, s);
    ReloadHolds(cfg, s.sh, s.workers[t], claim);
    NotCanonicalIsUnconfirmed(cfg, s.sh, s.sh.exec, claim);
    Stays(cfg, s, t);
    var w1, w2 := Reloads(cfg, s.sh, s.workers[t], claim);
    more, steps := Onward(cfg, s, [s], [], s.sh, t, s.workers[t], LoadRecord, s.sh, w1);
    more, steps := Onward(cfg, s, more, steps, s.sh, t, w1, LoadLog(0, Message(User, [])), s.sh, w2);
    more, steps := LosesFromDecisions(cfg, s, more, steps, s.sh, t, w2, claim);
  }

  lemma ReloadHolds(cfg: Config, sh: Shared, w: Worker, claim: Claim)
    requires SharedInv(cfg, sh) && ReloadsOver(cfg, sh, w, claim)
    ensures RecordOk(cfg, sh.log, sh.exec, sh.hist) && HoldsClaim(sh.exec, claim)
  {
    hide RecordOk, LogOk, CurrentOk, GrantsOk, ClaimsOk, StartsOk, Boundary;
  }

  lemma SharedHolds(cfg: Config, s: State)
    requires Inv(cfg, s)
    ensures SharedInv(cfg, s.sh)
  {
  }
}
