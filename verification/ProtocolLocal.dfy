/**
 Steps that only change the worker keep its invariant.

 Reading, deciding, opening a batch and collecting its outcomes touch neither store. Each lemma takes one such step
 and shows that the worker again relies only on facts that the steps of others preserve.
 */
module ProtocolLocal {
  import opened Messages
  import opened Execution
  import opened ToolBatch
  import opened Protocol
  import opened ProtocolInvariant
  import opened ProtocolSaves

  lemma StopWorker(cfg: Config, sh: Shared, w: Worker)
    requires WorkerInv(cfg, sh, w)
    ensures WorkerInv(cfg, sh, w.(pc := FailPc(w))) && WorkerInv(cfg, sh, w.(pc := StopPc(w))) &&
      WorkerInv(cfg, sh, w.(pc := Done))
  {
    hide RecordOk;
  }

  /** A step that moves the program counter, keeping the record and the persisted part of the messages. */
  lemma Moved(cfg: Config, sh: Shared, w: Worker, w': Worker)
    requires WorkerInv(cfg, sh, w) && HasLog(w.pc) && w' == w.(pc := w'.pc, messages := w'.messages)
    requires w.messages <= w'.messages && PcOk(cfg, sh, w')
    ensures WorkerInv(cfg, sh, w')
  {
    hide RecordOk, PcOk;
    assert LogCopy(cfg, sh, w);
    assert w'.messages[..w.persistedCount] == w.messages[..w.persistedCount];
  }

  // ---- Between batches ---------------------------------------------------------------------

  lemma AddTextWorker(cfg: Config, sh: Shared, w: Worker, m: Message)
    requires WorkerInv(cfg, sh, w) && w.pc.Loop? && NoToolBlocks(m)
    ensures WorkerInv(cfg, sh, w.(messages := w.messages + [m]))
  {
    hide RecordOk;
    var v := w.(messages := w.messages + [m]);
    assert v.messages[..w.persistedCount] == w.messages[..w.persistedCount];
    assert v.messages[w.persistedCount..] == w.messages[w.persistedCount..] + [m];
  }

  /** A batch is planned only with call IDs that no earlier plan of the execution used. */
  lemma FreshRequests(cfg: Config, sh: Shared, rs: seq<Request>)
    requires LogOk(cfg, sh.log, sh.hist) && CurrentOk(cfg, sh.log, sh.exec, sh.hist)
    requires sh.exec.batch.None? && PlanAllowed(cfg, sh.log, rs)
    ensures forall r | r in rs :: r.id !in sh.hist.planned
  {
    forall r | r in rs ensures r.id !in sh.hist.planned {
      CountMember(UseIds(sh.log[cfg.start..]), r.id);
      assert UseCount(cfg, sh.log, r.id) == multiset(UseIds(sh.log[cfg.start..]))[r.id];
    }
  }

  lemma PriorPrefix(cfg: Config, log: seq<Message>, last: nat, rs: seq<Request>)
    requires cfg.start <= last <= |log| && PlanAllowed(cfg, log, rs)
    ensures PlanAllowed(cfg, log[..last], rs)
  {
    UseIdsSplit(log, cfg.start, last, |log|);
    assert log[..last][cfg.start..] == log[cfg.start..last];
    assert log[cfg.start..|log|] == log[cfg.start..];
  }

  lemma FreshNow(cfg: Config, sh: Shared, rs: seq<Request>)
    requires SharedInv(cfg, sh) && sh.exec.batch.None? && cfg.start <= |sh.log| && PlanAllowed(cfg, sh.log, rs)
    ensures forall r | r in rs :: r.id !in sh.hist.planned
  {
    hide LogOk, CurrentOk, RecordOk, GrantsOk, ClaimsOk, StartsOk, PlanAllowed;
    FreshRequests(cfg, sh, rs);
  }

  lemma LoadPriorWorker(cfg: Config, sh: Shared, w: Worker, rs: seq<Request>)
    requires SharedInv(cfg, sh) && WorkerInv(cfg, sh, w) && w.pc.Loop? && w.exec.batch.None? && Flushed(w)
    requires PlanAllowed(cfg, sh.log, rs)
    ensures WorkerInv(cfg, sh, w.(pc := Plan(rs)))
  {
    hide SharedInv, RecordOk, PlanAllowed;
    PriorPrefix(cfg, sh.log, w.lastSequence, rs);
    if w.exec.version == sh.exec.version {
      FreshNow(cfg, sh, rs);
    }
  }

  // ---- prepareToolBatch ----------------------------------------------------------------------

  lemma TwoUses(cfg: Config, log: seq<Message>, p: nat, q: nat, x: Block, y: Block)
    requires cfg.start <= p < q < |log|
    requires x in log[p].content && y in log[q].content && x.ToolUse? && y.ToolUse? && x.id == y.id
    ensures UseCount(cfg, log, x.id) >= 2
  {
    UseAt(log[..q], cfg.start, p, x);
    UseAt(log, q, q, y);
    assert log[..q][cfg.start..] == log[cfg.start..q] && log[q..|log|] == log[q..];
    UseIdsSplit(log, cfg.start, q, |log|);
    assert log[cfg.start..|log|] == log[cfg.start..];
    CountMember(UseIds(log[cfg.start..q]), x.id);
    CountMember(UseIds(log[q..]), x.id);
  }

  /** A tool use of this execution is canonical at most once. */
  lemma UseOnce(cfg: Config, log: seq<Message>, h: History, p: nat, q: nat, x: Block, y: Block)
    requires LogOk(cfg, log, h) && cfg.start <= p < |log| && cfg.start <= q < |log|
    requires x in log[p].content && y in log[q].content && x.ToolUse? && y.ToolUse? && x.id == y.id && cfg.own(x.id)
    ensures p == q
  {
    if p < q { TwoUses(cfg, log, p, q, x, y); }
    if q < p { TwoUses(cfg, log, q, p, y, x); }
  }

  /** The last match of prepareToolBatch is the boundary that was saved with the ready batch. */
  lemma MatchIsBoundary(cfg: Config, sh: Shared, w: Worker, calls: seq<ToolCall>, u: nat, index: nat)
    requires LogOk(cfg, sh.log, sh.hist) && LogCopy(cfg, sh, w) && Flushed(w)
    requires calls != [] && cfg.own(calls[0].callId) && cfg.start < u <= w.lastSequence &&
      UseMatches(cfg.hash, sh.log[u - 1], calls)
    requires LastMatch(cfg, w.messages, calls, index)
    ensures w.base + index == u - 1 && w.messages[index + 1..] == sh.log[u..w.lastSequence]
  {
    hide LogOk;
    var p := w.base + index;
    assert w.messages == sh.log[w.base..w.lastSequence];
    assert w.messages[index] == sh.log[p];
    if u - 1 >= w.base {
      assert w.messages[u - 1 - w.base] == sh.log[u - 1];
      assert index >= u - 1 - w.base;
    }
    UseOnce(cfg, sh.log, sh.hist, p, u - 1, sh.log[p].content[0], sh.log[u - 1].content[0]);
  }

  lemma MatchWorker(cfg: Config, sh: Shared, w: Worker, index: nat, w': Worker)
    requires SharedInv(cfg, sh) && WorkerInv(cfg, sh, w) && w.pc.Prepare? && w.exec.batch.Some?
    requires LastMatch(cfg, w.messages, w.exec.batch.value.calls, index)
    requires var done := IdSet(ResultIds(w.messages[index + 1..]));
      w' == w.(pc := if done == {} then Open(w.pc.given) else PrepareAck(done, w.pc.given))
    ensures WorkerInv(cfg, sh, w')
  {
    var b := w.exec.batch.value;
    ReadyIndexed(cfg, sh.log, w.exec, sh.hist);
    assert b.calls[0] in b.calls;
    MatchIsBoundary(cfg, sh, w, b.calls, b.useLastSequence, index);
    MatchedOk(cfg, sh, w, index, w');
    hide *;
    Moved(cfg, sh, w, w');
  }

  lemma MatchedOk(cfg: Config, sh: Shared, w: Worker, index: nat, w': Worker)
    requires w.pc.Prepare? && PcOk(cfg, sh, w) && index < |w.messages|
    requires ResultIds(w.messages[index + 1..]) == Seen(sh, w)
    requires var done := IdSet(ResultIds(w.messages[index + 1..]));
      w' == w.(pc := if done == {} then Open(w.pc.given) else PrepareAck(done, w.pc.given))
    ensures PcOk(cfg, sh, w') && HasLog(w.pc)
  {
    var seen := Seen(sh, w);
    assert forall id :: id in IdSet(seen) <==> id in seen;
  }

  // ---- executeBatch ----------------------------------------------------------------------------

  lemma OpenedCalls(cfg: Config, sh: Shared, w: Worker, calls: seq<ToolCall>)
    requires RecordOk(cfg, sh.log, w.exec, sh.hist) && OpenOk(sh, w) && calls == Remaining(w.exec.batch.value.calls)
    ensures DistinctIds(calls)
    ensures forall c | c in calls ::
      c.callId in CallIds(w.exec.batch.value.calls) && c.callId !in Seen(sh, w) &&
      c.key == ToolExecutionKey(cfg.digest, cfg.id, c.callId)
    ensures forall i | 0 <= i < |calls| && calls[i].approval.Some? && calls[i].approval.value.allow ::
      calls[i].callId in sh.hist.allowed
  {
    RemainingMembers(w.exec.batch.value.calls);
    forall i | 0 <= i < |calls| && calls[i].approval.Some? && calls[i].approval.value.allow
      ensures calls[i].callId in sh.hist.allowed
    {
      assert calls[i] in calls;
    }
  }

  lemma OpenWorker(cfg: Config, sh: Shared, w: Worker, gates: seq<bool>)
    requires WorkerInv(cfg, sh, w) && w.pc.Open? && w.exec.batch.Some? &&
      |gates| == |Remaining(w.exec.batch.value.calls)|
    ensures WorkerInv(cfg, sh, Opened(w, w.pc.given, gates))
  {
    OpenedCalls(cfg, sh, w, Remaining(w.exec.batch.value.calls));
    OpenedOk(cfg, sh, w, gates);
    hide *;
    Moved(cfg, sh, w, Opened(w, w.pc.given, gates));
  }

  lemma OpenedOk(cfg: Config, sh: Shared, w: Worker, gates: seq<bool>)
    requires w.pc.Open? && PcOk(cfg, sh, w) && |gates| == |Remaining(w.exec.batch.value.calls)|
    requires var calls := Remaining(w.exec.batch.value.calls);
      DistinctIds(calls) &&
      (forall c | c in calls :: c.callId in CallIds(w.exec.batch.value.calls) && c.callId !in Seen(sh, w) &&
                                c.key == ToolExecutionKey(cfg.digest, cfg.id, c.callId)) &&
      (forall i | 0 <= i < |calls| && calls[i].approval.Some? && calls[i].approval.value.allow ::
        calls[i].callId in sh.hist.allowed)
    ensures PcOk(cfg, sh, Opened(w, w.pc.given, gates)) && HasLog(w.pc)
    ensures Opened(w, w.pc.given, gates) == w.(pc := Opened(w, w.pc.given, gates).pc)
  {
  }

  /** Recording one more outcome; `started` may grow only under the preflight rule. */
  lemma OutcomeKept(cfg: Config, sh: Shared, w: Worker, d: Dispatch, i: nat, o: Outcome)
    requires DispatchOk(cfg, sh, w, d) && i < |d.calls| && !o.Todo?
    requires o.Definitive? ==> o.result.ToolResult? && o.result.id == d.calls[i].callId
    requires o.PendingApproval? ==> d.outcomes[i].Todo? && d.gates[i]
    requires o.Running? ==> !d.gates[i] || d.decisions.Some?
    ensures DispatchOk(cfg, sh, w, d.(outcomes := d.outcomes[i := o]))
  {
    var d' := d.(outcomes := d.outcomes[i := o]);
    assert d.outcomes[i] == d.outcomes[i];
    assert forall k | 0 <= k < |d.outcomes| :: d'.outcomes[k] == if k == i then o else d.outcomes[k];
    assert forall k | 0 <= k < |d.calls| :: DecisionFor(d', k) == DecisionFor(d, k);
    if d.decisions.None? && d.started != {} {
      assert GatesSettled(d') by {
        forall k | 0 <= k < |d.calls| && d.gates[k] ensures Settled(d'.outcomes[k]) { }
      }
      assert !AnyPending(d');
    }
  }

  lemma OutcomeWorker(cfg: Config, sh: Shared, w: Worker, i: nat, o: Outcome)
    requires WorkerInv(cfg, sh, w) && w.pc.Dispatching? && i < |w.pc.d.calls| && !o.Todo?
    requires o.Definitive? ==> o.result.ToolResult? && o.result.id == w.pc.d.calls[i].callId
    requires o.PendingApproval? ==> w.pc.d.outcomes[i].Todo? && w.pc.d.gates[i]
    requires o.Running? ==> !w.pc.d.gates[i] || w.pc.d.decisions.Some?
    ensures WorkerInv(cfg, sh, w.(pc := Dispatching(w.pc.d.(outcomes := w.pc.d.outcomes[i := o]))))
  {
    var d' := w.pc.d.(outcomes := w.pc.d.outcomes[i := o]);
    var w' := w.(pc := Dispatching(d'));
    hide RecordOk;
    OutcomeKept(cfg, sh, w, w.pc.d, i, o);
    DispatchMoves(cfg, sh, w, w', d');
  }

  lemma DispatchMoves(cfg: Config, sh: Shared, w: Worker, w': Worker, d: Dispatch)
    requires DispatchOk(cfg, sh, w, d) && w' == w.(pc := w'.pc)
    ensures DispatchOk(cfg, sh, w', d)
  {
  }

  // ---- Results of a batch ---------------------------------------------------------------------------

  lemma {:induction false} DefinitiveGood(calls: seq<ToolCall>, outcomes: seq<Outcome>)
    requires |calls| == |outcomes|
    requires forall i | 0 <= i < |calls| && outcomes[i].Definitive? ::
      outcomes[i].result.ToolResult? && outcomes[i].result.id == calls[i].callId
    ensures forall x | x in DefinitiveBlocks(outcomes) :: x.ToolResult?
    ensures forall id | id in ResultsOf(DefinitiveBlocks(outcomes)) :: id in CallIds(calls)
    ensures DistinctIds(calls) ==> NoDuplicates(ResultsOf(DefinitiveBlocks(outcomes)))
  {
    if outcomes != [] {
      DefinitiveGood(calls[1..], outcomes[1..]);
      var rest := DefinitiveBlocks(outcomes[1..]);
      assert calls[0] in calls && forall c | c in calls[1..] :: c in calls;
      assert CallIds(calls[1..]) <= CallIds(calls);
      assert [] + rest == rest;
      if outcomes[0].Definitive? {
        ResultsOfConcat([outcomes[0].result], rest);
        assert ResultsOf([outcomes[0].result]) == [calls[0].callId] + ResultsOf([]);
        if DistinctIds(calls) {
          assert DistinctIds(calls[1..]);
          assert calls[0].callId !in ResultsOf(rest);
        }
      }
    }
  }

  lemma {:induction false} PendingAreCalls(calls: seq<ToolCall>, outcomes: seq<Outcome>)
    requires |calls| == |outcomes|
    ensures forall id | id in PendingIds(calls, outcomes) :: id in CallIds(calls)
  {
    if outcomes != [] {
      PendingAreCalls(calls[1..], outcomes[1..]);
      assert calls[0] in calls && forall c | c in calls[1..] :: c in calls;
    }
  }

  lemma DispatchBlocks(cfg: Config, sh: Shared, w: Worker, d: Dispatch)
    requires DispatchOk(cfg, sh, w, d)
    ensures GoodBlocks(sh, w, DefinitiveBlocks(d.outcomes)) &&
      GoodBlocks(sh, w, DefinitiveBlocks(Converted(d.calls, d.outcomes)))
  {
    DefinitiveGood(d.calls, d.outcomes);
    DefinitiveGood(d.calls, Converted(d.calls, d.outcomes));
  }

  lemma DispatchPending(cfg: Config, sh: Shared, w: Worker, d: Dispatch)
    requires RecordOk(cfg, sh.log, w.exec, sh.hist) && DispatchOk(cfg, sh, w, d) &&
      PendingIds(d.calls, d.outcomes) != []
    ensures PauseOk(ApprovalPause(PendingIds(d.calls, d.outcomes)), sh.hist)
  {
    ReadyIndexed(cfg, sh.log, w.exec, sh.hist);
    PendingAreCalls(d.calls, d.outcomes);
    forall id | id in PendingIds(d.calls, d.outcomes) ensures id in sh.hist.readied {
      assert id in CallIds(d.calls) && id in CallIds(w.exec.batch.value.calls);
    }
  }

  lemma CommittingWorker(cfg: Config, sh: Shared, w: Worker, blocks: seq<Block>, after: After)
    requires WorkerInv(cfg, sh, w) && w.pc.Dispatching? && GoodBlocks(sh, w, blocks) && !after.ToPause?
    ensures WorkerInv(cfg, sh, Committing(w, blocks, after))
  {
    hide RecordOk, DispatchOk;
    var v := Committing(w, blocks, after);
    assert v.messages[..w.persistedCount] == w.messages[..w.persistedCount];
    if blocks != [] { GoodMoves(sh, w, v, blocks); }
  }

  lemma GoodMoves(sh: Shared, w: Worker, w': Worker, blocks: seq<Block>)
    requires GoodBlocks(sh, w, blocks) && w' == w.(pc := w'.pc, messages := w'.messages)
    ensures GoodBlocks(sh, w', blocks)
  {
  }

  lemma PausingWorker(cfg: Config, sh: Shared, w: Worker, blocks: seq<Block>, p: Pause)
    requires WorkerInv(cfg, sh, w) && w.pc.Dispatching? && GoodBlocks(sh, w, blocks) && PauseOk(p, sh.hist)
    ensures WorkerInv(cfg, sh, w.(pc := SavePendingPause(blocks, p)))
  {
    hide RecordOk, DispatchOk;
    GoodMoves(sh, w, w.(pc := SavePendingPause(blocks, p)), blocks);
  }

  lemma CollectWorker(cfg: Config, sh: Shared, w: Worker)
    requires WorkerInv(cfg, sh, w) && w.pc.Dispatching?
    ensures DispatchShape(w.pc.d) && WorkerInv(cfg, sh, Collected(w, w.pc.d))
  {
    var d := w.pc.d;
    DispatchBlocks(cfg, sh, w, d);
    if PendingIds(d.calls, d.outcomes) != [] { DispatchPending(cfg, sh, w, d); }
    CollectCases(cfg, sh, w, d);
  }

  lemma CollectCases(cfg: Config, sh: Shared, w: Worker, d: Dispatch)
    requires WorkerInv(cfg, sh, w) && w.pc == Dispatching(d) && DispatchShape(d)
    requires GoodBlocks(sh, w, DefinitiveBlocks(d.outcomes)) &&
      GoodBlocks(sh, w, DefinitiveBlocks(Converted(d.calls, d.outcomes)))
    requires PendingIds(d.calls, d.outcomes) != [] ==> PauseOk(ApprovalPause(PendingIds(d.calls, d.outcomes)), sh.hist)
    ensures WorkerInv(cfg, sh, Collected(w, d))
  {
    hide WorkerInv, GoodBlocks, Committing, PauseOk, PendingIds, DefinitiveBlocks, Converted;
    StopWorker(cfg, sh, w);
    CommittingWorker(cfg, sh, w, DefinitiveBlocks(d.outcomes), ToFail);
    CommittingWorker(cfg, sh, w, DefinitiveBlocks(d.outcomes), ToLoop);
    HumanIsFine(sh);
    PausingWorker(cfg, sh, w, DefinitiveBlocks(Converted(d.calls, d.outcomes)), HumanPause);
    if PendingIds(d.calls, d.outcomes) != [] {
      PausingWorker(cfg, sh, w, DefinitiveBlocks(d.outcomes), ApprovalPause(PendingIds(d.calls, d.outcomes)));
    }
  }

  lemma HumanIsFine(sh: Shared)
    ensures PauseOk(HumanPause, sh.hist)
  {
  }

  // ---- Loading ---------------------------------------------------------------------------------------

  lemma LoadRecordWorker(cfg: Config, sh: Shared, w: Worker)
    requires SharedInv(cfg, sh) && WorkerInv(cfg, sh, w) && w.pc.ResumeReload?
    ensures WorkerInv(cfg, sh, w.(exec := sh.exec, pc := ResumeLog(w.pc.it, w.pc.answer)))
  {
    hide LogOk, RecordOk, CurrentOk, GrantsOk, ClaimsOk, StartsOk;
  }

  lemma LoadedCopy(cfg: Config, sh: Shared, w: Worker, after: nat)
    requires cfg.start <= |sh.log|
    ensures LogCopy(cfg, sh, Loaded(sh, w, after)) && Flushed(Loaded(sh, w, after))
  {
  }

  /** A resumed turn continues with the human's answer as its next message. */
  lemma ResumeHumanWorker(cfg: Config, sh: Shared, w: Worker, boundary: nat, text: Message, w': Worker)
    requires cfg.start <= |sh.log| && WorkerInv(cfg, sh, w) && w.pc.ResumeLog? && NoToolBlocks(text)
    requires var v := Loaded(sh, w, boundary); w' == v.(messages := v.messages + [text], pc := Loop)
    ensures WorkerInv(cfg, sh, w')
  {
    LoadedCopy(cfg, sh, w, boundary);
    hide RecordOk;
    var v := Loaded(sh, w, boundary);
    assert (v.messages + [text])[..v.persistedCount] == v.messages[..v.persistedCount];
    assert (v.messages + [text])[v.persistedCount..] == [text];
  }

  lemma ResumeApprovalWorker(cfg: Config, sh: Shared, w: Worker, boundary: nat, ids: seq<string>, w': Worker)
    requires cfg.start <= |sh.log| && WorkerInv(cfg, sh, w) && w.pc.ResumeLog? && w.pc.it.pause == ApprovalPause(ids)
    requires w' == Loaded(sh, w, boundary).(pc := SaveDecisions(ids, w.pc.answer))
    ensures WorkerInv(cfg, sh, w')
  {
    LoadedCopy(cfg, sh, w, boundary);
    if w.exec.batch.Some? && !AllPlanned(w.exec.batch.value.calls) {
      assert ReadyFacts(cfg, sh.log, w.exec.batch.value, sh.hist);
    }
    hide RecordOk;
  }

  lemma RecoverLogWorker(cfg: Config, sh: Shared, w: Worker)
    requires cfg.start <= |sh.log| && WorkerInv(cfg, sh, w) && w.pc.RecoverLog? && w.exec.batch.Some?
    ensures WorkerInv(cfg, sh, Loaded(sh, w, RecoveryBase(w.exec)).(pc := Inspect))
  {
    LoadedCopy(cfg, sh, w, RecoveryBase(w.exec));
  }

  // ---- Recovery ----------------------------------------------------------------------------------------

  lemma InspectPlanned(cfg: Config, sh: Shared, w: Worker)
    requires WorkerInv(cfg, sh, w) && w.pc.Inspect? && w.exec.batch.Some? && AllPlanned(w.exec.batch.value.calls)
    ensures WorkerInv(cfg, sh, Inspected(cfg, w))
  {
    assert w.exec.batch.value.calls[0] in w.exec.batch.value.calls;
    assert PlannedFacts(cfg, sh.log, w.exec.lastSequence, w.exec.batch.value);
    InspectPlannedOk(cfg, sh, w);
    hide *;
    Moved(cfg, sh, w, Inspected(cfg, w));
  }

  lemma InspectPlannedOk(cfg: Config, sh: Shared, w: Worker)
    requires w.pc.Inspect? && PcOk(cfg, sh, w) && LogCopy(cfg, sh, w) && w.exec.batch.Some?
    requires PlannedFacts(cfg, sh.log, w.exec.lastSequence, w.exec.batch.value)
    ensures var w' := Inspected(cfg, w);
      PcOk(cfg, sh, w') && HasLog(w.pc) && w' == w.(pc := w'.pc, messages := w'.messages) && w.messages <= w'.messages
  {
  }

  /** With a ready batch, recovery reads from its ToolUse message on. */
  lemma InspectView(cfg: Config, sh: Shared, w: Worker)
    requires WorkerInv(cfg, sh, w) && w.pc.Inspect? && w.exec.batch.Some? && !AllPlanned(w.exec.batch.value.calls) &&
      w.messages != []
    ensures var u := w.exec.batch.value.useLastSequence;
      0 < u <= w.lastSequence <= |sh.log| && w.base == u - 1 && w.messages[1..] == sh.log[u..w.lastSequence]
  {
    assert ReadyFacts(cfg, sh.log, w.exec.batch.value, sh.hist);
    hide RecordOk, ReadyFacts;
    var u := w.exec.batch.value.useLastSequence;
    assert w.messages == sh.log[w.base..w.lastSequence];
  }

  lemma InspectClaim(cfg: Config, sh: Shared, w: Worker)
    requires WorkerInv(cfg, sh, w) && w.pc.Inspect? && w.exec.batch.Some? && !AllPlanned(w.exec.batch.value.calls)
    requires w.exec.batch.value.resolution.Some? && ActiveBatch(cfg.hash, w.messages, w.exec.batch.value.calls)
    ensures WorkerInv(cfg, sh, Inspected(cfg, w))
  {
    InspectView(cfg, sh, w);
    InspectClaimOk(cfg, sh, w);
    hide *;
    Moved(cfg, sh, w, Inspected(cfg, w));
  }

  lemma InspectClaimOk(cfg: Config, sh: Shared, w: Worker)
    requires w.pc.Inspect? && PcOk(cfg, sh, w) && w.exec.batch.Some? && !AllPlanned(w.exec.batch.value.calls)
    requires w.exec.batch.value.resolution.Some? && ActiveBatch(cfg.hash, w.messages, w.exec.batch.value.calls)
    requires var u := w.exec.batch.value.useLastSequence;
      0 < u <= w.lastSequence <= |sh.log| && w.base == u - 1 && w.messages[1..] == sh.log[u..w.lastSequence]
    ensures var w' := Inspected(cfg, w);
      PcOk(cfg, sh, w') && HasLog(w.pc) && w' == w.(pc := w'.pc, messages := w'.messages) && w.messages <= w'.messages
  {
    hide AllPlanned, ActiveBatch, ClaimResult, ConfirmsClaim;
    assert ActiveBatch(cfg.hash, w.messages, w.exec.batch.value.calls);
  }

  lemma InspectReady(cfg: Config, sh: Shared, w: Worker)
    requires WorkerInv(cfg, sh, w) && w.pc.Inspect? && w.exec.batch.Some? && !AllPlanned(w.exec.batch.value.calls)
    requires w.exec.batch.value.resolution.None? && ActiveBatch(cfg.hash, w.messages, w.exec.batch.value.calls)
    ensures WorkerInv(cfg, sh, Inspected(cfg, w))
  {
    InspectView(cfg, sh, w);
    InspectReadyOk(cfg, sh, w);
    hide *;
    Moved(cfg, sh, w, Inspected(cfg, w));
  }

  lemma InspectReadyOk(cfg: Config, sh: Shared, w: Worker)
    requires w.pc.Inspect? && PcOk(cfg, sh, w) && w.exec.batch.Some? && !AllPlanned(w.exec.batch.value.calls)
    requires w.exec.batch.value.resolution.None? && ActiveBatch(cfg.hash, w.messages, w.exec.batch.value.calls)
    requires var u := w.exec.batch.value.useLastSequence;
      0 < u <= w.lastSequence <= |sh.log| && w.base == u - 1 && w.messages[1..] == sh.log[u..w.lastSequence]
    ensures var w' := Inspected(cfg, w);
      PcOk(cfg, sh, w') && HasLog(w.pc) && w' == w.(pc := w'.pc, messages := w'.messages) && w.messages <= w'.messages
  {
    hide AllPlanned, ActiveBatch;
    assert ActiveBatch(cfg.hash, w.messages, w.exec.batch.value.calls);
  }

  lemma InspectWorker(cfg: Config, sh: Shared, w: Worker)
    requires WorkerInv(cfg, sh, w) && w.pc.Inspect?
    ensures WorkerInv(cfg, sh, Inspected(cfg, w))
  {
    StopWorker(cfg, sh, w);
    hide WorkerInv;
    if w.exec.batch.Some? {
      if AllPlanned(w.exec.batch.value.calls) {
        InspectPlanned(cfg, sh, w);
      } else if ActiveBatch(cfg.hash, w.messages, w.exec.batch.value.calls) {
        if w.exec.batch.value.resolution.Some? {
          InspectClaim(cfg, sh, w);
        } else {
          InspectReady(cfg, sh, w);
        }
      }
    }
  }

  lemma CheckWorker(cfg: Config, sh: Shared, w: Worker)
    requires WorkerInv(cfg, sh, w) && w.pc.Check?
    ensures WorkerInv(cfg, sh, Checked(w))
  {
    hide RecordOk;
  }
}
