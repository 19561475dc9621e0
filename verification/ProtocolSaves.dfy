/**
 Compare-and-swap saves of the execution record keep the protocol invariant.

 One lemma per kind of record change: plan, ready, acknowledge, decide, resolve, clear. Each starts from the current
 record, because a save that holds an older version has no effect.
 */
module ProtocolSaves {
  import opened Messages
  import opened Execution
  import opened ToolBatch
  import opened Protocol
  import opened ProtocolInvariant

  /** The record store after a save that took effect. */
  function Saved(sh: Shared, e: Record, h: History): Shared {
    sh.(exec := e.(version := sh.exec.version + 1), hist := h)
  }

  // ---- Changes that keep the identity of every call ------------------------------------

  ghost predicate SameCalls(calls: seq<ToolCall>, calls': seq<ToolCall>) {
    |calls| == |calls'| && forall i | 0 <= i < |calls| ::
      calls'[i].callId == calls[i].callId && calls'[i].name == calls[i].name && calls'[i].key == calls[i].key &&
      calls'[i].inputHash == calls[i].inputHash && calls'[i].replaySafe == calls[i].replaySafe
  }

  lemma SameIds(calls: seq<ToolCall>, calls': seq<ToolCall>)
    requires SameCalls(calls, calls')
    ensures CallIds(calls') == CallIds(calls)
    ensures DistinctIds(calls) ==> DistinctIds(calls')
  {
    forall c | c in calls ensures c.callId in CallIds(calls') {
      var i :| 0 <= i < |calls| && calls[i] == c;
      assert calls'[i] in calls';
    }
    forall c | c in calls' ensures c.callId in CallIds(calls) {
      var i :| 0 <= i < |calls'| && calls'[i] == c;
      assert calls[i] in calls;
    }
  }

  lemma SameShape(cfg: Config, b: Batch, b': Batch)
    requires SameCalls(b.calls, b'.calls) && BatchShape(cfg, b)
    ensures BatchShape(cfg, b') && CallIds(b'.calls) == CallIds(b.calls)
    ensures forall m :: UseMatches(cfg.hash, m, b.calls) ==> UseMatches(cfg.hash, m, b'.calls)
  {
    SameIds(b.calls, b'.calls);
    forall c | c in b'.calls ensures cfg.own(c.callId) && c.key == ToolExecutionKey(cfg.digest, cfg.id, c.callId) {
      var i :| 0 <= i < |b'.calls| && b'.calls[i] == c;
      assert b.calls[i] in b.calls;
    }
  }

  lemma UniqueCall(calls: seq<ToolCall>, c: ToolCall, d: ToolCall)
    requires DistinctIds(calls) && c in calls && d in calls && c.callId == d.callId
    ensures c == d
  {
  }

  /** Start counting survives every change that makes no call startable again. */
  lemma GrantsCarry(e: Record, e': Record, h: History, h': History)
    requires GrantsOk(e, h)
    requires h'.planned == h.planned && h'.unsafe == h.unsafe && h'.grants == h.grants && h'.retries == h.retries
    requires e'.batch.Some? ==> e.batch.Some? && SameCalls(e.batch.value.calls, e'.batch.value.calls)
    requires e'.batch.Some? ==> forall i | 0 <= i < |e'.batch.value.calls| ::
      var s, s' := e.batch.value.calls[i].status, e'.batch.value.calls[i].status;
      s'.Planned? || s'.Ready? ==> s.Planned? || s.Ready?
    ensures GrantsOk(e', h')
  {
    if e'.batch.Some? {
      var calls, calls' := e.batch.value.calls, e'.batch.value.calls;
      forall c | c in calls'
        ensures (c.callId in h'.unsafe <==> !c.replaySafe) &&
          (!c.replaySafe && (c.status.Planned? || c.status.Ready?) ==> h'.grants[c.callId] <= h'.retries[c.callId])
      {
        var i :| 0 <= i < |calls'| && calls'[i] == c;
        assert calls[i] in calls;
      }
    }
  }

  /** A claimed call stays under its claim or becomes completed. */
  lemma ClaimsCarry(e: Record, e': Record, h: History, h': History)
    requires ClaimsOk(e, h) && h'.claimed == h.claimed && h.readied <= h'.readied
    requires e'.batch.Some? ==> e.batch.Some? && SameCalls(e.batch.value.calls, e'.batch.value.calls)
    requires e'.batch.Some? ==>
      forall i | 0 <= i < |e'.batch.value.calls| && e.batch.value.calls[i].callId in h.claimed ::
      var s, s' := e.batch.value.calls[i].status, e'.batch.value.calls[i].status;
      s'.Completed? || (s' == s && e'.batch.value.resolution == e.batch.value.resolution)
    ensures ClaimsOk(e', h')
  {
    if e'.batch.Some? {
      var calls, calls' := e.batch.value.calls, e'.batch.value.calls;
      forall c | c in calls' && c.callId in h'.claimed
        ensures c.status.Completed? || (c.status.InFlight? && e'.batch.value.resolution.Some? &&
                                        e'.batch.value.resolution.value.callId == c.callId)
      {
        var i :| 0 <= i < |calls'| && calls'[i] == c;
        assert calls[i] in calls;
      }
    }
  }

  // ---- Saves that leave the batch alone ---------------------------------------------------

  lemma PlainKeeps(cfg: Config, sh: Shared, e: Record, h: History, sh': Shared)
    requires SharedInv(cfg, sh) && e.id == sh.exec.id && e.batch == sh.exec.batch
    requires e.lastSequence == sh.exec.lastSequence || (e.batch.Some? ==> e.batch.value.useLastSequence > 0)
    requires e.pause.Some? ==> PauseOk(e.pause.value, sh.hist)
    requires e.pendingPause.Some? ==> PauseOk(e.pendingPause.value, sh.hist)
    requires h == sh.hist || h == sh.hist.(resumed := sh.hist.resumed + [sh.exec.version])
    requires sh' == Saved(sh, e, h)
    ensures SharedInv(cfg, sh')
  {
    PlainRecord(cfg, sh.log, sh.exec, sh'.exec, sh.hist, h);
    PlainLog(cfg, sh, e, h, sh');
    PlainHistories(cfg, sh, e, h, sh');
    hide LogOk, RecordOk, CurrentOk, GrantsOk, ClaimsOk, StartsOk;
  }

  lemma PlainRecord(cfg: Config, log: seq<Message>, e: Record, e': Record, h: History, h': History)
    requires RecordOk(cfg, log, e, h) && e'.id == e.id && e'.batch == e.batch && h'.readied == h.readied &&
      h'.allowed == h.allowed
    requires e'.lastSequence == e.lastSequence || (e'.batch.Some? ==> e'.batch.value.useLastSequence > 0)
    requires e'.pause.Some? ==> PauseOk(e'.pause.value, h)
    requires e'.pendingPause.Some? ==> PauseOk(e'.pendingPause.value, h)
    ensures RecordOk(cfg, log, e', h')
  {
    hide BatchShape, UseMatches;
  }

  lemma PlainLog(cfg: Config, sh: Shared, e: Record, h: History, sh': Shared)
    requires LogOk(cfg, sh.log, sh.hist) && CurrentOk(cfg, sh.log, sh.exec, sh.hist) && e.batch == sh.exec.batch
    requires h.planned == sh.hist.planned && h.readied == sh.hist.readied && sh' == Saved(sh, e, h)
    ensures LogOk(cfg, sh'.log, h) && CurrentOk(cfg, sh'.log, sh'.exec, h)
  {
  }

  lemma PlainHistories(cfg: Config, sh: Shared, e: Record, h: History, sh': Shared)
    requires GrantsOk(sh.exec, sh.hist) && ClaimsOk(sh.exec, sh.hist) && StartsOk(cfg, sh.exec, sh.hist) &&
      e.batch == sh.exec.batch
    requires h == sh.hist || h == sh.hist.(resumed := sh.hist.resumed + [sh.exec.version])
    requires sh' == Saved(sh, e, h)
    ensures GrantsOk(sh'.exec, h) && ClaimsOk(sh'.exec, h) && StartsOk(cfg, sh'.exec, h)
  {
  }

  // ---- Planning ----------------------------------------------------------------------------

  /** The planned calls carry the requests' identities, inputs and replay-safety. */
  lemma PlannedCalls(cfg: Config, rs: seq<Request>)
    requires rs != [] && forall i, j | 0 <= i < j < |rs| :: rs[i].id != rs[j].id
    requires forall r | r in rs :: cfg.hash(r.input).Some?
    ensures var calls := PlanCalls(cfg.hash, cfg.digest, cfg.id, rs);
      DistinctIds(calls) && calls != [] && CallIds(calls) == (set r | r in rs :: r.id) &&
      forall c | c in calls :: c.status.Planned? && c.approval.None? && c.input.Some? &&
        cfg.hash(c.input.value) == Some(c.inputHash) && c.key == ToolExecutionKey(cfg.digest, cfg.id, c.callId) &&
        (c.replaySafe <==> c.callId !in (set r | r in rs && !r.replaySafe :: r.id))
  {
    var calls := PlanCalls(cfg.hash, cfg.digest, cfg.id, rs);
    forall r | r in rs ensures r.id in CallIds(calls) {
      var i :| 0 <= i < |rs| && rs[i] == r;
      assert calls[i] in calls;
    }
    forall c | c in calls ensures exists r | r in rs :: c == PlanCall(cfg.hash, cfg.digest, cfg.id, r) {
      var i :| 0 <= i < |calls| && calls[i] == c;
      assert rs[i] in rs;
    }
    forall c | c in calls ensures c.replaySafe <==> c.callId !in (set r | r in rs && !r.replaySafe :: r.id) {
      var i :| 0 <= i < |calls| && calls[i] == c;
      if c.callId in (set r | r in rs && !r.replaySafe :: r.id) {
        var r :| r in rs && !r.replaySafe && r.id == c.callId;
        var j :| 0 <= j < |rs| && rs[j] == r;
      }
    }
  }

  lemma PlanRecord(cfg: Config, sh: Shared, w: Worker, sh': Shared)
    requires LogOk(cfg, sh.log, sh.hist) && WorkerInv(cfg, sh, w) && w.pc.Plan? && w.exec == sh.exec &&
      w.exec.batch.None?
    requires sh' == Saved(sh, PlanBatch(cfg.hash, cfg.digest, w.pc.requests, w.exec, w.revision, w.lastSequence),
                          PlanHistory(sh.hist, w.pc.requests))
    ensures RecordOk(cfg, sh'.log, sh'.exec, sh'.hist)
    ensures BatchIds(sh'.exec) == (set r | r in w.pc.requests :: r.id) && BatchIds(sh'.exec) !! sh.hist.planned
    ensures AllPlanned(sh'.exec.batch.value.calls)
  {
    var rs := w.pc.requests;
    PlannedCalls(cfg, rs);
    assert sh.log[..w.lastSequence][cfg.start..] == sh.log[cfg.start..w.lastSequence];
    forall c | c in sh'.exec.batch.value.calls
      ensures cfg.own(c.callId) && c.callId !in UseIds(sh.log[cfg.start..w.lastSequence])
    {
      assert c.callId in BatchIds(sh'.exec);
    }
  }

  lemma PlanShared(cfg: Config, sh: Shared, w: Worker, sh': Shared)
    requires SharedInv(cfg, sh) && WorkerInv(cfg, sh, w) && w.pc.Plan? && w.exec == sh.exec && w.exec.batch.None?
    requires sh' == Saved(sh, PlanBatch(cfg.hash, cfg.digest, w.pc.requests, w.exec, w.revision, w.lastSequence),
                          PlanHistory(sh.hist, w.pc.requests))
    ensures SharedInv(cfg, sh')
  {
    PlanRecord(cfg, sh, w, sh');
    PlannedCalls(cfg, w.pc.requests);
    forall c | c in sh'.exec.batch.value.calls ensures c.callId !in sh.hist.planned {
      assert c.callId in BatchIds(sh'.exec);
    }
  }

  lemma PlanWorker(cfg: Config, sh: Shared, w: Worker, sh': Shared)
    requires WorkerInv(cfg, sh, w) && w.pc.Plan? && w.exec == sh.exec && w.exec.batch.None?
    requires sh' == Saved(sh, PlanBatch(cfg.hash, cfg.digest, w.pc.requests, w.exec, w.revision, w.lastSequence),
                          PlanHistory(sh.hist, w.pc.requests))
    requires RecordOk(cfg, sh'.log, sh'.exec, sh'.hist)
    ensures WorkerInv(cfg, sh', AfterSave(w, sh'.exec))
  {
    var rs := w.pc.requests;
    var calls := sh'.exec.batch.value.calls;
    assert calls == PlanCalls(cfg.hash, cfg.digest, w.exec.id, rs);
    assert sh.log[..w.lastSequence][cfg.start..] == sh.log[cfg.start..w.lastSequence];
    forall c | c in calls ensures c.status.Planned? && c.callId !in UseIds(sh.log[cfg.start..w.lastSequence]) {
      var i :| 0 <= i < |rs| && calls[i] == c;
      assert rs[i] in rs;
    }
  }

  // ---- Planned -> Ready --------------------------------------------------------------------

  lemma ResultAt(log: seq<Message>, start: nat, p: nat, x: Block)
    requires start <= p < |log| && x in log[p].content && x.ToolResult?
    ensures x.id in ResultIds(log[start..])
  {
    BlockAt(log, start, p, x);
    ResultsOfMember(Blocks(log[start..]), x.id);
  }

  lemma UseAt(log: seq<Message>, start: nat, p: nat, x: Block)
    requires start <= p < |log| && x in log[p].content && x.ToolUse?
    ensures x.id in UseIds(log[start..])
  {
    BlockAt(log, start, p, x);
    UsesOfMember(Blocks(log[start..]), x.id);
  }

  lemma BlockAt(log: seq<Message>, start: nat, p: nat, x: Block)
    requires start <= p < |log| && x in log[p].content
    ensures x in Blocks(log[start..])
  {
    assert log[start..] == log[start..p] + log[p..];
    BlocksConcat(log[start..p], log[p..]);
    assert Blocks(log[p..]) == log[p].content + Blocks(log[p..][1..]);
  }

  /** No call of a batch that is still planned has been answered. */
  lemma PlannedIsUnanswered(cfg: Config, sh: Shared, c: ToolCall)
    requires SharedInv(cfg, sh) && sh.exec.batch.Some? && AllPlanned(sh.exec.batch.value.calls)
    requires c in sh.exec.batch.value.calls
    ensures cfg.own(c.callId) && c.callId !in ResultIds(sh.log[cfg.start..])
  {
    assert c.callId in BatchIds(sh.exec);
    CountMember(ResultIds(sh.log[cfg.start..]), c.callId);
    assert ResultCount(cfg, sh.log, c.callId) == multiset(ResultIds(sh.log[cfg.start..]))[c.callId];
  }

  /** An answer behind the ToolUse message at `k` is a canonical result of one of its calls. */
  lemma AnswerIsCanonical(cfg: Config, sh: Shared, w: Worker, calls: seq<ToolCall>, k: nat) returns (c: ToolCall)
    requires LogCopy(cfg, sh, w) && Flushed(w) && k + 1 < |w.messages| && cfg.start <= w.base + k &&
      AnswersOnly(w.messages[k + 1..], calls)
    ensures c in calls && c.callId in ResultIds(sh.log[cfg.start..])
  {
    var m := w.messages[k + 1..][0];
    assert m in w.messages[k + 1..];
    assert ResultMessage(m);
    var x := m.content[0];
    assert x in m.content;
    c :| c in calls && c.callId == x.id;
    assert m == w.messages[..w.persistedCount][k + 1] == sh.log[w.base + k + 1];
    ResultAt(sh.log, cfg.start, w.base + k + 1, x);
  }

  /** So nothing follows the ToolUse message that recovery or the invocation is about to mark ready. */
  lemma MarkedUseIsLast(cfg: Config, sh: Shared, w: Worker)
    requires SharedInv(cfg, sh) && WorkerInv(cfg, sh, w) && w.pc.MarkingReady? && w.exec == sh.exec
    requires w.exec.batch.Some? && AllPlanned(w.exec.batch.value.calls)
    ensures |w.messages| == w.pc.index + 1 && w.lastSequence == w.base + w.pc.index + 1
    ensures sh.log[w.lastSequence - 1] == w.messages[w.pc.index]
  {
    hide SharedInv, RecordOk, UseMatches, AnswersOnly;
    var k, calls := w.pc.index, w.exec.batch.value.calls;
    if k + 1 < |w.messages| {
      var c := AnswerIsCanonical(cfg, sh, w, calls, k);
      PlannedIsUnanswered(cfg, sh, c);
      assert false;
    }
    assert w.messages[k] == w.messages[..w.persistedCount][k] == sh.log[w.base + k];
  }

  lemma ReadyBatch(cfg: Config, log: seq<Message>, e: Record, e': Record, revision: nat, last: nat, h: History)
    requires RecordOk(cfg, log, e, h) && e.batch.Some? && e' == MarkReady(e, revision, last)
    requires cfg.start < last <= |log| && UseMatches(cfg.hash, log[last - 1], e.batch.value.calls)
    requires PlannedFacts(cfg, log, e.lastSequence, e.batch.value)
    requires forall c | c in e.batch.value.calls :: c.callId !in ResultIds(log[cfg.start..last])
    ensures RecordOk(cfg, log, e', ReadyHistory(h, e.batch.value.calls)) && BatchIds(e') == BatchIds(e)
  {
    var b, b' := e.batch.value, e'.batch.value;
    SameShape(cfg, b, b');
    forall c | c in b'.calls ensures exists d | d in b.calls :: c == d.(status := Ready, input := None) {
      var i :| 0 <= i < |b'.calls| && b'.calls[i] == c;
      assert b.calls[i] in b.calls;
    }
  }

  lemma ReadyRecord(cfg: Config, sh: Shared, w: Worker, sh': Shared)
    requires SharedInv(cfg, sh) && WorkerInv(cfg, sh, w) && w.pc.MarkingReady? && w.exec == sh.exec &&
      w.exec.batch.Some?
    requires AllPlanned(w.exec.batch.value.calls)
    requires sh' == Saved(sh, MarkReady(w.exec, w.revision, w.lastSequence),
                          ReadyHistory(sh.hist, w.exec.batch.value.calls))
    ensures RecordOk(cfg, sh'.log, sh'.exec, sh'.hist)
    ensures BatchIds(sh'.exec) == BatchIds(sh.exec) && BatchShape(cfg, w.exec.batch.value) &&
      cfg.start < w.lastSequence <= |sh.log|
    ensures w.lastSequence == w.base + w.pc.index + 1 &&
      UseMatches(cfg.hash, sh.log[w.lastSequence - 1], w.exec.batch.value.calls)
    ensures PlannedFacts(cfg, sh.log, w.exec.lastSequence, w.exec.batch.value)
  {
    MarkedUseIsLast(cfg, sh, w);
    ReadyPlace(cfg, sh, w);
    hide SharedInv, WorkerInv, UseMatches, AllPlanned, RecordOk, PlannedFacts, MarkReady;
    forall c | c in w.exec.batch.value.calls ensures c.callId !in ResultIds(sh.log[cfg.start..w.lastSequence]) {
      ReadyCallFacts(cfg, sh, w, c);
    }
    ReadyBatch(cfg, sh.log, w.exec, MarkReady(w.exec, w.revision, w.lastSequence), w.revision, w.lastSequence, sh.hist);
  }

  lemma ReadyPlace(cfg: Config, sh: Shared, w: Worker)
    requires SharedInv(cfg, sh) && WorkerInv(cfg, sh, w) && w.pc.MarkingReady? && w.exec.batch.Some?
    requires AllPlanned(w.exec.batch.value.calls) && |w.messages| == w.pc.index + 1
    requires w.lastSequence == w.base + w.pc.index + 1
    requires w.exec == sh.exec && sh.log[w.lastSequence - 1] == w.messages[w.pc.index]
    ensures RecordOk(cfg, sh.log, w.exec, sh.hist) && BatchShape(cfg, w.exec.batch.value) &&
      cfg.start < w.lastSequence <= |sh.log| &&
      UseMatches(cfg.hash, sh.log[w.lastSequence - 1], w.exec.batch.value.calls) &&
      PlannedFacts(cfg, sh.log, w.exec.lastSequence, w.exec.batch.value)
  {
    hide SharedInv, UseMatches, AnswersOnly;
    assert w.exec.batch.value.calls[0] in w.exec.batch.value.calls;
  }

  lemma ReadyCallFacts(cfg: Config, sh: Shared, w: Worker, c: ToolCall)
    requires SharedInv(cfg, sh) && sh.exec.batch.Some? && AllPlanned(sh.exec.batch.value.calls)
    requires c in sh.exec.batch.value.calls && cfg.start <= w.lastSequence <= |sh.log|
    ensures c.callId !in ResultIds(sh.log[cfg.start..w.lastSequence])
  {
    PlannedIsUnanswered(cfg, sh, c);
    ResultIdsSplit(sh.log, cfg.start, w.lastSequence, |sh.log|);
    assert sh.log[cfg.start..|sh.log|] == sh.log[cfg.start..];
  }

  /** A call of an announced batch has a canonical use. */
  lemma AnnouncedUse(cfg: Config, log: seq<Message>, u: nat, calls: seq<ToolCall>, id: string)
    requires cfg.start < u <= |log| && UseMatches(cfg.hash, log[u - 1], calls) && id in CallIds(calls)
    ensures UseCount(cfg, log, id) > 0
  {
    var c :| c in calls && c.callId == id;
    var i :| 0 <= i < |calls| && calls[i] == c;
    UseAt(log, cfg.start, u - 1, log[u - 1].content[i]);
    CountMember(UseIds(log[cfg.start..]), id);
  }

  lemma ReadyLog(cfg: Config, sh: Shared, w: Worker, sh': Shared)
    requires LogOk(cfg, sh.log, sh.hist) && w.exec.batch.Some? && BatchShape(cfg, w.exec.batch.value)
    requires cfg.start < w.lastSequence <= |sh.log|
    requires UseMatches(cfg.hash, sh.log[w.lastSequence - 1], w.exec.batch.value.calls)
    requires sh'.log == sh.log && sh'.hist.readied == sh.hist.readied + CallIds(w.exec.batch.value.calls)
    ensures LogOk(cfg, sh'.log, sh'.hist)
  {
    hide UseMatches, UseCount, ResultCount;
    var calls := w.exec.batch.value.calls;
    forall id | id in CallIds(calls) ensures cfg.own(id) && UseCount(cfg, sh.log, id) > 0 {
      AnnouncedUse(cfg, sh.log, w.lastSequence, calls, id);
    }
  }

  lemma ReadyCallsSame(calls: seq<ToolCall>)
    requires AllPlanned(calls) && calls != []
    ensures SameCalls(calls, ReadyCalls(calls)) && !AllPlanned(ReadyCalls(calls))
    ensures forall i | 0 <= i < |calls| :: calls[i].status.Planned?
  {
    assert ReadyCalls(calls)[0] in ReadyCalls(calls);
  }

  lemma PlannedUnclaimed(cfg: Config, sh: Shared)
    requires cfg.start <= |sh.log| && CurrentOk(cfg, sh.log, sh.exec, sh.hist) && ClaimsOk(sh.exec, sh.hist)
    requires sh.exec.batch.Some? && AllPlanned(sh.exec.batch.value.calls)
    ensures forall i | 0 <= i < |sh.exec.batch.value.calls| :: sh.exec.batch.value.calls[i].callId !in sh.hist.claimed
  {
    forall i | 0 <= i < |sh.exec.batch.value.calls| ensures sh.exec.batch.value.calls[i].callId !in sh.hist.claimed {
      assert sh.exec.batch.value.calls[i].callId in BatchIds(sh.exec);
    }
  }

  lemma ReadyShared(cfg: Config, sh: Shared, w: Worker, sh': Shared)
    requires SharedInv(cfg, sh) && WorkerInv(cfg, sh, w) && w.pc.MarkingReady? && w.exec == sh.exec &&
      w.exec.batch.Some?
    requires AllPlanned(w.exec.batch.value.calls)
    requires sh' == Saved(sh, MarkReady(w.exec, w.revision, w.lastSequence),
                          ReadyHistory(sh.hist, w.exec.batch.value.calls))
    ensures SharedInv(cfg, sh')
  {
    ReadyRecord(cfg, sh, w, sh');
    ReadyShared2(cfg, sh, w, sh');
  }

  lemma ReadyShared2(cfg: Config, sh: Shared, w: Worker, sh': Shared)
    requires SharedInv(cfg, sh) && w.exec == sh.exec && w.pc.MarkingReady? && w.exec.batch.Some?
    requires AllPlanned(w.exec.batch.value.calls)
    requires sh' == Saved(sh, MarkReady(w.exec, w.revision, w.lastSequence),
                          ReadyHistory(sh.hist, w.exec.batch.value.calls))
    requires RecordOk(cfg, sh'.log, sh'.exec, sh'.hist) && BatchIds(sh'.exec) == BatchIds(sh.exec)
    requires BatchShape(cfg, w.exec.batch.value) && cfg.start < w.lastSequence <= |sh.log|
    requires UseMatches(cfg.hash, sh.log[w.lastSequence - 1], w.exec.batch.value.calls)
    ensures SharedInv(cfg, sh')
  {
    ReadyLog(cfg, sh, w, sh');
    ReadyHistories(cfg, sh, w, sh');
    ReadyCurrent(cfg, sh, w, sh');
    hide LogOk, RecordOk, CurrentOk, GrantsOk, ClaimsOk, StartsOk;
  }

  lemma ReadyHistories(cfg: Config, sh: Shared, w: Worker, sh': Shared)
    requires cfg.start <= |sh.log| && CurrentOk(cfg, sh.log, sh.exec, sh.hist)
    requires GrantsOk(sh.exec, sh.hist) && ClaimsOk(sh.exec, sh.hist) && StartsOk(cfg, sh.exec, sh.hist)
    requires w.exec == sh.exec && w.exec.batch.Some? && w.exec.batch.value.calls != [] &&
      AllPlanned(w.exec.batch.value.calls)
    requires sh' == Saved(sh, MarkReady(w.exec, w.revision, w.lastSequence),
                          ReadyHistory(sh.hist, w.exec.batch.value.calls))
    ensures GrantsOk(sh'.exec, sh'.hist) && ClaimsOk(sh'.exec, sh'.hist) && StartsOk(cfg, sh'.exec, sh'.hist)
  {
    ReadyCallsSame(sh.exec.batch.value.calls);
    PlannedUnclaimed(cfg, sh);
    hide CurrentOk, GrantsOk, ClaimsOk;
    GrantsCarry(sh.exec, sh'.exec, sh.hist, sh'.hist);
    ClaimsCarry(sh.exec, sh'.exec, sh.hist, sh'.hist);
  }

  lemma ReadyCurrent(cfg: Config, sh: Shared, w: Worker, sh': Shared)
    requires cfg.start <= |sh.log| && CurrentOk(cfg, sh.log, sh.exec, sh.hist)
    requires w.exec == sh.exec && w.exec.batch.Some? && w.exec.batch.value.calls != [] &&
      AllPlanned(w.exec.batch.value.calls)
    requires sh' == Saved(sh, MarkReady(w.exec, w.revision, w.lastSequence),
                          ReadyHistory(sh.hist, w.exec.batch.value.calls))
    requires BatchIds(sh'.exec) == BatchIds(sh.exec)
    ensures CurrentOk(cfg, sh'.log, sh'.exec, sh'.hist)
  {
    ReadyCallsSame(sh.exec.batch.value.calls);
  }

  lemma ReadyWorker(cfg: Config, sh: Shared, w: Worker, sh': Shared)
    requires WorkerInv(cfg, sh, w) && w.pc.MarkingReady? && w.exec == sh.exec && w.exec.batch.Some?
    requires AllPlanned(w.exec.batch.value.calls)
    requires sh' == Saved(sh, MarkReady(w.exec, w.revision, w.lastSequence),
                          ReadyHistory(sh.hist, w.exec.batch.value.calls))
    requires RecordOk(cfg, sh'.log, sh'.exec, sh'.hist) && w.lastSequence == w.base + w.pc.index + 1
    requires PlannedFacts(cfg, sh.log, w.exec.lastSequence, w.exec.batch.value)
    ensures WorkerInv(cfg, sh', AfterSave(w, sh'.exec))
  {
  }

  // ---- Saves that rewrite a ready batch ----------------------------------------------------------

  /** `e'` keeps the identity of the ready batch of `e`; completed calls have canonical results. */
  ghost predicate Rewrites(cfg: Config, log: seq<Message>, e: Record, e': Record, h': History) {
    e.batch.Some? && e'.id == e.id && e'.pause == e.pause && e'.pendingPause == e.pendingPause &&
    var b := e.batch.value;
    0 < b.useLastSequence <= |log| &&
    (e'.batch.Some? ==>
      var b' := e'.batch.value;
      SameCalls(b.calls, b'.calls) && b'.useLastSequence == b.useLastSequence &&
      (b'.resolution.Some? ==> b'.resolution.value.callId in CallIds(b.calls)) &&
      forall i | 0 <= i < |b.calls| ::
        !b'.calls[i].status.Planned? &&
        (b'.calls[i].status.Completed? ==>
          b.calls[i].status.Completed? || b.calls[i].callId in ResultIds(log[b.useLastSequence..])) &&
        (b'.calls[i].approval.Some? && b'.calls[i].approval.value.allow ==> b.calls[i].callId in h'.allowed))
  }

  /** What a record with a ready batch says about each call, by position. */
  lemma ReadyIndexed(cfg: Config, log: seq<Message>, e: Record, h: History)
    requires RecordOk(cfg, log, e, h) && e.batch.Some? && e.batch.value.useLastSequence > 0
    ensures ReadyFacts(cfg, log, e.batch.value, h)
    ensures forall i | 0 <= i < |e.batch.value.calls| ::
      !e.batch.value.calls[i].status.Planned? &&
      (e.batch.value.calls[i].approval.Some? && e.batch.value.calls[i].approval.value.allow ==>
        e.batch.value.calls[i].callId in h.allowed)
  {
    var calls := e.batch.value.calls;
    forall i | 0 <= i < |calls|
      ensures !calls[i].status.Planned? &&
        (calls[i].approval.Some? && calls[i].approval.value.allow ==> calls[i].callId in h.allowed)
    {
      assert calls[i] in calls;
    }
  }

  lemma RewriteRecord(cfg: Config, log: seq<Message>, e: Record, e': Record, h: History, h': History)
    requires RecordOk(cfg, log, e, h) && Rewrites(cfg, log, e, e', h') && h.readied == h'.readied
    ensures RecordOk(cfg, log, e', h')
    ensures e'.batch.Some? ==> BatchIds(e') == BatchIds(e) && !AllPlanned(e'.batch.value.calls)
    ensures ReadyFacts(cfg, log, e.batch.value, h) && cfg.start <= |log|
  {
    ReadyIndexed(cfg, log, e, h);
    assert BatchShape(cfg, e.batch.value);
    if e'.batch.Some? {
      var b, b' := e.batch.value, e'.batch.value;
      SameShape(cfg, b, b');
      assert b'.calls[0] in b'.calls;
      hide BatchShape, UseMatches;
      forall c | c in b'.calls ensures RewrittenCall(log, b, h', c) {
        var i :| 0 <= i < |b'.calls| && b'.calls[i] == c;
        assert b.calls[i] in b.calls;
      }
      hide SameCalls;
    }
  }

  ghost predicate RewrittenCall(log: seq<Message>, b: Batch, h: History, c: ToolCall)
    requires b.useLastSequence <= |log|
  {
    !c.status.Planned? && (c.status.Completed? ==> c.callId in ResultIds(log[b.useLastSequence..])) &&
    (c.approval.Some? && c.approval.value.allow ==> c.callId in h.allowed) &&
    exists d | d in b.calls :: d.callId == c.callId
  }

  /** A cleared batch has a canonical result for every call. */
  lemma CompletedAnswered(cfg: Config, log: seq<Message>, u: nat, id: string)
    requires cfg.start <= u <= |log| && id in ResultIds(log[u..])
    ensures ResultCount(cfg, log, id) > 0
  {
    ResultIdsSplit(log, cfg.start, u, |log|);
    assert log[cfg.start..|log|] == log[cfg.start..] && log[u..|log|] == log[u..];
    CountMember(ResultIds(log[cfg.start..]), id);
  }

  /** The history a save writes matches the record it writes and readies or plans nothing. */
  ghost predicate SavesHistory(cfg: Config, sh: Shared, e: Record, sh': Shared) {
    sh' == Saved(sh, e, sh'.hist) && sh'.hist.readied == sh.hist.readied && sh'.hist.planned == sh.hist.planned &&
    sh.hist.allowed <= sh'.hist.allowed && GrantsOk(e, sh'.hist) && ClaimsOk(e, sh'.hist) &&
    StartsOk(cfg, sh'.exec, sh'.hist)
  }

  lemma RewriteKeeps(cfg: Config, sh: Shared, e: Record, h: History, sh': Shared)
    requires SharedInv(cfg, sh) && Rewrites(cfg, sh.log, sh.exec, e, h) && SavesHistory(cfg, sh, e, sh') &&
      h == sh'.hist
    requires e.batch.None? ==>
      cfg.start <= |sh.log| && forall id | id in BatchIds(sh.exec) :: ResultCount(cfg, sh.log, id) > 0
    ensures SharedInv(cfg, sh')
  {
    RewriteRecord(cfg, sh.log, sh.exec, e, sh.hist, h);
  }

  /** Each call is completed or left alone, and a claimed call keeps its claim until then. */
  ghost predicate OnlyCompletes(e: Record, e': Record, h: History)
    requires e.batch.Some?
  {
    e'.batch.Some? ==>
      SameCalls(e.batch.value.calls, e'.batch.value.calls) && forall i | 0 <= i < |e.batch.value.calls| ::
      var c, c' := e.batch.value.calls[i], e'.batch.value.calls[i];
      c'.status.Completed? || (c'.status == c.status &&
                               (c.callId in h.claimed ==> e'.batch.value.resolution == e.batch.value.resolution))
  }

  /** `e'` drops the batch of `e` only when every call is completed or answered. */
  ghost predicate DropsAnswered(log: seq<Message>, e: Record, e': Record)
    requires e.batch.Some? && e.batch.value.useLastSequence <= |log|
  {
    e'.batch.None? ==> forall c | c in e.batch.value.calls ::
      c.status.Completed? || c.callId in ResultIds(log[e.batch.value.useLastSequence..])
  }

  /** Same, for saves that change no history and complete calls or leave them alone. */
  lemma QuietRewriteKeeps(cfg: Config, sh: Shared, e: Record, sh': Shared)
    requires SharedInv(cfg, sh) && Rewrites(cfg, sh.log, sh.exec, e, sh.hist) && sh' == Saved(sh, e, sh.hist)
    requires OnlyCompletes(sh.exec, e, sh.hist) && DropsAnswered(sh.log, sh.exec, e)
    ensures SharedInv(cfg, sh')
  {
    QuietHistories(cfg, sh, e, sh');
    DroppedAnswered(cfg, sh, e);
    hide *;
    RewriteKeeps(cfg, sh, e, sh.hist, sh');
  }

  lemma QuietHistories(cfg: Config, sh: Shared, e: Record, sh': Shared)
    requires GrantsOk(sh.exec, sh.hist) && ClaimsOk(sh.exec, sh.hist) && StartsOk(cfg, sh.exec, sh.hist)
    requires sh.exec.batch.Some? && OnlyCompletes(sh.exec, e, sh.hist) && sh' == Saved(sh, e, sh.hist)
    ensures SavesHistory(cfg, sh, e, sh') && sh'.hist == sh.hist
  {
    hide GrantsOk, ClaimsOk;
    GrantsCarry(sh.exec, e, sh.hist, sh.hist);
    ClaimsCarry(sh.exec, e, sh.hist, sh.hist);
  }

  lemma DroppedAnswered(cfg: Config, sh: Shared, e: Record)
    requires RecordOk(cfg, sh.log, sh.exec, sh.hist) && Rewrites(cfg, sh.log, sh.exec, e, sh.hist) &&
      DropsAnswered(sh.log, sh.exec, e)
    ensures e.batch.None? ==>
      cfg.start <= |sh.log| && forall id | id in BatchIds(sh.exec) :: ResultCount(cfg, sh.log, id) > 0
  {
    RewriteRecord(cfg, sh.log, sh.exec, e, sh.hist, sh.hist);
    hide RecordOk;
    if e.batch.None? {
      forall id | id in BatchIds(sh.exec) ensures ResultCount(cfg, sh.log, id) > 0 {
        CompletedAnswered(cfg, sh.log, sh.exec.batch.value.useLastSequence, id);
      }
    }
  }

  lemma SeenIsCanonical(sh: Shared, w: Worker, id: string)
    requires w.exec.batch.Some? && w.exec.batch.value.useLastSequence <= w.lastSequence <= |sh.log| && id in Seen(sh, w)
    ensures id in ResultIds(sh.log[w.exec.batch.value.useLastSequence..])
  {
    var u := w.exec.batch.value.useLastSequence;
    ResultIdsSplit(sh.log, u, w.lastSequence, |sh.log|);
    assert sh.log[u..|sh.log|] == sh.log[u..];
  }

  /** Acknowledging canonical results. */
  lemma AckShared(cfg: Config, sh: Shared, w: Worker, done: set<string>, sh': Shared)
    requires SharedInv(cfg, sh) && w.exec == sh.exec && Holding(sh, w) && forall id | id in done :: id in Seen(sh, w)
    requires sh' == Saved(sh, Acknowledge(w.exec, done, w.revision, w.lastSequence), sh.hist)
    ensures SharedInv(cfg, sh')
  {
    hide LogOk, CurrentOk, GrantsOk, ClaimsOk, StartsOk;
    var b, e' := sh.exec.batch.value, Acknowledge(w.exec, done, w.revision, w.lastSequence);
    var calls := CompleteCalls(b.calls, done);
    forall i | 0 <= i < |b.calls|
      ensures b.calls[i].callId in done ==> b.calls[i].callId in ResultIds(sh.log[b.useLastSequence..])
    {
      if b.calls[i].callId in done { SeenIsCanonical(sh, w, b.calls[i].callId); }
    }
    AckRewrites(cfg, sh.log, sh.exec, done, e', sh.hist, w.revision, w.lastSequence);
    QuietRewriteKeeps(cfg, sh, e', sh');
  }

  lemma AckRewrites(cfg: Config, log: seq<Message>, e: Record, done: set<string>, e': Record, h: History,
                    revision: nat, last: nat)
    requires RecordOk(cfg, log, e, h) && e.batch.Some? && 0 < e.batch.value.useLastSequence <= |log|
    requires e' == Acknowledge(e, done, revision, last)
    requires forall i | 0 <= i < |e.batch.value.calls| && e.batch.value.calls[i].callId in done ::
      e.batch.value.calls[i].callId in ResultIds(log[e.batch.value.useLastSequence..])
    ensures Rewrites(cfg, log, e, e', h)
    ensures DropsAnswered(log, e, e')
    ensures e'.batch.Some? ==> e'.batch.value == e.batch.value.(calls := CompleteCalls(e.batch.value.calls, done))
  {
    ReadyIndexed(cfg, log, e, h);
    hide RecordOk, ReadyFacts;
    var b := e.batch.value;
    var calls := CompleteCalls(b.calls, done);
    if AllCompleted(calls) {
      forall c | c in b.calls ensures c.status.Completed? || c.callId in ResultIds(log[b.useLastSequence..]) {
        var i :| 0 <= i < |b.calls| && b.calls[i] == c;
        assert calls[i] in calls;
      }
    }
  }

  /** Clearing a claim whose outcome is canonical. */
  lemma ClearShared(cfg: Config, sh: Shared, w: Worker, claim: Claim, sh': Shared)
    requires SharedInv(cfg, sh) && w.exec == sh.exec && Claiming(sh, w, claim) && claim.callId in Seen(sh, w)
    requires sh' == Saved(sh, ClearClaim(w.exec, claim, w.revision, w.lastSequence), sh.hist)
    ensures SharedInv(cfg, sh')
  {
    hide LogOk, CurrentOk, GrantsOk, StartsOk;
    var b, e' := sh.exec.batch.value, ClearClaim(w.exec, claim, w.revision, w.lastSequence);
    SeenIsCanonical(sh, w, claim.callId);
    ClearRewrites(cfg, sh.log, sh.exec, claim, e', sh.hist, w.revision, w.lastSequence);
    forall i | 0 <= i < |b.calls| && b.calls[i].callId in sh.hist.claimed
      ensures b.calls[i].status.Completed? || b.calls[i].callId == claim.callId
    {
      assert b.calls[i] in b.calls;
    }
    QuietRewriteKeeps(cfg, sh, e', sh');
  }

  lemma ClearRewrites(cfg: Config, log: seq<Message>, e: Record, claim: Claim, e': Record, h: History, revision: nat,
                      last: nat)
    requires RecordOk(cfg, log, e, h) && e.batch.Some? && 0 < e.batch.value.useLastSequence <= |log|
    requires e' == ClearClaim(e, claim, revision, last) &&
      claim.callId in ResultIds(log[e.batch.value.useLastSequence..])
    ensures Rewrites(cfg, log, e, e', h)
    ensures DropsAnswered(log, e, e')
    ensures e'.batch.Some? ==>
      e'.batch.value == e.batch.value.(calls := CompleteCalls(e.batch.value.calls, {claim.callId}), resolution := None)
  {
    ReadyIndexed(cfg, log, e, h);
    hide RecordOk, ReadyFacts;
    var b := e.batch.value;
    var calls := CompleteCalls(b.calls, {claim.callId});
    if AllCompleted(calls) {
      forall c | c in b.calls ensures c.status.Completed? || c.callId in ResultIds(log[b.useLastSequence..]) {
        var i :| 0 <= i < |b.calls| && b.calls[i] == c;
        assert calls[i] in calls;
      }
    }
  }

  /** Saving the human decisions of a resumed approval pause. */
  lemma DecideShared(cfg: Config, sh: Shared, ids: seq<string>, answer: string -> Decision, sh': Shared)
    requires SharedInv(cfg, sh) && sh.exec.batch.Some? && sh.exec.batch.value.useLastSequence > 0
    requires sh' == Saved(sh, WithCalls(sh.exec, DecideCalls(sh.exec.batch.value.calls, ids, answer)),
                          DecideHistory(sh.hist, ids, answer))
    ensures SharedInv(cfg, sh')
  {
    var e' := WithCalls(sh.exec, DecideCalls(sh.exec.batch.value.calls, ids, answer));
    DecideRewrites(cfg, sh.log, sh.exec, ids, answer, e', sh.hist, sh'.hist);
    DecideHistories(cfg, sh, ids, answer, e', sh');
    hide *;
    RewriteKeeps(cfg, sh, e', sh'.hist, sh');
  }

  lemma DecideRewrites(cfg: Config, log: seq<Message>, e: Record, ids: seq<string>, answer: string -> Decision,
                       e': Record,
                       h: History, h': History)
    requires RecordOk(cfg, log, e, h) && e.batch.Some? && e.batch.value.useLastSequence > 0
    requires e' == WithCalls(e, DecideCalls(e.batch.value.calls, ids, answer)) && h' == DecideHistory(h, ids, answer)
    ensures Rewrites(cfg, log, e, e', h')
  {
    ReadyIndexed(cfg, log, e, h);
    hide RecordOk;
  }

  lemma DecideHistories(cfg: Config, sh: Shared, ids: seq<string>, answer: string -> Decision, e': Record, sh': Shared)
    requires sh.exec.batch.Some? && GrantsOk(sh.exec, sh.hist) && ClaimsOk(sh.exec, sh.hist) &&
      StartsOk(cfg, sh.exec, sh.hist)
    requires e' == WithCalls(sh.exec, DecideCalls(sh.exec.batch.value.calls, ids, answer))
    requires sh' == Saved(sh, e', DecideHistory(sh.hist, ids, answer))
    ensures SavesHistory(cfg, sh, e', sh')
  {
    hide GrantsOk, ClaimsOk;
    GrantsCarry(sh.exec, e', sh.hist, sh'.hist);
    ClaimsCarry(sh.exec, e', sh.hist, sh'.hist);
  }

  /** Retry makes an in-flight call startable exactly once more. */
  lemma RetryShared(cfg: Config, sh: Shared, w: Worker, id: string, sh': Shared)
    requires SharedInv(cfg, sh) && w.exec == sh.exec && InFlightTarget(w, id)
    requires sh' == Saved(sh, WithCalls(sh.exec, SetStatus(sh.exec.batch.value.calls, id, Ready)),
                          RetryHistory(sh.hist, id, sh.exec.version))
    ensures SharedInv(cfg, sh')
  {
    var e' := WithCalls(sh.exec, SetStatus(sh.exec.batch.value.calls, id, Ready));
    InFlightIsReady(cfg, sh, w, id);
    StatusRewrites(cfg, sh.log, sh.exec, id, Ready, e', sh.hist, sh'.hist);
    InFlightUnclaimed(sh.exec, sh.hist, id);
    RetryHistories(cfg, sh, id, e', sh');
    hide *;
    RewriteKeeps(cfg, sh, e', sh'.hist, sh');
  }

  /** Moving one call of a ready batch between Ready and InFlight. */
  lemma StatusRewrites(cfg: Config, log: seq<Message>, e: Record, id: string, status: CallStatus, e': Record,
                       h: History, h': History)
    requires RecordOk(cfg, log, e, h) && e.batch.Some? && e.batch.value.useLastSequence > 0 &&
      (status.Ready? || status.InFlight?)
    requires e' == WithCalls(e, SetStatus(e.batch.value.calls, id, status)) && h'.allowed == h.allowed
    ensures Rewrites(cfg, log, e, e', h')
  {
    ReadyIndexed(cfg, log, e, h);
    hide RecordOk;
  }

  lemma RetryHistories(cfg: Config, sh: Shared, id: string, e': Record, sh': Shared)
    requires sh.exec.batch.Some? && GrantsOk(sh.exec, sh.hist) && ClaimsOk(sh.exec, sh.hist) &&
      StartsOk(cfg, sh.exec, sh.hist)
    requires e' == WithCalls(sh.exec, SetStatus(sh.exec.batch.value.calls, id, Ready)) && id !in sh.hist.claimed
    requires sh' == Saved(sh, e', RetryHistory(sh.hist, id, sh.exec.version))
    ensures SavesHistory(cfg, sh, e', sh')
  {
    hide GrantsOk, ClaimsOk;
    RetryGrants(sh.exec, e', sh.hist, sh'.hist, id);
    ClaimsCarry(sh.exec, e', sh.hist, sh'.hist);
  }

  /** Without a resolution in progress, no in-flight call is claimed. */
  lemma InFlightUnclaimed(e: Record, h: History, id: string)
    requires ClaimsOk(e, h) && e.batch.Some? && e.batch.value.resolution.None?
    requires FindCall(e.batch.value.calls, id).Some? && !FindCall(e.batch.value.calls, id).value.status.Completed?
    ensures id !in h.claimed
  {
  }

  lemma RetryGrants(e: Record, e': Record, h: History, h': History, id: string)
    requires GrantsOk(e, h) && e.batch.Some? && e' == WithCalls(e, SetStatus(e.batch.value.calls, id, Ready))
    requires h'.planned == h.planned && h'.unsafe == h.unsafe && h'.grants == h.grants &&
      h'.retries == h.retries + multiset{id}
    ensures GrantsOk(e', h')
  {
    var calls, calls' := e.batch.value.calls, e'.batch.value.calls;
    forall c | c in calls'
      ensures (c.callId in h'.unsafe <==> !c.replaySafe) &&
        (!c.replaySafe && (c.status.Planned? || c.status.Ready?) ==> h'.grants[c.callId] <= h'.retries[c.callId])
    {
      var i :| 0 <= i < |calls'| && calls'[i] == c;
      assert calls[i] in calls;
    }
  }

  lemma InFlightIsReady(cfg: Config, sh: Shared, w: Worker, id: string)
    requires RecordOk(cfg, sh.log, w.exec, sh.hist) && InFlightTarget(w, id)
    ensures w.exec.batch.value.useLastSequence > 0 && ReadyFacts(cfg, sh.log, w.exec.batch.value, sh.hist)
    ensures id in CallIds(w.exec.batch.value.calls) && id in sh.hist.readied
    ensures forall i | 0 <= i < |w.exec.batch.value.calls| && w.exec.batch.value.calls[i].callId == id ::
      w.exec.batch.value.calls[i].status.InFlight?
  {
    var c := FindCall(w.exec.batch.value.calls, id).value;
    assert c in w.exec.batch.value.calls;
    forall i | 0 <= i < |w.exec.batch.value.calls| && w.exec.batch.value.calls[i].callId == id
      ensures w.exec.batch.value.calls[i] == c
    {
      UniqueCall(w.exec.batch.value.calls, c, w.exec.batch.value.calls[i]);
    }
  }

  /** A saved success or failure claim takes the call out of every later start. */
  lemma ResolveShared(cfg: Config, sh: Shared, w: Worker, claim: Claim, sh': Shared)
    requires SharedInv(cfg, sh) && w.exec == sh.exec && InFlightTarget(w, claim.callId)
    requires sh' == Saved(sh, sh.exec.(batch := Some(sh.exec.batch.value.(resolution := Some(claim)))),
                          ResolveHistory(sh.hist, claim.callId, sh.exec.version))
    ensures SharedInv(cfg, sh')
  {
    var e' := sh.exec.(batch := Some(sh.exec.batch.value.(resolution := Some(claim))));
    InFlightIsReady(cfg, sh, w, claim.callId);
    ResolveRewrites(cfg, sh.log, sh.exec, claim, e', sh.hist, sh'.hist);
    ResolveHistories(cfg, sh, claim, e', sh');
    hide *;
    RewriteKeeps(cfg, sh, e', sh'.hist, sh');
  }

  lemma ResolveRewrites(cfg: Config, log: seq<Message>, e: Record, claim: Claim, e': Record, h: History, h': History)
    requires RecordOk(cfg, log, e, h) && e.batch.Some? && e.batch.value.useLastSequence > 0
    requires claim.callId in CallIds(e.batch.value.calls)
    requires e' == e.(batch := Some(e.batch.value.(resolution := Some(claim)))) && h'.allowed == h.allowed
    ensures Rewrites(cfg, log, e, e', h')
  {
    ReadyIndexed(cfg, log, e, h);
    hide RecordOk;
  }

  lemma ResolveHistories(cfg: Config, sh: Shared, claim: Claim, e': Record, sh': Shared)
    requires GrantsOk(sh.exec, sh.hist) && ClaimsOk(sh.exec, sh.hist) && StartsOk(cfg, sh.exec, sh.hist)
    requires sh.exec.batch.Some? && sh.exec.batch.value.resolution.None? && claim.callId in sh.hist.readied
    requires e' == sh.exec.(batch := Some(sh.exec.batch.value.(resolution := Some(claim))))
    requires sh' == Saved(sh, e', ResolveHistory(sh.hist, claim.callId, sh.exec.version))
    requires forall i | 0 <= i < |sh.exec.batch.value.calls| && sh.exec.batch.value.calls[i].callId == claim.callId ::
      sh.exec.batch.value.calls[i].status.InFlight?
    ensures SavesHistory(cfg, sh, e', sh')
  {
    GrantsCarry(sh.exec, e', sh.hist, sh'.hist);
    ResolveClaims(sh.exec, claim, e', sh.hist, sh'.hist);
  }

  lemma ResolveClaims(e: Record, claim: Claim, e': Record, h: History, h': History)
    requires ClaimsOk(e, h) && e.batch.Some? && e.batch.value.resolution.None? && claim.callId in h.readied
    requires e' == e.(batch := Some(e.batch.value.(resolution := Some(claim))))
    requires h' == ResolveHistory(h, claim.callId, e.version)
    requires forall i | 0 <= i < |e.batch.value.calls| && e.batch.value.calls[i].callId == claim.callId ::
      e.batch.value.calls[i].status.InFlight?
    ensures ClaimsOk(e', h')
  {
    var calls := e.batch.value.calls;
    forall c | c in calls && c.callId in h'.claimed
      ensures c.status.Completed? || (c.status.InFlight? && c.callId == claim.callId)
    {
      var i :| 0 <= i < |calls| && calls[i] == c;
    }
  }
}
