/**
 Appends to the conversation log keep the protocol invariant.

 A log may be extended by other writers, by text, by the announcement of a planned batch and by answers to ready
 calls. No call is announced twice and none is answered twice.
 */
module ProtocolAppends {
  import opened Messages
  import opened Execution
  import opened ToolBatch
  import opened Protocol
  import opened ProtocolInvariant

  /** An append is harmless when it repeats no tool use and answers only ready, unanswered calls. */
  lemma AppendKeeps(cfg: Config, sh: Shared, delta: seq<Message>, sh': Shared)
    requires SharedInv(cfg, sh) && delta != []
    requires sh' == sh.(log := sh.log + delta, revision := sh.revision + 1)
    requires forall id | cfg.own(id) :: UseCount(cfg, sh.log, id) + multiset(UseIds(delta))[id] <= 1
    requires forall id | cfg.own(id) :: ResultCount(cfg, sh.log, id) + multiset(ResultIds(delta))[id] <= 1
    requires forall id | cfg.own(id) && id in ResultIds(delta) :: id in sh.hist.readied
    ensures SharedInv(cfg, sh') && Extends(sh, sh')
  {
    var h := sh.hist;
    assert sh'.log[cfg.start..] == sh.log[cfg.start..] + delta;
    UseIdsConcat(sh.log[cfg.start..], delta);
    ResultIdsConcat(sh.log[cfg.start..], delta);
    assert forall id :: UseCount(cfg, sh'.log, id) == UseCount(cfg, sh.log, id) + multiset(UseIds(delta))[id];
    assert forall id :: ResultCount(cfg, sh'.log, id) == ResultCount(cfg, sh.log, id) + multiset(ResultIds(delta))[id];
    assert LogOk(cfg, sh'.log, h);
    RecordOkStable(cfg, sh, sh', sh.exec);
  }

  lemma {:induction false} NoOwnIds(cfg: Config, ms: seq<Message>)
    requires forall m | m in ms :: ForeignMessage(cfg, m)
    ensures forall id | id in UseIds(ms) || id in ResultIds(ms) :: !cfg.own(id)
  {
    if ms != [] {
      NoOwnIds(cfg, ms[1..]);
      assert ms == [ms[0]] + ms[1..];
      UseIdsConcat([ms[0]], ms[1..]);
      ResultIdsConcat([ms[0]], ms[1..]);
      SingleBlocks(ms[0]);
      assert ForeignMessage(cfg, ms[0]);
      forall id | id in UseIds([ms[0]]) || id in ResultIds([ms[0]]) ensures !cfg.own(id) {
        UsesOfMember(ms[0].content, id);
        ResultsOfMember(ms[0].content, id);
      }
    }
  }

  lemma SingleBlocks(m: Message)
    ensures Blocks([m]) == m.content
  {
    assert Blocks([m]) == m.content + Blocks([]);
  }

  /** Appends without tool blocks of this execution: other writers, user turns and assistant text. */
  lemma ForeignAppendKeeps(cfg: Config, sh: Shared, ms: seq<Message>, sh': Shared)
    requires SharedInv(cfg, sh) && ms != [] && forall m | m in ms :: ForeignMessage(cfg, m)
    requires sh' == sh.(log := sh.log + ms, revision := sh.revision + 1)
    ensures SharedInv(cfg, sh') && Extends(sh, sh')
  {
    NoOwnIds(cfg, ms);
    forall id | cfg.own(id) ensures multiset(UseIds(ms))[id] == 0 && multiset(ResultIds(ms))[id] == 0 {
      CountMember(UseIds(ms), id);
      CountMember(ResultIds(ms), id);
    }
    AppendKeeps(cfg, sh, ms, sh');
  }

  lemma {:induction false} DistinctCount(s: seq<string>, id: string)
    requires NoDuplicates(s)
    ensures multiset(s)[id] <= 1
  {
    if s != [] {
      assert s == [s[0]] + s[1..];
      DistinctCount(s[1..], id);
      CountMember(s[1..], id);
    }
  }

  /** The tool uses of a planned batch are exactly its calls, once each. */
  lemma {:induction false} UsesOfCalls(calls: seq<ToolCall>, blocks: seq<Block>)
    requires |blocks| == |calls| && forall i | 0 <= i < |calls| :: blocks[i].ToolUse? && blocks[i].id == calls[i].callId
    ensures UsesOf(blocks) == seq(|calls|, i requires 0 <= i < |calls| => calls[i].callId)
    ensures ResultsOf(blocks) == []
  {
    if calls != [] {
      UsesOfCalls(calls[1..], blocks[1..]);
      assert UsesOf(blocks) == [calls[0].callId] + UsesOf(blocks[1..]);
    }
  }

  lemma UseMessageIds(calls: seq<ToolCall>)
    ensures UseIds([UseMessage(calls)]) == seq(|calls|, i requires 0 <= i < |calls| => calls[i].callId)
    ensures ResultIds([UseMessage(calls)]) == []
  {
    SingleBlocks(UseMessage(calls));
    UsesOfCalls(calls, UseMessage(calls).content);
  }

  /** First append of the ToolUse message of a planned batch. */
  lemma UseAppendKeeps(cfg: Config, sh: Shared, calls: seq<ToolCall>, sh': Shared)
    requires SharedInv(cfg, sh) && DistinctIds(calls)
    requires forall c | c in calls :: c.callId !in UseIds(sh.log[cfg.start..])
    requires sh' == sh.(log := sh.log + [UseMessage(calls)], revision := sh.revision + 1)
    ensures SharedInv(cfg, sh') && Extends(sh, sh')
  {
    var delta := [UseMessage(calls)];
    var ids := UseIds(delta);
    UseMessageIds(calls);
    assert NoDuplicates(ids);
    forall id | cfg.own(id) ensures UseCount(cfg, sh.log, id) + multiset(ids)[id] <= 1 {
      DistinctCount(ids, id);
      CountMember(ids, id);
      if id in ids {
        var i :| 0 <= i < |calls| && calls[i].callId == id;
        assert calls[i] in calls;
        CountMember(UseIds(sh.log[cfg.start..]), id);
      }
    }
    AppendKeeps(cfg, sh, delta, sh');
  }

  lemma {:induction false} ResultsHaveNoUses(blocks: seq<Block>)
    requires forall x | x in blocks :: x.ToolResult?
    ensures UsesOf(blocks) == []
  {
    if blocks != [] {
      assert blocks[0] in blocks;
      ResultsHaveNoUses(blocks[1..]);
    }
  }

  /** First answers to ready calls, each at most once. */
  lemma ResultAppendKeeps(cfg: Config, sh: Shared, blocks: seq<Block>, sh': Shared)
    requires SharedInv(cfg, sh) && (forall x | x in blocks :: x.ToolResult?) && NoDuplicates(ResultsOf(blocks))
    requires forall id | id in ResultsOf(blocks) :: id in sh.hist.readied && id !in ResultIds(sh.log[cfg.start..])
    requires sh' == sh.(log := sh.log + [ResultMsg(blocks)], revision := sh.revision + 1)
    ensures SharedInv(cfg, sh') && Extends(sh, sh')
  {
    var delta := [ResultMsg(blocks)];
    SingleBlocks(ResultMsg(blocks));
    ResultsHaveNoUses(blocks);
    forall id | cfg.own(id) ensures ResultCount(cfg, sh.log, id) + multiset(ResultIds(delta))[id] <= 1 {
      DistinctCount(ResultsOf(blocks), id);
      CountMember(ResultsOf(blocks), id);
      CountMember(ResultIds(sh.log[cfg.start..]), id);
    }
    AppendKeeps(cfg, sh, delta, sh');
  }

  /** A call unseen by a worker whose revision is current has no canonical result at all. */
  lemma UnseenIsUnanswered(cfg: Config, sh: Shared, w: Worker, id: string)
    requires SharedInv(cfg, sh) && RecordOk(cfg, sh.log, w.exec, sh.hist) && w.exec.batch.Some?
    requires 0 < w.exec.batch.value.useLastSequence <= w.lastSequence == |sh.log|
    requires id in CallIds(w.exec.batch.value.calls) && id !in Seen(sh, w)
    ensures id in sh.hist.readied && id !in ResultIds(sh.log[cfg.start..])
  {
    var u := w.exec.batch.value.useLastSequence;
    ResultIdsSplit(sh.log, cfg.start, u, |sh.log|);
    assert sh.log[cfg.start..|sh.log|] == sh.log[cfg.start..];
    var c :| c in w.exec.batch.value.calls && c.callId == id;
  }

  /** After an acknowledged append the worker's copy is the whole log again. */
  lemma AppendCopy(cfg: Config, sh: Shared, w: Worker, sh': Shared, w': Worker)
    requires LogCopy(cfg, sh, w) && w.revision == sh.revision && w.persistedCount < |w.messages|
    requires sh' == sh.(log := sh.log + w.messages[w.persistedCount..], revision := sh.revision + 1)
    requires w'.base == w.base && w'.messages == w.messages && w'.persistedCount == |w.messages|
    requires w'.revision == sh'.revision && w'.lastSequence == |sh'.log|
    ensures LogCopy(cfg, sh', w')
    ensures sh'.log[w.lastSequence..] == w.messages[w.persistedCount..]
  {
    assert sh'.log[w.base..] == sh.log[w.base..] + w.messages[w.persistedCount..];
    assert sh.log[w.base..] == sh.log[w.base..w.lastSequence];
    assert w.messages == w.messages[..w.persistedCount] + w.messages[w.persistedCount..];
    assert sh'.log[w.base..w'.lastSequence] == sh'.log[w.base..];
  }

  // ---- One lemma per place that appends -----------------------------------------------

  lemma LoopAppend(cfg: Config, sh: Shared, w: Worker, sh': Shared)
    requires SharedInv(cfg, sh) && WorkerInv(cfg, sh, w) && w.pc.Loop? && w.persistedCount < |w.messages| &&
      w.revision == sh.revision
    requires sh' == sh.(log := sh.log + w.messages[w.persistedCount..], revision := sh.revision + 1)
    ensures SharedInv(cfg, sh') && Extends(sh, sh')
    ensures WorkerInv(cfg, sh', AfterAppend(w, sh'.revision, |sh'.log|))
  {
    var delta := w.messages[w.persistedCount..];
    forall m | m in delta ensures ForeignMessage(cfg, m) {
      assert NoToolBlocks(m);
    }
    ForeignAppendKeeps(cfg, sh, delta, sh');
    RecordOkStable(cfg, sh, sh', w.exec);
    AppendCopy(cfg, sh, w, sh', AfterAppend(w, sh'.revision, |sh'.log|));
  }

  lemma UseAppend(cfg: Config, sh: Shared, w: Worker, sh': Shared)
    requires SharedInv(cfg, sh) && WorkerInv(cfg, sh, w) && w.pc.AppendUse? && w.revision == sh.revision
    requires sh' == sh.(log := sh.log + w.messages[w.persistedCount..], revision := sh.revision + 1)
    ensures SharedInv(cfg, sh') && Extends(sh, sh')
    ensures WorkerInv(cfg, sh', AfterAppend(w, sh'.revision, |sh'.log|))
  {
    var calls := w.exec.batch.value.calls;
    assert w.messages[w.persistedCount..] == [UseMessage(calls)];
    assert sh.log[cfg.start..w.lastSequence] == sh.log[cfg.start..];
    UseAppendKeeps(cfg, sh, calls, sh');
    RecordOkStable(cfg, sh, sh', w.exec);
    var w' := AfterAppend(w, sh'.revision, |sh'.log|);
    AppendCopy(cfg, sh, w, sh', w');
    PlannedUseMatches(cfg, sh, w.exec);
    assert w'.messages[|w.messages|..] == [];
  }

  lemma PlannedUseMatches(cfg: Config, sh: Shared, e: Record)
    requires RecordOk(cfg, sh.log, e, sh.hist) && e.batch.Some? && AllPlanned(e.batch.value.calls)
    ensures UseMatches(cfg.hash, UseMessage(e.batch.value.calls), e.batch.value.calls)
    ensures PlannedFacts(cfg, sh.log, e.lastSequence, e.batch.value)
  {
    var calls := e.batch.value.calls;
    assert calls[0] in calls;
    forall i | 0 <= i < |calls| ensures cfg.hash(UseMessage(calls).content[i].input) == Some(calls[i].inputHash) {
      assert calls[i] in calls;
    }
  }

  lemma CommitAppendShared(cfg: Config, sh: Shared, w: Worker, sh': Shared)
    requires SharedInv(cfg, sh) && WorkerInv(cfg, sh, w) && w.pc.CommitAppend? && w.revision == sh.revision
    requires sh' == sh.(log := sh.log + w.messages[w.persistedCount..], revision := sh.revision + 1)
    ensures SharedInv(cfg, sh') && Extends(sh, sh')
  {
    hide SharedInv, RecordOk;
    var blocks := w.messages[w.persistedCount].content;
    assert w.messages[w.persistedCount..] == [ResultMsg(blocks)];
    forall id | id in ResultsOf(blocks) ensures id in sh.hist.readied && id !in ResultIds(sh.log[cfg.start..]) {
      UnseenIsUnanswered(cfg, sh, w, id);
    }
    ResultAppendKeeps(cfg, sh, blocks, sh');
  }

  lemma CommitAppendWorker(cfg: Config, sh: Shared, w: Worker, sh': Shared)
    requires WorkerInv(cfg, sh, w) && w.pc.CommitAppend? && w.revision == sh.revision && Extends(sh, sh')
    requires sh' == sh.(log := sh.log + w.messages[w.persistedCount..], revision := sh.revision + 1)
    ensures WorkerInv(cfg, sh', AfterAppend(w, sh'.revision, |sh'.log|))
  {
    var blocks := w.messages[w.persistedCount].content;
    assert w.messages[w.persistedCount..] == [ResultMsg(blocks)];
    RecordOkStable(cfg, sh, sh', w.exec);
    AppendCopy(cfg, sh, w, sh', AfterAppend(w, sh'.revision, |sh'.log|));
    ResultIdsSplit(sh'.log, w.exec.batch.value.useLastSequence, w.lastSequence, |sh'.log|);
    assert sh'.log[w.lastSequence..|sh'.log|] == [ResultMsg(blocks)];
    SingleBlocks(ResultMsg(blocks));
  }

  lemma ClaimAppendShared(cfg: Config, sh: Shared, w: Worker, sh': Shared)
    requires SharedInv(cfg, sh) && WorkerInv(cfg, sh, w) && w.pc.ClaimAppend? && w.revision == sh.revision
    requires sh' == sh.(log := sh.log + w.messages[w.persistedCount..], revision := sh.revision + 1)
    ensures SharedInv(cfg, sh') && Extends(sh, sh')
  {
    hide SharedInv;
    var result := ClaimResult(w.pc.claim);
    var id := w.pc.claim.callId;
    assert w.messages[w.persistedCount..] == [ResultMsg([result])];
    assert ResultsOf([result]) == [id] + ResultsOf([]);
    UnseenIsUnanswered(cfg, sh, w, id);
    ResultAppendKeeps(cfg, sh, [result], sh');
  }

  /** The appended claim result confirms the claim. */
  lemma AppendedConfirms(log: seq<Message>, u: nat, last: nat, claim: Claim)
    requires u <= last == |log| - 1 && log[last] == ResultMsg([ClaimResult(claim)])
    ensures Confirmed(log[u..], claim)
  {
    assert log[u..] == log[u..last] + [log[last]];
    BlocksConcat(log[u..last], [log[last]]);
    SingleBlocks(log[last]);
    assert ClaimResult(claim) in Blocks(log[u..]);
    assert ConfirmsClaim(ClaimResult(claim), claim);
  }

  lemma ClaimAppended(cfg: Config, sh: Shared, w: Worker, sh': Shared, w': Worker)
    requires w.pc.ClaimAppend? && !w.kind.Invocation? && ClaimAppendOk(sh, w, w.pc.claim) && LogCopy(cfg, sh, w) &&
      w.revision == sh.revision
    requires sh' == sh.(log := sh.log + w.messages[w.persistedCount..], revision := sh.revision + 1)
    requires w' == AfterAppend(w, sh'.revision, |sh'.log|)
    ensures LogCopy(cfg, sh', w') && ClaimClearOk(sh', w', w.pc.claim) && w'.pc == ClaimClear(w.pc.claim)
  {
    hide Confirmed, ClaimResult;
    AppendCopy(cfg, sh, w, sh', w');
    var u := w.exec.batch.value.useLastSequence;
    assert sh'.log[w.lastSequence] == w.messages[w.persistedCount..][0];
    AppendedConfirms(sh'.log, u, w.lastSequence, w.pc.claim);
    assert sh'.log[u..w'.lastSequence] == sh'.log[u..];
  }

  lemma ClaimAppendWorker(cfg: Config, sh: Shared, w: Worker, sh': Shared)
    requires WorkerInv(cfg, sh, w) && w.pc.ClaimAppend? && w.revision == sh.revision && Extends(sh, sh')
    requires sh' == sh.(log := sh.log + w.messages[w.persistedCount..], revision := sh.revision + 1)
    ensures WorkerInv(cfg, sh', AfterAppend(w, sh'.revision, |sh'.log|))
  {
    RecordOkStable(cfg, sh, sh', w.exec);
    hide RecordOk, ClaimAppendOk, ClaimClearOk;
    ClaimAppended(cfg, sh, w, sh', AfterAppend(w, sh'.revision, |sh'.log|));
  }

  /** Every append the protocol makes keeps the shared invariant and the appender's own. */
  lemma AppendKept(cfg: Config, sh: Shared, w: Worker, sh': Shared)
    requires SharedInv(cfg, sh) && WorkerInv(cfg, sh, w) && w.revision == sh.revision && w.persistedCount < |w.messages|
    requires w.pc.Loop? || w.pc.AppendUse? || w.pc.CommitAppend? || w.pc.ClaimAppend?
    requires sh' == sh.(log := sh.log + w.messages[w.persistedCount..], revision := sh.revision + 1)
    ensures SharedInv(cfg, sh') && Extends(sh, sh')
    ensures WorkerInv(cfg, sh', AfterAppend(w, sh'.revision, |sh'.log|))
  {
    match w.pc
    case Loop => LoopAppend(cfg, sh, w, sh');
    case AppendUse => UseAppend(cfg, sh, w, sh');
    case CommitAppend(_, _) => CommitAppendShared(cfg, sh, w, sh'); CommitAppendWorker(cfg, sh, w, sh');
    case ClaimAppend(_) => ClaimAppendShared(cfg, sh, w, sh'); ClaimAppendWorker(cfg, sh, w, sh');
  }
}
