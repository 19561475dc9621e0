/** Boundary scans of the engine. */
module Engine {
  import opened Messages
  import opened Execution
  import opened ToolBatch
  import opened Protocol
  import opened Stores

  // ---- The active tool boundary -------------------------------------------------------------------

  /** Block-by-block comparison of one message with the batch, as both boundary searches make it. */
  method MatchesBatch(hash: string -> Option<string>, m: Message, calls: seq<ToolCall>) returns (match_: bool)
    ensures match_ <==> UseMatches(hash, m, calls)
    ensures match_ <==>
      m.role.Assistant? && |m.content| == |calls| &&
      forall i | 0 <= i < |calls| ::
        m.content[i].ToolUse? && m.content[i].id == calls[i].callId && m.content[i].name == calls[i].name &&
        hash(m.content[i].input) == Some(calls[i].inputHash)
  {
    if !m.role.Assistant? || |m.content| != |calls| {
      return false;
    }
    var j := 0;
    while j < |calls|
      invariant 0 <= j <= |calls|
      invariant forall k | 0 <= k < j ::
        m.content[k].ToolUse? && m.content[k].id == calls[k].callId && m.content[k].name == calls[k].name &&
        hash(m.content[k].input) == Some(calls[k].inputHash)
    {
      var use, call := m.content[j], calls[j];
      if !use.ToolUse? {
        return false;
      }
      if hash(use.input).None? || use.id != call.callId || use.name != call.name ||
        hash(use.input).value != call.inputHash {
        return false;
      }
      j := j + 1;
    }
    match_ := true;
  }

  method CollectSeen(calls: seq<ToolCall>) returns (distinct: bool, seen: set<string>)
    ensures distinct <==> DistinctIds(calls)
    ensures distinct ==> seen == CallIds(calls)
  {
    seen := {};
    var i := 0;
    while i < |calls|
      invariant 0 <= i <= |calls| && DistinctIds(calls[..i]) && seen == CallIds(calls[..i])
    {
      assert calls[..i + 1] == calls[..i] + [calls[i]];
      assert forall c :: c in calls[..i + 1] <==> c in calls[..i] || c == calls[i];
      if calls[i].callId in seen {
        var c :| c in calls[..i] && c.callId == calls[i].callId;
        return false, {};
      }
      forall k | 0 <= k < i ensures calls[k].callId != calls[i].callId {
        assert calls[..i][k] in calls[..i];
      }
      seen := seen + {calls[i].callId};
      i := i + 1;
    }
    assert calls[..i] == calls;
    distinct := true;
  }

  ghost predicate GoodAnswers(blocks: seq<Block>, known: set<string>) {
    (forall x | x in blocks :: x.ToolResult? && x.id in known) && NoDuplicates(ResultsOf(blocks))
  }

  /** Results of one answer message, refusing unknown and repeated calls. */
  method CollectResults(blocks: seq<Block>, known: set<string>, before: set<string>)
    returns (ok: bool, results: set<string>)
    requires forall x | x in blocks :: x.ToolResult?
    ensures ok <==> GoodAnswers(blocks, known) && IdSet(ResultsOf(blocks)) !! before
    ensures ok ==> results == before + IdSet(ResultsOf(blocks))
  {
    results := before;
    var i := 0;
    while i < |blocks|
      invariant 0 <= i <= |blocks|
      invariant GoodAnswers(blocks[..i], known) && IdSet(ResultsOf(blocks[..i])) !! before
      invariant results == before + IdSet(ResultsOf(blocks[..i]))
    {
      var id := blocks[i].id;
      NextResult(blocks, i);
      if id !in known || id in results {
        if id !in known { assert blocks[i] in blocks; }
        else if id in before { assert id in IdSet(ResultsOf(blocks)); }
        else { assert id in ResultsOf(blocks[..i]); RepeatedResult(blocks, i); }
        return false, {};
      }
      results := results + {id};
      i := i + 1;
    }
    assert blocks[..i] == blocks;
    ok := true;
  }

  lemma NextResult(blocks: seq<Block>, i: nat)
    requires i < |blocks| && blocks[i].ToolResult?
    ensures ResultsOf(blocks[..i + 1]) == ResultsOf(blocks[..i]) + [blocks[i].id]
    ensures blocks[i].id in ResultsOf(blocks)
  {
    assert blocks[..i + 1] == blocks[..i] + [blocks[i]];
    ResultsOfConcat(blocks[..i], [blocks[i]]);
    assert ResultsOf([blocks[i]]) == [blocks[i].id] + ResultsOf([]);
    ResultsOfMember(blocks, blocks[i].id);
  }

  lemma RepeatedResult(blocks: seq<Block>, i: nat)
    requires i < |blocks| && blocks[i].ToolResult? && blocks[i].id in ResultsOf(blocks[..i])
    ensures !NoDuplicates(ResultsOf(blocks))
  {
    NextResult(blocks, i);
    assert blocks == blocks[..i + 1] + blocks[i + 1..];
    ResultsOfConcat(blocks[..i + 1], blocks[i + 1..]);
    var r := ResultsOf(blocks);
    var n := |ResultsOf(blocks[..i])|;
    var k :| 0 <= k < n && ResultsOf(blocks[..i])[k] == blocks[i].id;
    assert r[k] == ResultsOf(blocks[..i + 1])[k] == r[n];
  }

  /**
   activeToolBatch: the first message requests exactly the batch and everything after it only answers it, once
   each. A wrong first message is unsupported; a foreign or repeated answer is a conversation conflict.
   */
  method ActiveToolBatch(hash: string -> Option<string>, ms: seq<Message>, calls: seq<ToolCall>)
    returns (r: Result<set<string>>)
    ensures r.Ok? <==> ActiveBatch(hash, ms, calls)
    ensures r.Ok? ==> r.value == IdSet(ResultIds(ms[1..]))
    ensures r == Err(RecoveryUnsupported) <==> |ms| == 0 || !UseMatches(hash, ms[0], calls) || !DistinctIds(calls)
    ensures r.Err? ==> r.error == RecoveryUnsupported || r.error == ConversationConflict
  {
    if |ms| == 0 {
      return Err(RecoveryUnsupported);
    }
    var matches := MatchesBatch(hash, ms[0], calls);
    if !matches {
      return Err(RecoveryUnsupported);
    }
    var distinct, seen := CollectSeen(calls);
    if !distinct {
      return Err(RecoveryUnsupported);
    }
    var rest := ms[1..];
    var results: set<string> := {};
    var i := 0;
    while i < |rest|
      invariant 0 <= i <= |rest|
      invariant AnswersOnly(rest[..i], calls) && NoDuplicates(ResultIds(rest[..i]))
      invariant results == IdSet(ResultIds(rest[..i]))
    {
      var m := rest[i];
      NextAnswer(rest, i);
      if !m.role.User? || !OnlyToolResults(m.content) {
        assert m in rest;
        return Err(ConversationConflict);
      }
      var ok, more := CollectResults(m.content, seen, results);
      AnswerAccepted(rest, i, calls);
      if !ok {
        return Err(ConversationConflict);
      }
      results := more;
      i := i + 1;
    }
    assert rest[..i] == rest;
    r := Ok(results);
  }

  lemma NextAnswer(rest: seq<Message>, i: nat)
    requires i < |rest|
    ensures ResultIds(rest[..i + 1]) == ResultIds(rest[..i]) + ResultsOf(rest[i].content)
    ensures ResultIds(rest) == ResultIds(rest[..i + 1]) + ResultIds(rest[i + 1..])
    ensures rest[i] in rest
  {
    assert rest[..i + 1] == rest[..i] + [rest[i]];
    ResultIdsConcat(rest[..i], [rest[i]]);
    assert Blocks([rest[i]]) == rest[i].content + Blocks([]) == rest[i].content;
    assert rest == rest[..i + 1] + rest[i + 1..];
    ResultIdsConcat(rest[..i + 1], rest[i + 1..]);
  }

  lemma NoDuplicatesConcat(a: seq<string>, b: seq<string>)
    ensures NoDuplicates(a + b) <==> NoDuplicates(a) && NoDuplicates(b) && IdSet(a) !! IdSet(b)
  {
    var s := a + b;
    if NoDuplicates(s) {
      assert forall i | 0 <= i < |a| :: a[i] == s[i];
      assert forall i | 0 <= i < |b| :: b[i] == s[|a| + i];
    }
    if NoDuplicates(a) && NoDuplicates(b) && IdSet(a) !! IdSet(b) {
      forall i, j | 0 <= i < j < |s| ensures s[i] != s[j] {
        if i < |a| <= j {
          assert a[i] in IdSet(a) && b[j - |a|] in IdSet(b);
        }
      }
    }
  }

  /** One more answer message is acceptable exactly when its results are known, new and not repeated. */
  lemma AnswerAccepted(rest: seq<Message>, i: nat, calls: seq<ToolCall>)
    requires i < |rest| && ResultMessage(rest[i]) && AnswersOnly(rest[..i], calls) && NoDuplicates(ResultIds(rest[..i]))
    ensures (GoodAnswers(rest[i].content, CallIds(calls)) &&
             IdSet(ResultsOf(rest[i].content)) !! IdSet(ResultIds(rest[..i]))) <==>
      AnswersOnly(rest[..i + 1], calls) && NoDuplicates(ResultIds(rest[..i + 1]))
    ensures AnswersOnly(rest, calls) && NoDuplicates(ResultIds(rest)) ==>
      AnswersOnly(rest[..i + 1], calls) && NoDuplicates(ResultIds(rest[..i + 1]))
    ensures IdSet(ResultIds(rest[..i + 1])) == IdSet(ResultIds(rest[..i])) + IdSet(ResultsOf(rest[i].content))
  {
    NextAnswer(rest, i);
    NoDuplicatesConcat(ResultIds(rest[..i]), ResultsOf(rest[i].content));
    NoDuplicatesConcat(ResultIds(rest[..i + 1]), ResultIds(rest[i + 1..]));
    assert rest[..i + 1] == rest[..i] + [rest[i]];
    assert forall m :: m in rest[..i + 1] <==> m in rest[..i] || m == rest[i];
    assert forall m | m in rest[..i + 1] :: m in rest;
    assert AnswersOnly([rest[i]], calls) <==> forall x | x in rest[i].content :: x.id in CallIds(calls);
  }

  /** activeToolBatchFromMessages: search backwards for the last message that requests the batch. */
  method ActiveToolBatchFromMessages(cfg: Config, ms: seq<Message>, calls: seq<ToolCall>)
    returns (r: Result<set<string>>, index: nat)
    ensures r.Ok? <==> exists i: nat :: LastMatch(cfg, ms, calls, i) && ActiveBatch(cfg.hash, ms[i..], calls)
    ensures r.Ok? ==>
      LastMatch(cfg, ms, calls, index) && ActiveBatch(cfg.hash, ms[index..], calls) &&
      r.value == IdSet(ResultIds(ms[index + 1..]))
  {
    var i := |ms|;
    while i > 0
      invariant 0 <= i <= |ms|
      invariant forall j | i <= j < |ms| :: !UseMatches(cfg.hash, ms[j], calls)
    {
      i := i - 1;
      var matches := MatchesBatch(cfg.hash, ms[i], calls);
      if matches {
        assert LastMatch(cfg, ms, calls, i);
        assert forall k: nat | LastMatch(cfg, ms, calls, k) :: k == i;
        assert ms[i..][1..] == ms[i + 1..];
        r := ActiveToolBatch(cfg.hash, ms[i..], calls);
        return r, i;
      }
    }
    r, index := Err(RecoveryUnsupported), 0;
  }

  // ---- Outcomes of a dispatched batch ----------------------------------------------------------------

  /** resultBlocks: only definitive outcomes leave a result, in call order. */
  method ResultBlocks(outcomes: seq<Outcome>) returns (blocks: seq<Block>)
    ensures blocks == DefinitiveBlocks(outcomes)
    ensures exists at: seq<nat> :: ResultsAt(outcomes, blocks, at)
  {
    blocks := [];
    ghost var at: seq<nat> := [];
    var i := 0;
    while i < |outcomes|
      invariant 0 <= i <= |outcomes| && DefinitiveBlocks(outcomes) == blocks + DefinitiveBlocks(outcomes[i..])
      invariant ResultsAt(outcomes[..i], blocks, at)
    {
      assert outcomes[i..][1..] == outcomes[i + 1..] && outcomes[..i + 1] == outcomes[..i] + [outcomes[i]];
      if outcomes[i].Definitive? {
        blocks := blocks + [outcomes[i].result];
        at := at + [i];
      }
      i := i + 1;
    }
    assert outcomes[..i] == outcomes;
  }

  /** pendingInterrupt: a human-input request overrides pending approvals and answers them as not executed. */
  method PendingInterrupt(calls: seq<ToolCall>, outcomes: seq<Outcome>)
    returns (pause: Option<Pause>, out: seq<Outcome>)
    requires |calls| == |outcomes|
    ensures pause == Some(HumanPause) <==> exists o | o in outcomes :: o.Definitive? && o.human
    ensures pause == Some(HumanPause) ==> out == Converted(calls, outcomes)
    ensures pause != Some(HumanPause) ==> out == outcomes
    ensures pause != Some(HumanPause) ==>
      pause == if PendingIds(calls, outcomes) == [] then None else Some(ApprovalPause(PendingIds(calls, outcomes)))
    ensures pause == Some(HumanPause) ==>
      |out| == |outcomes| && forall i | 0 <= i < |outcomes| ::
        out[i] == if outcomes[i].PendingApproval?
                  then Definitive(ToolResult(calls[i].callId, NOT_EXECUTED, true, []), false) else outcomes[i]
    ensures pause.Some? && pause.value.ApprovalPause? ==>
      pause.value.calls != [] && exists at: seq<nat> :: PendingAt(calls, outcomes, pause.value.calls, at)
    ensures pause.None? ==> forall i | 0 <= i < |outcomes| :: !outcomes[i].PendingApproval?
  {
    var i := 0;
    while i < |outcomes|
      invariant 0 <= i <= |outcomes| && forall k | 0 <= k < i :: !(outcomes[k].Definitive? && outcomes[k].human)
    {
      if outcomes[i].Definitive? && outcomes[i].human {
        out := outcomes;
        var j := 0;
        while j < |outcomes|
          invariant 0 <= j <= |outcomes| == |out|
          invariant forall k | 0 <= k < |outcomes| ::
            out[k] == if k < j then Converted(calls, outcomes)[k] else outcomes[k]
        {
          if out[j].PendingApproval? {
            out := out[j := Definitive(ToolResult(calls[j].callId, NOT_EXECUTED, true, []), false)];
          }
          j := j + 1;
        }
        return Some(HumanPause), out;
      }
      i := i + 1;
    }
    out := outcomes;
    var pending := PendingCalls(calls, outcomes);
    pause := if |pending| == 0 then None else Some(ApprovalPause(pending));
  }

  lemma PendingStep(calls: seq<ToolCall>, outcomes: seq<Outcome>, i: nat)
    requires |calls| == |outcomes| && i < |calls|
    ensures PendingIds(calls[i..], outcomes[i..]) ==
      (if outcomes[i].PendingApproval? then [calls[i].callId] else []) + PendingIds(calls[i + 1..], outcomes[i + 1..])
  {
    assert outcomes[i..][1..] == outcomes[i + 1..] && calls[i..][1..] == calls[i + 1..];
  }

  lemma PendingGrows(calls: seq<ToolCall>, outcomes: seq<Outcome>, i: nat, pending: seq<string>, at: seq<nat>)
    requires |calls| == |outcomes| && i < |calls| && PendingAt(calls[..i], outcomes[..i], pending, at)
    ensures if outcomes[i].PendingApproval?
            then PendingAt(calls[..i + 1], outcomes[..i + 1], pending + [calls[i].callId], at + [i])
            else PendingAt(calls[..i + 1], outcomes[..i + 1], pending, at)
  {
    assert outcomes[..i + 1] == outcomes[..i] + [outcomes[i]] && calls[..i + 1] == calls[..i] + [calls[i]];
  }

  method PendingCalls(calls: seq<ToolCall>, outcomes: seq<Outcome>) returns (pending: seq<string>)
    requires |calls| == |outcomes|
    ensures pending == PendingIds(calls, outcomes)
    ensures exists at: seq<nat> :: PendingAt(calls, outcomes, pending, at)
  {
    pending := [];
    ghost var at: seq<nat> := [];
    var i := 0;
    while i < |outcomes|
      invariant 0 <= i <= |outcomes| && PendingIds(calls, outcomes) == pending + PendingIds(calls[i..], outcomes[i..])
      invariant PendingAt(calls[..i], outcomes[..i], pending, at)
    {
      PendingStep(calls, outcomes, i);
      PendingGrows(calls, outcomes, i, pending, at);
      hide PendingAt;
      if outcomes[i].PendingApproval? {
        pending := pending + [calls[i].callId];
        at := at + [i];
      }
      i := i + 1;
    }
    assert outcomes[..i] == outcomes && calls[..i] == calls;
    hide PendingAt;
  }
}
