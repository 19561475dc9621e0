/** One run of the engine. */
module EngineRun {
  import opened Messages
  import opened Execution
  import opened ToolBatch
  import opened Protocol
  import opened Stores
  import opened Engine

  /**
   The fields of a run and the store transitions that change them. Every record save has one shape (`Transition`):
   a rejected change or a lost compare-and-swap leaves the run and the store as they were; an accepted one moves
   the record and the run's copy together. The targets are exactly the records that the step system of module
   Protocol saves.
   */
  class Run {
    const store: ExecutionMemory
    const conversation: ConversationMemory
    const convId: string
    const recovering: bool
    const cfg: Config
    const replaySafe: string -> bool   // the registry's verdict by tool name
    var execution: Option<Record>
    var revision: nat
    var lastSequence: nat
    var persistedCount: nat

    constructor (store: ExecutionMemory, conversation: ConversationMemory, convId: string, recovering: bool,
                 cfg: Config,
                 replaySafe: string -> bool, execution: Option<Record>)
      ensures this.store == store && this.conversation == conversation && this.convId == convId &&
        this.recovering == recovering
      ensures this.cfg == cfg && this.replaySafe == replaySafe && this.execution == execution
      ensures revision == 0 && lastSequence == 0 && persistedCount == 0
    {
      this.store, this.conversation, this.convId, this.recovering := store, conversation, convId, recovering;
      this.cfg, this.replaySafe, this.execution := cfg, replaySafe, execution;
      revision, lastSequence, persistedCount := 0, 0, 0;
    }

    /** Plans never repeat a call ID, so neither does any record. */
    ghost predicate Valid()
      reads this, store, conversation
    {
      store.Valid() && conversation.Valid() &&
      (execution.Some? && execution.value.batch.Some? ==> DistinctIds(execution.value.batch.value.calls))
    }

    /** The run's copy is the record that the store holds now. */
    ghost predicate HoldsCurrent()
      reads this, store
    {
      execution.Some? && store.Current(execution.value.id).Some? &&
      store.Current(execution.value.id).value.version == execution.value.version <= MAX_VERSION
    }

    /** A save of `target` (None: the change itself was rejected) and what it did to the store and to the run. */
    twostate predicate Transition(target: Option<Record>, ok: bool)
      reads this, store
    {
      (ok <==> target.Some? && old(HoldsCurrent())) &&
      (ok ==> execution == Some(target.value.(version := old(execution).value.version + 1)) &&
              store.Current(target.value.id) == execution &&
              forall id | id != target.value.id :: store.Current(id) == old(store.Current(id))) &&
      (!ok ==> execution == old(execution) && forall id :: store.Current(id) == old(store.Current(id)))
    }

    /** persistExecution: compare-and-swap of a changed clone. */
    method Persist(next: Record) returns (r: Result<()>)
      requires Valid() && execution.Some? && next.id == execution.value.id && next.version == execution.value.version
      requires next.batch.Some? ==> DistinctIds(next.batch.value.calls)
      modifies this`execution, store
      ensures Valid() && Transition(Some(next), r.Ok?)
      ensures r.Err? ==> r.error == InvalidId || r.error == ExecutionConflict
    {
      var saved := store.Save(next, next.version);
      if saved.Err? {
        return Err(saved.error);
      }
      execution := Some(saved.value);
      r := Ok(());
    }

    // ---- Conversation ---------------------------------------------------------------------------

    /** saveConversation: append exactly the messages that the log does not own yet. */
    method SaveConversation(messages: seq<Message>) returns (r: Result<()>)
      requires Valid()
      modifies this`revision, this`lastSequence, this`persistedCount, conversation
      ensures Valid()
      ensures old(persistedCount) > |messages| ==> r == Err(HistoryRegressed)
      ensures old(persistedCount) == |messages| ==> r.Ok?
      ensures old(persistedCount) < |messages| ==> (r.Ok? <==> old(conversation.Revision(convId)) == old(revision))
      ensures r.Ok? ==>
        persistedCount == |messages| &&
        conversation.Log(convId) == old(conversation.Log(convId)) + messages[old(persistedCount)..]
      ensures r.Ok? && old(persistedCount) < |messages| ==>
        revision == old(revision) + 1 == conversation.Revision(convId) && lastSequence == |conversation.Log(convId)|
      ensures r.Err? || old(persistedCount) == |messages| ==>
        revision == old(revision) && lastSequence == old(lastSequence) && persistedCount == old(persistedCount) &&
        conversation.data == old(conversation.data)
      ensures forall id | id != convId :: conversation.Log(id) == old(conversation.Log(id))
    {
      if persistedCount > |messages| {
        return Err(HistoryRegressed);
      }
      var delta := messages[persistedCount..];
      if |delta| == 0 {
        return Ok(());
      }
      var cursor := conversation.Append(convId, delta, revision);
      if cursor.Err? {
        return Err(cursor.error);
      }
      revision := cursor.value.revision;
      lastSequence := cursor.value.lastSequence;
      persistedCount := |messages|;
      r := Ok(());
    }

    // ---- Planning ---------------------------------------------------------------------------------

    /** priorToolUses: every tool use since the execution's start cursor; fails on an input that cannot be hashed. */
    method PriorToolUses() returns (r: Result<map<string, (string, string)>>)
      requires Valid() && cfg.start <= |conversation.Log(convId)|
      ensures r.Ok? ==> r.value.Keys == IdSet(UseIds(conversation.Log(convId)[cfg.start..]))
      ensures r.Ok? <==>
        forall x | x in Blocks(conversation.Log(convId)[cfg.start..]) && x.ToolUse? :: cfg.hash(x.input).Some?
    {
      var snapshot := conversation.LoadAfter(convId, cfg.start);
      var ms := snapshot.messages;
      var blocks := Flatten(ms);
      var seen: map<string, (string, string)> := map[];
      var i := 0;
      while i < |blocks|
        invariant 0 <= i <= |blocks| && seen.Keys == IdSet(UsesOf(blocks[..i]))
        invariant forall x | x in blocks[..i] && x.ToolUse? :: cfg.hash(x.input).Some?
      {
        var use := blocks[i];
        hide UsesOf, Blocks;
        NextUse(blocks, i);
        assert forall x :: x in blocks[..i + 1] <==> x in blocks[..i] || x == use by {
          assert blocks[..i + 1] == blocks[..i] + [use];
        }
        if use.ToolUse? {
          var h := cfg.hash(use.input);
          if h.None? {
            assert use in blocks;
            return Err(BadCall(i));
          }
          seen := seen[use.id := (use.name, h.value)];
        }
        i := i + 1;
      }
      assert blocks[..i] == blocks;
      r := Ok(seen);
    }

    /** planToolBatch: the planned record carries the requests' identity, key, hash and input, or nothing is saved. */
    method PlanToolBatch(requests: seq<Request>) returns (r: Result<()>)
      requires Valid() && cfg.start <= |conversation.Log(convId)|
      requires forall q | q in requests :: q.replaySafe == replaySafe(q.name)
      modifies this`execution, store
      ensures Valid()
      ensures old(execution).None? || old(execution).value.batch.Some? ==> r == Err(RecoveryUnsupported)
      ensures old(execution).None? ==> execution.None?
      ensures old(execution).Some? ==>
        var e := old(execution).value;
        var log := conversation.Log(convId)[cfg.start..];
        Transition(
          if e.batch.None? && Plannable(cfg, log, requests)
          then Some(PlanBatch(cfg.hash, cfg.digest, requests, e, revision, lastSequence)) else None, r.Ok?)
      ensures r.Ok? ==>
        var e := old(execution).value;
        execution.Some? && execution.value.batch.Some? &&
        var b := execution.value.batch.value;
        execution.value == e.(revision := revision, lastSequence := lastSequence, phase := PhaseTools, batch := Some(b),
                              version := e.version + 1) &&
        b.useLastSequence == 0 && b.resolution.None? && |b.calls| == |requests| &&
        forall k | 0 <= k < |requests| :: Plans(cfg, e.id, requests[k], b.calls[k])
    {
      if execution.None? || execution.value.batch.Some? {
        return Err(RecoveryUnsupported);
      }
      var e := execution.value;
      ghost var log := conversation.Log(convId)[cfg.start..];
      var prior := PriorToolUses();
      if prior.Err? {
        return Err(prior.error);
      }
      var planned := PlannedCalls(cfg, e.id, requests, prior.value);
      assert planned.Ok? <==> Plannable(cfg, log, requests);
      if planned.Err? {
        return Err(planned.error);
      }
      var calls := planned.value;
      var next := e.(revision := revision, lastSequence := lastSequence, phase := PhaseTools,
                     batch := Some(Batch(calls, 0, 0, None)));
      r := Persist(next);
    }

    // ---- Transitions of the active batch ----------------------------------------------------------------

    /** markToolBatchReady: all calls move together, and only from Planned. */
    method MarkToolBatchReady() returns (r: Result<()>)
      requires Valid() && execution.Some?
      modifies this`execution, store
      ensures Valid()
      ensures var e := old(execution).value;
        Transition(if e.batch.None? || !AllPlanned(e.batch.value.calls) then None
                   else Some(MarkReady(e, revision, lastSequence)), r.Ok?)
      ensures r.Ok? <==>
        old(HoldsCurrent()) && old(execution).value.batch.Some? &&
        forall c | c in old(execution).value.batch.value.calls :: c.status.Planned?
      ensures r.Ok? ==> Readies(old(execution).value, execution, revision, lastSequence)
    {
      var e := execution.value;
      if e.batch.None? {
        return Err(RecoveryUnsupported);
      }
      var b := e.batch.value;
      var calls := b.calls;
      var i := 0;
      while i < |calls|
        invariant 0 <= i <= |calls| == |b.calls|
        invariant forall k | 0 <= k < |calls| :: calls[k] == if k < i then ReadyCalls(b.calls)[k] else b.calls[k]
        invariant forall k | 0 <= k < i :: b.calls[k].status.Planned?
      {
        if !calls[i].status.Planned? {
          assert b.calls[i] in b.calls;
          return Err(RecoveryUnsupported);
        }
        calls := calls[i := calls[i].(status := Ready, input := None)];
        i := i + 1;
      }
      assert calls == ReadyCalls(b.calls);
      r := Persist(e.(revision := revision, lastSequence := lastSequence,
                      batch := Some(b.(calls := calls, useRevision := revision, useLastSequence := lastSequence))));
    }

    /** beginToolExecution: the saved claim of one handler start, and the key it will carry. */
    method BeginToolExecution(callId: string) returns (r: Result<string>)
      requires Valid() && execution.Some?
      modifies this`execution, store
      ensures Valid()
      ensures var begun := BeginCall(old(execution).value, callId, recovering);
        Transition(if begun.Claimed? then Some(begun.r) else None, r.Ok?) &&
        (begun.Uncertain? <==> r.Err? && r.error.ToolUncertain?) &&
        (begun.Unsupported? ==> r == Err(RecoveryUnsupported))
      ensures r.Ok? <==> old(HoldsCurrent()) && exists i: nat ::
        FirstWith(old(execution).value, callId, i) &&
        var c := old(execution).value.batch.value.calls[i];
        c.status.Ready? || (c.status.InFlight? && recovering && c.replaySafe)
      ensures r.Ok? ==> exists i: nat ::
        FirstWith(old(execution).value, callId, i) &&
        var e := old(execution).value;
        var c := e.batch.value.calls[i];
        r.value == c.key && store.Current(e.id) == execution &&
        execution == Some(e.(batch := Some(e.batch.value.(calls := e.batch.value.calls[i := c.(status := InFlight)])),
                             version := e.version + 1))
      ensures r.Err? && r.error.ToolUncertain? <==> exists i: nat ::
        FirstWith(old(execution).value, callId, i) &&
        var c := old(execution).value.batch.value.calls[i];
        r == Err(ToolUncertain(callId, c.key)) && c.status.InFlight? && !(recovering && c.replaySafe)
    {
      var e := execution.value;
      if e.batch.None? {
        return Err(RecoveryUnsupported);
      }
      var calls := e.batch.value.calls;
      var i := 0;
      while i < |calls|
        invariant 0 <= i <= |calls| && forall k | 0 <= k < i :: calls[k].callId != callId
      {
        var call := calls[i];
        if call.callId == callId {
          FirstCall(calls, i);
          assert FirstWith(e, callId, i);
          var next := calls;
          if call.status.Ready? {
            next := calls[i := call.(status := InFlight)];
            assert next == SetStatus(calls, callId, InFlight);
          } else if call.status.InFlight? {
            if !(recovering && call.replaySafe) {
              return Err(ToolUncertain(callId, call.key));
            }
            assert calls[i := call.(status := InFlight)] == calls;
          } else {
            return Err(RecoveryUnsupported);
          }
          assert DistinctIds(next);
          var saved := Persist(e.(batch := Some(e.batch.value.(calls := next))));
          return if saved.Ok? then Ok(call.key) else Err(saved.error);
        }
        i := i + 1;
      }
      NoCall(calls, callId);
      r := Err(RecoveryUnsupported);
    }

    /** removeToolCalls: complete the given calls and clear the batch once all of it is completed. */
    method RemoveToolCalls(completed: set<string>) returns (r: Result<()>)
      requires Valid() && execution.Some?
      modifies this`execution, store
      ensures Valid()
      ensures Transition(Some(Acknowledge(old(execution).value, completed, revision, lastSequence)), r.Ok?)
      ensures r.Ok? ==> Acknowledges(old(execution).value, execution, completed, revision, lastSequence)
    {
      var e := execution.value.(revision := revision, lastSequence := lastSequence);
      if e.batch.Some? {
        var b := e.batch.value;
        var calls, all := CompletedCalls(b.calls, completed);
        e := if all then e.(batch := None, phase := PhaseModel) else e.(batch := Some(b.(calls := calls)));
      }
      r := Persist(e);
    }

    /** commitToolResults: results become canonical before any call is acknowledged. */
    method CommitToolResults(messages: seq<Message>, completed: set<string>) returns (r: Result<()>)
      requires Valid() && execution.Some?
      modifies this`execution, this`revision, this`lastSequence, this`persistedCount, store, conversation
      ensures Valid()
      ensures completed == {} ==> r.Ok? && execution == old(execution) && conversation.data == old(conversation.data)
      ensures completed != {} ==>
        (r.Ok? <==> old(HoldsCurrent()) && old(persistedCount) <= |messages| &&
                    (old(persistedCount) == |messages| || old(conversation.Revision(convId)) == old(revision)))
      ensures completed != {} && r.Ok? ==>
        conversation.Log(convId) == old(conversation.Log(convId)) + messages[old(persistedCount)..] &&
        persistedCount == |messages| && Acknowledges(old(execution).value, execution, completed, revision,
                                                     lastSequence) &&
        Transition(Some(Acknowledge(old(execution).value, completed, revision, lastSequence)), true)
      ensures r.Err? ==> execution == old(execution) && forall id :: store.Current(id) == old(store.Current(id))
    {
      if completed == {} {
        return Ok(());
      }
      var saved := SaveConversation(messages);
      if saved.Err? {
        assert execution == old(execution);
        return saved;
      }
      r := RemoveToolCalls(completed);
    }

    /** persistPendingPause: the pause is recorded before any result can clear the batch. */
    method PersistPendingPause(p: Pause) returns (r: Result<()>)
      requires Valid() && execution.Some?
      modifies this`execution, store
      ensures Valid() && Transition(Some(old(execution).value.(pendingPause := Some(p))), r.Ok?)
    {
      r := Persist(execution.value.(pendingPause := Some(p)));
    }

    /**
     The batch coordinator once every call has an outcome. A coordination failure changes nothing; an unknown
     outcome commits and acknowledges the definitive siblings and fails; a pause is in the record before any result
     is in the log.
     */
    method Conclude(calls: seq<ToolCall>, outcomes: seq<Outcome>, messages: seq<Message>)
      returns (c: Conclusion, out: seq<Message>)
      requires Valid() && execution.Some? && persistedCount == |messages| && |calls| == |outcomes|
      requires forall o | o in outcomes && o.Definitive? :: o.result.ToolResult?
      modifies this`execution, this`revision, this`lastSequence, this`persistedCount, store, conversation
      ensures Valid() && messages <= out && execution.Some?
      ensures (exists o | o in outcomes :: o.CoordinationFailure?) ==>
        c.Aborted? && execution == old(execution) && conversation.data == old(conversation.data)
      ensures (exists o | o in outcomes :: o.Unknown?) ==> c.Aborted?
      ensures (exists o | o in outcomes :: o.Unknown?) && !(exists o | o in outcomes :: o.CoordinationFailure?) &&
              old(HoldsCurrent()) && old(conversation.Revision(convId)) == old(revision) ==>
        var blocks := DefinitiveBlocks(outcomes);
        out == WithResults(messages, blocks) &&
        conversation.Log(convId) == old(conversation.Log(convId)) + out[|messages|..] &&
        execution == Some(AfterCommit(old(execution).value, blocks, revision, lastSequence))
      ensures !c.Aborted? ==> PauseOf(calls, outcomes) == (if c.Interrupted? then Some(c.pause) else None)
      ensures c.Concluded? ==>
        var blocks := CommittedBlocks(calls, outcomes, c);
        execution == Some(AfterCommit(old(execution).value, blocks, revision, lastSequence))
      ensures c.Interrupted? ==>
        var paused := old(execution).value.(pendingPause := Some(c.pause), version := old(execution).value.version + 1);
        execution == Some(AfterCommit(paused, CommittedBlocks(calls, outcomes, c), revision, lastSequence))
      ensures !(exists o | o in outcomes :: o.CoordinationFailure? || o.Unknown?) && PauseOf(calls, outcomes).Some? ==>
        execution.value.pendingPause == PauseOf(calls, outcomes) || conversation.data == old(conversation.data)
      ensures !c.Aborted? ==> out == WithResults(messages, CommittedBlocks(calls, outcomes, c))
      ensures !c.Aborted? ==> conversation.Log(convId) == old(conversation.Log(convId)) + out[|messages|..]
      ensures !(exists o | o in outcomes :: o.CoordinationFailure? || o.Unknown?) && old(HoldsCurrent()) &&
              old(execution).value.version < MAX_VERSION && old(conversation.Revision(convId)) == old(revision) ==>
        !c.Aborted?
    {
      hide DefinitiveBlocks, Converted, PendingIds, Acknowledge, Answered, AfterCommit, PauseOf, CommittedBlocks;
      out := messages;
      var lost := HasOutcome(outcomes, CoordinationFailure);
      if lost {
        return Aborted(RecoveryUnsupported), out;
      }
      var unknown := HasOutcome(outcomes, Outcome.Unknown);
      if unknown {
        out := CommitSiblings(outcomes, messages);
        return Aborted(ToolUncertain("", "")), out;
      }
      c, out := PauseOrFinish(calls, outcomes, messages);
    }

    /** Some outcome is unknown: what its definitive siblings returned is kept. */
    method CommitSiblings(outcomes: seq<Outcome>, messages: seq<Message>) returns (out: seq<Message>)
      requires Valid() && execution.Some? && persistedCount == |messages|
      requires forall o | o in outcomes && o.Definitive? :: o.result.ToolResult?
      modifies this`execution, this`revision, this`lastSequence, this`persistedCount, store, conversation
      ensures Valid() && messages <= out && execution.Some?
      ensures old(HoldsCurrent()) && old(conversation.Revision(convId)) == old(revision) ==>
        var blocks := DefinitiveBlocks(outcomes);
        out == WithResults(messages, blocks) &&
        conversation.Log(convId) == old(conversation.Log(convId)) + out[|messages|..] &&
        execution == Some(AfterCommit(old(execution).value, blocks, revision, lastSequence))
    {
      AnswersAreNamed(outcomes);
      hide DefinitiveBlocks, Answered, AfterCommit;
      var definitive := ResultBlocks(outcomes);
      var committed;
      committed, out := CommitBlocks(messages, definitive);
    }

    /** No outcome is uncertain: save the pause if there is one, then commit the results. */
    method PauseOrFinish(calls: seq<ToolCall>, outcomes: seq<Outcome>, messages: seq<Message>)
      returns (c: Conclusion, out: seq<Message>)
      requires Valid() && execution.Some? && persistedCount == |messages| && |calls| == |outcomes|
      requires forall o | o in outcomes && o.Definitive? :: o.result.ToolResult?
      modifies this`execution, this`revision, this`lastSequence, this`persistedCount, store, conversation
      ensures Valid() && messages <= out && execution.Some?
      ensures !c.Aborted? ==> PauseOf(calls, outcomes) == (if c.Interrupted? then Some(c.pause) else None)
      ensures !c.Aborted? ==> out == WithResults(messages, CommittedBlocks(calls, outcomes, c))
      ensures !c.Aborted? ==> conversation.Log(convId) == old(conversation.Log(convId)) + out[|messages|..]
      ensures c.Concluded? ==>
        var blocks := CommittedBlocks(calls, outcomes, c);
        execution == Some(AfterCommit(old(execution).value, blocks, revision, lastSequence))
      ensures c.Interrupted? ==>
        var paused := old(execution).value.(pendingPause := Some(c.pause), version := old(execution).value.version + 1);
        execution == Some(AfterCommit(paused, CommittedBlocks(calls, outcomes, c), revision, lastSequence))
      ensures PauseOf(calls, outcomes).Some? ==>
        execution.value.pendingPause == PauseOf(calls, outcomes) || conversation.data == old(conversation.data)
      ensures old(HoldsCurrent()) && old(execution).value.version < MAX_VERSION &&
              old(conversation.Revision(convId)) == old(revision) ==>
        !c.Aborted?
    {
      AnswersAreNamed(outcomes);
      ConvertedIsNamed(calls, outcomes);
      hide DefinitiveBlocks, Converted, PendingIds, Acknowledge, Answered, AfterCommit;
      out := messages;
      var pause, settled := PendingInterrupt(calls, outcomes);
      if pause.Some? {
        var saved := PersistPendingPause(pause.value);
        if saved.Err? {
          return Aborted(saved.error), out;
        }
      }
      var definitive := ResultBlocks(settled);
      var committed;
      committed, out := CommitBlocks(messages, definitive);
      if committed.Err? {
        return Aborted(committed.error), out;
      }
      c := if pause.Some? then Interrupted(pause.value) else Concluded;
    }

    /** Append the definitive results, if any, and only then acknowledge them. */
    method CommitBlocks(messages: seq<Message>, definitive: seq<Block>) returns (r: Result<()>, out: seq<Message>)
      requires Valid() && execution.Some? && persistedCount == |messages|
      modifies this`execution, this`revision, this`lastSequence, this`persistedCount, store, conversation
      ensures Valid() && messages <= out
      ensures definitive == [] ==> r.Ok? && execution == old(execution) && conversation.data == old(conversation.data)
      ensures r.Ok? ==> out == WithResults(messages, definitive)
      ensures definitive == [] || Answered(definitive) != {} ==>
        (old(HoldsCurrent()) && old(conversation.Revision(convId)) == old(revision) ==> r.Ok?) &&
        (r.Ok? ==> conversation.Log(convId) == old(conversation.Log(convId)) + out[|messages|..] &&
                   execution == Some(AfterCommit(old(execution).value, definitive, revision, lastSequence)))
      ensures execution.Some? && execution.value.pendingPause == old(execution).value.pendingPause
    {
      out := messages;
      assert messages[|messages|..] == [];
      if |definitive| == 0 {
        return Ok(()), out;
      }
      out := messages + [ResultMsg(definitive)];
      r := CommitToolResults(out, Answered(definitive));
    }

    /** persistApprovalDecisions: every pending call must be found; its decision is saved before anything runs. */
    method PersistApprovalDecisions(ids: seq<string>, answer: string -> Decision) returns (r: Result<()>)
      requires Valid() && execution.Some?
      modifies this`execution, store
      ensures Valid()
      ensures var e := old(execution).value;
        Transition(if e.batch.None? || (exists id | id in ids :: FindCall(e.batch.value.calls, id).None?) then None
                   else Some(WithCalls(e, DecideCalls(e.batch.value.calls, ids, answer))), r.Ok?)
      ensures r.Ok? <==>
        old(HoldsCurrent()) && old(execution).value.batch.Some? &&
        forall id | id in ids :: exists c | c in old(execution).value.batch.value.calls :: c.callId == id
      ensures r.Ok? ==>
        OnlyCallsChange(old(execution).value, execution) &&
        forall i | 0 <= i < |old(execution).value.batch.value.calls| ::
          var c, c' := old(execution).value.batch.value.calls[i], execution.value.batch.value.calls[i];
          if c.callId in ids then c'.approval == Some(answer(c.callId)) && c' == c.(approval := c'.approval)
          else c' == c
    {
      var e := execution.value;
      if e.batch.None? {
        return Err(RecoveryUnsupported);
      }
      var ok, calls := DecidedCalls(e.batch.value.calls, ids, answer);
      if !ok {
        return Err(RecoveryUnsupported);
      }
      r := Persist(e.(batch := Some(e.batch.value.(calls := calls))));
    }

    /**
     recoverToolUses: repairs the Planned -> Ready boundary from the suffix after the record's cursor. A batch that
     is already announced is left alone.
     */
    method RecoverToolUses(messages: seq<Message>) returns (r: Result<()>, out: seq<Message>)
      requires Valid() && execution.Some? && persistedCount == |messages|
      modifies this`execution, this`revision, this`lastSequence, this`persistedCount, store, conversation
      ensures Valid()
      ensures old(execution).value.batch.None? ==> r == Err(RecoveryUnsupported)
      ensures old(execution).value.batch.Some? && !AllPlanned(old(execution).value.batch.value.calls) ==>
        r.Ok? && out == messages && execution == old(execution) && conversation.data == old(conversation.data)
      ensures r.Ok? && AllPlanned(old(execution).value.batch.value.calls) ==>
        var e := old(execution).value;
        ActiveBatch(cfg.hash, out, e.batch.value.calls) &&
        out == (if messages == [] then [UseMessage(e.batch.value.calls)] else messages) &&
        conversation.Log(convId) == old(conversation.Log(convId)) + out[|messages|..] &&
        Readies(e, execution, revision, lastSequence) && Transition(Some(MarkReady(e, revision, lastSequence)), true)
      ensures r.Ok? && messages == [] && AllPlanned(old(execution).value.batch.value.calls) ==>
        var calls := old(execution).value.batch.value.calls;
        |out| == 1 && out[0].role.Assistant? && |out[0].content| == |calls| &&
        forall i | 0 <= i < |calls| ::
          calls[i].input.Some? && out[0].content[i] == ToolUse(calls[i].callId, calls[i].name, calls[i].input.value)
      ensures old(HoldsCurrent()) && old(execution).value.batch.Some? &&
              AllPlanned(old(execution).value.batch.value.calls) &&
              (if messages == []
               then old(conversation.Revision(convId)) == old(revision) &&
                    (forall c | c in old(execution).value.batch.value.calls ::
                      c.input.Some? && cfg.hash(c.input.value) == Some(c.inputHash))
               else ActiveBatch(cfg.hash, messages, old(execution).value.batch.value.calls)) ==>
        r.Ok?
      ensures r.Err? ==> execution == old(execution) && forall id :: store.Current(id) == old(store.Current(id))
    {
      out := messages;
      var e := execution.value;
      if e.batch.None? {
        return Err(RecoveryUnsupported), out;
      }
      var calls := e.batch.value.calls;
      if !AllPlanned(calls) {
        return Ok(()), out;
      }
      if |messages| == 0 {
        var content := UseBlocks(calls);
        if content.None? {
          return Err(RecoveryUnsupported), out;
        }
        out := [Message(Assistant, content.value)];
        var saved := SaveConversation(out);
        if saved.Err? {
          return saved, out;
        }
      }
      if |messages| == 0 { AnnouncedIsActive(cfg.hash, calls, out); }
      var active := ActiveToolBatch(cfg.hash, out, calls);
      if active.Err? {
        return Err(active.error), out;
      }
      hide ActiveBatch;
      r := MarkToolBatchReady();
    }

    /** Complete the claimed call and drop the claim. */
    method ClearResolution(claim: Claim) returns (r: Result<()>)
      requires Valid() && execution.Some? && execution.value.batch.Some? &&
        execution.value.batch.value.resolution == Some(claim)
      modifies this`execution, store
      ensures Valid() && Transition(Some(ClearClaim(old(execution).value, claim, revision, lastSequence)), r.Ok?)
      ensures r.Ok? ==> Clears(old(execution).value, execution, claim, revision, lastSequence)
    {
      var e := execution.value.(revision := revision, lastSequence := lastSequence);
      var b := e.batch.value.(resolution := None);
      var calls, all := CompletedCalls(b.calls, {claim.callId});
      r := Persist(if all then e.(batch := None, phase := PhaseModel) else e.(batch := Some(b.(calls := calls))));
    }

    /** Makes the claimed outcome canonical, unless it already is. */
    method ProjectClaim(messages: seq<Message>, calls: seq<ToolCall>, claim: Claim)
      returns (r: Result<()>, out: seq<Message>)
      requires Valid() && persistedCount == |messages|
      modifies this`revision, this`lastSequence, this`persistedCount, conversation
      ensures Valid() && messages <= out
      ensures r.Ok? ==>
        ActiveBatch(cfg.hash, messages, calls) && exists x | x in Blocks(out[1..]) :: ConfirmsClaim(x, claim)
      ensures r.Ok? ==> conversation.Log(convId) == old(conversation.Log(convId)) + out[|messages|..]
      ensures r.Ok? ==>
        out == if claim.callId in ResultIds(messages[1..]) then messages
          else messages + [ResultMsg([ClaimResult(claim)])]
      ensures ActiveBatch(cfg.hash, messages, calls) && old(conversation.Revision(convId)) == old(revision) &&
              Agrees(messages, claim) ==>
        r.Ok?
    {
      out := messages;
      var projected := ClaimProjected(cfg.hash, messages, calls, claim);
      if projected.Err? {
        return Err(projected.error), out;
      }
      assert messages[|messages|..] == [];
      if projected.value {
        return Ok(()), out;
      }
      out := messages + [ResultMsg([ClaimResult(claim)])];
      AppendedResult(messages, ClaimResult(claim), claim);
      r := SaveConversation(out);
    }

    /**
     finishResolutionClaim: the claimed outcome is projected exactly once. A canonical result with other content
     or error flag is a conflict; on success the claimed outcome is canonical and the claim is gone.
     */
    method FinishResolutionClaim(messages: seq<Message>) returns (r: Result<()>, out: seq<Message>)
      requires Valid() && execution.Some? && persistedCount == |messages|
      modifies this`execution, this`revision, this`lastSequence, this`persistedCount, store, conversation
      ensures Valid() && messages <= out
      ensures r.Ok? ==>
        var e := old(execution).value;
        e.batch.Some? && e.batch.value.resolution.Some? && ActiveBatch(cfg.hash, messages, e.batch.value.calls) &&
        var claim := e.batch.value.resolution.value;
        (exists x | x in Blocks(out[1..]) :: ConfirmsClaim(x, claim)) &&
        conversation.Log(convId) == old(conversation.Log(convId)) + out[|messages|..] &&
        out == (if claim.callId in ResultIds(messages[1..]) then messages
                else messages + [ResultMsg([ClaimResult(claim)])]) &&
        Clears(e, execution, claim, revision, lastSequence) &&
        Transition(Some(ClearClaim(e, claim, revision, lastSequence)), true)
      ensures old(HoldsCurrent()) && old(execution).value.batch.Some? &&
              old(execution).value.batch.value.resolution.Some? &&
              old(conversation.Revision(convId)) == old(revision) &&
              ActiveBatch(cfg.hash, messages, old(execution).value.batch.value.calls) &&
              Agrees(messages, old(execution).value.batch.value.resolution.value) ==>
        r.Ok?
      ensures r.Err? ==> execution == old(execution) && forall id :: store.Current(id) == old(store.Current(id))
    {
      out := messages;
      var e := execution.value;
      if e.batch.None? || e.batch.value.resolution.None? {
        return Err(RecoveryUnsupported), out;
      }
      hide ActiveBatch, ConfirmsClaim, ClaimResult, Blocks, ClearClaim;
      var claim := e.batch.value.resolution.value;
      var projected;
      projected, out := ProjectClaim(messages, e.batch.value.calls, claim);
      if projected.Err? {
        return projected, out;
      }
      r := ClearResolution(claim);
    }
  }

  // ---- What a save changes, field by field ----------------------------------------------------------------

  ghost predicate FirstWith(e: Record, callId: string, i: nat) {
    e.batch.Some? && i < |e.batch.value.calls| && e.batch.value.calls[i].callId == callId &&
    forall k | 0 <= k < i :: e.batch.value.calls[k].callId != callId
  }

  /** Nothing but the calls of the batch changes, and none is added or removed. */
  ghost predicate OnlyCallsChange(e: Record, next: Option<Record>) {
    e.batch.Some? && next.Some? && next.value.batch.Some? &&
    next.value == e.(batch := next.value.batch, version := e.version + 1) &&
    next.value.batch.value == e.batch.value.(calls := next.value.batch.value.calls) &&
    |next.value.batch.value.calls| == |e.batch.value.calls|
  }

  /** The planned record of one request. */
  ghost predicate Plans(cfg: Config, id: string, q: Request, c: ToolCall) {
    c.callId == q.id && c.name == q.name && c.status.Planned? && c.key == ToolExecutionKey(cfg.digest, id, q.id) &&
    c.input == Some(q.input) && cfg.hash(q.input) == Some(c.inputHash) && c.replaySafe == q.replaySafe &&
    c.approval.None?
  }

  /** Every call moves from Planned to Ready and gives up its input; the boundary is recorded; nothing else changes. */
  ghost predicate Readies(e: Record, next: Option<Record>, revision: nat, last: nat) {
    e.batch.Some? && next.Some? && next.value.batch.Some? &&
    var b, b' := e.batch.value, next.value.batch.value;
    next.value == e.(revision := revision, lastSequence := last, batch := Some(b'), version := e.version + 1) &&
    b' == b.(calls := b'.calls, useRevision := revision, useLastSequence := last) && |b'.calls| == |b.calls| &&
    forall i | 0 <= i < |b.calls| ::
      b'.calls[i].status.Ready? && b'.calls[i].input.None? &&
      b'.calls[i] == b.calls[i].(status := b'.calls[i].status, input := b'.calls[i].input)
  }

  /** The named calls are completed; the batch goes once nothing else is left in it; nothing else changes. */
  ghost predicate Acknowledges(e: Record, next: Option<Record>, done: set<string>, revision: nat, last: nat) {
    next.Some? &&
    var e' := next.value;
    e' == e.(revision := revision, lastSequence := last, batch := e'.batch, phase := e'.phase,
             version := e.version + 1) &&
    (e.batch.None? ==> e'.batch.None? && e'.phase == e.phase) &&
    (e.batch.Some? ==>
      var b := e.batch.value;
      (e'.batch.None? <==> forall c | c in b.calls :: c.status.Completed? || c.callId in done) &&
      e'.phase == (if e'.batch.None? then PhaseModel else e.phase) &&
      (e'.batch.Some? ==>
        var b' := e'.batch.value;
        b' == b.(calls := b'.calls) && |b'.calls| == |b.calls| &&
        forall i | 0 <= i < |b.calls| ::
          b'.calls[i] == if b.calls[i].callId in done then b.calls[i].(status := Completed) else b.calls[i]))
  }

  /** As an acknowledgement of the claimed call, and the claim goes with it. */
  ghost predicate Clears(e: Record, next: Option<Record>, claim: Claim, revision: nat, last: nat) {
    e.batch.Some? &&
    Acknowledges(e.(batch := Some(e.batch.value.(resolution := None))), next, {claim.callId}, revision, last)
  }

  /** The claimed call is unanswered, or answered as claimed. */
  ghost predicate Agrees(messages: seq<Message>, claim: Claim) {
    messages != [] &&
    (claim.callId in ResultIds(messages[1..]) ==> exists x | x in Blocks(messages[1..]) :: ConfirmsClaim(x, claim))
  }

  datatype Conclusion = Aborted(error: Error) | Interrupted(pause: Pause) | Concluded

  function Answered(blocks: seq<Block>): set<string> { IdSet(ResultsOf(blocks)) }

  function WithResults(messages: seq<Message>, blocks: seq<Block>): seq<Message> {
    if blocks == [] then messages else messages + [ResultMsg(blocks)]
  }

  /** The record once the results are canonical. */
  function AfterCommit(e: Record, blocks: seq<Block>, revision: nat, lastSequence: nat): Record {
    if blocks == [] then e else Acknowledge(e, Answered(blocks), revision, lastSequence).(version := e.version + 1)
  }

  /** The pause that the outcomes ask for: human input first, then the calls that wait for approval. */
  ghost function PauseOf(calls: seq<ToolCall>, outcomes: seq<Outcome>): Option<Pause>
    requires |calls| == |outcomes|
  {
    if exists o | o in outcomes :: o.Definitive? && o.human then Some(HumanPause)
    else if PendingIds(calls, outcomes) == [] then None
    else Some(ApprovalPause(PendingIds(calls, outcomes)))
  }

  /** The results that a batch leaves behind; a human-input pause answers pending approvals as not executed. */
  function CommittedBlocks(calls: seq<ToolCall>, outcomes: seq<Outcome>, c: Conclusion): seq<Block>
    requires |calls| == |outcomes|
  {
    DefinitiveBlocks(if c == Interrupted(HumanPause) then Converted(calls, outcomes) else outcomes)
  }

  /** The step system and the coordinator decide alike once every call has an outcome. */
  lemma CollectsAsConcluded(w: Worker, d: Dispatch)
    requires DispatchShape(d)
    ensures
      var lost := exists o | o in d.outcomes :: o.CoordinationFailure?;
      var unknown := exists o | o in d.outcomes :: o.Unknown?;
      var pause := PauseOf(d.calls, d.outcomes);
      (lost ==> Collected(w, d) == w.(pc := FailPc(w))) &&
      (!lost && unknown ==> Collected(w, d) == Committing(w, DefinitiveBlocks(d.outcomes), ToFail)) &&
      (!lost && !unknown && pause.None? ==>
        Collected(w, d) == Committing(w, CommittedBlocks(d.calls, d.outcomes, Concluded), ToLoop)) &&
      (!lost && !unknown && pause.Some? ==>
        Collected(w, d) ==
          w.(pc := SavePendingPause(CommittedBlocks(d.calls, d.outcomes, Interrupted(pause.value)), pause.value)))
  {
  }

  /** What a batch leaves behind, in call order: its definitive results, and refusals under a human-input pause. */
  lemma CommittedInOrder(calls: seq<ToolCall>, outcomes: seq<Outcome>, c: Conclusion)
    returns (at: seq<nat>, settled: seq<Outcome>)
    requires |calls| == |outcomes|
    ensures |settled| == |outcomes| && ResultsAt(settled, CommittedBlocks(calls, outcomes, c), at)
    ensures forall i | 0 <= i < |outcomes| ::
      settled[i] == if c == Interrupted(HumanPause) && outcomes[i].PendingApproval?
                    then Definitive(ToolResult(calls[i].callId, NOT_EXECUTED, true, []), false) else outcomes[i]
  {
    settled := if c == Interrupted(HumanPause) then Converted(calls, outcomes) else outcomes;
    at := DefinitiveInOrder(settled);
  }

  lemma DefinitiveInOrder(outcomes: seq<Outcome>) returns (at: seq<nat>)
    ensures ResultsAt(outcomes, DefinitiveBlocks(outcomes), at)
  {
    at := [];
    var blocks, i := [], 0;
    while i < |outcomes|
      invariant 0 <= i <= |outcomes| && DefinitiveBlocks(outcomes) == blocks + DefinitiveBlocks(outcomes[i..])
      invariant ResultsAt(outcomes[..i], blocks, at)
    {
      assert outcomes[i..][1..] == outcomes[i + 1..] && outcomes[..i + 1] == outcomes[..i] + [outcomes[i]];
      if outcomes[i].Definitive? { blocks, at := blocks + [outcomes[i].result], at + [i]; }
      i := i + 1;
    }
    assert outcomes[..i] == outcomes;
  }

  /** The record that a commit leaves: the answered calls are completed, and nothing else changes. */
  lemma AfterCommitSays(e: Record, blocks: seq<Block>, revision: nat, lastSequence: nat)
    ensures blocks == [] ==> AfterCommit(e, blocks, revision, lastSequence) == e
    ensures blocks != [] ==>
      var done := set x | x in blocks && x.ToolResult? :: x.id;
      Acknowledges(e, Some(AfterCommit(e, blocks, revision, lastSequence)), done, revision, lastSequence)
  {
    var done := set x | x in blocks && x.ToolResult? :: x.id;
    assert done == Answered(blocks) by {
      forall id ensures id in done <==> id in Answered(blocks) { ResultsOfMember(blocks, id); }
    }
    hide Answered;
    if e.batch.Some? {
      var calls := e.batch.value.calls;
      var out := CompleteCalls(calls, done);
      if AllCompleted(out) {
        forall c | c in calls ensures c.status.Completed? || c.callId in done {
          var k :| 0 <= k < |calls| && calls[k] == c;
          assert out[k] in out;
        }
      } else {
        var c :| c in out && !c.status.Completed?;
        var k :| 0 <= k < |out| && out[k] == c;
        assert calls[k] in calls;
      }
    }
  }

  /** Human input wins; otherwise the pause names exactly the calls that wait for approval, in order. */
  lemma PauseNamesPending(calls: seq<ToolCall>, outcomes: seq<Outcome>) returns (at: seq<nat>)
    requires |calls| == |outcomes|
    ensures PauseOf(calls, outcomes) == Some(HumanPause) <==> exists o | o in outcomes :: o.Definitive? && o.human
    ensures PauseOf(calls, outcomes).None? ==> at == [] && PendingAt(calls, outcomes, [], at)
    ensures PauseOf(calls, outcomes).Some? && PauseOf(calls, outcomes).value.ApprovalPause? ==>
      at != [] && PendingAt(calls, outcomes, PauseOf(calls, outcomes).value.calls, at)
  {
    at := PendingInOrder(calls, outcomes);
  }

  lemma PendingInOrder(calls: seq<ToolCall>, outcomes: seq<Outcome>) returns (at: seq<nat>)
    requires |calls| == |outcomes|
    ensures PendingAt(calls, outcomes, PendingIds(calls, outcomes), at)
  {
    at := [];
    var ids, i := [], 0;
    while i < |outcomes|
      invariant 0 <= i <= |outcomes| && PendingIds(calls, outcomes) == ids + PendingIds(calls[i..], outcomes[i..])
      invariant PendingAt(calls[..i], outcomes[..i], ids, at)
    {
      PendingStep(calls, outcomes, i);
      PendingGrows(calls, outcomes, i, ids, at);
      hide PendingAt;
      if outcomes[i].PendingApproval? { ids, at := ids + [calls[i].callId], at + [i]; }
      i := i + 1;
    }
    assert outcomes[..i] == outcomes && calls[..i] == calls;
  }

  /** Every definitive result names its call. */
  lemma {:induction false} AnswersAreNamed(outcomes: seq<Outcome>)
    requires forall o | o in outcomes && o.Definitive? :: o.result.ToolResult?
    ensures DefinitiveBlocks(outcomes) == [] || Answered(DefinitiveBlocks(outcomes)) != {}
  {
    if outcomes != [] {
      assert outcomes[0] in outcomes && forall o | o in outcomes[1..] :: o in outcomes;
      if outcomes[0].Definitive? {
        var x, rest := outcomes[0].result, DefinitiveBlocks(outcomes[1..]);
        assert ([x] + rest)[1..] == rest;
        assert x.id in Answered([x] + rest);
      } else {
        AnswersAreNamed(outcomes[1..]);
        assert [] + DefinitiveBlocks(outcomes[1..]) == DefinitiveBlocks(outcomes[1..]);
      }
    }
  }

  lemma ConvertedIsNamed(calls: seq<ToolCall>, outcomes: seq<Outcome>)
    requires |calls| == |outcomes| && forall o | o in outcomes && o.Definitive? :: o.result.ToolResult?
    ensures var os := Converted(calls, outcomes); DefinitiveBlocks(os) == [] || Answered(DefinitiveBlocks(os)) != {}
  {
    var os := Converted(calls, outcomes);
    forall o | o in os && o.Definitive? ensures o.result.ToolResult? {
      var i :| 0 <= i < |os| && os[i] == o;
      assert outcomes[i] in outcomes;
    }
    AnswersAreNamed(os);
  }

  /** Is there an outcome of this kind? */
  method HasOutcome(outcomes: seq<Outcome>, kind: Outcome) returns (found: bool)
    requires kind.CoordinationFailure? || kind.Unknown?
    ensures found <==> kind in outcomes
  {
    var i := 0;
    while i < |outcomes|
      invariant 0 <= i <= |outcomes| && forall k | 0 <= k < i :: outcomes[k] != kind
    {
      if outcomes[i] == kind {
        return true;
      }
      i := i + 1;
    }
    found := false;
  }

  // ---- Helpers of the loops above -----------------------------------------------------------------------

  ghost predicate PlannableRequest(cfg: Config, prior: seq<Message>, q: Request) {
    q.id != "" && cfg.hash(q.input).Some? && q.id !in UseIds(prior)
  }

  /** What planToolBatch accepts: hashable history and inputs, and call IDs that are present, distinct and new. */
  ghost predicate Plannable(cfg: Config, prior: seq<Message>, requests: seq<Request>) {
    (forall x | x in Blocks(prior) && x.ToolUse? :: cfg.hash(x.input).Some?) &&
    (forall k | 0 <= k < |requests| :: PlannableRequest(cfg, prior, requests[k])) &&
    forall j, k | 0 <= j < k < |requests| :: requests[j].id != requests[k].id
  }

  /** The records of a plan, or the first request that cannot be planned. */
  method PlannedCalls(cfg: Config, id: string, requests: seq<Request>, prior: map<string, (string, string)>)
    returns (r: Result<seq<ToolCall>>)
    ensures r.Ok? <==>
      (forall k | 0 <= k < |requests| ::
        requests[k].id != "" && cfg.hash(requests[k].input).Some? && requests[k].id !in prior.Keys) &&
      forall j, k | 0 <= j < k < |requests| :: requests[j].id != requests[k].id
    ensures r.Ok? ==> r.value == PlanCalls(cfg.hash, cfg.digest, id, requests) && DistinctIds(r.value)
    ensures r.Ok? ==>
      |r.value| == |requests| && forall k | 0 <= k < |requests| :: Plans(cfg, id, requests[k], r.value[k])
  {
    var calls: seq<ToolCall> := [];
    var seen: set<string> := {};
    var i := 0;
    while i < |requests|
      invariant 0 <= i <= |requests| && |calls| == i
      invariant forall k | 0 <= k < i :: calls[k] == PlanCall(cfg.hash, cfg.digest, id, requests[k])
      invariant seen == set k | 0 <= k < i :: requests[k].id
      invariant forall k | 0 <= k < i ::
        requests[k].id != "" && cfg.hash(requests[k].input).Some? && requests[k].id !in prior.Keys
      invariant forall j, k | 0 <= j < k < i :: requests[j].id != requests[k].id
    {
      var call := requests[i];
      if call.id == "" || call.id in seen {
        return Err(BadCall(i));
      }
      var h := cfg.hash(call.input);
      if h.None? || call.id in prior.Keys {
        return Err(BadCall(i));
      }
      calls := calls + [ToolCall(call.id, call.name, Planned, ToolExecutionKey(cfg.digest, id, call.id), h.value,
                                 Some(call.input), call.replaySafe, None)];
      seen := seen + {call.id};
      i := i + 1;
    }
    PlannedAsRequested(cfg, id, requests, calls);
    hide PlanCall, PlanCalls, Plans;
    r := Ok(calls);
  }

  lemma PlannedAsRequested(cfg: Config, id: string, requests: seq<Request>, calls: seq<ToolCall>)
    requires |calls| == |requests| && forall k | 0 <= k < |requests| :: cfg.hash(requests[k].input).Some?
    requires forall k | 0 <= k < |calls| :: calls[k] == PlanCall(cfg.hash, cfg.digest, id, requests[k])
    requires forall j, k | 0 <= j < k < |requests| :: requests[j].id != requests[k].id
    ensures calls == PlanCalls(cfg.hash, cfg.digest, id, requests) && DistinctIds(calls)
    ensures forall k | 0 <= k < |requests| :: Plans(cfg, id, requests[k], calls[k])
  {
    hide ToolExecutionKey;
  }

  lemma NextUse(blocks: seq<Block>, i: nat)
    requires i < |blocks|
    ensures UsesOf(blocks[..i + 1]) == UsesOf(blocks[..i]) + if blocks[i].ToolUse? then [blocks[i].id] else []
  {
    assert blocks[..i + 1] == blocks[..i] + [blocks[i]];
    UsesOfConcat(blocks[..i], [blocks[i]]);
    assert UsesOf([blocks[i]]) == (if blocks[i].ToolUse? then [blocks[i].id] else []) + UsesOf([]);
  }

  lemma {:induction false} FirstCall(calls: seq<ToolCall>, i: nat)
    requires i < |calls| && forall k | 0 <= k < i :: calls[k].callId != calls[i].callId
    ensures FindCall(calls, calls[i].callId) == Some(calls[i])
  {
    if i > 0 {
      assert calls[0].callId != calls[i].callId;
      assert calls[1..][i - 1] == calls[i];
      FirstCall(calls[1..], i - 1);
    }
  }

  lemma NoCall(calls: seq<ToolCall>, id: string)
    requires forall k | 0 <= k < |calls| :: calls[k].callId != id
    ensures FindCall(calls, id).None?
  {
  }

  method CompletedCalls(calls: seq<ToolCall>, completed: set<string>) returns (out: seq<ToolCall>, all: bool)
    requires DistinctIds(calls)
    ensures out == CompleteCalls(calls, completed) && DistinctIds(out) && (all <==> AllCompleted(out))
    ensures all <==> forall c | c in calls :: c.status.Completed? || c.callId in completed
  {
    out, all := calls, true;
    var i := 0;
    while i < |calls|
      invariant 0 <= i <= |calls| == |out|
      invariant forall k | 0 <= k < |calls| :: out[k] == if k < i then CompleteCalls(calls, completed)[k] else calls[k]
      invariant all <==> forall k | 0 <= k < i :: CompleteCalls(calls, completed)[k].status.Completed?
    {
      if out[i].callId in completed {
        out := out[i := out[i].(status := Completed)];
      }
      if !out[i].status.Completed? {
        all := false;
      }
      i := i + 1;
    }
    assert out == CompleteCalls(calls, completed);
    if !all {
      var k :| 0 <= k < |calls| && !out[k].status.Completed?;
      assert out[k] in out && calls[k] in calls;
    } else {
      forall c | c in calls ensures c.status.Completed? || c.callId in completed {
        var k :| 0 <= k < |calls| && calls[k] == c;
        assert out[k].status.Completed?;
      }
    }
  }

  /** The tool uses of a planned batch, unless an input is missing. */
  method UseBlocks(calls: seq<ToolCall>) returns (content: Option<seq<Block>>)
    ensures content.None? <==> exists c | c in calls :: c.input.None?
    ensures content.Some? ==> content.value == UseMessage(calls).content && |content.value| == |calls|
    ensures content.Some? ==> forall i | 0 <= i < |calls| ::
      calls[i].input.Some? && content.value[i] == ToolUse(calls[i].callId, calls[i].name, calls[i].input.value)
  {
    var blocks: seq<Block> := [];
    var i := 0;
    while i < |calls|
      invariant 0 <= i <= |calls| && |blocks| == i
      invariant forall k | 0 <= k < i :: calls[k].input.Some? && blocks[k] == UseMessage(calls).content[k]
    {
      if calls[i].input.None? {
        assert calls[i] in calls;
        return None;
      }
      blocks := blocks + [ToolUse(calls[i].callId, calls[i].name, calls[i].input.value)];
      i := i + 1;
    }
    assert blocks == UseMessage(calls).content;
    content := Some(blocks);
  }

  lemma AnnouncedIsActive(hash: string -> Option<string>, calls: seq<ToolCall>, out: seq<Message>)
    requires out == [UseMessage(calls)] && DistinctIds(calls)
    ensures (forall c | c in calls :: c.input.Some? && hash(c.input.value) == Some(c.inputHash)) ==>
      ActiveBatch(hash, out, calls)
  {
    assert out[1..] == [] && ResultIds([]) == [];
    if forall c | c in calls :: c.input.Some? && hash(c.input.value) == Some(c.inputHash) {
      forall i | 0 <= i < |calls| ensures hash(out[0].content[i].input) == Some(calls[i].inputHash) {
        assert calls[i] in calls;
      }
    }
  }

  /** The decisions of a resumed pause, written into the calls they name. */
  method DecidedCalls(calls: seq<ToolCall>, ids: seq<string>, answer: string -> Decision)
    returns (ok: bool, out: seq<ToolCall>)
    requires DistinctIds(calls)
    ensures ok <==> !exists id | id in ids :: FindCall(calls, id).None?
    ensures ok ==> out == DecideCalls(calls, ids, answer) && DistinctIds(out)
  {
    out := calls;
    var n := 0;
    while n < |ids|
      invariant 0 <= n <= |ids| && out == DecideCalls(calls, ids[..n], answer)
      invariant forall k | 0 <= k < n :: FindCall(calls, ids[k]).Some?
    {
      assert ids[..n + 1] == ids[..n] + [ids[n]];
      var found := false;
      var i := 0;
      while i < |calls| && !found
        invariant 0 <= i <= |calls| == |out|
        invariant !found ==>
          out == DecideCalls(calls, ids[..n], answer) && forall k | 0 <= k < i :: calls[k].callId != ids[n]
        invariant found ==> out == DecideCalls(calls, ids[..n + 1], answer) && FindCall(calls, ids[n]).Some?
      {
        if out[i].callId == ids[n] {
          out := out[i := out[i].(approval := Some(answer(out[i].callId)))];
          found := true;
          FirstCall(calls, i);
          assert out == DecideCalls(calls, ids[..n + 1], answer);
        }
        i := i + 1;
      }
      if !found {
        NoCall(calls, ids[n]);
        assert ids[n] in ids;
        return false, calls;
      }
      n := n + 1;
    }
    assert ids[..n] == ids;
    ok := true;
  }

  /** Whether the claimed outcome is canonical already; another outcome of the same call is a conflict. */
  method ClaimProjected(hash: string -> Option<string>, ms: seq<Message>, calls: seq<ToolCall>, claim: Claim)
    returns (r: Result<bool>)
    ensures r.Ok? ==> ActiveBatch(hash, ms, calls) && (r.value <==> claim.callId in ResultIds(ms[1..]))
    ensures r.Ok? && r.value ==> exists x | x in Blocks(ms[1..]) :: ConfirmsClaim(x, claim)
    ensures !ActiveBatch(hash, ms, calls) ==> r.Err?
    ensures r.Err? && ActiveBatch(hash, ms, calls) ==>
      r.error == ConversationConflict && claim.callId in ResultIds(ms[1..])
    ensures ActiveBatch(hash, ms, calls) && (exists x | x in Blocks(ms[1..]) :: ConfirmsClaim(x, claim)) ==> r.Ok?
  {
    var results := ActiveToolBatch(hash, ms, calls);
    if results.Err? {
      return Err(results.error);
    }
    hide ActiveBatch;
    if claim.callId !in results.value {
      return Ok(false);
    }
    var expected := ClaimResult(claim);
    var actual := ActualResult(ms[1..], claim.callId);
    if x :| x in Blocks(ms[1..]) && ConfirmsClaim(x, claim) { SameResult(hash, ms, calls, x, actual); }
    if actual.content != expected.content || actual.isError != expected.isError {
      return Err(ConversationConflict);
    }
    assert ConfirmsClaim(actual, claim);
    r := Ok(true);
  }

  /** An active batch answers each call once. */
  lemma SameResult(hash: string -> Option<string>, ms: seq<Message>, calls: seq<ToolCall>, x: Block, y: Block)
    requires ActiveBatch(hash, ms, calls) && x in Blocks(ms[1..]) && y in Blocks(ms[1..])
    requires x.ToolResult? && y.ToolResult? && x.id == y.id
    ensures x == y
  {
    OneResultEach(Blocks(ms[1..]), x, y);
  }

  lemma {:induction false} OneResultEach(blocks: seq<Block>, x: Block, y: Block)
    requires NoDuplicates(ResultsOf(blocks)) && x in blocks && y in blocks && x.ToolResult? && y.ToolResult? &&
      x.id == y.id
    ensures x == y
  {
    var b, rest := blocks[0], blocks[1..];
    var ids := ResultsOf(rest);
    assert ResultsOf(blocks) == (if b.ToolResult? then [b.id] else []) + ids;
    assert NoDuplicates(ids) by {
      var n := |ResultsOf(blocks)| - |ids|;
      assert forall i | 0 <= i < |ids| :: ids[i] == ResultsOf(blocks)[n + i];
    }
    ResultsOfMember(rest, x.id);
    if b.ToolResult? { assert forall k | 0 <= k < |ids| :: ResultsOf(blocks)[0] != ResultsOf(blocks)[k + 1] == ids[k]; }
    if x in rest && y in rest { OneResultEach(rest, x, y); }
  }

  /** The last result for the call, scanning in order. */
  method ActualResult(ms: seq<Message>, id: string) returns (x: Block)
    requires id in ResultIds(ms)
    ensures x in Blocks(ms) && x.ToolResult? && x.id == id
  {
    var blocks := Flatten(ms);
    ResultsOfMember(blocks, id);
    var found := false;
    x := Text("");
    var i := 0;
    while i < |blocks|
      invariant 0 <= i <= |blocks|
      invariant found ==> x in blocks && x.ToolResult? && x.id == id
      invariant !found ==> forall k | 0 <= k < i :: !(blocks[k].ToolResult? && blocks[k].id == id)
    {
      if blocks[i].ToolResult? && blocks[i].id == id {
        x, found := blocks[i], true;
      }
      i := i + 1;
    }
  }

  lemma AppendedResult(ms: seq<Message>, result: Block, claim: Claim)
    requires |ms| > 0 && result == ClaimResult(claim)
    ensures exists x | x in Blocks((ms + [ResultMsg([result])])[1..]) :: ConfirmsClaim(x, claim)
  {
    var last := [ResultMsg([result])];
    assert (ms + last)[1..] == ms[1..] + last;
    BlocksConcat(ms[1..], last);
    assert Blocks(last) == [result] + Blocks([]);
    assert ConfirmsClaim(result, claim);
  }
}
