/** The durable claim that precedes every handler start keeps the protocol invariant. */
module ProtocolBegin {
  import opened Messages
  import opened Execution
  import opened ToolBatch
  import opened Protocol
  import opened ProtocolInvariant
  import opened ProtocolSaves

  /** What the claim of one call may rest on. */
  ghost predicate Startable(e: Record, h: History, c: ToolCall, recovering: bool) {
    e.batch.Some? && FindCall(e.batch.value.calls, c.callId).Some? &&
    var found := FindCall(e.batch.value.calls, c.callId).value;
    (found.status.Ready? || (found.status.InFlight? && recovering && found.replaySafe)) && c.callId !in h.claimed
  }

  /** Only an unclaimed call of the current batch is ever started. */
  lemma StartsUnclaimed(cfg: Config, sh: Shared, w: Worker, c: ToolCall)
    requires ClaimsOk(sh.exec, sh.hist) && w.exec == sh.exec && Holding(sh, w)
    requires BeginCall(w.exec, c.callId, !w.kind.Invocation?).Claimed?
    ensures Startable(sh.exec, sh.hist, c, !w.kind.Invocation?)
  {
  }

  /** A start takes one unit of the call's budget: one plus one per Retry. */
  lemma BeginGrants(e: Record, h: History, c: ToolCall, recovering: bool, e': Record, h': History)
    requires GrantsOk(e, h) && Startable(e, h, c, recovering) && BatchIds(e) <= h.planned &&
      DistinctIds(e.batch.value.calls)
    requires BeginCall(e, c.callId, recovering) == Claimed(e')
    requires h'.planned == h.planned && h'.unsafe == h.unsafe && h'.retries == h.retries &&
      h'.grants == h.grants + multiset{c.callId}
    ensures GrantsOk(e', h')
  {
    var calls, calls', id := e.batch.value.calls, e'.batch.value.calls, c.callId;
    var found := FindCall(calls, id).value;
    assert found in calls && id in BatchIds(e);
    forall x | x in calls'
      ensures (x.callId in h'.unsafe <==> !x.replaySafe) &&
        (!x.replaySafe && (x.status.Planned? || x.status.Ready?) ==> h'.grants[x.callId] <= h'.retries[x.callId])
    {
      var k :| 0 <= k < |calls'| && calls'[k] == x;
      assert calls[k] in calls;
      if x.callId == id { UniqueCall(calls, calls[k], found); }
    }
  }

  lemma BeginHistories(cfg: Config, sh: Shared, c: ToolCall, gate: bool, recovering: bool, e': Record, sh': Shared)
    requires GrantsOk(sh.exec, sh.hist) && ClaimsOk(sh.exec, sh.hist) && StartsOk(cfg, sh.exec, sh.hist)
    requires Startable(sh.exec, sh.hist, c, recovering) && BatchIds(sh.exec) <= sh.hist.planned &&
      DistinctIds(sh.exec.batch.value.calls)
    requires BeginCall(sh.exec, c.callId, recovering) == Claimed(e') &&
      sh' == Saved(sh, e', BeginHistory(sh.hist, c, gate))
    requires c.key == ToolExecutionKey(cfg.digest, cfg.id, c.callId) && (gate ==> c.callId in sh.hist.allowed)
    ensures SavesHistory(cfg, sh, e', sh')
  {
    BeginGrants(sh.exec, sh.hist, c, recovering, e', sh'.hist);
    BeginClaims(sh.exec, sh.hist, c, recovering, e', sh'.hist);
    hide GrantsOk, ClaimsOk, BeginCall, Startable;
  }

  lemma BeginClaims(e: Record, h: History, c: ToolCall, recovering: bool, e': Record, h': History)
    requires ClaimsOk(e, h) && Startable(e, h, c, recovering) && BeginCall(e, c.callId, recovering) == Claimed(e')
    requires h'.claimed == h.claimed && h'.readied == h.readied
    ensures ClaimsOk(e', h')
  {
    if e' != e {
      ClaimsCarry(e, e', h, h');
    }
  }

  lemma BeginRewrites(cfg: Config, log: seq<Message>, e: Record, id: string, recovering: bool, e': Record, h: History,
                      h': History)
    requires RecordOk(cfg, log, e, h) && e.batch.Some? && e.batch.value.useLastSequence > 0
    requires BeginCall(e, id, recovering) == Claimed(e') && h'.allowed == h.allowed
    ensures Rewrites(cfg, log, e, e', h')
  {
    if e' == e {
      ReadyIndexed(cfg, log, e, h);
      hide RecordOk;
    } else {
      StatusRewrites(cfg, log, e, id, InFlight, e', h, h');
    }
  }

  /** A gated call reaches its handler only under a saved Allow decision. */
  lemma GateIsAllowed(cfg: Config, sh: Shared, w: Worker, d: Dispatch, i: nat)
    requires DispatchOk(cfg, sh, w, d) && i < |d.calls| && MayBegin(d, i)
    ensures d.gates[i] ==> d.calls[i].callId in sh.hist.allowed
    ensures d.calls[i].key == ToolExecutionKey(cfg.digest, cfg.id, d.calls[i].callId)
  {
    assert d.calls[i] in d.calls;
  }

  lemma BeginShared(cfg: Config, sh: Shared, w: Worker, i: nat, next: Record, sh': Shared)
    requires SharedInv(cfg, sh) && w.exec == sh.exec && w.pc.Dispatching? && DispatchOk(cfg, sh, w, w.pc.d)
    requires i < |w.pc.d.calls| && MayBegin(w.pc.d, i)
    requires BeginCall(w.exec, w.pc.d.calls[i].callId, !w.kind.Invocation?) == Claimed(next)
    requires sh' == Saved(sh, next, BeginHistory(sh.hist, w.pc.d.calls[i], w.pc.d.gates[i]))
    ensures SharedInv(cfg, sh') && w.pc.d.calls[i].callId !in sh.hist.claimed
  {
    var c, gate := w.pc.d.calls[i], w.pc.d.gates[i];
    GateIsAllowed(cfg, sh, w, w.pc.d, i);
    StartsUnclaimed(cfg, sh, w, c);
    BeginRewrites(cfg, sh.log, sh.exec, c.callId, !w.kind.Invocation?, next, sh.hist, sh'.hist);
    BeginHistories(cfg, sh, c, gate, !w.kind.Invocation?, next, sh');
    assert next.batch.Some?;
    hide *;
    RewriteKeeps(cfg, sh, next, sh'.hist, sh');
  }
}
