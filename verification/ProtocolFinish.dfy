/**
 Claims that can be finished are finished.

 A claim that a reconciliation recorded is completed by whoever comes next and is not disturbed: the reconciliation
 itself, or a recovery, which then goes on with the rest of the batch.
 */
module ProtocolFinish {
  import opened Messages
  import opened Execution
  import opened ToolBatch
  import opened Protocol
  import opened ProtocolInvariant
  import opened ProtocolAppends
  import opened ProtocolSaves
  import opened ProtocolRuns
  import opened ProtocolTheorems
  import opened ProtocolRecovery
  import opened ProtocolClaims
  import opened ProtocolLoss
  import opened ProtocolProgress

  // ---- From the log to the end of the claim ------------------------------------------------------------------------

  /** The record's batch ends the log, and the claimed call is unanswered or answered as claimed. */
  ghost predicate Finishable(cfg: Config, sh: Shared, claim: Claim) {
    var e := sh.exec;
    e.batch.Some? && cfg.start < e.batch.value.useLastSequence <= |sh.log| && !AllPlanned(e.batch.value.calls) &&
    ActiveBatch(cfg.hash, sh.log[e.batch.value.useLastSequence - 1..], e.batch.value.calls) &&
    var answers := sh.log[e.batch.value.useLastSequence..];
    claim.callId in ResultIds(answers) ==> Confirmed(answers, claim)
  }

  lemma ClaimLoads(cfg: Config, sh: Shared, w: Worker, claim: Claim) returns (w': Worker)
    requires Finishable(cfg, sh, claim) && w.exec == sh.exec && w.pc.RecoverLog?
    ensures WorkerStep(cfg, sh, w, LoadLog(0, Message(User, [])), sh, w')
    ensures w'.kind == w.kind && w'.pc.Inspect? && w'.exec == sh.exec && w'.revision == sh.revision && Flushed(w')
    ensures w'.messages == sh.log[sh.exec.batch.value.useLastSequence - 1..]
  {
    hide ActiveBatch, Confirmed, AllPlanned;
    w' := Loaded(sh, w, sh.exec.batch.value.useLastSequence - 1).(pc := Inspect);
  }

  lemma ClaimInspects(cfg: Config, sh: Shared, w: Worker, claim: Claim)
    requires Finishable(cfg, sh, claim) && HoldsClaim(sh.exec, claim) && w.exec == sh.exec && w.pc.Inspect?
    requires w.messages == sh.log[sh.exec.batch.value.useLastSequence - 1..]
    ensures WorkerStep(cfg, sh, w, Decide, sh, Inspected(cfg, w)) &&
      w.messages[1..] == sh.log[sh.exec.batch.value.useLastSequence..]
    ensures Inspected(cfg, w) ==
      if claim.callId in ResultIds(w.messages[1..]) then w.(pc := ClaimClear(claim))
      else w.(messages := w.messages + [ResultMsg([ClaimResult(claim)])], pc := ClaimAppend(claim))
  {
    assert w.messages[1..] == sh.log[sh.exec.batch.value.useLastSequence..];
    assert w.messages != [];
    hide ActiveBatch, ConfirmsClaim, ClaimResult, AllPlanned, ResultIds;
  }

  lemma ClaimAppends(cfg: Config, sh: Shared, w: Worker, claim: Claim) returns (sh': Shared, w': Worker)
    requires w.pc == ClaimAppend(claim) && w.exec == sh.exec && w.revision == sh.revision &&
      |w.messages| == w.persistedCount + 1
    requires w.messages[w.persistedCount] == ResultMsg([ClaimResult(claim)])
    ensures WorkerStep(cfg, sh, w, Append(Acked), sh', w')
    ensures w'.exec == sh'.exec == sh.exec && w'.pc == ClaimClear(claim) && w'.kind == w.kind
    ensures w'.messages == w.messages && sh'.log == sh.log + [ResultMsg([ClaimResult(claim)])]
  {
    hide ClaimResult;
    assert w.messages[w.persistedCount..] == [ResultMsg([ClaimResult(claim)])];
    sh' := sh.(log := sh.log + w.messages[w.persistedCount..], revision := sh.revision + 1);
    w' := AfterAppend(w, sh.revision + 1, |sh.log| + 1);
  }

  /** The claim is gone and its call completed; a recovery looks at the rest of the batch again, if there is any. */
  ghost predicate Cleared(sh: Shared, claim: Claim, sh': Shared, w: Worker) {
    sh.exec.batch.Some? && w.exec == sh'.exec &&
    var b, calls := sh.exec.batch.value, CompleteCalls(sh.exec.batch.value.calls, {claim.callId});
    if AllCompleted(calls) then sh'.exec.batch.None?
    else
      sh'.exec.batch == Some(b.(calls := calls, resolution := None)) && sh'.exec.status == sh.exec.status &&
      sh'.exec.phase == sh.exec.phase && sh'.exec.pendingPause == sh.exec.pendingPause &&
      (if w.kind.Reconciliation? then w.pc.Done? else w.pc.Inspect?)
  }

  lemma ClaimClears(cfg: Config, sh: Shared, w: Worker, claim: Claim) returns (sh': Shared, w': Worker)
    requires w.pc == ClaimClear(claim) && w.exec == sh.exec && w.exec.batch.Some?
    ensures WorkerStep(cfg, sh, w, Save(Acked), sh', w') && sh'.log == sh.log && !HoldsClaim(sh'.exec, claim)
    ensures Cleared(sh, claim, sh', w') && w'.kind == w.kind && w'.messages == w.messages
  {
    hide CompleteCalls, AllCompleted;
    sh' := Saved(sh, ClearClaim(w.exec, claim, w.revision, w.lastSequence), sh.hist);
    w' := AfterSave(w, sh'.exec);
  }

  /** Own steps of worker `t` take the claim out of the record, with its outcome in the log. */
  ghost predicate FinishesClaim(cfg: Config, s: State, run: seq<State>, labels: seq<Label>, t: nat, claim: Claim) {
    Steps(cfg, run, labels) && run[0] == s && OwnSteps(labels, t) && !HoldsClaim(run[|labels|].sh.exec, claim) &&
    cfg.start <= |run[|labels|].sh.log| &&
    exists x | x in Blocks(run[|labels|].sh.log[cfg.start..]) :: ConfirmsClaim(x, claim)
  }

  /** The log after the claim is finished: with its result appended, unless it was there. */
  ghost function FinishedLog(sh: Shared, claim: Claim): seq<Message>
    requires sh.exec.batch.Some? && sh.exec.batch.value.useLastSequence <= |sh.log|
  {
    if claim.callId in ResultIds(sh.log[sh.exec.batch.value.useLastSequence..]) then sh.log
    else sh.log + [ResultMsg([ClaimResult(claim)])]
  }

  /** The claim's worker is about to clear it, with the outcome in the log. */
  ghost predicate Confirming(sh: Shared, kind: Kind, claim: Claim, sh': Shared, w: Worker) {
    sh.exec.batch.Some? && 0 < sh.exec.batch.value.useLastSequence <= |sh.log| <= |sh'.log| &&
    w.kind == kind && w.pc == ClaimClear(claim) && w.exec == sh'.exec == sh.exec &&
    sh'.log == FinishedLog(sh, claim) &&
    var u := sh.exec.batch.value.useLastSequence;
    Confirmed(sh'.log[u..], claim) && w.messages == sh'.log[u - 1..]
  }

  /** The log has the outcome, or the worker appends it. */
  lemma Confirms(cfg: Config, sh: Shared, w: Worker, claim: Claim) returns (sh': Shared, w': Worker)
    requires Finishable(cfg, sh, claim) && HoldsClaim(sh.exec, claim) && w.exec == sh.exec && w.pc.Inspect?
    requires w.messages == sh.log[sh.exec.batch.value.useLastSequence - 1..] && Flushed(w) && w.revision == sh.revision
    ensures WorkerStep(cfg, sh, w, Decide, sh, Inspected(cfg, w)) && Confirming(sh, w.kind, claim, sh', w')
    ensures (sh' == sh && w' == Inspected(cfg, w)) || WorkerStep(cfg, sh, Inspected(cfg, w), Append(Acked), sh', w')
  {
    ClaimInspects(cfg, sh, w, claim);
    var u := sh.exec.batch.value.useLastSequence;
    assert cfg.start < u <= |sh.log| && w.messages[1..] == sh.log[u..];
    assert claim.callId in ResultIds(sh.log[u..]) ==> Confirmed(sh.log[u..], claim);
    hide WorkerStep, Inspected, ResultIds, Finishable, Confirmed, ClaimResult;
    sh', w' := sh, Inspected(cfg, w);
    if claim.callId !in ResultIds(sh.log[u..]) {
      sh', w' := ClaimAppends(cfg, sh, w', claim);
      AppendedConfirms(sh'.log, u, |sh.log|, claim);
      TailGrows(sh.log, u - 1, ResultMsg([ClaimResult(claim)]));
    }
  }

  lemma TailGrows(log: seq<Message>, from: nat, m: Message)
    requires from <= |log|
    ensures (log + [m])[from..] == log[from..] + [m]
  {
  }

  lemma ConfirmsFromLog(cfg: Config, s: State, run: seq<State>, labels: seq<Label>, sh: Shared, t: nat, w: Worker,
                        claim: Claim)
    returns (run': seq<State>, labels': seq<Label>, sh': Shared, w': Worker)
    requires Reached(cfg, s, run, labels, sh, t, w) && Finishable(cfg, sh, claim) && HoldsClaim(sh.exec, claim)
    requires w.exec == sh.exec && w.pc.RecoverLog?
    ensures Reached(cfg, s, run', labels', sh', t, w') && labels <= labels'
    ensures Confirming(sh, w.kind, claim, sh', w')
  {
    hide WorkerStep, Reached, Inspected, Finishable, Confirming, HoldsClaim;
    var w0 := ClaimLoads(cfg, sh, w, claim);
    run', labels' := Onward(cfg, s, run, labels, sh, t, w, LoadLog(0, Message(User, [])), sh, w0);
    sh', w' := Confirms(cfg, sh, w0, claim);
    var w1 := Inspected(cfg, w0);
    run', labels' := Onward(cfg, s, run', labels', sh, t, w0, Decide, sh, w1);
    if !(sh' == sh && w' == w1) {
      run', labels' := Onward(cfg, s, run', labels', sh, t, w1, Append(Acked), sh', w');
    }
  }

  lemma FinishesFromLog(cfg: Config, s: State, run: seq<State>, labels: seq<Label>, sh: Shared, t: nat, w: Worker,
                        claim: Claim)
    returns (run': seq<State>, labels': seq<Label>, sh': Shared, w': Worker)
    requires Reached(cfg, s, run, labels, sh, t, w) && Finishable(cfg, sh, claim) && HoldsClaim(sh.exec, claim)
    requires w.exec == sh.exec && w.pc.RecoverLog?
    ensures FinishesClaim(cfg, s, run', labels', t, claim) && Reached(cfg, s, run', labels', sh', t, w')
    ensures labels <= labels' && w'.kind == w.kind
    ensures Cleared(sh, claim, sh', w') && sh'.log == FinishedLog(sh, claim)
    ensures w'.messages == sh'.log[sh.exec.batch.value.useLastSequence - 1..]
  {
    hide WorkerStep, Reached, Confirmed, ActiveBatch, FinishesClaim, Cleared, FinishedLog;
    var sh1, w1;
    run', labels', sh1, w1 := ConfirmsFromLog(cfg, s, run, labels, sh, t, w, claim);
    sh', w' := ClaimClears(cfg, sh1, w1, claim);
    run', labels' := Onward(cfg, s, run', labels', sh1, t, w1, Save(Acked), sh', w');
    FinishedNow(cfg, s, run', labels', sh', t, w', claim, sh.exec.batch.value.useLastSequence);
    ClearedToo(sh1, sh, claim, sh', w');
  }

  lemma ClearedToo(sh: Shared, sh1: Shared, claim: Claim, sh': Shared, w: Worker)
    requires Cleared(sh, claim, sh', w) && sh1.exec == sh.exec
    ensures Cleared(sh1, claim, sh', w)
  {
  }

  lemma FinishedNow(cfg: Config, s: State, run: seq<State>, labels: seq<Label>, sh: Shared, t: nat, w: Worker,
                    claim: Claim, u: nat)
    requires Reached(cfg, s, run, labels, sh, t, w) && !HoldsClaim(sh.exec, claim) && cfg.start <= u <= |sh.log|
    requires Confirmed(sh.log[u..], claim)
    ensures FinishesClaim(cfg, s, run, labels, t, claim)
  {
    hide Steps, OwnSteps, ConfirmsClaim;
    var x :| x in Blocks(sh.log[u..]) && ConfirmsClaim(x, claim);
    assert sh.log[u..|sh.log|] == sh.log[u..];
    BlocksInside(sh.log, cfg.start, u, |sh.log|, x);
  }

  // ---- Who finishes it ---------------------------------------------------------------------------------------------

  ghost predicate AwaitsTools(e: Record) { e.status.StatusRunning? && e.phase.PhaseTools? && e.pendingPause.None? }

  /**
   In every state in which a claim waits for its outcome behind an active batch, a recovery that nobody disturbs makes
   the claimed outcome canonical, unless it already is, and finishes the claim.
   */
  lemma ClaimCanFinish(cfg: Config, s: State, t: nat, claim: Claim)
    returns (s1: State, run: seq<State>, labels: seq<Label>)
    requires AwaitsTools(s.sh.exec) && HoldsClaim(s.sh.exec, claim) && Finishable(cfg, s.sh, claim) && t !in s.workers
    ensures Next(cfg, s, Spawn(t, Reader(s.sh)), s1) && FinishesClaim(cfg, s1, run, labels, t, claim)
  {
    var sh, w;
    s1, run, labels, sh, w := ReaderFinishes(cfg, s, t, claim);
  }

  lemma ReaderFinishes(cfg: Config, s: State, t: nat, claim: Claim)
    returns (s1: State, run: seq<State>, labels: seq<Label>, sh: Shared, w: Worker)
    requires AwaitsTools(s.sh.exec) && HoldsClaim(s.sh.exec, claim) && Finishable(cfg, s.sh, claim) && t !in s.workers
    ensures Next(cfg, s, Spawn(t, Reader(s.sh)), s1) && FinishesClaim(cfg, s1, run, labels, t, claim)
    ensures Reached(cfg, s1, run, labels, sh, t, w) && w.kind.Recovery?
    ensures Cleared(s.sh, claim, sh, w) && sh.log == FinishedLog(s.sh, claim)
    ensures w.messages == sh.log[s.sh.exec.batch.value.useLastSequence - 1..]
  {
    s1 := s.(workers := s.workers[t := Reader(s.sh)]);
    assert s.sh.exec.batch.Some?;
    hide Finishable, FinishesClaim, Cleared, FinishedLog;
    assert Next(cfg, s, Spawn(t, Reader(s.sh)), s1);
    hide AwaitsTools, HoldsClaim, Next, Reached;
    Stays(cfg, s1, t);
    run, labels, sh, w := FinishesFromLog(cfg, s1, [s1], [], s.sh, t, Reader(s.sh), claim);
  }

  ghost function Resolver(sh: Shared, claim: Claim): Worker {
    Worker(Reconciliation, sh.exec, 0, 0, 0, [], 0, ResolveClaim(claim))
  }

  lemma ClaimRecorded(cfg: Config, sh: Shared, claim: Claim) returns (sh': Shared, w: Worker)
    requires Finishable(cfg, sh, claim)
    ensures WorkerStep(cfg, sh, Resolver(sh, claim), Save(Acked), sh', w) && Finishable(cfg, sh', claim)
    ensures HoldsClaim(sh'.exec, claim) && w.exec == sh'.exec && w.pc.RecoverLog? && sh'.log == sh.log
  {
    hide ActiveBatch, Confirmed, AllPlanned, ResultIds;
    var b := sh.exec.batch.value;
    sh' := Saved(sh, sh.exec.(batch := Some(b.(resolution := Some(claim)))),
                 ResolveHistory(sh.hist, claim.callId, sh.exec.version));
    w := AfterSave(Resolver(sh, claim), sh'.exec);
  }

  /**
   In every reachable state with an uncertain call in an active batch without a claim, a reconciliation that nobody
   disturbs records its success or failure claim, makes it canonical and finishes it, all by itself.
   */
  lemma ReconciliationCanFinish(cfg: Config, run: seq<State>, labels: seq<Label>, t: nat, claim: Claim, c: ToolCall)
    returns (s: State, more: seq<State>, steps: seq<Label>)
    requires IsRun(cfg, run, labels) && t !in run[|labels|].workers && Finishable(cfg, run[|labels|].sh, claim)
    requires var b := run[|labels|].sh.exec.batch.value; b.resolution.None? && c in b.calls
    requires c.status.InFlight? && c.callId == claim.callId && !claim.outcome.Retry?
    ensures Next(cfg, run[|labels|], Spawn(t, Resolver(run[|labels|].sh, claim)), s)
    ensures FinishesClaim(cfg, s, more, steps, t, claim)
    ensures |steps| > 0 && steps[0] == Act(t, Save(Acked))
  {
    RunLength(cfg, run, labels);
    var start := run[|labels|];
    hide IsRun, Inv, Next, WorkerStep, Finishable, FinishesClaim;
    RunInv(cfg, run, labels, |labels|);
    CurrentDistinct(cfg, start);
    s := ResolverSpawns(cfg, start, t, claim, c);
    var sh1, w1 := ClaimRecorded(cfg, start.sh, claim);
    hide *;
    Stays(cfg, s, t);
    more, steps := Onward(cfg, s, [s], [], s.sh, t, s.workers[t], Save(Acked), sh1, w1);
    var sh2, w2;
    var first := steps;
    more, steps, sh2, w2 := FinishesFromLog(cfg, s, more, steps, sh1, t, w1, claim);
  }

  lemma ResolverSpawns(cfg: Config, s: State, t: nat, claim: Claim, c: ToolCall) returns (s': State)
    requires t !in s.workers && s.sh.exec.batch.Some? && DistinctIds(s.sh.exec.batch.value.calls)
    requires var b := s.sh.exec.batch.value; b.resolution.None? && c in b.calls
    requires c.status.InFlight? && c.callId == claim.callId && !claim.outcome.Retry?
    ensures Next(cfg, s, Spawn(t, Resolver(s.sh, claim)), s')
    ensures s'.sh == s.sh && t in s'.workers && s'.workers[t] == Resolver(s.sh, claim)
  {
    OnlyCall(s.sh.exec.batch.value.calls, c);
    s' := s.(workers := s.workers[t := Resolver(s.sh, claim)]);
  }

  /**
   A pause that was recorded but never shown survives its worker: in every state with a pending pause a recovery can
   make it the record's pause, exactly as recorded, without starting a handler or touching the log.
   */
  lemma PendingPauseIsRecovered(cfg: Config, s: State, t: nat) returns (s1: State, s2: State)
    requires s.sh.exec.pendingPause.Some? && t !in s.workers
    ensures Next(cfg, s, Spawn(t, Worker(Recovery, s.sh.exec, 0, 0, 0, [], 0, ProjectPause)), s1)
    ensures Next(cfg, s1, Act(t, Save(Acked)), s2) && s2.sh.log == s.sh.log
    ensures var e, e' := s.sh.exec, s2.sh.exec;
      e'.status.StatusPaused? && e'.phase.PhasePaused? && e'.pause == e.pendingPause && e'.pendingPause.None? &&
      e'.batch == e.batch && e'.version == e.version + 1
  {
    var w := Worker(Recovery, s.sh.exec, 0, 0, 0, [], 0, ProjectPause);
    s1 := s.(workers := s.workers[t := w]);
    var sh := Saved(s.sh, s.sh.exec.(status := StatusPaused, phase := PhasePaused, pause := s.sh.exec.pendingPause,
                                     pendingPause := None), s.sh.hist);
    var w' := AfterSave(w, sh.exec);
    assert WorkerStep(cfg, s.sh, w, Save(Acked), sh, w');
    s2 := State(sh, s1.workers[t := w']);
  }

  // ---- A recovery goes on ------------------------------------------------------------------------------------------

  /** Nothing but the claimed call needs a human. */
  ghost predicate OthersCertain(e: Record, claim: Claim) {
    e.batch.Some? && forall c | c in e.batch.value.calls ::
      !c.status.Planned? && (c.status.InFlight? ==> c.replaySafe || c.callId == claim.callId)
  }

  lemma StillActive(cfg: Config, sh: Shared, claim: Claim, x: ToolCall)
    requires Finishable(cfg, sh, claim) && x in sh.exec.batch.value.calls && x.callId == claim.callId
    ensures ActiveBatch(cfg.hash, FinishedLog(sh, claim)[sh.exec.batch.value.useLastSequence - 1..],
                        sh.exec.batch.value.calls)
  {
    var u := sh.exec.batch.value.useLastSequence;
    var log := FinishedLog(sh, claim);
    if log != sh.log {
      var m := ResultMsg([ClaimResult(claim)]);
      assert log[u - 1..] == sh.log[u - 1..] + [m] && sh.log[u - 1..][1..] == sh.log[u..];
      hide FinishedLog;
      ActiveGrows(cfg, sh.log[u - 1..], sh.exec.batch.value.calls, claim, x);
    }
  }

  lemma ActiveGrows(cfg: Config, ms: seq<Message>, calls: seq<ToolCall>, claim: Claim, x: ToolCall)
    requires ActiveBatch(cfg.hash, ms, calls) && x in calls && x.callId == claim.callId
    requires claim.callId !in ResultIds(ms[1..])
    ensures ActiveBatch(cfg.hash, ms + [ResultMsg([ClaimResult(claim)])], calls)
  {
    var m := ResultMsg([ClaimResult(claim)]);
    assert (ms + [m])[0] == ms[0] && (ms + [m])[1..] == ms[1..] + [m];
    hide UseMatches;
    ResultIdsConcat(ms[1..], [m]);
    SingleBlocks(m);
    assert ResultsOf(m.content[1..]) == [];
    assert ResultIds([m]) == [claim.callId];
  }

  lemma ClearedIsRecoverable(cfg: Config, sh: Shared, claim: Claim, sh': Shared, w: Worker, x: ToolCall, c: ToolCall)
    requires Finishable(cfg, sh, claim) && AwaitsTools(sh.exec) && OthersCertain(sh.exec, claim)
    requires DistinctIds(sh.exec.batch.value.calls)
    requires Cleared(sh, claim, sh', w) && sh'.log == FinishedLog(sh, claim) && w.kind.Recovery?
    requires x in sh.exec.batch.value.calls && x.callId == claim.callId
    requires Replayable(sh, c) && c.callId != claim.callId
    ensures Recoverable(cfg, sh') && Replayable(sh', c) && Holds(sh', w, c) && w.pc.Inspect?
    ensures sh'.exec.batch.value.useLastSequence == sh.exec.batch.value.useLastSequence
  {
    var calls, u := sh.exec.batch.value.calls, sh.exec.batch.value.useLastSequence;
    var calls' := CompleteCalls(calls, {claim.callId});
    KeptCall(calls, {claim.callId}, c);
    StillActive(cfg, sh, claim, x);
    CompletedSame(calls, claim);
    SameActive(cfg, sh'.log[u - 1..], calls, calls');
    OtherUnanswered(sh, claim, c);
    hide ActiveBatch, FinishedLog, DistinctIds, SameCalls, CompleteCalls, ResultIds, AllPlanned, Confirmed;
  }

  lemma CompletedSame(calls: seq<ToolCall>, claim: Claim)
    requires forall c | c in calls ::
      !c.status.Planned? && (c.status.InFlight? ==> c.replaySafe || c.callId == claim.callId)
    ensures var calls' := CompleteCalls(calls, {claim.callId});
      SameCalls(calls, calls') && forall c | c in calls' :: !c.status.Planned? && (c.status.InFlight? ==> c.replaySafe)
  {
    var calls' := CompleteCalls(calls, {claim.callId});
    forall c | c in calls' ensures !c.status.Planned? && (c.status.InFlight? ==> c.replaySafe) {
      var i :| 0 <= i < |calls| && calls'[i] == c;
      assert calls[i] in calls;
    }
  }

  lemma OtherUnanswered(sh: Shared, claim: Claim, c: ToolCall)
    requires sh.exec.batch.Some? && sh.exec.batch.value.useLastSequence <= |sh.log| && c.callId != claim.callId
    requires c.callId !in ResultIds(sh.log[sh.exec.batch.value.useLastSequence..])
    ensures c.callId !in ResultIds(FinishedLog(sh, claim)[sh.exec.batch.value.useLastSequence..])
  {
    var u, log := sh.exec.batch.value.useLastSequence, FinishedLog(sh, claim);
    if log != sh.log {
      var m := ResultMsg([ClaimResult(claim)]);
      assert log[u..] == sh.log[u..] + [m];
      ResultIdsConcat(sh.log[u..], [m]);
      SingleBlocks(m);
      assert ResultsOf(m.content[1..]) == [];
    }
  }

  /**
   In every reachable state with an unfinished claim of an active batch, a recovery that nobody disturbs finishes the
   claim and then starts any other call of the batch that is ready, or in flight and replay-safe.
   */
  lemma RecoveryFinishesThenStarts(cfg: Config, run: seq<State>, labels: seq<Label>, t: nat, claim: Claim, c: ToolCall)
    returns (s: State, first: seq<State>, k: nat, more: seq<State>, steps: seq<Label>)
    requires IsRun(cfg, run, labels) && t !in run[|labels|].workers
    requires var sh := run[|labels|].sh;
      AwaitsTools(sh.exec) && HoldsClaim(sh.exec, claim) && Finishable(cfg, sh, claim) &&
      OthersCertain(sh.exec, claim) && Replayable(sh, c) && c.callId != claim.callId
    ensures Next(cfg, run[|labels|], Spawn(t, Reader(run[|labels|].sh)), s) && StartsLast(cfg, s, more, steps, t, c)
    ensures k <= |steps| && FinishesClaim(cfg, s, first, steps[..k], t, claim)
  {
    RunLength(cfg, run, labels);
    var start := run[|labels|];
    hide IsRun, Inv;
    RunInv(cfg, run, labels, |labels|);
    CurrentDistinct(cfg, start);
    var x := ClaimedCall(cfg, start, claim);
    assert Resumable(cfg, start.sh, claim, x, c);
    hide *;
    s, first, k, more, steps := ReaderFinishesThenStarts(cfg, start, t, claim, x, c);
  }

  lemma ClaimedCall(cfg: Config, s: State, claim: Claim) returns (x: ToolCall)
    requires Inv(cfg, s) && HoldsClaim(s.sh.exec, claim)
    ensures x in s.sh.exec.batch.value.calls && x.callId == claim.callId
  {
    SharedHolds(cfg, s);
    hide Inv;
    assert claim.callId in CallIds(s.sh.exec.batch.value.calls);
    x :| x in s.sh.exec.batch.value.calls && x.callId == claim.callId;
  }

  ghost predicate Resumable(cfg: Config, sh: Shared, claim: Claim, x: ToolCall, c: ToolCall) {
    AwaitsTools(sh.exec) && HoldsClaim(sh.exec, claim) && Finishable(cfg, sh, claim) &&
    OthersCertain(sh.exec, claim) && DistinctIds(sh.exec.batch.value.calls) &&
    x in sh.exec.batch.value.calls && x.callId == claim.callId && Replayable(sh, c) && c.callId != claim.callId
  }

  lemma ReaderFinishesThenStarts(cfg: Config, start: State, t: nat, claim: Claim, x: ToolCall, c: ToolCall)
    returns (s: State, first: seq<State>, k: nat, more: seq<State>, steps: seq<Label>)
    requires Resumable(cfg, start.sh, claim, x, c) && t !in start.workers
    ensures Next(cfg, start, Spawn(t, Reader(start.sh)), s) && StartsLast(cfg, s, more, steps, t, c)
    ensures k <= |steps| && FinishesClaim(cfg, s, first, steps[..k], t, claim)
  {
    hide Finishable, HoldsClaim, OthersCertain, Replayable, AwaitsTools, DistinctIds, FinishesClaim, StartsLast, Next,
         Reached, Cleared, FinishedLog;
    var begun, sh, w;
    s, first, begun, sh, w := ReaderFinishes(cfg, start, t, claim);
    ClearedIsRecoverable(cfg, start.sh, claim, sh, w, x, c);
    hide *;
    more, steps := StartsFromInspect(cfg, s, first, begun, sh, t, w, c);
    k := |begun|;
    assert steps[..k] == begun;
  }
}
