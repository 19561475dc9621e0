/** Claims in the record. */
module ProtocolClaims {
  import opened Messages
  import opened Execution
  import opened ToolBatch
  import opened Protocol
  import opened ProtocolInvariant
  import opened ProtocolSaves
  import opened ProtocolRuns
  import opened ProtocolTheorems

  // When a manual claim may leave the record.

  ghost predicate HoldsClaim(e: Record, claim: Claim) { e.batch.Some? && e.batch.value.resolution == Some(claim) }

  /** The transcript carries the claimed outcome: the call's single result says what was claimed. */
  ghost predicate ClaimIsCanonical(cfg: Config, log: seq<Message>, claim: Claim) {
    cfg.start <= |log| && ResultCount(cfg, log, claim.callId) == 1 &&
    exists x | x in Blocks(log[cfg.start..]) :: ConfirmsClaim(x, claim)
  }

  /** What confirming means: the claimed call, with the error flag of the claim and the text that it gives. */
  lemma ConfirmingSays(x: Block, claim: Claim)
    ensures ConfirmsClaim(x, claim) <==>
      x.ToolResult? && x.id == claim.callId && (x.isError <==> claim.outcome.Failed?) &&
      x.content == (if !claim.outcome.Failed? || claim.output != "" then claim.output
                    else if claim.errorMessage != "" then claim.errorMessage else "tool execution failed")
  {
  }

  // ---- Which saves drop a claim ---------------------------------------------------------------------

  /** Saves that are about something else carry the claim along. */
  lemma SaveKeepsClaim(cfg: Config, w: Worker, claim: Claim, next: Record)
    requires HoldsClaim(w.exec, claim) && SaveTarget(cfg, w) == Some(next)
    requires !w.pc.MarkingReady? && !w.pc.PrepareAck? && !w.pc.CommitAck? && !w.pc.RecoverAck? && !w.pc.ClaimClear? &&
      !w.pc.ResolveClaim?
    ensures HoldsClaim(next, claim)
  {
  }

  /** Recovery completes calls only in a record without a claim, and a claimed call is not resolved again. */
  lemma HolderHasNoClaim(cfg: Config, sh: Shared, w: Worker)
    requires PcOk(cfg, sh, w)
    requires w.pc.RecoverAck? || w.pc.ResolveClaim? || ((w.pc.PrepareAck? || w.pc.CommitAck?) && !w.kind.Invocation?)
    ensures w.exec.batch.Some? && w.exec.batch.value.resolution.None?
  {
  }

  lemma PlannedHasNoClaim(cfg: Config, sh: Shared, e: Record)
    requires RecordOk(cfg, sh.log, e, sh.hist)
    ensures e.batch.Some? && AllPlanned(e.batch.value.calls) ==> e.batch.value.resolution.None?
  {
    if e.batch.Some? {
      assert e.batch.value.calls[0] in e.batch.value.calls;
    }
  }

  /** A save drops a claim only to finish it, or as the acknowledgement of an invocation. */
  lemma WhoDropsClaim(cfg: Config, sh: Shared, w: Worker, claim: Claim, next: Record)
    requires WorkerInv(cfg, sh, w) && HoldsClaim(w.exec, claim) && SaveTarget(cfg, w) == Some(next) &&
      !HoldsClaim(next, claim)
    ensures w.pc == ClaimClear(claim) || (w.kind.Invocation? && (w.pc.PrepareAck? || w.pc.CommitAck?))
  {
    if w.pc.MarkingReady? {
      PlannedHasNoClaim(cfg, sh, w.exec);
    } else if w.pc.PrepareAck? || w.pc.CommitAck? || w.pc.RecoverAck? || w.pc.ResolveClaim? {
      hide RecordOk, PcOk;
      if !w.kind.Invocation? || w.pc.RecoverAck? || w.pc.ResolveClaim? { HolderHasNoClaim(cfg, sh, w); }
    } else if w.pc.ClaimClear? {
      hide RecordOk, Confirmed;
      assert Claiming(sh, w, w.pc.claim);
    } else {
      hide WorkerInv, HoldsClaim;
      SaveKeepsClaim(cfg, w, claim, next);
    }
  }

  lemma ClearIsCanonical(cfg: Config, sh: Shared, w: Worker, claim: Claim)
    requires LogOk(cfg, sh.log, sh.hist) && RecordOk(cfg, sh.log, w.exec, sh.hist) && ClaimClearOk(sh, w, claim)
    ensures ClaimIsCanonical(cfg, sh.log, claim)
  {
    var u := w.exec.batch.value.useLastSequence;
    ReadyIndexed(cfg, sh.log, w.exec, sh.hist);
    var x :| x in Blocks(sh.log[u..w.lastSequence]) && ConfirmsClaim(x, claim);
    BlocksInside(sh.log, cfg.start, u, w.lastSequence, x);
    ClaimIsOwn(cfg, sh, w.exec, claim);
    hide RecordOk, ReadyFacts;
    ConfirmedOnce(cfg, sh, claim, x);
  }

  lemma ClaimIsOwn(cfg: Config, sh: Shared, e: Record, claim: Claim)
    requires RecordOk(cfg, sh.log, e, sh.hist) && HoldsClaim(e, claim)
    ensures cfg.own(claim.callId)
  {
    var c :| c in e.batch.value.calls && c.callId == claim.callId;
  }

  /** A call of this execution has at most one result, so one that confirms the claim makes it canonical. */
  lemma ConfirmedOnce(cfg: Config, sh: Shared, claim: Claim, x: Block)
    requires LogOk(cfg, sh.log, sh.hist) && cfg.own(claim.callId) && x in Blocks(sh.log[cfg.start..]) &&
      ConfirmsClaim(x, claim)
    ensures ClaimIsCanonical(cfg, sh.log, claim)
  {
    ResultsOfMember(Blocks(sh.log[cfg.start..]), claim.callId);
    CountMember(ResultIds(sh.log[cfg.start..]), claim.callId);
  }

  lemma BlocksInside(log: seq<Message>, a: nat, b: nat, c: nat, x: Block)
    requires a <= b <= c <= |log| && x in Blocks(log[b..c])
    ensures x in Blocks(log[a..])
  {
    assert log[a..] == log[a..b] + log[b..c] + log[c..];
    BlocksConcat(log[a..b] + log[b..c], log[c..]);
    BlocksConcat(log[a..b], log[b..c]);
  }

  lemma BeginKeepsClaim(e: Record, id: string, recovering: bool, next: Record, claim: Claim)
    requires BeginCall(e, id, recovering) == Claimed(next)
    ensures HoldsClaim(next, claim) <==> HoldsClaim(e, claim)
  {
  }

  lemma DroppedByClear(cfg: Config, s: State, l: Label, s': State, claim: Claim)
    requires Inv(cfg, s) && Next(cfg, s, l, s')
    requires HoldsClaim(s.sh.exec, claim) && !HoldsClaim(s'.sh.exec, claim)
    ensures l.Act? && l.a.Save? && l.t in s.workers && HoldsClaim(s.workers[l.t].exec, claim)
    ensures var w := s.workers[l.t];
      w.pc == ClaimClear(claim) || (w.kind.Invocation? && (w.pc.PrepareAck? || w.pc.CommitAck?))
  {
    hide SharedInv, WorkerInv, SaveTarget, HistoryAfter, AfterSave, BeginCall, Collected, Inspected, Checked, Opened,
         AfterAppend, Loaded, PlanAllowed, MayBegin, MaySettle, MayFinish, LastMatch, ActiveBatch;
    assert l.Act? && l.t in s.workers && (l.a.Save? || l.a.Begin? || l.a.Finalize?);
    var w := s.workers[l.t];
    assert w.exec.version == s.sh.exec.version;
    HoldsCurrent(cfg, s.sh, w);
    if l.a.Begin? {
      var id := w.pc.d.calls[l.a.i].callId;
      var begun := BeginCall(w.exec, id, !w.kind.Invocation?);
      assert begun.Claimed?;
      BeginKeepsClaim(w.exec, id, !w.kind.Invocation?, begun.r, claim);
    } else if l.a.Save? {
      WhoDropsClaim(cfg, s.sh, w, claim, SaveTarget(cfg, w).value);
    }
  }

  lemma ClearStepCanonical(cfg: Config, s: State, t: nat, claim: Claim)
    requires Inv(cfg, s) && t in s.workers && s.workers[t].pc == ClaimClear(claim)
    ensures ClaimIsCanonical(cfg, s.sh.log, claim)
  {
    assert WorkerInv(cfg, s.sh, s.workers[t]);
    assert ClaimClearOk(s.sh, s.workers[t], claim);
    hide ClaimClearOk, PcOk, RecordOk, LogOk, CurrentOk, GrantsOk, ClaimsOk, StartsOk;
    ClearIsCanonical(cfg, s.sh, s.workers[t], claim);
  }

  // ---- Where an invocation has a claim from -----------------------------------------------------------------

  /** An invocation that works on the record: a resume only once it has reloaded the record that it took. */
  predicate Working(w: Worker) {
    w.kind.Invocation? && !w.pc.ResumeClaim? && !w.pc.ResumeReload? && !w.pc.Exit? && !w.pc.Done?
  }

  /** At step `j` worker `t`, alive from then until `k`, reloads a record that carries the claim. */
  ghost predicate ReadsClaim(run: seq<State>, labels: seq<Label>, t: nat, claim: Claim, j: nat, k: nat)
    requires j < k <= |labels| && |run| == |labels| + 1
  {
    labels[j] == Act(t, LoadRecord) && HoldsClaim(run[j].sh.exec, claim) &&
    forall i | j <= i <= k :: t in run[i].workers
  }

  ghost predicate HasReadClaim(run: seq<State>, labels: seq<Label>, t: nat, claim: Claim, k: nat) {
    k <= |labels| && |run| == |labels| + 1 && exists j | 0 <= j < k :: ReadsClaim(run, labels, t, claim, j, k)
  }

  /** No save of an invocation puts a claim into the record. */
  lemma SaveAddsNoClaim(cfg: Config, sh: Shared, w: Worker, claim: Claim, next: Record)
    requires PcOk(cfg, sh, w) && w.kind.Invocation? && SaveTarget(cfg, w) == Some(next) && HoldsClaim(next, claim)
    ensures HoldsClaim(w.exec, claim)
  {
    assert !w.pc.ResolveClaim?;
    hide PcOk;
  }

  lemma WorkingAfterSave(w: Worker, saved: Record)
    requires Saves(w.pc) && Working(AfterSave(w, saved))
    ensures Working(w)
  {
  }

  /** A working invocation has its claim from its own reload, or had it before. */
  lemma ClaimSource(cfg: Config, s: State, l: Label, s': State, t: nat, claim: Claim)
    requires Inv(cfg, s) && Next(cfg, s, l, s') && t in s'.workers && Working(s'.workers[t]) &&
      HoldsClaim(s'.workers[t].exec, claim)
    ensures t in s.workers
    ensures (l == Act(t, LoadRecord) && HoldsClaim(s.sh.exec, claim)) ||
      (Working(s.workers[t]) && HoldsClaim(s.workers[t].exec, claim))
  {
    hide SharedInv, WorkerStep, HoldsClaim;
    if l.Act? && l.t == t {
      var w := s.workers[t];
      assert WorkerInv(cfg, s.sh, w) && PcOk(cfg, s.sh, w);
      hide WorkerInv, PcOk, Working;
      ActSource(cfg, s.sh, w, l.a, s'.sh, s'.workers[t], claim);
    }
  }

  lemma ActSource(cfg: Config, sh: Shared, w: Worker, a: Action, sh': Shared, w': Worker, claim: Claim)
    requires PcOk(cfg, sh, w) && WorkerStep(cfg, sh, w, a, sh', w') && Working(w') && HoldsClaim(w'.exec, claim)
    ensures (a.LoadRecord? && HoldsClaim(sh.exec, claim)) || (Working(w) && HoldsClaim(w.exec, claim))
  {
    hide PcOk, HoldsClaim;
    match a
    case Save(reply) => hide WorkerStep; SavedSource(cfg, sh, w, reply, sh', w', claim);
    case Begin(i, reply) => hide WorkerStep; BegunSource(cfg, sh, w, i, reply, sh', w', claim);
    case Append(reply) => AppendedSource(sh, w, reply, sh', w');
    case LoadRecord =>
    case _ => hide WorkerStep; OtherSource(cfg, sh, w, a, sh', w');
  }

  lemma OtherSource(cfg: Config, sh: Shared, w: Worker, a: Action, sh': Shared, w': Worker)
    requires WorkerStep(cfg, sh, w, a, sh', w') && Working(w')
    requires !a.Save? && !a.Begin? && !a.Append? && !a.LoadRecord?
    ensures Working(w) && w'.exec == w.exec
  {
    hide PlanAllowed, MaySettle, MayFinish, LastMatch, ActiveBatch, BeginStep, AppendStep, SaveTarget, HistoryAfter;
    hide AfterSave, Remaining, DefinitiveBlocks, Converted, PendingIds, ResultIds, ConfirmsClaim, ClaimResult;
  }

  lemma SavedSource(cfg: Config, sh: Shared, w: Worker, reply: Reply, sh': Shared, w': Worker, claim: Claim)
    requires PcOk(cfg, sh, w) && WorkerStep(cfg, sh, w, Save(reply), sh', w') && Working(w') &&
      HoldsClaim(w'.exec, claim)
    ensures Working(w) && HoldsClaim(w.exec, claim)
  {
    hide PcOk, SaveTarget, HistoryAfter, AfterSave;
    var next := SaveTarget(cfg, w).value;
    AfterSaveKind(w, next.(version := sh.exec.version + 1));
    WorkingAfterSave(w, next.(version := sh.exec.version + 1));
    SaveAddsNoClaim(cfg, sh, w, claim, next);
  }

  lemma AfterSaveKind(w: Worker, saved: Record)
    ensures AfterSave(w, saved).kind == w.kind && AfterSave(w, saved).exec == saved
  {
  }

  lemma BegunSource(cfg: Config, sh: Shared, w: Worker, i: nat, reply: Reply, sh': Shared, w': Worker, claim: Claim)
    requires WorkerStep(cfg, sh, w, Begin(i, reply), sh', w') && Working(w') && HoldsClaim(w'.exec, claim)
    ensures Working(w) && HoldsClaim(w.exec, claim)
  {
    hide BeginCall, MayBegin;
    var id := w.pc.d.calls[i].callId;
    var begun := BeginCall(w.exec, id, !w.kind.Invocation?);
    if begun.Claimed? { BeginKeepsClaim(w.exec, id, !w.kind.Invocation?, begun.r, claim); }
  }

  lemma AppendedSource(sh: Shared, w: Worker, reply: Reply, sh': Shared, w': Worker)
    requires AppendStep(sh, w, reply, sh', w') && Working(w')
    requires w.pc.Loop? || w.pc.AppendUse? || w.pc.CommitAppend? || w.pc.ClaimAppend?
    ensures Working(w) && w'.exec == w.exec
  {
  }

  lemma StartHasNoClaim(cfg: Config, s: State, t: nat, claim: Claim)
    requires Init(cfg, s) && t in s.workers
    ensures !HoldsClaim(s.workers[t].exec, claim)
  {
    assert t in s.workers.Keys;
  }

  lemma {:induction false} ClaimWasRead(cfg: Config, run: seq<State>, labels: seq<Label>, k: nat, t: nat, claim: Claim)
    requires IsRun(cfg, run, labels) && k <= |labels|
    requires t in run[k].workers && Working(run[k].workers[t]) && HoldsClaim(run[k].workers[t].exec, claim)
    ensures HasReadClaim(run, labels, t, claim, k)
  {
    hide Inv, Next, Init, HoldsClaim, Working;
    if k == 0 {
      StartHasNoClaim(cfg, run[0], t, claim);
    } else {
      RunInv(cfg, run, labels, k - 1);
      ClaimSource(cfg, run[k - 1], labels[k - 1], run[k], t, claim);
      if labels[k - 1] == Act(t, LoadRecord) && HoldsClaim(run[k - 1].sh.exec, claim) {
        assert ReadsClaim(run, labels, t, claim, k - 1, k);
      } else {
        ClaimWasRead(cfg, run, labels, k - 1, t, claim);
        var j :| 0 <= j < k - 1 && ReadsClaim(run, labels, t, claim, j, k - 1);
        assert ReadsClaim(run, labels, t, claim, j, k);
      }
    }
  }

  // ---- Over whole runs ------------------------------------------------------------------------------------------

  /**
   A claim whose outcome is not canonical is lost only to the acknowledgement of an invocation that reloaded the
   record with this very claim in it.
   */
  lemma ClaimLostOnlyToResume(cfg: Config, run: seq<State>, labels: seq<Label>, k: nat, claim: Claim)
    requires IsRun(cfg, run, labels) && k < |labels| && !ClaimIsCanonical(cfg, run[k].sh.log, claim)
    requires HoldsClaim(run[k].sh.exec, claim) && !HoldsClaim(run[k + 1].sh.exec, claim)
    ensures labels[k].Act? && labels[k].a.Save? && labels[k].t in run[k].workers
    ensures var w := run[k].workers[labels[k].t]; w.kind.Invocation? && (w.pc.PrepareAck? || w.pc.CommitAck?)
    ensures HasReadClaim(run, labels, labels[k].t, claim, k)
  {
    hide IsRun, Inv, Next, Recorded, HoldsClaim, ClaimIsCanonical, HasReadClaim;
    RunLength(cfg, run, labels);
    RunStep(cfg, run, labels, k);
    RunInv(cfg, run, labels, k);
    DroppedByClear(cfg, run[k], labels[k], run[k + 1], claim);
    if run[k].workers[labels[k].t].pc == ClaimClear(claim) {
      ClearStepCanonical(cfg, run[k], labels[k].t, claim);
    }
    ClaimWasRead(cfg, run, labels, k, labels[k].t, claim);
  }

  /**
   A saved claim leaves the record only when the call's single canonical result has the claimed content and error
   flag, unless the worker that saves is a resume that reloaded the record with this claim in it.
   */
  lemma ClaimClearedOnlyWhenCanonical(cfg: Config, run: seq<State>, labels: seq<Label>, k: nat, claim: Claim)
    requires IsRun(cfg, run, labels) && k < |labels|
    requires HoldsClaim(run[k].sh.exec, claim) && !HoldsClaim(run[k + 1].sh.exec, claim)
    requires labels[k].Act? ==> !HasReadClaim(run, labels, labels[k].t, claim, k)
    ensures ClaimIsCanonical(cfg, run[k].sh.log, claim)
  {
    RunLength(cfg, run, labels);
    hide IsRun, Inv, Next, Recorded, HoldsClaim, ClaimIsCanonical, HasReadClaim;
    if !ClaimIsCanonical(cfg, run[k].sh.log, claim) {
      ClaimLostOnlyToResume(cfg, run, labels, k, claim);
    }
  }
}
