/**
 Every save step of a worker keeps the shared invariant and the worker's own.

 The record changes of module ProtocolSaves are tied to the program counters that make them, and the worker that
 continues after the acknowledgement is shown to rely only on what the save established.
 */
module ProtocolSaveSteps {
  import opened Messages
  import opened Execution
  import opened ToolBatch
  import opened Protocol
  import opened ProtocolInvariant
  import opened ProtocolSaves

  /** The worker's save takes effect: it holds the current record and its change is accepted. */
  ghost predicate Taking(cfg: Config, sh: Shared, w: Worker, next: Record, sh': Shared) {
    SharedInv(cfg, sh) && WorkerInv(cfg, sh, w) && Saves(w.pc) && w.exec == sh.exec &&
    SaveTarget(cfg, w) == Some(next) &&
    sh' == Saved(sh, next, HistoryAfter(sh, w))
  }

  lemma SaveExtends(sh: Shared, next: Record, h: History, sh': Shared)
    requires sh' == Saved(sh, next, h) && sh.hist.readied <= h.readied && sh.hist.allowed <= h.allowed
    ensures Extends(sh, sh') && Coherent(sh', sh'.exec)
  {
  }

  /** A worker that needs no log copy any more is fine with any record that is fine. */
  lemma AtRest(cfg: Config, sh: Shared, w: Worker)
    requires RecordOk(cfg, sh.log, sh.exec, sh.hist) && w.exec == sh.exec &&
      (w.pc.Done? || (w.pc.Exit? && w.kind.Invocation?))
    ensures WorkerInv(cfg, sh, w)
  {
  }

  // ---- Plain saves ---------------------------------------------------------------------

  lemma PlainShared(cfg: Config, sh: Shared, w: Worker, next: Record, sh': Shared)
    requires Taking(cfg, sh, w, next, sh')
    requires w.pc.Loop? || w.pc.SavePendingPause? || w.pc.SavePause? || w.pc.ResumeClaim? || w.pc.ProjectPause?
    ensures SharedInv(cfg, sh')
  {
    PauseFacts(cfg, sh, w, next);
    hide LogOk, RecordOk, CurrentOk, GrantsOk, ClaimsOk, StartsOk;
    PlainKeeps(cfg, sh, next, sh'.hist, sh');
  }

  lemma PauseFacts(cfg: Config, sh: Shared, w: Worker, next: Record)
    requires WorkerInv(cfg, sh, w) && SaveTarget(cfg, w) == Some(next)
    requires w.pc.Loop? || w.pc.SavePendingPause? || w.pc.SavePause? || w.pc.ResumeClaim? || w.pc.ProjectPause?
    ensures next.id == w.exec.id && next.batch == w.exec.batch
    ensures next.lastSequence == w.exec.lastSequence || (next.batch.Some? ==> next.batch.value.useLastSequence > 0)
    ensures next.pause.Some? ==> PauseOk(next.pause.value, sh.hist)
    ensures next.pendingPause.Some? ==> PauseOk(next.pendingPause.value, sh.hist)
  {
  }

  lemma LoopWorker(cfg: Config, sh: Shared, w: Worker, next: Record, sh': Shared)
    requires Taking(cfg, sh, w, next, sh') && w.pc.Loop? && RecordOk(cfg, sh'.log, sh'.exec, sh'.hist)
    ensures WorkerInv(cfg, sh', AfterSave(w, sh'.exec))
  {
    hide SharedInv, RecordOk;
  }

  lemma PendingPauseWorker(cfg: Config, sh: Shared, w: Worker, next: Record, sh': Shared)
    requires Taking(cfg, sh, w, next, sh') && w.pc.SavePendingPause? && RecordOk(cfg, sh'.log, sh'.exec, sh'.hist)
    ensures WorkerInv(cfg, sh', AfterSave(w, sh'.exec))
  {
    hide SharedInv, RecordOk;
    var v := AfterSave(w, sh'.exec);
    assert v.messages[..v.persistedCount] == w.messages[..w.persistedCount];
    assert Seen(sh', v) == Seen(sh, w);
  }

  lemma ResumeClaimWorker(cfg: Config, sh: Shared, w: Worker, next: Record, sh': Shared)
    requires Taking(cfg, sh, w, next, sh') && w.pc.ResumeClaim? && RecordOk(cfg, sh'.log, sh'.exec, sh'.hist)
    ensures WorkerInv(cfg, sh', AfterSave(w, sh'.exec))
  {
    hide SharedInv;
  }

  // ---- Acknowledgements -------------------------------------------------------------------

  lemma AckWorker(cfg: Config, sh: Shared, w: Worker, done: set<string>, sh': Shared)
    requires WorkerInv(cfg, sh, w) && HasLog(w.pc) && Flushed(w) && Holding(sh, w)
    requires sh' == Saved(sh, Acknowledge(w.exec, done, w.revision, w.lastSequence), sh.hist)
    ensures sh'.exec.batch.Some? ==>
      Holding(sh', w.(exec := sh'.exec)) && Seen(sh', w.(exec := sh'.exec)) == Seen(sh, w)
    ensures sh'.exec.batch.Some? ==>
      forall c | c in sh'.exec.batch.value.calls && !c.status.Completed? :: c.callId !in done
    ensures LogCopy(cfg, sh', w.(exec := sh'.exec))
  {
  }

  lemma PrepareAckWorker(cfg: Config, sh: Shared, w: Worker, sh': Shared)
    requires WorkerInv(cfg, sh, w) && w.pc.PrepareAck? && RecordOk(cfg, sh'.log, sh'.exec, sh'.hist)
    requires sh' == Saved(sh, Acknowledge(w.exec, w.pc.done, w.revision, w.lastSequence), sh.hist)
    ensures WorkerInv(cfg, sh', AfterSave(w, sh'.exec))
  {
    hide RecordOk, Acknowledge;
    AckWorker(cfg, sh, w, w.pc.done, sh');
  }

  lemma CommitAckWorker(cfg: Config, sh: Shared, w: Worker, sh': Shared)
    requires WorkerInv(cfg, sh, w) && w.pc.CommitAck? && RecordOk(cfg, sh'.log, sh'.exec, sh'.hist)
    requires sh' == Saved(sh, Acknowledge(w.exec, w.pc.done, w.revision, w.lastSequence), sh.hist)
    ensures WorkerInv(cfg, sh', AfterSave(w, sh'.exec))
  {
    hide RecordOk, Acknowledge;
    AckWorker(cfg, sh, w, w.pc.done, sh');
  }

  lemma RecoverAckWorker(cfg: Config, sh: Shared, w: Worker, sh': Shared)
    requires WorkerInv(cfg, sh, w) && w.pc.RecoverAck? && RecordOk(cfg, sh'.log, sh'.exec, sh'.hist)
    requires sh' == Saved(sh, Acknowledge(w.exec, w.pc.done, w.revision, w.lastSequence), sh.hist)
    ensures WorkerInv(cfg, sh', AfterSave(w, sh'.exec))
  {
    hide RecordOk, Acknowledge;
    AckWorker(cfg, sh, w, w.pc.done, sh');
  }

  // ---- Decisions and claims ------------------------------------------------------------------

  /** A resumed approval pause never meets a batch that is still planned: its calls were readied. */
  lemma DecisionsMeetReadyBatch(cfg: Config, sh: Shared, w: Worker, next: Record)
    requires CurrentOkNow(cfg, sh, w) && w.pc.SaveDecisions? && SaveTarget(cfg, w) == Some(next)
    requires SaveDecisionsOk(sh, w, w.pc.ids)
    ensures Holding(sh, w)
  {
    var id := w.pc.ids[0];
    assert id in w.pc.ids;
    var c := FindCall(w.exec.batch.value.calls, id).value;
    assert c in w.exec.batch.value.calls && c.callId in BatchIds(w.exec);
  }

  ghost predicate CurrentOkNow(cfg: Config, sh: Shared, w: Worker) {
    cfg.start <= |sh.log| && w.exec == sh.exec && CurrentOk(cfg, sh.log, sh.exec, sh.hist)
  }

  lemma DecisionsShared(cfg: Config, sh: Shared, w: Worker, next: Record, sh': Shared)
    requires Taking(cfg, sh, w, next, sh') && w.pc.SaveDecisions?
    ensures SharedInv(cfg, sh') && Holding(sh, w)
  {
    hide RecordOk, GrantsOk, ClaimsOk, StartsOk;
    DecisionsMeetReadyBatch(cfg, sh, w, next);
    hide LogOk, CurrentOk;
    DecideShared(cfg, sh, w.pc.ids, w.pc.answer, sh');
  }

  lemma DecisionsWorker(cfg: Config, sh: Shared, w: Worker, next: Record, sh': Shared)
    requires Taking(cfg, sh, w, next, sh') && w.pc.SaveDecisions? && RecordOk(cfg, sh'.log, sh'.exec, sh'.hist) &&
      Holding(sh, w)
    ensures WorkerInv(cfg, sh', AfterSave(w, sh'.exec))
  {
    hide SharedInv, RecordOk;
  }

  lemma ClaimClearShared(cfg: Config, sh: Shared, w: Worker, next: Record, sh': Shared)
    requires Taking(cfg, sh, w, next, sh') && w.pc.ClaimClear?
    ensures SharedInv(cfg, sh')
  {
    hide SharedInv;
    ConfirmedIsSeen(sh, w, w.pc.claim);
    ClearShared(cfg, sh, w, w.pc.claim, sh');
  }

  lemma ConfirmedIsSeen(sh: Shared, w: Worker, claim: Claim)
    requires ClaimClearOk(sh, w, claim)
    ensures claim.callId in Seen(sh, w)
  {
    var ms := sh.log[w.exec.batch.value.useLastSequence..w.lastSequence];
    var x :| x in Blocks(ms) && ConfirmsClaim(x, claim);
    ResultsOfMember(Blocks(ms), claim.callId);
  }

  lemma ClaimClearWorker(cfg: Config, sh: Shared, w: Worker, next: Record, sh': Shared)
    requires Taking(cfg, sh, w, next, sh') && w.pc.ClaimClear? && RecordOk(cfg, sh'.log, sh'.exec, sh'.hist)
    ensures WorkerInv(cfg, sh', AfterSave(w, sh'.exec))
  {
    hide SharedInv, RecordOk;
  }

  lemma ResolveWorker(cfg: Config, sh: Shared, w: Worker, next: Record, sh': Shared)
    requires Taking(cfg, sh, w, next, sh') && w.pc.ResolveClaim? && RecordOk(cfg, sh'.log, sh'.exec, sh'.hist)
    ensures WorkerInv(cfg, sh', AfterSave(w, sh'.exec))
  {
    hide SharedInv, RecordOk;
  }

  // ---- All saves ------------------------------------------------------------------------------

  lemma AckSaved(cfg: Config, sh: Shared, w: Worker, next: Record, sh': Shared)
    requires Taking(cfg, sh, w, next, sh') && (w.pc.PrepareAck? || w.pc.CommitAck? || w.pc.RecoverAck?)
    ensures SharedInv(cfg, sh')
  {
    hide SharedInv, RecordOk;
    AckShared(cfg, sh, w, w.pc.done, sh');
  }

  lemma SaveShared(cfg: Config, sh: Shared, w: Worker, next: Record, sh': Shared)
    requires Taking(cfg, sh, w, next, sh')
    ensures SharedInv(cfg, sh')
  {
    hide SharedInv, WorkerInv;
    match w.pc
    case Plan(_) => PlanShared(cfg, sh, w, sh');
    case MarkingReady(_) => ReadyShared(cfg, sh, w, sh');
    case PrepareAck(_, _) => AckSaved(cfg, sh, w, next, sh');
    case CommitAck(_, _) => AckSaved(cfg, sh, w, next, sh');
    case RecoverAck(_) => AckSaved(cfg, sh, w, next, sh');
    case SaveDecisions(_, _) => hide *; DecisionsShared(cfg, sh, w, next, sh');
    case ClaimClear(_) => ClaimClearShared(cfg, sh, w, next, sh');
    case RetrySave(_) => ReconcileShared(cfg, sh, w, next, sh');
    case ResolveClaim(_) => ReconcileShared(cfg, sh, w, next, sh');
    case _ => PlainShared(cfg, sh, w, next, sh');
  }

  lemma ReconcileShared(cfg: Config, sh: Shared, w: Worker, next: Record, sh': Shared)
    requires Taking(cfg, sh, w, next, sh') && (w.pc.RetrySave? || w.pc.ResolveClaim?)
    ensures SharedInv(cfg, sh')
  {
    hide SharedInv;
    if w.pc.RetrySave? {
      RetryShared(cfg, sh, w, w.pc.callId, sh');
    } else {
      ResolveShared(cfg, sh, w, w.pc.claim, sh');
    }
  }

  lemma MarkedWorker(cfg: Config, sh: Shared, w: Worker, next: Record, sh': Shared)
    requires Taking(cfg, sh, w, next, sh') && w.pc.MarkingReady?
    ensures WorkerInv(cfg, sh', AfterSave(w, sh'.exec))
  {
    hide SharedInv, WorkerInv;
    ReadyRecord(cfg, sh, w, sh');
    ReadyWorker(cfg, sh, w, sh');
  }

  lemma SaveWorker(cfg: Config, sh: Shared, w: Worker, next: Record, sh': Shared)
    requires Taking(cfg, sh, w, next, sh') && SharedInv(cfg, sh')
    ensures WorkerInv(cfg, sh', AfterSave(w, sh'.exec))
  {
    assert RecordOk(cfg, sh'.log, sh'.exec, sh'.hist);
    hide SharedInv, WorkerInv, RecordOk;
    match w.pc
    case Loop => hide *; LoopWorker(cfg, sh, w, next, sh');
    case Plan(_) => hide *; PlannedWorker(cfg, sh, w, next, sh');
    case MarkingReady(_) => hide *; MarkedWorker(cfg, sh, w, next, sh');
    case PrepareAck(_, _) => hide *; AcknowledgedWorker(cfg, sh, w, next, sh');
    case CommitAck(_, _) => hide *; AcknowledgedWorker(cfg, sh, w, next, sh');
    case RecoverAck(_) => hide *; AcknowledgedWorker(cfg, sh, w, next, sh');
    case SavePendingPause(_, _) => hide *; PendingPauseWorker(cfg, sh, w, next, sh');
    case ResumeClaim(_) => hide *; ResumeClaimWorker(cfg, sh, w, next, sh');
    case SaveDecisions(_, _) => hide *; DecisionsShared(cfg, sh, w, next, sh'); DecisionsWorker(cfg, sh, w, next, sh');
    case ClaimClear(_) => hide *; ClaimClearWorker(cfg, sh, w, next, sh');
    case ResolveClaim(_) => hide *; ResolveWorker(cfg, sh, w, next, sh');
    case _ => AtRest(cfg, sh', AfterSave(w, sh'.exec));
  }

  lemma PlannedWorker(cfg: Config, sh: Shared, w: Worker, next: Record, sh': Shared)
    requires Taking(cfg, sh, w, next, sh') && w.pc.Plan? && RecordOk(cfg, sh'.log, sh'.exec, sh'.hist)
    ensures WorkerInv(cfg, sh', AfterSave(w, sh'.exec))
  {
    hide SharedInv, WorkerInv, RecordOk, AfterSave, PlanBatch;
    PlanWorker(cfg, sh, w, sh');
  }

  lemma AcknowledgedWorker(cfg: Config, sh: Shared, w: Worker, next: Record, sh': Shared)
    requires Taking(cfg, sh, w, next, sh') && RecordOk(cfg, sh'.log, sh'.exec, sh'.hist)
    requires w.pc.PrepareAck? || w.pc.CommitAck? || w.pc.RecoverAck?
    ensures WorkerInv(cfg, sh', AfterSave(w, sh'.exec))
  {
    hide SharedInv, WorkerInv, RecordOk, AfterSave, Acknowledge;
    match w.pc
    case PrepareAck(_, _) => PrepareAckWorker(cfg, sh, w, sh');
    case CommitAck(_, _) => CommitAckWorker(cfg, sh, w, sh');
    case RecoverAck(_) => RecoverAckWorker(cfg, sh, w, sh');
  }
}
