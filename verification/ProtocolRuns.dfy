/**
 The invariant holds in every state of every run.

 Each kind of step is taken apart into a change of the stores, which keeps the shared invariant, and the worker that
 continues after it; every other worker relies only on facts that no step takes back.
 */
module ProtocolRuns {
  import opened Messages
  import opened Execution
  import opened ToolBatch
  import opened Protocol
  import opened ProtocolInvariant
  import opened ProtocolAppends
  import opened ProtocolSaves
  import opened ProtocolBegin
  import opened ProtocolSaveSteps
  import opened ProtocolLocal

  /** A step of one worker keeps what is shared and what that worker relies on. */
  ghost predicate Kept(cfg: Config, sh: Shared, sh': Shared, w': Worker) {
    SharedInv(cfg, sh') && Extends(sh, sh') && WorkerInv(cfg, sh', w')
  }

  lemma LocalKept(cfg: Config, sh: Shared, w': Worker)
    requires SharedInv(cfg, sh) && WorkerInv(cfg, sh, w')
    ensures Kept(cfg, sh, sh, w')
  {
    hide SharedInv, WorkerInv;
  }

  /** Whatever happened to its request, a worker that gives up is left in good order. */
  lemma GivenUp(cfg: Config, sh: Shared, w: Worker, sh': Shared)
    requires WorkerInv(cfg, sh, w) && SharedInv(cfg, sh') && Extends(sh, sh')
    ensures Kept(cfg, sh, sh', w.(pc := FailPc(w))) && Kept(cfg, sh, sh', w.(pc := Done))
  {
    hide SharedInv, WorkerInv, Extends;
    WorkerInvStable(cfg, sh, sh', w);
    StopWorker(cfg, sh', w);
  }

  lemma Unchanged(sh: Shared)
    ensures Extends(sh, sh)
  {
  }

  lemma HoldsCurrent(cfg: Config, sh: Shared, w: Worker)
    requires WorkerInv(cfg, sh, w) && w.exec.version == sh.exec.version
    ensures w.exec == sh.exec
  {
    hide RecordOk;
  }

  lemma HistoryGrows(sh: Shared, w: Worker)
    ensures sh.hist.readied <= HistoryAfter(sh, w).readied && sh.hist.allowed <= HistoryAfter(sh, w).allowed
  {
  }

  lemma SaveKept(cfg: Config, sh: Shared, w: Worker, reply: Reply, sh': Shared, w': Worker)
    requires SharedInv(cfg, sh) && WorkerInv(cfg, sh, w) && WorkerStep(cfg, sh, w, Save(reply), sh', w')
    ensures Kept(cfg, sh, sh', w')
  {
    hide SharedInv, WorkerInv, SaveTarget, HistoryAfter, AfterSave;
    Unchanged(sh);
    GivenUp(cfg, sh, w, sh);
    var target := SaveTarget(cfg, w);
    if target.Some? && w.exec.version == sh.exec.version && !reply.Refused? {
      HoldsCurrent(cfg, sh, w);
      HistoryGrows(sh, w);
      SaveShared(cfg, sh, w, target.value, sh');
      SaveExtends(sh, target.value, HistoryAfter(sh, w), sh');
      SaveWorker(cfg, sh, w, target.value, sh');
      AfterSaveHolds(w, sh'.exec);
      GivenUp(cfg, sh, w, sh');
    }
  }

  lemma AfterSaveHolds(w: Worker, saved: Record)
    ensures AfterSave(w, saved).exec == saved
  {
  }

  lemma AppendStepKept(cfg: Config, sh: Shared, w: Worker, reply: Reply, sh': Shared, w': Worker)
    requires SharedInv(cfg, sh) && WorkerInv(cfg, sh, w) && WorkerStep(cfg, sh, w, Append(reply), sh', w')
    ensures Kept(cfg, sh, sh', w')
  {
    hide SharedInv, WorkerInv, AfterAppend;
    Unchanged(sh);
    GivenUp(cfg, sh, w, sh);
    if w.revision == sh.revision && !reply.Refused? {
      AppendKept(cfg, sh, w, sh');
      GivenUp(cfg, sh, w, sh');
    }
  }

  // ---- Handler starts -----------------------------------------------------------------------

  lemma BeginKeepsBatch(e: Record, id: string, recovering: bool, next: Record)
    requires BeginCall(e, id, recovering) == Claimed(next)
    ensures e.batch.Some? && next.batch.Some? && CallIds(next.batch.value.calls) == CallIds(e.batch.value.calls)
    ensures next.batch.value == e.batch.value.(calls := next.batch.value.calls)
  {
    SameIds(e.batch.value.calls, next.batch.value.calls);
  }

  lemma BeginDispatch(cfg: Config, sh: Shared, w: Worker, d: Dispatch, sh': Shared, w': Worker)
    requires DispatchOk(cfg, sh, w, d) && sh'.log == sh.log && sh.hist.allowed <= sh'.hist.allowed
    requires w' == w.(exec := w'.exec) && w'.exec.batch.Some? &&
      CallIds(w'.exec.batch.value.calls) == CallIds(w.exec.batch.value.calls)
    requires w'.exec.batch.value == w.exec.batch.value.(calls := w'.exec.batch.value.calls)
    ensures DispatchOk(cfg, sh', w', d)
  {
    assert Holding(sh', w') && Seen(sh', w') == Seen(sh, w);
  }

  lemma BeginWorker(cfg: Config, sh: Shared, w: Worker, i: nat, next: Record, sh': Shared, w': Worker)
    requires WorkerInv(cfg, sh, w) && w.pc.Dispatching? && i < |w.pc.d.calls|
    requires BeginCall(w.exec, w.pc.d.calls[i].callId, !w.kind.Invocation?) == Claimed(next)
    requires sh' == Saved(sh, next, sh'.hist) && sh.hist.allowed <= sh'.hist.allowed
    requires RecordOk(cfg, sh'.log, sh'.exec, sh'.hist) && w' == w.(exec := sh'.exec)
    ensures WorkerInv(cfg, sh', w')
  {
    BeginKeepsBatch(w.exec, w.pc.d.calls[i].callId, !w.kind.Invocation?, next);
    DispatchHolds(cfg, sh, w);
    BeginDispatch(cfg, sh, w, w.pc.d, sh', w');
    hide *;
    Redispatched(cfg, sh, w, sh', w');
  }

  lemma Redispatched(cfg: Config, sh: Shared, w: Worker, sh': Shared, w': Worker)
    requires WorkerInv(cfg, sh, w) && w.pc.Dispatching? && DispatchOk(cfg, sh', w', w.pc.d)
    requires sh'.log == sh.log && sh'.revision == sh.revision && w' == w.(exec := sh'.exec)
    requires RecordOk(cfg, sh'.log, sh'.exec, sh'.hist)
    ensures WorkerInv(cfg, sh', w')
  {
    hide RecordOk, DispatchOk;
  }

  lemma StartedWorker(cfg: Config, sh: Shared, w: Worker, i: nat)
    requires WorkerInv(cfg, sh, w) && w.pc.Dispatching? && i < |w.pc.d.calls| && MayBegin(w.pc.d, i)
    ensures var d := w.pc.d;
      WorkerInv(cfg, sh, w.(pc := Dispatching(d.(outcomes := d.outcomes[i := Running],
                                                 started := d.started + {d.calls[i].callId}))))
  {
    OutcomeWorker(cfg, sh, w, i, Running);
    var d := w.pc.d;
    var w1 := w.(pc := Dispatching(d.(outcomes := d.outcomes[i := Running])));
    var d2 := w1.pc.d.(started := d.started + {d.calls[i].callId});
    DispatchHolds(cfg, sh, w);
    DispatchHolds(cfg, sh, w1);
    hide WorkerInv, DispatchOk, MayBegin;
    RunningDispatch(cfg, sh, w, i);
    DispatchMoves(cfg, sh, w1, w.(pc := Dispatching(d2)), d2);
    hide *;
    Redispatches(cfg, sh, w, d2);
  }

  lemma Redispatches(cfg: Config, sh: Shared, w: Worker, d: Dispatch)
    requires WorkerInv(cfg, sh, w) && w.pc.Dispatching? && DispatchOk(cfg, sh, w.(pc := Dispatching(d)), d)
    ensures WorkerInv(cfg, sh, w.(pc := Dispatching(d)))
  {
    hide RecordOk, DispatchOk;
  }

  /** The claimed call counts as started; nothing is pending beside it. */
  lemma RunningDispatch(cfg: Config, sh: Shared, w: Worker, i: nat)
    requires w.pc.Dispatching? && DispatchOk(cfg, sh, w, w.pc.d) && i < |w.pc.d.calls| && MayBegin(w.pc.d, i)
    requires var w1 := w.(pc := Dispatching(w.pc.d.(outcomes := w.pc.d.outcomes[i := Running])));
      DispatchOk(cfg, sh, w1, w1.pc.d)
    ensures var w1 := w.(pc := Dispatching(w.pc.d.(outcomes := w.pc.d.outcomes[i := Running])));
      DispatchOk(cfg, sh, w1, w1.pc.d.(started := w.pc.d.started + {w.pc.d.calls[i].callId}))
  {
    var d := w.pc.d;
    var d1 := d.(outcomes := d.outcomes[i := Running]);
    var d2 := d1.(started := d.started + {d.calls[i].callId});
    assert forall k | 0 <= k < |d.calls| :: DecisionFor(d2, k) == DecisionFor(d1, k);
    if d.decisions.None? {
      assert !d.gates[i] && GatesSettled(d) && !AnyPending(d);
      assert forall k | 0 <= k < |d1.outcomes| :: d1.outcomes[k] == if k == i then Running else d.outcomes[k];
    }
  }

  lemma BeginKept(cfg: Config, sh: Shared, w: Worker, i: nat, reply: Reply, sh': Shared, w': Worker)
    requires SharedInv(cfg, sh) && WorkerInv(cfg, sh, w) && WorkerStep(cfg, sh, w, Begin(i, reply), sh', w')
    ensures Kept(cfg, sh, sh', w')
  {
    hide SharedInv, WorkerInv, BeginCall, MayBegin;
    Unchanged(sh);
    OutcomeWorker(cfg, sh, w, i, CoordinationFailure);
    OutcomeWorker(cfg, sh, w, i, Unknown);
    var begun := BeginCall(w.exec, w.pc.d.calls[i].callId, !w.kind.Invocation?);
    if begun.Claimed? && w.exec.version == sh.exec.version && !reply.Refused? {
      BeginTaken(cfg, sh, w, i, begun.r, sh');
    }
  }

  /** The claim was saved: the handler starts, or the acknowledgement was lost and it does not. */
  lemma BeginTaken(cfg: Config, sh: Shared, w: Worker, i: nat, next: Record, sh': Shared)
    requires SharedInv(cfg, sh) && WorkerInv(cfg, sh, w) && w.exec.version == sh.exec.version && w.pc.Dispatching?
    requires DispatchShape(w.pc.d) && i < |w.pc.d.calls| && MayBegin(w.pc.d, i)
    requires BeginCall(w.exec, w.pc.d.calls[i].callId, !w.kind.Invocation?) == Claimed(next)
    requires sh' == Saved(sh, next, BeginHistory(sh.hist, w.pc.d.calls[i], w.pc.d.gates[i]))
    ensures var d := w.pc.d; var id := d.calls[i].callId;
      Kept(cfg, sh, sh', w.(pc := Dispatching(d.(outcomes := d.outcomes[i := CoordinationFailure])))) &&
      Kept(cfg, sh, sh', w.(exec := sh'.exec,
                            pc := Dispatching(d.(outcomes := d.outcomes[i := Running],
                                                 started := d.started + {id})))) &&
      id !in sh.hist.claimed
  {
    DispatchHolds(cfg, sh, w);
    hide SharedInv, WorkerInv, BeginCall, MayBegin, DispatchOk;
    HoldsCurrent(cfg, sh, w);
    BeginShared(cfg, sh, w, i, next, sh');
    SaveExtends(sh, next, sh'.hist, sh');
    CurrentRecordOk(cfg, sh');
    hide RecordOk;
    BeginWorker(cfg, sh, w, i, next, sh', w.(exec := sh'.exec));
    StartedWorker(cfg, sh', w.(exec := sh'.exec), i);
    WorkerInvStable(cfg, sh, sh', w);
    OutcomeWorker(cfg, sh', w, i, CoordinationFailure);
  }

  lemma DispatchHolds(cfg: Config, sh: Shared, w: Worker)
    requires WorkerInv(cfg, sh, w) && w.pc.Dispatching?
    ensures DispatchOk(cfg, sh, w, w.pc.d)
  {
  }

  lemma CurrentRecordOk(cfg: Config, sh: Shared)
    requires SharedInv(cfg, sh)
    ensures RecordOk(cfg, sh.log, sh.exec, sh.hist) && cfg.start <= |sh.log|
  {
  }

  // ---- The remaining steps -------------------------------------------------------------------

  lemma PendingPauseOk(cfg: Config, sh: Shared)
    requires SharedInv(cfg, sh)
    ensures sh.exec.id == cfg.id && (sh.exec.pendingPause.Some? ==> PauseOk(sh.exec.pendingPause.value, sh.hist))
  {
    hide PauseOk, LogOk, CurrentOk, GrantsOk, ClaimsOk, StartsOk;
  }

  lemma FinalizeKept(cfg: Config, sh: Shared, w: Worker, status: Status, reply: Reply, sh': Shared, w': Worker)
    requires SharedInv(cfg, sh) && WorkerInv(cfg, sh, w) && WorkerStep(cfg, sh, w, Finalize(status, reply), sh', w')
    ensures Kept(cfg, sh, sh', w')
  {
    var next := w.exec.(revision := w.revision, lastSequence := w.lastSequence, pause := None, phase := PhaseDone,
                        status := status);
    hide SharedInv, WorkerInv, RecordOk, PauseOk;
    Unchanged(sh);
    GivenUp(cfg, sh, w, sh);
    if w.exec.version == sh.exec.version && !reply.Refused? {
      HoldsCurrent(cfg, sh, w);
      PendingPauseOk(cfg, sh);
      PlainKeeps(cfg, sh, next, sh.hist, sh');
      SaveExtends(sh, next, sh.hist, sh');
      CurrentRecordOk(cfg, sh');
      GivenUp(cfg, sh, w, sh');
      AtRest(cfg, sh', w.(exec := sh'.exec, pc := Done));
    }
  }

  lemma LoadLogKept(cfg: Config, sh: Shared, w: Worker, boundary: nat, text: Message, sh': Shared, w': Worker)
    requires SharedInv(cfg, sh) && WorkerInv(cfg, sh, w) && WorkerStep(cfg, sh, w, LoadLog(boundary, text), sh', w')
    ensures Kept(cfg, sh, sh', w')
  {
    hide SharedInv, WorkerInv, Loaded;
    CurrentRecordOk(cfg, sh);
    Unchanged(sh);
    if w.pc.ResumeLog? {
      LoadedKeepsKind(sh, w, boundary);
      if w'.pc.Loop? {
        ResumeHumanWorker(cfg, sh, w, boundary, text, w');
      } else if w'.pc.SaveDecisions? {
        ResumeApprovalWorker(cfg, sh, w, boundary, w'.pc.ids, w');
      } else {
        ExitIsFine(cfg, sh, w);
      }
    } else {
      RecoverLogWorker(cfg, sh, w);
    }
  }

  lemma LoadedKeepsKind(sh: Shared, w: Worker, after: nat)
    ensures Loaded(sh, w, after).pc == w.pc
  {
  }

  lemma ExitIsFine(cfg: Config, sh: Shared, w: Worker)
    requires WorkerInv(cfg, sh, w) && w.pc.ResumeLog?
    ensures WorkerInv(cfg, sh, w.(pc := Exit))
  {
    hide RecordOk;
  }

  lemma LocalStepKept(cfg: Config, sh: Shared, w: Worker, a: Action, sh': Shared, w': Worker)
    requires SharedInv(cfg, sh) && WorkerInv(cfg, sh, w) && WorkerStep(cfg, sh, w, a, sh', w')
    requires a.AddText? || a.LoadPrior? || a.Match? || a.OpenBatch? || a.Settle? || a.Finish? || a.Collect? ||
      a.Decide? || a.Stop?
    ensures sh' == sh && Kept(cfg, sh, sh', w')
  {
    hide SharedInv, WorkerInv, Kept, Opened, Collected, Inspected, Checked, LastMatch, ActiveBatch;
    hide PlanAllowed, NoToolBlocks, Remaining, ResultIds, StopPc, DispatchShape, BeginStep, SaveStep, AppendStep;
    match a {
    case AddText(m) => AddTextWorker(cfg, sh, w, m);
    case LoadPrior(rs) => LoadPriorWorker(cfg, sh, w, rs);
    case Match(index) => MatchWorker(cfg, sh, w, index, w');
    case OpenBatch(gates) => OpenWorker(cfg, sh, w, gates);
    case Settle(i, o) => OutcomeWorker(cfg, sh, w, i, o);
    case Finish(i, o) => OutcomeWorker(cfg, sh, w, i, o);
    case Collect => CollectWorker(cfg, sh, w);
    case Decide => if w.pc.Inspect? { InspectWorker(cfg, sh, w); } else { CheckWorker(cfg, sh, w); }
    case Stop => StopWorker(cfg, sh, w);
    }
    LocalKept(cfg, sh, w');
  }

  lemma WorkerStepKept(cfg: Config, sh: Shared, w: Worker, a: Action, sh': Shared, w': Worker)
    requires SharedInv(cfg, sh) && WorkerInv(cfg, sh, w) && WorkerStep(cfg, sh, w, a, sh', w')
    ensures Kept(cfg, sh, sh', w')
  {
    hide SharedInv, WorkerInv, Kept;
    match a
    case Save(reply) => hide WorkerStep; SaveKept(cfg, sh, w, reply, sh', w');
    case Append(reply) => hide WorkerStep; AppendStepKept(cfg, sh, w, reply, sh', w');
    case Begin(i, reply) => hide WorkerStep; BeginKept(cfg, sh, w, i, reply, sh', w');
    case Finalize(status, reply) => hide WorkerStep; FinalizeKept(cfg, sh, w, status, reply, sh', w');
    case LoadLog(boundary, text) => hide WorkerStep; LoadLogKept(cfg, sh, w, boundary, text, sh', w');
    case LoadRecord => LoadRecordKept(cfg, sh, w, sh', w');
    case _ => hide WorkerStep; LocalStepKept(cfg, sh, w, a, sh', w');
  }

  lemma LoadRecordKept(cfg: Config, sh: Shared, w: Worker, sh': Shared, w': Worker)
    requires SharedInv(cfg, sh) && WorkerInv(cfg, sh, w) && WorkerStep(cfg, sh, w, LoadRecord, sh', w')
    ensures Kept(cfg, sh, sh', w')
  {
    hide SharedInv, WorkerInv;
    LoadRecordWorker(cfg, sh, w);
    LocalKept(cfg, sh, w');
  }

  // ---- System steps -------------------------------------------------------------------------------

  lemma SpawnPc(cfg: Config, sh: Shared, w: Worker)
    requires SpawnAllowed(sh, w)
    ensures !HasLog(w.pc) && PcOk(cfg, sh, w) && w.exec == sh.exec
  {
  }

  lemma SpawnWorker(cfg: Config, sh: Shared, w: Worker)
    requires SharedInv(cfg, sh) && SpawnAllowed(sh, w)
    ensures WorkerInv(cfg, sh, w)
  {
    CurrentRecordOk(cfg, sh);
    SpawnPc(cfg, sh, w);
    hide SharedInv, RecordOk, PcOk, SpawnAllowed;
  }

  lemma StepInv(cfg: Config, s: State, l: Label, s': State)
    requires Inv(cfg, s) && Next(cfg, s, l, s')
    ensures Inv(cfg, s') && Extends(s.sh, s'.sh)
  {
    hide SharedInv, WorkerInv, WorkerStep, SpawnAllowed, Extends;
    Unchanged(s.sh);
    match l {
    case Foreign(ms) =>
      ForeignAppendKeeps(cfg, s.sh, ms, s'.sh);
    case Spawn(t, w) =>
      SpawnWorker(cfg, s.sh, w);
    case Crash(t) =>
    case Act(t, a) =>
      WorkerStepKept(cfg, s.sh, s.workers[t], a, s'.sh, s'.workers[t]);
    }
    forall t | t in s'.workers ensures WorkerInv(cfg, s'.sh, s'.workers[t]) {
      if t in s.workers && s'.workers[t] == s.workers[t] {
        WorkerInvStable(cfg, s.sh, s'.sh, s.workers[t]);
      }
    }
  }

  lemma InitShared(cfg: Config, s: State)
    requires Init(cfg, s)
    ensures SharedInv(cfg, s.sh)
  {
    NoOwnIds(cfg, s.sh.log[cfg.start..]);
    forall id | cfg.own(id) ensures UseCount(cfg, s.sh.log, id) == 0 && ResultCount(cfg, s.sh.log, id) == 0 {
      CountMember(UseIds(s.sh.log[cfg.start..]), id);
      CountMember(ResultIds(s.sh.log[cfg.start..]), id);
    }
  }

  lemma InitInv(cfg: Config, s: State)
    requires Init(cfg, s)
    ensures Inv(cfg, s)
  {
    InitShared(cfg, s);
    CurrentRecordOk(cfg, s.sh);
    hide SharedInv, RecordOk;
    var w := s.workers[0];
    assert w.messages[w.persistedCount..] == [w.messages[w.persistedCount]];
    forall t | t in s.workers ensures WorkerInv(cfg, s.sh, s.workers[t]) {
      assert t in s.workers.Keys;
    }
  }

  /** The invariant holds in every state of every run, whatever the interleaving. */
  lemma {:induction false} RunInv(cfg: Config, run: seq<State>, labels: seq<Label>, k: nat)
    requires IsRun(cfg, run, labels) && k < |run|
    ensures Inv(cfg, run[k])
  {
    hide Inv, Next, Init;
    if k == 0 {
      InitInv(cfg, run[0]);
    } else {
      RunInv(cfg, run, labels, k - 1);
      StepInv(cfg, run[k - 1], labels[k - 1], run[k]);
    }
  }
}
