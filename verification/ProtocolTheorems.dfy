/** Safety over whole runs. */
module ProtocolTheorems {
  import opened Messages
  import opened Execution
  import opened ToolBatch
  import opened Protocol
  import opened ProtocolInvariant
  import opened ProtocolSaves
  import ProtocolBegin
  import opened ProtocolRuns

  // The statements below mention only what an observer of the run can see: the labels, the two stores and the
  // workers' program counters. The recorded history serves the proofs.

  // ---- What can be observed in one step -------------------------------------------------------

  /** The store accepted a save of worker `t`, which stood at `pc`. */
  ghost predicate SaveTook(s: State, l: Label, s': State, pc: Pc) {
    l.Act? && l.a.Save? && l.t in s.workers && s.workers[l.t].pc == pc && s'.sh.exec.version > s.sh.exec.version
  }

  /** The handler of call `c` starts, under an approval gate or not. */
  ghost predicate Starts(s: State, l: Label, s': State, c: ToolCall, gate: bool) {
    l.Act? && l.a.Begin? && l.t in s.workers && l.t in s'.workers && s'.workers[l.t].pc.Dispatching? &&
    var d := s'.workers[l.t].pc.d;
    l.a.i < |d.calls| && l.a.i < |d.gates| && l.a.i < |d.outcomes| &&
    d.calls[l.a.i] == c && d.gates[l.a.i] == gate && d.outcomes[l.a.i].Running?
  }

  ghost predicate StartsCall(s: State, l: Label, s': State, id: string) {
    exists c: ToolCall, gate: bool :: c.callId == id && Starts(s, l, s', c, gate)
  }

  ghost predicate RetryTook(s: State, l: Label, s': State, id: string) { SaveTook(s, l, s', RetrySave(id)) }

  ghost predicate ClaimTook(s: State, l: Label, s': State, id: string) {
    exists claim: Claim :: claim.callId == id && SaveTook(s, l, s', ResolveClaim(claim))
  }

  ghost predicate AllowTook(s: State, l: Label, s': State, id: string) {
    exists ids: seq<string>, answer: string -> Decision ::
      id in ids && answer(id).allow && SaveTook(s, l, s', SaveDecisions(ids, answer))
  }

  /** Number of handler starts of a call within the first `k` steps. */
  ghost function StartCount(run: seq<State>, labels: seq<Label>, id: string, k: nat): nat
    requires k <= |labels| && |run| == |labels| + 1
  {
    if k == 0 then 0
    else StartCount(run, labels, id, k - 1) + if StartsCall(run[k - 1], labels[k - 1], run[k], id) then 1 else 0
  }

  /** Number of successful Retry reconciliations of a call within the first `k` steps. */
  ghost function RetryCount(run: seq<State>, labels: seq<Label>, id: string, k: nat): nat
    requires k <= |labels| && |run| == |labels| + 1
  {
    if k == 0 then 0
    else RetryCount(run, labels, id, k - 1) + if RetryTook(run[k - 1], labels[k - 1], run[k], id) then 1 else 0
  }

  // ---- The recorded history follows the observable steps ------------------------------------------

  ghost predicate NoSave(s: State, s': State) { s'.sh.hist == s.sh.hist && s'.sh.exec.version == s.sh.exec.version }

  ghost predicate Begun(s: State, l: Label, s': State) {
    l.Act? && l.a.Begin? && l.t in s.workers && s.workers[l.t].pc.Dispatching? &&
    var d := s.workers[l.t].pc.d;
    DispatchShape(d) && l.a.i < |d.calls| && MayBegin(d, l.a.i) &&
    s'.sh.hist == BeginHistory(s.sh.hist, d.calls[l.a.i], d.gates[l.a.i]) && s'.sh.exec.version == s.sh.exec.version + 1
  }

  ghost predicate Recorded(s: State, l: Label, s': State) {
    NoSave(s, s') || Begun(s, l, s') ||
    (s'.sh.exec.version == s.sh.exec.version + 1 && l.Act? && l.t in s.workers &&
     ((l.a.Save? && s'.sh.hist == HistoryAfter(s.sh, s.workers[l.t])) || (l.a.Finalize? && s'.sh.hist == s.sh.hist)))
  }

  lemma StepRecorded(cfg: Config, s: State, l: Label, s': State)
    requires Next(cfg, s, l, s')
    ensures Recorded(s, l, s')
  {
    hide SaveTarget, HistoryAfter, AfterSave, Collected, Inspected, Checked, Opened, PlanAllowed, ActiveBatch,
         LastMatch, BeginCall, AfterAppend, Loaded, MaySettle, MayFinish;
  }

  lemma StartRecorded(cfg: Config, s: State, l: Label, s': State, c: ToolCall, gate: bool)
    requires Next(cfg, s, l, s') && Starts(s, l, s', c, gate)
    ensures Begun(s, l, s') && s'.sh.hist == BeginHistory(s.sh.hist, c, gate)
    ensures var d := s.workers[l.t].pc.d; d.calls[l.a.i] == c && d.gates[l.a.i] == gate
  {
    hide BeginCall;
    var w := s.workers[l.t];
    assert BeginStep(cfg, s.sh, w, l.a.i, l.a.reply, s'.sh, s'.workers[l.t]);
    assert w.pc.d.outcomes[l.a.i].Todo?;
  }

  lemma HistoryMonotone(s: State, l: Label, s': State, id: string)
    requires Recorded(s, l, s')
    ensures s.sh.hist.planned <= s'.sh.hist.planned && s.sh.hist.unsafe <= s'.sh.hist.unsafe
    ensures s.sh.hist.claimed <= s'.sh.hist.claimed && s.sh.hist.grants[id] <= s'.sh.hist.grants[id]
    ensures s'.sh.hist.retries[id] <= s.sh.hist.retries[id] + if RetryTook(s, l, s', id) then 1 else 0
    ensures s.sh.exec.version <= s'.sh.exec.version
    ensures id in s'.sh.hist.allowed - s.sh.hist.allowed ==> AllowTook(s, l, s', id)
  {
    if id in s'.sh.hist.allowed - s.sh.hist.allowed {
      var pc := s.workers[l.t].pc;
      assert SaveTook(s, l, s', SaveDecisions(pc.ids, pc.answer));
    }
  }

  lemma RunStep(cfg: Config, run: seq<State>, labels: seq<Label>, k: nat)
    requires IsRun(cfg, run, labels) && k < |labels|
    ensures Next(cfg, run[k], labels[k], run[k + 1]) && Recorded(run[k], labels[k], run[k + 1])
  {
    hide Next, Init;
    StepRecorded(cfg, run[k], labels[k], run[k + 1]);
  }

  lemma RunLength(cfg: Config, run: seq<State>, labels: seq<Label>)
    requires IsRun(cfg, run, labels)
    ensures |run| == |labels| + 1 && run[0].sh.hist == NO_HISTORY
  {
    hide Next;
  }

  lemma {:induction false} RunMonotone(cfg: Config, run: seq<State>, labels: seq<Label>, j: nat, k: nat, id: string)
    requires IsRun(cfg, run, labels) && j <= k <= |labels|
    ensures run[j].sh.hist.planned <= run[k].sh.hist.planned && run[j].sh.hist.unsafe <= run[k].sh.hist.unsafe
    ensures run[j].sh.hist.claimed <= run[k].sh.hist.claimed && run[j].sh.exec.version <= run[k].sh.exec.version
  {
    hide IsRun, Recorded, Next;
    RunLength(cfg, run, labels);
    if j < k {
      RunStep(cfg, run, labels, k - 1);
      HistoryMonotone(run[k - 1], labels[k - 1], run[k], id);
      RunMonotone(cfg, run, labels, j, k - 1, id);
    }
  }

  // ---- At most one start, plus one per Retry ----------------------------------------------------------

  lemma StartIsGrant(cfg: Config, s: State, l: Label, s': State, id: string)
    requires Next(cfg, s, l, s') && StartsCall(s, l, s', id)
    ensures s'.sh.hist.grants[id] == s.sh.hist.grants[id] + 1
  {
    hide Next;
    var c: ToolCall, gate: bool :| c.callId == id && Starts(s, l, s', c, gate);
    StartRecorded(cfg, s, l, s', c, gate);
  }

  lemma {:induction false} StartsAreGrants(cfg: Config, run: seq<State>, labels: seq<Label>, id: string, k: nat)
    requires IsRun(cfg, run, labels) && k <= |labels|
    ensures StartCount(run, labels, id, k) <= run[k].sh.hist.grants[id]
    ensures run[k].sh.hist.retries[id] <= RetryCount(run, labels, id, k)
  {
    hide IsRun, Recorded, Next, StartsCall, RetryTook;
    RunLength(cfg, run, labels);
    if k > 0 {
      RunStep(cfg, run, labels, k - 1);
      StartsAreGrants(cfg, run, labels, id, k - 1);
      HistoryMonotone(run[k - 1], labels[k - 1], run[k], id);
      if StartsCall(run[k - 1], labels[k - 1], run[k], id) {
        StartIsGrant(cfg, run[k - 1], labels[k - 1], run[k], id);
      }
    }
  }

  lemma RecordedUnsafe(cfg: Config, s: State, c: ToolCall)
    requires Inv(cfg, s) && s.sh.exec.batch.Some? && c in s.sh.exec.batch.value.calls && !c.replaySafe
    ensures c.callId in s.sh.hist.unsafe
  {
    hide LogOk, RecordOk, CurrentOk, ClaimsOk, StartsOk, WorkerInv;
  }

  lemma GrantBound(cfg: Config, s: State, id: string)
    requires Inv(cfg, s) && id in s.sh.hist.unsafe
    ensures s.sh.hist.grants[id] <= s.sh.hist.retries[id] + 1
  {
    hide LogOk, RecordOk, CurrentOk, ClaimsOk, StartsOk, WorkerInv;
  }

  /** A call recorded as not replay-safe starts at most once, plus once per successful Retry, in every run. */
  lemma UnsafeCallStartsAtMostOncePerRetry(cfg: Config, run: seq<State>, labels: seq<Label>, j: nat, c: ToolCall)
    requires IsRun(cfg, run, labels) && j <= |labels|
    requires run[j].sh.exec.batch.Some? && c in run[j].sh.exec.batch.value.calls && !c.replaySafe
    ensures StartCount(run, labels, c.callId, |labels|) <= RetryCount(run, labels, c.callId, |labels|) + 1
  {
    hide IsRun, Inv;
    var n := |labels|;
    RunLength(cfg, run, labels);
    RunInv(cfg, run, labels, j);
    RecordedUnsafe(cfg, run[j], c);
    RunMonotone(cfg, run, labels, j, n, c.callId);
    RunInv(cfg, run, labels, n);
    GrantBound(cfg, run[n], c.callId);
    StartsAreGrants(cfg, run, labels, c.callId, n);
  }

  // ---- One canonical result per call ----------------------------------------------------------------------

  lemma BatchCallFacts(cfg: Config, s: State, c: ToolCall)
    requires Inv(cfg, s) && s.sh.exec.batch.Some? && c in s.sh.exec.batch.value.calls
    ensures cfg.start <= |s.sh.log| && cfg.own(c.callId) && c.callId in s.sh.hist.planned
    ensures ResultCount(cfg, s.sh.log, c.callId) <= 1
    ensures c.status.Completed? ==> ResultCount(cfg, s.sh.log, c.callId) == 1
  {
    hide GrantsOk, ClaimsOk, StartsOk, WorkerInv;
    assert c.callId in BatchIds(s.sh.exec);
    if c.status.Completed? {
      CompletedAnswered(cfg, s.sh.log, s.sh.exec.batch.value.useLastSequence, c.callId);
    }
  }

  lemma PlannedCallFacts(cfg: Config, s: State, id: string)
    requires Inv(cfg, s) && id in s.sh.hist.planned && cfg.own(id)
    ensures cfg.start <= |s.sh.log| && ResultCount(cfg, s.sh.log, id) <= 1
    ensures id !in BatchIds(s.sh.exec) ==> ResultCount(cfg, s.sh.log, id) == 1
  {
    hide RecordOk, GrantsOk, ClaimsOk, StartsOk, WorkerInv;
  }

  /**
   Every call that the record ever held has at most one canonical result from then on. It has exactly one while
   the record says Completed, and for good once its batch is gone.
   */
  lemma OneCanonicalResult(cfg: Config, run: seq<State>, labels: seq<Label>, j: nat, c: ToolCall, k: nat)
    requires IsRun(cfg, run, labels) && j <= k <= |labels|
    requires run[j].sh.exec.batch.Some? && c in run[j].sh.exec.batch.value.calls
    ensures cfg.start <= |run[k].sh.log| && ResultCount(cfg, run[k].sh.log, c.callId) <= 1
    ensures run[k].sh.exec.batch.Some? ==> forall d | d in run[k].sh.exec.batch.value.calls && d.callId == c.callId ::
      d.status.Completed? ==> ResultCount(cfg, run[k].sh.log, c.callId) == 1
    ensures (run[k].sh.exec.batch.None? || forall d | d in run[k].sh.exec.batch.value.calls :: d.callId != c.callId) ==>
      ResultCount(cfg, run[k].sh.log, c.callId) == 1
  {
    hide IsRun, Inv;
    RunLength(cfg, run, labels);
    RunInv(cfg, run, labels, j);
    BatchCallFacts(cfg, run[j], c);
    RunMonotone(cfg, run, labels, j, k, c.callId);
    RunInv(cfg, run, labels, k);
    PlannedCallFacts(cfg, run[k], c.callId);
    if run[k].sh.exec.batch.Some? {
      forall d | d in run[k].sh.exec.batch.value.calls && d.callId == c.callId && d.status.Completed?
        ensures ResultCount(cfg, run[k].sh.log, c.callId) == 1
      {
        BatchCallFacts(cfg, run[k], d);
      }
    }
  }

  // ---- Batch boundary ----------------------------------------------------------------------------------------

  /** The batch has not been announced: every call still carries the input it will be announced with. */
  ghost predicate Unannounced(cfg: Config, b: Batch) {
    b.useLastSequence == 0 && forall c | c in b.calls ::
      c.status.Planned? && c.input.Some? && cfg.hash(c.input.value) == Some(c.inputHash)
  }

  /** The message at the boundary requests exactly the batch, and no other message requests any of it. */
  ghost predicate Announced(cfg: Config, log: seq<Message>, b: Batch) {
    cfg.start < b.useLastSequence <= |log| &&
    (var use := log[b.useLastSequence - 1];
     use.role.Assistant? && |use.content| == |b.calls| &&
     forall i | 0 <= i < |b.calls| ::
       var x := use.content[i];
       x.ToolUse? && x.id == b.calls[i].callId && x.name == b.calls[i].name &&
       cfg.hash(x.input) == Some(b.calls[i].inputHash)) &&
    forall c | c in b.calls :: !c.status.Planned? && UseCount(cfg, log, c.callId) == 1
  }

  lemma BoundaryNow(cfg: Config, s: State)
    requires Inv(cfg, s) && s.sh.exec.batch.Some?
    ensures var b := s.sh.exec.batch.value;
      b.calls != [] && DistinctIds(b.calls) && (Unannounced(cfg, b) != Announced(cfg, s.sh.log, b))
  {
    hide CurrentOk, GrantsOk, ClaimsOk, StartsOk, WorkerInv;
    var b := s.sh.exec.batch.value;
    assert b.calls[0] in b.calls;
    if ReadyFacts(cfg, s.sh.log, b, s.sh.hist) {
      forall c | c in b.calls ensures UseCount(cfg, s.sh.log, c.callId) == 1 {
        assert c.callId in s.sh.hist.readied;
      }
    }
  }

  /** In every reachable state a batch is either wholly unannounced or wholly announced, exactly once. */
  lemma BatchBoundary(cfg: Config, run: seq<State>, labels: seq<Label>, k: nat)
    requires IsRun(cfg, run, labels) && k <= |labels| && run[k].sh.exec.batch.Some?
    ensures var b := run[k].sh.exec.batch.value;
      b.calls != [] && DistinctIds(b.calls) && (Unannounced(cfg, b) != Announced(cfg, run[k].sh.log, b))
  {
    hide IsRun, Inv, Unannounced, Announced;
    RunLength(cfg, run, labels);
    RunInv(cfg, run, labels, k);
    BoundaryNow(cfg, run[k]);
  }

  // ---- One winner per version -----------------------------------------------------------------------------------

  /**
   Two steps never raise the record from the same version, whatever they are: saves, handler claims or finalizations.
   */
  lemma OneStepPerVersion(cfg: Config, run: seq<State>, labels: seq<Label>, i: nat, j: nat)
    requires IsRun(cfg, run, labels) && i < |labels| && j < |labels|
    requires run[i].sh.exec.version == run[j].sh.exec.version
    requires run[i].sh.exec.version < run[i + 1].sh.exec.version && run[j].sh.exec.version < run[j + 1].sh.exec.version
    ensures i == j
  {
    hide IsRun;
    RunLength(cfg, run, labels);
    if i < j {
      RunMonotone(cfg, run, labels, i + 1, j, "");
    } else if j < i {
      RunMonotone(cfg, run, labels, j + 1, i, "");
    }
  }

  /**
   So two accepted saves never share a version, whoever made them: at any version at most one of
   Retry/Succeeded/Failed takes effect, and each paused version is resumed by at most one claimer.
   */
  lemma OneSavePerVersion(cfg: Config, run: seq<State>, labels: seq<Label>, i: nat, j: nat, p: Pc, q: Pc)
    requires IsRun(cfg, run, labels) && i < |labels| && j < |labels|
    requires SaveTook(run[i], labels[i], run[i + 1], p) && SaveTook(run[j], labels[j], run[j + 1], q)
    requires run[i].sh.exec.version == run[j].sh.exec.version
    ensures i == j && p == q
  {
    hide IsRun;
    RunLength(cfg, run, labels);
    OneStepPerVersion(cfg, run, labels, i, j);
  }

  lemma SaveIsRecorded(cfg: Config, s: State, l: Label, s': State, pc: Pc)
    requires Next(cfg, s, l, s') && SaveTook(s, l, s', pc)
    ensures s'.sh.hist == HistoryAfter(s.sh, s.workers[l.t]) && s'.sh.exec.version == s.sh.exec.version + 1
    ensures s.workers[l.t].exec.version == s.sh.exec.version
    ensures SaveTarget(cfg, s.workers[l.t]).Some? &&
      s'.sh == Saved(s.sh, SaveTarget(cfg, s.workers[l.t]).value, s'.sh.hist)
  {
    hide SaveTarget, HistoryAfter, AfterSave;
  }

  lemma StartIsUnclaimed(cfg: Config, s: State, l: Label, s': State, id: string)
    requires Inv(cfg, s) && Next(cfg, s, l, s') && StartsCall(s, l, s', id)
    ensures id !in s.sh.hist.claimed
  {
    var c: ToolCall, gate: bool :| c.callId == id && Starts(s, l, s', c, gate);
    StartRecorded(cfg, s, l, s', c, gate);
    StartTaken(cfg, s, l, s');
    hide Next, SharedInv, WorkerInv, MayBegin, BeginCall, Kept;
    var w, i := s.workers[l.t], l.a.i;
    BeginTaken(cfg, s.sh, w, i, BeginCall(w.exec, c.callId, !w.kind.Invocation?).r, s'.sh);
  }

  lemma StartTaken(cfg: Config, s: State, l: Label, s': State)
    requires Next(cfg, s, l, s') && Begun(s, l, s')
    ensures var w, i := s.workers[l.t], l.a.i;
      var begun := BeginCall(w.exec, w.pc.d.calls[i].callId, !w.kind.Invocation?);
      w.exec.version == s.sh.exec.version && begun.Claimed? && s'.sh == Saved(s.sh, begun.r, s'.sh.hist)
  {
    hide BeginCall, MayBegin, BeginHistory;
  }

  lemma ClaimIsRecorded(cfg: Config, s: State, l: Label, s': State, id: string)
    requires Next(cfg, s, l, s') && ClaimTook(s, l, s', id)
    ensures id in s'.sh.hist.claimed
  {
    hide Next;
    var claim: Claim :| claim.callId == id && SaveTook(s, l, s', ResolveClaim(claim));
    SaveIsRecorded(cfg, s, l, s', ResolveClaim(claim));
  }

  /** Once a success or failure claim is saved, the handler of that call never starts again. */
  lemma NoStartAfterClaim(cfg: Config, run: seq<State>, labels: seq<Label>, j: nat, k: nat, id: string)
    requires IsRun(cfg, run, labels) && j < k < |labels| && ClaimTook(run[j], labels[j], run[j + 1], id)
    ensures !StartsCall(run[k], labels[k], run[k + 1], id)
  {
    hide IsRun, Next, Inv, Recorded, ClaimTook, StartsCall;
    RunLength(cfg, run, labels);
    RunStep(cfg, run, labels, j);
    RunStep(cfg, run, labels, k);
    RunInv(cfg, run, labels, k);
    ClaimIsRecorded(cfg, run[j], labels[j], run[j + 1], id);
    RunMonotone(cfg, run, labels, j + 1, k, id);
    if StartsCall(run[k], labels[k], run[k + 1], id) {
      StartIsUnclaimed(cfg, run[k], labels[k], run[k + 1], id);
    }
  }

  // ---- Approvals --------------------------------------------------------------------------------------------------

  lemma {:induction false} AllowedWasSaved(cfg: Config, run: seq<State>, labels: seq<Label>, k: nat, id: string)
    requires IsRun(cfg, run, labels) && k <= |labels| && id in run[k].sh.hist.allowed
    ensures exists j | 0 <= j < k :: AllowTook(run[j], labels[j], run[j + 1], id)
  {
    hide IsRun, Recorded, Next, AllowTook;
    RunLength(cfg, run, labels);
    if k > 0 {
      RunStep(cfg, run, labels, k - 1);
      HistoryMonotone(run[k - 1], labels[k - 1], run[k], id);
      if id in run[k - 1].sh.hist.allowed {
        AllowedWasSaved(cfg, run, labels, k - 1, id);
      }
    }
  }

  lemma StartFacts(cfg: Config, s: State, l: Label, s': State, c: ToolCall, gate: bool)
    requires Inv(cfg, s) && Next(cfg, s, l, s') && Starts(s, l, s', c, gate)
    ensures gate ==> c.callId in s.sh.hist.allowed
    ensures c.key == ToolExecutionKey(cfg.digest, cfg.id, c.callId)
  {
    StartRecorded(cfg, s, l, s', c, gate);
    hide Next, SharedInv;
    DispatchHolds(cfg, s.sh, s.workers[l.t]);
    hide WorkerInv;
    ProtocolBegin.GateIsAllowed(cfg, s.sh, s.workers[l.t], s.workers[l.t].pc.d, l.a.i);
  }

  /** The handler of a call whose tool requires approval starts only after an Allow decision for it was saved. */
  lemma GatedStartWasAllowed(cfg: Config, run: seq<State>, labels: seq<Label>, k: nat, c: ToolCall)
    requires IsRun(cfg, run, labels) && k < |labels| && Starts(run[k], labels[k], run[k + 1], c, true)
    ensures exists j | 0 <= j < k :: AllowTook(run[j], labels[j], run[j + 1], c.callId)
  {
    hide IsRun, Next, Inv, Recorded;
    RunLength(cfg, run, labels);
    RunStep(cfg, run, labels, k);
    RunInv(cfg, run, labels, k);
    StartFacts(cfg, run[k], labels[k], run[k + 1], c, true);
    AllowedWasSaved(cfg, run, labels, k, c.callId);
  }

  /** While a batch without decisions has a call pending approval, none of its handlers has started. */
  lemma PendingMeansNotStarted(cfg: Config, run: seq<State>, labels: seq<Label>, k: nat, t: nat)
    requires IsRun(cfg, run, labels) && k <= |labels| && t in run[k].workers && run[k].workers[t].pc.Dispatching?
    requires var d := run[k].workers[t].pc.d; d.decisions.None? && AnyPending(d)
    ensures run[k].workers[t].pc.d.started == {}
  {
    hide IsRun, SharedInv;
    RunLength(cfg, run, labels);
    RunInv(cfg, run, labels, k);
    DispatchHolds(cfg, run[k].sh, run[k].workers[t]);
    hide WorkerInv;
  }

  /** Worker `t` is inside executeBatch. */
  ghost predicate Dispatches(s: State, t: nat) { t in s.workers && s.workers[t].pc.Dispatching? }

  /** Worker `t` starts some handler. */
  ghost predicate StartsSome(s: State, l: Label, s': State, t: nat) {
    l.Act? && l.t == t && exists c: ToolCall, gate: bool :: Starts(s, l, s', c, gate)
  }

  /** Within one executeBatch starts are only added, decisions stay, and a pending call stays pending. */
  lemma DispatchStep(cfg: Config, s: State, l: Label, s': State, t: nat)
    requires Next(cfg, s, l, s') && Dispatches(s, t) && Dispatches(s', t)
    ensures var d, d' := s.workers[t].pc.d, s'.workers[t].pc.d;
      d.started <= d'.started && d'.decisions == d.decisions && (AnyPending(d) ==> AnyPending(d'))
    ensures StartsSome(s, l, s', t) ==> s'.workers[t].pc.d.started != {}
  {
    hide AnyPending;
    if l.Act? && l.t == t {
      hide Next, Starts;
      DispatchAct(cfg, s, l, s');
      if StartsSome(s, l, s', t) {
        var c, gate :| Starts(s, l, s', c, gate);
        StartIsMarked(cfg, s, l, s', c, gate);
      }
    }
  }

  lemma StartIsMarked(cfg: Config, s: State, l: Label, s': State, c: ToolCall, gate: bool)
    requires Next(cfg, s, l, s') && Starts(s, l, s', c, gate)
    ensures c.callId in s'.workers[l.t].pc.d.started
  {
    hide BeginCall;
    var w := s.workers[l.t];
    assert BeginStep(cfg, s.sh, w, l.a.i, l.a.reply, s'.sh, s'.workers[l.t]);
    assert w.pc.d.outcomes[l.a.i].Todo?;
  }

  lemma OutcomeKeepsPending(d: Dispatch, i: nat, o: Outcome)
    requires i < |d.outcomes| && !d.outcomes[i].PendingApproval? && AnyPending(d)
    ensures AnyPending(d.(outcomes := d.outcomes[i := o]))
  {
    var k :| 0 <= k < |d.outcomes| && d.outcomes[k].PendingApproval?;
    assert d.outcomes[i := o][k].PendingApproval?;
  }

  lemma DispatchAct(cfg: Config, s: State, l: Label, s': State)
    requires Next(cfg, s, l, s') && l.Act? && Dispatches(s, l.t) && Dispatches(s', l.t)
    ensures var d, d' := s.workers[l.t].pc.d, s'.workers[l.t].pc.d;
      d.started <= d'.started && d'.decisions == d.decisions && (AnyPending(d) ==> AnyPending(d'))
  {
    hide AnyPending, BeginCall, GatesSettled;
    var d := s.workers[l.t].pc.d;
    assert l.a.Settle? || l.a.Finish? || l.a.Begin?;
    var i := l.a.i;
    assert i < |d.outcomes| && !d.outcomes[i].PendingApproval?;
    if AnyPending(d) {
      OutcomeKeepsPending(d, i, s'.workers[l.t].pc.d.outcomes[i]);
      AnyPendingOutcomes(d.(outcomes := d.outcomes[i := s'.workers[l.t].pc.d.outcomes[i]]), s'.workers[l.t].pc.d);
    }
  }

  lemma AnyPendingOutcomes(d: Dispatch, d': Dispatch)
    requires AnyPending(d) && d'.outcomes == d.outcomes
    ensures AnyPending(d')
  {
  }

  lemma {:induction false} DispatchRun(cfg: Config, run: seq<State>, labels: seq<Label>, j: nat, k: nat, t: nat)
    requires IsRun(cfg, run, labels) && j <= k <= |labels| && forall i | j <= i <= k :: Dispatches(run[i], t)
    ensures Dispatches(run[j], t) && Dispatches(run[k], t)
    ensures var d, d' := run[j].workers[t].pc.d, run[k].workers[t].pc.d;
      d.started <= d'.started && d'.decisions == d.decisions && (AnyPending(d) ==> AnyPending(d'))
  {
    hide Next, Init, AnyPending;
    if j < k {
      DispatchRun(cfg, run, labels, j, k - 1, t);
      DispatchStep(cfg, run[k - 1], labels[k - 1], run[k], t);
    }
  }

  /**
   If a call of a batch without decisions is pending approval at any point of its executeBatch (from step `j` to step
   `m`), then that executeBatch starts no handler at all, neither before nor after.
   */
  lemma NoStartBesidePendingApproval(cfg: Config, run: seq<State>, labels: seq<Label>, j: nat, k: nat, m: nat, t: nat,
                                     i: nat)
    requires IsRun(cfg, run, labels) && j <= k <= m <= |labels| && forall n | j <= n <= m :: Dispatches(run[n], t)
    requires Dispatches(run[k], t)
    requires var d := run[k].workers[t].pc.d;
      d.decisions.None? && exists n | 0 <= n < |d.outcomes| :: d.outcomes[n].PendingApproval?
    requires j <= i < m
    ensures !StartsSome(run[i], labels[i], run[i + 1], t)
  {
    assert AnyPending(run[k].workers[t].pc.d);
    hide Next, StartsSome, AnyPending, Init;
    DispatchRun(cfg, run, labels, k, m, t);
    PendingMeansNotStarted(cfg, run, labels, m, t);
    assert Dispatches(run[i], t) && Dispatches(run[i + 1], t);
    DispatchStep(cfg, run[i], labels[i], run[i + 1], t);
    DispatchRun(cfg, run, labels, i + 1, m, t);
  }

  // ---- Identity of calls ------------------------------------------------------------------------------------------

  /** Every start of a call carries the one key derived from (execution ID, call ID). */
  lemma StartsShareOneKey(cfg: Config, run: seq<State>, labels: seq<Label>, j: nat, k: nat, c: ToolCall, d: ToolCall,
                          g: bool, h: bool)
    requires IsRun(cfg, run, labels) && j < |labels| && k < |labels| && c.callId == d.callId
    requires Starts(run[j], labels[j], run[j + 1], c, g) && Starts(run[k], labels[k], run[k + 1], d, h)
    ensures c.key == d.key == ToolExecutionKey(cfg.digest, cfg.id, c.callId)
    ensures c.key ==
      "gude/tool/v1/" + cfg.digest(Decimal(|cfg.id|) + ":" + cfg.id + Decimal(|c.callId|) + ":" + c.callId)
  {
    hide IsRun, Next, Inv, Recorded;
    RunLength(cfg, run, labels);
    RunStep(cfg, run, labels, j);
    RunStep(cfg, run, labels, k);
    RunInv(cfg, run, labels, j);
    RunInv(cfg, run, labels, k);
    StartFacts(cfg, run[j], labels[j], run[j + 1], c, g);
    StartFacts(cfg, run[k], labels[k], run[k + 1], d, h);
  }

  /** Across executions that share a collision-free digest, equal keys mean the same call of the same execution. */
  lemma KeysTellExecutionsApart(cfg: Config, run: seq<State>, labels: seq<Label>, j: nat, c: ToolCall, g: bool,
                                cfg': Config, run': seq<State>, labels': seq<Label>, k: nat, d: ToolCall, h: bool)
    requires IsRun(cfg, run, labels) && j < |labels| && Starts(run[j], labels[j], run[j + 1], c, g)
    requires IsRun(cfg', run', labels') && k < |labels'| && Starts(run'[k], labels'[k], run'[k + 1], d, h)
    requires cfg.digest == cfg'.digest && Injective(cfg.digest) && c.key == d.key
    ensures cfg.id == cfg'.id && c.callId == d.callId
  {
    hide Injective, ToolExecutionKey, Starts;
    RunLength(cfg, run, labels);
    RunLength(cfg', run', labels');
    hide IsRun;
    StartsShareOneKey(cfg, run, labels, j, j, c, c, g, g);
    StartsShareOneKey(cfg', run', labels', k, k, d, d, h, h);
    KeyNamesOneCall(cfg.digest, cfg.id, c.callId, cfg'.id, d.callId);
  }

  lemma PlanIsFresh(cfg: Config, s: State, l: Label, s': State, rs: seq<Request>, r: Request)
    requires Inv(cfg, s) && Next(cfg, s, l, s') && SaveTook(s, l, s', Plan(rs)) && r in rs
    ensures r.id !in s.sh.hist.planned && r.id in s'.sh.hist.planned
  {
    SaveIsRecorded(cfg, s, l, s', Plan(rs));
    hide Next, SharedInv, RecordOk;
    assert WorkerInv(cfg, s.sh, s.workers[l.t]);
  }

  /** Call IDs are never planned twice within an execution. */
  lemma PlansAreDisjoint(cfg: Config, run: seq<State>, labels: seq<Label>, j: nat, k: nat, rs: seq<Request>,
                         qs: seq<Request>)
    requires IsRun(cfg, run, labels) && j < k < |labels|
    requires SaveTook(run[j], labels[j], run[j + 1], Plan(rs)) && SaveTook(run[k], labels[k], run[k + 1], Plan(qs))
    ensures forall r, q | r in rs && q in qs :: r.id != q.id
  {
    hide IsRun, Next, Inv, Recorded, SaveTook;
    RunLength(cfg, run, labels);
    RunStep(cfg, run, labels, j);
    RunStep(cfg, run, labels, k);
    RunInv(cfg, run, labels, j);
    RunInv(cfg, run, labels, k);
    RunMonotone(cfg, run, labels, j + 1, k, "");
    forall r, q | r in rs && q in qs ensures r.id != q.id {
      PlanIsFresh(cfg, run[j], labels[j], run[j + 1], rs, r);
      PlanIsFresh(cfg, run[k], labels[k], run[k + 1], qs, q);
    }
  }
}
