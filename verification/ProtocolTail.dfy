/** What follows a planned batch. */
module ProtocolTail {
  import opened Messages
  import opened Execution
  import opened ToolBatch
  import opened Protocol
  import opened ProtocolInvariant
  import opened ProtocolAppends
  import opened ProtocolSaves
  import opened ProtocolSaveSteps
  import opened ProtocolRuns
  import opened ProtocolTheorems
  import opened ProtocolRecovery

  ghost predicate PlannedBatch(b: Option<Batch>) { b.Some? && AllPlanned(b.value.calls) }

  ghost predicate HasPlan(e: Record) { PlannedBatch(e.batch) }

  /** A plan that a worker still holds is the current one, or its calls have been announced. */
  ghost predicate Held(sh: Shared, e: Record) {
    HasPlan(e) ==> BatchIds(e) <= sh.hist.readied || sh.exec.batch == e.batch
  }

  ghost predicate AllHeld(s: State) { forall t | t in s.workers :: Held(s.sh, s.workers[t].exec) }

  // ---- Saves never change a plan, except to announce it -------------------------------------------

  /** Every save of a planned record keeps the plan and its cursor, or makes its calls ready. */
  lemma SaveKeepsPlan(cfg: Config, sh: Shared, w: Worker, next: Record)
    requires SharedInv(cfg, sh) && WorkerInv(cfg, sh, w) && w.exec == sh.exec && HasPlan(w.exec) &&
      SaveTarget(cfg, w) == Some(next)
    ensures (next.batch == w.exec.batch && next.lastSequence == w.exec.lastSequence) ||
      (w.pc.MarkingReady? && BatchIds(w.exec) <= HistoryAfter(sh, w).readied && !HasPlan(next))
  {
    PlanNeverHeld(cfg, sh, w);
    if w.pc.MarkingReady? {
      assert RecordOk(cfg, sh.log, w.exec, sh.hist);
      assert w.exec.batch.value.calls != [];
      ReadyCallsSame(w.exec.batch.value.calls);
    } else {
      if w.pc.SaveDecisions? { DecisionsNeedReady(cfg, sh, w, next); }
      hide SharedInv, WorkerInv;
    }
  }

  lemma DecisionsNeedReady(cfg: Config, sh: Shared, w: Worker, next: Record)
    requires SharedInv(cfg, sh) && WorkerInv(cfg, sh, w) && w.exec == sh.exec && w.pc.SaveDecisions? &&
      SaveTarget(cfg, w) == Some(next)
    ensures !HasPlan(w.exec)
  {
    DecidingFacts(cfg, sh, w);
    hide *;
    DecisionsMeetReadyBatch(cfg, sh, w, next);
    HoldingIsNotPlanned(cfg, sh, w);
  }

  lemma DecidingFacts(cfg: Config, sh: Shared, w: Worker)
    requires SharedInv(cfg, sh) && WorkerInv(cfg, sh, w) && w.exec == sh.exec && w.pc.SaveDecisions?
    ensures CurrentOkNow(cfg, sh, w) && SaveDecisionsOk(sh, w, w.pc.ids) && RecordOk(cfg, sh.log, w.exec, sh.hist)
  {
    hide RecordOk, CurrentOk, GrantsOk, ClaimsOk, StartsOk, SaveDecisionsOk, LogCopy;
  }

  lemma HoldingIsNotPlanned(cfg: Config, sh: Shared, w: Worker)
    requires RecordOk(cfg, sh.log, w.exec, sh.hist) && Holding(sh, w)
    ensures !HasPlan(w.exec)
  {
    if HasPlan(w.exec) { PlannedHasNoBoundary(cfg, sh, w.exec); }
  }

  lemma InFlightIsNotPlanned(w: Worker, id: string)
    requires InFlightTarget(w, id)
    ensures !HasPlan(w.exec)
  {
    var c := FindCall(w.exec.batch.value.calls, id).value;
    assert c in w.exec.batch.value.calls;
  }

  /** Workers that act on a ready batch do not hold a planned one. */
  lemma PlanNeverHeld(cfg: Config, sh: Shared, w: Worker)
    requires WorkerInv(cfg, sh, w) && HasPlan(w.exec)
    ensures !w.pc.PrepareAck? && !w.pc.CommitAck? && !w.pc.RecoverAck? && !w.pc.SavePause? && !w.pc.ClaimClear? &&
      !w.pc.RetrySave? &&
            !w.pc.ResolveClaim? && !w.pc.Dispatching? && !w.pc.CommitAppend? && !w.pc.ClaimAppend?
  {
    PlannedHasNoBoundary(cfg, sh, w.exec);
    assert PcOk(cfg, sh, w);
    hide WorkerInv, InFlightTarget, AllPlanned;
    if w.pc.RetrySave? {
      InFlightIsNotPlanned(w, w.pc.callId);
    } else if w.pc.ResolveClaim? {
      InFlightIsNotPlanned(w, w.pc.claim.callId);
    }
  }

  lemma PlannedHasNoBoundary(cfg: Config, sh: Shared, e: Record)
    requires RecordOk(cfg, sh.log, e, sh.hist) && HasPlan(e)
    ensures e.batch.value.useLastSequence == 0 && e.batch.value.calls != []
  {
    assert e.batch.value.calls[0] in e.batch.value.calls;
  }

  // ---- Held plans over whole runs ----------------------------------------------------------------------

  /** What a step may do to the current record: nothing, or a save by a worker that holds it. */
  lemma PlanAfterStep(cfg: Config, s: State, l: Label, s': State)
    requires Inv(cfg, s) && Next(cfg, s, l, s') && HasPlan(s.sh.exec)
    ensures (s'.sh.exec.batch == s.sh.exec.batch && s'.sh.exec.lastSequence == s.sh.exec.lastSequence) ||
      (BatchIds(s.sh.exec) <= s'.sh.hist.readied && !HasPlan(s'.sh.exec))
  {
    StepRecorded(cfg, s, l, s');
    if NoSave(s, s') {
      StepInv(cfg, s, l, s');
    } else {
      PlanAfterSave(cfg, s, l, s');
    }
  }

  lemma PlanAfterSave(cfg: Config, s: State, l: Label, s': State)
    requires Inv(cfg, s) && Next(cfg, s, l, s') && HasPlan(s.sh.exec) && s'.sh.exec.version != s.sh.exec.version
    ensures (s'.sh.exec.batch == s.sh.exec.batch && s'.sh.exec.lastSequence == s.sh.exec.lastSequence) ||
      (BatchIds(s.sh.exec) <= s'.sh.hist.readied && !HasPlan(s'.sh.exec))
  {
    hide SharedInv, WorkerInv, SaveTarget, HistoryAfter, AfterSave, BeginCall, Collected, Inspected, Checked, Opened,
         AfterAppend, Loaded, PlanAllowed, MayBegin, MaySettle, MayFinish, LastMatch, ActiveBatch, PlannedBatch;
    assert l.Act? && l.t in s.workers && (l.a.Save? || l.a.Begin? || l.a.Finalize?);
    var w := s.workers[l.t];
    assert w.exec.version == s.sh.exec.version;
    HoldsCurrent(cfg, s.sh, w);
    PlanNeverHeld(cfg, s.sh, w);
    if l.a.Save? {
      SaveKeepsPlan(cfg, s.sh, w, SaveTarget(cfg, w).value);
    } else {
      PlanIsABatch(s.sh.exec);
    }
  }

  lemma PlanIsABatch(e: Record)
    requires HasPlan(e)
    ensures e.batch.Some?
  {
  }

  lemma HeldStep(cfg: Config, s: State, l: Label, s': State)
    requires Inv(cfg, s) && AllHeld(s) && Next(cfg, s, l, s')
    ensures AllHeld(s')
  {
    StepInv(cfg, s, l, s');
    forall t | t in s'.workers ensures Held(s'.sh, s'.workers[t].exec) {
      HeldWorker(cfg, s, l, s', t);
    }
  }

  lemma HeldWorker(cfg: Config, s: State, l: Label, s': State, t: nat)
    requires Inv(cfg, s) && AllHeld(s) && Next(cfg, s, l, s') && Extends(s.sh, s'.sh) && t in s'.workers
    ensures Held(s'.sh, s'.workers[t].exec)
  {
    var e := s'.workers[t].exec;
    RecordSource(cfg, s, l, s', t);
    if HasPlan(e) && e != s'.sh.exec && !(BatchIds(e) <= s'.sh.hist.readied) {
      assert Held(s.sh, e) && s.sh.exec.batch == e.batch;
      PlanAfterStep(cfg, s, l, s');
      assert BatchIds(s.sh.exec) == BatchIds(e);
    }
  }

  /** A worker's record is the one it had, or the current one. */
  lemma RecordSource(cfg: Config, s: State, l: Label, s': State, t: nat)
    requires Next(cfg, s, l, s') && t in s'.workers
    ensures s'.workers[t].exec == s'.sh.exec || s'.workers[t].exec == s.sh.exec ||
            (t in s.workers && s'.workers[t].exec == s.workers[t].exec)
  {
    hide SaveTarget, HistoryAfter, PlanAllowed, MayBegin, MaySettle, MayFinish, LastMatch, ActiveBatch, BeginCall;
  }

  lemma {:induction false} RunHeld(cfg: Config, run: seq<State>, labels: seq<Label>, k: nat)
    requires IsRun(cfg, run, labels) && k < |run|
    ensures AllHeld(run[k])
  {
    hide Inv, Next, Init, Held, AllHeld;
    if k == 0 {
      InitHeld(cfg, run[0]);
    } else {
      RunHeld(cfg, run, labels, k - 1);
      RunInv(cfg, run, labels, k - 1);
      HeldStep(cfg, run[k - 1], labels[k - 1], run[k]);
    }
  }

  lemma InitHeld(cfg: Config, s: State)
    requires Init(cfg, s)
    ensures AllHeld(s)
  {
    forall t | t in s.workers ensures Held(s.sh, s.workers[t].exec) {
      assert t in s.workers.Keys;
    }
  }

  // ---- The tail of a planned batch ----------------------------------------------------------------------

  /** A turn of another writer, or text that a worker of this execution commits between batches. */
  ghost predicate TextAppend(s: State, l: Label) {
    l.Foreign? || (l.Act? && l.a.Append? && l.t in s.workers && s.workers[l.t].pc.Loop?)
  }

  /** The worker's append takes effect. */
  ghost predicate Appends(sh: Shared, w: Worker, sh': Shared) {
    (w.pc.AppendUse? || w.pc.CommitAppend? || w.pc.ClaimAppend?) && w.revision == sh.revision &&
    w.persistedCount < |w.messages| &&
    sh' == sh.(log := sh.log + w.messages[w.persistedCount..], revision := sh.revision + 1)
  }

  lemma LogAfterStep(cfg: Config, s: State, l: Label, s': State)
    requires Next(cfg, s, l, s') && !TextAppend(s, l)
    ensures s'.sh.log == s.sh.log || (l.Act? && l.t in s.workers && Appends(s.sh, s.workers[l.t], s'.sh))
  {
    hide SaveTarget, HistoryAfter, AfterSave, Collected, Inspected, Checked, Opened, PlanAllowed, ActiveBatch,
         LastMatch, BeginCall, AfterAppend, Loaded, MaySettle, MayFinish;
  }

  lemma PlannedNow(cfg: Config, sh: Shared)
    requires SharedInv(cfg, sh) && HasPlan(sh.exec)
    ensures sh.exec.lastSequence <= |sh.log| && cfg.start <= sh.exec.lastSequence &&
      BatchIds(sh.exec) !! sh.hist.readied && BatchIds(sh.exec) != {}
    ensures forall id | id in sh.hist.readied ::
      id in ResultIds(sh.log[cfg.start..]) && id in UseIds(sh.log[cfg.start..])
    ensures UseMatches(cfg.hash, UseMessage(sh.exec.batch.value.calls), sh.exec.batch.value.calls)
  {
    PlannedUseMatches(cfg, sh, sh.exec);
    var calls := sh.exec.batch.value.calls;
    assert calls[0] in calls && calls[0].callId in BatchIds(sh.exec);
    hide RecordOk, GrantsOk, ClaimsOk, StartsOk, UseMatches;
    forall id | id in sh.hist.readied
      ensures id in ResultIds(sh.log[cfg.start..]) && id in UseIds(sh.log[cfg.start..])
    {
      assert ResultCount(cfg, sh.log, id) > 0 && UseCount(cfg, sh.log, id) > 0;
      CountMember(ResultIds(sh.log[cfg.start..]), id);
      CountMember(UseIds(sh.log[cfg.start..]), id);
    }
  }

  /** While a plan is current every announced call is answered, so no worker has an answer left to commit. */
  lemma NoAnswerWhilePlanned(cfg: Config, sh: Shared, w: Worker)
    requires SharedInv(cfg, sh) && WorkerInv(cfg, sh, w) && HasPlan(sh.exec) && w.revision == sh.revision
    ensures !w.pc.CommitAppend? && !w.pc.ClaimAppend?
  {
    PlannedNow(cfg, sh);
    hide HasPlan, LogOk, CurrentOk, GrantsOk, ClaimsOk, StartsOk, UseMatches, UseMessage;
    if w.pc.CommitAppend? {
      CommitWouldAnswer(cfg, sh, w);
    } else if w.pc.ClaimAppend? {
      ClaimWouldAnswer(cfg, sh, w);
    }
  }

  lemma CommitWouldAnswer(cfg: Config, sh: Shared, w: Worker)
    requires SharedInv(cfg, sh) && WorkerInv(cfg, sh, w) && w.pc.CommitAppend? && w.revision == sh.revision
    ensures exists id :: id in sh.hist.readied && id !in ResultIds(sh.log[cfg.start..])
  {
    hide SharedInv, RecordOk;
    var blocks := w.messages[w.persistedCount].content;
    assert blocks[0] in blocks;
    ResultsOfMember(blocks, blocks[0].id);
    UnseenIsUnanswered(cfg, sh, w, blocks[0].id);
  }

  lemma ClaimWouldAnswer(cfg: Config, sh: Shared, w: Worker)
    requires SharedInv(cfg, sh) && WorkerInv(cfg, sh, w) && w.pc.ClaimAppend? && w.revision == sh.revision
    ensures exists id :: id in sh.hist.readied && id !in ResultIds(sh.log[cfg.start..])
  {
    hide SharedInv;
    UnseenIsUnanswered(cfg, sh, w, w.pc.claim.callId);
  }

  /** A worker that still announces a plan on the current log announces the current plan. */
  lemma AnnouncesCurrentPlan(cfg: Config, sh: Shared, w: Worker)
    requires SharedInv(cfg, sh) && WorkerInv(cfg, sh, w) && HasPlan(sh.exec) && Held(sh, w.exec)
    requires w.pc.AppendUse? && w.revision == sh.revision
    ensures w.exec.batch == sh.exec.batch && |w.messages| == w.persistedCount + 1
    ensures w.messages[w.persistedCount] == UseMessage(sh.exec.batch.value.calls)
    ensures forall c | c in sh.exec.batch.value.calls :: c.callId !in UseIds(sh.log[cfg.start..])
  {
    PlannedNow(cfg, sh);
    PlannedHasNoBoundary(cfg, sh, w.exec);
    hide SharedInv, RecordOk, UseMatches, UseMessage;
    var calls := w.exec.batch.value.calls;
    assert sh.log[cfg.start..w.lastSequence] == sh.log[cfg.start..];
    assert calls[0] in calls && calls[0].callId in BatchIds(w.exec);
  }

  lemma MatchAnnounces(hash: string -> Option<string>, m: Message, calls: seq<ToolCall>)
    requires UseMatches(hash, m, calls) && calls != []
    ensures calls[0].callId in UseIds([m])
  {
    SingleBlocks(m);
    UsesOfMember(m.content, calls[0].callId);
  }

  lemma TailIsUsed(cfg: Config, sh: Shared, calls: seq<ToolCall>)
    requires cfg.start <= sh.exec.lastSequence <= |sh.log| && calls != []
    requires |Tail(sh)| == 1 && UseMatches(cfg.hash, Tail(sh)[0], calls)
    ensures calls[0].callId in UseIds(sh.log[cfg.start..])
  {
    MatchAnnounces(cfg.hash, Tail(sh)[0], calls);
    hide UseMatches;
    assert Tail(sh) == [Tail(sh)[0]];
    UseIdsSplit(sh.log, cfg.start, sh.exec.lastSequence, |sh.log|);
    assert sh.log[cfg.start..|sh.log|] == sh.log[cfg.start..] && sh.log[sh.exec.lastSequence..|sh.log|] == Tail(sh);
  }

  /** The announcement lands right behind the cursor. */
  lemma AnnouncementIsClean(cfg: Config, sh: Shared, w: Worker, sh': Shared)
    requires SharedInv(cfg, sh) && WorkerInv(cfg, sh, w) && HasPlan(sh.exec) && Held(sh, w.exec)
    requires w.pc.AppendUse? && Appends(sh, w, sh') && sh.exec.lastSequence <= |sh.log| && CleanTail(cfg, sh)
    ensures CleanTail(cfg, sh')
  {
    PlannedNow(cfg, sh);
    AnnouncesCurrentPlan(cfg, sh, w);
    PlannedHasNoBoundary(cfg, sh, sh.exec);
    hide SharedInv, WorkerInv, UseMatches, UseMessage, HasPlan;
    var calls := sh.exec.batch.value.calls;
    assert calls[0] in calls;
    if Tail(sh) != [] { TailIsUsed(cfg, sh, calls); }
    assert Tail(sh') == Tail(sh) + [UseMessage(calls)];
  }

  lemma CleanStep(cfg: Config, s: State, l: Label, s': State)
    requires Inv(cfg, s) && AllHeld(s) && Next(cfg, s, l, s') && !TextAppend(s, l)
    requires HasPlan(s.sh.exec) && s.sh.exec.lastSequence <= |s.sh.log| && CleanTail(cfg, s.sh)
    ensures BatchIds(s.sh.exec) <= s'.sh.hist.readied ||
      (s'.sh.exec.batch == s.sh.exec.batch && s'.sh.exec.lastSequence == s.sh.exec.lastSequence <= |s'.sh.log| &&
       CleanTail(cfg, s'.sh))
  {
    PlanAfterStep(cfg, s, l, s');
    LogAfterStep(cfg, s, l, s');
    if s'.sh.log != s.sh.log {
      var w := s.workers[l.t];
      assert WorkerInv(cfg, s.sh, w) && Held(s.sh, w.exec);
      hide SharedInv, WorkerInv, Held, HasPlan, Next, BatchIds, CleanTail;
      NoAnswerWhilePlanned(cfg, s.sh, w);
      AnnouncementIsClean(cfg, s.sh, w, s'.sh);
    } else {
      hide SharedInv, WorkerInv, Held, HasPlan, Next, BatchIds, UseMatches;
    }
  }

  /** The plan of `e` is announced, or still current with nothing but its own announcement behind the cursor. */
  ghost predicate AnnouncedOrClean(cfg: Config, sh: Shared, e: Record) {
    BatchIds(e) <= sh.hist.readied ||
    (HasPlan(sh.exec) && sh.exec.batch == e.batch && sh.exec.lastSequence == e.lastSequence <= |sh.log| &&
     CleanTail(cfg, sh))
  }

  lemma AnnouncedOrCleanStep(cfg: Config, s: State, l: Label, s': State, e: Record)
    requires Inv(cfg, s) && AllHeld(s) && Next(cfg, s, l, s') && !TextAppend(s, l) && AnnouncedOrClean(cfg, s.sh, e)
    ensures AnnouncedOrClean(cfg, s'.sh, e)
  {
    StepInv(cfg, s, l, s');
    if !(BatchIds(e) <= s.sh.hist.readied) {
      CleanStep(cfg, s, l, s');
    }
    hide Inv, Next, AllHeld, CleanTail, PlannedBatch;
  }

  lemma {:induction false} AnnouncedOrCleanRun(cfg: Config, run: seq<State>, labels: seq<Label>, j: nat, k: nat,
                                               e: Record)
    requires IsRun(cfg, run, labels) && j <= k <= |labels| && AnnouncedOrClean(cfg, run[j].sh, e)
    requires forall i | j <= i < k :: !TextAppend(run[i], labels[i])
    ensures AnnouncedOrClean(cfg, run[k].sh, e)
  {
    hide Inv, Next, Init, AllHeld, AnnouncedOrClean, TextAppend;
    if j < k {
      AnnouncedOrCleanRun(cfg, run, labels, j, k - 1, e);
      RunInv(cfg, run, labels, k - 1);
      RunHeld(cfg, run, labels, k - 1);
      AnnouncedOrCleanStep(cfg, run[k - 1], labels[k - 1], run[k], e);
    }
  }

  /** A plan is saved with the end of the log that its worker knows. */
  lemma PlanSavedAtEnd(cfg: Config, s: State, l: Label, s': State, rs: seq<Request>)
    requires Inv(cfg, s) && Next(cfg, s, l, s') && SaveTook(s, l, s', Plan(rs)) &&
      s.workers[l.t].revision == s.sh.revision
    ensures HasPlan(s'.sh.exec) && s'.sh.exec.lastSequence == |s'.sh.log| && AnnouncedOrClean(cfg, s'.sh, s'.sh.exec)
  {
    SaveIsRecorded(cfg, s, l, s', Plan(rs));
    PlannerAtEnd(cfg, s, l.t);
    hide Inv, Next, HistoryAfter, UseMatches, PlanBatch, AnnouncedOrClean;
    PlanBatchPlans(cfg, rs, s.workers[l.t]);
    EmptyTailIsClean(cfg, s'.sh);
  }

  lemma PlannerAtEnd(cfg: Config, s: State, t: nat)
    requires Inv(cfg, s) && t in s.workers && s.workers[t].pc.Plan? && s.workers[t].revision == s.sh.revision
    ensures s.workers[t].lastSequence == |s.sh.log|
  {
    assert WorkerInv(cfg, s.sh, s.workers[t]);
    hide SharedInv, RecordOk, PcOk;
  }

  lemma PlanBatchPlans(cfg: Config, rs: seq<Request>, w: Worker)
    ensures var e := PlanBatch(cfg.hash, cfg.digest, rs, w.exec, w.revision, w.lastSequence);
      HasPlan(e) && e.lastSequence == w.lastSequence
  {
  }

  lemma EmptyTailIsClean(cfg: Config, sh: Shared)
    requires HasPlan(sh.exec) && sh.exec.lastSequence == |sh.log|
    ensures AnnouncedOrClean(cfg, sh, sh.exec)
  {
  }

  lemma UnannouncedIsClean(cfg: Config, sh: Shared, e: Record)
    requires SharedInv(cfg, sh) && AnnouncedOrClean(cfg, sh, e) && sh.exec.batch == e.batch && HasPlan(e)
    ensures HasPlan(sh.exec) && sh.exec.lastSequence == e.lastSequence <= |sh.log| && CleanTail(cfg, sh)
  {
    PlannedNow(cfg, sh);
    hide SharedInv, UseMatches, PlannedBatch;
    assert BatchIds(e) == BatchIds(sh.exec);
  }

  /**
   From the save of a plan on the current log until its calls are announced, nothing but the plan's own ToolUse
   message follows its cursor, whatever workers crash, resume or recover, unless somebody appends text.
   */
  lemma PlanTailStaysClean(cfg: Config, run: seq<State>, labels: seq<Label>, j: nat, k: nat, rs: seq<Request>)
    requires IsRun(cfg, run, labels) && j < k <= |labels| && SaveTook(run[j], labels[j], run[j + 1], Plan(rs))
    requires run[j].workers[labels[j].t].revision == run[j].sh.revision
    requires forall i | j < i < k :: !TextAppend(run[i], labels[i])
    requires run[k].sh.exec.batch == run[j + 1].sh.exec.batch
    ensures HasPlan(run[k].sh.exec) && run[k].sh.exec.lastSequence == |run[j + 1].sh.log| <= |run[k].sh.log|
    ensures CleanTail(cfg, run[k].sh)
  {
    hide IsRun, Inv, Next, TextAppend, CleanTail, HasPlan, Recorded;
    RunLength(cfg, run, labels);
    RunStep(cfg, run, labels, j);
    RunInv(cfg, run, labels, j);
    RunInv(cfg, run, labels, k);
    hide *;
    PlanSavedAtEnd(cfg, run[j], labels[j], run[j + 1], rs);
    AnnouncedOrCleanRun(cfg, run, labels, j + 1, k, run[j + 1].sh.exec);
    SharedNow(cfg, run[k]);
    UnannouncedIsClean(cfg, run[k].sh, run[j + 1].sh.exec);
  }

  lemma SharedNow(cfg: Config, s: State)
    requires Inv(cfg, s)
    ensures SharedInv(cfg, s.sh)
  {
  }

  /**
   A plan that was saved on the current log and never announced is recovered, wherever its workers crashed: a
   recovery that may start reaches the announced batch without another fault, with one ToolUse message per call.
   */
  lemma PlannedCrashIsRecovered(cfg: Config, run: seq<State>, labels: seq<Label>, j: nat, k: nat, rs: seq<Request>,
                                t: nat)
    returns (more: seq<State>, steps: seq<Label>)
    requires IsRun(cfg, run, labels) && j < k <= |labels| && SaveTook(run[j], labels[j], run[j + 1], Plan(rs))
    requires run[j].workers[labels[j].t].revision == run[j].sh.revision
    requires forall i | j < i < k :: !TextAppend(run[i], labels[i])
    requires run[k].sh.exec.batch == run[j + 1].sh.exec.batch
    requires t !in run[k].workers && run[k].sh.exec.status.StatusRunning? && run[k].sh.exec.phase.PhaseTools? &&
      run[k].sh.exec.pendingPause.None?
    ensures Steps(cfg, more, steps) && more[0] == run[k]
    ensures var log := run[j + 1].sh.log; var sh := more[|steps|].sh;
      |sh.log| == |log| + 1 && sh.exec.batch.Some? && Announced(cfg, sh.log, sh.exec.batch.value) &&
      sh.exec.batch.value.useLastSequence == |sh.log| && BatchIds(sh.exec) == BatchIds(run[j + 1].sh.exec)
  {
    PlanTailStaysClean(cfg, run, labels, j, k, rs);
    hide IsRun, Inv, Next, TextAppend, Recorded, SaveTook;
    RunInv(cfg, run, labels, k);
    more, steps := RecoverPlan(cfg, run[k], t);
  }

  lemma RecoverPlan(cfg: Config, s: State, t: nat) returns (more: seq<State>, steps: seq<Label>)
    requires Inv(cfg, s) && HasPlan(s.sh.exec) && s.sh.exec.lastSequence <= |s.sh.log| && CleanTail(cfg, s.sh)
    requires t !in s.workers && s.sh.exec.status.StatusRunning? && s.sh.exec.phase.PhaseTools? &&
      s.sh.exec.pendingPause.None?
    ensures Steps(cfg, more, steps) && more[0] == s
    ensures var sh := more[|steps|].sh;
      |sh.log| == s.sh.exec.lastSequence + 1 && sh.exec.batch.Some? && Announced(cfg, sh.log, sh.exec.batch.value) &&
      sh.exec.batch.value.useLastSequence == |sh.log| && BatchIds(sh.exec) == BatchIds(s.sh.exec)
  {
    SharedNow(cfg, s);
    PlannedNow(cfg, s.sh);
    AnnouncedLength(cfg, s.sh);
    hide Inv, SharedInv, CleanTail, Announced, Steps;
    more, steps := RecoveryRun(cfg, s, t);
    LastStep(cfg, more, steps);
    BoundaryNow(cfg, more[|steps|]);
    ReadyIsNotPlanned(cfg, s.sh);
    hide Unannounced;
  }

  lemma AnnouncedLength(cfg: Config, sh: Shared)
    requires HasPlan(sh.exec) && BatchIds(sh.exec) != {} && sh.exec.lastSequence <= |sh.log| && CleanTail(cfg, sh)
    ensures var a := AnnouncedState(sh);
      |a.log| == sh.exec.lastSequence + 1 && a.exec.batch.Some? && a.exec.batch.value.useLastSequence == |a.log| &&
      BatchIds(a.exec) == BatchIds(sh.exec)
  {
    hide UseMatches;
    var calls := sh.exec.batch.value.calls;
    ReadyCallsSame(calls);
    SameIds(calls, ReadyCalls(calls));
  }
}
