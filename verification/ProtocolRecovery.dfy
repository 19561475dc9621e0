/** Recovery of a planned batch. */
module ProtocolRecovery {
  import opened Messages
  import opened Execution
  import opened ToolBatch
  import opened Protocol
  import opened ProtocolInvariant
  import opened ProtocolAppends
  import opened ProtocolSaves
  import opened ProtocolRuns
  import opened ProtocolTheorems
  import opened ProtocolLocal

  // ---- Recovery of a planned batch ---------------------------------------------------------------

  /** What follows the cursor that was saved with a planned batch. */
  ghost function Tail(sh: Shared): seq<Message>
    requires sh.exec.lastSequence <= |sh.log|
  {
    sh.log[sh.exec.lastSequence..]
  }

  /** The record waits for its tool uses to be announced. */
  ghost predicate Unfinished(cfg: Config, sh: Shared) {
    SharedInv(cfg, sh) && sh.exec.status.StatusRunning? && sh.exec.phase.PhaseTools? && sh.exec.pendingPause.None? &&
    sh.exec.batch.Some? && AllPlanned(sh.exec.batch.value.calls) && sh.exec.lastSequence <= |sh.log|
  }

  /** Crash before the ToolUse append, or right after it. */
  ghost predicate CleanTail(cfg: Config, sh: Shared)
    requires sh.exec.batch.Some? && sh.exec.lastSequence <= |sh.log|
  {
    Tail(sh) == [] || (|Tail(sh)| == 1 && UseMatches(cfg.hash, Tail(sh)[0], sh.exec.batch.value.calls))
  }

  /** The stores once the batch is announced exactly once and ready. */
  ghost function AnnouncedState(sh: Shared): Shared
    requires sh.exec.batch.Some? && sh.exec.lastSequence <= |sh.log|
  {
    var calls := sh.exec.batch.value.calls;
    var log := if Tail(sh) == [] then sh.log + [UseMessage(calls)] else sh.log;
    var revision := if Tail(sh) == [] then sh.revision + 1 else sh.revision;
    sh.(log := log, revision := revision, exec := MarkReady(sh.exec, revision, |log|).(version := sh.exec.version + 1),
        hist := ReadyHistory(sh.hist, calls))
  }

  /** The recovery worker after it has read the record and the log. */
  ghost function Recoverer(sh: Shared): Worker
    requires sh.exec.lastSequence <= |sh.log|
  {
    Worker(Recovery, sh.exec, sh.exec.lastSequence, sh.revision, |sh.log|, Tail(sh), |Tail(sh)|, Inspect)
  }

  lemma RecovererFacts(cfg: Config, sh: Shared)
    requires Unfinished(cfg, sh)
    ensures var b := sh.exec.batch.value;
      PlannedFacts(cfg, sh.log, sh.exec.lastSequence, b) && BatchShape(cfg, b) &&
      UseMatches(cfg.hash, UseMessage(b.calls), b.calls)
    ensures WorkerInv(cfg, sh, Recoverer(sh))
  {
    assert RecordOk(cfg, sh.log, sh.exec, sh.hist) && cfg.start <= |sh.log|;
    PlannedUseMatches(cfg, sh, sh.exec);
    hide SharedInv, UseMatches;
    assert BatchShape(cfg, sh.exec.batch.value);
    RecovererInv(cfg, sh);
  }

  lemma RecovererInv(cfg: Config, sh: Shared)
    requires RecordOk(cfg, sh.log, sh.exec, sh.hist) && sh.exec.batch.Some? &&
      PlannedFacts(cfg, sh.log, sh.exec.lastSequence, sh.exec.batch.value)
    ensures WorkerInv(cfg, sh, Recoverer(sh))
  {
    hide RecordOk;
  }

  /**
   Recovery of a planned batch announces it exactly when nothing, or only its own ToolUse message, follows the
   cursor; any other continuation of the log stops recovery without an effect.
   */
  lemma RecoveryAcceptsCleanTail(cfg: Config, sh: Shared)
    requires Unfinished(cfg, sh)
    ensures var w := Inspected(cfg, Recoverer(sh));
      (w.pc == AppendUse <==> Tail(sh) == []) &&
      (w.pc == MarkingReady(0) <==> |Tail(sh)| == 1 && UseMatches(cfg.hash, Tail(sh)[0], sh.exec.batch.value.calls)) &&
      (w.pc == Done <==> !CleanTail(cfg, sh))
  {
    var r := Recoverer(sh);
    RecovererFacts(cfg, sh);
    if |Tail(sh)| == 1 && UseMatches(cfg.hash, Tail(sh)[0], sh.exec.batch.value.calls) {
      assert r.messages[1..] == [];
      assert ActiveBatch(cfg.hash, r.messages, sh.exec.batch.value.calls);
    }
    var w := Inspected(cfg, r);
    if w.pc.MarkingReady? {
      InspectPlanned(cfg, sh, r);
      assert w == r.(pc := MarkingReady(0));
      hide WorkerInv, SharedInv;
      MarkedUseIsLast(cfg, sh, w);
    }
  }

  ghost predicate Steps(cfg: Config, run: seq<State>, labels: seq<Label>) {
    |run| == |labels| + 1 && forall i | 0 <= i < |labels| :: Next(cfg, run[i], labels[i], run[i + 1])
  }

  lemma {:induction false} StepsAppend(cfg: Config, run: seq<State>, labels: seq<Label>, l: Label, s': State)
    requires Steps(cfg, run, labels) && Next(cfg, run[|labels|], l, s')
    ensures Steps(cfg, run + [s'], labels + [l])
  {
    hide Next;
    forall i | 0 <= i < |labels + [l]| ensures Next(cfg, (run + [s'])[i], (labels + [l])[i], (run + [s'])[i + 1]) {
    }
  }

  lemma Lifted(cfg: Config, s: State, t: nat, a: Action, sh': Shared, w': Worker)
    requires t in s.workers && WorkerStep(cfg, s.sh, s.workers[t], a, sh', w')
    ensures Next(cfg, s, Act(t, a), State(sh', s.workers[t := w']))
  {
    hide WorkerStep;
  }

  lemma RecoverySpawns(cfg: Config, s: State, t: nat)
    requires Unfinished(cfg, s.sh) && t !in s.workers
    ensures var w := Worker(Recovery, s.sh.exec, 0, 0, 0, [], 0, RecoverLog);
      Next(cfg, s, Spawn(t, w), s.(workers := s.workers[t := w])) &&
      WorkerStep(cfg, s.sh, w, LoadLog(0, Message(User, [])), s.sh, Recoverer(s.sh))
  {
    RecovererFacts(cfg, s.sh);
    hide SharedInv, WorkerInv, UseMatches, BatchShape;
  }

  lemma RecoveryAppends(cfg: Config, sh: Shared, w: Worker, sh': Shared, w': Worker)
    requires Unfinished(cfg, sh) && Tail(sh) == [] && w == Inspected(cfg, Recoverer(sh)) && w.pc == AppendUse
    requires sh' == sh.(log := sh.log + [UseMessage(sh.exec.batch.value.calls)], revision := sh.revision + 1)
    requires w' == AfterAppend(w, sh.revision + 1, |sh.log| + 1)
    ensures WorkerStep(cfg, sh, w, Append(Acked), sh', w')
    ensures w'.kind == w.kind && w'.pc == MarkingReady(0) && w'.exec == sh.exec && w'.revision == sh'.revision &&
      w'.lastSequence == |sh'.log|
  {
    hide SharedInv, UseMatches, UseMessage;
    assert w.messages[0..] == [UseMessage(sh.exec.batch.value.calls)];
  }

  lemma RecoveryMarks(cfg: Config, sh: Shared, w: Worker, sh': Shared)
    requires sh.exec.batch.Some? && AllPlanned(sh.exec.batch.value.calls) && w.pc == MarkingReady(0) &&
      w.exec == sh.exec
    requires w.kind.Recovery?
    requires sh' == Saved(sh, MarkReady(sh.exec, w.revision, w.lastSequence),
                          ReadyHistory(sh.hist, sh.exec.batch.value.calls))
    ensures WorkerStep(cfg, sh, w, Save(Acked), sh', AfterSave(w, sh'.exec))
  {
    hide MarkReady, ReadyHistory;
  }

  /** Recovery reads the record and the log and decides. */
  lemma RecoveryStarts(cfg: Config, s: State, t: nat) returns (run: seq<State>, labels: seq<Label>)
    requires Unfinished(cfg, s.sh) && t !in s.workers
    ensures Steps(cfg, run, labels) && run[0] == s
    ensures run[|labels|].sh == s.sh && t in run[|labels|].workers &&
      run[|labels|].workers[t] == Inspected(cfg, Recoverer(s.sh))
  {
    RecoverySpawns(cfg, s, t);
    hide SharedInv, WorkerStep, Next, Inspected;
    var w0 := Worker(Recovery, s.sh.exec, 0, 0, 0, [], 0, RecoverLog);
    var w1, load := Recoverer(s.sh), LoadLog(0, Message(User, []));
    var w2 := Inspected(cfg, w1);
    var s0 := s.(workers := s.workers[t := w0]);
    var s1 := State(s.sh, s0.workers[t := w1]);
    var s2 := State(s.sh, s1.workers[t := w2]);
    Lifted(cfg, s0, t, load, s.sh, w1);
    DecideStep(cfg, s.sh, w1);
    Lifted(cfg, s1, t, Decide, s.sh, w2);
    run, labels := [s, s0, s1, s2], [Spawn(t, w0), Act(t, load), Act(t, Decide)];
  }

  lemma OneMoreStep(cfg: Config, run: seq<State>, labels: seq<Label>, t: nat, a: Action, sh': Shared, w': Worker)
    returns (run': seq<State>, labels': seq<Label>)
    requires Steps(cfg, run, labels) && t in run[|labels|].workers
    requires WorkerStep(cfg, run[|labels|].sh, run[|labels|].workers[t], a, sh', w')
    ensures Steps(cfg, run', labels') && run'[0] == run[0]
    ensures run'[|labels'|].sh == sh' && t in run'[|labels'|].workers && run'[|labels'|].workers[t] == w'
  {
    hide Next, WorkerStep;
    var s := run[|labels|];
    var s' := State(sh', s.workers[t := w']);
    Lifted(cfg, s, t, a, sh', w');
    StepsAppend(cfg, run, labels, Act(t, a), s');
    run', labels' := run + [s'], labels + [Act(t, a)];
  }

  /** Steps of one recovery worker that meets no fault: read record and log, decide, append if needed, save. */
  lemma RecoveryRun(cfg: Config, s: State, t: nat) returns (run: seq<State>, labels: seq<Label>)
    requires Unfinished(cfg, s.sh) && CleanTail(cfg, s.sh) && t !in s.workers
    ensures Steps(cfg, run, labels) && run[0] == s && run[|labels|].sh == AnnouncedState(s.sh)
  {
    var w: Worker;
    run, labels, w := RecoveryAnnounces(cfg, s, t);
    hide *;
    run, labels := OneMoreStep(cfg, run, labels, t, Save(Acked), AnnouncedState(s.sh),
                               AfterSave(w, AnnouncedState(s.sh).exec));
  }

  /** The same up to the save: the ToolUse message is the last message of the log. */
  lemma RecoveryAnnounces(cfg: Config, s: State, t: nat) returns (run: seq<State>, labels: seq<Label>, w: Worker)
    requires Unfinished(cfg, s.sh) && CleanTail(cfg, s.sh) && t !in s.workers
    ensures Steps(cfg, run, labels) && run[0] == s && t in run[|labels|].workers && run[|labels|].workers[t] == w
    ensures WorkerStep(cfg, run[|labels|].sh, w, Save(Acked), AnnouncedState(s.sh),
                       AfterSave(w, AnnouncedState(s.sh).exec))
  {
    hide SharedInv, WorkerStep, Next, AfterAppend, AfterSave, UseMatches, UseMessage, Inspected, MarkReady, Steps;
    RecoveryAcceptsCleanTail(cfg, s.sh);
    run, labels := RecoveryStarts(cfg, s, t);
    DecideStep(cfg, s.sh, Recoverer(s.sh));
    var sh' := s.sh;
    w := Inspected(cfg, Recoverer(s.sh));
    if Tail(s.sh) == [] {
      sh' := s.sh.(log := s.sh.log + [UseMessage(s.sh.exec.batch.value.calls)], revision := s.sh.revision + 1);
      w := AfterAppend(w, s.sh.revision + 1, |s.sh.log| + 1);
      RecoveryAppends(cfg, s.sh, Inspected(cfg, Recoverer(s.sh)), sh', w);
      run, labels := OneMoreStep(cfg, run, labels, t, Append(Acked), sh', w);
    }
    RecoveryMarks(cfg, sh', w, AnnouncedState(s.sh));
  }

  lemma DecideStep(cfg: Config, sh: Shared, w: Worker)
    requires w.pc.Inspect?
    ensures WorkerStep(cfg, sh, w, Decide, sh, Inspected(cfg, w)) && Inspected(cfg, w).kind == w.kind &&
      Inspected(cfg, w).exec == w.exec
    ensures Inspected(cfg, w).revision == w.revision && Inspected(cfg, w).lastSequence == w.lastSequence
  {
  }

  lemma {:induction false} StepsKeepInv(cfg: Config, run: seq<State>, labels: seq<Label>, k: nat)
    requires Steps(cfg, run, labels) && k <= |labels| && Inv(cfg, run[0])
    ensures Inv(cfg, run[k])
  {
    hide Inv, Next;
    if k > 0 {
      StepsKeepInv(cfg, run, labels, k - 1);
      StepInv(cfg, run[k - 1], labels[k - 1], run[k]);
    }
  }

  /**
   Crash between the saved plan and its announcement: recovery alone reaches one and the same pair of stores
   whether the ToolUse message had been committed (`after`) or not (`before`), and the batch is announced once.
   */
  lemma RecoveryMeetsAtOneState(cfg: Config, before: State, after: State, t: nat)
    returns (run: seq<State>, labels: seq<Label>, run': seq<State>, labels': seq<Label>)
    requires Inv(cfg, before) && Unfinished(cfg, before.sh) && Tail(before.sh) == [] && t !in before.workers
    requires Inv(cfg, after) && t !in after.workers
    requires after.sh == before.sh.(log := before.sh.log + [UseMessage(before.sh.exec.batch.value.calls)],
                                    revision := before.sh.revision + 1)
    ensures Steps(cfg, run, labels) && run[0] == before && Steps(cfg, run', labels') && run'[0] == after
    ensures run[|labels|].sh == run'[|labels'|].sh
    ensures var sh := run[|labels|].sh; sh.exec.batch.Some? && Announced(cfg, sh.log, sh.exec.batch.value)
  {
    hide Inv, Steps, Announced, Unfinished, CleanTail;
    SameAnnouncement(cfg, before, after);
    run, labels := RecoveryRun(cfg, before, t);
    run', labels' := RecoveryRun(cfg, after, t);
    LastStep(cfg, run, labels);
    BoundaryNow(cfg, run[|labels|]);
    ReadyIsNotPlanned(cfg, before.sh);
    hide Unannounced;
  }

  lemma LastStep(cfg: Config, run: seq<State>, labels: seq<Label>)
    requires Steps(cfg, run, labels) && Inv(cfg, run[0])
    ensures |run| == |labels| + 1 && Inv(cfg, run[|labels|])
  {
    hide Inv, Next;
    StepsKeepInv(cfg, run, labels, |labels|);
  }

  /** Both crash states are ready for recovery and announce the same thing. */
  lemma SameAnnouncement(cfg: Config, before: State, after: State)
    requires Inv(cfg, before) && Unfinished(cfg, before.sh) && Tail(before.sh) == [] && Inv(cfg, after)
    requires after.sh == before.sh.(log := before.sh.log + [UseMessage(before.sh.exec.batch.value.calls)],
                                    revision := before.sh.revision + 1)
    ensures before.sh.exec.batch.Some? && before.sh.exec.lastSequence <= |before.sh.log|
    ensures Unfinished(cfg, after.sh) && CleanTail(cfg, before.sh) && CleanTail(cfg, after.sh)
    ensures AnnouncedState(before.sh) == AnnouncedState(after.sh)
    ensures AnnouncedState(before.sh).exec.batch.Some? && |AnnouncedState(before.sh).log| > 0
  {
    RecovererFacts(cfg, before.sh);
    hide SharedInv, WorkerInv, UseMatches, UseMessage, MarkReady;
    var calls := before.sh.exec.batch.value.calls;
    assert Tail(after.sh) == [UseMessage(calls)];
    MarkedHasBatch(before.sh.exec, before.sh.revision + 1, |before.sh.log| + 1);
  }

  lemma MarkedHasBatch(e: Record, revision: nat, last: nat)
    requires e.batch.Some?
    ensures MarkReady(e, revision, last).batch.Some?
  {
  }

  lemma ReadyIsNotPlanned(cfg: Config, sh: Shared)
    requires sh.exec.batch.Some? && sh.exec.lastSequence <= |sh.log|
    ensures !Unannounced(cfg, AnnouncedState(sh).exec.batch.value) || |AnnouncedState(sh).log| == 0
  {
  }
}
