/**
 What may go wrong can go wrong anywhere: the step system excludes no reply of a store, no end of a handler and no stop.

 The theorems about runs are worth as much as the runs they speak of. These lemmas say that every worker that writes
 can meet every reply, and what the stores then hold.
 */
module ProtocolFaults {
  import opened Messages
  import opened Execution
  import opened ToolBatch
  import opened Protocol

  /** Some step of worker `t` ends with these stores. */
  ghost predicate CanStep(cfg: Config, s: State, t: nat, a: Action, sh: Shared) {
    exists s' :: Next(cfg, s, Act(t, a), s') && s'.sh == sh
  }

  lemma StepExists(cfg: Config, s: State, t: nat, a: Action, sh: Shared, w: Worker)
    requires t in s.workers && WorkerStep(cfg, s.sh, s.workers[t], a, sh, w)
    ensures CanStep(cfg, s, t, a, sh)
  {
    hide WorkerStep;
    assert Next(cfg, s, Act(t, a), State(sh, s.workers[t := w]));
  }

  /**
   A save of the current record can be acknowledged or can take effect while its acknowledgement is lost; it can also be
   refused, and a save of an old record always leaves the stores alone.
   */
  lemma AnySaveReply(cfg: Config, s: State, t: nat, next: Record) returns (h: History)
    requires t in s.workers && Saves(s.workers[t].pc) && SaveTarget(cfg, s.workers[t]) == Some(next)
    ensures CanStep(cfg, s, t, Save(Refused), s.sh)
    ensures s.workers[t].exec.version != s.sh.exec.version ==> CanStep(cfg, s, t, Save(Acked), s.sh)
    ensures s.workers[t].exec.version == s.sh.exec.version ==>
      var sh := s.sh.(exec := next.(version := s.sh.exec.version + 1), hist := h);
      CanStep(cfg, s, t, Save(Acked), sh) && CanStep(cfg, s, t, Save(AckLost), sh)
  {
    var w := s.workers[t];
    var failed, acked := w.(pc := FailPc(w)), AfterSave(w, next.(version := s.sh.exec.version + 1));
    h := HistoryAfter(s.sh, w);
    var saved := next.(version := s.sh.exec.version + 1);
    var took := s.sh.(exec := saved, hist := h);
    hide SaveTarget, HistoryAfter, AfterSave, CanStep;
    StepExists(cfg, s, t, Save(Refused), s.sh, failed);
    if w.exec.version != s.sh.exec.version {
      StepExists(cfg, s, t, Save(Acked), s.sh, failed);
    } else {
      StepExists(cfg, s, t, Save(AckLost), took, failed);
      StepExists(cfg, s, t, Save(Acked), took, acked.(exec := saved));
    }
  }

  /** The same for an append to the conversation at the revision that the worker holds. */
  lemma AnyAppendReply(cfg: Config, s: State, t: nat)
    requires t in s.workers && s.workers[t].persistedCount < |s.workers[t].messages|
    requires var pc := s.workers[t].pc; pc.Loop? || pc.AppendUse? || pc.CommitAppend? || pc.ClaimAppend?
    ensures CanStep(cfg, s, t, Append(Refused), s.sh)
    ensures s.workers[t].revision != s.sh.revision ==> CanStep(cfg, s, t, Append(Acked), s.sh)
    ensures s.workers[t].revision == s.sh.revision ==>
      var delta := s.workers[t].messages[s.workers[t].persistedCount..];
      var sh := s.sh.(log := s.sh.log + delta, revision := s.sh.revision + 1);
      CanStep(cfg, s, t, Append(Acked), sh) && CanStep(cfg, s, t, Append(AckLost), sh)
  {
    var w := s.workers[t];
    var failed := w.(pc := FailPc(w));
    var delta := w.messages[w.persistedCount..];
    var took := s.sh.(log := s.sh.log + delta, revision := s.sh.revision + 1);
    hide CanStep;
    StepExists(cfg, s, t, Append(Refused), s.sh, failed);
    if w.revision != s.sh.revision {
      StepExists(cfg, s, t, Append(Acked), s.sh, failed);
    } else {
      StepExists(cfg, s, t, Append(AckLost), took, failed);
      StepExists(cfg, s, t, Append(Acked), took, AfterAppend(w, s.sh.revision + 1, |s.sh.log| + |delta|));
    }
  }

  /** A running handler can return any result of its call, or leave its outcome unknown. */
  lemma HandlerMayEnd(cfg: Config, s: State, t: nat, i: nat, o: Outcome)
    requires t in s.workers && s.workers[t].pc.Dispatching? && DispatchShape(s.workers[t].pc.d)
    requires var d := s.workers[t].pc.d;
      i < |d.calls| && d.outcomes[i].Running? &&
      (o.Unknown? || (o.Definitive? && o.result.ToolResult? && o.result.id == d.calls[i].callId))
    ensures CanStep(cfg, s, t, Finish(i, o), s.sh)
  {
    var w := s.workers[t];
    hide CanStep;
    StepExists(cfg, s, t, Finish(i, o), s.sh, w.(pc := Dispatching(w.pc.d.(outcomes := w.pc.d.outcomes[i := o]))));
  }

  /** A worker that has not finished can be cancelled, and any worker can crash, without a trace in the stores. */
  lemma MayStopAnywhere(cfg: Config, s: State, t: nat)
    requires t in s.workers
    ensures !s.workers[t].pc.Exit? && !s.workers[t].pc.Done? ==> CanStep(cfg, s, t, Stop, s.sh)
    ensures Next(cfg, s, Crash(t), s.(workers := s.workers - {t}))
  {
    var w := s.workers[t];
    if !w.pc.Exit? && !w.pc.Done? {
      hide CanStep;
      StepExists(cfg, s, t, Stop, s.sh, w.(pc := StopPc(w)));
    }
  }
}
