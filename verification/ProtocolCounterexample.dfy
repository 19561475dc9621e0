/**
 A reachable run in which a saved success claim disappears although the call's canonical result is a denial.

 A resume (worker 1) claims the paused record but reloads it only later. Meanwhile a recovery (worker 2), whose
 registry no longer gates the tool, starts the handler, and a reconciliation (worker 3) saves a success claim. The
 resume then loads the record with the claim in it, commits its own denial and completes the batch.
 */
module ProtocolCounterexample {
  import opened Messages
  import opened Execution
  import opened ToolBatch
  import opened Protocol
  import opened ProtocolRecovery
  import opened ProtocolClaims

  // ---- The values of the run ---------------------------------------------------------------------

  ghost const CFG := Config("e", 0, (id: string) => true, (input: string) => Some(input), (text: string) => text)
  ghost const ANSWER: string -> Decision := (id: string) => Decision(false, "no")
  ghost const KEY := ToolExecutionKey(CFG.digest, "e", "a")
  const HELLO := Message(User, [Text("hi")])
  const NOTHING := Message(User, [])
  const USE := Message(Assistant, [ToolUse("a", "t", "in")])
  const DENIAL := ToolResult("a", "denied", true, [])
  const CLAIM := Claim("a", Succeeded, "done", "")
  const REQUEST := Request("a", "t", "in", false)
  const PAUSE := ApprovalPause(["a"])

  ghost function Call(status: CallStatus, input: Option<string>, approval: Option<Decision>): ToolCall {
    ToolCall("a", "t", status, KEY, "in", input, false, approval)
  }

  ghost function Ready1(status: CallStatus, approval: Option<Decision>, claim: Option<Claim>): Option<Batch> {
    Some(Batch([Call(status, None, approval)], 2, 2, claim))
  }

  ghost const PLANNED := Some(Batch([Call(Planned, Some("in"), None)], 0, 0, None))

  ghost const R0 := Record("e", 0, 0, StatusRunning, PhaseModel, None, None, None, 0)
  ghost const R1 := Record("e", 1, 1, StatusRunning, PhaseTools, None, None, PLANNED, 1)
  ghost const R2 := Record("e", 2, 2, StatusRunning, PhaseTools, None, None, Ready1(Ready, None, None), 2)
  ghost const R3 := R2.(pendingPause := Some(PAUSE), version := 3)
  ghost const R4 := Record("e", 2, 2, StatusPaused, PhasePaused, Some(PAUSE), None, Ready1(Ready, None, None), 4)
  ghost const R5 := R2.(version := 5)
  ghost const R6 := R2.(batch := Ready1(InFlight, None, None), version := 6)
  ghost const R7 := R2.(batch := Ready1(InFlight, None, Some(CLAIM)), version := 7)
  ghost const R8 := R2.(batch := Ready1(InFlight, Some(Decision(false, "no")), Some(CLAIM)), version := 8)
  ghost const R9 := Record("e", 3, 3, StatusRunning, PhaseModel, None, None, None, 9)

  ghost const H1 := PlanHistory(NO_HISTORY, [REQUEST])
  ghost const H2 := ReadyHistory(H1, PLANNED.value.calls)
  ghost const H5 := H2.(resumed := H2.resumed + [4])
  ghost const H6 := BeginHistory(H5, Call(Ready, None, None), false)
  ghost const H7 := ResolveHistory(H6, "a", 6)
  ghost const H8 := DecideHistory(H7, ["a"], ANSWER)

  ghost const S0 := Shared([], 0, R0, NO_HISTORY)
  ghost const S1 := Shared([HELLO], 1, R0, NO_HISTORY)
  ghost const S3 := Shared([HELLO], 1, R1, H1)
  ghost const S4 := Shared([HELLO, USE], 2, R1, H1)
  ghost const S5 := Shared([HELLO, USE], 2, R2, H2)
  ghost const S10 := S5.(exec := R3)
  ghost const S11 := S5.(exec := R4)
  ghost const S13 := S5.(exec := R5, hist := H5)
  ghost const S20 := S5.(exec := R6, hist := H6)
  ghost const S22 := S5.(exec := R7, hist := H7)
  ghost const S25 := S22.(exec := R8, hist := H8)
  ghost const S30 := S25.(log := [HELLO, USE, ResultMsg([DENIAL])], revision := 3)
  ghost const S31 := S30.(exec := R9)

  ghost function Dispatched(gate: bool, decisions: Option<seq<Option<Decision>>>, call: ToolCall, o: Outcome,
                            started: set<string>): Pc {
    Dispatching(Dispatch([call], [gate], decisions, [o], started))
  }

  /** The invocation that plans the call and pauses for its approval. */
  ghost function First(e: Record, revision: nat, messages: seq<Message>, persisted: nat, pc: Pc): Worker {
    Worker(Invocation, e, 0, revision, persisted, messages, persisted, pc)
  }

  ghost function Recovering(e: Record, pc: Pc): Worker { Worker(Recovery, e, 1, 2, 2, [USE], 1, pc) }

  ghost const IT := Interrupt(2, 2, PAUSE)

  ghost function Resuming(e: Record, pc: Pc): Worker { Worker(Invocation, e, 0, 2, 2, [HELLO, USE], 2, pc) }

  ghost const DENIED_CALL := Call(InFlight, None, Some(Decision(false, "no")))
  ghost const DENY := Some([Some(Decision(false, "no"))])

  // ---- The steps --------------------------------------------------------------------------------------

  lemma UseIsUse()
    ensures UseMessage(PLANNED.value.calls) == USE && UseMatches(CFG.hash, USE, PLANNED.value.calls)
    ensures forall s, a, c :: UseMatches(CFG.hash, USE, Ready1(s, a, c).value.calls)
    ensures forall s, a, c :: !UseMatches(CFG.hash, HELLO, Ready1(s, a, c).value.calls)
  {
    assert UseMessage(PLANNED.value.calls).content == USE.content;
  }

  lemma NoIds()
    ensures UseIds([HELLO]) == [] && ResultIds([]) == [] && UseIds([]) == []
  {
    assert Blocks([HELLO]) == HELLO.content + Blocks([]);
    assert UsesOf(HELLO.content) == [] + UsesOf(HELLO.content[1..]);
  }

  lemma Planning()
    ensures WorkerStep(CFG, S0, First(R0, 0, [HELLO], 0, Loop), Append(Acked), S1, First(R0, 1, [HELLO], 1, Loop))
    ensures WorkerStep(CFG, S1, First(R0, 1, [HELLO], 1, Loop), LoadPrior([REQUEST]), S1,
                       First(R0, 1, [HELLO], 1, Plan([REQUEST])))
  {
    assert [HELLO][0..] == [HELLO] && [HELLO][CFG.start..] == [HELLO];
    NoIds();
    hide UseIds;
  }

  lemma Planned1()
    ensures WorkerStep(CFG, S1, First(R0, 1, [HELLO], 1, Plan([REQUEST])), Save(Acked), S3,
                       First(R1, 1, [HELLO, USE], 1, AppendUse))
  {
    assert PlanCalls(CFG.hash, CFG.digest, "e", [REQUEST]) == PLANNED.value.calls;
    UseIsUse();
  }

  lemma Announcing()
    ensures WorkerStep(CFG, S3, First(R1, 1, [HELLO, USE], 1, AppendUse), Append(Acked), S4,
                       First(R1, 2, [HELLO, USE], 2, MarkingReady(1)))
    ensures WorkerStep(CFG, S4, First(R1, 2, [HELLO, USE], 2, MarkingReady(1)), Save(Acked), S5,
                       First(R2, 2, [HELLO, USE], 2, Prepare(false)))
  {
    assert [HELLO, USE][1..] == [USE];
    assert ReadyCalls(PLANNED.value.calls) == R2.batch.value.calls;
  }

  /** The ToolUse message ends both copies of the log, and nothing has answered it. */
  lemma Boundary(status: CallStatus, approval: Option<Decision>, claim: Option<Claim>)
    ensures var calls := Ready1(status, approval, claim).value.calls;
      LastMatch(CFG, [HELLO, USE], calls, 1) && ActiveBatch(CFG.hash, [HELLO, USE][1..], calls) &&
      LastMatch(CFG, [USE], calls, 0) && ActiveBatch(CFG.hash, [USE][0..], calls) &&
      ActiveBatch(CFG.hash, [USE], calls) &&
      IdSet(ResultIds([HELLO, USE][1 + 1..])) == {} && IdSet(ResultIds([USE][0 + 1..])) == {} && [USE][1..] == []
  {
    UseIsUse();
    assert [HELLO, USE][1..] == [USE] && [USE][0..] == [USE] && [USE][1..] == [] && [HELLO, USE][2..] == [];
    NoIds();
  }

  lemma OpenOne(call: ToolCall)
    requires !call.status.Completed?
    ensures Remaining([call]) == [call]
  {
    assert [call][1..] == [];
  }

  lemma OpenedOne(w: Worker, call: ToolCall, given: bool, gate: bool, decisions: Option<seq<Option<Decision>>>)
    requires w.exec.batch.Some? && w.exec.batch.value.calls == [call] && !call.status.Completed?
    requires decisions == if given then Some([call.approval]) else None
    requires !given ==> call.approval.None?
    ensures Remaining(w.exec.batch.value.calls) == [call]
    ensures Opened(w, given, [gate]) == w.(pc := Dispatched(gate, decisions, call, Todo, {}))
  {
    OpenOne(call);
    assert seq(1, i => Todo) == [Todo];
    assert seq(1, i requires 0 <= i < 1 => [call][i].approval) == [call.approval];
  }

  lemma Asking()
    ensures WorkerStep(CFG, S5, First(R2, 2, [HELLO, USE], 2, Prepare(false)), Match(1), S5,
                       First(R2, 2, [HELLO, USE], 2, Open(false)))
    ensures WorkerStep(CFG, S5, First(R2, 2, [HELLO, USE], 2, Open(false)), OpenBatch([true]), S5,
                       First(R2, 2, [HELLO, USE], 2, Dispatched(true, None, Call(Ready, None, None), Todo, {})))
  {
    Boundary(Ready, None, None);
    OpenedOne(First(R2, 2, [HELLO, USE], 2, Open(false)), Call(Ready, None, None), false, true, None);
    hide LastMatch, ActiveBatch, Opened, Remaining;
  }

  lemma Pausing()
    ensures WorkerStep(CFG, S5,
                       First(R2, 2, [HELLO, USE], 2, Dispatched(true, None, Call(Ready, None, None), Todo, {})),
                       Settle(0, PendingApproval), S5,
                       First(R2, 2, [HELLO, USE], 2,
                             Dispatched(true, None, Call(Ready, None, None), PendingApproval, {})))
  {
    assert [Todo][0 := PendingApproval] == [PendingApproval];
  }

  lemma ApprovalCollected()
    ensures var d := Dispatch([Call(Ready, None, None)], [true], None, [PendingApproval], {});
      Collected(First(R2, 2, [HELLO, USE], 2, Dispatching(d)), d) ==
        First(R2, 2, [HELLO, USE], 2, SavePendingPause([], PAUSE))
  {
    assert [PendingApproval][1..] == [] && [Call(Ready, None, None)][1..] == [];
    assert PendingIds([Call(Ready, None, None)], [PendingApproval]) == ["a"] + PendingIds([], []) == ["a"];
    assert DefinitiveBlocks([PendingApproval]) == [] + DefinitiveBlocks([]) == [];
  }

  lemma ApprovalCollects()
    ensures WorkerStep(CFG, S5,
                       First(R2, 2, [HELLO, USE], 2,
                             Dispatched(true, None, Call(Ready, None, None), PendingApproval, {})),
                       Collect, S5,
                       First(R2, 2, [HELLO, USE], 2, SavePendingPause([], PAUSE)))
  {
    ApprovalCollected();
    hide Collected;
  }

  lemma Paused1()
    ensures WorkerStep(CFG, S5, First(R2, 2, [HELLO, USE], 2, SavePendingPause([], PAUSE)), Save(Acked), S10,
                       First(R3, 2, [HELLO, USE], 2, SavePause(PAUSE)))
    ensures WorkerStep(CFG, S10, First(R3, 2, [HELLO, USE], 2, SavePause(PAUSE)), Save(Acked), S11,
                       First(R4, 2, [HELLO, USE], 2, Done))
  {
  }

  lemma Claiming1()
    ensures SpawnAllowed(S11, Worker(Invocation, R4, 0, 0, 0, [], 0, ResumeClaim(ANSWER)))
    ensures WorkerStep(CFG, S11, Worker(Invocation, R4, 0, 0, 0, [], 0, ResumeClaim(ANSWER)), Save(Acked), S13,
                       Worker(Invocation, R5, 0, 0, 0, [], 0, ResumeReload(IT, ANSWER)))
  {
  }

  lemma Recovering1()
    ensures SpawnAllowed(S13, Worker(Recovery, R5, 0, 0, 0, [], 0, RecoverLog))
    ensures WorkerStep(CFG, S13, Worker(Recovery, R5, 0, 0, 0, [], 0, RecoverLog), LoadLog(0, NOTHING), S13,
                       Recovering(R5, Inspect))
    ensures WorkerStep(CFG, S13, Recovering(R5, Inspect), Decide, S13, Recovering(R5, Check))
    ensures WorkerStep(CFG, S13, Recovering(R5, Check), Decide, S13, Recovering(R5, Prepare(false)))
  {
    assert [HELLO, USE][1..] == [USE];
    Boundary(Ready, None, None);
    NoIds();
    assert Call(Ready, None, None) in R5.batch.value.calls;
    hide LastMatch, ActiveBatch, ResultIds;
  }

  lemma Starting()
    ensures WorkerStep(CFG, S13, Recovering(R5, Prepare(false)), Match(0), S13, Recovering(R5, Open(false)))
    ensures WorkerStep(CFG, S13, Recovering(R5, Open(false)), OpenBatch([false]), S13,
                       Recovering(R5, Dispatched(false, None, Call(Ready, None, None), Todo, {})))
  {
    Boundary(Ready, None, None);
    OpenedOne(Recovering(R5, Open(false)), Call(Ready, None, None), false, false, None);
    hide LastMatch, ActiveBatch, Opened, Remaining;
  }

  lemma Started1()
    ensures WorkerStep(CFG, S13, Recovering(R5, Dispatched(false, None, Call(Ready, None, None), Todo, {})),
                       Begin(0, Acked), S20,
                       Recovering(R6, Dispatched(false, None, Call(Ready, None, None), Running, {"a"})))
  {
    var calls := R5.batch.value.calls;
    assert SetStatus(calls, "a", InFlight) == R6.batch.value.calls;
    assert FindCall(calls, "a") == Some(Call(Ready, None, None));
    assert BeginCall(R5, "a", true) == Claimed(R6.(version := 5));
    assert [Todo][0 := Running] == [Running] && {} + {"a"} == {"a"};
  }

  lemma Resolving()
    ensures SpawnAllowed(S20, Worker(Reconciliation, R6, 0, 0, 0, [], 0, ResolveClaim(CLAIM)))
    ensures WorkerStep(CFG, S20, Worker(Reconciliation, R6, 0, 0, 0, [], 0, ResolveClaim(CLAIM)), Save(Acked), S22,
                       Worker(Reconciliation, R7, 0, 0, 0, [], 0, RecoverLog))
  {
    assert FindCall(R6.batch.value.calls, "a") == Some(Call(InFlight, None, None));
  }

  lemma Reloading()
    ensures WorkerStep(CFG, S22, Worker(Invocation, R5, 0, 0, 0, [], 0, ResumeReload(IT, ANSWER)), LoadRecord, S22,
                       Worker(Invocation, R7, 0, 0, 0, [], 0, ResumeLog(IT, ANSWER)))
    ensures WorkerStep(CFG, S22, Worker(Invocation, R7, 0, 0, 0, [], 0, ResumeLog(IT, ANSWER)),
                       LoadLog(0, NOTHING), S22,
                       Resuming(R7, SaveDecisions(["a"], ANSWER)))
  {
    assert S22.log[0..] == [HELLO, USE];
  }

  lemma Deciding()
    ensures WorkerStep(CFG, S22, Resuming(R7, SaveDecisions(["a"], ANSWER)), Save(Acked), S25,
                       Resuming(R8, Prepare(true)))
  {
    assert DecideCalls(R7.batch.value.calls, ["a"], ANSWER) == R8.batch.value.calls;
    assert FindCall(R7.batch.value.calls, "a") == Some(Call(InFlight, None, None));
  }

  lemma Denying()
    ensures WorkerStep(CFG, S25, Resuming(R8, Prepare(true)), Match(1), S25, Resuming(R8, Open(true)))
    ensures WorkerStep(CFG, S25, Resuming(R8, Open(true)), OpenBatch([true]), S25,
                       Resuming(R8, Dispatched(true, DENY, DENIED_CALL, Todo, {})))
  {
    Boundary(InFlight, Some(Decision(false, "no")), Some(CLAIM));
    OpenedOne(Resuming(R8, Open(true)), DENIED_CALL, true, true, DENY);
    hide LastMatch, ActiveBatch, Opened, Remaining;
  }

  lemma Denied1()
    ensures WorkerStep(CFG, S25, Resuming(R8, Dispatched(true, DENY, DENIED_CALL, Todo, {})),
                       Settle(0, Definitive(DENIAL, false)), S25,
                       Resuming(R8, Dispatched(true, DENY, DENIED_CALL, Definitive(DENIAL, false), {})))
  {
    assert [Todo][0 := Definitive(DENIAL, false)] == [Definitive(DENIAL, false)];
  }

  lemma DenialCollected()
    ensures var d := Dispatch([DENIED_CALL], [true], DENY, [Definitive(DENIAL, false)], {});
      Collected(Resuming(R8, Dispatching(d)), d) ==
        Resuming(R8, CommitAppend({"a"}, ToLoop)).(messages := [HELLO, USE, ResultMsg([DENIAL])])
  {
    var os := [Definitive(DENIAL, false)];
    assert os[1..] == [] && [DENIED_CALL][1..] == [];
    assert DefinitiveBlocks(os) == [DENIAL] + DefinitiveBlocks([]) == [DENIAL];
    assert PendingIds([DENIED_CALL], os) == [] + PendingIds([], []) == [];
    assert ResultsOf([DENIAL]) == ["a"] + ResultsOf([]) == ["a"];
    assert IdSet(["a"]) == {"a"};
  }

  lemma DenialCollects()
    ensures WorkerStep(CFG, S25, Resuming(R8, Dispatched(true, DENY, DENIED_CALL, Definitive(DENIAL, false), {})),
                       Collect, S25,
                       Resuming(R8, CommitAppend({"a"}, ToLoop)).(messages := [HELLO, USE, ResultMsg([DENIAL])]))
  {
    DenialCollected();
    hide Collected;
  }

  lemma Committing1()
    ensures WorkerStep(CFG, S25,
                       Resuming(R8, CommitAppend({"a"}, ToLoop)).(messages := [HELLO, USE, ResultMsg([DENIAL])]),
                       Append(Acked), S30,
                       First(R8, 3, [HELLO, USE, ResultMsg([DENIAL])], 3, CommitAck({"a"}, ToLoop)))
  {
    assert [HELLO, USE, ResultMsg([DENIAL])][2..] == [ResultMsg([DENIAL])];
    assert [HELLO, USE] + [ResultMsg([DENIAL])] == [HELLO, USE, ResultMsg([DENIAL])];
  }

  lemma Acknowledging()
    ensures WorkerStep(CFG, S30, First(R8, 3, [HELLO, USE, ResultMsg([DENIAL])], 3, CommitAck({"a"}, ToLoop)),
                       Save(Acked), S31,
                       First(R9, 3, [HELLO, USE, ResultMsg([DENIAL])], 3, Loop))
  {
    assert AllCompleted(CompleteCalls(R8.batch.value.calls, {"a"}));
  }

  // ---- The run ----------------------------------------------------------------------------------------------

  /** The run so far ends in shared state `sh` with worker `w` at `t`. */
  ghost predicate At(run: seq<State>, labels: seq<Label>, sh: Shared, t: nat, w: Worker) {
    Steps(CFG, run, labels) && run[0] == START && run[|labels|].sh == sh && t in run[|labels|].workers &&
    run[|labels|].workers[t] == w
  }

  ghost const START := State(S0, map[0 := First(R0, 0, [HELLO], 0, Loop)])

  /** Other workers are not disturbed by a step of worker `t`. */
  lemma Went(run: seq<State>, labels: seq<Label>, t: nat, a: Action, sh: Shared, w: Worker, sh': Shared, w': Worker)
    returns (run': seq<State>, labels': seq<Label>)
    requires At(run, labels, sh, t, w) && WorkerStep(CFG, sh, w, a, sh', w')
    ensures At(run', labels', sh', t, w') && |labels'| == |labels| + 1 && |run'| == |run| + 1
    ensures run'[|labels|] == run[|labels|] && run'[|labels'|].workers == run[|labels|].workers[t := w']
  {
    hide Next, WorkerStep;
    var s := run[|labels|];
    var s' := State(sh', s.workers[t := w']);
    Lifted(CFG, s, t, a, sh', w');
    StepsAppend(CFG, run, labels, Act(t, a), s');
    run', labels' := run + [s'], labels + [Act(t, a)];
  }

  lemma Joined(run: seq<State>, labels: seq<Label>, sh: Shared, t: nat, w: Worker)
    returns (run': seq<State>, labels': seq<Label>)
    requires Steps(CFG, run, labels) && run[0] == START && run[|labels|].sh == sh && t !in run[|labels|].workers &&
      SpawnAllowed(sh, w)
    ensures At(run', labels', sh, t, w) && run'[|labels'|].workers == run[|labels|].workers[t := w]
  {
    var s := run[|labels|];
    var s' := s.(workers := s.workers[t := w]);
    assert Next(CFG, s, Spawn(t, w), s');
    hide Next, SpawnAllowed;
    StepsAppend(CFG, run, labels, Spawn(t, w), s');
    run', labels' := run + [s'], labels + [Spawn(t, w)];
  }

  lemma ToReady() returns (run: seq<State>, labels: seq<Label>)
    ensures At(run, labels, S5, 0, First(R2, 2, [HELLO, USE], 2, Prepare(false))) && run[|labels|].workers.Keys == {0}
  {
    hide WorkerStep, Next;
    run, labels := [START], [];
    Planning();
    Planned1();
    Announcing();
    run, labels := Went(run, labels, 0, Append(Acked), S0, First(R0, 0, [HELLO], 0, Loop), S1,
                        First(R0, 1, [HELLO], 1, Loop));
    hide At, Steps;
    run, labels := Went(run, labels, 0, LoadPrior([REQUEST]), S1, First(R0, 1, [HELLO], 1, Loop), S1,
                        First(R0, 1, [HELLO], 1, Plan([REQUEST])));
    run, labels := Went(run, labels, 0, Save(Acked), S1, First(R0, 1, [HELLO], 1, Plan([REQUEST])), S3,
                        First(R1, 1, [HELLO, USE], 1, AppendUse));
    run, labels := Went(run, labels, 0, Append(Acked), S3, First(R1, 1, [HELLO, USE], 1, AppendUse), S4,
                        First(R1, 2, [HELLO, USE], 2, MarkingReady(1)));
    run, labels := Went(run, labels, 0, Save(Acked), S4, First(R1, 2, [HELLO, USE], 2, MarkingReady(1)), S5,
                        First(R2, 2, [HELLO, USE], 2, Prepare(false)));
  }

  lemma ToPaused() returns (run: seq<State>, labels: seq<Label>)
    ensures At(run, labels, S11, 0, First(R4, 2, [HELLO, USE], 2, Done)) && run[|labels|].workers.Keys == {0}
  {
    hide WorkerStep, Next, At, Steps;
    run, labels := ToReady();
    Asking();
    Pausing();
    ApprovalCollects();
    Paused1();
    var c := Call(Ready, None, None);
    var open := First(R2, 2, [HELLO, USE], 2, Dispatched(true, None, c, Todo, {}));
    var asked := First(R2, 2, [HELLO, USE], 2, Dispatched(true, None, c, PendingApproval, {}));
    run, labels := Went(run, labels, 0, Match(1), S5, First(R2, 2, [HELLO, USE], 2, Prepare(false)), S5,
                        First(R2, 2, [HELLO, USE], 2, Open(false)));
    run, labels := Went(run, labels, 0, OpenBatch([true]), S5, First(R2, 2, [HELLO, USE], 2, Open(false)), S5, open);
    run, labels := Went(run, labels, 0, Settle(0, PendingApproval), S5, open, S5, asked);
    run, labels := Went(run, labels, 0, Collect, S5, asked, S5,
                        First(R2, 2, [HELLO, USE], 2, SavePendingPause([], PAUSE)));
    run, labels := Went(run, labels, 0, Save(Acked), S5, First(R2, 2, [HELLO, USE], 2, SavePendingPause([], PAUSE)),
                        S10, First(R3, 2, [HELLO, USE], 2, SavePause(PAUSE)));
    run, labels := Went(run, labels, 0, Save(Acked), S10, First(R3, 2, [HELLO, USE], 2, SavePause(PAUSE)), S11,
                        First(R4, 2, [HELLO, USE], 2, Done));
  }

  ghost const STALLED := Worker(Invocation, R5, 0, 0, 0, [], 0, ResumeReload(IT, ANSWER))

  lemma Ends(run: seq<State>, labels: seq<Label>, sh: Shared, t: nat, w: Worker)
    requires At(run, labels, sh, t, w)
    ensures Steps(CFG, run, labels) && run[0] == START && run[|labels|].sh == sh && t in run[|labels|].workers &&
      run[|labels|].workers[t] == w
  {
    hide Next;
  }

  lemma Still(run: seq<State>, labels: seq<Label>, sh: Shared, t: nat, w: Worker)
    requires Steps(CFG, run, labels) && run[0] == START && run[|labels|].sh == sh && t in run[|labels|].workers &&
      run[|labels|].workers[t] == w
    ensures At(run, labels, sh, t, w)
  {
    hide Next;
  }

  /** A recovery starts the handler while the resume stalls between its claim and its reload. */
  lemma ToStarted() returns (run: seq<State>, labels: seq<Label>)
    ensures At(run, labels, S20, 1, STALLED) && run[|labels|].workers.Keys == {0, 1, 2}
  {
    hide WorkerStep, Next, At, Steps, SpawnAllowed;
    run, labels := ToPaused();
    Ends(run, labels, S11, 0, First(R4, 2, [HELLO, USE], 2, Done));
    Claiming1();
    var resume := Worker(Invocation, R4, 0, 0, 0, [], 0, ResumeClaim(ANSWER));
    run, labels := Joined(run, labels, S11, 1, resume);
    run, labels := Went(run, labels, 1, Save(Acked), S11, resume, S13, STALLED);
    Ends(run, labels, S13, 1, STALLED);
    Recovering1();
    Starting();
    Started1();
    var recovery := Worker(Recovery, R5, 0, 0, 0, [], 0, RecoverLog);
    var open := Recovering(R5, Dispatched(false, None, Call(Ready, None, None), Todo, {}));
    var started := Recovering(R6, Dispatched(false, None, Call(Ready, None, None), Running, {"a"}));
    run, labels := Joined(run, labels, S13, 2, recovery);
    run, labels := Went(run, labels, 2, LoadLog(0, NOTHING), S13, recovery, S13, Recovering(R5, Inspect));
    run, labels := Went(run, labels, 2, Decide, S13, Recovering(R5, Inspect), S13, Recovering(R5, Check));
    run, labels := Went(run, labels, 2, Decide, S13, Recovering(R5, Check), S13, Recovering(R5, Prepare(false)));
    run, labels := Went(run, labels, 2, Match(0), S13, Recovering(R5, Prepare(false)), S13,
                        Recovering(R5, Open(false)));
    run, labels := Went(run, labels, 2, OpenBatch([false]), S13, Recovering(R5, Open(false)), S13, open);
    run, labels := Went(run, labels, 2, Begin(0, Acked), S13, open, S20, started);
    Ends(run, labels, S20, 2, started);
    Still(run, labels, S20, 1, STALLED);
  }

  /** A success claim is saved, and the resume loads the record that carries it. */
  lemma ToReloaded() returns (run: seq<State>, labels: seq<Label>)
    ensures At(run, labels, S22, 1, Resuming(R7, SaveDecisions(["a"], ANSWER)))
  {
    hide WorkerStep, Next, At, Steps, SpawnAllowed;
    run, labels := ToStarted();
    Ends(run, labels, S20, 1, STALLED);
    Resolving();
    Reloading();
    var reconcile := Worker(Reconciliation, R6, 0, 0, 0, [], 0, ResolveClaim(CLAIM));
    var loaded := Worker(Invocation, R7, 0, 0, 0, [], 0, ResumeLog(IT, ANSWER));
    run, labels := Joined(run, labels, S20, 3, reconcile);
    run, labels := Went(run, labels, 3, Save(Acked), S20, reconcile, S22,
                        Worker(Reconciliation, R7, 0, 0, 0, [], 0, RecoverLog));
    Ends(run, labels, S22, 3, Worker(Reconciliation, R7, 0, 0, 0, [], 0, RecoverLog));
    Still(run, labels, S22, 1, STALLED);
    run, labels := Went(run, labels, 1, LoadRecord, S22, STALLED, S22, loaded);
    run, labels := Went(run, labels, 1, LoadLog(0, NOTHING), S22, loaded, S22,
                        Resuming(R7, SaveDecisions(["a"], ANSWER)));
  }

  /** The resume commits its own denial. */
  lemma ToCommitted() returns (run: seq<State>, labels: seq<Label>)
    ensures At(run, labels, S30, 1, First(R8, 3, [HELLO, USE, ResultMsg([DENIAL])], 3, CommitAck({"a"}, ToLoop)))
  {
    hide WorkerStep, Next, At, Steps;
    run, labels := ToReloaded();
    Deciding();
    Denying();
    Denied1();
    DenialCollects();
    Committing1();
    var open := Resuming(R8, Dispatched(true, DENY, DENIED_CALL, Todo, {}));
    var denied := Resuming(R8, Dispatched(true, DENY, DENIED_CALL, Definitive(DENIAL, false), {}));
    var commit := Resuming(R8, CommitAppend({"a"}, ToLoop)).(messages := [HELLO, USE, ResultMsg([DENIAL])]);
    run, labels := Went(run, labels, 1, Save(Acked), S22, Resuming(R7, SaveDecisions(["a"], ANSWER)), S25,
                        Resuming(R8, Prepare(true)));
    run, labels := Went(run, labels, 1, Match(1), S25, Resuming(R8, Prepare(true)), S25, Resuming(R8, Open(true)));
    run, labels := Went(run, labels, 1, OpenBatch([true]), S25, Resuming(R8, Open(true)), S25, open);
    run, labels := Went(run, labels, 1, Settle(0, Definitive(DENIAL, false)), S25, open, S25, denied);
    run, labels := Went(run, labels, 1, Collect, S25, denied, S25, commit);
    run, labels := Went(run, labels, 1, Append(Acked), S25, commit, S30,
                        First(R8, 3, [HELLO, USE, ResultMsg([DENIAL])], 3, CommitAck({"a"}, ToLoop)));
  }

  lemma StartIsInit()
    ensures Init(CFG, START)
  {
    assert S0.log[CFG.start..] == [];
  }

  lemma DenialIsNotTheClaim()
    ensures !ClaimIsCanonical(CFG, S31.log, CLAIM)
  {
    var answer := [ResultMsg([DENIAL])];
    assert S31.log[CFG.start..] == [HELLO, USE] + answer;
    BlocksConcat([HELLO, USE], answer);
    assert [HELLO, USE][1..] == [USE] && [USE][1..] == [];
    assert Blocks([HELLO, USE]) == HELLO.content + Blocks([USE]) && Blocks([USE]) == USE.content + Blocks([]);
    assert Blocks(answer) == [DENIAL] + Blocks([]);
    assert Blocks(S31.log[CFG.start..]) == [Text("hi"), ToolUse("a", "t", "in"), DENIAL];
    assert !ConfirmsClaim(DENIAL, CLAIM);
  }

  /**
   A resume that continues over an unfinished claim can drop it: in this run of the protocol the claim leaves the
   record although the call's canonical result is not the claimed one.
   */
  lemma ResumeOverClaimDropsIt() returns (run: seq<State>, labels: seq<Label>, k: nat)
    ensures IsRun(CFG, run, labels) && k < |labels|
    ensures HoldsClaim(run[k].sh.exec, CLAIM) && !HoldsClaim(run[k + 1].sh.exec, CLAIM)
    ensures !ClaimIsCanonical(CFG, run[k + 1].sh.log, CLAIM)
  {
    hide WorkerStep, Next, At, Init;
    run, labels := ToCommitted();
    Acknowledging();
    k := |labels|;
    var commit := First(R8, 3, [HELLO, USE, ResultMsg([DENIAL])], 3, CommitAck({"a"}, ToLoop));
    Ends(run, labels, S30, 1, commit);
    var done := First(R9, 3, [HELLO, USE, ResultMsg([DENIAL])], 3, Loop);
    run, labels := Went(run, labels, 1, Save(Acked), S30, commit, S31, done);
    Ends(run, labels, S31, 1, done);
    StartIsInit();
    DenialIsNotTheClaim();
    hide ClaimIsCanonical;
  }
}
