/**
 The durable tool-execution protocol as a labelled step system.

 Two stores commit independently: the append-only conversation log and the versioned execution record.
 Any number of workers (invocations, approval resumes, recoveries, reconciliations) act on them. A worker
 performs at most one store operation per step; a write may be acknowledged, refused, or take effect while
 its acknowledgement is lost, and a worker may crash at any point.
 */
module Protocol {
  import opened Messages
  import opened Execution
  import opened ToolBatch

  /** `own` holds the call IDs of this execution; `start` is its persisted start cursor. */
  datatype Config = Config(
    id: string, start: nat, own: string -> bool, hash: string -> Option<string>, digest: string -> string)

  /** What happened so far. The program never reads it. */
  datatype History = History(
    planned: set<string>,        // call IDs of every saved plan
    readied: set<string>,        // call IDs that reached Ready
    unsafe: set<string>,         // planned calls recorded as not replay-safe
    grants: multiset<string>,    // handler starts, one per saved claim
    retries: multiset<string>,   // saved Retry reconciliations
    keys: set<(string, string)>, // (call ID, idempotency key) of every start
    allowed: set<string>,        // calls with a saved Allow decision
    gated: set<string>,          // started calls whose tool required approval
    claimed: set<string>,        // calls with a saved success/failure claim
    resumed: seq<nat>,           // paused versions taken by a resume
    resolved: seq<nat>)          // versions taken by a reconciliation

  datatype Shared = Shared(log: seq<Message>, revision: nat, exec: Record, hist: History)

  datatype Outcome =
    | Todo
    | Running
    | Definitive(result: Block, human: bool)
    | PendingApproval
    | Deferred
    | Unknown
    | CoordinationFailure

  /** One executeBatch: `gates[i]` says that the tool of `calls[i]` requires approval. */
  datatype Dispatch = Dispatch(
    calls: seq<ToolCall>, gates: seq<bool>, decisions: Option<seq<Option<Decision>>>,
    outcomes: seq<Outcome>, started: set<string>)

  datatype Interrupt = Interrupt(revision: nat, lastSequence: nat, pause: Pause)

  datatype After = ToLoop | ToFail | ToPause(pause: Pause)

  datatype Pc =
    | Loop                                            // between tool batches
    | Plan(requests: seq<Request>)                    // prior uses checked, plan not saved
    | AppendUse                                       // ToolUse message not yet committed
    | MarkingReady(index: nat)                        // ToolUse canonical at messages[index]
    | Prepare(given: bool)                            // before prepareToolBatch
    | PrepareAck(done: set<string>, given: bool)      // canonical results to acknowledge
    | Open(given: bool)                               // before executeBatch
    | Dispatching(d: Dispatch)
    | SavePendingPause(blocks: seq<Block>, pause: Pause)
    | CommitAppend(done: set<string>, after: After)
    | CommitAck(done: set<string>, after: After)
    | SavePause(pause: Pause)
    | ResumeClaim(answer: string -> Decision)
    | ResumeReload(it: Interrupt, answer: string -> Decision)
    | ResumeLog(it: Interrupt, answer: string -> Decision)
    | SaveDecisions(ids: seq<string>, answer: string -> Decision)
    | ProjectPause
    | RecoverLog
    | Inspect
    | ClaimAppend(claim: Claim)
    | ClaimClear(claim: Claim)
    | RecoverAck(done: set<string>)
    | Check
    | RetrySave(callId: string)
    | ResolveClaim(claim: Claim)
    | Exit                                            // returning; may still finalize
    | Done

  datatype Kind = Invocation | Recovery | Reconciliation

  /** `messages[..persistedCount]` is the worker's copy of the log from `base` up to `lastSequence`. */
  datatype Worker = Worker(
    kind: Kind, exec: Record, base: nat, revision: nat, lastSequence: nat,
    messages: seq<Message>, persistedCount: nat, pc: Pc)

  datatype State = State(sh: Shared, workers: map<nat, Worker>)

  datatype Reply = Acked | AckLost | Refused

  datatype Action =
    | AddText(m: Message)
    | LoadPrior(requests: seq<Request>)
    | Save(reply: Reply)
    | Append(reply: Reply)
    | Match(index: nat)
    | OpenBatch(gates: seq<bool>)
    | Settle(i: nat, o: Outcome)
    | Begin(i: nat, reply: Reply)
    | Finish(i: nat, o: Outcome)
    | Collect
    | LoadRecord
    | LoadLog(boundary: nat, text: Message)
    | Decide
    | Finalize(status: Status, reply: Reply)
    | Stop

  datatype Label = Foreign(ms: seq<Message>) | Spawn(t: nat, w: Worker) | Crash(t: nat) | Act(t: nat, a: Action)

  // ---- Message classes ------------------------------------------------------

  predicate NoToolBlocks(m: Message) { forall b | b in m.content :: !b.ToolUse? && !b.ToolResult? }

  /** Messages of other writers never carry a tool block of this execution. */
  ghost predicate ForeignMessage(cfg: Config, m: Message) {
    forall b | b in m.content :: (b.ToolUse? || b.ToolResult?) ==> !cfg.own(b.id)
  }

  // ---- Store operations -----------------------------------------------------

  /** A refused save or append: the invocation returns an error, except that a pause is exposed even if not saved. */
  function FailPc(w: Worker): Pc { if w.pc.SavePause? then Done else StopPc(w) }

  /** Cancellation: an invocation returns an error; a resume that has not taken the record has nothing to finalize. */
  function StopPc(w: Worker): Pc { if w.kind.Invocation? && !w.pc.ResumeClaim? then Exit else Done }

  predicate Saves(pc: Pc) {
    pc.Loop? || pc.Plan? || pc.MarkingReady? || pc.PrepareAck? || pc.CommitAck? || pc.RecoverAck? ||
    pc.SavePendingPause? || pc.SavePause? || pc.ResumeClaim? || pc.SaveDecisions? || pc.ProjectPause? ||
    pc.ClaimClear? || pc.RetrySave? || pc.ResolveClaim?
  }

  /** Record that the worker would save next; None when the change itself is rejected. */
  ghost function SaveTarget(cfg: Config, w: Worker): Option<Record> {
    var e := w.exec;
    match w.pc
    case Loop => Some(e)
    case Plan(rs) => if e.batch.Some? then None else
      Some(PlanBatch(cfg.hash, cfg.digest, rs, e, w.revision, w.lastSequence))
    case MarkingReady(_) => if e.batch.None? || !AllPlanned(e.batch.value.calls) then None else
      Some(MarkReady(e, w.revision, w.lastSequence))
    case PrepareAck(done, _) => Some(Acknowledge(e, done, w.revision, w.lastSequence))
    case CommitAck(done, _) => Some(Acknowledge(e, done, w.revision, w.lastSequence))
    case RecoverAck(done) => Some(Acknowledge(e, done, w.revision, w.lastSequence))
    case SavePendingPause(_, p) => Some(e.(pendingPause := Some(p)))
    case SavePause(p) => Some(e.(status := StatusPaused, phase := PhasePaused, revision := w.revision,
                                 lastSequence := w.lastSequence, pause := Some(p), pendingPause := None))
    case ResumeClaim(_) => Some(e.(status := StatusRunning, phase := PhaseTools, pause := None))
    case SaveDecisions(ids, answer) =>
      if e.batch.None? || (exists id | id in ids :: FindCall(e.batch.value.calls, id).None?) then None
      else Some(WithCalls(e, DecideCalls(e.batch.value.calls, ids, answer)))
    case ProjectPause => Some(e.(status := StatusPaused, phase := PhasePaused, pause := e.pendingPause,
                                 pendingPause := None))
    case ClaimClear(claim) => if e.batch.None? then None else
      Some(ClearClaim(e, claim, w.revision, w.lastSequence))
    case RetrySave(id) => if e.batch.None? then None else
      Some(WithCalls(e, SetStatus(e.batch.value.calls, id, Ready)))
    case ResolveClaim(claim) => if e.batch.None? then None else
      Some(e.(batch := Some(e.batch.value.(resolution := Some(claim)))))
    case _ => None
  }

  ghost function PlanHistory(h: History, rs: seq<Request>): History {
    h.(planned := h.planned + (set r | r in rs :: r.id),
       unsafe := h.unsafe + (set r | r in rs && !r.replaySafe :: r.id))
  }

  ghost function ReadyHistory(h: History, calls: seq<ToolCall>): History {
    h.(readied := h.readied + CallIds(calls))
  }

  ghost function DecideHistory(h: History, ids: seq<string>, answer: string -> Decision): History {
    h.(allowed := h.allowed + (set id | id in ids && answer(id).allow))
  }

  ghost function RetryHistory(h: History, id: string, version: nat): History {
    h.(retries := h.retries + multiset{id}, resolved := h.resolved + [version])
  }

  ghost function ResolveHistory(h: History, id: string, version: nat): History {
    h.(claimed := h.claimed + {id}, resolved := h.resolved + [version])
  }

  ghost function BeginHistory(h: History, c: ToolCall, gate: bool): History {
    h.(grants := h.grants + multiset{c.callId}, keys := h.keys + {(c.callId, c.key)},
       gated := h.gated + (if gate then {c.callId} else {}))
  }

  ghost function HistoryAfter(sh: Shared, w: Worker): History {
    var h := sh.hist;
    match w.pc
    case Plan(rs) => PlanHistory(h, rs)
    case MarkingReady(_) => if w.exec.batch.None? then h else ReadyHistory(h, w.exec.batch.value.calls)
    case SaveDecisions(ids, answer) => DecideHistory(h, ids, answer)
    case ResumeClaim(_) => h.(resumed := h.resumed + [w.exec.version])
    case RetrySave(id) => RetryHistory(h, id, w.exec.version)
    case ResolveClaim(c) => ResolveHistory(h, c.callId, w.exec.version)
    case _ => h
  }

  function ResultMsg(blocks: seq<Block>): Message { Message(User, blocks) }

  /** Where the worker continues once `saved` is acknowledged. */
  ghost function AfterSave(w: Worker, saved: Record): Worker {
    var v := w.(exec := saved);
    match w.pc
    case Plan(_) => if saved.batch.None? then v.(pc := Exit) else
      v.(messages := w.messages + [UseMessage(saved.batch.value.calls)], pc := AppendUse)
    case MarkingReady(_) => v.(pc := if w.kind.Invocation? then Prepare(false) else Inspect)
    case PrepareAck(_, given) => v.(pc := if saved.batch.None? then Resting(w) else Open(given))
    case CommitAck(_, after) => v.(pc := AfterPc(w, after))
    case RecoverAck(_) => v.(pc := if saved.batch.None? then Done else Check)
    case SavePendingPause(blocks, p) =>
      if blocks == [] then v.(pc := SavePause(p))
      else v.(messages := w.messages + [ResultMsg(blocks)],
              pc := CommitAppend(IdSet(ResultsOf(blocks)), ToPause(p)))
    case ResumeClaim(answer) =>
      if w.exec.pause.None? then v.(pc := Done)
      else v.(pc := ResumeReload(Interrupt(w.exec.revision, w.exec.lastSequence, w.exec.pause.value), answer))
    case SaveDecisions(_, _) => v.(pc := Prepare(true))
    case ClaimClear(_) => v.(pc := if w.kind.Reconciliation? || saved.batch.None? then Done else Inspect)
    case ResolveClaim(_) =>
      v.(pc := if saved.batch.None? || saved.batch.value.useLastSequence == 0 then Done else RecoverLog)
    case Loop => v
    case _ => v.(pc := Done)
  }

  function Resting(w: Worker): Pc { if w.kind.Invocation? then Loop else Done }

  function AfterPc(w: Worker, after: After): Pc {
    match after
    case ToLoop => Resting(w)
    case ToFail => FailPc(w)
    case ToPause(p) => SavePause(p)
  }

  function AfterAppend(w: Worker, revision: nat, lastSequence: nat): Worker {
    var v := w.(revision := revision, lastSequence := lastSequence, persistedCount := |w.messages|);
    match w.pc
    case AppendUse => v.(pc := MarkingReady(if |w.messages| > 0 then |w.messages| - 1 else 0))
    case CommitAppend(done, after) => v.(pc := CommitAck(done, after))
    case ClaimAppend(claim) => v.(pc := ClaimClear(claim))
    case _ => v
  }

  /** Compare-and-swap of the record, as every reply can look to the worker. */
  ghost predicate SaveStep(sh: Shared, w: Worker, next: Record, h: History, reply: Reply,
                           onAck: Worker, onError: Worker, sh': Shared, w': Worker) {
    var took := w.exec.version == sh.exec.version && !reply.Refused?;
    var saved := next.(version := sh.exec.version + 1);
    sh' == (if took then sh.(exec := saved, hist := h) else sh) &&
    w' == (if took && reply.Acked? then onAck.(exec := saved) else onError)
  }

  ghost predicate AppendStep(sh: Shared, w: Worker, reply: Reply, sh': Shared, w': Worker) {
    w.persistedCount < |w.messages| &&
    var delta := w.messages[w.persistedCount..];
    var took := w.revision == sh.revision && !reply.Refused?;
    sh' == (if took then sh.(log := sh.log + delta, revision := sh.revision + 1) else sh) &&
    w' == (if took && reply.Acked? then AfterAppend(w, sh.revision + 1, |sh.log| + |delta|) else w.(pc := FailPc(w)))
  }

  /** LoadAfter(base), clamped to the end of the log. */
  function Loaded(sh: Shared, w: Worker, after: nat): Worker {
    var base := if after <= |sh.log| then after else |sh.log|;
    w.(base := base, revision := sh.revision, lastSequence := |sh.log|,
       messages := sh.log[base..], persistedCount := |sh.log| - base)
  }

  // ---- executeBatch -----------------------------------------------------------

  predicate Settled(o: Outcome) { !o.Todo? && !o.Running? }

  ghost predicate DispatchShape(d: Dispatch) {
    |d.gates| == |d.calls| == |d.outcomes| && (d.decisions.Some? ==> |d.decisions.value| == |d.calls|)
  }

  function DecisionFor(d: Dispatch, i: nat): Option<Decision>
    requires d.decisions.Some? ==> i < |d.decisions.value|
  {
    if d.decisions.None? then None else d.decisions.value[i]
  }

  ghost predicate GatesSettled(d: Dispatch)
    requires DispatchShape(d)
  {
    forall k | 0 <= k < |d.calls| && d.gates[k] :: Settled(d.outcomes[k])
  }

  ghost predicate AnyPending(d: Dispatch) { exists k | 0 <= k < |d.outcomes| :: d.outcomes[k].PendingApproval? }

  /** Without decisions, approval-gated calls are preflighted before any sibling may run. */
  ghost predicate MayRun(d: Dispatch, i: nat)
    requires DispatchShape(d) && i < |d.calls|
  {
    d.outcomes[i].Todo? && (d.decisions.Some? || d.gates[i] || (GatesSettled(d) && !AnyPending(d)))
  }

  ghost predicate MayBegin(d: Dispatch, i: nat)
    requires DispatchShape(d) && i < |d.calls|
  {
    MayRun(d, i) && match DecisionFor(d, i) case None => !d.gates[i] case Some(x) => x.allow
  }

  /** Outcomes reached without claiming the handler. */
  ghost predicate MaySettle(d: Dispatch, i: nat, o: Outcome)
    requires DispatchShape(d) && i < |d.calls|
  {
    match o
    case Definitive(r, human) => MayRun(d, i) && !human && r.ToolResult? && r.id == d.calls[i].callId
    case PendingApproval => MayRun(d, i) && d.gates[i] && DecisionFor(d, i).None?
    case Deferred => d.outcomes[i].Todo? && d.decisions.None? && !d.gates[i] && GatesSettled(d) && AnyPending(d)
    case _ => false
  }

  ghost predicate MayFinish(d: Dispatch, i: nat, o: Outcome)
    requires DispatchShape(d) && i < |d.calls|
  {
    d.outcomes[i].Running? && match o
      case Definitive(r, _) => r.ToolResult? && r.id == d.calls[i].callId
      case Unknown => true
      case _ => false
  }

  const NOT_EXECUTED :=
    "Not executed: the invocation paused for human input. Call the tool again if it is still needed."

  /** A human-input request turns concurrently pending approvals into definitive refusals. */
  function Converted(calls: seq<ToolCall>, outcomes: seq<Outcome>): seq<Outcome>
    requires |calls| == |outcomes|
  {
    seq(|outcomes|, i requires 0 <= i < |outcomes| =>
      if outcomes[i].PendingApproval? then Definitive(ToolResult(calls[i].callId, NOT_EXECUTED, true, []), false)
      else outcomes[i])
  }

  /** Result blocks of the definitive outcomes, in call order. */
  function DefinitiveBlocks(outcomes: seq<Outcome>): seq<Block> {
    if outcomes == [] then []
    else (if outcomes[0].Definitive? then [outcomes[0].result] else []) + DefinitiveBlocks(outcomes[1..])
  }

  /** `blocks` are the results of the definitive outcomes, at the positions `at`, in order and without exception. */
  ghost predicate ResultsAt(outcomes: seq<Outcome>, blocks: seq<Block>, at: seq<nat>) {
    |at| == |blocks| && Increasing(at, |outcomes|) &&
    (forall k | 0 <= k < |at| :: outcomes[at[k]].Definitive? && blocks[k] == outcomes[at[k]].result) &&
    forall i | 0 <= i < |outcomes| && outcomes[i].Definitive? :: i in at
  }

  /** `ids` name the calls that wait for approval, at the positions `at`, in order and without exception. */
  ghost predicate PendingAt(calls: seq<ToolCall>, outcomes: seq<Outcome>, ids: seq<string>, at: seq<nat>)
    requires |calls| == |outcomes|
  {
    |at| == |ids| && Increasing(at, |outcomes|) &&
    (forall k | 0 <= k < |at| :: outcomes[at[k]].PendingApproval? && ids[k] == calls[at[k]].callId) &&
    forall i | 0 <= i < |outcomes| && outcomes[i].PendingApproval? :: i in at
  }

  function PendingIds(calls: seq<ToolCall>, outcomes: seq<Outcome>): seq<string>
    requires |calls| == |outcomes|
  {
    if outcomes == [] then []
    else (if outcomes[0].PendingApproval? then [calls[0].callId] else []) + PendingIds(calls[1..], outcomes[1..])
  }

  function Committing(w: Worker, blocks: seq<Block>, after: After): Worker {
    if blocks == [] then w.(pc := AfterPc(w, after))
    else w.(messages := w.messages + [ResultMsg(blocks)],
            pc := CommitAppend(IdSet(ResultsOf(blocks)), after))
  }

  /** The decision of the batch coordinator once every call has an outcome. */
  ghost function Collected(w: Worker, d: Dispatch): Worker
    requires DispatchShape(d)
  {
    if exists o | o in d.outcomes :: o.CoordinationFailure? then w.(pc := FailPc(w))
    else if exists o | o in d.outcomes :: o.Unknown? then Committing(w, DefinitiveBlocks(d.outcomes), ToFail)
    else if exists o | o in d.outcomes :: o.Definitive? && o.human then
      w.(pc := SavePendingPause(DefinitiveBlocks(Converted(d.calls, d.outcomes)), HumanPause))
    else if PendingIds(d.calls, d.outcomes) != [] then
      w.(pc := SavePendingPause(DefinitiveBlocks(d.outcomes), ApprovalPause(PendingIds(d.calls, d.outcomes))))
    else Committing(w, DefinitiveBlocks(d.outcomes), ToLoop)
  }

  function Opened(w: Worker, given: bool, gates: seq<bool>): Worker
    requires w.exec.batch.Some?
  {
    var calls := Remaining(w.exec.batch.value.calls);
    if calls == [] then w.(pc := Resting(w)) else
    var approvals := seq(|calls|, i requires 0 <= i < |calls| => calls[i].approval);
    var decisions := if given || (exists c | c in calls :: c.approval.Some?) then Some(approvals) else None;
    w.(pc := Dispatching(Dispatch(calls, gates, decisions, seq(|calls|, i => Todo), {})))
  }

  // ---- Worker steps -------------------------------------------------------------

  /** prepareToolBatch found the batch's ToolUse message at `index`, the last match in its messages. */
  ghost predicate LastMatch(cfg: Config, ms: seq<Message>, calls: seq<ToolCall>, index: nat) {
    index < |ms| && UseMatches(cfg.hash, ms[index], calls) &&
    forall j | index < j < |ms| :: !UseMatches(cfg.hash, ms[j], calls)
  }

  function IdSet(ids: seq<string>): set<string> { set id | id in ids }

  /** Local decision of recovery once the log suffix is loaded. */
  ghost function Inspected(cfg: Config, w: Worker): Worker {
    if w.exec.batch.None? then w.(pc := Done) else
    var b := w.exec.batch.value;
    if AllPlanned(b.calls) && w.messages == [] then
      if exists c | c in b.calls :: c.input.None? then w.(pc := Done)
      else w.(messages := [UseMessage(b.calls)], pc := AppendUse)
    else if !ActiveBatch(cfg.hash, w.messages, b.calls) then w.(pc := Done)
    else if AllPlanned(b.calls) then w.(pc := MarkingReady(0))
    else if b.resolution.Some? then
      var claim := b.resolution.value;
      if claim.callId in ResultIds(w.messages[1..]) then
        w.(pc := if exists x | x in Blocks(w.messages[1..]) :: ConfirmsClaim(x, claim) then ClaimClear(claim) else Done)
      else w.(messages := w.messages + [ResultMsg([ClaimResult(claim)])], pc := ClaimAppend(claim))
    else if w.kind.Reconciliation? then w.(pc := Done)
    else if ResultIds(w.messages[1..]) != [] then w.(pc := RecoverAck(IdSet(ResultIds(w.messages[1..]))))
    else w.(pc := Check)
  }

  ghost function Checked(w: Worker): Worker {
    if w.exec.batch.None? then w.(pc := Done) else
    var b := w.exec.batch.value;
    if exists c | c in b.calls :: c.status.InFlight? && !c.replaySafe then w.(pc := Done)
    else w.(pc := Prepare(exists c | c in b.calls :: c.approval.Some?))
  }

  ghost predicate PlanAllowed(cfg: Config, log: seq<Message>, rs: seq<Request>)
    requires cfg.start <= |log|
  {
    rs != [] && (forall i, j | 0 <= i < j < |rs| :: rs[i].id != rs[j].id) &&
    forall r | r in rs :: r.id != "" && cfg.own(r.id) && cfg.hash(r.input).Some? &&
                          r.id !in UseIds(log[cfg.start..])
  }

  ghost predicate BeginStep(cfg: Config, sh: Shared, w: Worker, i: nat, reply: Reply, sh': Shared, w': Worker)
    requires w.pc.Dispatching?
  {
    var d := w.pc.d;
    DispatchShape(d) && i < |d.calls| && MayBegin(d, i) &&
    var id := d.calls[i].callId;
    var lost := w.(pc := Dispatching(d.(outcomes := d.outcomes[i := CoordinationFailure])));
    match BeginCall(w.exec, id, !w.kind.Invocation?)
    case Uncertain => sh' == sh && w' == w.(pc := Dispatching(d.(outcomes := d.outcomes[i := Unknown])))
    case Unsupported => sh' == sh && w' == lost
    case Claimed(next) =>
      SaveStep(sh, w, next, BeginHistory(sh.hist, d.calls[i], d.gates[i]), reply,
               w.(pc := Dispatching(d.(outcomes := d.outcomes[i := Running], started := d.started + {id}))),
               lost, sh', w')
  }

  ghost predicate WorkerStep(cfg: Config, sh: Shared, w: Worker, a: Action, sh': Shared, w': Worker) {
    match a
    case AddText(m) => sh' == sh && w.pc.Loop? && NoToolBlocks(m) && w' == w.(messages := w.messages + [m])
    case LoadPrior(rs) =>
      sh' == sh && w.pc.Loop? && w.exec.batch.None? && w.persistedCount == |w.messages| && cfg.start <= |sh.log| &&
      PlanAllowed(cfg, sh.log, rs) && w' == w.(pc := Plan(rs))
    case Save(reply) =>
      Saves(w.pc) &&
      (match SaveTarget(cfg, w)
       case None => sh' == sh && w' == w.(pc := FailPc(w))
       case Some(next) =>
         SaveStep(sh, w, next, HistoryAfter(sh, w), reply, AfterSave(w, next.(version := sh.exec.version + 1)),
                  w.(pc := FailPc(w)), sh', w'))
    case Append(reply) =>
      (w.pc.Loop? || w.pc.AppendUse? || w.pc.CommitAppend? || w.pc.ClaimAppend?) && AppendStep(sh, w, reply, sh', w')
    case Match(index) =>
      sh' == sh && w.pc.Prepare? && w.exec.batch.Some? &&
      LastMatch(cfg, w.messages, w.exec.batch.value.calls, index) &&
      ActiveBatch(cfg.hash, w.messages[index..], w.exec.batch.value.calls) &&
      var done := IdSet(ResultIds(w.messages[index + 1..]));
      w' == w.(pc := if done == {} then Open(w.pc.given) else PrepareAck(done, w.pc.given))
    case OpenBatch(gates) =>
      sh' == sh && w.pc.Open? && w.exec.batch.Some? && |gates| == |Remaining(w.exec.batch.value.calls)| &&
      w' == Opened(w, w.pc.given, gates)
    case Settle(i, o) =>
      sh' == sh && w.pc.Dispatching? && DispatchShape(w.pc.d) && i < |w.pc.d.calls| && MaySettle(w.pc.d, i, o) &&
      w' == w.(pc := Dispatching(w.pc.d.(outcomes := w.pc.d.outcomes[i := o])))
    case Begin(i, reply) => w.pc.Dispatching? && BeginStep(cfg, sh, w, i, reply, sh', w')
    case Finish(i, o) =>
      sh' == sh && w.pc.Dispatching? && DispatchShape(w.pc.d) && i < |w.pc.d.calls| && MayFinish(w.pc.d, i, o) &&
      w' == w.(pc := Dispatching(w.pc.d.(outcomes := w.pc.d.outcomes[i := o])))
    case Collect =>
      sh' == sh && w.pc.Dispatching? && DispatchShape(w.pc.d) && (forall o | o in w.pc.d.outcomes :: Settled(o)) &&
      w' == Collected(w, w.pc.d)
    case LoadRecord =>
      sh' == sh && w.pc.ResumeReload? && w' == w.(exec := sh.exec, pc := ResumeLog(w.pc.it, w.pc.answer))
    case LoadLog(boundary, text) =>
      sh' == sh &&
      if w.pc.ResumeLog? then
        var v := Loaded(sh, w, boundary);
        var it := w.pc.it;
        NoToolBlocks(text) &&
        w' == (if v.revision != it.revision ||
                  (it.lastSequence != 0 && v.lastSequence != 0 && v.lastSequence != it.lastSequence)
               then w.(pc := Exit)
               else match it.pause
                    case HumanPause => v.(messages := v.messages + [text], pc := Loop)
                    case ApprovalPause(ids) => v.(pc := SaveDecisions(ids, w.pc.answer)))
      else
        w.pc.RecoverLog? && w.exec.batch.Some? &&
        var b := w.exec.batch.value;
        var after := if b.useLastSequence > 0 then b.useLastSequence - 1 else w.exec.lastSequence;
        w' == Loaded(sh, w, after).(pc := Inspect)
    case Decide =>
      sh' == sh && ((w.pc.Inspect? && w' == Inspected(cfg, w)) || (w.pc.Check? && w' == Checked(w)))
    case Finalize(status, reply) =>
      w.pc.Exit? && w.exec.batch.None? &&
      SaveStep(sh, w, w.exec.(revision := w.revision, lastSequence := w.lastSequence, pause := None, phase := PhaseDone,
                              status := status),
               sh.hist, reply, w.(pc := Done), w.(pc := Done), sh', w')
    case Stop => sh' == sh && !w.pc.Exit? && !w.pc.Done? && w' == w.(pc := StopPc(w))
  }

  // ---- Whole-system steps ---------------------------------------------------------

  /** A new worker starts from a fresh read of the record. */
  ghost predicate SpawnAllowed(sh: Shared, w: Worker) {
    var e := sh.exec;
    w.exec == e && w.messages == [] && w.persistedCount == 0 && w.base == 0 && w.revision == 0 && w.lastSequence == 0 &&
    match w.kind
    case Invocation =>
      w.pc.ResumeClaim? && e.status.StatusPaused? && e.pause.Some? &&
      (e.pause.value.ApprovalPause? ==> e.pause.value.calls != [])
    case Recovery =>
      if e.pendingPause.Some? then w.pc.ProjectPause?
      else e.status.StatusRunning? && e.phase.PhaseTools? && e.batch.Some? && w.pc.RecoverLog?
    case Reconciliation =>
      e.batch.Some? && e.batch.value.resolution.None? && (w.pc.RetrySave? || w.pc.ResolveClaim?) &&
      var id := if w.pc.RetrySave? then w.pc.callId else w.pc.claim.callId;
      var c := FindCall(e.batch.value.calls, id);
      c.Some? && c.value.status.InFlight? && (w.pc.ResolveClaim? ==> !w.pc.claim.outcome.Retry?)
  }

  ghost predicate Next(cfg: Config, s: State, l: Label, s': State) {
    match l
    case Foreign(ms) =>
      ms != [] && (forall m | m in ms :: ForeignMessage(cfg, m)) &&
      s' == s.(sh := s.sh.(log := s.sh.log + ms, revision := s.sh.revision + 1))
    case Spawn(t, w) => t !in s.workers && SpawnAllowed(s.sh, w) && s' == s.(workers := s.workers[t := w])
    case Crash(t) => t in s.workers && s' == s.(workers := s.workers - {t})
    case Act(t, a) =>
      t in s.workers && t in s'.workers && s'.workers == s.workers[t := s'.workers[t]] &&
      WorkerStep(cfg, s.sh, s.workers[t], a, s'.sh, s'.workers[t])
  }

  const NO_HISTORY := History({}, {}, {}, multiset{}, multiset{}, {}, {}, {}, {}, [], [])

  /** One invocation has created the record, persisted its start cursor and holds the user's message. */
  ghost predicate Init(cfg: Config, s: State) {
    var sh := s.sh;
    cfg.start <= |sh.log| && (forall m | m in sh.log[cfg.start..] :: ForeignMessage(cfg, m)) &&
    sh.exec.id == cfg.id && sh.exec.status.StatusRunning? && sh.exec.phase.PhaseModel? && sh.exec.pause.None? &&
    sh.exec.pendingPause.None? && sh.exec.batch.None? && sh.hist == NO_HISTORY &&
    s.workers.Keys == {0} &&
    var w := s.workers[0];
    w.kind.Invocation? && w.pc.Loop? && w.exec == sh.exec && w.base <= w.lastSequence == cfg.start &&
    w.revision <= sh.revision && (w.revision == sh.revision ==> w.lastSequence == |sh.log|) &&
    w.persistedCount == w.lastSequence - w.base && |w.messages| == w.persistedCount + 1 &&
    w.messages[..w.persistedCount] == sh.log[w.base..w.lastSequence] && NoToolBlocks(w.messages[w.persistedCount])
  }

  /** A run: each state follows from its predecessor by one labelled step. */
  ghost predicate IsRun(cfg: Config, run: seq<State>, labels: seq<Label>) {
    |run| == |labels| + 1 && Init(cfg, run[0]) &&
    forall i | 0 <= i < |labels| :: Next(cfg, run[i], labels[i], run[i + 1])
  }
}
