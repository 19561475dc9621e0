/** The inductive invariant of the tool-execution protocol. */
module ProtocolInvariant {
  import opened Messages
  import opened Execution
  import opened ToolBatch
  import opened Protocol

  // ---- What the log says about a call ------------------------------------------

  ghost function UseCount(cfg: Config, log: seq<Message>, id: string): nat
    requires cfg.start <= |log|
  {
    multiset(UseIds(log[cfg.start..]))[id]
  }

  /** Number of canonical results of a call since the execution's start cursor. */
  ghost function ResultCount(cfg: Config, log: seq<Message>, id: string): nat
    requires cfg.start <= |log|
  {
    multiset(ResultIds(log[cfg.start..]))[id]
  }

  ghost predicate LogOk(cfg: Config, log: seq<Message>, h: History) {
    cfg.start <= |log| &&
    (forall id | cfg.own(id) :: UseCount(cfg, log, id) <= 1) &&
    (forall id | cfg.own(id) :: ResultCount(cfg, log, id) <= 1) &&
    (forall id | cfg.own(id) && ResultCount(cfg, log, id) > 0 :: id in h.readied) &&
    (forall id | id in h.readied :: cfg.own(id) && UseCount(cfg, log, id) > 0)
  }

  // ---- Facts about one version of the record ------------------------------------

  ghost predicate BatchShape(cfg: Config, b: Batch) {
    b.calls != [] && DistinctIds(b.calls) &&
    forall c | c in b.calls :: cfg.own(c.callId) && c.key == ToolExecutionKey(cfg.digest, cfg.id, c.callId)
  }

  ghost predicate PlannedFacts(cfg: Config, log: seq<Message>, cursor: nat, b: Batch) {
    AllPlanned(b.calls) && b.useLastSequence == 0 && b.resolution.None? && cfg.start <= cursor <= |log| &&
    forall c | c in b.calls ::
      c.input.Some? && cfg.hash(c.input.value) == Some(c.inputHash) && c.callId !in UseIds(log[cfg.start..cursor])
  }

  ghost predicate ReadyFacts(cfg: Config, log: seq<Message>, b: Batch, h: History) {
    cfg.start < b.useLastSequence <= |log| && UseMatches(cfg.hash, log[b.useLastSequence - 1], b.calls) &&
    (b.resolution.Some? ==> b.resolution.value.callId in CallIds(b.calls)) &&
    forall c | c in b.calls ::
      !c.status.Planned? && c.callId in h.readied && c.callId !in ResultIds(log[cfg.start..b.useLastSequence]) &&
      (c.status.Completed? ==> c.callId in ResultIds(log[b.useLastSequence..]))
  }

  ghost predicate PauseOk(p: Pause, h: History) {
    p.ApprovalPause? ==> p.calls != [] && forall id | id in p.calls :: id in h.readied
  }

  /** Stable facts: true of the current record and of every copy a worker still holds. */
  ghost predicate RecordOk(cfg: Config, log: seq<Message>, e: Record, h: History) {
    e.id == cfg.id && (e.pause.Some? ==> PauseOk(e.pause.value, h)) &&
    (e.pendingPause.Some? ==> PauseOk(e.pendingPause.value, h)) &&
    (e.batch.Some? ==>
      var b := e.batch.value;
      BatchShape(cfg, b) &&
      (forall c | c in b.calls && c.approval.Some? && c.approval.value.allow :: c.callId in h.allowed) &&
      (PlannedFacts(cfg, log, e.lastSequence, b) || ReadyFacts(cfg, log, b, h)))
  }

  ghost function BatchIds(e: Record): set<string> {
    if e.batch.None? then {} else CallIds(e.batch.value.calls)
  }

  // ---- Shared invariant -----------------------------------------------------------

  /** Bookkeeping that ties the history to the current record. */
  ghost predicate CurrentOk(cfg: Config, log: seq<Message>, e: Record, h: History)
    requires cfg.start <= |log|
  {
    h.readied <= h.planned <= h.readied + BatchIds(e) &&
    (forall id | id in h.readied && id !in BatchIds(e) :: ResultCount(cfg, log, id) > 0) &&
    (e.batch.Some? && AllPlanned(e.batch.value.calls) ==> BatchIds(e) !! h.readied) &&
    BatchIds(e) <= h.planned
  }

  ghost predicate GrantsOk(e: Record, h: History) {
    h.unsafe <= h.planned &&
    (forall id | id !in h.planned :: h.grants[id] == 0) &&
    (forall id | id in h.unsafe :: h.grants[id] <= h.retries[id] + 1) &&
    (e.batch.Some? ==> forall c | c in e.batch.value.calls ::
      (c.callId in h.unsafe <==> !c.replaySafe) &&
      (!c.replaySafe && (c.status.Planned? || c.status.Ready?) ==> h.grants[c.callId] <= h.retries[c.callId]))
  }

  ghost predicate ClaimsOk(e: Record, h: History) {
    h.claimed <= h.readied &&
    (e.batch.Some? ==> forall c | c in e.batch.value.calls && c.callId in h.claimed ::
      c.status.Completed? ||
      (c.status.InFlight? && e.batch.value.resolution.Some? && e.batch.value.resolution.value.callId == c.callId))
  }

  ghost predicate StartsOk(cfg: Config, e: Record, h: History) {
    (forall k | k in h.keys :: k.1 == ToolExecutionKey(cfg.digest, cfg.id, k.0)) &&
    h.gated <= h.allowed && Increasing(h.resumed, e.version) && Increasing(h.resolved, e.version)
  }

  ghost predicate SharedInv(cfg: Config, sh: Shared) {
    LogOk(cfg, sh.log, sh.hist) && RecordOk(cfg, sh.log, sh.exec, sh.hist) &&
    CurrentOk(cfg, sh.log, sh.exec, sh.hist) && GrantsOk(sh.exec, sh.hist) && ClaimsOk(sh.exec, sh.hist) &&
    StartsOk(cfg, sh.exec, sh.hist)
  }

  // ---- Worker invariant -------------------------------------------------------------

  ghost predicate Coherent(sh: Shared, e: Record) {
    e.version <= sh.exec.version && (e.version == sh.exec.version ==> e == sh.exec)
  }

  predicate HasLog(pc: Pc) {
    !pc.ResumeClaim? && !pc.ResumeReload? && !pc.ResumeLog? && !pc.ProjectPause? && !pc.RecoverLog? &&
    !pc.RetrySave? && !pc.ResolveClaim? && !pc.Exit? && !pc.Done?
  }

  ghost predicate LogCopy(cfg: Config, sh: Shared, w: Worker) {
    cfg.start <= w.lastSequence <= |sh.log| && w.base <= w.lastSequence &&
    w.persistedCount == w.lastSequence - w.base <= |w.messages| &&
    w.messages[..w.persistedCount] == sh.log[w.base..w.lastSequence] &&
    w.revision <= sh.revision && (w.revision == sh.revision ==> w.lastSequence == |sh.log|)
  }

  /** Results that the worker has seen after the batch's ToolUse message. */
  ghost function Seen(sh: Shared, w: Worker): seq<string>
    requires w.exec.batch.Some? && w.exec.batch.value.useLastSequence <= w.lastSequence <= |sh.log|
  {
    ResultIds(sh.log[w.exec.batch.value.useLastSequence..w.lastSequence])
  }

  /** The worker holds a ready batch whose boundary lies inside what it has read. */
  ghost predicate Holding(sh: Shared, w: Worker) {
    w.lastSequence <= |sh.log| && w.exec.batch.Some? && 0 < w.exec.batch.value.useLastSequence <= w.lastSequence &&
    (w.kind.Invocation? || w.exec.batch.value.resolution.None?)
  }

  ghost predicate GoodBlocks(sh: Shared, w: Worker, blocks: seq<Block>) {
    Holding(sh, w) && (forall x | x in blocks :: x.ToolResult?) && NoDuplicates(ResultsOf(blocks)) &&
    forall id | id in ResultsOf(blocks) :: id in CallIds(w.exec.batch.value.calls) && id !in Seen(sh, w)
  }

  ghost predicate DispatchOk(cfg: Config, sh: Shared, w: Worker, d: Dispatch) {
    DispatchShape(d) && Holding(sh, w) && DistinctIds(d.calls) &&
    (forall c | c in d.calls :: c.callId in CallIds(w.exec.batch.value.calls) && c.callId !in Seen(sh, w) &&
      c.key == ToolExecutionKey(cfg.digest, cfg.id, c.callId)) &&
    (forall i | 0 <= i < |d.calls| && DecisionFor(d, i).Some? && DecisionFor(d, i).value.allow ::
      d.calls[i].callId in sh.hist.allowed) &&
    (forall i | 0 <= i < |d.calls| && d.outcomes[i].Definitive? ::
      d.outcomes[i].result.ToolResult? && d.outcomes[i].result.id == d.calls[i].callId) &&
    (d.decisions.None? && d.started != {} ==> GatesSettled(d) && !AnyPending(d))
  }

  ghost predicate AfterOk(sh: Shared, after: After) { after.ToPause? ==> PauseOk(after.pause, sh.hist) }

  predicate Flushed(w: Worker) { w.persistedCount == |w.messages| }

  ghost predicate LoopOk(w: Worker) {
    w.kind.Invocation? && w.persistedCount <= |w.messages| &&
    forall m | m in w.messages[w.persistedCount..] :: NoToolBlocks(m)
  }

  ghost predicate PlanOk(cfg: Config, sh: Shared, w: Worker, rs: seq<Request>) {
    w.kind.Invocation? && Flushed(w) && cfg.start <= w.lastSequence <= |sh.log| &&
    PlanAllowed(cfg, sh.log[..w.lastSequence], rs) &&
    (w.exec.version == sh.exec.version ==> forall r | r in rs :: r.id !in sh.hist.planned)
  }

  ghost predicate AppendUseOk(cfg: Config, sh: Shared, w: Worker) {
    w.exec.batch.Some? && AllPlanned(w.exec.batch.value.calls) && cfg.start <= w.lastSequence <= |sh.log| &&
    |w.messages| == w.persistedCount + 1 && w.messages[w.persistedCount] == UseMessage(w.exec.batch.value.calls) &&
    (!w.kind.Invocation? ==> w.persistedCount == 0 && w.base == w.exec.lastSequence) &&
    forall c | c in w.exec.batch.value.calls :: c.callId !in UseIds(sh.log[cfg.start..w.lastSequence])
  }

  ghost predicate MarkingOk(cfg: Config, w: Worker, index: nat) {
    Flushed(w) && index < |w.messages| && cfg.start <= w.base + index && (!w.kind.Invocation? ==> index == 0) &&
    (w.exec.batch.Some? ==> UseMatches(cfg.hash, w.messages[index], w.exec.batch.value.calls) &&
                            AnswersOnly(w.messages[index + 1..], w.exec.batch.value.calls))
  }

  ghost predicate AckOk(sh: Shared, w: Worker, done: set<string>) {
    Flushed(w) && Holding(sh, w) && forall id :: id in done <==> id in Seen(sh, w)
  }

  ghost predicate OpenOk(sh: Shared, w: Worker) {
    Flushed(w) && Holding(sh, w) &&
    forall c | c in w.exec.batch.value.calls && !c.status.Completed? :: c.callId !in Seen(sh, w)
  }

  ghost predicate CommitAppendOk(sh: Shared, w: Worker, done: set<string>, after: After) {
    |w.messages| == w.persistedCount + 1 && AfterOk(sh, after) &&
    var m := w.messages[w.persistedCount];
    m.role.User? && m.content != [] && GoodBlocks(sh, w, m.content) && done == IdSet(ResultsOf(m.content))
  }

  ghost predicate CommitAckOk(sh: Shared, w: Worker, done: set<string>, after: After) {
    Flushed(w) && Holding(sh, w) && AfterOk(sh, after) && forall id | id in done :: id in Seen(sh, w)
  }

  ghost predicate SaveDecisionsOk(sh: Shared, w: Worker, ids: seq<string>) {
    Flushed(w) && PauseOk(ApprovalPause(ids), sh.hist) &&
    (w.exec.batch.Some? && !AllPlanned(w.exec.batch.value.calls) ==> Holding(sh, w))
  }

  ghost predicate ClaimAppendOk(sh: Shared, w: Worker, claim: Claim) {
    |w.messages| == w.persistedCount + 1 && Claiming(sh, w, claim) &&
    w.messages[w.persistedCount] == ResultMsg([ClaimResult(claim)]) && claim.callId !in Seen(sh, w)
  }

  ghost predicate ClaimClearOk(sh: Shared, w: Worker, claim: Claim) {
    Flushed(w) && Claiming(sh, w, claim) && Confirmed(sh.log[w.exec.batch.value.useLastSequence..w.lastSequence], claim)
  }

  /** The transcript carries the claimed outcome of the claimed call. */
  ghost predicate Confirmed(ms: seq<Message>, claim: Claim) { exists x | x in Blocks(ms) :: ConfirmsClaim(x, claim) }

  ghost predicate PcOk(cfg: Config, sh: Shared, w: Worker) {
    match w.pc
    case Loop => LoopOk(w)
    case Plan(rs) => PlanOk(cfg, sh, w, rs)
    case AppendUse => AppendUseOk(cfg, sh, w)
    case MarkingReady(index) => MarkingOk(cfg, w, index)
    case Prepare(_) => !w.kind.Reconciliation? && Flushed(w) && Holding(sh, w)
    case PrepareAck(done, _) => !w.kind.Reconciliation? && AckOk(sh, w, done)
    case Open(_) => !w.kind.Reconciliation? && OpenOk(sh, w)
    case Dispatching(d) => !w.kind.Reconciliation? && Flushed(w) && DispatchOk(cfg, sh, w, d)
    case SavePendingPause(blocks, p) => !w.kind.Reconciliation? && Flushed(w) && GoodBlocks(sh, w, blocks) &&
      PauseOk(p, sh.hist)
    case CommitAppend(done, after) => !w.kind.Reconciliation? && CommitAppendOk(sh, w, done, after)
    case CommitAck(done, after) => !w.kind.Reconciliation? && CommitAckOk(sh, w, done, after)
    case SavePause(p) => !w.kind.Reconciliation? && PauseOk(p, sh.hist) && (w.exec.batch.Some? ==> Holding(sh, w))
    case ResumeClaim(_) => w.kind.Invocation? && w.exec.pause.Some? && w.exec.status.StatusPaused?
    case ResumeReload(it, _) => w.kind.Invocation? && PauseOk(it.pause, sh.hist)
    case ResumeLog(it, _) => w.kind.Invocation? && PauseOk(it.pause, sh.hist)
    case SaveDecisions(ids, _) => w.kind.Invocation? && SaveDecisionsOk(sh, w, ids)
    case ProjectPause => w.kind.Recovery? && w.exec.pendingPause.Some?
    case RecoverLog => !w.kind.Invocation? && w.exec.batch.Some?
    case Inspect => !w.kind.Invocation? && Flushed(w) && (w.exec.batch.Some? ==> w.base == RecoveryBase(w.exec))
    case ClaimAppend(claim) => !w.kind.Invocation? && ClaimAppendOk(sh, w, claim)
    case ClaimClear(claim) => !w.kind.Invocation? && ClaimClearOk(sh, w, claim)
    case RecoverAck(done) => w.kind.Recovery? && AckOk(sh, w, done)
    case Check => w.kind.Recovery? && Flushed(w) && Holding(sh, w)
    case RetrySave(id) => InFlightTarget(w, id)
    case ResolveClaim(claim) => InFlightTarget(w, claim.callId)
    case Exit => w.kind.Invocation?
    case Done => true
  }

  /** Where recovery starts to read: at the ToolUse message, or after the cursor of a planned batch. */
  ghost function RecoveryBase(e: Record): nat
    requires e.batch.Some?
  {
    if e.batch.value.useLastSequence > 0 then e.batch.value.useLastSequence - 1 else e.lastSequence
  }

  ghost predicate Claiming(sh: Shared, w: Worker, claim: Claim) {
    w.exec.batch.Some? && w.exec.batch.value.resolution == Some(claim) && w.base == RecoveryBase(w.exec) &&
    0 < w.exec.batch.value.useLastSequence <= w.lastSequence <= |sh.log|
  }

  ghost predicate InFlightTarget(w: Worker, id: string) {
    w.kind.Reconciliation? && w.exec.batch.Some? && w.exec.batch.value.resolution.None? &&
    var c := FindCall(w.exec.batch.value.calls, id);
    c.Some? && c.value.status.InFlight?
  }

  ghost predicate WorkerInv(cfg: Config, sh: Shared, w: Worker) {
    Coherent(sh, w.exec) && RecordOk(cfg, sh.log, w.exec, sh.hist) && (HasLog(w.pc) ==> LogCopy(cfg, sh, w)) &&
    PcOk(cfg, sh, w)
  }

  ghost predicate Inv(cfg: Config, s: State) {
    SharedInv(cfg, s.sh) && forall t | t in s.workers :: WorkerInv(cfg, s.sh, s.workers[t])
  }

  // ---- What any step may do to the shared state -------------------------------------

  /** Both stores only move forward, and the history changes only together with the record. */
  ghost predicate Extends(sh: Shared, sh': Shared) {
    sh.log <= sh'.log && sh.revision <= sh'.revision && (sh.revision == sh'.revision ==> sh.log == sh'.log) &&
    sh.exec.version <= sh'.exec.version &&
    (sh.exec.version == sh'.exec.version ==> sh.exec == sh'.exec && sh.hist == sh'.hist) &&
    sh.hist.readied <= sh'.hist.readied && sh.hist.allowed <= sh'.hist.allowed
  }

  // ---- Slices of the log ---------------------------------------------------------------

  lemma UseIdsSplit(log: seq<Message>, a: nat, b: nat, c: nat)
    requires a <= b <= c <= |log|
    ensures UseIds(log[a..c]) == UseIds(log[a..b]) + UseIds(log[b..c])
  {
    assert log[a..c] == log[a..b] + log[b..c];
    UseIdsConcat(log[a..b], log[b..c]);
  }

  lemma ResultIdsSplit(log: seq<Message>, a: nat, b: nat, c: nat)
    requires a <= b <= c <= |log|
    ensures ResultIds(log[a..c]) == ResultIds(log[a..b]) + ResultIds(log[b..c])
  {
    assert log[a..c] == log[a..b] + log[b..c];
    ResultIdsConcat(log[a..b], log[b..c]);
  }

  lemma CountMember(s: seq<string>, id: string)
    ensures id in s <==> multiset(s)[id] > 0
  {
  }

  lemma RecordOkStable(cfg: Config, sh: Shared, sh': Shared, e: Record)
    requires Extends(sh, sh') && RecordOk(cfg, sh.log, e, sh.hist)
    ensures RecordOk(cfg, sh'.log, e, sh'.hist)
  {
    if e.batch.Some? {
      var b := e.batch.value;
      if PlannedFacts(cfg, sh.log, e.lastSequence, b) {
        assert sh'.log[cfg.start..e.lastSequence] == sh.log[cfg.start..e.lastSequence];
      } else {
        var u := b.useLastSequence;
        assert sh'.log[cfg.start..u] == sh.log[cfg.start..u];
        assert sh'.log[u..][..|sh.log| - u] == sh.log[u..];
        ResultIdsSplit(sh'.log, u, |sh.log|, |sh'.log|);
        assert sh'.log[u..|sh.log|] == sh.log[u..];
        assert sh'.log[u..|sh'.log|] == sh'.log[u..];
      }
    }
  }

  lemma LogCopyStable(cfg: Config, sh: Shared, sh': Shared, w: Worker)
    requires Extends(sh, sh') && LogCopy(cfg, sh, w)
    ensures LogCopy(cfg, sh', w)
    ensures sh'.log[..w.lastSequence] == sh.log[..w.lastSequence]
    ensures sh'.log[cfg.start..w.lastSequence] == sh.log[cfg.start..w.lastSequence]
  {
    assert sh'.log[w.base..w.lastSequence] == sh.log[w.base..w.lastSequence];
  }

  lemma HoldingStable(sh: Shared, sh': Shared, w: Worker)
    requires Extends(sh, sh') && Holding(sh, w)
    ensures Holding(sh', w) && Seen(sh', w) == Seen(sh, w)
  {
    var u := w.exec.batch.value.useLastSequence;
    assert sh'.log[u..w.lastSequence] == sh.log[u..w.lastSequence];
  }

  lemma ClaimingStable(sh: Shared, sh': Shared, w: Worker, claim: Claim)
    requires Extends(sh, sh') && Claiming(sh, w, claim)
    ensures Claiming(sh', w, claim) && Seen(sh', w) == Seen(sh, w)
    ensures var u := w.exec.batch.value.useLastSequence; sh'.log[u..w.lastSequence] == sh.log[u..w.lastSequence]
  {
    var u := w.exec.batch.value.useLastSequence;
    assert sh'.log[u..w.lastSequence] == sh.log[u..w.lastSequence];
  }

  lemma PcOkStable(cfg: Config, sh: Shared, sh': Shared, w: Worker)
    requires Extends(sh, sh') && WorkerInv(cfg, sh, w)
    requires HasLog(w.pc) ==>
      sh'.log[..w.lastSequence] == sh.log[..w.lastSequence] &&
      sh'.log[cfg.start..w.lastSequence] == sh.log[cfg.start..w.lastSequence]
    ensures PcOk(cfg, sh', w)
  {
    hide RecordOk, LogCopy;
    match w.pc
    case Prepare(_) => HoldingStable(sh, sh', w);
    case PrepareAck(_, _) => HoldingStable(sh, sh', w);
    case Open(_) => HoldingStable(sh, sh', w);
    case Dispatching(_) => HoldingStable(sh, sh', w);
    case SavePendingPause(_, _) => HoldingStable(sh, sh', w);
    case CommitAppend(_, _) => HoldingStable(sh, sh', w);
    case CommitAck(_, _) => HoldingStable(sh, sh', w);
    case RecoverAck(_) => HoldingStable(sh, sh', w);
    case Check => HoldingStable(sh, sh', w);
    case SaveDecisions(_, _) => if Holding(sh, w) { HoldingStable(sh, sh', w); }
    case SavePause(_) => if Holding(sh, w) { HoldingStable(sh, sh', w); }
    case ClaimAppend(claim) => ClaimingStable(sh, sh', w, claim);
    case ClaimClear(claim) => ClaimingStable(sh, sh', w, claim);
    case _ =>
  }

  /** Steps of others never invalidate what a worker relies on. */
  lemma WorkerInvStable(cfg: Config, sh: Shared, sh': Shared, w: Worker)
    requires Extends(sh, sh') && WorkerInv(cfg, sh, w)
    ensures WorkerInv(cfg, sh', w)
  {
    RecordOkStable(cfg, sh, sh', w.exec);
    if HasLog(w.pc) {
      LogCopyStable(cfg, sh, sh', w);
    }
    PcOkStable(cfg, sh, sh', w);
  }
}
