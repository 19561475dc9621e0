/** Tool batches. */
module ToolBatch {
  import opened Messages
  import opened Execution

  // Pure transitions of the active tool batch inside an execution record.

  /** A tool call as the model requested it, with the registry's replay-safety verdict. */
  datatype Request = Request(id: string, name: string, input: string, replaySafe: bool)

  ghost function CallIds(calls: seq<ToolCall>): set<string> { set c | c in calls :: c.callId }

  predicate DistinctIds(calls: seq<ToolCall>) {
    forall i, j | 0 <= i < j < |calls| :: calls[i].callId != calls[j].callId
  }

  predicate NoDuplicates(s: seq<string>) {
    forall i, j | 0 <= i < j < |s| :: s[i] != s[j]
  }

  /** Distinct positions below a bound, in order. */
  ghost predicate Increasing(s: seq<nat>, bound: nat) {
    (forall i | 0 <= i < |s| :: s[i] < bound) && forall i, j | 0 <= i < j < |s| :: s[i] < s[j]
  }

  predicate AllPlanned(calls: seq<ToolCall>) { forall c | c in calls :: c.status.Planned? }

  predicate AllCompleted(calls: seq<ToolCall>) { forall c | c in calls :: c.status.Completed? }

  /** `m` is the assistant message that requests exactly `calls`, in order by ID, name and hash. */
  predicate UseMatches(hash: string -> Option<string>, m: Message, calls: seq<ToolCall>) {
    m.role.Assistant? && |m.content| == |calls| &&
    forall i | 0 <= i < |calls| ::
      m.content[i].ToolUse? && m.content[i].id == calls[i].callId && m.content[i].name == calls[i].name &&
      hash(m.content[i].input) == Some(calls[i].inputHash)
  }

  /** Every message only answers calls of the batch. */
  predicate AnswersOnly(ms: seq<Message>, calls: seq<ToolCall>) {
    forall m | m in ms :: ResultMessage(m) && forall b | b in m.content :: exists c | c in calls :: c.callId == b.id
  }

  /** The batch boundary that recovery accepts: the tool uses first, then only fresh answers to them. */
  predicate ActiveBatch(hash: string -> Option<string>, ms: seq<Message>, calls: seq<ToolCall>) {
    |ms| > 0 && UseMatches(hash, ms[0], calls) && DistinctIds(calls) &&
    AnswersOnly(ms[1..], calls) && NoDuplicates(ResultIds(ms[1..]))
  }

  /** The canonical assistant message of a planned batch. */
  function UseMessage(calls: seq<ToolCall>): Message {
    Message(Assistant, seq(|calls|, i requires 0 <= i < |calls| =>
      ToolUse(calls[i].callId, calls[i].name, if calls[i].input.Some? then calls[i].input.value else "")))
  }

  function PlanCall(hash: string -> Option<string>, digest: string -> string, id: string, r: Request): ToolCall {
    var h := hash(r.input);
    ToolCall(r.id, r.name, Planned, ToolExecutionKey(digest, id, r.id),
             if h.Some? then h.value else "", Some(r.input), r.replaySafe, None)
  }

  function PlanCalls(hash: string -> Option<string>, digest: string -> string, id: string,
                     rs: seq<Request>): seq<ToolCall> {
    seq(|rs|, i requires 0 <= i < |rs| => PlanCall(hash, digest, id, rs[i]))
  }

  function PlanBatch(hash: string -> Option<string>, digest: string -> string, rs: seq<Request>, r: Record,
                     revision: nat, lastSequence: nat): Record {
    r.(revision := revision, lastSequence := lastSequence, phase := PhaseTools,
       batch := Some(Batch(PlanCalls(hash, digest, r.id, rs), 0, 0, None)))
  }

  function ReadyCalls(calls: seq<ToolCall>): seq<ToolCall> {
    seq(|calls|, i requires 0 <= i < |calls| => calls[i].(status := Ready, input := None))
  }

  function MarkReady(r: Record, revision: nat, lastSequence: nat): Record
    requires r.batch.Some?
  {
    var b := r.batch.value;
    r.(revision := revision, lastSequence := lastSequence,
       batch := Some(b.(calls := ReadyCalls(b.calls), useRevision := revision, useLastSequence := lastSequence)))
  }

  function CompleteCalls(calls: seq<ToolCall>, done: set<string>): seq<ToolCall> {
    seq(|calls|, i requires 0 <= i < |calls| =>
      if calls[i].callId in done then calls[i].(status := Completed) else calls[i])
  }

  /** Store `b` as the active batch, or clear it once every call is completed. */
  function WithBatch(r: Record, b: Batch): Record {
    if AllCompleted(b.calls) then r.(batch := None, phase := PhaseModel) else r.(batch := Some(b))
  }

  /** Mark the calls whose results are canonical as completed (removeToolCalls). */
  function Acknowledge(r: Record, done: set<string>, revision: nat, lastSequence: nat): Record {
    var r' := r.(revision := revision, lastSequence := lastSequence);
    if r.batch.None? then r' else
    WithBatch(r', r.batch.value.(calls := CompleteCalls(r.batch.value.calls, done)))
  }

  /** Complete the claimed call and drop its claim (finishResolutionClaim). */
  function ClearClaim(r: Record, claim: Claim, revision: nat, lastSequence: nat): Record
    requires r.batch.Some?
  {
    var b := r.batch.value;
    WithBatch(r.(revision := revision, lastSequence := lastSequence),
              b.(calls := CompleteCalls(b.calls, {claim.callId}), resolution := None))
  }

  function SetStatus(calls: seq<ToolCall>, id: string, status: CallStatus): seq<ToolCall> {
    seq(|calls|, i requires 0 <= i < |calls| =>
      if calls[i].callId == id then calls[i].(status := status) else calls[i])
  }

  function WithCalls(r: Record, calls: seq<ToolCall>): Record
    requires r.batch.Some?
  {
    r.(batch := Some(r.batch.value.(calls := calls)))
  }

  /** First call with the ID, if any. */
  function FindCall(calls: seq<ToolCall>, id: string): (c: Option<ToolCall>)
    ensures c.Some? ==> c.value in calls && c.value.callId == id
    ensures c.None? ==> forall x | x in calls :: x.callId != id
  {
    if calls == [] then None
    else if calls[0].callId == id then Some(calls[0])
    else FindCall(calls[1..], id)
  }

  datatype BeginResult = Claimed(r: Record) | Uncertain | Unsupported

  /** The durable Ready -> InFlight claim that must be saved before a handler may start. */
  function BeginCall(r: Record, id: string, recovering: bool): BeginResult {
    if r.batch.None? then Unsupported else
    match FindCall(r.batch.value.calls, id)
    case None => Unsupported
    case Some(c) =>
      if c.status.Ready? then Claimed(WithCalls(r, SetStatus(r.batch.value.calls, id, InFlight)))
      else if c.status.InFlight? then (if recovering && c.replaySafe then Claimed(r) else Uncertain)
      else Unsupported
  }

  /** Save the human decisions of an approval pause into the calls they answer. */
  function DecideCalls(calls: seq<ToolCall>, ids: seq<string>, answer: string -> Decision): seq<ToolCall> {
    seq(|calls|, i requires 0 <= i < |calls| =>
      if calls[i].callId in ids then calls[i].(approval := Some(answer(calls[i].callId))) else calls[i])
  }

  /** Calls that still need work, in batch order. */
  function Remaining(calls: seq<ToolCall>): seq<ToolCall> {
    if calls == [] then []
    else (if calls[0].status.Completed? then [] else [calls[0]]) + Remaining(calls[1..])
  }

  lemma {:induction false} RemainingMembers(calls: seq<ToolCall>)
    ensures forall c :: c in Remaining(calls) <==> c in calls && !c.status.Completed?
    ensures DistinctIds(calls) ==> DistinctIds(Remaining(calls))
  {
    if calls != [] {
      RemainingMembers(calls[1..]);
      var rest := Remaining(calls[1..]);
      assert forall c :: c in calls <==> c == calls[0] || c in calls[1..];
      if DistinctIds(calls) {
        assert DistinctIds(calls[1..]);
        forall j | 0 <= j < |rest| ensures rest[j].callId != calls[0].callId {
          assert rest[j] in calls[1..];
        }
      }
    }
  }

  /** `rest` are the calls among the first `n` that still need work, in order, and `at` says where they are. */
  ghost predicate RemainingAt(calls: seq<ToolCall>, n: nat, rest: seq<ToolCall>, at: seq<nat>) {
    n <= |calls| && |at| == |rest| && Increasing(at, n) &&
    (forall k | 0 <= k < |at| :: rest[k] == calls[at[k]] && !calls[at[k]].status.Completed?) &&
    forall i | 0 <= i < n && !calls[i].status.Completed? :: i in at
  }

  lemma RemainingGrows(calls: seq<ToolCall>, n: nat, rest: seq<ToolCall>, at: seq<nat>)
    requires RemainingAt(calls, n, rest, at) && n < |calls|
    ensures if calls[n].status.Completed? then RemainingAt(calls, n + 1, rest, at)
            else RemainingAt(calls, n + 1, rest + [calls[n]], at + [n])
  {
  }

  /** The calls that still need work keep their order. */
  lemma RemainingInOrder(calls: seq<ToolCall>) returns (at: seq<nat>)
    ensures RemainingAt(calls, |calls|, Remaining(calls), at)
  {
    at := [];
    var rest, i := [], 0;
    assert RemainingAt(calls, 0, rest, at) && calls[0..] == calls && calls[|calls|..] == [] && Remaining([]) == [];
    hide RemainingAt, Remaining;
    while i < |calls|
      invariant 0 <= i <= |calls| && RemainingAt(calls, i, rest, at)
      invariant Remaining(calls) == rest + Remaining(calls[i..])
    {
      RemainingStep(calls, i, rest);
      RemainingGrows(calls, i, rest, at);
      if !calls[i].status.Completed? { rest, at := rest + [calls[i]], at + [i]; }
      i := i + 1;
    }
    assert Remaining(calls) == rest;
  }

  lemma RemainingStep(calls: seq<ToolCall>, i: nat, rest: seq<ToolCall>)
    requires i < |calls|
    ensures rest + Remaining(calls[i..]) ==
      (if calls[i].status.Completed? then rest else rest + [calls[i]]) + Remaining(calls[i + 1..])
  {
    assert calls[i..][1..] == calls[i + 1..];
  }

  /** The announcement of a plan repeats the requests: ID, name and input, in order. */
  lemma PlanIsAnnouncedAsRequested(hash: string -> Option<string>, digest: string -> string, id: string,
                                   rs: seq<Request>)
    ensures var use := UseMessage(PlanCalls(hash, digest, id, rs));
      use.role.Assistant? && |use.content| == |rs| &&
      forall i | 0 <= i < |rs| :: use.content[i] == ToolUse(rs[i].id, rs[i].name, rs[i].input)
  {
  }

  const FAILED_TEXT: string := "tool execution failed"

  /**
   The tool result that a manual resolution stands for: a success shows its output, a failure is an error that always
   says something, its output first.
   */
  function ClaimResult(claim: Claim): (b: Block)
    ensures b.ToolResult? && b.id == claim.callId && (b.isError <==> claim.outcome.Failed?)
    ensures !claim.outcome.Failed? || claim.output != "" ==> b.content == claim.output
    ensures claim.outcome.Failed? && claim.output == "" && claim.errorMessage != "" ==> b.content == claim.errorMessage
    ensures claim.outcome.Failed? ==> b.content != ""
  {
    var failed := claim.outcome.Failed?;
    var text := if failed && claim.output == "" then claim.errorMessage else claim.output;
    ToolResult(claim.callId, if failed && text == "" then FAILED_TEXT else text, failed, [])
  }

  /** A block that carries the claimed content and error flag for the claimed call. */
  predicate ConfirmsClaim(b: Block, claim: Claim) {
    var e := ClaimResult(claim);
    b.ToolResult? && b.id == e.id && b.content == e.content && b.isError == e.isError
  }
}
