/** The rolling summary. */
module RollingSummary {
  import opened Messages
  import opened ToolBatch
  import opened TurnMessages

  // The durable summary of a growing log, with savers that race.

  // ---- Unresolved tool work --------------------------------------------------------------------

  /** Uses of a call that no later result has settled; a result without a pending use settles nothing. */
  function Pending(blocks: seq<Block>, id: string): nat {
    if blocks == [] then 0
    else
      var before, x := Pending(blocks[..|blocks| - 1], id), blocks[|blocks| - 1];
      if x.ToolUse? && x.id == id then before + 1
      else if x.ToolResult? && x.id == id && before > 0 then before - 1
      else before
  }

  /** Uses minus results of a call. */
  function Excess(blocks: seq<Block>, id: string): int {
    if blocks == [] then 0
    else
      var x := blocks[|blocks| - 1];
      Excess(blocks[..|blocks| - 1], id) +
      if x.ToolUse? && x.id == id then 1 else if x.ToolResult? && x.id == id then -1 else 0
  }

  /** Pending uses are the largest excess of uses over results in any suffix: a result settles one earlier use. */
  lemma {:induction false} PendingIsExcess(blocks: seq<Block>, id: string) returns (from: nat)
    ensures forall k | 0 <= k <= |blocks| :: Excess(blocks[k..], id) <= Pending(blocks, id)
    ensures from <= |blocks| && Excess(blocks[from..], id) == Pending(blocks, id)
  {
    from := 0;
    if blocks != [] {
      var n := |blocks| - 1;
      var front, x := blocks[..n], blocks[n];
      from := PendingIsExcess(front, id);
      forall k | 0 <= k <= n ensures blocks[k..][..n - k] == front[k..] && blocks[k..][n - k] == x {}
      assert blocks[|blocks|..] == [] && blocks[n..] == [x];
      if x.ToolResult? && x.id == id && Pending(front, id) == 0 { from := |blocks|; }
    } else {
      assert blocks[0..] == [];
    }
  }

  ghost predicate Unresolved(ms: seq<Message>) { exists id :: Pending(Blocks(ms), id) > 0 }

  function Count(pending: map<string, nat>, id: string): nat { if id in pending then pending[id] else 0 }

  method HasUnresolved(ms: seq<Message>) returns (unresolved: bool)
    ensures unresolved <==> Unresolved(ms)
  {
    var blocks := Flatten(ms);
    var pending: map<string, nat> := map[];
    var i := 0;
    while i < |blocks|
      invariant 0 <= i <= |blocks|
      invariant forall id :: Count(pending, id) == Pending(blocks[..i], id)
      invariant forall id | id in pending :: pending[id] > 0
    {
      var x := blocks[i];
      assert blocks[..i + 1][..i] == blocks[..i] && blocks[..i + 1][i] == x;
      if x.ToolUse? {
        pending := pending[x.id := Count(pending, x.id) + 1];
      } else if x.ToolResult? && Count(pending, x.id) > 0 {
        pending := pending[x.id := pending[x.id] - 1];
        if pending[x.id] == 0 {
          pending := pending - {x.id};
        }
      }
      i := i + 1;
    }
    assert blocks[..i] == blocks;
    unresolved := |pending| > 0;
    if unresolved {
      assert pending.Keys != {};
      var id :| id in pending;
      assert Pending(blocks, id) > 0;
    } else {
      assert pending == map[];
    }
  }

  /** A settled use has its result inside the same blocks. */
  lemma {:induction false} SettledHasResult(blocks: seq<Block>, id: string)
    requires id in UsesOf(blocks) && Pending(blocks, id) == 0
    ensures id in ResultsOf(blocks)
  {
    var front, x := blocks[..|blocks| - 1], blocks[|blocks| - 1];
    assert blocks == front + [x];
    UsesOfConcat(front, [x]);
    ResultsOfConcat(front, [x]);
    assert UsesOf([x]) == (if x.ToolUse? then [x.id] else []) + UsesOf([]);
    assert ResultsOf([x]) == (if x.ToolResult? then [x.id] else []) + ResultsOf([]);
    if !(x.ToolResult? && x.id == id) {
      SettledHasResult(front, id);
    }
  }

  lemma {:induction false} AtMostOnce(a: seq<string>, b: seq<string>, id: string)
    requires multiset(a + b)[id] <= 1 && id in a
    ensures id !in b
  {
    assert multiset(a)[id] > 0;
  }

  /** A chunk without unresolved work shares no call with what follows it, when every call is answered at most once. */
  lemma CutKeepsPairs(chunk: seq<Message>, rest: seq<Message>, id: string)
    requires !Unresolved(chunk) && multiset(ResultIds(chunk + rest))[id] <= 1 && id in UseIds(chunk)
    ensures id !in ResultIds(rest)
  {
    SettledHasResult(Blocks(chunk), id);
    ResultIdsConcat(chunk, rest);
    AtMostOnce(ResultIds(chunk), ResultIds(rest), id);
  }

  /** The largest cut that leaves `preserve` messages and no unresolved work before it. */
  method SafeCut(recent: seq<Message>, preserve: nat) returns (cut: nat)
    requires preserve < |recent|
    ensures cut <= |recent| - preserve && (cut == 0 || !Unresolved(recent[..cut]))
    ensures forall c | cut < c <= |recent| - preserve :: Unresolved(recent[..c])
  {
    cut := |recent| - preserve;
    while cut > 0
      invariant 0 <= cut <= |recent| - preserve
      invariant forall c | cut < c <= |recent| - preserve :: Unresolved(recent[..c])
    {
      var unresolved := HasUnresolved(recent[..cut]);
      if !unresolved {
        return;
      }
      cut := cut - 1;
    }
  }

  // ---- One call of Prepare ------------------------------------------------------------------------

  /** A summary text together with what it was made from: the earlier summary and the newly covered messages. */
  datatype Summary = NoSummary | Summarized(earlier: Summary, chunk: seq<Message>, text: string)

  datatype Rolling = Rolling(summary: Summary, covered: nat)

  /** `recent` is the model-facing view of the canonical messages after `boundary` up to sequence number `last`. */
  datatype Input = Input(recent: seq<Message>, boundary: nat, last: nat, transient: seq<Message>, current: seq<Message>)

  const PREFIX := "[Automated summary of earlier messages in this conversation — not a new user message]\n\n"

  function SummaryMessage(text: string): Message { Message(User, [Text(PREFIX + text)]) }

  function Build(s: Rolling, recent: seq<Message>, input: Input): seq<Message> {
    (if s.summary.Summarized? && s.summary.text != "" then [SummaryMessage(s.summary.text)] else []) +
    recent + input.transient + input.current
  }

  /**
   What the model gets to see: the summary text, if there is one, as a first user message; then the uncovered history,
   the transient context and the current turn, complete and in this order.
   */
  ghost predicate IsContext(s: Rolling, recent: seq<Message>, input: Input, messages: seq<Message>) {
    var n := if s.summary.Summarized? && s.summary.text != "" then 1 else 0;
    var m := n + |recent|;
    var k := m + |input.transient|;
    |messages| == k + |input.current| && (n == 1 ==> messages[0] == Message(User, [Text(PREFIX + s.summary.text)])) &&
    messages[n..m] == recent && messages[m..k] == input.transient && messages[k..] == input.current
  }

  lemma {:induction false} BuildIsContext(s: Rolling, recent: seq<Message>, input: Input)
    ensures IsContext(s, recent, input, Build(s, recent, input))
  {
    var messages := Build(s, recent, input);
    var n := if s.summary.Summarized? && s.summary.text != "" then 1 else 0;
    var head := if n == 1 then [SummaryMessage(s.summary.text)] else [];
    assert messages == head + recent + input.transient + input.current;
    assert messages[n..n + |recent|] == recent;
    assert messages[n + |recent|..n + |recent| + |input.transient|] == input.transient;
    assert messages[n + |recent| + |input.transient|..] == input.current;
  }

  /** Input without the messages that the loaded state already covers. */
  function Skipped(s: Rolling, input: Input): Option<Input> {
    if s.covered <= input.boundary then Some(input)
    else if s.covered - input.boundary > |input.recent| then None
    else Some(input.(recent := input.recent[s.covered - input.boundary..], boundary := s.covered))
  }

  /** What Prepare decides from the loaded state: fail, answer as is, or try to save and then answer. */
  datatype Plan = Fails | Answers(messages: seq<Message>) | Saves(next: Rolling, messages: seq<Message>)

  /** `fits`: the estimate is within budget; `text`: what the summarizer would return. */
  method Prepare(s: Rolling, input: Input, preserve: nat, fits: bool, text: string) returns (plan: Plan)
    ensures IsPlan(s, input, preserve, fits, text, plan)
    ensures plan.Fails? <==> s.covered > input.boundary + |input.recent|
    ensures plan.Answers? ==>
      var rest := input.recent[if s.covered > input.boundary then s.covered - input.boundary else 0..];
      IsContext(s, rest, input, plan.messages) &&
      (fits || forall cut | 0 < cut <= |rest| - preserve :: Unresolved(rest[..cut]))
    ensures plan.Saves? ==>
      var rest := input.recent[if s.covered > input.boundary then s.covered - input.boundary else 0..];
      !fits && exists cut: nat ::
        0 < cut <= |rest| - preserve && !Unresolved(rest[..cut]) &&
        (forall c | cut < c <= |rest| - preserve :: Unresolved(rest[..c])) &&
        plan.next.covered == (if s.covered > input.boundary then s.covered else input.boundary) + cut &&
        plan.next.summary == Summarized(s.summary, rest[..cut], text) &&
        IsContext(plan.next, rest[cut..], input, plan.messages)
  {
    plan := Decided(s, input, preserve, fits, text);
    hide IsPlan, IsContext, Unresolved;
    PlanSays(s, input, preserve, fits, text, plan);
  }

  method Decided(s: Rolling, input: Input, preserve: nat, fits: bool, text: string) returns (plan: Plan)
    ensures IsPlan(s, input, preserve, fits, text, plan)
  {
    var skipped := input;
    if s.covered > input.boundary {
      var skip := s.covered - input.boundary;
      if skip > |input.recent| {
        return Fails;
      }
      skipped := input.(recent := input.recent[skip..], boundary := s.covered);
    }
    var messages := Build(s, skipped.recent, input);
    if fits || |skipped.recent| <= preserve {
      return Answers(messages);
    }
    var cut := SafeCut(skipped.recent, preserve);
    if cut == 0 {
      return Answers(messages);
    }
    var next := Rolling(Summarized(s.summary, skipped.recent[..cut], text), skipped.boundary + cut);
    plan := Saves(next, Build(next, skipped.recent[cut..], input));
    assert IsCut(skipped.recent, preserve, cut);
  }

  /** What a plan means for the caller, whatever way it was decided. */
  lemma {:induction false} PlanSays(s: Rolling, input: Input, preserve: nat, fits: bool, text: string, plan: Plan)
    requires IsPlan(s, input, preserve, fits, text, plan)
    ensures plan.Fails? <==> s.covered > input.boundary + |input.recent|
    ensures plan.Answers? ==>
      var rest := input.recent[if s.covered > input.boundary then s.covered - input.boundary else 0..];
      IsContext(s, rest, input, plan.messages) &&
      (fits || forall cut | 0 < cut <= |rest| - preserve :: Unresolved(rest[..cut]))
    ensures plan.Saves? ==>
      var rest := input.recent[if s.covered > input.boundary then s.covered - input.boundary else 0..];
      !fits && exists cut: nat ::
        0 < cut <= |rest| - preserve && !Unresolved(rest[..cut]) &&
        (forall c | cut < c <= |rest| - preserve :: Unresolved(rest[..c])) &&
        plan.next.covered == (if s.covered > input.boundary then s.covered else input.boundary) + cut &&
        plan.next.summary == Summarized(s.summary, rest[..cut], text) &&
        IsContext(plan.next, rest[cut..], input, plan.messages)
  {
    if plan.Answers? {
      AnswerSays(s, input, preserve, fits, text, plan);
    } else if plan.Saves? {
      var cut := SaveSays(s, input, preserve, fits, text, plan);
    }
  }

  lemma {:induction false} AnswerSays(s: Rolling, input: Input, preserve: nat, fits: bool, text: string, plan: Plan)
    requires IsPlan(s, input, preserve, fits, text, plan) && plan.Answers?
    ensures s.covered <= input.boundary + |input.recent|
    ensures
      var rest := input.recent[if s.covered > input.boundary then s.covered - input.boundary else 0..];
      IsContext(s, rest, input, plan.messages) &&
      (fits || forall cut | 0 < cut <= |rest| - preserve :: Unresolved(rest[..cut]))
  {
    var rest := input.recent[if s.covered > input.boundary then s.covered - input.boundary else 0..];
    assert Skipped(s, input).value.recent == rest;
    hide Build, IsContext, Unresolved, Skipped, IsCut;
    BuildIsContext(s, rest, input);
    if !fits { NoCut(rest, preserve); }
  }

  lemma {:induction false} SaveSays(s: Rolling, input: Input, preserve: nat, fits: bool, text: string, plan: Plan)
    returns (cut: nat)
    requires IsPlan(s, input, preserve, fits, text, plan) && plan.Saves?
    ensures !fits && s.covered <= input.boundary + |input.recent|
    ensures
      var rest := input.recent[if s.covered > input.boundary then s.covered - input.boundary else 0..];
      0 < cut <= |rest| - preserve && !Unresolved(rest[..cut]) &&
      (forall c | cut < c <= |rest| - preserve :: Unresolved(rest[..c])) &&
      plan.next.covered == (if s.covered > input.boundary then s.covered else input.boundary) + cut &&
      plan.next.summary == Summarized(s.summary, rest[..cut], text) &&
      IsContext(plan.next, rest[cut..], input, plan.messages)
  {
    var rest := input.recent[if s.covered > input.boundary then s.covered - input.boundary else 0..];
    var i := Skipped(s, input).value;
    assert i.recent == rest;
    cut :| IsCut(i.recent, preserve, cut) &&
      plan.next == Rolling(Summarized(s.summary, i.recent[..cut], text), i.boundary + cut) &&
      plan.messages == Build(plan.next, i.recent[cut..], input);
    hide Build, IsContext, Unresolved, IsPlan;
    BuildIsContext(plan.next, rest[cut..], input);
  }

  /** If any cut is resolved, then one of them is the largest. */
  lemma {:induction false} LargestCut(rest: seq<Message>, preserve: nat, cut: nat) returns (best: nat)
    requires 0 < cut <= |rest| - preserve && !Unresolved(rest[..cut])
    ensures IsCut(rest, preserve, best)
    decreases |rest| - cut
  {
    hide Unresolved;
    best := cut;
    if c :| cut < c <= |rest| - preserve && !Unresolved(rest[..c]) { best := LargestCut(rest, preserve, c); }
  }

  lemma {:induction false} NoCut(rest: seq<Message>, preserve: nat)
    requires !exists cut: nat :: IsCut(rest, preserve, cut)
    ensures forall cut | 0 < cut <= |rest| - preserve :: Unresolved(rest[..cut])
  {
    hide Unresolved, IsCut;
    forall cut | 0 < cut <= |rest| - preserve ensures Unresolved(rest[..cut]) {
      if !Unresolved(rest[..cut]) { var best := LargestCut(rest, preserve, cut); }
    }
  }

  ghost predicate IsCut(recent: seq<Message>, preserve: nat, cut: nat) {
    preserve < |recent| && 0 < cut <= |recent| - preserve && !Unresolved(recent[..cut]) &&
    forall c | cut < c <= |recent| - preserve :: Unresolved(recent[..c])
  }

  ghost predicate IsPlan(s: Rolling, input: Input, preserve: nat, fits: bool, text: string, plan: Plan) {
    match Skipped(s, input)
    case None => plan.Fails?
    case Some(i) =>
      if !fits && exists cut: nat :: IsCut(i.recent, preserve, cut) then
        exists cut: nat :: IsCut(i.recent, preserve, cut) &&
          var next := Rolling(Summarized(s.summary, i.recent[..cut], text), i.boundary + cut);
          plan == Saves(next, Build(next, i.recent[cut..], input))
      else plan == Answers(Build(s, i.recent, input))
  }

  // ---- Racing callers ----------------------------------------------------------------------------------

  datatype Caller =
    | Entered(input: Input)                                  // boundary and history loaded
    | HasState(input: Input, state: Rolling, revision: nat)  // rolling state loaded
    | Returned(state: Rolling, messages: seq<Message>, input: Input)
    | Failed

  /** The canonical log and the context state with its own revision. */
  datatype System = System(log: seq<Message>, state: Rolling, revision: nat, callers: map<nat, Caller>)

  datatype Event =
    | Append(ms: seq<Message>)
    | Enter(t: nat, input: Input)
    | LoadState(t: nat)
    | Decide(t: nat, preserve: nat, fits: bool, text: string, acked: bool)
    | Drop(t: nat)

  /** What the engine passes: the projection of the canonical messages between two sequence numbers. */
  ghost predicate Projected(log: seq<Message>, input: Input) {
    input.boundary <= input.last <= |log| && input.recent == Project(log[input.boundary..input.last])
  }

  ghost predicate Step(sys: System, e: Event, sys': System) {
    match e
    case Append(ms) => sys' == sys.(log := sys.log + ms)
    case Enter(t, input) =>
      t !in sys.callers && input.boundary <= sys.state.covered && Projected(sys.log, input) &&
      sys' == sys.(callers := sys.callers[t := Entered(input)])
    case LoadState(t) => t in sys.callers && sys.callers[t].Entered? &&
      sys' == sys.(callers := sys.callers[t := HasState(sys.callers[t].input, sys.state, sys.revision)])
    case Decide(t, preserve, fits, text, acked) =>
      t in sys.callers && sys.callers[t].HasState? &&
      exists plan :: DecideStep(sys, t, preserve, fits, text, acked, plan, sys')
    case Drop(t) => sys' == sys.(callers := sys.callers - {t})
  }

  /** The save takes effect only at the loaded revision, and may take effect although the caller sees an error. */
  ghost predicate DecideStep(sys: System, t: nat, preserve: nat, fits: bool, text: string, acked: bool, plan: Plan,
                             sys': System)
    requires t in sys.callers && sys.callers[t].HasState?
  {
    var c := sys.callers[t];
    IsPlan(c.state, c.input, preserve, fits, text, plan) &&
    match plan
    case Fails => sys' == sys.(callers := sys.callers[t := Failed])
    case Answers(ms) => sys' == sys.(callers := sys.callers[t := Returned(c.state, ms, c.input)])
    case Saves(next, ms) =>
      if c.revision != sys.revision then sys' == sys.(callers := sys.callers[t := Failed])
      else sys' == sys.(state := next, revision := sys.revision + 1,
                        callers := sys.callers[t := if acked then Returned(next, ms, c.input) else Failed])
  }

  ghost predicate Start(sys: System) { sys.state == Rolling(NoSummary, 0) && sys.callers == map[] }

  ghost predicate IsRun(run: seq<System>, events: seq<Event>) {
    |run| == |events| + 1 && Start(run[0]) && forall i | 0 <= i < |events| :: Step(run[i], events[i], run[i + 1])
  }

  // ---- Exactness ------------------------------------------------------------------------------------------

  /** Every message that ever went into the summary, in the order it was folded. */
  function Folded(s: Summary): seq<Message> {
    match s
    case NoSummary => []
    case Summarized(earlier, chunk, _) => Folded(earlier) + chunk
  }

  ghost predicate Closed(s: Summary) {
    s.Summarized? ==> Closed(s.earlier) && !Unresolved(s.chunk)
  }

  /** The same message up to the order of its blocks, which the projection may change inside an answer. */
  ghost predicate Same(m: Message, n: Message) { m.role == n.role && multiset(m.content) == multiset(n.content) }

  ghost predicate SameAll(ms: seq<Message>, ns: seq<Message>) {
    |ms| == |ns| && forall i | 0 <= i < |ms| :: Same(ms[i], ns[i])
  }

  /** The summary stands for exactly the first `covered` canonical messages, once each and in order. */
  ghost predicate Exact(log: seq<Message>, s: Rolling) {
    s.covered <= |log| && SameAll(Folded(s.summary), log[..s.covered]) && Closed(s.summary)
  }

  /** One message of `recent` per sequence number. */
  ghost predicate Canonical(log: seq<Message>, input: Input) {
    input.boundary <= input.last <= |log| && SameAll(input.recent, log[input.boundary..input.last])
  }

  /** The answer is the summary of a prefix plus exactly the messages after it. */
  ghost predicate ExactAnswer(log: seq<Message>, s: Rolling, messages: seq<Message>, input: Input) {
    input.boundary <= s.covered <= input.last <= |log| && |input.recent| == input.last - input.boundary &&
    var rest := input.recent[s.covered - input.boundary..];
    SameAll(rest, log[s.covered..input.last]) && IsContext(s, rest, input, messages)
  }

  ghost predicate CallerOk(sys: System, c: Caller) {
    match c
    case Entered(input) => Canonical(sys.log, input) && input.boundary <= sys.state.covered
    case HasState(input, state, revision) =>
      Canonical(sys.log, input) && Exact(sys.log, state) && input.boundary <= state.covered <= sys.state.covered &&
      revision <= sys.revision && (revision == sys.revision ==> state == sys.state)
    case Returned(state, messages, input) =>
      Exact(sys.log, state) && state.covered <= sys.state.covered && ExactAnswer(sys.log, state, messages, input)
    case Failed => true
  }

  ghost predicate Inv(sys: System) {
    Exact(sys.log, sys.state) && forall t | t in sys.callers :: CallerOk(sys, sys.callers[t])
  }

  lemma {:induction false} SameSlice(ms: seq<Message>, ns: seq<Message>, i: nat, j: nat)
    requires SameAll(ms, ns) && i <= j <= |ms|
    ensures SameAll(ms[i..j], ns[i..j])
  {
  }

  lemma {:induction false} SameConcat(a: seq<Message>, b: seq<Message>, x: seq<Message>, y: seq<Message>)
    requires SameAll(a, x) && SameAll(b, y)
    ensures SameAll(a + b, x + y)
  {
  }

  lemma {:induction false} ExactGrows(log: seq<Message>, more: seq<Message>, s: Rolling)
    requires Exact(log, s)
    ensures Exact(log + more, s)
  {
    assert (log + more)[..s.covered] == log[..s.covered];
  }

  /** Folding the next messages once more keeps the summary exact, and the rest is what follows them. */
  lemma {:induction false} SavedExact(log: seq<Message>, s: Rolling, recent: seq<Message>, cut: nat, text: string,
                                      end: nat)
    requires Exact(log, s) && s.covered <= end <= |log| && SameAll(recent, log[s.covered..end]) && cut <= |recent| &&
      !Unresolved(recent[..cut])
    ensures Exact(log, Rolling(Summarized(s.summary, recent[..cut], text), s.covered + cut))
    ensures SameAll(recent[cut..], log[s.covered + cut..end])
  {
    hide Unresolved;
    assert log[..s.covered + cut] == log[..s.covered] + log[s.covered..end][..cut];
    SameSlice(recent, log[s.covered..end], 0, cut);
    SameConcat(Folded(s.summary), recent[..cut], log[..s.covered], log[s.covered..end][..cut]);
    SameSlice(recent, log[s.covered..end], cut, |recent|);
    assert recent[cut..|recent|] == recent[cut..] && log[s.covered..end][cut..|recent|] == log[s.covered + cut..end];
  }

  /** The rest of the answer of a saving plan. */
  lemma {:induction false} SavedRest(input: Input, covered: nat, cut: nat)
    requires input.boundary <= covered && covered - input.boundary + cut <= |input.recent|
    ensures input.recent[covered - input.boundary..][cut..] == input.recent[covered + cut - input.boundary..]
  {
  }

  lemma {:induction false} SkippedRecent(log: seq<Message>, s: Rolling, input: Input)
    requires input.boundary <= s.covered && Canonical(log, input) && Skipped(s, input).Some?
    ensures var i := Skipped(s, input).value;
      i.boundary == s.covered <= input.last <= |log| && i.recent == input.recent[s.covered - input.boundary..] &&
      |input.recent| == input.last - input.boundary && SameAll(i.recent, log[s.covered..input.last])
  {
    var slice, skip := log[input.boundary..input.last], s.covered - input.boundary;
    SameSlice(input.recent, slice, skip, |slice|);
    assert slice[skip..|slice|] == log[s.covered..input.last] && input.recent[skip..|slice|] == input.recent[skip..];
    assert skip == 0 ==> input.recent[skip..] == input.recent;
  }

  /** What a plan saves and returns is exact again. */
  lemma {:induction false} PlanExact(log: seq<Message>, s: Rolling, input: Input, preserve: nat, fits: bool,
                                     text: string, plan: Plan)
    requires Exact(log, s) && IsPlan(s, input, preserve, fits, text, plan) && input.boundary <= s.covered &&
      Canonical(log, input)
    ensures plan.Answers? ==> ExactAnswer(log, s, plan.messages, input)
    ensures plan.Saves? ==>
      Exact(log, plan.next) && plan.next.covered > s.covered && ExactAnswer(log, plan.next, plan.messages, input)
  {
    hide Exact, SameAll, Build, Unresolved, ExactAnswer, Canonical;
    if Skipped(s, input).Some? {
      SkippedRecent(log, s, input);
      var i := Skipped(s, input).value;
      hide Skipped;
      if plan.Saves? {
        var cut: nat :| IsCut(i.recent, preserve, cut) &&
          plan.next == Rolling(Summarized(s.summary, i.recent[..cut], text), i.boundary + cut) &&
          plan.messages == Build(plan.next, i.recent[cut..], input);
        SavesExact(log, s, input, i.recent, preserve, cut, text, plan.messages);
      } else if plan.Answers? {
        AnswersExact(log, s, input, i.recent, plan.messages);
      }
    }
  }

  lemma {:induction false} AnswersExact(log: seq<Message>, s: Rolling, input: Input, recent: seq<Message>,
                                        messages: seq<Message>)
    requires input.boundary <= s.covered <= input.last <= |log| && |input.recent| == input.last - input.boundary
    requires recent == input.recent[s.covered - input.boundary..] && SameAll(recent, log[s.covered..input.last])
    requires messages == Build(s, recent, input)
    ensures ExactAnswer(log, s, messages, input)
  {
    hide SameAll, Build, IsContext;
    BuildIsContext(s, recent, input);
  }

  lemma {:induction false} SavesExact(log: seq<Message>, s: Rolling, input: Input, recent: seq<Message>,
                                      preserve: nat, cut: nat,
                                      text: string, messages: seq<Message>)
    requires Exact(log, s) && input.boundary <= s.covered <= input.last <= |log| &&
      |input.recent| == input.last - input.boundary
    requires recent == input.recent[s.covered - input.boundary..] && SameAll(recent, log[s.covered..input.last])
    requires IsCut(recent, preserve, cut)
    requires var next := Rolling(Summarized(s.summary, recent[..cut], text), s.covered + cut);
      messages == Build(next, recent[cut..], input)
    ensures var next := Rolling(Summarized(s.summary, recent[..cut], text), s.covered + cut);
      Exact(log, next) && next.covered > s.covered && ExactAnswer(log, next, messages, input)
  {
    CutIsSafe(recent, preserve, cut);
    hide Exact, SameAll, Build, IsCut, ExactAnswer, Unresolved;
    SavedExact(log, s, recent, cut, text, input.last);
    SavedRest(input, s.covered, cut);
    AnswersExact(log, Rolling(Summarized(s.summary, recent[..cut], text), s.covered + cut), input, recent[cut..],
                 messages);
  }

  lemma {:induction false} CutIsSafe(recent: seq<Message>, preserve: nat, cut: nat)
    requires IsCut(recent, preserve, cut)
    ensures 0 < cut <= |recent| && !Unresolved(recent[..cut])
  {
  }

  lemma {:induction false} CallerStable(sys: System, sys': System, c: Caller)
    requires CallerOk(sys, c) && sys.log <= sys'.log && sys.state.covered <= sys'.state.covered &&
      sys.revision <= sys'.revision
    requires sys.revision == sys'.revision ==> sys.state == sys'.state
    ensures CallerOk(sys', c)
  {
    var more := sys'.log[|sys.log|..];
    assert sys'.log == sys.log + more;
    if c.HasState? || c.Returned? { ExactGrows(sys.log, more, c.state); }
    hide SameAll, Exact, Build;
    if c.Entered? || c.HasState? {
      assert sys'.log[c.input.boundary..c.input.last] == sys.log[c.input.boundary..c.input.last];
    }
    if c.Returned? {
      assert sys'.log[c.state.covered..c.input.last] == sys.log[c.state.covered..c.input.last];
    }
  }

  lemma {:induction false} DecideExact(sys: System, t: nat, preserve: nat, fits: bool, text: string, acked: bool,
                                       plan: Plan, sys': System)
    requires Inv(sys) && t in sys.callers && sys.callers[t].HasState? &&
      DecideStep(sys, t, preserve, fits, text, acked, plan, sys')
    ensures Exact(sys'.log, sys'.state) && sys.state.covered <= sys'.state.covered && CallerOk(sys', sys'.callers[t])
    ensures sys.revision <= sys'.revision && (sys.revision == sys'.revision ==> sys.state == sys'.state) &&
      sys'.log == sys.log
    ensures sys'.callers == sys.callers[t := sys'.callers[t]]
  {
    var c := sys.callers[t];
    hide IsPlan, Exact, ExactAnswer, Canonical;
    PlanExact(sys.log, c.state, c.input, preserve, fits, text, plan);
  }

  lemma {:induction false} StepInv(sys: System, e: Event, sys': System)
    requires Inv(sys) && Step(sys, e, sys') && (e.Enter? ==> AnsweredOnce(sys.log, e.input))
    ensures Inv(sys') && sys.state.covered <= sys'.state.covered && sys.log <= sys'.log
  {
    if e.Decide? {
      var plan :| DecideStep(sys, e.t, e.preserve, e.fits, e.text, e.acked, plan, sys');
      DecideExact(sys, e.t, e.preserve, e.fits, e.text, e.acked, plan, sys');
    }
    if e.Append? { ExactGrows(sys.log, e.ms, sys.state); }
    if e.Enter? { ProjectedIsCanonical(sys.log, e.input); }
    hide Exact, ExactAnswer, DecideStep, Canonical, Projected;
    forall t | t in sys'.callers ensures CallerOk(sys', sys'.callers[t]) {
      if t in sys.callers && sys'.callers[t] == sys.callers[t] {
        CallerStable(sys, sys', sys.callers[t]);
      }
    }
  }

  /** Every context that was loaded in the run has at most one answer message per tool batch. */
  ghost predicate AllAnsweredOnce(run: seq<System>, events: seq<Event>) {
    |run| == |events| + 1 && forall i | 0 <= i < |events| && events[i].Enter? ::
      AnsweredOnce(run[i].log, events[i].input)
  }

  lemma {:induction false} RunInv(run: seq<System>, events: seq<Event>, k: nat)
    requires IsRun(run, events) && AllAnsweredOnce(run, events) && k < |run|
    ensures Inv(run[k])
  {
    if k == 0 {
      assert run[0].log[..0] == [];
    } else {
      RunInv(run, events, k - 1);
      hide Inv, Step, AnsweredOnce;
      StepInv(run[k - 1], events[k - 1], run[k]);
    }
  }

  /**
   What every run keeps, whatever the answers: contexts are projections that start inside what the summary covers, and
   states are as current as their revision.
   */
  ghost predicate Sourced(sys: System, c: Caller) {
    ((c.Entered? || c.HasState?) ==> Projected(sys.log, c.input)) &&
    (c.Entered? ==> c.input.boundary <= sys.state.covered) &&
    (c.HasState? ==> c.input.boundary <= c.state.covered && c.revision <= sys.revision &&
                     (c.revision == sys.revision ==> c.state == sys.state))
  }

  ghost predicate AllSourced(sys: System) { forall t | t in sys.callers :: Sourced(sys, sys.callers[t]) }

  lemma {:induction false} SourcedGrows(sys: System, sys': System, c: Caller)
    requires Sourced(sys, c) && sys.log <= sys'.log && sys.revision <= sys'.revision
    requires sys.state.covered <= sys'.state.covered && (sys.revision == sys'.revision ==> sys.state == sys'.state)
    ensures Sourced(sys', c)
  {
    if c.Entered? || c.HasState? {
      assert sys'.log[c.input.boundary..c.input.last] == sys.log[c.input.boundary..c.input.last];
    }
  }

  /** What a plan folds: the next messages of the caller's context that its state does not cover. */
  lemma {:induction false} SavedChunk(s: Rolling, input: Input, preserve: nat, fits: bool, text: string, plan: Plan)
    requires IsPlan(s, input, preserve, fits, text, plan) && plan.Saves? && input.boundary <= s.covered
    ensures var skip, cut := s.covered - input.boundary, plan.next.covered - s.covered;
      0 < cut && skip + cut <= |input.recent| && !Unresolved(input.recent[skip..skip + cut]) &&
      plan.next.summary == Summarized(s.summary, input.recent[skip..skip + cut], text)
  {
    var i, skip := Skipped(s, input).value, s.covered - input.boundary;
    assert i.recent == input.recent[skip..];
    var cut: nat :| IsCut(i.recent, preserve, cut) &&
      plan.next == Rolling(Summarized(s.summary, i.recent[..cut], text), i.boundary + cut);
    assert input.recent[skip..skip + cut] == i.recent[..cut];
  }

  lemma {:induction false} StepCovers(sys: System, e: Event, sys': System)
    requires AllSourced(sys) && Step(sys, e, sys')
    ensures sys.state.covered <= sys'.state.covered && sys.log <= sys'.log && sys.revision <= sys'.revision
    ensures sys.revision == sys'.revision ==> sys.state == sys'.state
  {
    if e.Decide? {
      hide IsPlan, Projected;
      var c := sys.callers[e.t];
      assert Sourced(sys, c);
      var plan :| DecideStep(sys, e.t, e.preserve, e.fits, e.text, e.acked, plan, sys');
      if plan.Saves? { SavedChunk(c.state, c.input, e.preserve, e.fits, e.text, plan); }
    }
  }

  lemma {:induction false} StepSourced(sys: System, e: Event, sys': System)
    requires AllSourced(sys) && Step(sys, e, sys')
    ensures AllSourced(sys')
  {
    StepCovers(sys, e, sys');
    forall t | t in sys'.callers ensures Sourced(sys', sys'.callers[t]) {
      if t in sys.callers && sys'.callers[t] == sys.callers[t] {
        hide Step, Sourced;
        SourcedGrows(sys, sys', sys.callers[t]);
      } else {
        MovedSourced(sys, e, sys', t);
      }
    }
  }

  lemma {:induction false} MovedSourced(sys: System, e: Event, sys': System, t: nat)
    requires AllSourced(sys) && Step(sys, e, sys') && t in sys'.callers &&
      !(t in sys.callers && sys'.callers[t] == sys.callers[t])
    ensures Sourced(sys', sys'.callers[t])
  {
    hide IsPlan, Projected;
  }

  lemma {:induction false} RunSourced(run: seq<System>, events: seq<Event>, k: nat)
    requires IsRun(run, events) && k < |run|
    ensures AllSourced(run[k])
  {
    if k > 0 {
      RunSourced(run, events, k - 1);
      hide AllSourced, Step;
      StepSourced(run[k - 1], events[k - 1], run[k]);
    }
  }

  /** In every run, whatever the answers, coverage never decreases. */
  lemma {:induction false} CoverageNeverDecreases(run: seq<System>, events: seq<Event>, j: nat, k: nat)
    requires IsRun(run, events) && j <= k < |run|
    ensures run[j].state.covered <= run[k].state.covered && run[j].log <= run[k].log
  {
    if j < k {
      RunSourced(run, events, k - 1);
      hide AllSourced, Step;
      StepCovers(run[k - 1], events[k - 1], run[k]);
      CoverageNeverDecreases(run, events, j, k - 1);
    }
  }

  /**
   Over any sequence of racing Prepare calls whose loaded contexts have one answer message per tool batch: the
   messages folded by successful saves are the canonical prefix, once each and in order; coverage never decreases;
   each returned context is that summary plus exactly the messages after it that the caller had loaded.
   */
  lemma RollingIsExact(run: seq<System>, events: seq<Event>, j: nat, k: nat)
    requires IsRun(run, events) && AllAnsweredOnce(run, events) && j <= k < |run|
    ensures Exact(run[k].log, run[k].state)
    ensures run[j].state.covered <= run[k].state.covered
    ensures forall t | t in run[k].callers && run[k].callers[t].Returned? ::
      var c := run[k].callers[t];
      Exact(run[k].log, c.state) && ExactAnswer(run[k].log, c.state, c.messages, c.input)
  {
    RunInv(run, events, k);
    CoverageNeverDecreases(run, events, j, k);
    hide IsRun, AllAnsweredOnce, Exact, ExactAnswer;
  }

  lemma {:induction false} ClosedHasNoOpenUse(s: Summary, id: string)
    requires Closed(s) && id in UseIds(Folded(s))
    ensures id in ResultIds(Folded(s))
  {
    UseIdsConcat(Folded(s.earlier), s.chunk);
    ResultIdsConcat(Folded(s.earlier), s.chunk);
    if id in UseIds(s.chunk) {
      SettledHasResult(Blocks(s.chunk), id);
    } else {
      ClosedHasNoOpenUse(s.earlier, id);
    }
  }

  /** Equal messages up to block order request and answer the same calls. */
  lemma {:induction false} SameCalls(ms: seq<Message>, ns: seq<Message>)
    requires SameAll(ms, ns)
    ensures multiset(Blocks(ms)) == multiset(Blocks(ns))
    decreases |ms|
  {
    if ms != [] {
      var m, n := ms[0], ns[0];
      assert Same(m, n);
      assert ms == [m] + ms[1..] && ns == [n] + ns[1..];
      SameSlice(ms, ns, 1, |ms|);
      assert ms[1..|ms|] == ms[1..] && ns[1..|ms|] == ns[1..];
      SameCalls(ms[1..], ns[1..]);
      hide SameAll, Same;
      assert Blocks(ms) == m.content + Blocks(ms[1..]) && Blocks(ns) == n.content + Blocks(ns[1..]);
    }
  }

  lemma {:induction false} SameMembers(a: seq<Block>, b: seq<Block>, id: string)
    requires multiset(a) == multiset(b)
    ensures id in UsesOf(a) <==> id in UsesOf(b)
    ensures id in ResultsOf(a) <==> id in ResultsOf(b)
  {
    UsesOfMember(a, id);
    UsesOfMember(b, id);
    ResultsOfMember(a, id);
    ResultsOfMember(b, id);
    assert forall x :: x in a <==> x in multiset(a);
    assert forall x :: x in b <==> x in multiset(b);
  }

  /** No summarized tool use has its result left behind, when every call is answered at most once. */
  lemma SummaryNeverSplitsPairs(run: seq<System>, events: seq<Event>, k: nat, id: string)
    requires IsRun(run, events) && AllAnsweredOnce(run, events) && k < |run| && run[k].state.covered <= |run[k].log|
    requires multiset(ResultIds(run[k].log))[id] <= 1 && id in UseIds(run[k].log[..run[k].state.covered])
    ensures id !in ResultIds(run[k].log[run[k].state.covered..])
  {
    RunInv(run, events, k);
    hide IsRun, AllAnsweredOnce;
    var log, s := run[k].log, run[k].state;
    var n := s.covered;
    SameCalls(Folded(s.summary), log[..n]);
    SameMembers(Blocks(Folded(s.summary)), Blocks(log[..n]), id);
    ClosedHasNoOpenUse(s.summary, id);
    hide Inv, Unresolved, Closed, Folded;
    assert log == log[..n] + log[n..];
    ResultIdsConcat(log[..n], log[n..]);
    AtMostOnce(ResultIds(log[..n]), ResultIds(log[n..]), id);
  }

  // ---- When the projection keeps one message per sequence number ------------------------------------------------

  /** No tool batch is answered by more than one message. */
  ghost predicate OneAnswerEach(ms: seq<Message>) { AnsweredBefore(ms, |ms|) }

  /** No tool batch that the first `cut` messages answer has a second answer message. */
  ghost predicate AnsweredBefore(ms: seq<Message>, cut: nat) {
    forall i | 0 <= i < |ms| && i + 1 < cut && Order(ms[i]) != [] :: RunLength(ms[i + 1..]) <= 1
  }

  ghost predicate AnsweredOnce(log: seq<Message>, input: Input) {
    input.boundary <= input.last <= |log| ==> OneAnswerEach(log[input.boundary..input.last])
  }

  lemma {:induction false} HeadLength(ms: seq<Message>)
    requires ms != []
    ensures |Head(ms)| == (if Skip(ms) == 1 then 1 else 2)
  {
  }

  lemma {:induction false} SameBlocks(m: Message, n: Message)
    requires m.role == n.role && multiset(m.content) == multiset(n.content)
    ensures Same(m, n)
  {
  }

  /** An answer in one message keeps its blocks, whatever their order. */
  lemma {:induction false} RegroupedAnswer(order: seq<string>, m: Message)
    requires NoDuplicates(order) && m.role.User?
    ensures Same(Message(User, Regroup(order, Blocks([m]))), m)
  {
    hide *;
    OneMessage(m);
    RegroupKeepsBlocks(order, m.content);
    SameBlocks(Message(User, Regroup(order, Blocks([m]))), m);
  }

  /** One step of the projection that emits as many messages as it consumes. */
  lemma {:induction false} HeadIsSame(ms: seq<Message>)
    requires ms != [] && Skip(ms) <= 2
    ensures SameAll(Head(ms), ms[..Skip(ms)])
  {
    if Skip(ms) == 2 {
      var m := ms[1];
      assert ms[1..2] == [m] && m == ms[1..][0] && ResultMessage(m);
      OrderDistinct(ms[0]);
      hide Order, Regroup, Blocks, NoDuplicates, RunLength;
      RegroupedAnswer(Order(ms[0]), m);
    }
  }

  lemma {:induction false} LongerIsNotSame(a: seq<Block>, b: seq<Block>)
    requires |a| > |b|
    ensures multiset(a) != multiset(b)
  {
    assert |multiset(a)| == |a| && |multiset(b)| == |b|;
  }

  lemma {:induction false} SecondAddsBlocks(run: seq<Message>)
    requires |run| >= 2 && run[1].content != []
    ensures |Blocks(run)| > |run[0].content|
  {
    assert Blocks(run) == run[0].content + Blocks(run[1..]);
    assert Blocks(run[1..]) == run[1].content + Blocks(run[1..][1..]);
  }

  /** A merged answer holds more than the first message of its run. */
  lemma {:induction false} MergedIsNotSame(ms: seq<Message>)
    requires ms != [] && Skip(ms) > 2
    ensures !Same(Head(ms)[1], ms[1])
  {
    var k := Skip(ms);
    var run := ms[1..k];
    RunShape(ms[1..]);
    assert run[0] == ms[1] && run[1] == ms[1..][1] && ResultMessage(run[1]);
    hide RunLength, ResultMessage;
    SecondAddsBlocks(run);
    OrderDistinct(ms[0]);
    hide Order, Regroup, Blocks, NoDuplicates;
    RegroupKeepsBlocks(Order(ms[0]), Blocks(run));
    LongerIsNotSame(Blocks(run), ms[1].content);
  }

  /** The first step of the projection, as a condition on the answers. */
  lemma {:induction false} ShiftedAnswers(ms: seq<Message>, cut: nat)
    requires ms != [] && Skip(ms) <= cut && cut >= 2
    ensures AnsweredBefore(ms, cut) <==> Skip(ms) <= 2 && AnsweredBefore(ms[Skip(ms)..], cut - Skip(ms))
  {
    var k := Skip(ms);
    InsideStep(ms);
    AnswersAfter(ms, cut, k);
    assert ms[0 + 1..] == ms[1..];
    hide RunLength, Order;
  }

  /** The answers that one step consumes request nothing. */
  lemma {:induction false} InsideStep(ms: seq<Message>)
    requires ms != []
    ensures forall i | 0 < i < Skip(ms) :: Order(ms[i]) == []
    ensures Order(ms[0]) == [] || RunLength(ms[1..]) == Skip(ms) - 1
  {
    RunShape(ms[1..]);
    forall i | 0 < i < Skip(ms) ensures Order(ms[i]) == [] { assert ms[i] == ms[1..][i - 1]; }
  }

  lemma {:induction false} AnswersAfter(ms: seq<Message>, cut: nat, k: nat)
    requires k <= |ms| && k <= cut
    ensures AnsweredBefore(ms[k..], cut - k) <==>
      forall i | k <= i < |ms| && i + 1 < cut && Order(ms[i]) != [] :: RunLength(ms[i + 1..]) <= 1
  {
    hide RunLength, Order;
    var tail := ms[k..];
    assert forall i | 0 <= i < |tail| :: tail[i] == ms[i + k] && tail[i + 1..] == ms[i + k + 1..];
    if AnsweredBefore(tail, cut - k) {
      forall i | k <= i < |ms| && i + 1 < cut && Order(ms[i]) != [] ensures RunLength(ms[i + 1..]) <= 1 {
        assert tail[i - k] == ms[i];
      }
    }
  }

  lemma {:induction false} CutHead(ms: seq<Message>, cut: nat)
    requires ms != [] && Skip(ms) <= cut <= |ms| && Skip(ms) <= 2 && cut <= |Project(ms)|
    ensures var k := Skip(ms);
      cut - k <= |Project(ms[k..])| &&
      (SameAll(Project(ms)[..cut], ms[..cut]) <==> SameAll(Project(ms[k..])[..cut - k], ms[k..][..cut - k]))
  {
    hide *;
    var k := Skip(ms);
    HeadLength(ms);
    ProjectStep(ms);
    HeadIsSame(ms);
    CutConcat(Head(ms), Project(ms[k..]), ms[..k], ms[k..], cut);
    assert ms[..k] + ms[k..] == ms;
  }

  lemma {:induction false} CutConcat(a: seq<Message>, b: seq<Message>, x: seq<Message>, y: seq<Message>, cut: nat)
    requires SameAll(a, x) && |a| <= cut <= |a| + |b| && cut <= |x| + |y|
    ensures SameAll((a + b)[..cut], (x + y)[..cut]) <==> SameAll(b[..cut - |a|], y[..cut - |a|])
  {
    assert |a| == |x|;
    hide SameAll;
    assert (a + b)[..cut] == a + b[..cut - |a|] && (x + y)[..cut] == x + y[..cut - |a|];
    SamePrefix(a, b[..cut - |a|], x, y[..cut - |a|]);
  }

  lemma {:induction false} SamePrefix(a: seq<Message>, b: seq<Message>, x: seq<Message>, y: seq<Message>)
    requires SameAll(a, x) && |b| == |y|
    ensures SameAll(a + b, x + y) <==> SameAll(b, y)
  {
    if SameAll(a + b, x + y) {
      SameSlice(a + b, x + y, |a|, |a + b|);
      assert (a + b)[|a|..|a + b|] == b && (x + y)[|a|..|a + b|] == y;
    }
    if SameAll(b, y) { SameConcat(a, b, x, y); }
  }

  /**
   Prepare folds recent[..cut] and records that `cut` sequence numbers are covered. On what the engine passes these
   are the same messages exactly when no batch answered before the cut has a second answer message.
   */
  lemma {:induction false} CutAgreesExactly(ms: seq<Message>, cut: nat)
    requires cut <= |Project(ms)| && cut <= |ms|
    ensures SameAll(Project(ms)[..cut], ms[..cut]) <==> AnsweredBefore(ms, cut)
    decreases |ms|
  {
    if cut == 1 {
      ProjectHead(ms);
      assert Project(ms)[..1] == ms[..1];
    } else if cut > 1 {
      HeadLength(ms);
      ProjectStep(ms);
      if Skip(ms) > 2 {
        MergedIsNotSame(ms);
        assert Project(ms)[..cut][1] == Head(ms)[1] && ms[..cut][1] == ms[1];
        assert ms[0 + 1..] == ms[1..] && Order(ms[0]) != [];
      } else {
        CutHead(ms, cut);
        ShiftedAnswers(ms, cut);
        hide *;
        CutAgreesExactly(ms[Skip(ms)..], cut - Skip(ms));
      }
    }
  }

  /** The projection has one message per sequence number exactly when no tool batch has two answer messages. */
  lemma {:induction false} OneMessagePerSequence(ms: seq<Message>)
    ensures |Project(ms)| <= |ms| && (|Project(ms)| == |ms| <==> OneAnswerEach(ms))
    decreases |ms|
  {
    if ms != [] {
      var k := Skip(ms);
      OneMessagePerSequence(ms[k..]);
      HeadLength(ms);
      if |ms| >= 2 { ShiftedAnswers(ms, |ms|); } else { assert ms[1..] == []; }
      ProjectStep(ms);
      hide *;
    }
  }

  lemma {:induction false} ProjectedIsCanonical(log: seq<Message>, input: Input)
    requires Projected(log, input) && AnsweredOnce(log, input)
    ensures Canonical(log, input)
  {
    var slice := log[input.boundary..input.last];
    OneMessagePerSequence(slice);
    CutAgreesExactly(slice, |slice|);
    assert Project(slice)[..|slice|] == Project(slice) && slice[..|slice|] == slice;
  }

  /** A summary that grows by `chunk` is exact again exactly when the chunk is what follows it. */
  lemma {:induction false} ExactNext(log: seq<Message>, s: Rolling, chunk: seq<Message>, text: string)
    requires Exact(log, s) && !Unresolved(chunk) && s.covered + |chunk| <= |log|
    ensures Exact(log, Rolling(Summarized(s.summary, chunk, text), s.covered + |chunk|)) <==>
      SameAll(chunk, log[s.covered..s.covered + |chunk|])
  {
    hide Unresolved, SameAll;
    var end := s.covered + |chunk|;
    assert log[..end] == log[..s.covered] + log[s.covered..end];
    SamePrefix(Folded(s.summary), chunk, log[..s.covered], log[s.covered..end]);
  }

  lemma {:induction false} SavedExactIff(log: seq<Message>, s: Rolling, input: Input, cut: nat, text: string)
    requires Exact(log, s) && Projected(log, input) && input.boundary == s.covered && cut <= |input.recent| &&
      !Unresolved(input.recent[..cut])
    ensures Exact(log, Rolling(Summarized(s.summary, input.recent[..cut], text), s.covered + cut)) <==>
      AnsweredBefore(log[s.covered..input.last], cut)
  {
    hide Unresolved, AnsweredBefore, Project, Exact, SameAll;
    var slice := log[s.covered..input.last];
    OneMessagePerSequence(slice);
    CutAgreesExactly(slice, cut);
    ExactNext(log, s, input.recent[..cut], text);
    assert slice[..cut] == log[s.covered..s.covered + cut];
  }

  /**
   A save by a caller whose context starts where the current summary ends keeps the summary exact if and only if no
   batch answered inside the newly covered range has a second answer message.
   */
  lemma SaveIsExactIff(run: seq<System>, events: seq<Event>, k: nat)
    requires IsRun(run, events) && k < |events| && events[k].Decide? && run[k + 1].revision != run[k].revision
    requires Exact(run[k].log, run[k].state)
    requires events[k].t in run[k].callers && run[k].callers[events[k].t].HasState?
    requires run[k].callers[events[k].t].input.boundary == run[k].state.covered
    ensures var s, s' := run[k].state, run[k + 1].state; var input := run[k].callers[events[k].t].input;
      s.covered < s'.covered && s.covered <= input.last <= |run[k].log| &&
      (Exact(run[k + 1].log, s') <==> AnsweredBefore(run[k].log[s.covered..input.last], s'.covered - s.covered))
  {
    hide Exact, AnsweredBefore, Step, AllSourced;
    RunSourced(run, events, k);
    StepSavesExactIff(run[k], events[k], run[k + 1]);
  }

  lemma {:induction false} StepSavesExactIff(sys: System, e: Event, sys': System)
    requires AllSourced(sys) && e.Decide? && Step(sys, e, sys') && sys'.revision != sys.revision &&
      Exact(sys.log, sys.state)
    requires sys.callers[e.t].input.boundary == sys.state.covered
    ensures var s, s', input := sys.state, sys'.state, sys.callers[e.t].input;
      s.covered < s'.covered && s.covered <= input.last <= |sys.log| &&
      (Exact(sys'.log, s') <==> AnsweredBefore(sys.log[s.covered..input.last], s'.covered - s.covered))
  {
    hide Exact, AnsweredBefore, IsPlan;
    var c := sys.callers[e.t];
    assert Sourced(sys, c);
    var plan :| DecideStep(sys, e.t, e.preserve, e.fits, e.text, e.acked, plan, sys');
    SavedChunk(c.state, c.input, e.preserve, e.fits, e.text, plan);
    var cut := plan.next.covered - c.state.covered;
    assert c.input.recent[0..cut] == c.input.recent[..cut];
    SavedExactIff(sys.log, sys.state, c.input, cut, e.text);
  }

  lemma {:induction false} SavedExactIf(log: seq<Message>, s: Rolling, input: Input, cut: nat, text: string)
    requires Exact(log, s) && Projected(log, input) && input.boundary <= s.covered
    requires var skip := s.covered - input.boundary;
      skip + cut <= |input.recent| && !Unresolved(input.recent[skip..skip + cut]) &&
      AnsweredBefore(log[input.boundary..input.last], skip + cut)
    ensures var skip := s.covered - input.boundary;
      Exact(log, Rolling(Summarized(s.summary, input.recent[skip..skip + cut], text), s.covered + cut))
  {
    hide Unresolved, AnsweredBefore, Project, Exact, SameAll;
    var slice, skip := log[input.boundary..input.last], s.covered - input.boundary;
    OneMessagePerSequence(slice);
    CutAgreesExactly(slice, skip + cut);
    SameInside(input.recent, slice, skip, skip + cut);
    ExactNext(log, s, input.recent[skip..skip + cut], text);
    SliceOfSlice(log, input.boundary, input.last, skip, skip + cut);
  }

  lemma {:induction false} SliceOfSlice(log: seq<Message>, from: nat, end: nat, i: nat, j: nat)
    requires from <= end <= |log| && i <= j <= end - from
    ensures log[from..end][i..j] == log[from + i..from + j]
  {
    var a, b := log[from..end][i..j], log[from + i..from + j];
    forall k | 0 <= k < |a| ensures a[k] == b[k] {
      assert a[k] == log[from..end][i + k];
    }
  }

  lemma {:induction false} SameInside(ms: seq<Message>, ns: seq<Message>, i: nat, j: nat)
    requires i <= j <= |ms| && j <= |ns| && SameAll(ms[..j], ns[..j])
    ensures SameAll(ms[i..j], ns[i..j])
  {
    SameSlice(ms[..j], ns[..j], i, j);
    assert ms[..j][i..j] == ms[i..j] && ns[..j][i..j] == ns[i..j];
  }

  /**
   A save by any caller, overtaken or not, keeps the summary exact if no batch answered in the caller's context, up to
   the newly covered end, has a second answer message.
   */
  lemma SaveIsExactIf(run: seq<System>, events: seq<Event>, k: nat)
    requires IsRun(run, events) && k < |events| && events[k].Decide? && run[k + 1].revision != run[k].revision
    requires Exact(run[k].log, run[k].state)
    requires events[k].t in run[k].callers && run[k].callers[events[k].t].HasState?
    ensures var s, s' := run[k].state, run[k + 1].state; var input := run[k].callers[events[k].t].input;
      s.covered < s'.covered && input.boundary <= s.covered && input.boundary <= input.last <= |run[k].log| &&
      (AnsweredBefore(run[k].log[input.boundary..input.last], s'.covered - input.boundary) ==>
        Exact(run[k + 1].log, s'))
  {
    hide Exact, AnsweredBefore, Step, AllSourced;
    RunSourced(run, events, k);
    StepSavesExactIf(run[k], events[k], run[k + 1]);
  }

  lemma {:induction false} StepSavesExactIf(sys: System, e: Event, sys': System)
    requires AllSourced(sys) && e.Decide? && Step(sys, e, sys') && sys'.revision != sys.revision &&
      Exact(sys.log, sys.state)
    ensures var s, s', input := sys.state, sys'.state, sys.callers[e.t].input;
      s.covered < s'.covered && input.boundary <= s.covered && input.boundary <= input.last <= |sys.log| &&
      (AnsweredBefore(sys.log[input.boundary..input.last], s'.covered - input.boundary) ==> Exact(sys'.log, s'))
  {
    hide Exact, AnsweredBefore, IsPlan;
    var c := sys.callers[e.t];
    assert Sourced(sys, c);
    var plan :| DecideStep(sys, e.t, e.preserve, e.fits, e.text, e.acked, plan, sys');
    SavedChunk(c.state, c.input, e.preserve, e.fits, e.text, plan);
    if AnsweredBefore(sys.log[c.input.boundary..c.input.last], plan.next.covered - c.input.boundary) {
      SavedExactIf(sys.log, sys.state, c.input, plan.next.covered - c.state.covered, e.text);
    }
  }

  // ---- A run in which the drift shows ---------------------------------------------------------------------------

  const USES := Message(Assistant, [ToolUse("a", "t", "x"), ToolUse("b", "t", "y")])
  const RESULT_A := ToolResult("a", "1", false, [])
  const RESULT_B := ToolResult("b", "2", false, [])
  const TWICE_ANSWERED := [USES, Message(User, [RESULT_A]), Message(User, [RESULT_B])]
  const MERGED := [USES, Message(User, [RESULT_A, RESULT_B])]
  const BOTH_FOLDED := Rolling(Summarized(NoSummary, MERGED, "s"), 2)

  lemma UsesInOrder()
    ensures Order(USES) == ["a", "b"]
  {
    var ids := ["a", "b"];
    assert UsesOf(USES.content) == ["a"] + UsesOf(USES.content[1..]) && UsesOf(USES.content[1..]) == ["b"] + UsesOf([]);
    assert ids[..1] == ["a"] && ids[..1][..0] == [];
    assert Dedup(["a"]) == Dedup([]) + ["a"];
  }

  lemma ResultsById()
    ensures WithId([RESULT_A, RESULT_B], "a") == [RESULT_A] && WithId([RESULT_A, RESULT_B], "b") == [RESULT_B]
  {
    var bs := [RESULT_A, RESULT_B];
    assert bs[1..] == [RESULT_B] && [RESULT_B][1..] == [];
    assert WithId([RESULT_B], "a") == [] + WithId([], "a") && WithId([RESULT_B], "b") == [RESULT_B] + WithId([], "b");
    assert WithId(bs, "a") == [RESULT_A] + WithId([RESULT_B], "a") && WithId(bs, "b") == [] + WithId([RESULT_B], "b");
  }

  lemma NoneUnknown()
    ensures Unknown([RESULT_A, RESULT_B], ["a", "b"]) == []
  {
    var ids, bs := ["a", "b"], [RESULT_A, RESULT_B];
    assert "a" in ids && "b" in ids && bs[1..] == [RESULT_B] && [RESULT_B][1..] == [];
    assert Unknown([RESULT_B], ids) == [] + Unknown([], ids) && Unknown(bs, ids) == [] + Unknown([RESULT_B], ids);
  }

  lemma ResultsInOrder()
    ensures Regroup(["a", "b"], [RESULT_A, RESULT_B]) == [RESULT_A, RESULT_B]
  {
    var ids, bs := ["a", "b"], [RESULT_A, RESULT_B];
    ResultsById();
    NoneUnknown();
    hide WithId, Unknown;
    assert ids[1..] == ["b"] && ["b"][1..] == [];
    assert Grouped(["b"], bs) == WithId(bs, "b") + Grouped([], bs);
    assert Grouped(ids, bs) == WithId(bs, "a") + Grouped(["b"], bs);
  }

  lemma TwoAnswers()
    ensures RunLength(TWICE_ANSWERED[1..]) == 2 && Blocks(TWICE_ANSWERED[1..]) == [RESULT_A, RESULT_B]
  {
    var run := TWICE_ANSWERED[1..];
    assert run[1..] == [TWICE_ANSWERED[2]] && run[1..][1..] == [];
    assert RunLength([]) == 0 && RunLength(run[1..]) == 1;
    assert Blocks(run) == [RESULT_A] + Blocks(run[1..]) && Blocks(run[1..]) == [RESULT_B] + Blocks([]);
  }

  lemma MergedView()
    ensures Project(TWICE_ANSWERED) == MERGED && Project(TWICE_ANSWERED[2..]) == TWICE_ANSWERED[2..]
  {
    var ms := TWICE_ANSWERED;
    var one := ms[2..];
    assert one == [ms[2]] && one[1..] == [] && Project(one) == [ms[2]] + Project([]);
    UsesInOrder();
    ResultsInOrder();
    TwoAnswers();
    hide Order, Regroup, Blocks;
    assert Skip(ms) == 3 && ms[3..] == [] && ms[1..3] == ms[1..];
    hide RunLength, Skip;
    ProjectStep(ms);
  }

  lemma NothingPending(id: string)
    ensures Pending(Blocks(MERGED), id) == 0
  {
    assert MERGED[1..] == [MERGED[1]] && MERGED[1..][1..] == [];
    assert Blocks(MERGED) == USES.content + Blocks(MERGED[1..]) &&
      Blocks(MERGED[1..]) == MERGED[1].content + Blocks([]);
    var bs := [USES.content[0], USES.content[1], RESULT_A, RESULT_B];
    assert Blocks(MERGED) == bs;
    assert bs[..3][..2] == bs[..2] && bs[..2][..1] == bs[..1] && bs[..1][..0] == [];
    assert Pending(bs[..1], id) == (if id == "a" then 1 else 0);
    assert Pending(bs[..2], id) == (if id == "a" || id == "b" then 1 else 0);
    assert Pending(bs[..3], id) == (if id == "b" then 1 else 0);
  }

  const FIRST := Input(MERGED, 0, 3, [], [])
  const SECOND := Input([Message(User, [RESULT_B])], 2, 3, [], [])

  lemma SavingPlan()
    ensures IsPlan(Rolling(NoSummary, 0), FIRST, 0, false, "s", Plan.Saves(BOTH_FOLDED, [SummaryMessage("s")]))
  {
    assert MERGED[..2] == MERGED && MERGED[2..] == [];
    forall id ensures Pending(Blocks(MERGED), id) == 0 { NothingPending(id); }
    assert IsCut(MERGED, 0, 2);
    assert Build(BOTH_FOLDED, MERGED[2..], FIRST) == [SummaryMessage("s")];
  }

  lemma AnsweringPlan()
    ensures IsPlan(BOTH_FOLDED, SECOND, 0, true, "", Answers([SummaryMessage("s"), Message(User, [RESULT_B])]))
  {
  }

  lemma FoldedBoth()
    ensures "b" in UseIds(Folded(BOTH_FOLDED.summary)) && "b" in ResultIds(Folded(BOTH_FOLDED.summary)) &&
      !Exact(TWICE_ANSWERED, BOTH_FOLDED)
  {
    assert Folded(BOTH_FOLDED.summary) == MERGED;
    assert Blocks(MERGED) == USES.content + Blocks(MERGED[1..]) &&
      Blocks(MERGED[1..]) == MERGED[1].content + Blocks([]);
    assert USES.content[1] in Blocks(MERGED) && RESULT_B in Blocks(MERGED);
    UsesOfMember(Blocks(MERGED), "b");
    ResultsOfMember(Blocks(MERGED), "b");
    assert multiset([RESULT_A, RESULT_B])[RESULT_B] == 1 && multiset([RESULT_A])[RESULT_B] == 0;
    assert !Same(MERGED[1], TWICE_ANSWERED[..2][1]);
  }

  const FOLD := Decide(0, 0, false, "s", true)
  const SHOW := Decide(1, 0, true, "", true)
  const SAVED := Returned(BOTH_FOLDED, [SummaryMessage("s")], FIRST)
  const SHOWN := Returned(BOTH_FOLDED, [SummaryMessage("s"), Message(User, [RESULT_B])], SECOND)
  const Y0 := System(TWICE_ANSWERED, Rolling(NoSummary, 0), 0, map[])
  const Y1 := Y0.(callers := map[0 := Entered(FIRST)])
  const Y2 := Y0.(callers := map[0 := HasState(FIRST, Rolling(NoSummary, 0), 0)])
  const Y3 := System(TWICE_ANSWERED, BOTH_FOLDED, 1, map[0 := SAVED])
  const Y4 := Y3.(callers := map[0 := SAVED, 1 := Entered(SECOND)])
  const Y5 := Y3.(callers := map[0 := SAVED, 1 := HasState(SECOND, BOTH_FOLDED, 1)])
  const Y6 := Y3.(callers := map[0 := SAVED, 1 := SHOWN])

  lemma FirstCall()
    ensures Step(Y0, Enter(0, FIRST), Y1) && Step(Y1, LoadState(0), Y2) && Step(Y2, FOLD, Y3)
  {
    MergedView();
    assert TWICE_ANSWERED[0..3] == TWICE_ANSWERED;
    SavingPlan();
    hide IsPlan, Project;
    assert DecideStep(Y2, 0, 0, false, "s", true, Plan.Saves(BOTH_FOLDED, [SummaryMessage("s")]), Y3);
  }

  lemma SecondEnters()
    ensures Step(Y3, Enter(1, SECOND), Y4) && Step(Y4, LoadState(1), Y5)
  {
    MergedView();
    assert TWICE_ANSWERED[2..3] == TWICE_ANSWERED[2..] == [Message(User, [RESULT_B])];
    hide Project, DecideStep;
  }

  lemma SecondShows()
    ensures Step(Y5, SHOW, Y6)
  {
    AnsweringPlan();
    hide IsPlan, Project;
    assert DecideStep(Y5, 1, 0, true, "", true, Answers(SHOWN.messages), Y6);
  }

  /**
   Two Prepare calls on a batch that was answered by two messages: the first folds both results but records two
   sequence numbers, so the context of the second shows a result again whose use is already summarized.
   */
  lemma MergedAnswerShownTwice() returns (run: seq<System>, events: seq<Event>)
    ensures IsRun(run, events) && run[0].log == TWICE_ANSWERED
    ensures var last := run[|events|];
      last.log == TWICE_ANSWERED && last.state == BOTH_FOLDED && !Exact(last.log, last.state) &&
      "b" in UseIds(Folded(last.state.summary)) && "b" in ResultIds(Folded(last.state.summary)) &&
      1 in last.callers && last.callers[1].Returned? &&
      last.callers[1].messages == [SummaryMessage("s"), Message(User, [RESULT_B])]
  {
    FirstCall();
    SecondEnters();
    SecondShows();
    FoldedBoth();
    hide Step, Exact;
    run := [Y0, Y1, Y2, Y3, Y4, Y5, Y6];
    events := [Enter(0, FIRST), LoadState(0), FOLD, Enter(1, SECOND), LoadState(1), SHOW];
  }
}
