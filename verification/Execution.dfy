/** Execution records. */
module Execution {
  import opened Messages

  // The durable record and the identity of a tool call inside it.

  datatype CallStatus = Planned | Ready | InFlight | Completed

  datatype Decision = Decision(allow: bool, reason: string)

  datatype ToolCall = ToolCall(
    callId: string, name: string, status: CallStatus, key: string, inputHash: string,
    input: Option<string>, replaySafe: bool, approval: Option<Decision>)

  datatype ResolutionOutcome = Succeeded | Failed | Retry

  /** A manual success or failure that owns the call until its result is canonical. */
  datatype Claim = Claim(callId: string, outcome: ResolutionOutcome, output: string, errorMessage: string)

  datatype Batch = Batch(calls: seq<ToolCall>, useRevision: nat, useLastSequence: nat, resolution: Option<Claim>)

  datatype Pause = ApprovalPause(calls: seq<string>) | HumanPause

  datatype Status = StatusRunning | StatusPaused | StatusCompleted | StatusFailed | StatusCanceled

  datatype Phase = PhaseModel | PhaseTools | PhasePaused | PhaseDone

  datatype Record = Record(
    id: string, revision: nat, lastSequence: nat, status: Status, phase: Phase,
    pause: Option<Pause>, pendingPause: Option<Pause>, batch: Option<Batch>, version: nat)

  // ---- Idempotency keys -------------------------------------------------

  function Digit(d: nat): char
    requires d < 10
  {
    '0' + d as char
  }

  function Decimal(n: nat): string {
    if n < 10 then [Digit(n)] else Decimal(n / 10) + [Digit(n % 10)]
  }

  /** The number that a string of digits stands for. */
  function Value(s: string): int { if s == "" then 0 else 10 * Value(s[..|s| - 1]) + (s[|s| - 1] as int - '0' as int) }

  /** Decimal is the usual notation: digits only, no leading zero, and it reads back as the number. */
  lemma {:induction false} DecimalReadsBack(n: nat)
    ensures Value(Decimal(n)) == n && Decimal(n) != "" && (forall c | c in Decimal(n) :: '0' <= c <= '9')
    ensures n > 0 ==> Decimal(n)[0] != '0'
  {
    if n >= 10 {
      DecimalReadsBack(n / 10);
      assert Decimal(n)[..|Decimal(n)| - 1] == Decimal(n / 10);
    } else {
      assert Decimal(n)[..0] == "";
    }
  }

  /** The length-delimited text that is hashed into an idempotency key. */
  function KeyPreimage(executionId: string, callId: string): string {
    Decimal(|executionId|) + ":" + executionId + Decimal(|callId|) + ":" + callId
  }

  function ToolExecutionKey(digest: string -> string, executionId: string, callId: string): string {
    "gude/tool/v1/" + digest(KeyPreimage(executionId, callId))
  }

  lemma {:induction false} DecimalHasNoColon(n: nat)
    ensures ':' !in Decimal(n)
  {
    if n >= 10 {
      DecimalHasNoColon(n / 10);
    }
  }

  lemma {:induction false} DecimalInjective(m: nat, n: nat)
    requires Decimal(m) == Decimal(n)
    ensures m == n
  {
    var a, b := Decimal(m), Decimal(n);
    DecimalNonEmpty(m / 10);
    DecimalNonEmpty(n / 10);
    assert Digit(m % 10) == a[|a| - 1] == b[|b| - 1] == Digit(n % 10);
    if m >= 10 && n >= 10 {
      assert Decimal(m / 10) == a[..|a| - 1] == b[..|b| - 1] == Decimal(n / 10);
      DecimalInjective(m / 10, n / 10);
    }
  }

  lemma DecimalNonEmpty(n: nat)
    ensures |Decimal(n)| > 0
  {
  }

  /** Text before the first colon is determined by the whole. */
  lemma {:induction false} SplitAtColon(a: string, x: string, b: string, y: string)
    requires ':' !in a && ':' !in b
    requires a + ":" + x == b + ":" + y
    ensures a == b && x == y
  {
    var s := a + ":" + x;
    assert s[|a|] == ':' && s[|b|] == ':';
    assert a == s[..|a|] == b;
    assert x == s[|a| + 1..] == y;
  }

  lemma PreimageParts(e: string, c: string)
    ensures KeyPreimage(e, c) == Decimal(|e|) + ":" + (e + (Decimal(|c|) + ":" + c))
  {
  }

  lemma PrefixCut(a: string, x: string, b: string, y: string)
    requires |a| == |b| && a + x == b + y
    ensures a == b && x == y
  {
    assert a == (a + x)[..|a|] && b == (b + y)[..|a|];
    assert x == (a + x)[|a|..] && y == (b + y)[|a|..];
  }

  /** The preimage of a key names exactly one (execution, call) pair, for all strings. */
  lemma KeyPreimageInjective(e1: string, c1: string, e2: string, c2: string)
    requires KeyPreimage(e1, c1) == KeyPreimage(e2, c2)
    ensures e1 == e2 && c1 == c2
  {
    hide *;
    PreimageParts(e1, c1);
    PreimageParts(e2, c2);
    DecimalHasNoColon(|e1|);
    DecimalHasNoColon(|e2|);
    var x, y := Decimal(|c1|) + ":" + c1, Decimal(|c2|) + ":" + c2;
    SplitAtColon(Decimal(|e1|), e1 + x, Decimal(|e2|), e2 + y);
    DecimalInjective(|e1|, |e2|);
    PrefixCut(e1, x, e2, y);
    DecimalHasNoColon(|c1|);
    DecimalHasNoColon(|c2|);
    SplitAtColon(Decimal(|c1|), c1, Decimal(|c2|), c2);
  }

  ghost predicate Injective(digest: string -> string) { forall a, b :: digest(a) == digest(b) ==> a == b }

  /** Under a digest without collisions a key belongs to one call of one execution. */
  lemma KeyNamesOneCall(digest: string -> string, e1: string, c1: string, e2: string, c2: string)
    requires Injective(digest) && ToolExecutionKey(digest, e1, c1) == ToolExecutionKey(digest, e2, c2)
    ensures e1 == e2 && c1 == c2
  {
    hide KeyPreimage;
    var p, q := KeyPreimage(e1, c1), KeyPreimage(e2, c2);
    PrefixCut("gude/tool/v1/", digest(p), "gude/tool/v1/", digest(q));
    KeyPreimageInjective(e1, c1, e2, c2);
  }
}
