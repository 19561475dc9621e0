/** Role normalization. */
module Normalize {
  import opened Messages

  // A request starts with the user and strictly alternates.

  datatype Strategy = Merge | Fill | Remove

  const CONTINUE := Message(User, [Text("Continue.")])
  const UNDERSTOOD := Message(Assistant, [Text("Understood.")])

  // ---- What normalization promises -----------------------------------------------------------

  predicate Alternates(ms: seq<Message>) {
    forall i | 0 <= i < |ms| - 1 :: ms[i].role != ms[i + 1].role
  }

  predicate Normalized(ms: seq<Message>) {
    Alternates(ms) && (ms != [] ==> ms[0].role.User?)
  }

  /** Every block with the role that said it, in order. */
  function Spoken(ms: seq<Message>): seq<(Role, Block)> {
    if ms == [] then []
    else seq(|ms[0].content|, i requires 0 <= i < |ms[0].content| => (ms[0].role, ms[0].content[i])) + Spoken(ms[1..])
  }

  /** `at` picks the originals out of `out`, in order; everything else is synthetic. */
  ghost predicate Embeds(ms: seq<Message>, out: seq<Message>, at: seq<nat>) {
    |at| == |ms| && (forall i | 0 <= i < |at| :: at[i] < |out| && out[at[i]] == ms[i]) &&
    (forall i, j | 0 <= i < j < |at| :: at[i] < at[j]) &&
    forall k | 0 <= k < |out| && k !in at :: out[k] == CONTINUE || out[k] == UNDERSTOOD
  }

  /** The last message of each run of equal roles. */
  function LastOfRuns(ms: seq<Message>): seq<Message> {
    if |ms| <= 1 then ms
    else (if ms[0].role == ms[1].role then [] else [ms[0]]) + LastOfRuns(ms[1..])
  }

  // ---- The three repairs, message by message --------------------------------------------------

  function Last(ms: seq<Message>): Message
    requires ms != []
  {
    ms[|ms| - 1]
  }

  function Opposite(role: Role): Message { if role.User? then UNDERSTOOD else CONTINUE }

  function Step(strategy: Strategy, out: seq<Message>, m: Message): (out': seq<Message>)
    ensures out' != []
  {
    if out == [] then [m]
    else if m.role != Last(out).role then out + [m]
    else match strategy
      case Merge => out[..|out| - 1] + [Message(m.role, Last(out).content + m.content)]
      case Fill => out + [Opposite(m.role), m]
      case Remove => out[..|out| - 1] + [m]
  }

  function Repair(strategy: Strategy, ms: seq<Message>): seq<Message> {
    if ms == [] then [] else Step(strategy, Repair(strategy, ms[..|ms| - 1]), Last(ms))
  }

  function Opened(ms: seq<Message>): seq<Message> {
    if ms != [] && !ms[0].role.User? then [CONTINUE] + ms else ms
  }

  function NormalizeMessages(strategy: Strategy, ms: seq<Message>): seq<Message> { Repair(strategy, Opened(ms)) }

  // ---- Loops -------------------------------------------------------------------------------------

  lemma RepairNext(strategy: Strategy, ms: seq<Message>, i: nat)
    requires i < |ms|
    ensures Repair(strategy, ms[..i + 1]) == Step(strategy, Repair(strategy, ms[..i]), ms[i])
    ensures i > 0 ==> Repair(strategy, ms[..i]) != []
  {
    assert ms[..i + 1][..i] == ms[..i];
    if i > 0 { assert ms[..i] != []; }
  }

  method NormFill(ms: seq<Message>) returns (result: seq<Message>)
    ensures result == Repair(Fill, ms)
  {
    if |ms| == 0 {
      return ms;
    }
    result := [ms[0]];
    RepairNext(Fill, ms, 0);
    var i := 1;
    while i < |ms|
      invariant 1 <= i <= |ms| && result == Repair(Fill, ms[..i]) && result != []
    {
      RepairNext(Fill, ms, i);
      if ms[i].role == result[|result| - 1].role {
        var synthetic := if ms[i].role.User? then UNDERSTOOD else CONTINUE;
        result := result + [synthetic];
      }
      result := result + [ms[i]];
      i := i + 1;
    }
    assert ms[..i] == ms;
  }

  method NormMerge(ms: seq<Message>) returns (result: seq<Message>)
    ensures result == Repair(Merge, ms)
  {
    if |ms| == 0 {
      return ms;
    }
    result := [ms[0]];
    RepairNext(Merge, ms, 0);
    var i := 1;
    while i < |ms|
      invariant 1 <= i <= |ms| && result == Repair(Merge, ms[..i]) && result != []
    {
      RepairNext(Merge, ms, i);
      var last := result[|result| - 1];
      if ms[i].role == last.role {
        result := result[|result| - 1 := last.(content := last.content + ms[i].content)];
      } else {
        result := result + [ms[i]];
      }
      i := i + 1;
    }
    assert ms[..i] == ms;
  }

  method NormRemove(ms: seq<Message>) returns (result: seq<Message>)
    ensures result == Repair(Remove, ms)
  {
    if |ms| == 0 {
      return ms;
    }
    result := [ms[0]];
    RepairNext(Remove, ms, 0);
    var i := 1;
    while i < |ms|
      invariant 1 <= i <= |ms| && result == Repair(Remove, ms[..i]) && result != []
    {
      RepairNext(Remove, ms, i);
      if ms[i].role == result[|result| - 1].role {
        result := result[|result| - 1 := ms[i]];
      } else {
        result := result + [ms[i]];
      }
      i := i + 1;
    }
    assert ms[..i] == ms;
  }

  method Normalize(ms: seq<Message>, strategy: Strategy) returns (out: seq<Message>)
    ensures out == NormalizeMessages(strategy, ms)
  {
    if |ms| == 0 {
      return [];
    }
    var working: seq<Message> := [];
    if !ms[0].role.User? {
      working := [CONTINUE];
    }
    working := working + ms;
    assert working == Opened(ms);
    match strategy
    case Merge => out := NormMerge(working);
    case Fill => out := NormFill(working);
    case Remove => out := NormRemove(working);
  }

  // ---- Laws --------------------------------------------------------------------------------------------

  lemma {:induction false} StepAlternates(strategy: Strategy, out: seq<Message>, m: Message)
    requires Alternates(out)
    ensures var out' := Step(strategy, out, m);
      Alternates(out') && Last(out').role == m.role && out'[0].role == if out == [] then m.role else out[0].role
  {
  }

  lemma {:induction false} RepairAlternates(strategy: Strategy, ms: seq<Message>)
    ensures Alternates(Repair(strategy, ms))
    ensures ms != [] ==>
      Repair(strategy, ms) != [] && Repair(strategy, ms)[0].role == ms[0].role &&
      Last(Repair(strategy, ms)).role == Last(ms).role
  {
    if ms != [] {
      var front := ms[..|ms| - 1];
      RepairAlternates(strategy, front);
      StepAlternates(strategy, Repair(strategy, front), Last(ms));
      hide Step, Alternates;
      assert front != [] ==> front[0] == ms[0];
    }
  }

  /** For every input and strategy the result starts with the user and strictly alternates. */
  lemma OutputIsNormalized(strategy: Strategy, ms: seq<Message>)
    ensures Normalized(NormalizeMessages(strategy, ms))
    ensures NormalizeMessages(strategy, ms) == [] <==> ms == []
  {
    RepairAlternates(strategy, Opened(ms));
  }

  lemma {:induction false} RepairIdentity(strategy: Strategy, ms: seq<Message>)
    requires Alternates(ms)
    ensures Repair(strategy, ms) == ms
  {
    if ms != [] {
      RepairIdentity(strategy, ms[..|ms| - 1]);
      assert ms == ms[..|ms| - 1] + [Last(ms)];
      if |ms| > 1 {
        assert ms[|ms| - 2].role != ms[|ms| - 2 + 1].role;
      }
    }
  }

  /** Any strategy leaves a normalized list alone, in particular the output of any strategy. */
  lemma NormalizedIsFixed(strategy: Strategy, other: Strategy, ms: seq<Message>)
    ensures Normalized(ms) <==> NormalizeMessages(strategy, ms) == ms
    ensures NormalizeMessages(other, NormalizeMessages(strategy, ms)) == NormalizeMessages(strategy, ms)
  {
    OutputIsNormalized(strategy, ms);
    if Normalized(ms) { RepairIdentity(strategy, ms); }
    RepairIdentity(other, NormalizeMessages(strategy, ms));
  }

  lemma {:induction false} SpokenConcat(a: seq<Message>, b: seq<Message>)
    ensures Spoken(a + b) == Spoken(a) + Spoken(b)
  {
    if a == [] {
      assert a + b == b;
    } else {
      assert (a + b)[1..] == a[1..] + b;
      SpokenConcat(a[1..], b);
    }
  }

  lemma SpokenMerged(role: Role, x: seq<Block>, y: seq<Block>)
    ensures Spoken([Message(role, x + y)]) == Spoken([Message(role, x), Message(role, y)])
  {
    assert Spoken([Message(role, x), Message(role, y)][1..]) == Spoken([Message(role, y)]);
    assert Spoken([Message(role, x + y)][1..]) == [] == Spoken([Message(role, y)][1..]);
  }

  lemma MergeStepBlocks(out: seq<Message>, m: Message)
    ensures Spoken(Step(Merge, out, m)) == Spoken(out) + Spoken([m])
  {
    if out == [] {
    } else if m.role != Last(out).role {
      SpokenConcat(out, [m]);
    } else {
      var keep, last := out[..|out| - 1], Last(out);
      var merged := Message(m.role, last.content + m.content);
      hide Spoken;
      SpokenMerged(m.role, last.content, m.content);
      assert out == keep + [last];
      SpokenConcat(keep, [last]);
      SpokenConcat(keep, [merged]);
      SpokenConcat([last], [m]);
      assert [Message(m.role, last.content), Message(m.role, m.content)] == [last] + [m];
    }
  }

  lemma {:induction false} MergeKeepsBlocks(ms: seq<Message>)
    ensures Spoken(Repair(Merge, ms)) == Spoken(ms)
  {
    if ms != [] {
      var front, m := ms[..|ms| - 1], Last(ms);
      hide Spoken, Step;
      MergeKeepsBlocks(front);
      MergeStepBlocks(Repair(Merge, front), m);
      assert ms == front + [m];
      SpokenConcat(front, [m]);
    }
  }

  /** Merge loses, adds, reorders and re-attributes nothing beyond the synthetic opener. */
  lemma MergePreservesBlocks(ms: seq<Message>)
    ensures Spoken(NormalizeMessages(Merge, ms)) ==
      Spoken(if ms != [] && !ms[0].role.User? then [CONTINUE] else []) + Spoken(ms)
  {
    MergeKeepsBlocks(Opened(ms));
    SpokenConcat([CONTINUE], ms);
  }

  lemma FillStepEmbeds(ms: seq<Message>, out: seq<Message>, at: seq<nat>, m: Message)
    requires Embeds(ms, out, at)
    ensures Embeds(ms + [m], Step(Fill, out, m), at + [|Step(Fill, out, m)| - 1])
  {
    var out' := Step(Fill, out, m);
    var at' := at + [|out'| - 1];
    assert forall i | 0 <= i < |at| :: at'[i] == at[i] && out'[at[i]] == out[at[i]];
    assert at'[|at|] == |out'| - 1;
    assert forall k | 0 <= k < |out'| && k !in at' :: k !in at;
  }

  lemma {:induction false} RepairFillEmbeds(ms: seq<Message>) returns (at: seq<nat>)
    ensures Embeds(ms, Repair(Fill, ms), at)
    ensures ms != [] ==> at != []
  {
    at := [];
    if ms == [] {
      assert Repair(Fill, ms) == [];
    } else {
      var front, m := ms[..|ms| - 1], Last(ms);
      assert ms == front + [m] && Repair(Fill, ms) == Step(Fill, Repair(Fill, front), m);
      hide *;
      var before := RepairFillEmbeds(front);
      FillStepEmbeds(front, Repair(Fill, front), before, m);
      at := before + [|Repair(Fill, ms)| - 1];
    }
  }

  /** Fill keeps every original, in order; what it inserts is synthetic. */
  lemma FillKeepsOriginals(ms: seq<Message>) returns (at: seq<nat>)
    ensures Embeds(ms, NormalizeMessages(Fill, ms), at)
  {
    var all := RepairFillEmbeds(Opened(ms));
    if Opened(ms) == ms {
      at := all;
    } else {
      var out := NormalizeMessages(Fill, ms);
      at := all[1..];
      forall k | 0 <= k < |out| && k !in at ensures out[k] == CONTINUE || out[k] == UNDERSTOOD {
        if k in all { assert k == all[0]; }
      }
    }
  }

  function FirstKept(a: Message, b: Message): seq<Message> { if a.role == b.role then [] else [a] }

  lemma {:induction false} LastOfRunsStep(ms: seq<Message>)
    requires |ms| > 1
    ensures LastOfRuns(ms) == FirstKept(ms[0], ms[1]) + LastOfRuns(ms[1..])
  {
  }

  lemma {:induction false} ReplaceLast(pre: seq<Message>, xs: seq<Message>, m: Message)
    requires xs != []
    ensures (pre + xs)[..|pre + xs| - 1] + [m] == pre + (xs[..|xs| - 1] + [m])
    ensures (pre + xs) + [m] == pre + (xs + [m]) && (pre + xs)[|pre + xs| - 1] == xs[|xs| - 1]
  {
  }

  lemma {:induction false} LastOfRunsSnoc(ms: seq<Message>, m: Message)
    requires ms != []
    ensures LastOfRuns(ms) != [] && Last(LastOfRuns(ms)) == Last(ms)
    ensures LastOfRuns(ms + [m]) ==
      if m.role == Last(ms).role then LastOfRuns(ms)[..|LastOfRuns(ms)| - 1] + [m] else LastOfRuns(ms) + [m]
  {
    if |ms| == 1 {
      assert ms == [ms[0]] && ms + [m] == [ms[0], m] && [ms[0], m][1..] == [m];
      LastOfRunsStep([ms[0], m]);
      assert LastOfRuns([m]) == [m] && LastOfRuns(ms) == ms && ms[..0] + [m] == [m];
    } else {
      var pre, tail := FirstKept(ms[0], ms[1]), ms[1..];
      LastOfRunsSnoc(tail, m);
      hide LastOfRuns, FirstKept;
      LastOfRunsStep(ms);
      assert (ms + [m])[1..] == tail + [m] && (ms + [m])[0] == ms[0] && (ms + [m])[1] == ms[1];
      LastOfRunsStep(ms + [m]);
      ReplaceLast(pre, LastOfRuns(tail), m);
    }
  }

  lemma {:induction false} RemoveIsLastOfRuns(ms: seq<Message>)
    ensures Repair(Remove, ms) == LastOfRuns(ms)
  {
    if |ms| == 1 {
      assert ms[..0] == [];
      assert Repair(Remove, ms) == Step(Remove, [], ms[0]);
    } else if ms != [] {
      var front := ms[..|ms| - 1];
      RemoveIsLastOfRuns(front);
      LastOfRunsSnoc(front, Last(ms));
      assert ms == front + [Last(ms)];
    }
  }

  /** Remove keeps exactly the last message of each run (after the synthetic opener). */
  lemma RemoveKeepsLastOfRuns(ms: seq<Message>)
    ensures NormalizeMessages(Remove, ms) == LastOfRuns(Opened(ms))
  {
    RemoveIsLastOfRuns(Opened(ms));
  }
}
