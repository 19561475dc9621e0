/** The model-facing transcript. */
module TurnMessages {
  import opened Messages
  import opened ToolBatch

  // Tool results are regrouped behind the tool uses they answer.

  // ---- The projection ----------------------------------------------------------------------------

  /** First occurrences, in order. */
  function Dedup(ids: seq<string>): seq<string> {
    if ids == [] then []
    else
      var front, last := ids[..|ids| - 1], ids[|ids| - 1];
      if last in front then Dedup(front) else Dedup(front) + [last]
  }

  /** Length of the leading run of result messages. */
  function RunLength(ms: seq<Message>): (n: nat)
    ensures n <= |ms|
  {
    if ms != [] && ResultMessage(ms[0]) then 1 + RunLength(ms[1..]) else 0
  }

  function WithId(blocks: seq<Block>, id: string): seq<Block> {
    if blocks == [] then []
    else (if blocks[0].ToolResult? && blocks[0].id == id then [blocks[0]] else []) + WithId(blocks[1..], id)
  }

  function Unknown(blocks: seq<Block>, known: seq<string>): seq<Block> {
    if blocks == [] then []
    else (if blocks[0].ToolResult? && blocks[0].id in known then [] else [blocks[0]]) + Unknown(blocks[1..], known)
  }

  function Grouped(order: seq<string>, blocks: seq<Block>): seq<Block> {
    if order == [] then [] else WithId(blocks, order[0]) + Grouped(order[1..], blocks)
  }

  /** Known results in the order of their uses, then the rest as they came. */
  function Regroup(order: seq<string>, blocks: seq<Block>): seq<Block> {
    Grouped(order, blocks) + Unknown(blocks, order)
  }

  function Order(m: Message): seq<string> { if m.role.Assistant? then Dedup(UsesOf(m.content)) else [] }

  /** Messages consumed by one step of the projection: a lone message, or a batch with its run of results. */
  function Skip(ms: seq<Message>): (k: nat)
    requires ms != []
    ensures 1 <= k <= |ms|
  {
    if Order(ms[0]) == [] then 1 else 1 + RunLength(ms[1..])
  }

  /** What one step of the projection emits. */
  function Head(ms: seq<Message>): seq<Message>
    requires ms != []
  {
    if Skip(ms) == 1 then [ms[0]] else [ms[0], Message(User, Regroup(Order(ms[0]), Blocks(ms[1..Skip(ms)])))]
  }

  function Project(ms: seq<Message>): seq<Message>
    decreases |ms|
  {
    if ms == [] then [] else Head(ms) + Project(ms[Skip(ms)..])
  }

  // ---- Nothing is lost, added or moved out of a message's place ---------------------------------------

  lemma {:induction false} DedupMembers(ids: seq<string>)
    ensures NoDuplicates(Dedup(ids)) && forall id :: id in Dedup(ids) <==> id in ids
  {
    if ids != [] {
      var front, last := ids[..|ids| - 1], ids[|ids| - 1];
      DedupMembers(front);
      assert ids == front + [last];
      assert forall id :: id in ids <==> id in front || id == last;
    }
  }

  lemma {:induction false} WithIdMembers(blocks: seq<Block>, id: string)
    ensures forall x :: x in WithId(blocks, id) <==> x in blocks && x.ToolResult? && x.id == id
  {
    if blocks != [] {
      WithIdMembers(blocks[1..], id);
      assert forall x :: x in blocks <==> x == blocks[0] || x in blocks[1..];
    }
  }

  lemma {:induction false} UnknownMembers(blocks: seq<Block>, known: seq<string>)
    ensures forall x :: x in Unknown(blocks, known) <==> x in blocks && !(x.ToolResult? && x.id in known)
  {
    if blocks != [] {
      UnknownMembers(blocks[1..], known);
      assert forall x :: x in blocks <==> x == blocks[0] || x in blocks[1..];
    }
  }

  lemma {:induction false} ConsUnfold(x: Block, tail: seq<Block>, id: string, known: seq<string>)
    ensures WithId([x] + tail, id) == (if x.ToolResult? && x.id == id then [x] else []) + WithId(tail, id)
    ensures Unknown([x] + tail, known) == (if x.ToolResult? && x.id in known then [] else [x]) + Unknown(tail, known)
  {
    assert ([x] + tail)[1..] == tail;
  }

  /** Taking one ID out of the unknown results leaves the unknown results of the longer list. */
  lemma {:induction false} SplitKnown(blocks: seq<Block>, id: string, rest: seq<string>)
    requires id !in rest
    ensures multiset(Unknown(blocks, rest)) == multiset(WithId(blocks, id)) + multiset(Unknown(blocks, [id] + rest))
  {
    if blocks != [] {
      var x, tail := blocks[0], blocks[1..];
      assert blocks == [x] + tail;
      SplitKnown(tail, id, rest);
      hide WithId, Unknown;
      ConsUnfold(x, tail, id, rest);
      ConsUnfold(x, tail, id, [id] + rest);
      assert x.ToolResult? ==> (x.id in [id] + rest <==> x.id == id || x.id in rest);
    }
  }

  lemma {:induction false} NothingKnown(blocks: seq<Block>)
    ensures Unknown(blocks, []) == blocks
  {
    if blocks != [] {
      NothingKnown(blocks[1..]);
    }
  }

  lemma {:induction false} RegroupParts(order: seq<string>, blocks: seq<Block>)
    ensures Regroup(order, blocks) == Grouped(order, blocks) + Unknown(blocks, order)
  {
  }

  lemma {:induction false} RegroupKeepsBlocks(order: seq<string>, blocks: seq<Block>)
    requires NoDuplicates(order)
    ensures multiset(Regroup(order, blocks)) == multiset(blocks)
  {
    if order == [] {
      NothingKnown(blocks);
      assert Regroup(order, blocks) == blocks;
    } else {
      var id, rest := order[0], order[1..];
      assert NoDuplicates(rest) && id !in rest && order == [id] + rest;
      assert Grouped(order, blocks) == WithId(blocks, id) + Grouped(rest, blocks);
      hide *;
      RegroupKeepsBlocks(rest, blocks);
      SplitKnown(blocks, id, rest);
      RegroupParts(order, blocks);
      RegroupParts(rest, blocks);
    }
  }

  lemma {:induction false} OrderDistinct(m: Message)
    ensures NoDuplicates(Order(m)) && forall id :: id in Order(m) <==> m.role.Assistant? && id in UsesOf(m.content)
  {
    DedupMembers(UsesOf(m.content));
  }

  lemma {:induction false} HeadKeepsBlocks(ms: seq<Message>)
    requires ms != []
    ensures multiset(Blocks(Head(ms))) == multiset(Blocks(ms[..Skip(ms)]))
  {
    var k := Skip(ms);
    var run := ms[1..k];
    assert ms[..k] == [ms[0]] + run;
    BlocksConcat([ms[0]], run);
    OneMessage(ms[0]);
    if k == 1 {
      assert run == [];
    } else {
      var grouped := Message(User, Regroup(Order(ms[0]), Blocks(run)));
      OrderDistinct(ms[0]);
      RegroupKeepsBlocks(Order(ms[0]), Blocks(run));
      hide *;
      HeadOf(ms);
      BlocksConcat([ms[0]], [grouped]);
      OneMessage(grouped);
    }
  }

  lemma {:induction false} HeadOf(ms: seq<Message>)
    requires ms != [] && Skip(ms) > 1
    ensures Head(ms) == [ms[0]] + [Message(User, Regroup(Order(ms[0]), Blocks(ms[1..Skip(ms)])))]
  {
  }

  lemma {:induction false} OneMessage(m: Message)
    ensures Blocks([m]) == m.content
  {
    assert Blocks([m]) == m.content + Blocks([]);
  }

  lemma {:induction false} BlocksSplit(ms: seq<Message>, k: nat)
    requires k <= |ms|
    ensures Blocks(ms) == Blocks(ms[..k]) + Blocks(ms[k..])
  {
    assert ms == ms[..k] + ms[k..];
    BlocksConcat(ms[..k], ms[k..]);
  }

  lemma {:induction false} ProjectStep(ms: seq<Message>)
    requires ms != []
    ensures Project(ms) == Head(ms) + Project(ms[Skip(ms)..])
  {
  }

  lemma {:induction false} Associative<T>(a: seq<T>, b: seq<T>, c: seq<T>)
    ensures a + (b + c) == (a + b) + c
  {
  }

  /** The projection keeps the multiset of blocks. */
  lemma {:induction false} ProjectKeepsBlocks(ms: seq<Message>)
    ensures multiset(Blocks(Project(ms))) == multiset(Blocks(ms))
    decreases |ms|
  {
    if ms != [] {
      var k := Skip(ms);
      hide *;
      HeadKeepsBlocks(ms);
      ProjectKeepsBlocks(ms[k..]);
      ProjectStep(ms);
      BlocksConcat(Head(ms), Project(ms[k..]));
      BlocksSplit(ms, k);
    }
  }

  // ---- Concatenation ---------------------------------------------------------------------------------------

  lemma {:induction false} RunLengthConcat(a: seq<Message>, b: seq<Message>)
    requires b == [] || !ResultMessage(b[0])
    ensures RunLength(a + b) == RunLength(a)
  {
    if a == [] {
      assert a + b == b;
    } else {
      assert (a + b)[1..] == a[1..] + b;
      RunLengthConcat(a[1..], b);
    }
  }

  lemma {:induction false} HeadConcat(a: seq<Message>, b: seq<Message>)
    requires a != [] && (b == [] || !ResultMessage(b[0]))
    ensures Skip(a + b) == Skip(a) && Head(a + b) == Head(a)
  {
    assert (a + b)[0] == a[0] && (a + b)[1..] == a[1..] + b;
    RunLengthConcat(a[1..], b);
    assert (a + b)[1..Skip(a)] == a[1..Skip(a)];
  }

  /** The projection of a concatenation, unless the second part begins with results of the first. */
  lemma {:induction false} ProjectConcat(a: seq<Message>, b: seq<Message>)
    requires b == [] || !ResultMessage(b[0])
    ensures Project(a + b) == Project(a) + Project(b)
    decreases |a|
  {
    if a == [] {
      assert a + b == b;
    } else {
      var k := Skip(a);
      hide *;
      HeadConcat(a, b);
      assert (a + b)[k..] == a[k..] + b;
      ProjectConcat(a[k..], b);
      ProjectStep(a);
      ProjectStep(a + b);
      Associative(Head(a), Project(a[k..]), Project(b));
    }
  }

  // ---- Idempotence --------------------------------------------------------------------------------------------

  lemma {:induction false} WithIdConcat(a: seq<Block>, b: seq<Block>, id: string)
    ensures WithId(a + b, id) == WithId(a, id) + WithId(b, id)
  {
    if a == [] {
      assert a + b == b && [] + WithId(b, id) == WithId(b, id);
    } else {
      var x, tail := a[0], a[1..];
      assert a == [x] + tail && a + b == [x] + (tail + b);
      hide WithId, Unknown;
      WithIdConcat(tail, b, id);
      ConsUnfold(x, tail, id, []);
      ConsUnfold(x, tail + b, id, []);
      Associative(if x.ToolResult? && x.id == id then [x] else [], WithId(tail, id), WithId(b, id));
    }
  }

  lemma {:induction false} UnknownConcat(a: seq<Block>, b: seq<Block>, known: seq<string>)
    ensures Unknown(a + b, known) == Unknown(a, known) + Unknown(b, known)
  {
    if a == [] {
      assert a + b == b && [] + Unknown(b, known) == Unknown(b, known);
    } else {
      var x, tail := a[0], a[1..];
      assert a == [x] + tail && a + b == [x] + (tail + b);
      hide WithId, Unknown;
      UnknownConcat(tail, b, known);
      ConsUnfold(x, tail, "", known);
      ConsUnfold(x, tail + b, "", known);
      Associative(if x.ToolResult? && x.id in known then [] else [x], Unknown(tail, known), Unknown(b, known));
    }
  }

  lemma {:induction false} WithIdAll(blocks: seq<Block>, id: string)
    requires forall x | x in blocks :: x.ToolResult? && x.id == id
    ensures WithId(blocks, id) == blocks
  {
    if blocks != [] {
      assert blocks[0] in blocks;
      WithIdAll(blocks[1..], id);
    }
  }

  lemma {:induction false} WithIdNone(blocks: seq<Block>, id: string)
    requires forall x | x in blocks :: !(x.ToolResult? && x.id == id)
    ensures WithId(blocks, id) == []
  {
    if blocks != [] {
      assert blocks[0] in blocks;
      WithIdNone(blocks[1..], id);
    }
  }

  lemma {:induction false} UnknownAll(blocks: seq<Block>, known: seq<string>)
    requires forall x | x in blocks :: !(x.ToolResult? && x.id in known)
    ensures Unknown(blocks, known) == blocks
  {
    if blocks != [] {
      assert blocks[0] in blocks;
      UnknownAll(blocks[1..], known);
    }
  }

  lemma {:induction false} UnknownNone(blocks: seq<Block>, known: seq<string>)
    requires forall x | x in blocks :: x.ToolResult? && x.id in known
    ensures Unknown(blocks, known) == []
  {
    if blocks != [] {
      assert blocks[0] in blocks;
      UnknownNone(blocks[1..], known);
    }
  }

  lemma {:induction false} GroupedMembers(order: seq<string>, blocks: seq<Block>)
    ensures forall x :: x in Grouped(order, blocks) <==> x in blocks && x.ToolResult? && x.id in order
  {
    if order != [] {
      GroupedMembers(order[1..], blocks);
      WithIdMembers(blocks, order[0]);
      assert forall id :: id in order <==> id == order[0] || id in order[1..];
    }
  }

  lemma {:induction false} RegroupMembers(order: seq<string>, blocks: seq<Block>)
    ensures forall x :: x in Regroup(order, blocks) <==> x in blocks
  {
    GroupedMembers(order, blocks);
    UnknownMembers(blocks, order);
  }

  lemma {:induction false} WithIdGrouped(order: seq<string>, blocks: seq<Block>, id: string)
    requires NoDuplicates(order)
    ensures WithId(Grouped(order, blocks), id) == if id in order then WithId(blocks, id) else []
  {
    if order != [] {
      var first, rest := order[0], order[1..];
      WithIdGrouped(rest, blocks, id);
      WithIdConcat(WithId(blocks, first), Grouped(rest, blocks), id);
      WithIdMembers(blocks, first);
      if id == first {
        assert id !in rest;
        WithIdAll(WithId(blocks, first), id);
      } else {
        WithIdNone(WithId(blocks, first), id);
        assert id in order <==> id in rest;
      }
    }
  }

  /** Regrouping does not change the sequence of results of any known call. */
  lemma {:induction false} RegroupKeepsEach(order: seq<string>, blocks: seq<Block>, id: string)
    requires NoDuplicates(order) && id in order
    ensures WithId(Regroup(order, blocks), id) == WithId(blocks, id)
  {
    WithIdConcat(Grouped(order, blocks), Unknown(blocks, order), id);
    WithIdGrouped(order, blocks, id);
    UnknownMembers(blocks, order);
    WithIdNone(Unknown(blocks, order), id);
  }

  lemma {:induction false} GroupedAgree(order: seq<string>, a: seq<Block>, b: seq<Block>)
    requires forall id | id in order :: WithId(a, id) == WithId(b, id)
    ensures Grouped(order, a) == Grouped(order, b)
  {
    if order != [] {
      assert order[0] in order;
      GroupedAgree(order[1..], a, b);
    }
  }

  lemma {:induction false} RegroupIdempotent(order: seq<string>, blocks: seq<Block>)
    requires NoDuplicates(order)
    ensures Regroup(order, Regroup(order, blocks)) == Regroup(order, blocks)
  {
    var once := Regroup(order, blocks);
    forall id | id in order ensures WithId(once, id) == WithId(blocks, id) { RegroupKeepsEach(order, blocks, id); }
    GroupedAgree(order, once, blocks);
    UnknownAgain(order, blocks);
  }

  lemma {:induction false} UnknownAgain(order: seq<string>, blocks: seq<Block>)
    ensures Unknown(Regroup(order, blocks), order) == Unknown(blocks, order)
  {
    var known, unknown := Grouped(order, blocks), Unknown(blocks, order);
    GroupedMembers(order, blocks);
    UnknownMembers(blocks, order);
    UnknownNone(known, order);
    UnknownAll(unknown, order);
    hide *;
    UnknownConcat(known, unknown, order);
    RegroupParts(order, blocks);
    assert [] + unknown == unknown;
  }

  lemma {:induction false} RunShape(ms: seq<Message>)
    ensures forall i | 0 <= i < RunLength(ms) :: ResultMessage(ms[i])
    ensures RunLength(ms) < |ms| ==> !ResultMessage(ms[RunLength(ms)])
  {
    if ms != [] && ResultMessage(ms[0]) {
      RunShape(ms[1..]);
      forall i | 0 <= i < RunLength(ms) ensures ResultMessage(ms[i]) {
        if i > 0 { assert ms[i] == ms[1..][i - 1]; }
      }
    }
  }

  lemma {:induction false} RunBlocks(ms: seq<Message>)
    requires ms != [] && forall m | m in ms :: ResultMessage(m)
    ensures Blocks(ms) != [] && forall x | x in Blocks(ms) :: x.ToolResult?
  {
    if |ms| > 1 {
      RunBlocks(ms[1..]);
    } else {
      assert ms[1..] == [];
    }
    assert ms[0] in ms;
    assert ms[0].content[0] in ms[0].content;
  }

  /** The regrouped run is again one result message. */
  lemma {:induction false} RegroupedIsResult(order: seq<string>, run: seq<Message>)
    requires run != [] && forall m | m in run :: ResultMessage(m)
    ensures ResultMessage(Message(User, Regroup(order, Blocks(run))))
  {
    RunBlocks(run);
    RegroupMembers(order, Blocks(run));
    assert Blocks(run)[0] in Regroup(order, Blocks(run));
  }

  /** The projection begins with the first message of its input. */
  lemma {:induction false} ProjectHead(ms: seq<Message>)
    ensures Project(ms) == [] <==> ms == []
    ensures ms != [] ==> Project(ms)[0] == ms[0]
  {
  }

  lemma {:induction false} RunIsResults(ms: seq<Message>, m: Message)
    requires m in ms[..RunLength(ms)]
    ensures ResultMessage(m)
  {
    RunShape(ms);
  }

  /** After one step the remaining messages do not begin with results of that step. */
  lemma {:induction false} AfterSkip(ms: seq<Message>)
    requires ms != [] && Order(ms[0]) != []
    ensures var rest := ms[Skip(ms)..]; rest == [] || !ResultMessage(rest[0])
  {
    RunShape(ms[1..]);
  }

  lemma {:induction false} HeadIsFixed(ms: seq<Message>, rest: seq<Message>)
    requires ms != [] && (Order(ms[0]) != [] ==> rest == [] || !ResultMessage(rest[0]))
    ensures Skip(Head(ms) + rest) == |Head(ms)| && Head(Head(ms) + rest) == Head(ms)
  {
    var k, out := Skip(ms), Head(ms) + rest;
    assert out[0] == ms[0];
    if k == 1 {
      assert out[1..] == rest;
      assert Order(ms[0]) != [] ==> RunLength(rest) == 0;
    } else {
      var run := ms[1..k];
      forall m | m in run ensures ResultMessage(m) {
        assert run == ms[1..][..RunLength(ms[1..])];
        RunIsResults(ms[1..], m);
      }
      RegroupedFixed(ms[0], run, rest);
      HeadOf(ms);
    }
  }

  /** A batch followed by exactly one result message is one step of the projection. */
  lemma {:induction false} OneAnswer(use: Message, answer: Message, rest: seq<Message>)
    requires Order(use) != [] && ResultMessage(answer) && (rest == [] || !ResultMessage(rest[0]))
    ensures var ms := [use] + [answer] + rest;
      Skip(ms) == 2 && Head(ms) == [use] + [Message(User, Regroup(Order(use), answer.content))]
  {
    var run := [answer];
    hide Order, Regroup, ResultMessage, Blocks;
    AnsweredHead(use, run, rest);
    OneMessage(answer);
  }

  lemma {:induction false} RegroupedFixed(use: Message, run: seq<Message>, rest: seq<Message>)
    requires Order(use) != [] && run != [] && (forall m | m in run :: ResultMessage(m)) &&
      (rest == [] || !ResultMessage(rest[0]))
    ensures var head := [use] + [Message(User, Regroup(Order(use), Blocks(run)))];
      Skip(head + rest) == 2 && Head(head + rest) == head
  {
    var grouped := Message(User, Regroup(Order(use), Blocks(run)));
    RegroupedIsResult(Order(use), run);
    OrderDistinct(use);
    hide *;
    RegroupIdempotent(Order(use), Blocks(run));
    OneAnswer(use, grouped, rest);
  }

  /** Projecting twice is projecting once. */
  lemma {:induction false} ProjectIdempotent(ms: seq<Message>)
    ensures Project(Project(ms)) == Project(ms)
    decreases |ms|
  {
    if ms != [] {
      var rest := ms[Skip(ms)..];
      ProjectIdempotent(rest);
      ProjectHead(rest);
      if Order(ms[0]) != [] { AfterSkip(ms); }
      hide Skip, Head, ResultMessage, Order;
      HeadIsFixed(ms, Project(rest));
      assert (Head(ms) + Project(rest))[|Head(ms)|..] == Project(rest);
    }
  }

  // ---- Insensitivity to order and splitting ----------------------------------------------------------------------

  lemma {:induction false} SingleResult(blocks: seq<Block>, x: Block)
    requires x in blocks && x.ToolResult? && NoDuplicates(ResultsOf(blocks)) && forall y | y in blocks :: y.ToolResult?
    ensures WithId(blocks, x.id) == [x]
  {
    var first, rest := blocks[0], blocks[1..];
    assert first in blocks;
    assert ResultsOf(blocks) == [first.id] + ResultsOf(rest);
    assert NoDuplicates(ResultsOf(rest)) by {
      forall i, j | 0 <= i < j < |ResultsOf(rest)| ensures ResultsOf(rest)[i] != ResultsOf(rest)[j] {
        assert ResultsOf(blocks)[i + 1] == ResultsOf(rest)[i] && ResultsOf(blocks)[j + 1] == ResultsOf(rest)[j];
      }
    }
    if x == first {
      forall y | y in rest ensures y.id != x.id {
        ResultsOfMember(rest, y.id);
        assert y in blocks;
        assert y.id in ResultsOf(rest);
        var k :| 0 <= k < |ResultsOf(rest)| && ResultsOf(rest)[k] == y.id;
        assert ResultsOf(blocks)[k + 1] == y.id && ResultsOf(blocks)[0] == first.id;
      }
      WithIdNone(rest, x.id);
    } else {
      ResultsOfMember(rest, x.id);
      var k :| 0 <= k < |ResultsOf(rest)| && ResultsOf(rest)[k] == x.id;
      assert ResultsOf(blocks)[k + 1] == x.id && ResultsOf(blocks)[0] == first.id;
      SingleResult(rest, x);
    }
  }

  lemma {:induction false} SameEach(a: seq<Block>, b: seq<Block>, id: string)
    requires multiset(a) == multiset(b) && NoDuplicates(ResultsOf(a)) && NoDuplicates(ResultsOf(b)) &&
      forall x | x in a :: x.ToolResult?
    ensures WithId(a, id) == WithId(b, id)
  {
    assert forall x :: x in a <==> x in multiset(a);
    assert forall x :: x in b <==> x in multiset(b);
    if exists x | x in a :: x.id == id {
      var x :| x in a && x.id == id;
      assert x in b;
      SingleResult(a, x);
      SingleResult(b, x);
    } else {
      WithIdNone(a, id);
      WithIdNone(b, id);
    }
  }

  ghost predicate AnswerRun(order: seq<string>, run: seq<Message>) {
    run != [] && (forall m | m in run :: ResultMessage(m)) && NoDuplicates(ResultIds(run)) &&
    forall id | id in ResultIds(run) :: id in order
  }

  lemma {:induction false} RunLengthExact(run: seq<Message>, rest: seq<Message>)
    requires (forall m | m in run :: ResultMessage(m)) && (rest == [] || !ResultMessage(rest[0]))
    ensures RunLength(run + rest) == |run|
  {
    if run == [] {
      assert run + rest == rest;
    } else {
      assert run[0] in run;
      assert (run + rest)[1..] == run[1..] + rest;
      RunLengthExact(run[1..], rest);
    }
  }

  lemma {:induction false} AnsweredHead(use: Message, run: seq<Message>, rest: seq<Message>)
    requires Order(use) != [] && run != [] && (forall m | m in run :: ResultMessage(m)) &&
      (rest == [] || !ResultMessage(rest[0]))
    ensures var ms := [use] + run + rest;
      Skip(ms) == 1 + |run| && ms[Skip(ms)..] == rest &&
      Head(ms) == [use] + [Message(User, Regroup(Order(use), Blocks(run)))]
  {
    var ms := [use] + run + rest;
    assert ms[0] == use && ms[1..] == run + rest;
    RunLengthExact(run, rest);
    assert ms[1..1 + |run|] == run && ms[1 + |run|..] == rest;
    hide RunLength, ResultMessage, Order, Blocks, Regroup;
  }

  lemma {:induction false} ProjectAnswered(use: Message, run: seq<Message>, rest: seq<Message>)
    requires Order(use) != [] && AnswerRun(Order(use), run) && (rest == [] || !ResultMessage(rest[0]))
    ensures Project([use] + run + rest) == [use] + [Message(User, Grouped(Order(use), Blocks(run)))] + Project(rest)
  {
    AnsweredHead(use, run, rest);
    AllKnown(use, run);
    hide *;
    ProjectStep([use] + run + rest);
    RegroupParts(Order(use), Blocks(run));
    assert Grouped(Order(use), Blocks(run)) + [] == Grouped(Order(use), Blocks(run));
  }

  lemma {:induction false} AllKnown(use: Message, run: seq<Message>)
    requires AnswerRun(Order(use), run)
    ensures Unknown(Blocks(run), Order(use)) == []
  {
    RunBlocks(run);
    forall x | x in Blocks(run) ensures x.id in Order(use) { ResultsOfMember(Blocks(run), x.id); }
    UnknownNone(Blocks(run), Order(use));
  }

  /**
   For distinct known call IDs the projection depends only on which results there are, not on their order nor on
   how they were split over messages.
   */
  lemma {:induction false} SplitInsensitive(use: Message, run: seq<Message>, other: seq<Message>, rest: seq<Message>)
    requires Order(use) != [] && AnswerRun(Order(use), run) && AnswerRun(Order(use), other)
    requires multiset(Blocks(run)) == multiset(Blocks(other)) && (rest == [] || !ResultMessage(rest[0]))
    ensures Project([use] + run + rest) == Project([use] + other + rest)
  {
    ProjectAnswered(use, run, rest);
    ProjectAnswered(use, other, rest);
    RunBlocks(run);
    forall id | id in Order(use) ensures WithId(Blocks(run), id) == WithId(Blocks(other), id) {
      SameEach(Blocks(run), Blocks(other), id);
    }
    GroupedAgree(Order(use), Blocks(run), Blocks(other));
  }

  // ---- The order of the answers -------------------------------------------------------------------------------------

  /** The first tool use of the call in the content. */
  ghost predicate FirstUse(content: seq<Block>, id: string, i: nat) {
    i < |content| && content[i].ToolUse? && content[i].id == id &&
    forall k | 0 <= k < i :: !(content[k].ToolUse? && content[k].id == id)
  }

  lemma {:induction false} UsesSnoc(content: seq<Block>)
    requires content != []
    ensures var x := content[|content| - 1];
      UsesOf(content) == UsesOf(content[..|content| - 1]) + if x.ToolUse? then [x.id] else []
  {
    var front, x := content[..|content| - 1], content[|content| - 1];
    assert content == front + [x];
    UsesOfConcat(front, [x]);
    assert UsesOf([x]) == (if x.ToolUse? then [x.id] else []) + UsesOf([]);
  }

  /** Deduplicated uses stand in the order of their first occurrence. */
  lemma {:induction false} DedupByFirstUse(content: seq<Block>, a: nat, b: nat, i: nat, j: nat)
    requires a <= b < |Dedup(UsesOf(content))|
    requires FirstUse(content, Dedup(UsesOf(content))[a], i) && FirstUse(content, Dedup(UsesOf(content))[b], j)
    ensures i <= j
    decreases |content|
  {
    if a < b {
      var front := content[..|content| - 1];
      var ids, prior := Dedup(UsesOf(content)), Dedup(UsesOf(front));
      DedupGrows(content);
      hide Dedup, UsesOf;
      assert ids[a] == prior[a] && prior[a] in prior;
      EarlyUse(content, ids[a], i);
      if b < |prior| {
        assert ids[b] == prior[b] && prior[b] in prior;
        EarlyUse(content, ids[b], j);
        DedupByFirstUse(front, a, b, i, j);
      } else {
        LateUse(content, ids[b], j);
      }
    }
  }

  lemma {:induction false} DedupGrows(content: seq<Block>)
    requires content != []
    ensures var ids, prior := Dedup(UsesOf(content)), Dedup(UsesOf(content[..|content| - 1]));
      prior <= ids && |ids| <= |prior| + 1 && (|ids| > |prior| ==> ids[|prior|] !in prior)
  {
    var front, x := content[..|content| - 1], content[|content| - 1];
    UsesSnoc(content);
    DedupMembers(UsesOf(front));
    if x.ToolUse? {
      DedupSnoc(UsesOf(front), x.id);
    } else {
      assert UsesOf(front) + [] == UsesOf(front);
    }
    hide Dedup, UsesOf;
  }

  lemma {:induction false} LateUse(content: seq<Block>, id: string, i: nat)
    requires content != [] && FirstUse(content, id, i) && id !in Dedup(UsesOf(content[..|content| - 1]))
    ensures i == |content| - 1
  {
    var front := content[..|content| - 1];
    DedupMembers(UsesOf(front));
    UsesOfMember(front, id);
    assert forall k | 0 <= k < |front| :: front[k] == content[k] && front[k] in front;
  }

  /** A call used before the last block has its first use there. */
  lemma {:induction false} EarlyUse(content: seq<Block>, id: string, i: nat)
    requires content != [] && FirstUse(content, id, i) && id in Dedup(UsesOf(content[..|content| - 1]))
    ensures i < |content| - 1 && FirstUse(content[..|content| - 1], id, i)
  {
    var front := content[..|content| - 1];
    DedupMembers(UsesOf(front));
    UsesOfMember(front, id);
    var x :| x in front && x.ToolUse? && x.id == id;
    var k :| 0 <= k < |front| && front[k] == x;
    assert content[k] == x;
  }

  ghost predicate NotAfter(order: seq<string>, x: string, y: string) {
    exists a, b | 0 <= a <= b < |order| :: order[a] == x && order[b] == y
  }

  /** Grouped results stand in the order of the list that groups them. */
  lemma {:induction false} GroupedInOrder(order: seq<string>, blocks: seq<Block>, p: nat, q: nat)
    requires p <= q < |Grouped(order, blocks)|
    ensures var g := Grouped(order, blocks); g[p].ToolResult? && g[q].ToolResult? && NotAfter(order, g[p].id, g[q].id)
    decreases |order|
  {
    var g, first, rest := Grouped(order, blocks), WithId(blocks, order[0]), Grouped(order[1..], blocks);
    assert g == first + rest;
    WithIdMembers(blocks, order[0]);
    GroupedMembers(order[1..], blocks);
    hide Grouped, WithId;
    if q < |first| {
      assert g[p] in first && g[q] in first;
      assert order[0] == g[p].id && order[0] == g[q].id;
    } else {
      assert g[q] == rest[q - |first|] && g[q] in rest;
      var b :| 0 <= b < |order[1..]| && order[1..][b] == g[q].id;
      if p < |first| {
        assert g[p] in first && order[0] == g[p].id && order[b + 1] == g[q].id;
      } else {
        assert g[p] == rest[p - |first|];
        GroupedInOrder(order[1..], blocks, p - |first|, q - |first|);
        var c, d :| 0 <= c <= d < |order[1..]| && order[1..][c] == g[p].id && order[1..][d] == g[q].id;
        assert order[c + 1] == g[p].id && order[d + 1] == g[q].id;
      }
    }
  }

  /** In a regrouped answer, results of earlier requested calls come first, and unknown results last. */
  lemma {:induction false} RegroupedInOrder(m: Message, blocks: seq<Block>, p: nat, q: nat)
    requires m.role.Assistant? && p <= q < |Regroup(Order(m), blocks)| && forall x | x in blocks :: x.ToolResult?
    ensures var r := Regroup(Order(m), blocks); InUseOrder(m, r[p], r[q])
  {
    var order := Order(m);
    var known, unknown := Grouped(order, blocks), Unknown(blocks, order);
    var r := Regroup(order, blocks);
    RegroupParts(order, blocks);
    RegroupMembers(order, blocks);
    UnknownMembers(blocks, order);
    OrderMembers(m);
    hide Regroup, Grouped, Unknown, Order;
    assert r[p] in r && r[q] in r;
    if q < |known| {
      assert r[p] == known[p] && r[q] == known[q];
      KnownInOrder(m, blocks, p, q);
    } else {
      assert r[q] == unknown[q - |known|] && unknown[q - |known|] in unknown;
      assert r[q].id !in order;
    }
  }

  lemma {:induction false} OrderMembers(m: Message)
    requires m.role.Assistant?
    ensures forall id :: id in Order(m) <==> exists i: nat :: FirstUse(m.content, id, i)
  {
    DedupMembers(UsesOf(m.content));
    forall id ensures id in Order(m) <==> exists i: nat :: FirstUse(m.content, id, i) {
      UsesOfMember(m.content, id);
      if i: nat :| FirstUse(m.content, id, i) { assert m.content[i] in m.content; }
      if x :| x in m.content && x.ToolUse? && x.id == id {
        var k :| 0 <= k < |m.content| && m.content[k] == x;
        var i := LeastUse(m.content, id, k);
      }
    }
  }

  lemma {:induction false} LeastUse(content: seq<Block>, id: string, k: nat) returns (i: nat)
    requires k < |content| && content[k].ToolUse? && content[k].id == id
    ensures FirstUse(content, id, i)
    decreases k
  {
    i := k;
    if j :| 0 <= j < k && content[j].ToolUse? && content[j].id == id { i := LeastUse(content, id, j); }
  }

  lemma {:induction false} KnownInOrder(m: Message, blocks: seq<Block>, p: nat, q: nat)
    requires m.role.Assistant? && p <= q < |Grouped(Order(m), blocks)|
    ensures var g := Grouped(Order(m), blocks); InUseOrder(m, g[p], g[q])
  {
    var order, g := Order(m), Grouped(Order(m), blocks);
    GroupedInOrder(order, blocks, p, q);
    var a, b :| 0 <= a <= b < |order| && order[a] == g[p].id && order[b] == g[q].id;
    OrderMembers(m);
    assert g[p].id in order;
    forall i, j | FirstUse(m.content, g[p].id, i) && FirstUse(m.content, g[q].id, j) ensures i <= j {
      DedupByFirstUse(m.content, a, b, i, j);
    }
    hide Grouped, Order;
  }

  /**
   The answers of a batch become one user message right behind it, in which the results of earlier requested calls come
   first, unknown results last, and results of one call keep their order. What follows is projected on its own.
   */
  lemma {:induction false} AnswersFollowUses(use: Message, run: seq<Message>, rest: seq<Message>)
    returns (answer: Message)
    requires use.role.Assistant? && (exists x | x in use.content :: x.ToolUse?) && run != []
    requires forall m | m in run :: m.role.User? && m.content != [] && forall x | x in m.content :: x.ToolResult?
    requires rest == [] || !ResultMessage(rest[0])
    ensures Project([use] + run + rest) == [use, answer] + Project(rest)
    ensures answer.role.User? && multiset(answer.content) == multiset(Blocks(run))
    ensures forall p, q | 0 <= p <= q < |answer.content| :: InUseOrder(use, answer.content[p], answer.content[q])
    ensures forall id :: WithId(answer.content, id) == WithId(Blocks(run), id)
  {
    assert forall m | m in run :: ResultMessage(m);
    HasOrder(use);
    AnsweredHead(use, run, rest);
    RunBlocks(run);
    OrderDistinct(use);
    answer := Message(User, Regroup(Order(use), Blocks(run)));
    hide *;
    ProjectStep([use] + run + rest);
    assert [use] + [answer] == [use, answer];
    RegroupKeepsBlocks(Order(use), Blocks(run));
    forall p, q | 0 <= p <= q < |answer.content| ensures InUseOrder(use, answer.content[p], answer.content[q]) {
      RegroupedInOrder(use, Blocks(run), p, q);
    }
    forall id ensures WithId(answer.content, id) == WithId(Blocks(run), id) {
      RegroupKeepsAll(Order(use), Blocks(run), id);
    }
  }

  /** `x` answers a call that is requested no later than the one of `y`; an answer to no request comes last. */
  ghost predicate InUseOrder(use: Message, x: Block, y: Block) {
    x.ToolResult? && y.ToolResult? &&
    (forall i, j :: FirstUse(use.content, x.id, i) && FirstUse(use.content, y.id, j) ==> i <= j) &&
    ((exists j: nat :: FirstUse(use.content, y.id, j)) ==> exists i: nat :: FirstUse(use.content, x.id, i))
  }

  lemma {:induction false} HasOrder(m: Message)
    requires m.role.Assistant? && exists x | x in m.content :: x.ToolUse?
    ensures Order(m) != []
  {
    var x :| x in m.content && x.ToolUse?;
    UsesOfMember(m.content, x.id);
    DedupMembers(UsesOf(m.content));
    assert x.id in Order(m);
  }

  lemma {:induction false} RegroupKeepsAll(order: seq<string>, blocks: seq<Block>, id: string)
    requires NoDuplicates(order) && forall x | x in blocks :: x.ToolResult?
    ensures WithId(Regroup(order, blocks), id) == WithId(blocks, id)
  {
    if id in order {
      RegroupKeepsEach(order, blocks, id);
    } else {
      RegroupParts(order, blocks);
      WithIdConcat(Grouped(order, blocks), Unknown(blocks, order), id);
      WithIdGrouped(order, blocks, id);
      WithIdUnknown(order, blocks, id);
      hide *;
      assert [] + WithId(blocks, id) == WithId(blocks, id);
    }
  }

  lemma {:induction false} WithIdUnknown(order: seq<string>, blocks: seq<Block>, id: string)
    requires id !in order
    ensures WithId(Unknown(blocks, order), id) == WithId(blocks, id)
  {
    if blocks != [] {
      var x, rest := blocks[0], blocks[1..];
      WithIdUnknown(order, rest, id);
      var tail := Unknown(rest, order);
      if x.ToolResult? && x.id in order {
        assert Unknown(blocks, order) == [] + tail == tail;
        assert WithId(blocks, id) == [] + WithId(rest, id) == WithId(rest, id);
      } else {
        assert Unknown(blocks, order) == [x] + tail && ([x] + tail)[1..] == tail;
      }
    }
  }

  /** A tool request directly followed by a message of results alone. */
  ghost predicate AnsweredRequest(use: Message, next: Message) {
    use.role.Assistant? && (exists x | x in use.content :: x.ToolUse?) && next.role.User? && next.content != [] &&
    forall x | x in next.content :: x.ToolResult?
  }

  /** A transcript without an answered request is left as it is. */
  lemma {:induction false} PlainIsUnchanged(ms: seq<Message>)
    requires forall i, j | 0 <= i < |ms| && 0 <= j < |ms| && j == i + 1 :: !AnsweredRequest(ms[i], ms[j])
    ensures Project(ms) == ms
    decreases |ms|
  {
    if ms != [] {
      NoOrder(ms[0]);
      var tail := ms[1..];
      if tail != [] {
        assert tail[0] == ms[1] && !AnsweredRequest(ms[0], ms[1]);
        forall i, j | 0 <= i < |tail| && 0 <= j < |tail| && j == i + 1 ensures !AnsweredRequest(tail[i], tail[j]) {
          assert tail[i] == ms[i + 1] && tail[j] == ms[j + 1];
        }
      }
      assert Skip(ms) == 1;
      PlainIsUnchanged(tail);
      assert ms == [ms[0]] + tail;
    }
  }

  lemma {:induction false} NoOrder(m: Message)
    ensures Order(m) != [] ==> m.role.Assistant? && exists x | x in m.content :: x.ToolUse?
  {
    if Order(m) != [] {
      var id := Order(m)[0];
      DedupMembers(UsesOf(m.content));
      assert id in Order(m);
      UsesOfMember(m.content, id);
    }
  }

  // ---- The loops ----------------------------------------------------------------------------------------------------

  lemma {:induction false} DedupSnoc(ids: seq<string>, id: string)
    ensures Dedup(ids + [id]) == if id in ids then Dedup(ids) else Dedup(ids) + [id]
  {
    assert (ids + [id])[..|ids|] == ids;
  }

  lemma {:induction false} NextUse(content: seq<Block>, i: nat)
    requires i < |content|
    ensures UsesOf(content[..i + 1]) ==
      if content[i].ToolUse? then UsesOf(content[..i]) + [content[i].id] else UsesOf(content[..i])
  {
    var x := content[i];
    assert content[..i + 1] == content[..i] + [x];
    UsesOfConcat(content[..i], [x]);
    assert [x][1..] == [] && UsesOf([x]) == (if x.ToolUse? then [x.id] else []) + UsesOf([]);
    assert UsesOf(content[..i]) + [] == UsesOf(content[..i]);
  }

  method CollectOrder(content: seq<Block>) returns (order: seq<string>)
    ensures order == Dedup(UsesOf(content))
  {
    order := [];
    var known: set<string> := {};
    var i := 0;
    assert content[..0] == [];
    while i < |content|
      invariant 0 <= i <= |content| && order == Dedup(UsesOf(content[..i]))
      invariant forall id :: id in known <==> id in UsesOf(content[..i])
    {
      hide Dedup, UsesOf;
      NextUse(content, i);
      if content[i].ToolUse? {
        var id := content[i].id;
        DedupSnoc(UsesOf(content[..i]), id);
        if id !in known {
          order := order + [id];
          known := known + {id};
        }
      }
      i := i + 1;
    }
    assert content[..i] == content;
  }

  function Lookup(byId: map<string, seq<Block>>, id: string): seq<Block> { if id in byId then byId[id] else [] }

  /** `sorted` extends `byId` by the known results among `blocks`. */
  ghost predicate SortedBy(order: seq<string>, byId: map<string, seq<Block>>, blocks: seq<Block>, sorted: map<string,
                           seq<Block>>) {
    forall id | id in order :: Lookup(sorted, id) == Lookup(byId, id) + WithId(blocks, id)
  }

  lemma {:induction false} SortedOne(order: seq<string>, byId: map<string, seq<Block>>, x: Block, next: map<string,
                                     seq<Block>>)
    requires x.ToolResult? && next == if x.id in order then byId[x.id := Lookup(byId, x.id) + [x]] else byId
    ensures SortedBy(order, byId, [x], next)
  {
    forall id | id in order ensures Lookup(next, id) == Lookup(byId, id) + WithId([x], id) {
      assert [x] == [x] + [];
      ConsUnfold(x, [], id, order);
    }
  }

  /** The sorted results and the unknown rest after `blocks`, starting from `byId` and `unknown`. */
  ghost predicate Collected(order: seq<string>, byId: map<string, seq<Block>>, unknown: seq<Block>, blocks: seq<Block>,
                            byId': map<string, seq<Block>>, unknown': seq<Block>) {
    SortedBy(order, byId, blocks, byId') && unknown' == unknown + Unknown(blocks, order)
  }

  lemma {:induction false} CollectTwice(order: seq<string>, byId: map<string, seq<Block>>, unknown: seq<Block>,
                                        a: seq<Block>,
                                        byId1: map<string, seq<Block>>, unknown1: seq<Block>, b: seq<Block>,
                                        byId2: map<string, seq<Block>>, unknown2: seq<Block>)
    requires Collected(order, byId, unknown, a, byId1, unknown1) &&
      Collected(order, byId1, unknown1, b, byId2, unknown2)
    ensures Collected(order, byId, unknown, a + b, byId2, unknown2)
  {
    hide SortedBy, Unknown;
    SortedTwice(order, byId, a, byId1, b, byId2);
    UnknownConcat(a, b, order);
    Associative(unknown, Unknown(a, order), Unknown(b, order));
  }

  lemma {:induction false} CollectOne(order: seq<string>, byId: map<string, seq<Block>>, unknown: seq<Block>, x: Block)
    requires x.ToolResult?
    ensures Collected(order, byId, unknown, [x], if x.id in order then byId[x.id := Lookup(byId, x.id) + [x]] else byId,
                      if x.id in order then unknown else unknown + [x])
  {
    SortedOne(order, byId, x, if x.id in order then byId[x.id := Lookup(byId, x.id) + [x]] else byId);
    assert [x] == [x] + [];
    ConsUnfold(x, [], x.id, order);
    hide SortedBy;
  }

  lemma {:induction false} CollectNone(order: seq<string>, byId: map<string, seq<Block>>, unknown: seq<Block>)
    ensures Collected(order, byId, unknown, [], byId, unknown)
  {
    assert unknown + Unknown([], order) == unknown;
    assert forall id | id in order :: Lookup(byId, id) + WithId([], id) == Lookup(byId, id);
  }

  /** One result message of a run: each block goes to its call, or to the unknown rest. */
  method CollectBlocks(blocks: seq<Block>, order: seq<string>, byId: map<string, seq<Block>>, unknown: seq<Block>)
    returns (byId': map<string, seq<Block>>, unknown': seq<Block>)
    requires forall x | x in blocks :: x.ToolResult?
    ensures Collected(order, byId, unknown, blocks, byId', unknown')
  {
    byId', unknown' := byId, unknown;
    CollectNone(order, byId, unknown);
    var i := 0;
    while i < |blocks|
      invariant 0 <= i <= |blocks| && Collected(order, byId, unknown, blocks[..i], byId', unknown')
    {
      var result := blocks[i];
      assert result in blocks && blocks[..i] + [result] == blocks[..i + 1];
      hide *;
      ghost var byId1, unknown1 := byId', unknown';
      CollectOne(order, byId1, unknown1, result);
      if result.id in order {
        byId' := byId'[result.id := Lookup(byId', result.id) + [result]];
      } else {
        unknown' := unknown' + [result];
      }
      CollectTwice(order, byId, unknown, blocks[..i], byId1, unknown1, [result], byId', unknown');
      i := i + 1;
    }
    assert blocks[..i] == blocks;
  }

  lemma {:induction false} SortedTwice(order: seq<string>, byId: map<string, seq<Block>>, a: seq<Block>,
                                       mid: map<string, seq<Block>>,
                                       b: seq<Block>, end: map<string, seq<Block>>)
    requires SortedBy(order, byId, a, mid) && SortedBy(order, mid, b, end)
    ensures SortedBy(order, byId, a + b, end)
  {
    hide WithId, Lookup;
    forall id | id in order ensures Lookup(end, id) == Lookup(byId, id) + WithId(a + b, id) {
      WithIdConcat(a, b, id);
      Chain(Lookup(byId, id), WithId(a, id), WithId(b, id), Lookup(mid, id), Lookup(end, id));
    }
  }

  lemma {:induction false} Chain(x: seq<Block>, a: seq<Block>, b: seq<Block>, mid: seq<Block>, end: seq<Block>)
    requires mid == x + a && end == mid + b
    ensures end == x + (a + b)
  {
  }

  lemma {:induction false} NextRunBlocks(ms: seq<Message>, start: nat, j: nat)
    requires start <= j < |ms|
    ensures Blocks(ms[start..j + 1]) == Blocks(ms[start..j]) + ms[j].content
  {
    assert ms[start..j + 1] == ms[start..j] + [ms[j]];
    BlocksConcat(ms[start..j], [ms[j]]);
    OneMessage(ms[j]);
  }

  lemma {:induction false} NextRun(ms: seq<Message>, j: nat)
    requires j < |ms| && ResultMessage(ms[j])
    ensures RunLength(ms[j..]) == 1 + RunLength(ms[j + 1..])
  {
    assert ms[j..][1..] == ms[j + 1..];
  }

  /** The run of result messages from `start` on, sorted by call. */
  method CollectRun(ms: seq<Message>, start: nat, order: seq<string>)
    returns (j: nat, byId: map<string, seq<Block>>, unknown: seq<Block>)
    requires start <= |ms|
    ensures j == start + RunLength(ms[start..]) && Collected(order, map[], [], Blocks(ms[start..j]), byId, unknown)
  {
    j, byId, unknown := start, map[], [];
    assert ms[start..start] == [] && Blocks([]) == [];
    CollectNone(order, map[], []);
    while j < |ms| && ms[j].role.User? && OnlyToolResults(ms[j].content)
      invariant start <= j <= |ms| && start + RunLength(ms[start..]) == j + RunLength(ms[j..])
      invariant Collected(order, map[], [], Blocks(ms[start..j]), byId, unknown)
    {
      assert forall x | x in ms[j].content :: x.ToolResult?;
      assert ResultMessage(ms[j]);
      hide *;
      ghost var byId1, unknown1 := byId, unknown;
      byId, unknown := CollectBlocks(ms[j].content, order, byId, unknown);
      NextRun(ms, j);
      NextRunBlocks(ms, start, j);
      CollectTwice(order, map[], [], Blocks(ms[start..j]), byId1, unknown1, ms[j].content, byId, unknown);
      j := j + 1;
    }
    assert j == |ms| || !ResultMessage(ms[j]);
    RunStops(ms, j);
  }

  lemma {:induction false} RunStops(ms: seq<Message>, j: nat)
    requires j <= |ms| && (j == |ms| || !ResultMessage(ms[j]))
    ensures RunLength(ms[j..]) == 0
  {
  }

  method Assemble(order: seq<string>, byId: map<string, seq<Block>>, ghost blocks: seq<Block>)
    returns (results: seq<Block>)
    requires SortedBy(order, map[], blocks, byId)
    ensures results == Grouped(order, blocks)
  {
    results := [];
    var k := 0;
    while k < |order|
      invariant 0 <= k <= |order| && Grouped(order, blocks) == results + Grouped(order[k..], blocks)
    {
      GroupedNext(order, k, blocks);
      assert order[k] in order;
      hide Grouped, WithId;
      assert Lookup(byId, order[k]) == WithId(blocks, order[k]);
      results := results + Lookup(byId, order[k]);
      k := k + 1;
    }
  }

  lemma {:induction false} GroupedNext(order: seq<string>, k: nat, blocks: seq<Block>)
    requires k < |order|
    ensures Grouped(order[k..], blocks) == WithId(blocks, order[k]) + Grouped(order[k + 1..], blocks)
  {
    assert order[k..][1..] == order[k + 1..];
  }

  lemma {:induction false} HeadAt(ms: seq<Message>, i: nat)
    requires i < |ms|
    ensures var order, n := Order(ms[i]), RunLength(ms[i + 1..]);
      Skip(ms[i..]) == (if order == [] then 1 else 1 + n) &&
      Head(ms[i..]) == if order == [] || n == 0 then [ms[i]]
                       else [ms[i]] + [Message(User, Regroup(order, Blocks(ms[i + 1..i + 1 + n])))]
  {
    var tail, n := ms[i..], RunLength(ms[i + 1..]);
    assert tail[0] == ms[i] && tail[1..] == ms[i + 1..] && tail[1..1 + n] == ms[i + 1..i + 1 + n];
  }

  lemma {:induction false} CollectedParts(order: seq<string>, blocks: seq<Block>, byId: map<string, seq<Block>>,
                                          unknown: seq<Block>)
    requires Collected(order, map[], [], blocks, byId, unknown)
    ensures SortedBy(order, map[], blocks, byId) && unknown == Unknown(blocks, order)
  {
    assert [] + Unknown(blocks, order) == Unknown(blocks, order);
  }

  /** The result message behind the tool uses at `i`, when any results follow. */
  method GroupRun(ms: seq<Message>, i: nat, order: seq<string>) returns (grouped: seq<Message>, next: nat)
    requires i < |ms| && order == Order(ms[i]) && order != []
    ensures [ms[i]] + grouped == Head(ms[i..]) && next == i + Skip(ms[i..])
  {
    hide *;
    HeadAt(ms, i);
    var j, byId, unknown := CollectRun(ms, i + 1, order);
    grouped, next := [], j;
    if j > i + 1 {
      ghost var blocks := Blocks(ms[i + 1..j]);
      CollectedParts(order, blocks, byId, unknown);
      var results := Assemble(order, byId, blocks);
      RegroupParts(order, blocks);
      grouped := [Message(User, results + unknown)];
    } else {
      assert [ms[i]] + [] == [ms[i]];
    }
  }

  /** One turn of the outer loop. */
  method ProjectOne(ms: seq<Message>, i: nat) returns (head: seq<Message>, next: nat)
    requires i < |ms|
    ensures head == Head(ms[i..]) && next == i + Skip(ms[i..])
  {
    var m := ms[i];
    var order: seq<string> := [];
    if m.role.Assistant? {
      order := CollectOrder(m.content);
    }
    assert order == Order(m);
    HeadAt(ms, i);
    hide *;
    head, next := [m], i + 1;
    if |order| > 0 {
      var grouped;
      grouped, next := GroupRun(ms, i, order);
      head := [m] + grouped;
    }
  }

  method ProjectToolResultOrder(ms: seq<Message>) returns (out: seq<Message>)
    ensures out == Project(ms)
  {
    out := [];
    var i := 0;
    while i < |ms|
      invariant 0 <= i <= |ms| && Project(ms) == out + Project(ms[i..])
    {
      hide *;
      var head, next := ProjectOne(ms, i);
      ProjectStep(ms[i..]);
      assert ms[i..][Skip(ms[i..])..] == ms[next..];
      Associative(out, head, Project(ms[next..]));
      out, i := out + head, next;
    }
  }

  // ---- providerMessages -------------------------------------------------------------------------------------------

  /** The model sees the persisted history, then the transient context, then the current delta. */
  function ProviderMessages(canonical: seq<Message>, transient: seq<Message>, persistedCount: int): seq<Message> {
    var cut := if persistedCount < 0 || persistedCount > |canonical| then |canonical| else persistedCount;
    Project(canonical[..cut]) + transient + Project(canonical[cut..])
  }

  /** Without transient context the cut is invisible, as long as it does not split a tool batch from its results. */
  lemma {:induction false} ProviderCutInvisible(canonical: seq<Message>, persistedCount: int)
    requires 0 <= persistedCount < |canonical| ==> !ResultMessage(canonical[persistedCount])
    ensures ProviderMessages(canonical, [], persistedCount) == Project(canonical)
  {
    var cut := if persistedCount < 0 || persistedCount > |canonical| then |canonical| else persistedCount;
    hide Project, ResultMessage;
    assert canonical == canonical[..cut] + canonical[cut..];
    ProjectConcat(canonical[..cut], canonical[cut..]);
    assert Project(canonical[..cut]) + [] + Project(canonical[cut..]) ==
      Project(canonical[..cut]) + Project(canonical[cut..]);
  }

  /** The persisted history comes first, then the transient context, then the current delta, all of it complete. */
  lemma {:induction false} ProviderOrder(canonical: seq<Message>, transient: seq<Message>, cut: nat)
    requires cut <= |canonical|
    ensures var out := ProviderMessages(canonical, transient, cut);
      var recent, current := Project(canonical[..cut]), Project(canonical[cut..]);
      var m, k := |recent|, |recent| + |transient|;
      |out| == k + |current| && out[..m] == recent && out[m..k] == transient && out[k..] == current
  {
    hide Project;
  }
}
