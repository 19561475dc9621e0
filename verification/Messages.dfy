/** Messages. */
module Messages {

  // Canonical conversation messages and the tool blocks they carry.

  datatype Option<+T> = None | Some(value: T)

  datatype Role = User | Assistant

  /** Image, document and widget blocks are all opaque media here. */
  datatype Block =
    | Text(text: string)
    | ToolUse(id: string, name: string, input: string)
    | ToolResult(id: string, content: string, isError: bool, images: seq<string>)
    | Media(payload: string)

  datatype Message = Message(role: Role, content: seq<Block>)

  predicate OnlyToolResults(blocks: seq<Block>) {
    |blocks| > 0 && forall b | b in blocks :: b.ToolResult?
  }

  /** A user message made of tool results only: the shape every tool answer has. */
  predicate ResultMessage(m: Message) {
    m.role.User? && OnlyToolResults(m.content)
  }

  /** All blocks of a transcript, in order. */
  function Blocks(ms: seq<Message>): seq<Block> {
    if ms == [] then [] else ms[0].content + Blocks(ms[1..])
  }

  function UsesOf(bs: seq<Block>): seq<string> {
    if bs == [] then [] else (if bs[0].ToolUse? then [bs[0].id] else []) + UsesOf(bs[1..])
  }

  function ResultsOf(bs: seq<Block>): seq<string> {
    if bs == [] then [] else (if bs[0].ToolResult? then [bs[0].id] else []) + ResultsOf(bs[1..])
  }

  /** Call IDs of the tool uses of a transcript, in order and with repetition. */
  function UseIds(ms: seq<Message>): seq<string> { UsesOf(Blocks(ms)) }

  /** Call IDs of the tool results of a transcript, in order and with repetition. */
  function ResultIds(ms: seq<Message>): seq<string> { ResultsOf(Blocks(ms)) }

  /** The walk over all blocks that every scan of a transcript makes. */
  method Flatten(ms: seq<Message>) returns (blocks: seq<Block>)
    ensures blocks == Blocks(ms)
  {
    blocks := [];
    var i := 0;
    while i < |ms|
      invariant 0 <= i <= |ms| && Blocks(ms) == blocks + Blocks(ms[i..])
    {
      assert ms[i..][1..] == ms[i + 1..];
      blocks := blocks + ms[i].content;
      i := i + 1;
    }
  }

  lemma BlocksConcat(a: seq<Message>, b: seq<Message>)
    ensures Blocks(a + b) == Blocks(a) + Blocks(b)
  {
    if a == [] {
      assert a + b == b;
    } else {
      assert (a + b)[1..] == a[1..] + b;
      BlocksConcat(a[1..], b);
    }
  }

  lemma UsesOfConcat(a: seq<Block>, b: seq<Block>)
    ensures UsesOf(a + b) == UsesOf(a) + UsesOf(b)
  {
    if a == [] {
      assert a + b == b;
    } else {
      assert (a + b)[1..] == a[1..] + b;
      UsesOfConcat(a[1..], b);
    }
  }

  lemma ResultsOfConcat(a: seq<Block>, b: seq<Block>)
    ensures ResultsOf(a + b) == ResultsOf(a) + ResultsOf(b)
  {
    if a == [] {
      assert a + b == b;
    } else {
      assert (a + b)[1..] == a[1..] + b;
      ResultsOfConcat(a[1..], b);
    }
  }

  lemma UseIdsConcat(a: seq<Message>, b: seq<Message>)
    ensures UseIds(a + b) == UseIds(a) + UseIds(b)
  {
    BlocksConcat(a, b);
    UsesOfConcat(Blocks(a), Blocks(b));
  }

  lemma ResultIdsConcat(a: seq<Message>, b: seq<Message>)
    ensures ResultIds(a + b) == ResultIds(a) + ResultIds(b)
  {
    BlocksConcat(a, b);
    ResultsOfConcat(Blocks(a), Blocks(b));
  }

  lemma UsesOfMember(bs: seq<Block>, id: string)
    ensures id in UsesOf(bs) <==> exists b | b in bs :: b.ToolUse? && b.id == id
  {
    if bs != [] {
      UsesOfMember(bs[1..], id);
      if exists b | b in bs :: b.ToolUse? && b.id == id {
        var b :| b in bs && b.ToolUse? && b.id == id;
        assert b == bs[0] || b in bs[1..];
      }
    }
  }

  lemma ResultsOfMember(bs: seq<Block>, id: string)
    ensures id in ResultsOf(bs) <==> exists b | b in bs :: b.ToolResult? && b.id == id
  {
    if bs != [] {
      ResultsOfMember(bs[1..], id);
      if exists b | b in bs :: b.ToolResult? && b.id == id {
        var b :| b in bs && b.ToolResult? && b.id == id;
        assert b == bs[0] || b in bs[1..];
      }
    }
  }
}
