/** The sliding window. */
module Window {
  import opened Messages
  import opened Stores

  // It is cut from the canonical log.

  const MAX_SEQUENCE := 0xFFFF_FFFF_FFFF_FFFF

  /** Some result has no earlier use of its call in the same blocks. */
  ghost predicate Orphaned(blocks: seq<Block>) {
    exists p | 0 <= p < |blocks| :: OrphanAt(blocks, p)
  }

  ghost predicate OrphanAt(blocks: seq<Block>, p: nat)
    requires p < |blocks|
  {
    blocks[p].ToolResult? && forall q | 0 <= q < p :: !(blocks[q].ToolUse? && blocks[q].id == blocks[p].id)
  }

  lemma OrphanedMeans(blocks: seq<Block>)
    ensures Orphaned(blocks) <==> exists p | 0 <= p < |blocks| ::
      blocks[p].ToolResult? && forall q | 0 <= q < p :: !(blocks[q].ToolUse? && blocks[q].id == blocks[p].id)
  {
    if p :| 0 <= p < |blocks| && blocks[p].ToolResult? &&
            forall q | 0 <= q < p :: !(blocks[q].ToolUse? && blocks[q].id == blocks[p].id) {
      assert OrphanAt(blocks, p);
    }
    if p :| 0 <= p < |blocks| && OrphanAt(blocks, p) { assert blocks[p].ToolResult?; }
  }

  method HasOrphanedToolResult(ms: seq<Message>) returns (orphaned: bool)
    ensures orphaned <==> Orphaned(Blocks(ms))
  {
    var blocks := Flatten(ms);
    var uses: set<string> := {};
    var i := 0;
    while i < |blocks|
      invariant 0 <= i <= |blocks| && uses == set q | 0 <= q < i && blocks[q].ToolUse? :: blocks[q].id
      invariant forall p | 0 <= p < i :: !OrphanAt(blocks, p)
    {
      var x := blocks[i];
      if x.ToolUse? {
        uses := uses + {x.id};
      } else if x.ToolResult? && x.id !in uses {
        assert OrphanAt(blocks, i);
        return true;
      }
      i := i + 1;
    }
    orphaned := false;
  }

  /** A result without its use stays without it when the log grows. */
  lemma {:induction false} OrphanStays(log: seq<Message>, more: seq<Message>, s: nat)
    requires s <= |log| && Orphaned(Blocks(log[s..]))
    ensures Orphaned(Blocks((log + more)[s..]))
  {
    assert (log + more)[s..] == log[s..] + more;
    BlocksConcat(log[s..], more);
    var p :| 0 <= p < |Blocks(log[s..])| && OrphanAt(Blocks(log[s..]), p);
    assert OrphanAt(Blocks((log + more)[s..]), p);
  }

  /** Other writers append to the conversation. */
  method Arrive(store: ConversationMemory, id: string, ms: seq<Message>, ghost bound: nat, ghost start: nat)
    requires store.Valid() && bound <= |store.Log(id)|
    requires forall s | start < s <= bound :: Orphaned(Blocks(store.Log(id)[s..]))
    modifies store
    ensures store.Valid() && store.Log(id) == old(store.Log(id)) + ms
    ensures forall s | start < s <= bound :: Orphaned(Blocks(store.Log(id)[s..]))
  {
    ghost var log := store.Log(id);
    var meta := store.LoadAfter(id, 0);
    var appended := store.Append(id, ms, meta.revision);
    forall s | start < s <= bound ensures Orphaned(Blocks(store.Log(id)[s..])) { OrphanStays(log, ms, s); }
  }

  /**
   HistoryBoundary: the greatest start that keeps at least `count` of the messages it found first and whose tail has no
   orphaned tool result, or zero when there is none. Other writers may append `others(k)` before the k-th load; the
   tails are those of the log as it is on return.
   */
  method HistoryBoundary(store: ConversationMemory, id: string, count: nat, others: nat -> seq<Message>)
    returns (start: nat)
    requires store.Valid() && count >= 1
    modifies store
    ensures store.Valid() && old(store.Log(id)) <= store.Log(id)
    ensures var log, found := store.Log(id), |old(store.Log(id))| + |others(0)|;
      start <= found <= |log| && found - start >= (if found < count then found else count) &&
      (start == 0 || !Orphaned(Blocks(log[start..]))) &&
      forall s | start < s <= found - count :: Orphaned(Blocks(log[s..]))
    ensures start > 0 ==>
      var blocks := Blocks(store.Log(id)[start..]);
      forall p | 0 <= p < |blocks| && blocks[p].ToolResult? ::
        exists q | 0 <= q < p :: blocks[q].ToolUse? && blocks[q].id == blocks[p].id
  {
    Arrive(store, id, others(0), 0, 0);
    var meta := store.LoadAfter(id, MAX_SEQUENCE);
    if meta.lastSequence <= count {
      return 0;
    }
    start := meta.lastSequence - count;
    ghost var top := start;
    var k := 1;
    while true
      invariant store.Valid() && 0 <= start <= top == meta.lastSequence - count && meta.lastSequence <= |store.Log(id)|
      invariant old(store.Log(id)) <= store.Log(id)
      invariant forall s | start < s <= top :: Orphaned(Blocks(store.Log(id)[s..]))
      decreases start
    {
      Arrive(store, id, others(k), top, start);
      k := k + 1;
      var tail := store.LoadAfter(id, start);
      var orphaned := HasOrphanedToolResult(tail.messages);
      if !orphaned || start == 0 {
        if start > 0 { NothingOrphaned(tail.messages); }
        return;
      }
      start := start - 1;
    }
  }

  /** Every result of the tail has its use before it, in the tail. */
  lemma NothingOrphaned(ms: seq<Message>)
    requires !Orphaned(Blocks(ms))
    ensures var blocks := Blocks(ms);
      forall p | 0 <= p < |blocks| && blocks[p].ToolResult? ::
        exists q | 0 <= q < p :: blocks[q].ToolUse? && blocks[q].id == blocks[p].id
  {
    var blocks := Blocks(ms);
    forall p | 0 <= p < |blocks| && blocks[p].ToolResult?
      ensures exists q | 0 <= q < p :: blocks[q].ToolUse? && blocks[q].id == blocks[p].id
    {
      assert !OrphanAt(blocks, p);
    }
  }
}
