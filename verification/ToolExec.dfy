/** Dispatch order. */
module ToolExec {
  import opened Protocol

  // The order in which the calls of one tool batch are executed.

  /** Indices in order whose gate equals `gate`. */
  function Where(gates: seq<bool>, gate: bool, from: nat): seq<nat>
    requires from <= |gates|
    decreases |gates| - from
  {
    if from == |gates| then [] else (if gates[from] == gate then [from] else []) + Where(gates, gate, from + 1)
  }

  lemma {:induction false} WhereMembers(gates: seq<bool>, gate: bool, from: nat)
    requires from <= |gates|
    ensures forall i :: i in Where(gates, gate, from) <==> from <= i < |gates| && gates[i] == gate
    decreases |gates| - from
  {
    if from < |gates| { WhereMembers(gates, gate, from + 1); }
  }

  ghost predicate Ascending(at: seq<nat>) { forall j, k | 0 <= j < k < |at| :: at[j] < at[k] }

  lemma {:induction false} AscendingCons(i: nat, rest: seq<nat>)
    requires Ascending(rest) && forall x | x in rest :: i < x
    ensures Ascending([i] + rest)
  {
    var all := [i] + rest;
    forall j, k | 0 <= j < k < |all| ensures all[j] < all[k] {
      assert all[k] == rest[k - 1] && rest[k - 1] in rest;
      if j > 0 { assert all[j] == rest[j - 1]; }
    }
  }

  lemma {:induction false} WhereInOrder(gates: seq<bool>, gate: bool, from: nat)
    requires from <= |gates|
    ensures Ascending(Where(gates, gate, from))
    decreases |gates| - from
  {
    if from < |gates| {
      var rest := Where(gates, gate, from + 1);
      WhereInOrder(gates, gate, from + 1);
      WhereMembers(gates, gate, from + 1);
      AscendingCons(from, rest);
      hide Ascending;
      assert [] + rest == rest;
    }
  }

  /** Which calls are run, and in which order: the approval-gated ones first when nothing is decided yet. */
  ghost predicate Executes(gates: seq<bool>, decided: bool, exec: nat -> Outcome, executed: seq<nat>) {
    (forall i | i in executed :: i < |gates|) &&
    (forall i | 0 <= i < |gates| :: i in executed <==>
      decided || gates[i] || !exists j | 0 <= j < |gates| :: gates[j] && exec(j).PendingApproval?) &&
    forall j, k | 0 <= j < k < |executed| ::
      executed[j] < executed[k] ||
      (!decided && executed[j] < |gates| && executed[k] < |gates| && gates[executed[j]] && !gates[executed[k]])
  }

  lemma ExecutesAll(gates: seq<bool>, decided: bool, exec: nat -> Outcome)
    requires decided || Where(gates, true, 0) == []
    ensures Executes(gates, decided, exec, All(|gates|))
  {
    AllMembers(|gates|);
    WhereMembers(gates, true, 0);
    assert forall i | 0 <= i < |gates| && gates[i] :: i in Where(gates, true, 0);
  }

  /** One ascending list behind another. */
  lemma {:induction false} Joined(gates: seq<bool>, gated: seq<nat>, open: seq<nat>)
    requires Ascending(gated) && Ascending(open)
    requires (forall i | i in gated :: i < |gates| && gates[i]) && forall i | i in open :: i < |gates| && !gates[i]
    ensures var all := gated + open; forall j, k | 0 <= j < k < |all| ::
      all[j] < all[k] || (all[j] < |gates| && all[k] < |gates| && gates[all[j]] && !gates[all[k]])
  {
    var all := gated + open;
    forall j, k | 0 <= j < k < |all|
      ensures all[j] < all[k] || (all[j] < |gates| && all[k] < |gates| && gates[all[j]] && !gates[all[k]])
    {
      if j < |gated| <= k { assert all[j] in gated && all[k] in open; }
    }
  }

  lemma ExecutesGated(gates: seq<bool>, exec: nat -> Outcome)
    ensures var gated, open := Where(gates, true, 0), Where(gates, false, 0);
      var pending := exists i | 0 <= i < |gates| :: gates[i] && exec(i).PendingApproval?;
      Executes(gates, false, exec, gated + if pending then [] else open)
  {
    WhereMembers(gates, true, 0);
    WhereMembers(gates, false, 0);
    WhereInOrder(gates, true, 0);
    WhereInOrder(gates, false, 0);
    hide Where, Executes;
    var gated, open := Where(gates, true, 0), Where(gates, false, 0);
    var pending := exists i | 0 <= i < |gates| :: gates[i] && exec(i).PendingApproval?;
    ExecutesParts(gates, exec, gated, if pending then [] else open, pending);
  }

  lemma {:induction false} ExecutesParts(gates: seq<bool>, exec: nat -> Outcome, gated: seq<nat>, rest: seq<nat>,
                                         pending: bool)
    requires Ascending(gated) && Ascending(rest)
    requires forall i :: i in gated <==> 0 <= i < |gates| && gates[i]
    requires forall i :: i in rest <==> 0 <= i < |gates| && !gates[i] && !pending
    requires pending <==> exists i | 0 <= i < |gates| :: gates[i] && exec(i).PendingApproval?
    ensures Executes(gates, false, exec, gated + rest)
  {
    Joined(gates, gated, rest);
    hide Ascending;
    assert forall i :: i in gated + rest <==> i in gated || i in rest;
  }

  /** All calls, in order. */
  function All(n: nat): seq<nat> { seq(n, i => i) }

  lemma AllMembers(n: nat)
    ensures forall i: nat :: i in All(n) <==> i < n
  {
    forall i: nat | i < n ensures i in All(n) {
      assert All(n)[i] == i;
    }
  }

  /** Fill in the outcomes of the given calls, one after the other. */
  method RunCalls(indices: seq<nat>, exec: nat -> Outcome, outcomes: array<Outcome>)
    requires forall i | i in indices :: i < outcomes.Length
    modifies outcomes
    ensures forall i | 0 <= i < outcomes.Length :: outcomes[i] == if i in indices then exec(i) else old(outcomes[i])
  {
    var k := 0;
    while k < |indices|
      invariant 0 <= k <= |indices|
      invariant forall i | 0 <= i < outcomes.Length ::
        outcomes[i] == if i in indices[..k] then exec(i) else old(outcomes[i])
    {
      assert indices[..k + 1] == indices[..k] + [indices[k]];
      assert indices[k] in indices;
      outcomes[indices[k]] := exec(indices[k]);
      k := k + 1;
    }
    assert indices[..k] == indices;
  }

  method AnyPendingAmong(indices: seq<nat>, outcomes: array<Outcome>) returns (found: bool)
    requires forall i | i in indices :: i < outcomes.Length
    ensures found <==> exists i | i in indices :: outcomes[i].PendingApproval?
  {
    var k := 0;
    while k < |indices|
      invariant 0 <= k <= |indices|
      invariant forall j | 0 <= j < k :: indices[j] < outcomes.Length && !outcomes[indices[j]].PendingApproval?
    {
      assert indices[k] in indices;
      if outcomes[indices[k]].PendingApproval? {
        return true;
      }
      k := k + 1;
    }
    forall i | i in indices ensures !outcomes[i].PendingApproval? {
      var j :| 0 <= j < |indices| && indices[j] == i;
    }
    found := false;
  }

  method Partition(gates: seq<bool>) returns (approvals: seq<nat>, remaining: seq<nat>)
    ensures approvals == Where(gates, true, 0) && remaining == Where(gates, false, 0)
  {
    approvals, remaining := [], [];
    var i := 0;
    while i < |gates|
      invariant 0 <= i <= |gates|
      invariant Where(gates, true, 0) == approvals + Where(gates, true, i)
      invariant Where(gates, false, 0) == remaining + Where(gates, false, i)
    {
      if gates[i] {
        approvals := approvals + [i];
      } else {
        remaining := remaining + [i];
      }
      i := i + 1;
    }
  }

  method Defer(indices: seq<nat>, outcomes: array<Outcome>)
    requires forall i | i in indices :: i < outcomes.Length
    modifies outcomes
    ensures forall i | 0 <= i < outcomes.Length :: outcomes[i] == if i in indices then Deferred else old(outcomes[i])
  {
    RunCalls(indices, (i: nat) => Deferred, outcomes);
  }

  /**
   executeBatch: without decisions the approval-gated calls are run first. If one of them ends pending approval, no
   other call is run at all; otherwise, and whenever decisions are given, every call is run exactly once.
   `executed` lists the calls in the order in which they were run.
   */
  method ExecuteBatch(gates: seq<bool>, decided: bool, exec: nat -> Outcome)
    returns (outcomes: seq<Outcome>, executed: seq<nat>)
    ensures |outcomes| == |gates|
    ensures decided ==> executed == All(|gates|)
    ensures !decided && Where(gates, true, 0) == [] ==> executed == All(|gates|)
    ensures !decided && Where(gates, true, 0) != [] ==>
      executed == Where(gates, true, 0) +
        if exists i | 0 <= i < |gates| :: gates[i] && exec(i).PendingApproval? then [] else Where(gates, false, 0)
    ensures forall i | 0 <= i < |gates| :: outcomes[i] == if i in executed then exec(i) else Deferred
    ensures Executes(gates, decided, exec, executed)
  {
    var cells := new Outcome[|gates|](_ => Todo);
    var approvals, remaining := Partition(gates);
    WhereMembers(gates, true, 0);
    WhereMembers(gates, false, 0);
    if !decided && |approvals| > 0 {
      ExecutesGated(gates, exec);
      hide Executes;
      RunCalls(approvals, exec, cells);
      var pending := AnyPendingAmong(approvals, cells);
      if pending {
        Defer(remaining, cells);
        executed := approvals;
        assert approvals + [] == approvals;
      } else {
        RunCalls(remaining, exec, cells);
        executed := approvals + remaining;
      }
    } else {
      executed := All(|gates|);
      AllMembers(|gates|);
      ExecutesAll(gates, decided, exec);
      hide Executes;
      RunCalls(executed, exec, cells);
    }
    outcomes := cells[..];
  }
}
