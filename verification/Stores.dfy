/** In-memory stores. */
module Stores {
  import opened Messages
  import opened Execution

  // The compare-and-swap semantics the protocol runs on: the conversation log and the execution records.

  datatype Error =
    | InvalidId
    | NotFound
    | ExecutionConflict
    | ConversationConflict
    | ContextStateConflict
    | InvalidJson
    | RecoveryUnsupported
    | HistoryRegressed
    | ToolUncertain(callId: string, key: string)
    | BadCall(index: nat)

  datatype Result<+T> = Ok(value: T) | Err(error: Error)

  // ---- Execution store ---------------------------------------------------------------------

  /** Versions are positive and fit the signed 64-bit column of every durable backend. */
  const MAX_VERSION := 0x7FFF_FFFF_FFFF_FFFF

  /** Stored payload; the version lives beside it and never inside it. */
  datatype Stored = Stored(version: nat, payload: Record)

  function Marshal(e: Record): Record { e.(version := 0) }

  function Unmarshal(payload: Record, id: string, version: nat): Result<Record> {
    if payload.id != id then Err(NotFound) else Ok(payload.(version := version))
  }

  class ExecutionMemory {
    var items: map<string, Stored>

    ghost predicate Valid()
      reads this
    {
      forall id | id in items :: id != "" && items[id].payload.id == id && items[id].version >= 1
    }

    /** The record a reader sees. */
    ghost function Current(id: string): Option<Record>
      reads this
    {
      if id in items then Some(items[id].payload.(version := items[id].version)) else None
    }

    constructor ()
      ensures Valid() && items == map[]
    {
      items := map[];
    }

    method Create(e: Record) returns (r: Result<Record>)
      requires Valid()
      modifies this
      ensures Valid() && (r.Ok? <==> e.id != "" && old(Current(e.id)).None?)
      ensures r.Ok? ==> r.value == e.(version := 1) && Current(e.id) == Some(r.value)
      ensures forall id | r.Err? || id != e.id :: Current(id) == old(Current(id))
    {
      if e.id == "" {
        return Err(InvalidId);
      }
      var payload := Marshal(e);
      if e.id in items {
        return Err(ExecutionConflict);
      }
      items := items[e.id := Stored(1, payload)];
      r := Unmarshal(payload, e.id, 1);
    }

    method Load(id: string) returns (r: Result<Record>)
      requires Valid()
      ensures id == "" ==> r == Err(InvalidId)
      ensures id != "" ==> r == if Current(id).Some? then Ok(Current(id).value) else Err(NotFound)
    {
      if id == "" {
        return Err(InvalidId);
      }
      if id !in items {
        return Err(NotFound);
      }
      r := Unmarshal(items[id].payload, id, items[id].version);
    }

    /** Replaces the record only at exactly the expected version, and moves it to the next one. */
    method Save(e: Record, expected: nat) returns (r: Result<Record>)
      requires Valid()
      modifies this
      ensures Valid()
      ensures r.Ok? <==> old(Current(e.id)).Some? && old(Current(e.id)).value.version == expected <= MAX_VERSION
      ensures r.Ok? ==> r.value == e.(version := expected + 1) && Current(e.id) == Some(r.value)
      ensures r.Err? ==> r.error == if e.id == "" then InvalidId else ExecutionConflict
      ensures forall id | r.Err? || id != e.id :: Current(id) == old(Current(id))
    {
      if e.id == "" {
        return Err(InvalidId);
      }
      if expected == 0 || expected > MAX_VERSION {
        return Err(ExecutionConflict);
      }
      var payload := Marshal(e);
      if e.id !in items || items[e.id].version != expected {
        return Err(ExecutionConflict);
      }
      items := items[e.id := Stored(expected + 1, payload)];
      r := Unmarshal(payload, e.id, expected + 1);
    }
  }

  // ---- Conversation log ----------------------------------------------------------------------

  datatype ContextState = ContextState(data: string, revision: nat)

  datatype Entry = Entry(messages: seq<Message>, revision: nat, lastSequence: nat, contextState: map<string,
                         ContextState>)

  datatype Snapshot = Snapshot(messages: seq<Message>, revision: nat, lastSequence: nat)

  datatype Cursor = Cursor(revision: nat, lastSequence: nat)

  const EMPTY_ENTRY := Entry([], 0, 0, map[])

  class ConversationMemory {
    var data: map<string, Entry>

    ghost predicate Valid()
      reads this
    {
      forall id | id in data :: data[id].lastSequence == |data[id].messages|
    }

    ghost function Log(id: string): seq<Message>
      reads this
    {
      if id in data then data[id].messages else []
    }

    ghost function Revision(id: string): nat
      reads this
    {
      if id in data then data[id].revision else 0
    }

    ghost function State(id: string, key: string): ContextState
      reads this
    {
      if id in data && key in data[id].contextState then data[id].contextState[key] else ContextState("", 0)
    }

    constructor ()
      ensures Valid() && data == map[]
    {
      data := map[];
    }

    /** The contiguous canonical suffix after a sequence number, clamped to the end. */
    method LoadAfter(id: string, after: nat) returns (s: Snapshot)
      requires Valid()
      ensures s.revision == Revision(id) && s.lastSequence == |Log(id)|
      ensures s.messages == Log(id)[(if after > |Log(id)| then |Log(id)| else after)..]
    {
      if id !in data {
        return Snapshot([], 0, 0);
      }
      var entry := data[id];
      var start := after;
      if start > entry.lastSequence {
        start := entry.lastSequence;
      }
      s := Snapshot(entry.messages[start..], entry.revision, entry.lastSequence);
    }

    /** All messages or none, and only at exactly the expected revision. */
    method Append(id: string, msgs: seq<Message>, expected: nat) returns (r: Result<Cursor>)
      requires Valid()
      modifies this
      ensures Valid() && (r.Ok? <==> old(Revision(id)) == expected)
      ensures r.Err? ==> r.error == ConversationConflict && data == old(data)
      ensures r.Ok? ==> Log(id) == old(Log(id)) + msgs && r.value == Cursor(Revision(id), |Log(id)|)
      ensures r.Ok? ==> Revision(id) == expected + if msgs == [] then 0 else 1
      ensures forall other | other != id :: Log(other) == old(Log(other)) && Revision(other) == old(Revision(other))
      ensures forall other, key :: State(other, key) == old(State(other, key))
    {
      var entry := if id in data then data[id] else EMPTY_ENTRY;
      if entry.revision != expected {
        return Err(ConversationConflict);
      }
      if |msgs| == 0 {
        return Ok(Cursor(entry.revision, entry.lastSequence));
      }
      entry := entry.(messages := entry.messages + msgs, lastSequence := entry.lastSequence + |msgs|,
                      revision := entry.revision + 1);
      data := data[id := entry];
      r := Ok(Cursor(entry.revision, entry.lastSequence));
    }

    method LoadContextState(id: string, key: string) returns (s: ContextState)
      ensures s == State(id, key)
    {
      if id in data && key in data[id].contextState {
        return data[id].contextState[key];
      }
      s := ContextState("", 0);
    }

    /** Context state has its own revision per key and never touches the canonical log. */
    method SaveContextState(id: string, key: string, payload: string, validJson: bool, expected: nat)
      returns (r: Result<nat>)
      requires Valid()
      modifies this
      ensures Valid() && (r.Ok? <==> validJson && old(State(id, key)).revision == expected)
      ensures r.Err? ==> data == old(data) && r.error == if validJson then ContextStateConflict else InvalidJson
      ensures r.Ok? ==> r.value == expected + 1 && State(id, key) == ContextState(payload, expected + 1)
      ensures forall other :: Log(other) == old(Log(other)) && Revision(other) == old(Revision(other))
      ensures forall other, k | (other, k) != (id, key) :: State(other, k) == old(State(other, k))
    {
      if !validJson {
        return Err(InvalidJson);
      }
      var entry := if id in data then data[id] else EMPTY_ENTRY;
      var current := if key in entry.contextState then entry.contextState[key] else ContextState("", 0);
      if current.revision != expected {
        return Err(ContextStateConflict);
      }
      current := ContextState(payload, current.revision + 1);
      entry := entry.(contextState := entry.contextState[key := current]);
      data := data[id := entry];
      r := Ok(current.revision);
    }
  }
}
