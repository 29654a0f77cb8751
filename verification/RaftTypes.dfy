// Data carried by the log, the RPCs and one server's state
// (command.cpp, log.cpp, storage.cpp, rcp.cpp and the fields of RaftServer).
module RaftTypes {
  type Byte = x: int | 0 <= x < 256
  type Bytes = seq<Byte>

  /** A node id. Id 0 stands for "nobody" in votedFor and current_leader_id. */
  type Id = nat

  type Store = map<Bytes, Bytes>

  const OP_PUT: Byte := 1
  const OP_DELETE: Byte := 2
  const OP_NOOP: Byte := 3

  /** keyLen and valueLen are the 16-bit length fields; key and value are the strings themselves. */
  datatype Command = Command(operation: Byte, keyLen: nat, valueLen: nat, key: Bytes, value: Bytes)

  /** The in-memory checksum is not part of an entry: nothing reads it after parsing. */
  datatype Entry = Entry(term: nat, index: nat, command: Command)

  datatype Role = Follower | Candidate | Leader

  datatype MetaData = MetaData(currentTerm: nat, votedFor: Id, commitIndex: nat, lastApplied: nat)

  datatype VoteArgs = VoteArgs(term: nat, candidateId: Id, lastLogIndex: nat, lastLogTerm: nat)
  datatype VoteReply = VoteReply(term: nat, voteGranted: bool)

  datatype AppendArgs = AppendArgs(term: nat, leaderId: Id, prevLogIndex: nat, prevLogTerm: nat,
                                   entries: seq<Entry>, leaderCommit: nat)
  datatype AppendReply = AppendReply(term: nat, success: bool)

  /** One server: the durable metadata and log, and the volatile rest. */
  datatype Node = Node(role: Role, meta: MetaData, log: seq<Entry>, store: Store,
                       votesReceived: nat, leaderId: Id,
                       nextIndex: map<Id, nat>, matchIndex: map<Id, nat>)

  /** What a client is told. */
  datatype Answer =
    | UnknownLeader
    | NotLeader(leaderId: Id)
    | ShuttingDown
    | CommitTimeout
    | Done(index: nat, term: nat)
    | Value(value: Bytes)
    | NotFound

  /** What becomes of a client's command: a redirect, or an entry to wait for. */
  datatype Proposal = Refused(answer: Answer) | Pending(entry: Entry)

  const NOOP_COMMAND := Command(OP_NOOP, 0, 0, [], [])

  function Max(a: nat, b: nat): nat { if a < b then b else a }

  function Min(a: nat, b: nat): nat { if a < b then a else b }

  /** A C++ map read through operator[]: a missing key reads as 0. */
  function At(m: map<Id, nat>, p: Id): nat { if p in m then m[p] else 0 }

  /** KVStateMachine::apply. */
  function Apply(s: Store, c: Command): Store {
    if c.operation == OP_PUT then s[c.key := c.value]
    else if c.operation == OP_DELETE then s - {c.key}
    else s
  }

  /** The state machine after a whole log prefix. */
  function Replay(log: seq<Entry>): Store {
    if log == [] then map[] else Apply(Replay(log[..|log| - 1]), log[|log| - 1].command)
  }

  function Majority(clusterSize: nat): nat { clusterSize / 2 + 1 }

  /** A majority is more than half, and nothing less than more than half is one. */
  lemma MajorityIsMoreThanHalf(clusterSize: nat, k: nat)
    ensures k >= Majority(clusterSize) <==> 2 * k > clusterSize
  {
  }
}
