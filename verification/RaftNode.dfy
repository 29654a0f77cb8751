// What each critical section under raft_mutex does to one server, as functions
// on its state. RaftServer proves its methods against these functions, and the
// cluster takes its steps with them.
module RaftNode {
  import opened RaftTypes

  function LastIndex(log: seq<Entry>): nat {
    if log == [] then 0 else log[|log| - 1].index
  }

  function LastTerm(log: seq<Entry>): nat {
    if log == [] then 0 else log[|log| - 1].term
  }

  /** Term of the entry at a 1-based index; 0 for the sentinel and past the end. */
  function TermAt(log: seq<Entry>, index: nat): nat {
    if index == 0 || index > |log| then 0 else log[index - 1].term
  }

  function StepDown(n: Node, term: nat): Node {
    n.(role := Follower, meta := n.meta.(currentTerm := term, votedFor := 0), leaderId := 0)
  }

  // ---- applying and committing ------------------------------------------

  function ReplayFrom(s: Store, log: seq<Entry>, lo: nat, hi: nat): Store
    requires lo <= hi <= |log|
    decreases hi
  {
    if lo == hi then s else Apply(ReplayFrom(s, log, lo, hi - 1), log[hi - 1].command)
  }

  /** Apply everything committed that the log holds. */
  function ApplyCommitted(n: Node): Node {
    var upTo := Min(n.meta.commitIndex, |n.log|);
    if upTo <= n.meta.lastApplied then n
    else n.(store := ReplayFrom(n.store, n.log, n.meta.lastApplied, upTo),
            meta := n.meta.(lastApplied := upTo))
  }

  /** Exactly the committed part of the log is applied. */
  ghost predicate NodeApplied(n: Node) {
    && n.meta.lastApplied == n.meta.commitIndex <= |n.log|
    && n.store == Replay(n.log[..n.meta.commitIndex])
  }

  function CommitTo(n: Node, index: nat): Node {
    ApplyCommitted(n.(meta := n.meta.(commitIndex := index)))
  }

  /** The peers known to hold the log up to index, as the leader sees it. */
  function Replicas(peers: seq<Id>, matchIndex: map<Id, nat>, index: nat): set<Id> {
    set p | p in peers && At(matchIndex, p) >= index
  }

  /** Counting peers one by one counts the replicas. */
  lemma LastReplica(peers: seq<Id>, matchIndex: map<Id, nat>, index: nat)
    requires peers != [] && forall i :: 0 <= i < |peers| - 1 ==> peers[i] != peers[|peers| - 1]
    ensures var rest, p := peers[..|peers| - 1], peers[|peers| - 1];
            |Replicas(peers, matchIndex, index)| ==
                |Replicas(rest, matchIndex, index)| + if At(matchIndex, p) >= index then 1 else 0
  {
    var rest, p := peers[..|peers| - 1], peers[|peers| - 1];
    assert peers == rest + [p];
    assert Replicas(peers, matchIndex, index) ==
           Replicas(rest, matchIndex, index) + if At(matchIndex, p) >= index then {p} else {};
  }

  /** An index the leader may commit by counting replicas. */
  predicate Committable(n: Node, peers: seq<Id>, index: nat) {
    && TermAt(n.log, index) == n.meta.currentTerm
    && 1 + |Replicas(peers, n.matchIndex, index)| >= Majority(|peers| + 1)
  }

  /** The highest committable index in (commitIndex, from], or commitIndex if there is none. */
  function CommitTarget(n: Node, peers: seq<Id>, from: nat): (r: nat)
    ensures r == n.meta.commitIndex || (n.meta.commitIndex < r <= from && Committable(n, peers, r))
    ensures forall i :: r < i <= from && n.meta.commitIndex < i ==> !Committable(n, peers, i)
    decreases from
  {
    if from <= n.meta.commitIndex then n.meta.commitIndex
    else if Committable(n, peers, from) then from
    else CommitTarget(n, peers, from - 1)
  }

  function AdvanceCommit(n: Node, peers: seq<Id>): Node {
    if n.role != Leader then n
    else
      var target := CommitTarget(n, peers, LastIndex(n.log));
      if target > n.meta.commitIndex then CommitTo(n, target) else n
  }

  // ---- leadership ---------------------------------------------------------

  function NextEntry(n: Node, command: Command): Entry {
    Entry(n.meta.currentTerm, LastIndex(n.log) + 1, command)
  }

  function Append(n: Node, command: Command): Node {
    n.(log := n.log + [NextEntry(n, command)])
  }

  /** m with every peer, in the order of the list, set to v. */
  function AssignAll(m: map<Id, nat>, peers: seq<Id>, v: nat): (r: map<Id, nat>)
    ensures forall p :: p in r <==> p in m || p in peers
    ensures forall p :: p in r ==> r[p] == if p in peers then v else m[p]
  {
    if peers == [] then m
    else AssignAll(m, peers[..|peers| - 1], v)[peers[|peers| - 1] := v]
  }

  /** becomeLeader up to its durable log write, before it tries to commit. */
  function TakeOffice(n: Node, self: Id, peers: seq<Id>): Node {
    var led := Append(n.(role := Leader, leaderId := self), NOOP_COMMAND);
    led.(nextIndex := AssignAll(n.nextIndex, peers, LastIndex(led.log) + 1),
         matchIndex := AssignAll(n.matchIndex, peers, 0))
  }

  function BecomeLeader(n: Node, self: Id, peers: seq<Id>): Node {
    AdvanceCommit(TakeOffice(n, self, peers), peers)
  }

  function StartElection(n: Node, self: Id): Node {
    n.(role := Candidate,
       meta := n.meta.(currentTerm := n.meta.currentTerm + 1, votedFor := self),
       leaderId := 0, votesReceived := 1)
  }

  /** The election timer firing on a server that does not lead. */
  function OnTimeout(n: Node, self: Id, peers: seq<Id>): Node {
    var candidate := StartElection(n, self);
    if Majority(|peers| + 1) <= 1 then BecomeLeader(candidate, self, peers) else candidate
  }

  /** The arguments of the broadcast, read from whatever state holds when the lock is retaken. */
  function RequestVotes(n: Node, self: Id): VoteArgs {
    VoteArgs(n.meta.currentTerm, self, LastIndex(n.log), LastTerm(n.log))
  }

  // ---- RequestVote ----------------------------------------------------------

  /** The election restriction: the candidate's log is at least as up to date as ours. */
  predicate UpToDate(lastLogTerm: nat, lastLogIndex: nat, log: seq<Entry>) {
    lastLogTerm > LastTerm(log) || (lastLogTerm == LastTerm(log) && lastLogIndex >= LastIndex(log))
  }

  /** Steps 1 and 2 of both handlers: a higher term is adopted with the vote cleared. */
  function Adopt(n: Node, term: nat): Node {
    if term > n.meta.currentTerm then StepDown(n, term) else n
  }

  predicate Grants(n: Node, args: VoteArgs) {
    && (n.meta.votedFor == 0 || n.meta.votedFor == args.candidateId)
    && UpToDate(args.lastLogTerm, args.lastLogIndex, n.log)
  }

  function CastVote(n: Node, args: VoteArgs): Node {
    n.(meta := n.meta.(votedFor := args.candidateId))
  }

  function HandleRequestVote(n: Node, args: VoteArgs): (Node, VoteReply) {
    if args.term < n.meta.currentTerm then (n, VoteReply(n.meta.currentTerm, false))
    else
      var a := Adopt(n, args.term);
      if Grants(a, args) then (CastVote(a, args), VoteReply(a.meta.currentTerm, true))
      else (a, VoteReply(a.meta.currentTerm, false))
  }

  predicate CountsVote(n: Node, electionTerm: nat, reply: VoteReply) {
    && reply.term <= n.meta.currentTerm
    && n.role == Candidate && n.meta.currentTerm == electionTerm
    && reply.voteGranted
  }

  function CountVote(n: Node): Node { n.(votesReceived := n.votesReceived + 1) }

  function OnVoteReply(n: Node, self: Id, peers: seq<Id>, electionTerm: nat, reply: VoteReply): Node {
    if reply.term > n.meta.currentTerm then StepDown(n, reply.term)
    else if !CountsVote(n, electionTerm, reply) then n
    else if n.votesReceived + 1 >= Majority(|peers| + 1) then BecomeLeader(CountVote(n), self, peers)
    else CountVote(n)
  }

  // ---- AppendEntries ---------------------------------------------------------

  /** Step 2: the sender leads args.term. */
  function Recognize(n: Node, args: AppendArgs): Node {
    var meta := if args.term > n.meta.currentTerm
                then n.meta.(currentTerm := args.term, votedFor := 0) else n.meta;
    n.(role := Follower, meta := meta, leaderId := args.leaderId)
  }

  /** Step 3. */
  predicate PrevMatches(log: seq<Entry>, args: AppendArgs) {
    args.prevLogIndex > 0 ==>
      args.prevLogIndex <= |log| && TermAt(log, args.prevLogIndex) == args.prevLogTerm
  }

  /** How many of entries, to be stored after position prev, the log already holds in order. */
  function AlreadyPresent(log: seq<Entry>, prev: nat, entries: seq<Entry>): (k: nat)
    ensures k <= |entries|
    ensures prev <= |log| ==> prev + k <= |log|
    ensures prev <= |log| ==> forall j :: 0 <= j < k ==> log[prev + j].term == entries[j].term
    ensures prev <= |log| && k < |entries| && prev + k < |log| ==> log[prev + k].term != entries[k].term
    decreases |entries|
  {
    if entries == [] || prev >= |log| || log[prev].term != entries[0].term then 0
    else 1 + AlreadyPresent(log, prev + 1, entries[1..])
  }

  /** Steps 4 and 5: keep what is present, and from the first conflicting or missing entry on take the leader's. */
  function Reconcile(log: seq<Entry>, prev: nat, entries: seq<Entry>): seq<Entry>
    requires prev <= |log|
  {
    var k := AlreadyPresent(log, prev, entries);
    if k == |entries| then log else log[..prev + k] + entries[k..]
  }

  /** Step 6. */
  function CommitFrom(n: Node, args: AppendArgs): Node {
    var target := Min(Min(args.leaderCommit, args.prevLogIndex + |args.entries|), LastIndex(n.log));
    if args.leaderCommit > n.meta.commitIndex && target > n.meta.commitIndex
    then CommitTo(n, target) else n
  }

  function StoreEntries(n: Node, args: AppendArgs): Node
    requires args.prevLogIndex <= |n.log|
  {
    n.(log := Reconcile(n.log, args.prevLogIndex, args.entries))
  }

  function HandleAppendEntries(n: Node, args: AppendArgs): (Node, AppendReply) {
    if args.term < n.meta.currentTerm then (n, AppendReply(n.meta.currentTerm, false))
    else
      var f := Recognize(n, args);
      if !PrevMatches(f.log, args) then (f, AppendReply(f.meta.currentTerm, false))
      else (CommitFrom(StoreEntries(f, args), args), AppendReply(f.meta.currentTerm, true))
  }

  // ---- replication --------------------------------------------------------------

  function BuildAppend(n: Node, self: Id, peer: Id): AppendArgs {
    var ni := Max(At(n.nextIndex, peer), 1);
    AppendArgs(n.meta.currentTerm, self, ni - 1, TermAt(n.log, ni - 1),
               if ni - 1 <= |n.log| then n.log[ni - 1..] else [], n.meta.commitIndex)
  }

  function Progress(n: Node, peer: Id, matched: nat): Node {
    var m := Max(At(n.matchIndex, peer), matched);
    n.(matchIndex := n.matchIndex[peer := m], nextIndex := n.nextIndex[peer := m + 1])
  }

  function Backtrack(n: Node, peer: Id): Node {
    if At(n.nextIndex, peer) > 1
    then n.(nextIndex := n.nextIndex[peer := At(n.nextIndex, peer) - 1]) else n
  }

  function RecordReply(n: Node, peers: seq<Id>, peer: Id, matched: nat, success: bool): Node {
    if success then AdvanceCommit(Progress(n, peer, matched), peers) else Backtrack(n, peer)
  }

  /** The reply to the AppendEntries that probed args.prevLogIndex and carried args.entries. */
  function OnAppendReply(n: Node, peers: seq<Id>, peer: Id, args: AppendArgs, reply: AppendReply): Node {
    if reply.term > n.meta.currentTerm then StepDown(n, reply.term)
    else if n.role != Leader || n.meta.currentTerm != args.term then n
    else RecordReply(n, peers, peer, args.prevLogIndex + |args.entries|, reply.success)
  }

  /** A reply that does not end the term is for a leader of the past, or recorded. */
  lemma ReplyIs(n: Node, peers: seq<Id>, peer: Id, args: AppendArgs, reply: AppendReply)
    requires reply.term <= n.meta.currentTerm
    ensures var m := OnAppendReply(n, peers, peer, args, reply);
            m == n || m == RecordReply(n, peers, peer, args.prevLogIndex + |args.entries|, reply.success)
  {
  }

  // ---- clients --------------------------------------------------------------------

  /** proposeAndWait up to the wait, on a leader. */
  function Propose(n: Node, peers: seq<Id>, command: Command): Node {
    AdvanceCommit(Append(n, command), peers)
  }

  /** The condition under which proposeAndWait reports success for the entry it put at index. */
  predicate Acknowledges(n: Node, index: nat) {
    n.role == Leader && n.meta.commitIndex >= index
  }

  function Redirect(n: Node): Answer {
    if n.leaderId == 0 then UnknownLeader else NotLeader(n.leaderId)
  }

  function Read(s: Store, key: Bytes): Answer {
    if key in s then Value(s[key]) else NotFound
  }

  /** What the waiting client thread of entry e says when it stops waiting; a GET has put a marker in the log. */
  function Conclude(n: Node, running: bool, e: Entry, isRead: bool, key: Bytes): Answer {
    if !running then ShuttingDown
    else if !Acknowledges(n, e.index) then (if n.role != Leader then Redirect(n) else CommitTimeout)
    else if isRead then Read(n.store, key)
    else Done(e.index, e.term)
  }

  // ---- crash and recovery -------------------------------------------------------------

  /** What recover rebuilds from durable metadata and log. */
  function Recovered(meta: MetaData, log: seq<Entry>): Node {
    var commit := Min(meta.commitIndex, |log|);
    Node(Follower, meta.(commitIndex := commit, lastApplied := commit), log, Replay(log[..commit]),
         0, 0, map[], map[])
  }

  function Restart(n: Node): Node { Recovered(n.meta, n.log) }

  // ---- durable writes: the state after each, for a crash to fall between ------------------

  function AdvanceWrites(n: Node, peers: seq<Id>): seq<Node> {
    if n.role == Leader && CommitTarget(n, peers, LastIndex(n.log)) > n.meta.commitIndex
        then [AdvanceCommit(n, peers)] else []
  }

  function LeaderWrites(n: Node, self: Id, peers: seq<Id>): seq<Node> {
    [TakeOffice(n, self, peers)] + AdvanceWrites(TakeOffice(n, self, peers), peers)
  }

  function TimeoutWrites(n: Node, self: Id, peers: seq<Id>): seq<Node> {
    [StartElection(n, self)] + if Majority(|peers| + 1) <= 1
        then LeaderWrites(StartElection(n, self), self, peers) else []
  }

  function VoteWrites(n: Node, args: VoteArgs): seq<Node> {
    if args.term < n.meta.currentTerm then []
    else
      var a := Adopt(n, args.term);
      (if args.term > n.meta.currentTerm then [a] else []) + if Grants(a, args) then [CastVote(a, args)] else []
  }

  function VoteReplyWrites(n: Node, self: Id, peers: seq<Id>, electionTerm: nat, reply: VoteReply): seq<Node> {
    if reply.term > n.meta.currentTerm then [StepDown(n, reply.term)]
    else if CountsVote(n, electionTerm, reply) && n.votesReceived + 1 >= Majority(|peers| + 1)
    then LeaderWrites(CountVote(n), self, peers)
    else []
  }

  function StoreWrites(n: Node, args: AppendArgs): seq<Node>
    requires args.prevLogIndex <= |n.log|
  {
    if AlreadyPresent(n.log, args.prevLogIndex, args.entries) < |args.entries| then [StoreEntries(n, args)] else []
  }

  function CommitWrites(n: Node, args: AppendArgs): seq<Node> {
    if CommitFrom(n, args).meta.commitIndex > n.meta.commitIndex then [CommitFrom(n, args)] else []
  }

  function AppendWrites(n: Node, args: AppendArgs): seq<Node> {
    if args.term < n.meta.currentTerm then []
    else
      var f := Recognize(n, args);
      (if args.term > n.meta.currentTerm then [f] else [])
      + if PrevMatches(f.log, args) then StoreWrites(f, args) + CommitWrites(StoreEntries(f, args), args) else []
  }

  function AppendReplyWrites(n: Node, peers: seq<Id>, peer: Id, args: AppendArgs, reply: AppendReply): seq<Node> {
    if reply.term > n.meta.currentTerm then [StepDown(n, reply.term)]
    else if n.role == Leader && n.meta.currentTerm == args.term && reply.success
    then AdvanceWrites(Progress(n, peer, args.prevLogIndex + |args.entries|), peers)
    else []
  }

  function ProposeWrites(n: Node, peers: seq<Id>, command: Command): seq<Node> {
    [Append(n, command)] + AdvanceWrites(Append(n, command), peers)
  }
}
