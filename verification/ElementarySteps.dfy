// The elementary changes events are composed of. Each changes one thing and is
// proved to keep every invariant on its own, which also covers a crash between
// any two durable writes of a critical section.
module ElementarySteps {
  import opened RaftTypes
  import opened RaftNode
  import opened Cluster
  import opened Invariants

  /** Becoming or staying a follower with log and commitment untouched: stepping down, recognizing a leader,
      restarting. */
  ghost predicate Retreats(a: Node, b: Node) {
    && b.role == Follower && b.log == a.log && b.store == a.store
    && b.meta.commitIndex == a.meta.commitIndex && b.meta.lastApplied == a.meta.lastApplied
    && ((b.meta.currentTerm == a.meta.currentTerm && b.meta.votedFor == a.meta.votedFor)
        || (b.meta.currentTerm > a.meta.currentTerm && b.meta.votedFor == 0))
  }

  /** Starting an election, with the vote for itself. */
  function Candidacy(c: State, n: Id): State
    requires n in c.nodes
  {
    RecordVote(PutNode(c, n, StartElection(c.nodes[n], n)), c.nodes[n].meta.currentTerm + 1, n, n, c.nodes[n].log)
  }

  ghost predicate MayVote(c: State, n: Id, args: VoteArgs) {
    && n in c.nodes && args.term == Term(c, n) && Grants(c.nodes[n], args)
    && args.candidateId != 0 && args.candidateId in c.nodes && args.term <= Term(c, args.candidateId)
  }

  function Voted(c: State, n: Id, args: VoteArgs): State
    requires n in c.nodes
  {
    RecordVote(PutNode(c, n, CastVote(c.nodes[n], args)), args.term, n, args.candidateId, c.nodes[n].log)
  }

  /** Counting the vote on connection i. */
  function Counted(c: State, i: nat): State
    requires ToCollectVote(c, i)
  {
    var r := c.voteRpcs[i];
    MarkVote(PutNode(c, r.src, CountVote(c.nodes[r.src])), i, Taken(r.status.reply))
  }

  ghost predicate Elected(c: State, n: Id) {
    n in c.nodes && c.nodes[n].role == Candidate && c.nodes[n].votesReceived >= Quorum(c)
  }

  function InOffice(c: State, n: Id): State
    requires n in c.nodes
  {
    EnterReign(PutNode(c, n, TakeOffice(c.nodes[n], n, Peers(c, n))), n,
               Supporters(c.voteRpcs, n, c.nodes[n].meta.currentTerm))
  }

  function Appended(c: State, n: Id, command: Command): State
    requires n in c.nodes
  {
    ExtendReign(PutNode(c, n, Append(c.nodes[n], command)), n)
  }

  ghost predicate MayAccept(c: State, i: nat) {
    && i < |c.appendRpcs|
    && var r := c.appendRpcs[i];
    && r.dst in c.nodes && c.nodes[r.dst].role == Follower && Term(c, r.dst) == r.args.term
    && PrevMatches(c.nodes[r.dst].log, r.args)
  }

  /** Storing the entries of connection i. */
  function Accepted(c: State, i: nat): State
    requires MayAccept(c, i)
  {
    var r := c.appendRpcs[i];
    RecordAck(PutNode(c, r.dst, StoreEntries(c.nodes[r.dst], r.args)), r.args.term, r.dst,
              r.args.prevLogIndex + |r.args.entries|)
  }

  function CommittedTo(c: State, n: Id, index: nat): State
    requires n in c.nodes
  {
    PutNode(c, n, CommitTo(c.nodes[n], index))
  }
}
