// The invariants of the cluster, grouped by what they protect. Each is kept by
// every elementary change to the cluster (module names ...Kept), and every event
// is a composition of elementary changes (module Runs).
module Invariants {
  import opened RaftTypes
  import opened RaftNode
  import opened Cluster

  function Term(c: State, n: Id): nat requires n in c.nodes { c.nodes[n].meta.currentTerm }

  function LogOf(c: State, t: nat): seq<Entry> requires t in c.reigns { c.reigns[t].log }

  /** The first k entries of both logs exist and are the same. */
  ghost predicate Shares(a: seq<Entry>, b: seq<Entry>, k: int) {
    k <= |a| && k <= |b| && forall j :: 0 <= j < k ==> a[j] == b[j]
  }

  /** Position (t, i) of a log, the term and index of its last entry, lies above position (u, j). */
  ghost predicate Above(t: nat, i: nat, u: nat, j: nat) {
    t > u || (t == u && i > j)
  }

  // ---- votes and elections -----------------------------------------------------

  /** v has reached term t, and while it is in t its votedFor is the recorded vote. */
  ghost predicate VoteRecorded(c: State, t: nat, v: Id, vote: Vote) {
    && v in c.nodes && t <= Term(c, v) && vote.candidate != 0
    && vote.candidate in c.nodes && t <= Term(c, vote.candidate)
    && (t == Term(c, v) ==> c.nodes[v].meta.votedFor == vote.candidate)
  }

  ghost predicate VotesRecorded(c: State) {
    && (forall t, v {:trigger VoteRecorded(c, t, v, c.votes[(t, v)])} ::
          (t, v) in c.votes ==> VoteRecorded(c, t, v, c.votes[(t, v)]))
    && (forall n :: n in c.nodes && c.nodes[n].role != Follower ==> VotedFor(c, Term(c, n), n, n))
  }

  ghost predicate VotedFor(c: State, t: nat, v: Id, candidate: Id) {
    (t, v) in c.votes && c.votes[(t, v)].candidate == candidate
  }

  ghost predicate VoteRpcOk(c: State, r: VoteRpc) {
    && r.src in c.nodes && r.dst in c.nodes && r.src != r.dst && r.args.candidateId == r.src
    && r.args.term <= Term(c, r.src)
    && (r.src in c.broadcasting ==> r.args.term < Term(c, r.src))
    && ((r.status.Answered? || r.status.Taken?) && r.status.reply.voteGranted ==>
          VotedFor(c, r.args.term, r.dst, r.src))
  }

  /** At most one request per candidacy and voter ever exists, and a granted reply is a durable vote. */
  ghost predicate VoteRpcsOk(c: State) {
    && (forall i {:trigger VoteRpcOk(c, c.voteRpcs[i])} :: 0 <= i < |c.voteRpcs| ==> VoteRpcOk(c, c.voteRpcs[i]))
    && (forall i, j {:trigger DistinctRequests(c.voteRpcs[i], c.voteRpcs[j])} ::
          0 <= i < j < |c.voteRpcs| ==> DistinctRequests(c.voteRpcs[i], c.voteRpcs[j]))
  }

  predicate DistinctRequests(q: VoteRpc, r: VoteRpc) {
    q.src != r.src || q.args.term != r.args.term || q.dst != r.dst
  }

  /** votes_received counts distinct servers that voted durably. */
  ghost predicate VotesCounted(c: State) {
    forall n :: n in c.nodes && c.nodes[n].role == Candidate ==>
      c.nodes[n].votesReceived == |Supporters(c.voteRpcs, n, Term(c, n))|
  }

  /** The leader of term t was elected by a quorum of durable votes and is not running in t any more. */
  ghost predicate ReignElected(c: State, t: nat, r: Reign) {
    && r.leader in c.nodes && t <= Term(c, r.leader)
    && (t == Term(c, r.leader) ==> c.nodes[r.leader].role != Candidate)
    && r.quorum <= c.members && |r.quorum| >= Quorum(c)
    && (forall v :: v in r.quorum ==> VotedFor(c, t, v, r.leader))
  }

  ghost predicate InReign(c: State, n: Id)
    requires n in c.nodes
  {
    c.nodes[n].role == Leader ==> Term(c, n) in c.reigns && c.reigns[Term(c, n)].leader == n
  }

  ghost predicate ReignsElected(c: State) {
    && (forall t {:trigger ReignElected(c, t, c.reigns[t])} :: t in c.reigns ==> ReignElected(c, t, c.reigns[t]))
    && (forall n {:trigger InReign(c, n)} :: n in c.nodes ==> InReign(c, n))
  }

  ghost predicate ElectionInv(c: State) {
    Shape(c) && VotesRecorded(c) && VoteRpcsOk(c) && VotesCounted(c) && ReignsElected(c)
  }

  // ---- logs -----------------------------------------------------------------------

  /** Up to any entry of term t, the log is the log of the leader of t. */
  ghost predicate Matches(c: State, log: seq<Entry>) {
    forall i :: 0 <= i < |log| ==> log[i].term in c.reigns && Shares(log, LogOf(c, log[i].term), i + 1)
  }

  /** Indices count from 1, terms never decrease and stay within (0, top]. */
  ghost predicate WellNumbered(log: seq<Entry>, top: nat) {
    && (forall i :: 0 <= i < |log| ==> log[i].index == i + 1 && log[i].term <= top)
    && (forall i, j :: 0 <= i < j < |log| ==> log[i].term <= log[j].term)
  }

  ghost predicate LogsOk(c: State) {
    && (forall n :: n in c.nodes ==> Matches(c, c.nodes[n].log) && WellNumbered(c.nodes[n].log, Term(c, n)))
    && (forall t :: t in c.reigns ==> Matches(c, LogOf(c, t)) && WellNumbered(LogOf(c, t), t))
  }

  ghost predicate ReignOk(t: nat, r: Reign) {
    && r.base < |r.log| && r.log[|r.log| - 1].term == t
    && forall j :: 0 <= j < r.base ==> r.log[j].term < t
  }

  ghost predicate ReignsOk(c: State) {
    && (forall t {:trigger ReignOk(t, c.reigns[t])} :: t in c.reigns ==> ReignOk(t, c.reigns[t]))
    && (forall n :: n in c.nodes && c.nodes[n].role == Leader && Term(c, n) in c.reigns ==>
          c.nodes[n].log == LogOf(c, Term(c, n)))
  }

  /** The entries of an AppendEntries are a slice of its term's leader log, and so is what precedes them. */
  ghost predicate SliceOf(log: seq<Entry>, a: AppendArgs) {
    && a.prevLogIndex + |a.entries| <= |log|
    && a.entries == log[a.prevLogIndex..a.prevLogIndex + |a.entries|]
    && a.prevLogTerm == TermAt(log, a.prevLogIndex)
  }

  ghost predicate AppendRpcOk(c: State, r: AppendRpc) {
    && r.src in c.nodes && r.dst in c.nodes && r.src != r.dst
    && r.args.term in c.reigns && r.args.leaderId == r.src == c.reigns[r.args.term].leader
    && r.args.term <= Term(c, r.src)
    && SliceOf(LogOf(c, r.args.term), r.args)
  }

  ghost predicate AppendRpcsOk(c: State) {
    forall i {:trigger AppendRpcOk(c, c.appendRpcs[i])} :: 0 <= i < |c.appendRpcs| ==> AppendRpcOk(c, c.appendRpcs[i])
  }

  ghost predicate LogInv(c: State) {
    LogsOk(c) && ReignsOk(c) && AppendRpcsOk(c)
  }

  // ---- what voters and followers hold ---------------------------------------------------

  /** v stored the first k entries of the leader log of t while in term t. */
  ghost predicate Stored(c: State, t: nat, v: Id, k: nat) {
    (t, v) in c.acked && k <= c.acked[(t, v)]
  }

  ghost predicate AckOk(c: State, t: nat, v: Id, k: nat) {
    v in c.nodes && t in c.reigns && t <= Term(c, v) && k <= |LogOf(c, t)|
  }

  ghost predicate AcksOk(c: State) {
    && (forall t, v :: (t, v) in c.acked ==> AckOk(c, t, v, c.acked[(t, v)]))
    && (forall n :: n in c.nodes && c.nodes[n].role == Leader ==> Stored(c, Term(c, n), n, |c.nodes[n].log|))
  }

  /** Every leader after term t, up to term hi, has the first k entries of the leader log of t. */
  ghost predicate Carried(c: State, t: nat, k: nat, hi: int)
    requires t in c.reigns
  {
    forall u :: t < u <= hi && u in c.reigns ==> Shares(LogOf(c, u), LogOf(c, t), k)
  }

  /** What was stored is still there, unless some later leader lacked it. */
  ghost predicate StoredKept(c: State)
    requires AcksOk(c)
  {
    forall t: nat, v: Id, k: nat :: Stored(c, t, v, k) && Carried(c, t, k, Term(c, v)) ==>
      Shares(c.nodes[v].log, LogOf(c, t), k)
  }

  /** The vote could have decided its election. */
  ghost predicate Counts(c: State, t: nat, v: Id) {
    (t, v) in c.votes && (t !in c.reigns || v in c.reigns[t].quorum)
  }

  /** The same for the log a voter had when it voted in term u. */
  ghost predicate VotersKept(c: State)
    requires AcksOk(c)
  {
    forall u: nat, t: nat, v: Id, k: nat ::
      Counts(c, u, v) && t < u && Stored(c, t, v, k) && Carried(c, t, k, u - 1) ==>
      Shares(c.votes[(u, v)].log, LogOf(c, t), k)
  }

  ghost predicate VoteLogsOk(c: State) {
    forall u, v :: (u, v) in c.votes ==> WellNumbered(c.votes[(u, v)].log, u)
  }

  ghost predicate Newer(log: seq<Entry>, voterLog: seq<Entry>) {
    UpToDate(LastTerm(log), |log|, voterLog)
  }

  /** A candidate's requests carry its log position. */
  ghost predicate RequestsFair(c: State) {
    forall i {:trigger Advertises(c, c.voteRpcs[i])} :: 0 <= i < |c.voteRpcs| ==> Advertises(c, c.voteRpcs[i])
  }

  /** Whoever voted for a candidate had a log no more up to date than the candidate's. */
  ghost predicate VotesFair(c: State) {
    forall u, v {:trigger Restricted(c, u, c.votes[(u, v)])} :: (u, v) in c.votes ==> Restricted(c, u, c.votes[(u, v)])
  }

  ghost predicate ElectionsFair(c: State) {
    forall u {:trigger ElectorsOlder(c, u, c.reigns[u])} :: u in c.reigns ==> ElectorsOlder(c, u, c.reigns[u])
  }

  ghost predicate ElectorsOlder(c: State, u: nat, r: Reign) {
    && r.base <= |r.log|
    && forall v :: v in r.quorum && (u, v) in c.votes ==> Newer(r.log[..r.base], c.votes[(u, v)].log)
  }

  ghost predicate Advertises(c: State, r: VoteRpc) {
    r.src in c.nodes && c.nodes[r.src].role == Candidate && Term(c, r.src) == r.args.term ==>
      r.args.lastLogIndex == |c.nodes[r.src].log| && r.args.lastLogTerm == LastTerm(c.nodes[r.src].log)
  }

  ghost predicate Restricted(c: State, u: nat, vote: Vote) {
    vote.candidate in c.nodes && c.nodes[vote.candidate].role == Candidate && Term(c, vote.candidate) == u ==>
      Newer(c.nodes[vote.candidate].log, vote.log)
  }

  ghost predicate StorageInv(c: State) {
    AcksOk(c) && StoredKept(c) && VotersKept(c) && VoteLogsOk(c)
    && RequestsFair(c) && VotesFair(c) && ElectionsFair(c)
  }

  // ---- commitment ---------------------------------------------------------------------------

  /** The servers that stored the leader log of t up to k. */
  ghost function Holders(c: State, t: nat, k: nat): set<Id> {
    set v | v in c.members && Stored(c, t, v, k)
  }

  /** A quorum stored the leader log of t up to k, an entry of that term, during the term. */
  ghost predicate Committed(c: State, t: nat, k: nat) {
    && t in c.reigns && 0 < k <= |LogOf(c, t)| && LogOf(c, t)[k - 1].term == t
    && |Holders(c, t, k)| >= Quorum(c)
  }

  ghost predicate CommittedBy(c: State, log: seq<Entry>, k: nat, t: nat, m: nat) {
    k <= m && Committed(c, t, m) && Shares(log, LogOf(c, t), k)
  }

  /** The first k entries of log are committed, by a term no later than top. */
  ghost predicate CommittedPrefix(c: State, log: seq<Entry>, k: nat, top: nat) {
    k == 0 || exists t: nat, m: nat :: t <= top && CommittedBy(c, log, k, t, m)
  }

  ghost predicate CommitInv(c: State) {
    && (forall n :: n in c.nodes ==> NodeApplied(c.nodes[n]))
    && (forall n :: n in c.nodes ==> CommittedPrefix(c, c.nodes[n].log, c.nodes[n].meta.commitIndex, Term(c, n)))
    && (forall i {:trigger CommitRpcOk(c, c.appendRpcs[i].args)} ::
          0 <= i < |c.appendRpcs| ==> CommitRpcOk(c, c.appendRpcs[i].args))
  }

  ghost predicate CommitRpcOk(c: State, a: AppendArgs) {
    a.term in c.reigns && CommittedPrefix(c, LogOf(c, a.term), a.leaderCommit, a.term)
  }

  // ---- the leader's bookkeeping ---------------------------------------------------------------

  ghost predicate PeerTracked(c: State, n: Id, p: Id)
    requires n in c.nodes
  {
    && p in c.nodes[n].matchIndex && p in c.nodes[n].nextIndex
    && c.nodes[n].matchIndex[p] < c.nodes[n].nextIndex[p] <= |c.nodes[n].log| + 1
    && c.nodes[n].matchIndex[p] <= Acked(c, Term(c, n), p)
  }

  ghost predicate Awaited(c: State, i: nat) {
    && i < |c.appendRpcs| && Newest(c.appendRpcs, i) && !c.appendRpcs[i].status.Taken?
    && var r := c.appendRpcs[i];
    && r.src in c.nodes && c.nodes[r.src].role == Leader && Term(c, r.src) == r.args.term
  }

  /** The connection a leader waits on probes just below nextIndex, and a mismatch lies above matchIndex. */
  ghost predicate ProbeOk(n: Node, r: AppendRpc) {
    && r.args.prevLogIndex + 1 == At(n.nextIndex, r.dst)
    && (Mismatched(r) ==> At(n.matchIndex, r.dst) < r.args.prevLogIndex)
  }

  predicate Mismatched(r: AppendRpc) {
    r.status.Answered? && !r.status.reply.success && r.status.reply.term == r.args.term
  }

  ghost predicate RepliesOk(c: State, r: AppendRpc) {
    (r.status.Answered? || r.status.Taken?) ==> ReplyOk(c, r, r.status.reply)
  }

  ghost predicate ReplyOk(c: State, r: AppendRpc, reply: AppendReply) {
    && reply.term >= r.args.term
    && (reply.success ==> r.args.prevLogIndex + |r.args.entries| <= Acked(c, r.args.term, r.dst))
  }

  ghost predicate AllTracked(c: State) {
    forall n, p :: n in c.nodes && c.nodes[n].role == Leader && p in Peers(c, n) ==> PeerTracked(c, n, p)
  }

  ghost predicate ProbesOk(c: State) {
    forall i: nat :: Awaited(c, i) ==> ProbeOk(c.nodes[c.appendRpcs[i].src], c.appendRpcs[i])
  }

  ghost predicate AllRepliesOk(c: State) {
    forall i {:trigger RepliesOk(c, c.appendRpcs[i])} :: 0 <= i < |c.appendRpcs| ==> RepliesOk(c, c.appendRpcs[i])
  }

  ghost predicate ProgressInv(c: State) {
    AllTracked(c) && ProbesOk(c) && AllRepliesOk(c)
  }

  datatype Concern = Voting | Logging | Storing | Committing | Tracking

  ghost predicate Kept(c: State, concern: Concern) {
    match concern
    case Voting => ElectionInv(c)
    case Logging => LogInv(c)
    case Storing => StorageInv(c)
    case Committing => CommitInv(c)
    case Tracking => ProgressInv(c)
  }

  ghost predicate Inv(c: State) {
    forall concern :: Kept(c, concern)
  }

  lemma Parts(c: State)
    requires Inv(c)
    ensures ElectionInv(c) && LogInv(c) && StorageInv(c) && CommitInv(c) && ProgressInv(c)
  {
    assert Kept(c, Voting) && Kept(c, Logging) && Kept(c, Storing) && Kept(c, Committing) && Kept(c, Tracking);
  }

  lemma Whole(c: State)
    requires ElectionInv(c) && LogInv(c) && StorageInv(c) && CommitInv(c) && ProgressInv(c)
    ensures Inv(c)
  {
    forall concern ensures Kept(c, concern) {}
  }

  lemma ShapeOf(c: State)
    requires Inv(c)
    ensures Shape(c)
  {
    Parts(c);
  }

  lemma VotesOf(c: State)
    requires Inv(c)
    ensures VotesRecorded(c) && VoteRpcsOk(c)
  {
    Parts(c);
  }

  lemma ElectionsOf(c: State)
    requires Inv(c)
    ensures ElectionInv(c)
  {
    Parts(c);
  }

  lemma AcksOf(c: State)
    requires Inv(c)
    ensures AcksOk(c)
  {
    Parts(c);
  }

  lemma CommitsOf(c: State)
    requires Inv(c)
    ensures CommitInv(c)
  {
    Parts(c);
  }

  lemma AppliedOf(c: State, n: Id)
    requires Inv(c) && n in c.nodes
    ensures NodeApplied(c.nodes[n])
  {
    Parts(c);
  }
}
