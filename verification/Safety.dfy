// What the protocol guarantees between any two moments of any run: elections
// and logs agree, what is committed stays, and applied state is the same everywhere.
module Safety {
  import opened RaftTypes
  import opened RaftNode
  import opened Cluster
  import opened Invariants
  import ElectionKept
  import LogKept
  import CommitKept
  import History
  import StorageKept
  import Runs

  // ---- reachable states ------------------------------------------------------------------

  lemma LeaderFacts(run: seq<State>, i: nat, n: Id)
    requires IsRun(run) && i < |run| && Leads(run[i], n)
    ensures var c := run[i]; var t := Term(c, n);
            t in c.reigns && c.reigns[t].leader == n && c.nodes[n].log == LogOf(c, t) && ReignOk(t, c.reigns[t])
  {
    Runs.RunKept(run, i);
    Parts(run[i]);
    assert InReign(run[i], n);
  }

  lemma LogFacts(run: seq<State>, i: nat, n: Id)
    requires IsRun(run) && i < |run| && n in run[i].nodes
    ensures Matches(run[i], run[i].nodes[n].log) && WellNumbered(run[i].nodes[n].log, Term(run[i], n))
  {
    Runs.RunKept(run, i);
    Parts(run[i]);
  }

  lemma CommitFacts(run: seq<State>, i: nat, n: Id)
    requires IsRun(run) && i < |run| && n in run[i].nodes
    ensures var c := run[i];
            NodeApplied(c.nodes[n]) && CommittedPrefix(c, c.nodes[n].log, c.nodes[n].meta.commitIndex, Term(c, n))
  {
    Runs.RunKept(run, i);
    Parts(run[i]);
  }

  lemma SafeFacts(run: seq<State>, i: nat)
    requires IsRun(run) && i < |run|
    ensures CommitKept.Safe(run[i])
  {
    Runs.RunKept(run, i);
    Parts(run[i]);
  }

  // ---- elections ---------------------------------------------------------------------------

  lemma SameReign(run: seq<State>, i: nat, j: nat, t: nat)
    requires IsRun(run) && i <= j < |run| && t in run[i].reigns
    ensures t in run[j].reigns && LogKept.Grown(run[i].reigns[t], run[j].reigns[t])
  {
    History.RunOnward(run, i, j);
  }

  /** Election safety: over the whole run, crashes included, a term has one leader. */
  lemma ElectionSafety(run: seq<State>, i: nat, j: nat, m: Id, n: Id)
    requires IsRun(run) && i < |run| && j < |run| && Leads(run[i], m) && Leads(run[j], n)
    requires Term(run[i], m) == Term(run[j], n)
    ensures m == n
  {
    LeaderFacts(run, i, m);
    LeaderFacts(run, j, n);
    if i <= j { SameReign(run, i, j, Term(run[i], m)); } else { SameReign(run, j, i, Term(run[i], m)); }
  }

  /** Once cast a vote stays as it is, and the server never votes in that term again, restarts included. */
  lemma VoteIsForGood(run: seq<State>, i: nat, j: nat, t: nat, v: Id)
    requires IsRun(run) && i <= j < |run| && (t, v) in run[i].votes
    ensures (t, v) in run[j].votes && run[j].votes[(t, v)] == run[i].votes[(t, v)]
  {
    History.RunVotes(run, i, j);
  }

  /** A server does not vote in a term it has left. */
  lemma NoLateVote(run: seq<State>, i: nat, j: nat, t: nat, v: Id)
    requires IsRun(run) && i <= j < |run| && v in run[i].nodes && t < Term(run[i], v) && (t, v) in run[j].votes
    ensures (t, v) in run[i].votes && run[j].votes[(t, v)] == run[i].votes[(t, v)]
  {
    History.RunVotes(run, i, j);
  }

  /** votes_received is the size of the set of the candidate and the distinct servers that voted for it durably, and
      do so at every later moment. */
  lemma VoteCounter(run: seq<State>, i: nat, j: nat, n: Id)
    requires IsRun(run) && i <= j < |run| && n in run[i].nodes && run[i].nodes[n].role == Candidate
    ensures var c := run[i]; var voters := Supporters(c.voteRpcs, n, Term(c, n));
            && c.nodes[n].votesReceived == |voters| && n in voters && voters <= c.members
            && forall v :: v in voters ==>
                 && VotedFor(c, Term(c, n), v, n) && VoteRecorded(c, Term(c, n), v, c.votes[(Term(c, n), v)])
                 && VotedFor(run[j], Term(c, n), v, n)
  {
    Runs.RunKept(run, i);
    Parts(run[i]);
    var c := run[i];
    forall v | v in Supporters(c.voteRpcs, n, Term(c, n))
      ensures v in c.members && VotedFor(c, Term(c, n), v, n) && VotedFor(run[j], Term(c, n), v, n)
      ensures VoteRecorded(c, Term(c, n), v, c.votes[(Term(c, n), v)])
    {
      CountedVote(c, n, v);
      VoteIsForGood(run, i, j, Term(c, n), v);
    }
  }

  lemma CountedVote(c: State, n: Id, v: Id)
    requires Inv(c) && n in c.nodes && c.nodes[n].role == Candidate && v in Supporters(c.voteRpcs, n, Term(c, n))
    ensures v in c.members && VotedFor(c, Term(c, n), v, n)
    ensures VoteRecorded(c, Term(c, n), v, c.votes[(Term(c, n), v)])
  {
    Parts(c);
    ElectionKept.SupportersVoted(c, n, v);
  }

  lemma ElectorFacts(c: State, t: nat, v: Id)
    requires Inv(c) && t in c.reigns && v in c.reigns[t].quorum
    ensures VotedFor(c, t, v, c.reigns[t].leader) && VoteLogsOk(c) && ElectorsOlder(c, t, c.reigns[t])
  {
    Parts(c);
    assert ReignElected(c, t, c.reigns[t]);
    assert ElectorsOlder(c, t, c.reigns[t]);
  }

  lemma NewerNotAbove(log: seq<Entry>, voterLog: seq<Entry>, top: nat)
    requires Newer(log, voterLog) && WellNumbered(voterLog, top)
    ensures !Above(LastTerm(voterLog), |voterLog|, LastTerm(log), |log|)
  {
  }

  /** The election restriction over a whole run: no log a voter had when it voted ended above the one the leader it
      elected had then. */
  lemma ElectorsNotNewer(run: seq<State>, i: nat, t: nat, v: Id)
    requires IsRun(run) && i < |run| && t in run[i].reigns && v in run[i].reigns[t].quorum
    ensures var c := run[i]; var r := c.reigns[t];
            && VotedFor(c, t, v, r.leader) && r.base <= |r.log|
            && !Above(LastTerm(c.votes[(t, v)].log), |c.votes[(t, v)].log|, LastTerm(r.log[..r.base]), r.base)
  {
    Runs.RunKept(run, i);
    ElectorFacts(run[i], t, v);
    NewerNotAbove(run[i].reigns[t].log[..run[i].reigns[t].base], run[i].votes[(t, v)].log, t);
  }

  /** A server asks each peer for its vote at most once per term, in all its broadcasts together. */
  lemma OneBroadcastPerCandidacy(run: seq<State>, i: nat, q: nat, r: nat)
    requires IsRun(run) && i < |run| && q < r < |run[i].voteRpcs|
    ensures DistinctRequests(run[i].voteRpcs[q], run[i].voteRpcs[r])
  {
    Runs.RunKept(run, i);
    Parts(run[i]);
  }

  // ---- logs ----------------------------------------------------------------------------------

  /** Indices count from 1, terms never decrease along a log and never exceed the server's own. */
  lemma LogNumbered(run: seq<State>, i: nat, n: Id)
    requires IsRun(run) && i < |run| && n in run[i].nodes
    ensures WellNumbered(run[i].nodes[n].log, Term(run[i], n))
  {
    LogFacts(run, i, n);
  }

  /** Log matching, between any two servers at any two moments. */
  lemma LogMatching(run: seq<State>, i: nat, j: nat, m: Id, n: Id, k: nat)
    requires IsRun(run) && i <= j < |run| && m in run[i].nodes && n in run[j].nodes
    requires k < |run[i].nodes[m].log| && k < |run[j].nodes[n].log|
    requires run[i].nodes[m].log[k].term == run[j].nodes[n].log[k].term
    ensures Shares(run[i].nodes[m].log, run[j].nodes[n].log, k + 1)
  {
    LogFacts(run, i, m);
    LogFacts(run, j, n);
    History.RunOnward(run, i, j);
    LogKept.MatchesGrows(run[i], run[j], run[i].nodes[m].log);
    LogKept.SameTermSamePrefix(run[j], run[i].nodes[m].log, run[j].nodes[n].log, k);
  }

  lemma SliceFacts(run: seq<State>, i: nat, r: nat)
    requires IsRun(run) && i < |run| && r < |run[i].appendRpcs|
    ensures var c := run[i]; var a := c.appendRpcs[r].args;
            a.term in c.reigns && SliceOf(LogOf(c, a.term), a) && Matches(c, LogOf(c, a.term))
  {
    Runs.RunKept(run, i);
    Parts(run[i]);
    assert AppendRpcOk(run[i], run[i].appendRpcs[r]);
  }

  ghost predicate SliceAgrees(log: seq<Entry>, a: AppendArgs, k: nat) {
    && k < |a.entries| && a.prevLogIndex + k < |log| && TermAt(log, a.prevLogIndex) == a.prevLogTerm
    && forall x :: 0 <= x <= k ==> log[a.prevLogIndex + x] == a.entries[x]
  }

  /** The same between a log and the entries of an AppendEntries in flight, and what it says precedes them. */
  lemma SliceMatching(run: seq<State>, i: nat, n: Id, r: nat, k: nat)
    requires IsRun(run) && i < |run| && n in run[i].nodes && r < |run[i].appendRpcs|
    requires var a := run[i].appendRpcs[r].args;
             k < |a.entries| && a.prevLogIndex + k < |run[i].nodes[n].log|
             && run[i].nodes[n].log[a.prevLogIndex + k].term == a.entries[k].term
    ensures SliceAgrees(run[i].nodes[n].log, run[i].appendRpcs[r].args, k)
  {
    LogFacts(run, i, n);
    SliceFacts(run, i, r);
    var a := run[i].appendRpcs[r].args;
    SliceEntry(LogOf(run[i], a.term), a, k);
    LogKept.SameTermSamePrefix(run[i], run[i].nodes[n].log, LogOf(run[i], a.term), a.prevLogIndex + k);
    SharedSlice(run[i].nodes[n].log, LogOf(run[i], a.term), a, k);
  }

  lemma SliceEntry(lead: seq<Entry>, a: AppendArgs, k: nat)
    requires SliceOf(lead, a) && k < |a.entries|
    ensures a.entries[k] == lead[a.prevLogIndex + k]
  {
  }

  lemma SharedSlice(log: seq<Entry>, lead: seq<Entry>, a: AppendArgs, k: nat)
    requires SliceOf(lead, a) && k < |a.entries| && Shares(log, lead, a.prevLogIndex + k + 1)
    ensures SliceAgrees(log, a, k)
  {
    forall x | 0 <= x <= k ensures log[a.prevLogIndex + x] == a.entries[x] { SliceEntry(lead, a, x); }
  }

  // ---- commitment ------------------------------------------------------------------------------

  lemma CommittedLater(run: seq<State>, i: nat, j: nat, n: Id)
    requires IsRun(run) && i <= j < |run| && n in run[i].nodes
    ensures CommittedPrefix(run[j], run[i].nodes[n].log, run[i].nodes[n].meta.commitIndex, Term(run[i], n))
  {
    var log, k, t := run[i].nodes[n].log, run[i].nodes[n].meta.commitIndex, Term(run[i], n);
    CommitFacts(run, i, n);
    History.RunOnward(run, i, j);
    CommitKept.PrefixGrows(run[i], run[j], log, log, k, t, t);
  }

  lemma CommittedTerms(c: State, log: seq<Entry>, k: nat, top: nat)
    requires LogsOk(c) && CommittedPrefix(c, log, k, top)
    ensures k <= |log| && forall x :: 0 <= x < k ==> log[x].term <= top
  {
    if k > 0 {
      var t, m := CommitKept.Witness(c, log, k, top);
      assert WellNumbered(LogOf(c, t), t);
    }
  }

  lemma AllNumbered(run: seq<State>, i: nat)
    requires IsRun(run) && i < |run|
    ensures LogsOk(run[i])
  {
    Runs.RunKept(run, i);
    Parts(run[i]);
  }

  /** Leader completeness: whatever any server has committed by some term, every leader of a later term holds,
      at whatever moment it leads; and so does the leader of that same term from then on. */
  lemma LeaderCompleteness(run: seq<State>, i: nat, j: nat, n: Id, l: Id)
    requires IsRun(run) && i < |run| && j < |run| && n in run[i].nodes && Leads(run[j], l)
    requires Term(run[i], n) < Term(run[j], l) || (i <= j && Term(run[i], n) == Term(run[j], l))
    ensures Shares(run[j].nodes[l].log, run[i].nodes[n].log, run[i].nodes[n].meta.commitIndex)
  {
    LeaderFacts(run, j, l);
    var t := Term(run[j], l);
    var log, k := run[i].nodes[n].log, run[i].nodes[n].meta.commitIndex;
    var w := if i <= j then j else i;
    SameReign(run, j, w, t);
    SafeFacts(run, w);
    CommittedLater(run, i, w, n);
    CommitKept.LeaderHolds(run[w], log, k, t);
    if j < i {
      AllNumbered(run, i);
      CommittedTerms(run[i], log, k, Term(run[i], n));
      LongEnough(run[j].nodes[l].log, LogOf(run[i], t), t, k);
    }
  }

  /** A log that already has an entry of its own term reaches past every entry of an earlier term. */
  lemma LongEnough(log: seq<Entry>, grown: seq<Entry>, t: nat, k: nat)
    requires log != [] && log[|log| - 1].term == t && Shares(grown, log, |log|) && WellNumbered(grown, t)
    requires k <= |grown| && forall x :: 0 <= x < k ==> grown[x].term < t
    ensures k <= |log|
  {
    assert grown[|log| - 1].term == t;
  }

  /** Commit indices never fall, and nothing committed is ever removed or replaced, restarts included. */
  lemma CommittedIsForGood(run: seq<State>, i: nat, j: nat, n: Id)
    requires IsRun(run) && i <= j < |run| && n in run[i].nodes
    ensures n in run[j].nodes && run[i].nodes[n].meta.commitIndex <= run[j].nodes[n].meta.commitIndex
    ensures Shares(run[j].nodes[n].log, run[i].nodes[n].log, run[i].nodes[n].meta.commitIndex)
  {
    History.RunOnward(run, i, j);
    CommittedAgree(run, i, j, n, n);
  }

  lemma CommittedAgree(run: seq<State>, i: nat, j: nat, m: Id, n: Id)
    requires IsRun(run) && i <= j < |run| && m in run[i].nodes && n in run[j].nodes
    ensures var a, b := run[i].nodes[m], run[j].nodes[n];
            Shares(a.log, b.log, Min(a.meta.commitIndex, b.meta.commitIndex))
  {
    var a, b := run[i].nodes[m], run[j].nodes[n];
    CommittedLater(run, i, j, m);
    CommitFacts(run, j, n);
    SafeFacts(run, j);
    CommitKept.CommittedAgree(run[j], a.log, a.meta.commitIndex, b.log, b.meta.commitIndex, Term(run[i], m),
        Term(run[j], n));
  }

  /** A server that takes office in a later term than it was in when (t, m) was committed does so in a term after t: the
      quorum that elected it and the one that stored m share a server, which had not voted for it yet. */
  lemma CommittedBeforeOffice(run: seq<State>, k: nat, x: nat, l: Id, t: nat, m: nat)
    requires IsRun(run) && k <= x < |run| && l in run[k].nodes && Leads(run[x], l)
    requires Term(run[k], l) < Term(run[x], l) && Committed(run[k], t, m)
    ensures t < Term(run[x], l)
  {
    var office := Term(run[x], l);
    LeaderFacts(run, x, l);
    if t == office {
      SameReign(run, k, x, t);
      QuorumFacts(run, k, t);
    } else if t > office {
      var v := SharedVoter(run, k, x, t, m, office);
      NoLateVote(run, k, x, office, v);
      CandidateReached(run, k, office, v);
    }
  }

  lemma CandidateReached(run: seq<State>, k: nat, t: nat, v: Id)
    requires IsRun(run) && k < |run| && (t, v) in run[k].votes
    ensures var n := run[k].votes[(t, v)].candidate; n in run[k].nodes && t <= Term(run[k], n)
  {
    Runs.RunKept(run, k);
    Parts(run[k]);
    assert VoteRecorded(run[k], t, v, run[k].votes[(t, v)]);
  }

  /** Some server of the quorum that stored m in term t voted for the leader of another term. */
  lemma SharedVoter(run: seq<State>, k: nat, x: nat, t: nat, m: nat, u: nat) returns (v: Id)
    requires IsRun(run) && k <= x < |run| && Committed(run[k], t, m) && u in run[x].reigns
    ensures v in run[k].nodes && t <= Term(run[k], v) && VotedFor(run[x], u, v, run[x].reigns[u].leader)
  {
    QuorumFacts(run, x, u);
    History.RunOnward(run, k, x);
    v := ElectionKept.QuorumsMeet(run[k].members, Holders(run[k], t, m), run[x].reigns[u].quorum);
    HolderReached(run, k, t, v, m);
  }

  lemma QuorumFacts(run: seq<State>, i: nat, t: nat)
    requires IsRun(run) && i < |run| && t in run[i].reigns
    ensures var c := run[i]; var r := c.reigns[t];
            && r.leader in c.nodes && t <= Term(c, r.leader)
            && r.quorum <= c.members && |r.quorum| >= Quorum(c)
            && forall v :: v in r.quorum ==> VotedFor(c, t, v, r.leader)
  {
    Runs.RunKept(run, i);
    Parts(run[i]);
    assert ReignElected(run[i], t, run[i].reigns[t]);
  }

  lemma HolderReached(run: seq<State>, i: nat, t: nat, v: Id, m: nat)
    requires IsRun(run) && i < |run| && v in Holders(run[i], t, m)
    ensures v in run[i].nodes && t <= Term(run[i], v)
  {
    Runs.RunKept(run, i);
    AcksOf(run[i]);
    assert AckOk(run[i], t, v, run[i].acked[(t, v)]);
  }

  lemma HandlerStores(n: Node, args: AppendArgs)
    requires args.term >= n.meta.currentTerm && PrevMatches(n.log, args) && args.prevLogIndex <= |n.log|
    ensures HandleAppendEntries(n, args).0.log == Reconcile(n.log, args.prevLogIndex, args.entries)
  {
  }

  lemma DeliveredLog(run: seq<State>, i: nat, r: nat)
    requires IsRun(run) && i < |run| && ToDeliverAppend(run[i], r)
    requires var a := run[i].appendRpcs[r].args; var n := run[i].nodes[run[i].appendRpcs[r].dst];
             a.term >= n.meta.currentTerm && PrevMatches(n.log, a)
    ensures var a := run[i].appendRpcs[r].args; var n := run[i].nodes[run[i].appendRpcs[r].dst];
            var m := a.prevLogIndex + |a.entries|;
            && a.term in run[i].reigns && m <= |LogOf(run[i], a.term)|
            && HandleAppendEntries(n, a).0.log == LogKept.AcceptedResult(n.log, LogOf(run[i], a.term), m)
  {
    var a, v := run[i].appendRpcs[r].args, run[i].appendRpcs[r].dst;
    LogFacts(run, i, v);
    SliceFacts(run, i, r);
    LogKept.ReconcileYields(run[i], run[i].nodes[v].log, LogOf(run[i], a.term), a);
    HandlerStores(run[i].nodes[v], a);
  }

  lemma CommittedShared(run: seq<State>, i: nat, n: Id, t: nat)
    requires IsRun(run) && i < |run| && n in run[i].nodes && t in run[i].reigns && Term(run[i], n) <= t
    ensures Shares(run[i].nodes[n].log, LogOf(run[i], t), run[i].nodes[n].meta.commitIndex)
  {
    CommitFacts(run, i, n);
    SafeFacts(run, i);
    CommittedInLead(run[i], run[i].nodes[n].log, run[i].nodes[n].meta.commitIndex, Term(run[i], n), t);
  }

  /** What AppendEntries makes of a log it matches, however late or out of order it arrives: nothing if the log already
      has the leader's entries up to the last one sent, and else exactly those; nothing committed is ever removed. */
  lemma DeliveredAppend(run: seq<State>, i: nat, r: nat)
    requires IsRun(run) && i < |run| && ToDeliverAppend(run[i], r)
    requires var a := run[i].appendRpcs[r].args; var n := run[i].nodes[run[i].appendRpcs[r].dst];
             a.term >= n.meta.currentTerm && PrevMatches(n.log, a)
    ensures var a := run[i].appendRpcs[r].args; var n := run[i].nodes[run[i].appendRpcs[r].dst];
            var after := HandleAppendEntries(n, a).0.log; var m := a.prevLogIndex + |a.entries|;
            && a.term in run[i].reigns && m <= |LogOf(run[i], a.term)|
            && after == LogKept.AcceptedResult(n.log, LogOf(run[i], a.term), m)
            && Shares(after, n.log, n.meta.commitIndex)
  {
    var a, v := run[i].appendRpcs[r].args, run[i].appendRpcs[r].dst;
    var n := run[i].nodes[v];
    DeliveredLog(run, i, r);
    CommittedShared(run, i, v, a.term);
    StorageKept.ResultCarries(n.log, LogOf(run[i], a.term), a.prevLogIndex + |a.entries|, n.log, n.meta.commitIndex);
  }

  lemma CommittedInLead(c: State, log: seq<Entry>, k: nat, t: nat, u: nat)
    requires CommitKept.Safe(c) && CommittedPrefix(c, log, k, t) && t <= u && u in c.reigns
    ensures Shares(log, LogOf(c, u), k)
  {
    CommitKept.PrefixGrows(c, c, log, log, k, t, u);
    CommitKept.LeaderHolds(c, log, k, u);
  }

  /** Whenever the lock is free, exactly the committed prefix is applied. */
  lemma AppliedIsCommitted(run: seq<State>, i: nat, n: Id)
    requires IsRun(run) && i < |run| && n in run[i].nodes
    ensures var m := run[i].nodes[n];
            m.meta.lastApplied == m.meta.commitIndex <= |m.log| && m.store == Replay(m.log[..m.meta.lastApplied])
  {
    CommitFacts(run, i, n);
  }

  /** State machine safety: any two servers, at any two moments, applied the same commands at the indices
      both applied, so the same lastApplied means the same key-value map. */
  lemma StateMachineSafety(run: seq<State>, i: nat, j: nat, m: Id, n: Id)
    requires IsRun(run) && i <= j < |run| && m in run[i].nodes && n in run[j].nodes
    ensures var a, b := run[i].nodes[m], run[j].nodes[n];
            && Shares(a.log, b.log, Min(a.meta.lastApplied, b.meta.lastApplied))
            && (a.meta.lastApplied == b.meta.lastApplied ==> a.store == b.store)
  {
    var a, b := run[i].nodes[m], run[j].nodes[n];
    AppliedIsCommitted(run, i, m);
    AppliedIsCommitted(run, j, n);
    CommittedAgree(run, i, j, m, n);
    if a.meta.lastApplied == b.meta.lastApplied {
      assert a.log[..a.meta.lastApplied] == b.log[..b.meta.lastApplied];
    }
  }

  // ---- the leader's bookkeeping ---------------------------------------------------------------------

  lemma TrackingFacts(run: seq<State>, i: nat, n: Id, p: Id)
    requires IsRun(run) && i < |run| && Leads(run[i], n) && p in Peers(run[i], n)
    ensures var c := run[i];
            PeerTracked(c, n, p) && p in c.nodes && AcksOk(c) && StoredKept(c)
  {
    Runs.RunKept(run, i);
    Parts(run[i]);
    assert PeerTracked(run[i], n, p);
  }

  /** matchIndex is sound: a peer still in the leader's term holds the leader's log up to it. */
  lemma MatchIndexSound(run: seq<State>, i: nat, n: Id, p: Id)
    requires IsRun(run) && i < |run| && Leads(run[i], n) && p in Peers(run[i], n)
    ensures var c := run[i]; var matched := At(c.nodes[n].matchIndex, p);
            && matched < At(c.nodes[n].nextIndex, p) <= |c.nodes[n].log| + 1
            && p in c.nodes && (Term(c, p) == Term(c, n) ==> Shares(c.nodes[p].log, c.nodes[n].log, matched))
  {
    var c := run[i];
    TrackingFacts(run, i, n, p);
    LeaderFacts(run, i, n);
    var k := At(c.nodes[n].matchIndex, p);
    if k > 0 && Term(c, p) == Term(c, n) {
      assert Stored(c, Term(c, n), p, k) && Carried(c, Term(c, n), k, Term(c, p));
    }
  }

  /** A mismatch reply the leader still waits for answers a probe above matchIndex. */
  lemma MismatchAboveMatch(run: seq<State>, i: nat, r: nat)
    requires IsRun(run) && i < |run| && Awaited(run[i], r) && Mismatched(run[i].appendRpcs[r])
    ensures var q := run[i].appendRpcs[r]; var n := run[i].nodes[q.src];
            At(n.matchIndex, q.dst) < q.args.prevLogIndex == At(n.nextIndex, q.dst) - 1
  {
    Runs.RunKept(run, i);
    Parts(run[i]);
  }

  /** A leader's log ends with an entry of its own term, so there is always something it may commit by counting. */
  lemma OwnTermLast(run: seq<State>, i: nat, n: Id)
    requires IsRun(run) && i < |run| && Leads(run[i], n)
    ensures var m := run[i].nodes[n]; m.log != [] && LastTerm(m.log) == m.meta.currentTerm
  {
    LeaderFacts(run, i, n);
  }
}
