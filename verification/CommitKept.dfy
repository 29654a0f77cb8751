// Leader completeness, and what it means for commit indices and state machines.
module CommitKept {
  import opened RaftTypes
  import opened RaftNode
  import opened Cluster
  import opened Invariants
  import opened ElementarySteps
  import opened LogKept
  import ElectionKept
  import StorageKept

  // ---- leader completeness ------------------------------------------------------------

  ghost predicate Safe(c: State) {
    ReignsElected(c) && LogsOk(c) && ReignsOk(c) && StorageInv(c)
  }

  /** A log at least as up to date as one with an entry of term t at k ends in a later term, or reaches k. */
  lemma NewerReaches(log: seq<Entry>, vl: seq<Entry>, k: nat, t: nat, top: nat)
    requires 0 < k <= |vl| && vl[k - 1].term == t && WellNumbered(vl, top) && Newer(log, vl)
    ensures log != [] && LastTerm(log) >= t && (LastTerm(log) == t ==> |log| >= k)
  {
    assert vl[|vl| - 1].index == |vl| && vl[|vl| - 1].term >= vl[k - 1].term;
  }

  /** A log at least as up to date as one that holds the committed entry (t, k) holds it too,
      when every leader between t and its own term does. */
  lemma UpToDateHolds(c: State, t: nat, k: nat, u: nat, vl: seq<Entry>)
    requires LogsOk(c) && ReignsOk(c) && t in c.reigns && u in c.reigns && t < u
    requires 0 < k <= |LogOf(c, t)| && LogOf(c, t)[k - 1].term == t && Carried(c, t, k, u - 1)
    requires Shares(vl, LogOf(c, t), k) && WellNumbered(vl, u)
    requires c.reigns[u].base <= |LogOf(c, u)| && Newer(LogOf(c, u)[..c.reigns[u].base], vl)
    ensures Shares(LogOf(c, u), LogOf(c, t), k)
  {
    var lead, base := LogOf(c, u), c.reigns[u].base;
    NewerReaches(lead[..base], vl, k, t, u);
    var w := lead[base - 1].term;
    assert Matches(c, lead) && ReignOk(u, c.reigns[u]);
    assert w < u && Shares(lead, LogOf(c, w), base);
    if w > t {
      assert Shares(LogOf(c, w), LogOf(c, t), k) && WellNumbered(LogOf(c, t), t);
      StorageKept.SharedTerms(LogOf(c, w), LogOf(c, t), k, t);
    }
  }

  /** Leader completeness: every later leader's log holds what is committed. */
  lemma {:induction false} LeaderCompleteness(c: State, t: nat, k: nat, u: nat)
    requires Safe(c) && Committed(c, t, k) && u in c.reigns && t < u
    ensures Shares(LogOf(c, u), LogOf(c, t), k)
    decreases u
  {
    forall w | t < w <= u - 1 && w in c.reigns ensures Shares(LogOf(c, w), LogOf(c, t), k) {
      LeaderCompleteness(c, t, k, w);
    }
    var v := CommonElector(c, t, k, u);
    assert Shares(c.votes[(u, v)].log, LogOf(c, t), k);
    assert ElectorsOlder(c, u, c.reigns[u]);
    UpToDateHolds(c, t, k, u, c.votes[(u, v)].log);
  }

  /** Some server both stored the committed entry and elected the later leader. */
  lemma CommonElector(c: State, t: nat, k: nat, u: nat) returns (v: Id)
    requires ReignsElected(c) && Committed(c, t, k) && u in c.reigns
    ensures Stored(c, t, v, k) && Counts(c, u, v) && v in c.reigns[u].quorum
  {
    assert ReignElected(c, u, c.reigns[u]);
    v := ElectionKept.QuorumsMeet(c.members, Holders(c, t, k), c.reigns[u].quorum);
    assert VotedFor(c, u, v, c.reigns[u].leader);
  }

  lemma Witness(c: State, log: seq<Entry>, k: nat, top: nat) returns (t: nat, m: nat)
    requires CommittedPrefix(c, log, k, top) && k > 0
    ensures t <= top && CommittedBy(c, log, k, t, m)
  {
    t, m :| t <= top && CommittedBy(c, log, k, t, m);
  }

  lemma Carries(c: State, t: nat, k: nat, u: nat)
    requires Safe(c) && Committed(c, t, k) && u in c.reigns && t <= u
    ensures Shares(LogOf(c, u), LogOf(c, t), k)
  {
    if t < u { LeaderCompleteness(c, t, k, u); }
  }

  lemma Chain(a: seq<Entry>, b: seq<Entry>, x: seq<Entry>, i: nat, j: nat)
    requires Shares(a, b, i) && Shares(x, b, j)
    ensures Shares(a, x, Min(i, j))
  {
  }

  /** The leader of term top holds every prefix committed by a term up to top. */
  lemma LeaderHolds(c: State, log: seq<Entry>, k: nat, top: nat)
    requires Safe(c) && CommittedPrefix(c, log, k, top) && top in c.reigns
    ensures Shares(log, LogOf(c, top), k)
  {
    if k > 0 {
      var t, m := Witness(c, log, k, top);
      Carries(c, t, m, top);
      Chain(log, LogOf(c, t), LogOf(c, top), k, m);
    }
  }

  lemma CommittedAgreeBy(c: State, a: seq<Entry>, i: nat, t: nat, m: nat, b: seq<Entry>, j: nat, u: nat, p: nat)
    requires Safe(c) && CommittedBy(c, a, i, t, m) && CommittedBy(c, b, j, u, p) && t <= u
    ensures Shares(a, b, Min(i, j))
  {
    Carries(c, t, m, u);
    Chain(a, LogOf(c, t), LogOf(c, u), i, m);
    Chain(a, LogOf(c, u), b, i, j);
  }

  /** Any two committed prefixes agree. */
  lemma CommittedAgree(c: State, a: seq<Entry>, i: nat, b: seq<Entry>, j: nat, ta: nat, tb: nat)
    requires Safe(c) && CommittedPrefix(c, a, i, ta) && CommittedPrefix(c, b, j, tb)
    ensures Shares(a, b, Min(i, j))
  {
    if i > 0 && j > 0 {
      var t, m := Witness(c, a, i, ta);
      var u, p := Witness(c, b, j, tb);
      if t <= u { CommittedAgreeBy(c, a, i, t, m, b, j, u, p); } else { CommittedAgreeBy(c, b, j, u, p, a, i, t, m); }
    }
  }

  // ---- commitment is for good ---------------------------------------------------------------

  ghost predicate HistoryGrows(c: State, d: State) {
    && d.members == c.members && ReignsGrow(c, d)
    && (forall t, v :: (t, v) in c.acked ==> (t, v) in d.acked && c.acked[(t, v)] <= d.acked[(t, v)])
  }

  lemma CommittedGrows(c: State, d: State, t: nat, k: nat)
    requires HistoryGrows(c, d) && Committed(c, t, k)
    ensures Committed(d, t, k) && Shares(LogOf(d, t), LogOf(c, t), k)
  {
    assert Grown(c.reigns[t], d.reigns[t]);
    ElectionKept.SubsetSize(Holders(c, t, k), Holders(d, t, k));
  }

  lemma PrefixGrows(c: State, d: State, log: seq<Entry>, after: seq<Entry>, k: nat, top: nat, later: nat)
    requires HistoryGrows(c, d) && CommittedPrefix(c, log, k, top) && top <= later && Shares(after, log, k)
    ensures CommittedPrefix(d, after, k, later)
  {
    if k > 0 {
      var t, m := Witness(c, log, k, top);
      CommittedGrows(c, d, t, m);
      assert CommittedBy(d, after, k, t, m);
    }
  }

  lemma ShorterPrefix(c: State, log: seq<Entry>, after: seq<Entry>, k: nat, i: nat, top: nat)
    requires CommittedPrefix(c, log, k, top) && i <= k && Shares(after, log, i)
    ensures CommittedPrefix(c, after, i, top)
  {
    if i > 0 {
      var t, m := Witness(c, log, k, top);
      assert CommittedBy(c, after, i, t, m);
    }
  }

  // ---- preservation ---------------------------------------------------------------------------

  /** Commitment and store are untouched, and so is the committed part of the log. */
  ghost predicate CommitSame(a: Node, b: Node) {
    && b.meta.commitIndex == a.meta.commitIndex && b.meta.lastApplied == a.meta.lastApplied && b.store == a.store
    && b.meta.currentTerm >= a.meta.currentTerm && Shares(b.log, a.log, a.meta.commitIndex)
  }

  ghost predicate CommitQuiet(c: State, d: State) {
    && HistoryGrows(c, d) && d.nodes.Keys == c.nodes.Keys && |d.appendRpcs| >= |c.appendRpcs|
    && (forall n :: n in c.nodes ==> CommitSame(c.nodes[n], d.nodes[n]))
    && (forall i :: 0 <= i < |c.appendRpcs| ==> SameRequest(c.appendRpcs[i], d.appendRpcs[i]))
  }

  lemma SamePrefixApplied(a: Node, b: Node)
    requires NodeApplied(a) && CommitSame(a, b)
    ensures NodeApplied(b)
  {
    assert b.log[..b.meta.commitIndex] == a.log[..a.meta.commitIndex];
  }

  lemma RpcGrows(c: State, d: State, a: AppendArgs)
    requires HistoryGrows(c, d) && CommitRpcOk(c, a)
    ensures CommitRpcOk(d, a)
  {
    assert Grown(c.reigns[a.term], d.reigns[a.term]);
    PrefixWithin(c, LogOf(c, a.term), a.leaderCommit, a.term);
    PrefixGrows(c, d, LogOf(c, a.term), LogOf(d, a.term), a.leaderCommit, a.term, a.term);
  }

  lemma PrefixWithin(c: State, log: seq<Entry>, k: nat, top: nat)
    requires CommittedPrefix(c, log, k, top)
    ensures k <= |log|
  {
  }

  lemma QuietNodes(c: State, d: State)
    requires CommitInv(c) && CommitQuiet(c, d)
    ensures forall n :: n in d.nodes ==> NodeApplied(d.nodes[n])
    ensures forall n :: n in d.nodes ==> CommittedPrefix(d, d.nodes[n].log, d.nodes[n].meta.commitIndex, Term(d, n))
  {
    forall n | n in d.nodes
      ensures NodeApplied(d.nodes[n])
      ensures CommittedPrefix(d, d.nodes[n].log, d.nodes[n].meta.commitIndex, Term(d, n))
    {
      assert CommitSame(c.nodes[n], d.nodes[n]);
      SamePrefixApplied(c.nodes[n], d.nodes[n]);
      PrefixGrows(c, d, c.nodes[n].log, d.nodes[n].log, c.nodes[n].meta.commitIndex, Term(c, n), Term(d, n));
    }
  }

  lemma QuietKept(c: State, d: State)
    requires CommitInv(c) && CommitQuiet(c, d)
    requires forall i :: |c.appendRpcs| <= i < |d.appendRpcs| ==> CommitRpcOk(d, d.appendRpcs[i].args)
    ensures CommitInv(d)
  {
    QuietNodes(c, d);
    forall i | 0 <= i < |d.appendRpcs| ensures CommitRpcOk(d, d.appendRpcs[i].args) {
      if i < |c.appendRpcs| {
        assert CommitRpcOk(c, c.appendRpcs[i].args) && SameRequest(c.appendRpcs[i], d.appendRpcs[i]);
        RpcGrows(c, d, c.appendRpcs[i].args);
      }
    }
  }

  /** AppendEntries never removes a committed entry. */
  lemma AcceptedKeepsCommitted(c: State, i: nat)
    requires Safe(c) && AppendRpcsOk(c) && CommitInv(c) && MayAccept(c, i)
    ensures var v := c.appendRpcs[i].dst;
            Shares(Accepted(c, i).nodes[v].log, c.nodes[v].log, c.nodes[v].meta.commitIndex)
  {
    var r := c.appendRpcs[i];
    var n := c.nodes[r.dst];
    assert AppendRpcOk(c, r);
    AcceptedLog(c, i);
    LeaderHolds(c, n.log, n.meta.commitIndex, r.args.term);
    StorageKept.ResultCarries(n.log, LogOf(c, r.args.term), r.args.prevLogIndex + |r.args.entries|,
                              n.log, n.meta.commitIndex);
  }

  lemma AcceptedHistory(c: State, i: nat)
    requires MayAccept(c, i)
    ensures var d := Accepted(c, i); var v := c.appendRpcs[i].dst;
            && HistoryGrows(c, d) && d.nodes == c.nodes[v := d.nodes[v]] && d.appendRpcs == c.appendRpcs
            && d.nodes[v].meta == c.nodes[v].meta && d.nodes[v].store == c.nodes[v].store
  {
  }

  lemma AcceptedQuiet(c: State, i: nat)
    requires CommitInv(c) && MayAccept(c, i)
    requires var v := c.appendRpcs[i].dst;
             Shares(Accepted(c, i).nodes[v].log, c.nodes[v].log, c.nodes[v].meta.commitIndex)
    ensures CommitQuiet(c, Accepted(c, i))
  {
    AcceptedHistory(c, i);
    forall n | n in c.nodes ensures c.nodes[n].meta.commitIndex <= |c.nodes[n].log| {
      assert NodeApplied(c.nodes[n]);
    }
  }

  lemma AcceptedKept(c: State, i: nat)
    requires Safe(c) && AppendRpcsOk(c) && CommitInv(c) && MayAccept(c, i)
    ensures CommitInv(Accepted(c, i))
  {
    AcceptedKeepsCommitted(c, i);
    AcceptedQuiet(c, i);
    QuietKept(c, Accepted(c, i));
  }

  lemma LedKept(c: State, d: State, n: Id, e: Entry)
    requires CommitInv(c) && AcksOk(c) && StorageKept.LedAcks(c, d, n, e) && d.members == c.members
    requires CommitSame(c.nodes[n], d.nodes[n])
    ensures CommitInv(d)
  {
    LedHistory(c, d, n, e);
    assert CommitQuiet(c, d);
    QuietKept(c, d);
  }

  lemma LedHistory(c: State, d: State, n: Id, e: Entry)
    requires AcksOk(c) && StorageKept.LedAcks(c, d, n, e) && d.members == c.members
    ensures HistoryGrows(c, d)
  {
    forall t, v | (t, v) in c.acked ensures (t, v) in d.acked && c.acked[(t, v)] <= d.acked[(t, v)] {
      assert AckOk(c, t, v, c.acked[(t, v)]);
    }
  }

  lemma SentQuiet(c: State, n: Id, p: Id)
    requires CommitInv(c) && Leads(c, n) && p in Peers(c, n)
    ensures CommitQuiet(c, SendAppendStep(c, n, p))
  {
    forall m | m in c.nodes ensures c.nodes[m].meta.commitIndex <= |c.nodes[m].log| {
      assert NodeApplied(c.nodes[m]);
    }
  }

  lemma SentCommit(c: State, n: Id, p: Id)
    requires ReignsOk(c) && CommitInv(c) && Leads(c, n) && Term(c, n) in c.reigns
    ensures CommitRpcOk(c, BuildAppend(c.nodes[n], n, p))
  {
  }

  lemma SentNew(c: State, d: State, a: AppendArgs)
    requires HistoryGrows(c, d) && CommitRpcOk(c, a) && |d.appendRpcs| == |c.appendRpcs| + 1
    requires d.appendRpcs[|c.appendRpcs|].args == a
    ensures forall i :: |c.appendRpcs| <= i < |d.appendRpcs| ==> CommitRpcOk(d, d.appendRpcs[i].args)
  {
    RpcGrows(c, d, a);
  }

  lemma SentKept(c: State, n: Id, p: Id)
    requires ReignsElected(c) && ReignsOk(c) && CommitInv(c) && Leads(c, n) && p in Peers(c, n)
    ensures CommitInv(SendAppendStep(c, n, p))
  {
    assert InReign(c, n);
    SentCommit(c, n, p);
    SentQuiet(c, n, p);
    SentNew(c, SendAppendStep(c, n, p), BuildAppend(c.nodes[n], n, p));
    QuietKept(c, SendAppendStep(c, n, p));
  }

  // ---- advancing the commit index ------------------------------------------------------------------

  lemma {:induction false} ReplayFromIsReplay(log: seq<Entry>, lo: nat, hi: nat)
    requires lo <= hi <= |log|
    ensures ReplayFrom(Replay(log[..lo]), log, lo, hi) == Replay(log[..hi])
    decreases hi
  {
    if lo < hi {
      ReplayFromIsReplay(log, lo, hi - 1);
      assert log[..hi][..hi - 1] == log[..hi - 1];
    }
  }

  lemma CommitToApplies(n: Node, k: nat)
    requires NodeApplied(n) && n.meta.commitIndex <= k <= |n.log|
    ensures NodeApplied(CommitTo(n, k)) && CommitTo(n, k).meta == n.meta.(commitIndex := k, lastApplied := k)
    ensures CommitTo(n, k) == n.(meta := CommitTo(n, k).meta, store := CommitTo(n, k).store)
  {
    ReplayFromIsReplay(n.log, n.meta.lastApplied, k);
  }

  lemma CommittedToPrefixes(c: State, n: Id, k: nat, m: Id)
    requires CommitInv(c) && n in c.nodes && m in c.nodes && CommittedPrefix(c, c.nodes[n].log, k, Term(c, n))
    requires NodeApplied(c.nodes[n]) && c.nodes[n].meta.commitIndex <= k
    ensures var d := CommittedTo(c, n, k); CommittedPrefix(d, d.nodes[m].log, d.nodes[m].meta.commitIndex, Term(d, m))
  {
    var d := CommittedTo(c, n, k);
    var i := if m == n then k else c.nodes[m].meta.commitIndex;
    PrefixWithin(c, c.nodes[n].log, k, Term(c, n));
    PrefixWithin(c, c.nodes[m].log, i, Term(c, m));
    CommitToApplies(c.nodes[n], k);
    assert HistoryGrows(c, d);
    PrefixGrows(c, d, c.nodes[m].log, c.nodes[m].log, i, Term(c, m), Term(c, m));
  }

  lemma CommittedToKept(c: State, n: Id, k: nat)
    requires CommitInv(c) && n in c.nodes && c.nodes[n].meta.commitIndex <= k
    requires CommittedPrefix(c, c.nodes[n].log, k, Term(c, n))
    ensures CommitInv(CommittedTo(c, n, k))
  {
    var d := CommittedTo(c, n, k);
    PrefixWithin(c, c.nodes[n].log, k, Term(c, n));
    CommitToApplies(c.nodes[n], k);
    forall m | m in d.nodes ensures CommittedPrefix(d, d.nodes[m].log, d.nodes[m].meta.commitIndex, Term(d, m)) {
      CommittedToPrefixes(c, n, k, m);
    }
    forall i | 0 <= i < |d.appendRpcs| ensures CommitRpcOk(d, d.appendRpcs[i].args) {
      RpcGrows(c, d, c.appendRpcs[i].args);
    }
  }

  lemma ReplicasHold(c: State, n: Id, k: nat)
    requires Shape(c) && AcksOk(c) && AllTracked(c) && Leads(c, n) && 0 < k <= |c.nodes[n].log|
    ensures {n} + Replicas(Peers(c, n), c.nodes[n].matchIndex, k) <= Holders(c, Term(c, n), k)
  {
    assert Stored(c, Term(c, n), n, |c.nodes[n].log|);
    forall p | p in Replicas(Peers(c, n), c.nodes[n].matchIndex, k) ensures p in Holders(c, Term(c, n), k) {
      assert PeerTracked(c, n, p);
    }
  }

  /** A list without repetition is as long as the set it lists. */
  lemma {:induction false} ListSize(s: seq<Id>, ids: set<Id>)
    requires IsListOf(s, ids)
    ensures |s| == |ids|
  {
    if s != [] {
      var last := s[|s| - 1];
      assert IsListOf(s[..|s| - 1], ids - {last}) by {
        forall p | p in ids - {last} ensures p in s[..|s| - 1] {
          var i :| 0 <= i < |s| && s[i] == p;
          assert s[..|s| - 1][i] == p;
        }
      }
      ListSize(s[..|s| - 1], ids - {last});
    } else {
      assert ids == {};
    }
  }

  lemma PeersCount(c: State, n: Id)
    requires Shape(c) && n in c.members
    ensures Majority(|Peers(c, n)| + 1) == Quorum(c) && IsListOf(Peers(c, n), c.members - {n})
  {
    ListSize(Peers(c, n), c.members - {n});
    assert c.members == (c.members - {n}) + {n};
  }

  lemma ReplicasAreQuorum(c: State, n: Id, k: nat)
    requires Shape(c) && n in c.nodes && Committable(c.nodes[n], Peers(c, n), k)
    ensures |{n} + Replicas(Peers(c, n), c.nodes[n].matchIndex, k)| >= Quorum(c)
  {
    PeersCount(c, n);
  }

  /** What a leader may commit by counting replicas, a quorum has stored. */
  lemma LeaderCommits(c: State, n: Id, k: nat)
    requires Shape(c) && ReignsElected(c) && ReignsOk(c) && AcksOk(c) && AllTracked(c) && Leads(c, n)
    requires 0 < k <= |c.nodes[n].log| && Committable(c.nodes[n], Peers(c, n), k)
    ensures Committed(c, Term(c, n), k) && CommittedPrefix(c, c.nodes[n].log, k, Term(c, n))
  {
    assert InReign(c, n);
    ReplicasHold(c, n, k);
    ReplicasAreQuorum(c, n, k);
    ElectionKept.SubsetSize({n} + Replicas(Peers(c, n), c.nodes[n].matchIndex, k), Holders(c, Term(c, n), k));
    assert CommittedBy(c, c.nodes[n].log, k, Term(c, n), k);
  }

  /** What a follower commits on the leader's word is committed. */
  lemma FollowerCommits(c: State, v: Id, a: AppendArgs, k: nat)
    requires v in c.nodes && CommitRpcOk(c, a) && Term(c, v) == a.term && k <= a.leaderCommit
    requires Shares(c.nodes[v].log, LogOf(c, a.term), k)
    ensures CommittedPrefix(c, c.nodes[v].log, k, Term(c, v))
  {
    PrefixWithin(c, LogOf(c, a.term), a.leaderCommit, a.term);
    ShorterPrefix(c, LogOf(c, a.term), c.nodes[v].log, a.leaderCommit, k, a.term);
  }
}
