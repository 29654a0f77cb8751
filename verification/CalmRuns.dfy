// Runs of three servers without a crash, built move by move: elections, client
// appends and exchanges of AppendEntries.
module CalmRuns {
  import opened RaftTypes
  import opened RaftNode
  import opened Cluster
  import opened Invariants
  import opened Clients

  ghost predicate CalmStep(c: State, d: State) {
    exists e :: !IsCrash(e) && Enabled(c, e) && d == Next(c, e)
  }

  ghost predicate IsCalmRun(run: seq<State>) {
    run != [] && Initial(run[0]) && forall i :: 0 <= i < |run| - 1 ==> CalmStep(run[i], run[i + 1])
  }

  lemma CalmIsRun(run: seq<State>)
    requires IsCalmRun(run)
    ensures IsRun(run)
  {
    forall i: nat | i + 1 < |run| ensures StepAt(run, i) { assert CalmStep(run[i], run[i + 1]); }
  }

  ghost function Last(run: seq<State>): State requires run != [] { run[|run| - 1] }

  lemma Extended(run: seq<State>, e: Event) returns (longer: seq<State>)
    requires IsCalmRun(run) && !IsCrash(e) && Enabled(Last(run), e)
    ensures IsCalmRun(longer) && longer == run + [Next(Last(run), e)]
  {
    longer := run + [Next(Last(run), e)];
    forall i | 0 <= i < |longer| - 1 ensures CalmStep(longer[i], longer[i + 1]) {
      if i < |run| - 1 { assert CalmStep(run[i], run[i + 1]); } else { assert longer[i] == Last(run); }
    }
  }

  const MEMBERS: set<Id> := {1, 2, 3}
  const PEERS: map<Id, seq<Id>> := map[1 := [2, 3], 2 := [1, 3], 3 := [1, 2]]

  ghost predicate Three(c: State) {
    c.members == MEMBERS && c.peerList == PEERS && c.nodes.Keys == MEMBERS && c.broadcasting == {}
  }

  // ---- elections ---------------------------------------------------------------------------

  lemma NothingToCommit(n: Node, peers: seq<Id>)
    requires peers != [] && forall p :: p in peers ==> At(n.matchIndex, p) <= n.meta.commitIndex
    ensures AdvanceCommit(n, peers) == n
  {
    forall i | n.meta.commitIndex < i <= LastIndex(n.log) ensures !Committable(n, peers, i) {
      assert Replicas(peers, n.matchIndex, i) == {};
    }
  }

  lemma Standing(c: State, n: Id)
    requires Three(c) && n in MEMBERS && c.nodes[n].role != Leader
    ensures CanTimeout(c, n)
    ensures var d := TimeoutStep(c, n);
            && d.members == MEMBERS && d.peerList == PEERS && d.broadcasting == {n} && d.voteRpcs == c.voteRpcs
            && d.nodes == c.nodes[n := StartElection(c.nodes[n], n)]
  {
  }

  lemma Broadcasting(c: State, n: Id, q: nat, v: Id)
    requires c.members == MEMBERS && c.peerList == PEERS && c.nodes.Keys == MEMBERS && c.broadcasting == {n}
    requires n in MEMBERS && q < 2 && v == PEERS[n][q]
    ensures CanBroadcast(c, n)
    ensures var d := BroadcastStep(c, n);
            && Three(d) && d.nodes == c.nodes && |c.voteRpcs| + q < |d.voteRpcs|
            && d.voteRpcs[|c.voteRpcs| + q] == VoteRpc(n, v, RequestVotes(c.nodes[n], n), Sent)
  {
  }

  /** n stands for election and asks its peers, the q-th of which is v. */
  lemma Campaign(run: seq<State>, n: Id, q: nat, v: Id) returns (longer: seq<State>)
    requires IsCalmRun(run) && Three(Last(run)) && n in MEMBERS && Last(run).nodes[n].role != Leader
    requires q < 2 && v == PEERS[n][q]
    ensures IsCalmRun(longer) && run <= longer && Three(Last(longer))
    ensures var c, d := Last(run), Last(longer);
            && d.nodes == c.nodes[n := StartElection(c.nodes[n], n)] && |c.voteRpcs| + q < |d.voteRpcs|
            && d.voteRpcs[|c.voteRpcs| + q] == VoteRpc(n, v, RequestVotes(d.nodes[n], n), Sent)
  {
    Standing(Last(run), n);
    longer := Extended(run, TimesOut(n));
    Broadcasting(Last(longer), n, q, v);
    longer := Extended(longer, Broadcasts(n));
  }

  lemma SecondVoteWins(n: Node, self: Id, peers: seq<Id>)
    requires n.role == Candidate && n.votesReceived == 1 && |peers| == 2
    ensures var won := TakeOffice(CountVote(n), self, peers); var reply := VoteReply(n.meta.currentTerm, true);
            OnVoteReply(n, self, peers, n.meta.currentTerm, reply) == won
  {
    NothingToCommit(TakeOffice(CountVote(n), self, peers), peers);
  }

  lemma VoteWon(c: State, i: nat, n: Id, v: Id)
    requires Three(c) && n in MEMBERS && v in PEERS[n] && i < |c.voteRpcs|
    requires c.nodes[n].role == Candidate && c.nodes[n].votesReceived == 1
    requires c.voteRpcs[i] == VoteRpc(n, v, c.voteRpcs[i].args, Answered(VoteReply(Term(c, n), true)))
    requires c.voteRpcs[i].args.term == Term(c, n)
    ensures ToCollectVote(c, i)
    ensures var d := CollectVoteStep(c, i);
            Three(d) && d.nodes == c.nodes[n := TakeOffice(CountVote(c.nodes[n]), n, PEERS[n])]
  {
    SecondVoteWins(c.nodes[n], n, PEERS[n]);
  }

  function Granted(n: Node, t: nat, candidate: Id): Node {
    StepDown(n, t).(meta := n.meta.(currentTerm := t, votedFor := candidate))
  }

  lemma VoteGranted(c: State, i: nat, n: Id, v: Id)
    requires Three(c) && n in MEMBERS && v in MEMBERS && i < |c.voteRpcs|
    requires c.voteRpcs[i] == VoteRpc(n, v, RequestVotes(c.nodes[n], n), Sent) && Term(c, v) < Term(c, n)
    requires UpToDate(LastTerm(c.nodes[n].log), LastIndex(c.nodes[n].log), c.nodes[v].log)
    ensures ToDeliverVote(c, i)
    ensures var d := DeliverVoteStep(c, i);
            && Three(d) && d.nodes == c.nodes[v := Granted(c.nodes[v], Term(c, n), n)] && |d.voteRpcs| == |c.voteRpcs|
            && d.voteRpcs[i] == VoteRpc(n, v, RequestVotes(c.nodes[n], n), Answered(VoteReply(Term(c, n), true)))
  {
  }

  /** The request on connection i gets its vote. */
  lemma Voted(run: seq<State>, i: nat, n: Id, v: Id) returns (longer: seq<State>)
    requires IsCalmRun(run) && Three(Last(run)) && n in MEMBERS && v in MEMBERS
    requires var c := Last(run);
             && i < |c.voteRpcs| && c.voteRpcs[i] == VoteRpc(n, v, RequestVotes(c.nodes[n], n), Sent)
             && Term(c, v) < Term(c, n)
             && UpToDate(LastTerm(c.nodes[n].log), LastIndex(c.nodes[n].log), c.nodes[v].log)
    ensures IsCalmRun(longer) && run <= longer && Three(Last(longer)) && i < |Last(longer).voteRpcs|
    ensures var c, d := Last(run), Last(longer);
            && d.nodes == c.nodes[v := Granted(c.nodes[v], Term(c, n), n)]
            && d.voteRpcs[i] == VoteRpc(n, v, RequestVotes(c.nodes[n], n), Answered(VoteReply(Term(c, n), true)))
  {
    VoteGranted(Last(run), i, n, v);
    longer := Extended(run, DeliversVote(i));
  }

  /** ... and the vote gives its candidate the office. */
  lemma Polled(run: seq<State>, i: nat, n: Id, v: Id) returns (longer: seq<State>)
    requires IsCalmRun(run) && Three(Last(run)) && n in MEMBERS && v in PEERS[n] && v in MEMBERS && v != n
    requires var c := Last(run);
             && i < |c.voteRpcs| && c.voteRpcs[i] == VoteRpc(n, v, RequestVotes(c.nodes[n], n), Sent)
             && c.nodes[n].role == Candidate && c.nodes[n].votesReceived == 1 && Term(c, v) < Term(c, n)
             && UpToDate(LastTerm(c.nodes[n].log), LastIndex(c.nodes[n].log), c.nodes[v].log)
    ensures IsCalmRun(longer) && run <= longer && Three(Last(longer))
    ensures var c := Last(run);
            Last(longer).nodes == c.nodes[v := Granted(c.nodes[v], Term(c, n), n)]
                                         [n := TakeOffice(CountVote(c.nodes[n]), n, PEERS[n])]
  {
    longer := Voted(run, i, n, v);
    VoteWon(Last(longer), i, n, v);
    longer := Extended(longer, CollectsVote(i));
  }

  lemma Stands(n: Node, self: Id)
    ensures var m := StartElection(n, self);
            && m.role == Candidate && m.votesReceived == 1 && m.log == n.log
            && m.meta.currentTerm == n.meta.currentTerm + 1
  {
  }

  lemma Overwritten(m: map<Id, Node>, n: Id, v: Id, a: Node, b: Node, x: Node)
    requires n != v
    ensures m[n := a][v := b][n := x] == m[v := b][n := x]
  {
  }

  /** The servers of c after n stood and won with the vote of v. */
  function AfterElection(c: State, n: Id, v: Id): map<Id, Node>
    requires n in c.nodes && v in c.nodes && n in PEERS
  {
    var cand := StartElection(c.nodes[n], n);
    c.nodes[v := Granted(c.nodes[v], cand.meta.currentTerm, n)][n := TakeOffice(CountVote(cand), n, PEERS[n])]
  }

  lemma AfterPoll(c: State, d: State, n: Id, v: Id)
    requires Three(c) && n in MEMBERS && v in MEMBERS && v != n
    requires d.nodes == c.nodes[n := StartElection(c.nodes[n], n)]
    ensures d.nodes[v := Granted(d.nodes[v], Term(d, n), n)][n := TakeOffice(CountVote(d.nodes[n]), n, PEERS[n])] ==
            AfterElection(c, n, v)
  {
    var cand := StartElection(c.nodes[n], n);
    Overwritten(c.nodes, n, v, cand, Granted(c.nodes[v], Term(d, n), n), TakeOffice(CountVote(cand), n, PEERS[n]));
  }

  /** n stands and wins with the vote of its q-th peer v, which has not reached n's new term. */
  lemma Election(run: seq<State>, n: Id, q: nat, v: Id) returns (longer: seq<State>)
    requires IsCalmRun(run) && Three(Last(run)) && n in MEMBERS && Last(run).nodes[n].role != Leader
    requires q < 2 && v == PEERS[n][q] && v in MEMBERS && v != n && Term(Last(run), v) <= Term(Last(run), n)
    requires var c := Last(run); UpToDate(LastTerm(c.nodes[n].log), LastIndex(c.nodes[n].log), c.nodes[v].log)
    ensures IsCalmRun(longer) && run <= longer && Three(Last(longer))
    ensures Last(longer).nodes == AfterElection(Last(run), n, v)
  {
    Stands(Last(run).nodes[n], n);
    var campaign := Campaign(run, n, q, v);
    AfterPoll(Last(run), Last(campaign), n, v);
    longer := Polled(campaign, |Last(run).voteRpcs| + q, n, v);
  }

  // ---- appending and replicating -----------------------------------------------------------

  lemma Proposing(run: seq<State>, n: Id, command: Command) returns (longer: seq<State>)
    requires IsCalmRun(run) && Three(Last(run)) && Leads(Last(run), n)
    requires forall p :: p in PEERS[n] ==> At(Last(run).nodes[n].matchIndex, p) <= Last(run).nodes[n].meta.commitIndex
    ensures IsCalmRun(longer) && longer == run + [ProposeStep(Last(run), n, command)] && Three(Last(longer))
    ensures Last(longer).nodes == Last(run).nodes[n := Append(Last(run).nodes[n], command)]
  {
    NothingToCommit(Append(Last(run).nodes[n], command), PEERS[n]);
    longer := Extended(run, Proposes(n, command));
  }

  lemma Sending(c: State, n: Id, p: Id)
    requires Three(c) && Leads(c, n) && p in PEERS[n]
    ensures var d := SendAppendStep(c, n, p);
            && Three(d) && d.nodes == c.nodes && |d.appendRpcs| == |c.appendRpcs| + 1
            && d.appendRpcs[|c.appendRpcs|] == AppendRpc(n, p, BuildAppend(c.nodes[n], n, p), Sent)
  {
  }

  lemma Delivering(c: State, i: nat)
    requires Three(c) && ToDeliverAppend(c, i)
    ensures var d := DeliverAppendStep(c, i); var r := c.appendRpcs[i];
            var (m, reply) := HandleAppendEntries(c.nodes[r.dst], r.args);
            && Three(d) && d.nodes == c.nodes[r.dst := m] && |d.appendRpcs| == |c.appendRpcs|
            && d.appendRpcs[i] == r.(status := Answered(reply))
  {
  }

  lemma Collecting(c: State, i: nat)
    requires Three(c) && i + 1 == |c.appendRpcs| && c.appendRpcs[i].status.Answered? && c.appendRpcs[i].src in MEMBERS
    ensures ToCollectAppend(c, i)
    ensures var d := CollectAppendStep(c, i); var r := c.appendRpcs[i];
            var m := OnAppendReply(c.nodes[r.src], PEERS[r.src], r.dst, r.args, r.status.reply);
            Three(d) && d.nodes == c.nodes[r.src := m]
  {
  }

  lemma Answering(run: seq<State>, i: nat, n: Id, p: Id) returns (longer: seq<State>)
    requires IsCalmRun(run) && Three(Last(run)) && n in MEMBERS && p in MEMBERS
    requires var c := Last(run);
             i + 1 == |c.appendRpcs| && c.appendRpcs[i] == AppendRpc(n, p, c.appendRpcs[i].args, Sent)
    ensures IsCalmRun(longer) && run <= longer && Three(Last(longer))
    ensures var c := Last(run); var args := c.appendRpcs[i].args;
            var (m, reply) := HandleAppendEntries(c.nodes[p], args);
            var d := c.nodes[p := m]; Last(longer).nodes == d[n := OnAppendReply(d[n], PEERS[n], p, args, reply)]
  {
    Delivering(Last(run), i);
    longer := Extended(run, DeliversAppend(i));
    Collecting(Last(longer), i);
    longer := Extended(longer, CollectsAppend(i));
  }

  /** n's sender thread for p sends one AppendEntries and takes the reply. */
  lemma Exchange(run: seq<State>, n: Id, p: Id) returns (longer: seq<State>)
    requires IsCalmRun(run) && Three(Last(run)) && Leads(Last(run), n) && p in PEERS[n] && p != n && p in MEMBERS
    ensures IsCalmRun(longer) && run <= longer && Three(Last(longer))
    ensures var c := Last(run); var args := BuildAppend(c.nodes[n], n, p);
            var (m, reply) := HandleAppendEntries(c.nodes[p], args);
            Last(longer).nodes == c.nodes[p := m][n := OnAppendReply(c.nodes[n], PEERS[n], p, args, reply)]
  {
    Sending(Last(run), n, p);
    longer := Extended(run, SendsAppend(n, p));
    longer := Answering(longer, |Last(run).appendRpcs|, n, p);
  }

  // ---- servers and the start ------------------------------------------------------------

  ghost predicate Is(n: Node, role: Role, term: nat, log: seq<Entry>) {
    n.role == role && n.meta.currentTerm == term && n.log == log
  }

  /** A leader that has committed nothing and knows nothing of its peers. */
  ghost predicate FreshLeader(n: Node, term: nat, log: seq<Entry>, next: nat, peers: seq<Id>) {
    && Is(n, Leader, term, log) && n.meta.commitIndex == 0
    && forall p :: p in peers ==> At(n.matchIndex, p) == 0 && At(n.nextIndex, p) == next
  }

  ghost function Fresh(): State {
    var n := Recovered(MetaData(0, 0, 0, 0), []);
    State(MEMBERS, PEERS, map[1 := n, 2 := n, 3 := n], {}, [], [], map[], map[], map[])
  }

  lemma FreshIsInitial()
    ensures Initial(Fresh()) && Three(Fresh())
  {
    assert IsListOf(PEERS[1], MEMBERS - {1}) && IsListOf(PEERS[2], MEMBERS - {2}) && IsListOf(PEERS[3], MEMBERS - {3});
  }

  const OPENING1 := Entry(1, 1, NOOP_COMMAND)
  const OPENING2 := Entry(2, 1, NOOP_COMMAND)

  /** Server 1 leads term 1. */
  lemma FirstElection() returns (run: seq<State>)
    ensures IsCalmRun(run) && Three(Last(run))
    ensures var c := Last(run);
            && FreshLeader(c.nodes[1], 1, [OPENING1], 2, PEERS[1])
            && Is(c.nodes[2], Follower, 1, []) && Is(c.nodes[3], Follower, 0, [])
            && c.nodes[2].meta.commitIndex == 0 && c.nodes[3].meta.commitIndex == 0
  {
    FreshIsInitial();
    run := Election([Fresh()], 1, 0, 2);
  }

  /** Server 3, which has heard of nothing yet, runs twice and leads term 2. */
  lemma SecondElection(run: seq<State>) returns (longer: seq<State>)
    requires IsCalmRun(run) && Three(Last(run))
    requires var c := Last(run);
             && Is(c.nodes[2], Follower, 1, []) && Is(c.nodes[3], Follower, 0, []) && c.nodes[3].meta.commitIndex == 0
    ensures IsCalmRun(longer) && run <= longer && Three(Last(longer))
    ensures var c, d := Last(run), Last(longer);
            && d.nodes[1] == c.nodes[1]
            && Is(d.nodes[2], Follower, 2, []) && d.nodes[2].meta.commitIndex == c.nodes[2].meta.commitIndex
            && FreshLeader(d.nodes[3], 2, [OPENING2], 2, PEERS[3])
  {
    longer := Campaign(run, 3, 1, 2);
    longer := Election(longer, 3, 1, 2);
  }

  /** A leader one of whose two peers has its whole log commits all of it. */
  lemma CommitsWithOne(n: Node, peers: seq<Id>, p: Id)
    requires n.role == Leader && |peers| == 2 && p in peers && At(n.matchIndex, p) == |n.log|
    requires n.meta.commitIndex < |n.log| == LastIndex(n.log) && LastTerm(n.log) == n.meta.currentTerm
    ensures var m := AdvanceCommit(n, peers);
            && Is(m, Leader, n.meta.currentTerm, n.log) && m.meta.commitIndex == |n.log|
            && m.nextIndex == n.nextIndex && m.matchIndex == n.matchIndex
  {
    assert p in Replicas(peers, n.matchIndex, |n.log|);
    assert |Replicas(peers, n.matchIndex, |n.log|)| >= 1;
  }

  lemma WholeLogSent(n: Node, self: Id, peer: Id)
    requires At(n.nextIndex, peer) == 1
    ensures BuildAppend(n, self, peer) == AppendArgs(n.meta.currentTerm, self, 0, 0, n.log, n.meta.commitIndex)
  {
  }

  lemma WholeLogTaken(p: Node, args: AppendArgs)
    requires p.meta.currentTerm <= args.term && p.meta.commitIndex == 0 && args.prevLogIndex == 0
    requires args.entries != [] && LastIndex(args.entries) == |args.entries| >= args.leaderCommit
    requires p.log == [] || p.log[0].term != args.entries[0].term
    ensures var (m, reply) := HandleAppendEntries(p, args);
            && Is(m, Follower, args.term, args.entries) && m.meta.commitIndex == args.leaderCommit
            && reply == AppendReply(args.term, true)
  {
  }

  /** A leader that has backed up all the way overwrites a follower that shares nothing with it. */
  lemma WholeLogStored(n: Node, self: Id, peers: seq<Id>, peer: Id, p: Node)
    requires n.role == Leader && At(n.nextIndex, peer) == 1
    requires p.meta.currentTerm <= n.meta.currentTerm && p.meta.commitIndex == 0
    requires n.log != [] && LastIndex(n.log) == |n.log| >= n.meta.commitIndex
    requires p.log == [] || p.log[0].term != n.log[0].term
    ensures var args := BuildAppend(n, self, peer); var (m, reply) := HandleAppendEntries(p, args);
            && Is(m, Follower, n.meta.currentTerm, n.log) && m.meta.commitIndex == n.meta.commitIndex
            && OnAppendReply(n, peers, peer, args, reply) == AdvanceCommit(Progress(n, peer, |n.log|), peers)
  {
    WholeLogSent(n, self, peer);
    WholeLogTaken(p, BuildAppend(n, self, peer));
  }

  lemma AdvanceKeepsLog(n: Node, peers: seq<Id>)
    ensures var m := AdvanceCommit(n, peers); m.log == n.log && m.meta.currentTerm == n.meta.currentTerm
  {
  }

  lemma StillProposed(run: seq<State>, longer: seq<State>, k: nat, n: Id, e: Entry)
    requires ProposedAt(run, k, n, e) && run <= longer
    ensures ProposedAt(longer, k, n, e)
  {
    assert longer[k] == run[k] && longer[k + 1] == run[k + 1];
  }
}
