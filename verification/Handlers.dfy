// What the handlers must do with every message of every run, said of the
// cluster's history and of plain numbers instead of the handlers' own tests.
module Handlers {
  import opened RaftTypes
  import opened RaftNode
  import opened Cluster
  import opened Invariants
  import opened Bookkeeping
  import CommitKept
  import ElectionKept
  import History
  import LogKept
  import Runs
  import Safety

  // ---- terms ---------------------------------------------------------------------------------

  ghost predicate TakesMessage(e: Event) {
    e.DeliversVote? || e.CollectsVote? || e.DeliversAppend? || e.CollectsAppend?
  }

  /** The term of the request or reply that an event delivers. */
  function MessageTerm(c: State, e: Event): nat
    requires Enabled(c, e) && TakesMessage(e)
  {
    match e
    case DeliversVote(i) => c.voteRpcs[i].args.term
    case CollectsVote(i) => c.voteRpcs[i].status.reply.term
    case DeliversAppend(i) => c.appendRpcs[i].args.term
    case CollectsAppend(i) => c.appendRpcs[i].status.reply.term
  }

  /** n heard of term t and is now m. */
  ghost predicate Heard(n: Node, t: nat, m: Node) {
    m.meta.currentTerm == Max(n.meta.currentTerm, t) && (t > n.meta.currentTerm ==> m.role == Follower)
  }

  lemma VoteHeard(n: Node, args: VoteArgs)
    ensures var (m, reply) := HandleRequestVote(n, args);
            Heard(n, args.term, m) && reply.term == m.meta.currentTerm
  {
  }

  lemma AppendHeard(n: Node, args: AppendArgs)
    ensures var (m, reply) := HandleAppendEntries(n, args);
            Heard(n, args.term, m) && reply.term == m.meta.currentTerm
  {
  }

  lemma VoteReplyHeard(n: Node, self: Id, peers: seq<Id>, electionTerm: nat, reply: VoteReply)
    ensures Heard(n, reply.term, OnVoteReply(n, self, peers, electionTerm, reply))
  {
  }

  lemma AppendReplyHeard(n: Node, peers: seq<Id>, peer: Id, args: AppendArgs, reply: AppendReply)
    ensures Heard(n, reply.term, OnAppendReply(n, peers, peer, args, reply))
  {
  }

  /** Whoever takes a request or a reply is in the later of its own term and the message's from then on, as a follower
      if the message's is later. */
  lemma TermsAdopted(c: State, e: Event)
    requires Enabled(c, e) && TakesMessage(e)
    ensures Heard(c.nodes[Actor(c, e)], MessageTerm(c, e), Next(c, e).nodes[Actor(c, e)])
  {
    var a := Actor(c, e);
    var n, peers := c.nodes[a], Peers(c, a);
    EventMoves(c, e);
    match e
    case DeliversVote(i) => VoteHeard(n, c.voteRpcs[i].args);
    case CollectsVote(i) => VoteReplyHeard(n, a, peers, c.voteRpcs[i].args.term, c.voteRpcs[i].status.reply);
    case DeliversAppend(i) => AppendHeard(n, c.appendRpcs[i].args);
    case CollectsAppend(i) =>
      AppendReplyHeard(n, peers, c.appendRpcs[i].dst, c.appendRpcs[i].args, c.appendRpcs[i].status.reply);
  }

  /** Replies carry the term their sender is in when it sends them. */
  lemma RepliesCarryTerm(c: State, i: nat)
    ensures ToDeliverVote(c, i) ==>
              var d := DeliverVoteStep(c, i); d.voteRpcs[i].status.reply.term == Term(d, c.voteRpcs[i].dst)
    ensures ToDeliverAppend(c, i) ==>
              var d := DeliverAppendStep(c, i); d.appendRpcs[i].status.reply.term == Term(d, c.appendRpcs[i].dst)
  {
    if ToDeliverVote(c, i) { VoteHeard(c.nodes[c.voteRpcs[i].dst], c.voteRpcs[i].args); }
    if ToDeliverAppend(c, i) { AppendHeard(c.nodes[c.appendRpcs[i].dst], c.appendRpcs[i].args); }
  }

  // ---- elections -------------------------------------------------------------------------------

  /** A request in a term the voter has not reached is granted exactly if the voter's log does not end above the
      candidate's. */
  lemma GrantsInFreshTerm(n: Node, args: VoteArgs)
    requires args.term > n.meta.currentTerm
    ensures HandleRequestVote(n, args).1.voteGranted <==>
            !Above(LastTerm(n.log), LastIndex(n.log), args.lastLogTerm, args.lastLogIndex)
  {
  }

  lemma UpToDateTotal(a: seq<Entry>, b: seq<Entry>)
    ensures UpToDate(LastTerm(a), LastIndex(a), b) || UpToDate(LastTerm(b), LastIndex(b), a)
  {
  }

  lemma UpToDateTransitive(a: seq<Entry>, b: seq<Entry>, x: seq<Entry>)
    requires UpToDate(LastTerm(a), LastIndex(a), b) && UpToDate(LastTerm(b), LastIndex(b), x)
    ensures UpToDate(LastTerm(a), LastIndex(a), x)
  {
  }

  /** n's request in term t. */
  function RequestIn(n: Node, self: Id, t: nat): VoteArgs {
    RequestVotes(n.(meta := n.meta.(currentTerm := t)), self)
  }

  /** Among any servers there is one whose request every other grants in a term new to it, so no election is blocked by
      logs for good. */
  lemma {:induction false} SomeoneElectable(nodes: map<Id, Node>, s: set<Id>) returns (n: Id)
    requires s != {} && s <= nodes.Keys
    ensures n in s
    ensures forall v: Id, t: nat :: v in s && t > nodes[v].meta.currentTerm ==>
              HandleRequestVote(nodes[v], RequestIn(nodes[n], n, t)).1.voteGranted
    decreases |s|
  {
    n := MostUpToDate(nodes, s);
    forall v: Id, t: nat | v in s && t > nodes[v].meta.currentTerm
      ensures HandleRequestVote(nodes[v], RequestIn(nodes[n], n, t)).1.voteGranted
    {
      GrantsInFreshTerm(nodes[v], RequestIn(nodes[n], n, t));
    }
  }

  lemma {:induction false} MostUpToDate(nodes: map<Id, Node>, s: set<Id>) returns (n: Id)
    requires s != {} && s <= nodes.Keys
    ensures n in s
    ensures forall v :: v in s ==> UpToDate(LastTerm(nodes[n].log), LastIndex(nodes[n].log), nodes[v].log)
    decreases |s|
  {
    var m :| m in s;
    n := m;
    if s != {m} {
      var best := MostUpToDate(nodes, s - {m});
      UpToDateTotal(nodes[best].log, nodes[m].log);
      if UpToDate(LastTerm(nodes[best].log), LastIndex(nodes[best].log), nodes[m].log) {
        n := best;
      } else {
        forall v | v in s - {m} ensures UpToDate(LastTerm(nodes[m].log), LastIndex(nodes[m].log), nodes[v].log) {
          UpToDateTransitive(nodes[m].log, nodes[best].log, nodes[v].log);
        }
      }
    }
  }

  /** v has voted for someone else than n in term t. */
  ghost predicate VotedOtherwise(c: State, t: nat, v: Id, n: Id) {
    (t, v) in c.votes && c.votes[(t, v)].candidate != n
  }

  lemma GrantsIff(n: Node, args: VoteArgs)
    ensures HandleRequestVote(n, args).1.voteGranted <==>
            && args.term >= n.meta.currentTerm
            && (args.term == n.meta.currentTerm ==> n.meta.votedFor in {0, args.candidateId})
            && !Above(LastTerm(n.log), LastIndex(n.log), args.lastLogTerm, args.lastLogIndex)
  {
  }

  /** In every reachable state a vote is granted exactly if the voter is not past the term, has not voted for anyone
      else in it, and its log does not end above the candidate's. */
  lemma GrantsExactly(run: seq<State>, i: nat, q: nat)
    requires IsRun(run) && i < |run| && ToDeliverVote(run[i], q)
    ensures var c := run[i]; var r := c.voteRpcs[q]; var log := c.nodes[r.dst].log;
            DeliverVoteStep(c, q).voteRpcs[q].status.reply.voteGranted <==>
            && Term(c, r.dst) <= r.args.term && !VotedOtherwise(c, r.args.term, r.dst, r.src)
            && !Above(LastTerm(log), |log|, r.args.lastLogTerm, r.args.lastLogIndex)
  {
    var c := run[i];
    var r := c.voteRpcs[q];
    Runs.RunKept(run, i);
    RunExactly(run, i);
    CandidateNamed(c, q);
    Safety.LogNumbered(run, i, r.dst);
    GrantsIff(c.nodes[r.dst], r.args);
    if (r.args.term, r.dst) in c.votes {
      assert VoteRecorded(c, r.args.term, r.dst, c.votes[(r.args.term, r.dst)]);
    }
  }

  lemma CountedAfter(c: State, q: nat)
    requires VoteRpcsOk(c) && VotesCounted(c) && ToCollectVote(c, q)
    requires CountsVote(c.nodes[c.voteRpcs[q].src], c.voteRpcs[q].args.term, c.voteRpcs[q].status.reply)
    ensures var r := c.voteRpcs[q]; var d := MarkVote(c, q, Taken(r.status.reply));
            |Supporters(d.voteRpcs, r.src, r.args.term)| == c.nodes[r.src].votesReceived + 1
  {
    var r := c.voteRpcs[q];
    ElectionKept.NewSupporter(c, q);
    ElectionKept.MarkedSupporters(c, q, Taken(r.status.reply), r.src, r.args.term);
  }

  /** A vote wins a running candidate the office exactly if those counted, its own included, are then more than half of
      the members. */
  lemma WinsExactly(run: seq<State>, i: nat, q: nat)
    requires IsRun(run) && i < |run| && ToCollectVote(run[i], q)
    requires var c := run[i]; var r := c.voteRpcs[q];
             && c.nodes[r.src].role == Candidate && Term(c, r.src) == r.args.term
             && r.status.reply.voteGranted && r.status.reply.term <= r.args.term
    ensures var c := run[i]; var r := c.voteRpcs[q]; var d := CollectVoteStep(c, q);
            && Term(d, r.src) == r.args.term
            && d.nodes[r.src].role ==
               if 2 * |Supporters(d.voteRpcs, r.src, r.args.term)| > |c.members| then Leader else Candidate
  {
    var c := run[i];
    var r := c.voteRpcs[q];
    CountingFacts(run, i, q);
    CountedAfter(c, q);
    MajorityIsMoreThanHalf(|c.members|, c.nodes[r.src].votesReceived + 1);
    CollectedVote(c, q);
  }

  lemma CountingFacts(run: seq<State>, i: nat, q: nat)
    requires IsRun(run) && i < |run| && ToCollectVote(run[i], q)
    ensures var c := run[i];
            VoteRpcsOk(c) && VotesCounted(c) && Majority(|Peers(c, c.voteRpcs[q].src)| + 1) == Majority(|c.members|)
  {
    Runs.RunKept(run, i);
    Parts(run[i]);
    CommitKept.PeersCount(run[i], run[i].voteRpcs[q].src);
  }

  lemma CollectedVote(c: State, q: nat)
    requires ToCollectVote(c, q)
    requires CountsVote(c.nodes[c.voteRpcs[q].src], c.voteRpcs[q].args.term, c.voteRpcs[q].status.reply)
    ensures var r := c.voteRpcs[q]; var d := CollectVoteStep(c, q);
            && d.voteRpcs == MarkVote(c, q, Taken(r.status.reply)).voteRpcs && Term(d, r.src) == Term(c, r.src)
            && d.nodes[r.src].role ==
               if c.nodes[r.src].votesReceived + 1 >= Majority(|Peers(c, r.src)| + 1) then Leader else Candidate
  {
    var r := c.voteRpcs[q];
    Runs.AdvanceKeeps(TakeOffice(CountVote(c.nodes[r.src]), r.src, Peers(c, r.src)), Peers(c, r.src));
  }

  lemma VotesReached(c: State, t: nat, v: Id)
    requires VotesRecorded(c) && (t, v) in c.votes
    ensures v in c.nodes && t <= Term(c, v)
  {
    assert VoteRecorded(c, t, v, c.votes[(t, v)]);
  }

  lemma NoVoteAhead(c: State, n: Id)
    requires VotesRecorded(c) && n in c.nodes
    ensures (Term(c, n) + 1, n) !in c.votes
  {
    if (Term(c, n) + 1, n) in c.votes { VotesReached(c, Term(c, n) + 1, n); }
  }

  lemma StandsAs(c: State, n: Id)
    requires CanTimeout(c, n)
    ensures var d := TimeoutStep(c, n); var m := OnTimeout(c.nodes[n], n, Peers(c, n));
            d.nodes[n] == m && d.broadcasting == if m.role == Leader then c.broadcasting else c.broadcasting + {n}
  {
  }

  lemma StandsInNext(n: Node, self: Id, peers: seq<Id>)
    ensures var m := OnTimeout(n, self, peers);
            && m.meta.currentTerm == n.meta.currentTerm + 1
            && m.role == if 1 >= Majority(|peers| + 1) then Leader else Candidate
  {
    Runs.AdvanceKeeps(TakeOffice(StartElection(n, self), self, peers), peers);
  }

  /** The election timer opens the next term with the server's vote for itself; only the sole member of a cluster
      leads at once, anyone else goes on to ask the others. */
  lemma StandsExactly(c: State, n: Id)
    requires Inv(c) && CanTimeout(c, n)
    ensures var d := TimeoutStep(c, n);
            && Term(d, n) == Term(c, n) + 1 && VotedFor(d, Term(d, n), n, n)
            && d.nodes[n].role == (if |c.members| == 1 then Leader else Candidate)
            && d.broadcasting == (if |c.members| == 1 then c.broadcasting else c.broadcasting + {n})
  {
    StandingFacts(c, n);
    StandsAs(c, n);
    StandsInNext(c.nodes[n], n, Peers(c, n));
    History.OwnVote(c, n);
    MajorityIsMoreThanHalf(|c.members|, 1);
  }

  lemma StandingFacts(c: State, n: Id)
    requires Inv(c) && n in c.nodes
    ensures Majority(|Peers(c, n)| + 1) == Majority(|c.members|) && n in c.members && c.members != {}
    ensures (Term(c, n) + 1, n) !in c.votes
  {
    ShapeOf(c);
    VotesOf(c);
    NoVoteAhead(c, n);
    CommitKept.PeersCount(c, n);
  }

  /** The broadcast asks every other member. */
  lemma BroadcastAsksAll(c: State, n: Id, v: Id)
    requires Shape(c) && CanBroadcast(c, n) && v in c.members && v != n
    ensures var d := BroadcastStep(c, n);
            exists q :: |c.voteRpcs| <= q < |d.voteRpcs| && d.voteRpcs[q].src == n && d.voteRpcs[q].dst == v
  {
    var to := c.peerList[n];
    assert IsListOf(to, c.members - {n});
    assert v in to;
    var k :| 0 <= k < |to| && to[k] == v;
    var d := BroadcastStep(c, n);
    assert d.voteRpcs[|c.voteRpcs| + k].dst == v;
  }

  // ---- AppendEntries -----------------------------------------------------------------------------

  lemma SharedPrev(log: seq<Entry>, lead: seq<Entry>, a: AppendArgs)
    requires SliceOf(lead, a) && Shares(log, lead, a.prevLogIndex)
    ensures PrevMatches(log, a)
  {
  }

  /** In every reachable state an AppendEntries succeeds exactly at a server that is not past its term and whose log
      begins with the leader's up to prevLogIndex. */
  lemma AcceptsExactly(run: seq<State>, i: nat, q: nat)
    requires IsRun(run) && i < |run| && ToDeliverAppend(run[i], q)
    ensures var c := run[i]; var r := c.appendRpcs[q];
            && r.args.term in c.reigns
            && (DeliverAppendStep(c, q).appendRpcs[q].status.reply.success <==>
                  Term(c, r.dst) <= r.args.term
                  && Shares(c.nodes[r.dst].log, LogOf(c, r.args.term), r.args.prevLogIndex))
  {
    var c := run[i];
    var r := c.appendRpcs[q];
    var log := c.nodes[r.dst].log;
    Safety.LogFacts(run, i, r.dst);
    Safety.SliceFacts(run, i, q);
    var lead := LogOf(c, r.args.term);
    if PrevMatches(log, r.args) { LogKept.PrevShared(c, log, lead, r.args); }
    if Shares(log, lead, r.args.prevLogIndex) { SharedPrev(log, lead, r.args); }
  }

  lemma CommitRaised(n: Node, args: AppendArgs)
    requires LastIndex(n.log) >= args.prevLogIndex + |args.entries|
    ensures CommitFrom(n, args).meta.commitIndex ==
            Max(n.meta.commitIndex, Min(args.leaderCommit, args.prevLogIndex + |args.entries|))
  {
  }

  lemma FollowsCommit(n: Node, args: AppendArgs)
    requires args.term >= n.meta.currentTerm && PrevMatches(n.log, args) && args.prevLogIndex <= |n.log|
    requires LastIndex(Reconcile(n.log, args.prevLogIndex, args.entries)) >= args.prevLogIndex + |args.entries|
    ensures HandleAppendEntries(n, args).0.meta.commitIndex ==
            Max(n.meta.commitIndex, Min(args.leaderCommit, args.prevLogIndex + |args.entries|))
  {
    CommitRaised(StoreEntries(Recognize(n, args), args), args);
  }

  /** Every AppendEntries that succeeds, heartbeats included, leaves the commit index at the larger of what it was and
      what the leader reports of the entries the follower now shares with it. */
  lemma FollowsCommitExactly(run: seq<State>, i: nat, q: nat)
    requires IsRun(run) && i < |run| && ToDeliverAppend(run[i], q)
    ensures var c := run[i]; var r := c.appendRpcs[q]; var (m, reply) := HandleAppendEntries(c.nodes[r.dst], r.args);
            m.meta.commitIndex ==
            if reply.success
            then Max(c.nodes[r.dst].meta.commitIndex, Min(r.args.leaderCommit, r.args.prevLogIndex + |r.args.entries|))
            else c.nodes[r.dst].meta.commitIndex
  {
    var c := run[i];
    var r := c.appendRpcs[q];
    if HandleAppendEntries(c.nodes[r.dst], r.args).1.success {
      StoredReaches(run, i, q);
      FollowsCommit(c.nodes[r.dst], r.args);
    }
  }

  lemma StoredReaches(run: seq<State>, i: nat, q: nat)
    requires IsRun(run) && i < |run| && ToDeliverAppend(run[i], q)
    requires var r := run[i].appendRpcs[q]; HandleAppendEntries(run[i].nodes[r.dst], r.args).1.success
    ensures var c := run[i]; var r := c.appendRpcs[q]; var n := c.nodes[r.dst];
            && r.args.term >= n.meta.currentTerm && PrevMatches(n.log, r.args) && r.args.prevLogIndex <= |n.log|
            && LastIndex(Reconcile(n.log, r.args.prevLogIndex, r.args.entries)) >=
               r.args.prevLogIndex + |r.args.entries|
  {
    var r := run[i].appendRpcs[q];
    var n := run[i].nodes[r.dst];
    SuccessMeans(n, r.args);
    SliceNumbered(run, i, q);
    ResultReaches(run[i], n.log, LogOf(run[i], r.args.term), r.args, Term(run[i], r.dst));
  }

  lemma SuccessMeans(n: Node, args: AppendArgs)
    requires HandleAppendEntries(n, args).1.success
    ensures args.term >= n.meta.currentTerm && PrevMatches(n.log, args)
  {
  }

  lemma SliceNumbered(run: seq<State>, i: nat, q: nat)
    requires IsRun(run) && i < |run| && ToDeliverAppend(run[i], q)
    ensures var c := run[i]; var a := c.appendRpcs[q].args; var v := c.appendRpcs[q].dst;
            && Matches(c, c.nodes[v].log) && WellNumbered(c.nodes[v].log, Term(c, v))
            && a.term in c.reigns && SliceOf(LogOf(c, a.term), a)
            && Matches(c, LogOf(c, a.term)) && WellNumbered(LogOf(c, a.term), a.term)
  {
    Safety.SliceFacts(run, i, q);
    Safety.AllNumbered(run, i);
  }

  lemma ResultReaches(c: State, log: seq<Entry>, lead: seq<Entry>, a: AppendArgs, top: nat)
    requires Matches(c, log) && Matches(c, lead) && SliceOf(lead, a) && PrevMatches(log, a)
    requires WellNumbered(log, top) && WellNumbered(lead, a.term)
    ensures a.prevLogIndex <= |log|
    ensures LastIndex(Reconcile(log, a.prevLogIndex, a.entries)) >= a.prevLogIndex + |a.entries|
  {
    LogKept.ReconcileYields(c, log, lead, a);
    AcceptedLast(log, lead, a.prevLogIndex + |a.entries|, top, a.term);
  }

  lemma AcceptedLast(log: seq<Entry>, lead: seq<Entry>, m: nat, top: nat, leadTop: nat)
    requires WellNumbered(log, top) && WellNumbered(lead, leadTop) && m <= |lead|
    ensures LastIndex(LogKept.AcceptedResult(log, lead, m)) >= m
  {
  }

  // ---- committing ------------------------------------------------------------------------------------

  /** The members the leader n knows to hold its log up to index. */
  function KnownHolders(c: State, n: Id, index: nat): set<Id>
    requires n in c.nodes
  {
    set v | v in c.members && (v == n || At(c.nodes[n].matchIndex, v) >= index)
  }

  lemma HoldersCounted(c: State, n: Id, index: nat)
    requires Shape(c) && n in c.nodes
    ensures |KnownHolders(c, n, index)| == 1 + |KnownTo(c.nodes[n], Peers(c, n), index)|
    ensures |Peers(c, n)| + 1 == |c.members|
  {
    CommitKept.PeersCount(c, n);
    CommitKept.ListSize(Peers(c, n), c.members - {n});
    assert KnownHolders(c, n, index) == KnownTo(c.nodes[n], Peers(c, n), index) + {n};
    assert c.members == (c.members - {n}) + {n};
  }

  /** In every reachable state a leader has committed every entry of its own term that it knows more than half of the
      members to hold. */
  lemma NothingLeftToCommit(run: seq<State>, i: nat, n: Id, k: nat)
    requires IsRun(run) && i < |run| && Leads(run[i], n)
    requires var m := run[i].nodes[n];
             0 < k <= |m.log| && m.log[k - 1].term == m.meta.currentTerm
             && 2 * |KnownHolders(run[i], n, k)| > |run[i].members|
    ensures k <= run[i].nodes[n].meta.commitIndex
  {
    RunSettled(run, i);
    Safety.LogNumbered(run, i, n);
    Runs.RunKept(run, i);
    ShapeOf(run[i]);
    HoldersCounted(run[i], n, k);
  }

  // ---- leaders ------------------------------------------------------------------------------------------

  /** Where a server that was not leading before an event leads after it, its log has grown by the entry that opens the
      term, and it starts every peer right behind that entry, with nothing known of it. */
  lemma OfficeStarts(c: State, e: Event, n: Id)
    requires Enabled(c, e) && Leads(Next(c, e), n) && !Leads(c, n) && n in c.nodes
    ensures InNewOffice(c.nodes[n].log, Next(c, e).nodes[n], Peers(c, n))
  {
    EventMoves(c, e);
    assert n == Actor(c, e);
    OfficeTaken(c, e);
  }

  /** m leads with log and the entry that opens its term, and has nothing but guesses about its peers. */
  ghost predicate InNewOffice(log: seq<Entry>, m: Node, peers: seq<Id>) {
    && m.log == log + [Entry(m.meta.currentTerm, LastIndex(log) + 1, NOOP_COMMAND)]
    && forall p :: p in peers ==> At(m.matchIndex, p) == 0 && At(m.nextIndex, p) == LastIndex(log) + 2
  }

  lemma OfficeTaken(c: State, e: Event)
    requires Enabled(c, e) && After(c, e).role == Leader && c.nodes[Actor(c, e)].role != Leader
    ensures InNewOffice(c.nodes[Actor(c, e)].log, After(c, e), Peers(c, Actor(c, e)))
  {
    var a := Actor(c, e);
    var n, peers := c.nodes[a], Peers(c, a);
    match e
    case TimesOut(_) => OfficeAdvances(StartElection(n, a), a, peers);
    case CollectsVote(i) =>
      VoteReplyWins(n, a, peers, c.voteRpcs[i].args.term, c.voteRpcs[i].status.reply);
      OfficeAdvances(CountVote(n), a, peers);
    case _ => NoOffice(c, e);
  }

  lemma OfficeAdvances(n: Node, self: Id, peers: seq<Id>)
    ensures InNewOffice(n.log, BecomeLeader(n, self, peers), peers)
  {
    AdvanceKeepsRecord(TakeOffice(n, self, peers), peers);
  }

  lemma AdvanceKeepsRecord(n: Node, peers: seq<Id>)
    ensures var m := AdvanceCommit(n, peers);
            && m.log == n.log && m.meta.currentTerm == n.meta.currentTerm && m.role == n.role
            && m.nextIndex == n.nextIndex && m.matchIndex == n.matchIndex
  {
  }

  lemma VoteReplyWins(n: Node, self: Id, peers: seq<Id>, electionTerm: nat, reply: VoteReply)
    requires n.role != Leader && OnVoteReply(n, self, peers, electionTerm, reply).role == Leader
    ensures OnVoteReply(n, self, peers, electionTerm, reply) == BecomeLeader(CountVote(n), self, peers)
  {
  }

  lemma NoOffice(c: State, e: Event)
    requires Enabled(c, e) && !e.TimesOut? && !e.CollectsVote?
    ensures After(c, e).role == Leader ==> c.nodes[Actor(c, e)].role == Leader
  {
  }

  /** While a server leads, nothing it takes lowers what it knows of a peer. */
  lemma MatchNeverFalls(n: Node, peers: seq<Id>, peer: Id, args: AppendArgs, reply: AppendReply, p: Id)
    ensures var m := OnAppendReply(n, peers, peer, args, reply); At(m.matchIndex, p) >= At(n.matchIndex, p)
  {
    AdvanceKeepsRecord(Progress(n, peer, args.prevLogIndex + |args.entries|), peers);
  }

  // ---- redirects -------------------------------------------------------------------------------------------

  /** Who redirects a client does not lead; whom it names was elected for the server's term, and is the only server that
      leads it at any moment of the run. */
  lemma RedirectNamesLeader(run: seq<State>, i: nat, n: Id, e: Entry, isRead: bool, key: Bytes)
    requires IsRun(run) && i < |run| && n in run[i].nodes
    requires Conclude(run[i].nodes[n], true, e, isRead, key).NotLeader?
    ensures var c := run[i]; var l := Conclude(c.nodes[n], true, e, isRead, key).leaderId; var t := Term(c, n);
            && !Leads(c, n) && l in c.members && t in c.reigns && c.reigns[t].leader == l
            && 2 * |c.reigns[t].quorum| > |c.members|
            && (forall v :: v in c.reigns[t].quorum ==> VotedFor(c, t, v, l))
  {
    RunKnown(run, i);
    assert LeaderKnown(run[i], n, run[i].nodes[n]);
    Safety.QuorumFacts(run, i, Term(run[i], n));
    MajorityIsMoreThanHalf(|run[i].members|, |run[i].reigns[Term(run[i], n)].quorum|);
    Runs.RunKept(run, i);
    ShapeOf(run[i]);
  }

  /** No other server leads that term at any moment of the run. */
  lemma OnlyLeader(run: seq<State>, i: nat, n: Id, e: Entry, isRead: bool, key: Bytes, j: nat, l: Id)
    requires IsRun(run) && i < |run| && n in run[i].nodes
    requires Conclude(run[i].nodes[n], true, e, isRead, key).NotLeader?
    requires j < |run| && Leads(run[j], l) && Term(run[j], l) == Term(run[i], n)
    ensures Conclude(run[i].nodes[n], true, e, isRead, key) == NotLeader(l)
  {
    RunKnown(run, i);
    assert LeaderKnown(run[i], n, run[i].nodes[n]);
    Safety.LeaderFacts(run, j, l);
    if i <= j { Safety.SameReign(run, i, j, Term(run[j], l)); } else { Safety.SameReign(run, j, i, Term(run[j], l)); }
  }

  /** Whoever takes an AppendEntries of its own or a later term sends clients to the sender. */
  lemma FollowerRedirects(n: Node, args: AppendArgs, e: Entry, isRead: bool, key: Bytes)
    requires args.term >= n.meta.currentTerm && args.leaderId != 0
    ensures Conclude(HandleAppendEntries(n, args).0, true, e, isRead, key) == NotLeader(args.leaderId)
  {
  }
}
