// Votes, elections and the vote counter.
module ElectionKept {
  import opened RaftTypes
  import opened RaftNode
  import opened Cluster
  import opened Invariants
  import opened ElementarySteps

  /** The server is electorally unchanged, or follows in the same term, or follows in a later one. */
  ghost predicate CalmNode(a: Node, b: Node) {
    && b.meta.currentTerm >= a.meta.currentTerm
    && (b.meta.currentTerm == a.meta.currentTerm ==> b.meta.votedFor == a.meta.votedFor)
    && (b.role != Follower ==>
          b.role == a.role && b.meta.currentTerm == a.meta.currentTerm && b.votesReceived == a.votesReceived)
  }

  /** Nothing electoral happens, except that servers may fall back to following. */
  ghost predicate Calm(c: State, d: State) {
    && d.members == c.members && d.peerList == c.peerList && d.broadcasting <= c.broadcasting
    && d.voteRpcs == c.voteRpcs && d.votes == c.votes
    && d.nodes.Keys == c.nodes.Keys && d.reigns.Keys == c.reigns.Keys
    && (forall n :: n in c.nodes ==> CalmNode(c.nodes[n], d.nodes[n]))
    && (forall t :: t in c.reigns ==> SameElection(c.reigns[t], d.reigns[t]))
  }

  ghost predicate SameElection(a: Reign, b: Reign) {
    b.leader == a.leader && b.quorum == a.quorum
  }

  lemma CalmReigns(c: State, d: State)
    requires Calm(c, d) && ReignsElected(c)
    ensures ReignsElected(d)
  {
    forall t | t in d.reigns ensures ReignElected(d, t, d.reigns[t]) {
      assert ReignElected(c, t, c.reigns[t]);
    }
    forall n | n in d.nodes ensures InReign(d, n) {
      assert InReign(c, n);
    }
  }

  lemma CalmVotes(c: State, d: State)
    requires Calm(c, d) && VotesRecorded(c)
    ensures VotesRecorded(d)
  {
    forall t, v | (t, v) in d.votes ensures VoteRecorded(d, t, v, d.votes[(t, v)]) {
      assert VoteRecorded(c, t, v, c.votes[(t, v)]);
    }
  }

  lemma CalmRpcs(c: State, d: State)
    requires Calm(c, d) && VoteRpcsOk(c)
    ensures VoteRpcsOk(d)
  {
    forall i | 0 <= i < |d.voteRpcs| ensures VoteRpcOk(d, d.voteRpcs[i]) {
      assert VoteRpcOk(c, c.voteRpcs[i]);
    }
  }

  lemma CalmCounters(c: State, d: State)
    requires Calm(c, d) && VotesCounted(c)
    ensures VotesCounted(d)
  {
  }

  lemma CalmKept(c: State, d: State)
    requires ElectionInv(c) && Calm(c, d)
    ensures ElectionInv(d)
  {
    CalmReigns(c, d);
    CalmVotes(c, d);
    CalmRpcs(c, d);
    CalmCounters(c, d);
  }

  /** Connections and timers do not matter to votes and reigns. */
  lemma SameVotes(c: State, d: State)
    requires VotesRecorded(c) && d.nodes == c.nodes && d.votes == c.votes
    ensures VotesRecorded(d)
  {
    forall t, v | (t, v) in d.votes ensures VoteRecorded(d, t, v, d.votes[(t, v)]) {
      assert VoteRecorded(c, t, v, c.votes[(t, v)]);
    }
  }

  lemma SameReigns(c: State, d: State)
    requires ReignsElected(c) && d.nodes == c.nodes && d.votes == c.votes && d.reigns == c.reigns
             && d.members == c.members
    ensures ReignsElected(d)
  {
    forall t | t in d.reigns ensures ReignElected(d, t, d.reigns[t]) { assert ReignElected(c, t, c.reigns[t]); }
    forall n | n in d.nodes ensures InReign(d, n) { assert InReign(c, n); }
  }

  // ---- starting an election ----------------------------------------------------

  lemma CandidacyRpcs(c: State, n: Id, b: set<Id>)
    requires VotesRecorded(c) && VoteRpcsOk(c) && n in c.nodes && b <= c.broadcasting + {n}
    ensures VoteRpcsOk(Candidacy(c, n).(broadcasting := b))
    ensures Supporters(c.voteRpcs, n, Term(c, n) + 1) == {n}
  {
    var d := Candidacy(c, n).(broadcasting := b);
    forall i | 0 <= i < |d.voteRpcs|
      ensures VoteRpcOk(d, d.voteRpcs[i]) && !Supports(c.voteRpcs[i], n, Term(c, n) + 1)
    {
      assert VoteRpcOk(c, c.voteRpcs[i]);
    }
  }

  lemma CandidacyVotes(c: State, n: Id)
    requires VotesRecorded(c) && n in c.nodes && n != 0
    ensures VotesRecorded(Candidacy(c, n))
    ensures (Term(c, n) + 1, n) !in c.votes
            && Candidacy(c, n).votes == c.votes[(Term(c, n) + 1, n) := Vote(n, c.nodes[n].log)]
  {
    var d := Candidacy(c, n);
    var t0 := Term(c, n) + 1;
    assert (t0, n) in c.votes ==> VoteRecorded(c, t0, n, c.votes[(t0, n)]);
    forall t, v | (t, v) in d.votes ensures VoteRecorded(d, t, v, d.votes[(t, v)]) {
      if (t, v) in c.votes { assert VoteRecorded(c, t, v, c.votes[(t, v)]); }
    }
    forall m | m in d.nodes && d.nodes[m].role != Follower ensures VotedFor(d, Term(d, m), m, m) {
      if m != n { assert VotedFor(c, Term(c, m), m, m); }
    }
  }

  lemma CandidacyReigns(c: State, n: Id)
    requires ReignsElected(c) && n in c.nodes
    ensures ReignsElected(Candidacy(c, n))
  {
    var d := Candidacy(c, n);
    forall t | t in d.reigns ensures ReignElected(d, t, d.reigns[t]) {
      assert ReignElected(c, t, c.reigns[t]);
    }
    forall m | m in d.nodes ensures InReign(d, m) {
      assert InReign(c, m);
    }
  }

  lemma CandidacyCounters(c: State, n: Id, b: set<Id>)
    requires VotesRecorded(c) && VoteRpcsOk(c) && VotesCounted(c) && n in c.nodes
    ensures VotesCounted(Candidacy(c, n).(broadcasting := b))
  {
    var d := Candidacy(c, n).(broadcasting := b);
    CandidacyRpcs(c, n, {});
    assert d.nodes[n].votesReceived == 1;
    forall m | m in d.nodes && d.nodes[m].role == Candidate
      ensures d.nodes[m].votesReceived == |Supporters(d.voteRpcs, m, Term(d, m))|
    {
      if m != n { assert d.nodes[m] == c.nodes[m]; }
    }
  }

  lemma CandidacyElsewhere(c: State, n: Id, b: set<Id>)
    requires VotesRecorded(c) && ReignsElected(c) && n in c.nodes && n != 0
    ensures VotesRecorded(Candidacy(c, n).(broadcasting := b))
    ensures ReignsElected(Candidacy(c, n).(broadcasting := b))
  {
    CandidacyVotes(c, n);
    CandidacyReigns(c, n);
    SameVotes(Candidacy(c, n), Candidacy(c, n).(broadcasting := b));
    SameReigns(Candidacy(c, n), Candidacy(c, n).(broadcasting := b));
  }

  lemma CandidacyKept(c: State, n: Id, b: set<Id>)
    requires ElectionInv(c) && n in c.nodes && b <= c.broadcasting + {n}
    ensures ElectionInv(Candidacy(c, n).(broadcasting := b))
  {
    CandidacyRpcs(c, n, b);
    CandidacyCounters(c, n, b);
    CandidacyElsewhere(c, n, b);
  }

  // ---- asking for votes -----------------------------------------------------------

  lemma OnlySentAdded(a: seq<VoteRpc>, b: seq<VoteRpc>, n: Id, t: nat)
    requires a <= b && forall i :: |a| <= i < |b| ==> !b[i].status.Taken?
    ensures Supporters(b, n, t) == Supporters(a, n, t)
  {
    forall i: nat | i < |a| ensures Supports(b[i], n, t) <==> Supports(a[i], n, t) {}
  }

  lemma BroadcastRpcs(c: State, n: Id)
    requires Shape(c) && VoteRpcsOk(c) && CanBroadcast(c, n)
    ensures VoteRpcsOk(BroadcastStep(c, n))
  {
    var d := BroadcastStep(c, n);
    var k := |c.voteRpcs|;
    var dsts := c.peerList[n];
    assert IsListOf(dsts, c.members - {n});
    forall i | 0 <= i < |d.voteRpcs| ensures VoteRpcOk(d, d.voteRpcs[i]) {
      if i < k { assert VoteRpcOk(c, c.voteRpcs[i]); }
    }
    forall i, j | 0 <= i < j < |d.voteRpcs| ensures DistinctRequests(d.voteRpcs[i], d.voteRpcs[j]) {
      if j < k { assert DistinctRequests(c.voteRpcs[i], c.voteRpcs[j]); }
      else if i < k { assert VoteRpcOk(c, c.voteRpcs[i]); }
      else { assert dsts[i - k] != dsts[j - k]; }
    }
  }

  lemma BroadcastCounters(c: State, n: Id)
    requires VotesCounted(c) && CanBroadcast(c, n)
    ensures VotesCounted(BroadcastStep(c, n))
  {
    var d := BroadcastStep(c, n);
    forall m | m in d.nodes && d.nodes[m].role == Candidate
      ensures d.nodes[m].votesReceived == |Supporters(d.voteRpcs, m, Term(d, m))|
    {
      OnlySentAdded(c.voteRpcs, d.voteRpcs, m, Term(d, m));
    }
  }

  lemma BroadcastKept(c: State, n: Id)
    requires ElectionInv(c) && CanBroadcast(c, n)
    ensures ElectionInv(BroadcastStep(c, n))
  {
    BroadcastRpcs(c, n);
    BroadcastCounters(c, n);
    SameVotes(c, BroadcastStep(c, n));
    SameReigns(c, BroadcastStep(c, n));
  }

  // ---- voting ------------------------------------------------------------------------

  lemma VotedVotes(c: State, n: Id, args: VoteArgs)
    requires VotesRecorded(c) && MayVote(c, n, args) && c.nodes[n].role == Follower
    ensures VotesRecorded(Voted(c, n, args)) && VotedFor(Voted(c, n, args), args.term, n, args.candidateId)
  {
    var d := Voted(c, n, args);
    forall t, v | (t, v) in d.votes ensures VoteRecorded(d, t, v, d.votes[(t, v)]) {
      if (t, v) in c.votes { assert VoteRecorded(c, t, v, c.votes[(t, v)]); }
    }
    forall m | m in d.nodes && d.nodes[m].role != Follower ensures VotedFor(d, Term(d, m), m, m) {
      assert VotedFor(c, Term(c, m), m, m);
    }
  }

  lemma VotedRpcs(c: State, n: Id, args: VoteArgs)
    requires VoteRpcsOk(c) && MayVote(c, n, args)
    ensures VoteRpcsOk(Voted(c, n, args))
  {
    var d := Voted(c, n, args);
    forall i | 0 <= i < |d.voteRpcs| ensures VoteRpcOk(d, d.voteRpcs[i]) {
      assert VoteRpcOk(c, c.voteRpcs[i]);
    }
  }

  lemma VotedReigns(c: State, n: Id, args: VoteArgs)
    requires ReignsElected(c) && MayVote(c, n, args) && c.nodes[n].role == Follower
    ensures ReignsElected(Voted(c, n, args))
  {
    var d := Voted(c, n, args);
    forall t | t in d.reigns ensures ReignElected(d, t, d.reigns[t]) {
      var r := c.reigns[t];
      assert ReignElected(c, t, r);
      forall v | v in r.quorum ensures VotedFor(d, t, v, r.leader) { assert VotedFor(c, t, v, r.leader); }
    }
    forall m | m in d.nodes ensures InReign(d, m) {
      assert InReign(c, m);
    }
  }

  /** A grant is recorded once: whoever already voted in this term voted for the same candidate. */
  lemma VotedKept(c: State, n: Id, args: VoteArgs)
    requires ElectionInv(c) && MayVote(c, n, args) && c.nodes[n].role == Follower
    ensures ElectionInv(Voted(c, n, args)) && VotedFor(Voted(c, n, args), args.term, n, args.candidateId)
  {
    VotedVotes(c, n, args);
    VotedRpcs(c, n, args);
    VotedReigns(c, n, args);
    assert VotesCounted(Voted(c, n, args));
  }

  // ---- replies -------------------------------------------------------------------------

  /** Connection i does not hold a vote its sender still waits to count. */
  ghost predicate NotCounting(c: State, r: VoteRpc, s: Status<VoteReply>) {
    s.Taken? && s.reply.voteGranted && r.src in c.nodes && c.nodes[r.src].role == Candidate ==>
      Term(c, r.src) != r.args.term
  }

  ghost predicate Backed(c: State, r: VoteRpc, s: Status<VoteReply>) {
    (s.Answered? || s.Taken?) && s.reply.voteGranted ==> VotedFor(c, r.args.term, r.dst, r.src)
  }

  /** Moving connection i on without counting it. */
  lemma MarkedRpcs(c: State, i: nat, s: Status<VoteReply>)
    requires VoteRpcsOk(c) && i < |c.voteRpcs| && Backed(c, c.voteRpcs[i], s)
    ensures VoteRpcsOk(MarkVote(c, i, s))
  {
    var d := MarkVote(c, i, s);
    forall j | 0 <= j < |d.voteRpcs| ensures VoteRpcOk(d, d.voteRpcs[j]) {
      assert VoteRpcOk(c, c.voteRpcs[j]);
    }
    forall j, k | 0 <= j < k < |d.voteRpcs| ensures DistinctRequests(d.voteRpcs[j], d.voteRpcs[k]) {
      assert DistinctRequests(c.voteRpcs[j], c.voteRpcs[k]);
    }
  }

  /** Taking the reply on i counts for at most its own candidacy. */
  lemma MarkedSupporters(c: State, i: nat, s: Status<VoteReply>, n: Id, t: nat)
    requires i < |c.voteRpcs| && !c.voteRpcs[i].status.Taken?
    ensures var a := c.voteRpcs[i].(status := s);
            Supporters(MarkVote(c, i, s).voteRpcs, n, t) ==
            Supporters(c.voteRpcs, n, t) + if Supports(a, n, t) then {a.dst} else {}
  {
    var d := MarkVote(c, i, s);
    var a := c.voteRpcs[i].(status := s);
    var left := Supporters(d.voteRpcs, n, t);
    var right := Supporters(c.voteRpcs, n, t) + if Supports(a, n, t) then {a.dst} else {};
    forall x | x in left ensures x in right {
      if x != n {
        var j: nat :| j < |d.voteRpcs| && Supports(d.voteRpcs[j], n, t) && d.voteRpcs[j].dst == x;
        if j != i { assert d.voteRpcs[j] == c.voteRpcs[j]; }
      }
    }
    forall x | x in right ensures x in left {
      if x != n && x in Supporters(c.voteRpcs, n, t) {
        var j: nat :| j < |c.voteRpcs| && Supports(c.voteRpcs[j], n, t) && c.voteRpcs[j].dst == x;
        assert d.voteRpcs[j] == c.voteRpcs[j];
      } else if x != n {
        assert d.voteRpcs[i] == a;
      }
    }
  }

  lemma MarkedCounters(c: State, i: nat, s: Status<VoteReply>)
    requires VotesCounted(c) && i < |c.voteRpcs| && !c.voteRpcs[i].status.Taken?
    requires NotCounting(c, c.voteRpcs[i], s)
    ensures VotesCounted(MarkVote(c, i, s))
  {
    var d := MarkVote(c, i, s);
    forall n | n in d.nodes && d.nodes[n].role == Candidate
      ensures d.nodes[n].votesReceived == |Supporters(d.voteRpcs, n, Term(d, n))|
    {
      MarkedSupporters(c, i, s, n, Term(c, n));
    }
  }

  lemma MarkedKept(c: State, i: nat, s: Status<VoteReply>)
    requires ElectionInv(c) && i < |c.voteRpcs| && !c.voteRpcs[i].status.Taken?
    requires Backed(c, c.voteRpcs[i], s) && NotCounting(c, c.voteRpcs[i], s)
    ensures ElectionInv(MarkVote(c, i, s))
  {
    MarkedRpcs(c, i, s);
    MarkedCounters(c, i, s);
    SameVotes(c, MarkVote(c, i, s));
    SameReigns(c, MarkVote(c, i, s));
  }

  /** The counted voter is a new supporter: the only request to it in this candidacy had not been taken. */
  lemma NewSupporter(c: State, i: nat)
    requires VoteRpcsOk(c) && ToCollectVote(c, i)
    ensures c.voteRpcs[i].dst !in Supporters(c.voteRpcs, c.voteRpcs[i].src, c.voteRpcs[i].args.term)
  {
    var r := c.voteRpcs[i];
    assert VoteRpcOk(c, r);
    forall j: nat | j < |c.voteRpcs| && Supports(c.voteRpcs[j], r.src, r.args.term)
      ensures c.voteRpcs[j].dst != r.dst
    {
      if j < i {
        assert DistinctRequests(c.voteRpcs[j], c.voteRpcs[i]);
      } else {
        assert DistinctRequests(c.voteRpcs[i], c.voteRpcs[j]);
      }
    }
  }

  lemma CountedCounters(c: State, i: nat)
    requires VoteRpcsOk(c) && VotesCounted(c) && ToCollectVote(c, i)
    requires CountsVote(c.nodes[c.voteRpcs[i].src], c.voteRpcs[i].args.term, c.voteRpcs[i].status.reply)
    ensures VotesCounted(Counted(c, i))
  {
    var d := Counted(c, i);
    var r := c.voteRpcs[i];
    NewSupporter(c, i);
    forall n | n in d.nodes && d.nodes[n].role == Candidate
      ensures d.nodes[n].votesReceived == |Supporters(d.voteRpcs, n, Term(d, n))|
    {
      MarkedSupporters(c, i, Taken(r.status.reply), n, Term(c, n));
    }
  }

  lemma CountedKept(c: State, i: nat)
    requires ElectionInv(c) && ToCollectVote(c, i)
    requires CountsVote(c.nodes[c.voteRpcs[i].src], c.voteRpcs[i].args.term, c.voteRpcs[i].status.reply)
    ensures ElectionInv(Counted(c, i))
  {
    var r := c.voteRpcs[i];
    var d := Counted(c, i);
    CountedCounters(c, i);
    assert VoteRpcOk(c, r);
    MarkedRpcs(c, i, Taken(r.status.reply));
    var e := MarkVote(c, i, Taken(r.status.reply));
    assert VoteRpcsOk(d) by {
      forall j | 0 <= j < |d.voteRpcs| ensures VoteRpcOk(d, d.voteRpcs[j]) {
        assert VoteRpcOk(e, e.voteRpcs[j]);
      }
    }
    CountedOthers(c, i);
  }

  lemma CountedOthers(c: State, i: nat)
    requires VotesRecorded(c) && ReignsElected(c) && ToCollectVote(c, i)
    ensures VotesRecorded(Counted(c, i)) && ReignsElected(Counted(c, i))
  {
    var d := Counted(c, i);
    forall t, v | (t, v) in d.votes ensures VoteRecorded(d, t, v, d.votes[(t, v)]) {
      assert VoteRecorded(c, t, v, c.votes[(t, v)]);
    }
    forall t | t in d.reigns ensures ReignElected(d, t, d.reigns[t]) {
      assert ReignElected(c, t, c.reigns[t]);
    }
    forall n | n in d.nodes ensures InReign(d, n) {
      assert InReign(c, n);
    }
  }

  // ---- winning --------------------------------------------------------------------------

  /** Every supporter of a candidate voted for it. */
  lemma SupportersVoted(c: State, n: Id, v: Id)
    requires VotesRecorded(c) && VoteRpcsOk(c) && n in c.nodes && c.nodes[n].role == Candidate
    requires v in Supporters(c.voteRpcs, n, Term(c, n))
    ensures VotedFor(c, Term(c, n), v, n) && v in c.nodes
  {
    if v != n {
      var i: nat :| i < |c.voteRpcs| && Supports(c.voteRpcs[i], n, Term(c, n)) && c.voteRpcs[i].dst == v;
      assert VoteRpcOk(c, c.voteRpcs[i]);
    }
  }

  /** Two sets of more than half of the servers each share one. */
  lemma QuorumsMeet(members: set<Id>, a: set<Id>, b: set<Id>) returns (v: Id)
    requires a <= members && b <= members && 2 * |a| > |members| && 2 * |b| > |members|
    ensures v in a && v in b
  {
    if a * b == {} {
      assert |a + b| == |a| + |b|;
      SubsetSize(a + b, members);
    }
    v :| v in a * b;
  }

  lemma {:induction false} SubsetSize(a: set<Id>, b: set<Id>)
    requires a <= b
    ensures |a| <= |b|
  {
    if a != {} {
      var x :| x in a;
      SubsetSize(a - {x}, b - {x});
    }
  }

  /** A candidate with a majority wins a term nobody has won. */
  lemma TermIsFree(c: State, n: Id)
    requires ElectionInv(c) && Elected(c, n)
    ensures Term(c, n) !in c.reigns
  {
    var t := Term(c, n);
    if t in c.reigns {
      var s := Supporters(c.voteRpcs, n, t);
      forall v | v in s ensures v in c.members { SupportersVoted(c, n, v); }
      assert ReignElected(c, t, c.reigns[t]);
      var v := QuorumsMeet(c.members, s, c.reigns[t].quorum);
      SupportersVoted(c, n, v);
    }
  }

  lemma InOfficeRpcs(c: State, n: Id)
    requires VoteRpcsOk(c) && VotesCounted(c) && n in c.nodes
    ensures VoteRpcsOk(InOffice(c, n)) && VotesCounted(InOffice(c, n))
  {
    var d := InOffice(c, n);
    forall i | 0 <= i < |d.voteRpcs| ensures VoteRpcOk(d, d.voteRpcs[i]) {
      assert VoteRpcOk(c, c.voteRpcs[i]);
    }
  }

  lemma InOfficeVotes(c: State, n: Id)
    requires VotesRecorded(c) && Elected(c, n)
    ensures VotesRecorded(InOffice(c, n))
  {
    var d := InOffice(c, n);
    forall t, v | (t, v) in d.votes ensures VoteRecorded(d, t, v, d.votes[(t, v)]) {
      assert VoteRecorded(c, t, v, c.votes[(t, v)]);
    }
  }

  lemma NewReign(c: State, n: Id)
    requires Shape(c) && VotesRecorded(c) && VoteRpcsOk(c) && VotesCounted(c) && Elected(c, n)
    ensures var d := InOffice(c, n); ReignElected(d, Term(c, n), d.reigns[Term(c, n)])
  {
    var d := InOffice(c, n);
    var t0 := Term(c, n);
    forall v | v in Supporters(c.voteRpcs, n, t0) ensures v in c.nodes && VotedFor(d, t0, v, n) {
      SupportersVoted(c, n, v);
    }
  }

  lemma InOfficeReigns(c: State, n: Id)
    requires ReignsElected(c) && Elected(c, n) && Term(c, n) !in c.reigns
    requires var d := InOffice(c, n); ReignElected(d, Term(c, n), d.reigns[Term(c, n)])
    ensures ReignsElected(InOffice(c, n))
  {
    var d := InOffice(c, n);
    forall t | t in d.reigns ensures ReignElected(d, t, d.reigns[t]) {
      if t != Term(c, n) {
        var r := c.reigns[t];
        assert ReignElected(c, t, r);
        forall v | v in r.quorum ensures VotedFor(d, t, v, r.leader) { assert VotedFor(c, t, v, r.leader); }
      }
    }
    forall m | m in d.nodes ensures InReign(d, m) {
      if m != n { assert InReign(c, m); }
    }
  }

  lemma InOfficeKept(c: State, n: Id)
    requires ElectionInv(c) && Elected(c, n)
    ensures ElectionInv(InOffice(c, n)) && Term(c, n) !in c.reigns
  {
    TermIsFree(c, n);
    NewReign(c, n);
    InOfficeReigns(c, n);
    InOfficeRpcs(c, n);
    InOfficeVotes(c, n);
  }
}
