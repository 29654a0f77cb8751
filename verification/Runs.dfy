// Every event is a composition of elementary steps, so the invariant holds in
// every state of every run.
module Runs {
  import opened RaftTypes
  import opened RaftNode
  import opened Cluster
  import opened Invariants
  import opened ElementarySteps
  import ElectionKept
  import LogKept
  import CommitKept
  import ProgressKept
  import opened StepsKept

  // ---- committing and restarting at one server ----------------------------------------

  function Advanced(c: State, n: Id): State
    requires n in c.nodes
  {
    PutNode(c, n, AdvanceCommit(c.nodes[n], Peers(c, n)))
  }

  lemma Numbered(c: State, n: Id)
    requires LogsOk(c) && n in c.nodes
    ensures WellNumbered(c.nodes[n].log, Term(c, n)) && LastIndex(c.nodes[n].log) == |c.nodes[n].log|
  {
  }

  lemma TargetCommitted(c: State, n: Id)
    requires Shape(c) && ReignsElected(c) && LogsOk(c) && ReignsOk(c) && AcksOk(c) && AllTracked(c) && Leads(c, n)
    ensures var k := CommitTarget(c.nodes[n], Peers(c, n), LastIndex(c.nodes[n].log));
            k > c.nodes[n].meta.commitIndex ==> CommittedPrefix(c, c.nodes[n].log, k, Term(c, n))
  {
    Numbered(c, n);
    var k := CommitTarget(c.nodes[n], Peers(c, n), LastIndex(c.nodes[n].log));
    if k > c.nodes[n].meta.commitIndex { CommitKept.LeaderCommits(c, n, k); }
  }

  lemma SameNode(c: State, n: Id)
    requires n in c.nodes
    ensures PutNode(c, n, c.nodes[n]) == c
  {
    assert c.nodes[n := c.nodes[n]] == c.nodes;
  }

  lemma TargetReached(c: State, n: Id)
    requires Inv(c) && Leads(c, n)
    ensures var k := CommitTarget(c.nodes[n], Peers(c, n), LastIndex(c.nodes[n].log));
            k > c.nodes[n].meta.commitIndex ==> CommittedPrefix(c, c.nodes[n].log, k, Term(c, n))
  {
    Parts(c);
    TargetCommitted(c, n);
  }

  lemma AdvancedKept(c: State, n: Id)
    requires Inv(c) && n in c.nodes
    ensures Inv(Advanced(c, n))
  {
    SameNode(c, n);
    if c.nodes[n].role == Leader {
      var k := CommitTarget(c.nodes[n], Peers(c, n), LastIndex(c.nodes[n].log));
      TargetReached(c, n);
      if k > c.nodes[n].meta.commitIndex { CommittedToKept(c, n, k); }
    }
  }

  lemma RestartRetreats(n: Node)
    requires NodeApplied(n)
    ensures Retreats(n, Restart(n)) && Restart(n).meta == n.meta && Restart(n).log == n.log
            && Restart(n).store == n.store
  {
  }

  lemma RebootKept(c: State, n: Id)
    requires Inv(c) && n in c.nodes
    ensures Inv(Reboot(c, n))
  {
    AppliedOf(c, n);
    RestartRetreats(c.nodes[n]);
    RetreatKept(c, n, Restart(c.nodes[n]), c.broadcasting - {n});
  }

  lemma Retreat(c: State, n: Id, m: Node)
    requires Inv(c) && n in c.nodes && Retreats(c.nodes[n], m)
    ensures Inv(PutNode(c, n, m))
  {
    RetreatKept(c, n, m, c.broadcasting);
    assert PutNode(c, n, m).(broadcasting := c.broadcasting) == PutNode(c, n, m);
  }

  // ---- elections ----------------------------------------------------------------------------

  lemma SoloElected(c: State, n: Id)
    requires VotesRecorded(c) && VoteRpcsOk(c) && n in c.nodes && Quorum(c) <= 1
    ensures Elected(Candidacy(c, n), n) && Supporters(c.voteRpcs, n, Term(c, n) + 1) == {n}
  {
    ElectionKept.CandidacyRpcs(c, n, {});
  }

  lemma AdvanceKeeps(n: Node, peers: seq<Id>)
    ensures var m := AdvanceCommit(n, peers);
            m.log == n.log && m.role == n.role && m.meta.currentTerm == n.meta.currentTerm
  {
  }

  lemma PutTwice(c: State, n: Id, a: Node, b: Node)
    ensures PutNode(PutNode(c, n, a), n, b) == PutNode(c, n, b)
  {
    assert c.nodes[n := a][n := b] == c.nodes[n := b];
  }

  lemma TimeoutIs(c: State, n: Id)
    requires Shape(c) && CanTimeout(c, n) && Quorum(c) > 1
    ensures TimeoutStep(c, n) == Candidacy(c, n).(broadcasting := c.broadcasting + {n})
  {
    CommitKept.PeersCount(c, n);
  }

  lemma SoloTimeoutIs(c: State, n: Id)
    requires Shape(c) && CanTimeout(c, n) && Quorum(c) <= 1 && Supporters(c.voteRpcs, n, Term(c, n) + 1) == {n}
    ensures TimeoutStep(c, n) == Advanced(InOffice(Candidacy(c, n), n), n)
  {
    var cand := StartElection(c.nodes[n], n);
    var led := TakeOffice(cand, n, Peers(c, n));
    SoloStepIs(c, n);
    SoloJoins(c, n, cand, led);
    SoloOfficeIs(Candidacy(c, n), n, cand, Peers(c, n));
  }

  lemma SoloJoins(c: State, n: Id, cand: Node, led: Node)
    requires n in c.nodes && cand == StartElection(c.nodes[n], n) && led == TakeOffice(cand, n, Peers(c, n))
    ensures var m := AdvanceCommit(led, Peers(c, n));
            EnterReign(RecordVote(PutNode(c, n, m), m.meta.currentTerm, n, n, c.nodes[n].log), n, {n}) ==
            PutNode(EnterReign(PutNode(Candidacy(c, n), n, led), n, {n}), n, m)
  {
    AdvanceKeeps(led, Peers(c, n));
    SameOffice(c, n, cand, led, AdvanceCommit(led, Peers(c, n)), c.nodes[n].log);
  }

  lemma SoloStepIs(c: State, n: Id)
    requires Shape(c) && CanTimeout(c, n) && Quorum(c) <= 1
    ensures var m := AdvanceCommit(TakeOffice(StartElection(c.nodes[n], n), n, Peers(c, n)), Peers(c, n));
            TimeoutStep(c, n) ==
            EnterReign(RecordVote(PutNode(c, n, m), m.meta.currentTerm, n, n, c.nodes[n].log), n, {n})
  {
    CommitKept.PeersCount(c, n);
    AdvanceKeeps(TakeOffice(StartElection(c.nodes[n], n), n, Peers(c, n)), Peers(c, n));
  }

  lemma SoloOfficeIs(d: State, n: Id, cand: Node, peers: seq<Id>)
    requires n in d.nodes && d.nodes[n] == cand && Peers(d, n) == peers
    requires Supporters(d.voteRpcs, n, cand.meta.currentTerm) == {n}
    ensures var led := TakeOffice(cand, n, peers);
            Advanced(InOffice(d, n), n) == PutNode(EnterReign(PutNode(d, n, led), n, {n}), n, AdvanceCommit(led, peers))
  {
  }

  /** Entering office before or after committing leaves the same history. */
  lemma SameOffice(c: State, n: Id, cand: Node, led: Node, m: Node, log: seq<Entry>)
    requires n in c.nodes && cand.meta.currentTerm == led.meta.currentTerm == m.meta.currentTerm && m.log == led.log
    ensures var t := m.meta.currentTerm;
            EnterReign(RecordVote(PutNode(c, n, m), t, n, n, log), n, {n}) ==
            PutNode(EnterReign(PutNode(RecordVote(PutNode(c, n, cand), t, n, n, log), n, led), n, {n}), n, m)
  {
    assert c.nodes[n := cand][n := led][n := m] == c.nodes[n := m];
  }

  lemma TimeoutKept(c: State, n: Id)
    requires Inv(c) && CanTimeout(c, n)
    ensures Inv(TimeoutStep(c, n))
  {
    ShapeOf(c);
    if Quorum(c) > 1 {
      TimeoutIs(c, n);
      CandidacyKept(c, n, c.broadcasting + {n});
    } else {
      OfficeAtOnce(c, n);
      SoloTimeoutIs(c, n);
      AdvancedKept(InOffice(Candidacy(c, n), n), n);
    }
  }

  lemma QuietCandidacyKept(c: State, n: Id)
    requires Inv(c) && n in c.nodes
    ensures Inv(Candidacy(c, n))
  {
    CandidacyKept(c, n, c.broadcasting);
    assert Candidacy(c, n).(broadcasting := c.broadcasting) == Candidacy(c, n);
  }

  lemma OfficeAtOnce(c: State, n: Id)
    requires Inv(c) && n in c.nodes && Quorum(c) <= 1
    ensures Inv(InOffice(Candidacy(c, n), n)) && Supporters(c.voteRpcs, n, Term(c, n) + 1) == {n}
  {
    VotesOf(c);
    QuietCandidacyKept(c, n);
    SoloElected(c, n);
    InOfficeKept(Candidacy(c, n), n);
  }

  /** A server that grants a vote follows: a candidate or leader has voted for itself. */
  lemma GranterFollows(c: State, n: Id, r: VoteRpc)
    requires VotesRecorded(c) && VoteRpcOk(c, r) && n == r.dst && r.args.term >= Term(c, n)
    ensures var d := PutNode(c, n, Adopt(c.nodes[n], r.args.term));
            Grants(d.nodes[n], r.args) ==> d.nodes[n].role == Follower && (r.src != 0 ==> MayVote(d, n, r.args))
  {
    if c.nodes[n].role != Follower && r.args.term == Term(c, n) {
      assert VotedFor(c, Term(c, n), n, n);
      assert VoteRecorded(c, Term(c, n), n, c.votes[(Term(c, n), n)]);
    }
  }

  /** The voter's part of RequestVote up to its durable vote. */
  function VoteCast(c: State, i: nat): State
    requires ToDeliverVote(c, i)
  {
    var r := c.voteRpcs[i];
    Voted(PutNode(c, r.dst, Adopt(c.nodes[r.dst], r.args.term)), r.dst, r.args)
  }

  lemma AdoptKept(c: State, n: Id, t: nat)
    requires Inv(c) && n in c.nodes
    ensures Inv(PutNode(c, n, Adopt(c.nodes[n], t)))
  {
    SameNode(c, n);
    if t > Term(c, n) { Retreat(c, n, StepDown(c.nodes[n], t)); }
  }

  lemma AdoptAdvertises(c: State, n: Id, r: VoteRpc)
    requires Advertises(c, r) && n in c.nodes && r.src != n
    ensures Advertises(PutNode(c, n, Adopt(c.nodes[n], r.args.term)), r)
  {
  }

  lemma RpcFacts(c: State, i: nat)
    requires Inv(c) && i < |c.voteRpcs|
    ensures VoteRpcOk(c, c.voteRpcs[i]) && Advertises(c, c.voteRpcs[i]) && c.voteRpcs[i].src != 0
    ensures VotesRecorded(c)
  {
    Parts(c);
  }

  lemma VoteCastKept(c: State, i: nat)
    requires Inv(c) && ToDeliverVote(c, i)
    requires var r := c.voteRpcs[i];
             r.args.term >= Term(c, r.dst) && Grants(Adopt(c.nodes[r.dst], r.args.term), r.args)
    ensures Inv(VoteCast(c, i))
            && VotedFor(VoteCast(c, i), c.voteRpcs[i].args.term, c.voteRpcs[i].dst, c.voteRpcs[i].src)
  {
    var r := c.voteRpcs[i];
    RpcFacts(c, i);
    GranterFollows(c, r.dst, r);
    AdoptKept(c, r.dst, r.args.term);
    AdoptAdvertises(c, r.dst, r);
    VotedKept(PutNode(c, r.dst, Adopt(c.nodes[r.dst], r.args.term)), r.dst, r);
  }

  lemma DeliverVoteIs(c: State, i: nat)
    requires ToDeliverVote(c, i)
    ensures var r := c.voteRpcs[i]; var n := c.nodes[r.dst]; var a := Adopt(n, r.args.term);
            DeliverVoteStep(c, i) ==
            if r.args.term < n.meta.currentTerm then MarkVote(c, i, Answered(VoteReply(n.meta.currentTerm, false)))
            else if Grants(a, r.args) then MarkVote(VoteCast(c, i), i, Answered(VoteReply(a.meta.currentTerm, true)))
            else MarkVote(PutNode(c, r.dst, a), i, Answered(VoteReply(a.meta.currentTerm, false)))
  {
    var r := c.voteRpcs[i];
    var a := Adopt(c.nodes[r.dst], r.args.term);
    SameNode(c, r.dst);
    assert c.nodes[r.dst := a][r.dst := CastVote(a, r.args)] == c.nodes[r.dst := CastVote(a, r.args)];
  }

  lemma DeliverVoteKept(c: State, i: nat)
    requires Inv(c) && ToDeliverVote(c, i)
    ensures Inv(DeliverVoteStep(c, i))
  {
    var r := c.voteRpcs[i];
    var a := Adopt(c.nodes[r.dst], r.args.term);
    DeliverVoteIs(c, i);
    if r.args.term < Term(c, r.dst) {
      MarkedVoteKept(c, i, Answered(VoteReply(Term(c, r.dst), false)));
    } else if Grants(a, r.args) {
      VoteCastKept(c, i);
      MarkedVoteKept(VoteCast(c, i), i, Answered(VoteReply(a.meta.currentTerm, true)));
    } else {
      AdoptKept(c, r.dst, r.args.term);
      MarkedVoteKept(PutNode(c, r.dst, a), i, Answered(VoteReply(a.meta.currentTerm, false)));
    }
  }

  lemma CrashInVoteIs(c: State, i: nat, voted: bool)
    requires CanCrashInVote(c, i, voted)
    ensures var r := c.voteRpcs[i]; var a := Adopt(c.nodes[r.dst], r.args.term);
            CrashInVoteStep(c, i, voted) ==
            Reboot(MarkVote(if voted then VoteCast(c, i) else PutNode(c, r.dst, a), i, Dropped), r.dst)
  {
    var r := c.voteRpcs[i];
    var a := Adopt(c.nodes[r.dst], r.args.term);
    assert c.nodes[r.dst := a][r.dst := CastVote(a, r.args)] == c.nodes[r.dst := CastVote(a, r.args)];
  }

  lemma CrashInVoteKept(c: State, i: nat, voted: bool)
    requires Inv(c) && CanCrashInVote(c, i, voted)
    ensures Inv(CrashInVoteStep(c, i, voted))
  {
    var r := c.voteRpcs[i];
    CrashInVoteIs(c, i, voted);
    if voted { VoteCastKept(c, i); } else { AdoptKept(c, r.dst, r.args.term); }
    var x := if voted then VoteCast(c, i) else PutNode(c, r.dst, Adopt(c.nodes[r.dst], r.args.term));
    MarkedVoteKept(x, i, Dropped);
    RebootKept(MarkVote(x, i, Dropped), r.dst);
  }

  lemma GrantBacked(c: State, i: nat)
    requires VoteRpcsOk(c) && ToCollectVote(c, i)
    ensures ElectionKept.Backed(c, c.voteRpcs[i], Taken(c.voteRpcs[i].status.reply))
  {
    assert VoteRpcOk(c, c.voteRpcs[i]);
  }

  lemma CollectVoteIs(c: State, i: nat)
    requires Shape(c) && ToCollectVote(c, i)
    ensures var r := c.voteRpcs[i]; var reply := r.status.reply; var n := c.nodes[r.src];
            CollectVoteStep(c, i) ==
            if reply.term > n.meta.currentTerm
            then MarkVote(PutNode(c, r.src, StepDown(n, reply.term)), i, Taken(reply))
            else if !CountsVote(n, r.args.term, reply) then MarkVote(c, i, Taken(reply))
            else if !WinsWith(c, i) then Counted(c, i)
            else Advanced(InOffice(Counted(c, i), r.src), r.src)
  {
    var r := c.voteRpcs[i];
    SameNode(c, r.src);
    CommitKept.PeersCount(c, r.src);
    var x := Counted(c, i);
    var y := InOffice(x, r.src);
    var m := AdvanceCommit(y.nodes[r.src], Peers(c, r.src));
    assert c.nodes[r.src := x.nodes[r.src]][r.src := y.nodes[r.src]][r.src := m] == c.nodes[r.src := m];
    assert m.log == y.nodes[r.src].log && m.meta.currentTerm == y.nodes[r.src].meta.currentTerm;
  }

  lemma WinnerElected(c: State, i: nat)
    requires Shape(c) && ToCollectVote(c, i) && WinsWith(c, i)
    ensures Elected(Counted(c, i), c.voteRpcs[i].src)
  {
    CommitKept.PeersCount(c, c.voteRpcs[i].src);
  }

  lemma CollectVoteKept(c: State, i: nat)
    requires Inv(c) && ToCollectVote(c, i)
    ensures Inv(CollectVoteStep(c, i))
  {
    ShapeOf(c);
    VotesOf(c);
    var r := c.voteRpcs[i];
    var reply := r.status.reply;
    CollectVoteIs(c, i);
    GrantBacked(c, i);
    if reply.term > Term(c, r.src) {
      Retreat(c, r.src, StepDown(c.nodes[r.src], reply.term));
      MarkedVoteKept(PutNode(c, r.src, StepDown(c.nodes[r.src], reply.term)), i, Taken(reply));
    } else if !CountsVote(c.nodes[r.src], r.args.term, reply) {
      MarkedVoteKept(c, i, Taken(reply));
    } else {
      CountedKept(c, i);
      if WinsWith(c, i) {
        WinnerElected(c, i);
        InOfficeKept(Counted(c, i), r.src);
        AdvancedKept(InOffice(Counted(c, i), r.src), r.src);
      }
    }
  }

  lemma CrashInCollectVoteIs(c: State, i: nat)
    requires CanCrashInCollectVote(c, i)
    ensures CrashInCollectVoteStep(c, i) == Reboot(InOffice(Counted(c, i), c.voteRpcs[i].src), c.voteRpcs[i].src)
  {
    var r := c.voteRpcs[i];
    var x := Counted(c, i);
    var y := InOffice(x, r.src);
    assert c.nodes[r.src := x.nodes[r.src]][r.src := y.nodes[r.src]] == c.nodes[r.src := y.nodes[r.src]];
  }

  lemma CrashInCollectVoteKept(c: State, i: nat)
    requires Inv(c) && CanCrashInCollectVote(c, i)
    ensures Inv(CrashInCollectVoteStep(c, i))
  {
    ShapeOf(c);
    CrashInCollectVoteIs(c, i);
    CountedKept(c, i);
    WinnerElected(c, i);
    InOfficeKept(Counted(c, i), c.voteRpcs[i].src);
    RebootKept(InOffice(Counted(c, i), c.voteRpcs[i].src), c.voteRpcs[i].src);
  }

  lemma CrashInTimeoutIs(c: State, n: Id, inOffice: bool)
    requires CanCrashInTimeout(c, n, inOffice)
    requires inOffice ==> Supporters(c.voteRpcs, n, Term(c, n) + 1) == {n}
    ensures CrashInTimeoutStep(c, n, inOffice) ==
            Reboot(if inOffice then InOffice(Candidacy(c, n), n) else Candidacy(c, n), n)
  {
    var x := Candidacy(c, n);
    var y := InOffice(x, n);
    assert c.nodes[n := x.nodes[n]][n := y.nodes[n]] == c.nodes[n := y.nodes[n]];
  }

  lemma CrashInTimeoutKept(c: State, n: Id, inOffice: bool)
    requires Inv(c) && CanCrashInTimeout(c, n, inOffice)
    ensures Inv(CrashInTimeoutStep(c, n, inOffice))
  {
    if inOffice {
      OfficeAtOnce(c, n);
      RebootKept(InOffice(Candidacy(c, n), n), n);
    } else {
      QuietCandidacyKept(c, n);
      RebootKept(Candidacy(c, n), n);
    }
    CrashInTimeoutIs(c, n, inOffice);
  }

  // ---- replication --------------------------------------------------------------------------------

  /** The follower's part of AppendEntries once it recognizes the leader. */
  function Recognized(c: State, i: nat): State
    requires ToDeliverAppend(c, i)
  {
    PutNode(c, c.appendRpcs[i].dst, Recognize(c.nodes[c.appendRpcs[i].dst], c.appendRpcs[i].args))
  }

  lemma RecognizedKept(c: State, i: nat)
    requires Inv(c) && ToDeliverAppend(c, i) && c.appendRpcs[i].args.term >= Term(c, c.appendRpcs[i].dst)
    ensures Inv(Recognized(c, i))
    ensures PrevMatches(c.nodes[c.appendRpcs[i].dst].log, c.appendRpcs[i].args) ==> MayAccept(Recognized(c, i), i)
  {
    RecognizedRetreats(c, i);
    Retreat(c, c.appendRpcs[i].dst, Recognize(c.nodes[c.appendRpcs[i].dst], c.appendRpcs[i].args));
  }

  lemma RecognizedRetreats(c: State, i: nat)
    requires ToDeliverAppend(c, i) && c.appendRpcs[i].args.term >= Term(c, c.appendRpcs[i].dst)
    ensures var n := c.nodes[c.appendRpcs[i].dst]; Retreats(n, Recognize(n, c.appendRpcs[i].args))
    ensures PrevMatches(c.nodes[c.appendRpcs[i].dst].log, c.appendRpcs[i].args) ==> MayAccept(Recognized(c, i), i)
  {
  }

  /** After storing the entries of connection i, committing what its leader reports. */
  function Followed(c: State, i: nat): State
    requires i < |c.appendRpcs| && c.appendRpcs[i].dst in c.nodes
  {
    PutNode(c, c.appendRpcs[i].dst, CommitFrom(c.nodes[c.appendRpcs[i].dst], c.appendRpcs[i].args))
  }

  function Reported(c: State, i: nat): nat
    requires i < |c.appendRpcs| && c.appendRpcs[i].dst in c.nodes
  {
    var r := c.appendRpcs[i];
    Min(Min(r.args.leaderCommit, r.args.prevLogIndex + |r.args.entries|), LastIndex(c.nodes[r.dst].log))
  }

  lemma ReportCommitted(c: State, i: nat)
    requires LogsOk(c) && AppendRpcsOk(c) && MayAccept(c, i) && CommitInv(Accepted(c, i))
    ensures var d := Accepted(c, i); var v := d.appendRpcs[i].dst;
            CommittedPrefix(d, d.nodes[v].log, Reported(d, i), Term(d, v))
  {
    var d := Accepted(c, i);
    var r := c.appendRpcs[i];
    assert AppendRpcOk(c, r);
    LogKept.AcceptedLog(c, i);
    assert CommitRpcOk(d, d.appendRpcs[i].args);
    CommitKept.FollowerCommits(d, r.dst, r.args, Reported(d, i));
  }

  lemma FollowedIs(c: State, i: nat)
    requires i < |c.appendRpcs| && c.appendRpcs[i].dst in c.nodes
    ensures var v := c.appendRpcs[i].dst;
            Followed(c, i) == c ||
            (Reported(c, i) >= c.nodes[v].meta.commitIndex && Followed(c, i) == CommittedTo(c, v, Reported(c, i)))
  {
    SameNode(c, c.appendRpcs[i].dst);
  }

  lemma FollowedFrom(c: State, i: nat)
    requires Inv(c) && i < |c.appendRpcs| && c.appendRpcs[i].dst in c.nodes
    requires var v := c.appendRpcs[i].dst; CommittedPrefix(c, c.nodes[v].log, Reported(c, i), Term(c, v))
    ensures Inv(Followed(c, i))
  {
    FollowedIs(c, i);
    if Followed(c, i) != c { CommittedToKept(c, c.appendRpcs[i].dst, Reported(c, i)); }
  }

  lemma ReportsCommitted(c: State, i: nat)
    requires Inv(c) && MayAccept(c, i) && Inv(Accepted(c, i))
    ensures var d := Accepted(c, i); var v := d.appendRpcs[i].dst;
            CommittedPrefix(d, d.nodes[v].log, Reported(d, i), Term(d, v))
  {
    Parts(c);
    CommitsOf(Accepted(c, i));
    ReportCommitted(c, i);
  }

  lemma FollowedKept(c: State, i: nat)
    requires Inv(c) && MayAccept(c, i)
    ensures Inv(Accepted(c, i)) && Inv(Followed(Accepted(c, i), i))
  {
    AcceptedKept(c, i);
    ReportsCommitted(c, i);
    FollowedFrom(Accepted(c, i), i);
  }

  lemma StaleAppendIs(c: State, i: nat)
    requires ToDeliverAppend(c, i) && c.appendRpcs[i].args.term < Term(c, c.appendRpcs[i].dst)
    ensures DeliverAppendStep(c, i) ==
            MarkAppend(c, i, Answered(AppendReply(Term(c, c.appendRpcs[i].dst), false)))
  {
    SameNode(c, c.appendRpcs[i].dst);
  }

  lemma RejectedAppendIs(c: State, i: nat)
    requires ToDeliverAppend(c, i) && c.appendRpcs[i].args.term >= Term(c, c.appendRpcs[i].dst)
    requires !PrevMatches(c.nodes[c.appendRpcs[i].dst].log, c.appendRpcs[i].args)
    ensures DeliverAppendStep(c, i) ==
            MarkAppend(Recognized(c, i), i, Answered(AppendReply(c.appendRpcs[i].args.term, false)))
  {
  }

  /** The server in the composition is the one the handler yields. */
  lemma StoredNode(c: State, i: nat)
    requires ToDeliverAppend(c, i) && MayAccept(Recognized(c, i), i)
    ensures var r := c.appendRpcs[i]; var s := StoreEntries(Recognize(c.nodes[r.dst], r.args), r.args);
            && Accepted(Recognized(c, i), i) ==
               RecordAck(PutNode(c, r.dst, s), r.args.term, r.dst, r.args.prevLogIndex + |r.args.entries|)
            && Followed(Accepted(Recognized(c, i), i), i) ==
               RecordAck(PutNode(c, r.dst, CommitFrom(s, r.args)), r.args.term, r.dst,
                   r.args.prevLogIndex + |r.args.entries|)
  {
    var r := c.appendRpcs[i];
    var f := Recognize(c.nodes[r.dst], r.args);
    var s := StoreEntries(f, r.args);
    PutTwice(c, r.dst, f, s);
    PutTwice(c, r.dst, s, CommitFrom(s, r.args));
  }

  lemma StoredAppendIs(c: State, i: nat)
    requires ToDeliverAppend(c, i) && MayAccept(Recognized(c, i), i)
    requires c.appendRpcs[i].args.term >= Term(c, c.appendRpcs[i].dst)
    ensures DeliverAppendStep(c, i) ==
            MarkAppend(Followed(Accepted(Recognized(c, i), i), i), i,
                       Answered(AppendReply(c.appendRpcs[i].args.term, true)))
  {
    var r := c.appendRpcs[i];
    StoredStepIs(c, i);
    StoredNode(c, i);
    AckThenMark(c, i, CommitFrom(StoreEntries(Recognize(c.nodes[r.dst], r.args), r.args), r.args),
                Answered(AppendReply(r.args.term, true)));
  }

  lemma StoredStepIs(c: State, i: nat)
    requires ToDeliverAppend(c, i) && c.appendRpcs[i].args.term >= Term(c, c.appendRpcs[i].dst)
    requires PrevMatches(c.nodes[c.appendRpcs[i].dst].log, c.appendRpcs[i].args)
    ensures var r := c.appendRpcs[i]; var f := Recognize(c.nodes[r.dst], r.args);
            r.args.prevLogIndex <= |f.log| &&
            DeliverAppendStep(c, i) ==
            RecordAck(MarkAppend(PutNode(c, r.dst, CommitFrom(StoreEntries(f, r.args), r.args)), i,
                                 Answered(AppendReply(r.args.term, true))),
                      r.args.term, r.dst, r.args.prevLogIndex + |r.args.entries|)
  {
  }

  /** The answer to connection i is one its sender may rely on. */
  ghost predicate Answerable(c: State, i: nat, reply: AppendReply) {
    && i < |c.appendRpcs| && !c.appendRpcs[i].status.Taken?
    && RepliesOk(c, c.appendRpcs[i].(status := Answered(reply)))
    && ProgressKept.MismatchAbove(c, c.appendRpcs[i].(status := Answered(reply)))
  }

  lemma RejectionAnswerable(c: State, i: nat)
    requires Inv(c) && ToDeliverAppend(c, i) && Term(c, c.appendRpcs[i].dst) == c.appendRpcs[i].args.term
    requires !PrevMatches(c.nodes[c.appendRpcs[i].dst].log, c.appendRpcs[i].args)
    ensures Answerable(c, i, AppendReply(c.appendRpcs[i].args.term, false))
  {
    Parts(c);
    var r := c.appendRpcs[i];
    assert AppendRpcOk(c, r);
    if r.src in c.nodes && c.nodes[r.src].role == Leader && Term(c, r.src) == r.args.term {
      ProgressKept.RejectionAbove(c, r);
    }
  }

  lemma StaleAnswerable(c: State, i: nat)
    requires ToDeliverAppend(c, i) && Term(c, c.appendRpcs[i].dst) > c.appendRpcs[i].args.term
    ensures Answerable(c, i, AppendReply(Term(c, c.appendRpcs[i].dst), false))
  {
  }

  lemma SuccessAnswerable(c: State, i: nat)
    requires MayAccept(c, i) && c.appendRpcs[i].status.Sent?
    ensures Answerable(Followed(Accepted(c, i), i), i, AppendReply(c.appendRpcs[i].args.term, true))
  {
  }

  lemma AnsweredKept(c: State, i: nat, reply: AppendReply)
    requires Inv(c) && Answerable(c, i, reply)
    ensures Inv(MarkAppend(c, i, Answered(reply)))
  {
    MarkedAppendKept(c, i, Answered(reply));
  }

  lemma DroppedKept(c: State, i: nat, n: Id)
    requires Inv(c) && i < |c.appendRpcs| && !c.appendRpcs[i].status.Taken? && n in c.nodes
    ensures Inv(Reboot(MarkAppend(c, i, Dropped), n))
  {
    MarkedAppendKept(c, i, Dropped);
    RebootKept(MarkAppend(c, i, Dropped), n);
  }

  lemma RejectedAppendKept(c: State, i: nat)
    requires ToDeliverAppend(c, i) && c.appendRpcs[i].args.term >= Term(c, c.appendRpcs[i].dst) && Inv(Recognized(c, i))
    requires !PrevMatches(c.nodes[c.appendRpcs[i].dst].log, c.appendRpcs[i].args)
    ensures Inv(DeliverAppendStep(c, i))
  {
    RejectedAppendIs(c, i);
    RejectionAnswerable(Recognized(c, i), i);
    AnsweredKept(Recognized(c, i), i, AppendReply(c.appendRpcs[i].args.term, false));
  }

  lemma StoredAppendKept(c: State, i: nat)
    requires ToDeliverAppend(c, i) && MayAccept(Recognized(c, i), i) && Inv(Recognized(c, i))
    requires c.appendRpcs[i].args.term >= Term(c, c.appendRpcs[i].dst)
    ensures Inv(DeliverAppendStep(c, i))
  {
    StoredAppendIs(c, i);
    FollowedKept(Recognized(c, i), i);
    SuccessAnswerable(Recognized(c, i), i);
    AnsweredKept(Followed(Accepted(Recognized(c, i), i), i), i, AppendReply(c.appendRpcs[i].args.term, true));
  }

  lemma DeliverAppendKept(c: State, i: nat)
    requires Inv(c) && ToDeliverAppend(c, i)
    ensures Inv(DeliverAppendStep(c, i))
  {
    var r := c.appendRpcs[i];
    if r.args.term < Term(c, r.dst) {
      StaleAppendIs(c, i);
      StaleAnswerable(c, i);
      AnsweredKept(c, i, AppendReply(Term(c, r.dst), false));
    } else {
      RecognizedKept(c, i);
      if PrevMatches(c.nodes[r.dst].log, r.args) { StoredAppendKept(c, i); } else { RejectedAppendKept(c, i); }
    }
  }

  lemma CrashInAppendIs(c: State, i: nat, stage: nat)
    requires CanCrashInAppend(c, i, stage) && (stage > 0 ==> MayAccept(Recognized(c, i), i))
    ensures CrashInAppendStep(c, i, stage) ==
            Reboot(MarkAppend(if stage == 0 then Recognized(c, i)
                              else if stage == 1 then Accepted(Recognized(c, i), i)
                              else Followed(Accepted(Recognized(c, i), i), i), i, Dropped), c.appendRpcs[i].dst)
  {
    if stage == 0 { EarlyCrashIs(c, i); } else if stage == 1 { StoredCrashIs(c, i); } else { FollowedCrashIs(c, i); }
  }

  lemma EarlyCrashIs(c: State, i: nat)
    requires CanCrashInAppend(c, i, 0)
    ensures CrashInAppendStep(c, i, 0) == Reboot(MarkAppend(Recognized(c, i), i, Dropped), c.appendRpcs[i].dst)
  {
  }

  /** The crash comes after m reached the disk. */
  lemma LateCrashIs(c: State, i: nat, stage: nat, m: Node)
    requires CanCrashInAppend(c, i, stage) && stage > 0
    requires var r := c.appendRpcs[i]; var s := StoreEntries(Recognize(c.nodes[r.dst], r.args), r.args);
             m == if stage == 1 then s else CommitFrom(s, r.args)
    ensures var r := c.appendRpcs[i]; var k := r.args.prevLogIndex + |r.args.entries|;
            CrashInAppendStep(c, i, stage) ==
            Reboot(MarkAppend(RecordAck(PutNode(c, r.dst, m), r.args.term, r.dst, k), i, Dropped), r.dst)
  {
    AckThenMark(c, i, m, Dropped);
  }

  lemma StoredCrashIs(c: State, i: nat)
    requires CanCrashInAppend(c, i, 1) && MayAccept(Recognized(c, i), i)
    ensures CrashInAppendStep(c, i, 1) ==
            Reboot(MarkAppend(Accepted(Recognized(c, i), i), i, Dropped), c.appendRpcs[i].dst)
  {
    var r := c.appendRpcs[i];
    StoredNode(c, i);
    LateCrashIs(c, i, 1, StoreEntries(Recognize(c.nodes[r.dst], r.args), r.args));
  }

  lemma FollowedCrashIs(c: State, i: nat)
    requires CanCrashInAppend(c, i, 2) && MayAccept(Recognized(c, i), i)
    ensures CrashInAppendStep(c, i, 2) ==
            Reboot(MarkAppend(Followed(Accepted(Recognized(c, i), i), i), i, Dropped), c.appendRpcs[i].dst)
  {
    var r := c.appendRpcs[i];
    StoredNode(c, i);
    LateCrashIs(c, i, 2, CommitFrom(StoreEntries(Recognize(c.nodes[r.dst], r.args), r.args), r.args));
  }

  lemma AckThenMark(c: State, i: nat, m: Node, s: Status<AppendReply>)
    requires i < |c.appendRpcs|
    ensures var r := c.appendRpcs[i]; var k := r.args.prevLogIndex + |r.args.entries|;
            RecordAck(MarkAppend(PutNode(c, r.dst, m), i, s), r.args.term, r.dst, k) ==
            MarkAppend(RecordAck(PutNode(c, r.dst, m), r.args.term, r.dst, k), i, s)
  {
  }

  /** x is the cluster at the moment of the crash. */
  lemma CrashFrom(c: State, i: nat, stage: nat, x: State)
    requires CanCrashInAppend(c, i, stage) && Inv(x) && x.appendRpcs == c.appendRpcs && c.appendRpcs[i].dst in x.nodes
    requires CrashInAppendStep(c, i, stage) == Reboot(MarkAppend(x, i, Dropped), c.appendRpcs[i].dst)
    ensures Inv(CrashInAppendStep(c, i, stage))
  {
    DroppedKept(x, i, c.appendRpcs[i].dst);
  }

  lemma EarlyCrashKept(c: State, i: nat)
    requires Inv(c) && CanCrashInAppend(c, i, 0)
    ensures Inv(CrashInAppendStep(c, i, 0))
  {
    CrashInAppendIs(c, i, 0);
    RecognizedKept(c, i);
    CrashFrom(c, i, 0, Recognized(c, i));
  }

  lemma LateCrashKept(c: State, i: nat, stage: nat)
    requires CanCrashInAppend(c, i, stage) && stage > 0 && MayAccept(Recognized(c, i), i) && Inv(Recognized(c, i))
    ensures Inv(CrashInAppendStep(c, i, stage))
  {
    CrashInAppendIs(c, i, stage);
    FollowedKept(Recognized(c, i), i);
    if stage == 1 {
      CrashFrom(c, i, stage, Accepted(Recognized(c, i), i));
    } else {
      CrashFrom(c, i, stage, Followed(Accepted(Recognized(c, i), i), i));
    }
  }

  lemma CrashInAppendKept(c: State, i: nat, stage: nat)
    requires Inv(c) && CanCrashInAppend(c, i, stage)
    ensures Inv(CrashInAppendStep(c, i, stage))
  {
    if stage == 0 {
      EarlyCrashKept(c, i);
    } else {
      RecognizedKept(c, i);
      LateCrashKept(c, i, stage);
    }
  }

  // ---- taking replies ----------------------------------------------------------------------------------

  lemma TakenIdle(c: State, i: nat)
    requires ToCollectAppend(c, i)
    ensures var r := c.appendRpcs[i]; ProgressKept.Idle(MarkAppend(c, i, Taken(r.status.reply)), r.src, r.dst)
  {
    var d := MarkAppend(c, i, Taken(c.appendRpcs[i].status.reply));
    assert Newest(d.appendRpcs, i);
  }

  lemma TakenMarked(c: State, i: nat)
    requires Inv(c) && ToCollectAppend(c, i)
    ensures Inv(MarkAppend(c, i, Taken(c.appendRpcs[i].status.reply)))
  {
    Parts(c);
    assert RepliesOk(c, c.appendRpcs[i]);
    MarkedAppendKept(c, i, Taken(c.appendRpcs[i].status.reply));
  }

  ghost predicate Heard(c: State, i: nat) {
    && ToCollectAppend(c, i)
    && var r := c.appendRpcs[i];
    && r.status.reply.term <= Term(c, r.src) && c.nodes[r.src].role == Leader && Term(c, r.src) == r.args.term
  }

  /** m records new progress of p at n, which waits for no reply from p. */
  ghost predicate Recordable(c: State, n: Id, p: Id, m: Node) {
    && n in c.nodes && ProgressKept.Idle(c, n, p)
    && ProgressKept.RecordOf(c.nodes[n], m, p) && PeerTracked(PutNode(c, n, m), n, p)
    && m.votesReceived == c.nodes[n].votesReceived && m.store == c.nodes[n].store
  }

  lemma RecordableKept(c: State, n: Id, p: Id, m: Node)
    requires Inv(c) && Recordable(c, n, p, m)
    ensures Inv(PutNode(c, n, m))
  {
    RecordedKept(c, n, p, m);
  }

  lemma ReplyFacts(c: State, i: nat)
    requires Inv(c) && Heard(c, i)
    ensures var r := c.appendRpcs[i];
            && AppendRpcOk(c, r) && RepliesOk(c, r) && PeerTracked(c, r.src, r.dst)
            && ReignsElected(c) && ReignsOk(c) && AcksOk(c)
            && ProbeOk(c.nodes[r.src], r)
  {
    Parts(c);
    var r := c.appendRpcs[i];
    assert AppendRpcOk(c, r) && RepliesOk(c, r);
    ProgressKept.ListedPeer(c, r.src, r.dst);
    assert PeerTracked(c, r.src, r.dst);
    assert Awaited(c, i);
  }

  lemma CreditedRecordable(c: State, i: nat)
    requires Heard(c, i) && c.appendRpcs[i].status.reply.success
    requires var r := c.appendRpcs[i]; RepliesOk(c, r) && PeerTracked(c, r.src, r.dst)
    requires ReignsElected(c) && ReignsOk(c) && AcksOk(c)
    ensures var r := c.appendRpcs[i];
            Recordable(MarkAppend(c, i, Taken(r.status.reply)), r.src, r.dst,
                       Progress(c.nodes[r.src], r.dst, r.args.prevLogIndex + |r.args.entries|))
  {
    var r := c.appendRpcs[i];
    TakenIdle(c, i);
    ProgressKept.SuccessTracked(c, r.src, r.dst, r.args.prevLogIndex + |r.args.entries|);
  }

  lemma BackedRecordable(c: State, i: nat)
    requires Heard(c, i) && !c.appendRpcs[i].status.reply.success
    requires var r := c.appendRpcs[i]; RepliesOk(c, r) && PeerTracked(c, r.src, r.dst) && ProbeOk(c.nodes[r.src], r)
    ensures var r := c.appendRpcs[i];
            Recordable(MarkAppend(c, i, Taken(r.status.reply)), r.src, r.dst, Backtrack(c.nodes[r.src], r.dst))
  {
    var r := c.appendRpcs[i];
    TakenIdle(c, i);
    assert Mismatched(r);
    ProgressKept.FailureTracked(c, r.src, r.dst);
  }

  /** What the reply makes of its sender, when the sender still leads the term. */
  function Recorded(c: State, i: nat): Node
    requires ToCollectAppend(c, i)
  {
    var r := c.appendRpcs[i];
    if r.status.reply.success then Progress(c.nodes[r.src], r.dst, r.args.prevLogIndex + |r.args.entries|)
    else Backtrack(c.nodes[r.src], r.dst)
  }

  lemma RecordedRecordable(c: State, i: nat)
    requires Inv(c) && Heard(c, i)
    ensures var r := c.appendRpcs[i];
            Recordable(MarkAppend(c, i, Taken(r.status.reply)), r.src, r.dst, Recorded(c, i))
  {
    ReplyFacts(c, i);
    RecordableFrom(c, i);
  }

  lemma RecordableFrom(c: State, i: nat)
    requires Heard(c, i)
    requires var r := c.appendRpcs[i]; RepliesOk(c, r) && PeerTracked(c, r.src, r.dst) && ProbeOk(c.nodes[r.src], r)
    requires ReignsElected(c) && ReignsOk(c) && AcksOk(c)
    ensures var r := c.appendRpcs[i];
            Recordable(MarkAppend(c, i, Taken(r.status.reply)), r.src, r.dst, Recorded(c, i))
  {
    if c.appendRpcs[i].status.reply.success { CreditedRecordable(c, i); } else { BackedRecordable(c, i); }
  }

  lemma UnheardAppendIs(c: State, i: nat)
    requires ToCollectAppend(c, i) && !Heard(c, i)
    ensures var r := c.appendRpcs[i]; var reply := r.status.reply; var d := MarkAppend(c, i, Taken(reply));
            CollectAppendStep(c, i) ==
            if reply.term > Term(c, r.src) then PutNode(d, r.src, StepDown(c.nodes[r.src], reply.term)) else d
  {
    SameNode(c, c.appendRpcs[i].src);
  }

  lemma HeardAppendIs(c: State, i: nat)
    requires Heard(c, i)
    ensures var r := c.appendRpcs[i];
            var d := PutNode(MarkAppend(c, i, Taken(r.status.reply)), r.src, Recorded(c, i));
            CollectAppendStep(c, i) == if r.status.reply.success then Advanced(d, r.src) else d
  {
    var r := c.appendRpcs[i];
    PutTwice(c, r.src, Recorded(c, i), AdvanceCommit(Recorded(c, i), Peers(c, r.src)));
  }

  lemma UnheardAppendKept(c: State, i: nat)
    requires Inv(c) && ToCollectAppend(c, i) && !Heard(c, i)
    ensures Inv(CollectAppendStep(c, i))
  {
    var r := c.appendRpcs[i];
    UnheardAppendIs(c, i);
    TakenMarked(c, i);
    if r.status.reply.term > Term(c, r.src) {
      Retreat(MarkAppend(c, i, Taken(r.status.reply)), r.src, StepDown(c.nodes[r.src], r.status.reply.term));
    }
  }

  lemma HeardAppendKept(c: State, i: nat)
    requires Inv(c) && Heard(c, i)
    ensures Inv(CollectAppendStep(c, i))
  {
    var r := c.appendRpcs[i];
    HeardAppendIs(c, i);
    TakenMarked(c, i);
    RecordedRecordable(c, i);
    RecordableKept(MarkAppend(c, i, Taken(r.status.reply)), r.src, r.dst, Recorded(c, i));
    if r.status.reply.success {
      AdvancedKept(PutNode(MarkAppend(c, i, Taken(r.status.reply)), r.src, Recorded(c, i)), r.src);
    }
  }

  lemma CollectAppendKept(c: State, i: nat)
    requires Inv(c) && ToCollectAppend(c, i)
    ensures Inv(CollectAppendStep(c, i))
  {
    if Heard(c, i) { HeardAppendKept(c, i); } else { UnheardAppendKept(c, i); }
  }

  // ---- clients ---------------------------------------------------------------------------------------------

  lemma ProposeIs(c: State, n: Id, command: Command)
    requires Leads(c, n)
    ensures ProposeStep(c, n, command) == Advanced(Appended(c, n, command), n)
  {
    var x := Append(c.nodes[n], command);
    var m := AdvanceCommit(x, Peers(c, n));
    assert c.nodes[n := x][n := m] == c.nodes[n := m];
  }

  lemma ProposeKept(c: State, n: Id, command: Command)
    requires Inv(c) && Leads(c, n)
    ensures Inv(ProposeStep(c, n, command))
  {
    ProposeIs(c, n, command);
    AppendedKept(c, n, command);
    AdvancedKept(Appended(c, n, command), n);
  }

  // ---- all events, all runs ------------------------------------------------------------------------------------

  lemma CrashInProposeKept(c: State, n: Id, command: Command)
    requires Inv(c) && Leads(c, n)
    ensures Inv(CrashInProposeStep(c, n, command))
  {
    AppendedKept(c, n, command);
    RebootKept(Appended(c, n, command), n);
  }

  /** Every step of the cluster keeps the invariant. */
  lemma StepKept(c: State, e: Event)
    requires Inv(c) && Enabled(c, e)
    ensures Inv(Next(c, e))
  {
    match e
    case TimesOut(n) => TimeoutKept(c, n);
    case Broadcasts(n) => BroadcastKept(c, n);
    case DeliversVote(i) => DeliverVoteKept(c, i);
    case CollectsVote(i) => CollectVoteKept(c, i);
    case SendsAppend(n, p) => SentKept(c, n, p);
    case DeliversAppend(i) => DeliverAppendKept(c, i);
    case CollectsAppend(i) => CollectAppendKept(c, i);
    case Proposes(n, command) => ProposeKept(c, n, command);
    case Crashes(n) => RebootKept(c, n);
    case CrashesInTimeout(n, inOffice) => CrashInTimeoutKept(c, n, inOffice);
    case CrashesInVote(i, voted) => CrashInVoteKept(c, i, voted);
    case CrashesInCollectVote(i) => CrashInCollectVoteKept(c, i);
    case CrashesInAppend(i, stage) => CrashInAppendKept(c, i, stage);
    case CrashesInPropose(n, command) => CrashInProposeKept(c, n, command);
  }

  lemma InitialHolds(c: State)
    requires Initial(c)
    ensures Inv(c)
  {
  }

  lemma EventOf(c: State, d: State) returns (e: Event)
    requires Step(c, d)
    ensures Enabled(c, e) && d == Next(c, e)
  {
    e :| Enabled(c, e) && d == Next(c, e);
  }

  lemma NextKept(c: State, d: State)
    requires Inv(c) && Step(c, d)
    ensures Inv(d)
  {
    var e := EventOf(c, d);
    StepKept(c, e);
  }

  lemma {:induction false} RunKept(run: seq<State>, i: nat)
    requires IsRun(run) && i < |run|
    ensures Inv(run[i])
  {
    if i == 0 {
      InitialHolds(run[0]);
    } else {
      RunKept(run, i - 1);
      assert StepAt(run, i - 1);
      NextKept(run[i - 1], run[i]);
    }
  }
}
