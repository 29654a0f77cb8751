// What each server's own fields say, in every reachable state: votedFor is its
// vote of the running term, leaderId the leader of that term, and a leader has
// committed all that a majority is known to hold.
module Bookkeeping {
  import opened RaftTypes
  import opened RaftNode
  import opened Cluster
  import opened Invariants
  import LogKept
  import History
  import Runs

  // ---- one server moves per event ---------------------------------------------------------

  function Actor(c: State, e: Event): Id
    requires Enabled(c, e)
  {
    match e
    case TimesOut(n) => n
    case Broadcasts(n) => n
    case DeliversVote(i) => c.voteRpcs[i].dst
    case CollectsVote(i) => c.voteRpcs[i].src
    case SendsAppend(n, _) => n
    case DeliversAppend(i) => c.appendRpcs[i].dst
    case CollectsAppend(i) => c.appendRpcs[i].src
    case Proposes(n, _) => n
    case Crashes(n) => n
    case CrashesInTimeout(n, _) => n
    case CrashesInVote(i, _) => c.voteRpcs[i].dst
    case CrashesInCollectVote(i) => c.voteRpcs[i].src
    case CrashesInAppend(i, _) => c.appendRpcs[i].dst
    case CrashesInPropose(n, _) => n
  }

  /** How far it gets: to the end of the critical section, or to the crash. */
  function Reached(c: State, e: Event): Node
    requires Enabled(c, e)
  {
    var a := Actor(c, e);
    var n, peers := c.nodes[a], Peers(c, a);
    match e
    case TimesOut(_) => OnTimeout(n, a, peers)
    case DeliversVote(i) => HandleRequestVote(n, c.voteRpcs[i].args).0
    case CollectsVote(i) => OnVoteReply(n, a, peers, c.voteRpcs[i].args.term, c.voteRpcs[i].status.reply)
    case DeliversAppend(i) => HandleAppendEntries(n, c.appendRpcs[i].args).0
    case CollectsAppend(i) =>
      OnAppendReply(n, peers, c.appendRpcs[i].dst, c.appendRpcs[i].args, c.appendRpcs[i].status.reply)
    case Proposes(_, command) => Propose(n, peers, command)
    case CrashesInTimeout(_, inOffice) =>
      if inOffice then TakeOffice(StartElection(n, a), a, peers) else StartElection(n, a)
    case CrashesInVote(i, voted) =>
      var adopted := Adopt(n, c.voteRpcs[i].args.term);
      if voted then CastVote(adopted, c.voteRpcs[i].args) else adopted
    case CrashesInCollectVote(_) => TakeOffice(CountVote(n), a, peers)
    case CrashesInAppend(i, stage) =>
      var f := Recognize(n, c.appendRpcs[i].args);
      if stage == 0 then f
      else if stage == 1 then StoreEntries(f, c.appendRpcs[i].args)
      else CommitFrom(StoreEntries(f, c.appendRpcs[i].args), c.appendRpcs[i].args)
    case CrashesInPropose(_, command) => Append(n, command)
    case _ => n
  }

  function After(c: State, e: Event): Node
    requires Enabled(c, e)
  {
    if IsCrash(e) then Restart(Reached(c, e)) else Reached(c, e)
  }

  ghost predicate MovesActor(c: State, e: Event)
    requires Enabled(c, e)
  {
    var d := Next(c, e);
    d.nodes == c.nodes[Actor(c, e) := After(c, e)] && d.members == c.members && d.peerList == c.peerList
  }

  lemma SendingMoves(c: State, e: Event)
    requires Enabled(c, e) && (e.Broadcasts? || e.SendsAppend?)
    ensures MovesActor(c, e)
  {
    assert c.nodes[Actor(c, e) := c.nodes[Actor(c, e)]] == c.nodes;
  }

  lemma TimeoutMoves(c: State, e: Event)
    requires Enabled(c, e) && e.TimesOut?
    ensures MovesActor(c, e)
  {
    var m := OnTimeout(c.nodes[e.n], e.n, Peers(c, e.n));
    var d := RecordVote(PutNode(c, e.n, m), m.meta.currentTerm, e.n, e.n, c.nodes[e.n].log);
    assert d.nodes == c.nodes[e.n := m];
    assert TimeoutStep(c, e.n) == if m.role == Leader then EnterReign(d, e.n, {e.n})
                                  else d.(broadcasting := c.broadcasting + {e.n});
  }

  lemma DeliverVoteMoves(c: State, e: Event)
    requires Enabled(c, e) && e.DeliversVote?
    ensures MovesActor(c, e)
  {
  }

  lemma CollectVoteMoves(c: State, e: Event)
    requires Enabled(c, e) && e.CollectsVote?
    ensures MovesActor(c, e)
  {
  }

  lemma AppendMoves(c: State, e: Event)
    requires Enabled(c, e) && (e.DeliversAppend? || e.CollectsAppend?)
    ensures MovesActor(c, e)
  {
  }

  lemma ProposeMoves(c: State, e: Event)
    requires Enabled(c, e) && e.Proposes?
    ensures MovesActor(c, e)
  {
  }

  /** The cluster c with n at m, which then dies and comes back. */
  lemma RebootMoves(c: State, x: State, n: Id, m: Node)
    requires n in c.nodes && x.nodes == c.nodes[n := m] && x.members == c.members && x.peerList == c.peerList
    ensures var d := Reboot(x, n);
            d.nodes == c.nodes[n := Restart(m)] && d.members == c.members && d.peerList == c.peerList
  {
    assert c.nodes[n := m][n := Restart(m)] == c.nodes[n := Restart(m)];
  }

  lemma CrashMoves(c: State, e: Event)
    requires Enabled(c, e) && e.Crashes?
    ensures MovesActor(c, e)
  {
  }

  lemma CrashInProposeMoves(c: State, e: Event)
    requires Enabled(c, e) && e.CrashesInPropose?
    ensures MovesActor(c, e)
  {
    var m := Append(c.nodes[e.n], e.command);
    RebootMoves(c, ExtendReign(PutNode(c, e.n, m), e.n), e.n, m);
  }

  lemma CrashInOfficeMoves(c: State, e: Event)
    requires Enabled(c, e) && e.CrashesInTimeout? && e.inOffice
    ensures MovesActor(c, e)
  {
    var n, cand := e.n, StartElection(c.nodes[e.n], e.n);
    var m := TakeOffice(cand, n, Peers(c, n));
    History.CrashInOfficeIs(c, n);
    SoloOfficeMoves(c, n, cand, m);
    RebootMoves(c, History.SoloOffice(c, n), n, m);
  }

  lemma SoloOfficeMoves(c: State, n: Id, cand: Node, m: Node)
    requires n in c.nodes && cand == StartElection(c.nodes[n], n) && m == TakeOffice(cand, n, Peers(c, n))
    ensures var d := History.SoloOffice(c, n);
            d.nodes == c.nodes[n := m] && d.members == c.members && d.peerList == c.peerList
  {
    assert c.nodes[n := cand][n := m] == c.nodes[n := m];
  }

  lemma CrashInCandidacyMoves(c: State, e: Event)
    requires Enabled(c, e) && e.CrashesInTimeout? && !e.inOffice
    ensures MovesActor(c, e)
  {
    var cand := StartElection(c.nodes[e.n], e.n);
    RebootMoves(c, RecordVote(PutNode(c, e.n, cand), cand.meta.currentTerm, e.n, e.n, cand.log), e.n, cand);
  }

  lemma CrashInVoteMoves(c: State, e: Event)
    requires Enabled(c, e) && e.CrashesInVote?
    ensures MovesActor(c, e)
  {
    var r := c.voteRpcs[e.i];
    var a := Adopt(c.nodes[r.dst], r.args.term);
    var m := if e.voted then CastVote(a, r.args) else a;
    var x := MarkVote(PutNode(c, r.dst, m), e.i, Dropped);
    RebootMoves(c, if e.voted then RecordVote(x, r.args.term, r.dst, r.args.candidateId, a.log) else x, r.dst, m);
  }

  lemma CrashInCollectVoteMoves(c: State, e: Event)
    requires Enabled(c, e) && e.CrashesInCollectVote?
    ensures MovesActor(c, e)
  {
    var r := c.voteRpcs[e.i];
    var m := TakeOffice(CountVote(c.nodes[r.src]), r.src, Peers(c, r.src));
    var x := MarkVote(PutNode(c, r.src, m), e.i, Taken(r.status.reply));
    RebootMoves(c, EnterReign(x, r.src, Supporters(x.voteRpcs, r.src, r.args.term)), r.src, m);
  }

  lemma CrashInAppendMoves(c: State, e: Event)
    requires Enabled(c, e) && e.CrashesInAppend?
    ensures MovesActor(c, e)
  {
    var r := c.appendRpcs[e.i];
    var m := Reached(c, e);
    var x := MarkAppend(PutNode(c, r.dst, m), e.i, Dropped);
    var k := r.args.prevLogIndex + |r.args.entries|;
    RebootMoves(c, if e.stage > 0 then RecordAck(x, r.args.term, r.dst, k) else x, r.dst, m);
  }

  lemma EventMoves(c: State, e: Event)
    requires Enabled(c, e)
    ensures MovesActor(c, e)
  {
    match e
    case TimesOut(_) => TimeoutMoves(c, e);
    case Broadcasts(_) => SendingMoves(c, e);
    case DeliversVote(_) => DeliverVoteMoves(c, e);
    case CollectsVote(_) => CollectVoteMoves(c, e);
    case SendsAppend(_, _) => SendingMoves(c, e);
    case DeliversAppend(_) => AppendMoves(c, e);
    case CollectsAppend(_) => AppendMoves(c, e);
    case Proposes(_, _) => ProposeMoves(c, e);
    case Crashes(_) => CrashMoves(c, e);
    case CrashesInTimeout(_, inOffice) =>
      if inOffice { CrashInOfficeMoves(c, e); } else { CrashInCandidacyMoves(c, e); }
    case CrashesInVote(_, _) => CrashInVoteMoves(c, e);
    case CrashesInCollectVote(_) => CrashInCollectVoteMoves(c, e);
    case CrashesInAppend(_, _) => CrashInAppendMoves(c, e);
    case CrashesInPropose(_, _) => CrashInProposeMoves(c, e);
  }

  // ---- a leader has committed all it may -----------------------------------------------------

  /** The peers known to hold the leader's log up to index. */
  function KnownTo(n: Node, peers: seq<Id>, index: nat): set<Id> {
    set p | p in peers && At(n.matchIndex, p) >= index
  }

  /** No entry of the running term above commitIndex is known to be held by more than half of the servers. */
  ghost predicate Settled(n: Node, peers: seq<Id>) {
    n.role == Leader ==>
      forall i :: n.meta.commitIndex < i <= LastIndex(n.log) && TermAt(n.log, i) == n.meta.currentTerm ==>
        2 * (1 + |KnownTo(n, peers, i)|) <= |peers| + 1
  }

  lemma AdvanceSettles(n: Node, peers: seq<Id>)
    ensures Settled(AdvanceCommit(n, peers), peers)
  {
    var m := AdvanceCommit(n, peers);
    if n.role == Leader {
      forall i | m.meta.commitIndex < i <= LastIndex(m.log) && TermAt(m.log, i) == m.meta.currentTerm
        ensures 2 * (1 + |KnownTo(m, peers, i)|) <= |peers| + 1
      {
        assert !Committable(n, peers, i);
        assert KnownTo(m, peers, i) == Replicas(peers, n.matchIndex, i);
        MajorityIsMoreThanHalf(|peers| + 1, 1 + |KnownTo(m, peers, i)|);
      }
    }
  }

  lemma VoteSettled(n: Node, args: VoteArgs, peers: seq<Id>)
    requires Settled(n, peers)
    ensures Settled(HandleRequestVote(n, args).0, peers)
  {
    var m := HandleRequestVote(n, args).0;
    if m.role == Leader { assert forall i :: KnownTo(m, peers, i) == KnownTo(n, peers, i); }
  }

  lemma VoteReplySettled(n: Node, self: Id, peers: seq<Id>, electionTerm: nat, reply: VoteReply)
    requires Settled(n, peers)
    ensures Settled(OnVoteReply(n, self, peers, electionTerm, reply), peers)
  {
    AdvanceSettles(TakeOffice(CountVote(n), self, peers), peers);
  }

  lemma AppendSettled(n: Node, args: AppendArgs, peers: seq<Id>)
    requires Settled(n, peers)
    ensures Settled(HandleAppendEntries(n, args).0, peers)
  {
  }

  lemma BacktrackSettled(n: Node, peer: Id, peers: seq<Id>)
    requires Settled(n, peers)
    ensures Settled(Backtrack(n, peer), peers)
  {
    assert forall i :: KnownTo(Backtrack(n, peer), peers, i) == KnownTo(n, peers, i);
  }

  lemma RecordedSettled(n: Node, peers: seq<Id>, peer: Id, matched: nat, success: bool)
    requires Settled(n, peers)
    ensures Settled(RecordReply(n, peers, peer, matched, success), peers)
  {
    if success { AdvanceSettles(Progress(n, peer, matched), peers); } else { BacktrackSettled(n, peer, peers); }
  }

  lemma EitherSettled(n: Node, x: Node, m: Node, peers: seq<Id>)
    requires Settled(n, peers) && Settled(x, peers) && (m == n || m == x)
    ensures Settled(m, peers)
  {
  }

  lemma HeardReplySettled(n: Node, peers: seq<Id>, peer: Id, args: AppendArgs, reply: AppendReply, m: Node)
    requires Settled(n, peers) && reply.term <= n.meta.currentTerm
    requires m == n || m == RecordReply(n, peers, peer, args.prevLogIndex + |args.entries|, reply.success)
    ensures Settled(m, peers)
  {
    RecordedSettled(n, peers, peer, args.prevLogIndex + |args.entries|, reply.success);
    EitherSettled(n, RecordReply(n, peers, peer, args.prevLogIndex + |args.entries|, reply.success), m, peers);
  }

  lemma AppendReplySettled(n: Node, peers: seq<Id>, peer: Id, args: AppendArgs, reply: AppendReply)
    requires Settled(n, peers)
    ensures Settled(OnAppendReply(n, peers, peer, args, reply), peers)
  {
    if reply.term <= n.meta.currentTerm {
      ReplyIs(n, peers, peer, args, reply);
      HeardReplySettled(n, peers, peer, args, reply, OnAppendReply(n, peers, peer, args, reply));
    }
  }

  lemma EventSettled(c: State, e: Event)
    requires Enabled(c, e) && Settled(c.nodes[Actor(c, e)], Peers(c, Actor(c, e)))
    ensures Settled(After(c, e), Peers(c, Actor(c, e)))
  {
    var a := Actor(c, e);
    var n, peers := c.nodes[a], Peers(c, a);
    match e
    case TimesOut(_) => AdvanceSettles(TakeOffice(StartElection(n, a), a, peers), peers);
    case DeliversVote(i) => VoteSettled(n, c.voteRpcs[i].args, peers);
    case CollectsVote(i) => VoteReplySettled(n, a, peers, c.voteRpcs[i].args.term, c.voteRpcs[i].status.reply);
    case DeliversAppend(i) => AppendSettled(n, c.appendRpcs[i].args, peers);
    case CollectsAppend(i) =>
      AppendReplySettled(n, peers, c.appendRpcs[i].dst, c.appendRpcs[i].args, c.appendRpcs[i].status.reply);
    case Proposes(_, command) => AdvanceSettles(Append(n, command), peers);
    case _ =>
  }

  ghost predicate AllSettled(c: State) {
    forall n :: n in c.nodes ==> Settled(c.nodes[n], Peers(c, n))
  }

  lemma StepSettled(c: State, e: Event)
    requires AllSettled(c) && Enabled(c, e)
    ensures AllSettled(Next(c, e))
  {
    EventMoves(c, e);
    EventSettled(c, e);
    OneMoved(c, Next(c, e), Actor(c, e), After(c, e));
  }

  lemma OneMoved(c: State, d: State, n: Id, m: Node)
    requires AllSettled(c) && d.nodes == c.nodes[n := m] && d.peerList == c.peerList && Settled(m, Peers(c, n))
    ensures AllSettled(d)
  {
  }

  lemma NextSettled(c: State, d: State)
    requires AllSettled(c) && Step(c, d)
    ensures AllSettled(d)
  {
    var e := Runs.EventOf(c, d);
    StepSettled(c, e);
  }

  lemma InitialSettled(c: State)
    requires Initial(c)
    ensures AllSettled(c)
  {
  }

  lemma SettledAt(run: seq<State>, i: nat)
    requires IsRun(run) && i + 1 < |run| && AllSettled(run[i])
    ensures AllSettled(run[i + 1])
  {
    assert StepAt(run, i);
    NextSettled(run[i], run[i + 1]);
  }

  lemma {:induction false} RunSettled(run: seq<State>, i: nat)
    requires IsRun(run) && i < |run|
    ensures AllSettled(run[i])
  {
    if i == 0 {
      InitialSettled(run[0]);
    } else {
      RunSettled(run, i - 1);
      SettledAt(run, i - 1);
    }
  }

  // ---- votedFor is the vote of the running term ------------------------------------------------

  /** The server n voted for in term t, or 0. */
  ghost function VoteOf(c: State, t: nat, n: Id): Id {
    if (t, n) in c.votes then c.votes[(t, n)].candidate else 0
  }

  ghost predicate VotedExactly(c: State) {
    forall n :: n in c.nodes ==> c.nodes[n].meta.votedFor == VoteOf(c, Term(c, n), n)
  }

  /** No vote is cast: the same vote in the same term, or none in a new one. */
  predicate KeepsVote(n: Node, m: Node) {
    if m.meta.currentTerm == n.meta.currentTerm then m.meta.votedFor == n.meta.votedFor
    else m.meta.currentTerm > n.meta.currentTerm && m.meta.votedFor == 0
  }

  lemma SameVoteExactly(c: State, d: State, n: Id, m: Node)
    requires VotesRecorded(c) && VotedExactly(c) && n in c.nodes
    requires d.nodes == c.nodes[n := m] && d.votes == c.votes && KeepsVote(c.nodes[n], m)
    ensures VotedExactly(d)
  {
    if (m.meta.currentTerm, n) in c.votes {
      assert VoteRecorded(c, m.meta.currentTerm, n, c.votes[(m.meta.currentTerm, n)]);
    }
  }

  lemma NewVoteExactly(c: State, d: State, n: Id, m: Node, candidate: Id, log: seq<Entry>)
    requires VotesRecorded(c) && VotedExactly(c) && n in c.nodes && m.meta.votedFor == candidate != 0
    requires d.nodes == c.nodes[n := m] && d.votes == RecordVote(c, m.meta.currentTerm, n, candidate, log).votes
    requires || m.meta.currentTerm > Term(c, n)
             || (m.meta.currentTerm == Term(c, n) && c.nodes[n].meta.votedFor in {0, candidate})
    ensures VotedExactly(d)
  {
    if (m.meta.currentTerm, n) in c.votes {
      assert VoteRecorded(c, m.meta.currentTerm, n, c.votes[(m.meta.currentTerm, n)]);
    }
  }

  lemma VoteReplyKeepsVote(n: Node, self: Id, peers: seq<Id>, electionTerm: nat, reply: VoteReply)
    ensures KeepsVote(n, OnVoteReply(n, self, peers, electionTerm, reply))
  {
  }

  lemma RecognizeKeepsVote(n: Node, args: AppendArgs)
    requires args.term >= n.meta.currentTerm
    ensures KeepsVote(n, Recognize(n, args))
  {
  }

  /** Term and vote are as they were. */
  predicate SameVote(n: Node, m: Node) {
    m.meta.currentTerm == n.meta.currentTerm && m.meta.votedFor == n.meta.votedFor
  }

  lemma FollowSameVote(n: Node, args: AppendArgs)
    ensures SameVote(n, CommitFrom(n, args)) && SameVote(n, Restart(n))
  {
  }

  lemma AppendKeepsVote(n: Node, args: AppendArgs)
    ensures KeepsVote(n, HandleAppendEntries(n, args).0)
  {
    if args.term >= n.meta.currentTerm {
      var f := Recognize(n, args);
      RecognizeKeepsVote(n, args);
      if PrevMatches(f.log, args) { FollowSameVote(StoreEntries(f, args), args); }
    }
  }

  lemma AppendReplyKeepsVote(n: Node, peers: seq<Id>, peer: Id, args: AppendArgs, reply: AppendReply)
    ensures KeepsVote(n, OnAppendReply(n, peers, peer, args, reply))
  {
  }

  lemma CrashKeepsVote(c: State, e: Event)
    requires Enabled(c, e) && IsCrash(e) && !History.CastsVote(e) && !e.CrashesInAppend?
    ensures KeepsVote(c.nodes[Actor(c, e)], After(c, e))
  {
  }

  lemma CrashInAppendKeepsVote(c: State, e: Event)
    requires Enabled(c, e) && e.CrashesInAppend?
    ensures KeepsVote(c.nodes[Actor(c, e)], After(c, e))
  {
    var args := c.appendRpcs[e.i].args;
    var f := Recognize(c.nodes[Actor(c, e)], args);
    RecognizeKeepsVote(c.nodes[Actor(c, e)], args);
    if e.stage == 2 { FollowSameVote(StoreEntries(f, args), args); }
    FollowSameVote(Reached(c, e), args);
  }

  lemma QuietKeepsVote(c: State, e: Event)
    requires Enabled(c, e) && !History.CastsVote(e)
    ensures KeepsVote(c.nodes[Actor(c, e)], After(c, e))
  {
    var a := Actor(c, e);
    var n, peers := c.nodes[a], Peers(c, a);
    match e
    case CollectsVote(i) => VoteReplyKeepsVote(n, a, peers, c.voteRpcs[i].args.term, c.voteRpcs[i].status.reply);
    case DeliversAppend(i) => AppendKeepsVote(n, c.appendRpcs[i].args);
    case CollectsAppend(i) =>
      AppendReplyKeepsVote(n, peers, c.appendRpcs[i].dst, c.appendRpcs[i].args, c.appendRpcs[i].status.reply);
    case CrashesInAppend(_, _) => CrashInAppendKeepsVote(c, e);
    case _ => if IsCrash(e) { CrashKeepsVote(c, e); }
  }

  lemma QuietExactly(c: State, e: Event)
    requires Inv(c) && VotedExactly(c) && Enabled(c, e) && !History.CastsVote(e)
    ensures VotedExactly(Next(c, e))
  {
    VotesOf(c);
    EventMoves(c, e);
    QuietKeepsVote(c, e);
    if IsCrash(e) { History.SameVotesAfterCrash(c, e); } else { History.SameVotes(c, e); }
    SameVoteExactly(c, Next(c, e), Actor(c, e), After(c, e));
  }

  lemma CandidacyVote(c: State, e: Event)
    requires Enabled(c, e) && (e.TimesOut? || e.CrashesInTimeout?)
    ensures var m := After(c, e); m.meta.currentTerm == Term(c, e.n) + 1 && m.meta.votedFor == e.n
  {
    var led := TakeOffice(StartElection(c.nodes[e.n], e.n), e.n, Peers(c, e.n));
    AdvanceKeepsVote(led, Peers(c, e.n));
  }

  lemma AdvanceKeepsVote(n: Node, peers: seq<Id>)
    ensures KeepsVote(n, AdvanceCommit(n, peers))
  {
  }

  lemma CandidacyRecorded(c: State, e: Event)
    requires Enabled(c, e) && (e.TimesOut? || e.CrashesInTimeout?)
    ensures Next(c, e).votes == RecordVote(c, Term(c, e.n) + 1, e.n, e.n, c.nodes[e.n].log).votes
  {
    if e.TimesOut? { History.OwnVote(c, e.n); } else { CrashedCandidacyRecorded(c, e.n, e.inOffice); }
  }

  lemma CrashedCandidacyRecorded(c: State, n: Id, inOffice: bool)
    requires CanCrashInTimeout(c, n, inOffice)
    ensures CrashInTimeoutStep(c, n, inOffice).votes == RecordVote(c, Term(c, n) + 1, n, n, c.nodes[n].log).votes
  {
  }

  lemma CandidacyExactly(c: State, e: Event)
    requires Inv(c) && VotedExactly(c) && Enabled(c, e) && (e.TimesOut? || e.CrashesInTimeout?)
    ensures VotedExactly(Next(c, e))
  {
    ShapeOf(c);
    VotesOf(c);
    EventMoves(c, e);
    CandidacyVote(c, e);
    CandidacyRecorded(c, e);
    NewVoteExactly(c, Next(c, e), e.n, After(c, e), e.n, c.nodes[e.n].log);
  }

  lemma GrantedVote(n: Node, args: VoteArgs)
    requires args.term >= n.meta.currentTerm && Grants(Adopt(n, args.term), args)
    ensures var m := CastVote(Adopt(n, args.term), args);
            && m.meta.currentTerm == args.term && m.meta.votedFor == args.candidateId
            && (args.term == n.meta.currentTerm ==> n.meta.votedFor in {0, args.candidateId})
  {
  }

  lemma RefusedVote(n: Node, args: VoteArgs)
    ensures KeepsVote(n, Adopt(n, args.term))
    ensures var (m, reply) := HandleRequestVote(n, args);
            if reply.voteGranted
            then args.term >= n.meta.currentTerm && Grants(Adopt(n, args.term), args)
                 && m == CastVote(Adopt(n, args.term), args)
            else KeepsVote(n, m)
  {
  }

  /** The voter in a delivery of a vote request, or a crash in one, and whether it votes. */
  predicate Casts(c: State, e: Event)
    requires Enabled(c, e) && (e.DeliversVote? || e.CrashesInVote?)
  {
    if e.CrashesInVote? then e.voted
    else HandleRequestVote(c.nodes[c.voteRpcs[e.i].dst], c.voteRpcs[e.i].args).1.voteGranted
  }

  lemma CastRecorded(c: State, e: Event)
    requires Enabled(c, e) && (e.DeliversVote? || e.CrashesInVote?)
    ensures var r := c.voteRpcs[e.i];
            Next(c, e).votes ==
            if Casts(c, e) then RecordVote(c, r.args.term, r.dst, r.args.candidateId, c.nodes[r.dst].log).votes
            else c.votes
  {
    if e.CrashesInVote? { CrashRecorded(c, e.i, e.voted); }
  }

  lemma CrashRecorded(c: State, i: nat, voted: bool)
    requires CanCrashInVote(c, i, voted)
    ensures var r := c.voteRpcs[i];
            CrashInVoteStep(c, i, voted).votes ==
            if voted then RecordVote(c, r.args.term, r.dst, r.args.candidateId, c.nodes[r.dst].log).votes else c.votes
  {
  }

  lemma CastVotes(c: State, e: Event)
    requires Enabled(c, e) && (e.DeliversVote? || e.CrashesInVote?)
    ensures var r := c.voteRpcs[e.i]; var n, m := c.nodes[r.dst], After(c, e);
            if Casts(c, e)
            then && m.meta.currentTerm == r.args.term >= n.meta.currentTerm && m.meta.votedFor == r.args.candidateId
                 && (r.args.term == n.meta.currentTerm ==> n.meta.votedFor in {0, r.args.candidateId})
            else KeepsVote(n, m)
  {
    var r := c.voteRpcs[e.i];
    RefusedVote(c.nodes[r.dst], r.args);
    if Casts(c, e) { GrantedVote(c.nodes[r.dst], r.args); }
  }

  lemma CandidateNamed(c: State, i: nat)
    requires Inv(c) && i < |c.voteRpcs|
    ensures VotesRecorded(c) && c.voteRpcs[i].args.candidateId == c.voteRpcs[i].src != 0
  {
    Runs.RpcFacts(c, i);
  }

  lemma CastExactly(c: State, e: Event)
    requires Inv(c) && VotedExactly(c) && Enabled(c, e) && (e.DeliversVote? || e.CrashesInVote?)
    ensures VotedExactly(Next(c, e))
  {
    var r := c.voteRpcs[e.i];
    CandidateNamed(c, e.i);
    EventMoves(c, e);
    CastVotes(c, e);
    CastRecorded(c, e);
    if Casts(c, e) {
      NewVoteExactly(c, Next(c, e), r.dst, After(c, e), r.args.candidateId, c.nodes[r.dst].log);
    } else {
      SameVoteExactly(c, Next(c, e), r.dst, After(c, e));
    }
  }

  lemma StepExactly(c: State, e: Event)
    requires Inv(c) && VotedExactly(c) && Enabled(c, e)
    ensures VotedExactly(Next(c, e))
  {
    if !History.CastsVote(e) { QuietExactly(c, e); }
    else if e.TimesOut? || e.CrashesInTimeout? { CandidacyExactly(c, e); }
    else { CastExactly(c, e); }
  }

  lemma NextExactly(c: State, d: State)
    requires Inv(c) && VotedExactly(c) && Step(c, d)
    ensures VotedExactly(d)
  {
    var e := Runs.EventOf(c, d);
    StepExactly(c, e);
  }

  lemma InitialExactly(c: State)
    requires Initial(c)
    ensures VotedExactly(c)
  {
  }

  lemma ExactlyAt(run: seq<State>, i: nat)
    requires IsRun(run) && i + 1 < |run| && VotedExactly(run[i])
    ensures VotedExactly(run[i + 1])
  {
    Runs.RunKept(run, i);
    assert StepAt(run, i);
    NextExactly(run[i], run[i + 1]);
  }

  lemma {:induction false} RunExactly(run: seq<State>, i: nat)
    requires IsRun(run) && i < |run|
    ensures VotedExactly(run[i])
  {
    if i == 0 {
      InitialExactly(run[0]);
    } else {
      RunExactly(run, i - 1);
      ExactlyAt(run, i - 1);
    }
  }

  // ---- leaderId is the leader of the running term ------------------------------------------------

  ghost predicate LeaderKnown(c: State, n: Id, m: Node) {
    && (m.leaderId != 0 ==>
          m.meta.currentTerm in c.reigns && c.reigns[m.meta.currentTerm].leader == m.leaderId)
    && (m.role == Leader ==> m.leaderId == n)
    && (m.role == Candidate ==> m.leaderId == 0)
  }

  ghost predicate LeadersKnown(c: State) {
    forall n :: n in c.nodes ==> LeaderKnown(c, n, c.nodes[n])
  }

  /** m has heard of no leader that n had not, and has not taken office. */
  predicate KeepsLeader(n: Node, m: Node) {
    || (m.leaderId == 0 && m.role != Leader)
    || (m.leaderId == n.leaderId && m.role == n.role && m.meta.currentTerm == n.meta.currentTerm)
  }

  lemma VoteKeepsLeader(n: Node, args: VoteArgs)
    ensures KeepsLeader(n, HandleRequestVote(n, args).0)
  {
  }

  lemma VoteReplyKeepsLeader(n: Node, self: Id, peers: seq<Id>, electionTerm: nat, reply: VoteReply)
    ensures var m := OnVoteReply(n, self, peers, electionTerm, reply);
            KeepsLeader(n, m) || (n.role == Candidate && m.role == Leader && m.leaderId == self
                                  && m.meta.currentTerm == n.meta.currentTerm)
  {
  }

  lemma AppendKeepsLeader(n: Node, args: AppendArgs)
    ensures var m := HandleAppendEntries(n, args).0;
            m == n || (m.leaderId == args.leaderId && m.role == Follower && m.meta.currentTerm == args.term)
  {
  }

  lemma AppendReplyKeepsLeader(n: Node, peers: seq<Id>, peer: Id, args: AppendArgs, reply: AppendReply)
    ensures KeepsLeader(n, OnAppendReply(n, peers, peer, args, reply))
  {
  }

  lemma TimeoutKeepsLeader(n: Node, self: Id, peers: seq<Id>)
    ensures var m := OnTimeout(n, self, peers);
            (m.role == Candidate && m.leaderId == 0) || (m.role == Leader && m.leaderId == self)
  {
  }

  lemma KeptKnown(c: State, d: State, n: Id, m: Node)
    requires LeadersKnown(c) && LogKept.ReignsGrow(c, d) && n in c.nodes && d.nodes == c.nodes[n := m]
    requires KeepsLeader(c.nodes[n], m) || LeaderKnown(d, n, m)
    ensures LeadersKnown(d)
  {
    forall v | v in d.nodes ensures LeaderKnown(d, v, d.nodes[v]) {
      if v != n || KeepsLeader(c.nodes[n], m) { GrownKnown(c, d, v, c.nodes[v]); }
    }
  }

  lemma GrownKnown(c: State, d: State, n: Id, m: Node)
    requires LeaderKnown(c, n, m) && LogKept.ReignsGrow(c, d)
    ensures LeaderKnown(d, n, m)
  {
    if m.leaderId != 0 { assert LogKept.Grown(c.reigns[m.meta.currentTerm], d.reigns[m.meta.currentTerm]); }
  }

  /** A server that leads after an event is the recorded leader of its term. */
  lemma LeaderRecorded(d: State, n: Id)
    requires Inv(d) && Leads(d, n) && d.nodes[n].leaderId == n
    ensures LeaderKnown(d, n, d.nodes[n])
  {
    Parts(d);
    assert InReign(d, n);
  }

  lemma SenderRecorded(c: State, i: nat)
    requires Inv(c) && i < |c.appendRpcs|
    ensures var a := c.appendRpcs[i].args; a.term in c.reigns && c.reigns[a.term].leader == a.leaderId
  {
    Parts(c);
    assert AppendRpcOk(c, c.appendRpcs[i]);
  }

  lemma EventKeepsLeader(c: State, e: Event)
    requires Enabled(c, e) && LeaderKnown(c, Actor(c, e), c.nodes[Actor(c, e)])
    ensures var a := Actor(c, e); var n, m := c.nodes[a], After(c, e);
            || KeepsLeader(n, m) || (m.role == Leader && m.leaderId == a)
            || (e.DeliversAppend? && m.role == Follower && m.leaderId == c.appendRpcs[e.i].args.leaderId
                && m.meta.currentTerm == c.appendRpcs[e.i].args.term)
  {
    var a := Actor(c, e);
    var n, peers := c.nodes[a], Peers(c, a);
    match e
    case TimesOut(_) => TimeoutKeepsLeader(n, a, peers);
    case DeliversVote(i) => VoteKeepsLeader(n, c.voteRpcs[i].args);
    case CollectsVote(i) => VoteReplyKeepsLeader(n, a, peers, c.voteRpcs[i].args.term, c.voteRpcs[i].status.reply);
    case DeliversAppend(i) => AppendKeepsLeader(n, c.appendRpcs[i].args);
    case CollectsAppend(i) =>
      AppendReplyKeepsLeader(n, peers, c.appendRpcs[i].dst, c.appendRpcs[i].args, c.appendRpcs[i].status.reply);
    case Proposes(_, command) => Runs.AdvanceKeeps(Append(n, command), peers);
    case _ =>
  }

  lemma StepKnown(c: State, e: Event)
    requires Inv(c) && LeadersKnown(c) && Enabled(c, e)
    ensures LeadersKnown(Next(c, e))
  {
    var a, m, d := Actor(c, e), After(c, e), Next(c, e);
    EventMoves(c, e);
    EventKeepsLeader(c, e);
    History.StepOnward(c, e);
    Runs.StepKept(c, e);
    if m.role == Leader && m.leaderId == a {
      LeaderRecorded(d, a);
    } else if e.DeliversAppend? && !KeepsLeader(c.nodes[a], m) {
      SenderRecorded(c, e.i);
      var t := c.appendRpcs[e.i].args.term;
      assert LogKept.Grown(c.reigns[t], d.reigns[t]);
    }
    KeptKnown(c, d, a, m);
  }

  lemma NextKnown(c: State, d: State)
    requires Inv(c) && LeadersKnown(c) && Step(c, d)
    ensures LeadersKnown(d)
  {
    var e := Runs.EventOf(c, d);
    StepKnown(c, e);
  }

  lemma InitialKnown(c: State)
    requires Initial(c)
    ensures LeadersKnown(c)
  {
  }

  lemma KnownAt(run: seq<State>, i: nat)
    requires IsRun(run) && i + 1 < |run| && LeadersKnown(run[i])
    ensures LeadersKnown(run[i + 1])
  {
    Runs.RunKept(run, i);
    assert StepAt(run, i);
    NextKnown(run[i], run[i + 1]);
  }

  lemma {:induction false} RunKnown(run: seq<State>, i: nat)
    requires IsRun(run) && i < |run|
    ensures LeadersKnown(run[i])
  {
    if i == 0 {
      InitialKnown(run[0]);
    } else {
      RunKnown(run, i - 1);
      KnownAt(run, i - 1);
    }
  }
}
