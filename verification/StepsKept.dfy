// Every elementary step keeps the whole invariant.
module StepsKept {
  import opened RaftTypes
  import opened RaftNode
  import opened Cluster
  import opened Invariants
  import opened ElementarySteps
  import ElectionKept
  import LogKept
  import StorageKept
  import CommitKept
  import ProgressKept

  // ---- changes to one server only ----------------------------------------------------

  /** Only server n, the votes and the vote connections may differ. */
  ghost predicate OneNode(c: State, d: State, n: Id) {
    && n in c.nodes && n in d.nodes && d.nodes == c.nodes[n := d.nodes[n]] && d.members == c.members
       && d.peerList == c.peerList
    && d.reigns == c.reigns && d.acked == c.acked && d.appendRpcs == c.appendRpcs
  }

  /** Log, commitment and a leader's record of its peers are the same. */
  ghost predicate Mild(a: Node, b: Node) {
    LogKept.QuietNode(a, b) && CommitKept.CommitSame(a, b) && ProgressKept.SameRecord(a, b)
  }

  ghost predicate SameVoting(c: State, d: State) {
    && d.votes == c.votes && |d.voteRpcs| == |c.voteRpcs|
    && forall i :: 0 <= i < |c.voteRpcs| ==> StorageKept.SameAsk(c.voteRpcs[i], d.voteRpcs[i])
  }

  lemma OneNodeLogs(c: State, d: State, n: Id)
    requires LogInv(c) && OneNode(c, d, n) && LogKept.QuietNode(c.nodes[n], d.nodes[n])
    ensures LogInv(d)
  {
    OneNodeQuiet(c, d, n);
    LogKept.QuietKept(c, d);
  }

  lemma OneNodeQuiet(c: State, d: State, n: Id)
    requires OneNode(c, d, n) && LogKept.QuietNode(c.nodes[n], d.nodes[n])
    ensures LogKept.LogsQuiet(c, d)
  {
  }

  lemma OneNodeStorage(c: State, d: State, n: Id)
    requires StorageInv(c) && OneNode(c, d, n) && StorageKept.StillNode(c.nodes[n], d.nodes[n]) && SameVoting(c, d)
    ensures StorageInv(d)
  {
    assert StorageKept.StorageQuiet(c, d);
    StorageKept.QuietKept(c, d);
  }

  lemma OneNodeCommits(c: State, d: State, n: Id)
    requires CommitInv(c) && OneNode(c, d, n) && CommitKept.CommitSame(c.nodes[n], d.nodes[n])
    ensures CommitInv(d)
  {
    forall m | m in c.nodes ensures CommitKept.CommitSame(c.nodes[m], d.nodes[m]) {
      assert NodeApplied(c.nodes[m]);
    }
    assert CommitKept.CommitQuiet(c, d);
    CommitKept.QuietKept(c, d);
  }

  lemma OneNodeProgress(c: State, d: State, n: Id)
    requires ProgressInv(c) && OneNode(c, d, n) && ProgressKept.SameRecord(c.nodes[n], d.nodes[n])
    ensures ProgressInv(d)
  {
    assert ProgressKept.ProgressQuiet(c, d);
    ProgressKept.QuietKept(c, d);
  }

  lemma MildKept(c: State, d: State, n: Id)
    requires LogInv(c) && CommitInv(c) && ProgressInv(c) && OneNode(c, d, n) && Mild(c.nodes[n], d.nodes[n])
    ensures LogInv(d) && CommitInv(d) && ProgressInv(d)
  {
    OneNodeLogs(c, d, n);
    OneNodeCommits(c, d, n);
    OneNodeProgress(c, d, n);
  }

  lemma Fits(c: State, n: Id)
    requires CommitInv(c) && n in c.nodes
    ensures NodeApplied(c.nodes[n])
  {
  }

  lemma RetreatCalm(c: State, n: Id, m: Node, b: set<Id>)
    requires n in c.nodes && Retreats(c.nodes[n], m) && b <= c.broadcasting && NodeApplied(c.nodes[n])
    ensures var d := PutNode(c, n, m).(broadcasting := b);
            && ElectionKept.Calm(c, d) && OneNode(c, d, n) && Mild(c.nodes[n], d.nodes[n])
            && StorageKept.StillNode(c.nodes[n], d.nodes[n]) && SameVoting(c, d)
  {
  }

  lemma RetreatKept(c: State, n: Id, m: Node, b: set<Id>)
    requires Inv(c) && n in c.nodes && Retreats(c.nodes[n], m) && b <= c.broadcasting
    ensures Inv(PutNode(c, n, m).(broadcasting := b))
  {
    Parts(c);
    var d := PutNode(c, n, m).(broadcasting := b);
    Fits(c, n);
    RetreatCalm(c, n, m, b);
    ElectionKept.CalmKept(c, d);
    MildKept(c, d, n);
    OneNodeStorage(c, d, n);
    Whole(PutNode(c, n, m).(broadcasting := b));
  }

  lemma CandidacyMild(c: State, n: Id)
    requires n in c.nodes && NodeApplied(c.nodes[n])
    ensures OneNode(c, Candidacy(c, n), n) && Mild(c.nodes[n], Candidacy(c, n).nodes[n])
  {
  }

  /** Only the election invariants look at pending broadcasts. */
  lemma Rebroadcast(c: State, n: Id, b: set<Id>)
    requires LogInv(c) && StorageInv(c) && CommitInv(c) && ProgressInv(c) && n in c.nodes && NodeApplied(c.nodes[n])
    ensures var d := c.(broadcasting := b); LogInv(d) && StorageInv(d) && CommitInv(d) && ProgressInv(d)
  {
    var d := c.(broadcasting := b);
    MildKept(c, d, n);
    OneNodeStorage(c, d, n);
  }

  lemma CandidacyElsewhere(c: State, n: Id)
    requires VotesRecorded(c) && VoteRpcsOk(c) && ReignsElected(c) && n in c.nodes && NodeApplied(c.nodes[n])
    requires LogInv(c) && StorageInv(c) && CommitInv(c) && ProgressInv(c)
    ensures var d := Candidacy(c, n); LogInv(d) && StorageInv(d) && CommitInv(d) && ProgressInv(d)
  {
    CandidacyMild(c, n);
    StorageKept.CandidacyKept(c, n);
    MildKept(c, Candidacy(c, n), n);
  }

  lemma CandidacyKept(c: State, n: Id, b: set<Id>)
    requires Inv(c) && n in c.nodes && b <= c.broadcasting + {n}
    ensures Inv(Candidacy(c, n).(broadcasting := b))
  {
    Parts(c);
    Fits(c, n);
    ElectionKept.CandidacyKept(c, n, b);
    CandidacyElsewhere(c, n);
    Rebroadcast(Candidacy(c, n), n, b);
    Whole(Candidacy(c, n).(broadcasting := b));
  }

  lemma VotedMild(c: State, n: Id, args: VoteArgs)
    requires n in c.nodes && NodeApplied(c.nodes[n])
    ensures OneNode(c, Voted(c, n, args), n) && Mild(c.nodes[n], Voted(c, n, args).nodes[n])
  {
  }

  lemma VotedKept(c: State, n: Id, r: VoteRpc)
    requires Inv(c) && MayVote(c, n, r.args) && Advertises(c, r) && r.args.candidateId == r.src
    requires c.nodes[n].role == Follower
    ensures Inv(Voted(c, n, r.args)) && VotedFor(Voted(c, n, r.args), r.args.term, n, r.src)
  {
    Parts(c);
    Fits(c, n);
    ElectionKept.VotedKept(c, n, r.args);
    StorageKept.VotedKept(c, n, r);
    VotedMild(c, n, r.args);
    MildKept(c, Voted(c, n, r.args), n);
    Whole(Voted(c, n, r.args));
  }

  lemma RewiredMild(c: State, d: State, n: Id)
    requires n in c.nodes && NodeApplied(c.nodes[n]) && d == c.(nodes := d.nodes, voteRpcs := d.voteRpcs)
    requires n in d.nodes && d.nodes == c.nodes[n := d.nodes[n]]
    requires d.nodes[n] == c.nodes[n].(votesReceived := d.nodes[n].votesReceived)
    ensures OneNode(c, d, n) && Mild(c.nodes[n], d.nodes[n]) && StorageKept.StillNode(c.nodes[n], d.nodes[n])
  {
  }

  /** Outside the election invariants, neither connection states nor the vote counter matter. */
  lemma Rewired(c: State, d: State, n: Id)
    requires LogInv(c) && StorageInv(c) && CommitInv(c) && ProgressInv(c)
    requires n in c.nodes && NodeApplied(c.nodes[n]) && d == c.(nodes := d.nodes, voteRpcs := d.voteRpcs)
    requires n in d.nodes && d.nodes == c.nodes[n := d.nodes[n]]
    requires d.nodes[n] == c.nodes[n].(votesReceived := d.nodes[n].votesReceived)
    requires SameVoting(c, d)
    ensures LogInv(d) && StorageInv(d) && CommitInv(d) && ProgressInv(d)
  {
    RewiredMild(c, d, n);
    MildKept(c, d, n);
    OneNodeStorage(c, d, n);
  }

  lemma SourceOf(c: State, i: nat)
    requires VoteRpcsOk(c) && i < |c.voteRpcs|
    ensures c.voteRpcs[i].src in c.nodes
  {
    assert VoteRpcOk(c, c.voteRpcs[i]);
  }

  lemma MarkedVoteKept(c: State, i: nat, s: Status<VoteReply>)
    requires Inv(c) && i < |c.voteRpcs| && !c.voteRpcs[i].status.Taken?
    requires ElectionKept.Backed(c, c.voteRpcs[i], s) && ElectionKept.NotCounting(c, c.voteRpcs[i], s)
    ensures Inv(MarkVote(c, i, s))
  {
    Parts(c);
    var n := c.voteRpcs[i].src;
    SourceOf(c, i);
    Fits(c, n);
    ElectionKept.MarkedKept(c, i, s);
    MarkedVoteShape(c, i, s);
    Rewired(c, MarkVote(c, i, s), n);
    Whole(MarkVote(c, i, s));
  }

  lemma MarkedVoteShape(c: State, i: nat, s: Status<VoteReply>)
    requires i < |c.voteRpcs| && c.voteRpcs[i].src in c.nodes
    ensures var d := MarkVote(c, i, s); var n := c.voteRpcs[i].src;
            && SameVoting(c, d) && d == c.(nodes := d.nodes, voteRpcs := d.voteRpcs)
            && d.nodes == c.nodes[n := d.nodes[n]]
               && d.nodes[n] == c.nodes[n].(votesReceived := d.nodes[n].votesReceived)
  {
  }

  lemma CountedShape(c: State, i: nat)
    requires ToCollectVote(c, i)
    ensures var d := Counted(c, i); var n := c.voteRpcs[i].src;
            && SameVoting(c, d) && d == c.(nodes := d.nodes, voteRpcs := d.voteRpcs)
            && d.nodes == c.nodes[n := d.nodes[n]]
               && d.nodes[n] == c.nodes[n].(votesReceived := d.nodes[n].votesReceived)
  {
  }

  lemma CountedKept(c: State, i: nat)
    requires Inv(c) && ToCollectVote(c, i)
    requires CountsVote(c.nodes[c.voteRpcs[i].src], c.voteRpcs[i].args.term, c.voteRpcs[i].status.reply)
    ensures Inv(Counted(c, i))
  {
    Parts(c);
    Fits(c, c.voteRpcs[i].src);
    ElectionKept.CountedKept(c, i);
    CountedShape(c, i);
    Rewired(c, Counted(c, i), c.voteRpcs[i].src);
    Whole(Counted(c, i));
  }

  lemma BroadcastMild(c: State, n: Id)
    requires CanBroadcast(c, n) && NodeApplied(c.nodes[n])
    ensures var d := BroadcastStep(c, n); OneNode(c, d, n) && Mild(c.nodes[n], d.nodes[n])
  {
  }

  lemma BroadcastKept(c: State, n: Id)
    requires Inv(c) && CanBroadcast(c, n)
    ensures Inv(BroadcastStep(c, n))
  {
    Parts(c);
    Fits(c, n);
    ElectionKept.BroadcastKept(c, n);
    StorageKept.BroadcastKept(c, n);
    BroadcastMild(c, n);
    MildKept(c, BroadcastStep(c, n), n);
    Whole(BroadcastStep(c, n));
  }

  // ---- leading ---------------------------------------------------------------------------

  lemma InOfficeAcks(c: State, n: Id)
    requires n in c.nodes && c.nodes[n].meta.commitIndex <= |c.nodes[n].log| && Term(c, n) !in c.reigns
    ensures StorageKept.LedAcks(c, InOffice(c, n), n, NextEntry(c.nodes[n], NOOP_COMMAND))
    ensures CommitKept.CommitSame(c.nodes[n], InOffice(c, n).nodes[n])
  {
    LogKept.InOfficeLed(c, n);
  }

  lemma InOfficeCommits(c: State, n: Id)
    requires CommitInv(c) && AcksOk(c) && n in c.nodes && NodeApplied(c.nodes[n]) && Term(c, n) !in c.reigns
    ensures CommitInv(InOffice(c, n))
  {
    InOfficeAcks(c, n);
    CommitKept.LedKept(c, InOffice(c, n), n, NextEntry(c.nodes[n], NOOP_COMMAND));
  }

  lemma InOfficeKept(c: State, n: Id)
    requires Inv(c) && Elected(c, n)
    ensures Inv(InOffice(c, n))
  {
    Parts(c);
    Fits(c, n);
    ElectionKept.InOfficeKept(c, n);
    LogKept.InOfficeKept(c, n);
    StorageKept.InOfficeKept(c, n);
    InOfficeCommits(c, n);
    ProgressKept.InOfficeKept(c, n);
    Whole(InOffice(c, n));
  }

  lemma AppendedElections(c: State, n: Id, command: Command)
    requires ElectionInv(c) && Leads(c, n)
    ensures ElectionInv(Appended(c, n, command))
  {
    AppendedCalm(c, n, command);
    ElectionKept.CalmKept(c, Appended(c, n, command));
  }

  lemma AppendedCalm(c: State, n: Id, command: Command)
    requires Leads(c, n)
    ensures ElectionKept.Calm(c, Appended(c, n, command))
  {
  }

  lemma AppendedProgress(c: State, n: Id, command: Command)
    requires ProgressInv(c) && AcksOk(c) && ReignsOk(c) && Leads(c, n) && Term(c, n) in c.reigns
    ensures ProgressInv(Appended(c, n, command))
  {
    var d := Appended(c, n, command);
    AppendedAcks(c, n, command);
    assert ProgressKept.ProgressQuiet(c, d);
    ProgressKept.QuietKept(c, d);
  }

  lemma AppendedAcks(c: State, n: Id, command: Command)
    requires AcksOk(c) && ReignsOk(c) && Leads(c, n) && Term(c, n) in c.reigns
    ensures ProgressKept.AcksGrow(c, Appended(c, n, command))
  {
    forall t, v | (t, v) in c.acked ensures c.acked[(t, v)] <= Appended(c, n, command).acked[(t, v)] {
      assert AckOk(c, t, v, c.acked[(t, v)]);
    }
  }

  lemma AppendedCommits(c: State, n: Id, command: Command)
    requires CommitInv(c) && AcksOk(c) && ReignsOk(c) && Leads(c, n) && Term(c, n) in c.reigns
             && NodeApplied(c.nodes[n])
    ensures CommitInv(Appended(c, n, command))
  {
    LogKept.AppendedLed(c, n, command);
    CommitKept.LedKept(c, Appended(c, n, command), n, NextEntry(c.nodes[n], command));
  }

  lemma AppendedKept(c: State, n: Id, command: Command)
    requires Inv(c) && Leads(c, n)
    ensures Inv(Appended(c, n, command))
  {
    Parts(c);
    Fits(c, n);
    LogKept.OnlyLeader(c, n);
    AppendedElections(c, n, command);
    LogKept.AppendedKept(c, n, command);
    StorageKept.AppendedKept(c, n, command);
    AppendedCommits(c, n, command);
    AppendedProgress(c, n, command);
    Whole(Appended(c, n, command));
  }

  // ---- replication ---------------------------------------------------------------------------

  lemma SentCalm(c: State, n: Id, p: Id)
    requires Leads(c, n) && p in Peers(c, n)
    ensures ElectionKept.Calm(c, SendAppendStep(c, n, p)) && StorageKept.StorageQuiet(c, SendAppendStep(c, n, p))
  {
  }

  lemma SentLogs(c: State, n: Id, p: Id)
    requires Shape(c) && ReignsElected(c) && LogInv(c) && AllTracked(c) && Leads(c, n) && p in Peers(c, n)
    ensures LogInv(SendAppendStep(c, n, p))
  {
    assert PeerTracked(c, n, p);
    LogKept.SentKept(c, n, p);
  }

  lemma SentKept(c: State, n: Id, p: Id)
    requires Inv(c) && Leads(c, n) && p in Peers(c, n)
    ensures Inv(SendAppendStep(c, n, p))
  {
    Parts(c);
    SentCalm(c, n, p);
    ElectionKept.CalmKept(c, SendAppendStep(c, n, p));
    SentLogs(c, n, p);
    StorageKept.QuietKept(c, SendAppendStep(c, n, p));
    CommitKept.SentKept(c, n, p);
    ProgressKept.SentKept(c, n, p);
    Whole(SendAppendStep(c, n, p));
  }

  lemma AcceptedCalm(c: State, i: nat)
    requires MayAccept(c, i)
    ensures ElectionKept.Calm(c, Accepted(c, i))
  {
  }

  lemma AcceptedProgress(c: State, i: nat)
    requires MayAccept(c, i)
    ensures ProgressKept.ProgressQuiet(c, Accepted(c, i))
  {
  }

  lemma AcceptedKept(c: State, i: nat)
    requires Inv(c) && MayAccept(c, i)
    ensures Inv(Accepted(c, i))
  {
    Parts(c);
    var d := Accepted(c, i);
    AcceptedCalm(c, i);
    ElectionKept.CalmKept(c, d);
    LogKept.AcceptedKept(c, i);
    StorageKept.AcceptedKept(c, i);
    CommitKept.AcceptedKept(c, i);
    AcceptedProgress(c, i);
    ProgressKept.QuietKept(c, d);
    Whole(Accepted(c, i));
  }

  lemma MarkedAppendQuiet(c: State, i: nat, s: Status<AppendReply>)
    requires i < |c.appendRpcs| && forall n :: n in c.nodes ==> NodeApplied(c.nodes[n])
    ensures var d := MarkAppend(c, i, s);
            && ElectionKept.Calm(c, d) && LogKept.LogsQuiet(c, d) && StorageKept.StorageQuiet(c, d)
            && CommitKept.CommitQuiet(c, d)
  {
  }

  lemma MarkedAppendKept(c: State, i: nat, s: Status<AppendReply>)
    requires Inv(c) && i < |c.appendRpcs| && !c.appendRpcs[i].status.Taken?
    requires RepliesOk(c, c.appendRpcs[i].(status := s))
    requires ProgressKept.MismatchAbove(c, c.appendRpcs[i].(status := s))
    ensures Inv(MarkAppend(c, i, s))
  {
    Parts(c);
    var d := MarkAppend(c, i, s);
    MarkedAppendQuiet(c, i, s);
    ElectionKept.CalmKept(c, d);
    LogKept.QuietKept(c, d);
    StorageKept.QuietKept(c, d);
    CommitKept.QuietKept(c, d);
    ProgressKept.MarkedKept(c, i, s);
    Whole(MarkAppend(c, i, s));
  }

  lemma RecordedCalm(c: State, n: Id, m: Node)
    requires n in c.nodes && m.role == c.nodes[n].role && m.meta.currentTerm == c.nodes[n].meta.currentTerm
    requires m.meta.votedFor == c.nodes[n].meta.votedFor && m.votesReceived == c.nodes[n].votesReceived
    requires m.log == c.nodes[n].log
    ensures var d := PutNode(c, n, m);
            && ElectionKept.Calm(c, d) && OneNode(c, d, n) && SameVoting(c, d)
            && StorageKept.StillNode(c.nodes[n], d.nodes[n])
  {
  }

  lemma RecordedKept(c: State, n: Id, p: Id, m: Node)
    requires Inv(c) && n in c.nodes && ProgressKept.Idle(c, n, p)
    requires ProgressKept.RecordOf(c.nodes[n], m, p) && PeerTracked(PutNode(c, n, m), n, p)
    requires m.votesReceived == c.nodes[n].votesReceived && m.store == c.nodes[n].store
    ensures Inv(PutNode(c, n, m))
  {
    Parts(c);
    var d := PutNode(c, n, m);
    Fits(c, n);
    RecordedCalm(c, n, m);
    ElectionKept.CalmKept(c, d);
    OneNodeLogs(c, d, n);
    OneNodeStorage(c, d, n);
    OneNodeCommits(c, d, n);
    ProgressKept.RecordedKept(c, n, p, m);
    Whole(PutNode(c, n, m));
  }

  // ---- committing --------------------------------------------------------------------------------

  lemma CommittedToKept(c: State, n: Id, k: nat)
    requires Inv(c) && n in c.nodes && c.nodes[n].meta.commitIndex <= k
    requires CommittedPrefix(c, c.nodes[n].log, k, Term(c, n))
    ensures Inv(CommittedTo(c, n, k))
  {
    Parts(c);
    var d := CommittedTo(c, n, k);
    Fits(c, n);
    CommitKept.PrefixWithin(c, c.nodes[n].log, k, Term(c, n));
    CommitKept.CommitToApplies(c.nodes[n], k);
    RecordedCalm(c, n, d.nodes[n]);
    ElectionKept.CalmKept(c, d);
    OneNodeLogs(c, d, n);
    OneNodeStorage(c, d, n);
    OneNodeProgress(c, d, n);
    CommitKept.CommittedToKept(c, n, k);
    Whole(CommittedTo(c, n, k));
  }
}
