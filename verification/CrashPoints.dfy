// A crash may fall between any two durable writes of a handler. The servers'
// methods are proved to write exactly the states RaftNode lists (module
// RaftServer); here, coming up from any of them is an event of the cluster.
module CrashPoints {
  import opened RaftTypes
  import opened RaftNode
  import opened Cluster
  import opened Codec
  import opened LogFile
  import S = RaftServer
  import Storage
  import CommitKept

  /** A process that finds on its disk what the write that reached m left comes up as the cluster says. */
  lemma ComesUp(m: Node)
    requires AllSized(m.log)
    ensures S.Recovering(S.Printed(m)) == Restart(m)
  {
    LogRoundTrip(m.log);
  }

  /** Coming up from m is the outcome of a crash event, or of handler h followed by a crash. */
  ghost predicate Covered(c: State, h: Event, n: Id, m: Node)
    requires Enabled(c, h)
  {
    || CrashAfter(c, h, n, m)
    || exists e :: IsCrash(e) && Enabled(c, e) && ComesBackAs(c, Next(c, e), n, m)
  }

  /** Server n comes back from m; no other server is touched. */
  ghost predicate ComesBackAs(c: State, d: State, n: Id, m: Node) {
    d.nodes == c.nodes[n := Restart(m)]
  }

  ghost predicate CrashAfter(c: State, h: Event, n: Id, m: Node)
    requires Enabled(c, h)
  {
    var d := Next(c, h);
    n in d.nodes && ComesBackAs(c, Reboot(d, n), n, m)
  }

  lemma CoveredBy(c: State, h: Event, n: Id, m: Node, e: Event)
    requires Enabled(c, h) && IsCrash(e) && Enabled(c, e) && ComesBackAs(c, Next(c, e), n, m)
    ensures Covered(c, h, n, m)
  {
  }

  lemma PutTwice(nodes: map<Id, Node>, n: Id, a: Node, b: Node)
    ensures nodes[n := a][n := b] == nodes[n := b]
  {
  }

  // ---- handler by handler ------------------------------------------------------------------

  lemma CommitComesLast(n: Node, peers: seq<Id>)
    ensures AdvanceWrites(n, peers) == [] || AdvanceWrites(n, peers) == [AdvanceCommit(n, peers)]
  {
  }

  lemma CandidacyCovered(c: State, n: Id)
    requires CanTimeout(c, n)
    ensures Covered(c, TimesOut(n), n, StartElection(c.nodes[n], n))
  {
    CandidacyComesBack(c, n);
    CoveredBy(c, TimesOut(n), n, StartElection(c.nodes[n], n), CrashesInTimeout(n, false));
  }

  lemma SoloOfficeCovered(c: State, n: Id)
    requires CanTimeout(c, n) && Quorum(c) <= 1
    ensures Covered(c, TimesOut(n), n, TakeOffice(StartElection(c.nodes[n], n), n, Peers(c, n)))
  {
    CoveredBy(c, TimesOut(n), n, TakeOffice(StartElection(c.nodes[n], n), n, Peers(c, n)), CrashesInTimeout(n, true));
  }

  lemma TimeoutEnds(c: State, n: Id)
    requires CanTimeout(c, n)
    ensures CrashAfter(c, TimesOut(n), n, OnTimeout(c.nodes[n], n, Peers(c, n)))
  {
    var m := OnTimeout(c.nodes[n], n, Peers(c, n));
    TimeoutNodes(c, n);
    PutTwice(c.nodes, n, m, Restart(m));
  }

  lemma TimeoutNodes(c: State, n: Id)
    requires CanTimeout(c, n)
    ensures TimeoutStep(c, n).nodes == c.nodes[n := OnTimeout(c.nodes[n], n, Peers(c, n))]
  {
    var m := OnTimeout(c.nodes[n], n, Peers(c, n));
    var d := RecordVote(PutNode(c, n, m), m.meta.currentTerm, n, n, c.nodes[n].log);
    assert d.nodes == c.nodes[n := m];
    assert TimeoutStep(c, n) == if m.role == Leader then EnterReign(d, n, {n})
                                else d.(broadcasting := c.broadcasting + {n});
  }

  lemma TimeoutCovered(c: State, n: Id, m: Node)
    requires Shape(c) && CanTimeout(c, n) && m in TimeoutWrites(c.nodes[n], n, Peers(c, n))
    ensures Covered(c, TimesOut(n), n, m)
  {
    CommitKept.PeersCount(c, n);
    TimeoutWritten(c.nodes[n], n, Peers(c, n), m);
    if m == StartElection(c.nodes[n], n) { CandidacyCovered(c, n); }
    else if m == OnTimeout(c.nodes[n], n, Peers(c, n)) { TimeoutEnds(c, n); }
    else { SoloOfficeCovered(c, n); }
  }

  lemma TimeoutWritten(n: Node, self: Id, peers: seq<Id>, m: Node)
    requires m in TimeoutWrites(n, self, peers)
    ensures || m == StartElection(n, self) || m == OnTimeout(n, self, peers)
            || (Majority(|peers| + 1) <= 1 && m == TakeOffice(StartElection(n, self), self, peers))
  {
    CommitComesLast(TakeOffice(StartElection(n, self), self, peers), peers);
  }

  lemma VoteWritten(n: Node, args: VoteArgs, m: Node)
    requires m in VoteWrites(n, args)
    ensures args.term >= n.meta.currentTerm
    ensures m == Adopt(n, args.term) || (Grants(Adopt(n, args.term), args) && m == CastVote(Adopt(n, args.term), args))
  {
  }

  lemma CastCovered(c: State, i: nat)
    requires CanCrashInVote(c, i, true)
    ensures var r := c.voteRpcs[i];
            Covered(c, DeliversVote(i), r.dst, CastVote(Adopt(c.nodes[r.dst], r.args.term), r.args))
  {
    var r := c.voteRpcs[i];
    var m := CastVote(Adopt(c.nodes[r.dst], r.args.term), r.args);
    PutTwice(c.nodes, r.dst, m, Restart(m));
    CoveredBy(c, DeliversVote(i), r.dst, m, CrashesInVote(i, true));
  }

  lemma AdoptedCovered(c: State, i: nat)
    requires CanCrashInVote(c, i, false)
    ensures var r := c.voteRpcs[i]; Covered(c, DeliversVote(i), r.dst, Adopt(c.nodes[r.dst], r.args.term))
  {
    var r := c.voteRpcs[i];
    var m := Adopt(c.nodes[r.dst], r.args.term);
    PutTwice(c.nodes, r.dst, m, Restart(m));
    CoveredBy(c, DeliversVote(i), r.dst, m, CrashesInVote(i, false));
  }

  lemma VoteCovered(c: State, i: nat, m: Node)
    requires ToDeliverVote(c, i) && m in VoteWrites(c.nodes[c.voteRpcs[i].dst], c.voteRpcs[i].args)
    ensures Covered(c, DeliversVote(i), c.voteRpcs[i].dst, m)
  {
    var r := c.voteRpcs[i];
    VoteWritten(c.nodes[r.dst], r.args, m);
    if m == Adopt(c.nodes[r.dst], r.args.term) { AdoptedCovered(c, i); } else { CastCovered(c, i); }
  }

  lemma OfficeCovered(c: State, i: nat)
    requires ToCollectVote(c, i) && WinsWith(c, i)
    ensures var r := c.voteRpcs[i];
            Covered(c, CollectsVote(i), r.src, TakeOffice(CountVote(c.nodes[r.src]), r.src, Peers(c, r.src)))
  {
    var r := c.voteRpcs[i];
    CoveredBy(c, CollectsVote(i), r.src, TakeOffice(CountVote(c.nodes[r.src]), r.src, Peers(c, r.src)),
        CrashesInCollectVote(i));
  }

  lemma VoteReplyEnds(c: State, i: nat)
    requires ToCollectVote(c, i)
    ensures var r := c.voteRpcs[i];
            CrashAfter(c, CollectsVote(i), r.src,
                       OnVoteReply(c.nodes[r.src], r.src, Peers(c, r.src), r.args.term, r.status.reply))
  {
    var r := c.voteRpcs[i];
    var m := OnVoteReply(c.nodes[r.src], r.src, Peers(c, r.src), r.args.term, r.status.reply);
    PutTwice(c.nodes, r.src, m, Restart(m));
  }

  lemma VoteReplyWritten(n: Node, self: Id, peers: seq<Id>, electionTerm: nat, reply: VoteReply, m: Node)
    requires m in VoteReplyWrites(n, self, peers, electionTerm, reply)
    ensures || m == OnVoteReply(n, self, peers, electionTerm, reply)
            || (CountsVote(n, electionTerm, reply) && n.votesReceived + 1 >= Majority(|peers| + 1)
                && m == TakeOffice(CountVote(n), self, peers))
  {
    CommitComesLast(TakeOffice(CountVote(n), self, peers), peers);
  }

  lemma VoteReplyCovered(c: State, i: nat, m: Node)
    requires ToCollectVote(c, i)
    requires var r := c.voteRpcs[i];
             m in VoteReplyWrites(c.nodes[r.src], r.src, Peers(c, r.src), r.args.term, r.status.reply)
    ensures Covered(c, CollectsVote(i), c.voteRpcs[i].src, m)
  {
    var r := c.voteRpcs[i];
    VoteReplyEnds(c, i);
    VoteReplyWritten(c.nodes[r.src], r.src, Peers(c, r.src), r.args.term, r.status.reply, m);
    if WinsWith(c, i) { OfficeCovered(c, i); }
  }

  lemma StoredCovered(c: State, i: nat)
    requires CanCrashInAppend(c, i, 1)
    ensures var r := c.appendRpcs[i];
            Covered(c, DeliversAppend(i), r.dst, StoreEntries(Recognize(c.nodes[r.dst], r.args), r.args))
  {
    var r := c.appendRpcs[i];
    var m := StoreEntries(Recognize(c.nodes[r.dst], r.args), r.args);
    PutTwice(c.nodes, r.dst, m, Restart(m));
    CoveredBy(c, DeliversAppend(i), r.dst, m, CrashesInAppend(i, 1));
  }

  lemma FollowedCovered(c: State, i: nat)
    requires CanCrashInAppend(c, i, 2)
    ensures var r := c.appendRpcs[i];
            Covered(c, DeliversAppend(i), r.dst,
                    CommitFrom(StoreEntries(Recognize(c.nodes[r.dst], r.args), r.args), r.args))
  {
    var r := c.appendRpcs[i];
    var m := CommitFrom(StoreEntries(Recognize(c.nodes[r.dst], r.args), r.args), r.args);
    PutTwice(c.nodes, r.dst, m, Restart(m));
    CoveredBy(c, DeliversAppend(i), r.dst, m, CrashesInAppend(i, 2));
  }

  lemma RecognizedCovered(c: State, i: nat)
    requires ToDeliverAppend(c, i) && c.appendRpcs[i].args.term >= c.nodes[c.appendRpcs[i].dst].meta.currentTerm
    ensures var r := c.appendRpcs[i]; Covered(c, DeliversAppend(i), r.dst, Recognize(c.nodes[r.dst], r.args))
  {
    var r := c.appendRpcs[i];
    CoveredBy(c, DeliversAppend(i), r.dst, Recognize(c.nodes[r.dst], r.args), CrashesInAppend(i, 0));
  }

  lemma AppendCovered(c: State, i: nat, m: Node)
    requires ToDeliverAppend(c, i) && m in AppendWrites(c.nodes[c.appendRpcs[i].dst], c.appendRpcs[i].args)
    ensures Covered(c, DeliversAppend(i), c.appendRpcs[i].dst, m)
  {
    var r := c.appendRpcs[i];
    RecognizedCovered(c, i);
    if PrevMatches(c.nodes[r.dst].log, r.args) {
      StoredCovered(c, i);
      FollowedCovered(c, i);
    }
  }

  lemma AppendReplyWritten(n: Node, peers: seq<Id>, peer: Id, args: AppendArgs, reply: AppendReply, m: Node)
    requires m in AppendReplyWrites(n, peers, peer, args, reply)
    ensures m == OnAppendReply(n, peers, peer, args, reply)
  {
    CommitComesLast(Progress(n, peer, args.prevLogIndex + |args.entries|), peers);
  }

  lemma AppendReplyCovered(c: State, i: nat, m: Node)
    requires ToCollectAppend(c, i)
    requires var r := c.appendRpcs[i];
             m in AppendReplyWrites(c.nodes[r.src], Peers(c, r.src), r.dst, r.args, r.status.reply)
    ensures Covered(c, CollectsAppend(i), c.appendRpcs[i].src, m)
  {
    var r := c.appendRpcs[i];
    AppendReplyWritten(c.nodes[r.src], Peers(c, r.src), r.dst, r.args, r.status.reply, m);
    PutTwice(c.nodes, r.src, m, Restart(m));
    assert CrashAfter(c, CollectsAppend(i), r.src, m);
  }

  lemma ProposeCovered(c: State, n: Id, command: Command, m: Node)
    requires Leads(c, n) && m in ProposeWrites(c.nodes[n], Peers(c, n), command)
    ensures Covered(c, Proposes(n, command), n, m)
  {
    CommitComesLast(Append(c.nodes[n], command), Peers(c, n));
    AppendedCovered(c, n, command);
    ProposeEnds(c, n, command);
  }

  lemma AppendedCovered(c: State, n: Id, command: Command)
    requires Leads(c, n)
    ensures Covered(c, Proposes(n, command), n, Append(c.nodes[n], command))
  {
    CoveredBy(c, Proposes(n, command), n, Append(c.nodes[n], command), CrashesInPropose(n, command));
  }

  lemma ProposeEnds(c: State, n: Id, command: Command)
    requires Leads(c, n)
    ensures CrashAfter(c, Proposes(n, command), n, Propose(c.nodes[n], Peers(c, n), command))
  {
  }

  // ---- torn appends --------------------------------------------------------------------------

  /** What an append of e to m's file leaves if only its first k bytes get there. */
  ghost function Torn(m: Node, e: Entry, k: nat): Storage.Durable
    requires k <= |EntryBytes(e)|
  {
    Storage.Durable(m.meta, LogBytes(m.log) + EntryBytes(e)[..k])
  }

  /** Coming up from it is the outcome of a crash event. */
  ghost predicate TornCovered(c: State, n: Id, m: Node, e: Entry, k: nat)
    requires k <= |EntryBytes(e)|
  {
    exists x :: IsCrash(x) && Enabled(c, x) && Next(c, x).nodes == c.nodes[n := S.Recovering(Torn(m, e, k))]
  }

  /** The process comes up as if the append had not begun. */
  lemma TornComesUp(m: Node, e: Entry, k: nat)
    requires AllSized(m.log) && Sized(e) && k < |EntryBytes(e)|
    ensures S.Recovering(Torn(m, e, k)) == Restart(m)
  {
    TornAppend(m.log, e, k);
  }

  lemma TornBy(c: State, n: Id, m: Node, e: Entry, k: nat, x: Event)
    requires AllSized(m.log) && Sized(e) && k < |EntryBytes(e)|
    requires IsCrash(x) && Enabled(c, x) && ComesBackAs(c, Next(c, x), n, m)
    ensures TornCovered(c, n, m, e, k)
  {
    TornComesUp(m, e, k);
  }

  /** A client append. */
  lemma ProposeTornCovered(c: State, n: Id, command: Command, k: nat)
    requires Leads(c, n) && AllSized(c.nodes[n].log)
    requires var e := NextEntry(c.nodes[n], command); Sized(e) && k < |EntryBytes(e)|
    ensures TornCovered(c, n, c.nodes[n], NextEntry(c.nodes[n], command), k)
  {
    TornBy(c, n, c.nodes[n], NextEntry(c.nodes[n], command), k, Crashes(n));
  }

  lemma OpeningEntry(m: Node, self: Id, peers: seq<Id>)
    ensures TakeOffice(m, self, peers).log == m.log + [NextEntry(m, NOOP_COMMAND)]
  {
  }

  /** Counted votes do not survive a crash. */
  lemma CountForgotten(c: State, n: Id)
    requires n in c.nodes
    ensures ComesBackAs(c, Next(c, Crashes(n)), n, CountVote(c.nodes[n]))
  {
    assert Restart(CountVote(c.nodes[n])) == Restart(c.nodes[n]);
  }

  lemma CandidacyComesBack(c: State, n: Id)
    requires CanTimeout(c, n)
    ensures ComesBackAs(c, Next(c, CrashesInTimeout(n, false)), n, StartElection(c.nodes[n], n))
  {
  }

  /** The entry that opens a term won by votes. */
  lemma OfficeTornCovered(c: State, i: nat, k: nat)
    requires ToCollectVote(c, i) && WinsWith(c, i) && AllSized(c.nodes[c.voteRpcs[i].src].log)
    requires var e := NextEntry(CountVote(c.nodes[c.voteRpcs[i].src]), NOOP_COMMAND);
             Sized(e) && k < |EntryBytes(e)|
    ensures var n := c.voteRpcs[i].src; var m := CountVote(c.nodes[n]); var e := NextEntry(m, NOOP_COMMAND);
            TakeOffice(m, n, Peers(c, n)).log == m.log + [e] && TornCovered(c, n, m, e, k)
  {
    var n := c.voteRpcs[i].src;
    OpeningEntry(CountVote(c.nodes[n]), n, Peers(c, n));
    CountForgotten(c, n);
    TornBy(c, n, CountVote(c.nodes[n]), NextEntry(CountVote(c.nodes[n]), NOOP_COMMAND), k, Crashes(n));
  }

  /** The entry that opens a term won without peers: the candidacy is durable by then. */
  lemma SoloOfficeTornCovered(c: State, n: Id, k: nat)
    requires CanTimeout(c, n) && Quorum(c) <= 1 && AllSized(c.nodes[n].log)
    requires var e := NextEntry(StartElection(c.nodes[n], n), NOOP_COMMAND); Sized(e) && k < |EntryBytes(e)|
    ensures var m := StartElection(c.nodes[n], n); var e := NextEntry(m, NOOP_COMMAND);
            TakeOffice(m, n, Peers(c, n)).log == m.log + [e] && TornCovered(c, n, m, e, k)
  {
    var m := StartElection(c.nodes[n], n);
    OpeningEntry(m, n, Peers(c, n));
    CandidacyComesBack(c, n);
    TornBy(c, n, m, NextEntry(m, NOOP_COMMAND), k, CrashesInTimeout(n, false));
  }
}
