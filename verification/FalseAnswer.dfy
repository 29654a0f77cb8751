// A success answer can be false: three servers, no crash, no lost message. The
// waiting thread of server 1 sleeps while the server loses its term and a
// conflicting entry overwrites the client's, and wakes when the server leads again.
module FalseAnswer {
  import opened RaftTypes
  import opened RaftNode
  import opened Cluster
  import opened Clients
  import opened Commands
  import opened CalmRuns

  // ---- the run -------------------------------------------------------------------------------

  const X: Bytes := [120]
  const Y: Bytes := [121]
  const LOST := Entry(1, 2, PutCommand(X, X))
  const KEPT := Entry(2, 2, PutCommand(Y, Y))
  const OPENING3 := Entry(3, 3, NOOP_COMMAND)

  ghost predicate AfterLost(c: State) {
    && Three(c) && Is(c.nodes[1], Leader, 1, [OPENING1, LOST]) && c.nodes[1].meta.commitIndex == 0
    && Is(c.nodes[2], Follower, 1, []) && Is(c.nodes[3], Follower, 0, []) && c.nodes[3].meta.commitIndex == 0
  }

  /** ... and appends the client's entry, which reaches nobody. */
  lemma ProposesLost(run: seq<State>) returns (longer: seq<State>)
    requires IsCalmRun(run) && Three(Last(run))
    requires var c := Last(run);
            && FreshLeader(c.nodes[1], 1, [OPENING1], 2, PEERS[1])
            && Is(c.nodes[2], Follower, 1, []) && Is(c.nodes[3], Follower, 0, []) && c.nodes[3].meta.commitIndex == 0
    ensures IsCalmRun(longer) && |longer| == |run| + 1 && run <= longer && ProposedAt(longer, |run| - 1, 1, LOST)
    ensures AfterLost(Last(longer))
  {
    longer := Proposing(run, 1, LOST.command);
    assert longer[|run| - 1] == Last(run);
  }

  ghost predicate AfterKept(c: State, next: nat) {
    && Three(c) && c.nodes[1].role != Candidate && c.nodes[1].meta.currentTerm <= 2
       && c.nodes[1].log == [OPENING1, LOST]
    && c.nodes[1].meta.commitIndex == 0
    && Is(c.nodes[2], Follower, 2, [])
    && Is(c.nodes[3], Leader, 2, [OPENING2, KEPT]) && c.nodes[3].meta.commitIndex == 0
       && At(c.nodes[3].nextIndex, 1) == next
  }

  lemma ProposesKept(run: seq<State>) returns (longer: seq<State>)
    requires IsCalmRun(run) && Three(Last(run))
    requires var c := Last(run);
            && Is(c.nodes[1], Leader, 1, [OPENING1, LOST]) && c.nodes[1].meta.commitIndex == 0
            && Is(c.nodes[2], Follower, 2, [])
            && FreshLeader(c.nodes[3], 2, [OPENING2], 2, PEERS[3])
    ensures IsCalmRun(longer) && run <= longer && AfterKept(Last(longer), 2)
  {
    longer := Proposing(run, 3, KEPT.command);
  }

  /** Its first AppendEntries to server 1 fails at the mismatch and backs up. */
  lemma BacksUp(run: seq<State>) returns (longer: seq<State>)
    requires IsCalmRun(run) && AfterKept(Last(run), 2)
    ensures IsCalmRun(longer) && run <= longer && AfterKept(Last(longer), 1)
  {
    longer := Exchange(run, 3, 1);
  }

  ghost predicate AfterOverwrite(c: State) {
    && Three(c) && Is(c.nodes[1], Follower, 2, [OPENING2, KEPT]) && c.nodes[1].meta.commitIndex == 0
    && Is(c.nodes[2], Follower, 2, []) && c.nodes[3].log == [OPENING2, KEPT] && c.nodes[3].meta.currentTerm == 2
  }

  lemma Overwrites(run: seq<State>) returns (longer: seq<State>)
    requires IsCalmRun(run) && AfterKept(Last(run), 1)
    ensures IsCalmRun(longer) && run <= longer && AfterOverwrite(Last(longer))
  {
    var n := Last(run).nodes[3];
    WholeLogStored(n, 3, PEERS[3], 1, Last(run).nodes[1]);
    AdvanceKeepsLog(Progress(n, 1, 2), PEERS[3]);
    longer := Exchange(run, 3, 1);
  }

  ghost predicate Regained(c: State, next: nat) {
    && Three(c) && Is(c.nodes[1], Leader, 3, [OPENING2, KEPT, OPENING3]) && c.nodes[1].meta.commitIndex == 0
    && At(c.nodes[1].nextIndex, 3) == next && At(c.nodes[1].matchIndex, 3) == 0
    && c.nodes[2].log == [] && c.nodes[3].log == [OPENING2, KEPT] && c.nodes[3].meta.currentTerm <= 3
  }

  /** Server 1 leads again, in term 3. */
  lemma ThirdElection(run: seq<State>) returns (longer: seq<State>)
    requires IsCalmRun(run) && AfterOverwrite(Last(run))
    ensures IsCalmRun(longer) && run <= longer && Regained(Last(longer), 4)
  {
    longer := Election(run, 1, 0, 2);
  }

  lemma BacksUpAgain(run: seq<State>) returns (longer: seq<State>)
    requires IsCalmRun(run) && Regained(Last(run), 4)
    ensures IsCalmRun(longer) && run <= longer && Regained(Last(longer), 3)
  {
    longer := Exchange(run, 1, 3);
  }

  lemma LastExchange(n: Node, p: Node)
    requires Is(n, Leader, 3, [OPENING2, KEPT, OPENING3]) && n.meta.commitIndex == 0
    requires At(n.nextIndex, 3) == 3 && At(n.matchIndex, 3) == 0 && p.log == [OPENING2, KEPT] && p.meta.currentTerm <= 3
    ensures var args := BuildAppend(n, 1, 3); var (m, reply) := HandleAppendEntries(p, args);
            && m.log == n.log && OnAppendReply(n, PEERS[1], 3, args, reply) == AdvanceCommit(Progress(n, 3, 3), [2, 3])
  {
  }

  /** ... and commits all of its log. */
  lemma Commits(run: seq<State>) returns (longer: seq<State>)
    requires IsCalmRun(run) && Regained(Last(run), 3)
    ensures IsCalmRun(longer) && run <= longer && Three(Last(longer))
    ensures var c := Last(longer);
            && c.nodes[1].role == Leader && c.nodes[1].meta.commitIndex == 3
               && c.nodes[1].log == [OPENING2, KEPT, OPENING3]
            && c.nodes[2].log == [] && c.nodes[3].log == [OPENING2, KEPT, OPENING3]
  {
    LastExchange(Last(run).nodes[1], Last(run).nodes[3]);
    CommitsWithOne(Progress(Last(run).nodes[1], 3, 3), [2, 3], 3);
    longer := Exchange(run, 1, 3);
  }

  lemma Loses(run: seq<State>) returns (longer: seq<State>)
    requires IsCalmRun(run) && AfterLost(Last(run))
    ensures IsCalmRun(longer) && run <= longer && AfterOverwrite(Last(longer))
  {
    longer := SecondElection(run);
    longer := ProposesKept(longer);
    longer := BacksUp(longer);
    longer := Overwrites(longer);
  }

  ghost predicate Misled(c: State) {
    && c.nodes.Keys == MEMBERS && Acknowledges(c.nodes[1], LOST.index)
    && forall m :: m in c.nodes ==> !Holds(c.nodes[m].log, LOST)
  }

  lemma Regains(run: seq<State>) returns (longer: seq<State>)
    requires IsCalmRun(run) && AfterOverwrite(Last(run))
    ensures IsCalmRun(longer) && run <= longer && Misled(Last(longer))
  {
    longer := ThirdElection(run);
    longer := BacksUpAgain(longer);
    longer := Commits(longer);
  }

  lemma Started() returns (run: seq<State>, k: nat)
    ensures IsCalmRun(run) && ProposedAt(run, k, 1, LOST) && AfterLost(Last(run))
  {
    run := FirstElection();
    k := |run| - 1;
    run := ProposesLost(run);
  }

  lemma Story() returns (run: seq<State>, k: nat)
    ensures IsCalmRun(run) && ProposedAt(run, k, 1, LOST) && Misled(Last(run))
  {
    run, k := Started();
    var overwritten := Loses(run);
    var regained := Regains(overwritten);
    StillProposed(run, regained, k, 1, LOST);
    run := regained;
  }

  /** At moment j the client whose entry e went into server n's log in step k is told e is committed, but no server
      has e. */
  ghost predicate FalseSuccess(run: seq<State>, k: nat, j: nat, n: Id, e: Entry) {
    && ProposedAt(run, k, n, e) && k < j && AnsweredAt(run, j, n, e, false, [])
    && Conclude(run[j].nodes[n], true, e, false, []) == Done(e.index, e.term)
    && forall m :: m in run[j].nodes ==> !Holds(run[j].nodes[m].log, e)
  }

  /** The entry is there right after it is proposed, so the end of the story comes later. */
  lemma Ending(run: seq<State>, k: nat)
    requires IsCalmRun(run) && ProposedAt(run, k, 1, LOST) && Misled(Last(run))
    ensures FalseSuccess(run, k, |run| - 1, 1, LOST)
  {
    CalmIsRun(run);
    ProposedFacts(run, k, 1, LOST);
  }

  /** It happens without any crash, and with every message it takes delivered. */
  lemma SuccessCanBeFalse()
    ensures exists run, k, j, n, e :: IsCalmRun(run) && FalseSuccess(run, k, j, n, e)
  {
    var run, k := Story();
    Ending(run, k);
  }
}
