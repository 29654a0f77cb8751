// A GET can miss an acknowledged write: three servers, no crash. The waiting
// thread of server 1 sleeps while its server, which has heard of nothing, loses
// its term, has the GET's marker overwritten, and wakes when the server leads
// again, before that leader has committed anything.
module StaleRead {
  import opened RaftTypes
  import opened RaftNode
  import opened Cluster
  import opened Clients
  import opened Commands
  import opened CalmRuns
  import Safety

  const KEY: Bytes := [107]
  const X: Bytes := [120]
  const Y: Bytes := [121]
  const OLD := Entry(2, 2, PutCommand(KEY, X))
  const WRITE := Entry(2, 3, PutCommand(KEY, Y))
  const MARKER := Entry(1, 2, GetCommand())
  const OPENING3 := Entry(3, 4, NOOP_COMMAND)
  const OPENING4 := Entry(4, 5, NOOP_COMMAND)
  const WRITTEN := [OPENING2, OLD, WRITE]

  ghost predicate IsAt(n: Node, role: Role, term: nat, log: seq<Entry>, commit: nat) {
    Is(n, role, term, log) && n.meta.commitIndex == commit
  }

  // ---- server 3 leads term 2 and commits two writes ------------------------------------------

  /** Server 1 still leads term 1; server 3 knows its peer 2 up to matched. */
  ghost predicate Writing(c: State, log3: seq<Entry>, commit3: nat, log2: seq<Entry>, commit2: nat, matched: nat,
                          next: nat)
  {
    && Three(c) && FreshLeader(c.nodes[1], 1, [OPENING1], 2, PEERS[1])
    && IsAt(c.nodes[2], Follower, 2, log2, commit2) && IsAt(c.nodes[3], Leader, 2, log3, commit3)
    && At(c.nodes[3].matchIndex, 2) == matched && At(c.nodes[3].nextIndex, 2) == next
    && At(c.nodes[3].matchIndex, 1) == 0
  }

  lemma Begins() returns (run: seq<State>)
    ensures IsCalmRun(run) && Writing(Last(run), [OPENING2, OLD], 0, [], 0, 0, 2)
  {
    run := FirstElection();
    run := SecondElection(run);
    run := Proposing(run, 3, OLD.command);
  }

  lemma BacksUp(run: seq<State>) returns (longer: seq<State>)
    requires IsCalmRun(run) && Writing(Last(run), [OPENING2, OLD], 0, [], 0, 0, 2)
    ensures IsCalmRun(longer) && run <= longer && Writing(Last(longer), [OPENING2, OLD], 0, [], 0, 0, 1)
  {
    longer := Exchange(run, 3, 2);
  }

  lemma OldCommitted(n: Node, p: Node)
    requires IsAt(n, Leader, 2, [OPENING2, OLD], 0) && At(n.nextIndex, 2) == 1 && At(n.matchIndex, 2) == 0
    requires IsAt(p, Follower, 2, [], 0)
    ensures var args := BuildAppend(n, 3, 2); var (m, reply) := HandleAppendEntries(p, args);
            var l := OnAppendReply(n, PEERS[3], 2, args, reply);
            && IsAt(m, Follower, 2, [OPENING2, OLD], 0) && IsAt(l, Leader, 2, [OPENING2, OLD], 2)
            && At(l.matchIndex, 2) == 2 && At(l.nextIndex, 2) == 3 && At(l.matchIndex, 1) == At(n.matchIndex, 1)
  {
    WholeLogStored(n, 3, PEERS[3], 2, p);
    OldCounted(n);
  }

  lemma OldCounted(n: Node)
    requires IsAt(n, Leader, 2, [OPENING2, OLD], 0) && At(n.matchIndex, 2) == 0
    ensures var l := AdvanceCommit(Progress(n, 2, 2), PEERS[3]);
            && IsAt(l, Leader, 2, [OPENING2, OLD], 2)
            && At(l.matchIndex, 2) == 2 && At(l.nextIndex, 2) == 3 && At(l.matchIndex, 1) == At(n.matchIndex, 1)
  {
    CommitsWithOne(Progress(n, 2, 2), PEERS[3], 2);
  }

  lemma CommitsOld(run: seq<State>) returns (longer: seq<State>)
    requires IsCalmRun(run) && Writing(Last(run), [OPENING2, OLD], 0, [], 0, 0, 1)
    ensures IsCalmRun(longer) && run <= longer
    ensures Writing(Last(longer), [OPENING2, OLD], 2, [OPENING2, OLD], 0, 2, 3)
  {
    OldCommitted(Last(run).nodes[3], Last(run).nodes[2]);
    longer := Exchange(run, 3, 2);
  }

  lemma ProposesWrite(run: seq<State>) returns (longer: seq<State>)
    requires IsCalmRun(run) && Writing(Last(run), [OPENING2, OLD], 2, [OPENING2, OLD], 0, 2, 3)
    ensures IsCalmRun(longer) && run <= longer && Writing(Last(longer), WRITTEN, 2, [OPENING2, OLD], 0, 2, 3)
  {
    longer := Proposing(run, 3, WRITE.command);
  }

  lemma CommitsWrite(run: seq<State>) returns (longer: seq<State>)
    requires IsCalmRun(run) && Writing(Last(run), WRITTEN, 2, [OPENING2, OLD], 0, 2, 3)
    ensures IsCalmRun(longer) && run <= longer && Writing(Last(longer), WRITTEN, 3, WRITTEN, 2, 3, 4)
  {
    CommitsWithOne(Progress(Last(run).nodes[3], 2, 3), PEERS[3], 2);
    longer := Exchange(run, 3, 2);
  }

  /** The write is committed and its client told so. */
  lemma WriteAcknowledged() returns (run: seq<State>, j: nat)
    ensures IsCalmRun(run) && Writing(Last(run), WRITTEN, 3, WRITTEN, 2, 3, 4) && j == |run| - 1
    ensures CommittedAt(run, j, 3, WRITE) && AnsweredAt(run, j, 3, WRITE, false, [])
  {
    run := Begins();
    run := BacksUp(run);
    run := CommitsOld(run);
    run := ProposesWrite(run);
    run := CommitsWrite(run);
    j := |run| - 1;
  }

  // ---- server 1 still takes a read, and is overwritten ---------------------------------------

  /** Server 2 leads term 3, without having heard that the write is committed, and probes server 1. */
  ghost predicate Probing(c: State, next: nat) {
    && Three(c) && IsAt(c.nodes[1], Follower, 3, [OPENING1, MARKER], 0)
    && IsAt(c.nodes[2], Leader, 3, WRITTEN + [OPENING3], 2) && At(c.nodes[2].nextIndex, 1) == next
    && c.nodes[3].log == WRITTEN && c.nodes[3].meta.currentTerm == 2
  }

  /** Server 1 has appended the marker and still leads term 1. */
  ghost predicate ReadTaken(c: State) {
    && Three(c) && IsAt(c.nodes[1], Leader, 1, [OPENING1, MARKER], 0) && IsAt(c.nodes[2], Follower, 2, WRITTEN, 2)
    && c.nodes[3].log == WRITTEN && c.nodes[3].meta.currentTerm == 2
  }

  lemma TakesRead(run: seq<State>) returns (longer: seq<State>)
    requires IsCalmRun(run) && Writing(Last(run), WRITTEN, 3, WRITTEN, 2, 3, 4)
    ensures IsCalmRun(longer) && |longer| == |run| + 1 && run <= longer && ProposedAt(longer, |run| - 1, 1, MARKER)
    ensures ReadTaken(Last(longer))
  {
    longer := Proposing(run, 1, MARKER.command);
    assert longer[|run| - 1] == Last(run);
  }

  lemma LosesOffice(run: seq<State>) returns (longer: seq<State>)
    requires IsCalmRun(run) && ReadTaken(Last(run))
    ensures IsCalmRun(longer) && run <= longer && Probing(Last(longer), 5)
  {
    longer := Election(run, 2, 0, 1);
  }

  lemma {:induction false} ProbesDown(run: seq<State>, next: nat) returns (longer: seq<State>)
    requires IsCalmRun(run) && 1 <= next <= 5 && Probing(Last(run), next)
    ensures IsCalmRun(longer) && run <= longer && Probing(Last(longer), 1)
    decreases next
  {
    longer := run;
    if next > 1 {
      longer := ProbeFails(run, next);
      longer := ProbesDown(longer, next - 1);
    }
  }

  lemma ProbeRejected(n: Node, p: Node, next: nat)
    requires IsAt(n, Leader, 3, WRITTEN + [OPENING3], 2) && At(n.nextIndex, 1) == next && 1 < next <= 5
    requires IsAt(p, Follower, 3, [OPENING1, MARKER], 0)
    ensures var args := BuildAppend(n, 2, 1); var (m, reply) := HandleAppendEntries(p, args);
            && IsAt(m, Follower, 3, p.log, 0)
            && OnAppendReply(n, PEERS[2], 1, args, reply) == n.(nextIndex := n.nextIndex[1 := next - 1])
  {
  }

  lemma ProbeFails(run: seq<State>, next: nat) returns (longer: seq<State>)
    requires IsCalmRun(run) && 1 < next <= 5 && Probing(Last(run), next)
    ensures IsCalmRun(longer) && run <= longer && Probing(Last(longer), next - 1)
  {
    ProbeRejected(Last(run).nodes[2], Last(run).nodes[1], next);
    longer := Exchange(run, 2, 1);
  }

  /** The marker is gone, and all of the log but the write is known to be committed. */
  ghost predicate Superseded(c: State) {
    && Three(c) && IsAt(c.nodes[1], Follower, 3, WRITTEN + [OPENING3], 2)
    && c.nodes[2].log == WRITTEN + [OPENING3] && c.nodes[3].log == WRITTEN && c.nodes[3].meta.currentTerm == 2
  }

  lemma Overwrites(run: seq<State>) returns (longer: seq<State>)
    requires IsCalmRun(run) && Probing(Last(run), 1)
    ensures IsCalmRun(longer) && run <= longer && Superseded(Last(longer))
  {
    var n := Last(run).nodes[2];
    WholeLogStored(n, 2, PEERS[2], 1, Last(run).nodes[1]);
    AdvanceKeepsLog(Progress(n, 1, 4), PEERS[2]);
    longer := Exchange(run, 2, 1);
  }

  /** It leads term 4 and knows no more to be committed than before. */
  ghost predicate Misled(c: State) {
    && Three(c) && IsAt(c.nodes[1], Leader, 4, WRITTEN + [OPENING3, OPENING4], 2)
    && c.nodes[2].log == WRITTEN + [OPENING3] && c.nodes[3].log == WRITTEN
  }

  lemma LeadsAgain(run: seq<State>) returns (longer: seq<State>)
    requires IsCalmRun(run) && Superseded(Last(run))
    ensures IsCalmRun(longer) && run <= longer && Misled(Last(longer))
  {
    longer := Election(run, 1, 1, 3);
  }

  lemma Story() returns (run: seq<State>, j: nat, k: nat)
    ensures IsCalmRun(run) && j <= k && ProposedAt(run, k, 1, MARKER) && Misled(Last(run))
    ensures CommittedAt(run, j, 3, WRITE) && AnsweredAt(run, j, 3, WRITE, false, [])
  {
    var written, read;
    written, j := WriteAcknowledged();
    k := |written| - 1;
    read := TakesRead(written);
    run := LosesOffice(read);
    run := ProbesDown(run, 5);
    run := Overwrites(run);
    run := LeadsAgain(run);
    StillProposed(read, run, k, 1, MARKER);
    assert run[j] == written[j];
  }

  // ---- the answer ------------------------------------------------------------------------------

  /** log holds e, and no write of e's key above it. */
  ghost predicate LastWriteIs(log: seq<Entry>, e: Entry) {
    && Holds(log, e) && Writes(e.command, e.command.key)
    && forall i :: e.index <= i < |log| ==> !Writes(log[i].command, e.command.key)
  }

  /** At moment j server w has committed a write and tells its client so; later server l takes a GET of the same key,
      whose marker goes into its log in step k; at moment x it answers the GET with something else, although by then
      every server holds the write and none holds a later one. The marker's index has an entry of another term. */
  ghost predicate StaleAnswer(run: seq<State>, j: nat, w: Id, write: Entry, k: nat, x: nat, l: Id, read: Entry,
                              told: Bytes)
  {
    && CommittedAt(run, j, w, write) && AnsweredAt(run, j, w, write, false, [])
    && write.command == PutCommand(write.command.key, write.command.value) && write.command.value != told
    && j <= k && ProposedAt(run, k, l, read) && read.command == GetCommand()
    && k < x && AnsweredAt(run, x, l, read, true, write.command.key)
    && Conclude(run[x].nodes[l], true, read, true, write.command.key) == Value(told)
    && (forall m :: m in run[x].nodes ==> LastWriteIs(run[x].nodes[m].log, write))
    && TermAt(run[x].nodes[l].log, read.index) != read.term
  }

  lemma Answer(run: seq<State>)
    requires IsCalmRun(run) && Misled(Last(run))
    ensures Conclude(Last(run).nodes[1], true, MARKER, true, KEY) == Value(X)
  {
    CalmIsRun(run);
    Safety.AppliedIsCommitted(run, |run| - 1, 1);
    assert Last(run).nodes[1].log[..2] == [OPENING2, OLD];
    LastWriteDecides([OPENING2, OLD], 1, KEY);
  }

  /** Every server has the write, as the last one of its key, and server 1 another entry in the marker's place. */
  lemma WrittenEverywhere(c: State)
    requires Misled(c)
    ensures forall m :: m in c.nodes ==> LastWriteIs(c.nodes[m].log, WRITE)
    ensures Acknowledges(c.nodes[1], MARKER.index) && TermAt(c.nodes[1].log, MARKER.index) != MARKER.term
  {
    assert LastWriteIs(WRITTEN, WRITE);
    assert LastWriteIs(WRITTEN + [OPENING3], WRITE);
    assert LastWriteIs(WRITTEN + [OPENING3, OPENING4], WRITE);
  }

  /** The marker is there right after it is appended, so the end of the story comes later. */
  lemma LaterOn(run: seq<State>, k: nat)
    requires IsCalmRun(run) && ProposedAt(run, k, 1, MARKER) && Misled(Last(run))
    ensures k < |run| - 1
  {
    CalmIsRun(run);
    ProposedFacts(run, k, 1, MARKER);
  }

  lemma Ending(run: seq<State>, j: nat, k: nat)
    requires IsCalmRun(run) && j <= k && ProposedAt(run, k, 1, MARKER) && Misled(Last(run))
    requires CommittedAt(run, j, 3, WRITE) && AnsweredAt(run, j, 3, WRITE, false, [])
    ensures StaleAnswer(run, j, 3, WRITE, k, |run| - 1, 1, MARKER, X)
  {
    LaterOn(run, k);
    Answer(run);
    WrittenEverywhere(Last(run));
  }

  /** So a GET may miss a write acknowledged before it was appended, without any crash; Clients.ReadSeesWriteIff says
      exactly when. */
  lemma ReadCanBeStale()
    ensures exists run, j, w, write, k, x, l, read, told ::
              IsCalmRun(run) && StaleAnswer(run, j, w, write, k, x, l, read, told)
  {
    var run, j, k := Story();
    Ending(run, j, k);
  }
}
