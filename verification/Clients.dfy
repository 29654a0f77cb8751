// What a client may conclude from an answer. A server answers success once it
// leads and its commit index has reached the entry's index; it does not look at
// whose entry is there by then.
module Clients {
  import opened RaftTypes
  import opened RaftNode
  import opened Cluster
  import opened Invariants
  import opened Commands
  import CommitKept
  import History
  import Runs
  import Safety

  /** Step k of the run is leader n appending e for a client. */
  ghost predicate ProposedAt(run: seq<State>, k: nat, n: Id, e: Entry) {
    && k + 1 < |run| && Leads(run[k], n) && e == NextEntry(run[k].nodes[n], e.command)
    && run[k + 1] == ProposeStep(run[k], n, e.command)
  }

  ghost predicate Succeeds(a: Answer) { a.Done? || a.Value? || a.NotFound? }

  /** At moment j server n answers the waiting client of e, who may want key read, with success. */
  ghost predicate AnsweredAt(run: seq<State>, j: nat, n: Id, e: Entry, isRead: bool, key: Bytes) {
    j < |run| && n in run[j].nodes && Succeeds(Conclude(run[j].nodes[n], true, e, isRead, key))
  }

  ghost predicate Holds(log: seq<Entry>, e: Entry) {
    0 < e.index <= |log| && log[e.index - 1] == e
  }

  // ---- what a client is told -------------------------------------------------------------

  /** The client of a write is told success exactly by a running server that leads and has committed up to the entry's
      index, and then index and term are the entry's; the client of a read then gets what the committed prefix maps its
      key to. A leader short of the index tells of a timeout, whoever does not lead of the leader. */
  lemma AnswersExactly(run: seq<State>, j: nat, n: Id, running: bool, e: Entry, isRead: bool, key: Bytes)
    requires IsRun(run) && j < |run| && n in run[j].nodes
    ensures var m := run[j].nodes[n]; var a := Conclude(m, running, e, isRead, key);
            var committed := m.role == Leader && e.index <= m.meta.commitIndex;
            var store := Replay(m.log[..Min(m.meta.commitIndex, |m.log|)]);
            && (a.Done? <==> running && !isRead && committed) && (a.Done? ==> a == Done(e.index, e.term))
            && (a.Value? <==> running && isRead && committed && key in store) && (a.Value? ==> a.value == store[key])
            && (a.NotFound? <==> running && isRead && committed && key !in store)
            && (a.CommitTimeout? <==> running && m.role == Leader && e.index > m.meta.commitIndex)
            && (a.UnknownLeader? || a.NotLeader? <==> running && m.role != Leader)
            && (a.ShuttingDown? <==> !running)
  {
    Safety.AppliedIsCommitted(run, j, n);
  }

  /** e is in the committed part of server n's log at moment j. */
  ghost predicate CommittedAt(run: seq<State>, j: nat, n: Id, e: Entry) {
    && j < |run| && n in run[j].nodes
    && e.index <= run[j].nodes[n].meta.commitIndex && Holds(run[j].nodes[n].log, e)
  }

  // ---- when a success answer is true -------------------------------------------------------

  lemma ProposedFacts(run: seq<State>, k: nat, n: Id, e: Entry)
    requires IsRun(run) && ProposedAt(run, k, n, e)
    ensures n in run[k + 1].nodes && Leads(run[k + 1], n) && Term(run[k + 1], n) == e.term == Term(run[k], n)
    ensures e.index == |run[k].nodes[n].log| + 1 && run[k + 1].nodes[n].log == run[k].nodes[n].log + [e]
    ensures Holds(run[k + 1].nodes[n].log, e)
  {
    Safety.LogNumbered(run, k, n);
    Runs.ProposeIs(run[k], n, e.command);
    Runs.AdvanceKeeps(Append(run[k].nodes[n], e.command), Peers(run[k], n));
  }

  /** A success answer is about the client's own entry exactly if the entry now at that index has the term it was
      proposed in, and then that entry is committed; otherwise it is about some other client's entry. */
  lemma AnswerIsTrueIffTermMatches(run: seq<State>, k: nat, j: nat, n: Id, e: Entry, isRead: bool, key: Bytes)
    requires IsRun(run) && ProposedAt(run, k, n, e) && k < j && AnsweredAt(run, j, n, e, isRead, key)
    ensures e.index <= run[j].nodes[n].meta.commitIndex <= |run[j].nodes[n].log|
    ensures CommittedAt(run, j, n, e) <==> TermAt(run[j].nodes[n].log, e.index) == e.term
  {
    ProposedFacts(run, k, n, e);
    AnswersExactly(run, j, n, true, e, isRead, key);
    Safety.AppliedIsCommitted(run, j, n);
    if TermAt(run[j].nodes[n].log, e.index) == e.term {
      Safety.LogMatching(run, k + 1, j, n, n, e.index - 1);
    }
  }

  lemma ReignHolds(run: seq<State>, k: nat, j: nat, n: Id, e: Entry)
    requires IsRun(run) && ProposedAt(run, k, n, e) && k < j < |run|
    ensures e.term in run[j].reigns && Holds(LogOf(run[j], e.term), e)
    ensures Shares(LogOf(run[j], e.term), run[k].nodes[n].log, e.index - 1)
  {
    ProposedFacts(run, k, n, e);
    Safety.LeaderFacts(run, k + 1, n);
    Safety.SameReign(run, k + 1, j, e.term);
  }

  /** A server still in the term it proposed in answers truthfully. */
  lemma SameTermAnswerIsTrue(run: seq<State>, k: nat, j: nat, n: Id, e: Entry, isRead: bool, key: Bytes)
    requires IsRun(run) && ProposedAt(run, k, n, e) && k < j && AnsweredAt(run, j, n, e, isRead, key)
    requires Term(run[j], n) == e.term
    ensures CommittedAt(run, j, n, e)
  {
    AnswersExactly(run, j, n, true, e, isRead, key);
    ReignHolds(run, k, j, n, e);
    Safety.LeaderFacts(run, j, n);
  }

  // ---- what a true answer is worth --------------------------------------------------------------

  /** An acknowledged entry is in the log of every leader of a later term, whenever it leads, and in that of every
      leader from then on in the same term. */
  lemma AcknowledgedSurvives(run: seq<State>, j: nat, n: Id, e: Entry, x: nat, l: Id)
    requires IsRun(run) && CommittedAt(run, j, n, e) && x < |run| && Leads(run[x], l)
    requires Term(run[j], n) < Term(run[x], l) || (j <= x && Term(run[j], n) == Term(run[x], l))
    ensures Holds(run[x].nodes[l].log, e)
  {
    Safety.LeaderCompleteness(run, j, x, n, l);
  }

  /** ... and every server that commits up to its index ever after has applied it there. */
  lemma AcknowledgedIsApplied(run: seq<State>, j: nat, n: Id, e: Entry, x: nat, m: Id)
    requires IsRun(run) && CommittedAt(run, j, n, e) && j <= x < |run| && m in run[x].nodes
    requires e.index <= run[x].nodes[m].meta.commitIndex
    ensures CommittedAt(run, x, m, e)
  {
    Safety.CommittedAgree(run, j, x, n, m);
  }

  // ---- reads -------------------------------------------------------------------------------------

  /** The term and index by which a quorum stored e. */
  lemma CommittingTerm(run: seq<State>, j: nat, n: Id, e: Entry) returns (t: nat, m: nat)
    requires IsRun(run) && CommittedAt(run, j, n, e)
    ensures e.index <= m && Committed(run[j], t, m) && Holds(LogOf(run[j], t), e)
  {
    Safety.CommitFacts(run, j, n);
    t, m := CommitKept.Witness(run[j], run[j].nodes[n].log, run[j].nodes[n].meta.commitIndex, Term(run[j], n));
  }

  lemma StaysCommitted(run: seq<State>, j: nat, x: nat, t: nat, m: nat, e: Entry)
    requires IsRun(run) && j <= x < |run| && Committed(run[j], t, m) && e.index <= m && Holds(LogOf(run[j], t), e)
    ensures Committed(run[x], t, m) && Holds(LogOf(run[x], t), e)
  {
    History.RunOnward(run, j, x);
    CommitKept.CommittedGrows(run[j], run[x], t, m);
  }

  /** A later entry cannot be committed by, or below, a term whose committed log does not have it. */
  lemma CommittedOrder(c: State, t: nat, m: nat, u: nat, p: nat, e: Entry)
    requires CommitKept.Safe(c) && Committed(c, t, m) && Committed(c, u, p) && e.index <= p && Holds(LogOf(c, u), e)
    requires e.term < t
    ensures Holds(LogOf(c, t), e)
  {
    if u <= t {
      CommitKept.Carries(c, u, p, t);
    } else {
      CommitKept.Carries(c, t, m, u);
      assert WellNumbered(LogOf(c, u), u);
      assert LogOf(c, u)[m - 1].term == t;
    }
  }

  lemma ReignLog(run: seq<State>, k: nat, t: nat)
    requires IsRun(run) && k < |run| && t in run[k].reigns
    ensures var log := LogOf(run[k], t);
            log != [] && log[|log| - 1].term == t && Matches(run[k], log) && WellNumbered(log, t)
  {
    Runs.RunKept(run, k);
    Parts(run[k]);
    assert ReignOk(t, run[k].reigns[t]);
  }

  /** A leader of a later term who leads before e is first appended never gets e. */
  lemma NeverInLaterReign(run: seq<State>, k: nat, j: nat, n: Id, e: Entry, t: nat)
    requires IsRun(run) && ProposedAt(run, k, n, e) && t in run[k].reigns && e.term < t && k < j < |run|
    ensures t in run[j].reigns && !Holds(LogOf(run[j], t), e)
  {
    ProposedFacts(run, k, n, e);
    Safety.LeaderFacts(run, k, n);
    Safety.SameReign(run, k, j, t);
    ReignLog(run, k, t);
    ReignLog(run, j, t);
    var earlier, later := LogOf(run[k], t), LogOf(run[j], t);
    assert later[|earlier| - 1].term == t;
    assert Holds(earlier, e) ==> Shares(earlier, LogOf(run[k], e.term), e.index);
  }

  /** An entry appended after another is known to be committed lands above it, in no earlier term. */
  lemma AppendedAbove(run: seq<State>, j: nat, n: Id, e: Entry, k: nat, x: nat, l: Id, f: Entry)
    requires IsRun(run) && CommittedAt(run, j, n, e) && j <= k && ProposedAt(run, k, l, f)
    requires k < x && CommittedAt(run, x, l, f)
    ensures e.index < f.index && Holds(run[k].nodes[l].log, e)
  {
    var t, m := CommittingTerm(run, j, n, e);
    var u, p := CommittingTerm(run, x, l, f);
    StaysCommitted(run, j, k, t, m, e);
    StaysCommitted(run, j, x, t, m, e);
    Safety.SafeFacts(run, k);
    Safety.SafeFacts(run, x);
    ProposedFacts(run, k, l, f);
    Safety.LeaderFacts(run, k, l);
    if f.term < t {
      CommittedOrder(run[x], t, m, u, p, f);
      NeverInLaterReign(run, k, x, l, f, t);
    } else {
      CommitKept.Carries(run[k], t, m, f.term);
    }
  }

  /** Reads are linearizable with writes: a GET answered truthfully reads the store that replaying a committed prefix
      yields, and that prefix holds, below the GET's own marker, every write known to be committed before the GET was
      appended. */
  lemma ReadSeesWrites(run: seq<State>, j: nat, n: Id, write: Entry, k: nat, x: nat, l: Id, read: Entry, key: Bytes)
    requires IsRun(run) && CommittedAt(run, j, n, write) && j <= k && ProposedAt(run, k, l, read)
    requires k < x && AnsweredAt(run, x, l, read, true, key)
    requires TermAt(run[x].nodes[l].log, read.index) == read.term
    ensures var m := run[x].nodes[l];
            && write.index < read.index <= m.meta.commitIndex <= |m.log| && Holds(m.log, write)
            && Conclude(m, true, read, true, key) == Read(Replay(m.log[..m.meta.commitIndex]), key)
  {
    AnswerIsTrueIffTermMatches(run, k, x, l, read, true, key);
    AppendedAbove(run, j, n, write, k, x, l, read);
    ReignHolds(run, k, x, l, read);
    Safety.LogFacts(run, x, l);
    Safety.AppliedIsCommitted(run, x, l);
    assert Shares(run[x].nodes[l].log, LogOf(run[x], read.term), read.index);
  }

  lemma LastCommitted(run: seq<State>, j: nat, n: Id)
    requires IsRun(run) && j < |run| && n in run[j].nodes && run[j].nodes[n].meta.commitIndex > 0
    ensures var m := run[j].nodes[n];
            && m.meta.commitIndex <= |m.log|
            && m.log[m.meta.commitIndex - 1].index == m.meta.commitIndex
    ensures CommittedAt(run, j, n, run[j].nodes[n].log[run[j].nodes[n].meta.commitIndex - 1])
  {
    Safety.AppliedIsCommitted(run, j, n);
    Safety.LogNumbered(run, j, n);
  }

  /** ... and with reads: a GET reads everything any server had committed, and so any GET had read, before it was
      appended, even what lay past the earlier GET's own marker. */
  lemma ReadSeesReads(run: seq<State>, j: nat, n: Id, k: nat, x: nat, l: Id, read: Entry, key: Bytes)
    requires IsRun(run) && ProposedAt(run, k, l, read) && j <= k && n in run[j].nodes
    requires k < x && AnsweredAt(run, x, l, read, true, key)
    requires TermAt(run[x].nodes[l].log, read.index) == read.term
    ensures var seen := run[j].nodes[n].meta.commitIndex;
            && seen < read.index <= run[x].nodes[l].meta.commitIndex
            && Shares(run[x].nodes[l].log, run[j].nodes[n].log, seen)
  {
    AnswerIsTrueIffTermMatches(run, k, x, l, read, true, key);
    var m := run[j].nodes[n];
    if m.meta.commitIndex > 0 {
      LastCommitted(run, j, n);
      AppendedAbove(run, j, n, m.log[m.meta.commitIndex - 1], k, x, l, read);
    }
    Safety.CommittedAgree(run, j, x, n, l);
  }

  // ---- every answer to a GET, true or not ------------------------------------------------------

  /** A server in a later term than the one it appended the GET's marker in holds what was committed before. */
  lemma LaterOfficeHolds(run: seq<State>, j: nat, n: Id, write: Entry, k: nat, x: nat, l: Id)
    requires IsRun(run) && CommittedAt(run, j, n, write) && j <= k <= x < |run| && l in run[k].nodes
    requires Leads(run[x], l) && Term(run[k], l) < Term(run[x], l)
    ensures Holds(run[x].nodes[l].log, write)
    ensures var m := run[x].nodes[l];
            TermAt(m.log, m.meta.commitIndex) == m.meta.currentTerm ==> write.index <= m.meta.commitIndex
  {
    var t, m := CommittingTerm(run, j, n, write);
    StaysCommitted(run, j, k, t, m, write);
    StaysCommitted(run, j, x, t, m, write);
    Safety.CommittedBeforeOffice(run, k, x, l, t, m);
    Safety.LeaderFacts(run, x, l);
    Safety.SafeFacts(run, x);
    CommitKept.Carries(run[x], t, m, Term(run[x], l));
    BelowOwnTerm(run, x, l, t, m);
  }

  /** In a leader's log the entries of an earlier term lie below those of its own. */
  lemma BelowOwnTerm(run: seq<State>, x: nat, l: Id, t: nat, m: nat)
    requires IsRun(run) && x < |run| && Leads(run[x], l) && 0 < m <= |run[x].nodes[l].log|
    requires run[x].nodes[l].log[m - 1].term == t < Term(run[x], l)
    ensures var n := run[x].nodes[l];
            TermAt(n.log, n.meta.commitIndex) == n.meta.currentTerm ==> m <= n.meta.commitIndex
  {
    Safety.LogNumbered(run, x, l);
  }

  /** Whatever became of the marker, the server that answers a GET holds every write committed before the GET was
      appended, and the answer accounts for it exactly if it is not above the server's commit index. It never is if the
      marker is still there, or if the server has committed an entry of its own term. */
  lemma ReadSeesWriteIff(run: seq<State>, j: nat, n: Id, write: Entry, k: nat, x: nat, l: Id, read: Entry, key: Bytes)
    requires IsRun(run) && CommittedAt(run, j, n, write) && j <= k && ProposedAt(run, k, l, read)
    requires k < x && AnsweredAt(run, x, l, read, true, key)
    ensures var m := run[x].nodes[l];
            && Holds(m.log, write) && m.meta.commitIndex <= |m.log|
            && Conclude(m, true, read, true, key) == Read(Replay(m.log[..m.meta.commitIndex]), key)
            && (write in m.log[..m.meta.commitIndex] <==> write.index <= m.meta.commitIndex)
            && (TermAt(m.log, read.index) == read.term ==> write.index <= m.meta.commitIndex)
            && (TermAt(m.log, m.meta.commitIndex) == m.meta.currentTerm ==> write.index <= m.meta.commitIndex)
  {
    ProposedFacts(run, k, l, read);
    Safety.AppliedIsCommitted(run, x, l);
    Safety.LogNumbered(run, x, l);
    AnswererHolds(run, j, n, write, k, x, l, read, key);
  }

  lemma AnswererHolds(run: seq<State>, j: nat, n: Id, write: Entry, k: nat, x: nat, l: Id, read: Entry, key: Bytes)
    requires IsRun(run) && CommittedAt(run, j, n, write) && j <= k && ProposedAt(run, k, l, read)
    requires k < x && AnsweredAt(run, x, l, read, true, key)
    ensures var m := run[x].nodes[l];
            && Holds(m.log, write)
            && (TermAt(m.log, read.index) == read.term ==> write.index <= m.meta.commitIndex)
            && (TermAt(m.log, m.meta.commitIndex) == m.meta.currentTerm ==> write.index <= m.meta.commitIndex)
  {
    ProposedFacts(run, k, l, read);
    AnswerIsTrueIffTermMatches(run, k, x, l, read, true, key);
    History.RunTerms(run, k, x);
    if TermAt(run[x].nodes[l].log, read.index) == read.term {
      ReadSeesWrites(run, j, n, write, k, x, l, read, key);
    } else {
      if Term(run[x], l) == read.term { SameTermAnswerIsTrue(run, k, x, l, read, true, key); }
      LaterOfficeHolds(run, j, n, write, k, x, l);
    }
  }

  predicate Writes(c: Command, key: Bytes) {
    c.key == key && (c.operation == OP_PUT || c.operation == OP_DELETE)
  }

  /** What a GET answers is decided by the last committed write of the key. */
  lemma {:induction false} LastWriteDecides(log: seq<Entry>, i: nat, key: Bytes)
    requires i < |log| && Writes(log[i].command, key)
    requires forall x :: i < x < |log| ==> !Writes(log[x].command, key)
    ensures Read(Replay(log), key) == if log[i].command.operation == OP_PUT
            then Value(log[i].command.value) else NotFound
  {
    if i < |log| - 1 {
      LastWriteDecides(log[..|log| - 1], i, key);
    }
  }

  lemma {:induction false} NeverWritten(log: seq<Entry>, key: Bytes)
    requires forall x :: 0 <= x < |log| ==> !Writes(log[x].command, key)
    ensures Read(Replay(log), key) == NotFound
  {
    if log != [] { NeverWritten(log[..|log| - 1], key); }
  }

  /** A command that does not write a key leaves what any store says of it. */
  lemma OnlyWritesMatter(s: Store, c: Command, key: Bytes)
    requires !Writes(c, key)
    ensures Read(Apply(s, c), key) == Read(s, key)
  {
  }

  /** A GET is answered with the value of the last PUT of its key in the committed prefix, and NOT_FOUND after a
      DELETE. */
  lemma GetAnswersLastWrite(run: seq<State>, x: nat, l: Id, read: Entry, key: Bytes, i: nat)
    requires IsRun(run) && AnsweredAt(run, x, l, read, true, key) && i < run[x].nodes[l].meta.commitIndex
    requires forall y :: i < y < Min(run[x].nodes[l].meta.commitIndex, |run[x].nodes[l].log|) ==>
               !Writes(run[x].nodes[l].log[y].command, key)
    ensures var m := run[x].nodes[l];
            && i < |m.log|
            && (forall value :: m.log[i].command == PutCommand(key, value) ==>
                  Conclude(m, true, read, true, key) == Value(value))
            && (m.log[i].command == DeleteCommand(key) ==> Conclude(m, true, read, true, key) == NotFound)
  {
    var m := run[x].nodes[l];
    AnswersExactly(run, x, l, true, read, true, key);
    Safety.AppliedIsCommitted(run, x, l);
    if Writes(m.log[i].command, key) { LastWriteDecides(m.log[..m.meta.commitIndex], i, key); }
  }

  /** So a PUT known committed before a GET of its key is appended, and not followed by another write of the key, is
      what the GET answers, if the GET's marker still has its term. */
  lemma PutThenGet(run: seq<State>, j: nat, n: Id, write: Entry, k: nat, x: nat, l: Id, read: Entry, key: Bytes,
                   value: Bytes)
    requires IsRun(run) && CommittedAt(run, j, n, write) && write.command == PutCommand(key, value)
    requires j <= k && ProposedAt(run, k, l, read) && k < x && AnsweredAt(run, x, l, read, true, key)
    requires TermAt(run[x].nodes[l].log, read.index) == read.term
    requires forall y :: write.index <= y < Min(run[x].nodes[l].meta.commitIndex, |run[x].nodes[l].log|) ==>
               !Writes(run[x].nodes[l].log[y].command, key)
    ensures Conclude(run[x].nodes[l], true, read, true, key) == Value(value)
  {
    ReadSeesWrites(run, j, n, write, k, x, l, read, key);
    GetAnswersLastWrite(run, x, l, read, key, write.index - 1);
  }
}
