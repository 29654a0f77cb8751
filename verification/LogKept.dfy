// Log matching.
module LogKept {
  import opened RaftTypes
  import opened RaftNode
  import opened Cluster
  import opened Invariants
  import opened ElementarySteps
  import Reconciliation

  // ---- leader logs only grow ----------------------------------------------------

  ghost predicate Grown(a: Reign, b: Reign) {
    b.leader == a.leader && b.quorum == a.quorum && b.base == a.base && Shares(b.log, a.log, |a.log|)
  }

  ghost predicate ReignsGrow(c: State, d: State) {
    forall t :: t in c.reigns ==> t in d.reigns && Grown(c.reigns[t], d.reigns[t])
  }

  lemma MatchesGrows(c: State, d: State, log: seq<Entry>)
    requires ReignsGrow(c, d) && Matches(c, log)
    ensures Matches(d, log)
  {
    forall i | 0 <= i < |log| ensures log[i].term in d.reigns && Shares(log, LogOf(d, log[i].term), i + 1) {
      assert Shares(log, LogOf(c, log[i].term), i + 1);
      assert Grown(c.reigns[log[i].term], d.reigns[log[i].term]);
    }
  }

  lemma MatchesPrefix(c: State, log: seq<Entry>, k: nat)
    requires Matches(c, log) && k <= |log|
    ensures Matches(c, log[..k])
  {
    forall i | 0 <= i < k ensures log[i].term in c.reigns && Shares(log[..k], LogOf(c, log[i].term), i + 1) {
      assert Shares(log, LogOf(c, log[i].term), i + 1);
    }
  }

  /** Log matching: the same term at the same place means the same log up to there. */
  lemma SameTermSamePrefix(c: State, a: seq<Entry>, b: seq<Entry>, i: nat)
    requires Matches(c, a) && Matches(c, b) && i < |a| && i < |b| && a[i].term == b[i].term
    ensures Shares(a, b, i + 1)
  {
    assert Shares(a, LogOf(c, a[i].term), i + 1) && Shares(b, LogOf(c, b[i].term), i + 1);
  }

  // ---- what AppendEntries makes of a log ---------------------------------------------

  lemma PrevShared(c: State, log: seq<Entry>, lead: seq<Entry>, a: AppendArgs)
    requires Matches(c, log) && Matches(c, lead) && SliceOf(lead, a) && PrevMatches(log, a)
    ensures a.prevLogIndex <= |log| && Shares(log, lead, a.prevLogIndex)
  {
    if a.prevLogIndex > 0 { SameTermSamePrefix(c, log, lead, a.prevLogIndex - 1); }
  }

  lemma SliceEntries(lead: seq<Entry>, a: AppendArgs)
    requires SliceOf(lead, a)
    ensures forall j :: 0 <= j < |a.entries| ==> a.entries[j] == lead[a.prevLogIndex + j]
  {
  }

  /** The entries of an AppendEntries and a log that both match leader logs match each other. */
  lemma SliceConsistent(c: State, log: seq<Entry>, lead: seq<Entry>, a: AppendArgs)
    requires Matches(c, log) && Matches(c, lead) && SliceOf(lead, a) && a.prevLogIndex <= |log|
    ensures Reconciliation.Consistent(log, a.prevLogIndex, a.entries)
  {
    SliceEntries(lead, a);
    var prev := a.prevLogIndex;
    forall j | 0 <= j < |a.entries| && prev + j < |log| && log[prev + j].term == a.entries[j].term
      ensures Reconciliation.SameUpTo(log, prev, a.entries, j)
    {
      SameTermSamePrefix(c, log, lead, prev + j);
    }
  }

  /** What entries of lead up to m make of a log: nothing if the log has them all, and else exactly lead up to m. */
  ghost function AcceptedResult(log: seq<Entry>, lead: seq<Entry>, m: nat): (r: seq<Entry>)
    requires m <= |lead|
    ensures Shares(r, lead, m)
  {
    if Shares(log, lead, m) then log else lead[..m]
  }

  /** The log ends up holding the leader's log up to the last entry sent; it changes only if it did not already. */
  lemma ReconcileYields(c: State, log: seq<Entry>, lead: seq<Entry>, a: AppendArgs)
    requires Matches(c, log) && Matches(c, lead) && SliceOf(lead, a) && PrevMatches(log, a)
    ensures a.prevLogIndex <= |log|
    ensures var m := a.prevLogIndex + |a.entries|;
            m <= |lead| && Reconcile(log, a.prevLogIndex, a.entries) == AcceptedResult(log, lead, m)
  {
    PrevShared(c, log, lead, a);
    SliceConsistent(c, log, lead, a);
    SliceEntries(lead, a);
    Reconciliation.ReconcileIs(log, a.prevLogIndex, a.entries);
    Spliced(log, lead, a);
  }

  lemma Spliced(log: seq<Entry>, lead: seq<Entry>, a: AppendArgs)
    requires SliceOf(lead, a) && Shares(log, lead, a.prevLogIndex)
    requires forall j :: 0 <= j < |a.entries| ==> a.entries[j] == lead[a.prevLogIndex + j]
    ensures var m := a.prevLogIndex + |a.entries|;
            && log[..a.prevLogIndex] + a.entries == lead[..m]
            && (Reconciliation.Present(log, a.prevLogIndex, a.entries) <==> Shares(log, lead, m))
  {
    var m := a.prevLogIndex + |a.entries|;
    if Shares(log, lead, m) {
      forall j | 0 <= j < |a.entries| ensures log[a.prevLogIndex + j] == a.entries[j] {}
    }
    if Reconciliation.Present(log, a.prevLogIndex, a.entries) {
      forall j | 0 <= j < m ensures log[j] == lead[j] {
        if j >= a.prevLogIndex { assert log[a.prevLogIndex + (j - a.prevLogIndex)] == a.entries[j - a.prevLogIndex]; }
      }
    }
  }

  // ---- preservation ---------------------------------------------------------------------

  /** Logs and leader logs are untouched; a leader in d already led the same term. */
  ghost predicate LogsQuiet(c: State, d: State) {
    && d.nodes.Keys == c.nodes.Keys && d.reigns == c.reigns && |d.appendRpcs| == |c.appendRpcs|
    && (forall n :: n in c.nodes ==> QuietNode(c.nodes[n], d.nodes[n]))
    && (forall i :: 0 <= i < |c.appendRpcs| ==> SameRequest(c.appendRpcs[i], d.appendRpcs[i]))
  }

  ghost predicate QuietNode(a: Node, b: Node) {
    && b.log == a.log && b.meta.currentTerm >= a.meta.currentTerm
    && (b.role == Leader ==> a.role == Leader && b.meta.currentTerm == a.meta.currentTerm)
    && (b.role == Candidate && b.meta.currentTerm == a.meta.currentTerm ==> a.role == Candidate)
  }

  ghost predicate SameRequest(q: AppendRpc, r: AppendRpc) {
    r.src == q.src && r.dst == q.dst && r.args == q.args
  }

  lemma QuietLogs(c: State, d: State)
    requires LogsOk(c) && LogsQuiet(c, d)
    ensures LogsOk(d)
  {
    forall t | t in c.reigns ensures Grown(c.reigns[t], d.reigns[t]) {}
    forall n | n in d.nodes ensures Matches(d, d.nodes[n].log) {
      MatchesGrows(c, d, c.nodes[n].log);
    }
    forall t | t in d.reigns ensures Matches(d, LogOf(d, t)) {
      MatchesGrows(c, d, LogOf(c, t));
    }
  }

  lemma QuietRpcs(c: State, d: State)
    requires AppendRpcsOk(c) && LogsQuiet(c, d)
    ensures AppendRpcsOk(d)
  {
    forall i | 0 <= i < |d.appendRpcs| ensures AppendRpcOk(d, d.appendRpcs[i]) {
      assert AppendRpcOk(c, c.appendRpcs[i]) && SameRequest(c.appendRpcs[i], d.appendRpcs[i]);
    }
  }

  lemma QuietKept(c: State, d: State)
    requires LogInv(c) && LogsQuiet(c, d)
    ensures LogInv(d)
  {
    QuietLogs(c, d);
    QuietRpcs(c, d);
  }

  // ---- the leader's own entries --------------------------------------------------------------

  /** One entry of term t, after everything else. */
  lemma OneMore(log: seq<Entry>, e: Entry, top: nat)
    requires WellNumbered(log, top) && e.term == top && e.index == LastIndex(log) + 1
    ensures WellNumbered(log + [e], top)
  {
  }

  /** d's leader log of t is the log of n in c with one more entry of term t. */
  ghost predicate Led(c: State, d: State, n: Id, e: Entry) {
    && n in c.nodes && d.nodes.Keys == c.nodes.Keys && ReignsGrow(c, d)
    && e.term == Term(c, n) && e.index == LastIndex(c.nodes[n].log) + 1
    && (forall m :: m in c.nodes && m != n ==> d.nodes[m] == c.nodes[m])
    && Term(d, n) == Term(c, n) && d.nodes[n].log == c.nodes[n].log + [e]
    && e.term in d.reigns && LogOf(d, e.term) == d.nodes[n].log
    && (forall t :: t in d.reigns && t != e.term ==> t in c.reigns && d.reigns[t] == c.reigns[t])
    && d.appendRpcs == c.appendRpcs
  }

  lemma LedMatches(c: State, d: State, n: Id, e: Entry)
    requires LogsOk(c) && Led(c, d, n, e)
    ensures Matches(d, d.nodes[n].log)
  {
    var log := d.nodes[n].log;
    MatchesGrows(c, d, c.nodes[n].log);
    forall i | 0 <= i < |log| ensures log[i].term in d.reigns && Shares(log, LogOf(d, log[i].term), i + 1) {
      if i < |log| - 1 { assert Shares(c.nodes[n].log, LogOf(d, log[i].term), i + 1); }
    }
  }

  lemma LedLogs(c: State, d: State, n: Id, e: Entry)
    requires LogsOk(c) && Led(c, d, n, e)
    ensures LogsOk(d)
  {
    LedMatches(c, d, n, e);
    OneMore(c.nodes[n].log, e, e.term);
    forall m | m in d.nodes ensures Matches(d, d.nodes[m].log) && WellNumbered(d.nodes[m].log, Term(d, m)) {
      if m != n { MatchesGrows(c, d, c.nodes[m].log); }
    }
    forall t | t in d.reigns ensures Matches(d, LogOf(d, t)) && WellNumbered(LogOf(d, t), t) {
      if t != e.term { MatchesGrows(c, d, LogOf(c, t)); }
    }
  }

  lemma LedRpcs(c: State, d: State, n: Id, e: Entry)
    requires AppendRpcsOk(c) && Led(c, d, n, e)
    ensures AppendRpcsOk(d)
  {
    forall i | 0 <= i < |d.appendRpcs| ensures AppendRpcOk(d, d.appendRpcs[i]) {
      var r := c.appendRpcs[i];
      assert AppendRpcOk(c, r);
      assert Grown(c.reigns[r.args.term], d.reigns[r.args.term]);
      SliceGrows(LogOf(c, r.args.term), LogOf(d, r.args.term), r.args);
    }
  }

  lemma SliceGrows(a: seq<Entry>, b: seq<Entry>, args: AppendArgs)
    requires SliceOf(a, args) && Shares(b, a, |a|)
    ensures SliceOf(b, args)
  {
    assert b[..|a|] == a;
  }

  lemma InOfficeLed(c: State, n: Id)
    requires n in c.nodes && Term(c, n) !in c.reigns
    ensures Led(c, InOffice(c, n), n, NextEntry(c.nodes[n], NOOP_COMMAND))
  {
  }

  lemma InOfficeKept(c: State, n: Id)
    requires ReignsElected(c) && LogInv(c) && Elected(c, n) && Term(c, n) !in c.reigns
    ensures LogInv(InOffice(c, n))
  {
    var d := InOffice(c, n);
    var e := NextEntry(c.nodes[n], NOOP_COMMAND);
    InOfficeLed(c, n);
    LedLogs(c, d, n, e);
    LedRpcs(c, d, n, e);
    OfficeOpens(c, n);
    InOfficeReigns(c, n);
  }

  lemma InOfficeReigns(c: State, n: Id)
    requires ReignsElected(c) && ReignsOk(c) && n in c.nodes && Term(c, n) !in c.reigns
    requires var d := InOffice(c, n); ReignOk(Term(c, n), d.reigns[Term(c, n)])
    ensures ReignsOk(InOffice(c, n))
  {
    forall m | m in c.nodes && c.nodes[m].role == Leader ensures Term(c, m) in c.reigns { assert InReign(c, m); }
  }

  /** No entry of a term exists before its leader does, so the opening entry is the first of its term. */
  lemma OfficeOpens(c: State, n: Id)
    requires LogsOk(c) && n in c.nodes && Term(c, n) !in c.reigns
    ensures var d := InOffice(c, n); ReignOk(Term(c, n), d.reigns[Term(c, n)])
  {
    var log := c.nodes[n].log;
    assert Matches(c, log) && WellNumbered(log, Term(c, n));
    forall j | 0 <= j < |log| ensures log[j].term < Term(c, n) {
      assert log[j].term in c.reigns;
    }
  }

  lemma AppendedLed(c: State, n: Id, command: Command)
    requires ReignsOk(c) && Leads(c, n) && Term(c, n) in c.reigns
    ensures Led(c, Appended(c, n, command), n, NextEntry(c.nodes[n], command))
  {
  }

  lemma AppendedReigns(c: State, n: Id, command: Command)
    requires ReignsOk(c) && Leads(c, n) && Term(c, n) in c.reigns
    requires forall m :: m in c.nodes && c.nodes[m].role == Leader && Term(c, m) == Term(c, n) ==> m == n
    ensures ReignsOk(Appended(c, n, command))
  {
    var d := Appended(c, n, command);
    forall t | t in d.reigns ensures ReignOk(t, d.reigns[t]) {
      assert ReignOk(t, c.reigns[t]);
    }
  }

  lemma OnlyLeader(c: State, n: Id)
    requires ReignsElected(c) && Leads(c, n)
    ensures Term(c, n) in c.reigns
    ensures forall m :: m in c.nodes && c.nodes[m].role == Leader && Term(c, m) == Term(c, n) ==> m == n
  {
    assert InReign(c, n);
    forall m | m in c.nodes && c.nodes[m].role == Leader && Term(c, m) == Term(c, n) ensures m == n {
      assert InReign(c, m);
    }
  }

  lemma AppendedKept(c: State, n: Id, command: Command)
    requires ReignsElected(c) && LogInv(c) && Leads(c, n)
    ensures LogInv(Appended(c, n, command))
  {
    OnlyLeader(c, n);
    AppendedLed(c, n, command);
    LedLogs(c, Appended(c, n, command), n, NextEntry(c.nodes[n], command));
    LedRpcs(c, Appended(c, n, command), n, NextEntry(c.nodes[n], command));
    AppendedReigns(c, n, command);
  }

  // ---- replication -----------------------------------------------------------------------------

  lemma BuiltSlice(n: Node, self: Id, p: Id)
    requires 1 <= At(n.nextIndex, p) <= |n.log| + 1
    ensures SliceOf(n.log, BuildAppend(n, self, p))
  {
  }

  lemma SentKept(c: State, n: Id, p: Id)
    requires ReignsElected(c) && Shape(c) && LogInv(c) && Leads(c, n) && p in Peers(c, n) && PeerTracked(c, n, p)
    ensures LogInv(SendAppendStep(c, n, p))
  {
    var d := SendAppendStep(c, n, p);
    SentOk(c, n, p);
    SentRpcs(c, d);
    SameLogs(c, d);
  }

  lemma SentOk(c: State, n: Id, p: Id)
    requires ReignsElected(c) && Shape(c) && ReignsOk(c) && Leads(c, n) && p in Peers(c, n) && PeerTracked(c, n, p)
    ensures AppendRpcOk(SendAppendStep(c, n, p), AppendRpc(n, p, BuildAppend(c.nodes[n], n, p), Sent))
  {
    assert InReign(c, n);
    BuiltSlice(c.nodes[n], n, p);
  }

  lemma SameLogs(c: State, d: State)
    requires LogsOk(c) && d.nodes == c.nodes && d.reigns == c.reigns
    ensures LogsOk(d)
  {
    forall n | n in d.nodes ensures Matches(d, d.nodes[n].log) { assert Matches(c, c.nodes[n].log); }
    forall t | t in d.reigns ensures Matches(d, LogOf(d, t)) { assert Matches(c, LogOf(c, t)); }
  }

  lemma SentRpcs(c: State, d: State)
    requires AppendRpcsOk(c) && d.nodes == c.nodes && d.reigns == c.reigns && |d.appendRpcs| == |c.appendRpcs| + 1
    requires c.appendRpcs == d.appendRpcs[..|c.appendRpcs|] && AppendRpcOk(d, d.appendRpcs[|c.appendRpcs|])
    ensures AppendRpcsOk(d)
  {
    forall i | 0 <= i < |d.appendRpcs| ensures AppendRpcOk(d, d.appendRpcs[i]) {
      if i < |c.appendRpcs| { assert AppendRpcOk(c, c.appendRpcs[i]); }
    }
  }

  /** After storing, the follower's log matches the leader's up to the last entry sent. */
  lemma AcceptedLog(c: State, i: nat)
    requires LogsOk(c) && AppendRpcsOk(c) && MayAccept(c, i)
    ensures var r := c.appendRpcs[i]; var m := r.args.prevLogIndex + |r.args.entries|;
            && r.args.prevLogIndex <= |c.nodes[r.dst].log| && r.args.term in c.reigns && m <= |LogOf(c, r.args.term)|
            && Accepted(c, i).nodes[r.dst].log == AcceptedResult(c.nodes[r.dst].log, LogOf(c, r.args.term), m)
  {
    AcceptedSlice(c, i);
    AcceptedFrom(c, i, LogOf(c, c.appendRpcs[i].args.term));
  }

  lemma AcceptedFrom(c: State, i: nat, lead: seq<Entry>)
    requires MayAccept(c, i)
    requires var r := c.appendRpcs[i];
             Matches(c, c.nodes[r.dst].log) && Matches(c, lead) && SliceOf(lead, r.args)
    ensures var r := c.appendRpcs[i]; var m := r.args.prevLogIndex + |r.args.entries|;
            && r.args.prevLogIndex <= |c.nodes[r.dst].log| && m <= |lead|
            && Accepted(c, i).nodes[r.dst].log == AcceptedResult(c.nodes[r.dst].log, lead, m)
  {
    var r := c.appendRpcs[i];
    ReconcileYields(c, c.nodes[r.dst].log, lead, r.args);
    AcceptedNode(c, i);
  }

  lemma AcceptedNode(c: State, i: nat)
    requires MayAccept(c, i) && c.appendRpcs[i].args.prevLogIndex <= |c.nodes[c.appendRpcs[i].dst].log|
    ensures var r := c.appendRpcs[i];
            Accepted(c, i).nodes[r.dst].log == Reconcile(c.nodes[r.dst].log, r.args.prevLogIndex, r.args.entries)
  {
  }

  lemma AcceptedSlice(c: State, i: nat)
    requires LogsOk(c) && AppendRpcsOk(c) && MayAccept(c, i)
    ensures var r := c.appendRpcs[i];
            && r.args.term in c.reigns && SliceOf(LogOf(c, r.args.term), r.args)
            && Matches(c, c.nodes[r.dst].log) && Matches(c, LogOf(c, r.args.term))
  {
    assert AppendRpcOk(c, c.appendRpcs[i]);
  }

  lemma AcceptedMatches(c: State, i: nat)
    requires LogsOk(c) && AppendRpcsOk(c) && MayAccept(c, i)
    ensures var r := c.appendRpcs[i];
            && r.args.prevLogIndex <= |c.nodes[r.dst].log|
            && var log := Accepted(c, i).nodes[r.dst].log;
            Matches(c, log) && WellNumbered(log, Term(c, r.dst))
  {
    AcceptedLog(c, i);
    var r := c.appendRpcs[i];
    var lead := LogOf(c, r.args.term);
    var m := r.args.prevLogIndex + |r.args.entries|;
    assert Matches(c, lead) && WellNumbered(lead, Term(c, r.dst));
    MatchesPrefix(c, lead, m);
    NumberedPrefix(lead, m, Term(c, r.dst));
  }

  lemma NumberedPrefix(log: seq<Entry>, k: nat, top: nat)
    requires WellNumbered(log, top) && k <= |log|
    ensures WellNumbered(log[..k], top)
  {
  }

  lemma AcceptedLogs(c: State, d: State, v: Id)
    requires LogsOk(c) && v in c.nodes && v in d.nodes && d.reigns == c.reigns
    requires d.nodes == c.nodes[v := d.nodes[v]] && Term(d, v) == Term(c, v)
    requires Matches(c, d.nodes[v].log) && WellNumbered(d.nodes[v].log, Term(c, v))
    ensures LogsOk(d)
  {
    forall n | n in d.nodes ensures Matches(d, d.nodes[n].log) { assert Matches(c, d.nodes[n].log); }
    forall t | t in d.reigns ensures Matches(d, LogOf(d, t)) { assert Matches(c, LogOf(c, t)); }
  }

  lemma AcceptedRpcs(c: State, i: nat)
    requires AppendRpcsOk(c) && MayAccept(c, i)
    ensures AppendRpcsOk(Accepted(c, i))
  {
    var d := Accepted(c, i);
    forall j | 0 <= j < |d.appendRpcs| ensures AppendRpcOk(d, d.appendRpcs[j]) {
      assert AppendRpcOk(c, c.appendRpcs[j]);
    }
  }

  lemma AcceptedKept(c: State, i: nat)
    requires LogInv(c) && MayAccept(c, i)
    ensures LogInv(Accepted(c, i))
  {
    AcceptedMatches(c, i);
    AcceptedLogs(c, Accepted(c, i), c.appendRpcs[i].dst);
    AcceptedRpcs(c, i);
  }
}
