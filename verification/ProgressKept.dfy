// The leader's nextIndex and matchIndex, and the replies they rest on.
module ProgressKept {
  import opened RaftTypes
  import opened RaftNode
  import opened Cluster
  import opened Invariants
  import opened ElementarySteps
  import LogKept

  ghost predicate AcksGrow(c: State, d: State) {
    forall t, v :: (t, v) in c.acked ==> (t, v) in d.acked && c.acked[(t, v)] <= d.acked[(t, v)]
  }

  /** A leader in b already led in a, in the same term, with the same record of its peers. */
  ghost predicate SameRecord(a: Node, b: Node) {
    b.role == Leader ==>
      && a.role == Leader && b.meta.currentTerm == a.meta.currentTerm && |b.log| >= |a.log|
      && b.matchIndex == a.matchIndex && b.nextIndex == a.nextIndex
  }

  ghost predicate ProgressQuiet(c: State, d: State) {
    && d.members == c.members && d.peerList == c.peerList && AcksGrow(c, d) && d.nodes.Keys == c.nodes.Keys
       && d.appendRpcs == c.appendRpcs
    && (forall n :: n in c.nodes ==> SameRecord(c.nodes[n], d.nodes[n]))
  }

  lemma AckedGrows(c: State, d: State, t: nat, v: Id)
    requires AcksGrow(c, d)
    ensures Acked(c, t, v) <= Acked(d, t, v)
  {
  }

  lemma QuietTracked(c: State, d: State)
    requires AllTracked(c) && ProgressQuiet(c, d)
    ensures AllTracked(d)
  {
    forall n, p | n in d.nodes && d.nodes[n].role == Leader && p in Peers(d, n) ensures PeerTracked(d, n, p) {
      assert SameRecord(c.nodes[n], d.nodes[n]);
      assert PeerTracked(c, n, p);
      AckedGrows(c, d, Term(c, n), p);
    }
  }

  lemma QuietProbes(c: State, d: State)
    requires ProbesOk(c) && ProgressQuiet(c, d)
    ensures ProbesOk(d)
  {
    forall i: nat | Awaited(d, i) ensures ProbeOk(d.nodes[d.appendRpcs[i].src], d.appendRpcs[i]) {
      assert SameRecord(c.nodes[c.appendRpcs[i].src], d.nodes[c.appendRpcs[i].src]);
      assert Awaited(c, i);
    }
  }

  lemma QuietReplies(c: State, d: State)
    requires AllRepliesOk(c) && AcksGrow(c, d) && d.appendRpcs == c.appendRpcs
    ensures AllRepliesOk(d)
  {
    forall i | 0 <= i < |d.appendRpcs| ensures RepliesOk(d, d.appendRpcs[i]) {
      var r := c.appendRpcs[i];
      assert RepliesOk(c, r);
      AckedGrows(c, d, r.args.term, r.dst);
    }
  }

  lemma QuietKept(c: State, d: State)
    requires ProgressInv(c) && ProgressQuiet(c, d)
    ensures ProgressInv(d)
  {
    QuietTracked(c, d);
    QuietProbes(c, d);
    QuietReplies(c, d);
  }

  // ---- a new leader ----------------------------------------------------------------

  lemma InOfficeTracked(c: State, n: Id)
    requires AcksOk(c) && AllTracked(c) && LogsOk(c) && n in c.nodes && Term(c, n) !in c.reigns
    ensures AllTracked(InOffice(c, n))
  {
    var d := InOffice(c, n);
    forall m, p | m in d.nodes && d.nodes[m].role == Leader && p in Peers(d, m) ensures PeerTracked(d, m, p) {
      if m != n { assert PeerTracked(c, m, p); } else { assert WellNumbered(c.nodes[n].log, Term(c, n)); }
    }
  }

  lemma InOfficeProbes(c: State, n: Id)
    requires AppendRpcsOk(c) && ProbesOk(c) && n in c.nodes && Term(c, n) !in c.reigns
    ensures ProbesOk(InOffice(c, n))
  {
    var d := InOffice(c, n);
    forall i: nat | Awaited(d, i) ensures ProbeOk(d.nodes[d.appendRpcs[i].src], d.appendRpcs[i]) {
      assert AppendRpcOk(c, c.appendRpcs[i]);
      assert c.appendRpcs[i].src != n;
      assert Awaited(c, i);
    }
  }

  lemma InOfficeKept(c: State, n: Id)
    requires AcksOk(c) && LogsOk(c) && AppendRpcsOk(c) && ProgressInv(c) && n in c.nodes && Term(c, n) !in c.reigns
    ensures ProgressInv(InOffice(c, n))
  {
    InOfficeTracked(c, n);
    InOfficeProbes(c, n);
    NewAck(c, n);
    QuietReplies(c, InOffice(c, n));
  }

  lemma NewAck(c: State, n: Id)
    requires AcksOk(c) && n in c.nodes && Term(c, n) !in c.reigns
    ensures AcksGrow(c, InOffice(c, n))
  {
    forall t, v | (t, v) in c.acked ensures t in c.reigns { assert AckOk(c, t, v, c.acked[(t, v)]); }
  }

  // ---- sending and answering ------------------------------------------------------------

  lemma SentProbes(c: State, n: Id, p: Id)
    requires AllTracked(c) && ProbesOk(c) && Leads(c, n) && p in Peers(c, n)
    ensures ProbesOk(SendAppendStep(c, n, p))
  {
    var d := SendAppendStep(c, n, p);
    assert PeerTracked(c, n, p);
    forall i: nat | Awaited(d, i) ensures ProbeOk(d.nodes[d.appendRpcs[i].src], d.appendRpcs[i]) {
      if i < |c.appendRpcs| {
        StillNewest(c.appendRpcs, d.appendRpcs, i);
        assert Awaited(c, i);
      }
    }
  }

  lemma StillNewest(a: seq<AppendRpc>, b: seq<AppendRpc>, i: nat)
    requires i < |a| <= |b| && Newest(b, i) && forall j :: 0 <= j < |a| ==> LogKept.SameRequest(a[j], b[j])
    ensures Newest(a, i)
  {
    forall j | i < j < |a| ensures a[j].src != a[i].src || a[j].dst != a[i].dst {
      assert LogKept.SameRequest(a[j], b[j]) && LogKept.SameRequest(a[i], b[i]);
    }
  }

  lemma SentKept(c: State, n: Id, p: Id)
    requires ProgressInv(c) && Leads(c, n) && p in Peers(c, n)
    ensures ProgressInv(SendAppendStep(c, n, p))
  {
    var d := SendAppendStep(c, n, p);
    SentProbes(c, n, p);
    forall i | 0 <= i < |d.appendRpcs| ensures RepliesOk(d, d.appendRpcs[i]) {
      if i < |c.appendRpcs| { assert RepliesOk(c, c.appendRpcs[i]); }
    }
    SameTracked(c, d);
  }

  lemma SameTracked(c: State, d: State)
    requires AllTracked(c) && d.nodes == c.nodes && d.acked == c.acked && d.members == c.members
             && d.peerList == c.peerList
    ensures AllTracked(d)
  {
    forall n, p | n in d.nodes && d.nodes[n].role == Leader && p in Peers(d, n) ensures PeerTracked(d, n, p) {
      assert PeerTracked(c, n, p);
    }
  }

  /** A mismatch reported to a leader that still waits for it lies above what the follower is known to hold. */
  ghost predicate MismatchAbove(c: State, r: AppendRpc) {
    Mismatched(r) && r.src in c.nodes && c.nodes[r.src].role == Leader && Term(c, r.src) == r.args.term ==>
      At(c.nodes[r.src].matchIndex, r.dst) < r.args.prevLogIndex
  }

  lemma MarkedProbes(c: State, i: nat, s: Status<AppendReply>)
    requires ProbesOk(c) && i < |c.appendRpcs| && !c.appendRpcs[i].status.Taken?
    requires MismatchAbove(c, c.appendRpcs[i].(status := s))
    ensures ProbesOk(MarkAppend(c, i, s))
  {
    var d := MarkAppend(c, i, s);
    forall j: nat | Awaited(d, j) ensures ProbeOk(d.nodes[d.appendRpcs[j].src], d.appendRpcs[j]) {
      StillNewest(c.appendRpcs, d.appendRpcs, j);
      assert Awaited(c, j);
    }
  }

  lemma MarkedKept(c: State, i: nat, s: Status<AppendReply>)
    requires ProgressInv(c) && i < |c.appendRpcs| && !c.appendRpcs[i].status.Taken?
    requires RepliesOk(c, c.appendRpcs[i].(status := s)) && MismatchAbove(c, c.appendRpcs[i].(status := s))
    ensures ProgressInv(MarkAppend(c, i, s))
  {
    var d := MarkAppend(c, i, s);
    MarkedProbes(c, i, s);
    forall j | 0 <= j < |d.appendRpcs| ensures RepliesOk(d, d.appendRpcs[j]) {
      assert RepliesOk(c, c.appendRpcs[j]);
    }
    SameTracked(c, d);
  }

  lemma ListedPeer(c: State, n: Id, p: Id)
    requires Shape(c) && n in c.members && p in c.members && p != n
    ensures p in Peers(c, n)
  {
    assert IsListOf(c.peerList[n], c.members - {n});
  }

  /** A follower that rejects a probe does not hold the leader's log up to it, so it never confirmed that much. */
  lemma RejectionAbove(c: State, r: AppendRpc)
    requires ReignsElected(c) && AcksOk(c) && StoredKept(c) && AllTracked(c) && Shape(c)
    requires AppendRpcOk(c, r) && Term(c, r.dst) == r.args.term && !PrevMatches(c.nodes[r.dst].log, r.args)
    requires c.nodes[r.src].role == Leader && Term(c, r.src) == r.args.term
    ensures At(c.nodes[r.src].matchIndex, r.dst) < r.args.prevLogIndex
  {
    var k := At(c.nodes[r.src].matchIndex, r.dst);
    ListedPeer(c, r.src, r.dst);
    assert PeerTracked(c, r.src, r.dst);
    if k > 0 {
      assert Stored(c, r.args.term, r.dst, k);
      assert Shares(c.nodes[r.dst].log, LogOf(c, r.args.term), k);
    }
  }

  // ---- taking replies ----------------------------------------------------------------------

  /** The leader's newest connection to the peer has been taken, so it waits on none. */
  ghost predicate Idle(c: State, n: Id, p: Id) {
    exists i: nat :: i < |c.appendRpcs| && c.appendRpcs[i].src == n && c.appendRpcs[i].dst == p
      && c.appendRpcs[i].status.Taken? && Newest(c.appendRpcs, i)
  }

  /** m is n with only its record of p changed. */
  ghost predicate RecordOf(a: Node, b: Node, p: Id) {
    && b.role == a.role && b.meta == a.meta && b.log == a.log
    && (forall q :: q in a.matchIndex && q in a.nextIndex && q != p ==>
          q in b.matchIndex && q in b.nextIndex && b.matchIndex[q] == a.matchIndex[q]
              && b.nextIndex[q] == a.nextIndex[q])
  }

  lemma RecordedTracked(c: State, n: Id, p: Id, m: Node)
    requires AllTracked(c) && n in c.nodes && RecordOf(c.nodes[n], m, p)
    requires PeerTracked(PutNode(c, n, m), n, p)
    ensures AllTracked(PutNode(c, n, m))
  {
    var d := PutNode(c, n, m);
    forall k, q | k in d.nodes && d.nodes[k].role == Leader && q in Peers(d, k) ensures PeerTracked(d, k, q) {
      if k != n || q != p { assert PeerTracked(c, k, q); }
    }
  }

  lemma NotAwaited(c: State, n: Id, p: Id, j: nat)
    requires Idle(c, n, p) && Awaited(c, j) && c.appendRpcs[j].src == n
    ensures c.appendRpcs[j].dst != p
  {
    var i: nat :| i < |c.appendRpcs| && c.appendRpcs[i].src == n && c.appendRpcs[i].dst == p
      && c.appendRpcs[i].status.Taken? && Newest(c.appendRpcs, i);
  }

  lemma RecordedProbes(c: State, n: Id, p: Id, m: Node)
    requires Shape(c) && AppendRpcsOk(c) && AllTracked(c) && ProbesOk(c) && n in c.nodes && Idle(c, n, p)
    requires RecordOf(c.nodes[n], m, p)
    ensures ProbesOk(PutNode(c, n, m))
  {
    var d := PutNode(c, n, m);
    forall j: nat | Awaited(d, j) ensures ProbeOk(d.nodes[d.appendRpcs[j].src], d.appendRpcs[j]) {
      var r := c.appendRpcs[j];
      assert Awaited(c, j) && AppendRpcOk(c, r);
      if r.src == n {
        NotAwaited(c, n, p, j);
        ListedPeer(c, n, r.dst);
        assert PeerTracked(c, n, r.dst);
      }
    }
  }

  lemma RecordedKept(c: State, n: Id, p: Id, m: Node)
    requires Shape(c) && AppendRpcsOk(c) && ProgressInv(c) && n in c.nodes && Idle(c, n, p)
    requires RecordOf(c.nodes[n], m, p) && PeerTracked(PutNode(c, n, m), n, p)
    ensures ProgressInv(PutNode(c, n, m))
  {
    RecordedTracked(c, n, p, m);
    RecordedProbes(c, n, p, m);
    QuietReplies(c, PutNode(c, n, m));
  }

  /** A success credits the peer with what it stored. */
  lemma SuccessTracked(c: State, n: Id, p: Id, k: nat)
    requires ReignsElected(c) && ReignsOk(c) && AcksOk(c) && n in c.nodes && c.nodes[n].role == Leader
    requires PeerTracked(c, n, p) && k <= Acked(c, Term(c, n), p)
    ensures PeerTracked(PutNode(c, n, Progress(c.nodes[n], p, k)), n, p)
  {
    assert InReign(c, n);
    if (Term(c, n), p) in c.acked { assert AckOk(c, Term(c, n), p, c.acked[(Term(c, n), p)]); }
  }

  /** A mismatch moves nextIndex down, and it stays above matchIndex. */
  lemma FailureTracked(c: State, n: Id, p: Id)
    requires n in c.nodes && PeerTracked(c, n, p) && At(c.nodes[n].matchIndex, p) + 1 < At(c.nodes[n].nextIndex, p)
    ensures PeerTracked(PutNode(c, n, Backtrack(c.nodes[n], p)), n, p)
  {
  }
}
