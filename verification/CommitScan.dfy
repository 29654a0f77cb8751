// advanceCommit's downward scan finds an order statistic: the largest index
// that more than half of the servers reach, by the leader's own last index and
// its peers' matchIndex values. It is the middle of these values in descending
// order.
module CommitScan {
  import opened RaftTypes
  import opened RaftNode
  import opened Cluster
  import opened Invariants
  import CommitKept
  import Safety
  import Runs

  // ---- counting in a list ---------------------------------------------------------------

  function CountAtLeast(s: seq<nat>, x: nat): nat {
    if s == [] then 0 else CountAtLeast(s[..|s| - 1], x) + if s[|s| - 1] >= x then 1 else 0
  }

  ghost predicate Descending(s: seq<nat>) {
    forall i, j :: 0 <= i < j < |s| ==> s[i] >= s[j]
  }

  lemma {:induction false} CountBound(s: seq<nat>, x: nat)
    ensures CountAtLeast(s, x) <= |s|
  {
    if s != [] { CountBound(s[..|s| - 1], x); }
  }

  lemma {:induction false} CountConcat(s: seq<nat>, t: seq<nat>, x: nat)
    ensures CountAtLeast(s + t, x) == CountAtLeast(s, x) + CountAtLeast(t, x)
  {
    if t == [] {
      assert s + t == s;
    } else {
      assert (s + t)[..|s + t| - 1] == s + t[..|t| - 1];
      CountConcat(s, t[..|t| - 1], x);
    }
  }

  lemma CountWithout(s: seq<nat>, i: nat, x: nat)
    requires i < |s|
    ensures CountAtLeast(s, x) == CountAtLeast(s[..i] + s[i + 1..], x) + if s[i] >= x then 1 else 0
  {
    assert s == s[..i] + [s[i]] + s[i + 1..];
    CountConcat(s[..i] + [s[i]], s[i + 1..], x);
    CountConcat(s[..i], [s[i]], x);
    CountConcat(s[..i], s[i + 1..], x);
  }

  lemma Without(s: seq<nat>, i: nat)
    requires i < |s|
    ensures multiset(s[..i] + s[i + 1..]) == multiset(s) - multiset{s[i]}
  {
    assert s == s[..i] + [s[i]] + s[i + 1..];
  }

  lemma Place(s: seq<nat>, x: nat) returns (i: nat)
    requires x in multiset(s)
    ensures i < |s| && s[i] == x
  {
    i :| i < |s| && s[i] == x;
  }

  /** Counting does not depend on the order. */
  lemma {:induction false} CountPermuted(s: seq<nat>, t: seq<nat>, x: nat)
    requires multiset(s) == multiset(t)
    ensures CountAtLeast(s, x) == CountAtLeast(t, x)
  {
    if s == [] {
      assert |multiset(t)| == 0;
    } else {
      var last := |s| - 1;
      var i := Place(t, s[last]);
      Without(s, last);
      Without(t, i);
      assert s[..last] + s[last + 1..] == s[..last];
      CountPermuted(s[..last], t[..i] + t[i + 1..], x);
      CountWithout(t, i, x);
    }
  }

  /** In a descending list, k elements reach x exactly if the k-th does. */
  lemma {:induction false} CountDescending(s: seq<nat>, k: nat, x: nat)
    requires Descending(s) && 0 < k <= |s|
    ensures CountAtLeast(s, x) >= k <==> s[k - 1] >= x
  {
    var rest := s[..|s| - 1];
    if k == |s| {
      CountBound(rest, x);
      if k > 1 { CountDescending(rest, k - 1, x); }
    } else {
      CountDescending(rest, k, x);
    }
  }

  // ---- the scan ----------------------------------------------------------------------------

  function MatchValues(peers: seq<Id>, matchIndex: map<Id, nat>): seq<nat> {
    if peers == [] then [] else MatchValues(peers[..|peers| - 1], matchIndex) + [At(matchIndex, peers[|peers| - 1])]
  }

  /** How far each server's log is known to reach, the leader's own included. */
  function Reached(n: Node, peers: seq<Id>): seq<nat> {
    MatchValues(peers, n.matchIndex) + [LastIndex(n.log)]
  }

  lemma {:induction false} ReplicasCounted(peers: seq<Id>, matchIndex: map<Id, nat>, x: nat)
    requires forall i, j :: 0 <= i < j < |peers| ==> peers[i] != peers[j]
    ensures |Replicas(peers, matchIndex, x)| == CountAtLeast(MatchValues(peers, matchIndex), x)
    ensures |MatchValues(peers, matchIndex)| == |peers|
  {
    if peers == [] {
      assert Replicas(peers, matchIndex, x) == {};
    } else {
      ReplicasCounted(peers[..|peers| - 1], matchIndex, x);
      LastReplica(peers, matchIndex, x);
    }
  }

  lemma CommittableIsCount(n: Node, peers: seq<Id>, x: nat)
    requires forall i, j :: 0 <= i < j < |peers| ==> peers[i] != peers[j]
    requires x <= LastIndex(n.log)
    ensures Committable(n, peers, x) <==>
            TermAt(n.log, x) == n.meta.currentTerm && 2 * CountAtLeast(Reached(n, peers), x) > |peers| + 1
  {
    MajorityIsMoreThanHalf(|peers| + 1, CountAtLeast(Reached(n, peers), x));
    ReplicasCounted(peers, n.matchIndex, x);
    CountConcat(MatchValues(peers, n.matchIndex), [LastIndex(n.log)], x);
  }

  /** sorted is s in descending order. */
  ghost predicate OrderOf(sorted: seq<nat>, s: seq<nat>) {
    Descending(sorted) && multiset(sorted) == multiset(s)
  }

  lemma {:induction false} Bounded(peers: seq<Id>, matchIndex: map<Id, nat>, top: nat)
    requires forall p :: p in peers ==> At(matchIndex, p) <= top
    ensures |MatchValues(peers, matchIndex)| == |peers|
    ensures forall v :: v in MatchValues(peers, matchIndex) ==> v <= top
  {
    if peers != [] { Bounded(peers[..|peers| - 1], matchIndex, top); }
  }

  lemma ReachedBounded(n: Node, peers: seq<Id>, sorted: seq<nat>)
    requires forall p :: p in peers ==> At(n.matchIndex, p) <= LastIndex(n.log)
    requires OrderOf(sorted, Reached(n, peers))
    ensures |sorted| == |peers| + 1 && forall i :: 0 <= i < |sorted| ==> sorted[i] <= LastIndex(n.log)
  {
    Bounded(peers, n.matchIndex, LastIndex(n.log));
    assert |multiset(sorted)| == |multiset(Reached(n, peers))|;
    forall i | 0 <= i < |sorted| ensures sorted[i] <= LastIndex(n.log) {
      assert sorted[i] in multiset(Reached(n, peers));
      assert sorted[i] in Reached(n, peers);
    }
  }

  /** More than half of the servers reach x exactly if the middle value does. */
  lemma MiddleIsMoreThanHalf(s: seq<nat>, sorted: seq<nat>, x: nat)
    requires OrderOf(sorted, s) && s != []
    ensures |sorted| == |s| && (2 * CountAtLeast(s, x) > |s| <==> sorted[|s| / 2] >= x)
  {
    assert |multiset(sorted)| == |multiset(s)|;
    CountPermuted(sorted, s, x);
    CountDescending(sorted, |s| / 2 + 1, x);
  }

  /** More than half of the servers reach m, and of what lies above it no index is reached by more than half. */
  ghost predicate ReachedByMost(n: Node, peers: seq<Id>, m: nat) {
    && 2 * CountAtLeast(Reached(n, peers), m) > |peers| + 1
    && forall x: nat :: x > m ==> 2 * CountAtLeast(Reached(n, peers), x) <= |peers| + 1
  }

  lemma MiddleReached(n: Node, peers: seq<Id>, sorted: seq<nat>)
    requires OrderOf(sorted, Reached(n, peers)) && |Reached(n, peers)| == |peers| + 1
    ensures |sorted| == |peers| + 1 && ReachedByMost(n, peers, sorted[(|peers| + 1) / 2])
  {
    var s := Reached(n, peers);
    assert |multiset(sorted)| == |multiset(s)|;
    var m := sorted[(|peers| + 1) / 2];
    MiddleIsMoreThanHalf(s, sorted, m);
    forall x: nat | x > m ensures 2 * CountAtLeast(s, x) <= |peers| + 1 { MiddleIsMoreThanHalf(s, sorted, x); }
  }

  lemma ScanTarget(n: Node, peers: seq<Id>, m: nat)
    requires forall i, j :: 0 <= i < j < |peers| ==> peers[i] != peers[j]
    requires ReachedByMost(n, peers, m) && m <= LastIndex(n.log)
    requires WellNumbered(n.log, n.meta.currentTerm)
    ensures CommitTarget(n, peers, LastIndex(n.log)) ==
            if m > n.meta.commitIndex && TermAt(n.log, m) == n.meta.currentTerm then m else n.meta.commitIndex
  {
    var target := CommitTarget(n, peers, LastIndex(n.log));
    CommittableIsCount(n, peers, m);
    if target > n.meta.commitIndex { CommittableIsCount(n, peers, target); }
  }

  /** The scan moves exactly to the largest index that more than half of the servers reach, the middle of the list, if
      that is above commitIndex and its entry is of the current term, and otherwise nowhere. */
  lemma ScanIsOrderStatistic(n: Node, peers: seq<Id>, sorted: seq<nat>)
    requires forall i, j :: 0 <= i < j < |peers| ==> peers[i] != peers[j]
    requires forall p :: p in peers ==> At(n.matchIndex, p) <= LastIndex(n.log)
    requires WellNumbered(n.log, n.meta.currentTerm) && OrderOf(sorted, Reached(n, peers))
    ensures |sorted| == |peers| + 1
    ensures var m := sorted[(|peers| + 1) / 2];
            && ReachedByMost(n, peers, m)
            && CommitTarget(n, peers, LastIndex(n.log)) ==
               if m > n.meta.commitIndex && TermAt(n.log, m) == n.meta.currentTerm then m else n.meta.commitIndex
  {
    ReachedBounded(n, peers, sorted);
    Bounded(peers, n.matchIndex, LastIndex(n.log));
    MiddleReached(n, peers, sorted);
    ScanTarget(n, peers, sorted[(|peers| + 1) / 2]);
  }

  // ---- every list can be put in order -------------------------------------------------------------

  function Insert(s: seq<nat>, x: nat): seq<nat> {
    if s == [] || s[|s| - 1] >= x then s + [x] else Insert(s[..|s| - 1], x) + [s[|s| - 1]]
  }

  lemma {:induction false} Inserted(s: seq<nat>, x: nat)
    ensures multiset(Insert(s, x)) == multiset(s) + multiset{x}
    ensures forall v :: v in Insert(s, x) ==> v in s || v == x
  {
    if s != [] && s[|s| - 1] < x {
      var rest := s[..|s| - 1];
      assert s == rest + [s[|s| - 1]];
      Inserted(rest, x);
      assert forall v :: v in Insert(rest, x) ==> v in rest || v == x;
      assert forall v :: v in rest ==> v in s;
    }
  }

  lemma {:induction false} InsertedInOrder(s: seq<nat>, x: nat)
    requires Descending(s)
    ensures Descending(Insert(s, x))
  {
    if s != [] && s[|s| - 1] < x {
      var rest, last := s[..|s| - 1], s[|s| - 1];
      var r := Insert(rest, x);
      InsertedInOrder(rest, x);
      Inserted(rest, x);
      forall i | 0 <= i < |r| ensures r[i] >= last {
        assert r[i] in rest || r[i] == x;
        if r[i] in rest {
          var j :| 0 <= j < |rest| && rest[j] == r[i];
          assert s[j] == rest[j];
        }
      }
    }
  }

  function Sort(s: seq<nat>): seq<nat> {
    if s == [] then [] else Insert(Sort(s[..|s| - 1]), s[|s| - 1])
  }

  lemma {:induction false} Sorted(s: seq<nat>)
    ensures OrderOf(Sort(s), s)
  {
    if s != [] {
      assert s == s[..|s| - 1] + [s[|s| - 1]];
      Sorted(s[..|s| - 1]);
      Inserted(Sort(s[..|s| - 1]), s[|s| - 1]);
      InsertedInOrder(Sort(s[..|s| - 1]), s[|s| - 1]);
    }
  }

  // ---- in a running cluster ----------------------------------------------------------------------------

  lemma ScanFacts(run: seq<State>, i: nat, n: Id)
    requires IsRun(run) && i < |run| && Leads(run[i], n)
    ensures var c := run[i]; var m := c.nodes[n];
            && WellNumbered(m.log, m.meta.currentTerm)
            && (forall a, b :: 0 <= a < b < |Peers(c, n)| ==> Peers(c, n)[a] != Peers(c, n)[b])
            && (forall p :: p in Peers(c, n) ==> At(m.matchIndex, p) <= LastIndex(m.log))
  {
    Safety.LogNumbered(run, i, n);
    Safety.LeaderFacts(run, i, n);
    ReachableShape(run, i);
    forall p | p in Peers(run[i], n) ensures At(run[i].nodes[n].matchIndex, p) <= LastIndex(run[i].nodes[n].log) {
      Safety.MatchIndexSound(run, i, n, p);
    }
  }

  lemma ReachableShape(run: seq<State>, i: nat)
    requires IsRun(run) && i < |run|
    ensures Shape(run[i])
  {
    Runs.RunKept(run, i);
    Parts(run[i]);
  }

  ghost predicate CommitsOrder(m: Node, peers: seq<Id>, sorted: seq<nat>) {
    && |sorted| == |peers| + 1
    && var k := sorted[(|peers| + 1) / 2];
       AdvanceCommit(m, peers).meta.commitIndex ==
       if k > m.meta.commitIndex && TermAt(m.log, k) == m.meta.currentTerm then k else m.meta.commitIndex
  }

  lemma AdvanceIsScan(m: Node, peers: seq<Id>)
    requires m.role == Leader
    ensures AdvanceCommit(m, peers).meta.commitIndex == CommitTarget(m, peers, LastIndex(m.log))
  {
  }

  /** What a leader's scan commits in any reachable state. */
  lemma LeaderCommitsOrderStatistic(run: seq<State>, i: nat, n: Id, sorted: seq<nat>)
    requires IsRun(run) && i < |run| && Leads(run[i], n) && OrderOf(sorted, Reached(run[i].nodes[n], Peers(run[i], n)))
    ensures CommitsOrder(run[i].nodes[n], Peers(run[i], n), sorted)
  {
    ScanFacts(run, i, n);
    ScanIsOrderStatistic(run[i].nodes[n], Peers(run[i], n), sorted);
    AdvanceIsScan(run[i].nodes[n], Peers(run[i], n));
  }

  /** Once the leader and peers that make more than half of the members are known to hold the whole log, the scan
      commits the whole log. */
  lemma FullReplicationCommitsAll(run: seq<State>, i: nat, n: Id)
    requires IsRun(run) && i < |run| && Leads(run[i], n)
    requires var m := run[i].nodes[n];
             2 * (1 + |(set p | p in Peers(run[i], n) && At(m.matchIndex, p) >= |m.log|)|) > |run[i].members|
    ensures var m := run[i].nodes[n]; AdvanceCommit(m, Peers(run[i], n)).meta.commitIndex == |m.log|
  {
    var m, peers := run[i].nodes[n], Peers(run[i], n);
    Safety.LeaderFacts(run, i, n);
    Safety.LogNumbered(run, i, n);
    Safety.AppliedIsCommitted(run, i, n);
    ReachableShape(run, i);
    CommitKept.PeersCount(run[i], n);
    var known := set p | p in peers && At(m.matchIndex, p) >= |m.log|;
    assert known == Replicas(peers, m.matchIndex, |m.log|);
    MajorityIsMoreThanHalf(|run[i].members|, 1 + |known|);
    assert Committable(m, peers, |m.log|);
  }
}
