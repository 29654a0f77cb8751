// The inner loop of replicationLoop against a follower that answers, while
// leadership is kept, clients go on appending and other peers replying: it backs
// up one entry per failure and stops at the first success, which covers all that
// was sent.
module CatchUp {
  import opened RaftTypes
  import N = RaftNode
  import opened RaftServer
  import Reconciliation

  /** Log matching between two logs. */
  ghost predicate Agree(a: seq<Entry>, b: seq<Entry>) {
    forall k :: 0 <= k < |a| && k < |b| && a[k].term == b[k].term ==> a[..k + 1] == b[..k + 1]
  }

  /** The leader's record of the peer is as its protocol keeps it. */
  ghost predicate Tracked(l: Node, p: Id) {
    1 <= At(l.nextIndex, p) <= |l.log| + 1 && At(l.matchIndex, p) <= |l.log|
  }

  lemma ProbeIs(l: Node, self: Id, p: Id)
    requires Tracked(l, p) && Indexed(l.log)
    ensures var args := N.BuildAppend(l, self, p);
            && args.prevLogIndex == At(l.nextIndex, p) - 1 <= |l.log| && args.term == l.meta.currentTerm
            && args.entries == l.log[args.prevLogIndex..] && args.prevLogTerm == N.TermAt(l.log, args.prevLogIndex)
            && InPlace(args.prevLogIndex, args.entries)
  {
  }

  /** A failure lowers nextIndex by one and changes neither log; a probe at position 0 cannot fail. */
  lemma Failure(l: Node, later: Node, f: Node, self: Id, peers: seq<Id>, p: Id)
    requires l.role == Leader && f.meta.currentTerm <= l.meta.currentTerm && Tracked(l, p) && Extends(l, later, p)
    requires !N.PrevMatches(f.log, N.BuildAppend(l, self, p))
    ensures var args := N.BuildAppend(l, self, p); var (g, reply) := N.HandleAppendEntries(f, args);
            && !reply.success && reply.term == args.term == l.meta.currentTerm && At(l.nextIndex, p) > 1
            && g.log == f.log && g.meta.currentTerm == l.meta.currentTerm
            && N.OnAppendReply(later, peers, p, args, reply) ==
               later.(nextIndex := later.nextIndex[p := At(l.nextIndex, p) - 1])
  {
  }

  lemma SlicesConsistent(flog: seq<Entry>, log: seq<Entry>, prev: nat)
    requires Agree(flog, log) && prev <= |log| && prev <= |flog|
    ensures Reconciliation.Consistent(flog, prev, log[prev..])
  {
    var entries := log[prev..];
    forall j | 0 <= j < |entries| && prev + j < |flog| && flog[prev + j].term == entries[j].term
      ensures Reconciliation.SameUpTo(flog, prev, entries, j)
    {
      assert flog[..prev + j + 1] == log[..prev + j + 1];
      forall i | 0 <= i <= j ensures flog[prev + i] == entries[i] {
        assert flog[..prev + j + 1][prev + i] == log[..prev + j + 1][prev + i];
      }
    }
  }

  /** A matching probe leaves the follower with the leader's whole log. */
  lemma MatchCovers(flog: seq<Entry>, log: seq<Entry>, args: AppendArgs)
    requires Agree(flog, log) && args.prevLogIndex <= |log| && args.entries == log[args.prevLogIndex..]
    requires args.prevLogTerm == N.TermAt(log, args.prevLogIndex) && N.PrevMatches(flog, args)
    ensures args.prevLogIndex <= |flog| && log <= N.Reconcile(flog, args.prevLogIndex, args.entries)
  {
    var prev, entries := args.prevLogIndex, args.entries;
    if prev > 0 { assert flog[..prev] == log[..prev]; }
    SlicesConsistent(flog, log, prev);
    Reconciliation.ReconcileIs(flog, prev, entries);
    assert log == log[..prev] + entries;
    if Reconciliation.Present(flog, prev, entries) { WholePresent(flog, log, prev); }
  }

  lemma WholePresent(flog: seq<Entry>, log: seq<Entry>, prev: nat)
    requires prev <= |log| && prev <= |flog| && flog[..prev] == log[..prev]
    requires Reconciliation.Present(flog, prev, log[prev..])
    ensures log <= flog
  {
    forall i | 0 <= i < |log| ensures flog[i] == log[i] {
      if i < prev {
        assert flog[..prev][i] == log[..prev][i];
      } else {
        assert flog[prev + (i - prev)] == log[prev..][i - prev];
      }
    }
  }

  lemma CommitKeepsRecord(n: Node, peers: seq<Id>)
    ensures var m := N.AdvanceCommit(n, peers);
            && m.nextIndex == n.nextIndex && m.matchIndex == n.matchIndex && m.log == n.log && m.role == n.role
            && m.meta.currentTerm == n.meta.currentTerm && m.meta.commitIndex >= n.meta.commitIndex
  {
  }

  lemma FollowerCovered(l: Node, f: Node, self: Id, p: Id)
    requires f.meta.currentTerm <= l.meta.currentTerm && Tracked(l, p) && Indexed(l.log)
    requires Agree(f.log, l.log) && N.PrevMatches(f.log, N.BuildAppend(l, self, p))
    ensures var args := N.BuildAppend(l, self, p); var (g, reply) := N.HandleAppendEntries(f, args);
            reply == AppendReply(l.meta.currentTerm, true) && l.log <= g.log
  {
    ProbeIs(l, self, p);
    MatchCovers(f.log, l.log, N.BuildAppend(l, self, p));
    StoresThenCommits(f, N.BuildAppend(l, self, p));
  }

  lemma StoresThenCommits(f: Node, args: AppendArgs)
    requires f.meta.currentTerm <= args.term && N.PrevMatches(f.log, args) && args.prevLogIndex <= |f.log|
    ensures var (g, reply) := N.HandleAppendEntries(f, args);
            g.log == N.Reconcile(f.log, args.prevLogIndex, args.entries) && reply == AppendReply(args.term, true)
  {
  }

  /** A matching probe, heartbeat or not, has the follower commit what the leader had committed when it was built. */
  lemma FollowerCommits(l: Node, f: Node, self: Id, p: Id)
    requires f.meta.currentTerm <= l.meta.currentTerm && Tracked(l, p) && Indexed(l.log) && Indexed(f.log)
    requires Agree(f.log, l.log) && N.PrevMatches(f.log, N.BuildAppend(l, self, p))
    ensures var g := N.HandleAppendEntries(f, N.BuildAppend(l, self, p)).0;
            g.meta.commitIndex >= Min(l.meta.commitIndex, |l.log|)
  {
    var args := N.BuildAppend(l, self, p);
    ProbeIs(l, self, p);
    MatchCovers(f.log, l.log, args);
    StillIndexed(f.log, args.prevLogIndex, args.entries);
    CommitsReported(f, args);
  }

  lemma StillIndexed(log: seq<Entry>, prev: nat, entries: seq<Entry>)
    requires Indexed(log) && prev <= |log| && InPlace(prev, entries)
    ensures Indexed(N.Reconcile(log, prev, entries))
    ensures N.LastIndex(N.Reconcile(log, prev, entries)) == |N.Reconcile(log, prev, entries)|
  {
    MergedAll(log, prev, entries);
  }

  lemma CommitsReported(f: Node, args: AppendArgs)
    requires f.meta.currentTerm <= args.term && N.PrevMatches(f.log, args) && args.prevLogIndex <= |f.log|
    requires N.LastIndex(N.Reconcile(f.log, args.prevLogIndex, args.entries)) >= args.prevLogIndex + |args.entries|
    ensures N.HandleAppendEntries(f, args).0.meta.commitIndex >=
            Min(args.leaderCommit, args.prevLogIndex + |args.entries|)
  {
  }

  lemma LeaderCredits(l: Node, peers: seq<Id>, p: Id, args: AppendArgs, reply: AppendReply, sentUpTo: nat)
    requires l.role == Leader && At(l.matchIndex, p) <= sentUpTo
    requires reply == AppendReply(l.meta.currentTerm, true) && args.term == l.meta.currentTerm
    requires args.prevLogIndex + |args.entries| == sentUpTo
    ensures var m := N.OnAppendReply(l, peers, p, args, reply);
            At(m.matchIndex, p) == sentUpTo && At(m.nextIndex, p) == sentUpTo + 1 && m.log == l.log
  {
    CommitKeepsRecord(N.Progress(l, p, sentUpTo), peers);
  }

  // ---- what else reaches the leader meanwhile ---------------------------------------------

  /** A client's command, or another peer's reply to an AppendEntries. */
  datatype Arrival = Asked(command: Command) | Replied(peer: Id, args: AppendArgs, reply: AppendReply)

  /** It is not about peer p and does not end the leadership of term t. */
  predicate Compatible(a: Arrival, p: Id, t: nat) {
    a.Replied? ==> a.peer != p && a.reply.term <= t
  }

  predicate AllCompatible(arrivals: seq<Arrival>, p: Id, t: nat) {
    forall i :: 0 <= i < |arrivals| ==> Compatible(arrivals[i], p, t)
  }

  function Take(l: Node, peers: seq<Id>, a: Arrival): Node {
    match a
    case Asked(command) => N.Propose(l, peers, command)
    case Replied(q, args, reply) => N.OnAppendReply(l, peers, q, args, reply)
  }

  /** The leader after these arrivals, one by one. */
  function Serve(l: Node, peers: seq<Id>, arrivals: seq<Arrival>): Node {
    if arrivals == [] then l
    else Take(Serve(l, peers, arrivals[..|arrivals| - 1]), peers, arrivals[|arrivals| - 1])
  }

  /** later is l with more entries of l's term; what else it may have learned is what is committed, and its peers'
      progress. */
  ghost predicate Outgrows(later: Node, l: Node) {
    && later.role == l.role && later.meta.currentTerm == l.meta.currentTerm && l.log <= later.log && Indexed(later.log)
    && later.meta.commitIndex >= l.meta.commitIndex
    && forall k :: |l.log| <= k < |later.log| ==> later.log[k].term == l.meta.currentTerm
  }

  /** ... but not p's. */
  ghost predicate Extends(l: Node, later: Node, p: Id) {
    && Outgrows(later, l)
    && At(later.nextIndex, p) == At(l.nextIndex, p) && At(later.matchIndex, p) == At(l.matchIndex, p)
  }

  lemma AskedExtends(l: Node, peers: seq<Id>, command: Command, p: Id)
    requires Indexed(l.log)
    ensures Extends(l, N.Propose(l, peers, command), p)
  {
    CommitKeepsRecord(N.Append(l, command), peers);
  }

  lemma CommitExtends(l: Node, peers: seq<Id>, p: Id)
    requires Indexed(l.log)
    ensures Extends(l, N.AdvanceCommit(l, peers), p)
  {
    CommitKeepsRecord(l, peers);
  }

  lemma RecordExtends(l: Node, peers: seq<Id>, q: Id, matched: nat, success: bool, p: Id)
    requires Indexed(l.log) && q != p
    ensures Extends(l, N.RecordReply(l, peers, q, matched, success), p)
  {
    if success { CommitExtends(N.Progress(l, q, matched), peers, p); }
  }

  lemma SameExtends(l: Node, p: Id)
    requires Indexed(l.log)
    ensures Extends(l, l, p)
  {
  }

  lemma RepliedExtends(l: Node, peers: seq<Id>, q: Id, args: AppendArgs, reply: AppendReply, p: Id)
    requires Indexed(l.log) && q != p && reply.term <= l.meta.currentTerm
    ensures Extends(l, N.OnAppendReply(l, peers, q, args, reply), p)
  {
    N.ReplyIs(l, peers, q, args, reply);
    SameExtends(l, p);
    RecordExtends(l, peers, q, args.prevLogIndex + |args.entries|, reply.success, p);
  }

  lemma TakeExtends(l: Node, peers: seq<Id>, a: Arrival, p: Id)
    requires Indexed(l.log) && Compatible(a, p, l.meta.currentTerm)
    ensures Extends(l, Take(l, peers, a), p)
  {
    match a
    case Asked(command) => AskedExtends(l, peers, command, p);
    case Replied(q, args, reply) => RepliedExtends(l, peers, q, args, reply, p);
  }

  lemma ExtendsChain(a: Node, b: Node, c: Node, p: Id)
    requires Extends(a, b, p) && Extends(b, c, p)
    ensures Extends(a, c, p)
  {
  }

  lemma {:induction false} ServeExtends(l: Node, peers: seq<Id>, arrivals: seq<Arrival>, p: Id)
    requires Indexed(l.log) && AllCompatible(arrivals, p, l.meta.currentTerm)
    ensures Extends(l, Serve(l, peers, arrivals), p)
    decreases |arrivals|
  {
    if arrivals != [] {
      var rest, last := arrivals[..|arrivals| - 1], arrivals[|arrivals| - 1];
      ServeExtends(l, peers, rest, p);
      TakeExtends(Serve(l, peers, rest), peers, last, p);
      ExtendsChain(l, Serve(l, peers, rest), Serve(l, peers, arrivals), p);
    }
  }

  method TakeArrival(leader: Server, a: Arrival)
    requires leader.Valid() && (a.Asked? ==> leader.role == Leader)
    modifies leader.Repr()
    ensures leader.Valid() && leader.Snapshot() == Take(old(leader.Snapshot()), leader.peers, a)
  {
    match a
    case Asked(command) => var e := leader.AppendForClient(command);
    case Replied(q, args, reply) => var stillLeads := leader.OnAppendReply(q, args, reply);
  }

  method TakeArrivals(leader: Server, ghost p: Id, arrivals: seq<Arrival>)
    requires leader.Valid() && leader.role == Leader && AllCompatible(arrivals, p, leader.metadata.currentTerm)
    modifies leader.Repr()
    ensures leader.Valid() && leader.Snapshot() == Serve(old(leader.Snapshot()), leader.peers, arrivals)
  {
    ghost var l := leader.Snapshot();
    for i := 0 to |arrivals|
      invariant leader.Valid() && leader.Snapshot() == Serve(l, leader.peers, arrivals[..i])
    {
      assert arrivals[..i + 1][..i] == arrivals[..i];
      ServeExtends(l, leader.peers, arrivals[..i], p);
      TakeArrival(leader, arrivals[i]);
    }
    assert arrivals[..|arrivals|] == arrivals;
  }

  // ---- a round ---------------------------------------------------------------------------------

  /** No entry of the leader's term lies beyond the leader's log. */
  ghost predicate NoneBeyond(flog: seq<Entry>, l: Node) {
    forall k :: |l.log| <= k < |flog| ==> flog[k].term != l.meta.currentTerm
  }

  /** So log matching outlives what the leader appends. */
  lemma StillAgree(flog: seq<Entry>, start: Node, l: Node)
    requires Agree(flog, start.log) && NoneBeyond(flog, start) && Outgrows(l, start)
    ensures Agree(flog, l.log)
  {
    forall k | 0 <= k < |flog| && k < |l.log| && flog[k].term == l.log[k].term ensures flog[..k + 1] == l.log[..k + 1] {
      assert k < |start.log|;
      assert flog[..k + 1] == start.log[..k + 1] == l.log[..k + 1];
    }
  }

  /** What the reply to a matching probe records: everything sent, whatever was appended since. */
  lemma Success(l: Node, later: Node, f: Node, self: Id, peers: seq<Id>, p: Id)
    requires l.role == Leader && f.meta.currentTerm <= l.meta.currentTerm && Tracked(l, p)
    requires Indexed(l.log) && Indexed(f.log)
    requires Agree(f.log, l.log) && N.PrevMatches(f.log, N.BuildAppend(l, self, p)) && Extends(l, later, p)
    ensures var args := N.BuildAppend(l, self, p); var (g, reply) := N.HandleAppendEntries(f, args);
            && reply.success && reply.term == args.term == l.meta.currentTerm && l.log <= g.log
            && g.meta.commitIndex >= Min(l.meta.commitIndex, |l.log|)
            && var m := N.OnAppendReply(later, peers, p, args, reply);
            At(m.matchIndex, p) == |l.log| && At(m.nextIndex, p) == |l.log| + 1 && m.log == later.log
  {
    var args := N.BuildAppend(l, self, p);
    ProbeIs(l, self, p);
    FollowerCovered(l, f, self, p);
    FollowerCommits(l, f, self, p);
    LeaderCredits(later, peers, p, args, N.HandleAppendEntries(f, args).1, |l.log|);
  }

  /** Build a probe, and take what else arrives while the lock is free. */
  method Prepare(leader: Server, p: Id, arrivals: seq<Arrival>) returns (args: AppendArgs)
    requires leader.Valid() && leader.role == Leader && Tracked(leader.Snapshot(), p)
    requires AllCompatible(arrivals, p, leader.metadata.currentTerm)
    modifies leader.Repr()
    ensures leader.Valid() && leader.Snapshot() == Serve(old(leader.Snapshot()), leader.peers, arrivals)
    ensures args == N.BuildAppend(old(leader.Snapshot()), leader.self, p) && InPlace(args.prevLogIndex, args.entries)
  {
    ProbeIs(leader.Snapshot(), leader.self, p);
    args := leader.BuildAppend(p);
    TakeArrivals(leader, p, arrivals);
  }

  method Ask(leader: Server, p: Id, follower: Server, arrivals: seq<Arrival>)
    returns (args: AppendArgs, reply: AppendReply)
    requires leader.Valid() && follower.Valid() && leader.Repr() !! follower.Repr()
    requires leader.role == Leader && Tracked(leader.Snapshot(), p)
    requires AllCompatible(arrivals, p, leader.metadata.currentTerm)
    modifies leader.Repr(), follower.Repr()
    ensures leader.Valid() && follower.Valid() && args == N.BuildAppend(old(leader.Snapshot()), leader.self, p)
    ensures leader.Snapshot() == Serve(old(leader.Snapshot()), leader.peers, arrivals)
    ensures (follower.Snapshot(), reply) == N.HandleAppendEntries(old(follower.Snapshot()), args)
  {
    args := Prepare(leader, p, arrivals);
    reply := follower.HandleAppendEntries(args);
  }

  /** One round of the loop: ask, then take the reply. */
  method Probe(leader: Server, p: Id, follower: Server, arrivals: seq<Arrival>) returns (keepGoing: bool)
    requires leader.Valid() && follower.Valid() && leader.Repr() !! follower.Repr()
    requires leader.role == Leader && Tracked(leader.Snapshot(), p)
    requires AllCompatible(arrivals, p, leader.metadata.currentTerm)
    modifies leader.Repr(), follower.Repr()
    ensures leader.Valid() && follower.Valid()
    ensures RoundTaken(old(leader.Snapshot()), old(follower.Snapshot()), leader.self, leader.peers, p, arrivals,
                       leader.Snapshot(), follower.Snapshot(), keepGoing)
  {
    var sentUpTo := |leader.logEntries|;
    var args, reply := Ask(leader, p, follower, arrivals);
    keepGoing := TakeReply(leader, p, args, sentUpTo, reply);
  }

  method TakeReply(leader: Server, p: Id, args: AppendArgs, sentUpTo: nat, reply: AppendReply) returns (keepGoing: bool)
    requires leader.Valid()
    modifies leader, leader.machine, leader.disk`meta, leader.disk`trail
    ensures leader.Valid()
    ensures leader.Snapshot() == N.OnAppendReply(old(leader.Snapshot()), leader.peers, p, args, reply)
    ensures keepGoing == GoesOn(old(leader.Snapshot()), leader.Snapshot(), p, args, sentUpTo, reply)
  {
    var next := At(leader.nextIndex, p);
    var stillLeads := leader.OnAppendReply(p, args, reply);
    keepGoing := stillLeads && if reply.success then At(leader.nextIndex, p) <= sentUpTo else next > 1;
  }

  /** Whether the loop goes on after the reply that turned l into m. */
  predicate GoesOn(l: Node, m: Node, p: Id, args: AppendArgs, sentUpTo: nat, reply: AppendReply) {
    && reply.term <= l.meta.currentTerm == args.term && l.role == Leader
    && if reply.success then At(m.nextIndex, p) <= sentUpTo else At(l.nextIndex, p) > 1
  }

  /** One round turned leader l and follower f into m and g. */
  ghost predicate RoundTaken(l: Node, f: Node, self: Id, peers: seq<Id>, p: Id, arrivals: seq<Arrival>,
                             m: Node, g: Node, keepGoing: bool)
  {
    var args := N.BuildAppend(l, self, p);
    var later := Serve(l, peers, arrivals);
    var (h, reply) := N.HandleAppendEntries(f, args);
    && g == h && m == N.OnAppendReply(later, peers, p, args, reply)
    && keepGoing == GoesOn(later, m, p, args, |l.log|, reply)
  }

  // ---- the loop ----------------------------------------------------------------------------------

  /** After probes rounds, all failures: nextIndex is lower by as much, the leader's log has only grown, and the
      follower's is as it was. */
  ghost predicate BackedUp(start: Node, flog: seq<Entry>, l: Node, f: Node, p: Id, probes: nat) {
    && l.role == Leader && Outgrows(l, start) && At(l.matchIndex, p) == At(start.matchIndex, p)
    && At(l.nextIndex, p) + probes == At(start.nextIndex, p) && At(l.nextIndex, p) >= 1
    && f.log == flog && f.meta.currentTerm <= start.meta.currentTerm
  }

  /** Done: the follower is known to hold, and holds, a prefix of the leader's log that includes all of what the
      leader had when the loop began, and it has committed at least what the leader had committed then. */
  ghost predicate CaughtUp(start: Node, l: Node, g: Node, p: Id) {
    var matched := At(l.matchIndex, p);
    && start.log <= l.log && |start.log| <= matched <= |l.log| && At(l.nextIndex, p) == matched + 1
    && l.log[..matched] <= g.log && g.meta.commitIndex >= Min(start.meta.commitIndex, |start.log|)
  }

  /** What a round makes of both servers. */
  lemma RoundYields(start: Node, flog: seq<Entry>, l: Node, f: Node, self: Id, peers: seq<Id>, p: Id, probes: nat,
                    arrivals: seq<Arrival>, m: Node, g: Node, keepGoing: bool)
    requires BackedUp(start, flog, l, f, p, probes) && Tracked(start, p) && Indexed(flog)
    requires AllCompatible(arrivals, p, l.meta.currentTerm)
    requires Agree(flog, start.log) && NoneBeyond(flog, start)
    requires RoundTaken(l, f, self, peers, p, arrivals, m, g, keepGoing)
    ensures if keepGoing then BackedUp(start, flog, m, g, p, probes + 1) else CaughtUp(start, m, g, p)
  {
    var later := Serve(l, peers, arrivals);
    StillAgree(flog, start, l);
    ServeExtends(l, peers, arrivals, p);
    OutgrowsChain(start, l, later);
    if N.PrevMatches(f.log, N.BuildAppend(l, self, p)) {
      Success(l, later, f, self, peers, p);
      RoundEnds(start, l, f, self, peers, p, later);
    } else {
      RoundFails(start, flog, l, f, self, peers, p, probes, later);
    }
  }

  lemma OutgrowsChain(a: Node, b: Node, c: Node)
    requires Outgrows(b, a) && Outgrows(c, b)
    ensures Outgrows(c, a)
  {
  }

  lemma RoundEnds(start: Node, l: Node, f: Node, self: Id, peers: seq<Id>, p: Id, later: Node)
    requires Outgrows(l, start) && Outgrows(later, l) && l.role == Leader
    requires var args := N.BuildAppend(l, self, p); var (g, reply) := N.HandleAppendEntries(f, args);
             && reply.success && reply.term == args.term == l.meta.currentTerm && l.log <= g.log
             && g.meta.commitIndex >= Min(l.meta.commitIndex, |l.log|)
             && var m := N.OnAppendReply(later, peers, p, args, reply);
             At(m.matchIndex, p) == |l.log| && At(m.nextIndex, p) == |l.log| + 1 && m.log == later.log
    ensures var args := N.BuildAppend(l, self, p); var (g, reply) := N.HandleAppendEntries(f, args);
            var m := N.OnAppendReply(later, peers, p, args, reply);
            !GoesOn(later, m, p, args, |l.log|, reply) && CaughtUp(start, m, g, p)
  {
  }

  lemma RoundFails(start: Node, flog: seq<Entry>, l: Node, f: Node, self: Id, peers: seq<Id>, p: Id, probes: nat,
                   later: Node)
    requires BackedUp(start, flog, l, f, p, probes) && Tracked(start, p)
    requires Extends(l, later, p) && Outgrows(later, start)
    requires !N.PrevMatches(f.log, N.BuildAppend(l, self, p))
    ensures var args := N.BuildAppend(l, self, p); var (g, reply) := N.HandleAppendEntries(f, args);
            var m := N.OnAppendReply(later, peers, p, args, reply);
            GoesOn(later, m, p, args, |l.log|, reply) && BackedUp(start, flog, m, g, p, probes + 1)
  {
    Failure(l, later, f, self, peers, p);
  }

  method Round(leader: Server, p: Id, follower: Server, arrivals: seq<Arrival>,
               ghost start: Node, ghost flog: seq<Entry>, ghost probes: nat)
    returns (keepGoing: bool)
    requires leader.Valid() && follower.Valid() && leader.Repr() !! follower.Repr()
    requires BackedUp(start, flog, leader.Snapshot(), follower.Snapshot(), p, probes)
    requires Tracked(start, p) && Agree(flog, start.log) && NoneBeyond(flog, start)
    requires AllCompatible(arrivals, p, leader.metadata.currentTerm)
    modifies leader.Repr(), follower.Repr()
    ensures leader.Valid() && follower.Valid()
    ensures keepGoing ==> BackedUp(start, flog, leader.Snapshot(), follower.Snapshot(), p, probes + 1)
    ensures !keepGoing ==> CaughtUp(start, leader.Snapshot(), follower.Snapshot(), p)
  {
    ghost var l, f := leader.Snapshot(), follower.Snapshot();
    keepGoing := Probe(leader, p, follower, arrivals);
    RoundYields(start, flog, l, f, leader.self, leader.peers, p, probes, arrivals,
                leader.Snapshot(), follower.Snapshot(), keepGoing);
  }

  /** The loop ends, after at most as many probes as nextIndex was, with the follower caught up, whatever clients have
      the leader append and other peers have it commit meanwhile: arrivals[k] reaches it while the reply to probe k is
      awaited. */
  method Replicate(leader: Server, p: Id, follower: Server, arrivals: seq<seq<Arrival>>) returns (probes: nat)
    requires leader.Valid() && follower.Valid() && leader.Repr() !! follower.Repr()
    requires leader.role == Leader && follower.metadata.currentTerm <= leader.metadata.currentTerm
    requires Tracked(leader.Snapshot(), p) && Agree(follower.logEntries, leader.logEntries)
    requires NoneBeyond(follower.logEntries, leader.Snapshot())
    requires forall k :: 0 <= k < |arrivals| ==> AllCompatible(arrivals[k], p, leader.metadata.currentTerm)
    modifies leader.Repr(), follower.Repr()
    ensures leader.Valid() && follower.Valid()
    ensures 1 <= probes <= At(old(leader.nextIndex), p)
    ensures CaughtUp(old(leader.Snapshot()), leader.Snapshot(), follower.Snapshot(), p)
  {
    ghost var start, flog := leader.Snapshot(), follower.logEntries;
    probes := 0;
    var keepGoing := true;
    while keepGoing
      invariant leader.Valid() && follower.Valid()
      invariant probes <= At(start.nextIndex, p) && (keepGoing || probes >= 1)
      invariant keepGoing ==> BackedUp(start, flog, leader.Snapshot(), follower.Snapshot(), p, probes)
      invariant !keepGoing ==> CaughtUp(start, leader.Snapshot(), follower.Snapshot(), p)
      decreases keepGoing, At(start.nextIndex, p) - probes
    {
      var meanwhile := if probes < |arrivals| then arrivals[probes] else [];
      keepGoing := Round(leader, p, follower, meanwhile, start, flog, probes);
      probes := probes + 1;
    }
  }
}
