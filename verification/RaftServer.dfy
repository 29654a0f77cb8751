// One server (server.cpp): the methods that run under raft_mutex, each proved
// to do what the function of the same step in RaftNode says, and to leave the
// disk holding exactly the metadata and log in memory.
module RaftServer {
  import opened RaftTypes
  import N = RaftNode
  import opened Crc
  import opened Codec
  import opened LogFile
  import opened Storage

  /** Indices count from 1. */
  ghost predicate Indexed(log: seq<Entry>) {
    forall i :: 0 <= i < |log| ==> log[i].index == i + 1
  }

  ghost predicate Distinct(peers: seq<Id>) {
    forall i, j :: 0 <= i < j < |peers| ==> peers[i] != peers[j]
  }

  /** The log after the first i entries sent have been handled; the first k were there already. */
  ghost function Merged(log: seq<Entry>, prev: nat, entries: seq<Entry>, k: nat, i: nat): seq<Entry>
    requires k <= |entries| && i <= |entries| && prev + k <= |log|
  {
    if i <= k then log else log[..prev + k] + entries[k..i]
  }

  ghost predicate InPlace(prev: nat, entries: seq<Entry>) {
    forall i :: 0 <= i < |entries| ==> entries[i].index == prev + 1 + i
  }

  /** What handling the next entry finds and makes of the log. */
  lemma MergedNext(log: seq<Entry>, prev: nat, entries: seq<Entry>, i: nat)
    requires prev <= |log| && InPlace(prev, entries) && i < |entries|
    ensures var k := N.AlreadyPresent(log, prev, entries);
            var now, next, e := Merged(log, prev, entries, k, i), Merged(log, prev, entries, k, i + 1), entries[i];
            && 0 < e.index && (e.index <= |now| ==> (now[e.index - 1].term == e.term <==> i < k))
            && (e.index > |now| ==> i >= k)
            && next == if i < k then now else now[..Min(e.index - 1, |now|)] + [e]
  {
    var k := N.AlreadyPresent(log, prev, entries);
    if i > k {
      var now := Merged(log, prev, entries, k, i);
      assert entries[k..i + 1] == entries[k..i] + [entries[i]];
      assert now[..|now|] == now;
    } else if i == k {
      assert entries[k..k + 1] == [entries[k]];
      assert log[..|log|] == log;
    }
  }

  lemma MergedAll(log: seq<Entry>, prev: nat, entries: seq<Entry>)
    requires prev <= |log| && Indexed(log) && InPlace(prev, entries)
    ensures var k := N.AlreadyPresent(log, prev, entries); var merged := Merged(log, prev, entries, k, |entries|);
            merged == N.Reconcile(log, prev, entries) && Indexed(merged)
  {
    var k := N.AlreadyPresent(log, prev, entries);
    assert entries[k..|entries|] == entries[k..];
  }

  // ---- the disk along a handler -----------------------------------------------------------

  ghost function Printed(n: Node): Durable {
    Durable(n.meta, LogBytes(n.log))
  }

  ghost function AllPrinted(ns: seq<Node>): seq<Durable> {
    if ns == [] then [] else AllPrinted(ns[..|ns| - 1]) + [Printed(ns[|ns| - 1])]
  }

  /** Between before and after, the disk went through the states ns, in this order. */
  ghost predicate Wrote(before: seq<Durable>, after: seq<Durable>, ns: seq<Node>) {
    after == before + AllPrinted(ns)
  }

  lemma WroteNothing(before: seq<Durable>)
    ensures Wrote(before, before, [])
  {
  }

  lemma WroteOne(before: seq<Durable>, n: Node)
    ensures Wrote(before, before + [Printed(n)], [n])
  {
    assert [n][..0] == [];
    assert AllPrinted([n]) == [Printed(n)];
  }

  /** Only metadata and log reach the disk. */
  lemma SamePrint(before: seq<Durable>, after: seq<Durable>, n: Node, m: Node)
    requires Wrote(before, after, [n]) && m.meta == n.meta && m.log == n.log
    ensures Wrote(before, after, [m])
  {
    WroteOne(before, n);
    WroteOne(before, m);
  }

  lemma {:induction false} AllPrintedBoth(ns: seq<Node>, ms: seq<Node>)
    ensures AllPrinted(ns + ms) == AllPrinted(ns) + AllPrinted(ms)
    decreases |ms|
  {
    if ms == [] {
      assert ns + ms == ns;
    } else {
      AllPrintedBoth(ns, ms[..|ms| - 1]);
      assert (ns + ms)[..|ns + ms| - 1] == ns + ms[..|ms| - 1];
    }
  }

  lemma WroteBoth(a: seq<Durable>, b: seq<Durable>, d: seq<Durable>, ns: seq<Node>, ms: seq<Node>)
    requires Wrote(a, b, ns) && Wrote(b, d, ms)
    ensures Wrote(a, d, ns + ms)
  {
    AllPrintedBoth(ns, ms);
  }

  class Server {
    const self: Id
    const peers: seq<Id>
    const disk: Disk
    const machine: KeyValueStore
    var role: Role
    var metadata: MetaData
    var logEntries: seq<Entry>
    var votesReceived: nat
    var leaderId: Id
    var nextIndex: map<Id, nat>
    var matchIndex: map<Id, nat>

    ghost function Snapshot(): Node
      reads this, machine
    {
      Node(role, metadata, logEntries, machine.store, votesReceived, leaderId, nextIndex, matchIndex)
    }

    ghost function Repr(): set<object>
      reads this, disk
    {
      {this, machine, disk, disk.table, disk.table.table}
    }

    /** Sound in memory; the disk may be behind in its metadata. */
    ghost predicate Sound()
      reads Repr()
    {
      && disk.Valid() && disk.log == LogBytes(logEntries)
      && Distinct(peers) && Indexed(logEntries)
    }

    /** The state in which the lock is free. */
    ghost predicate Valid()
      reads Repr()
    {
      Sound() && disk.meta == metadata && metadata.lastApplied <= metadata.commitIndex
    }

    /** A process that has not recovered yet. */
    constructor (id: Id, peerIds: seq<Id>, directory: Disk)
      ensures self == id && peers == peerIds && disk == directory && fresh(machine)
      ensures Snapshot() == Node(Follower, MetaData(0, 0, 0, 0), [], map[], 0, 0, map[], map[])
    {
      self, peers, disk := id, peerIds, directory;
      machine := new KeyValueStore();
      role, metadata, logEntries, votesReceived, leaderId := Follower, MetaData(0, 0, 0, 0), [], 0, 0;
      nextIndex, matchIndex := map[], map[];
    }

    // ---- log access ---------------------------------------------------------------------

    method GetLastLogIndex() returns (index: nat)
      ensures index == N.LastIndex(logEntries)
    {
      index := if logEntries == [] then 0 else logEntries[|logEntries| - 1].index;
    }

    method GetLastLogTerm() returns (term: nat)
      ensures term == N.LastTerm(logEntries)
    {
      term := if logEntries == [] then 0 else logEntries[|logEntries| - 1].term;
    }

    // ---- stepping down, applying, committing -------------------------------------------------

    method StepDown(newTerm: nat)
      requires Valid()
      modifies this`role, this`metadata, this`leaderId, disk`meta, disk`trail
      ensures Valid() && Snapshot() == N.StepDown(old(Snapshot()), newTerm)
      ensures Wrote(old(disk.trail), disk.trail, [Snapshot()])
    {
      role := Follower;
      metadata := metadata.(currentTerm := newTerm, votedFor := 0);
      leaderId := 0;
      disk.UpdateMetaData(metadata);
      WroteOne(old(disk.trail), Snapshot());
    }

    /** Applies what is committed and not applied, as far as the log goes. */
    method ApplyEntries() returns (changed: bool)
      modifies this`metadata, machine
      ensures Snapshot() == N.ApplyCommitted(old(Snapshot()))
      ensures changed <==> metadata != old(metadata)
    {
      ghost var before, upTo := Snapshot(), Min(metadata.commitIndex, |logEntries|);
      changed := false;
      while metadata.lastApplied < metadata.commitIndex
        invariant metadata == before.meta.(lastApplied := metadata.lastApplied)
                  && before.meta.lastApplied <= metadata.lastApplied
        invariant changed <==> metadata.lastApplied > before.meta.lastApplied
        invariant changed ==> metadata.lastApplied <= upTo
        invariant metadata.lastApplied <= |logEntries| ==>
                    machine.store == N.ReplayFrom(before.store, logEntries, before.meta.lastApplied,
                        metadata.lastApplied)
        invariant !changed ==> machine.store == before.store
        decreases metadata.commitIndex - metadata.lastApplied
      {
        var index := metadata.lastApplied + 1;
        if index > |logEntries| { break; }
        machine.ApplyCommand(logEntries[index - 1].command);
        metadata := metadata.(lastApplied := index);
        changed := true;
      }
    }

    /** The metadata reaches the disk if anything was applied. */
    method ApplyCommitted()
      requires Sound()
      modifies this`metadata, machine, disk`meta, disk`trail
      ensures Sound() && Snapshot() == N.ApplyCommitted(old(Snapshot()))
      ensures disk.meta == if metadata == old(metadata) then old(disk.meta) else metadata
      ensures metadata != old(metadata) ==> Wrote(old(disk.trail), disk.trail, [Snapshot()])
    {
      var changed := ApplyEntries();
      if changed { disk.UpdateMetaData(metadata); }
      WroteOne(old(disk.trail), Snapshot());
    }

    /** Raises the commit index, and applies up to it. */
    method CommitTo(index: nat)
      requires Valid() && metadata.commitIndex < index <= N.LastIndex(logEntries)
      modifies this`metadata, machine, disk`meta, disk`trail
      ensures Valid() && Snapshot() == N.CommitTo(old(Snapshot()), index)
      ensures Wrote(old(disk.trail), disk.trail, [Snapshot()])
    {
      metadata := metadata.(commitIndex := index);
      ApplyCommitted();
    }

    /** How many servers, this one included, are known to hold the log up to index. */
    method CountReplicas(index: nat) returns (count: nat)
      requires Distinct(peers)
      ensures count == 1 + |N.Replicas(peers, matchIndex, index)|
    {
      count := 1;
      assert N.Replicas(peers[..0], matchIndex, index) == {};
      for i := 0 to |peers|
        invariant count == 1 + |N.Replicas(peers[..i], matchIndex, index)|
      {
        N.LastReplica(peers[..i + 1], matchIndex, index);
        assert peers[..i + 1][..i] == peers[..i];
        if At(matchIndex, peers[i]) >= index { count := count + 1; }
      }
      assert peers[..|peers|] == peers;
    }

    /** The downward scan. */
    method AdvanceCommit()
      requires Valid()
      modifies this`metadata, machine, disk`meta, disk`trail
      ensures Valid() && Snapshot() == N.AdvanceCommit(old(Snapshot()), peers)
      ensures Wrote(old(disk.trail), disk.trail, N.AdvanceWrites(old(Snapshot()), peers))
    {
      WroteNothing(disk.trail);
      if role != Leader { return; }
      var last := GetLastLogIndex();
      var n: nat := last;
      while n > metadata.commitIndex
        invariant Valid() && n <= last == N.LastIndex(logEntries) && Snapshot() == old(Snapshot())
                  && disk.trail == old(disk.trail)
        invariant N.CommitTarget(Snapshot(), peers, last) == N.CommitTarget(Snapshot(), peers, n)
        decreases n
      {
        if N.TermAt(logEntries, n) == metadata.currentTerm {
          var count := CountReplicas(n);
          if count >= Majority(|peers| + 1) {
            CommitTo(n);
            return;
          }
        }
        n := n - 1;
      }
    }

    // ---- elections -------------------------------------------------------------------------------

    /** Appends an entry of the current term, in memory and on disk. */
    method AppendEntry(command: Command) returns (e: Entry)
      requires Valid()
      modifies this`logEntries, disk`log, disk`trail, disk.table, disk.table.table
      ensures Valid() && e == N.NextEntry(old(Snapshot()), command) && Snapshot() == N.Append(old(Snapshot()), command)
      ensures Wrote(old(disk.trail), disk.trail, [Snapshot()])
    {
      var last := GetLastLogIndex();
      e := Entry(metadata.currentTerm, last + 1, command);
      AppendedBytes(logEntries, e);
      logEntries := logEntries + [e];
      disk.WriteLog(e);
      WroteOne(old(disk.trail), Snapshot());
    }

    /** Every peer starts right behind the log, with nothing known of it. */
    method ResetProgress()
      modifies this`nextIndex, this`matchIndex
      ensures nextIndex == N.AssignAll(old(nextIndex), peers, N.LastIndex(logEntries) + 1)
      ensures matchIndex == N.AssignAll(old(matchIndex), peers, 0)
    {
      var last := GetLastLogIndex();
      for i := 0 to |peers|
        invariant nextIndex == N.AssignAll(old(nextIndex), peers[..i], last + 1)
        invariant matchIndex == N.AssignAll(old(matchIndex), peers[..i], 0)
      {
        assert peers[..i + 1][..i] == peers[..i];
        nextIndex := nextIndex[peers[i] := last + 1];
        matchIndex := matchIndex[peers[i] := 0];
      }
      assert peers[..|peers|] == peers;
    }

    /** Leads, with an entry that opens the term. */
    method OpenTerm()
      requires Valid()
      modifies this`role, this`leaderId, this`logEntries, disk`log, disk`trail, disk.table, disk.table.table
      ensures Valid() && Snapshot() == N.Append(old(Snapshot()).(role := Leader, leaderId := self), NOOP_COMMAND)
      ensures Wrote(old(disk.trail), disk.trail, [Snapshot()])
    {
      role := Leader;
      leaderId := self;
      var noop := AppendEntry(NOOP_COMMAND);
    }

    method StartTracking()
      requires Valid()
      modifies this`nextIndex, this`matchIndex
      ensures Valid() && nextIndex == N.AssignAll(old(nextIndex), peers, N.LastIndex(logEntries) + 1)
      ensures matchIndex == N.AssignAll(old(matchIndex), peers, 0)
    {
      ResetProgress();
    }

    method TakeOffice()
      requires Valid()
      modifies this`role, this`leaderId, this`logEntries, this`nextIndex, this`matchIndex
      modifies disk`log, disk`trail, disk.table, disk.table.table
      ensures Valid() && Snapshot() == N.TakeOffice(old(Snapshot()), self, peers)
      ensures Wrote(old(disk.trail), disk.trail, [Snapshot()])
    {
      OpenTerm();
      ghost var opening := Snapshot();
      StartTracking();
      SamePrint(old(disk.trail), disk.trail, opening, Snapshot());
    }

    method BecomeLeader()
      requires Valid()
      modifies this, machine, disk, disk.table, disk.table.table
      ensures Valid() && Snapshot() == N.BecomeLeader(old(Snapshot()), self, peers)
      ensures Wrote(old(disk.trail), disk.trail, N.LeaderWrites(old(Snapshot()), self, peers))
    {
      TakeOffice();
      ghost var led, trail := Snapshot(), disk.trail;
      AdvanceCommit();
      WroteBoth(old(disk.trail), trail, disk.trail, [led], N.AdvanceWrites(led, peers));
    }

    method StartElection()
      requires Valid()
      modifies this`role, this`metadata, this`leaderId, this`votesReceived, disk`meta, disk`trail
      ensures Valid() && Snapshot() == N.StartElection(old(Snapshot()), self)
      ensures Wrote(old(disk.trail), disk.trail, [Snapshot()])
    {
      role := Candidate;
      metadata := metadata.(currentTerm := metadata.currentTerm + 1);
      metadata := metadata.(votedFor := self);
      leaderId := 0;
      votesReceived := 1;
      disk.UpdateMetaData(metadata);
      WroteOne(old(disk.trail), Snapshot());
    }

    /** The election timer; a server that leads ignores it. Returns whether to broadcast. */
    method ElectionTimeout() returns (broadcast: bool)
      requires Valid()
      modifies this, machine, disk, disk.table, disk.table.table
      ensures Valid() && Snapshot() == if old(role) == Leader
              then old(Snapshot()) else N.OnTimeout(old(Snapshot()), self, peers)
      ensures broadcast <==> old(role) != Leader && Majority(|peers| + 1) > 1
      ensures old(role) != Leader ==> Wrote(old(disk.trail), disk.trail, N.TimeoutWrites(old(Snapshot()), self, peers))
    {
      if role == Leader { return false; }
      StartElection();
      ghost var candidate, trail := Snapshot(), disk.trail;
      broadcast := Majority(|peers| + 1) > 1;
      if broadcast {
        assert N.TimeoutWrites(old(Snapshot()), self, peers) == [candidate];
      } else {
        BecomeLeader();
        WroteBoth(old(disk.trail), trail, disk.trail, [candidate], N.LeaderWrites(candidate, self, peers));
      }
    }

    method PrepareVoteRequest() returns (args: VoteArgs)
      ensures args == N.RequestVotes(Snapshot(), self)
    {
      var lastIndex := GetLastLogIndex();
      var lastTerm := GetLastLogTerm();
      args := VoteArgs(metadata.currentTerm, self, lastIndex, lastTerm);
    }

    /** Step 2 of the voter: a higher term is adopted. */
    method Adopt(term: nat)
      requires Valid()
      modifies this`role, this`metadata, this`leaderId, disk`meta, disk`trail
      ensures Valid() && Snapshot() == N.Adopt(old(Snapshot()), term)
      ensures Wrote(old(disk.trail), disk.trail, if term > old(metadata).currentTerm then [Snapshot()] else [])
    {
      WroteNothing(disk.trail);
      if term > metadata.currentTerm { StepDown(term); }
    }

    method CastVote(args: VoteArgs)
      requires Valid()
      modifies this`metadata, disk`meta, disk`trail
      ensures Valid() && Snapshot() == N.CastVote(old(Snapshot()), args)
      ensures Wrote(old(disk.trail), disk.trail, [Snapshot()])
    {
      metadata := metadata.(votedFor := args.candidateId);
      disk.UpdateMetaData(metadata);
      WroteOne(old(disk.trail), Snapshot());
    }

    /** Whether this server may vote for the candidate, by its vote so far and by the logs. */
    method MayVote(args: VoteArgs) returns (may: bool)
      ensures may == N.Grants(Snapshot(), args)
    {
      var canVote := metadata.votedFor == 0 || metadata.votedFor == args.candidateId;
      var ourTerm := GetLastLogTerm();
      var ourIndex := GetLastLogIndex();
      var logOk := args.lastLogTerm > ourTerm || (args.lastLogTerm == ourTerm && args.lastLogIndex >= ourIndex);
      may := canVote && logOk;
    }

    method HandleRequestVote(args: VoteArgs) returns (reply: VoteReply)
      requires Valid()
      modifies this`role, this`metadata, this`leaderId, disk`meta, disk`trail
      ensures Valid() && (Snapshot(), reply) == N.HandleRequestVote(old(Snapshot()), args)
      ensures Wrote(old(disk.trail), disk.trail, N.VoteWrites(old(Snapshot()), args))
    {
      reply := VoteReply(metadata.currentTerm, false);
      WroteNothing(disk.trail);
      if args.term < metadata.currentTerm { return; }
      Adopt(args.term);
      ghost var adopted, trail := Snapshot(), disk.trail;
      ghost var first := if args.term > old(metadata).currentTerm then [adopted] else [];
      reply := reply.(term := metadata.currentTerm);
      var granted := MayVote(args);
      if granted {
        reply := reply.(voteGranted := true);
        CastVote(args);
        WroteBoth(old(disk.trail), trail, disk.trail, first, [Snapshot()]);
      } else {
        assert first + [] == first;
      }
    }

    method CountVote()
      requires Valid()
      modifies this`votesReceived
      ensures Valid() && Snapshot() == N.CountVote(old(Snapshot()))
    {
      votesReceived := votesReceived + 1;
    }

    method OnVoteReply(electionTerm: nat, reply: VoteReply)
      requires Valid()
      modifies this, machine, disk, disk.table, disk.table.table
      ensures Valid() && Snapshot() == N.OnVoteReply(old(Snapshot()), self, peers, electionTerm, reply)
      ensures Wrote(old(disk.trail), disk.trail, N.VoteReplyWrites(old(Snapshot()), self, peers, electionTerm, reply))
    {
      WroteNothing(disk.trail);
      if reply.term > metadata.currentTerm {
        StepDown(reply.term);
        return;
      }
      if role != Candidate || metadata.currentTerm != electionTerm { return; }
      if reply.voteGranted {
        CountVote();
        if votesReceived >= Majority(|peers| + 1) { BecomeLeader(); }
      }
    }

    // ---- AppendEntries -------------------------------------------------------------------------------

    /** Step 2. */
    method Recognize(args: AppendArgs)
      requires Valid()
      modifies this`role, this`metadata, this`leaderId, disk`meta, disk`trail
      ensures Valid() && Snapshot() == N.Recognize(old(Snapshot()), args)
      ensures Wrote(old(disk.trail), disk.trail, if args.term > old(metadata).currentTerm then [Snapshot()] else [])
    {
      WroteNothing(disk.trail);
      if args.term > metadata.currentTerm {
        metadata := metadata.(currentTerm := args.term);
        metadata := metadata.(votedFor := 0);
        disk.UpdateMetaData(metadata);
      }
      role := Follower;
      leaderId := args.leaderId;
      WroteOne(old(disk.trail), Snapshot());
    }

    /** Steps 4 and 5, entry by entry in place. */
    method StoreEntries(prev: nat, entries: seq<Entry>)
      requires Valid() && prev <= |logEntries| && InPlace(prev, entries)
      modifies this`logEntries, disk`log, disk`trail, disk.table, disk.table.table
      ensures Valid() && logEntries == N.Reconcile(old(logEntries), prev, entries)
      ensures Wrote(old(disk.trail), disk.trail,
                    if N.AlreadyPresent(old(logEntries), prev, entries) < |entries| then [Snapshot()] else [])
    {
      WroteNothing(disk.trail);
      var logChanged := MergeEntries(prev, entries);
      if logChanged { disk.RewriteLog(logEntries); }
      WroteOne(old(disk.trail), Snapshot());
    }

    method MergeEntries(prev: nat, entries: seq<Entry>) returns (logChanged: bool)
      requires Indexed(logEntries) && prev <= |logEntries| && InPlace(prev, entries)
      modifies this`logEntries
      ensures Indexed(logEntries) && logEntries == N.Reconcile(old(logEntries), prev, entries)
      ensures logChanged <==> N.AlreadyPresent(old(logEntries), prev, entries) < |entries|
      ensures !logChanged ==> logEntries == old(logEntries)
    {
      ghost var before, k := logEntries, N.AlreadyPresent(logEntries, prev, entries);
      logChanged := false;
      for i := 0 to |entries|
        invariant logEntries == Merged(before, prev, entries, k, i)
        invariant logChanged <==> i > k
      {
        MergedNext(before, prev, entries, i);
        var index := entries[i].index;
        if index <= |logEntries| {
          if logEntries[index - 1].term != entries[i].term {
            logEntries := logEntries[..index - 1];
            logEntries := logEntries + [entries[i]];
            logChanged := true;
          }
        } else {
          logEntries := logEntries + [entries[i]];
          logChanged := true;
        }
      }
      MergedAll(before, prev, entries);
    }

    /** Step 6. */
    method CommitFrom(args: AppendArgs)
      requires Valid()
      modifies this`metadata, machine, disk`meta, disk`trail
      ensures Valid() && Snapshot() == N.CommitFrom(old(Snapshot()), args)
      ensures Wrote(old(disk.trail), disk.trail, N.CommitWrites(old(Snapshot()), args))
    {
      WroteNothing(disk.trail);
      if args.leaderCommit > metadata.commitIndex {
        var lastNew := args.prevLogIndex + |args.entries|;
        var newCommit := Min(args.leaderCommit, lastNew);
        var last := GetLastLogIndex();
        if newCommit > last { newCommit := last; }
        if newCommit > metadata.commitIndex { CommitTo(newCommit); }
      }
    }

    /** Steps 4 to 6. */
    method Follow(args: AppendArgs)
      requires Valid() && args.prevLogIndex <= |logEntries| && InPlace(args.prevLogIndex, args.entries)
      modifies this`metadata, this`logEntries, machine, disk, disk.table, disk.table.table
      ensures Valid() && Snapshot() == N.CommitFrom(N.StoreEntries(old(Snapshot()), args), args)
      ensures Wrote(old(disk.trail), disk.trail,
                    N.StoreWrites(old(Snapshot()), args) + N.CommitWrites(N.StoreEntries(old(Snapshot()), args), args))
    {
      StoreEntries(args.prevLogIndex, args.entries);
      ghost var stored, trail := Snapshot(), disk.trail;
      CommitFrom(args);
      WroteBoth(old(disk.trail), trail, disk.trail, N.StoreWrites(old(Snapshot()), args), N.CommitWrites(stored, args));
    }

    /** A leader's entries follow prevLogIndex without a gap. */
    method HandleAppendEntries(args: AppendArgs) returns (reply: AppendReply)
      requires Valid() && InPlace(args.prevLogIndex, args.entries)
      modifies this, machine, disk, disk.table, disk.table.table
      ensures Valid() && (Snapshot(), reply) == N.HandleAppendEntries(old(Snapshot()), args)
      ensures Wrote(old(disk.trail), disk.trail, N.AppendWrites(old(Snapshot()), args))
    {
      reply := AppendReply(metadata.currentTerm, false);
      WroteNothing(disk.trail);
      if args.term < metadata.currentTerm { return; }
      Recognize(args);
      ghost var recognized, trail := Snapshot(), disk.trail;
      ghost var first := if args.term > old(metadata).currentTerm then [recognized] else [];
      assert first + [] == first;
      reply := reply.(term := metadata.currentTerm);
      if args.prevLogIndex > 0 {
        if args.prevLogIndex > |logEntries| { return; }
        if N.TermAt(logEntries, args.prevLogIndex) != args.prevLogTerm { return; }
      }
      Follow(args);
      WroteBoth(old(disk.trail), trail, disk.trail, first,
                N.StoreWrites(recognized, args) + N.CommitWrites(N.StoreEntries(recognized, args), args));
      reply := reply.(success := true);
    }

    // ---- replication ----------------------------------------------------------------------------------

    method EntriesFrom(next: nat) returns (entries: seq<Entry>)
      requires next >= 1
      ensures entries == if next - 1 <= |logEntries| then logEntries[next - 1..] else []
    {
      entries := [];
      var i := next;
      while i <= |logEntries|
        invariant next <= i && (i <= |logEntries| + 1 || i == next)
        invariant entries == if next - 1 <= |logEntries| then logEntries[next - 1..i - 1] else []
      {
        entries := entries + [logEntries[i - 1]];
        i := i + 1;
      }
    }

    method BuildAppend(peer: Id) returns (args: AppendArgs)
      ensures args == N.BuildAppend(Snapshot(), self, peer)
    {
      var next := At(nextIndex, peer);
      if next < 1 { next := 1; }
      var prev := next - 1;
      var entries := EntriesFrom(next);
      args := AppendArgs(metadata.currentTerm, self, prev, N.TermAt(logEntries, prev), entries, metadata.commitIndex);
    }

    method RecordSuccess(peer: Id, matched: nat)
      requires Valid()
      modifies this`nextIndex, this`matchIndex
      ensures Valid() && Snapshot() == N.Progress(old(Snapshot()), peer, matched)
    {
      ghost var after := N.Progress(Snapshot(), peer, matched);
      matchIndex := matchIndex[peer := if matched > At(matchIndex, peer) then matched else At(matchIndex, peer)];
      assert matchIndex == after.matchIndex;
      nextIndex := nextIndex[peer := matchIndex[peer] + 1];
    }

    method Credit(peer: Id, matched: nat)
      requires Valid()
      modifies this, machine, disk`meta, disk`trail
      ensures Valid() && Snapshot() == N.AdvanceCommit(N.Progress(old(Snapshot()), peer, matched), peers)
      ensures Wrote(old(disk.trail), disk.trail, N.AdvanceWrites(N.Progress(old(Snapshot()), peer, matched), peers))
    {
      RecordSuccess(peer, matched);
      AdvanceCommit();
    }

    method RecordMismatch(peer: Id)
      requires Valid()
      modifies this`nextIndex
      ensures Valid() && Snapshot() == N.Backtrack(old(Snapshot()), peer)
    {
      if At(nextIndex, peer) > 1 { nextIndex := nextIndex[peer := At(nextIndex, peer) - 1]; }
    }

    method RecordReply(peer: Id, matched: nat, success: bool)
      requires Valid()
      modifies this, machine, disk`meta, disk`trail
      ensures Valid() && Snapshot() == N.RecordReply(old(Snapshot()), peers, peer, matched, success)
      ensures Wrote(old(disk.trail), disk.trail,
                    if success then N.AdvanceWrites(N.Progress(old(Snapshot()), peer, matched), peers) else [])
    {
      WroteNothing(disk.trail);
      if success { Credit(peer, matched); } else { RecordMismatch(peer); }
    }

    /** The reply to args, if the server still leads the term it sent args in. */
    method OnAppendReply(peer: Id, args: AppendArgs, reply: AppendReply) returns (stillLeads: bool)
      requires Valid()
      modifies this, machine, disk`meta, disk`trail
      ensures Valid() && Snapshot() == N.OnAppendReply(old(Snapshot()), peers, peer, args, reply)
      ensures Wrote(old(disk.trail), disk.trail, N.AppendReplyWrites(old(Snapshot()), peers, peer, args, reply))
      ensures stillLeads <==> reply.term <= old(metadata).currentTerm == args.term && old(role) == Leader
    {
      WroteNothing(disk.trail);
      stillLeads := reply.term <= metadata.currentTerm && role == Leader && metadata.currentTerm == args.term;
      if reply.term > metadata.currentTerm {
        StepDown(reply.term);
      } else if stillLeads {
        RecordReply(peer, args.prevLogIndex + |args.entries|, reply.success);
      }
    }

    // ---- clients ---------------------------------------------------------------------------------------

    method NotLeaderMessage() returns (answer: Answer)
      ensures answer == N.Redirect(Snapshot())
    {
      answer := if leaderId == 0 then UnknownLeader else NotLeader(leaderId);
    }

    /** A leader's part of proposeAndWait up to the wait. */
    method AppendForClient(command: Command) returns (e: Entry)
      requires Valid() && role == Leader
      modifies this, machine, disk, disk.table, disk.table.table
      ensures Valid() && e == N.NextEntry(old(Snapshot()), command)
      ensures Snapshot() == N.Propose(old(Snapshot()), peers, command)
      ensures Wrote(old(disk.trail), disk.trail, N.ProposeWrites(old(Snapshot()), peers, command))
    {
      e := AppendEntry(command);
      ghost var appended, trail := Snapshot(), disk.trail;
      AdvanceCommit();
      WroteBoth(old(disk.trail), trail, disk.trail, [appended], N.AdvanceWrites(appended, peers));
    }

    /** proposeAndWait up to the wait: a server that does not lead redirects and changes nothing. */
    method Propose(command: Command) returns (proposal: Proposal)
      requires Valid()
      modifies this, machine, disk, disk.table, disk.table.table
      ensures Valid()
      ensures old(role) != Leader ==>
                proposal == Refused(N.Redirect(old(Snapshot()))) && Snapshot() == old(Snapshot())
                    && disk.trail == old(disk.trail)
      ensures old(role) == Leader ==>
                && proposal == Pending(N.NextEntry(old(Snapshot()), command))
                && Snapshot() == N.Propose(old(Snapshot()), peers, command)
                && Wrote(old(disk.trail), disk.trail, N.ProposeWrites(old(Snapshot()), peers, command))
    {
      if role != Leader {
        var answer := NotLeaderMessage();
        return Refused(answer);
      }
      var e := AppendForClient(command);
      proposal := Pending(e);
    }

    /** proposeAndWait after the wait. */
    method Conclude(running: bool, e: Entry, isRead: bool, key: Bytes) returns (answer: Answer)
      ensures answer == N.Conclude(Snapshot(), running, e, isRead, key)
    {
      if !running { return ShuttingDown; }
      if metadata.commitIndex < e.index || role != Leader {
        if role != Leader {
          answer := NotLeaderMessage();
          return;
        }
        return CommitTimeout;
      }
      if isRead {
        var present := machine.Has(key);
        if present {
          var value := machine.Get(key);
          return Value(value);
        }
        return NotFound;
      }
      return Done(e.index, e.term);
    }

    // ---- recovery -----------------------------------------------------------------------------------------

    method ReplayCommitted(log: seq<Entry>, commit: nat)
      requires commit <= |log|
      modifies machine
      ensures old(machine.store) == map[] ==> machine.store == Replay(log[..commit])
    {
      for i := 0 to commit
        invariant old(machine.store) == map[] ==> machine.store == Replay(log[..i])
      {
        assert log[..i + 1][..i] == log[..i];
        machine.ApplyCommand(log[i].command);
      }
    }

    /** The entries that parse; what does not is cut off the file. */
    method LoadLog()
      requires disk.Valid()
      modifies this`logEntries, disk`log, disk`trail, disk.table, disk.table.table
      ensures disk.Valid() && logEntries == ParseAll(old(disk.log)).entries && disk.log == LogBytes(logEntries)
      ensures disk.trail == old(disk.trail)
              || disk.trail == old(disk.trail) + [Durable(disk.meta, disk.log)]
    {
      var entries, validBytes := disk.ReadLogs();
      logEntries := entries;
      ParseThenPrint(disk.log);
      assert disk.log[..|disk.log|] == disk.log;
      if |disk.log| > validBytes { disk.TruncateLogFile(validBytes); }
    }

    method LoadCommitted()
      requires disk.meta == metadata && machine.store == map[]
      modifies this`metadata, machine, disk`meta, disk`trail
      ensures metadata == N.Recovered(old(metadata), logEntries).meta == disk.meta
      ensures machine.store == N.Recovered(old(metadata), logEntries).store
      ensures disk.trail == old(disk.trail) + [Durable(disk.meta, disk.log)]
    {
      if metadata.commitIndex > |logEntries| { metadata := metadata.(commitIndex := |logEntries|); }
      metadata := metadata.(lastApplied := 0);
      ReplayCommitted(logEntries, metadata.commitIndex);
      metadata := metadata.(lastApplied := metadata.commitIndex);
      disk.UpdateMetaData(metadata);
    }

    /** A fresh process loads what its disk holds, drops what does not parse, and replays what was committed. */
    method Recover()
      requires disk.Valid() && Snapshot() == Node(Follower, MetaData(0, 0, 0, 0), [], map[], 0, 0, map[], map[])
      modifies this, machine, disk, disk.table, disk.table.table
      ensures disk.Valid() && Snapshot() == N.Recovered(old(disk.meta), ParseAll(old(disk.log)).entries)
      ensures disk.meta == metadata && disk.log == LogBytes(logEntries)
      ensures Distinct(peers) && Indexed(logEntries) ==> Valid()
      ensures RecoversAlike(old(disk.trail), disk.trail, Snapshot())
    {
      metadata := disk.GetMetaData();
      ParseThenPrint(disk.log);
      LoadLog();
      ghost var loaded := Durable(metadata, disk.log);
      LoadCommitted();
      PrintedRecovers(loaded.meta, logEntries);
    }
  }

  /** Whatever the disk held between before and after, a process starting from it would come up as n. */
  ghost predicate RecoversAlike(before: seq<Durable>, after: seq<Durable>, n: Node) {
    && before <= after
    && forall k :: |before| <= k < |after| ==> Recovering(after[k]) == n
  }

  ghost function Recovering(d: Durable): Node {
    N.Recovered(d.meta, ParseAll(d.log).entries)
  }

  /** Recovering twice is recovering once. */
  lemma PrintedRecovers(meta: MetaData, log: seq<Entry>)
    requires AllSized(log)
    ensures var n := N.Recovered(meta, log);
            Recovering(Durable(meta, LogBytes(log))) == n && Recovering(Durable(n.meta, LogBytes(log))) == n
  {
    LogRoundTrip(log);
  }
}
