// The protocol on the wire and on disk: if the commands clients propose are
// printed faithfully, every message and every log of the whole run is.
module EndToEnd {
  import opened RaftTypes
  import opened RaftNode
  import opened Cluster
  import opened Invariants
  import opened Codec
  import opened LogFile
  import opened Rpc
  import CommitKept
  import CatchUp
  import RaftServer
  import Runs
  import Safety

  // ---- what clients propose ---------------------------------------------------------------

  ghost predicate SizedEvent(e: Event) {
    e.Proposes? || e.CrashesInPropose? ==> SizedCommand(e.command)
  }

  ghost predicate SizedEvents(events: seq<Event>) {
    forall j :: 0 <= j < |events| ==> SizedEvent(events[j])
  }

  /** The run takes exactly these events. */
  ghost predicate RunBy(run: seq<State>, events: seq<Event>) {
    && |run| == |events| + 1 && Initial(run[0])
    && forall i :: 0 <= i < |events| ==> Enabled(run[i], events[i]) && run[i + 1] == Next(run[i], events[i])
  }

  lemma RunByIsRun(run: seq<State>, events: seq<Event>)
    requires RunBy(run, events)
    ensures IsRun(run)
  {
    forall i: nat | i + 1 < |run| ensures StepAt(run, i) {
      assert Enabled(run[i], events[i]) && run[i + 1] == Next(run[i], events[i]);
    }
  }

  // ---- every entry is sized -----------------------------------------------------------------

  ghost predicate SizedCommands(log: seq<Entry>) {
    forall j :: 0 <= j < |log| ==> SizedCommand(log[j].command)
  }

  ghost predicate ReignsSized(c: State) {
    forall t :: t in c.reigns ==> SizedCommands(LogOf(c, t))
  }

  lemma MatchingSized(c: State, log: seq<Entry>)
    requires ReignsSized(c) && Matches(c, log)
    ensures SizedCommands(log)
  {
    if log != [] {
      var t := log[|log| - 1].term;
      assert Shares(log, LogOf(c, t), |log|);
    }
  }

  /** Leader logs stay as they were, but for one more entry with this command at one of them. */
  ghost predicate OneMore(c: State, d: State, n: Id, command: Command) {
    && n in c.nodes
    && forall t :: t in d.reigns ==>
         (t in c.reigns && LogOf(d, t) == LogOf(c, t))
         || LogOf(d, t) == Append(c.nodes[n].(meta := c.nodes[n].meta.(currentTerm := t)), command).log
  }

  lemma OneMoreSized(c: State, d: State, n: Id, command: Command)
    requires ReignsSized(c) && LogsOk(c) && OneMore(c, d, n, command) && SizedCommand(command)
    ensures ReignsSized(d)
  {
    assert Matches(c, c.nodes[n].log);
    MatchingSized(c, c.nodes[n].log);
  }

  lemma CandidacyAdds(c: State, n: Id)
    requires CanTimeout(c, n) && Majority(|Peers(c, n)| + 1) > 1
    ensures TimeoutStep(c, n).reigns == c.reigns
  {
  }

  lemma SoloWinAdds(c: State, n: Id)
    requires CanTimeout(c, n) && Majority(|Peers(c, n)| + 1) <= 1
    ensures OneMore(c, TimeoutStep(c, n), n, NOOP_COMMAND)
  {
    var led := TakeOffice(StartElection(c.nodes[n], n), n, Peers(c, n));
    Runs.AdvanceKeeps(led, Peers(c, n));
    assert TimeoutStep(c, n).nodes[n] == AdvanceCommit(led, Peers(c, n));
  }

  lemma TimeoutAdds(c: State, n: Id)
    requires CanTimeout(c, n)
    ensures OneMore(c, TimeoutStep(c, n), n, NOOP_COMMAND)
  {
    if Majority(|Peers(c, n)| + 1) <= 1 { SoloWinAdds(c, n); } else { CandidacyAdds(c, n); }
  }

  lemma CollectVoteAdds(c: State, i: nat)
    requires ToCollectVote(c, i)
    ensures OneMore(c, CollectVoteStep(c, i), c.voteRpcs[i].src, NOOP_COMMAND)
  {
    var r := c.voteRpcs[i];
    Runs.AdvanceKeeps(TakeOffice(CountVote(c.nodes[r.src]), r.src, Peers(c, r.src)), Peers(c, r.src));
  }

  lemma ProposeAdds(c: State, n: Id, command: Command)
    requires Leads(c, n)
    ensures OneMore(c, ProposeStep(c, n, command), n, command)
            && OneMore(c, CrashInProposeStep(c, n, command), n, command)
  {
    Runs.AdvanceKeeps(Append(c.nodes[n], command), Peers(c, n));
  }

  lemma CrashInTimeoutAdds(c: State, n: Id, inOffice: bool)
    requires CanCrashInTimeout(c, n, inOffice)
    ensures OneMore(c, CrashInTimeoutStep(c, n, inOffice), n, NOOP_COMMAND)
  {
  }

  lemma CrashInCollectVoteAdds(c: State, i: nat)
    requires CanCrashInCollectVote(c, i)
    ensures OneMore(c, CrashInCollectVoteStep(c, i), c.voteRpcs[i].src, NOOP_COMMAND)
  {
  }

  lemma QuietVotes(c: State, e: Event)
    requires Enabled(c, e) && (e.Broadcasts? || e.DeliversVote? || e.CrashesInVote? || e.Crashes?)
    ensures Next(c, e).reigns == c.reigns
  {
  }

  lemma QuietAppends(c: State, e: Event)
    requires Enabled(c, e) && (e.SendsAppend? || e.DeliversAppend? || e.CollectsAppend? || e.CrashesInAppend?)
    ensures Next(c, e).reigns == c.reigns
  {
  }

  lemma CampaignSized(c: State, e: Event)
    requires LogsOk(c) && ReignsSized(c) && Enabled(c, e) && (e.TimesOut? || e.CrashesInTimeout?)
    ensures ReignsSized(Next(c, e))
  {
    match e {
      case TimesOut(n) => TimeoutAdds(c, n);
      case CrashesInTimeout(n, inOffice) => CrashInTimeoutAdds(c, n, inOffice);
    }
    OneMoreSized(c, Next(c, e), e.n, NOOP_COMMAND);
  }

  lemma VictorySized(c: State, e: Event)
    requires LogsOk(c) && ReignsSized(c) && Enabled(c, e) && (e.CollectsVote? || e.CrashesInCollectVote?)
    ensures ReignsSized(Next(c, e))
  {
    match e {
      case CollectsVote(i) => CollectVoteAdds(c, i);
      case CrashesInCollectVote(i) => CrashInCollectVoteAdds(c, i);
    }
    OneMoreSized(c, Next(c, e), c.voteRpcs[e.i].src, NOOP_COMMAND);
  }

  lemma ProposalSized(c: State, e: Event)
    requires LogsOk(c) && ReignsSized(c) && Enabled(c, e) && (e.Proposes? || e.CrashesInPropose?) && SizedEvent(e)
    ensures ReignsSized(Next(c, e))
  {
    ProposeAdds(c, e.n, e.command);
    OneMoreSized(c, Next(c, e), e.n, e.command);
  }

  lemma StepSized(c: State, e: Event)
    requires LogsOk(c) && ReignsSized(c) && Enabled(c, e) && SizedEvent(e)
    ensures ReignsSized(Next(c, e))
  {
    if e.TimesOut? || e.CrashesInTimeout? { CampaignSized(c, e); }
    else if e.CollectsVote? || e.CrashesInCollectVote? { VictorySized(c, e); }
    else if e.Proposes? || e.CrashesInPropose? { ProposalSized(c, e); }
    else if e.Broadcasts? || e.DeliversVote? || e.CrashesInVote? || e.Crashes? { QuietVotes(c, e); }
    else { QuietAppends(c, e); }
  }

  lemma {:induction false} RunSized(run: seq<State>, events: seq<Event>, i: nat)
    requires RunBy(run, events) && i < |run| && SizedEvents(events)
    ensures ReignsSized(run[i])
  {
    if i > 0 {
      RunSized(run, events, i - 1);
      NextSized(run, events, i - 1);
    }
  }

  lemma EventAt(run: seq<State>, events: seq<Event>, i: nat)
    requires RunBy(run, events) && i < |events| && SizedEvents(events)
    ensures Enabled(run[i], events[i]) && run[i + 1] == Next(run[i], events[i]) && SizedEvent(events[i])
  {
  }

  lemma NextSized(run: seq<State>, events: seq<Event>, i: nat)
    requires RunBy(run, events) && i < |events| && SizedEvents(events) && ReignsSized(run[i])
    ensures ReignsSized(run[i + 1])
  {
    RunByIsRun(run, events);
    Safety.AllNumbered(run, i);
    EventAt(run, events, i);
    StepSized(run[i], events[i]);
  }

  // ---- faithful messages and logs ---------------------------------------------------------------

  /** Numbers stay within their fields: ids and terms in 64 bits, log positions in 32 (a message counts entries in
      32). */
  ghost predicate Bounded(c: State) {
    && (forall n :: n in c.nodes ==> n < U64 && Term(c, n) < U64)
    && (forall t :: t in c.reigns ==> |LogOf(c, t)| < U32)
  }

  lemma EntriesSized(log: seq<Entry>, top: nat)
    requires WellNumbered(log, top) && SizedCommands(log) && top < U64 && |log| < U64
    ensures AllSized(log)
  {
  }

  lemma ReignFacts(run: seq<State>, i: nat, t: nat)
    requires IsRun(run) && i < |run| && t in run[i].reigns && Bounded(run[i])
    ensures WellNumbered(LogOf(run[i], t), t) && t < U64
  {
    Runs.RunKept(run, i);
    Parts(run[i]);
    assert ReignElected(run[i], t, run[i].reigns[t]);
  }

  lemma LogEntriesSized(run: seq<State>, events: seq<Event>, i: nat, n: Id)
    requires RunBy(run, events) && i < |run| && SizedEvents(events)
    requires Bounded(run[i]) && n in run[i].nodes
    ensures AllSized(run[i].nodes[n].log)
  {
    RunByIsRun(run, events);
    RunSized(run, events, i);
    Safety.LogFacts(run, i, n);
    MatchingSized(run[i], run[i].nodes[n].log);
    LogShort(run[i], run[i].nodes[n].log);
    EntriesSized(run[i].nodes[n].log, Term(run[i], n));
  }

  lemma LogShort(c: State, log: seq<Entry>)
    requires Matches(c, log) && Bounded(c)
    ensures |log| < U32
  {
    if log != [] { assert Shares(log, LogOf(c, log[|log| - 1].term), |log|); }
  }

  /** Every log, at every moment, is read back from its bytes, so a restart at any moment finds the same log. */
  lemma DisksFaithful(run: seq<State>, events: seq<Event>, i: nat, n: Id)
    requires RunBy(run, events) && i < |run| && SizedEvents(events)
    requires Bounded(run[i]) && n in run[i].nodes
    ensures var m := run[i].nodes[n];
            ParseAll(LogBytes(m.log)) == ParsedLog(m.log, |LogBytes(m.log)|)
            && Recovered(m.meta, ParseAll(LogBytes(m.log)).entries) == Restart(m)
  {
    LogEntriesSized(run, events, i, n);
    LogRoundTrip(run[i].nodes[n].log);
  }

  lemma RequestFacts(run: seq<State>, i: nat, r: nat)
    requires IsRun(run) && i < |run| && r < |run[i].appendRpcs|
    ensures AppendRpcOk(run[i], run[i].appendRpcs[r]) && CommitRpcOk(run[i], run[i].appendRpcs[r].args)
  {
    Runs.RunKept(run, i);
    Parts(run[i]);
  }

  lemma SliceSized(log: seq<Entry>, a: AppendArgs)
    requires AllSized(log) && SliceOf(log, a)
    ensures AllSized(a.entries)
  {
    forall j | 0 <= j < |a.entries| ensures Sized(a.entries[j]) { assert a.entries[j] == log[a.prevLogIndex + j]; }
  }

  lemma RequestFits(c: State, r: AppendRpc)
    requires AppendRpcOk(c, r) && CommitRpcOk(c, r.args) && Bounded(c)
             && WellNumbered(LogOf(c, r.args.term), r.args.term)
    ensures HeaderFits(r.args)
  {
    CommitKept.PrefixWithin(c, LogOf(c, r.args.term), r.args.leaderCommit, r.args.term);
  }

  /** Every AppendEntries ever sent is received as it was sent: all its entries, none dropped or changed, so a follower
      stores exactly as many as the leader credits it with. */
  lemma MessagesFaithful(run: seq<State>, events: seq<Event>, i: nat, r: nat)
    requires RunBy(run, events) && i < |run| && SizedEvents(events)
    requires Bounded(run[i]) && r < |run[i].appendRpcs|
    ensures var a := run[i].appendRpcs[r].args; ParseAppendArgs(AppendArgsBytes(a)) == a
  {
    RunByIsRun(run, events);
    RequestFacts(run, i, r);
    var a := run[i].appendRpcs[r].args;
    ReignFacts(run, i, a.term);
    RunSized(run, events, i);
    EntriesSized(LogOf(run[i], a.term), a.term);
    SliceSized(LogOf(run[i], a.term), a);
    RequestFits(run[i], run[i].appendRpcs[r]);
    AppendArgsRoundTrip(a);
  }

  // ---- what the server methods ask of their callers holds in every run ------------------------------

  /** The entries of every AppendEntries follow its prevLogIndex without a gap. */
  lemma SentInPlace(run: seq<State>, i: nat, r: nat)
    requires IsRun(run) && i < |run| && r < |run[i].appendRpcs|
    ensures var a := run[i].appendRpcs[r].args; RaftServer.InPlace(a.prevLogIndex, a.entries)
  {
    Safety.SliceFacts(run, i, r);
    Safety.AllNumbered(run, i);
    SliceInPlace(LogOf(run[i], run[i].appendRpcs[r].args.term), run[i].appendRpcs[r].args);
  }

  lemma SliceInPlace(log: seq<Entry>, a: AppendArgs)
    requires SliceOf(log, a) && WellNumbered(log, a.term)
    ensures RaftServer.InPlace(a.prevLogIndex, a.entries)
  {
    forall j | 0 <= j < |a.entries| ensures a.entries[j].index == a.prevLogIndex + 1 + j {
      assert a.entries[j] == log[a.prevLogIndex + j];
    }
  }

  lemma NoneBeyondLeader(c: State, log: seq<Entry>, l: Node)
    requires Matches(c, log) && l.meta.currentTerm in c.reigns && l.log == LogOf(c, l.meta.currentTerm)
    ensures CatchUp.NoneBeyond(log, l)
  {
    forall k | |l.log| <= k < |log| ensures log[k].term != l.meta.currentTerm {
      assert Shares(log, LogOf(c, log[k].term), k + 1);
    }
  }

  /** A leader and any peer it replicates to are as the catch-up loop needs them. */
  lemma ReplicationReady(run: seq<State>, i: nat, n: Id, p: Id)
    requires IsRun(run) && i < |run| && Leads(run[i], n) && p in Peers(run[i], n)
    ensures var c := run[i];
            && p in c.nodes && CatchUp.Tracked(c.nodes[n], p) && RaftServer.Indexed(c.nodes[n].log)
            && CatchUp.Agree(c.nodes[p].log, c.nodes[n].log) && CatchUp.NoneBeyond(c.nodes[p].log, c.nodes[n])
  {
    var c := run[i];
    Safety.MatchIndexSound(run, i, n, p);
    Safety.LogNumbered(run, i, n);
    Safety.LogFacts(run, i, p);
    Safety.LeaderFacts(run, i, n);
    NoneBeyondLeader(c, c.nodes[p].log, c.nodes[n]);
    forall k | 0 <= k < |c.nodes[p].log| && k < |c.nodes[n].log| && c.nodes[p].log[k].term == c.nodes[n].log[k].term
      ensures c.nodes[p].log[..k + 1] == c.nodes[n].log[..k + 1]
    {
      Safety.LogMatching(run, i, i, p, n, k);
    }
  }
}
