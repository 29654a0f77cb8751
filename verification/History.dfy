// Along a run history only grows, and no server's term or commit index ever
// falls, whatever is delayed, lost or crashes.
module History {
  import opened RaftTypes
  import opened RaftNode
  import opened Cluster
  import opened Invariants
  import opened ElementarySteps
  import ElectionKept
  import LogKept
  import CommitKept
  import ProgressKept
  import StepsKept
  import Runs

  // ---- history only grows, commit indices never fall -------------------------------------

  /** What one step does to history and to commit indices. */
  ghost predicate Onward(c: State, d: State) {
    && CommitKept.HistoryGrows(c, d) && d.nodes.Keys == c.nodes.Keys
    && (forall n :: n in c.nodes ==> c.nodes[n].meta.commitIndex <= d.nodes[n].meta.commitIndex)
    && (forall n :: n in c.nodes ==> Term(c, n) <= Term(d, n))
  }

  lemma OnwardChains(a: State, b: State, c: State)
    requires Onward(a, b) && Onward(b, c)
    ensures Onward(a, c)
  {
    forall t | t in a.reigns ensures t in c.reigns && LogKept.Grown(a.reigns[t], c.reigns[t]) {
      assert LogKept.Grown(a.reigns[t], b.reigns[t]) && LogKept.Grown(b.reigns[t], c.reigns[t]);
    }
  }

  lemma AdvanceOnward(n: Node, peers: seq<Id>)
    ensures var m := AdvanceCommit(n, peers);
            m.meta.commitIndex >= n.meta.commitIndex && m.meta.currentTerm == n.meta.currentTerm && m.log == n.log
  {
  }

  lemma FollowOnward(n: Node, args: AppendArgs)
    ensures var m := CommitFrom(n, args);
            m.meta.commitIndex >= n.meta.commitIndex && m.meta.currentTerm == n.meta.currentTerm
  {
  }

  lemma RebootOnward(c: State, n: Id)
    requires n in c.nodes && NodeApplied(c.nodes[n])
    ensures Onward(c, Reboot(c, n))
  {
  }

  lemma RebootChains(c: State, d: State, n: Id)
    requires Onward(c, d) && n in d.nodes && NodeApplied(d.nodes[n])
    ensures Onward(c, Reboot(d, n))
  {
    RebootOnward(d, n);
    OnwardChains(c, d, Reboot(d, n));
  }

  /** One server moved on, with history as it was but for acks that grew. */
  ghost predicate Moved(c: State, d: State, n: Id) {
    && n in c.nodes && n in d.nodes && d.nodes == c.nodes[n := d.nodes[n]] && d.members == c.members
    && d.reigns == c.reigns && ProgressKept.AcksGrow(c, d)
    && c.nodes[n].meta.commitIndex <= d.nodes[n].meta.commitIndex && Term(c, n) <= Term(d, n)
  }

  lemma MovedOnward(c: State, d: State, n: Id)
    requires Moved(c, d, n)
    ensures Onward(c, d)
  {
  }

  /** A term nobody led gets its leader. */
  lemma NewReignOnward(c: State, d: State, n: Id, t: nat)
    requires n in c.nodes && n in d.nodes && d.nodes == c.nodes[n := d.nodes[n]] && d.members == c.members
    requires AcksOk(c) && t !in c.reigns && t in d.reigns && d.reigns == c.reigns[t := d.reigns[t]]
    requires (t, n) in d.acked && d.acked == c.acked[(t, n) := d.acked[(t, n)]]
    requires c.nodes[n].meta.commitIndex <= d.nodes[n].meta.commitIndex && Term(c, n) <= Term(d, n)
    ensures Onward(c, d)
  {
    forall u, v | (u, v) in c.acked ensures u in c.reigns { assert AckOk(c, u, v, c.acked[(u, v)]); }
  }

  lemma CandidateOnward(c: State, n: Id)
    requires Shape(c) && CanTimeout(c, n) && Quorum(c) > 1
    ensures Onward(c, TimeoutStep(c, n))
  {
    CommitKept.PeersCount(c, n);
    MovedOnward(c, TimeoutStep(c, n), n);
  }

  lemma SoloOnward(c: State, n: Id)
    requires Shape(c) && AcksOk(c) && CanTimeout(c, n) && Quorum(c) <= 1 && Term(c, n) + 1 !in c.reigns
    ensures Onward(c, TimeoutStep(c, n))
  {
    SoloReign(c, n);
    NewReignOnward(c, TimeoutStep(c, n), n, Term(c, n) + 1);
  }

  lemma SoloReign(c: State, n: Id)
    requires Shape(c) && CanTimeout(c, n) && Quorum(c) <= 1
    ensures var d := TimeoutStep(c, n); var t := Term(c, n) + 1;
            && n in d.nodes && d.nodes == c.nodes[n := d.nodes[n]] && d.members == c.members
            && t in d.reigns && d.reigns == c.reigns[t := d.reigns[t]]
            && (t, n) in d.acked && d.acked == c.acked[(t, n) := d.acked[(t, n)]]
            && c.nodes[n].meta.commitIndex <= d.nodes[n].meta.commitIndex && Term(d, n) == t
  {
    CommitKept.PeersCount(c, n);
    AdvanceOnward(TakeOffice(StartElection(c.nodes[n], n), n, Peers(c, n)), Peers(c, n));
  }

  lemma TimeoutOnward(c: State, n: Id)
    requires Inv(c) && CanTimeout(c, n)
    ensures Onward(c, TimeoutStep(c, n))
  {
    ShapeOf(c);
    AcksOf(c);
    if Quorum(c) <= 1 {
      ElectionsOf(c);
      SoloTermFree(c, n);
      SoloOnward(c, n);
    } else {
      CandidateOnward(c, n);
    }
  }

  lemma FreeOf(c: State, d: State, n: Id, t: nat)
    requires ElectionInv(d) && Elected(d, n) && Term(d, n) == t && d.reigns == c.reigns
    ensures t !in c.reigns
  {
    ElectionKept.TermIsFree(d, n);
  }

  lemma CandidacyElections(c: State, n: Id)
    requires ElectionInv(c) && n in c.nodes
    ensures ElectionInv(Candidacy(c, n)) && Term(Candidacy(c, n), n) == Term(c, n) + 1
            && Candidacy(c, n).reigns == c.reigns
  {
    ElectionKept.CandidacyKept(c, n, c.broadcasting);
    assert Candidacy(c, n).(broadcasting := c.broadcasting) == Candidacy(c, n);
  }

  lemma SoloTermFree(c: State, n: Id)
    requires ElectionInv(c) && n in c.nodes && Quorum(c) <= 1
    ensures Term(c, n) + 1 !in c.reigns
  {
    CandidacyElections(c, n);
    Runs.SoloElected(c, n);
    FreeOf(c, Candidacy(c, n), n, Term(c, n) + 1);
  }

  lemma WinnerTermFree(c: State, i: nat)
    requires Inv(c) && ToCollectVote(c, i) && WinsWith(c, i)
    ensures c.voteRpcs[i].args.term !in c.reigns
  {
    ShapeOf(c);
    StepsKept.CountedKept(c, i);
    Runs.WinnerElected(c, i);
    ElectionsOf(Counted(c, i));
    ElectionKept.TermIsFree(Counted(c, i), c.voteRpcs[i].src);
  }

  lemma DeliverVoteOnward(c: State, i: nat)
    requires ToDeliverVote(c, i)
    ensures Onward(c, DeliverVoteStep(c, i))
  {
    MovedOnward(c, DeliverVoteStep(c, i), c.voteRpcs[i].dst);
  }

  lemma CollectVoteOnward(c: State, i: nat)
    requires Inv(c) && ToCollectVote(c, i)
    ensures Onward(c, CollectVoteStep(c, i))
  {
    AcksOf(c);
    var r := c.voteRpcs[i];
    if WinsWith(c, i) {
      WinnerTermFree(c, i);
      WonVoteOnward(c, i);
    } else {
      LostVoteOnward(c, i);
    }
  }

  lemma WonVoteOnward(c: State, i: nat)
    requires AcksOk(c) && ToCollectVote(c, i) && WinsWith(c, i) && c.voteRpcs[i].args.term !in c.reigns
    ensures Onward(c, CollectVoteStep(c, i))
  {
    var r := c.voteRpcs[i];
    AdvanceOnward(TakeOffice(CountVote(c.nodes[r.src]), r.src, Peers(c, r.src)), Peers(c, r.src));
    NewReignOnward(c, CollectVoteStep(c, i), r.src, r.args.term);
  }

  lemma LostVoteOnward(c: State, i: nat)
    requires ToCollectVote(c, i) && !WinsWith(c, i)
    ensures Onward(c, CollectVoteStep(c, i))
  {
    MovedOnward(c, CollectVoteStep(c, i), c.voteRpcs[i].src);
  }

  lemma AppendHandlerOnward(n: Node, args: AppendArgs)
    ensures var m := HandleAppendEntries(n, args).0;
            m.meta.commitIndex >= n.meta.commitIndex && m.meta.currentTerm >= n.meta.currentTerm
  {
    var f := Recognize(n, args);
    if PrevMatches(f.log, args) { FollowOnward(StoreEntries(f, args), args); }
  }

  lemma DeliverAppendOnward(c: State, i: nat)
    requires ToDeliverAppend(c, i)
    ensures Onward(c, DeliverAppendStep(c, i))
  {
    AppendHandlerOnward(c.nodes[c.appendRpcs[i].dst], c.appendRpcs[i].args);
    MovedOnward(c, DeliverAppendStep(c, i), c.appendRpcs[i].dst);
  }

  lemma CollectAppendOnward(c: State, i: nat)
    requires ToCollectAppend(c, i)
    ensures Onward(c, CollectAppendStep(c, i))
  {
    var r := c.appendRpcs[i];
    AdvanceOnward(Progress(c.nodes[r.src], r.dst, r.args.prevLogIndex + |r.args.entries|), Peers(c, r.src));
    MovedOnward(c, CollectAppendStep(c, i), r.src);
  }

  lemma AppendedOnward(c: State, n: Id, command: Command)
    requires ReignsElected(c) && ReignsOk(c) && AcksOk(c) && Leads(c, n)
    ensures Onward(c, Appended(c, n, command))
  {
    LogKept.OnlyLeader(c, n);
    LogKept.AppendedLed(c, n, command);
    StepsKept.AppendedAcks(c, n, command);
  }

  lemma ProposeOnward(c: State, n: Id, command: Command)
    requires ReignsElected(c) && ReignsOk(c) && AcksOk(c) && Leads(c, n)
    ensures Onward(c, ProposeStep(c, n, command))
  {
    Runs.ProposeIs(c, n, command);
    AppendedOnward(c, n, command);
    AdvanceOnward(Append(c.nodes[n], command), Peers(c, n));
    MovedOnward(Appended(c, n, command), ProposeStep(c, n, command), n);
    OnwardChains(c, Appended(c, n, command), ProposeStep(c, n, command));
  }

  // ---- crashes ------------------------------------------------------------------------------

  lemma CrashInCandidacyOnward(c: State, n: Id)
    requires CanTimeout(c, n) && NodeApplied(c.nodes[n])
    ensures Onward(c, CrashInTimeoutStep(c, n, false))
  {
    var cand := StartElection(c.nodes[n], n);
    var x := RecordVote(PutNode(c, n, cand), cand.meta.currentTerm, n, n, cand.log);
    MovedOnward(c, x, n);
    LongerApplied(c.nodes[n], cand);
    RebootChains(c, x, n);
  }

  /** The cluster when a server without peers has its opening entry on disk. */
  function SoloOffice(c: State, n: Id): State
    requires n in c.nodes
  {
    var cand := StartElection(c.nodes[n], n);
    var x := RecordVote(PutNode(c, n, cand), cand.meta.currentTerm, n, n, cand.log);
    EnterReign(PutNode(x, n, TakeOffice(cand, n, Peers(c, n))), n, {n})
  }

  lemma SoloOfficeOnward(c: State, n: Id)
    requires AcksOk(c) && n in c.nodes && NodeApplied(c.nodes[n]) && Term(c, n) + 1 !in c.reigns
    ensures Onward(c, SoloOffice(c, n)) && NodeApplied(SoloOffice(c, n).nodes[n])
  {
    var led := TakeOffice(StartElection(c.nodes[n], n), n, Peers(c, n));
    assert SoloOffice(c, n).nodes == c.nodes[n := led];
    NewReignOnward(c, SoloOffice(c, n), n, Term(c, n) + 1);
    LongerApplied(c.nodes[n], led);
  }

  lemma CrashInOfficeIs(c: State, n: Id)
    requires CanCrashInTimeout(c, n, true)
    ensures CrashInTimeoutStep(c, n, true) == Reboot(SoloOffice(c, n), n)
  {
  }

  lemma CrashInOfficeOnward(c: State, n: Id)
    requires AcksOk(c) && CanCrashInTimeout(c, n, true) && NodeApplied(c.nodes[n]) && Term(c, n) + 1 !in c.reigns
    ensures Onward(c, CrashInTimeoutStep(c, n, true))
  {
    SoloOfficeOnward(c, n);
    CrashInOfficeIs(c, n);
    RebootChains(c, SoloOffice(c, n), n);
  }

  lemma CrashInTimeoutOnward(c: State, n: Id, inOffice: bool)
    requires AcksOk(c) && CanCrashInTimeout(c, n, inOffice) && NodeApplied(c.nodes[n])
    requires inOffice ==> Term(c, n) + 1 !in c.reigns
    ensures Onward(c, CrashInTimeoutStep(c, n, inOffice))
  {
    if inOffice { CrashInOfficeOnward(c, n); } else { CrashInCandidacyOnward(c, n); }
  }

  lemma LongerApplied(a: Node, b: Node)
    requires NodeApplied(a) && b.store == a.store && Shares(b.log, a.log, |a.log|)
    requires b.meta.commitIndex == a.meta.commitIndex && b.meta.lastApplied == a.meta.lastApplied
    ensures NodeApplied(b)
  {
    assert b.log[..b.meta.commitIndex] == a.log[..a.meta.commitIndex];
  }

  lemma CrashInVoteOnward(c: State, i: nat, voted: bool)
    requires CanCrashInVote(c, i, voted) && NodeApplied(c.nodes[c.voteRpcs[i].dst])
    ensures Onward(c, CrashInVoteStep(c, i, voted))
  {
    var r := c.voteRpcs[i];
    var a := Adopt(c.nodes[r.dst], r.args.term);
    var x := MarkVote(PutNode(c, r.dst, if voted then CastVote(a, r.args) else a), i, Dropped);
    var y := if voted then RecordVote(x, r.args.term, r.dst, r.args.candidateId, a.log) else x;
    MovedOnward(c, y, r.dst);
    LongerApplied(c.nodes[r.dst], y.nodes[r.dst]);
    RebootChains(c, y, r.dst);
  }

  lemma CrashInCollectVoteOnward(c: State, i: nat)
    requires AcksOk(c) && CanCrashInCollectVote(c, i) && NodeApplied(c.nodes[c.voteRpcs[i].src])
    requires c.voteRpcs[i].args.term !in c.reigns
    ensures Onward(c, CrashInCollectVoteStep(c, i))
  {
    var r := c.voteRpcs[i];
    var m := TakeOffice(CountVote(c.nodes[r.src]), r.src, Peers(c, r.src));
    var x := MarkVote(PutNode(c, r.src, m), i, Taken(r.status.reply));
    var y := EnterReign(x, r.src, Supporters(x.voteRpcs, r.src, r.args.term));
    NewReignOnward(c, y, r.src, r.args.term);
    LongerApplied(c.nodes[r.src], m);
    RebootChains(c, y, r.src);
  }

  lemma RecognizedCommits(c: State, i: nat)
    requires Inv(c) && CanCrashInAppend(c, i, 0)
    ensures CommitInv(Runs.Recognized(c, i))
  {
    Runs.RecognizedKept(c, i);
    CommitsOf(Runs.Recognized(c, i));
  }

  lemma RecognizedStored(c: State, i: nat, stage: nat)
    requires Inv(c) && CanCrashInAppend(c, i, stage) && stage > 0
    ensures var d := Runs.Recognized(c, i);
            MayAccept(d, i) && CommitInv(Accepted(d, i)) && CommitInv(Runs.Followed(Accepted(d, i), i))
  {
    Runs.RecognizedKept(c, i);
    StoredCommits(Runs.Recognized(c, i), i);
  }

  lemma EarlyCrash(c: State, i: nat)
    requires Inv(c) && CanCrashInAppend(c, i, 0)
    ensures Onward(c, CrashInAppendStep(c, i, 0))
  {
    RecognizedCommits(c, i);
    EarlyCrashOnward(c, i);
  }

  lemma LateCrash(c: State, i: nat, stage: nat)
    requires Inv(c) && CanCrashInAppend(c, i, stage) && stage > 0
    ensures Onward(c, CrashInAppendStep(c, i, stage))
  {
    RecognizedStored(c, i, stage);
    LateCrashOnward(c, i, stage);
  }

  lemma StoredCommits(c: State, i: nat)
    requires Inv(c) && MayAccept(c, i)
    ensures CommitInv(Accepted(c, i)) && CommitInv(Runs.Followed(Accepted(c, i), i))
  {
    Runs.FollowedKept(c, i);
    CommitsOf(Accepted(c, i));
    CommitsOf(Runs.Followed(Accepted(c, i), i));
  }

  lemma EarlyCrashOnward(c: State, i: nat)
    requires CanCrashInAppend(c, i, 0) && CommitInv(Runs.Recognized(c, i))
    ensures Onward(c, CrashInAppendStep(c, i, 0))
  {
    var v := c.appendRpcs[i].dst;
    Runs.CrashInAppendIs(c, i, 0);
    var y := MarkAppend(Runs.Recognized(c, i), i, Dropped);
    assert NodeApplied(y.nodes[v]);
    MovedOnward(c, y, v);
    RebootChains(c, y, v);
  }

  /** x is the cluster when the crash comes. */
  lemma CrashFrom(c: State, i: nat, stage: nat, x: State, v: Id)
    requires CanCrashInAppend(c, i, stage) && v == c.appendRpcs[i].dst && v in x.nodes && NodeApplied(x.nodes[v])
    requires x.appendRpcs == c.appendRpcs && CrashInAppendStep(c, i, stage) == Reboot(MarkAppend(x, i, Dropped), v)
    requires Moved(c, x, v)
    ensures Onward(c, CrashInAppendStep(c, i, stage))
  {
    MovedOnward(c, MarkAppend(x, i, Dropped), v);
    RebootChains(c, MarkAppend(x, i, Dropped), v);
  }

  lemma StoredMoved(c: State, i: nat)
    requires ToDeliverAppend(c, i) && MayAccept(Runs.Recognized(c, i), i)
    ensures Moved(c, Accepted(Runs.Recognized(c, i), i), c.appendRpcs[i].dst)
    ensures Moved(c, Runs.Followed(Accepted(Runs.Recognized(c, i), i), i), c.appendRpcs[i].dst)
  {
    var r := c.appendRpcs[i];
    Runs.StoredNode(c, i);
    FollowOnward(StoreEntries(Recognize(c.nodes[r.dst], r.args), r.args), r.args);
  }

  lemma LateCrashOnward(c: State, i: nat, stage: nat)
    requires CanCrashInAppend(c, i, stage) && stage > 0 && MayAccept(Runs.Recognized(c, i), i)
    requires CommitInv(Accepted(Runs.Recognized(c, i), i))
             && CommitInv(Runs.Followed(Accepted(Runs.Recognized(c, i), i), i))
    ensures Onward(c, CrashInAppendStep(c, i, stage))
  {
    var x := if stage == 1 then Accepted(Runs.Recognized(c, i), i)
             else Runs.Followed(Accepted(Runs.Recognized(c, i), i), i);
    Runs.CrashInAppendIs(c, i, stage);
    StoredMoved(c, i);
    assert NodeApplied(x.nodes[c.appendRpcs[i].dst]);
    CrashFrom(c, i, stage, x, c.appendRpcs[i].dst);
  }

  lemma CrashInProposeOnward(c: State, n: Id, command: Command)
    requires ReignsElected(c) && ReignsOk(c) && AcksOk(c) && Leads(c, n) && NodeApplied(c.nodes[n])
    ensures Onward(c, CrashInProposeStep(c, n, command))
  {
    AppendedOnward(c, n, command);
    LongerApplied(c.nodes[n], Appended(c, n, command).nodes[n]);
    RebootChains(c, Appended(c, n, command), n);
  }

  lemma CrashInTimeoutParts(c: State, n: Id, inOffice: bool)
    requires Inv(c) && CanCrashInTimeout(c, n, inOffice)
    ensures AcksOk(c) && NodeApplied(c.nodes[n]) && (inOffice ==> Term(c, n) + 1 !in c.reigns)
  {
    AcksOf(c);
    AppliedOf(c, n);
    ElectionsOf(c);
    if inOffice { SoloTermFree(c, n); }
  }

  lemma ProposeParts(c: State, n: Id)
    requires Inv(c) && Leads(c, n)
    ensures ReignsElected(c) && ReignsOk(c) && AcksOk(c) && NodeApplied(c.nodes[n])
  {
    Parts(c);
  }

  lemma WinnerParts(c: State, i: nat)
    requires Inv(c) && CanCrashInCollectVote(c, i)
    ensures AcksOk(c) && NodeApplied(c.nodes[c.voteRpcs[i].src]) && c.voteRpcs[i].args.term !in c.reigns
  {
    AcksOf(c);
    AppliedOf(c, c.voteRpcs[i].src);
    WinnerTermFree(c, i);
  }

  lemma StepOnward(c: State, e: Event)
    requires Inv(c) && Enabled(c, e)
    ensures Onward(c, Next(c, e))
  {
    match e
    case TimesOut(n) => TimeoutOnward(c, n);
    case Broadcasts(n) => MovedOnward(c, BroadcastStep(c, n), n);
    case DeliversVote(i) => DeliverVoteOnward(c, i);
    case CollectsVote(i) => CollectVoteOnward(c, i);
    case SendsAppend(n, p) => MovedOnward(c, SendAppendStep(c, n, p), n);
    case DeliversAppend(i) => DeliverAppendOnward(c, i);
    case CollectsAppend(i) => CollectAppendOnward(c, i);
    case Proposes(n, command) => ProposeParts(c, n); ProposeOnward(c, n, command);
    case Crashes(n) => AppliedOf(c, n); RebootOnward(c, n);
    case CrashesInTimeout(n, inOffice) => CrashInTimeoutParts(c, n, inOffice); CrashInTimeoutOnward(c, n, inOffice);
    case CrashesInVote(i, voted) => AppliedOf(c, c.voteRpcs[i].dst); CrashInVoteOnward(c, i, voted);
    case CrashesInCollectVote(i) => WinnerParts(c, i); CrashInCollectVoteOnward(c, i);
    case CrashesInAppend(i, stage) => if stage == 0 { EarlyCrash(c, i); } else { LateCrash(c, i, stage); }
    case CrashesInPropose(n, command) => ProposeParts(c, n); CrashInProposeOnward(c, n, command);
  }

  /** Along a run history grows, terms and commit indices never fall, whatever crashes. */
  lemma {:induction false} RunOnward(run: seq<State>, i: nat, j: nat)
    requires IsRun(run) && i <= j < |run|
    ensures Onward(run[i], run[j])
    decreases j - i
  {
    if i < j {
      RunOnward(run, i, j - 1);
      NextOnward(run, j - 1);
      OnwardChains(run[i], run[j - 1], run[j]);
    }
  }

  lemma NextOnward(run: seq<State>, i: nat)
    requires IsRun(run) && i + 1 < |run|
    ensures Onward(run[i], run[i + 1])
  {
    Runs.RunKept(run, i);
    assert StepAt(run, i);
    var e := Runs.EventOf(run[i], run[i + 1]);
    StepOnward(run[i], e);
  }

  // ---- votes ---------------------------------------------------------------------------------

  /** No vote is changed, and none is added for a term its voter has left. */
  ghost predicate VotesOnward(c: State, d: State) {
    && (forall t, v :: (t, v) in c.votes ==> (t, v) in d.votes && d.votes[(t, v)] == c.votes[(t, v)])
    && (forall t, v :: (t, v) in d.votes && (t, v) !in c.votes ==> v in c.nodes && Term(c, v) <= t)
  }

  lemma OneVoteMore(c: State, d: State, t: nat, v: Id, candidate: Id, log: seq<Entry>)
    requires d.votes == RecordVote(c, t, v, candidate, log).votes && v in c.nodes && Term(c, v) <= t
    ensures VotesOnward(c, d)
  {
  }

  lemma TimeoutVotes(c: State, n: Id)
    requires CanTimeout(c, n)
    ensures VotesOnward(c, TimeoutStep(c, n))
  {
    OwnVote(c, n);
    OneVoteMore(c, TimeoutStep(c, n), Term(c, n) + 1, n, n, c.nodes[n].log);
  }

  lemma OwnVote(c: State, n: Id)
    requires CanTimeout(c, n)
    ensures TimeoutStep(c, n).votes == RecordVote(c, Term(c, n) + 1, n, n, c.nodes[n].log).votes
  {
    AdvanceOnward(TakeOffice(StartElection(c.nodes[n], n), n, Peers(c, n)), Peers(c, n));
  }

  lemma DeliverVoteVotes(c: State, i: nat)
    requires ToDeliverVote(c, i)
    ensures VotesOnward(c, DeliverVoteStep(c, i))
  {
    var r := c.voteRpcs[i];
    if HandleRequestVote(c.nodes[r.dst], r.args).1.voteGranted {
      OneVoteMore(c, DeliverVoteStep(c, i), r.args.term, r.dst, r.args.candidateId, c.nodes[r.dst].log);
    }
  }

  lemma CrashInVoteVotes(c: State, i: nat, voted: bool)
    requires CanCrashInVote(c, i, voted)
    ensures VotesOnward(c, CrashInVoteStep(c, i, voted))
  {
    var r := c.voteRpcs[i];
    if voted {
      OneVoteMore(c, CrashInVoteStep(c, i, true), r.args.term, r.dst, r.args.candidateId, c.nodes[r.dst].log);
    }
  }

  lemma CrashInTimeoutVotes(c: State, n: Id, inOffice: bool)
    requires CanCrashInTimeout(c, n, inOffice)
    ensures VotesOnward(c, CrashInTimeoutStep(c, n, inOffice))
  {
    OneVoteMore(c, CrashInTimeoutStep(c, n, inOffice), Term(c, n) + 1, n, n, c.nodes[n].log);
  }

  predicate CastsVote(e: Event) {
    e.TimesOut? || e.DeliversVote? || e.CrashesInTimeout? || e.CrashesInVote?
  }

  lemma SameVotes(c: State, e: Event)
    requires Enabled(c, e) && !CastsVote(e) && !IsCrash(e)
    ensures Next(c, e).votes == c.votes
  {
  }

  lemma SameVotesAfterCrash(c: State, e: Event)
    requires Enabled(c, e) && !CastsVote(e) && IsCrash(e)
    ensures Next(c, e).votes == c.votes
  {
  }

  lemma StepVotes(c: State, e: Event)
    requires Enabled(c, e)
    ensures VotesOnward(c, Next(c, e))
  {
    match e
    case TimesOut(n) => TimeoutVotes(c, n);
    case DeliversVote(i) => DeliverVoteVotes(c, i);
    case CrashesInTimeout(n, inOffice) => CrashInTimeoutVotes(c, n, inOffice);
    case CrashesInVote(i, voted) => CrashInVoteVotes(c, i, voted);
    case _ => if IsCrash(e) { SameVotesAfterCrash(c, e); } else { SameVotes(c, e); }
  }

  ghost predicate TermsRise(c: State, d: State) {
    d.nodes.Keys == c.nodes.Keys && forall n :: n in c.nodes ==> Term(c, n) <= Term(d, n)
  }

  lemma VotesChain(a: State, b: State, c: State)
    requires TermsRise(a, b) && VotesOnward(a, b) && VotesOnward(b, c)
    ensures VotesOnward(a, c)
  {
  }

  lemma RunTerms(run: seq<State>, i: nat, j: nat)
    requires IsRun(run) && i <= j < |run|
    ensures TermsRise(run[i], run[j])
  {
    RunOnward(run, i, j);
  }

  /** Over a run a vote is for good, whatever crashes, and no server votes in a term it has left. */
  lemma {:induction false} RunVotes(run: seq<State>, i: nat, j: nat)
    requires IsRun(run) && i <= j < |run|
    ensures VotesOnward(run[i], run[j])
    decreases j - i
  {
    if i < j {
      RunVotes(run, i, j - 1);
      RunTerms(run, i, j - 1);
      NextVotes(run, j - 1);
      VotesChain(run[i], run[j - 1], run[j]);
    }
  }

  lemma NextVotes(run: seq<State>, i: nat)
    requires IsRun(run) && i + 1 < |run|
    ensures VotesOnward(run[i], run[i + 1])
  {
    assert StepAt(run, i);
    var e := Runs.EventOf(run[i], run[i + 1]);
    StepVotes(run[i], e);
  }
}
