// A cluster of servers taking the steps of server.cpp. Every RPC is a one-shot
// connection: its request is handled at most once, its reply is taken at most
// once by the thread that sent it, and either may be lost or arbitrarily late.
//
// votes, reigns and acked are history: no step reads them.
module Cluster {
  import opened RaftTypes
  import opened RaftNode

  /** Sent: request in flight. Answered: reply in flight. Taken: reply processed. Dropped: the receiver died on it. */
  datatype Status<R> = Sent | Answered(reply: R) | Taken(reply: R) | Dropped

  datatype VoteRpc = VoteRpc(src: Id, dst: Id, args: VoteArgs, status: Status<VoteReply>)
  datatype AppendRpc = AppendRpc(src: Id, dst: Id, args: AppendArgs, status: Status<AppendReply>)

  /** A durable vote: for whom, and the voter's log when it was cast. */
  datatype Vote = Vote(candidate: Id, log: seq<Entry>)

  /** A term's leader: who elected it, how much log it had before, and its log (which only grows). */
  datatype Reign = Reign(leader: Id, quorum: set<Id>, base: nat, log: seq<Entry>)

  datatype State = State(
    members: set<Id>,
    peerList: map<Id, seq<Id>>,
    nodes: map<Id, Node>,
    broadcasting: set<Id>,                // timer threads between the timeout and the broadcast
    voteRpcs: seq<VoteRpc>,
    appendRpcs: seq<AppendRpc>,
    votes: map<(nat, Id), Vote>,          // (term, voter)
    reigns: map<nat, Reign>,              // by term
    acked: map<(nat, Id), nat>)           // (term, server): how much of that term's log it stored during the term

  datatype Event =
    | TimesOut(n: Id)
    | Broadcasts(n: Id)
    | DeliversVote(i: nat)
    | CollectsVote(i: nat)
    | SendsAppend(n: Id, peer: Id)
    | DeliversAppend(i: nat)
    | CollectsAppend(i: nat)
    | Proposes(n: Id, command: Command)
    | Crashes(n: Id)
    // crashes between the durable writes of one critical section
    | CrashesInTimeout(n: Id, inOffice: bool)
    | CrashesInVote(i: nat, voted: bool)
    | CrashesInCollectVote(i: nat)
    | CrashesInAppend(i: nat, stage: nat)
    | CrashesInPropose(n: Id, command: Command)

  predicate IsCrash(e: Event) {
    || e.Crashes? || e.CrashesInTimeout? || e.CrashesInVote?
    || e.CrashesInCollectVote? || e.CrashesInAppend? || e.CrashesInPropose?
  }

  function Peers(c: State, n: Id): seq<Id> { if n in c.peerList then c.peerList[n] else [] }

  function Quorum(c: State): nat { Majority(|c.members|) }

  /** Membership is agreed, ids are not 0, and each peer list names every other member once. */
  ghost predicate Shape(c: State) {
    && Membership(c.members, c.peerList)
    && c.nodes.Keys == c.members && c.broadcasting <= c.members
  }

  ghost predicate Membership(members: set<Id>, peerList: map<Id, seq<Id>>) {
    && members != {} && 0 !in members && peerList.Keys == members
    && (forall n :: n in members ==> IsListOf(peerList[n], members - {n}))
  }

  ghost predicate IsListOf(s: seq<Id>, ids: set<Id>) {
    && (forall i :: 0 <= i < |s| ==> s[i] in ids)
    && (forall p :: p in ids ==> p in s)
    && (forall i, j :: 0 <= i < j < |s| ==> s[i] != s[j])
  }

  function PutNode(c: State, n: Id, m: Node): State { c.(nodes := c.nodes[n := m]) }

  function MarkVote(c: State, i: nat, status: Status<VoteReply>): State
    requires i < |c.voteRpcs|
  {
    c.(voteRpcs := c.voteRpcs[i := c.voteRpcs[i].(status := status)])
  }

  function MarkAppend(c: State, i: nat, status: Status<AppendReply>): State
    requires i < |c.appendRpcs|
  {
    c.(appendRpcs := c.appendRpcs[i := c.appendRpcs[i].(status := status)])
  }

  // ---- history ---------------------------------------------------------------

  function RecordVote(c: State, term: nat, voter: Id, candidate: Id, log: seq<Entry>): State {
    if (term, voter) in c.votes then c else c.(votes := c.votes[(term, voter) := Vote(candidate, log)])
  }

  /** The servers whose granted votes a candidate has counted for a term, itself included. */
  function Supporters(rpcs: seq<VoteRpc>, n: Id, term: nat): set<Id> {
    {n} + set i: nat | i < |rpcs| && Supports(rpcs[i], n, term) :: rpcs[i].dst
  }

  predicate Supports(r: VoteRpc, n: Id, term: nat) {
    r.src == n && r.args.term == term && r.status.Taken? && r.status.reply.voteGranted
  }

  /** n, whose log already ends with the entry that opens its term, starts to lead. */
  function EnterReign(c: State, n: Id, quorum: set<Id>): State
    requires n in c.nodes
  {
    var m := c.nodes[n];
    c.(reigns := c.reigns[m.meta.currentTerm := Reign(n, quorum, Max(|m.log|, 1) - 1, m.log)],
       acked := c.acked[(m.meta.currentTerm, n) := |m.log|])
  }

  /** The log of leader n has grown. */
  function ExtendReign(c: State, n: Id): State
    requires n in c.nodes
  {
    var m := c.nodes[n];
    var t := m.meta.currentTerm;
    if t !in c.reigns then c
    else c.(reigns := c.reigns[t := c.reigns[t].(log := m.log)], acked := c.acked[(t, n) := |m.log|])
  }

  function Acked(c: State, term: nat, v: Id): nat {
    if (term, v) in c.acked then c.acked[(term, v)] else 0
  }

  function RecordAck(c: State, term: nat, v: Id, upTo: nat): State {
    c.(acked := c.acked[(term, v) := Max(Acked(c, term, v), upTo)])
  }

  // ---- steps -------------------------------------------------------------------

  predicate CanTimeout(c: State, n: Id) {
    n in c.nodes && c.nodes[n].role != Leader && n !in c.broadcasting
  }

  /** The election timer; a server without peers wins at once. */
  function TimeoutStep(c: State, n: Id): State
    requires CanTimeout(c, n)
  {
    var m := OnTimeout(c.nodes[n], n, Peers(c, n));
    var d := RecordVote(PutNode(c, n, m), m.meta.currentTerm, n, n, c.nodes[n].log);
    if m.role == Leader then EnterReign(d, n, {n}) else d.(broadcasting := c.broadcasting + {n})
  }

  predicate CanBroadcast(c: State, n: Id) {
    n in c.nodes && n in c.peerList && n in c.broadcasting
  }

  /** The broadcast reads whatever term and log the server has by now. */
  function BroadcastStep(c: State, n: Id): State
    requires CanBroadcast(c, n)
  {
    var to := c.peerList[n];
    var args := RequestVotes(c.nodes[n], n);
    c.(voteRpcs := c.voteRpcs + seq(|to|, k requires 0 <= k < |to| => VoteRpc(n, to[k], args, Sent)),
       broadcasting := c.broadcasting - {n})
  }

  predicate ToDeliverVote(c: State, i: nat) {
    i < |c.voteRpcs| && c.voteRpcs[i].status.Sent? && c.voteRpcs[i].dst in c.nodes
  }

  function DeliverVoteStep(c: State, i: nat): State
    requires ToDeliverVote(c, i)
  {
    var r := c.voteRpcs[i];
    var (m, reply) := HandleRequestVote(c.nodes[r.dst], r.args);
    var d := MarkVote(PutNode(c, r.dst, m), i, Answered(reply));
    if reply.voteGranted then RecordVote(d, r.args.term, r.dst, r.args.candidateId, c.nodes[r.dst].log) else d
  }

  predicate ToCollectVote(c: State, i: nat) {
    i < |c.voteRpcs| && c.voteRpcs[i].status.Answered? && c.voteRpcs[i].src in c.nodes
  }

  /** The reply on connection i is the vote that completes a majority. */
  predicate WinsWith(c: State, i: nat)
    requires ToCollectVote(c, i)
  {
    var r := c.voteRpcs[i];
    var m := c.nodes[r.src];
    CountsVote(m, r.args.term, r.status.reply) && m.votesReceived + 1 >= Majority(|Peers(c, r.src)| + 1)
  }

  function CollectVoteStep(c: State, i: nat): State
    requires ToCollectVote(c, i)
  {
    var r := c.voteRpcs[i];
    var m := OnVoteReply(c.nodes[r.src], r.src, Peers(c, r.src), r.args.term, r.status.reply);
    var d := MarkVote(PutNode(c, r.src, m), i, Taken(r.status.reply));
    if WinsWith(c, i) then EnterReign(d, r.src, Supporters(d.voteRpcs, r.src, r.args.term)) else d
  }

  predicate Leads(c: State, n: Id) {
    n in c.nodes && c.nodes[n].role == Leader
  }

  function SendAppendStep(c: State, n: Id, p: Id): State
    requires Leads(c, n)
  {
    c.(appendRpcs := c.appendRpcs + [AppendRpc(n, p, BuildAppend(c.nodes[n], n, p), Sent)])
  }

  predicate ToDeliverAppend(c: State, i: nat) {
    i < |c.appendRpcs| && c.appendRpcs[i].status.Sent? && c.appendRpcs[i].dst in c.nodes
  }

  function DeliverAppendStep(c: State, i: nat): State
    requires ToDeliverAppend(c, i)
  {
    var r := c.appendRpcs[i];
    var (m, reply) := HandleAppendEntries(c.nodes[r.dst], r.args);
    var d := MarkAppend(PutNode(c, r.dst, m), i, Answered(reply));
    if reply.success then RecordAck(d, r.args.term, r.dst, r.args.prevLogIndex + |r.args.entries|) else d
  }

  /** A peer's sender thread waits for one reply at a time, so only the newest connection is still waited for. */
  ghost predicate ToCollectAppend(c: State, i: nat) {
    && i < |c.appendRpcs| && c.appendRpcs[i].status.Answered? && c.appendRpcs[i].src in c.nodes
    && Newest(c.appendRpcs, i)
  }

  ghost predicate Newest(rpcs: seq<AppendRpc>, i: nat)
    requires i < |rpcs|
  {
    forall j :: i < j < |rpcs| ==> rpcs[j].src != rpcs[i].src || rpcs[j].dst != rpcs[i].dst
  }

  function CollectAppendStep(c: State, i: nat): State
    requires ToCollectAppend(c, i)
  {
    var r := c.appendRpcs[i];
    var m := OnAppendReply(c.nodes[r.src], Peers(c, r.src), r.dst, r.args, r.status.reply);
    MarkAppend(PutNode(c, r.src, m), i, Taken(r.status.reply))
  }

  function ProposeStep(c: State, n: Id, command: Command): State
    requires Leads(c, n)
  {
    ExtendReign(PutNode(c, n, Propose(c.nodes[n], Peers(c, n), command)), n)
  }

  // ---- crashes -------------------------------------------------------------------

  /** The process dies with its timer thread and comes back from its disk. */
  function Reboot(c: State, n: Id): State
    requires n in c.nodes
  {
    PutNode(c, n, Restart(c.nodes[n])).(broadcasting := c.broadcasting - {n})
  }

  predicate CanCrashInTimeout(c: State, n: Id, inOffice: bool) {
    CanTimeout(c, n) && (inOffice ==> Quorum(c) <= 1)
  }

  /** After the candidacy is durable, or, without peers, after the opening entry is. */
  function CrashInTimeoutStep(c: State, n: Id, inOffice: bool): State
    requires CanCrashInTimeout(c, n, inOffice)
  {
    var cand := StartElection(c.nodes[n], n);
    var d := RecordVote(PutNode(c, n, cand), cand.meta.currentTerm, n, n, cand.log);
    Reboot(if inOffice then EnterReign(PutNode(d, n, TakeOffice(cand, n, Peers(c, n))), n, {n}) else d, n)
  }

  predicate CanCrashInVote(c: State, i: nat, voted: bool) {
    && ToDeliverVote(c, i)
    && var r := c.voteRpcs[i];
    && r.args.term >= c.nodes[r.dst].meta.currentTerm
    && (voted ==> Grants(Adopt(c.nodes[r.dst], r.args.term), r.args))
  }

  /** After the term is durable, or after the vote is, but before the reply. */
  function CrashInVoteStep(c: State, i: nat, voted: bool): State
    requires CanCrashInVote(c, i, voted)
  {
    var r := c.voteRpcs[i];
    var a := Adopt(c.nodes[r.dst], r.args.term);
    var d := MarkVote(PutNode(c, r.dst, if voted then CastVote(a, r.args) else a), i, Dropped);
    Reboot(if voted then RecordVote(d, r.args.term, r.dst, r.args.candidateId, a.log) else d, r.dst)
  }

  predicate CanCrashInCollectVote(c: State, i: nat) {
    ToCollectVote(c, i) && WinsWith(c, i)
  }

  /** After the opening entry is durable, before anything is committed. */
  function CrashInCollectVoteStep(c: State, i: nat): State
    requires CanCrashInCollectVote(c, i)
  {
    var r := c.voteRpcs[i];
    var m := TakeOffice(CountVote(c.nodes[r.src]), r.src, Peers(c, r.src));
    var d := MarkVote(PutNode(c, r.src, m), i, Taken(r.status.reply));
    Reboot(EnterReign(d, r.src, Supporters(d.voteRpcs, r.src, r.args.term)), r.src)
  }

  predicate CanCrashInAppend(c: State, i: nat, stage: nat) {
    && ToDeliverAppend(c, i) && stage <= 2
    && var r := c.appendRpcs[i];
    && r.args.term >= c.nodes[r.dst].meta.currentTerm
    && (stage > 0 ==> PrevMatches(c.nodes[r.dst].log, r.args))
  }

  /** After the term (stage 0), the log (stage 1) or the commit index (stage 2) is durable, but before the reply. */
  function CrashInAppendStep(c: State, i: nat, stage: nat): State
    requires CanCrashInAppend(c, i, stage)
  {
    var r := c.appendRpcs[i];
    var f := Recognize(c.nodes[r.dst], r.args);
    var m := if stage == 0 then f
             else if stage == 1 then StoreEntries(f, r.args) else CommitFrom(StoreEntries(f, r.args), r.args);
    var d := MarkAppend(PutNode(c, r.dst, m), i, Dropped);
    Reboot(if stage > 0 then RecordAck(d, r.args.term, r.dst, r.args.prevLogIndex + |r.args.entries|) else d, r.dst)
  }

  /** After the entry is durable, before anything is committed. */
  function CrashInProposeStep(c: State, n: Id, command: Command): State
    requires Leads(c, n)
  {
    Reboot(ExtendReign(PutNode(c, n, Append(c.nodes[n], command)), n), n)
  }

  // ---- events ---------------------------------------------------------------------

  ghost predicate Enabled(c: State, e: Event) {
    match e
    case TimesOut(n) => CanTimeout(c, n)
    case Broadcasts(n) => CanBroadcast(c, n)
    case DeliversVote(i) => ToDeliverVote(c, i)
    case CollectsVote(i) => ToCollectVote(c, i)
    case SendsAppend(n, p) => Leads(c, n) && p in Peers(c, n)
    case DeliversAppend(i) => ToDeliverAppend(c, i)
    case CollectsAppend(i) => ToCollectAppend(c, i)
    case Proposes(n, _) => Leads(c, n)
    case Crashes(n) => n in c.nodes
    case CrashesInTimeout(n, inOffice) => CanCrashInTimeout(c, n, inOffice)
    case CrashesInVote(i, voted) => CanCrashInVote(c, i, voted)
    case CrashesInCollectVote(i) => CanCrashInCollectVote(c, i)
    case CrashesInAppend(i, stage) => CanCrashInAppend(c, i, stage)
    case CrashesInPropose(n, _) => Leads(c, n)
  }

  /** The cluster after an enabled event. */
  function Next(c: State, e: Event): State
    requires Enabled(c, e)
  {
    match e
    case TimesOut(n) => TimeoutStep(c, n)
    case Broadcasts(n) => BroadcastStep(c, n)
    case DeliversVote(i) => DeliverVoteStep(c, i)
    case CollectsVote(i) => CollectVoteStep(c, i)
    case SendsAppend(n, p) => SendAppendStep(c, n, p)
    case DeliversAppend(i) => DeliverAppendStep(c, i)
    case CollectsAppend(i) => CollectAppendStep(c, i)
    case Proposes(n, command) => ProposeStep(c, n, command)
    case Crashes(n) => Reboot(c, n)
    case CrashesInTimeout(n, inOffice) => CrashInTimeoutStep(c, n, inOffice)
    case CrashesInVote(i, voted) => CrashInVoteStep(c, i, voted)
    case CrashesInCollectVote(i) => CrashInCollectVoteStep(c, i)
    case CrashesInAppend(i, stage) => CrashInAppendStep(c, i, stage)
    case CrashesInPropose(n, command) => CrashInProposeStep(c, n, command)
  }

  /** Fresh data directories everywhere. */
  ghost predicate Initial(c: State) {
    && Shape(c)
    && (forall n :: n in c.nodes ==> c.nodes[n] == Recovered(MetaData(0, 0, 0, 0), []))
    && c.broadcasting == {} && c.voteRpcs == [] && c.appendRpcs == []
    && c.votes == map[] && c.reigns == map[] && c.acked == map[]
  }

  ghost predicate Step(c: State, d: State) {
    exists e :: Enabled(c, e) && d == Next(c, e)
  }

  /** Any finite run from fresh servers. */
  ghost predicate IsRun(run: seq<State>) {
    run != [] && Initial(run[0]) && forall i: nat :: i + 1 < |run| ==> StepAt(run, i)
  }

  ghost predicate StepAt(run: seq<State>, i: nat)
    requires i + 1 < |run|
  {
    Step(run[i], run[i + 1])
  }
}
