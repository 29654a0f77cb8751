// What servers stored in a term survives, and candidates with stale logs lose.
module StorageKept {
  import opened RaftTypes
  import opened RaftNode
  import opened Cluster
  import opened Invariants
  import opened ElementarySteps
  import opened LogKept
  import opened ElectionKept

  // ---- steps that leave logs and votes alone -----------------------------------------

  ghost predicate StillNode(a: Node, b: Node) {
    QuietNode(a, b) && (b.role == Candidate ==> a.role == Candidate && b.meta.currentTerm == a.meta.currentTerm)
  }

  ghost predicate SameAsk(q: VoteRpc, r: VoteRpc) {
    r.src == q.src && r.dst == q.dst && r.args == q.args
  }

  ghost predicate StorageQuiet(c: State, d: State) {
    && d.nodes.Keys == c.nodes.Keys && d.reigns == c.reigns && d.acked == c.acked && d.votes == c.votes
    && |d.voteRpcs| == |c.voteRpcs|
    && (forall n :: n in c.nodes ==> StillNode(c.nodes[n], d.nodes[n]))
    && (forall i :: 0 <= i < |c.voteRpcs| ==> SameAsk(c.voteRpcs[i], d.voteRpcs[i]))
  }

  ghost predicate Aging(c: State, d: State) {
    && d.nodes.Keys == c.nodes.Keys && d.reigns == c.reigns && d.acked == c.acked
    && (forall n :: n in c.nodes ==> QuietNode(c.nodes[n], d.nodes[n]))
  }

  lemma AgingAcks(c: State, d: State)
    requires AcksOk(c) && Aging(c, d)
    ensures AcksOk(d)
  {
    forall t, v | (t, v) in d.acked ensures AckOk(d, t, v, d.acked[(t, v)]) {
      assert AckOk(c, t, v, c.acked[(t, v)]);
    }
    forall n | n in d.nodes && d.nodes[n].role == Leader ensures Stored(d, Term(d, n), n, |d.nodes[n].log|) {
      assert QuietNode(c.nodes[n], d.nodes[n]);
      assert Stored(c, Term(c, n), n, |c.nodes[n].log|);
    }
  }

  lemma AgingStored(c: State, d: State)
    requires AcksOk(c) && AcksOk(d) && StoredKept(c) && Aging(c, d)
    ensures StoredKept(d)
  {
    forall t: nat, v: Id, k: nat | Stored(d, t, v, k) && Carried(d, t, k, Term(d, v))
      ensures Shares(d.nodes[v].log, LogOf(d, t), k)
    {
      assert QuietNode(c.nodes[v], d.nodes[v]);
      assert Stored(c, t, v, k);
      assert Carried(c, t, k, Term(c, v)) by {
        forall u | t < u <= Term(c, v) && u in c.reigns ensures Shares(LogOf(c, u), LogOf(c, t), k) {
          assert Shares(LogOf(d, u), LogOf(d, t), k);
        }
      }
    }
  }

  lemma SameVoters(c: State, d: State)
    requires AcksOk(c) && AcksOk(d) && VotersKept(c)
    requires d.votes == c.votes && d.reigns == c.reigns && d.acked == c.acked
    ensures VotersKept(d)
  {
    forall u: nat, t: nat, v: Id, k: nat | Counts(d, u, v) && t < u && Stored(d, t, v, k) && Carried(d, t, k, u - 1)
      ensures Shares(d.votes[(u, v)].log, LogOf(d, t), k)
    {
      assert Counts(c, u, v) && Stored(c, t, v, k);
      SameCarried(d, c, t, k, u - 1);
    }
  }

  lemma SameCarried(c: State, d: State, t: nat, k: nat, hi: int)
    requires d.reigns == c.reigns && t in c.reigns && Carried(c, t, k, hi)
    ensures Carried(d, t, k, hi)
  {
    forall u | t < u <= hi && u in d.reigns ensures Shares(LogOf(d, u), LogOf(d, t), k) {
      assert Shares(LogOf(c, u), LogOf(c, t), k);
    }
  }

  lemma QuietFair(c: State, d: State)
    requires RequestsFair(c) && VotesFair(c) && StorageQuiet(c, d)
    ensures RequestsFair(d) && VotesFair(d)
  {
    forall i | 0 <= i < |d.voteRpcs| ensures Advertises(d, d.voteRpcs[i]) {
      assert Advertises(c, c.voteRpcs[i]) && SameAsk(c.voteRpcs[i], d.voteRpcs[i]);
      var src := c.voteRpcs[i].src;
      if src in c.nodes { assert StillNode(c.nodes[src], d.nodes[src]); }
    }
    forall u, v | (u, v) in d.votes ensures Restricted(d, u, d.votes[(u, v)]) {
      assert Restricted(c, u, c.votes[(u, v)]);
      var x := c.votes[(u, v)].candidate;
      if x in c.nodes { assert StillNode(c.nodes[x], d.nodes[x]); }
    }
  }

  lemma SameElectors(c: State, d: State)
    requires ElectionsFair(c) && d.votes == c.votes && d.reigns == c.reigns
    ensures ElectionsFair(d)
  {
    forall u | u in d.reigns ensures ElectorsOlder(d, u, d.reigns[u]) {
      assert ElectorsOlder(c, u, c.reigns[u]);
    }
  }

  lemma QuietKept(c: State, d: State)
    requires StorageInv(c) && StorageQuiet(c, d)
    ensures StorageInv(d)
  {
    AgingAcks(c, d);
    AgingStored(c, d);
    SameVoters(c, d);
    QuietFair(c, d);
    SameElectors(c, d);
  }

  // ---- votes ---------------------------------------------------------------------------

  /** A vote that is still open to be counted is newly cast, with the voter's present log. */
  ghost predicate FreshVote(c: State, d: State, n: Id, u: nat, candidate: Id) {
    && n in c.nodes && Term(c, n) <= u && (Term(c, n) == u || Term(c, n) == u - 1)
    && d.votes == (if (u, n) in c.votes then c.votes else c.votes[(u, n) := Vote(candidate, c.nodes[n].log)])
    && (u in c.reigns && n in c.reigns[u].quorum ==> (u, n) in c.votes)
  }

  /** A voter still holds what it stored when it votes, if every leader before that term carried it. */
  lemma FreshVoters(c: State, d: State, n: Id, u0: nat, candidate: Id)
    requires AcksOk(c) && StoredKept(c) && VotersKept(c) && AcksOk(d)
    requires d.reigns == c.reigns && d.acked == c.acked && FreshVote(c, d, n, u0, candidate)
    ensures VotersKept(d)
  {
    forall u: nat, t: nat, v: Id, k: nat | Counts(d, u, v) && t < u && Stored(d, t, v, k) && Carried(d, t, k, u - 1)
      ensures Shares(d.votes[(u, v)].log, LogOf(d, t), k)
    {
      assert Stored(c, t, v, k);
      SameCarried(d, c, t, k, u - 1);
      if (u, v) in c.votes {
        assert Counts(c, u, v);
      } else {
        assert u == u0 && v == n && u !in c.reigns;
        assert Carried(c, t, k, Term(c, n));
      }
    }
  }

  lemma FreshLogs(c: State, d: State, n: Id, u0: nat, candidate: Id)
    requires VoteLogsOk(c) && LogsOk(c) && FreshVote(c, d, n, u0, candidate)
    ensures VoteLogsOk(d)
  {
    assert WellNumbered(c.nodes[n].log, Term(c, n));
  }

  lemma FreshElectors(c: State, d: State, n: Id, u0: nat, candidate: Id)
    requires ElectionsFair(c) && d.reigns == c.reigns && FreshVote(c, d, n, u0, candidate)
    ensures ElectionsFair(d)
  {
    forall u | u in d.reigns ensures ElectorsOlder(d, u, d.reigns[u]) {
      assert ElectorsOlder(c, u, c.reigns[u]);
    }
  }

  lemma CandidacyRequests(c: State, n: Id)
    requires VoteRpcsOk(c) && RequestsFair(c) && n in c.nodes
    ensures RequestsFair(Candidacy(c, n))
  {
    var d := Candidacy(c, n);
    forall i | 0 <= i < |d.voteRpcs| ensures Advertises(d, d.voteRpcs[i]) {
      assert Advertises(c, c.voteRpcs[i]) && VoteRpcOk(c, c.voteRpcs[i]);
    }
  }

  lemma CandidacyVotes(c: State, n: Id)
    requires VotesRecorded(c) && LogsOk(c) && VotesFair(c) && n in c.nodes
    ensures VotesFair(Candidacy(c, n))
  {
    var d := Candidacy(c, n);
    assert WellNumbered(c.nodes[n].log, Term(c, n));
    forall u, v | (u, v) in d.votes ensures Restricted(d, u, d.votes[(u, v)]) {
      if (u, v) in c.votes {
        assert Restricted(c, u, c.votes[(u, v)]) && VoteRecorded(c, u, v, c.votes[(u, v)]);
      }
    }
  }

  lemma CandidacyFresh(c: State, n: Id)
    requires ReignsElected(c) && VotesRecorded(c) && n in c.nodes
    ensures FreshVote(c, Candidacy(c, n), n, Term(c, n) + 1, n)
  {
    var u := Term(c, n) + 1;
    if u in c.reigns && n in c.reigns[u].quorum {
      assert ReignElected(c, u, c.reigns[u]);
      assert VotedFor(c, u, n, c.reigns[u].leader);
    }
  }

  lemma CandidacyAges(c: State, n: Id)
    requires n in c.nodes
    ensures Aging(c, Candidacy(c, n))
  {
  }

  lemma FreshKept(c: State, d: State, n: Id, u: nat, candidate: Id)
    requires LogsOk(c) && AcksOk(c) && StoredKept(c) && VotersKept(c) && VoteLogsOk(c) && ElectionsFair(c)
    requires Aging(c, d) && FreshVote(c, d, n, u, candidate)
    ensures AcksOk(d) && StoredKept(d) && VotersKept(d) && VoteLogsOk(d) && ElectionsFair(d)
  {
    AgingAcks(c, d);
    AgingStored(c, d);
    FreshVoters(c, d, n, u, candidate);
    FreshLogs(c, d, n, u, candidate);
    FreshElectors(c, d, n, u, candidate);
  }

  lemma CandidacyKept(c: State, n: Id)
    requires VotesRecorded(c) && VoteRpcsOk(c) && ReignsElected(c) && LogsOk(c) && StorageInv(c) && n in c.nodes
    ensures StorageInv(Candidacy(c, n))
  {
    CandidacyFresh(c, n);
    CandidacyAges(c, n);
    FreshKept(c, Candidacy(c, n), n, Term(c, n) + 1, n);
    CandidacyRequests(c, n);
    CandidacyVotes(c, n);
  }

  /** The election restriction at work: the request that is granted speaks for the candidate's log. */
  lemma VotedVotes(c: State, n: Id, r: VoteRpc)
    requires VotesFair(c) && MayVote(c, n, r.args) && Advertises(c, r) && r.args.candidateId == r.src
    requires c.nodes[n].role == Follower
    ensures VotesFair(Voted(c, n, r.args))
  {
    var d := Voted(c, n, r.args);
    assert Restricted(d, r.args.term, Vote(r.src, c.nodes[n].log)) by {
      assert d.nodes[n].role == Follower;
      if r.src != n { assert d.nodes[r.src] == c.nodes[r.src]; }
    }
    forall u, v | (u, v) in d.votes ensures Restricted(d, u, d.votes[(u, v)]) {
      if (u, v) in c.votes { assert Restricted(c, u, c.votes[(u, v)]); }
    }
  }

  lemma VotedRequests(c: State, n: Id, args: VoteArgs)
    requires RequestsFair(c) && n in c.nodes
    ensures RequestsFair(Voted(c, n, args))
  {
    var d := Voted(c, n, args);
    forall i | 0 <= i < |d.voteRpcs| ensures Advertises(d, d.voteRpcs[i]) {
      assert Advertises(c, c.voteRpcs[i]);
    }
  }

  lemma VotedFresh(c: State, n: Id, args: VoteArgs)
    requires ReignsElected(c) && MayVote(c, n, args)
    ensures FreshVote(c, Voted(c, n, args), n, args.term, args.candidateId)
  {
    var u := args.term;
    if u in c.reigns && n in c.reigns[u].quorum {
      assert ReignElected(c, u, c.reigns[u]);
      assert VotedFor(c, u, n, c.reigns[u].leader);
    }
  }

  lemma VotedStored(c: State, n: Id, args: VoteArgs)
    requires AcksOk(c) && StoredKept(c) && n in c.nodes
    ensures AcksOk(Voted(c, n, args)) && StoredKept(Voted(c, n, args))
  {
    var d := Voted(c, n, args);
    assert Aging(c, d);
    AgingAcks(c, d);
    AgingStored(c, d);
  }

  lemma VotedKept(c: State, n: Id, r: VoteRpc)
    requires ReignsElected(c) && LogsOk(c) && StorageInv(c)
    requires MayVote(c, n, r.args) && Advertises(c, r) && r.args.candidateId == r.src
    requires c.nodes[n].role == Follower
    ensures StorageInv(Voted(c, n, r.args))
  {
    VotedStored(c, n, r.args);
    VotedFresh(c, n, r.args);
    FreshVoters(c, Voted(c, n, r.args), n, r.args.term, r.args.candidateId);
    FreshLogs(c, Voted(c, n, r.args), n, r.args.term, r.args.candidateId);
    FreshElectors(c, Voted(c, n, r.args), n, r.args.term, r.args.candidateId);
    VotedRequests(c, n, r.args);
    VotedVotes(c, n, r);
  }

  lemma BroadcastRequests(c: State, n: Id)
    requires LogsOk(c) && RequestsFair(c) && CanBroadcast(c, n)
    ensures RequestsFair(BroadcastStep(c, n))
  {
    var d := BroadcastStep(c, n);
    assert WellNumbered(c.nodes[n].log, Term(c, n));
    forall i | 0 <= i < |d.voteRpcs| ensures Advertises(d, d.voteRpcs[i]) {
      if i < |c.voteRpcs| { assert Advertises(c, c.voteRpcs[i]); }
    }
  }

  lemma SameVotesFair(c: State, d: State)
    requires VotesFair(c) && d.votes == c.votes && d.nodes == c.nodes
    ensures VotesFair(d)
  {
    forall u, v | (u, v) in d.votes ensures Restricted(d, u, d.votes[(u, v)]) {
      assert Restricted(c, u, c.votes[(u, v)]);
    }
  }

  lemma BroadcastKept(c: State, n: Id)
    requires LogsOk(c) && StorageInv(c) && CanBroadcast(c, n)
    ensures StorageInv(BroadcastStep(c, n))
  {
    var d := BroadcastStep(c, n);
    AgingAcks(c, d);
    AgingStored(c, d);
    SameVoters(c, d);
    BroadcastRequests(c, n);
    SameVotesFair(c, d);
    SameElectors(c, d);
  }

  // ---- leader logs growing ------------------------------------------------------------

  /** Beyond the new entry itself, nothing more is stored than before. */
  ghost predicate LedAcks(c: State, d: State, n: Id, e: Entry) {
    && Led(c, d, n, e)
    && d.acked == c.acked[(e.term, n) := |d.nodes[n].log|]
    && (e.term in c.reigns ==> LogOf(c, e.term) == c.nodes[n].log)
    && (d.nodes[n].role == Leader)
  }

  /** What is shared with the leader log of t is of term t at most. */
  lemma SharedTerms(log: seq<Entry>, prior: seq<Entry>, k: nat, t: nat)
    requires Shares(log, prior, k) && WellNumbered(prior, t)
    ensures forall i :: 0 <= i < k ==> log[i].term <= t
  {
    forall i | 0 <= i < k ensures log[i].term <= t { assert log[i] == prior[i]; }
  }

  /** A later leader's log does not come to share more with an earlier one: its new entry is of its own term. */
  lemma SharedBefore(mine: seq<Entry>, e: Entry, prior: seq<Entry>, k: nat, t: nat)
    requires Shares(mine + [e], prior, k) && WellNumbered(prior, t) && t < e.term
    ensures Shares(mine, prior, k)
  {
    SharedTerms(mine + [e], prior, k, t);
    assert (mine + [e])[|mine|] == e;
  }

  /** No later leader comes to carry what it did not carry before. */
  lemma CarriedBefore(c: State, d: State, n: Id, e: Entry, t: nat, k: nat, hi: int)
    requires LogsOk(c) && LedAcks(c, d, n, e) && t in c.reigns && k <= |LogOf(c, t)| && Carried(d, t, k, hi)
    ensures Carried(c, t, k, hi)
  {
    assert WellNumbered(LogOf(c, t), t);
    assert Grown(c.reigns[t], d.reigns[t]);
    forall u | t < u <= hi && u in c.reigns ensures Shares(LogOf(c, u), LogOf(c, t), k) {
      assert Shares(LogOf(d, u), LogOf(d, t), k);
      if u == e.term { SharedBefore(LogOf(c, u), e, LogOf(c, t), k, t); }
    }
  }

  lemma LedAcksOk(c: State, d: State, n: Id, e: Entry)
    requires AcksOk(c) && LedAcks(c, d, n, e)
    ensures AcksOk(d)
  {
    forall t, v | (t, v) in d.acked ensures AckOk(d, t, v, d.acked[(t, v)]) {
      if (t, v) != (e.term, n) {
        assert AckOk(c, t, v, c.acked[(t, v)]);
        assert Grown(c.reigns[t], d.reigns[t]);
      }
    }
    forall m | m in d.nodes && d.nodes[m].role == Leader ensures Stored(d, Term(d, m), m, |d.nodes[m].log|) {
      if m != n { assert Stored(c, Term(c, m), m, |c.nodes[m].log|); }
    }
  }

  lemma LedStoredBefore(c: State, d: State, n: Id, e: Entry, t: nat, v: Id, k: nat, hi: int)
    requires LogsOk(c) && AcksOk(c) && LedAcks(c, d, n, e)
    requires (t, v) != (e.term, n) && Stored(d, t, v, k) && t in d.reigns && Carried(d, t, k, hi)
    ensures Stored(c, t, v, k) && Carried(c, t, k, hi) && Shares(LogOf(d, t), LogOf(c, t), k)
  {
    assert Stored(c, t, v, k) && AckOk(c, t, v, c.acked[(t, v)]);
    assert Grown(c.reigns[t], d.reigns[t]);
    CarriedBefore(c, d, n, e, t, k, hi);
  }

  lemma LedStored(c: State, d: State, n: Id, e: Entry)
    requires LogsOk(c) && AcksOk(c) && AcksOk(d) && StoredKept(c) && LedAcks(c, d, n, e)
    ensures StoredKept(d)
  {
    forall t: nat, v: Id, k: nat | Stored(d, t, v, k) && Carried(d, t, k, Term(d, v))
      ensures Shares(d.nodes[v].log, LogOf(d, t), k)
    {
      if (t, v) != (e.term, n) {
        LedStoredBefore(c, d, n, e, t, v, k, Term(c, v));
        assert Shares(c.nodes[v].log, LogOf(c, t), k);
      }
    }
  }

  lemma LedVoters(c: State, d: State, n: Id, e: Entry)
    requires VotesRecorded(c) && LogsOk(c) && AcksOk(c) && AcksOk(d) && VotersKept(c) && LedAcks(c, d, n, e)
    requires d.votes == c.votes
    ensures VotersKept(d)
  {
    forall u: nat, t: nat, v: Id, k: nat | Counts(d, u, v) && t < u && Stored(d, t, v, k) && Carried(d, t, k, u - 1)
      ensures Shares(d.votes[(u, v)].log, LogOf(d, t), k)
    {
      assert VoteRecorded(c, u, v, c.votes[(u, v)]);
      LedCounts(c, d, n, e, u, v);
      LedStoredBefore(c, d, n, e, t, v, k, u - 1);
    }
  }

  lemma LedCounts(c: State, d: State, n: Id, e: Entry, u: nat, v: Id)
    requires Led(c, d, n, e) && d.votes == c.votes && Counts(d, u, v)
    ensures Counts(c, u, v)
  {
    if u in c.reigns { assert Grown(c.reigns[u], d.reigns[u]); }
  }

  ghost predicate LedOnly(c: State, d: State, n: Id, e: Entry) {
    && LedAcks(c, d, n, e) && d.votes == c.votes && d.voteRpcs == c.voteRpcs
  }

  lemma LedFair(c: State, d: State, n: Id, e: Entry)
    requires RequestsFair(c) && VotesFair(c) && LedOnly(c, d, n, e)
    ensures RequestsFair(d) && VotesFair(d)
  {
    forall i | 0 <= i < |d.voteRpcs| ensures Advertises(d, d.voteRpcs[i]) {
      assert Advertises(c, c.voteRpcs[i]);
    }
    forall u, v | (u, v) in d.votes ensures Restricted(d, u, d.votes[(u, v)]) {
      assert Restricted(c, u, c.votes[(u, v)]);
    }
  }

  lemma LedElectors(c: State, d: State, n: Id, e: Entry)
    requires ElectionsFair(c) && LedOnly(c, d, n, e) && ElectorsOlder(d, e.term, d.reigns[e.term])
    ensures ElectionsFair(d)
  {
    forall u | u in d.reigns ensures ElectorsOlder(d, u, d.reigns[u]) {
      if u != e.term { assert ElectorsOlder(c, u, c.reigns[u]); }
    }
  }

  lemma LedKept(c: State, d: State, n: Id, e: Entry)
    requires VotesRecorded(c) && LogsOk(c) && StorageInv(c) && LedOnly(c, d, n, e)
    requires ElectorsOlder(d, e.term, d.reigns[e.term])
    ensures StorageInv(d)
  {
    LedAcksOk(c, d, n, e);
    LedStored(c, d, n, e);
    LedVoters(c, d, n, e);
    LedFair(c, d, n, e);
    LedElectors(c, d, n, e);
  }

  /** Everyone in the quorum had a log no more up to date than the one the leader starts from. */
  lemma NewElectors(c: State, n: Id)
    requires VotesRecorded(c) && VoteRpcsOk(c) && VotesFair(c) && Elected(c, n)
    ensures var d := InOffice(c, n); ElectorsOlder(d, Term(c, n), d.reigns[Term(c, n)])
  {
    var d := InOffice(c, n);
    var r := d.reigns[Term(c, n)];
    assert r.log[..r.base] == c.nodes[n].log;
    forall v | v in r.quorum && (Term(c, n), v) in d.votes
      ensures Newer(r.log[..r.base], d.votes[(Term(c, n), v)].log)
    {
      SupportersVoted(c, n, v);
      assert Restricted(c, Term(c, n), c.votes[(Term(c, n), v)]);
    }
  }

  lemma InOfficeKept(c: State, n: Id)
    requires VotesRecorded(c) && VoteRpcsOk(c) && LogsOk(c) && StorageInv(c)
    requires Elected(c, n) && Term(c, n) !in c.reigns
    ensures StorageInv(InOffice(c, n))
  {
    InOfficeLed(c, n);
    NewElectors(c, n);
    LedKept(c, InOffice(c, n), n, NextEntry(c.nodes[n], NOOP_COMMAND));
  }

  lemma SameBase(c: State, n: Id, command: Command)
    requires ReignsOk(c) && ElectionsFair(c) && Leads(c, n) && Term(c, n) in c.reigns
    ensures var d := Appended(c, n, command); ElectorsOlder(d, Term(c, n), d.reigns[Term(c, n)])
  {
    var t := Term(c, n);
    var r := Appended(c, n, command).reigns[t];
    assert ElectorsOlder(c, t, c.reigns[t]) && ReignOk(t, c.reigns[t]);
    assert r.log[..r.base] == c.reigns[t].log[..r.base];
  }

  lemma AppendedKept(c: State, n: Id, command: Command)
    requires VotesRecorded(c) && ReignsElected(c) && LogsOk(c) && ReignsOk(c) && StorageInv(c) && Leads(c, n)
    ensures StorageInv(Appended(c, n, command))
  {
    OnlyLeader(c, n);
    AppendedLed(c, n, command);
    SameBase(c, n, command);
    LedKept(c, Appended(c, n, command), n, NextEntry(c.nodes[n], command));
  }

  // ---- followers storing entries ---------------------------------------------------------

  /** What the old log and the leader's log both carry, the new log carries. */
  lemma ResultCarries(log: seq<Entry>, lead: seq<Entry>, m: nat, p: seq<Entry>, k: nat)
    requires m <= |lead| && Shares(log, p, k) && Shares(lead, p, k)
    ensures Shares(AcceptedResult(log, lead, m), p, k)
  {
    if !Shares(log, lead, m) && k > m {
      assert Shares(log, lead, m);
    }
  }

  lemma AcceptedAcks(c: State, i: nat)
    requires AppendRpcsOk(c) && AcksOk(c) && MayAccept(c, i)
    ensures AcksOk(Accepted(c, i))
  {
    var r := c.appendRpcs[i];
    assert AppendRpcOk(c, r);
    NewAckOk(c, Accepted(c, i), r.args.term, r.dst, r.args.prevLogIndex + |r.args.entries|);
  }

  /** A follower's ack of part of its term's leader log. */
  lemma NewAckOk(c: State, d: State, t: nat, v: Id, k: nat)
    requires AcksOk(c) && AckOk(c, t, v, k) && c.nodes[v].role == Follower
    requires v in d.nodes && d.nodes == c.nodes[v := d.nodes[v]] && Term(d, v) == Term(c, v)
             && d.nodes[v].role == Follower
    requires d.reigns == c.reigns && d.acked == c.acked[(t, v) := Max(Acked(c, t, v), k)]
    ensures AcksOk(d)
  {
    forall u, w | (u, w) in d.acked ensures AckOk(d, u, w, d.acked[(u, w)]) {
      if (u, w) in c.acked { assert AckOk(c, u, w, c.acked[(u, w)]); }
    }
    forall n | n in d.nodes && d.nodes[n].role == Leader ensures Stored(d, Term(d, n), n, |d.nodes[n].log|) {
      assert Stored(c, Term(c, n), n, |c.nodes[n].log|);
    }
  }

  lemma AcceptedStoredAt(c: State, i: nat, t: nat, k: nat)
    requires LogsOk(c) && AppendRpcsOk(c) && AcksOk(c) && StoredKept(c) && MayAccept(c, i)
    requires var r := c.appendRpcs[i];
             Stored(Accepted(c, i), t, r.dst, k) && t in c.reigns && Carried(c, t, k, r.args.term)
    ensures Shares(Accepted(c, i).nodes[c.appendRpcs[i].dst].log, LogOf(c, t), k)
  {
    var r := c.appendRpcs[i];
    var v, T, m := r.dst, r.args.term, r.args.prevLogIndex + |r.args.entries|;
    assert AppendRpcOk(c, r);
    AcceptedLog(c, i);
    var log, lead := c.nodes[v].log, LogOf(c, T);
    if t == T && k <= m {
      assert Shares(AcceptedResult(log, lead, m), lead, m);
    } else {
      assert Stored(c, t, v, k) && AckOk(c, t, v, c.acked[(t, v)]);
      assert Shares(log, LogOf(c, t), k);
      assert Shares(lead, LogOf(c, t), k);
      ResultCarries(log, lead, m, LogOf(c, t), k);
    }
  }

  lemma AcceptedStored(c: State, i: nat)
    requires LogsOk(c) && AppendRpcsOk(c) && AcksOk(c) && StoredKept(c) && MayAccept(c, i) && AcksOk(Accepted(c, i))
    ensures StoredKept(Accepted(c, i))
  {
    var d := Accepted(c, i);
    var w := c.appendRpcs[i].dst;
    forall t: nat, v: Id, k: nat | Stored(d, t, v, k) && Carried(d, t, k, Term(d, v))
      ensures Shares(d.nodes[v].log, LogOf(d, t), k)
    {
      assert AckOk(d, t, v, d.acked[(t, v)]);
      SameCarried(d, c, t, k, Term(d, v));
      if v == w { AcceptedStoredAt(c, i, t, k); } else { assert Stored(c, t, v, k); }
    }
  }

  lemma AcceptedVoters(c: State, i: nat)
    requires VotesRecorded(c) && AcksOk(c) && VotersKept(c) && MayAccept(c, i) && AcksOk(Accepted(c, i))
    ensures VotersKept(Accepted(c, i))
  {
    var d := Accepted(c, i);
    forall u: nat, t: nat, v: Id, k: nat | Counts(d, u, v) && t < u && Stored(d, t, v, k) && Carried(d, t, k, u - 1)
      ensures Shares(d.votes[(u, v)].log, LogOf(d, t), k)
    {
      assert VoteRecorded(c, u, v, c.votes[(u, v)]);
      assert Counts(c, u, v) && Stored(c, t, v, k);
      SameCarried(d, c, t, k, u - 1);
    }
  }

  lemma AcceptedFair(c: State, i: nat)
    requires RequestsFair(c) && VotesFair(c) && ElectionsFair(c) && MayAccept(c, i)
    ensures var d := Accepted(c, i); RequestsFair(d) && VotesFair(d) && ElectionsFair(d)
  {
    var d := Accepted(c, i);
    forall j | 0 <= j < |d.voteRpcs| ensures Advertises(d, d.voteRpcs[j]) {
      assert Advertises(c, c.voteRpcs[j]);
    }
    forall u, v | (u, v) in d.votes ensures Restricted(d, u, d.votes[(u, v)]) {
      assert Restricted(c, u, c.votes[(u, v)]);
    }
    SameElectors(c, d);
  }

  lemma AcceptedKept(c: State, i: nat)
    requires VotesRecorded(c) && LogsOk(c) && AppendRpcsOk(c) && StorageInv(c) && MayAccept(c, i)
    ensures StorageInv(Accepted(c, i))
  {
    AcceptedAcks(c, i);
    AcceptedStored(c, i);
    AcceptedVoters(c, i);
    AcceptedFair(c, i);
  }
}
