# RaftKV, verified

RaftKV is a replicated key-value store: servers that elect a leader, replicate a
log with the Raft protocol (Ongaro and Ousterhout 2014, Figure 2 and section 5),
keep log and metadata on disk, and apply committed commands to a map. This
project models it in three layers and proves what the layers promise, over every
run, every input and every byte string.

1. **The protocol** (`Cluster.dfy` on top of `RaftNode.dfy`). Any number of
   servers take atomic steps, one per critical section under `raft_mutex`:
   election timeouts, the *separate* broadcast that reads whatever term holds by
   then, RequestVote and AppendEntries in both directions, client appends, and
   crashes, also between any two durable writes of one critical section. Every RPC is a one-shot
   connection: the request is handled at most once, the reply is taken at most
   once by the thread that sent it, and either may be lost or arbitrarily late.
   `Invariants.dfy` states what every reachable state satisfies, the `...Kept`
   modules and `Runs.dfy` prove it step by step, and `Safety.dfy`, `Clients.dfy`
   and `CommitScan.dfy` draw the consequences for whole runs. `Bookkeeping.dfy` and
   `Handlers.dfy` say what servers must do, not only what they must not: who is
   granted a vote, who wins, which requests succeed, what is committed. `FalseAnswer.dfy` and
   `StaleRead.dfy` give runs (`CalmRuns.dfy`) in which an answer is wrong.
2. **The server** (`RaftServer.dfy`, `CatchUp.dfy`, `CrashRecovery.dfy`). A class
   whose methods update role, metadata, log and maps in place, loop by loop as in
   `server.cpp`. Each is proved to do exactly what the `RaftNode` function of its
   step says, which is the function the cluster takes its steps with; to leave
   the disk holding exactly the metadata and log in memory; and to write to disk
   exactly the states listed for it, in that order.
   `CrashPoints.dfy` shows that coming up from any of them is an event of the cluster.
3. **Bytes** (`Crc.dfy`, `Codec.dfy`, `LogFile.dfy`, `EntryCodec.dfy`, `Rpc.dfy`,
   `Storage.dfy`). Checksum, log-entry format, parser, RPC bodies and files.
   `EndToEnd.dfy` carries the round trips over whole runs of layer 1.

## What turned out false

`proposeAndWait` reports success when the server leads and `commitIndex` has
reached the entry's index (server.cpp:550-567). It does not check that the entry
at that index is still the client's. `FalseAnswer.SuccessCanBeFalse` gives a run
of three servers without a crash in which a client is told "OK" for an entry no
server holds any more: the waiting thread sleeps while its server loses its term,
has the entry overwritten, and leads again. `Clients.AnswerIsTrueIffTermMatches`
proves the exact condition: a success answer is true if and only if the entry now
at that index has the term the client's entry was proposed in. A server still in
that term meets it (`Clients.SameTermAnswerIsTrue`). Everything proved about
acknowledged entries assumes just that condition.

A GET waits in the same way for the marker it puts into the log. `StaleRead.ReadCanBeStale`
gives a run of three servers without a crash in which a write is acknowledged, a GET of
its key is appended after that by a leader that has not heard of the newer term, and the
GET is answered with the value before the write, at a moment when every server holds the
write: the marker is overwritten, and its server leads again before it has committed the
write. `Clients.ReadSeesWriteIff` proves when this happens, for all runs: whoever answers a
GET holds every write committed before the GET was appended, and the answer accounts for
it if and only if its index is not above the server's `commitIndex`. It never is if the
marker still has its term, nor if the entry at `commitIndex` is of the server's own term,
which a server could check before it answers.

A command whose key or value has 65536 bytes or more is printed with truncated
lengths (server.cpp:575-576, 583) and does not survive the log file or the wire:
`LogFile.RoundTripIffSized` and `Rpc.AppendArgsRoundTrip` are equivalences.

The comment at server.cpp:771 calls `commitIndex` volatile; the code persists it
and replays up to it on recovery, and so does the model.

## Assumptions

- Peer ids are distinct, not 0, do not include the server itself, and all servers agree on the membership.
- Terms and indices stay below 2^64 and message bodies below 2^32; the model's numbers are unbounded, and the
  byte layer states the bounds where it needs them.
- Keys and values are shorter than 65536 bytes. The steps of layer 1 pass entries on as they are, which the code does
  only for commands with true length fields, so the theorems about runs speak of the code for runs that satisfy
  `EndToEnd.SizedEvents`, where every message and every log survives its bytes (`EndToEnd.MessagesFaithful`,
  `EndToEnd.DisksFaithful`).
- Each `updateMetaData` and each `rewriteLog` is atomic for crashes. An append may be torn.
- Two entries are equal when term, index and command are; the in-memory `Checksum` field is not part of an entry.
- Randomness, clocks and scheduling become nondeterministic events; `running` is a parameter.

## Model

| member | source | states |
|---|---|---|
| Runs.StepKept | raftkv/src/server.cpp:102-302 | every event of the cluster, crashes between durable writes included, keeps the full invariant (elections, logs, storage, commitment, leader bookkeeping) |
| Runs.RunKept | raftkv/src/server.cpp:204-568 | the invariant holds in every state of every run from fresh data directories |
| History.RunOnward | raftkv/src/server.cpp:102-145 | between any two moments of a run leader logs only grow, acknowledged storage only grows, and no server's term or commit index falls, restarts included |
| Safety.ElectionSafety | raftkv/src/server.cpp:204-235 | over a whole run, two servers that lead the same term at any two moments are the same server |
| Safety.VoteCounter | raftkv/src/server.cpp:360-367 | a candidate's votes_received is the size of a set made of itself and distinct members, each with a durable vote for it in that term, which it has at every later moment of the run |
| Safety.VoteIsForGood | raftkv/src/server.cpp:219-229 | a vote once cast is the same at every later moment of the run, restarts included |
| Safety.NoLateVote | raftkv/src/server.cpp:208-217 | a server never votes in a term it has left |
| Safety.ElectorsNotNewer | raftkv/src/server.cpp:219-233 | in any reachable state, the log each elector of a term's leader had when it voted ended in an earlier term than the leader's did when it was elected, or in the same term and no further on, however late requests and replies came |
| Safety.OneBroadcastPerCandidacy | raftkv/src/server.cpp:334-343 | no two RequestVotes of a run share sender, term and receiver, although the broadcast reads the term after retaking the lock |
| Safety.LogNumbered | raftkv/src/server.cpp:538-542 | log[i].index == i+1, terms never decrease along a log, and none exceeds the server's currentTerm |
| Safety.LogMatching | raftkv/src/server.cpp:262-285 | two logs of any two servers at any two moments with the same term at an index are the same up to that index |
| Safety.SliceMatching | raftkv/src/server.cpp:393-408 | the same for a log and the entries of any AppendEntries in flight, including the term claimed for prevLogIndex |
| Safety.DeliveredAppend | raftkv/src/server.cpp:262-286 | in any reachable state a matching AppendEntries leaves the log unchanged if it holds the leader's log up to the last entry sent and otherwise makes it exactly that prefix, and never touches a committed entry |
| Safety.LeaderCompleteness | raftkv/src/server.cpp:131-145 | what any server has committed in some term is in the log of every server that leads a later term at any moment of the run, and of the same term from then on |
| Safety.CommittedBeforeOffice | raftkv/src/server.cpp:131-177 | a server that takes office in a later term than it was in when something was committed by term t does so in a term above t |
| Safety.CommittedIsForGood | raftkv/src/server.cpp:268-298 | commit indices never fall and the committed prefix of a log is never removed or replaced, restarts included |
| Safety.CommittedAgree | raftkv/src/server.cpp:288-298 | the committed prefixes of any two servers at any two moments agree |
| Safety.AppliedIsCommitted | raftkv/src/server.cpp:114-124 | whenever the lock is free lastApplied == commitIndex <= log length, and the map is the replay of exactly that prefix |
| Safety.StateMachineSafety | raftkv/src/server.cpp:114-145 | any two servers at any two moments applied the same commands at the indices both applied; equal lastApplied means equal maps |
| Safety.MatchIndexSound | raftkv/src/server.cpp:430-446 | matchIndex < nextIndex <= log length + 1, and a peer still in the leader's term holds the leader's log up to matchIndex |
| Safety.MismatchAboveMatch | raftkv/src/server.cpp:441-445 | a mismatch reply a leader still waits for answers a probe at nextIndex - 1, strictly above matchIndex |
| Safety.OwnTermLast | raftkv/src/server.cpp:155-162 | a leader's log ends with an entry of its own term |
| CommitKept.LeaderCompleteness | raftkv/src/server.cpp:219-225 | an entry of term t stored by a quorum during t is in every later leader's log, by quorum intersection, the election restriction and induction over the terms between |
| CommitKept.AcceptedKeepsCommitted | raftkv/src/server.cpp:270-277 | the conflict branch of AppendEntries never removes an index at or below commitIndex |
| CommitKept.LeaderCommits | raftkv/src/server.cpp:134-138 | an index of the current term counted on a majority of matchIndex values really is stored by a quorum |
| CommitKept.FollowerCommits | raftkv/src/server.cpp:289-294 | what a follower commits on its leader's word is committed |
| ElectionKept.TermIsFree | raftkv/src/server.cpp:362-367 | a candidate that has counted a majority is the first to win its term |
| ElectionKept.QuorumsMeet | raftkv/src/server.cpp:75 | two sets of more than half of the members share a server |
| RaftTypes.MajorityIsMoreThanHalf | raftkv/src/server.cpp:75 | a majority is more than half, and more than half is enough |
| StorageKept.VotedVotes | raftkv/src/server.cpp:219-228 | granting a vote keeps the rule that, while a candidate stands in the term of a vote it got, its log is at least as up to date as the voter's was |
| ProgressKept.RejectionAbove | raftkv/src/server.cpp:263-266 | a follower in the leader's term rejects only probes above what it acknowledged in that term |
| Clients.AnswersExactly | raftkv/src/server.cpp:550-567 | what a waiting client is told, in every reachable state: OK with the entry's index and term exactly from a running leader that has committed up to the index, a value or NOT_FOUND under the same condition for a read and then from the committed prefix, a timeout exactly from a leader short of the index, the leader exactly from a server that does not lead |
| Clients.AnswerIsTrueIffTermMatches | raftkv/src/server.cpp:550-567 | a client told success holds a committed entry if and only if the entry at its index still has the term it was proposed in |
| Clients.SameTermAnswerIsTrue | raftkv/src/server.cpp:550-567 | whatever success a server still in the term of the proposal answers is about the client's own, committed entry |
| Clients.AcknowledgedSurvives | raftkv/src/server.cpp:534-568 | an entry committed as acknowledged is in the log of every leader of a later term at any moment, and of the same term from then on |
| Clients.AcknowledgedIsApplied | raftkv/src/server.cpp:534-568 | every server that later commits up to its index has applied that entry there |
| Clients.AppendedAbove | raftkv/src/server.cpp:538-543 | an entry appended after another is known committed, and committed itself, has a higher index and the other below it, even if appended by a stale leader |
| Clients.ReadSeesWrites | raftkv/src/server.cpp:588-593 | a GET answered truthfully reads the replay of a committed prefix that contains, below its marker, every write known committed before the GET was appended |
| Clients.ReadSeesReads | raftkv/src/server.cpp:562-565 | a truthful GET reads everything any server had committed before the GET was appended, so also all that any earlier GET had read past its own marker |
| Clients.ReadSeesWriteIff | raftkv/src/server.cpp:550-567 | whatever became of its marker, a GET is answered by a server that holds every write committed before the GET was appended, and the answer accounts for the write if and only if the write is not above commitIndex; it is not if the marker's term still matches or the entry at commitIndex is of the server's own term |
| Clients.LastWriteDecides | raftkv/src/server.cpp:562-565 | what a GET answers is the last committed write of its key |
| Clients.NeverWritten | raftkv/src/server.cpp:562-565 | and NOT_FOUND if there is none |
| Commands.CommandEffects | raftkv/src/server.cpp:570-593 | the command of a PUT maps its key to its value in every store, that of a DELETE unmaps its key, and the marker of a GET changes nothing |
| Commands.OperationCodes | raftkv/src/statemachine.cpp:15-28 | the operation byte of a PUT is 1, of a DELETE 2, of a GET's marker 3 |
| Clients.OnlyWritesMatter | raftkv/src/statemachine.cpp:19-28 | no other command changes what a store says of a key |
| Clients.GetAnswersLastWrite | raftkv/src/server.cpp:562-565 | a GET is answered with the value of the last PUT of its key in the committed prefix, and NOT_FOUND if that is a DELETE |
| Clients.PutThenGet | raftkv/src/server.cpp:588-593 | a PUT known committed before a GET of its key is appended, and not followed by another write of it, is what the GET answers, if the marker's term still matches |
| FalseAnswer.SuccessCanBeFalse | raftkv/src/server.cpp:550-567 | there is a run without crashes in which a client is told success for an entry that no server holds |
| StaleRead.ReadCanBeStale | raftkv/src/server.cpp:550-567 | there is a run without crashes in which a GET appended after a write of its key was acknowledged is answered with another value, while every server holds the write and none a later one |
| CommitScan.ScanIsOrderStatistic | raftkv/src/server.cpp:131-145 | with non-decreasing terms the downward scan moves exactly to the largest index that more than half of the servers reach, which is the middle of the leader's last index and all matchIndex values in order, if that is above commitIndex and of the current term, and otherwise nowhere |
| CommitScan.LeaderCommitsOrderStatistic | raftkv/src/server.cpp:131-145 | the same for every leader in every reachable state |
| CommitScan.FullReplicationCommitsAll | raftkv/src/server.cpp:134-142 | once more than half of the members are known to hold the whole log the scan commits the whole log |
| Handlers.NothingLeftToCommit | raftkv/src/server.cpp:131-145 | in every reachable state a leader has committed every entry of its own term that it knows more than half of the members to hold |
| Handlers.TermsAdopted | raftkv/src/server.cpp:204-302 | whoever takes a request or a reply is in the later of its own term and the message's from then on, as a follower if the message's is later |
| Handlers.RepliesCarryTerm | raftkv/src/server.cpp:204-302 | every reply carries the term its sender is in when it sends it |
| Handlers.GrantsInFreshTerm | raftkv/src/server.cpp:219-228 | in a term the voter has not reached a vote is granted if and only if the voter's last term and index do not lie lexicographically above the candidate's |
| Handlers.SomeoneElectable | raftkv/src/server.cpp:219-228 | among any servers there is one whose request all the others grant in any term new to them |
| Handlers.GrantsExactly | raftkv/src/server.cpp:204-235 | in every reachable state a vote is granted if and only if the voter is not past the term, has durably voted for nobody else in it, and its log does not end above the candidate's |
| Handlers.WinsExactly | raftkv/src/server.cpp:360-367 | a granted vote makes a running candidate leader if and only if those counted, its own included, are then more than half of the members |
| Handlers.StandsExactly | raftkv/src/server.cpp:500-521 | the election timer opens the next term with a vote for itself; the sole member of a cluster leads at once, anyone else goes on to ask |
| Handlers.BroadcastAsksAll | raftkv/src/server.cpp:334-350 | the broadcast asks every other member |
| Handlers.OfficeStarts | raftkv/src/server.cpp:151-177 | whatever event makes a server lead, its log has grown by a NOOP of the term, and every peer starts right behind that with matchIndex 0 |
| Handlers.AcceptsExactly | raftkv/src/server.cpp:241-266 | in every reachable state an AppendEntries succeeds if and only if the receiver is not past its term and its log begins with the leader's up to prevLogIndex |
| Handlers.FollowsCommitExactly | raftkv/src/server.cpp:288-298 | an AppendEntries that succeeds, heartbeats included, leaves the commit index at the larger of what it was and min(leaderCommit, prevLogIndex + entries), one that fails leaves it |
| Handlers.MatchNeverFalls | raftkv/src/server.cpp:435-440 | no reply lowers matchIndex of any peer |
| Handlers.RedirectNamesLeader | raftkv/src/server.cpp:526-529 | a redirect comes from a server that does not lead and names the one that more than half of the members elected for its term |
| Handlers.OnlyLeader | raftkv/src/server.cpp:526-529 | no other server leads that term at any moment of the run |
| Handlers.FollowerRedirects | raftkv/src/server.cpp:249-257 | whoever takes an AppendEntries of its own or a later term names the sender from then on |
| Bookkeeping.RunExactly | raftkv/src/server.cpp:102-108 | in every reachable state votedFor is the server's recorded vote of its term, and 0 if it has cast none |
| Bookkeeping.RunKnown | raftkv/src/server.cpp:102-108 | and current_leader_id is 0 or the leader elected for its term, its own id on a leader and 0 on a candidate |
| Reconciliation.ReconcileIs | raftkv/src/server.cpp:268-286 | given log matching, steps 4 and 5 leave the log unchanged if all entries are present and otherwise yield the prefix up to prevLogIndex followed by the entries sent |
| Reconciliation.Redelivered | raftkv/src/server.cpp:268-286 | handling the same entries again changes nothing |
| Reconciliation.DelayedSlice | raftkv/src/server.cpp:268-286 | a delayed shorter or earlier slice of stored entries never shrinks or changes the log |
| Reconciliation.LongerSlice | raftkv/src/server.cpp:268-286 | a longer one extends the log to exactly what it carries |
| RaftServer.Server.StepDown | raftkv/src/server.cpp:102-108 | the step RaftNode.StepDown, durable before it returns |
| RaftServer.Server.ApplyEntries | raftkv/src/server.cpp:114-122 | the loop leaves the map folded over exactly the entries from lastApplied to min(commitIndex, log length) |
| RaftServer.Server.ApplyCommitted | raftkv/src/server.cpp:114-124 | the same, and the metadata reaches the disk exactly if anything was applied |
| RaftServer.Server.CountReplicas | raftkv/src/server.cpp:136-137 | the inner loop counts the leader and the set of peers whose matchIndex reaches the index |
| RaftServer.Server.AdvanceCommit | raftkv/src/server.cpp:131-145 | the two loops compute RaftNode.AdvanceCommit, writing metadata exactly if the commit index moved |
| RaftServer.Server.BecomeLeader | raftkv/src/server.cpp:151-177 | leads with a NOOP of the term on disk before anything is committed, every peer's indices reset |
| RaftServer.Server.ElectionTimeout | raftkv/src/server.cpp:500-521 | a leader ignores the timer; otherwise the candidacy is durable, and only a server without peers wins at once |
| RaftServer.Server.PrepareVoteRequest | raftkv/src/server.cpp:335-342 | the request carries whatever term and log hold when the lock is retaken |
| RaftServer.Server.HandleRequestVote | raftkv/src/server.cpp:204-235 | new state and reply are those of the cluster's step, a higher term and then the vote durable in that order |
| RaftServer.Server.OnVoteReply | raftkv/src/server.cpp:360-367 | new state of the cluster's step: step down on a higher term, count only for the running candidacy, lead at a majority |
| RaftServer.Server.MergeEntries | raftkv/src/server.cpp:268-285 | the loop over entries turns the log into Reconcile of the old log, and reports a change exactly if some entry was missing or conflicting |
| RaftServer.Server.StoreEntries | raftkv/src/server.cpp:268-286 | the same with the file rewritten exactly if the log changed |
| RaftServer.Server.CommitFrom | raftkv/src/server.cpp:288-298 | the commit index moves only up, to min(leaderCommit, last new entry, last log index) |
| RaftServer.Server.HandleAppendEntries | raftkv/src/server.cpp:241-302 | new state and reply are those of the cluster's step; term, log and commit index reach the disk in that order |
| RaftServer.Server.BuildAppend | raftkv/src/server.cpp:393-408 | the loop collects exactly the log from nextIndex on |
| RaftServer.Server.OnAppendReply | raftkv/src/server.cpp:430-446 | new state of the cluster's step, and whether the sender still leads |
| RaftServer.Server.Propose | raftkv/src/server.cpp:536-547 | a server that does not lead redirects and changes nothing; a leader has the entry on disk before it may be committed |
| RaftServer.Server.Conclude | raftkv/src/server.cpp:555-567 | the answer after the wait, case by case |
| RaftServer.Server.LoadLog | raftkv/src/server.cpp:760-769 | the log is exactly the entries that parse and the file exactly their bytes |
| RaftServer.Server.Recover | raftkv/src/server.cpp:752-791 | the process comes up as RaftNode.Recovered of what the disk held, in a valid state if the peers are distinct and the entries numbered from 1, and a crash anywhere during recovery comes up the same |
| CatchUp.Failure | raftkv/src/server.cpp:441-445 | a failed probe had nextIndex above 1 and lowers it by exactly one; the follower's log is unchanged, and the leader's but for what arrived meanwhile |
| CatchUp.Success | raftkv/src/server.cpp:435-440 | the first success leaves the follower with everything sent and matchIndex at its end, although the leader's log may have grown since, and has the follower commit at least what the leader had committed when it built the probe, heartbeat or not |
| CatchUp.Replicate | raftkv/src/server.cpp:389-447 | against an answering follower the loop ends after at most the initial nextIndex probes, with the follower holding at least the log the leader began with and committed as far, whatever clients append and other peers have the leader commit between a request and its reply |
| CrashRecovery.FirstBoot | raftkv/src/server.cpp:741-791 | a server started on an empty data directory is valid and is the server of the cluster's initial state |
| CrashRecovery.Reboot | raftkv/src/server.cpp:752-791 | a crash between handlers and recovery give back the same term, vote, log, commit index and map |
| CrashRecovery.RebootAfterTornAppend | raftkv/src/server.cpp:763-769 | a crash in the middle of an append gives back exactly the log before it, file cut to match |
| CrashPoints.ComesUp | raftkv/src/server.cpp:758-783 | a process starting from the bytes of any durable state is the cluster's restart of that state |
| CrashPoints.TimeoutCovered | raftkv/src/server.cpp:505-517 | every state the election timeout makes durable is one a crash event of the cluster restarts the server from, with no other server touched |
| CrashPoints.VoteCovered | raftkv/src/server.cpp:213-229 | the same for RequestVote |
| CrashPoints.VoteReplyCovered | raftkv/src/server.cpp:361-367 | the same for a vote reply |
| CrashPoints.AppendCovered | raftkv/src/server.cpp:252-298 | the same for AppendEntries: after the term, the log and the commit index |
| CrashPoints.AppendReplyCovered | raftkv/src/server.cpp:432-440 | the same for an AppendEntries reply |
| CrashPoints.ProposeCovered | raftkv/src/server.cpp:538-547 | the same for a client append |
| CrashPoints.ProposeTornCovered | raftkv/src/server.cpp:538-543 | coming up from a client append of which only some bytes reached the file is a crash event of the cluster, with no other server touched |
| CrashPoints.OfficeTornCovered | raftkv/src/server.cpp:155-162 | the same for the entry that opens a term won by votes |
| CrashPoints.SoloOfficeTornCovered | raftkv/src/server.cpp:505-517 | the same for a server without peers, whose candidacy is durable by then |
| Crc.TableStepIsFeed | raftkv/src/log.cpp:26-28 | one table lookup does what shifting eight message bits through the IEEE 802.3 register does |
| Crc.ChecksumTable.Init | raftkv/src/log.cpp:11-21 | the loops fill the table with eight turns of the register per byte |
| Crc.ChecksumTable.Compute | raftkv/src/log.cpp:23-30 | the table-driven loop returns the bit-by-bit CRC-32 of every byte string |
| Crc.PolynomialIsStandard | raftkv/src/log.cpp:11-21 | the constant is the IEEE 802.3 generator polynomial in reverse |
| Crc.BurstDetected | raftkv/src/log.cpp:23-30 | messages that differ only within four adjacent bytes have different CRCs |
| Codec.ByteAt | raftkv/src/rcp.cpp:90-101 | byte i of a number on the wire is its digit to base 256, most significant first |
| Codec.BodyFields | raftkv/src/log.cpp:44-65 | where the fields of a printed entry are |
| Codec.PrintedParses | raftkv/src/log.cpp:80-121 | an entry with true length fields is parsed back, whatever bytes follow |
| Codec.TornIsBroken | raftkv/src/log.cpp:75-102 | cut short anywhere it is not parsed |
| Codec.DamagedIsBroken | raftkv/src/log.cpp:112-119 | with up to four adjacent body bytes changed outside the length fields it is not parsed |
| LogFile.LogRoundTrip | raftkv/src/log.cpp:69-125 | parsing the printed log gives the log and uses every byte |
| LogFile.TornAppend | raftkv/src/log.cpp:69-125 | sound entries followed by any proper prefix of one more parse to exactly those entries, with valid_bytes their exact length |
| LogFile.OneByteDamage | raftkv/src/log.cpp:112-119 | one changed byte outside the length fields stops parsing at that entry's start with all earlier entries kept, whatever follows |
| LogFile.BurstDamage | raftkv/src/log.cpp:112-119 | the same for damage within four adjacent bytes of the body |
| LogFile.ParseThenPrint | raftkv/src/log.cpp:69-125 | for any bytes at all, printing the parsed entries reproduces exactly data[..valid_bytes] |
| LogFile.ReparseValid | raftkv/src/log.cpp:69-125 | and parsing that prefix again gives the same entries and uses all of it |
| LogFile.RoundTripIffSized | raftkv/src/command.cpp:19-48 | an entry survives printing and parsing if and only if its length fields are true and its numbers fit |
| LogFile.AppendedBytes | raftkv/src/storage.cpp:99-116 | appending an entry's bytes to the file of a log gives the file of the longer log |
| EntryCodec.PushNumber | raftkv/src/rcp.cpp:90-101 | the shifting loop appends the big-endian bytes of a number |
| EntryCodec.PullNumber | raftkv/src/rcp.cpp:107-117 | the shifting loop reads the number the bytes denote |
| EntryCodec.Serialize | raftkv/src/command.cpp:19-36 | the command's format |
| EntryCodec.SerializeLogEntry | raftkv/src/log.cpp:44-65 | the entry's format, checksum included |
| EntryCodec.DeserializeLogEntry | raftkv/src/log.cpp:69-125 | the parsing loop returns the entries up to the first broken one and the bytes they take, on every input |
| Storage.Disk.WriteLog | raftkv/src/storage.cpp:99-129 | the entry's bytes go behind the file and nothing else changes |
| Storage.Disk.ReadLogs | raftkv/src/storage.cpp:133-157 | entries and valid bytes of whatever the file holds |
| Storage.Disk.RewriteLog | raftkv/src/storage.cpp:173-198 | the loop leaves the file holding exactly the bytes of the entries, in one durable write |
| Storage.Disk.UpdateMetaData | raftkv/src/storage.cpp:50-77 | the metadata is replaced as a whole |
| Storage.KeyValueStore.ApplyCommand | raftkv/src/statemachine.cpp:19-28 | PUT and DELETE change only their key, anything else nothing |
| Rpc.VoteArgsRoundTrip | raftkv/src/rcp.cpp:143-161 | a vote request is its four numbers in this order and survives the wire if and only if they fit 64 bits |
| Rpc.ReplyRoundTrip | raftkv/src/rcp.cpp:244-258 | so does either reply, a term and a flag byte |
| Rpc.HeaderFields | raftkv/src/rcp.cpp:187-208 | where the header's numbers are in an AppendEntries |
| Rpc.AppendArgsRoundTrip | raftkv/src/rcp.cpp:187-238 | an AppendEntries survives the wire with no entry dropped or changed if and only if its numbers fit and every entry's length fields are true |
| Rpc.SerializeRequestVoteArgs | raftkv/src/rcp.cpp:143-151 | writes that format |
| Rpc.SerializeAppendEntriesArgs | raftkv/src/rcp.cpp:187-208 | the loop writes every entry behind its length |
| Rpc.DeserializeAppendEntriesArgs | raftkv/src/rcp.cpp:210-238 | the loop reads what the format says |
| Commands.ClientCommandsSized | raftkv/src/server.cpp:570-593 | PUT and DELETE commands have true length fields if and only if key and value are shorter than 65536 bytes, a GET's always |
| EndToEnd.MessagesFaithful | raftkv/src/rcp.cpp:187-238 | in a run whose clients propose such commands every AppendEntries ever sent is received exactly as sent |
| EndToEnd.DisksFaithful | raftkv/src/storage.cpp:133-157 | and every server's log at every moment is read back from its bytes unchanged |
| EndToEnd.SentInPlace | raftkv/src/server.cpp:406-407 | the entries of every AppendEntries ever sent follow its prevLogIndex without a gap |
| EndToEnd.ReplicationReady | raftkv/src/server.cpp:389-408 | every leader and peer in every reachable state meet what the catch-up loop needs: tracking, log matching, and no entry of the leader's term beyond its log |

## Left out

- Sockets, poll, threads and condition variables: each lock-held section is one atomic step, sends and waits are later steps.
- Timer randomness and liveness: a timeout may fire at any time; only the catch-up loop is proved to end.
- The CLI and its retries, text command parsing, `handleStatus`, `handleDump`, `handleHash`: network and output formatting.
- `peerUp`, console output, `metadata.txt`, `logs.txt`, file descriptors and failed or short writes, whose results the callers ignore.
- The raw struct in `metadata.bin` and the zeros a short read of it falls back to: the model writes metadata atomically.
- Insertion of zeros by `operator[]` on `nextIndex` and `matchIndex`: a missing key reads as 0 and stays missing.
- Wrap-around of 64-bit terms and indices: numbers are unbounded, with explicit bounds in the byte layer.
- The 5-byte RPC header and bodies no encoder wrote: only encoded bodies are claimed to decode.
- CatchUp.Replicate: assumes the follower answers every probe and leadership is kept, as the loop's own exit conditions otherwise end it. Between a request and its reply clients and other peers reach the leader; requests of an earlier term change nothing there and are not among the arrivals.
- Rpc.DeserializeAppendEntriesArgs: requires the 44-byte header and stops where a frame length would lie past the end of the body; the code reads past the end of such bodies, which no encoder writes.
- EntryCodec.DeserializeLogEntry: the second size check of the parser (log.cpp:91-94) cannot fail after the first and has no counterpart.
- Snapshots, pre-vote, fast backtracking and membership change: not implemented in RaftKV.
