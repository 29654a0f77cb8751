// The bodies of the RPCs on the wire (rcp.cpp).
module Rpc {
  import opened RaftTypes
  import opened Crc
  import opened Codec
  import opened LogFile
  import opened EntryCodec

  // ---- RequestVote and the replies -------------------------------------------------------

  function VoteArgsBytes(a: VoteArgs): Bytes {
    BigEndian(a.term, 8) + BigEndian(a.candidateId, 8) + BigEndian(a.lastLogIndex, 8) + BigEndian(a.lastLogTerm, 8)
  }

  function ParseVoteArgs(body: Bytes): VoteArgs
    requires |body| >= 32
  {
    VoteArgs(Number(body[..8]), Number(body[8..16]), Number(body[16..24]), Number(body[24..32]))
  }

  function FlagReplyBytes(term: nat, flag: bool): Bytes {
    BigEndian(term, 8) + [if flag then 1 else 0]
  }

  function ParseVoteReply(body: Bytes): VoteReply
    requires |body| >= 9
  {
    VoteReply(Number(body[..8]), body[8] != 0)
  }

  function ParseAppendReply(body: Bytes): AppendReply
    requires |body| >= 9
  {
    AppendReply(Number(body[..8]), body[8] != 0)
  }

  lemma FieldFits(v: nat, width: nat)
    ensures Number(BigEndian(v, width)) == v <==> v < Pow256(width)
  {
    BytesOfNumber(BigEndian(v, width));
    if v < Pow256(width) { NumberOfBytes(v, width); }
  }

  /** A vote request is its four numbers in this order, and survives the wire exactly if they fit 64 bits. */
  lemma VoteArgsRoundTrip(a: VoteArgs)
    ensures var body := VoteArgsBytes(a);
            && |body| == 32 && body[..8] == BigEndian(a.term, 8) && body[8..16] == BigEndian(a.candidateId, 8)
            && body[16..24] == BigEndian(a.lastLogIndex, 8) && body[24..32] == BigEndian(a.lastLogTerm, 8)
    ensures ParseVoteArgs(VoteArgsBytes(a)) == a <==>
            a.term < U64 && a.candidateId < U64 && a.lastLogIndex < U64 && a.lastLogTerm < U64
  {
    Widths();
    VoteFields(BigEndian(a.term, 8), BigEndian(a.candidateId, 8), BigEndian(a.lastLogIndex, 8),
        BigEndian(a.lastLogTerm, 8));
    FieldFits(a.term, 8);
    FieldFits(a.candidateId, 8);
    FieldFits(a.lastLogIndex, 8);
    FieldFits(a.lastLogTerm, 8);
  }

  lemma VoteFields(t: Bytes, c: Bytes, i: Bytes, l: Bytes)
    requires |t| == |c| == |i| == |l| == 8
    ensures var body := t + c + i + l; body[..8] == t && body[8..16] == c && body[16..24] == i && body[24..32] == l
  {
  }

  lemma ReplyRoundTrip(term: nat, flag: bool)
    ensures var body := FlagReplyBytes(term, flag);
            |body| == 9 && body[..8] == BigEndian(term, 8) && body[8] == if flag then 1 else 0
    ensures ParseVoteReply(FlagReplyBytes(term, flag)) == VoteReply(term, flag) <==> term < U64
    ensures ParseAppendReply(FlagReplyBytes(term, flag)) == AppendReply(term, flag) <==> term < U64
  {
    Widths();
    FieldFits(term, 8);
    assert FlagReplyBytes(term, flag)[..8] == BigEndian(term, 8);
  }

  // ---- AppendEntries --------------------------------------------------------------------------

  function HeaderBytes(a: AppendArgs): (r: Bytes)
    ensures |r| == 44
  {
    BigEndian(a.term, 8) + BigEndian(a.leaderId, 8) + BigEndian(a.prevLogIndex, 8) + BigEndian(a.prevLogTerm, 8)
    + BigEndian(a.leaderCommit, 8) + BigEndian(|a.entries|, 4)
  }

  /** An entry behind its own length. */
  function Frame(e: Entry): Bytes {
    BigEndian(|EntryBytes(e)|, 4) + EntryBytes(e)
  }

  function Frames(entries: seq<Entry>): Bytes {
    if entries == [] then [] else Frame(entries[0]) + Frames(entries[1..])
  }

  function AppendArgsBytes(a: AppendArgs): Bytes {
    HeaderBytes(a) + Frames(a.entries)
  }

  function FirstOf(entries: seq<Entry>): seq<Entry> {
    if entries == [] then [] else [entries[0]]
  }

  /** At most count framed entries; one that does not parse is dropped, a length beyond the end stops. */
  function ParseFrames(data: Bytes, count: nat): (r: seq<Entry>)
    decreases count
  {
    if count == 0 || |data| < 4 then []
    else
      var size := Number(data[..4]);
      if 4 + size > |data| then []
      else FirstOf(ParseAll(data[4..4 + size]).entries) + ParseFrames(data[4 + size..], count - 1)
  }

  function ParseAppendArgs(body: Bytes): AppendArgs
    requires |body| >= 44
  {
    AppendArgs(Number(body[..8]), Number(body[8..16]), Number(body[16..24]), Number(body[24..32]),
               ParseFrames(body[44..], Number(body[40..44])), Number(body[32..40]))
  }

  predicate HeaderFits(a: AppendArgs) {
    && a.term < U64 && a.leaderId < U64 && a.prevLogIndex < U64 && a.prevLogTerm < U64 && a.leaderCommit < U64
    && |a.entries| < U32
  }

  lemma EntrySize(e: Entry)
    requires Sized(e)
    ensures Number(BigEndian(|EntryBytes(e)|, 4)) == |EntryBytes(e)|
  {
    BodyFields(e, []);
    Widths();
    NumberOfBytes(|EntryBytes(e)|, 4);
  }

  lemma FrameFields(e: Entry, rest: Bytes)
    ensures var data := Frame(e) + rest; var size := |EntryBytes(e)|;
            && |data| >= 4 + size && data[..4] == BigEndian(size, 4)
            && data[4..4 + size] == EntryBytes(e) && data[4 + size..] == rest
  {
    var n := BigEndian(|EntryBytes(e)|, 4);
    assert Frame(e) + rest == n + EntryBytes(e) + rest;
    Slice(n, EntryBytes(e), rest);
  }

  lemma SingleParses(e: Entry)
    requires Sized(e)
    ensures ParseAll(EntryBytes(e)).entries == [e]
  {
    RoundTripIffSized(e);
  }

  /** The first frame is read whole, and the rest is read behind it. */
  lemma FrameParses(e: Entry, rest: Bytes, count: nat)
    requires Sized(e) && count > 0
    ensures ParseFrames(Frame(e) + rest, count) == [e] + ParseFrames(rest, count - 1)
  {
    FrameFields(e, rest);
    EntrySize(e);
    SingleParses(e);
  }

  lemma {:induction false} FramesParse(entries: seq<Entry>)
    requires AllSized(entries)
    ensures ParseFrames(Frames(entries), |entries|) == entries
  {
    if entries != [] {
      FramesParse(entries[1..]);
      FrameParses(entries[0], Frames(entries[1..]), |entries|);
    }
  }

  lemma FirstSized(data: Bytes)
    ensures AllSized(FirstOf(ParseAll(data).entries)) && |FirstOf(ParseAll(data).entries)| <= 1
  {
    ParseThenPrint(data);
  }

  lemma {:induction false} FramesSized(data: Bytes, count: nat)
    ensures AllSized(ParseFrames(data, count)) && |ParseFrames(data, count)| <= count
    decreases count
  {
    if count > 0 && |data| >= 4 && 4 + Number(data[..4]) <= |data| {
      var size := Number(data[..4]);
      FirstSized(data[4..4 + size]);
      FramesSized(data[4 + size..], count - 1);
    }
  }

  lemma HeaderFields(a: AppendArgs, rest: Bytes)
    ensures var body := HeaderBytes(a) + rest;
            && body[..8] == BigEndian(a.term, 8) && body[8..16] == BigEndian(a.leaderId, 8)
            && body[16..24] == BigEndian(a.prevLogIndex, 8) && body[24..32] == BigEndian(a.prevLogTerm, 8)
            && body[32..40] == BigEndian(a.leaderCommit, 8) && body[40..44] == BigEndian(|a.entries|, 4)
            && body[44..] == rest
  {
    var t, l, p := BigEndian(a.term, 8), BigEndian(a.leaderId, 8), BigEndian(a.prevLogIndex, 8);
    var q, c, n := BigEndian(a.prevLogTerm, 8), BigEndian(a.leaderCommit, 8), BigEndian(|a.entries|, 4);
    var body := HeaderBytes(a) + rest;
    assert body == t + l + (p + q + c + n + rest);
    assert body == (t + l) + p + (q + c + n + rest);
    assert body == (t + l + p) + q + (c + n + rest);
    assert body == (t + l + p + q) + c + (n + rest);
    assert body == (t + l + p + q + c) + n + rest;
    Slice(t, l, p + q + c + n + rest);
    Slice(t + l, p, q + c + n + rest);
    Slice(t + l + p, q, c + n + rest);
    Slice(t + l + p + q, c, n + rest);
    Slice(t + l + p + q + c, n, rest);
  }

  lemma HeaderNumbers(a: AppendArgs)
    ensures HeaderFits(a) <==>
            && Number(BigEndian(a.term, 8)) == a.term && Number(BigEndian(a.leaderId, 8)) == a.leaderId
            && Number(BigEndian(a.prevLogIndex, 8)) == a.prevLogIndex
               && Number(BigEndian(a.prevLogTerm, 8)) == a.prevLogTerm
            && Number(BigEndian(a.leaderCommit, 8)) == a.leaderCommit
               && Number(BigEndian(|a.entries|, 4)) == |a.entries|
  {
    Widths();
    FieldFits(a.term, 8);
    FieldFits(a.leaderId, 8);
    FieldFits(a.prevLogIndex, 8);
    FieldFits(a.prevLogTerm, 8);
    FieldFits(a.leaderCommit, 8);
    FieldFits(|a.entries|, 4);
  }

  lemma CountRead(a: AppendArgs)
    requires ParseAppendArgs(AppendArgsBytes(a)) == a
    ensures AllSized(a.entries) && Number(BigEndian(|a.entries|, 4)) == |a.entries|
  {
    HeaderFields(a, Frames(a.entries));
    FramesSized(Frames(a.entries), Number(BigEndian(|a.entries|, 4)));
    BytesOfNumber(BigEndian(|a.entries|, 4));
    Widths();
    FieldFits(|a.entries|, 4);
  }

  /** An AppendEntries survives the wire, no entry dropped or changed, exactly if its numbers fit their fields and every
      entry's length fields are true. */
  lemma AppendArgsRoundTrip(a: AppendArgs)
    ensures ParseAppendArgs(AppendArgsBytes(a)) == a <==> HeaderFits(a) && AllSized(a.entries)
  {
    HeaderFields(a, Frames(a.entries));
    HeaderNumbers(a);
    if HeaderFits(a) && AllSized(a.entries) { FramesParse(a.entries); }
    if ParseAppendArgs(AppendArgsBytes(a)) == a { CountRead(a); }
  }

  // ---- the code ------------------------------------------------------------------------------------

  method SerializeRequestVoteArgs(a: VoteArgs) returns (buffer: Bytes)
    ensures buffer == VoteArgsBytes(a)
  {
    buffer := PushNumber([], a.term, 8);
    buffer := PushNumber(buffer, a.candidateId, 8);
    buffer := PushNumber(buffer, a.lastLogIndex, 8);
    buffer := PushNumber(buffer, a.lastLogTerm, 8);
  }

  lemma FramesGrow(entries: seq<Entry>, i: nat)
    requires i < |entries|
    ensures Frames(entries[..i + 1]) == Frames(entries[..i]) + Frame(entries[i])
  {
    FramesBack(entries[..i], entries[i]);
    assert entries[..i + 1] == entries[..i] + [entries[i]];
  }

  lemma {:induction false} FramesBack(entries: seq<Entry>, e: Entry)
    ensures Frames(entries + [e]) == Frames(entries) + Frame(e)
  {
    if entries == [] {
      assert Frame(e) + Frames([]) == Frames([]) + Frame(e);
    } else {
      assert (entries + [e])[1..] == entries[1..] + [e];
      FramesBack(entries[1..], e);
      Regroup(Frame(entries[0]), Frames(entries[1..]), Frame(e));
    }
  }

  method SerializeAppendEntriesArgs(table: ChecksumTable, a: AppendArgs) returns (buffer: Bytes)
    requires table.Valid()
    modifies table, table.table
    ensures table.Valid() && buffer == AppendArgsBytes(a)
  {
    buffer := PushNumber([], a.term, 8);
    buffer := PushNumber(buffer, a.leaderId, 8);
    buffer := PushNumber(buffer, a.prevLogIndex, 8);
    buffer := PushNumber(buffer, a.prevLogTerm, 8);
    buffer := PushNumber(buffer, a.leaderCommit, 8);
    buffer := PushNumber(buffer, |a.entries|, 4);
    ghost var header := buffer;
    assert header == HeaderBytes(a) == header + Frames(a.entries[..0]);
    for i := 0 to |a.entries|
      invariant table.Valid() && buffer == header + Frames(a.entries[..i])
    {
      var entryBytes := SerializeLogEntry(table, a.entries[i]);
      OneMoreFrame(buffer, header, a.entries, i);
      buffer := PushNumber(buffer, |entryBytes|, 4);
      buffer := buffer + entryBytes;
    }
    assert a.entries[..|a.entries|] == a.entries;
  }

  lemma OneMoreFrame(buffer: Bytes, header: Bytes, entries: seq<Entry>, i: nat)
    requires i < |entries| && buffer == header + Frames(entries[..i])
    ensures var e := EntryBytes(entries[i]); buffer + BigEndian(|e|, 4) + e == header + Frames(entries[..i + 1])
  {
    var e := EntryBytes(entries[i]);
    FramesGrow(entries, i);
    Regroup(header, Frames(entries[..i]), Frame(entries[i]));
    Regroup(buffer, BigEndian(|e|, 4), e);
  }

  /** entries have been read, and left frames are still to be read from rest. */
  ghost predicate Reading(goal: seq<Entry>, entries: seq<Entry>, rest: Bytes, left: nat) {
    goal == entries + ParseFrames(rest, left)
  }

  lemma ReadsOne(goal: seq<Entry>, entries: seq<Entry>, rest: Bytes, left: nat, size: nat, parsed: seq<Entry>)
    requires left > 0 && |rest| >= 4 && size == Number(rest[..4]) && 4 + size <= |rest|
             && Reading(goal, entries, rest, left)
    requires parsed == FirstOf(ParseAll(rest[4..4 + size]).entries)
    ensures Reading(goal, entries + parsed, rest[4 + size..], left - 1)
  {
    Joined(entries, parsed, ParseFrames(rest[4 + size..], left - 1));
  }

  lemma Joined(a: seq<Entry>, b: seq<Entry>, x: seq<Entry>)
    ensures a + (b + x) == a + b + x
  {
  }

  lemma ReadsNoMore(goal: seq<Entry>, entries: seq<Entry>, rest: Bytes, left: nat)
    requires left == 0 || |rest| < 4 || 4 + Number(rest[..4]) > |rest|
    requires Reading(goal, entries, rest, left)
    ensures goal == entries
  {
  }

  /** The decoding loop. It reads a frame's length without checking that four bytes are left, which they are in
      everything the encoder writes; here the loop stops instead. */
  method DeserializeFrames(table: ChecksumTable, data: Bytes, count: nat) returns (entries: seq<Entry>)
    requires table.Valid()
    modifies table, table.table
    ensures table.Valid() && entries == ParseFrames(data, count)
  {
    ghost var goal := ParseFrames(data, count);
    entries := [];
    var rest, left := data, count;
    while left > 0 && |rest| >= 4
      invariant table.Valid() && Reading(goal, entries, rest, left)
    {
      var size := PullNumber(rest, 0, 4);
      if 4 + size > |rest| { break; }
      var parsed := DeserializeFrame(table, rest[4..4 + size]);
      ReadsOne(goal, entries, rest, left, size, parsed);
      entries, rest, left := entries + parsed, rest[4 + size..], left - 1;
    }
    ReadsNoMore(goal, entries, rest, left);
  }

  method DeserializeFrame(table: ChecksumTable, data: Bytes) returns (entries: seq<Entry>)
    requires table.Valid()
    modifies table, table.table
    ensures table.Valid() && entries == FirstOf(ParseAll(data).entries)
  {
    var parsed, validBytes := DeserializeLogEntry(table, data);
    entries := if parsed != [] then [parsed[0]] else [];
  }

  method DeserializeAppendEntriesArgs(table: ChecksumTable, body: Bytes) returns (a: AppendArgs)
    requires |body| >= 44 && table.Valid()
    modifies table, table.table
    ensures table.Valid() && a == ParseAppendArgs(body)
  {
    var term := PullNumber(body, 0, 8);
    var leaderId := PullNumber(body, 8, 8);
    var prevLogIndex := PullNumber(body, 16, 8);
    var prevLogTerm := PullNumber(body, 24, 8);
    var leaderCommit := PullNumber(body, 32, 8);
    var count := PullNumber(body, 40, 4);
    var entries := DeserializeFrames(table, body[44..], count);
    a := AppendArgs(term, leaderId, prevLogIndex, prevLogTerm, entries, leaderCommit);
  }
}
