// What the parser makes of a whole log file: printed logs, torn tails, damaged
// entries and arbitrary bytes.
module LogFile {
  import opened RaftTypes
  import opened Crc
  import opened Codec

  // ---- printed entries ------------------------------------------------------------------

  lemma SplitOff(data: Bytes, size: nat)
    requires ParseOne(data).Parsed? && ParseOne(data).size == size
    ensures ParseAll(data) ==
            ParsedLog([ParseOne(data).entry] + ParseAll(data[size..]).entries, size + ParseAll(data[size..]).valid)
  {
  }

  lemma Regroup(a: Bytes, b: Bytes, x: Bytes)
    ensures a + b + x == a + (b + x) && (a + (b + x))[|a|..] == b + x
  {
  }

  lemma ParsesThenRest(e: Entry, rest: Bytes)
    requires Sized(e)
    ensures ParseAll(EntryBytes(e) + rest) ==
            ParsedLog([e] + ParseAll(rest).entries, |EntryBytes(e)| + ParseAll(rest).valid)
  {
    PrintedParses(e, rest);
    assert (EntryBytes(e) + rest)[|EntryBytes(e)|..] == rest;
    SplitOff(EntryBytes(e) + rest, |EntryBytes(e)|);
  }

  lemma ParsesThen(data: Bytes, e: Entry, rest: Bytes, p: ParsedLog)
    requires Sized(e) && data == EntryBytes(e) + rest && ParseAll(rest) == p
    ensures ParseAll(data) == ParsedLog([e] + p.entries, |EntryBytes(e)| + p.valid)
  {
    ParsesThenRest(e, rest);
  }

  lemma FrontBytes(log: seq<Entry>, tail: Bytes)
    requires log != []
    ensures LogBytes(log) + tail == EntryBytes(log[0]) + (LogBytes(log[1..]) + tail)
  {
    Regroup(EntryBytes(log[0]), LogBytes(log[1..]), tail);
  }

  lemma FrontEntries(log: seq<Entry>, entries: seq<Entry>)
    requires log != []
    ensures [log[0]] + (log[1..] + entries) == log + entries
  {
  }

  /** Entries in front of anything are parsed, and parsing goes on behind them. */
  lemma {:induction false} PrintedPrefixParses(log: seq<Entry>, tail: Bytes)
    requires AllSized(log)
    ensures ParseAll(LogBytes(log) + tail) ==
            ParsedLog(log + ParseAll(tail).entries, |LogBytes(log)| + ParseAll(tail).valid)
  {
    if log == [] {
      assert LogBytes(log) + tail == tail;
      assert log + ParseAll(tail).entries == ParseAll(tail).entries;
    } else {
      PrintedPrefixParses(log[1..], tail);
      FrontBytes(log, tail);
      FrontEntries(log, ParseAll(tail).entries);
      ParsesThen(LogBytes(log) + tail, log[0], LogBytes(log[1..]) + tail,
                 ParsedLog(log[1..] + ParseAll(tail).entries, |LogBytes(log[1..])| + ParseAll(tail).valid));
    }
  }

  lemma BrokenParses(data: Bytes)
    requires ParseOne(data) == Broken
    ensures ParseAll(data) == ParsedLog([], 0)
  {
  }

  /** Parsing stops right behind the sound entries when what follows is broken. */
  lemma StopsAtBroken(log: seq<Entry>, tail: Bytes)
    requires AllSized(log) && ParseOne(tail) == Broken
    ensures ParseAll(LogBytes(log) + tail) == ParsedLog(log, |LogBytes(log)|)
  {
    PrintedPrefixParses(log, tail);
    BrokenParses(tail);
  }

  /** The parser undoes the printer. */
  lemma LogRoundTrip(log: seq<Entry>)
    requires AllSized(log)
    ensures ParseAll(LogBytes(log)) == ParsedLog(log, |LogBytes(log)|)
  {
    StopsAtBroken(log, []);
    assert LogBytes(log) + [] == LogBytes(log);
  }

  /** A torn append is dropped exactly: all entries before it survive, and nothing else. */
  lemma TornAppend(log: seq<Entry>, e: Entry, k: nat)
    requires AllSized(log) && Sized(e) && k < |EntryBytes(e)|
    ensures ParseAll(LogBytes(log) + EntryBytes(e)[..k]) == ParsedLog(log, |LogBytes(log)|)
  {
    TornIsBroken(e, k);
    StopsAtBroken(log, EntryBytes(e)[..k]);
  }

  // ---- damage ------------------------------------------------------------------------------

  lemma Replaced(body: Bytes, check: Bytes, i: nat, x: Byte)
    requires i < |body|
    ensures body == body[..i] + [body[i]] + body[i + 1..]
    ensures (body + check)[i := x] == body[..i] + [x] + body[i + 1..] + check
  {
  }

  lemma BodyByteDamaged(e: Entry, i: nat, x: Byte, rest: Bytes)
    requires Sized(e) && i < |BodyBytes(e)| && !(17 <= i < 21) && x != EntryBytes(e)[i]
    ensures ParseOne(EntryBytes(e)[i := x] + rest) == Broken
  {
    var body := BodyBytes(e);
    Replaced(body, BigEndian(Crc32(body), 4), i, x);
    DamagedIsBroken(e, body[..i], [body[i]], [x], body[i + 1..], rest);
  }

  lemma ChecksumByteDamaged(e: Entry, i: nat, x: Byte, rest: Bytes)
    requires Sized(e) && |BodyBytes(e)| <= i < |EntryBytes(e)| && x != EntryBytes(e)[i]
    ensures ParseOne(EntryBytes(e)[i := x] + rest) == Broken
  {
    var body, check := BodyBytes(e), BigEndian(Crc32(BodyBytes(e)), 4);
    var wrong := check[i - |body| := x];
    assert EntryBytes(e)[i := x] == body + wrong;
    assert wrong[i - |body|] != check[i - |body|];
    WrongChecksumIsBroken(e, wrong, rest);
  }

  /** One changed byte outside the length fields makes parsing stop at that entry's start, with all earlier entries
      kept. */
  lemma OneByteDamage(log: seq<Entry>, e: Entry, i: nat, x: Byte, rest: Bytes)
    requires AllSized(log) && Sized(e) && i < |EntryBytes(e)| && !(17 <= i < 21) && x != EntryBytes(e)[i]
    ensures ParseAll(LogBytes(log) + (EntryBytes(e)[i := x] + rest)) == ParsedLog(log, |LogBytes(log)|)
  {
    if i < |BodyBytes(e)| { BodyByteDamaged(e, i, x, rest); } else { ChecksumByteDamaged(e, i, x, rest); }
    StopsAtBroken(log, EntryBytes(e)[i := x] + rest);
  }

  /** The same for any damage confined to four adjacent bytes of the body, none of them in a length field. */
  lemma BurstDamage(log: seq<Entry>, e: Entry, head: Bytes, a: Bytes, b: Bytes, tail: Bytes, rest: Bytes)
    requires AllSized(log) && Sized(e) && BodyBytes(e) == head + a + tail && |a| == |b| <= 4 && a != b
    requires |head| + |a| <= 17 || 21 <= |head|
    ensures ParseAll(LogBytes(log) + (head + b + tail + BigEndian(Crc32(BodyBytes(e)), 4) + rest)) ==
            ParsedLog(log, |LogBytes(log)|)
  {
    DamagedIsBroken(e, head, a, b, tail, rest);
    StopsAtBroken(log, head + b + tail + BigEndian(Crc32(BodyBytes(e)), 4) + rest);
  }

  // ---- arbitrary bytes ------------------------------------------------------------------------

  lemma NumberFitsField(data: Bytes, lo: nat, hi: nat)
    requires lo <= hi <= |data|
    ensures BigEndian(Number(data[lo..hi]), hi - lo) == data[lo..hi] && Number(data[lo..hi]) < Pow256(hi - lo)
  {
    BytesOfNumber(data[lo..hi]);
  }

  lemma ParsedNumbers(data: Bytes)
    requires ParseOne(data).Parsed?
    ensures var e := ParseOne(data).entry;
            && Sized(e) && BigEndian(e.term, 8) == data[..8] && BigEndian(e.index, 8) == data[8..16]
            && BigEndian(e.command.keyLen, 2) == data[17..19] && BigEndian(e.command.valueLen, 2) == data[19..21]
            && e.command.operation == data[16]
  {
    var size := ParseOne(data).size - 4;
    Widths();
    NumberFitsField(data, 0, 8);
    NumberFitsField(data, 8, 16);
    NumberFitsField(data, 17, 19);
    NumberFitsField(data, 19, 21);
    SubSlice(data, 16, size, 1, 3);
    SubSlice(data, 16, size, 3, 5);
  }

  lemma ParsedStrings(data: Bytes)
    requires ParseOne(data).Parsed?
    ensures var e := ParseOne(data).entry; var k, size := |e.command.key|, ParseOne(data).size - 4;
            && 21 + k <= size <= |data| && e.command.key == data[21..21 + k] && e.command.value == data[21 + k..size]
  {
    var size := ParseOne(data).size - 4;
    var command := data[16..size];
    SubSlice(data, 16, size, 1, 3);
    SubSlice(data, 16, size, 3, 5);
    var k := Number(data[17..19]);
    assert command[5 + k..] == command[5 + k..size - 16];
    SubSlice(data, 16, size, 5, 5 + k);
    SubSlice(data, 16, size, 5 + k, size - 16);
  }

  lemma Rejoin(data: Bytes, k: nat, size: nat)
    requires 21 <= 21 + k <= size <= |data|
    ensures data[..8] + data[8..16] + ([data[16]] + data[17..19] + data[19..21] + data[21..21 + k] + data[21 + k..size])
            == data[..size]
  {
    assert data[..8] + data[8..16] == data[..16];
    assert [data[16]] + data[17..19] + data[19..21] == data[16..21];
    assert data[16..21] + data[21..21 + k] == data[16..21 + k];
    assert data[16..21 + k] + data[21 + k..size] == data[16..size];
  }

  /** Whatever bytes an entry was parsed from, printing it gives them back. */
  lemma ParsedPrints(data: Bytes)
    requires ParseOne(data).Parsed?
    ensures Sized(ParseOne(data).entry) && EntryBytes(ParseOne(data).entry) == data[..ParseOne(data).size]
  {
    var e, size := ParseOne(data).entry, ParseOne(data).size - 4;
    ParsedNumbers(data);
    ParsedStrings(data);
    Rejoin(data, |e.command.key|, size);
    assert BodyBytes(e) == data[..size];
    BytesOfNumber(data[size..size + 4]);
    assert data[..size] + data[size..size + 4] == data[..size + 4];
  }

  /** For any bytes at all, printing the entries parsed gives back exactly the bytes counted as valid. */
  lemma {:induction false} ParseThenPrint(data: Bytes)
    ensures var p := ParseAll(data); AllSized(p.entries) && LogBytes(p.entries) == data[..p.valid]
    decreases |data|
  {
    match ParseOne(data) {
      case Broken =>
      case Parsed(e, size) =>
        ParsedPrints(data);
        ParseThenPrint(data[size..]);
        SplitOff(data, size);
        Printed(data, e, size, ParseAll(data[size..]));
    }
  }

  lemma Printed(data: Bytes, e: Entry, size: nat, rest: ParsedLog)
    requires size <= |data| && size + rest.valid <= |data| && Sized(e) && AllSized(rest.entries)
    requires EntryBytes(e) == data[..size] && LogBytes(rest.entries) == data[size..][..rest.valid]
    ensures AllSized([e] + rest.entries) && LogBytes([e] + rest.entries) == data[..size + rest.valid]
  {
    assert ([e] + rest.entries)[1..] == rest.entries;
    assert data[..size] + data[size..][..rest.valid] == data[..size + rest.valid];
  }

  /** ... and parsing those bytes again gives the same entries and uses all of them, so truncating to them loses
      nothing. */
  lemma ReparseValid(data: Bytes)
    ensures var p := ParseAll(data); ParseAll(data[..p.valid]) == ParsedLog(p.entries, p.valid)
  {
    ParseThenPrint(data);
    LogRoundTrip(ParseAll(data).entries);
  }

  /** An entry survives printing and parsing exactly if its length fields are true and its numbers fit. */
  lemma RoundTripIffSized(e: Entry)
    ensures ParseAll(EntryBytes(e)).entries == [e] <==> Sized(e)
  {
    ParseThenPrint(EntryBytes(e));
    if Sized(e) {
      LogRoundTrip([e]);
      assert EntryBytes(e) + LogBytes([]) == EntryBytes(e);
    }
    if ParseAll(EntryBytes(e)).entries == [e] { assert Sized(ParseAll(EntryBytes(e)).entries[0]); }
  }

  /** Appending an entry to the file is appending its bytes. */
  lemma {:induction false} AppendedBytes(log: seq<Entry>, e: Entry)
    ensures LogBytes(log + [e]) == LogBytes(log) + EntryBytes(e)
  {
    if log == [] {
      assert EntryBytes(e) + LogBytes([]) == LogBytes([]) + EntryBytes(e);
    } else {
      assert (log + [e])[1..] == log[1..] + [e];
      AppendedBytes(log[1..], e);
      Regroup(EntryBytes(log[0]), LogBytes(log[1..]), EntryBytes(e));
    }
  }
}
