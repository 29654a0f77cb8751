// The loops of log.cpp and command.cpp that print and parse entries.
module EntryCodec {
  import opened RaftTypes
  import opened Crc
  import opened Codec
  import opened LogFile

  // ---- numbers ----------------------------------------------------------------------------

  /** Push the width bytes of v, each brought down by a right shift. */
  method PushNumber(buffer: Bytes, v: nat, width: nat) returns (result: Bytes)
    ensures result == buffer + BigEndian(v, width)
  {
    result := buffer;
    for i := 0 to width
      invariant result == buffer + BigEndian(v, width)[..i]
    {
      ByteAt(v, width, i);
      result := result + [v / Pow256(width - 1 - i) % 256];
    }
  }

  /** Pull width bytes, shifting in one at a time. */
  method PullNumber(data: Bytes, pos: nat, width: nat) returns (v: nat)
    requires pos + width <= |data|
    ensures v == Number(data[pos..pos + width])
  {
    v := 0;
    for i := 0 to width
      invariant v == Number(data[pos..pos + i])
    {
      assert data[pos..pos + i + 1][..i] == data[pos..pos + i];
      v := v * 256 + data[pos + i];
    }
  }

  // ---- printing -------------------------------------------------------------------------------

  method Serialize(c: Command) returns (result: Bytes)
    ensures result == CommandBytes(c)
  {
    result := [c.operation];
    result := PushNumber(result, c.keyLen, 2);
    result := PushNumber(result, c.valueLen, 2);
    result := result + c.key;
    result := result + c.value;
  }

  method SerializeLogEntry(table: ChecksumTable, e: Entry) returns (result: Bytes)
    requires table.Valid()
    modifies table, table.table
    ensures table.Valid() && result == EntryBytes(e)
  {
    result := PushNumber([], e.term, 8);
    result := PushNumber(result, e.index, 8);
    var command := Serialize(e.command);
    result := result + command;
    assert result == BodyBytes(e);
    var crc := table.Compute(result);
    result := PushNumber(result, crc, 4);
  }

  // ---- parsing ----------------------------------------------------------------------------------

  /** Reading at pos is reading what starts there. */
  lemma Here(data: Bytes, pos: nat, lo: nat, hi: nat)
    requires pos <= |data| && lo <= hi <= |data| - pos
    ensures data[pos..][lo..hi] == data[pos + lo..pos + hi]
  {
    var a, b := data[pos..][lo..hi], data[pos + lo..pos + hi];
    forall k | 0 <= k < |a| ensures a[k] == b[k] {}
    assert a == b;
  }

  method PullAt(data: Bytes, pos: nat, lo: nat, width: nat) returns (v: nat)
    requires pos + lo + width <= |data|
    ensures v == Number(data[pos..][lo..lo + width])
  {
    v := PullNumber(data, pos + lo, width);
    Here(data, pos, lo, lo + width);
  }

  method CommandAt(data: Bytes, pos: nat, size: nat) returns (c: Command)
    requires pos + size <= |data| && size >= 21
    requires var here := data[pos..]; size == 21 + Number(here[17..19]) + Number(here[19..21])
    ensures var here := data[pos..]; var command := here[16..size];
            |command| == 5 + Number(command[1..3]) + Number(command[3..5]) && c == ParseCommand(command)
  {
    var command := data[pos + 16..pos + size];
    Here(data, pos, 16, size);
    SubSlice(data[pos..], 16, size, 1, 3);
    SubSlice(data[pos..], 16, size, 3, 5);
    c := ParseCommand(command);
  }

  method BodyAt(data: Bytes, pos: nat, size: nat) returns (e: Entry)
    requires pos + size <= |data| && size >= 21
    requires var here := data[pos..]; size == 21 + Number(here[17..19]) + Number(here[19..21])
    ensures var here := data[pos..]; var command := here[16..size];
            && |command| == 5 + Number(command[1..3]) + Number(command[3..5])
            && e == Entry(Number(here[..8]), Number(here[8..16]), ParseCommand(command))
  {
    var term := PullAt(data, pos, 0, 8);
    var index := PullAt(data, pos, 8, 8);
    var command := CommandAt(data, pos, size);
    e := Entry(term, index, command);
  }

  method ChecksumHolds(table: ChecksumTable, data: Bytes, pos: nat, size: nat) returns (holds: bool)
    requires pos + size + 4 <= |data| && table.Valid()
    modifies table, table.table
    ensures table.Valid() && holds == (Number(data[pos..][size..size + 4]) == Crc32(data[pos..][..size]))
  {
    var checksum := PullAt(data, pos, size, 4);
    Here(data, pos, 0, size);
    var computed := table.Compute(data[pos..pos + size]);
    holds := checksum == computed;
  }

  /** One round of the parsing loop: the entry at pos, if there is a whole and undamaged one. */
  method DeserializeAt(table: ChecksumTable, data: Bytes, pos: nat) returns (r: Parse)
    requires pos <= |data| && table.Valid()
    modifies table, table.table
    ensures table.Valid() && r == ParseOne(data[pos..])
  {
    if |data| - pos < 25 { return Broken; }
    var keyLen := PullAt(data, pos, 17, 2);
    var valueLen := PullAt(data, pos, 19, 2);
    var size := 21 + keyLen + valueLen;
    if |data| - pos < size + 4 { return Broken; }
    var e := BodyAt(data, pos, size);
    var holds := ChecksumHolds(table, data, pos, size);
    r := if holds then Parsed(e, size + 4) else Broken;
  }

  /** The first pos bytes are exactly the entries read from them. */
  ghost predicate ReadSoFar(logs: seq<Entry>, data: Bytes, pos: nat) {
    pos <= |data| && AllSized(logs) && LogBytes(logs) == data[..pos]
  }

  lemma ReadsOne(logs: seq<Entry>, data: Bytes, pos: nat, e: Entry, size: nat)
    requires ReadSoFar(logs, data, pos) && ParseOne(data[pos..]) == Parsed(e, size)
    ensures ReadSoFar(logs + [e], data, pos + size)
  {
    ParsedPrints(data[pos..]);
    AppendedBytes(logs, e);
    assert data[..pos] + data[pos..][..size] == data[..pos + size];
  }

  lemma ReadsNoMore(logs: seq<Entry>, data: Bytes, pos: nat)
    requires ReadSoFar(logs, data, pos) && (pos == |data| || ParseOne(data[pos..]) == Broken)
    ensures ParseAll(data) == ParsedLog(logs, pos)
  {
    StopsAtBroken(logs, data[pos..]);
    assert data[..pos] + data[pos..] == data;
  }

  /** One round: the entry at pos, or the end of what can be read. */
  method ReadNext(table: ChecksumTable, data: Bytes, pos: nat, ghost logs: seq<Entry>) returns (r: Parse)
    requires table.Valid() && ReadSoFar(logs, data, pos)
    modifies table, table.table
    ensures table.Valid()
    ensures r == Broken ==> ParseAll(data) == ParsedLog(logs, pos)
    ensures r.Parsed? ==> 0 < r.size <= |data| - pos && ReadSoFar(logs + [r.entry], data, pos + r.size)
  {
    r := DeserializeAt(table, data, pos);
    if r == Broken { ReadsNoMore(logs, data, pos); } else { ReadsOne(logs, data, pos, r.entry, r.size); }
  }

  /** The parsing loop returns the entries up to the first broken one and the bytes they take. */
  method DeserializeLogEntry(table: ChecksumTable, data: Bytes) returns (logs: seq<Entry>, validBytes: nat)
    requires table.Valid()
    modifies table, table.table
    ensures table.Valid() && ParsedLog(logs, validBytes) == ParseAll(data)
  {
    var pos := 0;
    logs := [];
    while pos < |data|
      invariant table.Valid() && ReadSoFar(logs, data, pos)
      decreases |data| - pos
    {
      var r := ReadNext(table, data, pos, logs);
      if r == Broken { return logs, pos; }
      logs := logs + [r.entry];
      pos := pos + r.size;
    }
    ReadsNoMore(logs, data, pos);
    validBytes := pos;
  }
}
