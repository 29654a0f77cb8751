// Log entries as bytes (log.cpp, command.cpp): the printer, the parser that
// stops at the first torn or damaged entry, and what each makes of the other's output.
module Codec {
  import opened RaftTypes
  import opened Crc

  // ---- big-endian numbers -------------------------------------------------------------

  /** The width low bytes of v, most significant first; higher bytes are cut off. */
  function BigEndian(v: nat, width: nat): (r: Bytes)
    ensures |r| == width
    decreases width, v
  {
    if width == 0 then [] else BigEndian(v / 256, width - 1) + [v % 256]
  }

  function Number(bytes: Bytes): nat {
    if bytes == [] then 0 else Number(bytes[..|bytes| - 1]) * 256 + bytes[|bytes| - 1]
  }

  function Pow256(k: nat): (r: nat)
    ensures r > 0
  {
    if k == 0 then 1 else 256 * Pow256(k - 1)
  }

  lemma {:induction false} NumberOfBytes(v: nat, width: nat)
    requires v < Pow256(width)
    ensures Number(BigEndian(v, width)) == v
    decreases width
  {
    if width > 0 {
      NumberOfBytes(v / 256, width - 1);
      assert BigEndian(v, width)[..width - 1] == BigEndian(v / 256, width - 1);
    }
  }

  lemma {:induction false} BytesOfNumber(bytes: Bytes)
    ensures BigEndian(Number(bytes), |bytes|) == bytes && Number(bytes) < Pow256(|bytes|)
  {
    if bytes != [] {
      BytesOfNumber(bytes[..|bytes| - 1]);
      assert Number(bytes) / 256 == Number(bytes[..|bytes| - 1]) && Number(bytes) % 256 == bytes[|bytes| - 1];
    }
  }

  lemma DivDiv(v: nat, k: nat)
    ensures v / Pow256(k + 1) == v / 256 / Pow256(k)
  {
    var p, q, r := Pow256(k), v / 256 / Pow256(k), v / 256 % Pow256(k);
    assert v / 256 == q * p + r;
    assert v == 256 * (q * p + r) + v % 256;
    assert 256 * (q * p + r) == q * (256 * p) + 256 * r;
    assert 0 <= 256 * r + v % 256 < 256 * p;
    Quotient(v, 256 * p, q, 256 * r + v % 256);
  }

  lemma Quotient(v: nat, d: nat, q: nat, r: nat)
    requires d > 0 && r < d && v == q * d + r
    ensures v / d == q
  {
    var x := v / d;
    assert (x - q) * d == r - v % d;
    assert (q - x) * d == v % d - r;
    TimesAtLeast(x - q, d);
    TimesAtLeast(q - x, d);
  }

  lemma TimesAtLeast(k: int, d: nat)
    ensures k >= 1 ==> k * d >= d
  {
  }

  /** The byte a right shift by whole bytes brings down. */
  lemma {:induction false} ByteAt(v: nat, width: nat, i: nat)
    requires i < width
    ensures BigEndian(v, width)[i] == v / Pow256(width - 1 - i) % 256
    decreases width
  {
    if i < width - 1 {
      ByteAt(v / 256, width - 1, i);
      DivDiv(v, width - 2 - i);
    } else {
      assert Pow256(0) == 1;
    }
  }

  const U16: nat := 0x1_0000
  const U32: nat := 0x1_0000_0000
  const U64: nat := 0x1_0000_0000_0000_0000

  lemma Widths()
    ensures Pow256(1) == 256 && Pow256(2) == U16 && Pow256(4) == U32 && Pow256(8) == U64
  {
    assert Pow256(2) == 256 * Pow256(1);
    assert Pow256(4) == 256 * 256 * Pow256(2);
    assert Pow256(6) == 256 * 256 * Pow256(4);
    assert Pow256(8) == 256 * 256 * Pow256(6);
  }

  // ---- the format --------------------------------------------------------------------------

  /** Serialize (command.cpp): the length fields as given, then every byte of both strings. */
  function CommandBytes(c: Command): Bytes {
    [c.operation] + BigEndian(c.keyLen, 2) + BigEndian(c.valueLen, 2) + c.key + c.value
  }

  function BodyBytes(e: Entry): Bytes {
    BigEndian(e.term, 8) + BigEndian(e.index, 8) + CommandBytes(e.command)
  }

  function EntryBytes(e: Entry): Bytes {
    BodyBytes(e) + BigEndian(Crc32(BodyBytes(e)), 4)
  }

  function LogBytes(log: seq<Entry>): Bytes {
    if log == [] then [] else EntryBytes(log[0]) + LogBytes(log[1..])
  }

  /** The length fields hold the true lengths, and every number fits its field. */
  predicate Sized(e: Entry) {
    e.term < U64 && e.index < U64 && SizedCommand(e.command)
  }

  predicate SizedCommand(c: Command) {
    c.keyLen == |c.key| < U16 && c.valueLen == |c.value| < U16
  }

  predicate AllSized(log: seq<Entry>) {
    forall i :: 0 <= i < |log| ==> Sized(log[i])
  }

  /** Deserialize (command.cpp) on exactly the bytes of one command. */
  function ParseCommand(data: Bytes): Command
    requires |data| >= 5 && |data| == 5 + Number(data[1..3]) + Number(data[3..5])
  {
    var keyLen := Number(data[1..3]);
    Command(data[0], keyLen, Number(data[3..5]), data[5..5 + keyLen], data[5 + keyLen..])
  }

  datatype Parse = Broken | Parsed(entry: Entry, size: nat)

  lemma SubSlice(data: Bytes, lo: nat, hi: nat, i: nat, j: nat)
    requires lo <= hi <= |data| && i <= j <= hi - lo
    ensures data[lo..hi][i..j] == data[lo + i..lo + j]
  {
    var a, b := data[lo..hi][i..j], data[lo + i..lo + j];
    forall k | 0 <= k < |a| ensures a[k] == b[k] {}
    assert a == b;
  }

  /** The entry at the start of data, if a whole and undamaged one is there. */
  function ParseOne(data: Bytes): (r: Parse)
    ensures r.Parsed? ==> 25 <= r.size <= |data|
  {
    if |data| < 25 then Broken
    else
      var size := 21 + Number(data[17..19]) + Number(data[19..21]);
      if |data| < size + 4 then Broken
      else if Number(data[size..size + 4]) != Crc32(data[..size]) then Broken
      else
        var command := data[16..size];
        SubSlice(data, 16, size, 1, 3);
        SubSlice(data, 16, size, 3, 5);
        Parsed(Entry(Number(data[..8]), Number(data[8..16]), ParseCommand(command)), size + 4)
  }

  datatype ParsedLog = ParsedLog(entries: seq<Entry>, valid: nat)

  /** DeserializeLogEntry: entries up to the first broken one, and how many bytes they take. */
  function ParseAll(data: Bytes): (r: ParsedLog)
    ensures r.valid <= |data|
    decreases |data|
  {
    match ParseOne(data)
    case Broken => ParsedLog([], 0)
    case Parsed(e, size) =>
      var rest := ParseAll(data[size..]);
      ParsedLog([e] + rest.entries, size + rest.valid)
  }

  // ---- parsing what was printed -----------------------------------------------------------------

  lemma Slice(x: Bytes, y: Bytes, z: Bytes)
    ensures (x + y + z)[|x|..|x| + |y|] == y
  {
  }

  /** Where the fields of a printed body are. */
  lemma BodyFields(e: Entry, rest: Bytes)
    ensures var data := BodyBytes(e) + rest;
            && |BodyBytes(e)| == 21 + |e.command.key| + |e.command.value| && |data| == |BodyBytes(e)| + |rest|
            && data[..8] == BigEndian(e.term, 8) && data[8..16] == BigEndian(e.index, 8)
            && data[16] == e.command.operation
            && data[17..19] == BigEndian(e.command.keyLen, 2) && data[19..21] == BigEndian(e.command.valueLen, 2)
            && data[21..21 + |e.command.key|] == e.command.key
            && data[21 + |e.command.key|..|BodyBytes(e)|] == e.command.value
  {
    var c := e.command;
    var a, b, o, k, l := BigEndian(e.term, 8), BigEndian(e.index, 8), [c.operation], BigEndian(c.keyLen, 2),
        BigEndian(c.valueLen, 2);
    var data := BodyBytes(e) + rest;
    assert data == a + (b + o + k + l + c.key + c.value + rest);
    assert data == a + b + (o + k + l + c.key + c.value + rest);
    assert data == (a + b + o) + k + (l + c.key + c.value + rest);
    assert data == (a + b + o + k) + l + (c.key + c.value + rest);
    assert data == (a + b + o + k + l) + c.key + (c.value + rest);
    assert data == (a + b + o + k + l + c.key) + c.value + rest;
    Slice(a, b, o + k + l + c.key + c.value + rest);
    Slice(a + b + o, k, l + c.key + c.value + rest);
    Slice(a + b + o + k, l, c.key + c.value + rest);
    Slice(a + b + o + k + l, c.key, c.value + rest);
    Slice(a + b + o + k + l + c.key, c.value, rest);
  }

  lemma ChecksumField(body: Bytes, check: Bytes, rest: Bytes)
    requires |check| == 4
    ensures (body + check + rest)[..|body|] == body && (body + check + rest)[|body|..|body| + 4] == check
  {
    Slice(body, check, rest);
  }

  lemma SizedNumbers(e: Entry)
    requires Sized(e)
    ensures Number(BigEndian(e.term, 8)) == e.term && Number(BigEndian(e.index, 8)) == e.index
    ensures Number(BigEndian(e.command.keyLen, 2)) == |e.command.key|
    ensures Number(BigEndian(e.command.valueLen, 2)) == |e.command.value|
  {
    Widths();
    NumberOfBytes(e.term, 8);
    NumberOfBytes(e.index, 8);
    NumberOfBytes(e.command.keyLen, 2);
    NumberOfBytes(e.command.valueLen, 2);
  }

  lemma ChecksumNumber(body: Bytes)
    ensures Number(BigEndian(Crc32(body), 4)) == Crc32(body)
  {
    Widths();
    ChecksumFits(body);
    NumberOfBytes(Crc32(body), 4);
  }

  /** What ParseOne sees of a sized entry whose checksum field and what follows are arbitrary. */
  lemma SeenSize(e: Entry, check: Bytes, rest: Bytes)
    requires Sized(e) && |check| == 4
    ensures var data := BodyBytes(e) + check + rest; var size := |BodyBytes(e)|;
            && |data| >= size + 4 >= 25 && 21 + Number(data[17..19]) + Number(data[19..21]) == size
            && data[..size] == BodyBytes(e) && data[size..size + 4] == check
  {
    assert BodyBytes(e) + check + rest == BodyBytes(e) + (check + rest);
    BodyFields(e, check + rest);
    SizedNumbers(e);
    ChecksumField(BodyBytes(e), check, rest);
  }

  /** data begins with a whole and undamaged entry e, whose body has this size. */
  ghost predicate Carries(data: Bytes, size: nat, e: Entry) {
    && 25 <= size + 4 <= |data| && 21 + Number(data[17..19]) + Number(data[19..21]) == size
    && Number(data[size..size + 4]) == Crc32(data[..size])
    && Number(data[..8]) == e.term && Number(data[8..16]) == e.index
    && var command := data[16..size];
    && |command| == 5 + Number(command[1..3]) + Number(command[3..5]) && ParseCommand(command) == e.command
  }

  lemma CarriedParses(data: Bytes, size: nat, e: Entry)
    requires Carries(data, size, e)
    ensures ParseOne(data) == Parsed(e, size + 4)
  {
  }

  lemma PrintedCarries(e: Entry, rest: Bytes)
    requires Sized(e)
    ensures Carries(EntryBytes(e) + rest, |BodyBytes(e)|, e)
  {
    var check := BigEndian(Crc32(BodyBytes(e)), 4);
    SeenSize(e, check, rest);
    ChecksumNumber(BodyBytes(e));
    assert EntryBytes(e) + rest == BodyBytes(e) + (check + rest);
    FieldsParse(e, check + rest);
  }

  /** A sized entry is parsed back, whatever follows it. */
  lemma PrintedParses(e: Entry, rest: Bytes)
    requires Sized(e)
    ensures ParseOne(EntryBytes(e) + rest) == Parsed(e, |EntryBytes(e)|)
  {
    PrintedCarries(e, rest);
    CarriedParses(EntryBytes(e) + rest, |BodyBytes(e)|, e);
  }

  lemma FieldsParse(e: Entry, rest: Bytes)
    requires Sized(e)
    ensures var data, size := BodyBytes(e) + rest, |BodyBytes(e)|;
            && size >= 21 && Number(data[..8]) == e.term && Number(data[8..16]) == e.index
            && var command := data[16..size];
            && |command| == 5 + Number(command[1..3]) + Number(command[3..5]) && ParseCommand(command) == e.command
  {
    BodyFields(e, rest);
    CommandParses(e, rest);
    SizedNumbers(e);
  }

  lemma CommandParses(e: Entry, rest: Bytes)
    requires Sized(e)
    ensures var data, size := BodyBytes(e) + rest, |BodyBytes(e)|;
            && size >= 21 && var command := data[16..size];
            && |command| == 5 + Number(command[1..3]) + Number(command[3..5]) && ParseCommand(command) == e.command
  {
    var data, size := BodyBytes(e) + rest, |BodyBytes(e)|;
    BodyFields(e, rest);
    SizedNumbers(e);
    SubSlice(data, 16, size, 1, 3);
    SubSlice(data, 16, size, 3, 5);
    SubSlice(data, 16, size, 5, 5 + |e.command.key|);
    SubSlice(data, 16, size, 5 + |e.command.key|, size - 16);
  }

  /** Cut short anywhere, it is not. */
  lemma TornIsBroken(e: Entry, k: nat)
    requires Sized(e) && k < |EntryBytes(e)|
    ensures ParseOne(EntryBytes(e)[..k]) == Broken
  {
    if k >= 25 {
      var data := EntryBytes(e);
      SeenSize(e, BigEndian(Crc32(BodyBytes(e)), 4), []);
      assert BodyBytes(e) + BigEndian(Crc32(BodyBytes(e)), 4) + [] == data;
      assert data[..k][17..19] == data[17..19] && data[..k][19..21] == data[19..21];
    }
  }

  /** With any other checksum it is not. */
  lemma WrongChecksumIsBroken(e: Entry, check: Bytes, rest: Bytes)
    requires Sized(e) && |check| == 4 && check != BigEndian(Crc32(BodyBytes(e)), 4)
    ensures ParseOne(BodyBytes(e) + check + rest) == Broken
  {
    SeenSize(e, check, rest);
    BytesOfNumber(check);
  }

  /** A body damaged within four adjacent bytes, none of them in a length field, is not parsed either. */
  lemma DamagedIsBroken(e: Entry, head: Bytes, a: Bytes, b: Bytes, tail: Bytes, rest: Bytes)
    requires Sized(e) && BodyBytes(e) == head + a + tail && |a| == |b| <= 4 && a != b
    requires |head| + |a| <= 17 || 21 <= |head|
    ensures ParseOne(head + b + tail + BigEndian(Crc32(BodyBytes(e)), 4) + rest) == Broken
  {
    var check := BigEndian(Crc32(BodyBytes(e)), 4);
    SeenSize(e, check, rest);
    ChecksumField(head + b + tail, check, rest);
    SameLengths(BodyBytes(e), head, a, b, tail, check, rest);
    ChecksumNumber(BodyBytes(e));
    BurstDetected(head, a, b, tail);
  }

  lemma SameLengths(body: Bytes, head: Bytes, a: Bytes, b: Bytes, tail: Bytes, check: Bytes, rest: Bytes)
    requires body == head + a + tail && |a| == |b| && (|head| + |a| <= 17 || 21 <= |head|) && |body| >= 21
    ensures (body + check + rest)[17..19] == (head + b + tail + check + rest)[17..19]
    ensures (body + check + rest)[19..21] == (head + b + tail + check + rest)[19..21]
  {
    var sound, damaged := body + check + rest, head + b + tail + check + rest;
    forall i | 17 <= i < 21 ensures sound[i] == damaged[i] {}
    assert sound[17..19] == damaged[17..19] && sound[19..21] == damaged[19..21];
  }
}
