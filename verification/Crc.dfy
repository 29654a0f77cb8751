// CRC-32 (log.cpp). Machine words are lists of bits, least significant first.
// The reference is the reflected shift register of section 3.2.9 of IEEE 802.3
// and section 8 of RFC 1952, fed one message bit at a time.
module Crc {
  import opened RaftTypes

  type Bits = seq<bool>

  /** The width low bits of n. */
  function BitsOf(n: nat, width: nat): (r: Bits)
    ensures |r| == width
    decreases width, n
  {
    if width == 0 then [] else [n % 2 == 1] + BitsOf(n / 2, width - 1)
  }

  function ValueOf(w: Bits): nat {
    if w == [] then 0 else (if w[0] then 1 else 0) + 2 * ValueOf(w[1..])
  }

  /** Number and bits determine each other. */
  lemma {:induction false} BitsOfValue(w: Bits)
    ensures BitsOf(ValueOf(w), |w|) == w
  {
    if w != [] {
      BitsOfValue(w[1..]);
      assert ValueOf(w) / 2 == ValueOf(w[1..]);
      assert w == [w[0]] + w[1..];
    }
  }

  function Pow2(k: nat): (r: nat)
    ensures r > 0
  {
    if k == 0 then 1 else 2 * Pow2(k - 1)
  }

  lemma {:induction false} ValueFits(w: Bits)
    ensures ValueOf(w) < Pow2(|w|)
  {
    if w != [] { ValueFits(w[1..]); }
  }

  lemma {:induction false} ValueOfBits(n: nat, width: nat)
    requires n < Pow2(width)
    ensures ValueOf(BitsOf(n, width)) == n
    decreases width
  {
    if width > 0 {
      ValueOfBits(n / 2, width - 1);
      assert BitsOf(n, width)[1..] == BitsOf(n / 2, width - 1);
    }
  }

  lemma Powers()
    ensures Pow2(8) == 0x100 && Pow2(31) == 0x8000_0000 && Pow2(32) == 0x1_0000_0000
  {
    assert Pow2(8) == 0x100;
    assert Pow2(12) == 0x10 * Pow2(8);
    assert Pow2(16) == 0x10 * Pow2(12);
    assert Pow2(20) == 0x10 * Pow2(16);
    assert Pow2(24) == 0x10 * Pow2(20);
    assert Pow2(28) == 0x10 * Pow2(24);
    assert Pow2(31) == 8 * Pow2(28);
  }

  function Xor(a: Bits, b: Bits): (r: Bits)
    requires |a| == |b|
    ensures |r| == |a|
  {
    seq(|a|, i requires 0 <= i < |a| => a[i] != b[i])
  }

  function Zeros(k: nat): (r: Bits)
    ensures |r| == k && forall i :: 0 <= i < k ==> !r[i]
  {
    if k == 0 then [] else Zeros(k - 1) + [false]
  }

  function Ones(k: nat): (r: Bits)
    ensures |r| == k && forall i :: 0 <= i < k ==> r[i]
  {
    if k == 0 then [] else Ones(k - 1) + [true]
  }

  const POLYNOMIAL: Bits := BitsOf(0xEDB88320, 32)
  const ALL_ONES: Bits := Ones(32)

  const POWERS: seq<nat> := [
    1, 2, 4, 8, 16, 32, 64, 128,
    0x100, 0x200, 0x400, 0x800, 0x1000, 0x2000, 0x4000, 0x8000,
    0x10000, 0x20000, 0x40000, 0x80000, 0x100000, 0x200000, 0x400000, 0x800000,
    0x1000000, 0x2000000, 0x4000000, 0x8000000, 0x10000000, 0x20000000, 0x40000000, 0x80000000
  ]

  lemma PowersListed(k: nat)
    requires k < 32
    ensures Pow2(k) == POWERS[k]
  {
    if k > 0 { PowersListed(k - 1); }
  }

  /** The bit of x^e in a register that holds the highest power lowest. */
  function Term(e: nat): nat
    requires e < 32
  {
    Pow2(31 - e)
  }

  /** The constant of the code is the generator polynomial of section 3.2.9 of IEEE 802.3: x^32 + x^26 + x^23 + x^22 +
      x^16 + x^12 + x^11 + x^10 + x^8 + x^7 + x^5 + x^4 + x^2 + x + 1, whose x^32 falls out of the register. */
  lemma PolynomialIsStandard()
    ensures ValueOf(POLYNOMIAL) ==
            Term(26) + Term(23) + Term(22) + Term(16) + Term(12) + Term(11) + Term(10) + Term(8) + Term(7) + Term(5)
            + Term(4) + Term(2) + Term(1) + Term(0)
  {
    Powers();
    ValueOfBits(0xEDB88320, 32);
    forall k: nat | k < 32 ensures Pow2(k) == POWERS[k] { PowersListed(k); }
  }

  // ---- the shift register ----------------------------------------------------------

  function Shift(w: Bits): (r: Bits)
    requires |w| == 32
    ensures |r| == 32
  {
    w[1..] + [false]
  }

  /** One turn of the register; feedback says whether the polynomial is added. */
  function Turn(w: Bits, feedback: bool): (r: Bits)
    requires |w| == 32
    ensures |r| == 32
  {
    if feedback then Xor(Shift(w), POLYNOMIAL) else Shift(w)
  }

  /** The reference: message bits enter one by one. */
  function Feed(w: Bits, message: Bits): (r: Bits)
    requires |w| == 32
    ensures |r| == 32
    decreases |message|
  {
    if message == [] then w else Feed(Turn(w, w[0] != message[0]), message[1..])
  }

  /** The bits of a message, each byte least significant bit first. */
  function MessageBits(data: Bytes): Bits {
    if data == [] then [] else BitsOf(data[0], 8) + MessageBits(data[1..])
  }

  /** The CRC-32 of a message. */
  function Crc32(data: Bytes): nat {
    ValueOf(Xor(Feed(ALL_ONES, MessageBits(data)), ALL_ONES))
  }

  // ---- the table ---------------------------------------------------------------------

  /** k turns with the register's own low bit as feedback. */
  function Turns(w: Bits, k: nat): (r: Bits)
    requires |w| == 32
    ensures |r| == 32
    decreases k, |w|
  {
    if k == 0 then w else Turns(Turn(w, w[0]), k - 1)
  }

  function TableEntry(i: Byte): (r: Bits)
    ensures |r| == 32
  {
    Turns(BitsOf(i, 32), 8)
  }

  lemma TurnXor(a: Bits, b: Bits, x: bool, y: bool)
    requires |a| == 32 && |b| == 32
    ensures Turn(Xor(a, b), x != y) == Xor(Turn(a, x), Turn(b, y))
  {
    assert forall i :: 0 <= i < 32 ==> Shift(Xor(a, b))[i] == (Shift(a)[i] != Shift(b)[i]);
  }

  /** The register is linear. */
  lemma {:induction false} TurnsXor(a: Bits, b: Bits, k: nat)
    requires |a| == 32 && |b| == 32
    ensures Turns(Xor(a, b), k) == Xor(Turns(a, k), Turns(b, k))
    decreases k
  {
    if k > 0 {
      TurnXor(a, b, a[0], b[0]);
      TurnsXor(Turn(a, a[0]), Turn(b, b[0]), k - 1);
    }
  }

  /** Without low bits the register only shifts. */
  lemma {:induction false} TurnsShift(w: Bits, k: nat)
    requires |w| == 32 && k <= 32 && forall i :: 0 <= i < k ==> !w[i]
    ensures Turns(w, k) == w[k..] + Zeros(k)
    decreases k
  {
    if k > 0 {
      TurnsShift(Shift(w), k - 1);
      assert Shift(w)[k - 1..] == w[k..] + [false];
      ZerosEitherEnd(k - 1);
      assert w[k..] + [false] + Zeros(k - 1) == w[k..] + ([false] + Zeros(k - 1));
    }
  }

  lemma PaddedTurn(w: Bits, m: Bits)
    requires |w| == 32 && 0 < |m| <= 32
    ensures var x := Xor(w, m + Zeros(32 - |m|));
            x[0] == (w[0] != m[0]) && Turn(x, x[0]) == Xor(Turn(w, w[0] != m[0]), m[1..] + Zeros(32 - (|m| - 1)))
  {
    var padded := m + Zeros(32 - |m|);
    assert Turn(padded, false) == m[1..] + Zeros(32 - (|m| - 1));
    TurnXor(w, padded, w[0] != m[0], false);
  }

  /** Feeding bits is turning with the bits added beforehand. */
  lemma {:induction false} FeedIsTurns(w: Bits, m: Bits)
    requires |w| == 32 && |m| <= 32
    ensures Feed(w, m) == Turns(Xor(w, m + Zeros(32 - |m|)), |m|)
    decreases |m|
  {
    if m == [] {
      assert Xor(w, m + Zeros(32)) == w;
    } else {
      FeedIsTurns(Turn(w, w[0] != m[0]), m[1..]);
      PaddedTurn(w, m);
    }
  }

  lemma {:induction false} ZeroBits(width: nat)
    ensures BitsOf(0, width) == Zeros(width)
  {
    if width > 0 {
      ZeroBits(width - 1);
      assert BitsOf(0, width) == [false] + BitsOf(0, width - 1);
      ZerosEitherEnd(width - 1);
    }
  }

  lemma ZerosEitherEnd(k: nat)
    ensures [false] + Zeros(k) == Zeros(k + 1)
  {
    var a, b := [false] + Zeros(k), Zeros(k + 1);
    forall i | 0 <= i < |a| ensures a[i] == b[i] {}
  }

  lemma {:induction false} SmallBits(n: nat, k: nat, width: nat)
    requires k <= width && n < Pow2(k)
    ensures BitsOf(n, width) == BitsOf(n, k) + Zeros(width - k)
    decreases width
  {
    if k == 0 {
      ZeroBits(width);
      assert BitsOf(n, 0) == [] && [] + Zeros(width) == Zeros(width);
    } else {
      SmallBits(n / 2, k - 1, width - 1);
      OneBitMore(n % 2 == 1, BitsOf(n / 2, k - 1), Zeros(width - k));
    }
  }

  lemma OneBitMore(bit: bool, a: Bits, b: Bits)
    ensures [bit] + (a + b) == [bit] + a + b
  {
  }

  /** The table entry the loop looks up: the low byte of crc ^ b. */
  function TableIndex(w: Bits, b: Byte): (r: nat)
    requires |w| == 32
    ensures r < 256
  {
    ValueFits(Xor(w, BitsOf(b, 32))[..8]);
    Powers();
    ValueOf(Xor(w, BitsOf(b, 32))[..8])
  }

  lemma LowPart(x: Bits)
    requires |x| == 32
    ensures ValueOf(x[..8]) < 256 && BitsOf(ValueOf(x[..8]), 32) == x[..8] + Zeros(24)
  {
    ValueFits(x[..8]);
    Powers();
    SmallBits(ValueOf(x[..8]), 8, 32);
    BitsOfValue(x[..8]);
  }

  lemma HighPart(w: Bits, b: Byte)
    requires |w| == 32
    ensures var x := Xor(w, BitsOf(b, 32)); x[8..] == w[8..] && Xor(w, BitsOf(b, 8) + Zeros(24)) == x
  {
    Powers();
    SmallBits(b, 8, 32);
  }

  lemma Halves(x: Bits)
    requires |x| == 32
    ensures Xor(x[..8] + Zeros(24), Zeros(8) + x[8..]) == x
  {
  }

  /** Looking up the table does what feeding the eight bits of a byte does. */
  lemma TableStepIsFeed(w: Bits, b: Byte)
    requires |w| == 32
    ensures Xor(w[8..] + Zeros(8), TableEntry(TableIndex(w, b))) == Feed(w, BitsOf(b, 8))
  {
    var x := Xor(w, BitsOf(b, 32));
    var low, high := x[..8] + Zeros(24), Zeros(8) + x[8..];
    FeedIsTurns(w, BitsOf(b, 8));
    HighPart(w, b);
    LowPart(x);
    Halves(x);
    TurnsXor(low, high, 8);
    TurnsShift(high, 8);
    assert high[8..] == w[8..];
    XorCommutes(Turns(low, 8), w[8..] + Zeros(8));
  }

  lemma XorCommutes(a: Bits, b: Bits)
    requires |a| == |b|
    ensures Xor(a, b) == Xor(b, a)
  {
  }

  lemma {:induction false} FeedJoins(w: Bits, a: Bits, b: Bits)
    requires |w| == 32
    ensures Feed(w, a + b) == Feed(Feed(w, a), b)
    decreases |a|
  {
    if a == [] {
      assert a + b == b;
    } else {
      assert (a + b)[1..] == a[1..] + b;
      FeedJoins(Turn(w, w[0] != a[0]), a[1..], b);
    }
  }

  // ---- what the checksum detects -------------------------------------------------------------

  lemma {:induction false} FeedXor(u: Bits, v: Bits, a: Bits, b: Bits)
    requires |u| == 32 && |v| == 32 && |a| == |b|
    ensures Feed(Xor(u, v), Xor(a, b)) == Xor(Feed(u, a), Feed(v, b))
    decreases |a|
  {
    if a != [] {
      TurnXor(u, v, u[0] != a[0], v[0] != b[0]);
      assert Xor(a, b)[1..] == Xor(a[1..], b[1..]);
      FeedXor(Turn(u, u[0] != a[0]), Turn(v, v[0] != b[0]), a[1..], b[1..]);
    }
  }

  lemma {:induction false} TopBit(n: nat, width: nat)
    requires width > 0 && Pow2(width - 1) <= n < Pow2(width)
    ensures BitsOf(n, width)[width - 1]
    decreases width
  {
    if width > 1 {
      TopBit(n / 2, width - 1);
      assert BitsOf(n, width)[width - 1] == BitsOf(n / 2, width - 1)[width - 2];
    } else {
      assert Pow2(0) == 1 && Pow2(1) == 2;
    }
  }

  lemma PolynomialTop()
    ensures POLYNOMIAL[31]
  {
    Powers();
    TopBit(0xEDB88320, 32);
  }

  /** Some bit at position m or above is set. */
  ghost predicate SetAbove(w: Bits, m: int) {
    exists h :: 0 <= h < |w| && m <= h && w[h]
  }

  lemma TurnSets(w: Bits)
    requires |w| == 32
    ensures Turn(w, true)[31]
  {
    PolynomialTop();
  }

  lemma TurnMoves(w: Bits, h: nat)
    requires |w| == 32 && 0 < h < 32
    ensures Turn(w, false)[h - 1] == w[h]
  {
  }

  /** Whatever is fed, a turn moves the top set bit down by at most one place. */
  lemma TurnKeepsBit(w: Bits, feedback: bool, m: nat)
    requires |w| == 32 && SetAbove(w, m) && m > 0
    ensures SetAbove(Turn(w, feedback), m - 1)
  {
    var h :| 0 <= h < |w| && m <= h && w[h];
    if feedback { TurnSets(w); } else { TurnMoves(w, h); }
  }

  /** With no more differences, a register that differs keeps differing. */
  lemma TurnKeepsDiffering(w: Bits)
    requires |w| == 32 && SetAbove(w, 0)
    ensures SetAbove(Turn(w, w[0]), 0)
  {
    var h :| 0 <= h < |w| && w[h];
    if w[0] { TurnSets(w); } else { TurnMoves(w, h); }
  }

  lemma {:induction false} FeedKeepsDiffering(w: Bits, k: nat)
    requires |w| == 32 && SetAbove(w, 0)
    ensures SetAbove(Feed(w, Zeros(k)), 0)
    decreases k
  {
    if k > 0 {
      TurnKeepsDiffering(w);
      assert Zeros(k)[1..] == Zeros(k - 1);
      FeedKeepsDiffering(Turn(w, w[0]), k - 1);
    }
  }

  lemma {:induction false} FeedKeepsBit(w: Bits, m: Bits, top: nat)
    requires |w| == 32 && SetAbove(w, top) && |m| <= top
    ensures SetAbove(Feed(w, m), 0)
    decreases |m|
  {
    if m != [] {
      TurnKeepsBit(w, w[0] != m[0], top);
      FeedKeepsBit(Turn(w, w[0] != m[0]), m[1..], top - 1);
    }
  }

  /** A burst of at most 32 differing bits leaves the registers different. */
  lemma {:induction false} BurstDiffers(d: Bits)
    requires |d| <= 32 && SetAbove(d, 0)
    ensures SetAbove(Feed(Zeros(32), d), 0)
    decreases |d|
  {
    if d[0] {
      TurnSets(Zeros(32));
      FeedKeepsBit(Turn(Zeros(32), true), d[1..], 31);
    } else {
      assert Turn(Zeros(32), false) == Zeros(32);
      assert SetAbove(d[1..], 0) by {
        var h :| 0 <= h < |d| && d[h];
        assert d[1..][h - 1];
      }
      BurstDiffers(d[1..]);
    }
  }

  lemma XorTellsApart(a: Bits, b: Bits)
    requires |a| == |b| && SetAbove(Xor(a, b), 0)
    ensures a != b
  {
    var h :| 0 <= h < |Xor(a, b)| && Xor(a, b)[h];
  }

  /** What follows a difference cannot hide it. */
  lemma SameTailDiffers(u: Bits, v: Bits, m: Bits)
    requires |u| == 32 && |v| == 32 && u != v
    ensures Feed(u, m) != Feed(v, m)
  {
    FeedXor(u, v, m, m);
    assert Xor(m, m) == Zeros(|m|);
    assert SetAbove(Xor(u, v), 0) by {
      var h :| 0 <= h < 32 && u[h] != v[h];
      assert Xor(u, v)[h];
    }
    FeedKeepsDiffering(Xor(u, v), |m|);
    XorTellsApart(Feed(u, m), Feed(v, m));
  }

  lemma BurstAtDiffers(w: Bits, a: Bits, b: Bits)
    requires |w| == 32 && |a| == |b| <= 32 && a != b
    ensures Feed(w, a) != Feed(w, b)
  {
    FeedXor(w, w, a, b);
    assert Xor(w, w) == Zeros(32);
    assert SetAbove(Xor(a, b), 0) by {
      var h :| 0 <= h < |a| && a[h] != b[h];
      assert Xor(a, b)[h];
    }
    BurstDiffers(Xor(a, b));
    XorTellsApart(Feed(w, a), Feed(w, b));
  }

  lemma {:induction false} MessageJoins(a: Bytes, b: Bytes)
    ensures MessageBits(a + b) == MessageBits(a) + MessageBits(b)
  {
    if a == [] {
      assert a + b == b;
    } else {
      assert (a + b)[1..] == a[1..] + b;
      MessageJoins(a[1..], b);
    }
  }

  lemma {:induction false} MessageDiffers(a: Bytes, b: Bytes)
    requires |a| == |b|
    ensures |MessageBits(a)| == |MessageBits(b)| == 8 * |a|
    ensures a != b ==> MessageBits(a) != MessageBits(b)
  {
    if a != [] {
      MessageDiffers(a[1..], b[1..]);
      var x, y := BitsOf(a[0], 8), BitsOf(b[0], 8);
      assert MessageBits(a)[..8] == x && MessageBits(b)[..8] == y;
      assert MessageBits(a)[8..] == MessageBits(a[1..]) && MessageBits(b)[8..] == MessageBits(b[1..]);
      Powers();
      ValueOfBits(a[0], 8);
      ValueOfBits(b[0], 8);
      assert a == [a[0]] + a[1..] && b == [b[0]] + b[1..];
    }
  }

  lemma FeedMessage(w: Bits, head: Bytes, burst: Bytes, tail: Bytes)
    requires |w| == 32
    ensures Feed(w, MessageBits(head + burst + tail)) ==
            Feed(Feed(Feed(w, MessageBits(head)), MessageBits(burst)), MessageBits(tail))
  {
    MessageJoins(head + burst, tail);
    MessageJoins(head, burst);
    FeedJoins(w, MessageBits(head + burst), MessageBits(tail));
    FeedJoins(w, MessageBits(head), MessageBits(burst));
  }

  lemma ChecksumDiffers(u: Bits, v: Bits)
    requires |u| == 32 && |v| == 32 && u != v
    ensures ValueOf(Xor(u, ALL_ONES)) != ValueOf(Xor(v, ALL_ONES))
  {
    var h :| 0 <= h < 32 && u[h] != v[h];
    assert Xor(u, ALL_ONES)[h] != Xor(v, ALL_ONES)[h];
    BitsOfValue(Xor(u, ALL_ONES));
    BitsOfValue(Xor(v, ALL_ONES));
  }

  /** Messages that differ only within four adjacent bytes have different checksums. */
  lemma BurstDetected(head: Bytes, a: Bytes, b: Bytes, tail: Bytes)
    requires |a| == |b| <= 4 && a != b
    ensures Crc32(head + a + tail) != Crc32(head + b + tail)
  {
    var w := Feed(ALL_ONES, MessageBits(head));
    MessageDiffers(a, b);
    BurstAtDiffers(w, MessageBits(a), MessageBits(b));
    SameTailDiffers(Feed(w, MessageBits(a)), Feed(w, MessageBits(b)), MessageBits(tail));
    FeedMessage(ALL_ONES, head, a, tail);
    FeedMessage(ALL_ONES, head, b, tail);
    ChecksumDiffers(Feed(ALL_ONES, MessageBits(head + a + tail)), Feed(ALL_ONES, MessageBits(head + b + tail)));
  }

  lemma ChecksumFits(data: Bytes)
    ensures Crc32(data) < 0x1_0000_0000
  {
    ValueFits(Xor(Feed(ALL_ONES, MessageBits(data)), ALL_ONES));
    Powers();
  }

  // ---- the code ----------------------------------------------------------------------------

  ghost predicate Filled(table: seq<Bits>, n: nat) {
    n <= |table| <= 256 && forall i :: 0 <= i < n ==> table[i] == TableEntry(i)
  }

  lemma FilledNext(table: seq<Bits>, n: nat, entry: Bits)
    requires Filled(table, n) && n < |table| && entry == TableEntry(n)
    ensures Filled(table[n := entry], n + 1)
  {
  }

  /** The global table and its flag. */
  class ChecksumTable {
    const table: array<Bits>
    var ready: bool

    ghost predicate Valid()
      reads this, table
    {
      table.Length == 256 && (ready ==> Filled(table[..], 256))
    }

    constructor ()
      ensures Valid() && !ready && fresh(table)
    {
      table := new Bits[256];
      ready := false;
    }

    static method Entry(i: Byte) returns (crc: Bits)
      ensures crc == TableEntry(i)
    {
      crc := BitsOf(i, 32);
      for j := 0 to 8
        invariant |crc| == 32 && Turns(crc, 8 - j) == TableEntry(i)
      {
        if crc[0] {
          crc := Xor(Shift(crc), POLYNOMIAL);
        } else {
          crc := Shift(crc);
        }
      }
    }

    method Init()
      requires Valid()
      modifies this, table
      ensures Valid() && ready
    {
      for i := 0 to 256
        invariant Filled(table[..], i)
      {
        var entry := Entry(i);
        FilledNext(table[..], i, entry);
        ghost var before := table[..];
        table[i] := entry;
        assert table[..] == before[i := entry];
      }
      ready := true;
    }

    /** computeCRC32: the table-driven loop computes the CRC-32. */
    method Compute(data: Bytes) returns (result: nat)
      requires Valid()
      modifies this, table
      ensures Valid() && ready && result == Crc32(data)
    {
      if !ready { Init(); }
      var crc := ALL_ONES;
      for i := 0 to |data|
        invariant |crc| == 32 && Valid() && ready
        invariant Feed(crc, MessageBits(data[i..])) == Feed(ALL_ONES, MessageBits(data))
      {
        TableStepIsFeed(crc, data[i]);
        assert data[i..][1..] == data[i + 1..];
        FeedJoins(crc, BitsOf(data[i], 8), MessageBits(data[i + 1..]));
        crc := Xor(crc[8..] + Zeros(8), table[TableIndex(crc, data[i])]);
      }
      result := ValueOf(Xor(crc, ALL_ONES));
    }
  }
}
