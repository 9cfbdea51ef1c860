/**
 The checksum every file chunk carries: src/files/chunker.js `crc32`.

 The code looks each byte up in a 256-entry table that is built on first use and
 then kept. The reference it is proved against is the bit-serial register of
 RFC 1952 section 8: one message bit enters at a time, least significant bit of
 each byte first, and the polynomial is folded in when the outgoing bit and the
 message bit differ. On top of that come the facts the transfer relies on: what
 damage to a chunk the checksum is certain to notice.

 Register values are natural numbers below 2^32. `Xor` is the code's `^`, division
 by 2 its `>>> 1`, division by 256 its `>>> 8` and remainder by 256 its `& 0xff`;
 none of them can leave the range, so the code's unsigned wrap never happens.
 */
module Crc32 {

  type Byte = b: int | 0 <= b < 256

  const POLYNOMIAL := 0xedb8_8320
  const ALL_ONES := 0xffff_ffff
  const TWO_TO_32 := 0x1_0000_0000

  // ------------------------------------------------------------------
  // Exclusive-or, and the handful of its laws the proofs below use.
  // ------------------------------------------------------------------

  function Xor(a: nat, b: nat): nat
    decreases a + b
  {
    if a == 0 && b == 0 then 0 else 2 * Xor(a / 2, b / 2) + (a + b) % 2
  }

  lemma XorHalf(a: nat, b: nat)
    ensures Xor(a, b) / 2 == Xor(a / 2, b / 2)
    ensures Xor(a, b) % 2 == (a + b) % 2
  {
  }

  lemma {:induction false} XorZero(a: nat)
    ensures Xor(a, 0) == a && Xor(0, a) == a
  {
    if a > 0 {
      XorZero(a / 2);
    }
  }

  lemma {:induction false} XorSelf(a: nat)
    ensures Xor(a, a) == 0
  {
    if a > 0 {
      XorSelf(a / 2);
    }
  }

  lemma {:induction false} XorCommutes(a: nat, b: nat)
    ensures Xor(a, b) == Xor(b, a)
    decreases a + b
  {
    if a + b > 0 {
      XorCommutes(a / 2, b / 2);
    }
  }

  lemma {:induction false} XorAssociates(a: nat, b: nat, c: nat)
    ensures Xor(Xor(a, b), c) == Xor(a, Xor(b, c))
    decreases a + b + c
  {
    hide Xor;
    XorZero(0);
    if a + b + c > 0 {
      XorHalf(a, b);
      XorHalf(b, c);
      XorAssociates(a / 2, b / 2, c / 2);
      XorHalf(Xor(a, b), c);
      XorHalf(a, Xor(b, c));
    }
  }

  lemma XorSwapMiddle(a: nat, b: nat, c: nat)
    ensures Xor(a, Xor(b, c)) == Xor(b, Xor(a, c))
  {
    XorAssociates(a, b, c);
    XorCommutes(a, b);
    XorAssociates(b, a, c);
  }

  lemma XorTwice(p: nat, a: nat, b: nat)
    ensures Xor(Xor(p, a), Xor(p, b)) == Xor(a, b)
  {
    XorCommutes(p, a);
    XorAssociates(a, p, Xor(p, b));
    XorAssociates(p, p, b);
    XorSelf(p);
    XorZero(b);
  }

  lemma XorCancel(p: nat, a: nat, b: nat)
    requires Xor(p, a) == Xor(p, b)
    ensures a == b
  {
    XorAssociates(p, p, a);
    XorAssociates(p, p, b);
    XorSelf(p);
    XorZero(a);
    XorZero(b);
  }

  function Pow2(k: nat): nat
  {
    if k == 0 then 1 else 2 * Pow2(k - 1)
  }

  lemma {:induction false} XorBelow(a: nat, b: nat, k: nat)
    requires a < Pow2(k) && b < Pow2(k)
    ensures Xor(a, b) < Pow2(k)
    decreases k
  {
    if k > 0 {
      XorBelow(a / 2, b / 2, k - 1);
    }
  }

  lemma Powers()
    ensures Pow2(8) == 0x100 && Pow2(31) == 0x8000_0000 && Pow2(32) == TWO_TO_32
  {
    assert Pow2(8) == 0x100;
    assert Pow2(16) == 0x1_0000;
    assert Pow2(24) == 0x100_0000;
    assert Pow2(31) == 0x8000_0000;
  }

  lemma XorBelow32(a: nat, b: nat)
    requires a < TWO_TO_32 && b < TWO_TO_32
    ensures Xor(a, b) < TWO_TO_32
  {
    Powers();
    XorBelow(a, b, 32);
  }

  /** `x` with its low `k` bits gone. */
  function Drop(x: nat, k: nat): nat
    decreases k
  {
    if k == 0 then x else Drop(x / 2, k - 1)
  }

  lemma {:induction false} DropXor(a: nat, b: nat, k: nat)
    ensures Drop(Xor(a, b), k) == Xor(Drop(a, k), Drop(b, k))
    decreases k
  {
    if k > 0 {
      XorHalf(a, b);
      DropXor(a / 2, b / 2, k - 1);
    }
  }

  lemma {:induction false} DropSmall(x: nat, k: nat)
    requires x < Pow2(k)
    ensures Drop(x, k) == 0
    decreases k
  {
    if k > 0 {
      DropSmall(x / 2, k - 1);
    }
  }

  lemma DropFour(x: nat, k: nat)
    ensures Drop(x, k + 4) == Drop(x / 16, k)
  {
    assert Drop(x, k + 4) == Drop(x / 2, k + 3);
    assert Drop(x / 2, k + 3) == Drop(x / 4, k + 2);
    assert Drop(x / 4, k + 2) == Drop(x / 8, k + 1);
  }

  lemma DropEight(x: nat, k: nat)
    ensures Drop(x, k + 8) == Drop(x / 256, k)
  {
    DropFour(x, k + 4);
    DropFour(x / 16, k);
  }

  lemma DropByte(x: nat)
    ensures Drop(x, 8) == x / 256
  {
    DropEight(x, 0);
  }

  /** Numbers with no bit in common: exclusive-or is addition. */
  lemma {:induction false} XorDisjoint(low: nat, high: nat, k: nat)
    requires low < Pow2(k)
    ensures Xor(low, Pow2(k) * high) == low + Pow2(k) * high
    decreases k
  {
    hide Xor;
    if k == 0 {
      XorZero(high);
    } else {
      assert Pow2(k) * high == 2 * (Pow2(k - 1) * high);
      XorDisjoint(low / 2, high, k - 1);
      XorHalf(low, Pow2(k) * high);
    }
  }

  lemma XorByte(low: Byte, high: nat)
    ensures Xor(low, 256 * high) == low + 256 * high
  {
    Powers();
    XorDisjoint(low, high, 8);
  }

  /**
   The code's constant is the generator polynomial of RFC 1952 section 8, without x^32 and
   with its highest power at the lowest bit.
   */
  lemma PolynomialIsTheStandards()
    ensures POLYNOMIAL
         == Pow2(31 - 26) + Pow2(31 - 23) + Pow2(31 - 22) + Pow2(31 - 16) + Pow2(31 - 12) + Pow2(31 - 11) + Pow2(31 - 10)
            + Pow2(31 - 8) + Pow2(31 - 7) + Pow2(31 - 5) + Pow2(31 - 4) + Pow2(31 - 2) + Pow2(31 - 1) + Pow2(31 - 0)
  {
    hide Pow2;
    PowersTo31();
  }

  lemma PowersTo31()
    ensures Pow2(5) == 0x20 && Pow2(8) == 0x100 && Pow2(9) == 0x200 && Pow2(15) == 0x8000
    ensures Pow2(19) == 0x8_0000 && Pow2(20) == 0x10_0000 && Pow2(21) == 0x20_0000 && Pow2(23) == 0x80_0000
    ensures Pow2(24) == 0x100_0000 && Pow2(26) == 0x400_0000 && Pow2(27) == 0x800_0000
    ensures Pow2(29) == 0x2000_0000 && Pow2(30) == 0x4000_0000 && Pow2(31) == 0x8000_0000
  {
    assert Pow2(5) == 0x20;
    assert Pow2(9) == 0x200;
    assert Pow2(15) == 0x8000;
    assert Pow2(20) == 0x10_0000;
    assert Pow2(24) == 0x100_0000;
    assert Pow2(27) == 0x800_0000;
  }

  // ------------------------------------------------------------------
  // The reference: one message bit at a time.
  // ------------------------------------------------------------------

  function FeedBit(register: nat, bit: nat): nat {
    if register % 2 != bit then Xor(POLYNOMIAL, register / 2) else register / 2
  }

  /** Feed the low `k` bits of `message`, least significant first. */
  function FeedBits(register: nat, message: nat, k: nat): nat
    decreases k
  {
    if k == 0 then register else FeedBits(FeedBit(register, message % 2), message / 2, k - 1)
  }

  function FeedByte(register: nat, b: Byte): nat {
    FeedBits(register, b, 8)
  }

  function FeedBytes(register: nat, bytes: seq<Byte>): nat
    decreases |bytes|
  {
    if bytes == [] then register else FeedBytes(FeedByte(register, bytes[0]), bytes[1..])
  }

  function Checksum(bytes: seq<Byte>): nat {
    Xor(FeedBytes(ALL_ONES, bytes), ALL_ONES)
  }

  lemma {:induction false} FeedBytesAppend(register: nat, a: seq<Byte>, b: seq<Byte>)
    ensures FeedBytes(register, a + b) == FeedBytes(FeedBytes(register, a), b)
    decreases |a|
  {
    if a == [] {
      assert a + b == b;
    } else {
      assert (a + b)[1..] == a[1..] + b;
      FeedBytesAppend(FeedByte(register, a[0]), a[1..], b);
    }
  }

  // ------------------------------------------------------------------
  // The register step with a zero message bit, which is what the table iterates.
  // ------------------------------------------------------------------

  function Shift(c: nat): nat {
    if c % 2 == 1 then Xor(POLYNOMIAL, c / 2) else c / 2
  }

  function ShiftN(c: nat, k: nat): nat
    decreases k
  {
    if k == 0 then c else Shift(ShiftN(c, k - 1))
  }

  /** What the table holds for one byte. */
  function TableEntry(b: Byte): nat {
    ShiftN(b, 8)
  }

  lemma {:induction false} ShiftNSplit(c: nat, j: nat, k: nat)
    ensures ShiftN(c, j + k) == ShiftN(ShiftN(c, j), k)
    decreases k
  {
    if k > 0 {
      ShiftNSplit(c, j, k - 1);
    }
  }

  /** The step distributes over exclusive-or: this is what makes a table possible. */
  lemma ShiftLinear(x: nat, y: nat)
    ensures Shift(Xor(x, y)) == Xor(Shift(x), Shift(y))
  {
    hide Xor;
    XorHalf(x, y);
    XorAssociates(POLYNOMIAL, x / 2, y / 2);
    XorSwapMiddle(POLYNOMIAL, x / 2, y / 2);
    XorTwice(POLYNOMIAL, x / 2, y / 2);
  }

  lemma {:induction false} ShiftNLinear(x: nat, y: nat, k: nat)
    ensures ShiftN(Xor(x, y), k) == Xor(ShiftN(x, k), ShiftN(y, k))
    decreases k
  {
    hide Xor, Shift;
    if k > 0 {
      ShiftNLinear(x, y, k - 1);
      ShiftLinear(ShiftN(x, k - 1), ShiftN(y, k - 1));
    }
  }

  lemma ShiftBelow32(c: nat)
    requires c < TWO_TO_32
    ensures Shift(c) < TWO_TO_32
  {
    XorBelow32(POLYNOMIAL, c / 2);
  }

  lemma {:induction false} ShiftNBelow32(c: nat, k: nat)
    requires c < TWO_TO_32
    ensures ShiftN(c, k) < TWO_TO_32
    decreases k
  {
    if k > 0 {
      ShiftNBelow32(c, k - 1);
      ShiftBelow32(ShiftN(c, k - 1));
    }
  }

  /** The polynomial's top bit is set and a halved register's is not. */
  lemma FoldedIsNotHalf(x: nat, y: nat)
    requires x < TWO_TO_32 && y < TWO_TO_32
    ensures Xor(POLYNOMIAL, x / 2) != y / 2
  {
    hide Xor;
    Powers();
    DropEight(POLYNOMIAL, 23);
    DropEight(0xed_b883, 15);
    DropEight(0xedb8, 7);
    assert Drop(0xed, 7) == 1;
    DropXor(POLYNOMIAL, x / 2, 31);
    DropSmall(x / 2, 31);
    DropSmall(y / 2, 31);
    XorZero(1);
  }

  /** So the step loses nothing. */
  lemma ShiftInjective(x: nat, y: nat)
    requires x < TWO_TO_32 && y < TWO_TO_32 && Shift(x) == Shift(y)
    ensures x == y
  {
    FoldedIsNotHalf(x, y);
    FoldedIsNotHalf(y, x);
    if x % 2 == 1 && y % 2 == 1 {
      XorCancel(POLYNOMIAL, x / 2, y / 2);
    }
  }

  lemma {:induction false} ShiftNInjective(x: nat, y: nat, k: nat)
    requires x < TWO_TO_32 && y < TWO_TO_32 && ShiftN(x, k) == ShiftN(y, k)
    ensures x == y
    decreases k
  {
    if k > 0 {
      ShiftNBelow32(x, k - 1);
      ShiftNBelow32(y, k - 1);
      ShiftInjective(ShiftN(x, k - 1), ShiftN(y, k - 1));
      ShiftNInjective(x, y, k - 1);
    }
  }

  lemma {:induction false} FeedBitIsShift(r: nat, w: nat)
    ensures Shift(Xor(r, w)) == Xor(FeedBit(r, w % 2), w / 2)
  {
    hide Xor;
    XorHalf(r, w);
    XorAssociates(POLYNOMIAL, r / 2, w / 2);
  }

  /** Feeding bits one at a time is stepping the register with the message folded in up front. */
  lemma {:induction false} FeedBitsIsShift(r: nat, w: nat, k: nat)
    ensures ShiftN(Xor(r, w), k) == Xor(FeedBits(r, w, k), Drop(w, k))
    decreases k
  {
    if k > 0 {
      ShiftNSplit(Xor(r, w), 1, k - 1);
      assert ShiftN(Xor(r, w), 1) == Shift(ShiftN(Xor(r, w), 0));
      FeedBitIsShift(r, w);
      FeedBitsIsShift(FeedBit(r, w % 2), w / 2, k - 1);
    }
  }

  lemma {:induction false} FeedByteIsShift(r: nat, b: Byte)
    ensures FeedByte(r, b) == ShiftN(Xor(r, b), 8)
  {
    FeedBitsIsShift(r, b, 8);
    DropByte(b);
    XorZero(FeedByte(r, b));
  }

  /** Eight steps over a word whose low byte is clear only move it down. */
  lemma ShiftLowZero(q: nat)
    ensures ShiftN(256 * q, 8) == q
  {
    var z := 256 * q;
    assert ShiftN(z, 1) == 128 * q by { assert ShiftN(z, 0) == z; }
    assert ShiftN(z, 2) == 64 * q;
    assert ShiftN(z, 3) == 32 * q;
    assert ShiftN(z, 4) == 16 * q;
    assert ShiftN(z, 5) == 8 * q;
    assert ShiftN(z, 6) == 4 * q;
    assert ShiftN(z, 7) == 2 * q;
  }

  /** One table lookup does what eight message bits do. */
  lemma TableStep(r: nat, b: Byte)
    ensures FeedByte(r, b) == Xor(TableEntry(Xor(r, b) % 256), r / 256)
  {
    hide Xor;
    hide ShiftN, Drop;
    var x := Xor(r, b);
    DropXor(r, b, 8);
    DropByte(x);
    DropByte(r);
    DropByte(b);
    XorZero(r / 256);
    XorByte(x % 256, x / 256);
    FeedByteIsShift(r, b);
    ShiftNLinear(x % 256, 256 * (x / 256), 8);
    ShiftLowZero(x / 256);
  }

  // ------------------------------------------------------------------
  // The code: a table built once, then one lookup a byte.
  // ------------------------------------------------------------------

  ghost predicate IsTable(t: seq<nat>) {
    |t| == 256 && forall b: Byte :: t[b] == TableEntry(b)
  }

  class Checksummer {
    var table: array?<nat>

    ghost predicate Valid()
      reads this, table
    {
      table != null ==> IsTable(table[..])
    }

    constructor ()
      ensures Valid() && table == null
    {
      table := null;
    }

    method BuildTable() returns (t: array<nat>)
      ensures fresh(t) && IsTable(t[..])
    {
      t := new nat[256];
      for n := 0 to 256
        invariant fresh(t)
        invariant forall b: Byte :: b < n ==> t[b] == TableEntry(b)
      {
        var c: nat := n;
        for k := 0 to 8
          invariant c == ShiftN(n, k)
        {
          c := if c % 2 == 1 then Xor(POLYNOMIAL, c / 2) else c / 2;
        }
        t[n] := c;
      }
    }

    /** The value is the reference checksum, whether or not the table existed already. */
    method Crc32(bytes: seq<Byte>) returns (crc: nat)
      requires Valid()
      modifies this
      ensures Valid()
      ensures crc == Checksum(bytes)
      ensures old(table) == null ==> table != null && fresh(table)
      ensures old(table) != null ==> table == old(table)
    {
      if table == null {
        table := BuildTable();
      }
      var c := ALL_ONES;
      for i := 0 to |bytes|
        invariant Valid() && table != null
        invariant old(table) == null ==> fresh(table)
        invariant old(table) != null ==> table == old(table)
        invariant c >= 0 && c == FeedBytes(ALL_ONES, bytes[..i])
      {
        var index := Xor(c, bytes[i]) % 256;
        assert table[index] == table[..][index] == TableEntry(index);
        TableStep(c, bytes[i]);
        FeedOne(ALL_ONES, bytes, i);
        c := Xor(table[index], c / 256);
      }
      assert bytes[..|bytes|] == bytes;
      crc := Xor(c, ALL_ONES);
    }
  }

  lemma FeedOne(r: nat, bytes: seq<Byte>, i: nat)
    requires i < |bytes|
    ensures FeedBytes(r, bytes[..i + 1]) == FeedByte(FeedBytes(r, bytes[..i]), bytes[i])
  {
    assert bytes[..i + 1] == bytes[..i] + [bytes[i]];
    FeedBytesAppend(r, bytes[..i], [bytes[i]]);
    assert [bytes[i]][1..] == [];
  }

  // ------------------------------------------------------------------
  // What the checksum is certain to notice.
  // ------------------------------------------------------------------

  /** Bytes as one register value, first byte lowest. */
  function Pack(w: seq<Byte>): nat
    decreases |w|
  {
    if w == [] then 0 else w[0] + 256 * Pack(w[1..])
  }

  lemma {:induction false} PackBelow(w: seq<Byte>)
    requires |w| <= 4
    ensures Pack(w) < TWO_TO_32
    ensures |w| <= 3 ==> Pack(w) < 0x100_0000
    ensures |w| <= 2 ==> Pack(w) < 0x1_0000
    ensures |w| <= 1 ==> Pack(w) < 256
    decreases |w|
  {
    if w != [] {
      PackBelow(w[1..]);
    }
  }

  lemma {:induction false} PackInjective(u: seq<Byte>, w: seq<Byte>)
    requires |u| == |w| && Pack(u) == Pack(w)
    ensures u == w
    decreases |u|
  {
    if u != [] {
      assert u[0] == Pack(u) % 256 && w[0] == Pack(w) % 256;
      PackInjective(u[1..], w[1..]);
      assert u == [u[0]] + u[1..] && w == [w[0]] + w[1..];
    }
  }

  lemma WindowHead(r: nat, b: Byte, rest: nat)
    ensures ShiftN(Xor(r, b + 256 * rest), 8) == Xor(FeedByte(r, b), rest)
  {
    hide Xor, ShiftN;
    FeedByteIsShift(r, b);
    XorByte(b, rest);
    XorAssociates(r, b, 256 * rest);
    ShiftNLinear(Xor(r, b), 256 * rest, 8);
    ShiftLowZero(rest);
  }

  /** A window of bytes enters the register as a single word. */
  lemma {:induction false} FeedWindow(r: nat, w: seq<Byte>)
    ensures FeedBytes(r, w) == ShiftN(Xor(r, Pack(w)), 8 * |w|)
    decreases |w|
  {
    hide Xor, FeedByte, Shift;
    if w == [] {
      XorZero(r);
    } else {
      var rest := w[1..];
      WindowHead(r, w[0], Pack(rest));
      FeedWindow(FeedByte(r, w[0]), rest);
      ShiftNSplit(Xor(r, Pack(w)), 8, 8 * |rest|);
    }
  }

  lemma {:induction false} FeedBytesBelow32(r: nat, bytes: seq<Byte>)
    requires r < TWO_TO_32
    ensures FeedBytes(r, bytes) < TWO_TO_32
    decreases |bytes|
  {
    if bytes != [] {
      FeedByteIsShift(r, bytes[0]);
      XorBelow32(r, bytes[0]);
      ShiftNBelow32(Xor(r, bytes[0]), 8);
      FeedBytesBelow32(FeedByte(r, bytes[0]), bytes[1..]);
    }
  }

  lemma {:induction false} RegisterSurvives(r: nat, s: nat, bytes: seq<Byte>)
    requires r < TWO_TO_32 && s < TWO_TO_32 && FeedBytes(r, bytes) == FeedBytes(s, bytes)
    ensures r == s
    decreases |bytes|
  {
    if bytes != [] {
      var m := bytes[0];
      FeedByteIsShift(r, m);
      FeedByteIsShift(s, m);
      XorBelow32(r, m);
      XorBelow32(s, m);
      ShiftNBelow32(Xor(r, m), 8);
      ShiftNBelow32(Xor(s, m), 8);
      RegisterSurvives(FeedByte(r, m), FeedByte(s, m), bytes[1..]);
      ShiftNInjective(Xor(r, m), Xor(s, m), 8);
      XorCommutes(r, m);
      XorCommutes(s, m);
      XorCancel(m, r, s);
    }
  }

  lemma WindowsDiffer(r: nat, u: seq<Byte>, w: seq<Byte>)
    requires r < TWO_TO_32 && |u| == |w| <= 4 && FeedBytes(r, u) == FeedBytes(r, w)
    ensures u == w
  {
    FeedWindow(r, u);
    FeedWindow(r, w);
    PackBelow(u);
    PackBelow(w);
    XorBelow32(r, Pack(u));
    XorBelow32(r, Pack(w));
    ShiftNInjective(Xor(r, Pack(u)), Xor(r, Pack(w)), 8 * |u|);
    XorCancel(r, Pack(u), Pack(w));
    PackInjective(u, w);
  }

  /**
   Two messages of one length that differ only inside some four consecutive bytes
   never share a checksum, whatever surrounds the damage.
   */
  lemma BurstDetected(a: seq<Byte>, b: seq<Byte>, from: nat, to: nat)
    requires |a| == |b| && a != b
    requires from <= to <= |a| && to - from <= 4
    requires a[..from] == b[..from] && a[to..] == b[to..]
    ensures Checksum(a) != Checksum(b)
  {
    if Checksum(a) == Checksum(b) {
      var pre, post, u, w := a[..from], a[to..], a[from..to], b[from..to];
      var r := FeedBytes(ALL_ONES, pre);
      assert a == pre + u + post && b == pre + w + post;
      XorCommutes(ALL_ONES, FeedBytes(ALL_ONES, a));
      XorCommutes(ALL_ONES, FeedBytes(ALL_ONES, b));
      XorCancel(ALL_ONES, FeedBytes(ALL_ONES, a), FeedBytes(ALL_ONES, b));
      FeedBytesAppend(ALL_ONES, pre + u, post);
      FeedBytesAppend(ALL_ONES, pre + w, post);
      FeedBytesAppend(ALL_ONES, pre, u);
      FeedBytesAppend(ALL_ONES, pre, w);
      FeedBytesBelow32(ALL_ONES, pre);
      FeedBytesBelow32(r, u);
      FeedBytesBelow32(r, w);
      RegisterSurvives(FeedBytes(r, u), FeedBytes(r, w), post);
      WindowsDiffer(r, u, w);
      assert false;
    }
  }

  lemma OneByteDamageDetected(a: seq<Byte>, b: seq<Byte>, at: nat)
    requires |a| == |b| && at < |a| && a[at] != b[at]
    requires forall i :: 0 <= i < |a| && i != at ==> a[i] == b[i]
    ensures Checksum(a) != Checksum(b)
  {
    assert a[..at] == b[..at] && a[at + 1..] == b[at + 1..];
    BurstDetected(a, b, at, at + 1);
  }
}
