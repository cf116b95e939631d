/** Exactly when the two CRC computers give the same checksums. */
module CrcAgreement {
  import opened Bits
  import opened Division
  import opened Crc
  import opened TableCrc

  // ----- what overflow does to a reflected register -----

  lemma EntryLinear(n: nat, p: Bits, a: Bits, b: Bits)
    requires 0 < n <= |p| && |a| == |b|
    ensures Entry(n, p, Xor(a, b), true) == Xor(Entry(n, p, a, true), Entry(n, p, b, true))
  {
    hide Steps;
    StepsLinear(Zeros(n), Zeros(n), p[..n], a, b);
    XorZeros(Zeros(n));
    ReverseXor(Steps(Zeros(n), p[..n], a), Steps(Zeros(n), p[..n], b));
    PadXor(Reverse(Steps(Zeros(n), p[..n], a)), Reverse(Steps(Zeros(n), p[..n], b)), |p|);
  }

  const NUL: Byte := Zeros(8)

  function Nuls(m: nat): (z: seq<Byte>)
    ensures |z| == m
  {
    if m == 0 then [] else [NUL] + Nuls(m - 1)
  }

  lemma ByteLinear(n: nat, p: Bits, r: Bits, d: Bits)
    requires 8 <= n <= |p| == |r| == |d|
    ensures ReflectedByte(n, p, Xor(r, d), NUL) == Xor(ReflectedByte(n, p, r, NUL), ReflectedByte(n, p, d, NUL))
  {
    hide Entry;
    EntryLinear(n, p, r[..8], d[..8]);
    XorZeros(r[..8]);
    XorZeros(d[..8]);
    XorZeros(Xor(r, d)[..8]);
    assert Xor(r, d)[..8] == Xor(r[..8], d[..8]);
    assert ShiftDown(Xor(r, d), 8) == Xor(ShiftDown(r, 8), ShiftDown(d, 8));
  }

  lemma {:induction false} RunLinear(n: nat, p: Bits, r: Bits, d: Bits, m: nat)
    requires 8 <= n <= |p| == |r| == |d|
    ensures RunReflected(n, p, Xor(r, d), Nuls(m)) == Xor(RunReflected(n, p, r, Nuls(m)), RunReflected(n, p, d, Nuls(m)))
    decreases m
  {
    hide ReflectedByte;
    if m != 0 {
      ByteLinear(n, p, r, d);
      assert Nuls(m)[1..] == Nuls(m - 1);
      RunLinear(n, p, ReflectedByte(n, p, r, NUL), ReflectedByte(n, p, d, NUL), m - 1);
    }
  }

  /** Overflow alone only moves down, eight places a byte. */
  lemma OverflowMoves(n: nat, p: Bits, d: Bits)
    requires 8 <= n <= |p| == |d| && forall i :: 0 <= i < 8 ==> !d[i]
    ensures ReflectedByte(n, p, d, NUL) == ShiftDown(d, 8)
  {
    hide Steps;
    assert Xor(d[..8], NUL) == Zeros(8);
    NothingToDivide(p[..n], 8);
    assert Entry(n, p, Zeros(8), true) == Zeros(|p|);
    XorZeros(ShiftDown(d, 8));
  }

  lemma NothingToDivide(p: Bits, k: nat)
    requires k <= |p| && |p| > 0
    ensures Steps(Zeros(|p|), p, Zeros(k)) == Zeros(|p|)
  {
    hide Steps, Top, ShiftUp;
    SelfCancels(Zeros(|p|), p, k);
    ZeroParts(|p|, k);
  }

  lemma ZeroParts(n: nat, k: nat)
    requires k <= n
    ensures Top(Zeros(n), k) == Zeros(k) && ShiftUp(Zeros(n), k) == Zeros(n)
  {}

  /** After enough zero bytes the lowest overflow bit reaches the remainder. */
  lemma {:induction false} OverflowArrives(n: nat, p: Bits, d: Bits, j: nat) returns (m: nat, i: nat)
    requires 8 <= n <= |p| == |d| && n <= j < |d| && d[j] && forall i :: 0 <= i < j ==> !d[i]
    ensures i < n && RunReflected(n, p, d, Nuls(m))[i]
    decreases j
  {
    hide ReflectedByte;
    OverflowMoves(n, p, d);
    var e := ShiftDown(d, 8);
    assert e[j - 8];
    if j - 8 < n {
      m, i := 1, j - 8;
      RunOne(n, p, d, NUL);
      assert Nuls(1) == [NUL];
    } else {
      forall o | 0 <= o < j - 8 ensures !e[o] {
        assert e[o] == d[o + 8];
      }
      var k, bit := OverflowArrives(n, p, e, j - 8);
      m, i := k + 1, bit;
      assert Nuls(m)[1..] == Nuls(k);
    }
  }

  /** A set overflow bit shows in some remainder. */
  lemma DirtyDiffers(c: Params, start: Bits) returns (msg: seq<Byte>)
    requires c.Ok() && |start| == |c.poly| && !Clean(c, start)
    ensures OptimalRemainder(c, start, msg) != Remainder(c, start, msg)
  {
    hide OptimalRemainder, Remainder, RunReflected;
    var d := Zeros(c.bits) + start[c.bits..];
    var o :| c.bits <= o < |start| && start[o];
    assert d[o];
    var j := LowestSet(d);
    var m, i := OverflowArrives(c.bits, c.poly, d, j);
    msg := Nuls(m);
    RemainderWithOverflow(c, start, d, m, i);
  }

  lemma RemainderWithOverflow(c: Params, start: Bits, d: Bits, m: nat, i: nat)
    requires c.Ok() && |start| == |c.poly| && c.reflectIn && c.bits > 8 && d == Zeros(c.bits) + start[c.bits..]
    requires i < c.bits
    ensures OptimalRemainder(c, start, Nuls(m))[c.bits - 1 - i]
            == (Remainder(c, start, Nuls(m))[c.bits - 1 - i] != RunReflected(c.bits, c.poly, d, Nuls(m))[i])
  {
    hide RunReflected, Steps, Flat, Nuls, Reflected, Pad;
    var r := Pad(Reverse(start[..c.bits]), |start|);
    ReflectedParts(start, c.bits, d);
    RunLinear(c.bits, c.poly, r, d, m);
    CleanRun(c.bits, c.poly, start[..c.bits], Nuls(m));
    PadLow(Reverse(Remainder(c, start, Nuls(m))), |start|);
  }

  lemma PadLow(r: Bits, width: nat)
    requires |r| <= width
    ensures forall i :: 0 <= i < |r| ==> Pad(r, width)[i] == r[i]
  {}

  lemma ReflectedParts(start: Bits, n: nat, d: Bits)
    requires 8 < n <= |start| && d == Zeros(n) + start[n..]
    ensures Reflected(start, n) == Xor(Pad(Reverse(start[..n]), |start|), d)
  {}

  lemma LowestSet(d: Bits) returns (j: nat)
    requires exists i :: 0 <= i < |d| && d[i]
    ensures j < |d| && d[j] && forall i :: 0 <= i < j ==> !d[i]
  {
    j := 0;
    while !d[j]
      invariant j < |d| && forall i :: 0 <= i < j ==> !d[i]
      decreases |d| - j
    {
      j := j + 1;
    }
  }

  lemma FinishInjective(c: Params, a: Bits, b: Bits)
    requires c.Ok() && |a| == |b| == c.bits && Finish(c, a) == Finish(c, b)
    ensures a == b
  {}

  /** Main result: the table-driven checksum equals the bit-at-a-time one for every message exactly
      when no overflow bit can get into a reflected register. */
  lemma TableAgrees(c: Params, start: Bits)
    requires c.Ok() && |start| == |c.poly|
    ensures (forall msg :: OptimalChecksum(c, start, msg) == BasicChecksum(c, start, msg)) <==> Clean(c, start)
  {
    hide Finish, OptimalRemainder, Remainder, Clean;
    if Clean(c, start) {
      forall msg ensures OptimalChecksum(c, start, msg) == BasicChecksum(c, start, msg) {
        CleanAgrees(c, start, msg);
      }
    } else {
      var msg := DirtyDiffers(c, start);
      if OptimalChecksum(c, start, msg) == BasicChecksum(c, start, msg) {
        FinishInjective(c, OptimalRemainder(c, start, msg), Remainder(c, start, msg));
      }
    }
  }
}

/** augmented_crc: plain long division through the table, and the two ways of checking a message. */
module AugmentedCrc {
  import opened Bits
  import opened Division
  import opened Crc
  import opened TableCrc

  /** The loop body: the byte enters at the bottom, eight bits leave at the top. */
  function AugmentedByte(n: nat, p: Bits, r: Bits, byte: Byte): (s: Bits)
    requires 8 <= n <= |p| == |r|
    ensures |s| == |r|
  {
    Xor(byte + r[..|r| - 8], Entry(n, p, r[n - 8..n], false))
  }

  lemma AugmentedByteIsSteps(n: nat, p: Bits, r: Bits, byte: Byte)
    requires 8 <= n <= |p| == |r|
    ensures AugmentedByte(n, p, r, byte)[..n] == AugSteps(r[..n], p[..n], Reverse(byte))
  {
    hide Steps, AugSteps;
    var low, d := r[..n], p[..n];
    AugStepsLinear(low, Zeros(n), d, Zeros(8), Reverse(byte));
    XorZeros(low);
    XorZeros(Reverse(byte));
    ZeroBits(low, d, 8);
    Absorb(low, d, Zeros(8));
    XorZeros(Top(low, 8));
    Loads(d, Reverse(byte));
    ReverseTwice(byte);
    AugmentedParts(n, r, byte, Steps(Zeros(n), d, Reverse(r[n - 8..n])));
    assert low[n - 8..] == r[n - 8..n];
  }

  lemma AugmentedParts(n: nat, r: Bits, byte: Byte, fix: Bits)
    requires 8 <= n <= |r| && |fix| == n
    ensures Xor(byte + r[..|r| - 8], Pad(fix, |r|))[..n] == Xor(Xor(ShiftUp(r[..n], 8), fix), Pad(byte, n))
  {}

  method UpdateAugmented(n: nat, p: Bits, table: array<Bits>, rem: Bits, msg: seq<Byte>) returns (r: Bits)
    requires 8 <= n <= |p| == |rem| && IsTable(table[..], n, 8, p, false)
    ensures |r| == |rem| && r[..n] == AugSteps(rem[..n], p[..n], Flat(msg, false))
  {
    hide AugSteps, Flat, Entry, Value, Pow2, AugmentedByte;
    r := rem;
    var i := 0;
    FlatNothing(false);
    NoAugSteps(rem[..n], p[..n]);
    while i < |msg|
      invariant 0 <= i <= |msg| && |r| == |rem|
      invariant r[..n] == AugSteps(rem[..n], p[..n], Flat(msg[..i], false))
    {
      assert msg[..i + 1] == msg[..i] + [msg[i]];
      FlatAppend(msg[..i], [msg[i]], false);
      FlatOne(msg[i], false);
      AugStepsAppend(rem[..n], p[..n], Flat(msg[..i], false), Reverse(msg[i]));
      AugmentedByteIsSteps(n, p, r, msg[i]);
      r := LookUpAugmented(n, p, table, r, msg[i]);
      i := i + 1;
    }
    assert msg[..i] == msg;
  }

  lemma NoAugSteps(r: Bits, p: Bits)
    requires |r| == |p| > 0
    ensures AugSteps(r, p, []) == r
  {}

  method LookUpAugmented(n: nat, p: Bits, table: array<Bits>, rem: Bits, byte: Byte) returns (r: Bits)
    requires 8 <= n <= |p| == |rem| && IsTable(table[..], n, 8, p, false)
    ensures r == AugmentedByte(n, p, rem, byte)
  {
    hide Entry, Value, Pow2;
    var index := rem[n - 8..n];
    assert table[..][Value(index)] == Entry(n, p, index, false);
    r := Xor(byte + rem[..|rem| - 8], table[Value(index)]);
  }

  /** The function itself: long division of the message, overflow cleared. */
  method AugmentedCrc(n: nat, p: Bits, init: Bits, msg: seq<Byte>) returns (sum: Bits)
    requires 8 <= n <= |p| == |init|
    ensures sum == Pad(AugSteps(init[..n], p[..n], Flat(msg, false)), |p|)
  {
    var table := MakeTable(n, 8, p, false);
    var r := UpdateAugmented(n, p, table, init, msg);
    sum := Pad(r[..n], |p|);
  }

  // ----- checking a message -----

  /** The bytes of a register of whole bytes, highest byte first. */
  function BigEndian(r: Bits): (b: seq<Byte>)
    requires |r| % 8 == 0
    ensures |b| == |r| / 8
  {
    if r == [] then [] else [r[|r| - 8..]] + BigEndian(r[..|r| - 8])
  }

  lemma {:induction false} BigEndianBits(r: Bits)
    requires |r| % 8 == 0
    ensures Flat(BigEndian(r), false) == Reverse(r)
    decreases |r|
  {
    if r != [] {
      var front, last := r[..|r| - 8], r[|r| - 8..];
      BigEndianBits(front);
      assert BigEndian(r)[1..] == BigEndian(front);
      ReverseAppend(front, last);
      assert r == front + last;
    }
  }

  lemma {:induction false} FlatLength(msg: seq<Byte>, reflect: bool)
    ensures |Flat(msg, reflect)| == 8 * |msg|
  {
    if msg != [] {
      FlatLength(msg[1..], reflect);
    }
  }

  lemma {:induction false} FlatInjective(a: seq<Byte>, b: seq<Byte>)
    requires |a| == |b| && Flat(a, false) == Flat(b, false)
    ensures a == b
  {
    if a != [] {
      var x, y := Flat(a[1..], false), Flat(b[1..], false);
      assert Reverse(a[0]) + x == Reverse(b[0]) + y;
      assert Reverse(a[0]) == (Reverse(a[0]) + x)[..8] == (Reverse(b[0]) + y)[..8] == Reverse(b[0]);
      assert x == (Reverse(a[0]) + x)[8..] == (Reverse(b[0]) + y)[8..] == y;
      ReverseTwice(a[0]);
      ReverseTwice(b[0]);
      FlatInjective(a[1..], b[1..]);
    }
  }

  /** Main result: for whole-byte orders, dividing the message followed by zero bytes gives the
      unaugmented checksum, and dividing it followed by any bytes of that length gives zero exactly
      when they are the big-endian checksum. */
  lemma AugmentedChecks(p: Bits, msg: seq<Byte>, tail: seq<Byte>)
    requires |p| > 0 && |p| % 8 == 0 && |tail| == |p| / 8
    ensures var sum := Steps(Zeros(|p|), p, Flat(msg, false));
            && AugSteps(Zeros(|p|), p, Flat(msg + BigEndian(Zeros(|p|)), false)) == sum
            && (AugSteps(Zeros(|p|), p, Flat(msg + tail, false)) == Zeros(|p|) <==> tail == BigEndian(sum))
  {
    hide Steps, AugSteps, Flat, BigEndian;
    var n := |p|;
    var sum := Steps(Zeros(n), p, Flat(msg, false));
    FlatAppend(msg, BigEndian(Zeros(n)), false);
    BigEndianBits(Zeros(n));
    AugmentedBy(p, Flat(msg, false), Reverse(Zeros(n)));
    ReverseTwice(Zeros(n));
    XorZeros(sum);
    FlatAppend(msg, tail, false);
    FlatLength(tail, false);
    AugmentedBy(p, Flat(msg, false), Flat(tail, false));
    ZeroMeansEqual(sum, Flat(tail, false));
    BigEndianBits(sum);
    if Flat(tail, false) == Reverse(sum) {
      FlatInjective(tail, BigEndian(sum));
    }
  }

  lemma ZeroMeansEqual(a: Bits, b: Bits)
    requires |a| == |b|
    ensures Xor(a, Reverse(b)) == Zeros(|a|) <==> b == Reverse(a)
  {}
}
