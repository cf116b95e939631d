/** The table-driven CRC computer, and when it agrees with the bit-at-a-time one. */
module TableCrc {
  import opened Bits
  import opened Division
  import opened Crc

  function ShiftDown(r: Bits, k: nat): (s: Bits)
    requires k <= |r|
    ensures |s| == |r|
  {
    r[k..] + Zeros(k)
  }

  // ----- one byte through the table -----

  /** The loop body of the direct table-driven update. */
  function DirectByte(n: nat, p: Bits, r: Bits, byte: Byte): (s: Bits)
    requires 8 <= n <= |p| == |r|
    ensures |s| == |r|
  {
    Xor(ShiftUp(r, 8), Entry(n, p, Xor(r[n - 8..n], byte), false))
  }

  /** The loop body of the reflected one; the register is reflected too. */
  function ReflectedByte(n: nat, p: Bits, r: Bits, byte: Byte): (s: Bits)
    requires 8 <= n <= |p| == |r|
    ensures |s| == |r|
  {
    Xor(ShiftDown(r, 8), Entry(n, p, Xor(r[..8], byte), true))
  }

  lemma ReverseXor(a: Bits, b: Bits)
    requires |a| == |b|
    ensures Reverse(Xor(a, b)) == Xor(Reverse(a), Reverse(b))
  {}

  /** One look-up does the work of eight division steps. */
  lemma DirectByteIsSteps(n: nat, p: Bits, r: Bits, byte: Byte)
    requires 8 <= n <= |p| == |r|
    ensures DirectByte(n, p, r, byte)[..n] == Steps(r[..n], p[..n], Reverse(byte))
  {
    hide Steps;
    Absorb(r[..n], p[..n], Reverse(byte));
    assert r[..n][n - 8..] == r[n - 8..n];
    ReverseXor(r[n - 8..n], byte);
  }

  /** The same for reflected registers that hold no overflow. */
  lemma ReflectedByteIsSteps(n: nat, p: Bits, r: Bits, byte: Byte)
    requires 8 <= n == |r| <= |p|
    ensures ReflectedByte(n, p, Pad(Reverse(r), |p|), byte) == Pad(Reverse(Steps(r, p[..n], byte)), |p|)
  {
    hide Steps, Top, ShiftUp, ShiftDown, Pad;
    Absorb(r, p[..n], byte);
    ReflectedParts(r, |p|);
    var fix := Steps(Zeros(n), p[..n], Xor(Top(r, 8), byte));
    ReverseXor(ShiftUp(r, 8), fix);
    PadXor(Reverse(ShiftUp(r, 8)), Reverse(fix), |p|);
  }

  /** The reflected register has the highest bits lowest, and shifts the other way. */
  lemma ReflectedParts(r: Bits, width: nat)
    requires 8 <= |r| <= width
    ensures Pad(Reverse(r), width)[..8] == Top(r, 8)
    ensures ShiftDown(Pad(Reverse(r), width), 8) == Pad(Reverse(ShiftUp(r, 8)), width)
  {}

  lemma PadXor(a: Bits, b: Bits, width: nat)
    requires |a| == |b| <= width
    ensures Pad(Xor(a, b), width) == Xor(Pad(a, width), Pad(b, width))
  {}

  // ----- whole messages -----

  function RunReflected(n: nat, p: Bits, r: Bits, msg: seq<Byte>): (s: Bits)
    requires 8 <= n <= |p| == |r|
    ensures |s| == |r|
    decreases |msg|
  {
    if msg == [] then r else RunReflected(n, p, ReflectedByte(n, p, r, msg[0]), msg[1..])
  }

  lemma {:induction false} RunAppend(n: nat, p: Bits, r: Bits, a: seq<Byte>, b: seq<Byte>)
    requires 8 <= n <= |p| == |r|
    ensures RunReflected(n, p, r, a + b) == RunReflected(n, p, RunReflected(n, p, r, a), b)
    decreases |a|
  {
    hide ReflectedByte;
    if a == [] {
      assert a + b == b;
    } else {
      assert (a + b)[1..] == a[1..] + b;
      RunAppend(n, p, ReflectedByte(n, p, r, a[0]), a[1..], b);
    }
  }

  lemma RunOne(n: nat, p: Bits, r: Bits, byte: Byte)
    requires 8 <= n <= |p| == |r|
    ensures RunReflected(n, p, r, [byte]) == ReflectedByte(n, p, r, byte)
  {
    assert [byte][1..] == [];
  }

  /** Without overflow the reflected register is the mirror image of the remainder throughout. */
  lemma {:induction false} CleanRun(n: nat, p: Bits, r: Bits, msg: seq<Byte>)
    requires 8 <= n == |r| <= |p|
    ensures RunReflected(n, p, Pad(Reverse(r), |p|), msg) == Pad(Reverse(Steps(r, p[..n], Flat(msg, true))), |p|)
    decreases |msg|
  {
    hide ReflectedByte, Steps, Pad, Reverse;
    if msg == [] {
      NoSteps(r, p[..n]);
    } else {
      ReflectedByteIsSteps(n, p, r, msg[0]);
      CleanRun(n, p, Steps(r, p[..n], msg[0]), msg[1..]);
      StepsAppend(r, p[..n], msg[0], Flat(msg[1..], true));
    }
  }

  lemma NoSteps(r: Bits, p: Bits)
    requires |r| == |p| > 0
    ensures Steps(r, p, []) == r
  {}

  // ----- crc_update -----

  /** The direct update: overflow is never cleared and never comes back down. */
  method UpdateDirect(n: nat, p: Bits, table: array<Bits>, rem: Bits, msg: seq<Byte>) returns (r: Bits)
    requires 8 <= n <= |p| == |rem| && IsTable(table[..], n, 8, p, false)
    ensures |r| == |rem| && r[..n] == Steps(rem[..n], p[..n], Flat(msg, false))
  {
    hide Steps, Flat, Entry, Value, Pow2, DirectByte;
    r := rem;
    var i := 0;
    FlatNothing(false);
    NoSteps(rem[..n], p[..n]);
    while i < |msg|
      invariant 0 <= i <= |msg| && |r| == |rem|
      invariant r[..n] == Steps(rem[..n], p[..n], Flat(msg[..i], false))
    {
      assert msg[..i + 1] == msg[..i] + [msg[i]];
      FlatAppend(msg[..i], [msg[i]], false);
      FlatOne(msg[i], false);
      StepsAppend(rem[..n], p[..n], Flat(msg[..i], false), Reverse(msg[i]));
      DirectByteIsSteps(n, p, r, msg[i]);
      r := LookUpDirect(n, p, table, r, msg[i]);
      i := i + 1;
    }
    assert msg[..i] == msg;
  }

  method LookUpDirect(n: nat, p: Bits, table: array<Bits>, rem: Bits, byte: Byte) returns (r: Bits)
    requires 8 <= n <= |p| == |rem| && IsTable(table[..], n, 8, p, false)
    ensures r == DirectByte(n, p, rem, byte)
  {
    hide Entry, Value, Pow2;
    var index := Xor(rem[n - 8..n], byte);
    assert table[..][Value(index)] == Entry(n, p, index, false);
    r := Xor(ShiftUp(rem, 8), table[Value(index)]);
  }

  method LookUpReflected(n: nat, p: Bits, table: array<Bits>, rem: Bits, byte: Byte) returns (r: Bits)
    requires 8 <= n <= |p| == |rem| && IsTable(table[..], n, 8, p, true)
    ensures r == ReflectedByte(n, p, rem, byte)
  {
    hide Entry, Value, Pow2;
    var index := Xor(rem[..8], byte);
    assert table[..][Value(index)] == Entry(n, p, index, true);
    r := Xor(ShiftDown(rem, 8), table[Value(index)]);
  }

  method UpdateReflected(n: nat, p: Bits, table: array<Bits>, rem: Bits, msg: seq<Byte>) returns (r: Bits)
    requires 8 <= n <= |p| == |rem| && IsTable(table[..], n, 8, p, true)
    ensures r == RunReflected(n, p, rem, msg)
  {
    hide ReflectedByte, IsTable;
    r := rem;
    var i := 0;
    while i < |msg|
      invariant 0 <= i <= |msg| && |r| == |rem|
      invariant r == RunReflected(n, p, rem, msg[..i])
    {
      assert msg[..i + 1] == msg[..i] + [msg[i]];
      RunAppend(n, p, rem, msg[..i], [msg[i]]);
      RunOne(n, p, r, msg[i]);
      r := LookUpReflected(n, p, table, r, msg[i]);
      i := i + 1;
    }
    assert msg[..i] == msg;
  }

  /** Orders below a byte are processed bit by bit; a reflected register is turned round and back. */
  method UpdateSubByte(n: nat, p: Bits, rem: Bits, msg: seq<Byte>, reflect: bool) returns (r: Bits)
    requires 0 < n < 8 <= |p| == |rem|
    ensures |r| == |rem|
    ensures if reflect then r == Pad(Reverse(Steps(Reverse(rem[..n]), p[..n], Flat(msg, true))), |rem|)
            else r[..n] == Steps(rem[..n], p[..n], Flat(msg, false))
  {
    hide Steps, Flat;
    r := ReflectQ(rem, n, reflect);
    ghost var first := r[..n];
    var i := 0;
    FlatNothing(reflect);
    NoSteps(first, p[..n]);
    while i < |msg|
      invariant 0 <= i <= |msg| && |r| == |rem|
      invariant r[..n] == Steps(first, p[..n], Flat(msg[..i], reflect))
    {
      assert msg[..i + 1] == msg[..i] + [msg[i]];
      FlatAppend(msg[..i], [msg[i]], reflect);
      FlatOne(msg[i], reflect);
      StepsAppend(first, p[..n], Flat(msg[..i], reflect), Order(msg[i], reflect));
      assert msg[i][..8] == msg[i];
      r := ModuloWordUpdate(n, r, msg[i], p, 8, reflect);
      i := i + 1;
    }
    assert msg[..i] == msg;
    r := ReflectQ(r, n, reflect);
  }

  // ----- the computer -----

  /** The remainder that crc_optimal has after a message, reflection undone. */
  function OptimalRemainder(c: Params, start: Bits, msg: seq<Byte>): (r: Bits)
    requires c.Ok() && |start| == |c.poly|
    ensures |r| == c.bits
  {
    if c.reflectIn && c.bits >= 8 then
      Reverse(RunReflected(c.bits, c.poly, Reflected(start, c.bits), msg)[..c.bits])
    else Remainder(c, start, msg)
  }

  function OptimalChecksum(c: Params, start: Bits, msg: seq<Byte>): (s: Bits)
    requires c.Ok() && |start| == |c.poly|
    ensures |s| == |c.poly|
  {
    Finish(c, OptimalRemainder(c, start, msg))
  }

  function BasicChecksum(c: Params, start: Bits, msg: seq<Byte>): (s: Bits)
    requires c.Ok() && |start| == |c.poly|
    ensures |s| == |c.poly|
  {
    Finish(c, Remainder(c, start, msg))
  }

  /** No overflow bit is set where a reflected register could shift it down into the remainder. */
  predicate Clean(c: Params, start: Bits)
    requires c.Ok() && |start| == |c.poly|
  {
    !c.reflectIn || c.bits <= 8 || forall i :: c.bits <= i < |start| ==> !start[i]
  }

  lemma ReflectedClean(start: Bits, n: nat)
    requires 0 < n <= |start| && (n <= 8 || forall i :: n <= i < |start| ==> !start[i])
    ensures Reflected(start, n) == Pad(Reverse(start[..n]), |start|)
  {}

  lemma CleanAgrees(c: Params, start: Bits, msg: seq<Byte>)
    requires c.Ok() && |start| == |c.poly| && Clean(c, start)
    ensures OptimalRemainder(c, start, msg) == Remainder(c, start, msg)
  {
    if c.reflectIn && c.bits >= 8 {
      ReflectedClean(start, c.bits);
      CleanRun(c.bits, c.poly, start[..c.bits], msg);
      ReverseTwice(Remainder(c, start, msg));
    }
  }

  class CrcOptimal {
    const c: Params
    const table: array<Bits>
    var rem: Bits
    ghost var start: Bits
    ghost var seen: seq<Byte>

    ghost predicate Valid()
      reads this, table
    {
      && c.Ok() && |rem| == |start| == |c.poly|
      && (c.bits >= 8 ==> IsTable(table[..], c.bits, 8, c.poly, c.reflectIn))
      && Holds(c, rem, start, seen)
    }

    constructor (c: Params)
      requires c.Ok()
      ensures Valid() && fresh(table) && this.c == c && start == c.init && seen == []
    {
      hide IsTable, Holds, Reflected;
      var t := new Bits[0];
      if c.bits >= 8 {
        t := MakeTable(c.bits, 8, c.poly, c.reflectIn);
      }
      var r := ReflectQ(c.init, c.bits, c.reflectIn);
      StartHolds(c, c.init);
      this.c, table, rem, start, seen := c, t, r, c.init, [];
    }

    method Reset(newRem: Bits)
      requires Valid() && |newRem| == |c.poly|
      modifies this
      ensures Valid() && start == newRem && seen == []
    {
      hide IsTable, Holds, Reflected;
      StartHolds(c, newRem);
      rem := ReflectQ(newRem, c.bits, c.reflectIn);
      start, seen := newRem, [];
    }

    method ProcessBytes(msg: seq<Byte>)
      requires Valid()
      modifies this
      ensures Valid() && start == old(start) && seen == old(seen) + msg
    {
      hide IsTable, Holds, Steps, Flat, RunReflected, Pad, Remainder;
      HoldsAfter(c, rem, start, seen, msg);
      if c.bits < 8 {
        rem := UpdateSubByte(c.bits, c.poly, rem, msg, c.reflectIn);
      } else if c.reflectIn {
        rem := UpdateReflected(c.bits, c.poly, table, rem, msg);
      } else {
        rem := UpdateDirect(c.bits, c.poly, table, rem, msg);
      }
      seen := seen + msg;
    }

    method Checksum() returns (sum: Bits)
      requires Valid()
      ensures sum == OptimalChecksum(c, start, seen)
      ensures |sum| == |c.poly| && forall i :: c.bits <= i < |sum| ==> !sum[i]
      ensures !c.reflectIn || c.bits <= 8 || (forall i :: c.bits <= i < |start| ==> !start[i]) ==>
                var r := Steps(start[..c.bits], c.poly[..c.bits], Flat(seen, c.reflectIn));
                forall i :: 0 <= i < c.bits ==> sum[i] == (r[if c.reflectRem then c.bits - 1 - i else i] != c.final[i])
    {
      hide IsTable, Holds, OptimalRemainder, Reflected, Remainder, Finish, Clean;
      HoldsShows(c, rem, start, seen);
      FinishBits(c, OptimalRemainder(c, start, seen));
      CleanMeans(c, start);
      if Clean(c, start) {
        CleanAgrees(c, start, seen);
        RemainderMeans(c, start, seen);
      }
      var r := ReflectQ(rem, c.bits, c.reflectRem != c.reflectIn);
      sum := Pad(Xor(r, c.final)[..c.bits], |c.poly|);
      ReverseTwice(OptimalRemainder(c, start, seen));
      LowXor(r, c.final, c.bits);
      FinishIs(c, OptimalRemainder(c, start, seen));
    }
  }

  lemma CleanMeans(c: Params, start: Bits)
    requires c.Ok() && |start| == |c.poly|
    ensures Clean(c, start) <==> !c.reflectIn || c.bits <= 8 || forall i :: c.bits <= i < |start| ==> !start[i]
  {}

  lemma RemainderMeans(c: Params, start: Bits, msg: seq<Byte>)
    requires c.Ok() && |start| == |c.poly|
    ensures Remainder(c, start, msg) == Steps(start[..c.bits], c.poly[..c.bits], Flat(msg, c.reflectIn))
  {}

  /** How the register stands for the remainder. */
  ghost predicate Holds(c: Params, rem: Bits, start: Bits, seen: seq<Byte>)
    requires c.Ok() && |rem| == |start| == |c.poly|
  {
    if !c.reflectIn then rem[..c.bits] == Remainder(c, start, seen)
    else if c.bits >= 8 then rem == RunReflected(c.bits, c.poly, Reflected(start, c.bits), seen)
    else rem == Pad(Reverse(Remainder(c, start, seen)), |c.poly|)
  }

  lemma StartHolds(c: Params, start: Bits)
    requires c.Ok() && |start| == |c.poly|
    ensures Holds(c, if c.reflectIn then Reflected(start, c.bits) else start, start, [])
  {}

  lemma HoldsAfter(c: Params, rem: Bits, start: Bits, seen: seq<Byte>, msg: seq<Byte>)
    requires c.Ok() && |rem| == |start| == |c.poly| && Holds(c, rem, start, seen)
    ensures !c.reflectIn ==> forall r :: |r| == |rem| && r[..c.bits] == Steps(rem[..c.bits], c.Divisor(), Flat(msg, false)) ==>
              Holds(c, r, start, seen + msg)
    ensures c.reflectIn && c.bits >= 8 ==> Holds(c, RunReflected(c.bits, c.poly, rem, msg), start, seen + msg)
    ensures c.reflectIn && c.bits < 8 ==>
              Holds(c, Pad(Reverse(Steps(Reverse(rem[..c.bits]), c.Divisor(), Flat(msg, true))), |rem|), start, seen + msg)
  {
    hide Remainder, Steps, RunReflected, Reflected;
    RemainderAppend(c, start, seen, msg);
    if c.reflectIn && c.bits >= 8 {
      RunAppend(c.bits, c.poly, Reflected(start, c.bits), seen, msg);
    } else if c.reflectIn {
      ReverseTwice(Remainder(c, start, seen));
    }
  }

  lemma HoldsShows(c: Params, rem: Bits, start: Bits, seen: seq<Byte>)
    requires c.Ok() && |rem| == |start| == |c.poly| && Holds(c, rem, start, seen)
    ensures rem[..c.bits] == if c.reflectIn then Reverse(OptimalRemainder(c, start, seen)) else OptimalRemainder(c, start, seen)
  {}
}
