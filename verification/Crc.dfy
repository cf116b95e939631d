/** The two CRC computers: bit by bit and table-driven, with and without reflection. A register has
    `width` bits, of which the lowest `bits` hold the remainder; the others are overflow. */
module Crc {
  import opened Bits
  import opened Division

  // ----- reflection -----

  /** reflect_unsigned on the lowest `k` bits: the others stay. */
  function ReflectLow(x: Bits, k: nat): (r: Bits)
    requires k <= |x|
    ensures |r| == |x|
  {
    Reverse(x[..k]) + x[k..]
  }

  /** Swaps from the outside in. */
  method ReflectUnsigned(x: Bits, k: nat) returns (r: Bits)
    requires 0 < k <= |x|
    ensures r == ReflectLow(x, k)
  {
    r := x;
    var l, h := 0, k - 1;
    while h > l
      invariant 0 <= l <= h + 1 && l + h == k - 1 && |r| == |x|
      invariant forall i :: 0 <= i < l ==> r[i] == x[k - 1 - i]
      invariant forall i :: h < i < k ==> r[i] == x[k - 1 - i]
      invariant forall i :: l <= i <= h || k <= i < |x| ==> r[i] == x[i]
    {
      assert k - 1 - l == h && k - 1 - h == l;
      if r[l] != r[h] {
        r := r[l := !r[l]][h := !r[h]];
      }
      l, h := l + 1, h - 1;
    }
    assert forall i :: 0 <= i < k ==> r[i] == Reverse(x[..k])[i];
  }

  /** The reflector that crc_optimal mixes in: for at most a byte it also clears the other bits. */
  function Reflected(x: Bits, k: nat): (r: Bits)
    requires 0 < k <= |x|
    ensures |r| == |x| && r[..k] == Reverse(x[..k])
  {
    if k > 8 then ReflectLow(x, k) else Pad(Reverse(x[..k]), |x|)
  }

  method ReflectQ(x: Bits, k: nat, doIt: bool) returns (r: Bits)
    requires 0 < k <= |x| && 8 <= |x|
    ensures r == if doIt then Reflected(x, k) else x
  {
    if !doIt {
      return x;
    }
    if k > 8 {
      r := ReflectUnsigned(x, k);
    } else {
      var byte := ReflectUnsigned(x[..8], 8);
      assert byte[8 - k..] == Reverse(x[..k]);
      r := Pad(byte[8 - k..], |x|);
    }
  }

  // ----- messages -----

  /** The order in which the bits of a byte are processed. */
  function Order(byte: Byte, reflect: bool): (b: Bits)
    ensures |b| == 8
  {
    if reflect then byte else Reverse(byte)
  }

  function Flat(msg: seq<Byte>, reflect: bool): Bits {
    if msg == [] then [] else Order(msg[0], reflect) + Flat(msg[1..], reflect)
  }

  lemma {:induction false} FlatAppend(a: seq<Byte>, b: seq<Byte>, reflect: bool)
    ensures Flat(a + b, reflect) == Flat(a, reflect) + Flat(b, reflect)
  {
    if a == [] {
      assert a + b == b;
    } else {
      assert (a + b)[1..] == a[1..] + b;
      FlatAppend(a[1..], b, reflect);
    }
  }

  lemma FlatFirst(msg: seq<Byte>, reflect: bool)
    requires msg != []
    ensures Flat(msg, reflect) == Order(msg[0], reflect) + Flat(msg[1..], reflect)
    ensures forall i :: 0 <= i < 8 ==> Order(msg[0], reflect)[i] == msg[0][if reflect then i else 7 - i]
  {}

  /** Bit `i` of byte `m` in processing order: lowest first when reflected, highest first otherwise. */
  lemma {:induction false} FlatAt(msg: seq<Byte>, reflect: bool, m: nat, i: nat)
    requires m < |msg| && i < 8
    ensures 8 * m + i < |Flat(msg, reflect)| && Flat(msg, reflect)[8 * m + i] == msg[m][if reflect then i else 7 - i]
    decreases m
  {
    hide Flat, Order;
    FlatFirst(msg, reflect);
    if m > 0 {
      FlatAt(msg[1..], reflect, m - 1, i);
      assert 8 * m + i - 8 == 8 * (m - 1) + i;
    }
  }

  lemma FlatOne(byte: Byte, reflect: bool)
    ensures Flat([byte], reflect) == Order(byte, reflect)
  {}

  lemma FlatNothing(reflect: bool)
    ensures Flat([], reflect) == []
  {}

  // ----- crc_modulo_word_update -----

  /** One pass of the loop on a whole register. */
  function WideStep(n: nat, r: Bits, p: Bits, b: bool): (s: Bits)
    requires 0 < n <= |r| == |p|
    ensures |s| == |r|
  {
    var met := r[n - 1 := r[n - 1] != b];
    Xor([false] + met[..|r| - 1], Times(met[n - 1], p))
  }

  lemma WideStepIsStep(n: nat, r: Bits, p: Bits, b: bool)
    requires 0 < n <= |r| == |p|
    ensures WideStep(n, r, p, b)[..n] == Step(r[..n], p[..n], b)
  {}

  /** Feeds the lowest `len` bits of `word`; overflow is cleared at the end. */
  method ModuloWordUpdate(n: nat, rem: Bits, word: Bits, p: Bits, len: nat, reflect: bool) returns (r: Bits)
    requires 0 < n <= |rem| == |p| && 0 < len <= |word|
    ensures r == Pad(Steps(rem[..n], p[..n], if reflect then word[..len] else Reverse(word[..len])), |rem|)
  {
    hide Step, WideStep;
    var dividend := word;
    if !reflect {
      dividend := ReflectUnsigned(word, len);
    }
    ghost var order := dividend[..len];
    assert order == if reflect then word[..len] else Reverse(word[..len]);
    r := rem;
    var i := len;
    while i > 0
      invariant 0 <= i <= len && |r| == |rem| && |dividend| == |word|
      invariant dividend[..i] == order[len - i..]
      invariant Steps(r[..n], p[..n], order[len - i..]) == Steps(rem[..n], p[..n], order)
    {
      assert dividend[..i][0] == order[len - i..][0];
      assert order[len - i..][1..] == order[len - (i - 1)..];
      WideStepIsStep(n, r, p, dividend[0]);
      r := WideStep(n, r, p, dividend[0]);
      dividend := dividend[1..] + [false];
      i := i - 1;
    }
    r := Pad(r[..n], |rem|);
  }

  // ----- the table -----

  /** The composite correction for `k` bits, as the table holds it. */
  function Entry(n: nat, p: Bits, index: Bits, reflect: bool): (e: Bits)
    requires 0 < n <= |p|
    ensures |e| == |p|
  {
    var zero := Zeros(n);
    Pad(if reflect then Reverse(Steps(zero, p[..n], index)) else Steps(zero, p[..n], Reverse(index)), |p|)
  }

  /** The part of the table made from the dividends below `bound`. */
  ghost predicate TablePart(table: seq<Bits>, n: nat, k: nat, p: Bits, reflect: bool, bound: nat)
    requires 0 < n <= |p|
  {
    && |table| == Pow2(k)
    && forall b: Bits {:trigger Entry(n, p, b, reflect)} :: |b| == k && Value(Placed(b, reflect)) < bound ==>
         table[Value(b)] == Entry(n, p, b, reflect)
  }

  /** Where the entry of a dividend goes, and back. */
  function Placed(b: Bits, reflect: bool): (c: Bits)
    ensures |c| == |b|
  {
    if reflect then Reverse(b) else b
  }

  ghost predicate IsTable(table: seq<Bits>, n: nat, k: nat, p: Bits, reflect: bool)
    requires 0 < n <= |p|
  {
    |table| == Pow2(k) && forall b: Bits {:trigger Entry(n, p, b, reflect)} :: |b| == k ==> table[Value(b)] == Entry(n, p, b, reflect)
  }

  lemma TableExtendsAt(table: seq<Bits>, n: nat, k: nat, p: Bits, reflect: bool, bits: Bits, e: Bits, b: Bits)
    requires 0 < n <= |p| && |bits| == k && TablePart(table, n, k, p, reflect, Value(bits))
    requires e == Entry(n, p, Placed(bits, reflect), reflect)
    requires |b| == k && Value(Placed(b, reflect)) <= Value(bits)
    ensures table[Value(Placed(bits, reflect)) := e][Value(b)] == Entry(n, p, b, reflect)
  {
    hide Entry, Value, Pow2, Placed;
    if Value(Placed(b, reflect)) == Value(bits) {
      ValueInjective(Placed(b, reflect), bits);
      PlacedTwice(b, reflect);
    } else if Value(b) == Value(Placed(bits, reflect)) {
      ValueInjective(b, Placed(bits, reflect));
      PlacedTwice(bits, reflect);
    }
  }

  lemma TableExtends(table: seq<Bits>, n: nat, k: nat, p: Bits, reflect: bool, bits: Bits, e: Bits)
    requires 0 < n <= |p| && |bits| == k && |table| == Pow2(k) && TablePart(table, n, k, p, reflect, Value(bits))
    requires e == Entry(n, p, Placed(bits, reflect), reflect)
    ensures TablePart(table[Value(Placed(bits, reflect)) := e], n, k, p, reflect, Value(bits) + 1)
  {
    hide Entry, Value, Pow2, Placed, TablePart;
    var t := table[Value(Placed(bits, reflect)) := e];
    if b: Bits :| |b| == k && Value(Placed(b, reflect)) < Value(bits) + 1 && t[Value(b)] != Entry(n, p, b, reflect) {
      TableExtendsAt(table, n, k, p, reflect, bits, e, b);
    } else {
      TablePartIs(t, n, k, p, reflect, Value(bits) + 1);
    }
  }

  lemma TablePartIs(table: seq<Bits>, n: nat, k: nat, p: Bits, reflect: bool, bound: nat)
    requires 0 < n <= |p| && |table| == Pow2(k)
    requires !exists b: Bits {:trigger Entry(n, p, b, reflect)}  ::
               |b| == k && Value(Placed(b, reflect)) < bound && table[Value(b)] != Entry(n, p, b, reflect)
    ensures TablePart(table, n, k, p, reflect, bound)
  {}

  lemma PlacedTwice(b: Bits, reflect: bool)
    ensures Placed(Placed(b, reflect), reflect) == b
  {}

  lemma EntryOf(n: nat, k: nat, p: Bits, reflect: bool, bits: Bits, rem: Bits)
    requires 0 < n <= |p| && |bits| == k
    requires rem == Pad(Steps(Zeros(|p|)[..n], p[..n], Reverse(bits)), |p|)
    ensures (if reflect then ReflectLow(rem, n) else rem) == Entry(n, p, Placed(bits, reflect), reflect)
  {
    assert Zeros(|p|)[..n] == Zeros(n);
    ReverseTwice(bits);
  }

  /** One entry for every dividend, at the place and in the order that reflection asks for. */
  method MakeTable(n: nat, k: nat, p: Bits, reflect: bool) returns (table: array<Bits>)
    requires 0 < k <= n <= |p|
    ensures fresh(table) && IsTable(table[..], n, k, p, reflect)
  {
    hide Entry, ReflectLow, Value, Pow2, TablePart, IsTable, Pad, Steps;
    table := new Bits[Pow2(k)](_ => []);
    TableEnds(table[..], n, k, p, reflect);
    var dividend := 0;
    while dividend < table.Length
      invariant 0 <= dividend <= table.Length && TablePart(table[..], n, k, p, reflect, dividend)
    {
      var bits := Digits(dividend, k);
      var rem := ModuloWordUpdate(n, Zeros(|p|), bits, p, k, false);
      assert bits[..k] == bits;
      EntryOf(n, k, p, reflect, bits, rem);
      TableExtends(table[..], n, k, p, reflect, bits, if reflect then ReflectLow(rem, n) else rem);
      var index := bits;
      if reflect {
        index := ReflectUnsigned(bits, k);
        rem := ReflectUnsigned(rem, n);
        ReflectAll(bits);
      }
      table[Value(index)] := rem;
      dividend := dividend + 1;
    }
    TableEnds(table[..], n, k, p, reflect);
  }

  lemma TableEnds(table: seq<Bits>, n: nat, k: nat, p: Bits, reflect: bool)
    requires 0 < n <= |p| && |table| == Pow2(k)
    ensures TablePart(table, n, k, p, reflect, 0)
    ensures TablePart(table, n, k, p, reflect, |table|) ==> IsTable(table, n, k, p, reflect)
  {}

  lemma ReflectAll(x: Bits)
    ensures ReflectLow(x, |x|) == Reverse(x)
  {}

  // ----- what the computers compute -----

  /** Bits, TruncPoly, InitRem, FinalXor, ReflectIn and ReflectRem. */
  datatype Params = Params(bits: nat, poly: Bits, init: Bits, final: Bits, reflectIn: bool, reflectRem: bool) {
    predicate Ok() {
      0 < bits <= |poly| == |init| == |final| && 8 <= |poly|
    }

    function Divisor(): (p: Bits)
      requires Ok()
      ensures |p| == bits > 0
    {
      poly[..bits]
    }
  }

  /** The remainder of a message, one bit after the other. */
  function Remainder(c: Params, start: Bits, msg: seq<Byte>): (r: Bits)
    requires c.Ok() && |start| == |c.poly|
    ensures |r| == c.bits
  {
    Steps(start[..c.bits], c.Divisor(), Flat(msg, c.reflectIn))
  }

  /** Output reflection and the final mask; overflow is cleared. */
  function Finish(c: Params, r: Bits): (s: Bits)
    requires c.Ok() && |r| == c.bits
    ensures |s| == |c.poly|
  {
    Pad(Xor(if c.reflectRem then Reverse(r) else r, c.final[..c.bits]), |c.poly|)
  }

  /** Bit by bit: output reflection, then the final mask; overflow is clear. */
  lemma FinishBits(c: Params, r: Bits)
    requires c.Ok() && |r| == c.bits
    ensures forall i :: 0 <= i < c.bits ==> Finish(c, r)[i] == (r[if c.reflectRem then c.bits - 1 - i else i] != c.final[i])
    ensures forall i :: c.bits <= i < |Finish(c, r)| ==> !Finish(c, r)[i]
  {
    var x := Xor(if c.reflectRem then Reverse(r) else r, c.final[..c.bits]);
    assert Finish(c, r) == Pad(x, |c.poly|) && Pad(x, |c.poly|)[..c.bits] == x;
  }

  lemma RemainderAppend(c: Params, start: Bits, a: seq<Byte>, b: seq<Byte>)
    requires c.Ok() && |start| == |c.poly|
    ensures Remainder(c, start, a + b) == Steps(Remainder(c, start, a), c.Divisor(), Flat(b, c.reflectIn))
  {
    FlatAppend(a, b, c.reflectIn);
    StepsAppend(start[..c.bits], c.Divisor(), Flat(a, c.reflectIn), Flat(b, c.reflectIn));
  }

  /** crc_basic: bit at a time. */
  class CrcBasic {
    const c: Params
    var rem: Bits
    ghost var start: Bits   // the last value given to reset
    ghost var seen: Bits    // the bits processed since, in order

    ghost predicate Valid()
      reads this
    {
      c.Ok() && |rem| == |start| == |c.poly| && rem[..c.bits] == Steps(start[..c.bits], c.Divisor(), seen)
    }

    constructor (c: Params)
      requires c.Ok()
      ensures Valid() && this.c == c && start == c.init && seen == []
    {
      this.c, rem, start, seen := c, c.init, c.init, [];
    }

    method Reset(newRem: Bits)
      requires Valid() && |newRem| == |c.poly|
      modifies this
      ensures Valid() && start == newRem && seen == []
    {
      rem, start, seen := newRem, newRem, [];
    }

    method ProcessBit(bit: bool)
      requires Valid()
      modifies this
      ensures Valid() && start == old(start) && seen == old(seen) + [bit]
    {
      hide Steps;
      StepsAppend(start[..c.bits], c.Divisor(), seen, [bit]);
      assert [bit][..1] == [bit] && Reverse([bit]) == [bit];
      rem := ModuloWordUpdate(c.bits, rem, [bit], c.poly, 1, false);
      seen := seen + [bit];
    }

    /** The lowest `len` bits of a byte, highest first, whatever the reflection. */
    method ProcessBits(byte: Byte, len: nat)
      requires Valid() && 0 < len <= 8
      modifies this
      ensures Valid() && start == old(start) && seen == old(seen) + Reverse(byte[..len])
    {
      hide Valid, ShiftUp;
      var bits := Zeros(8 - len) + byte[..len];
      ghost var order := Reverse(byte[..len]);
      var i := len;
      while i > 0
        invariant 0 <= i <= len && |bits| == 8
        invariant Valid() && start == old(start) && seen == old(seen) + order[..len - i]
        invariant bits == Zeros(8 - i) + byte[..i]
      {
        ProcessBit(bits[7]);
        ShiftIn(byte, i);
        assert order[..len - i + 1] == order[..len - i] + [order[len - i]];
        bits := ShiftUp(bits, 1);
        i := i - 1;
      }
      assert order[..len] == order;
    }

    lemma ShiftIn(byte: Byte, i: nat)
      requires 0 < i <= 8
      ensures ShiftUp(Zeros(8 - i) + byte[..i], 1) == Zeros(8 - (i - 1)) + byte[..i - 1]
    {}

    method ProcessByte(byte: Byte)
      requires Valid()
      modifies this
      ensures Valid() && start == old(start) && seen == old(seen) + Order(byte, c.reflectIn)
      ensures |seen| == |old(seen)| + 8
      ensures forall i :: |old(seen)| <= i < |seen| ==>
                seen[i] == byte[if c.reflectIn then i - |old(seen)| else 7 - (i - |old(seen)|)]
    {
      var b := byte;
      if c.reflectIn {
        b := ReflectUnsigned(byte, 8);
      }
      assert Reverse(b[..8]) == Order(byte, c.reflectIn);
      ProcessBits(b, 8);
    }

    method ProcessBytes(msg: seq<Byte>)
      requires Valid()
      modifies this
      ensures Valid() && start == old(start) && seen == old(seen) + Flat(msg, c.reflectIn)
    {
      hide Valid, Flat, Order;
      var i := 0;
      FlatNothing(c.reflectIn);
      while i < |msg|
        invariant 0 <= i <= |msg| && Valid() && start == old(start)
        invariant seen == old(seen) + Flat(msg[..i], c.reflectIn)
      {
        ProcessByte(msg[i]);
        assert msg[..i + 1] == msg[..i] + [msg[i]];
        FlatAppend(msg[..i], [msg[i]], c.reflectIn);
        FlatOne(msg[i], c.reflectIn);
        i := i + 1;
      }
      assert msg[..i] == msg;
    }

    method Checksum() returns (sum: Bits)
      requires Valid()
      ensures sum == Finish(c, Steps(start[..c.bits], c.Divisor(), seen))
      ensures |sum| == |c.poly| && forall i :: c.bits <= i < |sum| ==> !sum[i]
      ensures var r := Steps(start[..c.bits], c.poly[..c.bits], seen);
              forall i :: 0 <= i < c.bits ==> sum[i] == (r[if c.reflectRem then c.bits - 1 - i else i] != c.final[i])
    {
      hide Steps, Finish;
      ghost var s := Steps(start[..c.bits], c.Divisor(), seen);
      FinishBits(c, s);
      FinishIs(c, s);
      var r := rem;
      if c.reflectRem {
        r := ReflectUnsigned(rem, c.bits);
      }
      assert r[..c.bits] == if c.reflectRem then Reverse(s) else s;
      LowXor(r, c.final, c.bits);
      sum := Pad(Xor(r, c.final)[..c.bits], |c.poly|);
    }
  }

  lemma LowXor(a: Bits, b: Bits, n: nat)
    requires n <= |a| == |b|
    ensures Xor(a, b)[..n] == Xor(a[..n], b[..n])
  {}

  lemma FinishIs(c: Params, r: Bits)
    requires c.Ok() && |r| == c.bits
    ensures Finish(c, r) == Pad(Xor(if c.reflectRem then Reverse(r) else r, c.final[..c.bits]), |c.poly|)
  {}
}
