/** Prefix masks of IPv6 addresses, on bytes as bit sequences. */
module Ipv6Mask {
  import opened Bits

  function Ones(n: nat): (o: Bits)
    ensures |o| == n && forall i :: 0 <= i < n ==> o[i]
  {
    seq(n, _ => true)
  }

  function Or(a: Bits, b: Bits): (c: Bits)
    requires |a| == |b|
    ensures |c| == |a| && forall i :: 0 <= i < |c| ==> c[i] == (a[i] || b[i])
  {
    seq(|a|, i requires 0 <= i < |a| => a[i] || b[i])
  }

  function And(a: Bits, b: Bits): (c: Bits)
    requires |a| == |b|
    ensures |c| == |a| && forall i :: 0 <= i < |c| ==> c[i] == (a[i] && b[i])
  {
    seq(|a|, i requires 0 <= i < |a| => a[i] && b[i])
  }

  function Not(a: Bits): (c: Bits)
    ensures |c| == |a| && forall i :: 0 <= i < |c| ==> c[i] == !a[i]
  {
    seq(|a|, i requires 0 <= i < |a| => !a[i])
  }

  lemma ValueStep(b: Bits)
    requires b != []
    ensures Value(b) == (if b[0] then 1 else 0) + 2 * Value(b[1..]) && Pow2(|b|) == 2 * Pow2(|b| - 1)
  {}

  lemma {:induction false} ValueAppend(a: Bits, b: Bits)
    ensures Value(a + b) == Value(a) + Pow2(|a|) * Value(b)
  {
    hide Value, Pow2;
    if a == [] {
      assert a + b == b;
      ValueNothing();
    } else {
      assert (a + b)[1..] == a[1..] + b;
      ValueAppend(a[1..], b);
      ValueStep(a);
      ValueStep(a + b);
      Double(Pow2(|a| - 1), Value(b));
    }
  }

  lemma ValueNothing()
    ensures Value([]) == 0 && Pow2(0) == 1
  {}

  lemma Double(x: nat, y: nat)
    ensures 2 * (x * y) == (2 * x) * y
  {}

  lemma {:induction false} ValueZeros(n: nat)
    ensures Value(Zeros(n)) == 0
  {
    if n != 0 {
      assert Zeros(n)[1..] == Zeros(n - 1);
      ValueZeros(n - 1);
    }
  }

  lemma {:induction false} ValueOnes(n: nat)
    ensures Value(Ones(n)) == Pow2(n) - 1
  {
    if n != 0 {
      assert Ones(n)[1..] == Ones(n - 1);
      ValueOnes(n - 1);
    }
  }

  lemma {:induction false} Pow2Add(a: nat, b: nat)
    ensures Pow2(a + b) == Pow2(a) * Pow2(b)
  {
    if a != 0 {
      Pow2Add(a - 1, b);
      Double(Pow2(a - 1), Pow2(b));
    }
  }

  /** CreateMask<uint8_t>: the number with the lowest 8 - `bits` bits set. */
  function CreateMask(bits: nat): (m: Byte)
    requires bits <= 8
    ensures m == Ones(8 - bits) + Zeros(bits)
  {
    ValueAppend(Ones(8 - bits), Zeros(bits));
    ValueZeros(bits);
    ValueOnes(8 - bits);
    DigitsOfValue(Ones(8 - bits) + Zeros(bits));
    Digits(Pow2(8 - bits) - 1, 8)
  }

  // ----- population count -----

  function Population(b: Bits): nat {
    if b == [] then 0 else (if b[0] then 1 else 0) + Population(b[1..])
  }

  lemma DigitsStep(b: Bits, rest: Bits, x: bool)
    requires |b| == |rest| + 1 && Value(b) == (if x then 1 else 0) + 2 * Value(rest)
    ensures b == [x] + rest
  {
    ValueInjective(b[1..], rest);
  }

  /** `value & (value - 1)` clears the lowest set bit. */
  lemma {:induction false} ClearsOne(v: Bits)
    requires Value(v) > 0
    ensures Value(v) - 1 < Pow2(|v|)
    ensures Population(And(v, Digits(Value(v) - 1, |v|))) == Population(v) - 1
  {
    hide Digits, Pow2;
    var less := Digits(Value(v) - 1, |v|);
    if v[0] {
      DigitsStep(less, v[1..], false);
      assert And(v, less)[1..] == v[1..];
    } else {
      ClearsOne(v[1..]);
      var rest := Digits(Value(v[1..]) - 1, |v| - 1);
      DigitsStep(less, rest, true);
      assert And(v, less)[1..] == And(v[1..], rest);
    }
  }

  lemma {:induction false} NothingSet(v: Bits)
    requires Value(v) == 0
    ensures Population(v) == 0
  {
    if v != [] {
      NothingSet(v[1..]);
    }
  }

  /** CountBytes counts the set bits. */
  method CountBytes(value: Bits) returns (result: nat)
    ensures result == Population(value)
  {
    var v := value;
    result := 0;
    while Value(v) != 0
      invariant |v| == |value| && result + Population(v) == Population(value)
      decreases Population(v)
    {
      ClearsOne(v);
      v := And(v, Digits(Value(v) - 1, |v|));
      result := result + 1;
    }
    NothingSet(v);
  }

  // ----- addresses -----

  /** The bits of big-endian bytes, lowest first. */
  function Flat(bytes: seq<Byte>): (b: Bits)
    ensures |b| == 8 * |bytes|
  {
    if bytes == [] then [] else Flat(bytes[1..]) + bytes[0]
  }

  lemma {:induction false} FlatAt(bytes: seq<Byte>, k: nat)
    requires k < 8 * |bytes|
    ensures Flat(bytes)[k] == bytes[|bytes| - 1 - k / 8][k % 8]
    decreases |bytes|
  {
    var rest := bytes[1..];
    if k < 8 * |rest| {
      FlatAt(rest, k);
    } else {
      assert k / 8 == |rest| && k % 8 == k - 8 * |rest|;
    }
  }

  /** The mask with `p` leading ones, as a 128-bit number lowest bit first. */
  function MaskBits(p: nat): (b: Bits)
    requires p <= 128
    ensures |b| == 128
  {
    Zeros(128 - p) + Ones(p)
  }

  function HostBits(p: nat): (b: Bits)
    requires p <= 128
    ensures |b| == 128
  {
    Ones(128 - p) + Zeros(p)
  }

  /** subnetMask; a prefix of 128 would write past the address. */
  method SubnetMask(p: nat) returns (r: array<Byte>)
    requires p < 128
    ensures fresh(r) && r.Length == 16 && Flat(r[..]) == MaskBits(p)
  {
    hide CreateMask, Flat, MaskBits;
    r := new Byte[16](_ => Zeros(8));
    r[p / 8] := Not(CreateMask(p % 8));
    var i := 0;
    while i < p / 8
      invariant 0 <= i <= p / 8
      invariant forall j :: 0 <= j < 16 ==> r[j] == if j < i then Ones(8) else if j == p / 8 then Not(CreateMask(p % 8)) else Zeros(8)
    {
      r[i] := Ones(8);
      i := i + 1;
    }
    MaskBytes(r[..], p);
  }

  lemma MaskBytes(bytes: seq<Byte>, p: nat)
    requires p < 128 && |bytes| == 16
    requires forall j :: 0 <= j < 16 ==> bytes[j] == if j < p / 8 then Ones(8) else if j == p / 8 then Not(CreateMask(p % 8)) else Zeros(8)
    ensures Flat(bytes) == MaskBits(p)
  {
    hide CreateMask, Flat;
    forall k: nat | k < 128 ensures Flat(bytes)[k] == MaskBits(p)[k] {
      FlatAt(bytes, k);
      BitOfPrefix(k, p);
    }
  }

  lemma BitOfPrefix(k: nat, p: nat)
    requires k < 128 && p < 128
    ensures 15 - k / 8 < p / 8 ==> k >= 128 - p
    ensures 15 - k / 8 > p / 8 ==> k < 128 - p
    ensures 15 - k / 8 == p / 8 ==> (k >= 128 - p <==> k % 8 >= 8 - p % 8)
  {}

  /** broadcastAddress: the host part is filled with ones. */
  method BroadcastAddress(address: seq<Byte>, p: nat) returns (r: array<Byte>)
    requires p < 128 && |address| == 16
    ensures fresh(r) && r.Length == 16 && Flat(r[..]) == Or(Flat(address), HostBits(p))
  {
    hide CreateMask, Flat, HostBits;
    r := new Byte[16](i requires 0 <= i < 16 => address[i]);
    r[p / 8] := Or(r[p / 8], CreateMask(p % 8));
    var i := p / 8 + 1;
    while i < 16
      invariant p / 8 < i <= 16
      invariant forall j :: 0 <= j < 16 ==>
                  r[j] == if j < p / 8 || i <= j then address[j] else if j == p / 8 then Or(address[j], CreateMask(p % 8)) else Ones(8)
    {
      r[i] := Ones(8);
      i := i + 1;
    }
    HostBytes(address, r[..], p);
  }

  lemma HostBytes(address: seq<Byte>, bytes: seq<Byte>, p: nat)
    requires p < 128 && |address| == |bytes| == 16
    requires forall j :: 0 <= j < 16 ==>
               bytes[j] == if j < p / 8 then address[j] else if j == p / 8 then Or(address[j], CreateMask(p % 8)) else Ones(8)
    ensures Flat(bytes) == Or(Flat(address), HostBits(p))
  {
    hide CreateMask, Flat, HostBits;
    HostBitsAt(p);
    forall k: nat | k < 128 ensures Flat(bytes)[k] == Or(Flat(address), HostBits(p))[k] {
      FlatAt(bytes, k);
      FlatAt(address, k);
      BitOfPrefix(k, p);
    }
  }

  lemma HostBitsAt(p: nat)
    requires p <= 128
    ensures forall k :: 0 <= k < 128 ==> (HostBits(p)[k] <==> k < 128 - p)
  {}

  /** Main result: read as a number, the mask is 2^128 - 2^(128-p). */
  lemma MaskNumber(p: nat)
    requires p <= 128
    ensures Value(MaskBits(p)) == Pow2(128) - Pow2(128 - p)
  {
    hide Pow2, Value;
    ValueAppend(Zeros(128 - p), Ones(p));
    ValueZeros(128 - p);
    ValueOnes(p);
    Pow2Add(128 - p, p);
    Distribute(Pow2(128 - p), Pow2(p));
  }

  lemma Distribute(x: nat, y: nat)
    ensures x * (y - 1) == x * y - x
  {}

  /** Main result: the broadcast address keeps the prefix and is the highest number that does. */
  lemma BroadcastNumber(address: Bits, p: nat)
    requires |address| == 128 && p <= 128
    ensures Value(Or(address, HostBits(p))) == Value(address) / Pow2(128 - p) * Pow2(128 - p) + Pow2(128 - p) - 1
  {
    hide Pow2, Value;
    var m := 128 - p;
    var high := address[m..];
    assert Or(address, HostBits(p)) == Ones(m) + high;
    ValueAppend(Ones(m), high);
    ValueOnes(m);
    assert address == address[..m] + high;
    ValueAppend(address[..m], high);
    Quotient(Value(address[..m]), Pow2(m), Value(high));
  }

  lemma Quotient(low: nat, m: nat, high: nat)
    requires low < m
    ensures (low + m * high) / m == high
  {
    var x := low + m * high;
    var q := x / m;
    assert x == m * q + x % m;
    if q < high {
      Scaled(m, q + 1, high);
    } else if q > high {
      Scaled(m, high + 1, q);
    }
  }

  lemma Scaled(m: nat, a: nat, b: nat)
    requires a <= b
    ensures m * a <= m * b && m * (a - 1) == m * a - m
  {}

  // ----- the length of a mask -----

  lemma {:induction false} PopulationAppend(a: Bits, b: Bits)
    ensures Population(a + b) == Population(a) + Population(b)
  {
    if a == [] {
      assert a + b == b;
    } else {
      assert (a + b)[1..] == a[1..] + b;
      PopulationAppend(a[1..], b);
    }
  }

  lemma {:induction false} PopulationUniform(n: nat)
    ensures Population(Zeros(n)) == 0 && Population(Ones(n)) == n
  {
    if n != 0 {
      assert Zeros(n)[1..] == Zeros(n - 1) && Ones(n)[1..] == Ones(n - 1);
      PopulationUniform(n - 1);
    }
  }

  /** How GetInterfaceAddresses finds the prefix length of a mask. */
  method PrefixLength(mask: seq<Byte>) returns (p: nat)
    ensures p == Population(Flat(mask))
  {
    hide Flat, Population;
    p := 0;
    var i := 0;
    FlatNothing();
    while i < |mask|
      invariant 0 <= i <= |mask| && p == Population(Flat(mask[..i]))
    {
      var count := CountBytes(mask[i]);
      FlatMore(mask[..i], mask[i]);
      PopulationAppend(mask[i], Flat(mask[..i]));
      assert mask[..i + 1] == mask[..i] + [mask[i]];
      p := p + count;
      i := i + 1;
    }
    assert mask[..i] == mask;
  }

  lemma FlatNothing()
    ensures Flat([]) == [] && Population([]) == 0
  {}

  lemma {:induction false} FlatMore(bytes: seq<Byte>, b: Byte)
    ensures Flat(bytes + [b]) == b + Flat(bytes)
  {
    if bytes == [] {
      assert [b][1..] == [];
    } else {
      assert (bytes + [b])[1..] == bytes[1..] + [b];
      FlatMore(bytes[1..], b);
    }
  }

  /** Main result: counting the bits of a mask gives back the prefix it was made from. */
  lemma MaskPopulation(p: nat)
    requires p <= 128
    ensures Population(MaskBits(p)) == p
  {
    hide Population;
    PopulationAppend(Zeros(128 - p), Ones(p));
    PopulationUniform(128 - p);
    PopulationUniform(p);
  }
}
