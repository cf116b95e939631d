/** Bit sequences, lowest bit first, as polynomials over GF(2). */
module Bits {
  type Bits = seq<bool>

  type Byte = b: seq<bool> | |b| == 8 witness [false, false, false, false, false, false, false, false]

  function Zeros(n: nat): (z: Bits)
    ensures |z| == n && forall i :: 0 <= i < n ==> !z[i]
  {
    seq(n, _ => false)
  }

  function Xor(a: Bits, b: Bits): (c: Bits)
    requires |a| == |b|
    ensures |c| == |a| && forall i :: 0 <= i < |c| ==> c[i] == (a[i] != b[i])
  {
    seq(|a|, i requires 0 <= i < |a| => a[i] != b[i])
  }

  /** `b ? p : 0`. */
  function Times(b: bool, p: Bits): (c: Bits)
    ensures |c| == |p| && forall i :: 0 <= i < |c| ==> c[i] == (b && p[i])
  {
    if b then p else Zeros(|p|)
  }

  function Reverse(s: Bits): (r: Bits)
    ensures |r| == |s| && forall i :: 0 <= i < |r| ==> r[i] == s[|s| - 1 - i]
  {
    seq(|s|, i requires 0 <= i < |s| => s[|s| - 1 - i])
  }

  /** Multiplication by x^k that drops what leaves the register. */
  function ShiftUp(r: Bits, k: nat): (s: Bits)
    requires k <= |r|
    ensures |s| == |r|
  {
    Zeros(k) + r[..|r| - k]
  }

  /** The `k` highest bits, highest first. */
  function Top(r: Bits, k: nat): (t: Bits)
    requires k <= |r|
    ensures |t| == k
  {
    Reverse(r[|r| - k..])
  }

  function Pad(r: Bits, width: nat): (s: Bits)
    requires |r| <= width
    ensures |s| == width && s[..|r|] == r
  {
    r + Zeros(width - |r|)
  }

  lemma XorZeros(a: Bits)
    ensures Xor(a, Zeros(|a|)) == a && Xor(Zeros(|a|), a) == a
  {}

  lemma XorSwap(a: Bits, b: Bits, c: Bits)
    requires |a| == |b| == |c|
    ensures Xor(Xor(a, b), c) == Xor(Xor(a, c), b) == Xor(a, Xor(b, c))
  {}

  lemma XorTwice(a: Bits, b: Bits)
    requires |a| == |b|
    ensures Xor(a, Xor(a, b)) == b
  {}

  lemma ShiftUpMore(r: Bits, k: nat)
    requires 0 < k <= |r|
    ensures ShiftUp(ShiftUp(r, 1), k - 1) == ShiftUp(r, k)
  {}

  lemma TopOfShift(r: Bits, k: nat)
    requires 0 < k <= |r|
    ensures Top(r, k) == [r[|r| - 1]] + Top(ShiftUp(r, 1), k - 1)
  {}

  lemma PadWhole(a: Bits)
    ensures Pad(a, |a|) == a
  {}

  lemma ReverseTwice(s: Bits)
    ensures Reverse(Reverse(s)) == s
  {}

  lemma ReverseAppend(a: Bits, b: Bits)
    ensures Reverse(a + b) == Reverse(b) + Reverse(a)
  {}

  /** The number that the bits stand for, as an array index. */
  function Value(b: Bits): (v: nat)
    ensures v < Pow2(|b|)
  {
    if b == [] then 0 else (if b[0] then 1 else 0) + 2 * Value(b[1..])
  }

  function Pow2(k: nat): (p: nat)
    ensures p > 0
  {
    if k == 0 then 1 else 2 * Pow2(k - 1)
  }

  function Digits(v: nat, k: nat): (b: Bits)
    requires v < Pow2(k)
    ensures |b| == k && Value(b) == v
  {
    if k == 0 then [] else [v % 2 == 1] + Digits(v / 2, k - 1)
  }

  lemma {:induction false} DigitsOfValue(b: Bits)
    ensures Digits(Value(b), |b|) == b
  {
    if b != [] {
      DigitsOfValue(b[1..]);
      assert Value(b) / 2 == Value(b[1..]);
    }
  }

  lemma ValueInjective(a: Bits, b: Bits)
    requires |a| == |b| && Value(a) == Value(b)
    ensures a == b
  {}
}

/** Modulo-2 polynomial division, one bit at a time, on registers that hold exactly the remainder. */
module Division {
  import opened Bits

  /** One step on an unaugmented message: the new bit meets the highest bit of the remainder. */
  function Step(r: Bits, p: Bits, b: bool): (s: Bits)
    requires |r| == |p| > 0
    ensures |s| == |r|
  {
    Xor([false] + r[..|r| - 1], Times(r[|r| - 1] != b, p))
  }

  function Steps(r: Bits, p: Bits, bits: Bits): (s: Bits)
    requires |r| == |p| > 0
    ensures |s| == |r|
    decreases |bits|
  {
    if bits == [] then r else Steps(Step(r, p, bits[0]), p, bits[1..])
  }

  /** One step of plain long division: the new bit enters at the bottom. */
  function AugStep(r: Bits, p: Bits, b: bool): (s: Bits)
    requires |r| == |p| > 0
    ensures |s| == |r|
  {
    Xor([b] + r[..|r| - 1], Times(r[|r| - 1], p))
  }

  function AugSteps(r: Bits, p: Bits, bits: Bits): (s: Bits)
    requires |r| == |p| > 0
    ensures |s| == |r|
    decreases |bits|
  {
    if bits == [] then r else AugSteps(AugStep(r, p, bits[0]), p, bits[1..])
  }

  /** The product with x^n + `p` of the polynomial whose coefficients are `q`, highest first. */
  function Product(q: Bits, p: Bits): (m: Bits)
    ensures |m| == |q| + |p|
    decreases |q|
  {
    if q == [] then Zeros(|p|)
    else Xor([false] + Product(q[..|q| - 1], p), Pad(Times(q[|q| - 1], p + [true]), |q| + |p|))
  }

  /** Division is division: the message times x^n is a multiple of the divisor plus the remainder, which
      has fewer bits than the divisor. */
  lemma {:induction false} DivisionIdentity(p: Bits, bits: Bits) returns (q: Bits)
    requires |p| > 0
    ensures |q| == |bits|
    ensures Zeros(|p|) + Reverse(bits) == Xor(Product(q, p), Pad(Steps(Zeros(|p|), p, bits), |q| + |p|))
    decreases |bits|
  {
    hide Steps, Product;
    var n := |p|;
    if bits == [] {
      q := [];
      DivideNothing(p);
    } else {
      var front, b := bits[..|bits| - 1], bits[|bits| - 1];
      var f := DivisionIdentity(p, front);
      var r := Steps(Zeros(n), p, front);
      assert bits == front + [b];
      StepsAppend(Zeros(n), p, front, [b]);
      StepsOne(r, p, b);
      q := f + [r[n - 1] != b];
      assert q[..|q| - 1] == f;
      DivideOneMore(p, front, b, f, r);
    }
  }

  lemma DivideNothing(p: Bits)
    requires |p| > 0
    ensures Zeros(|p|) + Reverse([]) == Xor(Product([], p), Pad(Steps(Zeros(|p|), p, []), |p|))
  {
    XorZeros(Zeros(|p|));
  }

  lemma DivideOneMore(p: Bits, front: Bits, b: bool, f: Bits, r: Bits)
    requires |p| == |r| > 0 && |f| == |front|
    requires Zeros(|p|) + Reverse(front) == Xor(Product(f, p), Pad(r, |f| + |p|))
    ensures
      var q := f + [r[|p| - 1] != b];
      Zeros(|p|) + Reverse(front + [b]) == Xor(Product(q, p), Pad(Step(r, p, b), |q| + |p|))
  {
    hide Product, Step;
    var n, t := |p|, r[|p| - 1] != b;
    var q := f + [t];
    var lhs, now := Zeros(n) + Reverse(front + [b]), Xor(Product(q, p), Pad(Step(r, p, b), |q| + n));
    forall i | 0 <= i < |q| + n ensures lhs[i] == now[i] {
      DividendAt(n, front, b, i);
      ProductAt(f, t, p, i);
      StepAt(r, p, b, i);
      if i > 0 {
        DivisionAt(p, front, f, r, i - 1);
      }
    }
    assert |lhs| == |now|;
  }

  lemma DividendAt(n: nat, front: Bits, b: bool, i: nat)
    requires i < n + |front| + 1
    ensures (Zeros(n) + Reverse(front + [b]))[i]
            == if i == n then b else i > 0 && (Zeros(n) + Reverse(front))[i - 1]
  {}

  lemma ProductAt(f: Bits, t: bool, p: Bits, i: nat)
    requires i < |f| + 1 + |p|
    ensures Product(f + [t], p)[i] == ((i > 0 && Product(f, p)[i - 1]) != (t && i <= |p| && (i == |p| || p[i])))
  {
    var q := f + [t];
    assert q[..|q| - 1] == f;
    hide Product;
    ProductMore(f, t, p);
  }

  lemma ProductMore(f: Bits, t: bool, p: Bits)
    ensures Product(f + [t], p) == Xor([false] + Product(f, p), Pad(Times(t, p + [true]), |f| + 1 + |p|))
  {
    var q := f + [t];
    assert q[..|q| - 1] == f;
  }

  lemma StepAt(r: Bits, p: Bits, b: bool, i: nat)
    requires |r| == |p| > 0
    ensures i < |p| ==> Step(r, p, b)[i] == ((i > 0 && r[i - 1]) != ((r[|p| - 1] != b) && p[i]))
  {}

  lemma DivisionAt(p: Bits, front: Bits, f: Bits, r: Bits, i: nat)
    requires |p| == |r| > 0 && |f| == |front| && i < |f| + |p|
    requires Zeros(|p|) + Reverse(front) == Xor(Product(f, p), Pad(r, |f| + |p|))
    ensures (Zeros(|p|) + Reverse(front))[i] == (Product(f, p)[i] != (i < |p| && r[i]))
  {
    hide Product;
  }

  lemma StepsOne(r: Bits, p: Bits, b: bool)
    requires |r| == |p| > 0
    ensures Steps(r, p, [b]) == Step(r, p, b) && AugSteps(r, p, [b]) == AugStep(r, p, b)
  {}

  lemma {:induction false} StepsAppend(r: Bits, p: Bits, a: Bits, b: Bits)
    requires |r| == |p| > 0
    ensures Steps(r, p, a + b) == Steps(Steps(r, p, a), p, b)
    decreases |a|
  {
    if a == [] {
      assert a + b == b;
    } else {
      assert (a + b)[1..] == a[1..] + b;
      StepsAppend(Step(r, p, a[0]), p, a[1..], b);
    }
  }

  lemma {:induction false} AugStepsAppend(r: Bits, p: Bits, a: Bits, b: Bits)
    requires |r| == |p| > 0
    ensures AugSteps(r, p, a + b) == AugSteps(AugSteps(r, p, a), p, b)
    decreases |a|
  {
    if a == [] {
      assert a + b == b;
    } else {
      assert (a + b)[1..] == a[1..] + b;
      AugStepsAppend(AugStep(r, p, a[0]), p, a[1..], b);
    }
  }

  // ----- linearity -----

  lemma StepLinear(r: Bits, s: Bits, p: Bits, b: bool, c: bool)
    requires |r| == |s| == |p| > 0
    ensures Step(Xor(r, s), p, b != c) == Xor(Step(r, p, b), Step(s, p, c))
  {}

  /** Division steps are linear in register and message together. */
  lemma {:induction false} StepsLinear(r: Bits, s: Bits, p: Bits, a: Bits, b: Bits)
    requires |r| == |s| == |p| > 0 && |a| == |b|
    ensures Steps(Xor(r, s), p, Xor(a, b)) == Xor(Steps(r, p, a), Steps(s, p, b))
    decreases |a|
  {
    hide Step;
    if a != [] {
      StepLinear(r, s, p, a[0], b[0]);
      assert Xor(a, b)[1..] == Xor(a[1..], b[1..]);
      StepsLinear(Step(r, p, a[0]), Step(s, p, b[0]), p, a[1..], b[1..]);
    }
  }

  lemma AugStepLinear(r: Bits, s: Bits, p: Bits, b: bool, c: bool)
    requires |r| == |s| == |p| > 0
    ensures AugStep(Xor(r, s), p, b != c) == Xor(AugStep(r, p, b), AugStep(s, p, c))
  {
    hide AugStep;
    forall i | 0 <= i < |p| ensures AugStep(Xor(r, s), p, b != c)[i] == Xor(AugStep(r, p, b), AugStep(s, p, c))[i] {
      AugStepAt(r, p, b, i);
      AugStepAt(s, p, c, i);
      AugStepAt(Xor(r, s), p, b != c, i);
    }
  }

  lemma AugStepAt(r: Bits, p: Bits, b: bool, i: nat)
    requires |r| == |p| > 0 && i < |p|
    ensures AugStep(r, p, b)[i] == ((if i == 0 then b else r[i - 1]) != (r[|r| - 1] && p[i]))
  {}

  lemma {:induction false} AugStepsLinear(r: Bits, s: Bits, p: Bits, a: Bits, b: Bits)
    requires |r| == |s| == |p| > 0 && |a| == |b|
    ensures AugSteps(Xor(r, s), p, Xor(a, b)) == Xor(AugSteps(r, p, a), AugSteps(s, p, b))
    decreases |a|
  {
    hide AugStep;
    if a != [] {
      AugStepLinear(r, s, p, a[0], b[0]);
      assert Xor(a, b)[1..] == Xor(a[1..], b[1..]);
      AugStepsLinear(AugStep(r, p, a[0]), AugStep(s, p, b[0]), p, a[1..], b[1..]);
    }
  }

  // ----- several bits at once -----

  lemma StepOwnTop(r: Bits, p: Bits)
    requires |r| == |p| > 0
    ensures Step(r, p, r[|r| - 1]) == ShiftUp(r, 1)
  {}

  /** Fed with its own highest bits the register only shifts. */
  lemma {:induction false} SelfCancels(r: Bits, p: Bits, k: nat)
    requires k <= |r| == |p| && |r| > 0
    ensures Steps(r, p, Top(r, k)) == ShiftUp(r, k)
    decreases k
  {
    hide Step, Top, ShiftUp;
    if k == 0 {
      NoShift(r);
    } else {
      TopOfShift(r, k);
      StepOwnTop(r, p);
      var rest := Top(ShiftUp(r, 1), k - 1);
      assert ([r[|r| - 1]] + rest)[1..] == rest;
      SelfCancels(ShiftUp(r, 1), p, k - 1);
      ShiftUpMore(r, k);
    }
  }

  lemma NoShift(r: Bits)
    ensures ShiftUp(r, 0) == r && Top(r, 0) == []
  {}

  /** The fact behind every table-driven CRC: `k` steps are a shift and one correction that depends
      only on the `k` highest bits combined with the `k` new ones. */
  lemma Absorb(r: Bits, p: Bits, bits: Bits)
    requires |bits| <= |r| == |p| && |r| > 0
    ensures Steps(r, p, bits) == Xor(ShiftUp(r, |bits|), Steps(Zeros(|r|), p, Xor(Top(r, |bits|), bits)))
  {
    hide Steps, Top, ShiftUp;
    var t := Top(r, |bits|);
    SelfCancels(r, p, |bits|);
    StepsLinear(r, Zeros(|r|), p, t, Xor(t, bits));
    XorZeros(r);
    XorTwice(t, bits);
  }

  // ----- augmented and unaugmented division -----

  lemma {:induction false} ZeroBits(r: Bits, p: Bits, k: nat)
    requires |r| == |p| > 0
    ensures AugSteps(r, p, Zeros(k)) == Steps(r, p, Zeros(k))
    decreases k
  {
    if k != 0 {
      assert Zeros(k)[1..] == Zeros(k - 1);
      assert AugStep(r, p, false) == Step(r, p, false);
      ZeroBits(Step(r, p, false), p, k - 1);
    }
  }

  /** A register that starts empty is loaded by up to as many bits as it holds. */
  lemma {:induction false} Loads(p: Bits, bits: Bits)
    requires |bits| <= |p| && |p| > 0
    ensures AugSteps(Zeros(|p|), p, bits) == Pad(Reverse(bits), |p|)
    decreases |bits|
  {
    hide AugSteps, AugStep, Pad;
    if bits == [] {
      LoadsNothing(p);
    } else {
      var k := |bits| - 1;
      Loads(p, bits[..k]);
      assert bits == bits[..k] + [bits[k]];
      AugStepsAppend(Zeros(|p|), p, bits[..k], [bits[k]]);
      StepsOne(Pad(Reverse(bits[..k]), |p|), p, bits[k]);
      LoadsOne(p, bits[..k], bits[k]);
    }
  }

  lemma LoadsNothing(p: Bits)
    requires |p| > 0
    ensures AugSteps(Zeros(|p|), p, []) == Pad(Reverse([]), |p|)
  {}

  lemma LoadsOne(p: Bits, front: Bits, b: bool)
    requires |front| < |p|
    ensures AugStep(Pad(Reverse(front), |p|), p, b) == Pad(Reverse(front + [b]), |p|)
  {
    hide AugStep;
    var r := Pad(Reverse(front), |p|);
    TopClear(r, p, b);
    ReverseAppend(front, [b]);
    assert Reverse([b]) == [b];
    PadMore(Reverse(front), |p|, b);
  }

  lemma TopClear(r: Bits, p: Bits, b: bool)
    requires |r| == |p| > 0 && !r[|r| - 1]
    ensures AugStep(r, p, b) == [b] + r[..|r| - 1]
  {}

  lemma PadMore(a: Bits, width: nat, b: bool)
    requires |a| < width
    ensures !Pad(a, width)[width - 1] && [b] + Pad(a, width)[..width - 1] == Pad([b] + a, width)
  {}

  /** Multiplication by x^n: what the n zero bits of an augmented message do. */
  function Raise(r: Bits, p: Bits): (s: Bits)
    requires |r| == |p| > 0
    ensures |s| == |r|
  {
    AugSteps(r, p, Zeros(|p|))
  }

  lemma RaiseXor(r: Bits, s: Bits, p: Bits)
    requires |r| == |s| == |p| > 0
    ensures Raise(Xor(r, s), p) == Xor(Raise(r, p), Raise(s, p))
  {
    AugStepsLinear(r, s, p, Zeros(|p|), Zeros(|p|));
    assert Xor(Zeros(|p|), Zeros(|p|)) == Zeros(|p|);
  }

  /** x^n is congruent to the truncated divisor. */
  lemma RaiseOne(p: Bits)
    requires |p| > 0
    ensures Raise(Pad([true], |p|), p) == p
  {
    hide AugSteps, AugStep;
    var n := |p|;
    assert Reverse([true]) == [true];
    Loads(p, [true]);
    AugStepsAppend(Zeros(n), p, [true], Zeros(n - 1));
    Loads(p, [true] + Zeros(n - 1));
    var top := Pad(Reverse([true] + Zeros(n - 1)), n);
    assert Zeros(n) == Zeros(n - 1) + [false];
    AugStepsAppend(Pad([true], n), p, Zeros(n - 1), [false]);
    StepsOne(top, p, false);
    TopBitStep(top, p);
  }

  lemma TopBitStep(top: Bits, p: Bits)
    requires |p| == |top| > 0 && top[|p| - 1] && forall i :: 0 <= i < |p| - 1 ==> !top[i]
    ensures AugStep(top, p, false) == p
  {}

  lemma RaiseZeroStep(r: Bits, p: Bits)
    requires |r| == |p| > 0
    ensures Raise(AugStep(r, p, false), p) == AugStep(Raise(r, p), p, false)
  {
    hide AugSteps, AugStep;
    var n := |p|;
    AugStepsAppend(r, p, [false], Zeros(n));
    AugStepsAppend(r, p, Zeros(n), [false]);
    assert [false] + Zeros(n) == Zeros(n) + [false];
    StepsOne(r, p, false);
    StepsOne(Raise(r, p), p, false);
  }

  lemma StepParts(r: Bits, p: Bits, b: bool)
    requires |r| == |p| > 0
    ensures AugStep(r, p, b) == Xor(AugStep(r, p, false), Times(b, Pad([true], |p|)))
    ensures Step(r, p, b) == Xor(AugStep(r, p, false), Times(b, p))
  {
    hide Xor, Times;
    var up, top, one := [false] + r[..|r| - 1], r[|r| - 1], Pad([true], |p|);
    assert [b] + r[..|r| - 1] == Xor(up, Times(b, one));
    XorSwap(up, Times(b, one), Times(top, p));
    assert Times(top != b, p) == Xor(Times(top, p), Times(b, p));
    XorSwap(up, Times(top, p), Times(b, p));
  }

  lemma RaiseStep(r: Bits, p: Bits, b: bool)
    requires |r| == |p| > 0
    ensures Raise(AugStep(r, p, b), p) == Step(Raise(r, p), p, b)
  {
    hide AugStep, Step, Raise, Pad;
    StepParts(r, p, b);
    StepParts(Raise(r, p), p, b);
    RaiseXor(AugStep(r, p, false), Times(b, Pad([true], |p|)), p);
    RaiseZeroStep(r, p);
    RaiseOne(p);
    RaiseNothing(p);
  }

  lemma RaiseNothing(p: Bits)
    requires |p| > 0
    ensures Raise(Zeros(|p|), p) == Zeros(|p|)
  {
    Loads(p, Zeros(|p|));
    assert Pad(Reverse(Zeros(|p|)), |p|) == Zeros(|p|);
  }

  /** Unaugmented division keeps, at every point, the augmented remainder times x^n. */
  lemma {:induction false} RaiseSteps(r: Bits, p: Bits, bits: Bits)
    requires |r| == |p| > 0
    ensures Raise(AugSteps(r, p, bits), p) == Steps(Raise(r, p), p, bits)
    decreases |bits|
  {
    hide Step, AugStep, Raise;
    if bits != [] {
      RaiseStep(r, p, bits[0]);
      RaiseSteps(AugStep(r, p, bits[0]), p, bits[1..]);
    }
  }

  /** Appending n bits to an augmented message compares them with the checksum. */
  lemma AugmentedBy(p: Bits, bits: Bits, tail: Bits)
    requires |p| == |tail| > 0
    ensures AugSteps(Zeros(|p|), p, bits + tail) == Xor(Steps(Zeros(|p|), p, bits), Reverse(tail))
  {
    hide AugSteps, Steps, Pad;
    var n := |p|;
    var a := AugSteps(Zeros(n), p, bits);
    AugStepsAppend(Zeros(n), p, bits, tail);
    AugStepsLinear(a, Zeros(n), p, Zeros(n), tail);
    XorZeros(a);
    XorZeros(tail);
    Loads(p, tail);
    PadWhole(Reverse(tail));
    RaiseSteps(Zeros(n), p, bits);
    RaiseNothing(p);
  }
}
