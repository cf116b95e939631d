/** Percent coding of byte strings, with an output buffer that is created only when it is needed. */
module UrlCodec {
  import opened Wrappers

  type Octet = x: int | 0 <= x < 256

  const SPACE: Octet := 0x20
  const PERCENT: Octet := 0x25
  const PLUS: Octet := 0x2B

  predicate Digit(c: Octet) { 0x30 <= c <= 0x39 }

  predicate Letter(c: Octet) { 0x41 <= c <= 0x5A || 0x61 <= c <= 0x7A }

  /** The table of characters that are not encoded: letters, digits and "-._~" as in section 2.3 of
      RFC 3986, and in addition '='. */
  predicate Unreserved(c: Octet) {
    Letter(c) || Digit(c) || c in {0x2D, 0x2E, 0x5F, 0x7E, 0x3D}
  }

  /** ALPHA / DIGIT / "-" / "." / "_" / "~" */
  predicate RfcUnreserved(c: char) {
    'A' <= c <= 'Z' || 'a' <= c <= 'z' || '0' <= c <= '9' || c in {'-', '.', '_', '~'}
  }

  /** The table departs from section 2.3 of RFC 3986 in '=' and nowhere else. */
  lemma EqualsIsTheException(c: Octet)
    ensures (Unreserved(c) <==> RfcUnreserved(c as char)) <==> c as char != '='
  {}

  /** "0123456789ABCDEF" */
  function HexDigit(v: nat): (c: Octet)
    requires v < 16
  {
    if v < 10 then 0x30 + v else 0x41 + (v - 10)
  }

  predicate IsHex(c: Octet) {
    Digit(c) || 0x41 <= c <= 0x46 || 0x61 <= c <= 0x66
  }

  function HexValue(c: Octet): (v: nat)
    requires IsHex(c)
    ensures v < 16
  {
    if Digit(c) then c - 0x30 else if c <= 0x46 then c - 0x41 + 10 else c - 0x61 + 10
  }

  /** The escape of section 2.1 of RFC 3986. */
  function EncodeOctet(c: Octet, spaceAsPlus: bool): seq<Octet> {
    if Unreserved(c) then [c]
    else if c == SPACE && spaceAsPlus then [PLUS]
    else [PERCENT, HexDigit(c / 16), HexDigit(c % 16)]
  }

  function Encode(s: seq<Octet>, spaceAsPlus: bool): seq<Octet> {
    if s == [] then [] else EncodeOctet(s[0], spaceAsPlus) + Encode(s[1..], spaceAsPlus)
  }

  predicate EscapeAt(s: seq<Octet>, i: nat) {
    i + 2 < |s| && s[i] == PERCENT && IsHex(s[i + 1]) && IsHex(s[i + 2])
  }

  /** A percent sign that does not start an escape stands for itself. */
  function Decode(s: seq<Octet>, spaceAsPlus: bool): seq<Octet> {
    if s == [] then []
    else if s[0] == PLUS && spaceAsPlus then [SPACE] + Decode(s[1..], spaceAsPlus)
    else if EscapeAt(s, 0) then
      [(16 * HexValue(s[1]) + HexValue(s[2])) as Octet] + Decode(s[3..], spaceAsPlus)
    else [s[0]] + Decode(s[1..], spaceAsPlus)
  }

  // ----- the code -----

  /** What has been produced: the buffer if there is one, otherwise the input as far as it was read. */
  function Output(ss: Option<seq<Octet>>, s: seq<Octet>, i: nat): seq<Octet>
    requires i <= |s|
  {
    if ss.Some? then ss.value else s[..i]
  }

  lemma {:induction false} EncodeAppend(a: seq<Octet>, b: seq<Octet>, f: bool)
    ensures Encode(a + b, f) == Encode(a, f) + Encode(b, f)
  {
    if a == [] {
      assert a + b == b;
    } else {
      assert (a + b)[1..] == a[1..] + b;
      EncodeAppend(a[1..], b, f);
    }
  }

  lemma EncodeNext(s: seq<Octet>, i: nat, f: bool)
    requires i < |s|
    ensures Encode(s[..i + 1], f) == Encode(s[..i], f) + EncodeOctet(s[i], f)
  {
    assert s[..i + 1] == s[..i] + [s[i]];
    EncodeAppend(s[..i], [s[i]], f);
    assert [s[i]][1..] == [];
  }

  method UrlEncode(s: seq<Octet>, spaceAsPlus: bool) returns (r: seq<Octet>)
    ensures r == Encode(s, spaceAsPlus)
  {
    hide Encode, EncodeOctet, Unreserved, HexDigit;
    var ss: Option<seq<Octet>> := None;
    var i := 0;
    EncodeNothing(spaceAsPlus);
    while i < |s|
      invariant 0 <= i <= |s| && Output(ss, s, i) == Encode(s[..i], spaceAsPlus)
    {
      EncodeNext(s, i, spaceAsPlus);
      OctetCases(s[i], spaceAsPlus);
      ghost var sofar := Output(ss, s, i);
      if !Unreserved(s[i]) {
        if ss == None {
          ss := Some(s[..i]);
        }
        if s[i] == SPACE && spaceAsPlus {
          ss := Some(ss.value + [PLUS]);
        } else {
          ss := Some(ss.value + [PERCENT] + [HexDigit(s[i] / 16)] + [HexDigit(s[i] % 16)]);
          assert ss.value == sofar + [PERCENT, HexDigit(s[i] / 16), HexDigit(s[i] % 16)];
        }
      } else if ss.Some? {
        ss := Some(ss.value + [s[i]]);
      }
      assert s[..i + 1] == s[..i] + [s[i]];
      i := i + 1;
    }
    assert s[..i] == s;
    return if ss == None then s else ss.value;
  }

  lemma EncodeNothing(f: bool)
    ensures Encode([], f) == []
  {}

  lemma OctetCases(c: Octet, f: bool)
    ensures EncodeOctet(c, f) ==
            if Unreserved(c) then [c] else if c == SPACE && f then [PLUS] else [PERCENT, HexDigit(c / 16), HexDigit(c % 16)]
  {}

  method UrlDecode(s: seq<Octet>, spaceAsPlus: bool) returns (r: seq<Octet>)
    ensures r == Decode(s, spaceAsPlus)
  {
    hide Decode, HexValue, IsHex;
    var ss: Option<seq<Octet>> := None;
    var i := 0;
    assert s[0..] == s;
    while i < |s|
      invariant 0 <= i <= |s|
      invariant Output(ss, s, i) + Decode(s[i..], spaceAsPlus) == Decode(s, spaceAsPlus)
    {
      DecodeNext(s, i, spaceAsPlus);
      ghost var sofar := Output(ss, s, i);
      if s[i] == PLUS && spaceAsPlus {
        if ss == None {
          ss := Some(s[..i]);
        }
        ss := Some(ss.value + [SPACE]);
        Regroup(sofar, [SPACE], Decode(s[i + 1..], spaceAsPlus));
        i := i + 1;
      } else if s[i] == PERCENT && i + 2 < |s| && IsHex(s[i + 1]) && IsHex(s[i + 2]) {
        if ss == None {
          ss := Some(s[..i]);
        }
        var c: Octet := 16 * HexValue(s[i + 1]) + HexValue(s[i + 2]);
        ss := Some(ss.value + [c]);
        Regroup(sofar, [c], Decode(s[i + 3..], spaceAsPlus));
        i := i + 3;
      } else {
        if ss.Some? {
          ss := Some(ss.value + [s[i]]);
        }
        assert s[..i + 1] == s[..i] + [s[i]];
        Regroup(sofar, [s[i]], Decode(s[i + 1..], spaceAsPlus));
        i := i + 1;
      }
    }
    DecodeNothing(spaceAsPlus);
    assert s[..i] == s && s[i..] == [];
    return if ss == None then s else ss.value;
  }

  lemma Regroup(a: seq<Octet>, b: seq<Octet>, c: seq<Octet>)
    ensures (a + b) + c == a + (b + c)
  {}

  lemma DecodeNothing(f: bool)
    ensures Decode([], f) == []
  {}

  lemma DecodeNext(s: seq<Octet>, i: nat, f: bool)
    requires i < |s|
    ensures Decode(s[i..], f) ==
            if s[i] == PLUS && f then [SPACE] + Decode(s[i + 1..], f)
            else if EscapeAt(s, i) then [(16 * HexValue(s[i + 1]) + HexValue(s[i + 2])) as Octet] + Decode(s[i + 3..], f)
            else [s[i]] + Decode(s[i + 1..], f)
  {}

  // ----- the two codings by their characters -----

  predicate HexChar(c: char) {
    '0' <= c <= '9' || 'A' <= c <= 'F' || 'a' <= c <= 'f'
  }

  /** The hexadecimal digits of both cases, and nothing else, are read, each with its value. */
  lemma HexMeans(c: Octet)
    ensures IsHex(c) <==> HexChar(c as char)
    ensures forall v :: 0 <= v < 16 && c as char == "0123456789ABCDEF"[v] ==> IsHex(c) && HexValue(c) == v
    ensures forall v :: 0 <= v < 16 && c as char == "0123456789abcdef"[v] ==> IsHex(c) && HexValue(c) == v
  {}

  /** An escape with digits of either case stands for its octet. */
  lemma EscapeReads(a: nat, b: nat, lowerA: bool, lowerB: bool, rest: seq<Octet>, f: bool)
    requires a < 16 && b < 16
    ensures
      var x := if lowerA then "0123456789abcdef"[a] else "0123456789ABCDEF"[a];
      var y := if lowerB then "0123456789abcdef"[b] else "0123456789ABCDEF"[b];
      && x as int < 256 && y as int < 256
      && Decode([0x25, x as int, y as int] + rest, f) == [(16 * a + b) as Octet] + Decode(rest, f)
  {
    hide IsHex, HexValue;
    var x := if lowerA then "0123456789abcdef"[a] else "0123456789ABCDEF"[a];
    var y := if lowerB then "0123456789abcdef"[b] else "0123456789ABCDEF"[b];
    HexMeans(x as int);
    HexMeans(y as int);
    var s: seq<Octet> := [0x25, x as int, y as int] + rest;
    assert s[3..] == rest && EscapeAt(s, 0);
  }

  /** Everything else stands for itself, except a plus that stands for a space. */
  lemma LiteralReads(c: Octet, rest: seq<Octet>, f: bool)
    requires c as char == '%' ==> |rest| < 2 || !HexChar(rest[0] as char) || !HexChar(rest[1] as char)
    ensures Decode([c] + rest, f) == [if c as char == '+' && f then 0x20 else c] + Decode(rest, f)
  {
    hide IsHex, HexValue;
    var s := [c] + rest;
    assert s[1..] == rest;
    if |rest| >= 2 {
      HexMeans(rest[0]);
      HexMeans(rest[1]);
    }
  }

  /** What the encoder writes for a character: unreserved ones and '=' as they are, a space as a plus if that
      was asked for, and everything else as an escape with capital digits. */
  lemma EncodeWrites(c: Octet, rest: seq<Octet>, f: bool)
    ensures
      Encode([c] + rest, f) ==
        (if RfcUnreserved(c as char) || c as char == '=' then [c]
         else if c as char == ' ' && f then ['+' as int as Octet]
         else ['%' as int as Octet, "0123456789ABCDEF"[c / 16] as int as Octet, "0123456789ABCDEF"[c % 16] as int as Octet])
        + Encode(rest, f)
  {
    assert ([c] + rest)[1..] == rest;
    EqualsIsTheException(c);
  }

  // ----- round trips -----

  lemma HexRoundTrip(v: nat)
    requires v < 16
    ensures IsHex(HexDigit(v)) && HexValue(HexDigit(v)) == v
  {}

  /** Decoding with either flag undoes encoding of one octet, except that a plus made from a space is
      only read back by the flag that made it. */
  lemma DecodeOctet(c: Octet, rest: seq<Octet>, f: bool, g: bool)
    requires f ==> g || c != SPACE
    ensures Decode(EncodeOctet(c, f) + rest, g) == [c] + Decode(rest, g)
  {
    var e := EncodeOctet(c, f);
    var whole := e + rest;
    assert whole[|e|..] == rest;
    if |e| == 3 {
      HexRoundTrip(c / 16);
      HexRoundTrip(c % 16);
      assert whole[0] == PERCENT && whole[1] == e[1] && whole[2] == e[2];
      assert EscapeAt(whole, 0);
    } else {
      assert whole[0] == e[0] && !EscapeAt(whole, 0);
    }
  }

  /** Main result: decoding gives back what was encoded whenever the flag of the decoder is that of
      the encoder, whenever no plus was asked for, and otherwise exactly when there was no space. */
  lemma {:induction false} RoundTrip(s: seq<Octet>, f: bool, g: bool)
    ensures Decode(Encode(s, f), g) == s <==> (f ==> g || SPACE !in s)
  {
    if f && !g {
      PlusStays(s);
      if SPACE in s {
        var i :| 0 <= i < |s| && s[i] == SPACE;
        assert Pluses(s)[i] == PLUS;
      } else {
        assert Pluses(s) == s;
      }
    } else {
      SameFlag(s, f, g);
    }
  }

  lemma {:induction false} SameFlag(s: seq<Octet>, f: bool, g: bool)
    requires f ==> g
    ensures Decode(Encode(s, f), g) == s
  {
    if s != [] {
      SameFlag(s[1..], f, g);
      DecodeOctet(s[0], Encode(s[1..], f), f, g);
    }
  }

  function Pluses(s: seq<Octet>): (r: seq<Octet>)
    ensures |r| == |s| && forall i :: 0 <= i < |r| ==> r[i] == if s[i] == SPACE then PLUS else s[i]
  {
    seq(|s|, i requires 0 <= i < |s| => if s[i] == SPACE then PLUS else s[i])
  }

  /** Without the flag the decoder leaves the pluses that stand for spaces. */
  lemma {:induction false} PlusStays(s: seq<Octet>)
    ensures Decode(Encode(s, true), false) == Pluses(s)
  {
    if s == [] {
    } else {
      PlusStays(s[1..]);
      var rest := Encode(s[1..], true);
      assert Pluses(s) == [Pluses(s)[0]] + Pluses(s[1..]);
      if s[0] == SPACE {
        assert ([PLUS] + rest)[1..] == rest;
      } else {
        DecodeOctet(s[0], rest, true, false);
      }
    }
  }

  /** Encoding never shortens, and at most triples, the string; it is the identity exactly on strings
      of unreserved characters; its output needs no further encoding except for its escapes. */
  lemma {:induction false} EncodeShape(s: seq<Octet>, f: bool)
    ensures |s| <= |Encode(s, f)| <= 3 * |s|
    ensures Encode(s, f) == s <==> forall i :: 0 <= i < |s| ==> Unreserved(s[i])
    ensures forall i :: 0 <= i < |Encode(s, f)| ==>
              Unreserved(Encode(s, f)[i]) || Encode(s, f)[i] == PERCENT || (f && Encode(s, f)[i] == PLUS)
  {
    if s != [] {
      EncodeShape(s[1..], f);
      var e, rest := EncodeOctet(s[0], f), Encode(s[1..], f);
      if Unreserved(s[0]) {
        assert Encode(s, f) == s <==> rest == s[1..] by {
          assert s == [s[0]] + s[1..];
          assert ([s[0]] + rest)[1..] == rest;
        }
      } else {
        assert Encode(s, f)[0] == e[0] && (|e| == 1 ==> e[0] != s[0]);
      }
    }
  }

  /** Decoding never lengthens. */
  lemma {:induction false} DecodeShrinks(s: seq<Octet>, f: bool)
    ensures |Decode(s, f)| <= |s|
  {
    if s != [] {
      DecodeShrinks(s[1..], f);
      if EscapeAt(s, 0) {
        DecodeShrinks(s[3..], f);
      }
    }
  }
}
