/** The text form of IPv6 addresses, and reading it back by the rules of section 2.2 of RFC 4291. */
module Ipv6Text {
  import opened Wrappers

  type Group = g: nat | g < 65536

  // ----- numbers -----

  function DigitChar(v: nat): (c: char)
    requires v < 16
  {
    "0123456789abcdef"[v]
  }

  predicate IsDigit(c: char, base: nat) {
    ('0' <= c <= '9' || (base == 16 && 'a' <= c <= 'f'))
  }

  function DigitValue(c: char, base: nat): (v: nat)
    requires IsDigit(c, base)
    ensures v < 16
  {
    if '0' <= c <= '9' then (c - '0') as nat else (c - 'a') as nat + 10
  }

  /** What an output stream prints for an unsigned number. */
  function Number(v: nat, base: nat): (s: string)
    requires base == 10 || base == 16
    ensures s != ""
  {
    if v < base then [DigitChar(v)] else Number(v / base, base) + [DigitChar(v % base)]
  }

  predicate AllDigits(s: string, base: nat) {
    forall i :: 0 <= i < |s| ==> IsDigit(s[i], base)
  }

  function ReadNumber(s: string, base: nat): nat
    requires AllDigits(s, base)
  {
    if s == "" then 0 else ReadNumber(s[..|s| - 1], base) * base + DigitValue(s[|s| - 1], base)
  }

  lemma DigitReads(v: nat, base: nat)
    requires v < base && (base == 10 || base == 16)
    ensures IsDigit(DigitChar(v), base) && DigitValue(DigitChar(v), base) == v
  {}

  lemma {:induction false} NumberReads(v: nat, base: nat)
    requires base == 10 || base == 16
    ensures AllDigits(Number(v, base), base) && ReadNumber(Number(v, base), base) == v
    decreases v
  {
    hide IsDigit, DigitChar, DigitValue;
    DigitReads(v % base, base);
    if v < base {
      ReadOne(DigitChar(v), base);
    } else {
      NumberReads(v / base, base);
      ReadMore(Number(v / base, base), DigitChar(v % base), base);
      assert v / base * base + v % base == v;
    }
  }

  lemma ReadMore(s: string, c: char, base: nat)
    requires AllDigits(s, base) && IsDigit(c, base)
    ensures AllDigits(s + [c], base) && ReadNumber(s + [c], base) == ReadNumber(s, base) * base + DigitValue(c, base)
  {}

  lemma ReadOne(c: char, base: nat)
    requires IsDigit(c, base)
    ensures AllDigits([c], base) && ReadNumber([c], base) == DigitValue(c, base)
  {}

  /** A group takes at most four hexadecimal digits. */
  lemma GroupIsShort(g: Group)
    ensures |Number(g, 16)| <= 4
  {
    assert |Number(g / 16 / 16 / 16, 16)| == 1;
    assert g / 16 < 16 || |Number(g / 16, 16)| == 1 + |Number(g / 16 / 16, 16)|;
    assert g / 16 / 16 < 16 || |Number(g / 16 / 16, 16)| == 1 + |Number(g / 16 / 16 / 16, 16)|;
  }

  // ----- the text -----

  /** Groups separated by colons. */
  function Join(gs: seq<Group>): (s: string) {
    if gs == [] then ""
    else if |gs| == 1 then Number(gs[0], 16)
    else Join(gs[..|gs| - 1]) + ":" + Number(gs[|gs| - 1], 16)
  }

  function FirstZero(gs: seq<Group>): (z: nat)
    ensures z <= |gs| && (z < |gs| ==> gs[z] == 0)
    ensures forall i :: 0 <= i < z ==> gs[i] != 0
  {
    if gs == [] || gs[0] == 0 then 0 else 1 + FirstZero(gs[1..])
  }

  function RunEnd(gs: seq<Group>, from: nat): (e: nat)
    requires from <= |gs|
    ensures from <= e <= |gs| && (e < |gs| ==> gs[e] != 0)
    ensures forall i :: from <= i < e ==> gs[i] == 0
    decreases |gs| - from
  {
    if from < |gs| && gs[from] == 0 then RunEnd(gs, from + 1) else from
  }

  /** The first run of zero groups, however short, becomes "::". */
  function Shown(gs: seq<Group>): string {
    var z := FirstZero(gs);
    if z == |gs| then Join(gs) else Join(gs[..z]) + "::" + Join(gs[RunEnd(gs, z)..])
  }

  function Text(gs: seq<Group>, port: nat): string {
    "[" + Shown(gs) + "]:" + Number(port, 10)
  }

  lemma FirstZeroIs(gs: seq<Group>, z: nat)
    requires z <= |gs| && (forall i :: 0 <= i < z ==> gs[i] != 0) && (z < |gs| ==> gs[z] == 0)
    ensures FirstZero(gs) == z
  {}

  lemma RunEndIs(gs: seq<Group>, from: nat, e: nat)
    requires from <= e <= |gs| && (forall i :: from <= i < e ==> gs[i] == 0) && (e < |gs| ==> gs[e] != 0)
    ensures RunEnd(gs, from) == e
  {}

  /** The run that is folded is the first and is folded whole; without a zero group nothing is. */
  lemma TextMeans(gs: seq<Group>, port: nat, z: nat, e: nat)
    requires z <= e <= |gs|
    requires (forall i :: 0 <= i < z ==> gs[i] != 0) && (forall i :: z <= i < e ==> gs[i] == 0)
    requires e < |gs| ==> z < e && gs[e] != 0
    ensures Text(gs, port) ==
            "[" + (if z == |gs| then Join(gs) else Join(gs[..z]) + "::" + Join(gs[e..])) + "]:" + Number(port, 10)
  {
    hide Join, Number;
    FirstZeroIs(gs, z);
    RunEndIs(gs, z, e);
  }

  /** Digits are those of lower-case hexadecimal, and no number has a leading zero. */
  lemma {:induction false} NumberText(v: nat, base: nat)
    requires base == 10 || base == 16
    ensures Number(v, base)[0] == '0' ==> v == 0 && Number(v, base) == "0"
    ensures v < base ==> Number(v, base) == ["0123456789abcdef"[v]]
    decreases v
  {
    if v >= base {
      NumberText(v / base, base);
    }
  }

  lemma JoinMore(gs: seq<Group>, g: Group)
    ensures Join(gs + [g]) == if gs == [] then Number(g, 16) else Join(gs) + ":" + Number(g, 16)
  {}

  /** IPv6Address::insert. */
  method Insert(addr: seq<Group>, port: Group) returns (os: string)
    requires |addr| == 8
    ensures os == Text(addr, port)
  {
    hide Number, Join, FirstZero, RunEnd;
    os := "";
    var usedZeros := false;
    ghost var z := FirstZero(addr);
    ghost var e := RunEnd(addr, z);
    JoinNothing();
    var i := 0;
    while i < 8
      invariant 0 <= i <= 8
      invariant usedZeros <==> i > e > z
      invariant i <= z ==> os == Join(addr[..i])
      invariant z < i <= e ==> os == Join(addr[..z])
      invariant i > e > z ==> os == Join(addr[..z]) + "::" + Join(addr[e..i])
    {
      if addr[i] == 0 && !usedZeros {
        i := i + 1;
        continue;
      }
      if i != 0 && addr[i - 1] == 0 && !usedZeros {
        os := os + ":";
        usedZeros := true;
      }
      if i != 0 {
        os := os + ":";
      }
      os := os + Number(addr[i], 16);
      if i < z {
        JoinMore(addr[..i], addr[i]);
        assert addr[..i + 1] == addr[..i] + [addr[i]];
      } else {
        JoinMore(addr[e..i], addr[i]);
        assert addr[e..i + 1] == addr[e..i] + [addr[i]];
      }
      i := i + 1;
    }
    if !usedZeros && addr[7] == 0 {
      os := os + "::";
    }
    assert addr[..8] == addr && addr[e..8] == addr[e..];
    if e == 8 {
      assert addr[e..] == [] && (z < 8 ==> addr[7] == 0);
      assert z == 8 ==> addr[7] != 0;
    }
    assert os == Shown(addr);
    os := "[" + os + "]:" + Number(port, 10);
  }

  lemma JoinNothing()
    ensures Join([]) == ""
  {}

  // ----- reading -----

  function LastColon(s: string): (k: nat)
    ensures k <= |s| && (k < |s| ==> s[k] == ':' && forall i :: k < i < |s| ==> s[i] != ':')
    ensures k == |s| ==> ':' !in s
  {
    if s == "" then 0
    else if s[|s| - 1] == ':' then |s| - 1
    else var k := LastColon(s[..|s| - 1]); if k == |s| - 1 then |s| else k
  }

  /** The pieces between colons. */
  function Pieces(s: string): (ps: seq<string>)
    ensures |ps| > 0
    decreases |s|
  {
    var k := LastColon(s);
    if k == |s| then [s] else Pieces(s[..k]) + [s[k + 1..]]
  }

  predicate IsGroup(s: string) {
    1 <= |s| <= 4 && AllDigits(s, 16)
  }

  function ReadGroups(s: string): Option<seq<nat>> {
    if s == "" then Some([])
    else
      var ps := Pieces(s);
      if forall p :: p in ps ==> IsGroup(p)
      then Some(seq(|ps|, i requires 0 <= i < |ps| => assert ps[i] in ps; ReadNumber(ps[i], 16)))
      else None
  }

  predicate DoubleAt(s: string, i: nat) {
    i + 1 < |s| && s[i] == ':' && s[i + 1] == ':'
  }

  function FindDouble(s: string, from: nat): (k: nat)
    requires from <= |s|
    ensures from <= k <= |s| && (k < |s| ==> DoubleAt(s, k))
    ensures forall i :: from <= i < k ==> !DoubleAt(s, i)
    decreases |s| - from
  {
    if from == |s| || DoubleAt(s, from) then from else FindDouble(s, from + 1)
  }

  function Zeros(n: nat): (z: seq<nat>)
    ensures |z| == n && forall i :: 0 <= i < n ==> z[i] == 0
  {
    seq(n, _ => 0)
  }

  /** Eight groups, or fewer with one "::" standing for one or more groups of zeros. A second "::"
      would leave an empty piece and is refused. */
  function ReadAddress(s: string): Option<seq<nat>> {
    var k := FindDouble(s, 0);
    if k == |s| then
      var g := ReadGroups(s);
      if g.Some? && |g.value| == 8 then g else None
    else
      var l, r := ReadGroups(s[..k]), ReadGroups(s[k + 2..]);
      if l.Some? && r.Some? && |l.value| + |r.value| < 8
      then Some(l.value + Zeros(8 - |l.value| - |r.value|) + r.value) else None
  }

  function IndexOf(s: string, c: char): (k: nat)
    ensures k <= |s| && (k < |s| ==> s[k] == c)
    ensures forall i :: 0 <= i < k ==> s[i] != c
  {
    if s == "" || s[0] == c then 0 else 1 + IndexOf(s[1..], c)
  }

  /** "[address]:port". */
  function Read(text: string): Option<(seq<nat>, nat)> {
    var e := IndexOf(text, ']');
    if |text| > 0 && text[0] == '[' && e + 2 < |text| && text[e + 1] == ':' && AllDigits(text[e + 2..], 10) then
      var gs := ReadAddress(text[1..e]);
      if gs.Some? then Some((gs.value, ReadNumber(text[e + 2..], 10))) else None
    else None
  }

  // ----- the round trip -----

  /** Starts and ends with something other than a colon, and has no two colons in a row. */
  predicate Tidy(s: string) {
    s != "" ==> s[0] != ':' && s[|s| - 1] != ':' && forall i :: 0 <= i < |s| ==> !DoubleAt(s, i)
  }

  predicate Charset(s: string) {
    forall i :: 0 <= i < |s| ==> s[i] == ':' || IsDigit(s[i], 16)
  }

  lemma TidyJoin(a: string, b: string)
    requires Tidy(a) && a != "" && b != "" && ':' !in b
    ensures Tidy(a + ":" + b)
  {
    var s := a + ":" + b;
    assert s[|s| - 1] == b[|b| - 1];
    forall i | 0 <= i < |s| ensures !DoubleAt(s, i) {
      if i + 1 < |s| {
        if i + 1 < |a| {
          assert s[i] == a[i] && s[i + 1] == a[i + 1] && !DoubleAt(a, i);
        } else if i + 1 == |a| {
          assert s[i] == a[|a| - 1];
        } else {
          assert s[i + 1] == b[i - |a|];
        }
      }
    }
  }

  lemma GroupText(g: Group)
    ensures IsGroup(Number(g, 16)) && ':' !in Number(g, 16) && Charset(Number(g, 16)) && Tidy(Number(g, 16))
  {
    NumberReads(g, 16);
    GroupIsShort(g);
  }

  lemma {:induction false} JoinShape(gs: seq<Group>)
    ensures Tidy(Join(gs)) && Charset(Join(gs)) && (Join(gs) == "" <==> gs == [])
    decreases |gs|
  {
    hide Number, IsGroup, Tidy;
    if gs == [] {
      TidyNothing();
    } else {
      var front, g := gs[..|gs| - 1], gs[|gs| - 1];
      JoinShape(front);
      GroupText(g);
      assert gs == front + [g];
      JoinMore(front, g);
      if front != [] {
        TidyJoin(Join(front), Number(g, 16));
      }
    }
  }

  lemma TidyNothing()
    ensures Tidy("")
  {}

  lemma PiecesMore(a: string, b: string)
    requires ':' !in b
    ensures Pieces(b) == [b] && Pieces(a + ":" + b) == Pieces(a) + [b]
  {
    hide Pieces;
    var s := a + ":" + b;
    assert s[|a|] == ':' && forall i :: |a| < i < |s| ==> s[i] == b[i - |a| - 1];
    assert LastColon(s) == |a|;
    assert s[..|a|] == a && s[|a| + 1..] == b;
    PiecesStep(s);
    PiecesStep(b);
  }

  lemma PiecesStep(s: string)
    ensures var k := LastColon(s); Pieces(s) == if k == |s| then [s] else Pieces(s[..k]) + [s[k + 1..]]
  {}

  lemma {:induction false} JoinPieces(gs: seq<Group>)
    requires gs != []
    ensures |Pieces(Join(gs))| == |gs| && forall i :: 0 <= i < |gs| ==> Pieces(Join(gs))[i] == Number(gs[i], 16)
    decreases |gs|
  {
    hide Number, Pieces, Join, IsGroup;
    var front, g := gs[..|gs| - 1], gs[|gs| - 1];
    assert gs == front + [g];
    JoinMore(front, g);
    GroupText(g);
    if front == [] {
      PiecesMore("", Number(g, 16));
    } else {
      JoinPieces(front);
      PiecesMore(Join(front), Number(g, 16));
    }
  }

  lemma GroupsRead(gs: seq<Group>)
    ensures ReadGroups(Join(gs)) == Some(gs)
  {
    hide Pieces, Join, IsGroup, Number, ReadNumber;
    JoinShape(gs);
    if gs != [] {
      JoinPieces(gs);
      var ps := Pieces(Join(gs));
      forall i | 0 <= i < |gs| ensures IsGroup(ps[i]) && AllDigits(ps[i], 16) && ReadNumber(ps[i], 16) == gs[i] {
        GroupText(gs[i]);
        NumberReads(gs[i], 16);
      }
      assert forall p :: p in ps ==> IsGroup(p);
      var r := ReadGroups(Join(gs));
      assert r.Some? && |r.value| == |gs| && forall i :: 0 <= i < |gs| ==> r.value[i] == ReadNumber(ps[i], 16);
      assert r.value == gs;
    }
  }

  lemma FindDoubleIs(s: string, from: nat, k: nat)
    requires from <= k <= |s| && (forall i :: from <= i < k ==> !DoubleAt(s, i)) && (k < |s| ==> DoubleAt(s, k))
    ensures FindDouble(s, from) == k
    decreases |s| - from
  {}

  /** Two tidy texts around "::" have no other double colon. */
  lemma OneDouble(l: string, r: string, i: nat)
    requires Tidy(l) && Tidy(r)
    ensures DoubleAt(l + "::" + r, i) <==> i == |l|
  {
    var s := l + "::" + r;
    if i + 1 < |l| {
      assert s[i] == l[i] && s[i + 1] == l[i + 1];
      assert !DoubleAt(l, i);
    } else if i + 1 == |l| {
      assert s[i] == l[|l| - 1];
    } else if i == |l| + 1 && i + 1 < |s| {
      assert s[i + 1] == r[0];
    } else if |l| + 1 < i < |s| - 1 {
      var j := i - |l| - 2;
      assert s[i] == r[j] && s[i + 1] == r[j + 1];
      assert !DoubleAt(r, j);
    }
  }

  lemma AddressReads(gs: seq<Group>)
    requires |gs| == 8
    ensures ReadAddress(Shown(gs)) == Some(gs)
  {
    hide Join, Tidy, DoubleAt, ReadGroups;
    var z := FirstZero(gs);
    if z == |gs| {
      JoinShape(gs);
      GroupsRead(gs);
      NoDouble(Join(gs));
    } else {
      var e := RunEnd(gs, z);
      var l, r := Join(gs[..z]), Join(gs[e..]);
      JoinShape(gs[..z]);
      JoinShape(gs[e..]);
      var s := l + "::" + r;
      forall i | 0 <= i <= |l| ensures DoubleAt(s, i) <==> i == |l| {
        OneDouble(l, r, i);
      }
      FindDoubleIs(s, 0, |l|);
      assert s[..|l|] == l && s[|l| + 2..] == r;
      GroupsRead(gs[..z]);
      GroupsRead(gs[e..]);
      assert gs[..z] + Zeros(e - z) + gs[e..] == gs;
    }
  }

  lemma NoDouble(s: string)
    requires Tidy(s)
    ensures FindDouble(s, 0) == |s|
  {}

  /** Main result: nothing of an address is lost in its text. */
  lemma TextReads(gs: seq<Group>, port: Group)
    requires |gs| == 8
    ensures Read(Text(gs, port)) == Some((gs, port))
  {
    hide Shown, ReadAddress, Number, ReadNumber;
    var t, n := Shown(gs), Number(port, 10);
    var text := Text(gs, port);
    ShownCharset(gs);
    IndexOfIs(text, ']', |t| + 1);
    assert text[1..|t| + 1] == t && text[|t| + 3..] == n;
    NumberReads(port, 10);
    AddressReads(gs);
  }

  lemma IndexOfIs(s: string, c: char, k: nat)
    requires k < |s| && s[k] == c && forall i :: 0 <= i < k ==> s[i] != c
    ensures IndexOf(s, c) == k
  {}

  lemma ShownCharset(gs: seq<Group>)
    ensures Charset(Shown(gs))
  {
    hide Join;
    JoinShape(gs);
    JoinShape(gs[..FirstZero(gs)]);
    JoinShape(gs[RunEnd(gs, FirstZero(gs))..]);
  }

  /** The address part contains "::" at most once, and it does exactly when some group is zero. */
  lemma DoublesInText(gs: seq<Group>)
    ensures forall i, j :: DoubleAt(Shown(gs), i) && DoubleAt(Shown(gs), j) ==> i == j
    ensures (exists i :: DoubleAt(Shown(gs), i)) <==> 0 in gs
  {
    hide Join, DoubleAt, Tidy;
    var z := FirstZero(gs);
    if z == |gs| {
      JoinShape(gs);
      TidyDouble(Join(gs));
    } else {
      var l, r := Join(gs[..z]), Join(gs[RunEnd(gs, z)..]);
      JoinShape(gs[..z]);
      JoinShape(gs[RunEnd(gs, z)..]);
      forall i: nat ensures DoubleAt(Shown(gs), i) <==> i == |l| {
        OneDouble(l, r, i);
      }
      assert DoubleAt(Shown(gs), |l|) && gs[z] in gs;
    }
  }

  lemma TidyDouble(s: string)
    requires Tidy(s)
    ensures forall i :: !DoubleAt(s, i)
  {}
}
