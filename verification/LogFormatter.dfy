/** The log pattern compiler: a pattern is cut into literals and `%name{format}` items. */
module LogPattern {
  import opened Wrappers

  /** std::isalpha in the C locale. */
  predicate IsAlpha(c: char) {
    'a' <= c <= 'z' || 'A' <= c <= 'Z'
  }

  /** A closing brace outside a format counts as part of the name. */
  predicate NameChar(c: char) {
    IsAlpha(c) || c == '}'
  }

  /** Broken stands for the text put in place of a format that is never closed. */
  datatype Token = Lit(text: string) | Spec(name: string, format: string) | Broken

  datatype Scanned = Scanned(name: string, format: string, next: nat)

  // ----- the meaning of a pattern -----

  function NameEnd(p: string, from: nat): (e: nat)
    requires from <= |p|
    ensures from <= e <= |p|
    ensures forall j :: from <= j < e ==> NameChar(p[j])
    ensures e < |p| ==> !NameChar(p[e])
    decreases |p| - from
  {
    if from < |p| && NameChar(p[from]) then NameEnd(p, from + 1) else from
  }

  function Closing(p: string, from: nat): (e: nat)
    requires from <= |p|
    ensures from <= e <= |p|
    ensures forall j :: from <= j < e ==> p[j] != '}'
    ensures e < |p| ==> p[e] == '}'
    decreases |p| - from
  {
    if from < |p| && p[from] != '}' then Closing(p, from + 1) else from
  }

  lemma NameEndIs(p: string, from: nat, e: nat)
    requires from <= e <= |p| && (forall j :: from <= j < e ==> NameChar(p[j])) && (e < |p| ==> !NameChar(p[e]))
    ensures NameEnd(p, from) == e
  {}

  lemma ClosingIs(p: string, from: nat, e: nat)
    requires from <= e <= |p| && (forall j :: from <= j < e ==> p[j] != '}') && (e < |p| ==> p[e] == '}')
    ensures Closing(p, from) == e
  {}

  /** The item after a '%'; None when its format is not closed. */
  function ScanSpec(p: string, from: nat): (s: Option<Scanned>)
    requires from <= |p|
    ensures s.Some? ==> from <= s.value.next <= |p|
  {
    var e := NameEnd(p, from);
    if e < |p| && p[e] == '{' then
      var q := Closing(p, e + 1);
      if q < |p| then Some(Scanned(p[from..e], p[e + 1..q], q + 1)) else None
    else Some(Scanned(p[from..e], "", e))
  }

  lemma BareItem(p: string, from: nat, e: nat)
    requires from <= e <= |p| && (forall j :: from <= j < e ==> NameChar(p[j])) && (e < |p| ==> !NameChar(p[e]) && p[e] != '{')
    ensures ScanSpec(p, from) == Some(Scanned(p[from..e], "", e))
  {
    NameEndIs(p, from, e);
  }

  lemma FormatItem(p: string, from: nat, e: nat, q: nat)
    requires from <= e < q <= |p| && NameEnd(p, from) == e && p[e] == '{'
    requires (forall j :: e < j < q ==> p[j] != '}') && (q < |p| ==> p[q] == '}')
    ensures ScanSpec(p, from) == if q < |p| then Some(Scanned(p[from..e], p[e + 1..q], q + 1)) else None
  {
    ClosingIs(p, e + 1, q);
  }

  function Flush(text: string): seq<Token> {
    if text == "" then [] else [Lit(text)]
  }

  /** The tokens of `p` from position `i`, after the pending literal text. An unclosed format puts
      Broken in front of the pending text, and only its '%' is consumed. */
  function ParseFrom(p: string, i: nat, text: string): seq<Token>
    requires i <= |p|
    decreases |p| - i
  {
    if i == |p| then Flush(text)
    else if p[i] != '%' then ParseFrom(p, i + 1, text + [p[i]])
    else if i + 1 < |p| && p[i + 1] == '%' then ParseFrom(p, i + 1, text + "%")
    else match ScanSpec(p, i + 1)
      case Some(s) => Flush(text) + [Spec(s.name, s.format)] + ParseFrom(p, s.next, "")
      case None => [Broken] + ParseFrom(p, i + 1, text)
  }

  const NAMES: set<string> := {"m", "p", "r", "c", "t", "n", "d", "f", "l", "T", "F", "N"}

  datatype Item = Text(text: string) | Field(name: string, format: string)

  function ItemOf(t: Token): Item {
    match t
    case Lit(text) => Text(text)
    case Broken => Text("<<pattern_error>>")
    case Spec(name, format) => if name in NAMES then Field(name, format) else Text("<<error_format %" + name + ">>")
  }

  predicate IsError(t: Token) {
    t.Broken? || (t.Spec? && t.name !in NAMES)
  }

  // ----- the code -----

  /** The inner loop of init, from the character after '%'; `status` 1 means an open format. */
  method ScanItem(p: string, i: nat) returns (status: nat, str: string, fmt: string, n: nat)
    requires i < |p|
    ensures match ScanSpec(p, i + 1)
            case Some(s) => status == 0 && str == s.name && fmt == s.format && n == s.next
            case None => status == 1
  {
    hide ScanSpec, NameEnd, Closing;
    n, status, str, fmt := i + 1, 0, "", "";
    var fmtBegin := 0;
    while n < |p|
      invariant i + 1 <= n <= |p| && status <= 1 && fmt == ""
      invariant status == 0 ==> forall j :: i < j < n ==> NameChar(p[j])
      invariant status == 0 ==> str == if n == |p| then p[i + 1..] else ""
      invariant status == 1 ==> i < fmtBegin < n && NameEnd(p, i + 1) == fmtBegin && p[fmtBegin] == '{'
      invariant status == 1 ==> forall j :: fmtBegin < j < n ==> p[j] != '}'
      invariant status == 1 && n < |p| ==> str == p[i + 1..fmtBegin]
    {
      if status == 0 && !IsAlpha(p[n]) && p[n] != '{' && p[n] != '}' {
        str := p[i + 1..n];
        BareItem(p, i + 1, n);
        return;
      }
      if status == 0 {
        if p[n] == '{' {
          str := p[i + 1..n];
          NameEndIs(p, i + 1, n);
          status, fmtBegin := 1, n;
          n := n + 1;
          continue;
        }
      } else if p[n] == '}' {
        fmt := p[fmtBegin + 1..n];
        FormatItem(p, i + 1, fmtBegin, n);
        status := 0;
        n := n + 1;
        return;
      }
      n := n + 1;
      if n == |p| {
        if str == "" {
          str := p[i + 1..];
        }
      }
    }
    if status == 0 {
      BareItem(p, i + 1, n);
    } else {
      FormatItem(p, i + 1, fmtBegin, n);
    }
  }

  function ItemsOf(ts: seq<Token>): (items: seq<Item>)
    ensures |items| == |ts|
  {
    seq(|ts|, k requires 0 <= k < |ts| => ItemOf(ts[k]))
  }

  function Parse(p: string): seq<Token> {
    ParseFrom(p, 0, "")
  }

  lemma ItemCut(before: seq<Token>, text: string, item: Token, rest: seq<Token>)
    requires item.Spec?
    ensures var vec := (if text != "" then before + [Lit(text)] else before) + [item];
            vec + rest == before + (Flush(text) + [item] + rest) && (Broken in vec <==> Broken in before)
  {
    var vec := (if text != "" then before + [Lit(text)] else before) + [item];
    assert vec == before + Flush(text) + [item];
    assert Broken !in Flush(text) + [item];
    assert vec == before + (Flush(text) + [item]);
  }

  lemma BrokenCut(before: seq<Token>, rest: seq<Token>)
    ensures before + [Broken] + rest == before + ([Broken] + rest) && Broken in before + [Broken]
  {
    assert Broken in [Broken];
  }

  class LogFormatter {
    const pattern: string
    var items: seq<Item>
    var error: bool

    constructor (pattern: string)
      ensures this.pattern == pattern && items == ItemsOf(Parse(pattern))
      ensures error <==> exists t :: t in Parse(pattern) && IsError(t)
    {
      this.pattern, items, error := pattern, [], false;
      new;
      Init();
    }

    method Init()
      requires items == [] && !error
      modifies this
      ensures items == ItemsOf(Parse(pattern))
      ensures error <==> exists t :: t in Parse(pattern) && IsError(t)
    {
      var vec := Cut();
      Build(vec);
    }

    /** The first loop of init: the pattern becomes a list of tokens. */
    method Cut() returns (vec: seq<Token>)
      requires !error
      modifies this`error
      ensures vec == Parse(pattern) && (error <==> Broken in vec)
    {
      hide ScanSpec, ParseFrom;
      vec := [];
      var nstr := "";
      var i := 0;
      while i < |pattern|
        invariant 0 <= i <= |pattern| && (error <==> Broken in vec)
        invariant vec + ParseFrom(pattern, i, nstr) == Parse(pattern)
        decreases |pattern| - i
      {
        if pattern[i] != '%' {
          ParseChar(pattern, i, nstr);
          nstr := nstr + [pattern[i]];
          i := i + 1;
          continue;
        }
        if i + 1 < |pattern| && pattern[i + 1] == '%' {
          ParseDoubled(pattern, i, nstr);
          nstr := nstr + "%";
          i := i + 1;
          continue;
        }
        ParseScanned(pattern, i, nstr);
        var status, str, fmt, n := ScanItem(pattern, i);
        ghost var before := vec;
        ghost var was := nstr;
        if status == 0 {
          if nstr != "" {
            vec := vec + [Lit(nstr)];
            nstr := "";
          }
          vec := vec + [Spec(str, fmt)];
          i := n;
          ItemCut(before, was, Spec(str, fmt), ParseFrom(pattern, i, nstr));
        } else {
          error := true;
          vec := vec + [Broken];
          i := i + 1;
          BrokenCut(before, ParseFrom(pattern, i, nstr));
        }
      }
      ParseEnd(pattern, nstr);
      if nstr != "" {
        vec := vec + [Lit(nstr)];
      }
    }

    /** The second loop: names are looked up, unknown ones become an error text. */
    method Build(vec: seq<Token>)
      requires items == [] && (error <==> Broken in vec)
      modifies this
      ensures items == ItemsOf(vec)
      ensures error <==> exists t :: t in vec && IsError(t)
      ensures |items| == |vec| && forall k :: 0 <= k < |vec| ==>
                match vec[k]
                case Lit(text) => items[k] == Text(text)
                case Broken => items[k] == Text("<<pattern_error>>")
                case Spec(name, format) =>
                  items[k] == if name in {"m", "p", "r", "c", "t", "n", "d", "f", "l", "T", "F", "N"} then Field(name, format)
                              else Text("<<error_format %" + name + ">>")
    {
      var k := 0;
      ghost var broken := error;
      while k < |vec|
        invariant 0 <= k <= |vec| && |items| == k && forall j :: 0 <= j < k ==> items[j] == ItemOf(vec[j])
        invariant error <==> broken || exists j :: 0 <= j < k && IsError(vec[j])
      {
        match vec[k] {
          case Lit(text) => items := items + [Text(text)];
          case Broken => items := items + [Text("<<pattern_error>>")];
          case Spec(name, format) =>
            if name !in NAMES {
              items := items + [Text("<<error_format %" + name + ">>")];
              error := true;
            } else {
              items := items + [Field(name, format)];
            }
        }
        k := k + 1;
      }
      assert broken ==> Broken in vec && IsError(Broken);
    }
  }

  // ----- rendering -----

  /** A pattern as its author means it; a format may be absent. */
  datatype Piece = Plain(text: string) | Placeholder(name: string, format: Option<string>)

  function Render(ps: seq<Piece>): string {
    if ps == [] then "" else RenderPiece(ps[0]) + Render(ps[1..])
  }

  function RenderPiece(p: Piece): string {
    match p
    case Plain(text) => text
    case Placeholder(name, None) => "%" + name
    case Placeholder(name, Some(f)) => "%" + (name + "{" + f + "}")
  }

  function TokenOf(p: Piece): Token {
    match p
    case Plain(text) => Lit(text)
    case Placeholder(name, f) => Spec(name, if f.Some? then f.value else "")
  }

  function TokensOf(ps: seq<Piece>): (ts: seq<Token>)
    ensures |ts| == |ps|
  {
    seq(|ps|, k requires 0 <= k < |ps| => TokenOf(ps[k]))
  }

  predicate PieceOk(p: Piece) {
    match p
    case Plain(text) => text != "" && PercentsLast(text)
    case Placeholder(name, f) => name != "" && (forall c :: c in name ==> IsAlpha(c)) && (f.Some? ==> '}' !in f.value)
  }

  predicate PercentsLast(t: string) {
    forall j, k :: 0 <= j < k < |t| && t[j] == '%' ==> t[k] == '%'
  }

  /** Two literals are not adjacent, and the one after a bare placeholder cannot be taken for more of
      its name or for its format. */
  predicate Joins(a: Piece, b: Piece) {
    b.Plain? ==> a.Placeholder? && (a.format == None && b.text != "" ==> !NameChar(b.text[0]) && b.text[0] != '{')
  }

  /** Pieces in an order in which they can be read back: percent signs in a literal only at its end, and
      only when a placeholder follows. */
  predicate WellFormed(ps: seq<Piece>) {
    && (forall k :: 0 <= k < |ps| ==> PieceOk(ps[k]))
    && (forall k :: 0 < k < |ps| ==> Joins(ps[k - 1], ps[k]))
    && (ps != [] && ps[|ps| - 1].Plain? ==> '%' !in ps[|ps| - 1].text)
  }

  /** What the first character of such a text says about the rest. */
  lemma PercentsRest(p: string, i: nat, a: string)
    requires a != "" && i + |a| <= |p| && p[i..i + |a|] == a && PercentsLast(a)
    requires '%' in a ==> i + |a| < |p| && p[i + |a|] == '%'
    ensures p[i] == a[0] && p[i + 1..i + 1 + |a[1..]|] == a[1..] && PercentsLast(a[1..])
    ensures p[i] == '%' ==> i + 1 < |p| && p[i + 1] == '%'
  {
    if a[0] == '%' && |a| > 1 {
      assert p[i + 1] == a[1];
    }
  }

  lemma {:induction false} ReadText(p: string, i: nat, a: string, text: string)
    requires i + |a| <= |p| && p[i..i + |a|] == a && PercentsLast(a)
    requires '%' in a ==> i + |a| < |p| && p[i + |a|] == '%'
    ensures ParseFrom(p, i, text) == ParseFrom(p, i + |a|, text + a)
    decreases |a|
  {
    hide ParseFrom, PercentsLast;
    if a == "" {
      assert text + a == text;
    } else {
      PercentsRest(p, i, a);
      if a[0] == '%' {
        ParseDoubled(p, i, text);
      } else {
        ParseChar(p, i, text);
      }
      ReadText(p, i + 1, a[1..], text + [a[0]]);
      assert text + [a[0]] + a[1..] == text + a;
    }
  }

  lemma FirstOfRest(ps: seq<Piece>, p: string, i: nat)
    requires WellFormed(ps) && ps != [] && ps[0].Placeholder? && ps[0].format == None
    requires i <= |p| && p[i..] == Render(ps[1..])
    ensures i < |p| ==> !NameChar(p[i]) && p[i] != '{'
  {}

  lemma ScanBare(p: string, i: nat, name: string)
    requires i + |name| <= |p| && p[i..i + |name|] == name && forall c :: c in name ==> IsAlpha(c)
    requires i + |name| < |p| ==> !NameChar(p[i + |name|]) && p[i + |name|] != '{'
    ensures ScanSpec(p, i) == Some(Scanned(name, "", i + |name|))
  {}

  lemma ScanFormatted(p: string, i: nat, name: string, f: string)
    requires i <= |p| && |name| + |f| + 2 <= |p| - i && p[i..][..|name| + |f| + 2] == name + "{" + f + "}"
    requires (forall c :: c in name ==> IsAlpha(c)) && '}' !in f
    ensures ScanSpec(p, i) == Some(Scanned(name, f, i + |name| + |f| + 2))
  {
    var e, q := i + |name|, i + |name| + 1 + |f|;
    hide NameEnd, Closing;
    FormattedText(p, i, name, f);
    NameEndAt(p, i, e);
    ClosingAt(p, e + 1, q);
  }

  lemma NameEndAt(p: string, i: nat, e: nat)
    requires i <= e < |p| && p[e] == '{' && forall c :: c in p[i..e] ==> IsAlpha(c)
    ensures NameEnd(p, i) == e
  {}

  lemma ClosingAt(p: string, i: nat, q: nat)
    requires i <= q < |p| && p[q] == '}' && '}' !in p[i..q]
    ensures Closing(p, i) == q
  {}

  lemma FormattedText(p: string, i: nat, name: string, f: string)
    requires i <= |p| && |name| + |f| + 2 <= |p| - i && p[i..][..|name| + |f| + 2] == name + "{" + f + "}"
    ensures var e, q := i + |name|, i + |name| + 1 + |f|;
            p[i..e] == name && p[e] == '{' && p[e + 1..q] == f && p[q] == '}'
  {
    var whole := name + "{" + f + "}";
    var text := p[i..][..|whole|];
    assert forall k :: 0 <= k < |whole| ==> p[i + k] == text[k];
    assert text[..|name|] == name && text[|name|] == '{' && text[|name| + 1..|name| + 1 + |f|] == f && text[|name| + 1 + |f|] == '}';
  }

  lemma PieceAt(p: string, i: nat, ps: seq<Piece>)
    requires ps != [] && i <= |p| && p[i..] == Render(ps)
    ensures i + |RenderPiece(ps[0])| <= |p| && p[i..i + |RenderPiece(ps[0])|] == RenderPiece(ps[0])
    ensures p[i + |RenderPiece(ps[0])|..] == Render(ps[1..])
  {}

  lemma AfterPercent(p: string, i: nat, name: string)
    requires name != "" && i + 1 + |name| <= |p| && p[i..i + 1 + |name|] == "%" + name
    ensures p[i] == '%' && p[i + 1] == name[0] && p[i + 1..i + 1 + |name|] == name
  {}

  lemma ScanBarePiece(p: string, i: nat, ps: seq<Piece>)
    requires ps != [] && WellFormed(ps) && ps[0].Placeholder? && ps[0].format == None && i <= |p| && p[i..] == Render(ps)
    ensures i + 1 < |p| && p[i] == '%' && p[i + 1] != '%'
    ensures ScanSpec(p, i + 1) == Some(Scanned(ps[0].name, "", i + 1 + |ps[0].name|))
  {
    hide ScanSpec, Render, Joins;
    var name := ps[0].name;
    assert PieceOk(ps[0]);
    PieceAt(p, i, ps);
    FirstOfRest(ps, p, i + 1 + |name|);
    AfterPercent(p, i, name);
    assert name[0] in name;
    ScanBare(p, i + 1, name);
  }

  lemma ScanFormattedPiece(p: string, i: nat, ps: seq<Piece>)
    requires ps != [] && WellFormed(ps) && ps[0].Placeholder? && ps[0].format.Some? && i <= |p| && p[i..] == Render(ps)
    ensures i + 1 < |p| && p[i] == '%' && p[i + 1] != '%'
    ensures ScanSpec(p, i + 1) == Some(Scanned(ps[0].name, ps[0].format.value, i + |RenderPiece(ps[0])|))
  {
    hide ScanSpec, Render, Joins;
    var name, f := ps[0].name, ps[0].format.value;
    assert PieceOk(ps[0]);
    PieceAt(p, i, ps);
    var whole := p[i..i + |RenderPiece(ps[0])|];
    var tail := name + "{" + f + "}";
    assert whole[0] == p[i] && whole[1] == p[i + 1] == tail[0] == name[0] && name[0] in name;
    assert whole[1..] == tail && whole[1..] == p[i + 1..][..|tail|];
    ScanFormatted(p, i + 1, name, f);
  }

  lemma ParsePlaceholder(p: string, i: nat, ps: seq<Piece>, text: string)
    requires ps != [] && WellFormed(ps) && ps[0].Placeholder? && i <= |p| && p[i..] == Render(ps)
    ensures i + |RenderPiece(ps[0])| <= |p|
    ensures ParseFrom(p, i, text) == Flush(text) + [TokenOf(ps[0])] + ParseFrom(p, i + |RenderPiece(ps[0])|, "")
  {
    hide ScanSpec, WellFormed, Flush, Render;
    PieceAt(p, i, ps);
    if ps[0].format == None {
      ScanBarePiece(p, i, ps);
    } else {
      ScanFormattedPiece(p, i, ps);
    }
  }

  lemma ItemAfterPercents(ps: seq<Piece>, p: string, i: nat)
    requires WellFormed(ps) && ps != [] && ps[0].Plain? && i <= |p| && p[i..] == Render(ps[1..])
    ensures '%' in ps[0].text ==> i < |p| && p[i] == '%'
    ensures |ps| > 1 ==> ps[1].Placeholder?
  {
    if |ps| > 1 {
      assert Joins(ps[0], ps[1]) && ps[1..][0] == ps[1];
      assert RenderPiece(ps[1])[0] == '%';
      assert Render(ps[1..])[0] == p[i..][0];
    }
  }

  lemma ParsePlain(p: string, i: nat, ps: seq<Piece>)
    requires ps != [] && WellFormed(ps) && ps[0].Plain? && i <= |p| && p[i..] == Render(ps)
    ensures i + |ps[0].text| <= |p|
    ensures ParseFrom(p, i, "") == ParseFrom(p, i + |ps[0].text|, ps[0].text)
    ensures |ps| > 1 ==> ps[1].Placeholder?
    ensures ps[0].text != ""
  {
    hide ParseFrom, Render, Joins, PercentsLast;
    var t := ps[0].text;
    assert PieceOk(ps[0]);
    PieceAt(p, i, ps);
    ItemAfterPercents(ps, p, i + |t|);
    ReadText(p, i, t, "");
    assert "" + t == t;
  }

  lemma {:induction false} ParsesRendered(p: string, i: nat, ps: seq<Piece>, text: string)
    requires WellFormed(ps) && i <= |p| && p[i..] == Render(ps)
    requires text != "" && ps != [] ==> ps[0].Placeholder?
    ensures ParseFrom(p, i, text) == Flush(text) + TokensOf(ps)
    decreases |ps|
  {
    hide ParseFrom, Render, WellFormed, TokensOf;
    if ps == [] {
      ParseNothing(p, i, text);
    } else {
      PieceAt(p, i, ps);
      RestOk(ps);
      if ps[0].Plain? {
        ParsePlain(p, i, ps);
        ParsesRendered(p, i + |ps[0].text|, ps[1..], ps[0].text);
      } else {
        ParsePlaceholder(p, i, ps, text);
        ParsesRendered(p, i + |RenderPiece(ps[0])|, ps[1..], "");
      }
    }
  }

  lemma ParseNothing(p: string, i: nat, text: string)
    requires i <= |p| && p[i..] == Render([])
    ensures ParseFrom(p, i, text) == Flush(text) + TokensOf([])
  {}

  lemma RestOk(ps: seq<Piece>)
    requires WellFormed(ps) && ps != []
    ensures WellFormed(ps[1..]) && TokensOf(ps) == [TokenOf(ps[0])] + TokensOf(ps[1..])
  {}

  /** Main result: compiling a rendered pattern gives back exactly its pieces, and the error flag is
      set exactly when some name is not in the table. */
  lemma RoundTrip(ps: seq<Piece>)
    requires WellFormed(ps)
    ensures Parse(Render(ps)) == TokensOf(ps)
    ensures (exists t :: t in Parse(Render(ps)) && IsError(t)) <==> exists k :: 0 <= k < |ps| && ps[k].Placeholder? && ps[k].name !in NAMES
  {
    hide Render, ParseFrom, WellFormed, IsError, TokensOf;
    assert Render(ps)[0..] == Render(ps);
    ParsesRendered(Render(ps), 0, ps, "");
    ErrorsOf(ps);
  }

  /** Main result, at the items that init produces: the formatter built from the rendering of well-formed
      pieces has, place by place, the literal, the field with its format, or the error text for a name that
      is not one of the twelve; and its error flag is set exactly when there is such a name. */
  method FormatterOf(ps: seq<Piece>) returns (f: LogFormatter)
    requires WellFormed(ps)
    ensures fresh(f) && f.pattern == Render(ps) && |f.items| == |ps|
    ensures forall k :: 0 <= k < |ps| ==>
              match ps[k]
              case Plain(text) => f.items[k] == Text(text)
              case Placeholder(name, format) =>
                f.items[k] == if name in {"m", "p", "r", "c", "t", "n", "d", "f", "l", "T", "F", "N"}
                              then Field(name, if format.Some? then format.value else "")
                              else Text("<<error_format %" + name + ">>")
    ensures f.error <==> exists k :: 0 <= k < |ps| && ps[k].Placeholder?
                           && ps[k].name !in {"m", "p", "r", "c", "t", "n", "d", "f", "l", "T", "F", "N"}
  {
    hide WellFormed, Render, ParseFrom, IsError;
    f := new LogFormatter(Render(ps));
    RoundTrip(ps);
    ItemsMean(ps);
  }

  /** The items of a well-formed pattern, as values. */
  lemma ItemsMean(ps: seq<Piece>)
    requires WellFormed(ps)
    ensures var items := ItemsOf(Parse(Render(ps)));
            && |items| == |ps|
            && forall k :: 0 <= k < |ps| ==>
                 match ps[k]
                 case Plain(text) => items[k] == Text(text)
                 case Placeholder(name, format) =>
                   items[k] == if name in {"m", "p", "r", "c", "t", "n", "d", "f", "l", "T", "F", "N"}
                               then Field(name, if format.Some? then format.value else "")
                               else Text("<<error_format %" + name + ">>")
    ensures (exists t :: t in Parse(Render(ps)) && IsError(t)) <==>
              exists k :: 0 <= k < |ps| && ps[k].Placeholder?
                && ps[k].name !in {"m", "p", "r", "c", "t", "n", "d", "f", "l", "T", "F", "N"}
  {
    hide WellFormed, Render, ParseFrom;
    RoundTrip(ps);
  }

  lemma WordIsOk(name: string)
    requires name in {"m", "p", "r", "c", "t", "n", "d", "f", "l", "T", "F", "N"}
    ensures name != "" && forall c :: c in name ==> IsAlpha(c)
  {}

  lemma PlainIsOk(text: string)
    requires text != "" && '%' !in text
    ensures PieceOk(Plain(text))
  {}

  /** Each of the twelve names compiles with a format, between literals. */
  lemma NamesCompile(text: string, name: string, format: string, rest: string)
    requires name in {"m", "p", "r", "c", "t", "n", "d", "f", "l", "T", "F", "N"}
    requires text != "" && rest != "" && '%' !in text && '%' !in rest && '}' !in format
    ensures Parse(text + "%" + name + "{" + format + "}" + rest) == [Lit(text), Spec(name, format), Lit(rest)]
  {
    hide ParseFrom, TokensOf, PercentsLast, IsAlpha, WellFormed, Render, RenderPiece;
    var ps := [Plain(text), Placeholder(name, Some(format)), Plain(rest)];
    ThreeAreWellFormed(text, name, format, rest);
    ThreeAreRendered(text, name, format, rest);
    RoundTrip(ps);
    TokensAre(ps);
  }

  lemma ThreeAreWellFormed(text: string, name: string, format: string, rest: string)
    requires name in {"m", "p", "r", "c", "t", "n", "d", "f", "l", "T", "F", "N"}
    requires text != "" && rest != "" && '%' !in text && '%' !in rest && '}' !in format
    ensures WellFormed([Plain(text), Placeholder(name, Some(format)), Plain(rest)])
  {
    hide PercentsLast, IsAlpha;
    WordIsOk(name);
    PlainIsOk(text);
    PlainIsOk(rest);
  }

  lemma ThreeAreRendered(text: string, name: string, format: string, rest: string)
    ensures Render([Plain(text), Placeholder(name, Some(format)), Plain(rest)]) == text + "%" + name + "{" + format + "}" + rest
  {
    hide Render;
    RenderThree(Plain(text), Placeholder(name, Some(format)), Plain(rest));
  }

  lemma RenderThree(a: Piece, b: Piece, c: Piece)
    ensures Render([a, b, c]) == RenderPiece(a) + (RenderPiece(b) + RenderPiece(c))
  {
    RenderOne(c);
    assert [a, b, c][1..] == [b, c] && [b, c][1..] == [c];
  }

  /** And each compiles without one. */
  lemma BareNamesCompile(name: string)
    requires name in {"m", "p", "r", "c", "t", "n", "d", "f", "l", "T", "F", "N"}
    ensures Parse("%" + name) == [Spec(name, "")]
  {
    hide ParseFrom, TokensOf, IsAlpha;
    var d := Placeholder(name, None);
    WordIsOk(name);
    RenderOne(d);
    RoundTrip([d]);
    TokensAre([d]);
  }

  lemma TokensAre(ps: seq<Piece>)
    ensures TokensOf(ps) == seq(|ps|, k requires 0 <= k < |ps| => TokenOf(ps[k]))
  {}

  /** A format that is not closed: its percent sign is dropped, an error item comes first, and everything
      else is literal text. */
  lemma UnclosedFormat(text: string, name: string, format: string)
    requires '%' !in text && '}' !in format && '%' !in format && forall c :: c in name ==> IsAlpha(c)
    ensures Parse(text + "%" + name + "{" + format) == [Broken, Lit(text + name + "{" + format)]
  {
    hide ParseFrom, ScanSpec, IsAlpha, PercentsLast;
    var tail := name + ("{" + format);
    var p, i := text + ("%" + tail), |text|;
    assert p == text + "%" + name + "{" + format && text + tail == text + name + "{" + format;
    TailText(name, format);
    SignText(text, tail);
    ReadText(p, 0, text, "");
    OpenItem(p, i, tail, |name|);
    ParseScanned(p, i, text);
    ReadText(p, i + 1, tail, text);
    ParseEnd(p, text + tail);
  }

  lemma TailText(name: string, format: string)
    requires '}' !in format && '%' !in format && forall c :: c in name ==> IsAlpha(c)
    ensures
      var tail := name + ("{" + format);
      && tail != "" && tail[|name|] == '{' && '%' !in tail && PercentsLast(tail)
      && (forall j :: 0 <= j < |name| ==> IsAlpha(tail[j])) && (forall j :: |name| < j < |tail| ==> tail[j] != '}')
  {
    hide PercentsLast;
    var tail := name + ("{" + format);
    assert !IsAlpha('%');
    forall j | |name| < j < |tail| ensures tail[j] != '}' {
      assert tail[j] == format[j - |name| - 1];
    }
    forall j | 0 <= j < |name| ensures IsAlpha(tail[j]) {
      assert tail[j] == name[j];
    }
    NoPercents(tail);
  }

  lemma SignText(text: string, tail: string)
    requires '%' !in text && tail != "" && '%' !in tail
    ensures
      var p, i := text + ("%" + tail), |text|;
      && i + 1 + |tail| == |p| && p[0..i] == text && "" + text == text && PercentsLast(text)
      && p[i] == '%' && p[i + 1] != '%' && p[i + 1..i + 1 + |tail|] == tail
  {
    hide PercentsLast;
    NoPercents(text);
    assert tail[0] in tail;
  }

  lemma NoPercents(t: string)
    requires '%' !in t
    ensures PercentsLast(t)
  {}

  lemma OpenItem(p: string, i: nat, tail: string, e: nat)
    requires i + 1 + |tail| == |p| && p[i + 1..i + 1 + |tail|] == tail && e < |tail| && tail[e] == '{'
    requires (forall j :: 0 <= j < e ==> IsAlpha(tail[j])) && (forall j :: e < j < |tail| ==> tail[j] != '}')
    ensures ScanSpec(p, i + 1) == None
  {
    assert forall j :: i < j < |p| ==> p[j] == tail[j - i - 1];
    NameEndIs(p, i + 1, i + 1 + e);
    FormatItem(p, i + 1, i + 1 + e, |p|);
  }

  lemma ErrorsOf(ps: seq<Piece>)
    ensures (exists t :: t in TokensOf(ps) && IsError(t)) <==> exists k :: 0 <= k < |ps| && ps[k].Placeholder? && ps[k].name !in NAMES
  {
    var ts := TokensOf(ps);
    assert forall k :: 0 <= k < |ps| ==> ts[k] in ts && (IsError(ts[k]) <==> ps[k].Placeholder? && ps[k].name !in NAMES);
  }

  // ----- the converse: every pattern comes from pieces -----

  lemma SpecText(p: string, i: nat) returns (piece: Piece)
    requires i < |p| && p[i] == '%' && ScanSpec(p, i + 1).Some?
    ensures var s := ScanSpec(p, i + 1).value;
            TokenOf(piece) == Spec(s.name, s.format) && p[i..s.next] == RenderPiece(piece)
  {
    hide NameEnd, Closing;
    var e := NameEnd(p, i + 1);
    if e < |p| && p[e] == '{' {
      var q := Closing(p, e + 1);
      piece := Placeholder(p[i + 1..e], Some(p[e + 1..q]));
      TextOfSpec(p, i, e, q);
    } else {
      piece := Placeholder(p[i + 1..e], None);
      assert p[i..e] == "%" + p[i + 1..e];
    }
  }

  lemma TextOfSpec(p: string, i: nat, e: nat, q: nat)
    requires i < e < q < |p| && p[i] == '%' && p[e] == '{' && p[q] == '}'
    ensures p[i..q + 1] == "%" + (p[i + 1..e] + "{" + p[e + 1..q] + "}")
  {}

  lemma RenderAppend(a: seq<Piece>, b: seq<Piece>)
    ensures Render(a + b) == Render(a) + Render(b)
  {
    if a == [] {
      assert a + b == b;
    } else {
      assert (a + b)[1..] == a[1..] + b;
      RenderAppend(a[1..], b);
    }
  }

  lemma RenderOne(x: Piece)
    ensures Render([x]) == RenderPiece(x)
  {}

  lemma TokensAppend(a: seq<Piece>, b: seq<Piece>)
    ensures TokensOf(a + b) == TokensOf(a) + TokensOf(b)
  {}

  function Plains(text: string): (ps: seq<Piece>)
    ensures TokensOf(ps) == Flush(text)
    ensures Render(ps) == text
  {
    if text == "" then [] else RenderOne(Plain(text)); [Plain(text)]
  }

  lemma ParseScanned(p: string, i: nat, text: string)
    requires i < |p| && p[i] == '%' && (i + 1 < |p| ==> p[i + 1] != '%')
    ensures ParseFrom(p, i, text) ==
            match ScanSpec(p, i + 1)
            case Some(s) => Flush(text) + [Spec(s.name, s.format)] + ParseFrom(p, s.next, "")
            case None => [Broken] + ParseFrom(p, i + 1, text)
  {}

  lemma ParseItem(p: string, i: nat, text: string)
    requires i < |p| && p[i] == '%' && (i + 1 < |p| ==> p[i + 1] != '%') && Broken !in ParseFrom(p, i, text)
    ensures ScanSpec(p, i + 1).Some?
    ensures var s := ScanSpec(p, i + 1).value;
            && ParseFrom(p, i, text) == Flush(text) + [Spec(s.name, s.format)] + ParseFrom(p, s.next, "")
            && Broken !in ParseFrom(p, s.next, "")
  {}

  lemma ParseEnd(p: string, text: string)
    ensures ParseFrom(p, |p|, text) == Flush(text)
  {}

  lemma ParseChar(p: string, i: nat, text: string)
    requires i < |p| && p[i] != '%'
    ensures ParseFrom(p, i, text) == ParseFrom(p, i + 1, text + [p[i]])
  {}

  /** Of two percent signs the first is kept, and only that one is consumed. */
  lemma ParseDoubled(p: string, i: nat, text: string)
    requires i + 1 < |p| && p[i] == p[i + 1] == '%'
    ensures ParseFrom(p, i, text) == ParseFrom(p, i + 1, text + "%")
  {}

  lemma {:induction false} PiecesFrom(p: string, i: nat, text: string) returns (ps: seq<Piece>)
    requires i <= |p| && Broken !in ParseFrom(p, i, text)
    ensures Render(ps) == text + p[i..] && TokensOf(ps) == ParseFrom(p, i, text)
    decreases |p| - i
  {
    hide ScanSpec, Render, TokensOf, ParseFrom, Flush, Plains;
    if i == |p| {
      ParseEnd(p, text);
      ps := Plains(text);
    } else if p[i] != '%' {
      ParseChar(p, i, text);
      ps := PiecesFrom(p, i + 1, text + [p[i]]);
      assert text + [p[i]] + p[i + 1..] == text + p[i..];
    } else if i + 1 < |p| && p[i + 1] == '%' {
      ParseDoubled(p, i, text);
      ps := PiecesFrom(p, i + 1, text + "%");
      assert text + "%" + p[i + 1..] == text + p[i..];
    } else {
      ParseItem(p, i, text);
      var next := ScanSpec(p, i + 1).value.next;
      var rest := PiecesFrom(p, next, "");
      var piece := SpecText(p, i);
      ps := Plains(text) + [piece] + rest;
      Pieces(text, piece, rest);
      SplitAt(p, i, next);
    }
  }

  lemma SplitAt(p: string, i: nat, next: nat)
    requires i <= next <= |p|
    ensures p[i..] == p[i..next] + p[next..] && "" + p[next..] == p[next..]
  {}

  lemma Pieces(text: string, piece: Piece, rest: seq<Piece>)
    ensures Render(Plains(text) + [piece] + rest) == text + RenderPiece(piece) + Render(rest)
    ensures TokensOf(Plains(text) + [piece] + rest) == Flush(text) + [TokenOf(piece)] + TokensOf(rest)
  {
    hide Render, TokensOf;
    RenderAppend(Plains(text) + [piece], rest);
    RenderAppend(Plains(text), [piece]);
    RenderOne(piece);
    TokensAppend(Plains(text) + [piece], rest);
    TokensAppend(Plains(text), [piece]);
    TokensOne(piece);
  }

  lemma TokensOne(piece: Piece)
    ensures TokensOf([piece]) == [TokenOf(piece)]
  {}

  /** Nothing of a pattern is lost, unless a format is not closed: the tokens are those of pieces that
      render to the pattern itself, doubled percent signs included. */
  lemma NothingLost(p: string)
    ensures (exists ps :: Render(ps) == p && TokensOf(ps) == Parse(p)) <==> Broken !in Parse(p)
  {
    if Broken !in Parse(p) {
      var ps := PiecesFrom(p, 0, "");
      assert "" + p[0..] == p;
    }
  }

  // ----- the doubled percent sign -----

  /** Percent signs in literals stand only right before an item. */
  predicate PercentsBeforeItems(ts: seq<Token>) {
    forall k :: 0 <= k < |ts| && ts[k].Lit? && '%' in ts[k].text ==>
      PercentsLast(ts[k].text) && k + 1 < |ts| && ts[k + 1].Spec?
  }

  lemma {:induction false} PercentsFrom(p: string, i: nat, text: string)
    requires i <= |p| && Broken !in ParseFrom(p, i, text) && PercentsLast(text)
    requires '%' in text ==> i < |p| && p[i] == '%'
    ensures PercentsBeforeItems(ParseFrom(p, i, text))
    decreases |p| - i
  {
    hide ScanSpec;
    if i == |p| {
    } else if p[i] != '%' {
      PercentsFrom(p, i + 1, text + [p[i]]);
    } else if i + 1 < |p| && p[i + 1] == '%' {
      PercentsFrom(p, i + 1, text + "%");
    } else if ScanSpec(p, i + 1).Some? {
      var s := ScanSpec(p, i + 1).value;
      var rest := ParseFrom(p, s.next, "");
      assert forall t :: t in rest ==> t in ParseFrom(p, i, text);
      PercentsFrom(p, s.next, "");
      ItemsJoin(text, Spec(s.name, s.format), rest);
    }
  }

  lemma ItemsJoin(text: string, t: Token, rest: seq<Token>)
    requires PercentsLast(text) && t.Spec? && PercentsBeforeItems(rest)
    ensures PercentsBeforeItems(Flush(text) + [t] + rest)
  {}

  /** '%%' is not an escape: after the first sign is kept, the second is read again as the start of an
      item. In a pattern without unclosed formats a percent sign therefore never stands before other
      literal text or at the end, and "%%" alone is an error. */
  lemma PercentIsNoEscape(p: string)
    requires Broken !in Parse(p)
    ensures PercentsBeforeItems(Parse(p))
    ensures Parse("%%") == [Lit("%"), Spec("", "")]
  {
    PercentsFrom(p, 0, "");
    assert NameEnd("%%", 2) == 2 && "%%"[2..2] == "";
    assert ParseFrom("%%", 1, "%") == [Lit("%"), Spec("", "")];
    assert "" + "%" == "%";
  }
}
