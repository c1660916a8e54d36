/** Query strings of named parameters, and the parser that reads them back. */
module Query {
  import opened Wrappers
  import opened Strings
  import opened Percent

  // In the order in which they are sent.
  datatype Name =
    | AT | MI | DPI | PT | DPN | ServerReq | Source | IP | IPv6 | UA
    | UAHints | PCID | IDType | Ref | IIQUID | GDPR | USPrivacy | GPP | GPPSID

  function TextOf(n: Name): string {
    match n
    case AT => "at"
    case MI => "mi"
    case DPI => "dpi"
    case PT => "pt"
    case DPN => "dpn"
    case ServerReq => "srvrReq"
    case Source => "source"
    case IP => "ip"
    case IPv6 => "ipv6"
    case UA => "uas"
    case UAHints => "uh"
    case PCID => "pcid"
    case IDType => "idtype"
    case Ref => "ref"
    case IIQUID => "iiquid"
    case GDPR => "gdpr"
    case USPrivacy => "us_privacy"
    case GPP => "gpp"
    case GPPSID => "gpp_sid"
  }

  datatype Param = Param(name: Name, value: Octets)

  function Piece(p: Param): string { TextOf(p.name) + "=" + EncodeParameter(p.value) }

  // Blank values are not sent.
  function Rendered(ps: seq<Param>): string {
    if ps == [] then ""
    else
      var rest := Rendered(ps[1..]);
      if NotBlank(ps[0].value) then "&" + Piece(ps[0]) + rest else rest
  }

  function Kept(ps: seq<Param>): seq<Param> {
    if ps == [] then []
    else
      var rest := Kept(ps[1..]);
      if NotBlank(ps[0].value) then [ps[0]] + rest else rest
  }

  lemma {:induction false} RenderedAppend(ps: seq<Param>, p: Param)
    ensures Rendered(ps + [p]) == Rendered(ps) + LastPiece(p)
    decreases |ps|
  {
    if ps == [] {
      assert ps + [p] == [p] && ([p])[1..] == [];
    } else {
      var q, rest := ps[0], ps[1..];
      assert ps + [p] == [q] + (rest + [p]) && ([q] + (rest + [p]))[1..] == rest + [p];
      RenderedAppend(rest, p);
      Regrouped("&" + Piece(q), Rendered(rest), LastPiece(p));
    }
  }

  function LastPiece(p: Param): string { if NotBlank(p.value) then "&" + Piece(p) else "" }

  lemma Regrouped(a: string, b: string, c: string)
    ensures a + (b + c) == a + b + c
  {
  }

  /* ---------- the parser ---------- */

  // Where `c` first occurs, or the end.
  function Find(s: string, c: char): (n: nat)
    ensures n <= |s| && c !in s[..n] && (n < |s| ==> s[n] == c)
  {
    if s == "" || s[0] == c then 0 else
      var n := Find(s[1..], c) + 1;
      assert s[..n] == [s[0]] + s[1..][..n - 1];
      n
  }

  function Split(s: string, c: char): seq<string>
    decreases |s|
  {
    var n := Find(s, c);
    if n == |s| then [s] else [s[..n]] + Split(s[n + 1..], c)
  }

  // A piece is cut at its first "=", and both halves are decoded.
  function ParsePiece(s: string): Option<(string, string)> {
    var n := Find(s, '=');
    var name, value := PercentDecode(s[..n]), PercentDecode(if n < |s| then s[n + 1..] else "");
    if name.None? || value.None? then None else Some((name.value, value.value))
  }

  function ParseAll(pieces: seq<string>): Option<seq<(string, string)>> {
    if pieces == [] then Some([])
    else
      var first, rest := ParsePiece(pieces[0]), ParseAll(pieces[1..]);
      if first.None? || rest.None? then None else Some([first.value] + rest.value)
  }

  function Parse(query: string): Option<seq<(string, string)>> { ParseAll(Split(query, '&')) }

  lemma {:induction false} FindFirst(s: string, t: string, c: char)
    requires c !in s
    ensures Find(s + [c] + t, c) == |s|
    decreases |s|
  {
    var all := s + [c] + t;
    if s == "" {
      assert all[0] == c;
    } else {
      assert all[1..] == s[1..] + [c] + t;
      FindFirst(s[1..], t, c);
    }
  }

  lemma SplitAt(s: string, t: string, c: char)
    requires c !in s
    ensures Split(s + [c] + t, c) == [s] + Split(t, c)
  {
    var all := s + [c] + t;
    FindFirst(s, t, c);
    assert all[..|s|] == s && all[|s| + 1..] == t;
  }

  lemma SplitNone(s: string, c: char)
    requires c !in s
    ensures Split(s, c) == [s]
  {
  }

  predicate NameOk(name: string) { forall k :: 0 <= k < |name| ==> Unreserved(name[k]) }

  lemma NamesOk(n: Name)
    ensures NameOk(TextOf(n))
  {
  }

  lemma PieceApart(p: Param)
    ensures '&' !in Piece(p) && ParsePiece(Piece(p)) == Some((TextOf(p.name), p.value))
  {
    NamesOk(p.name);
    var value := EncodeParameter(p.value);
    EncodesPercent(p.value);
    PercentPlain(p.value);
    CutAtEquals(TextOf(p.name), value);
    DecodeEncode(p.value);
    PlainDecodes(TextOf(p.name));
  }

  // A name without "=" is cut off whole.
  lemma CutAtEquals(name: string, value: string)
    requires '=' !in name
    ensures var s := name + "=" + value; Find(s, '=') == |name| && s[..|name|] == name && s[|name| + 1..] == value
  {
    FindFirst(name, value, '=');
    assert name + "=" + value == name + ['='] + value;
  }

  function Pairs(ps: seq<Param>): seq<(string, string)> {
    if ps == [] then [] else [(TextOf(ps[0].name), ps[0].value)] + Pairs(ps[1..])
  }

  function Pieces(ps: seq<Param>): seq<string> {
    if ps == [] then [] else [Piece(ps[0])] + Pieces(ps[1..])
  }

  /** The pieces of a query are those of its parameters that are not blank. */
  lemma {:induction false} SplitRendered(s: string, ps: seq<Param>)
    requires '&' !in s
    ensures Split(s + Rendered(ps), '&') == [s] + Pieces(Kept(ps))
    decreases |ps|
  {
    if ps == [] {
      assert s + Rendered(ps) == s;
      SplitNone(s, '&');
    } else if NotBlank(ps[0].value) {
      var first, rest := Piece(ps[0]), Rendered(ps[1..]);
      PieceApart(ps[0]);
      SplitRendered(first, ps[1..]);
      PiecesCons(ps[0], Kept(ps[1..]));
      assert Split(s + Rendered(ps), '&') == [s] + Split(first + rest, '&') by { SplitMore(s, first, rest); }
    } else {
      assert Rendered(ps) == Rendered(ps[1..]) && Kept(ps) == Kept(ps[1..]);
      SplitRendered(s, ps[1..]);
    }
  }

  lemma PiecesCons(p: Param, ps: seq<Param>)
    ensures Pieces([p] + ps) == [Piece(p)] + Pieces(ps)
  {
    assert ([p] + ps)[1..] == ps;
  }

  lemma SplitMore(s: string, first: string, rest: string)
    requires '&' !in s
    ensures Split(s + ("&" + first + rest), '&') == [s] + Split(first + rest, '&')
  {
    Ampersand(s, first, rest);
    SplitAt(s, first + rest, '&');
  }

  lemma Ampersand(s: string, first: string, rest: string)
    ensures s + ("&" + first + rest) == s + ['&'] + (first + rest)
  {
  }

  lemma {:induction false} ParsePieces(ps: seq<Param>)
    ensures ParseAll(Pieces(ps)) == Some(Pairs(ps))
    decreases |ps|
  {
    if ps != [] {
      PieceApart(ps[0]);
      ParsePieces(ps[1..]);
      assert Pieces(ps)[1..] == Pieces(ps[1..]);
    }
  }

  /** Reading back a query gives its first parameter and then exactly the
      others that are not blank, in order and with the values they had. */
  lemma ParseRendered(first: Param, ps: seq<Param>)
    ensures Parse(Piece(first) + Rendered(ps)) == Some([(TextOf(first.name), first.value)] + Pairs(Kept(ps)))
  {
    PieceApart(first);
    SplitRendered(Piece(first), ps);
    ParsePieces(Kept(ps));
    var pieces := [Piece(first)] + Pieces(Kept(ps));
    assert pieces[1..] == Pieces(Kept(ps));
  }

  lemma {:induction false} SplitJoined(s: string, t: string, c: char)
    ensures Split(s + [c] + t, c) == Split(s, c) + Split(t, c)
    decreases |s|
  {
    var n := Find(s, c);
    assert s[..|s|] == s;
    if n == |s| {
      SplitAt(s, t, c);
    } else {
      var head, tail := s[..n], s[n + 1..];
      SplitJoined(tail, t, c);
      SplitHead(s, c, n);
      SplitJoinedHead(head, tail, t, c);
    }
  }

  lemma SplitHead(s: string, c: char, n: nat)
    requires n < |s| && s[n] == c && c !in s[..n]
    ensures s == s[..n] + [c] + s[n + 1..] && Split(s, c) == [s[..n]] + Split(s[n + 1..], c)
  {
    assert s == s[..n] + [c] + s[n + 1..];
    SplitAt(s[..n], s[n + 1..], c);
  }

  lemma SplitJoinedHead(head: string, tail: string, t: string, c: char)
    requires c !in head
    ensures Split(head + [c] + tail + [c] + t, c) == [head] + Split(tail + [c] + t, c)
  {
    Regroup(head, tail, t, c);
    SplitAt(head, tail + [c] + t, c);
  }

  lemma Regroup(head: string, tail: string, t: string, c: char)
    ensures head + [c] + (tail + [c] + t) == head + [c] + tail + [c] + t
  {
  }
}
