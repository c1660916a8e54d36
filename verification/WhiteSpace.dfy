/** What counts as blank: text of nothing but Unicode white space, in UTF-8. */
module WhiteSpace {
  import opened Strings

  // The code points of white space.
  predicate IsSpace(c: nat) {
    || 9 <= c <= 13 || c == 32 || c == 0x85 || c == 0xA0 || c == 0x1680
    || 0x2000 <= c <= 0x200A || c == 0x2028 || c == 0x2029 || c == 0x202F || c == 0x205F || c == 0x3000
  }

  function Byte(n: nat): char
    requires n < 256
  {
    n as char
  }

  // A code point as bytes (section 3 of RFC 3629).
  function UTF8(c: nat): string
    requires c < 0x110000
  {
    if c < 0x80 then [Byte(c)]
    else if c < 0x800 then [Byte(0xC0 + c / 0x40), Byte(0x80 + c % 0x40)]
    else if c < 0x10000 then [Byte(0xE0 + c / 0x1000), Byte(0x80 + c / 0x40 % 0x40), Byte(0x80 + c % 0x40)]
    else [Byte(0xF0 + c / 0x40000), Byte(0x80 + c / 0x1000 % 0x40), Byte(0x80 + c / 0x40 % 0x40), Byte(0x80 + c % 0x40)]
  }

  /** The prefix that is trimmed is exactly one code point of white space. */
  lemma SpaceExactly(c: nat, rest: string)
    requires c < 0x110000
    ensures SpaceAt(UTF8(c) + rest) == if IsSpace(c) then |UTF8(c)| else 0
  {
    var s := UTF8(c) + rest;
    if c < 0x80 {
      assert s[0] as int == c;
    } else if c < 0x800 {
      assert s[0] as int == 0xC0 + c / 0x40 && s[1] as int == 0x80 + c % 0x40;
    } else if c < 0x10000 {
      assert s[0] as int == 0xE0 + c / 0x1000 && s[1] as int == 0x80 + c / 0x40 % 0x40 && s[2] as int == 0x80 + c % 0x40;
      ThreeBytes(c);
    } else {
      assert s[0] as int >= 0xF0;
    }
  }

  lemma ThreeBytes(c: nat)
    requires 0x800 <= c < 0x10000
    ensures WideSpace(0xE0 + c / 0x1000, 0x80 + c / 0x40 % 0x40, 0x80 + c % 0x40) <==> IsSpace(c)
  {
    var a, b, d := c / 0x1000, c / 0x40 % 0x40, c % 0x40;
    assert c == a * 0x1000 + b * 0x40 + d;
  }

  predicate Spaces(cs: seq<nat>) { forall k :: 0 <= k < |cs| ==> IsSpace(cs[k]) }

  function Encoded(cs: seq<nat>): string
    requires Spaces(cs)
  {
    if cs == [] then "" else UTF8(cs[0]) + Encoded(cs[1..])
  }

  /** White space is blank, however long. */
  lemma {:induction false} SpacesAreBlank(cs: seq<nat>)
    requires Spaces(cs)
    ensures Blank(Encoded(cs))
    decreases |cs|
  {
    if cs != [] {
      SpaceExactly(cs[0], Encoded(cs[1..]));
      SpacesAreBlank(cs[1..]);
      assert Encoded(cs)[|UTF8(cs[0])|..] == Encoded(cs[1..]);
    }
  }

  // The code point that is trimmed.
  lemma SpaceCode(s: string) returns (c: nat)
    requires SpaceAt(s) > 0
    ensures IsSpace(c) && UTF8(c) == s[..SpaceAt(s)]
  {
    var a := s[0] as int;
    if SpaceAt(s) == 1 {
      c := a;
    } else if SpaceAt(s) == 2 {
      c := s[1] as int;
    } else {
      c := (a - 0xE0) * 0x1000 + (s[1] as int - 0x80) * 0x40 + (s[2] as int - 0x80);
      assert c / 0x1000 == a - 0xE0 && c / 0x40 % 0x40 == s[1] as int - 0x80 && c % 0x40 == s[2] as int - 0x80;
      ThreeBytes(c);
    }
  }

  /** And nothing else is. */
  lemma {:induction false} BlankIsSpaces(s: string) returns (cs: seq<nat>)
    requires Blank(s)
    ensures Spaces(cs) && Encoded(cs) == s
    decreases |s|
  {
    cs := [];
    if s != "" {
      var c := SpaceCode(s);
      var rest := BlankIsSpaces(s[SpaceAt(s)..]);
      cs := [c] + rest;
      assert cs[1..] == rest && s == s[..SpaceAt(s)] + s[SpaceAt(s)..];
    }
  }
}
