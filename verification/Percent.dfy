/** Percent-encoding of query values, and its inverse (sections 2.1 and 2.3 of
    RFC 3986). */
module Percent {
  import opened Wrappers
  import opened Strings

  predicate Unreserved(c: char) {
    'A' <= c <= 'Z' || 'a' <= c <= 'z' || '0' <= c <= '9' || c == '-' || c == '_' || c == '.' || c == '~'
  }

  // An upper-case hexadecimal digit.
  function HexDigit(n: nat): char
    requires n < 16
  {
    if n < 10 then '0' + n as char else 'A' + (n - 10) as char
  }

  function HexValue(c: char): Option<nat> {
    if '0' <= c <= '9' then Some(c as int - '0' as int)
    else if 'A' <= c <= 'F' then Some(c as int - 'A' as int + 10)
    else if 'a' <= c <= 'f' then Some(c as int - 'a' as int + 10)
    else None
  }

  function Triplet(c: char): string
    requires c as int < 256
  {
    ['%', HexDigit(c as int / 16), HexDigit(c as int % 16)]
  }

  /* ---------- the source's encoder ---------- */

  // url.QueryEscape: a space becomes a plus.
  function QueryEscape(s: Octets): string {
    if s == "" then ""
    else (if Unreserved(s[0]) then [s[0]] else if s[0] == ' ' then "+" else Triplet(s[0])) + QueryEscape(s[1..])
  }

  function ReplacePlus(s: string): string {
    if s == "" then "" else (if s[0] == '+' then "%20" else [s[0]]) + ReplacePlus(s[1..])
  }

  function EncodeParameter(s: Octets): string { ReplacePlus(QueryEscape(s)) }

  /* ---------- the reference ---------- */

  // Every byte that is not unreserved is written as a triplet.
  function PercentEncode(s: Octets): string {
    if s == "" then "" else (if Unreserved(s[0]) then [s[0]] else Triplet(s[0])) + PercentEncode(s[1..])
  }

  // Triplets stand for their bytes and every other character for itself.
  function PercentDecode(s: string): Option<string> {
    if s == "" then Some("")
    else if s[0] != '%' then
      var rest := PercentDecode(s[1..]);
      if rest.None? then None else Some([s[0]] + rest.value)
    else if |s| < 3 || HexValue(s[1]).None? || HexValue(s[2]).None? then None
    else
      var rest := PercentDecode(s[3..]);
      if rest.None? then None else Some([(HexValue(s[1]).value * 16 + HexValue(s[2]).value) as char] + rest.value)
  }

  lemma {:induction false} ReplacePlusAppend(s: string, t: string)
    ensures ReplacePlus(s + t) == ReplacePlus(s) + ReplacePlus(t)
    decreases |s|
  {
    if s == "" {
      assert s + t == t;
    } else {
      assert (s + t)[1..] == s[1..] + t;
      ReplacePlusAppend(s[1..], t);
    }
  }

  lemma HexRoundTrip(n: nat)
    requires n < 16
    ensures HexValue(HexDigit(n)) == Some(n) && Unreserved(HexDigit(n))
  {
  }

  lemma {:induction false} ReplaceNothing(s: string)
    requires '+' !in s
    ensures ReplacePlus(s) == s
    decreases |s|
  {
    if s != "" {
      ReplaceNothing(s[1..]);
      assert [s[0]] + s[1..] == s;
    }
  }

  /** Escaping and then rewriting plus signs is percent-encoding: a plus of the
      value itself is already escaped, and so is kept apart from a space. */
  lemma {:induction false} EncodesPercent(s: Octets)
    ensures EncodeParameter(s) == PercentEncode(s)
    decreases |s|
  {
    if s != "" {
      var rest: Octets := s[1..];
      EncodesPercent(rest);
      if Unreserved(s[0]) {
        ReplacePlusAppend([s[0]], QueryEscape(rest));
      } else if s[0] == ' ' {
        ReplacePlusAppend("+", QueryEscape(rest));
        assert Triplet(' ') == "%20";
      } else {
        ReplacePlusAppend(Triplet(s[0]), QueryEscape(rest));
        HexRoundTrip(s[0] as int / 16);
        HexRoundTrip(s[0] as int % 16);
        ReplaceNothing(Triplet(s[0]));
      }
    }
  }

  predicate Plain(s: string) { forall k :: 0 <= k < |s| ==> Unreserved(s[k]) || s[k] == '%' }

  lemma {:induction false} PercentPlain(s: Octets)
    ensures Plain(PercentEncode(s))
    decreases |s|
  {
    if s != "" {
      var rest: Octets := s[1..];
      PercentPlain(rest);
      HexRoundTrip(s[0] as int / 16);
      HexRoundTrip(s[0] as int % 16);
    }
  }

  lemma {:induction false} PercentRoundTrip(s: Octets)
    ensures PercentDecode(PercentEncode(s)) == Some(s)
    decreases |s|
  {
    if s != "" {
      var rest: Octets := s[1..];
      PercentRoundTrip(rest);
      var all, tail := PercentEncode(s), PercentEncode(rest);
      if Unreserved(s[0]) {
        assert all[0] == s[0] && all[1..] == tail;
      } else {
        var c := s[0] as int;
        HexRoundTrip(c / 16);
        HexRoundTrip(c % 16);
        assert all[0] == '%' && all[1] == HexDigit(c / 16) && all[2] == HexDigit(c % 16) && all[3..] == tail;
        assert (c / 16 * 16 + c % 16) as char == s[0];
      }
      assert [s[0]] + rest == s;
    }
  }

  /** A decoder gives back every value that the source encodes. */
  lemma DecodeEncode(s: Octets)
    ensures PercentDecode(EncodeParameter(s)) == Some(s)
  {
    EncodesPercent(s);
    PercentRoundTrip(s);
  }

  /** Encoded values hold unreserved characters and percent signs only: none of
      "&", "=", "+", "#" or a space. */
  lemma EncodedPlain(s: Octets, k: nat)
    requires k < |EncodeParameter(s)|
    ensures var c := EncodeParameter(s)[k]; (Unreserved(c) || c == '%') && c !in "&=+# ?"
  {
    EncodesPercent(s);
    PercentPlain(s);
  }

  /** One byte after the other is encoded: a letter, a digit or one of "-_.~" as
      itself, any other as a percent sign and two upper-case hexadecimal digits. */
  lemma EncodesEachByte(c: char, rest: Octets)
    requires c as int < 256
    ensures EncodeParameter([c] + rest) == EncodeParameter([c]) + EncodeParameter(rest)
    ensures EncodeParameter([c]) ==
      if 'A' <= c <= 'Z' || 'a' <= c <= 'z' || '0' <= c <= '9' || c in "-_.~" then [c]
      else ['%', "0123456789ABCDEF"[c as int / 16], "0123456789ABCDEF"[c as int % 16]]
  {
    EncodesPercent([c] + rest);
    EncodesPercent([c]);
    EncodesPercent(rest);
    assert ([c] + rest)[1..] == rest;
    EncodesOne(c);
  }

  lemma EncodesOne(c: char)
    requires c as int < 256
    ensures PercentEncode([c]) ==
      if 'A' <= c <= 'Z' || 'a' <= c <= 'z' || '0' <= c <= '9' || c in "-_.~" then [c]
      else ['%', "0123456789ABCDEF"[c as int / 16], "0123456789ABCDEF"[c as int % 16]]
  {
    assert [c][1..] == "" && PercentEncode("") == "";
    HexLetters(c as int / 16);
    HexLetters(c as int % 16);
  }

  lemma HexLetters(n: nat)
    requires n < 16
    ensures HexDigit(n) == "0123456789ABCDEF"[n]
  {
  }

  lemma EncodeInjective(s: Octets, t: Octets)
    requires EncodeParameter(s) == EncodeParameter(t)
    ensures s == t
  {
    DecodeEncode(s);
    DecodeEncode(t);
  }

  // A string of unreserved characters is its own encoding.
  lemma {:induction false} PlainDecodes(s: string)
    requires forall k :: 0 <= k < |s| ==> Unreserved(s[k])
    ensures PercentDecode(s) == Some(s)
    decreases |s|
  {
    if s != "" {
      PlainDecodes(s[1..]);
      assert [s[0]] + s[1..] == s;
    }
  }
}
