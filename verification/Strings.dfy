/** Strings as the source has them, sequences of bytes: each character stands
    for one byte. */
module Strings {
  type Octets = s: string | IsOctets(s) witness ""

  predicate IsOctets(s: string) { forall k :: 0 <= k < |s| ==> s[k] as int < 256 }

  // The case and user-agent functions that the source calls, whatever they compute.
  datatype Text = Text(lower: Octets -> Octets, upper: Octets -> Octets, userAgent: Octets -> Octets)

  // The length of the white space that `s` starts with, as Unicode has it in
  // UTF-8: of one to three bytes, or none.
  function SpaceAt(s: string): (n: nat)
    ensures n <= |s|
  {
    if s == "" then 0
    else
      var a := s[0] as int;
      if 9 <= a <= 13 || a == 32 then 1
      else if |s| >= 2 && a == 0xC2 && (s[1] as int == 0x85 || s[1] as int == 0xA0) then 2
      else if |s| >= 3 && WideSpace(a, s[1] as int, s[2] as int) then 3
      else 0
  }

  predicate WideSpace(a: int, b: int, c: int) {
    || (a == 0xE1 && b == 0x9A && c == 0x80)
    || (a == 0xE2 && b == 0x80 && (0x80 <= c <= 0x8A || c == 0xA8 || c == 0xA9 || c == 0xAF))
    || (a == 0xE2 && b == 0x81 && c == 0x9F)
    || (a == 0xE3 && b == 0x80 && c == 0x80)
  }

  // Nothing is left of the string when white space is trimmed off.
  predicate Blank(s: string)
    decreases |s|
  {
    s == "" || (SpaceAt(s) > 0 && Blank(s[SpaceAt(s)..]))
  }

  predicate NotBlank(s: string) { !Blank(s) }

  function Join(parts: seq<string>, separator: string): string {
    if parts == [] then "" else if |parts| == 1 then parts[0] else parts[0] + separator + Join(parts[1..], separator)
  }
}
