/** Strings as Go's strings package treats them; a char is a Unicode code point. */
module Text {

  /** unicode.IsSpace */
  predicate IsSpace(c: char) {
    || 9 <= c as int <= 13 || c == ' ' || c as int == 0x85 || c as int == 0xA0
    || c as int == 0x1680 || 0x2000 <= c as int <= 0x200A || c as int == 0x2028 || c as int == 0x2029
    || c as int == 0x202F || c as int == 0x205F || c as int == 0x3000
  }

  function TrimLeft(s: string): string {
    if s != [] && IsSpace(s[0]) then TrimLeft(s[1..]) else s
  }

  function TrimRight(s: string): string {
    if s != [] && IsSpace(s[|s| - 1]) then TrimRight(s[..|s| - 1]) else s
  }

  function TrimSpace(s: string): string {
    TrimRight(TrimLeft(s))
  }

  /** The length of the UTF-8 encoding. */
  function ByteLength(s: string): nat {
    if s == [] then 0
    else
      var c := s[0] as int;
      (if c < 0x80 then 1 else if c < 0x800 then 2 else if c < 0x1_0000 then 3 else 4) + ByteLength(s[1..])
  }

  /** The four ranges of section 3 of RFC 3629, and characters add up. */
  lemma {:induction false} ByteLengthAdds(s: string, c: char)
    ensures ByteLength(s + [c]) == ByteLength(s) + ByteLength([c])
    ensures ByteLength([c]) <= 1 <==> c as int <= 0x7F
    ensures ByteLength([c]) <= 2 <==> c as int <= 0x7FF
    ensures ByteLength([c]) <= 3 <==> c as int <= 0xFFFF
    ensures 1 <= ByteLength([c]) <= 4
  {
    if s == [] {
      assert s + [c] == [c];
    } else {
      assert (s + [c])[1..] == s[1..] + [c];
      ByteLengthAdds(s[1..], c);
    }
  }
}
