/** The text form of a UUID (section 4 of RFC 9562), and the object paths built from it. */
module UuidText {
  import opened Basics
  import opened Schema

  // ---- Hexadecimal digits ----

  function HexChar(d: nat): char
    requires d < 16
  {
    if d < 10 then ('0' as int + d) as char else ('a' as int + d - 10) as char
  }

  /** The value of a hexadecimal digit in either case. */
  function HexDigit(c: char): Option<nat> {
    if '0' <= c <= '9' then Some(c as int - '0' as int)
    else if 'a' <= c <= 'f' then Some(c as int - 'a' as int + 10)
    else if 'A' <= c <= 'F' then Some(c as int - 'A' as int + 10)
    else None
  }

  predicate AllHex(s: string) {
    forall i :: 0 <= i < |s| ==> HexDigit(s[i]).Some?
  }

  function HexValue(s: string): nat
    requires AllHex(s)
  {
    if s == [] then 0 else 16 * HexValue(s[..|s| - 1]) + HexDigit(s[|s| - 1]).value
  }

  /** The last `width` hexadecimal digits of `n`, in lower case. */
  function Hex(n: nat, width: nat): (s: string)
    ensures |s| == width && AllHex(s)
    ensures forall i :: 0 <= i < |s| ==> '0' <= s[i] <= '9' || 'a' <= s[i] <= 'f'
  {
    if width == 0 then [] else Hex(n / 16, width - 1) + [HexChar(n % 16)]
  }

  function Pow16(w: nat): nat {
    if w == 0 then 1 else 16 * Pow16(w - 1)
  }

  lemma {:induction false} PowSplit(a: nat, b: nat)
    ensures Pow16(a + b) == Pow16(a) * Pow16(b)
  {
    if a > 0 {
      PowSplit(a - 1, b);
      assert 16 * (Pow16(a - 1) * Pow16(b)) == (16 * Pow16(a - 1)) * Pow16(b);
    }
  }

  lemma UuidDigits()
    ensures Pow16(32) == UUID_SPACE
  {
    assert Pow16(1) == 16;
    PowSplit(1, 1);
    PowSplit(2, 2);
    PowSplit(4, 4);
    PowSplit(8, 8);
    PowSplit(16, 16);
  }

  lemma {:induction false} HexRoundTrip(n: nat, width: nat)
    requires n < Pow16(width)
    ensures HexValue(Hex(n, width)) == n
    decreases width
  {
    if width > 0 {
      HexRoundTrip(n / 16, width - 1);
      var s := Hex(n, width);
      assert s[..|s| - 1] == Hex(n / 16, width - 1);
      assert HexDigit(HexChar(n % 16)) == Some(n % 16);
    }
  }

  // ---- UUID text ----

  /** uuid.UUID.String */
  function Print(u: Uuid): (s: string)
    ensures |s| == 36
  {
    var h := Hex(u, 32);
    h[..8] + "-" + h[8..12] + "-" + h[12..16] + "-" + h[16..20] + "-" + h[20..]
  }

  /** 32 digits in groups of 8, 4, 4, 4 and 12 with hyphens between; anything after them is not looked at. */
  function ParseHyphenated(s: string): Option<Uuid>
    requires |s| >= 36
  {
    var digits := s[..8] + s[9..13] + s[14..18] + s[19..23] + s[24..36];
    if s[8] != '-' || s[13] != '-' || s[18] != '-' || s[23] != '-' then None
    else ParseDigits(digits)
  }

  function ParseDigits(digits: string): Option<Uuid>
    requires |digits| == 32
  {
    if AllHex(digits) then (UuidDigits(); HexBound(digits); Some(HexValue(digits))) else None
  }

  lemma {:induction false} HexBound(s: string)
    requires AllHex(s)
    ensures HexValue(s) < Pow16(|s|)
  {
    if s != [] {
      HexBound(s[..|s| - 1]);
    }
  }

  function LowerAscii(c: char): char {
    if 'A' <= c <= 'Z' then (c as int + 32) as char else c
  }

  predicate IsUrn(s: string)
    requires |s| >= 9
  {
    forall i :: 0 <= i < 9 ==> LowerAscii(s[i]) == "urn:uuid:"[i]
  }

  /** uuid.Parse: the plain form, with a URN prefix, in braces (of which the closing one is not checked), or bare. */
  function Parse(s: string): Option<Uuid> {
    if |s| == 36 then ParseHyphenated(s)
    else if |s| == 45 then if IsUrn(s) then ParseHyphenated(s[9..]) else None
    else if |s| == 38 then ParseHyphenated(s[1..])
    else if |s| == 32 then ParseDigits(s)
    else None
  }

  /** The digits between the hyphens, put together again. */
  lemma Groups(h: string)
    requires |h| == 32
    ensures
      var s := h[..8] + "-" + h[8..12] + "-" + h[12..16] + "-" + h[16..20] + "-" + h[20..];
      && s[8] == s[13] == s[18] == s[23] == '-'
      && s[..8] + s[9..13] + s[14..18] + s[19..23] + s[24..36] == h
  {
    var front := h[..8] + "-" + h[8..12] + "-";
    var s := front + h[12..16] + "-" + h[16..20] + "-" + h[20..];
    assert s[..14] == front && front[..8] == h[..8] && front[9..13] == h[8..12];
    assert s[14..18] == h[12..16] && s[19..23] == h[16..20] && s[24..36] == h[20..];
    assert h[..8] + h[8..12] == h[..12] && h[..12] + h[12..16] == h[..16] && h[..16] + h[16..20] == h[..20];
    assert h[..20] + h[20..] == h;
  }

  lemma ParsePrinted(u: Uuid)
    ensures Parse(Print(u)) == Some(u)
  {
    Groups(Hex(u, 32));
    UuidDigits();
    HexRoundTrip(u, 32);
  }

  /** Of texts of the printed length, exactly those are read that have hyphens and hexadecimal digits in their places. */
  lemma PlainFormExactly(s: string)
    requires |s| == 36
    ensures Parse(s).Some? <==>
      forall i :: 0 <= i < 36 ==> if i == 8 || i == 13 || i == 18 || i == 23 then s[i] == '-' else HexDigit(s[i]).Some?
  {
    var digits := s[..8] + s[9..13] + s[14..18] + s[19..23] + s[24..36];
    assert forall i :: 0 <= i < 8 ==> s[i] == digits[i];
    assert forall i :: 9 <= i < 13 ==> s[i] == digits[i - 1];
    assert forall i :: 14 <= i < 18 ==> s[i] == digits[i - 2];
    assert forall i :: 19 <= i < 23 ==> s[i] == digits[i - 3];
    assert forall i :: 24 <= i < 36 ==> s[i] == digits[i - 4];
    if AllHex(digits) {
      assert forall i :: 0 <= i < 32 ==> HexDigit(digits[i]).Some?;
    }
    forall k | 0 <= k < 32
      ensures digits[k] == s[if k < 8 then k else if k < 12 then k + 1 else if k < 16 then k + 2 else if k < 20 then k + 3 else k + 4]
    {
    }
  }

  /** Printed UUIDs consist of digits, small letters and hyphens. */
  lemma PrintAlphabet(u: Uuid)
    ensures forall i :: 0 <= i < 36 ==> '0' <= Print(u)[i] <= '9' || 'a' <= Print(u)[i] <= 'f' || Print(u)[i] == '-'
  {
  }

  lemma PrintInjective(u: Uuid, v: Uuid)
    requires Print(u) == Print(v)
    ensures u == v
  {
    ParsePrinted(u);
    ParsePrinted(v);
  }

  // ---- Object paths ----

  const ROOMS: string := "rooms/"
  const ORIGINALS: string := "/originals/"
  const THUMBNAILS: string := "/thumbnails/"
  const JPG: string := ".jpg"

  /** Where an object is kept in the bucket. */
  function Path(k: ObjectKey): string {
    match k
    case Original(r, m) => ROOMS + Print(r) + ORIGINALS + Print(m)
    case Thumbnail(r, m) => ROOMS + Print(r) + THUMBNAILS + Print(m) + JPG
  }

  /** The prefix the cleanup worker removes for a room. */
  function RoomPrefix(r: Uuid): string {
    ROOMS + Print(r) + "/"
  }

  /** The prefix of a room covers every object of that room and none of another room's. */
  lemma PrefixIsExact(k: ObjectKey, r: Uuid)
    ensures RoomPrefix(r) <= Path(k) <==> k.room == r
  {
    var path := Path(k);
    assert path[6..42] == Print(k.room);
    assert path[..6] == ROOMS && path[42] == '/';
    assert path[..43] == RoomPrefix(k.room) by {
      assert path[..43] == path[..6] + path[6..42] + [path[42]];
    }
    if RoomPrefix(r) <= path {
      assert RoomPrefix(r) == path[..43];
      assert RoomPrefix(r)[6..42] == Print(r) && RoomPrefix(k.room)[6..42] == Print(k.room);
      PrintInjective(r, k.room);
    }
  }

  /** Different keys have different paths, so the unique index on storage keys is never in the way. */
  lemma PathIsInjective(k: ObjectKey, k': ObjectKey)
    requires Path(k) == Path(k')
    ensures k == k'
  {
    var path := Path(k);
    assert path[6..42] == Print(k.room) && path[6..42] == Print(k'.room);
    PrintInjective(k.room, k'.room);
    assert path[43] == if k.Original? then 'o' else 't';
    assert path[43] == if k'.Original? then 'o' else 't';
    var start := if k.Original? then 53 else 54;
    assert path[start..start + 36] == Print(k.media) && path[start..start + 36] == Print(k'.media);
    PrintInjective(k.media, k'.media);
  }
}
