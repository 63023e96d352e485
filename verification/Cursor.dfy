/** The gallery cursor: a time in microseconds and a UUID, printed and wrapped in unpadded base64url. */
module Cursor {
  import opened Basics
  import opened Decimal
  import UuidText

  type Byte = n: nat | n < 256

  type Micros = n: int | MIN_INT64 <= n <= MAX_INT64

  datatype Cursor = Cursor(createdAt: Micros, id: Uuid)

  // ---- Unpadded base64url (section 5 of RFC 4648) ----

  function SextetChar(v: nat): char
    requires v < 64
  {
    if v < 26 then ('A' as int + v) as char
    else if v < 52 then ('a' as int + v - 26) as char
    else if v < 62 then ('0' as int + v - 52) as char
    else if v == 62 then '-'
    else '_'
  }

  function Sextet(c: char): Option<nat> {
    if 'A' <= c <= 'Z' then Some(c as int - 'A' as int)
    else if 'a' <= c <= 'z' then Some(c as int - 'a' as int + 26)
    else if '0' <= c <= '9' then Some(c as int - '0' as int + 52)
    else if c == '-' then Some(62)
    else if c == '_' then Some(63)
    else None
  }

  lemma SextetRoundTrip(v: nat)
    requires v < 64
    ensures Sextet(SextetChar(v)) == Some(v)
  {
  }

  function Encode64(b: seq<Byte>): string {
    if |b| == 0 then []
    else if |b| == 1 then [SextetChar(b[0] / 4), SextetChar(b[0] % 4 * 16)]
    else if |b| == 2 then
      [SextetChar(b[0] / 4), SextetChar(b[0] % 4 * 16 + b[1] / 16), SextetChar(b[1] % 16 * 4)]
    else
      [SextetChar(b[0] / 4), SextetChar(b[0] % 4 * 16 + b[1] / 16),
       SextetChar(b[1] % 16 * 4 + b[2] / 64), SextetChar(b[2] % 64)] + Encode64(b[3..])
  }

  /** Line breaks are skipped. */
  function WithoutBreaks(s: string): string {
    if s == [] then []
    else if s[0] == '\r' || s[0] == '\n' then WithoutBreaks(s[1..])
    else [s[0]] + WithoutBreaks(s[1..])
  }

  predicate AllSextets(s: string) {
    forall i :: 0 <= i < |s| ==> Sextet(s[i]).Some?
  }

  /** Decoding of text from the alphabet; the unused low bits of the last character are ignored. */
  function DecodeSextets(s: string): Option<seq<Byte>>
    requires AllSextets(s)
  {
    if |s| == 0 then Some([])
    else if |s| == 1 then None
    else
      var v0, v1 := Sextet(s[0]).value, Sextet(s[1]).value;
      var b0 := v0 * 4 + v1 / 16;
      if |s| == 2 then Some([b0])
      else
        var v2 := Sextet(s[2]).value;
        var b1 := v1 % 16 * 16 + v2 / 4;
        if |s| == 3 then Some([b0, b1])
        else
          var b2 := v2 % 4 * 64 + Sextet(s[3]).value;
          var rest := DecodeSextets(s[4..]);
          if rest.None? then None else Some([b0, b1, b2] + rest.value)
  }

  function Decode64(s: string): Option<seq<Byte>> {
    var t := WithoutBreaks(s);
    if AllSextets(t) then DecodeSextets(t) else None
  }

  lemma {:induction false} EncodedAlphabet(b: seq<Byte>)
    ensures AllSextets(Encode64(b))
    decreases |b|
  {
    if |b| > 2 {
      EncodedAlphabet(b[3..]);
    }
  }

  lemma {:induction false} NothingToStrip(s: string)
    requires AllSextets(s)
    ensures WithoutBreaks(s) == s
  {
    if s != [] {
      assert Sextet(s[0]).Some?;
      NothingToStrip(s[1..]);
    }
  }

  lemma {:induction false} SextetsRoundTrip(b: seq<Byte>)
    ensures AllSextets(Encode64(b)) && DecodeSextets(Encode64(b)) == Some(b)
    decreases |b|
  {
    EncodedAlphabet(b);
    if |b| > 2 {
      SextetsRoundTrip(b[3..]);
      FourSextets(b);
    } else if |b| == 2 {
      SextetRoundTrip(b[0] / 4);
      SextetRoundTrip(b[0] % 4 * 16 + b[1] / 16);
      SextetRoundTrip(b[1] % 16 * 4);
      assert b == [b[0], b[1]];
    } else if |b| == 1 {
      SextetRoundTrip(b[0] / 4);
      SextetRoundTrip(b[0] % 4 * 16);
      assert b == [b[0]];
    }
  }

  lemma EncodeGroup(b: seq<Byte>)
    requires |b| > 2
    ensures
      var s := Encode64(b);
      && |s| >= 4 && s[4..] == Encode64(b[3..])
      && s[0] == SextetChar(b[0] / 4) && s[1] == SextetChar(b[0] % 4 * 16 + b[1] / 16)
      && s[2] == SextetChar(b[1] % 16 * 4 + b[2] / 64) && s[3] == SextetChar(b[2] % 64)
  {
  }

  lemma DecodeGroup(s: string, b: seq<Byte>)
    requires |s| >= 4 && AllSextets(s) && |b| > 2 && DecodeSextets(s[4..]) == Some(b[3..])
    requires
      var (v0, v1, v2, v3) := (Sextet(s[0]).value, Sextet(s[1]).value, Sextet(s[2]).value, Sextet(s[3]).value);
      v0 * 4 + v1 / 16 == b[0] && v1 % 16 * 16 + v2 / 4 == b[1] && v2 % 4 * 64 + v3 == b[2]
    ensures DecodeSextets(s) == Some(b)
  {
    hide Sextet;
    assert b == [b[0], b[1], b[2]] + b[3..];
  }

  /** The first group of four, in front of a rest that comes back. */
  lemma FourSextets(b: seq<Byte>)
    requires |b| > 2 && AllSextets(Encode64(b)) && AllSextets(Encode64(b[3..]))
    requires DecodeSextets(Encode64(b[3..])) == Some(b[3..])
    ensures DecodeSextets(Encode64(b)) == Some(b)
  {
    hide Sextet, SextetChar, Encode64, DecodeSextets;
    EncodeGroup(b);
    GroupOfThree(b[0], b[1], b[2]);
    DecodeGroup(Encode64(b), b);
  }

  lemma GroupOfThree(b0: Byte, b1: Byte, b2: Byte)
    ensures
      var (v0, v1, v2, v3) := (b0 / 4, b0 % 4 * 16 + b1 / 16, b1 % 16 * 4 + b2 / 64, b2 % 64);
      && Sextet(SextetChar(v0)) == Some(v0) && Sextet(SextetChar(v1)) == Some(v1)
      && Sextet(SextetChar(v2)) == Some(v2) && Sextet(SextetChar(v3)) == Some(v3)
      && v0 * 4 + v1 / 16 == b0 && v1 % 16 * 16 + v2 / 4 == b1 && v2 % 4 * 64 + v3 == b2
  {
    SextetRoundTrip(b0 / 4);
    SextetRoundTrip(b0 % 4 * 16 + b1 / 16);
    SextetRoundTrip(b1 % 16 * 4 + b2 / 64);
    SextetRoundTrip(b2 % 64);
  }

  lemma Base64RoundTrip(b: seq<Byte>)
    ensures Decode64(Encode64(b)) == Some(b)
  {
    SextetsRoundTrip(b);
    NothingToStrip(Encode64(b));
  }

  // ---- Bytes and text ----

  predicate Narrow(s: string) {
    forall i :: 0 <= i < |s| ==> s[i] as int < 256
  }

  function Bytes(s: string): (b: seq<Byte>)
    requires Narrow(s)
    ensures |b| == |s|
  {
    seq(|s|, i requires 0 <= i < |s| => s[i] as int as Byte)
  }

  /** A byte string, one char for each byte. */
  function Text(b: seq<Byte>): (s: string)
    ensures Narrow(s) && |s| == |b|
  {
    seq(|b|, i requires 0 <= i < |b| => b[i] as int as char)
  }

  /** strings.Split with a full stop. */
  function SplitDots(s: string): (parts: seq<string>)
    ensures |parts| >= 1
  {
    if s == [] then [[]]
    else
      var rest := SplitDots(s[1..]);
      if s[0] == '.' then [[]] + rest else [[s[0]] + rest[0]] + rest[1..]
  }

  predicate NoDot(s: string) {
    forall i :: 0 <= i < |s| ==> s[i] != '.'
  }

  lemma {:induction false} SplitOne(s: string)
    requires NoDot(s)
    ensures SplitDots(s) == [s]
  {
    if s != [] {
      SplitOne(s[1..]);
      assert [s[0]] + s[1..] == s;
    }
  }

  lemma {:induction false} SplitTwo(a: string, b: string)
    requires NoDot(a) && NoDot(b)
    ensures SplitDots(a + "." + b) == [a, b]
  {
    var s := a + "." + b;
    if a == [] {
      assert s[1..] == b;
      SplitOne(b);
    } else {
      assert s[1..] == a[1..] + "." + b;
      SplitTwo(a[1..], b);
      assert [a[0]] + a[1..] == a;
    }
  }

  // ---- The cursor ----

  function Raw(c: Cursor): (s: string)
    ensures Narrow(s)
  {
    FormatAlphabet(c.createdAt);
    UuidText.PrintAlphabet(c.id);
    FormatInt(c.createdAt) + "." + UuidText.Print(c.id)
  }

  /** encodeGalleryCursor */
  function Encode(c: Cursor): string {
    Encode64(Bytes(Raw(c)))
  }

  /** decodeGalleryCursor, on any string at all. */
  function Decode(encoded: string): Option<Cursor> {
    match Decode64(encoded)
    case None => None
    case Some(raw) =>
      var parts := SplitDots(Text(raw));
      if |parts| != 2 then None
      else
        match (ParseInt64(parts[0]), UuidText.Parse(parts[1]))
        case (Some(micros), Some(id)) => Bounded(parts[0]); Some(Cursor(micros, id))
        case _ => None
  }

  lemma Bounded(s: string)
    ensures ParseInt64(s).Some? ==> MIN_INT64 <= ParseInt64(s).value <= MAX_INT64
  {
  }

  /** The only full stop of `s` is at `k`. */
  predicate OneDotAt(s: string, k: int) {
    0 <= k < |s| && s[k] == '.' && NoDot(s[..k]) && NoDot(s[k + 1..])
  }

  lemma SplitAt(s: string, k: int)
    requires OneDotAt(s, k)
    ensures SplitDots(s) == [s[..k], s[k + 1..]]
  {
    SplitTwo(s[..k], s[k + 1..]);
    assert s[..k] + "." + s[k + 1..] == s;
  }

  lemma {:induction false} TwoPartsHaveOneDot(s: string)
    ensures |SplitDots(s)| == 1 ==> NoDot(s)
    ensures |SplitDots(s)| == 2 ==> exists k :: OneDotAt(s, k)
  {
    if s != [] {
      TwoPartsHaveOneDot(s[1..]);
      if |SplitDots(s)| == 2 {
        if s[0] == '.' {
          assert OneDotAt(s, 0);
        } else {
          var k :| OneDotAt(s[1..], k);
          assert s[..k + 1] == [s[0]] + s[1..][..k] && s[k + 2..] == s[1..][k + 1..];
          assert OneDotAt(s, k + 1);
        }
      }
    }
  }

  lemma EarlierDot(s: string, j: int, k: int)
    requires 0 <= j < k <= |s| && s[j] == '.'
    ensures !NoDot(s[..k])
  {
    assert s[..k][j] == '.';
  }

  lemma LaterDot(s: string, j: int, k: int)
    requires 0 <= k < j < |s| && s[j] == '.'
    ensures !NoDot(s[k + 1..])
  {
    assert s[k + 1..][j - k - 1] == '.';
  }

  lemma OnlyOneDot(s: string, k: int, j: int)
    requires OneDotAt(s, k) && OneDotAt(s, j)
    ensures j == k
  {
    hide NoDot;
    if j < k {
      EarlierDot(s, j, k);
    } else if j > k {
      LaterDot(s, j, k);
    }
  }

  lemma DecodedAt(encoded: string, k: int)
    requires Decode64(encoded).Some? && OneDotAt(Text(Decode64(encoded).value), k)
    ensures
      var raw := Text(Decode64(encoded).value);
      var (micros, id) := (ParseInt64(raw[..k]), UuidText.Parse(raw[k + 1..]));
      && (micros.Some? ==> MIN_INT64 <= micros.value <= MAX_INT64)
      && Decode(encoded) == if micros.Some? && id.Some? then Some(Cursor(micros.value, id.value)) else None
  {
    var raw := Text(Decode64(encoded).value);
    var head := raw[..k];
    hide ParseInt64, UuidText.Parse, Decode64, Text, OneDotAt, SplitDots;
    SplitAt(raw, k);
    Bounded(head);
  }

  lemma NothingDecoded(encoded: string)
    requires Decode64(encoded).Some? ==> forall k :: !OneDotAt(Text(Decode64(encoded).value), k)
    ensures Decode(encoded) == None
  {
    hide ParseInt64, UuidText.Parse, Decode64, Text, OneDotAt, SplitDots;
    if Decode64(encoded).Some? {
      TwoPartsHaveOneDot(Text(Decode64(encoded).value));
    }
  }

  /** The text consists of an int64, one full stop at `k`, and a UUID. */
  predicate Spells(raw: string, k: int, c: Cursor) {
    OneDotAt(raw, k) && ParseInt64(raw[..k]) == Some(c.createdAt) && UuidText.Parse(raw[k + 1..]) == Some(c.id)
  }

  /** What decodes: the base64 of an int64, one full stop, and a UUID; everything else is refused. */
  lemma DecodedExactly(encoded: string, c: Cursor)
    ensures Decode(encoded) == Some(c) <==>
      Decode64(encoded).Some? && exists k :: Spells(Text(Decode64(encoded).value), k, c)
  {
    hide ParseInt64, UuidText.Parse, Decode64, Text, OneDotAt, Decode;
    if Decode64(encoded).None? {
      NothingDecoded(encoded);
    } else {
      var raw := Text(Decode64(encoded).value);
      if k :| OneDotAt(raw, k) {
        DecodedAt(encoded, k);
        assert Decode(encoded) == Some(c) ==> Spells(raw, k, c);
        forall j | Spells(raw, j, c)
          ensures j == k
        {
          OnlyOneDot(raw, k, j);
        }
      } else {
        NothingDecoded(encoded);
      }
    }
  }

  /** For every time in int64 microseconds and every UUID, decoding an encoded cursor gives it back. */
  lemma CursorRoundTrip(c: Cursor)
    ensures Decode(Encode(c)) == Some(c)
  {
    var raw := Raw(c);
    Base64RoundTrip(Bytes(raw));
    assert Text(Bytes(raw)) == raw;
    FormatAlphabet(c.createdAt);
    UuidText.PrintAlphabet(c.id);
    SplitTwo(FormatInt(c.createdAt), UuidText.Print(c.id));
    ParseFormatted(c.createdAt);
    UuidText.ParsePrinted(c.id);
  }

  /** Cursors are told apart by their encodings, which need no escaping in a URL. */
  lemma CursorEncodingIsInjective(c: Cursor, c': Cursor)
    requires Encode(c) == Encode(c')
    ensures c == c' && AllSextets(Encode(c))
  {
    CursorRoundTrip(c);
    CursorRoundTrip(c');
    EncodedAlphabet(Bytes(Raw(c)));
  }
}
