/** The request that starts an upload: its validation and the canonical text that is hashed
    for idempotency. */
module InitiateRequest {
  import opened Basics
  import opened Decimal
  import opened Text

  const MAX_IMAGE_SIZE: int := 50 * 1024 * 1024
  const MAX_VIDEO_SIZE: int := 2 * 1024 * 1024 * 1024
  const NUL: char := 0 as char

  /** An instant by its UTC calendar fields; `nanos` counts nanoseconds in the second. */
  datatype Instant = Instant(year: int, month: nat, day: nat, hour: nat, minute: nat, second: nat, nanos: nat) {
    predicate Valid() {
      1 <= month <= 12 && 1 <= day <= 31 && hour < 24 && minute < 60 && second < 60 && nanos < 1_000_000_000
    }
  }

  type UtcInstant = t: Instant | t.Valid() witness Instant(1970, 1, 1, 0, 0, 0, 0)

  datatype MediaType = Image | Video

  datatype Input = Input(filename: string, mimeType: string, sizeBytes: int, capturedAt: Option<UtcInstant>)

  // ---- Validation ----

  /** unicode.IsControl */
  predicate IsControl(c: char) {
    c as int < 0x20 || 0x7F <= c as int <= 0x9F
  }

  /** Lower case as far as it can reach ASCII: the letters A to Z, the Kelvin sign and the dotted capital I. */
  function Lower(c: char): char {
    if 'A' <= c <= 'Z' then (c as int + 32) as char
    else if c as int == 0x212A then 'k'
    else if c as int == 0x130 then 'i'
    else c
  }

  function ToLower(s: string): string {
    seq(|s|, i requires 0 <= i < |s| => Lower(s[i]))
  }

  /** The part of `s` before its first semicolon. */
  function BeforeSemicolon(s: string): string {
    if s == [] || s[0] == ';' then [] else [s[0]] + BeforeSemicolon(s[1..])
  }

  const IMAGE_TYPES: set<string> :=
    {"image/jpeg", "image/png", "image/webp", "image/heic", "image/heif", "image/avif", "image/gif"}
  const VIDEO_TYPES: set<string> :=
    {"video/mp4", "video/quicktime", "video/webm", "video/x-m4v", "video/3gpp"}

  /** The kind and the normalized form of an acceptable input; None for ErrInvalidInput. */
  function Validate(input: Input): Option<(MediaType, Input)> {
    var filename := TrimSpace(input.filename);
    var mimeType := ToLower(TrimSpace(BeforeSemicolon(input.mimeType)));
    if !(1 <= |filename| <= 255) then None
    else if exists i :: 0 <= i < |filename| && IsControl(filename[i]) then None
    else if mimeType !in IMAGE_TYPES && mimeType !in VIDEO_TYPES then None
    else if input.sizeBytes <= 0 then None
    else if mimeType in IMAGE_TYPES && input.sizeBytes > MAX_IMAGE_SIZE then None
    else if mimeType in VIDEO_TYPES && input.sizeBytes > MAX_VIDEO_SIZE then None
    else
      Some((if mimeType in IMAGE_TYPES then Image else Video,
            Input(filename, mimeType, input.sizeBytes, input.capturedAt)))
  }

  // ---- Canonical text ----

  function TrimZeros(s: string): string {
    if s != [] && s[|s| - 1] == '0' then TrimZeros(s[..|s| - 1]) else s
  }

  /** The fraction of RFC 3339 with nanoseconds: nine digits without trailing zeros, absent when zero. */
  function Fraction(nanos: nat): string {
    if nanos == 0 then [] else "." + TrimZeros(Padded(nanos, 9))
  }

  function Year(year: int): string {
    if year < 0 then "-" + Padded(-year, 4) else Padded(year, 4)
  }

  /** time.RFC3339Nano in UTC */
  function FormatInstant(t: UtcInstant): string {
    Year(t.year) + "-" + Padded(t.month, 2) + "-" + Padded(t.day, 2) + "T" +
    Padded(t.hour, 2) + ":" + Padded(t.minute, 2) + ":" + Padded(t.second, 2) + Fraction(t.nanos) + "Z"
  }

  function Captured(capturedAt: Option<UtcInstant>): string {
    match capturedAt
    case None => ""
    case Some(t) => FormatInstant(t)
  }

  /** The text whose SHA-256 identifies a request; `slug` is already trimmed and in upper case. */
  function Canonical(slug: string, input: Input): string {
    slug + [NUL] + input.filename + [NUL] + input.mimeType + [NUL] +
    FormatInt(input.sizeBytes) + [NUL] + Captured(input.capturedAt)
  }

  function Hash(slug: string, input: Input): Digest {
    Sha256(Canonical(slug, input))
  }
}
