/** The canonical text of a request to start an upload determines the request. */
module Canonical {
  import opened Basics
  import opened Decimal
  import opened InitiateRequest

  lemma LastSeparator(front: string, back: string, separator: char)
    requires separator !in back
    ensures
      var s := front + [separator] + back;
      && s[|front|] == separator && s[..|front|] == front && s[|front| + 1..] == back
      && forall i :: |front| < i < |s| ==> s[i] != separator
  {
    var s := front + [separator] + back;
    forall i | |front| < i < |s|
      ensures s[i] != separator
    {
      assert s[i] == back[i - |front| - 1];
    }
  }

  /** A separator that does not occur behind itself splits a string in one way. */
  lemma SplitAtLast(front: string, back: string, front': string, back': string, separator: char)
    requires front + [separator] + back == front' + [separator] + back'
    requires separator !in back && separator !in back'
    ensures front == front' && back == back'
  {
    LastSeparator(front, back, separator);
    LastSeparator(front', back', separator);
    assert |front| == |front'|;
  }

  lemma FirstSeparator(front: string, back: string, separator: char)
    requires separator !in front
    ensures
      var s := front + [separator] + back;
      && s[|front|] == separator && s[..|front|] == front && s[|front| + 1..] == back
      && forall i :: 0 <= i < |front| ==> s[i] != separator
  {
    var s := front + [separator] + back;
    forall i | 0 <= i < |front|
      ensures s[i] != separator
    {
      assert s[i] == front[i];
    }
  }

  /** Nor does one that does not occur in front of itself leave a choice. */
  lemma SplitAtFirst(front: string, back: string, front': string, back': string, separator: char)
    requires front + [separator] + back == front' + [separator] + back'
    requires separator !in front && separator !in front'
    ensures front == front' && back == back'
  {
    FirstSeparator(front, back, separator);
    FirstSeparator(front', back', separator);
    assert |front| == |front'|;
  }

  // ---- Instants ----

  /** A pair of digits. */
  lemma TwoDigits(n: nat)
    requires n < 100
    ensures |Padded(n, 2)| == 2
  {
    assert n / 10 < 10;
    assert |Digits(n / 10)| == 1;
  }

  function PowerOfTen(k: nat): (p: nat)
    ensures p >= 1
  {
    if k == 0 then 1 else 10 * PowerOfTen(k - 1)
  }

  lemma {:induction false} DigitsFit(n: nat, width: nat)
    requires 1 <= width && n < PowerOfTen(width)
    ensures |Digits(n)| <= width
  {
    if n >= 10 {
      assert width > 1 by {
        assert PowerOfTen(0) == 1;
      }
      DigitsFit(n / 10, width - 1);
    }
  }

  lemma NineDigits(n: nat)
    requires n < 1_000_000_000
    ensures |Padded(n, 9)| == 9
  {
    assert PowerOfTen(3) == 1000 by {
      assert PowerOfTen(1) == 10 * PowerOfTen(0);
    }
    assert PowerOfTen(6) == 1_000_000;
    assert PowerOfTen(9) == 1_000_000_000;
    DigitsFit(n, 9);
  }

  /** Trimming keeps the front, and what it drops are zeros. */
  lemma {:induction false} TrimZerosKeeps(s: string)
    ensures |TrimZeros(s)| <= |s| && TrimZeros(s) == s[..|TrimZeros(s)|]
    ensures forall i :: |TrimZeros(s)| <= i < |s| ==> s[i] == '0'
  {
    if s != [] && s[|s| - 1] == '0' {
      TrimZerosKeeps(s[..|s| - 1]);
    }
  }

  lemma TrimZerosInjective(s: string, s': string)
    requires |s| == |s'| && TrimZeros(s) == TrimZeros(s')
    ensures s == s'
  {
    TrimZerosKeeps(s);
    TrimZerosKeeps(s');
    forall i | 0 <= i < |s|
      ensures s[i] == s'[i]
    {
      if i < |TrimZeros(s)| {
        assert s[i] == TrimZeros(s)[i] == TrimZeros(s')[i] == s'[i];
      }
    }
  }

  lemma FractionInjective(n: nat, n': nat)
    requires n < 1_000_000_000 && n' < 1_000_000_000 && Fraction(n) == Fraction(n')
    ensures n == n'
  {
    if n != 0 && n' != 0 {
      NineDigits(n);
      NineDigits(n');
      assert Fraction(n)[1..] == TrimZeros(Padded(n, 9));
      assert Fraction(n')[1..] == TrimZeros(Padded(n', 9));
      TrimZerosInjective(Padded(n, 9), Padded(n', 9));
    }
  }

  lemma YearInjective(y: int, y': int)
    requires Year(y) == Year(y')
    ensures y == y'
  {
    if y < 0 {
      assert Year(y)[1..] == Padded(-y, 4);
    }
    if y' < 0 {
      assert Year(y')[1..] == Padded(-y', 4);
    }
    assert IsDigit(Padded(if y < 0 then -y else y, 4)[0]);
    assert IsDigit(Padded(if y' < 0 then -y' else y', 4)[0]);
  }

  /** What the text of an instant is made of. */
  predicate InstantChar(c: char) {
    IsDigit(c) || c in {'-', ':', '.', 'Z'}
  }

  predicate InstantText(s: string) {
    forall i :: 0 <= i < |s| ==> InstantChar(s[i])
  }

  lemma InstantTextAppends(s: string, s': string)
    requires InstantText(s) && InstantText(s')
    ensures InstantText(s + s')
  {
  }

  function DateText(t: UtcInstant): string {
    Year(t.year) + ("-" + Padded(t.month, 2) + "-" + Padded(t.day, 2))
  }

  function ClockText(t: UtcInstant): string {
    (Padded(t.hour, 2) + ":" + Padded(t.minute, 2) + ":" + Padded(t.second, 2)) + (Fraction(t.nanos) + "Z")
  }

  /** Two pairs of digits around a mark. */
  lemma PairText(a: nat, mark: string, b: nat)
    requires InstantText(mark)
    ensures InstantText(Padded(a, 2)) && InstantText(Padded(a, 2) + mark + Padded(b, 2))
  {
    hide Padded;
    InstantTextAppends(Padded(a, 2), mark);
    InstantTextAppends(Padded(a, 2) + mark, Padded(b, 2));
  }

  lemma YearIsText(year: int)
    ensures InstantText(Year(year))
  {
    var digits := Padded(if year < 0 then -year else year, 4);
    hide Padded;
    assert InstantText(digits) && InstantText("-");
    InstantTextAppends("-", digits);
  }

  lemma DateIsText(t: UtcInstant)
    ensures InstantText(DateText(t))
  {
    hide Padded, Year;
    YearIsText(t.year);
    PairText(t.month, "-", t.day);
    var pair := Padded(t.month, 2) + "-" + Padded(t.day, 2);
    InstantTextAppends("-", pair);
    InstantTextAppends(Year(t.year), "-" + pair);
    assert DateText(t) == Year(t.year) + ("-" + pair);
  }

  lemma FractionIsText(nanos: nat)
    ensures InstantText(Fraction(nanos) + "Z")
  {
    var digits := Padded(nanos, 9);
    TrimZerosKeeps(digits);
    assert InstantText(TrimZeros(digits));
    hide Padded, TrimZeros;
    InstantTextAppends(Fraction(nanos), "Z");
  }

  lemma ClockIsText(t: UtcInstant)
    ensures InstantText(ClockText(t))
  {
    hide Padded, Fraction;
    PairText(t.hour, ":", t.minute);
    PairText(t.second, ":", t.second);
    FractionIsText(t.nanos);
    var pair := Padded(t.hour, 2) + ":" + Padded(t.minute, 2);
    InstantTextAppends(pair, ":");
    InstantTextAppends(pair + ":", Padded(t.second, 2));
    InstantTextAppends(pair + ":" + Padded(t.second, 2), Fraction(t.nanos) + "Z");
  }

  lemma FormatSplits(t: UtcInstant)
    ensures FormatInstant(t) == DateText(t) + ['T'] + ClockText(t)
  {
    hide Padded, Fraction, Year;
    var clock := Padded(t.hour, 2) + ":" + Padded(t.minute, 2) + ":" + Padded(t.second, 2);
    assert FormatInstant(t) == DateText(t) + ['T'] + clock + Fraction(t.nanos) + "Z";
    assert ClockText(t) == clock + (Fraction(t.nanos) + "Z");
  }

  lemma InstantParts(t: UtcInstant)
    ensures FormatInstant(t) == DateText(t) + ['T'] + ClockText(t)
    ensures 'T' !in DateText(t) && 'T' !in ClockText(t) && NUL !in FormatInstant(t)
  {
    DateIsText(t);
    ClockIsText(t);
    FormatSplits(t);
    hide DateText, ClockText, FormatInstant;
  }

  lemma DateInjective(t: UtcInstant, t': UtcInstant)
    requires DateText(t) == DateText(t')
    ensures t.year == t'.year && t.month == t'.month && t.day == t'.day
  {
    hide Padded, Year;
    TwoDigits(t.month);
    TwoDigits(t'.month);
    TwoDigits(t.day);
    TwoDigits(t'.day);
    var (d, d') := (DateText(t), DateText(t'));
    assert d[..|d| - 6] == Year(t.year) && d'[..|d| - 6] == Year(t'.year);
    assert d[|d| - 5..|d| - 3] == Padded(t.month, 2) && d'[|d| - 5..|d| - 3] == Padded(t'.month, 2);
    assert d[|d| - 2..] == Padded(t.day, 2) && d'[|d| - 2..] == Padded(t'.day, 2);
    YearInjective(t.year, t'.year);
    assert Value(Padded(t.month, 2)) == t.month && Value(Padded(t.day, 2)) == t.day;
  }

  lemma ClockInjective(t: UtcInstant, t': UtcInstant)
    requires ClockText(t) == ClockText(t')
    ensures t.hour == t'.hour && t.minute == t'.minute && t.second == t'.second && t.nanos == t'.nanos
  {
    hide Padded, Fraction;
    TwoDigits(t.hour);
    TwoDigits(t'.hour);
    TwoDigits(t.minute);
    TwoDigits(t'.minute);
    TwoDigits(t.second);
    TwoDigits(t'.second);
    var (c, c') := (ClockText(t), ClockText(t'));
    assert c[..2] == Padded(t.hour, 2) && c'[..2] == Padded(t'.hour, 2);
    assert c[3..5] == Padded(t.minute, 2) && c'[3..5] == Padded(t'.minute, 2);
    assert c[6..8] == Padded(t.second, 2) && c'[6..8] == Padded(t'.second, 2);
    assert c[8..|c| - 1] == Fraction(t.nanos) && c'[8..|c| - 1] == Fraction(t'.nanos);
    FractionInjective(t.nanos, t'.nanos);
    assert Value(Padded(t.hour, 2)) == t.hour && Value(Padded(t.minute, 2)) == t.minute;
    assert Value(Padded(t.second, 2)) == t.second;
  }

  /** Different instants print differently, down to the nanosecond. */
  lemma InstantInjective(t: UtcInstant, t': UtcInstant)
    requires FormatInstant(t) == FormatInstant(t')
    ensures t == t'
  {
    InstantParts(t);
    InstantParts(t');
    hide FormatInstant, DateText, ClockText;
    SplitAtFirst(DateText(t), ClockText(t), DateText(t'), ClockText(t'), 'T');
    DateInjective(t, t');
    ClockInjective(t, t');
  }

  // ---- Requests ----

  lemma CapturedInjective(c: Option<UtcInstant>, c': Option<UtcInstant>)
    requires Captured(c) == Captured(c')
    ensures c == c'
  {
    match (c, c')
    case (Some(t), Some(t')) => InstantInjective(t, t');
    case (Some(t), None) => InstantParts(t);
    case (None, Some(t')) => InstantParts(t');
    case _ =>
  }

  lemma MimeTypesAreNulFree(mimeType: string)
    requires mimeType in IMAGE_TYPES || mimeType in VIDEO_TYPES
    ensures NUL !in mimeType
  {
  }

  /** Behind the slug no field of a validated request contains the separator. */
  lemma FieldsAreNulFree(input: Input)
    requires Validate(input).Some?
    ensures
      var normal := Validate(input).value.1;
      && NUL !in normal.filename && NUL !in normal.mimeType
      && NUL !in FormatInt(normal.sizeBytes) && NUL !in Captured(normal.capturedAt)
  {
    var normal := Validate(input).value.1;
    if NUL in normal.filename {
      var i :| 0 <= i < |normal.filename| && normal.filename[i] == NUL;
      assert IsControl(normal.filename[i]);
    }
    MimeTypesAreNulFree(normal.mimeType);
    FormatAlphabet(normal.sizeBytes);
    if normal.capturedAt.Some? {
      InstantParts(normal.capturedAt.value);
    }
  }

  /** Two validated requests have the same canonical text, and so the same hash, exactly when they agree on the
      slug and on every normalized field. The slug may be any text, with separators in it or not. */
  lemma CanonicalIsInjective(slug: string, input: Input, slug': string, input': Input)
    requires Validate(input).Some? && Validate(input').Some?
    ensures
      var (a, a') := (Validate(input).value.1, Validate(input').value.1);
      && (Canonical(slug, a) == Canonical(slug', a') <==> slug == slug' && a == a')
      && (Hash(slug, a) == Hash(slug', a') <==> slug == slug' && a == a')
  {
    FieldsAreNulFree(input);
    FieldsAreNulFree(input');
    var (a, a') := (Validate(input).value.1, Validate(input').value.1);
    hide Validate, Captured, FormatInt;
    if Canonical(slug, a) == Canonical(slug', a') {
      var (size, size') := (FormatInt(a.sizeBytes), FormatInt(a'.sizeBytes));
      var (c1, c1') := (slug + [NUL] + a.filename, slug' + [NUL] + a'.filename);
      var (c2, c2') := (c1 + [NUL] + a.mimeType, c1' + [NUL] + a'.mimeType);
      SplitAtLast(c2 + [NUL] + size, Captured(a.capturedAt), c2' + [NUL] + size', Captured(a'.capturedAt), NUL);
      SplitAtLast(c2, size, c2', size', NUL);
      SplitAtLast(c1, a.mimeType, c1', a'.mimeType, NUL);
      SplitAtLast(slug, a.filename, slug', a'.filename, NUL);
      FormatInjective(a.sizeBytes, a'.sizeBytes);
      CapturedInjective(a.capturedAt, a'.capturedAt);
    }
  }
}
