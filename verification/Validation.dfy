/** What Initiate accepts, and in which form. */
module Validation {
  import opened Basics
  import opened InitiateRequest
  import opened Text

  /** What every type on the list is written with. */
  predicate PlainChar(c: char) {
    'a' <= c <= 'z' || '0' <= c <= '9' || c == '/' || c == '-'
  }

  predicate PlainText(s: string) {
    s != [] && forall i :: 0 <= i < |s| ==> PlainChar(s[i])
  }

  lemma ImageTypesArePlain(mime: string)
    requires mime in IMAGE_TYPES
    ensures PlainText(mime) && mime !in VIDEO_TYPES
  {
  }

  lemma VideoTypesArePlain(mime: string)
    requires mime in VIDEO_TYPES
    ensures PlainText(mime) && mime !in IMAGE_TYPES
  {
  }

  lemma {:induction false} PlainHasNoParameters(s: string)
    requires forall i :: 0 <= i < |s| ==> PlainChar(s[i])
    ensures BeforeSemicolon(s) == s
    decreases |s|
  {
    if s != [] {
      PlainHasNoParameters(s[1..]);
    }
  }

  lemma NothingToTrim(s: string)
    requires s != [] && !IsSpace(s[0]) && !IsSpace(s[|s| - 1])
    ensures TrimSpace(s) == s
  {
  }

  lemma NothingToLower(s: string)
    requires PlainText(s)
    ensures ToLower(s) == s
  {
    forall i | 0 <= i < |s|
      ensures Lower(s[i]) == s[i]
    {
      assert PlainChar(s[i]);
    }
  }

  /** A plain text is its own normal form as a media type. */
  lemma PlainIsNormal(s: string)
    requires PlainText(s)
    ensures ToLower(TrimSpace(BeforeSemicolon(s))) == s
  {
    assert PlainChar(s[0]) && PlainChar(s[|s| - 1]);
    PlainHasNoParameters(s);
    hide BeforeSemicolon, TrimSpace, ToLower;
    NothingToTrim(s);
    NothingToLower(s);
  }

  // ---- Trimming ----

  lemma {:induction false} TrimLeftEnds(s: string)
    ensures TrimLeft(s) != [] ==> !IsSpace(TrimLeft(s)[0])
    ensures |TrimLeft(s)| <= |s| && TrimLeft(s) == s[|s| - |TrimLeft(s)|..]
    decreases |s|
  {
    if s != [] && IsSpace(s[0]) {
      TrimLeftEnds(s[1..]);
    }
  }

  lemma {:induction false} TrimRightEnds(s: string)
    ensures |TrimRight(s)| <= |s| && TrimRight(s) == s[..|TrimRight(s)|]
    ensures TrimRight(s) != [] ==> !IsSpace(TrimRight(s)[|TrimRight(s)| - 1])
    decreases |s|
  {
    if s != [] && IsSpace(s[|s| - 1]) {
      TrimRightEnds(s[..|s| - 1]);
    }
  }

  /** Trimming leaves no space at either end, so trimming again changes nothing. */
  lemma TrimIsIdempotent(s: string)
    ensures TrimSpace(TrimSpace(s)) == TrimSpace(s)
    ensures TrimSpace(s) != [] ==> !IsSpace(TrimSpace(s)[0]) && !IsSpace(TrimSpace(s)[|TrimSpace(s)| - 1])
  {
    var (left, all) := (TrimLeft(s), TrimSpace(s));
    TrimLeftEnds(s);
    TrimRightEnds(left);
    if all != [] {
      assert all[0] == left[0];
    }
  }

  // ---- How a media type is read ----

  predicate Blank(s: string) {
    forall i :: 0 <= i < |s| ==> IsSpace(s[i])
  }

  /** `c` is the letter or other character `plain`, in either case. */
  predicate AnyCase(c: char, plain: char) {
    c == plain || ('a' <= plain <= 'z' && c as int == plain as int - 32)
  }

  predicate Spells(text: string, mime: string) {
    |text| == |mime| && forall i :: 0 <= i < |text| ==> AnyCase(text[i], mime[i])
  }

  lemma {:induction false} ParametersAreCut(text: string, rest: string)
    requires ';' !in text && (rest == [] || rest[0] == ';')
    ensures BeforeSemicolon(text + rest) == text
    decreases |text|
  {
    if text == [] {
      assert text + rest == rest;
    } else {
      assert (text + rest)[1..] == text[1..] + rest;
      ParametersAreCut(text[1..], rest);
    }
  }

  lemma {:induction false} LeftBlanksAreCut(blank: string, text: string)
    requires Blank(blank) && text != [] && !IsSpace(text[0])
    ensures TrimLeft(blank + text) == text
    decreases |blank|
  {
    if blank == [] {
      assert blank + text == text;
    } else {
      assert (blank + text)[1..] == blank[1..] + text;
      LeftBlanksAreCut(blank[1..], text);
    }
  }

  lemma {:induction false} RightBlanksAreCut(text: string, blank: string)
    requires Blank(blank) && text != [] && !IsSpace(text[|text| - 1])
    ensures TrimRight(text + blank) == text
    decreases |blank|
  {
    if blank == [] {
      assert text + blank == text;
    } else {
      var last := |blank| - 1;
      assert (text + blank)[..|text + blank| - 1] == text + blank[..last];
      RightBlanksAreCut(text, blank[..last]);
    }
  }

  lemma SpellingIsRead(text: string, mime: string)
    requires PlainText(mime) && Spells(text, mime)
    ensures ToLower(text) == mime && ';' !in text && !IsSpace(text[0]) && !IsSpace(text[|text| - 1])
  {
    forall i | 0 <= i < |text|
      ensures Lower(text[i]) == mime[i] && text[i] != ';' && !IsSpace(text[i])
    {
      assert PlainChar(mime[i]) && AnyCase(text[i], mime[i]);
    }
  }

  lemma BlankHasNoSemicolon(blank: string)
    requires Blank(blank)
    ensures ';' !in blank
  {
    assert !IsSpace(';');
  }

  /** A type on the list is recognized in upper or lower case, between spaces, and in front of any parameters. */
  lemma TypeIsRead(before: string, text: string, behind: string, rest: string, mime: string)
    requires mime in IMAGE_TYPES || mime in VIDEO_TYPES
    requires Blank(before) && Blank(behind) && Spells(text, mime) && (rest == [] || rest[0] == ';')
    ensures ToLower(TrimSpace(BeforeSemicolon(before + text + behind + rest))) == mime
  {
    hide BeforeSemicolon, TrimLeft, TrimRight, ToLower, IsSpace, Blank, PlainText, Spells;
    if mime in IMAGE_TYPES {
      ImageTypesArePlain(mime);
    } else {
      VideoTypesArePlain(mime);
    }
    SpellingReads(before, text, behind, rest, mime);
  }

  lemma SpellingReads(before: string, text: string, behind: string, rest: string, mime: string)
    requires PlainText(mime) && Spells(text, mime) && Blank(before) && Blank(behind) && (rest == [] || rest[0] == ';')
    ensures ToLower(TrimSpace(BeforeSemicolon(before + text + behind + rest))) == mime
  {
    hide BeforeSemicolon, TrimLeft, TrimRight, ToLower, IsSpace, Blank, PlainChar, AnyCase;
    SpellingIsRead(text, mime);
    BlankHasNoSemicolon(before);
    BlankHasNoSemicolon(behind);
    ParametersAreCut(before + text + behind, rest);
    assert before + text + behind == before + (text + behind);
    LeftBlanksAreCut(before, text + behind);
    RightBlanksAreCut(text, behind);
  }

  // ---- Validation ----

  /** The size limit of a media type: 50 MiB for images, 2 GiB for videos. */
  predicate SizeFits(mime: string, size: int) {
    || (mime in IMAGE_TYPES && 1 <= size <= 52_428_800)
    || (mime in VIDEO_TYPES && 1 <= size <= 2_147_483_648)
  }

  /** A file name without space around it and without control characters. */
  predicate NameFits(name: string) {
    && 1 <= |name| <= 255 && !IsSpace(name[0]) && !IsSpace(name[|name| - 1])
    && forall i :: 0 <= i < |name| ==> !(name[i] as int < 32) && !(127 <= name[i] as int < 160)
  }

  predicate IsNormal(input: Input) {
    NameFits(input.filename) && SizeFits(input.mimeType, input.sizeBytes)
  }

  lemma TypeIsNormal(mime: string)
    requires mime in IMAGE_TYPES || mime in VIDEO_TYPES
    ensures ToLower(TrimSpace(BeforeSemicolon(mime))) == mime && (mime in IMAGE_TYPES <==> mime !in VIDEO_TYPES)
  {
    hide ToLower, TrimSpace, BeforeSemicolon, PlainText;
    if mime in IMAGE_TYPES {
      ImageTypesArePlain(mime);
    } else {
      VideoTypesArePlain(mime);
    }
    PlainIsNormal(mime);
  }

  lemma NameIsNormal(name: string)
    requires NameFits(name)
    ensures TrimSpace(name) == name && forall i :: 0 <= i < |name| ==> !IsControl(name[i])
  {
    NothingToTrim(name);
    hide TrimSpace;
  }

  /** What is in normal form is accepted as it is, and told apart by its type. */
  lemma NormalIsAccepted(input: Input)
    requires IsNormal(input)
    ensures Validate(input) == Some((if input.mimeType in IMAGE_TYPES then Image else Video, input))
  {
    hide TrimSpace, ToLower, BeforeSemicolon, IsControl, IsSpace;
    TypeIsNormal(input.mimeType);
    NameIsNormal(input.filename);
  }

  /** An input is accepted exactly when trimming its name and reading its type without parameters, space and case
      brings it to normal form, and then in that form: so what was normalized is accepted again, unchanged. */
  lemma AcceptedExactly(input: Input)
    ensures
      var normal := input.(filename := TrimSpace(input.filename), mimeType := ToLower(TrimSpace(BeforeSemicolon(input.mimeType))));
      && (Validate(input).Some? <==> IsNormal(normal))
      && (Validate(input).Some? ==> Validate(input).value.1 == normal && Validate(normal) == Validate(input))
  {
    var normal := input.(filename := TrimSpace(input.filename), mimeType := ToLower(TrimSpace(BeforeSemicolon(input.mimeType))));
    TrimIsIdempotent(input.filename);
    hide TrimSpace, ToLower, BeforeSemicolon;
    assert Validate(input).Some? ==> IsNormal(normal);
    if IsNormal(normal) {
      NormalIsAccepted(normal);
    }
  }
}
