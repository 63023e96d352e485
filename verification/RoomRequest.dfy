/** The request that creates a room: its validation, and how far its canonical text tells requests apart. */
module RoomRequest {
  import opened Canonical
  import opened Decimal
  import opened InitiateRequest
  import opened Text

  datatype CreateInput = CreateInput(name: string, lifetimeDays: int, accessMode: string, secret: string)

  predicate ValidAccess(mode: string, secret: string) {
    || (mode == "public" && secret == "")
    || (mode == "pin" && 4 <= |secret| <= 8 && AllDigits(secret))
    || (mode == "password" && 6 <= |secret| <= 72)
  }

  /** The input of Create once its name was trimmed, when validation lets it through. */
  predicate Acceptable(input: CreateInput) {
    && input.name == TrimSpace(input.name) && 1 <= |input.name| <= 120 && 1 <= input.lifetimeDays <= 3
    && ValidAccess(input.accessMode, input.secret)
  }

  /** Everything behind the name. */
  function Rest(days: int, mode: string, secret: string): string {
    FormatInt(days) + [NUL] + (mode + [NUL] + secret)
  }

  function CreateText(input: CreateInput): string {
    input.name + [NUL] + Rest(input.lifetimeDays, input.accessMode, input.secret)
  }

  /** Everything in front of the secret's separator. */
  function Head(input: CreateInput): string {
    input.name + [NUL] + FormatInt(input.lifetimeDays) + [NUL] + input.accessMode
  }

  lemma DaysText(days: int)
    requires 1 <= days <= 3
    ensures |FormatInt(days)| == 1 && IsDigit(FormatInt(days)[0])
    ensures FormatInt(days) == [DigitChar(days)]
  {
  }

  lemma ModeText(mode: string, secret: string)
    requires ValidAccess(mode, secret)
    ensures |mode| > 0 && !IsDigit(mode[0]) && NUL !in mode
  {
  }

  lemma TextSplits(input: CreateInput)
    ensures CreateText(input) == Head(input) + [NUL] + input.secret
  {
    hide FormatInt;
    var days := FormatInt(input.lifetimeDays);
    assert CreateText(input) == input.name + [NUL] + days + [NUL] + input.accessMode + [NUL] + input.secret;
  }

  lemma RestInjective(a: CreateInput, b: CreateInput)
    requires Acceptable(a) && Acceptable(b)
    requires Rest(a.lifetimeDays, a.accessMode, a.secret) == Rest(b.lifetimeDays, b.accessMode, b.secret)
    ensures a == b.(name := a.name)
  {
    DaysText(a.lifetimeDays);
    DaysText(b.lifetimeDays);
    ModeText(a.accessMode, a.secret);
    ModeText(b.accessMode, b.secret);
    hide Acceptable, ValidAccess, FormatInt;
    SplitAtFirst(FormatInt(a.lifetimeDays), a.accessMode + [NUL] + a.secret,
                 FormatInt(b.lifetimeDays), b.accessMode + [NUL] + b.secret, NUL);
    FormatInjective(a.lifetimeDays, b.lifetimeDays);
    SplitAtFirst(a.accessMode, a.secret, b.accessMode, b.secret, NUL);
  }

  /** Requests whose names are free of the separator have the same text exactly when they are the same. */
  lemma CreateTextIsInjective(a: CreateInput, b: CreateInput)
    requires Acceptable(a) && Acceptable(b) && NUL !in a.name && NUL !in b.name
    ensures CreateText(a) == CreateText(b) <==> a == b
  {
    hide Acceptable, Rest;
    if CreateText(a) == CreateText(b) {
      SplitAtFirst(a.name, Rest(a.lifetimeDays, a.accessMode, a.secret),
                   b.name, Rest(b.lifetimeDays, b.accessMode, b.secret), NUL);
      RestInjective(a, b);
    }
  }

  // ---- Where the name may hold a separator ----

  /** The request that takes the text of `a` up to `k` characters into its secret as its name. */
  function Shifted(a: CreateInput, k: nat, days: int, mode: string, secret: string): CreateInput
    requires k <= |a.secret|
  {
    CreateInput(if k == 0 then Head(a) else Head(a) + [NUL] + a.secret[..k - 1], days, mode, secret)
  }

  /** At the start of the secret of `a`, or behind a separator in it, stand the remaining fields of another
      request, and what is in front of them can be that request's name. */
  predicate ReadsAsAnother(a: CreateInput, k: nat, days: int, mode: string, secret: string) {
    && k <= |a.secret| && (k > 0 ==> a.secret[k - 1] == NUL)
    && a.secret[k..] == Rest(days, mode, secret)
    && Acceptable(Shifted(a, k, days, mode, secret))
  }

  ghost predicate Ambiguous(a: CreateInput) {
    exists k, days, mode, secret :: ReadsAsAnother(a, k, days, mode, secret)
  }

  lemma AmbiguousHasTwin(a: CreateInput, k: nat, days: int, mode: string, secret: string)
    requires ReadsAsAnother(a, k, days, mode, secret)
    ensures
      var b := Shifted(a, k, days, mode, secret);
      Acceptable(b) && b != a && CreateText(b) == CreateText(a)
  {
    TextSplits(a);
    hide Acceptable, Rest, Head, CreateText;
    var b := Shifted(a, k, days, mode, secret);
    assert a.secret == a.secret[..k] + Rest(days, mode, secret);
    if k > 0 {
      assert a.secret[..k] == a.secret[..k - 1] + [NUL];
    }
    assert b.name + [NUL] + Rest(days, mode, secret) == Head(a) + [NUL] + a.secret;
    ShiftedText(a, b);
  }

  lemma ShiftedText(a: CreateInput, b: CreateInput)
    requires |b.name| >= |Head(a)|
    requires b.name + [NUL] + Rest(b.lifetimeDays, b.accessMode, b.secret) == Head(a) + [NUL] + a.secret
    ensures b != a && CreateText(b) == CreateText(a)
  {
    TextSplits(a);
    hide Rest;
  }

  /** The characters behind the name: a digit, the separator, and no digit. */
  lemma HeadCharacters(a: CreateInput)
    requires Acceptable(a)
    ensures
      var (s, n) := (CreateText(a), |a.name|);
      && |s| >= |Head(a)| == n + 3 + |a.accessMode| && s[..n] == a.name
      && s[n + 2] == NUL && !IsDigit(s[n + 3])
      && (forall i :: n + 3 <= i < |Head(a)| ==> s[i] != NUL)
      && s[n + 1] != NUL
  {
    TextSplits(a);
    DaysText(a.lifetimeDays);
    ModeText(a.accessMode, a.secret);
    hide Acceptable, ValidAccess, FormatInt, CreateText;
    var (s, n) := (CreateText(a), |a.name|);
    assert s == a.name + ([NUL] + FormatInt(a.lifetimeDays) + [NUL]) + a.accessMode + [NUL] + a.secret;
    forall i | n + 3 <= i < |Head(a)|
      ensures s[i] != NUL
    {
      assert s[i] == a.accessMode[i - n - 3];
    }
  }

  /** The separator behind the longer name of a twin is not inside the head of `a`. */
  lemma TwinNameIsLonger(a: CreateInput, b: CreateInput)
    requires Acceptable(a) && Acceptable(b) && |a.name| <= |b.name| && CreateText(a) == CreateText(b) && a != b
    ensures |Head(a)| <= |b.name|
  {
    var s := CreateText(a);
    HeadCharacters(a);
    DaysText(b.lifetimeDays);
    assert s[|b.name|] == NUL && IsDigit(s[|b.name| + 1]);
    hide Acceptable, Head, FormatInt;
    if |b.name| == |a.name| {
      assert b.name == s[..|b.name|];
      SameNameSameRequest(a, b);
      assert false;
    }
  }

  lemma SameNameSameRequest(a: CreateInput, b: CreateInput)
    requires Acceptable(a) && Acceptable(b) && a.name == b.name && CreateText(a) == CreateText(b)
    ensures a == b
  {
    hide Acceptable, Rest;
    assert Rest(a.lifetimeDays, a.accessMode, a.secret) == CreateText(a)[|a.name| + 1..];
    assert Rest(b.lifetimeDays, b.accessMode, b.secret) == CreateText(b)[|b.name| + 1..];
    RestInjective(a, b);
  }

  /** One text cut at two separators: what the later cut leaves behind, and what lies between the two. */
  lemma TwoCuts(head: string, secret: string, name: string, rest: string)
    requires head + [NUL] + secret == name + [NUL] + rest && |head| <= |name|
    ensures
      var k := |name| - |head|;
      && k <= |secret| && secret[k..] == rest
      && (k > 0 ==> secret[k - 1] == NUL && name == head + [NUL] + secret[..k - 1])
      && (k == 0 ==> name == head)
  {
    var s := head + [NUL] + secret;
    var k := |name| - |head|;
    assert s[|head| + 1..] == secret && s[|name| + 1..] == rest && s[..|name|] == name;
    assert s[|name| + 1..] == s[|head| + 1..][k..];
    if k > 0 {
      assert s[|name|] == NUL && s[|name|] == secret[k - 1];
      assert s[..|name|] == head + [NUL] + secret[..k - 1];
    } else {
      assert s[..|head|] == head;
    }
  }

  lemma LongerTwinIsAmbiguous(a: CreateInput, b: CreateInput)
    requires Acceptable(a) && Acceptable(b) && |a.name| <= |b.name| && CreateText(a) == CreateText(b) && a != b
    ensures Ambiguous(a)
  {
    hide Acceptable, Rest, Head;
    TwinNameIsLonger(a, b);
    TextSplits(a);
    TwoCuts(Head(a), a.secret, b.name, Rest(b.lifetimeDays, b.accessMode, b.secret));
    var k := |b.name| - |Head(a)|;
    assert Shifted(a, k, b.lifetimeDays, b.accessMode, b.secret) == b;
    assert ReadsAsAnother(a, k, b.lifetimeDays, b.accessMode, b.secret);
  }

  /** In the name of `a`, behind a separator, begin the remaining fields of another request, which go on with those
      of `a`, and what is in front of them can be that request's name. */
  predicate NamesAnother(a: CreateInput, k: nat, days: int, mode: string, secret: string) {
    && k < |a.name| && a.name[k] == NUL
    && Rest(days, mode, secret) == a.name[k + 1..] + [NUL] + Rest(a.lifetimeDays, a.accessMode, a.secret)
    && Acceptable(CreateInput(a.name[..k], days, mode, secret))
  }

  ghost predicate Hiding(a: CreateInput) {
    exists k, days, mode, secret :: NamesAnother(a, k, days, mode, secret)
  }

  lemma HidingHasTwin(a: CreateInput, k: nat, days: int, mode: string, secret: string)
    requires NamesAnother(a, k, days, mode, secret)
    ensures
      var b := CreateInput(a.name[..k], days, mode, secret);
      Acceptable(b) && b != a && CreateText(b) == CreateText(a)
  {
    hide Acceptable, Rest;
    assert a.name == a.name[..k] + [NUL] + a.name[k + 1..];
    assert |a.name[..k]| < |a.name|;
  }

  lemma ShorterTwinIsHidden(a: CreateInput, b: CreateInput)
    requires Acceptable(a) && Acceptable(b) && |b.name| < |a.name| && CreateText(a) == CreateText(b)
    ensures Hiding(a)
  {
    hide Acceptable, Rest;
    var rest := Rest(b.lifetimeDays, b.accessMode, b.secret);
    TwoCuts(b.name, rest, a.name, Rest(a.lifetimeDays, a.accessMode, a.secret));
    var (k, gap) := (|b.name|, |a.name| - |b.name|);
    assert a.name == b.name + [NUL] + rest[..gap - 1];
    assert a.name[k + 1..] == rest[..gap - 1] && a.name[..k] == b.name;
    assert rest == rest[..gap - 1] + [rest[gap - 1]] + rest[gap..];
    assert NamesAnother(a, k, b.lifetimeDays, b.accessMode, b.secret);
  }

  /** An acceptable request shares its text with another one, and so can be taken for it, exactly when its secret
      spells out the rest of one or its name holds the beginning of that rest. */
  lemma CreateTextIsUniqueExactly(a: CreateInput)
    requires Acceptable(a)
    ensures (forall b :: Acceptable(b) && CreateText(b) == CreateText(a) ==> b == a) <==> !Ambiguous(a) && !Hiding(a)
  {
    hide Acceptable, CreateText, Rest, Head;
    if Ambiguous(a) {
      var k, days, mode, secret :| ReadsAsAnother(a, k, days, mode, secret);
      AmbiguousHasTwin(a, k, days, mode, secret);
    } else if Hiding(a) {
      var k, days, mode, secret :| NamesAnother(a, k, days, mode, secret);
      HidingHasTwin(a, k, days, mode, secret);
    } else {
      forall b | Acceptable(b) && CreateText(b) == CreateText(a)
        ensures b == a
      {
        if b != a {
          TwinShows(a, b);
          assert false;
        }
      }
    }
  }

  lemma TwinShows(a: CreateInput, b: CreateInput)
    requires Acceptable(a) && Acceptable(b) && CreateText(a) == CreateText(b) && a != b
    ensures Ambiguous(a) || Hiding(a)
  {
    hide Acceptable, CreateText, Ambiguous, Hiding;
    if |a.name| <= |b.name| {
      LongerTwinIsAmbiguous(a, b);
    } else {
      ShorterTwinIsHidden(a, b);
    }
  }

  /** Only a separator in the name can hide another request. */
  lemma NulFreeNamesHideNothing(a: CreateInput)
    requires NUL !in a.name
    ensures !Hiding(a)
  {
  }

  /** Two acceptable requests for different rooms with the same text: a one-day room "a" with a password that
      reads as a lifetime and a mode, and a public one whose name holds the rest. */
  lemma CreateTextCollides()
    ensures
      var a := CreateInput("a", 1, "password", "2" + [NUL] + ("public" + [NUL] + ""));
      var b := CreateInput("a" + [NUL] + "1" + [NUL] + "password", 2, "public", "");
      a != b && Acceptable(a) && Acceptable(b) && CreateText(a) == CreateText(b)
  {
    var a := CreateInput("a", 1, "password", "2" + [NUL] + ("public" + [NUL] + ""));
    var b := CreateInput("a" + [NUL] + "1" + [NUL] + "password", 2, "public", "");
    DaysText(1);
    DaysText(2);
    assert TrimSpace(a.name) == a.name && TrimSpace(b.name) == b.name;
    TextSplits(a);
    assert Head(a) == b.name;
  }
}
