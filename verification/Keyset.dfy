/** Paging by keyset: what a client sees that follows the cursors from page to page while rows come and go. */
module Keyset {
  import opened Basics
  import opened Cursor

  // ---- Rows from newest to oldest ----

  /** The row comparison (created_at, id) < (created_at, id). */
  predicate Before(a: Cursor, b: Cursor) {
    a.createdAt < b.createdAt || (a.createdAt == b.createdAt && a.id < b.id)
  }

  predicate IsNewest(p: Cursor, rows: set<Cursor>) {
    p in rows && forall q :: q in rows ==> q == p || Before(q, p)
  }

  lemma {:induction false} NewestExists(rows: set<Cursor>)
    requires rows != {}
    ensures exists p :: IsNewest(p, rows)
    decreases rows
  {
    var p :| p in rows;
    if rows - {p} == {} {
      assert rows == {p};
      assert IsNewest(p, rows);
    } else {
      NewestExists(rows - {p});
      var q :| IsNewest(q, rows - {p});
      var newest := if Before(q, p) then p else q;
      forall r | r in rows && r != newest
        ensures Before(r, newest)
      {
        assert r in rows - {p} || r == p;
      }
      assert IsNewest(newest, rows);
    }
  }

  function Newest(rows: set<Cursor>): (p: Cursor)
    requires rows != {}
    ensures IsNewest(p, rows)
  {
    NewestExists(rows);
    var p :| IsNewest(p, rows);
    p
  }

  /** ORDER BY created_at DESC, id DESC */
  function Descending(rows: set<Cursor>): (listing: seq<Cursor>)
    ensures |listing| == |rows|
    decreases |rows|
  {
    if rows == {} then [] else [Newest(rows)] + Descending(rows - {Newest(rows)})
  }

  /** Newest first; of rows of the same time, the one with the larger identifier first. */
  predicate StrictlyDescending(listing: seq<Cursor>) {
    forall i, j :: 0 <= i < j < |listing| ==>
      || listing[i].createdAt > listing[j].createdAt
      || (listing[i].createdAt == listing[j].createdAt && listing[i].id > listing[j].id)
  }

  lemma PutInFront(first: Cursor, rest: seq<Cursor>)
    requires StrictlyDescending(rest) && forall p :: p in rest ==> Before(p, first)
    ensures StrictlyDescending([first] + rest)
    ensures forall p :: p in [first] + rest <==> p == first || p in rest
  {
    var listing := [first] + rest;
    forall i, j | 0 <= i < j < |listing|
      ensures Before(listing[j], listing[i])
    {
      assert listing[j] == rest[j - 1] && rest[j - 1] in rest;
      assert i > 0 ==> listing[i] == rest[i - 1];
    }
  }

  lemma {:induction false} DescendingLists(rows: set<Cursor>)
    ensures forall p :: p in Descending(rows) <==> p in rows
    ensures StrictlyDescending(Descending(rows))
    decreases |rows|
  {
    if rows != {} {
      var (first, rest) := (Newest(rows), rows - {Newest(rows)});
      DescendingLists(rest);
      PutInFront(first, Descending(rest));
    }
  }

  /** Leaving out the newest row does not change what is before an older one. */
  lemma MatchingWithoutNewest(rows: set<Cursor>, last: Cursor)
    requires rows != {}
    ensures last == Newest(rows) ==> Matching(rows, Some(last)) == rows - {last}
    ensures Before(last, Newest(rows)) ==> Matching(rows, Some(last)) == Matching(rows - {Newest(rows)}, Some(last))
  {
  }

  /** Behind the first `k` rows come the rows that are before the last of those. */
  lemma {:induction false} DescendingTail(rows: set<Cursor>, k: nat)
    requires 1 <= k <= |rows|
    ensures
      var last := Descending(rows)[k - 1];
      Descending(rows)[k..] == Descending(Matching(rows, Some(last)))
    decreases k
  {
    hide Matching, StrictlyDescending, Descending, IsNewest;
    var (first, rest) := (Newest(rows), rows - {Newest(rows)});
    var last := Descending(rows)[k - 1];
    DescendingUnfolds(rows);
    MatchingWithoutNewest(rows, last);
    if k > 1 {
      assert last == Descending(rest)[k - 2];
      DescendingLists(rest);
      IsNotNewest(rows, last);
      DescendingTail(rest, k - 1);
      assert Descending(rows)[k..] == Descending(rest)[k - 1..];
    } else {
      assert last == first && Descending(rows)[k..] == Descending(rest);
    }
  }

  lemma DescendingUnfolds(rows: set<Cursor>)
    requires rows != {}
    ensures Descending(rows) == [Newest(rows)] + Descending(rows - {Newest(rows)})
  {
  }

  lemma IsNotNewest(rows: set<Cursor>, p: Cursor)
    requires rows != {} && p in rows - {Newest(rows)}
    ensures Before(p, Newest(rows))
  {
  }

  // ---- Pages ----

  /** The WHERE clause on a cursor. */
  function Matching(rows: set<Cursor>, cursor: Option<Cursor>): set<Cursor> {
    set p | p in rows && (cursor.Some? ==> Before(p, cursor.value))
  }

  function PageOf(rows: set<Cursor>, cursor: Option<Cursor>, limit: nat): seq<Cursor> {
    var listing := Descending(Matching(rows, cursor));
    if |listing| > limit then listing[..limit] else listing
  }

  predicate HasMore(rows: set<Cursor>, cursor: Option<Cursor>, limit: nat) {
    |Matching(rows, cursor)| > limit
  }

  lemma PageFacts(rows: set<Cursor>, cursor: Option<Cursor>, limit: nat)
    requires limit >= 1
    ensures
      var page := PageOf(rows, cursor, limit);
      && StrictlyDescending(page) && |page| <= limit
      && (forall p :: p in page ==> p in rows && (cursor.Some? ==> Before(p, cursor.value)))
      && (HasMore(rows, cursor, limit) ==> |page| == limit)
      && (forall p :: p in Matching(rows, cursor) && p !in page ==>
            HasMore(rows, cursor, limit) && Before(p, page[|page| - 1]))
  {
    var listing := Descending(Matching(rows, cursor));
    DescendingLists(Matching(rows, cursor));
    var page := PageOf(rows, cursor, limit);
    hide Descending;
    assert forall i :: 0 <= i < |page| ==> page[i] == listing[i] && listing[i] in listing;
    forall p | p in Matching(rows, cursor) && p !in page
      ensures HasMore(rows, cursor, limit) && Before(p, page[|page| - 1])
    {
      assert p in listing;
      var i :| 0 <= i < |listing| && listing[i] == p;
      assert i >= |page|;
    }
  }

  // ---- Following the cursors ----

  /** The cursor a request carries: absent, or as it decodes; the outer None is an invalid one. */
  function CursorOf(raw: string): Option<Option<Cursor>> {
    if raw == "" then Some(None)
    else
      match Decode(raw)
      case None => None
      case Some(c) => Some(Some(c))
  }

  /** The next_cursor of a page. */
  function NextCursor(page: seq<Cursor>, more: bool): Option<string> {
    if more && page != [] then Some(Encode(page[|page| - 1])) else None
  }

  /** The pages a client gets that starts with the cursor `raw` and follows next_cursor until has_more is false.
      `states[i]` holds the ready rows at the time of its request number `i`; it stops when they run out. */
  function Walk(states: seq<set<Cursor>>, raw: string, limit: nat): seq<seq<Cursor>>
    decreases |states|
  {
    match CursorOf(raw)
    case None => []
    case Some(cursor) =>
      if states == [] then []
      else
        var page := PageOf(states[0], cursor, limit);
        match NextCursor(page, HasMore(states[0], cursor, limit))
        case None => [page]
        case Some(next) => [page] + Walk(states[1..], next, limit)
  }

  /** The client reached a page with has_more false. */
  predicate Finishes(states: seq<set<Cursor>>, raw: string, limit: nat)
    decreases |states|
  {
    match CursorOf(raw)
    case None => false
    case Some(cursor) =>
      states != [] &&
      var page := PageOf(states[0], cursor, limit);
      match NextCursor(page, HasMore(states[0], cursor, limit))
      case None => true
      case Some(next) => Finishes(states[1..], next, limit)
  }

  function Flatten(pages: seq<seq<Cursor>>): seq<Cursor> {
    if pages == [] then [] else pages[0] + Flatten(pages[1..])
  }

  lemma FlattenFirst(page: seq<Cursor>, rest: seq<seq<Cursor>>)
    ensures Flatten([page] + rest) == page + Flatten(rest)
  {
    assert ([page] + rest)[1..] == rest;
  }

  /** A cursor the service handed out is accepted and means the row it was made from. */
  lemma HandedOutCursor(c: Cursor)
    ensures CursorOf(Encode(c)) == Some(Some(c))
  {
    CursorRoundTrip(c);
    assert Decode("") == None;
  }

  /** One more page, whatever comes of the rest. */
  lemma WalkStep(states: seq<set<Cursor>>, raw: string, limit: nat)
    requires limit >= 1 && states != [] && CursorOf(raw).Some?
    ensures
      var cursor := CursorOf(raw).value;
      var page := PageOf(states[0], cursor, limit);
      if HasMore(states[0], cursor, limit) then
        && page != []
        && var next := Encode(page[|page| - 1]);
        && CursorOf(next) == Some(Some(page[|page| - 1]))
        && Walk(states, raw, limit) == [page] + Walk(states[1..], next, limit)
        && Flatten(Walk(states, raw, limit)) == page + Flatten(Walk(states[1..], next, limit))
        && Finishes(states, raw, limit) == Finishes(states[1..], next, limit)
      else
        Walk(states, raw, limit) == [page] && Flatten(Walk(states, raw, limit)) == page && Finishes(states, raw, limit)
  {
    hide PageOf, HasMore, Encode, Decode, StrictlyDescending, Before, Matching;
    var cursor := CursorOf(raw).value;
    PageFacts(states[0], cursor, limit);
    var page := PageOf(states[0], cursor, limit);
    if HasMore(states[0], cursor, limit) {
      var next := Encode(page[|page| - 1]);
      HandedOutCursor(page[|page| - 1]);
      FlattenFirst(page, Walk(states[1..], next, limit));
    } else {
      FlattenFirst(page, []);
      assert page + [] == page;
    }
  }

  lemma WalkEnds(raw: string, limit: nat)
    ensures Walk([], raw, limit) == [] && Flatten([]) == [] && StrictlyDescending([])
  {
  }

  lemma BeforeIsTransitive()
    ensures forall a, b, c :: Before(a, b) && Before(b, c) ==> Before(a, c)
  {
  }

  /** Whatever happens to the rows between pages, a walk lists rows in strictly descending order, so none twice. */
  lemma {:induction false} WalkIsDescending(states: seq<set<Cursor>>, raw: string, limit: nat)
    requires limit >= 1 && CursorOf(raw).Some?
    ensures StrictlyDescending(Flatten(Walk(states, raw, limit)))
    ensures CursorOf(raw).value.Some? ==>
      forall p :: p in Flatten(Walk(states, raw, limit)) ==> Before(p, CursorOf(raw).value.value)
    decreases |states|
  {
    hide PageOf, HasMore, Walk, CursorOf, Flatten, Finishes, Encode, Decode, Before, StrictlyDescending;
    if states == [] {
      WalkEnds(raw, limit);
    } else {
      var cursor := CursorOf(raw).value;
      var page := PageOf(states[0], cursor, limit);
      PageFacts(states[0], cursor, limit);
      WalkStep(states, raw, limit);
      if HasMore(states[0], cursor, limit) {
        var next := Encode(page[|page| - 1]);
        BeforeIsTransitive();
        assert page[0] in page;
        WalkIsDescending(states[1..], next, limit);
        Joined(page, Flatten(Walk(states[1..], next, limit)));
      }
    }
  }

  lemma Joined(page: seq<Cursor>, rest: seq<Cursor>)
    requires StrictlyDescending(page) && StrictlyDescending(rest) && page != []
    requires forall p :: p in rest ==> Before(p, page[|page| - 1])
    ensures StrictlyDescending(page + rest)
    ensures forall p :: p in rest ==> Before(p, page[0])
  {
    var listing := page + rest;
    forall i, j | 0 <= i < j < |listing|
      ensures Before(listing[j], listing[i])
    {
      if j >= |page| {
        assert rest[j - |page|] in rest;
      }
    }
  }

  lemma PageIsReady(rows: set<Cursor>, cursor: Option<Cursor>, limit: nat)
    requires limit >= 1
    ensures forall p :: p in PageOf(rows, cursor, limit) ==> p in rows
  {
    hide PageOf, Before, StrictlyDescending;
    PageFacts(rows, cursor, limit);
  }

  lemma PagesOnTop(page: seq<Cursor>, rest: seq<seq<Cursor>>, states: seq<set<Cursor>>)
    requires states != [] && |rest| <= |states[1..]| && forall p :: p in page ==> p in states[0]
    requires forall i, p :: 0 <= i < |rest| && p in rest[i] ==> p in states[1..][i]
    ensures |[page] + rest| <= |states|
    ensures forall i, p :: 0 <= i < |[page] + rest| && p in ([page] + rest)[i] ==> p in states[i]
  {
    forall i, p | 0 <= i < |[page] + rest| && p in ([page] + rest)[i]
      ensures p in states[i]
    {
      if i > 0 {
        assert p in rest[i - 1] && states[1..][i - 1] == states[i];
      }
    }
  }

  /** Every page lists only rows that were ready when it was made. */
  lemma {:induction false} WalkShowsReadyRows(states: seq<set<Cursor>>, raw: string, limit: nat)
    requires limit >= 1
    ensures |Walk(states, raw, limit)| <= |states|
    ensures forall i, p :: 0 <= i < |Walk(states, raw, limit)| && p in Walk(states, raw, limit)[i] ==> p in states[i]
    decreases |states|
  {
    if states != [] && CursorOf(raw).Some? {
      hide PageOf, HasMore, Walk, CursorOf, Flatten, Finishes, Encode, Decode, Before, StrictlyDescending;
      var cursor := CursorOf(raw).value;
      var page := PageOf(states[0], cursor, limit);
      PageIsReady(states[0], cursor, limit);
      WalkStep(states, raw, limit);
      if HasMore(states[0], cursor, limit) {
        var next := Encode(page[|page| - 1]);
        WalkShowsReadyRows(states[1..], next, limit);
        PagesOnTop(page, Walk(states[1..], next, limit), states);
      }
    }
  }

  /** `p` is ready at each of the first `n` states. */
  predicate StaysReady(states: seq<set<Cursor>>, n: nat, p: Cursor) {
    forall i :: 0 <= i < n && i < |states| ==> p in states[i]
  }

  /** A row that is ready at every page is listed. */
  lemma {:induction false} WalkMissesNothing(states: seq<set<Cursor>>, raw: string, limit: nat, p: Cursor)
    requires limit >= 1 && Finishes(states, raw, limit)
    requires StaysReady(states, |Walk(states, raw, limit)|, p)
    requires CursorOf(raw).value.Some? ==> Before(p, CursorOf(raw).value.value)
    ensures p in Flatten(Walk(states, raw, limit))
    decreases |states|
  {
    hide PageOf, HasMore, Walk, CursorOf, Flatten, Before, StrictlyDescending, Encode, Decode;
    FinishesSomewhere(states, raw, limit);
    var cursor := CursorOf(raw).value;
    WalkStep(states, raw, limit);
    assert p in Matching(states[0], cursor) by {
      assert p in states[0];
    }
    hide Finishes, Matching, StaysReady;
    var page := PageOf(states[0], cursor, limit);
    PageFacts(states[0], cursor, limit);
    if HasMore(states[0], cursor, limit) && p !in page {
      var next := Encode(page[|page| - 1]);
      assert |Walk(states, raw, limit)| == 1 + |Walk(states[1..], next, limit)|;
      StaysReadyBehind(states, |Walk(states, raw, limit)|, p);
      WalkMissesNothing(states[1..], next, limit, p);
    }
  }

  lemma FinishesSomewhere(states: seq<set<Cursor>>, raw: string, limit: nat)
    requires Finishes(states, raw, limit)
    ensures states != [] && CursorOf(raw).Some?
  {
    hide CursorOf, PageOf, HasMore;
  }

  lemma StaysReadyBehind(states: seq<set<Cursor>>, n: nat, p: Cursor)
    requires states != [] && n > 0 && StaysReady(states, n, p)
    ensures StaysReady(states[1..], n - 1, p)
  {
    forall i | 0 <= i < n - 1 && i < |states[1..]|
      ensures p in states[1..][i]
    {
      assert p in states[i + 1];
    }
  }

  /** A walk from the first page to the last lists every row that stays ready throughout exactly once. */
  lemma StayingRowIsListedOnce(states: seq<set<Cursor>>, limit: nat, p: Cursor)
    requires limit >= 1 && Finishes(states, "", limit)
    requires StaysReady(states, |Walk(states, "", limit)|, p)
    ensures multiset(Flatten(Walk(states, "", limit)))[p] == 1
  {
    WalkMissesNothing(states, "", limit, p);
    WalkIsDescending(states, "", limit);
    hide Walk, Flatten, Finishes;
    DescendingIsOnce(Flatten(Walk(states, "", limit)), p);
  }

  lemma {:induction false} DescendingIsOnce(listing: seq<Cursor>, p: Cursor)
    requires StrictlyDescending(listing)
    ensures multiset(listing)[p] == if p in listing then 1 else 0
  {
    if listing != [] {
      assert listing == [listing[0]] + listing[1..];
      DescendingIsOnce(listing[1..], p);
      forall q | q in listing[1..]
        ensures q != listing[0]
      {
        var i :| 1 <= i < |listing| && listing[i] == q;
        assert Before(listing[i], listing[0]);
      }
    }
  }

  // ---- A set that does not change ----

  /** How many pages of `limit` rows it takes to list `n`; the first is there even if it is empty. */
  function PagesFor(n: nat, limit: nat): nat
    requires limit >= 1
  {
    if n <= limit then 1 else (n + limit - 1) / limit
  }

  lemma AtLeastOnce(k: int, d: nat)
    requires k >= 1
    ensures k * d >= d
  {
  }

  lemma QuotientIsUnique(n: int, d: int, q: int, r: int)
    requires 0 <= r < d && n == q * d + r
    ensures n / d == q
  {
    var (q', r') := (n / d, n % d);
    assert n == q' * d + r';
    assert q' * d - q * d == (q' - q) * d;
    assert (q - q') * d == q * d - q' * d;
    if q' > q {
      AtLeastOnce(q' - q, d);
    } else if q' < q {
      AtLeastOnce(q - q', d);
    }
  }

  lemma OnePageLess(n: nat, limit: nat)
    requires limit >= 1 && n > limit
    ensures PagesFor(n, limit) == 1 + PagesFor(n - limit, limit)
  {
    var m := n - 1;
    var (q, r) := (m / limit, m % limit);
    QuotientIsUnique(m + limit, limit, q + 1, r);
    QuotientIsUnique(m, limit, q, r);
    if n - limit <= limit {
      QuotientIsUnique(m, limit, 1, m - limit);
    }
  }

  lemma AtLeastOnePage(n: nat, limit: nat)
    requires limit >= 1
    ensures PagesFor(n, limit) >= 1
  {
    if n > limit {
      var (q, r) := ((n + limit - 1) / limit, (n + limit - 1) % limit);
      assert n + limit - 1 == q * limit + r;
    }
  }

  predicate AlwaysThese(states: seq<set<Cursor>>, rows: set<Cursor>) {
    forall i :: 0 <= i < |states| ==> states[i] == rows
  }

  /** Behind a row that was listed, only rows that were behind the cursor. */
  lemma MatchingBelow(rows: set<Cursor>, cursor: Option<Cursor>, last: Cursor)
    requires last in Matching(rows, cursor)
    ensures Matching(rows, Some(last)) == Matching(Matching(rows, cursor), Some(last))
  {
  }

  /** What a page leaves to the next ones, on a set that does not change. */
  lemma PageLeaves(rows: set<Cursor>, cursor: Option<Cursor>, limit: nat)
    requires limit >= 1 && HasMore(rows, cursor, limit)
    ensures
      var (here, page) := (Matching(rows, cursor), PageOf(rows, cursor, limit));
      && |page| == limit
      && var rest := Matching(rows, Some(page[|page| - 1]));
      && |rest| == |here| - limit && Descending(here) == page + Descending(rest)
  {
    hide Descending, StrictlyDescending, Before;
    var (here, page) := (Matching(rows, cursor), PageOf(rows, cursor, limit));
    var last := Descending(here)[limit - 1];
    assert page[limit - 1] == last;
    assert last in here by {
      DescendingLists(here);
      assert last in Descending(here);
    }
    MatchingBelow(rows, cursor, last);
    DescendingTail(here, limit);
  }

  /** The walk from `raw` gives the rows in order, in as few pages as the limit allows. */
  ghost predicate ListsAll(states: seq<set<Cursor>>, rows: set<Cursor>, raw: string, limit: nat)
    requires limit >= 1 && CursorOf(raw).Some?
  {
    var here := Matching(rows, CursorOf(raw).value);
    && (Finishes(states, raw, limit) <==> |states| >= PagesFor(|here|, limit))
    && (Finishes(states, raw, limit) ==>
          |Walk(states, raw, limit)| == PagesFor(|here|, limit) && Flatten(Walk(states, raw, limit)) == Descending(here))
  }

  lemma LastPage(states: seq<set<Cursor>>, rows: set<Cursor>, raw: string, limit: nat)
    requires limit >= 1 && CursorOf(raw).Some? && states != [] && states[0] == rows
    requires !HasMore(rows, CursorOf(raw).value, limit)
    ensures ListsAll(states, rows, raw, limit)
  {
    WalkStep(states, raw, limit);
    hide Walk, Flatten, Finishes, Matching, Descending, CursorOf;
  }

  lemma OtherPages(states: seq<set<Cursor>>, rows: set<Cursor>, raw: string, limit: nat)
    requires limit >= 1 && CursorOf(raw).Some? && states != [] && states[0] == rows
    requires HasMore(rows, CursorOf(raw).value, limit)
    ensures
      var page := PageOf(rows, CursorOf(raw).value, limit);
      && page != [] && CursorOf(Encode(page[|page| - 1])).Some?
      && (ListsAll(states[1..], rows, Encode(page[|page| - 1]), limit) ==> ListsAll(states, rows, raw, limit))
  {
    var cursor := CursorOf(raw).value;
    WalkStep(states, raw, limit);
    PageLeaves(rows, cursor, limit);
    OnePageLess(|Matching(rows, cursor)|, limit);
    hide PageOf, Walk, Flatten, Finishes, Matching, Descending, CursorOf, PagesFor, Encode;
  }

  /** On a set that does not change, a walk lists what there is from its cursor on. */
  lemma {:induction false} FixedWalk(states: seq<set<Cursor>>, rows: set<Cursor>, raw: string, limit: nat)
    requires limit >= 1 && AlwaysThese(states, rows) && CursorOf(raw).Some?
    ensures ListsAll(states, rows, raw, limit)
    decreases |states|
  {
    hide CursorOf, Encode, Decode, Descending, PageOf, HasMore;
    if states == [] {
      AtLeastOnePage(|Matching(rows, CursorOf(raw).value)|, limit);
      hide PagesFor, Matching;
    } else if HasMore(rows, CursorOf(raw).value, limit) {
      OtherPages(states, rows, raw, limit);
      hide ListsAll;
      var page := PageOf(rows, CursorOf(raw).value, limit);
      FixedWalk(states[1..], rows, Encode(page[|page| - 1]), limit);
    } else {
      LastPage(states, rows, raw, limit);
    }
  }

  /** On a fixed set of n rows the walk lists them all in order and ends after max(1, ceil(n / limit)) pages. */
  lemma FixedSetIsListed(k: nat, rows: set<Cursor>, limit: nat)
    requires limit >= 1
    ensures
      var states := seq(k, _ => rows);
      && (Finishes(states, "", limit) <==> k >= PagesFor(|rows|, limit))
      && (Finishes(states, "", limit) ==>
            |Walk(states, "", limit)| == PagesFor(|rows|, limit) && Flatten(Walk(states, "", limit)) == Descending(rows))
  {
    FixedWalk(seq(k, _ => rows), rows, "", limit);
    assert Matching(rows, None) == rows;
  }
}
