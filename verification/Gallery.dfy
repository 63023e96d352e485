/** The gallery endpoint, and what a client sees that pages through it while the room is in use. */
module Gallery {
  import opened Basics
  import opened Cursor
  import opened Decimal
  import opened Keyset
  import opened Schema
  import opened Transactions
  import opened LedgerInvariant
  import opened LedgerTransactions
  import opened UploadProtocol
  import opened UploadInvariant
  import opened UploadSteps
  import UploadTheorems

  datatype Item = Item(position: Cursor, row: Media, thumbnailUrl: Option<string>, canDelete: bool)

  datatype Page = Page(items: seq<Item>, nextCursor: Option<string>, hasMore: bool)

  // ---- One page ----

  predicate ReadyAt(media: map<Uuid, Media>, r: Uuid, m: Uuid) {
    m in media && media[m].room == r && media[m].status == Ready && MIN_INT64 <= media[m].createdAt <= MAX_INT64
  }

  /** The ready media of room `r` by creation time and identifier. */
  function ReadyRows(media: map<Uuid, Media>, r: Uuid): (rows: set<Cursor>)
    ensures forall p :: p in rows <==>
      && p.id in media && media[p.id].room == r && media[p.id].status == Ready
      && media[p.id].createdAt == p.createdAt && MIN_INT64 <= p.createdAt <= MAX_INT64
  {
    set m | m in media && ReadyAt(media, r, m) :: Cursor(media[m].createdAt, m)
  }

  ghost function RoomMembership(t: Tables, identity: Uuid, slug: string, now: Time): Result<(Uuid, Role), Error> {
    match RoomWithSlug(t, slug)
    case None => Err(RoomNotFound)
    case Some(r) =>
      if (r, identity) !in t.members then Err(NotMember)
      else if t.rooms[r].status != Active || t.rooms[r].expiresAt <= now then Err(RoomExpired)
      else Ok((r, t.members[(r, identity)]))
  }

  /** Who gets in, and why others do not. */
  lemma MembershipExactly(t: Tables, identity: Uuid, slug: string, now: Time)
    requires RoomsSound(t)
    ensures
      var answer := RoomMembership(t, identity, slug, now);
      && (answer == Err(RoomNotFound) <==> forall r :: r in t.rooms ==> t.rooms[r].slug != slug)
      && (answer.Ok? ==> answer.value.0 in t.rooms && t.rooms[answer.value.0].slug == slug)
      && (forall r :: r in t.rooms && t.rooms[r].slug == slug ==>
            && (answer == Err(NotMember) <==> (r, identity) !in t.members)
            && (answer == Err(RoomExpired) <==>
                  (r, identity) in t.members && (t.rooms[r].status == Deleting || t.rooms[r].expiresAt <= now))
            && (answer.Ok? <==> (r, identity) in t.members && t.rooms[r].status == Active && now < t.rooms[r].expiresAt)
            && (answer.Ok? ==> answer.value == (r, t.members[(r, identity)])))
  {
    if r :| r in t.rooms && t.rooms[r].slug == slug {
      SlugFindsOne(t, r, slug);
      OnlyRoom(t, r, slug);
      hide RoomsSound, RoomWithSlug;
    }
  }

  method FindMembership(t: Tables, identity: Uuid, slug: string, now: Time) returns (answer: Result<(Uuid, Role), Error>)
    requires RoomsSound(t)
    ensures answer == RoomMembership(t, identity, slug, now)
  {
    if r :| r in t.rooms && t.rooms[r].slug == slug {
      SlugFindsOne(t, r, slug);
      if (r, identity) !in t.members {
        return Err(NotMember);
      }
      if t.rooms[r].status != Active || t.rooms[r].expiresAt <= now {
        return Err(RoomExpired);
      }
      return Ok((r, t.members[(r, identity)]));
    }
    return Err(RoomNotFound);
  }

  /** The rows of the page query, one more than the page may hold. */
  function QueryRows(media: map<Uuid, Media>, r: Uuid, cursor: Option<Cursor>, limit: nat): (rows: seq<Cursor>)
    ensures |rows| <= limit + 1
    ensures forall i :: 0 <= i < |rows| ==> ReadyAt(media, r, rows[i].id)
  {
    var listing := Descending(Matching(ReadyRows(media, r), cursor));
    DescendingLists(Matching(ReadyRows(media, r), cursor));
    assert forall i :: 0 <= i < |listing| ==> listing[i] in listing;
    if |listing| > limit then listing[..limit + 1] else listing
  }

  /** The row needs a URL for its thumbnail and signing one failed. */
  predicate Unsigned(thumbnails: map<Uuid, ObjectKey>, urls: map<ObjectKey, string>, m: Uuid) {
    m in thumbnails && thumbnails[m] !in urls
  }

  predicate Shows(item: Item, p: Cursor, media: map<Uuid, Media>, thumbnails: map<Uuid, ObjectKey>,
                  urls: map<ObjectKey, string>, identity: Uuid, role: Role)
  {
    && item.position == p && p.id in media && item.row == media[p.id]
    && (item.canDelete <==> role == OwnerRole || media[p.id].uploader == identity)
    && (if p.id in thumbnails then thumbnails[p.id] in urls && item.thumbnailUrl == Some(urls[thumbnails[p.id]])
        else item.thumbnailUrl == None)
  }

  lemma ShownPosition(item: Item, p: Cursor, media: map<Uuid, Media>, thumbnails: map<Uuid, ObjectKey>,
                      urls: map<ObjectKey, string>, identity: Uuid, role: Role)
    requires Shows(item, p, media, thumbnails, urls, identity, role)
    ensures item.position == p
  {
  }

  /** The items for the rows of the query, in their order. */
  method ScanRows(rows: seq<Cursor>, media: map<Uuid, Media>, thumbnails: map<Uuid, ObjectKey>,
                  urls: map<ObjectKey, string>, identity: Uuid, role: Role)
    returns (answer: Result<seq<Item>, Error>)
    requires forall i :: 0 <= i < |rows| ==> rows[i].id in media
    ensures answer.Err? <==> exists i :: 0 <= i < |rows| && Unsigned(thumbnails, urls, rows[i].id)
    ensures answer.Err? ==> answer.error == StoreFailure
    ensures answer.Ok? ==>
      && |answer.value| == |rows|
      && forall i :: 0 <= i < |rows| ==> Shows(answer.value[i], rows[i], media, thumbnails, urls, identity, role)
  {
    var items := [];
    for i := 0 to |rows|
      invariant |items| == i
      invariant forall j :: 0 <= j < i ==> !Unsigned(thumbnails, urls, rows[j].id)
      invariant forall j :: 0 <= j < i ==> Shows(items[j], rows[j], media, thumbnails, urls, identity, role)
    {
      var m := rows[i].id;
      var url := None;
      if m in thumbnails {
        if thumbnails[m] !in urls {
          assert Unsigned(thumbnails, urls, rows[i].id);
          return Err(StoreFailure);
        }
        url := Some(urls[thumbnails[m]]);
      }
      items := items + [Item(rows[i], media[m], url, role == OwnerRole || media[m].uploader == identity)];
    }
    return Ok(items);
  }

  /** What a request for the ready media of room `r` behind `cursor` is answered: on success the page shows them
      from newest to oldest, says whether there are more, and points behind its last row. It fails when a URL for
      one of the rows it read could not be signed. */
  predicate Answers(answer: Result<Page, Error>, media: map<Uuid, Media>, thumbnails: map<Uuid, ObjectKey>,
                    urls: map<ObjectKey, string>, identity: Uuid, r: Uuid, role: Role, cursor: Option<Cursor>, limit: nat)
  {
    var (ready, queried) := (ReadyRows(media, r), QueryRows(media, r, cursor, limit));
    && (answer.Err? <==> exists i :: 0 <= i < |queried| && Unsigned(thumbnails, urls, queried[i].id))
    && (answer.Err? ==> answer.error == StoreFailure)
    && (answer.Ok? ==>
          && var shown := PageOf(ready, cursor, limit);
          && answer.value.hasMore == HasMore(ready, cursor, limit)
          && answer.value.nextCursor == NextCursor(shown, answer.value.hasMore)
          && |answer.value.items| == |shown|
          && forall i :: 0 <= i < |shown| ==> Shows(answer.value.items[i], shown[i], media, thumbnails, urls, identity, role))
  }

  lemma QueryIsPageAndMore(media: map<Uuid, Media>, r: Uuid, cursor: Option<Cursor>, limit: nat)
    ensures
      var (ready, rows) := (ReadyRows(media, r), QueryRows(media, r, cursor, limit));
      && PageOf(ready, cursor, limit) == (if |rows| > limit then rows[..limit] else rows)
      && (HasMore(ready, cursor, limit) <==> |rows| > limit)
  {
    hide Descending, ReadyRows;
  }

  method MakePage(media: map<Uuid, Media>, thumbnails: map<Uuid, ObjectKey>, urls: map<ObjectKey, string>,
                  identity: Uuid, r: Uuid, role: Role, cursor: Option<Cursor>, limit: nat)
    returns (answer: Result<Page, Error>)
    requires limit >= 1
    ensures Answers(answer, media, thumbnails, urls, identity, r, role, cursor, limit)
  {
    var rows := QueryRows(media, r, cursor, limit);
    QueryIsPageAndMore(media, r, cursor, limit);
    hide Shows, Unsigned, PageOf, QueryRows, Descending, Encode, ReadyRows, HasMore;
    var scanned := ScanRows(rows, media, thumbnails, urls, identity, role);
    if scanned.Err? {
      return Err(StoreFailure);
    }
    var items := scanned.value;
    var hasMore := |items| > limit;
    if hasMore {
      items := items[..limit];
    }
    var next := None;
    if hasMore && |items| > 0 {
      ShownPosition(items[limit - 1], rows[limit - 1], media, thumbnails, urls, identity, role);
      next := Some(Encode(items[|items| - 1].position));
    }
    return Ok(Page(items, next, hasMore));
  }

  /** One request to the gallery endpoint: a limit out of range, a room that is not there, not the caller's or no
      longer open, and a cursor that does not decode are refused, in this order; otherwise a page is made with the
      caller's role. `urls` holds the URLs that can be signed. */
  method ListPage(t: Tables, thumbnails: map<Uuid, ObjectKey>, urls: map<ObjectKey, string>,
                  identity: Uuid, slug: string, limit: int, raw: string, now: Time)
    returns (answer: Result<Page, Error>)
    requires RoomsSound(t)
    ensures !(1 <= limit <= 100) ==> answer == Err(InvalidInput)
    ensures 1 <= limit <= 100 && (forall r :: r in t.rooms ==> t.rooms[r].slug != slug) ==> answer == Err(RoomNotFound)
    ensures 1 <= limit <= 100 ==> forall r :: r in t.rooms && t.rooms[r].slug == slug ==>
      if (r, identity) !in t.members then answer == Err(NotMember)
      else if t.rooms[r].status == Deleting || t.rooms[r].expiresAt <= now then answer == Err(RoomExpired)
      else if CursorOf(raw).None? then answer == Err(InvalidInput)
      else Answers(answer, t.media, thumbnails, urls, identity, r, t.members[(r, identity)], CursorOf(raw).value, limit)
  {
    hide RoomsSound, RoomMembership, Answers, Decode;
    MembershipExactly(t, identity, slug, now);
    if limit < 1 || limit > 100 {
      return Err(InvalidInput);
    }
    var membership := FindMembership(t, identity, slug, now);
    if membership.Err? {
      return Err(membership.error);
    }
    var (r, role) := membership.value;
    OnlyRoom(t, r, slug);
    var cursor := None;
    if raw != "" {
      var parsed := Decode(raw);
      if parsed.None? {
        return Err(InvalidInput);
      }
      cursor := parsed;
    }
    answer := MakePage(t.media, thumbnails, urls, identity, r, role, cursor, limit);
  }

  // ---- Walks through a run ----

  /** The states in which the requests of a walk are served: `gaps[i]` happens between request i and i + 1. */
  ghost function Visited(w: World, gaps: seq<seq<Event>>): (worlds: seq<World>)
    ensures |worlds| == |gaps| + 1 && worlds[0] == w
    decreases |gaps|
  {
    if gaps == [] then [w] else [w] + Visited(Run(w, gaps[0]), gaps[1..])
  }

  lemma {:induction false} VisitedAreLater(w: World, gaps: seq<seq<Event>>, i: nat)
    requires WorldInv(w) && i <= |gaps|
    ensures
      var worlds := Visited(w, gaps);
      WorldInv(worlds[i]) && Later(w, worlds[i]) && WorldInv(worlds[|gaps|]) && Later(worlds[i], worlds[|gaps|])
    decreases |gaps|
  {
    hide WorldInv, Later;
    if gaps == [] {
      Idle(w);
    } else {
      var next := Run(w, gaps[0]);
      RunKeepsWorld(w, gaps[0]);
      VisitedAreLater(next, gaps[1..], if i == 0 then 0 else i - 1);
      LaterIsTransitive(w, next, Visited(w, gaps)[if i == 0 then |gaps| else i]);
      Idle(w);
    }
  }

  /** Media that is ready before and after was ready in between, at the same place in the order. */
  lemma ReadyInBetween(w: World, w1: World, w2: World, r: Uuid, p: Cursor)
    requires WorldInv(w) && WorldInv(w1) && Later(w, w1) && Later(w1, w2)
    requires p in ReadyRows(w.t.media, r) && p in ReadyRows(w2.t.media, r)
    ensures p in ReadyRows(w1.t.media, r)
  {
    var m := p.id;
    Parts(w);
    hide WorldInv, LedgerInv, ReadyRows;
    assert m in w1.t.media;
    assert MediaEvolves(w.t.media[m], w1.t.media[m]) && MediaEvolves(w1.t.media[m], w2.t.media[m]);
  }

  /** The rows the requests of a walk see. */
  ghost function ReadyStates(worlds: seq<World>, r: Uuid): seq<set<Cursor>> {
    seq(|worlds|, i requires 0 <= i < |worlds| => ReadyRows(worlds[i].t.media, r))
  }

  /** A client pages through a room's gallery while everyone else uploads, deletes and expires as they like. What is
      ready at its first request and still ready at its last it gets exactly once; nothing it gets twice; everything
      it gets was ready when it was listed; and the order is strictly from newest to oldest. */
  lemma GalleryWalk(w: World, gaps: seq<seq<Event>>, r: Uuid, limit: nat, p: Cursor)
    requires UploadTheorems.Reachable(w) && 1 <= limit <= 100
    requires
      var states := ReadyStates(Visited(w, gaps), r);
      Finishes(states, "", limit) && |Walk(states, "", limit)| == |states|
    ensures
      var states := ReadyStates(Visited(w, gaps), r);
      var pages := Walk(states, "", limit);
      && StrictlyDescending(Flatten(pages))
      && (forall i, q :: 0 <= i < |pages| && q in pages[i] ==> q in states[i])
      && (p in states[0] && p in states[|gaps|] ==> multiset(Flatten(pages))[p] == 1)
      && multiset(Flatten(pages))[p] <= 1
  {
    UploadTheorems.ReachableIsGood(w);
    var worlds := Visited(w, gaps);
    var states := ReadyStates(worlds, r);
    hide UploadTheorems.Reachable, WorldInv, Later, ReadyRows, Walk, Finishes, Flatten, StrictlyDescending;
    WalkIsDescending(states, "", limit);
    WalkShowsReadyRows(states, "", limit);
    DescendingIsOnce(Flatten(Walk(states, "", limit)), p);
    if p in states[0] && p in states[|gaps|] {
      forall i | 0 <= i < |states|
        ensures p in states[i]
      {
        VisitedAreLater(w, gaps, i);
        ReadyInBetween(w, worlds[i], worlds[|gaps|], r, p);
      }
      StayingRowIsListedOnce(states, limit, p);
    }
  }
}
