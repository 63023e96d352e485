/** The invariant of the reservation ledger, and that every transaction keeps it. */
module LedgerInvariant {
  import opened Basics
  import opened Decimal
  import opened InitiateRequest
  import opened Schema
  import opened SetSums
  import opened Transactions

  // ---- The invariant ----

  /** The states a session and its media can be in together. */
  predicate Linked(s: SessionStatus, m: MediaStatus) {
    match s
    case Initiated => m == Pending
    case Uploading => m == Pending
    case Completed => m == Ready || m == Deleted
    case Aborted => m == Failed || m == Deleted
    case Expired => m == Failed || m == Deleted
  }

  ghost predicate HasSession(t: Tables, m: Uuid) {
    exists s :: s in t.sessions && t.sessions[s].mediaId == m
  }

  ghost predicate HasLiveSession(t: Tables, m: Uuid) {
    exists s :: s in t.sessions && t.sessions[s].mediaId == m && t.sessions[s].status.Live()
  }

  predicate SoundSession(t: Tables, s: Uuid)
    requires s in t.sessions
  {
    var row := t.sessions[s];
    && row.mediaId in t.media
    && Linked(row.status, t.media[row.mediaId].status)
    && row.createdAt < row.expiresAt
    && t.media[row.mediaId].room in t.rooms
    && row.expiresAt <= t.rooms[t.media[row.mediaId].room].expiresAt
    && (row.kind.Multipart? <==> t.media[row.mediaId].sizeBytes > MULTIPART_THRESHOLD)
    && (row.kind.Multipart? ==>
        row.kind == Multipart(row.kind.storageUpload, MULTIPART_PART_SIZE,
                              (t.media[row.mediaId].sizeBytes + MULTIPART_PART_SIZE - 1) / MULTIPART_PART_SIZE))
  }

  ghost predicate SoundMedia(t: Tables, m: Uuid)
    requires m in t.media
  {
    var row := t.media[m];
    row.room in t.rooms && 0 < row.sizeBytes <= MAX_VIDEO_SIZE && row.key == Original(row.room, m) && HasSession(t, m)
  }

  ghost predicate SessionsSound(t: Tables) {
    forall s {:trigger SoundSession(t, s)} :: s in t.sessions ==> SoundSession(t, s)
  }

  ghost predicate MediaSound(t: Tables) {
    forall m {:trigger SoundMedia(t, m)} :: m in t.media ==> SoundMedia(t, m)
  }

  predicate Apart(t: Tables, s: Uuid, s': Uuid)
    requires s in t.sessions && s' in t.sessions
  {
    var (a, b) := (t.sessions[s], t.sessions[s']);
    a.mediaId != b.mediaId && (a.identity, a.idempotencyKey) != (b.identity, b.idempotencyKey)
  }

  /** The unique indexes on sessions. */
  ghost predicate SessionsUnique(t: Tables) {
    forall s, s' {:trigger Apart(t, s, s')} :: s in t.sessions && s' in t.sessions && s != s' ==> Apart(t, s, s')
  }

  predicate SlugsApart(t: Tables, r: Uuid, r': Uuid)
    requires r in t.rooms && r' in t.rooms
  {
    t.rooms[r].slug != t.rooms[r'].slug
  }

  /** The unique index on slugs; members only of rooms that exist; and who created a room is its only owner. */
  ghost predicate RoomsSound(t: Tables) {
    && (forall r, r' {:trigger SlugsApart(t, r, r')} :: r in t.rooms && r' in t.rooms && r != r' ==> SlugsApart(t, r, r'))
    && (forall k :: k in t.members ==> k.0 in t.rooms && (t.members[k] == OwnerRole <==> t.rooms[k.0].owner == k.1))
    && (forall r :: r in t.rooms ==> (r, t.rooms[r].owner) in t.members)
  }

  /** Referential integrity, the unique indexes, and the agreement of session and media status. */
  ghost predicate Sound(t: Tables) {
    SessionsSound(t) && MediaSound(t) && SessionsUnique(t) && RoomsSound(t)
  }

  ghost function Sizes(media: map<Uuid, Media>): (sizes: map<Uuid, int>)
    ensures sizes.Keys == media.Keys
  {
    map m | m in media :: media[m].sizeBytes
  }

  /** The media of room `r` with status `status`. */
  ghost function MediaIn(media: map<Uuid, Media>, r: Uuid, status: MediaStatus): (ids: set<Uuid>)
    ensures ids <= media.Keys
  {
    set m | m in media && media[m].room == r && media[m].status == status
  }

  /** The media of room `r` whose reservation is held by a live session. */
  ghost function LiveMedia(t: Tables, r: Uuid): (ids: set<Uuid>)
    ensures ids <= t.media.Keys
  {
    set m | m in t.media && t.media[m].room == r && HasLiveSession(t, m)
  }

  ghost function Bytes(media: map<Uuid, Media>, ids: set<Uuid>): int
    requires ids <= media.Keys
  {
    Total(ids, Sizes(media))
  }

  /** The counters of room `r` agree with its rows. */
  ghost predicate RoomBalanced(t: Tables, r: Uuid)
    requires r in t.rooms
  {
    var room := t.rooms[r];
    && room.reservedFiles == |MediaIn(t.media, r, Pending)| && room.reservedBytes == Bytes(t.media, MediaIn(t.media, r, Pending))
    && room.usedFiles == |MediaIn(t.media, r, Ready)| && room.usedBytes == Bytes(t.media, MediaIn(t.media, r, Ready))
  }

  ghost predicate GoodRoom(t: Tables, r: Uuid)
    requires r in t.rooms
  {
    && RoomBalanced(t, r)
    && RoomChecks(t.rooms[r])
    && BoundedLimits(t.rooms[r].maxFiles, t.rooms[r].maxBytes)
  }

  ghost predicate LedgerInv(t: Tables) {
    Sound(t) && forall r {:trigger GoodRoom(t, r)} :: r in t.rooms ==> GoodRoom(t, r)
  }

  /** A session is live exactly when its media is pending, so the pending media are the live ones. */
  lemma LiveIsPending(t: Tables, r: Uuid)
    requires Sound(t)
    ensures LiveMedia(t, r) == MediaIn(t.media, r, Pending)
    ensures forall s :: s in t.sessions ==>
      t.sessions[s].mediaId in t.media
      && (t.sessions[s].status.Live() <==> t.media[t.sessions[s].mediaId].status == Pending)
  {
    forall s | s in t.sessions
      ensures t.sessions[s].mediaId in t.media
      ensures t.sessions[s].status.Live() <==> t.media[t.sessions[s].mediaId].status == Pending
    {
      assert SoundSession(t, s);
    }
    forall m | m in t.media
      ensures HasLiveSession(t, m) <==> t.media[m].status == Pending
    {
      assert SoundMedia(t, m);
      var s :| s in t.sessions && t.sessions[s].mediaId == m;
      if HasLiveSession(t, m) {
        var s' :| s' in t.sessions && t.sessions[s'].mediaId == m && t.sessions[s'].status.Live();
        assert s' != s ==> Apart(t, s', s);
      }
    }
  }

  // ---- Histories ----

  /** Media only move away from pending, and then only to deleted. */
  predicate MediaMoves(a: MediaStatus, b: MediaStatus) {
    a == b || a == Pending || (b == Deleted && (a == Ready || a == Failed))
  }

  predicate SessionMoves(a: SessionStatus, b: SessionStatus) {
    a == b || (a.Live() && b != Initiated)
  }

  predicate SessionEvolves(a: Session, b: Session) {
    b == a.(status := b.status) && SessionMoves(a.status, b.status)
  }

  predicate MediaEvolves(a: Media, b: Media) {
    b == a.(status := b.status) && MediaMoves(a.status, b.status)
  }

  predicate RoomEvolves(a: Room, b: Room) {
    && (a.slug, a.owner, a.maxFiles, a.maxBytes, a.createdAt, a.expiresAt)
       == (b.slug, b.owner, b.maxFiles, b.maxBytes, b.createdAt, b.expiresAt)
    && (a.status == Deleting ==> b.status == Deleting)
  }

  /** What every transaction does to the rows that are there: the rest of a row is fixed, statuses only
      advance, and a session or media row goes away only together with its room, which was being deleted. */
  ghost predicate Evolves(t: Tables, t': Tables) {
    && (forall s :: s in t.sessions && s in t'.sessions ==> SessionEvolves(t.sessions[s], t'.sessions[s]))
    && (forall m :: m in t.media && m in t'.media ==> MediaEvolves(t.media[m], t'.media[m]))
    && (forall r :: r in t.rooms && r in t'.rooms ==> RoomEvolves(t.rooms[r], t'.rooms[r]))
    && (forall m :: m in t.media && m !in t'.media ==> t.media[m].room !in t'.rooms)
    && (forall s :: s in t.sessions && s !in t'.sessions ==>
          t.sessions[s].mediaId in t.media && t.sessions[s].mediaId !in t'.media)
  }

  /** Every row of `t'` was there in `t` or has an identifier from `ids`; new sessions are live, and new media
      belong to rooms that are active. */
  ghost predicate AddsOnly(t: Tables, t': Tables, ids: set<Uuid>) {
    && (forall s :: s in t'.sessions && s !in t.sessions ==> t'.sessions[s].status.Live())
    && (forall m :: m in t'.media && m !in t.media ==>
          t'.media[m].room in t.rooms && t.rooms[t'.media[m].room].status == Active)
    && t'.sessions.Keys <= t.sessions.Keys + ids
    && t'.media.Keys <= t.media.Keys + ids
    && t'.rooms.Keys <= t.rooms.Keys + ids
  }

  /** Sessions and media fit together and media fit into rooms. */
  ghost predicate Coupled(t: Tables) {
    && (forall s :: s in t.sessions ==>
          t.sessions[s].mediaId in t.media && Linked(t.sessions[s].status, t.media[t.sessions[s].mediaId].status))
    && (forall m :: m in t.media ==> t.media[m].room in t.rooms)
  }

  lemma SoundIsCoupled(t: Tables)
    requires SessionsSound(t) && MediaSound(t)
    ensures Coupled(t)
  {
    forall s | s in t.sessions
      ensures t.sessions[s].mediaId in t.media && Linked(t.sessions[s].status, t.media[t.sessions[s].mediaId].status)
    {
      assert SoundSession(t, s);
    }
    forall m | m in t.media
      ensures t.media[m].room in t.rooms
    {
      assert SoundMedia(t, m);
    }
  }

  lemma FitKeepsSessions(t: Tables, t': Tables)
    requires SessionsSound(t) && SessionsUnique(t) && Evolves(t, t') && Coupled(t')
    requires t'.sessions.Keys <= t.sessions.Keys
    ensures SessionsSound(t') && SessionsUnique(t')
  {
    forall s | s in t'.sessions
      ensures SoundSession(t', s)
    {
      assert SoundSession(t, s);
    }
    forall x, y | x in t'.sessions && y in t'.sessions && x != y
      ensures Apart(t', x, y)
    {
      assert Apart(t, x, y);
    }
  }

  lemma FitKeepsMedia(t: Tables, t': Tables)
    requires MediaSound(t) && Evolves(t, t') && Coupled(t')
    requires t'.media.Keys <= t.media.Keys
    ensures MediaSound(t')
  {
    forall m | m in t'.media
      ensures SoundMedia(t', m)
    {
      assert SoundMedia(t, m);
      SameSession(t, t', m);
    }
  }

  lemma SameSession(t: Tables, t': Tables, m: Uuid)
    requires HasSession(t, m)
    requires forall s :: s in t.sessions && t.sessions[s].mediaId == m ==> s in t'.sessions && t'.sessions[s].mediaId == m
    ensures HasSession(t', m)
  {
    var s :| s in t.sessions && t.sessions[s].mediaId == m;
    assert s in t'.sessions && t'.sessions[s].mediaId == m;
  }

  /** Rows that only evolve, and still fit together, stay sound. */
  lemma FitKeepsSound(t: Tables, t': Tables)
    requires Sound(t) && Evolves(t, t') && Coupled(t') && RoomsSound(t')
    requires t'.sessions.Keys <= t.sessions.Keys && t'.media.Keys <= t.media.Keys
    ensures Sound(t')
  {
    FitKeepsSessions(t, t');
    FitKeepsMedia(t, t');
  }

  // ---- How the folds change ----

  function Indicator(b: bool, n: int): int {
    if b then n else 0
  }

  /** `after` is `before` with row `m` taken out or put in, or unchanged. */
  lemma FoldChange(before: set<Uuid>, after: set<Uuid>, sizes: map<Uuid, int>, sizes': map<Uuid, int>, m: Uuid,
                   enters: bool, leaves: bool)
    requires before <= sizes.Keys && after <= sizes'.Keys && m in sizes'
    requires forall k :: k in before && k in sizes' ==> sizes[k] == sizes'[k]
    requires before <= sizes'.Keys
    requires !(enters && leaves)
    requires if enters then m !in before && after == before + {m}
             else if leaves then m in before && after == before - {m} else after == before
    ensures |after| == |before| + Indicator(enters, 1) - Indicator(leaves, 1)
    ensures Total(after, sizes') == Total(before, sizes) + Indicator(enters, sizes'[m]) - Indicator(leaves, sizes'[m])
  {
    TotalFrame(before, sizes, sizes');
    if enters {
      TotalInsert(before, sizes', m);
    } else if leaves {
      TotalRemove(before, sizes', m);
    }
  }

  lemma MoveSets(media: map<Uuid, Media>, m: Uuid, to: MediaStatus, r: Uuid, status: MediaStatus)
    requires m in media && media[m].status != to
    ensures
      var before, after := MediaIn(media, r, status), MediaIn(media[m := media[m].(status := to)], r, status);
      if media[m].room == r && status == to then m !in before && after == before + {m}
      else if media[m].room == r && status == media[m].status then m in before && after == before - {m}
      else after == before
  {
  }

  lemma MoveOne(media: map<Uuid, Media>, media': map<Uuid, Media>, m: Uuid, to: MediaStatus, r: Uuid, status: MediaStatus)
    requires m in media && media[m].status != to && media' == media[m := media[m].(status := to)]
    ensures
      var enters := media[m].room == r && status == to;
      var leaves := media[m].room == r && status == media[m].status;
      var size := media[m].sizeBytes;
      && |MediaIn(media', r, status)| == |MediaIn(media, r, status)| + Indicator(enters, 1) - Indicator(leaves, 1)
      && Bytes(media', MediaIn(media', r, status)) == Bytes(media, MediaIn(media, r, status))
           + Indicator(enters, size) - Indicator(leaves, size)
  {
    var enters := media[m].room == r && status == to;
    var leaves := media[m].room == r && status == media[m].status;
    var before, after := MediaIn(media, r, status), MediaIn(media', r, status);
    MoveSets(media, m, to, r, status);
    FoldChange(before, after, Sizes(media), Sizes(media'), m, enters, leaves);
  }

  lemma AddOne(media: map<Uuid, Media>, m: Uuid, row: Media, r: Uuid, status: MediaStatus)
    requires m !in media
    ensures
      var media' := media[m := row];
      var enters := row.room == r && row.status == status;
      && |MediaIn(media', r, status)| == |MediaIn(media, r, status)| + Indicator(enters, 1)
      && Bytes(media', MediaIn(media', r, status)) == Bytes(media, MediaIn(media, r, status)) + Indicator(enters, row.sizeBytes)
  {
    var media' := media[m := row];
    var enters := row.room == r && row.status == status;
    var before, after := MediaIn(media, r, status), MediaIn(media', r, status);
    assert after == if enters then before + {m} else before;
    FoldChange(before, after, Sizes(media), Sizes(media'), m, enters, false);
  }

  /** Room `r` has the same media rows in both tables. */
  lemma SameFolds(media: map<Uuid, Media>, media': map<Uuid, Media>, r: Uuid, status: MediaStatus)
    requires forall m :: m in media && media[m].room == r ==> m in media' && media'[m] == media[m]
    requires forall m :: m in media' && media'[m].room == r ==> m in media && media'[m] == media[m]
    ensures MediaIn(media', r, status) == MediaIn(media, r, status)
    ensures Bytes(media', MediaIn(media', r, status)) == Bytes(media, MediaIn(media, r, status))
  {
    assert MediaIn(media', r, status) == MediaIn(media, r, status);
    TotalFrame(MediaIn(media, r, status), Sizes(media), Sizes(media'));
  }

  lemma BytesAreNonNegative(media: map<Uuid, Media>, r: Uuid, status: MediaStatus)
    requires forall m :: m in media && media[m].room == r ==> media[m].sizeBytes > 0
    ensures Bytes(media, MediaIn(media, r, status)) >= 0
  {
    TotalBounds(MediaIn(media, r, status), Sizes(media));
  }

  // ---- Ending a live session ----

  /** The room row after its media `m` stopped being pending. */
  function Discharged(room: Room, size: int, mediaStatus: MediaStatus): Room {
    room.(reservedFiles := room.reservedFiles - 1, reservedBytes := room.reservedBytes - size,
          usedFiles := room.usedFiles + Indicator(mediaStatus == Ready, 1),
          usedBytes := room.usedBytes + Indicator(mediaStatus == Ready, size))
  }

  /** `t'` is `t` with live session `s` ended and its media and room changed to match. */
  ghost predicate Ends(t: Tables, t': Tables, s: Uuid, sessionStatus: SessionStatus, mediaStatus: MediaStatus) {
    && s in t.sessions && t.sessions[s].status.Live() && !sessionStatus.Live() && Linked(sessionStatus, mediaStatus)
    && var m := t.sessions[s].mediaId;
    && m in t.media
    && var r := t.media[m].room;
    && r in t.rooms
    && t' == Tables(
        t.rooms[r := Discharged(t.rooms[r], t.media[m].sizeBytes, mediaStatus)],
        t.media[m := t.media[m].(status := mediaStatus)],
        t.sessions[s := t.sessions[s].(status := sessionStatus)],
        t.members)
  }

  lemma EndMovesSessions(t: Tables, t': Tables, s: Uuid, sessionStatus: SessionStatus, mediaStatus: MediaStatus)
    requires Ends(t, t', s, sessionStatus, mediaStatus)
    ensures t'.sessions.Keys == t.sessions.Keys && forall x :: x in t.sessions ==> SessionEvolves(t.sessions[x], t'.sessions[x])
  {
  }

  lemma EndMovesMedia(t: Tables, t': Tables, s: Uuid, sessionStatus: SessionStatus, mediaStatus: MediaStatus)
    requires Coupled(t) && Ends(t, t', s, sessionStatus, mediaStatus)
    ensures t'.media.Keys == t.media.Keys && forall x :: x in t.media ==> MediaEvolves(t.media[x], t'.media[x])
  {
  }

  lemma EndMovesRooms(t: Tables, t': Tables, s: Uuid, sessionStatus: SessionStatus, mediaStatus: MediaStatus)
    requires Ends(t, t', s, sessionStatus, mediaStatus)
    ensures t'.rooms.Keys == t.rooms.Keys && forall x :: x in t.rooms ==> RoomEvolves(t.rooms[x], t'.rooms[x])
  {
  }

  lemma EndEvolves(t: Tables, t': Tables, s: Uuid, sessionStatus: SessionStatus, mediaStatus: MediaStatus)
    requires Coupled(t) && Ends(t, t', s, sessionStatus, mediaStatus)
    ensures Evolves(t, t') && AddsOnly(t, t', {})
  {
    hide Ends, Coupled, SessionEvolves, MediaEvolves, RoomEvolves;
    EndMovesSessions(t, t', s, sessionStatus, mediaStatus);
    EndMovesMedia(t, t', s, sessionStatus, mediaStatus);
    EndMovesRooms(t, t', s, sessionStatus, mediaStatus);
  }

  lemma EndCoupled(t: Tables, t': Tables, s: Uuid, sessionStatus: SessionStatus, mediaStatus: MediaStatus)
    requires Coupled(t) && SessionsUnique(t) && Ends(t, t', s, sessionStatus, mediaStatus)
    ensures Coupled(t')
  {
    forall x | x in t'.sessions && x != s
      ensures t'.sessions[x].mediaId != t.sessions[s].mediaId
    {
      assert Apart(t, x, s);
    }
  }

  /** The same rooms with the same slugs and owners, and the same members. */
  lemma SameSlugs(t: Tables, t': Tables)
    requires RoomsSound(t) && t'.members == t.members && t'.rooms.Keys == t.rooms.Keys
    requires forall r :: r in t.rooms ==> t'.rooms[r].slug == t.rooms[r].slug && t'.rooms[r].owner == t.rooms[r].owner
    ensures RoomsSound(t')
  {
    forall r, r' | r in t'.rooms && r' in t'.rooms && r != r'
      ensures SlugsApart(t', r, r')
    {
      assert SlugsApart(t, r, r');
    }
  }

  lemma EndKeepsRoom(t: Tables, t': Tables, s: Uuid, sessionStatus: SessionStatus, mediaStatus: MediaStatus, r: Uuid)
    requires LedgerInv(t) && Ends(t, t', s, sessionStatus, mediaStatus) && r in t'.rooms
    ensures GoodRoom(t', r)
  {
    var m := t.sessions[s].mediaId;
    assert SoundSession(t, s) && SoundMedia(t, m) && GoodRoom(t, r);
    forall x | x in t'.media
      ensures t'.media[x].sizeBytes > 0
    {
      assert SoundMedia(t, x);
    }
    MoveOne(t.media, t'.media, m, mediaStatus, r, Pending);
    MoveOne(t.media, t'.media, m, mediaStatus, r, Ready);
    BytesAreNonNegative(t'.media, r, Pending);
    BytesAreNonNegative(t'.media, r, Ready);
  }

  lemma EndKeepsRows(t: Tables, t': Tables, s: Uuid, sessionStatus: SessionStatus, mediaStatus: MediaStatus)
    requires Ends(t, t', s, sessionStatus, mediaStatus)
    ensures t'.sessions.Keys == t.sessions.Keys && t'.media.Keys == t.media.Keys && t'.rooms.Keys == t.rooms.Keys
    ensures t'.members == t.members
    ensures forall r :: r in t.rooms ==> t'.rooms[r].slug == t.rooms[r].slug && t'.rooms[r].owner == t.rooms[r].owner
  {
  }

  lemma EndKeepsSound(t: Tables, t': Tables, s: Uuid, sessionStatus: SessionStatus, mediaStatus: MediaStatus)
    requires Sound(t) && Ends(t, t', s, sessionStatus, mediaStatus)
    ensures Sound(t') && Evolves(t, t') && AddsOnly(t, t', {})
  {
    EndKeepsRows(t, t', s, sessionStatus, mediaStatus);
    hide Evolves, AddsOnly, Ends, Coupled, RoomsSound, SessionsSound, MediaSound, SessionsUnique;
    SoundIsCoupled(t);
    EndEvolves(t, t', s, sessionStatus, mediaStatus);
    EndCoupled(t, t', s, sessionStatus, mediaStatus);
    SameSlugs(t, t');
    FitKeepsSound(t, t');
  }

  /** Ending a session, whichever transaction does it, keeps the ledger. */
  lemma EndKeepsLedger(t: Tables, t': Tables, s: Uuid, sessionStatus: SessionStatus, mediaStatus: MediaStatus)
    requires LedgerInv(t) && Ends(t, t', s, sessionStatus, mediaStatus)
    ensures LedgerInv(t') && Evolves(t, t') && AddsOnly(t, t', {})
  {
    EndKeepsSound(t, t', s, sessionStatus, mediaStatus);
    hide Sound, Evolves, AddsOnly, Ends, GoodRoom;
    forall r | r in t'.rooms
      ensures GoodRoom(t', r)
    {
      EndKeepsRoom(t, t', s, sessionStatus, mediaStatus, r);
    }
  }

  // ---- Taking a reservation ----

  /** `t'` is `t` with media `m`, its session `s` and one reservation in room `r` added. */
  ghost predicate Reserves(t: Tables, t': Tables, r: Uuid, m: Uuid, s: Uuid, row: Media, session: Session) {
    && r in t.rooms && t.rooms[r].status == Active && m !in t.media && s !in t.sessions
    && row.room == r && row.status == Pending && 0 < row.sizeBytes <= MAX_VIDEO_SIZE && row.key == Original(r, m)
    && session.mediaId == m && session.status == Initiated
    && t' == Tables(
        t.rooms[r := t.rooms[r].(reservedFiles := t.rooms[r].reservedFiles + 1,
                                 reservedBytes := t.rooms[r].reservedBytes + row.sizeBytes)],
        t.media[m := row], t.sessions[s := session], t.members)
  }

  lemma ReserveKeepsSessions(t: Tables, t': Tables, r: Uuid, m: Uuid, s: Uuid, row: Media, session: Session)
    requires Sound(t) && Reserves(t, t', r, m, s, row, session) && SoundSession(t', s)
    requires forall x :: HasKey(t, x, session.identity, session.idempotencyKey) ==> false
    ensures SessionsSound(t') && SessionsUnique(t')
  {
    forall x | x in t.sessions
      ensures SoundSession(t', x) && Apart(t', x, s) && Apart(t', s, x)
    {
      assert SoundSession(t, x);
      assert !HasKey(t, x, session.identity, session.idempotencyKey);
    }
    forall x, y | x in t'.sessions && y in t'.sessions && x != y
      ensures Apart(t', x, y)
    {
      assert x != s && y != s ==> Apart(t, x, y);
    }
  }

  lemma ReserveEvolves(t: Tables, t': Tables, r: Uuid, m: Uuid, s: Uuid, row: Media, session: Session)
    requires Reserves(t, t', r, m, s, row, session)
    ensures Evolves(t, t') && AddsOnly(t, t', {m, s})
  {
  }

  lemma ReserveKeepsMedia(t: Tables, t': Tables, r: Uuid, m: Uuid, s: Uuid, row: Media, session: Session)
    requires Sound(t) && Reserves(t, t', r, m, s, row, session)
    ensures MediaSound(t')
  {
    forall x | x in t'.media
      ensures SoundMedia(t', x)
    {
      if x == m {
        assert s in t'.sessions && t'.sessions[s].mediaId == m;
      } else {
        assert SoundMedia(t, x);
        SameSession(t, t', x);
      }
    }
  }

  lemma ReserveKeepsRoom(t: Tables, t': Tables, r: Uuid, m: Uuid, s: Uuid, row: Media, session: Session, x: Uuid)
    requires LedgerInv(t) && Reserves(t, t', r, m, s, row, session) && x in t'.rooms
    requires !LimitReached(t.rooms[r], row.sizeBytes)
    ensures GoodRoom(t', x)
  {
    assert GoodRoom(t, x) && GoodRoom(t, r);
    AddOne(t.media, m, row, x, Pending);
    AddOne(t.media, m, row, x, Ready);
  }

  lemma ReserveKeepsLedger(t: Tables, t': Tables, r: Uuid, m: Uuid, s: Uuid, row: Media, session: Session)
    requires LedgerInv(t) && Reserves(t, t', r, m, s, row, session) && SoundSession(t', s)
    requires forall x :: HasKey(t, x, session.identity, session.idempotencyKey) ==> false
    requires !LimitReached(t.rooms[r], row.sizeBytes)
    ensures LedgerInv(t') && Evolves(t, t') && AddsOnly(t, t', {m, s})
  {
    ReserveKeepsSessions(t, t', r, m, s, row, session);
    ReserveKeepsMedia(t, t', r, m, s, row, session);
    ReserveEvolves(t, t', r, m, s, row, session);
    SameSlugs(t, t');
    forall x | x in t'.rooms
      ensures GoodRoom(t', x)
    {
      ReserveKeepsRoom(t, t', r, m, s, row, session, x);
    }
  }

  // ---- Deleting media ----

  /** `t'` is `t` with ready or failed media `m` deleted, and discharged from its room if it was ready. */
  ghost predicate Deletes(t: Tables, t': Tables, m: Uuid) {
    && m in t.media && (t.media[m].status == Ready || t.media[m].status == Failed)
    && var r := t.media[m].room;
    && r in t.rooms
    && var wasReady := t.media[m].status == Ready;
    && t' == t.(
        media := t.media[m := t.media[m].(status := Deleted)],
        rooms := t.rooms[r := t.rooms[r].(
          usedFiles := t.rooms[r].usedFiles - Indicator(wasReady, 1),
          usedBytes := t.rooms[r].usedBytes - Indicator(wasReady, t.media[m].sizeBytes))])
  }

  lemma DeleteEvolves(t: Tables, t': Tables, m: Uuid)
    requires Deletes(t, t', m)
    ensures Evolves(t, t') && AddsOnly(t, t', {})
  {
  }

  lemma DeleteCoupled(t: Tables, t': Tables, m: Uuid)
    requires Coupled(t) && Deletes(t, t', m)
    ensures Coupled(t')
  {
  }

  lemma DeleteKeepsRoom(t: Tables, t': Tables, m: Uuid, r: Uuid)
    requires LedgerInv(t) && Deletes(t, t', m) && r in t'.rooms
    ensures GoodRoom(t', r)
  {
    assert SoundMedia(t, m) && GoodRoom(t, r);
    forall x | x in t'.media
      ensures t'.media[x].sizeBytes > 0
    {
      assert SoundMedia(t, x);
    }
    MoveOne(t.media, t'.media, m, Deleted, r, Pending);
    MoveOne(t.media, t'.media, m, Deleted, r, Ready);
    BytesAreNonNegative(t'.media, r, Ready);
  }

  lemma DeleteKeepsLedger(t: Tables, t': Tables, m: Uuid)
    requires LedgerInv(t) && Deletes(t, t', m)
    ensures LedgerInv(t') && Evolves(t, t') && AddsOnly(t, t', {})
  {
    SoundIsCoupled(t);
    DeleteEvolves(t, t', m);
    DeleteCoupled(t, t', m);
    SameSlugs(t, t');
    FitKeepsSound(t, t');
    forall r | r in t'.rooms
      ensures GoodRoom(t', r)
    {
      DeleteKeepsRoom(t, t', m, r);
    }
  }

  // ---- Rooms ----

  /** `t'` differs from `t` in room flags, in members of rooms that exist, or by a live session's move to uploading. */
  ghost predicate Relabels(t: Tables, t': Tables) {
    && t'.media == t.media
    && t'.rooms.Keys == t.rooms.Keys && t'.sessions.Keys == t.sessions.Keys
    && (forall r :: r in t.rooms ==>
          t'.rooms[r] == t.rooms[r].(status := t'.rooms[r].status, accepting := t'.rooms[r].accepting)
          && (t.rooms[r].status == Deleting ==> t'.rooms[r].status == Deleting))
    && (forall s :: s in t.sessions ==>
          t'.sessions[s] == t.sessions[s]
          || (t.sessions[s].status.Live() && t'.sessions[s] == t.sessions[s].(status := Uploading)))
    && (forall k :: k in t.members ==> k in t'.members && t'.members[k] == t.members[k])
    && (forall k :: k in t'.members ==> k in t.members || (k.0 in t.rooms && t'.members[k] == MemberRole))
  }

  lemma RelabelEvolves(t: Tables, t': Tables)
    requires Relabels(t, t')
    ensures Evolves(t, t') && AddsOnly(t, t', {})
  {
  }

  lemma RelabelKeepsRooms(t: Tables, t': Tables)
    requires RoomsSound(t) && Relabels(t, t')
    ensures RoomsSound(t')
  {
    forall r, r' | r in t'.rooms && r' in t'.rooms && r != r'
      ensures SlugsApart(t', r, r')
    {
      assert SlugsApart(t, r, r');
    }
    forall k | k in t'.members
      ensures k.0 in t'.rooms && (t'.members[k] == OwnerRole <==> t'.rooms[k.0].owner == k.1)
    {
      assert k !in t.members ==> k != (k.0, t.rooms[k.0].owner);
    }
  }

  lemma RelabelCoupled(t: Tables, t': Tables)
    requires Coupled(t) && Relabels(t, t')
    ensures Coupled(t')
  {
  }

  lemma RelabelKeepsLedger(t: Tables, t': Tables)
    requires LedgerInv(t) && Relabels(t, t')
    ensures LedgerInv(t') && Evolves(t, t') && AddsOnly(t, t', {})
  {
    SoundIsCoupled(t);
    RelabelEvolves(t, t');
    RelabelKeepsRooms(t, t');
    RelabelCoupled(t, t');
    FitKeepsSound(t, t');
    forall r | r in t'.rooms
      ensures GoodRoom(t', r)
    {
      assert GoodRoom(t, r);
    }
  }

  /** `t'` is `t` with a new, empty room. */
  ghost predicate Inserts(t: Tables, t': Tables, r: Uuid, room: Room) {
    && r !in t.rooms && !SlugTaken(t, room.slug) && RoomChecks(room)
    && room == NewRoom(room.slug, room.owner, room.maxFiles, room.maxBytes, room.createdAt, room.expiresAt)
    && BoundedLimits(room.maxFiles, room.maxBytes)
    && t' == t.(rooms := t.rooms[r := room], members := t.members[(r, room.owner) := OwnerRole])
  }

  lemma InsertEvolves(t: Tables, t': Tables, r: Uuid, room: Room)
    requires Coupled(t) && Inserts(t, t', r, room)
    ensures Evolves(t, t') && AddsOnly(t, t', {r}) && Coupled(t')
  {
  }

  lemma InsertKeepsRooms(t: Tables, t': Tables, r: Uuid, room: Room)
    requires RoomsSound(t) && Inserts(t, t', r, room)
    ensures RoomsSound(t')
  {
    forall x, y | x in t'.rooms && y in t'.rooms && x != y
      ensures SlugsApart(t', x, y)
    {
      assert x != r && y != r ==> SlugsApart(t, x, y);
    }
  }

  lemma InsertKeepsLedger(t: Tables, t': Tables, r: Uuid, room: Room)
    requires LedgerInv(t) && Inserts(t, t', r, room)
    ensures LedgerInv(t') && Evolves(t, t') && AddsOnly(t, t', {r})
  {
    SoundIsCoupled(t);
    InsertEvolves(t, t', r, room);
    InsertKeepsRooms(t, t', r, room);
    FitKeepsSound(t, t');
    forall x | x in t'.rooms
      ensures GoodRoom(t', x)
    {
      if x == r {
        assert MediaIn(t.media, r, Pending) == {} && MediaIn(t.media, r, Ready) == {};
      } else {
        assert GoodRoom(t, x);
      }
    }
  }

  lemma DropEvolves(t: Tables, r: Uuid)
    requires Coupled(t)
    ensures Evolves(t, DropRoom(t, r)) && AddsOnly(t, DropRoom(t, r), {})
  {
  }

  lemma DropCoupled(t: Tables, r: Uuid)
    requires Coupled(t)
    ensures Coupled(DropRoom(t, r))
  {
  }

  lemma DropKeepsRooms(t: Tables, r: Uuid)
    requires RoomsSound(t)
    ensures RoomsSound(DropRoom(t, r))
  {
    var t' := DropRoom(t, r);
    forall x, y | x in t'.rooms && y in t'.rooms && x != y
      ensures SlugsApart(t', x, y)
    {
      assert SlugsApart(t, x, y);
    }
  }

  lemma DropKeepsLedger(t: Tables, r: Uuid)
    requires LedgerInv(t)
    ensures
      var t' := DropRoom(t, r);
      LedgerInv(t') && Evolves(t, t') && AddsOnly(t, t', {})
  {
    var t' := DropRoom(t, r);
    SoundIsCoupled(t);
    DropEvolves(t, r);
    DropCoupled(t, r);
    DropKeepsRooms(t, r);
    FitKeepsSound(t, t');
    forall x | x in t'.rooms
      ensures GoodRoom(t', x)
    {
      assert GoodRoom(t, x);
      SameFolds(t.media, t'.media, x, Pending);
      SameFolds(t.media, t'.media, x, Ready);
    }
  }
}
