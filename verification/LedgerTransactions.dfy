/** Every transaction keeps the ledger, whatever stale reading it started from. */
module LedgerTransactions {
  import opened Basics
  import opened Decimal
  import opened InitiateRequest
  import opened Schema
  import opened Transactions
  import opened LedgerInvariant

  /** What may be stale in a reading is the status; the rest is as in the rows, when they are still there. */
  ghost predicate Matches(t: Tables, upload: Upload) {
    upload.id in t.sessions ==>
      && t.sessions[upload.id].mediaId == upload.mediaId
      && upload.mediaId in t.media
      && t.media[upload.mediaId].sizeBytes == upload.sizeBytes
      && t.media[upload.mediaId].key == upload.key
      && t.sessions[upload.id].kind == upload.kind
      && t.sessions[upload.id].expiresAt == upload.expiresAt
  }

  /** `t'` satisfies the ledger invariant again, has the rows of `t` as they evolved, new rows only under the
      identifiers `ids`, and the same rooms. */
  ghost predicate Keeps(t: Tables, t': Tables, ids: set<Uuid>) {
    LedgerInv(t') && Evolves(t, t') && AddsOnly(t, t', ids) && t'.rooms.Keys == t.rooms.Keys
  }

  /** Tables that satisfy the ledger invariant pass the CHECK constraints. */
  lemma LedgerPassesChecks<T>(before: Tables, after: Tables, answer: T)
    requires LedgerInv(after)
    ensures Checked(before, after, answer) == (after, Ok(answer))
  {
    forall r | r in after.rooms
      ensures RoomChecks(after.rooms[r])
    {
      assert GoodRoom(after, r);
    }
  }

  lemma EvolvesReflexive(t: Tables)
    ensures Evolves(t, t) && AddsOnly(t, t, {})
    ensures LedgerInv(t) ==> Keeps(t, t, {})
  {
  }

  /** Ending a session passes the CHECK constraints. */
  lemma EndPassesChecks<T>(t: Tables, t': Tables, s: Uuid, sessionStatus: SessionStatus, mediaStatus: MediaStatus, answer: T)
    requires LedgerInv(t) && Ends(t, t', s, sessionStatus, mediaStatus)
    ensures Checked(t, t', answer) == (t', Ok(answer))
  {
    hide LedgerInv, Evolves, AddsOnly, Ends, Checked;
    EndKeepsLedger(t, t', s, sessionStatus, mediaStatus);
    LedgerPassesChecks(t, t', answer);
  }

  /** The three UPDATEs of the transactions that end a session. */
  function EndStatements(t: Tables, s: Uuid, sessionStatus: SessionStatus, mediaStatus: MediaStatus): Tables
    requires Joined(t, s)
  {
    var (m, size) := (t.sessions[s].mediaId, t.media[t.sessions[s].mediaId].sizeBytes);
    ChargeRoomOf(SetMedia(SetSession(t, s, sessionStatus), m, mediaStatus), m, -1, -size,
                 Indicator(mediaStatus == Ready, 1), Indicator(mediaStatus == Ready, size))
  }

  lemma StatementsEnd(t: Tables, s: Uuid, sessionStatus: SessionStatus, mediaStatus: MediaStatus)
    requires s in t.sessions && SoundSession(t, s) && t.sessions[s].status.Live()
    requires !sessionStatus.Live() && Linked(sessionStatus, mediaStatus)
    ensures Ends(t, EndStatements(t, s, sessionStatus, mediaStatus), s, sessionStatus, mediaStatus)
  {
    var (m, size) := (t.sessions[s].mediaId, t.media[t.sessions[s].mediaId].sizeBytes);
    var t' := EndStatements(t, s, sessionStatus, mediaStatus);
    assert t'.rooms[t.media[m].room] == Discharged(t.rooms[t.media[m].room], size, mediaStatus);
  }

  lemma CompleteEnds(t: Tables, upload: Upload)
    requires LedgerInv(t) && Matches(t, upload) && upload.id in t.sessions && t.sessions[upload.id].status.Live()
    ensures Ends(t, Complete(t, upload).0, upload.id, Completed, Ready)
    ensures Complete(t, upload).1 == Ok(())
  {
    assert SoundSession(t, upload.id);
    hide LedgerInv, SoundSession, Checked, Ends, ChargeRoomOf, SetMedia, SetSession;
    StatementsEnd(t, upload.id, Completed, Ready);
    EndPassesChecks(t, EndStatements(t, upload.id, Completed, Ready), upload.id, Completed, Ready, ());
  }

  /** Complete's transaction keeps the ledger, is never stopped by a CHECK constraint although it does not look
      at the room's capacity again, and answers "ready" exactly when the session is completed afterwards. */
  lemma CompleteKeepsLedger(t: Tables, upload: Upload)
    requires LedgerInv(t) && Matches(t, upload)
    ensures
      var (t', answer) := Complete(t, upload);
      && Keeps(t, t', {})
      && answer != Err(ConstraintViolation)
      && (answer.Ok? <==> upload.id in t'.sessions && t'.sessions[upload.id].status == Completed)
  {
    if upload.id in t.sessions && t.sessions[upload.id].status.Live() {
      CompleteEnds(t, upload);
      EndKeepsLedger(t, Complete(t, upload).0, upload.id, Completed, Ready);
    } else {
      EvolvesReflexive(t);
    }
  }

  lemma ReleaseEnds(t: Tables, upload: Upload, mediaStatus: MediaStatus)
    requires LedgerInv(t) && Matches(t, upload) && upload.id in t.sessions && t.sessions[upload.id].status.Live()
    requires mediaStatus == Failed || mediaStatus == Deleted
    ensures Ends(t, Release(t, upload, Aborted, mediaStatus).0, upload.id, Aborted, mediaStatus)
    ensures Release(t, upload, Aborted, mediaStatus).1 == Ok(())
  {
    assert SoundSession(t, upload.id);
    hide LedgerInv, SoundSession, Checked, Ends, ChargeRoomOf, SetMedia, SetSession;
    StatementsEnd(t, upload.id, Aborted, mediaStatus);
    EndPassesChecks(t, EndStatements(t, upload.id, Aborted, mediaStatus), upload.id, Aborted, mediaStatus, ());
  }

  /** releaseReservation keeps the ledger and succeeds exactly when the session is aborted or expired afterwards. */
  lemma ReleaseKeepsLedger(t: Tables, upload: Upload, mediaStatus: MediaStatus)
    requires LedgerInv(t) && Matches(t, upload)
    requires mediaStatus == Failed || mediaStatus == Deleted
    ensures
      var (t', answer) := Release(t, upload, Aborted, mediaStatus);
      && Keeps(t, t', {})
      && answer != Err(ConstraintViolation)
      && (answer.Ok? <==> upload.id in t'.sessions
                          && (t'.sessions[upload.id].status == Aborted || t'.sessions[upload.id].status == Expired))
  {
    if upload.id in t.sessions && t.sessions[upload.id].status.Live() {
      ReleaseEnds(t, upload, mediaStatus);
      EndKeepsLedger(t, Release(t, upload, Aborted, mediaStatus).0, upload.id, Aborted, mediaStatus);
    } else {
      EvolvesReflexive(t);
    }
  }

  lemma ExpireEnds(t: Tables, s: Uuid, now: Time)
    requires LedgerInv(t) && Expirable(t, s, now)
    ensures Ends(t, Expire(t, s, now).0, s, Expired, Failed)
    ensures Expire(t, s, now).1 == Ok(View(t, s))
  {
    assert SoundSession(t, s);
    ExpireStatements(t, s);
    hide LedgerInv, SoundSession, Checked, Ends, Charge, SetMedia, SetSession, EndStatements;
    StatementsEnd(t, s, Expired, Failed);
    EndPassesChecks(t, EndStatements(t, s, Expired, Failed), s, Expired, Failed, View(t, s));
  }

  /** The expiry names the room, where the others look it up. */
  lemma ExpireStatements(t: Tables, s: Uuid)
    requires Joined(t, s)
    ensures
      var m := t.sessions[s].mediaId;
      EndStatements(t, s, Expired, Failed)
      == Charge(SetMedia(SetSession(t, s, Expired), m, Failed), t.media[m].room, -1, -t.media[m].sizeBytes, 0, 0)
  {
  }

  /** claimExpiredUpload keeps the ledger; it expires the row it was given exactly when that row was overdue. */
  lemma ExpireKeepsLedger(t: Tables, s: Uuid, now: Time)
    requires LedgerInv(t)
    ensures
      var (t', answer) := Expire(t, s, now);
      && Keeps(t, t', {})
      && answer != Err(ConstraintViolation)
      && (answer.Ok? <==> s in t.sessions && t.sessions[s].status.Live() && t.sessions[s].expiresAt <= now)
      && (answer.Ok? ==> t'.sessions[s].status == Expired && answer.value == View(t, s))
  {
    if s in t.sessions {
      assert SoundSession(t, s);
    }
    if Expirable(t, s, now) {
      ExpireEnds(t, s, now);
      EndKeepsLedger(t, Expire(t, s, now).0, s, Expired, Failed);
    } else {
      EvolvesReflexive(t);
    }
  }

  /** Media Delete finds a row it can delete. */
  predicate Deletable(t: Tables, m: Uuid, r: Uuid) {
    m in t.media && t.media[m].room == r && r in t.rooms && (t.media[m].status == Ready || t.media[m].status == Failed)
  }

  /** The two UPDATEs of media Delete; the second is for ready media only. */
  function DeleteStatements(t: Tables, m: Uuid, r: Uuid): Tables
    requires Deletable(t, m, r)
  {
    var after := SetMedia(t, m, Deleted);
    if t.media[m].status == Ready then Charge(after, r, 0, 0, -1, -t.media[m].sizeBytes) else after
  }

  lemma StatementsDelete(t: Tables, m: Uuid, r: Uuid)
    requires Deletable(t, m, r)
    ensures Deletes(t, DeleteStatements(t, m, r), m)
    ensures
      var t' := DeleteStatements(t, m, r);
      m in t'.media && t'.media[m].status == Deleted
  {
    var t' := DeleteStatements(t, m, r);
    assert t'.rooms == t.rooms[r := t'.rooms[r]];
  }

  lemma DeleteRuns(t: Tables, m: Uuid, r: Uuid)
    ensures Deletable(t, m, r) ==>
      var t' := DeleteStatements(t, m, r);
      DeleteMedia(t, m, r) == if t.media[m].status == Ready then Checked(t, t', ()) else (t', Ok(()))
    ensures !Deletable(t, m, r) ==>
      && DeleteMedia(t, m, r).0 == t && DeleteMedia(t, m, r).1 != Err(ConstraintViolation)
      && (m in t.media && t.media[m].room == r && r in t.rooms ==>
            (DeleteMedia(t, m, r).1.Ok? <==> t.media[m].status == Deleted))
  {
    hide Checked, SetMedia, Charge;
  }

  /** Media Delete keeps the ledger; unless the row is gone, it succeeds exactly when the media is deleted afterwards. */
  lemma DeleteMediaKeepsLedger(t: Tables, m: Uuid, r: Uuid)
    requires LedgerInv(t)
    ensures
      var (t', answer) := DeleteMedia(t, m, r);
      && Keeps(t, t', {})
      && answer != Err(ConstraintViolation)
      && (m in t.media && t.media[m].room == r ==> (answer.Ok? <==> t'.media[m].status == Deleted))
  {
    if m in t.media {
      assert SoundMedia(t, m);
    }
    hide LedgerInv, SoundMedia, Evolves, AddsOnly, Deletes, Checked, DeleteMedia, DeleteStatements;
    DeleteRuns(t, m, r);
    if Deletable(t, m, r) {
      var t' := DeleteStatements(t, m, r);
      StatementsDelete(t, m, r);
      DeleteKeepsLedger(t, t', m);
      LedgerPassesChecks(t, t', ());
    } else {
      EvolvesReflexive(t);
    }
  }

  lemma MarkUploadingKeepsLedger(t: Tables, s: Uuid)
    requires LedgerInv(t)
    ensures Keeps(t, MarkUploading(t, s), {})
  {
    assert Relabels(t, MarkUploading(t, s));
    RelabelKeepsLedger(t, MarkUploading(t, s));
  }

  /** The unique index makes the lookup by key find the only session there is. */
  lemma KeyFindsOne(t: Tables, s: Uuid, identity: Uuid, key: Uuid)
    requires SessionsUnique(t) && HasKey(t, s, identity, key)
    ensures forall x :: HasKey(t, x, identity, key) <==> x == s
    ensures FindIdempotent(t, identity, key) == Some(s)
  {
    forall x | HasKey(t, x, identity, key)
      ensures x == s
    {
      assert x != s ==> Apart(t, x, s);
    }
  }

  lemma OnlyRoom(t: Tables, r: Uuid, slug: string)
    requires RoomsSound(t) && r in t.rooms && t.rooms[r].slug == slug
    ensures forall x :: x in t.rooms && t.rooms[x].slug == slug ==> x == r
  {
    forall x | x in t.rooms && t.rooms[x].slug == slug
      ensures x == r
    {
      assert x != r ==> SlugsApart(t, x, r);
    }
  }

  /** So does the one on slugs. */
  lemma SlugFindsOne(t: Tables, r: Uuid, slug: string)
    requires RoomsSound(t) && r in t.rooms && t.rooms[r].slug == slug
    ensures RoomWithSlug(t, slug) == Some(r)
  {
    OnlyRoom(t, r, slug);
  }

  // ---- Initiate ----

  /** Under the bounds on a room's limits, the wrapping int64 test is the exact one. */
  lemma AdmissionIsExact(room: Room, size: int)
    requires RoomChecks(room) && BoundedLimits(room.maxFiles, room.maxBytes) && 0 < size <= MAX_VIDEO_SIZE
    ensures LimitReached(room, size) <==>
      room.usedFiles + room.reservedFiles + 1 > room.maxFiles || room.usedBytes + room.reservedBytes + size > room.maxBytes
  {
  }

  /** With any int64 limits, the byte test goes wrong exactly when the sum leaves int64: it then admits an
      upload that does not fit. */
  lemma AdmissionWithoutBounds(used: int, reserved: int, size: int, maxBytes: int)
    requires 0 <= used && 0 <= reserved && used + reserved <= maxBytes <= MAX_INT64 && 0 < size <= MAX_VIDEO_SIZE
    ensures (Wrap64(used + reserved + size) > maxBytes <==> used + reserved + size > maxBytes)
            <==> used + reserved + size <= MAX_INT64
  {
    if used + reserved + size > MAX_INT64 {
      assert Wrap64(used + reserved + size) == used + reserved + size - 0x1_0000_0000_0000_0000;
    }
  }

  /** An input for which it does: a room whose limit is the largest int64 and whose bytes are all reserved admits
      one more byte. No room has such a limit, unless the default of the column is changed. */
  lemma AdmissionOverflows()
    ensures
      var room := NewRoom("A", 0, 2, MAX_INT64, 0, DAY).(reservedFiles := 1, reservedBytes := MAX_INT64);
      RoomChecks(room) && !LimitReached(room, 1) && room.usedBytes + room.reservedBytes + 1 > room.maxBytes
  {
    assert Wrap64(MAX_INT64 + 1) == MIN_INT64;
  }

  /** Who gets past the checks under the room lock, in exact integers: a member of the room with that slug, which is
      active, has not expired, accepts uploads, and has a file and the bytes to spare. */
  lemma AdmittedExactly(t: Tables, identity: Uuid, slug: string, size: int, now: Time, r: Uuid)
    requires LedgerInv(t) && 0 < size <= MAX_VIDEO_SIZE
    ensures LockRoomForUpload(t, identity, slug, size, now) == Ok(r) <==>
      && r in t.rooms && t.rooms[r].slug == slug && (r, identity) in t.members
      && t.rooms[r].status == Active && now < t.rooms[r].expiresAt && t.rooms[r].accepting
      && t.rooms[r].usedFiles + t.rooms[r].reservedFiles + 1 <= t.rooms[r].maxFiles
      && t.rooms[r].usedBytes + t.rooms[r].reservedBytes + size <= t.rooms[r].maxBytes
  {
    if r in t.rooms && t.rooms[r].slug == slug {
      assert GoodRoom(t, r);
      SlugFindsOne(t, r, slug);
      hide LedgerInv;
      AdmissionIsExact(t.rooms[r], size);
    }
  }

  /** Who is refused, and why: the first of these that holds. */
  lemma RefusedExactly(t: Tables, identity: Uuid, slug: string, size: int, now: Time)
    requires LedgerInv(t) && 0 < size <= MAX_VIDEO_SIZE
    ensures
      var answer := LockRoomForUpload(t, identity, slug, size, now);
      && (answer == Err(RoomNotFound) <==> forall r :: r in t.rooms ==> t.rooms[r].slug != slug)
      && forall r :: r in t.rooms && t.rooms[r].slug == slug ==>
          var (room, member) := (t.rooms[r], (r, identity) in t.members);
          var open := room.status == Active && now < room.expiresAt;
          && (answer == Err(NotMember) <==> !member)
          && (answer == Err(RoomExpired) <==> member && !open)
          && (answer == Err(UploadsClosed) <==> member && open && !room.accepting)
          && (answer == Err(RoomLimitReached) <==>
                && member && open && room.accepting
                && (room.usedFiles + room.reservedFiles + 1 > room.maxFiles
                    || room.usedBytes + room.reservedBytes + size > room.maxBytes))
  {
    if r :| r in t.rooms && t.rooms[r].slug == slug {
      assert GoodRoom(t, r);
      SlugFindsOne(t, r, slug);
      OnlyRoom(t, r, slug);
      hide LedgerInv;
      AdmissionIsExact(t.rooms[r], size);
    }
  }

  lemma NewSessionIsSound(t: Tables, r: Uuid, identity: Uuid, key: Uuid, input: Input, hash: Digest, now: Time,
                          mediaId: Uuid, uploadId: Uuid, started: nat)
    requires r in t.rooms && now < t.rooms[r].expiresAt && input.sizeBytes > 0
    ensures SoundSession(Reserve(t, r, identity, key, input, hash, now, mediaId, uploadId, started), uploadId)
    ensures SessionChecks(Reserve(t, r, identity, key, input, hash, now, mediaId, uploadId, started).sessions[uploadId])
  {
  }

  lemma AdmittedRoom(t: Tables, identity: Uuid, slug: string, size: int, now: Time, r: Uuid)
    requires LockRoomForUpload(t, identity, slug, size, now) == Ok(r)
    ensures r in t.rooms && t.rooms[r].status == Active && now < t.rooms[r].expiresAt && !LimitReached(t.rooms[r], size)
  {
  }

  lemma KeyNotFound(t: Tables, identity: Uuid, key: Uuid)
    ensures FindIdempotent(t, identity, key).None? <==> forall x :: !HasKey(t, x, identity, key)
  {
  }

  lemma ReservationKeepsLedger(t: Tables, identity: Uuid, key: Uuid, hash: Digest, input: Input, now: Time,
                               mediaId: Uuid, uploadId: Uuid, started: nat, r: Uuid)
    requires LedgerInv(t) && 0 < input.sizeBytes <= MAX_VIDEO_SIZE && forall x :: !HasKey(t, x, identity, key)
    requires r in t.rooms && t.rooms[r].status == Active && now < t.rooms[r].expiresAt
    requires !LimitReached(t.rooms[r], input.sizeBytes)
    requires mediaId !in t.media && uploadId !in t.sessions
    ensures Keeps(t, Reserve(t, r, identity, key, input, hash, now, mediaId, uploadId, started), {mediaId, uploadId})
  {
    var t' := Reserve(t, r, identity, key, input, hash, now, mediaId, uploadId, started);
    NewSessionIsSound(t, r, identity, key, input, hash, now, mediaId, uploadId, started);
    assert Reserves(t, t', r, mediaId, uploadId, t'.media[mediaId], t'.sessions[uploadId]);
    hide LedgerInv, Evolves, AddsOnly, Reserves, SoundSession, LimitReached, HasKey;
    ReserveKeepsLedger(t, t', r, mediaId, uploadId, t'.media[mediaId], t'.sessions[uploadId]);
  }

  /** When Initiate grants a new upload: what it required, and what it did. */
  lemma InitiateReserves(t: Tables, identity: Uuid, key: Uuid, slug: string, input: Input, now: Time,
                         mediaId: Uuid, uploadId: Uuid, started: Option<nat>, r: Uuid)
    requires LedgerInv(t) && 0 < input.sizeBytes <= MAX_VIDEO_SIZE
    requires FindIdempotent(t, identity, key).None?
    requires LockRoomForUpload(t, identity, slug, input.sizeBytes, now) == Ok(r)
    requires !(input.sizeBytes > MULTIPART_THRESHOLD && started.None?)
    requires mediaId !in t.media && uploadId !in t.sessions
    ensures
      var t' := Reserve(t, r, identity, key, input, Hash(slug, input), now, mediaId, uploadId,
                        if started.Some? then started.value else 0);
      && Initiate(t, identity, key, slug, input, now, mediaId, uploadId, started) == (t', Ok(View(t', uploadId)))
      && Keeps(t, t', {mediaId, uploadId})
  {
    hide LedgerInv, Keeps, LockRoomForUpload, LimitReached, FindIdempotent, Checked, Hash, View, SoundSession;
    AdmittedRoom(t, identity, slug, input.sizeBytes, now, r);
    var upload := if started.Some? then started.value else 0;
    var t' := Reserve(t, r, identity, key, input, Hash(slug, input), now, mediaId, uploadId, upload);
    KeyNotFound(t, identity, key);
    NewSessionIsSound(t, r, identity, key, input, Hash(slug, input), now, mediaId, uploadId, upload);
    ReservationKeepsLedger(t, identity, key, Hash(slug, input), input, now, mediaId, uploadId, upload, r);
    KeptPassesChecks(t, t', {mediaId, uploadId}, View(t', uploadId));
  }

  lemma KeptPassesChecks<T>(t: Tables, t': Tables, ids: set<Uuid>, answer: T)
    requires Keeps(t, t', ids)
    ensures Checked(t, t', answer) == (t', Ok(answer))
  {
    hide LedgerInv, Checked, Evolves, AddsOnly;
    LedgerPassesChecks(t, t', answer);
  }

  /** Initiate grants a new upload exactly when the key is new and the room admits it. */
  ghost predicate Grants(t: Tables, identity: Uuid, key: Uuid, slug: string, input: Input, now: Time,
                         mediaId: Uuid, uploadId: Uuid, started: Option<nat>)
  {
    && FindIdempotent(t, identity, key).None?
    && LockRoomForUpload(t, identity, slug, input.sizeBytes, now).Ok?
    && !(input.sizeBytes > MULTIPART_THRESHOLD && started.None?)
    && mediaId !in t.media && uploadId !in t.sessions
  }

  /** Initiate keeps the ledger; with identifiers that are new, no constraint ever stops it. */
  lemma InitiateKeepsLedger(t: Tables, identity: Uuid, key: Uuid, slug: string, input: Input, now: Time,
                            mediaId: Uuid, uploadId: Uuid, started: Option<nat>)
    requires LedgerInv(t) && 0 < input.sizeBytes <= MAX_VIDEO_SIZE
    ensures
      var (t', answer) := Initiate(t, identity, key, slug, input, now, mediaId, uploadId, started);
      && Keeps(t, t', {mediaId, uploadId})
      && (mediaId !in t.media && uploadId !in t.sessions ==> answer != Err(ConstraintViolation))
      && (!Grants(t, identity, key, slug, input, now, mediaId, uploadId, started) ==> t' == t)
  {
    if Grants(t, identity, key, slug, input, now, mediaId, uploadId, started) {
      var r := LockRoomForUpload(t, identity, slug, input.sizeBytes, now).value;
      InitiateReserves(t, identity, key, slug, input, now, mediaId, uploadId, started, r);
    } else {
      EvolvesReflexive(t);
    }
  }

  /** An upload Initiate answers with is the session of the request's key, with the request's hash. */
  lemma InitiateAnswers(t: Tables, identity: Uuid, key: Uuid, slug: string, input: Input, now: Time,
                        mediaId: Uuid, uploadId: Uuid, started: Option<nat>)
    requires LedgerInv(t) && 0 < input.sizeBytes <= MAX_VIDEO_SIZE
    requires Initiate(t, identity, key, slug, input, now, mediaId, uploadId, started).1.Ok?
    ensures
      var (t', answer) := Initiate(t, identity, key, slug, input, now, mediaId, uploadId, started);
      var s := answer.value.id;
      && HasKey(t', s, identity, key) && answer.value == View(t', s) && t'.sessions[s].requestHash == Hash(slug, input)
  {
    if Grants(t, identity, key, slug, input, now, mediaId, uploadId, started) {
      var r := LockRoomForUpload(t, identity, slug, input.sizeBytes, now).value;
      InitiateReserves(t, identity, key, slug, input, now, mediaId, uploadId, started, r);
    }
  }

  // ---- Rooms ----

  lemma InsertRoomKeepsLedger(t: Tables, r: Uuid, slug: string, owner: Uuid, maxFiles: int, maxBytes: int,
                              now: Time, expiresAt: Time)
    requires LedgerInv(t) && BoundedLimits(maxFiles, maxBytes)
    ensures
      var t' := InsertRoom(t, r, NewRoom(slug, owner, maxFiles, maxBytes, now, expiresAt)).0;
      LedgerInv(t') && Evolves(t, t') && AddsOnly(t, t', {r})
  {
    var room := NewRoom(slug, owner, maxFiles, maxBytes, now, expiresAt);
    var (t', answer) := InsertRoom(t, r, room);
    if answer.Ok? {
      assert Inserts(t, t', r, room);
      InsertKeepsLedger(t, t', r, room);
    } else {
      EvolvesReflexive(t);
    }
  }

  lemma SetAcceptingKeepsLedger(t: Tables, r: Uuid, identity: Uuid, accepting: bool, now: Time)
    requires LedgerInv(t)
    ensures Keeps(t, SetAccepting(t, r, identity, accepting, now).0, {})
  {
    var t' := SetAccepting(t, r, identity, accepting, now).0;
    assert Relabels(t, t');
    hide Relabels, LedgerInv, Evolves, AddsOnly, SetAccepting;
    RelabelKeepsLedger(t, t');
  }

  lemma ScheduleDeletionKeepsLedger(t: Tables, r: Uuid, identity: Uuid)
    requires LedgerInv(t)
    ensures Keeps(t, ScheduleDeletion(t, r, identity).0, {})
  {
    var t' := ScheduleDeletion(t, r, identity).0;
    assert Relabels(t, t');
    RelabelKeepsLedger(t, t');
  }

  lemma ClaimRoomKeepsLedger(t: Tables, r: Uuid, now: Time)
    requires LedgerInv(t)
    ensures Keeps(t, ClaimRoom(t, r, now).0, {})
  {
    var t' := ClaimRoom(t, r, now).0;
    assert Relabels(t, t');
    hide Relabels, LedgerInv, Evolves, AddsOnly;
    RelabelKeepsLedger(t, t');
  }

  lemma JoinKeepsLedger(t: Tables, r: Uuid, identity: Uuid)
    requires LedgerInv(t)
    ensures Keeps(t, Join(t, r, identity), {})
  {
    var t' := Join(t, r, identity);
    assert Relabels(t, t');
    RelabelKeepsLedger(t, t');
  }
}
