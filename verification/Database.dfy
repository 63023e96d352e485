/** The three tables as the services update them, statement by statement.

    Each method is one transaction, run while its row locks are held. It is proved to do exactly what the
    function of the same purpose in Transactions says, and to keep the ledger. */
module Database {
  import opened Basics
  import opened InitiateRequest
  import opened Schema
  import opened Transactions
  import opened LedgerInvariant
  import opened LedgerTransactions

  const SLUG_ATTEMPTS: nat := 8

  /** Some room has this slug. */
  predicate Used(rooms: map<Uuid, Room>, slug: string) {
    exists r :: r in rooms && rooms[r].slug == slug
  }

  /** Attempts that found their slug used do not matter. */
  lemma {:induction false} FirstFreeFrom(t: Tables, slugs: seq<string>, k: nat)
    requires k <= |slugs| && forall i :: 0 <= i < k ==> Used(t.rooms, slugs[i])
    ensures k < |slugs| && !Used(t.rooms, slugs[k]) ==> FirstFreeSlug(t, slugs) == Some(slugs[k])
    ensures k == |slugs| ==> FirstFreeSlug(t, slugs) == None
    decreases |slugs|
  {
    if k > 0 {
      assert SlugTaken(t, slugs[0]);
      FirstFreeFrom(t, slugs[1..], k - 1);
    }
  }

  class Database {
    var rooms: map<Uuid, Room>
    var media: map<Uuid, Media>
    var sessions: map<Uuid, Session>
    var members: map<(Uuid, Uuid), Role>

    ghost function State(): Tables
      reads this
    {
      Tables(rooms, media, sessions, members)
    }

    ghost predicate Valid()
      reads this
    {
      LedgerInv(State())
    }

    constructor ()
      ensures Valid() && State() == Tables(map[], map[], map[], map[])
    {
      rooms, media, sessions, members := map[], map[], map[], map[];
    }

    // ---- Statements ----

    /** UPDATE upload_sessions SET status */
    method UpdateSession(s: Uuid, status: SessionStatus)
      modifies `sessions
      ensures State() == SetSession(old(State()), s, status)
    {
      if s in sessions {
        sessions := sessions[s := sessions[s].(status := status)];
      }
    }

    /** UPDATE media SET status */
    method UpdateMedia(m: Uuid, status: MediaStatus)
      modifies `media
      ensures State() == SetMedia(old(State()), m, status)
    {
      if m in media {
        media := media[m := media[m].(status := status)];
      }
    }

    /** UPDATE rooms SET the counters WHERE id = r */
    method UpdateCounters(r: Uuid, reservedFiles: int, reservedBytes: int, usedFiles: int, usedBytes: int)
      modifies `rooms
      ensures State() == Charge(old(State()), r, reservedFiles, reservedBytes, usedFiles, usedBytes)
    {
      if r in rooms {
        var room := rooms[r];
        rooms := rooms[r := room.(
          reservedFiles := room.reservedFiles + reservedFiles, reservedBytes := room.reservedBytes + reservedBytes,
          usedFiles := room.usedFiles + usedFiles, usedBytes := room.usedBytes + usedBytes)];
      }
    }

    // ---- Uploads ----

    /** The closing transaction of Complete. */
    method CompleteUpload(upload: Upload) returns (answer: Result<(), Error>)
      requires Valid() && Matches(State(), upload)
      modifies this
      ensures Keeps(old(State()), State(), {})
      ensures (State(), answer) == Complete(old(State()), upload)
    {
      hide LedgerInv, Evolves, AddsOnly, Keeps, Ends, SetSession, SetMedia, Charge, RoomChecks;
      CompleteKeepsLedger(State(), upload);
      if upload.id !in sessions {
        return Err(NoRows);
      }
      var status := sessions[upload.id].status;
      if status == Completed {
        return Ok(());
      }
      if status == Aborted || status == Expired {
        return Err(UploadExpired);
      }
      CompleteEnds(State(), upload);
      UpdateSession(upload.id, Completed);
      UpdateMedia(upload.mediaId, Ready);
      if upload.mediaId in media {
        UpdateCounters(media[upload.mediaId].room, -1, -upload.sizeBytes, 1, upload.sizeBytes);
      }
      return Ok(());
    }

    /** releaseReservation */
    method ReleaseReservation(upload: Upload, mediaStatus: MediaStatus) returns (answer: Result<(), Error>)
      requires Valid() && Matches(State(), upload)
      requires mediaStatus == Failed || mediaStatus == Deleted
      modifies this
      ensures Keeps(old(State()), State(), {})
      ensures (State(), answer) == Release(old(State()), upload, Aborted, mediaStatus)
    {
      hide LedgerInv, Evolves, AddsOnly, Keeps, Ends, SetSession, SetMedia, Charge, RoomChecks;
      ReleaseKeepsLedger(State(), upload, mediaStatus);
      if upload.id !in sessions {
        return Err(NoRows);
      }
      var current := sessions[upload.id].status;
      if current == Completed {
        return Err(UploadCompleted);
      }
      if current == Aborted || current == Expired {
        return Ok(());
      }
      ReleaseEnds(State(), upload, mediaStatus);
      UpdateSession(upload.id, Aborted);
      UpdateMedia(upload.mediaId, mediaStatus);
      if upload.mediaId in media {
        UpdateCounters(media[upload.mediaId].room, -1, -upload.sizeBytes, 0, 0);
      }
      return Ok(());
    }

    /** The updates of claimExpiredUpload on the row it locked. */
    method ExpireUpload(s: Uuid, now: Time) returns (upload: Upload)
      requires Valid() && Expirable(State(), s, now)
      modifies this
      ensures Keeps(old(State()), State(), {}) && upload.id == s
      ensures (State(), Ok(upload)) == Expire(old(State()), s, now)
    {
      hide LedgerInv, Evolves, AddsOnly, Keeps, Ends, SetSession, SetMedia, Charge;
      ExpireKeepsLedger(State(), s, now);
      ExpireEnds(State(), s, now);
      ExpireRuns(State(), s, now);
      hide Expire;
      var m := sessions[s].mediaId;
      var room := media[m].room;
      upload := View(Tables(rooms, media, sessions, members), s);
      UpdateSession(s, Expired);
      UpdateMedia(m, Failed);
      UpdateCounters(room, -1, -upload.sizeBytes, 0, 0);
    }

    /** claimExpiredUpload: the overdue live session with the earliest deadline, if there is one. */
    method ClaimExpiredUpload(now: Time) returns (answer: Option<Upload>)
      requires Valid()
      modifies this
      ensures Keeps(old(State()), State(), {})
      ensures answer.None? ==> State() == old(State()) && forall s :: !Expirable(old(State()), s, now)
      ensures answer.Some? ==>
        && Expirable(old(State()), answer.value.id, now)
        && (forall s :: Expirable(old(State()), s, now) ==>
              old(sessions)[answer.value.id].expiresAt <= old(sessions)[s].expiresAt)
        && (State(), Ok(answer.value)) == Expire(old(State()), answer.value.id, now)
    {
      var found := FirstExpirable(now);
      if found.None? {
        EvolvesReflexive(State());
        return None;
      }
      hide Expire, Keeps, LedgerInv;
      var upload := ExpireUpload(found.value, now);
      return Some(upload);
    }

    /** The scan behind ORDER BY expires_at LIMIT 1. */
    method FirstExpirable(now: Time) returns (found: Option<Uuid>)
      ensures found.None? ==> forall s :: !Expirable(State(), s, now)
      ensures found.Some? ==>
        && Expirable(State(), found.value, now)
        && forall s :: Expirable(State(), s, now) ==> sessions[found.value].expiresAt <= sessions[s].expiresAt
    {
      found := None;
      var rest := sessions.Keys;
      while rest != {}
        invariant rest <= sessions.Keys
        invariant found.None? ==> forall s :: s in sessions && s !in rest ==> !Expirable(State(), s, now)
        invariant found.Some? ==>
          && Expirable(State(), found.value, now)
          && forall s :: s !in rest && Expirable(State(), s, now) ==> sessions[found.value].expiresAt <= sessions[s].expiresAt
        decreases rest
      {
        var s :| s in rest;
        rest := rest - {s};
        if Expirable(Tables(rooms, media, sessions, members), s, now)
           && (found.None? || sessions[s].expiresAt < sessions[found.value].expiresAt) {
          found := Some(s);
        }
      }
    }

    /** The closing transaction of media Delete. */
    method DeleteMediaRow(m: Uuid, r: Uuid) returns (answer: Result<(), Error>)
      requires Valid()
      modifies this
      ensures Keeps(old(State()), State(), {})
      ensures (State(), answer) == DeleteMedia(old(State()), m, r)
    {
      hide LedgerInv, Evolves, AddsOnly, Keeps, SetMedia, Charge, RoomChecks;
      DeleteMediaKeepsLedger(State(), m, r);
      if m !in media || media[m].room != r || r !in rooms {
        return Ok(());
      }
      var (current, size) := (media[m].status, media[m].sizeBytes);
      if current == Deleted {
        return Ok(());
      }
      if current != Ready && current != Failed {
        return Err(MediaNotReady);
      }
      UpdateMedia(m, Deleted);
      if current == Ready {
        UpdateCounters(r, 0, 0, -1, -size);
      }
      return Ok(());
    }

    // ---- Rooms ----

    /** claimRoom: the reclaimable room with the earliest deadline, if there is one. */
    method ClaimRoomRow(now: Time) returns (found: Option<Uuid>)
      requires Valid()
      modifies this
      ensures Keeps(old(State()), State(), {})
      ensures found.None? ==> State() == old(State()) && forall r :: !Reclaimable(old(State()), r, now)
      ensures found.Some? ==>
        && Reclaimable(old(State()), found.value, now)
        && (State(), Ok(found.value)) == ClaimRoom(old(State()), found.value, now)
        && forall r :: Reclaimable(old(State()), r, now) ==> old(rooms)[found.value].expiresAt <= old(rooms)[r].expiresAt
    {
      found := None;
      var rest := rooms.Keys;
      while rest != {}
        invariant rest <= rooms.Keys && State() == old(State())
        invariant found.None? ==> forall r :: r in rooms && r !in rest ==> !Reclaimable(State(), r, now)
        invariant found.Some? ==>
          && Reclaimable(State(), found.value, now)
          && forall r :: r !in rest && Reclaimable(State(), r, now) ==> rooms[found.value].expiresAt <= rooms[r].expiresAt
        decreases rest
      {
        var r :| r in rest;
        rest := rest - {r};
        if Reclaimable(Tables(rooms, media, sessions, members), r, now)
           && (found.None? || rooms[r].expiresAt < rooms[found.value].expiresAt) {
          found := Some(r);
        }
      }
      if found.Some? {
        ClaimRoomKeepsLedger(State(), found.value, now);
        rooms := rooms[found.value := rooms[found.value].(status := Deleting)];
      } else {
        EvolvesReflexive(State());
      }
    }

    /** DELETE FROM rooms WHERE id = r AND status = 'deleting', with its cascades. */
    method DeleteRoomRow(r: Uuid)
      requires Valid()
      modifies this
      ensures Valid()
      ensures State() == DropRoom(old(State()), r)
    {
      DropKeepsLedger(State(), r);
      if r in rooms && rooms[r].status == Deleting {
        sessions := map s | s in sessions && !(sessions[s].mediaId in media && media[sessions[s].mediaId].room == r)
          :: sessions[s];
        media := map m | m in media && media[m].room != r :: media[m];
        members := map k | k in members && k.0 != r :: members[k];
        rooms := rooms - {r};
      }
    }

    /** The insert loop of room Create, over the slugs the generator yields. */
    method CreateRoom(r: Uuid, slugs: seq<string>, owner: Uuid, maxFiles: int, maxBytes: int, now: Time, days: int)
      returns (answer: Option<string>)
      requires Valid() && r !in rooms && |slugs| == SLUG_ATTEMPTS
      requires BoundedLimits(maxFiles, maxBytes) && 1 <= days <= 3
      modifies this
      ensures Valid()
      ensures answer == FirstFreeSlug(old(State()), slugs)
      ensures answer.None? <==> forall i :: 0 <= i < |slugs| ==> Used(old(rooms), slugs[i])
      ensures answer.Some? ==>
        exists i :: 0 <= i < |slugs| && answer.value == slugs[i] && !Used(old(rooms), slugs[i])
          && forall j :: 0 <= j < i ==> Used(old(rooms), slugs[j])
      ensures answer.None? ==> State() == old(State())
      ensures answer.Some? ==>
        && rooms == old(rooms)[r := Room(answer.value, owner, Active, true, maxFiles, maxBytes, 0, 0, 0, 0, now, now + days * DAY)]
        && members == old(members)[(r, owner) := OwnerRole] && media == old(media) && sessions == old(sessions)
        && InsertRoom(old(State()), r, rooms[r]) == (State(), Ok(()))
    {
      hide LedgerInv, Evolves, AddsOnly, FirstFreeSlug;
      for attempt := 0 to SLUG_ATTEMPTS
        invariant State() == old(State())
        invariant forall i :: 0 <= i < attempt ==> Used(rooms, slugs[i])
      {
        FirstFreeFrom(State(), slugs, attempt);
        if !SlugTaken(Tables(rooms, media, sessions, members), slugs[attempt]) {
          var room := NewRoom(slugs[attempt], owner, maxFiles, maxBytes, now, now + days * DAY);
          InsertRoomKeepsLedger(State(), r, slugs[attempt], owner, maxFiles, maxBytes, now, now + days * DAY);
          rooms := rooms[r := room];
          members := members[(r, owner) := OwnerRole];
          return Some(slugs[attempt]);
        }
      }
      FirstFreeFrom(State(), slugs, |slugs|);
      return None;
    }

    // ---- Initiate ----

    method FindKey(identity: Uuid, key: Uuid) returns (found: Option<Uuid>)
      requires Valid()
      ensures found == FindIdempotent(State(), identity, key)
    {
      if s :| s in sessions && HasKey(Tables(rooms, media, sessions, members), s, identity, key) {
        KeyFindsOne(State(), s, identity, key);
        return Some(s);
      }
      return None;
    }

    method FindSlug(slug: string) returns (found: Option<Uuid>)
      requires Valid()
      ensures found == RoomWithSlug(State(), slug)
    {
      if r :| r in rooms && rooms[r].slug == slug {
        SlugFindsOne(State(), r, slug);
        return Some(r);
      }
      return None;
    }

    /** The transaction of Initiate. */
    method InitiateUpload(identity: Uuid, key: Uuid, slug: string, input: Input, now: Time,
                          mediaId: Uuid, uploadId: Uuid, started: Option<nat>)
      returns (answer: Result<Upload, Error>)
      requires Valid() && 0 < input.sizeBytes <= MAX_VIDEO_SIZE && mediaId !in media && uploadId !in sessions
      modifies this
      ensures Keeps(old(State()), State(), {mediaId, uploadId})
      ensures (State(), answer) == Initiate(old(State()), identity, key, slug, input, now, mediaId, uploadId, started)
    {
      InitiateKeepsLedger(State(), identity, key, slug, input, now, mediaId, uploadId, started);
      var existing := FindKey(identity, key);
      if existing.Some? {
        if sessions[existing.value].requestHash != Hash(slug, input) {
          return Err(IdempotencyConflict);
        }
        return Ok(View(Tables(rooms, media, sessions, members), existing.value));
      }
      var locked := LockRoom(identity, slug, input.sizeBytes, now);
      if locked.Err? {
        return Err(locked.error);
      }
      var r := locked.value;
      if input.sizeBytes > MULTIPART_THRESHOLD && started.None? {
        return Err(StoreFailure);
      }
      InitiateReserves(State(), identity, key, slug, input, now, mediaId, uploadId, started, r);
      answer := InsertReservation(identity, key, slug, input, now, mediaId, uploadId, started, r);
    }

    /** The inserts of Initiate, and the reservation. */
    method InsertReservation(identity: Uuid, key: Uuid, slug: string, input: Input, now: Time,
                             mediaId: Uuid, uploadId: Uuid, started: Option<nat>, r: Uuid)
      returns (answer: Result<Upload, Error>)
      requires r in rooms && mediaId !in media && uploadId !in sessions
      modifies this
      ensures State() == Reserve(old(State()), r, identity, key, input, Hash(slug, input), now, mediaId, uploadId,
                                 if started.Some? then started.value else 0)
      ensures Joined(State(), uploadId) && answer == Ok(View(State(), uploadId))
    {
      var expiry := Earlier(now + UPLOAD_LIFETIME, rooms[r].expiresAt);
      var kind := KindFor(input.sizeBytes, if started.Some? then started.value else 0);
      media := media[mediaId := Media(r, identity, Pending, input.sizeBytes, Original(r, mediaId), now)];
      sessions := sessions[uploadId := Session(mediaId, identity, kind, Initiated, now, expiry, key, Hash(slug, input))];
      UpdateCounters(r, 1, input.sizeBytes, 0, 0);
      return Ok(Upload(uploadId, mediaId, kind, Initiated, expiry, Original(r, mediaId), input.sizeBytes));
    }

    /** lockRoomForUpload */
    method LockRoom(identity: Uuid, slug: string, size: int, now: Time) returns (answer: Result<Uuid, Error>)
      requires Valid()
      ensures answer == LockRoomForUpload(State(), identity, slug, size, now)
    {
      var found := FindSlug(slug);
      if found.None? {
        return Err(RoomNotFound);
      }
      var r := found.value;
      if (r, identity) !in members {
        return Err(NotMember);
      }
      if rooms[r].status != Active || rooms[r].expiresAt <= now {
        return Err(RoomExpired);
      }
      if !rooms[r].accepting {
        return Err(UploadsClosed);
      }
      if LimitReached(rooms[r], size) {
        return Err(RoomLimitReached);
      }
      return Ok(r);
    }
  }

  /** The statements of claimExpiredUpload, one after the other. */
  lemma ExpireRuns(t: Tables, s: Uuid, now: Time)
    requires Expirable(t, s, now) && Expire(t, s, now).1.Ok?
    ensures
      var m := t.sessions[s].mediaId;
      Expire(t, s, now).0 ==
        Charge(SetMedia(SetSession(t, s, Expired), m, Failed), t.media[m].room, -1, -t.media[m].sizeBytes, 0, 0)
  {
    hide Charge, SetMedia, SetSession;
  }
}
