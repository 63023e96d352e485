/** What each committed transaction of the services does to the tables.

    Every function takes the tables as they are once the row locks are held, together with
    whatever the operation read earlier, and gives the tables after commit and the answer. */
module Transactions {
  import opened Basics
  import opened Decimal
  import opened InitiateRequest
  import opened Schema

  const MULTIPART_THRESHOLD: int := 100 * 1024 * 1024
  const MULTIPART_PART_SIZE: int := 16 * 1024 * 1024
  const UPLOAD_LIFETIME: Time := 24 * 60 * 60 * 1_000_000

  // ---- Reads ----

  ghost function RoomWithSlug(t: Tables, slug: string): Option<Uuid> {
    if r :| r in t.rooms && t.rooms[r].slug == slug then Some(r) else None
  }

  /** Session `s` joined with its media row. */
  predicate Joined(t: Tables, s: Uuid) {
    s in t.sessions && t.sessions[s].mediaId in t.media
  }

  function View(t: Tables, s: Uuid): Upload
    requires Joined(t, s)
  {
    var row := t.sessions[s];
    var m := t.media[row.mediaId];
    Upload(s, row.mediaId, row.kind, row.status, row.expiresAt, m.key, m.sizeBytes)
  }

  function GetUpload(t: Tables, identity: Uuid, s: Uuid): Result<Upload, Error> {
    if Joined(t, s) && t.sessions[s].identity == identity then Ok(View(t, s)) else Err(UploadNotFound)
  }

  predicate HasKey(t: Tables, s: Uuid, identity: Uuid, key: Uuid) {
    Joined(t, s) && t.sessions[s].identity == identity && t.sessions[s].idempotencyKey == key
  }

  ghost function FindIdempotent(t: Tables, identity: Uuid, key: Uuid): Option<Uuid> {
    if s :| HasKey(t, s, identity, key) then Some(s) else None
  }

  // ---- Admission ----

  /** Go's int64 addition. */
  function Wrap64(n: int): (w: int)
    ensures MIN_INT64 <= w <= MAX_INT64
    ensures MIN_INT64 <= n <= MAX_INT64 ==> w == n
  {
    (n - MIN_INT64) % 0x1_0000_0000_0000_0000 + MIN_INT64
  }

  /** Limits for which the admission sums stay within int64; the tables default to 1000 files and 20 GiB. */
  predicate BoundedLimits(maxFiles: int, maxBytes: int) {
    0 < maxFiles <= 0x7FFF_FFFF && 0 < maxBytes <= MAX_INT64 - MAX_VIDEO_SIZE
  }

  predicate LimitReached(room: Room, size: int) {
    || Wrap64(room.usedFiles + room.reservedFiles + 1) > room.maxFiles
    || Wrap64(room.usedBytes + room.reservedBytes + size) > room.maxBytes
  }

  ghost function LockRoomForUpload(t: Tables, identity: Uuid, slug: string, size: int, now: Time): Result<Uuid, Error> {
    match RoomWithSlug(t, slug)
    case None => Err(RoomNotFound)
    case Some(r) =>
      if (r, identity) !in t.members then Err(NotMember)
      else if t.rooms[r].status != Active || t.rooms[r].expiresAt <= now then Err(RoomExpired)
      else if !t.rooms[r].accepting then Err(UploadsClosed)
      else if LimitReached(t.rooms[r], size) then Err(RoomLimitReached)
      else Ok(r)
  }

  // ---- Single statements ----

  function SetSession(t: Tables, s: Uuid, status: SessionStatus): Tables {
    if s in t.sessions then t.(sessions := t.sessions[s := t.sessions[s].(status := status)]) else t
  }

  function SetMedia(t: Tables, m: Uuid, status: MediaStatus): Tables {
    if m in t.media then t.(media := t.media[m := t.media[m].(status := status)]) else t
  }

  /** Add to the counters of room `r`. */
  function Charge(t: Tables, r: Uuid, reservedFiles: int, reservedBytes: int, usedFiles: int, usedBytes: int): Tables {
    if r !in t.rooms then t
    else
      var room := t.rooms[r];
      t.(rooms := t.rooms[r := room.(
        reservedFiles := room.reservedFiles + reservedFiles, reservedBytes := room.reservedBytes + reservedBytes,
        usedFiles := room.usedFiles + usedFiles, usedBytes := room.usedBytes + usedBytes)])
  }

  /** Charge the room that holds media `m`, when there is such a row. */
  function ChargeRoomOf(t: Tables, m: Uuid, reservedFiles: int, reservedBytes: int, usedFiles: int, usedBytes: int): Tables {
    if m in t.media then Charge(t, t.media[m].room, reservedFiles, reservedBytes, usedFiles, usedBytes) else t
  }

  /** `after` when the rows it changed satisfy the CHECK constraints, otherwise a rollback. */
  function Checked<T>(before: Tables, after: Tables, answer: T): (Tables, Result<T, Error>) {
    if forall r :: r in after.rooms && (r in before.rooms ==> before.rooms[r] != after.rooms[r]) ==> RoomChecks(after.rooms[r])
    then (after, Ok(answer))
    else (before, Err(ConstraintViolation))
  }

  // ---- Uploads ----

  function KindFor(size: int, started: nat): UploadKind {
    if size > MULTIPART_THRESHOLD
    then Multipart(started, MULTIPART_PART_SIZE, (size + MULTIPART_PART_SIZE - 1) / MULTIPART_PART_SIZE)
    else Single
  }

  function Earlier(a: Time, b: Time): Time {
    if b < a then b else a
  }

  /** The rows Initiate inserts, and the reservation it takes. */
  function Reserve(t: Tables, r: Uuid, identity: Uuid, key: Uuid, input: Input, hash: Digest, now: Time,
                   mediaId: Uuid, uploadId: Uuid, started: nat): Tables
    requires r in t.rooms
  {
    var row := Media(r, identity, Pending, input.sizeBytes, Original(r, mediaId), now);
    var session := Session(mediaId, identity, KindFor(input.sizeBytes, started), Initiated, now,
                           Earlier(now + UPLOAD_LIFETIME, t.rooms[r].expiresAt), key, hash);
    Charge(t.(media := t.media[mediaId := row], sessions := t.sessions[uploadId := session]),
           r, 1, input.sizeBytes, 0, 0)
  }

  /** Initiate after validation. `started` is the store's answer to StartMultipart, None when it failed. */
  ghost function Initiate(t: Tables, identity: Uuid, key: Uuid, slug: string, input: Input, now: Time,
                          mediaId: Uuid, uploadId: Uuid, started: Option<nat>): (Tables, Result<Upload, Error>)
  {
    match FindIdempotent(t, identity, key)
    case Some(s) =>
      if t.sessions[s].requestHash != Hash(slug, input) then (t, Err(IdempotencyConflict)) else (t, Ok(View(t, s)))
    case None =>
      match LockRoomForUpload(t, identity, slug, input.sizeBytes, now)
      case Err(e) => (t, Err(e))
      case Ok(r) =>
        if input.sizeBytes > MULTIPART_THRESHOLD && started.None? then (t, Err(StoreFailure))
        else if mediaId in t.media || uploadId in t.sessions then (t, Err(ConstraintViolation))
        else
          var after := Reserve(t, r, identity, key, input, Hash(slug, input), now, mediaId, uploadId,
                               if started.Some? then started.value else 0);
          if !SessionChecks(after.sessions[uploadId]) then (t, Err(ConstraintViolation))
          else Checked(t, after, View(after, uploadId))
  }

  /** PartURLs: the one statement that records that parts are on their way. */
  function MarkUploading(t: Tables, s: Uuid): Tables {
    if s in t.sessions && t.sessions[s].status == Initiated then SetSession(t, s, Uploading) else t
  }

  /** The closing transaction of Complete, with the upload as it was read at the start. */
  function Complete(t: Tables, upload: Upload): (Tables, Result<(), Error>) {
    if upload.id !in t.sessions then (t, Err(NoRows))
    else if t.sessions[upload.id].status == Completed then (t, Ok(()))
    else if !t.sessions[upload.id].status.Live() then (t, Err(UploadExpired))
    else
      var ended := SetMedia(SetSession(t, upload.id, Completed), upload.mediaId, Ready);
      Checked(t, ChargeRoomOf(ended, upload.mediaId, -1, -upload.sizeBytes, 1, upload.sizeBytes), ())
  }

  /** releaseReservation, with the upload as it was read at the start. */
  function Release(t: Tables, upload: Upload, sessionStatus: SessionStatus, mediaStatus: MediaStatus)
    : (Tables, Result<(), Error>)
  {
    if upload.id !in t.sessions then (t, Err(NoRows))
    else if t.sessions[upload.id].status == Completed then (t, Err(UploadCompleted))
    else if !t.sessions[upload.id].status.Live() then (t, Ok(()))
    else
      var ended := SetMedia(SetSession(t, upload.id, sessionStatus), upload.mediaId, mediaStatus);
      Checked(t, ChargeRoomOf(ended, upload.mediaId, -1, -upload.sizeBytes, 0, 0), ())
  }

  /** Rows claimExpiredUpload may pick. */
  predicate Expirable(t: Tables, s: Uuid, now: Time) {
    && Joined(t, s) && t.sessions[s].status.Live() && t.sessions[s].expiresAt <= now
    && t.media[t.sessions[s].mediaId].room in t.rooms
  }

  /** claimExpiredUpload for the row `s` it picked. */
  function Expire(t: Tables, s: Uuid, now: Time): (Tables, Result<Upload, Error>) {
    if !Expirable(t, s, now) then (t, Err(NoRows))
    else
      var upload := View(t, s);
      var ended := SetMedia(SetSession(t, s, Expired), upload.mediaId, Failed);
      Checked(t, Charge(ended, t.media[upload.mediaId].room, -1, -upload.sizeBytes, 0, 0), upload)
  }

  /** The closing transaction of media Delete. */
  function DeleteMedia(t: Tables, m: Uuid, r: Uuid): (Tables, Result<(), Error>) {
    if m !in t.media || t.media[m].room != r || r !in t.rooms then (t, Ok(()))
    else if t.media[m].status == Deleted then (t, Ok(()))
    else if t.media[m].status != Ready && t.media[m].status != Failed then (t, Err(MediaNotReady))
    else
      var after := SetMedia(t, m, Deleted);
      if t.media[m].status == Ready
      then Checked(t, Charge(after, r, 0, 0, -1, -t.media[m].sizeBytes), ())
      else (after, Ok(()))
  }

  // ---- Rooms ----

  function NewRoom(slug: string, owner: Uuid, maxFiles: int, maxBytes: int, now: Time, expiresAt: Time): Room {
    Room(slug, owner, Active, true, maxFiles, maxBytes, 0, 0, 0, 0, now, expiresAt)
  }

  predicate SlugTaken(t: Tables, slug: string) {
    exists r :: r in t.rooms && t.rooms[r].slug == slug
  }

  function FirstFreeSlug(t: Tables, slugs: seq<string>): Option<string> {
    if slugs == [] then None
    else if !SlugTaken(t, slugs[0]) then Some(slugs[0])
    else FirstFreeSlug(t, slugs[1..])
  }

  /** One attempt to insert a room and its owner; NoRows when the slug is taken. */
  function InsertRoom(t: Tables, r: Uuid, room: Room): (Tables, Result<(), Error>) {
    if SlugTaken(t, room.slug) then (t, Err(NoRows))
    else if r in t.rooms || !RoomChecks(room) then (t, Err(ConstraintViolation))
    else (t.(rooms := t.rooms[r := room], members := t.members[(r, room.owner) := OwnerRole]), Ok(()))
  }

  function Join(t: Tables, r: Uuid, identity: Uuid): Tables {
    if r in t.rooms && (r, identity) !in t.members then t.(members := t.members[(r, identity) := MemberRole]) else t
  }

  /** The accepting_uploads part of room Update, under the room's row lock. */
  function SetAccepting(t: Tables, r: Uuid, identity: Uuid, accepting: bool, now: Time): (Tables, Result<(), Error>) {
    if r !in t.rooms || (r, identity) !in t.members then (t, Err(RoomNotFound))
    else if t.members[(r, identity)] != OwnerRole then (t, Err(OwnerRequired))
    else if t.rooms[r].status != Active || t.rooms[r].expiresAt <= now then (t, Err(RoomExpired))
    else (t.(rooms := t.rooms[r := t.rooms[r].(accepting := accepting)]), Ok(()))
  }

  /** What room Delete reads before it decides. */
  function AuthorizeDeletion(t: Tables, r: Uuid, identity: Uuid, now: Time): Result<bool, Error> {
    if r !in t.rooms || (r, identity) !in t.members then Err(RoomNotFound)
    else if t.members[(r, identity)] != OwnerRole then Err(OwnerRequired)
    else if t.rooms[r].status == Deleting then Ok(false)
    else if t.rooms[r].expiresAt <= now then Err(RoomExpired)
    else Ok(true)
  }

  /** The statement of room Delete. */
  function ScheduleDeletion(t: Tables, r: Uuid, identity: Uuid): (Tables, Result<(), Error>) {
    if r in t.rooms && t.rooms[r].owner == identity && t.rooms[r].status == Active
    then (t.(rooms := t.rooms[r := t.rooms[r].(status := Deleting, accepting := false)]), Ok(()))
    else (t, Err(RoomNotFound))
  }

  /** Rooms claimRoom may pick. */
  predicate Reclaimable(t: Tables, r: Uuid, now: Time) {
    r in t.rooms && ((t.rooms[r].status == Active && t.rooms[r].expiresAt <= now) || t.rooms[r].status == Deleting)
  }

  function ClaimRoom(t: Tables, r: Uuid, now: Time): (Tables, Result<Uuid, Error>) {
    if !Reclaimable(t, r, now) then (t, Err(NoRows))
    else (t.(rooms := t.rooms[r := t.rooms[r].(status := Deleting)]), Ok(r))
  }

  /** DELETE FROM rooms with its cascades. */
  function DropRoom(t: Tables, r: Uuid): Tables {
    if r !in t.rooms || t.rooms[r].status != Deleting then t
    else
      Tables(
        t.rooms - {r},
        map m | m in t.media && t.media[m].room != r :: t.media[m],
        map s | s in t.sessions && !(t.sessions[s].mediaId in t.media && t.media[t.sessions[s].mediaId].room == r)
          :: t.sessions[s],
        map k | k in t.members && k.0 != r :: t.members[k])
  }
}
