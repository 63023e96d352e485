/** The rooms, media, upload_sessions and room_members tables. */
module Schema {
  import opened Basics

  datatype RoomStatus = Active | Deleting

  datatype Room = Room(
    slug: string, owner: Uuid, status: RoomStatus, accepting: bool,
    maxFiles: int, maxBytes: int,
    usedFiles: int, usedBytes: int, reservedFiles: int, reservedBytes: int,
    createdAt: Time, expiresAt: Time)

  datatype MediaStatus = Pending | Ready | Failed | Deleted

  /** Where the object store keeps an object of a room. */
  datatype ObjectKey = Original(room: Uuid, media: Uuid) | Thumbnail(room: Uuid, media: Uuid)

  datatype Media = Media(
    room: Uuid, uploader: Uuid, status: MediaStatus, sizeBytes: int, key: ObjectKey, createdAt: Time)

  /** A multipart upload carries the store's upload identifier and its part geometry. */
  datatype UploadKind = Single | Multipart(storageUpload: nat, partSize: int, partsCount: int)

  datatype SessionStatus = Initiated | Uploading | Completed | Aborted | Expired {
    /** The reservation is still held. */
    predicate Live() {
      Initiated? || Uploading?
    }
  }

  datatype Session = Session(
    mediaId: Uuid, identity: Uuid, kind: UploadKind, status: SessionStatus,
    createdAt: Time, expiresAt: Time, idempotencyKey: Uuid, requestHash: Digest)

  datatype Role = OwnerRole | MemberRole

  datatype Tables = Tables(
    rooms: map<Uuid, Room>, media: map<Uuid, Media>, sessions: map<Uuid, Session>,
    members: map<(Uuid, Uuid), Role>)

  const DAY: Time := 24 * 60 * 60 * 1_000_000
  const THREE_DAYS: Time := 3 * DAY

  /** The CHECK constraints on a room row. A statement that would break one fails its transaction. */
  predicate RoomChecks(r: Room) {
    && r.maxFiles > 0 && r.maxBytes > 0
    && r.usedFiles >= 0 && r.usedBytes >= 0 && r.reservedFiles >= 0 && r.reservedBytes >= 0
    && r.usedFiles <= r.maxFiles && r.usedBytes <= r.maxBytes
    && r.usedFiles + r.reservedFiles <= r.maxFiles
    && r.usedBytes + r.reservedBytes <= r.maxBytes
    && r.createdAt < r.expiresAt <= r.createdAt + THREE_DAYS
  }

  /** The CHECK constraints on a session row. */
  predicate SessionChecks(s: Session) {
    s.createdAt < s.expiresAt && (s.kind.Multipart? ==> s.kind.partSize > 0 && s.kind.partsCount > 0)
  }

  datatype Error =
    | InvalidInput | RoomNotFound | RoomExpired | NotMember | OwnerRequired | UploadsClosed | RoomLimitReached
    | UploadNotFound | UploadExpired | UploadCompleted | UploadNotReady | MediaNotReady
    | MediaNotFound | MediaAccessDenied | InvalidUploadParts | UploadedSizeMismatch
    | IdempotencyConflict | NoRows | ConstraintViolation | StoreFailure

  /** An upload session joined with its media row, as a request reads it. */
  datatype Upload = Upload(
    id: Uuid, mediaId: Uuid, kind: UploadKind, status: SessionStatus, expiresAt: Time,
    key: ObjectKey, sizeBytes: int)
}
