/** The upload service and its workers as a step system.

    Any number of operations are under way at once. Each is an actor that carries a program counter and
    whatever it read earlier. A committed transaction is one step and a call to the object store is another;
    between two steps of one actor every other actor may move, the actor may vanish, and time may pass. */
module UploadProtocol {
  import opened Basics
  import opened InitiateRequest
  import opened Schema
  import opened Transactions
  import Multipart
  import PartList

  /** How a call to the object store ends: it may also take effect and still be reported as failed. */
  datatype Reply = Done | DoneButLost | NotDone

  datatype Outcome =
    | UploadAnswer(identity: Uuid, key: Uuid, hash: Digest, upload: Upload)
    | PartsAnswer(session: Uuid)
    | ReadyAnswer(session: Uuid)
    | MismatchAnswer(session: Uuid)
    | AbortedAnswer(session: Uuid)
    | DeletedAnswer(media: Uuid)
    | ScheduledAnswer
    | BatchAnswer
    | Refused(error: Error)

  datatype Actor =
    // Initiate
    | Initiating(identity: Uuid, key: Uuid, slug: string, input: Input)
    | Attaching(identity: Uuid, key: Uuid, hash: Digest, upload: Upload)
    // PartURLs
    | RequestingParts(identity: Uuid, session: Uuid, numbers: seq<int>)
    | MarkingParts(upload: Upload)
    // Complete
    | Completing(identity: Uuid, session: Uuid, parts: seq<PartList.Part>)
    | Assembling(upload: Upload)
    | CheckingAssembly(upload: Upload)
    | Measuring(upload: Upload)
    | Discarding(upload: Upload)
    | ReleasingMismatch(upload: Upload)
    | Committing(upload: Upload)
    // Abort
    | Aborting(identity: Uuid, session: Uuid)
    | AbortingStore(upload: Upload)
    | ReleasingAbort(upload: Upload)
    // Delete of media
    | DeletingMedia(identity: Uuid, media: Uuid)
    | RemovingMedia(media: Uuid, room: Uuid, objectKey: ObjectKey)
    | RemovingThumbnail(media: Uuid, room: Uuid)
    | CommittingDelete(media: Uuid, room: Uuid)
    // The cleanup worker's batch
    | ExpiringUploads
    | RemovingExpired(upload: Upload)
    | ClaimingRoom
    | PurgingRoom(room: Uuid)
    | DroppingRoom(room: Uuid)
    // Delete of a room
    | DeletingRoom(identity: Uuid, slug: string)
    | SchedulingRoom(identity: Uuid, slug: string)
    | Finished(outcome: Outcome)

  datatype World = World(
    t: Tables,
    objects: map<ObjectKey, int>,     // sizes of the stored objects
    multiparts: map<nat, int>,        // open multipart uploads and the size they would assemble to
    now: Time,
    actors: map<nat, Actor>,
    // History, read by no step:
    issued: set<Uuid>,                // identifiers ever used
    ended: map<Uuid, SessionStatus>,  // sessions that ended, and how
    roomsOpened: set<Uuid>,           // rooms ever opened
    purged: set<Uuid>)                // rooms whose objects were removed while the row said "deleting"

  /** What a step does not decide itself. */
  datatype Choice = Choice(
    reply: Reply, mediaId: Uuid, uploadId: Uuid, storageUpload: nat, row: Uuid, skip: bool)

  // ---- Pieces of a step ----

  ghost function EndedNow(t: Tables, t': Tables): map<Uuid, SessionStatus> {
    map s | s in t.sessions && s in t'.sessions && t.sessions[s].status.Live() && !t'.sessions[s].status.Live()
      :: t'.sessions[s].status
  }

  ghost function Commit(w: World, t': Tables): World {
    w.(t := t', ended := w.ended + EndedNow(w.t, t'))
  }

  function RemoveObject(w: World, key: ObjectKey, reply: Reply): World {
    if reply == NotDone then w else w.(objects := w.objects - {key})
  }

  /** RemovePrefix that failed on its way, having removed the room's objects up to some point. */
  function PurgedInPart(w: World, r: Uuid, reached: Uuid): World {
    w.(objects := map k | k in w.objects && (k.room != r || k.media >= reached) :: w.objects[k])
  }

  function Assembled(w: World, upload: Upload, reply: Reply): (World, bool) {
    if upload.kind.Single? || reply == NotDone || upload.kind.storageUpload !in w.multiparts then (w, false)
    else
      (w.(objects := w.objects[upload.key := w.multiparts[upload.kind.storageUpload]],
          multiparts := w.multiparts - {upload.kind.storageUpload}), reply == Done)
  }

  function AttachUrl(identity: Uuid, key: Uuid, hash: Digest, upload: Upload, now: Time, reply: Reply): Outcome {
    if upload.kind.Multipart? || upload.status == Completed then UploadAnswer(identity, key, hash, upload)
    else if !upload.status.Live() || upload.expiresAt <= now then Refused(UploadExpired)
    else if reply != Done then Refused(StoreFailure)
    else UploadAnswer(identity, key, hash, upload)
  }

  // ---- One step of one actor ----

  /** Initiate's transaction for a validated input. */
  ghost function Submit(w: World, a: Actor, c: Choice, input: Input): (Tables, Result<Upload, Error>)
    requires a.Initiating?
  {
    var started := if c.reply == Done then Some(c.storageUpload) else None;
    Initiate(w.t, a.identity, a.key, a.slug, input, w.now, c.mediaId, c.uploadId, started)
  }

  /** The identifiers a choice offers are new, to the tables and to the store. */
  predicate NewChoice(w: World, c: Choice) {
    c.mediaId !in w.issued && c.uploadId !in w.issued && c.storageUpload !in w.multiparts
  }

  /** Only an upload that was granted now has had a multipart upload started for it. */
  ghost function StepSubmit(w: World, a: Actor, c: Choice, input: Input): (World, Actor)
    requires a.Initiating?
  {
    if !NewChoice(w, c) then (w, a)
    else
      var (t', answer) := Submit(w, a, c, input);
      var w' := Commit(w, t').(issued := w.issued + {c.mediaId, c.uploadId});
      match answer
      case Err(e) => (w', Finished(Refused(e)))
      case Ok(upload) =>
        (if upload.kind.Multipart? && upload.id == c.uploadId
         then w'.(multiparts := w'.multiparts[upload.kind.storageUpload := 0])
         else w',
         Attaching(a.identity, a.key, Hash(a.slug, input), upload))
  }

  ghost function StepInitiate(w: World, a: Actor, c: Choice): (World, Actor)
    requires a.Initiating?
  {
    match Validate(a.input)
    case None => (w, Finished(Refused(InvalidInput)))
    case Some((_, input)) => StepSubmit(w, a, c, input)
  }

  ghost function StepParts(w: World, a: Actor, c: Choice): (World, Actor)
    requires a.RequestingParts? || a.MarkingParts?
  {
    match a
    case RequestingParts(identity, s, numbers) =>
      if !(1 <= |numbers| <= 20) then (w, Finished(Refused(InvalidUploadParts)))
      else
        (match GetUpload(w.t, identity, s)
         case Err(e) => (w, Finished(Refused(e)))
         case Ok(upload) =>
           if upload.kind.Single? then (w, Finished(Refused(InvalidUploadParts)))
           else if upload.status == Completed then (w, Finished(Refused(UploadCompleted)))
           else if !upload.status.Live() || upload.expiresAt <= w.now then (w, Finished(Refused(UploadExpired)))
           else if !Multipart.PartNumbersOk(numbers, upload.kind.partsCount) then (w, Finished(Refused(InvalidUploadParts)))
           else if c.reply != Done then (w, Finished(Refused(StoreFailure)))
           else (w, MarkingParts(upload)))
    case MarkingParts(upload) =>
      (Commit(w, MarkUploading(w.t, upload.id)), Finished(PartsAnswer(upload.id)))
  }

  ghost function StepComplete(w: World, a: Actor, c: Choice): (World, Actor)
    requires a.Completing? || a.Assembling? || a.CheckingAssembly? || a.Measuring?
             || a.Discarding? || a.ReleasingMismatch? || a.Committing?
  {
    match a
    case Completing(identity, s, parts) =>
      (match GetUpload(w.t, identity, s)
       case Err(e) => (w, Finished(Refused(e)))
       case Ok(upload) =>
         if upload.status == Completed then (w, Finished(ReadyAnswer(upload.id)))
         else if !upload.status.Live() || upload.expiresAt <= w.now then (w, Finished(Refused(UploadExpired)))
         else if upload.kind.Multipart? then
           if PartList.Complete(parts, upload.kind.partsCount) then (w, Assembling(upload))
           else (w, Finished(Refused(InvalidUploadParts)))
         else if parts != [] then (w, Finished(Refused(InvalidUploadParts)))
         else (w, Measuring(upload)))
    case Assembling(upload) =>
      var (w', ok) := Assembled(w, upload, c.reply);
      (w', if ok then Measuring(upload) else CheckingAssembly(upload))
    case CheckingAssembly(upload) =>
      if c.reply == Done && upload.key in w.objects then (w, Measuring(upload))
      else (w, Finished(Refused(StoreFailure)))
    case Measuring(upload) =>
      if c.reply != Done then (w, Finished(Refused(StoreFailure)))
      else if upload.key !in w.objects then (w, Finished(Refused(UploadNotReady)))
      else if w.objects[upload.key] != upload.sizeBytes then (w, Discarding(upload))
      else (w, Committing(upload))
    case Discarding(upload) =>
      (RemoveObject(w, upload.key, c.reply), ReleasingMismatch(upload))
    case ReleasingMismatch(upload) =>
      var (t', answer) := Release(w.t, upload, Aborted, Failed);
      (Commit(w, t'), Finished(if answer.Ok? then MismatchAnswer(upload.id) else Refused(answer.error)))
    case Committing(upload) =>
      var (t', answer) := Transactions.Complete(w.t, upload);
      (Commit(w, t'), Finished(if answer.Ok? then ReadyAnswer(upload.id) else Refused(answer.error)))
  }

  ghost function StepAbort(w: World, a: Actor, c: Choice): (World, Actor)
    requires a.Aborting? || a.AbortingStore? || a.ReleasingAbort?
  {
    match a
    case Aborting(identity, s) =>
      (match GetUpload(w.t, identity, s)
       case Err(e) => (w, Finished(Refused(e)))
       case Ok(upload) =>
         if upload.status == Completed then (w, Finished(Refused(UploadCompleted)))
         else if !upload.status.Live() then (w, Finished(AbortedAnswer(upload.id)))
         else (w, AbortingStore(upload)))
    case AbortingStore(upload) =>
      if upload.kind.Single? then (RemoveObject(w, upload.key, c.reply), ReleasingAbort(upload))
      else
        (if c.reply == NotDone then w else w.(multiparts := w.multiparts - {upload.kind.storageUpload}),
         if c.reply == Done then ReleasingAbort(upload) else Finished(Refused(StoreFailure)))
    case ReleasingAbort(upload) =>
      var (t', answer) := Release(w.t, upload, Aborted, Deleted);
      (Commit(w, t'), Finished(if answer.Ok? then AbortedAnswer(upload.id) else Refused(answer.error)))
  }

  ghost function StepDelete(w: World, a: Actor, c: Choice): (World, Actor)
    requires a.DeletingMedia? || a.RemovingMedia? || a.RemovingThumbnail? || a.CommittingDelete?
  {
    match a
    case DeletingMedia(identity, m) =>
      if m !in w.t.media || (w.t.media[m].room, identity) !in w.t.members then (w, Finished(Refused(MediaNotFound)))
      else
        var row := w.t.media[m];
        if w.t.members[(row.room, identity)] != OwnerRole && row.uploader != identity
        then (w, Finished(Refused(MediaAccessDenied)))
        else if row.status == Deleted then (w, Finished(DeletedAnswer(m)))
        else if row.status != Ready && row.status != Failed then (w, Finished(Refused(MediaNotReady)))
        else (w, RemovingMedia(m, row.room, row.key))
    case RemovingMedia(m, r, key) =>
      (RemoveObject(w, key, c.reply),
       if c.reply != Done then Finished(Refused(StoreFailure))
       else if c.skip then CommittingDelete(m, r) else RemovingThumbnail(m, r))
    case RemovingThumbnail(m, r) =>
      (RemoveObject(w, Thumbnail(r, m), c.reply),
       if c.reply != Done then Finished(Refused(StoreFailure)) else CommittingDelete(m, r))
    case CommittingDelete(m, r) =>
      var (t', answer) := DeleteMedia(w.t, m, r);
      (Commit(w, t'), Finished(if answer.Ok? then DeletedAnswer(m) else Refused(answer.error)))
  }

  ghost function StepCleanup(w: World, a: Actor, c: Choice): (World, Actor)
    requires a.ExpiringUploads? || a.RemovingExpired? || a.ClaimingRoom? || a.PurgingRoom? || a.DroppingRoom?
  {
    match a
    case ExpiringUploads =>
      if c.skip then (w, ClaimingRoom)
      else
        var (t', answer) := Expire(w.t, c.row, w.now);
        (Commit(w, t'),
         match answer
         case Ok(upload) => RemovingExpired(upload)
         case Err(e) => if e == NoRows then ClaimingRoom else Finished(Refused(e)))
    case RemovingExpired(upload) =>
      (if upload.kind.Single? then RemoveObject(w, upload.key, c.reply)
       else if c.reply == NotDone then w
       else w.(multiparts := w.multiparts - {upload.kind.storageUpload}),
       ExpiringUploads)
    case ClaimingRoom =>
      if c.skip then (w, Finished(BatchAnswer))
      else
        var (t', answer) := ClaimRoom(w.t, c.row, w.now);
        (Commit(w, t'), if answer.Ok? then PurgingRoom(c.row) else Finished(BatchAnswer))
    case PurgingRoom(r) =>
      if c.reply != Done then (PurgedInPart(w, r, c.mediaId), Finished(Refused(StoreFailure)))
      else
        (w.(objects := map k | k in w.objects && k.room != r :: w.objects[k],
            purged := if r in w.t.rooms && w.t.rooms[r].status == Deleting then w.purged + {r} else w.purged),
         DroppingRoom(r))
    case DroppingRoom(r) =>
      (Commit(w, DropRoom(w.t, r)), ClaimingRoom)
  }

  ghost function StepRoom(w: World, a: Actor): (World, Actor)
    requires a.DeletingRoom? || a.SchedulingRoom?
  {
    match RoomWithSlug(w.t, a.slug)
    case None => (w, Finished(Refused(RoomNotFound)))
    case Some(r) =>
      if a.DeletingRoom? then
        match AuthorizeDeletion(w.t, r, a.identity, w.now)
        case Err(e) => (w, Finished(Refused(e)))
        case Ok(proceed) => (w, if proceed then SchedulingRoom(a.identity, a.slug) else Finished(ScheduledAnswer))
      else
        var (t', answer) := ScheduleDeletion(w.t, r, a.identity);
        (Commit(w, t'), Finished(if answer.Ok? then ScheduledAnswer else Refused(answer.error)))
  }

  ghost function Step(w: World, a: Actor, c: Choice): (World, Actor) {
    if a.Finished? then (w, a)
    else if a.Initiating? then StepInitiate(w, a, c)
    else if a.Attaching? then (w, Finished(AttachUrl(a.identity, a.key, a.hash, a.upload, w.now, c.reply)))
    else if a.RequestingParts? || a.MarkingParts? then StepParts(w, a, c)
    else if a.Aborting? || a.AbortingStore? || a.ReleasingAbort? then StepAbort(w, a, c)
    else if a.DeletingMedia? || a.RemovingMedia? || a.RemovingThumbnail? || a.CommittingDelete? then StepDelete(w, a, c)
    else if a.DeletingRoom? || a.SchedulingRoom? then StepRoom(w, a)
    else if a.ExpiringUploads? || a.RemovingExpired? || a.ClaimingRoom? || a.PurgingRoom? || a.DroppingRoom?
    then StepCleanup(w, a, c)
    else StepComplete(w, a, c)
  }

  // ---- Events and runs ----

  datatype Event =
    | Tick(micros: nat)
    | Start(id: nat, actor: Actor)
    | Crash(id: nat)
    | Move(id: nat, choice: Choice)
    | PutObject(objectKey: ObjectKey, size: int)    // a client uses a presigned URL
    | PutPart(storageUpload: nat, total: int)
    | OpenRoom(room: Uuid, slug: string, owner: Uuid, maxFiles: int, maxBytes: int, expiresAt: Time)
    | JoinRoom(room: Uuid, identity: Uuid)
    | EditRoom(room: Uuid, identity: Uuid, accepting: bool)

  /** Operations begin at their first step. */
  predicate AtStart(a: Actor) {
    a.Initiating? || a.RequestingParts? || a.Completing? || a.Aborting? || a.DeletingMedia?
    || a.ExpiringUploads? || a.DeletingRoom?
  }

  /** What an event does; one that does not apply changes nothing. */
  ghost function Next(w: World, e: Event): World {
    match e
    case Tick(micros) => w.(now := w.now + micros)
    case Start(id, a) => if id in w.actors || !AtStart(a) then w else w.(actors := w.actors[id := a])
    case Crash(id) => w.(actors := w.actors - {id})
    case Move(id, c) =>
      if id !in w.actors then w
      else
        var (w', a') := Step(w, w.actors[id], c);
        w'.(actors := w'.actors[id := a'])
    case PutObject(key, size) => w.(objects := w.objects[key := size])
    case PutPart(u, total) => if u in w.multiparts then w.(multiparts := w.multiparts[u := total]) else w
    case OpenRoom(r, slug, owner, maxFiles, maxBytes, expiresAt) =>
      if r in w.issued || !BoundedLimits(maxFiles, maxBytes) then w
      else
        var (t', answer) := InsertRoom(w.t, r, NewRoom(slug, owner, maxFiles, maxBytes, w.now, expiresAt));
        Commit(w, t').(issued := w.issued + {r}, roomsOpened := if answer.Ok? then w.roomsOpened + {r} else w.roomsOpened)
    case JoinRoom(r, identity) => Commit(w, Join(w.t, r, identity))
    case EditRoom(r, identity, accepting) => Commit(w, SetAccepting(w.t, r, identity, accepting, w.now).0)
  }

  ghost function Run(w: World, events: seq<Event>): World
    decreases |events|
  {
    if events == [] then w else Run(Next(w, events[0]), events[1..])
  }

  function Initial(now: Time): World {
    World(Tables(map[], map[], map[], map[]), map[], map[], now, map[], {}, map[], {}, {})
  }
}
