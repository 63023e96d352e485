/** The transactions again, one lock at a time.

    A transaction asks for row locks and for the advisory lock of its idempotency key in the order of its statements,
    waits while another transaction holds one, looks at each row once it has it, and gives all of them back when it
    commits or rolls back. Statements with SKIP LOCKED pass over locked rows instead of waiting. */
module RowLocks {
  import opened Basics
  import opened InitiateRequest
  import opened Schema
  import opened Transactions
  import opened LedgerInvariant
  import opened LedgerTransactions

  datatype Resource = AdvisoryLock(hash: int) | SessionRow(session: Uuid) | MediaRow(media: Uuid) | RoomRow(room: Uuid)

  /** Complete, or releaseReservation with the status it gives the media. */
  datatype Ending = Completing | Releasing(mediaStatus: MediaStatus)

  datatype Request = Request(identity: Uuid, key: Uuid, slug: string, input: Input, now: Time)

  /** Transactions that lock a single row. */
  datatype Change =
    | Uploading(session: Uuid)                                               // PartURLs
    | Accepting(room: Uuid, identity: Uuid, accepting: bool, now: Time)      // room Update
    | Scheduling(room: Uuid, identity: Uuid)                                 // room Delete
    | Claiming(room: Uuid, now: Time)                                        // claimRoom
    | Joining(room: Uuid, identity: Uuid)                                    // room Join
    | ThumbnailColumns(media: Uuid)                                          // the success UPDATE and markFailed

  /** A transaction in flight: which lock it is about to ask for, or that it is about to commit. */
  datatype Tx =
    | EndSession(upload: Upload, how: Ending)
    | EndMedia(upload: Upload, how: Ending)
    | EndRoom(upload: Upload, how: Ending)
    | EndCommit(upload: Upload, how: Ending)
    | ExpirePick(now: Time)
    | ExpireMedia(s: Uuid, m: Uuid, r: Uuid, now: Time)
    | ExpireCommit(s: Uuid, m: Uuid, r: Uuid, now: Time)
    | DeleteMediaLock(m: Uuid, r: Uuid)
    | DeleteRoomLock(m: Uuid, r: Uuid)
    | DeleteCommit(m: Uuid, r: Uuid)
    | InitiateKey(q: Request)
    | InitiateRoom(q: Request, r: Uuid)
    | InitiateCommit(q: Request, r: Uuid)
    | ThumbnailPick
    | ThumbnailCommit(m: Uuid)
    | RowLock(change: Change)
    | RowCommit(change: Change)

  /** `lockKey` is the hash of identity and idempotency key; it may collide. */
  datatype World = World(t: Tables, owner: map<Resource, nat>, txs: map<nat, Tx>, lockKey: (Uuid, Uuid) -> int)

  /** What a step does not decide itself: the row SKIP LOCKED comes to, new identifiers, the store's answer, and
      whether a scan is over. */
  datatype Choice = Choice(row: Uuid, mediaId: Uuid, uploadId: Uuid, started: Option<nat>, over: bool)

  datatype Event = Begin(id: nat, tx: Tx) | Advance(id: nat, choice: Choice) | Rollback(id: nat)

  // ---- Locks ----

  function HeldBy(owner: map<Resource, nat>, id: nat): set<Resource> {
    set x | x in owner && owner[x] == id
  }

  predicate Available(w: World, x: Resource, id: nat) {
    x in w.owner ==> w.owner[x] == id
  }

  function RowOf(change: Change): Resource {
    match change
    case Uploading(s) => SessionRow(s)
    case Accepting(r, _, _, _) => RoomRow(r)
    case Scheduling(r, _) => RoomRow(r)
    case Claiming(r, _) => RoomRow(r)
    case Joining(r, _) => RoomRow(r)
    case ThumbnailColumns(m) => MediaRow(m)
  }

  /** The lock a transaction waits for when someone else has it. */
  function Wanted(tx: Tx, lockKey: (Uuid, Uuid) -> int): Option<Resource> {
    match tx
    case EndSession(upload, _) => Some(SessionRow(upload.id))
    case EndMedia(upload, _) => Some(MediaRow(upload.mediaId))
    case EndRoom(upload, _) => Some(RoomRow(upload.key.room))
    case ExpireMedia(_, m, _, _) => Some(MediaRow(m))
    case DeleteMediaLock(m, _) => Some(MediaRow(m))
    case DeleteRoomLock(_, r) => Some(RoomRow(r))
    case InitiateKey(q) => Some(AdvisoryLock(lockKey(q.identity, q.key)))
    case InitiateRoom(_, r) => Some(RoomRow(r))
    case RowLock(change) => Some(RowOf(change))
    case _ => None
  }

  predicate Waits(w: World, a: nat, b: nat) {
    && a in w.txs && b != a
    && var wanted := Wanted(w.txs[a], w.lockKey);
    && wanted.Some? && wanted.value in w.owner && w.owner[wanted.value] == b
  }

  // ---- Steps ----

  function Proceed(w: World, id: nat, x: Resource, tx: Tx): World {
    if Available(w, x, id) then w.(owner := w.owner[x := id], txs := w.txs[id := tx]) else w
  }

  function Finish(w: World, id: nat, t: Tables): World {
    w.(t := t, owner := map x | x in w.owner && w.owner[x] != id :: w.owner[x], txs := w.txs - {id})
  }

  /** Take the lock, then go on or give up by what the row turns out to be. */
  function ProceedIf(w: World, id: nat, x: Resource, ok: bool, tx: Tx): World {
    if !Available(w, x, id) then w else if ok then Proceed(w, id, x, tx) else Finish(w, id, w.t)
  }

  predicate StillLive(t: Tables, s: Uuid) {
    s in t.sessions && t.sessions[s].status.Live()
  }

  function EndData(t: Tables, upload: Upload, how: Ending): (Tables, Result<(), Error>) {
    match how
    case Completing => Complete(t, upload)
    case Releasing(mediaStatus) => Release(t, upload, Aborted, mediaStatus)
  }

  function Apply(t: Tables, change: Change): Tables {
    match change
    case Uploading(s) => MarkUploading(t, s)
    case Accepting(r, identity, accepting, now) => SetAccepting(t, r, identity, accepting, now).0
    case Scheduling(r, identity) => ScheduleDeletion(t, r, identity).0
    case Claiming(r, now) => ClaimRoom(t, r, now).0
    case Joining(r, identity) => Join(t, r, identity)
    case ThumbnailColumns(_) => t
  }

  ghost function Admission(t: Tables, q: Request): Result<Uuid, Error> {
    LockRoomForUpload(t, q.identity, q.slug, q.input.sizeBytes, q.now)
  }

  ghost predicate NewKey(t: Tables, q: Request) {
    forall x :: !HasKey(t, x, q.identity, q.key)
  }

  ghost function InitiateData(t: Tables, q: Request, c: Choice): (Tables, Result<Upload, Error>) {
    Initiate(t, q.identity, q.key, q.slug, q.input, q.now, c.mediaId, c.uploadId, c.started)
  }

  /** FOR UPDATE OF u, r SKIP LOCKED at session `s`: the session lock is kept even if the room turns out locked. */
  function PickExpired(w: World, id: nat, now: Time, s: Uuid): World {
    if !Expirable(w.t, s, now) || !Available(w, SessionRow(s), id) then w
    else
      var m := w.t.sessions[s].mediaId;
      var r := w.t.media[m].room;
      var w1 := Proceed(w, id, SessionRow(s), ExpirePick(now));
      if Available(w1, RoomRow(r), id) then Proceed(w1, id, RoomRow(r), ExpireMedia(s, m, r, now)) else w1
  }

  predicate Commits(tx: Tx) {
    tx.EndCommit? || tx.ExpireCommit? || tx.DeleteCommit? || tx.InitiateCommit? || tx.ThumbnailCommit? || tx.RowCommit?
  }

  /** The tables after a commit: the whole transaction applied to the tables as they are at that moment. */
  ghost function Committed(t: Tables, tx: Tx, c: Choice): Tables
    requires Commits(tx)
  {
    match tx
    case EndCommit(upload, how) => EndData(t, upload, how).0
    case ExpireCommit(s, _, _, now) => Expire(t, s, now).0
    case DeleteCommit(m, r) => DeleteMedia(t, m, r).0
    case InitiateCommit(q, _) => InitiateData(t, q, c).0
    case ThumbnailCommit(_) => t
    case RowCommit(change) => Apply(t, change)
  }

  /** The next lock of a transaction that is not complete. */
  ghost function LockStep(w: World, id: nat, tx: Tx, c: Choice): World
    requires !Commits(tx)
  {
    match tx
    case EndSession(upload, how) =>
      ProceedIf(w, id, SessionRow(upload.id), StillLive(w.t, upload.id), EndMedia(upload, how))
    case EndMedia(upload, how) => Proceed(w, id, MediaRow(upload.mediaId), EndRoom(upload, how))
    case EndRoom(upload, how) => Proceed(w, id, RoomRow(upload.key.room), EndCommit(upload, how))
    case ExpirePick(now) => if c.over then Finish(w, id, w.t) else PickExpired(w, id, now, c.row)
    case ExpireMedia(s, m, r, now) => Proceed(w, id, MediaRow(m), ExpireCommit(s, m, r, now))
    case DeleteMediaLock(m, r) =>
      ProceedIf(w, id, MediaRow(m), m in w.t.media && w.t.media[m].room == r && r in w.t.rooms, DeleteRoomLock(m, r))
    case DeleteRoomLock(m, r) => Proceed(w, id, RoomRow(r), DeleteCommit(m, r))
    case InitiateKey(q) =>
      var found := RoomWithSlug(w.t, q.slug);
      ProceedIf(w, id, AdvisoryLock(w.lockKey(q.identity, q.key)), NewKey(w.t, q) && found.Some?,
                InitiateRoom(q, if found.Some? then found.value else 0))
    case InitiateRoom(q, r) => ProceedIf(w, id, RoomRow(r), Admission(w.t, q) == Ok(r), InitiateCommit(q, r))
    case ThumbnailPick =>
      if c.over then Finish(w, id, w.t)
      else if c.row in w.t.media && w.t.media[c.row].status == Ready && Available(w, MediaRow(c.row), id)
      then Proceed(w, id, MediaRow(c.row), ThumbnailCommit(c.row))
      else w
    case RowLock(change) => Proceed(w, id, RowOf(change), RowCommit(change))
  }

  ghost function Step(w: World, id: nat, tx: Tx, c: Choice): World {
    if Commits(tx) then Finish(w, id, Committed(w.t, tx, c)) else LockStep(w, id, tx, c)
  }

  predicate Settled(t: Tables, m: Uuid) {
    m in t.media && t.media[m].status != Pending
  }

  predicate GoodRequest(q: Request) {
    0 < q.input.sizeBytes <= MAX_VIDEO_SIZE
  }

  /** How transactions begin: with an upload, or with media that was ready or failed, as the request read it before. */
  predicate AtStart(t: Tables, tx: Tx) {
    match tx
    case EndSession(upload, how) =>
      && Joined(t, upload.id) && upload == View(t, upload.id).(status := upload.status)
      && (how.Releasing? ==> how.mediaStatus == Failed || how.mediaStatus == Deleted)
    case ExpirePick(_) => true
    case DeleteMediaLock(m, _) => Settled(t, m)
    case InitiateKey(q) => GoodRequest(q)
    case ThumbnailPick => true
    case RowLock(change) => change.ThumbnailColumns? ==> Settled(t, change.media)
    case _ => false
  }

  ghost function Next(w: World, e: Event): World {
    match e
    case Begin(id, tx) => if id in w.txs || !AtStart(w.t, tx) then w else w.(txs := w.txs[id := tx])
    case Advance(id, c) => if id in w.txs then Step(w, id, w.txs[id], c) else w
    case Rollback(id) => if id in w.txs then Finish(w, id, w.t) else w
  }

  ghost function Run(w: World, events: seq<Event>): World
    decreases |events|
  {
    if events == [] then w else Run(Next(w, events[0]), events[1..])
  }

  // ---- Invariant ----

  /** The session an ending works on is still as it was when its lock was granted. */
  ghost predicate Ongoing(t: Tables, upload: Upload, how: Ending) {
    && StillLive(t, upload.id) && Matches(t, upload) && upload.key == Original(t.media[upload.mediaId].room, upload.mediaId)
    && (how.Releasing? ==> how.mediaStatus == Failed || how.mediaStatus == Deleted)
  }

  predicate Picked(t: Tables, s: Uuid, m: Uuid, r: Uuid, now: Time) {
    Expirable(t, s, now) && t.sessions[s].mediaId == m && t.media[m].room == r
  }

  predicate SessionsAnd(held: set<Resource>, more: set<Resource>) {
    more <= held && forall x :: x in held ==> x in more || x.SessionRow?
  }

  /** What a transaction holds at each point, and what the rows it holds still are. */
  ghost predicate TxInv(t: Tables, held: set<Resource>, lockKey: (Uuid, Uuid) -> int, tx: Tx) {
    match tx
    case EndSession(upload, how) =>
      && held == {} && upload.id in t.sessions && Matches(t, upload)
      && upload.key == Original(t.media[upload.mediaId].room, upload.mediaId)
      && (how.Releasing? ==> how.mediaStatus == Failed || how.mediaStatus == Deleted)
    case EndMedia(upload, how) => held == {SessionRow(upload.id)} && Ongoing(t, upload, how)
    case EndRoom(upload, how) => held == {SessionRow(upload.id), MediaRow(upload.mediaId)} && Ongoing(t, upload, how)
    case EndCommit(upload, how) =>
      held == {SessionRow(upload.id), MediaRow(upload.mediaId), RoomRow(upload.key.room)} && Ongoing(t, upload, how)
    case ExpirePick(_) => SessionsAnd(held, {})
    case ExpireMedia(s, m, r, now) => SessionRow(s) in held && SessionsAnd(held, {RoomRow(r)}) && Picked(t, s, m, r, now)
    case ExpireCommit(s, m, r, now) =>
      SessionRow(s) in held && SessionsAnd(held, {RoomRow(r), MediaRow(m)}) && Picked(t, s, m, r, now)
    case DeleteMediaLock(m, r) => held == {} && Settled(t, m)
    case DeleteRoomLock(m, r) => held == {MediaRow(m)} && Settled(t, m) && t.media[m].room == r
    case DeleteCommit(m, r) => held == {MediaRow(m), RoomRow(r)} && Settled(t, m) && t.media[m].room == r
    case InitiateKey(q) => held == {} && GoodRequest(q)
    case InitiateRoom(q, r) => held == {AdvisoryLock(lockKey(q.identity, q.key))} && GoodRequest(q) && NewKey(t, q)
    case InitiateCommit(q, r) =>
      && held == {AdvisoryLock(lockKey(q.identity, q.key)), RoomRow(r)} && GoodRequest(q) && NewKey(t, q)
      && Admission(t, q) == Ok(r)
    case ThumbnailPick => held == {}
    case ThumbnailCommit(m) => held == {MediaRow(m)} && Settled(t, m)
    case RowLock(change) => held == {} && (change.ThumbnailColumns? ==> Settled(t, change.media))
    case RowCommit(change) => held == {RowOf(change)} && (change.ThumbnailColumns? ==> Settled(t, change.media))
  }

  ghost predicate TxGood(w: World, id: nat)
    requires id in w.txs
  {
    TxInv(w.t, HeldBy(w.owner, id), w.lockKey, w.txs[id])
  }

  ghost predicate LockInv(w: World) {
    && LedgerInv(w.t)
    && (forall x :: x in w.owner ==> w.owner[x] in w.txs)
    && (forall id {:trigger TxGood(w, id)} :: id in w.txs ==> TxGood(w, id))
  }

  // ---- What a commit may change ----

  /** `t'` differs from `t` only in rows whose locks are in `held`, in new rows, and in members that joined; a new
      session needs the advisory lock of its key. */
  ghost predicate ChangesOnly(t: Tables, t': Tables, held: set<Resource>, lockKey: (Uuid, Uuid) -> int) {
    && LedgerInv(t') && Evolves(t, t')
    && t'.rooms.Keys == t.rooms.Keys && t.media.Keys <= t'.media.Keys && t.sessions.Keys <= t'.sessions.Keys
    && (forall k :: k in t.members ==> k in t'.members && t'.members[k] == t.members[k])
    && (forall s :: s in t.sessions && t'.sessions[s] != t.sessions[s] ==> SessionRow(s) in held)
    && (forall m :: m in t.media && t'.media[m] != t.media[m] ==> MediaRow(m) in held)
    && (forall r :: r in t.rooms && t'.rooms[r] != t.rooms[r] ==> RoomRow(r) in held)
    && (forall s :: s in t'.sessions && s !in t.sessions ==>
          AdvisoryLock(lockKey(t'.sessions[s].identity, t'.sessions[s].idempotencyKey)) in held)
  }

  lemma NothingChanges(t: Tables, held: set<Resource>, lockKey: (Uuid, Uuid) -> int)
    requires LedgerInv(t)
    ensures ChangesOnly(t, t, held, lockKey)
  {
    EvolvesReflexive(t);
    hide LedgerInv;
  }
}
