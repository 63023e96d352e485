/** Every step of every transaction keeps the lock discipline and the ledger. */
module RowLockSteps {
  import opened Basics
  import opened InitiateRequest
  import opened Schema
  import opened Transactions
  import opened LedgerInvariant
  import opened LedgerTransactions
  import opened RowLocks

  // ---- What a transaction read under its locks stays true while others commit ----

  lemma OngoingIsStable(t: Tables, t': Tables, mine: set<Resource>, lockKey: (Uuid, Uuid) -> int, upload: Upload, how: Ending)
    requires ChangesOnly(t, t', mine, lockKey) && SessionRow(upload.id) !in mine && Ongoing(t, upload, how)
    ensures Ongoing(t', upload, how)
  {
    hide LedgerInv;
    assert MediaEvolves(t.media[upload.mediaId], t'.media[upload.mediaId]);
  }

  lemma WaitingEndIsStable(t: Tables, t': Tables, mine: set<Resource>, lockKey: (Uuid, Uuid) -> int, upload: Upload)
    requires ChangesOnly(t, t', mine, lockKey) && Matches(t, upload) && upload.id in t.sessions
    requires upload.key == Original(t.media[upload.mediaId].room, upload.mediaId)
    ensures Matches(t', upload) && upload.key == Original(t'.media[upload.mediaId].room, upload.mediaId)
  {
    hide LedgerInv;
    assert MediaEvolves(t.media[upload.mediaId], t'.media[upload.mediaId]);
    assert SessionEvolves(t.sessions[upload.id], t'.sessions[upload.id]);
  }

  lemma SettledIsStable(t: Tables, t': Tables, mine: set<Resource>, lockKey: (Uuid, Uuid) -> int, m: Uuid)
    requires ChangesOnly(t, t', mine, lockKey) && Settled(t, m)
    ensures Settled(t', m) && t'.media[m].room == t.media[m].room
  {
    hide LedgerInv;
    assert MediaEvolves(t.media[m], t'.media[m]);
  }

  lemma PickedIsStable(t: Tables, t': Tables, mine: set<Resource>, lockKey: (Uuid, Uuid) -> int,
                       s: Uuid, m: Uuid, r: Uuid, now: Time)
    requires ChangesOnly(t, t', mine, lockKey) && SessionRow(s) !in mine && Picked(t, s, m, r, now)
    ensures Picked(t', s, m, r, now)
  {
    hide LedgerInv;
    assert MediaEvolves(t.media[m], t'.media[m]);
  }

  lemma NewKeyIsStable(t: Tables, t': Tables, mine: set<Resource>, lockKey: (Uuid, Uuid) -> int, q: Request)
    requires LedgerInv(t) && ChangesOnly(t, t', mine, lockKey) && NewKey(t, q)
    requires AdvisoryLock(lockKey(q.identity, q.key)) !in mine
    ensures NewKey(t', q)
  {
    forall x | HasKey(t', x, q.identity, q.key)
      ensures false
    {
      if x in t.sessions {
        assert SoundSession(t, x);
        assert SessionEvolves(t.sessions[x], t'.sessions[x]);
        assert HasKey(t, x, q.identity, q.key);
      }
    }
  }

  lemma AdmissionIsStable(t: Tables, t': Tables, mine: set<Resource>, lockKey: (Uuid, Uuid) -> int, q: Request, r: Uuid)
    requires ChangesOnly(t, t', mine, lockKey) && RoomRow(r) !in mine && Admission(t, q) == Ok(r)
    ensures Admission(t', q) == Ok(r)
  {
    assert r in t'.rooms && t'.rooms[r] == t.rooms[r];
    SlugFindsOne(t', r, q.slug);
    hide LedgerInv, Evolves, ChangesOnly;
  }

  /** While one transaction commits, the others keep what they know. */
  lemma OthersAreStable(t: Tables, t': Tables, mine: set<Resource>, held: set<Resource>, lockKey: (Uuid, Uuid) -> int, tx: Tx)
    requires LedgerInv(t) && ChangesOnly(t, t', mine, lockKey) && mine !! held && TxInv(t, held, lockKey, tx)
    ensures TxInv(t', held, lockKey, tx)
  {
    hide ChangesOnly, LedgerInv, Ongoing, Matches, Settled, Picked, NewKey, Admission, HasKey;
    match tx
    case EndSession(upload, how) => EndSessionIsStable(t, t', mine, held, lockKey, upload, how);
    case EndMedia(upload, how) => assert SessionRow(upload.id) in held; OngoingIsStable(t, t', mine, lockKey, upload, how);
    case EndRoom(upload, how) => assert SessionRow(upload.id) in held; OngoingIsStable(t, t', mine, lockKey, upload, how);
    case EndCommit(upload, how) => assert SessionRow(upload.id) in held; OngoingIsStable(t, t', mine, lockKey, upload, how);
    case ExpireMedia(s, m, r, now) => PickedIsStable(t, t', mine, lockKey, s, m, r, now);
    case ExpireCommit(s, m, r, now) => PickedIsStable(t, t', mine, lockKey, s, m, r, now);
    case DeleteMediaLock(m, r) => SettledIsStable(t, t', mine, lockKey, m);
    case DeleteRoomLock(m, r) => SettledIsStable(t, t', mine, lockKey, m);
    case DeleteCommit(m, r) => SettledIsStable(t, t', mine, lockKey, m);
    case InitiateRoom(q, r) =>
      assert AdvisoryLock(lockKey(q.identity, q.key)) in held;
      NewKeyIsStable(t, t', mine, lockKey, q);
    case InitiateCommit(q, r) =>
      assert AdvisoryLock(lockKey(q.identity, q.key)) in held && RoomRow(r) in held;
      NewKeyIsStable(t, t', mine, lockKey, q);
      AdmissionIsStable(t, t', mine, lockKey, q, r);
    case ThumbnailCommit(m) => SettledIsStable(t, t', mine, lockKey, m);
    case RowLock(change) => if change.ThumbnailColumns? { SettledIsStable(t, t', mine, lockKey, change.media); }
    case RowCommit(change) => if change.ThumbnailColumns? { SettledIsStable(t, t', mine, lockKey, change.media); }
    case _ =>
  }

  lemma EndSessionIsStable(t: Tables, t': Tables, mine: set<Resource>, held: set<Resource>, lockKey: (Uuid, Uuid) -> int,
                           upload: Upload, how: Ending)
    requires ChangesOnly(t, t', mine, lockKey) && TxInv(t, held, lockKey, EndSession(upload, how))
    ensures TxInv(t', held, lockKey, EndSession(upload, how))
  {
    hide LedgerInv, Evolves;
    WaitingEndIsStable(t, t', mine, lockKey, upload);
  }

  // ---- Taking a lock, and giving all back ----

  lemma ProceedKeeps(w: World, id: nat, x: Resource, tx: Tx)
    requires LockInv(w) && id in w.txs && Available(w, x, id)
    requires TxInv(w.t, HeldBy(w.owner, id) + {x}, w.lockKey, tx)
    ensures LockInv(Proceed(w, id, x, tx))
  {
    var w' := Proceed(w, id, x, tx);
    hide LedgerInv, TxInv;
    forall j | j in w'.txs
      ensures TxGood(w', j)
    {
      if j == id {
        assert HeldBy(w'.owner, id) == HeldBy(w.owner, id) + {x};
      } else {
        assert TxGood(w, j);
        assert HeldBy(w'.owner, j) == HeldBy(w.owner, j);
      }
    }
  }

  lemma FinishKeeps(w: World, id: nat, t': Tables)
    requires LockInv(w) && id in w.txs && ChangesOnly(w.t, t', HeldBy(w.owner, id), w.lockKey)
    ensures LockInv(Finish(w, id, t'))
  {
    var w' := Finish(w, id, t');
    hide LedgerInv, TxInv, Evolves;
    forall j | j in w'.txs
      ensures TxGood(w', j)
    {
      assert TxGood(w, j);
      assert HeldBy(w'.owner, j) == HeldBy(w.owner, j);
      OthersAreStable(w.t, t', HeldBy(w.owner, id), HeldBy(w.owner, j), w.lockKey, w.txs[j]);
    }
  }

  lemma GivingUpKeeps(w: World, id: nat)
    requires LockInv(w) && id in w.txs
    ensures LockInv(Finish(w, id, w.t))
  {
    NothingChanges(w.t, HeldBy(w.owner, id), w.lockKey);
    FinishKeeps(w, id, w.t);
  }

  lemma ProceedIfKeeps(w: World, id: nat, x: Resource, ok: bool, tx: Tx)
    requires LockInv(w) && id in w.txs
    requires ok ==> TxInv(w.t, HeldBy(w.owner, id) + {x}, w.lockKey, tx)
    ensures LockInv(ProceedIf(w, id, x, ok, tx))
  {
    hide LockInv, TxInv, Finish;
    if Available(w, x, id) {
      if ok {
        ProceedKeeps(w, id, x, tx);
      } else {
        GivingUpKeeps(w, id);
      }
    }
  }

  // ---- What each commit changes ----

  lemma RowsStay(t: Tables, t': Tables, ids: set<Uuid>)
    requires LedgerInv(t) && LedgerTransactions.Keeps(t, t', ids)
    ensures t.media.Keys <= t'.media.Keys && t.sessions.Keys <= t'.sessions.Keys
  {
    SoundIsCoupled(t);
    hide LedgerInv;
  }

  /** Ending session `s` touches its row, its media's and its room's. */
  lemma EndChanges(t: Tables, t': Tables, s: Uuid, sessionStatus: SessionStatus, mediaStatus: MediaStatus,
                   held: set<Resource>, lockKey: (Uuid, Uuid) -> int)
    requires LedgerInv(t) && LedgerTransactions.Keeps(t, t', {}) && Ends(t, t', s, sessionStatus, mediaStatus)
    requires SessionRow(s) in held && MediaRow(t.sessions[s].mediaId) in held
    requires RoomRow(t.media[t.sessions[s].mediaId].room) in held
    ensures ChangesOnly(t, t', held, lockKey)
  {
    hide LedgerInv, Evolves;
  }

  lemma CommitOfEnd(t: Tables, held: set<Resource>, lockKey: (Uuid, Uuid) -> int, upload: Upload, how: Ending)
    requires LedgerInv(t) && TxInv(t, held, lockKey, EndCommit(upload, how))
    ensures EndData(t, upload, how).1 == Ok(())
    ensures ChangesOnly(t, EndData(t, upload, how).0, held, lockKey)
  {
    var t' := EndData(t, upload, how).0;
    hide LedgerInv, Complete, Release;
    match how
    case Completing =>
      CompleteEnds(t, upload);
      CompleteKeepsLedger(t, upload);
      EndChanges(t, t', upload.id, Completed, Ready, held, lockKey);
    case Releasing(mediaStatus) =>
      ReleaseEnds(t, upload, mediaStatus);
      ReleaseKeepsLedger(t, upload, mediaStatus);
      EndChanges(t, t', upload.id, Aborted, mediaStatus, held, lockKey);
  }

  lemma CommitOfExpiry(t: Tables, held: set<Resource>, lockKey: (Uuid, Uuid) -> int, s: Uuid, m: Uuid, r: Uuid, now: Time)
    requires LedgerInv(t) && TxInv(t, held, lockKey, ExpireCommit(s, m, r, now))
    ensures Expire(t, s, now).1 == Ok(View(t, s))
    ensures ChangesOnly(t, Expire(t, s, now).0, held, lockKey)
  {
    hide LedgerInv, Expire;
    ExpireEnds(t, s, now);
    ExpireKeepsLedger(t, s, now);
    EndChanges(t, Expire(t, s, now).0, s, Expired, Failed, held, lockKey);
  }

  lemma DeleteTouches(t: Tables, m: Uuid, r: Uuid)
    requires r in t.rooms
    ensures
      var t' := DeleteMedia(t, m, r).0;
      && t'.sessions == t.sessions && t'.members == t.members
      && (forall x :: x in t.media && x != m ==> x in t'.media && t'.media[x] == t.media[x])
      && (forall x :: x in t.rooms && x != r ==> x in t'.rooms && t'.rooms[x] == t.rooms[x])
  {
  }

  lemma CommitOfDelete(t: Tables, held: set<Resource>, lockKey: (Uuid, Uuid) -> int, m: Uuid, r: Uuid)
    requires LedgerInv(t) && TxInv(t, held, lockKey, DeleteCommit(m, r))
    ensures DeleteMedia(t, m, r).1 == Ok(())
    ensures ChangesOnly(t, DeleteMedia(t, m, r).0, held, lockKey)
  {
    assert SoundMedia(t, m);
    hide LedgerInv, Evolves, AddsOnly, SoundMedia, Checked;
    DeleteMediaKeepsLedger(t, m, r);
    RowsStay(t, DeleteMedia(t, m, r).0, {});
    DeleteTouches(t, m, r);
    hide DeleteMedia;
  }

  lemma ReservationChanges(t: Tables, t': Tables, held: set<Resource>, lockKey: (Uuid, Uuid) -> int, q: Request, r: Uuid,
                           mediaId: Uuid, uploadId: Uuid, started: nat)
    requires LedgerInv(t) && r in t.rooms && mediaId !in t.media && uploadId !in t.sessions
    requires t' == Reserve(t, r, q.identity, q.key, q.input, Hash(q.slug, q.input), q.now, mediaId, uploadId, started)
    requires LedgerTransactions.Keeps(t, t', {mediaId, uploadId})
    requires AdvisoryLock(lockKey(q.identity, q.key)) in held && RoomRow(r) in held
    ensures ChangesOnly(t, t', held, lockKey)
  {
    hide LedgerInv, Evolves, Hash, KindFor;
  }

  lemma CommitOfInitiate(t: Tables, held: set<Resource>, lockKey: (Uuid, Uuid) -> int, q: Request, r: Uuid, c: Choice)
    requires LedgerInv(t) && TxInv(t, held, lockKey, InitiateCommit(q, r))
    ensures ChangesOnly(t, InitiateData(t, q, c).0, held, lockKey)
    ensures InitiateData(t, q, c).1.Ok?
      <==>
      && c.mediaId !in t.media && c.uploadId !in t.sessions
      && !(q.input.sizeBytes > MULTIPART_THRESHOLD && c.started.None?)
  {
    KeyNotFound(t, q.identity, q.key);
    assert r in t.rooms;
    if Grants(t, q.identity, q.key, q.slug, q.input, q.now, c.mediaId, c.uploadId, c.started) {
      InitiateReserves(t, q.identity, q.key, q.slug, q.input, q.now, c.mediaId, c.uploadId, c.started, r);
      hide LedgerInv, Evolves, Initiate, Admission, LockRoomForUpload, ChangesOnly, Reserve;
      ReservationChanges(t, InitiateData(t, q, c).0, held, lockKey, q, r, c.mediaId, c.uploadId,
                         if c.started.Some? then c.started.value else 0);
    } else {
      NothingChanges(t, held, lockKey);
      InitiateRefuses(t, q, r, c);
    }
  }

  lemma InitiateRefuses(t: Tables, q: Request, r: Uuid, c: Choice)
    requires FindIdempotent(t, q.identity, q.key).None? && Admission(t, q) == Ok(r)
    requires !Grants(t, q.identity, q.key, q.slug, q.input, q.now, c.mediaId, c.uploadId, c.started)
    ensures InitiateData(t, q, c).0 == t && InitiateData(t, q, c).1.Err?
  {
  }

  lemma RoomChanges(t: Tables, t': Tables, r: Uuid, held: set<Resource>, lockKey: (Uuid, Uuid) -> int)
    requires LedgerInv(t) && LedgerTransactions.Keeps(t, t', {}) && RoomRow(r) in held
    requires t'.media == t.media && t'.sessions == t.sessions
    requires forall x :: x in t.rooms && x != r ==> t'.rooms[x] == t.rooms[x]
    requires forall k :: k in t.members ==> k in t'.members && t'.members[k] == t.members[k]
    ensures ChangesOnly(t, t', held, lockKey)
  {
    hide LedgerInv, Evolves;
  }

  lemma CommitOfUploading(t: Tables, held: set<Resource>, lockKey: (Uuid, Uuid) -> int, s: Uuid)
    requires LedgerInv(t) && SessionRow(s) in held
    ensures ChangesOnly(t, MarkUploading(t, s), held, lockKey)
  {
    hide LedgerInv, Evolves, AddsOnly;
    MarkUploadingKeepsLedger(t, s);
  }

  lemma ChangeKeepsLedger(t: Tables, change: Change)
    requires LedgerInv(t)
    ensures LedgerTransactions.Keeps(t, Apply(t, change), {})
  {
    hide LedgerInv, LedgerTransactions.Keeps;
    match change {
      case Uploading(s) => MarkUploadingKeepsLedger(t, s);
      case Accepting(r, identity, accepting, now) => SetAcceptingKeepsLedger(t, r, identity, accepting, now);
      case Scheduling(r, identity) => ScheduleDeletionKeepsLedger(t, r, identity);
      case Claiming(r, now) => ClaimRoomKeepsLedger(t, r, now);
      case Joining(r, identity) => JoinKeepsLedger(t, r, identity);
      case ThumbnailColumns(_) => EvolvesReflexive(t);
    }
  }

  /** A change to a room row leaves everything else as it is, but for a member that joins. */
  lemma RoomChangeTouches(t: Tables, change: Change)
    requires RowOf(change).RoomRow?
    ensures
      var (t', r) := (Apply(t, change), RowOf(change).room);
      && t'.media == t.media && t'.sessions == t.sessions && t'.rooms.Keys == t.rooms.Keys
      && (forall x :: x in t.rooms && x != r ==> t'.rooms[x] == t.rooms[x])
      && (forall k :: k in t.members ==> k in t'.members && t'.members[k] == t.members[k])
  {
  }

  lemma CommitOfChange(t: Tables, held: set<Resource>, lockKey: (Uuid, Uuid) -> int, change: Change)
    requires LedgerInv(t) && RowOf(change) in held
    ensures ChangesOnly(t, Apply(t, change), held, lockKey)
  {
    hide LedgerInv, LedgerTransactions.Keeps, ChangesOnly, MarkUploading, SetAccepting, ScheduleDeletion, ClaimRoom, Join;
    if change.Uploading? {
      CommitOfUploading(t, held, lockKey, change.session);
    } else if change.ThumbnailColumns? {
      NothingChanges(t, held, lockKey);
    } else {
      ChangeKeepsLedger(t, change);
      RoomChangeTouches(t, change);
      RoomChanges(t, Apply(t, change), RowOf(change).room, held, lockKey);
    }
  }

  // ---- Steps ----

  lemma PickKeeps(w: World, id: nat, now: Time, s: Uuid)
    requires LockInv(w) && id in w.txs && w.txs[id] == ExpirePick(now)
    ensures LockInv(PickExpired(w, id, now, s))
  {
    assert TxGood(w, id);
    hide LedgerInv;
    if Expirable(w.t, s, now) && Available(w, SessionRow(s), id) {
      var m := w.t.sessions[s].mediaId;
      var r := w.t.media[m].room;
      var w1 := Proceed(w, id, SessionRow(s), ExpirePick(now));
      ProceedKeeps(w, id, SessionRow(s), ExpirePick(now));
      assert TxGood(w1, id);
      assert SessionRow(s) in HeldBy(w1.owner, id);
      if Available(w1, RoomRow(r), id) {
        ProceedKeeps(w1, id, RoomRow(r), ExpireMedia(s, m, r, now));
      }
    }
  }

  lemma EndingLockKeeps(w: World, id: nat, c: Choice)
    requires LockInv(w) && id in w.txs && (w.txs[id].EndSession? || w.txs[id].EndMedia? || w.txs[id].EndRoom?)
    ensures LockInv(LockStep(w, id, w.txs[id], c))
  {
    assert TxGood(w, id);
    hide LockInv, HeldBy, Finish, Proceed, ProceedIf, Matches;
    match w.txs[id]
    case EndSession(upload, how) =>
      ProceedIfKeeps(w, id, SessionRow(upload.id), StillLive(w.t, upload.id), EndMedia(upload, how));
    case EndMedia(upload, how) => ProceedOrStay(w, id, MediaRow(upload.mediaId), EndRoom(upload, how));
    case EndRoom(upload, how) => ProceedOrStay(w, id, RoomRow(upload.key.room), EndCommit(upload, how));
  }

  lemma ExpiryLockKeeps(w: World, id: nat, c: Choice)
    requires LockInv(w) && id in w.txs && (w.txs[id].ExpirePick? || w.txs[id].ExpireMedia?)
    ensures LockInv(LockStep(w, id, w.txs[id], c))
  {
    assert TxGood(w, id);
    hide LockInv, HeldBy, Finish, Proceed, PickExpired, Expirable;
    match w.txs[id]
    case ExpirePick(now) =>
      if c.over { GivingUpKeeps(w, id); } else { PickKeeps(w, id, now, c.row); }
    case ExpireMedia(s, m, r, now) => ProceedOrStay(w, id, MediaRow(m), ExpireCommit(s, m, r, now));
  }

  lemma DeletionLockKeeps(w: World, id: nat, c: Choice)
    requires LockInv(w) && id in w.txs && (w.txs[id].DeleteMediaLock? || w.txs[id].DeleteRoomLock?)
    ensures LockInv(LockStep(w, id, w.txs[id], c))
  {
    assert TxGood(w, id);
    hide LockInv, HeldBy, Finish, Proceed, ProceedIf;
    match w.txs[id]
    case DeleteMediaLock(m, r) =>
      ProceedIfKeeps(w, id, MediaRow(m), m in w.t.media && w.t.media[m].room == r && r in w.t.rooms, DeleteRoomLock(m, r));
    case DeleteRoomLock(m, r) => ProceedOrStay(w, id, RoomRow(r), DeleteCommit(m, r));
  }

  lemma IsGood(w: World, id: nat)
    requires LockInv(w) && id in w.txs
    ensures TxGood(w, id)
  {
  }

  lemma KeyLockKeeps(w: World, id: nat, c: Choice)
    requires LockInv(w) && id in w.txs && w.txs[id].InitiateKey?
    ensures LockInv(LockStep(w, id, w.txs[id], c))
  {
    hide LockInv, HeldBy, Finish, Proceed, ProceedIf, Admission, NewKey, RoomWithSlug;
    IsGood(w, id);
    var q := w.txs[id].q;
    var found := RoomWithSlug(w.t, q.slug);
    ProceedIfKeeps(w, id, AdvisoryLock(w.lockKey(q.identity, q.key)), NewKey(w.t, q) && found.Some?,
                   InitiateRoom(q, if found.Some? then found.value else 0));
  }

  lemma InitiateLockKeeps(w: World, id: nat, c: Choice)
    requires LockInv(w) && id in w.txs && (w.txs[id].InitiateKey? || w.txs[id].InitiateRoom?)
    ensures LockInv(LockStep(w, id, w.txs[id], c))
  {
    hide LockInv, HeldBy, Finish, Proceed, ProceedIf, Admission, NewKey, RoomWithSlug;
    IsGood(w, id);
    if w.txs[id].InitiateKey? {
      KeyLockKeeps(w, id, c);
    } else {
      var (q, r) := (w.txs[id].q, w.txs[id].r);
      ProceedIfKeeps(w, id, RoomRow(r), Admission(w.t, q) == Ok(r), InitiateCommit(q, r));
    }
  }

  lemma OneRowLockKeeps(w: World, id: nat, c: Choice)
    requires LockInv(w) && id in w.txs && (w.txs[id].ThumbnailPick? || w.txs[id].RowLock?)
    ensures LockInv(LockStep(w, id, w.txs[id], c))
  {
    assert TxGood(w, id);
    hide LockInv, HeldBy, Finish, Proceed;
    match w.txs[id]
    case ThumbnailPick =>
      if c.over {
        GivingUpKeeps(w, id);
      } else if c.row in w.t.media && w.t.media[c.row].status == Ready {
        ProceedOrStay(w, id, MediaRow(c.row), ThumbnailCommit(c.row));
      }
    case RowLock(change) => ProceedOrStay(w, id, RowOf(change), RowCommit(change));
  }

  lemma LockStepKeeps(w: World, id: nat, c: Choice)
    requires LockInv(w) && id in w.txs && !Commits(w.txs[id])
    ensures LockInv(LockStep(w, id, w.txs[id], c))
  {
    hide LockInv, LockStep;
    match w.txs[id]
    case EndSession(_, _) => EndingLockKeeps(w, id, c);
    case EndMedia(_, _) => EndingLockKeeps(w, id, c);
    case EndRoom(_, _) => EndingLockKeeps(w, id, c);
    case ExpirePick(_) => ExpiryLockKeeps(w, id, c);
    case ExpireMedia(_, _, _, _) => ExpiryLockKeeps(w, id, c);
    case DeleteMediaLock(_, _) => DeletionLockKeeps(w, id, c);
    case DeleteRoomLock(_, _) => DeletionLockKeeps(w, id, c);
    case InitiateKey(_) => InitiateLockKeeps(w, id, c);
    case InitiateRoom(_, _) => InitiateLockKeeps(w, id, c);
    case ThumbnailPick => OneRowLockKeeps(w, id, c);
    case RowLock(_) => OneRowLockKeeps(w, id, c);
  }

  /** A commit changes only rows whose locks its transaction holds. */
  lemma CommitChanges(t: Tables, held: set<Resource>, lockKey: (Uuid, Uuid) -> int, tx: Tx, c: Choice)
    requires LedgerInv(t) && Commits(tx) && TxInv(t, held, lockKey, tx)
    ensures ChangesOnly(t, Committed(t, tx, c), held, lockKey)
  {
    hide LedgerInv, EndData, Expire, DeleteMedia, InitiateData, Apply, ChangesOnly, Ongoing, Picked, Settled, NewKey, Admission;
    match tx
    case EndCommit(upload, how) => CommitOfEnd(t, held, lockKey, upload, how);
    case ExpireCommit(s, m, r, now) => CommitOfExpiry(t, held, lockKey, s, m, r, now);
    case DeleteCommit(m, r) => CommitOfDelete(t, held, lockKey, m, r);
    case InitiateCommit(q, r) => CommitOfInitiate(t, held, lockKey, q, r, c);
    case ThumbnailCommit(_) => NothingChanges(t, held, lockKey);
    case RowCommit(change) => CommitOfChange(t, held, lockKey, change);
  }

  lemma StepKeeps(w: World, id: nat, c: Choice)
    requires LockInv(w) && id in w.txs
    ensures LockInv(Step(w, id, w.txs[id], c))
  {
    assert TxGood(w, id) && LedgerInv(w.t);
    hide LockInv, LockStep, Finish, Committed, TxInv, ChangesOnly, LedgerInv, HeldBy;
    if Commits(w.txs[id]) {
      CommitChanges(w.t, HeldBy(w.owner, id), w.lockKey, w.txs[id], c);
      FinishKeeps(w, id, Committed(w.t, w.txs[id], c));
    } else {
      LockStepKeeps(w, id, c);
    }
  }

  lemma ProceedOrStay(w: World, id: nat, x: Resource, tx: Tx)
    requires LockInv(w) && id in w.txs && TxInv(w.t, HeldBy(w.owner, id) + {x}, w.lockKey, tx)
    ensures LockInv(Proceed(w, id, x, tx))
  {
    hide LockInv, TxInv;
    if Available(w, x, id) {
      ProceedKeeps(w, id, x, tx);
    }
  }

  lemma BeginKeeps(w: World, id: nat, tx: Tx)
    requires LockInv(w) && id !in w.txs && AtStart(w.t, tx)
    ensures LockInv(w.(txs := w.txs[id := tx]))
  {
    var w' := w.(txs := w.txs[id := tx]);
    forall j | j in w'.txs
      ensures TxGood(w', j)
    {
      if j == id {
        assert HeldBy(w.owner, id) == {};
        if tx.EndSession? {
          assert SoundMedia(w.t, tx.upload.mediaId);
        }
      } else {
        assert TxGood(w, j);
      }
    }
  }

  lemma NextKeeps(w: World, e: Event)
    requires LockInv(w)
    ensures LockInv(Next(w, e))
  {
    hide LockInv, Step, Finish, AtStart;
    match e
    case Begin(id, tx) => if id !in w.txs && AtStart(w.t, tx) { BeginKeeps(w, id, tx); }
    case Advance(id, c) => if id in w.txs { StepKeeps(w, id, c); }
    case Rollback(id) => if id in w.txs { GivingUpKeeps(w, id); }
  }

  lemma {:induction false} RunKeeps(w: World, events: seq<Event>)
    requires LockInv(w)
    ensures LockInv(Run(w, events))
    decreases |events|
  {
    hide LockInv, Next;
    if events != [] {
      NextKeeps(w, events[0]);
      RunKeeps(Next(w, events[0]), events[1..]);
    }
  }
}
