/** The cleanup worker's batch, alone with the database at one clock reading. */
module Cleanup {
  import opened Basics
  import opened Schema
  import opened Transactions
  import opened LedgerInvariant
  import opened LedgerTransactions
  import opened Database

  function DiscardedObject(upload: Upload): set<ObjectKey> {
    if upload.kind.Single? then {upload.key} else {}
  }

  function DiscardedParts(upload: Upload): set<nat> {
    if upload.kind.Multipart? then {upload.kind.storageUpload} else {}
  }

  class Store {
    var objects: set<ObjectKey>
    var multiparts: set<nat>   // open multipart uploads
    ghost var sound: bool      // no removal of a prefix failed so far
    ghost var swept: bool      // no discarded upload failed so far

    /** Remove for a single upload, AbortMultipart for the other kind. Either may fail, also after it took effect. */
    method Discard(upload: Upload) returns (ok: bool)
      modifies this
      ensures sound == old(sound) && (swept <==> old(swept) && ok)
      ensures old(objects) - DiscardedObject(upload) <= objects <= old(objects)
      ensures old(multiparts) - DiscardedParts(upload) <= multiparts <= old(multiparts)
      ensures ok ==> DiscardedObject(upload) !! objects && DiscardedParts(upload) !! multiparts
    {
      var effect: bool := *;
      if effect {
        match upload.kind
        case Single => objects := objects - {upload.key};
        case Multipart(u, _, _) => multiparts := multiparts - {u};
      }
      ok := *;
      ok := ok && effect;
      swept := swept && ok;
    }

    /** RemovePrefix: on success none of the room's objects is left; on failure some may be. */
    method RemovePrefix(room: Uuid) returns (ok: bool)
      modifies this
      ensures ok ==> objects == set k | k in old(objects) && k.room != room
      ensures sound <==> old(sound) && ok
      ensures swept == old(swept) && multiparts == old(multiparts)
      ensures (set k | k in old(objects) && k.room != room) <= objects <= old(objects)
    {
      var all := set k | k in objects && k.room == room;
      while all != {}
        invariant (set k | k in old(objects) && k.room != room) <= objects <= old(objects)
        invariant all == set k | k in objects && k.room == room
        invariant sound == old(sound) && swept == old(swept) && multiparts == old(multiparts)
        decreases all
      {
        var removed: bool := *;
        if !removed {
          sound := false;
          return false;
        }
        var k :| k in all;
        all := all - {k};
        objects := objects - {k};
      }
      forall k | k in objects
        ensures k.room != room
      {
        assert k !in all;
      }
      return true;
    }
  }

  ghost predicate Overdue(t: Tables, s: Uuid, now: Time) {
    s in t.sessions && t.sessions[s].status.Live() && t.sessions[s].expiresAt <= now
  }

  /** The sessions the batch still has to expire. */
  ghost function OverdueSessions(t: Tables, now: Time): set<Uuid> {
    set s | s in t.sessions && Overdue(t, s, now)
  }

  /** `t'` is `t` with exactly the overdue sessions expired, as far as sessions and rooms go. */
  ghost predicate Drained(t: Tables, t': Tables, now: Time) {
    && t'.sessions.Keys == t.sessions.Keys && t'.rooms.Keys == t.rooms.Keys
    && (forall s :: s in t.sessions ==>
          t'.sessions[s] == if Overdue(t, s, now) then t.sessions[s].(status := Expired) else t.sessions[s])
  }

  /** A live session in a room that is over is overdue. */
  lemma LiveIsOverdue(t: Tables, r: Uuid, m: Uuid, now: Time)
    requires LedgerInv(t) && r in t.rooms && t.rooms[r].expiresAt <= now && m in LiveMedia(t, r)
    ensures exists s :: Overdue(t, s, now)
  {
    var s :| s in t.sessions && t.sessions[s].mediaId == m && t.sessions[s].status.Live();
    assert SoundSession(t, s);
    assert Overdue(t, s, now);
  }

  /** Rooms that have expired have no live session once no session is overdue, because a session's deadline is
      never after its room's. So their reserved counters are zero. */
  lemma ExpiredRoomIsIdle(t: Tables, r: Uuid, now: Time)
    requires LedgerInv(t) && r in t.rooms && t.rooms[r].expiresAt <= now
    requires forall s :: !Overdue(t, s, now)
    ensures LiveMedia(t, r) == {}
    ensures t.rooms[r].reservedFiles == 0 && t.rooms[r].reservedBytes == 0
  {
    if m :| m in LiveMedia(t, r) {
      LiveIsOverdue(t, r, m, now);
    }
    LiveIsPending(t, r);
    assert GoodRoom(t, r);
    assert MediaIn(t.media, r, Pending) == {};
  }

  /** In particular a room claimed because its lifetime is over holds no reservation when it is deleted. */
  lemma ClaimedRoomIsIdle(t: Tables, r: Uuid, now: Time)
    requires LedgerInv(t) && Reclaimable(t, r, now) && forall s :: !Overdue(t, s, now)
    ensures t.rooms[r].status == Active ==>
      LiveMedia(t, r) == {} && t.rooms[r].reservedFiles == 0 && t.rooms[r].reservedBytes == 0
  {
    if t.rooms[r].status == Active {
      ExpiredRoomIsIdle(t, r, now);
    }
  }

  /** Which rows the batch expires next is settled by the tables alone. */
  lemma OverdueIsExpirable(t: Tables, s: Uuid, now: Time)
    requires Sound(t)
    ensures Overdue(t, s, now) <==> Expirable(t, s, now)
  {
    if s in t.sessions {
      assert SoundSession(t, s);
    }
  }

  predicate SameObjectKeys(media: map<Uuid, Media>, media': map<Uuid, Media>) {
    media'.Keys == media.Keys && forall m :: m in media ==> media'[m].key == media[m].key
  }

  /** `k` is the object of a single upload that is overdue. */
  ghost predicate OverdueObject(t: Tables, k: ObjectKey, now: Time) {
    exists s :: Overdue(t, s, now) && Joined(t, s) && t.sessions[s].kind.Single? && t.media[t.sessions[s].mediaId].key == k
  }

  /** `u` is the store's multipart upload of an overdue session. */
  ghost predicate OverdueParts(t: Tables, u: nat, now: Time) {
    exists s :: Overdue(t, s, now) && t.sessions[s].kind.Multipart? && t.sessions[s].kind.storageUpload == u
  }

  lemma ExpireDrains(t: Tables, s: Uuid, now: Time)
    requires LedgerInv(t) && Expirable(t, s, now)
    ensures
      var t' := Expire(t, s, now).0;
      && OverdueSessions(t', now) == OverdueSessions(t, now) - {s}
      && t'.sessions == t.sessions[s := t.sessions[s].(status := Expired)]
      && SameObjectKeys(t.media, t'.media)
      && SameRooms(t.rooms, t'.rooms)
  {
    hide LedgerInv, Expire;
    ExpireEnds(t, s, now);
  }

  ghost predicate SessionsDraining(t: Tables, t': Tables, now: Time) {
    && t'.sessions.Keys == t.sessions.Keys
    && forall s :: s in t.sessions ==>
         t'.sessions[s] == t.sessions[s]
         || (Overdue(t, s, now) && t'.sessions[s] == t.sessions[s].(status := Expired))
  }

  ghost predicate SameRooms(rooms: map<Uuid, Room>, rooms': map<Uuid, Room>) {
    && rooms'.Keys == rooms.Keys
    && forall r :: r in rooms ==> RoomEvolves(rooms[r], rooms'[r]) && rooms'[r].status == rooms[r].status
  }

  /** `t'` is `t` on the way to being drained. */
  ghost predicate Draining(t: Tables, t': Tables, now: Time) {
    SessionsDraining(t, t', now) && SameObjectKeys(t.media, t'.media) && SameRooms(t.rooms, t'.rooms)
  }

  lemma SameRoomsFurther(rooms: map<Uuid, Room>, rooms': map<Uuid, Room>, rooms2: map<Uuid, Room>)
    requires SameRooms(rooms, rooms') && SameRooms(rooms', rooms2)
    ensures SameRooms(rooms, rooms2)
  {
  }

  lemma SameKeysFurther(media: map<Uuid, Media>, media': map<Uuid, Media>, media2: map<Uuid, Media>)
    requires SameObjectKeys(media, media') && SameObjectKeys(media', media2)
    ensures SameObjectKeys(media, media2)
  {
  }

  lemma SessionsDrainFurther(t: Tables, t': Tables, t2: Tables, s: Uuid, now: Time)
    requires SessionsDraining(t, t', now) && Overdue(t', s, now)
    requires t2.sessions == t'.sessions[s := t'.sessions[s].(status := Expired)]
    ensures SessionsDraining(t, t2, now)
  {
  }

  lemma DrainStep(t: Tables, t': Tables, s: Uuid, now: Time)
    requires Draining(t, t', now) && LedgerInv(t') && Expirable(t', s, now)
    ensures Draining(t, Expire(t', s, now).0, now)
    ensures OverdueSessions(Expire(t', s, now).0, now) < OverdueSessions(t', now)
    ensures forall x :: Overdue(t', x, now) && x != s ==> Overdue(Expire(t', s, now).0, x, now)
  {
    assert Overdue(t', s, now) by {
      OverdueIsExpirable(t', s, now);
    }
    hide LedgerInv, Expire, Expirable, SameRooms, SameObjectKeys, SessionsDraining, Overdue;
    ExpireDrains(t', s, now);
    SameRoomsFurther(t.rooms, t'.rooms, Expire(t', s, now).0.rooms);
    SessionsDrainFurther(t, t', Expire(t', s, now).0, s, now);
    SameKeysFurther(t.media, t'.media, Expire(t', s, now).0.media);
    assert s in OverdueSessions(t', now);
  }

  /** What the store is asked to discard belonged to an overdue upload from the start. */
  lemma DrainedUpload(t: Tables, t': Tables, upload: Upload, now: Time)
    requires Draining(t, t', now) && Expirable(t', upload.id, now) && Expire(t', upload.id, now).1 == Ok(upload)
    ensures Overdue(t, upload.id, now) && Joined(t, upload.id) && t.sessions[upload.id].kind == upload.kind
    ensures t.media[t.sessions[upload.id].mediaId].key == upload.key
  {
    assert upload == View(t', upload.id);
    hide Expire, SameRooms;
  }

  /** What is there of single and multipart uploads that were not overdue is still there. */
  ghost predicate OthersKept(t: Tables, objects: set<ObjectKey>, parts: set<nat>, objects': set<ObjectKey>, parts': set<nat>,
                             now: Time)
  {
    && objects' <= objects && parts' <= parts
    && (forall k :: k in objects && !OverdueObject(t, k, now) ==> k in objects')
    && (forall u :: u in parts && !OverdueParts(t, u, now) ==> u in parts')
  }

  lemma DiscardKeepsOthers(t: Tables, objects: set<ObjectKey>, parts: set<nat>, objects1: set<ObjectKey>, parts1: set<nat>,
                           objects2: set<ObjectKey>, parts2: set<nat>, upload: Upload, now: Time)
    requires OthersKept(t, objects, parts, objects1, parts1, now)
    requires Overdue(t, upload.id, now) && Joined(t, upload.id) && t.sessions[upload.id].kind == upload.kind
    requires t.media[t.sessions[upload.id].mediaId].key == upload.key
    requires objects1 - DiscardedObject(upload) <= objects2 <= objects1
    requires parts1 - DiscardedParts(upload) <= parts2 <= parts1
    ensures OthersKept(t, objects, parts, objects2, parts2, now)
  {
    assert upload.kind.Single? ==> OverdueObject(t, upload.key, now);
    assert upload.kind.Multipart? ==> OverdueParts(t, upload.kind.storageUpload, now);
    hide OverdueObject, OverdueParts, Overdue;
  }

  /** What belonged to the sessions that were expired on the way from `t` to `t'` is gone. */
  ghost predicate Swept(t: Tables, t': Tables, objects: set<ObjectKey>, parts: set<nat>, now: Time) {
    forall s :: Overdue(t, s, now) && !Overdue(t', s, now) && Joined(t, s) ==>
      && (t.sessions[s].kind.Single? ==> t.media[t.sessions[s].mediaId].key !in objects)
      && (t.sessions[s].kind.Multipart? ==> t.sessions[s].kind.storageUpload !in parts)
  }

  lemma SweptFurther(t: Tables, t1: Tables, t2: Tables, objects1: set<ObjectKey>, parts1: set<nat>,
                     objects2: set<ObjectKey>, parts2: set<nat>, upload: Upload, now: Time)
    requires Swept(t, t1, objects1, parts1, now) && objects2 <= objects1 && parts2 <= parts1
    requires forall s :: Overdue(t1, s, now) && s != upload.id ==> Overdue(t2, s, now)
    requires Joined(t, upload.id) && t.sessions[upload.id].kind == upload.kind
    requires t.media[t.sessions[upload.id].mediaId].key == upload.key
    requires DiscardedObject(upload) !! objects2 && DiscardedParts(upload) !! parts2
    ensures Swept(t, t2, objects2, parts2, now)
  {
    hide Overdue;
    assert upload.kind.Single? ==> upload.key in DiscardedObject(upload);
    assert upload.kind.Multipart? ==> upload.kind.storageUpload in DiscardedParts(upload);
  }

  /** When nothing is overdue any more, everything is swept. */
  lemma SweptClean(t: Tables, t': Tables, objects: set<ObjectKey>, parts: set<nat>, now: Time)
    requires Sound(t) && Swept(t, t', objects, parts, now) && forall s :: !Overdue(t', s, now)
    ensures forall k :: OverdueObject(t, k, now) ==> k !in objects
    ensures forall u :: OverdueParts(t, u, now) ==> u !in parts
  {
    forall u | OverdueParts(t, u, now)
      ensures u !in parts
    {
      var s :| Overdue(t, s, now) && t.sessions[s].kind.Multipart? && t.sessions[s].kind.storageUpload == u;
      assert SoundSession(t, s);
    }
  }

  lemma DrainDone(t: Tables, t': Tables, now: Time)
    requires Draining(t, t', now) && LedgerInv(t')
    requires forall s :: !Expirable(t', s, now)
    ensures Drained(t, t', now)
    ensures forall s :: !Overdue(t', s, now)
  {
    forall s
      ensures !Overdue(t', s, now)
    {
      OverdueIsExpirable(t', s, now);
    }
    forall s | s in t.sessions
      ensures t'.sessions[s] == if Overdue(t, s, now) then t.sessions[s].(status := Expired) else t.sessions[s]
    {
      assert !Overdue(t', s, now);
    }
  }

  /** `t'` is `t` without the rooms `dropped`, all of which could be reclaimed, and with some rooms marked. */
  ghost predicate Reclaiming(t: Tables, t': Tables, dropped: set<Uuid>, now: Time) {
    && t'.rooms.Keys == t.rooms.Keys - dropped && dropped <= t.rooms.Keys
    && (forall r :: r in dropped ==> Reclaimable(t, r, now))
    && (forall r :: r in t'.rooms ==>
          t'.rooms[r] == t.rooms[r] || (Reclaimable(t, r, now) && t'.rooms[r] == t.rooms[r].(status := Deleting)))
  }

  lemma ClaimedWasReclaimable(t: Tables, t': Tables, dropped: set<Uuid>, r: Uuid, now: Time)
    requires Reclaiming(t, t', dropped, now) && Reclaimable(t', r, now)
    ensures Reclaimable(t, r, now)
  {
  }

  /** One round: claim `r`, then drop it. */
  lemma ReclaimStep(t: Tables, t': Tables, dropped: set<Uuid>, r: Uuid, now: Time)
    requires Reclaiming(t, t', dropped, now) && Reclaimable(t', r, now)
    requires forall s :: !Overdue(t', s, now)
    ensures
      var after := DropRoom(ClaimRoom(t', r, now).0, r);
      && Reclaiming(t, after, dropped + {r}, now)
      && after.rooms.Keys == t'.rooms.Keys - {r}
      && forall s :: !Overdue(after, s, now)
  {
    var after := DropRoom(ClaimRoom(t', r, now).0, r);
    forall s
      ensures !Overdue(after, s, now)
    {
      assert !Overdue(t', s, now);
    }
  }

  lemma KeepOverdue(t: Tables, r: Uuid, now: Time)
    requires forall s :: !Overdue(t, s, now)
    ensures forall s :: !Overdue(ClaimRoom(t, r, now).0, s, now)
  {
    forall s
      ensures !Overdue(ClaimRoom(t, r, now).0, s, now)
    {
      assert !Overdue(t, s, now);
    }
  }

  lemma ReclaimDone(t: Tables, t': Tables, dropped: set<Uuid>, now: Time)
    requires Reclaiming(t, t', dropped, now) && forall r :: !Reclaimable(t', r, now)
    ensures forall r :: r in t'.rooms <==> r in t.rooms && !Reclaimable(t, r, now)
    ensures forall r :: Reclaimable(t, r, now) ==> r in dropped
  {
    forall r
      ensures Reclaimable(t, r, now) <==> r in dropped
    {
      assert !Reclaimable(t', r, now);
    }
  }

  /** Expiring uploads does not change which rooms can be reclaimed. */
  lemma SameReclaimable(t: Tables, t': Tables, now: Time)
    requires Draining(t, t', now)
    ensures forall r :: Reclaimable(t, r, now) <==> Reclaimable(t', r, now)
  {
  }

  lemma NotReclaimable(t: Tables, now: Time)
    ensures forall r :: r in t.rooms ==>
      (Reclaimable(t, r, now) <==> t.rooms[r].status == Deleting || t.rooms[r].expiresAt <= now)
  {
  }

  class Worker {
    const db: Database
    const store: Store

    constructor (db: Database, store: Store)
      ensures this.db == db && this.store == store
    {
      this.db := db;
      this.store := store;
    }

    /** expireUploads terminates and leaves no live session past its deadline; failures of the store do not stop it.
        While the store works, nothing that belonged to an overdue upload is left in it. */
    method ExpireUploads(now: Time)
      requires db.Valid()
      modifies db, store
      ensures db.Valid()
      ensures forall s :: !Overdue(db.State(), s, now)
      ensures Drained(old(db.State()), db.State(), now) && Draining(old(db.State()), db.State(), now)
      ensures store.sound == old(store.sound) && (store.swept ==> old(store.swept))
      ensures store.swept ==> forall k :: OverdueObject(old(db.State()), k, now) ==> k !in store.objects
      ensures store.swept ==> forall u :: OverdueParts(old(db.State()), u, now) ==> u !in store.multiparts
      ensures OthersKept(old(db.State()), old(store.objects), old(store.multiparts), store.objects, store.multiparts, now)
    {
      while true
        invariant db.Valid() && Draining(old(db.State()), db.State(), now)
        invariant OthersKept(old(db.State()), old(store.objects), old(store.multiparts), store.objects, store.multiparts, now)
        invariant store.swept ==> Swept(old(db.State()), db.State(), store.objects, store.multiparts, now)
        invariant store.sound == old(store.sound) && (store.swept ==> old(store.swept))
        decreases OverdueSessions(db.State(), now)
      {
        hide LedgerInv, Draining, Expire, OthersKept, OverdueObject, OverdueParts, OverdueSessions, Overdue, Expirable, Swept;
        ghost var before := db.State();
        ghost var (objects, parts) := (store.objects, store.multiparts);
        var upload := db.ClaimExpiredUpload(now);
        if upload.None? {
          DrainDone(old(db.State()), before, now);
          if store.swept {
            SweptClean(old(db.State()), before, store.objects, store.multiparts, now);
          }
          return;
        }
        DrainStep(old(db.State()), before, upload.value.id, now);
        DrainedUpload(old(db.State()), before, upload.value, now);
        var ok := store.Discard(upload.value);
        DiscardKeepsOthers(old(db.State()), old(store.objects), old(store.multiparts), objects, parts,
                           store.objects, store.multiparts, upload.value, now);
        if store.swept {
          SweptFurther(old(db.State()), before, db.State(), objects, parts, store.objects, store.multiparts,
                       upload.value, now);
        }
      }
    }

    /** The second half of runBatch: reclaim rooms one at a time until none is left or the store fails. */
    method ReclaimRooms(now: Time) returns (ok: bool)
      requires db.Valid() && forall s :: !Overdue(db.State(), s, now)
      modifies db, store
      ensures db.Valid() && forall s :: !Overdue(db.State(), s, now)
      ensures ok ==> forall r :: !Reclaimable(db.State(), r, now)
      ensures ok ==> forall r :: r in db.rooms <==> r in old(db.rooms) && !Reclaimable(old(db.State()), r, now)
      ensures ok ==> forall k :: k in store.objects ==> !Reclaimable(old(db.State()), k.room, now)
      ensures forall k :: k in old(store.objects) && !Reclaimable(old(db.State()), k.room, now) ==> k in store.objects
      ensures store.objects <= old(store.objects) && (old(store.sound) ==> (store.sound <==> ok))
      ensures store.swept == old(store.swept) && store.multiparts == old(store.multiparts)
    {
      ghost var dropped: set<Uuid> := {};
      while true
        invariant db.Valid() && Reclaiming(old(db.State()), db.State(), dropped, now)
        invariant forall s :: !Overdue(db.State(), s, now)
        invariant forall k :: k in store.objects ==> k.room !in dropped
        invariant forall k :: k in old(store.objects) && !Reclaimable(old(db.State()), k.room, now) ==> k in store.objects
        invariant store.objects <= old(store.objects) && store.sound == old(store.sound)
        invariant store.swept == old(store.swept) && store.multiparts == old(store.multiparts)
        decreases db.rooms.Keys
      {
        hide LedgerInv, Reclaiming, Reclaimable, ClaimRoom, DropRoom, Overdue;
        ghost var before := db.State();
        var claimed := db.ClaimRoomRow(now);
        if claimed.None? {
          ReclaimDone(old(db.State()), before, dropped, now);
          return true;
        }
        var r := claimed.value;
        ClaimedRoomIsIdle(before, r, now);
        ClaimedWasReclaimable(old(db.State()), before, dropped, r, now);
        ReclaimStep(old(db.State()), before, dropped, r, now);
        var removed := store.RemovePrefix(r);
        if !removed {
          KeepOverdue(before, r, now);
          return false;
        }
        db.DeleteRoomRow(r);
        dropped := dropped + {r};
      }
    }

    /** runBatch. It terminates and leaves no live session past its deadline. Exactly when no removal of a room's
        objects fails, it also leaves no room to reclaim: the rooms left are exactly those that are active and not
        over, and no object of a dropped room is left. While discarding uploads does not fail either, nothing that
        belonged to an overdue upload is left. In any case it removes only what belongs to reclaimable rooms and to
        overdue uploads. */
    method RunBatch(now: Time) returns (ok: bool)
      requires db.Valid()
      modifies db, store
      ensures db.Valid()
      ensures forall s :: !Overdue(db.State(), s, now)
      ensures ok ==> forall r :: r in db.rooms <==>
        r in old(db.rooms) && old(db.rooms)[r].status == Active && now < old(db.rooms)[r].expiresAt
      ensures ok ==> forall k :: k in store.objects ==> !Reclaimable(old(db.State()), k.room, now)
      ensures store.swept ==> forall k :: OverdueObject(old(db.State()), k, now) ==> k !in store.objects
      ensures store.swept ==> forall u :: OverdueParts(old(db.State()), u, now) ==> u !in store.multiparts
      ensures forall k :: k in old(store.objects) - store.objects ==>
        Reclaimable(old(db.State()), k.room, now) || OverdueObject(old(db.State()), k, now)
      ensures forall u :: u in old(store.multiparts) - store.multiparts ==> OverdueParts(old(db.State()), u, now)
      ensures store.objects <= old(store.objects) && (old(store.sound) ==> (store.sound <==> ok))
    {
      ExpireUploads(now);
      SameReclaimable(old(db.State()), db.State(), now);
      NotReclaimable(old(db.State()), now);
      hide LedgerInv, Reclaimable, Overdue, OverdueObject, OverdueParts, Draining, Drained, Sound, Joined;
      ok := ReclaimRooms(now);
    }
  }
}
