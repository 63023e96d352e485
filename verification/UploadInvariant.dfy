/** The invariant of the step system: the ledger, its history, and what every stale actor may rely on. */
module UploadInvariant {
  import opened Basics
  import opened InitiateRequest
  import opened Schema
  import opened Transactions
  import opened LedgerInvariant
  import opened LedgerTransactions
  import opened UploadProtocol

  // ---- What an actor relies on ----

  function Reading(a: Actor): Option<Upload> {
    match a
    case Attaching(_, _, _, upload) => Some(upload)
    case MarkingParts(upload) => Some(upload)
    case Assembling(upload) => Some(upload)
    case CheckingAssembly(upload) => Some(upload)
    case Measuring(upload) => Some(upload)
    case Discarding(upload) => Some(upload)
    case ReleasingMismatch(upload) => Some(upload)
    case Committing(upload) => Some(upload)
    case AbortingStore(upload) => Some(upload)
    case ReleasingAbort(upload) => Some(upload)
    case RemovingExpired(upload) => Some(upload)
    case _ => None
  }

  /** The reading is of a session that was once there, and matches it wherever it still is. */
  ghost predicate Known(w: World, upload: Upload) {
    && upload.id in w.issued && upload.mediaId in w.issued && Matches(w.t, upload) && upload.key.Original?
    && (upload.mediaId in w.t.media ==> upload.id in w.t.sessions)
  }

  predicate EndedAs(w: World, s: Uuid, status: SessionStatus) {
    s in w.ended && w.ended[s] == status
  }

  predicate Justified(w: World, o: Outcome) {
    match o
    case ReadyAnswer(s) => EndedAs(w, s, Completed)
    case MismatchAnswer(s) => EndedAs(w, s, Aborted) || EndedAs(w, s, Expired)
    case AbortedAnswer(s) => EndedAs(w, s, Aborted) || EndedAs(w, s, Expired)
    case Refused(e) => e != ConstraintViolation
    case _ => true
  }

  ghost predicate ActorInv(w: World, a: Actor) {
    && (Reading(a).Some? ==> Known(w, Reading(a).value))
    && (a.RemovingExpired? ==> EndedAs(w, a.upload.id, Expired) && a.upload.key.media == a.upload.mediaId)
    && (a.RemovingMedia? ==> a.objectKey.Original?)
    && (a.PurgingRoom? ==> a.room in w.roomsOpened && (a.room in w.t.rooms ==> w.t.rooms[a.room].status == Deleting))
    && (a.DroppingRoom? ==> a.room in w.purged)
    && (a.Finished? ==> Justified(w, a.outcome))
  }

  // ---- The invariant ----

  /** The history of ended sessions mirrors the rows that are still there. */
  ghost predicate HistoryInv(w: World) {
    && w.t.sessions.Keys <= w.issued && w.t.media.Keys <= w.issued && w.t.rooms.Keys <= w.roomsOpened
    && w.roomsOpened <= w.issued && w.ended.Keys <= w.issued
    && (forall s :: s in w.t.sessions ==>
          if w.t.sessions[s].status.Live() then s !in w.ended else EndedAs(w, s, w.t.sessions[s].status))
    && (forall r :: r in w.roomsOpened ==> r in w.t.rooms || r in w.purged)
  }

  ghost predicate WorldInv(w: World) {
    && LedgerInv(w.t)
    && HistoryInv(w)
    && (forall id {:trigger w.actors[id]} :: id in w.actors ==> ActorInv(w, w.actors[id]))
  }

  /** The history notes the sessions that ended between `w` and `w'`, and nothing else. */
  ghost predicate Records(w: World, w': World) {
    w'.ended == w.ended + EndedNow(w.t, w'.t)
  }

  /** `w'` is a later state of the same run as `w`. */
  ghost predicate Later(w: World, w': World) {
    && w.now <= w'.now && w.issued <= w'.issued && w.roomsOpened <= w'.roomsOpened && w.purged <= w'.purged
    && (forall s :: s in w.ended ==> EndedAs(w', s, w.ended[s]))
    && Evolves(w.t, w'.t)
    && (forall s :: s in w'.t.sessions ==> s in w.t.sessions || s !in w.issued)
    && (forall m :: m in w'.t.media ==> m in w.t.media || m !in w.issued)
    && (forall r :: r in w'.t.rooms ==> r in w.t.rooms || r !in w.issued)
    && (forall m :: m in w'.t.media && m !in w.t.media ==> NotDeleting(w.t, w'.t.media[m].room))
  }

  predicate NotDeleting(t: Tables, r: Uuid) {
    r in t.rooms ==> t.rooms[r].status == Active
  }

  /** `w'` follows from `w` by committing tables that use the new identifiers `ids`. */
  ghost predicate Commits(w: World, w': World, ids: set<Uuid>) {
    && ids !! w.issued
    && LedgerInv(w'.t) && Evolves(w.t, w'.t) && AddsOnly(w.t, w'.t, ids)
    && w'.issued == w.issued + ids && Records(w, w')
    && w'.now == w.now && w'.actors == w.actors && w'.purged == w.purged
    && w.roomsOpened <= w'.roomsOpened <= w'.issued && w'.t.rooms.Keys <= w'.roomsOpened
    && (forall r :: r in w'.roomsOpened ==> r in w'.t.rooms || r in w.purged)
  }

  lemma CommitIsLater(w: World, w': World, ids: set<Uuid>)
    requires HistoryInv(w) && Commits(w, w', ids)
    ensures Later(w, w')
  {
  }

  lemma CommitKeepsHistory(w: World, w': World, ids: set<Uuid>)
    requires HistoryInv(w) && Commits(w, w', ids)
    ensures HistoryInv(w')
  {
    forall s | s in w'.t.sessions
      ensures if w'.t.sessions[s].status.Live() then s !in w'.ended else EndedAs(w', s, w'.t.sessions[s].status)
    {
      assert s in w.t.sessions ==> SessionEvolves(w.t.sessions[s], w'.t.sessions[s]);
    }
  }

  /** A reading survives whatever later steps do. */
  lemma KnownSurvives(w: World, w': World, upload: Upload)
    requires Known(w, upload) && Later(w, w')
    requires SessionsSound(w.t) && SessionsSound(w'.t)
    ensures Known(w', upload)
  {
    assert upload.mediaId in w'.t.media ==> upload.mediaId in w.t.media && upload.id in w'.t.sessions;
    if upload.id in w'.t.sessions {
      assert SoundSession(w.t, upload.id) && SoundSession(w'.t, upload.id);
      assert SessionEvolves(w.t.sessions[upload.id], w'.t.sessions[upload.id]);
      assert MediaEvolves(w.t.media[upload.mediaId], w'.t.media[upload.mediaId]);
    }
  }

  lemma ActorSurvives(w: World, w': World, a: Actor)
    requires ActorInv(w, a) && Later(w, w') && HistoryInv(w)
    requires SessionsSound(w.t) && SessionsSound(w'.t)
    ensures ActorInv(w', a)
  {
    if Reading(a).Some? {
      KnownSurvives(w, w', Reading(a).value);
    }
    if a.PurgingRoom? && a.room in w'.t.rooms {
      assert RoomEvolves(w.t.rooms[a.room], w'.t.rooms[a.room]);
    }
  }

  lemma LaterKeepsActors(w: World, w': World)
    requires WorldInv(w) && Later(w, w') && LedgerInv(w'.t) && HistoryInv(w') && w'.actors == w.actors
    ensures WorldInv(w')
  {
    forall id | id in w'.actors
      ensures ActorInv(w', w'.actors[id])
    {
      ActorSurvives(w, w', w.actors[id]);
    }
  }

  /** Every commit keeps the invariant. */
  lemma CommitKeepsWorld(w: World, w': World, ids: set<Uuid>)
    requires WorldInv(w) && Commits(w, w', ids)
    ensures WorldInv(w') && Later(w, w') && Records(w, w')
  {
    hide Evolves;
    CommitIsLater(w, w', ids);
    CommitKeepsHistory(w, w', ids);
    LaterKeepsActors(w, w');
  }

  /** A step that only touches the object store, the clock, or the record of purged rooms. */
  lemma StoreKeepsWorld(w: World, w': World)
    requires WorldInv(w) && w'.t == w.t && w'.actors == w.actors && w'.issued == w.issued && w'.ended == w.ended
    requires w'.roomsOpened == w.roomsOpened && w.purged <= w'.purged && w.now <= w'.now
    ensures WorldInv(w') && Later(w, w') && Records(w, w')
  {
    LaterKeepsActors(w, w');
  }

  /** The actor of a step takes its new place. */
  lemma ActorMoves(w: World, id: nat, a: Actor)
    requires WorldInv(w) && ActorInv(w, a)
    ensures WorldInv(w.(actors := w.actors[id := a]))
  {
    var w' := w.(actors := w.actors[id := a]);
    forall x | x in w'.actors
      ensures ActorInv(w', w'.actors[x])
    {
      assert ActorInv(w, if x == id then a else w.actors[x]);
    }
  }
}
