/** Every step of every actor, from any stale reading, keeps the invariant. */
module UploadSteps {
  import opened Basics
  import opened InitiateRequest
  import opened Schema
  import opened Transactions
  import opened LedgerInvariant
  import opened LedgerTransactions
  import opened UploadProtocol
  import opened UploadInvariant
  import Multipart

  /** The step leads to a later state that keeps the invariant, and leaves its actor justified. */
  ghost predicate StepKeeps(w: World, w': World, a': Actor) {
    WorldInv(w') && Later(w, w') && Records(w, w') && ActorInv(w', a') && w'.actors == w.actors
  }

  lemma Parts(w: World)
    requires WorldInv(w)
    ensures LedgerInv(w.t) && HistoryInv(w)
  {
  }

  lemma ReadingMatches(w: World, a: Actor)
    requires ActorInv(w, a) && Reading(a).Some?
    ensures Known(w, Reading(a).value) && Matches(w.t, Reading(a).value)
  {
  }

  lemma Committed(w: World, t': Tables, ids: set<Uuid>)
    requires WorldInv(w) && Keeps(w.t, t', ids) && ids !! w.issued
    ensures
      var w' := Commit(w, t').(issued := w.issued + ids);
      WorldInv(w') && Later(w, w') && Records(w, w')
  {
    hide LedgerInv, Evolves;
    var w' := Commit(w, t').(issued := w.issued + ids);
    assert Commits(w, w', ids);
    CommitKeepsWorld(w, w', ids);
  }

  lemma PlainCommit(w: World, t': Tables)
    requires WorldInv(w) && Keeps(w.t, t', {})
    ensures WorldInv(Commit(w, t')) && Later(w, Commit(w, t')) && Records(w, Commit(w, t'))
  {
    hide WorldInv, Later, Records, Keeps;
    Committed(w, t', {});
    assert Commit(w, t').(issued := w.issued + {}) == Commit(w, t');
  }

  lemma Idle(w: World)
    requires WorldInv(w)
    ensures Later(w, w) && Records(w, w)
  {
    StoreKeepsWorld(w, w);
  }

  /** What GetUpload reads is known. */
  lemma ReadingIsKnown(w: World, s: Uuid)
    requires HistoryInv(w) && Joined(w.t, s) && SoundMedia(w.t, w.t.sessions[s].mediaId)
    ensures Known(w, View(w.t, s))
    ensures !w.t.sessions[s].status.Live() ==> EndedAs(w, s, w.t.sessions[s].status)
  {
  }

  /** Actors that rely on nothing. */
  predicate Carefree(a: Actor) {
    && Reading(a).None? && !a.PurgingRoom? && !a.DroppingRoom? && (a.RemovingMedia? ==> a.objectKey.Original?)
    && (a.Finished? ==>
          !a.outcome.ReadyAnswer? && !a.outcome.MismatchAnswer? && !a.outcome.AbortedAnswer?
          && a.outcome != Refused(ConstraintViolation))
  }

  lemma CarefreeActor(w: World, a: Actor)
    requires Carefree(a)
    ensures ActorInv(w, a)
  {
  }

  /** A step that at most changes the store, and goes on to an actor that relies on nothing. */
  lemma CarefreeStep(w: World, w': World, a': Actor)
    requires WorldInv(w) && Carefree(a') && w' == w.(objects := w'.objects, multiparts := w'.multiparts)
    ensures StepKeeps(w, w', a')
  {
    hide WorldInv, Later, Records, ActorInv;
    StoreKeepsWorld(w, w');
    CarefreeActor(w', a');
  }

  /** A step that commits a transaction. */
  lemma CommitStep(w: World, w': World, a': Actor)
    requires WorldInv(w) && Keeps(w.t, w'.t, {}) && w' == Commit(w, w'.t)
    requires Carefree(a') || (WorldInv(w') ==> ActorInv(w', a'))
    ensures StepKeeps(w, w', a')
  {
    hide WorldInv, Later, Records, ActorInv, Keeps, Carefree;
    PlainCommit(w, w'.t);
    if Carefree(a') {
      CarefreeActor(w', a');
    }
  }

  /** The answer of an operation that ended session `s`, when it did. */
  lemma EndingActor(w': World, s: Uuid, a': Actor)
    requires a'.Finished?
    requires
      match a'.outcome
      case ReadyAnswer(x) => x == s && s in w'.t.sessions && w'.t.sessions[s].status == Completed
      case MismatchAnswer(x) => x == s && s in w'.t.sessions && w'.t.sessions[s].status in {Aborted, Expired}
      case AbortedAnswer(x) => x == s && s in w'.t.sessions && w'.t.sessions[s].status in {Aborted, Expired}
      case Refused(e) => e != ConstraintViolation
      case _ => true
    ensures WorldInv(w') ==> ActorInv(w', a')
  {
  }

  lemma StepInitiateKeeps(w: World, a: Actor, c: Choice)
    requires WorldInv(w) && a.Initiating?
    ensures var (w', a') := StepInitiate(w, a, c); StepKeeps(w, w', a')
  {
    if Validate(a.input).Some? {
      ValidSize(a.input);
      hide WorldInv, StepKeeps, StepSubmit, Validate;
      StepSubmitKeeps(w, a, c, Validate(a.input).value.1);
    } else {
      hide WorldInv, StepKeeps, Validate;
      CarefreeStep(w, w, Finished(Refused(InvalidInput)));
    }
  }

  lemma ValidSize(input: Input)
    requires Validate(input).Some?
    ensures 0 < Validate(input).value.1.sizeBytes <= MAX_VIDEO_SIZE
  {
  }

  lemma StepSubmitKeeps(w: World, a: Actor, c: Choice, input: Input)
    requires WorldInv(w) && a.Initiating? && 0 < input.sizeBytes <= MAX_VIDEO_SIZE
    ensures var (w', a') := StepSubmit(w, a, c, input); StepKeeps(w, w', a')
  {
    var (w', a') := StepSubmit(w, a, c, input);
    if !NewChoice(w, c) {
      hide WorldInv, StepKeeps;
      CarefreeStep(w, w', a');
    } else {
      hide WorldInv, StepKeeps, Keeps, Submit, View, Joined, Carefree;
      SubmitKeeps(w, a, c, input);
      SubmitActor(w, a, c, input);
      GrantStep(w, Submit(w, a, c, input).0, {c.mediaId, c.uploadId}, w', a');
    }
  }

  /** The actor goes on with the upload it was granted, or is refused. */
  lemma SubmitActor(w: World, a: Actor, c: Choice, input: Input)
    requires a.Initiating? && NewChoice(w, c)
    ensures
      var (t', answer) := Submit(w, a, c, input);
      var (w', a') := StepSubmit(w, a, c, input);
      && w' == Commit(w, t').(issued := w.issued + {c.mediaId, c.uploadId}, multiparts := w'.multiparts)
      && a' == (if answer.Ok? then Attaching(a.identity, a.key, Hash(a.slug, input), answer.value) else Finished(Refused(answer.error)))
      && (answer.Err? && answer.error != ConstraintViolation ==> Carefree(a'))
  {
    hide Submit, Hash;
  }

  lemma SubmitKeeps(w: World, a: Actor, c: Choice, input: Input)
    requires WorldInv(w) && a.Initiating? && 0 < input.sizeBytes <= MAX_VIDEO_SIZE
    requires NewChoice(w, c)
    ensures
      var (t', answer) := Submit(w, a, c, input);
      && Keeps(w.t, t', {c.mediaId, c.uploadId})
      && (answer.Ok? ==> Joined(t', answer.value.id) && answer.value == View(t', answer.value.id))
      && answer != Err(ConstraintViolation)
  {
    Parts(w);
    assert c.mediaId !in w.t.media && c.uploadId !in w.t.sessions;
    var started := if c.reply == Done then Some(c.storageUpload) else None;
    hide WorldInv, LedgerInv, HistoryInv, Keeps, Initiate;
    InitiateKeepsLedger(w.t, a.identity, a.key, a.slug, input, w.now, c.mediaId, c.uploadId, started);
    if Submit(w, a, c, input).1.Ok? {
      InitiateAnswers(w.t, a.identity, a.key, a.slug, input, w.now, c.mediaId, c.uploadId, started);
    }
  }

  lemma AttachingIsKnown(w: World, a: Actor, upload: Upload)
    requires WorldInv(w) && Joined(w.t, upload.id) && upload == View(w.t, upload.id)
    requires a.Attaching? && a.upload == upload
    ensures ActorInv(w, a)
  {
    ReadingIsKnown(w, upload.id);
  }

  lemma GrantStep(w: World, t': Tables, ids: set<Uuid>, w': World, a': Actor)
    requires WorldInv(w) && Keeps(w.t, t', ids) && ids !! w.issued
    requires w' == Commit(w, t').(issued := w.issued + ids, multiparts := w'.multiparts)
    requires Carefree(a') || (a'.Attaching? && Joined(t', a'.upload.id) && a'.upload == View(t', a'.upload.id))
    ensures StepKeeps(w, w', a')
  {
    var w1 := Commit(w, t').(issued := w.issued + ids);
    hide Keeps, WorldInv, Later, Records, ActorInv, StepKeeps;
    Committed(w, t', ids);
    assert w1.actors == w.actors && w' == w1.(multiparts := w'.multiparts);
    if Carefree(a') {
      CarefreeActor(w1, a');
    } else {
      AttachingIsKnown(w1, a', a'.upload);
    }
    StoreOnly(w, w1, w', a');
  }

  lemma LaterStore(w: World, w1: World, w': World)
    requires Later(w, w1) && Records(w, w1) && w' == w1.(objects := w'.objects, multiparts := w'.multiparts)
    ensures Later(w, w') && Records(w, w')
  {
    hide Evolves;
  }

  lemma ActorStore(w1: World, w': World, a: Actor)
    requires ActorInv(w1, a) && w' == w1.(objects := w'.objects, multiparts := w'.multiparts)
    ensures ActorInv(w', a)
  {
    hide Matches;
  }

  /** A commit followed by a change of the store alone. */
  lemma StoreOnly(w: World, w1: World, w': World, a': Actor)
    requires WorldInv(w1) && Later(w, w1) && Records(w, w1) && ActorInv(w1, a') && w1.actors == w.actors
    requires w' == w1.(objects := w'.objects, multiparts := w'.multiparts)
    ensures StepKeeps(w, w', a')
  {
    hide WorldInv, Later, Records, ActorInv;
    StoreKeepsWorld(w1, w');
    LaterStore(w, w1, w');
    ActorStore(w1, w', a');
  }

  /** A step that reads, changes nothing, and goes on with what it read. */
  lemma ReadStep(w: World, identity: Uuid, s: Uuid, a': Actor)
    requires WorldInv(w)
    requires Reading(a').Some? ==> GetUpload(w.t, identity, s) == Ok(Reading(a').value)
    requires !a'.RemovingExpired? && !a'.PurgingRoom? && !a'.DroppingRoom? && !a'.RemovingMedia?
    requires a'.Finished? ==>
      match a'.outcome
      case ReadyAnswer(x) => x == s && Joined(w.t, s) && w.t.sessions[s].status == Completed
      case AbortedAnswer(x) => x == s && Joined(w.t, s) && (w.t.sessions[s].status == Aborted || w.t.sessions[s].status == Expired)
      case MismatchAnswer(_) => false
      case Refused(e) => e != ConstraintViolation
      case _ => true
    ensures StepKeeps(w, w, a')
  {
    Idle(w);
    Parts(w);
    if Joined(w.t, s) {
      assert SoundMedia(w.t, w.t.sessions[s].mediaId);
      ReadingIsKnown(w, s);
    }
    hide WorldInv, Later, Records, LedgerInv, HistoryInv;
  }

  lemma StepPartsKeeps(w: World, a: Actor, c: Choice)
    requires WorldInv(w) && (a.RequestingParts? || a.MarkingParts?)
    ensures var (w', a') := StepParts(w, a, c); StepKeeps(w, w', a')
  {
    var (w', a') := StepParts(w, a, c);
    hide WorldInv, LedgerInv, HistoryInv, Keeps, Multipart.PartNumbersOk, StepKeeps;
    if a.MarkingParts? {
      Parts(w);
      MarkUploadingKeepsLedger(w.t, a.upload.id);
      CommitStep(w, w', a');
    } else {
      assert w' == w;
      ReadStep(w, a.identity, a.session, a');
    }
  }

  lemma StepCompleteReads(w: World, a: Actor, c: Choice)
    requires WorldInv(w) && a.Completing?
    ensures var (w', a') := StepComplete(w, a, c); StepKeeps(w, w', a')
  {
    hide WorldInv, Later, Records, ActorInv, PartList.Complete;
    var (w', a') := StepComplete(w, a, c);
    assert w' == w;
    ReadStep(w, a.identity, a.session, a');
  }

  lemma StepCompleteStores(w: World, a: Actor, c: Choice)
    requires WorldInv(w) && ActorInv(w, a) && (a.Assembling? || a.CheckingAssembly? || a.Measuring? || a.Discarding?)
    ensures var (w', a') := StepComplete(w, a, c); StepKeeps(w, w', a')
  {
    var (w', a') := StepComplete(w, a, c);
    hide WorldInv, ActorInv, StepKeeps;
    SameReading(w, a, w', a');
  }

  lemma EndedRow(w: World, s: Uuid)
    requires WorldInv(w) && s in w.t.sessions && !w.t.sessions[s].status.Live()
    ensures EndedAs(w, s, w.t.sessions[s].status)
  {
  }

  lemma StepCompleteCommits(w: World, a: Actor, c: Choice)
    requires WorldInv(w) && ActorInv(w, a) && (a.Committing? || a.ReleasingMismatch?)
    ensures var (w', a') := StepComplete(w, a, c); StepKeeps(w, w', a')
  {
    Parts(w);
    ReadingMatches(w, a);
    var (w', a') := StepComplete(w, a, c);
    hide StepKeeps, ActorInv, WorldInv, LedgerInv, HistoryInv, Keeps, Matches, Known, Transactions.Complete, Release;
    if a.Committing? {
      CompleteKeepsLedger(w.t, a.upload);
    } else {
      ReleaseKeepsLedger(w.t, a.upload, Failed);
    }
    EndingActor(w', a.upload.id, a');
    CommitStep(w, w', a');
  }

  lemma StepAbortKeeps(w: World, a: Actor, c: Choice)
    requires WorldInv(w) && ActorInv(w, a) && (a.Aborting? || a.AbortingStore? || a.ReleasingAbort?)
    ensures var (w', a') := StepAbort(w, a, c); StepKeeps(w, w', a')
  {
    var (w', a') := StepAbort(w, a, c);
    hide StepKeeps, WorldInv, LedgerInv, HistoryInv, Keeps, Matches, Release, Known, ActorInv;
    if a.ReleasingAbort? {
      Parts(w);
      ReadingMatches(w, a);
      ReleaseKeepsLedger(w.t, a.upload, Deleted);
      EndingActor(w', a.upload.id, a');
      CommitStep(w, w', a');
    } else if a.Aborting? {
      assert w' == w;
      ReadStep(w, a.identity, a.session, a');
    } else {
      SameReading(w, a, w', a');
    }
  }

  /** A step that at most changes the store, and keeps its reading or ends with a refusal. */
  lemma SameReading(w: World, a: Actor, w': World, a': Actor)
    requires WorldInv(w) && ActorInv(w, a) && w' == w.(objects := w'.objects, multiparts := w'.multiparts)
    requires Carefree(a') || (Reading(a').Some? && Reading(a') == Reading(a) && !a'.RemovingExpired?)
    ensures StepKeeps(w, w', a')
  {
    Idle(w);
    hide WorldInv, Later, Records;
    StoreOnly(w, w, w', a');
  }

  lemma OriginalKey(w: World, m: Uuid)
    requires WorldInv(w) && m in w.t.media
    ensures w.t.media[m].key.Original?
  {
    assert SoundMedia(w.t, m);
  }

  lemma DeleteReads(w: World, a: Actor, c: Choice)
    requires WorldInv(w) && (a.DeletingMedia? || a.RemovingMedia? || a.RemovingThumbnail?)
    ensures
      var (w', a') := StepDelete(w, a, c);
      Carefree(a') && w' == w.(objects := w'.objects, multiparts := w'.multiparts)
  {
    hide WorldInv;
    if a.DeletingMedia? && a.media in w.t.media {
      OriginalKey(w, a.media);
    }
  }

  lemma DeleteCommitKeeps(w: World, a: Actor, c: Choice)
    requires WorldInv(w) && a.CommittingDelete?
    ensures var (w', a') := StepDelete(w, a, c); StepKeeps(w, w', a')
  {
    hide StepKeeps, WorldInv, LedgerInv, HistoryInv, Keeps, DeleteMedia, ActorInv, EndedNow;
    var (w', a') := StepDelete(w, a, c);
    Parts(w);
    DeleteMediaKeepsLedger(w.t, a.media, a.room);
    CommitStep(w, w', a');
  }

  lemma StepDeleteKeeps(w: World, a: Actor, c: Choice)
    requires WorldInv(w)
    requires a.DeletingMedia? || a.RemovingMedia? || a.RemovingThumbnail? || a.CommittingDelete?
    ensures var (w', a') := StepDelete(w, a, c); StepKeeps(w, w', a')
  {
    hide StepKeeps, WorldInv, LedgerInv, HistoryInv, Keeps, DeleteMedia, ActorInv, StepDelete, Carefree;
    var (w', a') := StepDelete(w, a, c);
    if a.CommittingDelete? {
      DeleteCommitKeeps(w, a, c);
    } else {
      DeleteReads(w, a, c);
      CarefreeStep(w, w', a');
    }
  }

  lemma StepExpireKeeps(w: World, a: Actor, c: Choice)
    requires WorldInv(w) && a.ExpiringUploads?
    ensures var (w', a') := StepCleanup(w, a, c); StepKeeps(w, w', a')
  {
    Parts(w);
    var (t', answer) := Expire(w.t, c.row, w.now);
    var (w', a') := StepCleanup(w, a, c);
    hide WorldInv, LedgerInv, HistoryInv, Expire, Keeps, ActorInv, Later, Records;
    if c.skip {
      CarefreeStep(w, w', a');
    } else {
      ExpireKeepsLedger(w.t, c.row, w.now);
      PlainCommit(w, t');
      if answer.Ok? {
        ExpiredActor(w, w', c.row, a');
      }
      CommitStep(w, w', a');
    }
  }

  lemma ExpiredActor(w: World, w': World, s: Uuid, a': Actor)
    requires WorldInv(w) && WorldInv(w') && Later(w, w')
    requires s in w.t.sessions && s in w'.t.sessions && w'.t.sessions[s].status == Expired && Joined(w.t, s)
    requires a' == RemovingExpired(View(w.t, s))
    ensures ActorInv(w', a')
  {
    ExpiredReading(w, s);
    KnownSurvives(w, w', View(w.t, s));
    EndedRow(w', s);
  }

  /** The view of a session names its media's original object. */
  lemma ExpiredReading(w: World, s: Uuid)
    requires LedgerInv(w.t) && HistoryInv(w) && s in w.t.sessions
    ensures Joined(w.t, s) && Known(w, View(w.t, s))
    ensures View(w.t, s).key.Original? && View(w.t, s).key.media == View(w.t, s).mediaId
  {
    assert SoundSession(w.t, s) && SoundMedia(w.t, w.t.sessions[s].mediaId);
    ReadingIsKnown(w, s);
  }

  lemma StepRemoveKeeps(w: World, a: Actor, c: Choice)
    requires WorldInv(w) && ActorInv(w, a) && (a.RemovingExpired? || a.PurgingRoom?)
    ensures var (w', a') := StepCleanup(w, a, c); StepKeeps(w, w', a')
  {
    hide WorldInv, StepKeeps, ActorInv;
    var (w', a') := StepCleanup(w, a, c);
    if a'.DroppingRoom? {
      PurgedRoom(w, a.room, w', a');
    } else {
      CarefreeStep(w, w', a');
    }
  }

  lemma PurgedRoom(w: World, r: Uuid, w': World, a': Actor)
    requires WorldInv(w) && ActorInv(w, PurgingRoom(r)) && a' == DroppingRoom(r)
    requires w' == w.(objects := w'.objects,
                      purged := if r in w.t.rooms && w.t.rooms[r].status == Deleting then w.purged + {r} else w.purged)
    ensures StepKeeps(w, w', a')
  {
    Parts(w);
    assert r in w'.purged;
    StoreKeepsWorld(w, w');
  }

  lemma DropCommit(w: World, r: Uuid)
    requires WorldInv(w) && r in w.purged
    ensures
      var w' := Commit(w, DropRoom(w.t, r));
      WorldInv(w') && Later(w, w') && Records(w, w')
  {
    DropKeepsLedger(w.t, r);
    var w' := Commit(w, DropRoom(w.t, r));
    hide LedgerInv, Evolves, AddsOnly;
    assert Commits(w, w', {});
    CommitKeepsWorld(w, w', {});
  }

  lemma StepRoomCleanupKeeps(w: World, a: Actor, c: Choice)
    requires WorldInv(w) && ActorInv(w, a) && (a.ClaimingRoom? || a.DroppingRoom?)
    ensures var (w', a') := StepCleanup(w, a, c); StepKeeps(w, w', a')
  {
    var (w', a') := StepCleanup(w, a, c);
    if a.DroppingRoom? {
      assert a.room in w.purged;
      hide WorldInv, Later, Records, DropRoom, ActorInv;
      DropCommit(w, a.room);
      CarefreeActor(w', a');
    } else if c.skip {
      hide WorldInv, StepKeeps, ActorInv;
      CarefreeStep(w, w', a');
    } else {
      Parts(w);
      hide WorldInv, LedgerInv, HistoryInv, StepKeeps, Keeps, ActorInv;
      ClaimRoomKeepsLedger(w.t, c.row, w.now);
      ClaimedRoom(w, w', c.row, a');
      CommitStep(w, w', a');
    }
  }

  lemma ClaimedRoom(w: World, w': World, r: Uuid, a': Actor)
    requires Carefree(a') || a' == PurgingRoom(r)
    requires a' == PurgingRoom(r) ==> r in w'.t.rooms && w'.t.rooms[r].status == Deleting
    ensures Carefree(a') || (WorldInv(w') ==> ActorInv(w', a'))
  {
  }

  lemma StepRoomKeeps(w: World, a: Actor)
    requires WorldInv(w) && (a.DeletingRoom? || a.SchedulingRoom?)
    ensures var (w', a') := StepRoom(w, a); StepKeeps(w, w', a')
  {
    hide WorldInv, LedgerInv, StepKeeps, Keeps, HistoryInv, ActorInv, ScheduleDeletion, EndedNow, RoomWithSlug;
    var (w', a') := StepRoom(w, a);
    if RoomWithSlug(w.t, a.slug).Some? && a.SchedulingRoom? {
      Parts(w);
      var r := RoomWithSlug(w.t, a.slug).value;
      ScheduleDeletionKeepsLedger(w.t, r, a.identity);
      NeverConstrained(w.t, r, a.identity);
      CommitStep(w, w', a');
    } else {
      AuthorizationNeverConstrained(w, a);
      CarefreeStep(w, w', a');
    }
  }

  lemma NeverConstrained(t: Tables, r: Uuid, identity: Uuid)
    ensures ScheduleDeletion(t, r, identity).1 != Err(ConstraintViolation)
  {
  }

  lemma AuthorizationNeverConstrained(w: World, a: Actor)
    requires a.DeletingRoom? || a.SchedulingRoom?
    requires RoomWithSlug(w.t, a.slug).None? || a.DeletingRoom?
    ensures var (w', a') := StepRoom(w, a); w' == w && Carefree(a')
  {
  }

  lemma StepKeepsWorld(w: World, a: Actor, c: Choice)
    requires WorldInv(w) && ActorInv(w, a)
    ensures var (w', a') := Step(w, a, c); StepKeeps(w, w', a')
  {
    hide WorldInv, Later, Records, ActorInv, StepKeeps;
    hide StepInitiate, StepParts, StepComplete, StepAbort, StepDelete, StepCleanup, StepRoom;
    if a.Finished? {
      FinishKeeps(w, a);
    } else if a.Attaching? {
      CarefreeStep(w, w, Step(w, a, c).1);
    } else if a.Initiating? {
      StepInitiateKeeps(w, a, c);
    } else if a.RequestingParts? || a.MarkingParts? {
      StepPartsKeeps(w, a, c);
    } else if a.Completing? {
      StepCompleteReads(w, a, c);
    } else if a.Assembling? || a.CheckingAssembly? || a.Measuring? || a.Discarding? {
      StepCompleteStores(w, a, c);
    } else if a.Committing? || a.ReleasingMismatch? {
      StepCompleteCommits(w, a, c);
    } else if a.Aborting? || a.AbortingStore? || a.ReleasingAbort? {
      StepAbortKeeps(w, a, c);
    } else if a.DeletingMedia? || a.RemovingMedia? || a.RemovingThumbnail? || a.CommittingDelete? {
      StepDeleteKeeps(w, a, c);
    } else if a.DeletingRoom? || a.SchedulingRoom? {
      StepRoomKeeps(w, a);
    } else if a.ExpiringUploads? {
      StepExpireKeeps(w, a, c);
    } else if a.RemovingExpired? || a.PurgingRoom? {
      StepRemoveKeeps(w, a, c);
    } else {
      StepRoomCleanupKeeps(w, a, c);
    }
  }

  lemma FinishKeeps(w: World, a': Actor)
    requires WorldInv(w) && ActorInv(w, a')
    ensures StepKeeps(w, w, a')
  {
    Idle(w);
  }

  // ---- Events ----

  lemma OpenRoomCommits(w: World, e: Event)
    requires WorldInv(w) && e.OpenRoom? && e.room !in w.issued && BoundedLimits(e.maxFiles, e.maxBytes)
    ensures Commits(w, Next(w, e), {e.room})
  {
    hide WorldInv, LedgerInv, Evolves, AddsOnly, EndedNow, RoomChecks;
    Parts(w);
    InsertRoomKeepsLedger(w.t, e.room, e.slug, e.owner, e.maxFiles, e.maxBytes, w.now, e.expiresAt);
  }

  lemma OpenRoomKeeps(w: World, e: Event)
    requires WorldInv(w) && e.OpenRoom?
    ensures WorldInv(Next(w, e)) && Later(w, Next(w, e)) && Records(w, Next(w, e))
  {
    Idle(w);
    if e.room !in w.issued && BoundedLimits(e.maxFiles, e.maxBytes) {
      hide WorldInv, Commits, Later, Records, Next;
      OpenRoomCommits(w, e);
      CommitKeepsWorld(w, Next(w, e), {e.room});
    } else {
      hide WorldInv, Later, Records;
    }
  }

  lemma MoveKeeps(w: World, id: nat, c: Choice)
    requires WorldInv(w)
    ensures WorldInv(Next(w, Move(id, c))) && Later(w, Next(w, Move(id, c))) && Records(w, Next(w, Move(id, c)))
  {
    Idle(w);
    if id in w.actors {
      var (w', a') := Step(w, w.actors[id], c);
      assert ActorInv(w, w.actors[id]);
      StepKeepsWorld(w, w.actors[id], c);
      hide WorldInv, ActorInv, Step;
      ActorMoves(w', id, a');
    }
  }

  lemma CrashKeeps(w: World, id: nat)
    requires WorldInv(w)
    ensures WorldInv(Next(w, Crash(id))) && Later(w, Next(w, Crash(id))) && Records(w, Next(w, Crash(id)))
  {
    var w' := Next(w, Crash(id));
    Idle(w);
    hide LedgerInv, Evolves;
    forall x | x in w'.actors
      ensures ActorInv(w', w'.actors[x])
    {
      assert ActorInv(w, w.actors[x]);
    }
  }

  lemma StartMoves(w: World, id: nat, a: Actor)
    requires WorldInv(w) && ActorInv(w, a)
    ensures
      var w' := w.(actors := w.actors[id := a]);
      WorldInv(w') && Later(w, w') && Records(w, w')
  {
    ActorMoves(w, id, a);
    Idle(w);
  }

  lemma StartKeeps(w: World, id: nat, a: Actor)
    requires WorldInv(w)
    ensures WorldInv(Next(w, Start(id, a))) && Later(w, Next(w, Start(id, a))) && Records(w, Next(w, Start(id, a)))
  {
    Idle(w);
    hide WorldInv, ActorInv, Later, Records;
    assert Next(w, Start(id, a)) == if id in w.actors || !AtStart(a) then w else w.(actors := w.actors[id := a]);
    hide Next;
    if id !in w.actors && AtStart(a) {
      CarefreeActor(w, a);
      StartMoves(w, id, a);
    }
  }

  lemma MembersKeep(w: World, e: Event)
    requires WorldInv(w) && (e.JoinRoom? || e.EditRoom?)
    ensures WorldInv(Next(w, e)) && Later(w, Next(w, e)) && Records(w, Next(w, e))
  {
    Parts(w);
    hide WorldInv, Later, Records, LedgerInv, Keeps;
    match e {
      case JoinRoom(r, identity) =>
        JoinKeepsLedger(w.t, r, identity);
        PlainCommit(w, Join(w.t, r, identity));
      case EditRoom(r, identity, accepting) =>
        SetAcceptingKeepsLedger(w.t, r, identity, accepting, w.now);
        PlainCommit(w, SetAccepting(w.t, r, identity, accepting, w.now).0);
    }
  }

  /** Every event keeps the invariant, and leads to a later state. */
  lemma NextKeepsWorld(w: World, e: Event)
    requires WorldInv(w)
    ensures WorldInv(Next(w, e)) && Later(w, Next(w, e)) && Records(w, Next(w, e))
  {
    hide WorldInv, Later, Records, Step;
    match e {
      case Start(id, a) => StartKeeps(w, id, a);
      case Crash(id) => CrashKeeps(w, id);
      case Move(id, c) => MoveKeeps(w, id, c);
      case OpenRoom(_, _, _, _, _, _) => OpenRoomKeeps(w, e);
      case JoinRoom(_, _) => MembersKeep(w, e);
      case EditRoom(_, _, _) => MembersKeep(w, e);
      case _ => StoreKeepsWorld(w, Next(w, e));
    }
  }

  lemma InitialIsGood(now: Time)
    ensures WorldInv(Initial(now))
  {
  }

  /** Rows that are gone stay gone, so what evolves twice evolves once. */
  lemma EvolvesIsTransitive(t0: Tables, t1: Tables, t2: Tables, issued: set<Uuid>)
    requires Evolves(t0, t1) && Evolves(t1, t2)
    requires t0.sessions.Keys <= issued && t0.media.Keys <= issued && t0.rooms.Keys <= issued
    requires forall s :: s in t2.sessions ==> s in t1.sessions || s !in issued
    requires forall m :: m in t2.media ==> m in t1.media || m !in issued
    requires forall r :: r in t2.rooms ==> r in t1.rooms || r !in issued
    requires Coupled(t0)
    ensures Evolves(t0, t2)
  {
    forall s | s in t0.sessions && s in t2.sessions
      ensures SessionEvolves(t0.sessions[s], t2.sessions[s])
    {
      assert SessionEvolves(t0.sessions[s], t1.sessions[s]) && SessionEvolves(t1.sessions[s], t2.sessions[s]);
    }
    forall m | m in t0.media && m in t2.media
      ensures MediaEvolves(t0.media[m], t2.media[m])
    {
      assert MediaEvolves(t0.media[m], t1.media[m]) && MediaEvolves(t1.media[m], t2.media[m]);
    }
    forall m | m in t0.media && m !in t2.media
      ensures t0.media[m].room !in t2.rooms
    {
      assert m in t1.media ==> MediaEvolves(t0.media[m], t1.media[m]);
    }
    forall s | s in t0.sessions && s !in t2.sessions
      ensures t0.sessions[s].mediaId in t0.media && t0.sessions[s].mediaId !in t2.media
    {
      assert s in t1.sessions ==> SessionEvolves(t0.sessions[s], t1.sessions[s]);
    }
  }

  lemma NewMediaIsTransitive(w0: World, w1: World, w2: World, m: Uuid)
    requires Later(w0, w1) && Later(w1, w2) && w0.t.rooms.Keys <= w0.issued && w1.t.rooms.Keys <= w1.issued
    requires m in w2.t.media && m !in w0.t.media && w2.t.media[m].room in w2.t.rooms
    ensures NotDeleting(w0.t, w2.t.media[m].room)
  {
    var r := w2.t.media[m].room;
    if m in w1.t.media {
      assert MediaEvolves(w1.t.media[m], w2.t.media[m]);
    }
    if r in w0.t.rooms && r in w1.t.rooms {
      assert RoomEvolves(w0.t.rooms[r], w1.t.rooms[r]);
    }
  }

  lemma LaterIsTransitive(w0: World, w1: World, w2: World)
    requires WorldInv(w0) && WorldInv(w1) && WorldInv(w2) && Later(w0, w1) && Later(w1, w2)
    ensures Later(w0, w2)
  {
    SoundIsCoupled(w0.t);
    SoundIsCoupled(w2.t);
    forall m | m in w2.t.media && m !in w0.t.media
      ensures NotDeleting(w0.t, w2.t.media[m].room)
    {
      NewMediaIsTransitive(w0, w1, w2, m);
    }
    hide LedgerInv, Evolves, Coupled;
    EvolvesIsTransitive(w0.t, w1.t, w2.t, w0.issued);
  }

  /** In every run, whatever the interleaving, the invariant holds at the end and the end is later than the start. */
  lemma {:induction false} RunKeepsWorld(w: World, events: seq<Event>)
    requires WorldInv(w)
    ensures WorldInv(Run(w, events)) && Later(w, Run(w, events))
    decreases |events|
  {
    hide WorldInv, Later, Records, Next;
    if events == [] {
      Idle(w);
    } else {
      var w1 := Next(w, events[0]);
      NextKeepsWorld(w, events[0]);
      RunKeepsWorld(w1, events[1..]);
      LaterIsTransitive(w, w1, Run(w, events));
    }
  }
}
