/** What makes media ready and completes sessions: the closing transaction of Complete, and nothing else. */
module Readiness {
  import opened Basics
  import opened InitiateRequest
  import opened Schema
  import opened Transactions
  import opened UploadProtocol

  /** Media `m` was not ready in `t` and is in `t'`. */
  predicate BecomesReady(t: Tables, t': Tables, m: Uuid) {
    m in t'.media && t'.media[m].status == Ready && (m in t.media ==> t.media[m].status != Ready)
  }

  /** Session `s` was not completed in `t` and is in `t'`. */
  predicate BecomesCompleted(t: Tables, t': Tables, s: Uuid) {
    s in t'.sessions && t'.sessions[s].status == Completed && (s in t.sessions ==> t.sessions[s].status != Completed)
  }

  predicate Finishes(t: Tables, t': Tables, m: Uuid, s: Uuid) {
    BecomesReady(t, t', m) || BecomesCompleted(t, t', s)
  }

  /** The actor is about to complete the upload that finishes. */
  predicate EndsWell(a: Actor, t: Tables, t': Tables, m: Uuid, s: Uuid) {
    && a.Committing?
    && (BecomesReady(t, t', m) ==> m == a.upload.mediaId)
    && (BecomesCompleted(t, t', s) ==> s == a.upload.id)
  }

  lemma CompleteReadies(t: Tables, upload: Upload, m: Uuid, s: Uuid)
    ensures
      var t' := Transactions.Complete(t, upload).0;
      (BecomesReady(t, t', m) ==> m == upload.mediaId) && (BecomesCompleted(t, t', s) ==> s == upload.id)
  {
  }

  lemma ChargeKeepsRows(t: Tables, m: Uuid, r: Uuid, reservedFiles: int, reservedBytes: int, usedFiles: int, usedBytes: int)
    ensures
      var t1 := ChargeRoomOf(t, m, reservedFiles, reservedBytes, usedFiles, usedBytes);
      var t2 := Charge(t, r, reservedFiles, reservedBytes, usedFiles, usedBytes);
      t1.media == t.media && t1.sessions == t.sessions && t2.media == t.media && t2.sessions == t.sessions
  {
  }

  lemma StatusesFinishNothing(t: Tables, x: Uuid, y: Uuid, sessionStatus: SessionStatus, mediaStatus: MediaStatus, m: Uuid, s: Uuid)
    requires mediaStatus != Ready && sessionStatus != Completed
    ensures !Finishes(t, SetMedia(SetSession(t, x, sessionStatus), y, mediaStatus), m, s)
  {
  }

  lemma OthersReadyNothing(t: Tables, upload: Upload, sessionStatus: SessionStatus, mediaStatus: MediaStatus, m: Uuid, s: Uuid)
    requires mediaStatus != Ready && sessionStatus != Completed
    ensures !Finishes(t, Release(t, upload, sessionStatus, mediaStatus).0, m, s)
  {
    hide SetMedia, SetSession, ChargeRoomOf, Charge, RoomChecks;
    StatusesFinishNothing(t, upload.id, upload.mediaId, sessionStatus, mediaStatus, m, s);
    ChargeKeepsRows(SetMedia(SetSession(t, upload.id, sessionStatus), upload.mediaId, mediaStatus), upload.mediaId, 0,
                    -1, -upload.sizeBytes, 0, 0);
  }

  lemma ExpireReadiesNothing(t: Tables, x: Uuid, now: Time, m: Uuid, s: Uuid)
    ensures !Finishes(t, Expire(t, x, now).0, m, s)
  {
    hide SetMedia, SetSession, ChargeRoomOf, Charge, RoomChecks;
    if Expirable(t, x, now) {
      var upload := View(t, x);
      var ended := SetMedia(SetSession(t, x, Expired), upload.mediaId, Failed);
      StatusesFinishNothing(t, x, upload.mediaId, Expired, Failed, m, s);
      ChargeKeepsRows(ended, 0, t.media[upload.mediaId].room, -1, -upload.sizeBytes, 0, 0);
    }
  }

  lemma RowsReadyNothing(t: Tables, x: Uuid, r: Uuid, now: Time, m: Uuid, s: Uuid)
    ensures !Finishes(t, DeleteMedia(t, x, r).0, m, s)
    ensures !Finishes(t, ClaimRoom(t, r, now).0, m, s) && !Finishes(t, DropRoom(t, r), m, s)
    ensures !Finishes(t, MarkUploading(t, x), m, s)
  {
  }

  lemma RoomsReadyNothing(t: Tables, r: Uuid, identity: Uuid, accepting: bool, now: Time, m: Uuid, s: Uuid)
    ensures !Finishes(t, Join(t, r, identity), m, s) && !Finishes(t, ScheduleDeletion(t, r, identity).0, m, s)
    ensures !Finishes(t, SetAccepting(t, r, identity, accepting, now).0, m, s)
  {
  }

  lemma InsertReadiesNothing(t: Tables, r: Uuid, room: Room, m: Uuid, s: Uuid)
    ensures !Finishes(t, InsertRoom(t, r, room).0, m, s)
  {
  }

  lemma InitiateReadiesNothing(w: World, a: Actor, c: Choice, input: Input, m: Uuid, s: Uuid)
    requires a.Initiating?
    ensures !Finishes(w.t, Submit(w, a, c, input).0, m, s)
  {
    hide FindIdempotent, LockRoomForUpload, Hash;
  }

  lemma CommitReadies(w: World, upload: Upload, c: Choice, m: Uuid, s: Uuid)
    ensures
      var t' := StepComplete(w, Committing(upload), c).0.t;
      (BecomesReady(w.t, t', m) ==> m == upload.mediaId) && (BecomesCompleted(w.t, t', s) ==> s == upload.id)
  {
    CompleteReadies(w.t, upload, m, s);
    hide Transactions.Complete;
  }

  lemma StepCompleteReadies(w: World, a: Actor, c: Choice, m: Uuid, s: Uuid)
    requires a.Completing? || a.Assembling? || a.CheckingAssembly? || a.Measuring?
             || a.Discarding? || a.ReleasingMismatch? || a.Committing?
    requires Finishes(w.t, StepComplete(w, a, c).0.t, m, s)
    ensures EndsWell(a, w.t, StepComplete(w, a, c).0.t, m, s)
  {
    hide Transactions.Complete, Release;
    if a.Committing? {
      CommitReadies(w, a.upload, c, m, s);
    } else if a.ReleasingMismatch? {
      OthersReadyNothing(w.t, a.upload, Aborted, Failed, m, s);
    }
  }

  lemma StepAbortReadies(w: World, a: Actor, c: Choice, m: Uuid, s: Uuid)
    requires a.Aborting? || a.AbortingStore? || a.ReleasingAbort?
    ensures !Finishes(w.t, StepAbort(w, a, c).0.t, m, s)
  {
    hide Release;
    if a.ReleasingAbort? {
      OthersReadyNothing(w.t, a.upload, Aborted, Deleted, m, s);
    }
  }

  lemma StepDeleteReadies(w: World, a: Actor, c: Choice, m: Uuid, s: Uuid)
    requires a.DeletingMedia? || a.RemovingMedia? || a.RemovingThumbnail? || a.CommittingDelete?
    ensures !Finishes(w.t, StepDelete(w, a, c).0.t, m, s)
  {
    hide DeleteMedia;
    if a.CommittingDelete? {
      RowsReadyNothing(w.t, a.media, a.room, w.now, m, s);
    }
  }

  lemma StepCleanupReadies(w: World, a: Actor, c: Choice, m: Uuid, s: Uuid)
    requires a.ExpiringUploads? || a.RemovingExpired? || a.ClaimingRoom? || a.PurgingRoom? || a.DroppingRoom?
    ensures !Finishes(w.t, StepCleanup(w, a, c).0.t, m, s)
  {
    hide Expire, ClaimRoom, DropRoom;
    RowsReadyNothing(w.t, c.row, c.row, w.now, m, s);
    ExpireReadiesNothing(w.t, c.row, w.now, m, s);
    if a.DroppingRoom? {
      RowsReadyNothing(w.t, c.row, a.room, w.now, m, s);
    }
  }

  lemma StepSubmitReadies(w: World, a: Actor, c: Choice, m: Uuid, s: Uuid)
    requires a.Initiating?
    ensures !Finishes(w.t, StepInitiate(w, a, c).0.t, m, s)
  {
    hide Submit, Validate, Hash;
    if Validate(a.input).Some? {
      InitiateReadiesNothing(w, a, c, Validate(a.input).value.1, m, s);
    }
  }

  lemma OtherStepsReady(w: World, a: Actor, c: Choice, m: Uuid, s: Uuid)
    requires a.Finished? || a.Attaching? || a.RequestingParts? || a.MarkingParts? || a.DeletingRoom? || a.SchedulingRoom?
    ensures !Finishes(w.t, Step(w, a, c).0.t, m, s)
  {
    hide MarkUploading, ScheduleDeletion, GetUpload, AuthorizeDeletion, RoomWithSlug, Multipart.PartNumbersOk;
    if a.MarkingParts? {
      RowsReadyNothing(w.t, a.upload.id, a.upload.id, w.now, m, s);
    } else if a.SchedulingRoom? && RoomWithSlug(w.t, a.slug).Some? {
      RoomsReadyNothing(w.t, RoomWithSlug(w.t, a.slug).value, a.identity, false, w.now, m, s);
    }
  }

  lemma ActorReadies(w: World, a: Actor, c: Choice, m: Uuid, s: Uuid)
    requires Finishes(w.t, Step(w, a, c).0.t, m, s)
    ensures EndsWell(a, w.t, Step(w, a, c).0.t, m, s)
  {
    hide StepInitiate, StepComplete, StepAbort, StepDelete, StepCleanup, StepParts, StepRoom, AttachUrl, Finishes, EndsWell;
    if a.Initiating? {
      StepSubmitReadies(w, a, c, m, s);
    } else if a.Aborting? || a.AbortingStore? || a.ReleasingAbort? {
      StepAbortReadies(w, a, c, m, s);
    } else if a.DeletingMedia? || a.RemovingMedia? || a.RemovingThumbnail? || a.CommittingDelete? {
      StepDeleteReadies(w, a, c, m, s);
    } else if a.ExpiringUploads? || a.RemovingExpired? || a.ClaimingRoom? || a.PurgingRoom? || a.DroppingRoom? {
      StepCleanupReadies(w, a, c, m, s);
    } else if a.Completing? || a.Assembling? || a.CheckingAssembly? || a.Measuring?
              || a.Discarding? || a.ReleasingMismatch? || a.Committing? {
      StepCompleteReadies(w, a, c, m, s);
    } else {
      OtherStepsReady(w, a, c, m, s);
    }
  }

  lemma Unchanged(t: Tables, m: Uuid, s: Uuid)
    ensures !Finishes(t, t, m, s)
  {
  }

  lemma OnlyCompleteFinishes(w: World, e: Event, m: Uuid, s: Uuid)
    requires Finishes(w.t, Next(w, e).t, m, s)
    ensures e.Move? && e.id in w.actors && EndsWell(w.actors[e.id], w.t, Next(w, e).t, m, s)
  {
    hide Step, InsertRoom, Join, SetAccepting, Finishes, EndsWell;
    match e
    case Move(id, c) =>
      if id in w.actors {
        ActorReadies(w, w.actors[id], c, m, s);
      } else {
        Unchanged(w.t, m, s);
      }
    case OpenRoom(r, slug, owner, maxFiles, maxBytes, expiresAt) =>
      Unchanged(w.t, m, s);
      InsertReadiesNothing(w.t, r, NewRoom(slug, owner, maxFiles, maxBytes, w.now, expiresAt), m, s);
    case JoinRoom(r, identity) => RoomsReadyNothing(w.t, r, identity, false, w.now, m, s);
    case EditRoom(r, identity, accepting) => RoomsReadyNothing(w.t, r, identity, accepting, w.now, m, s);
    case _ => Unchanged(w.t, m, s);
  }

  /** Only the closing transaction of Complete makes media ready. */
  lemma OnlyCompleteReadies(w: World, e: Event, m: Uuid)
    requires BecomesReady(w.t, Next(w, e).t, m)
    ensures e.Move? && e.id in w.actors && w.actors[e.id].Committing? && w.actors[e.id].upload.mediaId == m
  {
    hide Next;
    OnlyCompleteFinishes(w, e, m, 0);
  }

  /** And only it completes a session. */
  lemma OnlyCompleteCompletes(w: World, e: Event, s: Uuid)
    requires BecomesCompleted(w.t, Next(w, e).t, s)
    ensures e.Move? && e.id in w.actors && w.actors[e.id].Committing? && w.actors[e.id].upload.id == s
  {
    hide Next;
    OnlyCompleteFinishes(w, e, 0, s);
  }
}
