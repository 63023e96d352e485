/** Which steps remove objects from the store. */
module StoreRemovals {
  import opened InitiateRequest
  import opened Schema
  import opened Transactions
  import opened UploadProtocol

  /** The step of an operation that removes object `k`: a size mismatch, Abort, media Delete and expiry remove the
      objects of one media, outside their transactions; the removal of a room takes all of its objects, or some of
      them when it fails on its way. */
  predicate Removes(a: Actor, c: Choice, k: ObjectKey) {
    match a
    case Discarding(upload) => upload.key == k && !c.reply.NotDone?
    case AbortingStore(upload) => upload.kind.Single? && upload.key == k && !c.reply.NotDone?
    case RemovingExpired(upload) => upload.kind.Single? && upload.key == k && !c.reply.NotDone?
    case RemovingMedia(_, _, objectKey) => objectKey == k && !c.reply.NotDone?
    case RemovingThumbnail(m, r) => k == Thumbnail(r, m) && !c.reply.NotDone?
    case PurgingRoom(r) => k.room == r && (c.reply.Done? || k.media < c.mediaId)
    case _ => false
  }

  lemma CompleteRemoves(w: World, a: Actor, c: Choice, k: ObjectKey)
    requires k in w.objects
    requires a.Completing? || a.Assembling? || a.CheckingAssembly? || a.Measuring?
             || a.Discarding? || a.ReleasingMismatch? || a.Committing?
    ensures k !in StepComplete(w, a, c).0.objects <==> Removes(a, c, k)
  {
  }

  lemma DeleteRemoves(w: World, a: Actor, c: Choice, k: ObjectKey)
    requires k in w.objects
    requires a.DeletingMedia? || a.RemovingMedia? || a.RemovingThumbnail? || a.CommittingDelete?
    ensures k !in StepDelete(w, a, c).0.objects <==> Removes(a, c, k)
  {
  }

  lemma CleanupRemoves(w: World, a: Actor, c: Choice, k: ObjectKey)
    requires k in w.objects
    requires a.ExpiringUploads? || a.RemovingExpired? || a.ClaimingRoom? || a.PurgingRoom? || a.DroppingRoom?
    ensures k !in StepCleanup(w, a, c).0.objects <==> Removes(a, c, k)
  {
  }

  lemma AbortRemoves(w: World, a: Actor, c: Choice, k: ObjectKey)
    requires k in w.objects && (a.Aborting? || a.AbortingStore? || a.ReleasingAbort?)
    ensures k !in StepAbort(w, a, c).0.objects <==> Removes(a, c, k)
  {
  }

  lemma InitiateRemovesNothing(w: World, a: Actor, c: Choice)
    requires a.Initiating?
    ensures StepInitiate(w, a, c).0.objects == w.objects
  {
  }

  lemma OtherStepsRemoveNothing(w: World, a: Actor, c: Choice)
    requires a.Finished? || a.Attaching? || a.RequestingParts? || a.MarkingParts? || a.DeletingRoom? || a.SchedulingRoom?
    ensures Step(w, a, c).0.objects == w.objects
  {
  }

  lemma ActorRemoves(w: World, a: Actor, c: Choice, k: ObjectKey)
    requires k in w.objects
    ensures k !in Step(w, a, c).0.objects <==> Removes(a, c, k)
  {
    hide StepInitiate, StepComplete, StepAbort, StepDelete, StepCleanup, StepParts, StepRoom, AttachUrl;
    if a.Initiating? {
      InitiateRemovesNothing(w, a, c);
    } else if a.Aborting? || a.AbortingStore? || a.ReleasingAbort? {
      AbortRemoves(w, a, c, k);
    } else if a.DeletingMedia? || a.RemovingMedia? || a.RemovingThumbnail? || a.CommittingDelete? {
      DeleteRemoves(w, a, c, k);
    } else if a.ExpiringUploads? || a.RemovingExpired? || a.ClaimingRoom? || a.PurgingRoom? || a.DroppingRoom? {
      CleanupRemoves(w, a, c, k);
    } else if a.Completing? || a.Assembling? || a.CheckingAssembly? || a.Measuring?
              || a.Discarding? || a.ReleasingMismatch? || a.Committing? {
      CompleteRemoves(w, a, c, k);
    } else {
      OtherStepsRemoveNothing(w, a, c);
    }
  }

  /** Event `e` is such a step. */
  predicate RemovedBy(w: World, e: Event, k: ObjectKey) {
    e.Move? && e.id in w.actors && Removes(w.actors[e.id], e.choice, k)
  }

  /** Of all events, exactly these remove a stored object. */
  lemma ObjectIsRemovedExactly(w: World, e: Event, k: ObjectKey)
    requires k in w.objects
    ensures k !in Next(w, e).objects <==> RemovedBy(w, e, k)
  {
    hide Step, Removes;
    if e.Move? && e.id in w.actors {
      ActorRemoves(w, w.actors[e.id], e.choice, k);
    }
  }

  /** They leave the tables as they are. */
  lemma RemovalKeepsTables(w: World, e: Event, k: ObjectKey)
    requires RemovedBy(w, e, k)
    ensures Next(w, e).t == w.t
  {
  }

  // ---- Multipart uploads ----

  /** The step that closes multipart upload `u`: assembling it, or giving it up in Abort or at its expiry. */
  predicate Closes(a: Actor, c: Choice, u: nat) {
    match a
    case Assembling(upload) => upload.kind.Multipart? && upload.kind.storageUpload == u && !c.reply.NotDone?
    case AbortingStore(upload) => upload.kind.Multipart? && upload.kind.storageUpload == u && !c.reply.NotDone?
    case RemovingExpired(upload) => upload.kind.Multipart? && upload.kind.storageUpload == u && !c.reply.NotDone?
    case _ => false
  }

  lemma ClosersClose(w: World, a: Actor, c: Choice, u: nat)
    requires u in w.multiparts && (a.Assembling? || a.AbortingStore? || a.RemovingExpired?)
    ensures u !in Step(w, a, c).0.multiparts <==> Closes(a, c, u)
  {
  }

  lemma OthersCloseNothing(w: World, a: Actor, c: Choice)
    requires !a.Assembling? && !a.AbortingStore? && !a.RemovingExpired? && !a.Initiating?
    ensures Step(w, a, c).0.multiparts == w.multiparts
  {
    hide GetUpload, Transactions.Complete, Release, DeleteMedia, Expire, ClaimRoom, DropRoom, EndedNow, MarkUploading;
    hide RoomWithSlug, AuthorizeDeletion, ScheduleDeletion, AttachUrl;
  }

  lemma InitiateClosesNothing(w: World, a: Actor, c: Choice, u: nat)
    requires u in w.multiparts && a.Initiating?
    ensures u in Step(w, a, c).0.multiparts
  {
    hide Submit, Validate, Hash, EndedNow, NewChoice;
  }

  /** Of all events, exactly these close an open multipart upload. */
  lemma PartsAreClosedExactly(w: World, e: Event, u: nat)
    requires u in w.multiparts
    ensures u !in Next(w, e).multiparts <==> e.Move? && e.id in w.actors && Closes(w.actors[e.id], e.choice, u)
  {
    hide Step;
    if e.Move? && e.id in w.actors {
      if w.actors[e.id].Initiating? {
        InitiateClosesNothing(w, w.actors[e.id], e.choice, u);
      } else if w.actors[e.id].Assembling? || w.actors[e.id].AbortingStore? || w.actors[e.id].RemovingExpired? {
        ClosersClose(w, w.actors[e.id], e.choice, u);
      } else {
        OthersCloseNothing(w, w.actors[e.id], e.choice);
      }
    }
  }
}
