/** What Abort and PartURLs answer. */
module SessionAnswers {
  import opened Basics
  import opened Schema
  import opened Transactions
  import opened LedgerInvariant
  import opened LedgerTransactions
  import opened UploadProtocol
  import opened UploadInvariant
  import opened UploadSteps
  import opened UploadTheorems
  import opened Alone
  import opened CompleteAnswers
  import Multipart

  // ---- Abort, step by step ----

  lemma AbortReads(w: World, identity: Uuid, s: Uuid, c: Choice)
    requires WorldInv(w)
    ensures
      var (w', a) := Step(w, Aborting(identity, s), c);
      && w' == w
      && (a == Finished(Refused(UploadNotFound)) <==> !Mine(w.t, identity, s))
      && (Mine(w.t, identity, s) ==>
            && Joined(w.t, s)
            && var status := w.t.sessions[s].status;
            && (a == Finished(Refused(Error.UploadCompleted)) <==> status == Completed)
            && (a == Finished(AbortedAnswer(s)) <==> status == Aborted || status == Expired)
            && (a == AbortingStore(View(w.t, s)) <==> status == Initiated || status == Uploading))
  {
    if s in w.t.sessions {
      SessionIsJoined(w, s);
    }
    hide WorldInv;
  }

  /** The object of a single upload is removed for better or worse; the parts of a multipart upload have to go, or
      the reservation stays. */
  lemma AbortStoreDecides(w: World, upload: Upload, c: Choice)
    ensures
      var (w', a) := Step(w, AbortingStore(upload), c);
      && (upload.kind.Single? ==>
            && a == ReleasingAbort(upload)
            && w' == if c.reply == NotDone then w else w.(objects := w.objects - {upload.key}))
      && (upload.kind.Multipart? ==>
            && (a == ReleasingAbort(upload) <==> c.reply == Done)
            && (a == Finished(Refused(StoreFailure)) <==> c.reply != Done)
            && w' == if c.reply == NotDone then w else w.(multiparts := w.multiparts - {upload.kind.storageUpload}))
  {
  }

  lemma AbortReleases(w: World, upload: Upload, c: Choice)
    requires Release(w.t, upload, Aborted, Deleted).1 == Ok(())
    ensures Step(w, ReleasingAbort(upload), c)
      == (Commit(w, Release(w.t, upload, Aborted, Deleted).0), Finished(AbortedAnswer(upload.id)))
  {
    hide Release, Commit;
  }

  /** The reservation of a live session is released; Abort succeeds unless someone completed the upload. */
  lemma AbortDecides(w: World, upload: Upload, c: Choice)
    requires WorldInv(w) && Known(w, upload)
    ensures
      var (w', a) := Step(w, ReleasingAbort(upload), c);
      var there := upload.id in w.t.sessions;
      var live := there && w.t.sessions[upload.id].status.Live();
      && (live ==> Ends(w.t, w'.t, upload.id, Aborted, Deleted)) && (!live ==> w'.t == w.t)
      && w'.objects == w.objects && w'.multiparts == w.multiparts
      && (a == Finished(AbortedAnswer(upload.id)) <==> there && w.t.sessions[upload.id].status != Completed)
      && (a == Finished(Refused(Error.UploadCompleted)) <==> there && w.t.sessions[upload.id].status == Completed)
      && (a == Finished(Refused(NoRows)) <==> !there)
  {
    Parts(w);
    if upload.id in w.t.sessions && w.t.sessions[upload.id].status.Live() {
      ReleaseEnds(w.t, upload, Deleted);
      AbortReleases(w, upload, c);
    } else {
      hide WorldInv, LedgerInv, Ends, EndedNow;
    }
  }

  // ---- Abort from start to end ----

  lemma ReleasedAlone(w: World, v: World, id: nat, upload: Upload, c: Choice, n: nat)
    requires OpenReading(w, upload) && v == w.(objects := v.objects, multiparts := v.multiparts) && n > 0
    ensures
      var w' := Run(At(v, id, ReleasingAbort(upload)), Repeat(id, c, n));
      && id in w'.actors && w'.actors[id] == Finished(AbortedAnswer(upload.id))
      && Ends(w.t, w'.t, upload.id, Aborted, Deleted) && w'.objects == v.objects && w'.multiparts == v.multiparts
  {
    hide WorldInv, Known, Run, Step, Repeat, Ends, Later, Records;
    StoreKeepsWorld(w, v);
    KnownWithStore(w, v, upload);
    AbortDecides(v, upload, c);
    LastMove(v, Step(v, ReleasingAbort(upload), c).0, id, ReleasingAbort(upload), AbortedAnswer(upload.id), c, n);
  }

  lemma StoreAbortedAlone(w: World, id: nat, upload: Upload, c: Choice, n: nat)
    requires OpenReading(w, upload) && c.reply == Done && n > 1
    ensures
      var w' := Run(At(w, id, AbortingStore(upload)), Repeat(id, c, n));
      && id in w'.actors && w'.actors[id] == Finished(AbortedAnswer(upload.id))
      && Ends(w.t, w'.t, upload.id, Aborted, Deleted)
      && (upload.kind.Single? ==> upload.key !in w'.objects)
      && (upload.kind.Multipart? ==> upload.kind.storageUpload !in w'.multiparts)
  {
    hide OpenReading, Run, Step, Repeat, Ends, At;
    AbortStoreDecides(w, upload, c);
    var v := Step(w, AbortingStore(upload), c).0;
    Moves(w, v, id, AbortingStore(upload), ReleasingAbort(upload), c, n);
    ReleasedAlone(w, v, id, upload, c, n - 1);
  }

  /** Abort in any reachable state, while nobody else moves and the store works. */
  lemma AbortAlone(w: World, id: nat, identity: Uuid, s: Uuid, c: Choice)
    requires Reachable(w) && id !in w.actors && c.reply == Done
    ensures
      var w' := Run(w, Events(id, Aborting(identity, s), c, 3));
      && id in w'.actors && w'.actors[id].Finished?
      && var o := w'.actors[id].outcome;
      && (o == Refused(UploadNotFound) <==> !Mine(w.t, identity, s))
      && (Mine(w.t, identity, s) ==>
            && Joined(w.t, s)
            && var (status, upload) := (w.t.sessions[s].status, View(w.t, s));
            && (o == Refused(Error.UploadCompleted) <==> status == Completed)
            && (o == AbortedAnswer(s) <==> status != Completed)
            && (if status == Initiated || status == Uploading then
                  && Ends(w.t, w'.t, s, Aborted, Deleted)
                  && (upload.kind.Single? ==> upload.key !in w'.objects)
                  && (upload.kind.Multipart? ==> upload.kind.storageUpload !in w'.multiparts)
                else w'.t == w.t && w'.objects == w.objects && w'.multiparts == w.multiparts))
  {
    hide Reachable, WorldInv, Run, Step, Events, Repeat, View, OpenReading, Ends;
    ReachableIsGood(w);
    var a := Aborting(identity, s);
    Begins(w, id, a, c, 3);
    AbortReads(w, identity, s, c);
    if Mine(w.t, identity, s) && w.t.sessions[s].status.Live() {
      ReadingIsLive(w, s);
      Moves(w, w, id, a, AbortingStore(View(w.t, s)), c, 3);
      StoreAbortedAlone(w, id, View(w.t, s), c, 2);
    } else {
      LastMove(w, w, id, a, Step(w, a, c).1.outcome, c, 3);
    }
  }

  // ---- PartURLs ----

  /** A batch of at most twenty different parts of the upload. */
  predicate BatchFits(kind: UploadKind, numbers: seq<int>) {
    && 1 <= |numbers| <= 20 && kind.Multipart?
    && (forall i :: 0 <= i < |numbers| ==> 1 <= numbers[i] <= kind.partsCount)
    && (forall i, j :: 0 <= i < j < |numbers| ==> numbers[i] != numbers[j])
  }

  lemma BatchIsOk(kind: UploadKind, numbers: seq<int>)
    requires 1 <= |numbers| <= 20 && kind.Multipart?
    ensures BatchFits(kind, numbers) <==> Multipart.PartNumbersOk(numbers, kind.partsCount)
  {
  }

  lemma PartsRead(w: World, identity: Uuid, s: Uuid, numbers: seq<int>, c: Choice)
    requires WorldInv(w)
    ensures
      var (w', a) := Step(w, RequestingParts(identity, s, numbers), c);
      && w' == w
      && (1 <= |numbers| <= 20 || a == Finished(Refused(InvalidUploadParts)))
      && (1 <= |numbers| <= 20 ==>
            && (a == Finished(Refused(UploadNotFound)) <==> !Mine(w.t, identity, s))
            && (Mine(w.t, identity, s) ==>
                  && Joined(w.t, s)
                  && var (row, open) := (w.t.sessions[s], Open(w.t, s, w.now));
                  && (a == Finished(Refused(Error.UploadCompleted)) <==> row.kind.Multipart? && row.status == Completed)
                  && (a == Finished(Refused(UploadExpired)) <==>
                        row.kind.Multipart? && row.status != Completed && !open)
                  && (a == Finished(Refused(InvalidUploadParts)) <==>
                        row.kind.Single? || (open && !BatchFits(row.kind, numbers)))
                  && (a == Finished(Refused(StoreFailure)) <==>
                        open && BatchFits(row.kind, numbers) && c.reply != Done)
                  && (a == MarkingParts(View(w.t, s)) <==>
                        open && BatchFits(row.kind, numbers) && c.reply == Done)))
  {
    if s in w.t.sessions {
      SessionIsJoined(w, s);
      if 1 <= |numbers| <= 20 && w.t.sessions[s].kind.Multipart? {
        BatchIsOk(w.t.sessions[s].kind, numbers);
      }
    }
    hide WorldInv, Multipart.PartNumbersOk;
  }

  /** The batch is recorded: a session that was initiated is now uploading. */
  lemma PartsMarked(w: World, upload: Upload, c: Choice)
    requires upload.id in w.t.sessions
    ensures
      var (w', a) := Step(w, MarkingParts(upload), c);
      var row := w.t.sessions[upload.id];
      && a == Finished(PartsAnswer(upload.id))
      && w'.t == (if row.status == Initiated then w.t.(sessions := w.t.sessions[upload.id := row.(status := Uploading)]) else w.t)
  {
    hide EndedNow;
  }

  /** PartURLs in any reachable state, while nobody else moves and the store works. */
  lemma PartsAlone(w: World, id: nat, identity: Uuid, s: Uuid, numbers: seq<int>, c: Choice)
    requires Reachable(w) && id !in w.actors && c.reply == Done
    ensures
      var w' := Run(w, Events(id, RequestingParts(identity, s, numbers), c, 2));
      && id in w'.actors && w'.actors[id].Finished?
      && var o := w'.actors[id].outcome;
      && (o == PartsAnswer(s) <==>
            Mine(w.t, identity, s) && Open(w.t, s, w.now) && BatchFits(w.t.sessions[s].kind, numbers))
      && (o != PartsAnswer(s) ==> o.Refused? && w'.t == w.t)
      && (o == PartsAnswer(s) ==>
            w'.t == w.t.(sessions := w.t.sessions[s := w.t.sessions[s].(status := Uploading)]))
  {
    hide Reachable, WorldInv, Run, Step, Events, Repeat, BatchFits;
    ReachableIsGood(w);
    var a := RequestingParts(identity, s, numbers);
    Begins(w, id, a, c, 2);
    PartsRead(w, identity, s, numbers, c);
    var a' := Step(w, a, c).1;
    NoBatchFits(w, s, numbers);
    if a'.Finished? {
      LastMove(w, w, id, a, a'.outcome, c, 2);
    } else {
      PartsMarked(w, View(w.t, s), c);
      Moves(w, w, id, a, a', c, 2);
      LastMove(w, Step(w, a', c).0, id, a', PartsAnswer(s), c, 1);
      if w.t.sessions[s].status == Uploading {
        assert w.t.sessions[s := w.t.sessions[s].(status := Uploading)] == w.t.sessions;
      }
    }
  }

  lemma NoBatchFits(w: World, s: Uuid, numbers: seq<int>)
    ensures !(1 <= |numbers| <= 20) && s in w.t.sessions ==> !BatchFits(w.t.sessions[s].kind, numbers)
    ensures s in w.t.sessions && w.t.sessions[s].kind.Single? ==> !BatchFits(w.t.sessions[s].kind, numbers)
  {
  }
}
