/** Ready media does not always have its object: which steps leave it without. */
module MediaLoss {
  import opened Basics
  import opened Schema
  import opened LedgerInvariant
  import opened LedgerTransactions
  import opened UploadProtocol
  import opened UploadInvariant
  import opened UploadSteps
  import opened UploadTheorems
  import opened StoreRemovals
  import opened Readiness

  /** The media is ready, and the store does not have its original. */
  predicate Missing(w: World, m: Uuid) {
    m in w.t.media && w.t.media[m].status == Ready && w.t.media[m].key !in w.objects
  }

  // ---- Complete makes pending media ready ----

  lemma CompleteMakesReady(w: World, upload: Upload)
    requires WorldInv(w) && Known(w, upload) && upload.mediaId in w.t.media && w.t.media[upload.mediaId].status == Pending
    ensures Transactions.Complete(w.t, upload).0.media ==
      w.t.media[upload.mediaId := w.t.media[upload.mediaId].(status := Ready)]
  {
    assert LedgerInv(w.t) && SoundSession(w.t, upload.id);
    hide WorldInv, LedgerInv, Transactions.Complete;
    CompleteEnds(w.t, upload);
  }

  lemma CommitStepMakesReady(w: World, a: Actor, c: Choice)
    requires WorldInv(w) && a.Committing? && Known(w, a.upload)
    requires a.upload.mediaId in w.t.media && w.t.media[a.upload.mediaId].status == Pending
    ensures
      var w' := Step(w, a, c).0;
      w'.objects == w.objects && a.upload.mediaId in w'.t.media && w'.t.media[a.upload.mediaId].status == Ready
  {
    CompleteMakesReady(w, a.upload);
    hide WorldInv, Transactions.Complete, Known, EndedNow;
  }

  lemma CommitMakesReady(w: World, id: nat, c: Choice)
    requires WorldInv(w) && id in w.actors && w.actors[id].Committing?
    requires var m := w.actors[id].upload.mediaId; m in w.t.media && w.t.media[m].status == Pending
    ensures
      var m := w.actors[id].upload.mediaId;
      var w' := Next(w, Move(id, c));
      w'.objects == w.objects && m in w'.t.media && w'.t.media[m].status == Ready
  {
    assert ActorInv(w, w.actors[id]);
    hide WorldInv, ActorInv, Step, Known;
    ReadingMatches(w, w.actors[id]);
    CommitStepMakesReady(w, w.actors[id], c);
  }

  // ---- When ready media goes missing ----

  /** The step after which ready media that was not missing is. Either it removes the object of ready media, which
      the expiry worker never does, or it completes an upload whose object went away after it was measured. */
  predicate Loses(w: World, e: Event, m: Uuid) {
    && e.Move? && e.id in w.actors && m in w.t.media
    && var a := w.actors[e.id];
    if w.t.media[m].status == Ready then Removes(a, e.choice, w.t.media[m].key) && !a.RemovingExpired?
    else w.t.media[m].status == Pending && a.Committing? && a.upload.mediaId == m && w.t.media[m].key !in w.objects
  }

  /** Whatever is ready afterwards was ready, or pending, under the same key. */
  lemma RowBefore(w: World, e: Event, m: Uuid)
    requires WorldInv(w) && m in w.t.media
    ensures
      var w' := Next(w, e);
      m in w'.t.media ==>
        && w'.t.media[m].key == w.t.media[m].key
        && (w'.t.media[m].status == Ready ==> w.t.media[m].status == Ready || w.t.media[m].status == Pending)
  {
    hide WorldInv, Next;
    NextKeepsWorld(w, e);
    if m in Next(w, e).t.media {
      assert MediaEvolves(w.t.media[m], Next(w, e).t.media[m]);
    }
  }

  /** The expiry worker's key is not that of ready media. */
  lemma ExpiryLosesNothing(w: World, id: nat, m: Uuid)
    requires WorldInv(w) && id in w.actors && w.actors[id].RemovingExpired? && m in w.t.media && w.t.media[m].status == Ready
    ensures w.actors[id].upload.key != w.t.media[m].key
  {
    assert ActorInv(w, w.actors[id]);
    hide WorldInv;
    EndedMediaIsNotReady(w, w.actors[id].upload);
  }

  lemma ReadyGoesMissing(w: World, e: Event, m: Uuid)
    requires WorldInv(w) && m in w.t.media && w.t.media[m].status == Ready && w.t.media[m].key in w.objects
    ensures Missing(Next(w, e), m) <==> Loses(w, e, m)
  {
    hide WorldInv, Next;
    RowBefore(w, e, m);
    var k := w.t.media[m].key;
    ObjectIsRemovedExactly(w, e, k);
    if RemovedBy(w, e, k) {
      RemovalKeepsTables(w, e, k);
      if w.actors[e.id].RemovingExpired? {
        ExpiryLosesNothing(w, e.id, m);
      }
    }
  }

  lemma PendingGoesMissing(w: World, e: Event, m: Uuid)
    requires WorldInv(w) && m in w.t.media && w.t.media[m].status != Ready
    ensures Missing(Next(w, e), m) <==> Loses(w, e, m)
  {
    hide WorldInv, Next, Removes;
    RowBefore(w, e, m);
    if Missing(Next(w, e), m) {
      OnlyCompleteReadies(w, e, m);
      CommitMakesReady(w, e.id, e.choice);
    }
    if Loses(w, e, m) {
      CommitMakesReady(w, e.id, e.choice);
    }
  }

  /** Of all events, exactly these leave ready media without its object. */
  lemma OriginalIsLostExactly(w: World, e: Event, m: Uuid)
    requires Reachable(w) && !Missing(w, m)
    ensures Missing(Next(w, e), m) <==> Loses(w, e, m)
  {
    ReachableIsGood(w);
    LosesExactly(w, e, m);
  }

  lemma LosesExactly(w: World, e: Event, m: Uuid)
    requires WorldInv(w) && !Missing(w, m)
    ensures Missing(Next(w, e), m) <==> Loses(w, e, m)
  {
    hide WorldInv, Next, Removes;
    if m !in w.t.media {
      if Missing(Next(w, e), m) {
        OnlyCompleteReadies(w, e, m);
        CommittedMediaIsThere(w, e, m);
      }
    } else if w.t.media[m].status == Ready {
      ReadyGoesMissing(w, e, m);
    } else {
      PendingGoesMissing(w, e, m);
    }
  }

  /** Complete brings no media back. */
  lemma CommittedMediaIsThere(w: World, e: Event, m: Uuid)
    requires e.Move? && e.id in w.actors && w.actors[e.id].Committing? && m in Next(w, e).t.media
    ensures m in w.t.media
  {
  }

  // ---- Over runs ----

  /** The media is not missing in any state of the run. */
  ghost predicate NeverMissing(w: World, events: seq<Event>, m: Uuid)
    decreases |events|
  {
    !Missing(w, m) && (events != [] ==> NeverMissing(Next(w, events[0]), events[1..], m))
  }

  ghost predicate NoStepLoses(w: World, events: seq<Event>, m: Uuid)
    decreases |events|
  {
    events != [] ==> !Loses(w, events[0], m) && NoStepLoses(Next(w, events[0]), events[1..], m)
  }

  lemma {:induction false} KeptExactly(w: World, events: seq<Event>, m: Uuid)
    requires WorldInv(w) && !Missing(w, m)
    ensures NeverMissing(w, events, m) <==> NoStepLoses(w, events, m)
    decreases |events|
  {
    if events != [] {
      NextKeepsWorld(w, events[0]);
      LosesExactly(w, events[0], m);
      hide WorldInv, Missing, Loses, Next;
      if !Missing(Next(w, events[0]), m) {
        KeptExactly(Next(w, events[0]), events[1..], m);
      }
    }
  }

  /** Over a run, media has its object whenever it is ready exactly when no such step is taken. */
  lemma OriginalsAreKeptExactly(start: Time, events: seq<Event>, m: Uuid)
    ensures NeverMissing(Initial(start), events, m) <==> NoStepLoses(Initial(start), events, m)
  {
    UploadSteps.InitialIsGood(start);
    KeptExactly(Initial(start), events, m);
  }
}
