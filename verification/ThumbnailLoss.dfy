/** A published thumbnail key does not promise its object: which steps lose it, and a run in which one does. */
module ThumbnailLoss {
  import opened Basics
  import opened Schema
  import opened LedgerInvariant
  import opened UploadInvariant
  import opened UploadSteps
  import opened StoreRemovals
  import opened Thumbnail
  import UploadProtocol

  /** The media is ready, its thumbnail is published, and the store does not have it. */
  predicate Lost(w: World, m: Uuid) {
    && m in w.jobs && m in w.u.t.media && w.u.t.media[m].status == Ready
    && w.jobs[m].status == JobReady && w.jobs[m].key.Some? && w.jobs[m].key.value !in w.u.objects
  }

  // ---- What removes the object of a thumbnail ----

  /** The step of an upload operation or of cleanup that removes it: media Delete before it locks the row, or the
      removal of the whole room, even one that fails half-way. */
  predicate RemovesThumbnail(a: UploadProtocol.Actor, c: UploadProtocol.Choice, r: Uuid, m: Uuid) {
    || (a == UploadProtocol.RemovingThumbnail(m, r) && !c.reply.NotDone?)
    || (a == UploadProtocol.PurgingRoom(r) && (c.reply.Done? || m < c.mediaId))
  }

  /** The other removals are of originals. */
  lemma ThumbnailRemovals(u: UploadProtocol.World, a: UploadProtocol.Actor, c: UploadProtocol.Choice, r: Uuid, m: Uuid)
    requires ActorInv(u, a)
    ensures Removes(a, c, Thumbnail(r, m)) <==> RemovesThumbnail(a, c, r, m)
  {
    hide LedgerTransactions.Matches;
  }

  /** Of all that happens in the upload service, exactly those two steps remove a thumbnail. */
  lemma UploadRemovesExactly(u: UploadProtocol.World, e: UploadProtocol.Event, r: Uuid, m: Uuid)
    requires WorldInv(u) && Thumbnail(r, m) in u.objects
    ensures Thumbnail(r, m) !in UploadProtocol.Next(u, e).objects
      <==> e.Move? && e.id in u.actors && RemovesThumbnail(u.actors[e.id], e.choice, r, m)
  {
    if e.Move? && e.id in u.actors {
      assert ActorInv(u, u.actors[e.id]);
      ThumbnailRemovals(u, u.actors[e.id], e.choice, r, m);
    }
    hide WorldInv, UploadProtocol.Next, Removes, RemovesThumbnail, ActorInv;
    ObjectIsRemovedExactly(u, e, Thumbnail(r, m));
  }

  // ---- When a publication is lost ----

  /** The step after which a publication that was not lost is. A worker loses it in the success UPDATE for this media:
      when the UPDATE is reported as failed and the clean-up goes through, whether it was this worker or an earlier
      one that published; or when the object was already gone. Otherwise it takes a removal by the upload service. */
  predicate Loses(w: World, e: Event, m: Uuid) {
    && m in w.jobs && m in w.u.t.media && w.u.t.media[m].status == Ready
    && var r := w.u.t.media[m].room;
    match e
    case Move(id, reply, removed) =>
      && id in w.workers && w.workers[id] == Publishing(m, r)
      && (match reply
          case Done => Thumbnail(r, m) !in w.u.objects
          case DoneButLost => removed || Thumbnail(r, m) !in w.u.objects
          case NotDone => removed && w.jobs[m].status == JobReady)
    case Other(Move(id, c)) => id in w.u.actors && w.jobs[m].status == JobReady && RemovesThumbnail(w.u.actors[id], c, r, m)
    case _ => false
  }

  /** After an upload step a publication is newly lost exactly when the step removed the object and left the row. */
  lemma LostByRemoval(w: World, u': UploadProtocol.World, m: Uuid, removes: bool)
    requires m in w.jobs && m in w.u.t.media && GoodJob(w, m) && !Lost(w, m)
    requires m in u'.t.media && u'.t.media[m].status == Ready ==>
      w.u.t.media[m].status == Ready || w.u.t.media[m].status == Pending
    requires removes ==> u'.t == w.u.t
    requires Thumbnail(w.u.t.media[m].room, m) in w.u.objects ==>
      (Thumbnail(w.u.t.media[m].room, m) !in u'.objects <==> removes)
    ensures Lost(w.(u := u', jobs := Follow(u'.t, w.jobs, u'.now)), m)
      <==> w.u.t.media[m].status == Ready && w.jobs[m].status == JobReady && removes
  {
  }

  lemma UploadLosesExactly(w: World, event: UploadProtocol.Event, m: Uuid)
    requires QueueInv(w) && !Lost(w, m)
    ensures Lost(Next(w, Other(event)), m) <==> Loses(w, Other(event), m)
  {
    var u' := UploadProtocol.Next(w.u, event);
    if m in w.jobs {
      assert GoodJob(w, m) && WorldInv(w.u) && m in w.u.t.media;
      hide WorldInv, UploadProtocol.Next, QueueInv, RemovesThumbnail, Removes, GoodJob, Lost;
      var r := w.u.t.media[m].room;
      var removes := event.Move? && event.id in w.u.actors && RemovesThumbnail(w.u.actors[event.id], event.choice, r, m);
      if m in u'.t.media {
        MediaStepsBack(w.u, event, m);
      }
      if Thumbnail(r, m) in w.u.objects {
        UploadRemovesExactly(w.u, event, r, m);
      }
      if removes {
        RemovalKeepsTables(w.u, event, Thumbnail(r, m));
      }
      LostByRemoval(w, u', m, removes);
    } else {
      hide WorldInv, UploadProtocol.Next, QueueInv;
    }
  }

  lemma MediaStepsBack(u: UploadProtocol.World, e: UploadProtocol.Event, m: Uuid)
    requires WorldInv(u) && m in u.t.media && m in UploadProtocol.Next(u, e).t.media
    ensures UploadProtocol.Next(u, e).t.media[m].status == Ready ==> u.t.media[m].status == Ready || u.t.media[m].status == Pending
  {
    hide WorldInv, UploadProtocol.Next;
    NextKeepsWorld(u, e);
    assert MediaEvolves(u.t.media[m], UploadProtocol.Next(u, e).t.media[m]);
  }

  lemma WorkerLosesExactly(w: World, id: nat, reply: UploadProtocol.Reply, removed: bool, m: Uuid)
    requires QueueInv(w) && !Lost(w, m)
    ensures Lost(Next(w, Move(id, reply, removed)), m) <==> Loses(w, Move(id, reply, removed), m)
  {
    if id in w.workers && m in w.jobs {
      assert GoodJob(w, m) && GoodWorker(w, w.workers[id]);
      hide QueueInv;
      if w.workers[id].Publishing? {
        PublishLoses(w, id, w.workers[id].media, w.workers[id].room, reply, removed, m);
      }
    } else {
      hide QueueInv;
    }
  }

  lemma PublishLoses(w: World, id: nat, x: Uuid, r: Uuid, reply: UploadProtocol.Reply, removed: bool, m: Uuid)
    requires !Lost(w, m) && id in w.workers && w.workers[id] == Publishing(x, r) && m in w.jobs && m in w.u.t.media
    requires w.jobs[m].key == if w.jobs[m].status == JobReady then Some(Thumbnail(w.u.t.media[m].room, m)) else None
    requires x == m ==> r == w.u.t.media[m].room
    ensures Lost(StepPublish(w, id, x, r, reply, removed), m) <==> Loses(w, Move(id, reply, removed), m)
  {
  }

  lemma ClaimLosesNothing(w: World, id: nat, m: Uuid, x: Uuid)
    requires !Lost(w, m)
    ensures !Lost(Next(w, Claim(id, x)), m)
  {
  }

  /** Of all events, exactly these lose a publication. */
  lemma PublicationIsLostExactly(w: World, e: Event, m: Uuid)
    requires Reachable(w) && !Lost(w, m)
    ensures Lost(Next(w, e), m) <==> Loses(w, e, m)
  {
    ReachableIsGood(w);
    LosesExactly(w, e, m);
  }

  lemma LosesExactly(w: World, e: Event, m: Uuid)
    requires QueueInv(w) && !Lost(w, m)
    ensures Lost(Next(w, e), m) <==> Loses(w, e, m)
  {
    hide QueueInv, Lost, Loses, Next;
    match e
    case Other(event) => UploadLosesExactly(w, event, m);
    case Claim(id, x) => ClaimLosesNothing(w, id, m, x); NoLossOtherwise(w, e, m);
    case Move(id, reply, removed) => WorkerLosesExactly(w, id, reply, removed, m);
    case Crash(id) => NoLossOtherwise(w, e, m);
  }

  lemma NoLossOtherwise(w: World, e: Event, m: Uuid)
    requires !Lost(w, m) && (e.Claim? || e.Crash?)
    ensures !Loses(w, e, m) && (e.Crash? ==> !Lost(Next(w, e), m))
  {
  }

  /** The publication is not lost in any state of the run. */
  ghost predicate NeverLost(w: World, events: seq<Event>, m: Uuid)
    decreases |events|
  {
    !Lost(w, m) && (events != [] ==> NeverLost(Next(w, events[0]), events[1..], m))
  }

  ghost predicate NoStepLoses(w: World, events: seq<Event>, m: Uuid)
    decreases |events|
  {
    events != [] ==> !Loses(w, events[0], m) && NoStepLoses(Next(w, events[0]), events[1..], m)
  }

  /** So over a run, whoever is ready and published has its object throughout exactly when no such step is taken. */
  lemma {:induction false} KeptExactly(w: World, events: seq<Event>, m: Uuid)
    requires QueueInv(w) && !Lost(w, m)
    ensures NeverLost(w, events, m) <==> NoStepLoses(w, events, m)
    decreases |events|
  {
    if events != [] {
      NextKeepsJobs(w, events[0]);
      LosesExactly(w, events[0], m);
      hide QueueInv, Lost, Loses, Next;
      if !Lost(Next(w, events[0]), m) {
        KeptExactly(Next(w, events[0]), events[1..], m);
      }
    }
  }

  lemma PublicationsAreKeptExactly(start: Time, events: seq<Event>, m: Uuid)
    ensures NeverLost(Initial(start), events, m) <==> NoStepLoses(Initial(start), events, m)
  {
    InitialIsGood(start);
    KeptExactly(Initial(start), events, m);
  }
}
