/** Who may delete media, what Delete answers, and what it leaves behind. */
module MediaDeletion {
  import opened Basics
  import opened Schema
  import opened Transactions
  import opened LedgerInvariant
  import opened LedgerTransactions
  import opened UploadProtocol
  import opened UploadInvariant
  import opened UploadSteps
  import opened UploadTheorems
  import opened Alone
  import Cursor
  import Gallery

  /** The media is there and the identity is a member of its room. */
  predicate Sees(t: Tables, identity: Uuid, m: Uuid) {
    m in t.media && (t.media[m].room, identity) in t.members
  }

  /** The creator of the room, or the one who uploaded it. */
  predicate MayDelete(t: Tables, identity: Uuid, m: Uuid)
    requires Sees(t, identity, m)
  {
    t.members[(t.media[m].room, identity)] == OwnerRole || t.media[m].uploader == identity
  }

  lemma DeleteReads(w: World, identity: Uuid, m: Uuid, c: Choice)
    ensures
      var (w', a) := Step(w, DeletingMedia(identity, m), c);
      && w' == w
      && (a == Finished(Refused(MediaNotFound)) <==> !Sees(w.t, identity, m))
      && (Sees(w.t, identity, m) ==>
            && var (row, may) := (w.t.media[m], MayDelete(w.t, identity, m));
            && (a == Finished(Refused(MediaAccessDenied)) <==> !may)
            && (a == Finished(Refused(MediaNotReady)) <==> may && row.status == Pending)
            && (a == Finished(DeletedAnswer(m)) <==> may && row.status == Deleted)
            && (a == RemovingMedia(m, row.room, row.key) <==> may && (row.status == Ready || row.status == Failed)))
  {
  }

  /** The first step decides by membership, role, uploader and status, under any interleaving. */
  lemma DeleteDecides(w: World, id: nat, identity: Uuid, m: Uuid, c: Choice)
    requires id in w.actors && w.actors[id] == DeletingMedia(identity, m)
    ensures
      var w' := Next(w, Move(id, c));
      && w' == w.(actors := w'.actors) && id in w'.actors
      && var a := w'.actors[id];
      && (a == Finished(Refused(MediaNotFound)) <==> !Sees(w.t, identity, m))
      && (Sees(w.t, identity, m) ==>
            && var (row, may) := (w.t.media[m], MayDelete(w.t, identity, m));
            && (a == Finished(Refused(MediaAccessDenied)) <==> !may)
            && (a == Finished(Refused(MediaNotReady)) <==> may && row.status == Pending)
            && (a == Finished(DeletedAnswer(m)) <==> may && row.status == Deleted)
            && (a == RemovingMedia(m, row.room, row.key) <==> may && (row.status == Ready || row.status == Failed)))
  {
    DeleteReads(w, identity, m, c);
    hide Step;
  }

  /** In every state an item of the gallery offers its deletion exactly when Delete by that identity would
      not be denied. */
  lemma OfferedExactlyWhenAllowed(w: World, item: Gallery.Item, p: Cursor.Cursor, thumbnails: map<Uuid, ObjectKey>,
                                  urls: map<ObjectKey, string>, identity: Uuid, r: Uuid, id: nat, c: Choice)
    requires p.id in w.t.media && w.t.media[p.id].room == r && (r, identity) in w.t.members
    requires Gallery.Shows(item, p, w.t.media, thumbnails, urls, identity, w.t.members[(r, identity)])
    requires id in w.actors && w.actors[id] == DeletingMedia(identity, p.id)
    ensures
      var w' := Next(w, Move(id, c));
      id in w'.actors && (item.canDelete <==> w'.actors[id] != Finished(Refused(MediaAccessDenied)))
  {
    DeleteDecides(w, id, identity, p.id, c);
    hide Next;
  }

  /** A store call that fails ends the operation; the rows are then as they were. */
  lemma RemovalDecides(w: World, m: Uuid, r: Uuid, k: ObjectKey, c: Choice)
    ensures
      var (w', a) := Step(w, RemovingMedia(m, r, k), c);
      && w' == (if c.reply == NotDone then w else w.(objects := w.objects - {k}))
      && (a == Finished(Refused(StoreFailure)) <==> c.reply != Done)
      && (c.reply == Done ==> a == if c.skip then CommittingDelete(m, r) else RemovingThumbnail(m, r))
    ensures
      var (w', a) := Step(w, RemovingThumbnail(m, r), c);
      && w' == (if c.reply == NotDone then w else w.(objects := w.objects - {Thumbnail(r, m)}))
      && (a == Finished(Refused(StoreFailure)) <==> c.reply != Done)
      && (c.reply == Done ==> a == CommittingDelete(m, r))
  {
  }

  lemma DeletedPasses(t: Tables, m: Uuid, r: Uuid)
    requires LedgerInv(t) && Deletable(t, m, r)
    ensures Checked(t, DeleteStatements(t, m, r), ()) == (DeleteStatements(t, m, r), Ok(()))
  {
    hide LedgerInv, DeleteStatements, Checked, Deletes, Evolves, AddsOnly;
    StatementsDelete(t, m, r);
    DeleteKeepsLedger(t, DeleteStatements(t, m, r), m);
    LedgerPassesChecks(t, DeleteStatements(t, m, r), ());
  }

  lemma TransactionDecides(t: Tables, m: Uuid, r: Uuid)
    requires LedgerInv(t) && m in t.media && t.media[m].room == r
    ensures
      var ((t', answer), status) := (DeleteMedia(t, m, r), t.media[m].status);
      && (status == Ready || status == Failed ==> Deletes(t, t', m) && answer == Ok(()))
      && (status == Deleted ==> t' == t && answer == Ok(()))
      && (status == Pending ==> t' == t && answer == Err(Error.MediaNotReady))
  {
    assert SoundMedia(t, m);
    hide LedgerInv, SoundMedia, Evolves, AddsOnly;
    if Deletable(t, m, r) {
      StatementsDelete(t, m, r);
      DeletedPasses(t, m, r);
      DeleteRuns(t, m, r);
      hide DeleteStatements, Checked, Deletes, DeleteMedia;
    } else {
      hide Deletes, Checked;
    }
  }

  /** The closing transaction deletes ready and failed media, and answers by the status it finds. */
  lemma DeleteCommits(w: World, m: Uuid, r: Uuid, c: Choice)
    requires WorldInv(w) && m in w.t.media && w.t.media[m].room == r
    ensures
      var (w', a) := Step(w, CommittingDelete(m, r), c);
      var status := w.t.media[m].status;
      && w'.objects == w.objects
      && (status == Ready || status == Failed ==> Deletes(w.t, w'.t, m) && a == Finished(DeletedAnswer(m)))
      && (status == Deleted ==> w'.t == w.t && a == Finished(DeletedAnswer(m)))
      && (status == Pending ==> w'.t == w.t && a == Finished(Refused(MediaNotReady)))
  {
    Parts(w);
    hide WorldInv, LedgerInv, HistoryInv, DeleteMedia, Deletes, EndedNow;
    TransactionDecides(w.t, m, r);
  }

  lemma CommitAlone(w: World, v: World, id: nat, m: Uuid, r: Uuid, c: Choice, n: nat)
    requires WorldInv(w) && m in w.t.media && w.t.media[m].room == r && n > 0
    requires w.t.media[m].status == Ready || w.t.media[m].status == Failed
    requires v == w.(objects := v.objects)
    ensures
      var w' := Run(At(v, id, CommittingDelete(m, r)), Repeat(id, c, n));
      && id in w'.actors && w'.actors[id] == Finished(DeletedAnswer(m)) && Deletes(w.t, w'.t, m) && w'.objects == v.objects
  {
    hide WorldInv, Run, Step, Repeat, Deletes, Later, Records;
    StoreKeepsWorld(w, v);
    DeleteCommits(v, m, r, c);
    LastMove(v, Step(v, CommittingDelete(m, r), c).0, id, CommittingDelete(m, r), DeletedAnswer(m), c, n);
  }

  lemma ThumbnailAlone(w: World, v: World, id: nat, m: Uuid, r: Uuid, c: Choice, n: nat)
    requires WorldInv(w) && m in w.t.media && w.t.media[m].room == r && n > 1 && c.reply == Done
    requires w.t.media[m].status == Ready || w.t.media[m].status == Failed
    requires v == w.(objects := v.objects)
    ensures
      var w' := Run(At(v, id, RemovingThumbnail(m, r)), Repeat(id, c, n));
      && id in w'.actors && w'.actors[id] == Finished(DeletedAnswer(m)) && Deletes(w.t, w'.t, m)
      && w'.objects == v.objects - {Thumbnail(r, m)}
  {
    hide WorldInv, Run, Step, Repeat, Deletes, At;
    var v2 := v.(objects := v.objects - {Thumbnail(r, m)});
    RemovalDecides(v, m, r, Thumbnail(r, m), c);
    Moves(v, v2, id, RemovingThumbnail(m, r), CommittingDelete(m, r), c, n);
    CommitAlone(w, v2, id, m, r, c, n - 1);
  }

  /** From the removal of the objects on. */
  lemma RemovalAlone(w: World, id: nat, m: Uuid, c: Choice, n: nat)
    requires WorldInv(w) && m in w.t.media && (w.t.media[m].status == Ready || w.t.media[m].status == Failed)
    requires c.reply == Done && n >= 3
    ensures
      var row := w.t.media[m];
      var w' := Run(At(w, id, RemovingMedia(m, row.room, row.key)), Repeat(id, c, n));
      && id in w'.actors && w'.actors[id] == Finished(DeletedAnswer(m))
      && Deletes(w.t, w'.t, m) && row.key !in w'.objects && (c.skip || Thumbnail(row.room, m) !in w'.objects)
  {
    hide WorldInv, Run, Step, Repeat, Deletes, At;
    var (row, r) := (w.t.media[m], w.t.media[m].room);
    var v := w.(objects := w.objects - {row.key});
    RemovalDecides(w, m, r, row.key, c);
    if c.skip {
      Moves(w, v, id, RemovingMedia(m, r, row.key), CommittingDelete(m, r), c, n);
      CommitAlone(w, v, id, m, r, c, n - 1);
    } else {
      Moves(w, v, id, RemovingMedia(m, r, row.key), RemovingThumbnail(m, r), c, n);
      ThumbnailAlone(w, v, id, m, r, c, n - 1);
    }
  }

  /** Delete from start to end, in any reachable state, while nobody else moves and the store works. */
  lemma DeleteAlone(w: World, id: nat, identity: Uuid, m: Uuid, c: Choice)
    requires Reachable(w) && id !in w.actors && c.reply == Done
    ensures
      var w' := Run(w, Events(id, DeletingMedia(identity, m), c, 4));
      && id in w'.actors && w'.actors[id].Finished?
      && var o := w'.actors[id].outcome;
      && (o == Refused(MediaNotFound) <==> !Sees(w.t, identity, m))
      && (Sees(w.t, identity, m) ==>
            && var row := w.t.media[m];
            && (o == Refused(MediaAccessDenied) <==> !MayDelete(w.t, identity, m))
            && (MayDelete(w.t, identity, m) ==>
                  && (o == Refused(MediaNotReady) <==> row.status == Pending)
                  && (o == DeletedAnswer(m) <==> row.status != Pending)
                  && (row.status == Ready || row.status == Failed ==>
                        && Deletes(w.t, w'.t, m) && row.key !in w'.objects
                        && (c.skip || Thumbnail(row.room, m) !in w'.objects))))
      && (o.Refused? ==> w'.t == w.t && w'.objects == w.objects)
  {
    hide Reachable, WorldInv, Run, Step, Events, Repeat, Deletes;
    ReachableIsGood(w);
    var a := DeletingMedia(identity, m);
    Begins(w, id, a, c, 4);
    DeleteReads(w, identity, m, c);
    if Sees(w.t, identity, m) && MayDelete(w.t, identity, m) && (w.t.media[m].status == Ready || w.t.media[m].status == Failed) {
      Moves(w, w, id, a, RemovingMedia(m, w.t.media[m].room, w.t.media[m].key), c, 4);
      RemovalAlone(w, id, m, c, 3);
    } else {
      LastMove(w, w, id, a, Step(w, a, c).1.outcome, c, 4);
    }
  }
}
