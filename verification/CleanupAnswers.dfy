/** What each step of the cleanup worker does, whatever runs beside it. */
module CleanupAnswers {
  import opened Basics
  import opened Schema
  import opened Transactions
  import opened LedgerInvariant
  import opened LedgerTransactions
  import opened UploadProtocol
  import opened UploadInvariant
  import opened UploadSteps
  import opened Alone

  /** The session of a row the worker may expire. */
  predicate IsOverdue(t: Tables, s: Uuid, now: Time) {
    s in t.sessions && (t.sessions[s].status == Initiated || t.sessions[s].status == Uploading) && t.sessions[s].expiresAt <= now
  }

  lemma OverdueIsExpired(t: Tables, s: Uuid, now: Time)
    requires LedgerInv(t)
    ensures IsOverdue(t, s, now) ==>
      Joined(t, s) && Ends(t, Expire(t, s, now).0, s, Expired, Failed) && Expire(t, s, now).1 == Ok(View(t, s))
    ensures !IsOverdue(t, s, now) ==> Expire(t, s, now) == (t, Err(NoRows))
  {
    if s in t.sessions {
      assert SoundSession(t, s);
    }
    if IsOverdue(t, s, now) {
      ExpireEnds(t, s, now);
    }
  }

  /** It expires the overdue session it picks, and goes on to the rooms when there is none. */
  lemma ExpiryDecides(w: World, c: Choice)
    requires WorldInv(w)
    ensures
      var (w', a) := Step(w, ExpiringUploads, c);
      && w'.objects == w.objects && w'.multiparts == w.multiparts
      && (if !c.skip && IsOverdue(w.t, c.row, w.now) then
            && Ends(w.t, w'.t, c.row, Expired, Failed)
            && Joined(w.t, c.row) && a == RemovingExpired(View(w.t, c.row))
          else w'.t == w.t && a == ClaimingRoom)
  {
    Parts(w);
    hide WorldInv, LedgerInv, HistoryInv, Expire, Ends, EndedNow, IsOverdue, View;
    OverdueIsExpired(w.t, c.row, w.now);
  }

  /** It discards what the session had in the store, and goes on with the next one in any case. */
  lemma ExpiredIsDiscarded(w: World, upload: Upload, c: Choice)
    ensures
      var (w', a) := Step(w, RemovingExpired(upload), c);
      && a == ExpiringUploads && w'.t == w.t
      && w' == (if c.reply == NotDone then w
                else if upload.kind.Single? then w.(objects := w.objects - {upload.key})
                else w.(multiparts := w.multiparts - {upload.kind.storageUpload}))
  {
  }

  /** An overdue upload is gone after two moves: expired, its reservation released, and nothing of it in the store. */
  lemma ExpiryAlone(w: World, id: nat, c: Choice)
    requires WorldInv(w) && !c.skip && IsOverdue(w.t, c.row, w.now) && c.reply == Done
    ensures
      var w' := Run(At(w, id, ExpiringUploads), Repeat(id, c, 2));
      && id in w'.actors && w'.actors[id] == ExpiringUploads
      && Ends(w.t, w'.t, c.row, Expired, Failed) && Joined(w.t, c.row)
      && var upload := View(w.t, c.row);
      && (upload.kind.Single? ==> upload.key !in w'.objects)
      && (upload.kind.Multipart? ==> upload.kind.storageUpload !in w'.multiparts)
  {
    hide WorldInv, Run, Step, Repeat, Ends, View, IsOverdue;
    ExpiryDecides(w, c);
    var v := Step(w, ExpiringUploads, c).0;
    var a := RemovingExpired(View(w.t, c.row));
    ExpiredIsDiscarded(v, View(w.t, c.row), c);
    var v' := Step(v, a, c).0;
    Moves(w, v, id, ExpiringUploads, a, c, 2);
    Moves(v, v', id, a, ExpiringUploads, c, 1);
    RunsOut(v', id, ExpiringUploads, c);
  }

  lemma RunsOut(w: World, id: nat, a: Actor, c: Choice)
    ensures Run(At(w, id, a), Repeat(id, c, 0)) == At(w, id, a)
  {
  }

  /** It claims the room it picks when that is over or already being deleted, and ends the batch when there is none. */
  lemma ClaimDecides(w: World, c: Choice)
    ensures
      var (w', a) := Step(w, ClaimingRoom, c);
      var over := c.row in w.t.rooms && (w.t.rooms[c.row].status == Deleting || w.t.rooms[c.row].expiresAt <= w.now);
      && w'.objects == w.objects
      && (if !c.skip && over then
            && a == PurgingRoom(c.row)
            && w'.t == w.t.(rooms := w.t.rooms[c.row := w.t.rooms[c.row].(status := Deleting)])
          else w'.t == w.t && a == Finished(BatchAnswer))
  {
    hide EndedNow;
  }

  /** Only a complete removal of its objects lets it delete the room. */
  lemma PurgeDecides(w: World, r: Uuid, c: Choice)
    ensures
      var (w', a) := Step(w, PurgingRoom(r), c);
      && w'.t == w.t
      && (a == DroppingRoom(r) <==> c.reply == Done)
      && (a == Finished(Refused(StoreFailure)) <==> c.reply != Done)
      && (c.reply == Done ==> forall k :: k in w'.objects <==> k in w.objects && k.room != r)
  {
  }

  /** The room goes, if it is still being deleted, with its media, their sessions and its members, and nothing else. */
  lemma DropExactly(w: World, r: Uuid, c: Choice)
    ensures
      var (w', a) := Step(w, DroppingRoom(r), c);
      var (t, t') := (w.t, w'.t);
      && a == ClaimingRoom && w'.objects == w.objects
      && (if r in t.rooms && t.rooms[r].status == Deleting then
            && (forall x :: x in t'.rooms <==> x in t.rooms && x != r)
            && (forall m :: m in t'.media <==> m in t.media && t.media[m].room != r)
            && (forall s :: s in t'.sessions <==>
                  s in t.sessions && !(t.sessions[s].mediaId in t.media && t.media[t.sessions[s].mediaId].room == r))
            && (forall k :: k in t'.members <==> k in t.members && k.0 != r)
            && (forall x :: x in t'.rooms ==> t'.rooms[x] == t.rooms[x])
            && (forall m :: m in t'.media ==> t'.media[m] == t.media[m])
            && (forall s :: s in t'.sessions ==> t'.sessions[s] == t.sessions[s])
            && (forall k :: k in t'.members ==> t'.members[k] == t.members[k])
          else t' == t)
  {
    hide EndedNow;
  }
}
