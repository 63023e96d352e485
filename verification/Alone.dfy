/** One operation from start to end while nobody else moves. */
module Alone {
  import opened InitiateRequest
  import opened Schema
  import opened Transactions
  import opened UploadProtocol

  /** `w` with actor `a` under `id`. */
  function At(w: World, id: nat, a: Actor): World {
    w.(actors := w.actors[id := a])
  }

  function Repeat(id: nat, c: Choice, n: nat): seq<Event> {
    seq(n, i => Move(id, c))
  }

  /** The operation starts and moves `n` times, each time with the choice `c`. */
  function Events(id: nat, a: Actor, c: Choice, n: nat): seq<Event> {
    [Start(id, a)] + Repeat(id, c, n)
  }

  lemma Begins(w: World, id: nat, a: Actor, c: Choice, n: nat)
    requires id !in w.actors && AtStart(a)
    ensures Run(w, Events(id, a, c, n)) == Run(At(w, id, a), Repeat(id, c, n))
  {
    assert Events(id, a, c, n)[1..] == Repeat(id, c, n);
  }

  // ---- No step looks at the other actors ----

  ghost predicate Ignores(w: World, actors: map<nat, Actor>, here: (World, Actor), there: (World, Actor)) {
    there == (here.0.(actors := actors), here.1) && here.0.actors == w.actors
  }

  lemma CommitIgnores(w: World, actors: map<nat, Actor>, t': Tables)
    ensures Commit(w.(actors := actors), t') == Commit(w, t').(actors := actors) && Commit(w, t').actors == w.actors
  {
    hide EndedNow;
  }

  lemma InitiateIgnores(w: World, actors: map<nat, Actor>, a: Actor, c: Choice)
    requires a.Initiating?
    ensures Ignores(w, actors, StepInitiate(w, a, c), StepInitiate(w.(actors := actors), a, c))
  {
    hide Initiate, Commit, Validate, Hash;
    if Validate(a.input).Some? {
      CommitIgnores(w, actors, Submit(w, a, c, Validate(a.input).value.1).0);
    }
  }

  lemma CompleteIgnores(w: World, actors: map<nat, Actor>, a: Actor, c: Choice)
    requires a.Completing? || a.Assembling? || a.CheckingAssembly? || a.Measuring?
             || a.Discarding? || a.ReleasingMismatch? || a.Committing?
    ensures Ignores(w, actors, StepComplete(w, a, c), StepComplete(w.(actors := actors), a, c))
  {
    hide Transactions.Complete, Release, Commit, GetUpload, PartList.Complete;
    if a.ReleasingMismatch? {
      CommitIgnores(w, actors, Release(w.t, a.upload, Aborted, Failed).0);
    } else if a.Committing? {
      CommitIgnores(w, actors, Transactions.Complete(w.t, a.upload).0);
    }
  }

  lemma AbortIgnores(w: World, actors: map<nat, Actor>, a: Actor, c: Choice)
    requires a.Aborting? || a.AbortingStore? || a.ReleasingAbort?
    ensures Ignores(w, actors, StepAbort(w, a, c), StepAbort(w.(actors := actors), a, c))
  {
    hide Release, Commit, GetUpload;
    if a.ReleasingAbort? {
      CommitIgnores(w, actors, Release(w.t, a.upload, Aborted, Deleted).0);
    }
  }

  lemma DeleteIgnores(w: World, actors: map<nat, Actor>, a: Actor, c: Choice)
    requires a.DeletingMedia? || a.RemovingMedia? || a.RemovingThumbnail? || a.CommittingDelete?
    ensures Ignores(w, actors, StepDelete(w, a, c), StepDelete(w.(actors := actors), a, c))
  {
    hide DeleteMedia, Commit;
    if a.CommittingDelete? {
      CommitIgnores(w, actors, DeleteMedia(w.t, a.media, a.room).0);
    }
  }

  lemma CleanupIgnores(w: World, actors: map<nat, Actor>, a: Actor, c: Choice)
    requires a.ExpiringUploads? || a.RemovingExpired? || a.ClaimingRoom? || a.PurgingRoom? || a.DroppingRoom?
    ensures Ignores(w, actors, StepCleanup(w, a, c), StepCleanup(w.(actors := actors), a, c))
  {
    hide Expire, ClaimRoom, DropRoom, Commit;
    if a.ExpiringUploads? {
      CommitIgnores(w, actors, Expire(w.t, c.row, w.now).0);
    } else if a.ClaimingRoom? {
      CommitIgnores(w, actors, ClaimRoom(w.t, c.row, w.now).0);
    } else if a.DroppingRoom? {
      CommitIgnores(w, actors, DropRoom(w.t, a.room));
    }
  }

  lemma OthersIgnore(w: World, actors: map<nat, Actor>, a: Actor, c: Choice)
    requires a.Finished? || a.Attaching? || a.RequestingParts? || a.MarkingParts? || a.DeletingRoom? || a.SchedulingRoom?
    ensures Ignores(w, actors, Step(w, a, c), Step(w.(actors := actors), a, c))
  {
    hide MarkUploading, Commit, GetUpload, RoomWithSlug, AuthorizeDeletion, ScheduleDeletion, AttachUrl;
    if a.MarkingParts? {
      CommitIgnores(w, actors, MarkUploading(w.t, a.upload.id));
    } else if a.SchedulingRoom? && RoomWithSlug(w.t, a.slug).Some? {
      CommitIgnores(w, actors, ScheduleDeletion(w.t, RoomWithSlug(w.t, a.slug).value, a.identity).0);
    }
  }

  lemma StepIgnoresActors(w: World, actors: map<nat, Actor>, a: Actor, c: Choice)
    ensures Ignores(w, actors, Step(w, a, c), Step(w.(actors := actors), a, c))
  {
    hide StepInitiate, StepComplete, StepAbort, StepDelete, StepCleanup, StepParts, StepRoom, AttachUrl, Ignores;
    if a.Initiating? {
      InitiateIgnores(w, actors, a, c);
    } else if a.Aborting? || a.AbortingStore? || a.ReleasingAbort? {
      AbortIgnores(w, actors, a, c);
    } else if a.DeletingMedia? || a.RemovingMedia? || a.RemovingThumbnail? || a.CommittingDelete? {
      DeleteIgnores(w, actors, a, c);
    } else if a.ExpiringUploads? || a.RemovingExpired? || a.ClaimingRoom? || a.PurgingRoom? || a.DroppingRoom? {
      CleanupIgnores(w, actors, a, c);
    } else if a.Completing? || a.Assembling? || a.CheckingAssembly? || a.Measuring?
              || a.Discarding? || a.ReleasingMismatch? || a.Committing? {
      CompleteIgnores(w, actors, a, c);
    } else {
      OthersIgnore(w, actors, a, c);
    }
  }

  // ---- Moves ----

  /** One move of the operation, whose next place is `a'` and which leaves everything else as in `v`. */
  lemma Moves(w: World, v: World, id: nat, a: Actor, a': Actor, c: Choice, n: nat)
    requires n > 0 && Step(w, a, c) == (v, a')
    ensures Run(At(w, id, a), Repeat(id, c, n)) == Run(At(v, id, a'), Repeat(id, c, n - 1))
  {
    hide Step;
    StepIgnoresActors(w, w.actors[id := a], a, c);
    assert Repeat(id, c, n)[1..] == Repeat(id, c, n - 1);
    assert v.actors[id := a][id := a'] == v.actors[id := a'];
    assert Next(At(w, id, a), Move(id, c)) == At(v, id, a');
  }

  lemma {:induction false} Rests(w: World, id: nat, o: Outcome, c: Choice, n: nat)
    ensures Run(At(w, id, Finished(o)), Repeat(id, c, n)) == At(w, id, Finished(o))
    decreases n
  {
    if n > 0 {
      Moves(w, w, id, Finished(o), Finished(o), c, n);
      Rests(w, id, o, c, n - 1);
    }
  }

  /** The last move. */
  lemma LastMove(w: World, v: World, id: nat, a: Actor, o: Outcome, c: Choice, n: nat)
    requires n > 0 && Step(w, a, c) == (v, Finished(o))
    ensures Run(At(w, id, a), Repeat(id, c, n)) == At(v, id, Finished(o))
  {
    hide Step, Run;
    Moves(w, v, id, a, Finished(o), c, n);
    Rests(v, id, o, c, n - 1);
  }

  /** A crash takes the operation along and nothing else: it moves no more. */
  lemma CrashedMovesNoMore(w: World, id: nat, c: Choice)
    ensures
      var w' := Next(w, Crash(id));
      && id !in w'.actors && Next(w', Move(id, c)) == w'
      && w' == w.(actors := w'.actors) && forall x :: x != id ==> (x in w'.actors <==> x in w.actors)
    ensures forall x :: x in Next(w, Crash(id)).actors ==> Next(w, Crash(id)).actors[x] == w.actors[x]
  {
  }
}
