/** A run from an empty database in which Complete and Abort race: the photo is ready, and its object is gone. */
module MediaLossRun {
  import opened Basics
  import opened InitiateRequest
  import opened Schema
  import opened Transactions
  import opened UploadProtocol
  import opened UploadTheorems
  import opened PhotoRun
  import opened MediaLoss

  /** The photo is stored and Complete has measured it. Then Abort reads the session and removes the object,
      Complete commits, and Abort finds the session completed. */
  function RaceEvents(): (events: seq<Event>)
    ensures |events| == 12
  {
    [FirstEvents()[0], FirstEvents()[1], FirstEvents()[2],
     LaterEvents()[0], LaterEvents()[1], LaterEvents()[2], LaterEvents()[3],
     Start(2, Aborting(OWNER, UPLOAD)), Move(2, Fine()), Move(2, Fine()), Move(1, Fine()), Move(2, Fine())]
  }

  function Racing(t: Tables, objects: map<ObjectKey, int>, complete: Actor, abort: Actor): World {
    WithPut().(t := t, objects := objects, actors := WithUpload().actors[1 := complete][2 := abort])
  }

  function Stored(): map<ObjectKey, int> {
    map[Original(ROOM, PHOTO) := 1]
  }

  /** After Complete's transaction, with its answer. */
  function Completed(abort: Actor): World {
    Racing(Uploaded(), map[], Finished(ReadyAnswer(UPLOAD)), abort).(ended := map[UPLOAD := SessionStatus.Completed])
  }

  /** Where the race leaves the upload: Complete has answered "ready", and Abort is refused. */
  function Raced(): World {
    Completed(Finished(Refused(Error.UploadCompleted)))
  }

  lemma AbortStarts()
    ensures Next(WithReader(Committing(Read())), Start(2, Aborting(OWNER, UPLOAD)))
      == Racing(Reserved(), Stored(), Committing(Read()), Aborting(OWNER, UPLOAD))
  {
    hide Next, Reserved, Read, Hash, Picture;
    Started(WithReader(Committing(Read())), 2, Aborting(OWNER, UPLOAD));
  }

  lemma Place(t: Tables, objects: map<ObjectKey, int>, complete: Actor, abort: Actor, complete': Actor, abort': Actor)
    ensures
      var w := Racing(t, objects, complete, abort);
      && w.actors[1] == complete && w.actors[2] == abort
      && w.(actors := w.actors[1 := complete']) == Racing(t, objects, complete', abort)
      && w.(actors := w.actors[2 := abort']) == Racing(t, objects, complete, abort')
  {
    hide WithPut, WithUpload;
    var actors: map<nat, Actor> := WithUpload().actors;
    assert actors[1 := complete][2 := abort][1 := complete'] == actors[1 := complete'][2 := abort];
    assert actors[1 := complete][2 := abort][2 := abort'] == actors[1 := complete][2 := abort'];
  }

  lemma AbortReads()
    ensures Next(Racing(Reserved(), Stored(), Committing(Read()), Aborting(OWNER, UPLOAD)), Move(2, Fine()))
      == Racing(Reserved(), Stored(), Committing(Read()), AbortingStore(Read()))
  {
    var a := Aborting(OWNER, UPLOAD);
    var w := Racing(Reserved(), Stored(), Committing(Read()), a);
    assert GetUpload(Reserved(), OWNER, UPLOAD) == Ok(Read()) && Read().status.Live() by {
      hide Hash;
    }
    assert w.t == Reserved();
    hide Next, Racing, Stored, GetUpload, Reserved, Read, Hash, Picture;
    assert Step(w, a, Fine()) == (w, AbortingStore(Read()));
    Place(Reserved(), Stored(), Committing(Read()), a, Committing(Read()), AbortingStore(Read()));
    Moved(w, 2, Fine(), w, AbortingStore(Read()));
  }

  lemma AbortRemovesObject()
    ensures Next(Racing(Reserved(), Stored(), Committing(Read()), AbortingStore(Read())), Move(2, Fine()))
      == Racing(Reserved(), map[], Committing(Read()), ReleasingAbort(Read()))
  {
    var a := AbortingStore(Read());
    var w := Racing(Reserved(), Stored(), Committing(Read()), a);
    var w' := Racing(Reserved(), map[], Committing(Read()), a);
    assert Read().kind.Single? && Read().key == Original(ROOM, PHOTO) by {
      hide Hash;
    }
    hide Next, WithPut, WithUpload, Reserved, Read, Hash, Picture;
    assert Stored() - {Original(ROOM, PHOTO)} == map[];
    assert Step(w, a, Fine()) == (w', ReleasingAbort(Read()));
    Place(Reserved(), map[], Committing(Read()), a, Committing(Read()), ReleasingAbort(Read()));
    Place(Reserved(), Stored(), Committing(Read()), a, Committing(Read()), a);
    Moved(w, 2, Fine(), w', ReleasingAbort(Read()));
  }

  lemma CompleteCommits()
    ensures Next(Racing(Reserved(), map[], Committing(Read()), ReleasingAbort(Read())), Move(1, Fine()))
      == Completed(ReleasingAbort(Read()))
  {
    var (a, b, a') := (Committing(Read()), ReleasingAbort(Read()), Finished(ReadyAnswer(UPLOAD)));
    var ended := map[UPLOAD := SessionStatus.Completed];
    var w := Racing(Reserved(), map[], a, b);
    var w' := Racing(Uploaded(), map[], a, b).(ended := ended);
    UploadCompletes();
    PhotoEnds();
    assert Read().id == UPLOAD;
    assert w.t == Reserved() && w.ended == map[] && w.ended + ended == ended;
    hide Next, Step, EndedNow, Transactions.Complete, WithPut, WithUpload;
    hide Reserved, Uploaded, Read, Hash, Picture, Fine;
    CommitMoves(w, Read(), Uploaded(), Fine());
    Place(Reserved(), map[], a, b, a', b);
    Place(Uploaded(), map[], a, b, a', b);
    Moved(w, 1, Fine(), w', a');
  }

  lemma AbortIsRefused()
    ensures Next(Completed(ReleasingAbort(Read())), Move(2, Fine())) == Raced()
  {
    var a := ReleasingAbort(Read());
    var a' := Finished(Refused(Error.UploadCompleted));
    var w := Completed(a);
    assert Release(Uploaded(), Read(), Aborted, Deleted) == (Uploaded(), Err(Error.UploadCompleted)) by {
      hide Hash;
    }
    assert EndedNow(Uploaded(), Uploaded()) == map[] by {
      hide Hash;
    }
    assert w.t == Uploaded();
    hide Next, EndedNow, Release, Racing, Uploaded, Read, Hash, Picture, Fine;
    assert w.ended + map[] == w.ended;
    assert Step(w, a, Fine()) == (w, a');
    Place(Uploaded(), map[], Finished(ReadyAnswer(UPLOAD)), a, Finished(ReadyAnswer(UPLOAD)), a');
    Moved(w, 2, Fine(), w, a');
  }

  lemma RunAt(w: World, events: seq<Event>, k: nat)
    requires k < |events|
    ensures Run(w, events[k..]) == Run(Next(w, events[k]), events[k + 1..])
  {
    hide Next;
    assert events[k..][1..] == events[k + 1..];
  }

  lemma RunEnds(w: World, events: seq<Event>)
    ensures events[0..] == events && Run(w, events[|events|..]) == w
  {
  }

  lemma UploadPart()
    ensures Run(Initial(0), RaceEvents()) == Run(WithReader(Committing(Read())), RaceEvents()[7..])
  {
    hide Next, Run, Initial, WithRoom, WithRequest, WithUpload, WithPut, WithReader;
    hide Racing, Completed, Raced, Stored, Reserved, Read, Fine;
    OpeningStep();
    StartStep();
    InitiateStep();
    PutStep();
    ReadingStep();
    MeasuringStep();
    var events := RaceEvents();
    RunEnds(Initial(0), events);
    RunAt(Initial(0), events, 0);
    RunAt(WithRoom(), events, 1);
    RunAt(WithRequest(), events, 2);
    RunAt(WithUpload(), events, 3);
    RunAt(WithPut(), events, 4);
    RunAt(WithReader(Completing(OWNER, UPLOAD, [])), events, 5);
    RunAt(WithReader(Measuring(Read())), events, 6);
  }

  lemma RacePart()
    ensures Run(WithReader(Committing(Read())), RaceEvents()[7..]) == Raced()
  {
    hide Next, Run, Initial, WithRoom, WithRequest, WithUpload, WithPut, WithReader;
    hide Racing, Completed, Raced, Stored, Reserved, Read, Fine;
    AbortStarts();
    AbortReads();
    AbortRemovesObject();
    CompleteCommits();
    AbortIsRefused();
    var events := RaceEvents();
    RunEnds(Raced(), events);
    RunAt(WithReader(Committing(Read())), events, 7);
    RunAt(Racing(Reserved(), Stored(), Committing(Read()), Aborting(OWNER, UPLOAD)), events, 8);
    RunAt(Racing(Reserved(), Stored(), Committing(Read()), AbortingStore(Read())), events, 9);
    RunAt(Racing(Reserved(), map[], Committing(Read()), ReleasingAbort(Read())), events, 10);
    RunAt(Completed(ReleasingAbort(Read())), events, 11);
  }

  lemma RacedState()
    ensures Missing(Raced(), PHOTO)
    ensures Raced().actors[1] == Finished(ReadyAnswer(UPLOAD))
    ensures Raced().actors[2] == Finished(Refused(Error.UploadCompleted))
  {
    hide Hash, Next, Picture, Read;
  }

  /** Complete answers that the photo is ready, Abort that the upload was completed already, and the object is gone. */
  lemma AbortTakesReadyPhoto()
    ensures Raced() == Run(Initial(0), RaceEvents()) && Reachable(Raced()) && Missing(Raced(), PHOTO)
    ensures Raced().actors[1] == Finished(ReadyAnswer(UPLOAD))
    ensures Raced().actors[2] == Finished(Refused(Error.UploadCompleted))
  {
    hide Next, Run, Initial, RaceEvents, Raced, Missing;
    UploadPart();
    RacePart();
    RacedState();
  }
}
