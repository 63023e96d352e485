/** A concrete run of the upload service: a room is opened, a photo is uploaded and completed. */
module PhotoRun {
  import opened Basics
  import opened InitiateRequest
  import opened Schema
  import opened Transactions
  import opened Validation
  import U = UploadProtocol

  const ROOM: Uuid := 1
  const OWNER: Uuid := 2
  const PHOTO: Uuid := 3
  const UPLOAD: Uuid := 4
  const KEY: Uuid := 5

  function Picture(): Input {
    Input("a", "image/png", 1, None)
  }

  function Fine(): U.Choice {
    U.Choice(U.Done, PHOTO, UPLOAD, 0, 0, false)
  }

  // ---- The tables on the way ----

  function OpenedRoom(): Room {
    NewRoom("A", OWNER, 10, 1000, 0, DAY)
  }

  function Opened(): Tables {
    Tables(map[ROOM := OpenedRoom()], map[], map[], map[(ROOM, OWNER) := OwnerRole])
  }

  function Reserved(): Tables {
    Tables(
      map[ROOM := OpenedRoom().(reservedFiles := 1, reservedBytes := 1)],
      map[PHOTO := Media(ROOM, OWNER, Pending, 1, Original(ROOM, PHOTO), 0)],
      map[UPLOAD := Session(PHOTO, OWNER, Single, Initiated, 0, DAY, KEY, Hash("A", Picture()))],
      Opened().members)
  }

  function Uploaded(): Tables {
    Tables(
      map[ROOM := OpenedRoom().(usedFiles := 1, usedBytes := 1)],
      map[PHOTO := Reserved().media[PHOTO].(status := Ready)],
      map[UPLOAD := Reserved().sessions[UPLOAD].(status := Completed)],
      Opened().members)
  }

  function Read(): Upload {
    View(Reserved(), UPLOAD)
  }

  lemma PictureIsValid()
    ensures Validate(Picture()) == Some((Image, Picture()))
  {
    assert Picture().mimeType in IMAGE_TYPES;
    hide Validate;
    NormalIsAccepted(Picture());
  }

  lemma RoomOpens()
    ensures InsertRoom(Tables(map[], map[], map[], map[]), ROOM, OpenedRoom()) == (Opened(), Ok(()))
  {
  }

  lemma RoomAdmits()
    ensures FindIdempotent(Opened(), OWNER, KEY) == None
    ensures LockRoomForUpload(Opened(), OWNER, "A", 1, 0) == Ok(ROOM)
  {
    assert RoomWithSlug(Opened(), "A") == Some(ROOM) by {
      assert ROOM in Opened().rooms && Opened().rooms[ROOM].slug == "A";
    }
  }

  lemma UploadIsReserved()
    ensures Initiate(Opened(), OWNER, KEY, "A", Picture(), 0, PHOTO, UPLOAD, Some(0)) == (Reserved(), Ok(Read()))
  {
    RoomAdmits();
    assert Reserve(Opened(), ROOM, OWNER, KEY, Picture(), Hash("A", Picture()), 0, PHOTO, UPLOAD, 0) == Reserved() by {
      hide Hash;
    }
    hide Hash, LockRoomForUpload, FindIdempotent;
    assert Checked(Opened(), Reserved(), Read()) == (Reserved(), Ok(Read()));
  }

  lemma UploadCompletes()
    ensures Transactions.Complete(Reserved(), Read()) == (Uploaded(), Ok(()))
  {
    hide Hash;
    var t := Reserved();
    var ended := SetMedia(SetSession(t, UPLOAD, Completed), PHOTO, Ready);
    assert ChargeRoomOf(ended, PHOTO, -1, -1, 1, 1) == Uploaded();
    assert Checked(t, Uploaded(), ()) == (Uploaded(), Ok(()));
  }

  // ---- The states of the upload service ----

  function WithRoom(): U.World {
    U.Initial(0).(t := Opened(), issued := {ROOM}, roomsOpened := {ROOM})
  }

  function WithUpload(): U.World {
    WithRoom().(t := Reserved(), issued := {ROOM, PHOTO, UPLOAD},
                actors := map[0 := U.Attaching(OWNER, KEY, Hash("A", Picture()), Read())])
  }

  function WithPut(): U.World {
    WithUpload().(objects := map[Original(ROOM, PHOTO) := 1])
  }

  function WithReader(a: U.Actor): U.World {
    WithPut().(actors := WithUpload().actors[1 := a])
  }

  function WithPhoto(): U.World {
    WithReader(U.Finished(U.ReadyAnswer(UPLOAD))).(t := Uploaded(), ended := map[UPLOAD := Completed])
  }

  function FirstEvents(): seq<U.Event> {
    [U.OpenRoom(ROOM, "A", OWNER, 10, 1000, DAY),
     U.Start(0, U.Initiating(OWNER, KEY, "A", Picture())), U.Move(0, Fine())]
  }

  function LaterEvents(): seq<U.Event> {
    [U.PutObject(Original(ROOM, PHOTO), 1), U.Start(1, U.Completing(OWNER, UPLOAD, [])),
     U.Move(1, Fine()), U.Move(1, Fine()), U.Move(1, Fine())]
  }

  lemma OpeningStep()
    ensures U.Next(U.Initial(0), FirstEvents()[0]) == WithRoom()
  {
    RoomOpens();
    hide InsertRoom;
    assert U.EndedNow(U.Initial(0).t, Opened()) == map[];
  }

  lemma Started(w: U.World, id: nat, a: U.Actor)
    requires id !in w.actors && U.AtStart(a)
    ensures U.Next(w, U.Start(id, a)) == w.(actors := w.actors[id := a])
  {
  }

  lemma Moved(w: U.World, id: nat, c: U.Choice, w': U.World, a': U.Actor)
    requires id in w.actors && U.Step(w, w.actors[id], c) == (w', a')
    ensures U.Next(w, U.Move(id, c)) == w'.(actors := w'.actors[id := a'])
  {
    hide U.Step;
  }

  lemma Granted(w: U.World, a: U.Actor)
    requires w == WithRoom().(actors := map[0 := a]) && a == U.Initiating(OWNER, KEY, "A", Picture())
    ensures U.StepSubmit(w, a, Fine(), Picture()) ==
      (w.(t := Reserved(), issued := {ROOM, PHOTO, UPLOAD}), U.Attaching(OWNER, KEY, Hash("A", Picture()), Read()))
  {
    UploadIsReserved();
    assert U.EndedNow(Opened(), Reserved()) == map[];
    assert Read().kind.Single?;
    hide Initiate, Hash, Opened, Reserved, U.EndedNow, Read, Picture;
    assert U.Submit(w, a, Fine(), Picture()) == (Reserved(), Ok(Read()));
    assert {ROOM} + {PHOTO, UPLOAD} == {ROOM, PHOTO, UPLOAD};
  }

  lemma Submits(w: U.World, a: U.Actor, c: U.Choice, input: Input)
    requires a.Initiating? && Validate(a.input) == Some((Image, input))
    ensures U.Step(w, a, c) == U.StepSubmit(w, a, c, input)
  {
    hide Validate, U.StepSubmit;
  }

  function WithRequest(): U.World {
    WithRoom().(actors := map[0 := U.Initiating(OWNER, KEY, "A", Picture())])
  }

  lemma StartStep()
    ensures U.Next(WithRoom(), FirstEvents()[1]) == WithRequest()
  {
    var a := U.Initiating(OWNER, KEY, "A", Picture());
    hide Picture, Opened, U.Next;
    Started(WithRoom(), 0, a);
    assert WithRoom().actors[0 := a] == map[0 := a];
  }

  lemma InitiateStep()
    ensures U.Next(WithRequest(), FirstEvents()[2]) == WithUpload()
  {
    var a := U.Initiating(OWNER, KEY, "A", Picture());
    var a' := U.Attaching(OWNER, KEY, Hash("A", Picture()), Read());
    PictureIsValid();
    hide Validate, Hash, Opened, Reserved, U.StepSubmit, Read, Picture, U.Next, U.Step;
    Granted(WithRequest(), a);
    Submits(WithRequest(), a, Fine(), Picture());
    var w' := WithRequest().(t := Reserved(), issued := {ROOM, PHOTO, UPLOAD});
    Moved(WithRequest(), 0, Fine(), w', a');
    assert w'.actors[0 := a'] == map[0 := a'];
  }

  lemma PutStep()
    ensures U.Next(WithUpload(), LaterEvents()[0]) == WithPut()
  {
    hide Hash, Reserved, Read, Picture;
  }

  lemma ReadingStep()
    ensures U.Next(WithPut(), LaterEvents()[1]) == WithReader(U.Completing(OWNER, UPLOAD, []))
    ensures U.Next(WithReader(U.Completing(OWNER, UPLOAD, [])), U.Move(1, Fine())) == WithReader(U.Measuring(Read()))
  {
    var a := U.Completing(OWNER, UPLOAD, []);
    assert GetUpload(Reserved(), OWNER, UPLOAD) == Ok(Read()) by {
      hide Hash;
    }
    assert Read().status.Live() && Read().expiresAt > 0 && Read().kind.Single?;
    hide Hash, Reserved, Read, GetUpload, U.Next;
    Started(WithPut(), 1, a);
    assert U.Step(WithReader(a), a, Fine()) == (WithReader(a), U.Measuring(Read()));
    Moved(WithReader(a), 1, Fine(), WithReader(a), U.Measuring(Read()));
    SameReader(a, U.Measuring(Read()));
  }

  lemma SameReader(a: U.Actor, a': U.Actor)
    ensures WithReader(a).(actors := WithReader(a).actors[1 := a']) == WithReader(a')
  {
    hide Hash, Reserved, Read;
    assert WithUpload().actors[1 := a][1 := a'] == WithUpload().actors[1 := a'];
  }

  lemma MeasuringStep()
    ensures U.Next(WithReader(U.Measuring(Read())), U.Move(1, Fine())) == WithReader(U.Committing(Read()))
  {
    var a := U.Measuring(Read());
    assert Read().key == Original(ROOM, PHOTO) && Read().sizeBytes == 1;
    hide Hash, Reserved, Read, U.Next;
    assert U.Step(WithReader(a), a, Fine()) == (WithReader(a), U.Committing(Read()));
    Moved(WithReader(a), 1, Fine(), WithReader(a), U.Committing(Read()));
    SameReader(a, U.Committing(Read()));
  }

  lemma CommitMoves(w: U.World, upload: Upload, t': Tables, c: U.Choice)
    requires Transactions.Complete(w.t, upload) == (t', Ok(()))
    ensures U.Step(w, U.Committing(upload), c) == (U.Commit(w, t'), U.Finished(U.ReadyAnswer(upload.id)))
  {
    hide Transactions.Complete, U.Commit;
  }

  lemma PhotoEnds()
    ensures U.EndedNow(Reserved(), Uploaded()) == map[UPLOAD := Completed]
  {
    hide Hash;
  }

  lemma CommitStep()
    ensures U.Next(WithReader(U.Committing(Read())), U.Move(1, Fine())) == WithPhoto()
  {
    var a := U.Committing(Read());
    var a' := U.Finished(U.ReadyAnswer(UPLOAD));
    UploadCompletes();
    PhotoEnds();
    assert Read().id == UPLOAD;
    hide Hash, Transactions.Complete, U.EndedNow, Reserved, Uploaded, Read, U.Next, U.Step;
    CommitMoves(WithReader(a), Read(), Uploaded(), Fine());
    var none: map<Uuid, SessionStatus> := map[];
    assert none + map[UPLOAD := Completed] == map[UPLOAD := Completed];
    var w' := WithReader(a).(t := Uploaded(), ended := map[UPLOAD := Completed]);
    Moved(WithReader(a), 1, Fine(), w', a');
    SameReader(a, a');
  }
}
