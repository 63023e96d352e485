/** A run from an empty database in which one worker, alone, loses the thumbnail it has just published. */
module ThumbnailLossRun {
  import opened Basics
  import opened InitiateRequest
  import opened Schema
  import opened PhotoRun
  import opened Thumbnail
  import opened ThumbnailLoss
  import U = UploadProtocol

  // ---- The worker ----

  function UploadEvents(): (events: seq<Event>)
    ensures |events| == 8
  {
    [Other(FirstEvents()[0]), Other(FirstEvents()[1]), Other(FirstEvents()[2]), Other(LaterEvents()[0]),
     Other(LaterEvents()[1]), Other(LaterEvents()[2]), Other(LaterEvents()[3]), Other(LaterEvents()[4])]
  }

  /** It claims the photo, generates the thumbnail, and its UPDATE commits but is reported as failed. */
  function WorkerEvents(): seq<Event> {
    [Claim(0, PHOTO), Move(0, U.Done, false), Move(0, U.DoneButLost, true)]
  }

  function Queued(u: U.World, jobs: map<Uuid, Job>): World {
    World.World(u, jobs, map[], map[])
  }

  function Waiting(): map<Uuid, Job> {
    map[PHOTO := NewJob(0)]
  }

  lemma RunAt(w: World, events: seq<Event>, k: nat)
    requires k < |events|
    ensures Run(w, events[k..]) == Run(Next(w, events[k]), events[k + 1..])
  {
    hide Next;
    assert events[k..][1..] == events[k + 1..];
  }

  lemma OtherStep(u: U.World, jobs: map<Uuid, Job>, e: U.Event, u': U.World)
    requires U.Next(u, e) == u'
    ensures Next(Queued(u, jobs), Other(e)) == Queued(u', Follow(u'.t, jobs, u'.now))
  {
    hide U.Next, Follow;
  }

  lemma NothingToFollow(t: Tables)
    requires t.media == map[]
    ensures Follow(t, map[], 0) == map[]
  {
  }

  lemma EmptyTables()
    ensures Opened().media == map[] && Reserved().media.Keys == {PHOTO} && U.Initial(0).now == 0
  {
    hide Hash, Picture;
  }

  lemma PhotoIsFollowed(t: Tables, jobs: map<Uuid, Job>)
    requires t.media.Keys == {PHOTO} && (jobs == map[] || jobs == Waiting())
    ensures Follow(t, jobs, 0) == Waiting()
  {
  }

  lemma FirstStep()
    ensures Next(Initial(0), UploadEvents()[0]) == Queued(WithRoom(), map[])
  {
    hide U.Next, U.Commit, U.EndedNow, U.StepSubmit, Next, Follow, Opened, Reserved, Read, Hash, Picture, Waiting;
    OpeningStep();
    EmptyTables();
    NothingToFollow(Opened());
    OtherStep(U.Initial(0), map[], FirstEvents()[0], WithRoom());
  }

  lemma SecondStep()
    ensures Next(Queued(WithRoom(), map[]), UploadEvents()[1]) == Queued(WithRequest(), map[])
  {
    hide U.Next, U.Commit, U.EndedNow, U.StepSubmit, Next, Follow, Opened, Reserved, Read, Hash, Picture, Waiting;
    StartStep();
    EmptyTables();
    NothingToFollow(Opened());
    OtherStep(WithRoom(), map[], FirstEvents()[1], WithRequest());
  }

  lemma ThirdStep()
    ensures Next(Queued(WithRequest(), map[]), UploadEvents()[2]) == Queued(WithUpload(), Waiting())
  {
    hide U.Next, U.Commit, U.EndedNow, U.StepSubmit, Next, Follow, Opened, Reserved, Read, Hash, Picture, Waiting;
    InitiateStep();
    EmptyTables();
    PhotoIsFollowed(Reserved(), map[]);
    OtherStep(WithRequest(), map[], FirstEvents()[2], WithUpload());
  }

  /** A step of the upload service while the photo's row is there. */
  lemma PhotoStep(u: U.World, e: U.Event, u': U.World)
    requires U.Next(u, e) == u' && u'.t.media.Keys == {PHOTO} && u'.now == 0
    ensures Next(Queued(u, Waiting()), Other(e)) == Queued(u', Waiting())
  {
    hide U.Next, Next;
    OtherStep(u, Waiting(), e, u');
    PhotoIsFollowed(u'.t, Waiting());
  }

  lemma ReaderFacts(a: U.Actor)
    ensures WithReader(a).t.media.Keys == {PHOTO} && WithReader(a).now == 0
    ensures WithPut().t.media.Keys == {PHOTO} && WithPut().now == 0
    ensures WithPhoto().t.media.Keys == {PHOTO} && WithPhoto().now == 0
  {
    hide Hash, Picture;
  }

  lemma FourthAndFifth()
    ensures Next(Queued(WithUpload(), Waiting()), UploadEvents()[3]) == Queued(WithPut(), Waiting())
    ensures Next(Queued(WithPut(), Waiting()), UploadEvents()[4])
      == Queued(WithReader(U.Completing(OWNER, UPLOAD, [])), Waiting())
  {
    PutStep();
    ReadingStep();
    ReaderFacts(U.Completing(OWNER, UPLOAD, []));
    hide U.Next, Next, WithPut, WithReader, WithUpload, WithPhoto, Waiting, Read, Queued;
    PhotoStep(WithUpload(), LaterEvents()[0], WithPut());
    PhotoStep(WithPut(), LaterEvents()[1], WithReader(U.Completing(OWNER, UPLOAD, [])));
  }

  lemma SixthAndSeventh()
    ensures Next(Queued(WithReader(U.Completing(OWNER, UPLOAD, [])), Waiting()), UploadEvents()[5])
      == Queued(WithReader(U.Measuring(Read())), Waiting())
    ensures Next(Queued(WithReader(U.Measuring(Read())), Waiting()), UploadEvents()[6])
      == Queued(WithReader(U.Committing(Read())), Waiting())
  {
    ReadingStep();
    MeasuringStep();
    ReaderFacts(U.Measuring(Read()));
    ReaderFacts(U.Committing(Read()));
    hide U.Next, Next, WithPut, WithReader, WithUpload, WithPhoto, Waiting, Read, Queued;
    PhotoStep(WithReader(U.Completing(OWNER, UPLOAD, [])), LaterEvents()[2], WithReader(U.Measuring(Read())));
    PhotoStep(WithReader(U.Measuring(Read())), LaterEvents()[3], WithReader(U.Committing(Read())));
  }

  lemma Eighth()
    ensures Next(Queued(WithReader(U.Committing(Read())), Waiting()), UploadEvents()[7]) == Queued(WithPhoto(), Waiting())
  {
    CommitStep();
    ReaderFacts(U.Committing(Read()));
    hide U.Next, Next, WithPut, WithReader, WithUpload, WithPhoto, Waiting, Read, Queued;
    PhotoStep(WithReader(U.Committing(Read())), LaterEvents()[4], WithPhoto());
  }

  lemma RunEnds(w: World, events: seq<Event>)
    ensures events[0..] == events && Run(w, events[|events|..]) == w
  {
  }

  lemma UploadRun()
    ensures Run(Initial(0), UploadEvents()) == Queued(WithPhoto(), Waiting())
  {
    hide *;
    FirstStep();
    SecondStep();
    ThirdStep();
    FourthAndFifth();
    SixthAndSeventh();
    Eighth();
    var events := UploadEvents();
    RunEnds(Queued(WithPhoto(), Waiting()), events);
    RunAt(Initial(0), events, 0);
    RunAt(Queued(WithRoom(), map[]), events, 1);
    RunAt(Queued(WithRequest(), map[]), events, 2);
    RunAt(Queued(WithUpload(), Waiting()), events, 3);
    RunAt(Queued(WithPut(), Waiting()), events, 4);
    RunAt(Queued(WithReader(U.Completing(OWNER, UPLOAD, [])), Waiting()), events, 5);
    RunAt(Queued(WithReader(U.Measuring(Read())), Waiting()), events, 6);
    RunAt(Queued(WithReader(U.Committing(Read())), Waiting()), events, 7);
  }

  /** The worker's part, on any state in which the photo is ready and nobody tried its thumbnail yet. */
  lemma WorkerRun(w: World)
    requires w.workers == map[] && Claimable(w.u.t, w.jobs, PHOTO, w.u.now)
    requires w.jobs[PHOTO].key.None? && w.jobs[PHOTO].status == JobPending && w.u.t.media[PHOTO].room == ROOM
    ensures
      var w2 := Next(Next(w, Claim(0, PHOTO)), Move(0, U.Done, false));
      var w3 := Next(w2, Move(0, U.DoneButLost, true));
      && !Lost(w2, PHOTO) && Loses(w2, Move(0, U.DoneButLost, true), PHOTO)
      && Lost(w3, PHOTO)
  {
    var w1 := Next(w, Claim(0, PHOTO));
    var w2 := Next(w1, Move(0, U.Done, false));
    assert w1.workers == map[0 := Generating(PHOTO, ROOM)];
    assert w2.workers == map[0 := Publishing(PHOTO, ROOM)];
  }

  lemma RunThree(w: World, a: Event, b: Event, c: Event)
    ensures Run(w, [a, b, c]) == Next(Next(Next(w, a), b), c)
  {
    hide Next;
    var events := [a, b, c];
    RunEnds(Next(Next(Next(w, a), b), c), events);
    RunAt(w, events, 0);
    RunAt(Next(w, a), events, 1);
    RunAt(Next(Next(w, a), b), events, 2);
  }

  lemma {:induction false} RunAppends(w: World, first: seq<Event>, rest: seq<Event>)
    ensures Run(w, first + rest) == Run(Run(w, first), rest)
    decreases |first|
  {
    hide Next;
    if first == [] {
      assert first + rest == rest;
    } else {
      assert (first + rest)[1..] == first[1..] + rest;
      RunAppends(Next(w, first[0]), first[1..], rest);
    }
  }

  lemma PhotoIsClaimable()
    ensures
      var w := Queued(WithPhoto(), Waiting());
      Claimable(w.u.t, w.jobs, PHOTO, w.u.now) && w.u.t.media[PHOTO].room == ROOM
  {
    hide Hash, Picture;
  }

  /** A room is opened, a photo is uploaded and completed, and one worker makes its thumbnail. The success UPDATE
      commits but is reported as failed, so the worker removes the object: the key is set and its object is gone. */
  lemma LoneWorkerLosesItsThumbnail()
    ensures
      var w := Run(Initial(0), UploadEvents() + WorkerEvents());
      Reachable(w) && Lost(w, PHOTO)
  {
    hide Next, Run, WithPhoto, Lost, Claimable, UploadEvents;
    UploadRun();
    PhotoIsClaimable();
    RunAppends(Initial(0), UploadEvents(), WorkerEvents());
    var w := Queued(WithPhoto(), Waiting());
    WorkerRun(w);
    RunThree(w, Claim(0, PHOTO), Move(0, U.Done, false), Move(0, U.DoneButLost, true));
  }
}
