/** The thumbnail queue next to the upload service: any number of workers claim jobs, generate, publish and mark
    failures, each with what it read when it claimed, while uploads, deletions and expiry go on. */
module Thumbnail {
  import opened Basics
  import opened Schema
  import opened LedgerInvariant
  import opened UploadInvariant
  import opened UploadSteps
  import UploadProtocol

  const MAX_ATTEMPTS: nat := 3
  const STALE_AFTER: Time := 10 * 60 * 1_000_000

  datatype JobStatus = JobPending | JobProcessing | JobReady | JobFailed

  /** The thumbnail columns of a media row. */
  datatype Job = Job(status: JobStatus, attempts: nat, updatedAt: Time, key: Option<ObjectKey>)

  // ---- The statements ----

  function NewJob(now: Time): Job {
    Job(JobPending, 0, now, None)
  }

  predicate Stale(job: Job, now: Time) {
    job.status == JobProcessing && job.updatedAt < now - STALE_AFTER
  }

  /** Rows that claim may pick. */
  predicate Claimable(t: Tables, jobs: map<Uuid, Job>, m: Uuid, now: Time) {
    && m in t.media && m in jobs && t.media[m].status == Ready && jobs[m].key.None?
    && t.media[m].room in t.rooms && t.rooms[t.media[m].room].status == Active && t.rooms[t.media[m].room].expiresAt > now
    && (jobs[m].status == JobPending || (jobs[m].status == JobFailed && jobs[m].attempts < MAX_ATTEMPTS) || Stale(jobs[m], now))
  }

  function Claimed(job: Job, now: Time): Job {
    job.(status := JobProcessing, attempts := job.attempts + 1, updatedAt := now)
  }

  /** The success UPDATE, which asks only that the media is ready; the flag tells whether it changed the row. */
  function Publish(t: Tables, jobs: map<Uuid, Job>, m: Uuid, key: ObjectKey, now: Time): (map<Uuid, Job>, bool) {
    if m in t.media && m in jobs && t.media[m].status == Ready
    then (jobs[m := jobs[m].(status := JobReady, updatedAt := now, key := Some(key))], true)
    else (jobs, false)
  }

  /** markFailed, which asks that the job is being processed, no matter by whom. */
  function MarkFailed(jobs: map<Uuid, Job>, m: Uuid, now: Time): map<Uuid, Job> {
    if m in jobs && jobs[m].status == JobProcessing
    then jobs[m := jobs[m].(status := JobFailed, updatedAt := now)]
    else jobs
  }

  // ---- Workers ----

  /** A worker between its statements, with the media and room it read at its claim. */
  datatype Worker =
    | Free
    | Generating(media: Uuid, room: Uuid)
    | Publishing(media: Uuid, room: Uuid)
    | Failing(media: Uuid)

  datatype World = World(
    u: UploadProtocol.World, jobs: map<Uuid, Job>, workers: map<nat, Worker>,
    reclaims: map<Uuid, nat>)   // history: how often a job was claimed although someone had it

  datatype Event =
    | Other(event: UploadProtocol.Event)
    | Claim(worker: nat, media: Uuid)
    | Move(worker: nat, reply: UploadProtocol.Reply, removed: bool)
    | Crash(worker: nat)

  function Reclaims(w: World, m: Uuid): nat {
    if m in w.reclaims then w.reclaims[m] else 0
  }

  /** Rows of new media start with a pending job; rows that are gone take theirs along. */
  function Follow(t: Tables, jobs: map<Uuid, Job>, now: Time): map<Uuid, Job> {
    map m | m in t.media :: if m in jobs then jobs[m] else NewJob(now)
  }

  function StepClaim(w: World, id: nat, m: Uuid): World {
    if !Claimable(w.u.t, w.jobs, m, w.u.now) then w
    else
      w.(jobs := w.jobs[m := Claimed(w.jobs[m], w.u.now)],
         workers := w.workers[id := Generating(m, w.u.t.media[m].room)],
         reclaims := if w.jobs[m].status == JobProcessing then w.reclaims[m := Reclaims(w, m) + 1] else w.reclaims)
  }

  function WithObject(u: UploadProtocol.World, key: ObjectKey, size: int): UploadProtocol.World {
    u.(objects := u.objects[key := size])
  }

  function WithoutObject(u: UploadProtocol.World, key: ObjectKey): UploadProtocol.World {
    u.(objects := u.objects - {key})
  }

  /** The size of a generated thumbnail plays no role. */
  const THUMBNAIL_SIZE := 1

  /** The success UPDATE of the worker. When it fails or changes no row, the object is removed again, which may
      fail as well. */
  function StepPublish(w: World, id: nat, m: Uuid, r: Uuid, reply: UploadProtocol.Reply, removed: bool): World {
    var (jobs', changed) := if reply.NotDone? then (w.jobs, false) else Publish(w.u.t, w.jobs, m, Thumbnail(r, m), w.u.now);
    var succeeded := changed && reply.Done?;
    w.(jobs := jobs',
       u := if !succeeded && removed then WithoutObject(w.u, Thumbnail(r, m)) else w.u,
       workers := w.workers[id := if succeeded then Free else Failing(m)])
  }

  /** One statement or store call of a worker; either may also take effect and be reported as failed. */
  function StepWorker(w: World, id: nat, a: Worker, reply: UploadProtocol.Reply, removed: bool): World {
    match a
    case Free => w
    case Generating(m, r) =>
      w.(u := if reply.NotDone? then w.u else WithObject(w.u, Thumbnail(r, m), THUMBNAIL_SIZE),
         workers := w.workers[id := if reply.Done? then Publishing(m, r) else Failing(m)])
    case Publishing(m, r) => StepPublish(w, id, m, r, reply, removed)
    case Failing(m) =>
      w.(jobs := if reply.NotDone? then w.jobs else MarkFailed(w.jobs, m, w.u.now), workers := w.workers[id := Free])
  }

  ghost function Next(w: World, e: Event): World {
    match e
    case Other(event) =>
      var u' := UploadProtocol.Next(w.u, event);
      w.(u := u', jobs := Follow(u'.t, w.jobs, u'.now))
    case Claim(id, m) => if id in w.workers && w.workers[id] != Free then w else StepClaim(w, id, m)
    case Move(id, reply, removed) => if id in w.workers then StepWorker(w, id, w.workers[id], reply, removed) else w
    case Crash(id) => w.(workers := w.workers - {id})
  }

  ghost function Run(w: World, events: seq<Event>): World
    decreases |events|
  {
    if events == [] then w else Run(Next(w, events[0]), events[1..])
  }

  function Initial(now: Time): World {
    World(UploadProtocol.Initial(now), map[], map[], map[])
  }

  // ---- Invariant ----

  predicate GoodJob(w: World, m: Uuid)
    requires m in w.jobs && m in w.u.t.media
  {
    var job := w.jobs[m];
    && (job.status == JobReady <==> job.key.Some?)
    && (job.key.Some? ==> job.key == Some(Thumbnail(w.u.t.media[m].room, m)))
    && (job.status == JobReady ==> w.u.t.media[m].status == Ready || w.u.t.media[m].status == Deleted)
    && (job.status == JobPending <==> job.attempts == 0)
    && job.attempts <= MAX_ATTEMPTS + Reclaims(w, m)
  }

  /** What a worker read is still true of the row, if the row is still there. */
  predicate GoodWorker(w: World, a: Worker) {
    match a
    case Free => true
    case Failing(_) => true
    case Generating(m, r) => Holds(w, m, r)
    case Publishing(m, r) => Holds(w, m, r)
  }

  predicate Holds(w: World, m: Uuid, r: Uuid) {
    m in w.u.issued && (m in w.u.t.media ==> w.u.t.media[m].room == r) && (m in w.jobs ==> w.jobs[m].attempts > 0)
  }

  ghost predicate QueueInv(w: World) {
    && WorldInv(w.u)
    && w.jobs.Keys == w.u.t.media.Keys
    && (forall m {:trigger GoodJob(w, m)} :: m in w.jobs ==> GoodJob(w, m))
    && (forall id {:trigger w.workers[id]} :: id in w.workers ==> GoodWorker(w, w.workers[id]))
  }

  /** Publications stay, and attempts only add up. */
  ghost predicate JobsKept(jobs: map<Uuid, Job>, jobs': map<Uuid, Job>) {
    && (forall m :: m in jobs && m in jobs' && jobs[m].status == JobReady ==>
          jobs'[m].status == JobReady && jobs'[m].key == jobs[m].key)
    && (forall m :: m in jobs && m in jobs' ==> jobs[m].attempts <= jobs'[m].attempts)
  }

  ghost predicate Keeps(w: World, w': World) {
    && Later(w.u, w'.u)
    && JobsKept(w.jobs, w'.jobs)
  }

  lemma FollowedJobs(w: World, u': UploadProtocol.World)
    requires QueueInv(w) && WorldInv(u') && Later(w.u, u')
    ensures
      var w' := w.(u := u', jobs := Follow(u'.t, w.jobs, u'.now));
      Keeps(w, w') && (forall m {:trigger GoodJob(w', m)} :: m in w'.jobs ==> GoodJob(w', m))
  {
    var w' := w.(u := u', jobs := Follow(u'.t, w.jobs, u'.now));
    hide WorldInv, GoodWorker;
    forall m | m in w'.jobs
      ensures GoodJob(w', m)
    {
      FollowedJob(w, w', m);
    }
    hide GoodJob;
  }

  lemma FollowedJob(w: World, w': World, m: Uuid)
    requires QueueInv(w) && Later(w.u, w'.u) && w' == w.(u := w'.u, jobs := Follow(w'.u.t, w.jobs, w'.u.now))
    requires m in w'.jobs
    ensures GoodJob(w', m)
  {
    hide WorldInv, GoodWorker;
    if m in w.jobs {
      assert GoodJob(w, m);
      assert MediaEvolves(w.u.t.media[m], w'.u.t.media[m]);
    }
  }

  lemma UploadKeepsJobs(w: World, event: UploadProtocol.Event)
    requires QueueInv(w)
    ensures QueueInv(Next(w, Other(event))) && Keeps(w, Next(w, Other(event)))
  {
    var w' := Next(w, Other(event));
    NextKeepsWorld(w.u, event);
    FollowedJobs(w, w'.u);
    hide WorldInv, UploadProtocol.Next, GoodJob, GoodWorker, Keeps;
    forall id | id in w'.workers
      ensures GoodWorker(w', w'.workers[id])
    {
      WorkerSurvives(w, w', w.workers[id]);
    }
  }

  lemma WorkerSurvives(w: World, w': World, a: Worker)
    requires GoodWorker(w, a) && Keeps(w, w') && w.jobs.Keys == w.u.t.media.Keys && w'.jobs.Keys == w'.u.t.media.Keys
    ensures GoodWorker(w', a)
  {
    if (a.Generating? || a.Publishing?) && a.media in w'.u.t.media {
      assert a.media in w.u.t.media;
      assert MediaEvolves(w.u.t.media[a.media], w'.u.t.media[a.media]);
    }
  }

  /** The invariant of the upload service does not speak of objects. */
  lemma ObjectsDoNotMatter(u: UploadProtocol.World, objects: map<ObjectKey, int>)
    requires WorldInv(u)
    ensures WorldInv(u.(objects := objects)) && Later(u, u.(objects := objects))
  {
    var u' := u.(objects := objects);
    Idle(u);
    forall id | id in u'.actors
      ensures ActorInv(u', u'.actors[id])
    {
      assert ActorInv(u, u.actors[id]);
    }
  }

  /** A statement on one row keeps the invariant when the row stays good and no publication is undone. */
  lemma OneRowChanges(w: World, w': World, m: Uuid)
    requires QueueInv(w) && m in w.jobs && w'.u == w.u && w'.jobs.Keys == w.jobs.Keys
    requires forall x :: x in w.jobs && x != m ==> w'.jobs[x] == w.jobs[x] && Reclaims(w', x) == Reclaims(w, x)
    requires GoodJob(w', m)
    requires w.jobs[m].status == JobReady ==> w'.jobs[m].status == JobReady && w'.jobs[m].key == w.jobs[m].key
    requires w.jobs[m].attempts <= w'.jobs[m].attempts
    requires forall id :: id in w'.workers ==> GoodWorker(w', w'.workers[id])
    ensures QueueInv(w') && Keeps(w, w')
  {
    hide WorldInv, GoodWorker, Later;
    Idle(w.u);
    forall x | x in w'.jobs
      ensures GoodJob(w', x)
    {
      if x != m {
        SameRowIsGood(w, w', x);
      }
    }
    hide GoodJob;
  }

  lemma SameRowIsGood(w: World, w': World, x: Uuid)
    requires QueueInv(w) && x in w.jobs && x in w'.jobs && w'.u == w.u
    requires w'.jobs[x] == w.jobs[x] && Reclaims(w', x) == Reclaims(w, x)
    ensures GoodJob(w', x)
  {
    assert GoodJob(w, x);
    hide WorldInv, GoodWorker;
  }

  lemma ClaimKeepsJobs(w: World, id: nat, m: Uuid)
    requires QueueInv(w)
    ensures QueueInv(StepClaim(w, id, m)) && Keeps(w, StepClaim(w, id, m))
  {
    var w' := StepClaim(w, id, m);
    if Claimable(w.u.t, w.jobs, m, w.u.now) {
      Parts(w.u);
      assert GoodJob(w, m);
      assert forall x {:trigger w'.workers[x]} :: x in w'.workers && x != id ==> GoodWorker(w, w.workers[x]);
      OneRowChanges(w, w', m);
    } else {
      Idle(w.u);
    }
  }

  lemma PublishKeepsJobs(w: World, id: nat, m: Uuid, r: Uuid, jobs': map<Uuid, Job>, next: Worker)
    requires QueueInv(w) && GoodWorker(w, Publishing(m, r)) && (next == Free || next == Failing(m))
    requires jobs' == w.jobs || jobs' == Publish(w.u.t, w.jobs, m, Thumbnail(r, m), w.u.now).0
    ensures
      var w' := w.(jobs := jobs', workers := w.workers[id := next]);
      QueueInv(w') && Keeps(w, w')
  {
    var w' := w.(jobs := jobs', workers := w.workers[id := next]);
    assert forall x {:trigger w'.workers[x]} :: x in w'.workers && x != id ==> GoodWorker(w, w.workers[x]);
    if m in w.jobs {
      assert GoodJob(w, m);
      OneRowChanges(w, w', m);
    } else {
      SameJobs(w, w');
    }
  }

  lemma SameJobs(w: World, w': World)
    requires QueueInv(w) && w' == w.(workers := w'.workers)
    requires forall id :: id in w'.workers ==> GoodWorker(w', w'.workers[id])
    ensures QueueInv(w') && Keeps(w, w')
  {
    Idle(w.u);
    hide WorldInv;
    forall x | x in w'.jobs
      ensures GoodJob(w', x)
    {
      assert GoodJob(w, x);
    }
  }

  lemma FailureKeepsJobs(w: World, id: nat, m: Uuid, jobs': map<Uuid, Job>)
    requires QueueInv(w) && (jobs' == w.jobs || jobs' == MarkFailed(w.jobs, m, w.u.now))
    ensures
      var w' := w.(jobs := jobs', workers := w.workers[id := Free]);
      QueueInv(w') && Keeps(w, w')
  {
    var w' := w.(jobs := jobs', workers := w.workers[id := Free]);
    assert forall x {:trigger w'.workers[x]} :: x in w'.workers && x != id ==> GoodWorker(w, w.workers[x]);
    if m in w.jobs {
      assert GoodJob(w, m);
      OneRowChanges(w, w', m);
    } else {
      SameJobs(w, w');
    }
  }

  /** Only the objects differ. */
  lemma ObjectsKeepJobs(w: World, w': World, objects: map<ObjectKey, int>)
    requires QueueInv(w') && Keeps(w, w') && w'.u == w.u
    ensures
      var w2 := w'.(u := w'.u.(objects := objects));
      QueueInv(w2) && Keeps(w, w2)
  {
    var w2 := w'.(u := w'.u.(objects := objects));
    ObjectsDoNotMatter(w.u, objects);
    hide WorldInv;
    forall x | x in w2.jobs
      ensures GoodJob(w2, x)
    {
      assert GoodJob(w', x);
    }
    forall id | id in w2.workers
      ensures GoodWorker(w2, w2.workers[id])
    {
      assert GoodWorker(w', w'.workers[id]);
    }
  }

  lemma WorkerKeepsJobs(w: World, id: nat, reply: UploadProtocol.Reply, removed: bool)
    requires QueueInv(w) && id in w.workers
    ensures
      var w' := StepWorker(w, id, w.workers[id], reply, removed);
      QueueInv(w') && Keeps(w, w')
  {
    var a := w.workers[id];
    var w' := StepWorker(w, id, a, reply, removed);
    var w1 := w.(jobs := w'.jobs, workers := w'.workers);
    assert GoodWorker(w, a);
    assert w' == w1.(u := w1.u.(objects := w'.u.objects));
    match a {
      case Free => SameJobs(w, w1);
      case Generating(m, r) =>
        assert forall x {:trigger w1.workers[x]} :: x in w1.workers && x != id ==> GoodWorker(w, w.workers[x]);
        SameJobs(w, w1);
      case Publishing(m, r) => PublishKeepsJobs(w, id, m, r, w'.jobs, w'.workers[id]);
      case Failing(m) => FailureKeepsJobs(w, id, m, w'.jobs);
    }
    ObjectsKeepJobs(w, w1, w'.u.objects);
  }

  lemma NextKeepsJobs(w: World, e: Event)
    requires QueueInv(w)
    ensures QueueInv(Next(w, e)) && Keeps(w, Next(w, e))
  {
    hide QueueInv, Keeps, StepWorker, StepClaim;
    match e
    case Other(event) => UploadKeepsJobs(w, event);
    case Claim(id, m) => Unmoved(w); ClaimKeepsJobs(w, id, m);
    case Move(id, reply, removed) =>
      Unmoved(w);
      if id in w.workers {
        WorkerKeepsJobs(w, id, reply, removed);
      }
    case Crash(id) => CrashKeepsJobs(w, id);
  }

  lemma Unmoved(w: World)
    requires QueueInv(w)
    ensures Keeps(w, w)
  {
    Idle(w.u);
  }

  lemma CrashKeepsJobs(w: World, id: nat)
    requires QueueInv(w)
    ensures QueueInv(Next(w, Crash(id))) && Keeps(w, Next(w, Crash(id)))
  {
    var w' := Next(w, Crash(id));
    assert forall x {:trigger w'.workers[x]} :: x in w'.workers ==> GoodWorker(w, w.workers[x]);
    SameJobs(w, w');
  }

  // ---- Runs ----

  ghost predicate Reachable(w: World) {
    exists start: Time, events: seq<Event> :: w == Run(Initial(start), events)
  }

  /** A row that is there early and late was there in between, since identifiers are not used again. */
  lemma RowsDoNotReturn(w0: World, w1: World, w2: World)
    requires QueueInv(w0) && QueueInv(w1) && QueueInv(w2) && Later(w0.u, w1.u) && Later(w1.u, w2.u)
    ensures w0.jobs.Keys * w2.jobs.Keys <= w1.jobs.Keys
  {
    Parts(w0.u);
    hide WorldInv, LedgerInv, Evolves;
    forall m | m in w0.jobs && m in w2.jobs
      ensures m in w1.jobs
    {
      assert m in w0.u.issued && m in w1.u.issued;
    }
  }

  lemma JobsKeptIsTransitive(jobs0: map<Uuid, Job>, jobs1: map<Uuid, Job>, jobs2: map<Uuid, Job>)
    requires JobsKept(jobs0, jobs1) && JobsKept(jobs1, jobs2) && jobs0.Keys * jobs2.Keys <= jobs1.Keys
    ensures JobsKept(jobs0, jobs2)
  {
    forall m | m in jobs0 && m in jobs2
      ensures m in jobs1
    {
      assert m in jobs0.Keys * jobs2.Keys;
    }
  }

  lemma KeepsIsTransitive(w0: World, w1: World, w2: World)
    requires QueueInv(w0) && QueueInv(w1) && QueueInv(w2) && Keeps(w0, w1) && Keeps(w1, w2)
    ensures Keeps(w0, w2)
  {
    RowsDoNotReturn(w0, w1, w2);
    hide WorldInv, Later, GoodJob, GoodWorker, JobsKept;
    LaterIsTransitive(w0.u, w1.u, w2.u);
    JobsKeptIsTransitive(w0.jobs, w1.jobs, w2.jobs);
  }

  lemma {:induction false} RunKeepsJobs(w: World, events: seq<Event>)
    requires QueueInv(w)
    ensures QueueInv(Run(w, events)) && Keeps(w, Run(w, events))
    decreases |events|
  {
    hide QueueInv, Keeps, Next;
    if events == [] {
      Unmoved(w);
    } else {
      NextKeepsJobs(w, events[0]);
      RunKeepsJobs(Next(w, events[0]), events[1..]);
      KeepsIsTransitive(w, Next(w, events[0]), Run(w, events));
    }
  }

  lemma ReachableIsGood(w: World)
    requires Reachable(w)
    ensures QueueInv(w)
  {
    var start: Time, events: seq<Event> :| w == Run(Initial(start), events);
    InitialIsGood(start);
    RunKeepsJobs(Initial(start), events);
  }

  /** In every reachable state: a thumbnail key is set exactly when the job is ready, and names the thumbnail of
      that media in its own room; a job is pending exactly when nobody ever tried it; and nobody tried it more than
      three times beyond the claims of jobs that someone still had. */
  lemma QueueIsConsistent(w: World, m: Uuid)
    requires Reachable(w) && m in w.jobs
    ensures m in w.u.t.media
    ensures w.jobs[m].key == if w.jobs[m].status == JobReady then Some(Thumbnail(w.u.t.media[m].room, m)) else None
    ensures w.jobs[m].status == JobReady ==> w.u.t.media[m].status == Ready || w.u.t.media[m].status == Deleted
    ensures w.jobs[m].status == JobPending <==> w.jobs[m].attempts == 0
    ensures w.jobs[m].attempts <= MAX_ATTEMPTS + Reclaims(w, m)
  {
    ReachableIsGood(w);
    assert GoodJob(w, m);
  }

  /** A published thumbnail stays published, whatever late workers do: no step, in particular no late markFailed,
      takes a job out of ready while its media row exists, and a row that is gone does not come back. */
  lemma ReadyIsNeverLeft(w: World, events: seq<Event>, m: Uuid)
    requires Reachable(w) && m in w.jobs && w.jobs[m].status == JobReady
    ensures
      var w' := Run(w, events);
      m in w'.jobs ==> w'.jobs[m].status == JobReady && w'.jobs[m].key == w.jobs[m].key
  {
    ReachableIsGood(w);
    RunKeepsJobs(w, events);
  }
}
