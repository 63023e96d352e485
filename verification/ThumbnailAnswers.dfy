/** Which thumbnails a worker takes on, what becomes of them, and how often they are tried. */
module ThumbnailAnswers {
  import opened Basics
  import opened Schema
  import UploadProtocol
  import opened UploadInvariant
  import opened Thumbnail

  const TEN_MINUTES: Time := 600_000_000

  predicate IsFree(w: World, id: nat) {
    id !in w.workers || w.workers[id] == Free
  }

  /** The media is ready, in a room that is open. */
  predicate Showable(t: Tables, m: Uuid, now: Time) {
    && m in t.media && t.media[m].status == Ready
    && t.media[m].room in t.rooms && t.rooms[t.media[m].room].status == Active && now < t.rooms[t.media[m].room].expiresAt
  }

  /** Nobody tried it, or it failed fewer than three times, or whoever took it more than ten minutes ago is silent. */
  predicate Due(job: Job, now: Time) {
    match job.status
    case JobPending => true
    case JobFailed => job.attempts < 3
    case JobProcessing => now - job.updatedAt > TEN_MINUTES
    case JobReady => false
  }

  lemma ClaimableExactly(w: World, m: Uuid)
    requires QueueInv(w) && m in w.jobs
    ensures Claimable(w.u.t, w.jobs, m, w.u.now) <==> Showable(w.u.t, m, w.u.now) && Due(w.jobs[m], w.u.now)
  {
    assert GoodJob(w, m);
    hide WorldInv;
  }

  /** In every reachable state a claim takes exactly those: it counts the attempt and makes the worker generate; any
      other claim changes nothing. */
  lemma ClaimExactly(w: World, id: nat, m: Uuid)
    requires Reachable(w) && IsFree(w, id) && m in w.jobs
    ensures
      var w' := Next(w, Claim(id, m));
      var job := w.jobs[m];
      if Showable(w.u.t, m, w.u.now) && Due(job, w.u.now) then
        && w'.u == w.u
        && w'.jobs == w.jobs[m := Job(JobProcessing, job.attempts + 1, w.u.now, None)]
        && w'.workers == w.workers[id := Generating(m, w.u.t.media[m].room)]
      else w' == w
  {
    ReachableIsGood(w);
    assert GoodJob(w, m);
    hide Reachable;
    ClaimableExactly(w, m);
    hide QueueInv, Claimable;
  }

  // ---- One worker at a time ----

  lemma RunThree(w: World, a: Event, b: Event, c: Event)
    ensures Run(w, [a, b, c]) == Next(Next(Next(w, a), b), c)
  {
    hide Next;
    assert [a, b, c][1..] == [b, c] && [b, c][1..] == [c] && [c][1..] == [];
    assert Run(Next(Next(w, a), b), [c]) == Next(Next(Next(w, a), b), c);
    assert Run(Next(w, a), [b, c]) == Next(Next(Next(w, a), b), c);
  }

  /** A worker that is left alone and whose calls succeed publishes what it claims. */
  function GoodRound(id: nat, m: Uuid): seq<Event> {
    [Claim(id, m), Move(id, UploadProtocol.Done, false), Move(id, UploadProtocol.Done, false)]
  }

  lemma WorkerPublishes(w: World, id: nat, m: Uuid)
    requires Reachable(w) && IsFree(w, id) && m in w.jobs && Showable(w.u.t, m, w.u.now) && Due(w.jobs[m], w.u.now)
    ensures
      var w' := Run(w, GoodRound(id, m));
      var key := Thumbnail(w.u.t.media[m].room, m);
      && w'.jobs == w.jobs[m := Job(JobReady, w.jobs[m].attempts + 1, w.u.now, Some(key))]
      && key in w'.u.objects && w'.u.t == w.u.t && IsFree(w', id)
  {
    ClaimExactly(w, id, m);
    RunThree(w, Claim(id, m), Move(id, UploadProtocol.Done, false), Move(id, UploadProtocol.Done, false));
    hide Reachable, Run, StepClaim;
    var w1 := Next(w, Claim(id, m));
    var w2 := Next(w1, Move(id, UploadProtocol.Done, false));
    Generates(w1, id, m, w.u.t.media[m].room);
    Publishes(w2, id, m, w.u.t.media[m].room);
    hide Next;
    assert w.jobs[m := w1.jobs[m]][m := Job(JobReady, w.jobs[m].attempts + 1, w.u.now, Some(Thumbnail(w.u.t.media[m].room, m)))]
      == w.jobs[m := Job(JobReady, w.jobs[m].attempts + 1, w.u.now, Some(Thumbnail(w.u.t.media[m].room, m)))];
  }

  lemma Generates(w: World, id: nat, m: Uuid, r: Uuid)
    requires id in w.workers && w.workers[id] == Generating(m, r)
    ensures
      var w' := Next(w, Move(id, UploadProtocol.Done, false));
      && w' == w.(u := w'.u, workers := w.workers[id := Publishing(m, r)])
      && w'.u == w.u.(objects := w.u.objects[Thumbnail(r, m) := THUMBNAIL_SIZE])
  {
  }

  lemma Publishes(w: World, id: nat, m: Uuid, r: Uuid)
    requires id in w.workers && w.workers[id] == Publishing(m, r)
    requires m in w.u.t.media && w.u.t.media[m].status == Ready && m in w.jobs
    ensures Next(w, Move(id, UploadProtocol.Done, false))
      == w.(jobs := w.jobs[m := Job(JobReady, w.jobs[m].attempts, w.u.now, Some(Thumbnail(r, m)))],
            workers := w.workers[id := Free])
  {
  }

  /** One that cannot generate it marks it as failed. */
  function BadRound(id: nat, m: Uuid): seq<Event> {
    [Claim(id, m), Move(id, UploadProtocol.NotDone, false), Move(id, UploadProtocol.Done, false)]
  }

  lemma WorkerFails(w: World, id: nat, m: Uuid)
    requires IsFree(w, id) && Claimable(w.u.t, w.jobs, m, w.u.now)
    ensures
      var w' := Run(w, BadRound(id, m));
      && w'.jobs == w.jobs[m := Job(JobFailed, w.jobs[m].attempts + 1, w.u.now, None)]
      && w'.u == w.u && IsFree(w', id)
  {
    RunThree(w, Claim(id, m), Move(id, UploadProtocol.NotDone, false), Move(id, UploadProtocol.Done, false));
    hide Run;
    var w1 := Next(w, Claim(id, m));
    var w2 := Next(w1, Move(id, UploadProtocol.NotDone, false));
    assert w2.jobs == w1.jobs && w2.u == w.u && w2.workers[id] == Failing(m);
    assert w.jobs[m := w1.jobs[m]][m := Job(JobFailed, w.jobs[m].attempts + 1, w.u.now, None)]
      == w.jobs[m := Job(JobFailed, w.jobs[m].attempts + 1, w.u.now, None)];
  }

  /** A thumbnail that cannot be generated is tried three times and then left alone. */
  lemma TriedThreeTimes(w: World, id: nat, m: Uuid)
    requires Reachable(w) && IsFree(w, id) && m in w.jobs && w.jobs[m].status == JobPending
    requires Showable(w.u.t, m, w.u.now)
    ensures
      var w1 := Run(w, BadRound(id, m));
      var w2 := Run(w1, BadRound(id, m));
      var w3 := Run(w2, BadRound(id, m));
      && w1.jobs == w.jobs[m := Job(JobFailed, 1, w.u.now, None)]
      && w2.jobs == w.jobs[m := Job(JobFailed, 2, w.u.now, None)]
      && w3.jobs == w.jobs[m := Job(JobFailed, 3, w.u.now, None)]
      && Next(w3, Claim(id, m)) == w3
  {
    hide Reachable, Run, Next, BadRound, Claimable;
    QueueIsConsistent(w, m);
    CanBeClaimed(w, m);
    WorkerFails(w, id, m);
    FailsAgain(w, Run(w, BadRound(id, m)), id, m, 1);
    FailsAgain(w, Run(Run(w, BadRound(id, m)), BadRound(id, m)), id, m, 2);
    GivenUp(Run(Run(Run(w, BadRound(id, m)), BadRound(id, m)), BadRound(id, m)), id, m);
  }

  lemma CanBeClaimed(w: World, m: Uuid)
    requires m in w.jobs && w.jobs[m].key.None? && Showable(w.u.t, m, w.u.now) && Due(w.jobs[m], w.u.now)
    ensures Claimable(w.u.t, w.jobs, m, w.u.now)
  {
  }

  lemma FailsAgain(w: World, v: World, id: nat, m: Uuid, tries: nat)
    requires Showable(w.u.t, m, w.u.now) && v.u == w.u && tries < 3 && IsFree(v, id)
    requires v.jobs == w.jobs[m := Job(JobFailed, tries, w.u.now, None)]
    ensures
      var v' := Run(v, BadRound(id, m));
      v'.u == w.u && IsFree(v', id) && v'.jobs == w.jobs[m := Job(JobFailed, tries + 1, w.u.now, None)]
  {
    hide Run, Next, BadRound, Claimable, IsFree;
    CanBeClaimed(v, m);
    WorkerFails(v, id, m);
  }

  lemma GivenUp(w: World, id: nat, m: Uuid)
    requires m in w.jobs && w.jobs[m].status == JobFailed && w.jobs[m].attempts >= 3
    ensures Next(w, Claim(id, m)) == w
  {
  }

  /** A job whose worker vanished is taken on again exactly when more than ten minutes have passed since the claim. */
  lemma AbandonedExactly(w: World, id: nat, other: nat, m: Uuid, micros: nat)
    requires Reachable(w) && IsFree(w, id) && m in w.jobs && Showable(w.u.t, m, w.u.now + micros) && Due(w.jobs[m], w.u.now)
    requires other != id && IsFree(w, other)
    ensures
      var w' := Run(w, [Claim(id, m), Crash(id), Other(UploadProtocol.Tick(micros))]);
      Next(w', Claim(other, m)) != w' <==> micros > TEN_MINUTES
  {
    ClaimExactly(w, id, m);
    RunThree(w, Claim(id, m), Crash(id), Other(UploadProtocol.Tick(micros)));
    ReachableIsGood(w);
    JobsAreOfMedia(w);
    hide Reachable, Run, StepClaim, QueueInv;
    var w1 := Next(w, Claim(id, m));
    var w3 := Next(Next(w1, Crash(id)), Other(UploadProtocol.Tick(micros)));
    Ticks(Next(w1, Crash(id)), micros);
    StaleExactly(w3, other, m);
  }

  lemma JobsAreOfMedia(w: World)
    requires QueueInv(w)
    ensures w.jobs.Keys == w.u.t.media.Keys
  {
  }

  lemma Ticks(w: World, micros: nat)
    requires w.jobs.Keys == w.u.t.media.Keys
    ensures Next(w, Other(UploadProtocol.Tick(micros))) == w.(u := w.u.(now := w.u.now + micros))
  {
    assert Follow(w.u.t, w.jobs, w.u.now + micros) == w.jobs;
  }

  lemma StaleExactly(w: World, id: nat, m: Uuid)
    requires IsFree(w, id) && m in w.jobs && w.jobs[m].status == JobProcessing && w.jobs[m].key.None?
    requires Showable(w.u.t, m, w.u.now)
    ensures Next(w, Claim(id, m)) != w <==> w.u.now - w.jobs[m].updatedAt > TEN_MINUTES
  {
    if w.u.now - w.jobs[m].updatedAt > TEN_MINUTES {
      assert Next(w, Claim(id, m)).jobs[m].attempts != w.jobs[m].attempts;
    }
  }

  /** A worker that crashed does nothing to its job any more. */
  lemma CrashedDoesNothing(w: World, id: nat, reply: UploadProtocol.Reply, removed: bool)
    ensures
      var w' := Next(Next(w, Crash(id)), Move(id, reply, removed));
      w'.jobs == w.jobs && w'.u == w.u && IsFree(w', id)
  {
  }
}
