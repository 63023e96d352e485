/** One batch of a thumbnail worker while other workers, deletions and the clock go on. */
module ThumbnailBatch {
  import opened Basics
  import opened Schema
  import opened SetSums
  import UploadProtocol
  import opened Thumbnail

  // ---- The termination measure ----

  /** The claims a row can still take: what is left of its attempts, and at least one if some other worker's claim
      may turn stale. */
  function Weight(job: Job, mine: bool): nat {
    var left := if job.attempts < MAX_ATTEMPTS then MAX_ATTEMPTS - job.attempts else 0;
    match job.status
    case JobPending => MAX_ATTEMPTS
    case JobProcessing => if !mine && left == 0 then 1 else left
    case JobFailed => left
    case JobReady => 0
  }

  ghost function Weights(jobs: map<Uuid, Job>, mine: set<Uuid>): map<Uuid, int> {
    map m | m in jobs :: Weight(jobs[m], m in mine)
  }

  ghost function Measure(jobs: map<Uuid, Job>, mine: set<Uuid>): (n: nat) {
    MeasureIsNatural(jobs, mine);
    Total(jobs.Keys, Weights(jobs, mine))
  }

  lemma MeasureIsNatural(jobs: map<Uuid, Job>, mine: set<Uuid>)
    ensures Total(jobs.Keys, Weights(jobs, mine)) >= 0
  {
    TotalBounds(jobs.Keys, Weights(jobs, mine));
  }

  /** A change to one row changes the measure by that row's weight. */
  lemma MeasureOfOneRow(jobs: map<Uuid, Job>, mine: set<Uuid>, m: Uuid, job: Job, mine': set<Uuid>)
    requires m in jobs && forall x :: x != m ==> (x in mine <==> x in mine')
    ensures Measure(jobs[m := job], mine') == Measure(jobs, mine) - Weight(jobs[m], m in mine) + Weight(job, m in mine')
  {
    var jobs' := jobs[m := job];
    assert jobs'.Keys == jobs.Keys;
    TotalRemove(jobs.Keys, Weights(jobs, mine), m);
    TotalRemove(jobs.Keys, Weights(jobs', mine'), m);
    TotalFrame(jobs.Keys - {m}, Weights(jobs, mine), Weights(jobs', mine'));
  }

  lemma MeasureWithoutRow(jobs: map<Uuid, Job>, mine: set<Uuid>, m: Uuid)
    requires m in jobs
    ensures Measure(jobs - {m}, mine) <= Measure(jobs, mine)
  {
    TotalRemove(jobs.Keys, Weights(jobs, mine), m);
    assert (jobs - {m}).Keys == jobs.Keys - {m};
    TotalFrame(jobs.Keys - {m}, Weights(jobs, mine), Weights(jobs - {m}, mine));
  }

  /** The batch's own claim lowers the weight of the row, and is not stale. */
  lemma ClaimedWeighsLess(t: Tables, jobs: map<Uuid, Job>, m: Uuid, now: Time, mine: bool)
    requires Claimable(t, jobs, m, now) && (mine ==> !Stale(jobs[m], now))
    ensures Weight(Thumbnail.Claimed(jobs[m], now), true) < Weight(jobs[m], mine)
    ensures !Stale(Thumbnail.Claimed(jobs[m], now), now)
  {
  }

  // ---- The batch ----

  datatype ClaimError = NothingToClaim | ClaimFailed

  class Queue {
    var rooms: map<Uuid, Room>
    var media: map<Uuid, Media>
    var jobs: map<Uuid, Job>
    var clock: Time
    var mine: set<Uuid>     // rows whose last claim is this batch's
    ghost var sound: bool   // no claim failed so far
    ghost var marked: bool  // no markFailed of this batch failed so far

    constructor (rooms: map<Uuid, Room>, media: map<Uuid, Media>, jobs: map<Uuid, Job>, now: Time)
      ensures this.rooms == rooms && this.media == media && this.jobs == jobs && clock == now && Valid() && sound && marked
    {
      this.rooms, this.media, this.jobs, clock := rooms, media, jobs, now;
      mine, sound, marked := {}, true, true;
    }

    function State(): Tables
      reads this
    {
      Tables(rooms, media, map[], map[])
    }

    /** None of the batch's own claims has turned stale. The batch as a whole may take as long as it likes. */
    predicate Valid()
      reads this
    {
      FreshAt(clock)
    }

    predicate FreshAt(now: Time)
      reads this
    {
      forall m :: m in mine && m in jobs ==> !Stale(jobs[m], now)
    }

    ghost function Left(): nat
      reads this
    {
      Measure(jobs, mine)
    }

    /** Row `m` is the batch's, and it has not said what became of it. */
    predicate Pending(m: Uuid)
      reads this
    {
      m in mine && m in jobs && jobs[m].status == JobProcessing
    }

    predicate CanClaim(m: Uuid)
      reads this
    {
      Claimable(State(), jobs, m, clock)
    }

    // ---- Everyone else ----

    /** One statement of another worker, a change to a media or room row, or a later clock reading. No media row
        is added. */
    method OtherStep()
      requires Valid()
      modifies this
      ensures Valid() && Left() <= old(Left()) && sound == old(sound) && marked == old(marked)
      ensures forall x: Uuid :: Pending(x) ==> old(Pending(x))
    {
      var m: Uuid := *;
      var choice: nat := *;
      if choice == 0 {
        var later: Time := *;
        if clock <= later && FreshAt(later) {
          clock := later;
        }
      } else if choice == 1 {
        if m in media {
          var status: MediaStatus := *;
          media := media[m := media[m].(status := status)];
        }
      } else if choice == 2 {
        if m in rooms {
          var status: RoomStatus := *;
          rooms := rooms[m := rooms[m].(status := status)];
        }
      } else if choice == 3 {
        if m in jobs {
          MeasureWithoutRow(jobs, mine, m);
          media, jobs := media - {m}, jobs - {m};
        }
      } else if choice == 4 {
        OtherClaims(m);
      } else if choice == 5 {
        var r: Uuid := *;
        var published := PublishJob(m, r);
      } else {
        var ok := MarkJobFailed(m);
      }
    }

    method OtherClaims(m: Uuid)
      requires Valid()
      modifies this
      ensures Valid() && Left() <= old(Left()) && sound == old(sound) && marked == old(marked)
      ensures forall x: Uuid :: Pending(x) ==> old(Pending(x))
    {
      if CanClaim(m) {
        MeasureOfOneRow(jobs, mine, m, Claimed(jobs[m], clock), mine - {m});
        jobs := jobs[m := Claimed(jobs[m], clock)];
        mine := mine - {m};
      }
    }

    method Interfere()
      requires Valid()
      modifies this
      ensures Valid() && Left() <= old(Left()) && sound == old(sound) && marked == old(marked)
      ensures forall x: Uuid :: Pending(x) ==> old(Pending(x))
    {
      var steps: int := *;
      for i := 0 to if steps < 0 then 0 else steps
        invariant Valid() && Left() <= old(Left()) && sound == old(sound) && marked == old(marked)
        invariant forall x: Uuid :: Pending(x) ==> old(Pending(x))
      {
        OtherStep();
      }
    }

    // ---- The worker ----

    /** claim: the oldest row there is to claim, unless the database fails. */
    method Claim() returns (claimed: Result<Uuid, ClaimError>)
      requires Valid()
      modifies this
      ensures Valid() && (sound <==> old(sound) && claimed != Err(ClaimFailed)) && marked == old(marked)
      ensures forall x: Uuid :: Pending(x) ==> old(Pending(x)) || claimed == Ok(x)
      ensures media == old(media) && rooms == old(rooms) && clock == old(clock) && (claimed.Err? ==> jobs == old(jobs))
      ensures claimed == Err(NothingToClaim) ==> forall m :: !CanClaim(m)
      ensures claimed.Ok? ==>
        && old(CanClaim(claimed.value))
        && (forall m :: old(CanClaim(m)) ==> old(media[claimed.value].createdAt) <= old(media[m].createdAt))
        && jobs == old(jobs)[claimed.value := Thumbnail.Claimed(old(jobs)[claimed.value], clock)]
        && Left() < old(Left())
    {
      var failed: bool := *;
      if failed {
        sound := false;
        return Err(ClaimFailed);
      }
      if m :| m in media && CanClaim(m) {
        var oldest := Oldest(m);
        ClaimedWeighsLess(State(), jobs, oldest, clock, oldest in mine);
        hide Weight, Stale, Claimable, Weights;
        MeasureOfOneRow(jobs, mine, oldest, Thumbnail.Claimed(jobs[oldest], clock), mine + {oldest});
        jobs := jobs[oldest := Thumbnail.Claimed(jobs[oldest], clock)];
        mine := mine + {oldest};
        return Ok(oldest);
      }
      return Err(NothingToClaim);
    }

    /** ORDER BY created_at LIMIT 1 */
    method Oldest(m: Uuid) returns (oldest: Uuid)
      requires CanClaim(m)
      ensures CanClaim(oldest) && forall x :: CanClaim(x) ==> media[oldest].createdAt <= media[x].createdAt
    {
      var rest := set x | x in media && CanClaim(x);
      oldest := m;
      while rest != {}
        invariant CanClaim(oldest) && forall x :: x in rest ==> CanClaim(x)
        invariant forall x :: CanClaim(x) && x !in rest ==> media[oldest].createdAt <= media[x].createdAt
        decreases rest
      {
        var x :| x in rest;
        if media[x].createdAt < media[oldest].createdAt {
          oldest := x;
        }
        rest := rest - {x};
      }
    }

    /** The success UPDATE, by this worker or another. */
    method PublishJob(m: Uuid, r: Uuid) returns (ok: bool)
      requires Valid()
      modifies this
      ensures Valid() && Left() <= old(Left()) && sound == old(sound) && marked == old(marked)
      ensures forall x: Uuid :: Pending(x) ==> old(Pending(x))
      ensures jobs == Publish(State(), old(jobs), m, Thumbnail(r, m), clock).0 || jobs == old(jobs)
      ensures ok ==> m in jobs && jobs[m].status == JobReady
    {
      var reply: UploadProtocol.Reply := *;
      if reply.NotDone? {
        return false;
      }
      var (jobs', changed) := Publish(State(), jobs, m, Thumbnail(r, m), clock);
      if changed {
        MeasureOfOneRow(jobs, mine, m, jobs'[m], mine);
      }
      jobs := jobs';
      ok := changed && reply.Done?;
    }

    /** markFailed, by this worker or another. */
    method MarkJobFailed(m: Uuid) returns (ok: bool)
      requires Valid()
      modifies this
      ensures Valid() && Left() <= old(Left()) && sound == old(sound) && marked == old(marked)
      ensures forall x: Uuid :: Pending(x) ==> old(Pending(x))
      ensures jobs == MarkFailed(old(jobs), m, clock) || jobs == old(jobs)
      ensures ok ==> !Pending(m)
    {
      var reply: UploadProtocol.Reply := *;
      if !reply.NotDone? && m in jobs {
        MeasureOfOneRow(jobs, mine, m, MarkFailed(jobs, m, clock)[m], mine);
        jobs := MarkFailed(jobs, m, clock);
      }
      ok := reply.Done?;
    }

    /** process, with everyone else between its statements; generating may fail. */
    method Process(m: Uuid, r: Uuid) returns (ok: bool)
      requires Valid()
      modifies this
      ensures ok ==> m in jobs && jobs[m].status == JobReady
      ensures Valid() && Left() <= old(Left()) && sound == old(sound) && marked == old(marked)
      ensures forall x: Uuid :: Pending(x) ==> old(Pending(x))
    {
      Interfere();
      var generated: bool := *;
      if !generated {
        return false;
      }
      ok := PublishJob(m, r);
    }

    /** The rest of a round: the row is processed, and marked when that fails. */
    method Attempt(m: Uuid, r: Uuid)
      requires Valid()
      modifies this
      ensures Valid() && Left() <= old(Left()) && sound == old(sound)
      ensures marked ==> old(marked) && !Pending(m)
      ensures forall x: Uuid :: Pending(x) ==> old(Pending(x))
    {
      var ok := Process(m, r);
      if !ok {
        Interfere();
        var markedThis := MarkJobFailed(m);
        marked := marked && markedThis;
      }
    }

    /** runBatch: it ends; unless a claim failed it ends with nothing left to claim; and unless a markFailed failed
        none of the rows it claimed is left in processing under its name: each was published or marked as failed. */
    method RunBatch() returns (finished: bool)
      requires Valid()
      modifies this
      ensures finished ==> forall m :: !CanClaim(m)
      ensures old(sound) ==> (sound <==> finished)
      ensures marked ==> forall m :: m in mine && m in jobs ==> jobs[m].status != JobProcessing
    {
      mine, marked := {}, true;
      while true
        invariant Valid() && sound == old(sound)
        invariant marked ==> forall m: Uuid :: !Pending(m)
        decreases Left()
      {
        Interfere();
        var claimed := Claim();
        if claimed.Err? {
          assert forall m: Uuid :: m in mine && m in jobs && jobs[m].status == JobProcessing ==> Pending(m);
          return claimed.error == NothingToClaim;
        }
        Attempt(claimed.value, media[claimed.value].room);
      }
    }
  }
}
