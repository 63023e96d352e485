/** What Complete answers, step by step under any interleaving, over whole runs, and when nobody interferes. */
module CompleteAnswers {
  import opened Basics
  import opened InitiateRequest
  import opened Schema
  import opened Transactions
  import opened LedgerInvariant
  import opened LedgerTransactions
  import opened UploadProtocol
  import opened UploadInvariant
  import opened UploadSteps
  import opened UploadTheorems
  import opened Alone
  import opened Readiness
  import PartList

  // ---- Each step ----

  /** The caller's own session. */
  predicate Mine(t: Tables, identity: Uuid, s: Uuid) {
    s in t.sessions && t.sessions[s].identity == identity
  }

  /** The session still takes its upload. */
  predicate Open(t: Tables, s: Uuid, now: Time) {
    s in t.sessions && (t.sessions[s].status == Initiated || t.sessions[s].status == Uploading) && now < t.sessions[s].expiresAt
  }

  /** A multipart upload needs its complete part list, a single one none. */
  predicate PartsFit(kind: UploadKind, parts: seq<PartList.Part>) {
    if kind.Multipart? then PartList.Complete(parts, kind.partsCount) else parts == []
  }

  lemma SessionIsJoined(w: World, s: Uuid)
    requires WorldInv(w) && s in w.t.sessions
    ensures Joined(w.t, s)
  {
    assert SoundSession(w.t, s);
  }

  /** The first step reads, and decides by the caller, the session and the part list. */
  lemma CompleteReads(w: World, identity: Uuid, s: Uuid, parts: seq<PartList.Part>, c: Choice)
    requires WorldInv(w)
    ensures
      var (w', a) := Step(w, Completing(identity, s, parts), c);
      && w' == w
      && (a == Finished(Refused(UploadNotFound)) <==> !Mine(w.t, identity, s))
      && (Mine(w.t, identity, s) ==>
            && Joined(w.t, s)
            && var (row, fit) := (w.t.sessions[s], PartsFit(w.t.sessions[s].kind, parts));
            && (a == Finished(ReadyAnswer(s)) <==> row.status == Completed)
            && (a == Finished(Refused(UploadExpired)) <==> row.status != Completed && !Open(w.t, s, w.now))
            && (a == Finished(Refused(InvalidUploadParts)) <==> Open(w.t, s, w.now) && !fit)
            && (a == Assembling(View(w.t, s)) <==> Open(w.t, s, w.now) && fit && row.kind.Multipart?)
            && (a == Measuring(View(w.t, s)) <==> Open(w.t, s, w.now) && fit && row.kind.Single?))
  {
    if s in w.t.sessions {
      SessionIsJoined(w, s);
    }
    hide WorldInv, PartList.Complete;
  }

  /** The assembly call moves the parts into the object when it takes effect, and Complete trusts only a success. */
  lemma AssemblyDecides(w: World, upload: Upload, c: Choice)
    requires upload.kind.Multipart?
    ensures
      var (w', a) := Step(w, Assembling(upload), c);
      var u := upload.kind.storageUpload;
      && (a == Measuring(upload) <==> u in w.multiparts && c.reply == Done)
      && (a == CheckingAssembly(upload) <==> !(u in w.multiparts && c.reply == Done))
      && w' == (if u in w.multiparts && c.reply != NotDone
                then w.(objects := w.objects[upload.key := w.multiparts[u]], multiparts := w.multiparts - {u})
                else w)
  {
  }

  /** After a failed assembly it goes on exactly when the object is there all the same. */
  lemma CheckDecides(w: World, upload: Upload, c: Choice)
    ensures
      var (w', a) := Step(w, CheckingAssembly(upload), c);
      && w' == w
      && (a == Measuring(upload) <==> c.reply == Done && upload.key in w.objects)
      && (a == Finished(Refused(StoreFailure)) <==> !(c.reply == Done && upload.key in w.objects))
  {
  }

  /** It commits exactly when the store reports an object of the declared size, and discards one of another size. */
  lemma MeasuringDecides(w: World, id: nat, upload: Upload, c: Choice)
    requires id in w.actors && w.actors[id] == Measuring(upload)
    ensures
      var w' := Next(w, Move(id, c));
      var there := c.reply == Done && upload.key in w.objects;
      && w' == w.(actors := w'.actors) && id in w'.actors
      && (w'.actors[id] == Committing(upload) <==> there && w.objects[upload.key] == upload.sizeBytes)
      && (w'.actors[id] == Discarding(upload) <==> there && w.objects[upload.key] != upload.sizeBytes)
      && (w'.actors[id] == Finished(Refused(UploadNotReady)) <==> c.reply == Done && upload.key !in w.objects)
      && (w'.actors[id] == Finished(Refused(StoreFailure)) <==> c.reply != Done)
  {
  }

  lemma DiscardGoesOn(w: World, upload: Upload, c: Choice)
    ensures Step(w, Discarding(upload), c)
      == (if c.reply == NotDone then w else w.(objects := w.objects - {upload.key}), ReleasingMismatch(upload))
  {
  }

  /** The closing transaction ends a live session as completed, and answers by the status it finds. */
  lemma CommitDecides(w: World, upload: Upload, c: Choice)
    requires WorldInv(w) && Known(w, upload)
    ensures
      var (w', a) := Step(w, Committing(upload), c);
      var there := upload.id in w.t.sessions;
      var live := there && w.t.sessions[upload.id].status.Live();
      && (live ==> Ends(w.t, w'.t, upload.id, Completed, Ready)) && (!live ==> w'.t == w.t)
      && w'.objects == w.objects && w'.multiparts == w.multiparts
      && (a == Finished(ReadyAnswer(upload.id)) <==> live || (there && w.t.sessions[upload.id].status == Completed))
      && (a == Finished(Refused(UploadExpired)) <==>
            there && (w.t.sessions[upload.id].status == Aborted || w.t.sessions[upload.id].status == Expired))
      && (a == Finished(Refused(NoRows)) <==> !there)
  {
    Parts(w);
    if upload.id in w.t.sessions && w.t.sessions[upload.id].status.Live() {
      CompleteEnds(w.t, upload);
      CompletedBy(w, upload, c);
    } else {
      hide WorldInv, LedgerInv, Ends, EndedNow;
    }
  }

  lemma CompletedBy(w: World, upload: Upload, c: Choice)
    requires Transactions.Complete(w.t, upload).1 == Ok(())
    ensures Step(w, Committing(upload), c) == (Commit(w, Transactions.Complete(w.t, upload).0), Finished(ReadyAnswer(upload.id)))
  {
    hide Transactions.Complete, Commit;
  }

  /** The reservation of a live session is released, and the mismatch is reported unless someone completed it. */
  lemma MismatchDecides(w: World, upload: Upload, c: Choice)
    requires WorldInv(w) && Known(w, upload)
    ensures
      var (w', a) := Step(w, ReleasingMismatch(upload), c);
      var there := upload.id in w.t.sessions;
      var live := there && w.t.sessions[upload.id].status.Live();
      && (live ==> Ends(w.t, w'.t, upload.id, Aborted, Failed)) && (!live ==> w'.t == w.t)
      && w'.objects == w.objects && w'.multiparts == w.multiparts
      && (a == Finished(MismatchAnswer(upload.id)) <==> there && w.t.sessions[upload.id].status != Completed)
      && (a == Finished(Refused(Error.UploadCompleted)) <==> there && w.t.sessions[upload.id].status == Completed)
      && (a == Finished(Refused(NoRows)) <==> !there)
  {
    Parts(w);
    if upload.id in w.t.sessions && w.t.sessions[upload.id].status.Live() {
      ReleaseEnds(w.t, upload, Failed);
      ReleasedBy(w, upload, c);
    } else {
      hide WorldInv, LedgerInv, Ends, EndedNow;
    }
  }

  lemma ReleasedBy(w: World, upload: Upload, c: Choice)
    requires Release(w.t, upload, Aborted, Failed).1 == Ok(())
    ensures Step(w, ReleasingMismatch(upload), c)
      == (Commit(w, Release(w.t, upload, Aborted, Failed).0), Finished(MismatchAnswer(upload.id)))
  {
    hide Release, Commit;
  }

  // ---- Over whole runs ----

  /** The store has an object of exactly this size. */
  predicate Stored(w: World, key: ObjectKey, size: int) {
    key in w.objects && w.objects[key] == size
  }

  /** In this state session `s` has its object, of the size its media row declares. */
  predicate HasItsObject(w: World, s: Uuid) {
    && Joined(w.t, s)
    && Stored(w, w.t.media[w.t.sessions[s].mediaId].key, w.t.media[w.t.sessions[s].mediaId].sizeBytes)
  }

  /** The state after the first `k` events. */
  ghost function After(start: Time, events: seq<Event>, k: nat): World
    requires k <= |events|
  {
    Run(Initial(start), events[..k])
  }

  ghost predicate HadItsObject(start: Time, events: seq<Event>, s: Uuid) {
    exists k :: 0 <= k <= |events| && HasItsObject(After(start, events, k), s)
  }

  /** What an actor that is about to commit once found. */
  ghost predicate WasMeasured(start: Time, events: seq<Event>, upload: Upload) {
    exists k :: 0 <= k <= |events|
      && Known(After(start, events, k), upload) && Stored(After(start, events, k), upload.key, upload.sizeBytes)
  }

  ghost predicate MeasuredInv(start: Time, events: seq<Event>) {
    var w := Run(Initial(start), events);
    && (forall id {:trigger w.actors[id]} :: id in w.actors && w.actors[id].Committing? ==>
          WasMeasured(start, events, w.actors[id].upload))
    && (forall s :: EndedAs(w, s, Completed) ==> HadItsObject(start, events, s))
  }

  lemma {:induction false} RunLast(w: World, events: seq<Event>, e: Event)
    ensures Run(w, events + [e]) == Next(Run(w, events), e)
    decreases |events|
  {
    hide Next;
    if events == [] {
      assert events + [e] == [e];
    } else {
      assert (events + [e])[1..] == events[1..] + [e];
      RunLast(Next(w, events[0]), events[1..], e);
    }
  }

  lemma SameBefore(start: Time, events: seq<Event>, e: Event, k: nat)
    requires k <= |events|
    ensures After(start, events + [e], k) == After(start, events, k)
  {
    assert (events + [e])[..k] == events[..k];
  }

  lemma HadStays(start: Time, events: seq<Event>, e: Event, s: Uuid)
    requires HadItsObject(start, events, s)
    ensures HadItsObject(start, events + [e], s)
  {
    hide HasItsObject, After;
    var k :| 0 <= k <= |events| && HasItsObject(After(start, events, k), s);
    SameBefore(start, events, e, k);
  }

  lemma WasMeasuredStays(start: Time, events: seq<Event>, e: Event, upload: Upload)
    requires WasMeasured(start, events, upload)
    ensures WasMeasured(start, events + [e], upload)
  {
    hide Stored, After, Known;
    var k :| 0 <= k <= |events|
      && Known(After(start, events, k), upload) && Stored(After(start, events, k), upload.key, upload.sizeBytes);
    SameBefore(start, events, e, k);
  }

  lemma CommittingComesFrom(w: World, a: Actor, c: Choice)
    requires Step(w, a, c).1.Committing?
    ensures a == Committing(Step(w, a, c).1.upload)
      || (a == Measuring(Step(w, a, c).1.upload) && Stored(w, a.upload.key, a.upload.sizeBytes))
  {
    hide Validate, StepSubmit, GetUpload, Transactions.Complete, Release, DeleteMedia, Expire, ClaimRoom, DropRoom, Commit;
    hide RoomWithSlug, AuthorizeDeletion, ScheduleDeletion, MarkUploading, AttachUrl, PartList.Complete;
    if a.Initiating? && Validate(a.input).Some? {
      SubmittedIsAttaching(w, a, c, Validate(a.input).value.1);
    }
  }

  lemma SubmittedIsAttaching(w: World, a: Actor, c: Choice, input: Input)
    requires a.Initiating?
    ensures !StepSubmit(w, a, c, input).1.Committing?
  {
    hide Submit, Commit, Hash;
  }

  /** An actor that is about to commit was so before, or has just measured the object. */
  lemma CommittingBefore(w: World, e: Event, id: nat)
    requires WorldInv(w) && id in Next(w, e).actors && Next(w, e).actors[id].Committing?
    ensures id in w.actors
    ensures
      var upload := Next(w, e).actors[id].upload;
      || w.actors[id] == Committing(upload)
      || (w.actors[id] == Measuring(upload) && Known(w, upload) && Stored(w, upload.key, upload.sizeBytes))
  {
    if e.Move? && e.id in w.actors {
      StepIgnoresActors(w, w.actors, w.actors[e.id], e.choice);
      assert ActorInv(w, w.actors[e.id]);
      hide WorldInv, Known, Step;
      if e.id == id {
        CommittingComesFrom(w, w.actors[id], e.choice);
      }
    } else {
      hide WorldInv, Step, InsertRoom, Join, SetAccepting, EndedNow;
    }
  }

  lemma {:induction false} RunSplits(w: World, a: seq<Event>, b: seq<Event>)
    ensures Run(w, a + b) == Run(Run(w, a), b)
    decreases |a|
  {
    hide Next;
    if a == [] {
      assert a + b == b;
    } else {
      assert (a + b)[1..] == a[1..] + b;
      RunSplits(Next(w, a[0]), a[1..], b);
    }
  }

  /** A session that is there late and was known early was there early, with the same media. */
  lemma KnownWasThere(v: World, w: World, upload: Upload)
    requires WorldInv(v) && WorldInv(w) && Later(v, w) && Known(v, upload) && upload.id in w.t.sessions
    requires Stored(v, upload.key, upload.sizeBytes)
    ensures HasItsObject(v, upload.id)
  {
    assert upload.id in v.t.sessions;
    hide WorldInv, Later;
  }

  lemma CompletedHadObject(start: Time, events: seq<Event>, upload: Upload)
    requires WasMeasured(start, events, upload) && upload.id in Run(Initial(start), events).t.sessions
    ensures HadItsObject(start, events, upload.id)
  {
    hide Stored, Known, WorldInv, Later, HasItsObject;
    var k :| 0 <= k <= |events|
      && Known(After(start, events, k), upload) && Stored(After(start, events, k), upload.key, upload.sizeBytes);
    var v := After(start, events, k);
    InitialIsGood(start);
    RunKeepsWorld(Initial(start), events[..k]);
    RunSplits(Initial(start), events[..k], events[k..]);
    assert events[..k] + events[k..] == events;
    RunKeepsWorld(v, events[k..]);
    KnownWasThere(v, Run(Initial(start), events), upload);
  }

  lemma JustMeasured(start: Time, events: seq<Event>, e: Event, upload: Upload)
    requires Known(Run(Initial(start), events), upload) && Stored(Run(Initial(start), events), upload.key, upload.sizeBytes)
    ensures WasMeasured(start, events + [e], upload)
  {
    hide Known, Stored;
    assert (events + [e])[..|events|] == events;
    assert After(start, events + [e], |events|) == Run(Initial(start), events);
  }

  /** A session that is newly on record as completed was completed by this step. */
  lemma NewlyCompleted(w: World, e: Event, s: Uuid)
    requires WorldInv(w) && EndedAs(Next(w, e), s, Completed) && !EndedAs(w, s, Completed)
    ensures e.Move? && e.id in w.actors && w.actors[e.id].Committing? && w.actors[e.id].upload.id == s
    ensures s in w.t.sessions
  {
    NextKeepsWorld(w, e);
    Parts(w);
    hide WorldInv, Next, LedgerInv, Evolves;
    assert s in EndedNow(w.t, Next(w, e).t);
    OnlyCompleteCompletes(w, e, s);
  }

  lemma MeasuredStep(start: Time, events: seq<Event>, e: Event)
    requires MeasuredInv(start, events)
    ensures MeasuredInv(start, events + [e])
  {
    var w := Run(Initial(start), events);
    var w' := Next(w, e);
    InitialIsGood(start);
    RunKeepsWorld(Initial(start), events);
    RunLast(Initial(start), events, e);
    hide Run, Next, WorldInv, Later, Known, Stored, WasMeasured, HadItsObject, EndedAs;
    forall id {:trigger w'.actors[id]} | id in w'.actors && w'.actors[id].Committing?
      ensures WasMeasured(start, events + [e], w'.actors[id].upload)
    {
      var upload := w'.actors[id].upload;
      CommittingBefore(w, e, id);
      if w.actors[id] == Committing(upload) {
        WasMeasuredStays(start, events, e, upload);
      } else {
        JustMeasured(start, events, e, upload);
      }
    }
    forall s | EndedAs(w', s, Completed)
      ensures HadItsObject(start, events + [e], s)
    {
      if !EndedAs(w, s, Completed) {
        NewlyCompleted(w, e, s);
        CompletedHadObject(start, events, w.actors[e.id].upload);
      }
      HadStays(start, events, e, s);
    }
  }

  lemma {:induction false} RunMeasures(start: Time, events: seq<Event>)
    ensures MeasuredInv(start, events)
    decreases |events|
  {
    if events != [] {
      var last := |events| - 1;
      RunMeasures(start, events[..last]);
      MeasuredStep(start, events[..last], events[last]);
      assert events[..last] + [events[last]] == events;
    }
  }

  /** In every run: a session that was completed, and so one that a Complete was told is ready, had its object in the
      store at some time, with exactly the size its media row declares. */
  lemma ReadyHadItsObject(start: Time, events: seq<Event>, s: Uuid)
    ensures
      var w := Run(Initial(start), events);
      EndedAs(w, s, Completed) || (exists id :: id in w.actors && w.actors[id] == Finished(ReadyAnswer(s))) ==>
        exists k :: 0 <= k <= |events| && HasItsObject(After(start, events, k), s)
  {
    var w := Run(Initial(start), events);
    RunMeasures(start, events);
    assert Reachable(w);
    hide Run, Reachable, HasItsObject, After;
    if id :| id in w.actors && w.actors[id] == Finished(ReadyAnswer(s)) {
      AnswersAgree(w, id, id, s);
    }
    if EndedAs(w, s, Completed) {
      assert HadItsObject(start, events, s);
    }
  }

  // ---- When nobody interferes ----

  /** What the store will report: the assembled parts if the multipart upload is open, otherwise the object. */
  function Measurable(w: World, upload: Upload): Option<int> {
    if upload.kind.Multipart? && upload.kind.storageUpload in w.multiparts
    then Some(w.multiparts[upload.kind.storageUpload])
    else if upload.key in w.objects then Some(w.objects[upload.key]) else None
  }

  /** What a Complete with fitting parts comes to for an open session, by what the store reports: "ready", with the
      session completed; a mismatch, with the reservation released and the object gone; or a refusal. */
  ghost predicate Outcomes(w: World, upload: Upload, stored: Option<int>, o: Outcome, w': World) {
    match stored
    case None =>
      w'.t == w.t && o == Refused(if upload.kind.Single? then UploadNotReady else StoreFailure)
    case Some(size) =>
      if size == upload.sizeBytes then
        o == ReadyAnswer(upload.id) && Ends(w.t, w'.t, upload.id, Completed, Ready) && Stored(w', upload.key, size)
      else
        o == MismatchAnswer(upload.id) && Ends(w.t, w'.t, upload.id, Aborted, Failed) && upload.key !in w'.objects
  }

  /** What a client has put last is what Complete measures: the object, or the parts while their upload is open. */
  lemma PutIsMeasured(w: World, upload: Upload, size: int)
    ensures upload.kind.Single? ==> Measurable(Next(w, PutObject(upload.key, size)), upload) == Some(size)
    ensures upload.kind.Multipart? && upload.kind.storageUpload in w.multiparts ==>
      Measurable(Next(w, PutPart(upload.kind.storageUpload, size)), upload) == Some(size)
  {
  }

  ghost predicate OpenReading(w: World, upload: Upload) {
    WorldInv(w) && Known(w, upload) && upload.id in w.t.sessions && w.t.sessions[upload.id].status.Live()
  }

  lemma FittingAlone(w: World, id: nat, upload: Upload, c: Choice, n: nat)
    requires OpenReading(w, upload) && c.reply == Done && n >= 3 && Stored(w, upload.key, upload.sizeBytes)
    ensures
      var w' := Run(At(w, id, Measuring(upload)), Repeat(id, c, n));
      && id in w'.actors && w'.actors[id].Finished?
      && Outcomes(w, upload, Some(upload.sizeBytes), w'.actors[id].outcome, w')
  {
    hide WorldInv, Known, Run, Ends, Step, Repeat;
    var v := Step(w, Committing(upload), c).0;
    CommitDecides(w, upload, c);
    MeasuringMoves(w, upload, c);
    Moves(w, w, id, Measuring(upload), Committing(upload), c, n);
    LastMove(w, v, id, Committing(upload), ReadyAnswer(upload.id), c, n - 1);
  }

  lemma MismatchAlone(w: World, id: nat, upload: Upload, c: Choice, n: nat)
    requires OpenReading(w, upload) && c.reply == Done && n >= 3
    requires upload.key in w.objects && w.objects[upload.key] != upload.sizeBytes
    ensures
      var w' := Run(At(w, id, Measuring(upload)), Repeat(id, c, n));
      && id in w'.actors && w'.actors[id].Finished?
      && Outcomes(w, upload, Some(w.objects[upload.key]), w'.actors[id].outcome, w')
  {
    hide WorldInv, Known, Run, Ends, Step, Repeat, Later, Records;
    var v := w.(objects := w.objects - {upload.key});
    StoreKeepsWorld(w, v);
    KnownWithStore(w, v, upload);
    MismatchDecides(v, upload, c);
    MeasuringMoves(w, upload, c);
    DiscardGoesOn(w, upload, c);
    Moves(w, w, id, Measuring(upload), Discarding(upload), c, n);
    Moves(w, v, id, Discarding(upload), ReleasingMismatch(upload), c, n - 1);
    LastMove(v, Step(v, ReleasingMismatch(upload), c).0, id, ReleasingMismatch(upload), MismatchAnswer(upload.id), c, n - 2);
  }

  /** From the measurement on. */
  lemma MeasuredAlone(w: World, id: nat, upload: Upload, c: Choice, n: nat)
    requires OpenReading(w, upload) && c.reply == Done && n >= 3 && upload.key in w.objects
    ensures
      var w' := Run(At(w, id, Measuring(upload)), Repeat(id, c, n));
      && id in w'.actors && w'.actors[id].Finished?
      && Outcomes(w, upload, Some(w.objects[upload.key]), w'.actors[id].outcome, w')
  {
    hide Run, OpenReading, Outcomes, Repeat;
    if w.objects[upload.key] == upload.sizeBytes {
      FittingAlone(w, id, upload, c, n);
    } else {
      MismatchAlone(w, id, upload, c, n);
    }
  }

  lemma KnownWithStore(w: World, v: World, upload: Upload)
    requires Known(w, upload) && v == w.(objects := v.objects, multiparts := v.multiparts)
    ensures Known(v, upload)
  {
    hide LedgerTransactions.Matches;
  }

  lemma MeasuringMoves(w: World, upload: Upload, c: Choice)
    requires c.reply == Done
    ensures Step(w, Measuring(upload), c)
      == (w, if upload.key !in w.objects then Finished(Refused(UploadNotReady))
             else if w.objects[upload.key] == upload.sizeBytes then Committing(upload) else Discarding(upload))
  {
  }

  /** From the reading on. */
  lemma ReadAlone(w: World, id: nat, upload: Upload, c: Choice, n: nat)
    requires OpenReading(w, upload) && c.reply == Done && n >= 5
    ensures
      var a := if upload.kind.Multipart? then Assembling(upload) else Measuring(upload);
      var w' := Run(At(w, id, a), Repeat(id, c, n));
      && id in w'.actors && w'.actors[id].Finished?
      && Outcomes(w, upload, Measurable(w, upload), w'.actors[id].outcome, w')
      && w'.actors[id].outcome != Refused(UploadNotFound)
  {
    hide WorldInv, Known, Run, Ends, Step;
    MeasuringMoves(w, upload, c);
    CheckDecides(w, upload, c);
    if upload.kind.Single? {
      if upload.key in w.objects {
        MeasuredAlone(w, id, upload, c, n);
      } else {
        LastMove(w, w, id, Measuring(upload), Refused(UploadNotReady), c, n);
      }
    } else {
      AssemblyDecides(w, upload, c);
      var v := Step(w, Assembling(upload), c).0;
      if upload.kind.storageUpload in w.multiparts {
        StoreKeepsWorld(w, v);
        KnownWithStore(w, v, upload);
        Moves(w, v, id, Assembling(upload), Measuring(upload), c, n);
        MeasuredAlone(v, id, upload, c, n - 1);
      } else {
        Moves(w, w, id, Assembling(upload), CheckingAssembly(upload), c, n);
        if upload.key in w.objects {
          Moves(w, w, id, CheckingAssembly(upload), Measuring(upload), c, n - 1);
          MeasuredAlone(w, id, upload, c, n - 2);
        } else {
          LastMove(w, w, id, CheckingAssembly(upload), Refused(StoreFailure), c, n - 1);
        }
      }
    }
  }

  lemma ReadingIsLive(w: World, s: Uuid)
    requires WorldInv(w) && s in w.t.sessions && w.t.sessions[s].status.Live()
    ensures Joined(w.t, s) && OpenReading(w, View(w.t, s)) && View(w.t, s).kind == w.t.sessions[s].kind
    ensures View(w.t, s).id == s
  {
    SessionIsJoined(w, s);
    Parts(w);
    assert SoundMedia(w.t, w.t.sessions[s].mediaId);
    ReadingIsKnown(w, s);
    hide WorldInv;
  }

  /** Complete from start to end, in any reachable state, while nobody else moves and the store works: exactly when it
      answers what, and what it leaves behind. */
  lemma CompleteAlone(w: World, id: nat, identity: Uuid, s: Uuid, parts: seq<PartList.Part>, c: Choice)
    requires Reachable(w) && id !in w.actors && c.reply == Done
    ensures
      var w' := Run(w, Events(id, Completing(identity, s, parts), c, 6));
      && id in w'.actors && w'.actors[id].Finished?
      && var o := w'.actors[id].outcome;
      && (o == Refused(UploadNotFound) <==> !Mine(w.t, identity, s))
      && (Mine(w.t, identity, s) ==>
            && Joined(w.t, s)
            && var (row, upload, open) := (w.t.sessions[s], View(w.t, s), Open(w.t, s, w.now));
            && (row.status == Completed ==> o == ReadyAnswer(s) && w'.t == w.t)
            && (row.status != Completed && !open ==> o == Refused(UploadExpired) && w'.t == w.t)
            && (open && !PartsFit(row.kind, parts) ==> o == Refused(InvalidUploadParts) && w'.t == w.t)
            && (open && PartsFit(row.kind, parts) ==> Outcomes(w, upload, Measurable(w, upload), o, w')))
  {
    hide Reachable, WorldInv, Run, Step, PartsFit, Outcomes, Ends, Events, Repeat, View, Measurable, OpenReading;
    ReachableIsGood(w);
    var a := Completing(identity, s, parts);
    CompleteReads(w, identity, s, parts, c);
    Begins(w, id, a, c, 6);
    var a' := Step(w, a, c).1;
    if a'.Finished? {
      LastMove(w, w, id, a, a'.outcome, c, 6);
    } else {
      ReadingIsLive(w, s);
      Moves(w, w, id, a, a', c, 6);
      ReadAlone(w, id, View(w.t, s), c, 5);
    }
  }
}
