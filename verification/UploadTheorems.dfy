/** What the upload service promises, over every run of the step system. */
module UploadTheorems {
  import opened Basics
  import opened InitiateRequest
  import opened Schema
  import opened Transactions
  import opened LedgerInvariant
  import opened LedgerTransactions
  import opened UploadProtocol
  import opened UploadInvariant
  import opened UploadSteps
  import Canonical

  /** The states of the system that some run from an empty database reaches. */
  ghost predicate Reachable(w: World) {
    exists start: Time, events: seq<Event> :: w == Run(Initial(start), events)
  }

  lemma ReachableIsGood(w: World)
    requires Reachable(w)
    ensures WorldInv(w)
  {
    var start: Time, events: seq<Event> :| w == Run(Initial(start), events);
    InitialIsGood(start);
    RunKeepsWorld(Initial(start), events);
  }

  /** `w'` is a state that some run reaches from `w`. */
  ghost predicate Reaches(w: World, w': World) {
    exists events: seq<Event> :: w' == Run(w, events)
  }

  lemma ReachesIsLater(w: World, w': World)
    requires WorldInv(w) && Reaches(w, w')
    ensures WorldInv(w') && Later(w, w')
  {
    var events: seq<Event> :| w' == Run(w, events);
    RunKeepsWorld(w, events);
  }

  // ---- Ledger agreement and quota ----

  /** In every reachable state the reserved counters of a room are the number and size of its media with a live
      session, the used counters those of its ready media, and a session is live exactly when its media is pending. */
  lemma LedgerAgreement(w: World)
    requires Reachable(w)
    ensures forall r :: r in w.t.rooms ==>
      && w.t.rooms[r].reservedFiles == |LiveMedia(w.t, r)|
      && w.t.rooms[r].reservedBytes == Bytes(w.t.media, LiveMedia(w.t, r))
      && w.t.rooms[r].usedFiles == |MediaIn(w.t.media, r, Ready)|
      && w.t.rooms[r].usedBytes == Bytes(w.t.media, MediaIn(w.t.media, r, Ready))
    ensures forall s :: s in w.t.sessions ==>
      w.t.sessions[s].mediaId in w.t.media
      && (w.t.sessions[s].status.Live() <==> w.t.media[w.t.sessions[s].mediaId].status == Pending)
  {
    ReachableIsGood(w);
    Parts(w);
    hide WorldInv, HistoryInv, Reachable;
    forall r | r in w.t.rooms
      ensures RoomBalanced(w.t, r) && LiveMedia(w.t, r) == MediaIn(w.t.media, r, Pending)
    {
      assert GoodRoom(w.t, r);
      LiveIsPending(w.t, r);
    }
    LiveIsPending(w.t, 0);
  }

  /** In every reachable state each room is within its limits and no counter is negative. */
  lemma QuotaSafety(w: World)
    requires Reachable(w)
    ensures forall r :: r in w.t.rooms ==> RoomChecks(w.t.rooms[r])
  {
    ReachableIsGood(w);
    Parts(w);
    hide WorldInv, HistoryInv, Reachable;
    forall r | r in w.t.rooms
      ensures RoomChecks(w.t.rooms[r])
    {
      assert GoodRoom(w.t, r);
    }
  }

  /** A reservation that was granted can be completed: no capacity is looked at again, and none is needed. */
  lemma GrantedCanComplete(w: World, s: Uuid)
    requires Reachable(w) && s in w.t.sessions && w.t.sessions[s].status.Live()
    ensures Joined(w.t, s) && Transactions.Complete(w.t, View(w.t, s)).1 == Ok(())
  {
    ReachableIsGood(w);
    Parts(w);
    assert SoundSession(w.t, s);
    hide WorldInv, HistoryInv, Reachable, LedgerInv;
    CompleteEnds(w.t, View(w.t, s));
  }

  /** No operation is ever turned away by a constraint of the schema. */
  lemma NoConstraintFails(w: World, id: nat)
    requires Reachable(w) && id in w.actors
    ensures w.actors[id] != Finished(Refused(ConstraintViolation))
  {
    ReachableIsGood(w);
    assert ActorInv(w, w.actors[id]);
  }

  // ---- Single outcome ----

  /** How often session `s` goes from live to ended in a run. */
  ghost function EndCount(w: World, events: seq<Event>, s: Uuid): nat
    decreases |events|
  {
    if events == [] then 0
    else (if s in EndedNow(w.t, Next(w, events[0]).t) then 1 else 0) + EndCount(Next(w, events[0]), events[1..], s)
  }

  /** A step records a session as ended exactly when it ends it. */
  lemma EndIsRecorded(w: World, e: Event, s: Uuid)
    requires WorldInv(w)
    ensures s in EndedNow(w.t, Next(w, e).t) <==> s !in w.ended && s in Next(w, e).ended
  {
    NextKeepsWorld(w, e);
    Parts(w);
    hide WorldInv, LedgerInv, Next;
  }

  /** In every run a session ends at most once, and exactly once when it is live at the start and ended at the end;
      how it ended never changes, and it is never live again. */
  lemma {:induction false} EndsOnce(w: World, events: seq<Event>, s: Uuid)
    requires WorldInv(w)
    ensures EndCount(w, events, s) == if s !in w.ended && s in Run(w, events).ended then 1 else 0
    ensures s in w.ended ==> EndedAs(Run(w, events), s, w.ended[s])
    ensures
      var w' := Run(w, events);
      s in w'.t.sessions && s in w'.ended ==> w'.t.sessions[s].status == w'.ended[s]
    decreases |events|
  {
    RunKeepsWorld(w, events);
    Parts(Run(w, events));
    if events != [] {
      var w1 := Next(w, events[0]);
      NextKeepsWorld(w, events[0]);
      EndIsRecorded(w, events[0], s);
      hide WorldInv, Next, EndedNow, LedgerInv, Evolves;
      EndsOnce(w1, events[1..], s);
      RunKeepsWorld(w1, events[1..]);
    }
  }

  /** Answers tell how the session ended: "ready" is given only for a completed session, success of Abort and the
      size mismatch only for one that was aborted or expired. So no two callers are ever told different outcomes. */
  lemma AnswersAgree(w: World, a: nat, b: nat, s: Uuid)
    requires Reachable(w) && a in w.actors && b in w.actors
    requires w.actors[a] == Finished(ReadyAnswer(s))
    ensures EndedAs(w, s, Completed)
    ensures s in w.t.sessions ==> w.t.sessions[s].status == Completed
    ensures w.actors[b] != Finished(AbortedAnswer(s)) && w.actors[b] != Finished(MismatchAnswer(s))
  {
    ReachableIsGood(w);
    assert ActorInv(w, w.actors[a]) && ActorInv(w, w.actors[b]);
    Parts(w);
  }

  /** Abort's success and the size mismatch, seen from their own side. */
  lemma AbortedMeansReleased(w: World, a: nat, s: Uuid)
    requires Reachable(w) && a in w.actors
    requires w.actors[a] == Finished(AbortedAnswer(s)) || w.actors[a] == Finished(MismatchAnswer(s))
    ensures EndedAs(w, s, Aborted) || EndedAs(w, s, Expired)
    ensures s in w.t.sessions ==>
      && (w.t.sessions[s].status == Aborted || w.t.sessions[s].status == Expired)
      && w.t.sessions[s].mediaId in w.t.media
      && (w.t.media[w.t.sessions[s].mediaId].status == Failed || w.t.media[w.t.sessions[s].mediaId].status == Deleted)
  {
    ReachableIsGood(w);
    assert ActorInv(w, w.actors[a]);
    Parts(w);
    if s in w.t.sessions {
      assert SoundSession(w.t, s);
    }
  }

  // ---- A crash after the store assembled the object ----

  /** The events of one Complete from the start, each store call reported as it went. */
  function RetryEvents(id: nat, identity: Uuid, s: Uuid, parts: seq<PartList.Part>, c: Choice): seq<Event> {
    [Start(id, Completing(identity, s, parts)), Move(id, c), Move(id, c), Move(id, c), Move(id, c), Move(id, c)]
  }

  lemma RunOne(w: World, e: Event, rest: seq<Event>)
    ensures Run(w, [e] + rest) == Run(Next(w, e), rest)
  {
    assert ([e] + rest)[1..] == rest;
  }

  /** The first Complete got as far as the assembled object and crashed. While that object is there and the
      session is live and not overdue, a second Complete by the same caller goes through, although the store no
      longer knows the multipart upload: it answers "ready" and leaves the tables that the first one would have. */
  lemma CrashedCompleteRetries(w: World, id: nat, identity: Uuid, s: Uuid, parts: seq<PartList.Part>, c: Choice)
    requires Reachable(w) && id !in w.actors && c.reply == Done
    requires s in w.t.sessions && w.t.sessions[s].status.Live() && w.now < w.t.sessions[s].expiresAt
    requires w.t.sessions[s].identity == identity && w.t.sessions[s].kind.Multipart?
    requires Joined(w.t, s) && PartList.Complete(parts, w.t.sessions[s].kind.partsCount)
    requires w.t.sessions[s].kind.storageUpload !in w.multiparts
    requires View(w.t, s).key in w.objects && w.objects[View(w.t, s).key] == View(w.t, s).sizeBytes
    ensures
      var w' := Run(w, RetryEvents(id, identity, s, parts, c));
      && id in w'.actors && w'.actors[id] == Finished(ReadyAnswer(s))
      && w'.t == Transactions.Complete(w.t, View(w.t, s)).0
      && s in w'.t.sessions && w'.t.sessions[s].status == Completed
      && w'.objects == w.objects
  {
    GrantedCanComplete(w, s);
    var upload := View(w.t, s);
    var go := Move(id, c);
    var w0 := Next(w, Start(id, Completing(identity, s, parts)));
    assert w0 == w.(actors := w.actors[id := Completing(identity, s, parts)]);
    RunOne(w, Start(id, Completing(identity, s, parts)), [go, go, go, go, go]);
    RetrySteps(w0, id, c, upload, identity, s, parts);
    assert RetryEvents(id, identity, s, parts, c) == [Start(id, Completing(identity, s, parts))] + [go, go, go, go, go];
    CompleteOutcome(w.t, upload);
  }

  lemma CompleteOutcome(t: Tables, upload: Upload)
    requires upload.id in t.sessions && Transactions.Complete(t, upload).1 == Ok(())
    ensures
      var t' := Transactions.Complete(t, upload).0;
      upload.id in t'.sessions && t'.sessions[upload.id].status == Completed
  {
  }

  lemma RetryReads(w: World, id: nat, c: Choice, upload: Upload, identity: Uuid, s: Uuid, parts: seq<PartList.Part>)
    requires id in w.actors && w.actors[id] == Completing(identity, s, parts)
    requires GetUpload(w.t, identity, s) == Ok(upload) && upload.status.Live() && w.now < upload.expiresAt
    requires upload.kind.Multipart? && PartList.Complete(parts, upload.kind.partsCount)
    ensures Next(w, Move(id, c)) == w.(actors := w.actors[id := Assembling(upload)])
  {
    hide PartList.Complete, GetUpload;
  }

  lemma RetryStores(w: World, id: nat, c: Choice, upload: Upload)
    requires id in w.actors && c.reply == Done
    requires upload.kind.Multipart? && upload.kind.storageUpload !in w.multiparts
    requires upload.key in w.objects && w.objects[upload.key] == upload.sizeBytes
    ensures w.actors[id] == Assembling(upload) ==>
      Next(w, Move(id, c)) == w.(actors := w.actors[id := CheckingAssembly(upload)])
    ensures w.actors[id] == CheckingAssembly(upload) ==>
      Next(w, Move(id, c)) == w.(actors := w.actors[id := Measuring(upload)])
    ensures w.actors[id] == Measuring(upload) ==>
      Next(w, Move(id, c)) == w.(actors := w.actors[id := Committing(upload)])
  {
  }

  lemma RetryCommits(w: World, id: nat, c: Choice, upload: Upload)
    requires id in w.actors && w.actors[id] == Committing(upload) && Transactions.Complete(w.t, upload).1 == Ok(())
    ensures
      var w' := Next(w, Move(id, c));
      && id in w'.actors && w'.actors[id] == Finished(ReadyAnswer(upload.id))
      && w'.t == Transactions.Complete(w.t, upload).0 && w'.objects == w.objects
  {
    hide Transactions.Complete, EndedNow;
  }

  lemma RetrySteps(w: World, id: nat, c: Choice, upload: Upload, identity: Uuid, s: Uuid, parts: seq<PartList.Part>)
    requires id in w.actors && w.actors[id] == Completing(identity, s, parts) && c.reply == Done
    requires GetUpload(w.t, identity, s) == Ok(upload) && upload.status.Live() && w.now < upload.expiresAt
    requires upload.kind.Multipart? && PartList.Complete(parts, upload.kind.partsCount)
    requires upload.kind.storageUpload !in w.multiparts
    requires upload.key in w.objects && w.objects[upload.key] == upload.sizeBytes
    requires Transactions.Complete(w.t, upload).1 == Ok(())
    ensures
      var go := Move(id, c);
      var w' := Run(w, [go, go, go, go, go]);
      && id in w'.actors && w'.actors[id] == Finished(ReadyAnswer(upload.id))
      && w'.t == Transactions.Complete(w.t, upload).0 && w'.objects == w.objects
  {
    var go := Move(id, c);
    hide PartList.Complete, Transactions.Complete, GetUpload, Run, Next;
    var w1 := w.(actors := w.actors[id := Assembling(upload)]);
    var w2 := w1.(actors := w1.actors[id := CheckingAssembly(upload)]);
    var w3 := w2.(actors := w2.actors[id := Measuring(upload)]);
    var w4 := w3.(actors := w3.actors[id := Committing(upload)]);
    RetryReads(w, id, c, upload, identity, s, parts);
    RetryStores(w1, id, c, upload);
    RetryStores(w2, id, c, upload);
    RetryStores(w3, id, c, upload);
    RetryCommits(w4, id, c, upload);
    RunFive(w, go);
  }

  lemma RunFive(w: World, e: Event)
    ensures Run(w, [e, e, e, e, e]) == Next(Next(Next(Next(Next(w, e), e), e), e), e)
  {
    hide Next;
    var w1 := Next(w, e);
    var w2 := Next(w1, e);
    var w3 := Next(w2, e);
    var w4 := Next(w3, e);
    assert [e, e, e, e, e][1..] == [e, e, e, e] && [e, e, e, e][1..] == [e, e, e];
    assert [e, e, e][1..] == [e, e] && [e, e][1..] == [e] && [e][1..] == [];
    assert Run(w4, [e]) == Next(w4, e);
    assert Run(w3, [e, e]) == Next(w4, e);
    assert Run(w2, [e, e, e]) == Next(w4, e);
    assert Run(w1, [e, e, e, e]) == Next(w4, e);
  }

  // ---- Idempotency ----

  /** Rows whose room is still there are still there. */
  lemma SessionPersists(w: World, w': World, s: Uuid)
    requires WorldInv(w) && WorldInv(w') && Later(w, w') && Joined(w.t, s)
    requires w.t.media[w.t.sessions[s].mediaId].room in w'.t.rooms
    ensures Joined(w'.t, s) && SessionEvolves(w.t.sessions[s], w'.t.sessions[s])
    ensures View(w'.t, s) == View(w.t, s).(status := w'.t.sessions[s].status)
  {
    Parts(w');
    if s in w'.t.sessions {
      assert SessionEvolves(w.t.sessions[s], w'.t.sessions[s]);
      assert SoundSession(w'.t, s);
      assert MediaEvolves(w.t.media[w.t.sessions[s].mediaId], w'.t.media[w.t.sessions[s].mediaId]);
    }
  }

  /** Initiate on tables where session `s` already has the key. */
  lemma RepeatedInitiate(t: Tables, s: Uuid, identity: Uuid, key: Uuid, slug: string, input: Input, now: Time,
                         mediaId: Uuid, uploadId: Uuid, started: Option<nat>)
    requires SessionsUnique(t) && HasKey(t, s, identity, key)
    ensures forall x :: HasKey(t, x, identity, key) <==> x == s
    ensures Initiate(t, identity, key, slug, input, now, mediaId, uploadId, started)
      == (t, if Hash(slug, input) != t.sessions[s].requestHash then Err(IdempotencyConflict) else Ok(View(t, s)))
  {
    hide LockRoomForUpload, Hash;
    KeyFindsOne(t, s, identity, key);
  }

  lemma NothingEnds(w: World, t: Tables)
    requires t == w.t
    ensures Commit(w, t) == w
  {
    assert EndedNow(w.t, t) == map[];
  }

  /** Where an Initiate goes on whose key is taken by session `s`. */
  ghost function RepeatedActor(w: World, a: Actor, s: Uuid, input: Input): Actor
    requires a.Initiating? && Joined(w.t, s)
  {
    if Hash(a.slug, input) != w.t.sessions[s].requestHash then Finished(Refused(IdempotencyConflict))
    else Attaching(a.identity, a.key, Hash(a.slug, input), View(w.t, s))
  }

  /** Its transaction uses up identifiers and changes nothing else. */
  lemma RepeatedSubmit(w: World, a: Actor, c: Choice, s: Uuid, input: Input)
    requires SessionsUnique(w.t) && a.Initiating? && NewChoice(w, c) && HasKey(w.t, s, a.identity, a.key) && s in w.issued
    ensures StepSubmit(w, a, c, input) == (w.(issued := w.issued + {c.mediaId, c.uploadId}), RepeatedActor(w, a, s, input))
  {
    var started := if c.reply == Done then Some(c.storageUpload) else None;
    hide Initiate, Hash, SessionsUnique, Commit;
    RepeatedInitiate(w.t, s, a.identity, a.key, a.slug, input, w.now, c.mediaId, c.uploadId, started);
    NothingEnds(w, w.t);
  }

  lemma RepeatedStep(w: World, id: nat, c: Choice, s: Uuid)
    requires SessionsUnique(w.t) && id in w.actors && w.actors[id].Initiating? && NewChoice(w, c)
    requires HasKey(w.t, s, w.actors[id].identity, w.actors[id].key) && s in w.issued
    requires Validate(w.actors[id].input).Some?
    ensures
      Next(w, Move(id, c)) == w.(
        issued := w.issued + {c.mediaId, c.uploadId},
        actors := w.actors[id := RepeatedActor(w, w.actors[id], s, Validate(w.actors[id].input).value.1)])
  {
    hide StepSubmit, HasKey, Validate, SessionsUnique, RepeatedActor, NewChoice;
    RepeatedSubmit(w, w.actors[id], c, s, Validate(w.actors[id].input).value.1);
  }

  /** Once an upload was created under a key, then in any later state, after any interleaving, while its room
      exists: it is the only session under that key, and the step of any further Initiate with the key leaves the
      tables and the store as they are. If the request is the same the actor goes on with that same upload; if it
      differs it is refused with a conflict. (A step that is offered identifiers already in use does not happen.) */
  lemma IdempotentInitiate(w: World, w': World, id: nat, c: Choice, s: Uuid)
    requires Reachable(w) && Reaches(w, w') && id in w'.actors && w'.actors[id].Initiating?
    requires HasKey(w.t, s, w'.actors[id].identity, w'.actors[id].key)
    requires w.t.media[w.t.sessions[s].mediaId].room in w'.t.rooms
    requires Validate(w'.actors[id].input).Some?
    ensures
      var a := w'.actors[id];
      var hash := Hash(a.slug, Validate(a.input).value.1);
      var w2 := Next(w', Move(id, c));
      && s in w'.t.sessions
      && (forall x :: HasKey(w'.t, x, a.identity, a.key) <==> x == s)
      && w2.t == w'.t && w2.objects == w'.objects && w2.multiparts == w'.multiparts && w2.ended == w'.ended
      && w2.actors == w'.actors[id :=
           if !NewChoice(w', c) then a
           else if hash != w.t.sessions[s].requestHash then Finished(Refused(IdempotencyConflict))
           else Attaching(a.identity, a.key, hash, View(w.t, s).(status := w'.t.sessions[s].status))]
  {
    hide Reachable, Reaches, Hash, Validate, Initiate, WorldInv, Later, SessionsSound, MediaSound, RoomsSound, GoodRoom;
    ReachableIsGood(w);
    ReachesIsLater(w, w');
    Parts(w');
    SessionPersists(w, w', s);
    KeyFindsOne(w'.t, s, w'.actors[id].identity, w'.actors[id].key);
    if NewChoice(w', c) {
      RepeatedStep(w', id, c, s);
    } else {
      SameActor(w', id, c);
    }
  }

  lemma SameActor(w: World, id: nat, c: Choice)
    requires id in w.actors && w.actors[id].Initiating? && !NewChoice(w, c) && Validate(w.actors[id].input).Some?
    ensures Next(w, Move(id, c)) == w
  {
    hide Validate, Submit;
    assert w.actors[id := w.actors[id]] == w.actors;
  }

  /** The step that follows changes nothing. It refuses a single upload that is over, or whose URL could not be
      signed, and answers with the upload in all other cases. */
  lemma AttachedUploadIsAnswered(w: World, id: nat, c: Choice)
    requires id in w.actors && w.actors[id].Attaching?
    ensures
      var a := w.actors[id];
      var w2 := Next(w, Move(id, c));
      && w2 == w.(actors := w2.actors) && id in w2.actors && w2.actors[id].Finished?
      && var o := w2.actors[id].outcome;
      && var open := a.upload.status.Live() && w.now < a.upload.expiresAt;
      && var needsUrl := a.upload.kind.Single? && a.upload.status != Completed;
      && (o == Refused(UploadExpired) <==> needsUrl && !open)
      && (o == Refused(StoreFailure) <==> needsUrl && open && c.reply != Done)
      && (o == UploadAnswer(a.identity, a.key, a.hash, a.upload) <==> !needsUrl || (open && c.reply == Done))
  {
  }

  /** What "the same request" means: with the session created for slug `slug0` and validated input `input0`, a
      later Initiate under its key is a conflict exactly when it differs in the slug or a normalized field. */
  lemma OnlyTheSameRequestIsRepeated(w: World, w': World, id: nat, c: Choice, s: Uuid, slug0: string, input0: Input)
    requires Reachable(w) && Reaches(w, w') && id in w'.actors && w'.actors[id].Initiating? && NewChoice(w', c)
    requires HasKey(w.t, s, w'.actors[id].identity, w'.actors[id].key)
    requires w.t.media[w.t.sessions[s].mediaId].room in w'.t.rooms
    requires Validate(input0).Some? && Validate(w'.actors[id].input).Some?
    requires w.t.sessions[s].requestHash == Hash(slug0, Validate(input0).value.1)
    ensures
      var (slug, normal) := (w'.actors[id].slug, Validate(w'.actors[id].input).value.1);
      var w2 := Next(w', Move(id, c));
      && id in w2.actors
      && (w2.actors[id] == Finished(Refused(IdempotencyConflict)) <==> slug != slug0 || normal != Validate(input0).value.1)
      && (w2.actors[id] != Finished(Refused(IdempotencyConflict)) ==> w2.actors[id].Attaching? && w2.actors[id].upload.id == s)
  {
    hide Reachable, Reaches, Next, Validate, Hash;
    IdempotentInitiate(w, w', id, c, s);
    Canonical.CanonicalIsInjective(w'.actors[id].slug, w'.actors[id].input, slug0, input0);
  }

  // ---- Room removal ----

  /** A room's status only goes from active to deleting, a room that is gone never comes back, no media and so no
      reservation is added to a room once it is deleting, and a room is gone only after its objects were removed
      while it was deleting. */
  lemma RoomRemovalIsOrdered(w: World, w': World, r: Uuid)
    requires Reachable(w) && Reaches(w, w') && r in w.roomsOpened
    ensures r !in w.t.rooms ==> r !in w'.t.rooms
    ensures r in w.t.rooms && w.t.rooms[r].status == Deleting ==>
      && (r in w'.t.rooms ==> w'.t.rooms[r].status == Deleting)
      && (forall m :: m in w'.t.media && w'.t.media[m].room == r ==> m in w.t.media && w.t.media[m].room == r)
    ensures r !in w'.t.rooms ==> r in w'.purged
  {
    hide Reachable, Reaches, WorldInv, LedgerInv;
    ReachableIsGood(w);
    ReachesIsLater(w, w');
    Parts(w);
    Parts(w');
    if r in w.t.rooms && r in w'.t.rooms {
      assert RoomEvolves(w.t.rooms[r], w'.t.rooms[r]);
    }
    forall m | m in w'.t.media && w'.t.media[m].room == r && r in w.t.rooms && w.t.rooms[r].status == Deleting
      ensures m in w.t.media && w.t.media[m].room == r
    {
      assert m in w.t.media ==> MediaEvolves(w.t.media[m], w'.t.media[m]);
    }
  }

  /** The step that removes a room's objects, when the store reports success, leaves none of them and touches no
      other room's; and the room it is about is not active. */
  lemma PurgeIsExact(w: World, id: nat, c: Choice)
    requires Reachable(w) && id in w.actors && w.actors[id].PurgingRoom? && c.reply == Done
    ensures
      var r := w.actors[id].room;
      var w' := Next(w, Move(id, c));
      && (r in w.t.rooms ==> w.t.rooms[r].status == Deleting)
      && (forall k :: k in w'.objects <==> k in w.objects && k.room != r)
      && (forall k :: k in w'.objects ==> w'.objects[k] == w.objects[k])
  {
    ReachableIsGood(w);
    assert ActorInv(w, w.actors[id]);
  }

  /** The expiry worker removes an object only after its session expired; the media it belongs to is not ready,
      nor can it be in any later state. */
  lemma ExpiryRemovesNoReadyMedia(w: World, id: nat, w': World)
    requires Reachable(w) && Reaches(w, w') && id in w.actors && w.actors[id].RemovingExpired?
    ensures EndedAs(w, w.actors[id].upload.id, Expired)
    ensures forall m :: m in w'.t.media && w'.t.media[m].key == w.actors[id].upload.key ==> w'.t.media[m].status != Ready
  {
    var upload := w.actors[id].upload;
    assert ActorInv(w, w.actors[id]) && HistoryInv(w) && SessionsSound(w.t) && SessionsSound(w'.t) by {
      ReachableIsGood(w);
      ReachesIsLater(w, w');
    }
    hide WorldInv, Later, HistoryInv, LedgerInv, Reachable, Reaches;
    ReachableIsGood(w);
    ReachesIsLater(w, w');
    ActorSurvives(w, w', w.actors[id]);
    EndedMediaIsNotReady(w', upload);
  }

  lemma EndedMediaIsNotReady(w: World, upload: Upload)
    requires WorldInv(w) && Known(w, upload) && EndedAs(w, upload.id, Expired)
    requires upload.key.Original? && upload.key.media == upload.mediaId
    ensures forall m :: m in w.t.media && w.t.media[m].key == upload.key ==> w.t.media[m].status != Ready
  {
    forall m | m in w.t.media && w.t.media[m].key == upload.key
      ensures w.t.media[m].status != Ready
    {
      assert SoundMedia(w.t, m);
      assert m == upload.mediaId;
      assert SoundSession(w.t, upload.id);
    }
  }
}
