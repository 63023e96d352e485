/** What Initiate answers, and what a granted upload reserves. */
module Initiation {
  import opened Basics
  import opened InitiateRequest
  import opened Schema
  import opened Transactions
  import opened LedgerInvariant
  import opened LedgerTransactions
  import opened UploadProtocol
  import opened UploadInvariant
  import opened UploadSteps
  import opened UploadTheorems
  import opened Alone

  /** The room lets this upload in. */
  predicate Admits(t: Tables, r: Uuid, identity: Uuid, size: int, now: Time) {
    && r in t.rooms && (r, identity) in t.members
    && t.rooms[r].status == Active && now < t.rooms[r].expiresAt && t.rooms[r].accepting
    && t.rooms[r].usedFiles + t.rooms[r].reservedFiles + 1 <= t.rooms[r].maxFiles
    && t.rooms[r].usedBytes + t.rooms[r].reservedBytes + size <= t.rooms[r].maxBytes
  }

  /** More than 100 MiB go up in parts of 16 MiB, the last of which may be shorter. */
  predicate Divided(kind: UploadKind, size: int, storageUpload: nat) {
    if size <= 104_857_600 then kind == Single
    else
      && kind.Multipart? && kind == Multipart(storageUpload, 16_777_216, kind.partsCount)
      && (kind.partsCount - 1) * 16_777_216 < size <= kind.partsCount * 16_777_216
  }

  /** It lasts a day, but no longer than its room. */
  predicate Lasts(expiresAt: Time, now: Time, roomExpiresAt: Time) {
    && expiresAt <= now + DAY && expiresAt <= roomExpiresAt
    && (expiresAt == now + DAY || expiresAt == roomExpiresAt)
  }

  /** `t'` is `t` with one more pending media, its session, and the reservation in the room's counters. */
  predicate Granted(t: Tables, t': Tables, r: Uuid, identity: Uuid, key: Uuid, input: Input, hash: Digest, now: Time, c: Choice) {
    && r in t.rooms && c.uploadId in t'.sessions
    && var (room, session) := (t.rooms[r], t'.sessions[c.uploadId]);
    && t' == Tables(
        t.rooms[r := room.(reservedFiles := room.reservedFiles + 1, reservedBytes := room.reservedBytes + input.sizeBytes)],
        t.media[c.mediaId := Media(r, identity, Pending, input.sizeBytes, Original(r, c.mediaId), now)],
        t.sessions[c.uploadId := session],
        t.members)
    && session == Session(c.mediaId, identity, session.kind, Initiated, now, session.expiresAt, key, hash)
    && Divided(session.kind, input.sizeBytes, c.storageUpload)
    && Lasts(session.expiresAt, now, room.expiresAt)
  }

  lemma ReserveGrants(t: Tables, r: Uuid, identity: Uuid, key: Uuid, input: Input, hash: Digest, now: Time, c: Choice)
    requires r in t.rooms
    ensures Granted(t, Reserve(t, r, identity, key, input, hash, now, c.mediaId, c.uploadId, c.storageUpload),
                    r, identity, key, input, hash, now, c)
  {
  }

  /** What a new request under a new key comes to in its transaction. */
  lemma SubmitDecides(w: World, a: Actor, c: Choice, input: Input)
    requires WorldInv(w) && a.Initiating? && 0 < input.sizeBytes <= MAX_VIDEO_SIZE && NewChoice(w, c) && c.reply == Done
    requires forall s :: !HasKey(w.t, s, a.identity, a.key)
    ensures
      var (t', answer) := Submit(w, a, c, input);
      && (forall r :: r in w.t.rooms && w.t.rooms[r].slug == a.slug && Admits(w.t, r, a.identity, input.sizeBytes, w.now) ==>
            && Granted(w.t, t', r, a.identity, a.key, input, Hash(a.slug, input), w.now, c)
            && Joined(t', c.uploadId) && answer == Ok(View(t', c.uploadId)))
      && var admission := LockRoomForUpload(w.t, a.identity, a.slug, input.sizeBytes, w.now);
      && (answer.Ok? <==> admission.Ok?)
      && (answer.Err? ==> t' == w.t && answer.error == admission.error)
  {
    Parts(w);
    assert c.mediaId !in w.t.media && c.uploadId !in w.t.sessions;
    hide WorldInv, HistoryInv, LedgerInv, Granted, Keeps, Hash, View, Reserve, Checked, FindIdempotent;
    KeyNotFound(w.t, a.identity, a.key);
    var answer := LockRoomForUpload(w.t, a.identity, a.slug, input.sizeBytes, w.now);
    forall r | r in w.t.rooms && w.t.rooms[r].slug == a.slug && Admits(w.t, r, a.identity, input.sizeBytes, w.now)
      ensures answer == Ok(r)
    {
      AdmittedExactly(w.t, a.identity, a.slug, input.sizeBytes, w.now, r);
    }
    if answer.Ok? {
      var r := answer.value;
      hide LockRoomForUpload, Admits;
      AdmittedRoom(w.t, a.identity, a.slug, input.sizeBytes, w.now, r);
      InitiateReserves(w.t, a.identity, a.key, a.slug, input, w.now, c.mediaId, c.uploadId, Some(c.storageUpload), r);
      ReserveGrants(w.t, r, a.identity, a.key, input, Hash(a.slug, input), w.now, c);
    }
  }

  /** Why a request under a new key is refused. */
  predicate RefusedFor(t: Tables, r: Uuid, identity: Uuid, size: int, now: Time, error: Error)
    requires r in t.rooms
  {
    var (room, member) := (t.rooms[r], (r, identity) in t.members);
    var open := room.status == Active && now < room.expiresAt;
    if !member then error == NotMember
    else if !open then error == RoomExpired
    else if !room.accepting then error == UploadsClosed
    else error == RoomLimitReached && !Admits(t, r, identity, size, now)
  }

  lemma InvalidStep(w: World, a: Actor, c: Choice)
    requires a.Initiating? && Validate(a.input).None?
    ensures Step(w, a, c) == (w, Finished(Refused(InvalidInput)))
  {
    hide Validate;
  }

  lemma SubmitStep(w: World, a: Actor, c: Choice, input: Input)
    requires a.Initiating? && NewChoice(w, c) && Validate(a.input).Some? && Validate(a.input).value.1 == input
    ensures
      var (t', answer) := Submit(w, a, c, input);
      var (w', a') := Step(w, a, c);
      && w'.t == t' && w'.objects == w.objects && w'.now == w.now
      && (answer.Err? ==> a' == Finished(Refused(answer.error)) && w'.multiparts == w.multiparts)
      && (answer.Ok? ==> a' == Attaching(a.identity, a.key, Hash(a.slug, input), answer.value))
  {
    hide Validate, Submit, Hash, EndedNow, NewChoice;
  }

  lemma AttachStep(w: World, a: Actor, c: Choice)
    requires a.Attaching? && a.upload.status.Live() && w.now < a.upload.expiresAt && c.reply == Done
    ensures Step(w, a, c) == (w, Finished(UploadAnswer(a.identity, a.key, a.hash, a.upload)))
  {
  }

  lemma GrantedIsOpen(t: Tables, t': Tables, r: Uuid, identity: Uuid, key: Uuid, input: Input, hash: Digest, now: Time, c: Choice)
    requires Granted(t, t', r, identity, key, input, hash, now, c) && now < t.rooms[r].expiresAt && Joined(t', c.uploadId)
    ensures View(t', c.uploadId).status.Live() && now < View(t', c.uploadId).expiresAt
  {
  }

  /** The outcome of a validated request under a new key. */
  ghost predicate Decided(w: World, w': World, a: Actor, input: Input, c: Choice, o: Outcome)
    requires a.Initiating?
  {
    && (o.Refused? ==> w'.t == w.t && w'.objects == w.objects && w'.multiparts == w.multiparts)
    && (o == Refused(RoomNotFound) <==> forall r :: r in w.t.rooms ==> w.t.rooms[r].slug != a.slug)
    && forall r :: r in w.t.rooms && w.t.rooms[r].slug == a.slug ==>
        if Admits(w.t, r, a.identity, input.sizeBytes, w.now) then
          && Granted(w.t, w'.t, r, a.identity, a.key, input, Hash(a.slug, input), w.now, c)
          && Joined(w'.t, c.uploadId)
          && o == UploadAnswer(a.identity, a.key, Hash(a.slug, input), View(w'.t, c.uploadId))
        else
          o.Refused? && RefusedFor(w.t, r, a.identity, input.sizeBytes, w.now, o.error)
  }

  lemma NeverInvalid(t: Tables, identity: Uuid, slug: string, size: int, now: Time)
    ensures LockRoomForUpload(t, identity, slug, size, now) != Err(InvalidInput)
  {
  }

  lemma RefusalDecided(w: World, w': World, a: Actor, input: Input, c: Choice, error: Error)
    requires LedgerInv(w.t) && a.Initiating? && 0 < input.sizeBytes <= MAX_VIDEO_SIZE
    requires LockRoomForUpload(w.t, a.identity, a.slug, input.sizeBytes, w.now) == Err(error)
    requires w'.t == w.t && w'.objects == w.objects && w'.multiparts == w.multiparts
    ensures Decided(w, w', a, input, c, Refused(error))
  {
    hide LedgerInv, LockRoomForUpload, Hash, View, Granted;
    RefusedExactly(w.t, a.identity, a.slug, input.sizeBytes, w.now);
    forall r | r in w.t.rooms && w.t.rooms[r].slug == a.slug
      ensures !Admits(w.t, r, a.identity, input.sizeBytes, w.now)
      ensures RefusedFor(w.t, r, a.identity, input.sizeBytes, w.now, error)
    {
      AdmittedExactly(w.t, a.identity, a.slug, input.sizeBytes, w.now, r);
    }
  }

  lemma AdmittedIsFound(w: World, a: Actor, size: int)
    requires LedgerInv(w.t) && a.Initiating? && 0 < size <= MAX_VIDEO_SIZE
    requires LockRoomForUpload(w.t, a.identity, a.slug, size, w.now).Ok?
    ensures
      var r := LockRoomForUpload(w.t, a.identity, a.slug, size, w.now).value;
      && r in w.t.rooms && w.t.rooms[r].slug == a.slug && Admits(w.t, r, a.identity, size, w.now)
      && forall x :: x in w.t.rooms && w.t.rooms[x].slug == a.slug ==> x == r
  {
    var r := LockRoomForUpload(w.t, a.identity, a.slug, size, w.now).value;
    AdmittedExactly(w.t, a.identity, a.slug, size, w.now, r);
    OnlyRoom(w.t, r, a.slug);
  }

  lemma GrantDecided(w: World, w': World, a: Actor, input: Input, c: Choice, r: Uuid)
    requires a.Initiating? && r in w.t.rooms && w.t.rooms[r].slug == a.slug
    requires Admits(w.t, r, a.identity, input.sizeBytes, w.now)
    requires forall x :: x in w.t.rooms && w.t.rooms[x].slug == a.slug ==> x == r
    requires Granted(w.t, w'.t, r, a.identity, a.key, input, Hash(a.slug, input), w.now, c) && Joined(w'.t, c.uploadId)
    ensures Decided(w, w', a, input, c, UploadAnswer(a.identity, a.key, Hash(a.slug, input), View(w'.t, c.uploadId)))
  {
    hide Admits, Granted, Hash, View;
  }

  lemma GrantedWhenAdmitted(t: Tables, t': Tables, r: Uuid, a: Actor, input: Input, now: Time, c: Choice)
    requires a.Initiating? && Admits(t, r, a.identity, input.sizeBytes, now) && Joined(t', c.uploadId)
    requires Granted(t, t', r, a.identity, a.key, input, Hash(a.slug, input), now, c)
    ensures View(t', c.uploadId).status.Live() && now < View(t', c.uploadId).expiresAt
  {
    hide Hash;
    GrantedIsOpen(t, t', r, a.identity, a.key, input, Hash(a.slug, input), now, c);
  }

  lemma RefusedAlone(w: World, id: nat, a: Actor, c: Choice, input: Input, error: Error)
    requires WorldInv(w) && a.Initiating? && 0 < input.sizeBytes <= MAX_VIDEO_SIZE
    requires LockRoomForUpload(w.t, a.identity, a.slug, input.sizeBytes, w.now) == Err(error)
    requires Step(w, a, c).1 == Finished(Refused(error))
    requires
      var v := Step(w, a, c).0;
      v.t == w.t && v.objects == w.objects && v.multiparts == w.multiparts
    ensures
      var w' := Run(At(w, id, a), Repeat(id, c, 2));
      && id in w'.actors && w'.actors[id] == Finished(Refused(error))
      && Decided(w, w', a, input, c, Refused(error)) && error != InvalidInput
  {
    hide WorldInv, LedgerInv, Run, Step, Repeat, Decided, LockRoomForUpload;
    Parts(w);
    LastMove(w, Step(w, a, c).0, id, a, Refused(error), c, 2);
    NeverInvalid(w.t, a.identity, a.slug, input.sizeBytes, w.now);
    RefusalDecided(w, At(Step(w, a, c).0, id, Finished(Refused(error))), a, input, c, error);
  }

  lemma GrantedAlone(w: World, id: nat, a: Actor, c: Choice, input: Input, r: Uuid)
    requires a.Initiating? && c.reply == Done && r in w.t.rooms && w.t.rooms[r].slug == a.slug
    requires Admits(w.t, r, a.identity, input.sizeBytes, w.now)
    requires forall x :: x in w.t.rooms && w.t.rooms[x].slug == a.slug ==> x == r
    requires
      var (v, a') := Step(w, a, c);
      && Granted(w.t, v.t, r, a.identity, a.key, input, Hash(a.slug, input), w.now, c)
      && Joined(v.t, c.uploadId) && v.now == w.now
      && a' == Attaching(a.identity, a.key, Hash(a.slug, input), View(v.t, c.uploadId))
    ensures
      var w' := Run(At(w, id, a), Repeat(id, c, 2));
      && id in w'.actors && w'.actors[id].Finished? && w'.actors[id].outcome.UploadAnswer?
      && Decided(w, w', a, input, c, w'.actors[id].outcome)
  {
    hide Run, Step, Repeat, Granted, Admits, Hash, Decided, View;
    var (v, a') := Step(w, a, c);
    GrantedWhenAdmitted(w.t, v.t, r, a, input, w.now, c);
    AttachStep(v, a', c);
    var o := UploadAnswer(a.identity, a.key, Hash(a.slug, input), View(v.t, c.uploadId));
    Moves(w, v, id, a, a', c, 2);
    LastMove(v, v, id, a', o, c, 1);
    GrantDecided(w, At(v, id, Finished(o)), a, input, c, r);
  }

  lemma ValidAlone(w: World, id: nat, a: Actor, c: Choice, input: Input)
    requires WorldInv(w) && a.Initiating? && NewChoice(w, c) && c.reply == Done
    requires forall s :: !HasKey(w.t, s, a.identity, a.key)
    requires Validate(a.input).Some? && Validate(a.input).value.1 == input
    ensures
      var w' := Run(At(w, id, a), Repeat(id, c, 2));
      && id in w'.actors && w'.actors[id].Finished?
      && Decided(w, w', a, input, c, w'.actors[id].outcome) && w'.actors[id].outcome != Refused(InvalidInput)
  {
    hide WorldInv, LedgerInv, HistoryInv, Run, Step, Validate, Repeat, HasKey, Submit, Granted, Admits, Hash, Decided;
    hide View, NewChoice, LockRoomForUpload;
    ValidSize(a.input);
    Parts(w);
    SubmitDecides(w, a, c, input);
    SubmitStep(w, a, c, input);
    if Submit(w, a, c, input).1.Err? {
      RefusedAlone(w, id, a, c, input, Submit(w, a, c, input).1.error);
    } else {
      AdmittedIsFound(w, a, input.sizeBytes);
      GrantedAlone(w, id, a, c, input, LockRoomForUpload(w.t, a.identity, a.slug, input.sizeBytes, w.now).value);
    }
  }

  /** Initiate from start to end with a key that was not used, in any reachable state, while nobody else moves and
      the store works. */
  lemma InitiateAlone(w: World, id: nat, identity: Uuid, key: Uuid, slug: string, input: Input, c: Choice)
    requires Reachable(w) && id !in w.actors && NewChoice(w, c) && c.reply == Done
    requires forall s :: !HasKey(w.t, s, identity, key)
    ensures
      var w' := Run(w, Events(id, Initiating(identity, key, slug, input), c, 2));
      && id in w'.actors && w'.actors[id].Finished?
      && var o := w'.actors[id].outcome;
      && (o == Refused(InvalidInput) <==> Validate(input).None?)
      && (Validate(input).None? ==> w'.t == w.t)
      && (Validate(input).Some? ==> Decided(w, w', Initiating(identity, key, slug, input), Validate(input).value.1, c, o))
  {
    hide Reachable, WorldInv, Run, Step, Validate, Events, Repeat, HasKey, Decided, NewChoice;
    var a := Initiating(identity, key, slug, input);
    ReachableIsGood(w);
    Begins(w, id, a, c, 2);
    if Validate(input).None? {
      InvalidStep(w, a, c);
      LastMove(w, w, id, a, Refused(InvalidInput), c, 2);
    } else {
      ValidAlone(w, id, a, c, Validate(input).value.1);
    }
  }
}
