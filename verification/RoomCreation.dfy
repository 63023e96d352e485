/** Room creation under an idempotency key, while other rooms are created and removed. */
module RoomCreation {
  import opened Basics
  import opened InitiateRequest
  import opened Schema
  import opened Text
  import opened Transactions
  import opened RoomRequest
  import opened Validation

  /** A row of room_creation_requests. Only rows of finished requests are ever seen by others. */
  datatype Request = Request(hash: Digest, room: Uuid)

  datatype State = State(t: Tables, requests: map<(Uuid, Uuid), Request>)

  /** What the service supplies to a creation: a new identifier, the generated slugs, and the clock. */
  datatype Supply = Supply(room: Uuid, slugs: seq<string>, maxFiles: int, maxBytes: int, now: Time)

  function Trimmed(input: CreateInput): CreateInput {
    input.(name := TrimSpace(input.name))
  }

  /** The transaction of Create. */
  function Create(s: State, identity: Uuid, key: Uuid, input: CreateInput, supply: Supply): (State, Result<Uuid, Error>) {
    var trimmed := Trimmed(input);
    if !Acceptable(trimmed) then (s, Err(InvalidInput))
    else
      var hash := Sha256(CreateText(trimmed));
      if (identity, key) in s.requests then
        var found := s.requests[(identity, key)];
        if found.hash != hash then (s, Err(IdempotencyConflict))
        else if found.room !in s.t.rooms || (found.room, identity) !in s.t.members then (s, Err(NoRows))
        else (s, Ok(found.room))
      else
        match FirstFreeSlug(s.t, supply.slugs)
        case None => (s, Err(NoRows))
        case Some(slug) =>
          var room := NewRoom(slug, identity, supply.maxFiles, supply.maxBytes, supply.now,
                              supply.now + input.lifetimeDays * DAY);
          var (t', answer) := InsertRoom(s.t, supply.room, room);
          if answer.Err? then (s, Err(answer.error))
          else (State(t', s.requests[(identity, key) := Request(hash, supply.room)]), Ok(supply.room))
  }

  /** DELETE FROM rooms takes the requests of the room along. */
  function Drop(s: State, r: Uuid): State {
    var t' := DropRoom(s.t, r);
    State(t', map k | k in s.requests && s.requests[k].room in t'.rooms :: s.requests[k])
  }

  datatype Event =
    | Creation(identity: Uuid, key: Uuid, input: CreateInput, supply: Supply)
    | Join(room: Uuid, identity: Uuid)
    | Removal(room: Uuid)
    | Schedule(room: Uuid, identity: Uuid)

  function Next(s: State, e: Event): State {
    match e
    case Creation(identity, key, input, supply) => Create(s, identity, key, input, supply).0
    case Join(r, identity) => s.(t := Transactions.Join(s.t, r, identity))
    case Removal(r) => Drop(s, r)
    case Schedule(r, identity) => s.(t := ScheduleDeletion(s.t, r, identity).0)
  }

  function Run(s: State, events: seq<Event>): State
    decreases |events|
  {
    if events == [] then s else Run(Next(s, events[0]), events[1..])
  }

  /** Every request belongs to a room that is there, and its sender is the owner and a member of it. */
  ghost predicate RequestsSound(s: State) {
    forall k :: k in s.requests ==>
      && s.requests[k].room in s.t.rooms && s.t.rooms[s.requests[k].room].owner == k.0
      && (s.requests[k].room, k.0) in s.t.members
  }

  lemma NextKeepsRequests(s: State, e: Event)
    requires RequestsSound(s)
    ensures RequestsSound(Next(s, e))
  {
    hide Acceptable, CreateText, TrimSpace, FirstFreeSlug, RoomChecks;
  }

  /** One step keeps a request for as long as its room is there. */
  lemma NextKeepsRequest(s: State, e: Event, k: (Uuid, Uuid))
    requires RequestsSound(s) && k in s.requests
    ensures s.requests[k].room in Next(s, e).t.rooms ==> k in Next(s, e).requests && Next(s, e).requests[k] == s.requests[k]
  {
    hide Acceptable, CreateText, TrimSpace, FirstFreeSlug, RoomChecks;
  }

  /** The request under key `k` after a run in which its room was there all the time. */
  ghost predicate Survives(s: State, events: seq<Event>, r: Uuid)
    decreases |events|
  {
    r in s.t.rooms && (events != [] ==> Survives(Next(s, events[0]), events[1..], r))
  }

  lemma {:induction false} RequestSurvives(s: State, events: seq<Event>, k: (Uuid, Uuid))
    requires RequestsSound(s) && k in s.requests && Survives(s, events, s.requests[k].room)
    ensures RequestsSound(Run(s, events))
    ensures k in Run(s, events).requests && Run(s, events).requests[k] == s.requests[k]
    decreases |events|
  {
    hide RequestsSound, Next;
    if events != [] {
      NextKeepsRequests(s, events[0]);
      NextKeepsRequest(s, events[0], k);
      assert Survives(Next(s, events[0]), events[1..], s.requests[k].room);
      RequestSurvives(Next(s, events[0]), events[1..], k);
    }
  }

  /** A creation that was answered with room `r` is repeated by every creation under the same key for as long as
      the room exists: the same text gets the same room, another text is a conflict, and nothing changes. Between
      requests whose names are free of separators, "the same text" means the same request. */
  lemma CreationIsIdempotent(s: State, identity: Uuid, key: Uuid, input: CreateInput, supply: Supply, events: seq<Event>,
                             input': CreateInput, supply': Supply)
    requires RequestsSound(s) && Create(s, identity, key, input, supply).1.Ok?
    requires
      var (s1, answer) := Create(s, identity, key, input, supply);
      Survives(s1, events, answer.value)
    requires Acceptable(Trimmed(input'))
    ensures
      var (s1, answer) := Create(s, identity, key, input, supply);
      var s2 := Run(s1, events);
      var same := CreateText(Trimmed(input')) == CreateText(Trimmed(input));
      && Create(s2, identity, key, input', supply') == (s2, if same then answer else Err(IdempotencyConflict))
      && (NUL !in TrimSpace(input.name) && NUL !in TrimSpace(input'.name) ==> (same <==> Trimmed(input') == Trimmed(input)))
  {
    var (s1, answer) := Create(s, identity, key, input, supply);
    CreationRecords(s, identity, key, input, supply);
    NextKeepsRequests(s, Creation(identity, key, input, supply));
    hide Acceptable, CreateText, TrimSpace, FirstFreeSlug, Next, Run, Survives;
    RequestSurvives(s1, events, (identity, key));
    if NUL !in TrimSpace(input.name) && NUL !in TrimSpace(input'.name) {
      CreateTextIsInjective(Trimmed(input'), Trimmed(input));
    }
  }

  lemma CreationRecords(s: State, identity: Uuid, key: Uuid, input: CreateInput, supply: Supply)
    requires Create(s, identity, key, input, supply).1.Ok?
    ensures
      var (s1, answer) := Create(s, identity, key, input, supply);
      && Acceptable(Trimmed(input)) && (identity, key) in s1.requests
      && s1.requests[(identity, key)] == Request(Sha256(CreateText(Trimmed(input))), answer.value)
  {
    hide Acceptable, CreateText, TrimSpace, FirstFreeSlug, InsertRoom;
  }

  // ---- What a creation comes to ----

  predicate AccessFits(mode: string, secret: string) {
    match mode
    case "public" => secret == ""
    case "pin" => 4 <= |secret| <= 8 && forall i :: 0 <= i < |secret| ==> '0' <= secret[i] <= '9'
    case "password" => 6 <= |secret| <= 72
    case _ => false
  }

  predicate InUse(t: Tables, slug: string) {
    exists r :: r in t.rooms && t.rooms[r].slug == slug
  }

  /** The first of the slugs that is free. */
  predicate Chosen(t: Tables, slugs: seq<string>, i: int) {
    0 <= i < |slugs| && !InUse(t, slugs[i]) && forall j :: 0 <= j < i ==> InUse(t, slugs[j])
  }

  lemma {:induction false} FirstFreeExactly(t: Tables, slugs: seq<string>)
    ensures FirstFreeSlug(t, slugs).None? <==> forall i :: 0 <= i < |slugs| ==> InUse(t, slugs[i])
    ensures FirstFreeSlug(t, slugs).Some? ==>
      exists i :: Chosen(t, slugs, i) && FirstFreeSlug(t, slugs) == Some(slugs[i])
    decreases |slugs|
  {
    if slugs != [] {
      FirstFreeExactly(t, slugs[1..]);
      assert SlugTaken(t, slugs[0]) <==> InUse(t, slugs[0]);
      hide SlugTaken, InUse;
      if !InUse(t, slugs[0]) {
        assert Chosen(t, slugs, 0);
      } else if FirstFreeSlug(t, slugs[1..]).Some? {
        var i :| Chosen(t, slugs[1..], i) && FirstFreeSlug(t, slugs[1..]) == Some(slugs[1..][i]);
        assert forall j :: 0 < j < |slugs| ==> slugs[j] == slugs[1..][j - 1];
        assert Chosen(t, slugs, i + 1);
      } else {
        assert forall j :: 0 < j < |slugs| ==> slugs[j] == slugs[1..][j - 1];
      }
    }
  }

  lemma AcceptableExactly(input: CreateInput)
    ensures Acceptable(input) <==>
      && TrimSpace(input.name) == input.name && 1 <= |input.name| <= 120 && 1 <= input.lifetimeDays <= 3
      && AccessFits(input.accessMode, input.secret)
  {
    hide TrimSpace;
  }

  /** A creation under a new key opens a room under the first slug that is free, with its sender as owner, and is
      refused exactly when the request is not acceptable or no slug is free. */
  lemma CreationExactly(s: State, identity: Uuid, key: Uuid, input: CreateInput, supply: Supply)
    requires (identity, key) !in s.requests && supply.room !in s.t.rooms && BoundedLimits(supply.maxFiles, supply.maxBytes)
    ensures
      var (s', answer) := Create(s, identity, key, input, supply);
      var fits := 1 <= |TrimSpace(input.name)| <= 120 && 1 <= input.lifetimeDays <= 3 && AccessFits(input.accessMode, input.secret);
      && (answer == Err(InvalidInput) <==> !fits)
      && (answer == Err(NoRows) <==>
            fits && forall i :: 0 <= i < |supply.slugs| ==> InUse(s.t, supply.slugs[i]))
      && (answer.Err? ==> s' == s && (answer.error == InvalidInput || answer.error == NoRows))
      && (answer.Ok? ==>
            && answer.value == supply.room
            && exists i :: Chosen(s.t, supply.slugs, i)
                 && s'.t == s.t.(
                   rooms := s.t.rooms[supply.room := Room(
                     supply.slugs[i], identity, Active, true, supply.maxFiles, supply.maxBytes, 0, 0, 0, 0,
                     supply.now, supply.now + input.lifetimeDays * DAY)],
                   members := s.t.members[(supply.room, identity) := OwnerRole]))
  {
    TrimIsIdempotent(input.name);
    AcceptableExactly(Trimmed(input));
    FirstFreeExactly(s.t, supply.slugs);
    hide Acceptable, TrimSpace, CreateText, AccessFits, FirstFreeSlug;
    if Acceptable(Trimmed(input)) && FirstFreeSlug(s.t, supply.slugs).Some? {
      var i :| Chosen(s.t, supply.slugs, i) && FirstFreeSlug(s.t, supply.slugs) == Some(supply.slugs[i]);
      hide InUse, InsertRoom;
      NewRoomOpens(s.t, supply.slugs[i], identity, supply, input.lifetimeDays);
    } else {
      hide InUse, InsertRoom;
    }
  }

  lemma NewRoomOpens(t: Tables, slug: string, identity: Uuid, supply: Supply, days: int)
    requires BoundedLimits(supply.maxFiles, supply.maxBytes) && 1 <= days <= 3 && !InUse(t, slug) && supply.room !in t.rooms
    ensures
      var room := NewRoom(slug, identity, supply.maxFiles, supply.maxBytes, supply.now, supply.now + days * DAY);
      InsertRoom(t, supply.room, room) ==
        (t.(rooms := t.rooms[supply.room := room], members := t.members[(supply.room, identity) := OwnerRole]), Ok(()))
  {
    NewRoomPasses(slug, identity, supply, days);
    hide RoomChecks;
  }

  lemma NewRoomPasses(slug: string, identity: Uuid, supply: Supply, days: int)
    requires BoundedLimits(supply.maxFiles, supply.maxBytes) && 1 <= days <= 3
    ensures RoomChecks(NewRoom(slug, identity, supply.maxFiles, supply.maxBytes, supply.now, supply.now + days * DAY))
  {
  }
}
