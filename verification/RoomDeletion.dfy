/** Who may close and delete a room, and what that leaves behind. */
module RoomDeletion {
  import opened Basics
  import opened Schema
  import opened Transactions
  import opened LedgerInvariant
  import opened LedgerTransactions
  import opened UploadProtocol
  import opened UploadInvariant
  import opened UploadSteps
  import opened UploadTheorems
  import opened Alone

  /** In every reachable state a room has exactly one owner, who is the one who created it. */
  lemma CreatorIsOnlyOwner(w: World, r: Uuid, identity: Uuid)
    requires Reachable(w) && r in w.t.rooms
    ensures (r, identity) in w.t.members && w.t.members[(r, identity)] == OwnerRole <==> identity == w.t.rooms[r].owner
  {
    ReachableIsGood(w);
    Parts(w);
  }

  /** The owner's room. */
  predicate Owns(t: Tables, identity: Uuid, r: Uuid) {
    r in t.rooms && (r, identity) in t.members && t.members[(r, identity)] == OwnerRole
  }

  predicate Named(t: Tables, slug: string, r: Uuid) {
    r in t.rooms && t.rooms[r].slug == slug
  }

  lemma NamedIsFound(t: Tables, slug: string, r: Uuid)
    requires RoomsSound(t) && Named(t, slug, r)
    ensures RoomWithSlug(t, slug) == Some(r) && forall x: Uuid :: Named(t, slug, x) ==> x == r
  {
    SlugFindsOne(t, r, slug);
    OnlyRoom(t, r, slug);
  }

  /** The first step reads the room and the role. */
  lemma DeletionReads(w: World, identity: Uuid, slug: string, r: Uuid, c: Choice)
    requires WorldInv(w) && Named(w.t, slug, r)
    ensures
      var (w', a) := Step(w, DeletingRoom(identity, slug), c);
      var room := w.t.rooms[r];
      && w' == w
      && (a == Finished(Refused(RoomNotFound)) <==> (r, identity) !in w.t.members)
      && (a == Finished(Refused(OwnerRequired)) <==> (r, identity) in w.t.members && !Owns(w.t, identity, r))
      && (a == Finished(ScheduledAnswer) <==> Owns(w.t, identity, r) && room.status == Deleting)
      && (a == Finished(Refused(RoomExpired)) <==>
            Owns(w.t, identity, r) && room.status == Active && room.expiresAt <= w.now)
      && (a == SchedulingRoom(identity, slug) <==> Owns(w.t, identity, r) && room.status == Active && w.now < room.expiresAt)
  {
    Parts(w);
    NamedIsFound(w.t, slug, r);
    hide WorldInv, RoomWithSlug, LedgerInv;
  }

  /** The room is closed to uploads and marked for the cleanup worker; nothing else changes. */
  predicate Scheduled(t: Tables, t': Tables, r: Uuid) {
    r in t.rooms && t' == t.(rooms := t.rooms[r := t.rooms[r].(status := Deleting, accepting := false)])
  }

  /** The statement marks a room that is still active, and finds none otherwise. */
  lemma SchedulingDecides(w: World, identity: Uuid, slug: string, r: Uuid, c: Choice)
    requires WorldInv(w) && Named(w.t, slug, r) && Owns(w.t, identity, r)
    ensures
      var (w', a) := Step(w, SchedulingRoom(identity, slug), c);
      && w'.objects == w.objects
      && (if w.t.rooms[r].status == Active then Scheduled(w.t, w'.t, r) && a == Finished(ScheduledAnswer)
          else w'.t == w.t && a == Finished(Refused(RoomNotFound)))
  {
    Parts(w);
    NamedIsFound(w.t, slug, r);
    hide WorldInv, RoomWithSlug, LedgerInv, EndedNow;
  }

  lemma FoundIsNamed(t: Tables, slug: string)
    ensures RoomWithSlug(t, slug).Some? ==> Named(t, slug, RoomWithSlug(t, slug).value)
  {
  }

  lemma NoSuchRoom(w: World, identity: Uuid, slug: string, c: Choice)
    requires forall r: Uuid :: !Named(w.t, slug, r)
    ensures Step(w, DeletingRoom(identity, slug), c) == (w, Finished(Refused(RoomNotFound)))
  {
    FoundIsNamed(w.t, slug);
  }

  /** What room Delete comes to for a room of which the identity is a member. */
  ghost predicate Decided(w: World, w': World, r: Uuid, identity: Uuid, o: Outcome)
    requires r in w.t.rooms
  {
    var (room, owner) := (w.t.rooms[r], identity == w.t.rooms[r].owner);
    && (o == Refused(OwnerRequired) <==> !owner)
    && (o == Refused(RoomExpired) <==> owner && room.status == Active && room.expiresAt <= w.now)
    && (o == ScheduledAnswer <==> owner && (room.status == Deleting || w.now < room.expiresAt))
    && (o == ScheduledAnswer ==> if room.status == Active then Scheduled(w.t, w'.t, r) else w'.t == w.t)
  }

  lemma NamedAlone(w: World, id: nat, identity: Uuid, slug: string, r: Uuid, c: Choice)
    requires WorldInv(w) && Named(w.t, slug, r)
    requires Owns(w.t, identity, r) <==> identity == w.t.rooms[r].owner
    ensures
      var w' := Run(At(w, id, DeletingRoom(identity, slug)), Repeat(id, c, 2));
      && id in w'.actors && w'.actors[id].Finished?
      && var o := w'.actors[id].outcome;
      && (o == Refused(RoomNotFound) <==> (r, identity) !in w.t.members)
      && (o.Refused? ==> w'.t == w.t)
      && ((r, identity) in w.t.members ==> Decided(w, w', r, identity, o))
  {
    hide WorldInv, Run, Step, Repeat, Named;
    var a := DeletingRoom(identity, slug);
    DeletionReads(w, identity, slug, r, c);
    if Step(w, a, c).1.Finished? {
      LastMove(w, w, id, a, Step(w, a, c).1.outcome, c, 2);
    } else {
      SchedulingDecides(w, identity, slug, r, c);
      Moves(w, w, id, a, SchedulingRoom(identity, slug), c, 2);
      LastMove(w, Step(w, SchedulingRoom(identity, slug), c).0, id, SchedulingRoom(identity, slug), ScheduledAnswer, c, 1);
    }
  }

  /** Room Delete from start to end, in any reachable state, while nobody else moves. */
  lemma RoomDeleteAlone(w: World, id: nat, identity: Uuid, slug: string, c: Choice)
    requires Reachable(w) && id !in w.actors
    ensures
      var w' := Run(w, Events(id, DeletingRoom(identity, slug), c, 2));
      && id in w'.actors && w'.actors[id].Finished?
      && var o := w'.actors[id].outcome;
      && (o == Refused(RoomNotFound) <==> forall r: Uuid :: Named(w.t, slug, r) ==> (r, identity) !in w.t.members)
      && (o.Refused? ==> w'.t == w.t)
      && forall r: Uuid :: Named(w.t, slug, r) && (r, identity) in w.t.members ==> Decided(w, w', r, identity, o)
  {
    hide Reachable, WorldInv, Run, Step, Events, Repeat, RoomsSound, Decided;
    ReachableIsGood(w);
    Parts(w);
    var a := DeletingRoom(identity, slug);
    Begins(w, id, a, c, 2);
    if r: Uuid :| Named(w.t, slug, r) {
      NamedIsFound(w.t, slug, r);
      CreatorIsOnlyOwner(w, r, identity);
      NamedAlone(w, id, identity, slug, r, c);
    } else {
      NoSuchRoom(w, identity, slug, c);
      LastMove(w, w, id, a, Refused(RoomNotFound), c, 2);
    }
  }

  /** Closing a room to uploads, or opening it again: the owner may, while it is active and not over. */
  lemma AcceptingExactly(w: World, r: Uuid, identity: Uuid, accepting: bool)
    requires Reachable(w)
    ensures
      var (t', answer) := SetAccepting(w.t, r, identity, accepting, w.now);
      && (answer == Err(RoomNotFound) <==> r !in w.t.rooms || (r, identity) !in w.t.members)
      && (r in w.t.rooms && (r, identity) in w.t.members ==>
            && var (room, owner) := (w.t.rooms[r], identity == w.t.rooms[r].owner);
            && (answer == Err(OwnerRequired) <==> !owner)
            && (answer == Err(RoomExpired) <==> owner && (room.status == Deleting || room.expiresAt <= w.now))
            && (answer == Ok(()) <==> owner && room.status == Active && w.now < room.expiresAt)
            && (answer == Ok(()) ==> t' == w.t.(rooms := w.t.rooms[r := room.(accepting := accepting)])))
      && (answer.Err? ==> t' == w.t)
  {
    if r in w.t.rooms {
      CreatorIsOnlyOwner(w, r, identity);
    }
    hide Reachable;
  }

  /** Joining makes a member of whoever is none, and changes nobody's role. */
  lemma JoinExactly(t: Tables, r: Uuid, identity: Uuid)
    ensures
      var t' := Join(t, r, identity);
      && t' == t.(members := t'.members)
      && (forall k :: k in t'.members <==> k in t.members || (k == (r, identity) && r in t.rooms))
      && (forall k :: k in t'.members ==> t'.members[k] == if k in t.members then t.members[k] else MemberRole)
  {
  }
}
