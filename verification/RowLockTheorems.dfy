/** Row locks never end in a deadlock, and they make each transaction the single step it is elsewhere taken for. */
module RowLockTheorems {
  import opened Basics
  import opened Schema
  import opened Transactions
  import opened LedgerInvariant
  import opened RowLocks
  import opened RowLockSteps

  /** The states that some run reaches from a database that satisfies the ledger invariant and has no transaction
      in flight, for whatever hash function. */
  ghost predicate Reachable(w: World) {
    exists t: Tables, events: seq<Event> :: LedgerInv(t) && w == Run(World(t, map[], map[], w.lockKey), events)
  }

  lemma ReachableIsGood(w: World)
    requires Reachable(w)
    ensures LockInv(w)
  {
    var t: Tables, events: seq<Event> :| LedgerInv(t) && w == Run(World(t, map[], map[], w.lockKey), events);
    RunKeeps(World(t, map[], map[], w.lockKey), events);
  }

  // ---- Deadlocks ----

  /** A row of pending media is locked only by the transaction that holds the lock of its session. */
  lemma PendingMediaIsGuarded(w: World, s: Uuid, j: nat)
    requires LockInv(w) && s in w.t.sessions && w.t.sessions[s].status.Live()
    requires MediaRow(w.t.sessions[s].mediaId) in HeldBy(w.owner, j)
    ensures SessionRow(s) in HeldBy(w.owner, j)
  {
    var m := w.t.sessions[s].mediaId;
    assert TxGood(w, j);
    assert SoundSession(w.t, s);
    assert SessionsUnique(w.t);
    var held, tx := HeldBy(w.owner, j), w.txs[j];
    assert MediaRow(m) in held;
    hide LockInv, LedgerInv, HeldBy;
    match tx
    case EndRoom(upload, _) => assert s != upload.id ==> Apart(w.t, s, upload.id);
    case EndCommit(upload, _) => assert s != upload.id ==> Apart(w.t, s, upload.id);
    case ExpireCommit(x, _, _, _) => assert s != x ==> Apart(w.t, s, x);
    case _ =>
  }

  /** So the expiry worker, which takes session and room before media, never waits. */
  lemma ExpiryNeverWaits(w: World, a: nat, b: nat)
    requires LockInv(w) && a in w.txs && (w.txs[a].ExpirePick? || w.txs[a].ExpireMedia? || w.txs[a].ExpireCommit?)
    ensures !Waits(w, a, b)
  {
    if w.txs[a].ExpireMedia? && Waits(w, a, b) {
      assert TxGood(w, a);
      var s := w.txs[a].s;
      assert MediaRow(w.txs[a].m) in HeldBy(w.owner, b) && SessionRow(s) in HeldBy(w.owner, a);
      PendingMediaIsGuarded(w, s, b);
      assert false;
    }
  }

  /** The order in which everyone else asks for locks. */
  function Rank(x: Resource): nat {
    match x
    case AdvisoryLock(_) => 0
    case SessionRow(_) => 1
    case MediaRow(_) => 2
    case RoomRow(_) => 3
  }

  function WantedRank(w: World, id: nat): nat {
    if id in w.txs && Wanted(w.txs[id], w.lockKey).Some? then Rank(Wanted(w.txs[id], w.lockKey).value) else 4
  }

  lemma HoldersAreFurther(w: World, b: nat, x: Resource)
    requires LockInv(w) && x in HeldBy(w.owner, b)
    ensures b in w.txs
    ensures w.txs[b].ExpirePick? || w.txs[b].ExpireMedia? || w.txs[b].ExpireCommit? || Rank(x) < WantedRank(w, b)
  {
    assert TxGood(w, b);
    hide LockInv, HeldBy, Ongoing, Picked, Settled, NewKey, Admission, LedgerInv;
  }

  /** When a transaction waits for one that waits itself, the latter waits for a lock further on in the order. */
  lemma WaitsGoUp(w: World, a: nat, b: nat, c: nat)
    requires LockInv(w) && Waits(w, a, b) && Waits(w, b, c)
    ensures WantedRank(w, a) < WantedRank(w, b) < 4
  {
    var x := Wanted(w.txs[a], w.lockKey).value;
    assert x in HeldBy(w.owner, b);
    HoldersAreFurther(w, b, x);
    hide LockInv;
    if w.txs[b].ExpirePick? || w.txs[b].ExpireMedia? || w.txs[b].ExpireCommit? {
      ExpiryNeverWaits(w, b, c);
    }
  }

  predicate WaitsAt(w: World, path: seq<nat>, i: nat)
    requires i + 1 < |path|
  {
    Waits(w, path[i], path[i + 1])
  }

  /** A path in the wait-for graph that comes back to where it began. */
  ghost predicate WaitCycle(w: World, path: seq<nat>) {
    |path| >= 2 && path[0] == path[|path| - 1] && forall i :: 0 <= i < |path| - 1 ==> WaitsAt(w, path, i)
  }

  lemma {:induction false} RanksAddUp(w: World, path: seq<nat>, i: nat)
    requires LockInv(w) && WaitCycle(w, path) && i < |path| - 1
    ensures WantedRank(w, path[0]) + i <= WantedRank(w, path[i])
    decreases i
  {
    hide LockInv, WantedRank, Waits;
    if i > 0 {
      RanksAddUp(w, path, i - 1);
      assert WaitsAt(w, path, i - 1) && WaitsAt(w, path, i);
      WaitsGoUp(w, path[i - 1], path[i], path[i + 1]);
    }
  }

  /** No deadlock: in no reachable state do transactions wait for each other in a circle. */
  lemma NoWaitCycle(w: World, path: seq<nat>)
    requires Reachable(w)
    ensures !WaitCycle(w, path)
  {
    ReachableIsGood(w);
    hide LockInv, WantedRank, Waits, Reachable;
    if WaitCycle(w, path) {
      var last := |path| - 2;
      RanksAddUp(w, path, last);
      assert WaitsAt(w, path, last) && WaitsAt(w, path, 0);
      WaitsGoUp(w, path[last], path[0], path[1]);
      assert false;
    }
  }

  /** While transactions are in flight, one of them waits for nobody. */
  lemma SomeoneCanMove(w: World)
    requires Reachable(w) && w.txs != map[]
    ensures exists id :: id in w.txs && forall b :: !Waits(w, id, b)
  {
    ReachableIsGood(w);
    var id :| id in w.txs;
    FollowWaits(w, id);
  }

  lemma {:induction false} FollowWaits(w: World, id: nat)
    requires LockInv(w) && id in w.txs
    ensures exists free :: free in w.txs && forall b :: !Waits(w, free, b)
    decreases 4 - WantedRank(w, id)
  {
    if b :| Waits(w, id, b) {
      assert Wanted(w.txs[id], w.lockKey).value in HeldBy(w.owner, b);
      HoldersAreFurther(w, b, Wanted(w.txs[id], w.lockKey).value);
      if c :| Waits(w, b, c) {
        WaitsGoUp(w, id, b, c);
        FollowWaits(w, b);
      } else {
        assert b in w.txs && forall x :: !Waits(w, b, x);
      }
    }
  }

  // ---- Transactions as single steps ----

  /** What one transaction does to the tables and to other transactions' locks: whoever holds a row lock finds the
      row, at every later moment before it commits, as it was when the lock was granted. */
  lemma LockedRowsAreStable(w: World, e: Event, j: nat, x: Resource)
    requires Reachable(w) && x in HeldBy(w.owner, j) && !(e.Advance? && e.id == j)
    ensures
      var w' := Next(w, e);
      match x
      case SessionRow(s) => s in w.t.sessions ==> s in w'.t.sessions && w'.t.sessions[s] == w.t.sessions[s]
      case MediaRow(m) => m in w.t.media ==> m in w'.t.media && w'.t.media[m] == w.t.media[m]
      case RoomRow(r) => r in w.t.rooms ==> r in w'.t.rooms && w'.t.rooms[r] == w.t.rooms[r]
      case AdvisoryLock(_) => true
  {
    ReachableIsGood(w);
    hide Reachable;
    if e.Advance? && e.id in w.txs {
      StepChangesOnly(w, e.id, e.choice);
      hide LockInv, LedgerInv, Evolves, Step;
    }
  }

  /** Only a commit changes tables. */
  lemma LockStepKeepsTables(w: World, id: nat, tx: Tx, c: Choice)
    requires !Commits(tx)
    ensures LockStep(w, id, tx, c).t == w.t
  {
    hide Expirable, StillLive, NewKey, Admission, RoomWithSlug;
  }

  lemma StepChangesOnly(w: World, id: nat, c: Choice)
    requires LockInv(w) && id in w.txs
    ensures ChangesOnly(w.t, Step(w, id, w.txs[id], c).t, HeldBy(w.owner, id), w.lockKey)
  {
    assert TxGood(w, id) && LedgerInv(w.t);
    hide LockInv, LedgerInv, HeldBy, ChangesOnly, TxInv, Committed, LockStep;
    if Commits(w.txs[id]) {
      CommitChanges(w.t, HeldBy(w.owner, id), w.lockKey, w.txs[id], c);
    } else {
      LockStepKeepsTables(w, id, w.txs[id], c);
      NothingChanges(w.t, HeldBy(w.owner, id), w.lockKey);
    }
  }

  /** A transaction that found its rows fit when it locked them still finds them so when it commits: evaluated as
      one step at that moment, the whole transaction succeeds. For Initiate that takes identifiers that are new and
      a multipart upload that was started when one is needed. */
  lemma CommitsAreAtomic(w: World, id: nat, c: Choice)
    requires Reachable(w) && id in w.txs
    ensures
      match w.txs[id]
      case EndCommit(upload, how) =>
        && StillLive(w.t, upload.id) && EndData(w.t, upload, how).1 == Ok(())
      case ExpireCommit(s, m, r, now) => Expirable(w.t, s, now) && Expire(w.t, s, now).1 == Ok(View(w.t, s))
      case DeleteCommit(m, r) => DeleteMedia(w.t, m, r).1 == Ok(())
      case InitiateCommit(q, r) =>
        InitiateData(w.t, q, c).1.Ok? <==>
          && c.mediaId !in w.t.media && c.uploadId !in w.t.sessions
          && !(q.input.sizeBytes > MULTIPART_THRESHOLD && c.started.None?)
      case _ => true
  {
    ReachableIsGood(w);
    assert TxGood(w, id) && LedgerInv(w.t);
    var held := HeldBy(w.owner, id);
    hide LockInv, LedgerInv, HeldBy, EndData, Expire, DeleteMedia, InitiateData, ChangesOnly, NewKey, Admission, Reachable;
    match w.txs[id]
    case EndCommit(upload, how) => CommitOfEnd(w.t, held, w.lockKey, upload, how);
    case ExpireCommit(s, m, r, now) => CommitOfExpiry(w.t, held, w.lockKey, s, m, r, now);
    case DeleteCommit(m, r) => CommitOfDelete(w.t, held, w.lockKey, m, r);
    case InitiateCommit(q, r) => CommitOfInitiate(w.t, held, w.lockKey, q, r, c);
    case _ =>
  }
}
