/** Sign-in sessions and the rotation of their refresh tokens. */
module Sessions {
  import opened Basics
  import opened Text

  const TOKEN_LENGTH: nat := 43
  const MIN_TOKEN_LENGTH: nat := 32
  const MAX_TOKEN_LENGTH: nat := 256

  datatype AuthSession = AuthSession(
    identity: Uuid, tokenHash: Digest, expiresAt: Time, revokedAt: Option<Time>, lastUsedAt: Time)

  datatype AuthError = InvalidInput | InvalidRefreshToken | TokenTaken

  /** The refresh part of what sign-in and refresh return. */
  datatype Issued = Issued(session: Uuid, identity: Uuid, refreshToken: string, expiresAt: Time)

  // ---- The statements ----

  /** The WHERE clause of Refresh at session `s`; `at` is the time its transaction began. */
  predicate Accepts(sessions: map<Uuid, AuthSession>, s: Uuid, raw: string, at: Time) {
    s in sessions && sessions[s].tokenHash == Sha256(raw) && sessions[s].revokedAt.None? && sessions[s].expiresAt > at
  }

  predicate Taken(sessions: map<Uuid, AuthSession>, token: string) {
    exists s :: s in sessions && sessions[s].tokenHash == Sha256(token)
  }

  function Rotated(sessions: map<Uuid, AuthSession>, s: Uuid, token: string, now: Time): map<Uuid, AuthSession>
    requires s in sessions
  {
    sessions[s := sessions[s].(tokenHash := Sha256(token), lastUsedAt := now)]
  }

  function Revoked(sessions: map<Uuid, AuthSession>, s: Uuid, identity: Uuid, now: Time): map<Uuid, AuthSession> {
    if s in sessions && sessions[s].identity == identity && sessions[s].revokedAt.None?
    then sessions[s := sessions[s].(revokedAt := Some(now))]
    else sessions
  }

  predicate IsActive(sessions: map<Uuid, AuthSession>, s: Uuid, identity: Uuid, now: Time) {
    s in sessions && sessions[s].identity == identity && sessions[s].revokedAt.None? && sessions[s].expiresAt > now
  }

  /** The unique index on token hashes. */
  ghost predicate TokensUnique(sessions: map<Uuid, AuthSession>) {
    forall s, s' :: s in sessions && s' in sessions && sessions[s].tokenHash == sessions[s'].tokenHash ==> s == s'
  }

  // ---- The service ----

  class AuthService {
    var sessions: map<Uuid, AuthSession>
    const refreshTTL: Time

    constructor (refreshTTL: Time)
      ensures this.refreshTTL == refreshTTL && sessions == map[]
    {
      this.refreshTTL, sessions := refreshTTL, map[];
    }

    /** Sign-in with a display name. `id`, `identity` and `token` are new. */
    method CreateAnonymous(displayName: string, clientType: string, id: Uuid, identity: Uuid, token: string, now: Time)
      returns (answer: Result<Issued, AuthError>)
      requires TokensUnique(sessions) && id !in sessions
      modifies this
      ensures TokensUnique(sessions)
      ensures answer.Ok? <==>
        && 1 <= |TrimSpace(displayName)| <= 80 && clientType in {"web", "ios", "android"}
        && !Taken(old(sessions), token)
      ensures answer.Ok? ==>
        && answer.value == Issued(id, identity, token, now + refreshTTL)
        && sessions == old(sessions)[id := AuthSession(identity, Sha256(token), now + refreshTTL, None, now)]
      ensures answer.Err? ==> sessions == old(sessions)
    {
      var name := TrimSpace(displayName);
      if |name| < 1 || |name| > 80 {
        return Err(InvalidInput);
      }
      if clientType != "web" && clientType != "ios" && clientType != "android" {
        return Err(InvalidInput);
      }
      if Taken(sessions, token) {
        return Err(TokenTaken);
      }
      sessions := sessions[id := AuthSession(identity, Sha256(token), now + refreshTTL, None, now)];
      return Ok(Issued(id, identity, token, now + refreshTTL));
    }

    /** Exchange `raw` for `token`, which is new. */
    method Refresh(raw: string, token: string, now: Time) returns (answer: Result<Issued, AuthError>)
      requires TokensUnique(sessions)
      modifies this
      ensures TokensUnique(sessions)
      ensures answer.Ok? <==>
        && MIN_TOKEN_LENGTH <= ByteLength(raw) <= MAX_TOKEN_LENGTH && !Taken(old(sessions), token)
        && exists s :: Accepts(old(sessions), s, raw, now)
      ensures answer.Ok? ==>
        && var s := answer.value.session;
        && Accepts(old(sessions), s, raw, now)
        && sessions == old(sessions)[s := old(sessions)[s].(tokenHash := Sha256(token), lastUsedAt := now)]
        && answer.value == Issued(s, old(sessions)[s].identity, token, old(sessions)[s].expiresAt)
      ensures answer.Err? ==> sessions == old(sessions)
    {
      if ByteLength(raw) < MIN_TOKEN_LENGTH || ByteLength(raw) > MAX_TOKEN_LENGTH {
        return Err(InvalidRefreshToken);
      }
      if s :| s in sessions && Accepts(sessions, s, raw, now) {
        if Taken(sessions, token) {
          return Err(TokenTaken);
        }
        var (identity, expiresAt) := (sessions[s].identity, sessions[s].expiresAt);
        sessions := Rotated(sessions, s, token, now);
        return Ok(Issued(s, identity, token, expiresAt));
      }
      return Err(InvalidRefreshToken);
    }

    method Revoke(s: Uuid, identity: Uuid, now: Time)
      requires TokensUnique(sessions)
      modifies this
      ensures TokensUnique(sessions) && sessions == Revoked(old(sessions), s, identity, now)
      ensures forall at :: !IsActive(sessions, s, identity, at)
    {
      if s in sessions && sessions[s].identity == identity && sessions[s].revokedAt.None? {
        sessions := sessions[s := sessions[s].(revokedAt := Some(now))];
      }
    }
  }

  // ---- Concurrent refreshes ----

  /** A refresh in flight: the token presented, the new one, when its transaction began, and the session its
      SELECT came to, whose row lock it may still be waiting for. */
  datatype Attempt = Attempt(raw: string, token: string, at: Time, target: Option<Uuid>)

  datatype World = World(
    sessions: map<Uuid, AuthSession>, now: Time, attempts: map<nat, Attempt>,
    issued: set<string>,      // tokens ever generated
    accepted: seq<string>)    // history: the tokens exchanged, in order

  datatype Event =
    | Tick(micros: nat)
    | SignIn(s: Uuid, identity: Uuid, token: string, ttl: nat)
    | Present(id: nat, raw: string, token: string)
    | Look(id: nat, s: Uuid)
    | Exchange(id: nat)
    | Crash(id: nat)
    | Revoke(s: Uuid, identity: Uuid)

  predicate NewToken(issued: set<string>, token: string) {
    token !in issued && ByteLength(token) == TOKEN_LENGTH
  }

  function Next(w: World, e: Event): World {
    match e
    case Tick(micros) => w.(now := w.now + micros)
    case SignIn(s, identity, token, ttl) =>
      if s in w.sessions || !NewToken(w.issued, token) then w
      else
        w.(sessions := w.sessions[s := AuthSession(identity, Sha256(token), w.now + ttl, None, w.now)],
           issued := w.issued + {token})
    case Present(id, raw, token) =>
      if id in w.attempts || !NewToken(w.issued, token) || !(MIN_TOKEN_LENGTH <= ByteLength(raw) <= MAX_TOKEN_LENGTH) then w
      else w.(attempts := w.attempts[id := Attempt(raw, token, w.now, None)], issued := w.issued + {token})
    case Look(id, s) =>
      if id in w.attempts && Accepts(w.sessions, s, w.attempts[id].raw, w.attempts[id].at)
      then w.(attempts := w.attempts[id := w.attempts[id].(target := Some(s))])
      else w
    case Exchange(id) =>
      if id !in w.attempts || w.attempts[id].target.None? then w
      else
        // with the row lock granted, the WHERE clause is evaluated again on the row as it is now
        var a := w.attempts[id];
        var done := w.(attempts := w.attempts - {id});
        if Accepts(w.sessions, a.target.value, a.raw, a.at)
        then done.(sessions := Rotated(w.sessions, a.target.value, a.token, w.now), accepted := w.accepted + [a.raw])
        else done
    case Crash(id) => w.(attempts := w.attempts - {id})
    case Revoke(s, identity) => w.(sessions := Revoked(w.sessions, s, identity, w.now))
  }

  function Run(w: World, events: seq<Event>): World
    decreases |events|
  {
    if events == [] then w else Run(Next(w, events[0]), events[1..])
  }

  function Initial(now: Time): World {
    World(map[], now, map[], {}, [])
  }

  function TokenOf(w: World, s: Uuid): string
    requires s in w.sessions
  {
    w.sessions[s].tokenHash.preimage
  }

  ghost predicate Distinct(accepted: seq<string>) {
    forall i, j :: 0 <= i < j < |accepted| ==> accepted[i] != accepted[j]
  }

  ghost predicate CurrentTokens(w: World) {
    forall s :: s in w.sessions ==>
      TokenOf(w, s) in w.issued && TokenOf(w, s) !in w.accepted && ByteLength(TokenOf(w, s)) == TOKEN_LENGTH
  }

  ghost predicate WaitingTokens(w: World) {
    && (forall id :: id in w.attempts ==>
          && w.attempts[id].token in w.issued && w.attempts[id].token !in w.accepted
          && ByteLength(w.attempts[id].token) == TOKEN_LENGTH
          && forall s :: s in w.sessions ==> TokenOf(w, s) != w.attempts[id].token)
    && (forall i, j :: i in w.attempts && j in w.attempts && i != j ==> w.attempts[i].token != w.attempts[j].token)
  }

  ghost predicate SpentTokens(w: World) {
    Distinct(w.accepted) && forall x :: x in w.accepted ==> x in w.issued
  }

  /** Every token is in one place: current in one session, waiting in one attempt, or spent. */
  ghost predicate TokensInv(w: World) {
    TokensUnique(w.sessions) && CurrentTokens(w) && WaitingTokens(w) && SpentTokens(w)
  }

  /** A token that is new everywhere becomes the current one of a session. */
  lemma NewCurrentToken(w: World, s: Uuid, row: AuthSession, token: string)
    requires TokensInv(w) && row.tokenHash == Sha256(token) && token !in w.issued && ByteLength(token) == TOKEN_LENGTH
    ensures TokensInv(w.(sessions := w.sessions[s := row], issued := w.issued + {token}))
  {
  }

  lemma PresentKeepsTokens(w: World, id: nat, raw: string, token: string)
    requires TokensInv(w)
    ensures TokensInv(Next(w, Present(id, raw, token)))
  {
  }

  /** An exchange moves the presented token from its session to the spent ones and the new one from its attempt to
      the session. */
  lemma ExchangeKeepsTokens(w: World, id: nat)
    requires TokensInv(w)
    ensures TokensInv(Next(w, Exchange(id)))
  {
    if id in w.attempts && w.attempts[id].target.Some? {
      var a := w.attempts[id];
      if Accepts(w.sessions, a.target.value, a.raw, a.at) {
        AcceptKeepsTokens(w, id, a, a.target.value);
      }
    }
  }

  function Accepted(w: World, id: nat, a: Attempt, s: Uuid): World
    requires s in w.sessions
  {
    w.(attempts := w.attempts - {id}, sessions := Rotated(w.sessions, s, a.token, w.now), accepted := w.accepted + [a.raw])
  }

  lemma AcceptMovesTokens(w: World, id: nat, a: Attempt, s: Uuid)
    requires TokensInv(w) && id in w.attempts && w.attempts[id] == a && Accepts(w.sessions, s, a.raw, a.at)
    ensures
      var w' := Accepted(w, id, a, s);
      && TokenOf(w, s) == a.raw && TokenOf(w', s) == a.token && a.token != a.raw
      && (forall x :: x in w.sessions && x != s ==> TokenOf(w', x) == TokenOf(w, x) && TokenOf(w, x) != a.raw)
      && (forall x :: x in w'.accepted <==> x in w.accepted || x == a.raw)
      && TokensUnique(w'.sessions)
  {
  }

  lemma AcceptKeepsTokens(w: World, id: nat, a: Attempt, s: Uuid)
    requires TokensInv(w) && id in w.attempts && w.attempts[id] == a && Accepts(w.sessions, s, a.raw, a.at)
    ensures TokensInv(Accepted(w, id, a, s))
  {
    AcceptMovesTokens(w, id, a, s);
    assert SpentTokens(Accepted(w, id, a, s)) by {
      hide WaitingTokens;
    }
    assert CurrentTokens(Accepted(w, id, a, s)) by {
      hide SpentTokens;
    }
    hide SpentTokens, CurrentTokens, TokensUnique, Rotated, Accepts;
  }

  lemma NextKeepsTokens(w: World, e: Event)
    requires TokensInv(w)
    ensures TokensInv(Next(w, e))
  {
    hide TokensInv;
    match e
    case SignIn(s, identity, token, ttl) =>
      if s !in w.sessions && NewToken(w.issued, token) {
        NewCurrentToken(w, s, AuthSession(identity, Sha256(token), w.now + ttl, None, w.now), token);
      }
    case Present(id, raw, token) => PresentKeepsTokens(w, id, raw, token);
    case Exchange(id) => ExchangeKeepsTokens(w, id);
    case Revoke(s, identity) => RevokeKeepsTokens(w, s, identity);
    case Look(id, s) => FewerAttemptsKeepTokens(w, Next(w, e));
    case Tick(_) => FewerAttemptsKeepTokens(w, Next(w, e));
    case Crash(_) => FewerAttemptsKeepTokens(w, Next(w, e));
  }

  lemma FewerAttemptsKeepTokens(w: World, w': World)
    requires TokensInv(w)
    requires w'.sessions == w.sessions && w'.issued == w.issued && w'.accepted == w.accepted
    requires forall id :: id in w'.attempts ==> id in w.attempts && w'.attempts[id].token == w.attempts[id].token
    ensures TokensInv(w')
  {
  }

  lemma RevokeKeepsTokens(w: World, s: Uuid, identity: Uuid)
    requires TokensInv(w)
    ensures TokensInv(Next(w, Revoke(s, identity)))
  {
    var w' := Next(w, Revoke(s, identity));
    assert w'.sessions.Keys == w.sessions.Keys;
    assert forall x :: x in w.sessions ==> TokenOf(w', x) == TokenOf(w, x);
  }

  lemma {:induction false} RunKeepsTokens(w: World, events: seq<Event>)
    requires TokensInv(w)
    ensures TokensInv(Run(w, events))
    decreases |events|
  {
    hide TokensInv, Next;
    if events != [] {
      NextKeepsTokens(w, events[0]);
      RunKeepsTokens(Next(w, events[0]), events[1..]);
    }
  }

  ghost predicate Reachable(w: World) {
    exists start: Time, events: seq<Event> :: w == Run(Initial(start), events)
  }

  lemma ReachableIsGood(w: World)
    requires Reachable(w)
    ensures TokensInv(w)
  {
    var start: Time, events: seq<Event> :| w == Run(Initial(start), events);
    RunKeepsTokens(Initial(start), events);
  }

  /** No refresh token is accepted twice, over every run of concurrent refreshes, crashes and revocations. */
  lemma AcceptedOnce(w: World, raw: string)
    requires Reachable(w)
    ensures multiset(w.accepted)[raw] <= 1
  {
    ReachableIsGood(w);
    DistinctCounts(w.accepted, raw);
  }

  lemma {:induction false} DistinctCounts(accepted: seq<string>, raw: string)
    requires Distinct(accepted)
    ensures multiset(accepted)[raw] == if raw in accepted then 1 else 0
    decreases |accepted|
  {
    if accepted != [] {
      var last := |accepted| - 1;
      DistinctCounts(accepted[..last], raw);
      assert accepted == accepted[..last] + [accepted[last]];
    }
  }

  /** Until it is revoked or expires, a session accepts exactly one token: one of valid length that was never
      accepted before and that no other session accepts. Afterwards it accepts none. */
  lemma OneAcceptableToken(w: World, s: Uuid, at: Time)
    requires Reachable(w) && s in w.sessions
    ensures
      var current := TokenOf(w, s);
      if w.sessions[s].revokedAt.None? && w.sessions[s].expiresAt > at then
        && (forall raw :: Accepts(w.sessions, s, raw, at) <==> raw == current)
        && MIN_TOKEN_LENGTH <= ByteLength(current) <= MAX_TOKEN_LENGTH && current !in w.accepted
        && (forall s' :: Accepts(w.sessions, s', current, at) ==> s' == s)
      else
        forall raw :: !Accepts(w.sessions, s, raw, at)
  {
    ReachableIsGood(w);
  }

  /** What a run leaves of a session: it stays, for the same identity and with the same deadline, and once revoked
      it stays revoked. */
  lemma {:induction false} DeadlineNeverMoves(w: World, events: seq<Event>, s: Uuid)
    requires s in w.sessions
    ensures
      var w' := Run(w, events);
      && s in w'.sessions && w'.sessions[s].identity == w.sessions[s].identity
      && w'.sessions[s].expiresAt == w.sessions[s].expiresAt
      && (w.sessions[s].revokedAt.Some? ==> w'.sessions[s] == w.sessions[s])
    decreases |events|
  {
    if events != [] {
      DeadlineNeverMoves(Next(w, events[0]), events[1..], s);
    }
  }

  // ---- When a session is active ----

  /** A session is active for its identity until its deadline, and until it is revoked by that identity: nothing else
      in a run ends it, and nothing brings it back. */
  lemma {:induction false} ActiveExactly(w: World, events: seq<Event>, s: Uuid, identity: Uuid, at: Time)
    requires s in w.sessions && w.sessions[s].revokedAt.None?
    ensures IsActive(Run(w, events).sessions, s, identity, at) <==>
      && identity == w.sessions[s].identity && at < w.sessions[s].expiresAt
      && Event.Revoke(s, w.sessions[s].identity) !in events
    decreases |events|
  {
    DeadlineNeverMoves(w, events, s);
    if events != [] {
      var w1 := Next(w, events[0]);
      var revoke := Event.Revoke(s, w.sessions[s].identity);
      DeadlineNeverMoves(w, [events[0]], s);
      OneStep(w, events[0]);
      assert revoke in events <==> revoke == events[0] || revoke in events[1..];
      RevokedExactly(w, events[0], s);
      hide Next;
      if w1.sessions[s].revokedAt.None? {
        ActiveExactly(w1, events[1..], s, identity, at);
      } else {
        DeadlineNeverMoves(w1, events[1..], s);
      }
    }
  }

  lemma OneStep(w: World, e: Event)
    ensures Run(w, [e]) == Next(w, e)
  {
    assert [e][1..] == [];
    assert Run(Next(w, e), []) == Next(w, e);
  }

  lemma RevokedExactly(w: World, e: Event, s: Uuid)
    requires s in w.sessions && w.sessions[s].revokedAt.None?
    ensures s in Next(w, e).sessions
    ensures Next(w, e).sessions[s].revokedAt.Some? <==> e == Event.Revoke(s, w.sessions[s].identity)
  {
  }

  /** A session is active exactly when it would still exchange its current token. */
  lemma ActiveMeansAccepting(w: World, s: Uuid, identity: Uuid, at: Time)
    requires Reachable(w)
    ensures IsActive(w.sessions, s, identity, at) <==>
      s in w.sessions && w.sessions[s].identity == identity && exists raw :: Accepts(w.sessions, s, raw, at)
  {
    if s in w.sessions {
      OneAcceptableToken(w, s, at);
      assert IsActive(w.sessions, s, identity, at) ==> Accepts(w.sessions, s, TokenOf(w, s), at);
    }
  }

  // ---- Refreshes from start to end ----

  /** A refresh that is left alone: it succeeds exactly when the token is the session's current one, and the session is
      neither revoked nor over; then the new token takes its place, and nobody accepts the old one any more. */
  lemma RefreshAlone(w: World, id: nat, s: Uuid, raw: string, token: string)
    requires Reachable(w) && id !in w.attempts && NewToken(w.issued, token) && 32 <= ByteLength(raw) <= 256
    ensures
      var w' := Run(w, [Present(id, raw, token), Look(id, s), Exchange(id)]);
      var good := s in w.sessions && TokenOf(w, s) == raw && w.sessions[s].revokedAt.None? && w.now < w.sessions[s].expiresAt;
      if good then
        && w'.sessions == w.sessions[s := w.sessions[s].(tokenHash := Sha256(token), lastUsedAt := w.now)]
        && w'.accepted == w.accepted + [raw]
        && forall x :: !Accepts(w'.sessions, x, raw, w'.now)
      else w'.sessions == w.sessions && w'.accepted == w.accepted
  {
    ReachableIsGood(w);
    var w1 := Next(w, Present(id, raw, token));
    var w2 := Next(w1, Look(id, s));
    RunThree(w, Present(id, raw, token), Look(id, s), Exchange(id));
    if s in w.sessions {
      assert w.sessions[s].tokenHash == Sha256(TokenOf(w, s));
    }
    hide Run, WaitingTokens, SpentTokens, Reachable, ByteLength;
  }

  lemma RunThree(w: World, a: Event, b: Event, c: Event)
    ensures Run(w, [a, b, c]) == Next(Next(Next(w, a), b), c)
  {
    hide Next;
    assert [a, b, c][1..] == [b, c] && [b, c][1..] == [c] && [c][1..] == [];
    assert Run(Next(Next(w, a), b), [c]) == Next(Next(Next(w, a), b), c);
    assert Run(Next(w, a), [b, c]) == Next(Next(Next(w, a), b), c);
  }

  /** Two refreshes with the same token that both found the session: whichever takes the row first succeeds, and the
      other one, which evaluates the row again, fails and changes nothing. */
  lemma OfTwoOneSucceeds(w: World, i: nat, j: nat)
    requires Reachable(w) && i != j && i in w.attempts && j in w.attempts
    requires w.attempts[i].raw == w.attempts[j].raw && w.attempts[i].target.Some?
    requires w.attempts[i].target == w.attempts[j].target
    requires Accepts(w.sessions, w.attempts[i].target.value, w.attempts[i].raw, w.attempts[i].at)
    ensures
      var (s, raw) := (w.attempts[i].target.value, w.attempts[i].raw);
      var w1 := Next(w, Exchange(i));
      var w2 := Next(w1, Exchange(j));
      && w1.accepted == w.accepted + [raw] && TokenOf(w1, s) == w.attempts[i].token
      && w2.accepted == w1.accepted && w2.sessions == w1.sessions && j !in w2.attempts
  {
    ReachableIsGood(w);
    hide Reachable;
  }

  /** A refresh that crashed exchanges nothing. */
  lemma CrashedExchangesNothing(w: World, id: nat)
    ensures
      var w' := Next(Next(w, Crash(id)), Exchange(id));
      w'.sessions == w.sessions && w'.accepted == w.accepted && id !in w'.attempts
  {
  }
}
