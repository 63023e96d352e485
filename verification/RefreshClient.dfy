/** Browser tabs and the session service: within a tab, all requests that need a refresh share one; tabs share only
    the stored session. */
module RefreshClient {
  import opened Basics
  import opened Sessions
  import opened Text

  // ---- A tab ----

  /** The shared refresh promise: its request is on the way, it was answered with a new token or a refusal, or its
      response was saved and the promise is about to be cleared. */
  datatype Flight = Sent(token: string) | Answered(token: string, answer: Option<string>) | Settling

  datatype Client = Client(session: Option<string>, flight: Option<Flight>)

  /** refreshSession: the token of the request it sends, if it sends one. */
  function NeedRefresh(c: Client): (Client, Option<string>) {
    if c.session.None? || c.flight.Some? then (c, None)
    else (c.(flight := Some(Sent(c.session.value))), Some(c.session.value))
  }

  predicate HasAnswer(c: Client) {
    c.flight.Some? && c.flight.value.Answered?
  }

  function SaveAnswer(c: Client): Client
    requires HasAnswer(c)
  {
    Client(c.flight.value.answer, Some(Settling))
  }

  function ClearPromise(c: Client): Client {
    if c.flight == Some(Settling) then c.(flight := None) else c
  }

  /** localStorage, which all tabs share. */
  class Storage {
    var session: Option<string>

    constructor ()
      ensures session == None
    {
      session := None;
    }
  }

  /** The module-level state of api.ts and the stretches of code between its awaits. */
  class Tab {
    const storage: Storage
    var session: Option<string>
    var refreshPromise: Option<Flight>

    constructor (storage: Storage)
      ensures this.storage == storage && View() == Client(storage.session, None)
    {
      this.storage := storage;
      session, refreshPromise := storage.session, None;
    }

    function View(): Client
      reads this
    {
      Client(session, refreshPromise)
    }

    method SaveSession(next: Option<string>)
      modifies this, storage
      ensures View() == old(View()).(session := next) && storage.session == next
    {
      session := next;
      storage.session := next;
    }

    /** Up to the await: send a request, or share the one under way; false when there is no session. */
    method RefreshSession() returns (ok: bool, request: Option<string>)
      modifies this
      ensures (View(), request) == NeedRefresh(old(View()))
      ensures ok <==> old(session).Some?
    {
      if session.None? {
        return false, None;
      }
      request := None;
      if refreshPromise.None? {
        refreshPromise := Some(Sent(session.value));
        request := session;
      }
      ok := true;
    }

    /** The then-part, when the response is there. */
    method OnResponse()
      requires HasAnswer(View())
      modifies this, storage
      ensures View() == SaveAnswer(old(View())) && storage.session == session
    {
      SaveSession(refreshPromise.value.answer);
      refreshPromise := Some(Settling);
    }

    /** The finally-part. */
    method OnSettled()
      requires refreshPromise == Some(Settling)
      modifies this
      ensures View() == ClearPromise(old(View()))
    {
      refreshPromise := None;
    }

    /** An await: everything else may run. */
    method Elsewhere()
      modifies this, storage
    {
      session, refreshPromise := *, *;
      storage.session := *;
    }

    /** api: `fetches` counts the requests it makes for its path, `refreshes` its calls of refreshSession. Whatever
        the responses and whatever runs meanwhile, it makes one request, and a second one only after one refresh
        that went through; the status it gives is that of its last request, or 401 when the refresh failed. */
    method Api(auth: bool, retryAuth: bool) returns (status: int, fetches: nat, refreshes: nat)
      modifies this, storage
      ensures 1 <= fetches <= 2 && refreshes <= 1
      ensures fetches == 2 ==> refreshes == 1
      ensures refreshes == 1 ==> auth && retryAuth && (fetches == 1 ==> status == 401)
      decreases retryAuth
    {
      Elsewhere();
      var response: int := *;
      if response == 401 && auth && retryAuth && session.Some? {
        var ok, request := RefreshSession();
        Elsewhere();
        var refreshed: bool := *;
        if !ok || !refreshed {
          return 401, 1, 1;
        }
        var again, more, none := Api(auth, false);
        return again, 1 + more, 1 + none;
      }
      return response, 1, 0;
    }
  }

  // ---- Tabs and server ----

  datatype World = World(
    sessions: map<Uuid, AuthSession>, now: Time, issued: set<string>,
    stored: Option<string>,        // the session in localStorage
    tabs: map<nat, Client>,
    abandoned: set<string>,        // tokens of requests a tab gave up on that may still reach the server
    // History:
    own: set<string>,              // tokens the server sent to this browser; nobody else knows them
    shown: set<string>,            // those a tab has saved
    spent: set<string>,            // tokens the server exchanged
    lost: set<string>,             // tokens whose exchange was never told to the tab that asked
    takenBy: map<string, nat>)     // the tab for which a token was exchanged

  datatype Event =
    | Tick(micros: nat)
    | OtherSignIn(s: Uuid, identity: Uuid, token: string, ttl: nat)
    | OtherRefresh(s: Uuid, raw: string, token: string)
    | Revocation(s: Uuid, identity: Uuid)
    | Open(tab: nat)
    | Close(tab: nat)
    | Register(tab: nat, s: Uuid, identity: Uuid, token: string, ttl: nat)   // createAnonymous
    | Need(tab: nat)                                                        // a request of the tab got a 401
    | Handle(tab: nat, s: Uuid, token: string)                              // the server handles the tab's refresh
    | HandleLate(raw: string, s: Uuid, token: string)                       // or one that was given up on
    | Save(tab: nat)
    | Clear(tab: nat)
    | Lose(tab: nat)                                                        // the tab's request fails for it

  function AddSession(w: World, s: Uuid, identity: Uuid, token: string, ttl: nat): World {
    w.(sessions := w.sessions[s := AuthSession(identity, Sha256(token), w.now + ttl, None, w.now)],
       issued := w.issued + {token})
  }

  /** Exchange `raw` for `token` at session `s`. */
  function Exchanged(w: World, s: Uuid, raw: string, token: string): World
    requires s in w.sessions
  {
    w.(sessions := Rotated(w.sessions, s, token, w.now), issued := w.issued + {token}, spent := w.spent + {raw})
  }

  function SetTab(w: World, i: nat, c: Client): World {
    w.(tabs := w.tabs[i := c])
  }

  predicate LongEnough(raw: string) {
    MIN_TOKEN_LENGTH <= ByteLength(raw) <= MAX_TOKEN_LENGTH
  }

  /** What becomes of a request nobody waits for any more. */
  function GiveUp(w: World, flight: Option<Flight>): World {
    match flight
    case Some(Sent(token)) => w.(abandoned := w.abandoned + {token})
    case Some(Answered(token, Some(_))) => w.(lost := w.lost + {token})
    case _ => w
  }

  function StepHandle(w: World, i: nat, s: Uuid, raw: string, token: string): World
    requires i in w.tabs
  {
    var c := w.tabs[i];
    if LongEnough(raw) && Accepts(w.sessions, s, raw, w.now) then
      SetTab(Exchanged(w, s, raw, token), i, c.(flight := Some(Answered(raw, Some(token)))))
        .(own := w.own + {token}, takenBy := w.takenBy[raw := i])
    else if LongEnough(raw) && exists x :: x in w.sessions && Accepts(w.sessions, x, raw, w.now) then w
    else SetTab(w, i, c.(flight := Some(Answered(raw, None))))
  }

  function StepSave(w: World, i: nat): World
    requires i in w.tabs && HasAnswer(w.tabs[i])
  {
    var answer := w.tabs[i].flight.value.answer;
    SetTab(w, i, SaveAnswer(w.tabs[i])).(
      stored := answer, shown := if answer.Some? then w.shown + {answer.value} else w.shown)
  }

  function Next(w: World, e: Event): World {
    match e
    case Tick(micros) => w.(now := w.now + micros)
    case OtherSignIn(s, identity, token, ttl) =>
      if s in w.sessions || !NewToken(w.issued, token) then w else AddSession(w, s, identity, token, ttl)
    case OtherRefresh(s, raw, token) =>
      if raw in w.own || !NewToken(w.issued, token) || !Accepts(w.sessions, s, raw, w.now) then w
      else Exchanged(w, s, raw, token)
    case Revocation(s, identity) => w.(sessions := Revoked(w.sessions, s, identity, w.now))
    case Open(i) => if i in w.tabs then w else SetTab(w, i, Client(w.stored, None))
    case Close(i) => if i !in w.tabs then w else GiveUp(w, w.tabs[i].flight).(tabs := w.tabs - {i})
    case Register(i, s, identity, token, ttl) =>
      if i !in w.tabs || s in w.sessions || !NewToken(w.issued, token) then w
      else
        SetTab(AddSession(w, s, identity, token, ttl), i, w.tabs[i].(session := Some(token)))
          .(stored := Some(token), own := w.own + {token}, shown := w.shown + {token})
    case Need(i) => if i !in w.tabs then w else SetTab(w, i, NeedRefresh(w.tabs[i]).0)
    case Handle(i, s, token) =>
      if i !in w.tabs || w.tabs[i].flight.None? || !w.tabs[i].flight.value.Sent? || !NewToken(w.issued, token) then w
      else StepHandle(w, i, s, w.tabs[i].flight.value.token, token)
    case HandleLate(raw, s, token) =>
      if raw in w.abandoned && NewToken(w.issued, token) && LongEnough(raw) && Accepts(w.sessions, s, raw, w.now)
      then Exchanged(w, s, raw, token).(lost := w.lost + {raw})
      else w
    case Save(i) => if i in w.tabs && HasAnswer(w.tabs[i]) then StepSave(w, i) else w
    case Clear(i) => if i !in w.tabs then w else SetTab(w, i, ClearPromise(w.tabs[i]))
    case Lose(i) =>
      if i !in w.tabs || w.tabs[i].flight == Some(Settling) then w
      else SetTab(GiveUp(w, w.tabs[i].flight), i, w.tabs[i].(flight := None))
  }

  function Run(w: World, events: seq<Event>): World
    decreases |events|
  {
    if events == [] then w else Run(Next(w, events[0]), events[1..])
  }

  function Initial(now: Time): World {
    World.World(map[], now, {}, None, map[], {}, {}, {}, {}, {}, map[])
  }

  /** The token tab `i` would send now. */
  function Presented(w: World, i: nat): Option<string> {
    if i in w.tabs then NeedRefresh(w.tabs[i]).1 else None
  }

  // ---- Invariant ----

  /** Tab `i` asked for the exchange of `token`, the server did it, and the answer is on its way. */
  predicate Underway(w: World, i: nat, token: string) {
    && i in w.tabs && HasAnswer(w.tabs[i]) && w.tabs[i].flight.value.token == token
    && w.tabs[i].flight.value.answer.Some?
  }

  /** A stored token is spent only if a tab is about to replace it, or never heard. */
  predicate GoodStored(w: World, token: string) {
    && token in w.shown
    && (token in w.spent ==> token in w.lost || (token in w.takenBy && Underway(w, w.takenBy[token], token)))
  }

  predicate GoodSession(w: World, i: nat, token: string) {
    && token in w.shown
    && (token in w.spent ==>
          token in w.lost || (token in w.takenBy && (w.takenBy[token] != i || Underway(w, i, token))))
  }

  predicate GoodFlight(w: World, i: nat, f: Flight) {
    match f
    case Sent(token) => token in w.shown
    case Settling => true
    case Answered(token, None) => token in w.shown
    case Answered(token, Some(next)) =>
      && token in w.shown && token in w.spent && token in w.takenBy && w.takenBy[token] == i
      && next in w.own && next !in w.shown && next !in w.spent
  }

  predicate GoodTab(w: World, i: nat)
    requires i in w.tabs
  {
    && (w.tabs[i].session.Some? ==> GoodSession(w, i, w.tabs[i].session.value))
    && (w.tabs[i].flight.Some? ==> GoodFlight(w, i, w.tabs[i].flight.value))
  }

  /** No two answers on their way carry the same token. */
  predicate AnswersApart(w: World, i: nat, j: nat)
    requires i in w.tabs && j in w.tabs
  {
    HasAnswer(w.tabs[i]) && HasAnswer(w.tabs[j]) && w.tabs[i].flight.value.answer.Some? ==>
      w.tabs[i].flight.value.answer != w.tabs[j].flight.value.answer
  }

  ghost predicate TokenSets(w: World) {
    && w.shown <= w.own <= w.issued && w.spent <= w.issued && w.lost <= w.spent && w.takenBy.Keys <= w.spent
    && w.abandoned <= w.shown
  }

  ghost predicate ServerTokens(w: World) {
    && TokensUnique(w.sessions)
    && forall s :: s in w.sessions ==>
         w.sessions[s].tokenHash.preimage in w.issued && w.sessions[s].tokenHash.preimage !in w.spent
  }

  ghost predicate TabsInv(w: World) {
    && (w.stored.Some? ==> GoodStored(w, w.stored.value))
    && (forall i {:trigger GoodTab(w, i)} :: i in w.tabs ==> GoodTab(w, i))
    && (forall i, j {:trigger AnswersApart(w, i, j)} :: i in w.tabs && j in w.tabs && i != j ==> AnswersApart(w, i, j))
  }

  ghost predicate ClientInv(w: World) {
    TokenSets(w) && ServerTokens(w) && TabsInv(w)
  }

  /** A token that is exchanged was current, so not spent, and is no other session's. */
  lemma ExchangeKeepsServer(w: World, s: Uuid, raw: string, token: string)
    requires ServerTokens(w) && Accepts(w.sessions, s, raw, w.now) && NewToken(w.issued, token) && w.spent <= w.issued
    ensures raw !in w.spent && raw in w.issued && ServerTokens(Exchanged(w, s, raw, token))
  {
  }

  /** How the histories may grow while tab `i` moves: what is newly spent is nobody's here, or was told to no one,
      or was taken by `i`; and what is newly saved is no other tab's answer. */
  ghost predicate Grows(w: World, w': World, i: nat) {
    && w.shown <= w'.shown && w.own <= w'.own && w.lost <= w'.lost && w.spent <= w'.spent
    && (forall x :: x in w.takenBy ==> x in w'.takenBy && w'.takenBy[x] == w.takenBy[x])
    && (forall x :: x in w'.spent && x !in w.spent ==>
          x !in w.own || (x in w.shown && (x in w'.lost || (x in w'.takenBy && w'.takenBy[x] == i))))
    && (forall x, j :: x in w'.shown && x !in w.shown && j in w.tabs && j != i && HasAnswer(w.tabs[j]) ==>
          w.tabs[j].flight.value.answer != Some(x))
  }

  lemma OtherTabStaysGood(w: World, w': World, i: nat, j: nat)
    requires TokenSets(w) && Grows(w, w', i) && j != i
    requires j in w.tabs && j in w'.tabs && w'.tabs[j] == w.tabs[j] && GoodTab(w, j)
    ensures GoodTab(w', j)
  {
  }

  /** The stored session stays good unless it is overwritten. */
  lemma StoredStaysGood(w: World, w': World, i: nat, token: string)
    requires TokenSets(w) && Grows(w, w', i) && GoodStored(w, token)
    requires forall j :: j in w.tabs && j != i ==> j in w'.tabs && w'.tabs[j] == w.tabs[j]
    requires Underway(w, i, token) ==> Underway(w', i, token) || token in w'.lost
    requires token in w'.spent && token !in w.spent && token !in w'.lost ==> Underway(w', i, token)
    ensures GoodStored(w', token)
  {
  }

  /** A move of tab `i`, which is good afterwards if it is still open, keeps the invariant of all tabs. */
  lemma MoveKeepsTabs(w: World, w': World, i: nat)
    requires TokenSets(w) && TabsInv(w) && Grows(w, w', i)
    requires forall j :: j != i ==> (j in w'.tabs <==> j in w.tabs) && (j in w.tabs ==> w'.tabs[j] == w.tabs[j])
    requires i in w'.tabs ==> GoodTab(w', i)
    requires forall j :: i in w'.tabs && j in w.tabs && j != i ==> AnswersApart(w', i, j) && AnswersApart(w', j, i)
    requires w'.stored.Some? ==> GoodStored(w', w'.stored.value)
    ensures TabsInv(w')
  {
    forall j | j in w'.tabs
      ensures GoodTab(w', j)
    {
      if j != i {
        assert GoodTab(w, j);
        OtherTabStaysGood(w, w', i, j);
      }
    }
    forall j, k | j in w'.tabs && k in w'.tabs && j != k
      ensures AnswersApart(w', j, k)
    {
      assert j != i && k != i ==> AnswersApart(w, j, k);
    }
  }

  /** Tabs that do not move keep what they rely on while others sign in, refresh and revoke, and late requests of
      this browser are served. */
  lemma SameTabs(w: World, w': World)
    requires TokenSets(w) && TabsInv(w)
    requires w'.tabs == w.tabs && w'.stored == w.stored && w'.shown == w.shown && w'.own == w.own && w'.takenBy == w.takenBy
    requires w.lost <= w'.lost && w.spent <= w'.spent
    requires forall x :: x in w'.spent && x !in w.spent ==> x !in w.own || (x in w.shown && x in w'.lost)
    ensures TabsInv(w')
  {
    forall i | i in w'.tabs
      ensures GoodTab(w', i)
    {
      assert GoodTab(w, i);
    }
    forall i, j | i in w'.tabs && j in w'.tabs && i != j
      ensures AnswersApart(w', i, j)
    {
      assert AnswersApart(w, i, j);
    }
  }

  // ---- Steps ----

  lemma OthersKeepServer(w: World, e: Event)
    requires ClientInv(w) && (e.Tick? || e.OtherSignIn? || e.OtherRefresh? || e.Revocation? || e.HandleLate?)
    ensures ServerTokens(Next(w, e)) && TokenSets(Next(w, e))
  {
    hide TabsInv;
    var w' := Next(w, e);
    if (e.OtherRefresh? || e.HandleLate?) && w' != w {
      ExchangeKeepsServer(w, e.s, e.raw, e.token);
    }
  }

  lemma OthersKeepClient(w: World, e: Event)
    requires ClientInv(w) && (e.Tick? || e.OtherSignIn? || e.OtherRefresh? || e.Revocation? || e.HandleLate?)
    ensures ClientInv(Next(w, e))
  {
    OthersKeepServer(w, e);
    hide ServerTokens, TabsInv, Accepts, Rotated, Revoked, NewToken, LongEnough;
    SameTabs(w, Next(w, e));
  }

  lemma RegisterKeepsClient(w: World, e: Event)
    requires ClientInv(w) && e.Register?
    ensures ClientInv(Next(w, e))
  {
    var w' := Next(w, e);
    if w' != w {
      var i := e.tab;
      assert ServerTokens(w') && TokenSets(w') by {
        hide TabsInv;
      }
      hide ServerTokens, NewToken;
      assert GoodTab(w, i);
      forall j | j in w.tabs && j != i
        ensures AnswersApart(w', i, j) && AnswersApart(w', j, i)
      {
        assert AnswersApart(w, i, j) && AnswersApart(w, j, i) && GoodTab(w, j);
      }
      assert Grows(w, w', i) by {
        forall j | j in w.tabs && j != i && HasAnswer(w.tabs[j])
          ensures w.tabs[j].flight.value.answer != Some(e.token)
        {
          assert GoodTab(w, j);
        }
      }
      MoveKeepsTabs(w, w', i);
    }
  }

  /** Answers of other tabs stay apart from those of tab `i`, if it has none that is new. */
  lemma StaysApart(w: World, w': World, i: nat)
    requires TabsInv(w) && i in w'.tabs
    requires HasAnswer(w'.tabs[i]) && w'.tabs[i].flight.value.answer.Some? ==> i in w.tabs && w.tabs[i].flight == w'.tabs[i].flight
    requires forall j :: j in w.tabs && j != i ==> j in w'.tabs && w'.tabs[j] == w.tabs[j]
    ensures forall j :: j in w.tabs && j != i ==> AnswersApart(w', i, j) && AnswersApart(w', j, i)
  {
    forall j | j in w.tabs && j != i
      ensures AnswersApart(w', i, j) && AnswersApart(w', j, i)
    {
      assert i in w.tabs ==> AnswersApart(w, i, j) && AnswersApart(w, j, i);
    }
  }

  lemma OpenKeepsClient(w: World, e: Event)
    requires ClientInv(w) && e.Open?
    ensures ClientInv(Next(w, e))
  {
    var (w', i) := (Next(w, e), e.tab);
    if w' != w {
      hide ServerTokens;
      if w.stored.Some? {
        StoredStaysGood(w, w', i, w.stored.value);
      }
      StaysApart(w, w', i);
      MoveKeepsTabs(w, w', i);
    }
  }

  lemma NeedClearKeepClient(w: World, e: Event)
    requires ClientInv(w) && (e.Need? || e.Clear?)
    ensures ClientInv(Next(w, e))
  {
    var (w', i) := (Next(w, e), e.tab);
    if w' != w {
      hide ServerTokens;
      assert GoodTab(w, i);
      if w.stored.Some? {
        StoredStaysGood(w, w', i, w.stored.value);
      }
      StaysApart(w, w', i);
      MoveKeepsTabs(w, w', i);
    }
  }

  lemma GivenUp(w: World, i: nat)
    requires TokenSets(w) && i in w.tabs && GoodTab(w, i)
    ensures
      var w' := GiveUp(w, w.tabs[i].flight);
      && w' == w.(abandoned := w'.abandoned, lost := w'.lost) && TokenSets(w') && w.lost <= w'.lost
      && forall t :: Underway(w, i, t) ==> t in w'.lost
  {
  }

  lemma GiveUpKeepsClient(w: World, e: Event)
    requires ClientInv(w) && (e.Close? || e.Lose?)
    ensures ClientInv(Next(w, e))
  {
    var (w', i) := (Next(w, e), e.tab);
    if w' != w {
      assert GoodTab(w, i);
      GivenUp(w, i);
      assert w' == w.(abandoned := w'.abandoned, lost := w'.lost, tabs := w'.tabs);
      assert e.Lose? ==> w'.tabs == w.tabs[i := w.tabs[i].(flight := None)];
      assert e.Close? ==> w'.tabs == w.tabs - {i};
      hide GiveUp, Next;
      assert ServerTokens(w') && TokenSets(w');
      GiveUpKeepsTabs(w, w', i);
    }
  }

  lemma GiveUpKeepsTabs(w: World, w': World, i: nat)
    requires TokenSets(w) && TabsInv(w) && i in w.tabs
    requires w' == w.(abandoned := w'.abandoned, lost := w'.lost, tabs := w'.tabs) && w.lost <= w'.lost
    requires w'.tabs == w.tabs[i := w.tabs[i].(flight := None)] || w'.tabs == w.tabs - {i}
    requires forall t :: Underway(w, i, t) ==> t in w'.lost
    ensures TabsInv(w')
  {
    assert GoodTab(w, i);
    if w.stored.Some? {
      StoredStaysGood(w, w', i, w.stored.value);
    }
    if i in w'.tabs {
      StaysApart(w, w', i);
    }
    hide GoodStored;
    MoveKeepsTabs(w, w', i);
  }

  lemma HandleKeepsServer(w: World, e: Event)
    requires ClientInv(w) && e.Handle?
    ensures ServerTokens(Next(w, e)) && TokenSets(Next(w, e))
  {
    var (w', i) := (Next(w, e), e.tab);
    if w'.spent != w.spent {
      assert GoodTab(w, i);
      ExchangeKeepsServer(w, e.s, w.tabs[i].flight.value.token, e.token);
    }
    hide TabsInv;
  }

  lemma HandleKeepsClient(w: World, e: Event)
    requires ClientInv(w) && e.Handle?
    ensures ClientInv(Next(w, e))
  {
    HandleKeepsServer(w, e);
    var (w', i) := (Next(w, e), e.tab);
    if w' != w {
      assert GoodTab(w, i);
      assert w'.spent != w.spent ==> w.tabs[i].flight.value.token !in w.spent by {
        if w'.spent != w.spent {
          ExchangeKeepsServer(w, e.s, w.tabs[i].flight.value.token, e.token);
        }
      }
      hide ServerTokens, Accepts, LongEnough, Rotated;
      if w'.spent != w.spent {
        AcceptedKeepsTabs(w, w', i, w.tabs[i].flight.value.token, e.token);
      } else {
        RefusedKeepsTabs(w, w', i);
      }
    }
  }

  lemma AcceptedKeepsTabs(w: World, w': World, i: nat, raw: string, token: string)
    requires TokenSets(w) && TabsInv(w) && i in w.tabs && w.tabs[i].flight == Some(Sent(raw))
    requires raw in w.shown && raw !in w.spent && token !in w.issued && GoodTab(w, i)
    requires w'.shown == w.shown && w'.lost == w.lost && w'.stored == w.stored && w'.spent == w.spent + {raw}
    requires w'.own == w.own + {token} && w'.takenBy == w.takenBy[raw := i]
    requires w'.tabs == w.tabs[i := w.tabs[i].(flight := Some(Answered(raw, Some(token))))]
    ensures TabsInv(w')
  {
    if w.stored.Some? {
      StoredStaysGood(w, w', i, w.stored.value);
    }
    forall j | j in w.tabs && j != i
      ensures AnswersApart(w', i, j) && AnswersApart(w', j, i)
    {
      assert GoodTab(w, j);
    }
    hide GoodStored;
    MoveKeepsTabs(w, w', i);
  }

  lemma RefusedKeepsTabs(w: World, w': World, i: nat)
    requires TokenSets(w) && TabsInv(w) && i in w.tabs && w.tabs[i].flight.Some? && w.tabs[i].flight.value.Sent?
    requires w' == SetTab(w, i, w.tabs[i].(flight := Some(Answered(w.tabs[i].flight.value.token, None))))
    ensures TabsInv(w')
  {
    assert GoodTab(w, i);
    if w.stored.Some? {
      StoredStaysGood(w, w', i, w.stored.value);
    }
    StaysApart(w, w', i);
    MoveKeepsTabs(w, w', i);
  }

  lemma SaveKeepsClient(w: World, e: Event)
    requires ClientInv(w) && e.Save?
    ensures ClientInv(Next(w, e))
  {
    var w' := Next(w, e);
    var i := e.tab;
    if w' != w {
      assert GoodTab(w, i);
      assert w'.sessions == w.sessions && w'.issued == w.issued && w'.spent == w.spent;
      assert ServerTokens(w') && TokenSets(w');
      hide ServerTokens;
      forall j | j in w.tabs && j != i
        ensures AnswersApart(w, i, j)
      {
      }
      MoveKeepsTabs(w, w', i);
    }
  }

  lemma NextKeepsClient(w: World, e: Event)
    requires ClientInv(w)
    ensures ClientInv(Next(w, e))
  {
    hide ClientInv, Next;
    match e
    case Register(_, _, _, _, _) => RegisterKeepsClient(w, e);
    case Handle(_, _, _) => HandleKeepsClient(w, e);
    case Save(_) => SaveKeepsClient(w, e);
    case Open(_) => OpenKeepsClient(w, e);
    case Close(_) => GiveUpKeepsClient(w, e);
    case Lose(_) => GiveUpKeepsClient(w, e);
    case Need(_) => NeedClearKeepClient(w, e);
    case Clear(_) => NeedClearKeepClient(w, e);
    case _ => OthersKeepClient(w, e);
  }

  lemma {:induction false} RunKeepsClient(w: World, events: seq<Event>)
    requires ClientInv(w)
    ensures ClientInv(Run(w, events))
    decreases |events|
  {
    hide ClientInv, Next;
    if events != [] {
      NextKeepsClient(w, events[0]);
      RunKeepsClient(Next(w, events[0]), events[1..]);
    }
  }

  lemma InitialIsGood(start: Time)
    ensures ClientInv(Initial(start))
  {
  }

  ghost predicate Reachable(w: World) {
    exists start: Time, events: seq<Event> :: w == Run(Initial(start), events)
  }

  lemma ReachableIsGood(w: World)
    requires Reachable(w)
    ensures ClientInv(w)
  {
    var start: Time, events: seq<Event> :| w == Run(Initial(start), events);
    RunKeepsClient(Initial(start), events);
  }

  // ---- What the server answers a tab ----

  /** A refresh on its way is answered with the new token when the session it names accepts it, and refused exactly
      when its length is out of range or no session accepts it. */
  lemma AnsweredExactly(w: World, i: nat, s: Uuid, token: string)
    requires i in w.tabs && w.tabs[i].flight.Some? && w.tabs[i].flight.value.Sent? && NewToken(w.issued, token)
    ensures
      var w' := Next(w, Handle(i, s, token));
      var raw := w.tabs[i].flight.value.token;
      var fits := 32 <= ByteLength(raw) <= 256;
      && i in w'.tabs
      && (w'.tabs[i].flight == Some(Answered(raw, Some(token))) <==> fits && Accepts(w.sessions, s, raw, w.now))
      && (w'.tabs[i].flight == Some(Answered(raw, None)) <==> !fits || forall x :: !Accepts(w.sessions, x, raw, w.now))
      && (w'.tabs[i].flight == Some(Answered(raw, Some(token))) ==>
            w'.sessions == w.sessions[s := w.sessions[s].(tokenHash := Sha256(token), lastUsedAt := w.now)])
  {
    hide ByteLength;
  }

  // ---- When a tab presents a spent token ----

  /** A tab presents a token that was spent exactly when its exchange was never told to the tab that asked for it, or
      was done for another tab, however requests, tabs, other users, sign-ins and revocations interleave. */
  lemma PresentsSpentExactly(w: World, i: nat)
    requires Reachable(w) && Presented(w, i).Some?
    ensures
      var token := Presented(w, i).value;
      token in w.spent <==> token in w.lost || (token in w.takenBy && w.takenBy[token] != i)
  {
    ReachableIsGood(w);
    assert GoodTab(w, i);
  }

  /** One tab, which is opened once, stays open, and gets its responses. */
  predicate OneReliableTab(e: Event) {
    !e.Lose? && !e.Close? && (e.Open? ==> e.tab == 0)
  }

  ghost predicate Alone(w: World) {
    && w.lost == {} && w.abandoned == {} && w.tabs.Keys <= {0}
    && forall x :: x in w.takenBy ==> w.takenBy[x] == 0
  }

  lemma {:induction false} StaysAlone(w: World, events: seq<Event>)
    requires Alone(w) && forall e :: e in events ==> OneReliableTab(e)
    ensures Alone(Run(w, events))
    decreases |events|
  {
    if events != [] {
      assert events[0] in events;
      assert Alone(Next(w, events[0])) by {
        hide Accepts, LongEnough, NewToken, Rotated, Revoked;
      }
      hide Alone, Next;
      StaysAlone(Next(w, events[0]), events[1..]);
    }
  }

  /** With reliable responses, the only tab never presents a spent token. */
  lemma ReliableTabNeverPresentsSpent(start: Time, events: seq<Event>, i: nat)
    requires forall e :: e in events ==> OneReliableTab(e)
    ensures
      var w := Run(Initial(start), events);
      Presented(w, i).Some? ==> Presented(w, i).value !in w.spent
  {
    var w := Run(Initial(start), events);
    StaysAlone(Initial(start), events);
    assert Reachable(w);
    hide Reachable, Run;
    if Presented(w, i).Some? {
      PresentsSpentExactly(w, i);
    }
  }

  /** The token of a tab that could refresh now. */
  predicate Ready(w: World, i: nat, s: Uuid, raw: string) {
    Presented(w, i) == Some(raw) && LongEnough(raw) && Accepts(w.sessions, s, raw, w.now)
  }

  lemma TabExchanges(w: World, i: nat, s: Uuid, raw: string, token: string)
    requires ClientInv(w) && Ready(w, i, s, raw) && NewToken(w.issued, token)
    ensures
      var w' := Next(Next(w, Need(i)), Handle(i, s, token));
      && w' == SetTab(Exchanged(w, s, raw, token), i, Client(w.tabs[i].session, Some(Answered(raw, Some(token)))))
                 .(own := w.own + {token}, takenBy := w.takenBy[raw := i])
      && raw in w'.spent && forall x :: !Accepts(w'.sessions, x, raw, w'.now)
  {
    var w1 := Next(w, Need(i));
    assert w1.tabs[i] == Client(w.tabs[i].session, Some(Sent(raw)));
    ExchangeKeepsServer(w, s, raw, token);
    hide ByteLength, TabsInv;
  }

  /** One lost answer is enough: the tab then presents the spent token, and is signed out by the refusal. */
  lemma LostAnswerStrandsTab(w: World, i: nat, s: Uuid, raw: string, token: string, token': string)
    requires Reachable(w) && Ready(w, i, s, raw)
    requires NewToken(w.issued, token) && NewToken(w.issued + {token}, token')
    ensures
      var w1 := Next(Next(Next(w, Need(i)), Handle(i, s, token)), Lose(i));
      var w2 := Next(Next(Next(w1, Need(i)), Handle(i, s, token')), Save(i));
      && Presented(w1, i) == Some(raw) && raw in w1.spent
      && i in w2.tabs && w2.tabs[i].session == None && w2.stored == None
  {
    ReachableIsGood(w);
    TabExchanges(w, i, s, raw, token);
    var w1 := Next(Next(Next(w, Need(i)), Handle(i, s, token)), Lose(i));
    Refused(w1, i, s, raw, token');
  }

  /** A request the tab gave up on may still be handled: then the tab presents a token that was spent meanwhile. */
  lemma LateRequestStrandsTab(w: World, i: nat, s: Uuid, raw: string, token: string)
    requires Reachable(w) && Ready(w, i, s, raw) && NewToken(w.issued, token)
    ensures
      var w' := Next(Next(Next(w, Need(i)), Lose(i)), HandleLate(raw, s, token));
      Presented(w', i) == Some(raw) && raw in w'.spent && raw in w'.lost && TokenIs(w', s, token)
  {
    var w1 := Next(w, Need(i));
    assert w1.tabs[i] == Client(w.tabs[i].session, Some(Sent(raw)));
    hide ByteLength, Reachable;
  }

  predicate TokenIs(w: World, s: Uuid, token: string) {
    s in w.sessions && w.sessions[s].tokenHash == Sha256(token)
  }

  /** A tab whose token nobody accepts any more signs itself out, and the storage with it. */
  lemma Refused(w: World, i: nat, s: Uuid, raw: string, token: string)
    requires Presented(w, i) == Some(raw) && NewToken(w.issued, token) && forall x :: !Accepts(w.sessions, x, raw, w.now)
    ensures
      var w' := Next(Next(Next(w, Need(i)), Handle(i, s, token)), Save(i));
      i in w'.tabs && w'.tabs[i].session == None && w'.stored == None && w'.sessions == w.sessions && w'.now == w.now
      && forall j :: j in w.tabs && j != i ==> j in w'.tabs && w'.tabs[j] == w.tabs[j]
  {
    var w1 := Next(w, Need(i));
    assert w1.tabs[i] == Client(w.tabs[i].session, Some(Sent(raw)));
    hide Accepts, LongEnough, NewToken;
  }

  /** Two tabs: the first signs in, the second is opened, and the first refreshes, all without any loss. */
  function Opening(s: Uuid, identity: Uuid, raw: string): seq<Event> {
    [Open(0), Register(0, s, identity, raw, 1), Open(1)]
  }

  function Refreshing(s: Uuid, token: string): seq<Event> {
    [Need(0), Handle(0, s, token), Save(0), Clear(0)]
  }

  /** Then the second tab presents the spent token; and when it is refused it clears the stored session, although
      the first tab's session is good. */
  lemma SecondTabPresentsSpent(start: Time, s: Uuid, identity: Uuid, raw: string, token: string, token': string)
    requires NewToken({}, raw) && NewToken({raw}, token) && NewToken({raw, token}, token')
    ensures
      var w := Run(Initial(start), Opening(s, identity, raw) + Refreshing(s, token));
      var w' := Next(Next(Next(w, Need(1)), Handle(1, s, token')), Save(1));
      && Reachable(w) && Presented(w, 1) == Some(raw) && raw in w.spent && raw !in w.lost
      && w'.stored == None && 1 in w'.tabs && w'.tabs[1].session == None
      && Presented(w', 0) == Some(token) && Accepts(w'.sessions, s, token, w'.now)
  {
    hide Run, ByteLength, Opening, Refreshing, Next, Accepts, Ready, TabsInv, TokenSets, ServerTokens;
    var (w0, events) := (Initial(start), Opening(s, identity, raw));
    var w1 := Run(w0, events);
    InitialIsGood(start);
    RunKeepsClient(w0, events);
    TwoTabsOpen(start, s, identity, raw);
    RunAppends(w0, events, Refreshing(s, token));
    FirstTabRefreshes(w1, s, raw, token);
    var w := Run(w0, events + Refreshing(s, token));
    assert Reachable(w);
    assert {raw} + {token} == {raw, token};
    Refused(w, 1, s, raw, token');
  }

  lemma TwoTabsOpen(start: Time, s: Uuid, identity: Uuid, raw: string)
    requires NewToken({}, raw)
    ensures
      var w := Run(Initial(start), Opening(s, identity, raw));
      && w.issued == {raw} && w.lost == {}
      && Presented(w, 1) == Some(raw) && Ready(w, 0, s, raw)
  {
    var (w0, register) := (Initial(start), Register(0, s, identity, raw, 1));
    var w1 := Next(w0, Open(0));
    var w2 := Next(w1, register);
    RunThree(w0, Open(0), register, Open(1));
    assert w1 == w0.(tabs := map[0 := Client(None, None)]);
    assert w2.tabs == map[0 := Client(Some(raw), None)] && w2.stored == Some(raw) && w2.issued == {raw};
    assert w2.sessions == map[s := AuthSession(identity, Sha256(raw), start + 1, None, start)];
    hide ByteLength, Run;
  }

  lemma FirstTabRefreshes(w: World, s: Uuid, raw: string, token: string)
    requires ClientInv(w) && Ready(w, 0, s, raw) && Presented(w, 1) == Some(raw) && NewToken(w.issued, token)
    ensures
      var w' := Run(w, Refreshing(s, token));
      && Presented(w', 1) == Some(raw) && raw in w'.spent && w'.lost == w.lost && w'.issued == w.issued + {token}
      && w'.now == w.now && (forall x :: !Accepts(w'.sessions, x, raw, w'.now))
      && Presented(w', 0) == Some(token) && Accepts(w'.sessions, s, token, w'.now)
  {
    hide Run, ClientInv, NewToken, LongEnough, TabsInv, TokenSets, ServerTokens;
    TabExchanges(w, 0, s, raw, token);
    var w2 := Next(Next(w, Need(0)), Handle(0, s, token));
    FirstTabSaves(w2, s, raw, token, w.tabs[0].session);
    FourSteps(w, s, token);
  }

  /** The answer arrives in a tab. */
  lemma FirstTabSaves(w: World, s: Uuid, raw: string, token: string, session: Option<string>)
    requires 0 in w.tabs && w.tabs[0] == Client(session, Some(Answered(raw, Some(token))))
    ensures
      var w' := Next(Next(w, Save(0)), Clear(0));
      && w'.tabs == w.tabs[0 := Client(Some(token), None)]
      && w' == w.(tabs := w'.tabs, stored := Some(token), shown := w.shown + {token})
  {
  }

  lemma FourSteps(w: World, s: Uuid, token: string)
    ensures Run(w, Refreshing(s, token)) == Next(Next(Next(Next(w, Need(0)), Handle(0, s, token)), Save(0)), Clear(0))
  {
    hide Next, Run;
    RunCons(w, Need(0), [Handle(0, s, token), Save(0), Clear(0)]);
    RunThree(Next(w, Need(0)), Handle(0, s, token), Save(0), Clear(0));
    assert Refreshing(s, token) == [Need(0)] + [Handle(0, s, token), Save(0), Clear(0)];
  }

  lemma RunCons(w: World, e: Event, rest: seq<Event>)
    ensures Run(w, [e] + rest) == Run(Next(w, e), rest)
  {
    assert ([e] + rest)[1..] == rest;
  }

  lemma RunThree(w: World, a: Event, b: Event, c: Event)
    ensures Run(w, [a, b, c]) == Next(Next(Next(w, a), b), c)
  {
    hide Next;
    RunCons(w, a, [b, c]);
    RunCons(Next(w, a), b, [c]);
    RunCons(Next(Next(w, a), b), c, []);
    assert [a, b, c] == [a] + [b, c] && [b, c] == [b] + [c] && [c] == [c] + [];
  }

  lemma {:induction false} RunAppends(w: World, first: seq<Event>, rest: seq<Event>)
    ensures Run(w, first + rest) == Run(Run(w, first), rest)
    decreases |first|
  {
    hide Next;
    if first == [] {
      assert first + rest == rest;
    } else {
      assert (first + rest)[1..] == first[1..] + rest;
      RunAppends(Next(w, first[0]), first[1..], rest);
    }
  }
}
