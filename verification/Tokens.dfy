/**
 Refresh-token families: rotation, reuse detection and logout (IdentityService). Requests are atomic with respect
 to each other and come in the order of the clock; a refresh may die between marking its token used and issuing the
 successor.
 */
module Tokens {
  import opened Types

  /** A row of refreshTokens. `secret` stands for the hashed secret, which is only compared. */
  datatype Token = Token(family: Id, user: Id, secret: string, used: bool, revoked: bool, expiresAt: int)

  type TokenTable = map<Id, Token>

  /**
   The syntax of the uuid column: how an id is printed, and which texts the database reads as which id (it may accept
   several spellings of one id). A query with any other text throws.
   */
  datatype Uuids = Uuids(show: Id -> string, read: string -> Option<Id>)

  ghost predicate UuidsOk(u: Uuids)
  {
    u.read("") == None && forall i: Id :: u.read(u.show(i)) == Some(i) && ':' !in u.show(i)
  }

  datatype RefreshResult =
    | Refreshed(cookie: string)
    | NoToken
    | Malformed
    | BadId
    | NotFound
    | Revoked
    | ReuseDetected
    | Expired
    | WrongSecret
    | Died

  // ---- the cookie -------------------------------------------------------------------------------

  /** indexOf(':') */
  function IndexOfColon(raw: string): (i: int)
    ensures -1 <= i < |raw|
    ensures i >= 0 ==> raw[i] == ':' && ':' !in raw[..i]
    ensures i == -1 ==> ':' !in raw
  {
    if raw == "" then -1
    else if raw[0] == ':' then 0
    else
      var rest := IndexOfColon(raw[1..]);
      if rest == -1 then -1 else rest + 1
  }

  /** slice(0, end); a negative end counts from the back. */
  function SliceTo(raw: string, end: int): string
    requires end <= |raw|
  {
    if end >= 0 then raw[..end] else if |raw| + end >= 0 then raw[..|raw| + end] else ""
  }

  function CookieOf(id: string, secret: string): string
  {
    id + ":" + secret
  }

  /** An issued cookie splits back into its id and secret, whatever the secret contains. */
  lemma {:induction false} CookieRoundTrip(id: string, secret: string)
    requires ':' !in id
    ensures IndexOfColon(CookieOf(id, secret)) == |id|
    ensures CookieOf(id, secret)[..|id|] == id && CookieOf(id, secret)[|id| + 1..] == secret
  {
    if id != "" {
      CookieRoundTrip(id[1..], secret);
      assert CookieOf(id, secret)[1..] == CookieOf(id[1..], secret);
    }
  }

  // ---- requests ---------------------------------------------------------------------------------

  function RevokeFamily(tokens: TokenTable, family: Id): TokenTable
  {
    map id | id in tokens :: if tokens[id].family == family then tokens[id].(revoked := true) else tokens[id]
  }

  function Issue(tokens: TokenTable, id: Id, user: Id, family: Id, secret: string, expiresAt: int): TokenTable
  {
    tokens[id := Token(family, user, secret, false, false, expiresAt)]
  }

  /** refresh; `newId`, `newSecret` are the random values of the successor, `dies` a crash before it is issued. */
  function Refresh(u: Uuids, tokens: TokenTable, cookie: Option<string>, now: int, ttl: nat, newId: Id,
      newSecret: string, dies: bool): (TokenTable, RefreshResult)
  {
    if cookie.None? || cookie.value == "" then (tokens, NoToken)
    else
      var sep := IndexOfColon(cookie.value);
      if sep == -1 then (tokens, Malformed)
      else
        match u.read(cookie.value[..sep])
        case None => (tokens, BadId)
        case Some(id) =>
          if id !in tokens then (tokens, NotFound)
          else
            var stored, secret := tokens[id], cookie.value[sep + 1..];
            if stored.revoked then (tokens, Revoked)
            else if stored.used then (RevokeFamily(tokens, stored.family), ReuseDetected)
            else if stored.expiresAt < now then (tokens, Expired)
            else if stored.secret != secret then (tokens, WrongSecret)
            else
              var marked := tokens[id := stored.(used := true)];
              if dies then (marked, Died)
              else (Issue(marked, newId, stored.user, stored.family, newSecret, now + ttl),
                    Refreshed(CookieOf(u.show(newId), newSecret)))
  }

  /** The cookie names this token: some text the database reads as its id, a colon, and a secret. */
  predicate Presents(u: Uuids, cookie: Option<string>, text: string, id: Id, secret: string)
  {
    ':' !in text && cookie == Some(CookieOf(text, secret)) && u.read(text) == Some(id)
  }

  predicate MayRefresh(tokens: TokenTable, id: Id, secret: string, now: int)
  {
    && id in tokens && Active(tokens[id])
    && now <= tokens[id].expiresAt && tokens[id].secret == secret
  }

  /** A stored token that has been refreshed and not been revoked since. */
  predicate Replays(tokens: TokenTable, id: Id)
  {
    id in tokens && tokens[id].used && !tokens[id].revoked
  }

  /** Every token of the family is revoked; no other token and no other column changes. */
  ghost predicate FamilyRevoked(tokens: TokenTable, after: TokenTable, family: Id)
  {
    && after.Keys == tokens.Keys
    && (forall id <- tokens ::
          after[id] == if tokens[id].family == family then tokens[id].(revoked := true) else tokens[id])
  }

  /** What a cookie presents is what refresh reads from it. */
  lemma Presented(u: Uuids, cookie: Option<string>, text: string, id: Id, secret: string)
    requires Presents(u, cookie, text, id, secret)
    ensures var sep := IndexOfColon(cookie.value);
            sep == |text| && cookie.value[..sep] == text && cookie.value[sep + 1..] == secret
  {
    CookieRoundTrip(text, secret);
  }

  /**
   A refresh that does not die succeeds if and only if its cookie presents a stored token and its secret, and the token
   is neither used, revoked nor expired. It then uses up that token and adds its successor to the family. It detects a
   reuse if and only if the presented token is used and not revoked, and then revokes exactly its family. Every other
   outcome leaves the table alone.
   */
  lemma RefreshSucceedsIff(u: Uuids, tokens: TokenTable, cookie: Option<string>, now: int, ttl: nat, newId: Id,
      newSecret: string, dies: bool)
    requires newId !in tokens
    ensures var (after, result) := Refresh(u, tokens, cookie, now, ttl, newId, newSecret, dies);
            && (result.Refreshed? || result.Died? <==>
                  exists text, id, secret :: Presents(u, cookie, text, id, secret)
                                               && MayRefresh(tokens, id, secret, now))
            && (result.Died? ==> dies)
            && (result.Refreshed? ==> !dies && result.cookie == CookieOf(u.show(newId), newSecret))
            && (forall text, id, secret :: Presents(u, cookie, text, id, secret)
                                            && MayRefresh(tokens, id, secret, now) ==>
                  var marked := tokens[id := tokens[id].(used := true)];
                  after == if dies then marked
                           else marked[newId := Token(tokens[id].family, tokens[id].user,
                                                     newSecret, false, false, now + ttl)])
            && (result.ReuseDetected? <==>
                  exists text, id, secret :: Presents(u, cookie, text, id, secret) && Replays(tokens, id))
            && (forall text, id, secret :: Presents(u, cookie, text, id, secret) && Replays(tokens, id) ==>
                  FamilyRevoked(tokens, after, tokens[id].family))
            && (!result.Refreshed? && !result.Died? && !result.ReuseDetected? ==> after == tokens)
  {
    forall text, id, secret | Presents(u, cookie, text, id, secret)
      ensures var sep := IndexOfColon(cookie.value);
              sep == |text| && cookie.value[..sep] == text && cookie.value[sep + 1..] == secret
    {
      Presented(u, cookie, text, id, secret);
    }
    var (after, result) := Refresh(u, tokens, cookie, now, ttl, newId, newSecret, dies);
    if result.Refreshed? || result.Died? || result.ReuseDetected? {
      var sep := IndexOfColon(cookie.value);
      var text, secret := cookie.value[..sep], cookie.value[sep + 1..];
      assert cookie.value == text + [cookie.value[sep]] + secret;
      assert Presents(u, cookie, text, u.read(text).value, secret);
    }
  }

  /**
   logout's update of the token named by the cookie; without a colon the id loses its last character. The flag says
   whether the update returned: it throws when the text is no uuid.
   */
  function Logout(u: Uuids, tokens: TokenTable, cookie: Option<string>): (TokenTable, bool)
  {
    if cookie.None? || cookie.value == "" then (tokens, true)
    else
      var text := SliceTo(cookie.value, IndexOfColon(cookie.value));
      if text == "" then (tokens, true)
      else
        match u.read(text)
        case None => (tokens, false)
        case Some(id) => (if id in tokens then tokens[id := tokens[id].(revoked := true)] else tokens, true)
  }

  /**
   Exactly what a logout does to the tokens. The id is the text before the first colon, or, without a colon, all but the
   last character. If the database reads that text as the id of a stored token, then that token is revoked and nothing
   else changes; otherwise nothing does. It throws if and only if there is a text and it is no id.
   */
  lemma LogoutIs(u: Uuids, tokens: TokenTable, cookie: Option<string>, text: string, rest: string)
    requires cookie.Some? && cookie.value == text + rest
    requires (rest != "" && rest[0] == ':' && ':' !in text) || (|rest| == 1 && ':' !in text + rest)
    ensures var (after, returned) := Logout(u, tokens, cookie);
            && (returned <==> text == "" || u.read(text).Some?)
            && after.Keys == tokens.Keys
            && (forall id <- tokens ::
                  after[id] == if text != "" && u.read(text) == Some(id) then tokens[id].(revoked := true)
                       else tokens[id])
  {
    var raw := cookie.value;
    if rest[0] == ':' {
      CookieRoundTrip(text, rest[1..]);
      assert raw == CookieOf(text, rest[1..]);
    } else {
      assert IndexOfColon(raw) == -1;
    }
    assert SliceTo(raw, IndexOfColon(raw)) == text;
  }

  /** Without a cookie a logout leaves the tokens alone. */
  lemma LogoutWithoutCookie(u: Uuids, tokens: TokenTable)
    ensures Logout(u, tokens, None) == Logout(u, tokens, Some("")) == (tokens, true)
  {
  }

  // ---- every sequence of requests ---------------------------------------------------------------

  datatype Event =
    | LoginEvent(user: Id, family: Id, id: Id, secret: string, now: int)
    | RefreshEvent(cookie: Option<string>, now: int, id: Id, secret: string, dies: bool)
    | LogoutEvent(cookie: Option<string>, now: int)

  /**
   `now` is the time of the last request. `issuedFrom` and `refreshed` are history: which token's refresh issued a
   token (none for a login), and the tokens refreshed so far. `chains` lists each family's tokens in the order they
   were issued.
   */
  datatype Sessions = Sessions(
    tokens: TokenTable,
    issuedFrom: map<Id, Option<Id>>,
    chains: map<Id, seq<Id>>,
    refreshed: seq<Id>,
    now: int)

  const NO_SESSIONS: Sessions := Sessions(map[], map[], map[], [], 0)

  /** The clock does not run backwards, and random ids are new. */
  predicate EventOk(s: Sessions, e: Event)
  {
    s.now <= e.now &&
    match e
    case LoginEvent(_, family, id, _, _) => id !in s.tokens && family !in s.chains
    case RefreshEvent(_, _, id, _, _) => id !in s.tokens
    case LogoutEvent(_, _) => true
  }

  function After(u: Uuids, s: Sessions, ttl: nat, e: Event): Sessions
  {
    match e
    case LoginEvent(user, family, id, secret, now) =>
      Sessions(Issue(s.tokens, id, user, family, secret, now + ttl), s.issuedFrom[id := None],
               s.chains[family := [id]], s.refreshed, now)
    case RefreshEvent(cookie, now, id, secret, dies) =>
      var (tokens, result) := Refresh(u, s.tokens, cookie, now, ttl, id, secret, dies);
      if result.Refreshed? then
        var used := u.read(cookie.value[..IndexOfColon(cookie.value)]).value;
        var family := tokens[id].family;
        Sessions(tokens, s.issuedFrom[id := Some(used)],
                 s.chains[family := (if family in s.chains then s.chains[family] else []) + [id]],
                 s.refreshed + [used], now)
      else s.(tokens := tokens, now := now)
    case LogoutEvent(cookie, now) => s.(tokens := Logout(u, s.tokens, cookie).0, now := now)
  }

  ghost predicate LegalEvents(u: Uuids, s: Sessions, ttl: nat, events: seq<Event>)
    decreases |events|
  {
    events == [] || (EventOk(s, events[0]) && LegalEvents(u, After(u, s, ttl, events[0]), ttl, events[1..]))
  }

  function RunEvents(u: Uuids, s: Sessions, ttl: nat, events: seq<Event>): Sessions
    decreases |events|
  {
    if events == [] then s else RunEvents(u, After(u, s, ttl, events[0]), ttl, events[1..])
  }

  predicate Active(t: Token)
  {
    !t.used && !t.revoked
  }

  ghost predicate ChainOk(s: Sessions, family: Id, chain: seq<Id>)
  {
    && chain != []
    && (forall i :: 0 <= i < |chain| ==> chain[i] in s.tokens && s.tokens[chain[i]].family == family)
    && (forall i, j :: 0 <= i < j < |chain| ==> chain[i] != chain[j])
    && (forall i :: 0 <= i < |chain| - 1 ==> s.tokens[chain[i]].used)
    && (forall i {:trigger LinkOk(s.issuedFrom, chain, i)} :: 0 <= i < |chain| ==> LinkOk(s.issuedFrom, chain, i))
  }

  /** The first token of a chain came from a login, every other one from the refresh of the one before it. */
  ghost predicate LinkOk(issuedFrom: map<Id, Option<Id>>, chain: seq<Id>, i: int)
    requires 0 <= i < |chain|
  {
    chain[i] in issuedFrom && issuedFrom[chain[i]] == if i == 0 then None else Some(chain[i - 1])
  }

  ghost predicate SessionsInv(s: Sessions)
  {
    && (forall id <- s.tokens :: s.tokens[id].family in s.chains && id in s.chains[s.tokens[id].family])
    && (forall f <- s.chains :: ChainOk(s, f, s.chains[f]))
    && (forall i :: 0 <= i < |s.refreshed| ==> s.refreshed[i] in s.tokens && s.tokens[s.refreshed[i]].used)
    && (forall i, j :: 0 <= i < j < |s.refreshed| ==> s.refreshed[i] != s.refreshed[j])
  }

  /** Only the newest token of a family can be active, so a refresh always extends the chain at its end. */
  lemma ActiveIsNewest(s: Sessions, id: Id)
    requires SessionsInv(s) && id in s.tokens && Active(s.tokens[id])
    ensures var chain := s.chains[s.tokens[id].family]; id == chain[|chain| - 1]
  {
    var chain := s.chains[s.tokens[id].family];
    assert ChainOk(s, s.tokens[id].family, chain);
    var i :| 0 <= i < |chain| && chain[i] == id;
  }

  /** What a step may do to the tokens that exist: flags are only raised, the rest is fixed. */
  ghost predicate FlagsRise(tokens: TokenTable, tokens': TokenTable)
  {
    forall id <- tokens :: id in tokens'
                           && tokens'[id] == tokens[id].(used := tokens'[id].used, revoked := tokens'[id].revoked)
                           && (tokens[id].used ==> tokens'[id].used) && (tokens[id].revoked ==> tokens'[id].revoked)
  }

  lemma RefreshShape(u: Uuids, tokens: TokenTable, cookie: Option<string>, now: int, ttl: nat, newId: Id,
      newSecret: string, dies: bool)
    requires newId !in tokens
    ensures var (after, result) := Refresh(u, tokens, cookie, now, ttl, newId, newSecret, dies);
            && FlagsRise(tokens, after)
            && (!result.Refreshed? ==> after.Keys == tokens.Keys)
            && (result.Refreshed? ==>
                  && cookie.Some? && IndexOfColon(cookie.value) >= 0
                  && var text := cookie.value[..IndexOfColon(cookie.value)];
                  && u.read(text).Some?
                  && var used := u.read(text).value;
                  && used in tokens && Active(tokens[used]) && now <= tokens[used].expiresAt && after[used].used
                  && after.Keys == tokens.Keys + {newId}
                  && after[newId].family == tokens[used].family && Active(after[newId]))
  {
  }

  lemma ChainStays(s: Sessions, s': Sessions, family: Id)
    requires family in s.chains && ChainOk(s, family, s.chains[family])
    requires family in s'.chains && s'.chains[family] == s.chains[family]
    requires FlagsRise(s.tokens, s'.tokens)
    requires forall id <- s.issuedFrom :: id in s.tokens ==>
               id in s'.issuedFrom && s'.issuedFrom[id] == s.issuedFrom[id]
    ensures ChainOk(s', family, s'.chains[family])
  {
    var chain := s.chains[family];
    forall i | 0 <= i < |chain| ensures LinkOk(s'.issuedFrom, chain, i) {
      assert LinkOk(s.issuedFrom, chain, i);
    }
  }

  /** A step that issues no token. */
  lemma FlagStep(s: Sessions, tokens': TokenTable, now: int)
    requires SessionsInv(s) && FlagsRise(s.tokens, tokens') && tokens'.Keys == s.tokens.Keys
    ensures SessionsInv(s.(tokens := tokens', now := now))
  {
    var s' := s.(tokens := tokens', now := now);
    forall f <- s'.chains ensures ChainOk(s', f, s'.chains[f]) {
      ChainStays(s, s', f);
    }
  }

  /** A token appended to a chain by the refresh of the chain's last token. */
  lemma ChainGrows(s: Sessions, s': Sessions, family: Id, used: Id, newId: Id)
    requires family in s.chains && ChainOk(s, family, s.chains[family])
    requires var chain := s.chains[family]; chain[|chain| - 1] == used
    requires family in s'.chains && s'.chains[family] == s.chains[family] + [newId] && newId !in s.tokens
    requires FlagsRise(s.tokens, s'.tokens) && s'.tokens[used].used
    requires newId in s'.tokens && s'.tokens[newId].family == family
    requires s'.issuedFrom == s.issuedFrom[newId := Some(used)]
    ensures ChainOk(s', family, s'.chains[family])
  {
    var chain, chain' := s.chains[family], s'.chains[family];
    assert forall i :: 0 <= i < |chain| ==> chain'[i] == chain[i];
    forall i | 0 <= i < |chain'| ensures LinkOk(s'.issuedFrom, chain', i) {
      if i < |chain| {
        assert LinkOk(s.issuedFrom, chain, i);
      }
    }
  }

  /** A successful refresh. */
  lemma RotationStep(s: Sessions, s': Sessions, used: Id, newId: Id)
    requires SessionsInv(s) && used in s.tokens && Active(s.tokens[used]) && newId !in s.tokens
    requires FlagsRise(s.tokens, s'.tokens) && s'.tokens.Keys == s.tokens.Keys + {newId} && s'.tokens[used].used
    requires var family := s.tokens[used].family;
             && s'.tokens[newId].family == family && family in s.chains
             && s' == Sessions(s'.tokens, s.issuedFrom[newId := Some(used)],
                               s.chains[family := s.chains[family] + [newId]], s.refreshed + [used], s'.now)
    ensures SessionsInv(s')
  {
    ActiveIsNewest(s, used);
    hide Active;
    var family := s.tokens[used].family;
    ChainGrows(s, s', family, used, newId);
    forall f <- s'.chains | f != family ensures ChainOk(s', f, s'.chains[f]) {
      ChainStays(s, s', f);
    }
    hide ChainOk;
    assert forall i :: 0 <= i < |s.refreshed| ==> s'.refreshed[i] == s.refreshed[i];
  }

  /** A login starts a chain of its own. */
  lemma LoginStep(s: Sessions, s': Sessions, family: Id, newId: Id)
    requires SessionsInv(s) && newId !in s.tokens && family !in s.chains
    requires FlagsRise(s.tokens, s'.tokens) && s'.tokens.Keys == s.tokens.Keys + {newId}
    requires s'.tokens[newId].family == family
    requires s' == Sessions(s'.tokens, s.issuedFrom[newId := None], s.chains[family := [newId]], s.refreshed, s'.now)
    ensures SessionsInv(s')
  {
    assert ChainOk(s', family, [newId]);
    forall f <- s'.chains | f != family ensures ChainOk(s', f, s'.chains[f]) {
      ChainStays(s, s', f);
    }
    hide ChainOk;
  }

  lemma EventKeepsInv(u: Uuids, s: Sessions, ttl: nat, e: Event)
    requires SessionsInv(s) && EventOk(s, e)
    ensures SessionsInv(After(u, s, ttl, e))
  {
    hide SessionsInv, Refresh;
    var s' := After(u, s, ttl, e);
    match e
    case LoginEvent(_, family, id, _, _) => LoginStep(s, s', family, id);
    case LogoutEvent(cookie, now) => FlagStep(s, Logout(u, s.tokens, cookie).0, now);
    case RefreshEvent(cookie, now, id, secret, dies) =>
      RefreshShape(u, s.tokens, cookie, now, ttl, id, secret, dies);
      var (tokens, result) := Refresh(u, s.tokens, cookie, now, ttl, id, secret, dies);
      if result.Refreshed? {
        var used := u.read(cookie.value[..IndexOfColon(cookie.value)]).value;
        FamilyKnown(s, used);
        RotationStep(s, s', used, id);
      } else {
        FlagStep(s, tokens, now);
      }
  }

  lemma FamilyKnown(s: Sessions, id: Id)
    requires SessionsInv(s) && id in s.tokens
    ensures s.tokens[id].family in s.chains
    ensures var chain := s.chains[s.tokens[id].family];
            chain != [] && chain[|chain| - 1] in s.tokens && s.tokens[chain[|chain| - 1]].family == s.tokens[id].family
  {
    assert ChainOk(s, s.tokens[id].family, s.chains[s.tokens[id].family]);
  }

  lemma {:induction false} EventsKeepInv(u: Uuids, s: Sessions, ttl: nat, events: seq<Event>)
    requires SessionsInv(s) && LegalEvents(u, s, ttl, events)
    ensures SessionsInv(RunEvents(u, s, ttl, events))
    decreases |events|
  {
    hide SessionsInv, After, EventOk;
    if events != [] {
      EventKeepsInv(u, s, ttl, events[0]);
      EventsKeepInv(u, After(u, s, ttl, events[0]), ttl, events[1..]);
    }
  }

  lemma ReachableSessions(u: Uuids, ttl: nat, events: seq<Event>)
    requires LegalEvents(u, NO_SESSIONS, ttl, events)
    ensures SessionsInv(RunEvents(u, NO_SESSIONS, ttl, events))
  {
    EventsKeepInv(u, NO_SESSIONS, ttl, events);
  }

  /**
   In every reachable state: a family has at most one active token, each token is refreshed at most once, and a
   family's tokens form one chain from its login, each issued by the refresh of the one before.
   */
  lemma FamiliesAreChains(u: Uuids, ttl: nat, events: seq<Event>)
    requires LegalEvents(u, NO_SESSIONS, ttl, events)
    ensures var s := RunEvents(u, NO_SESSIONS, ttl, events);
            && (forall a <- s.tokens, b <- s.tokens ::
                  s.tokens[a].family == s.tokens[b].family && Active(s.tokens[a]) && Active(s.tokens[b]) ==> a == b)
            && (forall i, j :: 0 <= i < j < |s.refreshed| ==> s.refreshed[i] != s.refreshed[j])
            && (forall id <- s.tokens :: s.tokens[id].family in s.chains && id in s.chains[s.tokens[id].family])
            && (forall f <- s.chains :: ChainOk(s, f, s.chains[f]))
  {
    ReachableSessions(u, ttl, events);
    var s := RunEvents(u, NO_SESSIONS, ttl, events);
    forall a <- s.tokens, b <- s.tokens
      | s.tokens[a].family == s.tokens[b].family && Active(s.tokens[a]) && Active(s.tokens[b])
      ensures a == b
    {
      ActiveIsNewest(s, a);
      ActiveIsNewest(s, b);
    }
  }

  // ---- finality ---------------------------------------------------------------------------------

  ghost predicate AllRevoked(s: Sessions, family: Id)
  {
    family in s.chains && forall id <- s.tokens :: s.tokens[id].family == family ==> s.tokens[id].revoked
  }

  ghost predicate NoneActive(s: Sessions, family: Id)
  {
    family in s.chains && forall id <- s.tokens :: s.tokens[id].family == family ==> !Active(s.tokens[id])
  }

  /** An active token that has not expired at the given time. */
  predicate Live(t: Token, now: int)
  {
    Active(t) && now <= t.expiresAt
  }

  ghost predicate NoneLive(s: Sessions, family: Id)
  {
    family in s.chains && forall id <- s.tokens :: s.tokens[id].family == family ==> !Live(s.tokens[id], s.now)
  }

  /** How many refreshes the family has had. */
  function Refreshes(s: Sessions, family: Id): nat
  {
    if family in s.chains then |s.chains[family]| else 0
  }

  /** What keeps a family dead: the flags of its tokens only rise, time goes on, and no token joins it. */
  lemma DeadWhenFlagsRise(s: Sessions, s': Sessions, family: Id)
    requires NoneLive(s, family) && FlagsRise(s.tokens, s'.tokens) && family in s'.chains && s.now <= s'.now
    requires forall id <- s'.tokens :: id in s.tokens || s'.tokens[id].family != family
    ensures NoneLive(s', family)
    ensures (NoneActive(s, family) ==> NoneActive(s', family)) && (AllRevoked(s, family) ==> AllRevoked(s', family))
  {
  }

  lemma EventKeepsDead(u: Uuids, s: Sessions, ttl: nat, e: Event, family: Id)
    requires SessionsInv(s) && EventOk(s, e) && NoneLive(s, family)
    ensures var s' := After(u, s, ttl, e);
            && NoneLive(s', family) && s'.chains[family] == s.chains[family]
            && (NoneActive(s, family) ==> NoneActive(s', family)) && (AllRevoked(s, family) ==> AllRevoked(s', family))
  {
    hide SessionsInv, AllRevoked, NoneActive, Refresh;
    var s' := After(u, s, ttl, e);
    if e.RefreshEvent? {
      RefreshShape(u, s.tokens, e.cookie, e.now, ttl, e.id, e.secret, e.dies);
    }
    DeadWhenFlagsRise(s, s', family);
  }

  /** A family without a live token never gains one, and never sees another successful refresh. */
  lemma {:induction false} DeadStaysDead(u: Uuids, s: Sessions, ttl: nat, events: seq<Event>, family: Id)
    requires SessionsInv(s) && LegalEvents(u, s, ttl, events) && NoneLive(s, family)
    ensures var s' := RunEvents(u, s, ttl, events);
            && NoneLive(s', family) && Refreshes(s', family) == Refreshes(s, family)
            && (NoneActive(s, family) ==> NoneActive(s', family)) && (AllRevoked(s, family) ==> AllRevoked(s', family))
    decreases |events|
  {
    hide SessionsInv, After, EventOk;
    if events != [] {
      EventKeepsDead(u, s, ttl, events[0], family);
      EventKeepsInv(u, s, ttl, events[0]);
      DeadStaysDead(u, After(u, s, ttl, events[0]), ttl, events[1..], family);
    }
  }

  /**
   Replaying a used, unrevoked token revokes every token of its family, and in no later state does the family
   have an unrevoked token or another successful refresh.
   */
  lemma ReplayIsFinal(u: Uuids, before: seq<Event>, ttl: nat, e: Event, later: seq<Event>, text: string, id: Id,
      secret: string)
    requires LegalEvents(u, NO_SESSIONS, ttl, before)
    requires var s := RunEvents(u, NO_SESSIONS, ttl, before);
             && EventOk(s, e) && e.RefreshEvent? && Presents(u, e.cookie, text, id, secret)
             && id in s.tokens && s.tokens[id].used && !s.tokens[id].revoked
             && LegalEvents(u, After(u, s, ttl, e), ttl, later)
    ensures var s := RunEvents(u, NO_SESSIONS, ttl, before);
            var family := s.tokens[id].family;
            var end := RunEvents(u, After(u, s, ttl, e), ttl, later);
            AllRevoked(end, family) && Refreshes(end, family) == Refreshes(s, family)
  {
    ReachableSessions(u, ttl, before);
    var s := RunEvents(u, NO_SESSIONS, ttl, before);
    Presented(u, e.cookie, text, id, secret);
    var s' := After(u, s, ttl, e);
    assert s'.tokens == RevokeFamily(s.tokens, s.tokens[id].family);
    EventKeepsInv(u, s, ttl, e);
    DeadStaysDead(u, s', ttl, later, s.tokens[id].family);
  }

  /** A refresh that dies before it issues the successor ends its family: no later refresh of it ever succeeds. */
  lemma DeathEndsFamily(u: Uuids, before: seq<Event>, ttl: nat, e: Event, later: seq<Event>, text: string, id: Id,
      secret: string)
    requires LegalEvents(u, NO_SESSIONS, ttl, before)
    requires var s := RunEvents(u, NO_SESSIONS, ttl, before);
             && EventOk(s, e) && e.RefreshEvent? && e.dies && Presents(u, e.cookie, text, id, secret)
             && MayRefresh(s.tokens, id, secret, e.now)
             && LegalEvents(u, After(u, s, ttl, e), ttl, later)
    ensures var s := RunEvents(u, NO_SESSIONS, ttl, before);
            var family := s.tokens[id].family;
            var end := RunEvents(u, After(u, s, ttl, e), ttl, later);
            NoneActive(end, family) && Refreshes(end, family) == Refreshes(s, family)
  {
    hide LegalEvents, RunEvents;
    ReachableSessions(u, ttl, before);
    var s := RunEvents(u, NO_SESSIONS, ttl, before);
    FamilyKnown(s, id);
    Presented(u, e.cookie, text, id, secret);
    var s' := After(u, s, ttl, e);
    assert s' == s.(tokens := s.tokens[id := s.tokens[id].(used := true)], now := e.now);
    forall t <- s'.tokens | s'.tokens[t].family == s.tokens[id].family ensures !Active(s'.tokens[t]) {
      if Active(s.tokens[t]) {
        ActiveIsNewest(s, t);
        ActiveIsNewest(s, id);
      }
    }
    EventKeepsInv(u, s, ttl, e);
    DeadStaysDead(u, s', ttl, later, s.tokens[id].family);
  }

  lemma RunOneEvent(u: Uuids, s: Sessions, ttl: nat, e: Event)
    requires EventOk(s, e)
    ensures LegalEvents(u, s, ttl, [e]) && RunEvents(u, s, ttl, [e]) == After(u, s, ttl, e)
  {
    hide After, EventOk;
    assert [e][1..] == [];
  }

  /** The owner of a live token can refresh it now. */
  lemma LiveCanRefresh(u: Uuids, s: Sessions, ttl: nat, id: Id) returns (e: Event)
    requires UuidsOk(u) && SessionsInv(s) && id in s.tokens && Live(s.tokens[id], s.now)
    ensures EventOk(s, e)
    ensures Refreshes(After(u, s, ttl, e), s.tokens[id].family) > Refreshes(s, s.tokens[id].family)
  {
    FamilyKnown(s, id);
    hide SessionsInv;
    var newId := FreshId(s.tokens.Keys);
    e := RefreshEvent(Some(CookieOf(u.show(id), s.tokens[id].secret)), s.now, newId, "", false);
    assert u.read(u.show(id)) == Some(id);
    Presented(u, e.cookie, u.show(id), id, s.tokens[id].secret);
  }

  /** A family can still be refreshed by some later requests if and only if it has an active, unexpired token. */
  lemma RefreshableIffLive(u: Uuids, s: Sessions, ttl: nat, family: Id)
    requires UuidsOk(u) && SessionsInv(s) && family in s.chains
    ensures (exists events ::
               LegalEvents(u, s, ttl, events) && Refreshes(RunEvents(u, s, ttl, events), family) > Refreshes(s, family))
            <==> exists id <- s.tokens :: s.tokens[id].family == family && Live(s.tokens[id], s.now)
  {
    hide SessionsInv, After, EventOk;
    if NoneLive(s, family) {
      forall events | LegalEvents(u, s, ttl, events)
        ensures Refreshes(RunEvents(u, s, ttl, events), family) == Refreshes(s, family)
      {
        DeadStaysDead(u, s, ttl, events, family);
      }
    } else {
      var id :| id in s.tokens && s.tokens[id].family == family && Live(s.tokens[id], s.now);
      var e := LiveCanRefresh(u, s, ttl, id);
      RunOneEvent(u, s, ttl, e);
    }
  }

  ghost predicate NeverRefreshed(u: Uuids, s: Sessions, ttl: nat, family: Id)
  {
    forall later :: LegalEvents(u, s, ttl, later) ==>
      Refreshes(RunEvents(u, s, ttl, later), family) == Refreshes(s, family)
  }

  lemma NeverRefreshedIffDead(u: Uuids, s: Sessions, ttl: nat, family: Id)
    requires UuidsOk(u) && SessionsInv(s) && family in s.chains
    ensures NeverRefreshed(u, s, ttl, family) <==> NoneLive(s, family)
  {
    hide SessionsInv, LegalEvents, RunEvents, Refreshes, Live;
    RefreshableIffLive(u, s, ttl, family);
    if NoneLive(s, family) {
      forall later | LegalEvents(u, s, ttl, later)
        ensures Refreshes(RunEvents(u, s, ttl, later), family) == Refreshes(s, family)
      {
        DeadStaysDead(u, s, ttl, later, family);
      }
    }
  }

  /**
   After logout with the cookie of a stored token, no later refresh of its family succeeds if and only if that
   token was the family's newest one, or the newest one was already used or revoked, or it has expired. Logging out
   with an older cookie of a session in use leaves the session alive.
   */
  lemma LogoutIsFinalIffNewest(u: Uuids, before: seq<Event>, ttl: nat, e: Event, text: string, id: Id, secret: string)
    requires UuidsOk(u) && LegalEvents(u, NO_SESSIONS, ttl, before)
    requires var s := RunEvents(u, NO_SESSIONS, ttl, before);
             EventOk(s, e) && e.LogoutEvent? && Presents(u, e.cookie, text, id, secret) && id in s.tokens
    ensures var s := RunEvents(u, NO_SESSIONS, ttl, before);
            var family := s.tokens[id].family;
            && family in s.chains && s.chains[family] != []
            && var newest := s.chains[family][|s.chains[family]| - 1];
            && newest in s.tokens
            && (NeverRefreshed(u, After(u, s, ttl, e), ttl, family) <==> id == newest || !Live(s.tokens[newest], e.now))
  {
    hide SessionsInv, After, Live, LegalEvents, RunEvents, EventOk, NeverRefreshed, UuidsOk;
    ReachableSessions(u, ttl, before);
    var s := RunEvents(u, NO_SESSIONS, ttl, before);
    FamilyKnown(s, id);
    LogoutKills(u, s, ttl, e, text, id, secret);
    EventKeepsInv(u, s, ttl, e);
    NeverRefreshedIffDead(u, After(u, s, ttl, e), ttl, s.tokens[id].family);
  }

  /** Which logouts leave a family without a live token. */
  lemma LogoutKills(u: Uuids, s: Sessions, ttl: nat, e: Event, text: string, id: Id, secret: string)
    requires UuidsOk(u) && SessionsInv(s) && id in s.tokens && s.tokens[id].family in s.chains
    requires e.LogoutEvent? && EventOk(s, e) && Presents(u, e.cookie, text, id, secret)
    requires s.chains[s.tokens[id].family] != []
    ensures var s' := After(u, s, ttl, e);
            var chain := s.chains[s.tokens[id].family]; var newest := chain[|chain| - 1];
            && s'.chains == s.chains && newest in s.tokens
            && (NoneLive(s', s.tokens[id].family) <==> (id == newest || !Live(s.tokens[newest], e.now)))
  {
    FamilyKnown(s, id);
    Presented(u, e.cookie, text, id, secret);
    var s' := After(u, s, ttl, e);
    assert s'.tokens == s.tokens[id := s.tokens[id].(revoked := true)];
    var family := s.tokens[id].family;
    var newest := s.chains[family][|s.chains[family]| - 1];
    forall t <- s.tokens | s.tokens[t].family == family && Active(s.tokens[t]) ensures t == newest {
      ActiveIsNewest(s, t);
    }
    hide SessionsInv, After;
    if id != newest && Live(s.tokens[newest], e.now) {
      assert Live(s'.tokens[newest], s'.now);
    }
  }

  // ---- the losses do occur ------------------------------------------------------------------------

  /** A syntax meeting the assumptions: an id is printed as one digit more than its value. */
  const UNARY: Uuids := Uuids(
    (i: Id) => seq(i + 1, _ => '0'),
    (text: string) => if text != "" && text == seq(|text|, _ => '0') then Some(|text| - 1) else None)

  lemma UnaryIsOk()
    ensures UuidsOk(UNARY)
  {
    forall i: Id ensures UNARY.read(UNARY.show(i)) == Some(i) && ':' !in UNARY.show(i) {
      var text := UNARY.show(i);
      assert |text| == i + 1 && text == seq(|text|, _ => '0');
    }
  }

  /** The cookie of the login below. */
  function FirstCookie(u: Uuids): Option<string>
  {
    Some(CookieOf(u.show(0), "s"))
  }

  const LOGIN: Event := LoginEvent(0, 0, 0, "s", 0)

  /** Its refresh at time 5, which may die. */
  function Rotation(u: Uuids, dies: bool): Event
  {
    RefreshEvent(FirstCookie(u), 5, 1, "t", dies)
  }

  const FIRST: Sessions := Sessions(map[0 := Token(0, 0, "s", false, false, 10)], map[0 := None], map[0 := [0]], [], 0)

  const SECOND: Sessions := Sessions(
    map[0 := Token(0, 0, "s", true, false, 10), 1 := Token(0, 0, "t", false, false, 15)],
    map[0 := None, 1 := Some(0)], map[0 := [0, 1]], [0], 5)

  lemma FirstIsReached(u: Uuids)
    ensures LegalEvents(u, NO_SESSIONS, 10, [LOGIN]) && RunEvents(u, NO_SESSIONS, 10, [LOGIN]) == FIRST
  {
    RunOneEvent(u, NO_SESSIONS, 10, LOGIN);
  }

  lemma CookieIsPresented(u: Uuids)
    requires UuidsOk(u)
    ensures Presents(u, FirstCookie(u), u.show(0), 0, "s")
    ensures var raw := FirstCookie(u).value; var sep := IndexOfColon(raw);
            raw != "" && sep >= 0 && u.read(raw[..sep]) == Some(0) && raw[sep + 1..] == "s"
  {
    assert u.read(u.show(0)) == Some(0);
    Presented(u, FirstCookie(u), u.show(0), 0, "s");
  }

  lemma RotationSucceeds(u: Uuids)
    requires UuidsOk(u)
    ensures EventOk(FIRST, Rotation(u, false)) && After(u, FIRST, 10, Rotation(u, false)) == SECOND
  {
    CookieIsPresented(u);
    hide IndexOfColon, CookieOf, UuidsOk, FirstCookie;
    assert [0] + [1] == [0, 1];
  }

  lemma SecondIsReached(u: Uuids)
    requires UuidsOk(u)
    ensures LegalEvents(u, NO_SESSIONS, 10, [LOGIN, Rotation(u, false)])
    ensures RunEvents(u, NO_SESSIONS, 10, [LOGIN, Rotation(u, false)]) == SECOND
  {
    FirstIsReached(u);
    RotationSucceeds(u);
    hide EventOk, After, Rotation, UuidsOk;
    RunOneEvent(u, FIRST, 10, Rotation(u, false));
    assert [LOGIN, Rotation(u, false)][1..] == [Rotation(u, false)] && [LOGIN][1..] == [];
    assert After(u, NO_SESSIONS, 10, LOGIN) == FIRST && EventOk(NO_SESSIONS, LOGIN) by {
      assert RunEvents(u, NO_SESSIONS, 10, [LOGIN]) == RunEvents(u, After(u, NO_SESSIONS, 10, LOGIN), 10, []);
    }
  }

  /**
   A login, a refresh, and a logout with the cookie of before the refresh: the session stays refreshable, unless its
   newest token has already expired by then.
   */
  lemma OlderCookieMissesSession(u: Uuids, time: int)
    requires UuidsOk(u) && 5 <= time
    ensures LegalEvents(u, NO_SESSIONS, 10, [LOGIN, Rotation(u, false)])
    ensures var s := RunEvents(u, NO_SESSIONS, 10, [LOGIN, Rotation(u, false)]);
            var e := LogoutEvent(FirstCookie(u), time);
            EventOk(s, e) && (NeverRefreshed(u, After(u, s, 10, e), 10, 0) <==> 15 < time)
  {
    hide LegalEvents, RunEvents, After, NeverRefreshed, UuidsOk, Presents, Rotation, FirstCookie;
    SecondIsReached(u);
    CookieIsPresented(u);
    LogoutIsFinalIffNewest(u, [LOGIN, Rotation(u, false)], 10, LogoutEvent(FirstCookie(u), time), u.show(0), 0, "s");
  }

  /** A refresh that dies half-way: the family's one login is never refreshed. */
  lemma RefreshCanDie(u: Uuids, later: seq<Event>)
    requires UuidsOk(u) && LegalEvents(u, After(u, FIRST, 10, Rotation(u, true)), 10, later)
    ensures LegalEvents(u, NO_SESSIONS, 10, [LOGIN]) && RunEvents(u, NO_SESSIONS, 10, [LOGIN]) == FIRST
    ensures var end := RunEvents(u, After(u, FIRST, 10, Rotation(u, true)), 10, later);
            NoneActive(end, 0) && Refreshes(end, 0) == 1
  {
    hide LegalEvents, RunEvents, After, NoneActive, UuidsOk, Presents, FirstCookie;
    FirstIsReached(u);
    CookieIsPresented(u);
    DeathEndsFamily(u, [LOGIN], 10, Rotation(u, true), later, u.show(0), 0, "s");
  }

  /** A logout whose cookie holds no uuid throws before it gets to the access token. */
  lemma BadCookieStopsLogout(u: Uuids, tokens: TokenTable, text: string, secret: string)
    requires text != "" && ':' !in text && u.read(text) == None
    ensures Logout(u, tokens, Some(CookieOf(text, secret))) == (tokens, false)
  {
    CookieRoundTrip(text, secret);
  }
}
