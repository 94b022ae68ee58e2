/** IdentityService as it runs: token rows are updated in place, each method leaving what its specification says. */
module Identity {
  import opened Types
  import opened Tokens
  import opened AccessTokens

  class IdentityService {
    var tokens: TokenTable
    const redis: PersistentRedis
    const refreshTtl: nat
    const uuids: Uuids

    constructor (redis: PersistentRedis, refreshTtl: nat, uuids: Uuids)
      ensures this.redis == redis && this.refreshTtl == refreshTtl && this.uuids == uuids && tokens == map[]
    {
      this.redis, this.refreshTtl, this.uuids := redis, refreshTtl, uuids;
      tokens := map[];
    }

    /**
     The issued token can be refreshed with its secret up to its expiry and not longer, belongs to the given user and
     family, and replaces no other.
     */
    method IssueRefreshToken(user: Id, family: Id, now: int, newId: Id, newSecret: string) returns (cookie: string)
      modifies this
      ensures tokens.Keys == old(tokens).Keys + {newId}
      ensures forall t: int, s: string :: MayRefresh(tokens, newId, s, t) <==> s == newSecret && t <= now + refreshTtl
      ensures tokens[newId].user == user && tokens[newId].family == family
      ensures forall id <- old(tokens) :: id != newId ==> tokens[id] == old(tokens)[id]
      ensures UuidsOk(uuids) ==> Presents(uuids, Some(cookie), uuids.show(newId), newId, newSecret)
      ensures cookie == CookieOf(uuids.show(newId), newSecret)
    {
      tokens := tokens[newId := Token(family, user, newSecret, false, false, now + refreshTtl)];
      cookie := uuids.show(newId) + ":" + newSecret;
    }

    /** login starts a family of its own; None when the password is wrong. */
    method Login(user: Option<Id>, passwordMatches: bool, newFamily: Id, now: int, newId: Id, newSecret: string)
      returns (cookie: Option<string>)
      modifies this
      ensures cookie.Some? <==> user.Some? && passwordMatches
      ensures cookie.None? ==> tokens == old(tokens)
      ensures cookie.Some? ==>
                && cookie.value == CookieOf(uuids.show(newId), newSecret)
                && tokens == Issue(old(tokens), newId, user.value, newFamily, newSecret, now + refreshTtl)
    {
      if user.None? || !passwordMatches {
        return None;
      }
      ghost var before := tokens;
      var issued := IssueRefreshToken(user.value, newFamily, now, newId, newSecret);
      IssuedIs(before, tokens, newId, user.value, newFamily, newSecret, now + refreshTtl);
      return Some(issued);
    }

    /** Every token of the family is revoked; no other token and no other column changes. */
    method RevokeFamilyByFamilyId(family: Id)
      modifies this
      ensures tokens.Keys == old(tokens).Keys
      ensures forall id <- tokens :: tokens[id].family == old(tokens)[id].family
      ensures forall id <- tokens :: tokens[id].family == family ==>
                tokens[id].revoked && tokens[id].(revoked := old(tokens)[id].revoked) == old(tokens)[id]
      ensures forall id <- tokens :: tokens[id].family != family ==> tokens[id] == old(tokens)[id]
    {
      tokens := map id | id in tokens ::
        if tokens[id].family == family then tokens[id].(revoked := true) else tokens[id];
    }

    method Refresh(cookie: Option<string>, now: int, newId: Id, newSecret: string, dies: bool)
      returns (result: RefreshResult)
      modifies this
      ensures (tokens, result) == Tokens.Refresh(uuids, old(tokens), cookie, now, refreshTtl, newId, newSecret, dies)
    {
      if cookie.None? || cookie.value == "" {
        return NoToken;
      }
      var rawCookie := cookie.value;
      var separatorIndex := IndexOfColon(rawCookie);
      if separatorIndex == -1 {
        return Malformed;
      }
      var tokenId, rawSecret := uuids.read(rawCookie[..separatorIndex]), rawCookie[separatorIndex + 1..];
      if tokenId.None? {
        return BadId;
      }
      if tokenId.value !in tokens {
        return NotFound;
      }
      var storedToken := tokens[tokenId.value];
      if storedToken.revoked {
        return Revoked;
      }
      if storedToken.used {
        ghost var before := tokens;
        RevokeFamilyByFamilyId(storedToken.family);
        assert tokens == RevokeFamily(before, storedToken.family);
        return ReuseDetected;
      }
      if storedToken.expiresAt < now {
        return Expired;
      }
      if rawSecret != storedToken.secret {
        return WrongSecret;
      }
      tokens := tokens[tokenId.value := storedToken.(used := true)];
      if dies {
        return Died;
      }
      ghost var marked := tokens;
      var issued := IssueRefreshToken(storedToken.user, storedToken.family, now, newId, newSecret);
      IssuedIs(marked, tokens, newId, storedToken.user, storedToken.family, newSecret, now + refreshTtl);
      return Refreshed(issued);
    }

    /**
     logout: revokes the presented token, then blacklists the access token. It throws, before the blacklist write, when
     the cookie's id is no uuid, and at that write when Redis fails.
     */
    method Logout(cookie: Option<string>, payload: JwtPayload, clock: real, written: real, redisFails: bool)
      returns (completed: bool)
      modifies this, redis
      ensures tokens == Tokens.Logout(uuids, old(tokens), cookie).0
      ensures completed <==>
              Tokens.Logout(uuids, old(tokens), cookie).1 && (redisFails ==> TimeToLive(payload.exp, clock) <= 0)
      ensures redis.blacklist == if completed then Blacklisted(old(redis.blacklist), payload, clock, written)
                                 else old(redis.blacklist)
    {
      if cookie.Some? && cookie.value != "" {
        var tokenId := SliceTo(cookie.value, IndexOfColon(cookie.value));
        if tokenId != "" {
          var id := uuids.read(tokenId);
          if id.None? {
            return false;
          }
          if id.value in tokens {
            tokens := tokens[id.value := tokens[id.value].(revoked := true)];
          }
        }
      }
      var nowSeconds := clock.Floor;
      var ttl := payload.exp - nowSeconds;
      if ttl > 0 {
        if redisFails {
          return false;
        }
        redis.Set(payload.jti, written, ttl);
      }
      return true;
    }
  }

  /** What IssueRefreshToken promises leaves one possible table. */
  lemma IssuedIs(before: TokenTable, after: TokenTable, id: Id, user: Id, family: Id, secret: string, expiresAt: int)
    requires after.Keys == before.Keys + {id}
    requires forall t: int, s: string :: MayRefresh(after, id, s, t) <==> s == secret && t <= expiresAt
    requires after[id].user == user && after[id].family == family
    requires forall i <- before :: i != id ==> after[i] == before[i]
    ensures after == Issue(before, id, user, family, secret, expiresAt)
  {
    var token := after[id];
    assert MayRefresh(after, id, secret, expiresAt) && !MayRefresh(after, id, secret, expiresAt + 1);
    assert token == Token(family, user, secret, false, false, expiresAt);
  }
}
