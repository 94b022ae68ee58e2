/**
 Access tokens after logout: the jti blacklist written by IdentityService.logout and read by JwtAuthGuard, over a
 clock with any fraction of a second. A request verifies its token at one instant and asks Redis at a later one.
 */
module AccessTokens {
  import opened Types

  /** The claims of a token whose signature verified. */
  datatype JwtPayload = JwtPayload(sub: Id, jti: Id, exp: int)

  /** Blacklisted jtis and the instant Redis drops each key. */
  type Blacklist = map<Id, real>

  function Floor(t: real): int
  {
    t.Floor
  }

  /** What is left of the token, computed from the clock's whole seconds. */
  function TimeToLive(exp: int, clock: real): int
  {
    exp - Floor(clock)
  }

  /** logout reads the clock at `clock`; Redis executes SET ... EX ttl at `written`. */
  function Blacklisted(list: Blacklist, payload: JwtPayload, clock: real, written: real): Blacklist
  {
    var ttl := TimeToLive(payload.exp, clock);
    if ttl > 0 then list[payload.jti := written + ttl as real] else list
  }

  /** GET of a key: present until its expiry. */
  predicate IsListed(list: Blacklist, jti: Id, now: real)
  {
    jti in list && now < list[jti]
  }

  /** The JWT library's check of exp (section 4.1.4 of RFC 7519), in whole seconds. */
  predicate Unexpired(exp: int, now: real)
  {
    Floor(now) < exp
  }

  /** The guard's answer for a verified payload: verified at one instant, looked up at another. */
  predicate Accepts(list: Blacklist, payload: JwtPayload, verified: real, looked: real)
  {
    Unexpired(payload.exp, verified) && !IsListed(list, payload.jti, looked)
  }

  /** The guard accepts exactly the tokens verified before exp whose jti has no key, or one that is gone. */
  lemma AcceptsIff(list: Blacklist, payload: JwtPayload, verified: real, looked: real)
    ensures Accepts(list, payload, verified, looked)
            <==> verified < payload.exp as real && (payload.jti in list ==> list[payload.jti] <= looked)
  {
  }

  /** A logout keeps one jti listed for the token's remaining whole seconds, if any remain, and touches no other. */
  lemma BlacklistedIs(list: Blacklist, payload: JwtPayload, clock: real, written: real, jti: Id, now: real)
    ensures var after := Blacklisted(list, payload, clock, written);
            IsListed(after, jti, now) <==>
              if jti == payload.jti && payload.exp > clock.Floor
              then now < written + (payload.exp - clock.Floor) as real
              else IsListed(list, jti, now)
  {
  }

  /** The Redis instance that keeps the blacklist. */
  class PersistentRedis {
    var blacklist: Blacklist

    constructor ()
      ensures blacklist == map[]
    {
      blacklist := map[];
    }

    /**
     SET blacklist:jti:... EX ttl, executed at `written`: the key is there for exactly `ttl` seconds, other keys
     stay.
     */
    method Set(jti: Id, written: real, ttl: nat)
      modifies this
      ensures forall t: real :: IsListed(blacklist, jti, t) <==> t < written + ttl as real
      ensures blacklist == old(blacklist)[jti := written + ttl as real]
    {
      blacklist := blacklist[jti := written + ttl as real];
    }
  }

  class JwtAuthGuard {
    const redis: PersistentRedis

    constructor (redis: PersistentRedis)
      ensures this.redis == redis
    {
      this.redis := redis;
    }

    /** canActivate; `payload` is None when there is no bearer token or its signature is wrong. */
    method CanActivate(isPublic: bool, payload: Option<JwtPayload>, verified: real, looked: real)
      returns (allowed: bool, user: Option<JwtPayload>)
      ensures allowed <==>
              isPublic || (payload.Some? && verified.Floor < payload.value.exp
                           && (payload.value.jti in redis.blacklist ==> redis.blacklist[payload.value.jti] <= looked))
      ensures user == if allowed && !isPublic then payload else None
    {
      if isPublic {
        return true, None;
      }
      if payload.None? || verified.Floor >= payload.value.exp {
        return false, None;
      }
      var jti := payload.value.jti;
      if jti in redis.blacklist && looked < redis.blacklist[jti] {
        return false, None;
      }
      return true, payload;
    }
  }

  /** One logout as it happened. */
  datatype LogoutRecord = LogoutRecord(payload: JwtPayload, clock: real, written: real)

  function RunLogouts(logouts: seq<LogoutRecord>): Blacklist
  {
    if logouts == [] then map[]
    else
      var last := logouts[|logouts| - 1];
      Blacklisted(RunLogouts(logouts[..|logouts| - 1]), last.payload, last.clock, last.written)
  }

  /** Logouts of one jti carry the same exp, and a write follows the clock read it was computed from. */
  ghost predicate LogoutsOk(logouts: seq<LogoutRecord>, exps: Id -> int)
  {
    forall l <- logouts :: l.payload.exp == exps(l.payload.jti) && l.clock <= l.written
  }

  /** Every key outlives its token, and every logged-out jti has a key or had already expired. */
  lemma {:induction false} KeysOutliveTokens(logouts: seq<LogoutRecord>, exps: Id -> int)
    requires LogoutsOk(logouts, exps)
    ensures forall jti <- RunLogouts(logouts) :: RunLogouts(logouts)[jti] >= exps(jti) as real
    ensures forall l <- logouts :: l.payload.jti in RunLogouts(logouts) || l.payload.exp <= Floor(l.clock)
  {
    if logouts != [] {
      var front, last := logouts[..|logouts| - 1], logouts[|logouts| - 1];
      KeysOutliveTokens(front, exps);
      forall l <- logouts
        ensures l.payload.jti in RunLogouts(logouts) || l.payload.exp <= Floor(l.clock)
      {
        assert l in front || l == last;
      }
    }
  }

  /**
   A request looks its token up after some logouts of it, and possibly verified it before them. The guard accepts it if
   and only if it was verified before exp and the key, if one was written, is gone; and it can be gone, or not have been
   written, only when exp has passed. So no lookup before exp, and no request that verifies and looks up at one instant,
   is ever accepted again, whatever other logouts happen.
   */
  lemma {:induction false} LogoutIsPermanent(logouts: seq<LogoutRecord>, exps: Id -> int, logout: LogoutRecord,
      verified: real,
      looked: real)
    requires LogoutsOk(logouts, exps) && logout in logouts
    requires verified <= looked && forall l <- logouts :: l.written <= looked
    ensures var list := RunLogouts(logouts); var payload := logout.payload;
            && (Accepts(list, payload, verified, looked) <==>
                  Unexpired(payload.exp, verified) && (payload.jti in list ==> list[payload.jti] <= looked))
            && (Accepts(list, payload, verified, looked) ==> verified < payload.exp as real <= looked)
            && (verified == looked || looked < payload.exp as real ==> !Accepts(list, payload, verified, looked))
  {
    KeysOutliveTokens(logouts, exps);
  }

  /** A token that no logout names is accepted, whatever was logged out, if and only if it is verified before exp. */
  lemma {:induction false} OthersAreAccepted(logouts: seq<LogoutRecord>, payload: JwtPayload, verified: real,
      looked: real)
    requires forall l <- logouts :: l.payload.jti != payload.jti
    ensures payload.jti !in RunLogouts(logouts)
    ensures Accepts(RunLogouts(logouts), payload, verified, looked) <==> verified < payload.exp as real
  {
    if logouts != [] {
      OthersAreAccepted(logouts[..|logouts| - 1], payload, verified, looked);
    }
  }

  /** The late lookup does occur: exp 10, logout at 0.5, verified at 9.9, looked up at 10.6. */
  lemma LateLookupIsAccepted()
    ensures var logout := LogoutRecord(JwtPayload(0, 0, 10), 0.5, 0.5);
            LogoutsOk([logout], _ => 10) && Accepts(RunLogouts([logout]), logout.payload, 9.9, 10.6)
  {
    var logout := LogoutRecord(JwtPayload(0, 0, 10), 0.5, 0.5);
    assert [logout][..0] == [];
    assert RunLogouts([logout]) == Blacklisted(RunLogouts([]), logout.payload, 0.5, 0.5);
  }
}
