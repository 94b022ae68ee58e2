/**
 The edge rate limiter (rate_limit.lua): one Redis counter per address, incremented by every check and given a
 60-second expiry by the check that created it. Any number of checks interleave; INCR and EXPIRE are separate
 commands, so a check may die between them.
 */
module RateLimit {
  import opened Types

  const WINDOW: real := 60.0

  /** The counter and the instant it expires, once EXPIRE has run. */
  datatype Key = Key(count: nat, deadline: Option<real>)

  predicate Alive(key: Option<Key>, now: real)
  {
    key.Some? && (key.value.deadline.Some? ==> now < key.value.deadline.value)
  }

  /** INCR: an absent or expired key restarts at 1 without an expiry. */
  function Incr(key: Option<Key>, now: real): Key
  {
    if Alive(key, now) then key.value.(count := key.value.count + 1) else Key(1, None)
  }

  function Expire(key: Key, now: real): Key
  {
    key.(deadline := Some(now + WINDOW))
  }

  /** How INCR ends for the caller: its reply arrives, Redis never ran it, or Redis ran it and the reply timed out. */
  datatype IncrReply = Answered | NotExecuted | ReplyLost

  class RateLimiter {
    var key: Option<Key>

    constructor ()
      ensures key == None
    {
      key := None;
    }

    /**
     M.check: `connects` and `expires` say whether those two Redis calls succeed. Without a connection or a reply the
     request is let through, but an INCR whose reply was lost has counted, and nobody sends its EXPIRE.
     */
    method Check(limit: nat, now: real, connects: bool, reply: IncrReply, expires: bool) returns (allowed: bool)
      modifies this
      ensures connects && !reply.NotExecuted? ==>
                var live := old(key).Some? && (old(key).value.deadline.None? || now < old(key).value.deadline.value);
                var count := if live then old(key).value.count + 1 else 1;
                && key.Some? && key.value.count == count
                && key.value.deadline == (if reply.Answered? && count == 1 && expires then Some(now + 60.0)
                                          else if live then old(key).value.deadline else None)
                && (allowed <==> reply.ReplyLost? || count <= limit)
      ensures !connects || reply.NotExecuted? ==> key == old(key) && allowed
    {
      if !connects || reply.NotExecuted? {
        return true;
      }
      var count := 1;
      if key.Some? && (key.value.deadline.None? || now < key.value.deadline.value) {
        count := key.value.count + 1;
        key := Some(key.value.(count := count));
      } else {
        key := Some(Key(1, None));
      }
      if reply.ReplyLost? {
        return true;
      }
      if count == 1 {
        if expires {
          key := Some(key.value.(deadline := Some(now + WINDOW)));
        }
      }
      return count <= limit;
    }
  }

  // ---- every timing of requests -----------------------------------------------------------------

  /**
   `Lost` is the death of the check that still owed the key its EXPIRE; `Unanswered` is an INCR whose reply timed out,
   which lets the request through uncounted by any limit and owes the key nothing.
   */
  datatype Event = Hit(limit: nat) | Unanswered | SetExpiry | Lost

  datatype Timed = Timed(now: real, event: Event)

  /** One INCR as it happened; `life` numbers the key lifetimes. */
  datatype Record = Record(time: real, limit: nat, count: nat, life: nat)

  predicate Admitted(r: Record)
  {
    r.count <= r.limit
  }

  /** `owed` says that an EXPIRE is still on its way; `starts` and `hits` are history. */
  datatype Limiter = Limiter(key: Option<Key>, owed: bool, now: real, starts: seq<real>, hits: seq<Record>)

  predicate EventOk(s: Limiter, e: Timed)
  {
    s.now <= e.now && (e.event.SetExpiry? || e.event.Lost? ==> s.owed && s.key.Some?)
  }

  function After(s: Limiter, e: Timed): Limiter
  {
    match e.event
    case Hit(limit) =>
      var key := Incr(s.key, e.now);
      var born := !Alive(s.key, e.now);
      var starts := if born then s.starts + [e.now] else s.starts;
      Limiter(Some(key), born || s.owed, e.now, starts,
              s.hits + [Record(e.now, limit, key.count, if |starts| == 0 then 0 else |starts| - 1)])
    case Unanswered =>
      var starts := if Alive(s.key, e.now) then s.starts else s.starts + [e.now];
      s.(key := Some(Incr(s.key, e.now)), starts := starts, now := e.now)
    case SetExpiry =>
      if s.key.Some? then s.(key := Some(Expire(s.key.value, e.now)), owed := false, now := e.now) else s
    case Lost => s.(owed := false, now := e.now)
  }

  const FRESH: Limiter := Limiter(None, false, 0.0, [], [])

  ghost predicate Legal(s: Limiter, events: seq<Timed>)
    decreases |events|
  {
    events == [] || (EventOk(s, events[0]) && Legal(After(s, events[0]), events[1..]))
  }

  function Run(s: Limiter, events: seq<Timed>): Limiter
    decreases |events|
  {
    if events == [] then s else Run(After(s, events[0]), events[1..])
  }

  /** Where the current lifetime stands. */
  ghost predicate CurrentOk(s: Limiter)
  {
    && (s.key.Some? <==> s.starts != [])
    && (s.key.Some? ==>
          && s.starts[|s.starts| - 1] <= s.now
          && (s.owed ==> s.key.value.deadline.None?)
          && (s.key.value.deadline.Some? ==> s.key.value.deadline.value >= s.starts[|s.starts| - 1] + WINDOW))
    && (s.key.None? ==> !s.owed)
  }

  ghost predicate HitOk(s: Limiter, r: Record)
  {
    && r.life < |s.starts| && s.starts[r.life] <= r.time <= s.now && r.count >= 1
    && (r.life + 1 < |s.starts| ==> r.time < s.starts[r.life + 1])
    && (r.life == |s.starts| - 1 && s.key.Some? ==>
          r.count <= s.key.value.count && (s.key.value.deadline.Some? ==> r.time < s.key.value.deadline.value))
  }

  ghost predicate LimiterInv(s: Limiter)
  {
    && CurrentOk(s)
    && (forall i :: 0 <= i < |s.hits| ==> HitOk(s, s.hits[i]))
    && (forall i, j :: 0 <= i < j < |s.hits| && s.hits[i].life == s.hits[j].life ==> s.hits[i].count < s.hits[j].count)
    && (forall i, j :: 0 <= i < j < |s.hits| ==> s.hits[i].life <= s.hits[j].life)
    && (forall k, l :: 0 <= k < l < |s.starts| ==> s.starts[l] >= s.starts[k] + WINDOW)
  }

  lemma StartsStep(s: Limiter, e: Timed)
    requires LimiterInv(s) && EventOk(s, e)
    ensures var s' := After(s, e); forall k, l :: 0 <= k < l < |s'.starts| ==> s'.starts[l] >= s'.starts[k] + WINDOW
  {
    hide HitOk;
  }

  lemma HitsStep(s: Limiter, e: Timed)
    requires LimiterInv(s) && EventOk(s, e)
    ensures var s' := After(s, e); forall i :: 0 <= i < |s'.hits| ==> HitOk(s', s'.hits[i])
  {
    var s' := After(s, e);
    forall i | 0 <= i < |s'.hits| ensures HitOk(s', s'.hits[i]) {
      if i < |s.hits| {
        assert HitOk(s, s.hits[i]);
      }
    }
  }

  /** The hit a step adds, if any, comes after every earlier hit of its lifetime and counts higher. */
  lemma NewestHit(s: Limiter, e: Timed, i: nat)
    requires LimiterInv(s) && EventOk(s, e) && e.event.Hit? && i < |s.hits|
    ensures var hits := After(s, e).hits; var newest := hits[|s.hits|];
            && |hits| == |s.hits| + 1 && hits[i] == s.hits[i] && hits[i].life <= newest.life
            && (hits[i].life == newest.life ==> hits[i].count < newest.count)
  {
    assert HitOk(s, s.hits[i]);
  }

  lemma OrderStep(s: Limiter, e: Timed, i: nat, j: nat)
    requires LimiterInv(s) && EventOk(s, e) && i < j < |After(s, e).hits|
    ensures var hits := After(s, e).hits;
            && hits[i].life <= hits[j].life && (hits[i].life == hits[j].life ==> hits[i].count < hits[j].count)
  {
    hide HitOk;
    if j == |s.hits| {
      NewestHit(s, e, i);
    } else {
      var hits := After(s, e).hits;
      assert hits[i] == s.hits[i] && hits[j] == s.hits[j];
    }
  }

  lemma EventKeepsInv(s: Limiter, e: Timed)
    requires LimiterInv(s) && EventOk(s, e)
    ensures LimiterInv(After(s, e))
  {
    hide HitOk;
    StartsStep(s, e);
    HitsStep(s, e);
    CurrentStep(s, e);
    var s' := After(s, e);
    hide After, CurrentOk;
    forall i, j | 0 <= i < j < |s'.hits|
      ensures s'.hits[i].life <= s'.hits[j].life
      ensures s'.hits[i].life == s'.hits[j].life ==> s'.hits[i].count < s'.hits[j].count
    {
      OrderStep(s, e, i, j);
    }
  }

  lemma CurrentStep(s: Limiter, e: Timed)
    requires CurrentOk(s) && EventOk(s, e)
    ensures CurrentOk(After(s, e))
  {
  }

  lemma {:induction false} EventsKeepInv(s: Limiter, events: seq<Timed>)
    requires LimiterInv(s) && Legal(s, events)
    ensures LimiterInv(Run(s, events))
    decreases |events|
  {
    hide LimiterInv, After, EventOk;
    if events != [] {
      EventKeepsInv(s, events[0]);
      EventsKeepInv(After(s, events[0]), events[1..]);
    }
  }

  /** Admitted hits of one lifetime among the checks whose limit is at most `limit`. */
  function AdmittedInLife(hits: seq<Record>, life: nat, limit: nat): nat
  {
    if hits == [] then 0
    else
      var r := hits[|hits| - 1];
      AdmittedInLife(hits[..|hits| - 1], life, limit)
      + (if r.life == life && r.limit <= limit && Admitted(r) then 1 else 0)
  }

  function AdmittedBetween(hits: seq<Record>, from: real, to: real, limit: nat): nat
  {
    if hits == [] then 0
    else
      var r := hits[|hits| - 1];
      AdmittedBetween(hits[..|hits| - 1], from, to, limit)
      + (if from <= r.time <= to && r.limit <= limit && Admitted(r) then 1 else 0)
  }

  /** Counts rise within a lifetime, so no more hits than the highest count can be admitted. */
  lemma {:induction false} LifeBound(hits: seq<Record>, life: nat, limit: nat, highest: nat)
    requires forall i :: 0 <= i < |hits| && hits[i].life == life ==> 1 <= hits[i].count <= highest
    requires forall i, j :: 0 <= i < j < |hits| && hits[i].life == hits[j].life ==> hits[i].count < hits[j].count
    ensures AdmittedInLife(hits, life, limit) <= highest && AdmittedInLife(hits, life, limit) <= limit
  {
    if hits != [] {
      var front, r := hits[..|hits| - 1], hits[|hits| - 1];
      assert forall i :: 0 <= i < |front| ==> front[i] == hits[i];
      LifeBound(front, life, limit, if r.life == life then r.count - 1 else highest);
    }
  }

  lemma {:induction false} SplitByLife(hits: seq<Record>, from: real, to: real, limit: nat, life: nat)
    requires forall i :: 0 <= i < |hits| && from <= hits[i].time <= to ==>
               hits[i].life == life || hits[i].life == life + 1
    ensures AdmittedBetween(hits, from, to, limit)
            <= AdmittedInLife(hits, life, limit) + AdmittedInLife(hits, life + 1, limit)
  {
    if hits != [] {
      var front := hits[..|hits| - 1];
      assert forall i :: 0 <= i < |front| ==> front[i] == hits[i];
      SplitByLife(front, from, to, limit, life);
    }
  }

  lemma {:induction false} NoneBetween(hits: seq<Record>, from: real, to: real, limit: nat)
    requires forall i :: 0 <= i < |hits| ==> !(from <= hits[i].time <= to)
    ensures AdmittedBetween(hits, from, to, limit) == 0
  {
    if hits != [] {
      var front := hits[..|hits| - 1];
      assert forall i :: 0 <= i < |front| ==> front[i] == hits[i];
      NoneBetween(front, from, to, limit);
    }
  }

  ghost function HighestCount(hits: seq<Record>): nat
    ensures forall i :: 0 <= i < |hits| ==> hits[i].count <= HighestCount(hits)
  {
    if hits == [] then 0
    else
      var rest := HighestCount(hits[1..]);
      assert forall i :: 1 <= i < |hits| ==> hits[i] == hits[1..][i - 1];
      if hits[0].count > rest then hits[0].count else rest
  }

  predicate Inside(r: Record, from: real, to: real)
  {
    from <= r.time <= to
  }

  /** The first hit inside an interval, or the number of hits when there is none. */
  lemma FirstInside(hits: seq<Record>, from: real, to: real) returns (first: nat)
    ensures first <= |hits| && forall j :: 0 <= j < first ==> !Inside(hits[j], from, to)
    ensures first < |hits| ==> Inside(hits[first], from, to)
  {
    first := 0;
    while first < |hits| && !Inside(hits[first], from, to)
      invariant first <= |hits| && forall j :: 0 <= j < first ==> !Inside(hits[j], from, to)
    {
      first := first + 1;
    }
  }

  /** Two lifetimes apart is more than a window apart. */
  lemma LivesApart(s: Limiter, i: nat, j: nat)
    requires LimiterInv(s) && i < |s.hits| && j < |s.hits|
    ensures s.hits[j].life >= s.hits[i].life + 2 ==> s.hits[j].time > s.hits[i].time + WINDOW
  {
    assert HitOk(s, s.hits[i]) && HitOk(s, s.hits[j]);
  }

  lemma WindowBound(s: Limiter, from: real, limit: nat)
    requires LimiterInv(s) && forall k: nat :: AdmittedInLife(s.hits, k, limit) <= limit
    ensures AdmittedBetween(s.hits, from, from + WINDOW, limit) <= 2 * limit
  {
    var first := FirstInside(s.hits, from, from + WINDOW);
    if first == |s.hits| {
      NoneBetween(s.hits, from, from + WINDOW, limit);
    } else {
      var life := s.hits[first].life;
      forall j | 0 <= j < |s.hits| && from <= s.hits[j].time <= from + WINDOW
        ensures s.hits[j].life == life || s.hits[j].life == life + 1
      {
        assert Inside(s.hits[j], from, from + WINDOW);
        LivesApart(s, first, j);
      }
      hide LimiterInv;
      SplitByLife(s.hits, from, from + WINDOW, limit, life);
    }
  }

  /**
   For every timing of requests: in one key lifetime the checks with limits up to L admit at most L requests, and in
   any interval of 60 seconds they admit at most 2 L.
   */
  lemma RateIsBounded(events: seq<Timed>, limit: nat, life: nat, from: real)
    requires Legal(FRESH, events)
    ensures var hits := Run(FRESH, events).hits;
            && AdmittedInLife(hits, life, limit) <= limit
            && AdmittedBetween(hits, from, from + WINDOW, limit) <= 2 * limit
  {
    EventsKeepInv(FRESH, events);
    var s := Run(FRESH, events);
    forall k: nat ensures AdmittedInLife(s.hits, k, limit) <= limit {
      LivesBounded(s, k, limit);
    }
    hide LimiterInv, AdmittedInLife, AdmittedBetween, Run;
    WindowBound(s, from, limit);
  }

  lemma LivesBounded(s: Limiter, life: nat, limit: nat)
    requires LimiterInv(s)
    ensures AdmittedInLife(s.hits, life, limit) <= limit
  {
    forall i | 0 <= i < |s.hits| ensures s.hits[i].count >= 1 {
      assert HitOk(s, s.hits[i]);
    }
    LifeBound(s.hits, life, limit, HighestCount(s.hits));
  }

  // ---- counts, read off the events alone --------------------------------------------------------

  predicate IsIncr(e: Timed)
  {
    e.event.Hit? || e.event.Unanswered?
  }

  /** When event n comes, some EXPIRE sent since event `start` is a minute old or older. */
  ghost predicate Gone(events: seq<Timed>, start: int, n: nat)
    requires -1 <= start < n < |events|
  {
    exists j :: start < j < n && events[j].event.SetExpiry? && events[n].now >= events[j].now + 60.0
  }

  /** Where, among the first n events, the current key lifetime began: at an INCR that found no key. */
  ghost function Start(events: seq<Timed>, n: nat): (start: int)
    requires n <= |events|
    ensures -1 <= start < n
  {
    if n == 0 then -1
    else
      var before := Start(events, n - 1);
      if IsIncr(events[n - 1]) && (before == -1 || Gone(events, before, n - 1)) then n - 1 else before
  }

  /** How many INCRs, answered or not, are among the events from `from` on and before n. */
  function Incrs(events: seq<Timed>, from: nat, n: nat): nat
    requires n <= |events|
  {
    if n <= from then 0 else Incrs(events, from, n - 1) + (if IsIncr(events[n - 1]) then 1 else 0)
  }

  ghost predicate ExpirySince(events: seq<Timed>, start: int, n: nat, j: int)
    requires -1 <= start < n <= |events|
  {
    start < j < n && events[j].event.SetExpiry?
  }

  /** The key after the first n events, in terms of these events. */
  ghost predicate KeyIs(events: seq<Timed>, n: nat, s: Limiter)
    requires n <= |events|
  {
    var start := Start(events, n);
    && (s.key.None? <==> start == -1)
    && (s.key.Some? ==>
          && s.key.value.count == Incrs(events, start, n)
          && (s.key.value.deadline.None? ==> forall j :: !ExpirySince(events, start, n, j))
          && (s.key.value.deadline.Some? ==>
                exists j :: ExpirySince(events, start, n, j) && s.key.value.deadline.value == events[j].now + 60.0
                            && forall i :: ExpirySince(events, start, n, i) ==> i == j))
  }

  lemma {:induction false} RunSnoc(s: Limiter, events: seq<Timed>, n: nat)
    requires Legal(s, events) && n < |events|
    ensures EventOk(Run(s, events[..n]), events[n])
    ensures Run(s, events[..n + 1]) == After(Run(s, events[..n]), events[n])
    ensures Legal(s, events[..n])
    decreases n
  {
    hide After, EventOk;
    var e := events[0];
    if n == 0 {
      assert events[..1][1..] == [] && events[..0] == [];
    } else {
      RunSnoc(After(s, e), events[1..], n - 1);
      assert events[..n][1..] == events[1..][..n - 1] && events[..n + 1][1..] == events[1..][..n];
    }
  }

  lemma GoneIff(events: seq<Timed>, start: int, n: nat)
    requires -1 <= start < n < |events|
    ensures Gone(events, start, n)
            <==> exists j :: ExpirySince(events, start, n, j) && events[n].now >= events[j].now + 60.0
  {
    if Gone(events, start, n) {
      var j :| start < j < n && events[j].event.SetExpiry? && events[n].now >= events[j].now + 60.0;
      assert ExpirySince(events, start, n, j);
    }
  }

  /** An INCR finds the key alive exactly when a lifetime has begun and no EXPIRE in it is a minute old. */
  lemma AliveIff(events: seq<Timed>, n: nat, s: Limiter)
    requires n < |events| && KeyIs(events, n, s)
    ensures var start := Start(events, n);
            Alive(s.key, events[n].now) <==> start != -1 && !Gone(events, start, n)
  {
    if Start(events, n) != -1 {
      GoneIff(events, Start(events, n), n);
    }
    hide Start, Incrs, Gone;
  }

  /** No expiry lies between two neighbouring positions but the event there. */
  lemma ExpiryStep(events: seq<Timed>, start: int, n: nat, j: int)
    requires -1 <= start < n < |events|
    ensures ExpirySince(events, start, n + 1, j)
            <==> ExpirySince(events, start, n, j) || (j == n && events[n].event.SetExpiry?)
  {
  }

  lemma KeyStep(events: seq<Timed>, n: nat, s: Limiter)
    requires n < |events| && KeyIs(events, n, s) && CurrentOk(s) && EventOk(s, events[n])
    ensures KeyIs(events, n + 1, After(s, events[n]))
  {
    AliveIff(events, n, s);
    var e := events[n];
    if IsIncr(e) && !Alive(s.key, e.now) {
      FirstOfLife(events, n, n + 1);
      hide Gone, ExpirySince;
    } else {
      SameLife(events, n, n + 1, s);
    }
  }

  lemma FirstOfLife(events: seq<Timed>, n: nat, next: nat)
    requires n < |events| && IsIncr(events[n]) && next == n + 1
    ensures Incrs(events, n, next) == 1 && forall j :: !ExpirySince(events, n, next, j)
  {
    assert Incrs(events, n, n) == 0;
  }

  /** An event that begins no lifetime. */
  lemma SameLife(events: seq<Timed>, n: nat, next: nat, s: Limiter)
    requires n < |events| && next == n + 1 && KeyIs(events, n, s) && CurrentOk(s) && EventOk(s, events[n])
    requires IsIncr(events[n]) ==> Alive(s.key, events[n].now)
    requires Alive(s.key, events[n].now) <==> Start(events, n) != -1 && !Gone(events, Start(events, n), n)
    ensures KeyIs(events, next, After(s, events[n]))
  {
    var e, start, s' := events[n], Start(events, n), After(s, events[n]);
    assert Start(events, next) == start;
    hide Gone, Start;
    if s.key.Some? {
      forall j ensures ExpirySince(events, start, next, j)
                       <==> ExpirySince(events, start, n, j) || (j == n && e.event.SetExpiry?)
      {
        ExpiryStep(events, start, n, j);
      }
      hide ExpirySince;
      if e.event.SetExpiry? {
        assert s.key.value.deadline.None?;
        assert ExpirySince(events, start, next, n) && s'.key.value.deadline == Some(events[n].now + 60.0);
      }
    }
  }

  lemma {:induction false} KeysAre(events: seq<Timed>, n: nat)
    requires Legal(FRESH, events) && n <= |events|
    ensures KeyIs(events, n, Run(FRESH, events[..n]))
  {
    if n == 0 {
      assert events[..0] == [];
    } else {
      hide KeyIs, LimiterInv, After, EventOk, Legal, Run;
      KeysAre(events, n - 1);
      RunSnoc(FRESH, events, n - 1);
      FreshOk();
      EventsKeepInv(FRESH, events[..n - 1]);
      CurrentOf(Run(FRESH, events[..n - 1]));
      KeyStep(events, n - 1, Run(FRESH, events[..n - 1]));
    }
  }

  lemma FreshOk()
    ensures LimiterInv(FRESH)
  {
  }

  lemma CurrentOf(s: Limiter)
    requires LimiterInv(s)
    ensures CurrentOk(s)
  {
  }

  /**
   The exact law of a check whose INCR is answered. Its count is the number of INCRs of its key lifetime so far, itself
   included; it is admitted under a limit L if and only if fewer than L came before it. A lifetime begins with the first
   INCR that finds no key, and the key is gone once an EXPIRE sent in the lifetime is 60 seconds old.
   */
  lemma AdmittedIff(events: seq<Timed>, n: nat)
    requires Legal(FRESH, events) && n < |events| && events[n].event.Hit?
    ensures var hits := Run(FRESH, events[..n + 1]).hits; var start := Start(events, n + 1);
            && 0 <= start && hits != []
            && var r := hits[|hits| - 1];
            && r.time == events[n].now && r.limit == events[n].event.limit
            && r.count == Incrs(events, start, n + 1)
            && (Admitted(r) <==> Incrs(events, start, n) < events[n].event.limit)
  {
    KeysAre(events, n + 1);
    RunSnoc(FRESH, events, n);
    hide Legal, Run, Gone;
  }

  // ---- a lost EXPIRE ----------------------------------------------------------------------------

  lemma {:induction false} StuckKey(s: Limiter, events: seq<Timed>, limit: nat)
    requires Legal(s, events) && s.key.Some? && s.key.value.deadline.None? && !s.owed && s.key.value.count >= limit
    ensures var s' := Run(s, events);
            && s'.key.Some? && s'.key.value.deadline.None? && !s'.owed && s'.key.value.count >= limit
            && |s.hits| <= |s'.hits|
            && (forall i :: |s.hits| <= i < |s'.hits| && s'.hits[i].limit <= limit ==> !Admitted(s'.hits[i]))
    decreases |events|
  {
    if events != [] {
      StuckKey(After(s, events[0]), events[1..], limit);
      Prefix(After(s, events[0]), events[1..]);
    }
  }

  lemma {:induction false} Prefix(s: Limiter, events: seq<Timed>)
    ensures s.hits <= Run(s, events).hits
    decreases |events|
  {
    if events != [] {
      Prefix(After(s, events[0]), events[1..]);
    }
  }

  ghost predicate AdmitsAgain(s: Limiter, limit: nat)
  {
    exists events :: Legal(s, events) && var hits := Run(s, events).hits;
      exists i :: |s.hits| <= i < |hits| && hits[i].limit <= limit && Admitted(hits[i])
  }

  lemma RunTwo(s: Limiter, e: Timed, f: Timed)
    requires EventOk(s, e) && EventOk(After(s, e), f)
    ensures Legal(s, [e, f]) && Run(s, [e, f]) == After(After(s, e), f)
  {
    hide After, EventOk;
    assert [e, f][1..] == [f] && [f][1..] == [];
    assert Run(After(s, e), [f]) == After(After(s, e), f);
    assert Legal(After(s, e), [f]);
  }

  lemma RunOne(s: Limiter, e: Timed)
    requires EventOk(s, e)
    ensures Legal(s, [e]) && Run(s, [e]) == After(s, e)
  {
    hide After, EventOk;
    assert [e][1..] == [];
  }

  /** A check that reaches Redis is a run: one hit, then the EXPIRE it owes if it created the key, or its loss. */
  lemma CheckIsRun(s: Limiter, limit: nat, now: real, expires: bool) returns (events: seq<Timed>, newest: Record)
    requires s.now <= now && (s.key.Some? ==> s.key.value.count >= 1)
    ensures Legal(s, events)
    ensures var hit := Incr(s.key, now); var s' := Run(s, events);
            && s'.key == Some(if hit.count == 1 && expires then Expire(hit, now) else hit)
            && s'.hits == s.hits + [newest] && newest.limit == limit && newest.time == now
            && (Admitted(newest) <==> hit.count <= limit)
  {
    var e := Timed(now, Hit(limit));
    if Incr(s.key, now).count == 1 {
      var f := Timed(now, if expires then SetExpiry else Lost);
      RunTwo(s, e, f);
      events := [e, f];
    } else {
      RunOne(s, e);
      events := [e];
    }
    newest := After(s, e).hits[|s.hits|];
  }

  /** An INCR whose reply timed out is a run too. */
  lemma LostReplyIsRun(s: Limiter, now: real) returns (events: seq<Timed>)
    requires s.now <= now
    ensures Legal(s, events)
    ensures var s' := Run(s, events);
            s'.key == Some(Incr(s.key, now)) && s'.hits == s.hits && s'.owed == s.owed
  {
    var e := Timed(now, Unanswered);
    RunOne(s, e);
    events := [e];
  }

  /**
   An address can be admitted again under a limit L > 0 if and only if the key is absent, below L, has an expiry, or is
   still owed one. A check that dies between INCR and EXPIRE, or whose INCR timed out, therefore blocks the address for
   ever once L is reached.
   */
  lemma AdmitsAgainIff(s: Limiter, limit: nat)
    requires LimiterInv(s) && limit > 0
    ensures AdmitsAgain(s, limit)
            <==> s.key.None? || s.key.value.count < limit || s.key.value.deadline.Some? || s.owed
  {
    if s.key.Some? && s.key.value.count >= limit && s.key.value.deadline.None? && !s.owed {
      forall events | Legal(s, events)
        ensures forall i :: |s.hits| <= i < |Run(s, events).hits| && Run(s, events).hits[i].limit <= limit
                            ==> !Admitted(Run(s, events).hits[i])
      {
        StuckKey(s, events, limit);
      }
    } else if s.owed {
      var e, f := Timed(s.now, SetExpiry), Timed(s.now + WINDOW, Hit(limit));
      RunTwo(s, e, f);
      assert Run(s, [e, f]).hits[|s.hits|] == Record(s.now + WINDOW, limit, 1, |s.starts|);
    } else {
      var late := if s.key.Some? && s.key.value.deadline.Some? && s.key.value.deadline.value > s.now
                  then s.key.value.deadline.value else s.now;
      var e := Timed(late, Hit(limit));
      RunOne(s, e);
      assert Admitted(Run(s, [e]).hits[|s.hits|]);
    }
  }

  /** Either way of losing the EXPIRE of a new key blocks an address with limit 1 for ever. */
  lemma LostExpiryBlocks(dies: bool) returns (events: seq<Timed>)
    ensures Legal(FRESH, events) && !AdmitsAgain(Run(FRESH, events), 1)
  {
    hide AdmitsAgain;
    var e, f := Timed(0.0, Hit(1)), Timed(0.0, Lost);
    if dies {
      events := [e, f];
      RunTwo(FRESH, e, f);
    } else {
      e := Timed(0.0, Unanswered);
      events := [e];
      RunOne(FRESH, e);
    }
    EventsKeepInv(FRESH, events);
    AdmitsAgainIff(Run(FRESH, events), 1);
  }
}
