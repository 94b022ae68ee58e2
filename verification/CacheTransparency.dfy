/**
 The idempotency cache changes nothing but speed: evictions and expiries can be dropped from any run of the whole
 system, or added to it, and the run stays possible with the same tables, queue and answers.
 */
module CacheTransparency {
  import opened Types
  import opened Ledger
  import opened Protocol
  import opened Invariant
  import opened Preservation

  /** The run without its evictions. */
  function KeepCached(run: seq<Action>): seq<Action>
  {
    if run == [] then []
    else
      var last := run[|run| - 1];
      KeepCached(run[..|run| - 1]) + (if last.Evict? then [] else [last])
  }

  /** One world looks a bet up through the cache where the other asks the database. */
  ghost predicate SameCall(rq: Request, ref: Id, db: DB, call: Call, call': Call)
  {
    || call == call'
    || (&& rq.BetRequest? && !rq.admin
        && ((call.BetLookup? && call'.CacheHit? && IsBetOf(rq, ref, db, call'.betId))
            || (call'.BetLookup? && call.CacheHit? && IsBetOf(rq, ref, db, call.betId))))
  }

  /** Equal but for the cache and for how a lookup in progress is being done. */
  ghost predicate SameButCache(rqs: Requests, w: World, w': World)
  {
    && w' == w.(db := w.db.(cache := w'.db.cache), calls := w'.calls)
    && w'.calls.Keys == w.calls.Keys
    && forall r <- w.calls :: SameCall(rqs(r), r, w.db, w.calls[r], w'.calls[r])
  }

  /** Both worlds find the same bet under a key. */
  lemma FindsAlike(rqs: Requests, db: DB, cache': map<(Id, Id), Id>, user: Id, ref: Id)
    requires BetsInv(rqs, db)
    ensures HasBet(db.(cache := cache'), user, ref) <==> HasBet(db, user, ref)
    ensures HasBet(db, user, ref) ==> FindBet(db.(cache := cache'), user, ref) == FindBet(db, user, ref)
    ensures forall b <- db.bets :: db.bets[b].user == user && db.bets[b].ref == ref
                                   ==> HasBet(db, user, ref) && FindBet(db, user, ref) == b
  {
    hide BetOk;
  }

  predicate Looking(call: Call)
  {
    call.CacheRead? || call.CacheHit? || call.BetLookup?
  }

  lemma LookupsAlike(rqs: Requests, db: DB, cache': map<(Id, Id), Id>, ref: Id, call: Call, call': Call, newId: Id)
    requires BetsInv(rqs, db) && CacheInv(db) && CacheInv(db.(cache := cache'))
    requires Looking(call) && rqs(ref).BetRequest? && (call.CacheHit? ==> IsBetOf(rqs(ref), ref, db, call.betId))
    requires SameCall(rqs(ref), ref, db, call, call')
    ensures var (after, next) := CallStep(rqs(ref), ref, db, call, newId);
            var (after', next') := CallStep(rqs(ref), ref, db.(cache := cache'), call', newId);
            && after == db && after' == db.(cache := cache')
            && (match next
                case Return(response) => next' == Return(response)
                case Continue(c) => next'.Continue? && SameCall(rqs(ref), ref, db, c, next'.call))
  {
    FindsAlike(rqs, db, cache', rqs(ref).user, ref);
    hide BetsInv, HasBet, FindBet;
  }

  lemma OthersAlike(rq: Request, ref: Id, db: DB, cache': map<(Id, Id), Id>, call: Call, newId: Id)
    requires rq.DepositRequest? || !Looking(call)
    ensures var (after, next) := CallStep(rq, ref, db, call, newId);
            var (after', next') := CallStep(rq, ref, db.(cache := cache'), call, newId);
            after' == after.(cache := after'.cache) && next' == next
  {
  }

  /** A step never removes a bet nor changes its user or key. */
  lemma BetsStay(rq: Request, ref: Id, db: DB, call: Call, newId: Id)
    requires newId !in db.bets
    ensures forall b <- db.bets :: b in CallStep(rq, ref, db, call, newId).0.bets
                                   && CallStep(rq, ref, db, call, newId).0.bets[b] == db.bets[b]
  {
  }

  /** Two calls that step alike leave worlds that are alike. */
  lemma AfterAlike(rqs: Requests, w: World, w': World, ref: Id, newId: Id)
    requires SameButCache(rqs, w, w') && ref in w.calls && newId !in w.db.bets
    requires var (after, next) := CallStep(rqs(ref), ref, w.db, w.calls[ref], newId);
             var (after', next') := CallStep(rqs(ref), ref, w'.db, w'.calls[ref], newId);
             && after' == after.(cache := after'.cache)
             && (match next
                 case Return(response) => next' == Return(response)
                 case Continue(c) => next'.Continue? && SameCall(rqs(ref), ref, after, c, next'.call))
    requires w'.calls[ref] == w.calls[ref] || (!w.calls[ref].Publish? && !w'.calls[ref].Publish?)
    ensures SameButCache(rqs, AfterCall(rqs(ref), w, ref, newId), AfterCall(rqs(ref), w', ref, newId))
  {
    BetsStay(rqs(ref), ref, w.db, w.calls[ref], newId);
    hide CallStep;
  }

  lemma CallFactsOf(rqs: Requests, w: World, ref: Id)
    requires Inv(rqs, w) && ref in w.calls
    ensures BetsInv(rqs, w.db) && CacheInv(w.db)
    ensures rqs(ref).BetRequest? && w.calls[ref].CacheHit? ==> IsBetOf(rqs(ref), ref, w.db, w.calls[ref].betId)
  {
    hide LedgerInv, RowsInv, BetsInv, CacheInv, BrokerInv, AdminInv, WorkerInv, HistoryInv, ResponsesInv;
    assert CallOk(rqs, w.db, ref, w.calls[ref]);
  }

  lemma CallsAlike(rqs: Requests, w: World, w': World, ref: Id, newId: Id)
    requires Inv(rqs, w) && Inv(rqs, w') && SameButCache(rqs, w, w') && ref in w.calls && newId !in w.db.bets
    ensures SameButCache(rqs, AfterCall(rqs(ref), w, ref, newId), AfterCall(rqs(ref), w', ref, newId))
  {
    hide Inv, CallStep, BetsInv, CacheInv;
    CallFactsOf(rqs, w, ref);
    CallFactsOf(rqs, w', ref);
    var call, call' := w.calls[ref], w'.calls[ref];
    if rqs(ref).BetRequest? && Looking(call) {
      LookupsAlike(rqs, w.db, w'.db.cache, ref, call, call', newId);
    } else {
      OthersAlike(rqs(ref), ref, w.db, w'.db.cache, call, newId);
    }
    AfterAlike(rqs, w, w', ref, newId);
  }

  lemma AdminsAlike(rqs: Requests, w: World, w': World, market: Id, order: seq<Id>)
    requires SameButCache(rqs, w, w') && market in w.admin
    ensures SameButCache(rqs, AfterAdmin(w, market, order), AfterAdmin(w', market, order))
  {
  }

  lemma WorkerStepsAlike(db: DB, cache': map<(Id, Id), Id>, worker: Worker)
    requires db.inflight.Some?
    ensures var (after, next) := WorkerStep(db, worker);
            && WorkerStep(db.(cache := cache'), worker) == (after.(cache := cache'), next)
            && WorkerWrite(db.(cache := cache'), worker) == WorkerWrite(db, worker)
            && (forall b <- db.bets :: b in after.bets && after.bets[b] == db.bets[b].(status := after.bets[b].status))
  {
  }

  lemma WorkersAlike(rqs: Requests, w: World, w': World)
    requires SameButCache(rqs, w, w') && w.db.inflight.Some?
    ensures SameButCache(rqs, AfterWorker(w), AfterWorker(w'))
  {
    WorkerStepsAlike(w.db, w'.db.cache, w.worker);
    hide WorkerStep, WorkerWrite;
  }

  lemma BrokersAlike(rqs: Requests, w: World, w': World, a: Action)
    requires SameButCache(rqs, w, w') && Enabled(rqs, w, a)
    requires a.Deliver? || a.Replay? || a.WorkerThrows? || a.WorkerDies?
    ensures Enabled(rqs, w', a) && SameButCache(rqs, Apply(rqs, w, a), Apply(rqs, w', a))
  {
    hide AfterCall, AfterAdmin, AfterWorker;
  }

  lemma ControlsAlike(rqs: Requests, w: World, w': World, a: Action)
    requires SameButCache(rqs, w, w') && Enabled(rqs, w, a)
    requires a.StartUpdate? || a.StartSettle? || a.SkipBet? || a.EndAdmin? || a.CreateMarket? || a.CreateWallet?
             || a.StartCall? || a.EndCall?
    ensures Enabled(rqs, w', a) && SameButCache(rqs, Apply(rqs, w, a), Apply(rqs, w', a))
  {
    hide AfterCall, AfterAdmin, AfterWorker;
  }

  lemma StepsAlike(rqs: Requests, w: World, w': World, a: Action)
    requires Inv(rqs, w) && Inv(rqs, w') && SameButCache(rqs, w, w') && Enabled(rqs, w, a)
    ensures if a.Evict? then SameButCache(rqs, Apply(rqs, w, a), w')
            else Enabled(rqs, w', a) && SameButCache(rqs, Apply(rqs, w, a), Apply(rqs, w', a))
  {
    hide Inv, AfterCall, AfterAdmin, AfterWorker, SameCall;
    match a
    case StepCall(ref, newId) => CallsAlike(rqs, w, w', ref, newId);
    case StepAdmin(market, order) => AdminsAlike(rqs, w, w', market, order);
    case StepWorker => WorkersAlike(rqs, w, w');
    case Deliver(_) | Replay(_) | WorkerThrows | WorkerDies => BrokersAlike(rqs, w, w', a);
    case Evict(_) => EvictsAlike(rqs, w, w', a.keys);
    case _ => ControlsAlike(rqs, w, w', a);
  }

  lemma EvictsAlike(rqs: Requests, w: World, w': World, keys: set<(Id, Id)>)
    requires SameButCache(rqs, w, w')
    ensures SameButCache(rqs, w.(db := w.db.(cache := w.db.cache - keys)), w')
  {
  }

  lemma SameBothWays(rqs: Requests, w: World, w': World)
    requires SameButCache(rqs, w, w')
    ensures SameButCache(rqs, w', w)
  {
    forall r <- w'.calls ensures SameCall(rqs(r), r, w'.db, w'.calls[r], w.calls[r]) {
      assert SameCall(rqs(r), r, w.db, w.calls[r], w'.calls[r]);
    }
  }

  /** Evictions can be taken out of a run. */
  lemma {:induction false} WithoutEvictions(rqs: Requests, run: seq<Action>)
    requires Legal(rqs, INIT, run)
    ensures Legal(rqs, INIT, KeepCached(run))
    ensures SameButCache(rqs, Run(rqs, INIT, run), Run(rqs, INIT, KeepCached(run)))
    decreases |run|
  {
    hide Inv, Enabled, Apply;
    if run != [] {
      var front, last := run[..|run| - 1], run[|run| - 1];
      WithoutEvictions(rqs, front);
      var w, w' := Run(rqs, INIT, front), Run(rqs, INIT, KeepCached(front));
      InitInv(rqs);
      RunKeepsInv(rqs, INIT, front);
      RunKeepsInv(rqs, INIT, KeepCached(front));
      StepsAlike(rqs, w, w', last);
      if last.Evict? {
        assert KeepCached(run) == KeepCached(front);
      } else {
        RunOne(rqs, INIT, KeepCached(front), last);
      }
    }
  }

  /** Evictions can be put into a run, anywhere. */
  lemma {:induction false} WithEvictions(rqs: Requests, run: seq<Action>)
    requires Legal(rqs, INIT, KeepCached(run))
    ensures Legal(rqs, INIT, run)
    decreases |run|
  {
    hide Inv, Apply;
    if run != [] {
      var front, last := run[..|run| - 1], run[|run| - 1];
      if last.Evict? {
        assert KeepCached(run) == KeepCached(front);
        WithEvictions(rqs, front);
      } else {
        hide Enabled;
        assert KeepCached(run)[..|KeepCached(run)| - 1] == KeepCached(front);
        WithEvictions(rqs, front);
        WithoutEvictions(rqs, front);
        InitInv(rqs);
        RunKeepsInv(rqs, INIT, front);
        RunKeepsInv(rqs, INIT, KeepCached(front));
        SameBothWays(rqs, Run(rqs, INIT, front), Run(rqs, INIT, KeepCached(front)));
        StepsAlike(rqs, Run(rqs, INIT, KeepCached(front)), Run(rqs, INIT, front), last);
      }
    }
  }

  /**
   Evicting or expiring any keys at any time, even inside a lookup, changes neither an answer nor the wallets,
   ledger, bets, markets or broker: evictions can be added to a run or taken out of it anywhere, and the world it
   leads to is the same but for the cache.
   */
  lemma EvictionIsInvisible(rqs: Requests, run: seq<Action>)
    ensures Legal(rqs, INIT, run) <==> Legal(rqs, INIT, KeepCached(run))
    ensures Legal(rqs, INIT, run) ==> SameButCache(rqs, Run(rqs, INIT, run), Run(rqs, INIT, KeepCached(run)))
  {
    hide Legal, SameButCache, KeepCached, Run;
    if Legal(rqs, INIT, run) {
      WithoutEvictions(rqs, run);
    } else if Legal(rqs, INIT, KeepCached(run)) {
      WithEvictions(rqs, run);
    }
  }
}
