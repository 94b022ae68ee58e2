/**
 What crashes can cost for good. A bet that was saved but never published, and a bet still open when its
 market is marked SETTLED, are exactly the bets no later run can move on.
 */
module Recovery {
  import opened Types
  import opened Ledger
  import opened Protocol
  import opened Invariant
  import opened Effects
  import opened Guarantees

  // ---- what a single step may change ------------------------------------------------------------

  /** The bet a call is about to announce, if it has saved one. */
  predicate Announcing(call: Call, bet: Id)
  {
    (call.CacheWrite? || call.Publish?) && call.betId == bet
  }

  /** The market's status column is SETTLED. */
  predicate Closed(db: DB, market: Id)
  {
    market in db.markets && db.markets[market].status.SETTLED?
  }

  ghost predicate StepFacts(w: World, w': World)
  {
    && Later(w.db, w'.db)
    && (forall b <- w.db.bets :: w'.db.bets[b].status != w.db.bets[b].status ==>
          if w.db.bets[b].status.PENDING?
          then w.db.inflight.Some? && w.db.inflight.value.payload.betId == b
          else !Closed(w.db, w.db.bets[b].market))
    && (forall b <- w.db.bets :: w.db.bets[b].status.PENDING? && w'.db.bets[b].status != PENDING ==>
          w'.db.bets[b].status.ACCEPTED?)
    && (forall m <- w'.published :: m in w.published
          || exists r <- w.calls :: Announcing(w.calls[r], m.payload.betId))
    && (forall r <- w'.calls, b <- w.db.bets :: Announcing(w'.calls[r], b) ==>
          r in w.calls && Announcing(w.calls[r], b))
    && (forall m <- w.db.markets :: Closed(w.db, m) ==> Closed(w'.db, m))
    && (forall i :: |w.db.ledger| <= i < |w'.db.ledger| && w'.db.ledger[i].kind.CREDIT? ==>
          w'.db.ledger[i].ref in w.db.bets && !Closed(w.db, w.db.bets[w'.db.ledger[i].ref].market))
  }

  lemma CallTables(rq: Request, ref: Id, db: DB, call: Call, newId: Id)
    requires newId !in db.bets
    ensures var db' := CallStep(rq, ref, db, call, newId).0;
            && db.ledger <= db'.ledger
            && (forall b <- db.bets :: b in db'.bets && db'.bets[b] == db.bets[b])
            && db'.markets == db.markets
            && (forall i :: |db.ledger| <= i < |db'.ledger| ==> !db'.ledger[i].kind.CREDIT?)
  {
  }

  lemma CallSpeaks(rq: Request, ref: Id, db: DB, call: Call, newId: Id)
    requires newId !in db.bets
    ensures match CallStep(rq, ref, db, call, newId).1
            case Continue(next) => (forall b <- db.bets :: Announcing(next, b) ==> Announcing(call, b))
            case Return(_) => true
    ensures forall m <- CallSends(rq, ref, db, call) :: Announcing(call, m.payload.betId)
  {
  }

  lemma CallFacts(rqs: Requests, w: World, ref: Id, newId: Id)
    requires ref in w.calls && newId !in w.db.bets
    ensures StepFacts(w, AfterCall(rqs(ref), w, ref, newId))
  {
    hide CallStep, CallSends;
    CallTables(rqs(ref), ref, w.db, w.calls[ref], newId);
    CallSpeaks(rqs(ref), ref, w.db, w.calls[ref], newId);
  }

  lemma AdminFacts(w: World, market: Id, order: seq<Id>)
    requires AdminInv(w.db, w.settleRuns, w.admin) && market in w.admin
    ensures StepFacts(w, AfterAdmin(w, market, order))
  {
    assert AdminOk(w.db, w.settleRuns, market, w.admin[market]);
    hide AdminInv;
    var db, db' := w.db, AfterAdmin(w, market, order).db;
    AdminTables(w.db, w.settleRuns, market, w.admin[market], order);
    hide AdminStep, AdminOk;
  }

  lemma AdminTables(db: DB, runs: set<(Id, MarketResult)>, market: Id, admin: Admin, order: seq<Id>)
    requires AdminOk(db, runs, market, admin)
    ensures var db' := AdminStep(db, market, admin, order).0;
            && Later(db, db')
            && (forall b <- db.bets :: db'.bets[b] != db.bets[b] ==>
                  db.bets[b].status.ACCEPTED? && !Closed(db, db.bets[b].market))
            && (forall m <- db.markets :: Closed(db, m) ==> Closed(db', m))
            && (forall i :: |db.ledger| <= i < |db'.ledger| ==>
                  db'.ledger[i].ref in db.bets && !Closed(db, db.bets[db'.ledger[i].ref].market))
  {
  }

  lemma WorkerFacts(w: World)
    requires WorkerInv(w.db, w.worker) && w.db.inflight.Some?
    ensures StepFacts(w, AfterWorker(w))
  {
    WorkerTables(w.db, w.worker);
    hide WorkerStep, WorkerInv;
  }

  lemma WorkerTables(db: DB, worker: Worker)
    requires WorkerInv(db, worker) && db.inflight.Some?
    ensures var db' := WorkerStep(db, worker).0; var id := db.inflight.value.payload.betId;
            && db'.ledger == db.ledger && db'.markets == db.markets && db'.bets.Keys == db.bets.Keys
            && (forall b <- db.bets :: db'.bets[b] == db.bets[b]
                  || (b == id && db.bets[b].status.PENDING? && db'.bets[b] == db.bets[b].(status := ACCEPTED)))
  {
  }

  /** Steps that touch no bet, no row and no market but a new one, publish nothing and announce nothing. */
  lemma QuietFacts(w: World, w': World)
    requires w'.db.ledger == w.db.ledger && w'.db.bets == w.db.bets && w'.published == w.published
    requires forall m <- w.db.markets :: m in w'.db.markets && w'.db.markets[m] == w.db.markets[m]
    requires forall r <- w'.calls :: (r in w.calls && w'.calls[r] == w.calls[r])
                                     || w'.calls[r].CacheRead? || w'.calls[r].DepositCheck?
    ensures StepFacts(w, w')
  {
  }

  lemma StepHasFacts(rqs: Requests, w: World, a: Action)
    requires Inv(rqs, w) && Enabled(rqs, w, a)
    ensures StepFacts(w, Apply(rqs, w, a))
  {
    hide LedgerInv, RowsInv, BetsInv, CacheInv, BrokerInv, HistoryInv, AdminInv, WorkerInv, ResponsesInv, CallsInv;
    hide AfterCall, AfterAdmin, AfterWorker, StepFacts;
    match a
    case StepCall(ref, newId) => CallFacts(rqs, w, ref, newId);
    case StepAdmin(market, order) => AdminFacts(w, market, order);
    case StepWorker => WorkerFacts(w);
    case _ => QuietFacts(w, Apply(rqs, w, a));
  }

  /** Terminal states are never left, in any run. */
  lemma {:induction false} TerminalIsFinal(rqs: Requests, w: World, run: seq<Action>, bet: Id)
    requires Reachable(rqs, w) && Legal(rqs, w, run)
    requires bet in w.db.bets && w.db.bets[bet].status in TERMINAL_STATES
    ensures var db := Run(rqs, w, run).db; bet in db.bets && db.bets[bet] == w.db.bets[bet]
    decreases |run|
  {
    hide Inv, Enabled, Apply;
    if run != [] {
      var front := run[..|run| - 1];
      TerminalIsFinal(rqs, w, front, bet);
      ReachableRun(rqs, w, front);
      ReachableInv(rqs, Run(rqs, w, front));
      StepHasFacts(rqs, Run(rqs, w, front), run[|run| - 1]);
    }
  }

  // ---- bets that were saved but never published -------------------------------------------------

  /** No message ever named the bet, and no call is still on its way to publish one. */
  ghost predicate Unannounced(w: World, bet: Id)
  {
    && (forall m <- w.published :: m.payload.betId != bet)
    && (forall r <- w.calls :: !Announcing(w.calls[r], bet))
  }

  lemma {:induction false} UnannouncedStaysPending(rqs: Requests, w: World, run: seq<Action>, bet: Id)
    requires Reachable(rqs, w) && Legal(rqs, w, run)
    requires bet in w.db.bets && w.db.bets[bet].status.PENDING? && Unannounced(w, bet)
    ensures var w' := Run(rqs, w, run);
            bet in w'.db.bets && w'.db.bets[bet].status.PENDING? && Unannounced(w', bet)
    decreases |run|
  {
    hide Enabled, Apply, LedgerInv, RowsInv, BetsInv, CacheInv, HistoryInv, AdminInv, WorkerInv, ResponsesInv, CallsInv;
    if run != [] {
      var front := run[..|run| - 1];
      var mid := Run(rqs, w, front);
      UnannouncedStaysPending(rqs, w, front, bet);
      ReachableRun(rqs, w, front);
      ReachableInv(rqs, mid);
      StepHasFacts(rqs, mid, run[|run| - 1]);
    }
  }

  /** Extends a legal run by one action. */
  lemma Step(rqs: Requests, w: World, run: seq<Action>, a: Action) returns (run': seq<Action>)
    requires Reachable(rqs, w) && Legal(rqs, w, run) && Enabled(rqs, Run(rqs, w, run), a)
    ensures Legal(rqs, w, run') && Run(rqs, w, run') == Apply(rqs, Run(rqs, w, run), a)
    ensures Inv(rqs, Run(rqs, w, run'))
  {
    hide Enabled, Apply, Inv;
    run' := run + [a];
    RunOne(rqs, w, run, a);
    ReachableRun(rqs, w, run');
    ReachableInv(rqs, Run(rqs, w, run'));
  }

  /** An idle worker accepts a PENDING bet whose message is queued. */
  lemma AcceptQueued(rqs: Requests, w: World, run: seq<Action>, bet: Id, index: nat) returns (run': seq<Action>)
    requires Reachable(rqs, w) && Legal(rqs, w, run)
    requires var v := Run(rqs, w, run);
             && v.worker.Idle? && v.db.inflight.None? && index < |v.db.queue|
             && v.db.queue[index].payload.betId == bet && bet in v.db.bets && v.db.bets[bet].status.PENDING?
    ensures Legal(rqs, w, run') && bet in Run(rqs, w, run').db.bets
    ensures Run(rqs, w, run').db.bets[bet].status.ACCEPTED?
  {
    hide Inv;
    run' := Step(rqs, w, run, Deliver(index));
    run' := Step(rqs, w, run', StepWorker);
    run' := Step(rqs, w, run', StepWorker);
  }

  /** The broker takes back an unsettled delivery, so the message is queued or dead-lettered. */
  lemma Requeue(rqs: Requests, w: World, run: seq<Action>, m: Message) returns (run': seq<Action>)
    requires Reachable(rqs, w) && Legal(rqs, w, run) && m in AllMessages(Run(rqs, w, run).db)
    ensures Legal(rqs, w, run')
    ensures var v, v' := Run(rqs, w, run), Run(rqs, w, run');
            && v'.db.bets == v.db.bets && v'.db.acked == v.db.acked
            && v'.worker.Idle? && v'.db.inflight.None? && m in AllMessages(v'.db)
  {
    hide Inv, LedgerInv, RowsInv, BetsInv, CacheInv, HistoryInv, AdminInv, ResponsesInv, CallsInv, BrokerInv;
    ReachableRun(rqs, w, run);
    ReachableInv(rqs, Run(rqs, w, run));
    run' := run;
    if Run(rqs, w, run).db.inflight.Some? {
      run' := Step(rqs, w, run, WorkerDies);
    } else {
      WorkerOf(rqs, Run(rqs, w, run));
    }
  }

  lemma WorkerOf(rqs: Requests, w: World)
    requires Inv(rqs, w)
    ensures WorkerInv(w.db, w.worker)
  {
  }

  lemma BrokerOf(rqs: Requests, w: World)
    requires Inv(rqs, w)
    ensures BrokerInv(w.db, w.published)
  {
  }

  /** A PENDING bet whose message was published can be accepted, wherever the message is now. */
  lemma AcceptPublished(rqs: Requests, w: World, run: seq<Action>, bet: Id) returns (run': seq<Action>)
    requires Reachable(rqs, w) && Legal(rqs, w, run)
    requires var v := Run(rqs, w, run);
             bet in v.db.bets && v.db.bets[bet].status.PENDING? && exists m <- v.published :: m.payload.betId == bet
    ensures Legal(rqs, w, run') && bet in Run(rqs, w, run').db.bets
    ensures Run(rqs, w, run').db.bets[bet].status.ACCEPTED?
  {
    hide Inv, Enabled, Apply;
    ReachableRun(rqs, w, run);
    ReachableInv(rqs, Run(rqs, w, run));
    BrokerOf(rqs, Run(rqs, w, run));
    var m :| m in Run(rqs, w, run).published && m.payload.betId == bet;
    assert m in multiset(Run(rqs, w, run).published);
    run' := Requeue(rqs, w, run, m);
    if m !in Run(rqs, w, run').db.queue {
      run' := ReplayDead(rqs, w, run', m);
    }
    var index :| 0 <= index < |Run(rqs, w, run').db.queue| && Run(rqs, w, run').db.queue[index] == m;
    run' := AcceptQueued(rqs, w, run', bet, index);
  }

  lemma ReplayDead(rqs: Requests, w: World, run: seq<Action>, m: Message) returns (run': seq<Action>)
    requires Reachable(rqs, w) && Legal(rqs, w, run) && m in Run(rqs, w, run).db.dead
    ensures Legal(rqs, w, run')
    ensures var v, v' := Run(rqs, w, run), Run(rqs, w, run');
            && v'.db.bets == v.db.bets && v'.worker == v.worker && v'.db.inflight == v.db.inflight
            && m in v'.db.queue
  {
    hide Inv;
    var index :| 0 <= index < |Run(rqs, w, run).db.dead| && Run(rqs, w, run).db.dead[index] == m;
    run' := Step(rqs, w, run, Replay(index));
    var queue := Run(rqs, w, run').db.queue;
    assert queue[|queue| - 1] == m;
  }

  /** A call that is about to announce its bet can go on and publish it. */
  lemma AnnounceNow(rqs: Requests, w: World, bet: Id, ref: Id) returns (run: seq<Action>)
    requires Reachable(rqs, w) && ref in w.calls && Announcing(w.calls[ref], bet) && bet in w.db.bets
    ensures Legal(rqs, w, run)
    ensures var v := Run(rqs, w, run); v.db.bets == w.db.bets && exists m <- v.published :: m.payload.betId == bet
  {
    hide LedgerInv, RowsInv, BetsInv, CacheInv, HistoryInv, AdminInv, ResponsesInv, BrokerInv, WorkerInv;
    ReachableInv(rqs, w);
    assert CallOk(rqs, w.db, ref, w.calls[ref]);
    hide Inv, CallsInv;
    var unused := FreshId(w.db.bets.Keys);
    run := [];
    if w.calls[ref].CacheWrite? {
      run := Step(rqs, w, run, StepCall(ref, unused));
    }
    var call, published := Run(rqs, w, run).calls[ref], Run(rqs, w, run).published;
    run := Step(rqs, w, run, StepCall(ref, unused));
    var sent := Run(rqs, w, run).published;
    assert sent[|published|].payload.betId == bet;
  }

  /**
   A crash between saving and publishing strands the bet: a PENDING bet can still be accepted by some
   continuation if and only if it was published or its own call is still going to publish it. In
   particular the client's retry, which returns the saved bet, does not help.
   */
  lemma AcceptableIffAnnounced(rqs: Requests, w: World, bet: Id)
    requires Reachable(rqs, w) && bet in w.db.bets && w.db.bets[bet].status.PENDING?
    ensures (exists run :: Legal(rqs, w, run) && bet in Run(rqs, w, run).db.bets
                           && Run(rqs, w, run).db.bets[bet].status.ACCEPTED?)
            <==> !Unannounced(w, bet)
  {
    hide Enabled, Apply, Inv;
    if Unannounced(w, bet) {
      forall run | Legal(rqs, w, run)
        ensures bet in Run(rqs, w, run).db.bets && Run(rqs, w, run).db.bets[bet].status.PENDING? {
        UnannouncedStaysPending(rqs, w, run, bet);
      }
    } else if exists m <- w.published :: m.payload.betId == bet {
      var run := AcceptPublished(rqs, w, [], bet);
    } else {
      var ref :| ref in w.calls && Announcing(w.calls[ref], bet);
      var run := AnnounceNow(rqs, w, bet, ref);
      var run' := AcceptPublished(rqs, w, run, bet);
    }
  }

  // ---- bets still open when their market is marked SETTLED ----------------------------------------

  /** Once a market is SETTLED it stays so, none of its open bets is ever settled and none is ever paid. */
  lemma {:induction false} ClosedMarketIsFinal(rqs: Requests, w: World, run: seq<Action>, market: Id)
    requires Reachable(rqs, w) && Legal(rqs, w, run) && Closed(w.db, market)
    ensures var w' := Run(rqs, w, run);
            && Closed(w'.db, market)
            && w.db.ledger <= w'.db.ledger
            && (forall b <- w.db.bets :: b in w'.db.bets && w'.db.bets[b].market == w.db.bets[b].market)
            && (forall b <- w.db.bets :: w.db.bets[b].market == market && !w.db.bets[b].status.SETTLED?
                  ==> !w'.db.bets[b].status.SETTLED?)
            && (forall b <- w.db.bets :: w.db.bets[b].market == market
                  ==> CountRows(w'.db.ledger, CREDIT, b) == CountRows(w.db.ledger, CREDIT, b))
    decreases |run|
  {
    hide Enabled, Apply, Inv;
    if run != [] {
      var front := run[..|run| - 1];
      var mid := Run(rqs, w, front);
      ClosedMarketIsFinal(rqs, w, front, market);
      ReachableRun(rqs, w, front);
      ReachableInv(rqs, mid);
      StepHasFacts(rqs, mid, run[|run| - 1]);
      var w' := Run(rqs, w, run);
      forall b <- w.db.bets | w.db.bets[b].market == market
        ensures CountRows(w'.db.ledger, CREDIT, b) == CountRows(w.db.ledger, CREDIT, b)
      {
        CountPrefix(mid.db.ledger, w'.db.ledger, CREDIT, b);
      }
    }
  }

  lemma {:induction false} CountPrefix(ledger: seq<Row>, ledger': seq<Row>, kind: TransactionType, ref: Id)
    requires ledger <= ledger'
    requires forall i :: |ledger| <= i < |ledger'| && ledger'[i].kind == kind ==> ledger'[i].ref != ref
    ensures CountRows(ledger', kind, ref) == CountRows(ledger, kind, ref)
    decreases |ledger'|
  {
    if |ledger'| > |ledger| {
      CountPrefix(ledger, ledger'[..|ledger'| - 1], kind, ref);
    } else {
      assert ledger == ledger';
    }
  }

  /** An enumeration of a finite set that starts with a chosen member. */
  lemma {:induction false} Enumerate(ids: set<Id>) returns (order: seq<Id>)
    ensures forall b :: b in order <==> b in ids
    ensures forall i, j :: 0 <= i < j < |order| ==> order[i] != order[j]
    decreases ids
  {
    if ids == {} {
      order := [];
    } else {
      var x :| x in ids;
      var rest := Enumerate(ids - {x});
      order := [x] + rest;
    }
  }

  /** A snapshot order in which settle meets `bet` first. */
  lemma SnapshotFrom(db: DB, bet: Id) returns (order: seq<Id>)
    requires bet in db.bets && db.bets[bet].status.ACCEPTED?
    ensures IsSnapshot(db, db.bets[bet].market, order) && order != [] && order[0] == bet
  {
    var market := db.bets[bet].market;
    var others := set b <- db.bets | db.bets[b].market == market && db.bets[b].status.ACCEPTED? && b != bet;
    var rest := Enumerate(others);
    order := [bet] + rest;
    assert forall b :: b in order <==> b == bet || b in rest;
    assert forall i :: 0 <= i < |rest| ==> rest[i] in others;
  }

  lemma MarketOf(rqs: Requests, w: World, bet: Id)
    requires Inv(rqs, w) && bet in w.db.bets
    ensures w.db.bets[bet].market in w.db.markets
  {
    assert BetOk(rqs, w.db, w.db.bets[bet]);
  }

  /** A settle of an open market gets as far as its first bet. */
  lemma BeginSettle(rqs: Requests, w: World, bet: Id, result: MarketResult, order: seq<Id>) returns (run: seq<Action>)
    requires Reachable(rqs, w) && bet in w.db.bets && !Closed(w.db, w.db.bets[bet].market)
    requires IsSnapshot(w.db, w.db.bets[bet].market, order) && order != []
    ensures Legal(rqs, w, run)
    ensures var v := Run(rqs, w, run); var market := w.db.bets[bet].market;
            v.db == w.db && market in v.admin && v.admin[market] == NextBet(result, order)
  {
    hide Inv, IsSnapshot;
    var market := w.db.bets[bet].market;
    ReachableInv(rqs, w);
    MarketOf(rqs, w, bet);
    run := [];
    if market in w.admin {
      run := Step(rqs, w, run, EndAdmin(market));
    }
    run := Step(rqs, w, run, StartSettle(market, result));
    run := Step(rqs, w, run, StepAdmin(market, order));
  }

  /** settle can still reach this bet first and write it, for LOSS or for a WIN that can be paid. */
  lemma SettleFirst(rqs: Requests, w: World, bet: Id, result: MarketResult) returns (run: seq<Action>)
    requires Reachable(rqs, w) && bet in w.db.bets && w.db.bets[bet].status.ACCEPTED?
    requires !Closed(w.db, w.db.bets[bet].market)
    requires result.WIN? ==> HasRow(w.db.ledger, w.db.bets[bet].user, bet, CREDIT)
                             || Balance(w.db.wallets, w.db.bets[bet].user) + w.db.bets[bet].payout <= INT4_MAX
    ensures Legal(rqs, w, run) && bet in Run(rqs, w, run).db.bets
    ensures Run(rqs, w, run).db.bets[bet].status.SETTLED?
    ensures Write(bet, ACCEPTED, BetStatus.SETTLED, Some(result)) in Run(rqs, w, run).writes
  {
    hide Inv, Enabled, Apply, IsSnapshot;
    var order := SnapshotFrom(w.db, bet);
    run := BeginSettle(rqs, w, bet, result, order);
    if result.WIN? {
      run := PayFirst(rqs, w, run, bet, order);
    }
    run := WriteFirst(rqs, w, run, bet, result, order);
  }

  lemma PayFirst(rqs: Requests, w: World, run: seq<Action>, bet: Id, order: seq<Id>) returns (run': seq<Action>)
    requires Reachable(rqs, w) && Legal(rqs, w, run) && order != [] && order[0] == bet && bet in w.db.bets
    requires var v := Run(rqs, w, run); var market := w.db.bets[bet].market;
             market in v.admin && v.admin[market] == CreditCheck(WIN, order) && v.db == w.db
    requires HasRow(w.db.ledger, w.db.bets[bet].user, bet, CREDIT)
             || Balance(w.db.wallets, w.db.bets[bet].user) + w.db.bets[bet].payout <= INT4_MAX
    ensures Legal(rqs, w, run')
    ensures var v := Run(rqs, w, run'); var market := w.db.bets[bet].market;
            market in v.admin && v.admin[market] == StatusWrite(WIN, order) && v.db.bets == w.db.bets
  {
    hide Inv;
    var market := w.db.bets[bet].market;
    run' := Step(rqs, w, run, StepAdmin(market, []));
    if Run(rqs, w, run').admin[market].CreditApply? {
      run' := Step(rqs, w, run', StepAdmin(market, []));
    }
  }

  lemma WriteFirst(rqs: Requests, w: World, run: seq<Action>, bet: Id, result: MarketResult, order: seq<Id>)
    returns (run': seq<Action>)
    requires Reachable(rqs, w) && Legal(rqs, w, run) && order != [] && order[0] == bet && bet in w.db.bets
    requires w.db.bets[bet].status.ACCEPTED?
    requires var v := Run(rqs, w, run); var market := w.db.bets[bet].market;
             market in v.admin && v.admin[market] == StatusWrite(result, order) && v.db.bets == w.db.bets
    ensures Legal(rqs, w, run') && bet in Run(rqs, w, run').db.bets
    ensures Run(rqs, w, run').db.bets[bet].status.SETTLED?
    ensures Write(bet, ACCEPTED, BetStatus.SETTLED, Some(result)) in Run(rqs, w, run').writes
  {
    hide Inv;
    var writes := Run(rqs, w, run).writes;
    run' := Step(rqs, w, run, StepAdmin(w.db.bets[bet].market, []));
    assert Run(rqs, w, run').writes[|writes|] == Write(bet, ACCEPTED, BetStatus.SETTLED, Some(result));
  }

  /**
   An ACCEPTED bet can still be settled by some continuation if and only if its market is not yet marked
   SETTLED. So a settle that logs a failed bet, carries on and marks the market SETTLED leaves that bet
   unsettled for ever: the retry its comment calls safe is always refused.
   */
  lemma SettleableIffMarketOpen(rqs: Requests, w: World, bet: Id)
    requires Reachable(rqs, w) && bet in w.db.bets && w.db.bets[bet].status.ACCEPTED?
    ensures (exists run :: Legal(rqs, w, run) && bet in Run(rqs, w, run).db.bets
                           && Run(rqs, w, run).db.bets[bet].status.SETTLED?)
            <==> !Closed(w.db, w.db.bets[bet].market)
  {
    hide Enabled, Apply, Inv;
    if Closed(w.db, w.db.bets[bet].market) {
      forall run | Legal(rqs, w, run)
        ensures bet in Run(rqs, w, run).db.bets && !Run(rqs, w, run).db.bets[bet].status.SETTLED?
      {
        ClosedMarketIsFinal(rqs, w, run, w.db.bets[bet].market);
      }
    } else {
      var run := SettleFirst(rqs, w, bet, LOSS);
    }
  }
}
