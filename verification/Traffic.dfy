/**
 settle in the middle of everything else: deposits, placements, acceptances, other markets' settlements, crashes and
 evictions take any steps between its own. What becomes of its market's bets depends only on its own failures.
 */
module Traffic {
  import opened Types
  import opened Ledger
  import opened Protocol
  import opened Invariant
  import opened Effects
  import opened Guarantees
  import opened Recovery

  // ---- what one step can do to one bet ------------------------------------------------------------

  /** The step that writes a bet SETTLED. */
  ghost predicate SettlesBet(w: World, a: Action, b: Id)
  {
    && b in w.db.bets && a.StepAdmin? && a.market == w.db.bets[b].market && a.market in w.admin
    && w.admin[a.market].StatusWrite? && w.admin[a.market].todo != [] && w.admin[a.market].todo[0] == b
  }

  /**
   An ACCEPTED bet leaves that status only by its own market's status write, which then has paid it if it is a WIN.
   */
  ghost predicate BetFacts(w: World, w': World, a: Action)
  {
    forall b <- w.db.bets :: w.db.bets[b].status.ACCEPTED? ==>
      && b in w'.db.bets
      && (if SettlesBet(w, a, b) then w'.db.bets[b].status.SETTLED? else w'.db.bets[b].status.ACCEPTED?)
  }

  lemma AdminBetFacts(w: World, market: Id, order: seq<Id>)
    requires AdminInv(w.db, w.settleRuns, w.admin) && market in w.admin
    ensures BetFacts(w, AfterAdmin(w, market, order), StepAdmin(market, order))
  {
    assert AdminOk(w.db, w.settleRuns, market, w.admin[market]);
    hide AdminInv;
    AdminStepBets(w.db, w.settleRuns, market, w.admin[market], order);
    hide AdminStep, AdminOk;
  }

  lemma AdminStepBets(db: DB, runs: set<(Id, MarketResult)>, market: Id, admin: Admin, order: seq<Id>)
    requires AdminOk(db, runs, market, admin)
    ensures var db' := AdminStep(db, market, admin, order).0;
            if admin.StatusWrite?
            then && admin.todo != [] && admin.todo[0] in db.bets && db.bets[admin.todo[0]].market == market
                 && db'.bets == db.bets[admin.todo[0] := db.bets[admin.todo[0]].(status := BetStatus.SETTLED)]
            else db'.bets == db.bets
  {
    hide HasRow;
  }

  lemma WorkerBetFacts(w: World)
    requires WorkerInv(w.db, w.worker) && w.db.inflight.Some?
    ensures BetFacts(w, AfterWorker(w), StepWorker)
  {
    WorkerTables(w.db, w.worker);
    hide WorkerStep, WorkerInv;
  }

  lemma CallBetFacts(rqs: Requests, w: World, ref: Id, newId: Id)
    requires ref in w.calls && newId !in w.db.bets
    ensures BetFacts(w, AfterCall(rqs(ref), w, ref, newId), StepCall(ref, newId))
  {
    CallTables(rqs(ref), ref, w.db, w.calls[ref], newId);
    hide CallStep;
  }

  lemma StepBetFacts(rqs: Requests, w: World, a: Action)
    requires Inv(rqs, w) && Enabled(rqs, w, a)
    ensures BetFacts(w, Apply(rqs, w, a), a)
  {
    hide LedgerInv, RowsInv, BetsInv, CacheInv, BrokerInv, HistoryInv, AdminInv, WorkerInv, ResponsesInv, CallsInv;
    hide AfterCall, AfterAdmin, AfterWorker;
    match a
    case StepCall(ref, newId) => CallBetFacts(rqs, w, ref, newId);
    case StepAdmin(market, order) => AdminBetFacts(w, market, order);
    case StepWorker => WorkerBetFacts(w);
    case _ =>
  }

  // ---- the turns of a settle loop -----------------------------------------------------------------

  predicate InLoop(admin: Admin)
  {
    !admin.StatusUpdate? && !admin.Snapshot?
  }

  /** The bet that this step gives up before its status write: by a call that throws, or a credit that rolls back. */
  function GivenUp(w: World, a: Action, market: Id): set<Id>
  {
    if market !in w.admin || !InLoop(w.admin[market]) || w.admin[market].todo == [] then {}
    else
      var admin := w.admin[market];
      var bet := admin.todo[0];
      if a == SkipBet(market) && !admin.Notify? then {bet}
      else if a.StepAdmin? && a.market == market && admin.CreditApply? && bet in w.db.bets
              && NewBalance(w.db.wallets, w.db.bets[bet].user, CREDIT, w.db.bets[bet].payout).None? then {bet}
      else {}
  }

  ghost function Failures(rqs: Requests, w: World, run: seq<Action>, market: Id): set<Id>
    requires Legal(rqs, w, run)
  {
    if run == [] then {}
    else
      var front := run[..|run| - 1];
      Failures(rqs, w, front, market) + GivenUp(Run(rqs, w, front), run[|run| - 1], market)
  }

  ghost predicate Paid(db: DB, b: Id)
  {
    b in db.bets && HasRow(db.ledger, db.bets[b].user, b, CREDIT)
  }

  /** A bet whose turn is over: given up and still ACCEPTED, or SETTLED, and then paid if it won. */
  ghost predicate TurnOver(db: DB, market: Id, result: MarketResult, b: Id, failed: set<Id>)
  {
    && b in db.bets && db.bets[b].market == market
    && (if b in failed then db.bets[b].status.ACCEPTED? else db.bets[b].status.SETTLED?)
    && (result.WIN? && b !in failed ==> Paid(db, b))
  }

  /** The loop stands after `done` bets of its snapshot. */
  ghost predicate Standing(w: World, market: Id, result: MarketResult, order: seq<Id>, failed: set<Id>, done: nat)
  {
    && done <= |order| && (forall b <- failed :: b in order)
    && (forall i :: 0 <= i < done ==> TurnOver(w.db, market, result, order[i], failed))
    && (forall i :: done <= i < |order| ==> order[i] !in failed)
    && (if market in w.admin
        then && InLoop(w.admin[market]) && w.admin[market].result == result && w.admin[market].todo == order[done..]
             && (w.admin[market].Notify? ==> done < |order| && TurnOver(w.db, market, result, order[done], failed))
        else done == |order| && Closed(w.db, market))
  }

  ghost predicate Distinct(order: seq<Id>)
  {
    forall i, j :: 0 <= i < j < |order| ==> order[i] != order[j]
  }

  /** A step that is not the loop's own leaves the bets whose turn is over, and a paid bet paid. */
  lemma TurnStaysOver(w: World, w': World, a: Action, market: Id, result: MarketResult, b: Id, failed: set<Id>)
    requires TurnOver(w.db, market, result, b, failed) && StepFacts(w, w') && BetFacts(w, w', a)
    requires !SettlesBet(w, a, b)
    ensures TurnOver(w'.db, market, result, b, failed)
  {
    if Paid(w.db, b) {
      HasRowPrefix(w.db.ledger, w'.db.ledger, w.db.bets[b].user, b, CREDIT);
    }
    hide HasRow;
  }

  /** A step of something else. */
  lemma OthersStep(rqs: Requests, w: World, a: Action, market: Id, result: MarketResult, order: seq<Id>,
      failed: set<Id>,
      done: nat)
    requires Inv(rqs, w) && Enabled(rqs, w, a) && Standing(w, market, result, order, failed, done)
    requires a != SkipBet(market) && a != EndAdmin(market) && !(a.StepAdmin? && a.market == market)
    ensures Standing(Apply(rqs, w, a), market, result, order, failed, done)
  {
    StepHasFacts(rqs, w, a);
    StepBetFacts(rqs, w, a);
    var w' := Apply(rqs, w, a);
    OthersControl(rqs, w, a, market);
    hide Inv, Enabled, Apply, TurnOver;
    forall i | 0 <= i < done || (i == done < |order| && market in w.admin && w.admin[market].Notify?)
      ensures TurnOver(w'.db, market, result, order[i], failed)
    {
      NotItsStep(w, a, market, result, order[i], failed);
      TurnStaysOver(w, w', a, market, result, order[i], failed);
    }
    hide BetFacts;
  }

  lemma NotItsStep(w: World, a: Action, market: Id, result: MarketResult, b: Id, failed: set<Id>)
    requires TurnOver(w.db, market, result, b, failed) && !(a.StepAdmin? && a.market == market)
    ensures !SettlesBet(w, a, b)
  {
  }

  lemma OthersControl(rqs: Requests, w: World, a: Action, market: Id)
    requires Enabled(rqs, w, a) && (market in w.admin || Closed(w.db, market))
    requires a != SkipBet(market) && a != EndAdmin(market) && !(a.StepAdmin? && a.market == market)
    ensures var w' := Apply(rqs, w, a);
            (market in w'.admin <==> market in w.admin) && (market in w.admin ==> w'.admin[market] == w.admin[market])
  {
    hide CallStep, AdminStep, WorkerStep, AdminWrite, WorkerWrite;
  }

  lemma MutationOk(rqs: Requests, w: World, market: Id)
    requires Inv(rqs, w) && market in w.admin
    ensures AdminOk(w.db, w.settleRuns, market, w.admin[market])
  {
    hide LedgerInv, RowsInv, BetsInv, CacheInv, BrokerInv, HistoryInv, WorkerInv, ResponsesInv, CallsInv, AdminOk;
  }

  /** The loop gives up a bet, or a notification after its write. */
  lemma SkipStep(w: World, w': World, market: Id, result: MarketResult, order: seq<Id>, failed: set<Id>, done: nat)
    requires market in w.admin && InLoop(w.admin[market]) && w.admin[market].todo != []
    requires AdminOk(w.db, w.settleRuns, market, w.admin[market])
    requires Standing(w, market, result, order, failed, done) && Distinct(order)
    requires w' == w.(admin := w.admin[market := NextBet(result, w.admin[market].todo[1..])])
    ensures done < |order|
    ensures Standing(w', market, result, order, failed + GivenUp(w, SkipBet(market), market), done + 1)
  {
    var failed' := failed + GivenUp(w, SkipBet(market), market);
    assert order[done..][0] == order[done] && order[done..][1..] == order[done + 1..];
    hide HasRow;
    SkippedIsOver(w, market, result, order[done], failed);
    hide AdminOk, Paid;
    forall i | 0 <= i < done ensures TurnOver(w'.db, market, result, order[i], failed') {
      assert order[i] != order[done];
    }
  }

  lemma SkippedIsOver(w: World, market: Id, result: MarketResult, b: Id, failed: set<Id>)
    requires market in w.admin && InLoop(w.admin[market]) && w.admin[market].result == result
    requires w.admin[market].todo != [] && w.admin[market].todo[0] == b
    requires AdminOk(w.db, w.settleRuns, market, w.admin[market])
    requires w.admin[market].Notify? ==> TurnOver(w.db, market, result, b, failed)
    ensures TurnOver(w.db, market, result, b, failed + GivenUp(w, SkipBet(market), market))
  {
    hide HasRow;
  }

  /** The loop's own step at each of its stages. */
  lemma LoopStep(w: World, w': World, market: Id, result: MarketResult, order: seq<Id>, failed: set<Id>, done: nat,
      a: Action)
    returns (done': nat)
    requires a.StepAdmin? && a.market == market && market in w.admin && w' == AfterAdmin(w, market, a.order)
    requires AdminOk(w.db, w.settleRuns, market, w.admin[market]) && StepFacts(w, w') && BetFacts(w, w', a)
    requires Standing(w, market, result, order, failed, done) && Distinct(order)
    ensures Standing(w', market, result, order, failed + GivenUp(w, a, market), done')
  {
    hide AfterAdmin, AdminOk, BetFacts, StepFacts, TurnOver, GivenUp, Distinct;
    done' := LoopMoves(w, market, result, order, failed, done, a);
    var failed' := failed + GivenUp(w, a, market);
    forall i | 0 <= i < done ensures TurnOver(w'.db, market, result, order[i], failed') {
      EarlierStays(w, w', a, market, result, order, failed, done, i);
    }
  }

  /** A bet whose turn was over before is neither the one being written nor the one given up. */
  lemma EarlierStays(w: World, w': World, a: Action, market: Id, result: MarketResult, order: seq<Id>, failed: set<Id>,
      done: nat, i: nat)
    requires Standing(w, market, result, order, failed, done) && Distinct(order) && i < done && market in w.admin
    requires StepFacts(w, w') && BetFacts(w, w', a)
    ensures TurnOver(w'.db, market, result, order[i], failed + GivenUp(w, a, market))
  {
    hide StepFacts, BetFacts, HasRow;
    var b := order[i];
    if order[done..] != [] {
      assert order[done..][0] == order[done];
      assert b != order[done];
    }
    assert !SettlesBet(w, a, b) && b !in GivenUp(w, a, market);
    TurnStaysOver(w, w', a, market, result, b, failed);
  }

  /** Where the loop goes on, and what it leaves of the bet it was at. */
  lemma LoopMoves(w: World, market: Id, result: MarketResult, order: seq<Id>, failed: set<Id>, done: nat, a: Action)
    returns (done': nat)
    requires a.StepAdmin? && a.market == market && market in w.admin
    requires AdminOk(w.db, w.settleRuns, market, w.admin[market])
    requires Standing(w, market, result, order, failed, done) && Distinct(order)
    ensures var w', failed' := AfterAdmin(w, market, a.order), failed + GivenUp(w, a, market);
            && done <= done' <= |order| && done' <= done + 1
            && (done' == done + 1 ==> TurnOver(w'.db, market, result, order[done], failed'))
            && (forall i :: done' <= i < |order| ==> order[i] !in failed')
            && (forall b <- failed' :: b in order)
            && (if market in w'.admin
                then && InLoop(w'.admin[market]) && w'.admin[market].result == result
                     && w'.admin[market].todo == order[done'..]
                     && (w'.admin[market].Notify? ==>
                           done' < |order| && TurnOver(w'.db, market, result, order[done'], failed'))
                else done' == |order| && Closed(w'.db, market))
  {
    var admin := w.admin[market];
    var todo := order[done..];
    if todo != [] {
      assert todo[0] == order[done] && todo[1..] == order[done + 1..];
    }
    var w' := AfterAdmin(w, market, a.order);
    done' := if market in w'.admin && w'.admin[market].todo != todo then done + 1 else done;
  }

  lemma {:induction false} RunStands(rqs: Requests, w: World, run: seq<Action>, market: Id, result: MarketResult,
      order: seq<Id>) returns (done: nat)
    requires Reachable(rqs, w) && Legal(rqs, w, run) && EndAdmin(market) !in run && Distinct(order)
    requires Standing(w, market, result, order, {}, 0)
    ensures Standing(Run(rqs, w, run), market, result, order, Failures(rqs, w, run, market), done)
    decreases |run|
  {
    hide Inv, Enabled, Apply, Standing, GivenUp, Distinct;
    if run == [] {
      done := 0;
    } else {
      var front, a := run[..|run| - 1], run[|run| - 1];
      assert a in run && forall x <- front :: x in run;
      var before := RunStands(rqs, w, front, market, result, order);
      var v, failed := Run(rqs, w, front), Failures(rqs, w, front, market);
      ReachableRun(rqs, w, front);
      ReachableInv(rqs, v);
      done := OneStep(rqs, v, a, market, result, order, failed, before);
    }
  }

  lemma OneStep(rqs: Requests, w: World, a: Action, market: Id, result: MarketResult, order: seq<Id>,
      failed: set<Id>, done: nat)
    returns (done': nat)
    requires Inv(rqs, w) && Enabled(rqs, w, a) && Standing(w, market, result, order, failed, done) && Distinct(order)
    requires a != EndAdmin(market)
    ensures Standing(Apply(rqs, w, a), market, result, order, failed + GivenUp(w, a, market), done')
  {
    hide Inv, Standing, AfterAdmin, AfterCall, AfterWorker, AdminOk, StepFacts, BetFacts, GivenUp;
    var w' := Apply(rqs, w, a);
    if a == SkipBet(market) {
      MutationOk(rqs, w, market);
      ResultIs(w, market, result, order, failed, done);
      SkipStep(w, w', market, result, order, failed, done);
      done' := done + 1;
    } else if a.StepAdmin? && a.market == market {
      MutationOk(rqs, w, market);
      StepHasFacts(rqs, w, a);
      StepBetFacts(rqs, w, a);
      done' := LoopStep(w, w', market, result, order, failed, done, a);
    } else {
      OthersStep(rqs, w, a, market, result, order, failed, done);
      NothingGivenUp(w, a, market);
      assert failed + GivenUp(w, a, market) == failed;
      done' := done;
    }
  }

  lemma ResultIs(w: World, market: Id, result: MarketResult, order: seq<Id>, failed: set<Id>, done: nat)
    requires Standing(w, market, result, order, failed, done) && market in w.admin
    ensures InLoop(w.admin[market]) && w.admin[market].result == result
  {
  }

  lemma NothingGivenUp(w: World, a: Action, market: Id)
    requires a != SkipBet(market) && !(a.StepAdmin? && a.market == market)
    ensures GivenUp(w, a, market) == {}
  {
  }

  // ---- crashes and retries amid traffic -----------------------------------------------------------

  /** What no step takes back: rows, and the terms of bets. */
  ghost predicate Grown(db: DB, db': DB)
  {
    && db.ledger <= db'.ledger
    && (forall b <- db.bets :: b in db'.bets && db'.bets[b] == db.bets[b].(status := db'.bets[b].status))
  }

  lemma {:induction false} RunGrows(rqs: Requests, w: World, run: seq<Action>)
    requires Reachable(rqs, w) && Legal(rqs, w, run)
    ensures Grown(w.db, Run(rqs, w, run).db)
    decreases |run|
  {
    hide Inv, Enabled, Apply;
    if run != [] {
      var front := run[..|run| - 1];
      RunGrows(rqs, w, front);
      ReachableRun(rqs, w, front);
      ReachableInv(rqs, Run(rqs, w, front));
      StepHasFacts(rqs, Run(rqs, w, front), run[|run| - 1]);
    }
  }

  /** Every settlement of the market uses this result. */
  ghost predicate OnlyResult(w: World, market: Id, result: MarketResult)
  {
    market in w.admin && !w.admin[market].StatusUpdate? ==> w.admin[market].result == result
  }

  ghost predicate SettlesAs(run: seq<Action>, market: Id, result: MarketResult)
  {
    forall a <- run :: a.StartSettle? && a.market == market ==> a.result == result
  }

  /** A bet that was live when the settlements began: still ACCEPTED, or SETTLED, and then paid if they are wins. */
  ghost predicate LiveOrDone(db: DB, market: Id, result: MarketResult, b: Id)
  {
    && b in db.bets && db.bets[b].market == market
    && (db.bets[b].status.ACCEPTED? || (db.bets[b].status.SETTLED? && (result.WIN? ==> Paid(db, b))))
  }

  lemma LiveStep(rqs: Requests, w: World, a: Action, market: Id, result: MarketResult, b: Id)
    requires Inv(rqs, w) && Enabled(rqs, w, a) && OnlyResult(w, market, result) && LiveOrDone(w.db, market, result, b)
    ensures LiveOrDone(Apply(rqs, w, a).db, market, result, b)
  {
    StepHasFacts(rqs, w, a);
    StepBetFacts(rqs, w, a);
    var w' := Apply(rqs, w, a);
    if SettlesBet(w, a, b) {
      MutationOk(rqs, w, market);
      WrittenIsPaid(w, market, result, b);
    }
    hide Inv, Enabled, Apply, SettlesBet;
    if Paid(w.db, b) {
      HasRowPrefix(w.db.ledger, w'.db.ledger, w.db.bets[b].user, b, CREDIT);
    }
    hide HasRow;
  }

  lemma WrittenIsPaid(w: World, market: Id, result: MarketResult, b: Id)
    requires market in w.admin && AdminOk(w.db, w.settleRuns, market, w.admin[market]) && OnlyResult(w, market, result)
    requires w.admin[market].StatusWrite? && w.admin[market].todo != [] && w.admin[market].todo[0] == b
    ensures result.WIN? ==> Paid(w.db, b)
  {
    hide HasRow;
  }

  lemma ResultStep(rqs: Requests, w: World, a: Action, market: Id, result: MarketResult)
    requires Enabled(rqs, w, a) && OnlyResult(w, market, result)
    requires a.StartSettle? && a.market == market ==> a.result == result
    ensures OnlyResult(Apply(rqs, w, a), market, result)
  {
    hide CallStep, WorkerStep, WorkerWrite, AdminWrite, HasRow;
  }

  /** A LOSS pays nobody. */
  lemma LossPaysNot(rqs: Requests, w: World, a: Action, b: Id)
    requires Inv(rqs, w) && Enabled(rqs, w, a) && b in w.db.bets && OnlyResult(w, w.db.bets[b].market, LOSS)
    ensures CountRows(Apply(rqs, w, a).db.ledger, CREDIT, b) == CountRows(w.db.ledger, CREDIT, b)
  {
    StepHasFacts(rqs, w, a);
    var w' := Apply(rqs, w, a);
    NoNewCredit(rqs, w, a, b);
    hide Inv, Enabled, Apply, StepFacts;
    CountPrefix(w.db.ledger, w'.db.ledger, CREDIT, b);
  }

  lemma NoNewCredit(rqs: Requests, w: World, a: Action, b: Id)
    requires Inv(rqs, w) && Enabled(rqs, w, a) && b in w.db.bets && OnlyResult(w, w.db.bets[b].market, LOSS)
    ensures var ledger := Apply(rqs, w, a).db.ledger;
            forall i :: |w.db.ledger| <= i < |ledger| && ledger[i].kind == CREDIT ==> ledger[i].ref != b
  {
    hide LedgerInv, RowsInv, BetsInv, CacheInv, BrokerInv, HistoryInv, AdminInv, WorkerInv, ResponsesInv, CallsInv;
    hide AfterCall, AfterAdmin, AfterWorker;
    match a
    case StepCall(ref, newId) =>
      CallTables(rqs(ref), ref, w.db, w.calls[ref], newId);
      CallLedger(rqs(ref), w, ref, newId);
    case StepAdmin(market, order) =>
      MutationOk(rqs, w, market);
      AdminCredits(w, market, order, b);
    case StepWorker => WorkerLedger(w);
    case _ =>
  }

  lemma CallLedger(rq: Request, w: World, ref: Id, newId: Id)
    requires ref in w.calls
    ensures AfterCall(rq, w, ref, newId).db == CallStep(rq, ref, w.db, w.calls[ref], newId).0
  {
    hide CallStep, CallSends;
  }

  lemma WorkerLedger(w: World)
    requires w.db.inflight.Some?
    ensures AfterWorker(w).db.ledger == w.db.ledger
  {
    hide WorkerWrite;
  }

  lemma AdminCredits(w: World, market: Id, order: seq<Id>, b: Id)
    requires market in w.admin && AdminOk(w.db, w.settleRuns, market, w.admin[market])
    requires b in w.db.bets && OnlyResult(w, w.db.bets[b].market, LOSS)
    ensures var ledger := AfterAdmin(w, market, order).db.ledger;
            forall i :: |w.db.ledger| <= i < |ledger| ==> ledger[i].ref != b
  {
    hide HasRow;
  }

  /** From the start of the settlements on. */
  lemma {:induction false} LiveRun(rqs: Requests, w: World, run: seq<Action>, market: Id, result: MarketResult, b: Id)
    requires Reachable(rqs, w) && Legal(rqs, w, run) && SettlesAs(run, market, result)
    requires OnlyResult(w, market, result) && LiveOrDone(w.db, market, result, b)
    ensures var v := Run(rqs, w, run);
            && OnlyResult(v, market, result) && LiveOrDone(v.db, market, result, b)
            && (result.LOSS? ==> CountRows(v.db.ledger, CREDIT, b) == CountRows(w.db.ledger, CREDIT, b))
    decreases |run|
  {
    hide Inv, Enabled, Apply, OnlyResult, Paid, CountRows;
    if run != [] {
      var front, a := run[..|run| - 1], run[|run| - 1];
      assert a in run && forall x <- front :: x in run;
      LiveRun(rqs, w, front, market, result, b);
      ReachableRun(rqs, w, front);
      var v := Run(rqs, w, front);
      ReachableInv(rqs, v);
      LiveStep(rqs, v, a, market, result, b);
      ResultStep(rqs, v, a, market, result);
      if result.LOSS? {
        LossPaysNot(rqs, v, a, b);
      }
    }
  }

  /**
   A market settled amid traffic: first anything at all, with any crashed attempts; then an attempt that takes the
   snapshot `order`; then its loop, with anything at all between its steps, to its end.
   */
  datatype Completion = Completion(before: seq<Action>, order: seq<Id>, after: seq<Action>)

  ghost predicate Completes(rqs: Requests, w: World, market: Id, result: MarketResult, c: Completion)
  {
    && Legal(rqs, w, c.before) && SettlesAs(c.before, market, result)
    && var u := Run(rqs, w, c.before);
    && market in u.admin && u.admin[market] == Snapshot(result)
    && Enabled(rqs, u, StepAdmin(market, c.order))
    && var s := Apply(rqs, u, StepAdmin(market, c.order));
    && Legal(rqs, s, c.after) && SettlesAs(c.after, market, result) && EndAdmin(market) !in c.after
    && market !in Run(rqs, s, c.after).admin
  }

  /** The world in which the completing attempt has its snapshot. */
  ghost function AtSnapshot(rqs: Requests, w: World, market: Id, result: MarketResult, c: Completion): World
    requires Completes(rqs, w, market, result, c)
  {
    Apply(rqs, Run(rqs, w, c.before), StepAdmin(market, c.order))
  }

  ghost function End(rqs: Requests, w: World, market: Id, result: MarketResult, c: Completion): World
    requires Completes(rqs, w, market, result, c)
  {
    Run(rqs, AtSnapshot(rqs, w, market, result, c), c.after)
  }

  /** The bets whose turn the completing attempt gave up. */
  ghost function Failed(rqs: Requests, w: World, market: Id, result: MarketResult, c: Completion): set<Id>
    requires Completes(rqs, w, market, result, c)
  {
    Failures(rqs, AtSnapshot(rqs, w, market, result, c), c.after, market)
  }

  lemma SnapshotStands(rqs: Requests, u: World, market: Id, result: MarketResult, order: seq<Id>)
    requires market in u.admin && u.admin[market] == Snapshot(result) && Enabled(rqs, u, StepAdmin(market, order))
    ensures var s := Apply(rqs, u, StepAdmin(market, order));
            s.db == u.db && IsSnapshot(u.db, market, order) && Distinct(order)
            && Standing(s, market, result, order, {}, 0)
  {
    assert order[0..] == order;
  }

  lemma ReachableStep(rqs: Requests, w: World, a: Action)
    requires Reachable(rqs, w) && Enabled(rqs, w, a)
    ensures Reachable(rqs, Apply(rqs, w, a))
  {
    hide Reachable, Inv, Enabled, Apply;
    RunOne(rqs, w, [], a);
    ReachableRun(rqs, w, [] + [a]);
  }

  lemma CompletionRuns(rqs: Requests, w: World, market: Id, result: MarketResult, c: Completion)
    requires Reachable(rqs, w) && Completes(rqs, w, market, result, c)
    ensures Reachable(rqs, Run(rqs, w, c.before)) && Reachable(rqs, AtSnapshot(rqs, w, market, result, c))
    ensures Reachable(rqs, End(rqs, w, market, result, c))
    ensures AtSnapshot(rqs, w, market, result, c).db == Run(rqs, w, c.before).db
    ensures Grown(w.db, End(rqs, w, market, result, c).db)
  {
    hide Reachable, Inv, Enabled, Apply, Grown;
    var u, s := Run(rqs, w, c.before), AtSnapshot(rqs, w, market, result, c);
    ReachableRun(rqs, w, c.before);
    ReachableStep(rqs, u, StepAdmin(market, c.order));
    ReachableRun(rqs, s, c.after);
    SnapshotStands(rqs, u, market, result, c.order);
    RunGrows(rqs, w, c.before);
    RunGrows(rqs, s, c.after);
    GrownOn(w.db, u.db, Run(rqs, s, c.after).db);
  }

  lemma GrownOn(a: DB, b: DB, c: DB)
    requires Grown(a, b) && Grown(b, c)
    ensures Grown(a, c)
  {
  }

  /**
   What becomes of a bet that was ACCEPTED when the settlements began, whatever ran before and between their steps: it
   ends SETTLED if and only if the completing attempt did not give it up, ACCEPTED otherwise; a WIN that settled it has
   paid it exactly once, and a LOSS has paid it nothing.
   */
  lemma SettledAmidTraffic(rqs: Requests, w: World, market: Id, result: MarketResult, c: Completion, b: Id)
    requires Reachable(rqs, w) && market !in w.admin && Completes(rqs, w, market, result, c)
    requires b in w.db.bets && w.db.bets[b].market == market && w.db.bets[b].status.ACCEPTED?
    ensures var v := End(rqs, w, market, result, c);
            && Closed(v.db, market) && b in v.db.bets
            && v.db.bets[b] == w.db.bets[b].(status := if b in Failed(rqs, w, market, result, c) then ACCEPTED
                                                       else BetStatus.SETTLED)
            && (result.WIN? && v.db.bets[b].status.SETTLED? ==> CountRows(v.db.ledger, CREDIT, b) == 1)
            && (result.LOSS? ==> CountRows(v.db.ledger, CREDIT, b) == CountRows(w.db.ledger, CREDIT, b))
  {
    hide Reachable, Inv, Enabled, Apply, Failures;
    CompletionRuns(rqs, w, market, result, c);
    var u, s, v := Run(rqs, w, c.before), AtSnapshot(rqs, w, market, result, c), End(rqs, w, market, result, c);
    LiveRun(rqs, w, c.before, market, result, b);
    SnapshotStands(rqs, u, market, result, c.order);
    SnapshotResult(rqs, u, market, result, c.order);
    LiveRun(rqs, s, c.after, market, result, b);
    var done := RunStands(rqs, s, c.after, market, result, c.order);
    if b !in c.order {
      TerminalIsFinal(rqs, s, c.after, b);
    } else {
      var i :| 0 <= i < |c.order| && c.order[i] == b;
      assert TurnOver(v.db, market, result, c.order[i], Failed(rqs, w, market, result, c));
    }
    hide Completes, LiveOrDone, Standing, IsSnapshot;
    if result.WIN? && v.db.bets[b].status.SETTLED? {
      PaidIsOne(rqs, v, b);
    }
  }

  lemma SnapshotResult(rqs: Requests, u: World, market: Id, result: MarketResult, order: seq<Id>)
    requires market in u.admin && u.admin[market] == Snapshot(result) && Enabled(rqs, u, StepAdmin(market, order))
    ensures OnlyResult(Apply(rqs, u, StepAdmin(market, order)), market, result)
  {
  }

  lemma PaidIsOne(rqs: Requests, w: World, b: Id)
    requires Reachable(rqs, w)
    ensures Paid(w.db, b) ==> CountRows(w.db.ledger, CREDIT, b) == 1
  {
    hide Reachable;
    ExactlyOncePayout(rqs, w);
    CountZero(w.db.ledger, CREDIT, b);
  }

  /** The bets of the market that are ACCEPTED. */
  ghost predicate IsOpen(db: DB, market: Id, b: Id)
  {
    b in db.bets && db.bets[b].market == market && db.bets[b].status.ACCEPTED?
  }

  /**
   Crash-and-retry refinement amid traffic. Take any two ways to settle one market with one result from one state, each
   with its own crashed attempts, its own other traffic before and between the steps, and its own visiting order. If the
   first gives up no bet that was open at the start, then both leave these bets alike if and only if the second gives up
   none of them either; and then both have paid them alike, each exactly once for a WIN.
   */
  lemma TrafficDoesNotMatter(rqs: Requests, w: World, market: Id, result: MarketResult, c: Completion, c': Completion)
    requires Reachable(rqs, w) && market !in w.admin
    requires Completes(rqs, w, market, result, c) && Completes(rqs, w, market, result, c')
    requires forall b: Id :: IsOpen(w.db, market, b) ==> b !in Failed(rqs, w, market, result, c)
    ensures var v, v' := End(rqs, w, market, result, c).db, End(rqs, w, market, result, c').db;
            && (forall b: Id :: IsOpen(w.db, market, b) ==> b in v.bets && b in v'.bets)
            && ((forall b: Id :: IsOpen(w.db, market, b) ==> v'.bets[b] == v.bets[b]) <==>
                  (forall b: Id :: IsOpen(w.db, market, b) ==> b !in Failed(rqs, w, market, result, c')))
            && (forall b: Id :: IsOpen(w.db, market, b) && b !in Failed(rqs, w, market, result, c') ==>
                  CountRows(v'.ledger, CREDIT, b) == CountRows(v.ledger, CREDIT, b))
  {
    hide Reachable, Completes, End, Failed;
    forall b: Id | IsOpen(w.db, market, b)
      ensures var v, v' := End(rqs, w, market, result, c).db, End(rqs, w, market, result, c').db;
              && b in v.bets && b in v'.bets
              && (v'.bets[b] == v.bets[b] <==> b !in Failed(rqs, w, market, result, c'))
              && (b !in Failed(rqs, w, market, result, c') ==>
                    CountRows(v'.ledger, CREDIT, b) == CountRows(v.ledger, CREDIT, b))
    {
      SettledAmidTraffic(rqs, w, market, result, c, b);
      SettledAmidTraffic(rqs, w, market, result, c', b);
    }
  }
}
