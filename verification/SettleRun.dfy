/** A call of settle with any per-bet failures, to its end or to a crash, is a run of the machine. */
module SettleRun {
  import opened Types
  import opened Ledger
  import opened Protocol
  import opened Invariant
  import opened Guarantees
  import opened Recovery
  import opened Settlement
  import opened CrashRetry

  /** The mutation of `market` stands at `admin`, the tables are `db`, and nothing else has moved since `w`. */
  ghost predicate At(w: World, v: World, market: Id, admin: Admin, db: DB)
  {
    v == w.(db := db, admin := v.admin, writes := v.writes, settleRuns := v.settleRuns)
    && market in v.admin && v.admin[market] == admin && v.admin - {market} == w.admin - {market}
  }

  lemma StepAdminOnce(rqs: Requests, w: World, run: seq<Action>, market: Id, admin: Admin, db: DB)
      returns (run': seq<Action>)
    requires Reachable(rqs, w) && Legal(rqs, w, run) && At(w, Run(rqs, w, run), market, admin, db) && !admin.Snapshot?
    requires AdminStep(db, market, admin, []).1.Some?
    ensures Legal(rqs, w, run')
    ensures var (db', next) := AdminStep(db, market, admin, []);
            At(w, Run(rqs, w, run'), market, next.value, db')
  {
    hide Inv, AdminStep, AdminWrite;
    run' := Step(rqs, w, run, StepAdmin(market, []));
    var v, v' := Run(rqs, w, run), Run(rqs, w, run');
    assert v'.admin - {market} == v.admin - {market};
  }

  lemma SkipOnce(rqs: Requests, w: World, run: seq<Action>, market: Id, admin: Admin, db: DB)
      returns (run': seq<Action>)
    requires Reachable(rqs, w) && Legal(rqs, w, run) && At(w, Run(rqs, w, run), market, admin, db)
    requires !admin.StatusUpdate? && !admin.Snapshot? && admin.todo != []
    ensures Legal(rqs, w, run')
    ensures At(w, Run(rqs, w, run'), market, NextBet(admin.result, admin.todo[1..]), db)
  {
    hide Inv;
    run' := Step(rqs, w, run, SkipBet(market));
    var v, v' := Run(rqs, w, run), Run(rqs, w, run');
    assert v'.admin - {market} == v.admin - {market};
  }

  /**
   From the status write on: the write throws before or after it commits, or the notification throws, or nothing
   does.
   */
  lemma WriteIsRun(rqs: Requests, w: World, run: seq<Action>, market: Id, result: MarketResult, todo: seq<Id>,
      db: DB, fault: BetFault)
    returns (run': seq<Action>)
    requires Reachable(rqs, w) && Legal(rqs, w, run) && todo != []
    requires At(w, Run(rqs, w, run), market, StatusWrite(result, todo), db)
    ensures Legal(rqs, w, run')
    ensures At(w, Run(rqs, w, run'), market, NextBet(result, todo[1..]),
               if fault.WriteThrows? then db else SetStatus(db, todo[0], BetStatus.SETTLED))
  {
    hide At, Enabled, Apply;
    if fault.WriteThrows? {
      run' := SkipOnce(rqs, w, run, market, StatusWrite(result, todo), db);
    } else {
      var db' := SetStatus(db, todo[0], BetStatus.SETTLED);
      run' := StepAdminOnce(rqs, w, run, market, StatusWrite(result, todo), db);
      run' := StepAdminOnce(rqs, w, run', market, Notify(result, todo), db');
    }
  }

  /** The credit of a WIN, however it ends; only a returned credit reaches the status write. */
  lemma CreditIsRun(rqs: Requests, w: World, run: seq<Action>, market: Id, todo: seq<Id>, db: DB, fault: BetFault)
    returns (run': seq<Action>)
    requires Reachable(rqs, w) && Legal(rqs, w, run) && todo != [] && todo[0] in db.bets
    requires At(w, Run(rqs, w, run), market, CreditCheck(WIN, todo), db)
    ensures Legal(rqs, w, run')
    ensures var (after, o) := SettleOne(db, todo[0], WIN, fault);
            if o.credit.Threw? then At(w, Run(rqs, w, run'), market, NextBet(WIN, todo[1..]), after)
            else At(w, Run(rqs, w, run'), market, StatusWrite(WIN, todo), Credit(db, todo[0]))
  {
    hide At, Enabled, Apply;
    var bet := db.bets[todo[0]];
    if fault.CreditThrows? {
      run' := SkipOnce(rqs, w, run, market, CreditCheck(WIN, todo), db);
    } else {
      run' := StepAdminOnce(rqs, w, run, market, CreditCheck(WIN, todo), db);
      if !HasRow(db.ledger, bet.user, todo[0], CREDIT) {
        run' := StepAdminOnce(rqs, w, run', market, CreditApply(WIN, todo), db);
      }
      if CanCredit(db, todo[0]) && fault.CreditLost? {
        run' := SkipOnce(rqs, w, run', market, StatusWrite(WIN, todo), Credit(db, todo[0]));
      }
    }
  }

  lemma OneBetIsRun(rqs: Requests, w: World, run: seq<Action>, market: Id, result: MarketResult, todo: seq<Id>,
      db: DB, fault: BetFault)
    returns (run': seq<Action>)
    requires Reachable(rqs, w) && Legal(rqs, w, run) && todo != [] && todo[0] in db.bets
    requires At(w, Run(rqs, w, run), market, NextBet(result, todo), db)
    ensures Legal(rqs, w, run')
    ensures At(w, Run(rqs, w, run'), market, NextBet(result, todo[1..]), SettleOne(db, todo[0], result, fault).0)
  {
    hide At, Enabled, Apply;
    if result.WIN? {
      run' := CreditIsRun(rqs, w, run, market, todo, db, fault);
      if !SettleOne(db, todo[0], WIN, fault).1.credit.Threw? {
        run' := WriteIsRun(rqs, w, run', market, WIN, todo, Credit(db, todo[0]), fault);
      }
    } else {
      run' := WriteIsRun(rqs, w, run, market, LOSS, todo, db, fault);
    }
  }

  lemma {:induction false} LoopIsRun(rqs: Requests, w: World, run: seq<Action>, market: Id, result: MarketResult,
                                     order: seq<Id>, done: nat, db: DB, faults: Faults)
    returns (run': seq<Action>)
    requires Reachable(rqs, w) && Legal(rqs, w, run) && done <= |order| && (forall b <- order :: b in db.bets)
    requires At(w, Run(rqs, w, run), market, NextBet(result, order), db)
    ensures Legal(rqs, w, run')
    ensures forall b <- order[..done] :: b in db.bets
    ensures At(w, Run(rqs, w, run'), market, NextBet(result, order[done..]),
               SettleMany(db, order[..done], result, faults).0)
    decreases done
  {
    hide At, Enabled, Apply, SettleOne, NextBet;
    assert forall b <- order[..done] :: b in order;
    if done == 0 {
      run' := run;
      assert order[0..] == order;
    } else {
      run' := LoopIsRun(rqs, w, run, market, result, order, done - 1, db, faults);
      var before := SettleMany(db, order[..done - 1], result, faults).0;
      var todo := order[done - 1..];
      assert order[..done][..done - 1] == order[..done - 1];
      assert todo[1..] == order[done..];
      run' := OneBetIsRun(rqs, w, run', market, result, todo, before, faults(order[done - 1]));
    }
  }

  lemma BeginIsRun(rqs: Requests, w: World, market: Id, result: MarketResult, order: seq<Id>) returns (run: seq<Action>)
    requires Reachable(rqs, w) && market !in w.admin && market in w.db.markets && !Closed(w.db, market)
    requires IsSnapshot(w.db, market, order)
    ensures Legal(rqs, w, run) && At(w, Run(rqs, w, run), market, NextBet(result, order), w.db)
  {
    hide Inv, IsSnapshot;
    run := Step(rqs, w, [], StartSettle(market, result));
    run := Step(rqs, w, run, StepAdmin(market, order));
    var v := Run(rqs, w, run);
    assert v.admin - {market} == w.admin - {market};
    assert v.writes == w.writes;
  }

  lemma EndIsRun(rqs: Requests, w: World, run: seq<Action>, market: Id, admin: Admin, db: DB, crash: bool)
      returns (run': seq<Action>)
    requires Reachable(rqs, w) && Legal(rqs, w, run) && market !in w.admin && At(w, Run(rqs, w, run), market, admin, db)
    requires crash || (admin.CreditCheck? && admin.todo == [])
    ensures Legal(rqs, w, run')
    ensures var v := Run(rqs, w, run');
            && v.db == (if crash then db else SetMarket(db, market, MarketStatus.SETTLED))
            && v == w.(db := v.db, writes := v.writes, settleRuns := v.settleRuns)
  {
    hide Inv;
    run' := Step(rqs, w, run, if crash then EndAdmin(market) else StepAdmin(market, []));
    assert Run(rqs, w, run').admin == w.admin;
  }

  /**
   Any call of settle on an open market, with any failure for each bet, to its end or to a crash after any bet, is a
   run of the machine that starts and ends with no mutation of the market running.
   */
  lemma SettleIsRun(rqs: Requests, w: World, market: Id, result: MarketResult, a: Attempt) returns (run: seq<Action>)
    requires Reachable(rqs, w) && market !in w.admin && market in w.db.markets && !Closed(w.db, market)
    requires AttemptOk(w.db, market, a)
    ensures Legal(rqs, w, run)
    ensures var v := Run(rqs, w, run);
            v.db == RunAttempt(w.db, market, result, a)
            && v == w.(db := v.db, writes := v.writes, settleRuns := v.settleRuns)
  {
    hide Inv, Enabled, Apply, SettleMany, At;
    run := BeginIsRun(rqs, w, market, result, a.order);
    var done := if a.Crashed? then a.reached else |a.order|;
    run := LoopIsRun(rqs, w, run, market, result, a.order, done, w.db, a.faults);
    assert a.order[..|a.order|] == a.order;
    var reached := SettleMany(w.db, a.order[..done], result, a.faults).0;
    run := EndIsRun(rqs, w, run, market, NextBet(result, a.order[done..]), reached, a.Crashed?);
  }

  lemma CrashKeepsMarkets(db: DB, market: Id, result: MarketResult, a: Attempt)
    requires LedgerInv(db) && AttemptOk(db, market, a) && a.Crashed?
    ensures RunAttempt(db, market, result, a).markets == db.markets
  {
    hide LedgerInv, SettleMany, LoopStatuses, LoopMoney;
    var order := a.order[..a.reached];
    assert forall b <- order :: b in a.order;
    SettleExactEffect(db, order, result, a.faults);
  }

  /** A whole history of crashed attempts and a completed one is a run of the machine. */
  lemma {:induction false} HistoryIsRun(rqs: Requests, w: World, market: Id, result: MarketResult,
      attempts: seq<Attempt>)
    returns (run: seq<Action>)
    requires Reachable(rqs, w) && market !in w.admin && market in w.db.markets && !Closed(w.db, market)
    requires HistoryOk(w.db, market, result, attempts)
    ensures Legal(rqs, w, run)
    ensures var v := Run(rqs, w, run);
            v.db == RunHistory(w.db, market, result, attempts)
            && v == w.(db := v.db, writes := v.writes, settleRuns := v.settleRuns)
    decreases |attempts|
  {
    hide Inv, Enabled, Apply, SettleMany, AttemptOk, RunAttempt;
    run := SettleIsRun(rqs, w, market, result, attempts[0]);
    if |attempts| > 1 {
      var v := Run(rqs, w, run);
      ReachableInv(rqs, w);
      LedgerOf(rqs, w);
      CrashKeepsMarkets(w.db, market, result, attempts[0]);
      ReachableRun(rqs, w, run);
      var more := HistoryIsRun(rqs, v, market, result, attempts[1..]);
      RunAppend(rqs, w, run, more);
      run := run + more;
    }
  }

  /**
   In every reachable state with an open market: a clean history of settle calls and any other history of them are two
   runs of the machine, which end with the same balances, statuses, credits and market if and only if the second
   history is clean as well.
   */
  lemma ReachableRetryMatches(rqs: Requests, w: World, market: Id, result: MarketResult, once: seq<Attempt>,
      retried: seq<Attempt>)
    returns (run: seq<Action>, run': seq<Action>)
    requires Reachable(rqs, w) && market !in w.admin && market in w.db.markets && !Closed(w.db, market)
    requires HistoryOk(w.db, market, result, once) && Clean(w.db, market, result, once)
    requires HistoryOk(w.db, market, result, retried)
    ensures Legal(rqs, w, run) && Run(rqs, w, run).db == RunHistory(w.db, market, result, once)
    ensures Legal(rqs, w, run') && Run(rqs, w, run').db == RunHistory(w.db, market, result, retried)
    ensures SameOutcome(Run(rqs, w, run).db, Run(rqs, w, run').db) <==> Clean(w.db, market, result, retried)
  {
    hide Inv, Enabled, Apply, HistoryOk, Clean, Sound, SameOutcome;
    ReachableIsSound(rqs, w);
    RetryMatchesUninterrupted(w.db, market, result, once, retried);
    run := HistoryIsRun(rqs, w, market, result, once);
    run' := HistoryIsRun(rqs, w, market, result, retried);
  }

  // ---- the other mutations of a market ------------------------------------------------------------

  /** A market's status write: that market's status, and nothing else anywhere. */
  lemma StatusWriteIs(db: DB, market: Id, status: MarketStatus)
    requires market in db.markets
    ensures var after := SetMarket(db, market, status);
            && after == db.(markets := after.markets) && after.markets.Keys == db.markets.Keys
            && after.markets[market] == db.markets[market].(status := status)
            && (forall m <- db.markets :: m != market ==> after.markets[m] == db.markets[m])
  {
  }

  /**
   A status update of an open or suspended market, run alone, is a run of the machine that writes just that status.
   */
  lemma UpdateIsRun(rqs: Requests, w: World, market: Id, status: MarketStatus) returns (run: seq<Action>)
    requires Reachable(rqs, w) && market !in w.admin && market in w.db.markets && !Closed(w.db, market)
    ensures Legal(rqs, w, run)
    ensures Run(rqs, w, run)
            == w.(db := w.db.(markets := w.db.markets[market := w.db.markets[market].(status := status)]))
  {
    hide Inv;
    run := Step(rqs, w, [], StartUpdate(market, status));
    run := Step(rqs, w, run, StepAdmin(market, []));
    var v := Run(rqs, w, run);
    assert v.admin == w.admin && v.writes == w.writes;
  }

  /** A market is created OPEN with its odds, beside all others. */
  lemma CreateIsRun(rqs: Requests, w: World, market: Id, odds: nat) returns (run: seq<Action>)
    requires Reachable(rqs, w) && market !in w.db.markets && 101 <= odds <= INT4_MAX
    ensures Legal(rqs, w, run)
    ensures Run(rqs, w, run) == w.(db := w.db.(markets := w.db.markets[market := Market(odds, OPEN)]))
  {
    hide Inv;
    run := Step(rqs, w, [], CreateMarket(market, odds));
  }
}
