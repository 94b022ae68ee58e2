/** Every enabled action keeps the invariant, so it holds in every reachable state. */
module Preservation {
  import opened Types
  import opened Ledger
  import opened Protocol
  import opened Invariant
  import opened Effects

  // ---- activities that did not take the step ----------------------------------------------------

  /** All calls but `own` survive when the only new row or bet is under `own`'s key (or is a payout). */
  lemma OtherCalls(rqs: Requests, w: World, db': DB, own: Id, calls': map<Id, Call>)
    requires CallsInv(rqs, w.db, w.calls) && Later(w.db, db')
    requires forall i :: |w.db.ledger| <= i < |db'.ledger| ==> db'.ledger[i].ref == own || db'.ledger[i].kind.CREDIT?
    requires forall b <- db'.bets :: b !in w.db.bets ==> db'.bets[b].ref == own
    requires forall r <- calls' :: r != own ==> r in w.calls && calls'[r] == w.calls[r]
    requires own in calls' ==> CallOk(rqs, db', own, calls'[own])
    ensures CallsInv(rqs, db', calls')
  {
    forall r <- calls' | r != own ensures CallOk(rqs, db', r, calls'[r]) {
      CallLater(rqs, w.db, db', r, w.calls[r]);
    }
  }

  lemma SameCalls(rqs: Requests, w: World, db': DB)
    requires CallsInv(rqs, w.db, w.calls) && Later(w.db, db') && db'.bets.Keys == w.db.bets.Keys
    requires forall i :: |w.db.ledger| <= i < |db'.ledger| ==> db'.ledger[i].kind.CREDIT?
    ensures CallsInv(rqs, db', w.calls)
  {
    forall r <- w.calls ensures CallOk(rqs, db', r, w.calls[r]) {
      CallLater(rqs, w.db, db', r, w.calls[r]);
    }
  }

  /** All mutations but the one of `own` survive a write that only concerns that market's row, bets and payouts. */
  lemma OtherAdmins(w: World, db': DB, runs': set<(Id, MarketResult)>, own: Id, admin': map<Id, Admin>)
    requires AdminInv(w.db, w.settleRuns, w.admin) && Later(w.db, db') && w.settleRuns <= runs'
    requires forall m <- w.db.markets :: m != own ==> db'.markets[m] == w.db.markets[m]
    requires forall b <- w.db.bets :: db'.bets[b] != w.db.bets[b] ==> w.db.bets[b].market == own
    requires forall i :: |w.db.ledger| <= i < |db'.ledger| && db'.ledger[i].kind.CREDIT?
                         ==> db'.ledger[i].ref in w.db.bets && w.db.bets[db'.ledger[i].ref].market == own
    requires forall m <- admin' :: m != own ==> m in w.admin && admin'[m] == w.admin[m]
    requires own in admin' ==> AdminOk(db', runs', own, admin'[own])
    ensures AdminInv(db', runs', admin')
  {
    forall m <- admin' | m != own ensures AdminOk(db', runs', m, admin'[m]) {
      AdminLater(w.db, db', w.settleRuns, runs', m, w.admin[m]);
    }
  }

  lemma SameAdmins(w: World, db': DB, runs': set<(Id, MarketResult)>)
    requires AdminInv(w.db, w.settleRuns, w.admin) && Later(w.db, db') && w.settleRuns <= runs'
    requires forall m <- w.db.markets :: db'.markets[m] == w.db.markets[m]
    requires forall b <- w.db.bets :: w.db.bets[b].status.ACCEPTED? ==> db'.bets[b] == w.db.bets[b]
    requires forall i :: |w.db.ledger| <= i < |db'.ledger| ==> !db'.ledger[i].kind.CREDIT?
    ensures AdminInv(db', runs', w.admin)
  {
    forall m <- w.admin ensures AdminOk(db', runs', m, w.admin[m]) {
      AdminLater(w.db, db', w.settleRuns, runs', m, w.admin[m]);
    }
  }

  /** Steps that only touch the cache or the broker. */
  lemma TablesUntouched(rqs: Requests, w: World, db': DB)
    requires LedgerInv(w.db) && RowsInv(rqs, w.db, w.settleRuns) && BetsInv(rqs, w.db)
    requires AdminInv(w.db, w.settleRuns, w.admin) && HistoryInv(w.db, w.settleRuns, w.writes)
    requires CallsInv(rqs, w.db, w.calls)
    requires db'.wallets == w.db.wallets && db'.ledger == w.db.ledger
    requires db'.bets == w.db.bets && db'.markets == w.db.markets
    ensures LedgerInv(db') && RowsInv(rqs, db', w.settleRuns) && BetsInv(rqs, db')
    ensures AdminInv(db', w.settleRuns, w.admin) && HistoryInv(db', w.settleRuns, w.writes)
    ensures CallsInv(rqs, db', w.calls)
  {
    hide LedgerInv, RowsInv, BetsInv, HistoryInv, AdminInv, CallsInv;
    LedgerSame(w.db, db');
    RowsLater(rqs, w.db, db', w.settleRuns, w.settleRuns);
    BetsLater(rqs, w.db, db');
    HistoryLater(w.db, db', w.settleRuns, w.settleRuns, w.writes);
    SameCalls(rqs, w, db');
    SameAdmins(w, db', w.settleRuns);
  }

  // ---- client calls -----------------------------------------------------------------------------

  /** What a call learns from a step that writes nothing. */
  lemma ReadLearns(rqs: Requests, db: DB, runs: set<(Id, MarketResult)>, ref: Id, call: Call, newId: Id)
    requires RowsInv(rqs, db, runs) && BetsInv(rqs, db) && CacheInv(db) && CallOk(rqs, db, ref, call)
    requires CallStep(rqs(ref), ref, db, call, newId).0 == db && !call.CacheWrite? && !call.Publish?
    ensures match CallStep(rqs(ref), ref, db, call, newId).1
            case Continue(next) => CallOk(rqs, db, ref, next)
            case Return(response) =>
              response.Placed? ==> rqs(ref).BetRequest? && IsBetOf(rqs(ref), ref, db, response.betId)
  {
    var rq := rqs(ref);
    if call.DepositCheck? || call.DebitCheck? {
      forall i | 0 <= i < |db.ledger| && db.ledger[i].ref == ref && !db.ledger[i].kind.CREDIT?
        ensures db.ledger[i].user == rq.user
      {
        assert RowOk(rqs, db, runs, db.ledger[i]);
      }
    } else if call.BetLookup? {
      forall b <- db.bets | db.bets[b].ref == ref ensures db.bets[b].user == rq.user {
        assert BetOk(rqs, db, db.bets[b]);
      }
    } else if call.DebitApply? {
      CommitChanges(db, rq.user, DEBIT, rq.stake, ref);
    }
  }

  /** A step of a call that writes nothing. */
  lemma CallReads(rqs: Requests, w: World, ref: Id, newId: Id)
    requires Inv(rqs, w) && ref in w.calls && newId !in w.db.bets
    requires CallStep(rqs(ref), ref, w.db, w.calls[ref], newId).0 == w.db
    requires !w.calls[ref].CacheWrite? && !w.calls[ref].Publish?
    ensures Inv(rqs, AfterCall(rqs(ref), w, ref, newId))
  {
    hide CallStep, LedgerInv, RowsInv, BetsInv, CacheInv, BrokerInv, WorkerInv, HistoryInv, AdminInv, CallOk;
    var w' := AfterCall(rqs(ref), w, ref, newId);
    assert CallOk(rqs, w.db, ref, w.calls[ref]);
    ReadLearns(rqs, w.db, w.settleRuns, ref, w.calls[ref], newId);
    assert w'.published == w.published;
    OtherCalls(rqs, w, w.db, ref, w'.calls);
  }

  /** Tables whose set of bets and statuses did not change. */
  lemma TablesAfter(rqs: Requests, w: World, w': World)
    requires Inv(rqs, w) && Later(w.db, w'.db) && w'.db.bets == w.db.bets && w.settleRuns <= w'.settleRuns
    requires w'.db.cache == w.db.cache && w'.db.queue == w.db.queue && w'.db.inflight == w.db.inflight
    requires w'.db.acked == w.db.acked && w'.db.dead == w.db.dead && w'.db.nextTag == w.db.nextTag
    requires w'.published == w.published && w'.writes == w.writes && w'.worker == w.worker
    requires forall r <- w'.responses :: r in w.responses || !r.1.Placed?
    ensures BetsInv(rqs, w'.db) && CacheInv(w'.db) && BrokerInv(w'.db, w'.published) && WorkerInv(w'.db, w'.worker)
    ensures HistoryInv(w'.db, w'.settleRuns, w'.writes) && ResponsesInv(rqs, w'.db, w'.responses)
  {
    BetsLater(rqs, w.db, w'.db);
    BrokerLater(w.db, w'.db, w.published);
    HistoryLater(w.db, w'.db, w.settleRuns, w'.settleRuns, w.writes);
  }

  /** The transaction a call commits. */
  lemma PayShape(rqs: Requests, w: World, ref: Id, newId: Id) returns (row: Row)
    requires ref in w.calls && CallOk(rqs, w.db, ref, w.calls[ref])
    requires w.calls[ref].DepositApply? || w.calls[ref].DebitApply?
    requires LedgerInv(w.db) && CallStep(rqs(ref), ref, w.db, w.calls[ref], newId).0 != w.db
    ensures var w' := AfterCall(rqs(ref), w, ref, newId);
            && w'.db == w.db.(wallets := w'.db.wallets, ledger := w.db.ledger + [row])
            && LedgerInv(w'.db)
            && row.ref == ref && !row.kind.CREDIT? && NoRow(w.db, ref, row.kind)
            && RowOk(rqs, w.db, w.settleRuns, row)
            && w' == w.(db := w'.db, calls := w'.calls, responses := w'.responses)
            && (forall r <- w'.responses :: r in w.responses || !r.1.Placed?)
            && (forall r <- w'.calls :: r != ref ==> r in w.calls && w'.calls[r] == w.calls[r])
            && (ref in w'.calls ==> CallOk(rqs, w'.db, ref, w'.calls[ref]))
  {
    var rq, call := rqs(ref), w.calls[ref];
    var w' := AfterCall(rq, w, ref, newId);
    var kind := if call.DepositApply? then DEPOSIT else DEBIT;
    var amount := if call.DepositApply? then rq.amount else rq.stake;
    LedgerGrows(w.db, rq.user, kind, amount, ref);
    row := Row(rq.user, kind, amount, w'.db.wallets[rq.user], ref);
    assert w'.db.ledger == w.db.ledger + [row];
    assert w'.db.ledger[|w.db.ledger|] == row;
    assert w'.published == w.published;
  }

  /** A call commits a deposit or a debit. */
  lemma CallPays(rqs: Requests, w: World, ref: Id, newId: Id)
    requires Inv(rqs, w) && ref in w.calls && newId !in w.db.bets
    requires w.calls[ref].DepositApply? || w.calls[ref].DebitApply?
    requires CallStep(rqs(ref), ref, w.db, w.calls[ref], newId).0 != w.db
    ensures Inv(rqs, AfterCall(rqs(ref), w, ref, newId))
  {
    hide CallStep, AfterCall, LedgerInv, RowsInv, BetsInv, CacheInv, BrokerInv, WorkerInv, HistoryInv, AdminInv, CallOk;
    hide ResponsesInv;
    var row := PayShape(rqs, w, ref, newId);
    var w' := AfterCall(rqs(ref), w, ref, newId);
    RowsAppend(rqs, w.db, w'.db, w.settleRuns, row);
    TablesAfter(rqs, w, w');
    OtherCalls(rqs, w, w'.db, ref, w'.calls);
    SameAdmins(w, w'.db, w.settleRuns);
  }

  /** The bet a call saves. */
  lemma SaveShape(rqs: Requests, w: World, ref: Id, newId: Id) returns (bet: Bet)
    requires ref in w.calls && newId !in w.db.bets && CallOk(rqs, w.db, ref, w.calls[ref])
    requires w.calls[ref].BetSave? && CallStep(rqs(ref), ref, w.db, w.calls[ref], newId).0 != w.db
    requires BetsInv(rqs, w.db) && LedgerInv(w.db) && CacheInv(w.db)
    ensures var w' := AfterCall(rqs(ref), w, ref, newId);
            && w'.db == w.db.(bets := w.db.bets[newId := bet])
            && bet.status.PENDING? && bet.ref == ref
            && BetsInv(rqs, w'.db) && LedgerInv(w'.db) && CacheInv(w'.db)
            && w' == w.(db := w'.db, calls := w'.calls)
            && (forall r <- w'.calls :: r != ref ==> r in w.calls && w'.calls[r] == w.calls[r])
            && (ref in w'.calls ==> CallOk(rqs, w'.db, ref, w'.calls[ref]))
  {
    hide LedgerInv, BetsInv;
    var w' := AfterCall(rqs(ref), w, ref, newId);
    bet := NewBet(rqs(ref), ref, w.calls[ref].odds);
    assert w'.published == w.published;
    BetsInsert(rqs, w.db, newId, bet);
    LedgerSame(w.db, w'.db);
  }

  /** A call saves its bet. */
  lemma CallSaves(rqs: Requests, w: World, ref: Id, newId: Id)
    requires Inv(rqs, w) && ref in w.calls && newId !in w.db.bets && w.calls[ref].BetSave?
    requires CallStep(rqs(ref), ref, w.db, w.calls[ref], newId).0 != w.db
    ensures Inv(rqs, AfterCall(rqs(ref), w, ref, newId))
  {
    hide CallStep, AfterCall, LedgerInv, RowsInv, BetsInv, CacheInv, BrokerInv, HistoryInv, AdminInv, CallOk;
    var bet := SaveShape(rqs, w, ref, newId);
    var w' := AfterCall(rqs(ref), w, ref, newId);
    RowsLater(rqs, w.db, w'.db, w.settleRuns, w.settleRuns);
    BrokerLater(w.db, w'.db, w.published);
    HistoryLater(w.db, w'.db, w.settleRuns, w.settleRuns, w.writes);
    OtherCalls(rqs, w, w'.db, ref, w'.calls);
    SameAdmins(w, w'.db, w.settleRuns);
  }

  /** A call caches its bet. */
  lemma CallCaches(rqs: Requests, w: World, ref: Id, newId: Id)
    requires Inv(rqs, w) && ref in w.calls && w.calls[ref].CacheWrite?
    ensures Inv(rqs, AfterCall(rqs(ref), w, ref, newId))
  {
    hide LedgerInv, RowsInv, BetsInv, BrokerInv, HistoryInv, AdminInv;
    var w' := AfterCall(rqs(ref), w, ref, newId);
    assert CallOk(rqs, w.db, ref, w.calls[ref]);
    assert w'.db == w.db.(cache := w'.db.cache) && w'.published == w.published;
    TablesUntouched(rqs, w, w'.db);
    BrokerLater(w.db, w'.db, w.published);
    OtherCalls(rqs, w, w'.db, ref, w'.calls);
  }

  /** A call publishes its bet. */
  lemma CallPublishes(rqs: Requests, w: World, ref: Id, newId: Id)
    requires Inv(rqs, w) && ref in w.calls && w.calls[ref].Publish?
    ensures Inv(rqs, AfterCall(rqs(ref), w, ref, newId))
  {
    hide LedgerInv, RowsInv, BetsInv, BrokerInv, HistoryInv, AdminInv;
    var rq, call := rqs(ref), w.calls[ref];
    var w' := AfterCall(rq, w, ref, newId);
    assert CallOk(rqs, w.db, ref, call);
    var payload := PayloadOf(call.betId, NewBet(rq, ref, call.odds));
    assert w'.db == Enqueue(w.db, payload) && w'.published == w.published + [Message(w.db.nextTag, payload)];
    TablesUntouched(rqs, w, w'.db);
    BrokerEnqueue(w.db, w.published, payload);
    OtherCalls(rqs, w, w'.db, ref, w'.calls);
  }

  lemma CallStepKeeps(rqs: Requests, w: World, ref: Id, newId: Id)
    requires Inv(rqs, w) && ref in w.calls && newId !in w.db.bets
    ensures Inv(rqs, AfterCall(rqs(ref), w, ref, newId))
  {
    hide LedgerInv, RowsInv, BetsInv, CacheInv, BrokerInv, WorkerInv, HistoryInv, AdminInv, ResponsesInv, AfterCall;
    assert CallOk(rqs, w.db, ref, w.calls[ref]);
    var call := w.calls[ref];
    if call.CacheWrite? {
      CallCaches(rqs, w, ref, newId);
    } else if call.Publish? {
      CallPublishes(rqs, w, ref, newId);
    } else if CallStep(rqs(ref), ref, w.db, call, newId).0 == w.db {
      CallReads(rqs, w, ref, newId);
    } else if call.BetSave? {
      CallSaves(rqs, w, ref, newId);
    } else {
      CallPays(rqs, w, ref, newId);
    }
  }

  // ---- market mutations -------------------------------------------------------------------------

  /** settle's loop reaches the next bet, or its end. */
  lemma NextBetOk(db: DB, runs: set<(Id, MarketResult)>, market: Id, result: MarketResult, todo: seq<Id>)
    requires market in db.markets && !db.markets[market].status.SETTLED? && (market, result) in runs
    requires TodoOk(db, market, todo)
    ensures AdminOk(db, runs, market, NextBet(result, todo))
  {
  }

  /** What a market mutation knows after a step that writes nothing. */
  lemma AdminLearns(rqs: Requests, db: DB, runs: set<(Id, MarketResult)>, market: Id, admin: Admin, order: seq<Id>)
    requires RowsInv(rqs, db, runs) && AdminOk(db, runs, market, admin)
    requires admin.Snapshot? ==> IsSnapshot(db, market, order)
    requires !admin.StatusUpdate? && !admin.StatusWrite? && !(admin.CreditCheck? && admin.todo == [])
    requires AdminStep(db, market, admin, order).0 == db
    ensures var next := AdminStep(db, market, admin, order).1;
            next.Some? && AdminOk(db, runs, market, next.value)
  {
    match admin
    case Snapshot(result) => NextBetOk(db, runs, market, result, order);
    case Notify(result, todo) => NextBetOk(db, runs, market, result, todo[1..]);
    case CreditCheck(result, todo) =>
      forall i | 0 <= i < |db.ledger| && db.ledger[i].kind.CREDIT? && db.ledger[i].ref == todo[0]
        ensures db.ledger[i].user == db.bets[todo[0]].user
      {
        assert RowOk(rqs, db, runs, db.ledger[i]);
      }
    case CreditApply(result, todo) =>
      CommitChanges(db, db.bets[todo[0]].user, CREDIT, db.bets[todo[0]].payout, todo[0]);
      if NewBalance(db.wallets, db.bets[todo[0]].user, CREDIT, db.bets[todo[0]].payout).None? {
        NextBetOk(db, runs, market, result, todo[1..]);
      }
    case _ =>
  }

  lemma AdminReads(rqs: Requests, w: World, market: Id, order: seq<Id>)
    requires Inv(rqs, w) && Enabled(rqs, w, StepAdmin(market, order))
    requires var admin := w.admin[market];
             !admin.StatusUpdate? && !admin.StatusWrite? && !(admin.CreditCheck? && admin.todo == [])
    requires AdminStep(w.db, market, w.admin[market], order).0 == w.db
    ensures Inv(rqs, AfterAdmin(w, market, order))
  {
    hide LedgerInv, RowsInv, BetsInv, CacheInv, BrokerInv, WorkerInv, HistoryInv, ResponsesInv, CallsInv;
    hide AdminStep, AdminOk, IsSnapshot;
    assert AdminOk(w.db, w.settleRuns, market, w.admin[market]);
    AdminLearns(rqs, w.db, w.settleRuns, market, w.admin[market], order);
    var w' := AfterAdmin(w, market, order);
    assert w'.writes == w.writes;
    OtherAdmins(w, w.db, w.settleRuns, market, w'.admin);
  }

  /** settle commits a payout. */
  lemma AdminPays(rqs: Requests, w: World, market: Id, order: seq<Id>)
    requires Inv(rqs, w) && market in w.admin && w.admin[market].CreditApply?
    requires AdminStep(w.db, market, w.admin[market], order).0 != w.db
    ensures Inv(rqs, AfterAdmin(w, market, order))
  {
    hide LedgerInv, RowsInv, BetsInv, CacheInv, BrokerInv, WorkerInv, HistoryInv, ResponsesInv, CallsInv;
    var w' := AfterAdmin(w, market, order);
    var id := w.admin[market].todo[0];
    assert AdminOk(w.db, w.settleRuns, market, w.admin[market]);
    var bet := w.db.bets[id];
    var row := Row(bet.user, CREDIT, bet.payout, w'.db.wallets[bet.user], id);
    assert w'.db == w.db.(wallets := w'.db.wallets, ledger := w.db.ledger + [row]) && w'.writes == w.writes;
    assert w'.db.ledger[|w.db.ledger|] == row;
    assert HasRow(w'.db.ledger, bet.user, id, CREDIT);
    LedgerGrows(w.db, bet.user, CREDIT, bet.payout, id);
    RowsAppend(rqs, w.db, w'.db, w.settleRuns, row);
    TablesAfter(rqs, w, w');
    SameCalls(rqs, w, w'.db);
    OtherAdmins(w, w'.db, w.settleRuns, market, w'.admin);
  }

  /** A legal status write, by settle or by the worker. */
  lemma StatusWritten(rqs: Requests, w: World, write: Write)
    requires Inv(rqs, w) && WriteOk(w.db, w.settleRuns, write) && write.from == w.db.bets[write.bet].status
    requires StatusLater(write.from, write.to) && write.from != write.to
    ensures var db' := SetStatus(w.db, write.bet, write.to);
            && Later(w.db, db') && db'.bets.Keys == w.db.bets.Keys
            && LedgerInv(db') && RowsInv(rqs, db', w.settleRuns) && BetsInv(rqs, db') && CacheInv(db')
            && BrokerInv(db', w.published) && CallsInv(rqs, db', w.calls)
            && HistoryInv(db', w.settleRuns, w.writes + [write]) && ResponsesInv(rqs, db', w.responses)
  {
    hide LedgerInv, RowsInv, BetsInv, BrokerInv, WorkerInv, HistoryInv, CallsInv, AdminInv;
    var db' := SetStatus(w.db, write.bet, write.to);
    LedgerSame(w.db, db');
    RowsLater(rqs, w.db, db', w.settleRuns, w.settleRuns);
    BetsLater(rqs, w.db, db');
    BrokerLater(w.db, db', w.published);
    SameCalls(rqs, w, db');
    HistoryAppend(w.db, w.settleRuns, w.writes, write);
  }

  /** settle moves a bet to SETTLED. */
  lemma AdminSettles(rqs: Requests, w: World, market: Id, order: seq<Id>)
    requires Inv(rqs, w) && market in w.admin && w.admin[market].StatusWrite?
    ensures Inv(rqs, AfterAdmin(w, market, order))
  {
    hide LedgerInv, RowsInv, BetsInv, CacheInv, BrokerInv, HistoryInv, ResponsesInv, CallsInv;
    var admin := w.admin[market];
    assert AdminOk(w.db, w.settleRuns, market, admin);
    var write := Write(admin.todo[0], ACCEPTED, BetStatus.SETTLED, Some(admin.result));
    StatusWritten(rqs, w, write);
    var w' := AfterAdmin(w, market, order);
    assert AdminWrite(w.db, admin) == [write];
    assert w'.writes == w.writes + [write];
    OtherAdmins(w, w'.db, w.settleRuns, market, w'.admin);
  }

  /** updateStatus or settle writes the market's status and is done. */
  lemma AdminCloses(rqs: Requests, w: World, market: Id, order: seq<Id>)
    requires Inv(rqs, w) && market in w.admin
    requires w.admin[market].StatusUpdate? || (w.admin[market].CreditCheck? && w.admin[market].todo == [])
    ensures Inv(rqs, AfterAdmin(w, market, order))
  {
    hide LedgerInv, RowsInv, BetsInv, CacheInv, BrokerInv, WorkerInv, HistoryInv, ResponsesInv, CallsInv;
    assert AdminOk(w.db, w.settleRuns, market, w.admin[market]);
    var w' := AfterAdmin(w, market, order);
    assert w'.writes == w.writes;
    MarketsWritten(rqs, w, w'.db);
    OtherAdmins(w, w'.db, w.settleRuns, market, w'.admin);
  }

  /** A write to the markets table keeps everything that is not about a running mutation. */
  lemma MarketsWritten(rqs: Requests, w: World, db': DB)
    requires Inv(rqs, w) && db' == w.db.(markets := db'.markets) && Later(w.db, db')
    ensures LedgerInv(db') && RowsInv(rqs, db', w.settleRuns) && BetsInv(rqs, db') && CacheInv(db')
    ensures BrokerInv(db', w.published) && CallsInv(rqs, db', w.calls) && WorkerInv(db', w.worker)
    ensures HistoryInv(db', w.settleRuns, w.writes) && ResponsesInv(rqs, db', w.responses)
  {
    hide LedgerInv, RowsInv, BetsInv, BrokerInv, HistoryInv, CallsInv, AdminInv;
    LedgerSame(w.db, db');
    RowsLater(rqs, w.db, db', w.settleRuns, w.settleRuns);
    BetsLater(rqs, w.db, db');
    BrokerLater(w.db, db', w.published);
    SameCalls(rqs, w, db');
    HistoryLater(w.db, db', w.settleRuns, w.settleRuns, w.writes);
  }

  lemma AdminStepKeeps(rqs: Requests, w: World, market: Id, order: seq<Id>)
    requires Inv(rqs, w) && Enabled(rqs, w, StepAdmin(market, order))
    ensures Inv(rqs, AfterAdmin(w, market, order))
  {
    hide LedgerInv, RowsInv, BetsInv, CacheInv, BrokerInv, WorkerInv, HistoryInv, ResponsesInv, CallsInv, AfterAdmin;
    var admin := w.admin[market];
    assert AdminOk(w.db, w.settleRuns, market, admin);
    if admin.StatusWrite? {
      AdminSettles(rqs, w, market, order);
    } else if admin.StatusUpdate? || (admin.CreditCheck? && admin.todo == []) {
      AdminCloses(rqs, w, market, order);
    } else if AdminStep(w.db, market, admin, order).0 == w.db {
      AdminReads(rqs, w, market, order);
    } else {
      AdminPays(rqs, w, market, order);
    }
  }

  /** Starting, skipping a failed bet and dying only change which mutations run. */
  lemma AdminControlKeeps(rqs: Requests, w: World, a: Action)
    requires Inv(rqs, w) && Enabled(rqs, w, a)
    requires a.StartUpdate? || a.StartSettle? || a.SkipBet? || a.EndAdmin?
    ensures Inv(rqs, Apply(rqs, w, a))
  {
    hide LedgerInv, RowsInv, BetsInv, CacheInv, BrokerInv, WorkerInv, HistoryInv, ResponsesInv, CallsInv;
    hide AfterCall, AfterAdmin, AfterWorker;
    var w' := Apply(rqs, w, a);
    RowsLater(rqs, w.db, w.db, w.settleRuns, w'.settleRuns);
    HistoryLater(w.db, w.db, w.settleRuns, w'.settleRuns, w.writes);
    if a.SkipBet? {
      var admin := w.admin[a.market];
      assert AdminOk(w.db, w.settleRuns, a.market, admin);
      NextBetOk(w.db, w.settleRuns, a.market, admin.result, admin.todo[1..]);
    }
    OtherAdmins(w, w.db, w'.settleRuns, a.market, w'.admin);
  }

  // ---- the worker and the broker ----------------------------------------------------------------

  /** Moving one message between two places keeps the broker's books. */
  lemma MessagesMoved(db: DB, db': DB, published: seq<Message>)
    requires BrokerInv(db, published) && Later(db, db') && db'.bets == db.bets && db'.nextTag == db.nextTag
    requires AllMessages(db') == AllMessages(db)
    requires forall m <- db'.acked :: m in published && !db.bets[m.payload.betId].status.PENDING?
    requires db'.inflight.Some? ==> db'.inflight.value in published
    ensures BrokerInv(db', published)
  {
    MessagesLater(db, db', published);
  }

  lemma TakeOne(queue: seq<Message>, index: nat)
    requires index < |queue|
    ensures multiset(Take(queue, index)) + multiset{queue[index]} == multiset(queue)
  {
    assert queue == queue[..index] + [queue[index]] + queue[index + 1..];
  }

  lemma InQueueIsPublished(db: DB, published: seq<Message>, m: Message)
    requires BrokerInv(db, published) && m in AllMessages(db)
    ensures m in published && MessageOk(db, m)
  {
    assert m in multiset(published);
  }

  function Delivered(db: DB, index: nat): DB
    requires index < |db.queue|
  {
    db.(queue := Take(db.queue, index), inflight := Some(db.queue[index]))
  }

  lemma BrokerDelivers(db: DB, index: nat, published: seq<Message>)
    requires BrokerInv(db, published) && db.inflight.None? && index < |db.queue|
    ensures BrokerInv(Delivered(db, index), published)
    ensures db.queue[index].payload.betId in db.bets
  {
    TakeOne(db.queue, index);
    InQueueIsPublished(db, published, db.queue[index]);
    MessagesMoved(db, Delivered(db, index), published);
  }

  lemma DeliverKeeps(rqs: Requests, w: World, index: nat)
    requires Inv(rqs, w) && Enabled(rqs, w, Deliver(index))
    ensures Inv(rqs, Apply(rqs, w, Deliver(index)))
  {
    hide LedgerInv, RowsInv, BetsInv, HistoryInv, CallsInv, AdminInv, BrokerInv, CacheInv, ResponsesInv;
    hide AfterCall, AfterAdmin, AfterWorker;
    BrokerDelivers(w.db, index, w.published);
    TablesUntouched(rqs, w, Delivered(w.db, index));
    OthersUntouched(rqs, w, Delivered(w.db, index));
  }

  /** The cache and the answers only speak about bets. */
  lemma OthersUntouched(rqs: Requests, w: World, db': DB)
    requires CacheInv(w.db) && ResponsesInv(rqs, w.db, w.responses)
    requires db'.bets == w.db.bets && db'.cache == w.db.cache
    ensures CacheInv(db') && ResponsesInv(rqs, db', w.responses)
  {
  }

  lemma BrokerReplays(db: DB, index: nat, published: seq<Message>)
    requires BrokerInv(db, published) && index < |db.dead|
    ensures BrokerInv(db.(dead := Take(db.dead, index), queue := db.queue + [db.dead[index]]), published)
  {
    TakeOne(db.dead, index);
    MessagesMoved(db, db.(dead := Take(db.dead, index), queue := db.queue + [db.dead[index]]), published);
  }

  lemma ReplayKeeps(rqs: Requests, w: World, index: nat)
    requires Inv(rqs, w) && Enabled(rqs, w, Replay(index))
    ensures Inv(rqs, Apply(rqs, w, Replay(index)))
  {
    hide LedgerInv, RowsInv, BetsInv, HistoryInv, CallsInv, AdminInv, BrokerInv, CacheInv, ResponsesInv;
    hide AfterCall, AfterAdmin, AfterWorker;
    var w' := Apply(rqs, w, Replay(index));
    TablesUntouched(rqs, w, w'.db);
    OthersUntouched(rqs, w, w'.db);
    BrokerReplays(w.db, index, w.published);
  }

  lemma BrokerRequeues(db: DB, published: seq<Message>)
    requires BrokerInv(db, published) && db.inflight.Some?
    ensures BrokerInv(db.(queue := db.queue + [db.inflight.value], inflight := None), published)
  {
    MessagesMoved(db, db.(queue := db.queue + [db.inflight.value], inflight := None), published);
  }

  lemma WorkerControlKeeps(rqs: Requests, w: World, a: Action)
    requires Inv(rqs, w) && Enabled(rqs, w, a) && (a.WorkerThrows? || a.WorkerDies?)
    ensures Inv(rqs, Apply(rqs, w, a))
  {
    hide LedgerInv, RowsInv, BetsInv, HistoryInv, CallsInv, AdminInv, BrokerInv, CacheInv, ResponsesInv;
    hide AfterCall, AfterAdmin, AfterWorker;
    var w' := Apply(rqs, w, a);
    TablesUntouched(rqs, w, w'.db);
    OthersUntouched(rqs, w, w'.db);
    BrokerRequeues(w.db, w.published);
  }

  lemma WorkerShape(db: DB, worker: Worker)
    requires WorkerInv(db, worker) && db.inflight.Some? && !worker.WriteBet?
    ensures var (db', worker') := WorkerStep(db, worker);
            && db' == db.(inflight := db'.inflight, acked := db'.acked, dead := db'.dead)
            && WorkerInv(db', worker')
  {
  }

  /** The worker reads, or settles the delivery. */
  lemma WorkerMoves(rqs: Requests, w: World)
    requires Inv(rqs, w) && !w.worker.Idle? && w.db.inflight.Some? && !w.worker.WriteBet?
    ensures Inv(rqs, AfterWorker(w))
  {
    hide LedgerInv, RowsInv, BetsInv, HistoryInv, CallsInv, AdminInv, BrokerInv, CacheInv, ResponsesInv;
    hide WorkerInv, WorkerStep;
    WorkerShape(w.db, w.worker);
    var w' := AfterWorker(w);
    assert w'.writes == w.writes;
    TablesUntouched(rqs, w, w'.db);
    OthersUntouched(rqs, w, w'.db);
    WorkerSettles(w.db, w.worker, w.published);
  }

  lemma BrokerAcks(db: DB, published: seq<Message>)
    requires BrokerInv(db, published) && db.inflight.Some?
    requires db.inflight.value.payload.betId in db.bets && !db.bets[db.inflight.value.payload.betId].status.PENDING?
    ensures BrokerInv(Ack(db), published)
  {
    MessagesMoved(db, Ack(db), published);
  }

  lemma BrokerNacks(db: DB, published: seq<Message>)
    requires BrokerInv(db, published) && db.inflight.Some?
    ensures BrokerInv(Nack(db), published)
  {
    MessagesMoved(db, Nack(db), published);
  }

  lemma WorkerSettles(db: DB, worker: Worker, published: seq<Message>)
    requires BrokerInv(db, published) && WorkerInv(db, worker) && db.inflight.Some? && !worker.WriteBet?
    ensures BrokerInv(WorkerStep(db, worker).0, published)
  {
    hide BrokerInv;
    if worker.Written? || worker.AlreadyTerminal? {
      BrokerAcks(db, published);
    } else if worker.Failing? {
      BrokerNacks(db, published);
    }
  }

  lemma WorkerAccepts(rqs: Requests, w: World)
    requires Inv(rqs, w) && w.worker.WriteBet? && w.db.inflight.Some?
    ensures Inv(rqs, AfterWorker(w))
  {
    hide LedgerInv, RowsInv, BetsInv, HistoryInv, CallsInv, AdminInv, BrokerInv, CacheInv, ResponsesInv;
    var id := w.db.inflight.value.payload.betId;
    var write := Write(id, PENDING, ACCEPTED, None);
    StatusWritten(rqs, w, write);
    var w' := AfterWorker(w);
    assert w'.writes == w.writes + [write];
    SameAdmins(w, w'.db, w.settleRuns);
  }

  /** getOrCreateWallet inserts a wallet without touching any row. */
  lemma WalletKeeps(rqs: Requests, w: World, user: Id)
    requires Inv(rqs, w)
    ensures Inv(rqs, w.(db := OpenWallet(w.db, user)))
  {
    hide LedgerInv, RowsInv, BetsInv, BrokerInv, HistoryInv, AdminInv, CallsInv;
    var db' := OpenWallet(w.db, user);
    WalletOpens(w.db, user);
    RowsLater(rqs, w.db, db', w.settleRuns, w.settleRuns);
    BetsLater(rqs, w.db, db');
    HistoryLater(w.db, db', w.settleRuns, w.settleRuns, w.writes);
    BrokerLater(w.db, db', w.published);
    SameCalls(rqs, w, db');
    SameAdmins(w, db', w.settleRuns);
  }

  lemma MarketKeeps(rqs: Requests, w: World, market: Id, odds: nat)
    requires Inv(rqs, w) && market !in w.db.markets
    ensures Inv(rqs, w.(db := w.db.(markets := w.db.markets[market := Market(odds, OPEN)])))
  {
    hide LedgerInv, RowsInv, BetsInv, BrokerInv, HistoryInv, AdminInv, CallsInv, CacheInv, WorkerInv, ResponsesInv;
    var db' := w.db.(markets := w.db.markets[market := Market(odds, OPEN)]);
    MarketsWritten(rqs, w, db');
    SameAdmins(w, db', w.settleRuns);
  }

  lemma EvictKeeps(rqs: Requests, w: World, keys: set<(Id, Id)>)
    requires Inv(rqs, w)
    ensures Inv(rqs, w.(db := w.db.(cache := w.db.cache - keys)))
  {
    hide LedgerInv, RowsInv, BetsInv, BrokerInv, HistoryInv, AdminInv, CallsInv;
    var db' := w.db.(cache := w.db.cache - keys);
    TablesUntouched(rqs, w, db');
    BrokerLater(w.db, db', w.published);
  }

  /** A call starts, or dies. */
  lemma CallControlKeeps(rqs: Requests, w: World, calls': map<Id, Call>)
    requires Inv(rqs, w)
    requires forall r <- calls' :: if r in w.calls then calls'[r] == w.calls[r]
                                   else rqs(r).Valid() && calls'[r] == FirstStep(rqs(r))
    ensures Inv(rqs, w.(calls := calls'))
  {
    hide LedgerInv, RowsInv, BetsInv, BrokerInv, HistoryInv, AdminInv, CacheInv, WorkerInv, ResponsesInv;
    forall r <- calls' ensures CallOk(rqs, w.db, r, calls'[r]) {
      assert r in w.calls ==> CallOk(rqs, w.db, r, w.calls[r]);
    }
  }

  // ---- every run --------------------------------------------------------------------------------

  lemma StepKeepsInv(rqs: Requests, w: World, a: Action)
    requires Inv(rqs, w) && Enabled(rqs, w, a)
    ensures Inv(rqs, Apply(rqs, w, a))
  {
    hide LedgerInv, RowsInv, BetsInv, CacheInv, BrokerInv, HistoryInv, AdminInv, WorkerInv, ResponsesInv, CallsInv;
    hide AfterCall, AfterAdmin, AfterWorker;
    match a
    case StepCall(ref, newId) => CallStepKeeps(rqs, w, ref, newId);
    case StepAdmin(market, order) => AdminStepKeeps(rqs, w, market, order);
    case StepWorker => if w.worker.WriteBet? { WorkerAccepts(rqs, w); } else { WorkerMoves(rqs, w); }
    case Deliver(index) => DeliverKeeps(rqs, w, index);
    case Replay(index) => ReplayKeeps(rqs, w, index);
    case WorkerThrows | WorkerDies => WorkerControlKeeps(rqs, w, a);
    case StartUpdate(_, _) | StartSettle(_, _) | SkipBet(_) | EndAdmin(_) => AdminControlKeeps(rqs, w, a);
    case CreateWallet(user) => WalletKeeps(rqs, w, user);
    case CreateMarket(market, odds) => MarketKeeps(rqs, w, market, odds);
    case Evict(keys) => EvictKeeps(rqs, w, keys);
    case StartCall(_) | EndCall(_) => CallControlKeeps(rqs, w, Apply(rqs, w, a).calls);
  }

  lemma InitInv(rqs: Requests)
    ensures Inv(rqs, INIT)
  {
    assert INIT.db == EMPTY_DB;
  }

  lemma {:induction false} RunKeepsInv(rqs: Requests, w: World, run: seq<Action>)
    requires Inv(rqs, w) && Legal(rqs, w, run)
    ensures Inv(rqs, Run(rqs, w, run))
    decreases |run|
  {
    hide Inv, Enabled, Apply;
    if run != [] {
      RunKeepsInv(rqs, w, run[..|run| - 1]);
      StepKeepsInv(rqs, Run(rqs, w, run[..|run| - 1]), run[|run| - 1]);
    }
  }
}
