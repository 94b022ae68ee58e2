/**
 settle interrupted at any point and retried with the same result. The retries end where one uninterrupted run ends,
 whatever the visiting orders, if and only if the attempt that completes meets no failure on the bets still open.
 */
module CrashRetry {
  import opened Types
  import opened Ledger
  import opened Protocol
  import opened Invariant
  import opened Guarantees
  import opened Sums
  import opened Settlement

  /** One call of settle: it dies after `reached` bets (the last one possibly half done), or it completes. */
  datatype Attempt =
    | Crashed(order: seq<Id>, reached: nat, faults: Faults)
    | Completed(order: seq<Id>, faults: Faults)

  ghost predicate AttemptOk(db: DB, market: Id, a: Attempt)
  {
    IsSnapshot(db, market, a.order) && (a.Crashed? ==> a.reached <= |a.order|)
  }

  ghost function RunAttempt(db: DB, market: Id, result: MarketResult, a: Attempt): DB
    requires AttemptOk(db, market, a)
  {
    match a
    case Crashed(order, reached, faults) => SettleMany(db, order[..reached], result, faults).0
    case Completed(order, faults) => SetMarket(SettleMany(db, order, result, faults).0, market, MarketStatus.SETTLED)
  }

  /** Crashing attempts followed by one that completes; only the last may write the market. */
  ghost predicate HistoryOk(db: DB, market: Id, result: MarketResult, attempts: seq<Attempt>)
    decreases |attempts|
  {
    && attempts != [] && AttemptOk(db, market, attempts[0])
    && if |attempts| == 1 then attempts[0].Completed?
       else attempts[0].Crashed?
            && HistoryOk(RunAttempt(db, market, result, attempts[0]), market, result, attempts[1..])
  }

  /** The state in which the completing attempt starts. */
  ghost function BeforeLast(db: DB, market: Id, result: MarketResult, attempts: seq<Attempt>): DB
    requires HistoryOk(db, market, result, attempts)
    decreases |attempts|
  {
    if |attempts| == 1 then db
    else BeforeLast(RunAttempt(db, market, result, attempts[0]), market, result, attempts[1..])
  }

  ghost predicate LastOk(db: DB, market: Id, result: MarketResult, attempts: seq<Attempt>)
    requires HistoryOk(db, market, result, attempts)
  {
    var last := attempts[|attempts| - 1];
    last.Completed? && AttemptOk(BeforeLast(db, market, result, attempts), market, last)
  }

  ghost function RunHistory(db: DB, market: Id, result: MarketResult, attempts: seq<Attempt>): DB
    requires HistoryOk(db, market, result, attempts)
    decreases |attempts|
  {
    if |attempts| == 1 then RunAttempt(db, market, result, attempts[0])
    else RunHistory(RunAttempt(db, market, result, attempts[0]), market, result, attempts[1..])
  }

  // ---- what any number of attempts can have done so far -----------------------------------------

  ghost predicate Sound(db: DB)
  {
    LedgerInv(db) && forall b <- db.bets :: db.bets[b].user in db.wallets
  }

  lemma ReachableIsSound(rqs: Requests, w: World)
    requires Reachable(rqs, w)
    ensures Sound(w.db)
  {
    ReachableInv(rqs, w);
    hide CacheInv, BrokerInv, CallsInv, AdminInv, WorkerInv, HistoryInv, ResponsesInv, RowsInv, Enabled, Apply;
    forall b <- w.db.bets ensures w.db.bets[b].user in w.db.wallets {
      assert BetOk(rqs, w.db, w.db.bets[b]);
    }
  }

  /** A bet the market's first snapshot contains. */
  predicate Live(db: DB, market: Id, b: Id)
  {
    b in db.bets && db.bets[b].market == market && db.bets[b].status.ACCEPTED?
  }

  predicate Unpaid(db: DB, b: Id)
    requires b in db.bets
  {
    !HasRow(db.ledger, db.bets[b].user, b, CREDIT)
  }

  // ---- when an attempt settles everything ---------------------------------------------------------

  /** The part of `user`'s balance that bet `b`'s payout is. */
  function PayTo(bets: map<Id, Bet>, user: Id): Id -> int
  {
    (b: Id) => if b in bets && bets[b].user == user then bets[b].payout as int else 0
  }

  /** The market's bets that a WIN still has to pay. */
  ghost function Owed(db: DB, market: Id): set<Id>
  {
    set b <- db.bets | Live(db, market, b) && Unpaid(db, b)
  }

  /** A WIN can pay every bet it owes within its owner's balance column. */
  ghost predicate Fits(db: DB, market: Id, result: MarketResult)
  {
    result.WIN? ==> forall u: Id :: Balance(db.wallets, u) + SumOver(Owed(db, market), PayTo(db.bets, u)) <= INT4_MAX
  }

  /** The failure, if any, comes only after the bet's status write. */
  predicate Harmless(result: MarketResult, fault: BetFault)
  {
    !fault.WriteThrows? && (result.WIN? ==> !fault.CreditThrows? && !fault.CreditLost?)
  }

  ghost predicate NoFailure(db: DB, market: Id, result: MarketResult, faults: Faults)
  {
    forall b: Id :: Live(db, market, b) ==> Harmless(result, faults(b))
  }

  /** All payouts fit, and the completing attempt meets no failure on the bets that are open when it starts. */
  ghost predicate Clean(db: DB, market: Id, result: MarketResult, attempts: seq<Attempt>)
    requires HistoryOk(db, market, result, attempts)
  {
    Fits(db, market, result)
    && NoFailure(BeforeLast(db, market, result, attempts), market, result, attempts[|attempts| - 1].faults)
  }

  ghost function UnpaidOf(db: DB, order: seq<Id>): set<Id>
    requires forall b <- order :: b in db.bets
  {
    set b <- order | Unpaid(db, b)
  }

  lemma WroteOne(db: DB, id: Id, result: MarketResult, fault: BetFault)
    requires id in db.bets
    ensures SettleOne(db, id, result, fault).1.wrote
            <==> Harmless(result, fault)
                 && (result.WIN? && Unpaid(db, id) ==>
                       Balance(db.wallets, db.bets[id].user) + db.bets[id].payout <= INT4_MAX)
  {
  }

  /** What one bet's turn leaves of the other bets and of the balances. */
  lemma TurnEffect(db: DB, id: Id, result: MarketResult, fault: BetFault)
    requires id in db.bets && LedgerInv(db)
    ensures var (after, o) := SettleOne(db, id, result, fault); var bet := db.bets[id];
            && LedgerInv(after) && SameTerms(db.bets, after.bets)
            && (forall b <- db.bets :: b != id ==> (Unpaid(after, b) <==> Unpaid(db, b)))
            && (result.WIN? && o.wrote ==>
                  forall u: Id :: Balance(after.wallets, u)
                                  == Balance(db.wallets, u)
                                     + (if Unpaid(db, id) && bet.user == u then bet.payout else 0))
  {
    hide LedgerInv, SettleOne, HasRow;
    TurnKeeps(db, id, result, fault);
    if result.WIN? {
      BalanceAfterTurn(db, id, fault);
      PaidIff(db, id, WIN, fault);
      WroteOne(db, id, WIN, fault);
    }
    forall b <- db.bets | b != id
      ensures b in SettleOne(db, id, result, fault).0.bets
      ensures Unpaid(SettleOne(db, id, result, fault).0, b) <==> Unpaid(db, b)
    {
      RowsOfOthers(db, id, result, fault, b);
    }
  }

  lemma TurnKeeps(db: DB, id: Id, result: MarketResult, fault: BetFault)
    requires id in db.bets && LedgerInv(db)
    ensures var after := SettleOne(db, id, result, fault).0;
            LedgerInv(after) && SameTerms(db.bets, after.bets) && db.ledger <= after.ledger
  {
    hide LedgerInv, SettleOne, HasRow;
    OneEffect(db, id, result, fault);
  }

  lemma BalanceAfterTurn(db: DB, id: Id, fault: BetFault)
    requires LedgerInv(db) && id in db.bets
    ensures var (after, o) := SettleOne(db, id, WIN, fault); var bet := db.bets[id];
            forall u: Id :: Balance(after.wallets, u)
                            == Balance(db.wallets, u) + (if o.paid && bet.user == u then bet.payout else 0)
  {
    hide LedgerInv, SettleOne, HasRow;
    OneEffect(db, id, WIN, fault);
  }

  lemma RowsOfOthers(db: DB, id: Id, result: MarketResult, fault: BetFault, b: Id)
    requires id in db.bets && b in db.bets && b != id && LedgerInv(db)
    ensures HasRow(SettleOne(db, id, result, fault).0.ledger, db.bets[b].user, b, CREDIT)
            <==> HasRow(db.ledger, db.bets[b].user, b, CREDIT)
  {
    hide LedgerInv, SettleOne;
    OneEffect(db, id, result, fault);
    var (after, o) := SettleOne(db, id, result, fault);
    if HasRow(db.ledger, db.bets[b].user, b, CREDIT) {
      HasRowPrefix(db.ledger, after.ledger, db.bets[b].user, b, CREDIT);
    }
  }

  lemma OwedGrows(db: DB, order: seq<Id>, user: Id)
    requires order != [] && (forall b <- order :: b in db.bets)
             && forall i, j :: 0 <= i < j < |order| ==> order[i] != order[j]
    ensures forall b <- order[..|order| - 1] :: b in order
    ensures var id := order[|order| - 1]; var bet := db.bets[id];
            SumOver(UnpaidOf(db, order), PayTo(db.bets, user))
            == SumOver(UnpaidOf(db, order[..|order| - 1]), PayTo(db.bets, user))
               + (if Unpaid(db, id) && bet.user == user then bet.payout else 0)
  {
    var front, id := order[..|order| - 1], order[|order| - 1];
    assert forall b <- order :: b in front || b == id;
    if Unpaid(db, id) {
      assert UnpaidOf(db, order) == UnpaidOf(db, front) + {id};
      assert UnpaidOf(db, order) - {id} == UnpaidOf(db, front);
      SumRemove(UnpaidOf(db, order), PayTo(db.bets, user), id);
    } else {
      assert UnpaidOf(db, order) == UnpaidOf(db, front);
    }
  }

  /** After a part of the loop that wrote every bet: who has been paid, and which rows are still missing. */
  ghost predicate AllPaidSoFar(db: DB, order: seq<Id>, result: MarketResult, after: DB)
    requires forall b <- order :: b in db.bets
  {
    result.WIN? ==>
      forall u: Id :: Balance(after.wallets, u)
                      == Balance(db.wallets, u) + SumOver(UnpaidOf(db, order), PayTo(db.bets, u))
  }

  ghost predicate RoomFor(db: DB, order: seq<Id>, result: MarketResult)
    requires forall b <- order :: b in db.bets
  {
    result.WIN? ==> forall u: Id :: Balance(db.wallets, u) + SumOver(UnpaidOf(db, order), PayTo(db.bets, u)) <= INT4_MAX
  }

  lemma AllOf(outcomes: seq<BetOutcome>, o: BetOutcome)
    ensures (forall p <- outcomes + [o] :: p.wrote) <==> (forall p <- outcomes :: p.wrote) && o.wrote
  {
    assert forall p <- outcomes :: p in outcomes + [o];
    assert o in outcomes + [o];
    assert forall p <- outcomes + [o] :: p in outcomes || p == o;
  }

  lemma NothingOwed(db: DB, order: seq<Id>, result: MarketResult)
    requires LedgerInv(db) && order == []
    ensures RoomFor(db, order, result) && AllPaidSoFar(db, order, result, db)
  {
    assert UnpaidOf(db, order) == {};
    assert db.ledger[..|db.ledger|] == db.ledger;
    forall u: Id ensures Balance(db.wallets, u) <= INT4_MAX {
      assert Fold(db.ledger[..|db.ledger|], u) <= INT4_MAX;
    }
  }

  /** One more bet needs its payout's room on top of what the bets before it have received. */
  lemma RoomGrows(db: DB, front: seq<Id>, id: Id, order: seq<Id>, result: MarketResult, before: DB)
    requires order == front + [id] && (forall b <- order :: b in db.bets)
    requires forall i, j :: 0 <= i < j < |order| ==> order[i] != order[j]
    ensures RoomFor(db, order, result) ==> RoomFor(db, front, result)
    ensures AllPaidSoFar(db, front, result, before) && RoomFor(db, front, result) ==>
              (RoomFor(db, order, result) <==>
                (result.WIN? && Unpaid(db, id) ==>
                  Balance(before.wallets, db.bets[id].user) + db.bets[id].payout <= INT4_MAX))
  {
    assert order[..|order| - 1] == front;
    hide UnpaidOf, Unpaid, PayTo, SumOver;
    forall u: Id ensures SumOver(UnpaidOf(db, order), PayTo(db.bets, u))
                         == SumOver(UnpaidOf(db, front), PayTo(db.bets, u))
                           + (if Unpaid(db, id) && db.bets[id].user == u then db.bets[id].payout else 0)
    {
      OwedGrows(db, order, u);
    }
  }

  lemma PaidGrows(db: DB, front: seq<Id>, id: Id, order: seq<Id>, result: MarketResult, before: DB, after: DB)
    requires order == front + [id] && (forall b <- order :: b in db.bets)
    requires forall i, j :: 0 <= i < j < |order| ==> order[i] != order[j]
    requires AllPaidSoFar(db, front, result, before)
    requires result.WIN? ==>
               forall u: Id :: Balance(after.wallets, u)
                               == Balance(before.wallets, u)
                                  + (if Unpaid(db, id) && db.bets[id].user == u then db.bets[id].payout else 0)
    ensures AllPaidSoFar(db, order, result, after)
  {
    assert order[..|order| - 1] == front;
    hide UnpaidOf, Unpaid, PayTo, SumOver;
    if result.WIN? {
      forall u: Id ensures Balance(after.wallets, u)
                           == Balance(db.wallets, u) + SumOver(UnpaidOf(db, order), PayTo(db.bets, u))
      {
        OwedGrows(db, order, u);
      }
    }
  }

  /** What a part of the loop leaves of the bets it has not visited. */
  lemma {:induction false} LoopKeeps(db: DB, order: seq<Id>, result: MarketResult, faults: Faults)
    requires LedgerInv(db) && (forall b <- order :: b in db.bets)
    ensures var after := SettleMany(db, order, result, faults).0;
            && LedgerInv(after) && SameTerms(db.bets, after.bets)
            && (forall b <- db.bets :: b !in order ==> (Unpaid(after, b) <==> Unpaid(db, b)))
  {
    hide LedgerInv, SettleOne, Unpaid;
    if order != [] {
      var front, id := order[..|order| - 1], order[|order| - 1];
      LoopKeeps(db, front, result, faults);
      TurnEffect(SettleMany(db, front, result, faults).0, id, result, faults(id));
      assert forall b <- front :: b in order;
    }
  }

  /**
   The loop writes every bet it visits if and only if no failure strikes before a write and there is room for all
   payouts; then it has made them.
   */
  lemma {:induction false} LoopWroteAllIff(db: DB, order: seq<Id>, result: MarketResult, faults: Faults)
    requires LedgerInv(db) && (forall b <- order :: b in db.bets)
    requires forall i, j :: 0 <= i < j < |order| ==> order[i] != order[j]
    ensures var (after, outcomes) := SettleMany(db, order, result, faults);
            && ((forall o <- outcomes :: o.wrote) <==>
                  (forall b <- order :: Harmless(result, faults(b))) && RoomFor(db, order, result))
            && ((forall o <- outcomes :: o.wrote) ==> AllPaidSoFar(db, order, result, after))
  {
    hide LedgerInv, SettleOne, Unpaid, Harmless, AllPaidSoFar, RoomFor;
    if order == [] {
      NothingOwed(db, order, result);
    } else {
      var front, id := order[..|order| - 1], order[|order| - 1];
      LoopWroteAllIff(db, front, result, faults);
      var (before, outcomes) := SettleMany(db, front, result, faults);
      LoopKeeps(db, front, result, faults);
      LastIsNew(order);
      LastTurn(db, front, id, order, result, faults(id), before);
      assert forall b <- order :: b in front || b == id;
      AllOf(outcomes, SettleOne(before, id, result, faults(id)).1);
    }
  }

  /** The bets paid are those that were unpaid and whose credit did not fail before its commit. */
  ghost predicate PaidAsDue(db: DB, order: seq<Id>, faults: Faults, outcomes: seq<BetOutcome>)
    requires forall b <- order :: b in db.bets
  {
    && |outcomes| == |order|
    && forall i :: 0 <= i < |order| ==>
         (outcomes[i].paid <==> Unpaid(db, order[i]) && !faults(order[i]).CreditThrows?)
  }

  /** No balance has grown by more than was owed. */
  ghost predicate WithinOwed(db: DB, order: seq<Id>, after: DB)
    requires forall b <- order :: b in db.bets
  {
    forall u: Id :: Balance(after.wallets, u)
                    <= Balance(db.wallets, u) + SumOver(UnpaidOf(db, order), PayTo(db.bets, u))
  }

  /**
   When there is room for all payouts, a WIN pays exactly the bets that were unpaid and whose credit did not fail before
   its commit, whatever else failed.
   */
  lemma {:induction false} LoopPaysIff(db: DB, order: seq<Id>, faults: Faults)
    requires LedgerInv(db) && (forall b <- order :: b in db.bets) && RoomFor(db, order, WIN)
    requires forall i, j :: 0 <= i < j < |order| ==> order[i] != order[j]
    ensures var (after, outcomes) := SettleMany(db, order, WIN, faults);
            PaidAsDue(db, order, faults, outcomes) && WithinOwed(db, order, after)
  {
    hide LedgerInv, SettleOne, Unpaid, RoomFor, PaidAsDue, WithinOwed;
    if order == [] {
      NothingPaid(db, order, faults);
    } else {
      var front, id := order[..|order| - 1], order[|order| - 1];
      LastIsNew(order);
      assert forall b <- front :: b in order;
      LoopKeeps(db, front, WIN, faults);
      var (before, outcomes) := SettleMany(db, front, WIN, faults);
      RoomBefore(db, front, id, order, before);
      LoopPaysIff(db, front, faults);
      PaysIff(db, front, id, order, faults(id), before);
      PaidGoesOn(db, front, id, order, faults, outcomes, SettleOne(before, id, WIN, faults(id)).1);
    }
  }

  lemma NothingPaid(db: DB, order: seq<Id>, faults: Faults)
    requires order == []
    ensures PaidAsDue(db, order, faults, []) && WithinOwed(db, order, db)
  {
    assert UnpaidOf(db, order) == {};
  }

  lemma PaidGoesOn(db: DB, front: seq<Id>, id: Id, order: seq<Id>, faults: Faults, outcomes: seq<BetOutcome>,
      o: BetOutcome)
    requires order == front + [id] && (forall b <- order :: b in db.bets) && (forall b <- front :: b in db.bets)
    requires PaidAsDue(db, front, faults, outcomes)
    requires o.paid <==> Unpaid(db, id) && !faults(id).CreditThrows?
    ensures PaidAsDue(db, order, faults, outcomes + [o])
  {
    hide Unpaid;
    forall i | 0 <= i < |order|
      ensures (outcomes + [o])[i].paid <==> Unpaid(db, order[i]) && !faults(order[i]).CreditThrows?
    {
      assert i < |front| ==> front[i] == order[i];
    }
  }

  lemma PaysIff(db: DB, front: seq<Id>, id: Id, order: seq<Id>, fault: BetFault, before: DB)
    requires order == front + [id] && (forall b <- order :: b in db.bets) && RoomFor(db, order, WIN)
    requires forall i, j :: 0 <= i < j < |order| ==> order[i] != order[j]
    requires LedgerInv(before) && SameTerms(db.bets, before.bets) && (Unpaid(before, id) <==> Unpaid(db, id))
    requires (forall b <- front :: b in db.bets) && WithinOwed(db, front, before)
    ensures var (after, o) := SettleOne(before, id, WIN, fault);
            (o.paid <==> Unpaid(db, id) && !fault.CreditThrows?) && WithinOwed(db, order, after)
  {
    hide LedgerInv, SettleOne, HasRow, RoomFor, WithinOwed;
    PaidIff(before, id, WIN, fault);
    BalanceAfterTurn(before, id, fault);
    RoomHere(db, front, id, order, before);
    var (after, o) := SettleOne(before, id, WIN, fault);
    WithinGrows(db, front, id, order, before, after, o.paid);
  }

  lemma RoomHere(db: DB, front: seq<Id>, id: Id, order: seq<Id>, before: DB)
    requires order == front + [id] && (forall b <- order :: b in db.bets) && RoomFor(db, order, WIN)
    requires forall i, j :: 0 <= i < j < |order| ==> order[i] != order[j]
    requires (forall b <- front :: b in db.bets) && WithinOwed(db, front, before)
    ensures Unpaid(db, id) ==> Balance(before.wallets, db.bets[id].user) + db.bets[id].payout <= INT4_MAX
  {
    assert order[..|order| - 1] == front;
    hide UnpaidOf, PayTo, SumOver, Unpaid;
    OwedGrows(db, order, db.bets[id].user);
  }

  lemma WithinGrows(db: DB, front: seq<Id>, id: Id, order: seq<Id>, before: DB, after: DB, paid: bool)
    requires order == front + [id] && (forall b <- order :: b in db.bets)
    requires forall i, j :: 0 <= i < j < |order| ==> order[i] != order[j]
    requires (forall b <- front :: b in db.bets) && WithinOwed(db, front, before) && (paid ==> Unpaid(db, id))
    requires forall u: Id :: Balance(after.wallets, u)
               == Balance(before.wallets, u) + (if paid && db.bets[id].user == u then db.bets[id].payout else 0)
    ensures WithinOwed(db, order, after)
  {
    assert order[..|order| - 1] == front;
    hide UnpaidOf, PayTo, SumOver, Unpaid;
    forall u: Id ensures Balance(after.wallets, u)
                         <= Balance(db.wallets, u) + SumOver(UnpaidOf(db, order), PayTo(db.bets, u))
    {
      OwedGrows(db, order, u);
    }
  }

  lemma RoomBefore(db: DB, front: seq<Id>, id: Id, order: seq<Id>, before: DB)
    requires order == front + [id] && (forall b <- order :: b in db.bets) && RoomFor(db, order, WIN)
    requires forall i, j :: 0 <= i < j < |order| ==> order[i] != order[j]
    ensures (forall b <- front :: b in db.bets) && RoomFor(db, front, WIN)
  {
    hide RoomFor, AllPaidSoFar, Unpaid;
    RoomGrows(db, front, id, order, WIN, before);
  }

  lemma LastIsNew(order: seq<Id>)
    requires order != [] && forall i, j :: 0 <= i < j < |order| ==> order[i] != order[j]
    ensures order[|order| - 1] !in order[..|order| - 1]
    ensures order == order[..|order| - 1] + [order[|order| - 1]]
  {
    assert forall i :: 0 <= i < |order| - 1 ==> order[..|order| - 1][i] == order[i];
  }

  /** The last turn of a part of the loop that has written every bet so far. */
  lemma LastTurn(db: DB, front: seq<Id>, id: Id, order: seq<Id>, result: MarketResult, fault: BetFault, before: DB)
    requires order == front + [id] && (forall b <- order :: b in db.bets)
    requires forall i, j :: 0 <= i < j < |order| ==> order[i] != order[j]
    requires LedgerInv(before) && SameTerms(db.bets, before.bets) && (Unpaid(before, id) <==> Unpaid(db, id))
    ensures RoomFor(db, order, result) ==> RoomFor(db, front, result)
    ensures var (after, o) := SettleOne(before, id, result, fault);
            AllPaidSoFar(db, front, result, before) && RoomFor(db, front, result) ==>
              && (o.wrote <==> Harmless(result, fault) && RoomFor(db, order, result))
              && (o.wrote ==> AllPaidSoFar(db, order, result, after))
  {
    hide LedgerInv, SettleOne, Unpaid, AllPaidSoFar, RoomFor, Harmless;
    TurnEffect(before, id, result, fault);
    WroteOne(before, id, result, fault);
    RoomGrows(db, front, id, order, result, before);
    var (after, o) := SettleOne(before, id, result, fault);
    if o.wrote && AllPaidSoFar(db, front, result, before) {
      PaidGrows(db, front, id, order, result, before, after);
    }
  }

  /** The statuses moved so far. */
  ghost predicate Settling(db0: DB, db: DB, market: Id)
  {
    && SameTerms(db0.bets, db.bets)
    && forall b <- db0.bets :: db.bets[b] != db0.bets[b] ==> Live(db0, market, b) && db.bets[b].status.SETTLED?
  }

  /** A payout of a live bet that had none. */
  ghost predicate PayoutRow(db0: DB, market: Id, result: MarketResult, row: Row)
  {
    && result.WIN? && row.kind.CREDIT? && Live(db0, market, row.ref) && Unpaid(db0, row.ref)
    && row.user == db0.bets[row.ref].user && row.amount == db0.bets[row.ref].payout
  }

  /** The rows added so far: such payouts, each once. */
  ghost predicate Paying(db0: DB, ledger: seq<Row>, market: Id, result: MarketResult)
  {
    && db0.ledger <= ledger
    && (forall i :: |db0.ledger| <= i < |ledger| ==> PayoutRow(db0, market, result, ledger[i]))
    && (forall i, j :: |db0.ledger| <= i < j < |ledger| ==> ledger[i].ref != ledger[j].ref)
  }

  ghost predicate Progress(db0: DB, db: DB, market: Id, result: MarketResult)
  {
    && LedgerInv(db)
    && db.wallets.Keys == db0.wallets.Keys
    && db == db0.(wallets := db.wallets, ledger := db.ledger, bets := db.bets)
    && Settling(db0, db, market)
    && Paying(db0, db.ledger, market, result)
    && (forall b <- db0.bets :: result.WIN? && db.bets[b] != db0.bets[b] ==> !Unpaid(db, b))
  }

  lemma PayingGrows(db0: DB, db: DB, market: Id, result: MarketResult, row: Row)
    requires Paying(db0, db.ledger, market, result) && SameTerms(db0.bets, db.bets)
    requires result.WIN? && row.kind.CREDIT? && Live(db0, market, row.ref)
    requires row.user == db0.bets[row.ref].user && row.amount == db0.bets[row.ref].payout
    requires Unpaid(db, row.ref)
    ensures Paying(db0, db.ledger + [row], market, result)
  {
    if !Unpaid(db0, row.ref) {
      HasRowPrefix(db0.ledger, db.ledger, row.user, row.ref, CREDIT);
    }
    hide HasRow;
  }

  /** Balances are only ever changed, not opened: every bettor already has a wallet. */
  lemma KeysStay(db0: DB, db: DB, id: Id, result: MarketResult, fault: BetFault)
    requires id in db.bets && db.bets[id].user in db.wallets
    ensures SettleOne(db, id, result, fault).0.wallets.Keys == db.wallets.Keys
  {
  }

  lemma StepPaying(db0: DB, db: DB, market: Id, result: MarketResult, id: Id, fault: BetFault)
    requires LedgerInv(db) && Paying(db0, db.ledger, market, result) && SameTerms(db0.bets, db.bets)
    requires Live(db0, market, id)
    ensures Paying(db0, SettleOne(db, id, result, fault).0.ledger, market, result)
  {
    OneEffect(db, id, result, fault);
    hide LedgerInv, SettleOne, Paying;
    var (after, o) := SettleOne(db, id, result, fault);
    if o.paid {
      var balance :| after.ledger == db.ledger + [Row(db.bets[id].user, CREDIT, db.bets[id].payout, balance, id)];
      PayingGrows(db0, db, market, result, Row(db.bets[id].user, CREDIT, db.bets[id].payout, balance, id));
    }
  }

  lemma StepSettling(db0: DB, db: DB, market: Id, result: MarketResult, id: Id, fault: BetFault)
    requires LedgerInv(db) && Settling(db0, db, market) && Live(db0, market, id)
    ensures Settling(db0, SettleOne(db, id, result, fault).0, market)
  {
    OneEffect(db, id, result, fault);
    hide LedgerInv, SettleOne, HasRow;
  }

  /** No payout is ever taken back, and a WIN writes no status without one. */
  lemma StepPaid(db0: DB, db: DB, market: Id, result: MarketResult, id: Id, fault: BetFault, b: Id)
    requires LedgerInv(db) && SameTerms(db0.bets, db.bets) && Live(db0, market, id) && b in db0.bets
    requires result.WIN? && db.bets[b] != db0.bets[b] ==> !Unpaid(db, b)
    ensures var after := SettleOne(db, id, result, fault).0;
            b in after.bets && (result.WIN? && after.bets[b] != db0.bets[b] ==> !Unpaid(after, b))
  {
    OneEffect(db, id, result, fault);
    hide LedgerInv, SettleOne, HasRow;
    var (after, o) := SettleOne(db, id, result, fault);
    if result.WIN? && !Unpaid(db, b) {
      HasRowPrefix(db.ledger, after.ledger, db.bets[b].user, b, CREDIT);
    }
  }

  lemma StepProgress(db0: DB, db: DB, market: Id, result: MarketResult, id: Id, fault: BetFault)
    requires Sound(db0) && Progress(db0, db, market, result) && Live(db0, market, id)
    ensures Progress(db0, SettleOne(db, id, result, fault).0, market, result)
  {
    hide LedgerInv, SettleOne, Paying, Unpaid;
    OneEffect(db, id, result, fault);
    KeysStay(db0, db, id, result, fault);
    StepPaying(db0, db, market, result, id, fault);
    StepSettling(db0, db, market, result, id, fault);
    forall b <- db0.bets ensures result.WIN? && SettleOne(db, id, result, fault).0.bets[b] != db0.bets[b]
                                 ==> !Unpaid(SettleOne(db, id, result, fault).0, b)
    {
      StepPaid(db0, db, market, result, id, fault, b);
    }
  }

  lemma {:induction false} LoopProgress(db0: DB, db: DB, market: Id, result: MarketResult, order: seq<Id>,
      faults: Faults)
    requires Sound(db0) && Progress(db0, db, market, result) && forall b <- order :: Live(db0, market, b)
    requires forall b <- order :: b in db.bets
    ensures Progress(db0, SettleMany(db, order, result, faults).0, market, result)
  {
    hide Progress, SettleOne, Sound, Live;
    if order != [] {
      var front, last := order[..|order| - 1], order[|order| - 1];
      LoopProgress(db0, db, market, result, front, faults);
      StepProgress(db0, SettleMany(db, front, result, faults).0, market, result, last, faults(last));
    }
  }

  lemma SnapshotIsLive(db0: DB, db: DB, market: Id, result: MarketResult, order: seq<Id>)
    requires Progress(db0, db, market, result) && IsSnapshot(db, market, order)
    ensures forall b <- order :: b in db.bets && Live(db0, market, b)
  {
    hide LedgerInv, Paying;
  }

  /** Crashes leave progress; the last attempt starts from it. */
  lemma {:induction false} HistoryProgress(db0: DB, db: DB, market: Id, result: MarketResult, attempts: seq<Attempt>)
    requires Sound(db0) && Progress(db0, db, market, result) && HistoryOk(db, market, result, attempts)
    ensures LastOk(db, market, result, attempts)
    ensures Progress(db0, BeforeLast(db, market, result, attempts), market, result)
    ensures RunHistory(db, market, result, attempts)
            == RunAttempt(BeforeLast(db, market, result, attempts), market, result, attempts[|attempts| - 1])
    decreases |attempts|
  {
    hide Progress, SettleMany, IsSnapshot, Sound;
    if |attempts| > 1 {
      var a := attempts[0];
      SnapshotIsLive(db0, db, market, result, a.order);
      assert forall b <- a.order[..a.reached] :: b in a.order;
      LoopProgress(db0, db, market, result, a.order[..a.reached], a.faults);
      HistoryProgress(db0, RunAttempt(db, market, result, a), market, result, attempts[1..]);
    }
  }

  // ---- where a clean completion ends --------------------------------------------------------------

  lemma {:induction false} OutcomesWrote(db: DB, order: seq<Id>, result: MarketResult, faults: Faults)
    requires forall b <- order :: b in db.bets
    ensures var outcomes := SettleMany(db, order, result, faults).1;
            forall i :: 0 <= i < |order| ==>
              (outcomes[i].wrote <==> !outcomes[i].credit.Threw? && !faults(order[i]).WriteThrows?)
  {
    if order != [] {
      OutcomesWrote(db, order[..|order| - 1], result, faults);
    }
  }

  lemma SettledIffAllWrote(db0: DB, start: DB, market: Id, order: seq<Id>, faults: Faults, after: DB,
      outcomes: seq<BetOutcome>)
    requires Settling(db0, start, market) && IsSnapshot(start, market, order)
    requires LoopStatuses(start, order, faults, after, outcomes)
    requires forall i :: 0 <= i < |order| ==>
               (outcomes[i].wrote <==> !outcomes[i].credit.Threw? && !faults(order[i]).WriteThrows?)
    ensures (forall o <- outcomes :: o.wrote)
            <==> (forall b: Id :: Live(db0, market, b) ==> after.bets[b].status.SETTLED?)
  {
    if forall o <- outcomes :: o.wrote {
      forall b: Id | Live(db0, market, b) ensures after.bets[b].status.SETTLED? {
        if b in order {
          var i :| 0 <= i < |order| && order[i] == b;
          assert outcomes[i].wrote;
        }
      }
    } else {
      var i :| 0 <= i < |outcomes| && !outcomes[i].wrote;
      assert Live(db0, market, order[i]);
    }
  }

  function RefSet(ledger: seq<Row>, from: nat): set<Id>
    requires from <= |ledger|
  {
    set i | from <= i < |ledger| :: ledger[i].ref
  }

  lemma LastRef(ledger: seq<Row>, from: nat)
    requires from < |ledger|
    requires forall i, j :: from <= i < j < |ledger| ==> ledger[i].ref != ledger[j].ref
    ensures ledger[|ledger| - 1].ref in RefSet(ledger, from)
    ensures RefSet(ledger, from) - {ledger[|ledger| - 1].ref} == RefSet(ledger[..|ledger| - 1], from)
  {
    var front, last := ledger[..|ledger| - 1], ledger[|ledger| - 1];
    assert RefSet(ledger, from) == RefSet(front, from) + {last.ref};
  }

  /** Distinct payouts add up over their set, so their order does not matter. */
  lemma {:induction false} FoldIsSum(db0: DB, ledger: seq<Row>, user: Id)
    requires db0.ledger <= ledger
    requires forall i :: |db0.ledger| <= i < |ledger| ==>
               var row := ledger[i];
               row.kind.CREDIT? && row.ref in db0.bets
               && row.user == db0.bets[row.ref].user && row.amount == db0.bets[row.ref].payout
    requires forall i, j :: |db0.ledger| <= i < j < |ledger| ==> ledger[i].ref != ledger[j].ref
    ensures Fold(ledger, user) == Fold(db0.ledger, user) + SumOver(RefSet(ledger, |db0.ledger|), PayTo(db0.bets, user))
    decreases |ledger|
  {
    var n := |db0.ledger|;
    if |ledger| == n {
      assert ledger == db0.ledger;
      assert RefSet(ledger, n) == {};
    } else {
      var front, last := ledger[..|ledger| - 1], ledger[|ledger| - 1];
      FoldIsSum(db0, front, user);
      LastRef(ledger, n);
      hide RefSet;
      SumRemove(RefSet(ledger, n), PayTo(db0.bets, user), last.ref);
    }
  }

  /** Rows without their balance snapshots, which depend on the visiting order. */
  function Entries(ledger: seq<Row>): set<(Id, TransactionType, nat, Id)>
  {
    set i | 0 <= i < |ledger| :: (ledger[i].user, ledger[i].kind, ledger[i].amount, ledger[i].ref)
  }

  /** Once every live bet is settled, the rows added are the payouts of the live bets that were unpaid. */
  lemma AllPaid(db0: DB, db: DB, market: Id, result: MarketResult)
    requires Progress(db0, db, market, result)
    requires forall b: Id :: Live(db0, market, b) ==> db.bets[b].status.SETTLED?
    ensures forall b: Id :: b in RefSet(db.ledger, |db0.ledger|)
              <==> result.WIN? && Live(db0, market, b) && Unpaid(db0, b)
  {
    hide LedgerInv;
    forall b: Id | result.WIN? && Live(db0, market, b) && Unpaid(db0, b) ensures b in RefSet(db.ledger, |db0.ledger|) {
      assert !Unpaid(db, b);
      var i :| 0 <= i < |db.ledger| && db.ledger[i].user == db.bets[b].user
               && db.ledger[i].ref == b && db.ledger[i].kind == CREDIT;
    }
  }

  lemma WalletsAreFolds(db0: DB, db: DB, market: Id, result: MarketResult, user: Id)
    requires Progress(db0, db, market, result) && user in db.wallets
    ensures db.wallets[user] == Fold(db0.ledger, user) + SumOver(RefSet(db.ledger, |db0.ledger|), PayTo(db0.bets, user))
  {
    FoldIsSum(db0, db.ledger, user);
  }

  /** Same balances, statuses, set of rows, and everything else; only the order of the payout rows may differ. */
  ghost predicate SameOutcome(db: DB, db': DB)
  {
    && db'.wallets == db.wallets
    && db'.bets == db.bets
    && Entries(db'.ledger) == Entries(db.ledger)
    && |db'.ledger| == |db.ledger|
    && db' == db.(wallets := db'.wallets, bets := db'.bets, ledger := db'.ledger)
  }

  lemma EntriesOf(db0: DB, db: DB, market: Id, result: MarketResult)
    requires Progress(db0, db, market, result)
    ensures Entries(db.ledger) == Entries(db0.ledger)
              + (set b <- RefSet(db.ledger, |db0.ledger|) :: (db0.bets[b].user, CREDIT, db0.bets[b].payout, b))
    ensures |db.ledger| == |db0.ledger| + |RefSet(db.ledger, |db0.ledger|)|
  {
    hide LedgerInv, Settling, Unpaid;
    var n := |db0.ledger|;
    RefSetSize(db.ledger, n);
    forall e <- Entries(db.ledger)
      ensures e in Entries(db0.ledger)
              || e in set b <- RefSet(db.ledger, n) :: (db0.bets[b].user, CREDIT, db0.bets[b].payout, b)
    {
      var i :| 0 <= i < |db.ledger|
               && e == (db.ledger[i].user, db.ledger[i].kind, db.ledger[i].amount, db.ledger[i].ref);
      if i < n {
        assert db0.ledger[i] == db.ledger[i];
      }
    }
    forall e <- Entries(db0.ledger) ensures e in Entries(db.ledger) {
      var i :| 0 <= i < n && e == (db0.ledger[i].user, db0.ledger[i].kind, db0.ledger[i].amount, db0.ledger[i].ref);
      assert db0.ledger[i] == db.ledger[i];
    }
  }

  lemma {:induction false} RefSetSize(ledger: seq<Row>, from: nat)
    requires from <= |ledger|
    requires forall i, j :: from <= i < j < |ledger| ==> ledger[i].ref != ledger[j].ref
    ensures |RefSet(ledger, from)| == |ledger| - from
    decreases |ledger|
  {
    if |ledger| == from {
      assert RefSet(ledger, from) == {};
    } else {
      var front := ledger[..|ledger| - 1];
      RefSetSize(front, from);
      assert RefSet(ledger, from) == RefSet(front, from) + {ledger[|ledger| - 1].ref};
    }
  }

  lemma SameRefs(db0: DB, db: DB, db': DB, market: Id, result: MarketResult)
    requires Progress(db0, db, market, result) && Progress(db0, db', market, result)
    requires forall b: Id :: Live(db0, market, b) ==> db.bets[b].status.SETTLED? && db'.bets[b].status.SETTLED?
    ensures RefSet(db'.ledger, |db0.ledger|) == RefSet(db.ledger, |db0.ledger|)
  {
    hide Progress;
    LengthsOf(db0, db, market, result);
    LengthsOf(db0, db', market, result);
    AllPaid(db0, db, market, result);
    AllPaid(db0, db', market, result);
  }

  lemma LengthsOf(db0: DB, db: DB, market: Id, result: MarketResult)
    requires Progress(db0, db, market, result)
    ensures |db0.ledger| <= |db.ledger| && SameTerms(db0.bets, db.bets)
  {
  }

  lemma SameBets(db0: DB, db: DB, db': DB, market: Id)
    requires Settling(db0, db, market) && Settling(db0, db', market)
    requires forall b: Id :: Live(db0, market, b) ==> db.bets[b].status.SETTLED? && db'.bets[b].status.SETTLED?
    ensures db'.bets == db.bets
  {
  }

  /** Two ways of settling every live bet end the same. */
  lemma SettledAlike(db0: DB, db: DB, db': DB, market: Id, result: MarketResult)
    requires Progress(db0, db, market, result) && Progress(db0, db', market, result)
    requires forall b: Id :: Live(db0, market, b) ==> db.bets[b].status.SETTLED? && db'.bets[b].status.SETTLED?
    ensures SameOutcome(db, db')
  {
    hide LedgerInv, Paying, Settling, Live, Unpaid, Entries, RefSet, SumOver, Fold;
    SameRefs(db0, db, db', market, result);
    SameBets(db0, db, db', market);
    EntriesOf(db0, db, market, result);
    EntriesOf(db0, db', market, result);
    forall u <- db.wallets ensures db'.wallets[u] == db.wallets[u] {
      WalletsAreFolds(db0, db, market, result, u);
      WalletsAreFolds(db0, db', market, result, u);
    }
  }

  /** Payouts made by crashed attempts only move from what is owed to the balances. */
  lemma FitsStays(db0: DB, db: DB, market: Id, result: MarketResult)
    requires Sound(db0) && Progress(db0, db, market, result)
    ensures Fits(db0, market, result) <==> Fits(db, market, result)
  {
    if result.WIN? {
      hide LedgerInv, Owed, PayTo, SumOver, Progress, Sound;
      forall u: Id
        ensures Balance(db.wallets, u) + SumOver(Owed(db, market), PayTo(db.bets, u))
                == Balance(db0.wallets, u) + SumOver(Owed(db0, market), PayTo(db0.bets, u))
      {
        OwedMoves(db0, db, market, u);
      }
    }
  }

  lemma OwedMoves(db0: DB, db: DB, market: Id, user: Id)
    requires Sound(db0) && Progress(db0, db, market, WIN)
    ensures Balance(db.wallets, user) + SumOver(Owed(db, market), PayTo(db.bets, user))
            == Balance(db0.wallets, user) + SumOver(Owed(db0, market), PayTo(db0.bets, user))
  {
    hide LedgerInv, Owed, RefSet, Progress, Sound, PayTo, SumOver;
    OwedSplits(db0, db, market);
    BalanceMoves(db0, db, market, user);
    SumUnion(Owed(db, market), RefSet(db.ledger, |db0.ledger|), PayTo(db0.bets, user));
    OwedTerms(db0, db, market, user);
  }

  lemma OwedTerms(db0: DB, db: DB, market: Id, user: Id)
    requires SameTerms(db0.bets, db.bets)
    ensures SumOver(Owed(db, market), PayTo(db.bets, user)) == SumOver(Owed(db, market), PayTo(db0.bets, user))
  {
    hide Unpaid, Live;
    SumSame(Owed(db, market), PayTo(db.bets, user), PayTo(db0.bets, user));
  }

  lemma OwedSplits(db0: DB, db: DB, market: Id)
    requires Progress(db0, db, market, WIN)
    ensures |db0.ledger| <= |db.ledger| && SameTerms(db0.bets, db.bets)
    ensures Owed(db, market) !! RefSet(db.ledger, |db0.ledger|)
    ensures Owed(db0, market) == Owed(db, market) + RefSet(db.ledger, |db0.ledger|)
  {
    hide LedgerInv;
    var n := |db0.ledger|;
    forall b | b in RefSet(db.ledger, n) ensures b in Owed(db0, market) && b !in Owed(db, market) {
      var i :| n <= i < |db.ledger| && db.ledger[i].ref == b;
      assert PayoutRow(db0, market, WIN, db.ledger[i]);
    }
    forall b <- Owed(db0, market) | b !in Owed(db, market) ensures b in RefSet(db.ledger, n) {
      assert !Unpaid(db, b);
      var i :| 0 <= i < |db.ledger| && db.ledger[i].user == db.bets[b].user && db.ledger[i].ref == b
               && db.ledger[i].kind == CREDIT;
      assert db0.ledger == db.ledger[..n];
    }
    forall b <- Owed(db, market) ensures b in Owed(db0, market) {
      if !Unpaid(db0, b) {
        HasRowPrefix(db0.ledger, db.ledger, db.bets[b].user, b, CREDIT);
      }
    }
  }

  lemma BalanceMoves(db0: DB, db: DB, market: Id, user: Id)
    requires Sound(db0) && Progress(db0, db, market, WIN)
    ensures |db0.ledger| <= |db.ledger|
    ensures Balance(db.wallets, user)
            == Balance(db0.wallets, user) + SumOver(RefSet(db.ledger, |db0.ledger|), PayTo(db0.bets, user))
  {
    if user in db.wallets {
      WalletsAreFolds(db0, db, market, WIN, user);
    } else {
      SumZero(RefSet(db.ledger, |db0.ledger|), PayTo(db0.bets, user));
    }
  }

  /** An attempt writes every bet it meets if and only if all payouts fit and no failure strikes before a write. */
  lemma AllWroteIff(db: DB, market: Id, order: seq<Id>, result: MarketResult, faults: Faults)
    requires LedgerInv(db) && IsSnapshot(db, market, order)
    ensures (forall o <- SettleMany(db, order, result, faults).1 :: o.wrote)
            <==> Fits(db, market, result) && NoFailure(db, market, result, faults)
  {
    hide LedgerInv, SettleMany, PayTo, SumOver, HasRow;
    LoopWroteAllIff(db, order, result, faults);
    assert UnpaidOf(db, order) == Owed(db, market);
  }

  /**
   A completed attempt leaves every bet of the first snapshot settled if and only if all payouts fit and no failure
   strikes before the write of a bet still open.
   */
  lemma SettledIffClean(db0: DB, start: DB, market: Id, result: MarketResult, order: seq<Id>, faults: Faults)
    requires Sound(db0) && Progress(db0, start, market, result) && IsSnapshot(start, market, order)
    ensures var after := SettleMany(start, order, result, faults).0;
            && Progress(db0, after, market, result) && SameTerms(db0.bets, after.bets)
            && (Fits(db0, market, result) && NoFailure(start, market, result, faults)
                <==> forall b: Id :: Live(db0, market, b) ==> after.bets[b].status.SETTLED?)
  {
    hide LedgerInv, SettleMany, Paying, Settling, LoopMoney, LoopStatuses, Unpaid, Sound, Live, Fits, NoFailure;
    SnapshotIsLive(db0, start, market, result, order);
    LoopProgress(db0, start, market, result, order, faults);
    SettleExactEffect(start, order, result, faults);
    OutcomesWrote(start, order, result, faults);
    var (after, outcomes) := SettleMany(start, order, result, faults);
    LengthsOf(db0, after, market, result);
    SettledIffAllWrote(db0, start, market, order, faults, after, outcomes);
    AllWroteIff(start, market, order, result, faults);
    FitsStays(db0, start, market, result);
  }

  /** Where a history ends: some progress, then the market's status write. */
  lemma HistoryEnds(db0: DB, market: Id, result: MarketResult, attempts: seq<Attempt>) returns (after: DB)
    requires Sound(db0) && HistoryOk(db0, market, result, attempts)
    ensures RunHistory(db0, market, result, attempts) == SetMarket(after, market, MarketStatus.SETTLED)
    ensures Progress(db0, after, market, result) && SameTerms(db0.bets, after.bets)
    ensures Clean(db0, market, result, attempts)
            <==> forall b: Id :: Live(db0, market, b) ==> after.bets[b].status.SETTLED?
  {
    StartProgress(db0, market, result);
    HistoryProgress(db0, db0, market, result, attempts);
    var start, last := BeforeLast(db0, market, result, attempts), attempts[|attempts| - 1];
    SettledIffClean(db0, start, market, result, last.order, last.faults);
    after := SettleMany(start, last.order, result, last.faults).0;
    hide LedgerInv, SettleMany, Progress, IsSnapshot, HistoryOk, BeforeLast, Sound;
  }

  /**
   Crash-and-retry refinement, with its exact condition. Let one history end with a clean completion: in
   particular, one uninterrupted run without failures. Any other history of crashes and a completing attempt, in any
   visiting orders, ends with the same balances, statuses, credits and market status if and only if it is clean as
   well: no credit and no status write fails in its completing attempt, for any bet then still open.
   */
  lemma RetryMatchesUninterrupted(db0: DB, market: Id, result: MarketResult, once: seq<Attempt>, retried: seq<Attempt>)
    requires Sound(db0)
    requires HistoryOk(db0, market, result, once) && Clean(db0, market, result, once)
    requires HistoryOk(db0, market, result, retried)
    ensures SameOutcome(RunHistory(db0, market, result, once), RunHistory(db0, market, result, retried))
            <==> Clean(db0, market, result, retried)
  {
    hide LedgerInv, Progress, HistoryOk, Sound, Clean, RunHistory;
    var after := HistoryEnds(db0, market, result, once);
    var after' := HistoryEnds(db0, market, result, retried);
    if Clean(db0, market, result, retried) {
      SettledAlike(db0, after, after', market, result);
      SameMarkets(after, after', market);
    }
  }

  lemma SameMarkets(db: DB, db': DB, market: Id)
    requires SameOutcome(db, db')
    ensures SameOutcome(SetMarket(db, market, MarketStatus.SETTLED), SetMarket(db', market, MarketStatus.SETTLED))
  {
  }

  lemma StartProgress(db0: DB, market: Id, result: MarketResult)
    requires Sound(db0)
    ensures Progress(db0, db0, market, result)
  {
  }
}
