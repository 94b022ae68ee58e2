/**
 MarketService.settle as one uninterrupted or crashing attempt, with an arbitrary failure for each bet.
 Failures are given from outside: `faults` says which database or broker call throws for which bet, and
 whether it had already committed.
 */
module Settlement {
  import opened Types
  import opened Ledger
  import opened Protocol

  datatype BetFault = Fine | CreditThrows | CreditLost | WriteThrows | WriteLost | NotifyThrows

  type Faults = Id -> BetFault

  datatype CreditOutcome = NotCalled | Returned | Threw

  /** What happened to one bet: how `credit` ended, whether it committed a new row, whether the UPDATE committed. */
  datatype BetOutcome = BetOutcome(credit: CreditOutcome, paid: bool, wrote: bool)

  /** WalletService.credit for a bet: an existing row is returned, otherwise a transaction is applied. */
  function Credit(db: DB, id: Id): DB
    requires id in db.bets
  {
    var bet := db.bets[id];
    if HasRow(db.ledger, bet.user, id, CREDIT) then db else ApplyTransaction(db, bet.user, CREDIT, bet.payout, id)
  }

  predicate CanCredit(db: DB, id: Id)
    requires id in db.bets
  {
    var bet := db.bets[id];
    HasRow(db.ledger, bet.user, id, CREDIT) || NewBalance(db.wallets, bet.user, CREDIT, bet.payout).Some?
  }

  /** The body of settle's loop, inside its try/catch. */
  function SettleOne(db: DB, id: Id, result: MarketResult, fault: BetFault): (DB, BetOutcome)
    requires id in db.bets
  {
    var calls := result.WIN?;
    var paid := if calls && !fault.CreditThrows? then Credit(db, id) else db;
    var credit :=
      if !calls then NotCalled
      else if fault.CreditThrows? || fault.CreditLost? || !CanCredit(db, id) then Threw
      else Returned;
    var wrote := !credit.Threw? && !fault.WriteThrows?;
    (if wrote then SetStatus(paid, id, BetStatus.SETTLED) else paid,
     BetOutcome(credit, |paid.ledger| > |db.ledger|, wrote))
  }

  /** settle's loop over the snapshot, or over the part of it reached before a crash. */
  function SettleMany(db: DB, order: seq<Id>, result: MarketResult, faults: Faults): (r: (DB, seq<BetOutcome>))
    requires forall b <- order :: b in db.bets
    ensures r.0.bets.Keys == db.bets.Keys && |r.1| == |order|
  {
    if order == [] then (db, [])
    else
      var (before, outcomes) := SettleMany(db, order[..|order| - 1], result, faults);
      var id := order[|order| - 1];
      var (after, outcome) := SettleOne(before, id, result, faults(id));
      (after, outcomes + [outcome])
  }

  lemma LoopStarts(db: DB, result: MarketResult, faults: Faults)
    ensures SettleMany(db, [], result, faults) == (db, [])
  {
  }

  /** One more turn of the loop. */
  lemma LoopTurns(db: DB, order: seq<Id>, done: nat, result: MarketResult, faults: Faults)
    requires done < |order| && forall b <- order[..done + 1] :: b in db.bets
    ensures forall b <- order[..done] :: b in db.bets
    ensures var (before, outcomes) := SettleMany(db, order[..done], result, faults);
            var (after, outcome) := SettleOne(before, order[done], result, faults(order[done]));
            SettleMany(db, order[..done + 1], result, faults) == (after, outcomes + [outcome])
  {
    assert order[..done + 1][..done] == order[..done];
    assert forall b <- order[..done] :: b in order[..done + 1];
    hide SettleOne;
  }

  // ---- exact effect -----------------------------------------------------------------------------

  /** The payouts newly committed to one user. */
  function PaidTo(bets: map<Id, Bet>, order: seq<Id>, outcomes: seq<BetOutcome>, user: Id): int
    requires |order| == |outcomes| && forall b <- order :: b in bets
  {
    if order == [] then 0
    else
      var n := |order| - 1;
      PaidTo(bets, order[..n], outcomes[..n], user)
      + (if outcomes[n].paid && bets[order[n]].user == user then bets[order[n]].payout else 0)
  }

  ghost predicate SameTerms(bets: map<Id, Bet>, bets': map<Id, Bet>)
  {
    bets'.Keys == bets.Keys && forall b <- bets :: bets'[b] == bets[b].(status := bets'[b].status)
  }

  lemma CreditEffect(db: DB, id: Id)
    requires id in db.bets && LedgerInv(db)
    ensures var after := Credit(db, id); var bet := db.bets[id];
            && LedgerInv(after)
            && after == db.(wallets := after.wallets, ledger := after.ledger)
            && (CanCredit(db, id) <==> HasRow(after.ledger, bet.user, id, CREDIT))
            && (if |after.ledger| > |db.ledger|
                then !HasRow(db.ledger, bet.user, id, CREDIT) && CanCredit(db, id)
                     && (exists balance :: after.ledger == db.ledger + [Row(bet.user, CREDIT, bet.payout, balance, id)])
                     && (forall u: Id :: Balance(after.wallets, u)
                                          == Balance(db.wallets, u) + (if bet.user == u then bet.payout else 0))
                else after == db)
  {
    hide LedgerInv;
    var after, bet := Credit(db, id), db.bets[id];
    LedgerGrows(db, bet.user, CREDIT, bet.payout, id);
    if after.ledger != db.ledger {
      var row := Row(bet.user, CREDIT, bet.payout, after.wallets[bet.user], id);
      assert after.ledger == db.ledger + [row];
      assert after.ledger[|db.ledger|] == row;
    }
  }

  lemma OneEffect(db: DB, id: Id, result: MarketResult, fault: BetFault)
    requires id in db.bets && LedgerInv(db)
    ensures var (after, o) := SettleOne(db, id, result, fault); var bet := db.bets[id];
            && LedgerInv(after)
            && after.bets == db.bets[id := bet.(status := if o.wrote then BetStatus.SETTLED else bet.status)]
            && after == db.(wallets := after.wallets, ledger := after.ledger, bets := after.bets)
            && (o.wrote <==> !o.credit.Threw? && !fault.WriteThrows?)
            && (result.WIN? && o.wrote ==> HasRow(after.ledger, bet.user, id, CREDIT))
            && (if o.paid
                then result.WIN? && !HasRow(db.ledger, bet.user, id, CREDIT)
                     && (exists balance :: after.ledger == db.ledger + [Row(bet.user, CREDIT, bet.payout, balance, id)])
                else after.ledger == db.ledger && after.wallets == db.wallets)
            && (forall u: Id :: Balance(after.wallets, u)
                                == Balance(db.wallets, u) + (if o.paid && bet.user == u then bet.payout else 0))
  {
    CreditEffect(db, id);
    hide LedgerInv, Credit, CanCredit;
    var (after, o) := SettleOne(db, id, result, fault);
    var paid := if result.WIN? && !fault.CreditThrows? then Credit(db, id) else db;
    LedgerSame(paid, after);
  }

  /** A bet's turn pays it exactly when it won, had no payout yet, its credit got through, and the balance has room. */
  lemma PaidIff(db: DB, id: Id, result: MarketResult, fault: BetFault)
    requires id in db.bets
    ensures var bet := db.bets[id];
            SettleOne(db, id, result, fault).1.paid
            <==> && result.WIN? && !fault.CreditThrows? && !HasRow(db.ledger, bet.user, id, CREDIT)
                 && Balance(db.wallets, bet.user) + bet.payout <= INT4_MAX
  {
    hide HasRow;
  }

  /** Which bets the loop has settled. */
  ghost predicate LoopStatuses(db: DB, order: seq<Id>, faults: Faults, after: DB, outcomes: seq<BetOutcome>)
  {
    && |outcomes| == |order|
    && (forall b <- order :: b in db.bets)
    && SameTerms(db.bets, after.bets)
    && (forall i :: 0 <= i < |order| ==>
          (after.bets[order[i]].status.SETTLED? <==> !outcomes[i].credit.Threw? && !faults(order[i]).WriteThrows?)
          && (!after.bets[order[i]].status.SETTLED? ==> after.bets[order[i]] == db.bets[order[i]]))
    && (forall b <- db.bets :: b !in order ==> after.bets[b] == db.bets[b])
  }

  /** Which payouts the loop has committed. */
  ghost predicate LoopMoney(db: DB, order: seq<Id>, result: MarketResult, after: DB, outcomes: seq<BetOutcome>)
  {
    && |outcomes| == |order|
    && (forall b <- order :: b in db.bets)
    && (forall u: Id :: Balance(after.wallets, u) == Balance(db.wallets, u) + PaidTo(db.bets, order, outcomes, u))
    && (forall i :: 0 <= i < |order| && outcomes[i].paid ==>
          result.WIN? && !HasRow(db.ledger, db.bets[order[i]].user, order[i], CREDIT))
    && db.ledger <= after.ledger
  }

  lemma LoopMoneyGrows(db: DB, order: seq<Id>, result: MarketResult, before: DB, outcomes: seq<BetOutcome>,
      after: DB, o: BetOutcome)
    requires order != [] && LoopMoney(db, order[..|order| - 1], result, before, outcomes)
    requires SameTerms(db.bets, before.bets) && order[|order| - 1] in db.bets
    requires var bet := before.bets[order[|order| - 1]];
             forall u: Id :: Balance(after.wallets, u)
                             == Balance(before.wallets, u) + (if o.paid && bet.user == u then bet.payout else 0)
    requires o.paid ==>
               result.WIN? && !HasRow(before.ledger, before.bets[order[|order| - 1]].user, order[|order| - 1], CREDIT)
    requires before.ledger <= after.ledger
    ensures LoopMoney(db, order, result, after, outcomes + [o])
  {
    var n := |order| - 1;
    var id := order[n];
    assert (outcomes + [o])[..n] == outcomes;
    if HasRow(db.ledger, db.bets[id].user, id, CREDIT) {
      HasRowPrefix(db.ledger, before.ledger, db.bets[id].user, id, CREDIT);
    }
    hide HasRow;
    forall b <- order ensures b in db.bets {
      assert b in order[..n] || b == id;
    }
    forall i | 0 <= i < |order| && (outcomes + [o])[i].paid
      ensures result.WIN? && !HasRow(db.ledger, db.bets[order[i]].user, order[i], CREDIT)
    {
      if i < n {
        assert order[..n][i] == order[i];
      }
    }
  }

  lemma LoopStatusesGrow(db: DB, order: seq<Id>, faults: Faults, before: DB, outcomes: seq<BetOutcome>, after: DB,
      o: BetOutcome)
    requires order != [] && LoopStatuses(db, order[..|order| - 1], faults, before, outcomes)
    requires forall i, j :: 0 <= i < j < |order| ==> order[i] != order[j]
    requires order[|order| - 1] in db.bets && db.bets[order[|order| - 1]].status.ACCEPTED?
    requires var id := order[|order| - 1]; var bet := before.bets[id];
             after.bets == before.bets[id := bet.(status := if o.wrote then BetStatus.SETTLED else bet.status)]
    requires o.wrote <==> !o.credit.Threw? && !faults(order[|order| - 1]).WriteThrows?
    ensures LoopStatuses(db, order, faults, after, outcomes + [o])
  {
    var n := |order| - 1;
    assert forall i :: 0 <= i < n ==> order[..n][i] == order[i] && (outcomes + [o])[i] == outcomes[i];
    assert order[n] !in order[..n];
  }

  /**
   Exact effect of settle's loop under arbitrary per-bet failures: a snapshot bet ends SETTLED exactly when its
   credit (if WIN) did not throw and its status write committed; every user's balance grows by exactly the
   payouts newly committed to that user; bets outside the snapshot and all other tables are untouched.
   */
  lemma {:induction false} SettleExactEffect(db: DB, order: seq<Id>, result: MarketResult, faults: Faults)
    requires LedgerInv(db) && (forall b <- order :: b in db.bets && db.bets[b].status.ACCEPTED?)
    requires forall i, j :: 0 <= i < j < |order| ==> order[i] != order[j]
    ensures var (after, outcomes) := SettleMany(db, order, result, faults);
            && LedgerInv(after)
            && LoopStatuses(db, order, faults, after, outcomes)
            && LoopMoney(db, order, result, after, outcomes)
            && after == db.(wallets := after.wallets, ledger := after.ledger, bets := after.bets)
  {
    hide LedgerInv, SettleOne, HasRow, LoopStatuses;
    if order != [] {
      var n := |order| - 1;
      var id := order[n];
      SettleExactEffect(db, order[..n], result, faults);
      var (before, outcomes) := SettleMany(db, order[..n], result, faults);
      OneEffect(before, id, result, faults(id));
      var (after, o) := SettleOne(before, id, result, faults(id));
      SameTermsOf(db, order[..n], faults, before, outcomes);
      hide LoopMoney;
      LoopMoneyGrows(db, order, result, before, outcomes, after, o);
      LoopStatusesGrow(db, order, faults, before, outcomes, after, o);
    } else {
      EmptyLoop(db, result, faults);
    }
  }

  lemma SameTermsOf(db: DB, order: seq<Id>, faults: Faults, after: DB, outcomes: seq<BetOutcome>)
    requires LoopStatuses(db, order, faults, after, outcomes)
    ensures SameTerms(db.bets, after.bets)
  {
  }

  lemma EmptyLoop(db: DB, result: MarketResult, faults: Faults)
    ensures LoopStatuses(db, [], faults, db, []) && LoopMoney(db, [], result, db, [])
  {
  }
}
