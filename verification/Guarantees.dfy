/** What the money protocol guarantees in every state that any run can reach. */
module Guarantees {
  import opened Types
  import opened Ledger
  import opened Protocol
  import opened Invariant
  import opened Preservation
  import opened Sums

  ghost predicate Reachable(rqs: Requests, w: World)
  {
    exists run: seq<Action> :: Legal(rqs, INIT, run) && Run(rqs, INIT, run) == w
  }

  lemma ReachableInv(rqs: Requests, w: World)
    requires Reachable(rqs, w)
    ensures Inv(rqs, w)
  {
    hide Inv, Enabled, Apply;
    var run :| Legal(rqs, INIT, run) && Run(rqs, INIT, run) == w;
    InitInv(rqs);
    RunKeepsInv(rqs, INIT, run);
  }

  lemma ReachableRun(rqs: Requests, w: World, run: seq<Action>)
    requires Reachable(rqs, w) && Legal(rqs, w, run)
    ensures Reachable(rqs, Run(rqs, w, run))
  {
    hide Inv, Enabled, Apply;
    var start :| Legal(rqs, INIT, start) && Run(rqs, INIT, start) == w;
    RunAppend(rqs, INIT, start, run);
  }

  // ---- counting rows ----------------------------------------------------------------------------

  /** How many rows of one kind carry this reference. */
  function CountRows(ledger: seq<Row>, kind: TransactionType, ref: Id): nat
  {
    if ledger == [] then 0
    else
      var last := ledger[|ledger| - 1];
      CountRows(ledger[..|ledger| - 1], kind, ref) + (if last.kind == kind && last.ref == ref then 1 else 0)
  }

  lemma {:induction false} CountZero(ledger: seq<Row>, kind: TransactionType, ref: Id)
    ensures CountRows(ledger, kind, ref) == 0
            <==> forall i :: 0 <= i < |ledger| ==> !(ledger[i].kind == kind && ledger[i].ref == ref)
  {
    if ledger != [] {
      var front := ledger[..|ledger| - 1];
      CountZero(front, kind, ref);
      assert forall i :: 0 <= i < |front| ==> front[i] == ledger[i];
    }
  }

  lemma {:induction false} CountAtMostOne(ledger: seq<Row>, kind: TransactionType, ref: Id)
    requires forall i, j :: 0 <= i < j < |ledger| ==>
               !(ledger[i].kind == ledger[j].kind && ledger[i].ref == ledger[j].ref)
    ensures CountRows(ledger, kind, ref) <= 1
  {
    if ledger != [] {
      var front, last := ledger[..|ledger| - 1], ledger[|ledger| - 1];
      CountAtMostOne(front, kind, ref);
      if last.kind == kind && last.ref == ref {
        CountZero(front, kind, ref);
      }
    }
  }

  // ---- the ledger -------------------------------------------------------------------------------

  /**
   Under every interleaving of deposits, debits, payouts, refused debits and wallet creation, a balance is
   the signed sum of its user's rows, each row's snapshot is the sum up to that row, and no prefix is negative.
   */
  lemma LedgerRefinesBalance(rqs: Requests, w: World)
    requires Reachable(rqs, w)
    ensures forall u: Id :: Balance(w.db.wallets, u) == Fold(w.db.ledger, u)
    ensures forall i :: 0 <= i < |w.db.ledger| ==>
              w.db.ledger[i].balanceAfter == Fold(w.db.ledger[..i + 1], w.db.ledger[i].user)
    ensures forall n, u: Id :: 0 <= n <= |w.db.ledger| ==> 0 <= Fold(w.db.ledger[..n], u) <= INT4_MAX
  {
    ReachableInv(rqs, w);
    hide Inv, Enabled, Apply;
    LedgerOf(rqs, w);
    forall u: Id ensures Balance(w.db.wallets, u) == Fold(w.db.ledger, u) {
      if u !in w.db.wallets {
        FoldStranger(w.db.ledger, u);
      }
    }
  }

  lemma LedgerOf(rqs: Requests, w: World)
    requires Inv(rqs, w)
    ensures LedgerInv(w.db)
  {
  }

  // ---- payouts ----------------------------------------------------------------------------------

  /** Exactly-once payouts, whatever crashes, retries and interleavings happened. */
  lemma ExactlyOncePayout(rqs: Requests, w: World)
    requires Reachable(rqs, w)
    ensures forall b: Id :: CountRows(w.db.ledger, CREDIT, b) <= 1
    ensures forall i :: 0 <= i < |w.db.ledger| && w.db.ledger[i].kind.CREDIT? ==>
              var row := w.db.ledger[i];
              row.ref in w.db.bets && row.user == w.db.bets[row.ref].user && row.amount == w.db.bets[row.ref].payout
    ensures forall i :: 0 <= i < |w.writes| && w.writes[i].result == Some(WIN) ==>
              CountRows(w.db.ledger, CREDIT, w.writes[i].bet) == 1
    ensures forall b <- w.db.bets :: (w.db.bets[b].market, WIN) !in w.settleRuns ==>
              CountRows(w.db.ledger, CREDIT, b) == 0
  {
    hide Enabled, Apply, LedgerInv, BetsInv, CacheInv, BrokerInv, CallsInv, AdminInv, WorkerInv, ResponsesInv,
        LegalHistory;
    ReachableInv(rqs, w);
    forall b: Id ensures CountRows(w.db.ledger, CREDIT, b) <= 1 {
      CountAtMostOne(w.db.ledger, CREDIT, b);
    }
    forall i | 0 <= i < |w.writes| && w.writes[i].result == Some(WIN)
      ensures CountRows(w.db.ledger, CREDIT, w.writes[i].bet) == 1
    {
      assert WriteOk(w.db, w.settleRuns, w.writes[i]);
      CountZero(w.db.ledger, CREDIT, w.writes[i].bet);
    }
    forall i | 0 <= i < |w.db.ledger| && w.db.ledger[i].kind.CREDIT?
      ensures RowOk(rqs, w.db, w.settleRuns, w.db.ledger[i])
    {
    }
    forall b <- w.db.bets | (w.db.bets[b].market, WIN) !in w.settleRuns
      ensures CountRows(w.db.ledger, CREDIT, b) == 0
    {
      CountZero(w.db.ledger, CREDIT, b);
    }
  }

  // ---- conservation -----------------------------------------------------------------------------

  function BalanceOf(wallets: map<Id, int>): Id -> int
  {
    (u: Id) => var balance: int := Balance(wallets, u); balance
  }

  function StakeOf(bets: map<Id, Bet>): Id -> int
  {
    (b: Id) => if b in bets then bets[b].stake as int else 0
  }

  function PayoutOf(bets: map<Id, Bet>): Id -> int
  {
    (b: Id) => if b in bets then bets[b].payout as int else 0
  }

  function RefsOf(bets: map<Id, Bet>, ids: set<Id>): set<Id>
    requires ids <= bets.Keys
  {
    set b <- ids :: bets[b].ref
  }

  ghost function PaidBets(db: DB): set<Id>
  {
    set b <- db.bets | HasRow(db.ledger, db.bets[b].user, b, CREDIT)
  }

  lemma RefsStep(rqs: Requests, db: DB, ids: set<Id>, b: Id)
    requires BetsInv(rqs, db) && ids <= db.bets.Keys && b in ids
    ensures RefsOf(db.bets, ids) == RefsOf(db.bets, ids - {b}) + {db.bets[b].ref}
    ensures db.bets[b].ref !in RefsOf(db.bets, ids - {b})
  {
    hide BetOk;
  }

  /** The stakes of saved bets are exactly the debits made under those bets' keys. */
  lemma {:induction false} StakesAreDebits(rqs: Requests, db: DB, runs: set<(Id, MarketResult)>, ids: set<Id>)
    requires RowsInv(rqs, db, runs) && BetsInv(rqs, db) && ids <= db.bets.Keys
    ensures SumOver(ids, StakeOf(db.bets)) == SumIn(db.ledger, DEBIT, RefsOf(db.bets, ids))
    decreases ids
  {
    hide RowsInv, BetsInv, SumIn;
    if ids == {} {
      SumInNone(db.ledger, DEBIT, RefsOf(db.bets, ids));
    } else {
      var b :| b in ids;
      SumRemove(ids, StakeOf(db.bets), b);
      StakesAreDebits(rqs, db, runs, ids - {b});
      RefsStep(rqs, db, ids, b);
      SumInUnion(db.ledger, DEBIT, RefsOf(db.bets, ids - {b}), db.bets[b].ref);
      DebitOfBet(rqs, db, runs, b);
    }
  }

  lemma DebitOfBet(rqs: Requests, db: DB, runs: set<(Id, MarketResult)>, b: Id)
    requires RowsInv(rqs, db, runs) && BetsInv(rqs, db) && b in db.bets
    ensures SumIn(db.ledger, DEBIT, {db.bets[b].ref}) == db.bets[b].stake
  {
    assert BetOk(rqs, db, db.bets[b]);
    var i :| 0 <= i < |db.ledger| && db.ledger[i].user == db.bets[b].user && db.ledger[i].ref == db.bets[b].ref
             && db.ledger[i].kind == DEBIT;
    assert RowOk(rqs, db, runs, db.ledger[i]);
    SumInOne(db.ledger, DEBIT, i);
  }

  lemma CreditOfBet(rqs: Requests, db: DB, runs: set<(Id, MarketResult)>, b: Id)
    requires RowsInv(rqs, db, runs) && b in PaidBets(db)
    ensures SumIn(db.ledger, CREDIT, {b}) == db.bets[b].payout
  {
    var i :| 0 <= i < |db.ledger| && db.ledger[i].user == db.bets[b].user && db.ledger[i].ref == b
             && db.ledger[i].kind == CREDIT;
    assert RowOk(rqs, db, runs, db.ledger[i]);
    SumInOne(db.ledger, CREDIT, i);
  }

  /** The credits of a set of paid bets are their stored payouts. */
  lemma {:induction false} PayoutsAreCredits(rqs: Requests, db: DB, runs: set<(Id, MarketResult)>, ids: set<Id>)
    requires RowsInv(rqs, db, runs) && ids <= PaidBets(db)
    ensures SumOver(ids, PayoutOf(db.bets)) == SumIn(db.ledger, CREDIT, ids)
    decreases ids
  {
    hide RowsInv;
    if ids == {} {
      SumInNone(db.ledger, CREDIT, ids);
    } else {
      var b :| b in ids;
      SumRemove(ids, PayoutOf(db.bets), b);
      PayoutsAreCredits(rqs, db, runs, ids - {b});
      assert ids == ids - {b} + {b};
      SumInUnion(db.ledger, CREDIT, ids - {b}, b);
      CreditOfBet(rqs, db, runs, b);
    }
  }

  /**
   Conservation across services: all balances together are the deposits, minus the stakes of saved bets,
   minus the debits whose bet was not (or not yet) saved, plus the payouts of the bets that were paid.
   */
  lemma MoneyConserved(rqs: Requests, w: World)
    requires Reachable(rqs, w)
    ensures SumOver(w.db.wallets.Keys, BalanceOf(w.db.wallets))
            == KindTotal(w.db.ledger, DEPOSIT)
               - SumOver(w.db.bets.Keys, StakeOf(w.db.bets))
               - SumOut(w.db.ledger, DEBIT, RefsOf(w.db.bets, w.db.bets.Keys))
               + SumOver(PaidBets(w.db), PayoutOf(w.db.bets))
  {
    hide Enabled, Apply, CacheInv, BrokerInv, CallsInv, AdminInv, WorkerInv, HistoryInv, ResponsesInv, RowsInv, BetsInv;
    ReachableInv(rqs, w);
    var db := w.db;
    SumSame(db.wallets.Keys, BalanceOf(db.wallets), FoldOf(db.ledger));
    FoldsSum(db.ledger, db.wallets.Keys);
    StakesAreDebits(rqs, db, w.settleRuns, db.bets.Keys);
    SumSplits(db.ledger, DEBIT, RefsOf(db.bets, db.bets.Keys));
    PayoutsAreCredits(rqs, db, w.settleRuns, PaidBets(db));
    SumSplits(db.ledger, CREDIT, PaidBets(db));
    CreditsArePaidBets(rqs, db, w.settleRuns);
    SumOutNone(db.ledger, CREDIT, PaidBets(db));
  }

  lemma CreditsArePaidBets(rqs: Requests, db: DB, runs: set<(Id, MarketResult)>)
    requires RowsInv(rqs, db, runs)
    ensures forall i :: 0 <= i < |db.ledger| && db.ledger[i].kind == CREDIT ==> db.ledger[i].ref in PaidBets(db)
  {
    forall i | 0 <= i < |db.ledger| && db.ledger[i].kind == CREDIT ensures db.ledger[i].ref in PaidBets(db) {
      assert RowOk(rqs, db, runs, db.ledger[i]);
    }
  }

  // ---- placement --------------------------------------------------------------------------------

  /** The row that took a bet's stake. */
  predicate HasDebit(ledger: seq<Row>, bet: Bet)
  {
    exists i :: 0 <= i < |ledger| && ledger[i].kind == DEBIT && ledger[i].user == bet.user && ledger[i].ref == bet.ref
                && ledger[i].amount == bet.stake
  }

  lemma DebitMatches(rqs: Requests, db: DB, runs: set<(Id, MarketResult)>, b: Id)
    requires RowsInv(rqs, db, runs) && BetsInv(rqs, db) && b in db.bets
    ensures HasDebit(db.ledger, db.bets[b])
  {
    var bet := db.bets[b];
    assert BetOk(rqs, db, bet);
    var i :| 0 <= i < |db.ledger| && db.ledger[i].user == bet.user && db.ledger[i].ref == bet.ref
             && db.ledger[i].kind == DEBIT;
    assert RowOk(rqs, db, runs, db.ledger[i]);
  }

  /**
   Any number of attempts of one request, dying anywhere, among any other traffic: at most one debit, at most
   one bet, every attempt that answers names that bet, and the bet carries the request's and the market's terms.
   */
  lemma PlacementIsIdempotent(rqs: Requests, w: World, ref: Id)
    requires Reachable(rqs, w)
    ensures CountRows(w.db.ledger, DEBIT, ref) <= 1 && CountRows(w.db.ledger, DEPOSIT, ref) <= 1
    ensures forall b <- w.db.bets, c <- w.db.bets :: w.db.bets[b].ref == ref == w.db.bets[c].ref ==> b == c
    ensures forall b: Id, c: Id :: (ref, Placed(b)) in w.responses && (ref, Placed(c)) in w.responses ==> b == c
    ensures forall b: Id :: (ref, Placed(b)) in w.responses ==> b in w.db.bets && w.db.bets[b].ref == ref
    ensures forall b <- w.db.bets :: w.db.bets[b].ref == ref ==>
              && CountRows(w.db.ledger, DEBIT, ref) == 1 && !rqs(ref).DepositRequest? && !rqs(ref).admin
              && HasDebit(w.db.ledger, w.db.bets[b])
  {
    hide Enabled, Apply, LedgerInv, CacheInv, BrokerInv, CallsInv, AdminInv, WorkerInv, HistoryInv;
    ReachableInv(rqs, w);
    CountAtMostOne(w.db.ledger, DEBIT, ref);
    CountAtMostOne(w.db.ledger, DEPOSIT, ref);
    forall b: Id | (ref, Placed(b)) in w.responses ensures b in w.db.bets && w.db.bets[b].ref == ref {
      var r := (ref, Placed(b));
      assert r.1.Placed?;
    }
    forall b <- w.db.bets | w.db.bets[b].ref == ref ensures CountRows(w.db.ledger, DEBIT, ref) == 1 {
      assert BetOk(rqs, w.db, w.db.bets[b]);
      CountZero(w.db.ledger, DEBIT, ref);
    }
    forall b <- w.db.bets | w.db.bets[b].ref == ref ensures HasDebit(w.db.ledger, w.db.bets[b]) {
      DebitMatches(rqs, w.db, w.settleRuns, b);
    }
    forall b <- w.db.bets | w.db.bets[b].ref == ref ensures !rqs(ref).DepositRequest? && !rqs(ref).admin {
      assert BetOk(rqs, w.db, w.db.bets[b]);
    }
  }

  /** A bet keeps the stake it was debited and the odds it was shown; queued payloads repeat them. */
  lemma TermsAreFrozen(rqs: Requests, w: World)
    requires Reachable(rqs, w)
    ensures forall b <- w.db.bets ::
              var bet := w.db.bets[b];
              && bet.market in w.db.markets && bet.odds == w.db.markets[bet.market].odds
              && bet.payout == bet.stake * bet.odds / 100
              && rqs(bet.ref) == BetRequest(bet.user, false, bet.market, bet.stake)
    ensures forall m <- AllMessages(w.db) ::
              m.payload.betId in w.db.bets && m.payload == PayloadOf(m.payload.betId, w.db.bets[m.payload.betId])
  {
    hide Enabled, Apply, LedgerInv, CacheInv, RowsInv, CallsInv, AdminInv, WorkerInv, HistoryInv, ResponsesInv;
    ReachableInv(rqs, w);
    forall b <- w.db.bets ensures BetOk(rqs, w.db, w.db.bets[b]) {
    }
    forall m <- AllMessages(w.db) ensures MessageOk(w.db, m) {
      InQueueIsPublished(w.db, w.published, m);
    }
  }

  /** A cached key always names the bet with exactly that user and reference. */
  lemma CacheIsCoherent(rqs: Requests, w: World)
    requires Reachable(rqs, w)
    ensures forall k <- w.db.cache :: HasBet(w.db, k.0, k.1) && w.db.cache[k] == FindBet(w.db, k.0, k.1)
  {
    hide Enabled, Apply, LedgerInv, BrokerInv, RowsInv, CallsInv, AdminInv, WorkerInv, HistoryInv, ResponsesInv, BetOk;
    ReachableInv(rqs, w);
  }

  // ---- delivery ---------------------------------------------------------------------------------

  function Places(db: DB, m: Message): nat
  {
    multiset(db.queue)[m] + (if db.inflight == Some(m) then 1 else 0) + multiset(db.acked)[m] + multiset(db.dead)[m]
  }

  /** Every published message is in exactly one place, and nothing else is anywhere. */
  lemma EachMessageInOnePlace(rqs: Requests, w: World, m: Message)
    requires Reachable(rqs, w)
    ensures Places(w.db, m) == if m in w.published then 1 else 0
    ensures m in w.db.acked ==> m.payload.betId in w.db.bets && !w.db.bets[m.payload.betId].status.PENDING?
  {
    hide Enabled, Apply, LedgerInv, RowsInv, BetsInv, CacheInv, CallsInv, AdminInv, WorkerInv, HistoryInv, ResponsesInv;
    ReachableInv(rqs, w);
    assert Places(w.db, m) == AllMessages(w.db)[m];
    Distinct(w.published, m);
    if m in w.db.acked {
      assert MessageOk(w.db, m);
    }
  }

  lemma {:induction false} Distinct(messages: seq<Message>, m: Message)
    requires forall i :: 0 <= i < |messages| ==> messages[i].tag == i
    ensures multiset(messages)[m] == if m in messages then 1 else 0
  {
    if messages != [] {
      var front, last := messages[..|messages| - 1], messages[|messages| - 1];
      Distinct(front, m);
      assert messages == front + [last];
    }
  }

  // ---- status histories -------------------------------------------------------------------------

  function Rank(status: BetStatus): nat
  {
    match status
    case PENDING => 2
    case ACCEPTED => 1
    case _ => 0
  }

  function CountWrites(writes: seq<Write>, bet: Id): nat
  {
    if writes == [] then 0
    else CountWrites(writes[..|writes| - 1], bet) + (if writes[|writes| - 1].bet == bet then 1 else 0)
  }

  /** Each legal write strictly lowers the rank, so no history is longer than two. */
  lemma {:induction false} WritesLowerRank(writes: seq<Write>, bet: Id)
    requires LegalHistory(writes)
    ensures CountWrites(writes, bet) + Rank(StatusAfter(writes, bet)) <= 2
  {
    if writes != [] {
      var front, last := writes[..|writes| - 1], writes[|writes| - 1];
      assert forall i :: 0 <= i < |front| ==> front[..i] == writes[..i];
      WritesLowerRank(front, bet);
      assert last.from == StatusAfter(writes[..|writes| - 1], last.bet);
    }
  }

  /**
   With the worker's read and write and settle's snapshot and write all split, every status write of every
   run follows the transition table, and no bet is written more than twice.
   */
  lemma StatusHistoriesAreLegal(rqs: Requests, w: World)
    requires Reachable(rqs, w)
    ensures LegalHistory(w.writes)
    ensures forall b <- w.db.bets :: w.db.bets[b].status == StatusAfter(w.writes, b)
    ensures forall b: Id :: CountWrites(w.writes, b) + Rank(StatusAfter(w.writes, b)) <= 2
  {
    hide Enabled, Apply, LedgerInv, RowsInv, BetsInv, CacheInv, BrokerInv, CallsInv, AdminInv, WorkerInv, ResponsesInv;
    ReachableInv(rqs, w);
    forall b: Id ensures CountWrites(w.writes, b) + Rank(StatusAfter(w.writes, b)) <= 2 {
      WritesLowerRank(w.writes, b);
    }
  }
}
