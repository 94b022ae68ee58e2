/**
 The inductive invariant of the money protocol: what the tables say about each other, and what
 each running activity may rely on at the point where it stands.
 */
module Invariant {
  import opened Types
  import opened Ledger
  import opened Protocol

  // ---- tables ---------------------------------------------------------------------------------

  ghost predicate RowOk(rqs: Requests, db: DB, runs: set<(Id, MarketResult)>, row: Row)
  {
    match row.kind
    case DEPOSIT => rqs(row.ref) == DepositRequest(row.user, row.amount)
    case DEBIT => rqs(row.ref).BetRequest? && rqs(row.ref).user == row.user && rqs(row.ref).stake == row.amount
    case CREDIT =>
      && row.ref in db.bets
      && db.bets[row.ref].user == row.user
      && db.bets[row.ref].payout == row.amount
      && !db.bets[row.ref].status.PENDING?
      && (db.bets[row.ref].market, WIN) in runs
  }

  ghost predicate RowsInv(rqs: Requests, db: DB, runs: set<(Id, MarketResult)>)
  {
    && (forall i :: 0 <= i < |db.ledger| ==> RowOk(rqs, db, runs, db.ledger[i]))
    && (forall i, j :: 0 <= i < j < |db.ledger| ==>
          !(db.ledger[i].kind == db.ledger[j].kind && db.ledger[i].ref == db.ledger[j].ref))
  }

  ghost predicate BetOk(rqs: Requests, db: DB, bet: Bet)
  {
    var rq := rqs(bet.ref);
    && rq.Valid()
    && rq == BetRequest(bet.user, false, bet.market, bet.stake)
    && bet.market in db.markets
    && bet.odds == db.markets[bet.market].odds
    && bet.payout == Payout(bet.stake, bet.odds) <= INT4_MAX
    && !bet.status.VOID? && !bet.status.CANCELLED?
    && HasRow(db.ledger, bet.user, bet.ref, DEBIT)
  }

  ghost predicate BetsInv(rqs: Requests, db: DB)
  {
    && (forall b <- db.bets :: BetOk(rqs, db, db.bets[b]))
    && (forall b <- db.bets, c <- db.bets :: db.bets[b].ref == db.bets[c].ref ==> b == c)
  }

  ghost predicate CacheInv(db: DB)
  {
    forall k <- db.cache ::
      db.cache[k] in db.bets && db.bets[db.cache[k]].user == k.0 && db.bets[db.cache[k]].ref == k.1
  }

  // ---- the broker -----------------------------------------------------------------------------

  /** Where messages can be: queued, delivered but not settled, acked, dead-lettered. */
  function AllMessages(db: DB): multiset<Message>
  {
    multiset(db.queue) + (if db.inflight.Some? then multiset{db.inflight.value} else multiset{})
    + multiset(db.acked) + multiset(db.dead)
  }

  /**
   Every published message is in exactly one place, names a saved bet truthfully, and is acked only once that bet is
   past PENDING.
   */
  ghost predicate BrokerInv(db: DB, published: seq<Message>)
  {
    && AllMessages(db) == multiset(published)
    && |published| == db.nextTag
    && (forall i :: 0 <= i < |published| ==> published[i].tag == i)
    && (forall m <- published :: MessageOk(db, m))
    && (forall m <- db.acked :: m in published && !db.bets[m.payload.betId].status.PENDING?)
    && (db.inflight.Some? ==> db.inflight.value in published)
  }

  ghost predicate MessageOk(db: DB, m: Message)
  {
    m.payload.betId in db.bets && m.payload == PayloadOf(m.payload.betId, db.bets[m.payload.betId])
  }

  // ---- running activities ---------------------------------------------------------------------

  ghost predicate NoRow(db: DB, ref: Id, kind: TransactionType)
  {
    forall i :: 0 <= i < |db.ledger| ==> !(db.ledger[i].ref == ref && db.ledger[i].kind == kind)
  }

  ghost predicate NoBet(db: DB, ref: Id)
  {
    forall b <- db.bets :: db.bets[b].ref != ref
  }

  ghost predicate OddsRead(rq: Request, db: DB, odds: nat)
    requires rq.BetRequest?
  {
    rq.market in db.markets && db.markets[rq.market].odds == odds
  }

  ghost predicate IsBetOf(rq: Request, ref: Id, db: DB, id: Id)
    requires rq.BetRequest?
  {
    id in db.bets && db.bets[id].ref == ref && db.bets[id].user == rq.user
  }

  ghost predicate CallOk(rqs: Requests, db: DB, ref: Id, call: Call)
  {
    var rq := rqs(ref);
    rq.Valid() &&
    if rq.DepositRequest? then
      call.DepositCheck? || (call.DepositApply? && NoRow(db, ref, DEPOSIT))
    else
      match call
      case DepositCheck => false
      case DepositApply => false
      case CacheRead => true
      case CacheHit(id) => !rq.admin && IsBetOf(rq, ref, db, id)
      case BetLookup => !rq.admin
      case MarketCheck => !rq.admin && NoBet(db, ref)
      case DebitCheck(odds) => !rq.admin && NoBet(db, ref) && OddsRead(rq, db, odds)
      case DebitApply(odds) => !rq.admin && NoBet(db, ref) && OddsRead(rq, db, odds) && NoRow(db, ref, DEBIT)
      case BetSave(odds) =>
        !rq.admin && NoBet(db, ref) && OddsRead(rq, db, odds) && HasRow(db.ledger, rq.user, ref, DEBIT)
      case CacheWrite(id, odds) =>
        !rq.admin && IsBetOf(rq, ref, db, id) && db.bets[id] == NewBet(rq, ref, odds).(status := db.bets[id].status)
      case Publish(id, odds) =>
        !rq.admin && IsBetOf(rq, ref, db, id) && db.bets[id] == NewBet(rq, ref, odds).(status := db.bets[id].status)
  }

  ghost predicate CallsInv(rqs: Requests, db: DB, calls: map<Id, Call>)
  {
    forall r <- calls :: CallOk(rqs, db, r, calls[r])
  }

  /** The bets still to settle: distinct bets of this market that only this mutation can move. */
  ghost predicate TodoOk(db: DB, market: Id, todo: seq<Id>)
  {
    && (forall i, j :: 0 <= i < j < |todo| ==> todo[i] != todo[j])
    && (forall b <- todo :: b in db.bets && db.bets[b].market == market && db.bets[b].status.ACCEPTED?)
  }

  ghost predicate AdminOk(db: DB, runs: set<(Id, MarketResult)>, market: Id, admin: Admin)
  {
    && market in db.markets
    && !db.markets[market].status.SETTLED?
    && (!admin.StatusUpdate? ==> (market, admin.result) in runs)
    && match admin
       case StatusUpdate(_) => true
       case Snapshot(_) => true
       case CreditCheck(result, todo) => TodoOk(db, market, todo) && (todo != [] ==> result.WIN?)
       case CreditApply(result, todo) =>
         todo != [] && result.WIN? && TodoOk(db, market, todo) && NoRow(db, todo[0], CREDIT)
       case StatusWrite(result, todo) =>
         && todo != [] && TodoOk(db, market, todo)
         && (result.WIN? ==> HasRow(db.ledger, db.bets[todo[0]].user, todo[0], CREDIT))
       case Notify(_, todo) => todo != [] && TodoOk(db, market, todo[1..])
  }

  ghost predicate AdminInv(db: DB, runs: set<(Id, MarketResult)>, admin: map<Id, Admin>)
  {
    forall m <- admin :: AdminOk(db, runs, m, admin[m])
  }

  ghost predicate WorkerInv(db: DB, worker: Worker)
  {
    && (worker.Idle? <==> db.inflight.None?)
    && (db.inflight.Some? ==>
          var id := db.inflight.value.payload.betId;
          && id in db.bets
          && (worker.WriteBet? ==> db.bets[id].status.PENDING?)
          && (worker.Written? || worker.AlreadyTerminal? ==> !db.bets[id].status.PENDING?))
  }

  // ---- history --------------------------------------------------------------------------------

  /** The status the writes so far leave a bet in; bets are inserted PENDING. */
  function StatusAfter(writes: seq<Write>, bet: Id): BetStatus
  {
    if writes == [] then PENDING
    else
      var last := writes[|writes| - 1];
      if last.bet == bet then last.to else StatusAfter(writes[..|writes| - 1], bet)
  }

  /** Every write starts where the previous one left the bet and follows the transition table. */
  ghost predicate LegalHistory(writes: seq<Write>)
  {
    forall i :: 0 <= i < |writes| ==>
      && writes[i].from == StatusAfter(writes[..i], writes[i].bet)
      && writes[i].to in AllowedTransitions(writes[i].from)
  }

  ghost predicate WriteOk(db: DB, runs: set<(Id, MarketResult)>, write: Write)
  {
    && write.bet in db.bets
    && (write.result.Some? <==> write.to.SETTLED?)
    && (write.result.Some? ==> (db.bets[write.bet].market, write.result.value) in runs)
    && (write.result == Some(WIN) ==> HasRow(db.ledger, db.bets[write.bet].user, write.bet, CREDIT))
  }

  ghost predicate HistoryInv(db: DB, runs: set<(Id, MarketResult)>, writes: seq<Write>)
  {
    && LegalHistory(writes)
    && (forall i :: 0 <= i < |writes| ==> WriteOk(db, runs, writes[i]))
    && (forall b <- db.bets :: db.bets[b].status == StatusAfter(writes, b))
  }

  ghost predicate ResponsesInv(rqs: Requests, db: DB, responses: set<(Id, Response)>)
  {
    forall r <- responses :: r.1.Placed? ==> rqs(r.0).BetRequest? && IsBetOf(rqs(r.0), r.0, db, r.1.betId)
  }

  ghost predicate Inv(rqs: Requests, w: World)
  {
    && LedgerInv(w.db)
    && RowsInv(rqs, w.db, w.settleRuns)
    && BetsInv(rqs, w.db)
    && CacheInv(w.db)
    && BrokerInv(w.db, w.published)
    && CallsInv(rqs, w.db, w.calls)
    && AdminInv(w.db, w.settleRuns, w.admin)
    && WorkerInv(w.db, w.worker)
    && HistoryInv(w.db, w.settleRuns, w.writes)
    && ResponsesInv(rqs, w.db, w.responses)
  }
}
