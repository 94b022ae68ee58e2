/**
 One whole client call, run alone: what deposit and placeBet compute when the process dies after a given number
 of steps, and what a retry finds.
 */
module Placement {
  import opened Types
  import opened Ledger
  import opened Protocol
  import opened Invariant
  import opened Guarantees
  import opened Recovery

  /** The steps of a call until it returns, or until the process dies after `fuel` of them. */
  ghost function RunCall(rq: Request, ref: Id, db: DB, call: Call, newId: Id, fuel: nat): (DB, CallOutcome)
    decreases fuel
  {
    if fuel == 0 then (db, Continue(call))
    else
      var (after, next) := CallStep(rq, ref, db, call, newId);
      match next
      case Return(_) => (after, next)
      case Continue(c) => RunCall(rq, ref, after, c, newId, fuel - 1)
  }

  /** No call takes more steps than this. */
  const ALL_STEPS: nat := 9

  // ---- a call run alone is a run of the machine ---------------------------------------------------

  lemma NewIdOnlySaves(rq: Request, ref: Id, db: DB, call: Call, newId: Id, otherId: Id)
    requires !call.BetSave?
    ensures CallStep(rq, ref, db, call, newId) == CallStep(rq, ref, db, call, otherId)
  {
  }

  lemma SavesOnce(rq: Request, ref: Id, db: DB, call: Call, newId: Id)
    ensures var (after, next) := CallStep(rq, ref, db, call, newId);
            && (newId in after.bets ==> newId in db.bets || call.BetSave?)
            && (call.BetSave? || call.CacheWrite? ==> next.Return? || !next.call.BetSave?)
            && (next.Continue? && next.call.BetSave? ==> after.bets == db.bets)
            && (next.Continue? && (call.CacheWrite? || call.Publish? || call.BetSave?)
                ==> next.call.CacheWrite? || next.call.Publish?)
  {
  }

  lemma CallsAfter(rq: Request, w: World, others: map<Id, Call>, ref: Id, id: Id)
    requires ref in w.calls && w.calls - {ref} == others
    ensures var w' := AfterCall(rq, w, ref, id); var (after, next) := CallStep(rq, ref, w.db, w.calls[ref], id);
            && w' == w.(db := after, calls := w'.calls, responses := w'.responses, published := w'.published)
            && w'.calls - {ref} == others
            && (next.Continue? ==> w'.published == w.published)
            && (next.Continue? ==> ref in w'.calls && w'.calls[ref] == next.call)
            && (next.Return? ==> w'.calls == others && (ref, next.response) in w'.responses)
  {
    hide CallStep, CallSends;
    var w' := AfterCall(rq, w, ref, id);
    assert w'.calls - {ref} == w.calls - {ref};
  }

  lemma StepCallOnce(rqs: Requests, w: World, run: seq<Action>, ref: Id, id: Id) returns (run': seq<Action>)
    requires Reachable(rqs, w) && Legal(rqs, w, run)
    requires ref in Run(rqs, w, run).calls && id !in Run(rqs, w, run).db.bets
    ensures Legal(rqs, w, run') && Run(rqs, w, run') == AfterCall(rqs(ref), Run(rqs, w, run), ref, id)
  {
    hide Inv, AfterCall;
    run' := Step(rqs, w, run, StepCall(ref, id));
  }

  /** Nothing but this call has moved since `w`. */
  ghost predicate OnlyCalls(w: World, v: World, ref: Id)
  {
    && v == w.(db := v.db, calls := v.calls, responses := v.responses, published := v.published)
    && v.calls - {ref} == w.calls - {ref}
  }

  /** From a call already started, its remaining steps are steps of the machine. */
  lemma {:induction false} StepsAreRun(rqs: Requests, w: World, run: seq<Action>, ref: Id, call: Call, newId: Id,
      fuel: nat)
    returns (run': seq<Action>)
    requires Reachable(rqs, w) && Legal(rqs, w, run)
    requires var v := Run(rqs, w, run);
             && ref in v.calls && v.calls[ref] == call && OnlyCalls(w, v, ref)
             && (newId !in v.db.bets || call.CacheWrite? || call.Publish?)
    ensures Legal(rqs, w, run')
    ensures var v := Run(rqs, w, run');
            var (after, next) := RunCall(rqs(ref), ref, Run(rqs, w, run).db, call, newId, fuel);
            && v.db == after && v.calls == w.calls - {ref} && OnlyCalls(w, v, ref)
            && (next.Return? ==> (ref, next.response) in v.responses)
            && (next.Continue? ==> v.published == Run(rqs, w, run).published)
    decreases fuel
  {
    hide Inv, CallStep, AfterCall;
    var v := Run(rqs, w, run);
    if fuel == 0 {
      run' := Step(rqs, w, run, EndCall(ref));
    } else {
      hide Enabled, Apply;
      var id := newId;
      if newId in v.db.bets {
        id := FreshId(v.db.bets.Keys);
        NewIdOnlySaves(rqs(ref), ref, v.db, call, newId, id);
      }
      SavesOnce(rqs(ref), ref, v.db, call, newId);
      run' := StepCallOnce(rqs, w, run, ref, id);
      var next := CallStep(rqs(ref), ref, v.db, call, newId).1;
      CallsAfter(rqs(ref), v, w.calls - {ref}, ref, id);
      if next.Continue? {
        run' := StepsAreRun(rqs, w, run', ref, next.call, newId, fuel - 1);
      }
    }
  }

  /**
   Every deposit and placeBet run alone, to its end or to a crash, is a run of the machine; so all guarantees
   about reachable states hold after it.
   */
  lemma CallIsRun(rqs: Requests, w: World, ref: Id, newId: Id, fuel: nat) returns (run: seq<Action>)
    requires Reachable(rqs, w) && ref !in w.calls && rqs(ref).Valid() && newId !in w.db.bets
    ensures Legal(rqs, w, run)
    ensures var v := Run(rqs, w, run);
            var (after, next) := RunCall(rqs(ref), ref, w.db, FirstStep(rqs(ref)), newId, fuel);
            && v == w.(db := after, responses := v.responses, published := v.published)
            && (next.Return? ==> (ref, next.response) in v.responses)
            && (next.Continue? ==> v.published == w.published)
  {
    hide Inv, CallStep, RunCall;
    run := Step(rqs, w, [], StartCall(ref));
    run := StepsAreRun(rqs, w, run, ref, FirstStep(rqs(ref)), newId, fuel);
    assert w.calls - {ref} == w.calls;
  }

  /** The steps a call can still take. */
  function StepsLeft(call: Call): nat
  {
    match call
    case CacheRead => 9
    case CacheHit(_) => 8
    case BetLookup => 7
    case MarketCheck => 6
    case DebitCheck(_) => 5
    case DebitApply(_) => 4
    case BetSave(_) => 3
    case CacheWrite(_, _) => 2
    case Publish(_, _) => 1
    case DepositCheck => 2
    case DepositApply => 1
  }

  /** A call that does not die answers; ALL_STEPS is enough for any call. */
  lemma {:induction false} CallAnswers(rq: Request, ref: Id, db: DB, call: Call, newId: Id, fuel: nat)
    requires fuel >= StepsLeft(call)
    ensures RunCall(rq, ref, db, call, newId, fuel).1.Return?
    decreases fuel
  {
    var (after, next) := CallStep(rq, ref, db, call, newId);
    if next.Continue? {
      CallAnswers(rq, ref, after, next.call, newId, fuel - 1);
    }
  }

  // ---- retries ------------------------------------------------------------------------------------

  /** placeBet when its key is in use by no bet: nothing cached, nothing found, straight to the market check. */
  lemma RetryReachesMarket(rq: Request, ref: Id, db: DB, newId: Id, fuel: nat)
    requires rq.BetRequest? && !rq.admin && NoBet(db, ref) && (rq.user, ref) !in db.cache && fuel >= 2
    ensures RunCall(rq, ref, db, CacheRead, newId, fuel) == RunCall(rq, ref, db, MarketCheck, newId, fuel - 2)
  {
    assert RunCall(rq, ref, db, CacheRead, newId, fuel) == RunCall(rq, ref, db, BetLookup, newId, fuel - 1);
  }

  /** From the market check of a debited request to its answer. */
  lemma DebitedFromMarket(rq: Request, ref: Id, db: DB, newId: Id)
    requires rq.BetRequest? && NoBet(db, ref) && HasRow(db.ledger, rq.user, ref, DEBIT)
    ensures var (after, next) := RunCall(rq, ref, db, MarketCheck, newId, ALL_STEPS - 2);
            && after.wallets == db.wallets && after.ledger == db.ledger
            && (next == Return(Placed(newId)) || next == Return(Refused))
            && (next == Return(Placed(newId)) <==>
                  && rq.market in db.markets && db.markets[rq.market].status.OPEN?
                  && Payout(rq.stake, db.markets[rq.market].odds) <= INT4_MAX)
            && (next == Return(Placed(newId)) ==>
                  && after.bets == db.bets[newId := NewBet(rq, ref, db.markets[rq.market].odds)]
                  && after.cache == db.cache[(rq.user, ref) := newId]
                  && after.queue == db.queue + [Message(db.nextTag, PayloadOf(newId, after.bets[newId]))])
  {
    if rq.market in db.markets && db.markets[rq.market].status.OPEN? {
      var odds := db.markets[rq.market].odds;
      var bet := NewBet(rq, ref, odds);
      assert RunCall(rq, ref, db, MarketCheck, newId, 7) == RunCall(rq, ref, db, DebitCheck(odds), newId, 6);
      assert RunCall(rq, ref, db, DebitCheck(odds), newId, 6) == RunCall(rq, ref, db, BetSave(odds), newId, 5);
      if CanInsert(db, bet) {
        var saved := db.(bets := db.bets[newId := bet]);
        assert RunCall(rq, ref, db, BetSave(odds), newId, 5)
            == RunCall(rq, ref, saved, CacheWrite(newId, odds), newId, 4);
        var cached := saved.(cache := saved.cache[(rq.user, ref) := newId]);
        assert RunCall(rq, ref, saved, CacheWrite(newId, odds), newId, 4)
            == RunCall(rq, ref, cached, Publish(newId, odds), newId, 3);
      }
    }
  }

  /**
   A retry after a crash between the debit and the save never debits again, and it places the bet if and only if
   the market is open and the payout fits the bets table. When it does not, the stake stays debited: no later
   retry can save a bet whose payout is too large.
   */
  lemma RetryAfterDebit(rqs: Requests, w: World, ref: Id, newId: Id)
    requires Reachable(rqs, w) && rqs(ref).BetRequest? && !rqs(ref).admin
    requires HasRow(w.db.ledger, rqs(ref).user, ref, DEBIT) && NoBet(w.db, ref)
    ensures var rq := rqs(ref);
            var (after, next) := RunCall(rq, ref, w.db, CacheRead, newId, ALL_STEPS);
            && after.wallets == w.db.wallets && after.ledger == w.db.ledger
            && (next == Return(Placed(newId)) || next == Return(Refused))
            && (next == Return(Placed(newId)) <==>
                  && rq.market in w.db.markets && w.db.markets[rq.market].status.OPEN?
                  && Payout(rq.stake, w.db.markets[rq.market].odds) <= INT4_MAX)
  {
    hide Enabled, Apply, LedgerInv, RowsInv, BetsInv, BrokerInv, CallsInv, AdminInv, WorkerInv, HistoryInv,
        ResponsesInv;
    hide CallStep, RunCall;
    ReachableInv(rqs, w);
    RetryReachesMarket(rqs(ref), ref, w.db, newId, ALL_STEPS);
    DebitedFromMarket(rqs(ref), ref, w.db, newId);
  }

  /** A retry of a placed request answers with the same bet and changes nothing, cached or not. */
  lemma RetryAfterSave(rqs: Requests, w: World, ref: Id, newId: Id, bet: Id)
    requires Reachable(rqs, w) && bet in w.db.bets && w.db.bets[bet].ref == ref
    ensures RunCall(rqs(ref), ref, w.db, CacheRead, newId, ALL_STEPS) == (w.db, Return(Placed(bet)))
  {
    hide Enabled, Apply, LedgerInv, RowsInv, BrokerInv, CallsInv, AdminInv, WorkerInv, HistoryInv, ResponsesInv;
    ReachableInv(rqs, w);
    assert BetOk(rqs, w.db, w.db.bets[bet]);
    var rq := rqs(ref);
    hide BetOk;
    if (rq.user, ref) in w.db.cache {
      assert RunCall(rq, ref, w.db, CacheRead, newId, 9) == RunCall(rq, ref, w.db, CacheHit(bet), newId, 8);
    } else {
      assert RunCall(rq, ref, w.db, CacheRead, newId, 9) == RunCall(rq, ref, w.db, BetLookup, newId, 8);
    }
  }

  /** The user's own rows under a key, whatever their type, are what deposit's duplicate check finds. */
  lemma AnyRowIs(ledger: seq<Row>, user: Id, ref: Id)
    ensures HasAnyRow(ledger, user, ref)
            <==> HasRow(ledger, user, ref, DEPOSIT) || HasRow(ledger, user, ref, DEBIT)
                 || HasRow(ledger, user, ref, CREDIT)
  {
    if HasAnyRow(ledger, user, ref) {
      var i :| 0 <= i < |ledger| && ledger[i].user == user && ledger[i].ref == ref;
      assert HasRow(ledger, user, ref, ledger[i].kind);
    }
  }

  /**
   The exact effect of a deposit that may die after any number of steps, on any tables. It is answered if and only if
   the user has a row under its key, and then changes nothing, or the balance column has room for the amount, and then
   adds the amount and its row and changes nothing else. In every other case it leaves the tables alone.
   */
  lemma DepositExactEffect(db: DB, user: Id, amount: nat, ref: Id, newId: Id, steps: nat)
    ensures var (after, next) := RunCall(DepositRequest(user, amount), ref, db, DepositCheck, newId, steps);
            var found := exists i :: 0 <= i < |db.ledger| && db.ledger[i].user == user && db.ledger[i].ref == ref;
            var have := if user in db.wallets then db.wallets[user] else 0;
            if steps == 0 then after == db && next == Continue(DepositCheck)
            else if found then after == db && next == Return(Deposited)
            else if steps == 1 then after == db && next.Continue?
            else if have + amount <= 2147483647 then
              && next == Return(Deposited)
              && after == db.(wallets := db.wallets[user := have + amount],
                              ledger := db.ledger + [Row(user, DEPOSIT, amount, have + amount, ref)])
            else after == db && next == Return(Refused)
  {
    var rq := DepositRequest(user, amount);
    if steps > 1 && !HasAnyRow(db.ledger, user, ref) {
      assert RunCall(rq, ref, db, DepositCheck, newId, steps) == RunCall(rq, ref, db, DepositApply, newId, steps - 1);
      var have := Balance(db.wallets, user);
      if have + amount <= INT4_MAX {
        var row := Row(user, DEPOSIT, amount, have + amount, ref);
        assert (db.ledger + [row])[|db.ledger|] == row;
      }
    }
  }

  /**
   An answered deposit adds exactly one DEPOSIT row and its amount if and only if its user has no row under its key; and
   it has been counted, then or earlier, if and only if the user has a DEPOSIT row under the key, or neither a DEBIT nor
   a CREDIT one. The duplicate check ignores the type: it takes the stake of a bet placed under the same key, or the
   payout of a bet whose id the key is, for the deposit.
   */
  lemma DepositCountsIff(db: DB, user: Id, amount: nat, ref: Id)
    ensures var (after, next) := RunCall(DepositRequest(user, amount), ref, db, DepositCheck, 0, ALL_STEPS);
            var found := HasAnyRow(db.ledger, user, ref);
            next == Return(Deposited) ==>
              && CountRows(after.ledger, DEPOSIT, ref) == CountRows(db.ledger, DEPOSIT, ref) + (if found then 0 else 1)
              && Balance(after.wallets, user) == Balance(db.wallets, user) + (if found then 0 else amount)
              && (HasRow(after.ledger, user, ref, DEPOSIT) <==>
                    || HasRow(db.ledger, user, ref, DEPOSIT)
                    || (!HasRow(db.ledger, user, ref, DEBIT) && !HasRow(db.ledger, user, ref, CREDIT)))
  {
    AnyRowIs(db.ledger, user, ref);
    var rq := DepositRequest(user, amount);
    if !HasAnyRow(db.ledger, user, ref) {
      assert RunCall(rq, ref, db, DepositCheck, 0, 9) == RunCall(rq, ref, db, DepositApply, 0, 8);
      var after := ApplyTransaction(db, user, DEPOSIT, amount, ref);
      hide RunCall, HasAnyRow;
      if after != db {
        CountAppend(db.ledger, after.ledger[|db.ledger|], DEPOSIT, ref);
        assert after.ledger[|db.ledger|].user == user;
      }
    }
  }

  /** In a reachable state an answered deposit under a fresh key is counted once, and under a counted key not again. */
  lemma DepositIsCountedOnce(rqs: Requests, w: World, user: Id, amount: nat, ref: Id)
    requires Reachable(rqs, w)
    requires forall i :: 0 <= i < |w.db.ledger| && w.db.ledger[i].ref == ref ==>
               w.db.ledger[i].user == user && w.db.ledger[i].kind.DEPOSIT?
    ensures var (after, next) := RunCall(DepositRequest(user, amount), ref, w.db, DepositCheck, 0, ALL_STEPS);
            next == Return(Deposited) ==> CountRows(after.ledger, DEPOSIT, ref) == 1
  {
    hide RunCall;
    DepositCountsIff(w.db, user, amount, ref);
    PlacementIsIdempotent(rqs, w, ref);
    CountZero(w.db.ledger, DEPOSIT, ref);
  }

  // ---- the two halves of a debit ----------------------------------------------------------------------

  /** WalletService.debit: the check outside the lock. */
  predicate DebitFound(db: DB, user: Id, ref: Id)
  {
    HasRow(db.ledger, user, ref, DEBIT)
  }

  /** WalletService.debit: what it does with an earlier answer of the check. */
  function DebitAfterCheck(db: DB, user: Id, stake: nat, ref: Id, found: bool): DB
  {
    if found then db else ApplyTransaction(db, user, DEBIT, stake, ref)
  }

  lemma CountAppend(ledger: seq<Row>, row: Row, kind: TransactionType, ref: Id)
    ensures CountRows(ledger + [row], kind, ref)
            == CountRows(ledger, kind, ref) + (if row.kind == kind && row.ref == ref then 1 else 0)
  {
    assert (ledger + [row])[..|ledger|] == ledger;
  }

  // ---- placeBet's three stretches, for its method's proof ---------------------------------------------

  ghost predicate Died(outcome: (DB, CallOutcome), db: DB)
  {
    outcome.0 == db && outcome.1.Continue?
  }

  /** From the request to the market check. */
  lemma LookupSteps(rq: Request, ref: Id, db: DB, newId: Id, steps: nat)
    requires rq.BetRequest?
    ensures var goal := RunCall(rq, ref, db, CacheRead, newId, steps);
            var cached := (rq.user, ref) in db.cache;
            var used := if cached then 2 else 1;
            if steps == 0 then Died(goal, db)
            else if rq.admin then goal == (db, Return(Refused))
            else if steps < used then Died(goal, db)
            else if cached && db.cache[(rq.user, ref)] in db.bets
            then goal == (db, Return(Placed(db.cache[(rq.user, ref)])))
            else if steps == used then Died(goal, db)
            else if HasBet(db, rq.user, ref) then goal == (db, Return(Placed(FindBet(db, rq.user, ref))))
            else goal == RunCall(rq, ref, db, MarketCheck, newId, steps - used - 1)
  {
    if steps > 0 && !rq.admin {
      if (rq.user, ref) in db.cache {
        var id := db.cache[(rq.user, ref)];
        assert RunCall(rq, ref, db, CacheRead, newId, steps) == RunCall(rq, ref, db, CacheHit(id), newId, steps - 1);
        if steps > 1 && id !in db.bets {
          assert RunCall(rq, ref, db, CacheHit(id), newId, steps - 1)
              == RunCall(rq, ref, db, BetLookup, newId, steps - 2);
        }
      } else {
        assert RunCall(rq, ref, db, CacheRead, newId, steps) == RunCall(rq, ref, db, BetLookup, newId, steps - 1);
      }
    }
  }

  /** The market check and the debit. */
  lemma DebitSteps(rq: Request, ref: Id, db: DB, newId: Id, steps: nat)
    requires rq.BetRequest?
    ensures var goal := RunCall(rq, ref, db, MarketCheck, newId, steps);
            var found := DebitFound(db, rq.user, ref);
            var used := if found then 2 else 3;
            if steps == 0 then Died(goal, db)
            else if rq.market !in db.markets || !db.markets[rq.market].status.OPEN? then goal == (db, Return(Refused))
            else if steps < used then Died(goal, db)
            else if !found && NewBalance(db.wallets, rq.user, DEBIT, rq.stake).None? then goal == (db, Return(Refused))
            else goal == RunCall(rq, ref, DebitAfterCheck(db, rq.user, rq.stake, ref, found),
                                 BetSave(db.markets[rq.market].odds), newId, steps - used)
  {
    if steps > 0 && rq.market in db.markets && db.markets[rq.market].status.OPEN? {
      var odds := db.markets[rq.market].odds;
      assert RunCall(rq, ref, db, MarketCheck, newId, steps)
          == RunCall(rq, ref, db, DebitCheck(odds), newId, steps - 1);
      if steps > 1 && !DebitFound(db, rq.user, ref) {
        assert RunCall(rq, ref, db, DebitCheck(odds), newId, steps - 1)
            == RunCall(rq, ref, db, DebitApply(odds), newId, steps - 2);
      }
    }
  }

  /** Saving, caching and publishing the bet. */
  lemma SaveSteps(rq: Request, ref: Id, db: DB, odds: nat, newId: Id, steps: nat)
    requires rq.BetRequest?
    ensures var goal := RunCall(rq, ref, db, BetSave(odds), newId, steps);
            var bet := NewBet(rq, ref, odds);
            var saved := db.(bets := db.bets[newId := bet]);
            var cached := saved.(cache := saved.cache[(rq.user, ref) := newId]);
            if steps == 0 then Died(goal, db)
            else if !CanInsert(db, bet) then goal == (db, Return(Refused))
            else if steps == 1 then Died(goal, saved)
            else if steps == 2 then Died(goal, cached)
            else goal == (Enqueue(cached, PayloadOf(newId, bet)), Return(Placed(newId)))
  {
    var bet := NewBet(rq, ref, odds);
    if steps > 1 && CanInsert(db, bet) {
      var saved := db.(bets := db.bets[newId := bet]);
      var cached := saved.(cache := saved.cache[(rq.user, ref) := newId]);
      assert RunCall(rq, ref, db, BetSave(odds), newId, steps)
          == RunCall(rq, ref, saved, CacheWrite(newId, odds), newId, steps - 1);
      assert RunCall(rq, ref, saved, CacheWrite(newId, odds), newId, steps - 1)
          == RunCall(rq, ref, cached, Publish(newId, odds), newId, steps - 2);
    }
  }

  /** What a first placement of a request may end in. */
  ghost predicate FirstPlacement(rq: Request, ref: Id, db: DB, newId: Id, after: DB, next: CallOutcome)
    requires rq.BetRequest?
  {
    var balance := Balance(db.wallets, rq.user) - rq.stake;
    if rq.market !in db.markets || !db.markets[rq.market].status.OPEN? || balance < 0
    then after == db && next == Return(Refused)
    else
      var odds := db.markets[rq.market].odds;
      var payout := rq.stake * odds / 100;
      var paid := db.(wallets := db.wallets[rq.user := balance],
                      ledger := db.ledger + [Row(rq.user, DEBIT, rq.stake, balance, ref)]);
      if payout > INT4_MAX then after == paid && next == Return(Refused)
      else
        && next == Return(Placed(newId))
        && after == paid.(bets := db.bets[newId := Bet(rq.user, rq.market, odds, rq.stake, payout, PENDING, ref)],
                          cache := db.cache[(rq.user, ref) := newId],
                          queue := db.queue
                                   + [Message(db.nextTag, Payload(newId, rq.user, rq.market, odds, rq.stake, payout))],
                          nextTag := db.nextTag + 1)
  }

  /**
   The exact effect of a first placement that does not die. It needs an open market and the stake; then it takes the
   stake, and it places the bet if and only if the payout fits its column. Nothing else changes, and without market or
   stake nothing changes at all.
   */
  lemma PlacementExactEffect(rqs: Requests, w: World, ref: Id, newId: Id)
    requires Reachable(rqs, w) && rqs(ref).BetRequest? && !rqs(ref).admin
    requires NoBet(w.db, ref) && NoRow(w.db, ref, DEBIT)
    ensures var (after, next) := RunCall(rqs(ref), ref, w.db, CacheRead, newId, ALL_STEPS);
            FirstPlacement(rqs(ref), ref, w.db, newId, after, next)
  {
    hide Enabled, Apply, LedgerInv, RowsInv, BetsInv, BrokerInv, CallsInv, AdminInv, WorkerInv, HistoryInv,
        ResponsesInv;
    hide CallStep, RunCall;
    ReachableInv(rqs, w);
    var rq, db := rqs(ref), w.db;
    LookupSteps(rq, ref, db, newId, ALL_STEPS);
    DebitSteps(rq, ref, db, newId, ALL_STEPS - 2);
    if rq.market in db.markets && Balance(db.wallets, rq.user) >= rq.stake {
      SaveSteps(rq, ref, ApplyTransaction(db, rq.user, DEBIT, rq.stake, ref),
                db.markets[rq.market].odds, newId, ALL_STEPS - 5);
    }
  }
}
