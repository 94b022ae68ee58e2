/**
 The services as they run: one shared database object whose tables the methods update in place. Each method is
 proved to leave exactly the tables, and to give exactly the answer, of its specification function.
 `steps` and `faults` choose where the process dies and which database or broker calls throw.
 */
module Services {
  import opened Types
  import opened Ledger
  import opened Protocol
  import opened Placement
  import opened Settlement
  import opened CrashRetry
  import opened Delivery
  import opened Invariant
  import opened Preservation
  import opened Money

  class Database {
    var wallets: map<Id, int>
    var ledger: seq<Row>
    var markets: map<Id, Market>
    var bets: map<Id, Bet>
    var cache: map<(Id, Id), Id>
    var queue: seq<Message>
    var inflight: Option<Message>
    var acked: seq<Message>
    var dead: seq<Message>
    var nextTag: nat

    constructor ()
      ensures State() == EMPTY_DB && Valid()
    {
      wallets, ledger, markets, bets, cache := map[], [], map[], map[], map[];
      queue, inflight, acked, dead, nextTag := [], None, [], [], 0;
    }

    function State(): DB
      reads this
    {
      DB(wallets, ledger, markets, bets, cache, queue, inflight, acked, dead, nextTag)
    }

    /** What the schema enforces: the unique index on bets.referenceId, and the width of the odds column. */
    ghost predicate Valid()
      reads this
    {
      && (forall b <- bets, c <- bets :: bets[b].ref == bets[c].ref ==> b == c)
      && (forall m <- markets :: markets[m].odds <= INT4_MAX)
    }

    /** find({ marketId, status: ACCEPTED }): the rows come back in no particular order. */
    method FindAccepted(market: Id) returns (order: seq<Id>)
      ensures IsSnapshot(State(), market, order)
    {
      order := [];
      var rest := bets.Keys;
      while rest != {}
        invariant rest <= bets.Keys
        invariant forall b :: b in order <==>
                    b in bets && b !in rest && bets[b].market == market && bets[b].status.ACCEPTED?
        invariant forall i, j :: 0 <= i < j < |order| ==> order[i] != order[j]
      {
        var b :| b in rest;
        rest := rest - {b};
        if bets[b].market == market && bets[b].status.ACCEPTED? {
          order := order + [b];
        }
      }
    }
  }

  /** How a debit ends: the process dies, it throws for lack of funds, or it returns. */
  datatype DebitOutcome = Died | Threw | Done

  class WalletService {
    const db: Database

    constructor (db: Database)
      ensures this.db == db
    {
      this.db := db;
    }

    /** One database transaction under the wallet's row lock; `false` is a rollback. */
    method ApplyTransaction(user: Id, kind: TransactionType, amount: nat, ref: Id) returns (committed: bool)
      modifies db
      ensures db.State() == Ledger.ApplyTransaction(old(db.State()), user, kind, amount, ref)
      ensures committed <==> NewBalance(old(db.wallets), user, kind, amount).Some?
      ensures db.bets == old(db.bets) && db.markets == old(db.markets)
    {
      var balance: int := 0;
      if user in db.wallets {
        balance := db.wallets[user];
      }
      if kind.DEBIT? {
        if balance < amount {
          return false;
        }
        balance := balance - amount;
      } else {
        balance := balance + amount;
        if balance > INT4_MAX {
          return false;
        }
      }
      db.wallets := db.wallets[user := balance];
      db.ledger := db.ledger + [Row(user, kind, amount, balance, ref)];
      return true;
    }

    /** getOrCreateWallet on what the replica answered; None when the unique userId refuses the insert. */
    method GetOrCreateWallet(user: Id, replica: Option<int>) returns (balance: Option<int>)
      modifies db
      ensures db.State() == if replica.Some? then old(db.State()) else OpenWallet(old(db.State()), user)
      ensures forall u <- old(db.wallets) :: u in db.wallets && db.wallets[u] == old(db.wallets)[u]
      ensures balance == if replica.Some? then replica else if user in old(db.wallets) then None else Some(0)
      ensures db.bets == old(db.bets) && db.markets == old(db.markets)
    {
      if replica.Some? {
        return replica;
      }
      if user in db.wallets {
        return None;
      }
      db.wallets := db.wallets[user := 0];
      return Some(0);
    }

    /** deposit, dying after `steps` awaited calls; None means it died. */
    method Deposit(user: Id, amount: nat, ref: Id, steps: nat) returns (answer: Option<Response>)
      modifies db
      ensures var (after, next) := RunCall(DepositRequest(user, amount), ref, old(db.State()), DepositCheck, 0, steps);
              db.State() == after && answer == (if next.Return? then Some(next.response) else None)
      ensures db.bets == old(db.bets) && db.markets == old(db.markets)
    {
      if steps == 0 {
        return None;
      }
      if HasAnyRow(db.ledger, user, ref) {
        return Some(Deposited);
      }
      if steps == 1 {
        return None;
      }
      assert RunCall(DepositRequest(user, amount), ref, db.State(), DepositCheck, 0, steps)
          == RunCall(DepositRequest(user, amount), ref, db.State(), DepositApply, 0, steps - 1);
      var committed := ApplyTransaction(user, DEPOSIT, amount, ref);
      return Some(if committed then Deposited else Refused);
    }

    /** debit, dying after `steps` awaited calls; `left` is what remains of them. */
    method Debit(user: Id, amount: nat, ref: Id, steps: nat) returns (outcome: DebitOutcome, left: nat)
      modifies db
      ensures var found := DebitFound(old(db.State()), user, ref);
              var fails := NewBalance(old(db.wallets), user, DEBIT, amount).None?;
              && (outcome.Died? <==> steps < if found then 1 else 2)
              && (outcome.Threw? <==> steps >= 2 && !found && fails)
              && (outcome.Done? ==> left == steps - if found then 1 else 2)
              && db.State() == if outcome.Done? then DebitAfterCheck(old(db.State()), user, amount, ref, found)
                               else old(db.State())
      ensures db.bets == old(db.bets) && db.markets == old(db.markets)
    {
      left := steps;
      if left == 0 { return Died, 0; }
      left := left - 1;
      if HasRow(db.ledger, user, ref, DEBIT) {
        return Done, left;
      }
      if left == 0 { return Died, 0; }
      left := left - 1;
      var committed := ApplyTransaction(user, DEBIT, amount, ref);
      return if committed then Done else DebitOutcome.Threw, left;
    }

    /** credit; `returned` is false when it throws, whether or not a row was committed. */
    method Credit(user: Id, amount: nat, ref: Id, fault: BetFault) returns (returned: bool)
      modifies db
      ensures db.State() ==
              if fault.CreditThrows? || HasRow(old(db.ledger), user, ref, CREDIT) then old(db.State())
              else Ledger.ApplyTransaction(old(db.State()), user, CREDIT, amount, ref)
      ensures returned <==>
              && !fault.CreditThrows? && !fault.CreditLost?
              && (HasRow(old(db.ledger), user, ref, CREDIT) || NewBalance(old(db.wallets), user, CREDIT, amount).Some?)
      ensures db.bets == old(db.bets) && db.markets == old(db.markets)
    {
      if fault.CreditThrows? {
        return false;
      }
      if HasRow(db.ledger, user, ref, CREDIT) {
        return !fault.CreditLost?;
      }
      var committed := ApplyTransaction(user, CREDIT, amount, ref);
      return committed && !fault.CreditLost?;
    }
  }

  class BettingService {
    const db: Database
    const walletService: WalletService

    constructor (db: Database, walletService: WalletService)
      requires walletService.db == db
      ensures this.db == db && this.walletService == walletService
    {
      this.db := db;
      this.walletService := walletService;
    }

    /**
     placeBet, dying after `steps` awaited calls; None means it died. `newId` is the id the database would give
     the new row.
     */
    method PlaceBet(user: Id, admin: bool, market: Id, stake: nat, ref: Id, newId: Id, steps: nat)
      returns (answer: Option<Response>)
      requires walletService.db == db && db.Valid() && newId !in db.bets && stake <= 1_000_000
      modifies db
      ensures db.Valid()
      ensures var (after, next) :=
                RunCall(BetRequest(user, admin, market, stake), ref, old(db.State()), CacheRead, newId, steps);
              db.State() == after && answer == (if next.Return? then Some(next.response) else None)
    {
      hide RunCall, CallStep, HasRow, FloatPayout, NewBalance, DebitFound, DebitAfterCheck;
      ghost var rq := BetRequest(user, admin, market, stake);
      LookupSteps(rq, ref, db.State(), newId, steps);
      // 1. Idempotency: Redis first, then the bets table.
      var left := steps;
      if left == 0 { return None; }
      left := left - 1;
      if admin {
        return Some(Refused);
      }
      if (user, ref) in db.cache {
        var cachedBetId := db.cache[(user, ref)];
        if left == 0 { return None; }
        left := left - 1;
        if cachedBetId in db.bets {
          return Some(Placed(cachedBetId));
        }
      }
      if left == 0 { return None; }
      left := left - 1;
      if HasBet(db.State(), user, ref) {
        var existing :| existing in db.bets && db.bets[existing].user == user && db.bets[existing].ref == ref;
        return Some(Placed(existing));
      }
      // 2. Market must be OPEN. 3. Payout. 4. Debit the stake.
      DebitSteps(rq, ref, db.State(), newId, left);
      if left == 0 { return None; }
      left := left - 1;
      if market !in db.markets || !db.markets[market].status.OPEN? {
        return Some(Refused);
      }
      var odds := db.markets[market].odds;
      AcceptedBetsAreSafe(stake, odds);
      var payout := FloatPayout(stake, odds);
      var debit;
      debit, left := walletService.Debit(user, stake, ref, left);
      if debit.Died? { return None; }
      if debit.Threw? {
        return Some(Refused);
      }
      // 5. Persist the bet.
      SaveSteps(rq, ref, db.State(), odds, newId, left);
      if left == 0 { return None; }
      left := left - 1;
      var bet := Bet(user, market, odds, stake, payout, PENDING, ref);
      if !CanInsert(db.State(), bet) {
        return Some(Refused);
      }
      db.bets := db.bets[newId := bet];
      // 6. Cache the id. 7. Publish.
      if left == 0 { return None; }
      left := left - 1;
      db.cache := db.cache[(user, ref) := newId];
      if left == 0 { return None; }
      db.queue := db.queue + [Message(db.nextTag, Payload(newId, user, market, odds, stake, payout))];
      db.nextTag := db.nextTag + 1;
      return Some(Placed(newId));
    }

    /** transitionStatus: throws (returns false) on a missing bet and on a transition the table forbids. */
    method TransitionStatus(betId: Id, newStatus: BetStatus, readThrows: bool, write: WriteFault)
        returns (returned: bool)
      modifies db
      ensures (db.State(), returned) == Delivery.TransitionStatus(old(db.State()), betId, newStatus, readThrows, write)
      ensures old(db.Valid()) ==> db.Valid()
    {
      if readThrows || betId !in db.bets {
        return false;
      }
      var bet := db.bets[betId];
      if newStatus !in AllowedTransitions(bet.status) || write.Throws? {
        return false;
      }
      db.bets := db.bets[betId := bet.(status := newStatus)];
      return write.NoFault?;
    }

    method IsTerminalState(betId: Id) returns (terminal: bool)
      ensures terminal <==> betId in db.bets && db.bets[betId].status in {BetStatus.SETTLED, VOID, CANCELLED}
    {
      if betId !in db.bets {
        return false;
      }
      return db.bets[betId].status in TERMINAL_STATES;
    }
  }

  class MarketService {
    const db: Database
    const walletService: WalletService

    constructor (db: Database, walletService: WalletService)
      requires walletService.db == db
      ensures this.db == db && this.walletService == walletService
    {
      this.db := db;
      this.walletService := walletService;
    }

    method CreateMarket(newId: Id, odds: nat) returns (created: bool)
      requires newId !in db.markets && 101 <= odds
      modifies db
      ensures created <==> odds <= INT4_MAX
      ensures db.State() == if created then old(db.State()).(markets := old(db.markets)[newId := Market(odds, OPEN)])
                            else old(db.State())
      ensures old(db.Valid()) ==> db.Valid()
    {
      if odds > INT4_MAX {
        return false;
      }
      db.markets := db.markets[newId := Market(odds, OPEN)];
      return true;
    }

    /** updateStatus: refused for a missing market and for a SETTLED one. */
    method UpdateStatus(market: Id, status: MarketStatus) returns (updated: bool)
      modifies db
      ensures updated <==> market in old(db.markets) && !old(db.markets)[market].status.SETTLED?
      ensures updated ==> db.markets.Keys == old(db.markets).Keys
      ensures updated ==> db.markets[market] == old(db.markets)[market].(status := status)
      ensures forall m <- db.markets :: m != market ==> m in old(db.markets) && db.markets[m] == old(db.markets)[m]
      ensures db.State() == old(db.State()).(markets := if updated then db.markets else old(db.markets))
      ensures old(db.Valid()) ==> db.Valid()
    {
      if market !in db.markets || db.markets[market].status.SETTLED? {
        return false;
      }
      db.markets := db.markets[market := db.markets[market].(status := status)];
      return true;
    }

    /** The try block of settle's loop. */
    method SettleBet(betId: Id, result: MarketResult, fault: BetFault) returns (outcome: BetOutcome)
      requires walletService.db == db && betId in db.bets
      modifies db
      ensures (db.State(), outcome) == SettleOne(old(db.State()), betId, result, fault)
      ensures old(db.Valid()) ==> db.Valid()
    {
      var bet, rows := db.bets[betId], |db.ledger|;
      var credit := NotCalled;
      if result.WIN? {
        var returned := walletService.Credit(bet.user, bet.payout, betId, fault);
        if !returned {
          return BetOutcome(CreditOutcome.Threw, |db.ledger| > rows, false);
        }
        credit := Returned;
      }
      if fault.WriteThrows? {
        return BetOutcome(credit, |db.ledger| > rows, false);
      }
      db.bets := db.bets[betId := bet.(status := BetStatus.SETTLED)];
      return BetOutcome(credit, |db.ledger| > rows, true);
    }

    /**
     settle: refused for a missing or SETTLED market; otherwise it visits the ACCEPTED bets in the order the
     database returned them, catches every per-bet failure, and marks the market SETTLED, unless the process dies
     after `dies` bets.
     */
    method Settle(market: Id, result: MarketResult, faults: Faults, dies: Option<nat>)
      returns (started: bool, order: seq<Id>, outcomes: seq<BetOutcome>)
      requires walletService.db == db
      modifies db
      ensures started <==> market in old(db.markets) && !old(db.markets)[market].status.SETTLED?
      ensures !started ==> db.State() == old(db.State())
      ensures started ==>
                var crashed := dies.Some? && dies.value <= |order|;
                var a := if crashed then Crashed(order, dies.value, faults) else Completed(order, faults);
                && AttemptOk(old(db.State()), market, a)
                && db.State() == RunAttempt(old(db.State()), market, result, a)
                && outcomes == SettleMany(old(db.State()),
                                             if crashed then order[..dies.value] else order, result, faults).1
      ensures old(db.Valid()) ==> db.Valid()
    {
      hide SettleOne, SettleMany, HasRow, Database.Valid, SetMarket;
      order, outcomes := [], [];
      if market !in db.markets || db.markets[market].status.SETTLED? {
        return false, order, outcomes;
      }
      started := true;
      order := db.FindAccepted(market);
      ghost var start := db.State();
      assert forall b <- order :: b in start.bets;
      hide IsSnapshot;
      var i := 0;
      LoopStarts(start, result, faults);
      assert order[..0] == [];
      while i < |order|
        invariant 0 <= i <= |order| && (dies.Some? ==> i <= dies.value || dies.value > |order|)
        invariant forall b <- order[..i] :: b in start.bets
        invariant (db.State(), outcomes) == SettleMany(start, order[..i], result, faults)
        invariant old(db.Valid()) ==> db.Valid()
      {
        if dies == Some(i) {
          return;
        }
        LoopTurns(start, order, i, result, faults);
        var outcome := SettleBet(order[i], result, faults(order[i]));
        outcomes := outcomes + [outcome];
        i := i + 1;
      }
      assert order[..i] == order;
      if dies == Some(i) {
        return;
      }
      MarkSettled(market);
    }

    /** settle's last write. */
    method MarkSettled(market: Id)
      modifies db
      ensures db.State() == SetMarket(old(db.State()), market, MarketStatus.SETTLED)
      ensures db.markets.Keys == old(db.markets).Keys
      ensures market in db.markets ==> db.markets[market] == old(db.markets)[market].(status := MarketStatus.SETTLED)
      ensures forall m <- db.markets :: m != market ==> db.markets[m] == old(db.markets)[m]
      ensures old(db.Valid()) ==> db.Valid()
    {
      if market in db.markets {
        db.markets := db.markets[market := db.markets[market].(status := MarketStatus.SETTLED)];
      }
    }
  }

  /** The broker's side of the bet_placement consumer: messages only ever change places. */
  class RabbitMQService {
    const db: Database

    constructor (db: Database)
      ensures this.db == db
    {
      this.db := db;
    }

    method Ack()
      requires db.inflight.Some?
      modifies db
      ensures AllMessages(db.State()) == old(AllMessages(db.State()))
      ensures old(db.Valid()) ==> db.Valid()
      ensures db.State() == old(db.State()).(inflight := None, acked := old(db.acked) + [old(db.inflight.value)])
    {
      db.acked := db.acked + [db.inflight.value];
      db.inflight := None;
    }

    /** nack with requeue=false. */
    method Nack()
      requires db.inflight.Some?
      modifies db
      ensures AllMessages(db.State()) == old(AllMessages(db.State()))
      ensures old(db.Valid()) ==> db.Valid()
      ensures db.State() == old(db.State()).(inflight := None, dead := old(db.dead) + [old(db.inflight.value)])
    {
      db.dead := db.dead + [db.inflight.value];
      db.inflight := None;
    }

    /** prefetch(1): the next message is taken only when none is in flight. */
    method Take(index: nat)
      requires db.inflight.None? && index < |db.queue|
      modifies db
      ensures AllMessages(db.State()) == old(AllMessages(db.State()))
      ensures old(db.Valid()) ==> db.Valid()
      ensures db.inflight == Some(old(db.queue)[index]) && |db.queue| == |old(db.queue)| - 1
      ensures forall i :: 0 <= i < |db.queue| ==> db.queue[i] == old(db.queue)[if i < index then i else i + 1]
      ensures db.State() == old(db.State()).(inflight := db.inflight, queue := db.queue)
    {
      TakeOne(db.queue, index);
      db.inflight := Some(db.queue[index]);
      db.queue := db.queue[..index] + db.queue[index + 1..];
    }
  }

  class SettlementWorker {
    const rabbitMQService: RabbitMQService
    const bettingService: BettingService

    constructor (rabbitMQService: RabbitMQService, bettingService: BettingService)
      ensures this.rabbitMQService == rabbitMQService && this.bettingService == bettingService
    {
      this.rabbitMQService := rabbitMQService;
      this.bettingService := bettingService;
    }

    /** handleMessage: ack and nack each settle the one message in flight, so exactly one of them may run. */
    method HandleMessage(faults: WorkerFaults)
      requires rabbitMQService.db == bettingService.db && bettingService.db.inflight.Some?
      modifies bettingService.db
      ensures bettingService.db.State() == Handle(old(bettingService.db.State()), faults)
      ensures old(bettingService.db.Valid()) ==> bettingService.db.Valid()
    {
      hide AllMessages, Database.Valid;
      var betId := bettingService.db.inflight.value.payload.betId;
      var accepted := bettingService.TransitionStatus(betId, ACCEPTED, faults.readThrows, faults.write);
      if accepted {
        rabbitMQService.Ack();
        return;
      }
      if faults.checkThrows {
        rabbitMQService.Nack();
        return;
      }
      var alreadyTerminal := bettingService.IsTerminalState(betId);
      if alreadyTerminal {
        rabbitMQService.Ack();
      } else {
        rabbitMQService.Nack();
      }
    }
  }
}
