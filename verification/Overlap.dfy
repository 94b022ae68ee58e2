/**
 What the machine excludes, and why: two placeBet calls of one request, two settlements of one market, and a settlement
 beside a status update of one market, in every order of their reads and writes. Each step is the machine's own.
 */
module Overlap {
  import opened Types
  import opened Ledger
  import opened Protocol
  import opened Invariant
  import opened Guarantees
  import opened Placement
  import opened Settlement

  /** The tables and where the two calls stand. */
  datatype Race = Race(db: DB, left: CallOutcome, right: CallOutcome)

  function Mine(r: Race, who: bool): CallOutcome
  {
    if who then r.left else r.right
  }

  function Moved(r: Race, who: bool, db: DB, next: CallOutcome): Race
  {
    if who then Race(db, next, r.right) else Race(db, r.left, next)
  }

  predicate Debiting(outcome: CallOutcome)
  {
    outcome.Continue? && (outcome.call.DebitCheck? || outcome.call.DebitApply?)
  }

  /** One turn of a call that is still debiting; the others wait. */
  ghost function DebitTurn(rq: Request, ref: Id, r: Race, who: bool): Race
  {
    if !Debiting(Mine(r, who)) then r
    else
      var (db, next) := CallStep(rq, ref, r.db, Mine(r, who).call, 0);
      Moved(r, who, db, next)
  }

  /** Both calls have read the market and are about to look for an earlier debit. */
  function AtTheirChecks(db: DB, odds: nat): Race
  {
    Race(db, Continue(DebitCheck(odds)), Continue(DebitCheck(odds)))
  }

  // ---- orders of turns --------------------------------------------------------------------------

  /** When, among the four turns 0 to 3, each call makes its check and its commit. */
  datatype Order = Order(leftCheck: nat, leftCommit: nat, rightCheck: nat, rightCommit: nat)

  predicate IsOrder(o: Order)
  {
    && o.leftCheck < o.leftCommit < 4 && o.rightCheck < o.rightCommit < 4
    && o.leftCheck != o.rightCheck && o.leftCheck != o.rightCommit
    && o.leftCommit != o.rightCheck && o.leftCommit != o.rightCommit
  }

  /** Whether the left call has this turn. */
  predicate IsLeft(o: Order, turn: nat)
  {
    turn == o.leftCheck || turn == o.leftCommit
  }

  /** Each call checks before the other one commits. */
  predicate ChecksFirst(o: Order)
  {
    o.leftCheck < o.rightCommit && o.rightCheck < o.leftCommit
  }

  /** The race after the turns before `turn`. */
  ghost function DebitTurns(rq: Request, ref: Id, r: Race, o: Order, turn: nat): Race
  {
    if turn == 0 then r else DebitTurn(rq, ref, DebitTurns(rq, ref, r, o, turn - 1), IsLeft(o, turn - 1))
  }

  lemma FourTurns(rq: Request, ref: Id, r: Race, o: Order)
    ensures var r1 := DebitTurn(rq, ref, r, IsLeft(o, 0));
            var r2 := DebitTurn(rq, ref, r1, IsLeft(o, 1));
            var r3 := DebitTurn(rq, ref, r2, IsLeft(o, 2));
            DebitTurns(rq, ref, r, o, 4) == DebitTurn(rq, ref, r3, IsLeft(o, 3))
  {
    hide DebitTurn, IsLeft;
    assert DebitTurns(rq, ref, r, o, 0) == r;
    assert DebitTurns(rq, ref, r, o, 1) == DebitTurn(rq, ref, r, IsLeft(o, 0));
    assert DebitTurns(rq, ref, r, o, 2) == DebitTurn(rq, ref, DebitTurns(rq, ref, r, o, 1), IsLeft(o, 1));
  }

  // ---- two debits under one key -----------------------------------------------------------------

  /** The tables after taking the stake once more. */
  function Taken(rq: Request, ref: Id, db: DB): DB
    requires rq.BetRequest?
  {
    ApplyTransaction(db, rq.user, DEBIT, rq.stake, ref)
  }

  predicate Covers(rq: Request, db: DB)
    requires rq.BetRequest?
  {
    Balance(db.wallets, rq.user) >= rq.stake
  }

  lemma TurnIs(rq: Request, ref: Id, r: Race, who: bool, odds: nat)
    requires rq.BetRequest?
    ensures Mine(r, who) == Continue(DebitCheck(odds)) ==>
              DebitTurn(rq, ref, r, who)
              == Moved(r, who, r.db,
                       Continue(if DebitFound(r.db, rq.user, ref) then BetSave(odds) else DebitApply(odds)))
    ensures Mine(r, who) == Continue(DebitApply(odds)) ==>
              DebitTurn(rq, ref, r, who)
              == if Covers(rq, r.db) then Moved(r, who, Taken(rq, ref, r.db), Continue(BetSave(odds)))
                 else Moved(r, who, r.db, Return(Refused))
    ensures !Debiting(Mine(r, who)) ==> DebitTurn(rq, ref, r, who) == r
  {
  }

  lemma TakenIs(rq: Request, ref: Id, db: DB)
    requires rq.BetRequest? && Covers(rq, db)
    ensures var after := Taken(rq, ref, db);
            && DebitFound(after, rq.user, ref)
            && CountRows(after.ledger, DEBIT, ref) == CountRows(db.ledger, DEBIT, ref) + 1
            && Balance(after.wallets, rq.user) == Balance(db.wallets, rq.user) - rq.stake
            && after == db.(wallets := after.wallets, ledger := after.ledger)
  {
    var row := Row(rq.user, DEBIT, rq.stake, Balance(db.wallets, rq.user) - rq.stake, ref);
    var after := Taken(rq, ref, db);
    assert after.ledger == db.ledger + [row];
    assert after.ledger[|db.ledger|] == row;
    CountAppend(db.ledger, row, DEBIT, ref);
  }

  /** Where the race stands after its four debit turns; `late` is the call that commits, or would commit, last. */
  ghost predicate Debited(rq: Request, ref: Id, db: DB, odds: nat, o: Order, r: Race)
    requires rq.BetRequest?
  {
    var late := IsLeft(o, 3);
    if !Covers(rq, db) then r == Race(db, Return(Refused), Return(Refused))
    else if !ChecksFirst(o) then r == Race(Taken(rq, ref, db), Continue(BetSave(odds)), Continue(BetSave(odds)))
    else if Covers(rq, Taken(rq, ref, db))
    then r == Race(Taken(rq, ref, Taken(rq, ref, db)), Continue(BetSave(odds)), Continue(BetSave(odds)))
    else r.db == Taken(rq, ref, db) && Mine(r, !late) == Continue(BetSave(odds)) && Mine(r, late) == Return(Refused)
  }

  lemma DebitsRaced(rq: Request, ref: Id, db: DB, odds: nat, o: Order)
    requires rq.BetRequest? && NoRow(db, ref, DEBIT) && IsOrder(o)
    ensures Debited(rq, ref, db, odds, o, DebitTurns(rq, ref, AtTheirChecks(db, odds), o, 4))
  {
    assert !DebitFound(db, rq.user, ref);
    if Covers(rq, db) {
      TakenIs(rq, ref, db);
    }
    hide DebitTurn, DebitTurns, Taken, Covers, DebitFound, NoRow;
    var r := AtTheirChecks(db, odds);
    FourTurns(rq, ref, r, o);
    var r1 := DebitTurn(rq, ref, r, IsLeft(o, 0));
    var r2 := DebitTurn(rq, ref, r1, IsLeft(o, 1));
    var r3 := DebitTurn(rq, ref, r2, IsLeft(o, 2));
    TurnIs(rq, ref, r, IsLeft(o, 0), odds);
    TurnIs(rq, ref, r1, IsLeft(o, 1), odds);
    TurnIs(rq, ref, r2, IsLeft(o, 2), odds);
    TurnIs(rq, ref, r3, IsLeft(o, 3), odds);
  }

  /**
   Two calls with one key, in every order of their checks and commits: the stake is taken twice exactly when each call
   checks before the other commits and the balance covers both.
   */
  lemma DoubleDebitIffOverlap(rq: Request, ref: Id, db: DB, odds: nat, o: Order)
    requires rq.BetRequest? && NoRow(db, ref, DEBIT) && IsOrder(o)
    ensures var after := DebitTurns(rq, ref, AtTheirChecks(db, odds), o, 4).db;
            var have := Balance(db.wallets, rq.user);
            && CountRows(after.ledger, DEBIT, ref)
               == (if have < rq.stake then 0 else if ChecksFirst(o) && have >= 2 * rq.stake then 2 else 1)
            && Balance(after.wallets, rq.user) == have - CountRows(after.ledger, DEBIT, ref) * rq.stake
            && after.bets == db.bets
  {
    CountZero(db.ledger, DEBIT, ref);
    hide DebitTurns, ChecksFirst, Taken;
    DebitsRaced(rq, ref, db, odds, o);
    if Covers(rq, db) {
      TakenIs(rq, ref, db);
      if Covers(rq, Taken(rq, ref, db)) {
        TakenIs(rq, ref, Taken(rq, ref, db));
      }
    }
  }

  // ---- the two saves ----------------------------------------------------------------------------

  /** One call's INSERT. */
  ghost function SaveTurn(rq: Request, ref: Id, r: Race, who: bool, newId: Id): Race
  {
    if !Mine(r, who).Continue? || !Mine(r, who).call.BetSave? then r
    else
      var (db, next) := CallStep(rq, ref, r.db, Mine(r, who).call, newId);
      Moved(r, who, db, next)
  }

  /**
   After two debits each call tries to save its bet. Whichever is first saves the one bet; the other is refused by the
   unique reference, and the stake it took buys nothing.
   */
  lemma SecondStakeIsLost(rq: Request, ref: Id, db: DB, odds: nat, o: Order, first: bool, id: Id, other: Id)
    requires rq.BetRequest? && NoRow(db, ref, DEBIT) && NoBet(db, ref) && IsOrder(o) && ChecksFirst(o)
    requires Balance(db.wallets, rq.user) >= 2 * rq.stake && Payout(rq.stake, odds) <= INT4_MAX
    ensures var debited := DebitTurns(rq, ref, AtTheirChecks(db, odds), o, 4);
            var end := SaveTurn(rq, ref, SaveTurn(rq, ref, debited, first, id), !first, other);
            && end.db.bets == db.bets[id := NewBet(rq, ref, odds)]
            && Mine(end, !first) == Return(Refused)
            && CountRows(end.db.ledger, DEBIT, ref) == 2
            && Balance(end.db.wallets, rq.user) == Balance(db.wallets, rq.user) - 2 * rq.stake
  {
    hide DebitTurns, ChecksFirst, Taken, CountRows;
    DebitsRaced(rq, ref, db, odds, o);
    DoubleDebitIffOverlap(rq, ref, db, odds, o);
    TakenIs(rq, ref, db);
    var debited := DebitTurns(rq, ref, AtTheirChecks(db, odds), o, 4);
    var saved := SaveTurn(rq, ref, debited, first, id);
    assert saved.db == debited.db.(bets := debited.db.bets[id := NewBet(rq, ref, odds)]);
    assert !CanInsert(saved.db, NewBet(rq, ref, odds)) by {
      assert saved.db.bets[id].ref == ref;
    }
  }

  // ---- two settlements of one market --------------------------------------------------------------

  /** The tables and where the two settle calls stand. */
  datatype Payers = Payers(db: DB, left: Option<Admin>, right: Option<Admin>)

  /** One turn of a settle call that is still crediting the first bet of `todo`. */
  function CreditTurn(market: Id, todo: seq<Id>, p: Payers, who: bool): Payers
  {
    var mine := if who then p.left else p.right;
    if mine != Some(CreditCheck(WIN, todo)) && mine != Some(CreditApply(WIN, todo)) then p
    else
      var (db, next) := AdminStep(p.db, market, mine.value, []);
      if who then Payers(db, next, p.right) else Payers(db, p.left, next)
  }

  function CreditTurns(market: Id, todo: seq<Id>, p: Payers, o: Order, turn: nat): Payers
  {
    if turn == 0 then p else CreditTurn(market, todo, CreditTurns(market, todo, p, o, turn - 1), IsLeft(o, turn - 1))
  }

  /** Both calls are about to look for the payout of the same bet. */
  function AtTheirCredits(db: DB, todo: seq<Id>): Payers
  {
    Payers(db, Some(CreditCheck(WIN, todo)), Some(CreditCheck(WIN, todo)))
  }

  predicate HasRoom(db: DB, bet: Bet)
  {
    Balance(db.wallets, bet.user) + bet.payout <= INT4_MAX
  }

  function PaidOnce(db: DB, id: Id): DB
    requires id in db.bets
  {
    ApplyTransaction(db, db.bets[id].user, CREDIT, db.bets[id].payout, id)
  }

  lemma PaidOnceIs(db: DB, id: Id)
    requires id in db.bets && HasRoom(db, db.bets[id])
    ensures var after, bet := PaidOnce(db, id), db.bets[id];
            && after.bets == db.bets && HasRow(after.ledger, bet.user, id, CREDIT)
            && CountRows(after.ledger, CREDIT, id) == CountRows(db.ledger, CREDIT, id) + 1
            && Balance(after.wallets, bet.user) == Balance(db.wallets, bet.user) + bet.payout
  {
    var after, bet := PaidOnce(db, id), db.bets[id];
    var row := Row(bet.user, CREDIT, bet.payout, Balance(db.wallets, bet.user) + bet.payout, id);
    assert after.ledger == db.ledger + [row];
    assert after.ledger[|db.ledger|] == row;
    CountAppend(db.ledger, row, CREDIT, id);
  }

  lemma CreditTurnIs(market: Id, todo: seq<Id>, p: Payers, who: bool)
    requires todo != [] && todo[0] in p.db.bets
    ensures var mine := if who then p.left else p.right; var after := CreditTurn(market, todo, p, who);
            var id := todo[0]; var bet := p.db.bets[id];
            var found, room := HasRow(p.db.ledger, bet.user, id, CREDIT), HasRoom(p.db, bet);
            var next := if mine == Some(CreditCheck(WIN, todo))
                        then Some(if found then StatusWrite(WIN, todo) else CreditApply(WIN, todo))
                        else if mine == Some(CreditApply(WIN, todo))
                        then Some(if room then StatusWrite(WIN, todo) else CreditCheck(WIN, todo[1..]))
                        else mine;
            && after.db == (if mine == Some(CreditApply(WIN, todo)) && room then PaidOnce(p.db, id) else p.db)
            && after == (if who then Payers(after.db, next, p.right) else Payers(after.db, p.left, next))
  {
  }

  lemma FourCreditTurns(market: Id, todo: seq<Id>, p: Payers, o: Order)
    ensures var p1 := CreditTurn(market, todo, p, IsLeft(o, 0));
            var p2 := CreditTurn(market, todo, p1, IsLeft(o, 1));
            var p3 := CreditTurn(market, todo, p2, IsLeft(o, 2));
            CreditTurns(market, todo, p, o, 4) == CreditTurn(market, todo, p3, IsLeft(o, 3))
  {
    hide CreditTurn, IsLeft;
    assert CreditTurns(market, todo, p, o, 0) == p;
    assert CreditTurns(market, todo, p, o, 1) == CreditTurn(market, todo, p, IsLeft(o, 0));
    assert CreditTurns(market, todo, p, o, 2)
        == CreditTurn(market, todo, CreditTurns(market, todo, p, o, 1), IsLeft(o, 1));
  }

  /** The tables after the four turns. */
  lemma CreditsRaced(market: Id, todo: seq<Id>, db: DB, o: Order)
    requires todo != [] && todo[0] in db.bets && NoRow(db, todo[0], CREDIT) && IsOrder(o)
    ensures var id := todo[0]; var bet := db.bets[id];
            CreditTurns(market, todo, AtTheirCredits(db, todo), o, 4).db
            == if !HasRoom(db, bet) then db
               else if ChecksFirst(o) && HasRoom(PaidOnce(db, id), bet) then PaidOnce(PaidOnce(db, id), id)
               else PaidOnce(db, id)
  {
    var id := todo[0];
    var bet, once := db.bets[id], PaidOnce(db, id);
    assert !HasRow(db.ledger, bet.user, id, CREDIT);
    if HasRoom(db, bet) {
      PaidOnceIs(db, id);
      if HasRoom(once, bet) {
        PaidOnceIs(once, id);
      }
    }
    assert todo[1..] != todo;
    hide CreditTurn, CreditTurns, PaidOnce, HasRoom, HasRow, NoRow;
    var p := AtTheirCredits(db, todo);
    FourCreditTurns(market, todo, p, o);
    var p1 := CreditTurn(market, todo, p, IsLeft(o, 0));
    CreditTurnIs(market, todo, p, IsLeft(o, 0));
    var p2 := CreditTurn(market, todo, p1, IsLeft(o, 1));
    CreditTurnIs(market, todo, p1, IsLeft(o, 1));
    var p3 := CreditTurn(market, todo, p2, IsLeft(o, 2));
    CreditTurnIs(market, todo, p2, IsLeft(o, 2));
    CreditTurnIs(market, todo, p3, IsLeft(o, 3));
  }

  /**
   Two settlements of one market that reach the same bet, in every order of their checks and commits: the bet is paid
   twice exactly when each checks before the other commits and both payouts fit the balance column.
   */
  lemma DoubleCreditIffOverlap(market: Id, todo: seq<Id>, db: DB, o: Order)
    requires todo != [] && todo[0] in db.bets && NoRow(db, todo[0], CREDIT) && IsOrder(o)
    ensures var after := CreditTurns(market, todo, AtTheirCredits(db, todo), o, 4).db;
            var id := todo[0]; var bet := db.bets[id]; var have := Balance(db.wallets, bet.user);
            && CountRows(after.ledger, CREDIT, id)
               == (if have + bet.payout > INT4_MAX then 0
                   else if ChecksFirst(o) && have + 2 * bet.payout <= INT4_MAX then 2 else 1)
            && Balance(after.wallets, bet.user) == have + CountRows(after.ledger, CREDIT, id) * bet.payout
  {
    CountZero(db.ledger, CREDIT, todo[0]);
    hide CreditTurns, ChecksFirst, PaidOnce, CountRows;
    CreditsRaced(market, todo, db, o);
    var bet, once := db.bets[todo[0]], PaidOnce(db, todo[0]);
    if HasRoom(db, bet) {
      PaidOnceIs(db, todo[0]);
      if HasRoom(once, bet) {
        PaidOnceIs(once, todo[0]);
      }
    }
  }

  // ---- a settlement beside a status update --------------------------------------------------------

  /** A market mutation first reads the market, then does the rest. */
  datatype Stage = Reading | Writing | Ended

  datatype Mutators = Mutators(db: DB, update: Stage, settle: Stage)

  /** What the two calls were asked for; `order` and `faults` are settle's snapshot and its failures. */
  datatype Mutation = Mutation(market: Id, status: MarketStatus, result: MarketResult, order: seq<Id>, faults: Faults)

  /** The rest of settle: its loop, then the machine's last step, the market's status write. */
  function Finished(db: DB, m: Mutation): DB
    requires forall b <- m.order :: b in db.bets
  {
    AdminStep(SettleMany(db, m.order, m.result, m.faults).0, m.market, CreditCheck(m.result, []), []).0
  }

  predicate MayMutate(db: DB, market: Id)
  {
    market in db.markets && !db.markets[market].status.SETTLED?
  }

  function UpdateTurn(m: Mutation, s: Mutators): Mutators
  {
    match s.update
    case Reading => s.(update := if MayMutate(s.db, m.market) then Writing else Ended)
    case Writing => s.(db := AdminStep(s.db, m.market, StatusUpdate(m.status), []).0, update := Ended)
    case Ended => s
  }

  function SettleTurn(m: Mutation, s: Mutators): Mutators
  {
    match s.settle
    case Reading => s.(settle := if MayMutate(s.db, m.market) then Writing else Ended)
    case Writing =>
      if forall b <- m.order :: b in s.db.bets then s.(db := Finished(s.db, m), settle := Ended) else s
    case Ended => s
  }

  function MutationTurns(m: Mutation, s: Mutators, o: Order, turn: nat): Mutators
  {
    if turn == 0 then s
    else
      var before := MutationTurns(m, s, o, turn - 1);
      if IsLeft(o, turn - 1) then UpdateTurn(m, before) else SettleTurn(m, before)
  }

  /** settle's loop pays and settles bets; it never touches a market. */
  lemma {:induction false} LoopKeepsMarkets(db: DB, order: seq<Id>, result: MarketResult, faults: Faults)
    requires forall b <- order :: b in db.bets
    ensures SettleMany(db, order, result, faults).0.markets == db.markets
  {
    if order != [] {
      LoopKeepsMarkets(db, order[..|order| - 1], result, faults);
    }
  }

  lemma FinishedIs(db: DB, m: Mutation)
    requires m.market in db.markets && forall b <- m.order :: b in db.bets
    ensures Finished(db, m).markets == SetMarket(db, m.market, MarketStatus.SETTLED).markets
    ensures Finished(db, m).bets.Keys == db.bets.Keys
  {
    LoopKeepsMarkets(db, m.order, m.result, m.faults);
    hide SettleMany;
  }

  /**
   A settlement and a status update of one market, in every order of their reads and writes: the market ends SETTLED
   unless settle finishes between the update's read and its write. Then the update reopens a settled market.
   */
  lemma SettledUnlessReopened(db: DB, m: Mutation, o: Order)
    requires MayMutate(db, m.market) && IsOrder(o) && forall b <- m.order :: b in db.bets
    ensures var end := MutationTurns(m, Mutators(db, Reading, Reading), o, 4);
            var reopens := o.leftCheck < o.rightCommit < o.leftCommit;
            && m.market in end.db.markets
            && end.db.markets[m.market].status == (if reopens then m.status else MarketStatus.SETTLED)
  {
    hide Finished;
    var s := Mutators(db, Reading, Reading);
    var s1 := MutationTurns(m, s, o, 1);
    var s2 := MutationTurns(m, s, o, 2);
    var s3 := MutationTurns(m, s, o, 3);
    assert MutationTurns(m, s, o, 0) == s;
    assert s1 == (if IsLeft(o, 0) then UpdateTurn(m, s) else SettleTurn(m, s));
    assert s2 == (if IsLeft(o, 1) then UpdateTurn(m, s1) else SettleTurn(m, s1));
    assert s3 == (if IsLeft(o, 2) then UpdateTurn(m, s2) else SettleTurn(m, s2));
    FinishedIs(s1.db, m);
    FinishedIs(s2.db, m);
    FinishedIs(s3.db, m);
  }
}
