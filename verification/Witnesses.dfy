/** The losses the other modules delimit do occur: for each, a reachable state of the machine with concrete requests. */
module Witnesses {
  import opened Types
  import opened Ledger
  import opened Protocol
  import opened Invariant
  import opened Preservation
  import opened Guarantees
  import opened Recovery
  import opened Placement
  import opened Settlement
  import opened CrashRetry
  import opened SettleRun
  import opened Delivery
  import opened Overlap
  import opened Traffic

  const USER: Id := 0
  const MARKET: Id := 0
  const FUNDS: Id := 1
  const BIG_BET: Id := 2
  const SMALL_BET: Id := 3

  /** The id the database gives the bet; a client may use it as the key of a deposit. */
  const BET: Id := 4

  const STAKE: nat := 1_000_000

  const REQUESTS: Requests := (ref: Id) =>
    if ref == FUNDS then DepositRequest(USER, STAKE)
    else if ref == BIG_BET then BetRequest(USER, false, MARKET, STAKE)
    else if ref == SMALL_BET then BetRequest(USER, false, MARKET, 100)
    else DepositRequest(USER, 500)

  const FINE: Faults := (b: Id) => Fine
  const FAILING: Faults := (b: Id) => CreditThrows
  const NO_FAULTS: WorkerFaults := WorkerFaults(false, NoFault, false)

  /** The world runs nothing, has published what is in its tables' queues, and its tables are these. */
  ghost predicate Rests(w: World, db: DB)
  {
    Reachable(REQUESTS, w) && w.db == db && w.calls == map[] && w.admin == map[] && w.worker.Idle?
  }

  lemma Extend(w: World, run: seq<Action>) returns (v: World)
    requires Reachable(REQUESTS, w) && Legal(REQUESTS, w, run)
    ensures v == Run(REQUESTS, w, run) && Reachable(REQUESTS, v)
  {
    hide Reachable, Legal, Run;
    v := Run(REQUESTS, w, run);
    ReachableRun(REQUESTS, w, run);
  }

  // ---- a funded user, an open market, a bet -------------------------------------------------------

  function FundedDb(odds: nat): DB
  {
    EMPTY_DB.(wallets := map[USER := STAKE], ledger := [Row(USER, DEPOSIT, STAKE, STAKE, FUNDS)],
              markets := map[MARKET := Market(odds, OPEN)])
  }

  lemma Opened(odds: nat) returns (w: World)
    requires 101 <= odds <= INT4_MAX
    ensures Rests(w, EMPTY_DB.(markets := map[MARKET := Market(odds, OPEN)]))
  {
    var a := CreateMarket(MARKET, odds);
    assert Legal(REQUESTS, INIT, []) && Run(REQUESTS, INIT, []) == INIT;
    RunOne(REQUESTS, INIT, [], a);
    w := Run(REQUESTS, INIT, [] + [a]);
  }

  lemma DepositRuns(odds: nat, newId: Id)
    ensures var db := EMPTY_DB.(markets := map[MARKET := Market(odds, OPEN)]);
            RunCall(REQUESTS(FUNDS), FUNDS, db, DepositCheck, newId, ALL_STEPS) == (FundedDb(odds), Return(Deposited))
  {
    var rq, db := REQUESTS(FUNDS), EMPTY_DB.(markets := map[MARKET := Market(odds, OPEN)]);
    assert RunCall(rq, FUNDS, db, DepositCheck, newId, 9) == RunCall(rq, FUNDS, db, DepositApply, newId, 8);
    assert ApplyTransaction(db, USER, DEPOSIT, STAKE, FUNDS) == FundedDb(odds);
    assert FundedDb(odds) != db by {
      assert |FundedDb(odds).ledger| == 1;
    }
  }

  lemma Funded(odds: nat) returns (w: World)
    requires 101 <= odds <= INT4_MAX
    ensures Rests(w, FundedDb(odds))
  {
    w := Opened(odds);
    DepositRuns(odds, BET);
    hide Reachable, RunCall, Legal, Run;
    var run := CallIsRun(REQUESTS, w, FUNDS, BET, ALL_STEPS);
    w := Extend(w, run);
  }

  function BetWith(odds: nat, status: BetStatus): Bet
  {
    Bet(USER, MARKET, odds, STAKE, STAKE * odds / 100, status, BIG_BET)
  }

  /** The stake is taken. */
  function DebitedDb(odds: nat): DB
  {
    FundedDb(odds).(wallets := map[USER := 0], ledger := FundedDb(odds).ledger + [Row(USER, DEBIT, STAKE, 0, BIG_BET)])
  }

  function PlacedDb(): DB
  {
    DebitedDb(200).(bets := map[BET := BetWith(200, PENDING)], cache := map[(USER, BIG_BET) := BET],
                    queue := [Message(0, PayloadOf(BET, BetWith(200, PENDING)))], nextTag := 1)
  }

  lemma PlaceRuns(odds: nat)
    ensures NoRow(FundedDb(odds), BIG_BET, DEBIT) && NoBet(FundedDb(odds), BIG_BET)
    ensures DebitAfterCheck(FundedDb(odds), USER, STAKE, BIG_BET, false) == DebitedDb(odds)
    ensures !DebitFound(FundedDb(odds), USER, BIG_BET)
  {
  }

  lemma PlacedBet() returns (w: World)
    ensures Rests(w, PlacedDb())
  {
    w := Funded(200);
    PlaceRuns(200);
    PlacementExactEffect(REQUESTS, w, BIG_BET, BET);
    var (after, next) := RunCall(REQUESTS(BIG_BET), BIG_BET, w.db, CacheRead, BET, ALL_STEPS);
    assert after == PlacedDb();
    hide Reachable, RunCall, Legal, Run;
    var run := CallIsRun(REQUESTS, w, BIG_BET, BET, ALL_STEPS);
    w := Extend(w, run);
  }

  function AcceptedDb(): DB
  {
    PlacedDb().(bets := map[BET := BetWith(200, ACCEPTED)], queue := [],
                acked := [Message(0, PayloadOf(BET, BetWith(200, PENDING)))])
  }

  lemma AcceptedBet() returns (w: World)
    ensures Rests(w, AcceptedDb())
  {
    w := PlacedBet();
    assert Handle(Delivered(w.db, 0), NO_FAULTS) == AcceptedDb();
    hide Reachable, Legal, Run;
    var run := HandleIsRun(REQUESTS, w, 0, NO_FAULTS);
    w := Extend(w, run);
  }

  // ---- the losses ---------------------------------------------------------------------------------

  /** A crash between save and publish: a saved PENDING bet that no message names and no call will announce. */
  lemma PendingBetIsStranded() returns (w: World)
    ensures Reachable(REQUESTS, w) && BET in w.db.bets && w.db.bets[BET].status.PENDING? && Unannounced(w, BET)
  {
    w := Funded(200);
    Unpublished(w);
    PlaceRuns(200);
    var rq, db := REQUESTS(BIG_BET), w.db;
    var (after, next) := RunCall(rq, BIG_BET, db, CacheRead, BET, 6);
    assert BET in after.bets && after.bets[BET].status.PENDING? && next.Continue? by {
      hide RunCall, CallStep;
      LookupSteps(rq, BIG_BET, db, BET, 6);
      DebitSteps(rq, BIG_BET, db, BET, 4);
      SaveSteps(rq, BIG_BET, DebitedDb(200), 200, BET, 1);
    }
    hide Reachable, RunCall, Legal, Run;
    var run := CallIsRun(REQUESTS, w, BIG_BET, BET, 6);
    w := Extend(w, run);
  }

  lemma Unpublished(w: World)
    requires Reachable(REQUESTS, w) && AllMessages(w.db) == multiset{}
    ensures w.published == []
  {
    ReachableInv(REQUESTS, w);
    BrokerOf(REQUESTS, w);
    hide Inv, Reachable;
    assert |multiset(w.published)| == 0;
  }

  /** A credit that fails while the market is settled: an ACCEPTED bet of a SETTLED market. */
  lemma AcceptedBetIsStranded() returns (w: World)
    ensures Reachable(REQUESTS, w) && BET in w.db.bets && w.db.bets[BET].status.ACCEPTED?
    ensures Closed(w.db, w.db.bets[BET].market)
  {
    w := AcceptedBet();
    SettleFails();
    hide Reachable, Legal, Run, SettleMany;
    var run := SettleIsRun(REQUESTS, w, MARKET, WIN, Completed([BET], FAILING));
    w := Extend(w, run);
  }

  lemma SettleFails()
    ensures IsSnapshot(AcceptedDb(), MARKET, [BET])
    ensures SettleMany(AcceptedDb(), [BET], WIN, FAILING).0 == AcceptedDb()
  {
    var db := AcceptedDb();
    LoopStarts(db, WIN, FAILING);
    assert [BET][..0] == [] && [BET][..1] == [BET];
    LoopTurns(db, [BET], 0, WIN, FAILING);
    assert SettleOne(db, BET, WIN, FAILING(BET)).0 == db;
  }

  /** A bet accepted only after its market was settled. */
  lemma LateBetIsStranded() returns (w: World)
    ensures Reachable(REQUESTS, w) && BET in w.db.bets && w.db.bets[BET].status.ACCEPTED?
    ensures Closed(w.db, w.db.bets[BET].market) && (forall m <- w.writes :: m.bet == BET ==> !m.to.SETTLED?)
  {
    w := PlacedBet();
    var closed := PlacedDb().(markets := map[MARKET := Market(200, MarketStatus.SETTLED)]);
    LoopStarts(PlacedDb(), WIN, FINE);
    assert IsSnapshot(PlacedDb(), MARKET, []);
    assert SetMarket(PlacedDb(), MARKET, MarketStatus.SETTLED) == closed;
    var late := Handle(Delivered(closed, 0), NO_FAULTS);
    assert late.bets == map[BET := BetWith(200, ACCEPTED)] && late.markets == closed.markets;
    hide Reachable, Legal, Run, SettleMany, Handle;
    var run := SettleIsRun(REQUESTS, w, MARKET, WIN, Completed([], FINE));
    w := Extend(w, run);
    run := HandleIsRun(REQUESTS, w, 0, NO_FAULTS);
    w := Extend(w, run);
    SettledWritesSettle(w, BET);
  }

  lemma SettledWritesSettle(w: World, bet: Id)
    requires Reachable(REQUESTS, w) && bet in w.db.bets && !w.db.bets[bet].status.SETTLED?
    ensures forall m <- w.writes :: m.bet == bet ==> !m.to.SETTLED?
  {
    StatusHistoriesAreLegal(REQUESTS, w);
    hide Reachable;
    forall i | 0 <= i < |w.writes| && w.writes[i].bet == bet ensures !w.writes[i].to.SETTLED? {
      if w.writes[i].to.SETTLED? {
        SettledStays(w.writes, bet, i);
      }
    }
  }

  lemma {:induction false} SettledStays(writes: seq<Write>, bet: Id, at: nat)
    requires LegalHistory(writes) && at < |writes| && writes[at].bet == bet && writes[at].to.SETTLED?
    ensures StatusAfter(writes, bet).SETTLED?
    decreases |writes|
  {
    var front, last := writes[..|writes| - 1], writes[|writes| - 1];
    if at < |front| {
      assert forall i :: 0 <= i < |front| ==> front[..i] == writes[..i];
      SettledStays(front, bet, at);
      assert last.from == StatusAfter(writes[..|writes| - 1], last.bet);
    }
  }

  /** A debited request whose payout does not fit its column: every retry is refused and the stake stays taken. */
  lemma StakeIsStranded() returns (w: World)
    ensures Reachable(REQUESTS, w) && NoBet(w.db, BIG_BET) && CountRows(w.db.ledger, DEBIT, BIG_BET) == 1
    ensures forall newId :: RunCall(REQUESTS(BIG_BET), BIG_BET, w.db, CacheRead, newId, ALL_STEPS).1 == Return(Refused)
  {
    w := Funded(214_749);
    PlaceRuns(214_749);
    PlacementExactEffect(REQUESTS, w, BIG_BET, BET);
    var (after, next) := RunCall(REQUESTS(BIG_BET), BIG_BET, w.db, CacheRead, BET, ALL_STEPS);
    assert after == DebitedDb(214_749);
    hide RunCall, Legal, Run;
    var run := CallIsRun(REQUESTS, w, BIG_BET, BET, ALL_STEPS);
    hide Reachable;
    w := Extend(w, run);
    OneDebit();
    forall newId: Id
      ensures RunCall(REQUESTS(BIG_BET), BIG_BET, w.db, CacheRead, newId, ALL_STEPS).1 == Return(Refused)
    {
      RetryAfterDebit(REQUESTS, w, BIG_BET, newId);
    }
  }

  lemma OneDebit()
    ensures var ledger := DebitedDb(214_749).ledger;
            CountRows(ledger, DEBIT, BIG_BET) == 1 && HasRow(ledger, USER, BIG_BET, DEBIT)
  {
    var ledger := DebitedDb(214_749).ledger;
    CountZero(FundedDb(214_749).ledger, DEBIT, BIG_BET);
    CountAppend(FundedDb(214_749).ledger, ledger[1], DEBIT, BIG_BET);
    assert ledger[1].ref == BIG_BET;
  }

  /** A deposit under the id of the user's paid bet: answered, and never counted. */
  lemma DepositIsLost() returns (w: World)
    ensures Reachable(REQUESTS, w) && !HasRow(w.db.ledger, USER, BET, DEBIT)
    ensures var (after, next) := RunCall(DepositRequest(USER, 500), BET, w.db, DepositCheck, 0, ALL_STEPS);
            next == Return(Deposited) && after == w.db && !HasRow(after.ledger, USER, BET, DEPOSIT)
  {
    w := AcceptedBet();
    SettlePays();
    hide Reachable, Legal, Run, SettleMany;
    var run := SettleIsRun(REQUESTS, w, MARKET, WIN, Completed([BET], FINE));
    w := Extend(w, run);
    AnsweredByRow(w.db, 500, BET, 2);
  }

  /** A deposit under the key of the user's own bet: its DEBIT row answers it. */
  lemma DepositIsTakenForStake() returns (w: World)
    ensures Reachable(REQUESTS, w) && !HasRow(w.db.ledger, USER, BIG_BET, CREDIT)
    ensures var (after, next) := RunCall(DepositRequest(USER, 500), BIG_BET, w.db, DepositCheck, 0, ALL_STEPS);
            next == Return(Deposited) && after == w.db && !HasRow(after.ledger, USER, BIG_BET, DEPOSIT)
  {
    w := PlacedBet();
    hide Reachable;
    AnsweredByRow(w.db, 500, BIG_BET, 1);
  }

  lemma AnsweredByRow(db: DB, amount: nat, ref: Id, at: nat)
    requires at < |db.ledger| && db.ledger[at].user == USER && db.ledger[at].ref == ref
    ensures RunCall(DepositRequest(USER, amount), ref, db, DepositCheck, 0, ALL_STEPS) == (db, Return(Deposited))
  {
    assert HasAnyRow(db.ledger, USER, ref);
  }

  function PaidDb(): DB
  {
    var wins := STAKE * 2;
    AcceptedDb().(bets := map[BET := BetWith(200, BetStatus.SETTLED)], wallets := map[USER := wins],
                  ledger := AcceptedDb().ledger + [Row(USER, CREDIT, wins, wins, BET)])
  }

  lemma SettlePays()
    ensures IsSnapshot(AcceptedDb(), MARKET, [BET])
    ensures SettleMany(AcceptedDb(), [BET], WIN, FINE).0 == PaidDb()
    ensures PaidDb().ledger[2].user == USER && PaidDb().ledger[2].ref == BET
  {
    LoopStarts(AcceptedDb(), WIN, FINE);
    assert [BET][..0] == [];
    assert !HasRow(AcceptedDb().ledger, USER, BET, CREDIT);
    assert Credit(AcceptedDb(), BET).wallets == PaidDb().wallets;
  }

  /** A clean history and one whose completing attempt fails on an open bet: they end differently. */
  lemma RetryDiverges() returns (w: World, once: seq<Attempt>, retried: seq<Attempt>)
    ensures Reachable(REQUESTS, w) && HistoryOk(w.db, MARKET, WIN, once) && HistoryOk(w.db, MARKET, WIN, retried)
    ensures Clean(w.db, MARKET, WIN, once) && !Clean(w.db, MARKET, WIN, retried)
    ensures !SameOutcome(RunHistory(w.db, MARKET, WIN, once), RunHistory(w.db, MARKET, WIN, retried))
  {
    w := AcceptedBet();
    SettlePays();
    once, retried := [Completed([BET], FINE)], [Completed([BET], FAILING)];
    ReachableIsSound(REQUESTS, w);
    hide Reachable;
    AllWroteIff(AcceptedDb(), MARKET, [BET], WIN, FINE);
    FineWrites();
    assert Live(AcceptedDb(), MARKET, BET) && !Harmless(WIN, FAILING(BET));
    hide SettleMany, Fits;
    RetryMatchesUninterrupted(w.db, MARKET, WIN, once, retried);
  }

  lemma FineWrites()
    ensures forall o <- SettleMany(AcceptedDb(), [BET], WIN, FINE).1 :: o.wrote
  {
    LoopStarts(AcceptedDb(), WIN, FINE);
    assert [BET][..0] == [];
    WroteOne(AcceptedDb(), BET, WIN, Fine);
  }

  /** A redelivery of an ACCEPTED bet's message, after a crash before the ack, is dead-lettered. */
  lemma RedeliveryIsDeadLettered() returns (w: World)
    ensures Reachable(REQUESTS, w) && BET in w.db.bets && w.db.bets[BET].status.ACCEPTED?
    ensures w.db.acked == [] && w.db.dead == [Message(0, PayloadOf(BET, BetWith(200, PENDING)))]
  {
    w := PlacedBet();
    var db := AcceptedDb().(queue := PlacedDb().queue, acked := []);
    w := CrashAfterAccept(w, db);
    var after := Handle(Delivered(db, 0), NO_FAULTS);
    assert after.dead == [Message(0, PayloadOf(BET, BetWith(200, PENDING)))]
           && after.acked == [] && after.bets == db.bets;
    hide Reachable, Legal, Run;
    var run := HandleIsRun(REQUESTS, w, 0, NO_FAULTS);
    w := Extend(w, run);
  }

  lemma CrashAfterAccept(w: World, db: DB) returns (v: World)
    requires Rests(w, PlacedDb()) && db == AcceptedDb().(queue := PlacedDb().queue, acked := [])
    ensures Rests(v, db)
  {
    hide Inv;
    var run := AcceptOnly(w);
    run := Step(REQUESTS, w, run, WorkerDies);
    assert Run(REQUESTS, w, run).db == db;
    hide Reachable, Legal;
    v := Extend(w, run);
  }

  /** The delivery as far as the bet's status write. */
  lemma AcceptOnly(w: World) returns (run: seq<Action>)
    requires Rests(w, PlacedDb())
    ensures Legal(REQUESTS, w, run)
    ensures var v := Run(REQUESTS, w, run);
            && v.calls == map[] && v.admin == map[] && v.db.inflight == Some(PlacedDb().queue[0])
            && v.db == AcceptedDb().(inflight := v.db.inflight, acked := [])
  {
    hide Inv, Reachable;
    run := Take1(REQUESTS, w, 0);
    var db := Delivered(w.db, 0);
    hide Enabled, Apply;
    run := WorkerOnce(REQUESTS, w, run, db, ReadBet);
    run := WorkerOnce(REQUESTS, w, run, db, WriteBet);
  }

  /** Two overlapping calls of one request, from a reachable state: the stake is taken twice. */
  lemma StakeIsTakenTwice() returns (w: World, o: Order)
    ensures Reachable(REQUESTS, w) && IsOrder(o) && ChecksFirst(o)
    ensures var race := DebitTurns(REQUESTS(SMALL_BET), SMALL_BET, AtTheirChecks(w.db, 200), o, 4);
            CountRows(race.db.ledger, DEBIT, SMALL_BET) == 2
  {
    w := Funded(200);
    o := Order(0, 2, 1, 3);
    hide Reachable, DebitTurns;
    DoubleDebitIffOverlap(REQUESTS(SMALL_BET), SMALL_BET, w.db, 200, o);
  }

  /** Two overlapping settlements of one market, from a reachable state: its bet is paid twice. */
  lemma BetIsPaidTwice() returns (w: World, o: Order)
    ensures Reachable(REQUESTS, w) && IsSnapshot(w.db, MARKET, [BET]) && IsOrder(o) && ChecksFirst(o)
    ensures var after := CreditTurns(MARKET, [BET], AtTheirCredits(w.db, [BET]), o, 4).db;
            CountRows(after.ledger, CREDIT, BET) == 2
  {
    w := AcceptedBet();
    SettlePays();
    o := Order(0, 2, 1, 3);
    hide Reachable, CreditTurns;
    DoubleCreditIffOverlap(MARKET, [BET], w.db, o);
  }

  /** A status update that a settlement overtakes, from a reachable state: the settled market is open again. */
  lemma MarketIsReopened() returns (w: World, m: Mutation, o: Order)
    ensures Reachable(REQUESTS, w) && IsSnapshot(w.db, m.market, m.order) && IsOrder(o)
    ensures var end := MutationTurns(m, Mutators(w.db, Reading, Reading), o, 4);
            m.market == MARKET && MARKET in end.db.markets && end.db.markets[MARKET].status.OPEN?
  {
    w := AcceptedBet();
    SettlePays();
    m := Mutation(MARKET, OPEN, WIN, [BET], FINE);
    o := Order(0, 3, 1, 2);
    hide Reachable, MutationTurns;
    SettledUnlessReopened(w.db, m, o);
  }

  // ---- settlements amid traffic -------------------------------------------------------------------

  /** The settle loop of the one bet, just after its snapshot. */
  lemma SnapshotTaken(w: World) returns (s: World)
    requires Rests(w, AcceptedDb())
    ensures Legal(REQUESTS, w, [StartSettle(MARKET, WIN)])
    ensures var u := Run(REQUESTS, w, [StartSettle(MARKET, WIN)]);
            && MARKET in u.admin && u.admin[MARKET] == Snapshot(WIN) && Enabled(REQUESTS, u, StepAdmin(MARKET, [BET]))
            && s == Apply(REQUESTS, u, StepAdmin(MARKET, [BET]))
    ensures s.db == AcceptedDb() && s.admin == map[MARKET := CreditCheck(WIN, [BET])]
  {
    hide Reachable, AfterCall, AfterWorker;
    SettlePays();
    assert [StartSettle(MARKET, WIN)][..0] == [];
    assert Run(REQUESTS, w, []) == w;
    var u := Run(REQUESTS, w, [StartSettle(MARKET, WIN)]);
    assert u.db == AcceptedDb() && u.admin == map[MARKET := Snapshot(WIN)];
    s := Apply(REQUESTS, u, StepAdmin(MARKET, [BET]));
  }

  /** A bet given up amid traffic: the market closes over it. */
  lemma BetIsGivenUp() returns (w: World, c: Completion)
    ensures Reachable(REQUESTS, w) && MARKET !in w.admin && IsOpen(w.db, MARKET, BET)
    ensures Completes(REQUESTS, w, MARKET, WIN, c) && BET in Failed(REQUESTS, w, MARKET, WIN, c)
  {
    w := AcceptedBet();
    var s := SnapshotTaken(w);
    c := Completion([StartSettle(MARKET, WIN)], [BET], [SkipBet(MARKET), CreateWallet(9), StepAdmin(MARKET, [])]);
    hide Reachable, Enabled, Apply, Failures;
    GivesUp(s);
  }

  lemma Then(s: World, run: seq<Action>, a: Action) returns (v: World)
    requires Legal(REQUESTS, s, run) && Enabled(REQUESTS, Run(REQUESTS, s, run), a)
    ensures Legal(REQUESTS, s, run + [a]) && v == Run(REQUESTS, s, run + [a])
    ensures v == Apply(REQUESTS, Run(REQUESTS, s, run), a)
    ensures Failures(REQUESTS, s, run + [a], MARKET)
            == Failures(REQUESTS, s, run, MARKET) + GivenUp(Run(REQUESTS, s, run), a, MARKET)
  {
    hide Enabled, Apply, GivenUp;
    RunOne(REQUESTS, s, run, a);
    assert (run + [a])[..|run|] == run;
    v := Run(REQUESTS, s, run + [a]);
  }

  lemma GivesUp(s: World)
    requires s.db == AcceptedDb() && s.admin == map[MARKET := CreditCheck(WIN, [BET])]
    ensures var after := [SkipBet(MARKET), CreateWallet(9), StepAdmin(MARKET, [])];
            && Legal(REQUESTS, s, after) && MARKET !in Run(REQUESTS, s, after).admin
            && BET in Failures(REQUESTS, s, after, MARKET)
  {
    hide AfterCall, AfterWorker, Legal, Run, Failures, AcceptedDb;
    var a, b, d := SkipBet(MARKET), CreateWallet(9), StepAdmin(MARKET, []);
    NoSteps(s);
    var v := Then(s, [], a);
    v := Then(s, [] + [a], b);
    v := Then(s, [] + [a] + [b], d);
    assert [] + [a] + [b] + [d] == [a, b, d];
  }

  lemma NoSteps(s: World)
    ensures Legal(REQUESTS, s, []) && Run(REQUESTS, s, []) == s && Failures(REQUESTS, s, [], MARKET) == {}
  {
  }

  /** A bet settled and paid amid traffic. */
  lemma BetIsPaidAmidTraffic() returns (w: World, c: Completion)
    ensures Reachable(REQUESTS, w) && MARKET !in w.admin && IsOpen(w.db, MARKET, BET)
    ensures Completes(REQUESTS, w, MARKET, WIN, c) && Failed(REQUESTS, w, MARKET, WIN, c) == {}
  {
    w := AcceptedBet();
    var s := SnapshotTaken(w);
    var step := StepAdmin(MARKET, []);
    c := Completion([StartSettle(MARKET, WIN)], [BET], [step, CreateWallet(9), step, step, step, step]);
    hide Reachable, Enabled, Apply, Failures;
    PaysIt(s);
  }

  /** One step of the settle loop that gives nothing up. */
  lemma LoopGoesOn(s: World, run: seq<Action>, admin: Admin, next: Option<Admin>) returns (v: World)
    requires Legal(REQUESTS, s, run) && Run(REQUESTS, s, run).admin == map[MARKET := admin] && !admin.Snapshot?
    requires AdminStep(Run(REQUESTS, s, run).db, MARKET, admin, []).1 == next
    requires GivenUp(Run(REQUESTS, s, run), StepAdmin(MARKET, []), MARKET) == {}
    ensures Legal(REQUESTS, s, run + [StepAdmin(MARKET, [])]) && v == Run(REQUESTS, s, run + [StepAdmin(MARKET, [])])
    ensures v.db == AdminStep(Run(REQUESTS, s, run).db, MARKET, admin, []).0
    ensures v.admin == if next.Some? then map[MARKET := next.value] else map[]
    ensures Failures(REQUESTS, s, run + [StepAdmin(MARKET, [])], MARKET) == Failures(REQUESTS, s, run, MARKET)
  {
    hide AfterCall, AfterWorker, Legal, Run, Failures, GivenUp, AdminStep, AdminWrite;
    v := Then(s, run, StepAdmin(MARKET, []));
  }

  /** The tables once the other user's wallet is open, and once the bet is paid as well. */
  function WithWallet(): DB
  {
    OpenWallet(AcceptedDb(), 9)
  }

  lemma PaymentStages(w: World)
    ensures AdminStep(AcceptedDb(), MARKET, CreditCheck(WIN, [BET]), [])
            == (AcceptedDb(), Some(CreditApply(WIN, [BET])))
    ensures AdminStep(WithWallet(), MARKET, CreditApply(WIN, [BET]), []).1 == Some(StatusWrite(WIN, [BET]))
    ensures w.admin == map[MARKET := CreditCheck(WIN, [BET])] ==> GivenUp(w, StepAdmin(MARKET, []), MARKET) == {}
    ensures w.db == WithWallet() && w.admin == map[MARKET := CreditApply(WIN, [BET])] ==>
              GivenUp(w, StepAdmin(MARKET, []), MARKET) == {}
  {
    assert !HasRow(AcceptedDb().ledger, USER, BET, CREDIT);
    assert WithWallet().wallets[USER] == 0 && WithWallet().bets[BET] == BetWith(200, ACCEPTED);
  }

  lemma PaysIt(s: World)
    requires s.db == AcceptedDb() && s.admin == map[MARKET := CreditCheck(WIN, [BET])]
    ensures var step := StepAdmin(MARKET, []); var after := [step, CreateWallet(9), step, step, step, step];
            && Legal(REQUESTS, s, after) && MARKET !in Run(REQUESTS, s, after).admin
            && Failures(REQUESTS, s, after, MARKET) == {}
  {
    hide AdminStep, AfterCall, AfterWorker, AfterAdmin, Legal, Run, Failures, AcceptedDb, GivenUp, Enabled, Apply;
    var step, open := StepAdmin(MARKET, []), CreateWallet(9);
    NoSteps(s);
    PaymentStages(s);
    var v := LoopGoesOn(s, [], CreditCheck(WIN, [BET]), Some(CreditApply(WIN, [BET])));
    v := WalletOpened(s, [] + [step]);
    PaymentStages(v);
    v := LoopGoesOn(s, [] + [step] + [open], CreditApply(WIN, [BET]), Some(StatusWrite(WIN, [BET])));
    EndsPaid(s, [] + [step] + [open] + [step]);
    assert [] + [step] + [open] + [step] + [step] + [step] + [step] == [step, open, step, step, step, step];
  }

  lemma WalletOpened(s: World, run: seq<Action>) returns (v: World)
    requires Legal(REQUESTS, s, run) && Run(REQUESTS, s, run).db == AcceptedDb()
    ensures Legal(REQUESTS, s, run + [CreateWallet(9)]) && v == Run(REQUESTS, s, run + [CreateWallet(9)])
    ensures v.db == WithWallet() && v.admin == Run(REQUESTS, s, run).admin
    ensures Failures(REQUESTS, s, run + [CreateWallet(9)], MARKET) == Failures(REQUESTS, s, run, MARKET)
  {
    hide AfterCall, AfterWorker, AfterAdmin, Legal, Run, Failures, AcceptedDb, OpenWallet;
    v := Then(s, run, CreateWallet(9));
  }

  /** From the status write on. */
  lemma EndsPaid(s: World, run: seq<Action>)
    requires Legal(REQUESTS, s, run) && Run(REQUESTS, s, run).admin == map[MARKET := StatusWrite(WIN, [BET])]
    ensures var step := StepAdmin(MARKET, []);
            && Legal(REQUESTS, s, run + [step] + [step] + [step])
            && MARKET !in Run(REQUESTS, s, run + [step] + [step] + [step]).admin
            && Failures(REQUESTS, s, run + [step] + [step] + [step], MARKET) == Failures(REQUESTS, s, run, MARKET)
  {
    hide Legal, Run, Failures;
    var step := StepAdmin(MARKET, []);
    assert [BET][1..] == [];
    var v := LoopGoesOn(s, run, StatusWrite(WIN, [BET]), Some(Notify(WIN, [BET])));
    v := LoopGoesOn(s, run + [step], Notify(WIN, [BET]), Some(CreditCheck(WIN, [])));
    v := LoopGoesOn(s, run + [step] + [step], CreditCheck(WIN, []), None);
  }
}
