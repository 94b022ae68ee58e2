/**
 The money protocol as a step machine. A `World` is the durable tables plus the control state of
 everything that is running: one call per client key, one mutation per market, one message handler.
 Every step performs at most one read or one write, so any two activities interleave between them;
 any activity may die after any step.
 */
module Protocol {
  import opened Types
  import opened Ledger

  /** What each clientMutationId stands for: one key is one fixed request of one user. */
  type Requests = Id -> Request

  /** Where a client call (deposit or placeBet) stands; the arguments are its local variables. */
  datatype Call =
    | DepositCheck
    | DepositApply
    | CacheRead
    | CacheHit(betId: Id)
    | BetLookup
    | MarketCheck
    | DebitCheck(odds: nat)
    | DebitApply(odds: nat)
    | BetSave(odds: nat)
    | CacheWrite(betId: Id, odds: nat)
    | Publish(betId: Id, odds: nat)

  datatype Response = Placed(betId: Id) | Deposited | Refused

  datatype CallOutcome = Continue(call: Call) | Return(response: Response)

  /** Where a market mutation stands. `todo` starts with the bet the settle loop is at. */
  datatype Admin =
    | StatusUpdate(status: MarketStatus)
    | Snapshot(result: MarketResult)
    | CreditCheck(result: MarketResult, todo: seq<Id>)
    | CreditApply(result: MarketResult, todo: seq<Id>)
    | StatusWrite(result: MarketResult, todo: seq<Id>)
    | Notify(result: MarketResult, todo: seq<Id>)

  /** Where SettlementWorker.handleMessage stands. */
  datatype Worker = Idle | ReadBet | WriteBet | Written | CheckTerminal | AlreadyTerminal | Failing

  /** One UPDATE of a bet's status column; `result` is set when settle wrote it. */
  datatype Write = Write(bet: Id, from: BetStatus, to: BetStatus, result: Option<MarketResult>)

  /** The last four fields are history: they are never read by a step. */
  datatype World = World(
    db: DB,
    calls: map<Id, Call>,
    admin: map<Id, Admin>,
    worker: Worker,
    writes: seq<Write>,
    settleRuns: set<(Id, MarketResult)>,
    published: seq<Message>,
    responses: set<(Id, Response)>)

  const INIT: World := World(EMPTY_DB, map[], map[], Idle, [], {}, [], {})

  datatype Action =
    | StartCall(ref: Id)
    | StepCall(ref: Id, newId: Id)
    | EndCall(ref: Id)
    | CreateWallet(user: Id)
    | CreateMarket(market: Id, odds: nat)
    | StartUpdate(market: Id, status: MarketStatus)
    | StartSettle(market: Id, result: MarketResult)
    | StepAdmin(market: Id, order: seq<Id>)
    | SkipBet(market: Id)
    | EndAdmin(market: Id)
    | Deliver(index: nat)
    | StepWorker
    | WorkerThrows
    | WorkerDies
    | Replay(index: nat)
    | Evict(keys: set<(Id, Id)>)

  // ---- reads ----------------------------------------------------------------------------------

  predicate HasBet(db: DB, user: Id, ref: Id)
  {
    exists b <- db.bets :: db.bets[b].user == user && db.bets[b].ref == ref
  }

  ghost function FindBet(db: DB, user: Id, ref: Id): (b: Id)
    requires HasBet(db, user, ref)
    ensures b in db.bets && db.bets[b].user == user && db.bets[b].ref == ref
  {
    var b :| b in db.bets && db.bets[b].user == user && db.bets[b].ref == ref;
    b
  }

  /** The result of settle's query for ACCEPTED bets, in any order the database may choose. */
  ghost predicate IsSnapshot(db: DB, market: Id, order: seq<Id>)
  {
    && (forall b :: b in order <==> b in db.bets && db.bets[b].market == market && db.bets[b].status.ACCEPTED?)
    && (forall i, j :: 0 <= i < j < |order| ==> order[i] != order[j])
  }

  // ---- writes ---------------------------------------------------------------------------------

  /** INSERT of a bet: refused by the unique referenceId, and when the payout does not fit its column. */
  predicate CanInsert(db: DB, bet: Bet)
  {
    bet.payout <= INT4_MAX && forall b <- db.bets :: db.bets[b].ref != bet.ref
  }

  function SetStatus(db: DB, id: Id, status: BetStatus): DB
  {
    if id in db.bets then db.(bets := db.bets[id := db.bets[id].(status := status)]) else db
  }

  function SetMarket(db: DB, market: Id, status: MarketStatus): DB
  {
    if market in db.markets
    then db.(markets := db.markets[market := db.markets[market].(status := status)])
    else db
  }

  function Enqueue(db: DB, payload: Payload): DB
  {
    db.(queue := db.queue + [Message(db.nextTag, payload)], nextTag := db.nextTag + 1)
  }

  // ---- client calls ---------------------------------------------------------------------------

  function FirstStep(rq: Request): Call
  {
    if rq.DepositRequest? then DepositCheck else CacheRead
  }

  function NewBet(rq: Request, ref: Id, odds: nat): Bet
    requires rq.BetRequest?
  {
    Bet(rq.user, rq.market, odds, rq.stake, Payout(rq.stake, odds), PENDING, ref)
  }

  /** One step of a call: the tables it leaves and where the call goes next. */
  ghost function CallStep(rq: Request, ref: Id, db: DB, call: Call, newId: Id): (DB, CallOutcome)
  {
    if rq.DepositRequest? then
      match call
      case DepositCheck =>
        (db, if HasAnyRow(db.ledger, rq.user, ref) then Return(Deposited) else Continue(DepositApply))
      case DepositApply =>
        var db' := ApplyTransaction(db, rq.user, DEPOSIT, rq.amount, ref);
        (db', Return(if db' == db then Refused else Deposited))
      case _ => (db, Return(Refused))
    else
      match call
      case CacheRead =>
        if rq.admin then (db, Return(Refused))
        else if (rq.user, ref) in db.cache then (db, Continue(CacheHit(db.cache[(rq.user, ref)])))
        else (db, Continue(BetLookup))
      case CacheHit(id) =>
        (db, if id in db.bets then Return(Placed(id)) else Continue(BetLookup))
      case BetLookup =>
        (db, if HasBet(db, rq.user, ref) then Return(Placed(FindBet(db, rq.user, ref))) else Continue(MarketCheck))
      case MarketCheck =>
        (db, if rq.market in db.markets && db.markets[rq.market].status.OPEN?
             then Continue(DebitCheck(db.markets[rq.market].odds)) else Return(Refused))
      case DebitCheck(odds) =>
        (db, if HasRow(db.ledger, rq.user, ref, DEBIT) then Continue(BetSave(odds)) else Continue(DebitApply(odds)))
      case DebitApply(odds) =>
        if NewBalance(db.wallets, rq.user, DEBIT, rq.stake).None? then (db, Return(Refused))
        else (ApplyTransaction(db, rq.user, DEBIT, rq.stake, ref), Continue(BetSave(odds)))
      case BetSave(odds) =>
        var bet := NewBet(rq, ref, odds);
        if CanInsert(db, bet)
        then (db.(bets := db.bets[newId := bet]), Continue(CacheWrite(newId, odds)))
        else (db, Return(Refused))
      case CacheWrite(id, odds) =>
        (db.(cache := db.cache[(rq.user, ref) := id]), Continue(Publish(id, odds)))
      case Publish(id, odds) =>
        (Enqueue(db, PayloadOf(id, NewBet(rq, ref, odds))), Return(Placed(id)))
      case _ => (db, Return(Refused))
  }

  /** The message a call's step publishes, if it publishes one. */
  function CallSends(rq: Request, ref: Id, db: DB, call: Call): seq<Message>
  {
    if rq.BetRequest? && call.Publish?
    then [Message(db.nextTag, PayloadOf(call.betId, NewBet(rq, ref, call.odds)))] else []
  }

  // ---- market mutations -----------------------------------------------------------------------

  /** settle's loop moves on; WIN pays before it writes, LOSS writes at once. */
  function NextBet(result: MarketResult, todo: seq<Id>): Admin
  {
    if todo == [] || result.WIN? then CreditCheck(result, todo) else StatusWrite(result, todo)
  }

  /** One step of a market mutation; None means it has finished. */
  function AdminStep(db: DB, market: Id, admin: Admin, order: seq<Id>): (DB, Option<Admin>)
  {
    match admin
    case StatusUpdate(status) => (SetMarket(db, market, status), None)
    case Snapshot(result) => (db, Some(NextBet(result, order)))
    case CreditCheck(result, todo) =>
      if todo == [] then (SetMarket(db, market, MarketStatus.SETTLED), None)
      else if todo[0] in db.bets && HasRow(db.ledger, db.bets[todo[0]].user, todo[0], CREDIT)
      then (db, Some(StatusWrite(result, todo)))
      else (db, Some(CreditApply(result, todo)))
    case CreditApply(result, todo) =>
      if todo == [] || todo[0] !in db.bets then (db, None)
      else
        var bet := db.bets[todo[0]];
        if NewBalance(db.wallets, bet.user, CREDIT, bet.payout).None?
        then (db, Some(NextBet(result, todo[1..])))
        else (ApplyTransaction(db, bet.user, CREDIT, bet.payout, todo[0]), Some(StatusWrite(result, todo)))
    case StatusWrite(result, todo) =>
      if todo == [] then (db, None)
      else (SetStatus(db, todo[0], BetStatus.SETTLED), Some(Notify(result, todo)))
    case Notify(result, todo) =>
      (db, if todo == [] then None else Some(NextBet(result, todo[1..])))
  }

  /** The bet whose status column an admin step writes, if it writes one. */
  function AdminWrite(db: DB, admin: Admin): seq<Write>
  {
    if admin.StatusWrite? && admin.todo != [] && admin.todo[0] in db.bets
    then [Write(admin.todo[0], db.bets[admin.todo[0]].status, BetStatus.SETTLED, Some(admin.result))]
    else []
  }

  // ---- the worker -----------------------------------------------------------------------------

  predicate CanAccept(db: DB, id: Id)
  {
    id in db.bets && ACCEPTED in AllowedTransitions(db.bets[id].status)
  }

  predicate IsTerminal(db: DB, id: Id)
  {
    id in db.bets && db.bets[id].status in TERMINAL_STATES
  }

  function Ack(db: DB): DB
    requires db.inflight.Some?
  {
    db.(inflight := None, acked := db.acked + [db.inflight.value])
  }

  /** nack with requeue=false: the broker moves the message to the dead-letter queue. */
  function Nack(db: DB): DB
    requires db.inflight.Some?
  {
    db.(inflight := None, dead := db.dead + [db.inflight.value])
  }

  function WorkerStep(db: DB, worker: Worker): (DB, Worker)
    requires db.inflight.Some?
  {
    var id := db.inflight.value.payload.betId;
    match worker
    case Idle => (db, Idle)
    case ReadBet => (db, if CanAccept(db, id) then WriteBet else CheckTerminal)
    case WriteBet => (SetStatus(db, id, ACCEPTED), Written)
    case CheckTerminal => (db, if IsTerminal(db, id) then AlreadyTerminal else Failing)
    case Written => (Ack(db), Idle)
    case AlreadyTerminal => (Ack(db), Idle)
    case Failing => (Nack(db), Idle)
  }

  /** A database call throws (possibly after it committed): the inner catch, then the outer one. */
  function WorkerThrow(worker: Worker): Worker
  {
    match worker
    case ReadBet | WriteBet | Written => CheckTerminal
    case CheckTerminal | AlreadyTerminal => Failing
    case _ => worker
  }

  function WorkerWrite(db: DB, worker: Worker): seq<Write>
    requires db.inflight.Some?
  {
    var id := db.inflight.value.payload.betId;
    if worker.WriteBet? && id in db.bets
    then [Write(id, db.bets[id].status, ACCEPTED, None)] else []
  }

  function Take(queue: seq<Message>, index: nat): seq<Message>
    requires index < |queue|
  {
    queue[..index] + queue[index + 1..]
  }

  // ---- the machine ----------------------------------------------------------------------------

  ghost predicate Enabled(rqs: Requests, w: World, a: Action)
  {
    match a
    case StartCall(ref) => ref !in w.calls && rqs(ref).Valid()
    case StepCall(ref, newId) => ref in w.calls && newId !in w.db.bets
    case EndCall(ref) => ref in w.calls
    case CreateWallet(_) => true
    case CreateMarket(market, odds) => market !in w.db.markets && 101 <= odds <= INT4_MAX
    case StartUpdate(market, _) =>
      market !in w.admin && market in w.db.markets && !w.db.markets[market].status.SETTLED?
    case StartSettle(market, _) =>
      market !in w.admin && market in w.db.markets && !w.db.markets[market].status.SETTLED?
    case StepAdmin(market, order) =>
      market in w.admin && (w.admin[market].Snapshot? ==> IsSnapshot(w.db, market, order))
    case SkipBet(market) =>
      market in w.admin && !w.admin[market].StatusUpdate? && !w.admin[market].Snapshot? && w.admin[market].todo != []
    case EndAdmin(market) => market in w.admin
    case Deliver(index) => w.worker.Idle? && w.db.inflight.None? && index < |w.db.queue|
    case StepWorker => !w.worker.Idle? && w.db.inflight.Some?
    case WorkerThrows => !w.worker.Idle? && w.db.inflight.Some?
    case WorkerDies => w.db.inflight.Some?
    case Replay(index) => index < |w.db.dead|
    case Evict(_) => true
  }

  ghost function AfterCall(rq: Request, w: World, ref: Id, newId: Id): World
    requires ref in w.calls
  {
    var (db, next) := CallStep(rq, ref, w.db, w.calls[ref], newId);
    if next.Continue?
    then w.(db := db, calls := w.calls[ref := next.call])
    else w.(db := db, calls := w.calls - {ref}, responses := w.responses + {(ref, next.response)},
            published := w.published + CallSends(rq, ref, w.db, w.calls[ref]))
  }

  function AfterAdmin(w: World, market: Id, order: seq<Id>): World
    requires market in w.admin
  {
    var (db, next) := AdminStep(w.db, market, w.admin[market], order);
    w.(db := db,
       admin := if next.Some? then w.admin[market := next.value] else w.admin - {market},
       writes := w.writes + AdminWrite(w.db, w.admin[market]))
  }

  function AfterWorker(w: World): World
    requires w.db.inflight.Some?
  {
    var (db, worker) := WorkerStep(w.db, w.worker);
    w.(db := db, worker := worker, writes := w.writes + WorkerWrite(w.db, w.worker))
  }

  ghost function Apply(rqs: Requests, w: World, a: Action): World
    requires Enabled(rqs, w, a)
  {
    match a
    case StartCall(ref) => w.(calls := w.calls[ref := FirstStep(rqs(ref))])
    case StepCall(ref, newId) => AfterCall(rqs(ref), w, ref, newId)
    case EndCall(ref) => w.(calls := w.calls - {ref})
    case CreateWallet(user) => w.(db := OpenWallet(w.db, user))
    case CreateMarket(market, odds) =>
      w.(db := w.db.(markets := w.db.markets[market := Market(odds, OPEN)]))
    case StartUpdate(market, status) => w.(admin := w.admin[market := StatusUpdate(status)])
    case StartSettle(market, result) =>
      w.(admin := w.admin[market := Snapshot(result)], settleRuns := w.settleRuns + {(market, result)})
    case StepAdmin(market, order) => AfterAdmin(w, market, order)
    case SkipBet(market) =>
      w.(admin := w.admin[market := NextBet(w.admin[market].result, w.admin[market].todo[1..])])
    case EndAdmin(market) => w.(admin := w.admin - {market})
    case Deliver(index) =>
      w.(db := w.db.(queue := Take(w.db.queue, index), inflight := Some(w.db.queue[index])), worker := ReadBet)
    case StepWorker => AfterWorker(w)
    case WorkerThrows => w.(worker := WorkerThrow(w.worker))
    case WorkerDies =>
      w.(db := w.db.(queue := w.db.queue + [w.db.inflight.value], inflight := None), worker := Idle)
    case Replay(index) =>
      w.(db := w.db.(dead := Take(w.db.dead, index), queue := w.db.queue + [w.db.dead[index]]))
    case Evict(keys) => w.(db := w.db.(cache := w.db.cache - keys))
  }

  /** Whether a whole list of actions can run from `w`. */
  ghost predicate Legal(rqs: Requests, w: World, run: seq<Action>)
    decreases |run|, 0
  {
    run == [] || (Legal(rqs, w, run[..|run| - 1]) && Enabled(rqs, Run(rqs, w, run[..|run| - 1]), run[|run| - 1]))
  }

  ghost function Run(rqs: Requests, w: World, run: seq<Action>): World
    requires Legal(rqs, w, run)
    decreases |run|, 1
  {
    if run == [] then w else Apply(rqs, Run(rqs, w, run[..|run| - 1]), run[|run| - 1])
  }

  lemma RunOne(rqs: Requests, w: World, run: seq<Action>, a: Action)
    requires Legal(rqs, w, run) && Enabled(rqs, Run(rqs, w, run), a)
    ensures Legal(rqs, w, run + [a]) && Run(rqs, w, run + [a]) == Apply(rqs, Run(rqs, w, run), a)
  {
    hide Enabled, Apply;
    assert (run + [a])[..|run|] == run;
  }

  lemma {:induction false} RunAppend(rqs: Requests, w: World, run: seq<Action>, more: seq<Action>)
    requires Legal(rqs, w, run) && Legal(rqs, Run(rqs, w, run), more)
    ensures Legal(rqs, w, run + more)
    ensures Run(rqs, w, run + more) == Run(rqs, Run(rqs, w, run), more)
    decreases |more|
  {
    hide Enabled, Apply;
    if more == [] {
      assert run + more == run;
    } else {
      var front, last := more[..|more| - 1], more[|more| - 1];
      RunAppend(rqs, w, run, front);
      RunOne(rqs, w, run + front, last);
      assert run + more == (run + front) + [last];
    }
  }
}
