/** SettlementWorker.handleMessage run alone on one delivery, with any of its database calls failing. */
module Delivery {
  import opened Types
  import opened Ledger
  import opened Protocol
  import opened Invariant
  import opened Preservation
  import opened Guarantees
  import opened Recovery

  /** How an UPDATE ends: it returns, it throws without effect, or it commits and then throws. */
  datatype WriteFault = NoFault | Throws | Lost

  /** Which database calls of one delivery fail. */
  datatype WorkerFaults = WorkerFaults(readThrows: bool, write: WriteFault, checkThrows: bool)

  /** BettingService.transitionStatus; the flag says whether it returned normally. */
  function TransitionStatus(db: DB, id: Id, to: BetStatus, readThrows: bool, write: WriteFault): (DB, bool)
  {
    if readThrows || id !in db.bets || to !in AllowedTransitions(db.bets[id].status) then (db, false)
    else (if write.Throws? then db else SetStatus(db, id, to), write.NoFault?)
  }

  /**
   A transition returns if and only if its calls do, the bet is stored and the move is PENDING to ACCEPTED, ACCEPTED to
   SETTLED, or either of them to VOID or CANCELLED. It has then written that status, as it has when only the write's
   reply was lost; every other bet, column and table stays, and in all other cases everything does.
   */
  lemma TransitionIs(db: DB, id: Id, to: BetStatus, readThrows: bool, write: WriteFault)
    ensures var (after, returned) := TransitionStatus(db, id, to, readThrows, write);
            var moves := !readThrows && id in db.bets && var from := db.bets[id].status;
                         || (from == PENDING && to == ACCEPTED) || (from == ACCEPTED && to == BetStatus.SETTLED)
                         || (from in {PENDING, ACCEPTED} && to in {VOID, CANCELLED});
            && (returned <==> moves && write == NoFault)
            && after == (if moves && write != Throws
                         then db.(bets := db.bets[id := db.bets[id].(status := to)]) else db)
  {
  }

  /** The terminal states are exactly those that no transition leaves. */
  lemma TerminalIffNoTransition(from: BetStatus)
    ensures from in TERMINAL_STATES <==> forall to: BetStatus :: to !in AllowedTransitions(from)
  {
    assert from !in TERMINAL_STATES ==> CANCELLED in AllowedTransitions(from);
  }

  /** handleMessage: accept the bet, or ack a bet already closed, or dead-letter the message. */
  function Handle(db: DB, faults: WorkerFaults): DB
    requires db.inflight.Some?
  {
    var id := db.inflight.value.payload.betId;
    var (after, returned) := TransitionStatus(db, id, ACCEPTED, faults.readThrows, faults.write);
    if returned || (!faults.checkThrows && IsTerminal(after, id)) then Ack(after) else Nack(after)
  }

  /**
   Each delivery is settled exactly once: the message leaves the consumer and joins either the acked or the
   dead-lettered messages. It is acked if and only if its bet was PENDING and the acceptance returned, or was already in
   a terminal state and the check for that returned. So a redelivery for a terminal bet is acked, and one for an
   ACCEPTED bet never is. A bet already past PENDING is never changed, and a PENDING one is left accepted, or as it was
   when the acceptance did not commit.
   */
  lemma HandleSettlesOnce(db: DB, faults: WorkerFaults)
    requires db.inflight.Some?
    ensures var m := db.inflight.value; var id := m.payload.betId; var after := Handle(db, faults);
            && after.inflight.None? && after.queue == db.queue
            && ((after.acked == db.acked + [m] && after.dead == db.dead)
                || (after.acked == db.acked && after.dead == db.dead + [m]))
            && (after.acked != db.acked ==> id in after.bets && !after.bets[id].status.PENDING?)
            && after.bets.Keys == db.bets.Keys
            && (forall b <- db.bets :: b != id || !db.bets[b].status.PENDING? ==> after.bets[b] == db.bets[b])
            && (after.acked == db.acked + [m] <==>
                  || (id in db.bets && db.bets[id].status.PENDING? && !faults.readThrows && faults.write.NoFault?)
                  || (id in db.bets && db.bets[id].status in TERMINAL_STATES && !faults.checkThrows))
            && (id in db.bets && db.bets[id].status.PENDING? ==>
                  after.bets[id] == if faults.readThrows || faults.write.Throws? then db.bets[id]
                                    else db.bets[id].(status := ACCEPTED))
  {
    assert |db.acked + [db.inflight.value]| > |db.acked|;
  }

  /** A delivery handled without interruption is a run of the machine. */
  lemma HandleIsRun(rqs: Requests, w: World, index: nat, faults: WorkerFaults) returns (run: seq<Action>)
    requires Reachable(rqs, w) && w.worker.Idle? && w.db.inflight.None? && index < |w.db.queue|
    ensures Legal(rqs, w, run)
    ensures var v := Run(rqs, w, run);
            v.db == Handle(Delivered(w.db, index), faults) && v == w.(db := v.db, writes := v.writes)
  {
    run := Take1(rqs, w, index);
    var id := w.db.queue[index].payload.betId;
    var db := Delivered(w.db, index);
    run := TransitionIsRun(rqs, w, run, db, faults);
    var (after, returned) := TransitionStatus(db, id, ACCEPTED, faults.readThrows, faults.write);
    if returned {
      run := WorkerOnce(rqs, w, run, after, Written);
    } else {
      run := CheckIsRun(rqs, w, run, after, faults.checkThrows);
    }
  }

  /** The handler stands at `worker`, the tables are `db`, and nothing else has moved since `w`. */
  ghost predicate Handling(w: World, v: World, worker: Worker, db: DB)
  {
    v == w.(db := db, worker := worker, writes := v.writes)
  }

  lemma Take1(rqs: Requests, w: World, index: nat) returns (run: seq<Action>)
    requires Reachable(rqs, w) && w.worker.Idle? && w.db.inflight.None? && index < |w.db.queue|
    ensures Legal(rqs, w, run) && Handling(w, Run(rqs, w, run), ReadBet, Delivered(w.db, index))
  {
    hide Inv;
    run := Step(rqs, w, [], Deliver(index));
  }

  lemma WorkerOnce(rqs: Requests, w: World, run: seq<Action>, db: DB, worker: Worker) returns (run': seq<Action>)
    requires Reachable(rqs, w) && Legal(rqs, w, run) && Handling(w, Run(rqs, w, run), worker, db)
    requires !worker.Idle? && db.inflight.Some?
    ensures Legal(rqs, w, run')
    ensures Handling(w, Run(rqs, w, run'), WorkerStep(db, worker).1, WorkerStep(db, worker).0)
  {
    hide Inv, WorkerStep, WorkerWrite;
    run' := Step(rqs, w, run, StepWorker);
  }

  lemma ThrowOnce(rqs: Requests, w: World, run: seq<Action>, db: DB, worker: Worker) returns (run': seq<Action>)
    requires Reachable(rqs, w) && Legal(rqs, w, run) && Handling(w, Run(rqs, w, run), worker, db)
    requires !worker.Idle? && db.inflight.Some?
    ensures Legal(rqs, w, run') && Handling(w, Run(rqs, w, run'), WorkerThrow(worker), db)
  {
    hide Inv;
    run' := Step(rqs, w, run, WorkerThrows);
  }

  lemma TransitionIsRun(rqs: Requests, w: World, run: seq<Action>, db: DB, faults: WorkerFaults)
      returns (run': seq<Action>)
    requires Reachable(rqs, w) && Legal(rqs, w, run) && db.inflight.Some? && Handling(w, Run(rqs, w, run), ReadBet, db)
    ensures Legal(rqs, w, run')
    ensures var (after, returned) :=
              TransitionStatus(db, db.inflight.value.payload.betId, ACCEPTED, faults.readThrows, faults.write);
            Handling(w, Run(rqs, w, run'), if returned then Written else CheckTerminal, after)
  {
    hide Handling, Enabled, Apply;
    var id := db.inflight.value.payload.betId;
    if faults.readThrows {
      run' := ThrowOnce(rqs, w, run, db, ReadBet);
    } else {
      run' := WorkerOnce(rqs, w, run, db, ReadBet);
      if CanAccept(db, id) {
        if faults.write.Throws? {
          run' := ThrowOnce(rqs, w, run', db, WriteBet);
        } else {
          run' := WorkerOnce(rqs, w, run', db, WriteBet);
          if faults.write.Lost? {
            run' := ThrowOnce(rqs, w, run', SetStatus(db, id, ACCEPTED), Written);
          }
        }
      }
    }
  }

  lemma CheckIsRun(rqs: Requests, w: World, run: seq<Action>, db: DB, throws: bool) returns (run': seq<Action>)
    requires Reachable(rqs, w) && Legal(rqs, w, run) && db.inflight.Some?
             && Handling(w, Run(rqs, w, run), CheckTerminal, db)
    ensures Legal(rqs, w, run')
    ensures Handling(w, Run(rqs, w, run'), Idle,
                     if !throws && IsTerminal(db, db.inflight.value.payload.betId) then Ack(db) else Nack(db))
  {
    hide Handling, Enabled, Apply;
    if throws {
      run' := ThrowOnce(rqs, w, run, db, CheckTerminal);
      run' := WorkerOnce(rqs, w, run', db, Failing);
    } else {
      run' := WorkerOnce(rqs, w, run, db, CheckTerminal);
      var terminal := IsTerminal(db, db.inflight.value.payload.betId);
      run' := WorkerOnce(rqs, w, run', db, if terminal then AlreadyTerminal else Failing);
    }
  }

  // ---- deliveries over whole runs -----------------------------------------------------------------

  datatype Kind = Taking | Acking | Nacking | Requeueing | Replaying

  /** What a step does to one message, as the broker sees it. */
  function EventOf(w: World, a: Action): Option<(Kind, Message)>
  {
    match a
    case Deliver(index) => if index < |w.db.queue| then Some((Taking, w.db.queue[index])) else None
    case StepWorker =>
      if w.db.inflight.None? then None
      else if w.worker.Written? || w.worker.AlreadyTerminal? then Some((Acking, w.db.inflight.value))
      else if w.worker.Failing? then Some((Nacking, w.db.inflight.value))
      else None
    case WorkerDies => if w.db.inflight.Some? then Some((Requeueing, w.db.inflight.value)) else None
    case Replay(index) => if index < |w.db.dead| then Some((Replaying, w.db.dead[index])) else None
    case _ => None
  }

  ghost function Count(rqs: Requests, run: seq<Action>, kind: Kind, m: Message): nat
    requires Legal(rqs, INIT, run)
  {
    if run == [] then 0
    else
      var front := run[..|run| - 1];
      Count(rqs, front, kind, m)
      + (if EventOf(Run(rqs, INIT, front), run[|run| - 1]) == Some((kind, m)) then 1 else 0)
  }

  function One(e: Option<(Kind, Message)>, kind: Kind, m: Message): nat
  {
    if e == Some((kind, m)) then 1 else 0
  }

  function InFlight(db: DB, m: Message): nat
  {
    if db.inflight == Some(m) then 1 else 0
  }

  ghost predicate SameBroker(db: DB, db': DB)
  {
    db'.inflight == db.inflight && db'.acked == db.acked && db'.dead == db.dead
  }

  /** The change of places that the broker's event says. */
  ghost predicate Accounted(db: DB, db': DB, e: Option<(Kind, Message)>, m: Message)
  {
    && InFlight(db', m) + One(e, Acking, m) + One(e, Nacking, m) + One(e, Requeueing, m)
       == InFlight(db, m) + One(e, Taking, m)
    && multiset(db'.acked)[m] == multiset(db.acked)[m] + One(e, Acking, m)
    && multiset(db'.dead)[m] + One(e, Replaying, m) == multiset(db.dead)[m] + One(e, Nacking, m)
  }

  lemma NothingMoves(db: DB, db': DB, m: Message)
    requires SameBroker(db, db')
    ensures Accounted(db, db', None, m)
  {
  }

  lemma CallLeavesBroker(rqs: Requests, w: World, ref: Id, newId: Id)
    requires ref in w.calls
    ensures SameBroker(w.db, AfterCall(rqs(ref), w, ref, newId).db)
  {
    CallStepLeavesBroker(rqs(ref), ref, w.db, w.calls[ref], newId);
    hide CallStep, SameBroker;
  }

  lemma CallStepLeavesBroker(rq: Request, ref: Id, db: DB, call: Call, newId: Id)
    ensures SameBroker(db, CallStep(rq, ref, db, call, newId).0)
  {
    hide HasBet, FindBet, HasRow, HasAnyRow, CanInsert;
  }

  lemma AdminLeavesBroker(w: World, market: Id, order: seq<Id>)
    requires market in w.admin
    ensures SameBroker(w.db, AfterAdmin(w, market, order).db)
  {
    hide HasRow;
  }

  lemma WorkerStepMoves(db: DB, worker: Worker)
    requires db.inflight.Some?
    ensures var db' := WorkerStep(db, worker).0; var m := db.inflight.value;
            if worker.Written? || worker.AlreadyTerminal?
            then db'.inflight.None? && db'.acked == db.acked + [m] && db'.dead == db.dead
            else if worker.Failing? then db'.inflight.None? && db'.acked == db.acked && db'.dead == db.dead + [m]
            else SameBroker(db, db')
  {
  }

  lemma WorkerEvent(w: World, m: Message)
    requires WorkerInv(w.db, w.worker) && w.db.inflight.Some?
    ensures Accounted(w.db, AfterWorker(w).db, EventOf(w, StepWorker), m)
  {
    WorkerStepMoves(w.db, w.worker);
    hide WorkerStep, WorkerWrite, WorkerInv;
  }

  lemma DeliverEvent(db: DB, index: nat, m: Message)
    requires index < |db.queue| && db.inflight.None?
    ensures Accounted(db, Delivered(db, index), Some((Taking, db.queue[index])), m)
  {
  }

  lemma ReplayEvent(db: DB, index: nat, m: Message)
    requires index < |db.dead|
    ensures Accounted(db, db.(dead := Take(db.dead, index), queue := db.queue + [db.dead[index]]),
                      Some((Replaying, db.dead[index])), m)
  {
    TakeOne(db.dead, index);
    hide Take;
  }

  lemma DeathEvent(db: DB, m: Message)
    requires db.inflight.Some?
    ensures Accounted(db, db.(queue := db.queue + [db.inflight.value], inflight := None),
                      Some((Requeueing, db.inflight.value)), m)
  {
  }

  /** One step's effect on where a message is. */
  lemma EventEffect(rqs: Requests, w: World, a: Action, m: Message)
    requires WorkerInv(w.db, w.worker) && Enabled(rqs, w, a)
    ensures Accounted(w.db, Apply(rqs, w, a).db, EventOf(w, a), m)
  {
    hide AfterCall, AfterAdmin, AfterWorker, Accounted, Take, WorkerInv;
    match a
    case StepCall(ref, newId) =>
      CallLeavesBroker(rqs, w, ref, newId);
      NothingMoves(w.db, Apply(rqs, w, a).db, m);
    case StepAdmin(market, order) =>
      AdminLeavesBroker(w, market, order);
      NothingMoves(w.db, Apply(rqs, w, a).db, m);
    case StepWorker => WorkerEvent(w, m);
    case Deliver(index) => DeliverEvent(w.db, index, m);
    case Replay(index) => ReplayEvent(w.db, index, m);
    case WorkerDies => DeathEvent(w.db, m);
    case _ => NothingMoves(w.db, Apply(rqs, w, a).db, m);
  }

  lemma {:induction false} EventsAddUp(rqs: Requests, run: seq<Action>, m: Message)
    requires Legal(rqs, INIT, run)
    ensures var db := Run(rqs, INIT, run).db;
            && Count(rqs, run, Taking, m)
               == Count(rqs, run, Acking, m) + Count(rqs, run, Nacking, m) + Count(rqs, run, Requeueing, m)
                  + InFlight(db, m)
            && Count(rqs, run, Acking, m) == multiset(db.acked)[m]
            && Count(rqs, run, Nacking, m) == multiset(db.dead)[m] + Count(rqs, run, Replaying, m)
    decreases |run|
  {
    hide Inv, Enabled, Apply, EventOf;
    if run != [] {
      var front := run[..|run| - 1];
      EventsAddUp(rqs, front, m);
      InitInv(rqs);
      RunKeepsInv(rqs, INIT, front);
      WorkerOf(rqs, Run(rqs, INIT, front));
      EventEffect(rqs, Run(rqs, INIT, front), run[|run| - 1], m);
    }
  }

  /**
   Over every run, each delivery of a message is settled exactly once: its deliveries are its acks, its nacks and the
   deliveries a crash cut short, and one more while it is in flight. It is acked at most once, and each nack is a
   dead-lettered copy until that copy is replayed.
   */
  lemma EachDeliverySettledOnce(rqs: Requests, run: seq<Action>, m: Message)
    requires Legal(rqs, INIT, run)
    ensures var db := Run(rqs, INIT, run).db;
            && Count(rqs, run, Taking, m)
               == Count(rqs, run, Acking, m) + Count(rqs, run, Nacking, m) + Count(rqs, run, Requeueing, m)
                  + (if db.inflight == Some(m) then 1 else 0)
            && Count(rqs, run, Acking, m) <= 1
            && Count(rqs, run, Nacking, m) - Count(rqs, run, Replaying, m) == (if m in db.dead then 1 else 0)
  {
    hide Inv, Enabled, Apply, EventOf;
    EventsAddUp(rqs, run, m);
    assert Reachable(rqs, Run(rqs, INIT, run));
    EachMessageInOnePlace(rqs, Run(rqs, INIT, run), m);
  }
}
