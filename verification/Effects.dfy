/** What one write to the tables leaves true of the rest of the tables and of every other activity. */
module Effects {
  import opened Types
  import opened Ledger
  import opened Protocol
  import opened Invariant

  // ---- how the tables may grow ----------------------------------------------------------------

  ghost predicate StatusLater(s: BetStatus, s': BetStatus)
  {
    s' == s || (s.PENDING? && s'.ACCEPTED?) || (s.ACCEPTED? && s'.SETTLED?)
  }

  /** Rows are only appended, bets and markets only added; a bet's terms and a market's odds never change. */
  ghost predicate Later(db: DB, db': DB)
  {
    && db.ledger <= db'.ledger
    && (forall b <- db.bets :: b in db'.bets && db'.bets[b] == db.bets[b].(status := db'.bets[b].status)
                               && StatusLater(db.bets[b].status, db'.bets[b].status))
    && (forall m <- db.markets :: m in db'.markets && db'.markets[m].odds == db.markets[m].odds)
  }

  lemma BetLater(rqs: Requests, db: DB, db': DB, id: Id)
    requires Later(db, db') && id in db.bets && BetOk(rqs, db, db.bets[id])
    ensures BetOk(rqs, db', db'.bets[id])
  {
    HasRowPrefix(db.ledger, db'.ledger, db.bets[id].user, db.bets[id].ref, DEBIT);
  }

  lemma WriteLater(db: DB, db': DB, runs: set<(Id, MarketResult)>, write: Write)
    requires Later(db, db') && WriteOk(db, runs, write)
    ensures WriteOk(db', runs, write)
  {
    if write.result == Some(WIN) {
      HasRowPrefix(db.ledger, db'.ledger, db.bets[write.bet].user, write.bet, CREDIT);
    }
  }

  /** A call's facts survive any step that adds no row and no bet under the call's own key. */
  lemma CallLater(rqs: Requests, db: DB, db': DB, ref: Id, call: Call)
    requires Later(db, db') && CallOk(rqs, db, ref, call)
    requires forall i :: |db.ledger| <= i < |db'.ledger| ==> db'.ledger[i].ref != ref || db'.ledger[i].kind.CREDIT?
    requires forall b <- db'.bets :: b !in db.bets ==> db'.bets[b].ref != ref
    ensures CallOk(rqs, db', ref, call)
  {
    if call.BetSave? {
      HasRowPrefix(db.ledger, db'.ledger, rqs(ref).user, ref, DEBIT);
    }
  }

  /** A mutation's facts survive any step that leaves its market's row and its market's live bets alone. */
  lemma AdminLater(db: DB, db': DB, runs: set<(Id, MarketResult)>, runs': set<(Id, MarketResult)>, market: Id,
      admin: Admin)
    requires Later(db, db') && runs <= runs' && AdminOk(db, runs, market, admin)
    requires !db'.markets[market].status.SETTLED?
    requires forall b <- db.bets :: db.bets[b].market == market && db.bets[b].status.ACCEPTED?
                                    ==> db'.bets[b].status.ACCEPTED?
    requires forall i :: |db.ledger| <= i < |db'.ledger| && db'.ledger[i].kind.CREDIT?
                         ==> db'.ledger[i].ref in db.bets && db.bets[db'.ledger[i].ref].market != market
    ensures AdminOk(db', runs', market, admin)
  {
    if admin.StatusWrite? && admin.result.WIN? {
      HasRowPrefix(db.ledger, db'.ledger, db.bets[admin.todo[0]].user, admin.todo[0], CREDIT);
    }
  }

  // ---- the tables as a whole ------------------------------------------------------------------

  lemma RowsLater(rqs: Requests, db: DB, db': DB, runs: set<(Id, MarketResult)>, runs': set<(Id, MarketResult)>)
    requires Later(db, db') && runs <= runs' && db'.ledger == db.ledger && RowsInv(rqs, db, runs)
    ensures RowsInv(rqs, db', runs')
  {
    forall i | 0 <= i < |db'.ledger| ensures RowOk(rqs, db', runs', db'.ledger[i]) {
      assert RowOk(rqs, db, runs, db.ledger[i]);
    }
  }

  lemma RowsAppend(rqs: Requests, db: DB, db': DB, runs: set<(Id, MarketResult)>, row: Row)
    requires Later(db, db') && db'.ledger == db.ledger + [row] && RowsInv(rqs, db, runs)
    requires RowOk(rqs, db, runs, row) && NoRow(db, row.ref, row.kind)
    ensures RowsInv(rqs, db', runs)
  {
    forall i | 0 <= i < |db'.ledger| ensures RowOk(rqs, db', runs, db'.ledger[i]) {
      if i < |db.ledger| {
        assert RowOk(rqs, db, runs, db.ledger[i]);
      }
    }
  }

  lemma BetsLater(rqs: Requests, db: DB, db': DB)
    requires Later(db, db') && db'.bets.Keys == db.bets.Keys && BetsInv(rqs, db)
    ensures BetsInv(rqs, db')
  {
    forall b <- db'.bets ensures BetOk(rqs, db', db'.bets[b]) {
      BetLater(rqs, db, db', b);
    }
  }

  lemma BetsInsert(rqs: Requests, db: DB, id: Id, bet: Bet)
    requires BetsInv(rqs, db) && id !in db.bets && CanInsert(db, bet) && BetOk(rqs, db, bet)
    ensures BetsInv(rqs, db.(bets := db.bets[id := bet]))
  {
    var db' := db.(bets := db.bets[id := bet]);
    forall b <- db'.bets ensures BetOk(rqs, db', db'.bets[b]) {
      if b != id {
        BetLater(rqs, db, db', b);
      }
    }
  }

  lemma BrokerEnqueue(db: DB, published: seq<Message>, payload: Payload)
    requires BrokerInv(db, published) && MessageOk(db, Message(db.nextTag, payload))
    ensures BrokerInv(Enqueue(db, payload), published + [Message(db.nextTag, payload)])
  {
    var db' := Enqueue(db, payload);
    MessagesLater(db, db', published);
  }

  lemma BrokerLater(db: DB, db': DB, published: seq<Message>)
    requires Later(db, db') && BrokerInv(db, published)
    requires db'.queue == db.queue && db'.inflight == db.inflight && db'.acked == db.acked
    requires db'.dead == db.dead && db'.nextTag == db.nextTag
    ensures BrokerInv(db', published)
  {
    MessagesLater(db, db', published);
    forall m <- db'.acked ensures !db'.bets[m.payload.betId].status.PENDING? {
      assert MessageOk(db, m);
    }
  }

  lemma MessagesLater(db: DB, db': DB, messages: seq<Message>)
    requires Later(db, db') && forall m <- messages :: MessageOk(db, m)
    ensures forall m <- messages :: MessageOk(db', m)
  {
    forall m <- messages ensures MessageOk(db', m) {
      assert MessageOk(db, m);
    }
  }

  lemma WritesLater(db: DB, db': DB, runs: set<(Id, MarketResult)>, runs': set<(Id, MarketResult)>, writes: seq<Write>)
    requires Later(db, db') && runs <= runs'
    requires forall i :: 0 <= i < |writes| ==> WriteOk(db, runs, writes[i])
    ensures forall i :: 0 <= i < |writes| ==> WriteOk(db', runs', writes[i])
  {
    forall i | 0 <= i < |writes| ensures WriteOk(db', runs', writes[i]) {
      WriteLater(db, db', runs, writes[i]);
    }
  }

  lemma {:induction false} NeverWritten(db: DB, runs: set<(Id, MarketResult)>, writes: seq<Write>, id: Id)
    requires id !in db.bets
    requires forall i :: 0 <= i < |writes| ==> WriteOk(db, runs, writes[i])
    ensures StatusAfter(writes, id).PENDING?
  {
    if writes != [] {
      assert WriteOk(db, runs, writes[|writes| - 1]);
      NeverWritten(db, runs, writes[..|writes| - 1], id);
    }
  }

  lemma HistoryLater(db: DB, db': DB, runs: set<(Id, MarketResult)>, runs': set<(Id, MarketResult)>, writes: seq<Write>)
    requires Later(db, db') && runs <= runs' && HistoryInv(db, runs, writes)
    requires forall b <- db'.bets :: if b in db.bets then db'.bets[b].status == db.bets[b].status
                                     else db'.bets[b].status.PENDING?
    ensures HistoryInv(db', runs', writes)
  {
    WritesLater(db, db', runs, runs', writes);
    forall b <- db'.bets ensures db'.bets[b].status == StatusAfter(writes, b) {
      if b !in db.bets {
        NeverWritten(db, runs, writes, b);
      }
    }
  }

  lemma HistoryAppend(db: DB, runs: set<(Id, MarketResult)>, writes: seq<Write>, write: Write)
    requires HistoryInv(db, runs, writes) && WriteOk(db, runs, write)
    requires write.from == db.bets[write.bet].status && StatusLater(write.from, write.to) && write.from != write.to
    requires Later(db, SetStatus(db, write.bet, write.to))
    ensures HistoryInv(SetStatus(db, write.bet, write.to), runs, writes + [write])
  {
    var db', writes' := SetStatus(db, write.bet, write.to), writes + [write];
    assert writes'[..|writes|] == writes;
    WritesLater(db, db', runs, runs, writes');
    forall i | 0 <= i < |writes'|
      ensures writes'[i].from == StatusAfter(writes'[..i], writes'[i].bet)
      ensures writes'[i].to in AllowedTransitions(writes'[i].from)
    {
      if i < |writes| {
        assert writes'[..i] == writes[..i];
      }
    }
  }
}
