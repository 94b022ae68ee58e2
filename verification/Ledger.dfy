/**
 The wallet's ledger (WalletService.applyTransaction): an append-only list of rows and one
 cached balance per user. `ApplyTransaction` is one atomic step because it runs under a row lock.
 */
module Ledger {
  import opened Types

  /** The sum the row adds to its user's balance. */
  function Signed(row: Row): int
  {
    if row.kind.DEBIT? then 0 - row.amount else row.amount
  }

  /** What `user`'s balance must be after exactly these rows. */
  function Fold(ledger: seq<Row>, user: Id): int
  {
    if ledger == [] then 0
    else
      var last := ledger[|ledger| - 1];
      Fold(ledger[..|ledger| - 1], user) + (if last.user == user then Signed(last) else 0)
  }

  predicate HasRow(ledger: seq<Row>, user: Id, ref: Id, kind: TransactionType)
  {
    exists i :: 0 <= i < |ledger| && ledger[i].user == user && ledger[i].ref == ref && ledger[i].kind == kind
  }

  /** The deposit check looks a key up without its type. */
  predicate HasAnyRow(ledger: seq<Row>, user: Id, ref: Id)
  {
    exists i :: 0 <= i < |ledger| && ledger[i].user == user && ledger[i].ref == ref
  }

  /** A row stays when rows are appended. */
  lemma HasRowPrefix(ledger: seq<Row>, ledger': seq<Row>, user: Id, ref: Id, kind: TransactionType)
    requires ledger <= ledger' && HasRow(ledger, user, ref, kind)
    ensures HasRow(ledger', user, ref, kind)
  {
    var i :| 0 <= i < |ledger| && ledger[i].user == user && ledger[i].ref == ref && ledger[i].kind == kind;
    assert ledger'[i] == ledger[i];
  }

  function Balance(wallets: map<Id, int>, user: Id): int
  {
    if user in wallets then wallets[user] else 0
  }

  /** The balance a transaction leaves, or None when it must roll back. */
  function NewBalance(wallets: map<Id, int>, user: Id, kind: TransactionType, amount: nat): Option<int>
  {
    var have := Balance(wallets, user);
    if kind.DEBIT? then
      if have < amount then None else Some(have - amount)
    else
      if have + amount > INT4_MAX then None else Some(have + amount)
  }

  /** Commits one transaction; a transaction that throws leaves the tables as they were. */
  function ApplyTransaction(db: DB, user: Id, kind: TransactionType, amount: nat, ref: Id): DB
  {
    match NewBalance(db.wallets, user, kind, amount)
    case None => db
    case Some(after) =>
      db.(wallets := db.wallets[user := after],
          ledger := db.ledger + [Row(user, kind, amount, after, ref)])
  }

  /** getOrCreateWallet: a stale replica can only lead to an insert, and the unique userId refuses a second one. */
  function OpenWallet(db: DB, user: Id): DB
  {
    if user in db.wallets then db else db.(wallets := db.wallets[user := 0])
  }

  /** Balances and snapshots are exactly what the rows say, at every point of the history. */
  ghost predicate LedgerInv(db: DB)
  {
    && (forall u <- db.wallets :: db.wallets[u] == Fold(db.ledger, u))
    && (forall i :: 0 <= i < |db.ledger| ==> db.ledger[i].user in db.wallets)
    && (forall i :: 0 <= i < |db.ledger| ==>
          db.ledger[i].balanceAfter == Fold(db.ledger[..i + 1], db.ledger[i].user))
    && (forall n, u: Id :: 0 <= n <= |db.ledger| ==> 0 <= Fold(db.ledger[..n], u) <= INT4_MAX)
  }

  lemma FoldAppend(ledger: seq<Row>, row: Row, user: Id)
    ensures Fold(ledger + [row], user) == Fold(ledger, user) + (if row.user == user then Signed(row) else 0)
  {
    assert (ledger + [row])[..|ledger|] == ledger;
  }

  lemma {:induction false} FoldStranger(ledger: seq<Row>, user: Id)
    requires forall i :: 0 <= i < |ledger| ==> ledger[i].user != user
    ensures Fold(ledger, user) == 0
  {
    if ledger != [] {
      FoldStranger(ledger[..|ledger| - 1], user);
    }
  }

  /** Appending a row keeps every earlier snapshot. */
  lemma SnapshotsGrow(ledger: seq<Row>, row: Row)
    requires forall i :: 0 <= i < |ledger| ==> ledger[i].balanceAfter == Fold(ledger[..i + 1], ledger[i].user)
    requires row.balanceAfter == Fold(ledger, row.user) + Signed(row)
    ensures var ledger' := ledger + [row];
            forall i :: 0 <= i < |ledger'| ==> ledger'[i].balanceAfter == Fold(ledger'[..i + 1], ledger'[i].user)
  {
    var ledger' := ledger + [row];
    FoldAppend(ledger, row, row.user);
    hide Fold;
    forall i | 0 <= i < |ledger'| ensures ledger'[i].balanceAfter == Fold(ledger'[..i + 1], ledger'[i].user) {
      if i < |ledger| {
        assert ledger'[..i + 1] == ledger[..i + 1];
      } else {
        assert ledger'[..i + 1] == ledger';
      }
    }
  }

  /** Appending a row keeps every earlier prefix within bounds. */
  lemma BoundsGrow(ledger: seq<Row>, row: Row)
    requires forall n, u: Id :: 0 <= n <= |ledger| ==> 0 <= Fold(ledger[..n], u) <= INT4_MAX
    requires 0 <= Fold(ledger, row.user) + Signed(row) <= INT4_MAX
    ensures var ledger' := ledger + [row];
            forall n, u: Id :: 0 <= n <= |ledger'| ==> 0 <= Fold(ledger'[..n], u) <= INT4_MAX
  {
    var ledger' := ledger + [row];
    assert ledger[..|ledger|] == ledger;
    forall n, u: Id | 0 <= n <= |ledger'| ensures 0 <= Fold(ledger'[..n], u) <= INT4_MAX {
      FoldAppend(ledger, row, u);
      hide Fold;
      if n <= |ledger| {
        assert ledger'[..n] == ledger[..n];
      } else {
        assert ledger'[..n] == ledger';
        assert 0 <= Fold(ledger[..|ledger|], u) <= INT4_MAX;
      }
    }
  }

  lemma BalancesGrow(db: DB, row: Row)
    requires forall u <- db.wallets :: db.wallets[u] == Fold(db.ledger, u)
    requires row.balanceAfter == Fold(db.ledger, row.user) + Signed(row)
    ensures var wallets := db.wallets[row.user := row.balanceAfter];
            forall u <- wallets :: wallets[u] == Fold(db.ledger + [row], u)
  {
    var wallets := db.wallets[row.user := row.balanceAfter];
    forall u <- wallets ensures wallets[u] == Fold(db.ledger + [row], u) {
      FoldAppend(db.ledger, row, u);
    }
  }

  lemma LedgerGrows(db: DB, user: Id, kind: TransactionType, amount: nat, ref: Id)
    requires LedgerInv(db)
    ensures LedgerInv(ApplyTransaction(db, user, kind, amount, ref))
  {
    hide Fold;
    var db' := ApplyTransaction(db, user, kind, amount, ref);
    if db' != db {
      var row := Row(user, kind, amount, db'.wallets[user], ref);
      if user !in db.wallets {
        FoldStranger(db.ledger, user);
      }
      assert Fold(db.ledger[..|db.ledger|], user) >= 0 && db.ledger[..|db.ledger|] == db.ledger;
      SnapshotsGrow(db.ledger, row);
      BoundsGrow(db.ledger, row);
      BalancesGrow(db, row);
    }
  }

  /** A new user gets a wallet with nothing in it; every other wallet and table stays. */
  lemma WalletOpens(db: DB, user: Id)
    ensures LedgerInv(db) ==> LedgerInv(OpenWallet(db, user))
    ensures var after := OpenWallet(db, user);
            && after == db.(wallets := after.wallets) && after.wallets.Keys == db.wallets.Keys + {user}
            && (forall u <- db.wallets :: after.wallets[u] == db.wallets[u])
            && (user !in db.wallets ==> after.wallets[user] == 0)
  {
    if user !in db.wallets && LedgerInv(db) {
      FoldStranger(db.ledger, user);
    }
  }

  /**
   What a transaction of each kind does: it commits if and only if a debit is covered, or a deposit or credit fits the
   column; then the user's wallet, opened if need be, and the ledger record it, and nothing else changes.
   */
  lemma TransactionIs(db: DB, user: Id, kind: TransactionType, amount: nat, ref: Id)
    ensures var after := ApplyTransaction(db, user, kind, amount, ref);
            var have := if user in db.wallets then db.wallets[user] else 0;
            var left := if kind == DEBIT then have - amount else have + amount;
            after == if (kind == DEBIT && have >= amount) || (kind != DEBIT && have + amount <= 2147483647)
                     then db.(wallets := db.wallets[user := left],
                              ledger := db.ledger + [Row(user, kind, amount, left, ref)])
                     else db
  {
  }

  /** A committed transaction is visible. */
  lemma CommitChanges(db: DB, user: Id, kind: TransactionType, amount: nat, ref: Id)
    ensures NewBalance(db.wallets, user, kind, amount).Some? <==> ApplyTransaction(db, user, kind, amount, ref) != db
  {
    if NewBalance(db.wallets, user, kind, amount).Some? {
      assert |ApplyTransaction(db, user, kind, amount, ref).ledger| == |db.ledger| + 1;
    }
  }

  lemma LedgerSame(db: DB, db': DB)
    requires LedgerInv(db) && db'.wallets == db.wallets && db'.ledger == db.ledger
    ensures LedgerInv(db')
  {
  }
}
