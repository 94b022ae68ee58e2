/** Sums over finite sets of ids and over the ledger. */
module Sums {
  import opened Types
  import opened Ledger

  ghost function SumOver(ids: set<Id>, f: Id -> int): int
  {
    if ids == {} then 0
    else
      var x :| x in ids;
      f(x) + SumOver(ids - {x}, f)
  }

  lemma {:induction false} SumRemove(ids: set<Id>, f: Id -> int, y: Id)
    requires y in ids
    ensures SumOver(ids, f) == f(y) + SumOver(ids - {y}, f)
    decreases ids
  {
    var x :| x in ids && SumOver(ids, f) == f(x) + SumOver(ids - {x}, f);
    if x != y {
      SumRemove(ids - {x}, f, y);
      assert ids - {x} - {y} == ids - {y} - {x};
      SumRemove(ids - {y}, f, x);
    }
  }

  lemma {:induction false} SumUnion(a: set<Id>, b: set<Id>, f: Id -> int)
    requires a !! b
    ensures SumOver(a + b, f) == SumOver(a, f) + SumOver(b, f)
    decreases b
  {
    if b == {} {
      assert a + b == a;
    } else {
      var x :| x in b;
      SumRemove(b, f, x);
      SumRemove(a + b, f, x);
      assert a + b - {x} == a + (b - {x});
      SumUnion(a, b - {x}, f);
    }
  }

  /** Two functions that agree except that `g` adds `delta` at one member. */
  lemma {:induction false} SumBump(ids: set<Id>, f: Id -> int, g: Id -> int, at: Id, delta: int)
    requires forall x <- ids :: g(x) == f(x) + (if x == at then delta else 0)
    ensures SumOver(ids, g) == SumOver(ids, f) + (if at in ids then delta else 0)
    decreases ids
  {
    if ids != {} {
      var x :| x in ids;
      SumRemove(ids, f, x);
      SumRemove(ids, g, x);
      SumBump(ids - {x}, f, g, at, delta);
    }
  }

  /** Total amount of the rows of one kind whose reference is in `refs`. */
  function SumIn(ledger: seq<Row>, kind: TransactionType, refs: set<Id>): nat
  {
    if ledger == [] then 0
    else
      var last := ledger[|ledger| - 1];
      SumIn(ledger[..|ledger| - 1], kind, refs) + (if last.kind == kind && last.ref in refs then last.amount else 0)
  }

  /** Total amount of the rows of one kind whose reference is not in `refs`. */
  function SumOut(ledger: seq<Row>, kind: TransactionType, refs: set<Id>): nat
  {
    if ledger == [] then 0
    else
      var last := ledger[|ledger| - 1];
      SumOut(ledger[..|ledger| - 1], kind, refs) + (if last.kind == kind && last.ref !in refs then last.amount else 0)
  }

  function KindTotal(ledger: seq<Row>, kind: TransactionType): nat
  {
    SumOut(ledger, kind, {})
  }

  lemma {:induction false} SumSplits(ledger: seq<Row>, kind: TransactionType, refs: set<Id>)
    ensures SumIn(ledger, kind, refs) + SumOut(ledger, kind, refs) == KindTotal(ledger, kind)
  {
    if ledger != [] {
      SumSplits(ledger[..|ledger| - 1], kind, refs);
    }
  }

  lemma {:induction false} SumInUnion(ledger: seq<Row>, kind: TransactionType, refs: set<Id>, ref: Id)
    requires ref !in refs
    ensures SumIn(ledger, kind, refs + {ref}) == SumIn(ledger, kind, refs) + SumIn(ledger, kind, {ref})
  {
    if ledger != [] {
      SumInUnion(ledger[..|ledger| - 1], kind, refs, ref);
    }
  }

  lemma {:induction false} SumInNone(ledger: seq<Row>, kind: TransactionType, refs: set<Id>)
    requires forall i :: 0 <= i < |ledger| ==> !(ledger[i].kind == kind && ledger[i].ref in refs)
    ensures SumIn(ledger, kind, refs) == 0
  {
    if ledger != [] {
      SumInNone(ledger[..|ledger| - 1], kind, refs);
    }
  }

  lemma {:induction false} SumOutNone(ledger: seq<Row>, kind: TransactionType, refs: set<Id>)
    requires forall i :: 0 <= i < |ledger| && ledger[i].kind == kind ==> ledger[i].ref in refs
    ensures SumOut(ledger, kind, refs) == 0
  {
    if ledger != [] {
      SumOutNone(ledger[..|ledger| - 1], kind, refs);
    }
  }

  /** A key with a single row of this kind contributes exactly that row. */
  lemma {:induction false} SumInOne(ledger: seq<Row>, kind: TransactionType, at: nat)
    requires at < |ledger| && ledger[at].kind == kind
    requires forall i :: 0 <= i < |ledger| && i != at ==> !(ledger[i].kind == kind && ledger[i].ref == ledger[at].ref)
    ensures SumIn(ledger, kind, {ledger[at].ref}) == ledger[at].amount
  {
    var front := ledger[..|ledger| - 1];
    if at == |ledger| - 1 {
      SumInNone(front, kind, {ledger[at].ref});
    } else {
      assert forall i :: 0 <= i < |front| ==> front[i] == ledger[i];
      SumInOne(front, kind, at);
    }
  }

  function FoldOf(ledger: seq<Row>): Id -> int
  {
    (u: Id) => var total: int := Fold(ledger, u); total
  }

  /** Summed over all users, the ledger is deposits minus debits plus credits. */
  lemma {:induction false} FoldsSum(ledger: seq<Row>, users: set<Id>)
    requires forall i :: 0 <= i < |ledger| ==> ledger[i].user in users
    ensures SumOver(users, FoldOf(ledger))
            == KindTotal(ledger, DEPOSIT) - KindTotal(ledger, DEBIT) + KindTotal(ledger, CREDIT)
  {
    if ledger == [] {
      SumZero(users, FoldOf(ledger));
    } else {
      var front, last := ledger[..|ledger| - 1], ledger[|ledger| - 1];
      FoldsSum(front, users);
      SumBump(users, FoldOf(front), FoldOf(ledger), last.user, Signed(last));
    }
  }

  lemma {:induction false} SumZero(ids: set<Id>, f: Id -> int)
    requires forall x <- ids :: f(x) == 0
    ensures SumOver(ids, f) == 0
    decreases ids
  {
    if ids != {} {
      var x :| x in ids;
      SumRemove(ids, f, x);
      SumZero(ids - {x}, f);
    }
  }

  lemma {:induction false} SumSame(ids: set<Id>, f: Id -> int, g: Id -> int)
    requires forall x <- ids :: f(x) == g(x)
    ensures SumOver(ids, f) == SumOver(ids, g)
    decreases ids
  {
    if ids != {} {
      var x :| x in ids;
      SumRemove(ids, f, x);
      SumRemove(ids, g, x);
      SumSame(ids - {x}, f, g);
    }
  }
}
