/**
 What the float sets aside: exactly the due amounts of the other claims that will draw on the hot account and
 have not confirmed yet.
 */
module ReservedFloat {
  import opened Prelude
  import opened Chain
  import opened Rows
  import opened Protocol

  /** The claim is for a token or a vault, which the hot account pays. */
  predicate OnHotAccount(db: Db, c: ClaimId) {
    c in db.claims && db.claims[c].asset in db.assets
    && (db.assets[db.claims[c].asset].kind.Token? || db.assets[db.claims[c].asset].kind.Vault?)
  }

  /** Another claim that counts while c is looked at. */
  predicate Owes(db: Db, c: ClaimId, d: ClaimId) {
    d != c && OnHotAccount(db, d) && (db.claims[d].status.Verified? || db.claims[d].status.Dispatching?)
  }

  /** What the claim will move: its settlement once that is fixed, its asset's amount before. */
  function DueOf(db: Db, d: ClaimId): nat
    requires OnHotAccount(db, d)
  {
    match db.claims[d].settlement
    case Some(amount) => amount
    case None => db.assets[db.claims[d].asset].amount.GetOr(0)
  }

  ghost function OwedMap(db: Db, c: ClaimId): map<ClaimId, nat> {
    map d | d in db.claims && Owes(db, c, d) :: DueOf(db, d)
  }

  ghost function Owed(db: Db, c: ClaimId): nat {
    Sum(OwedMap(db, c))
  }

  lemma {:induction false} SumWithoutZeros(m: map<ClaimId, nat>, n: map<ClaimId, nat>)
    requires n.Keys <= m.Keys && forall k :: k in m ==> m[k] == if k in n then n[k] else 0
    ensures Sum(m) == Sum(n)
    decreases |m|
  {
    if m.Keys != {} {
      var k :| k in m.Keys;
      SumSplit(m, k);
      if k in n {
        SumSplit(n, k);
        SumWithoutZeros(m - {k}, n - {k});
      } else {
        assert n.Keys <= (m - {k}).Keys;
        SumWithoutZeros(m - {k}, n);
      }
    } else {
      assert n == m;
    }
  }

  /** The float query sums exactly that. */
  lemma ReservedIsOwed(db: Db, c: ClaimId)
    ensures Reserved(db, c) == Owed(db, c)
  {
    SumWithoutZeros(map d | d in db.claims :: Committed(db, c, d), OwedMap(db, c));
  }

  /** Only the status of claim d differs. */
  predicate StatusMoved(x: Db, y: Db, d: ClaimId) {
    d in x.claims && d in y.claims && y == x.(claims := x.claims[d := x.claims[d].(status := y.claims[d].status)])
  }

  predicate Counted(status: ClaimStatus) {
    status.Verified? || status.Dispatching?
  }

  /**
   A claim that becomes verified or dispatching is set aside from then on at exactly its due amount; one that stops
   being either is released at exactly that; and no other move of its status matters.
   */
  lemma StatusMovesReserved(x: Db, y: Db, c: ClaimId, d: ClaimId)
    requires StatusMoved(x, y, d) && d != c && OnHotAccount(x, d)
    ensures var was, now := Counted(x.claims[d].status), Counted(y.claims[d].status);
            Reserved(y, c) == Reserved(x, c) + (if now && !was then DueOf(x, d) else 0) - (if was && !now then DueOf(x, d) else 0)
  {
    ReservedIsOwed(x, c);
    ReservedIsOwed(y, c);
    OthersOweTheSame(x, y, c, d);
    OwedWithout(x, c, d);
    OwedWithout(y, c, d);
  }

  lemma OthersOweTheSame(x: Db, y: Db, c: ClaimId, d: ClaimId)
    requires StatusMoved(x, y, d)
    ensures OwedMap(y, c) - {d} == OwedMap(x, c) - {d}
    ensures OnHotAccount(x, d) ==> OnHotAccount(y, d) && DueOf(y, d) == DueOf(x, d)
  {
  }

  lemma OwedWithout(db: Db, c: ClaimId, d: ClaimId)
    requires OnHotAccount(db, d)
    ensures Owed(db, c) == Sum(OwedMap(db, c) - {d}) + if Owes(db, c, d) then DueOf(db, d) else 0
  {
    if Owes(db, c, d) {
      SumSplit(OwedMap(db, c), d);
    } else {
      assert OwedMap(db, c) - {d} == OwedMap(db, c);
    }
  }

  /** ANT claims and the claim at hand are never set aside, whatever becomes of them. */
  lemma OthersAddNothing(x: Db, y: Db, c: ClaimId, d: ClaimId)
    requires StatusMoved(x, y, d) && (d == c || !OnHotAccount(x, d))
    ensures Reserved(y, c) == Reserved(x, c)
  {
    ReservedIsOwed(x, c);
    ReservedIsOwed(y, c);
    assert OwedMap(x, c) == OwedMap(y, c);
  }
}
