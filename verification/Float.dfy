/**
 Solvency of the hot account: what is in flight never exceeds the balance, although the balance and
 the reserved sum are read at different instants and transactions land in between.
 */
module Float {
  import opened Prelude
  import opened Chain
  import opened Rows
  import opened Service
  import opened AntOperator
  import opened Protocol
  import opened Invariant
  import opened Preservation
  import opened Monotonicity

  predicate Dispatched(db: Db, c: ClaimId) {
    Hot(db, c) && db.claims[c].status.Dispatching?
  }

  predicate InFlight(s: State, c: ClaimId) {
    Dispatched(s.db, c) && s.db.claims[c].sig.Some? && !Landed(s.chain, s.db.claims[c].sig.value)
  }

  function Worth(db: Db, c: ClaimId): nat
    requires Hot(db, c)
  {
    Mario(db.assets[db.claims[c].asset])
  }

  /** Amounts of dispatching token and vault claims whose transaction has neither landed nor failed. */
  ghost function FlightMap(s: State): map<ClaimId, nat> {
    map c | c in s.db.claims && InFlight(s, c) :: Worth(s.db, c)
  }

  ghost function Outstanding(s: State): nat {
    Sum(FlightMap(s))
  }

  ghost function DispatchMap(db: Db): map<ClaimId, nat> {
    map c | c in db.claims && Dispatched(db, c) :: Worth(db, c)
  }

  ghost function AllDispatched(db: Db): nat {
    Sum(DispatchMap(db))
  }

  lemma OutstandingIsDispatched(s: State)
    ensures Outstanding(s) <= AllDispatched(s.db)
  {
    SumMonotone(FlightMap(s), DispatchMap(s.db));
  }

  /** What a dispatcher of a hot claim knows about the float at its program point. */
  ghost predicate FundsOk(s: State, c: ClaimId)
    requires c in s.threads
  {
    Hot(s.db, c) ==>
      match s.threads[c]
      case Funding(_, _, _, balance, reserved) =>
        && (balance.Some? ==> balance.value + Outstanding(s) <= s.chain.balance + AllDispatched(s.db))
        && (reserved.Some? ==> AllDispatched(s.db) <= reserved.value)
      case Signing(_, _) => Worth(s.db, c) + Outstanding(s) <= s.chain.balance
      case Persisting(_, _, _) => Worth(s.db, c) + Outstanding(s) <= s.chain.balance
      case _ => true
  }

  ghost predicate Solvent(s: State) {
    && Outstanding(s) <= s.chain.balance
    && forall c {:trigger FundsOk(s, c)} :: c in s.threads ==> FundsOk(s, c)
  }

  // ---------------------------------------------------------------------------
  // Steps that do not touch what is in flight
  // ---------------------------------------------------------------------------

  /** The dispatching claims and their signatures are the same. */
  ghost predicate SameFlight(x: Db, y: Db) {
    && (forall c :: c in y.claims && y.claims[c].status.Dispatching? ==>
          c in x.claims && x.claims[c].status.Dispatching?)
    && (forall c :: c in x.claims && x.claims[c].status.Dispatching? ==>
          c in y.claims && y.claims[c].status.Dispatching? && y.claims[c].sig == x.claims[c].sig)
  }

  lemma SameMaps(cfg: Config, s: State, s': State)
    requires References(s) && ClaimsOk(cfg, s) && DbEvolves(s.db, s'.db) && SameFlight(s.db, s'.db)
    requires s'.chain.ok == s.chain.ok && s'.chain.err == s.chain.err
    ensures FlightMap(s') == FlightMap(s) && DispatchMap(s'.db) == DispatchMap(s.db)
    ensures forall c :: c in s.db.claims && Won(s.db.claims[c]) ==>
              (Hot(s'.db, c) <==> Hot(s.db, c)) && (Hot(s.db, c) ==> Worth(s'.db, c) == Worth(s.db, c))
  {
    forall c | c in s.db.claims && Won(s.db.claims[c])
      ensures Hot(s'.db, c) <==> Hot(s.db, c)
      ensures Hot(s.db, c) ==> Worth(s'.db, c) == Worth(s.db, c)
    {
      assert ClaimIn(cfg, s, c);
      assert ClaimEvolves(s.db.claims[c], s'.db.claims[c]);
      assert AssetEvolves(AssetOf(s, c), s'.db.assets[s.db.claims[c].asset]);
    }
    forall c | c in s.db.claims
      ensures InFlight(s', c) <==> InFlight(s, c)
      ensures Dispatched(s'.db, c) <==> Dispatched(s.db, c)
    {
    }
    assert forall c :: c in s'.db.claims && c !in s.db.claims ==> !Dispatched(s'.db, c);
  }

  /** Nothing moved in flight, the balance did not shrink, and no dispatcher moved. */
  lemma CalmKeepsSolvency(cfg: Config, s: State, s': State)
    requires Inv(cfg, s) && Solvent(s) && DbEvolves(s.db, s'.db) && SameFlight(s.db, s'.db)
    requires s'.threads == s.threads
    requires s'.chain.ok == s.chain.ok && s'.chain.err == s.chain.err && s.chain.balance <= s'.chain.balance
    ensures Solvent(s')
  {
    SameMaps(cfg, s, s');
    forall c | c in s'.threads ensures FundsOk(s', c) {
      assert FundsOk(s, c);
      DispatchedClaimWon(cfg, s, c);
    }
  }

  lemma CompleteSameFlight(threshold: nat, x: Db, seen: Unlocked, c: ClaimId, echo: Option<Address>, verdict: Verdict, now: nat)
    ensures SameFlight(x, Complete(threshold, x, seen, c, echo, verdict, now).0)
  {
    CompletionShape(threshold, x, seen, c, echo, verdict, now);
  }

  lemma ReapSameFlight(x: Db, rows: seq<ClaimId>, now: nat)
    requires ReapBatch(x.claims, rows, now)
    ensures SameFlight(x, Reap(x, rows))
  {
    forall c | c in x.claims && c in rows ensures x.claims[c].status.Claiming? {
      var i :| 0 <= i < |rows| && rows[i] == c;
    }
  }

  lemma ServiceSameFlight(cfg: Config, s: State, step: Step, s': State)
    requires ServiceStep(step) && ServiceNext(cfg, s, step) == Some(s')
    ensures SameFlight(s.db, s'.db)
  {
    match step
    case DoInitiate(c, k, claimant, expiresAt, delisted) =>
    case Hold(k, part) =>
    case DoComplete(c, echo, verdict, now, recipient) =>
      CompleteSameFlight(cfg.threshold, s.db, ReadsOf(s, c, recipient), c, echo, verdict, now);
    case DoApprove(c) =>
    case DoReap(rows, now) => ReapSameFlight(s.db, rows, now);
    case DoRebuild(plan, keyed, allowLive) =>
  }

  lemma BatchSameFlight(cfg: Config, s: State, step: Step, s': State)
    requires BatchStep(step) && BatchNext(cfg, s, step) == Some(s')
    ensures SameFlight(s.db, s'.db)
  {
    match step
    case DoReserve(b, rows, at) =>
      assert forall c :: c in rows ==> Reservable(s.db, c, cfg.batchNeedsApproval);
    case DoBuild(b, blockhash, lastValid) =>
    case DoCancel(b) =>
    case DoExpire(cutoff) =>
    case CountBatch(b) =>
    case WriteBatch(b, stillOpen) =>
  }

  // ---------------------------------------------------------------------------
  // Landing
  // ---------------------------------------------------------------------------

  /** A transaction that can still land belongs to a claim that is dispatching it right now. */
  lemma LandableIsDispatching(cfg: Config, s: State, t: Tx)
    requires Inv(cfg, s) && Good(cfg)
    requires t in s.chain.sent && !Landed(s.chain, t) && s.chain.height <= t.lastValid
    ensures t.memo.Some? && t.memo.value in s.db.claims
    ensures s.db.claims[t.memo.value].status.Dispatching? && s.db.claims[t.memo.value].sig == Some(t)
  {
    var c := t.memo.value;
    var cl := s.db.claims[c];
    assert ClaimIn(cfg, s, c);
    var i :| 0 <= i < |cl.txSigs| && cl.txSigs[i] == t;
    assert !Spent(s.chain, t);
    assert i == |cl.txSigs| - 1 && cl.sig.Some?;
  }

  lemma LandKeepsSolvency(cfg: Config, s: State, t: Tx, success: bool, s': State)
    requires Inv(cfg, s) && Good(cfg) && Solvent(s)
    requires Can(s.chain, Land(t, success)) && s' == s.(chain := After(s.chain, Land(t, success)))
    ensures Solvent(s')
  {
    LandedFlight(cfg, s, t, s');
    forall d | d in s'.threads ensures FundsOk(s', d) {
      assert FundsOk(s, d);
    }
  }

  /** What lands leaves the flight map, and takes its amount off the balance if it succeeds. */
  lemma LandedFlight(cfg: Config, s: State, t: Tx, s': State)
    requires Inv(cfg, s) && Good(cfg) && s'.db == s.db
    requires exists success :: Can(s.chain, Land(t, success)) && s'.chain == After(s.chain, Land(t, success))
    ensures s.chain.balance - s'.chain.balance <= Outstanding(s) - Outstanding(s')
    ensures Outstanding(s') <= Outstanding(s) && s'.chain.balance <= s.chain.balance
  {
    LandableIsDispatching(cfg, s, t);
    var c := t.memo.value;
    assert ClaimIn(cfg, s, c);
    OthersFlyOn(cfg, s, t, s');
    if Hot(s.db, c) {
      assert InFlight(s, c) && !InFlight(s', c);
      assert FlightMap(s') == FlightMap(s) - {c};
      SumSplit(FlightMap(s), c);
    } else {
      assert FlightMap(s') == FlightMap(s);
    }
  }

  /** Landing one transaction leaves every other claim in flight as it is. */
  lemma OthersFlyOn(cfg: Config, s: State, t: Tx, s': State)
    requires References(s) && ClaimsOk(cfg, s) && t.memo.Some?
    requires s'.db == s.db && s'.chain.ok + s'.chain.err == s.chain.ok + s.chain.err + {t}
    ensures forall d :: d in s.db.claims && d != t.memo.value ==> (InFlight(s', d) <==> InFlight(s, d))
  {
    forall d | d in s.db.claims && d != t.memo.value ensures InFlight(s', d) <==> InFlight(s, d) {
      assert ClaimIn(cfg, s, d);
      if s.db.claims[d].sig.Some? {
        var u := s.db.claims[d].sig.value;
        assert Landed(s'.chain, u) <==> u in s'.chain.ok + s'.chain.err;
      }
    }
  }

  // ---------------------------------------------------------------------------
  // Reading the float and checking it
  // ---------------------------------------------------------------------------

  /** The float query counts every dispatching hot claim at its full amount. */
  lemma ReservedCoversDispatched(cfg: Config, s: State, c: ClaimId)
    requires Inv(cfg, s) && c in s.threads && s.threads[c].Funding?
    ensures AllDispatched(s.db) <= Reserved(s.db, c)
  {
    var m := map d | d in s.db.claims :: Committed(s.db, c, d);
    forall d | d in DispatchMap(s.db) ensures DispatchMap(s.db)[d] <= m[d] {
      assert ClaimIn(cfg, s, d);
      assert ThreadIn(cfg, s, c);
    }
    SumMonotone(DispatchMap(s.db), m);
  }

  /** A dispatcher moved; what is in flight did not. */
  lemma MoveKeepsSolvency(s: State, c: ClaimId, s': State)
    requires Solvent(s) && s'.db == s.db && s'.chain == s.chain
    requires s'.threads.Keys <= s.threads.Keys + {c}
    requires forall d :: d in s'.threads && d != c ==> d in s.threads && s'.threads[d] == s.threads[d]
    requires c in s'.threads ==> FundsOk(s', c)
    ensures Solvent(s')
  {
    assert FlightMap(s') == FlightMap(s);
    forall d | d in s'.threads ensures FundsOk(s', d) {
      if d != c {
        assert FundsOk(s, d);
      }
    }
  }

  lemma ReadBalanceKeepsSolvency(cfg: Config, s: State, c: ClaimId, s': State)
    requires Solvent(s) && ReadBalanceNext(s, c) == Some(s')
    ensures Solvent(s')
  {
    OutstandingIsDispatched(s);
    assert FundsOk(s, c);
    assert FlightMap(s') == FlightMap(s);
    MoveKeepsSolvency(s, c, s');
  }

  lemma ReadReservedKeepsSolvency(cfg: Config, s: State, c: ClaimId, s': State)
    requires Inv(cfg, s) && Solvent(s) && ReadReservedNext(s, c) == Some(s')
    ensures Solvent(s')
  {
    ReservedCoversDispatched(cfg, s, c);
    assert FundsOk(s, c);
    assert FlightMap(s') == FlightMap(s);
    MoveKeepsSolvency(s, c, s');
  }

  /** What a passed check says: the amount fits between what is reserved and the balance, or is zero. */
  lemma CheckShape(cfg: Config, s: State, c: ClaimId, now: int, s': State)
    requires CheckFundsNext(cfg, s, c, now) == Some(s')
    ensures c in s.threads && s.threads[c].Funding? && s.threads[c].balance.Some? && s.threads[c].reserved.Some?
    ensures s'.db == s.db && s'.chain == s.chain
    ensures s'.threads == s.threads - {c} || (c in s'.threads && s'.threads == s.threads[c := s'.threads[c]])
    ensures c in s'.threads ==> !s'.threads[c].Funding? && !s'.threads[c].Persisting?
    ensures c in s'.threads && s'.threads[c].Signing? ==>
              var amount := Mario(s.threads[c].asset);
              amount == 0 || amount + s.threads[c].reserved.value <= s.threads[c].balance.value
  {
  }

  /** The check admits a claim only if the balance covers it on top of everything in flight. */
  lemma CheckFundsKeepsSolvency(cfg: Config, s: State, c: ClaimId, now: int, s': State)
    requires References(s) && ThreadsOk(cfg, s) && Solvent(s) && CheckFundsNext(cfg, s, c, now) == Some(s')
    ensures Solvent(s')
  {
    CheckShape(cfg, s, c, now, s');
    if c in s'.threads && s'.threads[c].Signing? {
      assert FundsOk(s, c);
      assert ThreadIn(cfg, s, c);
      assert FlightMap(s') == FlightMap(s);
      MoveKeepsSolvency(s, c, s');
    } else {
      QuietMove(s, c, s');
    }
  }

  /** The read steps that neither learn about the float nor rely on it. */
  predicate Indifferent(step: Step) {
    step.StartWorker? || step.StartSubmit? || step.Crash? || step.LoadClaimRow? || step.SampleHeight?
    || step.ReadStatus? || step.Scan?
  }

  lemma IndifferentShape(cfg: Config, s: State, step: Step, s': State)
    requires ReadStep(step) && Indifferent(step) && ReadNext(cfg, s, step) == Some(s')
    ensures s'.db == s.db && s'.chain == s.chain
    ensures s'.threads == s.threads - {step.c}
            || (step.c in s'.threads && s'.threads == s.threads[step.c := s'.threads[step.c]]
                && !s'.threads[step.c].Funding? && !s'.threads[step.c].Signing? && !s'.threads[step.c].Persisting?)
  {
  }

  lemma ReadKeepsSolvency(cfg: Config, s: State, step: Step, s': State)
    requires Inv(cfg, s) && Solvent(s) && ReadStep(step) && ReadNext(cfg, s, step) == Some(s')
    ensures Solvent(s')
  {
    if Indifferent(step) {
      IndifferentShape(cfg, s, step, s');
      QuietMove(s, step.c, s');
    } else {
      match step
      case ReadBalance(c) => ReadBalanceKeepsSolvency(cfg, s, c, s');
      case ReadReserved(c) => ReadReservedKeepsSolvency(cfg, s, c, s');
      case CheckFunds(c, clock) => CheckFundsKeepsSolvency(cfg, s, c, clock, s');
      case Sign(c, _, _) => SignKeepsSolvency(s, c, s');
      case OperatorLoad(c) => OperatorKeepsSolvency(cfg, s, c, s');
      case LoadAssetRow(c, signer) => LoadKeepsSolvency(cfg, s, c, signer, s');
    }
  }

  lemma QuietMove(s: State, c: ClaimId, s': State)
    requires Solvent(s) && s'.db == s.db && s'.chain == s.chain
    requires s'.threads == s.threads - {c}
             || (c in s'.threads && s'.threads == s.threads[c := s'.threads[c]]
                 && !s'.threads[c].Funding? && !s'.threads[c].Signing? && !s'.threads[c].Persisting?)
    ensures Solvent(s')
  {
    MoveKeepsSolvency(s, c, s');
  }

  lemma SignKeepsSolvency(s: State, c: ClaimId, s': State)
    requires Solvent(s) && s'.db == s.db && s'.chain == s.chain
    requires c in s.threads && s.threads[c].Signing?
    requires c in s'.threads && s'.threads == s.threads[c := s'.threads[c]] && s'.threads[c].Persisting?
    ensures Solvent(s')
  {
    assert FundsOk(s, c);
    assert FlightMap(s') == FlightMap(s);
    MoveKeepsSolvency(s, c, s');
  }

  lemma OperatorKeepsSolvency(cfg: Config, s: State, c: ClaimId, s': State)
    requires Inv(cfg, s) && Solvent(s) && OperatorLoadNext(s, c) == Some(s')
    ensures Solvent(s')
  {
    assert ThreadIn(cfg, s, c);
    OperatorMoves(s, c, s');
    if c in s'.threads && s'.threads[c].Persisting? {
      MoveKeepsSolvency(s, c, s');
    } else {
      QuietMove(s, c, s');
    }
  }

  lemma OperatorMoves(s: State, c: ClaimId, s': State)
    requires OperatorLoadNext(s, c) == Some(s')
    ensures s' == Done(s, c)
            || (c in s'.threads && s' == At(s, c, s'.threads[c]) && !s'.threads[c].Funding? && !s'.threads[c].Signing?)
    ensures c in s'.threads && s'.threads[c].Persisting? ==> c in s.threads && s.threads[c].Submitting?
  {
  }

  lemma LoadMoves(cfg: Config, s: State, c: ClaimId, signer: AntSigner, s': State)
    requires LoadAssetNext(cfg, s, c, signer) == Some(s')
    ensures s' == Done(s, c) || (c in s'.threads && s' == At(s, c, s'.threads[c]) && !s'.threads[c].Persisting?)
    ensures c in s'.threads && s'.threads[c].Funding? ==> s'.threads[c].balance.None? && s'.threads[c].reserved.None?
    ensures c in s'.threads && s'.threads[c].Signing? ==> !Hot(s.db, c)
  {
  }

  lemma LoadKeepsSolvency(cfg: Config, s: State, c: ClaimId, signer: AntSigner, s': State)
    requires Solvent(s) && LoadAssetNext(cfg, s, c, signer) == Some(s')
    ensures Solvent(s')
  {
    LoadMoves(cfg, s, c, signer, s');
    if c in s'.threads && (s'.threads[c].Funding? || s'.threads[c].Signing?) {
      MoveKeepsSolvency(s, c, s');
    } else {
      QuietMove(s, c, s');
    }
  }

  // ---------------------------------------------------------------------------
  // Persisting, and leaving the dispatching state
  // ---------------------------------------------------------------------------

  /** The other dispatchers know nothing about the float when the one of c works on the hot account. */
  lemma OthersAreCold(cfg: Config, s: State, c: ClaimId, d: ClaimId)
    requires Inv(cfg, s) && c in s.threads && d in s.threads && d != c && Hot(s.db, c)
    ensures !Hot(s.db, d)
  {
  }

  /** What the dispatcher of c does to the flight map and to the dispatched map. */
  ghost predicate OnlyFlight(s: State, s': State, c: ClaimId) {
    && s'.chain == s.chain
    && FlightMap(s') - {c} == FlightMap(s) - {c}
    && (!Hot(s.db, c) ==> FlightMap(s') == FlightMap(s) && DispatchMap(s'.db) == DispatchMap(s.db))
    && (forall d :: d in s'.threads && d != c ==> d in s.threads && s'.threads[d] == s.threads[d])
    && (forall d :: d in s.threads && d != c ==>
          (Hot(s'.db, d) <==> Hot(s.db, d)) && (Hot(s.db, d) ==> Worth(s'.db, d) == Worth(s.db, d)))
  }

  lemma OnlyFlightKeepsSolvency(cfg: Config, s: State, s': State, c: ClaimId)
    requires Inv(cfg, s) && c in s.threads && Solvent(s) && OnlyFlight(s, s', c)
    requires Outstanding(s') <= s.chain.balance
    requires c in s'.threads ==> FundsOk(s', c)
    ensures Solvent(s')
  {
    forall d | d in s'.threads ensures FundsOk(s', d) {
      if d != c {
        assert FundsOk(s, d);
        if Hot(s.db, c) {
          OthersAreCold(cfg, s, c, d);
        }
      }
    }
  }

  /** A claim past completion keeps its asset's kind and amount. */
  lemma GoodsStay(cfg: Config, s: State, s': State, d: ClaimId)
    requires References(s) && ClaimsOk(cfg, s) && DbEvolves(s.db, s'.db)
    requires d in s.db.claims && Won(s.db.claims[d])
    ensures Hot(s'.db, d) <==> Hot(s.db, d)
    ensures Hot(s.db, d) ==> Worth(s'.db, d) == Worth(s.db, d)
  {
    assert ClaimIn(cfg, s, d);
    assert ClaimEvolves(s.db.claims[d], s'.db.claims[d]);
    assert AssetEvolves(AssetOf(s, d), s'.db.assets[s.db.claims[d].asset]);
  }

  /** A claim that was not written is in flight exactly as before. */
  lemma UnwrittenStays(cfg: Config, s: State, s': State, d: ClaimId)
    requires References(s) && ClaimsOk(cfg, s) && DbEvolves(s.db, s'.db) && s'.chain == s.chain
    requires d in s.db.claims && s'.db.claims[d] == s.db.claims[d]
    ensures (InFlight(s', d) <==> InFlight(s, d)) && (Dispatched(s'.db, d) <==> Dispatched(s.db, d))
    ensures Dispatched(s.db, d) ==> Worth(s'.db, d) == Worth(s.db, d)
  {
    if s.db.claims[d].status.Dispatching? {
      GoodsStay(cfg, s, s', d);
    }
  }

  lemma RowWriteMaps(cfg: Config, s: State, s': State, c: ClaimId)
    requires References(s) && ClaimsOk(cfg, s) && DbEvolves(s.db, s'.db) && s'.chain == s.chain
    requires c in s.db.claims && c in s'.db.claims && s'.db.claims == s.db.claims[c := s'.db.claims[c]]
    requires Hot(s'.db, c) <==> Hot(s.db, c)
    ensures FlightMap(s') - {c} == FlightMap(s) - {c}
    ensures !Hot(s.db, c) ==> FlightMap(s') == FlightMap(s) && DispatchMap(s'.db) == DispatchMap(s.db)
  {
    forall d | d in s.db.claims && d != c
      ensures (InFlight(s', d) <==> InFlight(s, d)) && (Dispatched(s'.db, d) <==> Dispatched(s.db, d))
      ensures Dispatched(s.db, d) ==> Worth(s'.db, d) == Worth(s.db, d)
    {
      UnwrittenStays(cfg, s, s', d);
    }
    SameButOne(FlightMap(s), FlightMap(s'), c);
    SameButOne(DispatchMap(s.db), DispatchMap(s'.db), c);
  }

  lemma SameButOne(m: map<ClaimId, nat>, n: map<ClaimId, nat>, c: ClaimId)
    requires forall d :: d != c ==> (d in m <==> d in n)
    requires forall d :: d != c && d in m ==> m[d] == n[d]
    ensures n - {c} == m - {c}
    ensures c !in m && c !in n ==> m == n
  {
    assert forall d :: d in n - {c} <==> d in m - {c};
  }

  /** A write to claim c alone touches the flight map at c alone. */
  lemma RowWriteOnlyFlight(cfg: Config, s: State, s': State, c: ClaimId)
    requires References(s) && ClaimsOk(cfg, s) && ThreadsOk(cfg, s)
    requires c in s.threads && DbEvolves(s.db, s'.db) && s'.chain == s.chain
    requires c in s'.db.claims && s'.db.claims == s.db.claims[c := s'.db.claims[c]]
    requires forall d :: d in s'.threads && d != c ==> d in s.threads && s'.threads[d] == s.threads[d]
    ensures OnlyFlight(s, s', c)
    ensures Hot(s'.db, c) <==> Hot(s.db, c)
    ensures Hot(s.db, c) ==> Worth(s'.db, c) == Worth(s.db, c)
  {
    DispatchedClaimWon(cfg, s, c);
    GoodsStay(cfg, s, s', c);
    RowWriteMaps(cfg, s, s', c);
    forall d | d in s.threads
      ensures (Hot(s'.db, d) <==> Hot(s.db, d)) && (Hot(s.db, d) ==> Worth(s'.db, d) == Worth(s.db, d))
    {
      DispatchedClaimWon(cfg, s, d);
      GoodsStay(cfg, s, s', d);
    }
  }

  lemma SumWithout(m: map<ClaimId, nat>, c: ClaimId)
    ensures Sum(m) == Sum(m - {c}) + (if c in m then m[c] else 0)
  {
    if c in m {
      SumSplit(m, c);
    } else {
      assert m - {c} == m;
    }
  }

  lemma PersistKeepsSolvency(cfg: Config, s: State, c: ClaimId, s': State)
    requires Inv(cfg, s) && Solvent(s) && PersistNext(s, c) == Some(s')
    ensures Solvent(s')
  {
    DispatchedClaimWon(cfg, s, c);
    DoPersistEvolves(s, c, s');
    PersistShape(s, c, s');
    if c in s'.threads {
      SendingStaysFunded(cfg, s, c, s');
    } else {
      QuietMove(s, c, s');
    }
  }

  /** The claim enters the flight map at the worth its dispatcher already accounted for. */
  lemma SendingStaysFunded(cfg: Config, s: State, c: ClaimId, s': State)
    requires Inv(cfg, s) && Solvent(s) && c in s.threads && s.threads[c].Persisting? && DbEvolves(s.db, s'.db)
    requires c in s'.db.claims && s'.db.claims == s.db.claims[c := s'.db.claims[c]]
    requires s'.chain == s.chain
    requires s'.threads == s.threads[c := Broadcasting(s.threads[c].tx, s.threads[c].lastValid)]
    ensures Solvent(s')
  {
    assert FundsOk(s, c);
    RowWriteOnlyFlight(cfg, s, s', c);
    SumWithout(FlightMap(s), c);
    SumWithout(FlightMap(s'), c);
    OnlyFlightKeepsSolvency(cfg, s, s', c);
  }

  /** Leaving the dispatching state takes the claim out of the sum. */
  lemma LeaveKeepsSolvency(cfg: Config, s: State, c: ClaimId, s': State)
    requires Inv(cfg, s) && Solvent(s) && c in s.threads && DbEvolves(s.db, s'.db) && s'.chain == s.chain
    requires c in s'.db.claims && s'.db.claims == s.db.claims[c := s'.db.claims[c]]
    requires !s'.db.claims[c].status.Dispatching?
    requires s'.threads == s.threads - {c} || s'.threads == s.threads[c := Fresh]
    ensures Solvent(s')
  {
    RowWriteOnlyFlight(cfg, s, s', c);
    SumWithout(FlightMap(s), c);
    SumWithout(FlightMap(s'), c);
    OnlyFlightKeepsSolvency(cfg, s, s', c);
  }

  lemma ActKeepsSolvency(cfg: Config, s: State, c: ClaimId, s': State)
    requires Inv(cfg, s) && Solvent(s) && ActNext(s, c) == Some(s')
    ensures Solvent(s')
  {
    DispatchedClaimWon(cfg, s, c);
    ActEvolves(s, c, s');
    assert ThreadIn(cfg, s, c);
    if s'.db == s.db {
      QuietMove(s, c, s');
    } else {
      LeaveKeepsSolvency(cfg, s, c, s');
    }
  }

  lemma ActOnScanKeepsSolvency(cfg: Config, s: State, c: ClaimId, s': State)
    requires Inv(cfg, s) && Solvent(s) && ActOnScanNext(s, c) == Some(s')
    ensures Solvent(s')
  {
    DispatchedClaimWon(cfg, s, c);
    DispatcherFacts(cfg, s, c);
    ActOnScanEvolves(s, c, s');
    ScanRow(s, c, s');
    LeaveKeepsSolvency(cfg, s, c, s');
  }

  lemma RouteKeepsSolvency(cfg: Config, s: State, c: ClaimId, s': State)
    requires Inv(cfg, s) && Solvent(s) && RouteNext(s, c) == Some(s')
    ensures Solvent(s')
  {
    DispatchedClaimWon(cfg, s, c);
    DispatcherFacts(cfg, s, c);
    DoRouteEvolves(s, c, s');
    RouteRow(s, c, s');
    LeaveKeepsSolvency(cfg, s, c, s');
  }

  lemma BroadcastKeepsSolvency(cfg: Config, s: State, c: ClaimId, reaches: bool, s': State)
    requires Inv(cfg, s) && Solvent(s) && BroadcastNext(s, c, reaches) == Some(s')
    ensures Solvent(s')
  {
    var mid := At(s, c, s'.threads[c]);
    QuietMove(s, c, mid);
    BroadcastKeepsInv(cfg, s, c, false);
    assert mid == BroadcastNext(s, c, false).value;
    CalmKeepsSolvency(cfg, mid, s');
  }

  /** Solvency is inductive on a sufficiently truthful endpoint. */
  lemma StepKeepsSolvency(cfg: Config, s: State, step: Step, s': State)
    requires Inv(cfg, s) && Good(cfg) && Solvent(s) && Next(cfg, s, step) == Some(s')
    ensures Solvent(s')
  {
    if ServiceStep(step) {
      ServiceEvolves(cfg, s, step, s');
      ServiceSameFlight(cfg, s, step, s');
      CalmKeepsSolvency(cfg, s, s');
    } else if BatchStep(step) {
      BatchEvolves(cfg, s, step, s');
      BatchSameFlight(cfg, s, step, s');
      CalmKeepsSolvency(cfg, s, s');
    } else if ChainStep(step) {
      match step
      case LandTx(tx, success) => LandKeepsSolvency(cfg, s, tx, success, s');
      case Grow(_) => CalmKeepsSolvency(cfg, s, s');
      case TopUp(_) => CalmKeepsSolvency(cfg, s, s');
    } else if ReadStep(step) {
      ReadKeepsSolvency(cfg, s, step, s');
    } else {
      match step
      case DoPersist(c) => PersistKeepsSolvency(cfg, s, c, s');
      case Broadcast(c, reaches) => BroadcastKeepsSolvency(cfg, s, c, reaches, s');
      case ActOnAnswer(c) => ActKeepsSolvency(cfg, s, c, s');
      case ActOnScan(c) => ActOnScanKeepsSolvency(cfg, s, c, s');
      case DoRoute(c) => RouteKeepsSolvency(cfg, s, c, s');
    }
  }
}
