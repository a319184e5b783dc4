/**
 What no step ever undoes: a confirmed claim, a claimed asset, the goods of a live asset, a recorded
 signature, an audit row, a landed transaction.
 */
module Monotonicity {
  import opened Prelude
  import opened Chain
  import opened Rows
  import opened DispatchCore
  import opened Service
  import opened AntOperator
  import opened LedgerUpsert
  import opened Protocol
  import opened Invariant
  import opened Preservation

  predicate ClaimEvolves(x: Claim, y: Claim) {
    && y.asset == x.asset && y.claimant == x.claimant
    && x.txSigs <= y.txSigs && x.resign <= y.resign
    && (x.approved ==> y.approved)
    && (Won(x) ==> Won(y))
    && (x.status.Confirmed? ==> y == x)
  }

  predicate AssetEvolves(x: Asset, y: Asset) {
    && y.nonce == x.nonce
    && (Live(x) ==> Live(y) && SameGoods(x, y))
    && (x.status.Claimed? ==> y == x)
  }

  ghost predicate DbEvolves(x: Db, y: Db) {
    && x.audit <= y.audit
    && x.claims.Keys <= y.claims.Keys
    && (forall c :: c in x.claims ==> ClaimEvolves(x.claims[c], y.claims[c]))
    && x.assets.Keys <= y.assets.Keys
    && (forall k :: k in x.assets ==> AssetEvolves(x.assets[k], y.assets[k]))
  }

  // ---------------------------------------------------------------------------
  // What the writing steps of a dispatcher do to its own claim
  // ---------------------------------------------------------------------------

  /** What the dispatcher of claim c may still write to its row. */
  lemma DispatcherFacts(cfg: Config, s: State, c: ClaimId)
    requires References(s) && ClaimsOk(cfg, s) && ThreadsOk(cfg, s) && c in s.threads
    ensures c in s.db.claims
    ensures s.threads[c].Answered? ==>
              s.db.claims[c].status.Dispatching? && s.threads[c].purpose.sig in s.db.claims[c].txSigs
    ensures s.threads[c].Scanned? ==>
              && s.db.claims[c].status.Dispatching? && s.threads[c].resign == s.db.claims[c].resign
              && (s.threads[c].hit.Some? ==> s.threads[c].hit.value in s.db.claims[c].txSigs)
              && (s.threads[c].origin.Worker? ==> s.db.claims[c].batch.None?)
    ensures s.threads[c].Reviewing? || s.threads[c].Queueing? || s.threads[c].Failing? ==> Waiting(s.db.claims[c])
  {
    assert ThreadIn(cfg, s, c) && ClaimIn(cfg, s, c);
    var cl := s.db.claims[c];
    if s.threads[c].Answered? {
      assert cl.txSigs[|cl.txSigs| - 1] == s.threads[c].purpose.sig;
    }
  }

  lemma PersistShape(s: State, c: ClaimId, s': State)
    requires PersistNext(s, c) == Some(s')
    ensures s'.unbraked == s.unbraked && c in s.db.claims && c in s.threads && s.threads[c].Persisting?
    ensures s'.chain == s.chain
    ensures c in s'.threads ==> s'.threads == s.threads[c := Broadcasting(s.threads[c].tx, s.threads[c].lastValid)]
    ensures if c !in s'.threads then s'.db == s.db && s'.freeSends == s.freeSends && s'.threads == s.threads - {c}
            else
              && CanDispatch(s.db.claims[c])
              && c in s'.db.claims && s'.db.claims == s.db.claims[c := s'.db.claims[c]]
              && s'.db.claims[c].approved == s.db.claims[c].approved
              && s'.freeSends == if s.db.claims[c].approved then s.freeSends else s.freeSends + {s.db.claims[c].asset}
  {
  }

  lemma ActRow(s: State, c: ClaimId, s': State)
    requires ActNext(s, c) == Some(s') && c in s.db.claims && s.db.claims[c].status.Dispatching?
    requires s.threads[c].purpose.sig in s.db.claims[c].txSigs
    ensures c in s'.db.claims && s'.db.claims == s.db.claims[c := s'.db.claims[c]]
    ensures s'.db.claims[c].txSigs == s.db.claims[c].txSigs && s'.db.claims[c].approved == s.db.claims[c].approved
    ensures s'.unbraked == s.unbraked && s'.freeSends == s.freeSends
  {
    match s.threads[c].answer
    case Confirmed => FinalizeRow(s.db, c, s.threads[c].purpose.sig);
    case Failed => EndRow(s.db, c, s'.db);
    case _ => assert s.db.claims[c := s.db.claims[c]] == s.db.claims;
  }

  lemma FinalizeRow(x: Db, c: ClaimId, t: Tx)
    requires c in x.claims && t in x.claims[c].txSigs
    ensures var y := Finalize(x, c, t);
            c in y.claims && y.claims == x.claims[c := y.claims[c]] && y.claims[c].txSigs == x.claims[c].txSigs
            && y.claims[c].approved == x.claims[c].approved && y.claims[c].status.Confirmed?
  {
    assert x.claims[c := x.claims[c]] == x.claims;
  }

  lemma EndRow(x: Db, c: ClaimId, y: Db)
    requires c in x.claims && x.claims[c].status.Dispatching?
    requires y == MarkFailed(x, c) || y == MarkNeedsOperator(x, c).0
    ensures c in y.claims && y.claims == x.claims[c := y.claims[c]] && y.claims[c].txSigs == x.claims[c].txSigs
    ensures y.claims[c].approved == x.claims[c].approved && !y.claims[c].status.Dispatching?
  {
  }

  lemma DropRow(x: Db, c: ClaimId, y: Db)
    requires c in x.claims && x.claims[c].status.Dispatching?
    requires y == ReleaseForRebuild(x, c) || (y == ClearDeadSignature(x, c) && x.claims[c].batch.None?)
    ensures c in y.claims && y.claims == x.claims[c := y.claims[c]] && y.claims[c].txSigs == x.claims[c].txSigs
    ensures y.claims[c].approved == x.claims[c].approved && !y.claims[c].status.Dispatching?
  {
  }

  lemma ScanRow(s: State, c: ClaimId, s': State)
    requires ActOnScanNext(s, c) == Some(s') && c in s.db.claims && s.db.claims[c].status.Dispatching?
    requires s.threads[c].hit.Some? ==> s.threads[c].hit.value in s.db.claims[c].txSigs
    requires s.threads[c].origin.Worker? ==> s.db.claims[c].batch.None?
    ensures c in s'.db.claims && s'.db.claims == s.db.claims[c := s'.db.claims[c]]
    ensures s'.db.claims[c].txSigs == s.db.claims[c].txSigs && s'.db.claims[c].approved == s.db.claims[c].approved
    ensures !s'.db.claims[c].status.Dispatching? && s'.chain == s.chain
    ensures s'.threads == s.threads - {c} || s'.threads == s.threads[c := Fresh]
    ensures s'.unbraked == s.unbraked && s'.freeSends == s.freeSends
  {
    var Scanned(_, _, resign, hit) := s.threads[c];
    if hit.Some? {
      FinalizeRow(s.db, c, hit.value);
    } else if resign >= MAX_RESIGN_ATTEMPTS {
      EndRow(s.db, c, s'.db);
    } else {
      DropRow(s.db, c, s'.db);
    }
  }

  lemma RouteRow(s: State, c: ClaimId, s': State)
    requires RouteNext(s, c) == Some(s') && c in s.db.claims && Waiting(s.db.claims[c])
    ensures c in s'.db.claims && s'.db.claims == s.db.claims[c := s'.db.claims[c]]
    ensures s'.db.claims[c].txSigs == s.db.claims[c].txSigs
    ensures !s'.db.claims[c].status.Verified? && !s'.db.claims[c].status.Dispatching?
    ensures s'.chain == s.chain && s'.threads == s.threads - {c}
    ensures s'.unbraked == s.unbraked && s'.freeSends == s.freeSends
  {
    match s.threads[c]
    case Reviewing => assert s'.db == RouteToReview(s.db, c, s.db.claims[c].asset);
    case Queueing => assert s'.db == RouteToManualVault(s.db, c, s.db.claims[c].asset);
    case Failing => assert s'.db == MarkFailed(s.db, c);
  }

  /** No claim enters a batch, except through the reservation of batch b. */
  ghost predicate BatchesShrink(x: Db, y: Db, b: Option<BatchId>) {
    forall c :: c in y.claims && y.claims[c].batch.Some? ==>
      (c in x.claims && x.claims[c].batch == y.claims[c].batch) || y.claims[c].batch == b
  }

  /** No signature is recorded and no claim is confirmed. */
  ghost predicate Quiet(x: Db, y: Db) {
    forall c :: c in y.claims ==>
      if c in x.claims
      then y.claims[c].txSigs == x.claims[c].txSigs && (y.claims[c].status.Confirmed? ==> x.claims[c].status.Confirmed?)
      else y.claims[c].txSigs == [] && !y.claims[c].status.Confirmed?
  }

  /** A step forward outside the batch tables. */
  ghost predicate Moves(x: Db, y: Db) {
    DbEvolves(x, y) && BatchesShrink(x, y, None) && y.batches == x.batches
  }

  /** A write to one claim row and at most one asset row. */
  lemma RowEvolves(x: Db, y: Db, c: ClaimId, k: AssetKey)
    requires c in x.claims && c in y.claims && y.claims == x.claims[c := y.claims[c]]
    requires ClaimEvolves(x.claims[c], y.claims[c])
    requires y.claims[c].batch == x.claims[c].batch || y.claims[c].batch.None?
    requires y.assets == x.assets
             || (k in x.assets && k in y.assets && y.assets == x.assets[k := y.assets[k]] && AssetEvolves(x.assets[k], y.assets[k]))
    requires x.audit <= y.audit && y.batches == x.batches
    ensures Moves(x, y)
    ensures y.claims[c].txSigs == x.claims[c].txSigs && !y.claims[c].status.Confirmed? ==> Quiet(x, y)
  {
  }

  lemma PersistEvolves(x: Db, c: ClaimId, k: AssetKey, t: Tx, lastValid: nat, settlement: Option<nat>)
    requires c in x.claims && Won(x.claims[c])
    ensures var y := Persist(x, c, k, t, lastValid, settlement).0; Moves(x, y)
  {
    RowEvolves(x, Persist(x, c, k, t, lastValid, settlement).0, c, k);
  }

  lemma FinalizeEvolves(x: Db, c: ClaimId, t: Tx)
    requires c in x.claims && Won(x.claims[c])
    ensures Moves(x, Finalize(x, c, t))
  {
    RowEvolves(x, Finalize(x, c, t), c, x.claims[c].asset);
  }

  lemma EndEvolves(x: Db, c: ClaimId, y: Db)
    requires c in x.claims && Won(x.claims[c])
    requires y == MarkFailed(x, c) || y == MarkNeedsOperator(x, c).0
    ensures Moves(x, y) && (!x.claims[c].status.Confirmed? ==> Quiet(x, y))
  {
    if y == x {
      Unmoved(x);
    } else {
      RowEvolves(x, y, c, x.claims[c].asset);
    }
  }

  lemma DropEvolves(x: Db, c: ClaimId, y: Db)
    requires c in x.claims && Won(x.claims[c])
    requires y == ClearDeadSignature(x, c) || y == ReleaseForRebuild(x, c)
    ensures Moves(x, y) && (!x.claims[c].status.Confirmed? ==> Quiet(x, y))
  {
    RowEvolves(x, y, c, x.claims[c].asset);
  }

  lemma RouteEvolves(x: Db, c: ClaimId, k: AssetKey, y: Db)
    requires c in x.claims && Won(x.claims[c])
    requires y == RouteToReview(x, c, k) || y == RouteToManualVault(x, c, k)
    ensures Moves(x, y) && (!x.claims[c].status.Confirmed? ==> Quiet(x, y))
  {
    if y == x {
      Unmoved(x);
    } else {
      RowEvolves(x, y, c, k);
    }
  }

  lemma CompleteEvolves(threshold: nat, x: Db, seen: Unlocked, c: ClaimId, echo: Option<Address>, verdict: Verdict, now: nat)
    ensures var y := Complete(threshold, x, seen, c, echo, verdict, now).0; Moves(x, y) && Quiet(x, y)
  {
    CompletionShape(threshold, x, seen, c, echo, verdict, now);
    if c in x.claims {
      var (y, outcome) := Complete(threshold, x, seen, c, echo, verdict, now);
      RowEvolves(x, y, c, x.claims[c].asset);
    }
  }

  lemma ReapEvolves(x: Db, rows: seq<ClaimId>, now: nat)
    requires ReapBatch(x.claims, rows, now)
    ensures Moves(x, Reap(x, rows)) && Quiet(x, Reap(x, rows))
  {
    forall c | c in x.claims ensures ClaimEvolves(x.claims[c], Reap(x, rows).claims[c]) {
      if c in rows {
        var i :| 0 <= i < |rows| && rows[i] == c;
        assert Reapable(x.claims[rows[i]], now);
      }
    }
  }

  lemma ServiceSparesDispatch(cfg: Config, s: State, step: Step, s': State)
    requires ServiceStep(step) && ServiceNext(cfg, s, step) == Some(s')
    ensures s'.closing == s.closing && s'.threads == s.threads && s'.chain == s.chain
  {
  }

  lemma CompletionEvolves(cfg: Config, s: State, c: ClaimId, echo: Option<Address>, verdict: Verdict, now: nat,
                          recipient: Option<bool>, s': State)
    requires CompleteNext(cfg, s, c, echo, verdict, now, recipient) == Some(s')
    ensures Moves(s.db, s'.db) && Quiet(s.db, s'.db)
  {
    CompleteEvolves(cfg.threshold, s.db, ReadsOf(s, c, recipient), c, echo, verdict, now);
  }

  lemma ServiceEvolves(cfg: Config, s: State, step: Step, s': State)
    requires ServiceStep(step) && ServiceNext(cfg, s, step) == Some(s')
    ensures Moves(s.db, s'.db) && Quiet(s.db, s'.db)
    ensures s'.closing == s.closing && s'.threads == s.threads && s'.chain == s.chain
  {
    ServiceSparesDispatch(cfg, s, step, s');
    match step
    case DoInitiate(c, k, claimant, expiresAt, delisted) =>
    case Hold(k, part) => Unmoved(s.db);
    case DoComplete(c, echo, verdict, now, recipient) =>
      CompletionEvolves(cfg, s, c, echo, verdict, now, recipient, s');
    case DoApprove(c) =>
      if c in s.db.claims {
        RowEvolves(s.db, s'.db, c, s.db.claims[c].asset);
      }
    case DoReap(rows, now) => ReapEvolves(s.db, rows, now);
    case DoRebuild(plan, keyed, allowLive) => RebuildIsSafe(s.db.assets, plan);
  }

  lemma ReserveEvolves(cfg: Config, s: State, b: BatchId, rows: seq<ClaimId>, at: nat)
    requires ReserveNext(cfg, s, b, rows, at).Some?
    ensures DbEvolves(s.db, Reserve(s.db, b, rows, at)) && Quiet(s.db, Reserve(s.db, b, rows, at))
    ensures BatchesShrink(s.db, Reserve(s.db, b, rows, at), Some(b))
  {
    forall c | c in s.db.claims ensures ClaimEvolves(s.db.claims[c], Reserve(s.db, b, rows, at).claims[c]) {
      if c in rows {
        assert Reservable(s.db, c, cfg.batchNeedsApproval);
      }
    }
  }

  lemma BuildEvolves(x: Db, b: BatchId, blockhash: nat, lastValid: nat)
    ensures DbEvolves(x, Build(x, b, blockhash, lastValid)) && BatchesShrink(x, Build(x, b, blockhash, lastValid), None) && Quiet(x, Build(x, b, blockhash, lastValid))
  {
  }

  lemma CancelEvolves(x: Db, b: BatchId)
    ensures DbEvolves(x, Cancel(x, b)) && BatchesShrink(x, Cancel(x, b), None) && Quiet(x, Cancel(x, b))
  {
  }

  lemma ExpireEvolves(x: Db, cutoff: nat)
    ensures DbEvolves(x, ExpireStale(x, cutoff)) && BatchesShrink(x, ExpireStale(x, cutoff), None) && Quiet(x, ExpireStale(x, cutoff))
  {
  }

  lemma BatchEvolves(cfg: Config, s: State, step: Step, s': State)
    requires BatchStep(step) && BatchNext(cfg, s, step) == Some(s')
    ensures DbEvolves(s.db, s'.db) && Quiet(s.db, s'.db) && s'.threads == s.threads && s'.chain == s.chain
    ensures BatchesShrink(s.db, s'.db, if step.DoReserve? then Some(step.b) else None)
  {
    match step
    case DoReserve(b, rows, at) => ReserveEvolves(cfg, s, b, rows, at);
    case DoBuild(b, blockhash, lastValid) => BuildEvolves(s.db, b, blockhash, lastValid);
    case DoCancel(b) => CancelEvolves(s.db, b);
    case DoExpire(cutoff) => ExpireEvolves(s.db, cutoff);
    case CountBatch(b) =>
    case WriteBatch(b, stillOpen) =>
  }

  lemma ActEvolves(s: State, c: ClaimId, s': State)
    requires ActNext(s, c) == Some(s')
    requires c in s.db.claims && Won(s.db.claims[c])
    ensures Moves(s.db, s'.db) && s'.chain == s.chain && s'.closing == s.closing
  {
    match s.threads[c].answer
    case Confirmed => FinalizeEvolves(s.db, c, s.threads[c].purpose.sig);
    case Failed => EndEvolves(s.db, c, s'.db);
    case _ => Unmoved(s.db);
  }

  lemma ActOnScanEvolves(s: State, c: ClaimId, s': State)
    requires ActOnScanNext(s, c) == Some(s')
    requires c in s.db.claims && Won(s.db.claims[c])
    ensures Moves(s.db, s'.db) && s'.chain == s.chain && s'.closing == s.closing
  {
    var Scanned(_, _, resign, hit) := s.threads[c];
    if hit.Some? {
      FinalizeEvolves(s.db, c, hit.value);
    } else if resign >= MAX_RESIGN_ATTEMPTS {
      EndEvolves(s.db, c, s'.db);
    } else {
      DropEvolves(s.db, c, s'.db);
    }
  }

  lemma DoRouteEvolves(s: State, c: ClaimId, s': State)
    requires RouteNext(s, c) == Some(s')
    requires c in s.db.claims && Won(s.db.claims[c])
    ensures Moves(s.db, s'.db) && s'.chain == s.chain && s'.closing == s.closing
  {
    if s.threads[c].Failing? {
      EndEvolves(s.db, c, s'.db);
    } else {
      RouteEvolves(s.db, c, s.db.claims[c].asset, s'.db);
    }
  }

  lemma DoPersistEvolves(s: State, c: ClaimId, s': State)
    requires PersistNext(s, c) == Some(s')
    requires c in s.db.claims && Won(s.db.claims[c])
    ensures Moves(s.db, s'.db) && s'.chain == s.chain && s'.closing == s.closing
  {
    PersistEvolves(s.db, c, s.db.claims[c].asset, s.threads[c].tx, s.threads[c].lastValid, s.threads[c].settlement);
    Unmoved(s.db);
  }

  lemma BroadcastEvolves(s: State, c: ClaimId, reaches: bool, s': State)
    requires BroadcastNext(s, c, reaches) == Some(s')
    ensures s'.db == s.db && Later(s.chain, s'.chain) && s'.closing == s.closing
  {
    if reaches {
      assert s'.chain == After(s.chain, Send(s.threads[c].tx));
    }
  }

  lemma DispatchedClaimWon(cfg: Config, s: State, c: ClaimId)
    requires References(s) && ThreadsOk(cfg, s) && c in s.threads
    ensures c in s.db.claims && Won(s.db.claims[c])
  {
    assert ThreadIn(cfg, s, c);
  }

  lemma WriteEvolves(cfg: Config, s: State, step: Step, s': State)
    requires References(s) && ThreadsOk(cfg, s) && WriteStep(step) && WriteNext(cfg, s, step) == Some(s')
    ensures Moves(s.db, s'.db) && Later(s.chain, s'.chain) && s'.closing == s.closing
  {
    DispatchedClaimWon(cfg, s, step.c);
    match step
    case DoPersist(c) => DoPersistEvolves(s, c, s');
    case Broadcast(c, reaches) =>
      BroadcastEvolves(s, c, reaches, s');
      Unmoved(s.db);
    case ActOnAnswer(c) => ActEvolves(s, c, s');
    case ActOnScan(c) => ActOnScanEvolves(s, c, s');
    case DoRoute(c) => DoRouteEvolves(s, c, s');
  }

  lemma ReadEvolves(cfg: Config, s: State, step: Step, s': State)
    requires ReadStep(step) && ReadNext(cfg, s, step) == Some(s')
    ensures s' == s.(threads := s'.threads)
  {
  }

  lemma ChainEvolves(cfg: Config, s: State, step: Step, s': State)
    requires ChainStep(step) && ChainNext(cfg, s, step) == Some(s')
    ensures Later(s.chain, s'.chain) && s' == s.(chain := s'.chain)
  {
    match step
    case Grow(blocks) => TickIsMonotone(s.chain, s'.chain);
    case LandTx(tx, success) => TickIsMonotone(s.chain, s'.chain);
    case TopUp(mario) => TickIsMonotone(s.chain, s'.chain);
  }

  lemma Unmoved(x: Db)
    ensures Moves(x, x) && Quiet(x, x)
  {
  }

  /** Every step only moves the tables and the chain forward. */
  lemma StepEvolves(cfg: Config, s: State, step: Step, s': State)
    requires References(s) && ThreadsOk(cfg, s) && Next(cfg, s, step) == Some(s')
    ensures DbEvolves(s.db, s'.db) && Later(s.chain, s'.chain)
    ensures BatchesShrink(s.db, s'.db, if step.DoReserve? then Some(step.b) else None)
    ensures !BatchStep(step) ==> s'.db.batches == s.db.batches && s'.closing == s.closing
  {
    if ServiceStep(step) {
      ServiceEvolves(cfg, s, step, s');
    } else if BatchStep(step) {
      BatchEvolves(cfg, s, step, s');
    } else if ChainStep(step) {
      ChainEvolves(cfg, s, step, s');
      Unmoved(s.db);
    } else if ReadStep(step) {
      ReadEvolves(cfg, s, step, s');
      Unmoved(s.db);
    } else {
      WriteEvolves(cfg, s, step, s');
    }
  }

  lemma DbEvolvesTransitive(x: Db, y: Db, z: Db)
    requires DbEvolves(x, y) && DbEvolves(y, z)
    ensures DbEvolves(x, z)
  {
    forall c | c in x.claims ensures ClaimEvolves(x.claims[c], z.claims[c]) {
      assert ClaimEvolves(x.claims[c], y.claims[c]) && ClaimEvolves(y.claims[c], z.claims[c]);
    }
    forall k | k in x.assets ensures AssetEvolves(x.assets[k], z.assets[k]) {
      assert AssetEvolves(x.assets[k], y.assets[k]) && AssetEvolves(y.assets[k], z.assets[k]);
    }
  }
}
