/**
 Two further invariants: batch headers agree with the claims they cover, and the audit log has the
 rows of every dispatch.
 */
module Bookkeeping {
  import opened Prelude
  import opened Chain
  import opened Rows
  import opened DispatchCore
  import opened AntOperator
  import opened Protocol
  import opened Invariant
  import opened Monotonicity

  // ---------------------------------------------------------------------------
  // Batches
  // ---------------------------------------------------------------------------

  /** Every claim of the batch is confirmed. */
  ghost predicate AllConfirmed(db: Db, b: BatchId) {
    forall c :: c in db.claims && db.claims[c].batch == Some(b) ==> db.claims[c].status.Confirmed?
  }

  /** A claim's batch exists; completed means confirmed throughout; so does a count of zero. */
  ghost predicate BatchesOk(s: State) {
    && (forall c :: c in s.db.claims && s.db.claims[c].batch.Some? ==> s.db.claims[c].batch.value in s.db.batches)
    && (forall b :: b in s.db.batches && s.db.batches[b].status.Completed? ==> AllConfirmed(s.db, b))
    && (forall b :: (b, false) in s.closing ==> AllConfirmed(s.db, b))
  }

  /** Once all claims of a batch are confirmed they stay so, because no claim ever joins it. */
  lemma AllConfirmedStays(x: Db, y: Db, joined: Option<BatchId>, b: BatchId)
    requires DbEvolves(x, y) && BatchesShrink(x, y, joined) && joined != Some(b)
    requires AllConfirmed(x, b)
    ensures AllConfirmed(y, b)
  {
    forall c | c in y.claims && y.claims[c].batch == Some(b) ensures y.claims[c].status.Confirmed? {
      assert c in x.claims && ClaimEvolves(x.claims[c], y.claims[c]);
    }
  }

  /** How the batch headers may change: a new open one, or a completed one that was counted empty. */
  ghost predicate HeadersMove(s: State, s': State, step: Step) {
    && s.db.batches.Keys <= s'.db.batches.Keys
    && (forall b :: b in s'.db.batches && s'.db.batches[b].status.Completed? ==>
          (b in s.db.batches && s.db.batches[b].status.Completed?) || (b, false) in s.closing)
    && (step.DoReserve? ==> FreshBatch(s, step.b) && step.b in s'.db.batches && !s'.db.batches[step.b].status.Completed?)
    && (forall b :: (b, false) in s'.closing ==> (b, false) in s.closing || (step == CountBatch(b) && !StillOpen(s.db, b)))
  }

  lemma BatchMovesHeaders(cfg: Config, s: State, step: Step, s': State)
    requires BatchStep(step) && BatchNext(cfg, s, step) == Some(s')
    ensures HeadersMove(s, s', step)
  {
    match step
    case DoReserve(b, rows, at) =>
    case DoBuild(b, blockhash, lastValid) =>
    case DoCancel(b) =>
    case DoExpire(cutoff) =>
    case CountBatch(b) =>
    case WriteBatch(b, stillOpen) =>
  }

  lemma StepMovesHeaders(cfg: Config, s: State, step: Step, s': State)
    requires References(s) && ThreadsOk(cfg, s) && Next(cfg, s, step) == Some(s')
    ensures HeadersMove(s, s', step)
  {
    if BatchStep(step) {
      BatchMovesHeaders(cfg, s, step, s');
    } else {
      StepEvolves(cfg, s, step, s');
    }
  }

  lemma StepKeepsBatches(cfg: Config, s: State, step: Step, s': State)
    requires Inv(cfg, s) && BatchesOk(s) && Next(cfg, s, step) == Some(s')
    ensures BatchesOk(s')
  {
    StepEvolves(cfg, s, step, s');
    StepMovesHeaders(cfg, s, step, s');
    HeadersKeepBatches(s, step, s');
  }

  lemma HeadersKeepBatches(s: State, step: Step, s': State)
    requires BatchesOk(s) && HeadersMove(s, s', step) && DbEvolves(s.db, s'.db)
    requires BatchesShrink(s.db, s'.db, if step.DoReserve? then Some(step.b) else None)
    ensures BatchesOk(s')
  {
    var joined := if step.DoReserve? then Some(step.b) else None;
    forall b | b in s'.db.batches && s'.db.batches[b].status.Completed? ensures AllConfirmed(s'.db, b) {
      AllConfirmedStays(s.db, s'.db, joined, b);
    }
    forall b | (b, false) in s'.closing ensures AllConfirmed(s'.db, b) {
      if (b, false) in s.closing {
        AllConfirmedStays(s.db, s'.db, joined, b);
      } else {
        assert AllConfirmed(s.db, b);
        AllConfirmedStays(s.db, s'.db, joined, b);
      }
    }
  }

  // ---------------------------------------------------------------------------
  // Audit rows of a dispatch
  // ---------------------------------------------------------------------------

  predicate ClaimLogged(audit: seq<AuditRow>, c: ClaimId, cl: Claim) {
    && (cl.txSigs != [] ==> AuditRow(DispatchStarted, Some(c)) in audit)
    && (cl.status.Confirmed? ==> AuditRow(DispatchConfirmed, Some(c)) in audit)
  }

  ghost predicate AuditOk(db: Db) {
    forall c :: c in db.claims ==> ClaimLogged(db.audit, c, db.claims[c])
  }

  lemma QuietKeepsAudit(x: Db, y: Db)
    requires AuditOk(x) && DbEvolves(x, y) && Quiet(x, y)
    ensures AuditOk(y)
  {
  }

  lemma PersistKeepsAudit(x: Db, c: ClaimId, k: AssetKey, t: Tx, lastValid: nat, settlement: Option<nat>)
    requires AuditOk(x)
    ensures AuditOk(Persist(x, c, k, t, lastValid, settlement).0)
  {
    var y := Persist(x, c, k, t, lastValid, settlement).0;
    forall d | d in y.claims ensures ClaimLogged(y.audit, d, y.claims[d]) {
      assert ClaimLogged(x.audit, d, x.claims[d]);
    }
  }

  lemma FinalizeKeepsAudit(x: Db, c: ClaimId, t: Tx)
    requires AuditOk(x) && (c in x.claims ==> x.claims[c].txSigs != [])
    ensures AuditOk(Finalize(x, c, t))
  {
    var y := Finalize(x, c, t);
    forall d | d in y.claims ensures ClaimLogged(y.audit, d, y.claims[d]) {
      assert ClaimLogged(x.audit, d, x.claims[d]);
    }
  }

  lemma RecordedSignature(cfg: Config, s: State, c: ClaimId)
    requires Inv(cfg, s) && c in s.threads && (s.threads[c].Answered? || s.threads[c].Scanned?)
    ensures s.db.claims[c].txSigs != [] && !s.db.claims[c].status.Confirmed?
  {
    assert ThreadIn(cfg, s, c) && ClaimIn(cfg, s, c);
  }

  lemma ActKeepsAudit(cfg: Config, s: State, c: ClaimId, s': State)
    requires AuditOk(s.db) && c in s.db.claims && Won(s.db.claims[c])
    requires s.db.claims[c].txSigs != [] && !s.db.claims[c].status.Confirmed?
    requires ActNext(s, c) == Some(s') || ActOnScanNext(s, c) == Some(s')
    ensures AuditOk(s'.db)
  {
    if s.threads[c].Answered? {
      FinalizeKeepsAudit(s.db, c, s.threads[c].purpose.sig);
      EndEvolves(s.db, c, MarkFailed(s.db, c));
      QuietKeepsAudit(s.db, MarkFailed(s.db, c));
    } else if s.threads[c].hit.Some? {
      FinalizeKeepsAudit(s.db, c, s.threads[c].hit.value);
    } else if s.threads[c].resign >= MAX_RESIGN_ATTEMPTS {
      EndEvolves(s.db, c, s'.db);
      QuietKeepsAudit(s.db, s'.db);
    } else {
      DropEvolves(s.db, c, s'.db);
      QuietKeepsAudit(s.db, s'.db);
    }
  }

  lemma RouteKeepsAudit(s: State, c: ClaimId, s': State)
    requires AuditOk(s.db) && c in s.db.claims && Won(s.db.claims[c])
    requires RouteNext(s, c) == Some(s')
    ensures AuditOk(s'.db)
  {
    var k := s.db.claims[c].asset;
    if !s.db.claims[c].status.Confirmed? {
      if s.threads[c].Failing? {
        EndEvolves(s.db, c, s'.db);
      } else {
        RouteEvolves(s.db, c, k, s'.db);
      }
      QuietKeepsAudit(s.db, s'.db);
    }
  }

  lemma PersistStepKeepsAudit(s: State, c: ClaimId, s': State)
    requires AuditOk(s.db) && PersistNext(s, c) == Some(s')
    ensures AuditOk(s'.db)
  {
    var pc := s.threads[c];
    PersistKeepsAudit(s.db, c, s.db.claims[c].asset, pc.tx, pc.lastValid, pc.settlement);
  }

  lemma WriteKeepsAudit(cfg: Config, s: State, step: Step, s': State)
    requires Inv(cfg, s) && AuditOk(s.db) && WriteStep(step) && WriteNext(cfg, s, step) == Some(s')
    ensures AuditOk(s'.db)
  {
    DispatchedClaimWon(cfg, s, step.c);
    if step.c in s.threads && (s.threads[step.c].Answered? || s.threads[step.c].Scanned?) {
      RecordedSignature(cfg, s, step.c);
    }
    DispatchWriteKeepsAudit(cfg, s, step, s');
  }

  lemma DispatchWriteKeepsAudit(cfg: Config, s: State, step: Step, s': State)
    requires AuditOk(s.db) && WriteStep(step) && WriteNext(cfg, s, step) == Some(s')
    requires step.c in s.db.claims && Won(s.db.claims[step.c])
    requires step.c in s.threads && (s.threads[step.c].Answered? || s.threads[step.c].Scanned?) ==>
               s.db.claims[step.c].txSigs != [] && !s.db.claims[step.c].status.Confirmed?
    ensures AuditOk(s'.db)
  {
    match step
    case DoPersist(c) => PersistStepKeepsAudit(s, c, s');
    case Broadcast(c, reaches) =>
    case ActOnAnswer(c) => ActKeepsAudit(cfg, s, c, s');
    case ActOnScan(c) => ActKeepsAudit(cfg, s, c, s');
    case DoRoute(c) => RouteKeepsAudit(s, c, s');
  }

  lemma StepKeepsAudit(cfg: Config, s: State, step: Step, s': State)
    requires Inv(cfg, s) && AuditOk(s.db) && Next(cfg, s, step) == Some(s')
    ensures AuditOk(s'.db)
  {
    if ServiceStep(step) {
      ServiceEvolves(cfg, s, step, s');
      QuietKeepsAudit(s.db, s'.db);
    } else if BatchStep(step) {
      BatchEvolves(cfg, s, step, s');
      QuietKeepsAudit(s.db, s'.db);
    } else if ChainStep(step) {
      ChainEvolves(cfg, s, step, s');
    } else if ReadStep(step) {
      ReadEvolves(cfg, s, step, s');
    } else {
      WriteKeepsAudit(cfg, s, step, s');
    }
  }
}
