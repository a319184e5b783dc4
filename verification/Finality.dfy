/**
 Steps that are never taken back: an ended claim keeps its row, a completed batch stays completed, a
 winner stays the winner, and a cancel or expiry leaves every submitted claim alone.
 */
module Finality {
  import opened Prelude
  import opened Chain
  import opened Rows
  import opened Service
  import opened AntOperator
  import opened Protocol
  import opened Invariant
  import opened Preservation
  import opened Monotonicity

  /** No dispatcher works on the claim again: only an operator outside the protocol can. */
  predicate Terminal(cl: Claim) {
    Ended(cl) || cl.status.AwaitingManualVault?
  }

  ghost predicate TerminalKept(x: Db, y: Db) {
    forall c :: c in x.claims && Terminal(x.claims[c]) ==> c in y.claims && y.claims[c] == x.claims[c]
  }

  /** A step that writes claim c alone keeps the others, and c too unless it was terminal. */
  lemma RowKeepsTerminal(x: Db, y: Db, c: ClaimId)
    requires c in x.claims && c in y.claims && y.claims == x.claims[c := y.claims[c]]
    requires !Terminal(x.claims[c])
    ensures TerminalKept(x, y)
  {
  }

  lemma ServiceKeepsTerminal(cfg: Config, s: State, step: Step, s': State)
    requires ServiceStep(step) && ServiceNext(cfg, s, step) == Some(s')
    ensures TerminalKept(s.db, s'.db)
  {
    match step
    case DoInitiate(c, k, claimant, expiresAt, delisted) =>
    case Hold(k, part) =>
    case DoComplete(c, echo, verdict, now, recipient) =>
      CompletionShape(cfg.threshold, s.db, ReadsOf(s, c, recipient), c, echo, verdict, now);
    case DoApprove(c) =>
    case DoReap(rows, now) =>
      forall c | c in s.db.claims && c in rows ensures s.db.claims[c].status.Claiming? {
        var i :| 0 <= i < |rows| && rows[i] == c;
      }
    case DoRebuild(plan, keyed, allowLive) =>
  }

  lemma BatchKeepsTerminal(cfg: Config, s: State, step: Step, s': State)
    requires BatchStep(step) && BatchNext(cfg, s, step) == Some(s')
    ensures TerminalKept(s.db, s'.db)
  {
    match step
    case DoReserve(b, rows, at) =>
      assert forall c :: c in rows ==> Reservable(s.db, c, cfg.batchNeedsApproval);
    case DoBuild(b, blockhash, lastValid) =>
    case DoCancel(b) =>
    case DoExpire(cutoff) =>
    case CountBatch(b) =>
    case WriteBatch(b, stillOpen) =>
  }

  lemma WriteKeepsTerminal(cfg: Config, s: State, step: Step, s': State)
    requires References(s) && ClaimsOk(cfg, s) && ThreadsOk(cfg, s) && WriteStep(step) && WriteNext(cfg, s, step) == Some(s')
    ensures TerminalKept(s.db, s'.db)
  {
    DispatcherFacts(cfg, s, step.c);
    match step
    case DoPersist(c) => PersistKeepsTerminal(s, c, s');
    case Broadcast(c, reaches) => BroadcastEvolves(s, c, reaches, s');
    case ActOnAnswer(c) => ActKeepsTerminal(s, c, s');
    case ActOnScan(c) => ScanKeepsTerminal(s, c, s');
    case DoRoute(c) => RouteKeepsTerminal(s, c, s');
  }

  lemma PersistKeepsTerminal(s: State, c: ClaimId, s': State)
    requires PersistNext(s, c) == Some(s')
    ensures TerminalKept(s.db, s'.db)
  {
    PersistShape(s, c, s');
  }

  lemma ActKeepsTerminal(s: State, c: ClaimId, s': State)
    requires ActNext(s, c) == Some(s') && c in s.db.claims && s.db.claims[c].status.Dispatching?
    requires s.threads[c].purpose.sig in s.db.claims[c].txSigs
    ensures TerminalKept(s.db, s'.db)
  {
    ActRow(s, c, s');
    RowKeepsTerminal(s.db, s'.db, c);
  }

  lemma ScanKeepsTerminal(s: State, c: ClaimId, s': State)
    requires ActOnScanNext(s, c) == Some(s') && c in s.db.claims && s.db.claims[c].status.Dispatching?
    requires s.threads[c].hit.Some? ==> s.threads[c].hit.value in s.db.claims[c].txSigs
    requires s.threads[c].origin.Worker? ==> s.db.claims[c].batch.None?
    ensures TerminalKept(s.db, s'.db)
  {
    ScanRow(s, c, s');
    RowKeepsTerminal(s.db, s'.db, c);
  }

  lemma RouteKeepsTerminal(s: State, c: ClaimId, s': State)
    requires RouteNext(s, c) == Some(s') && c in s.db.claims && Waiting(s.db.claims[c])
    ensures TerminalKept(s.db, s'.db)
  {
    RouteRow(s, c, s');
    RowKeepsTerminal(s.db, s'.db, c);
  }

  /** Confirmed, failed, frozen and manually queued claims keep their whole row. */
  lemma StepKeepsTerminal(cfg: Config, s: State, step: Step, s': State)
    requires Inv(cfg, s) && Next(cfg, s, step) == Some(s')
    ensures TerminalKept(s.db, s'.db)
  {
    if ServiceStep(step) {
      ServiceKeepsTerminal(cfg, s, step, s');
    } else if BatchStep(step) {
      BatchKeepsTerminal(cfg, s, step, s');
    } else if ChainStep(step) {
      ChainEvolves(cfg, s, step, s');
    } else if ReadStep(step) {
      ReadEvolves(cfg, s, step, s');
    } else {
      WriteKeepsTerminal(cfg, s, step, s');
    }
  }

  // ---------------------------------------------------------------------------
  // Winners
  // ---------------------------------------------------------------------------

  /** Each asset was completed at most once without replay, and by its recorded winner. */
  ghost predicate WinsOk(s: State) {
    && (forall i, j :: 0 <= i < j < |s.wins| ==> s.wins[i] != s.wins[j])
    && (forall k :: k in s.wins <==> k in s.winner)
  }

  ghost predicate WinnersStay(s: State, s': State) {
    forall k :: k in s.winner ==> k in s'.winner && s'.winner[k] == s.winner[k]
  }

  lemma CompleteKeepsWins(cfg: Config, s: State, c: ClaimId, echo: Option<Address>, verdict: Verdict, now: nat,
                          recipient: Option<bool>, s': State)
    requires References(s) && WinnersOk(s) && WinsOk(s)
    requires Some(s') == CompleteNext(cfg, s, c, echo, verdict, now, recipient)
    ensures WinsOk(s') && WinnersStay(s, s')
  {
    CompletionShape(cfg.threshold, s.db, ReadsOf(s, c, recipient), c, echo, verdict, now);
    if s'.wins != s.wins {
      assert s.db.claims[c].asset !in s.winner;
    }
  }

  lemma ReadNeverWins(cfg: Config, s: State, step: Step, s': State)
    requires ReadStep(step) && ReadNext(cfg, s, step) == Some(s')
    ensures s'.wins == s.wins && s'.winner == s.winner
  {
  }

  lemma WriteNeverWins(cfg: Config, s: State, step: Step, s': State)
    requires WriteStep(step) && WriteNext(cfg, s, step) == Some(s')
    ensures s'.wins == s.wins && s'.winner == s.winner
  {
  }

  lemma OnlyCompletionWins(cfg: Config, s: State, step: Step, s': State)
    requires !step.DoComplete? && Next(cfg, s, step) == Some(s')
    ensures s'.wins == s.wins && s'.winner == s.winner
  {
    if ReadStep(step) {
      ReadNeverWins(cfg, s, step, s');
    } else if WriteStep(step) {
      WriteNeverWins(cfg, s, step, s');
    }
  }

  lemma StepKeepsWins(cfg: Config, s: State, step: Step, s': State)
    requires Inv(cfg, s) && WinsOk(s) && Next(cfg, s, step) == Some(s')
    ensures WinsOk(s') && WinnersStay(s, s')
  {
    if step.DoComplete? {
      CompleteKeepsWins(cfg, s, step.c, step.echo, step.verdict, step.now, step.recipient, s');
    } else {
      OnlyCompletionWins(cfg, s, step, s');
    }
  }

  // ---------------------------------------------------------------------------
  // Batches
  // ---------------------------------------------------------------------------

  /** Cancelling and expiring leave a claim with a persisted signature exactly as it is. */
  lemma FreeingSparesSubmitted(cfg: Config, s: State, step: Step, s': State, c: ClaimId)
    requires step.DoCancel? || step.DoExpire?
    requires Next(cfg, s, step) == Some(s')
    requires c in s.db.claims && s.db.claims[c].sig.Some?
    ensures c in s'.db.claims && s'.db.claims[c] == s.db.claims[c]
  {
  }

  lemma BatchKeepsCompleted(cfg: Config, s: State, step: Step, s': State, b: BatchId)
    requires BatchStep(step) && BatchNext(cfg, s, step) == Some(s')
    requires b in s.db.batches && s.db.batches[b].status.Completed?
    ensures b in s'.db.batches && s'.db.batches[b] == s.db.batches[b]
  {
    match step
    case DoReserve(_, rows, at) =>
    case DoBuild(_, blockhash, lastValid) =>
    case DoCancel(_) =>
    case DoExpire(cutoff) =>
    case CountBatch(_) =>
    case WriteBatch(_, stillOpen) =>
  }

  /** A completed batch header never changes again. */
  lemma CompletedStays(cfg: Config, s: State, step: Step, s': State, b: BatchId)
    requires References(s) && ThreadsOk(cfg, s) && Next(cfg, s, step) == Some(s')
    requires b in s.db.batches && s.db.batches[b].status.Completed?
    ensures b in s'.db.batches && s'.db.batches[b] == s.db.batches[b]
  {
    if BatchStep(step) {
      BatchKeepsCompleted(cfg, s, step, s', b);
    } else {
      StepEvolves(cfg, s, step, s');
    }
  }
}
