/**
 What the operator-wallet flow does to the tables, step by step and in terms of the rows alone: reserving, building,
 submitting, cancelling, expiring and closing a batch of ANT claims.
 */
module BatchOutcomes {
  import opened Prelude
  import opened Chain
  import opened Rows
  import opened Protocol

  // ---------------------------------------------------------------------------
  // Reserve and build
  // ---------------------------------------------------------------------------

  /** An ANT claim that waits for its handover and has never been signed for or reserved. */
  predicate WaitsForBatch(db: Db, c: ClaimId, needsApproval: bool) {
    && c in db.claims && db.claims[c].sig.None? && db.claims[c].batch.None?
    && (if needsApproval
        then db.claims[c].approved && (db.claims[c].status.Verified? || db.claims[c].status.PendingReview?)
        else db.claims[c].status.Verified? || (db.claims[c].approved && db.claims[c].status.PendingReview?))
    && db.claims[c].asset in db.assets
    && var a := db.assets[db.claims[c].asset]; a.kind.Ant? && (a.status.InClaim? || a.status.InReview?)
  }

  predicate Mintless(db: Db, c: ClaimId) {
    c in db.claims && (db.claims[c].asset in db.assets ==> db.assets[db.claims[c].asset].mint.None?)
  }

  /** A new batch takes waiting claims only, and all that it is given, except those without a mint. */
  lemma ReservingTakes(cfg: Config, s: State, b: BatchId, rows: seq<ClaimId>, at: nat)
    requires b !in s.db.batches && (b, false) !in s.closing && (b, true) !in s.closing
    ensures var done := Next(cfg, s, DoReserve(b, rows, at));
            && (done.Some? <==> forall c :: c in rows ==> WaitsForBatch(s.db, c, cfg.batchNeedsApproval))
            && (done.Some? ==>
                  var s' := done.value;
                  && s' == s.(db := s.db.(claims := s'.db.claims, batches := s.db.batches[b := Batch(at, Open)],
                                          audit := s.db.audit + [AuditRow(BatchEvent, None)]))
                  && s'.db.claims.Keys == s.db.claims.Keys
                  && forall c :: c in s.db.claims ==>
                       s'.db.claims[c] == if c in rows && !Mintless(s.db, c)
                                          then s.db.claims[c].(batch := Some(b), reservedAt := Some(at)) else s.db.claims[c])
  {
  }

  /** What is still to be built of a batch: no signature yet, and claim and asset open for a dispatch. */
  predicate ToBuild(db: Db, c: ClaimId, b: BatchId) {
    && c in db.claims && db.claims[c].batch == Some(b) && db.claims[c].sig.None?
    && (db.claims[c].status.Verified? || (db.claims[c].approved && db.claims[c].status.PendingReview?))
    && db.claims[c].asset in db.assets
    && var a := db.assets[db.claims[c].asset]; a.kind.Ant? && a.mint.Some? && (a.status.InClaim? || a.status.InReview?)
  }

  /** The handover of the claim's own ANT to its claimant, for the operator's wallet to sign. */
  function Handover(db: Db, c: ClaimId, b: BatchId, blockhash: nat, lastValid: nat): Tx
    requires ToBuild(db, c, b)
  {
    Tx(AntHandover(db.assets[db.claims[c].asset].mint.value, db.claims[c].claimant), blockhash, lastValid, Some(c))
  }

  /** Building writes the handover into the reservation of everything that is to be built, and touches nothing else. */
  lemma BuildingWrites(cfg: Config, s: State, b: BatchId, blockhash: nat, lastValid: nat) returns (s': State)
    ensures Next(cfg, s, DoBuild(b, blockhash, lastValid)) == Some(s')
    ensures s' == s.(db := s.db.(claims := s'.db.claims, audit := s.db.audit + [AuditRow(BatchEvent, None)]))
    ensures s'.db.claims.Keys == s.db.claims.Keys
    ensures forall c :: c in s.db.claims ==>
              s'.db.claims[c] == if ToBuild(s.db, c, b)
                                 then
                                   var t := Handover(s.db, c, b, blockhash, lastValid);
                                   s.db.claims[c].(reservedTxid := Some(t), reservedLastValid := Some(lastValid), reservedWire := Some(t))
                                 else s.db.claims[c]
  {
    s' := Next(cfg, s, DoBuild(b, blockhash, lastValid)).value;
  }

  // ---------------------------------------------------------------------------
  // Cancel and expire
  // ---------------------------------------------------------------------------

  /** The reservation is undone. */
  function Freed(c: Claim): Claim {
    c.(batch := None, reservedAt := None, reservedTxid := None, reservedLastValid := None, reservedWire := None)
  }

  predicate Unsigned(c: Claim) {
    c.sig.None? && (c.status.Verified? || c.status.PendingReview?)
  }

  /** Some claim of the batch has been signed and persisted. */
  ghost predicate PartlySubmitted(db: Db, b: BatchId) {
    exists c :: c in db.claims && db.claims[c].batch == Some(b) && db.claims[c].sig.Some?
  }

  /**
   Cancelling frees what has not been signed, back to where it came from by its approval, and voids a batch of which
   nothing was submitted.
   */
  lemma CancellingFrees(cfg: Config, s: State, b: BatchId) returns (s': State)
    ensures Next(cfg, s, DoCancel(b)) == Some(s')
    ensures s' == s.(db := s.db.(claims := s'.db.claims, batches := s'.db.batches, audit := s.db.audit + [AuditRow(BatchEvent, None)]))
    ensures s'.db.claims.Keys == s.db.claims.Keys
    ensures forall c :: c in s.db.claims ==>
              var row := s.db.claims[c];
              s'.db.claims[c] == if row.batch == Some(b) && Unsigned(row)
                                 then Freed(row).(status := if row.approved then PendingReview else Verified) else row
    ensures s'.db.batches == if b in s.db.batches && (s.db.batches[b].status.Open? || s.db.batches[b].status.Submitted?)
                                && !PartlySubmitted(s.db, b)
                             then s.db.batches[b := s.db.batches[b].(status := Voided)] else s.db.batches
  {
    s' := Next(cfg, s, DoCancel(b)).value;
    forall c | c in s.db.claims
      ensures s.db.claims[c].batch == Some(b) && s.db.claims[c].sig.Some?
              <==> s'.db.claims[c].batch == Some(b) && s'.db.claims[c].sig.Some?
    {
    }
  }

  /** The time a reservation may stand is over. */
  predicate RanOut(c: Claim, cutoff: nat) {
    Unsigned(c) && c.reservedAt.Some? && c.reservedAt.value < cutoff
  }

  /** Expiry frees the reservations that ran out, without touching their status, and voids open batches left without any claim. */
  lemma ExpiryFrees(cfg: Config, s: State, cutoff: nat) returns (s': State)
    ensures Next(cfg, s, DoExpire(cutoff)) == Some(s')
    ensures s' == s.(db := s.db.(claims := s'.db.claims, batches := s'.db.batches))
    ensures s'.db.claims.Keys == s.db.claims.Keys && s'.db.batches.Keys == s.db.batches.Keys
    ensures forall c :: c in s.db.claims ==>
              s'.db.claims[c] == if RanOut(s.db.claims[c], cutoff) then Freed(s.db.claims[c]) else s.db.claims[c]
    ensures forall b :: b in s.db.batches ==>
              s'.db.batches[b] ==
              if s.db.batches[b].status.Open? && s.db.batches[b].createdAt < cutoff
                 && (forall c :: c in s.db.claims && s.db.claims[c].batch == Some(b) ==> RanOut(s.db.claims[c], cutoff))
              then s.db.batches[b].(status := Voided) else s.db.batches[b]
  {
    s' := Next(cfg, s, DoExpire(cutoff)).value;
    forall c | c in s.db.claims
      ensures s'.db.claims[c] == if RanOut(s.db.claims[c], cutoff) then Freed(s.db.claims[c]) else s.db.claims[c]
    {
    }
    forall b | b in s.db.batches
      ensures (exists c :: c in s'.db.claims && s'.db.claims[c].batch == Some(b))
              <==> exists c :: c in s.db.claims && s.db.claims[c].batch == Some(b) && !RanOut(s.db.claims[c], cutoff)
    {
      if c :| c in s.db.claims && s.db.claims[c].batch == Some(b) && !RanOut(s.db.claims[c], cutoff) {
        assert c in s'.db.claims && s'.db.claims[c].batch == Some(b);
      }
    }
  }

  // ---------------------------------------------------------------------------
  // Closing a batch
  // ---------------------------------------------------------------------------

  /** Every claim of the batch is confirmed. */
  ghost predicate AllConfirmed(db: Db, b: BatchId) {
    forall c :: c in db.claims && db.claims[c].batch == Some(b) ==> db.claims[c].status.Confirmed?
  }

  /** The first statement looks whether all claims are confirmed, the second writes what the first saw. */
  lemma ClosingWrites(cfg: Config, s: State, b: BatchId, stillOpen: bool)
    ensures Next(cfg, s, CountBatch(b)) == Some(s.(closing := s.closing + {(b, !AllConfirmed(s.db, b))}))
    ensures var done := Next(cfg, s, WriteBatch(b, stillOpen));
            if (b, stillOpen) !in s.closing then done == None
            else if b in s.db.batches && (s.db.batches[b].status.Open? || s.db.batches[b].status.Submitted?) then
              done == Some(s.(closing := s.closing - {(b, stillOpen)},
                              db := s.db.(batches := s.db.batches[b := s.db.batches[b].(
                                            status := if stillOpen then Submitted else Completed)])))
            else done == Some(s.(closing := s.closing - {(b, stillOpen)}))
  {
  }

  // ---------------------------------------------------------------------------
  // Submitting
  // ---------------------------------------------------------------------------

  /** A submission needs the claim's reservation in that batch and the authority's signature over the stored transaction. */
  lemma SubmittingNeedsTheReservation(cfg: Config, s: State, c: ClaimId, b: BatchId, txid: Tx, authorityOver: Tx)
    ensures var done := Next(cfg, s, StartSubmit(c, b, txid, authorityOver));
            if c !in s.threads && c in s.db.claims && s.db.claims[c].batch == Some(b)
               && s.db.claims[c].reservedTxid == Some(txid) && s.db.claims[c].reservedWire == Some(authorityOver)
            then done == Some(s.(threads := s.threads[c := Submitting(authorityOver, s.db.claims[c].reservedLastValid.GetOr(0))]))
            else done == None
  {
  }

  /**
   A submission that finds its claim confirmed is over; one that finds it dispatching looks again and recovers the
   recorded signature; and only otherwise the signed transaction is persisted and sent.
   */
  lemma SubmissionLooksFirst(cfg: Config, s: State, c: ClaimId)
    requires c in s.threads && c in s.db.claims && (s.threads[c].Submitting? || s.threads[c].Reloading?)
    ensures var done, row := Next(cfg, s, OperatorLoad(c)), s.db.claims[c];
            match s.threads[c]
            case Submitting(t, lastValid) =>
              if row.status.Confirmed? then done == Some(s.(threads := s.threads - {c}))
              else if row.status.Dispatching? && row.sig.Some? then done == Some(s.(threads := s.threads[c := Reloading]))
              else done == Some(s.(threads := s.threads[c := Persisting(t, lastValid, None)]))
            case _ =>
              if row.status.Dispatching? && row.sig.Some? then
                done == Some(s.(threads := s.threads[c := Confirming(Recovery(Operator, row.sig.value, row.lastValid.GetOr(0),
                                                                               [row.sig.value] + row.txSigs, row.resign))]))
              else done == Some(s.(threads := s.threads - {c}))
  {
  }
}
