/**
 What the claims service does to the tables, step by step and in terms of the rows alone: when a claim can be
 asked for, what a completion adds up and decides, what an approval, the reaper and a rebuild write.
 */
module ServiceOutcomes {
  import opened Prelude
  import opened Chain
  import opened Rows
  import opened Service
  import opened LedgerUpsert
  import opened LedgerWriter
  import opened Protocol

  // ---------------------------------------------------------------------------
  // Asking
  // ---------------------------------------------------------------------------

  /** A listed, available asset of a recipient with a public key gets a new claim row; anything else changes nothing. */
  lemma AskingOpensAClaim(cfg: Config, s: State, c: ClaimId, k: AssetKey, claimant: Address, expiresAt: nat, delisted: bool)
    requires c !in s.db.claims
    ensures var done := Next(cfg, s, DoInitiate(c, k, claimant, expiresAt, delisted));
            if k in s.db.assets && s.db.assets[k].status.Available? && !delisted
               && s.db.assets[k].recipient in s.db.keyed && s.db.keyed[s.db.assets[k].recipient]
            then
              var row := Claim(k, claimant, expiresAt, Claiming, false, None, None, None, [], 0, None, None, None, None, None);
              done == Some(s.(db := s.db.(claims := s.db.claims[c := row], audit := s.db.audit + [AuditRow(Initiated, Some(c))])))
            else done == Some(s)
  {
  }

  // ---------------------------------------------------------------------------
  // Adding up
  // ---------------------------------------------------------------------------

  /** What an asset row adds to the total of recipient r. */
  function Adds(a: Asset, r: RecipientId): nat {
    if a.recipient != r then 0
    else
      match a.status
      case Available => a.amount.GetOr(0)
      case InClaim => a.amount.GetOr(0)
      case InReview => a.amount.GetOr(0)
      case Claimed => a.amount.GetOr(0)
      case _ => 0
  }

  /** Without rows the total is nothing, and each row adds its share: this says what every total is. */
  lemma TotalAddsUp(assets: map<AssetKey, Asset>, r: RecipientId, k: AssetKey)
    ensures RecipientTotal(map[], r) == 0
    ensures k in assets ==> RecipientTotal(assets, r) == RecipientTotal(assets - {k}, r) + Adds(assets[k], r)
  {
    var none: map<AssetKey, Asset> := map[];
    assert (map l | l in none && CountsForBrake(none[l], r) :: Mario(none[l])) == map[];
    if k in assets {
      var all := map l | l in assets && CountsForBrake(assets[l], r) :: Mario(assets[l]);
      var rest := assets - {k};
      var others := map l | l in rest && CountsForBrake(rest[l], r) :: Mario(rest[l]);
      assert all - {k} == others;
      if k in all {
        SumSplit(all, k);
      } else {
        assert all == others;
      }
    }
  }

  /** A row that one completion has locked cannot be locked by another, and only an available one can be locked. */
  lemma LockIsExclusive(cfg: Config, s: State, k: AssetKey)
    ensures Next(cfg, s, Hold(k, LockAsset)) ==
            if k in s.db.assets && s.db.assets[k].status.Available? && k !in s.open then Some(s.(open := s.open[k := None])) else None
    ensures Next(cfg, s, Hold(k, Release)) == if k in s.open then Some(s.(open := s.open - {k})) else None
    ensures k in s.db.assets && k in s.open && s.open[k].None? ==>
              Next(cfg, s, Hold(k, ReadTotal)) ==
              Some(s.(open := s.open[k := Some(RecipientTotal(s.db.assets, s.db.assets[k].recipient))]))
  {
  }

  // ---------------------------------------------------------------------------
  // Completing
  // ---------------------------------------------------------------------------

  /** The total a completion of c has read, if it has read one. */
  function TotalRead(s: State, c: ClaimId): nat {
    if c in s.db.claims && s.db.claims[c].asset in s.open then s.open[s.db.claims[c].asset].GetOr(0) else 0
  }

  /** Every completion goes by its guards; one that wins needs the lock and the total, and is remembered as the winner. */
  lemma CompletionGoesByItsGuards(cfg: Config, s: State, c: ClaimId, echo: Option<Address>, verdict: Verdict, now: nat,
                                  recipient: Option<bool>)
    returns (db: Db, outcome: Outcome)
    ensures CompletionSays(cfg.threshold, s.db, Unlocked(recipient, TotalRead(s, c)), c, echo, verdict, now, db, outcome)
    ensures var done := Next(cfg, s, DoComplete(c, echo, verdict, now, recipient));
            if outcome.Accepted? && !outcome.replay then
              c in s.db.claims
              && var k := s.db.claims[c].asset;
                 if k in s.open && s.open[k].Some? then
                   done == Some(s.(db := db, winner := s.winner[k := c], wins := s.wins + [k], open := s.open - {k},
                                   unbraked := if outcome.review then s.unbraked else s.unbraked + {k}))
                 else done == None
            else done == Some(s.(db := db))
  {
    var seen := ReadsOf(s, c, recipient);
    var result := Complete(cfg.threshold, s.db, seen, c, echo, verdict, now);
    db, outcome := result.0, result.1;
    CompletionDecides(cfg.threshold, s.db, seen, c, echo, verdict, now);
  }

  /** An open challenge for a locked, available asset whose recipient has a key, with the recipient's total read. */
  predicate CanWin(s: State, c: ClaimId, echo: Option<Address>, now: nat) {
    && c in s.db.claims && s.db.claims[c].status.Claiming? && now < s.db.claims[c].expiresAt
    && (echo.None? || echo.value == s.db.claims[c].claimant)
    && s.db.claims[c].asset in s.db.assets && s.db.assets[s.db.claims[c].asset].status.Available?
    && s.db.claims[c].asset in s.open && s.open[s.db.claims[c].asset].Some?
  }

  /**
   The brake, from both sides: with a valid proof the claim goes to review exactly when its own amount or the
   recipient's total is above the threshold, and is ready for dispatch otherwise.
   */
  lemma BrakeDecides(cfg: Config, s: State, c: ClaimId, echo: Option<Address>, now: nat) returns (s': State)
    requires CanWin(s, c, echo, now)
    ensures Next(cfg, s, DoComplete(c, echo, ProofValid, now, Some(true))) == Some(s')
    ensures var k := s.db.claims[c].asset;
            var amount := s.db.assets[k].amount.GetOr(0);
            var braked := cfg.threshold > 0 && (amount > cfg.threshold || s.open[k].value > cfg.threshold);
            && s'.db.claims == s.db.claims[c := s.db.claims[c].(status := if braked then PendingReview else Verified)]
            && s'.db.assets == s.db.assets[k := s.db.assets[k].(status := if braked then InReview else InClaim)]
            && s'.db.audit == s.db.audit + [AuditRow(if braked then Review else Verification, Some(c))]
            && s'.db.keyed == s.db.keyed && s'.db.batches == s.db.batches
            && s'.chain == s.chain && s'.threads == s.threads && s'.open == s.open - {k}
            && s'.winner == s.winner[k := c] && s'.wins == s.wins + [k]
            && s'.unbraked == (if braked then s.unbraked else s.unbraked + {k})
  {
    var db, outcome := CompletionGoesByItsGuards(cfg, s, c, echo, ProofValid, now, Some(true));
    s' := Next(cfg, s, DoComplete(c, echo, ProofValid, now, Some(true))).value;
  }

  /** A proof that does not verify costs the claim its challenge and leaves the asset available to others. */
  lemma BadProofIsRejected(cfg: Config, s: State, c: ClaimId, echo: Option<Address>, now: nat)
    requires CanWin(s, c, echo, now)
    ensures Next(cfg, s, DoComplete(c, echo, ProofRefused, now, Some(true))) ==
            Some(s.(db := s.db.(claims := s.db.claims[c := s.db.claims[c].(status := ClaimStatus.Rejected)],
                                audit := s.db.audit + [AuditRow(Rejection, Some(c))])))
  {
    var db, outcome := CompletionGoesByItsGuards(cfg, s, c, echo, ProofRefused, now, Some(true));
  }

  /** A fault of the infrastructure, or a recipient without a key, changes no row: the challenge can be answered again. */
  lemma FaultChangesNothing(cfg: Config, s: State, c: ClaimId, echo: Option<Address>, now: nat)
    requires CanWin(s, c, echo, now)
    ensures Next(cfg, s, DoComplete(c, echo, InfraFault, now, Some(true))) == Some(s)
    ensures forall verdict :: Next(cfg, s, DoComplete(c, echo, verdict, now, Some(false))) == Some(s)
  {
    var db, outcome := CompletionGoesByItsGuards(cfg, s, c, echo, InfraFault, now, Some(true));
    forall verdict ensures Next(cfg, s, DoComplete(c, echo, verdict, now, Some(false))) == Some(s) {
      var db, outcome := CompletionGoesByItsGuards(cfg, s, c, echo, verdict, now, Some(false));
    }
  }

  // ---------------------------------------------------------------------------
  // Approving, reaping, rebuilding
  // ---------------------------------------------------------------------------

  /** Claims that are verified or wait for review can be approved, and no others. */
  lemma ApprovalMarks(cfg: Config, s: State, c: ClaimId)
    ensures var done := Next(cfg, s, DoApprove(c));
            if c in s.db.claims && (s.db.claims[c].status.PendingReview? || s.db.claims[c].status.Verified?) then
              done == Some(s.(db := s.db.(claims := s.db.claims[c := s.db.claims[c].(approved := true)],
                                          audit := s.db.audit + [AuditRow(Approval, Some(c))])))
            else done == Some(s)
  {
  }

  /** The reaper takes open challenges that have run out, each once, and does nothing else to them. */
  lemma ReaperExpires(cfg: Config, s: State, rows: seq<ClaimId>, now: nat)
    ensures var done := Next(cfg, s, DoReap(rows, now));
            && (done.Some? <==>
                  && (forall c :: c in rows ==> c in s.db.claims && s.db.claims[c].status.Claiming? && s.db.claims[c].expiresAt <= now)
                  && (forall i, j :: 0 <= i < j < |rows| ==> rows[i] != rows[j]))
            && (done.Some? ==>
                  var s' := done.value;
                  && s' == s.(db := s.db.(claims := s'.db.claims, audit := s'.db.audit))
                  && s'.db.claims.Keys == s.db.claims.Keys
                  && (forall c :: c in s.db.claims ==>
                        s'.db.claims[c] == if c in rows then s.db.claims[c].(status := ClaimStatus.Expired) else s.db.claims[c])
                  && |s'.db.audit| == |s.db.audit| + |rows| && s.db.audit <= s'.db.audit
                  && (forall i :: 0 <= i < |rows| ==> s'.db.audit[|s.db.audit| + i] == AuditRow(Expiry, Some(rows[i]))))
  {
    if Next(cfg, s, DoReap(rows, now)).Some? {
      assert ReapBatch(s.db.claims, rows, now);
      forall c | c in rows
        ensures c in s.db.claims && s.db.claims[c].status.Claiming? && s.db.claims[c].expiresAt <= now
      {
        var i :| 0 <= i < |rows| && rows[i] == c;
        assert Reapable(s.db.claims[rows[i]], now);
      }
    }
    if (forall c :: c in rows ==> c in s.db.claims && s.db.claims[c].status.Claiming? && s.db.claims[c].expiresAt <= now)
       && forall i, j :: 0 <= i < j < |rows| ==> rows[i] != rows[j] {
      forall i | 0 <= i < |rows| ensures rows[i] in s.db.claims && Reapable(s.db.claims[rows[i]], now) {
        assert rows[i] in rows;
      }
      assert ReapBatch(s.db.claims, rows, now);
    }
  }

  /** A rebuild refuses plans that would touch a won asset unless told otherwise, and writes the plan and the published keys. */
  lemma RebuildWrites(cfg: Config, s: State, rows: seq<PlanRow>, keyed: map<RecipientId, bool>, allowLive: bool)
    requires forall i, j :: 0 <= i < j < |rows| ==> rows[i].key != rows[j].key
    requires forall i :: 0 <= i < |rows| ==>
               rows[i].key !in s.open && if rows[i].kind.Ant? then rows[i].mint.Some? && rows[i].amount.None? else rows[i].amount.Some?
    ensures var done := Next(cfg, s, DoRebuild(rows, keyed, allowLive));
            && (done.Some? <==>
                  allowLive || forall i :: 0 <= i < |rows| && rows[i].key in s.db.assets ==> Unwon(s.db.assets[rows[i].key]))
            && (done.Some? ==>
                  && done.value == s.(db := s.db.(assets := done.value.db.assets, keyed := s.db.keyed + keyed))
                  && Rebuilt(s.db.assets, done.value.db.assets, rows))
  {
    forall i | 0 <= i < |rows| ensures ShapeOk(Excluded(rows[i], rows[i].nonce)) {
      assert rows[i].key !in s.open;
    }
    assert PlanShape(rows);
    UpsertRebuilds(s.db.assets, rows);
  }
}
