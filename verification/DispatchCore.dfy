/**
 The committed transactions of the dispatch core. Each is given as a function on the tables'
 contents, which the protocol uses as one atomic step, and as the step-by-step
 transaction body that implements it.
 */
module DispatchCore {
  import opened Prelude
  import opened Chain
  import opened Rows

  /** Store the signature and move the claim to dispatching; false aborts, and nothing may be sent. */
  function Persist(db: Db, c: ClaimId, k: AssetKey, signed: Tx, lastValid: nat, settlement: Option<nat>): (Db, bool) {
    if c !in db.claims || !CanDispatch(db.claims[c])
       || k !in db.assets || !(db.assets[k].status.InClaim? || db.assets[k].status.InReview?) then
      (db, false)
    else
      var row := db.claims[c].(
        status := Dispatching, sig := Some(signed), lastValid := Some(lastValid),
        settlement := settlement, txSigs := db.claims[c].txSigs + [signed]);
      (Log(SetAssetStatus(SetClaim(db, c, row), k, InClaim), DispatchStarted, c), true)
  }

  /** The claim is confirmed and its asset claimed; repeated calls change nothing. */
  function Finalize(db: Db, c: ClaimId, signature: Tx): Db {
    if c !in db.claims || db.claims[c].status.Confirmed? then db
    else
      var was := db.claims[c];
      var row := was.(
        status := ClaimStatus.Confirmed,
        txSigs := if signature in was.txSigs then was.txSigs else was.txSigs + [signature]);
      var db1 := SetClaim(db, c, row);
      var db2 := if was.asset in db1.assets
                 then db1.(assets := db1.assets[was.asset := db1.assets[was.asset].(status := Claimed)])
                 else db1;
      Log(db2, DispatchConfirmed, c)
  }

  function MarkFailed(db: Db, c: ClaimId): Db {
    if c !in db.claims || db.claims[c].status.Confirmed? then db
    else Log(SetClaim(db, c, db.claims[c].(status := ClaimStatus.Failed)), DispatchFailed, c)
  }

  function MarkNeedsOperator(db: Db, c: ClaimId): (Db, bool) {
    if c !in db.claims || db.claims[c].status.Confirmed? || db.claims[c].status.NeedsOperator? then (db, false)
    else (Log(SetClaim(db, c, db.claims[c].(status := NeedsOperator)), AuditKind.Frozen, c), true)
  }

  function RevertStatus(c: Claim): ClaimStatus {
    if c.approved then PendingReview else Verified
  }

  /** Drop a dead signature; refused for a claim that sits in an operator batch. */
  function ClearDeadSignature(db: Db, c: ClaimId): Db {
    if c !in db.claims || !db.claims[c].status.Dispatching? || db.claims[c].batch.Some? then db
    else
      var was := db.claims[c];
      Log(SetClaim(db, c, was.(status := RevertStatus(was), sig := None, lastValid := None,
                               resign := was.resign + 1)), DispatchExpired, c)
  }

  function RouteToReview(db: Db, c: ClaimId, k: AssetKey): Db {
    if c !in db.claims || db.claims[c].status.Confirmed? || db.claims[c].status.Dispatching? then db
    else
      Log(SetAssetStatus(SetClaim(db, c, db.claims[c].(status := PendingReview)), k, InReview), Review, c)
  }

  function RouteToManualVault(db: Db, c: ClaimId, k: AssetKey): Db {
    if c !in db.claims || db.claims[c].status.Confirmed? || db.claims[c].status.Dispatching? then db
    else
      Log(SetAssetStatus(SetClaim(db, c, db.claims[c].(status := AwaitingManualVault)), k, InReview),
          ManualVault, c)
  }

  // ---------------------------------------------------------------------------
  // The transaction bodies
  // ---------------------------------------------------------------------------

  method PersistDispatching(db: Tables, c: ClaimId, k: AssetKey, signed: Tx, lastValid: nat, settlement: Option<nat>)
    returns (persisted: bool)
    modifies db
    ensures (db.View(), persisted) == Persist(old(db.View()), c, k, signed, lastValid, settlement)
    ensures persisted <==>
            && c in old(db.claims)
            && (old(db.claims)[c].status.Verified? || (old(db.claims)[c].status.PendingReview? && old(db.claims)[c].approved))
            && k in old(db.assets) && (old(db.assets)[k].status.InClaim? || old(db.assets)[k].status.InReview?)
    ensures !persisted ==> db.View() == old(db.View())
    ensures persisted ==>
              && db.claims == old(db.claims)[c := old(db.claims)[c].(
                   status := Dispatching, sig := Some(signed), lastValid := Some(lastValid), settlement := settlement,
                   txSigs := old(db.claims)[c].txSigs + [signed])]
              && db.assets == old(db.assets)[k := old(db.assets)[k].(status := InClaim)]
              && db.audit == old(db.audit) + [AuditRow(DispatchStarted, Some(c))]
              && db.keyed == old(db.keyed) && db.batches == old(db.batches)
  {
    if c !in db.claims {
      return false;
    }
    var row := db.claims[c];
    if !(row.status.Verified? || (row.status.PendingReview? && row.approved)) {
      return false;
    }
    if k !in db.assets {
      return false;
    }
    var asset := db.assets[k];
    if !asset.status.InClaim? && !asset.status.InReview? {
      return false;
    }
    row := row.(status := Dispatching);
    row := row.(sig := Some(signed), lastValid := Some(lastValid));
    row := row.(settlement := settlement, txSigs := row.txSigs + [signed]);
    db.claims := db.claims[c := row];
    db.UpdateAssetUnlessClaimed(k, InClaim);
    db.Append(DispatchStarted, Some(c));
    return true;
  }

  method FinalizeConfirmed(db: Tables, c: ClaimId, signature: Tx)
    modifies db
    ensures db.View() == Finalize(old(db.View()), c, signature)
    ensures c !in old(db.claims) || old(db.claims)[c].status.Confirmed? ==> db.View() == old(db.View())
    ensures c in old(db.claims) && !old(db.claims)[c].status.Confirmed? ==>
              var was := old(db.claims)[c];
              && db.claims == old(db.claims)[c := was.(
                   status := ClaimStatus.Confirmed, txSigs := if signature in was.txSigs then was.txSigs else was.txSigs + [signature])]
              && db.assets == (if was.asset in old(db.assets)
                               then old(db.assets)[was.asset := old(db.assets)[was.asset].(status := Claimed)] else old(db.assets))
              && db.audit == old(db.audit) + [AuditRow(DispatchConfirmed, Some(c))]
              && db.keyed == old(db.keyed) && db.batches == old(db.batches)
  {
    if c !in db.claims {
      return;
    }
    var row := db.claims[c];
    if row.status.Confirmed? {
      return;
    }
    row := row.(status := ClaimStatus.Confirmed);
    if signature !in row.txSigs {
      row := row.(txSigs := row.txSigs + [signature]);
    }
    db.claims := db.claims[c := row];
    if row.asset in db.assets {
      db.assets := db.assets[row.asset := db.assets[row.asset].(status := Claimed)];
    }
    db.Append(DispatchConfirmed, Some(c));
  }

  method FailClaim(db: Tables, c: ClaimId)
    modifies db
    ensures db.View() == MarkFailed(old(db.View()), c)
    ensures db.View() ==
            if c !in old(db.claims) || old(db.claims)[c].status.Confirmed? then old(db.View())
            else
              old(db.View()).(claims := old(db.claims)[c := old(db.claims)[c].(status := ClaimStatus.Failed)],
                              audit := old(db.audit) + [AuditRow(DispatchFailed, Some(c))])
  {
    if c !in db.claims {
      return;
    }
    var row := db.claims[c];
    if row.status.Confirmed? {
      return;
    }
    db.claims := db.claims[c := row.(status := ClaimStatus.Failed)];
    db.Append(DispatchFailed, Some(c));
  }

  method FreezeForOperator(db: Tables, c: ClaimId) returns (flipped: bool)
    modifies db
    ensures (db.View(), flipped) == MarkNeedsOperator(old(db.View()), c)
    ensures flipped <==> c in old(db.claims) && !old(db.claims)[c].status.Confirmed? && !old(db.claims)[c].status.NeedsOperator?
    ensures db.View() ==
            if !flipped then old(db.View())
            else
              old(db.View()).(claims := old(db.claims)[c := old(db.claims)[c].(status := NeedsOperator)],
                              audit := old(db.audit) + [AuditRow(AuditKind.Frozen, Some(c))])
  {
    if c !in db.claims {
      return false;
    }
    var row := db.claims[c];
    if row.status.Confirmed? || row.status.NeedsOperator? {
      return false;
    }
    db.claims := db.claims[c := row.(status := NeedsOperator)];
    db.Append(AuditKind.Frozen, Some(c));
    return true;
  }

  method ClearSignature(db: Tables, c: ClaimId)
    modifies db
    ensures db.View() == ClearDeadSignature(old(db.View()), c)
    ensures db.View() ==
            if c !in old(db.claims) || !old(db.claims)[c].status.Dispatching? || old(db.claims)[c].batch.Some? then old(db.View())
            else
              var was := old(db.claims)[c];
              old(db.View()).(claims := old(db.claims)[c := was.(
                                status := if was.approved then PendingReview else Verified, sig := None, lastValid := None,
                                resign := was.resign + 1)],
                              audit := old(db.audit) + [AuditRow(DispatchExpired, Some(c))])
  {
    if c !in db.claims {
      return;
    }
    var row := db.claims[c];
    if !row.status.Dispatching? || row.batch.Some? {
      return;
    }
    var revertTo := if row.approved then PendingReview else Verified;
    row := row.(status := revertTo, sig := None, lastValid := None);
    row := row.(resign := row.resign + 1);
    db.claims := db.claims[c := row];
    db.Append(DispatchExpired, Some(c));
  }

  method SendToReview(db: Tables, c: ClaimId, k: AssetKey)
    modifies db
    ensures db.View() == RouteToReview(old(db.View()), c, k)
    ensures db.View() ==
            if c !in old(db.claims) || old(db.claims)[c].status.Confirmed? || old(db.claims)[c].status.Dispatching? then old(db.View())
            else
              old(db.View()).(claims := old(db.claims)[c := old(db.claims)[c].(status := PendingReview)],
                              assets := if k in old(db.assets) && old(db.assets)[k].status != Claimed
                                        then old(db.assets)[k := old(db.assets)[k].(status := InReview)] else old(db.assets),
                              audit := old(db.audit) + [AuditRow(Review, Some(c))])
  {
    if c !in db.claims {
      return;
    }
    var row := db.claims[c];
    if row.status.Confirmed? || row.status.Dispatching? {
      return;
    }
    db.claims := db.claims[c := row.(status := PendingReview)];
    db.UpdateAssetUnlessClaimed(k, InReview);
    db.Append(Review, Some(c));
  }

  method SendToManualVaultQueue(db: Tables, c: ClaimId, k: AssetKey)
    modifies db
    ensures db.View() == RouteToManualVault(old(db.View()), c, k)
    ensures db.View() ==
            if c !in old(db.claims) || old(db.claims)[c].status.Confirmed? || old(db.claims)[c].status.Dispatching? then old(db.View())
            else
              old(db.View()).(claims := old(db.claims)[c := old(db.claims)[c].(status := AwaitingManualVault)],
                              assets := if k in old(db.assets) && old(db.assets)[k].status != Claimed
                                        then old(db.assets)[k := old(db.assets)[k].(status := InReview)] else old(db.assets),
                              audit := old(db.audit) + [AuditRow(ManualVault, Some(c))])
  {
    if c !in db.claims {
      return;
    }
    var row := db.claims[c];
    if row.status.Confirmed? || row.status.Dispatching? {
      return;
    }
    db.claims := db.claims[c := row.(status := AwaitingManualVault)];
    db.UpdateAssetUnlessClaimed(k, InReview);
    db.Append(ManualVault, Some(c));
  }
}
