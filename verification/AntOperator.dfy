/**
 The operator-wallet ANT flow: reserving claims into a batch, building the reserved transactions,
 cancelling, expiring, releasing a dead dispatch for a rebuild, and closing a batch.
 */
module AntOperator {
  import opened Prelude
  import opened Chain
  import opened Rows
  import opened DispatchCore

  function Unreserved(c: Claim): Claim {
    c.(batch := None, reservedAt := None, reservedTxid := None, reservedLastValid := None, reservedWire := None)
  }

  predicate AssetOpen(a: Asset) {
    a.kind.Ant? && (a.status.InClaim? || a.status.InReview?)
  }

  // ---------------------------------------------------------------------------
  // Reserve
  // ---------------------------------------------------------------------------

  predicate Reservable(db: Db, c: ClaimId, requireApproval: bool) {
    && c in db.claims
    && db.claims[c].asset in db.assets
    && AssetOpen(db.assets[db.claims[c].asset])
    && db.claims[c].sig.None?
    && db.claims[c].batch.None?
    && (if requireApproval then (db.claims[c].status.Verified? || db.claims[c].status.PendingReview?) && db.claims[c].approved
        else CanDispatch(db.claims[c]))
  }

  predicate HasMint(db: Db, c: ClaimId) {
    c in db.claims && db.claims[c].asset in db.assets && db.assets[db.claims[c].asset].mint.Some?
  }

  function ReservedRows(db: Db, b: BatchId, rows: seq<ClaimId>, at: nat): map<ClaimId, Claim> {
    map c | c in db.claims ::
      if c in rows && HasMint(db, c) then db.claims[c].(batch := Some(b), reservedAt := Some(at)) else db.claims[c]
  }

  lemma ReservedOne(db: Db, b: BatchId, rows: seq<ClaimId>, i: nat, at: nat)
    requires i < |rows| && rows[i] in db.claims
    ensures var was, now := ReservedRows(db, b, rows[..i], at), ReservedRows(db, b, rows[..i + 1], at);
            && was[rows[i]] == (if rows[i] in rows[..i] then now[rows[i]] else db.claims[rows[i]])
            && now == if HasMint(db, rows[i])
                      then was[rows[i] := was[rows[i]].(batch := Some(b), reservedAt := Some(at))] else was
  {
    assert forall d :: d in rows[..i + 1] <==> d in rows[..i] || d == rows[i];
  }

  /** Put every listed claim that has a mint into the new open batch. */
  function Reserve(db: Db, b: BatchId, rows: seq<ClaimId>, at: nat): Db {
    db.(claims := ReservedRows(db, b, rows, at),
        batches := db.batches[b := Batch(at, Open)],
        audit := db.audit + [AuditRow(BatchEvent, None)])
  }

  /** The rows that have a mint, in their order. */
  function Minted(db: Db, rows: seq<ClaimId>): seq<ClaimId> {
    if rows == [] then []
    else Minted(db, rows[..|rows| - 1]) + if HasMint(db, rows[|rows| - 1]) then [rows[|rows| - 1]] else []
  }

  lemma MintedOne(db: Db, rows: seq<ClaimId>, i: nat)
    requires i < |rows|
    ensures Minted(db, rows[..i + 1]) == Minted(db, rows[..i]) + if HasMint(db, rows[i]) then [rows[i]] else []
  {
    assert rows[..i + 1][..i] == rows[..i];
  }

  lemma {:induction false} MintedHolds(db: Db, rows: seq<ClaimId>)
    ensures forall c :: c in Minted(db, rows) <==> c in rows && HasMint(db, c)
    ensures |Minted(db, rows)| <= |rows|
  {
    if rows != [] {
      var n := |rows| - 1;
      MintedHolds(db, rows[..n]);
      assert rows == rows[..n] + [rows[n]];
    }
  }

  /** What the select returns: eligible rows, at most the limit, and short of it only the rows others hold are left out. */
  ghost predicate ReservableRows(db: Db, rows: seq<ClaimId>, requireApproval: bool, max: nat, locked: set<ClaimId>) {
    && (forall c :: c in rows ==> Reservable(db, c, requireApproval) && c !in locked)
    && (forall i, j :: 0 <= i < j < |rows| ==> rows[i] != rows[j])
    && |rows| <= max
    && (|rows| < max ==> forall c :: Reservable(db, c, requireApproval) && c !in locked ==> c in rows)
  }

  /** The batch gets the selected rows that have a mint: all eligible ones nobody holds, if they fit. */
  method ReserveAntBatch(db: Tables, b: BatchId, rows: seq<ClaimId>, requireApproval: bool, max: nat, locked: set<ClaimId>, at: nat)
    returns (items: seq<ClaimId>)
    requires ReservableRows(db.View(), rows, requireApproval, max, locked)
    modifies db
    ensures db.View() == Reserve(old(db.View()), b, rows, at)
    ensures items == Minted(old(db.View()), rows) && |items| <= max
    ensures forall c :: c in items ==> c in db.claims && db.claims[c].batch == Some(b) && c !in locked
    ensures |rows| < max ==>
              forall c :: Reservable(old(db.View()), c, requireApproval) && HasMint(old(db.View()), c) && c !in locked ==> c in items
  {
    items := [];
    ghost var was := db.View();
    for i := 0 to |rows|
      invariant db.assets == was.assets && db.keyed == was.keyed && db.batches == was.batches && db.audit == was.audit
      invariant db.claims == ReservedRows(was, b, rows[..i], at)
      invariant items == Minted(was, rows[..i])
    {
      var c := rows[i];
      MintedOne(was, rows, i);
      assert Reservable(was, c, requireApproval);
      ReservedOne(was, b, rows, i, at);
      if db.assets[db.claims[c].asset].mint.Some? {
        db.claims := db.claims[c := db.claims[c].(batch := Some(b), reservedAt := Some(at))];
        items := items + [c];
      }
    }
    assert rows[..|rows|] == rows;
    MintedHolds(was, rows);
    db.batches := db.batches[b := Batch(at, Open)];
    db.Append(BatchEvent, None);
  }

  // ---------------------------------------------------------------------------
  // Build
  // ---------------------------------------------------------------------------

  predicate InBatch(db: Db, c: ClaimId, b: BatchId) {
    c in db.claims && db.claims[c].batch == Some(b) && db.claims[c].sig.None?
  }

  /** A reserved claim is built when it is still eligible; otherwise it is reported as skipped. */
  predicate CanBuild(db: Db, c: ClaimId, b: BatchId) {
    && InBatch(db, c, b)
    && HasMint(db, c)
    && CanDispatch(db.claims[c])
    && AssetOpen(db.assets[db.claims[c].asset])
  }

  function AntTx(db: Db, c: ClaimId, blockhash: nat, lastValid: nat): Tx
    requires HasMint(db, c)
  {
    SignDispatch(true, c, AntHandover(db.assets[db.claims[c].asset].mint.value, db.claims[c].claimant), blockhash, lastValid)
  }

  function Built(row: Claim, tx: Tx): Claim {
    row.(reservedTxid := Some(tx), reservedLastValid := Some(tx.lastValid), reservedWire := Some(tx))
  }

  function Build(db: Db, b: BatchId, blockhash: nat, lastValid: nat): Db {
    db.(claims := map c | c in db.claims ::
                    if CanBuild(db, c, b) then Built(db.claims[c], AntTx(db, c, blockhash, lastValid)) else db.claims[c],
        audit := db.audit + [AuditRow(BatchEvent, None)])
  }

  /** The rows the build statement selects: everything reserved to the batch and not yet submitted. */
  ghost predicate BatchRows(db: Db, b: BatchId, rows: seq<ClaimId>) {
    && (forall c :: c in rows ==> InBatch(db, c, b) && db.claims[c].asset in db.assets)
    && (forall c :: InBatch(db, c, b) ==> c in rows)
    && (forall i, j :: 0 <= i < j < |rows| ==> rows[i] != rows[j])
  }

  /** The claims map while the loop has handled the rows in done. */
  ghost predicate BuiltSoFar(was: Db, claims: map<ClaimId, Claim>, b: BatchId, done: set<ClaimId>,
                             blockhash: nat, lastValid: nat) {
    && claims.Keys == was.claims.Keys
    && forall c :: c in was.claims ==>
         claims[c] == if c in done && CanBuild(was, c, b)
                      then Built(was.claims[c], AntTx(was, c, blockhash, lastValid)) else was.claims[c]
  }

  /** One row of the build loop: eligibility is derived again before the transaction is stored. */
  method BuildOne(db: Tables, b: BatchId, c: ClaimId, blockhash: nat, lastValid: nat) returns (built: bool)
    requires InBatch(db.View(), c, b) && db.claims[c].asset in db.assets
    modifies db`claims
    ensures built == CanBuild(old(db.View()), c, b)
    ensures db.claims == if built
                         then old(db.claims)[c := Built(old(db.claims)[c], AntTx(old(db.View()), c, blockhash, lastValid))]
                         else old(db.claims)
  {
    var row := db.claims[c];
    var asset := db.assets[row.asset];
    var claimEligible := row.status.Verified? || (row.status.PendingReview? && row.approved);
    var assetEligible := asset.kind.Ant? && (asset.status.InClaim? || asset.status.InReview?);
    if asset.mint.None? {
      return false;
    }
    if !claimEligible || !assetEligible {
      return false;
    }
    var tx := SignDispatch(true, c, AntHandover(asset.mint.value, row.claimant), blockhash, lastValid);
    db.claims := db.claims[c := Built(row, tx)];
    return true;
  }

  lemma EverythingBuilt(was: Db, claims: map<ClaimId, Claim>, b: BatchId, rows: seq<ClaimId>, done: set<ClaimId>,
                        blockhash: nat, lastValid: nat)
    requires BatchRows(was, b, rows) && done == set j | 0 <= j < |rows| :: rows[j]
    requires BuiltSoFar(was, claims, b, done, blockhash, lastValid)
    ensures claims == Build(was, b, blockhash, lastValid).claims
  {
    forall c | c in was.claims && CanBuild(was, c, b) ensures c in done {
      assert InBatch(was, c, b);
    }
  }

  /** The rows that can be built, or those that cannot, in their order. */
  function Sorted(db: Db, b: BatchId, rows: seq<ClaimId>, ok: bool): seq<ClaimId> {
    if rows == [] then []
    else
      var last := rows[|rows| - 1];
      Sorted(db, b, rows[..|rows| - 1], ok) + if CanBuild(db, last, b) == ok then [last] else []
  }

  method BuildReservedBatch(db: Tables, b: BatchId, rows: seq<ClaimId>, blockhash: nat, lastValid: nat)
    returns (items: seq<ClaimId>, skipped: seq<ClaimId>)
    requires BatchRows(db.View(), b, rows)
    modifies db
    ensures db.View() == Build(old(db.View()), b, blockhash, lastValid)
    ensures items == Sorted(old(db.View()), b, rows, true)
    ensures skipped == Sorted(old(db.View()), b, rows, false)
  {
    items, skipped := [], [];
    ghost var was := db.View();
    ghost var done := {};
    for i := 0 to |rows|
      invariant db.View() == was.(claims := db.claims)
      invariant done == set j | 0 <= j < i :: rows[j]
      invariant BuiltSoFar(was, db.claims, b, done, blockhash, lastValid)
      invariant items == Sorted(was, b, rows[..i], true) && skipped == Sorted(was, b, rows[..i], false)
    {
      var c := rows[i];
      assert c !in done && rows[..i + 1][..i] == rows[..i];
      ghost var now := db.View();
      assert InBatch(was, c, b) && InBatch(now, c, b);
      assert CanBuild(now, c, b) == CanBuild(was, c, b);
      var built := BuildOne(db, b, c, blockhash, lastValid);
      if built {
        items := items + [c];
      } else {
        skipped := skipped + [c];
      }
      done := done + {c};
    }
    assert rows[..|rows|] == rows;
    EverythingBuilt(was, db.claims, b, rows, done, blockhash, lastValid);
    db.Append(BatchEvent, None);
  }

  // ---------------------------------------------------------------------------
  // Cancel and time-to-live expiry
  // ---------------------------------------------------------------------------

  predicate Cancellable(c: Claim, b: BatchId) {
    && c.batch == Some(b)
    && c.sig.None?
    && (c.status.Verified? || c.status.PendingReview?)
  }

  ghost predicate HasSubmitted(claims: map<ClaimId, Claim>, b: BatchId) {
    exists c :: c in claims && claims[c].batch == Some(b) && claims[c].sig.Some?
  }

  /** Free every unsubmitted claim of the batch; void the header unless a submitted one remains. */
  ghost function Cancel(db: Db, b: BatchId): Db {
    var claims := map c | c in db.claims ::
                    if Cancellable(db.claims[c], b)
                    then Unreserved(db.claims[c]).(status := RevertStatus(db.claims[c])) else db.claims[c];
    db.(claims := claims,
        batches := if b in db.batches && (db.batches[b].status.Open? || db.batches[b].status.Submitted?)
                      && !HasSubmitted(claims, b)
                   then db.batches[b := db.batches[b].(status := Voided)] else db.batches,
        audit := db.audit + [AuditRow(BatchEvent, None)])
  }

  predicate Stale(c: Claim, cutoff: nat) {
    && c.reservedAt.Some? && c.reservedAt.value < cutoff
    && c.sig.None?
    && (c.status.Verified? || c.status.PendingReview?)
  }

  ghost predicate Referenced(claims: map<ClaimId, Claim>, b: BatchId) {
    exists c :: c in claims && claims[c].batch == Some(b)
  }

  /** Free reservations older than the cutoff and void the open batches they leave empty. */
  ghost function ExpireStale(db: Db, cutoff: nat): Db {
    var claims := map c | c in db.claims ::
                    if Stale(db.claims[c], cutoff) then Unreserved(db.claims[c]) else db.claims[c];
    db.(claims := claims,
        batches := map b | b in db.batches ::
                     if db.batches[b].status.Open? && db.batches[b].createdAt < cutoff && !Referenced(claims, b)
                     then db.batches[b].(status := Voided) else db.batches[b])
  }

  // ---------------------------------------------------------------------------
  // Release for rebuild, and the batch header
  // ---------------------------------------------------------------------------

  /** Free a submitted but dead dispatch so that the next batch can build it again. */
  function ReleaseForRebuild(db: Db, c: ClaimId): Db {
    if c !in db.claims || !db.claims[c].status.Dispatching? then db
    else
      var was := db.claims[c];
      Log(SetClaim(db, c, Unreserved(was).(status := RevertStatus(was), sig := None, lastValid := None,
                                           resign := was.resign + 1)),
          ReservationReleased, c)
  }

  method ReleaseReservationForRebuild(db: Tables, c: ClaimId)
    modifies db
    ensures db.View() == ReleaseForRebuild(old(db.View()), c)
    ensures db.View() ==
            if c !in old(db.claims) || !old(db.claims)[c].status.Dispatching? then old(db.View())
            else
              var was := old(db.claims)[c];
              old(db.View()).(claims := old(db.claims)[c := was.(
                                status := if was.approved then PendingReview else Verified, sig := None, lastValid := None,
                                resign := was.resign + 1, batch := None, reservedAt := None, reservedTxid := None,
                                reservedLastValid := None, reservedWire := None)],
                              audit := old(db.audit) + [AuditRow(ReservationReleased, Some(c))])
  {
    if c !in db.claims {
      return;
    }
    var row := db.claims[c];
    if !row.status.Dispatching? {
      return;
    }
    var revertTo := if row.approved then PendingReview else Verified;
    row := row.(status := revertTo, sig := None, lastValid := None);
    row := row.(resign := row.resign + 1);
    row := row.(batch := None, reservedAt := None, reservedTxid := None);
    row := row.(reservedLastValid := None, reservedWire := None);
    db.claims := db.claims[c := row];
    db.Append(ReservationReleased, Some(c));
  }

  /** The first of the two statements that close a batch: is any claim of it not confirmed? */
  ghost predicate StillOpen(db: Db, b: BatchId) {
    exists c :: c in db.claims && db.claims[c].batch == Some(b) && !db.claims[c].status.Confirmed?
  }

  /** The second statement, which runs later and on its own. */
  function CloseBatch(db: Db, b: BatchId, stillOpen: bool): Db {
    if b in db.batches && (db.batches[b].status.Open? || db.batches[b].status.Submitted?) then
      db.(batches := db.batches[b := db.batches[b].(status := if stillOpen then Submitted else Completed)])
    else db
  }
}
