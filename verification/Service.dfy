/**
 The claims service: initiate, complete, approve, and the reaper of expired challenges.
 Verifying the claimant's proof is abstracted to its verdict.
 */
module Service {
  import opened Prelude
  import opened Chain
  import opened Rows

  datatype Verdict = ProofValid | ProofRefused | InfraFault

  datatype Refusal =
    | ClaimNotFound | PreviouslyRejected | ChallengeExpired | ClaimState | WrongClaimant
    | AssetNotFound | AlreadyClaimed | UnderReview | AssetFrozen | AssetCancelled
    | RecipientNotFound | BadProof | Fault

  datatype Outcome =
    | Accepted(review: bool, replay: bool)
    | Refused(why: Refusal)

  /** The client-facing conflict for an asset that is not available; manual review is hidden. */
  function Unavailable(s: AssetStatus): Refusal
    requires !s.Available?
  {
    match s
    case InClaim => AlreadyClaimed
    case Claimed => AlreadyClaimed
    case InReview => UnderReview
    case ManualReview => AssetNotFound
    case Frozen => AssetFrozen
    case Cancelled => AssetCancelled
  }

  // ---------------------------------------------------------------------------
  // Initiate and approve
  // ---------------------------------------------------------------------------

  /** Insert a claiming row for an available asset whose recipient has a key. */
  function Initiate(db: Db, c: ClaimId, k: AssetKey, claimant: Address, expiresAt: nat, delisted: bool)
    : (Db, bool)
  {
    if c in db.claims || k !in db.assets || delisted || !db.assets[k].status.Available?
       || db.assets[k].recipient !in db.keyed || !db.keyed[db.assets[k].recipient] then
      (db, false)
    else
      (Log(SetClaim(db, c, FreshClaim(k, claimant, expiresAt)), Initiated, c), true)
  }

  method InitiateClaim(db: Tables, c: ClaimId, k: AssetKey, claimant: Address, expiresAt: nat, delisted: bool)
    returns (inserted: bool)
    modifies db
    ensures (db.View(), inserted) == Initiate(old(db.View()), c, k, claimant, expiresAt, delisted)
  {
    if c in db.claims || k !in db.assets || delisted {
      return false;
    }
    var asset := db.assets[k];
    if !asset.status.Available? {
      return false;
    }
    if asset.recipient !in db.keyed || !db.keyed[asset.recipient] {
      return false;
    }
    db.claims := db.claims[c := FreshClaim(k, claimant, expiresAt)];
    db.Append(Initiated, Some(c));
    return true;
  }

  /** The operator's approval: allowed for verified and pending-review claims only. */
  function Approve(db: Db, c: ClaimId): (Db, bool) {
    if c !in db.claims || !(db.claims[c].status.PendingReview? || db.claims[c].status.Verified?) then
      (db, false)
    else
      (Log(SetClaim(db, c, db.claims[c].(approved := true)), Approval, c), true)
  }

  method ApproveClaim(db: Tables, c: ClaimId) returns (approved: bool)
    modifies db
    ensures (db.View(), approved) == Approve(old(db.View()), c)
  {
    if c !in db.claims {
      return false;
    }
    var row := db.claims[c];
    if !row.status.PendingReview? && !row.status.Verified? {
      return false;
    }
    db.claims := db.claims[c := row.(approved := true)];
    db.Append(Approval, Some(c));
    return true;
  }

  // ---------------------------------------------------------------------------
  // Complete
  // ---------------------------------------------------------------------------

  /** The statuses that count towards a recipient's total for the big-claim brake. */
  predicate CountsForBrake(a: Asset, r: RecipientId) {
    a.recipient == r && a.amount.Some? && (a.status.Available? || Live(a))
  }

  ghost function RecipientTotal(assets: map<AssetKey, Asset>, r: RecipientId): nat {
    Sum(map k | k in assets && CountsForBrake(assets[k], r) :: Mario(assets[k]))
  }

  predicate OverBrake(threshold: nat, amount: nat, total: nat) {
    threshold > 0 && (amount > threshold || total > threshold)
  }

  function Reject(db: Db, c: ClaimId): Db
    requires c in db.claims
  {
    Log(SetClaim(db, c, db.claims[c].(status := ClaimStatus.Rejected)), Rejection, c)
  }

  /**
   What the unlocked statements of a completion returned, each at its own instant: the recipient row
   (None when it is missing, otherwise whether it has a key) and the recipient's total.
   */
  datatype Unlocked = Unlocked(recipient: Option<bool>, total: nat)

  /** One completion attempt under the claim-row lock and then the asset-row lock. */
  function Complete(threshold: nat, db: Db, seen: Unlocked, c: ClaimId, echo: Option<Address>, verdict: Verdict, now: nat)
    : (Db, Outcome)
  {
    if c !in db.claims then (db, Refused(ClaimNotFound))
    else
      var row := db.claims[c];
      if row.status.Verified? || row.status.Dispatching? || row.status.Confirmed? || row.status.PendingReview? then
        (db, Replay(db, seen.recipient, row, verdict))
      else if row.status.Rejected? then (db, Refused(PreviouslyRejected))
      else if row.status.Expired? then (db, Refused(ChallengeExpired))
      else if !row.status.Claiming? then (db, Refused(ClaimState))
      else if echo.Some? && echo.value != row.claimant then (Reject(db, c), Refused(WrongClaimant))
      else if row.expiresAt <= now then
        (Log(SetClaim(db, c, row.(status := ClaimStatus.Expired)), Expiry, c), Refused(ChallengeExpired))
      else if row.asset !in db.assets then (Reject(db, c), Refused(AssetNotFound))
      else
        var a := db.assets[row.asset];
        if !a.status.Available? then (Reject(db, c), Refused(Unavailable(a.status)))
        else if seen.recipient.None? then (Reject(db, c), Refused(RecipientNotFound))
        else if !seen.recipient.value then (db, Refused(AssetNotFound))
        else if verdict.ProofRefused? then (Reject(db, c), Refused(BadProof))
        else if verdict.InfraFault? then (db, Refused(Fault))
        else
          var review := OverBrake(threshold, Mario(a), seen.total);
          (Win(db, c, review), Accepted(review, false))
  }

  function Win(db: Db, c: ClaimId, review: bool): Db
    requires c in db.claims && db.claims[c].asset in db.assets
  {
    var row := db.claims[c];
    var k := row.asset;
    var db1 := db.(assets := db.assets[k := db.assets[k].(status := if review then InReview else InClaim)]);
    Log(SetClaim(db1, c, row.(status := if review then PendingReview else Verified)),
        if review then Review else Verification, c)
  }

  /** An already completed claim answers again only to a proof that verifies again. */
  function Replay(db: Db, recipient: Option<bool>, row: Claim, verdict: Verdict): Outcome {
    if row.asset !in db.assets then Refused(AssetNotFound)
    else if recipient.None? then Refused(RecipientNotFound)
    else if !recipient.value then Refused(AssetNotFound)
    else if verdict.ProofRefused? then Refused(BadProof)
    else if verdict.InfraFault? then Refused(Fault)
    else Accepted(row.status.PendingReview?, true)
  }

  // ---------------------------------------------------------------------------
  // What a completion may come to, guard by guard
  // ---------------------------------------------------------------------------

  /** Only the claim's status changed, with one audit row for it. */
  predicate ClaimMoved(x: Db, y: Db, c: ClaimId, status: ClaimStatus, kind: AuditKind)
    requires c in x.claims
  {
    y == x.(claims := x.claims[c := x.claims[c].(status := status)], audit := x.audit + [AuditRow(kind, Some(c))])
  }

  /** Claim and asset moved together, with one audit row. */
  predicate BothMoved(x: Db, y: Db, c: ClaimId, claim: ClaimStatus, asset: AssetStatus, kind: AuditKind)
    requires c in x.claims && x.claims[c].asset in x.assets
  {
    var k := x.claims[c].asset;
    y == x.(claims := x.claims[c := x.claims[c].(status := claim)], assets := x.assets[k := x.assets[k].(status := asset)],
            audit := x.audit + [AuditRow(kind, Some(c))])
  }

  /** A completion that was won before answers again as it did then, to a proof that verifies again; nothing changes. */
  predicate ReplaySays(x: Db, recipient: Option<bool>, row: Claim, verdict: Verdict, outcome: Outcome) {
    if row.asset !in x.assets || recipient == Some(false) then outcome == Refused(AssetNotFound)
    else if recipient == None then outcome == Refused(RecipientNotFound)
    else
      match verdict
      case ProofRefused => outcome == Refused(BadProof)
      case InfraFault => outcome == Refused(Fault)
      case ProofValid => outcome == Accepted(row.status.PendingReview?, true)
  }

  /** What an open challenge comes to once its asset is known to be available. */
  predicate ProofSays(threshold: nat, x: Db, seen: Unlocked, c: ClaimId, verdict: Verdict, y: Db, outcome: Outcome)
    requires c in x.claims && x.claims[c].asset in x.assets
  {
    var amount := x.assets[x.claims[c].asset].amount.GetOr(0);
    if seen.recipient == None then ClaimMoved(x, y, c, ClaimStatus.Rejected, Rejection) && outcome == Refused(RecipientNotFound)
    else if seen.recipient == Some(false) then y == x && outcome == Refused(AssetNotFound)
    else
      match verdict
      case ProofRefused => ClaimMoved(x, y, c, ClaimStatus.Rejected, Rejection) && outcome == Refused(BadProof)
      case InfraFault => y == x && outcome == Refused(Fault)
      case ProofValid =>
        if threshold > 0 && (amount > threshold || seen.total > threshold)
        then BothMoved(x, y, c, PendingReview, InReview, Review) && outcome == Accepted(true, false)
        else BothMoved(x, y, c, Verified, InClaim, Verification) && outcome == Accepted(false, false)
  }

  predicate ChallengeSays(threshold: nat, x: Db, seen: Unlocked, c: ClaimId, echo: Option<Address>, verdict: Verdict, now: nat,
                          y: Db, outcome: Outcome)
    requires c in x.claims
  {
    var row := x.claims[c];
    if echo.Some? && echo.value != row.claimant then
      ClaimMoved(x, y, c, ClaimStatus.Rejected, Rejection) && outcome == Refused(WrongClaimant)
    else if row.expiresAt <= now then ClaimMoved(x, y, c, ClaimStatus.Expired, Expiry) && outcome == Refused(ChallengeExpired)
    else if row.asset !in x.assets then ClaimMoved(x, y, c, ClaimStatus.Rejected, Rejection) && outcome == Refused(AssetNotFound)
    else
      match x.assets[row.asset].status
      case Available => ProofSays(threshold, x, seen, c, verdict, y, outcome)
      case InReview => ClaimMoved(x, y, c, ClaimStatus.Rejected, Rejection) && outcome == Refused(UnderReview)
      case ManualReview => ClaimMoved(x, y, c, ClaimStatus.Rejected, Rejection) && outcome == Refused(AssetNotFound)
      case Frozen => ClaimMoved(x, y, c, ClaimStatus.Rejected, Rejection) && outcome == Refused(AssetFrozen)
      case Cancelled => ClaimMoved(x, y, c, ClaimStatus.Rejected, Rejection) && outcome == Refused(AssetCancelled)
      case _ => ClaimMoved(x, y, c, ClaimStatus.Rejected, Rejection) && outcome == Refused(AlreadyClaimed)
  }

  predicate CompletionSays(threshold: nat, x: Db, seen: Unlocked, c: ClaimId, echo: Option<Address>, verdict: Verdict, now: nat,
                           y: Db, outcome: Outcome)
  {
    if c !in x.claims then y == x && outcome == Refused(ClaimNotFound)
    else
      match x.claims[c].status
      case Claiming => ChallengeSays(threshold, x, seen, c, echo, verdict, now, y, outcome)
      case Rejected => y == x && outcome == Refused(PreviouslyRejected)
      case Expired => y == x && outcome == Refused(ChallengeExpired)
      case Failed => y == x && outcome == Refused(ClaimState)
      case NeedsOperator => y == x && outcome == Refused(ClaimState)
      case AwaitingManualVault => y == x && outcome == Refused(ClaimState)
      case _ => y == x && ReplaySays(x, seen.recipient, x.claims[c], verdict, outcome)
  }

  /** The completion step does what its guards say. */
  lemma CompletionDecides(threshold: nat, db: Db, seen: Unlocked, c: ClaimId, echo: Option<Address>, verdict: Verdict, now: nat)
    ensures CompletionSays(threshold, db, seen, c, echo, verdict, now,
                           Complete(threshold, db, seen, c, echo, verdict, now).0,
                           Complete(threshold, db, seen, c, echo, verdict, now).1)
  {
  }

  /** SELECT SUM(amount) over the recipient's assets in the four statuses. */
  method SumRecipientAvailable(assets: map<AssetKey, Asset>, r: RecipientId) returns (total: nat)
    ensures total == RecipientTotal(assets, r)
  {
    var rows := map k | k in assets && CountsForBrake(assets[k], r) :: Mario(assets[k]);
    ghost var all := rows;
    total := 0;
    var keys := rows.Keys;
    while keys != {}
      invariant keys == rows.Keys
      invariant total + Sum(rows) == Sum(all)
      decreases |keys|
    {
      var k :| k in keys;
      keys := keys - {k};
      SumSplit(rows, k);
      total := total + rows[k];
      rows := rows - {k};
    }
  }

  method CompleteClaim(db: Tables, threshold: nat, seen: Unlocked, c: ClaimId, echo: Option<Address>, verdict: Verdict, now: nat)
    returns (outcome: Outcome)
    modifies db
    ensures (db.View(), outcome) == Complete(threshold, old(db.View()), seen, c, echo, verdict, now)
    ensures CompletionSays(threshold, old(db.View()), seen, c, echo, verdict, now, db.View(), outcome)
  {
    CompletionDecides(threshold, db.View(), seen, c, echo, verdict, now);
    if c !in db.claims {
      return Refused(ClaimNotFound);
    }
    var row := db.claims[c];
    if row.status.Verified? || row.status.Dispatching? || row.status.Confirmed? || row.status.PendingReview? {
      outcome := VerifyReplay(db, seen.recipient, row, verdict);
      return;
    }
    if row.status.Rejected? {
      return Refused(PreviouslyRejected);
    }
    if row.status.Expired? {
      return Refused(ChallengeExpired);
    }
    if !row.status.Claiming? {
      return Refused(ClaimState);
    }
    if echo.Some? && echo.value != row.claimant {
      RejectClaim(db, c);
      return Refused(WrongClaimant);
    }
    if row.expiresAt <= now {
      db.claims := db.claims[c := row.(status := ClaimStatus.Expired)];
      db.Append(Expiry, Some(c));
      return Refused(ChallengeExpired);
    }
    if row.asset !in db.assets {
      RejectClaim(db, c);
      return Refused(AssetNotFound);
    }
    var asset := db.assets[row.asset];
    if !asset.status.Available? {
      RejectClaim(db, c);
      return Refused(Unavailable(asset.status));
    }
    if seen.recipient.None? {
      RejectClaim(db, c);
      return Refused(RecipientNotFound);
    }
    if !seen.recipient.value {
      return Refused(AssetNotFound);
    }
    if verdict.ProofRefused? {
      RejectClaim(db, c);
      return Refused(BadProof);
    }
    if verdict.InfraFault? {
      return Refused(Fault);
    }
    var amount := asset.amount.GetOr(0);
    if threshold > 0 && (amount > threshold || seen.total > threshold) {
      db.assets := db.assets[row.asset := asset.(status := InReview)];
      db.claims := db.claims[c := row.(status := PendingReview)];
      db.Append(Review, Some(c));
      return Accepted(true, false);
    }
    db.assets := db.assets[row.asset := asset.(status := InClaim)];
    db.claims := db.claims[c := row.(status := Verified)];
    db.Append(Verification, Some(c));
    return Accepted(false, false);
  }

  method RejectClaim(db: Tables, c: ClaimId)
    requires c in db.claims
    modifies db
    ensures db.View() == Reject(old(db.View()), c)
  {
    db.claims := db.claims[c := db.claims[c].(status := ClaimStatus.Rejected)];
    db.Append(Rejection, Some(c));
  }

  method VerifyReplay(db: Tables, recipient: Option<bool>, row: Claim, verdict: Verdict) returns (outcome: Outcome)
    ensures outcome == Replay(db.View(), recipient, row, verdict)
  {
    if row.asset !in db.assets {
      return Refused(AssetNotFound);
    }
    if recipient.None? {
      return Refused(RecipientNotFound);
    }
    if !recipient.value {
      return Refused(AssetNotFound);
    }
    match verdict
    case ProofRefused => return Refused(BadProof);
    case InfraFault => return Refused(Fault);
    case ProofValid => return Accepted(row.status.PendingReview?, true);
  }

  // ---------------------------------------------------------------------------
  // The reaper
  // ---------------------------------------------------------------------------

  predicate Reapable(c: Claim, now: nat) {
    c.status.Claiming? && c.expiresAt <= now
  }

  function ReapedRows(claims: map<ClaimId, Claim>, rows: seq<ClaimId>): map<ClaimId, Claim> {
    map c | c in claims :: if c in rows then claims[c].(status := ClaimStatus.Expired) else claims[c]
  }

  lemma ReapedOne(claims: map<ClaimId, Claim>, rows: seq<ClaimId>, i: nat)
    requires i < |rows| && rows[i] in claims && rows[i] !in rows[..i]
    ensures ReapedRows(claims, rows[..i])[rows[i]] == claims[rows[i]]
    ensures ReapedRows(claims, rows[..i + 1]) ==
            ReapedRows(claims, rows[..i])[rows[i] := claims[rows[i]].(status := ClaimStatus.Expired)]
  {
    assert forall d :: d in rows[..i + 1] <==> d in rows[..i] || d == rows[i];
  }

  /** Expire the listed claims, one audit row each. */
  function Reap(db: Db, rows: seq<ClaimId>): Db {
    db.(claims := ReapedRows(db.claims, rows),
        audit := db.audit + seq(|rows|, i requires 0 <= i < |rows| => AuditRow(Expiry, Some(rows[i]))))
  }

  /** The locked batch: distinct reapable claims, fewer than the limit only if there are no more. */
  ghost predicate ReapBatch(claims: map<ClaimId, Claim>, rows: seq<ClaimId>, now: nat) {
    && (forall i :: 0 <= i < |rows| ==> rows[i] in claims && Reapable(claims[rows[i]], now))
    && (forall i, j :: 0 <= i < j < |rows| ==> rows[i] != rows[j])
  }

  /** The rows stand in the order their challenges ran out, and no unlocked row is passed over for a later one. */
  predicate OldestFirst(claims: map<ClaimId, Claim>, rows: seq<ClaimId>, now: nat, locked: set<ClaimId>)
    requires forall c :: c in rows ==> c in claims
  {
    && (forall i, j :: 0 <= i < j < |rows| ==> claims[rows[i]].expiresAt <= claims[rows[j]].expiresAt)
    && (forall i, c :: 0 <= i < |rows| && c in claims && Reapable(claims[c], now) && c !in locked && c !in rows ==>
          claims[rows[i]].expiresAt <= claims[c].expiresAt)
  }

  lemma {:induction false} OldestExists(claims: map<ClaimId, Claim>, rest: set<ClaimId>)
    requires rest != {} && forall c :: c in rest ==> c in claims
    ensures exists c :: c in rest && forall d :: d in rest ==> claims[c].expiresAt <= claims[d].expiresAt
    decreases |rest|
  {
    var a :| a in rest;
    if rest != {a} {
      OldestExists(claims, rest - {a});
      var b :| b in rest - {a} && forall d :: d in rest - {a} ==> claims[b].expiresAt <= claims[d].expiresAt;
      var c := if claims[a].expiresAt <= claims[b].expiresAt then a else b;
      assert forall d :: d in rest ==> d == a || d in rest - {a};
      assert forall d :: d in rest ==> claims[c].expiresAt <= claims[d].expiresAt;
    }
  }

  /** The select skips the rows other transactions hold. */
  method SelectReapable(claims: map<ClaimId, Claim>, now: nat, limit: nat, locked: set<ClaimId>) returns (rows: seq<ClaimId>)
    ensures ReapBatch(claims, rows, now) && |rows| <= limit && OldestFirst(claims, rows, now, locked)
    ensures forall c :: c in rows ==> c !in locked
    ensures |rows| < limit ==> forall c :: c in claims && Reapable(claims[c], now) ==> c in rows || c in locked
  {
    var rest := set c | c in claims && Reapable(claims[c], now) && c !in locked;
    rows := [];
    while rest != {} && |rows| < limit
      invariant ReapBatch(claims, rows, now) && |rows| <= limit
      invariant forall c :: c in rest <==> c in claims && Reapable(claims[c], now) && c !in locked && c !in rows
      invariant forall c :: c in rows ==> c !in locked
      invariant OldestFirst(claims, rows, now, locked)
      decreases |rest|
    {
      OldestExists(claims, rest);
      var c :| c in rest && forall d :: d in rest ==> claims[c].expiresAt <= claims[d].expiresAt;
      rows := rows + [c];
      rest := rest - {c};
    }
  }

  method ReapExpiredChallenges(db: Tables, now: nat, limit: nat, locked: set<ClaimId>) returns (n: nat, ghost rows: seq<ClaimId>)
    modifies db
    ensures ReapBatch(old(db.claims), rows, now) && n == |rows|
    ensures OldestFirst(old(db.claims), rows, now, locked) && forall c :: c in rows ==> c !in locked
    ensures db.View() == Reap(old(db.View()), rows)
    ensures n == 0 ==> forall c :: c in db.claims && Reapable(db.claims[c], now) ==> c in locked
  {
    var size := if limit < 1 then 1 else if limit > 5000 then 5000 else limit;
    var batch := SelectReapable(db.claims, now, size, locked);
    rows := batch;
    n := |batch|;
    ExpireRows(db, batch, now);
  }

  method ExpireRows(db: Tables, batch: seq<ClaimId>, ghost now: nat)
    requires ReapBatch(db.claims, batch, now)
    modifies db
    ensures db.View() == Reap(old(db.View()), batch)
  {
    ghost var was := db.View();
    for i := 0 to |batch|
      invariant db.assets == was.assets && db.keyed == was.keyed && db.batches == was.batches
      invariant db.claims == ReapedRows(was.claims, batch[..i])
      invariant db.audit == was.audit + seq(i, j requires 0 <= j < i => AuditRow(Expiry, Some(batch[j])))
    {
      var c := batch[i];
      assert c !in batch[..i];
      ReapedOne(was.claims, batch, i);
      if db.claims[c].status.Claiming? {
        db.claims := db.claims[c := db.claims[c].(status := ClaimStatus.Expired)];
      }
      db.Append(Expiry, Some(c));
    }
    assert batch[..|batch|] == batch;
  }

  ghost function ReapableSet(claims: map<ClaimId, Claim>, now: nat): set<ClaimId> {
    set c | c in claims && Reapable(claims[c], now)
  }

  /**
   Draining reaps expired challenges only, once each, leaves every other claim alone, and stops when all
   that is left is locked by others; so it reaps all of them when nobody else holds any.
   */
  method ReapAllExpiredChallenges(db: Tables, now: nat, batch: nat, locked: nat -> set<ClaimId>) returns (total: nat, passes: nat)
    modifies db
    ensures total + |ReapableSet(db.claims, now)| == |ReapableSet(old(db.claims), now)|
    ensures db.claims.Keys == old(db.claims).Keys
    ensures forall c :: c in db.claims ==>
              db.claims[c] == if Reapable(old(db.claims)[c], now) && !Reapable(db.claims[c], now)
                              then old(db.claims)[c].(status := ClaimStatus.Expired) else old(db.claims)[c]
    ensures passes > 0 && ReapableSet(db.claims, now) <= locked(passes - 1)
    ensures db.assets == old(db.assets) && db.batches == old(db.batches) && db.keyed == old(db.keyed)
  {
    total, passes := 0, 0;
    var n := 1;
    ghost var first := db.claims;
    while n != 0
      invariant db.assets == old(db.assets) && db.batches == old(db.batches) && db.keyed == old(db.keyed)
      invariant db.claims.Keys == first.Keys
      invariant forall c :: c in first ==>
                  db.claims[c] == first[c]
                  || (Reapable(first[c], now) && db.claims[c] == first[c].(status := ClaimStatus.Expired))
      invariant total + |ReapableSet(db.claims, now)| == |ReapableSet(first, now)|
      invariant n == 0 ==> passes > 0 && ReapableSet(db.claims, now) <= locked(passes - 1)
      decreases |ReapableSet(db.claims, now)|, n
    {
      ghost var before := db.claims;
      ghost var rows;
      n, rows := ReapExpiredChallenges(db, now, batch, locked(passes));
      ReapShrinks(before, db.claims, rows, now);
      total, passes := total + n, passes + 1;
    }
  }

  lemma ReapShrinks(before: map<ClaimId, Claim>, after: map<ClaimId, Claim>, rows: seq<ClaimId>, now: nat)
    requires ReapBatch(before, rows, now)
    requires after == map c | c in before ::
                          if c in rows then before[c].(status := ClaimStatus.Expired) else before[c]
    ensures |ReapableSet(after, now)| + |rows| == |ReapableSet(before, now)|
  {
    var gone := set c | c in rows;
    DistinctCount(rows);
    assert ReapableSet(after, now) == ReapableSet(before, now) - gone;
    assert gone <= ReapableSet(before, now) by {
      forall c | c in gone ensures c in ReapableSet(before, now) {
        var i :| 0 <= i < |rows| && rows[i] == c;
      }
    }
  }

  lemma {:induction false} DistinctCount(rows: seq<ClaimId>)
    requires forall i, j :: 0 <= i < j < |rows| ==> rows[i] != rows[j]
    ensures |set c | c in rows| == |rows|
  {
    if rows != [] {
      var last := |rows| - 1;
      var init := rows[..last];
      DistinctCount(init);
      assert rows == init + [rows[last]];
      assert (set c | c in rows) == (set c | c in init) + {rows[last]};
      assert rows[last] !in init;
    }
  }
}
