/**
 The database rows the dispatch protocol reads and writes, and the shape constraints of their schema.
 Identifiers are only ever compared, so each is a bare name.
 */
module Rows {
  import opened Prelude
  import opened Chain

  datatype AssetKey = AssetKey(id: nat)
  datatype RecipientId = RecipientId(id: nat)
  datatype BatchId = BatchId(id: nat)
  datatype Nonce = Nonce(id: nat)

  datatype AssetKind = Ant | Token | Vault

  datatype AssetStatus =
    Available | InClaim | ManualReview | InReview | Claimed | Cancelled | Frozen

  datatype Asset = Asset(
    kind: AssetKind,
    recipient: RecipientId,
    mint: Option<Mint>,
    amount: Option<nat>,
    vaultEnd: Option<int>,
    nonce: Nonce,
    status: AssetStatus
  )

  /** The schema's shape check: an ANT has a mint and no amount, the rest have an amount. */
  predicate ShapeOk(a: Asset) {
    if a.kind.Ant? then a.mint.Some? && a.amount.None? else a.amount.Some?
  }

  function Mario(a: Asset): nat {
    a.amount.GetOr(0)
  }

  /** A claim has won this asset: it is past the buildable states for good. */
  predicate Live(a: Asset) {
    a.status.InClaim? || a.status.InReview? || a.status.Claimed?
  }

  /** The statuses a ledger rebuild may rewrite. */
  predicate Buildable(a: Asset) {
    a.status.Available? || a.status.ManualReview?
  }

  datatype ClaimStatus =
    | Claiming | Verified | PendingReview | Dispatching | Confirmed | Rejected | Expired
    | Failed | NeedsOperator | AwaitingManualVault

  /** The claim columns; a signature determines its blockhash, so that column is not repeated. */
  datatype Claim = Claim(
    asset: AssetKey,
    claimant: Address,
    expiresAt: nat,
    status: ClaimStatus,
    approved: bool,
    sig: Option<Tx>,             // dispatch_signature
    lastValid: Option<nat>,      // dispatch_last_valid_bh
    settlement: Option<nat>,     // settlement_amount
    txSigs: seq<Tx>,             // tx_signatures
    resign: nat,                 // dispatch_resign_count
    batch: Option<BatchId>,      // ant_batch_id
    reservedAt: Option<nat>,
    reservedTxid: Option<Tx>,
    reservedLastValid: Option<nat>,
    reservedWire: Option<Tx>
  )

  /** The claim passed completion: it is the one that won its asset. */
  predicate Won(c: Claim) {
    !c.status.Claiming? && !c.status.Rejected? && !c.status.Expired?
  }

  /** The persist step accepts the claim. */
  predicate CanDispatch(c: Claim) {
    c.status.Verified? || (c.status.PendingReview? && c.approved)
  }

  function FreshClaim(asset: AssetKey, claimant: Address, expiresAt: nat): Claim {
    Claim(asset, claimant, expiresAt, Claiming, false, None, None, None, [], 0,
          None, None, None, None, None)
  }

  datatype BatchStatus = Open | Submitted | Voided | Completed

  datatype Batch = Batch(createdAt: nat, status: BatchStatus)

  datatype AuditKind =
    | Initiated | Verification | Review | Rejection | Expiry | Approval
    | DispatchStarted | DispatchConfirmed | DispatchFailed | Frozen | DispatchExpired
    | ManualVault | ReservationReleased | BatchEvent

  datatype AuditRow = AuditRow(kind: AuditKind, claim: Option<ClaimId>)

  /** All tables at one committed instant. */
  datatype Db = Db(
    claims: map<ClaimId, Claim>,
    assets: map<AssetKey, Asset>,
    keyed: map<RecipientId, bool>,     // recipients: has a public key been published
    batches: map<BatchId, Batch>,
    audit: seq<AuditRow>
  )

  function Log(db: Db, kind: AuditKind, c: ClaimId): Db {
    db.(audit := db.audit + [AuditRow(kind, Some(c))])
  }

  function SetClaim(db: Db, c: ClaimId, row: Claim): Db {
    db.(claims := db.claims[c := row])
  }

  /** UPDATE assets SET status = s WHERE asset_key = k AND status <> 'claimed'. */
  function SetAssetStatus(db: Db, k: AssetKey, s: AssetStatus): Db {
    if k in db.assets && !db.assets[k].status.Claimed?
    then db.(assets := db.assets[k := db.assets[k].(status := s)])
    else db
  }

  /** The mutable tables behind a connection pool. */
  class Tables {
    var claims: map<ClaimId, Claim>
    var assets: map<AssetKey, Asset>
    var keyed: map<RecipientId, bool>
    var batches: map<BatchId, Batch>
    var audit: seq<AuditRow>

    ghost function View(): Db
      reads this
    {
      Db(claims, assets, keyed, batches, audit)
    }

    constructor (assets: map<AssetKey, Asset>, keyed: map<RecipientId, bool>)
      ensures View() == Db(map[], assets, keyed, map[], [])
    {
      this.claims := map[];
      this.assets := assets;
      this.keyed := keyed;
      this.batches := map[];
      this.audit := [];
    }

    method Append(kind: AuditKind, c: Option<ClaimId>)
      modifies this`audit
      ensures audit == old(audit) + [AuditRow(kind, c)]
    {
      audit := audit + [AuditRow(kind, c)];
    }

    /** The asset update every dispatch transaction uses: never touches a claimed row. */
    method UpdateAssetUnlessClaimed(k: AssetKey, s: AssetStatus)
      modifies this`assets
      ensures View() == SetAssetStatus(old(View()), k, s)
    {
      if k in assets && !assets[k].status.Claimed? {
        assets := assets[k := assets[k].(status := s)];
      }
    }
  }
}
