/**
 The dispatch protocol as a state machine. A step is one committed transaction, one unlocked
 read, one chain event, or a crash that drops what a dispatcher holds in memory.
 */
module Protocol {
  import opened Prelude
  import opened Chain
  import opened Rows
  import opened DispatchCore
  import opened Service
  import opened AntOperator
  import opened LedgerUpsert
  import opened VaultRules

  const MAX_RESIGN_ATTEMPTS: nat := 1

  /** How far the confirmation endpoint can be trusted. */
  datatype Endpoint =
    | Consistent        // reads come from one consistent endpoint
    | WrongAboutLanded  // it may say anything about a landed transaction; the outflow scan is truthful
    | Arbitrary         // heights, statuses and the scan may say anything

  datatype Config = Config(
    endpoint: Endpoint,
    threshold: nat,            // big-claim brake, 0 when switched off
    antNeedsApproval: bool,    // the worker's ANT gate
    batchNeedsApproval: bool,  // the operator flow's ANT gate
    minVault: int, maxVault: int,
    relockReady: bool          // the lock program is configured
  )

  // ---------------------------------------------------------------------------
  // Dispatchers
  // ---------------------------------------------------------------------------

  datatype Origin = Worker | Operator

  /** Why a signature is being confirmed, with the snapshot the dispatcher holds. */
  datatype Purpose =
    | Inline(sig: Tx, lastValid: nat)
    | Recovery(origin: Origin, sig: Tx, lastValid: nat, known: seq<Tx>, resign: nat)

  /** The program point of a dispatcher and everything it holds in memory there. */
  datatype Pc =
    | Fresh                                                    // about to load the claim row
    | GotClaim(approved: bool, claimant: Address)              // about to load the asset row
    | Funding(asset: Asset, approved: bool, claimant: Address,
              balance: Option<nat>, reserved: Option<nat>)     // reading the float, in either order
    | Signing(effect: Effect, settlement: Option<nat>)         // about to sign
    | Persisting(tx: Tx, lastValid: nat, settlement: Option<nat>)  // signed, about to persist
    | Broadcasting(tx: Tx, lastValid: nat)                     // persisted, about to send
    | Confirming(purpose: Purpose)                             // about to sample the height
    | Sampled(purpose: Purpose, height: nat)                   // about to read the status
    | Answered(purpose: Purpose, answer: ConfirmState)         // about to act on the answer
    | Scanned(origin: Origin, sig: Tx, resign: nat, hit: Option<Tx>)
    | Reviewing                                                // about to route to review
    | Queueing                                                 // about to route to the manual vault queue
    | Failing                                                  // about to mark failed
    | Submitting(tx: Tx, lastValid: nat)                       // operator: reservation matched
    | Reloading                                                // operator: recovery, about to load the claim

  datatype State = State(
    db: Db,
    chain: ChainState,
    threads: map<ClaimId, Pc>,            // dispatch is single-flight per claim
    closing: set<(BatchId, bool)>,        // batch counts read, header not yet written
    open: map<AssetKey, Option<nat>>,     // asset rows locked by a completion, with the recipient's total once it is read
    winner: map<AssetKey, ClaimId>,       // history: who passed completion
    wins: seq<AssetKey>,                  // history: completions answered without replay
    unbraked: set<AssetKey>,              // history: assets won without tripping the brake
    freeSends: set<AssetKey>              // history: assets dispatched while unapproved
  )

  predicate Initial(s: State) {
    && s.db.claims == map[] && s.db.batches == map[] && s.db.audit == []
    && (forall k :: k in s.db.assets ==> ShapeOk(s.db.assets[k]) && !Live(s.db.assets[k]))
    && s.chain.sent == {} && s.chain.ok == {} && s.chain.err == {}
    && s.threads == map[] && s.closing == {} && s.open == map[] && s.winner == map[] && s.wins == []
    && s.unbraked == {} && s.freeSends == {}
  }

  datatype Step =
    // chain and treasury
    | Grow(blocks: nat) | LandTx(tx: Tx, success: bool) | TopUp(mario: nat)
    // claims API, approver, reaper, ledger rebuild
    | DoInitiate(c: ClaimId, k: AssetKey, claimant: Address, expiresAt: nat, delisted: bool)
    | Hold(k: AssetKey, part: HoldPart)
    | DoComplete(c: ClaimId, echo: Option<Address>, verdict: Verdict, now: nat, recipient: Option<bool>)
    | DoApprove(c: ClaimId)
    | DoReap(rows: seq<ClaimId>, now: nat)
    | DoRebuild(plan: seq<PlanRow>, keyed: map<RecipientId, bool>, allowLive: bool)
    // operator batches
    | DoReserve(b: BatchId, rows: seq<ClaimId>, at: nat)
    | DoBuild(b: BatchId, blockhash: nat, lastValid: nat)
    | DoCancel(b: BatchId) | DoExpire(cutoff: nat)
    | CountBatch(b: BatchId) | WriteBatch(b: BatchId, stillOpen: bool)
    // dispatchers
    | StartWorker(c: ClaimId)
    | StartSubmit(c: ClaimId, b: BatchId, txid: Tx, authorityOver: Tx)
    | Crash(c: ClaimId)
    | LoadClaimRow(c: ClaimId)
    | LoadAssetRow(c: ClaimId, signer: AntSigner)
    | ReadBalance(c: ClaimId) | ReadReserved(c: ClaimId)
    | CheckFunds(c: ClaimId, clock: int)
    | Sign(c: ClaimId, blockhash: nat, lastValid: nat)
    | DoPersist(c: ClaimId)
    | Broadcast(c: ClaimId, reaches: bool)
    | SampleHeight(c: ClaimId, height: nat)
    | ReadStatus(c: ClaimId, status: SigStatus, again: bool)
    | ActOnAnswer(c: ClaimId)
    | Scan(c: ClaimId, hit: Option<Tx>)
    | ActOnScan(c: ClaimId)
    | DoRoute(c: ClaimId)
    | OperatorLoad(c: ClaimId)

  /** What an open completion does with its asset row before it commits. */
  datatype HoldPart = LockAsset | ReadTotal | Release

  /** Which ANT authority the invocation holds. */
  datatype AntSigner = NoSigner | HotSigner | ColdSigner

  function At(s: State, c: ClaimId, pc: Pc): State {
    s.(threads := s.threads[c := pc])
  }

  function Done(s: State, c: ClaimId): State {
    s.(threads := s.threads - {c})
  }

  /** The claim draws on the hot token account. */
  predicate Hot(db: Db, c: ClaimId) {
    c in db.claims && db.claims[c].asset in db.assets && !db.assets[db.claims[c].asset].kind.Ant?
  }

  /** One worker process serves the hot key: no other hot claim has a dispatcher. */
  predicate HotFree(s: State, c: ClaimId) {
    forall d :: d in s.threads && Hot(s.db, d) ==> d == c
  }

  // ---------------------------------------------------------------------------
  // Chain steps
  // ---------------------------------------------------------------------------

  function EventNext(s: State, e: ChainEvent): Option<State> {
    if Can(s.chain, e) then Some(s.(chain := After(s.chain, e))) else None
  }

  // ---------------------------------------------------------------------------
  // API, approver, reaper, rebuild
  // ---------------------------------------------------------------------------

  function InitiateNext(s: State, c: ClaimId, k: AssetKey, claimant: Address, expiresAt: nat, delisted: bool): Option<State> {
    Some(s.(db := Initiate(s.db, c, k, claimant, expiresAt, delisted).0))
  }

  /** A completion locks the asset row, and other completions of the asset and rebuilds of its row wait. */
  function LockAssetNext(s: State, k: AssetKey): Option<State> {
    if k in s.db.assets && s.db.assets[k].status.Available? && k !in s.open
    then Some(s.(open := s.open[k := None])) else None
  }

  /** Under the lock, but without locking the other rows, it sums up the recipient's assets. */
  ghost function ReadTotalNext(s: State, k: AssetKey): Option<State> {
    if k in s.open && s.open[k].None? && k in s.db.assets
    then Some(s.(open := s.open[k := Some(RecipientTotal(s.db.assets, s.db.assets[k].recipient))])) else None
  }

  /** A refusal, a rollback or a crash gives the lock back. */
  function ReleaseNext(s: State, k: AssetKey): Option<State> {
    if k in s.open then Some(s.(open := s.open - {k})) else None
  }

  ghost function HoldNext(s: State, k: AssetKey, part: HoldPart): Option<State> {
    match part
    case LockAsset => LockAssetNext(s, k)
    case ReadTotal => ReadTotalNext(s, k)
    case Release => ReleaseNext(s, k)
  }

  predicate TotalKnown(s: State, k: AssetKey) {
    k in s.open && s.open[k].Some?
  }

  /** What the completion of claim c has read without a lock; the recipient read may have returned anything. */
  function ReadsOf(s: State, c: ClaimId, recipient: Option<bool>): Unlocked {
    Unlocked(recipient, if c in s.db.claims && TotalKnown(s, s.db.claims[c].asset) then s.open[s.db.claims[c].asset].value else 0)
  }

  /** The commit of a completion; a win needs the asset lock and the total. */
  function CompleteNext(cfg: Config, s: State, c: ClaimId, echo: Option<Address>, verdict: Verdict, now: nat,
                        recipient: Option<bool>): Option<State>
  {
    var (db, outcome) := Complete(cfg.threshold, s.db, ReadsOf(s, c, recipient), c, echo, verdict, now);
    if outcome.Accepted? && !outcome.replay then
      var k := s.db.claims[c].asset;
      if TotalKnown(s, k) then
        Some(s.(db := db, winner := s.winner[k := c], wins := s.wins + [k], open := s.open - {k},
                unbraked := if outcome.review then s.unbraked else s.unbraked + {k}))
      else None
    else
      Some(s.(db := db))
  }

  function ApproveNext(s: State, c: ClaimId): Option<State> {
    Some(s.(db := Approve(s.db, c).0))
  }

  ghost function ReapNext(s: State, rows: seq<ClaimId>, now: nat): Option<State> {
    if ReapBatch(s.db.claims, rows, now) then Some(s.(db := Reap(s.db, rows))) else None
  }

  /** The guard refuses when a planned row is live, unless told to go ahead; the upsert waits for locked rows. */
  function RebuildNext(s: State, rows: seq<PlanRow>, keyed: map<RecipientId, bool>, allowLive: bool): Option<State> {
    if PlanShape(rows) && (forall i :: 0 <= i < |rows| ==> rows[i].key !in s.open)
       && (allowLive || forall i :: 0 <= i < |rows| && rows[i].key in s.db.assets ==> Rows.Buildable(s.db.assets[rows[i].key]))
    then Some(s.(db := s.db.(assets := UpsertAll(s.db.assets, rows), keyed := s.db.keyed + keyed)))
    else None
  }

  // ---------------------------------------------------------------------------
  // Operator batches
  // ---------------------------------------------------------------------------

  /** Batch ids are random, so a new one is unknown to the tables and to any reader. */
  ghost predicate FreshBatch(s: State, b: BatchId) {
    b !in s.db.batches && (b, false) !in s.closing && (b, true) !in s.closing
  }

  ghost function ReserveNext(cfg: Config, s: State, b: BatchId, rows: seq<ClaimId>, at: nat): Option<State> {
    if FreshBatch(s, b) && forall c :: c in rows ==> Reservable(s.db, c, cfg.batchNeedsApproval)
    then Some(s.(db := Reserve(s.db, b, rows, at))) else None
  }

  function BuildNext(s: State, b: BatchId, blockhash: nat, lastValid: nat): Option<State> {
    Some(s.(db := Build(s.db, b, blockhash, lastValid)))
  }

  ghost function CancelNext(s: State, b: BatchId): Option<State> {
    Some(s.(db := Cancel(s.db, b)))
  }

  ghost function ExpireNext(s: State, cutoff: nat): Option<State> {
    Some(s.(db := ExpireStale(s.db, cutoff)))
  }

  ghost function CountNext(s: State, b: BatchId): Option<State> {
    Some(s.(closing := s.closing + {(b, StillOpen(s.db, b))}))
  }

  function HeaderNext(s: State, b: BatchId, stillOpen: bool): Option<State> {
    if (b, stillOpen) in s.closing
    then Some(s.(db := CloseBatch(s.db, b, stillOpen), closing := s.closing - {(b, stillOpen)}))
    else None
  }

  // ---------------------------------------------------------------------------
  // Dispatcher steps
  // ---------------------------------------------------------------------------

  function RecoveryOf(origin: Origin, row: Claim): Purpose
    requires row.sig.Some?
  {
    Recovery(origin, row.sig.value, row.lastValid.GetOr(0), [row.sig.value] + row.txSigs, row.resign)
  }

  /** processClaim: the snapshot decides between recovery, a fresh dispatch, and nothing to do. */
  function StartWorkerNext(s: State, c: ClaimId): Option<State> {
    if c in s.threads || c !in s.db.claims || (Hot(s.db, c) && !HotFree(s, c)) then None
    else
      var row := s.db.claims[c];
      if row.status.Confirmed? || row.batch.Some? then None
      else if row.sig.Some? && (row.status.Dispatching? || row.status.Verified?) then
        Some(At(s, c, Confirming(RecoveryOf(Worker, row))))
      else if CanDispatch(row) then Some(At(s, c, Fresh))
      else None
  }

  /**
   submitOneAntTx: the submitted bytes only name a reservation and carry the authority's signature
   over some message; a signature over anything but the stored message is rejected.
   */
  function StartSubmitNext(s: State, c: ClaimId, b: BatchId, txid: Tx, authorityOver: Tx): Option<State> {
    if c in s.threads || c !in s.db.claims then None
    else
      var row := s.db.claims[c];
      if row.reservedTxid == Some(txid) && row.batch == Some(b) && row.reservedWire.Some?
         && authorityOver == row.reservedWire.value
      then Some(At(s, c, Submitting(row.reservedWire.value, row.reservedLastValid.GetOr(0))))
      else None
  }

  function CrashNext(s: State, c: ClaimId): Option<State> {
    if c in s.threads then Some(Done(s, c)) else None
  }

  function LoadClaimNext(s: State, c: ClaimId): Option<State> {
    if c in s.threads && s.threads[c].Fresh? && c in s.db.claims
    then Some(At(s, c, GotClaim(s.db.claims[c].approved, s.db.claims[c].claimant)))
    else None
  }

  function LoadAssetNext(cfg: Config, s: State, c: ClaimId, signer: AntSigner): Option<State> {
    if c in s.threads && s.threads[c].GotClaim? && c in s.db.claims then
      var pc := s.threads[c];
      var k := s.db.claims[c].asset;
      if k !in s.db.assets then Some(Done(s, c))
      else
        var a := s.db.assets[k];
        if a.status.Claimed? || a.status.Cancelled? then Some(Done(s, c))
        else if a.kind.Ant? then
          if cfg.antNeedsApproval && !pc.approved then Some(At(s, c, Reviewing))
          else if signer.NoSigner? then Some(Done(s, c))
          else if signer.HotSigner? || a.mint.None? then Some(At(s, c, Failing))
          else Some(At(s, c, Signing(AntHandover(a.mint.value, pc.claimant), None)))
        else Some(At(s, c, Funding(a, pc.approved, pc.claimant, None, None)))
    else None
  }

  /** Amounts of verified and dispatching hot claims other than c, as the float query sums them. */
  function Committed(db: Db, c: ClaimId, d: ClaimId): nat
    requires d in db.claims
  {
    if d != c && Hot(db, d) && (db.claims[d].status.Verified? || db.claims[d].status.Dispatching?)
    then db.claims[d].settlement.GetOr(Mario(db.assets[db.claims[d].asset]))
    else 0
  }

  ghost function Reserved(db: Db, c: ClaimId): nat {
    Sum(map d | d in db.claims :: Committed(db, c, d))
  }

  function ReadBalanceNext(s: State, c: ClaimId): Option<State> {
    if c in s.threads && s.threads[c].Funding? && s.threads[c].balance.None?
    then Some(At(s, c, s.threads[c].(balance := Some(s.chain.balance)))) else None
  }

  ghost function ReadReservedNext(s: State, c: ClaimId): Option<State> {
    if c in s.threads && s.threads[c].Funding? && s.threads[c].reserved.None?
    then Some(At(s, c, s.threads[c].(reserved := Some(Reserved(s.db, c))))) else None
  }

  datatype Denial = OverThreshold | InsufficientFloat

  /** FloatManager.check: the brake first, then the available float. */
  function Check(threshold: nat, amount: nat, available: nat, approved: bool): Option<Denial> {
    if !approved && threshold > 0 && amount > threshold then Some(OverThreshold)
    else if amount > available then Some(InsufficientFloat)
    else None
  }

  function CheckFundsNext(cfg: Config, s: State, c: ClaimId, now: int): Option<State> {
    if c in s.threads && s.threads[c].Funding? && s.threads[c].balance.Some? && s.threads[c].reserved.Some? then
      var Funding(a, approved, claimant, Some(balance), Some(reserved)) := s.threads[c];
      var available := if balance > reserved then balance - reserved else 0;
      match Check(cfg.threshold, Mario(a), available, approved)
      case Some(OverThreshold) => Some(At(s, c, Reviewing))
      case Some(InsufficientFloat) => Some(Done(s, c))
      case None =>
        if a.kind.Vault? then
          match Settle(a.vaultEnd.GetOr(0), Mario(a), cfg.minVault, cfg.maxVault, now)
          case Liquid => Some(At(s, c, Signing(TokenTransfer(claimant, Mario(a)), Some(Mario(a)))))
          case LockTooLong => Some(At(s, c, Queueing))
          case Relock(lock) =>
            if cfg.relockReady
            then Some(At(s, c, Signing(VaultRelock(claimant, Mario(a), lock), Some(Mario(a)))))
            else Some(At(s, c, Queueing))
        else Some(At(s, c, Signing(TokenTransfer(claimant, Mario(a)), Some(Mario(a)))))
    else None
  }

  function SignNext(s: State, c: ClaimId, blockhash: nat, lastValid: nat): Option<State> {
    if c in s.threads && s.threads[c].Signing?
    then Some(At(s, c, Persisting(SignDispatch(true, c, s.threads[c].effect, blockhash, lastValid),
                                  lastValid, s.threads[c].settlement)))
    else None
  }

  function PersistNext(s: State, c: ClaimId): Option<State> {
    if c in s.threads && s.threads[c].Persisting? && c in s.db.claims then
      var Persisting(tx, lastValid, settlement) := s.threads[c];
      var k := s.db.claims[c].asset;
      var (db, ok) := Persist(s.db, c, k, tx, lastValid, settlement);
      if ok then
        Some(At(s, c, Broadcasting(tx, lastValid)).(db := db,
             freeSends := if s.db.claims[c].approved then s.freeSends else s.freeSends + {k}))
      else Some(Done(s, c))
    else None
  }

  function BroadcastNext(s: State, c: ClaimId, reaches: bool): Option<State> {
    if c in s.threads && s.threads[c].Broadcasting? then
      var Broadcasting(tx, lastValid) := s.threads[c];
      Some(At(s, c, Confirming(Inline(tx, lastValid))).(chain := if reaches then After(s.chain, Send(tx)) else s.chain))
    else None
  }

  predicate HeightAnswer(cfg: Config, ch: ChainState, height: nat) {
    cfg.endpoint.Arbitrary? || height <= ch.height
  }

  /** A consistent endpoint may lag, as long as its status is not older than the height it gave before. */
  predicate StatusAnswer(cfg: Config, ch: ChainState, height: nat, t: Tx, st: SigStatus) {
    match cfg.endpoint
    case Consistent => Recalls(ch, height, t, st)
    case WrongAboutLanded => !Landed(ch, t) ==> st == NotFound
    case Arbitrary => true
  }

  predicate ScanAnswer(cfg: Config, ch: ChainState, known: seq<Tx>, hit: Option<Tx>) {
    && (hit.Some? ==> hit.value in known)
    && (!cfg.endpoint.Arbitrary? && hit.Some? ==> hit.value in ch.ok)
    && (cfg.endpoint.WrongAboutLanded? && hit.None? ==> forall t :: t in known ==> t !in ch.ok)
  }

  function SampleNext(cfg: Config, s: State, c: ClaimId, height: nat): Option<State> {
    if c in s.threads && s.threads[c].Confirming? && HeightAnswer(cfg, s.chain, height)
    then Some(At(s, c, Sampled(s.threads[c].purpose, height))) else None
  }

  /** A pending answer polls again until the deadline; every other answer is acted on. */
  function StatusNext(cfg: Config, s: State, c: ClaimId, status: SigStatus, again: bool): Option<State> {
    if c in s.threads && s.threads[c].Sampled? && StatusAnswer(cfg, s.chain, s.threads[c].height, s.threads[c].purpose.sig, status) then
      var Sampled(purpose, height) := s.threads[c];
      var answer := Classify(height, purpose.lastValid, status);
      if answer != Pending then Some(At(s, c, Answered(purpose, answer)))
      else if again then Some(At(s, c, Confirming(purpose)))
      else Some(Done(s, c))
    else None
  }

  function ActNext(s: State, c: ClaimId): Option<State> {
    if c in s.threads && s.threads[c].Answered? then
      var Answered(purpose, answer) := s.threads[c];
      match answer
      case Confirmed => Some(Done(s, c).(db := Finalize(s.db, c, purpose.sig)))
      case Failed => Some(Done(s, c).(db := MarkFailed(s.db, c)))
      case _ => if purpose.Inline? then Some(Done(s, c)) else None
    else None
  }

  function ScanNext(cfg: Config, s: State, c: ClaimId, hit: Option<Tx>): Option<State> {
    if c in s.threads && s.threads[c].Answered? && s.threads[c].answer.Expired? && s.threads[c].purpose.Recovery?
       && ScanAnswer(cfg, s.chain, s.threads[c].purpose.known, hit)
    then
      var p := s.threads[c].purpose;
      Some(At(s, c, Scanned(p.origin, p.sig, p.resign, hit)))
    else None
  }

  function ActOnScanNext(s: State, c: ClaimId): Option<State> {
    if c in s.threads && s.threads[c].Scanned? then
      var Scanned(origin, sig, resign, hit) := s.threads[c];
      if hit.Some? then Some(Done(s, c).(db := Finalize(s.db, c, hit.value)))
      else if resign >= MAX_RESIGN_ATTEMPTS then Some(Done(s, c).(db := MarkNeedsOperator(s.db, c).0))
      else if origin.Worker? then Some(At(s, c, Fresh).(db := ClearDeadSignature(s.db, c)))
      else Some(Done(s, c).(db := ReleaseForRebuild(s.db, c)))
    else None
  }

  function RouteNext(s: State, c: ClaimId): Option<State> {
    if c in s.threads && c in s.db.claims then
      var k := s.db.claims[c].asset;
      match s.threads[c]
      case Reviewing => Some(Done(s, c).(db := RouteToReview(s.db, c, k)))
      case Queueing => Some(Done(s, c).(db := RouteToManualVault(s.db, c, k)))
      case Failing => Some(Done(s, c).(db := MarkFailed(s.db, c)))
      case _ => None
    else None
  }

  /** The operator's unlocked load before persisting, and again when it turns to recovery. */
  function OperatorLoadNext(s: State, c: ClaimId): Option<State> {
    if c in s.threads && c in s.db.claims then
      var row := s.db.claims[c];
      match s.threads[c]
      case Submitting(tx, lastValid) =>
        if row.status.Confirmed? then Some(Done(s, c))
        else if row.status.Dispatching? && row.sig.Some? then Some(At(s, c, Reloading))
        else Some(At(s, c, Persisting(tx, lastValid, None)))
      case Reloading =>
        if row.status.Dispatching? && row.sig.Some? then Some(At(s, c, Confirming(RecoveryOf(Operator, row))))
        else Some(Done(s, c))
      case _ => None
    else None
  }

  // ---------------------------------------------------------------------------
  // All steps
  // ---------------------------------------------------------------------------

  predicate ServiceStep(step: Step) {
    step.DoInitiate? || step.Hold? || step.DoComplete? || step.DoApprove? || step.DoReap? || step.DoRebuild?
  }

  predicate BatchStep(step: Step) {
    step.DoReserve? || step.DoBuild? || step.DoCancel? || step.DoExpire? || step.CountBatch? || step.WriteBatch?
  }

  predicate ChainStep(step: Step) {
    step.Grow? || step.LandTx? || step.TopUp?
  }

  predicate ReadStep(step: Step) {
    step.StartWorker? || step.StartSubmit? || step.Crash? || step.LoadClaimRow? || step.LoadAssetRow?
    || step.ReadBalance? || step.ReadReserved? || step.CheckFunds? || step.Sign? || step.SampleHeight?
    || step.ReadStatus? || step.Scan? || step.OperatorLoad?
  }

  predicate WriteStep(step: Step) {
    step.DoPersist? || step.Broadcast? || step.ActOnAnswer? || step.ActOnScan? || step.DoRoute?
  }

  ghost function ChainNext(cfg: Config, s: State, step: Step): Option<State>
    requires ChainStep(step)
  {
    match step
    case Grow(blocks) => EventNext(s, Advance(blocks))
    case LandTx(tx, success) => EventNext(s, Land(tx, success))
    case TopUp(mario) => EventNext(s, Refill(mario))
  }

  ghost function ServiceNext(cfg: Config, s: State, step: Step): Option<State>
    requires ServiceStep(step)
  {
    match step
    case DoInitiate(c, k, claimant, expiresAt, delisted) => InitiateNext(s, c, k, claimant, expiresAt, delisted)
    case Hold(k, part) => HoldNext(s, k, part)
    case DoComplete(c, echo, verdict, now, recipient) => CompleteNext(cfg, s, c, echo, verdict, now, recipient)
    case DoApprove(c) => ApproveNext(s, c)
    case DoReap(rows, now) => ReapNext(s, rows, now)
    case DoRebuild(rows, keyed, allowLive) => RebuildNext(s, rows, keyed, allowLive)
  }

  ghost function BatchNext(cfg: Config, s: State, step: Step): Option<State>
    requires BatchStep(step)
  {
    match step
    case DoReserve(b, rows, at) => ReserveNext(cfg, s, b, rows, at)
    case DoBuild(b, blockhash, lastValid) => BuildNext(s, b, blockhash, lastValid)
    case DoCancel(b) => CancelNext(s, b)
    case DoExpire(cutoff) => ExpireNext(s, cutoff)
    case CountBatch(b) => CountNext(s, b)
    case WriteBatch(b, stillOpen) => HeaderNext(s, b, stillOpen)
  }

  ghost function WriteNext(cfg: Config, s: State, step: Step): Option<State>
    requires WriteStep(step)
  {
    match step
    case DoPersist(c) => PersistNext(s, c)
    case Broadcast(c, reaches) => BroadcastNext(s, c, reaches)
    case ActOnAnswer(c) => ActNext(s, c)
    case ActOnScan(c) => ActOnScanNext(s, c)
    case DoRoute(c) => RouteNext(s, c)
  }

  ghost function ReadNext(cfg: Config, s: State, step: Step): Option<State>
    requires ReadStep(step)
  {
    match step
    case StartWorker(c) => StartWorkerNext(s, c)
    case StartSubmit(c, b, txid, authorityOver) => StartSubmitNext(s, c, b, txid, authorityOver)
    case Crash(c) => CrashNext(s, c)
    case LoadClaimRow(c) => LoadClaimNext(s, c)
    case LoadAssetRow(c, signer) => LoadAssetNext(cfg, s, c, signer)
    case ReadBalance(c) => ReadBalanceNext(s, c)
    case ReadReserved(c) => ReadReservedNext(s, c)
    case CheckFunds(c, now) => CheckFundsNext(cfg, s, c, now)
    case Sign(c, blockhash, lastValid) => SignNext(s, c, blockhash, lastValid)
    case SampleHeight(c, height) => SampleNext(cfg, s, c, height)
    case ReadStatus(c, status, again) => StatusNext(cfg, s, c, status, again)
    case Scan(c, hit) => ScanNext(cfg, s, c, hit)
    case OperatorLoad(c) => OperatorLoadNext(s, c)
  }

  /** The state after a step, or None when the step cannot happen. */
  ghost function Next(cfg: Config, s: State, step: Step): Option<State> {
    if ServiceStep(step) then ServiceNext(cfg, s, step)
    else if BatchStep(step) then BatchNext(cfg, s, step)
    else if ChainStep(step) then ChainNext(cfg, s, step)
    else if ReadStep(step) then ReadNext(cfg, s, step)
    else WriteNext(cfg, s, step)
  }

  datatype Run = Run(states: seq<State>, steps: seq<Step>)

  ghost predicate Steps(cfg: Config, r: Run, i: nat)
    requires i < |r.steps| && |r.states| == |r.steps| + 1
  {
    Next(cfg, r.states[i], r.steps[i]) == Some(r.states[i + 1])
  }

  /** Each state follows from the one before by one step. */
  ghost predicate Walk(cfg: Config, r: Run) {
    && |r.states| == |r.steps| + 1
    && forall i {:trigger Steps(cfg, r, i)} :: 0 <= i < |r.steps| ==> Steps(cfg, r, i)
  }
}
