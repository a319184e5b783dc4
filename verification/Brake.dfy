/**
 The big-claim brake cannot be split: what one recipient's unapproved claims move, over a whole run,
 stays within the threshold, however the recipient's assets are spread over claims.
 */
module Brake {
  import opened Prelude
  import opened Chain
  import opened Rows
  import opened DispatchCore
  import opened Service
  import opened LedgerUpsert
  import opened Protocol
  import opened Invariant
  import opened Preservation
  import opened Monotonicity

  /** The claim can reach, or is in, a dispatch nobody approved. */
  predicate Loose(cl: Claim) {
    (cl.status.Verified? || cl.status.Dispatching?) && !cl.approved
  }

  /** The asset carries no amount, or completion let its amount through the brake. */
  predicate Excused(s: State, k: AssetKey) {
    && k in s.db.assets && Live(s.db.assets[k])
    && (k in s.unbraked || s.db.assets[k].kind.Ant?)
  }

  ghost function Unbraked(assets: map<AssetKey, Asset>, keys: set<AssetKey>, r: RecipientId): map<AssetKey, nat> {
    map k | k in keys && k in assets && assets[k].recipient == r && assets[k].amount.Some? :: Mario(assets[k])
  }

  /** Whatever is or may be sent unapproved carries no amount or was let through. */
  ghost predicate LooseOk(s: State) {
    && (forall k :: k in s.unbraked ==> k in s.db.assets && Live(s.db.assets[k]))
    && (forall c :: c in s.db.claims && Loose(s.db.claims[c]) ==> Excused(s, s.db.claims[c].asset))
    && (forall c :: c in s.db.claims && s.db.claims[c].txSigs != [] && !s.db.claims[c].approved ==>
          s.db.claims[c].asset in s.freeSends)
    && (forall k :: k in s.freeSends ==> Excused(s, k))
  }

  /** An open completion has read a total that will let the asset through. */
  predicate WillPass(cfg: Config, s: State, k: AssetKey) {
    TotalKnown(s, k) && k in s.db.assets && !OverBrake(cfg.threshold, Mario(s.db.assets[k]), s.open[k].value)
  }

  /** Let through already, or about to be. */
  ghost function Cleared(cfg: Config, s: State): set<AssetKey> {
    s.unbraked + set k | k in s.open && WillPass(cfg, s, k)
  }

  ghost predicate ClearedOk(cfg: Config, s: State) {
    && (forall k :: k in s.open ==> k in s.db.assets && s.db.assets[k].status.Available?)
    && (cfg.threshold > 0 ==> forall r :: Sum(Unbraked(s.db.assets, Cleared(cfg, s), r)) <= cfg.threshold)
  }

  ghost predicate BrakeOk(cfg: Config, s: State) {
    LooseOk(s) && ClearedOk(cfg, s)
  }

  lemma InitialBrake(cfg: Config, s: State)
    requires Initial(s)
    ensures BrakeOk(cfg, s)
  {
    assert Cleared(cfg, s) == {};
    forall r ensures Unbraked(s.db.assets, {}, r) == map[] {
    }
  }

  // ---------------------------------------------------------------------------
  // Loose claims
  // ---------------------------------------------------------------------------

  /** A step that lets nothing new through only has to account for its loose claims and sends. */
  lemma CarryLoose(cfg: Config, s: State, s': State)
    requires LooseOk(s) && DbEvolves(s.db, s'.db) && s'.unbraked == s.unbraked
    requires forall c :: c in s'.db.claims && Loose(s'.db.claims[c]) ==> Excused(s, s'.db.claims[c].asset)
    requires forall c :: c in s'.db.claims && s'.db.claims[c].txSigs != [] && !s'.db.claims[c].approved ==>
               s'.db.claims[c].asset in s'.freeSends
    requires forall k :: k in s'.freeSends ==> Excused(s, k)
    ensures LooseOk(s')
  {
    forall k | Excused(s, k) ensures Excused(s', k) {
      assert AssetEvolves(s.db.assets[k], s'.db.assets[k]);
    }
    forall k | k in s.unbraked ensures k in s'.db.assets && Live(s'.db.assets[k]) {
      assert AssetEvolves(s.db.assets[k], s'.db.assets[k]);
    }
  }

  /** No claim becomes loose, except one that sits in an operator batch. */
  ghost predicate NoNewLoose(x: Db, y: Db) {
    forall c :: c in y.claims && Loose(y.claims[c]) ==>
      c in x.claims && y.claims[c].asset == x.claims[c].asset
      && (Loose(x.claims[c]) || (Won(x.claims[c]) && x.claims[c].batch.Some?))
  }

  lemma QuietKeepsLoose(cfg: Config, s: State, s': State)
    requires References(s) && ClaimsOk(cfg, s) && LooseOk(s)
    requires DbEvolves(s.db, s'.db) && Quiet(s.db, s'.db) && NoNewLoose(s.db, s'.db)
    requires s'.unbraked == s.unbraked && s'.freeSends == s.freeSends
    ensures LooseOk(s')
  {
    forall c | c in s'.db.claims && Loose(s'.db.claims[c]) ensures Excused(s, s'.db.claims[c].asset) {
      assert ClaimIn(cfg, s, c);
    }
    forall c | c in s'.db.claims && s'.db.claims[c].txSigs != [] && !s'.db.claims[c].approved
      ensures s'.db.claims[c].asset in s'.freeSends
    {
      assert ClaimEvolves(s.db.claims[c], s'.db.claims[c]);
    }
    CarryLoose(cfg, s, s');
  }

  // ---------------------------------------------------------------------------
  // The winning completion
  // ---------------------------------------------------------------------------

  lemma WinKeepsLoose(cfg: Config, s: State, s': State, c: ClaimId, review: bool)
    requires References(s) && ClaimsOk(cfg, s) && LooseOk(s)
    requires c in s.db.claims && s.db.claims[c].status.Claiming? && AssetOf(s, c).status.Available?
    requires s'.db == Win(s.db, c, review) && s'.freeSends == s.freeSends
    requires s'.unbraked == if review then s.unbraked else s.unbraked + {s.db.claims[c].asset}
    ensures LooseOk(s')
  {
    assert ClaimIn(cfg, s, c);
    forall d | d in s.db.claims ensures s'.db.claims[d].asset == s.db.claims[d].asset
      && s'.db.claims[d].txSigs == s.db.claims[d].txSigs && s'.db.claims[d].approved == s.db.claims[d].approved
    {
    }
  }

  lemma CompleteKeepsLoose(cfg: Config, s: State, c: ClaimId, echo: Option<Address>, verdict: Verdict, now: nat,
                           recipient: Option<bool>, s': State)
    requires References(s) && ClaimsOk(cfg, s) && LooseOk(s)
    requires Some(s') == CompleteNext(cfg, s, c, echo, verdict, now, recipient)
    ensures LooseOk(s')
  {
    var seen := ReadsOf(s, c, recipient);
    CompletionShape(cfg.threshold, s.db, seen, c, echo, verdict, now);
    var outcome := Complete(cfg.threshold, s.db, seen, c, echo, verdict, now).1;
    if outcome.Accepted? && !outcome.replay {
      WinKeepsLoose(cfg, s, s', c, outcome.review);
    } else {
      CompleteEvolves(cfg.threshold, s.db, seen, c, echo, verdict, now);
      QuietKeepsLoose(cfg, s, s');
    }
  }

  // ---------------------------------------------------------------------------
  // The other steps
  // ---------------------------------------------------------------------------

  lemma ServiceNoNewLoose(cfg: Config, s: State, step: Step, s': State)
    requires ServiceStep(step) && !step.DoComplete? && ServiceNext(cfg, s, step) == Some(s')
    ensures NoNewLoose(s.db, s'.db)
    ensures s'.unbraked == s.unbraked && s'.freeSends == s.freeSends
  {
    match step
    case DoInitiate(c, k, claimant, expiresAt, delisted) =>
    case Hold(k, part) =>
    case DoApprove(c) =>
    case DoReap(rows, now) =>
    case DoRebuild(plan, keyed, allowLive) =>
  }

  lemma ServiceKeepsLoose(cfg: Config, s: State, step: Step, s': State)
    requires Inv(cfg, s) && LooseOk(s) && ServiceStep(step) && ServiceNext(cfg, s, step) == Some(s')
    ensures LooseOk(s')
  {
    if step.DoComplete? {
      CompleteKeepsLoose(cfg, s, step.c, step.echo, step.verdict, step.now, step.recipient, s');
    } else {
      ServiceEvolves(cfg, s, step, s');
      ServiceNoNewLoose(cfg, s, step, s');
      QuietKeepsLoose(cfg, s, s');
    }
  }

  lemma BatchKeepsLoose(cfg: Config, s: State, step: Step, s': State)
    requires Inv(cfg, s) && LooseOk(s) && BatchStep(step) && BatchNext(cfg, s, step) == Some(s')
    ensures LooseOk(s')
  {
    BatchEvolves(cfg, s, step, s');
    BatchNoNewLoose(cfg, s, step, s');
    QuietKeepsLoose(cfg, s, s');
  }

  lemma BatchNoNewLoose(cfg: Config, s: State, step: Step, s': State)
    requires BatchStep(step) && BatchNext(cfg, s, step) == Some(s')
    ensures NoNewLoose(s.db, s'.db)
    ensures s'.unbraked == s.unbraked && s'.freeSends == s.freeSends
  {
    match step
    case DoReserve(b, rows, at) =>
    case DoBuild(b, blockhash, lastValid) =>
    case DoCancel(b) =>
    case DoExpire(cutoff) =>
    case CountBatch(b) =>
    case WriteBatch(b, stillOpen) =>
  }

  /** A persist is the one step that sends, and it sends only what is approved or was let through. */
  lemma PersistKeepsLoose(cfg: Config, s: State, c: ClaimId, s': State)
    requires References(s) && ThreadsOk(cfg, s) && LooseOk(s) && PersistNext(s, c) == Some(s')
    ensures LooseOk(s')
  {
    DispatchedClaimWon(cfg, s, c);
    DoPersistEvolves(s, c, s');
    PersistShape(s, c, s');
    var k := s.db.claims[c].asset;
    if c in s'.threads {
      assert !s.db.claims[c].approved ==> Loose(s.db.claims[c]);
      forall d | d in s'.db.claims ensures ClaimEvolves(s.db.claims[d], s'.db.claims[d]) {
      }
    }
    CarryLoose(cfg, s, s');
  }

  /** A write to one claim that records no signature and makes nothing loose. */
  lemma RowKeepsLoose(cfg: Config, s: State, c: ClaimId, s': State)
    requires References(s) && ClaimsOk(cfg, s) && LooseOk(s) && DbEvolves(s.db, s'.db)
    requires c in s.db.claims && c in s'.db.claims && s'.db.claims == s.db.claims[c := s'.db.claims[c]]
    requires s'.db.claims[c].txSigs == s.db.claims[c].txSigs
    requires Loose(s'.db.claims[c]) ==> Loose(s.db.claims[c])
    requires s'.unbraked == s.unbraked && s'.freeSends == s.freeSends
    ensures LooseOk(s')
  {
    forall d | d in s'.db.claims ensures ClaimEvolves(s.db.claims[d], s'.db.claims[d]) {
    }
    CarryLoose(cfg, s, s');
  }

  lemma ActKeepsLoose(cfg: Config, s: State, c: ClaimId, s': State)
    requires References(s) && ClaimsOk(cfg, s) && ThreadsOk(cfg, s) && LooseOk(s) && ActNext(s, c) == Some(s')
    ensures LooseOk(s')
  {
    DispatchedClaimWon(cfg, s, c);
    DispatcherFacts(cfg, s, c);
    ActEvolves(s, c, s');
    ActRow(s, c, s');
    RowKeepsLoose(cfg, s, c, s');
  }

  lemma ScanKeepsLoose(cfg: Config, s: State, c: ClaimId, s': State)
    requires References(s) && ClaimsOk(cfg, s) && ThreadsOk(cfg, s) && LooseOk(s) && ActOnScanNext(s, c) == Some(s')
    ensures LooseOk(s')
  {
    DispatchedClaimWon(cfg, s, c);
    DispatcherFacts(cfg, s, c);
    ActOnScanEvolves(s, c, s');
    ScanRow(s, c, s');
    RowKeepsLoose(cfg, s, c, s');
  }

  lemma RouteKeepsLoose(cfg: Config, s: State, c: ClaimId, s': State)
    requires References(s) && ClaimsOk(cfg, s) && ThreadsOk(cfg, s) && LooseOk(s) && RouteNext(s, c) == Some(s')
    ensures LooseOk(s')
  {
    DispatchedClaimWon(cfg, s, c);
    DispatcherFacts(cfg, s, c);
    DoRouteEvolves(s, c, s');
    RouteRow(s, c, s');
    RowKeepsLoose(cfg, s, c, s');
  }

  lemma WriteKeepsLoose(cfg: Config, s: State, step: Step, s': State)
    requires Inv(cfg, s) && LooseOk(s) && WriteStep(step) && WriteNext(cfg, s, step) == Some(s')
    ensures LooseOk(s')
  {
    match step
    case DoPersist(c) => PersistKeepsLoose(cfg, s, c, s');
    case Broadcast(c, reaches) => LooseIgnoresChain(cfg, s, s');
    case ActOnAnswer(c) => ActKeepsLoose(cfg, s, c, s');
    case ActOnScan(c) => ScanKeepsLoose(cfg, s, c, s');
    case DoRoute(c) => RouteKeepsLoose(cfg, s, c, s');
  }

  lemma LooseIgnoresChain(cfg: Config, s: State, s': State)
    requires LooseOk(s) && s'.db == s.db && s'.unbraked == s.unbraked && s'.freeSends == s.freeSends
    ensures LooseOk(s')
  {
    Unmoved(s.db);
    CarryLoose(cfg, s, s');
  }

  lemma StepKeepsLoose(cfg: Config, s: State, step: Step, s': State)
    requires Inv(cfg, s) && LooseOk(s) && Next(cfg, s, step) == Some(s')
    ensures LooseOk(s')
  {
    if ServiceStep(step) {
      ServiceKeepsLoose(cfg, s, step, s');
    } else if BatchStep(step) {
      BatchKeepsLoose(cfg, s, step, s');
    } else if ChainStep(step) {
      ChainEvolves(cfg, s, step, s');
      LooseIgnoresChain(cfg, s, s');
    } else if ReadStep(step) {
      ReadEvolves(cfg, s, step, s');
      LooseIgnoresChain(cfg, s, s');
    } else {
      WriteKeepsLoose(cfg, s, step, s');
    }
  }

  // ---------------------------------------------------------------------------
  // What is let through
  // ---------------------------------------------------------------------------

  /** Everything cleared so far, and the asset at hand, is in the sum a completion reads. */
  lemma TotalCoversCleared(cfg: Config, s: State, k: AssetKey, r: RecipientId)
    requires LooseOk(s) && ClearedOk(cfg, s) && k in s.db.assets && s.db.assets[k].status.Available?
    ensures Sum(Unbraked(s.db.assets, Cleared(cfg, s) + {k}, r)) <= RecipientTotal(s.db.assets, r)
  {
    SumMonotone(Unbraked(s.db.assets, Cleared(cfg, s) + {k}, r),
                map l | l in s.db.assets && CountsForBrake(s.db.assets[l], r) :: Mario(s.db.assets[l]));
  }

  lemma NothingAdded(assets: map<AssetKey, Asset>, keys: set<AssetKey>, k: AssetKey, r: RecipientId)
    requires k in assets && assets[k].recipient != r
    ensures Unbraked(assets, keys + {k}, r) == Unbraked(assets, keys, r)
  {
  }

  /** A read of the total clears at most the asset at hand, and only within the threshold. */
  lemma TotalKeepsCleared(cfg: Config, s: State, k: AssetKey, s': State)
    requires BrakeOk(cfg, s) && ReadTotalNext(s, k) == Some(s')
    ensures ClearedOk(cfg, s')
  {
    if cfg.threshold > 0 {
      var all := Cleared(cfg, s);
      forall r ensures Sum(Unbraked(s'.db.assets, Cleared(cfg, s'), r)) <= cfg.threshold {
        if WillPass(cfg, s', k) {
          assert Cleared(cfg, s') == all + {k};
          if s.db.assets[k].recipient == r {
            TotalCoversCleared(cfg, s, k, r);
          } else {
            NothingAdded(s.db.assets, all, k, r);
          }
        } else {
          assert Cleared(cfg, s') == all;
        }
      }
    }
  }

  /** The assets a step may take off the books or leave there; goods of what stays are the same. */
  lemma FewerCleared(cfg: Config, s: State, s': State)
    requires ClearedOk(cfg, s) && Cleared(cfg, s') <= Cleared(cfg, s)
    requires forall k :: k in s'.open ==> k in s'.db.assets && s'.db.assets[k].status.Available?
    requires forall k :: k in Cleared(cfg, s') && k in s'.db.assets ==>
               k in s.db.assets && SameGoods(s.db.assets[k], s'.db.assets[k])
    ensures ClearedOk(cfg, s')
  {
    if cfg.threshold > 0 {
      forall r ensures Sum(Unbraked(s'.db.assets, Cleared(cfg, s'), r)) <= cfg.threshold {
        SumMonotone(Unbraked(s'.db.assets, Cleared(cfg, s'), r), Unbraked(s.db.assets, Cleared(cfg, s), r));
      }
    }
  }

  /** Locked rows stay exactly as they are. */
  ghost predicate LockedStay(s: State, s': State) {
    forall k :: k in s.open ==> k in s'.db.assets && k in s.db.assets && s'.db.assets[k] == s.db.assets[k]
  }

  /** A step that opens, reads and commits nothing clears nothing. */
  lemma CalmKeepsCleared(cfg: Config, s: State, s': State)
    requires BrakeOk(cfg, s) && DbEvolves(s.db, s'.db) && LockedStay(s, s')
    requires s'.open == s.open && s'.unbraked == s.unbraked
    ensures ClearedOk(cfg, s')
  {
    forall k | k in s.unbraked ensures k in s'.db.assets && SameGoods(s.db.assets[k], s'.db.assets[k]) {
      assert AssetEvolves(s.db.assets[k], s'.db.assets[k]);
    }
    FewerCleared(cfg, s, s');
  }

  /** The winning commit keeps the promise of the total it has read, however old that total is. */
  lemma CompleteKeepsCleared(cfg: Config, s: State, c: ClaimId, echo: Option<Address>, verdict: Verdict, now: nat,
                             recipient: Option<bool>, s': State)
    requires BrakeOk(cfg, s) && Some(s') == CompleteNext(cfg, s, c, echo, verdict, now, recipient)
    ensures ClearedOk(cfg, s')
  {
    var seen := ReadsOf(s, c, recipient);
    CompletionShape(cfg.threshold, s.db, seen, c, echo, verdict, now);
    var outcome := Complete(cfg.threshold, s.db, seen, c, echo, verdict, now).1;
    if outcome.Accepted? && !outcome.replay {
      var k := s.db.claims[c].asset;
      assert s'.db.assets == s.db.assets[k := s'.db.assets[k]] && SameGoods(s.db.assets[k], s'.db.assets[k]);
      assert !outcome.review ==> k in Cleared(cfg, s);
    }
    FewerCleared(cfg, s, s');
  }

  /** A rebuild leaves the rows it does not plan. */
  lemma {:induction false} UnplannedStay(assets: map<AssetKey, Asset>, rows: seq<PlanRow>, k: AssetKey)
    requires k in assets && forall i :: 0 <= i < |rows| ==> rows[i].key != k
    ensures k in UpsertAll(assets, rows) && UpsertAll(assets, rows)[k] == assets[k]
    decreases |rows|
  {
    if rows != [] {
      UnplannedStay(Upsert(assets, rows[0]), rows[1..], k);
    }
  }

  lemma RebuildSparesLocked(s: State, plan: seq<PlanRow>, keyed: map<RecipientId, bool>, allowLive: bool, s': State)
    requires RebuildNext(s, plan, keyed, allowLive) == Some(s')
    requires forall k :: k in s.open ==> k in s.db.assets
    ensures LockedStay(s, s')
  {
    forall k | k in s.open ensures k in s'.db.assets && s'.db.assets[k] == s.db.assets[k] {
      UnplannedStay(s.db.assets, plan, k);
    }
  }

  /** Taking and giving back a lock clears nothing. */
  lemma LockKeepsCleared(cfg: Config, s: State, k: AssetKey, s': State)
    requires BrakeOk(cfg, s) && (LockAssetNext(s, k) == Some(s') || ReleaseNext(s, k) == Some(s'))
    ensures ClearedOk(cfg, s')
  {
    FewerCleared(cfg, s, s');
  }

  lemma ServiceKeepsCleared(cfg: Config, s: State, step: Step, s': State)
    requires BrakeOk(cfg, s) && ServiceStep(step) && ServiceNext(cfg, s, step) == Some(s')
    ensures ClearedOk(cfg, s')
  {
    ServiceEvolves(cfg, s, step, s');
    match step
    case Hold(k, part) =>
      if part.ReadTotal? {
        TotalKeepsCleared(cfg, s, k, s');
      } else {
        LockKeepsCleared(cfg, s, k, s');
      }
    case DoComplete(c, echo, verdict, now, recipient) =>
      CompleteKeepsCleared(cfg, s, c, echo, verdict, now, recipient, s');
    case DoRebuild(plan, keyed, allowLive) =>
      RebuildSparesLocked(s, plan, keyed, allowLive, s');
      CalmKeepsCleared(cfg, s, s');
    case _ => CalmKeepsCleared(cfg, s, s');
  }

  /** At most the asset row k differs. */
  ghost predicate OnlyAsset(x: Db, y: Db, k: AssetKey) {
    forall l :: l in x.assets && l != k ==> l in y.assets && y.assets[l] == x.assets[l]
  }

  lemma PersistTouches(s: State, c: ClaimId, s': State)
    requires PersistNext(s, c) == Some(s')
    ensures c in s.db.claims && OnlyAsset(s.db, s'.db, s.db.claims[c].asset)
    ensures s'.open == s.open && s'.unbraked == s.unbraked
  {
  }

  lemma FinalizeTouches(x: Db, c: ClaimId, t: Tx)
    requires c in x.claims
    ensures OnlyAsset(x, Finalize(x, c, t), x.claims[c].asset)
  {
  }

  lemma ActTouches(s: State, c: ClaimId, s': State)
    requires (ActNext(s, c) == Some(s') || ActOnScanNext(s, c) == Some(s')) && c in s.db.claims
    ensures OnlyAsset(s.db, s'.db, s.db.claims[c].asset)
    ensures s'.open == s.open && s'.unbraked == s.unbraked
  {
    if s.threads[c].Answered? && s.threads[c].answer.Confirmed? {
      FinalizeTouches(s.db, c, s.threads[c].purpose.sig);
    }
    if s.threads[c].Scanned? && s.threads[c].hit.Some? {
      FinalizeTouches(s.db, c, s.threads[c].hit.value);
    }
  }

  lemma RouteTouches(s: State, c: ClaimId, s': State)
    requires RouteNext(s, c) == Some(s')
    ensures c in s.db.claims && OnlyAsset(s.db, s'.db, s.db.claims[c].asset)
    ensures s'.open == s.open && s'.unbraked == s.unbraked
  {
  }

  /** What a dispatcher writes belongs to a won asset, so it is never a locked one. */
  lemma WriteSparesLocked(cfg: Config, s: State, step: Step, s': State)
    requires References(s) && ClaimsOk(cfg, s) && ThreadsOk(cfg, s) && WinnersOk(s) && BrakeOk(cfg, s)
    requires WriteStep(step) && WriteNext(cfg, s, step) == Some(s')
    ensures LockedStay(s, s') && s'.open == s.open && s'.unbraked == s.unbraked
  {
    DispatchedClaimWon(cfg, s, step.c);
    WonIsNotLocked(cfg, s, step.c);
    WriteTouches(cfg, s, step, s');
  }

  lemma WriteTouches(cfg: Config, s: State, step: Step, s': State)
    requires WriteStep(step) && WriteNext(cfg, s, step) == Some(s') && step.c in s.db.claims
    ensures OnlyAsset(s.db, s'.db, s.db.claims[step.c].asset)
    ensures s'.open == s.open && s'.unbraked == s.unbraked
  {
    match step
    case DoPersist(c) => PersistTouches(s, c, s');
    case Broadcast(c, reaches) =>
    case ActOnAnswer(c) => ActTouches(s, c, s');
    case ActOnScan(c) => ActTouches(s, c, s');
    case DoRoute(c) => RouteTouches(s, c, s');
  }

  lemma WonIsNotLocked(cfg: Config, s: State, c: ClaimId)
    requires References(s) && ClaimsOk(cfg, s) && WinnersOk(s) && ClearedOk(cfg, s) && c in s.db.claims && Won(s.db.claims[c])
    ensures s.db.claims[c].asset !in s.open
  {
    assert ClaimIn(cfg, s, c);
  }

  lemma BatchSparesLocked(cfg: Config, s: State, step: Step, s': State)
    requires BatchStep(step) && BatchNext(cfg, s, step) == Some(s')
    ensures s'.db.assets == s.db.assets && s'.open == s.open && s'.unbraked == s.unbraked
  {
  }

  lemma ChainSparesLocked(cfg: Config, s: State, step: Step, s': State)
    requires ChainStep(step) && ChainNext(cfg, s, step) == Some(s')
    ensures s'.db == s.db && s'.open == s.open && s'.unbraked == s.unbraked
  {
  }

  lemma OthersSpareLocked(cfg: Config, s: State, step: Step, s': State)
    requires !ServiceStep(step) && Next(cfg, s, step) == Some(s')
    requires References(s) && ClaimsOk(cfg, s) && ThreadsOk(cfg, s) && WinnersOk(s) && BrakeOk(cfg, s)
    ensures LockedStay(s, s') && s'.open == s.open && s'.unbraked == s.unbraked
  {
    if BatchStep(step) {
      BatchSparesLocked(cfg, s, step, s');
    } else if ChainStep(step) {
      ChainSparesLocked(cfg, s, step, s');
    } else if ReadStep(step) {
      ReadEvolves(cfg, s, step, s');
    } else {
      WriteSparesLocked(cfg, s, step, s');
    }
  }

  /** The brake invariant is inductive, although the total is read at one instant and committed on at another. */
  lemma StepKeepsBrake(cfg: Config, s: State, step: Step, s': State)
    requires Inv(cfg, s) && BrakeOk(cfg, s) && Next(cfg, s, step) == Some(s')
    ensures BrakeOk(cfg, s')
  {
    StepKeepsLoose(cfg, s, step, s');
    if ServiceStep(step) {
      ServiceKeepsCleared(cfg, s, step, s');
    } else {
      OthersSpareLocked(cfg, s, step, s');
      StepEvolves(cfg, s, step, s');
      CalmKeepsCleared(cfg, s, s');
    }
  }

  /** Whatever was sent unapproved is among what was let through. */
  lemma FreeSendsFit(cfg: Config, s: State, r: RecipientId)
    requires BrakeOk(cfg, s) && cfg.threshold > 0
    requires forall k :: k in s.db.assets ==> ShapeOk(s.db.assets[k])
    ensures Sum(Unbraked(s.db.assets, s.freeSends, r)) <= cfg.threshold
  {
    var free, through := Unbraked(s.db.assets, s.freeSends, r), Unbraked(s.db.assets, Cleared(cfg, s), r);
    forall k | k in free ensures k in through {
      assert Excused(s, k) && ShapeOk(s.db.assets[k]);
    }
    SumMonotone(free, through);
  }
}
