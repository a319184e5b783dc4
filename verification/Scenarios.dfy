/**
 Runs that exist: from an empty claim table to a landed transfer, to a report that complains about
 nothing wrong, and to what goes wrong when dispatch is not single-flight.
 */
module Scenarios {
  import opened Prelude
  import opened Chain
  import opened Rows
  import opened Service
  import opened Protocol
  import opened Progress
  import opened Runs
  import opened Theorems
  import opened Reconcile
  import opened Float
  import opened SingleFlight

  // ---------------------------------------------------------------------------
  // From nothing to a ready claim
  // ---------------------------------------------------------------------------

  /** One available ANT of a recipient with a key. */
  datatype Cast = Cast(c: ClaimId, k: AssetKey, claimant: Address, mint: Mint, recipient: RecipientId)

  function Genesis(x: Cast): State {
    State(Db(map[], map[x.k := Asset(Ant, x.recipient, Some(x.mint), None, None, Nonce(0), Available)],
             map[x.recipient := true], map[], []),
          ChainState(0, {}, {}, {}, 0), map[], {}, map[], map[], [], {}, {})
  }

  function Asked(x: Cast): State {
    Genesis(x).(db := Initiate(Genesis(x).db, x.c, x.k, x.claimant, 1, false).0)
  }

  function WonState(x: Cast): State {
    var s := Asked(x);
    if x.c in s.db.claims && s.db.claims[x.c].asset in s.db.assets then
      s.(db := Win(s.db, x.c, false), winner := map[x.k := x.c], wins := [x.k], unbraked := {x.k})
    else s
  }

  lemma ByService(cfg: Config, s: State, step: Step, mid: State)
    requires ServiceStep(step) && ServiceNext(cfg, s, step) == Some(mid)
    ensures Next(cfg, s, step) == Some(mid)
  {
  }

  /** Asking, locking, adding up and winning. */
  function FirstClaim(x: Cast): Run {
    Before(Genesis(x), DoInitiate(x.c, x.k, x.claimant, 1, false),
           Before(Asked(x), Hold(x.k, LockAsset),
                  Before(Asked(x).(open := map[x.k := None]), Hold(x.k, ReadTotal),
                         Before(Asked(x).(open := map[x.k := Some(0)]), DoComplete(x.c, None, ProofValid, 0, Some(true)),
                                Resting(WonState(x))))))
  }

  lemma TotalIsZero(x: Cast)
    ensures HoldNext(Asked(x).(open := map[x.k := None]), x.k, ReadTotal) == Some(Asked(x).(open := map[x.k := Some(0)]))
  {
    var s := Asked(x);
    var m := map l | l in s.db.assets && CountsForBrake(s.db.assets[l], x.recipient) :: Mario(s.db.assets[l]);
    assert m == map[];
    assert RecipientTotal(s.db.assets, x.recipient) == Sum(m) == 0;
    var locked: map<AssetKey, Option<nat>>, summed: map<AssetKey, Option<nat>> := map[x.k := None], map[x.k := Some(0)];
    assert locked[x.k := Some(0)] == summed;
  }

  lemma ClaimWins(cfg: Config, x: Cast)
    ensures CompleteNext(cfg, Asked(x).(open := map[x.k := Some(0)]), x.c, None, ProofValid, 0, Some(true)) == Some(WonState(x))
  {
    var s := Asked(x).(open := map[x.k := Some(0)]);
    assert Complete(cfg.threshold, s.db, Unlocked(Some(true), 0), x.c, None, ProofValid, 0) == (Win(s.db, x.c, false), Accepted(false, false));
    assert s.open - {x.k} == map[] && [] + [x.k] == [x.k] && {} + {x.k} == {x.k};
  }

  lemma FirstClaimIsRun(cfg: Config, x: Cast)
    ensures IsRun(cfg, FirstClaim(x)) && |FirstClaim(x).steps| == 4 && FirstClaim(x).states[4] == WonState(x)
  {
    var s := Asked(x);
    var locked, summed := s.(open := map[x.k := None]), s.(open := map[x.k := Some(0)]);
    var w := Resting(WonState(x));
    ClaimWins(cfg, x);
    ByService(cfg, summed, DoComplete(x.c, None, ProofValid, 0, Some(true)), WonState(x));
    WalkGrows(cfg, summed, DoComplete(x.c, None, ProofValid, 0, Some(true)), w);
    w := Before(summed, DoComplete(x.c, None, ProofValid, 0, Some(true)), w);
    TotalIsZero(x);
    ByService(cfg, locked, Hold(x.k, ReadTotal), summed);
    WalkGrows(cfg, locked, Hold(x.k, ReadTotal), w);
    w := Before(locked, Hold(x.k, ReadTotal), w);
    ByService(cfg, s, Hold(x.k, LockAsset), locked);
    WalkGrows(cfg, s, Hold(x.k, LockAsset), w);
    w := Before(s, Hold(x.k, LockAsset), w);
    ByService(cfg, Genesis(x), DoInitiate(x.c, x.k, x.claimant, 1, false), s);
    WalkGrows(cfg, Genesis(x), DoInitiate(x.c, x.k, x.claimant, 1, false), w);
  }

  /** A run from the empty claim table reaches a ready claim, so the theorems about runs speak of something. */
  lemma ReadyIsReachable(cfg: Config, x: Cast)
    requires !cfg.antNeedsApproval && cfg.endpoint.Consistent?
    ensures IsRun(cfg, FirstClaim(x)) && Ready(cfg, FirstClaim(x).states[4], x.c)
  {
    FirstClaimIsRun(cfg, x);
  }

  // ---------------------------------------------------------------------------
  // A report that complains about a correct run
  // ---------------------------------------------------------------------------

  function PaidRun(x: Cast): Run
    requires FirstClaim(x).states[4] == WonState(x) && HandingOver(WonState(x), x.c)
  {
    Then(FirstClaim(x), Payment(WonState(x), x.c))
  }

  /** The claim is asked for, won, paid and settled; all of it is a run from the empty claim table. */
  lemma TransferIsReachable(cfg: Config, x: Cast)
    requires !cfg.antNeedsApproval && cfg.endpoint.Consistent?
    ensures IsRun(cfg, FirstClaim(x)) && Ready(cfg, WonState(x), x.c) && FirstClaim(x).states[4] == WonState(x)
    ensures var r := PaidRun(x);
            && IsRun(cfg, r) && |r.steps| == 14 && r.states[4] == WonState(x)
            && r.states[14] == PlanOf(WonState(x), x.c).done && Settled(WonState(x), r.states[14], x.c)
  {
    FirstClaimIsRun(cfg, x);
    ReadyIsReachable(cfg, x);
    ReadyAntCanBeConfirmed(cfg, FirstClaim(x), x.c);
    PaidRunShape(x);
  }

  lemma PaidRunShape(x: Cast)
    requires |FirstClaim(x).states| == 5 && |FirstClaim(x).steps| == 4
    requires FirstClaim(x).states[4] == WonState(x) && HandingOver(WonState(x), x.c)
    ensures |PaidRun(x).steps| == 14 && |PaidRun(x).states| == 15
    ensures PaidRun(x).states[4] == WonState(x) && PaidRun(x).states[14] == PlanOf(WonState(x), x.c).done
  {
    LaidOutShape(WonState(x), PlanOf(WonState(x), x.c), x.c, Wire(WonState(x), x.c), 0);
  }

  lemma LaidOutShape(s: State, p: Schedule, c: ClaimId, tx: Tx, height: nat)
    ensures var w := LaidOut(s, p, c, tx, height);
            |w.steps| == 10 && |w.states| == 11 && w.states[0] == s && w.states[10] == p.done
  {
  }

  /**
   In that run the report is wrong: with its first query before the payment and its second one after it,
   whatever the audit query returns afterwards, a perfectly settled asset is called an orphan.
   */
  lemma ReportBlamesACorrectRun(cfg: Config, x: Cast, counts: seq<AuditCount>)
    requires !cfg.antNeedsApproval && cfg.endpoint.Consistent?
    ensures Ready(cfg, WonState(x), x.c) && FirstClaim(x).states[4] == WonState(x)
    ensures var r := PaidRun(x);
            && IsRun(cfg, r) && |r.states| == 15
            && ConfirmedQuery(r.states[4].db, None, []) && ClaimedQuery(r.states[14].db, None, [x.k])
            && !Clean([], [x.k], counts)
  {
    TransferIsReachable(cfg, x);
    OneAsset(x);
    assert Count([], [x.k][0]) == 0;
    NothingConfirmed(x);
  }

  lemma NothingConfirmed(x: Cast)
    ensures ConfirmedQuery(WonState(x).db, None, [])
  {
  }

  lemma OneAsset(x: Cast)
    requires HandingOver(WonState(x), x.c)
    ensures PlanOf(WonState(x), x.c).done.db.assets.Keys == {x.k}
  {
  }

  // ---------------------------------------------------------------------------
  // Two workers
  // ---------------------------------------------------------------------------

  /** A token above the brake threshold that can be claimed by c. */
  predicate Big(cfg: Config, s: State, c: ClaimId, k: AssetKey) {
    && 0 < cfg.threshold && c !in s.db.claims && k !in s.open
    && k in s.db.assets && s.db.assets[k].kind.Token? && s.db.assets[k].status.Available?
    && Mario(s.db.assets[k]) > cfg.threshold
    && s.db.assets[k].recipient in s.db.keyed && s.db.keyed[s.db.assets[k].recipient]
  }

  function AskedFor(s: State, c: ClaimId, k: AssetKey): State {
    s.(db := Initiate(s.db, c, k, Address(0), 1, false).0)
  }

  function Reviewed(cfg: Config, s: State, c: ClaimId, k: AssetKey): State
    requires Big(cfg, s, c, k)
  {
    var asked := AskedFor(s, c, k);
    asked.(db := Win(asked.db, c, true), winner := s.winner[k := c], wins := s.wins + [k])
  }

  function ApprovedOf(cfg: Config, s: State, c: ClaimId, k: AssetKey): State
    requires Big(cfg, s, c, k)
  {
    Reviewed(cfg, s, c, k).(db := Approve(Reviewed(cfg, s, c, k).db, c).0)
  }

  lemma GoesToReview(cfg: Config, s: State, c: ClaimId, k: AssetKey, total: nat)
    requires Big(cfg, s, c, k)
    ensures CompleteNext(cfg, AskedFor(s, c, k).(open := s.open[k := Some(total)]), c, None, ProofValid, 0, Some(true)) ==
            Some(Reviewed(cfg, s, c, k))
  {
    var asked := AskedFor(s, c, k).(open := s.open[k := Some(total)]);
    assert Complete(cfg.threshold, asked.db, Unlocked(Some(true), total), c, None, ProofValid, 0) ==
           (Win(asked.db, c, true), Accepted(true, false));
    assert s.open[k := Some(total)] - {k} == s.open;
  }

  /** Asked for, sent to review, and approved. */
  lemma BigClaim(cfg: Config, s: State, c: ClaimId, k: AssetKey) returns (w: Run)
    requires Big(cfg, s, c, k)
    ensures Walk(cfg, w) && w.states[0] == s && w.states[|w.steps|] == ApprovedOf(cfg, s, c, k)
  {
    var asked, reviewed := AskedFor(s, c, k), Reviewed(cfg, s, c, k);
    var total := RecipientTotal(asked.db.assets, asked.db.assets[k].recipient);
    var locked, summed := asked.(open := s.open[k := None]), asked.(open := s.open[k := Some(total)]);
    ByService(cfg, reviewed, DoApprove(c), ApprovedOf(cfg, s, c, k));
    w := Onward(cfg, reviewed, DoApprove(c), Resting(ApprovedOf(cfg, s, c, k)));
    GoesToReview(cfg, s, c, k, total);
    ByService(cfg, summed, DoComplete(c, None, ProofValid, 0, Some(true)), reviewed);
    w := Onward(cfg, summed, DoComplete(c, None, ProofValid, 0, Some(true)), w);
    assert s.open[k := None][k := Some(total)] == s.open[k := Some(total)];
    ByService(cfg, locked, Hold(k, ReadTotal), summed);
    w := Onward(cfg, locked, Hold(k, ReadTotal), w);
    ByService(cfg, asked, Hold(k, LockAsset), locked);
    w := Onward(cfg, asked, Hold(k, LockAsset), w);
    ByService(cfg, s, DoInitiate(c, k, Address(0), 1, false), asked);
    w := Onward(cfg, s, DoInitiate(c, k, Address(0), 1, false), w);
  }

  /** Two tokens of 2 mARIO on an account that holds 2, one claim each. */
  datatype Pair = Pair(c: ClaimId, k: AssetKey, d: ClaimId, l: AssetKey)

  function PairGenesis(x: Pair): State {
    var token := Asset(Token, RecipientId(0), None, Some(2), None, Nonce(0), Available);
    State(Db(map[], map[x.k := token, x.l := token], map[RecipientId(0) := true], map[], []),
          ChainState(0, {}, {}, {}, 2), map[], {}, map[], map[], [], {}, {})
  }

  function PairApproved(cfg: Config, x: Pair): State
    requires cfg.threshold == 1 && x.c != x.d && x.k != x.l
  {
    ApprovedOf(cfg, ApprovedOf(cfg, PairGenesis(x), x.c, x.k), x.d, x.l)
  }

  /** The reserved sum counts no claim from review, so each of the two looks affordable. */
  lemma BothFundable(cfg: Config, x: Pair)
    requires cfg.threshold == 1 && x.c != x.d && x.k != x.l
    ensures Fundable(cfg, PairApproved(cfg, x), x.c) && Fundable(cfg, PairApproved(cfg, x), x.d)
    ensures PairApproved(cfg, x).chain == PairGenesis(x).chain
    ensures Mario(PairApproved(cfg, x).db.assets[PairApproved(cfg, x).db.claims[x.c].asset]) == 2
    ensures Mario(PairApproved(cfg, x).db.assets[PairApproved(cfg, x).db.claims[x.d].asset]) == 2
  {
    var s := PairApproved(cfg, x);
    assert s.db.claims.Keys == {x.c, x.d};
    NothingReserved(s.db, x.c);
    NothingReserved(s.db, x.d);
  }

  lemma NothingReserved(db: Db, c: ClaimId)
    requires forall d :: d in db.claims ==> db.claims[d].status.PendingReview?
    ensures Reserved(db, c) == 0
  {
    AllZero(map d | d in db.claims :: Committed(db, c, d));
  }

  /** Such a run exists: two workers on two approved claims send twice what the account holds. */
  lemma OverspendHappens(cfg: Config, x: Pair) returns (r: Run, w: Run)
    requires cfg.threshold == 1 && x.c != x.d && x.k != x.l
    ensures IsRun(cfg, r) && r.states[|r.steps|] == PairApproved(cfg, x)
    ensures Walk(cfg, w) && w.states[0] == At(At(PairApproved(cfg, x), x.c, Fresh), x.d, Fresh)
    ensures var e := w.states[|w.steps|]; Outstanding(e) > e.chain.balance
  {
    var s := PairGenesis(x);
    var first := BigClaim(cfg, s, x.c, x.k);
    var second := BigClaim(cfg, ApprovedOf(cfg, s, x.c, x.k), x.d, x.l);
    WalksContinue(cfg, first, second);
    r := Then(first, second);
    BothFundable(cfg, x);
    w := TwoWorkersOverspend(cfg, r, |r.steps|, x.c, x.d, 0);
  }

  // ---------------------------------------------------------------------------
  // Two dispatchers of one claim
  // ---------------------------------------------------------------------------

  /** Signed, persisted, sent or not, and the dispatcher gone. */
  function Gone(s: State, c: ClaimId, reaches: bool): State
    requires c in s.db.claims && s.db.claims[c].asset in s.db.assets
  {
    var t := Transfer(s, c, 0);
    Done(Sent(At(s, c, Signed(s, c, 0)), c, t), c).(chain := if reaches then After(s.chain, Send(t)) else s.chain)
  }

  lemma SendsAndDies(cfg: Config, s: State, c: ClaimId, reaches: bool) returns (w: Run)
    requires Fundable(cfg, s, c)
    ensures Walk(cfg, w) && w.states[0] == At(s, c, Signed(s, c, 0)) && w.states[|w.steps|] == Gone(s, c, reaches)
  {
    var t := Transfer(s, c, 0);
    var signed := At(s, c, Signed(s, c, 0));
    w := BroadcastsAndDies(cfg, Sent(signed, c, t), c, t, reaches);
    Persists(cfg, signed, c, t);
    w := Onward(cfg, signed, DoPersist(c), w);
  }

  lemma BroadcastsAndDies(cfg: Config, s: State, c: ClaimId, t: Tx, reaches: bool) returns (w: Run)
    requires c in s.threads && s.threads[c] == Broadcasting(t, t.lastValid)
    ensures Walk(cfg, w) && w.states[0] == s
    ensures w.states[|w.steps|] == Done(s, c).(chain := if reaches then After(s.chain, Send(t)) else s.chain)
  {
    var waiting := At(s, c, Confirming(Inline(t, t.lastValid))).(chain := if reaches then After(s.chain, Send(t)) else s.chain);
    assert waiting.threads - {c} == s.threads - {c};
    ByRead(cfg, waiting, Crash(c), Done(waiting, c));
    w := Onward(cfg, waiting, Crash(c), Resting(Done(waiting, c)));
    ByWrite(cfg, s, Broadcast(c, reaches), waiting);
    w := Onward(cfg, s, Broadcast(c, reaches), w);
  }

  lemma DispatchesAndDies(cfg: Config, s: State, c: ClaimId, reaches: bool) returns (w: Run)
    requires Fundable(cfg, s, c)
    ensures Walk(cfg, w) && w.states[0] == At(s, c, Fresh) && w.states[|w.steps|] == Gone(s, c, reaches)
  {
    var prepared := Prepares(cfg, s, c, 0);
    var sent := SendsAndDies(cfg, s, c, reaches);
    WalksContinue(cfg, prepared, sent);
    w := Then(prepared, sent);
  }

  lemma StartsAndDies(cfg: Config, s: State, c: ClaimId, reaches: bool) returns (w: Run)
    requires Fundable(cfg, s, c) && s.threads == map[] && s.db.claims[c].batch.None? && s.db.claims[c].sig.None?
    ensures Walk(cfg, w) && w.states[0] == s && w.states[|w.steps|] == Gone(s, c, reaches)
  {
    w := DispatchesAndDies(cfg, s, c, reaches);
    ByRead(cfg, s, StartWorker(c), At(s, c, Fresh));
    w := Onward(cfg, s, StartWorker(c), w);
  }

  function OneBlockLater(s: State): State {
    s.(chain := After(s.chain, Advance(1)))
  }

  function Judged(t: Tx): Pc {
    Scanned(Worker, t, 0, None)
  }

  /** One block later the signature is dead, and the recovery finds it so. */
  lemma JudgesDead(cfg: Config, s: State, c: ClaimId, t: Tx) returns (w: Run)
    requires cfg.endpoint.Consistent? && s.threads == map[] && c in s.db.claims
    requires s.db.claims[c].status.Dispatching? && s.db.claims[c].sig == Some(t) && s.db.claims[c].batch.None?
    requires s.db.claims[c].lastValid == Some(t.lastValid) && s.db.claims[c].resign == 0 && !Landed(s.chain, t)
    requires t.lastValid == s.chain.height
    ensures Walk(cfg, w) && w.states[0] == s && w.states[|w.steps|] == At(OneBlockLater(s), c, Judged(t))
  {
    var now := OneBlockLater(s);
    var p := RecoveryOf(Worker, s.db.claims[c]);
    w := FindsDead(cfg, now, c, p);
    ByRead(cfg, now, StartWorker(c), At(now, c, Confirming(p)));
    w := Onward(cfg, now, StartWorker(c), w);
    ByChain(cfg, s, Grow(1), now);
    w := Onward(cfg, s, Grow(1), w);
  }

  lemma FindsDead(cfg: Config, s: State, c: ClaimId, p: Purpose) returns (w: Run)
    requires cfg.endpoint.Consistent? && p.Recovery? && p.origin.Worker? && p.resign == 0
    requires !Landed(s.chain, p.sig) && p.lastValid < s.chain.height
    ensures Walk(cfg, w) && w.states[0] == At(s, c, Confirming(p)) && w.states[|w.steps|] == At(s, c, Judged(p.sig))
  {
    var sampled, expired := At(s, c, Sampled(p, s.chain.height)), At(s, c, Answered(p, ConfirmState.Expired));
    AtAgain(s, c, Answered(p, ConfirmState.Expired), Judged(p.sig));
    ByRead(cfg, expired, Scan(c, None), At(s, c, Judged(p.sig)));
    w := Onward(cfg, expired, Scan(c, None), Resting(At(s, c, Judged(p.sig))));
    AtAgain(s, c, Sampled(p, s.chain.height), Answered(p, ConfirmState.Expired));
    ByRead(cfg, sampled, ReadStatus(c, NotFound, false), expired);
    w := Onward(cfg, sampled, ReadStatus(c, NotFound, false), w);
    AtAgain(s, c, Confirming(p), Sampled(p, s.chain.height));
    ByRead(cfg, At(s, c, Confirming(p)), SampleHeight(c, s.chain.height), sampled);
    w := Onward(cfg, At(s, c, Confirming(p)), SampleHeight(c, s.chain.height), w);
  }

  /** The dispatcher clears the dead signature, signs again, sends, and is gone. */
  lemma ResendsAndDies(cfg: Config, s: State, c: ClaimId, t: Tx) returns (w: Run)
    requires Fundable(cfg, Cleared(s, c), c)
    ensures Walk(cfg, w) && w.states[0] == At(s, c, Judged(t)) && w.states[|w.steps|] == Gone(Cleared(s, c), c, true)
  {
    w := DispatchesAndDies(cfg, Cleared(s, c), c, true);
    StaleClearActs(cfg, s, c, Judged(t));
    ByWrite(cfg, At(s, c, Judged(t)), ActOnScan(c), At(Cleared(s, c), c, Fresh));
    w := Onward(cfg, At(s, c, Judged(t)), ActOnScan(c), w);
  }

  /** One token of 2 mARIO on an account that holds 4; its approved claim is ready. */
  function OneToken(k: AssetKey): State {
    State(Db(map[], map[k := Asset(Token, RecipientId(0), None, Some(2), None, Nonce(0), Available)], map[RecipientId(0) := true], map[], []),
          ChainState(0, {}, {}, {}, 4), map[], {}, map[], map[], [], {}, {})
  }

  /** The claim approved; its first transfer lost; and found dead one block later. */
  function OneApproved(cfg: Config, c: ClaimId, k: AssetKey): State
    requires cfg.threshold == 1
  {
    ApprovedOf(cfg, OneToken(k), c, k)
  }

  lemma OnlyClaim(cfg: Config, s: State, c: ClaimId)
    requires s.db.claims.Keys == {c}
    ensures Reserved(s.db, c) == 0
  {
    AllZero(map d | d in s.db.claims :: Committed(s.db, c, d));
  }

  lemma FirstIsLost(cfg: Config, c: ClaimId, k: AssetKey) returns (r: Run, lost: State)
    requires cfg.threshold == 1
    ensures IsRun(cfg, r) && r.states[|r.steps|] == lost
    ensures Fundable(cfg, OneApproved(cfg, c, k), c) && lost == Gone(OneApproved(cfg, c, k), c, false)
  {
    var s := OneApproved(cfg, c, k);
    var first := BigClaim(cfg, OneToken(k), c, k);
    OnlyClaim(cfg, s, c);
    var second := StartsAndDies(cfg, s, c, false);
    WalksContinue(cfg, first, second);
    r, lost := Then(first, second), Gone(s, c, false);
  }

  /** One claim, approved, on a token the account covers twice, and nothing landed. */
  ghost predicate Alone(cfg: Config, s: State, c: ClaimId, k: AssetKey) {
    && Fundable(cfg, s, c) && s.db.claims.Keys == {c} && s.db.claims[c].approved && s.db.claims[c].asset == k
    && s.chain.ok == {} && s.chain.err == {} && 2 * Mario(s.db.assets[k]) <= s.chain.balance
  }

  lemma SecondIsSent(cfg: Config, c: ClaimId, k: AssetKey) returns (r: Run, i: nat, t: Tx, s: State)
    requires cfg.threshold == 1 && cfg.endpoint.Consistent?
    ensures IsRun(cfg, r) && i < |r.states| && c in r.states[i].threads && r.states[i].threads[c] == Judged(t)
    ensures Alone(cfg, s, c, k) && r.states[|r.steps|] == Gone(s, c, true)
  {
    var first, lost := FirstIsLost(cfg, c, k);
    t := Transfer(OneApproved(cfg, c, k), c, 0);
    var second := JudgesDead(cfg, lost, c, t);
    WalksContinue(cfg, first, second);
    var judged := Then(first, second);
    i := |judged.steps|;
    s := Cleared(OneBlockLater(lost), c);
    OnlyClaim(cfg, s, c);
    var third := ResendsAndDies(cfg, OneBlockLater(lost), c, t);
    WalksContinue(cfg, judged, third);
    r := Then(judged, third);
  }

  /** What a second transfer has to meet, wherever a first one is on its way. */
  lemma SecondFits(cfg: Config, s: State, c: ClaimId, k: AssetKey)
    requires Alone(cfg, s, c, k)
    ensures var e, u := Gone(s, c, true), Transfer(s, c, 0);
            && c in e.db.claims && e.db.claims[c].status.Dispatching? && e.db.claims[c].sig == Some(u)
            && Can(e.chain, Land(u, true)) && e.db.claims[c].asset == s.db.claims[c].asset
            && e.db.claims[c].asset in e.db.assets && !e.db.assets[e.db.claims[c].asset].kind.Ant?
            && e.db.claims[c].approved && Reserved(e.db, c) == 0
            && 2 * Mario(e.db.assets[e.db.claims[c].asset]) <= e.chain.balance
            && u != Transfer(e, c, 1) && !Landed(e.chain, Transfer(e, c, 1))
  {
    OnlyClaim(cfg, Gone(s, c, true), c);
  }

  /**
   Such a run exists: at instant i the dispatcher has found the lost transfer dead, at j it has sent another,
   and a second dispatcher that held the judgement of i doubles the transfer.
   */
  lemma DoubleTransferHappens(cfg: Config, c: ClaimId, k: AssetKey) returns (r: Run, i: nat, j: nat, w: Run, u: Tx, v: Tx)
    requires cfg.threshold == 1 && cfg.endpoint.Consistent?
    ensures IsRun(cfg, r) && i <= j < |r.states| && c in r.states[i].threads
    ensures Walk(cfg, w) && ActOnScanNext(At(r.states[j], c, r.states[i].threads[c]), c) == Some(w.states[0])
    ensures u != v && PaidFor(w.states[|w.steps|], u, k) && PaidFor(w.states[|w.steps|], v, k)
  {
    var t, s;
    r, i, t, s := SecondIsSent(cfg, c, k);
    j := |r.steps|;
    SecondFits(cfg, s, c, k);
    u, v := Transfer(s, c, 0), Transfer(r.states[j], c, 1);
    w := StaleClearDoublesTheTransfer(cfg, r, i, j, c, u, 1);
  }
}
