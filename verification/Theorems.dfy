/**
 What the dispatch protocol promises, for every run and every instant of it.
 */
module Theorems {
  import opened Prelude
  import opened Chain
  import opened Rows
  import opened DispatchCore
  import opened LedgerUpsert
  import opened Protocol
  import opened Invariant
  import opened Monotonicity
  import opened Bookkeeping
  import opened Float
  import opened Brake
  import opened Finality
  import opened Progress
  import opened Runs

  // ---------------------------------------------------------------------------
  // Exactly once
  // ---------------------------------------------------------------------------

  /** A transaction succeeded on behalf of a claim to asset k. */
  predicate PaidFor(s: State, t: Tx, k: AssetKey) {
    && t in s.chain.ok
    && t.memo.Some? && t.memo.value in s.db.claims && s.db.claims[t.memo.value].asset == k
  }

  /** Whatever succeeded was recorded first, belongs to the asset's winner, and delivers that asset to it. */
  lemma EveryTransferIsOwned(cfg: Config, r: Run, i: nat, t: Tx)
    requires IsRun(cfg, r) && i < |r.states| && t in r.states[i].chain.ok
    ensures var s := r.states[i];
            && t.memo.Some? && t.memo.value in s.db.claims
            && var c := t.memo.value;
               var k := s.db.claims[c].asset;
               && PaidFor(s, t, k)
               && t in s.db.claims[c].txSigs
               && k in s.winner && s.winner[k] == c
               && k in s.db.assets && Delivers(s.db.assets[k], s.db.claims[c].claimant, t.effect)
  {
    EveryStateIsSafe(cfg, r, i);
    OwnedTransfer(cfg, r.states[i], t);
  }

  lemma OwnedTransfer(cfg: Config, s: State, t: Tx)
    requires Inv(cfg, s) && t in s.chain.ok
    ensures t.memo.Some? && t.memo.value in s.db.claims && t in s.db.claims[t.memo.value].txSigs
    ensures var c := t.memo.value;
            var k := s.db.claims[c].asset;
            && k in s.winner && s.winner[k] == c
            && k in s.db.assets && Delivers(s.db.assets[k], s.db.claims[c].claimant, t.effect)
  {
    assert t in s.chain.sent;
    var c := t.memo.value;
    assert ClaimIn(cfg, s, c);
  }

  /** A transaction that succeeded is the claim's last signature: the earlier ones are spent. */
  lemma OnlyTheLastSucceeds(cfg: Config, s: State, c: ClaimId, t: Tx)
    requires Inv(cfg, s) && Good(cfg)
    requires c in s.db.claims && t in s.db.claims[c].txSigs && t in s.chain.ok
    ensures t == s.db.claims[c].txSigs[|s.db.claims[c].txSigs| - 1]
  {
    assert ClaimIn(cfg, s, c);
    var cl := s.db.claims[c];
    var i :| 0 <= i < |cl.txSigs| && cl.txSigs[i] == t;
    assert !Spent(s.chain, t);
  }

  lemma PaidForStays(s: State, s': State, t: Tx, k: AssetKey)
    requires Ahead(s, s') && PaidFor(s, t, k)
    ensures PaidFor(s', t, k)
  {
    assert ClaimEvolves(s.db.claims[t.memo.value], s'.db.claims[t.memo.value]);
  }

  lemma AtMostOneNow(cfg: Config, s: State, t: Tx, u: Tx, k: AssetKey)
    requires Inv(cfg, s) && Good(cfg) && PaidFor(s, t, k) && PaidFor(s, u, k)
    ensures t == u
  {
    OwnedTransfer(cfg, s, t);
    OwnedTransfer(cfg, s, u);
    OnlyTheLastSucceeds(cfg, s, t.memo.value, t);
    OnlyTheLastSucceeds(cfg, s, u.memo.value, u);
  }

  /** At most one successful transfer ever lands per asset, whichever two instants are compared. */
  lemma AtMostOneTransferPerAsset(cfg: Config, r: Run, i: nat, j: nat, t: Tx, u: Tx, k: AssetKey)
    requires IsRun(cfg, r) && Good(cfg)
    requires i < |r.states| && j < |r.states|
    requires PaidFor(r.states[i], t, k) && PaidFor(r.states[j], u, k)
    ensures t == u
  {
    var n := |r.states| - 1;
    RunGoesAhead(cfg, r, i, n);
    RunGoesAhead(cfg, r, j, n);
    PaidForStays(r.states[i], r.states[n], t, k);
    PaidForStays(r.states[j], r.states[n], u, k);
    EveryStateIsSafe(cfg, r, n);
    AtMostOneNow(cfg, r.states[n], t, u, k);
  }

  /**
   A confirmed claim was paid by its recorded signature, to the wallet fixed when the claim
   was initiated, and stays exactly so.
   */
  lemma ConfirmedIsTruthful(cfg: Config, r: Run, h: nat, i: nat, j: nat, c: ClaimId)
    requires IsRun(cfg, r) && cfg.endpoint.Consistent?
    requires h <= i <= j < |r.states|
    requires c in r.states[h].db.claims && c in r.states[i].db.claims && r.states[i].db.claims[c].status.Confirmed?
    ensures var first, s, last := r.states[h].db.claims[c], r.states[i], r.states[j];
            && c in last.db.claims && last.db.claims[c] == s.db.claims[c]
            && var cl := s.db.claims[c];
               && cl.sig.Some? && cl.sig.value in cl.txSigs && PaidFor(s, cl.sig.value, first.asset)
               && cl.sig.value in last.chain.ok
               && first.asset in s.db.assets && s.db.assets[first.asset].status.Claimed?
               && Delivers(s.db.assets[first.asset], first.claimant, cl.sig.value.effect)
  {
    RunGoesAhead(cfg, r, h, i);
    RunGoesAhead(cfg, r, i, j);
    EveryStateIsSafe(cfg, r, i);
    ConfirmedNow(cfg, r.states[i], c);
    assert ClaimEvolves(r.states[h].db.claims[c], r.states[i].db.claims[c]);
    assert Terminal(r.states[i].db.claims[c]);
  }

  lemma ConfirmedNow(cfg: Config, s: State, c: ClaimId)
    requires Inv(cfg, s) && cfg.endpoint.Consistent? && c in s.db.claims && s.db.claims[c].status.Confirmed?
    ensures var cl := s.db.claims[c];
            && cl.sig.Some? && cl.sig.value in cl.txSigs && PaidFor(s, cl.sig.value, cl.asset)
            && cl.asset in s.db.assets && s.db.assets[cl.asset].status.Claimed?
            && Delivers(s.db.assets[cl.asset], cl.claimant, cl.sig.value.effect)
  {
    assert ClaimIn(cfg, s, c);
    var cl := s.db.claims[c];
    assert cl.txSigs[|cl.txSigs| - 1] == cl.sig.value;
  }

  // ---------------------------------------------------------------------------
  // One winner
  // ---------------------------------------------------------------------------

  predicate WonBy(db: Db, k: AssetKey, c: ClaimId) {
    c in db.claims && db.claims[c].asset == k && Won(db.claims[c])
  }

  /** At any instant: one claim past completion per asset, none while it is available, claimed iff confirmed. */
  lemma OneWinnerPerAsset(cfg: Config, r: Run, i: nat, k: AssetKey)
    requires IsRun(cfg, r) && i < |r.states| && k in r.states[i].db.assets
    ensures var db := r.states[i].db;
            && (forall c, d :: WonBy(db, k, c) && WonBy(db, k, d) ==> c == d)
            && (db.assets[k].status.Available? ==> forall c :: !WonBy(db, k, c))
            && (db.assets[k].status.Claimed? <==>
                  exists c :: c in db.claims && db.claims[c].asset == k && db.claims[c].status.Confirmed?)
  {
    EveryStateIsSafe(cfg, r, i);
    var s := r.states[i];
    forall c | c in s.db.claims && s.db.claims[c].asset == k ensures StatusOk(s.db.claims[c], s.db.assets[k]) {
      assert ClaimIn(cfg, s, c);
    }
    if s.db.assets[k].status.Claimed? {
      var c := s.winner[k];
      assert c in s.db.claims && s.db.claims[c].asset == k && s.db.claims[c].status.Confirmed?;
    }
  }

  /** Over a whole run an asset is completed once without replay; once claimed its row is final. */
  lemma CompletionHappensOnce(cfg: Config, r: Run, i: nat, j: nat, k: AssetKey)
    requires IsRun(cfg, r) && i <= j < |r.states|
    ensures forall m, n :: 0 <= m < n < |r.states[j].wins| ==> r.states[j].wins[m] != r.states[j].wins[n]
    ensures k in r.states[i].winner ==> k in r.states[j].winner && r.states[j].winner[k] == r.states[i].winner[k]
    ensures k in r.states[i].db.assets && r.states[i].db.assets[k].status.Claimed? ==>
              k in r.states[j].db.assets && r.states[j].db.assets[k] == r.states[i].db.assets[k]
  {
    EveryStateIsSafe(cfg, r, j);
    RunGoesAhead(cfg, r, i, j);
    if k in r.states[i].db.assets {
      assert AssetEvolves(r.states[i].db.assets[k], r.states[j].db.assets[k]);
    }
  }

  // ---------------------------------------------------------------------------
  // Blast radius of an endpoint that may answer anything
  // ---------------------------------------------------------------------------

  /** Transactions of claim c that were ever broadcast. */
  ghost function SentFor(s: State, c: ClaimId): set<Tx> {
    set t | t in s.chain.sent && t.memo == Some(c)
  }

  lemma {:induction false} SeqCovers(xs: seq<Tx>, a: set<Tx>)
    requires forall t :: t in a ==> t in xs
    ensures |a| <= |xs|
  {
    if xs == [] {
      assert a == {};
    } else {
      SeqCovers(xs[1..], a - {xs[0]});
      if xs[0] in a {
        assert |a - {xs[0]}| == |a| - 1;
      } else {
        assert a - {xs[0]} == a;
      }
    }
  }

  /** However wrong the endpoint is, a claim is signed at most twice, and never sent more often. */
  lemma BlastRadius(cfg: Config, r: Run, i: nat, c: ClaimId)
    requires IsRun(cfg, r) && i < |r.states| && c in r.states[i].db.claims
    ensures var s := r.states[i];
            && |SentFor(s, c)| <= |s.db.claims[c].txSigs| <= 1 + MAX_RESIGN_ATTEMPTS
            && s.db.claims[c].resign <= MAX_RESIGN_ATTEMPTS
  {
    EveryStateIsSafe(cfg, r, i);
    var s := r.states[i];
    assert ClaimIn(cfg, s, c);
    SeqCovers(s.db.claims[c].txSigs, SentFor(s, c));
  }

  /** With its budget spent and no outflow found, the claim freezes, for the rest of the run. */
  lemma SpentBudgetFreezes(cfg: Config, r: Run, i: nat, j: nat, c: ClaimId)
    requires IsRun(cfg, r) && i < |r.steps| && i < j < |r.states|
    requires r.steps[i] == ActOnScan(c)
    requires c in r.states[i].threads && r.states[i].threads[c].Scanned? && r.states[i].threads[c].hit.None?
    requires c in r.states[i].db.claims && r.states[i].db.claims[c].resign == MAX_RESIGN_ATTEMPTS
    ensures c in r.states[j].db.claims
    ensures r.states[j].db.claims[c] == r.states[i].db.claims[c].(status := NeedsOperator)
  {
    assert Steps(cfg, r, i);
    EveryStateHasSafeRows(cfg, r, i);
    LastScanFreezesSafely(cfg, r.states[i], c, r.states[i + 1]);
    RunGoesAhead(cfg, r, i + 1, j);
    assert Terminal(r.states[i + 1].db.claims[c]);
  }

  lemma LastScanFreezesSafely(cfg: Config, s: State, c: ClaimId, s': State)
    requires References(s) && ClaimsOk(cfg, s) && ThreadsOk(cfg, s) && Next(cfg, s, ActOnScan(c)) == Some(s')
    requires c in s.threads && s.threads[c].Scanned? && s.threads[c].hit.None?
    requires c in s.db.claims && s.db.claims[c].resign == MAX_RESIGN_ATTEMPTS
    ensures c in s'.db.claims && s'.db.claims[c] == s.db.claims[c].(status := NeedsOperator)
  {
    DispatcherFacts(cfg, s, c);
    LastScanFreezes(s, c, s');
  }

  lemma LastScanFreezes(s: State, c: ClaimId, s': State)
    requires ActOnScanNext(s, c) == Some(s') && s.threads[c].hit.None? && s.threads[c].resign >= MAX_RESIGN_ATTEMPTS
    requires c in s.db.claims && s.db.claims[c].status.Dispatching?
    ensures c in s'.db.claims && s'.db.claims[c] == s.db.claims[c].(status := NeedsOperator)
  {
    assert s'.db == MarkNeedsOperator(s.db, c).0;
  }

  // ---------------------------------------------------------------------------
  // Money
  // ---------------------------------------------------------------------------

  /** In every reachable state the hot balance covers everything in flight. */
  lemma NeverOverspends(cfg: Config, r: Run, i: nat)
    requires IsRun(cfg, r) && Good(cfg) && i < |r.states|
    ensures Outstanding(r.states[i]) <= r.states[i].chain.balance
  {
    EveryStateIsSafe(cfg, r, i);
  }

  /** So a transaction that is sent and still alive is always funded: the chain can execute it. */
  lemma EverySentTransferIsFunded(cfg: Config, r: Run, i: nat, t: Tx)
    requires IsRun(cfg, r) && Good(cfg) && i < |r.states|
    requires var ch := r.states[i].chain; t in ch.sent && !Landed(ch, t) && ch.height <= t.lastValid
    ensures Can(r.states[i].chain, Land(t, true))
  {
    EveryStateIsSafe(cfg, r, i);
    var s := r.states[i];
    LandableIsDispatching(cfg, s, t);
    var c := t.memo.value;
    assert ClaimIn(cfg, s, c);
    if Hot(s.db, c) {
      assert c in FlightMap(s) && FlightMap(s)[c] == Outflow(t.effect);
      SumAtLeast(FlightMap(s), c);
    }
  }

  /**
   What a recipient moves through claims nobody approved at dispatch stays within the threshold over
   the whole run; and every unapproved transfer that lands is among what is counted.
   */
  lemma BrakeCannotBeSplit(cfg: Config, r: Run, i: nat, recipient: RecipientId)
    requires IsRun(cfg, r) && i < |r.states| && cfg.threshold > 0
    ensures var s := r.states[i];
            && Sum(Unbraked(s.db.assets, s.freeSends, recipient)) <= cfg.threshold
            && forall t :: t in s.chain.ok ==>
                 t.memo.Some? && t.memo.value in s.db.claims
                 && (!s.db.claims[t.memo.value].approved ==> s.db.claims[t.memo.value].asset in s.freeSends)
  {
    EveryStateIsSafe(cfg, r, i);
    var s := r.states[i];
    FreeSendsFit(cfg, s, recipient);
    forall t | t in s.chain.ok
      ensures t.memo.Some? && t.memo.value in s.db.claims
              && (!s.db.claims[t.memo.value].approved ==> s.db.claims[t.memo.value].asset in s.freeSends)
    {
      OwnedTransfer(cfg, s, t);
    }
  }

  // ---------------------------------------------------------------------------
  // Batches and rebuilds
  // ---------------------------------------------------------------------------

  /** The reservation columns are set and cleared together, on ANT claims only, with the claim's own wire. */
  lemma ReservationDiscipline(cfg: Config, r: Run, i: nat, c: ClaimId)
    requires IsRun(cfg, r) && i < |r.states| && c in r.states[i].db.claims
    ensures var db := r.states[i].db;
            var cl := db.claims[c];
            && (cl.batch.None? <==> cl.reservedAt.None?)
            && (cl.batch.None? ==> cl.reservedTxid.None? && cl.reservedLastValid.None? && cl.reservedWire.None?)
            && (cl.batch.Some? ==> cl.batch.value in db.batches && cl.asset in db.assets && db.assets[cl.asset].kind.Ant?)
            && (cl.reservedWire.Some? ==> cl.reservedTxid == cl.reservedWire
                                          && cl.reservedLastValid == Some(cl.reservedWire.value.lastValid)
                                          && OwnTx(c, cl, db.assets[cl.asset], cl.reservedWire.value))
  {
    EveryStateIsSafe(cfg, r, i);
    assert ClaimIn(cfg, r.states[i], c);
  }

  /** From the moment a batch is completed it refers to confirmed claims only, and stays completed. */
  lemma CompletedBatchIsConfirmed(cfg: Config, r: Run, i: nat, j: nat, b: BatchId)
    requires IsRun(cfg, r) && i <= j < |r.states|
    requires b in r.states[i].db.batches && r.states[i].db.batches[b].status.Completed?
    ensures b in r.states[j].db.batches && r.states[j].db.batches[b].status.Completed?
    ensures AllConfirmed(r.states[j].db, b)
  {
    RunGoesAhead(cfg, r, i, j);
    EveryStateIsSafe(cfg, r, j);
  }

  /** A rebuild at any point, even over live rows, changes no live asset, no nonce, no claim and no promise. */
  lemma RebuildAtAnyPoint(cfg: Config, r: Run, i: nat, plan: seq<PlanRow>, keyed: map<RecipientId, bool>, s': State)
    requires IsRun(cfg, r) && i < |r.states|
    requires Next(cfg, r.states[i], DoRebuild(plan, keyed, true)) == Some(s')
    ensures RebuildSafe(r.states[i].db.assets, s'.db.assets)
    ensures s'.db.claims == r.states[i].db.claims && s'.db.audit == r.states[i].db.audit
    ensures s'.winner == r.states[i].winner && s'.threads == r.states[i].threads
    ensures Safe(cfg, s')
  {
    EveryStateIsSafe(cfg, r, i);
    StepKeepsSafe(cfg, r.states[i], DoRebuild(plan, keyed, true), s');
    RebuildIsSafe(r.states[i].db.assets, plan);
  }

  // ---------------------------------------------------------------------------
  // The protocol can do its work
  // ---------------------------------------------------------------------------

  /** Every run that has come to a ready ANT claim has a continuation of ten steps that pays, confirms and claims it. */
  lemma ReadyAntCanBeConfirmed(cfg: Config, r: Run, c: ClaimId)
    requires IsRun(cfg, r) && Ready(cfg, r.states[|r.steps|], c)
    ensures var s, w := r.states[|r.steps|], Then(r, Payment(r.states[|r.steps|], c));
            && IsRun(cfg, w) && r.states <= w.states && r.steps <= w.steps && |w.steps| == |r.steps| + 10
            && Settled(s, w.states[|w.steps|], c)
  {
    var s := r.states[|r.steps|];
    PaymentIsWalk(cfg, s, c);
    DonePays(cfg, s, c);
    RunsContinue(cfg, r, Payment(s, c));
  }
}
