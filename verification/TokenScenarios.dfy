/**
 Runs that exist for one token: from an empty claim table through the brake to a dispatch whose worker dies, and on
 to the next tick's recovery.
 */
module TokenScenarios {
  import opened Prelude
  import opened Chain
  import opened Rows
  import opened Service
  import opened ServiceOutcomes
  import opened Protocol
  import opened ReservedFloat
  import opened WorkerOutcomes
  import opened Runs

  /** One step more. */
  lemma Extends(cfg: Config, r: Run, step: Step, s': State) returns (q: Run)
    requires Walk(cfg, r) && Next(cfg, r.states[|r.steps|], step) == Some(s')
    ensures Walk(cfg, q) && q.states == r.states + [s'] && q.steps == r.steps + [step]
    ensures q.states[|q.steps|] == s' && q.states[0] == r.states[0]
  {
    q := Run(r.states + [s'], r.steps + [step]);
    forall i | 0 <= i < |q.steps| ensures Steps(cfg, q, i) {
      if i < |r.steps| {
        assert Steps(cfg, r, i);
      }
    }
  }

  // ---------------------------------------------------------------------------
  // From nothing past the brake
  // ---------------------------------------------------------------------------

  /** One available token on an account that holds its amount; nobody has asked for it. */
  datatype Sole = Sole(c: ClaimId, k: AssetKey, amount: nat, claimant: Address)

  function Untouched(x: Sole): State {
    State(Db(map[], map[x.k := Asset(Token, RecipientId(0), None, Some(x.amount), None, Nonce(0), Available)],
             map[RecipientId(0) := true], map[], []),
          ChainState(0, {}, {}, {}, x.amount), map[], {}, map[], map[], [], {}, {})
  }

  lemma SoleTotal(x: Sole)
    ensures RecipientTotal(Untouched(x).db.assets, RecipientId(0)) == x.amount
  {
    var assets := Untouched(x).db.assets;
    TotalAddsUp(assets, RecipientId(0), x.k);
    assert assets - {x.k} == map[];
  }

  predicate OverThreshold(cfg: Config, x: Sole) {
    cfg.threshold > 0 && x.amount > cfg.threshold
  }

  /** Asked for, locked, added up. */
  lemma TokenIsAddedUp(cfg: Config, x: Sole) returns (r: Run, s: State)
    ensures IsRun(cfg, r) && |r.steps| == 3 && r.states[0] == Untouched(x) && r.states[3] == s
    ensures CanWin(s, x.c, None, 0) && s.db.assets == Untouched(x).db.assets && s.open == map[x.k := Some(x.amount)]
    ensures s.db.claims.Keys == {x.c} && s.chain == Untouched(x).chain && s.threads == map[]
    ensures s.db.claims[x.c].asset == x.k && s.db.claims[x.c].claimant == x.claimant && !s.db.claims[x.c].approved
    ensures s.db.claims[x.c].batch.None? && s.db.claims[x.c].sig.None? && s.db.claims[x.c].resign == 0
  {
    var s0 := Untouched(x);
    r := Run([s0], []);
    AskingOpensAClaim(cfg, s0, x.c, x.k, x.claimant, 1, false);
    var s1 := Next(cfg, s0, DoInitiate(x.c, x.k, x.claimant, 1, false)).value;
    r := Extends(cfg, r, DoInitiate(x.c, x.k, x.claimant, 1, false), s1);
    LockIsExclusive(cfg, s1, x.k);
    var s2 := s1.(open := s1.open[x.k := None]);
    r := Extends(cfg, r, Hold(x.k, LockAsset), s2);
    LockIsExclusive(cfg, s2, x.k);
    SoleTotal(x);
    s := s2.(open := s2.open[x.k := Some(x.amount)]);
    r := Extends(cfg, r, Hold(x.k, ReadTotal), s);
  }

  /** A token up to the threshold ends verified, ready for dispatch; one above it waits for an operator. */
  lemma BrakeOfOneToken(cfg: Config, x: Sole) returns (r: Run, s: State)
    ensures IsRun(cfg, r) && |r.steps| == 4 && r.states[0] == Untouched(x) && r.states[4] == s
    ensures s.db.claims.Keys == {x.c} && s.db.assets.Keys == {x.k} && s.chain == Untouched(x).chain && s.threads == map[]
    ensures s.db.claims[x.c].status == (if OverThreshold(cfg, x) then PendingReview else Verified)
    ensures s.db.assets[x.k] == Untouched(x).db.assets[x.k].(status := if OverThreshold(cfg, x) then InReview else InClaim)
    ensures s.db.claims[x.c].asset == x.k && s.db.claims[x.c].claimant == x.claimant && !s.db.claims[x.c].approved
    ensures s.db.claims[x.c].batch.None? && s.db.claims[x.c].sig.None? && s.db.claims[x.c].resign == 0
  {
    var added;
    r, added := TokenIsAddedUp(cfg, x);
    s := BrakeDecides(cfg, added, x.c, None, 0);
    r := Extends(cfg, r, DoComplete(x.c, None, ProofValid, 0, Some(true)), s);
  }

  /** For instance, with a threshold of 100 a token of 5 goes straight through. */
  lemma SmallTokenIsVerified(cfg: Config, c: ClaimId, k: AssetKey) returns (r: Run)
    requires cfg.threshold == 100
    ensures IsRun(cfg, r) && r.states[0].db.claims == map[]
    ensures var s := r.states[|r.steps|];
            c in s.db.claims && s.db.claims[c].status.Verified? && k in s.db.assets && s.db.assets[k].status.InClaim?
  {
    var s;
    r, s := BrakeOfOneToken(cfg, Sole(c, k, 5, Address(0)));
  }

  // ---------------------------------------------------------------------------
  // A crash after the broadcast
  // ---------------------------------------------------------------------------

  /** A verified or approved token claim that has no dispatcher, on an account that covers it. */
  ghost predicate Payable(cfg: Config, s: State, c: ClaimId) {
    && s.threads == map[] && c in s.db.claims && s.db.claims.Keys == {c}
    && s.db.claims[c].status.Verified? && s.db.claims[c].batch.None? && s.db.claims[c].sig.None?
    && s.db.claims[c].asset in s.db.assets
    && var a := s.db.assets[s.db.claims[c].asset];
       && a.kind.Token? && a.status.InClaim? && a.amount.Some? && a.amount.value <= s.chain.balance
       && (cfg.threshold == 0 || a.amount.value <= cfg.threshold)
  }

  function TokenTx(s: State, c: ClaimId): Tx
    requires c in s.db.claims && s.db.claims[c].asset in s.db.assets
  {
    Tx(TokenTransfer(s.db.claims[c].claimant, s.db.assets[s.db.claims[c].asset].amount.GetOr(0)), 0, s.chain.height, Some(c))
  }

  /** The worker takes the claim up and loads its row. */
  lemma WorkerLoads(cfg: Config, r: Run, c: ClaimId) returns (q: Run)
    requires IsRun(cfg, r) && Payable(cfg, r.states[|r.steps|], c)
    ensures var s := r.states[|r.steps|];
            && IsRun(cfg, q) && q.states[0] == r.states[0] && |q.steps| == |r.steps| + 2
            && q.states[|q.steps|] == s.(threads := map[c := GotClaim(s.db.claims[c].approved, s.db.claims[c].claimant)])
  {
    var s := r.states[|r.steps|];
    WorkerPicksUp(cfg, s, c);
    var begun := s.(threads := map[c := Fresh]);
    q := Extends(cfg, r, StartWorker(c), begun);
    var got := GotClaim(s.db.claims[c].approved, s.db.claims[c].claimant);
    ClaimIsLoaded(cfg, begun, c);
    assert begun.threads[c := got] == map[c := got];
    q := Extends(cfg, q, LoadClaimRow(c), s.(threads := map[c := got]));
  }

  /** The worker gets ready to look at the float. */
  lemma WorkerBegins(cfg: Config, r: Run, c: ClaimId) returns (q: Run, a: Asset)
    requires IsRun(cfg, r) && Payable(cfg, r.states[|r.steps|], c)
    ensures var s := r.states[|r.steps|];
            && a == s.db.assets[s.db.claims[c].asset]
            && IsRun(cfg, q) && q.states[0] == r.states[0] && |q.steps| == |r.steps| + 3
            && q.states[|q.steps|] == s.(threads := map[c := Funding(a, s.db.claims[c].approved, s.db.claims[c].claimant, None, None)])
  {
    var s := r.states[|r.steps|];
    var row := s.db.claims[c];
    a := s.db.assets[row.asset];
    q := WorkerLoads(cfg, r, c);
    var got, funding := q.states[|q.steps|], Funding(a, row.approved, row.claimant, None, None);
    AssetDecides(cfg, got, c, NoSigner, row.approved, row.claimant);
    assert got.threads[c := funding] == map[c := funding];
    q := Extends(cfg, q, LoadAssetRow(c, NoSigner), s.(threads := map[c := funding]));
  }

  lemma NothingElseOwed(db: Db, c: ClaimId)
    requires db.claims.Keys == {c}
    ensures Owed(db, c) == 0
  {
    assert OwedMap(db, c) == map[];
  }

  /** The float covers the token. */
  lemma WorkerIsFunded(cfg: Config, s: State, c: ClaimId, a: Asset) returns (mid: State, now: State)
    requires Payable(cfg, s, c) && a == s.db.assets[s.db.claims[c].asset]
    ensures var row, t := s.db.claims[c], TokenTx(s, c);
            var begun := s.(threads := map[c := Funding(a, row.approved, row.claimant, None, None)]);
            && Next(cfg, begun, ReadBalance(c)) == Some(mid) && Next(cfg, mid, ReadReserved(c)) == Some(now)
            && Next(cfg, now, CheckFunds(c, 0)) == Some(s.(threads := map[c := Signing(t.effect, Some(t.effect.mario))]))
  {
    var row, t := s.db.claims[c], TokenTx(s, c);
    var begun := s.(threads := map[c := Funding(a, row.approved, row.claimant, None, None)]);
    mid, now := FloatIsRead(cfg, begun, c, a, row.approved, row.claimant);
    NothingElseOwed(s.db, c);
    TokenPasses(cfg, s, now, c, a);
    assert now.threads[c := Signing(t.effect, Some(t.effect.mario))] == map[c := Signing(t.effect, Some(t.effect.mario))];
  }

  lemma TokenPasses(cfg: Config, s: State, now: State, c: ClaimId, a: Asset)
    requires Payable(cfg, s, c) && a == s.db.assets[s.db.claims[c].asset]
    requires var row := s.db.claims[c];
             c in now.threads && now.threads[c] == Funding(a, row.approved, row.claimant, Some(s.chain.balance), Some(0))
    ensures var t := TokenTx(s, c);
            Next(cfg, now, CheckFunds(c, 0)) == Some(now.(threads := now.threads[c := Signing(t.effect, Some(t.effect.mario))]))
  {
    FundsDecide(cfg, now, c, a, s.db.claims[c].approved, s.db.claims[c].claimant, s.chain.balance, 0, 0);
  }

  /** The worker signs the token's transfer. */
  lemma WorkerSigns(cfg: Config, r: Run, c: ClaimId) returns (q: Run)
    requires IsRun(cfg, r) && Payable(cfg, r.states[|r.steps|], c)
    ensures var s := r.states[|r.steps|];
            var t := TokenTx(s, c);
            && IsRun(cfg, q) && q.states[0] == r.states[0] && |q.steps| == |r.steps| + 7
            && q.states[|q.steps|] == s.(threads := map[c := Persisting(t, t.lastValid, Some(t.effect.mario))])
  {
    var s := r.states[|r.steps|];
    var t := TokenTx(s, c);
    var a;
    q, a := WorkerBegins(cfg, r, c);
    var mid, now := WorkerIsFunded(cfg, s, c, a);
    q := Extends(cfg, q, ReadBalance(c), mid);
    q := Extends(cfg, q, ReadReserved(c), now);
    var signing := s.(threads := map[c := Signing(t.effect, Some(t.effect.mario))]);
    q := Extends(cfg, q, CheckFunds(c, 0), signing);
    SignedAsDecided(cfg, signing, c, t.effect, Some(t.effect.mario), 0, s.chain.height);
    var signed := s.(threads := map[c := Persisting(t, t.lastValid, Some(t.effect.mario))]);
    assert signing.threads[c := signed.threads[c]] == signed.threads;
    q := Extends(cfg, q, Sign(c, 0, s.chain.height), signed);
  }

  /** The claim is on record as dispatching with t, t is on its way, and no dispatcher knows of it. */
  ghost predicate Orphaned(s: State, c: ClaimId, t: Tx) {
    && s.threads == map[] && c in s.db.claims && s.db.claims[c].status.Dispatching? && s.db.claims[c].batch.None?
    && s.db.claims[c].sig == Some(t) && s.db.claims[c].lastValid == Some(t.lastValid)
    && t in s.chain.sent && t !in s.chain.ok && t !in s.chain.err
    && s.chain.height <= t.lastValid && Outflow(t.effect) <= s.chain.balance
  }

  /** What is on record once a dispatcher has persisted and sent t. */
  ghost predicate OnItsWay(s: State, e: State, c: ClaimId, t: Tx, settlement: Option<nat>)
    requires c in s.db.claims
  {
    && e.closing == s.closing && e.chain == s.chain.(sent := s.chain.sent + {t})
    && e.db.claims.Keys == s.db.claims.Keys && e.db.assets.Keys == s.db.assets.Keys && e.db.batches == s.db.batches
    && var row := s.db.claims[c];
       e.db.claims[c] == row.(status := Dispatching, sig := Some(t), lastValid := Some(t.lastValid),
                              settlement := settlement, txSigs := row.txSigs + [t])
  }

  lemma DispatcherPersists(cfg: Config, r: Run, c: ClaimId, t: Tx, settlement: Option<nat>) returns (q: Run)
    requires IsRun(cfg, r)
    requires var s := r.states[|r.steps|]; s.threads == map[c := Persisting(t, t.lastValid, settlement)] && StillOpen(s.db, c)
    ensures IsRun(cfg, q) && q.steps == r.steps + [DoPersist(c)] && q.states[0] == r.states[0]
    ensures var e := q.states[|q.steps|];
            && e.threads == map[c := Broadcasting(t, t.lastValid)] && e.chain == r.states[|r.steps|].chain
            && OnItsWay(r.states[|r.steps|], e.(chain := e.chain.(sent := e.chain.sent + {t})), c, t, settlement)
  {
    var persisted := PersistRecords(cfg, r.states[|r.steps|], c, t, t.lastValid, settlement);
    q := Extends(cfg, r, DoPersist(c), persisted);
  }

  lemma DispatcherSends(cfg: Config, r: Run, c: ClaimId, t: Tx, settlement: Option<nat>) returns (q: Run)
    requires IsRun(cfg, r)
    requires var s := r.states[|r.steps|]; s.threads == map[c := Persisting(t, t.lastValid, settlement)] && StillOpen(s.db, c)
    ensures IsRun(cfg, q) && q.steps == r.steps + [DoPersist(c), Broadcast(c, true)] && q.states[0] == r.states[0]
    ensures q.states[|q.steps|].threads == map[c := Confirming(Inline(t, t.lastValid))]
    ensures OnItsWay(r.states[|r.steps|], q.states[|q.steps|], c, t, settlement)
  {
    q := DispatcherPersists(cfg, r, c, t, settlement);
    var s := q.states[|q.steps|];
    BroadcastSends(cfg, s, c, t, t.lastValid, true);
    q := Extends(cfg, q, Broadcast(c, true),
                 s.(threads := s.threads[c := Confirming(Inline(t, t.lastValid))], chain := s.chain.(sent := s.chain.sent + {t})));
  }

  /** A dispatcher persists and broadcasts, and dies. */
  lemma DispatcherDies(cfg: Config, r: Run, c: ClaimId, t: Tx, settlement: Option<nat>) returns (q: Run)
    requires IsRun(cfg, r)
    requires var s := r.states[|r.steps|]; s.threads == map[c := Persisting(t, t.lastValid, settlement)] && StillOpen(s.db, c)
    ensures IsRun(cfg, q) && q.steps == r.steps + [DoPersist(c), Broadcast(c, true), Crash(c)] && q.states[0] == r.states[0]
    ensures q.states[|q.steps|].threads == map[] && OnItsWay(r.states[|r.steps|], q.states[|q.steps|], c, t, settlement)
  {
    q := DispatcherSends(cfg, r, c, t, settlement);
    var sent := q.states[|q.steps|];
    CrashForgets(cfg, sent, c);
    q := Extends(cfg, q, Crash(c), sent.(threads := sent.threads - {c}));
    assert sent.threads - {c} == map[];
  }

  /** What a recovery has to bring about. */
  ghost predicate PaidInFull(s: State, c: ClaimId, t: Tx) {
    && c in s.db.claims && s.db.claims[c].status.Confirmed? && t in s.db.claims[c].txSigs
    && s.db.claims[c].asset in s.db.assets && s.db.assets[s.db.claims[c].asset].status.Claimed?
    && t in s.chain.ok && c !in s.threads
  }

  /** The transfer lands, and the next tick takes the claim up again, asking about its signature. */
  lemma OrphanIsTakenUp(cfg: Config, r: Run, c: ClaimId, t: Tx) returns (q: Run)
    requires IsRun(cfg, r) && Orphaned(r.states[|r.steps|], c, t)
    ensures IsRun(cfg, q) && q.states[0] == r.states[0] && q.steps == r.steps + [LandTx(t, true), StartWorker(c)]
    ensures var s, e := r.states[|r.steps|], q.states[|q.steps|];
            && e.db == s.db && e.chain == s.chain.(ok := s.chain.ok + {t}, balance := e.chain.balance)
            && c in e.threads && e.threads[c].Confirming? && e.threads[c].purpose.sig == t
  {
    var s := r.states[|r.steps|];
    var landed := s.(chain := s.chain.(ok := s.chain.ok + {t}, balance := s.chain.balance - Outflow(t.effect)));
    q := Extends(cfg, r, LandTx(t, true), landed);
    var begun := DispatchingIsRecovered(cfg, landed, c);
    q := Extends(cfg, q, StartWorker(c), begun);
  }

  lemma RecoveryPolls(cfg: Config, r: Run, c: ClaimId, t: Tx) returns (q: Run)
    requires IsRun(cfg, r) && cfg.endpoint.Consistent?
    requires var s := r.states[|r.steps|];
             c in s.threads && s.threads[c].Confirming? && s.threads[c].purpose.sig == t && t in s.chain.ok && t !in s.chain.err
    ensures var s := r.states[|r.steps|];
            && IsRun(cfg, q) && q.states[0] == r.states[0]
            && q.steps == r.steps + [SampleHeight(c, s.chain.height), ReadStatus(c, Seen(false, true), false)]
            && q.states[|q.steps|] == s.(threads := s.threads[c := Answered(s.threads[c].purpose, ConfirmState.Confirmed)])
  {
    var s := r.states[|r.steps|];
    var p := s.threads[c].purpose;
    PollSees(cfg, s, c, p, true, false);
    var s1 := s.(threads := s.threads[c := Sampled(p, s.chain.height)]);
    q := Extends(cfg, r, SampleHeight(c, s.chain.height), s1);
    var s2 := Next(cfg, s1, ReadStatus(c, Seen(false, true), false)).value;
    PollDecides(cfg, s1, c, p, s.chain.height, Seen(false, true), false, s2);
    q := Extends(cfg, q, ReadStatus(c, Seen(false, true), false), s2);
    assert s1.threads[c := Answered(p, ConfirmState.Confirmed)] == s.threads[c := Answered(p, ConfirmState.Confirmed)];
  }

  /**
   After any run that leaves such a claim behind on a consistent endpoint: the transfer lands, and the worker's next
   tick finds it and settles the claim, without sending anything.
   */
  lemma LandedOrphanIsRecovered(cfg: Config, r: Run, c: ClaimId, t: Tx) returns (q: Run)
    requires IsRun(cfg, r) && cfg.endpoint.Consistent? && Orphaned(r.states[|r.steps|], c, t)
    ensures var s := r.states[|r.steps|];
            && IsRun(cfg, q) && q.states[0] == r.states[0]
            && q.steps == r.steps + [LandTx(t, true), StartWorker(c), SampleHeight(c, s.chain.height),
                                     ReadStatus(c, Seen(false, true), false), ActOnAnswer(c)]
    ensures var s, e := r.states[|r.steps|], q.states[|q.steps|];
            e.chain.sent == s.chain.sent && PaidInFull(e, c, t) && e.db.claims[c].asset == s.db.claims[c].asset
  {
    q := OrphanIsTakenUp(cfg, r, c, t);
    q := RecoveryPolls(cfg, q, c, t);
    var settled := ConfirmedAnswerSettles(cfg, q, |q.steps|, c);
    q := Extends(cfg, q, ActOnAnswer(c), settled);
  }

  /**
   Such a run exists from an empty claim table on, for every token up to the threshold: the worker dies right after
   its broadcast, the transfer lands, and the recovery settles the claim.
   */
  lemma CrashIsRecovered(cfg: Config, x: Sole) returns (r: Run, t: Tx)
    requires cfg.endpoint.Consistent? && !OverThreshold(cfg, x)
    ensures IsRun(cfg, r) && r.states[0] == Untouched(x) && |r.steps| == 19
    ensures r.steps[11..] == [DoPersist(x.c), Broadcast(x.c, true), Crash(x.c), LandTx(t, true), StartWorker(x.c),
                              SampleHeight(x.c, 0), ReadStatus(x.c, Seen(false, true), false), ActOnAnswer(x.c)]
    ensures t.effect == TokenTransfer(x.claimant, x.amount) && t.memo == Some(x.c)
    ensures var e := r.states[19]; PaidInFull(e, x.c, t) && e.db.claims[x.c].asset == x.k
  {
    var s;
    r, s := BrakeOfOneToken(cfg, x);
    t := TokenTx(s, x.c);
    r := WorkerSigns(cfg, r, x.c);
    assert StillOpen(r.states[11].db, x.c) && !Landed(r.states[11].chain, t);
    var q := DispatcherDies(cfg, r, x.c, t, Some(x.amount));
    r := LandedOrphanIsRecovered(cfg, q, x.c, t);
  }
}
