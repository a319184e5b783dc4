/**
 Why dispatch has to be single-flight: with a second dispatcher of a claim two transfers of one token
 or vault asset succeed, and with a second worker on the hot account more is sent than it holds.
 */
module SingleFlight {
  import opened Prelude
  import opened Chain
  import opened Rows
  import opened DispatchCore
  import opened Protocol
  import opened Invariant
  import opened Float
  import opened Progress
  import opened Runs
  import opened Theorems

  // ---------------------------------------------------------------------------
  // Preparing a liquid dispatch
  // ---------------------------------------------------------------------------

  /** A token or vault claim that may be sent and that the float covers, as far as its own worker can tell. */
  ghost predicate Fundable(cfg: Config, s: State, c: ClaimId) {
    && c in s.db.claims && CanDispatch(s.db.claims[c]) && s.db.claims[c].asset in s.db.assets
    && var a := s.db.assets[s.db.claims[c].asset];
       && !a.kind.Ant? && (a.status.InClaim? || a.status.InReview?)
       && (s.db.claims[c].approved || cfg.threshold == 0 || Mario(a) <= cfg.threshold)
       && Reserved(s.db, c) + Mario(a) <= s.chain.balance
  }

  function Transfer(s: State, c: ClaimId, blockhash: nat): Tx
    requires c in s.db.claims && s.db.claims[c].asset in s.db.assets
  {
    SignDispatch(true, c, TokenTransfer(s.db.claims[c].claimant, Mario(AssetOf(s, c))), blockhash, s.chain.height)
  }

  /** A clock at which the asset's vault, if it has one, has ended. */
  function Ripe(s: State, c: ClaimId): int
    requires c in s.db.claims && s.db.claims[c].asset in s.db.assets
  {
    AssetOf(s, c).vaultEnd.GetOr(0)
  }

  function Signed(s: State, c: ClaimId, blockhash: nat): Pc
    requires c in s.db.claims && s.db.claims[c].asset in s.db.assets
  {
    Persisting(Transfer(s, c, blockhash), s.chain.height, Some(Mario(AssetOf(s, c))))
  }

  function Looking(s: State, c: ClaimId, balance: Option<nat>, reserved: Option<nat>): Pc
    requires c in s.db.claims && s.db.claims[c].asset in s.db.assets
  {
    Funding(AssetOf(s, c), s.db.claims[c].approved, s.db.claims[c].claimant, balance, reserved)
  }

  lemma LoadsClaim(cfg: Config, s: State, c: ClaimId)
    requires Fundable(cfg, s, c)
    ensures Next(cfg, At(s, c, Fresh), LoadClaimRow(c)) ==
            Some(At(s, c, GotClaim(s.db.claims[c].approved, s.db.claims[c].claimant)))
  {
    var pc := GotClaim(s.db.claims[c].approved, s.db.claims[c].claimant);
    AtAgain(s, c, Fresh, pc);
    ByRead(cfg, At(s, c, Fresh), LoadClaimRow(c), At(s, c, pc));
  }

  lemma LoadsAsset(cfg: Config, s: State, c: ClaimId)
    requires Fundable(cfg, s, c)
    ensures Next(cfg, At(s, c, GotClaim(s.db.claims[c].approved, s.db.claims[c].claimant)), LoadAssetRow(c, HotSigner)) ==
            Some(At(s, c, Looking(s, c, None, None)))
  {
    var pc := GotClaim(s.db.claims[c].approved, s.db.claims[c].claimant);
    AtAgain(s, c, pc, Looking(s, c, None, None));
    ByRead(cfg, At(s, c, pc), LoadAssetRow(c, HotSigner), At(s, c, Looking(s, c, None, None)));
  }

  lemma ReadsBalance(cfg: Config, s: State, c: ClaimId)
    requires Fundable(cfg, s, c)
    ensures Next(cfg, At(s, c, Looking(s, c, None, None)), ReadBalance(c)) ==
            Some(At(s, c, Looking(s, c, Some(s.chain.balance), None)))
  {
    var pc := Looking(s, c, Some(s.chain.balance), None);
    AtAgain(s, c, Looking(s, c, None, None), pc);
    ByRead(cfg, At(s, c, Looking(s, c, None, None)), ReadBalance(c), At(s, c, pc));
  }

  lemma ReadsReserved(cfg: Config, s: State, c: ClaimId)
    requires Fundable(cfg, s, c)
    ensures Next(cfg, At(s, c, Looking(s, c, Some(s.chain.balance), None)), ReadReserved(c)) ==
            Some(At(s, c, Looking(s, c, Some(s.chain.balance), Some(Reserved(s.db, c)))))
  {
    var pc := Looking(s, c, Some(s.chain.balance), Some(Reserved(s.db, c)));
    AtAgain(s, c, Looking(s, c, Some(s.chain.balance), None), pc);
    ByRead(cfg, At(s, c, Looking(s, c, Some(s.chain.balance), None)), ReadReserved(c), At(s, c, pc));
  }

  lemma ChecksFunds(cfg: Config, s: State, c: ClaimId)
    requires Fundable(cfg, s, c)
    ensures Next(cfg, At(s, c, Looking(s, c, Some(s.chain.balance), Some(Reserved(s.db, c)))), CheckFunds(c, Ripe(s, c))) ==
            Some(At(s, c, Signing(Transfer(s, c, 0).effect, Some(Mario(AssetOf(s, c))))))
  {
    var was := Looking(s, c, Some(s.chain.balance), Some(Reserved(s.db, c)));
    var pc := Signing(Transfer(s, c, 0).effect, Some(Mario(AssetOf(s, c))));
    AtAgain(s, c, was, pc);
    ByRead(cfg, At(s, c, was), CheckFunds(c, Ripe(s, c)), At(s, c, pc));
  }

  lemma Signs(cfg: Config, s: State, c: ClaimId, blockhash: nat)
    requires Fundable(cfg, s, c)
    ensures Next(cfg, At(s, c, Signing(Transfer(s, c, 0).effect, Some(Mario(AssetOf(s, c))))), Sign(c, blockhash, s.chain.height)) ==
            Some(At(s, c, Signed(s, c, blockhash)))
  {
    var was := Signing(Transfer(s, c, 0).effect, Some(Mario(AssetOf(s, c))));
    AtAgain(s, c, was, Signed(s, c, blockhash));
    ByRead(cfg, At(s, c, was), Sign(c, blockhash, s.chain.height), At(s, c, Signed(s, c, blockhash)));
  }

  /** Six reads take a worker from loading the claim to a signed transaction. */
  lemma Prepares(cfg: Config, s: State, c: ClaimId, blockhash: nat) returns (w: Run)
    requires Fundable(cfg, s, c)
    ensures Walk(cfg, w) && w.states[0] == At(s, c, Fresh) && w.states[|w.steps|] == At(s, c, Signed(s, c, blockhash))
  {
    var got := At(s, c, GotClaim(s.db.claims[c].approved, s.db.claims[c].claimant));
    var looking := At(s, c, Looking(s, c, None, None));
    var balanced := At(s, c, Looking(s, c, Some(s.chain.balance), None));
    var summed := At(s, c, Looking(s, c, Some(s.chain.balance), Some(Reserved(s.db, c))));
    var passed := At(s, c, Signing(Transfer(s, c, 0).effect, Some(Mario(AssetOf(s, c)))));
    Signs(cfg, s, c, blockhash);
    w := Onward(cfg, passed, Sign(c, blockhash, s.chain.height), Resting(At(s, c, Signed(s, c, blockhash))));
    ChecksFunds(cfg, s, c);
    w := Onward(cfg, summed, CheckFunds(c, Ripe(s, c)), w);
    ReadsReserved(cfg, s, c);
    w := Onward(cfg, balanced, ReadReserved(c), w);
    ReadsBalance(cfg, s, c);
    w := Onward(cfg, looking, ReadBalance(c), w);
    LoadsAsset(cfg, s, c);
    w := Onward(cfg, got, LoadAssetRow(c, HotSigner), w);
    LoadsClaim(cfg, s, c);
    w := Onward(cfg, At(s, c, Fresh), LoadClaimRow(c), w);
  }

  lemma Onward(cfg: Config, s: State, step: Step, w: Run) returns (all: Run)
    requires Walk(cfg, w) && Next(cfg, s, step) == Some(w.states[0])
    ensures Walk(cfg, all) && all.states[0] == s && all.states[|all.steps|] == w.states[|w.steps|]
  {
    WalkGrows(cfg, s, step, w);
    all := Before(s, step, w);
  }

  // ---------------------------------------------------------------------------
  // Two workers on the hot account
  // ---------------------------------------------------------------------------

  lemma AtCommutes(s: State, c: ClaimId, p: Pc, d: ClaimId, q: Pc)
    requires c != d
    ensures At(At(s, c, p), d, q) == At(At(s, d, q), c, p)
  {
    assert s.threads[c := p][d := q] == s.threads[d := q][c := p];
  }

  /** The state after the persist of a signed claim. */
  function Sent(s: State, c: ClaimId, tx: Tx): State
    requires c in s.db.claims
  {
    var row := s.db.claims[c];
    At(s, c, Broadcasting(tx, tx.lastValid)).(
      db := Persist(s.db, c, row.asset, tx, tx.lastValid, Some(Outflow(tx.effect))).0,
      freeSends := if row.approved then s.freeSends else s.freeSends + {row.asset})
  }

  lemma Persists(cfg: Config, s: State, c: ClaimId, tx: Tx)
    requires c in s.threads && s.threads[c] == Persisting(tx, tx.lastValid, Some(Outflow(tx.effect)))
    requires c in s.db.claims && CanDispatch(s.db.claims[c]) && s.db.claims[c].asset in s.db.assets
    requires var a := s.db.assets[s.db.claims[c].asset]; a.status.InClaim? || a.status.InReview?
    ensures Next(cfg, s, DoPersist(c)) == Some(Sent(s, c, tx))
  {
    ByWrite(cfg, s, DoPersist(c), Sent(s, c, tx));
  }

  /** The second claim is dispatched too, and neither has landed. */
  lemma BothInFlight(s: State, c: ClaimId, d: ClaimId, t: Tx, u: Tx)
    requires c != d && c in s.db.claims && d in s.db.claims
    requires s.db.claims[c].asset in s.db.assets && s.db.claims[d].asset in s.db.assets
    requires s.db.claims[c].asset != s.db.claims[d].asset
    requires CanDispatch(s.db.claims[c]) && CanDispatch(s.db.claims[d])
    requires var a := AssetOf(s, c); !a.kind.Ant? && (a.status.InClaim? || a.status.InReview?)
    requires var a := AssetOf(s, d); !a.kind.Ant? && (a.status.InClaim? || a.status.InReview?)
    requires !Landed(s.chain, t) && !Landed(s.chain, u)
    ensures Outstanding(Sent(Sent(s, c, t), d, u)) >= Mario(AssetOf(s, c)) + Mario(AssetOf(s, d))
  {
    var e := Sent(Sent(s, c, t), d, u);
    var m := FlightMap(e);
    assert InFlight(e, c) && InFlight(e, d);
    assert m[c] == Mario(AssetOf(s, c)) && m[d] == Mario(AssetOf(s, d));
    SumSplit(m, c);
    SumSplit(m - {c}, d);
  }

  /**
   At any instant of a run: if two workers take up two token or vault claims whose amounts the float covers one by one
   but not together, both checks pass and more is in flight than the account holds. (Each claim then is an
   approved one from review, since the float query counts verified claims.)
   */
  lemma TwoWorkersOverspend(cfg: Config, r: Run, i: nat, c: ClaimId, d: ClaimId, b: nat) returns (w: Run)
    requires IsRun(cfg, r) && i < |r.states| && c != d
    requires Fundable(cfg, r.states[i], c) && Fundable(cfg, r.states[i], d)
    requires r.states[i].chain.balance < Mario(AssetOf(r.states[i], c)) + Mario(AssetOf(r.states[i], d))
    requires !Landed(r.states[i].chain, Transfer(r.states[i], c, b)) && !Landed(r.states[i].chain, Transfer(r.states[i], d, b))
    ensures Walk(cfg, w) && w.states[0] == At(At(r.states[i], c, Fresh), d, Fresh)
    ensures var e := w.states[|w.steps|]; Outstanding(e) > e.chain.balance
  {
    EveryStateIsSafe(cfg, r, i);
    OneClaimPerAsset(cfg, r.states[i], c, d);
    w := Overspends(cfg, r.states[i], c, d, b);
  }

  lemma Overspends(cfg: Config, s: State, c: ClaimId, d: ClaimId, b: nat) returns (w: Run)
    requires c != d && Fundable(cfg, s, c) && Fundable(cfg, s, d) && s.db.claims[c].asset != s.db.claims[d].asset
    requires !Landed(s.chain, Transfer(s, c, b)) && !Landed(s.chain, Transfer(s, d, b))
    ensures Walk(cfg, w) && w.states[0] == At(At(s, c, Fresh), d, Fresh)
    ensures w.states[|w.steps|].chain == s.chain
    ensures Outstanding(w.states[|w.steps|]) >= Mario(AssetOf(s, c)) + Mario(AssetOf(s, d))
  {
    var first := BothSign(cfg, s, c, d, b);
    var both := At(At(s, c, Signed(s, c, b)), d, Signed(s, d, b));
    var t, u := Transfer(s, c, b), Transfer(s, d, b);
    var last := BothPersist(cfg, both, c, d, t, u);
    WalksContinue(cfg, first, last);
    w := Then(first, last);
    BothInFlight(both, c, d, t, u);
  }

  lemma BothSign(cfg: Config, s: State, c: ClaimId, d: ClaimId, b: nat) returns (w: Run)
    requires c != d && Fundable(cfg, s, c) && Fundable(cfg, s, d)
    ensures Walk(cfg, w) && w.states[0] == At(At(s, c, Fresh), d, Fresh)
    ensures w.states[|w.steps|] == At(At(s, c, Signed(s, c, b)), d, Signed(s, d, b))
  {
    var first := Prepares(cfg, At(s, d, Fresh), c, b);
    AtCommutes(s, c, Fresh, d, Fresh);
    AtCommutes(s, c, Signed(s, c, b), d, Fresh);
    var second := Prepares(cfg, At(s, c, Signed(s, c, b)), d, b);
    WalksContinue(cfg, first, second);
    w := Then(first, second);
  }

  lemma BothPersist(cfg: Config, s: State, c: ClaimId, d: ClaimId, t: Tx, u: Tx) returns (w: Run)
    requires c != d && c in s.threads && s.threads[c] == Persisting(t, t.lastValid, Some(Outflow(t.effect)))
    requires d in s.threads && s.threads[d] == Persisting(u, u.lastValid, Some(Outflow(u.effect)))
    requires c in s.db.claims && CanDispatch(s.db.claims[c]) && s.db.claims[c].asset in s.db.assets
    requires d in s.db.claims && CanDispatch(s.db.claims[d]) && s.db.claims[d].asset in s.db.assets
    requires s.db.claims[c].asset != s.db.claims[d].asset
    requires AssetOf(s, c).status.InClaim? || AssetOf(s, c).status.InReview?
    requires AssetOf(s, d).status.InClaim? || AssetOf(s, d).status.InReview?
    ensures Walk(cfg, w) && w.states[0] == s && w.states[|w.steps|] == Sent(Sent(s, c, t), d, u)
  {
    Persists(cfg, s, c, t);
    Persists(cfg, Sent(s, c, t), d, u);
    w := Onward(cfg, Sent(s, c, t), DoPersist(d), Resting(Sent(Sent(s, c, t), d, u)));
    w := Onward(cfg, s, DoPersist(c), w);
  }

  lemma OneClaimPerAsset(cfg: Config, s: State, c: ClaimId, d: ClaimId)
    requires Inv(cfg, s) && c != d && c in s.db.claims && d in s.db.claims
    requires Won(s.db.claims[c]) && Won(s.db.claims[d])
    ensures s.db.claims[c].asset != s.db.claims[d].asset
  {
  }

  // ---------------------------------------------------------------------------
  // Two dispatchers of one claim
  // ---------------------------------------------------------------------------

  function Cleared(s: State, c: ClaimId): State {
    s.(db := ClearDeadSignature(s.db, c))
  }

  lemma ClearedIsFundable(cfg: Config, s: State, c: ClaimId)
    requires Inv(cfg, s) && c in s.db.claims && s.db.claims[c].status.Dispatching? && !AssetOf(s, c).kind.Ant?
    requires s.db.claims[c].approved || cfg.threshold == 0 || Mario(AssetOf(s, c)) <= cfg.threshold
    requires Reserved(s.db, c) + Mario(AssetOf(s, c)) <= s.chain.balance
    ensures Fundable(cfg, Cleared(s, c), c)
    ensures forall b :: Transfer(Cleared(s, c), c, b) == Transfer(s, c, b)
  {
    assert ClaimIn(cfg, s, c);
    var db := Cleared(s, c).db;
    assert db.claims[c].status == RevertStatus(s.db.claims[c]);
    var was, now := map d | d in s.db.claims :: Committed(s.db, c, d), map d | d in db.claims :: Committed(db, c, d);
    assert was == now;
    assert Reserved(s.db, c) == Sum(was) && Reserved(db, c) == Sum(now);
  }

  /** From a signed second transfer: it is persisted and sent, and both transfers land. */
  lemma BothLand(cfg: Config, s: State, c: ClaimId, u: Tx, v: Tx) returns (w: Run)
    requires c in s.threads && s.threads[c] == Persisting(v, v.lastValid, Some(Outflow(v.effect)))
    requires c in s.db.claims && CanDispatch(s.db.claims[c]) && s.db.claims[c].asset in s.db.assets
    requires AssetOf(s, c).status.InClaim? || AssetOf(s, c).status.InReview?
    requires Can(s.chain, Land(u, true)) && u != v && !Landed(s.chain, v) && s.chain.height <= v.lastValid
    requires u.memo == Some(c) && v.memo == Some(c) && Outflow(u.effect) + Outflow(v.effect) <= s.chain.balance
    ensures Walk(cfg, w) && w.states[0] == s
    ensures PaidFor(w.states[|w.steps|], u, s.db.claims[c].asset) && PaidFor(w.states[|w.steps|], v, s.db.claims[c].asset)
  {
    var persisted := Sent(s, c, v);
    var sent := At(persisted, c, Confirming(Inline(v, v.lastValid))).(chain := After(s.chain, Send(v)));
    var one := sent.(chain := After(sent.chain, Land(u, true)));
    var two := one.(chain := After(one.chain, Land(v, true)));
    ByChain(cfg, one, LandTx(v, true), two);
    w := Onward(cfg, one, LandTx(v, true), Resting(two));
    ByChain(cfg, sent, LandTx(u, true), one);
    w := Onward(cfg, sent, LandTx(u, true), w);
    AtAgain(persisted, c, Broadcasting(v, v.lastValid), Confirming(Inline(v, v.lastValid)));
    ByWrite(cfg, persisted, Broadcast(c, true), sent);
    w := Onward(cfg, persisted, Broadcast(c, true), w);
    Persists(cfg, s, c, v);
    w := Onward(cfg, s, DoPersist(c), w);
  }

  /**
   In any run: at instant i the dispatcher of c has rightly found its signature dead and is about to clear it;
   a second dispatcher in the same place would hold the same in memory. At a later instant j the first one has
   sent a new signature u, still alive. Then the second one's clearing, planned at i and done at j, is accepted,
   it goes on to sign again, and both transfers of the asset succeed.
   */
  lemma StaleClearDoublesTheTransfer(cfg: Config, r: Run, i: nat, j: nat, c: ClaimId, u: Tx, b: nat) returns (w: Run)
    requires IsRun(cfg, r) && i <= j < |r.states|
    requires c in r.states[i].threads && r.states[i].threads[c].Scanned? && r.states[i].threads[c].origin.Worker?
    requires r.states[i].threads[c].hit.None? && r.states[i].threads[c].resign < MAX_RESIGN_ATTEMPTS
    requires var s := r.states[j];
             && c in s.db.claims && s.db.claims[c].status.Dispatching? && s.db.claims[c].sig == Some(u)
             && Can(s.chain, Land(u, true))
             && s.db.claims[c].asset in s.db.assets && !AssetOf(s, c).kind.Ant?
             && (s.db.claims[c].approved || cfg.threshold == 0 || Mario(AssetOf(s, c)) <= cfg.threshold)
             && Reserved(s.db, c) + Mario(AssetOf(s, c)) <= s.chain.balance && 2 * Mario(AssetOf(s, c)) <= s.chain.balance
             && u != Transfer(s, c, b) && !Landed(s.chain, Transfer(s, c, b))
    ensures Walk(cfg, w) && ActOnScanNext(At(r.states[j], c, r.states[i].threads[c]), c) == Some(w.states[0])
    ensures var s, e := r.states[j], w.states[|w.steps|];
            PaidFor(e, u, s.db.claims[c].asset) && PaidFor(e, Transfer(s, c, b), s.db.claims[c].asset)
  {
    EveryStateIsSafe(cfg, r, j);
    StaleClearActs(cfg, r.states[j], c, r.states[i].threads[c]);
    w := DoubleTransfer(cfg, r.states[j], c, u, b);
  }

  lemma StaleClearActs(cfg: Config, s: State, c: ClaimId, stale: Pc)
    requires stale.Scanned? && stale.origin.Worker? && stale.hit.None? && stale.resign < MAX_RESIGN_ATTEMPTS
    ensures ActOnScanNext(At(s, c, stale), c) == Some(At(Cleared(s, c), c, Fresh))
  {
    AtAgain(s, c, stale, Fresh);
  }

  lemma DoubleTransfer(cfg: Config, s: State, c: ClaimId, u: Tx, b: nat) returns (w: Run)
    requires Inv(cfg, s) && c in s.db.claims && s.db.claims[c].status.Dispatching? && s.db.claims[c].sig == Some(u)
    requires Can(s.chain, Land(u, true)) && !AssetOf(s, c).kind.Ant?
    requires s.db.claims[c].approved || cfg.threshold == 0 || Mario(AssetOf(s, c)) <= cfg.threshold
    requires Reserved(s.db, c) + Mario(AssetOf(s, c)) <= s.chain.balance && 2 * Mario(AssetOf(s, c)) <= s.chain.balance
    requires u != Transfer(s, c, b) && !Landed(s.chain, Transfer(s, c, b))
    ensures Walk(cfg, w) && w.states[0] == At(Cleared(s, c), c, Fresh)
    ensures PaidFor(w.states[|w.steps|], u, s.db.claims[c].asset)
    ensures PaidFor(w.states[|w.steps|], Transfer(s, c, b), s.db.claims[c].asset)
  {
    CurrentSignature(cfg, s, c);
    ClearedIsFundable(cfg, s, c);
    var v := Transfer(s, c, b);
    var signed := Prepares(cfg, Cleared(s, c), c, b);
    assert signed.states[|signed.steps|] == At(Cleared(s, c), c, Persisting(v, v.lastValid, Some(Outflow(v.effect))));
    var landed := BothLand(cfg, signed.states[|signed.steps|], c, u, v);
    WalksContinue(cfg, signed, landed);
    w := Then(signed, landed);
  }

  /** The recorded signature pays the claim's asset. */
  lemma CurrentSignature(cfg: Config, s: State, c: ClaimId)
    requires Inv(cfg, s) && c in s.db.claims && s.db.claims[c].sig.Some? && !AssetOf(s, c).kind.Ant?
    ensures s.db.claims[c].sig.value.memo == Some(c) && Outflow(s.db.claims[c].sig.value.effect) == Mario(AssetOf(s, c))
  {
    assert ClaimIn(cfg, s, c);
    var cl := s.db.claims[c];
    assert OwnTx(c, cl, AssetOf(s, c), cl.txSigs[|cl.txSigs| - 1]);
  }
}
