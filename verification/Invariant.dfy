/**
 The global invariant of the dispatch protocol. Most of it is a predicate on one claim, its
 asset and its dispatcher, so that a step that touches one claim concerns that claim only.
 */
module Invariant {
  import opened Prelude
  import opened Chain
  import opened Rows
  import opened Protocol

  /** The status and scan answers are good enough for exactly-once. */
  predicate Good(cfg: Config) {
    !cfg.endpoint.Arbitrary?
  }

  /** The effect hands exactly this asset to this wallet. */
  predicate Delivers(a: Asset, claimant: Address, e: Effect) {
    if a.kind.Ant? then a.mint.Some? && e == AntHandover(a.mint.value, claimant)
    else !e.AntHandover? && e.to == claimant && Outflow(e) == Mario(a)
  }

  /** The settlement amount a dispatch records: none for an ANT. */
  function Due(a: Asset): Option<nat> {
    if a.kind.Ant? then None else Some(Mario(a))
  }

  /** Won and not yet handed to a transaction. */
  predicate Waiting(cl: Claim) {
    cl.status.Verified? || cl.status.PendingReview?
  }

  predicate Ended(cl: Claim) {
    cl.status.Confirmed? || cl.status.Failed? || cl.status.NeedsOperator?
  }

  function Held(cl: Claim): nat {
    if cl.sig.Some? then 1 else 0
  }

  // ---------------------------------------------------------------------------
  // One claim
  // ---------------------------------------------------------------------------

  predicate Untouched(cl: Claim) {
    && cl.sig.None? && cl.lastValid.None? && cl.settlement.None? && cl.txSigs == [] && cl.resign == 0
    && !cl.approved && cl.batch.None? && cl.reservedAt.None?
    && cl.reservedTxid.None? && cl.reservedLastValid.None? && cl.reservedWire.None?
  }

  predicate OwnTx(c: ClaimId, cl: Claim, a: Asset, t: Tx) {
    t.memo == Some(c) && Delivers(a, cl.claimant, t.effect)
  }

  /** Either no reservation column is set, or the claim is an ANT in one batch with its own wire. */
  predicate ReservationOk(c: ClaimId, cl: Claim, a: Asset) {
    && (cl.batch.None? <==> cl.reservedAt.None?)
    && (cl.batch.None? ==> cl.reservedWire.None?)
    && (cl.batch.Some? ==> a.kind.Ant?)
    && cl.reservedTxid == cl.reservedWire
    && (match cl.reservedWire
        case None => cl.reservedLastValid.None?
        case Some(w) => cl.reservedLastValid == Some(w.lastValid) && OwnTx(c, cl, a, w))
  }

  /** The recorded signatures: the current one is the last, and each re-sign added one. */
  predicate SignaturesOk(c: ClaimId, cl: Claim, a: Asset) {
    && |cl.txSigs| == cl.resign + Held(cl)
    && cl.resign <= MAX_RESIGN_ATTEMPTS
    && (cl.sig.Some? ==> cl.txSigs[|cl.txSigs| - 1] == cl.sig.value && cl.lastValid == Some(cl.sig.value.lastValid))
    && (forall i :: 0 <= i < |cl.txSigs| ==> OwnTx(c, cl, a, cl.txSigs[i]))
    && (cl.settlement.Some? ==> cl.settlement == Due(a))
    && (cl.txSigs != [] ==> cl.settlement == Due(a))
  }

  /** Nothing but the current signature can still succeed, and after the end not even that one. */
  predicate OldSignaturesSpent(ch: ChainState, cl: Claim) {
    && (forall i :: 0 <= i < |cl.txSigs| - Held(cl) ==> Spent(ch, cl.txSigs[i]))
    && (Ended(cl) && cl.sig.Some? ==> Landed(ch, cl.sig.value) || Spent(ch, cl.sig.value))
  }

  predicate StatusOk(cl: Claim, a: Asset) {
    && (!Won(cl) ==> Untouched(cl))
    && (Won(cl) ==> Live(a) && (cl.status.Confirmed? <==> a.status.Claimed?))
    && (Waiting(cl) || cl.status.AwaitingManualVault? ==> cl.sig.None?)
    && (cl.status.Dispatching? || cl.status.Confirmed? || cl.status.NeedsOperator? ==> cl.sig.Some?)
  }

  predicate ClaimOk(cfg: Config, ch: ChainState, c: ClaimId, cl: Claim, a: Asset) {
    && StatusOk(cl, a)
    && SignaturesOk(c, cl, a)
    && ReservationOk(c, cl, a)
    && (Good(cfg) ==> OldSignaturesSpent(ch, cl))
    && (cfg.endpoint.Consistent? && cl.status.Confirmed? ==> cl.sig.value in ch.ok)
  }

  // ---------------------------------------------------------------------------
  // One dispatcher
  // ---------------------------------------------------------------------------

  predicate PurposeOk(cl: Claim, p: Purpose) {
    && cl.status.Dispatching?
    && cl.sig == Some(p.sig)
    && p.lastValid == p.sig.lastValid
    && (p.Recovery? ==> p.known == [p.sig] + cl.txSigs && p.resign == cl.resign
                        && (p.origin.Worker? ==> cl.batch.None?))
  }

  predicate AnswerOk(cfg: Config, ch: ChainState, t: Tx, answer: ConfirmState) {
    && (Good(cfg) ==>
          match answer
          case Expired => Landed(ch, t) || Spent(ch, t)
          case _ => Landed(ch, t))
    && (cfg.endpoint.Consistent? ==>
          && (answer.Confirmed? ==> t in ch.ok)
          && (answer.Expired? ==> Spent(ch, t)))
  }

  predicate ThreadOk(cfg: Config, ch: ChainState, c: ClaimId, cl: Claim, a: Asset, pc: Pc) {
    && Won(cl)
    && match pc
       case Fresh => Waiting(cl)
       case GotClaim(_, claimant) => Waiting(cl) && claimant == cl.claimant
       case Funding(row, _, claimant, _, _) =>
         Waiting(cl) && claimant == cl.claimant && !a.kind.Ant? && row.kind == a.kind && row.amount == a.amount
       case Signing(effect, settlement) => Waiting(cl) && Delivers(a, cl.claimant, effect) && settlement == Due(a)
       case Persisting(tx, lastValid, settlement) => OwnTx(c, cl, a, tx) && lastValid == tx.lastValid && settlement == Due(a)
       case Broadcasting(tx, lastValid) => PurposeOk(cl, Inline(tx, lastValid))
       case Confirming(p) => PurposeOk(cl, p)
       case Sampled(p, height) => PurposeOk(cl, p) && (Good(cfg) ==> height <= ch.height)
       case Answered(p, answer) => PurposeOk(cl, p) && AnswerOk(cfg, ch, p.sig, answer)
       case Scanned(origin, sig, resign, hit) =>
         && cl.status.Dispatching? && cl.sig == Some(sig) && resign == cl.resign
         && (origin.Worker? ==> cl.batch.None?)
         && (hit.Some? ==> hit.value in cl.txSigs)
         && (Good(cfg) ==> if hit.Some? then hit.value in ch.ok else Spent(ch, sig))
       case Submitting(tx, lastValid) => a.kind.Ant? && OwnTx(c, cl, a, tx) && lastValid == tx.lastValid
       case Reloading => true
       case Reviewing => Waiting(cl)
       case Queueing => Waiting(cl)
       case Failing => Waiting(cl)
  }

  // ---------------------------------------------------------------------------
  // All of them
  // ---------------------------------------------------------------------------

  ghost predicate References(s: State) {
    && (forall c :: c in s.db.claims ==> s.db.claims[c].asset in s.db.assets)
    && s.threads.Keys <= s.db.claims.Keys
  }

  function AssetOf(s: State, c: ClaimId): Asset
    requires c in s.db.claims && s.db.claims[c].asset in s.db.assets
  {
    s.db.assets[s.db.claims[c].asset]
  }

  ghost predicate ClaimIn(cfg: Config, s: State, c: ClaimId)
    requires References(s) && c in s.db.claims
  {
    ClaimOk(cfg, s.chain, c, s.db.claims[c], AssetOf(s, c))
  }

  ghost predicate ThreadIn(cfg: Config, s: State, c: ClaimId)
    requires References(s) && c in s.threads
  {
    ThreadOk(cfg, s.chain, c, s.db.claims[c], AssetOf(s, c), s.threads[c])
  }

  ghost predicate ClaimsOk(cfg: Config, s: State)
    requires References(s)
  {
    forall c {:trigger ClaimIn(cfg, s, c)} :: c in s.db.claims ==> ClaimIn(cfg, s, c)
  }

  ghost predicate ThreadsOk(cfg: Config, s: State)
    requires References(s)
  {
    forall c {:trigger ThreadIn(cfg, s, c)} :: c in s.threads ==> ThreadIn(cfg, s, c)
  }

  /** The winner of an asset is its one claim past completion; only live assets have one. */
  ghost predicate WinnersOk(s: State)
    requires References(s)
  {
    && (forall c :: c in s.db.claims && Won(s.db.claims[c]) ==>
          s.db.claims[c].asset in s.winner && s.winner[s.db.claims[c].asset] == c)
    && (forall k :: k in s.winner ==>
          && k in s.db.assets && Live(s.db.assets[k])
          && s.winner[k] in s.db.claims && s.db.claims[s.winner[k]].asset == k && Won(s.db.claims[s.winner[k]]))
    && (forall k :: k in s.db.assets ==> ShapeOk(s.db.assets[k]) && (Live(s.db.assets[k]) ==> k in s.winner))
  }

  /** Whatever was sent had its signature recorded first. */
  ghost predicate SentOk(s: State) {
    && WellFormed(s.chain)
    && forall t :: t in s.chain.sent ==>
         t.memo.Some? && t.memo.value in s.db.claims && t in s.db.claims[t.memo.value].txSigs
  }

  /** One dispatcher at most works on the hot account. */
  ghost predicate HotSingle(s: State) {
    forall c, d :: c in s.threads && d in s.threads && Hot(s.db, c) && Hot(s.db, d) ==> c == d
  }

  ghost predicate Inv(cfg: Config, s: State) {
    && References(s)
    && ClaimsOk(cfg, s)
    && ThreadsOk(cfg, s)
    && WinnersOk(s)
    && SentOk(s)
    && HotSingle(s)
  }

  lemma InitialInv(cfg: Config, s: State)
    requires Initial(s)
    ensures Inv(cfg, s)
  {
  }

  // ---------------------------------------------------------------------------
  // Frames
  // ---------------------------------------------------------------------------

  /** Same identity and value; only the status may differ. */
  predicate SameGoods(a: Asset, b: Asset) {
    b == a.(status := b.status)
  }

  /** The step concerns claim c, its asset and its dispatcher, and nothing else. */
  ghost predicate Touches(s: State, s': State, c: ClaimId)
    requires References(s) && c in s.db.claims
  {
    var k := s.db.claims[c].asset;
    && s'.db.claims.Keys == s.db.claims.Keys
    && (forall d :: d in s.db.claims && d != c ==> s'.db.claims[d] == s.db.claims[d])
    && s'.db.claims[c].asset == k && s'.db.claims[c].claimant == s.db.claims[c].claimant
    && s'.db.assets.Keys == s.db.assets.Keys
    && (forall l :: l in s.db.assets && l != k ==> s'.db.assets[l] == s.db.assets[l])
    && SameGoods(s.db.assets[k], s'.db.assets[k])
    && s'.threads.Keys - {c} == s.threads.Keys - {c}
    && (forall d :: d in s.threads && d != c ==> d in s'.threads && s'.threads[d] == s.threads[d])
    && s'.chain == s.chain
    && s'.winner == s.winner
  }

  /** What has to be shown about claim c itself. */
  ghost predicate Again(cfg: Config, s: State, s': State, c: ClaimId)
    requires References(s) && c in s.db.claims && Touches(s, s', c)
  {
    var k := s.db.claims[c].asset;
    && Won(s.db.claims[c]) && Won(s'.db.claims[c])
    && ClaimOk(cfg, s.chain, c, s'.db.claims[c], s'.db.assets[k])
    && (c in s'.threads ==> ThreadOk(cfg, s.chain, c, s'.db.claims[c], s'.db.assets[k], s'.threads[c]))
    && (c in s'.threads && c !in s.threads && Hot(s.db, c) ==> HotFree(s, c))
    && s.db.claims[c].txSigs <= s'.db.claims[c].txSigs
  }

  /** Only claim c needs to be looked at again, when it was and stays past completion. */
  lemma TouchKeepsInv(cfg: Config, s: State, s': State, c: ClaimId)
    requires Inv(cfg, s) && c in s.db.claims && Touches(s, s', c) && Again(cfg, s, s', c)
    ensures Inv(cfg, s')
  {
    TouchKeepsReferences(s, s', c);
    TouchKeepsClaims(cfg, s, s', c);
    TouchKeepsThreads(cfg, s, s', c);
    TouchKeepsWinners(cfg, s, s', c);
    TouchKeepsSent(cfg, s, s', c);
    TouchKeepsHot(cfg, s, s', c);
  }

  lemma TouchKeepsReferences(s: State, s': State, c: ClaimId)
    requires References(s) && c in s.db.claims && Touches(s, s', c)
    ensures References(s')
  {
    forall d | d in s'.threads ensures d in s'.db.claims {
      assert d != c ==> d in s'.threads.Keys - {c};
    }
  }

  lemma TouchKeepsClaims(cfg: Config, s: State, s': State, c: ClaimId)
    requires References(s) && References(s') && ClaimsOk(cfg, s) && WinnersOk(s)
    requires c in s.db.claims && Touches(s, s', c) && Again(cfg, s, s', c)
    ensures ClaimsOk(cfg, s')
  {
    forall d | d in s'.db.claims
      ensures ClaimIn(cfg, s', d)
    {
      if d != c {
        assert ClaimIn(cfg, s, d);
        OtherClaimKeeps(cfg, s, s', c, d);
      }
    }
  }

  lemma OtherClaimKeeps(cfg: Config, s: State, s': State, c: ClaimId, d: ClaimId)
    requires References(s) && References(s') && WinnersOk(s)
    requires c in s.db.claims && d in s.db.claims && d != c
    requires Touches(s, s', c) && Won(s.db.claims[c])
    requires ClaimIn(cfg, s, d)
    ensures ClaimIn(cfg, s', d)
  {
    if s.db.claims[d].asset == s.db.claims[c].asset {
      assert !Won(s.db.claims[d]);
      UnwonIgnoresAsset(cfg, s.chain, d, s.db.claims[d], AssetOf(s, d), AssetOf(s', d));
    }
  }

  lemma TouchKeepsThreads(cfg: Config, s: State, s': State, c: ClaimId)
    requires References(s) && References(s') && ThreadsOk(cfg, s) && WinnersOk(s)
    requires c in s.db.claims && Touches(s, s', c) && Again(cfg, s, s', c)
    ensures ThreadsOk(cfg, s')
  {
    forall d | d in s'.threads
      ensures ThreadIn(cfg, s', d)
    {
      if d != c {
        assert d in s'.threads.Keys - {c};
        assert ThreadIn(cfg, s, d);
        assert s.db.claims[d].asset != s.db.claims[c].asset;
      }
    }
  }

  lemma TouchKeepsWinners(cfg: Config, s: State, s': State, c: ClaimId)
    requires References(s) && References(s') && WinnersOk(s)
    requires c in s.db.claims && Touches(s, s', c) && Again(cfg, s, s', c)
    ensures WinnersOk(s')
  {
    assert StatusOk(s'.db.claims[c], s'.db.assets[s.db.claims[c].asset]);
  }

  lemma TouchKeepsSent(cfg: Config, s: State, s': State, c: ClaimId)
    requires References(s) && SentOk(s)
    requires c in s.db.claims && Touches(s, s', c) && Again(cfg, s, s', c)
    ensures SentOk(s')
  {
    forall t | t in s'.chain.sent
      ensures t.memo.Some? && t.memo.value in s'.db.claims && t in s'.db.claims[t.memo.value].txSigs
    {
      if t.memo.value == c {
        var i :| 0 <= i < |s.db.claims[c].txSigs| && s.db.claims[c].txSigs[i] == t;
        assert s'.db.claims[c].txSigs[i] == t;
      }
    }
  }

  lemma TouchKeepsHot(cfg: Config, s: State, s': State, c: ClaimId)
    requires References(s) && HotSingle(s)
    requires c in s.db.claims && Touches(s, s', c) && Again(cfg, s, s', c)
    ensures HotSingle(s')
  {
    forall d, e | d in s'.threads && e in s'.threads && Hot(s'.db, d) && Hot(s'.db, e) ensures d == e {
      assert d != c ==> d in s'.threads.Keys - {c};
      assert e != c ==> e in s'.threads.Keys - {c};
      assert Hot(s.db, d) && Hot(s.db, e);
    }
  }

  lemma UnwonIgnoresAsset(cfg: Config, ch: ChainState, c: ClaimId, cl: Claim, a: Asset, b: Asset)
    requires ClaimOk(cfg, ch, c, cl, a) && !Won(cl)
    ensures ClaimOk(cfg, ch, c, cl, b)
  {
  }

  /** Nothing a claim or dispatcher relies on is undone by the chain moving on. */
  lemma ChainKeepsClaim(cfg: Config, ch: ChainState, ch': ChainState, c: ClaimId, cl: Claim, a: Asset)
    requires Later(ch, ch') && ClaimOk(cfg, ch, c, cl, a)
    ensures ClaimOk(cfg, ch', c, cl, a)
  {
  }

  lemma ChainKeepsThread(cfg: Config, ch: ChainState, ch': ChainState, c: ClaimId, cl: Claim, a: Asset, pc: Pc)
    requires Later(ch, ch') && ThreadOk(cfg, ch, c, cl, a, pc)
    ensures ThreadOk(cfg, ch', c, cl, a, pc)
  {
  }
}
