/**
 Every step of the protocol keeps the global invariant.
 */
module Preservation {
  import opened Prelude
  import opened Chain
  import opened Rows
  import opened DispatchCore
  import opened Service
  import opened AntOperator
  import opened LedgerUpsert
  import opened Protocol
  import opened Invariant

  // ---------------------------------------------------------------------------
  // Chain steps
  // ---------------------------------------------------------------------------

  /** The chain moves on; whatever it newly carries has a recorded signature. */
  lemma ChainKeepsInv(cfg: Config, s: State, ch: ChainState)
    requires Inv(cfg, s) && Later(s.chain, ch)
    requires SentOk(s.(chain := ch))
    ensures Inv(cfg, s.(chain := ch))
  {
    forall c | c in s.db.claims
      ensures ClaimIn(cfg, s.(chain := ch), c)
    {
      assert ClaimIn(cfg, s, c);
      ChainKeepsClaim(cfg, s.chain, ch, c, s.db.claims[c], AssetOf(s, c));
    }
    forall c | c in s.threads
      ensures ThreadIn(cfg, s.(chain := ch), c)
    {
      assert ThreadIn(cfg, s, c);
      ChainKeepsThread(cfg, s.chain, ch, c, s.db.claims[c], AssetOf(s, c), s.threads[c]);
    }
  }

  lemma ChainEventKeepsInv(cfg: Config, s: State, e: ChainEvent)
    requires Inv(cfg, s) && Can(s.chain, e) && !e.Send?
    ensures Inv(cfg, s.(chain := After(s.chain, e)))
  {
    TickIsMonotone(s.chain, After(s.chain, e));
    ChainKeepsInv(cfg, s, After(s.chain, e));
  }

  // ---------------------------------------------------------------------------
  // Row updates outside a dispatch: waiting claims and claims that never won
  // ---------------------------------------------------------------------------

  /** A waiting claim stays waiting; only approval and reservation columns move. */
  predicate Minor(cl: Claim, cl': Claim) {
    && Waiting(cl) && Waiting(cl')
    && cl' == cl.(status := cl'.status, approved := cl'.approved, batch := cl'.batch, reservedAt := cl'.reservedAt,
                  reservedTxid := cl'.reservedTxid, reservedLastValid := cl'.reservedLastValid,
                  reservedWire := cl'.reservedWire)
  }

  /** An open challenge ends without winning anything. */
  predicate Dropped(cl: Claim, cl': Claim) {
    cl.status.Claiming? && !Won(cl') && cl' == cl.(status := cl'.status)
  }

  ghost predicate RowsMove(cfg: Config, s: State, claims: map<ClaimId, Claim>)
    requires References(s)
  {
    && claims.Keys == s.db.claims.Keys
    && forall c :: c in claims ==>
         || claims[c] == s.db.claims[c]
         || Dropped(s.db.claims[c], claims[c])
         || (Minor(s.db.claims[c], claims[c]) && ReservationOk(c, claims[c], AssetOf(s, c)))
  }

  lemma MinorKeepsClaim(cfg: Config, ch: ChainState, c: ClaimId, cl: Claim, cl': Claim, a: Asset)
    requires ClaimOk(cfg, ch, c, cl, a) && Minor(cl, cl') && ReservationOk(c, cl', a)
    ensures ClaimOk(cfg, ch, c, cl', a)
  {
  }

  lemma MinorKeepsThread(cfg: Config, ch: ChainState, c: ClaimId, cl: Claim, cl': Claim, a: Asset, pc: Pc)
    requires ThreadOk(cfg, ch, c, cl, a, pc) && Minor(cl, cl')
    ensures ThreadOk(cfg, ch, c, cl', a, pc)
  {
  }

  lemma RowKeepsClaim(cfg: Config, s: State, claims: map<ClaimId, Claim>, c: ClaimId)
    requires References(s) && RowsMove(cfg, s, claims) && c in claims
    requires ClaimOk(cfg, s.chain, c, s.db.claims[c], AssetOf(s, c))
    ensures ClaimOk(cfg, s.chain, c, claims[c], AssetOf(s, c))
  {
    if claims[c] != s.db.claims[c] && !Dropped(s.db.claims[c], claims[c]) {
      MinorKeepsClaim(cfg, s.chain, c, s.db.claims[c], claims[c], AssetOf(s, c));
    }
  }

  lemma RowKeepsThread(cfg: Config, s: State, claims: map<ClaimId, Claim>, c: ClaimId)
    requires References(s) && RowsMove(cfg, s, claims) && c in claims && c in s.threads
    requires ThreadOk(cfg, s.chain, c, s.db.claims[c], AssetOf(s, c), s.threads[c])
    ensures ThreadOk(cfg, s.chain, c, claims[c], AssetOf(s, c), s.threads[c])
  {
    if claims[c] != s.db.claims[c] {
      assert !Dropped(s.db.claims[c], claims[c]);
      MinorKeepsThread(cfg, s.chain, c, s.db.claims[c], claims[c], AssetOf(s, c), s.threads[c]);
    }
  }

  lemma RowsKeepInv(cfg: Config, s: State, s': State)
    requires Inv(cfg, s) && RowsMove(cfg, s, s'.db.claims)
    requires s'.db.assets == s.db.assets && s'.chain == s.chain && s'.threads == s.threads && s'.winner == s.winner
    ensures Inv(cfg, s')
  {
    forall c | c in s'.db.claims
      ensures ClaimIn(cfg, s', c)
    {
      assert ClaimIn(cfg, s, c);
      RowKeepsClaim(cfg, s, s'.db.claims, c);
    }
    RowsKeepThreads(cfg, s, s');
    RowsKeepRest(cfg, s, s');
  }

  lemma RowsKeepThreads(cfg: Config, s: State, s': State)
    requires References(s) && ThreadsOk(cfg, s) && RowsMove(cfg, s, s'.db.claims)
    requires s'.db.assets == s.db.assets && s'.chain == s.chain && s'.threads == s.threads
    ensures References(s') && ThreadsOk(cfg, s')
  {
    forall c | c in s'.threads
      ensures ThreadIn(cfg, s', c)
    {
      assert ThreadIn(cfg, s, c);
      RowKeepsThread(cfg, s, s'.db.claims, c);
    }
  }

  /** The columns the winner table and the sent transactions speak of do not move. */
  lemma RowsKeepColumns(cfg: Config, s: State, claims: map<ClaimId, Claim>)
    requires References(s) && RowsMove(cfg, s, claims)
    ensures forall c :: c in s.db.claims ==>
              claims[c].asset == s.db.claims[c].asset && claims[c].txSigs == s.db.claims[c].txSigs
              && (Won(claims[c]) <==> Won(s.db.claims[c]))
  {
    forall c | c in s.db.claims
      ensures claims[c].asset == s.db.claims[c].asset && claims[c].txSigs == s.db.claims[c].txSigs
              && (Won(claims[c]) <==> Won(s.db.claims[c]))
    {
      assert c in claims;
    }
  }

  lemma RowsKeepRest(cfg: Config, s: State, s': State)
    requires References(s) && WinnersOk(s) && SentOk(s) && HotSingle(s) && RowsMove(cfg, s, s'.db.claims)
    requires s'.db.assets == s.db.assets && s'.chain == s.chain && s'.threads == s.threads && s'.winner == s.winner
    requires References(s')
    ensures WinnersOk(s') && SentOk(s') && HotSingle(s')
  {
    RowsKeepColumns(cfg, s, s'.db.claims);
    SameColumns(s, s');
  }

  lemma SameColumns(s: State, s': State)
    requires References(s) && References(s') && WinnersOk(s) && SentOk(s) && HotSingle(s)
    requires s'.db.claims.Keys == s.db.claims.Keys
    requires forall c :: c in s.db.claims ==>
               s'.db.claims[c].asset == s.db.claims[c].asset && s'.db.claims[c].txSigs == s.db.claims[c].txSigs
               && (Won(s'.db.claims[c]) <==> Won(s.db.claims[c]))
    requires s'.db.assets == s.db.assets && s'.chain == s.chain && s'.threads == s.threads && s'.winner == s.winner
    ensures WinnersOk(s') && SentOk(s') && HotSingle(s')
  {
    forall c, d | c in s'.threads && d in s'.threads && Hot(s'.db, c) && Hot(s'.db, d) ensures c == d {
      assert Hot(s.db, c) && Hot(s.db, d);
    }
  }

  lemma ApproveKeepsInv(cfg: Config, s: State, c: ClaimId)
    requires Inv(cfg, s)
    ensures Inv(cfg, ApproveNext(s, c).value)
  {
    if Approve(s.db, c).1 {
      assert ClaimIn(cfg, s, c);
      assert Minor(s.db.claims[c], s.db.claims[c].(approved := true));
    }
    RowsKeepInv(cfg, s, ApproveNext(s, c).value);
  }

  lemma ReapKeepsInv(cfg: Config, s: State, rows: seq<ClaimId>, now: nat)
    requires Inv(cfg, s) && ReapNext(s, rows, now).Some?
    ensures Inv(cfg, ReapNext(s, rows, now).value)
  {
    var claims := Reap(s.db, rows).claims;
    forall c | c in claims && claims[c] != s.db.claims[c] ensures Dropped(s.db.claims[c], claims[c]) {
      var i :| 0 <= i < |rows| && rows[i] == c;
    }
    RowsKeepInv(cfg, s, ReapNext(s, rows, now).value);
  }

  lemma ReserveKeepsInv(cfg: Config, s: State, b: BatchId, rows: seq<ClaimId>, at: nat)
    requires Inv(cfg, s) && ReserveNext(cfg, s, b, rows, at).Some?
    ensures Inv(cfg, ReserveNext(cfg, s, b, rows, at).value)
  {
    var claims := Reserve(s.db, b, rows, at).claims;
    forall c | c in claims && claims[c] != s.db.claims[c]
      ensures Minor(s.db.claims[c], claims[c]) && ReservationOk(c, claims[c], AssetOf(s, c))
    {
      assert Reservable(s.db, c, cfg.batchNeedsApproval);
      assert ClaimIn(cfg, s, c);
    }
    RowsKeepInv(cfg, s, ReserveNext(cfg, s, b, rows, at).value);
  }

  lemma BuildKeepsInv(cfg: Config, s: State, b: BatchId, blockhash: nat, lastValid: nat)
    requires Inv(cfg, s)
    ensures Inv(cfg, BuildNext(s, b, blockhash, lastValid).value)
  {
    var claims := Build(s.db, b, blockhash, lastValid).claims;
    forall c | c in claims && claims[c] != s.db.claims[c]
      ensures Minor(s.db.claims[c], claims[c]) && ReservationOk(c, claims[c], AssetOf(s, c))
    {
      assert CanBuild(s.db, c, b);
      assert ClaimIn(cfg, s, c);
    }
    RowsKeepInv(cfg, s, BuildNext(s, b, blockhash, lastValid).value);
  }

  lemma CancelKeepsInv(cfg: Config, s: State, b: BatchId)
    requires Inv(cfg, s)
    ensures Inv(cfg, CancelNext(s, b).value)
  {
    var claims := Cancel(s.db, b).claims;
    forall c | c in claims && claims[c] != s.db.claims[c]
      ensures Minor(s.db.claims[c], claims[c]) && ReservationOk(c, claims[c], AssetOf(s, c))
    {
      assert ClaimIn(cfg, s, c);
    }
    RowsKeepInv(cfg, s, CancelNext(s, b).value);
  }

  lemma ExpireKeepsInv(cfg: Config, s: State, cutoff: nat)
    requires Inv(cfg, s)
    ensures Inv(cfg, ExpireNext(s, cutoff).value)
  {
    var claims := ExpireStale(s.db, cutoff).claims;
    forall c | c in claims && claims[c] != s.db.claims[c]
      ensures Minor(s.db.claims[c], claims[c]) && ReservationOk(c, claims[c], AssetOf(s, c))
    {
      assert ClaimIn(cfg, s, c);
    }
    RowsKeepInv(cfg, s, ExpireNext(s, cutoff).value);
  }

  // ---------------------------------------------------------------------------
  // Dispatcher steps that only read
  // ---------------------------------------------------------------------------

  lemma ThreadMoves(cfg: Config, s: State, c: ClaimId, pc: Pc)
    requires Inv(cfg, s) && c in s.db.claims
    requires c in s.threads || (Hot(s.db, c) ==> HotFree(s, c))
    requires ThreadOk(cfg, s.chain, c, s.db.claims[c], AssetOf(s, c), pc)
    ensures Inv(cfg, At(s, c, pc))
  {
    assert ClaimIn(cfg, s, c);
    TouchKeepsInv(cfg, s, At(s, c, pc), c);
  }

  lemma ThreadEnds(cfg: Config, s: State, c: ClaimId)
    requires Inv(cfg, s) && c in s.threads
    ensures Inv(cfg, Done(s, c))
  {
    assert ThreadIn(cfg, s, c) && ClaimIn(cfg, s, c);
    TouchKeepsInv(cfg, s, Done(s, c), c);
  }

  /** A write to the claim row and its asset's status, after which the dispatcher is at pc or gone. */
  lemma Writes(cfg: Config, s: State, s': State, c: ClaimId, cl': Claim, a': Asset, pc: Option<Pc>)
    requires Inv(cfg, s) && c in s.threads && Won(s.db.claims[c])
    requires s'.db.claims == s.db.claims[c := cl']
    requires s'.db.assets == s.db.assets[s.db.claims[c].asset := a']
    requires s'.threads == if pc.Some? then s.threads[c := pc.value] else s.threads - {c}
    requires s'.chain == s.chain && s'.winner == s.winner
    requires cl'.asset == s.db.claims[c].asset && cl'.claimant == s.db.claims[c].claimant
    requires s.db.claims[c].txSigs <= cl'.txSigs
    requires SameGoods(AssetOf(s, c), a') && Won(cl')
    requires ClaimOk(cfg, s.chain, c, cl', a')
    requires pc.Some? ==> ThreadOk(cfg, s.chain, c, cl', a', pc.value)
    ensures Inv(cfg, s')
  {
    WritesTouch(s, s', c, cl', a', pc);
    TouchKeepsInv(cfg, s, s', c);
  }

  lemma WritesTouch(s: State, s': State, c: ClaimId, cl': Claim, a': Asset, pc: Option<Pc>)
    requires References(s) && c in s.threads
    requires s'.db.claims == s.db.claims[c := cl']
    requires s'.db.assets == s.db.assets[s.db.claims[c].asset := a']
    requires s'.threads == if pc.Some? then s.threads[c := pc.value] else s.threads - {c}
    requires s'.chain == s.chain && s'.winner == s.winner
    requires cl'.asset == s.db.claims[c].asset && cl'.claimant == s.db.claims[c].claimant
    requires SameGoods(AssetOf(s, c), a')
    ensures Touches(s, s', c)
  {
    forall d | d != c ensures d in s.threads <==> d in s'.threads {
    }
  }

  lemma StartWorkerKeepsInv(cfg: Config, s: State, c: ClaimId)
    requires Inv(cfg, s) && StartWorkerNext(s, c).Some?
    ensures Inv(cfg, StartWorkerNext(s, c).value)
  {
    assert ClaimIn(cfg, s, c);
    ThreadMoves(cfg, s, c, StartWorkerNext(s, c).value.threads[c]);
  }

  lemma StartSubmitKeepsInv(cfg: Config, s: State, c: ClaimId, b: BatchId, txid: Tx, authorityOver: Tx)
    requires Inv(cfg, s) && StartSubmitNext(s, c, b, txid, authorityOver).Some?
    ensures Inv(cfg, StartSubmitNext(s, c, b, txid, authorityOver).value)
  {
    assert ClaimIn(cfg, s, c);
    ThreadMoves(cfg, s, c, StartSubmitNext(s, c, b, txid, authorityOver).value.threads[c]);
  }

  lemma LoadClaimKeepsInv(cfg: Config, s: State, c: ClaimId)
    requires Inv(cfg, s) && LoadClaimNext(s, c).Some?
    ensures Inv(cfg, LoadClaimNext(s, c).value)
  {
    assert ThreadIn(cfg, s, c);
    ThreadMoves(cfg, s, c, LoadClaimNext(s, c).value.threads[c]);
  }

  lemma LoadAssetKeepsInv(cfg: Config, s: State, c: ClaimId, signer: AntSigner)
    requires Inv(cfg, s) && LoadAssetNext(cfg, s, c, signer).Some?
    ensures Inv(cfg, LoadAssetNext(cfg, s, c, signer).value)
  {
    assert ThreadIn(cfg, s, c);
    var s' := LoadAssetNext(cfg, s, c, signer).value;
    if c in s'.threads {
      ThreadMoves(cfg, s, c, s'.threads[c]);
    } else {
      ThreadEnds(cfg, s, c);
    }
  }

  lemma FundingReadKeepsInv(cfg: Config, s: State, c: ClaimId, pc: Pc)
    requires Inv(cfg, s) && c in s.threads && s.threads[c].Funding? && pc.Funding?
    requires pc == s.threads[c].(balance := pc.balance, reserved := pc.reserved)
    ensures Inv(cfg, At(s, c, pc))
  {
    assert ThreadIn(cfg, s, c);
    ThreadMoves(cfg, s, c, pc);
  }

  lemma CheckFundsMoves(cfg: Config, s: State, c: ClaimId, now: int, s': State)
    requires References(s) && CheckFundsNext(cfg, s, c, now) == Some(s') && ThreadIn(cfg, s, c)
    ensures if c in s'.threads
            then s' == At(s, c, s'.threads[c]) && ThreadOk(cfg, s.chain, c, s.db.claims[c], AssetOf(s, c), s'.threads[c])
            else s' == Done(s, c)
  {
  }

  lemma CheckFundsKeepsInv(cfg: Config, s: State, c: ClaimId, now: int)
    requires Inv(cfg, s) && CheckFundsNext(cfg, s, c, now).Some?
    ensures Inv(cfg, CheckFundsNext(cfg, s, c, now).value)
  {
    assert ThreadIn(cfg, s, c);
    var s' := CheckFundsNext(cfg, s, c, now).value;
    CheckFundsMoves(cfg, s, c, now, s');
    if c in s'.threads {
      ThreadMoves(cfg, s, c, s'.threads[c]);
    } else {
      ThreadEnds(cfg, s, c);
    }
  }

  lemma SignKeepsInv(cfg: Config, s: State, c: ClaimId, blockhash: nat, lastValid: nat)
    requires Inv(cfg, s) && SignNext(s, c, blockhash, lastValid).Some?
    ensures Inv(cfg, SignNext(s, c, blockhash, lastValid).value)
  {
    assert ThreadIn(cfg, s, c);
    ThreadMoves(cfg, s, c, SignNext(s, c, blockhash, lastValid).value.threads[c]);
  }

  lemma SampleKeepsInv(cfg: Config, s: State, c: ClaimId, height: nat)
    requires Inv(cfg, s) && SampleNext(cfg, s, c, height).Some?
    ensures Inv(cfg, SampleNext(cfg, s, c, height).value)
  {
    assert ThreadIn(cfg, s, c);
    ThreadMoves(cfg, s, c, SampleNext(cfg, s, c, height).value.threads[c]);
  }

  /** What an answer means: the height was sampled first, so expired really is the end. */
  lemma AnswerMeans(cfg: Config, ch: ChainState, t: Tx, height: nat, st: SigStatus)
    requires WellFormed(ch) && StatusAnswer(cfg, ch, height, t, st) && (Good(cfg) ==> height <= ch.height)
    requires Classify(height, t.lastValid, st) != Pending
    ensures AnswerOk(cfg, ch, t, Classify(height, t.lastValid, st))
  {
  }

  lemma StatusKeepsInv(cfg: Config, s: State, c: ClaimId, st: SigStatus, again: bool)
    requires Inv(cfg, s) && StatusNext(cfg, s, c, st, again).Some?
    ensures Inv(cfg, StatusNext(cfg, s, c, st, again).value)
  {
    assert ThreadIn(cfg, s, c);
    var s' := StatusNext(cfg, s, c, st, again).value;
    var Sampled(p, height) := s.threads[c];
    if c in s'.threads {
      if s'.threads[c].Answered? {
        AnswerMeans(cfg, s.chain, p.sig, height, st);
      }
      ThreadMoves(cfg, s, c, s'.threads[c]);
    } else {
      ThreadEnds(cfg, s, c);
    }
  }

  /** The scan's known signatures are the recorded ones, the current one among them. */
  lemma KnownIsRecorded(c: ClaimId, cl: Claim, a: Asset, p: Purpose)
    requires SignaturesOk(c, cl, a) && PurposeOk(cl, p) && p.Recovery?
    ensures cl.sig.value in cl.txSigs && p.known[0] == p.sig
    ensures forall t :: t in p.known <==> t in cl.txSigs
  {
    assert cl.txSigs[|cl.txSigs| - 1] == p.sig;
    assert p.known == [p.sig] + cl.txSigs;
  }

  lemma ScanKeepsInv(cfg: Config, s: State, c: ClaimId, hit: Option<Tx>)
    requires Inv(cfg, s) && ScanNext(cfg, s, c, hit).Some?
    ensures Inv(cfg, ScanNext(cfg, s, c, hit).value)
  {
    assert ClaimIn(cfg, s, c);
    assert ThreadIn(cfg, s, c);
    KnownIsRecorded(c, s.db.claims[c], AssetOf(s, c), s.threads[c].purpose);
    ThreadMoves(cfg, s, c, ScanNext(cfg, s, c, hit).value.threads[c]);
  }

  lemma OperatorLoadKeepsInv(cfg: Config, s: State, c: ClaimId)
    requires Inv(cfg, s) && OperatorLoadNext(s, c).Some?
    ensures Inv(cfg, OperatorLoadNext(s, c).value)
  {
    assert ClaimIn(cfg, s, c);
    assert ThreadIn(cfg, s, c);
    var s' := OperatorLoadNext(s, c).value;
    if c in s'.threads {
      ThreadMoves(cfg, s, c, s'.threads[c]);
    } else {
      ThreadEnds(cfg, s, c);
    }
  }

  // ---------------------------------------------------------------------------
  // Dispatcher steps that write
  // ---------------------------------------------------------------------------

  lemma PersistKeepsInv(cfg: Config, s: State, c: ClaimId)
    requires Inv(cfg, s) && PersistNext(s, c).Some?
    ensures Inv(cfg, PersistNext(s, c).value)
  {
    assert ClaimIn(cfg, s, c);
    assert ThreadIn(cfg, s, c);
    var s' := PersistNext(s, c).value;
    if c in s'.threads {
      PersistedClaim(cfg, s.chain, c, s.db.claims[c], s'.db.claims[c], AssetOf(s, c), AssetOf(s', c), s.threads[c]);
      Writes(cfg, s, s', c, s'.db.claims[c], AssetOf(s', c), Some(s'.threads[c]));
    } else {
      ThreadEnds(cfg, s, c);
    }
  }

  lemma PersistedClaim(cfg: Config, ch: ChainState, c: ClaimId, cl: Claim, cl': Claim, a: Asset, a': Asset, pc: Pc)
    requires ClaimOk(cfg, ch, c, cl, a) && pc.Persisting? && ThreadOk(cfg, ch, c, cl, a, pc) && CanDispatch(cl)
    requires cl' == cl.(status := Dispatching, sig := Some(pc.tx), lastValid := Some(pc.lastValid),
                        settlement := pc.settlement, txSigs := cl.txSigs + [pc.tx])
    requires a' == a.(status := InClaim)
    ensures ClaimOk(cfg, ch, c, cl', a')
    ensures ThreadOk(cfg, ch, c, cl', a', Broadcasting(pc.tx, pc.lastValid))
  {
  }

  lemma BroadcastKeepsInv(cfg: Config, s: State, c: ClaimId, reaches: bool)
    requires Inv(cfg, s) && BroadcastNext(s, c, reaches).Some?
    ensures Inv(cfg, BroadcastNext(s, c, reaches).value)
  {
    assert ClaimIn(cfg, s, c);
    assert ThreadIn(cfg, s, c);
    var tx := s.threads[c].tx;
    var cl := s.db.claims[c];
    assert cl.txSigs[|cl.txSigs| - 1] == tx;
    var pc := Confirming(Inline(tx, s.threads[c].lastValid));
    ThreadMoves(cfg, s, c, pc);
    if reaches {
      var ch := After(s.chain, Send(tx));
      TickIsMonotone(s.chain, ch);
      ChainKeepsInv(cfg, At(s, c, pc), ch);
    }
  }

  /** Confirming a dispatching claim by one of its own signatures that has landed. */
  lemma FinalizeKeepsInv(cfg: Config, s: State, c: ClaimId, t: Tx)
    requires Inv(cfg, s) && c in s.threads && s.db.claims[c].status.Dispatching? && s.db.claims[c].sig.Some?
    requires t in s.db.claims[c].txSigs
    requires Good(cfg) ==> t in s.chain.ok || (t == s.db.claims[c].sig.value && Landed(s.chain, t))
    requires cfg.endpoint.Consistent? ==> t in s.chain.ok
    ensures Inv(cfg, Done(s, c).(db := Finalize(s.db, c, t)))
  {
    var s' := Done(s, c).(db := Finalize(s.db, c, t));
    assert ClaimIn(cfg, s, c);
    FinalizedClaim(cfg, s.chain, c, s.db.claims[c], s'.db.claims[c], AssetOf(s, c), AssetOf(s', c), t);
    Writes(cfg, s, s', c, s'.db.claims[c], AssetOf(s', c), None);
  }

  lemma FinalizedClaim(cfg: Config, ch: ChainState, c: ClaimId, cl: Claim, cl': Claim, a: Asset, a': Asset, t: Tx)
    requires ClaimOk(cfg, ch, c, cl, a) && cl.status.Dispatching? && t in cl.txSigs
    requires Good(cfg) ==> t in ch.ok || (t == cl.sig.value && Landed(ch, t))
    requires cfg.endpoint.Consistent? ==> t in ch.ok
    requires cl' == cl.(status := ClaimStatus.Confirmed) && a' == a.(status := Claimed)
    ensures ClaimOk(cfg, ch, c, cl', a')
  {
    var i :| 0 <= i < |cl.txSigs| && cl.txSigs[i] == t;
    if Good(cfg) && t in ch.ok {
      assert !Spent(ch, t);
      assert i == |cl.txSigs| - 1;
    }
  }

  /** Marking a claim failed or frozen, when its current signature can no longer succeed. */
  lemma EndKeepsInv(cfg: Config, s: State, c: ClaimId, s': State)
    requires Inv(cfg, s) && c in s.threads && Won(s.db.claims[c]) && !s.db.claims[c].status.Confirmed?
    requires c in s'.db.claims && s'.db.claims == s.db.claims[c := s.db.claims[c].(status := s'.db.claims[c].status)]
    requires (s'.db.claims[c].status.Failed? || (s'.db.claims[c].status.NeedsOperator? && s.db.claims[c].sig.Some?))
    requires s'.db.assets == s.db.assets && s'.threads == s.threads - {c}
    requires s'.chain == s.chain && s'.winner == s.winner
    requires Good(cfg) && s.db.claims[c].sig.Some? ==>
               Landed(s.chain, s.db.claims[c].sig.value) || Spent(s.chain, s.db.claims[c].sig.value)
    ensures Inv(cfg, s')
  {
    assert ClaimIn(cfg, s, c);
    assert s'.db.assets == s.db.assets[s.db.claims[c].asset := AssetOf(s, c)];
    Writes(cfg, s, s', c, s'.db.claims[c], AssetOf(s, c), None);
  }

  lemma ActKeepsInv(cfg: Config, s: State, c: ClaimId)
    requires Inv(cfg, s) && ActNext(s, c).Some?
    ensures Inv(cfg, ActNext(s, c).value)
  {
    assert ThreadIn(cfg, s, c);
    assert ClaimIn(cfg, s, c);
    var Answered(p, answer) := s.threads[c];
    var cl := s.db.claims[c];
    assert cl.txSigs[|cl.txSigs| - 1] == p.sig;
    match answer
    case Confirmed => FinalizeKeepsInv(cfg, s, c, p.sig);
    case Failed => EndKeepsInv(cfg, s, c, ActNext(s, c).value);
    case _ => ThreadEnds(cfg, s, c);
  }

  /** Dropping a signature that can no longer succeed, for a re-sign or an operator rebuild. */
  lemma DroppedSignature(cfg: Config, ch: ChainState, c: ClaimId, cl: Claim, cl': Claim, a: Asset)
    requires ClaimOk(cfg, ch, c, cl, a) && cl.status.Dispatching? && cl.resign < MAX_RESIGN_ATTEMPTS
    requires Good(cfg) ==> Spent(ch, cl.sig.value)
    requires cl' == cl.(status := RevertStatus(cl), sig := None, lastValid := None, resign := cl.resign + 1)
             || cl' == Unreserved(cl).(status := RevertStatus(cl), sig := None, lastValid := None, resign := cl.resign + 1)
    ensures ClaimOk(cfg, ch, c, cl', a)
    ensures ThreadOk(cfg, ch, c, cl', a, Fresh)
  {
  }

  /** The dead signature is dropped by the worker, which dispatches afresh, or by the operator flow. */
  lemma DropKeepsInv(cfg: Config, s: State, c: ClaimId, s': State)
    requires Inv(cfg, s) && c in s.threads && s.threads[c].Scanned? && s.threads[c].hit.None?
    requires s.threads[c].resign < MAX_RESIGN_ATTEMPTS
    requires s' == if s.threads[c].origin.Worker? then At(s, c, Fresh).(db := ClearDeadSignature(s.db, c))
                   else Done(s, c).(db := ReleaseForRebuild(s.db, c))
    ensures Inv(cfg, s')
  {
    assert ThreadIn(cfg, s, c) && ClaimIn(cfg, s, c);
    var cl' := s'.db.claims[c];
    DroppedSignature(cfg, s.chain, c, s.db.claims[c], cl', AssetOf(s, c));
    assert s'.db.assets == s.db.assets[s.db.claims[c].asset := AssetOf(s, c)];
    Writes(cfg, s, s', c, cl', AssetOf(s, c), if s.threads[c].origin.Worker? then Some(Fresh) else None);
  }

  lemma ActOnScanKeepsInv(cfg: Config, s: State, c: ClaimId)
    requires Inv(cfg, s) && ActOnScanNext(s, c).Some?
    ensures Inv(cfg, ActOnScanNext(s, c).value)
  {
    var s' := ActOnScanNext(s, c).value;
    assert ThreadIn(cfg, s, c);
    if s.threads[c].hit.Some? {
      FinalizeKeepsInv(cfg, s, c, s.threads[c].hit.value);
    } else if s.threads[c].resign >= MAX_RESIGN_ATTEMPTS {
      EndKeepsInv(cfg, s, c, s');
    } else {
      DropKeepsInv(cfg, s, c, s');
    }
  }

  lemma RouteKeepsInv(cfg: Config, s: State, c: ClaimId)
    requires Inv(cfg, s) && RouteNext(s, c).Some?
    ensures Inv(cfg, RouteNext(s, c).value)
  {
    assert ThreadIn(cfg, s, c);
    assert ClaimIn(cfg, s, c);
    var s' := RouteNext(s, c).value;
    if s.threads[c].Failing? {
      EndKeepsInv(cfg, s, c, s');
    } else {
      RoutedClaim(cfg, s.chain, c, s.db.claims[c], s'.db.claims[c], AssetOf(s, c), AssetOf(s', c));
      Writes(cfg, s, s', c, s'.db.claims[c], AssetOf(s', c), None);
    }
  }

  lemma RoutedClaim(cfg: Config, ch: ChainState, c: ClaimId, cl: Claim, cl': Claim, a: Asset, a': Asset)
    requires ClaimOk(cfg, ch, c, cl, a) && Waiting(cl)
    requires cl' == cl.(status := PendingReview) || cl' == cl.(status := AwaitingManualVault)
    requires a' == a.(status := InReview)
    ensures ClaimOk(cfg, ch, c, cl', a')
  {
  }

  // ---------------------------------------------------------------------------
  // Initiate, complete, rebuild
  // ---------------------------------------------------------------------------

  lemma InitiateKeepsInv(cfg: Config, s: State, c: ClaimId, k: AssetKey, claimant: Address, expiresAt: nat, delisted: bool)
    requires Inv(cfg, s)
    ensures Inv(cfg, InitiateNext(s, c, k, claimant, expiresAt, delisted).value)
  {
    var s' := InitiateNext(s, c, k, claimant, expiresAt, delisted).value;
    if Initiate(s.db, c, k, claimant, expiresAt, delisted).1 {
      InsertKeepsInv(cfg, s, s', c, FreshClaim(k, claimant, expiresAt));
    }
  }

  lemma InsertKeepsInv(cfg: Config, s: State, s': State, c: ClaimId, row: Claim)
    requires Inv(cfg, s) && c !in s.db.claims && row.asset in s.db.assets && !Won(row) && Untouched(row)
    requires s'.db.claims == s.db.claims[c := row] && s'.db.assets == s.db.assets
    requires s'.chain == s.chain && s'.threads == s.threads && s'.winner == s.winner
    ensures Inv(cfg, s')
  {
    forall d | d in s'.db.claims ensures ClaimIn(cfg, s', d) {
      if d != c {
        assert ClaimIn(cfg, s, d);
      }
    }
    InsertKeepsRest(cfg, s, s', c, row);
  }

  lemma InsertKeepsRest(cfg: Config, s: State, s': State, c: ClaimId, row: Claim)
    requires References(s) && ThreadsOk(cfg, s) && WinnersOk(s) && SentOk(s) && HotSingle(s)
    requires c !in s.db.claims && row.asset in s.db.assets && !Won(row) && Untouched(row)
    requires s'.db.claims == s.db.claims[c := row] && s'.db.assets == s.db.assets
    requires s'.chain == s.chain && s'.threads == s.threads && s'.winner == s.winner
    ensures References(s') && ThreadsOk(cfg, s') && WinnersOk(s') && SentOk(s') && HotSingle(s')
  {
    forall d | d in s'.threads ensures ThreadIn(cfg, s', d) && (Hot(s'.db, d) <==> Hot(s.db, d)) {
      assert ThreadIn(cfg, s, d);
    }
  }

  /** A completion that does not win leaves the claim as it was, or rejected, or expired. */
  lemma RefusalKeepsInv(cfg: Config, s: State, s': State)
    requires Inv(cfg, s)
    requires s'.db.assets == s.db.assets && s'.chain == s.chain && s'.threads == s.threads && s'.winner == s.winner
    requires s'.db.claims == s.db.claims
             || exists c :: c in s.db.claims && s.db.claims[c].status.Claiming? && c in s'.db.claims && !Won(s'.db.claims[c])
                            && s'.db.claims == s.db.claims[c := s.db.claims[c].(status := s'.db.claims[c].status)]
    ensures Inv(cfg, s')
  {
    RowsKeepInv(cfg, s, s');
  }

  /** The winning completion: the asset was available, so no other claim is past completion on it. */
  lemma WinKeepsInv(cfg: Config, s: State, s': State, c: ClaimId, review: bool)
    requires Inv(cfg, s) && c in s.db.claims && s.db.claims[c].status.Claiming?
    requires AssetOf(s, c).status.Available?
    requires s'.db == Win(s.db, c, review)
    requires s'.chain == s.chain && s'.threads == s.threads
    requires s'.winner == s.winner[s.db.claims[c].asset := c]
    ensures Inv(cfg, s')
  {
    assert ClaimIn(cfg, s, c);
    WinKeepsClaims(cfg, s, s', c, review);
    WinKeepsThreads(cfg, s, s', c, review);
    WinKeepsWinners(cfg, s, s', c, review);
  }

  lemma WinKeepsClaims(cfg: Config, s: State, s': State, c: ClaimId, review: bool)
    requires References(s) && ClaimsOk(cfg, s) && WinnersOk(s)
    requires c in s.db.claims && s.db.claims[c].status.Claiming? && AssetOf(s, c).status.Available?
    requires s'.db == Win(s.db, c, review) && s'.chain == s.chain && s'.threads == s.threads
    ensures References(s') && ClaimsOk(cfg, s')
  {
    var k := s.db.claims[c].asset;
    assert k !in s.winner;
    forall d | d in s'.db.claims ensures ClaimIn(cfg, s', d) {
      assert ClaimIn(cfg, s, d);
      if d != c && s.db.claims[d].asset == k {
        UnwonIgnoresAsset(cfg, s.chain, d, s.db.claims[d], AssetOf(s, d), AssetOf(s', d));
      }
    }
  }

  lemma WinKeepsWinners(cfg: Config, s: State, s': State, c: ClaimId, review: bool)
    requires References(s) && References(s') && WinnersOk(s) && SentOk(s)
    requires c in s.db.claims && s.db.claims[c].status.Claiming? && AssetOf(s, c).status.Available?
    requires s'.db == Win(s.db, c, review) && s'.chain == s.chain
    requires s'.winner == s.winner[s.db.claims[c].asset := c]
    ensures WinnersOk(s') && SentOk(s')
  {
    var k := s.db.claims[c].asset;
    assert k !in s.winner;
    assert s'.db.claims[c].asset == k && s'.db.claims[c].txSigs == s.db.claims[c].txSigs;
    WinnerAdded(s, s', c, k);
  }

  lemma WinnerAdded(s: State, s': State, c: ClaimId, k: AssetKey)
    requires References(s) && References(s') && WinnersOk(s) && k !in s.winner
    requires c in s.db.claims && s.db.claims[c].asset == k && c in s'.db.claims
    requires s'.db.claims == s.db.claims[c := s'.db.claims[c]] && s'.db.claims[c].asset == k && Won(s'.db.claims[c])
    requires k in s'.db.assets && s'.db.assets == s.db.assets[k := s'.db.assets[k]]
    requires Live(s'.db.assets[k]) && ShapeOk(s'.db.assets[k])
    requires s'.winner == s.winner[k := c]
    ensures WinnersOk(s')
  {
  }

  lemma WinKeepsThreads(cfg: Config, s: State, s': State, c: ClaimId, review: bool)
    requires References(s) && ThreadsOk(cfg, s) && HotSingle(s) && WinnersOk(s)
    requires c in s.db.claims && s.db.claims[c].status.Claiming? && AssetOf(s, c).status.Available?
    requires s'.db == Win(s.db, c, review)
    requires s'.chain == s.chain && s'.threads == s.threads
    ensures References(s') && ThreadsOk(cfg, s') && HotSingle(s')
  {
    forall d | d in s'.threads ensures ThreadIn(cfg, s', d) {
      assert ThreadIn(cfg, s, d);
      assert s.db.claims[d].asset != s.db.claims[c].asset;
    }
    forall d, e | d in s'.threads && e in s'.threads && Hot(s'.db, d) && Hot(s'.db, e) ensures d == e {
      assert Hot(s.db, d) && Hot(s.db, e);
    }
  }

  /** The two ways a completion can end, read off the transaction. */
  lemma CompletionShape(threshold: nat, db: Db, seen: Unlocked, c: ClaimId, echo: Option<Address>, verdict: Verdict, now: nat)
    ensures var (db', outcome) := Complete(threshold, db, seen, c, echo, verdict, now);
            if outcome.Accepted? && !outcome.replay then
              && c in db.claims && db.claims[c].status.Claiming?
              && db.claims[c].asset in db.assets && db.assets[db.claims[c].asset].status.Available?
              && db' == Win(db, c, outcome.review)
              && outcome.review == OverBrake(threshold, Mario(db.assets[db.claims[c].asset]), seen.total)
            else
              && db'.assets == db.assets && db'.batches == db.batches && db.audit <= db'.audit
              && (db'.claims == db.claims
                  || (c in db.claims && db.claims[c].status.Claiming? && c in db'.claims && !Won(db'.claims[c])
                      && db'.claims == db.claims[c := db.claims[c].(status := db'.claims[c].status)]))
  {
    var db' := Complete(threshold, db, seen, c, echo, verdict, now).0;
    if c in db.claims && db.claims[c].status.Claiming? {
      var row := db.claims[c];
      assert db' == db || db' == Reject(db, c) || db' == Log(SetClaim(db, c, row.(status := ClaimStatus.Expired)), Expiry, c)
             || db' == Win(db, c, true) || db' == Win(db, c, false);
    }
  }

  lemma CompleteKeepsInv(cfg: Config, s: State, c: ClaimId, echo: Option<Address>, verdict: Verdict, now: nat,
                         recipient: Option<bool>, s': State)
    requires Inv(cfg, s) && Some(s') == CompleteNext(cfg, s, c, echo, verdict, now, recipient)
    ensures Inv(cfg, s')
  {
    var seen := ReadsOf(s, c, recipient);
    CompletionShape(cfg.threshold, s.db, seen, c, echo, verdict, now);
    if s'.wins != s.wins {
      WinKeepsInv(cfg, s, s', c, Complete(cfg.threshold, s.db, seen, c, echo, verdict, now).1.review);
    } else {
      RefusalKeepsInv(cfg, s, s');
    }
  }

  lemma RebuildKeepsInv(cfg: Config, s: State, rows: seq<PlanRow>, keyed: map<RecipientId, bool>, allowLive: bool)
    requires Inv(cfg, s) && RebuildNext(s, rows, keyed, allowLive).Some?
    ensures Inv(cfg, RebuildNext(s, rows, keyed, allowLive).value)
  {
    var s' := RebuildNext(s, rows, keyed, allowLive).value;
    RebuildIsSafe(s.db.assets, rows);
    RebuildKeepsShape(s.db.assets, rows);
    RebuildKeepsClaims(cfg, s, s');
    RebuildKeepsThreads(cfg, s, s');
    RebuildKeepsWinners(s, s');
  }

  lemma RebuildKeepsClaims(cfg: Config, s: State, s': State)
    requires References(s) && ClaimsOk(cfg, s)
    requires RebuildSafe(s.db.assets, s'.db.assets) && s'.db.claims == s.db.claims
    requires s'.chain == s.chain && s'.threads == s.threads
    ensures References(s') && ClaimsOk(cfg, s')
  {
    forall c | c in s'.db.claims ensures ClaimIn(cfg, s', c) {
      assert ClaimIn(cfg, s, c);
      if !Won(s.db.claims[c]) {
        UnwonIgnoresAsset(cfg, s.chain, c, s.db.claims[c], AssetOf(s, c), AssetOf(s', c));
      }
    }
  }

  lemma RebuildKeepsWinners(s: State, s': State)
    requires References(s) && References(s') && WinnersOk(s) && SentOk(s)
    requires RebuildSafe(s.db.assets, s'.db.assets) && s'.db.claims == s.db.claims
    requires forall k :: k in s'.db.assets ==> ShapeOk(s'.db.assets[k])
    requires s'.chain == s.chain && s'.winner == s.winner
    ensures WinnersOk(s') && SentOk(s')
  {
  }

  lemma RebuildKeepsThreads(cfg: Config, s: State, s': State)
    requires References(s) && ThreadsOk(cfg, s) && HotSingle(s) && ClaimsOk(cfg, s)
    requires RebuildSafe(s.db.assets, s'.db.assets) && s'.db.claims == s.db.claims
    requires s'.chain == s.chain && s'.threads == s.threads
    ensures References(s') && ThreadsOk(cfg, s') && HotSingle(s')
  {
    forall d | d in s'.threads
      ensures ThreadIn(cfg, s', d) && (Hot(s'.db, d) <==> Hot(s.db, d))
    {
      assert ThreadIn(cfg, s, d) && ClaimIn(cfg, s, d);
      assert !Rows.Buildable(AssetOf(s, d));
    }
  }

  // ---------------------------------------------------------------------------
  // Every step
  // ---------------------------------------------------------------------------

  lemma ServiceStepKeepsInv(cfg: Config, s: State, step: Step, s': State)
    requires Inv(cfg, s) && ServiceStep(step) && ServiceNext(cfg, s, step) == Some(s')
    ensures Inv(cfg, s')
  {
    match step
    case DoInitiate(c, k, claimant, expiresAt, delisted) => InitiateKeepsInv(cfg, s, c, k, claimant, expiresAt, delisted);
    case Hold(k, part) => RefusalKeepsInv(cfg, s, s');
    case DoComplete(c, echo, verdict, now, recipient) => CompleteKeepsInv(cfg, s, c, echo, verdict, now, recipient, s');
    case DoApprove(c) => ApproveKeepsInv(cfg, s, c);
    case DoReap(rows, now) => ReapKeepsInv(cfg, s, rows, now);
    case DoRebuild(rows, keyed, allowLive) => RebuildKeepsInv(cfg, s, rows, keyed, allowLive);
  }

  lemma BatchStepKeepsInv(cfg: Config, s: State, step: Step, s': State)
    requires Inv(cfg, s) && BatchStep(step) && BatchNext(cfg, s, step) == Some(s')
    ensures Inv(cfg, s')
  {
    match step
    case DoReserve(b, rows, at) => ReserveKeepsInv(cfg, s, b, rows, at);
    case DoBuild(b, blockhash, lastValid) => BuildKeepsInv(cfg, s, b, blockhash, lastValid);
    case DoCancel(b) => CancelKeepsInv(cfg, s, b);
    case DoExpire(cutoff) => ExpireKeepsInv(cfg, s, cutoff);
    case CountBatch(b) => HeaderKeepsInv(cfg, s, s');
    case WriteBatch(b, stillOpen) => HeaderKeepsInv(cfg, s, s');
  }

  lemma ChainStepKeepsInv(cfg: Config, s: State, step: Step, s': State)
    requires Inv(cfg, s) && ChainStep(step) && ChainNext(cfg, s, step) == Some(s')
    ensures Inv(cfg, s')
  {
    match step
    case Grow(blocks) => ChainEventKeepsInv(cfg, s, Advance(blocks));
    case LandTx(tx, success) => ChainEventKeepsInv(cfg, s, Land(tx, success));
    case TopUp(mario) => ChainEventKeepsInv(cfg, s, Refill(mario));
  }

  predicate EarlyRead(step: Step) {
    step.StartWorker? || step.StartSubmit? || step.Crash? || step.LoadClaimRow? || step.LoadAssetRow? || step.OperatorLoad?
  }

  lemma EarlyReadKeepsInv(cfg: Config, s: State, step: Step, s': State)
    requires Inv(cfg, s) && ReadStep(step) && EarlyRead(step) && ReadNext(cfg, s, step) == Some(s')
    ensures Inv(cfg, s')
  {
    match step
    case StartWorker(c) => StartWorkerKeepsInv(cfg, s, c);
    case StartSubmit(c, b, txid, authorityOver) => StartSubmitKeepsInv(cfg, s, c, b, txid, authorityOver);
    case Crash(c) => ThreadEnds(cfg, s, c);
    case LoadClaimRow(c) => LoadClaimKeepsInv(cfg, s, c);
    case LoadAssetRow(c, signer) => LoadAssetKeepsInv(cfg, s, c, signer);
    case OperatorLoad(c) => OperatorLoadKeepsInv(cfg, s, c);
  }

  lemma ReadStepKeepsInv(cfg: Config, s: State, step: Step, s': State)
    requires Inv(cfg, s) && ReadStep(step) && ReadNext(cfg, s, step) == Some(s')
    ensures Inv(cfg, s')
  {
    if EarlyRead(step) {
      EarlyReadKeepsInv(cfg, s, step, s');
    } else {
      match step
      case ReadBalance(c) => FundingReadKeepsInv(cfg, s, c, s'.threads[c]);
      case ReadReserved(c) => FundingReadKeepsInv(cfg, s, c, s'.threads[c]);
      case CheckFunds(c, now) => CheckFundsKeepsInv(cfg, s, c, now);
      case Sign(c, blockhash, lastValid) => SignKeepsInv(cfg, s, c, blockhash, lastValid);
      case SampleHeight(c, height) => SampleKeepsInv(cfg, s, c, height);
      case ReadStatus(c, status, again) => StatusKeepsInv(cfg, s, c, status, again);
      case Scan(c, hit) => ScanKeepsInv(cfg, s, c, hit);
    }
  }

  lemma WriteStepKeepsInv(cfg: Config, s: State, step: Step, s': State)
    requires Inv(cfg, s) && WriteStep(step) && WriteNext(cfg, s, step) == Some(s')
    ensures Inv(cfg, s')
  {
    match step
    case DoPersist(c) => PersistKeepsInv(cfg, s, c);
    case Broadcast(c, reaches) => BroadcastKeepsInv(cfg, s, c, reaches);
    case ActOnAnswer(c) => ActKeepsInv(cfg, s, c);
    case ActOnScan(c) => ActOnScanKeepsInv(cfg, s, c);
    case DoRoute(c) => RouteKeepsInv(cfg, s, c);
  }

  /** The protocol invariant is inductive: every step of every actor keeps it. */
  lemma StepKeepsInv(cfg: Config, s: State, step: Step, s': State)
    requires Inv(cfg, s) && Next(cfg, s, step) == Some(s')
    ensures Inv(cfg, s')
  {
    if ServiceStep(step) {
      ServiceStepKeepsInv(cfg, s, step, s');
    } else if BatchStep(step) {
      BatchStepKeepsInv(cfg, s, step, s');
    } else if ChainStep(step) {
      ChainStepKeepsInv(cfg, s, step, s');
    } else if ReadStep(step) {
      ReadStepKeepsInv(cfg, s, step, s');
    } else {
      WriteStepKeepsInv(cfg, s, step, s');
    }
  }

  /** Batch headers play no part in the dispatch invariant. */
  lemma HeaderKeepsInv(cfg: Config, s: State, s': State)
    requires Inv(cfg, s)
    requires s'.db.claims == s.db.claims && s'.db.assets == s.db.assets
    requires s'.chain == s.chain && s'.threads == s.threads && s'.winner == s.winner
    ensures Inv(cfg, s')
  {
    RowsKeepInv(cfg, s, s');
  }
}
