/**
 What a dispatcher does with what it holds, step by step and in terms of the rows alone: when it starts,
 what it decides from the asset and the float, what it records, and how it acts on every answer.
 */
module WorkerOutcomes {
  import opened Prelude
  import opened Chain
  import opened Rows
  import opened Protocol
  import opened ReservedFloat
  import opened Invariant
  import opened Runs

  /** At most the row of claim c and the row of its asset differ; nothing happened on chain. */
  ghost predicate OnlyOwnRows(s: State, s': State, c: ClaimId)
    requires c in s.db.claims
  {
    && s'.chain == s.chain && s'.db.batches == s.db.batches && s'.db.keyed == s.db.keyed
    && s'.db.claims.Keys == s.db.claims.Keys && s'.db.assets.Keys == s.db.assets.Keys
    && (forall d :: d in s.db.claims && d != c ==> s'.db.claims[d] == s.db.claims[d])
    && (forall k :: k in s.db.assets && k != s.db.claims[c].asset ==> s'.db.assets[k] == s.db.assets[k])
  }

  /** The dispatcher of c is gone, and the others are where they were. */
  ghost predicate Gone(s: State, s': State, c: ClaimId) {
    s'.threads == s.threads - {c}
  }

  ghost predicate NowAt(s: State, s': State, c: ClaimId, pc: Pc) {
    s'.threads == s.threads[c := pc]
  }

  ghost predicate Logged(s: State, s': State, kind: AuditKind, c: ClaimId) {
    s'.db.audit == s.db.audit + [AuditRow(kind, Some(c))]
  }

  /** The claim is confirmed by t, its asset is claimed, and no other column of either row changed. */
  ghost predicate PaidBy(s: State, s': State, c: ClaimId, t: Tx)
    requires c in s.db.claims
  {
    && OnlyOwnRows(s, s', c) && Gone(s, s', c) && Logged(s, s', DispatchConfirmed, c)
    && s'.db.claims[c] == s.db.claims[c].(status := ClaimStatus.Confirmed) && t in s'.db.claims[c].txSigs
    && s.db.claims[c].asset in s.db.assets
    && s'.db.assets[s.db.claims[c].asset] == s.db.assets[s.db.claims[c].asset].(status := Claimed)
  }

  /** The i-th state of a run, with a dispatcher of c. */
  ghost predicate DispatcherAt(cfg: Config, r: Run, i: nat, c: ClaimId) {
    IsRun(cfg, r) && i < |r.states| && c in r.states[i].threads
  }

  /** The step can be taken there; and if the run takes it, it leads to the next state of the run. */
  ghost predicate Leads(cfg: Config, r: Run, i: nat, step: Step, s': State)
    requires i < |r.states|
  {
    Next(cfg, r.states[i], step) == Some(s')
  }

  lemma RunLeads(cfg: Config, r: Run, i: nat, s': State)
    requires IsRun(cfg, r) && i < |r.steps| && Leads(cfg, r, i, r.steps[i], s')
    ensures r.states[i + 1] == s'
  {
    assert Steps(cfg, r, i);
  }

  // ---------------------------------------------------------------------------
  // Acting on an answer
  // ---------------------------------------------------------------------------

  /** What a run knows of a claim that has a dispatcher. */
  lemma Holding(cfg: Config, r: Run, i: nat, c: ClaimId)
    requires DispatcherAt(cfg, r, i, c)
    ensures var s := r.states[i];
            && c in s.db.claims && s.db.claims[c].asset in s.db.assets
            && (s.threads[c].Answered? ==> s.db.claims[c].status.Dispatching? && s.threads[c].purpose.sig in s.db.claims[c].txSigs)
            && (s.threads[c].Scanned? ==>
                  && s.db.claims[c].status.Dispatching? && s.threads[c].resign == s.db.claims[c].resign
                  && (s.threads[c].hit.Some? ==> s.threads[c].hit.value in s.db.claims[c].txSigs)
                  && (s.threads[c].origin.Worker? ==> s.db.claims[c].batch.None?))
            && (s.threads[c].Reviewing? || s.threads[c].Queueing? || s.threads[c].Failing? ==>
                  s.db.claims[c].status.Verified? || s.db.claims[c].status.PendingReview?)
            && (s.db.assets[s.db.claims[c].asset].status.Claimed? ==> s.db.claims[c].status.Confirmed?)
  {
    EveryStateHasSafeRows(cfg, r, i);
    var s := r.states[i];
    assert ThreadIn(cfg, s, c) && ClaimIn(cfg, s, c);
    var cl := s.db.claims[c];
    if s.threads[c].Answered? {
      assert cl.txSigs[|cl.txSigs| - 1] == s.threads[c].purpose.sig;
    }
  }

  /** A confirmed answer settles the claim, in line after a broadcast and in recovery alike. */
  lemma ConfirmedAnswerSettles(cfg: Config, r: Run, i: nat, c: ClaimId) returns (s': State)
    requires DispatcherAt(cfg, r, i, c) && r.states[i].threads[c].Answered? && r.states[i].threads[c].answer.Confirmed?
    ensures Leads(cfg, r, i, ActOnAnswer(c), s')
    ensures c in r.states[i].db.claims && PaidBy(r.states[i], s', c, r.states[i].threads[c].purpose.sig)
  {
    Holding(cfg, r, i, c);
    s' := Next(cfg, r.states[i], ActOnAnswer(c)).value;
  }

  /** A failed answer fails the claim; its asset stays with it for the operator. */
  lemma FailedAnswerFails(cfg: Config, r: Run, i: nat, c: ClaimId) returns (s': State)
    requires DispatcherAt(cfg, r, i, c) && r.states[i].threads[c].Answered? && r.states[i].threads[c].answer.Failed?
    ensures Leads(cfg, r, i, ActOnAnswer(c), s')
    ensures var s := r.states[i];
            && c in s.db.claims && OnlyOwnRows(s, s', c) && Gone(s, s', c)
            && s'.db.claims[c] == s.db.claims[c].(status := ClaimStatus.Failed) && s'.db.assets == s.db.assets
            && Logged(s, s', DispatchFailed, c)
  {
    Holding(cfg, r, i, c);
    s' := Next(cfg, r.states[i], ActOnAnswer(c)).value;
  }

  /** An expired answer in line leaves everything to a later recovery; in recovery the scan has to come first. */
  lemma ExpiredAnswerWaits(cfg: Config, r: Run, i: nat, c: ClaimId)
    requires DispatcherAt(cfg, r, i, c) && r.states[i].threads[c].Answered? && r.states[i].threads[c].answer.Expired?
    ensures var s := r.states[i];
            if s.threads[c].purpose.Inline?
            then Next(cfg, s, ActOnAnswer(c)) == Some(s.(threads := s.threads - {c}))
            else Next(cfg, s, ActOnAnswer(c)) == None
  {
  }

  /** A landed signature found by the scan settles the claim, for the worker and the operator flow. */
  lemma ScanHitSettles(cfg: Config, r: Run, i: nat, c: ClaimId) returns (s': State)
    requires DispatcherAt(cfg, r, i, c) && r.states[i].threads[c].Scanned? && r.states[i].threads[c].hit.Some?
    ensures Leads(cfg, r, i, ActOnScan(c), s')
    ensures c in r.states[i].db.claims && PaidBy(r.states[i], s', c, r.states[i].threads[c].hit.value)
  {
    Holding(cfg, r, i, c);
    s' := Next(cfg, r.states[i], ActOnScan(c)).value;
  }

  /** Without a hit and with the budget spent the claim is frozen as it is. */
  lemma SpentScanFreezes(cfg: Config, r: Run, i: nat, c: ClaimId) returns (s': State)
    requires DispatcherAt(cfg, r, i, c) && r.states[i].threads[c].Scanned? && r.states[i].threads[c].hit.None?
    requires r.states[i].threads[c].resign >= 1
    ensures Leads(cfg, r, i, ActOnScan(c), s')
    ensures var s := r.states[i];
            && c in s.db.claims && OnlyOwnRows(s, s', c) && Gone(s, s', c)
            && s'.db.claims[c] == s.db.claims[c].(status := NeedsOperator) && s'.db.assets == s.db.assets
            && Logged(s, s', AuditKind.Frozen, c)
  {
    Holding(cfg, r, i, c);
    s' := Next(cfg, r.states[i], ActOnScan(c)).value;
  }

  /** Back to where the claim came from, by its approval, without a signature and one attempt poorer. */
  predicate Reverted(was: Claim, now: Claim) {
    now == was.(status := if was.approved then PendingReview else Verified, sig := None, lastValid := None, resign := was.resign + 1)
  }

  /** Without a hit and with budget left the worker drops the signature and dispatches afresh at once. */
  lemma WorkerScanStartsAfresh(cfg: Config, r: Run, i: nat, c: ClaimId) returns (s': State)
    requires DispatcherAt(cfg, r, i, c) && r.states[i].threads[c].Scanned? && r.states[i].threads[c].hit.None?
    requires r.states[i].threads[c].resign == 0 && r.states[i].threads[c].origin.Worker?
    ensures Leads(cfg, r, i, ActOnScan(c), s')
    ensures var s := r.states[i];
            && c in s.db.claims && OnlyOwnRows(s, s', c) && NowAt(s, s', c, Fresh)
            && Reverted(s.db.claims[c], s'.db.claims[c]) && s'.db.assets == s.db.assets
            && Logged(s, s', DispatchExpired, c)
  {
    Holding(cfg, r, i, c);
    s' := Next(cfg, r.states[i], ActOnScan(c)).value;
  }

  /** The operator flow cannot sign: it frees the reservation for the next batch. */
  lemma OperatorScanReleases(cfg: Config, r: Run, i: nat, c: ClaimId) returns (s': State)
    requires DispatcherAt(cfg, r, i, c) && r.states[i].threads[c].Scanned? && r.states[i].threads[c].hit.None?
    requires r.states[i].threads[c].resign == 0 && r.states[i].threads[c].origin.Operator?
    ensures Leads(cfg, r, i, ActOnScan(c), s')
    ensures var s := r.states[i];
            && c in s.db.claims && OnlyOwnRows(s, s', c) && Gone(s, s', c) && s'.db.assets == s.db.assets
            && Logged(s, s', ReservationReleased, c)
            && Reverted(s.db.claims[c].(batch := None, reservedAt := None, reservedTxid := None,
                                        reservedLastValid := None, reservedWire := None), s'.db.claims[c])
  {
    Holding(cfg, r, i, c);
    s' := Next(cfg, r.states[i], ActOnScan(c)).value;
  }

  /** Whenever a run acts on an answer, this is what the next state shows. */
  lemma EveryAnswerTakesEffect(cfg: Config, r: Run, i: nat, c: ClaimId)
    requires IsRun(cfg, r) && i < |r.steps| && r.steps[i] == ActOnAnswer(c)
    ensures var s, s' := r.states[i], r.states[i + 1];
            && c in s.threads && s.threads[c].Answered? && c in s.db.claims && c in s'.db.claims
            && match s.threads[c].answer
               case Confirmed => PaidBy(s, s', c, s.threads[c].purpose.sig)
               case Failed => s'.db.claims[c].status.Failed? && s'.db.assets == s.db.assets && Gone(s, s', c)
               case _ => s.threads[c].purpose.Inline? && s'.db == s.db && Gone(s, s', c)
  {
    assert Steps(cfg, r, i);
    var s := r.states[i];
    Holding(cfg, r, i, c);
    match s.threads[c].answer {
      case Confirmed =>
        var s' := ConfirmedAnswerSettles(cfg, r, i, c);
      case Failed =>
        var s' := FailedAnswerFails(cfg, r, i, c);
      case _ =>
    }
  }

  /** And whenever it acts on a scan: a hit settles, a spent budget freezes, and otherwise the dead signature is dropped. */
  lemma EveryScanTakesEffect(cfg: Config, r: Run, i: nat, c: ClaimId)
    requires IsRun(cfg, r) && i < |r.steps| && r.steps[i] == ActOnScan(c)
    ensures var s, s' := r.states[i], r.states[i + 1];
            && c in s.threads && s.threads[c].Scanned? && c in s.db.claims && c in s'.db.claims
            && if s.threads[c].hit.Some? then PaidBy(s, s', c, s.threads[c].hit.value)
               else if s.threads[c].resign >= 1 then s'.db.claims[c].status.NeedsOperator? && Gone(s, s', c)
               else
                 && s'.db.claims[c].sig.None? && s'.db.claims[c].resign == s.db.claims[c].resign + 1
                 && (if s.threads[c].origin.Worker? then NowAt(s, s', c, Fresh) else s'.db.claims[c].batch.None? && Gone(s, s', c))
  {
    assert Steps(cfg, r, i);
    var s := r.states[i];
    Holding(cfg, r, i, c);
    if s.threads[c].hit.Some? {
      var s' := ScanHitSettles(cfg, r, i, c);
    } else if s.threads[c].resign >= 1 {
      var s' := SpentScanFreezes(cfg, r, i, c);
    } else if s.threads[c].origin.Worker? {
      var s' := WorkerScanStartsAfresh(cfg, r, i, c);
    } else {
      var s' := OperatorScanReleases(cfg, r, i, c);
    }
  }

  /** The three ways out of a fresh dispatch that send nothing. */
  lemma RoutesArriveThere(cfg: Config, r: Run, i: nat, c: ClaimId) returns (s': State)
    requires DispatcherAt(cfg, r, i, c)
    requires var pc := r.states[i].threads[c]; pc.Reviewing? || pc.Queueing? || pc.Failing?
    ensures Leads(cfg, r, i, DoRoute(c), s')
    ensures var s := r.states[i];
            && c in s.db.claims && OnlyOwnRows(s, s', c) && Gone(s, s', c)
            && var k := s.db.claims[c].asset;
               && k in s.db.assets
               && (s.threads[c].Reviewing? ==>
                     Logged(s, s', Review, c) && s'.db.claims[c] == s.db.claims[c].(status := PendingReview)
                     && s'.db.assets[k] == s.db.assets[k].(status := InReview))
               && (s.threads[c].Queueing? ==>
                     Logged(s, s', ManualVault, c) && s'.db.claims[c] == s.db.claims[c].(status := AwaitingManualVault)
                     && s'.db.assets[k] == s.db.assets[k].(status := InReview))
               && (s.threads[c].Failing? ==>
                     Logged(s, s', DispatchFailed, c) && s'.db.claims[c] == s.db.claims[c].(status := ClaimStatus.Failed)
                     && s'.db.assets[k] == s.db.assets[k])
  {
    Holding(cfg, r, i, c);
    s' := Next(cfg, r.states[i], DoRoute(c)).value;
  }

  // ---------------------------------------------------------------------------
  // Starting
  // ---------------------------------------------------------------------------

  /** Nobody handles the claim, and nobody else is at work on the hot account if it needs that. */
  ghost predicate Unhandled(s: State, c: ClaimId) {
    c in s.db.claims && c !in s.threads
    && (OnHotAccount(s.db, c) ==> forall d :: d in s.threads ==> !OnHotAccount(s.db, d))
  }

  /**
   The worker leaves confirmed claims and claims of operator batches alone, recovers a recorded signature before
   anything else, dispatches verified and approved claims, and nothing else.
   */
  lemma WorkerPicksUp(cfg: Config, s: State, c: ClaimId)
    requires Unhandled(s, c)
    ensures var row := s.db.claims[c];
            var done := Next(cfg, s, StartWorker(c));
            if row.status.Confirmed? || row.batch.Some? then done == None
            else if row.sig.Some? && (row.status.Dispatching? || row.status.Verified?) then
              done == Some(s.(threads := s.threads[c := Confirming(Recovery(Worker, row.sig.value, row.lastValid.GetOr(0),
                                                                             [row.sig.value] + row.txSigs, row.resign))]))
            else if row.status.Verified? || (row.status.PendingReview? && row.approved) then
              done == Some(s.(threads := s.threads[c := Fresh]))
            else done == None
  {
  }

  /** A claim that somebody handles is left alone, and a hot claim waits while another one is at work. */
  lemma WorkerWaits(cfg: Config, s: State, c: ClaimId)
    requires !Unhandled(s, c)
    ensures Next(cfg, s, StartWorker(c)) == None
  {
    if c in s.db.claims && c !in s.threads {
      var d :| d in s.threads && OnHotAccount(s.db, d);
      assert OnHotAccount(s.db, c) && d != c;
    }
  }

  /** A worker that died after its broadcast leaves a claim the next tick recovers, and recovery asks about its signature. */
  lemma DispatchingIsRecovered(cfg: Config, s: State, c: ClaimId) returns (s': State)
    requires Unhandled(s, c) && s.db.claims[c].status.Dispatching? && s.db.claims[c].sig.Some? && s.db.claims[c].batch.None?
    ensures Next(cfg, s, StartWorker(c)) == Some(s') && s'.db == s.db && s'.chain == s.chain
    ensures c in s'.threads && s'.threads[c].Confirming? && s'.threads[c].purpose.Recovery?
            && s'.threads[c].purpose.sig == s.db.claims[c].sig.value
            && forall t :: t in s.db.claims[c].txSigs ==> t in s'.threads[c].purpose.known
  {
    WorkerPicksUp(cfg, s, c);
    s' := Next(cfg, s, StartWorker(c)).value;
  }

  /** A fresh dispatch begins with the claim's approval and claimant as they are then. */
  lemma ClaimIsLoaded(cfg: Config, s: State, c: ClaimId)
    requires c in s.threads && s.threads[c] == Fresh && c in s.db.claims
    ensures Next(cfg, s, LoadClaimRow(c)) ==
            Some(s.(threads := s.threads[c := GotClaim(s.db.claims[c].approved, s.db.claims[c].claimant)]))
  {
  }

  /** A crash takes a dispatcher and nothing else, at any point. */
  lemma CrashForgets(cfg: Config, s: State, c: ClaimId)
    ensures Next(cfg, s, Crash(c)) == if c in s.threads then Some(s.(threads := s.threads - {c})) else None
  {
  }

  /** What is sent can land once, while its lifetime lasts and, to succeed, the account covers it. */
  lemma ChainMoves(cfg: Config, s: State, t: Tx, success: bool, n: nat)
    ensures Next(cfg, s, Grow(n)) == Some(s.(chain := s.chain.(height := s.chain.height + n)))
    ensures Next(cfg, s, TopUp(n)) == Some(s.(chain := s.chain.(balance := s.chain.balance + n)))
    ensures var done := Next(cfg, s, LandTx(t, success));
            var cost := match t.effect
                        case AntHandover(_, _) => 0
                        case TokenTransfer(_, mario) => mario
                        case VaultRelock(_, mario, _) => mario;
            if t !in s.chain.sent || t in s.chain.ok || t in s.chain.err || s.chain.height > t.lastValid then done == None
            else if !success then done == Some(s.(chain := s.chain.(err := s.chain.err + {t})))
            else if cost > s.chain.balance then done == None
            else done == Some(s.(chain := s.chain.(ok := s.chain.ok + {t}, balance := s.chain.balance - cost)))
  {
  }

  // ---------------------------------------------------------------------------
  // A fresh dispatch
  // ---------------------------------------------------------------------------

  /** What the asset decides. */
  lemma AssetDecides(cfg: Config, s: State, c: ClaimId, signer: AntSigner, approved: bool, claimant: Address)
    requires c in s.threads && s.threads[c] == GotClaim(approved, claimant) && c in s.db.claims
    ensures var done := Next(cfg, s, LoadAssetRow(c, signer));
            var k := s.db.claims[c].asset;
            done.Some? && done.value == s.(threads := done.value.threads)
            && var s' := done.value;
               if k !in s.db.assets || s.db.assets[k].status.Claimed? || s.db.assets[k].status.Cancelled? then Gone(s, s', c)
               else
                 var a := s.db.assets[k];
                 if a.kind.Token? || a.kind.Vault? then NowAt(s, s', c, Funding(a, approved, claimant, None, None))
                 else if cfg.antNeedsApproval && !approved then NowAt(s, s', c, Reviewing)
                 else if signer.NoSigner? then Gone(s, s', c)
                 else if signer.HotSigner? || a.mint.None? then NowAt(s, s', c, Failing)
                 else NowAt(s, s', c, Signing(AntHandover(a.mint.value, claimant), None))
  {
  }

  /** A vault is paid out liquid when it has ended, is too small to lock again, or would be locked too shortly. */
  predicate PaidLiquid(a: Asset, cfg: Config, now: int) {
    var left := a.vaultEnd.GetOr(0) - now;
    left <= 0 || a.amount.GetOr(0) < 100_000_000 || left < cfg.minVault
  }

  /** The lock would be longer than the program allows, or there is no program to lock it with. */
  predicate CannotLock(a: Asset, cfg: Config, now: int) {
    a.vaultEnd.GetOr(0) - now > cfg.maxVault || !cfg.relockReady
  }

  /** What the float and the clock decide once balance and reserved sum are read. */
  lemma FundsDecide(cfg: Config, s: State, c: ClaimId, a: Asset, approved: bool, claimant: Address,
                    balance: nat, reserved: nat, now: int)
    requires c in s.threads && s.threads[c] == Funding(a, approved, claimant, Some(balance), Some(reserved))
    requires a.kind.Token? || a.kind.Vault?
    ensures var done := Next(cfg, s, CheckFunds(c, now));
            var amount := a.amount.GetOr(0);
            done.Some? && done.value == s.(threads := done.value.threads)
            && var s' := done.value;
               if !approved && 0 < cfg.threshold < amount then NowAt(s, s', c, Reviewing)
               else if amount > 0 && amount + reserved > balance then Gone(s, s', c)
               else if a.kind.Token? || PaidLiquid(a, cfg, now) then
                 NowAt(s, s', c, Signing(TokenTransfer(claimant, amount), Some(amount)))
               else if CannotLock(a, cfg, now) then NowAt(s, s', c, Queueing)
               else NowAt(s, s', c, Signing(VaultRelock(claimant, amount, a.vaultEnd.GetOr(0) - now), Some(amount)))
  {
  }

  /** The two reads of the float, in either order: each takes what chain and tables say at that instant. */
  lemma BalanceIsRead(cfg: Config, s: State, c: ClaimId, a: Asset, approved: bool, claimant: Address, reserved: Option<nat>)
    requires c in s.threads && s.threads[c] == Funding(a, approved, claimant, None, reserved)
    ensures Next(cfg, s, ReadBalance(c)) ==
            Some(s.(threads := s.threads[c := Funding(a, approved, claimant, Some(s.chain.balance), reserved)]))
  {
  }

  lemma ReservedIsRead(cfg: Config, s: State, c: ClaimId, a: Asset, approved: bool, claimant: Address, balance: Option<nat>)
    requires c in s.threads && s.threads[c] == Funding(a, approved, claimant, balance, None)
    ensures Next(cfg, s, ReadReserved(c)) ==
            Some(s.(threads := s.threads[c := Funding(a, approved, claimant, balance, Some(Owed(s.db, c)))]))
  {
    ReservedIsOwed(s.db, c);
  }

  /** Balance and reserved sum, read one after the other in the same state of chain and tables. */
  lemma FloatIsRead(cfg: Config, s: State, c: ClaimId, a: Asset, approved: bool, claimant: Address) returns (read: State, summed: State)
    requires c in s.threads && s.threads[c] == Funding(a, approved, claimant, None, None)
    ensures Next(cfg, s, ReadBalance(c)) == Some(read) && Next(cfg, read, ReadReserved(c)) == Some(summed)
    ensures read == s.(threads := s.threads[c := Funding(a, approved, claimant, Some(s.chain.balance), None)])
    ensures summed == s.(threads := s.threads[c := Funding(a, approved, claimant, Some(s.chain.balance), Some(Owed(s.db, c)))])
  {
    read := s.(threads := s.threads[c := Funding(a, approved, claimant, Some(s.chain.balance), None)]);
    BalanceIsRead(cfg, s, c, a, approved, claimant, None);
    ReservedIsRead(cfg, read, c, a, approved, claimant, Some(s.chain.balance));
    var pc := Funding(a, approved, claimant, Some(s.chain.balance), Some(Owed(s.db, c)));
    summed := s.(threads := s.threads[c := pc]);
    assert read.threads[c := pc] == s.threads[c := pc];
  }

  /** A check that passes leaves room for every other claim the hot account will have to pay; one that does not, does not. */
  lemma CheckLeavesRoom(cfg: Config, s: State, c: ClaimId, a: Asset, approved: bool, claimant: Address, now: int)
    returns (read: State, summed: State, s': State)
    requires c in s.threads && s.threads[c] == Funding(a, approved, claimant, None, None)
    requires a.kind.Token? || a.kind.Vault?
    requires approved || cfg.threshold == 0 || a.amount.GetOr(0) <= cfg.threshold
    ensures Next(cfg, s, ReadBalance(c)) == Some(read) && Next(cfg, read, ReadReserved(c)) == Some(summed)
    ensures read.chain == s.chain && read.db == s.db && summed.chain == s.chain && summed.db == s.db
    ensures Next(cfg, summed, CheckFunds(c, now)) == Some(s')
    ensures if a.amount.GetOr(0) == 0 || a.amount.GetOr(0) + Owed(s.db, c) <= s.chain.balance
            then c in s'.threads && (s'.threads[c].Signing? || s'.threads[c].Queueing?) else c !in s'.threads
  {
    read, summed := FloatIsRead(cfg, s, c, a, approved, claimant);
    s' := FundsOutcome(cfg, summed, c, a, approved, claimant, s.chain.balance, Owed(s.db, c), now);
  }

  lemma FundsOutcome(cfg: Config, s: State, c: ClaimId, a: Asset, approved: bool, claimant: Address,
                     balance: nat, reserved: nat, now: int) returns (s': State)
    requires c in s.threads && s.threads[c] == Funding(a, approved, claimant, Some(balance), Some(reserved))
    requires a.kind.Token? || a.kind.Vault?
    requires approved || cfg.threshold == 0 || a.amount.GetOr(0) <= cfg.threshold
    ensures Next(cfg, s, CheckFunds(c, now)) == Some(s')
    ensures if a.amount.GetOr(0) == 0 || a.amount.GetOr(0) + reserved <= balance
            then c in s'.threads && (s'.threads[c].Signing? || s'.threads[c].Queueing?) else c !in s'.threads
  {
    FundsDecide(cfg, s, c, a, approved, claimant, balance, reserved, now);
    s' := Next(cfg, s, CheckFunds(c, now)).value;
  }

  /** The signed transaction carries the effect, the claim's memo and the lifetime it was signed for. */
  lemma SignedAsDecided(cfg: Config, s: State, c: ClaimId, effect: Effect, settlement: Option<nat>, blockhash: nat, lastValid: nat)
    requires c in s.threads && s.threads[c] == Signing(effect, settlement)
    ensures Next(cfg, s, Sign(c, blockhash, lastValid)) ==
            Some(s.(threads := s.threads[c := Persisting(Tx(effect, blockhash, lastValid, Some(c)), lastValid, settlement)]))
  {
  }

  /** Claim and asset are still open for a dispatch. */
  predicate StillOpen(db: Db, c: ClaimId) {
    && c in db.claims && (db.claims[c].status.Verified? || (db.claims[c].status.PendingReview? && db.claims[c].approved))
    && db.claims[c].asset in db.assets
    && (db.assets[db.claims[c].asset].status.InClaim? || db.assets[db.claims[c].asset].status.InReview?)
  }

  /** A commit that finds claim or asset moved writes nothing, and nothing is sent. */
  lemma PersistRefuses(cfg: Config, s: State, c: ClaimId, t: Tx, lastValid: nat, settlement: Option<nat>)
    requires c in s.threads && s.threads[c] == Persisting(t, lastValid, settlement) && c in s.db.claims && !StillOpen(s.db, c)
    ensures Next(cfg, s, DoPersist(c)) == Some(s.(threads := s.threads - {c}))
  {
  }

  /** Otherwise the signature is on record, in both places, before anything is sent. */
  lemma PersistRecords(cfg: Config, s: State, c: ClaimId, t: Tx, lastValid: nat, settlement: Option<nat>) returns (s': State)
    requires c in s.threads && s.threads[c] == Persisting(t, lastValid, settlement) && StillOpen(s.db, c)
    ensures Next(cfg, s, DoPersist(c)) == Some(s')
    ensures OnlyOwnRows(s, s', c) && NowAt(s, s', c, Broadcasting(t, lastValid)) && Logged(s, s', DispatchStarted, c)
    ensures var row := s.db.claims[c];
            && s'.db.claims[c] == row.(status := Dispatching, sig := Some(t), lastValid := Some(lastValid),
                                       settlement := settlement, txSigs := row.txSigs + [t])
            && s'.db.assets[row.asset] == s.db.assets[row.asset].(status := InClaim)
  {
    s' := Next(cfg, s, DoPersist(c)).value;
  }

  /** The broadcast hands over the persisted transaction, whether or not it arrives, and confirmation follows. */
  lemma BroadcastSends(cfg: Config, s: State, c: ClaimId, t: Tx, lastValid: nat, reaches: bool)
    requires c in s.threads && s.threads[c] == Broadcasting(t, lastValid)
    ensures var done := Next(cfg, s, Broadcast(c, reaches));
            done.Some? && done.value == s.(threads := s.threads[c := Confirming(Inline(t, lastValid))], chain := done.value.chain)
            && done.value.chain == s.chain.(sent := if reaches then s.chain.sent + {t} else s.chain.sent)
  {
  }

  // ---------------------------------------------------------------------------
  // Asking the chain
  // ---------------------------------------------------------------------------

  /** What a poll makes of the height sampled first and the status read second. */
  lemma PollDecides(cfg: Config, s: State, c: ClaimId, p: Purpose, height: nat, status: SigStatus, again: bool, s': State)
    requires c in s.threads && s.threads[c] == Sampled(p, height) && Next(cfg, s, ReadStatus(c, status, again)) == Some(s')
    ensures s' == s.(threads := s'.threads)
    ensures match status
            case Seen(true, _) => NowAt(s, s', c, Answered(p, ConfirmState.Failed))
            case Seen(false, true) => NowAt(s, s', c, Answered(p, ConfirmState.Confirmed))
            case Seen(false, false) => if again then NowAt(s, s', c, Confirming(p)) else Gone(s, s', c)
            case NotFound =>
              if height > p.lastValid then NowAt(s, s', c, Answered(p, ConfirmState.Expired))
              else if again then NowAt(s, s', c, Confirming(p)) else Gone(s, s', c)
  {
  }

  /** On a consistent endpoint a poll that sees the current chain is always possible, with the truth about the signature. */
  lemma PollSees(cfg: Config, s: State, c: ClaimId, p: Purpose, confirmed: bool, again: bool)
    requires cfg.endpoint.Consistent? && c in s.threads && s.threads[c] == Confirming(p)
    ensures var sampled := Next(cfg, s, SampleHeight(c, s.chain.height));
            sampled == Some(s.(threads := s.threads[c := Sampled(p, s.chain.height)]))
            && var truth := if Landed(s.chain, p.sig) then Seen(p.sig in s.chain.err, confirmed) else NotFound;
               Next(cfg, sampled.value, ReadStatus(c, truth, again)).Some?
  {
  }

  /** A recovery that found its signature expired scans for any signature the claim ever recorded. */
  lemma ScanKeepsTheHit(cfg: Config, s: State, c: ClaimId, p: Purpose, hit: Option<Tx>)
    requires c in s.threads && s.threads[c] == Answered(p, ConfirmState.Expired) && p.Recovery?
    requires if hit.Some? then hit.value in p.known && hit.value in s.chain.ok else forall t :: t in p.known ==> t !in s.chain.ok
    ensures Next(cfg, s, Scan(c, hit)) == Some(s.(threads := s.threads[c := Scanned(p.origin, p.sig, p.resign, hit)]))
  {
  }
}
