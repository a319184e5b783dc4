/**
 A run that exists for one ANT: approved, reserved, built, submitted by an operator flow that dies after its
 broadcast, recovered by the next submission, and its batch completed.
 */
module BatchScenarios {
  import opened Prelude
  import opened Chain
  import opened Rows
  import opened Protocol
  import opened Runs
  import opened Scenarios
  import opened ServiceOutcomes
  import opened WorkerOutcomes
  import opened BatchOutcomes
  import opened TokenScenarios

  /** The transaction the operator signs for the won ANT. */
  function HandoverOf(x: Cast): Tx {
    Tx(AntHandover(x.mint, x.claimant), 0, 0, Some(x.c))
  }

  /** The claim is approved and holds its place in the open batch b. */
  ghost predicate Reserving(x: Cast, s: State, b: BatchId) {
    && s.threads == map[] && s.closing == {} && s.chain == ChainState(0, {}, {}, {}, 0)
    && s.db.claims.Keys == {x.c} && s.db.assets.Keys == {x.k} && s.db.batches == map[b := Batch(0, Open)]
    && s.db.claims[x.c].asset == x.k && s.db.claims[x.c].claimant == x.claimant && s.db.claims[x.c].status.Verified?
    && s.db.claims[x.c].approved && s.db.claims[x.c].sig.None? && s.db.claims[x.c].batch == Some(b)
    && s.db.claims[x.c].txSigs == [] && s.db.claims[x.c].resign == 0
    && s.db.assets[x.k].kind.Ant? && s.db.assets[x.k].mint == Some(x.mint) && s.db.assets[x.k].status.InClaim?
  }

  /** The claim is won and approved, and nothing is reserved yet. */
  ghost predicate Approved(x: Cast, s: State) {
    && s.threads == map[] && s.closing == {} && s.chain == ChainState(0, {}, {}, {}, 0)
    && s.db.claims.Keys == {x.c} && s.db.assets.Keys == {x.k} && s.db.batches == map[]
    && s.db.claims[x.c].asset == x.k && s.db.claims[x.c].claimant == x.claimant && s.db.claims[x.c].status.Verified?
    && s.db.claims[x.c].approved && s.db.claims[x.c].sig.None? && s.db.claims[x.c].batch.None?
    && s.db.claims[x.c].txSigs == [] && s.db.claims[x.c].resign == 0
    && s.db.assets[x.k].kind.Ant? && s.db.assets[x.k].mint == Some(x.mint) && s.db.assets[x.k].status.InClaim?
  }

  lemma AntIsApproved(cfg: Config, x: Cast) returns (r: Run)
    ensures IsRun(cfg, r) && r.states[0] == Genesis(x) && |r.steps| == 5 && r.steps[4] == DoApprove(x.c)
    ensures Approved(x, r.states[5])
  {
    FirstClaimIsRun(cfg, x);
    r := FirstClaim(x);
    ApprovalMarks(cfg, WonState(x), x.c);
    r := Extends(cfg, r, DoApprove(x.c), Next(cfg, WonState(x), DoApprove(x.c)).value);
  }

  lemma AntIsReserved(cfg: Config, x: Cast, b: BatchId) returns (r: Run)
    ensures IsRun(cfg, r) && r.states[0] == Genesis(x) && |r.steps| == 6 && Reserving(x, r.states[6], b)
    ensures r.steps[4..] == [DoApprove(x.c), DoReserve(b, [x.c], 0)]
  {
    r := AntIsApproved(cfg, x);
    var approved := r.states[5];
    ReservingTakes(cfg, approved, b, [x.c], 0);
    r := Extends(cfg, r, DoReserve(b, [x.c], 0), Next(cfg, approved, DoReserve(b, [x.c], 0)).value);
  }

  /** The reservation carries the handover, ready to be signed by the operator's wallet. */
  ghost predicate Carrying(x: Cast, s: State, b: BatchId) {
    && Reserving(x, s, b) && s.db.claims[x.c].reservedTxid == Some(HandoverOf(x))
    && s.db.claims[x.c].reservedLastValid == Some(0) && s.db.claims[x.c].reservedWire == Some(HandoverOf(x))
  }

  lemma AntIsBuilt(cfg: Config, r: Run, x: Cast, b: BatchId) returns (q: Run)
    requires IsRun(cfg, r) && Reserving(x, r.states[|r.steps|], b)
    ensures IsRun(cfg, q) && q.states[0] == r.states[0] && q.steps == r.steps + [DoBuild(b, 0, 0)]
    ensures Carrying(x, q.states[|q.steps|], b)
  {
    var built := BuildingWrites(cfg, r.states[|r.steps|], b, 0, 0);
    q := Extends(cfg, r, DoBuild(b, 0, 0), built);
  }

  /** The operator submits; the first load finds nothing recorded yet. */
  lemma AntIsSubmitted(cfg: Config, r: Run, x: Cast, b: BatchId) returns (q: Run)
    requires IsRun(cfg, r) && Carrying(x, r.states[|r.steps|], b)
    ensures var s, t := r.states[|r.steps|], HandoverOf(x);
            && IsRun(cfg, q) && q.states[0] == r.states[0]
            && q.steps == r.steps + [StartSubmit(x.c, b, t, t), OperatorLoad(x.c)]
            && q.states[|q.steps|] == s.(threads := map[x.c := Persisting(t, 0, None)])
  {
    var s, t := r.states[|r.steps|], HandoverOf(x);
    SubmittingNeedsTheReservation(cfg, s, x.c, b, t, t);
    var submitting := s.(threads := map[x.c := Submitting(t, 0)]);
    q := Extends(cfg, r, StartSubmit(x.c, b, t, t), submitting);
    SubmissionLooksFirst(cfg, submitting, x.c);
    var persisting := s.(threads := map[x.c := Persisting(t, 0, None)]);
    assert submitting.threads[x.c := Persisting(t, 0, None)] == persisting.threads;
    q := Extends(cfg, q, OperatorLoad(x.c), persisting);
  }

  /** The handover is on record and on its way, and nobody waits for it. */
  ghost predicate Abandoned(x: Cast, s: State, b: BatchId) {
    var t := HandoverOf(x);
    && s.threads == map[] && s.closing == {} && s.db.claims.Keys == {x.c} && x.k in s.db.assets && b in s.db.batches
    && s.db.batches[b].status.Open?
    && var row := s.db.claims[x.c];
       && row.asset == x.k && row.status.Dispatching? && row.sig == Some(t) && row.lastValid == Some(0) && row.batch == Some(b)
       && row.reservedTxid == Some(t) && row.reservedWire == Some(t) && row.reservedLastValid == Some(0)
       && t in s.chain.sent && t !in s.chain.ok && t !in s.chain.err && s.chain.height == 0
  }

  /** It persists and sends, and dies. */
  lemma OperatorDies(cfg: Config, r: Run, x: Cast, b: BatchId, s: State) returns (q: Run)
    requires IsRun(cfg, r) && Carrying(x, s, b) && r.states[|r.steps|] == s.(threads := map[x.c := Persisting(HandoverOf(x), 0, None)])
    ensures IsRun(cfg, q) && q.states[0] == r.states[0] && Abandoned(x, q.states[|q.steps|], b)
    ensures q.steps == r.steps + [DoPersist(x.c), Broadcast(x.c, true), Crash(x.c)]
  {
    q := DispatcherDies(cfg, r, x.c, HandoverOf(x), None);
  }

  /** The handover lands; the operator submits once more, and the flow turns to recovering it. */
  lemma OperatorTurnsToRecovery(cfg: Config, r: Run, x: Cast, b: BatchId) returns (q: Run)
    requires IsRun(cfg, r) && Abandoned(x, r.states[|r.steps|], b)
    ensures var s, t := r.states[|r.steps|], HandoverOf(x);
            && IsRun(cfg, q) && q.states[0] == r.states[0]
            && q.steps == r.steps + [LandTx(t, true), StartSubmit(x.c, b, t, t), OperatorLoad(x.c), OperatorLoad(x.c)]
            && var e := q.states[|q.steps|];
               && e == s.(chain := s.chain.(ok := s.chain.ok + {t}), threads := e.threads)
               && x.c in e.threads && e.threads[x.c].Confirming? && e.threads[x.c].purpose.Recovery?
               && e.threads[x.c].purpose.sig == t && e.threads.Keys == {x.c}
  {
    var s, t := r.states[|r.steps|], HandoverOf(x);
    ChainMoves(cfg, s, t, true, 0);
    var landed := s.(chain := s.chain.(ok := s.chain.ok + {t}));
    q := Extends(cfg, r, LandTx(t, true), landed);
    q := OperatorLooksAgain(cfg, q, x, b);
  }

  lemma OperatorLooksAgain(cfg: Config, r: Run, x: Cast, b: BatchId) returns (q: Run)
    requires IsRun(cfg, r)
    requires var s, t := r.states[|r.steps|], HandoverOf(x);
             && s.threads == map[] && x.c in s.db.claims
             && var row := s.db.claims[x.c];
                && row.status.Dispatching? && row.sig == Some(t) && row.batch == Some(b)
                && row.reservedTxid == Some(t) && row.reservedWire == Some(t)
    ensures var s, t := r.states[|r.steps|], HandoverOf(x);
            && IsRun(cfg, q) && q.states[0] == r.states[0]
            && q.steps == r.steps + [StartSubmit(x.c, b, t, t), OperatorLoad(x.c), OperatorLoad(x.c)]
            && var e := q.states[|q.steps|];
               && e == s.(threads := e.threads) && e.threads.Keys == {x.c}
               && e.threads[x.c].Confirming? && e.threads[x.c].purpose.Recovery? && e.threads[x.c].purpose.sig == t
  {
    var s, t := r.states[|r.steps|], HandoverOf(x);
    SubmittingNeedsTheReservation(cfg, s, x.c, b, t, t);
    var s1 := Next(cfg, s, StartSubmit(x.c, b, t, t)).value;
    q := Extends(cfg, r, StartSubmit(x.c, b, t, t), s1);
    SubmissionLooksFirst(cfg, s1, x.c);
    var s2 := s1.(threads := s1.threads[x.c := Reloading]);
    q := Extends(cfg, q, OperatorLoad(x.c), s2);
    SubmissionLooksFirst(cfg, s2, x.c);
    q := Extends(cfg, q, OperatorLoad(x.c), Next(cfg, s2, OperatorLoad(x.c)).value);
  }

  /** The claim is paid, and its batch is closed as completed. */
  lemma BatchCloses(cfg: Config, r: Run, x: Cast, b: BatchId) returns (q: Run)
    requires IsRun(cfg, r)
    requires var s := r.states[|r.steps|];
             && s.closing == {} && s.db.claims.Keys == {x.c} && s.db.claims[x.c].status.Confirmed?
             && b in s.db.batches && s.db.batches[b].status.Open?
    ensures var s := r.states[|r.steps|];
            && IsRun(cfg, q) && q.states[0] == r.states[0] && q.steps == r.steps + [CountBatch(b), WriteBatch(b, false)]
            && q.states[|q.steps|] == s.(db := s.db.(batches := s.db.batches[b := s.db.batches[b].(status := Completed)]))
  {
    var s := r.states[|r.steps|];
    ClosingWrites(cfg, s, b, false);
    assert AllConfirmed(s.db, b);
    var counted := s.(closing := {(b, false)});
    assert s.closing + {(b, false)} == counted.closing;
    q := Extends(cfg, r, CountBatch(b), counted);
    ClosingWrites(cfg, counted, b, false);
    assert counted.closing - {(b, false)} == s.closing;
    q := Extends(cfg, q, WriteBatch(b, false), Next(cfg, counted, WriteBatch(b, false)).value);
  }

  /** From the abandoned handover to the completed batch. */
  lemma AbandonedHandoverIsRecovered(cfg: Config, r: Run, x: Cast, b: BatchId) returns (q: Run)
    requires IsRun(cfg, r) && cfg.endpoint.Consistent? && Abandoned(x, r.states[|r.steps|], b)
    ensures IsRun(cfg, q) && q.states[0] == r.states[0] && r.steps <= q.steps
    ensures var s, e := r.states[|r.steps|], q.states[|q.steps|];
            && PaidInFull(e, x.c, HandoverOf(x)) && e.db.claims[x.c].asset == x.k && e.chain.sent == s.chain.sent
            && b in e.db.batches && e.db.batches[b].status.Completed?
  {
    var t := HandoverOf(x);
    q := OperatorTurnsToRecovery(cfg, r, x, b);
    q := RecoveryPolls(cfg, q, x.c, t);
    var settled := ConfirmedAnswerSettles(cfg, q, |q.steps|, x.c);
    q := Extends(cfg, q, ActOnAnswer(x.c), settled);
    q := BatchCloses(cfg, q, x, b);
  }

  /** Such a run exists from an empty claim table on, whether or not the flow asks for an approval. */
  lemma BatchIsCompleted(cfg: Config, x: Cast, b: BatchId) returns (r: Run, i: nat)
    requires cfg.endpoint.Consistent?
    ensures IsRun(cfg, r) && r.states[0] == Genesis(x)
    ensures i + 1 < |r.steps| && r.steps[i] == Broadcast(x.c, true) && r.steps[i + 1] == Crash(x.c)
    ensures var e := r.states[|r.steps|];
            && PaidInFull(e, x.c, HandoverOf(x)) && e.db.claims[x.c].asset == x.k
            && b in e.db.batches && e.db.batches[b].status.Completed?
  {
    r := AntIsReserved(cfg, x, b);
    r := AntIsBuilt(cfg, r, x, b);
    var s := r.states[|r.steps|];
    r := AntIsSubmitted(cfg, r, x, b);
    r := OperatorDies(cfg, r, x, b, s);
    i := |r.steps| - 2;
    r := AbandonedHandoverIsRecovered(cfg, r, x, b);
  }
}
