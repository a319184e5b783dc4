/**
 The protocol can do its work: from any state with a verified ANT claim that nobody is handling, a
 schedule of ten steps pays and confirms it. So the theorems about runs speak of something.
 */
module Progress {
  import opened Prelude
  import opened Chain
  import opened Rows
  import opened DispatchCore
  import opened Protocol

  /** A verified ANT claim outside any batch. */
  predicate HandingOver(s: State, c: ClaimId) {
    && c in s.db.claims && s.db.claims[c].status.Verified? && s.db.claims[c].batch.None? && s.db.claims[c].sig.None?
    && s.db.claims[c].asset in s.db.assets
    && var a := s.db.assets[s.db.claims[c].asset];
       a.kind.Ant? && a.mint.Some? && (a.status.InClaim? || a.status.InReview?)
  }

  function Wire(s: State, c: ClaimId): Tx
    requires HandingOver(s, c)
  {
    SignDispatch(true, c, AntHandover(s.db.assets[s.db.claims[c].asset].mint.value, s.db.claims[c].claimant), 0, s.chain.height)
  }

  /** The states of the schedule, one after the other. */
  datatype Schedule = Schedule(begun: State, got: State, signing: State, signed: State, persisted: State, sent: State,
                               landed: State, sampled: State, answered: State, done: State)

  function PlanOf(s: State, c: ClaimId): Schedule
    requires HandingOver(s, c)
  {
    var tx := Wire(s, c);
    var inline := Inline(tx, tx.lastValid);
    var row := s.db.claims[c];
    var persisted := At(s, c, Broadcasting(tx, tx.lastValid)).(
      db := Persist(s.db, c, row.asset, tx, tx.lastValid, None).0,
      freeSends := if row.approved then s.freeSends else s.freeSends + {row.asset});
    var sent := At(persisted, c, Confirming(inline)).(chain := s.chain.(sent := s.chain.sent + {tx}));
    var landed := sent.(chain := sent.chain.(ok := s.chain.ok + {tx}, balance := s.chain.balance - 0));
    Schedule(
      At(s, c, Fresh),
      At(s, c, GotClaim(row.approved, row.claimant)),
      At(s, c, Signing(tx.effect, None)),
      At(s, c, Persisting(tx, tx.lastValid, None)),
      persisted, sent, landed,
      At(landed, c, Sampled(inline, s.chain.height)),
      At(landed, c, Answered(inline, ConfirmState.Confirmed)),
      Done(landed, c).(db := Finalize(landed.db, c, tx)))
  }

  predicate Ready(cfg: Config, s: State, c: ClaimId) {
    !cfg.antNeedsApproval && cfg.endpoint.Consistent? && HandingOver(s, c) && c !in s.threads && !Landed(s.chain, Wire(s, c))
  }

  lemma AtAgain(s: State, c: ClaimId, p: Pc, q: Pc)
    ensures At(At(s, c, p), c, q) == At(s, c, q)
  {
    assert s.threads[c := p][c := q] == s.threads[c := q];
  }

  // One lemma per kind of step, so that the schedule is put together from the individual transactions.

  lemma ByRead(cfg: Config, s: State, step: Step, mid: State)
    requires ReadStep(step) && ReadNext(cfg, s, step) == Some(mid)
    ensures Next(cfg, s, step) == Some(mid)
  {
  }

  lemma ByWrite(cfg: Config, s: State, step: Step, mid: State)
    requires WriteStep(step) && WriteNext(cfg, s, step) == Some(mid)
    ensures Next(cfg, s, step) == Some(mid)
  {
  }

  lemma ByChain(cfg: Config, s: State, step: Step, mid: State)
    requires ChainStep(step) && ChainNext(cfg, s, step) == Some(mid)
    ensures Next(cfg, s, step) == Some(mid)
  {
  }

  lemma BeginsStep(cfg: Config, s: State, c: ClaimId)
    requires Ready(cfg, s, c)
    ensures Next(cfg, s, StartWorker(c)) == Some(PlanOf(s, c).begun)
  {
    ByRead(cfg, s, StartWorker(c), PlanOf(s, c).begun);
  }

  lemma GotStep(cfg: Config, s: State, c: ClaimId)
    requires Ready(cfg, s, c)
    ensures Next(cfg, PlanOf(s, c).begun, LoadClaimRow(c)) == Some(PlanOf(s, c).got)
  {
    AtAgain(s, c, Fresh, GotClaim(s.db.claims[c].approved, s.db.claims[c].claimant));
    ByRead(cfg, PlanOf(s, c).begun, LoadClaimRow(c), PlanOf(s, c).got);
  }

  lemma SigningStep(cfg: Config, s: State, c: ClaimId)
    requires Ready(cfg, s, c)
    ensures Next(cfg, PlanOf(s, c).got, LoadAssetRow(c, ColdSigner)) == Some(PlanOf(s, c).signing)
  {
    AtAgain(s, c, GotClaim(s.db.claims[c].approved, s.db.claims[c].claimant), Signing(Wire(s, c).effect, None));
    ByRead(cfg, PlanOf(s, c).got, LoadAssetRow(c, ColdSigner), PlanOf(s, c).signing);
  }

  lemma SignedStep(cfg: Config, s: State, c: ClaimId)
    requires Ready(cfg, s, c)
    ensures Next(cfg, PlanOf(s, c).signing, Sign(c, 0, s.chain.height)) == Some(PlanOf(s, c).signed)
  {
    AtAgain(s, c, Signing(Wire(s, c).effect, None), Persisting(Wire(s, c), s.chain.height, None));
    ByRead(cfg, PlanOf(s, c).signing, Sign(c, 0, s.chain.height), PlanOf(s, c).signed);
  }

  lemma PersistedStep(cfg: Config, s: State, c: ClaimId)
    requires Ready(cfg, s, c)
    ensures Next(cfg, PlanOf(s, c).signed, DoPersist(c)) == Some(PlanOf(s, c).persisted)
  {
    AtAgain(s, c, Persisting(Wire(s, c), s.chain.height, None), Broadcasting(Wire(s, c), s.chain.height));
    ByWrite(cfg, PlanOf(s, c).signed, DoPersist(c), PlanOf(s, c).persisted);
  }

  lemma SentStep(cfg: Config, s: State, c: ClaimId)
    requires Ready(cfg, s, c)
    ensures Next(cfg, PlanOf(s, c).persisted, Broadcast(c, true)) == Some(PlanOf(s, c).sent)
  {
    ByWrite(cfg, PlanOf(s, c).persisted, Broadcast(c, true), PlanOf(s, c).sent);
  }

  lemma LandedStep(cfg: Config, s: State, c: ClaimId)
    requires Ready(cfg, s, c)
    ensures Next(cfg, PlanOf(s, c).sent, LandTx(Wire(s, c), true)) == Some(PlanOf(s, c).landed)
  {
    ByChain(cfg, PlanOf(s, c).sent, LandTx(Wire(s, c), true), PlanOf(s, c).landed);
  }

  lemma SampledStep(cfg: Config, s: State, c: ClaimId)
    requires Ready(cfg, s, c)
    ensures Next(cfg, PlanOf(s, c).landed, SampleHeight(c, s.chain.height)) == Some(PlanOf(s, c).sampled)
  {
    ByRead(cfg, PlanOf(s, c).landed, SampleHeight(c, s.chain.height), PlanOf(s, c).sampled);
  }

  lemma AnsweredStep(cfg: Config, s: State, c: ClaimId)
    requires Ready(cfg, s, c)
    ensures Next(cfg, PlanOf(s, c).sampled, ReadStatus(c, Seen(false, true), false)) == Some(PlanOf(s, c).answered)
  {
    var inline := Inline(Wire(s, c), Wire(s, c).lastValid);
    AtAgain(PlanOf(s, c).landed, c, Sampled(inline, s.chain.height), Answered(inline, ConfirmState.Confirmed));
    ByRead(cfg, PlanOf(s, c).sampled, ReadStatus(c, Seen(false, true), false), PlanOf(s, c).answered);
  }

  lemma DoneStep(cfg: Config, s: State, c: ClaimId)
    requires Ready(cfg, s, c)
    ensures Next(cfg, PlanOf(s, c).answered, ActOnAnswer(c)) == Some(PlanOf(s, c).done)
  {
    var landed := PlanOf(s, c).landed;
    var pc := Answered(Inline(Wire(s, c), Wire(s, c).lastValid), ConfirmState.Confirmed);
    assert landed.threads[c := pc] - {c} == landed.threads - {c};
    ByWrite(cfg, PlanOf(s, c).answered, ActOnAnswer(c), PlanOf(s, c).done);
  }

  lemma PersistKeepsRow(cfg: Config, s: State, c: ClaimId)
    requires Ready(cfg, s, c)
    ensures var k := s.db.claims[c].asset;
            var db := Persist(s.db, c, k, Wire(s, c), Wire(s, c).lastValid, None).0;
            c in db.claims && !db.claims[c].status.Confirmed? && db.claims[c].asset == k && k in db.assets
  {
  }

  lemma FinalizeSettles(db: Db, c: ClaimId, tx: Tx)
    requires c in db.claims && !db.claims[c].status.Confirmed? && db.claims[c].asset in db.assets
    ensures var db' := Finalize(db, c, tx);
            c in db'.claims && db'.claims[c].status.Confirmed?
            && db.claims[c].asset in db'.assets && db'.assets[db.claims[c].asset].status.Claimed?
  {
  }

  /** The claim is confirmed, its asset claimed, its wire landed. */
  predicate Settled(s: State, s': State, c: ClaimId)
    requires HandingOver(s, c)
  {
    && c in s'.db.claims && s'.db.claims[c].status.Confirmed? && Wire(s, c) in s'.chain.ok
    && s.db.claims[c].asset in s'.db.assets && s'.db.assets[s.db.claims[c].asset].status.Claimed?
  }

  /** What holds at the end of the schedule. */
  lemma DonePays(cfg: Config, s: State, c: ClaimId)
    requires Ready(cfg, s, c)
    ensures Settled(s, PlanOf(s, c).done, c)
  {
    PersistKeepsRow(cfg, s, c);
    FinalizeSettles(PlanOf(s, c).landed.db, c, Wire(s, c));
  }

  function Resting(s: State): Run {
    Run([s], [])
  }

  function Before(s: State, step: Step, w: Run): Run {
    Run([s] + w.states, [step] + w.steps)
  }

  lemma WalkGrows(cfg: Config, s: State, step: Step, w: Run)
    requires Walk(cfg, w) && Next(cfg, s, step) == Some(w.states[0])
    ensures Walk(cfg, Before(s, step, w))
  {
    var all := Before(s, step, w);
    forall i | 0 <= i < |all.steps| ensures Steps(cfg, all, i) {
      if i > 0 {
        assert Steps(cfg, w, i - 1);
      }
    }
  }

  function FromSent(p: Schedule, c: ClaimId, tx: Tx, height: nat): Run {
    Before(p.sent, LandTx(tx, true),
           Before(p.landed, SampleHeight(c, height),
                  Before(p.sampled, ReadStatus(c, Seen(false, true), false),
                         Before(p.answered, ActOnAnswer(c), Resting(p.done)))))
  }

  function LaidOut(s: State, p: Schedule, c: ClaimId, tx: Tx, height: nat): Run {
    Before(s, StartWorker(c),
           Before(p.begun, LoadClaimRow(c),
                  Before(p.got, LoadAssetRow(c, ColdSigner),
                         Before(p.signing, Sign(c, 0, height),
                                Before(p.signed, DoPersist(c),
                                       Before(p.persisted, Broadcast(c, true), FromSent(p, c, tx, height)))))))
  }

  /** The schedule as a walk. */
  function Payment(s: State, c: ClaimId): Run
    requires HandingOver(s, c)
  {
    LaidOut(s, PlanOf(s, c), c, Wire(s, c), s.chain.height)
  }

  lemma PaymentIsWalk(cfg: Config, s: State, c: ClaimId)
    requires Ready(cfg, s, c)
    ensures Walk(cfg, Payment(s, c))
  {
    var p, tx, height := PlanOf(s, c), Wire(s, c), s.chain.height;
    var w := Resting(p.done);
    DoneStep(cfg, s, c);
    WalkGrows(cfg, p.answered, ActOnAnswer(c), w);
    w := Before(p.answered, ActOnAnswer(c), w);
    AnsweredStep(cfg, s, c);
    WalkGrows(cfg, p.sampled, ReadStatus(c, Seen(false, true), false), w);
    w := Before(p.sampled, ReadStatus(c, Seen(false, true), false), w);
    SampledStep(cfg, s, c);
    WalkGrows(cfg, p.landed, SampleHeight(c, height), w);
    w := Before(p.landed, SampleHeight(c, height), w);
    LandedStep(cfg, s, c);
    WalkGrows(cfg, p.sent, LandTx(tx, true), w);
    w := Before(p.sent, LandTx(tx, true), w);
    SentStep(cfg, s, c);
    WalkGrows(cfg, p.persisted, Broadcast(c, true), w);
    w := Before(p.persisted, Broadcast(c, true), w);
    PersistedStep(cfg, s, c);
    WalkGrows(cfg, p.signed, DoPersist(c), w);
    w := Before(p.signed, DoPersist(c), w);
    SignedStep(cfg, s, c);
    WalkGrows(cfg, p.signing, Sign(c, 0, height), w);
    w := Before(p.signing, Sign(c, 0, height), w);
    SigningStep(cfg, s, c);
    WalkGrows(cfg, p.got, LoadAssetRow(c, ColdSigner), w);
    w := Before(p.got, LoadAssetRow(c, ColdSigner), w);
    GotStep(cfg, s, c);
    WalkGrows(cfg, p.begun, LoadClaimRow(c), w);
    w := Before(p.begun, LoadClaimRow(c), w);
    BeginsStep(cfg, s, c);
    WalkGrows(cfg, s, StartWorker(c), w);
  }
}
