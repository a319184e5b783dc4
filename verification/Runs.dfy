/**
 The theorems about whole runs: any interleaving of API, approver, reaper, rebuild, operator batches,
 dispatchers, crashes and chain events, from an empty claim table on.
 */
module Runs {
  import opened Prelude
  import opened Chain
  import opened Protocol
  import opened Invariant
  import opened Preservation
  import opened Monotonicity
  import opened Bookkeeping
  import opened Float
  import opened Brake
  import opened Finality

  ghost predicate IsRun(cfg: Config, r: Run) {
    Walk(cfg, r) && Initial(r.states[0])
  }

  /** One run after the other, the second from where the first ended. */
  function Then(r: Run, w: Run): Run
    requires |r.states| > 0
  {
    Run(r.states[..|r.states| - 1] + w.states, r.steps + w.steps)
  }

  lemma RunsContinue(cfg: Config, r: Run, w: Run)
    requires IsRun(cfg, r) && Walk(cfg, w) && w.states[0] == r.states[|r.steps|]
    ensures IsRun(cfg, Then(r, w)) && r.states <= Then(r, w).states && r.steps <= Then(r, w).steps
  {
    WalksContinue(cfg, r, w);
  }

  lemma WalksContinue(cfg: Config, r: Run, w: Run)
    requires Walk(cfg, r) && Walk(cfg, w) && w.states[0] == r.states[|r.steps|]
    ensures Walk(cfg, Then(r, w))
    ensures Then(r, w).states[0] == r.states[0] && Then(r, w).states[|Then(r, w).steps|] == w.states[|w.steps|]
  {
    var all, n := Then(r, w), |r.steps|;
    forall i | 0 <= i < |all.steps| ensures Steps(cfg, all, i) {
      if i < n {
        assert Steps(cfg, r, i);
      } else {
        assert Steps(cfg, w, i - n);
      }
    }
  }

  /** Everything that is kept by every step. */
  ghost predicate Safe(cfg: Config, s: State) {
    && Inv(cfg, s) && BatchesOk(s) && AuditOk(s.db) && BrakeOk(cfg, s) && WinsOk(s)
    && (Good(cfg) ==> Solvent(s))
  }

  lemma InitialSafe(cfg: Config, s: State)
    requires Initial(s)
    ensures Safe(cfg, s)
  {
    InitialInv(cfg, s);
    InitialBrake(cfg, s);
    assert FlightMap(s) == map[];
  }

  lemma StepKeepsSafe(cfg: Config, s: State, step: Step, s': State)
    requires Safe(cfg, s) && Next(cfg, s, step) == Some(s')
    ensures Safe(cfg, s')
  {
    StepKeepsInv(cfg, s, step, s');
    StepKeepsBatches(cfg, s, step, s');
    StepKeepsAudit(cfg, s, step, s');
    StepKeepsBrake(cfg, s, step, s');
    StepKeepsWins(cfg, s, step, s');
    if Good(cfg) {
      StepKeepsSolvency(cfg, s, step, s');
    }
  }

  lemma {:induction false} EveryStateIsSafe(cfg: Config, r: Run, i: nat)
    requires IsRun(cfg, r) && i < |r.states|
    ensures Safe(cfg, r.states[i])
  {
    if i == 0 {
      InitialSafe(cfg, r.states[0]);
    } else {
      EveryStateIsSafe(cfg, r, i - 1);
      assert Steps(cfg, r, i - 1);
      StepKeepsSafe(cfg, r.states[i - 1], r.steps[i - 1], r.states[i]);
    }
  }

  /** The part of it that the dispatchers' own claims need. */
  lemma SafeRows(cfg: Config, s: State)
    requires Safe(cfg, s)
    ensures References(s) && ClaimsOk(cfg, s) && ThreadsOk(cfg, s)
  {
  }

  lemma EveryStateHasSafeRows(cfg: Config, r: Run, i: nat)
    requires IsRun(cfg, r) && i < |r.states|
    ensures References(r.states[i]) && ClaimsOk(cfg, r.states[i]) && ThreadsOk(cfg, r.states[i])
  {
    EveryStateIsSafe(cfg, r, i);
    SafeRows(cfg, r.states[i]);
  }

  /** How a later state of a run relates to an earlier one. */
  ghost predicate Ahead(s: State, s': State) {
    && DbEvolves(s.db, s'.db) && Later(s.chain, s'.chain)
    && TerminalKept(s.db, s'.db) && WinnersStay(s, s')
    && (forall b :: b in s.db.batches && s.db.batches[b].status.Completed? ==>
          b in s'.db.batches && s'.db.batches[b] == s.db.batches[b])
  }

  lemma StepGoesAhead(cfg: Config, s: State, step: Step, s': State)
    requires Safe(cfg, s) && Next(cfg, s, step) == Some(s')
    ensures Ahead(s, s')
  {
    StepEvolves(cfg, s, step, s');
    StepKeepsTerminal(cfg, s, step, s');
    StepKeepsWins(cfg, s, step, s');
    forall b | b in s.db.batches && s.db.batches[b].status.Completed?
      ensures b in s'.db.batches && s'.db.batches[b] == s.db.batches[b]
    {
      CompletedStays(cfg, s, step, s', b);
    }
  }

  lemma AheadIsTransitive(a: State, b: State, c: State)
    requires Ahead(a, b) && Ahead(b, c)
    ensures Ahead(a, c)
  {
    DbEvolvesTransitive(a.db, b.db, c.db);
    LaterIsTransitive(a.chain, b.chain, c.chain);
  }

  lemma NextStateIsAhead(cfg: Config, r: Run, i: nat)
    requires IsRun(cfg, r) && i < |r.steps|
    ensures Ahead(r.states[i], r.states[i + 1])
  {
    EveryStateIsSafe(cfg, r, i);
    assert Steps(cfg, r, i);
    StepGoesAhead(cfg, r.states[i], r.steps[i], r.states[i + 1]);
  }

  lemma {:induction false} RunGoesAhead(cfg: Config, r: Run, i: nat, j: nat)
    requires IsRun(cfg, r) && i <= j < |r.states|
    ensures Ahead(r.states[i], r.states[j])
    decreases j
  {
    if i < j {
      RunGoesAhead(cfg, r, i, j - 1);
      NextStateIsAhead(cfg, r, j - 1);
      AheadIsTransitive(r.states[i], r.states[j - 1], r.states[j]);
    }
  }
}
