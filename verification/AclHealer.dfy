/**
 The heal sweep: pending ANT claims are visited oldest first, a few per pass, and a claim that keeps
 failing is parked, so no claim is visited more often than its attempts allow and the queue drains.
 */
module AclHealer {
  import opened Prelude
  import opened Chain
  import opened AntAcl

  /** The heal columns of a confirmed ANT claim; parked and healed rows both have a heal time. */
  datatype HealRow = HealRow(confirmedAt: Option<nat>, done: bool, attempts: nat)

  datatype Outcome = Healed | Already | Aborted | FailedToVerify | Threw

  datatype Summary = Summary(scanned: nat, healed: nat, already: nat, aborted: nat, failed: nat)

  /** What one heal attempt comes to when nobody else touches the ANT. */
  function OutcomeOf(w: World, p: Params, s: Snapshot): Outcome {
    var plan := PlanHeal(s, p);
    if plan.aborted then Aborted
    else if plan.alreadyHealed then Already
    else if FullyHealed(AfterHeal(w, plan), p) then Healed
    else FailedToVerify
  }

  /** Read, plan, apply, and read again to verify; the chain is given and its next state returned. */
  method HealOne(w: World, p: Params) returns (outcome: Outcome, w': World)
    ensures exists s :: SnapshotOf(w, p, s) && outcome == OutcomeOf(w, p, s) && w' == AfterHeal(w, PlanHeal(s, p))
    ensures if w.mplOwner != Some(p.claimant) then outcome == Aborted && w' == w
            else if FullyHealed(w, p) then outcome == Already && w' == w
            else outcome == if FullyHealed(w', p) then Healed else FailedToVerify
  {
    var s := ReadSnapshot(w, p, {}, {});
    NothingToDoMeansHealed(w, p, s);
    var plan := PlanAclHeal(s, p);
    w' := AfterHeal(w, plan);
    if plan.aborted {
      outcome := Aborted;
    } else if plan.alreadyHealed {
      outcome := Already;
    } else {
      var again := ReadSnapshot(w', p, {}, {});
      VerifyIsExact(w', p, again);
      outcome := if VerifySnapshot(again, p) then Healed else FailedToVerify;
    }
  }

  type Rows = map<ClaimId, HealRow>

  predicate Unhealed(rows: Rows, c: ClaimId) {
    c in rows && !rows[c].done
  }

  /** Rows without a confirmation time come first, then the oldest. */
  predicate Before(a: HealRow, b: HealRow) {
    || (a.confirmedAt.None? && b.confirmedAt.Some?)
    || (a.confirmedAt.Some? && b.confirmedAt.Some? && a.confirmedAt.value < b.confirmedAt.value)
  }

  /** The selected batch: distinct pending claims, none overtaken, short only if nothing else is pending. */
  ghost predicate Batch(rows: Rows, limit: nat, picked: seq<ClaimId>) {
    && (forall i :: 0 <= i < |picked| ==> Unhealed(rows, picked[i]))
    && (forall i, j :: 0 <= i < j < |picked| ==> picked[i] != picked[j])
    && |picked| <= limit
    && (|picked| < limit ==> forall c :: Unhealed(rows, c) ==> c in picked)
    && (forall i, c :: 0 <= i < |picked| && Unhealed(rows, c) && c !in picked ==> !Before(rows[c], rows[picked[i]]))
  }

  /** No pending claim is passed over for a later one: rows without a confirmation time go first, and then the oldest. */
  lemma OldestGoFirst(rows: Rows, limit: nat, picked: seq<ClaimId>, i: nat, c: ClaimId)
    requires Batch(rows, limit, picked) && i < |picked| && Unhealed(rows, c) && c !in picked
    ensures rows[picked[i]].confirmedAt.None?
            || (rows[c].confirmedAt.Some? && rows[picked[i]].confirmedAt.value <= rows[c].confirmedAt.value)
  {
    assert Unhealed(rows, picked[i]);
  }

  /** One visit: a failure counts an attempt and parks the claim at the limit; anything else ends it. */
  function Visit(row: HealRow, outcome: Outcome, maxAttempts: int): HealRow {
    match outcome
    case FailedToVerify => row.(attempts := row.attempts + 1, done := row.attempts + 1 >= maxAttempts)
    case Threw => row.(attempts := row.attempts + 1, done := row.attempts + 1 >= maxAttempts)
    case _ => row.(done := true)
  }

  function VisitAll(rows: Rows, picked: seq<ClaimId>, outcomes: seq<Outcome>, maxAttempts: int): Rows
    requires |outcomes| == |picked| && forall i :: 0 <= i < |picked| ==> picked[i] in rows
  {
    if picked == [] then rows
    else
      VisitAll(rows[picked[0] := Visit(rows[picked[0]], outcomes[0], maxAttempts)], picked[1..], outcomes[1..], maxAttempts)
  }

  /**
   What one pass leaves: a visit that failed or threw has cost an attempt and parks the claim at the limit, any other
   visit has ended it, and rows that were not picked are as they were.
   */
  ghost predicate Swept(was: Rows, now: Rows, picked: seq<ClaimId>, outcomes: seq<Outcome>, maxAttempts: int)
    requires |outcomes| == |picked| && forall i :: 0 <= i < |picked| ==> picked[i] in was
  {
    && now.Keys == was.Keys
    && (forall c :: c in was && c !in picked ==> now[c] == was[c])
    && (forall i :: 0 <= i < |picked| ==>
          var row := was[picked[i]];
          now[picked[i]] ==
          if outcomes[i].FailedToVerify? || outcomes[i].Threw?
          then HealRow(row.confirmedAt, maxAttempts <= row.attempts + 1, row.attempts + 1)
          else HealRow(row.confirmedAt, true, row.attempts))
  }

  function HowMany(outcomes: seq<Outcome>, what: Outcome): nat {
    if outcomes == [] then 0
    else HowMany(outcomes[..|outcomes| - 1], what) + if outcomes[|outcomes| - 1] == what then 1 else 0
  }

  lemma OneMore(outcomes: seq<Outcome>, i: nat, what: Outcome)
    requires i < |outcomes|
    ensures HowMany(outcomes[..i + 1], what) == HowMany(outcomes[..i], what) + if outcomes[i] == what then 1 else 0
  {
    assert outcomes[..i + 1][..i] == outcomes[..i];
  }

  /** The summary counts the outcomes of the visits so far. */
  predicate Counted(sum: Summary, outcomes: seq<Outcome>) {
    && sum.healed == HowMany(outcomes, Healed) && sum.already == HowMany(outcomes, Already)
    && sum.aborted == HowMany(outcomes, Aborted)
    && sum.failed == HowMany(outcomes, FailedToVerify) + HowMany(outcomes, Threw)
    && sum.healed + sum.already + sum.aborted + sum.failed == |outcomes|
  }

  function Added(sum: Summary, outcome: Outcome): Summary {
    match outcome
    case Healed => sum.(healed := sum.healed + 1)
    case Already => sum.(already := sum.already + 1)
    case Aborted => sum.(aborted := sum.aborted + 1)
    case _ => sum.(failed := sum.failed + 1)
  }

  /** The summary of a pass over scanned rows. */
  function Summed(outcomes: seq<Outcome>, scanned: nat): Summary {
    if outcomes == [] then Summary(scanned, 0, 0, 0, 0)
    else Added(Summed(outcomes[..|outcomes| - 1], scanned), outcomes[|outcomes| - 1])
  }

  lemma {:induction false} SummedCounts(outcomes: seq<Outcome>, scanned: nat)
    ensures Summed(outcomes, scanned).scanned == scanned && Counted(Summed(outcomes, scanned), outcomes)
  {
    if outcomes != [] {
      var n := |outcomes| - 1;
      SummedCounts(outcomes[..n], scanned);
      CountedOne(Summed(outcomes[..n], scanned), outcomes, n);
      assert outcomes[..n + 1] == outcomes;
    }
  }

  lemma CountedOne(sum: Summary, outcomes: seq<Outcome>, i: nat)
    requires i < |outcomes| && Counted(sum, outcomes[..i])
    ensures Counted(Added(sum, outcomes[i]), outcomes[..i + 1])
  {
    OneMore(outcomes, i, Healed);
    OneMore(outcomes, i, Already);
    OneMore(outcomes, i, Aborted);
    OneMore(outcomes, i, FailedToVerify);
    OneMore(outcomes, i, Threw);
  }

  class Healer {
    const maxAttempts: int
    var rows: Rows

    constructor (maxAttempts: Option<int>, rows: Rows)
      ensures this.maxAttempts == maxAttempts.GetOr(5) && this.rows == rows
    {
      this.maxAttempts := maxAttempts.GetOr(5);
      this.rows := rows;
    }

    method MarkDone(c: ClaimId)
      requires c in rows
      modifies this`rows
      ensures rows == old(rows)[c := old(rows)[c].(done := true)]
    {
      rows := rows[c := rows[c].(done := true)];
    }

    method RecordFailure(c: ClaimId, priorAttempts: nat)
      requires c in rows && rows[c].attempts == priorAttempts && !rows[c].done
      modifies this`rows
      ensures rows == old(rows)[c := Visit(old(rows)[c], Threw, maxAttempts)]
      ensures rows == old(rows)[c := old(rows)[c].(attempts := priorAttempts + 1, done := maxAttempts <= priorAttempts + 1)]
    {
      var attempts := priorAttempts + 1;
      if attempts >= maxAttempts {
        rows := rows[c := rows[c].(done := true, attempts := attempts)];
      } else {
        rows := rows[c := rows[c].(attempts := attempts)];
      }
    }

    method VisitOne(c: ClaimId, outcome: Outcome, sum: Summary) returns (more: Summary)
      requires c in rows && !rows[c].done
      modifies this`rows
      ensures rows == old(rows)[c := Visit(old(rows)[c], outcome, maxAttempts)] && more == Added(sum, outcome)
    {
      match outcome {
        case Healed =>
          MarkDone(c);
          more := sum.(healed := sum.healed + 1);
        case Already =>
          MarkDone(c);
          more := sum.(already := sum.already + 1);
        case Aborted =>
          MarkDone(c);
          more := sum.(aborted := sum.aborted + 1);
        case FailedToVerify =>
          RecordFailure(c, rows[c].attempts);
          more := sum.(failed := sum.failed + 1);
        case Threw =>
          RecordFailure(c, rows[c].attempts);
          more := sum.(failed := sum.failed + 1);
      }
    }

    /** One pass; what healing each picked claim came to is given in order. */
    method SweepOnce(limit: nat, picked: seq<ClaimId>, outcomes: seq<Outcome>) returns (sum: Summary)
      requires Batch(rows, limit, picked) && |outcomes| == |picked|
      modifies this`rows
      ensures rows == VisitAll(old(rows), picked, outcomes, maxAttempts)
      ensures Swept(old(rows), rows, picked, outcomes, maxAttempts)
      ensures sum.scanned == |picked| && Counted(sum, outcomes)
    {
      sum := Summary(|picked|, 0, 0, 0, 0);
      for i := 0 to |picked|
        invariant rows.Keys == old(rows).Keys
        invariant VisitAll(old(rows), picked, outcomes, maxAttempts) == VisitAll(rows, picked[i..], outcomes[i..], maxAttempts)
        invariant forall j :: i <= j < |picked| ==> rows[picked[j]] == old(rows)[picked[j]]
        invariant sum == Summed(outcomes[..i], |picked|)
      {
        assert outcomes[..i + 1][..i] == outcomes[..i];
        assert picked[i..][1..] == picked[i + 1..] && outcomes[i..][1..] == outcomes[i + 1..];
        assert Unhealed(old(rows), picked[i]);
        sum := VisitOne(picked[i], outcomes[i], sum);
      }
      assert outcomes[..|picked|] == outcomes;
      SummedCounts(outcomes, |picked|);
      SweptAll(old(rows), picked, outcomes, maxAttempts);
    }
  }

  // ---------------------------------------------------------------------------
  // Bounded retries
  // ---------------------------------------------------------------------------

  /** Visits a row can still get. */
  function Left(row: HealRow, maxAttempts: int): nat {
    if row.done then 0 else if row.attempts < maxAttempts then maxAttempts - row.attempts else 1
  }

  function Times(picked: seq<ClaimId>, c: ClaimId): nat {
    if picked == [] then 0 else (if picked[0] == c then 1 else 0) + Times(picked[1..], c)
  }

  predicate Distinct(picked: seq<ClaimId>) {
    forall i, j :: 0 <= i < j < |picked| ==> picked[i] != picked[j]
  }

  /** A pass pays for every visit out of the visited row's budget. */
  lemma {:induction false} SweepPays(rows: Rows, picked: seq<ClaimId>, outcomes: seq<Outcome>, maxAttempts: int, c: ClaimId)
    requires |outcomes| == |picked| && Distinct(picked) && c in rows
    requires forall i :: 0 <= i < |picked| ==> picked[i] in rows && Unhealed(rows, picked[i])
    ensures var rows' := VisitAll(rows, picked, outcomes, maxAttempts);
            && rows'.Keys == rows.Keys
            && Times(picked, c) + Left(rows'[c], maxAttempts) <= Left(rows[c], maxAttempts)
            && (c !in picked ==> rows'[c] == rows[c])
    decreases |picked|
  {
    if picked != [] {
      var mid := rows[picked[0] := Visit(rows[picked[0]], outcomes[0], maxAttempts)];
      forall i | 0 <= i < |picked[1..]| ensures picked[1..][i] in mid && Unhealed(mid, picked[1..][i]) {
        assert picked[1..][i] == picked[i + 1] != picked[0];
      }
      assert Distinct(picked[1..]);
      SweepPays(mid, picked[1..], outcomes[1..], maxAttempts, c);
      if c == picked[0] {
        assert c !in picked[1..];
        NeverTwice(picked[1..], c);
      }
    }
  }

  lemma {:induction false} NeverTwice(picked: seq<ClaimId>, c: ClaimId)
    requires c !in picked
    ensures Times(picked, c) == 0
  {
    if picked != [] {
      NeverTwice(picked[1..], c);
    }
  }

  datatype Sweep = Sweep(picked: seq<ClaimId>, outcomes: seq<Outcome>)

  /** A row table after a number of passes over the same claims. */
  ghost predicate Sweeps(states: seq<Rows>, sweeps: seq<Sweep>, limit: nat, maxAttempts: int) {
    && |states| == |sweeps| + 1
    && forall n :: 0 <= n < |sweeps| ==> SweepAt(states, sweeps, limit, maxAttempts, n)
  }

  ghost predicate SweepAt(states: seq<Rows>, sweeps: seq<Sweep>, limit: nat, maxAttempts: int, n: nat)
    requires n < |sweeps| && |states| == |sweeps| + 1
  {
    && |sweeps[n].outcomes| == |sweeps[n].picked|
    && Batch(states[n], limit, sweeps[n].picked)
    && states[n + 1] == VisitAll(states[n], sweeps[n].picked, sweeps[n].outcomes, maxAttempts)
  }

  function Visits(sweeps: seq<Sweep>, c: ClaimId): nat {
    if sweeps == [] then 0 else Visits(sweeps[..|sweeps| - 1], c) + Times(sweeps[|sweeps| - 1].picked, c)
  }

  /** Over any number of passes a claim is visited at most as often as its budget, whatever the visits come to. */
  lemma {:induction false} VisitsAreBounded(states: seq<Rows>, sweeps: seq<Sweep>, limit: nat, maxAttempts: int, c: ClaimId)
    requires Sweeps(states, sweeps, limit, maxAttempts) && c in states[0]
    ensures c in states[|sweeps|]
    ensures Visits(sweeps, c) + Left(states[|sweeps|][c], maxAttempts) <= Left(states[0][c], maxAttempts)
    decreases |sweeps|
  {
    if sweeps != [] {
      var n := |sweeps| - 1;
      var early, init := states[..n + 1], sweeps[..n];
      forall m | 0 <= m < n ensures SweepAt(early, init, limit, maxAttempts, m) {
        assert SweepAt(states, sweeps, limit, maxAttempts, m);
      }
      VisitsAreBounded(early, init, limit, maxAttempts, c);
      assert SweepAt(states, sweeps, limit, maxAttempts, n);
      SweepPays(states[n], sweeps[n].picked, sweeps[n].outcomes, maxAttempts, c);
    }
  }

  /** A fresh claim is visited at most max(1, maxAttempts) times. */
  lemma FreshClaimBound(states: seq<Rows>, sweeps: seq<Sweep>, limit: nat, maxAttempts: int, c: ClaimId)
    requires Sweeps(states, sweeps, limit, maxAttempts) && c in states[0] && states[0][c].attempts == 0
    ensures Visits(sweeps, c) <= if maxAttempts > 1 then maxAttempts else 1
  {
    VisitsAreBounded(states, sweeps, limit, maxAttempts, c);
  }

  ghost function Budget(rows: Rows, maxAttempts: int): nat {
    Sum(map c | c in rows :: Left(rows[c], maxAttempts))
  }

  /** A pass that finds work spends some of the total budget. */
  lemma SweepSpends(rows: Rows, picked: seq<ClaimId>, outcomes: seq<Outcome>, maxAttempts: int, limit: nat)
    requires |outcomes| == |picked| && Batch(rows, limit, picked) && picked != []
    ensures Budget(VisitAll(rows, picked, outcomes, maxAttempts), maxAttempts) < Budget(rows, maxAttempts)
  {
    var rows' := VisitAll(rows, picked, outcomes, maxAttempts);
    var m, n := map c | c in rows :: Left(rows[c], maxAttempts), map c | c in rows' :: Left(rows'[c], maxAttempts);
    var c := picked[0];
    assert Unhealed(rows, c);
    forall d | d in rows ensures rows'.Keys == rows.Keys && Left(rows'[d], maxAttempts) <= Left(rows[d], maxAttempts) {
      SweepPays(rows, picked, outcomes, maxAttempts, d);
    }
    SweepPays(rows, picked, outcomes, maxAttempts, c);
    SumSplit(m, c);
    SumSplit(n, c);
    SumMonotone(n - {c}, m - {c});
  }

  /** With no new arrivals the queue is empty after as many passes as the total budget, even if every visit fails. */
  lemma {:induction false} QueueDrains(states: seq<Rows>, sweeps: seq<Sweep>, limit: nat, maxAttempts: int)
    requires Sweeps(states, sweeps, limit, maxAttempts) && limit > 0
    requires |sweeps| >= Budget(states[0], maxAttempts)
    ensures forall c :: !Unhealed(states[|sweeps|], c)
    decreases |sweeps|
  {
    if sweeps == [] {
      forall c | Unhealed(states[0], c) ensures Left(states[0][c], maxAttempts) <= Budget(states[0], maxAttempts) {
        SumAtLeast(map d | d in states[0] :: Left(states[0][d], maxAttempts), c);
      }
    } else {
      assert SweepAt(states, sweeps, limit, maxAttempts, 0);
      SweepsShift(states, sweeps, limit, maxAttempts);
      if sweeps[0].picked != [] {
        SweepSpends(states[0], sweeps[0].picked, sweeps[0].outcomes, maxAttempts, limit);
      } else {
        NothingLeft(states[0], maxAttempts);
      }
      QueueDrains(states[1..], sweeps[1..], limit, maxAttempts);
    }
  }

  lemma SweepsShift(states: seq<Rows>, sweeps: seq<Sweep>, limit: nat, maxAttempts: int)
    requires Sweeps(states, sweeps, limit, maxAttempts) && sweeps != []
    ensures Sweeps(states[1..], sweeps[1..], limit, maxAttempts)
  {
    forall n | 0 <= n < |sweeps[1..]| ensures SweepAt(states[1..], sweeps[1..], limit, maxAttempts, n) {
      assert SweepAt(states, sweeps, limit, maxAttempts, n + 1);
    }
  }

  lemma NothingLeft(rows: Rows, maxAttempts: int)
    requires forall c :: !Unhealed(rows, c)
    ensures Budget(rows, maxAttempts) == 0
  {
    var m := map c | c in rows :: Left(rows[c], maxAttempts);
    assert forall c :: c in m ==> m[c] == 0 by {
      forall c | c in m ensures m[c] == 0 {
        assert !Unhealed(rows, c);
      }
    }
    AllZero(m);
  }

  // ---------------------------------------------------------------------------
  // How many visits an ANT takes
  // ---------------------------------------------------------------------------

  /** Visits an undisturbed ANT still takes: a repairable one as many as it has old entries, as far as the budget goes. */
  function Needed(row: HealRow, maxAttempts: int, w: World, p: Params): nat {
    var left := Left(row, maxAttempts);
    if row.done then 0
    else if w.mplOwner != Some(p.claimant) then 1
    else if Beyond(w, p) then left
    else
      var runs := if OwnerCopies(w, p.oldOwner) > 1 then OwnerCopies(w, p.oldOwner) else 1;
      if runs < left then runs else left
  }

  /** Every visit brings the claim one visit closer to being done. */
  lemma VisitCountsDown(row: HealRow, maxAttempts: int, w: World, p: Params, s: Snapshot)
    requires SnapshotOf(w, p, s) && WithinCap(w) && !row.done
    ensures var w' := AfterHeal(w, PlanHeal(s, p));
            var row' := Visit(row, OutcomeOf(w, p, s), maxAttempts);
            && Needed(row', maxAttempts, w', p) == Needed(row, maxAttempts, w, p) - 1
            && WithinCap(w')
  {
    NothingToDoMeansHealed(w, p, s);
    HealsExactly(w, p, s);
    TransactKeeps(w, PlanHeal(s, p).ixs);
    if w.mplOwner == Some(p.claimant) && p.oldOwner != p.claimant {
      PlanSucceeds(w, p, s);
    }
  }

  /** What a pass does to the ANT of claim c: one attempt if the claim is picked, nothing otherwise. */
  ghost predicate Undisturbed(sweep: Sweep, c: ClaimId, p: Params, w: World, w': World) {
    && (c !in sweep.picked ==> w' == w)
    && (forall q :: 0 <= q < |sweep.picked| && q < |sweep.outcomes| && sweep.picked[q] == c ==> Attempt(p, w, sweep.outcomes[q], w'))
  }

  ghost predicate Attempt(p: Params, w: World, outcome: Outcome, w': World) {
    exists s :: SnapshotOf(w, p, s) && outcome == OutcomeOf(w, p, s) && w' == AfterHeal(w, PlanHeal(s, p))
  }

  lemma {:induction false} PickedRow(rows: Rows, picked: seq<ClaimId>, outcomes: seq<Outcome>, maxAttempts: int, q: nat)
    requires |outcomes| == |picked| && Distinct(picked) && q < |picked|
    requires forall i :: 0 <= i < |picked| ==> picked[i] in rows
    ensures picked[q] in VisitAll(rows, picked, outcomes, maxAttempts)
    ensures VisitAll(rows, picked, outcomes, maxAttempts)[picked[q]] == Visit(rows[picked[q]], outcomes[q], maxAttempts)
    decreases |picked|
  {
    var mid := rows[picked[0] := Visit(rows[picked[0]], outcomes[0], maxAttempts)];
    assert forall i :: 0 <= i < |picked[1..]| ==> picked[1..][i] == picked[i + 1];
    if q == 0 {
      NotPickedRow(mid, picked[1..], outcomes[1..], maxAttempts, picked[0]);
    } else {
      PickedRow(mid, picked[1..], outcomes[1..], maxAttempts, q - 1);
    }
  }

  lemma {:induction false} NotPickedRow(rows: Rows, picked: seq<ClaimId>, outcomes: seq<Outcome>, maxAttempts: int, c: ClaimId)
    requires |outcomes| == |picked| && c !in picked && c in rows
    requires forall i :: 0 <= i < |picked| ==> picked[i] in rows
    ensures c in VisitAll(rows, picked, outcomes, maxAttempts)
    ensures VisitAll(rows, picked, outcomes, maxAttempts)[c] == rows[c]
    decreases |picked|
  {
    if picked != [] {
      NotPickedRow(rows[picked[0] := Visit(rows[picked[0]], outcomes[0], maxAttempts)], picked[1..], outcomes[1..], maxAttempts, c);
    }
  }

  lemma SweptAll(rows: Rows, picked: seq<ClaimId>, outcomes: seq<Outcome>, maxAttempts: int)
    requires |outcomes| == |picked| && Distinct(picked) && forall i :: 0 <= i < |picked| ==> picked[i] in rows
    ensures Swept(rows, VisitAll(rows, picked, outcomes, maxAttempts), picked, outcomes, maxAttempts)
  {
    VisitKeepsKeys(rows, picked, outcomes, maxAttempts);
    forall c | c in rows && c !in picked ensures VisitAll(rows, picked, outcomes, maxAttempts)[c] == rows[c] {
      NotPickedRow(rows, picked, outcomes, maxAttempts, c);
    }
    forall i | 0 <= i < |picked|
      ensures VisitAll(rows, picked, outcomes, maxAttempts)[picked[i]] == Visit(rows[picked[i]], outcomes[i], maxAttempts)
    {
      PickedRow(rows, picked, outcomes, maxAttempts, i);
    }
  }

  lemma {:induction false} VisitKeepsKeys(rows: Rows, picked: seq<ClaimId>, outcomes: seq<Outcome>, maxAttempts: int)
    requires |outcomes| == |picked| && forall i :: 0 <= i < |picked| ==> picked[i] in rows
    ensures VisitAll(rows, picked, outcomes, maxAttempts).Keys == rows.Keys
    decreases |picked|
  {
    if picked != [] {
      var mid := rows[picked[0] := Visit(rows[picked[0]], outcomes[0], maxAttempts)];
      assert forall i :: 0 <= i < |picked[1..]| ==> picked[1..][i] == picked[i + 1];
      assert mid.Keys == rows.Keys;
      VisitKeepsKeys(mid, picked[1..], outcomes[1..], maxAttempts);
    }
  }

  lemma {:induction false} OnceIfPicked(picked: seq<ClaimId>, c: ClaimId, q: nat)
    requires Distinct(picked) && q < |picked| && picked[q] == c
    ensures Times(picked, c) == 1
  {
    if q == 0 {
      NeverTwice(picked[1..], c);
    } else {
      assert Distinct(picked[1..]);
      OnceIfPicked(picked[1..], c, q - 1);
    }
  }

  /**
   Over any number of passes over an undisturbed ANT: visits made and visits still needed add up. So the claim
   is done after exactly the visits needed: the first one when the ANT is healable or not the claimant's, one
   more for every further duplicate of the old entry, and max(1, maxAttempts) when it is beyond repair.
   */
  lemma {:induction false} DoneAfterExactly(states: seq<Rows>, sweeps: seq<Sweep>, limit: nat, maxAttempts: int,
                                            c: ClaimId, p: Params, ws: seq<World>)
    requires Sweeps(states, sweeps, limit, maxAttempts) && c in states[0] && |ws| == |states| && WithinCap(ws[0])
    requires forall n :: 0 <= n < |sweeps| ==> Undisturbed(sweeps[n], c, p, ws[n], ws[n + 1])
    ensures c in states[|sweeps|] && WithinCap(ws[|sweeps|])
    ensures Visits(sweeps, c) + Needed(states[|sweeps|][c], maxAttempts, ws[|sweeps|], p)
            == Needed(states[0][c], maxAttempts, ws[0], p)
    decreases |sweeps|
  {
    if sweeps != [] {
      var n := |sweeps| - 1;
      var early, init := states[..n + 1], sweeps[..n];
      forall m | 0 <= m < n ensures SweepAt(early, init, limit, maxAttempts, m) {
        assert SweepAt(states, sweeps, limit, maxAttempts, m);
      }
      DoneAfterExactly(early, init, limit, maxAttempts, c, p, ws[..n + 1]);
      assert SweepAt(states, sweeps, limit, maxAttempts, n);
      PassCountsDown(states[n], sweeps[n], limit, maxAttempts, c, p, ws[n], ws[n + 1]);
    }
  }

  lemma PassCountsDown(rows: Rows, sweep: Sweep, limit: nat, maxAttempts: int, c: ClaimId, p: Params, w: World, w': World)
    requires |sweep.outcomes| == |sweep.picked| && Batch(rows, limit, sweep.picked) && c in rows
    requires WithinCap(w) && Undisturbed(sweep, c, p, w, w')
    ensures var rows' := VisitAll(rows, sweep.picked, sweep.outcomes, maxAttempts);
            c in rows' && WithinCap(w')
            && Times(sweep.picked, c) + Needed(rows'[c], maxAttempts, w', p) == Needed(rows[c], maxAttempts, w, p)
  {
    assert forall i :: 0 <= i < |sweep.picked| ==> Unhealed(rows, sweep.picked[i]);
    if c in sweep.picked {
      var q: nat :| q < |sweep.picked| && sweep.picked[q] == c;
      assert Attempt(p, w, sweep.outcomes[q], w');
      var s :| SnapshotOf(w, p, s) && sweep.outcomes[q] == OutcomeOf(w, p, s) && w' == AfterHeal(w, PlanHeal(s, p));
      PickedRow(rows, sweep.picked, sweep.outcomes, maxAttempts, q);
      OnceIfPicked(sweep.picked, c, q);
      assert Unhealed(rows, c);
      VisitCountsDown(rows[c], maxAttempts, w, p, s);
    } else {
      NotPickedRow(rows, sweep.picked, sweep.outcomes, maxAttempts, c);
      NeverTwice(sweep.picked, c);
    }
  }

  /** A healable ANT is done at its first visit; one with a lingering controller exactly when its budget is spent. */
  lemma HealableAndLingering(states: seq<Rows>, sweeps: seq<Sweep>, limit: nat, maxAttempts: int,
                             c: ClaimId, p: Params, ws: seq<World>)
    requires Sweeps(states, sweeps, limit, maxAttempts) && c in states[0] && |ws| == |states| && WithinCap(ws[0])
    requires ws[0].mplOwner == Some(p.claimant)
    requires forall n :: 0 <= n < |sweeps| ==> Undisturbed(sweeps[n], c, p, ws[n], ws[n + 1])
    requires states[0][c].attempts == 0 && !states[0][c].done
    ensures c in states[|sweeps|]
    ensures Healable(ws[0], p) ==> (states[|sweeps|][c].done <==> Visits(sweeps, c) == 1)
    ensures Beyond(ws[0], p) ==>
              (states[|sweeps|][c].done <==> Visits(sweeps, c) == if maxAttempts > 1 then maxAttempts else 1)
  {
    DoneAfterExactly(states, sweeps, limit, maxAttempts, c, p, ws);
  }
}
