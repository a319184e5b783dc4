/**
 The reconciliation report over the dispatched set, and when a reachable state passes it. Its three
 queries are separate statements, so each may see a later state than the one before.
 */
module Reconcile {
  import opened Prelude
  import opened Chain
  import opened Rows
  import opened Protocol
  import opened Invariant
  import opened Bookkeeping
  import opened Runs

  /** One row of the confirmed-claims query. */
  datatype ConfirmedRow = ConfirmedRow(
    claim: ClaimId, key: AssetKey, kind: AssetKind, settlement: Option<nat>, amount: Option<nat>,
    sig: Option<Tx>, status: AssetStatus)

  /** One row of the audit query: events counted for a confirmed claim. */
  datatype AuditCount = AuditCount(claim: ClaimId, started: nat, confirmed: nat)

  datatype Issue =
    | NoSignature(c: ClaimId) | AssetNotClaimed(c: ClaimId) | AntWithAmount(c: ClaimId)
    | NoSettlement(c: ClaimId) | Mismatch(c: ClaimId) | DoubleDispense(k: AssetKey, n: nat)
    | Orphan(k: AssetKey) | MissingStarted(c: ClaimId) | MissingConfirmed(c: ClaimId)

  datatype Report = Report(
    ok: bool, confirmedClaims: nat, claimedAssets: nat, dispatched: nat, claimed: nat,
    antConfirmed: nat, issues: seq<Issue>)

  // ---------------------------------------------------------------------------
  // The checker
  // ---------------------------------------------------------------------------

  function Count(rows: seq<ConfirmedRow>, k: AssetKey): nat {
    if rows == [] then 0
    else Count(rows[..|rows| - 1], k) + if rows[|rows| - 1].key == k then 1 else 0
  }

  predicate RowClean(row: ConfirmedRow) {
    && row.sig.Some? && row.status.Claimed?
    && (if row.kind.Ant? then row.settlement.GetOr(0) == 0
        else row.settlement.Some? && row.settlement.value == row.amount.GetOr(0))
  }

  function Value(row: ConfirmedRow): nat {
    if row.kind.Ant? then 0 else row.settlement.GetOr(0)
  }

  function Dispensed(rows: seq<ConfirmedRow>): nat {
    if rows == [] then 0 else Dispensed(rows[..|rows| - 1]) + Value(rows[|rows| - 1])
  }

  /** The ledger's value of the rows that carry a settlement. */
  function Ledgered(rows: seq<ConfirmedRow>): nat {
    if rows == [] then 0
    else
      var row := rows[|rows| - 1];
      Ledgered(rows[..|rows| - 1]) + if row.kind.Ant? || row.settlement.None? then 0 else row.amount.GetOr(0)
  }

  function Ants(rows: seq<ConfirmedRow>): nat {
    if rows == [] then 0 else Ants(rows[..|rows| - 1]) + if rows[|rows| - 1].kind.Ant? then 1 else 0
  }

  /** What the report calls ok. */
  ghost predicate Clean(rows: seq<ConfirmedRow>, claimed: seq<AssetKey>, counts: seq<AuditCount>) {
    && (forall i :: 0 <= i < |rows| ==> RowClean(rows[i]))
    && (forall k :: Count(rows, k) <= 1)
    && (forall j :: 0 <= j < |claimed| ==> Count(rows, claimed[j]) >= 1)
    && (forall n :: 0 <= n < |counts| ==> counts[n].started >= 1 && counts[n].confirmed >= 1)
  }

  /** The complaints about one confirmed row, in the order they are raised. */
  function RowIssues(row: ConfirmedRow): (issues: seq<Issue>)
    ensures issues == [] <==> RowClean(row)
  {
    (if row.sig.None? then [NoSignature(row.claim)] else [])
    + (if !row.status.Claimed? then [AssetNotClaimed(row.claim)] else [])
    + (if row.kind.Ant? then
         if row.settlement.GetOr(0) != 0 then [AntWithAmount(row.claim)] else []
       else if row.settlement.None? then [NoSettlement(row.claim)]
       else if row.settlement.value != row.amount.GetOr(0) then [Mismatch(row.claim)] else [])
  }

  /** What the totals and counters are, row by row. */
  lemma TotalsAddUp(rows: seq<ConfirmedRow>, row: ConfirmedRow, k: AssetKey)
    ensures Dispensed([]) == 0 && Ledgered([]) == 0 && Ants([]) == 0 && Count([], k) == 0
    ensures var hot := row.kind.Token? || row.kind.Vault?;
            && Dispensed(rows + [row]) == Dispensed(rows) + (if hot && row.settlement.Some? then row.settlement.value else 0)
            && Ledgered(rows + [row]) ==
               Ledgered(rows) + (if hot && row.settlement.Some? && row.amount.Some? then row.amount.value else 0)
            && Ants(rows + [row]) == Ants(rows) + (if hot then 0 else 1)
            && Count(rows + [row], k) == Count(rows, k) + (if row.key == k then 1 else 0)
  {
    assert (rows + [row])[..|rows|] == rows;
  }

  /** When there is something to complain about. */
  ghost predicate Complains(rows: seq<ConfirmedRow>, claimed: seq<AssetKey>, counts: seq<AuditCount>, issue: Issue) {
    match issue
    case DoubleDispense(k, n) => n == Count(rows, k) && n >= 2
    case Orphan(k) => k in claimed && forall row :: row in rows ==> row.key != k
    case MissingStarted(c) => exists m :: m in counts && m.claim == c && m.started == 0
    case MissingConfirmed(c) => exists m :: m in counts && m.claim == c && m.confirmed == 0
    case _ => exists row :: row in rows && RowComplains(row, issue)
  }

  /** The complaints about one row: its signature, its asset, and its amount. */
  predicate RowComplains(row: ConfirmedRow, issue: Issue) {
    match issue
    case NoSignature(c) => c == row.claim && row.sig.None?
    case AssetNotClaimed(c) => c == row.claim && row.status != Claimed
    case AntWithAmount(c) => c == row.claim && row.kind.Ant? && row.settlement.Some? && row.settlement.value > 0
    case NoSettlement(c) => c == row.claim && !row.kind.Ant? && row.settlement.None?
    case Mismatch(c) =>
      && c == row.claim && !row.kind.Ant? && row.settlement.Some?
      && row.settlement.value != if row.amount.Some? then row.amount.value else 0
    case _ => false
  }

  lemma RowIssuesComplain(row: ConfirmedRow, issue: Issue)
    ensures issue in RowIssues(row) <==> RowComplains(row, issue)
  {
  }

  ghost predicate AllRowsClean(rows: seq<ConfirmedRow>) {
    forall i :: 0 <= i < |rows| ==> RowClean(rows[i])
  }

  /** First loop: per-row complaints, both totals, and how often each asset was seen. */
  method TallyRows(confirmed: seq<ConfirmedRow>)
    returns (issues: seq<Issue>, dispatched: nat, claimed: nat, ants: nat, seen: map<AssetKey, nat>)
    ensures issues == [] <==> AllRowsClean(confirmed)
    ensures issues == [] ==> claimed == dispatched
    ensures dispatched == Dispensed(confirmed) && claimed == Ledgered(confirmed) && ants == Ants(confirmed)
    ensures forall k :: k in seen <==> Count(confirmed, k) > 0
    ensures forall k :: k in seen ==> seen[k] == Count(confirmed, k)
    ensures forall issue :: issue in issues <==> exists row :: row in confirmed && RowComplains(row, issue)
  {
    issues, dispatched, claimed, ants, seen := [], 0, 0, 0, map[];
    for i := 0 to |confirmed|
      invariant issues == [] <==> AllRowsClean(confirmed[..i])
      invariant issues == [] ==> claimed == dispatched
      invariant dispatched == Dispensed(confirmed[..i]) && claimed == Ledgered(confirmed[..i]) && ants == Ants(confirmed[..i])
      invariant forall k :: k in seen <==> Count(confirmed[..i], k) > 0
      invariant forall k :: k in seen ==> seen[k] == Count(confirmed[..i], k)
      invariant forall issue :: issue in issues <==> exists row :: row in confirmed[..i] && RowComplains(row, issue)
    {
      var row := confirmed[i];
      forall issue ensures issue in RowIssues(row) <==> RowComplains(row, issue) {
        RowIssuesComplain(row, issue);
      }
      var was, now := confirmed[..i], confirmed[..i + 1];
      assert now == was + [row] && now[..|now| - 1] == was;
      seen := seen[row.key := (if row.key in seen then seen[row.key] else 0) + 1];
      issues := issues + RowIssues(row);
      assert AllRowsClean(now) <==> AllRowsClean(was) && RowClean(row) by {
        assert AllRowsClean(now) ==> RowClean(now[i]);
        assert forall m :: 0 <= m < i ==> now[m] == was[m];
      }
      if row.kind.Ant? {
        ants := ants + 1;
      } else if row.settlement.Some? {
        dispatched := dispatched + row.settlement.value;
        claimed := claimed + row.amount.GetOr(0);
      }
    }
    assert confirmed[..|confirmed|] == confirmed;
  }

  /** Second loop: every asset with more than one confirmed claim, with its number. */
  method FindDoubles(ghost confirmed: seq<ConfirmedRow>, seen: map<AssetKey, nat>) returns (issues: seq<Issue>)
    requires forall k :: k in seen <==> Count(confirmed, k) > 0
    requires forall k :: k in seen ==> seen[k] == Count(confirmed, k)
    ensures forall k :: Count(confirmed, k) > 1 <==> DoubleDispense(k, Count(confirmed, k)) in issues
    ensures issues == [] <==> forall k :: Count(confirmed, k) <= 1
    ensures forall issue :: issue in issues <==> issue.DoubleDispense? && issue.n == Count(confirmed, issue.k) >= 2
  {
    issues := [];
    var keys := seen.Keys;
    while keys != {}
      invariant keys <= seen.Keys
      invariant forall issue :: issue in issues <==>
                  issue.DoubleDispense? && issue.k in seen && issue.k !in keys
                  && issue.n == Count(confirmed, issue.k) > 1
      decreases |keys|
    {
      var k :| k in keys;
      keys := keys - {k};
      if seen[k] > 1 {
        issues := issues + [DoubleDispense(k, seen[k])];
      }
    }
    if k :| Count(confirmed, k) > 1 {
      assert DoubleDispense(k, Count(confirmed, k)) in issues;
    }
    if issues != [] {
      assert issues[0] in issues && Count(confirmed, issues[0].k) > 1;
    }
  }

  /** Third loop: claimed assets without a confirmed claim. */
  method FindOrphans(claimedAssets: seq<AssetKey>, seen: map<AssetKey, nat>) returns (issues: seq<Issue>)
    ensures issues == [] <==> forall j :: 0 <= j < |claimedAssets| ==> claimedAssets[j] in seen
    ensures forall issue :: issue in issues <==> issue.Orphan? && issue.k in claimedAssets && issue.k !in seen
  {
    issues := [];
    for j := 0 to |claimedAssets|
      invariant issues == [] <==> forall m :: 0 <= m < j ==> claimedAssets[m] in seen
      invariant forall issue :: issue in issues <==> issue.Orphan? && issue.k in claimedAssets[..j] && issue.k !in seen
    {
      if claimedAssets[j] !in seen {
        issues := issues + [Orphan(claimedAssets[j])];
      }
    }
  }

  /** An audit event of the claim is missing. */
  predicate Misses(m: AuditCount, issue: Issue) {
    (issue == MissingStarted(m.claim) && m.started == 0) || (issue == MissingConfirmed(m.claim) && m.confirmed == 0)
  }

  /** Fourth loop: confirmed claims without both audit events. */
  method FindMissing(counts: seq<AuditCount>) returns (issues: seq<Issue>)
    ensures issues == [] <==> forall n :: 0 <= n < |counts| ==> counts[n].started >= 1 && counts[n].confirmed >= 1
    ensures forall issue :: issue in issues <==> exists m :: m in counts && Misses(m, issue)
  {
    issues := [];
    for n := 0 to |counts|
      invariant issues == [] <==> forall m :: 0 <= m < n ==> counts[m].started >= 1 && counts[m].confirmed >= 1
      invariant forall issue :: issue in issues <==> exists m :: m in counts[..n] && Misses(m, issue)
    {
      ghost var before, was, now := issues, counts[..n], counts[..n + 1];
      assert now == was + [counts[n]];
      assert forall m :: m in now <==> m in was || m == counts[n];
      if counts[n].started < 1 {
        issues := issues + [MissingStarted(counts[n].claim)];
      }
      if counts[n].confirmed < 1 {
        issues := issues + [MissingConfirmed(counts[n].claim)];
      }
      assert forall issue :: issue in issues <==> issue in before || Misses(counts[n], issue);
    }
    assert counts[..|counts|] == counts;
  }

  method ReconcileDispatch(confirmed: seq<ConfirmedRow>, claimedAssets: seq<AssetKey>, auditCounts: seq<AuditCount>)
    returns (report: Report)
    ensures report.ok <==> Clean(confirmed, claimedAssets, auditCounts)
    ensures report.ok <==> report.issues == []
    ensures report.dispatched == Dispensed(confirmed) && report.claimed == Ledgered(confirmed)
    ensures report.ok ==> report.claimed == report.dispatched
    ensures report.antConfirmed == Ants(confirmed)
    ensures report.confirmedClaims == |confirmed| && report.claimedAssets == |claimedAssets|
    ensures forall k :: Count(confirmed, k) > 1 ==> DoubleDispense(k, Count(confirmed, k)) in report.issues
    ensures forall issue :: issue in report.issues <==> Complains(confirmed, claimedAssets, auditCounts, issue)
  {
    var issues, dispatched, claimed, ants, seen := TallyRows(confirmed);
    var doubles := FindDoubles(confirmed, seen);
    var orphans := FindOrphans(claimedAssets, seen);
    var missing := FindMissing(auditCounts);
    forall k ensures k in seen <==> exists row :: row in confirmed && row.key == k {
      CountPresent(confirmed, k);
    }
    issues := issues + doubles + orphans + missing;
    report := Report(issues == [], |confirmed|, |claimedAssets|, dispatched, claimed, ants, issues);
  }

  // ---------------------------------------------------------------------------
  // The queries
  // ---------------------------------------------------------------------------

  /** An optional restriction to a set of assets. */
  predicate InScope(scope: Option<set<AssetKey>>, k: AssetKey) {
    scope.None? || k in scope.value
  }

  predicate Selected(db: Db, scope: Option<set<AssetKey>>, c: ClaimId) {
    && c in db.claims && db.claims[c].status.Confirmed?
    && InScope(scope, db.claims[c].asset)
  }

  function RowOf(db: Db, c: ClaimId): ConfirmedRow
    requires c in db.claims && db.claims[c].asset in db.assets
  {
    var cl := db.claims[c];
    var a := db.assets[cl.asset];
    ConfirmedRow(c, cl.asset, a.kind, cl.settlement, a.amount, cl.sig, a.status)
  }

  /** The confirmed claims joined with their assets, each once, in any order. */
  ghost predicate ConfirmedQuery(db: Db, scope: Option<set<AssetKey>>, rows: seq<ConfirmedRow>) {
    && (forall i :: 0 <= i < |rows| ==>
          && Selected(db, scope, rows[i].claim)
          && db.claims[rows[i].claim].asset in db.assets
          && rows[i] == RowOf(db, rows[i].claim))
    && (forall i, j :: 0 <= i < j < |rows| ==> rows[i].claim != rows[j].claim)
    && (forall c :: Selected(db, scope, c) && db.claims[c].asset in db.assets ==> RowOf(db, c) in rows)
  }

  ghost predicate ClaimedQuery(db: Db, scope: Option<set<AssetKey>>, keys: seq<AssetKey>) {
    forall k :: k in keys <==> k in db.assets && db.assets[k].status.Claimed? && InScope(scope, k)
  }

  function Occurrences(audit: seq<AuditRow>, row: AuditRow): nat {
    if audit == [] then 0 else (if audit[0] == row then 1 else 0) + Occurrences(audit[1..], row)
  }

  ghost predicate AuditQuery(db: Db, scope: Option<set<AssetKey>>, counts: seq<AuditCount>) {
    forall n :: 0 <= n < |counts| ==>
      && Selected(db, scope, counts[n].claim)
      && counts[n].started == Occurrences(db.audit, AuditRow(DispatchStarted, Some(counts[n].claim)))
      && counts[n].confirmed == Occurrences(db.audit, AuditRow(DispatchConfirmed, Some(counts[n].claim)))
  }

  lemma {:induction false} PresentOccurs(audit: seq<AuditRow>, row: AuditRow)
    requires row in audit
    ensures Occurrences(audit, row) >= 1
  {
    if audit[0] != row {
      PresentOccurs(audit[1..], row);
    }
  }

  lemma {:induction false} CountPresent(rows: seq<ConfirmedRow>, k: AssetKey)
    ensures Count(rows, k) >= 1 <==> exists i :: 0 <= i < |rows| && rows[i].key == k
  {
    if rows != [] {
      var init := rows[..|rows| - 1];
      CountPresent(init, k);
      if exists i :: 0 <= i < |rows| - 1 && rows[i].key == k {
        var i :| 0 <= i < |rows| - 1 && rows[i].key == k;
        assert init[i].key == k;
      }
    }
  }

  lemma {:induction false} CountDistinct(rows: seq<ConfirmedRow>, k: AssetKey)
    requires forall i, j :: 0 <= i < j < |rows| ==> rows[i].key != rows[j].key
    ensures Count(rows, k) <= 1
  {
    if rows != [] {
      var init := rows[..|rows| - 1];
      CountDistinct(init, k);
      CountPresent(init, k);
    }
  }

  // ---------------------------------------------------------------------------
  // Reachable states
  // ---------------------------------------------------------------------------

  lemma RowsAreClean(cfg: Config, s: State, scope: Option<set<AssetKey>>, rows: seq<ConfirmedRow>)
    requires Inv(cfg, s) && ConfirmedQuery(s.db, scope, rows)
    ensures forall i :: 0 <= i < |rows| ==> RowClean(rows[i])
    ensures forall i, j :: 0 <= i < j < |rows| ==> rows[i].key != rows[j].key
  {
    forall i | 0 <= i < |rows| ensures RowClean(rows[i]) {
      assert ClaimIn(cfg, s, rows[i].claim);
      assert ShapeOk(AssetOf(s, rows[i].claim));
    }
  }

  /** Asset k has a row exactly when it is claimed and in scope. */
  lemma RowIffClaimed(cfg: Config, s: State, scope: Option<set<AssetKey>>, rows: seq<ConfirmedRow>, k: AssetKey)
    requires Inv(cfg, s) && ConfirmedQuery(s.db, scope, rows)
    ensures (exists i :: 0 <= i < |rows| && rows[i].key == k)
            <==> k in s.db.assets && s.db.assets[k].status.Claimed? && InScope(scope, k)
  {
    if k in s.db.assets && s.db.assets[k].status.Claimed? && InScope(scope, k) {
      var c := s.winner[k];
      assert ClaimIn(cfg, s, c);
      assert Selected(s.db, scope, c);
      assert RowOf(s.db, c) in rows;
    }
    if i :| 0 <= i < |rows| && rows[i].key == k {
      assert ClaimIn(cfg, s, rows[i].claim);
    }
  }

  lemma AuditIsClean(s: State, scope: Option<set<AssetKey>>, counts: seq<AuditCount>, cfg: Config)
    requires Inv(cfg, s) && AuditOk(s.db) && AuditQuery(s.db, scope, counts)
    ensures forall n :: 0 <= n < |counts| ==> counts[n].started >= 1 && counts[n].confirmed >= 1
  {
    forall n | 0 <= n < |counts| ensures counts[n].started >= 1 && counts[n].confirmed >= 1 {
      var c := counts[n].claim;
      assert ClaimIn(cfg, s, c) && ClaimLogged(s.db.audit, c, s.db.claims[c]);
      PresentOccurs(s.db.audit, AuditRow(DispatchStarted, Some(c)));
      PresentOccurs(s.db.audit, AuditRow(DispatchConfirmed, Some(c)));
    }
  }

  ghost predicate NewlyClaimed(x: Db, y: Db, scope: Option<set<AssetKey>>, k: AssetKey) {
    && InScope(scope, k) && k in y.assets && y.assets[k].status.Claimed?
    && !(k in x.assets && x.assets[k].status.Claimed?)
  }

  /**
   With the three queries taken at instants i <= j <= l of a run, the report is ok exactly when no
   asset in scope was settled between the first two; in particular whenever nothing moves in between.
   */
  lemma ReportOkExactly(cfg: Config, r: Run, i: nat, j: nat, l: nat, scope: Option<set<AssetKey>>,
                        rows: seq<ConfirmedRow>, claimed: seq<AssetKey>, counts: seq<AuditCount>)
    requires IsRun(cfg, r) && i <= j <= l < |r.states|
    requires ConfirmedQuery(r.states[i].db, scope, rows)
    requires ClaimedQuery(r.states[j].db, scope, claimed)
    requires AuditQuery(r.states[l].db, scope, counts)
    ensures Clean(rows, claimed, counts)
            <==> forall k :: !NewlyClaimed(r.states[i].db, r.states[j].db, scope, k)
  {
    EveryStateIsSafe(cfg, r, i);
    EveryStateIsSafe(cfg, r, l);
    var x, y := r.states[i], r.states[j];
    RowsAreClean(cfg, x, scope, rows);
    AuditIsClean(r.states[l], scope, counts, cfg);
    forall k ensures Count(rows, k) <= 1 {
      CountDistinct(rows, k);
    }
    forall k ensures Count(rows, k) >= 1 <==> k in x.db.assets && x.db.assets[k].status.Claimed? && InScope(scope, k) {
      CountPresent(rows, k);
      RowIffClaimed(cfg, x, scope, rows, k);
    }
    if k :| NewlyClaimed(x.db, y.db, scope, k) {
      assert k in claimed;
    } else {
      forall m | 0 <= m < |claimed| ensures Count(rows, claimed[m]) >= 1 {
        assert claimed[m] in claimed;
        assert !NewlyClaimed(x.db, y.db, scope, claimed[m]);
      }
    }
  }
}
