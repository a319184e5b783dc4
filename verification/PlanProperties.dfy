/**
 What a successful ledger build guarantees: distinct keys, known recipients, conservation of value,
 independence of the pinned clock, the lock minimums, and whose recipient is claimable.
 */
module PlanProperties {
  import opened Prelude
  import opened VaultRules
  import opened LedgerInputs
  import opened LedgerPlan

  ghost function Entries(inp: Inputs, d: Deriver): seq<Entry> {
    EarlyEntries(inp, d) + LateEntries(inp, d)
  }

  /** A successful build is one pass over all entries from the loaded recipients. */
  lemma BuildIsOnePass(inp: Inputs, d: Deriver, nowMs: int)
    requires Build(inp, d, nowMs).Ok?
    ensures Loaded(inp, d).Ok?
    ensures Build(inp, d, nowMs) ==
            DepositAll(inp, d, nowMs, St(Loaded(inp, d).value, [], NO_TOTALS), Entries(inp, d))
  {
    DepositAllSplits(inp, d, nowMs, St(Loaded(inp, d).value, [], NO_TOTALS), EarlyEntries(inp, d), LateEntries(inp, d));
  }

  /** Claimable means that the owner's key can be resolved. */
  predicate Claimable(inp: Inputs, d: Deriver, owner: string) {
    Resolve(inp, d, owner).Ok? && Resolve(inp, d, owner).value.Some?
  }

  // ---------------------------------------------------------------------------
  // Keys, recipients, layout
  // ---------------------------------------------------------------------------

  ghost predicate WellPlanned(st: St) {
    && (forall i, j :: 0 <= i < j < |st.assets| ==> st.assets[i].key != st.assets[j].key)
    && (forall i :: 0 <= i < |st.assets| ==> st.assets[i].source in st.recipients)
  }

  /** Each entry becomes one asset, in order, claimable exactly when its owner resolves. */
  ghost predicate LaidOut(inp: Inputs, d: Deriver, nowMs: int, st: St, es: seq<Entry>, st': St) {
    && |st'.assets| == |st.assets| + |es|
    && st.assets <= st'.assets
    && forall i :: 0 <= i < |es| ==>
         st'.assets[|st.assets| + i] == Render(es[i], Claimable(inp, d, es[i].owner), nowMs)
  }

  lemma {:induction false} PassLaysOut(inp: Inputs, d: Deriver, nowMs: int, st: St, es: seq<Entry>)
    requires DepositAll(inp, d, nowMs, st, es).Ok? && WellPlanned(st)
    ensures var st' := DepositAll(inp, d, nowMs, st, es).value;
            LaidOut(inp, d, nowMs, st, es, st') && WellPlanned(st')
    decreases |es|
  {
    if es != [] {
      var mid := Deposit(inp, d, nowMs, st, es[0]).value;
      assert mid.assets == st.assets + [Render(es[0], Claimable(inp, d, es[0].owner), nowMs)];
      assert st.recipients.Keys <= mid.recipients.Keys;
      PassLaysOut(inp, d, nowMs, mid, es[1..]);
      var st' := DepositAll(inp, d, nowMs, st, es).value;
      forall i | 0 <= i < |es|
        ensures st'.assets[|st.assets| + i] == Render(es[i], Claimable(inp, d, es[i].owner), nowMs)
      {
        if i > 0 {
          assert es[1..][i - 1] == es[i];
          assert |mid.assets| + (i - 1) == |st.assets| + i;
        } else {
          assert st'.assets[|st.assets|] == mid.assets[|st.assets|];
        }
      }
    }
  }

  /** Asset keys are unique, every asset's recipient is in the plan, and nothing is dropped or added. */
  lemma PlanIsWellFormed(inp: Inputs, d: Deriver, nowMs: int)
    requires Build(inp, d, nowMs).Ok?
    ensures var plan := Build(inp, d, nowMs).value;
            && WellPlanned(plan)
            && |plan.assets| == |Entries(inp, d)|
            && forall i :: 0 <= i < |plan.assets| ==>
                 plan.assets[i] == Render(Entries(inp, d)[i], Claimable(inp, d, Entries(inp, d)[i].owner), nowMs)
  {
    BuildIsOnePass(inp, d, nowMs);
    PassLaysOut(inp, d, nowMs, St(Loaded(inp, d).value, [], NO_TOTALS), Entries(inp, d));
  }

  // ---------------------------------------------------------------------------
  // Conservation
  // ---------------------------------------------------------------------------

  function ClaimableSum(assets: seq<PlannedAsset>): int {
    if assets == [] then 0
    else
      var a := assets[|assets| - 1];
      ClaimableSum(assets[..|assets| - 1]) + if a.available then a.amount.GetOr(0) else 0
  }

  function AssetSum(assets: seq<PlannedAsset>): int {
    if assets == [] then 0
    else AssetSum(assets[..|assets| - 1]) + assets[|assets| - 1].amount.GetOr(0)
  }

  function EntrySum(es: seq<Entry>): int {
    if es == [] then 0 else es[0].amount.GetOr(0) + EntrySum(es[1..])
  }

  function Phases(t: Totals): int {
    t.phase2 + t.phase3 + t.phase4
  }

  /** Name entries have no amount. */
  predicate AntsCarryNothing(es: seq<Entry>) {
    forall i :: 0 <= i < |es| && es[i].source.FromAnt? ==> es[i].amount.None?
  }

  lemma {:induction false} PassConserves(inp: Inputs, d: Deriver, nowMs: int, st: St, es: seq<Entry>)
    requires DepositAll(inp, d, nowMs, st, es).Ok?
    requires AntsCarryNothing(es)
    ensures var st' := DepositAll(inp, d, nowMs, st, es).value;
            && ClaimableSum(st'.assets) - Phases(st'.totals) == ClaimableSum(st.assets) - Phases(st.totals)
            && AssetSum(st'.assets) == AssetSum(st.assets) + EntrySum(es)
    decreases |es|
  {
    if es != [] {
      var mid := Deposit(inp, d, nowMs, st, es[0]).value;
      assert mid.assets[..|mid.assets| - 1] == st.assets;
      PassConserves(inp, d, nowMs, mid, es[1..]);
    }
  }

  lemma {:induction false} EntrySumSplits(xs: seq<Entry>, ys: seq<Entry>)
    ensures EntrySum(xs + ys) == EntrySum(xs) + EntrySum(ys)
  {
    if xs == [] {
      assert xs + ys == ys;
    } else {
      assert (xs + ys)[1..] == xs[1..] + ys;
      EntrySumSplits(xs[1..], ys);
    }
  }

  /** The positive balances of unmapped owners. */
  function UnmappedBalances(inp: Inputs, rows: seq<(string, int)>): int {
    if rows == [] then 0
    else (if Mapped(inp, rows[0].0) || rows[0].1 <= 0 then 0 else rows[0].1) + UnmappedBalances(inp, rows[1..])
  }

  function PositiveVaults(vs: seq<PersonalVault>): int {
    if vs == [] then 0 else (if vs[0].balance <= 0 then 0 else vs[0].balance) + PositiveVaults(vs[1..])
  }

  /** The positive personal vaults of unmapped owners. */
  function UnmappedVaults(inp: Inputs, rows: seq<(string, seq<PersonalVault>)>): int {
    if rows == [] then 0
    else (if Mapped(inp, rows[0].0) then 0 else PositiveVaults(rows[0].1)) + UnmappedVaults(inp, rows[1..])
  }

  lemma {:induction false} AntEntriesWorth(inp: Inputs, d: Deriver, ants: seq<Ant>)
    ensures EntrySum(AntEntries(inp, d, ants)) == 0 && AntsCarryNothing(AntEntries(inp, d, ants))
  {
    if ants != [] {
      AntEntriesWorth(inp, d, ants[1..]);
      if !Mapped(inp, ants[0].owner) {
        assert AntEntries(inp, d, ants)[1..] == AntEntries(inp, d, ants[1..]);
      }
    }
  }

  lemma {:induction false} BalanceEntriesWorth(inp: Inputs, d: Deriver, rows: seq<(string, int)>)
    ensures EntrySum(BalanceEntries(inp, d, rows)) == UnmappedBalances(inp, rows) && AntsCarryNothing(BalanceEntries(inp, d, rows))
  {
    if rows != [] {
      BalanceEntriesWorth(inp, d, rows[1..]);
      if !(Mapped(inp, rows[0].0) || rows[0].1 <= 0) {
        assert BalanceEntries(inp, d, rows)[1..] == BalanceEntries(inp, d, rows[1..]);
      }
    }
  }

  lemma {:induction false} OwnerVaultsWorth(d: Deriver, owner: string, vs: seq<PersonalVault>)
    ensures EntrySum(OwnerVaultEntries(d, owner, vs)) == PositiveVaults(vs) && AntsCarryNothing(OwnerVaultEntries(d, owner, vs))
  {
    if vs != [] {
      OwnerVaultsWorth(d, owner, vs[1..]);
      if vs[0].balance > 0 {
        assert OwnerVaultEntries(d, owner, vs)[1..] == OwnerVaultEntries(d, owner, vs[1..]);
      }
    }
  }

  lemma {:induction false} VaultEntriesWorth(inp: Inputs, d: Deriver, rows: seq<(string, seq<PersonalVault>)>)
    ensures EntrySum(VaultEntries(inp, d, rows)) == UnmappedVaults(inp, rows) && AntsCarryNothing(VaultEntries(inp, d, rows))
  {
    if rows != [] {
      VaultEntriesWorth(inp, d, rows[1..]);
      OwnerVaultsWorth(d, rows[0].0, rows[0].1);
      EntrySumSplits(OwnerVaultEntries(d, rows[0].0, rows[0].1), VaultEntries(inp, d, rows[1..]));
    }
  }

  lemma {:induction false} StakeEntriesWorth(d: Deriver, vs: seq<VaultDeposit>)
    ensures EntrySum(StakeEntries(d, vs)) == Total(Map((v: VaultDeposit) => v.amount, vs)) && AntsCarryNothing(StakeEntries(d, vs))
  {
    if vs != [] {
      StakeEntriesWorth(d, vs[1..]);
      assert StakeEntries(d, vs)[1..] == StakeEntries(d, vs[1..]);
      assert Map((v: VaultDeposit) => v.amount, vs)[1..] == Map((v: VaultDeposit) => v.amount, vs[1..]);
    }
  }

  lemma {:induction false} LiquidEntriesWorth(d: Deriver, ls: seq<LiquidDeposit>)
    ensures EntrySum(LiquidEntries(d, ls)) == Total(Map((l: LiquidDeposit) => l.amount, ls)) && AntsCarryNothing(LiquidEntries(d, ls))
  {
    if ls != [] {
      LiquidEntriesWorth(d, ls[1..]);
      assert LiquidEntries(d, ls)[1..] == LiquidEntries(d, ls[1..]);
      assert Map((l: LiquidDeposit) => l.amount, ls)[1..] == Map((l: LiquidDeposit) => l.amount, ls[1..]);
    }
  }

  lemma LateEntriesWorth(inp: Inputs, d: Deriver)
    ensures EntrySum(LateEntries(inp, d)) == Total(Amounts(inp.plan)) && AntsCarryNothing(LateEntries(inp, d))
  {
    var stakes := Collect(inp.plan);
    StakeEntriesWorth(d, stakes.vaults);
    LiquidEntriesWorth(d, stakes.liquid);
    EntrySumSplits(StakeEntries(d, stakes.vaults), LiquidEntries(d, stakes.liquid));
    TotalSplits(Map((v: VaultDeposit) => v.amount, stakes.vaults), Map((l: LiquidDeposit) => l.amount, stakes.liquid));
    CollectKeepsAmounts(inp.plan);
  }

  lemma EarlyEntriesWorth(inp: Inputs, d: Deriver)
    ensures EntrySum(EarlyEntries(inp, d)) == UnmappedBalances(inp, inp.balances) + UnmappedVaults(inp, inp.vaults)
    ensures AntsCarryNothing(EarlyEntries(inp, d))
  {
    var ants, balances, vaults := AntEntries(inp, d, inp.ants), BalanceEntries(inp, d, inp.balances), VaultEntries(inp, d, inp.vaults);
    AntEntriesWorth(inp, d, inp.ants);
    BalanceEntriesWorth(inp, d, inp.balances);
    VaultEntriesWorth(inp, d, inp.vaults);
    EntrySumSplits(ants + balances, vaults);
    EntrySumSplits(ants, balances);
  }

  lemma EntriesWorth(inp: Inputs, d: Deriver)
    ensures EntrySum(Entries(inp, d)) ==
            UnmappedBalances(inp, inp.balances) + UnmappedVaults(inp, inp.vaults) + Total(Amounts(inp.plan))
    ensures AntsCarryNothing(Entries(inp, d))
  {
    EarlyEntriesWorth(inp, d);
    LateEntriesWorth(inp, d);
    EntrySumSplits(EarlyEntries(inp, d), LateEntries(inp, d));
    NothingCarriedTogether(EarlyEntries(inp, d), LateEntries(inp, d));
  }

  lemma NothingCarriedTogether(xs: seq<Entry>, ys: seq<Entry>)
    requires AntsCarryNothing(xs) && AntsCarryNothing(ys)
    ensures AntsCarryNothing(xs + ys)
  {
  }

  /**
   The claimable amounts are exactly the three phase totals, and all amounts together are exactly
   the unmapped inputs: no value is created or lost by routing.
   */
  lemma PlanConservesValue(inp: Inputs, d: Deriver, nowMs: int)
    requires Build(inp, d, nowMs).Ok?
    ensures var plan := Build(inp, d, nowMs).value;
            && ClaimableSum(plan.assets) == plan.totals.phase2 + plan.totals.phase3 + plan.totals.phase4
            && AssetSum(plan.assets) ==
               UnmappedBalances(inp, inp.balances) + UnmappedVaults(inp, inp.vaults) + Total(Amounts(inp.plan))
  {
    BuildIsOnePass(inp, d, nowMs);
    EntriesWorth(inp, d);
    PassFromNothing(inp, d, nowMs, Loaded(inp, d).value, Entries(inp, d));
  }

  lemma PassFromNothing(inp: Inputs, d: Deriver, nowMs: int, rs: Recipients, es: seq<Entry>)
    requires DepositAll(inp, d, nowMs, St(rs, [], NO_TOTALS), es).Ok? && AntsCarryNothing(es)
    ensures var st := DepositAll(inp, d, nowMs, St(rs, [], NO_TOTALS), es).value;
            ClaimableSum(st.assets) == Phases(st.totals) && AssetSum(st.assets) == EntrySum(es)
  {
    PassConserves(inp, d, nowMs, St(rs, [], NO_TOTALS), es);
  }

  // ---------------------------------------------------------------------------
  // Two clocks
  // ---------------------------------------------------------------------------

  /** Equal but for the deposit type and unlock time. */
  predicate SameClaim(a: PlannedAsset, b: PlannedAsset) {
    && a.key == b.key && a.source == b.source && a.mint == b.mint && a.amount == b.amount && a.available == b.available
    && (a.kind.AntType? <==> b.kind.AntType?)
  }

  ghost predicate SamePlan(x: St, y: St) {
    && x.recipients == y.recipients
    && |x.assets| == |y.assets|
    && (forall i :: 0 <= i < |x.assets| ==> SameClaim(x.assets[i], y.assets[i]))
    && x.totals.ants == y.totals.ants && x.totals.stakes == y.totals.stakes
    && x.totals.tokens + x.totals.vaults == y.totals.tokens + y.totals.vaults
    && x.totals.phase2 == y.totals.phase2 && x.totals.phase3 == y.totals.phase3 && x.totals.phase4 == y.totals.phase4
  }

  ghost predicate SameResult(x: Result<St>, y: Result<St>) {
    if x.Ok? && y.Ok? then SamePlan(x.value, y.value) else x == y
  }

  lemma DepositIgnoresClock(inp: Inputs, d: Deriver, s: int, t: int, x: St, y: St, e: Entry)
    requires SamePlan(x, y)
    ensures SameResult(Deposit(inp, d, s, x, e), Deposit(inp, d, t, y, e))
  {
    assert HasKey(x.assets, e.key) <==> HasKey(y.assets, e.key) by {
      if i :| 0 <= i < |x.assets| && x.assets[i].key == e.key {
        assert SameClaim(x.assets[i], y.assets[i]) && y.assets[i].key == e.key;
      }
      if i :| 0 <= i < |y.assets| && y.assets[i].key == e.key {
        assert SameClaim(x.assets[i], y.assets[i]) && x.assets[i].key == e.key;
      }
    }
  }

  lemma {:induction false} PassIgnoresClock(inp: Inputs, d: Deriver, s: int, t: int, x: St, y: St, es: seq<Entry>)
    requires SamePlan(x, y)
    ensures SameResult(DepositAll(inp, d, s, x, es), DepositAll(inp, d, t, y, es))
    decreases |es|
  {
    if es != [] {
      DepositIgnoresClock(inp, d, s, t, x, y, es[0]);
      var p, q := Deposit(inp, d, s, x, es[0]), Deposit(inp, d, t, y, es[0]);
      if p.Ok? && q.Ok? {
        PassIgnoresClock(inp, d, s, t, p.value, q.value, es[1..]);
      }
    }
  }

  /** The clock only routes: whether the build succeeds, what it holds and what it sums to do not depend on it. */
  lemma PlanIgnoresClock(inp: Inputs, d: Deriver, s: int, t: int)
    ensures SameResult(Build(inp, d, s), Build(inp, d, t))
  {
    if Loaded(inp, d).Ok? {
      var st := St(Loaded(inp, d).value, [], NO_TOTALS);
      PassIgnoresClock(inp, d, s, t, st, st, EarlyEntries(inp, d));
      var x, y := DepositAll(inp, d, s, st, EarlyEntries(inp, d)), DepositAll(inp, d, t, st, EarlyEntries(inp, d));
      if x.Ok? && y.Ok? {
        PassIgnoresClock(inp, d, s, t, x.value, y.value, LateEntries(inp, d));
      }
    }
  }

  // ---------------------------------------------------------------------------
  // Locks
  // ---------------------------------------------------------------------------

  /** The unlock of a planned vault against the lock its source asked for. */
  predicate LockFits(e: Entry, a: PlannedAsset, nowMs: int) {
    a.kind.VaultType? ==>
      && a.amount.Some? && a.amount.value >= MIN_VAULT_SIZE_MARIO
      && a.vaultEnd.Some? && a.vaultEnd.value - FloorSeconds(nowMs) >= MIN_VAULT_LOCK_SECONDS
      && match e.source
         case FromVault(endMs) =>
           && -1000 < 1000 * a.vaultEnd.value - endMs < 1000
           && (nowMs % 1000 == 0 ==> 1000 * a.vaultEnd.value >= endMs)
         case FromStake(kind, unlockTs) =>
           && a.vaultEnd.value >= unlockTs
           && (a.vaultEnd.value > unlockTs ==>
                 "withdrawal:operator-exit:" <= kind && a.vaultEnd.value == FloorSeconds(nowMs) + MIN_VAULT_LOCK_SECONDS)
         case _ => false
  }

  lemma RenderedLockFits(e: Entry, available: bool, nowMs: int)
    ensures LockFits(e, Render(e, available, nowMs), nowMs)
  {
    match e.source
    case FromVault(endMs) => SecondsRound(endMs, nowMs);
    case _ =>
  }

  lemma SecondsRound(endMs: int, nowMs: int)
    ensures var end := FloorSeconds(nowMs) + CeilSeconds(endMs - nowMs);
            -1000 < 1000 * end - endMs < 1000 && (nowMs % 1000 == 0 ==> 1000 * end >= endMs)
  {
    var x, y := nowMs, nowMs - endMs;
    assert x == 1000 * (x / 1000) + x % 1000 && 0 <= x % 1000 < 1000;
    assert y == 1000 * (y / 1000) + y % 1000 && 0 <= y % 1000 < 1000;
  }

  /** Every planned vault has at least 100 ARIO and 14 days left, and unlocks when its source said, or later. */
  lemma EveryLockFits(inp: Inputs, d: Deriver, nowMs: int, i: nat)
    requires Build(inp, d, nowMs).Ok? && i < |Build(inp, d, nowMs).value.assets|
    ensures i < |Entries(inp, d)| && LockFits(Entries(inp, d)[i], Build(inp, d, nowMs).value.assets[i], nowMs)
  {
    PlanIsWellFormed(inp, d, nowMs);
    var e := Entries(inp, d)[i];
    RenderedLockFits(e, Claimable(inp, d, e.owner), nowMs);
  }

  // ---------------------------------------------------------------------------
  // Who can claim: open and manual-review recipients
  // ---------------------------------------------------------------------------

  ghost predicate HasModulus(inp: Inputs, src: string) {
    exists i :: 0 <= i < |inp.modulus| && Normalize(inp.modulus[i].0) == src
  }

  ghost predicate ListedAtRisk(inp: Inputs, src: string) {
    exists i :: 0 <= i < |inp.atRisk| && Normalize(inp.atRisk[i]) == src
  }

  /** Loading decides every listed source: a modulus opens it, the at-risk list alone closes it. */
  ghost predicate ListsDecide(inp: Inputs, rs: Recipients) {
    && (forall src :: HasModulus(inp, src) || ListedAtRisk(inp, src) ==> src in rs)
    && (forall src :: src in rs ==> (rs[src].open <==> HasModulus(inp, src) || !ListedAtRisk(inp, src)))
  }

  lemma {:induction false} ModuliLoad(inp: Inputs, d: Deriver, rs: Recipients, n: nat)
    requires n <= |inp.modulus| && LoadModuli(d, rs, inp.modulus[n..]).Ok?
    requires forall src :: src in rs <==> exists i :: 0 <= i < n && Normalize(inp.modulus[i].0) == src
    requires forall src :: src in rs ==> rs[src].open
    ensures var loaded := LoadModuli(d, rs, inp.modulus[n..]).value;
            && (forall src :: src in loaded <==> HasModulus(inp, src))
            && (forall src :: src in loaded ==> loaded[src].open)
    decreases |inp.modulus| - n
  {
    if n < |inp.modulus| {
      var row := inp.modulus[n];
      assert inp.modulus[n..][1..] == inp.modulus[n + 1..];
      var mid := Upsert(d, rs, row.0, Some(d.decodeModulus(row.1))).value;
      assert mid.Keys == rs.Keys + {Normalize(row.0)};
      ModuliLoad(inp, d, mid, n + 1);
    }
  }

  lemma {:induction false} AtRiskLoad(inp: Inputs, d: Deriver, rs: Recipients, n: nat)
    requires n <= |inp.atRisk| && LoadAtRisk(d, rs, inp.atRisk[n..]).Ok?
    requires forall src :: HasModulus(inp, src) ==> src in rs
    requires forall src :: src in rs ==> (rs[src].open <==> HasModulus(inp, src)) && (HasModulus(inp, src) || ListedAtRisk(inp, src))
    requires forall i :: 0 <= i < n ==> Normalize(inp.atRisk[i]) in rs
    ensures ListsDecide(inp, LoadAtRisk(d, rs, inp.atRisk[n..]).value)
    decreases |inp.atRisk| - n
  {
    if n < |inp.atRisk| {
      assert inp.atRisk[n..][1..] == inp.atRisk[n + 1..];
      var mid := Upsert(d, rs, inp.atRisk[n], None).value;
      assert ListedAtRisk(inp, Normalize(inp.atRisk[n]));
      AtRiskLoad(inp, d, mid, n + 1);
    }
  }

  lemma ListsDecideWhenLoaded(inp: Inputs, d: Deriver)
    requires Loaded(inp, d).Ok?
    ensures ListsDecide(inp, Loaded(inp, d).value)
  {
    assert inp.modulus[0..] == inp.modulus && inp.atRisk[0..] == inp.atRisk;
    ModuliLoad(inp, d, map[], 0);
    AtRiskLoad(inp, d, LoadModuli(d, map[], inp.modulus).value, 0);
  }

  lemma {:induction false} LookupFinds(rows: seq<(string, string)>, key: string)
    ensures Lookup(rows, key).Some? ==> exists i :: 0 <= i < |rows| && rows[i].0 == key
  {
    if rows != [] && rows[0].0 != key {
      LookupFinds(rows[1..], key);
      if Lookup(rows, key).Some? {
        var i :| 0 <= i < |rows[1..]| && rows[1..][i].0 == key;
        assert rows[i + 1].0 == key;
      }
    }
  }

  /** A claimable owner outside Ethereum has a modulus; any other owner that is deposited is at risk. */
  lemma OwnerIsListed(inp: Inputs, d: Deriver, rs: Recipients, owner: string)
    requires Classify(inp, d, rs, owner).Ok?
    ensures Claimable(inp, d, owner) && !IsEthereum(owner) ==> HasModulus(inp, Normalize(owner))
    ensures !Claimable(inp, d, owner) ==> ListedAtRisk(inp, Normalize(owner))
  {
    LookupFinds(inp.modulus, owner);
    if Claimable(inp, d, owner) && !IsEthereum(owner) {
      var i :| 0 <= i < |inp.modulus| && inp.modulus[i].0 == owner;
      assert Normalize(inp.modulus[i].0) == Normalize(owner);
    }
    if !Claimable(inp, d, owner) {
      var i :| 0 <= i < |inp.atRisk| && inp.atRisk[i] == owner;
      assert Normalize(inp.atRisk[i]) == Normalize(owner);
    }
  }

  lemma {:induction false} PassKeepsDecision(inp: Inputs, d: Deriver, nowMs: int, st: St, es: seq<Entry>)
    requires DepositAll(inp, d, nowMs, st, es).Ok? && ListsDecide(inp, st.recipients)
    ensures ListsDecide(inp, DepositAll(inp, d, nowMs, st, es).value.recipients)
    ensures forall i :: 0 <= i < |es| && Claimable(inp, d, es[i].owner) && !IsEthereum(es[i].owner) ==>
              HasModulus(inp, Normalize(es[i].owner))
    decreases |es|
  {
    if es != [] {
      OwnerIsListed(inp, d, st.recipients, es[0].owner);
      var mid := Deposit(inp, d, nowMs, st, es[0]).value;
      PassKeepsDecision(inp, d, nowMs, mid, es[1..]);
      forall i | 0 <= i < |es| && Claimable(inp, d, es[i].owner) && !IsEthereum(es[i].owner)
        ensures HasModulus(inp, Normalize(es[i].owner))
      {
        if i > 0 {
          assert es[1..][i - 1] == es[i];
        }
      }
    }
  }

  /** An unmapped Ethereum owner whose address is in the at-risk list and not in the modulus file. */
  ghost predicate ClosedEthereumOwner(inp: Inputs, owner: string) {
    IsEthereum(owner) && ListedAtRisk(inp, Normalize(owner)) && !HasModulus(inp, Normalize(owner))
  }

  /**
   Whether every claimable asset belongs to an open recipient is decided by the lists alone: it holds
   exactly when no deposited Ethereum owner is listed at risk without a modulus entry.
   */
  lemma ClaimableMeansOpenExactly(inp: Inputs, d: Deriver, nowMs: int)
    requires Build(inp, d, nowMs).Ok?
    ensures var plan := Build(inp, d, nowMs).value;
            WellPlanned(plan)
            && ((forall i :: 0 <= i < |plan.assets| && plan.assets[i].available ==> plan.recipients[plan.assets[i].source].open)
                <==> forall i :: 0 <= i < |Entries(inp, d)| ==> !ClosedEthereumOwner(inp, Entries(inp, d)[i].owner))
  {
    PlanIsWellFormed(inp, d, nowMs);
    BuildIsOnePass(inp, d, nowMs);
    ListsDecideWhenLoaded(inp, d);
    var st := St(Loaded(inp, d).value, [], NO_TOTALS);
    PassKeepsDecision(inp, d, nowMs, st, Entries(inp, d));
    var plan, es := Build(inp, d, nowMs).value, Entries(inp, d);
    forall i | 0 <= i < |es|
      ensures (plan.assets[i].available && !plan.recipients[plan.assets[i].source].open) <==> ClosedEthereumOwner(inp, es[i].owner)
    {
      assert plan.assets[i] == Render(es[i], Claimable(inp, d, es[i].owner), nowMs);
      assert plan.assets[i].source in plan.recipients;
    }
  }

  /** One balance whose owner the at-risk file lists and the modulus file does not. */
  function ClosedOwnerLedger(addr: string): Inputs {
    Inputs(map[], [], [addr], [(addr, 1)], [], [], Artifact([], [], [], [], [], []))
  }

  /** Such a ledger exists for every Ethereum address: a claimable balance nobody can claim. */
  lemma ClosedOwnerExample(addr: string, d: Deriver, nowMs: int)
    requires IsEthereum(addr)
    ensures Build(ClosedOwnerLedger(addr), d, nowMs).Ok?
    ensures var plan := Build(ClosedOwnerLedger(addr), d, nowMs).value;
            && |plan.assets| == 1 && plan.assets[0].available
            && plan.assets[0].source in plan.recipients && !plan.recipients[plan.assets[0].source].open
  {
    var inp := ClosedOwnerLedger(addr);
    var src := Normalize(addr);
    var rs := map[src := Recipient(true, None, src, false)];
    assert inp.atRisk[1..] == [] && LoadAtRisk(d, rs, []) == Ok(rs);
    assert Loaded(inp, d) == Ok(rs);
    var e := Entry(addr, d.assetId("token-escrow:" + src), Some(1), FromBalance);
    assert inp.balances[1..] == [];
    assert BalanceEntries(inp, d, []) == [];
    assert BalanceEntries(inp, d, inp.balances) == [e];
    assert EarlyEntries(inp, d) == [e];
    assert Collect(inp.plan) == DepositSet([], []);
    assert LateEntries(inp, d) == [] && Seeds(Collect(inp.plan)) == [];
    var st := St(rs, [Render(e, true, nowMs)], Tally(NO_TOTALS, e, true, nowMs));
    assert Classify(inp, d, rs, addr) == Ok((rs, true));
    assert [] + [Render(e, true, nowMs)] == [Render(e, true, nowMs)];
    assert Deposit(inp, d, nowMs, St(rs, [], NO_TOTALS), e) == Ok(st);
    assert DepositAll(inp, d, nowMs, St(rs, [], NO_TOTALS), [e]) == DepositAll(inp, d, nowMs, st, []) by {
      assert [e][1..] == [];
    }
  }
}
