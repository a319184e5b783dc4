/** What the planner's totals count and add up, in terms of the rows of the frozen inputs. */
module PlanTotals {
  import opened LedgerInputs
  import opened LedgerPlan
  import opened PlanProperties
  import opened PlanRouting

  datatype Figure = Ants | Tokens | Vaults | Stakes | Phase2 | Phase3 | Phase4

  function Read(t: Totals, f: Figure): int {
    match f
    case Ants => t.ants
    case Tokens => t.tokens
    case Vaults => t.vaults
    case Stakes => t.stakes
    case Phase2 => t.phase2
    case Phase3 => t.phase3
    case Phase4 => t.phase4
  }

  /** A counted row adds one to its counter and its amount to its phase. */
  function Share(f: Figure, counter: Figure, phase: Figure, amount: int): int {
    if f == counter then 1 else if f == phase then amount else 0
  }

  /** ANTs of owners without a destination who can claim; ANTs have no phase total. */
  ghost function AntsCount(inp: Inputs, ants: seq<Ant>, f: Figure): int {
    if ants == [] then 0
    else (if Undelivered(inp, ants[0].owner) && CanClaim(inp, ants[0].owner) && f.Ants? then 1 else 0) + AntsCount(inp, ants[1..], f)
  }

  ghost function BalancesCount(inp: Inputs, rows: seq<(string, int)>, f: Figure): int {
    if rows == [] then 0
    else
      (if Undelivered(inp, rows[0].0) && rows[0].1 > 0 && CanClaim(inp, rows[0].0) then Share(f, Tokens, Phase2, rows[0].1) else 0)
      + BalancesCount(inp, rows[1..], f)
  }

  /** A vault that has ended counts as a token, but its amount stays with the vaults. */
  ghost function OwnedVaultsCount(inp: Inputs, nowMs: int, owner: string, vs: seq<PersonalVault>, f: Figure): int {
    if vs == [] then 0
    else
      (if vs[0].balance > 0 && CanClaim(inp, owner)
       then Share(f, if nowMs < vs[0].endMs then Vaults else Tokens, Phase3, vs[0].balance) else 0)
      + OwnedVaultsCount(inp, nowMs, owner, vs[1..], f)
  }

  ghost function VaultsCount(inp: Inputs, nowMs: int, rows: seq<(string, seq<PersonalVault>)>, f: Figure): int {
    if rows == [] then 0
    else
      (if Undelivered(inp, rows[0].0) then OwnedVaultsCount(inp, nowMs, rows[0].0, rows[0].1, f) else 0)
      + VaultsCount(inp, nowMs, rows[1..], f)
  }

  /** Stakes and exits, by owner and amount, whether or not a destination is on file. */
  ghost function StakesCount(inp: Inputs, rows: seq<(string, int)>, f: Figure): int {
    if rows == [] then 0
    else (if CanClaim(inp, rows[0].0) then Share(f, Stakes, Phase4, rows[0].1) else 0) + StakesCount(inp, rows[1..], f)
  }

  /** All stakes and exits of the artifact, list by list. */
  function ArtifactRows(a: Artifact): seq<(string, int)> {
    Map((v: StakeVault) => (v.addr, v.amount), a.operatorVaults) + Map((v: StakeVault) => (v.addr, v.amount), a.delegatorVaults)
    + Map((v: ExitVault) => (v.addr, v.amount), a.exitVaults)
    + (Map((v: StakeLiquid) => (v.addr, v.amount), a.operatorLiquid) + Map((v: StakeLiquid) => (v.addr, v.amount), a.delegatorLiquid)
       + Map((v: ExitLiquid) => (v.addr, v.amount), a.exitLiquid))
  }

  /** What one entry adds. */
  ghost function EntryCount(inp: Inputs, nowMs: int, e: Entry, f: Figure): int {
    if !CanClaim(inp, e.owner) then 0
    else
      match e.source
      case FromAnt => if f.Ants? then 1 else 0
      case FromBalance => Share(f, Tokens, Phase2, e.amount.GetOr(0))
      case FromVault(endMs) => Share(f, if nowMs < endMs then Vaults else Tokens, Phase3, e.amount.GetOr(0))
      case _ => Share(f, Stakes, Phase4, e.amount.GetOr(0))
  }

  ghost function EntriesCount(inp: Inputs, nowMs: int, es: seq<Entry>, f: Figure): int {
    if es == [] then 0 else EntryCount(inp, nowMs, es[0], f) + EntriesCount(inp, nowMs, es[1..], f)
  }

  lemma {:induction false} EntriesCountSplits(inp: Inputs, nowMs: int, xs: seq<Entry>, ys: seq<Entry>, f: Figure)
    ensures EntriesCount(inp, nowMs, xs + ys, f) == EntriesCount(inp, nowMs, xs, f) + EntriesCount(inp, nowMs, ys, f)
  {
    if xs == [] {
      assert xs + ys == ys;
    } else {
      assert (xs + ys)[1..] == xs[1..] + ys;
      EntriesCountSplits(inp, nowMs, xs[1..], ys, f);
    }
  }

  lemma {:induction false} PassCounts(inp: Inputs, d: Deriver, nowMs: int, st: St, es: seq<Entry>, f: Figure)
    requires DepositAll(inp, d, nowMs, st, es).Ok?
    ensures Read(DepositAll(inp, d, nowMs, st, es).value.totals, f) == Read(st.totals, f) + EntriesCount(inp, nowMs, es, f)
    decreases |es|
  {
    if es != [] {
      DepositCounts(inp, d, nowMs, st, es[0], f);
      PassCounts(inp, d, nowMs, Deposit(inp, d, nowMs, st, es[0]).value, es[1..], f);
    }
  }

  lemma DepositCounts(inp: Inputs, d: Deriver, nowMs: int, st: St, e: Entry, f: Figure)
    requires Deposit(inp, d, nowMs, st, e).Ok?
    ensures Read(Deposit(inp, d, nowMs, st, e).value.totals, f) == Read(st.totals, f) + EntryCount(inp, nowMs, e, f)
  {
    ClaimableIsKeyed(inp, d, e.owner);
  }

  lemma {:induction false} AntEntriesCount(inp: Inputs, d: Deriver, nowMs: int, ants: seq<Ant>, f: Figure)
    ensures EntriesCount(inp, nowMs, AntEntries(inp, d, ants), f) == AntsCount(inp, ants, f)
  {
    if ants != [] {
      AntEntriesCount(inp, d, nowMs, ants[1..], f);
      if !Mapped(inp, ants[0].owner) {
        assert AntEntries(inp, d, ants)[1..] == AntEntries(inp, d, ants[1..]);
      }
    }
  }

  lemma {:induction false} BalanceEntriesCount(inp: Inputs, d: Deriver, nowMs: int, rows: seq<(string, int)>, f: Figure)
    ensures EntriesCount(inp, nowMs, BalanceEntries(inp, d, rows), f) == BalancesCount(inp, rows, f)
  {
    if rows != [] {
      BalanceEntriesCount(inp, d, nowMs, rows[1..], f);
      if !(Mapped(inp, rows[0].0) || rows[0].1 <= 0) {
        assert BalanceEntries(inp, d, rows)[1..] == BalanceEntries(inp, d, rows[1..]);
      }
    }
  }

  lemma {:induction false} OwnerVaultEntriesCount(inp: Inputs, d: Deriver, nowMs: int, owner: string, vs: seq<PersonalVault>, f: Figure)
    ensures EntriesCount(inp, nowMs, OwnerVaultEntries(d, owner, vs), f) == OwnedVaultsCount(inp, nowMs, owner, vs, f)
  {
    if vs != [] {
      OwnerVaultEntriesCount(inp, d, nowMs, owner, vs[1..], f);
      if vs[0].balance > 0 {
        assert OwnerVaultEntries(d, owner, vs)[1..] == OwnerVaultEntries(d, owner, vs[1..]);
      }
    }
  }

  lemma {:induction false} VaultEntriesCount(inp: Inputs, d: Deriver, nowMs: int, rows: seq<(string, seq<PersonalVault>)>, f: Figure)
    ensures EntriesCount(inp, nowMs, VaultEntries(inp, d, rows), f) == VaultsCount(inp, nowMs, rows, f)
  {
    if rows != [] {
      VaultEntriesCount(inp, d, nowMs, rows[1..], f);
      OwnerVaultEntriesCount(inp, d, nowMs, rows[0].0, rows[0].1, f);
      EntriesCountSplits(inp, nowMs, OwnerVaultEntries(d, rows[0].0, rows[0].1), VaultEntries(inp, d, rows[1..]), f);
    }
  }

  lemma {:induction false} StakeEntriesCount(inp: Inputs, d: Deriver, nowMs: int, vs: seq<VaultDeposit>, f: Figure)
    ensures EntriesCount(inp, nowMs, StakeEntries(d, vs), f) == StakesCount(inp, Map((v: VaultDeposit) => (v.owner, v.amount), vs), f)
  {
    if vs != [] {
      StakeEntriesCount(inp, d, nowMs, vs[1..], f);
      assert StakeEntries(d, vs)[1..] == StakeEntries(d, vs[1..]);
      assert Map((v: VaultDeposit) => (v.owner, v.amount), vs)[1..] == Map((v: VaultDeposit) => (v.owner, v.amount), vs[1..]);
    }
  }

  lemma {:induction false} LiquidEntriesCount(inp: Inputs, d: Deriver, nowMs: int, ls: seq<LiquidDeposit>, f: Figure)
    ensures EntriesCount(inp, nowMs, LiquidEntries(d, ls), f) == StakesCount(inp, Map((l: LiquidDeposit) => (l.owner, l.amount), ls), f)
  {
    if ls != [] {
      LiquidEntriesCount(inp, d, nowMs, ls[1..], f);
      assert LiquidEntries(d, ls)[1..] == LiquidEntries(d, ls[1..]);
      assert Map((l: LiquidDeposit) => (l.owner, l.amount), ls)[1..] == Map((l: LiquidDeposit) => (l.owner, l.amount), ls[1..]);
    }
  }

  lemma {:induction false} StakesCountSplits(inp: Inputs, xs: seq<(string, int)>, ys: seq<(string, int)>, f: Figure)
    ensures StakesCount(inp, xs + ys, f) == StakesCount(inp, xs, f) + StakesCount(inp, ys, f)
  {
    if xs == [] {
      assert xs + ys == ys;
    } else {
      assert (xs + ys)[1..] == xs[1..] + ys;
      StakesCountSplits(inp, xs[1..], ys, f);
    }
  }

  lemma CollectKeepsOwners(a: Artifact)
    ensures Map((v: VaultDeposit) => (v.owner, v.amount), Collect(a).vaults)
            + Map((l: LiquidDeposit) => (l.owner, l.amount), Collect(a).liquid)
            == ArtifactRows(a)
  {
    var vault, liquid := (v: VaultDeposit) => (v.owner, v.amount), (l: LiquidDeposit) => (l.owner, l.amount);
    MapConcat(vault, Map(FromStakeVault, a.operatorVaults) + Map(FromStakeVault, a.delegatorVaults), Map(FromExitVault, a.exitVaults));
    MapConcat(vault, Map(FromStakeVault, a.operatorVaults), Map(FromStakeVault, a.delegatorVaults));
    MapTwice(vault, FromStakeVault, (v: StakeVault) => (v.addr, v.amount), a.operatorVaults);
    MapTwice(vault, FromStakeVault, (v: StakeVault) => (v.addr, v.amount), a.delegatorVaults);
    MapTwice(vault, FromExitVault, (v: ExitVault) => (v.addr, v.amount), a.exitVaults);
    MapConcat(liquid, Map(FromStakeLiquid, a.operatorLiquid) + Map(FromStakeLiquid, a.delegatorLiquid), Map(FromExitLiquid, a.exitLiquid));
    MapConcat(liquid, Map(FromStakeLiquid, a.operatorLiquid), Map(FromStakeLiquid, a.delegatorLiquid));
    MapTwice(liquid, FromStakeLiquid, (v: StakeLiquid) => (v.addr, v.amount), a.operatorLiquid);
    MapTwice(liquid, FromStakeLiquid, (v: StakeLiquid) => (v.addr, v.amount), a.delegatorLiquid);
    MapTwice(liquid, FromExitLiquid, (v: ExitLiquid) => (v.addr, v.amount), a.exitLiquid);
  }

  lemma EarlyCount(inp: Inputs, d: Deriver, nowMs: int, f: Figure)
    ensures EntriesCount(inp, nowMs, EarlyEntries(inp, d), f) ==
            AntsCount(inp, inp.ants, f) + BalancesCount(inp, inp.balances, f) + VaultsCount(inp, nowMs, inp.vaults, f)
  {
    var ants, balances, vaults := AntEntries(inp, d, inp.ants), BalanceEntries(inp, d, inp.balances), VaultEntries(inp, d, inp.vaults);
    AntEntriesCount(inp, d, nowMs, inp.ants, f);
    BalanceEntriesCount(inp, d, nowMs, inp.balances, f);
    VaultEntriesCount(inp, d, nowMs, inp.vaults, f);
    EntriesCountSplits(inp, nowMs, ants + balances, vaults, f);
    EntriesCountSplits(inp, nowMs, ants, balances, f);
  }

  lemma LateCount(inp: Inputs, d: Deriver, nowMs: int, f: Figure)
    ensures EntriesCount(inp, nowMs, LateEntries(inp, d), f) == StakesCount(inp, ArtifactRows(inp.plan), f)
  {
    var stakes := Collect(inp.plan);
    StakeEntriesCount(inp, d, nowMs, stakes.vaults, f);
    LiquidEntriesCount(inp, d, nowMs, stakes.liquid, f);
    EntriesCountSplits(inp, nowMs, StakeEntries(d, stakes.vaults), LiquidEntries(d, stakes.liquid), f);
    StakesCountSplits(inp, Map((v: VaultDeposit) => (v.owner, v.amount), stakes.vaults),
                      Map((l: LiquidDeposit) => (l.owner, l.amount), stakes.liquid), f);
    CollectKeepsOwners(inp.plan);
  }

  /** Each of the seven totals counts the rows whose owners can claim, or adds up their amounts, phase by phase. */
  lemma TotalsCountTheRows(inp: Inputs, d: Deriver, nowMs: int, f: Figure)
    requires Build(inp, d, nowMs).Ok?
    ensures Read(Build(inp, d, nowMs).value.totals, f) ==
            AntsCount(inp, inp.ants, f) + BalancesCount(inp, inp.balances, f) + VaultsCount(inp, nowMs, inp.vaults, f)
            + StakesCount(inp, ArtifactRows(inp.plan), f)
  {
    BuildIsOnePass(inp, d, nowMs);
    PassCounts(inp, d, nowMs, St(Loaded(inp, d).value, [], NO_TOTALS), Entries(inp, d), f);
    EntriesCountSplits(inp, nowMs, EarlyEntries(inp, d), LateEntries(inp, d), f);
    EarlyCount(inp, d, nowMs, f);
    LateCount(inp, d, nowMs, f);
  }
}
