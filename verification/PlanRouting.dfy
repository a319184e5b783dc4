/**
 Which asset each row of the frozen inputs becomes: its key, source, amount, deposit type and unlock time, in terms of
 the row alone; that there are no other assets; and what the totals count.
 */
module PlanRouting {
  import opened Prelude
  import opened LedgerInputs
  import opened LedgerPlan
  import opened PlanProperties

  // ---------------------------------------------------------------------------
  // Owners
  // ---------------------------------------------------------------------------

  /** No destination is on file, so what the owner has is escrowed. */
  predicate Undelivered(inp: Inputs, owner: string) {
    Normalize(owner) in inp.addressMap ==> inp.addressMap[Normalize(owner)] == ""
  }

  /** The first modulus on file for the owner is not empty. */
  ghost predicate KeyPublished(inp: Inputs, owner: string) {
    exists i :: 0 <= i < |inp.modulus| && inp.modulus[i].0 == owner && inp.modulus[i].1 != ""
                && forall j :: 0 <= j < i ==> inp.modulus[j].0 != owner
  }

  /** An Ethereum address is its own key; every other owner needs a modulus. */
  ghost predicate CanClaim(inp: Inputs, owner: string) {
    IsEthereum(owner) || KeyPublished(inp, owner)
  }

  lemma {:induction false} FirstModulus(rows: seq<(string, string)>, key: string)
    ensures match Lookup(rows, key)
            case None => forall i :: 0 <= i < |rows| ==> rows[i].0 != key
            case Some(encoded) =>
              exists i :: 0 <= i < |rows| && rows[i] == (key, encoded) && forall j :: 0 <= j < i ==> rows[j].0 != key
  {
    if rows != [] && rows[0].0 != key {
      FirstModulus(rows[1..], key);
      match Lookup(rows, key) {
        case None =>
          forall i | 0 <= i < |rows| ensures rows[i].0 != key {
            assert i > 0 ==> rows[i] == rows[1..][i - 1];
          }
        case Some(encoded) =>
          var i :| 0 <= i < |rows[1..]| && rows[1..][i] == (key, encoded) && forall j :: 0 <= j < i ==> rows[1..][j].0 != key;
          assert rows[i + 1] == (key, encoded);
          forall j | 0 <= j < i + 1 ensures rows[j].0 != key {
            assert j > 0 ==> rows[j] == rows[1..][j - 1];
          }
      }
    }
  }

  lemma ClaimableIsKeyed(inp: Inputs, d: Deriver, owner: string)
    requires Resolve(inp, d, owner).Ok?
    ensures Claimable(inp, d, owner) <==> CanClaim(inp, owner)
  {
    FirstModulus(inp.modulus, owner);
  }

  // ---------------------------------------------------------------------------
  // What each row becomes
  // ---------------------------------------------------------------------------

  ghost predicate Carries(inp: Inputs, a: PlannedAsset, owner: string, key: string, amount: Option<int>) {
    a.key == key && a.source == Normalize(owner) && a.amount == amount && (a.available <==> CanClaim(inp, owner))
  }

  predicate Liquid(a: PlannedAsset) {
    a.kind.TokenType? && a.mint.None? && a.vaultEnd.None?
  }

  predicate LockedUntil(a: PlannedAsset, end: int) {
    a.kind.VaultType? && a.mint.None? && a.vaultEnd == Some(end)
  }

  ghost predicate AntPlanned(inp: Inputs, d: Deriver, ant: Ant, a: PlannedAsset) {
    && Undelivered(inp, ant.owner) && Carries(inp, a, ant.owner, d.antMint(ant.processId), None)
    && a.kind.AntType? && a.mint == Some(d.antMint(ant.processId)) && a.vaultEnd.None?
  }

  ghost predicate BalancePlanned(inp: Inputs, d: Deriver, row: (string, int), a: PlannedAsset) {
    && Undelivered(inp, row.0) && row.1 > 0
    && Carries(inp, a, row.0, d.assetId("token-escrow:" + Normalize(row.0)), Some(row.1)) && Liquid(a)
  }

  /**
   A personal vault stays a vault exactly when it holds at least 100 ARIO and more than 14 days less a second are left;
   then it ends in the second of its end, counted from the pinned clock's second.
   */
  ghost predicate VaultPlanned(inp: Inputs, d: Deriver, nowMs: int, owner: string, v: PersonalVault, a: PlannedAsset) {
    && Undelivered(inp, owner) && v.balance > 0
    && Carries(inp, a, owner, d.assetId("vault-escrow:" + Normalize(owner) + ":" + v.id), Some(v.balance))
    && if v.balance >= 100_000_000 && v.endMs - nowMs > 1000 * (1_209_600 - 1)
       then
         exists lock :: 1000 * (lock - 1) < v.endMs - nowMs <= 1000 * lock && LockedUntil(a, nowMs / 1000 + lock)
       else Liquid(a)
  }

  /**
   A stake or exit vault stays a vault exactly when it holds at least 100 ARIO and either 14 days are left or it is an
   operator's exit that is still locked, whose lock is then extended to 14 days.
   */
  ghost predicate LockPlanned(inp: Inputs, d: Deriver, nowMs: int, owner: string, seed: string, kind: string, amount: int,
                              unlockTs: int, a: PlannedAsset)
  {
    var left := unlockTs - nowMs / 1000;
    && Carries(inp, a, owner, d.assetId(seed), Some(amount))
    && if amount < 100_000_000 then Liquid(a)
       else if left >= 1_209_600 then LockedUntil(a, unlockTs)
       else if "withdrawal:operator-exit:" <= kind && left > 0 then LockedUntil(a, nowMs / 1000 + 1_209_600)
       else Liquid(a)
  }

  ghost predicate StakePlanned(inp: Inputs, d: Deriver, nowMs: int, v: StakeVault, a: PlannedAsset) {
    LockPlanned(inp, d, nowMs, v.addr, "stake-escrow:" + Normalize(v.addr) + ":" + v.kind, v.kind, v.amount, v.unlockTs, a)
  }

  ghost predicate ExitPlanned(inp: Inputs, d: Deriver, nowMs: int, v: ExitVault, a: PlannedAsset) {
    var source := if v.source.Some? then v.source.value else "unknown";
    LockPlanned(inp, d, nowMs, v.addr, "withdrawal-escrow:" + Normalize(v.addr) + ":" + v.vaultKey,
                "withdrawal:" + source + ":" + v.vaultKey, v.amount, v.unlockTs, a)
  }

  ghost predicate LiquidStakePlanned(inp: Inputs, d: Deriver, l: StakeLiquid, a: PlannedAsset) {
    Carries(inp, a, l.addr, d.assetId("stake-escrow-liquid:" + Normalize(l.addr) + ":" + l.kind), Some(l.amount)) && Liquid(a)
  }

  ghost predicate LiquidExitPlanned(inp: Inputs, d: Deriver, l: ExitLiquid, a: PlannedAsset) {
    Carries(inp, a, l.addr, d.assetId("withdrawal-escrow-liquid:" + Normalize(l.addr) + ":" + l.vaultKey), Some(l.amount)) && Liquid(a)
  }

  /** The entry becomes what its row says. */
  ghost predicate EntryPlanned(inp: Inputs, d: Deriver, nowMs: int, e: Entry, a: PlannedAsset) {
    match e.source
    case FromAnt => AntType == a.kind && a.mint == Some(e.key) && a.vaultEnd.None? && Carries(inp, a, e.owner, e.key, e.amount)
    case FromBalance => Liquid(a) && Carries(inp, a, e.owner, e.key, e.amount)
    case FromLiquidStake => Liquid(a) && Carries(inp, a, e.owner, e.key, e.amount)
    case FromVault(endMs) =>
      && Carries(inp, a, e.owner, e.key, e.amount)
      && if e.amount.GetOr(0) >= 100_000_000 && endMs - nowMs > 1000 * (1_209_600 - 1)
         then exists lock :: 1000 * (lock - 1) < endMs - nowMs <= 1000 * lock && LockedUntil(a, nowMs / 1000 + lock)
         else Liquid(a)
    case FromStake(kind, unlockTs) =>
      var left := unlockTs - nowMs / 1000;
      && Carries(inp, a, e.owner, e.key, e.amount)
      && if e.amount.GetOr(0) < 100_000_000 then Liquid(a)
         else if left >= 1_209_600 then LockedUntil(a, unlockTs)
         else if "withdrawal:operator-exit:" <= kind && left > 0 then LockedUntil(a, nowMs / 1000 + 1_209_600)
         else Liquid(a)
  }

  lemma RenderedAsPlanned(inp: Inputs, d: Deriver, nowMs: int, e: Entry)
    requires Resolve(inp, d, e.owner).Ok?
    ensures EntryPlanned(inp, d, nowMs, e, Render(e, Claimable(inp, d, e.owner), nowMs))
  {
    ClaimableIsKeyed(inp, d, e.owner);
    match e.source {
      case FromVault(endMs) => CeilingOf(endMs - nowMs);
      case _ =>
    }
  }

  lemma CeilingOf(ms: int)
    ensures 1000 * (CeilSeconds(ms) - 1) < ms <= 1000 * CeilSeconds(ms)
  {
    var y := -ms;
    assert y == 1000 * (y / 1000) + y % 1000 && 0 <= y % 1000 < 1000;
  }

  lemma {:induction false} DepositedOwnersResolve(inp: Inputs, d: Deriver, nowMs: int, st: St, es: seq<Entry>, k: nat)
    requires DepositAll(inp, d, nowMs, st, es).Ok? && k < |es|
    ensures Resolve(inp, d, es[k].owner).Ok?
    decreases |es|
  {
    if k > 0 {
      DepositedOwnersResolve(inp, d, nowMs, Deposit(inp, d, nowMs, st, es[0]).value, es[1..], k - 1);
    }
  }

  /** The assets of a plan. */
  ghost function Assets(inp: Inputs, d: Deriver, nowMs: int): seq<PlannedAsset>
    requires Build(inp, d, nowMs).Ok?
  {
    Build(inp, d, nowMs).value.assets
  }

  lemma EntryIsPlanned(inp: Inputs, d: Deriver, nowMs: int, k: nat)
    requires Build(inp, d, nowMs).Ok? && k < |Entries(inp, d)|
    ensures k < |Assets(inp, d, nowMs)| && EntryPlanned(inp, d, nowMs, Entries(inp, d)[k], Assets(inp, d, nowMs)[k])
  {
    PlanIsWellFormed(inp, d, nowMs);
    BuildIsOnePass(inp, d, nowMs);
    DepositedOwnersResolve(inp, d, nowMs, St(Loaded(inp, d).value, [], NO_TOTALS), Entries(inp, d), k);
    RenderedAsPlanned(inp, d, nowMs, Entries(inp, d)[k]);
  }

  // ---------------------------------------------------------------------------
  // Every row has its asset
  // ---------------------------------------------------------------------------

  /** Some asset of the plan is this entry's. */
  lemma ListedIsPlanned(inp: Inputs, d: Deriver, nowMs: int, e: Entry) returns (a: PlannedAsset)
    requires Build(inp, d, nowMs).Ok? && (e in EarlyEntries(inp, d) || e in LateEntries(inp, d))
    ensures a in Assets(inp, d, nowMs) && EntryPlanned(inp, d, nowMs, e, a)
  {
    assert e in Entries(inp, d);
    var k :| 0 <= k < |Entries(inp, d)| && Entries(inp, d)[k] == e;
    EntryIsPlanned(inp, d, nowMs, k);
    a := Assets(inp, d, nowMs)[k];
  }

  lemma {:induction false} AntIsListed(inp: Inputs, d: Deriver, ants: seq<Ant>, i: nat)
    requires i < |ants| && Undelivered(inp, ants[i].owner)
    ensures Entry(ants[i].owner, d.antMint(ants[i].processId), None, FromAnt) in AntEntries(inp, d, ants)
  {
    if i > 0 {
      AntIsListed(inp, d, ants[1..], i - 1);
    }
  }

  lemma {:induction false} BalanceIsListed(inp: Inputs, d: Deriver, rows: seq<(string, int)>, i: nat)
    requires i < |rows| && Undelivered(inp, rows[i].0) && rows[i].1 > 0
    ensures Entry(rows[i].0, d.assetId("token-escrow:" + Normalize(rows[i].0)), Some(rows[i].1), FromBalance)
            in BalanceEntries(inp, d, rows)
  {
    if i > 0 {
      BalanceIsListed(inp, d, rows[1..], i - 1);
    }
  }

  function OfVault(d: Deriver, owner: string, v: PersonalVault): Entry {
    Entry(owner, d.assetId("vault-escrow:" + Normalize(owner) + ":" + v.id), Some(v.balance), FromVault(v.endMs))
  }

  lemma {:induction false} OwnedVaultIsListed(d: Deriver, owner: string, vs: seq<PersonalVault>, j: nat)
    requires j < |vs| && vs[j].balance > 0
    ensures OfVault(d, owner, vs[j]) in OwnerVaultEntries(d, owner, vs)
  {
    if j > 0 {
      OwnedVaultIsListed(d, owner, vs[1..], j - 1);
    }
  }

  lemma {:induction false} VaultIsListed(inp: Inputs, d: Deriver, rows: seq<(string, seq<PersonalVault>)>, i: nat, j: nat)
    requires i < |rows| && Undelivered(inp, rows[i].0) && j < |rows[i].1| && rows[i].1[j].balance > 0
    ensures OfVault(d, rows[i].0, rows[i].1[j]) in VaultEntries(inp, d, rows)
  {
    if i > 0 {
      VaultIsListed(inp, d, rows[1..], i - 1, j);
    } else {
      OwnedVaultIsListed(d, rows[0].0, rows[0].1, j);
    }
  }

  function OfLock(d: Deriver, owner: string, seed: string, amount: int, kind: string, unlockTs: int): Entry {
    Entry(owner, d.assetId(seed), Some(amount), FromStake(kind, unlockTs))
  }

  function OfLiquid(d: Deriver, owner: string, seed: string, amount: int): Entry {
    Entry(owner, d.assetId(seed), Some(amount), FromLiquidStake)
  }

  lemma {:induction false} StakeIsListed(d: Deriver, vs: seq<VaultDeposit>, v: VaultDeposit)
    requires v in vs
    ensures OfLock(d, v.owner, v.seed, v.amount, v.kind, v.unlockTs) in StakeEntries(d, vs)
  {
    if vs[0] != v {
      StakeIsListed(d, vs[1..], v);
    }
  }

  lemma {:induction false} LiquidIsListed(d: Deriver, ls: seq<LiquidDeposit>, l: LiquidDeposit)
    requires l in ls
    ensures OfLiquid(d, l.owner, l.seed, l.amount) in LiquidEntries(d, ls)
  {
    if ls[0] != l {
      LiquidIsListed(d, ls[1..], l);
    }
  }

  /** Every ANT of an owner without a destination is escrowed as an ANT with its own mint. */
  lemma AntRowIsPlanned(inp: Inputs, d: Deriver, nowMs: int, i: nat) returns (a: PlannedAsset)
    requires Build(inp, d, nowMs).Ok? && i < |inp.ants| && Undelivered(inp, inp.ants[i].owner)
    ensures a in Assets(inp, d, nowMs) && AntPlanned(inp, d, inp.ants[i], a)
  {
    AntIsListed(inp, d, inp.ants, i);
    a := ListedIsPlanned(inp, d, nowMs, Entry(inp.ants[i].owner, d.antMint(inp.ants[i].processId), None, FromAnt));
  }

  /** Every positive balance of such an owner is escrowed as a token of that amount. */
  lemma BalanceRowIsPlanned(inp: Inputs, d: Deriver, nowMs: int, i: nat) returns (a: PlannedAsset)
    requires Build(inp, d, nowMs).Ok? && i < |inp.balances| && Undelivered(inp, inp.balances[i].0) && inp.balances[i].1 > 0
    ensures a in Assets(inp, d, nowMs) && BalancePlanned(inp, d, inp.balances[i], a)
  {
    var (owner, amount) := inp.balances[i];
    BalanceIsListed(inp, d, inp.balances, i);
    a := ListedIsPlanned(inp, d, nowMs, Entry(owner, d.assetId("token-escrow:" + Normalize(owner)), Some(amount), FromBalance));
  }

  /** Every positive personal vault of such an owner is escrowed, locked or liquid as its size and its end say. */
  lemma VaultRowIsPlanned(inp: Inputs, d: Deriver, nowMs: int, i: nat, j: nat) returns (a: PlannedAsset)
    requires Build(inp, d, nowMs).Ok? && i < |inp.vaults| && Undelivered(inp, inp.vaults[i].0)
    requires j < |inp.vaults[i].1| && inp.vaults[i].1[j].balance > 0
    ensures a in Assets(inp, d, nowMs) && VaultPlanned(inp, d, nowMs, inp.vaults[i].0, inp.vaults[i].1[j], a)
    ensures var v := inp.vaults[i].1[j];
            && (a.kind.VaultType? <==> v.balance >= 100_000_000 && v.endMs - nowMs > 1000 * (1_209_600 - 1))
            && (!a.kind.VaultType? ==> a.kind.TokenType? && a.vaultEnd.None?)
  {
    VaultIsListed(inp, d, inp.vaults, i, j);
    a := ListedIsPlanned(inp, d, nowMs, OfVault(d, inp.vaults[i].0, inp.vaults[i].1[j]));
  }

  /** Every stake and every exit of the plan artifact is escrowed, locked or liquid as its size and its unlock say. */
  lemma StakeRowIsPlanned(inp: Inputs, d: Deriver, nowMs: int, v: StakeVault) returns (a: PlannedAsset)
    requires Build(inp, d, nowMs).Ok? && (v in inp.plan.operatorVaults || v in inp.plan.delegatorVaults)
    ensures a in Assets(inp, d, nowMs) && StakePlanned(inp, d, nowMs, v, a)
  {
    var seed := "stake-escrow:" + Normalize(v.addr) + ":" + v.kind;
    var row := VaultDeposit(v.addr, seed, v.amount, v.unlockTs, v.kind);
    MapHolds(FromStakeVault, inp.plan.operatorVaults, v);
    MapHolds(FromStakeVault, inp.plan.delegatorVaults, v);
    assert row in Collect(inp.plan).vaults;
    StakeIsListed(d, Collect(inp.plan).vaults, row);
    a := ListedIsPlanned(inp, d, nowMs, OfLock(d, v.addr, seed, v.amount, v.kind, v.unlockTs));
  }

  lemma MapHolds<A, B>(f: A -> B, xs: seq<A>, x: A)
    ensures x in xs ==> f(x) in Map(f, xs)
  {
    if i :| 0 <= i < |xs| && xs[i] == x {
      assert Map(f, xs)[i] == f(x);
    }
  }

  lemma ExitRowIsPlanned(inp: Inputs, d: Deriver, nowMs: int, v: ExitVault) returns (a: PlannedAsset)
    requires Build(inp, d, nowMs).Ok? && v in inp.plan.exitVaults
    ensures a in Assets(inp, d, nowMs) && ExitPlanned(inp, d, nowMs, v, a)
  {
    var seed := "withdrawal-escrow:" + Normalize(v.addr) + ":" + v.vaultKey;
    var kind := "withdrawal:" + (if v.source.Some? then v.source.value else "unknown") + ":" + v.vaultKey;
    var row := VaultDeposit(v.addr, seed, v.amount, v.unlockTs, kind);
    MapHolds(FromExitVault, inp.plan.exitVaults, v);
    assert row in Collect(inp.plan).vaults;
    StakeIsListed(d, Collect(inp.plan).vaults, row);
    a := ListedIsPlanned(inp, d, nowMs, OfLock(d, v.addr, seed, v.amount, kind, v.unlockTs));
  }

  lemma LiquidStakeRowIsPlanned(inp: Inputs, d: Deriver, nowMs: int, l: StakeLiquid) returns (a: PlannedAsset)
    requires Build(inp, d, nowMs).Ok? && (l in inp.plan.operatorLiquid || l in inp.plan.delegatorLiquid)
    ensures a in Assets(inp, d, nowMs) && LiquidStakePlanned(inp, d, l, a)
  {
    var seed := "stake-escrow-liquid:" + Normalize(l.addr) + ":" + l.kind;
    MapHolds(FromStakeLiquid, inp.plan.operatorLiquid, l);
    MapHolds(FromStakeLiquid, inp.plan.delegatorLiquid, l);
    assert FromStakeLiquid(l) in Collect(inp.plan).liquid;
    LiquidIsListed(d, Collect(inp.plan).liquid, FromStakeLiquid(l));
    a := ListedIsPlanned(inp, d, nowMs, OfLiquid(d, l.addr, seed, l.amount));
  }

  lemma LiquidExitRowIsPlanned(inp: Inputs, d: Deriver, nowMs: int, l: ExitLiquid) returns (a: PlannedAsset)
    requires Build(inp, d, nowMs).Ok? && l in inp.plan.exitLiquid
    ensures a in Assets(inp, d, nowMs) && LiquidExitPlanned(inp, d, l, a)
  {
    var seed := "withdrawal-escrow-liquid:" + Normalize(l.addr) + ":" + l.vaultKey;
    MapHolds(FromExitLiquid, inp.plan.exitLiquid, l);
    assert FromExitLiquid(l) in Collect(inp.plan).liquid;
    LiquidIsListed(d, Collect(inp.plan).liquid, FromExitLiquid(l));
    a := ListedIsPlanned(inp, d, nowMs, OfLiquid(d, l.addr, seed, l.amount));
  }

  // ---------------------------------------------------------------------------
  // And there are no other assets
  // ---------------------------------------------------------------------------

  ghost predicate FromInputs(inp: Inputs, d: Deriver, nowMs: int, a: PlannedAsset) {
    || (exists i :: 0 <= i < |inp.ants| && AntPlanned(inp, d, inp.ants[i], a))
    || (exists i :: 0 <= i < |inp.balances| && BalancePlanned(inp, d, inp.balances[i], a))
    || (exists i, j :: 0 <= i < |inp.vaults| && 0 <= j < |inp.vaults[i].1|
                       && VaultPlanned(inp, d, nowMs, inp.vaults[i].0, inp.vaults[i].1[j], a))
  }

  ghost predicate FromArtifact(inp: Inputs, d: Deriver, nowMs: int, a: PlannedAsset) {
    || (exists v :: (v in inp.plan.operatorVaults || v in inp.plan.delegatorVaults) && StakePlanned(inp, d, nowMs, v, a))
    || (exists v :: v in inp.plan.exitVaults && ExitPlanned(inp, d, nowMs, v, a))
    || (exists l :: (l in inp.plan.operatorLiquid || l in inp.plan.delegatorLiquid) && LiquidStakePlanned(inp, d, l, a))
    || (exists l :: l in inp.plan.exitLiquid && LiquidExitPlanned(inp, d, l, a))
  }

  lemma {:induction false} AntEntryHasRow(inp: Inputs, d: Deriver, ants: seq<Ant>, e: Entry) returns (i: nat)
    requires e in AntEntries(inp, d, ants)
    ensures i < |ants| && Undelivered(inp, ants[i].owner) && e == Entry(ants[i].owner, d.antMint(ants[i].processId), None, FromAnt)
  {
    if !Mapped(inp, ants[0].owner) && e == AntEntries(inp, d, ants)[0] {
      i := 0;
    } else {
      i := AntEntryHasRow(inp, d, ants[1..], e);
      i := i + 1;
    }
  }

  lemma {:induction false} BalanceEntryHasRow(inp: Inputs, d: Deriver, rows: seq<(string, int)>, e: Entry) returns (i: nat)
    requires e in BalanceEntries(inp, d, rows)
    ensures i < |rows| && Undelivered(inp, rows[i].0) && rows[i].1 > 0
    ensures e == Entry(rows[i].0, d.assetId("token-escrow:" + Normalize(rows[i].0)), Some(rows[i].1), FromBalance)
  {
    if !(Mapped(inp, rows[0].0) || rows[0].1 <= 0) && e == BalanceEntries(inp, d, rows)[0] {
      i := 0;
    } else {
      i := BalanceEntryHasRow(inp, d, rows[1..], e);
      i := i + 1;
    }
  }

  lemma {:induction false} OwnedVaultEntryHasRow(d: Deriver, owner: string, vs: seq<PersonalVault>, e: Entry) returns (j: nat)
    requires e in OwnerVaultEntries(d, owner, vs)
    ensures j < |vs| && vs[j].balance > 0 && e == OfVault(d, owner, vs[j])
  {
    if vs[0].balance > 0 && e == OwnerVaultEntries(d, owner, vs)[0] {
      j := 0;
    } else {
      j := OwnedVaultEntryHasRow(d, owner, vs[1..], e);
      j := j + 1;
    }
  }

  lemma {:induction false} VaultEntryHasRow(inp: Inputs, d: Deriver, rows: seq<(string, seq<PersonalVault>)>, e: Entry)
    returns (i: nat, j: nat)
    requires e in VaultEntries(inp, d, rows)
    ensures i < |rows| && j < |rows[i].1| && Undelivered(inp, rows[i].0) && rows[i].1[j].balance > 0
    ensures e == OfVault(d, rows[i].0, rows[i].1[j])
  {
    if !Mapped(inp, rows[0].0) && e in OwnerVaultEntries(d, rows[0].0, rows[0].1) {
      i := 0;
      j := OwnedVaultEntryHasRow(d, rows[0].0, rows[0].1, e);
    } else {
      i, j := VaultEntryHasRow(inp, d, rows[1..], e);
      i := i + 1;
    }
  }

  lemma {:induction false} StakeEntryHasRow(d: Deriver, vs: seq<VaultDeposit>, e: Entry) returns (v: VaultDeposit)
    requires e in StakeEntries(d, vs)
    ensures v in vs && e == OfLock(d, v.owner, v.seed, v.amount, v.kind, v.unlockTs)
  {
    if e == StakeEntries(d, vs)[0] {
      v := vs[0];
    } else {
      v := StakeEntryHasRow(d, vs[1..], e);
    }
  }

  lemma {:induction false} LiquidEntryHasRow(d: Deriver, ls: seq<LiquidDeposit>, e: Entry) returns (l: LiquidDeposit)
    requires e in LiquidEntries(d, ls)
    ensures l in ls && e == OfLiquid(d, l.owner, l.seed, l.amount)
  {
    if e == LiquidEntries(d, ls)[0] {
      l := ls[0];
    } else {
      l := LiquidEntryHasRow(d, ls[1..], e);
    }
  }

  lemma EarlyEntryHasRow(inp: Inputs, d: Deriver, nowMs: int, e: Entry, a: PlannedAsset)
    requires e in EarlyEntries(inp, d) && EntryPlanned(inp, d, nowMs, e, a)
    ensures FromInputs(inp, d, nowMs, a)
  {
    if e in AntEntries(inp, d, inp.ants) {
      var i := AntEntryHasRow(inp, d, inp.ants, e);
      assert AntPlanned(inp, d, inp.ants[i], a);
    } else if e in BalanceEntries(inp, d, inp.balances) {
      var i := BalanceEntryHasRow(inp, d, inp.balances, e);
      assert BalancePlanned(inp, d, inp.balances[i], a);
    } else {
      var i, j := VaultEntryHasRow(inp, d, inp.vaults, e);
      assert VaultPlanned(inp, d, nowMs, inp.vaults[i].0, inp.vaults[i].1[j], a);
    }
  }

  lemma MapComesFrom<A, B>(f: A -> B, xs: seq<A>, y: B) returns (x: A)
    requires y in Map(f, xs)
    ensures x in xs && f(x) == y
  {
    var i :| 0 <= i < |xs| && Map(f, xs)[i] == y;
    x := xs[i];
  }

  lemma LockHasRow(inp: Inputs, d: Deriver, nowMs: int, v: VaultDeposit, a: PlannedAsset)
    requires v in Collect(inp.plan).vaults
    requires EntryPlanned(inp, d, nowMs, OfLock(d, v.owner, v.seed, v.amount, v.kind, v.unlockTs), a)
    ensures FromArtifact(inp, d, nowMs, a)
  {
    if v in Map(FromStakeVault, inp.plan.operatorVaults) {
      var row := MapComesFrom(FromStakeVault, inp.plan.operatorVaults, v);
      assert StakePlanned(inp, d, nowMs, row, a);
    } else if v in Map(FromStakeVault, inp.plan.delegatorVaults) {
      var row := MapComesFrom(FromStakeVault, inp.plan.delegatorVaults, v);
      assert StakePlanned(inp, d, nowMs, row, a);
    } else {
      var row := MapComesFrom(FromExitVault, inp.plan.exitVaults, v);
      assert ExitPlanned(inp, d, nowMs, row, a);
    }
  }

  lemma LiquidHasRow(inp: Inputs, d: Deriver, nowMs: int, l: LiquidDeposit, a: PlannedAsset)
    requires l in Collect(inp.plan).liquid && EntryPlanned(inp, d, nowMs, OfLiquid(d, l.owner, l.seed, l.amount), a)
    ensures FromArtifact(inp, d, nowMs, a)
  {
    if l in Map(FromStakeLiquid, inp.plan.operatorLiquid) {
      var row := MapComesFrom(FromStakeLiquid, inp.plan.operatorLiquid, l);
      assert LiquidStakePlanned(inp, d, row, a);
    } else if l in Map(FromStakeLiquid, inp.plan.delegatorLiquid) {
      var row := MapComesFrom(FromStakeLiquid, inp.plan.delegatorLiquid, l);
      assert LiquidStakePlanned(inp, d, row, a);
    } else {
      var row := MapComesFrom(FromExitLiquid, inp.plan.exitLiquid, l);
      assert LiquidExitPlanned(inp, d, row, a);
    }
  }

  /** Every asset of the plan is what some row of the inputs becomes. */
  lemma EveryAssetHasItsRow(inp: Inputs, d: Deriver, nowMs: int, a: PlannedAsset)
    requires Build(inp, d, nowMs).Ok? && a in Assets(inp, d, nowMs)
    ensures FromInputs(inp, d, nowMs, a) || FromArtifact(inp, d, nowMs, a)
  {
    PlanIsWellFormed(inp, d, nowMs);
    var k :| 0 <= k < |Assets(inp, d, nowMs)| && Assets(inp, d, nowMs)[k] == a;
    EntryIsPlanned(inp, d, nowMs, k);
    var e := Entries(inp, d)[k];
    if e in EarlyEntries(inp, d) {
      EarlyEntryHasRow(inp, d, nowMs, e, a);
    } else if e in StakeEntries(d, Collect(inp.plan).vaults) {
      var v := StakeEntryHasRow(d, Collect(inp.plan).vaults, e);
      LockHasRow(inp, d, nowMs, v, a);
    } else {
      var l := LiquidEntryHasRow(d, Collect(inp.plan).liquid, e);
      LiquidHasRow(inp, d, nowMs, l, a);
    }
  }
}
