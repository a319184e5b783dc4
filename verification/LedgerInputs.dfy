/**
 The frozen inputs of the ledger build: source addresses, and the stake and withdrawal escrow set
 with its asset-id seeds.
 */
module LedgerInputs {
  import opened Prelude

  // ---------------------------------------------------------------------------
  // Source addresses
  // ---------------------------------------------------------------------------

  predicate HexDigit(ch: char) {
    '0' <= ch <= '9' || 'a' <= ch <= 'f' || 'A' <= ch <= 'F'
  }

  predicate IsEthereum(addr: string) {
    |addr| == 42 && addr[0] == '0' && addr[1] == 'x' && forall i :: 2 <= i < 42 ==> HexDigit(addr[i])
  }

  function LowerChar(ch: char): char {
    if 'A' <= ch <= 'Z' then ch - 'A' + 'a' else ch
  }

  function Lower(s: string): string {
    seq(|s|, i requires 0 <= i < |s| => LowerChar(s[i]))
  }

  /** Ethereum addresses are lower-cased; every other address is case-sensitive and kept. */
  function Normalize(addr: string): string {
    if IsEthereum(addr) then Lower(addr) else addr
  }

  /** The canonical form is a fixed point, and identifies exactly the spellings of one Ethereum address. */
  lemma NormalizeIsCanonical(a: string, b: string)
    ensures Normalize(Normalize(a)) == Normalize(a)
    ensures IsEthereum(Normalize(a)) <==> IsEthereum(a)
    ensures Normalize(a) == Normalize(b) <==> a == b || (IsEthereum(a) && IsEthereum(b) && Lower(a) == Lower(b))
  {
    if IsEthereum(a) {
      assert forall i :: 2 <= i < 42 ==> HexDigit(Lower(a)[i]);
      assert Lower(Lower(a)) == Lower(a);
    }
    if IsEthereum(b) {
      assert forall i :: 2 <= i < 42 ==> HexDigit(Lower(b)[i]);
    }
  }

  /** An Ethereum address is 0x and forty hex digits; its letters become lower-case and nothing else changes. */
  lemma NormalizeLowersHex(addr: string)
    ensures IsEthereum(addr) <==>
            |addr| == 42 && addr[..2] == "0x" && forall i :: 2 <= i < 42 ==> addr[i] in "0123456789abcdefABCDEF"
    ensures !IsEthereum(addr) ==> Normalize(addr) == addr
    ensures IsEthereum(addr) ==>
              && |Normalize(addr)| == 42
              && forall i :: 0 <= i < 42 ==>
                   Normalize(addr)[i] as int == if 65 <= addr[i] as int <= 90 then addr[i] as int + 32 else addr[i] as int
  {
    HexDigitsListed();
    if |addr| == 42 {
      assert addr[..2] == "0x" <==> addr[0] == '0' && addr[1] == 'x';
      assert forall i :: 2 <= i < 42 ==> (HexDigit(addr[i]) <==> addr[i] in "0123456789abcdefABCDEF");
    }
  }

  lemma HexDigitsListed()
    ensures forall ch :: HexDigit(ch) <==> ch in "0123456789abcdefABCDEF"
  {
    var all := "0123456789abcdefABCDEF";
    forall ch ensures HexDigit(ch) <==> ch in all {
      if HexDigit(ch) {
        var k := if ch <= '9' then ch as int - 48 else if 'a' <= ch then ch as int - 87 else ch as int - 49;
        assert 0 <= k < 22 && all[k] == ch;
      }
      if ch in all {
        var k :| 0 <= k < 22 && all[k] == ch;
      }
    }
  }

  // ---------------------------------------------------------------------------
  // Stake and withdrawal escrow
  // ---------------------------------------------------------------------------

  datatype StakeVault = StakeVault(addr: string, kind: string, amount: int, unlockTs: int)
  datatype StakeLiquid = StakeLiquid(addr: string, kind: string, amount: int)
  datatype ExitVault = ExitVault(addr: string, vaultKey: string, amount: int, unlockTs: int, source: Option<string>)
  datatype ExitLiquid = ExitLiquid(addr: string, vaultKey: string, amount: int, source: Option<string>)

  datatype Artifact = Artifact(
    operatorVaults: seq<StakeVault>, operatorLiquid: seq<StakeLiquid>,
    delegatorVaults: seq<StakeVault>, delegatorLiquid: seq<StakeLiquid>,
    exitVaults: seq<ExitVault>, exitLiquid: seq<ExitLiquid>)

  datatype VaultDeposit = VaultDeposit(owner: string, seed: string, amount: int, unlockTs: int, kind: string)
  datatype LiquidDeposit = LiquidDeposit(owner: string, seed: string, amount: int, kind: string)
  datatype DepositSet = DepositSet(vaults: seq<VaultDeposit>, liquid: seq<LiquidDeposit>)

  function FromStakeVault(v: StakeVault): VaultDeposit {
    VaultDeposit(v.addr, "stake-escrow:" + Normalize(v.addr) + ":" + v.kind, v.amount, v.unlockTs, v.kind)
  }

  function FromExitVault(v: ExitVault): VaultDeposit {
    VaultDeposit(v.addr, "withdrawal-escrow:" + Normalize(v.addr) + ":" + v.vaultKey, v.amount, v.unlockTs,
                 "withdrawal:" + v.source.GetOr("unknown") + ":" + v.vaultKey)
  }

  function FromStakeLiquid(v: StakeLiquid): LiquidDeposit {
    LiquidDeposit(v.addr, "stake-escrow-liquid:" + Normalize(v.addr) + ":" + v.kind, v.amount, v.kind)
  }

  function FromExitLiquid(v: ExitLiquid): LiquidDeposit {
    LiquidDeposit(v.addr, "withdrawal-escrow-liquid:" + Normalize(v.addr) + ":" + v.vaultKey, v.amount,
                  "withdrawal:" + v.source.GetOr("unknown") + ":" + v.vaultKey)
  }

  function Map<A, B>(f: A -> B, xs: seq<A>): (ys: seq<B>)
    ensures |ys| == |xs| && forall i :: 0 <= i < |xs| ==> ys[i] == f(xs[i])
  {
    seq(|xs|, i requires 0 <= i < |xs| => f(xs[i]))
  }

  function Collect(a: Artifact): DepositSet {
    DepositSet(
      Map(FromStakeVault, a.operatorVaults) + Map(FromStakeVault, a.delegatorVaults) + Map(FromExitVault, a.exitVaults),
      Map(FromStakeLiquid, a.operatorLiquid) + Map(FromStakeLiquid, a.delegatorLiquid) + Map(FromExitLiquid, a.exitLiquid))
  }

  lemma MapConcat<A, B>(f: A -> B, xs: seq<A>, ys: seq<A>)
    ensures Map(f, xs + ys) == Map(f, xs) + Map(f, ys)
  {
  }

  lemma MapTwice<A(!new), B, C>(g: B -> C, f: A -> B, h: A -> C, xs: seq<A>)
    requires forall a :: g(f(a)) == h(a)
    ensures Map(g, Map(f, xs)) == Map(h, xs)
  {
  }

  /** The amounts of a plan artifact, list by list. */
  function Amounts(a: Artifact): seq<int> {
    Map((v: StakeVault) => v.amount, a.operatorVaults) + Map((v: StakeVault) => v.amount, a.delegatorVaults)
    + Map((v: ExitVault) => v.amount, a.exitVaults)
    + (Map((v: StakeLiquid) => v.amount, a.operatorLiquid) + Map((v: StakeLiquid) => v.amount, a.delegatorLiquid)
       + Map((v: ExitLiquid) => v.amount, a.exitLiquid))
  }

  function Total(xs: seq<int>): int {
    if xs == [] then 0 else xs[0] + Total(xs[1..])
  }

  lemma {:induction false} TotalSplits(xs: seq<int>, ys: seq<int>)
    ensures Total(xs + ys) == Total(xs) + Total(ys)
  {
    if xs == [] {
      assert xs + ys == ys;
    } else {
      assert (xs + ys)[1..] == xs[1..] + ys;
      TotalSplits(xs[1..], ys);
    }
  }

  function SetAmounts(set_: DepositSet): seq<int> {
    Map((v: VaultDeposit) => v.amount, set_.vaults) + Map((l: LiquidDeposit) => l.amount, set_.liquid)
  }

  /** Collecting loses and invents nothing: the set's amounts are the artifact's, in the same order. */
  lemma CollectKeepsAmounts(a: Artifact)
    ensures SetAmounts(Collect(a)) == Amounts(a)
  {
    var vault, liquid := (v: VaultDeposit) => v.amount, (l: LiquidDeposit) => l.amount;
    MapConcat(vault, Map(FromStakeVault, a.operatorVaults) + Map(FromStakeVault, a.delegatorVaults),
              Map(FromExitVault, a.exitVaults));
    MapConcat(vault, Map(FromStakeVault, a.operatorVaults), Map(FromStakeVault, a.delegatorVaults));
    MapTwice(vault, FromStakeVault, (v: StakeVault) => v.amount, a.operatorVaults);
    MapTwice(vault, FromStakeVault, (v: StakeVault) => v.amount, a.delegatorVaults);
    MapTwice(vault, FromExitVault, (v: ExitVault) => v.amount, a.exitVaults);
    MapConcat(liquid, Map(FromStakeLiquid, a.operatorLiquid) + Map(FromStakeLiquid, a.delegatorLiquid),
              Map(FromExitLiquid, a.exitLiquid));
    MapConcat(liquid, Map(FromStakeLiquid, a.operatorLiquid), Map(FromStakeLiquid, a.delegatorLiquid));
    MapTwice(liquid, FromStakeLiquid, (v: StakeLiquid) => v.amount, a.operatorLiquid);
    MapTwice(liquid, FromStakeLiquid, (v: StakeLiquid) => v.amount, a.delegatorLiquid);
    MapTwice(liquid, FromExitLiquid, (v: ExitLiquid) => v.amount, a.exitLiquid);
  }

  method TotalEscrowMario(set_: DepositSet) returns (sum: int)
    ensures sum == Total(SetAmounts(set_))
  {
    sum := 0;
    ghost var all := SetAmounts(set_);
    for i := 0 to |set_.vaults|
      invariant sum == Total(all[..i])
    {
      assert all[..i + 1] == all[..i] + [set_.vaults[i].amount];
      TotalSplits(all[..i], [set_.vaults[i].amount]);
      sum := sum + set_.vaults[i].amount;
    }
    for j := 0 to |set_.liquid|
      invariant sum == Total(all[..|set_.vaults| + j])
    {
      assert all[..|set_.vaults| + j + 1] == all[..|set_.vaults| + j] + [set_.liquid[j].amount];
      TotalSplits(all[..|set_.vaults| + j], [set_.liquid[j].amount]);
      sum := sum + set_.liquid[j].amount;
    }
    assert all[..|all|] == all;
  }

  function Seeds(set_: DepositSet): seq<string> {
    Map((v: VaultDeposit) => v.seed, set_.vaults) + Map((l: LiquidDeposit) => l.seed, set_.liquid)
  }

  /** No two of the first n seeds are the same once lower-cased. */
  predicate CaseDistinct(lower: string -> string, seeds: seq<string>, n: nat)
    requires n <= |seeds|
  {
    forall i, j :: 0 <= i < j < n ==> lower(seeds[i]) != lower(seeds[j])
  }

  /** The exact check and the case-insensitive check together accept exactly the case-distinct seeds. */
  method SeedsAreUnique(lower: string -> string, entries: seq<string>) returns (ok: bool)
    ensures ok <==> CaseDistinct(lower, entries, |entries|)
  {
    var seen: set<string> := {};
    var seenLower: map<string, string> := map[];
    for i := 0 to |entries|
      invariant forall j :: 0 <= j < i ==> entries[j] in seen && lower(entries[j]) in seenLower
      invariant forall s :: s in seen ==> exists j :: 0 <= j < i && entries[j] == s
      invariant forall l :: l in seenLower ==> seenLower[l] in seen && lower(seenLower[l]) == l
      invariant CaseDistinct(lower, entries, i)
    {
      var seed := entries[i];
      if seed in seen {
        ghost var j :| 0 <= j < i && entries[j] == seed;
        assert lower(entries[j]) == lower(entries[i]);
        return false;
      }
      var low := lower(seed);
      if low in seenLower && seenLower[low] != seed {
        ghost var j :| 0 <= j < i && entries[j] == seenLower[low];
        assert lower(entries[j]) == lower(entries[i]);
        return false;
      }
      assert low !in seenLower;
      seen := seen + {seed};
      seenLower := seenLower[low := seed];
    }
    return true;
  }
}
