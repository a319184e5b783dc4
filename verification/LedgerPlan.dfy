/**
 The ledger planner: recipients, the four deposit phases, routing by owner and by lock, and the
 totals of the claimable set. Hashing and key decoding are parameters; nothing is assumed of them.
 */
module LedgerPlan {
  import opened Prelude
  import opened VaultRules
  import opened LedgerInputs

  type Bytes = seq<nat>

  /** The derivations the planner calls. */
  datatype Deriver = Deriver(
    assetId: string -> string,        // hex of the hash of a seed
    antMint: string -> string,        // mint address of a process id
    recipientId: Bytes -> string,     // base64url of the hash of a public key
    decodeModulus: string -> Bytes,   // base64url decoding
    addressBytes: string -> Bytes,    // hex decoding of a normalized Ethereum address
    lower: string -> string)          // lower-casing, for the seed check

  datatype Ant = Ant(processId: string, owner: string)
  datatype PersonalVault = PersonalVault(id: string, balance: int, endMs: int)

  datatype Inputs = Inputs(
    addressMap: map<string, string>,  // keys are normalized
    modulus: seq<(string, string)>,
    atRisk: seq<string>,
    balances: seq<(string, int)>,
    vaults: seq<(string, seq<PersonalVault>)>,
    ants: seq<Ant>,
    plan: Artifact)

  datatype Recipient = Recipient(ethereum: bool, pubkey: Option<Bytes>, id: string, open: bool)
  type Recipients = map<string, Recipient>  // by source address

  datatype AssetType = AntType | TokenType | VaultType

  datatype PlannedAsset = PlannedAsset(
    key: string, kind: AssetType, source: string, mint: Option<string>,
    amount: Option<int>, vaultEnd: Option<int>, available: bool)

  datatype Totals = Totals(
    ants: nat, tokens: nat, vaults: nat, stakes: nat, phase2: int, phase3: int, phase4: int)

  datatype St = St(recipients: Recipients, assets: seq<PlannedAsset>, totals: Totals)

  datatype PlanError =
    | BadModulus(owner: string) | ModulusMismatch(owner: string) | UnexpectedGap(owner: string)
    | DuplicateKey(key: string) | AliasedSeed

  datatype Result<+T> = Ok(value: T) | Err(error: PlanError)

  // ---------------------------------------------------------------------------
  // Recipients
  // ---------------------------------------------------------------------------

  /** A mapped owner is delivered directly; an empty destination does not count as mapped. */
  predicate Mapped(inp: Inputs, owner: string) {
    Normalize(owner) in inp.addressMap && inp.addressMap[Normalize(owner)] != ""
  }

  function Lookup(rows: seq<(string, string)>, key: string): Option<string> {
    if rows == [] then None else if rows[0].0 == key then Some(rows[0].1) else Lookup(rows[1..], key)
  }

  function Resolve(inp: Inputs, d: Deriver, owner: string): Result<Option<Bytes>> {
    if IsEthereum(owner) then Ok(Some(d.addressBytes(Normalize(owner))))
    else
      match Lookup(inp.modulus, owner)
      case None => Ok(None)
      case Some(encoded) =>
        if encoded == "" then Ok(None)
        else if |d.decodeModulus(encoded)| != 512 then Err(BadModulus(owner))
        else Ok(Some(d.decodeModulus(encoded)))
  }

  /** The first mention of a source address decides its recipient. */
  function Upsert(d: Deriver, rs: Recipients, owner: string, pubkey: Option<Bytes>): Result<Recipients> {
    var src := Normalize(owner);
    if src in rs then Ok(rs)
    else
      match pubkey
      case Some(key) =>
        if !IsEthereum(owner) && d.recipientId(key) != owner then Err(ModulusMismatch(owner))
        else Ok(rs[src := Recipient(IsEthereum(owner), pubkey, d.recipientId(key), true)])
      case None => Ok(rs[src := Recipient(IsEthereum(owner), None, src, false)])
  }

  function LoadModuli(d: Deriver, rs: Recipients, rows: seq<(string, string)>): Result<Recipients>
    decreases |rows|
  {
    if rows == [] then Ok(rs)
    else
      match Upsert(d, rs, rows[0].0, Some(d.decodeModulus(rows[0].1)))
      case Err(e) => Err(e)
      case Ok(next) => LoadModuli(d, next, rows[1..])
  }

  function LoadAtRisk(d: Deriver, rs: Recipients, owners: seq<string>): Result<Recipients>
    decreases |owners|
  {
    if owners == [] then Ok(rs)
    else
      match Upsert(d, rs, owners[0], None)
      case Err(e) => Err(e)
      case Ok(next) => LoadAtRisk(d, next, owners[1..])
  }

  /** Resolvable owners are claimable; the others must be known to be at risk. */
  function Classify(inp: Inputs, d: Deriver, rs: Recipients, owner: string): Result<(Recipients, bool)> {
    match Resolve(inp, d, owner)
    case Err(e) => Err(e)
    case Ok(pubkey) =>
      if pubkey.None? && owner !in inp.atRisk then Err(UnexpectedGap(owner))
      else
        match Upsert(d, rs, owner, pubkey)
        case Err(e) => Err(e)
        case Ok(next) => Ok((next, pubkey.Some?))
  }

  // ---------------------------------------------------------------------------
  // Entries: what the inputs ask to deposit, whatever the clock says
  // ---------------------------------------------------------------------------

  datatype Source =
    | FromAnt
    | FromBalance
    | FromVault(endMs: int)
    | FromStake(kind: string, unlockTs: int)
    | FromLiquidStake

  datatype Entry = Entry(owner: string, key: string, amount: Option<int>, source: Source)

  function AntEntries(inp: Inputs, d: Deriver, ants: seq<Ant>): seq<Entry> {
    if ants == [] then []
    else if Mapped(inp, ants[0].owner) then AntEntries(inp, d, ants[1..])
    else [Entry(ants[0].owner, d.antMint(ants[0].processId), None, FromAnt)] + AntEntries(inp, d, ants[1..])
  }

  function BalanceEntries(inp: Inputs, d: Deriver, rows: seq<(string, int)>): seq<Entry> {
    if rows == [] then []
    else if Mapped(inp, rows[0].0) || rows[0].1 <= 0 then BalanceEntries(inp, d, rows[1..])
    else [Entry(rows[0].0, d.assetId("token-escrow:" + Normalize(rows[0].0)), Some(rows[0].1), FromBalance)]
         + BalanceEntries(inp, d, rows[1..])
  }

  function VaultEntry(d: Deriver, owner: string, v: PersonalVault): Entry {
    Entry(owner, d.assetId("vault-escrow:" + Normalize(owner) + ":" + v.id), Some(v.balance), FromVault(v.endMs))
  }

  function OwnerVaultEntries(d: Deriver, owner: string, vs: seq<PersonalVault>): seq<Entry> {
    if vs == [] then []
    else if vs[0].balance <= 0 then OwnerVaultEntries(d, owner, vs[1..])
    else [VaultEntry(d, owner, vs[0])] + OwnerVaultEntries(d, owner, vs[1..])
  }

  function VaultEntries(inp: Inputs, d: Deriver, rows: seq<(string, seq<PersonalVault>)>): seq<Entry> {
    if rows == [] then []
    else if Mapped(inp, rows[0].0) then VaultEntries(inp, d, rows[1..])
    else OwnerVaultEntries(d, rows[0].0, rows[0].1) + VaultEntries(inp, d, rows[1..])
  }

  function StakeEntry(d: Deriver, v: VaultDeposit): Entry {
    Entry(v.owner, d.assetId(v.seed), Some(v.amount), FromStake(v.kind, v.unlockTs))
  }

  function LiquidEntry(d: Deriver, l: LiquidDeposit): Entry {
    Entry(l.owner, d.assetId(l.seed), Some(l.amount), FromLiquidStake)
  }

  function StakeEntries(d: Deriver, vs: seq<VaultDeposit>): seq<Entry> {
    if vs == [] then [] else [StakeEntry(d, vs[0])] + StakeEntries(d, vs[1..])
  }

  function LiquidEntries(d: Deriver, ls: seq<LiquidDeposit>): seq<Entry> {
    if ls == [] then [] else [LiquidEntry(d, ls[0])] + LiquidEntries(d, ls[1..])
  }

  // ---------------------------------------------------------------------------
  // Routing and totals
  // ---------------------------------------------------------------------------

  function FloorSeconds(ms: int): int {
    ms / 1000
  }

  function CeilSeconds(ms: int): int {
    -((-ms) / 1000)
  }

  /** A still locked operator exit is extended to the minimum lock instead of being paid liquid. */
  function StakeLock(kind: string, amount: int, remaining: int): int {
    if "withdrawal:operator-exit:" <= kind && amount >= MIN_VAULT_SIZE_MARIO && remaining > 0
       && remaining < MIN_VAULT_LOCK_SECONDS
    then MIN_VAULT_LOCK_SECONDS
    else remaining
  }

  /** The deposit type and unlock time of an entry at the pinned clock. */
  function Route(e: Entry, nowMs: int): (AssetType, Option<int>) {
    match e.source
    case FromAnt => (AntType, None)
    case FromBalance => (TokenType, None)
    case FromLiquidStake => (TokenType, None)
    case FromVault(endMs) =>
      var lock := CeilSeconds(endMs - nowMs);
      if endMs <= nowMs || FallsBackToLiquid(e.amount.GetOr(0), lock) then (TokenType, None)
      else (VaultType, Some(FloorSeconds(nowMs) + lock))
    case FromStake(kind, unlockTs) =>
      var lock := StakeLock(kind, e.amount.GetOr(0), unlockTs - FloorSeconds(nowMs));
      if FallsBackToLiquid(e.amount.GetOr(0), lock) then (TokenType, None)
      else (VaultType, Some(FloorSeconds(nowMs) + lock))
  }

  function Render(e: Entry, available: bool, nowMs: int): PlannedAsset {
    var (kind, vaultEnd) := Route(e, nowMs);
    PlannedAsset(e.key, kind, Normalize(e.owner), if e.source.FromAnt? then Some(e.key) else None,
                 e.amount, vaultEnd, available)
  }

  function Tally(t: Totals, e: Entry, available: bool, nowMs: int): Totals {
    if !available then t
    else
      var amount := e.amount.GetOr(0);
      match e.source
      case FromAnt => t.(ants := t.ants + 1)
      case FromBalance => t.(tokens := t.tokens + 1, phase2 := t.phase2 + amount)
      case FromVault(endMs) =>
        if endMs <= nowMs then t.(tokens := t.tokens + 1, phase3 := t.phase3 + amount)
        else t.(vaults := t.vaults + 1, phase3 := t.phase3 + amount)
      case _ => t.(stakes := t.stakes + 1, phase4 := t.phase4 + amount)
  }

  predicate HasKey(assets: seq<PlannedAsset>, key: string) {
    exists i :: 0 <= i < |assets| && assets[i].key == key
  }

  ghost function Deposit(inp: Inputs, d: Deriver, nowMs: int, st: St, e: Entry): Result<St> {
    match Classify(inp, d, st.recipients, e.owner)
    case Err(error) => Err(error)
    case Ok((rs, available)) =>
      if HasKey(st.assets, e.key) then Err(DuplicateKey(e.key))
      else Ok(St(rs, st.assets + [Render(e, available, nowMs)], Tally(st.totals, e, available, nowMs)))
  }

  ghost function DepositAll(inp: Inputs, d: Deriver, nowMs: int, st: St, es: seq<Entry>): Result<St>
    decreases |es|
  {
    if es == [] then Ok(st)
    else
      match Deposit(inp, d, nowMs, st, es[0])
      case Err(e) => Err(e)
      case Ok(next) => DepositAll(inp, d, nowMs, next, es[1..])
  }

  /** Go on with more entries after a successful stretch. */
  ghost function Continue(inp: Inputs, d: Deriver, nowMs: int, r: Result<St>, es: seq<Entry>): Result<St> {
    match r
    case Err(e) => Err(e)
    case Ok(st) => DepositAll(inp, d, nowMs, st, es)
  }

  lemma {:induction false} DepositAllSplits(inp: Inputs, d: Deriver, nowMs: int, st: St, xs: seq<Entry>, ys: seq<Entry>)
    ensures DepositAll(inp, d, nowMs, st, xs + ys) == Continue(inp, d, nowMs, DepositAll(inp, d, nowMs, st, xs), ys)
    decreases |xs|
  {
    if xs == [] {
      assert xs + ys == ys;
    } else {
      assert (xs + ys)[0] == xs[0] && (xs + ys)[1..] == xs[1..] + ys;
      var first := Deposit(inp, d, nowMs, st, xs[0]);
      if first.Ok? {
        DepositAllSplits(inp, d, nowMs, first.value, xs[1..], ys);
      }
    }
  }

  const NO_TOTALS := Totals(0, 0, 0, 0, 0, 0, 0)

  ghost function Loaded(inp: Inputs, d: Deriver): Result<Recipients> {
    match LoadModuli(d, map[], inp.modulus)
    case Err(e) => Err(e)
    case Ok(rs) => LoadAtRisk(d, rs, inp.atRisk)
  }

  ghost function EarlyEntries(inp: Inputs, d: Deriver): seq<Entry> {
    AntEntries(inp, d, inp.ants) + BalanceEntries(inp, d, inp.balances) + VaultEntries(inp, d, inp.vaults)
  }

  ghost function LateEntries(inp: Inputs, d: Deriver): seq<Entry> {
    StakeEntries(d, Collect(inp.plan).vaults) + LiquidEntries(d, Collect(inp.plan).liquid)
  }

  /** The whole build. */
  ghost function Build(inp: Inputs, d: Deriver, nowMs: int): Result<St> {
    match Loaded(inp, d)
    case Err(e) => Err(e)
    case Ok(rs) =>
      match DepositAll(inp, d, nowMs, St(rs, [], NO_TOTALS), EarlyEntries(inp, d))
      case Err(e) => Err(e)
      case Ok(st) =>
        var seeds := Seeds(Collect(inp.plan));
        if !CaseDistinct(d.lower, seeds, |seeds|) then Err(AliasedSeed)
        else DepositAll(inp, d, nowMs, st, LateEntries(inp, d))
  }

  /** What is left to deposit after e, when e heads the work. */
  lemma Ahead(inp: Inputs, d: Deriver, nowMs: int, st: St, e: Entry, rest: seq<Entry>)
    ensures DepositAll(inp, d, nowMs, st, [e] + rest) == Continue(inp, d, nowMs, Deposit(inp, d, nowMs, st, e), rest)
  {
    assert ([e] + rest)[1..] == rest;
  }

  /** The work of one owner's vaults, one vault further. */
  lemma NextVault(d: Deriver, owner: string, vs: seq<PersonalVault>, later: seq<Entry>)
    requires vs != []
    ensures OwnerVaultEntries(d, owner, vs) + later ==
            if vs[0].balance > 0
            then [VaultEntry(d, owner, vs[0])] + (OwnerVaultEntries(d, owner, vs[1..]) + later)
            else OwnerVaultEntries(d, owner, vs[1..]) + later
  {
  }

  // ---------------------------------------------------------------------------
  // The planner's mutable state and its loops
  // ---------------------------------------------------------------------------

  class Planner {
    const inp: Inputs
    const d: Deriver
    const nowMs: int
    var recipients: Recipients
    var assets: seq<PlannedAsset>
    var seenKeys: set<string>
    var totals: Totals

    ghost function View(): St
      reads this
    {
      St(recipients, assets, totals)
    }

    ghost predicate Valid()
      reads this
    {
      forall key :: key in seenKeys <==> HasKey(assets, key)
    }

    constructor (inp: Inputs, d: Deriver, nowMs: int)
      ensures this.inp == inp && this.d == d && this.nowMs == nowMs
      ensures Valid() && View() == St(map[], [], NO_TOTALS)
    {
      this.inp := inp;
      this.d := d;
      this.nowMs := nowMs;
      recipients := map[];
      assets := [];
      seenKeys := {};
      totals := NO_TOTALS;
    }

    method UpsertRecipient(owner: string, pubkey: Option<Bytes>) returns (error: Option<PlanError>)
      modifies this`recipients
      ensures var expected := Upsert(d, old(recipients), owner, pubkey);
              if expected.Err? then error == Some(expected.error) else error == None && recipients == expected.value
    {
      var src := Normalize(owner);
      if src in recipients {
        return None;
      }
      var eth := IsEthereum(owner);
      match pubkey
      case Some(key) =>
        var id := d.recipientId(key);
        if !eth && id != owner {
          return Some(ModulusMismatch(owner));
        }
        recipients := recipients[src := Recipient(eth, pubkey, id, true)];
        return None;
      case None =>
        recipients := recipients[src := Recipient(eth, None, src, false)];
        return None;
    }

    method ClassifyOwner(owner: string) returns (error: Option<PlanError>, available: bool)
      modifies this`recipients
      ensures var expected := Classify(inp, d, old(recipients), owner);
              if expected.Err? then error == Some(expected.error)
              else error == None && (recipients, available) == expected.value
    {
      available := false;
      var resolved := Resolve(inp, d, owner);
      if resolved.Err? {
        return Some(resolved.error), false;
      }
      if resolved.value.Some? {
        error := UpsertRecipient(owner, resolved.value);
        return error, true;
      }
      if owner !in inp.atRisk {
        return Some(UnexpectedGap(owner)), false;
      }
      error := UpsertRecipient(owner, None);
    }

    method PushAsset(a: PlannedAsset) returns (error: Option<PlanError>)
      requires Valid()
      modifies this`assets, this`seenKeys
      ensures Valid()
      ensures if HasKey(old(assets), a.key) then error == Some(DuplicateKey(a.key))
              else error == None && assets == old(assets) + [a]
    {
      if a.key in seenKeys {
        return Some(DuplicateKey(a.key));
      }
      ghost var before := assets;
      seenKeys := seenKeys + {a.key};
      assets := assets + [a];
      forall key ensures key in seenKeys <==> HasKey(assets, key) {
        if HasKey(before, key) {
          var i :| 0 <= i < |before| && before[i].key == key;
          assert assets[i].key == key;
        }
        if key == a.key {
          assert assets[|before|].key == key;
        }
        if i :| 0 <= i < |assets| && assets[i].key == key {
          assert i < |before| ==> before[i].key == key;
        }
      }
      return None;
    }

    /** Classify the owner, push the routed asset, count it if it is claimable. */
    method DepositOne(e: Entry) returns (error: Option<PlanError>)
      requires Valid()
      modifies this
      ensures Valid()
      ensures Outcome(error, Deposit(inp, d, nowMs, old(View()), e))
    {
      var available;
      error, available := ClassifyOwner(e.owner);
      if error.Some? {
        return;
      }
      error := PushAsset(Render(e, available, nowMs));
      if error.Some? {
        return;
      }
      totals := Tally(totals, e, available, nowMs);
    }

    ghost function Work(st: St, es: seq<Entry>): Result<St> {
      DepositAll(inp, d, nowMs, st, es)
    }

    ghost predicate Outcome(error: Option<PlanError>, expected: Result<St>)
      reads this
    {
      match expected
      case Err(e) => error == Some(e)
      case Ok(st) => error == None && View() == st
    }

    method LoadRecipients() returns (error: Option<PlanError>)
      requires recipients == map[]
      modifies this`recipients
      ensures var expected := Loaded(inp, d);
              if expected.Err? then error == Some(expected.error) else error == None && recipients == expected.value
    {
      for i := 0 to |inp.modulus|
        invariant LoadModuli(d, map[], inp.modulus) == LoadModuli(d, recipients, inp.modulus[i..])
      {
        var row := inp.modulus[i];
        assert inp.modulus[i..][1..] == inp.modulus[i + 1..];
        error := UpsertRecipient(row.0, Some(d.decodeModulus(row.1)));
        if error.Some? {
          return;
        }
      }
      ghost var rs := recipients;
      for i := 0 to |inp.atRisk|
        invariant LoadAtRisk(d, rs, inp.atRisk) == LoadAtRisk(d, recipients, inp.atRisk[i..])
      {
        assert inp.atRisk[i..][1..] == inp.atRisk[i + 1..];
        error := UpsertRecipient(inp.atRisk[i], None);
        if error.Some? {
          return;
        }
      }
      error := None;
    }

    method DepositAnts() returns (error: Option<PlanError>)
      requires Valid()
      modifies this
      ensures Valid() && Outcome(error, Work(old(View()), AntEntries(inp, d, inp.ants)))
    {
      for i := 0 to |inp.ants|
        invariant Valid()
        invariant Work(old(View()), AntEntries(inp, d, inp.ants)) == Work(View(), AntEntries(inp, d, inp.ants[i..]))
      {
        var ant := inp.ants[i];
        assert inp.ants[i..][1..] == inp.ants[i + 1..];
        if !Mapped(inp, ant.owner) {
          var e := Entry(ant.owner, d.antMint(ant.processId), None, FromAnt);
          Ahead(inp, d, nowMs, View(), e, AntEntries(inp, d, inp.ants[i + 1..]));
          error := DepositOne(e);
          if error.Some? {
            return;
          }
        }
      }
      error := None;
    }

    method DepositBalances() returns (error: Option<PlanError>)
      requires Valid()
      modifies this
      ensures Valid() && Outcome(error, Work(old(View()), BalanceEntries(inp, d, inp.balances)))
    {
      for i := 0 to |inp.balances|
        invariant Valid()
        invariant Work(old(View()), BalanceEntries(inp, d, inp.balances)) == Work(View(), BalanceEntries(inp, d, inp.balances[i..]))
      {
        var (addr, amount) := inp.balances[i];
        assert inp.balances[i..][1..] == inp.balances[i + 1..];
        if !Mapped(inp, addr) && amount > 0 {
          var e := Entry(addr, d.assetId("token-escrow:" + Normalize(addr)), Some(amount), FromBalance);
          Ahead(inp, d, nowMs, View(), e, BalanceEntries(inp, d, inp.balances[i + 1..]));
          error := DepositOne(e);
          if error.Some? {
            return;
          }
        }
      }
      error := None;
    }

    /** The vaults of one unmapped owner, before the later work. */
    method DepositOwnerVaults(owner: string, vaults: seq<PersonalVault>, ghost later: seq<Entry>) returns (error: Option<PlanError>)
      requires Valid()
      modifies this
      ensures Valid()
      ensures var all := Work(old(View()), OwnerVaultEntries(d, owner, vaults) + later);
              if error.Some? then all == Err(error.value) else all == Work(View(), later)
    {
      assert vaults[0..] == vaults;
      for j := 0 to |vaults|
        invariant Valid()
        invariant Work(old(View()), OwnerVaultEntries(d, owner, vaults) + later) ==
                  Work(View(), OwnerVaultEntries(d, owner, vaults[j..]) + later)
      {
        assert vaults[j..][1..] == vaults[j + 1..];
        NextVault(d, owner, vaults[j..], later);
        if vaults[j].balance > 0 {
          var e := VaultEntry(d, owner, vaults[j]);
          Ahead(inp, d, nowMs, View(), e, OwnerVaultEntries(d, owner, vaults[j + 1..]) + later);
          error := DepositOne(e);
          if error.Some? {
            return;
          }
        }
      }
      assert OwnerVaultEntries(d, owner, vaults[|vaults|..]) + later == later;
      error := None;
    }

    method DepositVaults() returns (error: Option<PlanError>)
      requires Valid()
      modifies this
      ensures Valid() && Outcome(error, Work(old(View()), VaultEntries(inp, d, inp.vaults)))
    {
      for i := 0 to |inp.vaults|
        invariant Valid()
        invariant Work(old(View()), VaultEntries(inp, d, inp.vaults)) == Work(View(), VaultEntries(inp, d, inp.vaults[i..]))
      {
        var (owner, vaults) := inp.vaults[i];
        assert inp.vaults[i..][1..] == inp.vaults[i + 1..];
        if !Mapped(inp, owner) {
          error := DepositOwnerVaults(owner, vaults, VaultEntries(inp, d, inp.vaults[i + 1..]));
          if error.Some? {
            return;
          }
        }
      }
      error := None;
    }

    method DepositStakeVaults(vaults: seq<VaultDeposit>, ghost later: seq<Entry>) returns (error: Option<PlanError>)
      requires Valid()
      modifies this
      ensures Valid()
      ensures var all := Work(old(View()), StakeEntries(d, vaults) + later);
              if error.Some? then all == Err(error.value) else all == Work(View(), later)
    {
      assert vaults[0..] == vaults;
      for i := 0 to |vaults|
        invariant Valid()
        invariant Work(old(View()), StakeEntries(d, vaults) + later) == Work(View(), StakeEntries(d, vaults[i..]) + later)
      {
        var e := StakeEntry(d, vaults[i]);
        ghost var rest := StakeEntries(d, vaults[i + 1..]) + later;
        assert vaults[i..][1..] == vaults[i + 1..];
        assert StakeEntries(d, vaults[i..]) + later == [e] + rest;
        Ahead(inp, d, nowMs, View(), e, rest);
        error := DepositOne(e);
        if error.Some? {
          return;
        }
      }
      assert StakeEntries(d, vaults[|vaults|..]) + later == later;
      error := None;
    }

    method DepositLiquidStakes(liquid: seq<LiquidDeposit>) returns (error: Option<PlanError>)
      requires Valid()
      modifies this
      ensures Valid() && Outcome(error, Work(old(View()), LiquidEntries(d, liquid)))
    {
      assert liquid[0..] == liquid;
      for i := 0 to |liquid|
        invariant Valid()
        invariant Work(old(View()), LiquidEntries(d, liquid)) == Work(View(), LiquidEntries(d, liquid[i..]))
      {
        var e := LiquidEntry(d, liquid[i]);
        assert liquid[i..][1..] == liquid[i + 1..];
        Ahead(inp, d, nowMs, View(), e, LiquidEntries(d, liquid[i + 1..]));
        error := DepositOne(e);
        if error.Some? {
          return;
        }
      }
      error := None;
    }

    method DepositStakes(stakes: DepositSet) returns (error: Option<PlanError>)
      requires Valid()
      modifies this
      ensures Valid()
      ensures Outcome(error, Work(old(View()), StakeEntries(d, stakes.vaults) + LiquidEntries(d, stakes.liquid)))
    {
      error := DepositStakeVaults(stakes.vaults, LiquidEntries(d, stakes.liquid));
      if error.Some? {
        return;
      }
      error := DepositLiquidStakes(stakes.liquid);
    }
  }

  /** Recipients first, then ANTs, balances, personal vaults, and the stake and withdrawal plan. */
  method BuildLedgerPlan(inp: Inputs, d: Deriver, nowMs: int) returns (result: Result<St>)
    ensures result == Build(inp, d, nowMs)
  {
    var p := new Planner(inp, d, nowMs);
    var error := p.LoadRecipients();
    if error.Some? {
      return Err(error.value);
    }
    ghost var st := p.View();
    ghost var ants, balances, vaults := AntEntries(inp, d, inp.ants), BalanceEntries(inp, d, inp.balances), VaultEntries(inp, d, inp.vaults);
    DepositAllSplits(inp, d, nowMs, st, ants + balances, vaults);
    DepositAllSplits(inp, d, nowMs, st, ants, balances);
    error := p.DepositAnts();
    if error.Some? {
      return Err(error.value);
    }
    error := p.DepositBalances();
    if error.Some? {
      return Err(error.value);
    }
    error := p.DepositVaults();
    if error.Some? {
      return Err(error.value);
    }
    var stakes := Collect(inp.plan);
    var unique := SeedsAreUnique(d.lower, Seeds(stakes));
    if !unique {
      return Err(AliasedSeed);
    }
    error := p.DepositStakes(stakes);
    if error.Some? {
      return Err(error.value);
    }
    return Ok(St(p.recipients, p.assets, p.totals));
  }
}
