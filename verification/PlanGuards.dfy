/**
 When the ledger planner refuses to build, exactly, and which recipients a build that succeeds has.
 */
module PlanGuards {
  import opened Prelude
  import opened LedgerInputs
  import opened LedgerPlan
  import opened PlanProperties
  import opened PlanRouting

  // ---------------------------------------------------------------------------
  // When a build succeeds
  // ---------------------------------------------------------------------------

  /** Row i of the modulus file is the first for its address, or repeats an earlier one. */
  ghost predicate Repeats(inp: Inputs, i: nat)
    requires i < |inp.modulus|
  {
    exists j :: 0 <= j < i && Normalize(inp.modulus[j].0) == Normalize(inp.modulus[i].0)
  }

  /** Every modulus hashes to the address it is listed for; Ethereum addresses are not hashes. */
  ghost predicate ModuliMatch(inp: Inputs, d: Deriver) {
    forall i :: 0 <= i < |inp.modulus| && !Repeats(inp, i) && !IsEthereum(inp.modulus[i].0) ==>
      d.recipientId(d.decodeModulus(inp.modulus[i].1)) == inp.modulus[i].0
  }

  /** The owner's first modulus on file, decoded, has the right length. */
  ghost predicate FullModulus(inp: Inputs, d: Deriver, owner: string) {
    exists i :: 0 <= i < |inp.modulus| && inp.modulus[i].0 == owner && |d.decodeModulus(inp.modulus[i].1)| == 512
                && forall j :: 0 <= j < i ==> inp.modulus[j].0 != owner
  }

  /** The planner knows what to do with the owner: a key it can use, or nothing on file and known to be at risk. */
  ghost predicate OwnerKnown(inp: Inputs, d: Deriver, owner: string) {
    if CanClaim(inp, owner) then IsEthereum(owner) || FullModulus(inp, d, owner) else owner in inp.atRisk
  }

  lemma {:induction false} ModuliLoadExactly(inp: Inputs, d: Deriver, rs: Recipients, n: nat)
    requires n <= |inp.modulus|
    requires forall src :: src in rs <==> exists i :: 0 <= i < n && Normalize(inp.modulus[i].0) == src
    ensures LoadModuli(d, rs, inp.modulus[n..]).Ok? <==>
            forall i :: n <= i < |inp.modulus| && !Repeats(inp, i) && !IsEthereum(inp.modulus[i].0) ==>
              d.recipientId(d.decodeModulus(inp.modulus[i].1)) == inp.modulus[i].0
    decreases |inp.modulus| - n
  {
    if n < |inp.modulus| {
      var row := inp.modulus[n];
      assert inp.modulus[n..][1..] == inp.modulus[n + 1..];
      assert Repeats(inp, n) <==> Normalize(row.0) in rs;
      var next := Upsert(d, rs, row.0, Some(d.decodeModulus(row.1)));
      if next.Ok? {
        assert next.value.Keys == rs.Keys + {Normalize(row.0)};
        ModuliLoadExactly(inp, d, next.value, n + 1);
      }
    }
  }

  lemma {:induction false} AtRiskAlwaysLoads(d: Deriver, rs: Recipients, owners: seq<string>)
    ensures LoadAtRisk(d, rs, owners).Ok?
    decreases |owners|
  {
    if owners != [] {
      AtRiskAlwaysLoads(d, Upsert(d, rs, owners[0], None).value, owners[1..]);
    }
  }

  lemma LoadsExactly(inp: Inputs, d: Deriver)
    ensures Loaded(inp, d).Ok? <==> ModuliMatch(inp, d)
  {
    assert inp.modulus[0..] == inp.modulus;
    ModuliLoadExactly(inp, d, map[], 0);
    if LoadModuli(d, map[], inp.modulus).Ok? {
      AtRiskAlwaysLoads(d, LoadModuli(d, map[], inp.modulus).value, inp.atRisk);
    }
  }

  /** Every listed modulus has its recipient. */
  ghost predicate ModuliIn(inp: Inputs, rs: Recipients) {
    forall i :: 0 <= i < |inp.modulus| ==> Normalize(inp.modulus[i].0) in rs
  }

  lemma LoadedHasModuli(inp: Inputs, d: Deriver)
    requires Loaded(inp, d).Ok?
    ensures ModuliIn(inp, Loaded(inp, d).value)
  {
    ListsDecideWhenLoaded(inp, d);
    forall i | 0 <= i < |inp.modulus| ensures Normalize(inp.modulus[i].0) in Loaded(inp, d).value {
      assert HasModulus(inp, Normalize(inp.modulus[i].0));
    }
  }

  lemma ClassifiesExactly(inp: Inputs, d: Deriver, rs: Recipients, owner: string)
    requires ModuliIn(inp, rs)
    ensures Classify(inp, d, rs, owner).Ok? <==> OwnerKnown(inp, d, owner)
    ensures Classify(inp, d, rs, owner).Ok? ==> ModuliIn(inp, Classify(inp, d, rs, owner).value.0)
  {
    FirstModulus(inp.modulus, owner);
    if !IsEthereum(owner) && Lookup(inp.modulus, owner).Some? {
      var encoded := Lookup(inp.modulus, owner).value;
      var i :| 0 <= i < |inp.modulus| && inp.modulus[i] == (owner, encoded) && forall j :: 0 <= j < i ==> inp.modulus[j].0 != owner;
      assert Normalize(inp.modulus[i].0) in rs;
      assert FullModulus(inp, d, owner) <==> |d.decodeModulus(encoded)| == 512;
    }
  }

  /** None of the entries repeats a key. */
  predicate KeysDistinct(es: seq<Entry>) {
    forall i, j :: 0 <= i < j < |es| ==> es[i].key != es[j].key
  }

  lemma {:induction false} PassSucceedsExactly(inp: Inputs, d: Deriver, nowMs: int, st: St, es: seq<Entry>)
    requires ModuliIn(inp, st.recipients)
    ensures DepositAll(inp, d, nowMs, st, es).Ok? <==>
            && (forall i :: 0 <= i < |es| ==> OwnerKnown(inp, d, es[i].owner) && !HasKey(st.assets, es[i].key))
            && KeysDistinct(es)
    decreases |es|
  {
    if es != [] {
      ClassifiesExactly(inp, d, st.recipients, es[0].owner);
      var next := Deposit(inp, d, nowMs, st, es[0]);
      if next.Ok? {
        PassSucceedsExactly(inp, d, nowMs, next.value, es[1..]);
        KeysOneFurther(st.assets, next.value.assets, es);
      }
    }
  }

  lemma KeysOneFurther(assets: seq<PlannedAsset>, more: seq<PlannedAsset>, es: seq<Entry>)
    requires es != [] && |more| == |assets| + 1 && more[..|assets|] == assets && more[|assets|].key == es[0].key
    requires !HasKey(assets, es[0].key)
    ensures (forall i :: 0 <= i < |es| ==> !HasKey(assets, es[i].key)) && KeysDistinct(es) <==>
            (forall i :: 0 <= i < |es[1..]| ==> !HasKey(more, es[1..][i].key)) && KeysDistinct(es[1..])
  {
    forall key ensures HasKey(more, key) <==> HasKey(assets, key) || key == es[0].key {
      if i :| 0 <= i < |assets| && assets[i].key == key {
        assert more[i].key == key;
      }
      if i :| 0 <= i < |more| && more[i].key == key && i < |assets| {
        assert assets[i].key == key;
      }
      assert more[|assets|].key == es[0].key;
    }
    forall i | 0 < i < |es| ensures es[i] == es[1..][i - 1] {
    }
    if (forall i :: 0 <= i < |es[1..]| ==> !HasKey(more, es[1..][i].key)) && KeysDistinct(es[1..]) {
      forall i, j | 0 <= i < j < |es| ensures es[i].key != es[j].key {
        assert es[j] == es[1..][j - 1];
        assert i > 0 ==> es[i] == es[1..][i - 1];
      }
    }
  }

  /**
   A build succeeds exactly when every modulus matches its address, every deposited owner is known, no two deposits
   have the same key, and no two stake seeds are the same up to case.
   */
  lemma BuildSucceedsExactly(inp: Inputs, d: Deriver, nowMs: int)
    ensures Build(inp, d, nowMs).Ok? <==>
            && ModuliMatch(inp, d)
            && (forall i :: 0 <= i < |Entries(inp, d)| ==> OwnerKnown(inp, d, Entries(inp, d)[i].owner))
            && KeysDistinct(Entries(inp, d))
            && CaseDistinct(d.lower, Seeds(Collect(inp.plan)), |Seeds(Collect(inp.plan))|)
  {
    LoadsExactly(inp, d);
    if Loaded(inp, d).Ok? {
      LoadedHasModuli(inp, d);
      var st := St(Loaded(inp, d).value, [], NO_TOTALS);
      PassSucceedsExactly(inp, d, nowMs, st, Entries(inp, d));
      DepositAllSplits(inp, d, nowMs, st, EarlyEntries(inp, d), LateEntries(inp, d));
    }
  }

  // ---------------------------------------------------------------------------
  // Recipients
  // ---------------------------------------------------------------------------

  /**
   An open recipient has a key and is named by its hash, which for an Arweave address is the address itself; one in
   manual review has no key and is named by its address. An address neither list knows is an Ethereum address, and
   is its own key.
   */
  ghost predicate RecipientSound(inp: Inputs, d: Deriver, src: string, r: Recipient) {
    && (r.ethereum <==> IsEthereum(src)) && (r.open <==> r.pubkey.Some?)
    && (r.open ==> r.id == d.recipientId(r.pubkey.value))
    && (!r.open || !r.ethereum ==> r.id == src)
    && (!HasModulus(inp, src) && !ListedAtRisk(inp, src) ==> r.ethereum && r.pubkey == Some(d.addressBytes(src)))
  }

  ghost predicate RecipientsSound(inp: Inputs, d: Deriver, rs: Recipients) {
    forall src :: src in rs ==> RecipientSound(inp, d, src, rs[src])
  }

  lemma UpsertKeepsSound(inp: Inputs, d: Deriver, rs: Recipients, owner: string, pubkey: Option<Bytes>)
    requires RecipientsSound(inp, d, rs) && Upsert(d, rs, owner, pubkey).Ok?
    requires HasModulus(inp, Normalize(owner)) || ListedAtRisk(inp, Normalize(owner))
             || (IsEthereum(owner) && pubkey == Some(d.addressBytes(Normalize(owner))))
    ensures RecipientsSound(inp, d, Upsert(d, rs, owner, pubkey).value)
  {
    NormalizeIsCanonical(owner, owner);
  }

  lemma {:induction false} ModuliKeepSound(inp: Inputs, d: Deriver, rs: Recipients, n: nat)
    requires n <= |inp.modulus| && RecipientsSound(inp, d, rs) && LoadModuli(d, rs, inp.modulus[n..]).Ok?
    ensures RecipientsSound(inp, d, LoadModuli(d, rs, inp.modulus[n..]).value)
    decreases |inp.modulus| - n
  {
    if n < |inp.modulus| {
      var row := inp.modulus[n];
      assert inp.modulus[n..][1..] == inp.modulus[n + 1..];
      assert HasModulus(inp, Normalize(row.0));
      UpsertKeepsSound(inp, d, rs, row.0, Some(d.decodeModulus(row.1)));
      ModuliKeepSound(inp, d, Upsert(d, rs, row.0, Some(d.decodeModulus(row.1))).value, n + 1);
    }
  }

  lemma {:induction false} AtRiskKeepsSound(inp: Inputs, d: Deriver, rs: Recipients, n: nat)
    requires n <= |inp.atRisk| && RecipientsSound(inp, d, rs) && LoadAtRisk(d, rs, inp.atRisk[n..]).Ok?
    ensures RecipientsSound(inp, d, LoadAtRisk(d, rs, inp.atRisk[n..]).value)
    decreases |inp.atRisk| - n
  {
    if n < |inp.atRisk| {
      assert inp.atRisk[n..][1..] == inp.atRisk[n + 1..];
      assert ListedAtRisk(inp, Normalize(inp.atRisk[n]));
      UpsertKeepsSound(inp, d, rs, inp.atRisk[n], None);
      AtRiskKeepsSound(inp, d, Upsert(d, rs, inp.atRisk[n], None).value, n + 1);
    }
  }

  lemma {:induction false} PassKeepsSound(inp: Inputs, d: Deriver, nowMs: int, st: St, es: seq<Entry>)
    requires DepositAll(inp, d, nowMs, st, es).Ok? && RecipientsSound(inp, d, st.recipients)
    ensures RecipientsSound(inp, d, DepositAll(inp, d, nowMs, st, es).value.recipients)
    decreases |es|
  {
    if es != [] {
      OwnerIsListed(inp, d, st.recipients, es[0].owner);
      UpsertKeepsSound(inp, d, st.recipients, es[0].owner, Resolve(inp, d, es[0].owner).value);
      PassKeepsSound(inp, d, nowMs, Deposit(inp, d, nowMs, st, es[0]).value, es[1..]);
    }
  }

  /** Every recipient of a plan is sound, and the lists alone decide which are open. */
  lemma RecipientsAreSound(inp: Inputs, d: Deriver, nowMs: int)
    requires Build(inp, d, nowMs).Ok?
    ensures RecipientsSound(inp, d, Build(inp, d, nowMs).value.recipients)
    ensures ListsDecide(inp, Build(inp, d, nowMs).value.recipients)
  {
    BuildIsOnePass(inp, d, nowMs);
    assert inp.modulus[0..] == inp.modulus && inp.atRisk[0..] == inp.atRisk;
    ModuliKeepSound(inp, d, map[], 0);
    AtRiskKeepsSound(inp, d, LoadModuli(d, map[], inp.modulus).value, 0);
    ListsDecideWhenLoaded(inp, d);
    var st := St(Loaded(inp, d).value, [], NO_TOTALS);
    PassKeepsSound(inp, d, nowMs, st, Entries(inp, d));
    PassKeepsDecision(inp, d, nowMs, st, Entries(inp, d));
  }
}
