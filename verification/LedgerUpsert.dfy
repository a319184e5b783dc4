/** The status-scoped upsert of planned rows into the asset table, and why it is safe at any point. */
module LedgerUpsert {
  import opened Prelude
  import opened Rows
  import opened Chain

  /** One asset of a plan, with the fresh random nonce minted for its row. */
  datatype PlanRow = PlanRow(
    key: AssetKey, kind: AssetKind, recipient: RecipientId, mint: Option<Mint>,
    amount: Option<nat>, vaultEnd: Option<int>, manualReview: bool, nonce: Nonce
  )

  function Excluded(r: PlanRow, nonce: Nonce): Asset {
    Asset(r.kind, r.recipient, r.mint, r.amount, r.vaultEnd, nonce,
          if r.manualReview then ManualReview else Available)
  }

  /** INSERT ... ON CONFLICT DO UPDATE ... WHERE the existing row is still buildable; the nonce stays. */
  function Upsert(assets: map<AssetKey, Asset>, r: PlanRow): map<AssetKey, Asset> {
    if r.key !in assets then assets[r.key := Excluded(r, r.nonce)]
    else if Buildable(assets[r.key]) then assets[r.key := Excluded(r, assets[r.key].nonce)]
    else assets
  }

  function UpsertAll(assets: map<AssetKey, Asset>, rows: seq<PlanRow>): map<AssetKey, Asset>
    decreases |rows|
  {
    if rows == [] then assets else UpsertAll(Upsert(assets, rows[0]), rows[1..])
  }

  predicate PlanShape(rows: seq<PlanRow>) {
    forall i :: 0 <= i < |rows| ==> ShapeOk(Excluded(rows[i], rows[i].nonce))
  }

  /** What a rebuild may do to the table: nothing to a live row, and no nonce or key is lost. */
  ghost predicate RebuildSafe(before: map<AssetKey, Asset>, after: map<AssetKey, Asset>) {
    && before.Keys <= after.Keys
    && (forall k :: k in before ==> after[k].nonce == before[k].nonce)
    && (forall k :: k in before && !Buildable(before[k]) ==> after[k] == before[k])
    && (forall k :: k in after && (k !in before || Buildable(before[k])) ==> Buildable(after[k]))
  }

  lemma {:induction false} RebuildIsSafe(assets: map<AssetKey, Asset>, rows: seq<PlanRow>)
    ensures RebuildSafe(assets, UpsertAll(assets, rows))
    decreases |rows|
  {
    if rows != [] {
      RebuildIsSafe(Upsert(assets, rows[0]), rows[1..]);
    }
  }

  lemma {:induction false} RebuildKeepsShape(assets: map<AssetKey, Asset>, rows: seq<PlanRow>)
    requires PlanShape(rows)
    requires forall k :: k in assets ==> ShapeOk(assets[k])
    ensures forall k :: k in UpsertAll(assets, rows) ==> ShapeOk(UpsertAll(assets, rows)[k])
    decreases |rows|
  {
    if rows != [] {
      assert PlanShape(rows[1..]);
      assert ShapeOk(Excluded(rows[0], rows[0].nonce));
      RebuildKeepsShape(Upsert(assets, rows[0]), rows[1..]);
    }
  }
}
