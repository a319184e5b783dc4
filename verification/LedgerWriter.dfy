/** Writing a ledger plan: the refuse guard, statements in chunks, and all or nothing. */
module LedgerWriter {
  import opened Prelude
  import opened Rows
  import opened LedgerUpsert

  // ---------------------------------------------------------------------------
  // One statement, and chunks of statements
  // ---------------------------------------------------------------------------

  predicate LiveRow(assets: map<AssetKey, Asset>, k: AssetKey) {
    k in assets && !Buildable(assets[k])
  }

  /** Two rows of one statement would write the same table row: the database refuses the statement. */
  predicate Clash(assets: map<AssetKey, Asset>, rows: seq<PlanRow>, i: nat, j: nat) {
    i < j < |rows| && rows[i].key == rows[j].key && !LiveRow(assets, rows[i].key)
  }

  ghost function Statement(assets: map<AssetKey, Asset>, rows: seq<PlanRow>): Option<map<AssetKey, Asset>> {
    if exists i, j :: Clash(assets, rows, i, j) then None else Some(UpsertAll(assets, rows))
  }

  ghost function Chunked(assets: map<AssetKey, Asset>, rows: seq<PlanRow>, size: nat): Option<map<AssetKey, Asset>>
    requires size > 0
    decreases |rows|
  {
    if rows == [] then Some(assets)
    else
      var n := if size < |rows| then size else |rows|;
      match Statement(assets, rows[..n])
      case None => None
      case Some(next) => Chunked(next, rows[n..], size)
  }

  predicate DistinctKeys(rows: seq<PlanRow>) {
    forall i, j :: 0 <= i < j < |rows| ==> rows[i].key != rows[j].key
  }

  lemma {:induction false} UpsertAllSplits(assets: map<AssetKey, Asset>, xs: seq<PlanRow>, ys: seq<PlanRow>)
    ensures UpsertAll(assets, xs + ys) == UpsertAll(UpsertAll(assets, xs), ys)
    decreases |xs|
  {
    if xs == [] {
      assert xs + ys == ys;
    } else {
      assert (xs + ys)[0] == xs[0] && (xs + ys)[1..] == xs[1..] + ys;
      UpsertAllSplits(Upsert(assets, xs[0]), xs[1..], ys);
    }
  }

  lemma NextChunk(i: nat, size: nat)
    requires size > 0
    ensures (i + size) / size == i / size + 1
  {
    assert i == size * (i / size) + i % size;
    assert i + size == size * (i / size + 1) + i % size;
    Quotient(i + size, size, i / size + 1, i % size);
  }

  lemma {:induction false} MulGrows(size: nat, p: int, q: int)
    requires p <= q
    ensures size * p <= size * q
  {
    assert size * (q - p) >= 0;
    assert size * q == size * p + size * (q - p);
  }

  lemma Quotient(x: int, size: nat, q: int, r: int)
    requires size > 0 && 0 <= r < size && x == size * q + r
    ensures x / size == q
  {
    var p := x / size;
    assert x == size * p + x % size;
    if p > q {
      MulGrows(size, q + 1, p);
    } else if p < q {
      MulGrows(size, p + 1, q);
    }
  }

  lemma SmallQuotient(i: nat, size: nat)
    requires i < size
    ensures i / size == 0
  {
    Quotient(i, size, 0, i);
  }

  /** Two rows clash inside one chunk. */
  ghost predicate ChunkClash(assets: map<AssetKey, Asset>, rows: seq<PlanRow>, size: nat)
    requires size > 0
  {
    exists i: nat, j: nat :: Clash(assets, rows, i, j) && i / size == j / size
  }

  /** Chunking fails exactly on a clash inside one chunk, and otherwise writes what one upsert writes. */
  lemma {:induction false} ChunkedExactly(assets: map<AssetKey, Asset>, rows: seq<PlanRow>, size: nat)
    requires size > 0
    ensures Chunked(assets, rows, size).None? <==> ChunkClash(assets, rows, size)
    ensures Chunked(assets, rows, size).Some? ==> Chunked(assets, rows, size).value == UpsertAll(assets, rows)
    decreases |rows|
  {
    if rows != [] {
      var n := if size < |rows| then size else |rows|;
      var head, tail := rows[..n], rows[n..];
      assert rows == head + tail;
      HeadClash(assets, rows, size, n);
      if Statement(assets, head).Some? {
        var next := UpsertAll(assets, head);
        RebuildIsSafe(assets, head);
        ChunkedExactly(next, tail, size);
        TailClash(assets, next, rows, size, n);
        UpsertAllSplits(assets, head, tail);
      }
    }
  }

  lemma HeadClash(assets: map<AssetKey, Asset>, rows: seq<PlanRow>, size: nat, n: nat)
    requires size > 0 && n <= |rows| && n <= size
    ensures (exists i, j :: Clash(assets, rows[..n], i, j)) ==> ChunkClash(assets, rows, size)
  {
    if i: nat, j: nat :| Clash(assets, rows[..n], i, j) {
      SmallQuotient(i, size);
      SmallQuotient(j, size);
      assert Clash(assets, rows, i, j);
    }
  }

  /** With a clean first chunk, the clashes are those of the remaining chunks. */
  lemma TailClash(assets: map<AssetKey, Asset>, next: map<AssetKey, Asset>, rows: seq<PlanRow>, size: nat, n: nat)
    requires size > 0 && n == (if size < |rows| then size else |rows|)
    requires RebuildSafe(assets, next) && !exists i, j :: Clash(assets, rows[..n], i, j)
    ensures ChunkClash(next, rows[n..], size) <==> ChunkClash(assets, rows, size)
  {
    var tail := rows[n..];
    if i: nat, j: nat :| Clash(next, tail, i, j) && i / size == j / size {
      NextChunk(i, size);
      NextChunk(j, size);
      assert tail[i] == rows[i + size] && tail[j] == rows[j + size];
      assert Clash(assets, rows, i + size, j + size);
    }
    if i: nat, j: nat :| Clash(assets, rows, i, j) && i / size == j / size {
      if j < n {
        assert Clash(assets, rows[..n], i, j);
      }
      assert j >= n && n == size;
      NextChunk(j - size, size);
      assert i >= n by {
        if i < n {
          SmallQuotient(i, size);
          assert false;
        }
      }
      NextChunk(i - size, size);
      assert tail[i - size] == rows[i] && tail[j - size] == rows[j];
      assert Clash(next, tail, i - size, j - size);
    }
  }

  /** For a plan with unique keys every chunk size writes what the single upsert writes. */
  lemma ChunkedEqualsSingle(assets: map<AssetKey, Asset>, rows: seq<PlanRow>, size: nat)
    requires size > 0 && DistinctKeys(rows)
    ensures Chunked(assets, rows, size) == Statement(assets, rows) == Some(UpsertAll(assets, rows))
  {
    ChunkedExactly(assets, rows, size);
  }

  /** They differ exactly when duplicate keys clash, but never within one chunk. */
  lemma ChunkedDiffersExactly(assets: map<AssetKey, Asset>, rows: seq<PlanRow>, size: nat)
    requires size > 0
    ensures Chunked(assets, rows, size) != Statement(assets, rows)
            <==> (exists i, j :: Clash(assets, rows, i, j)) && !ChunkClash(assets, rows, size)
  {
    ChunkedExactly(assets, rows, size);
  }

  // ---------------------------------------------------------------------------
  // Idempotence
  // ---------------------------------------------------------------------------

  /** The same plan built again: only the freshly minted nonces differ. */
  predicate SamePlan(rows: seq<PlanRow>, again: seq<PlanRow>) {
    && |again| == |rows|
    && forall i :: 0 <= i < |rows| ==> again[i] == rows[i].(nonce := again[i].nonce)
  }

  /** What an upsert of distinct keys leaves at each key. */
  lemma {:induction false} UpsertAllAt(assets: map<AssetKey, Asset>, rows: seq<PlanRow>)
    requires DistinctKeys(rows)
    ensures forall k :: k in UpsertAll(assets, rows) <==> k in assets || exists i :: 0 <= i < |rows| && rows[i].key == k
    ensures forall k :: k in assets && (LiveRow(assets, k) || forall i :: 0 <= i < |rows| ==> rows[i].key != k) ==>
              UpsertAll(assets, rows)[k] == assets[k]
    ensures forall i :: 0 <= i < |rows| && !LiveRow(assets, rows[i].key) ==>
              UpsertAll(assets, rows)[rows[i].key] ==
              Excluded(rows[i], if rows[i].key in assets then assets[rows[i].key].nonce else rows[i].nonce)
    decreases |rows|
  {
    if rows != [] {
      var next, tail := Upsert(assets, rows[0]), rows[1..];
      assert DistinctKeys(tail);
      UpsertAllAt(next, tail);
      var done := UpsertAll(assets, rows);
      forall i | 0 <= i < |rows| && !LiveRow(assets, rows[i].key)
        ensures done[rows[i].key] == Excluded(rows[i], if rows[i].key in assets then assets[rows[i].key].nonce else rows[i].nonce)
      {
        if i > 0 {
          assert tail[i - 1] == rows[i] && rows[0].key != rows[i].key;
        } else {
          assert forall j :: 0 <= j < |tail| ==> tail[j].key != rows[0].key;
        }
      }
      forall k ensures k in done <==> k in assets || exists i :: 0 <= i < |rows| && rows[i].key == k {
        assert k in next <==> k in assets || rows[0].key == k;
        if i :| 0 <= i < |rows| && rows[i].key == k {
          assert i > 0 ==> tail[i - 1].key == k;
        }
        if i :| 0 <= i < |tail| && tail[i].key == k {
          assert rows[i + 1].key == k;
        }
      }
    }
  }

  /** Writing the same plan twice is writing it once, whatever nonces the second run minted. */
  lemma RebuildIsIdempotent(assets: map<AssetKey, Asset>, rows: seq<PlanRow>, again: seq<PlanRow>)
    requires DistinctKeys(rows) && SamePlan(rows, again)
    ensures UpsertAll(UpsertAll(assets, rows), again) == UpsertAll(assets, rows)
  {
    var once := UpsertAll(assets, rows);
    assert DistinctKeys(again);
    UpsertAllAt(assets, rows);
    UpsertAllAt(once, again);
    RebuildIsSafe(assets, rows);
    var twice := UpsertAll(once, again);
    forall k ensures k in twice <==> k in once {
      if i :| 0 <= i < |again| && again[i].key == k {
        assert rows[i].key == k;
      }
    }
    forall k | k in once ensures twice[k] == once[k] {
      if i :| 0 <= i < |again| && again[i].key == k {
        assert rows[i].key == k;
      }
    }
  }

  // ---------------------------------------------------------------------------
  // What a rebuild leaves behind
  // ---------------------------------------------------------------------------

  predicate Unwon(a: Asset) {
    a.status.Available? || a.status.ManualReview?
  }

  /** The row as the plan has it, under the given nonce. */
  predicate AsPlanned(a: Asset, p: PlanRow, nonce: Nonce) {
    && a.kind == p.kind && a.recipient == p.recipient && a.mint == p.mint && a.amount == p.amount && a.vaultEnd == p.vaultEnd
    && a.nonce == nonce && (if p.manualReview then a.status.ManualReview? else a.status.Available?)
  }

  /**
   Planned assets that nobody has won are as the plan has them, with the nonce they already had or the planned one
   if they are new, and all other rows stay as they are.
   */
  ghost predicate Rebuilt(was: map<AssetKey, Asset>, now: map<AssetKey, Asset>, rows: seq<PlanRow>) {
    && (forall k :: k in now <==> k in was || exists i :: 0 <= i < |rows| && rows[i].key == k)
    && (forall k :: k in was && !Unwon(was[k]) ==> now[k] == was[k])
    && (forall k :: k in was && (forall i :: 0 <= i < |rows| ==> rows[i].key != k) ==> now[k] == was[k])
    && (forall i :: 0 <= i < |rows| && (rows[i].key in was ==> Unwon(was[rows[i].key])) ==>
          AsPlanned(now[rows[i].key], rows[i], if rows[i].key in was then was[rows[i].key].nonce else rows[i].nonce))
  }

  lemma UpsertRebuilds(assets: map<AssetKey, Asset>, rows: seq<PlanRow>)
    requires DistinctKeys(rows)
    ensures Rebuilt(assets, UpsertAll(assets, rows), rows)
  {
    UpsertAllAt(assets, rows);
  }

  // ---------------------------------------------------------------------------
  // The transaction
  // ---------------------------------------------------------------------------

  /** One insert statement: it fails as a whole when it would write a row twice. */
  method RunStatement(db: Tables, chunk: seq<PlanRow>) returns (ok: bool)
    modifies db`assets
    ensures ok <==> Statement(old(db.assets), chunk).Some?
    ensures ok ==> db.assets == UpsertAll(old(db.assets), chunk)
  {
    ghost var was := db.assets;
    var touched: set<AssetKey> := {};
    for i := 0 to |chunk|
      invariant UpsertAll(was, chunk) == UpsertAll(db.assets, chunk[i..])
      invariant forall k :: LiveRow(db.assets, k) <==> LiveRow(was, k)
      invariant forall k :: k in touched <==> !LiveRow(was, k) && exists j :: 0 <= j < i && chunk[j].key == k
      invariant forall p: nat, q: nat :: Clash(was, chunk, p, q) ==> q >= i
    {
      var row := chunk[i];
      assert chunk[i..][1..] == chunk[i + 1..];
      if row.key in touched {
        ghost var j :| 0 <= j < i && chunk[j].key == row.key;
        assert Clash(was, chunk, j, i);
        return false;
      }
      if row.key !in db.assets {
        db.assets := db.assets[row.key := Excluded(row, row.nonce)];
        touched := touched + {row.key};
      } else if Buildable(db.assets[row.key]) {
        db.assets := db.assets[row.key := Excluded(row, db.assets[row.key].nonce)];
        touched := touched + {row.key};
      }
      assert forall p: nat :: !Clash(was, chunk, p, i);
    }
    return true;
  }

  method InsertChunked(db: Tables, rows: seq<PlanRow>, size: nat) returns (ok: bool)
    requires size > 0
    modifies db`assets
    ensures ok <==> Chunked(old(db.assets), rows, size).Some?
    ensures ok ==> db.assets == Chunked(old(db.assets), rows, size).value
  {
    var i := 0;
    assert rows[0..] == rows;
    while i < |rows|
      invariant i <= |rows|
      invariant Chunked(old(db.assets), rows, size) == Chunked(db.assets, rows[i..], size)
      decreases |rows| - i
    {
      var next := if i + size < |rows| then i + size else |rows|;
      ghost var rest := rows[i..];
      assert rest[..next - i] == rows[i..next] && rest[next - i..] == rows[next..];
      ok := RunStatement(db, rows[i..next]);
      if !ok {
        return false;
      }
      i := next;
    }
    assert rows[i..] == [];
    return true;
  }

  const CHUNK: nat := 500

  predicate PlansLiveRow(assets: map<AssetKey, Asset>, rows: seq<PlanRow>) {
    exists i :: 0 <= i < |rows| && LiveRow(assets, rows[i].key)
  }

  /** Refuse a plan with live rows unless told otherwise; write everything, or roll everything back. */
  method WriteLedger(db: Tables, rows: seq<PlanRow>, keyed: map<RecipientId, bool>, allowLiveRebuild: bool)
    returns (ok: bool)
    modifies db
    ensures ok <==> (allowLiveRebuild || !PlansLiveRow(old(db.assets), rows)) && !ChunkClash(old(db.assets), rows, CHUNK)
    ensures ok ==> db.View() == old(db.View()).(assets := UpsertAll(old(db.assets), rows), keyed := old(db.keyed) + keyed)
    ensures !ok ==> db.View() == old(db.View())
    ensures DistinctKeys(rows) ==>
              && (ok <==> allowLiveRebuild
                          || forall i :: 0 <= i < |rows| && rows[i].key in old(db.assets) ==> Unwon(old(db.assets)[rows[i].key]))
              && (ok ==> Rebuilt(old(db.assets), db.assets, rows))
  {
    if DistinctKeys(rows) {
      UpsertRebuilds(db.assets, rows);
    }
    var savedAssets, savedKeyed := db.assets, db.keyed;
    ChunkedExactly(db.assets, rows, CHUNK);
    if !allowLiveRebuild {
      var live := 0;
      for i := 0 to |rows|
        invariant live > 0 <==> exists j :: 0 <= j < i && LiveRow(db.assets, rows[j].key)
      {
        if rows[i].key in db.assets && !Buildable(db.assets[rows[i].key]) {
          live := live + 1;
        }
      }
      if live > 0 {
        return false;
      }
    }
    db.keyed := db.keyed + keyed;
    ok := InsertChunked(db, rows, CHUNK);
    if !ok {
      db.assets := savedAssets;
      db.keyed := savedKeyed;
    }
  }
}
