/**
 The audit log: appending under the advisory lock, verifying the hash chain, and why an anchored hash
 pins down everything before it.
 */
module AuditLog {
  import opened Prelude
  import opened JsonText
  import opened CanonicalJson
  import opened CanonicalForm
  import opened JsonReader

  type Hash = h: seq<nat> | |h| == 32 witness seq(32, i => 0)
  type Signature = s: seq<nat> | |s| == 64 witness seq(64, i => 0)
  type Sha = seq<nat> -> Hash

  /** A field of n zero bytes. */
  function Blank(n: nat): seq<nat> {
    seq(n, i => 0)
  }

  const GENESIS: Hash := Blank(32)
  const UNSIGNED: Signature := Blank(64)

  /** The chain starts from 32 zero bytes, and a missing signature is 64 of them. */
  lemma BlanksAreZero(i: nat)
    ensures i < 32 ==> GENESIS[i] == 0
    ensures i < 64 ==> UNSIGNED[i] == 0
  {
    assert i < 64 ==> Blank(64)[i] == 0;
    assert i < 32 ==> Blank(32)[i] == 0;
  }

  /** A stored row; the text is the exact canonical form that was hashed. */
  datatype LogRow = LogRow(number: nat, prev: Hash, text: Text, hash: Hash, signature: Signature)

  function HashCanonical(sha: Sha, prev: Hash, text: Text): Hash {
    sha(prev + ToUtf8(text))
  }

  function PrevAt(rows: seq<LogRow>, first: Hash, i: nat): Hash
    requires i <= |rows|
  {
    if i == 0 then first else rows[i - 1].hash
  }

  predicate Linked(sha: Sha, rows: seq<LogRow>, first: Hash, i: nat)
    requires i < |rows|
  {
    && rows[i].prev == PrevAt(rows, first, i)
    && rows[i].hash == HashCanonical(sha, rows[i].prev, rows[i].text)
  }

  /** One linear chain from the given hash on. */
  predicate Chain(sha: Sha, rows: seq<LogRow>, first: Hash) {
    forall i :: 0 <= i < |rows| ==> Linked(sha, rows, first, i)
  }

  function Head(rows: seq<LogRow>, first: Hash): Hash {
    PrevAt(rows, first, |rows|)
  }

  /** The row an append on top of these rows inserts. */
  function NextRow(sha: Sha, rows: seq<LogRow>, number: nat, record: Json, sign: Option<Hash -> Signature>): LogRow {
    var prev := Head(rows, GENESIS);
    var hash := HashCanonical(sha, prev, Print(record));
    LogRow(number, prev, Print(record), hash, if sign.Some? then sign.value(hash) else UNSIGNED)
  }

  lemma AppendKeepsChain(sha: Sha, rows: seq<LogRow>, number: nat, record: Json, sign: Option<Hash -> Signature>)
    requires Chain(sha, rows, GENESIS)
    ensures Chain(sha, rows + [NextRow(sha, rows, number, record, sign)], GENESIS)
  {
    var longer := rows + [NextRow(sha, rows, number, record, sign)];
    forall i | 0 <= i < |longer| ensures Linked(sha, longer, GENESIS, i) {
      if i < |rows| {
        assert Linked(sha, rows, GENESIS, i);
        assert PrevAt(longer, GENESIS, i) == PrevAt(rows, GENESIS, i);
      }
    }
  }

  class Log {
    const sha: Sha
    var rows: seq<LogRow>
    var auditSigner: Option<Hash -> Signature>
    var nextNumber: nat

    constructor (sha: Sha)
      ensures this.sha == sha && rows == [] && auditSigner == None && Chain(sha, rows, GENESIS)
    {
      this.sha := sha;
      rows := [];
      auditSigner := None;
      nextNumber := 1;
    }

    method SetAuditSigner(signer: Option<Hash -> Signature>)
      modifies this`auditSigner
      ensures auditSigner == signer
    {
      auditSigner := signer;
    }

    method AppendAudit(record: Json)
      requires Chain(sha, rows, GENESIS)
      modifies this`rows, this`nextNumber
      ensures rows == old(rows) + [NextRow(sha, old(rows), old(nextNumber), record, auditSigner)]
      ensures nextNumber == old(nextNumber) + 1
      ensures |rows| == |old(rows)| + 1 && old(rows) == rows[..|old(rows)|]
      ensures var row := rows[|old(rows)|];
              && row.number == old(nextNumber) && row.text == Print(record)
              && row.prev == (if old(rows) == [] then GENESIS else old(rows)[|old(rows)| - 1].hash)
              && row.hash == sha(row.prev + ToUtf8(row.text))
              && row.signature == (if auditSigner.Some? then auditSigner.value(row.hash) else UNSIGNED)
      ensures Chain(sha, rows, GENESIS) && (StoredText(old(rows)) ==> StoredText(rows))
    {
      var prevHash := if rows == [] then GENESIS else rows[|rows| - 1].hash;
      var json := Print(record);
      var entryHash := HashCanonical(sha, prevHash, json);
      var signature := UNSIGNED;
      if auditSigner.Some? {
        signature := auditSigner.value(entryHash);
      }
      AppendKeepsChain(sha, rows, nextNumber, record, auditSigner);
      PrintIsPaired(record);
      rows := rows + [LogRow(nextNumber, prevHash, json, entryHash, signature)];
      nextNumber := nextNumber + 1;
    }

    /** Filling in signatures later touches nothing that is hashed, and gives what signing on write gives. */
    method SignUnsignedAuditRows(sign: Hash -> Signature) returns (n: nat)
      requires Chain(sha, rows, GENESIS)
      modifies this`rows
      ensures |rows| == |old(rows)| && Chain(sha, rows, GENESIS)
      ensures forall i :: 0 <= i < |rows| ==>
                rows[i] == if old(rows)[i].signature == UNSIGNED
                           then old(rows)[i].(signature := sign(old(rows)[i].hash)) else old(rows)[i]
    {
      n := 0;
      for i := 0 to |rows|
        invariant |rows| == |old(rows)|
        invariant forall j :: 0 <= j < |rows| ==>
                    rows[j] == if j < i && old(rows)[j].signature == UNSIGNED
                               then old(rows)[j].(signature := sign(old(rows)[j].hash)) else old(rows)[j]
      {
        if rows[i].signature == UNSIGNED {
          rows := rows[i := rows[i].(signature := sign(rows[i].hash))];
          n := n + 1;
        }
      }
      SignaturesAreNotHashed(sha, old(rows), rows);
    }
  }

  lemma SignaturesAreNotHashed(sha: Sha, rows: seq<LogRow>, signed: seq<LogRow>)
    requires Chain(sha, rows, GENESIS) && |signed| == |rows|
    requires forall i :: 0 <= i < |rows| ==> signed[i] == rows[i].(signature := signed[i].signature)
    ensures Chain(sha, signed, GENESIS)
  {
    forall i | 0 <= i < |signed| ensures Linked(sha, signed, GENESIS, i) {
      assert Linked(sha, rows, GENESIS, i);
    }
  }

  // ---------------------------------------------------------------------------
  // Concurrent appends
  // ---------------------------------------------------------------------------

  /** Committed rows, the holder of the advisory lock, and the rows its transaction has inserted. */
  datatype Shared = Shared(committed: seq<LogRow>, holder: Option<nat>, pending: seq<LogRow>, nextNumber: nat)

  datatype LogStep =
    | AppendBy(t: nat, record: Json, sign: Option<Hash -> Signature>)
    | CommitBy(t: nat)
    | RollbackBy(t: nat)

  /** The lock is taken by the first append and kept to the end of the transaction. */
  function LogNext(sha: Sha, s: Shared, step: LogStep): Option<Shared> {
    match step
    case AppendBy(t, record, sign) =>
      if s.holder.None? || s.holder == Some(t) then
        Some(s.(holder := Some(t), nextNumber := s.nextNumber + 1,
                pending := s.pending + [NextRow(sha, s.committed + s.pending, s.nextNumber, record, sign)]))
      else None
    case CommitBy(t) =>
      if s.holder == Some(t) then Some(s.(committed := s.committed + s.pending, holder := None, pending := [])) else None
    case RollbackBy(t) =>
      if s.holder == Some(t) then Some(s.(holder := None, pending := [])) else None
  }

  /** What every instant of a run satisfies: the visible log is a chain, with strictly growing numbers. */
  ghost predicate LogOk(sha: Sha, s: Shared) {
    && Chain(sha, s.committed + s.pending, GENESIS)
    && (s.holder.None? ==> s.pending == [])
    && (forall i :: 0 <= i < |s.committed + s.pending| ==> (s.committed + s.pending)[i].number < s.nextNumber)
    && (forall i, j :: 0 <= i < j < |s.committed + s.pending| ==>
          (s.committed + s.pending)[i].number < (s.committed + s.pending)[j].number)
  }

  lemma PrefixIsChain(sha: Sha, rows: seq<LogRow>, n: nat)
    requires Chain(sha, rows, GENESIS) && n <= |rows|
    ensures Chain(sha, rows[..n], GENESIS)
  {
    forall i | 0 <= i < n ensures Linked(sha, rows[..n], GENESIS, i) {
      assert Linked(sha, rows, GENESIS, i);
    }
  }

  /** Whatever transactions interleave, commit or roll back, the committed log stays one linear chain and only grows. */
  lemma ConcurrentAppendsStayLinear(sha: Sha, s: Shared, step: LogStep, s': Shared)
    requires LogOk(sha, s) && LogNext(sha, s, step) == Some(s')
    ensures LogOk(sha, s') && Chain(sha, s'.committed, GENESIS) && s.committed <= s'.committed
  {
    var rows := s.committed + s.pending;
    match step {
      case AppendBy(t, record, sign) =>
        AppendKeepsChain(sha, rows, s.nextNumber, record, sign);
        assert s'.committed + s'.pending == rows + [NextRow(sha, rows, s.nextNumber, record, sign)];
      case CommitBy(t) =>
        assert s'.committed + s'.pending == rows;
      case RollbackBy(t) =>
        PrefixIsChain(sha, rows, |s.committed|);
        assert s'.committed + s'.pending == rows[..|s.committed|];
    }
    PrefixIsChain(sha, s'.committed + s'.pending, |s'.committed|);
    assert (s'.committed + s'.pending)[..|s'.committed|] == s'.committed;
  }

  ghost predicate LogStepAt(sha: Sha, states: seq<Shared>, steps: seq<LogStep>, i: nat)
    requires i < |steps| && |states| == |steps| + 1
  {
    LogNext(sha, states[i], steps[i]) == Some(states[i + 1])
  }

  /** Any interleaving of transactions on a log that starts empty. */
  ghost predicate LogRun(sha: Sha, states: seq<Shared>, steps: seq<LogStep>) {
    && |states| == |steps| + 1
    && states[0].committed == [] && states[0].holder == None && states[0].pending == []
    && forall i :: 0 <= i < |steps| ==> LogStepAt(sha, states, steps, i)
  }

  lemma {:induction false} ReachableLogOk(sha: Sha, states: seq<Shared>, steps: seq<LogStep>, i: nat)
    requires LogRun(sha, states, steps) && i < |states|
    ensures LogOk(sha, states[i])
  {
    if i > 0 {
      ReachableLogOk(sha, states, steps, i - 1);
      assert LogStepAt(sha, states, steps, i - 1);
      ConcurrentAppendsStayLinear(sha, states[i - 1], steps[i - 1], states[i]);
    }
  }

  lemma CommittedIsLinear(sha: Sha, s: Shared)
    requires LogOk(sha, s)
    ensures Chain(sha, s.committed, GENESIS) && Ascending(s.committed)
  {
    var rows := s.committed + s.pending;
    PrefixIsChain(sha, rows, |s.committed|);
    assert rows[..|s.committed|] == s.committed;
    forall a, b | 0 <= a < b < |s.committed| ensures s.committed[a].number < s.committed[b].number {
      assert rows[a].number < rows[b].number;
    }
  }

  lemma NextCommitted(sha: Sha, states: seq<Shared>, steps: seq<LogStep>, i: nat)
    requires LogRun(sha, states, steps) && i < |steps|
    ensures states[i].committed <= states[i + 1].committed
  {
    ReachableLogOk(sha, states, steps, i);
    assert LogStepAt(sha, states, steps, i);
    ConcurrentAppendsStayLinear(sha, states[i], steps[i], states[i + 1]);
  }

  lemma {:induction false} CommittedGrows(sha: Sha, states: seq<Shared>, steps: seq<LogStep>, i: nat, j: nat)
    requires LogRun(sha, states, steps) && i <= j < |states|
    ensures states[i].committed <= states[j].committed
    decreases j
  {
    if i < j {
      CommittedGrows(sha, states, steps, i, j - 1);
      NextCommitted(sha, states, steps, j - 1);
    }
  }

  /**
   Over any run, whatever transactions interleave, commit or roll back: at every instant the committed log
   is one linear valid chain with ascending numbers, and every earlier committed log is a prefix of it.
   */
  lemma LogIsAlwaysLinear(sha: Sha, states: seq<Shared>, steps: seq<LogStep>, i: nat, j: nat)
    requires LogRun(sha, states, steps) && i <= j < |states|
    ensures Chain(sha, states[j].committed, GENESIS) && Ascending(states[j].committed)
    ensures states[i].committed <= states[j].committed
  {
    ReachableLogOk(sha, states, steps, j);
    CommittedIsLinear(sha, states[j]);
    CommittedGrows(sha, states, steps, i, j);
  }

  /** Without the lock two transactions read the same head, and committing both breaks the chain. */
  lemma UnlockedAppendsFork(sha: Sha, rows: seq<LogRow>, m: nat, n: nat, a: Json, b: Json)
    requires Chain(sha, rows, GENESIS)
    ensures var r := NextRow(sha, rows, m, a, None);
            var q := NextRow(sha, rows, n, b, None);
            Chain(sha, rows + [r, q], GENESIS) <==> r.hash == r.prev
  {
    var r, q := NextRow(sha, rows, m, a, None), NextRow(sha, rows, n, b, None);
    var both := rows + [r, q];
    AppendKeepsChain(sha, rows, m, a, None);
    assert both[|rows| + 1] == q;
    if Chain(sha, both, GENESIS) {
      assert Linked(sha, both, GENESIS, |rows| + 1);
    }
    if r.hash == r.prev {
      forall i | 0 <= i < |both| ensures Linked(sha, both, GENESIS, i) {
        if i < |rows| + 1 {
          assert Linked(sha, rows + [r], GENESIS, i);
        }
      }
    }
  }

  /** Who may append, commit and roll back: the holder of the lock, or, for a first append, anyone while nobody holds it. */
  lemma TheLockDecides(sha: Sha, s: Shared, t: nat, record: Json, sign: Option<Hash -> Signature>)
    ensures LogNext(sha, s, AppendBy(t, record, sign)).Some? <==> s.holder.None? || s.holder.value == t
    ensures LogNext(sha, s, CommitBy(t)) ==
            if s.holder == Some(t) then Some(Shared(s.committed + s.pending, None, [], s.nextNumber)) else None
    ensures LogNext(sha, s, RollbackBy(t)) ==
            if s.holder == Some(t) then Some(Shared(s.committed, None, [], s.nextNumber)) else None
    ensures LogNext(sha, s, AppendBy(t, record, sign)).Some? ==>
              var s' := LogNext(sha, s, AppendBy(t, record, sign)).value;
              var seen := s.committed + s.pending;
              && s'.committed == s.committed && s'.holder == Some(t) && s'.nextNumber == s.nextNumber + 1
              && |s'.pending| == |s.pending| + 1 && s.pending == s'.pending[..|s.pending|]
              && var row := s'.pending[|s.pending|];
                 && row.number == s.nextNumber && row.text == Print(record)
                 && row.prev == (if seen == [] then GENESIS else seen[|seen| - 1].hash)
                 && row.hash == sha(row.prev + ToUtf8(row.text))
                 && row.signature == (if sign.Some? then sign.value(row.hash) else UNSIGNED)
  {
  }

  // ---------------------------------------------------------------------------
  // Verifying
  // ---------------------------------------------------------------------------

  datatype Verification = Verification(
    ok: bool, count: nat, signedCount: nat, validCount: nat, head: Option<Hash>, firstBad: Option<nat>)

  /** A key's check of a signature over a hash; without a key signatures are only counted. */
  type KeyCheck = Option<(Hash, Signature) -> bool>

  predicate SignatureBad(row: LogRow, key: KeyCheck) {
    row.signature != UNSIGNED && key.Some? && !key.value(row.hash, row.signature)
  }

  predicate RowBad(sha: Sha, rows: seq<LogRow>, first: Hash, key: KeyCheck, i: nat)
    requires i < |rows|
  {
    !Linked(sha, rows, first, i) || SignatureBad(rows[i], key)
  }

  predicate SignatureGood(row: LogRow, key: KeyCheck) {
    row.signature != UNSIGNED && key.Some? && key.value(row.hash, row.signature)
  }

  function SignedIn(rows: seq<LogRow>): nat {
    if rows == [] then 0 else SignedIn(rows[..|rows| - 1]) + if rows[|rows| - 1].signature != UNSIGNED then 1 else 0
  }

  function ValidIn(rows: seq<LogRow>, key: KeyCheck): nat {
    if rows == [] then 0
    else
      var row := rows[|rows| - 1];
      ValidIn(rows[..|rows| - 1], key)
      + if SignatureGood(row, key) then 1 else 0
  }

  lemma CountOne(rows: seq<LogRow>, i: nat, key: KeyCheck)
    requires i < |rows|
    ensures SignedIn(rows[..i + 1]) == SignedIn(rows[..i]) + if rows[i].signature != UNSIGNED then 1 else 0
    ensures ValidIn(rows[..i + 1], key) == ValidIn(rows[..i], key) + if SignatureGood(rows[i], key) then 1 else 0
  {
    assert rows[..i + 1][..i] == rows[..i];
  }

  /** The number is that of the first bad row. */
  ghost predicate FirstBadIs(sha: Sha, rows: seq<LogRow>, first: Hash, key: KeyCheck, number: nat) {
    exists i: nat :: i < |rows| && rows[i].number == number && RowBad(sha, rows, first, key, i) && SoundTo(sha, rows, first, key, i)
  }

  ghost predicate SoundTo(sha: Sha, rows: seq<LogRow>, first: Hash, key: KeyCheck, n: nat)
    requires n <= |rows|
  {
    forall i :: 0 <= i < n ==> !RowBad(sha, rows, first, key, i)
  }

  /** The state of the verifying loop after n rows; at is the row it reports. */
  ghost predicate VerifiedTo(sha: Sha, rows: seq<LogRow>, first: Hash, key: KeyCheck, n: nat, firstBad: Option<nat>, at: nat)
    requires n <= |rows|
  {
    if firstBad.None? then SoundTo(sha, rows, first, key, n)
    else at < n && rows[at].number == firstBad.value && RowBad(sha, rows, first, key, at) && SoundTo(sha, rows, first, key, at)
  }

  lemma VerifiesOne(sha: Sha, rows: seq<LogRow>, first: Hash, key: KeyCheck, n: nat, firstBad: Option<nat>, at: nat, bad: bool)
    requires n < |rows| && VerifiedTo(sha, rows, first, key, n, firstBad, at)
    requires bad <==> RowBad(sha, rows, first, key, n)
    ensures if bad && firstBad.None? then VerifiedTo(sha, rows, first, key, n + 1, Some(rows[n].number), n)
            else VerifiedTo(sha, rows, first, key, n + 1, firstBad, at)
  {
  }

  lemma VerifiedAll(sha: Sha, rows: seq<LogRow>, first: Hash, key: KeyCheck, firstBad: Option<nat>, at: nat)
    requires VerifiedTo(sha, rows, first, key, |rows|, firstBad, at)
    ensures firstBad.None? <==> Sound(sha, rows, first, key)
    ensures firstBad.None? ==> Chain(sha, rows, first)
    ensures firstBad.Some? ==> FirstBadIs(sha, rows, first, key, firstBad.value)
  {
    if firstBad.None? {
      SoundIsChain(sha, rows, first, key);
    }
  }

  ghost predicate Sound(sha: Sha, rows: seq<LogRow>, first: Hash, key: KeyCheck) {
    SoundTo(sha, rows, first, key, |rows|)
  }

  lemma SoundIsChain(sha: Sha, rows: seq<LogRow>, first: Hash, key: KeyCheck)
    requires Sound(sha, rows, first, key)
    ensures Chain(sha, rows, first)
  {
    forall i | 0 <= i < |rows| ensures Linked(sha, rows, first, i) {
      assert !RowBad(sha, rows, first, key, i);
    }
  }

  method CheckRow(sha: Sha, row: LogRow, prev: Hash, key: KeyCheck) returns (bad: bool, isSigned: bool, isValid: bool)
    ensures bad <==> row.prev != prev || row.hash != HashCanonical(sha, row.prev, row.text) || SignatureBad(row, key)
    ensures isSigned <==> row.signature != UNSIGNED
    ensures isValid <==> SignatureGood(row, key)
  {
    bad, isSigned, isValid := false, false, false;
    if row.prev != prev {
      bad := true;
    }
    var recomputed := HashCanonical(sha, row.prev, row.text);
    if recomputed != row.hash {
      bad := true;
    }
    if row.signature != UNSIGNED {
      isSigned := true;
      if key.Some? {
        if key.value(row.hash, row.signature) {
          isValid := true;
        } else {
          bad := true;
        }
      }
    }
  }

  /** The row follows the one before it, hashes its own content, and its signature, if it has one, is that of the key. */
  predicate Holds(sha: Sha, rows: seq<LogRow>, first: Hash, key: KeyCheck, i: nat)
    requires i < |rows|
  {
    && rows[i].prev == (if i == 0 then first else rows[i - 1].hash)
    && rows[i].hash == sha(rows[i].prev + ToUtf8(rows[i].text))
    && (rows[i].signature == UNSIGNED || key.None? || key.value(rows[i].hash, rows[i].signature))
  }

  lemma HoldsUnlessBad(sha: Sha, rows: seq<LogRow>, first: Hash, key: KeyCheck)
    ensures Sound(sha, rows, first, key) <==> forall i :: 0 <= i < |rows| ==> Holds(sha, rows, first, key, i)
    ensures forall number :: FirstBadIs(sha, rows, first, key, number) ==>
              exists i :: 0 <= i < |rows| && rows[i].number == number && !Holds(sha, rows, first, key, i)
                          && forall j :: 0 <= j < i ==> Holds(sha, rows, first, key, j)
  {
    forall i | 0 <= i < |rows| ensures RowBad(sha, rows, first, key, i) <==> !Holds(sha, rows, first, key, i) {
    }
    forall number | FirstBadIs(sha, rows, first, key, number)
      ensures exists i :: 0 <= i < |rows| && rows[i].number == number && !Holds(sha, rows, first, key, i)
                          && forall j :: 0 <= j < i ==> Holds(sha, rows, first, key, j)
    {
      var i: nat :| i < |rows| && rows[i].number == number && RowBad(sha, rows, first, key, i) && SoundTo(sha, rows, first, key, i);
      forall j | 0 <= j < i ensures Holds(sha, rows, first, key, j) {
        assert !RowBad(sha, rows, first, key, j);
      }
    }
  }

  /** The places of the signed rows, and of those whose signature the key accepts. */
  ghost function SignedPlaces(rows: seq<LogRow>): set<int> {
    set i | 0 <= i < |rows| && rows[i].signature != UNSIGNED
  }

  ghost function ValidPlaces(rows: seq<LogRow>, key: KeyCheck): set<int> {
    set i | 0 <= i < |rows| && rows[i].signature != UNSIGNED && key.Some? && key.value(rows[i].hash, rows[i].signature)
  }

  lemma {:induction false} SignedAreCounted(rows: seq<LogRow>)
    ensures SignedIn(rows) == |SignedPlaces(rows)|
  {
    if rows != [] {
      var n := |rows| - 1;
      var init := rows[..n];
      SignedAreCounted(init);
      forall i ensures i in SignedPlaces(init) <==> i in SignedPlaces(rows) && i != n {
        assert 0 <= i < n ==> init[i] == rows[i];
      }
      assert SignedPlaces(rows) == SignedPlaces(init) + if rows[n].signature != UNSIGNED then {n} else {};
    } else {
      assert SignedPlaces(rows) == {};
    }
  }

  lemma {:induction false} ValidAreCounted(rows: seq<LogRow>, key: KeyCheck)
    ensures ValidIn(rows, key) == |ValidPlaces(rows, key)|
  {
    if rows != [] {
      var n := |rows| - 1;
      var init := rows[..n];
      ValidAreCounted(init, key);
      forall i ensures i in ValidPlaces(init, key) <==> i in ValidPlaces(rows, key) && i != n {
        assert 0 <= i < n ==> init[i] == rows[i];
      }
      assert ValidPlaces(rows, key) == ValidPlaces(init, key) + if SignatureGood(rows[n], key) then {n} else {};
    } else {
      assert ValidPlaces(rows, key) == {};
    }
  }

  /** Linkage, hashes and signatures, row by row; the first offending row is reported. */
  method VerifyAuditChain(sha: Sha, rows: seq<LogRow>, key: KeyCheck, initialPrev: Option<Hash>) returns (v: Verification)
    ensures v.ok <==> Sound(sha, rows, initialPrev.GetOr(GENESIS), key)
    ensures v.ok ==> Chain(sha, rows, initialPrev.GetOr(GENESIS))
    ensures if v.ok then v.firstBad == None
            else v.firstBad.Some? && FirstBadIs(sha, rows, initialPrev.GetOr(GENESIS), key, v.firstBad.value)
    ensures v.count == |rows| && v.signedCount == SignedIn(rows) && v.validCount == ValidIn(rows, key)
    ensures v.head == if rows == [] then None else Some(rows[|rows| - 1].hash)
    ensures v.ok <==> forall i :: 0 <= i < |rows| ==> Holds(sha, rows, initialPrev.GetOr(GENESIS), key, i)
    ensures !v.ok ==>
              exists i :: 0 <= i < |rows| && Some(rows[i].number) == v.firstBad
                          && !Holds(sha, rows, initialPrev.GetOr(GENESIS), key, i)
                          && forall j :: 0 <= j < i ==> Holds(sha, rows, initialPrev.GetOr(GENESIS), key, j)
    ensures v.signedCount == |SignedPlaces(rows)| && v.validCount == |ValidPlaces(rows, key)|
  {
    var first := initialPrev.GetOr(GENESIS);
    var prev: Hash := first;
    var signed, valid := 0, 0;
    var firstBad: Option<nat>, head: Option<Hash> := None, None;
    ghost var at := 0;
    for i := 0 to |rows|
      invariant prev == PrevAt(rows, first, i)
      invariant head == if i == 0 then None else Some(rows[i - 1].hash)
      invariant signed == SignedIn(rows[..i]) && valid == ValidIn(rows[..i], key)
      invariant VerifiedTo(sha, rows, first, key, i, firstBad, at)
    {
      var row := rows[i];
      CountOne(rows, i, key);
      var bad, isSigned, isValid := CheckRow(sha, row, prev, key);
      signed := signed + if isSigned then 1 else 0;
      valid := valid + if isValid then 1 else 0;
      VerifiesOne(sha, rows, first, key, i, firstBad, at, bad);
      if bad && firstBad.None? {
        firstBad := Some(row.number);
        at := i;
      }
      prev := row.hash;
      head := Some(row.hash);
    }
    assert rows[..|rows|] == rows;
    VerifiedAll(sha, rows, first, key, firstBad, at);
    HoldsUnlessBad(sha, rows, first, key);
    SignedAreCounted(rows);
    ValidAreCounted(rows, key);
    v := Verification(firstBad.None?, |rows|, signed, valid, head, firstBad);
  }

  // ---------------------------------------------------------------------------
  // Tamper evidence
  // ---------------------------------------------------------------------------

  function Preimage(row: LogRow): seq<nat> {
    row.prev + ToUtf8(row.text)
  }

  /** Two hashed rows whose different contents have one hash. */
  predicate Collide(sha: Sha, x: LogRow, y: LogRow) {
    Preimage(x) != Preimage(y) && sha(Preimage(x)) == sha(Preimage(y))
  }

  ghost predicate AnyCollision(sha: Sha, xs: seq<LogRow>, ys: seq<LogRow>) {
    exists i, j :: 0 <= i < |xs| && 0 <= j < |ys| && Collide(sha, xs[i], ys[j])
  }

  /** Some row's hash is the value the genesis row points back to. */
  ghost predicate HitsGenesis(rows: seq<LogRow>) {
    exists i :: 0 <= i < |rows| && rows[i].hash == GENESIS
  }

  predicate SameContent(x: LogRow, y: LogRow) {
    x.prev == y.prev && x.text == y.text && x.hash == y.hash
  }

  predicate StoredText(rows: seq<LogRow>) {
    forall i :: 0 <= i < |rows| ==> Paired(rows[i].text)
  }

  lemma PreimageInjective(x: LogRow, y: LogRow)
    requires Preimage(x) == Preimage(y) && Paired(x.text) && Paired(y.text)
    ensures x.prev == y.prev && x.text == y.text
  {
    assert x.prev == Preimage(x)[..32] && y.prev == Preimage(y)[..32];
    assert ToUtf8(x.text) == Preimage(x)[32..] && ToUtf8(y.text) == Preimage(y)[32..];
    ToUtf8Injective(x.text, y.text);
  }

  lemma SameHashSameRow(sha: Sha, xs: seq<LogRow>, m: nat, ys: seq<LogRow>, n: nat)
    requires Chain(sha, xs, GENESIS) && Chain(sha, ys, GENESIS) && StoredText(xs) && StoredText(ys)
    requires m < |xs| && n < |ys| && xs[m].hash == ys[n].hash
    ensures Collide(sha, xs[m], ys[n])
            || (SameContent(xs[m], ys[n]) && PrevAt(xs, GENESIS, m) == PrevAt(ys, GENESIS, n))
  {
    assert Linked(sha, xs, GENESIS, m) && Linked(sha, ys, GENESIS, n);
    if Preimage(xs[m]) == Preimage(ys[n]) {
      PreimageInjective(xs[m], ys[n]);
    }
  }

  predicate SamePast(xs: seq<LogRow>, ys: seq<LogRow>, m: nat)
    requires m < |xs| && m < |ys|
  {
    forall i :: 0 <= i <= m ==> SameContent(xs[i], ys[i])
  }

  lemma OneRowFurther(xs: seq<LogRow>, ys: seq<LogRow>, m: nat)
    requires m < |xs| && m < |ys| && SameContent(xs[m], ys[m]) && (m > 0 ==> SamePast(xs, ys, m - 1))
    ensures SamePast(xs, ys, m)
  {
  }

  /**
   Two valid chains that agree on one hash, at whatever positions, are the same chain up to there,
   unless the hash function was broken: a collision between their rows, or a hash equal to the genesis value.
   */
  lemma {:induction false} OneHashPinsThePast(sha: Sha, xs: seq<LogRow>, m: nat, ys: seq<LogRow>, n: nat)
    requires Chain(sha, xs, GENESIS) && Chain(sha, ys, GENESIS) && StoredText(xs) && StoredText(ys)
    requires m < |xs| && n < |ys| && xs[m].hash == ys[n].hash
    ensures AnyCollision(sha, xs, ys) || HitsGenesis(xs) || HitsGenesis(ys) || (m == n && SamePast(xs, ys, m))
    decreases m
  {
    SameHashSameRow(sha, xs, m, ys, n);
    if Collide(sha, xs[m], ys[n]) {
      assert AnyCollision(sha, xs, ys);
    } else if m > 0 && n > 0 {
      OneHashPinsThePast(sha, xs, m - 1, ys, n - 1);
      if m == n && SamePast(xs, ys, m - 1) {
        OneRowFurther(xs, ys, m);
      }
    } else if m > 0 {
      assert xs[m - 1].hash == GENESIS;
      assert HitsGenesis(xs);
    } else if n > 0 {
      assert ys[n - 1].hash == GENESIS;
      assert HitsGenesis(ys);
    } else {
      OneRowFurther(xs, ys, m);
    }
  }

  /** What an agreed row says is agreed too: its entry up to the order of keys. */
  lemma SameContentSameEntry(x: LogRow, y: LogRow, v: Json, w: Json)
    requires SameContent(x, y) && x.text == Print(v) && y.text == Print(w)
    requires WellFormed(v) && WellFormed(w) && !v.Undefined? && !w.Undefined?
    ensures Mean(v) == Mean(w)
  {
    CanonicalJsonIsExact(v, w);
  }

  // ---------------------------------------------------------------------------
  // Anchors
  // ---------------------------------------------------------------------------

  /** The rows numbered up to the anchored one, in their order. */
  function UpTo(rows: seq<LogRow>, number: nat): seq<LogRow> {
    if rows == [] then []
    else
      var n := |rows| - 1;
      UpTo(rows[..n], number) + if rows[n].number <= number then [rows[n]] else []
  }

  predicate FoundAt(rows: seq<LogRow>, number: nat, at: nat) {
    at < |rows| && rows[at].number == number && forall j :: 0 <= j < at ==> rows[j].number != number
  }

  /** The first row with the anchored number carries the anchored hash. */
  ghost predicate CarriesAt(rows: seq<LogRow>, number: nat, hash: Hash) {
    exists i: nat :: FoundAt(rows, number, i) && rows[i].hash == hash
  }

  datatype ExtendsCheck = ExtendsCheck(ok: bool, chainOk: bool, anchoredFound: bool, hashMatches: bool)

  method RowsUpTo(rows: seq<LogRow>, number: nat) returns (upTo: seq<LogRow>)
    ensures upTo == UpTo(rows, number)
  {
    upTo := [];
    for i := 0 to |rows|
      invariant upTo == UpTo(rows[..i], number)
    {
      assert rows[..i + 1][..i] == rows[..i];
      if rows[i].number <= number {
        upTo := upTo + [rows[i]];
      }
    }
    assert rows[..|rows|] == rows;
  }

  method FindNumber(rows: seq<LogRow>, number: nat) returns (k: nat)
    ensures if k < |rows| then FoundAt(rows, number, k) else forall row :: row in rows ==> row.number != number
  {
    k := 0;
    while k < |rows| && rows[k].number != number
      invariant k <= |rows| && forall j :: 0 <= j < k ==> rows[j].number != number
    {
      k := k + 1;
    }
  }

  /** The log extends an anchored head: the chain up to the anchored row is valid and carries the anchored hash there. */
  method CheckExtendsAnchor(sha: Sha, rows: seq<LogRow>, number: nat, hash: Hash, key: KeyCheck, initialPrev: Option<Hash>)
    returns (r: ExtendsCheck)
    ensures r.chainOk <==> Sound(sha, UpTo(rows, number), initialPrev.GetOr(GENESIS), key)
    ensures r.anchoredFound <==> exists i :: 0 <= i < |rows| && rows[i].number == number
    ensures r.hashMatches <==> CarriesAt(UpTo(rows, number), number, hash)
    ensures r.ok <==> r.chainOk && r.anchoredFound && r.hashMatches
  {
    var upTo := RowsUpTo(rows, number);
    var v := VerifyAuditChain(sha, upTo, key, initialPrev);
    var k := FindNumber(upTo, number);
    var found := k < |upTo|;
    UpToReaches(rows, number, k);
    var matches := found && upTo[k].hash == hash;
    assert matches ==> FoundAt(upTo, number, k);
    r := ExtendsCheck(v.ok && found && matches, v.ok, found, matches);
  }

  lemma {:induction false} UpToHolds(rows: seq<LogRow>, number: nat)
    ensures forall row :: row in UpTo(rows, number) <==> row in rows && row.number <= number
  {
    if rows != [] {
      var n := |rows| - 1;
      UpToHolds(rows[..n], number);
      assert rows == rows[..n] + [rows[n]];
    }
  }

  /** Looking the number up among the rows up to it is looking it up in the log. */
  lemma UpToReaches(rows: seq<LogRow>, number: nat, k: nat)
    requires var upTo := UpTo(rows, number);
             if k < |upTo| then FoundAt(upTo, number, k) else forall row :: row in upTo ==> row.number != number
    ensures k < |UpTo(rows, number)| <==> exists i :: 0 <= i < |rows| && rows[i].number == number
  {
    UpToHolds(rows, number);
    if k < |UpTo(rows, number)| {
      assert UpTo(rows, number)[k] in rows;
    }
  }

  /** Rows as they are loaded. */
  predicate Ascending(rows: seq<LogRow>) {
    forall i, j :: 0 <= i < j < |rows| ==> rows[i].number < rows[j].number
  }

  /** In ascending order the rows up to the k-th are the first k + 1. */
  lemma {:induction false} UpToIsPrefix(rows: seq<LogRow>, k: nat)
    requires Ascending(rows) && k < |rows|
    ensures UpTo(rows, rows[k].number) == rows[..k + 1]
    decreases |rows|
  {
    var n := |rows| - 1;
    if k == n {
      AllUpTo(rows, rows[n].number);
      assert rows[..n + 1] == rows;
    } else {
      UpToIsPrefix(rows[..n], k);
      assert rows[..n][..k + 1] == rows[..k + 1];
    }
  }

  lemma {:induction false} AllUpTo(rows: seq<LogRow>, number: nat)
    requires forall i :: 0 <= i < |rows| ==> rows[i].number <= number
    ensures UpTo(rows, number) == rows
  {
    if rows != [] {
      AllUpTo(rows[..|rows| - 1], number);
      assert rows == rows[..|rows| - 1] + [rows[|rows| - 1]];
    }
  }

  /** What the anchor check accepts of a log in ascending order, from genesis. */
  ghost predicate ExtendsAnchor(sha: Sha, rows: seq<LogRow>, number: nat, hash: Hash, key: KeyCheck) {
    && Sound(sha, UpTo(rows, number), GENESIS, key)
    && CarriesAt(UpTo(rows, number), number, hash)
  }

  /** A log that passes the anchor check holds the anchored history row for row, short of a broken hash. */
  lemma AnchorPinsHistory(sha: Sha, anchored: seq<LogRow>, rows: seq<LogRow>, key: KeyCheck)
    requires Chain(sha, anchored, GENESIS) && StoredText(anchored) && StoredText(rows) && anchored != [] && Ascending(rows)
    requires ExtendsAnchor(sha, rows, anchored[|anchored| - 1].number, anchored[|anchored| - 1].hash, key)
    ensures AnyCollision(sha, anchored, rows) || HitsGenesis(anchored) || HitsGenesis(rows)
            || (|anchored| <= |rows| && forall i :: 0 <= i < |anchored| ==> SameContent(anchored[i], rows[i]))
  {
    var last := |anchored| - 1;
    var k := PassedPrefix(sha, rows, anchored[last].number, anchored[last].hash, key);
    OneHashPinsThePast(sha, anchored, last, rows[..k + 1], k);
    PrefixBreaksLess(sha, anchored, rows, k + 1);
  }

  /** What passing says of the rows themselves: some prefix is a chain that ends in the anchored hash. */
  lemma PassedPrefix(sha: Sha, rows: seq<LogRow>, number: nat, hash: Hash, key: KeyCheck) returns (k: nat)
    requires Ascending(rows) && ExtendsAnchor(sha, rows, number, hash, key)
    ensures k < |rows| && rows[k].number == number && rows[k].hash == hash && Chain(sha, rows[..k + 1], GENESIS)
  {
    var upTo := UpTo(rows, number);
    var at: nat :| FoundAt(upTo, number, at) && upTo[at].hash == hash;
    UpToHolds(rows, number);
    assert upTo[at] in rows;
    k :| 0 <= k < |rows| && rows[k] == upTo[at];
    UpToIsPrefix(rows, k);
    SoundIsChain(sha, upTo, GENESIS, key);
  }

  lemma PrefixBreaksLess(sha: Sha, anchored: seq<LogRow>, rows: seq<LogRow>, n: nat)
    requires n <= |rows|
    ensures AnyCollision(sha, anchored, rows[..n]) ==> AnyCollision(sha, anchored, rows)
    ensures HitsGenesis(rows[..n]) ==> HitsGenesis(rows)
  {
    if AnyCollision(sha, anchored, rows[..n]) {
      var i, j :| 0 <= i < |anchored| && 0 <= j < n && Collide(sha, anchored[i], rows[..n][j]);
      assert Collide(sha, anchored[i], rows[j]);
    }
    if HitsGenesis(rows[..n]) {
      var i :| 0 <= i < n && rows[..n][i].hash == GENESIS;
      assert rows[i].hash == GENESIS;
    }
  }

  /** An honest log is never accused: a sound log still passes the check against each of its own earlier heads. */
  lemma HonestLogPasses(sha: Sha, rows: seq<LogRow>, k: nat, key: KeyCheck)
    requires Ascending(rows) && Sound(sha, rows, GENESIS, key) && k < |rows|
    ensures ExtendsAnchor(sha, rows, rows[k].number, rows[k].hash, key)
  {
    UpToIsPrefix(rows, k);
    var upTo := rows[..k + 1];
    forall i | 0 <= i < |upTo| ensures !RowBad(sha, upTo, GENESIS, key, i) {
      assert !RowBad(sha, rows, GENESIS, key, i);
      assert PrevAt(upTo, GENESIS, i) == PrevAt(rows, GENESIS, i);
    }
    assert FoundAt(upTo, rows[k].number, k);
  }
}
