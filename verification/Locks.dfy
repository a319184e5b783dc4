/**
 Row and advisory locks of the single-claim transactions: taken in the order claim row, asset row,
 audit lock, they can never deadlock, however many transactions run at once.
 */
module Locks {
  import opened Chain
  import opened Rows

  datatype Lock = ClaimRow(c: ClaimId) | AssetRow(k: AssetKey) | AuditLock

  function Rank(l: Lock): nat {
    match l
    case ClaimRow(_) => 0
    case AssetRow(_) => 1
    case AuditLock => 2
  }

  /** The single-claim transactions, with the rows they work on. */
  datatype Kind =
    | Completion | Persisting | Finalizing | Failing | Freezing | Clearing | Routing | Approving | Releasing

  /** The locks a transaction asks for when it runs to its end; it may also end earlier. */
  function Requests(kind: Kind, c: ClaimId, k: AssetKey): seq<Lock> {
    match kind
    case Completion => [ClaimRow(c), AssetRow(k), AuditLock]
    case Persisting => [ClaimRow(c), AssetRow(k), AuditLock]
    case Finalizing => [ClaimRow(c), AssetRow(k), AuditLock]
    case Routing => [ClaimRow(c), AssetRow(k), AuditLock]
    case Failing => [ClaimRow(c), AuditLock]
    case Freezing => [ClaimRow(c), AuditLock]
    case Clearing => [ClaimRow(c), AuditLock]
    case Approving => [ClaimRow(c), AuditLock]
    case Releasing => [ClaimRow(c), AuditLock]
  }

  predicate Climbs(plan: seq<Lock>) {
    forall i, j :: 0 <= i < j < |plan| ==> Rank(plan[i]) < Rank(plan[j])
  }

  /** A transaction in progress: it holds the first locks of its plan. */
  datatype Txn = Txn(plan: seq<Lock>, got: nat)

  type LockState = map<nat, Txn>

  predicate Holds(s: LockState, t: nat, l: Lock) {
    t in s && exists i :: 0 <= i < s[t].got && i < |s[t].plan| && s[t].plan[i] == l
  }

  predicate Asks(s: LockState, t: nat) {
    t in s && s[t].got < |s[t].plan|
  }

  function Wanted(s: LockState, t: nat): Lock
    requires Asks(s, t)
  {
    s[t].plan[s[t].got]
  }

  /** t is stopped by u. */
  predicate WaitsFor(s: LockState, t: nat, u: nat) {
    Asks(s, t) && t != u && Holds(s, u, Wanted(s, t))
  }

  datatype LockStep =
    | Begin(t: nat, kind: Kind, c: ClaimId, k: AssetKey)
    | Acquire(t: nat)
    | End(t: nat)

  ghost predicate Enabled(s: LockState, step: LockStep) {
    match step
    case Begin(t, _, _, _) => t !in s
    case Acquire(t) => Asks(s, t) && forall u :: !WaitsFor(s, t, u)
    case End(t) => t in s
  }

  ghost function After(s: LockState, step: LockStep): LockState
    requires Enabled(s, step)
  {
    match step
    case Begin(t, kind, c, k) => s[t := Txn(Requests(kind, c, k), 0)]
    case Acquire(t) => s[t := s[t].(got := s[t].got + 1)]
    case End(t) => s - {t}
  }

  /** Reachable lock states: every plan climbs, and no lock has two holders. */
  ghost predicate LocksOk(s: LockState) {
    && (forall t :: t in s ==> Climbs(s[t].plan) && s[t].got <= |s[t].plan|)
    && (forall t, u, l :: Holds(s, t, l) && Holds(s, u, l) ==> t == u)
  }

  lemma NoLocksOk()
    ensures LocksOk(map[])
  {
  }

  lemma RequestsClimb(kind: Kind, c: ClaimId, k: AssetKey)
    ensures Climbs(Requests(kind, c, k))
  {
  }

  lemma StepKeepsLocks(s: LockState, step: LockStep)
    requires LocksOk(s) && Enabled(s, step)
    ensures LocksOk(After(s, step))
  {
    var s' := After(s, step);
    match step
    case Begin(t, kind, c, k) =>
      RequestsClimb(kind, c, k);
      forall u, l | Holds(s', u, l) ensures Holds(s, u, l) && u != t {
      }
    case Acquire(t) =>
      var l := Wanted(s, t);
      forall u, m | Holds(s', u, m) ensures Holds(s, u, m) || (u == t && m == l) {
      }
      forall u | u != t ensures !Holds(s, u, l) {
        assert !WaitsFor(s, t, u);
      }
    case End(t) =>
      forall u, l | Holds(s', u, l) ensures Holds(s, u, l) {
      }
  }

  /** Whoever stops a transaction and waits itself, waits for something later in the order. */
  lemma WaitClimbs(s: LockState, t: nat, u: nat)
    requires LocksOk(s) && WaitsFor(s, t, u) && Asks(s, u)
    ensures Rank(Wanted(s, t)) < Rank(Wanted(s, u))
  {
    var i :| 0 <= i < s[u].got && i < |s[u].plan| && s[u].plan[i] == Wanted(s, t);
  }

  ghost predicate WaitPath(s: LockState, p: seq<nat>) {
    |p| > 1 && forall i {:trigger p[i]} :: 0 <= i < |p| - 1 ==> WaitsFor(s, p[i], p[i + 1])
  }

  lemma {:induction false} PathClimbs(s: LockState, p: seq<nat>, n: nat)
    requires LocksOk(s) && WaitPath(s, p) && 0 < n < |p| - 1
    ensures Rank(Wanted(s, p[0])) < Rank(Wanted(s, p[n]))
  {
    assert WaitsFor(s, p[n - 1], p[n]) && WaitsFor(s, p[n], p[n + 1]);
    WaitClimbs(s, p[n - 1], p[n]);
    if n > 1 {
      PathClimbs(s, p, n - 1);
    }
  }

  /** The wait-for relation has no cycle. */
  lemma NoDeadlock(s: LockState, p: seq<nat>)
    requires LocksOk(s) && WaitPath(s, p)
    ensures p[0] != p[|p| - 1]
  {
    var n := |p| - 2;
    assert WaitsFor(s, p[n], p[n + 1]);
    if p[0] == p[|p| - 1] {
      assert WaitsFor(s, p[0], p[1]);
      WaitClimbs(s, p[n], p[n + 1]);
      if n > 0 {
        PathClimbs(s, p, n);
      }
    }
  }

  /** Behind every transaction there is one that can take its next lock or has them all. */
  lemma {:induction false} SomeoneMoves(s: LockState, t: nat) returns (u: nat)
    requires LocksOk(s) && t in s
    ensures u in s && (Enabled(s, Acquire(u)) || !Asks(s, u))
    decreases if Asks(s, t) then 3 - Rank(Wanted(s, t)) else 0
  {
    if !Asks(s, t) || Enabled(s, Acquire(t)) {
      return t;
    }
    var v :| WaitsFor(s, t, v);
    if Asks(s, v) {
      WaitClimbs(s, t, v);
    }
    u := SomeoneMoves(s, v);
  }

  ghost predicate LockStepAt(states: seq<LockState>, steps: seq<LockStep>, i: nat)
    requires i < |steps| && |states| == |steps| + 1
  {
    Enabled(states[i], steps[i]) && states[i + 1] == After(states[i], steps[i])
  }

  ghost predicate LockRun(states: seq<LockState>, steps: seq<LockStep>) {
    && |states| == |steps| + 1 && states[0] == map[]
    && forall i :: 0 <= i < |steps| ==> LockStepAt(states, steps, i)
  }

  lemma {:induction false} ReachableLocksOk(states: seq<LockState>, steps: seq<LockStep>, i: nat)
    requires LockRun(states, steps) && i < |states|
    ensures LocksOk(states[i])
  {
    if i == 0 {
      NoLocksOk();
    } else {
      ReachableLocksOk(states, steps, i - 1);
      assert LockStepAt(states, steps, i - 1);
      StepKeepsLocks(states[i - 1], steps[i - 1]);
    }
  }

  /** In every reachable lock state no transaction waits for itself through others, and somebody can go on. */
  lemma NeverDeadlocked(states: seq<LockState>, steps: seq<LockStep>, i: nat)
    requires LockRun(states, steps) && i < |states|
    ensures forall p :: WaitPath(states[i], p) ==> p[0] != p[|p| - 1]
    ensures states[i] != map[] ==>
              exists u :: u in states[i] && (Enabled(states[i], Acquire(u)) || !Asks(states[i], u))
  {
    ReachableLocksOk(states, steps, i);
    var s := states[i];
    forall p | WaitPath(s, p) ensures p[0] != p[|p| - 1] {
      NoDeadlock(s, p);
    }
    if s != map[] {
      var t :| t in s;
      var u := SomeoneMoves(s, t);
    }
  }

  /** The order matters: two transactions that take a claim row and an asset row in opposite orders can deadlock. */
  lemma OppositeOrdersDeadlock(c: ClaimId, k: AssetKey)
    ensures var s := map[0 := Txn([ClaimRow(c), AssetRow(k)], 1), 1 := Txn([AssetRow(k), ClaimRow(c)], 1)];
            WaitsFor(s, 0, 1) && WaitsFor(s, 1, 0)
  {
    var s := map[0 := Txn([ClaimRow(c), AssetRow(k)], 1), 1 := Txn([AssetRow(k), ClaimRow(c)], 1)];
    assert s[0].plan[0] == ClaimRow(c) && s[1].plan[0] == AssetRow(k);
    assert Holds(s, 0, ClaimRow(c)) && Holds(s, 1, AssetRow(k));
  }
}
