/**
 The chain as the dispatcher sees it: transactions that are signed, sent, landed or
 dead, the height-first status read, the polling confirmation, and the outflow scan.
 */
module Chain {
  import opened Prelude

  datatype ClaimId = ClaimId(id: nat)
  datatype Address = Address(id: nat)
  datatype Mint = Mint(id: nat)

  /** What a dispatch transaction does when it succeeds. */
  datatype Effect =
    | TokenTransfer(to: Address, mario: nat)
    | VaultRelock(to: Address, mario: nat, lockSeconds: int)
    | AntHandover(mint: Mint, to: Address)

  /** The liquid or locked tokens an effect takes out of the hot account. */
  function Outflow(e: Effect): nat {
    match e
    case TokenTransfer(_, mario) => mario
    case VaultRelock(_, mario, _) => mario
    case AntHandover(_, _) => 0
  }

  /**
   A signed transaction. An Ed25519 signature verifies over one message only, so the
   signature is identified with the message: instructions, lifetime and memo.
   */
  datatype Tx = Tx(effect: Effect, blockhash: nat, lastValid: nat, memo: Option<ClaimId>)

  /** The message a dispatch of claim c signs; the memo can be switched off by configuration. */
  function SignDispatch(includeMemo: bool, c: ClaimId, effect: Effect, blockhash: nat, lastValid: nat): Tx {
    Tx(effect, blockhash, lastValid, if includeMemo then Some(c) else None)
  }

  /**
   Two claims share one signature exactly when the memo is off and their effects and
   lifetimes coincide. With the memo on (the default) a signature names its claim.
   */
  lemma SignatureNamesItsClaim(includeMemo: bool, c: ClaimId, d: ClaimId, e: Effect, f: Effect,
                               bc: nat, lc: nat, bd: nat, ld: nat)
    requires c != d
    ensures SignDispatch(includeMemo, c, e, bc, lc) == SignDispatch(includeMemo, d, f, bd, ld)
            <==> !includeMemo && e == f && bc == bd && lc == ld
  {
  }

  // ---------------------------------------------------------------------------
  // Chain state and its own steps
  // ---------------------------------------------------------------------------

  datatype ChainState = ChainState(
    height: nat,
    sent: set<Tx>,   // broadcast at least once
    ok: set<Tx>,     // landed and succeeded
    err: set<Tx>,    // landed with an error
    balance: nat     // the hot dispenser's token account
  )

  datatype ChainEvent =
    | Advance(blocks: nat)
    | Send(tx: Tx)
    | Land(tx: Tx, success: bool)
    | Refill(mario: nat)

  predicate Landed(ch: ChainState, t: Tx) {
    t in ch.ok || t in ch.err
  }

  /** A sent transaction may land once, at any height up to its last valid one. */
  predicate Can(ch: ChainState, e: ChainEvent) {
    match e
    case Land(t, success) =>
      && t in ch.sent
      && !Landed(ch, t)
      && ch.height <= t.lastValid
      && (success ==> Outflow(t.effect) <= ch.balance)
    case _ => true
  }

  function After(ch: ChainState, e: ChainEvent): ChainState
    requires Can(ch, e)
  {
    match e
    case Advance(blocks) => ch.(height := ch.height + blocks)
    case Send(t) => ch.(sent := ch.sent + {t})
    case Land(t, true) => ch.(ok := ch.ok + {t}, balance := ch.balance - Outflow(t.effect))
    case Land(t, false) => ch.(err := ch.err + {t})
    case Refill(mario) => ch.(balance := ch.balance + mario)
  }

  ghost predicate Tick(ch: ChainState, ch': ChainState) {
    exists e :: Can(ch, e) && ch' == After(ch, e)
  }

  /** A stretch of chain history, one state per instant. */
  ghost predicate History(h: seq<ChainState>) {
    && |h| > 0
    && forall i, j {:trigger Tick(h[i], h[j])} :: 0 <= i && j == i + 1 && j < |h| ==> Tick(h[i], h[j])
  }

  /** Nothing in any future can make t succeed. */
  predicate Spent(ch: ChainState, t: Tx) {
    && t !in ch.ok
    && (t in ch.err || t.lastValid < ch.height)
  }

  /** The order of chain states over time. */
  predicate Later(ch: ChainState, ch': ChainState) {
    && ch.height <= ch'.height
    && ch.sent <= ch'.sent
    && ch.ok <= ch'.ok
    && ch.err <= ch'.err
    && (forall t :: t in ch'.ok && t !in ch.ok ==> !Landed(ch, t) && ch.height <= t.lastValid)
  }

  lemma TickIsMonotone(ch: ChainState, ch': ChainState)
    requires Tick(ch, ch')
    ensures Later(ch, ch')
  {
  }

  lemma LaterIsTransitive(a: ChainState, b: ChainState, c: ChainState)
    requires Later(a, b) && Later(b, c)
    ensures Later(a, c)
  {
  }

  lemma {:induction false} HistoryIsMonotone(h: seq<ChainState>, i: nat, j: nat)
    requires History(h)
    requires i <= j < |h|
    ensures Later(h[i], h[j])
    decreases j
  {
    if i < j {
      HistoryIsMonotone(h, i, j - 1);
      assert Tick(h[j - 1], h[j]);
      TickIsMonotone(h[j - 1], h[j]);
      LaterIsTransitive(h[i], h[j - 1], h[j]);
    }
  }

  // ---------------------------------------------------------------------------
  // Status reads
  // ---------------------------------------------------------------------------

  /** One row of a signature-status answer. */
  datatype SigStatus = NotFound | Seen(failed: bool, confirmed: bool)

  datatype ConfirmState = Confirmed | Failed | Pending | Expired

  /** A consistent endpoint finds a transaction exactly when it has landed, and knows its error. */
  predicate Observes(ch: ChainState, t: Tx, st: SigStatus) {
    match st
    case NotFound => !Landed(ch, t)
    case Seen(failed, _) => Landed(ch, t) && failed == (t in ch.err)
  }

  /** What an endpoint may say of t that lags, but not behind the given height. */
  predicate Recalls(ch: ChainState, since: nat, t: Tx, st: SigStatus) {
    match st
    case NotFound => !Landed(ch, t) || since <= t.lastValid
    case Seen(failed, _) => Landed(ch, t) && failed == (t in ch.err)
  }

  /** The classification of one poll: the height was sampled before the status was read. */
  function Classify(heightAtSample: nat, lastValid: nat, st: SigStatus): ConfirmState {
    match st
    case Seen(failed, confirmed) =>
      if failed then Failed else if confirmed then Confirmed else Pending
    case NotFound =>
      if heightAtSample > lastValid then Expired else Pending
  }

  /** No transaction is recorded both as succeeded and as failed. */
  predicate WellFormed(ch: ChainState) {
    ch.ok !! ch.err && ch.ok + ch.err <= ch.sent
  }

  lemma {:induction false} StaysWellFormed(h: seq<ChainState>, i: nat)
    requires History(h) && WellFormed(h[0])
    requires i < |h|
    ensures WellFormed(h[i])
  {
    if i > 0 {
      StaysWellFormed(h, i - 1);
      assert Tick(h[i - 1], h[i]);
    }
  }

  /**
   Whatever happens between sampling the height (instant i) and reading the status
   (instant j), an expired answer means the transaction never succeeds, at any instant.
   */
  lemma ExpiredIsFinal(h: seq<ChainState>, i: nat, j: nat, t: Tx, st: SigStatus, k: nat)
    requires History(h)
    requires i <= j < |h| && k < |h|
    requires Observes(h[j], t, st)
    requires Classify(h[i].height, t.lastValid, st) == Expired
    ensures !Landed(h[k], t)
  {
    if k <= j {
      HistoryIsMonotone(h, k, j);
    } else {
      HistoryIsMonotone(h, i, j);
      NeverLandsAgain(h, j, k, t);
    }
  }

  lemma {:induction false} NeverLandsAgain(h: seq<ChainState>, j: nat, k: nat, t: Tx)
    requires History(h)
    requires j <= k < |h|
    requires !Landed(h[j], t) && t.lastValid < h[j].height
    ensures !Landed(h[k], t)
    decreases k
  {
    if j < k {
      NeverLandsAgain(h, j, k - 1, t);
      HistoryIsMonotone(h, j, k - 1);
      assert Tick(h[k - 1], h[k]);
    }
  }

  /**
   Reading the status first and the height second would be wrong: for every transaction that is
   in flight and can still land there is a history in which that order says expired
   although the transaction has succeeded by the time the answer is given.
   */
  lemma StatusFirstWouldDoubleSend(ch: ChainState, t: Tx) returns (h: seq<ChainState>)
    requires Can(ch, Land(t, true))
    ensures History(h) && |h| == 3 && h[0] == ch
    ensures Observes(h[0], t, NotFound)
    ensures Classify(h[2].height, t.lastValid, NotFound) == Expired
    ensures t in h[2].ok
  {
    var mid := After(ch, Land(t, true));
    var wait := Advance(t.lastValid + 1);
    h := [ch, mid, After(mid, wait)];
    assert Tick(ch, mid) by {
      assert Can(ch, Land(t, true)) && mid == After(ch, Land(t, true));
    }
    assert Tick(mid, h[2]) by {
      assert Can(mid, wait) && h[2] == After(mid, wait);
    }
  }

  /** Some past leading up to now had an instant, not older than the given height, that looked like this. */
  ghost predicate PastAnswer(ch: ChainState, since: nat, t: Tx, st: SigStatus) {
    exists h: seq<ChainState> :: History(h) && WellFormed(h[0]) && h[|h| - 1] == ch && since <= h[0].height && Observes(h[0], t, st)
  }

  /** A lagging endpoint may say exactly what some past instant showed, if it keeps to the height it gave. */
  lemma RecallsExactly(ch: ChainState, since: nat, t: Tx, st: SigStatus)
    requires WellFormed(ch) && since <= ch.height
    ensures Recalls(ch, since, t, st) <==> PastAnswer(ch, since, t, st)
  {
    if PastAnswer(ch, since, t, st) {
      var h: seq<ChainState> :| History(h) && WellFormed(h[0]) && h[|h| - 1] == ch && since <= h[0].height && Observes(h[0], t, st);
      PastIsRecalled(h, since, t, st);
    }
    if Recalls(ch, since, t, st) {
      if st.NotFound? && Landed(ch, t) {
        var h := LandedSince(ch, since, t);
      } else {
        assert History([ch]);
      }
    }
  }

  lemma {:induction false} PastIsRecalled(h: seq<ChainState>, since: nat, t: Tx, st: SigStatus)
    requires History(h) && WellFormed(h[0]) && since <= h[0].height && Observes(h[0], t, st)
    ensures Recalls(h[|h| - 1], since, t, st)
    decreases |h|
  {
    if |h| > 1 {
      var n := |h| - 1;
      PastIsRecalled(h[..n], since, t, st);
      StaysWellFormed(h, n - 1);
      HistoryIsMonotone(h, 0, n - 1);
      assert Tick(h[n - 1], h[n]);
    }
  }

  /** A landed transaction may have landed at any height its lifetime allowed. */
  lemma LandedSince(ch: ChainState, since: nat, t: Tx) returns (h: seq<ChainState>)
    requires WellFormed(ch) && Landed(ch, t) && since <= ch.height && since <= t.lastValid
    ensures History(h) && WellFormed(h[0]) && h[|h| - 1] == ch && since <= h[0].height && Observes(h[0], t, NotFound)
  {
    var before := ch.(height := since, ok := ch.ok - {t}, err := ch.err - {t},
                      balance := ch.balance + if t in ch.ok then Outflow(t.effect) else 0);
    var landed := ch.(height := since);
    assert Tick(before, landed) by {
      assert Can(before, Land(t, t in ch.ok)) && landed == After(before, Land(t, t in ch.ok));
    }
    assert Tick(landed, ch) by {
      assert Can(landed, Advance(ch.height - since)) && ch == After(landed, Advance(ch.height - since));
    }
    h := [before, landed, ch];
  }

  /** One iteration of the polling loop; the last flag is the deadline test after the read. */
  datatype Poll = Poll(height: nat, status: SigStatus, pastDeadline: bool)

  /** The polls are taken from one history, each height no later than its status. */
  ghost predicate PolledFrom(polls: seq<Poll>, h: seq<ChainState>, at: seq<nat>, t: Tx) {
    && |at| == 2 * |polls|
    && (forall p :: 0 <= p < |at| ==> at[p] < |h|)
    && (forall p :: 0 <= p < |polls| ==>
          && at[2 * p] <= at[2 * p + 1]
          && polls[p].height == h[at[2 * p]].height
          && Observes(h[at[2 * p + 1]], t, polls[p].status))
  }

  /** The signature was seen but neither failed nor confirmed, or it was not seen and may still land. */
  predicate Undecided(p: Poll, lastValid: nat) {
    match p.status
    case Seen(failed, confirmed) => !failed && !confirmed
    case NotFound => p.height <= lastValid
  }

  /** Poll until the answer is definitive or the deadline passes. */
  method ConfirmSignature(polls: seq<Poll>, lastValid: nat) returns (state: ConfirmState, n: nat)
    requires |polls| > 0 && polls[|polls| - 1].pastDeadline
    ensures n < |polls|
    ensures state == Classify(polls[n].height, lastValid, polls[n].status)
    ensures state == Pending ==> polls[n].pastDeadline
    ensures forall m :: 0 <= m < n ==>
              Classify(polls[m].height, lastValid, polls[m].status) == Pending && !polls[m].pastDeadline
    ensures match state
            case Failed => polls[n].status.Seen? && polls[n].status.failed
            case Confirmed => polls[n].status.Seen? && !polls[n].status.failed && polls[n].status.confirmed
            case Expired => polls[n].status.NotFound? && polls[n].height > lastValid
            case Pending => Undecided(polls[n], lastValid) && polls[n].pastDeadline
    ensures forall m :: 0 <= m < n ==> Undecided(polls[m], lastValid) && !polls[m].pastDeadline
  {
    n := 0;
    state := Classify(polls[0].height, lastValid, polls[0].status);
    while state == Pending && !polls[n].pastDeadline
      invariant n < |polls|
      invariant state == Classify(polls[n].height, lastValid, polls[n].status)
      invariant forall m :: 0 <= m < n ==>
                  Classify(polls[m].height, lastValid, polls[m].status) == Pending && !polls[m].pastDeadline
      decreases |polls| - n
    {
      n := n + 1;
      state := Classify(polls[n].height, lastValid, polls[n].status);
    }
  }

  /** The polling confirmation never errs on a consistent endpoint. */
  lemma ConfirmationIsTruthful(polls: seq<Poll>, h: seq<ChainState>, at: seq<nat>, t: Tx, n: nat)
    requires History(h) && WellFormed(h[0])
    requires PolledFrom(polls, h, at, t) && n < |polls|
    ensures var last := h[|h| - 1];
            match Classify(polls[n].height, t.lastValid, polls[n].status)
            case Confirmed => t in last.ok
            case Failed => t in last.err && t !in last.ok
            case Expired => !Landed(last, t) && Spent(last, t)
            case Pending => true
  {
    var i, j, k := at[2 * n], at[2 * n + 1], |h| - 1;
    HistoryIsMonotone(h, i, k);
    HistoryIsMonotone(h, j, k);
    StaysWellFormed(h, j);
    StaysWellFormed(h, k);
    if Classify(polls[n].height, t.lastValid, polls[n].status) == Expired {
      ExpiredIsFinal(h, i, j, t, polls[n].status, k);
    }
  }

  // ---------------------------------------------------------------------------
  // The outflow scan
  // ---------------------------------------------------------------------------

  /** One entry of an address history; an address whose page fails to load is None. */
  datatype Entry = Entry(signature: Tx, failed: bool, settled: bool)

  predicate Counts(e: Entry, known: set<Tx>) {
    !e.failed && e.settled && e.signature in known
  }

  predicate HitAt(known: set<Tx>, pages: seq<Option<seq<Entry>>>, p: int, q: int) {
    && 0 <= p < |pages| && pages[p].Some?
    && 0 <= q < |pages[p].value|
    && Counts(pages[p].value[q], known)
  }

  /** Scan the address pages for one of the claim's own confirmed signatures. */
  method FindConfirmedOutflow(known: set<Tx>, pages: seq<Option<seq<Entry>>>) returns (hit: Option<Tx>)
    ensures hit.Some? ==>
              exists p, q :: HitAt(known, pages, p, q) && pages[p].value[q].signature == hit.value
    ensures hit.None? ==> forall p, q :: !HitAt(known, pages, p, q)
  {
    if known == {} {
      return None;
    }
    for p := 0 to |pages|
      invariant forall p', q :: 0 <= p' < p ==> !HitAt(known, pages, p', q)
    {
      if pages[p].Some? {
        var page := pages[p].value;
        for q := 0 to |page|
          invariant forall q' :: 0 <= q' < q ==> !HitAt(known, pages, p, q')
        {
          if Counts(page[q], known) {
            assert HitAt(known, pages, p, q);
            return Some(page[q].signature);
          }
        }
      }
    }
    return None;
  }

  /** An entry of a truthful page reports how its transaction landed. */
  ghost predicate TruthfulPages(ch: ChainState, pages: seq<Option<seq<Entry>>>) {
    forall p, q :: 0 <= p < |pages| && pages[p].Some? && 0 <= q < |pages[p].value| ==>
      var e := pages[p].value[q];
      e.settled && !e.failed ==> e.signature in ch.ok
  }

  /** Some page lists the transaction as settled and successful. */
  ghost predicate Lists(pages: seq<Option<seq<Entry>>>, t: Tx) {
    exists p, q :: 0 <= p < |pages| && pages[p].Some? && 0 <= q < |pages[p].value|
                   && pages[p].value[q] == Entry(t, false, true)
  }

  /** The pages between them list every landed known signature. */
  ghost predicate CompletePages(ch: ChainState, known: set<Tx>, pages: seq<Option<seq<Entry>>>) {
    forall t :: t in known && t in ch.ok ==> Lists(pages, t)
  }

  /**
   However many foreign or decoy entries the pages carry, a hit is one of the claim's own landed
   signatures; and when the pages are complete there is a hit exactly when one has landed.
   */
  method ScanIsDecoyProof(ghost ch: ChainState, known: set<Tx>, pages: seq<Option<seq<Entry>>>)
    returns (hit: Option<Tx>)
    requires TruthfulPages(ch, pages)
    ensures hit.Some? ==> hit.value in known && hit.value in ch.ok
    ensures CompletePages(ch, known, pages) ==> (hit.Some? <==> exists t :: t in known && t in ch.ok)
  {
    hit := FindConfirmedOutflow(known, pages);
    if CompletePages(ch, known, pages) && exists t :: t in known && t in ch.ok {
      ghost var t :| t in known && t in ch.ok;
      assert Lists(pages, t);
      ghost var p, q :| 0 <= p < |pages| && pages[p].Some? && 0 <= q < |pages[p].value|
                  && pages[p].value[q] == Entry(t, false, true);
      assert HitAt(known, pages, p, q);
    }
  }
}
