/**
 The ANT access-list heal: the on-chain page structure and instruction contracts, the snapshot reader,
 the planner, and the exact condition under which one planned transaction reaches the fixed point.
 */
module AntAcl {
  import opened Prelude

  datatype Addr = Addr(id: nat)
  datatype Mint = Mint(id: nat)

  datatype Role = OwnerRole | ControllerRole
  datatype AclEntry = AclEntry(asset: Mint, role: Role)

  const MAX_ACL_PAGE_ENTRIES: nat := 256

  type Page = seq<AclEntry>

  /** On-chain state around one ANT: its owner, its config, and every user's pages. */
  datatype World = World(
    mint: Mint,
    mplOwner: Option<Addr>,
    controllers: seq<Addr>,
    lastKnownOwner: Addr,
    acls: map<Addr, seq<Page>>
  )

  datatype Ix =
    | RemoveAclOwner(user: Addr, page: nat)
    | RegisterAclConfig(user: Addr)
    | AddAclPage(user: Addr, page: nat)
    | RecordAclOwner(user: Addr, page: nat)
    | Reconcile

  // ---------------------------------------------------------------------------
  // The instructions' on-chain contracts
  // ---------------------------------------------------------------------------

  function OwnerEntry(w: World): AclEntry {
    AclEntry(w.mint, OwnerRole)
  }

  function IndexOf(page: Page, e: AclEntry): (i: nat)
    requires e in page
    ensures i < |page| && page[i] == e
  {
    if page[0] == e then 0 else 1 + IndexOf(page[1..], e)
  }

  /** The last entry takes the removed one's place. */
  function SwapRemove(page: Page, e: AclEntry): Page
    requires e in page
  {
    page[IndexOf(page, e) := page[|page| - 1]][..|page| - 1]
  }

  function SetPage(w: World, user: Addr, i: nat, page: Page): World
    requires user in w.acls && i < |w.acls[user]|
  {
    w.(acls := w.acls[user := w.acls[user][i := page]])
  }

  /** One instruction, or None when the program rejects it. */
  function Execute(w: World, ix: Ix): Option<World> {
    match ix
    case RemoveAclOwner(user, i) =>
      if user in w.acls && i < |w.acls[user]| && OwnerEntry(w) in w.acls[user][i]
         && w.mplOwner.Some? && w.mplOwner.value != user
      then Some(SetPage(w, user, i, SwapRemove(w.acls[user][i], OwnerEntry(w)))) else None
    case RegisterAclConfig(user) =>
      if user !in w.acls then Some(w.(acls := w.acls[user := []])) else None
    case AddAclPage(user, i) =>
      if user in w.acls && i == |w.acls[user]| then Some(w.(acls := w.acls[user := w.acls[user] + [[]]])) else None
    case RecordAclOwner(user, i) =>
      if user in w.acls && i < |w.acls[user]| && |w.acls[user][i]| < MAX_ACL_PAGE_ENTRIES && w.mplOwner == Some(user)
      then Some(SetPage(w, user, i, w.acls[user][i] + [OwnerEntry(w)])) else None
    case Reconcile =>
      if w.mplOwner.None? then None
      else if w.lastKnownOwner != w.mplOwner.value then Some(w.(controllers := [], lastKnownOwner := w.mplOwner.value))
      else Some(w)
  }

  /** A transaction is all or nothing. */
  function Transact(w: World, ixs: seq<Ix>): Option<World>
    decreases |ixs|
  {
    if ixs == [] then Some(w)
    else
      match Execute(w, ixs[0])
      case None => None
      case Some(next) => Transact(next, ixs[1..])
  }

  // ---------------------------------------------------------------------------
  // Reading a snapshot
  // ---------------------------------------------------------------------------

  datatype OwnerAcl = OwnerAcl(exists_: bool, pageCount: nat, entryPage: Option<nat>, nonFull: Option<nat>)

  /**
   Of the pages the endpoint returned, the page of the entry is the last that holds it and the page with
   room the first; pages it failed to return are passed over.
   */
  ghost predicate ReadsAs(pages: seq<Page>, missing: set<nat>, e: AclEntry, r: OwnerAcl) {
    && r.exists_ && r.pageCount == |pages|
    && (match r.entryPage
        case None => forall k :: 0 <= k < |pages| && k !in missing ==> e !in pages[k]
        case Some(i) => i < |pages| && i !in missing && e in pages[i]
                        && forall k :: i < k < |pages| && k !in missing ==> e !in pages[k])
    && (match r.nonFull
        case None => forall k :: 0 <= k < |pages| && k !in missing ==> |pages[k]| >= MAX_ACL_PAGE_ENTRIES
        case Some(i) => i < |pages| && i !in missing && |pages[i]| < MAX_ACL_PAGE_ENTRIES
                        && forall k :: 0 <= k < i && k !in missing ==> |pages[k]| >= MAX_ACL_PAGE_ENTRIES)
  }

  ghost predicate ReadsWithout(w: World, user: Addr, missing: set<nat>, r: OwnerAcl) {
    if user in w.acls then ReadsAs(w.acls[user], missing, OwnerEntry(w), r) else r == OwnerAcl(false, 0, None, None)
  }

  /** A complete read. */
  ghost predicate Reads(w: World, user: Addr, r: OwnerAcl) {
    ReadsWithout(w, user, {}, r)
  }

  method ReadOwnerAcl(w: World, user: Addr, missing: set<nat>) returns (r: OwnerAcl)
    ensures ReadsWithout(w, user, missing, r)
  {
    if user !in w.acls {
      return OwnerAcl(false, 0, None, None);
    }
    var pages := w.acls[user];
    var entryPage: Option<nat>, nonFull: Option<nat> := None, None;
    for k := 0 to |pages|
      invariant ReadsAs(pages[..k], missing, OwnerEntry(w), OwnerAcl(true, k, entryPage, nonFull))
    {
      if k in missing {
        continue;
      }
      var entries := pages[k];
      if nonFull.None? && |entries| < MAX_ACL_PAGE_ENTRIES {
        nonFull := Some(k);
      }
      if OwnerEntry(w) in entries {
        entryPage := Some(k);
      }
    }
    assert pages[..|pages|] == pages;
    return OwnerAcl(true, |pages|, entryPage, nonFull);
  }

  datatype Params = Params(oldOwner: Addr, claimant: Addr)

  datatype Snapshot = Snapshot(
    mplOwner: Option<Addr>, controllers: seq<Addr>, lastKnownOwner: Addr,
    oldEntryPage: Option<nat>, newExists: bool, newHasEntry: bool, targetPage: nat, needsCreate: bool)

  ghost predicate SnapshotOf(w: World, p: Params, s: Snapshot) {
    exists old_, new_ ::
      && Reads(w, p.oldOwner, old_) && Reads(w, p.claimant, new_)
      && s == MakeSnapshot(w, old_, new_)
  }

  function MakeSnapshot(w: World, old_: OwnerAcl, new_: OwnerAcl): Snapshot {
    Snapshot(w.mplOwner, w.controllers, w.lastKnownOwner, old_.entryPage, new_.exists_, new_.entryPage.Some?,
             new_.nonFull.GetOr(new_.pageCount), new_.nonFull.None?)
  }

  method ReadSnapshot(w: World, p: Params, missingOld: set<nat>, missingNew: set<nat>) returns (s: Snapshot)
    ensures exists old_, new_ ::
              && ReadsWithout(w, p.oldOwner, missingOld, old_) && ReadsWithout(w, p.claimant, missingNew, new_)
              && s == MakeSnapshot(w, old_, new_)
    ensures missingOld == {} && missingNew == {} ==> SnapshotOf(w, p, s)
  {
    var old_ := ReadOwnerAcl(w, p.oldOwner, missingOld);
    var new_ := ReadOwnerAcl(w, p.claimant, missingNew);
    var target := match new_.nonFull { case Some(i) => i case None => new_.pageCount };
    s := Snapshot(w.mplOwner, w.controllers, w.lastKnownOwner, old_.entryPage, new_.exists_, new_.entryPage.Some?,
                  target, new_.nonFull.None?);
    assert s == MakeSnapshot(w, old_, new_);
  }

  // ---------------------------------------------------------------------------
  // Planning and verifying
  // ---------------------------------------------------------------------------

  datatype Plan = Plan(ixs: seq<Ix>, alreadyHealed: bool, aborted: bool)

  function RemovePart(s: Snapshot, p: Params): seq<Ix> {
    if s.oldEntryPage.Some? then [RemoveAclOwner(p.oldOwner, s.oldEntryPage.value)] else []
  }

  function RecordPart(s: Snapshot, p: Params): seq<Ix> {
    if s.newHasEntry then []
    else
      (if s.newExists then [] else [RegisterAclConfig(p.claimant)])
      + (if s.needsCreate then [AddAclPage(p.claimant, s.targetPage)] else [])
      + [RecordAclOwner(p.claimant, s.targetPage)]
  }

  function ReconcilePart(s: Snapshot, p: Params): seq<Ix> {
    if s.lastKnownOwner != p.claimant || p.oldOwner in s.controllers then [Reconcile] else []
  }

  function PlanHeal(s: Snapshot, p: Params): Plan {
    if s.mplOwner != Some(p.claimant) then Plan([], false, true)
    else
      var ixs := RemovePart(s, p) + RecordPart(s, p) + ReconcilePart(s, p);
      Plan(ixs, ixs == [], false)
  }

  method PlanAclHeal(s: Snapshot, p: Params) returns (plan: Plan)
    ensures plan == PlanHeal(s, p)
  {
    if s.mplOwner.None? {
      return Plan([], false, true);
    }
    if s.mplOwner.value != p.claimant {
      return Plan([], false, true);
    }
    var ixs := [];
    if s.oldEntryPage.Some? {
      ixs := ixs + [RemoveAclOwner(p.oldOwner, s.oldEntryPage.value)];
    }
    assert ixs == RemovePart(s, p);
    if !s.newHasEntry {
      if !s.newExists {
        ixs := ixs + [RegisterAclConfig(p.claimant)];
      }
      if s.needsCreate {
        ixs := ixs + [AddAclPage(p.claimant, s.targetPage)];
      }
      ixs := ixs + [RecordAclOwner(p.claimant, s.targetPage)];
    }
    assert ixs == RemovePart(s, p) + RecordPart(s, p);
    if s.lastKnownOwner != p.claimant || p.oldOwner in s.controllers {
      ixs := ixs + [Reconcile];
    }
    assert ixs == RemovePart(s, p) + RecordPart(s, p) + ReconcilePart(s, p);
    return Plan(ixs, ixs == [], false);
  }

  function VerifySnapshot(s: Snapshot, p: Params): bool {
    && s.mplOwner == Some(p.claimant)
    && s.oldEntryPage.None?
    && s.newHasEntry
    && p.oldOwner !in s.controllers
    && s.lastKnownOwner == p.claimant
  }

  // ---------------------------------------------------------------------------
  // What healed means on chain
  // ---------------------------------------------------------------------------

  function Times(page: Page, e: AclEntry): nat {
    if page == [] then 0 else (if page[0] == e then 1 else 0) + Times(page[1..], e)
  }

  lemma {:induction false} TimesSplits(xs: Page, ys: Page, e: AclEntry)
    ensures Times(xs + ys, e) == Times(xs, e) + Times(ys, e)
  {
    if xs == [] {
      assert xs + ys == ys;
    } else {
      assert (xs + ys)[0] == xs[0] && (xs + ys)[1..] == xs[1..] + ys;
      TimesSplits(xs[1..], ys, e);
    }
  }

  lemma {:induction false} TimesZero(page: Page, e: AclEntry)
    ensures Times(page, e) == 0 <==> e !in page
  {
    if page != [] {
      TimesZero(page[1..], e);
    }
  }

  /** How often the pages hold an entry. */
  function Copies(pages: seq<Page>, e: AclEntry): nat {
    if pages == [] then 0 else Times(pages[0], e) + Copies(pages[1..], e)
  }

  function OwnerCopies(w: World, user: Addr): nat {
    if user in w.acls then Copies(w.acls[user], OwnerEntry(w)) else 0
  }

  predicate FullyHealed(w: World, p: Params) {
    && w.mplOwner == Some(p.claimant)
    && OwnerCopies(w, p.oldOwner) == 0
    && OwnerCopies(w, p.claimant) > 0
    && p.oldOwner !in w.controllers
    && w.lastKnownOwner == p.claimant
  }

  lemma {:induction false} CopiesZero(pages: seq<Page>, e: AclEntry)
    ensures Copies(pages, e) == 0 <==> forall k :: 0 <= k < |pages| ==> e !in pages[k]
  {
    if pages != [] {
      CopiesZero(pages[1..], e);
      TimesZero(pages[0], e);
      assert forall k :: 1 <= k < |pages| ==> pages[k] == pages[1..][k - 1];
    }
  }

  lemma {:induction false} CopiesUpdate(pages: seq<Page>, i: nat, page: Page, e: AclEntry)
    requires i < |pages|
    ensures Copies(pages[i := page], e) == Copies(pages, e) - Times(pages[i], e) + Times(page, e)
  {
    if i > 0 {
      assert pages[i := page][1..] == pages[1..][i - 1 := page];
      CopiesUpdate(pages[1..], i - 1, page, e);
    } else {
      assert pages[i := page][1..] == pages[1..];
    }
  }

  lemma {:induction false} CopiesAppend(pages: seq<Page>, page: Page, e: AclEntry)
    ensures Copies(pages + [page], e) == Copies(pages, e) + Times(page, e)
  {
    if pages == [] {
      assert pages + [page] == [page] && [page][1..] == [];
    } else {
      assert (pages + [page])[1..] == pages[1..] + [page];
      CopiesAppend(pages[1..], page, e);
    }
  }

  lemma {:induction false} TimesUpdate(page: Page, i: nat, v: AclEntry, x: AclEntry)
    requires i < |page|
    ensures Times(page[i := v], x) == Times(page, x) - (if page[i] == x then 1 else 0) + if v == x then 1 else 0
  {
    if i > 0 {
      assert page[i := v][1..] == page[1..][i - 1 := v];
      TimesUpdate(page[1..], i - 1, v, x);
    } else {
      assert page[i := v][1..] == page[1..];
    }
  }

  lemma SwapRemoveTakesOne(page: Page, e: AclEntry, x: AclEntry)
    requires e in page
    ensures Times(SwapRemove(page, e), x) == Times(page, x) - if x == e then 1 else 0
    ensures |SwapRemove(page, e)| == |page| - 1
  {
    var last := page[|page| - 1];
    var moved := page[IndexOf(page, e) := last];
    assert moved == SwapRemove(page, e) + [last];
    TimesUpdate(page, IndexOf(page, e), last, x);
    TimesSplits(SwapRemove(page, e), [last], x);
    assert [last][1..] == [];
  }

  /** Verification reads exactly what the chain holds. */
  lemma VerifyIsExact(w: World, p: Params, s: Snapshot)
    requires SnapshotOf(w, p, s)
    ensures VerifySnapshot(s, p) <==> FullyHealed(w, p)
  {
    if p.oldOwner in w.acls {
      CopiesZero(w.acls[p.oldOwner], OwnerEntry(w));
    }
    if p.claimant in w.acls {
      CopiesZero(w.acls[p.claimant], OwnerEntry(w));
    }
  }

  /** The planner has nothing left to do exactly in the healed states. */
  lemma NothingToDoMeansHealed(w: World, p: Params, s: Snapshot)
    requires SnapshotOf(w, p, s)
    ensures PlanHeal(s, p).alreadyHealed <==> FullyHealed(w, p)
  {
    VerifyIsExact(w, p, s);
    var ixs := RemovePart(s, p) + RecordPart(s, p) + ReconcilePart(s, p);
    assert ixs == [] <==> RemovePart(s, p) == [] && RecordPart(s, p) == [] && ReconcilePart(s, p) == [] by {
      assert |ixs| == |RemovePart(s, p)| + |RecordPart(s, p)| + |ReconcilePart(s, p)|;
    }
  }

  /** Some page of the user lists the ANT as owned. */
  ghost predicate Lists(w: World, user: Addr) {
    user in w.acls && exists k :: 0 <= k < |w.acls[user]| && AclEntry(w.mint, OwnerRole) in w.acls[user][k]
  }

  /** Every page the user has is full, or there is none. */
  ghost predicate NoRoom(w: World, user: Addr) {
    user in w.acls ==> forall k :: 0 <= k < |w.acls[user]| ==> |w.acls[user][k]| >= 256
  }

  /** Verification asks for exactly five things of the chain. */
  lemma VerificationSays(w: World, p: Params, s: Snapshot)
    requires SnapshotOf(w, p, s)
    ensures VerifySnapshot(s, p) <==>
            && w.mplOwner == Some(p.claimant) && !Lists(w, p.oldOwner) && Lists(w, p.claimant)
            && p.oldOwner !in w.controllers && w.lastKnownOwner == p.claimant
  {
  }

  /** Each instruction is planned exactly when the chain calls for it, in this order, and nothing is planned for a foreign owner. */
  lemma PlanSays(w: World, p: Params, s: Snapshot)
    requires SnapshotOf(w, p, s)
    ensures var plan := PlanHeal(s, p);
            var mine := w.mplOwner == Some(p.claimant);
            var remove, record := mine && Lists(w, p.oldOwner), mine && !Lists(w, p.claimant);
            var register, page := record && p.claimant !in w.acls, record && NoRoom(w, p.claimant);
            var reconcile := mine && (w.lastKnownOwner != p.claimant || p.oldOwner in w.controllers);
            var a := if remove then 1 else 0;
            var b := a + if register then 1 else 0;
            var c := b + if page then 1 else 0;
            var d := c + if record then 1 else 0;
            && (plan.aborted <==> !mine) && (plan.alreadyHealed <==> mine && plan.ixs == [])
            && |plan.ixs| == d + (if reconcile then 1 else 0)
            && (remove ==> plan.ixs[0].RemoveAclOwner? && plan.ixs[0].user == p.oldOwner)
            && (register ==> plan.ixs[a] == RegisterAclConfig(p.claimant))
            && (page ==> plan.ixs[b].AddAclPage? && plan.ixs[b].user == p.claimant)
            && (record ==> plan.ixs[c].RecordAclOwner? && plan.ixs[c].user == p.claimant)
            && (reconcile ==> plan.ixs[d] == Ix.Reconcile)
  {
    var old_, new_ :| Reads(w, p.oldOwner, old_) && Reads(w, p.claimant, new_) && s == MakeSnapshot(w, old_, new_);
    assert s.oldEntryPage.Some? <==> Lists(w, p.oldOwner);
    assert s.newHasEntry <==> Lists(w, p.claimant);
    assert s.newExists <==> p.claimant in w.acls;
    assert s.needsCreate <==> NoRoom(w, p.claimant);
  }

  // ---------------------------------------------------------------------------
  // One transaction
  // ---------------------------------------------------------------------------

  /** How often the user's pages hold an entry. */
  function Held(w: World, user: Addr, x: AclEntry): nat {
    if user in w.acls then Copies(w.acls[user], x) else 0
  }

  predicate WithinCap(w: World) {
    forall user, i :: user in w.acls && 0 <= i < |w.acls[user]| ==> |w.acls[user][i]| <= MAX_ACL_PAGE_ENTRIES
  }

  /** Same ANT; every user's holdings are the same, except that the user's own entry counts change. */
  predicate OnlyUser(w: World, w': World, user: Addr) {
    && w'.mint == w.mint && w'.mplOwner == w.mplOwner
    && (forall u :: u in w.acls ==> u in w'.acls)
    && (forall u :: u in w'.acls && u != user ==> u in w.acls && w'.acls[u] == w.acls[u])
    && (WithinCap(w) ==> WithinCap(w'))
  }

  lemma SetPageOnlyUser(w: World, user: Addr, i: nat, page: Page)
    requires user in w.acls && i < |w.acls[user]| && |page| <= MAX_ACL_PAGE_ENTRIES
    ensures OnlyUser(w, SetPage(w, user, i, page), user)
  {
  }

  lemma TransactOne(w: World, ix: Ix)
    ensures Transact(w, [ix]) == Execute(w, ix)
  {
    assert [ix][1..] == [];
  }

  /** Removing takes one copy of the owner entry from the old owner, and nothing else. */
  lemma RemoveEffect(w: World, p: Params, s: Snapshot)
    requires SnapshotOf(w, p, s) && s.oldEntryPage.Some? && w.mplOwner.Some? && w.mplOwner.value != p.oldOwner
    requires WithinCap(w)
    ensures Transact(w, RemovePart(s, p)).Some?
    ensures var w' := Transact(w, RemovePart(s, p)).value;
            && OnlyUser(w, w', p.oldOwner)
            && (forall x :: Held(w', p.oldOwner, x) == Held(w, p.oldOwner, x) - if x == OwnerEntry(w) then 1 else 0)
            && w'.controllers == w.controllers && w'.lastKnownOwner == w.lastKnownOwner
  {
    var i := s.oldEntryPage.value;
    var pages := w.acls[p.oldOwner];
    var e := OwnerEntry(w);
    var page := SwapRemove(pages[i], e);
    TransactOne(w, RemoveAclOwner(p.oldOwner, i));
    forall x ensures Copies(pages[i := page], x) == Copies(pages, x) - if x == e then 1 else 0 {
      SwapRemoveTakesOne(pages[i], e, x);
      CopiesUpdate(pages, i, page, x);
    }
    SwapRemoveTakesOne(pages[i], e, e);
    SetPageOnlyUser(w, p.oldOwner, i, page);
  }

  function Then(r: Option<World>, ixs: seq<Ix>): Option<World> {
    match r
    case None => None
    case Some(w) => Transact(w, ixs)
  }

  lemma {:induction false} TransactSplits(w: World, xs: seq<Ix>, ys: seq<Ix>)
    ensures Transact(w, xs + ys) == Then(Transact(w, xs), ys)
    decreases |xs|
  {
    if xs == [] {
      assert xs + ys == ys;
    } else {
      assert (xs + ys)[0] == xs[0] && (xs + ys)[1..] == xs[1..] + ys;
      var first := Execute(w, xs[0]);
      if first.Some? {
        TransactSplits(first.value, xs[1..], ys);
      }
    }
  }

  /** The claimant's side of a snapshot, still current in w. */
  ghost predicate NewSide(w: World, p: Params, s: Snapshot, r: OwnerAcl) {
    && Reads(w, p.claimant, r)
    && s.newExists == r.exists_ && s.newHasEntry == r.entryPage.Some?
    && s.targetPage == r.nonFull.GetOr(r.pageCount) && s.needsCreate == r.nonFull.None?
  }

  /** Registering and adding a page give the claimant a page with room and hold nothing new. */
  lemma PrepareEffect(w: World, p: Params, s: Snapshot, r: OwnerAcl)
    requires NewSide(w, p, s, r) && WithinCap(w)
    ensures var ixs := (if s.newExists then [] else [RegisterAclConfig(p.claimant)])
                       + (if s.needsCreate then [AddAclPage(p.claimant, s.targetPage)] else []);
            Transact(w, ixs).Some?
            && var w' := Transact(w, ixs).value;
               && OnlyUser(w, w', p.claimant)
               && (forall x :: Held(w', p.claimant, x) == Held(w, p.claimant, x))
               && w'.controllers == w.controllers && w'.lastKnownOwner == w.lastKnownOwner
               && p.claimant in w'.acls && s.targetPage < |w'.acls[p.claimant]|
               && |w'.acls[p.claimant][s.targetPage]| < MAX_ACL_PAGE_ENTRIES
  {
    var register := if s.newExists then [] else [RegisterAclConfig(p.claimant)];
    var add := if s.needsCreate then [AddAclPage(p.claimant, s.targetPage)] else [];
    TransactSplits(w, register, add);
    var w1 := if s.newExists then w else w.(acls := w.acls[p.claimant := []]);
    TransactOne(w, RegisterAclConfig(p.claimant));
    assert Transact(w, register) == Some(w1);
    TransactOne(w1, AddAclPage(p.claimant, s.targetPage));
    if s.needsCreate {
      forall x ensures Copies(w1.acls[p.claimant] + [[]], x) == Copies(w1.acls[p.claimant], x) {
        CopiesAppend(w1.acls[p.claimant], [], x);
      }
    }
  }

  /** Recording gives the claimant one copy of the owner entry, and nothing else. */
  lemma RecordEffect(w: World, p: Params, s: Snapshot, r: OwnerAcl)
    requires NewSide(w, p, s, r) && WithinCap(w) && w.mplOwner == Some(p.claimant) && !s.newHasEntry
    ensures Transact(w, RecordPart(s, p)).Some?
    ensures var w' := Transact(w, RecordPart(s, p)).value;
            && OnlyUser(w, w', p.claimant)
            && (forall x :: Held(w', p.claimant, x) == Held(w, p.claimant, x) + if x == OwnerEntry(w) then 1 else 0)
            && w'.controllers == w.controllers && w'.lastKnownOwner == w.lastKnownOwner
  {
    var prepare := (if s.newExists then [] else [RegisterAclConfig(p.claimant)])
                   + (if s.needsCreate then [AddAclPage(p.claimant, s.targetPage)] else []);
    var record := RecordAclOwner(p.claimant, s.targetPage);
    PrepareEffect(w, p, s, r);
    TransactSplits(w, prepare, [record]);
    var w1 := Transact(w, prepare).value;
    TransactOne(w1, record);
    var pages := w1.acls[p.claimant];
    var page := pages[s.targetPage] + [OwnerEntry(w)];
    forall x ensures Copies(pages[s.targetPage := page], x) == Copies(pages, x) + if x == OwnerEntry(w) then 1 else 0 {
      TimesSplits(pages[s.targetPage], [OwnerEntry(w)], x);
      assert [OwnerEntry(w)][1..] == [];
      CopiesUpdate(pages, s.targetPage, page, x);
    }
    SetPageOnlyUser(w1, p.claimant, s.targetPage, page);
  }

  // ---------------------------------------------------------------------------
  // The heal
  // ---------------------------------------------------------------------------

  /** The state one heal attempt leaves: a rejected transaction changes nothing. */
  function AfterHeal(w: World, plan: Plan): World {
    match Transact(w, plan.ixs)
    case Some(w') => w'
    case None => w
  }

  /** What a caller can check beforehand. */
  predicate Healable(w: World, p: Params) {
    && w.mplOwner == Some(p.claimant)
    && p.oldOwner != p.claimant
    && OwnerCopies(w, p.oldOwner) <= 1
    && !(w.lastKnownOwner == p.claimant && p.oldOwner in w.controllers)
  }

  lemma EntryPageIsCount(w: World, user: Addr, r: OwnerAcl)
    requires Reads(w, user, r)
    ensures r.entryPage.None? <==> OwnerCopies(w, user) == 0
  {
    if user in w.acls {
      CopiesZero(w.acls[user], OwnerEntry(w));
    }
  }

  lemma OthersHold(w: World, w': World, user: Addr, other: Addr, x: AclEntry)
    requires OnlyUser(w, w', user) && other != user
    ensures Held(w', other, x) == Held(w, other, x)
  {
    assert other in w'.acls <==> other in w.acls;
  }

  function Less(n: nat): nat {
    if n == 0 then 0 else n - 1
  }

  /** What a part of the plan does to user's holdings: the owner entry goes from one count to another. */
  ghost predicate Moves(w: World, r: Option<World>, user: Addr, to: nat) {
    && r.Some?
    && OnlyUser(w, r.value, user) && WithinCap(r.value)
    && OwnerCopies(r.value, user) == to
    && (forall x :: x != OwnerEntry(w) ==> Held(r.value, user, x) == Held(w, user, x))
    && r.value.controllers == w.controllers && r.value.lastKnownOwner == w.lastKnownOwner
  }

  lemma RemoveStep(w: World, p: Params, s: Snapshot)
    requires SnapshotOf(w, p, s) && WithinCap(w) && w.mplOwner.Some? && w.mplOwner.value != p.oldOwner
    ensures Moves(w, Transact(w, RemovePart(s, p)), p.oldOwner, Less(OwnerCopies(w, p.oldOwner)))
  {
    var old_, new_ :| Reads(w, p.oldOwner, old_) && Reads(w, p.claimant, new_) && s == MakeSnapshot(w, old_, new_);
    EntryPageIsCount(w, p.oldOwner, old_);
    if s.oldEntryPage.Some? {
      RemoveEffect(w, p, s);
      assert Held(w, p.oldOwner, OwnerEntry(w)) == OwnerCopies(w, p.oldOwner);
    }
  }

  lemma RecordStep(w: World, p: Params, s: Snapshot, r: OwnerAcl)
    requires NewSide(w, p, s, r) && WithinCap(w) && w.mplOwner == Some(p.claimant)
    ensures Moves(w, Transact(w, RecordPart(s, p)), p.claimant,
                  if OwnerCopies(w, p.claimant) == 0 then 1 else OwnerCopies(w, p.claimant))
  {
    EntryPageIsCount(w, p.claimant, r);
    if !s.newHasEntry {
      RecordEffect(w, p, s, r);
      assert Held(w, p.claimant, OwnerEntry(w)) == OwnerCopies(w, p.claimant);
    }
  }

  /** The planned transaction of a claimant that owns the asset and is not the old owner always succeeds. */
  lemma PlanSucceeds(w: World, p: Params, s: Snapshot)
    requires SnapshotOf(w, p, s) && WithinCap(w) && w.mplOwner == Some(p.claimant) && p.oldOwner != p.claimant
    ensures Transact(w, PlanHeal(s, p).ixs).Some?
    ensures var w' := Transact(w, PlanHeal(s, p).ixs).value;
            && w'.mint == w.mint && w'.mplOwner == w.mplOwner && WithinCap(w')
            && (forall user, x :: x != OwnerEntry(w) || (user != p.oldOwner && user != p.claimant) ==>
                  Held(w', user, x) == Held(w, user, x))
            && OwnerCopies(w', p.oldOwner) == Less(OwnerCopies(w, p.oldOwner))
            && OwnerCopies(w', p.claimant) == (if OwnerCopies(w, p.claimant) == 0 then 1 else OwnerCopies(w, p.claimant))
            && w'.lastKnownOwner == p.claimant
            && w'.controllers == (if w.lastKnownOwner == p.claimant then w.controllers else [])
  {
    RemoveStep(w, p, s);
    var w1 := Transact(w, RemovePart(s, p)).value;
    var r := NewSideStays(w, w1, p, s);
    RecordStep(w1, p, s, r);
    var w2 := Transact(w1, RecordPart(s, p)).value;
    TwoMoves(w, w1, w2, p);
    ReconcileStep(w2, p, s);
    ThreeParts(w, w1, w2, RemovePart(s, p), RecordPart(s, p), ReconcilePart(s, p));
    assert PlanHeal(s, p).ixs == RemovePart(s, p) + RecordPart(s, p) + ReconcilePart(s, p);
    HeldIgnoresConfig(w2, Transact(w2, ReconcilePart(s, p)).value);
  }

  lemma HeldIgnoresConfig(w: World, w': World)
    requires w'.acls == w.acls && w'.mint == w.mint
    ensures forall user, x :: Held(w', user, x) == Held(w, user, x)
    ensures WithinCap(w) ==> WithinCap(w')
    ensures forall user :: OwnerCopies(w', user) == OwnerCopies(w, user)
  {
  }

  lemma ThreeParts(w: World, w1: World, w2: World, xs: seq<Ix>, ys: seq<Ix>, zs: seq<Ix>)
    requires Transact(w, xs) == Some(w1) && Transact(w1, ys) == Some(w2)
    ensures Transact(w, xs + ys + zs) == Transact(w2, zs)
  {
    TransactSplits(w, xs + ys, zs);
    TransactSplits(w, xs, ys);
  }

  lemma NewSideStays(w: World, w1: World, p: Params, s: Snapshot) returns (r: OwnerAcl)
    requires SnapshotOf(w, p, s) && OnlyUser(w, w1, p.oldOwner) && p.oldOwner != p.claimant
    ensures NewSide(w1, p, s, r)
  {
    var old_, new_ :| Reads(w, p.oldOwner, old_) && Reads(w, p.claimant, new_) && s == MakeSnapshot(w, old_, new_);
    r := new_;
    assert p.claimant in w1.acls <==> p.claimant in w.acls;
  }

  /** The reconcile instruction is a no-op exactly when the known owner is already current. */
  lemma ReconcileStep(w: World, p: Params, s: Snapshot)
    requires w.mplOwner == Some(p.claimant) && s.lastKnownOwner == w.lastKnownOwner && s.controllers == w.controllers
    ensures Transact(w, ReconcilePart(s, p)) ==
            Some(w.(lastKnownOwner := p.claimant,
                    controllers := if w.lastKnownOwner == p.claimant then w.controllers else []))
  {
    TransactOne(w, Reconcile);
  }

  /** The removal and the recording concern two different users. */
  lemma TwoMoves(w: World, w1: World, w2: World, p: Params)
    requires p.oldOwner != p.claimant
    requires OnlyUser(w, w1, p.oldOwner) && OnlyUser(w1, w2, p.claimant)
    requires forall x :: x != OwnerEntry(w) ==> Held(w1, p.oldOwner, x) == Held(w, p.oldOwner, x)
    requires forall x :: x != OwnerEntry(w) ==> Held(w2, p.claimant, x) == Held(w1, p.claimant, x)
    ensures forall user, x :: x != OwnerEntry(w) || (user != p.oldOwner && user != p.claimant) ==>
              Held(w2, user, x) == Held(w, user, x)
    ensures OwnerCopies(w2, p.oldOwner) == OwnerCopies(w1, p.oldOwner)
    ensures OwnerCopies(w1, p.claimant) == OwnerCopies(w, p.claimant)
  {
    forall user, x | x != OwnerEntry(w) || (user != p.oldOwner && user != p.claimant)
      ensures Held(w2, user, x) == Held(w, user, x)
    {
      if user != p.oldOwner {
        OthersHold(w, w1, p.oldOwner, user, x);
      }
      if user != p.claimant {
        OthersHold(w1, w2, p.claimant, user, x);
      }
    }
    OthersHold(w, w1, p.oldOwner, p.claimant, OwnerEntry(w));
    OthersHold(w1, w2, p.claimant, p.oldOwner, OwnerEntry(w));
  }

  /**
   One transaction heals the ANT exactly in the healable states: the claimant owns it and is not the
   old owner, the old owner's entry is not duplicated, and the old owner is not a controller left
   over under an already current owner.
   */
  lemma HealsExactly(w: World, p: Params, s: Snapshot)
    requires SnapshotOf(w, p, s) && WithinCap(w)
    ensures FullyHealed(AfterHeal(w, PlanHeal(s, p)), p) <==> Healable(w, p)
  {
    if w.mplOwner == Some(p.claimant) && p.oldOwner != p.claimant {
      PlanSucceeds(w, p, s);
    } else if w.mplOwner == Some(p.claimant) {
      SelfHealNeverFinishes(w, p, s);
    }
  }

  lemma SelfHealNeverFinishes(w: World, p: Params, s: Snapshot)
    requires p.oldOwner == p.claimant
    ensures !FullyHealed(AfterHeal(w, PlanHeal(s, p)), p)
  {
  }

  /** A number of runs, each planned from a snapshot of the state the run before left. */
  ghost predicate Reruns(ws: seq<World>, ss: seq<Snapshot>, p: Params) {
    && |ws| == |ss| + 1
    && forall i :: 0 <= i < |ss| ==> RerunAt(ws, ss, p, i)
  }

  ghost predicate RerunAt(ws: seq<World>, ss: seq<Snapshot>, p: Params, i: nat)
    requires i < |ss| && |ws| == |ss| + 1
  {
    SnapshotOf(ws[i], p, ss[i]) && ws[i + 1] == AfterHeal(ws[i], PlanHeal(ss[i], p))
  }

  /** What no number of runs can repair. */
  predicate Beyond(w: World, p: Params) {
    || w.mplOwner != Some(p.claimant)
    || p.oldOwner == p.claimant
    || (w.lastKnownOwner == p.claimant && p.oldOwner in w.controllers)
  }

  /**
   Re-runs converge exactly when the claimant owns the asset, is not the old owner, and the old owner is not
   a controller left over under a current owner. Each run takes one duplicate of the old entry away, so as
   many runs as there are copies, and at least one, are enough.
   */
  lemma {:induction false} RerunsConvergeExactly(ws: seq<World>, ss: seq<Snapshot>, p: Params)
    requires Reruns(ws, ss, p) && WithinCap(ws[0])
    requires |ss| >= 1 && |ss| >= OwnerCopies(ws[0], p.oldOwner)
    ensures FullyHealed(ws[|ss|], p) <==> !Beyond(ws[0], p)
    decreases |ss|
  {
    assert RerunAt(ws, ss, p, 0);
    var w, s, w' := ws[0], ss[0], ws[1];
    HealsExactly(w, p, s);
    if w.mplOwner == Some(p.claimant) && p.oldOwner != p.claimant {
      PlanSucceeds(w, p, s);
      if |ss| > 1 {
        RerunsShift(ws, ss, p);
        RerunsConvergeExactly(ws[1..], ss[1..], p);
      }
    } else {
      NeverHealed(ws, ss, p);
    }
  }

  lemma RerunsShift(ws: seq<World>, ss: seq<Snapshot>, p: Params)
    requires Reruns(ws, ss, p) && ss != []
    ensures Reruns(ws[1..], ss[1..], p) && ws[1..][|ss| - 1] == ws[|ss|]
  {
    forall i | 0 <= i < |ss[1..]| ensures RerunAt(ws[1..], ss[1..], p, i) {
      assert RerunAt(ws, ss, p, i + 1);
    }
  }

  /** A foreign owner aborts every plan, and a claimant that is the old owner is never healed. */
  lemma {:induction false} NeverHealed(ws: seq<World>, ss: seq<Snapshot>, p: Params)
    requires Reruns(ws, ss, p)
    requires ws[0].mplOwner != Some(p.claimant) || p.oldOwner == p.claimant
    ensures !FullyHealed(ws[|ss|], p)
    decreases |ss|
  {
    if ss != [] && p.oldOwner != p.claimant {
      assert RerunAt(ws, ss, p, 0);
      RerunsShift(ws, ss, p);
      NeverHealed(ws[1..], ss[1..], p);
    }
  }

  /** With a duplicated old entry one run is not enough, for every such ANT. */
  lemma DuplicateNeedsMoreRuns(w: World, p: Params, s: Snapshot)
    requires SnapshotOf(w, p, s) && WithinCap(w) && OwnerCopies(w, p.oldOwner) > 1
    ensures !FullyHealed(AfterHeal(w, PlanHeal(s, p)), p)
  {
    HealsExactly(w, p, s);
  }

  /** Such an ANT: the old owner's page holds the entry twice. It takes two runs. */
  lemma DuplicateExample(mint: Mint, old_: Addr, claimant: Addr, ws: seq<World>, ss: seq<Snapshot>)
    requires old_ != claimant
    requires Reruns(ws, ss, Params(old_, claimant)) && |ss| == 2
    requires var e := AclEntry(mint, OwnerRole);
             ws[0] == World(mint, Some(claimant), [], old_, map[old_ := [[e, e]]])
    ensures !FullyHealed(ws[1], Params(old_, claimant)) && FullyHealed(ws[2], Params(old_, claimant))
  {
    var e := AclEntry(mint, OwnerRole);
    var p := Params(old_, claimant);
    var one: Page, two: Page := [e], [e, e];
    assert two[1..] == one && one[1..] == [];
    assert Times(two, e) == 1 + Times(one, e) && Times(one, e) == 1;
    var pages := [two];
    assert pages[1..] == [] && Copies(pages, e) == Times(two, e) + Copies([], e);
    assert OwnerCopies(ws[0], old_) == 2;
    assert RerunAt(ws, ss, p, 0);
    DuplicateNeedsMoreRuns(ws[0], p, ss[0]);
    RerunsConvergeExactly(ws, ss, p);
  }

  /** After a successful heal the next plan is empty, and everything the plan should not touch is untouched. */
  lemma HealIsAFixedPoint(w: World, p: Params, s: Snapshot, s': Snapshot)
    requires SnapshotOf(w, p, s) && WithinCap(w) && Healable(w, p)
    requires SnapshotOf(AfterHeal(w, PlanHeal(s, p)), p, s')
    ensures PlanHeal(s', p) == Plan([], true, false) && VerifySnapshot(s', p)
    ensures var w' := AfterHeal(w, PlanHeal(s, p));
            && WithinCap(w')
            && forall user, x :: x != OwnerEntry(w) || (user != p.oldOwner && user != p.claimant) ==>
                 Held(w', user, x) == Held(w, user, x)
  {
    PlanSucceeds(w, p, s);
    HealsExactly(w, p, s);
    var w' := AfterHeal(w, PlanHeal(s, p));
    NothingToDoMeansHealed(w', p, s');
    VerifyIsExact(w', p, s');
  }

  /** No instruction moves the asset or overfills a page. */
  lemma {:induction false} TransactKeeps(w: World, ixs: seq<Ix>)
    ensures Transact(w, ixs).Some? ==>
              Transact(w, ixs).value.mplOwner == w.mplOwner && (WithinCap(w) ==> WithinCap(Transact(w, ixs).value))
    decreases |ixs|
  {
    if ixs != [] && Execute(w, ixs[0]).Some? {
      TransactKeeps(Execute(w, ixs[0]).value, ixs[1..]);
    }
  }

  /** The unhealable case the planner keeps planning for: its transaction changes nothing, every time. */
  lemma LingeringControllerIsStuck(w: World, p: Params, s: Snapshot)
    requires SnapshotOf(w, p, s) && w.mplOwner == Some(p.claimant)
    requires OwnerCopies(w, p.oldOwner) == 0 && OwnerCopies(w, p.claimant) > 0
    requires w.lastKnownOwner == p.claimant && p.oldOwner in w.controllers
    ensures PlanHeal(s, p).ixs == [Reconcile] && AfterHeal(w, PlanHeal(s, p)) == w
  {
    var old_, new_ :| Reads(w, p.oldOwner, old_) && Reads(w, p.claimant, new_) && s == MakeSnapshot(w, old_, new_);
    EntryPageIsCount(w, p.oldOwner, old_);
    EntryPageIsCount(w, p.claimant, new_);
    TransactOne(w, Reconcile);
  }
}
