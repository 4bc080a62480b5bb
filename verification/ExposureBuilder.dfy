/**
 `buildTotalExposure` as a run: validate the graph, check the holdings, expand each
 valued holding, reconcile.  The two run-time failures inside the expansion are
 shown to be unreachable.
 */
module ExposureBuilder {
  import opened Common
  import opened RiskContract
  import opened RiskValidator
  import opened Allocation
  import opened Exposure

  const MAX_HOLDINGS: nat := 200
  const MAX_VALUE_CENTS: int := 100_000_000_000_000

  datatype ExposureError =
    | InvalidGraph
    | TooManyHoldings
    | DuplicateHoldings
    | InvalidAmount
    | TotalOutOfBounds
    | DateInvalid
    | PathLimitExceeded
    | ReconciliationFailed

  datatype TotalExposure = TotalExposure(totalCents: int, unfundedCents: int, lots: seq<Lot>)

  function HoldingIdsOf(holdings: seq<Holding>): (r: seq<string>)
    ensures |r| == |holdings| && forall i :: 0 <= i < |r| ==> r[i] == holdings[i].id
  {
    seq(|holdings|, i requires 0 <= i < |holdings| => holdings[i].id)
  }

  predicate AmountOk(cents: int) { 0 <= cents <= MAX_VALUE_CENTS }

  predicate HoldingOk(h: Holding) { AmountOk(h.valueCents) && AmountOk(h.unfundedCents) }

  function TotalValue(holdings: seq<Holding>): int {
    SumBy(holdings, (h: Holding) => if h.valueKnown then h.valueCents else 0)
  }

  function TotalUnfunded(holdings: seq<Holding>): int {
    SumBy(holdings, (h: Holding) => if h.unfundedKnown then h.unfundedCents else 0)
  }

  /** Holdings the model accepts, before any graph is involved. */
  ghost predicate HoldingsOk(holdings: seq<Holding>) {
    && |holdings| <= MAX_HOLDINGS
    && Distinct(HoldingIdsOf(holdings))
    && (forall h :: h in holdings ==> HoldingOk(h))
    && TotalValue(holdings) <= MAX_VALUE_CENTS && TotalUnfunded(holdings) <= MAX_VALUE_CENTS
  }

  /** Lots of the valued holdings, one holding after another. */
  function PortfolioLots(data: RiskData, holdings: seq<Holding>, depth: nat): seq<Lot>
    requires forall h :: h in holdings ==> HoldingOk(h)
  {
    if |holdings| == 0 then []
    else
      var n := |holdings| - 1;
      assert holdings[n] in holdings && HoldingOk(holdings[n]);
      PortfolioLots(data, holdings[..n], depth)
      + (if holdings[n].valueKnown then HoldingLots(data, holdings[n], depth) else [])
  }

  function PortfolioVisits(data: RiskData, holdings: seq<Holding>, depth: nat): nat
    requires forall h :: h in holdings ==> HoldingOk(h)
  {
    if |holdings| == 0 then 0
    else
      var n := |holdings| - 1;
      assert holdings[n] in holdings && HoldingOk(holdings[n]);
      PortfolioVisits(data, holdings[..n], depth)
      + (if holdings[n].valueKnown then HoldingVisits(data, holdings[n], depth) else 0)
  }

  /** Lots that came from one holding. */
  function LotsOf(lots: seq<Lot>, holdingId: string): seq<Lot> {
    Filter(lots, (l: Lot) => l.holdingId == holdingId)
  }

  ghost predicate AllExpandable(data: RiskData, depth: nat) {
    WellFormed(data) && Shaped(data) && forall p :: IsWalk(data.links, p) ==> |p| <= depth
  }

  class Expander {
    const data: RiskData
    var lots: seq<Lot>
    var visits: nat

    constructor (data: RiskData)
      ensures this.data == data && lots == [] && visits == 0
    {
      this.data := data;
      lots, visits := [], 0;
    }

    method EmitLot(h: Holding, cents: int, node: Option<RiskNode>, path: seq<string>, cls: string,
                   mgr: Option<string>, unresolved: bool)
      modifies this`lots
      ensures lots == old(lots) + Emit(h, cents, node, path, cls, mgr, unresolved)
      ensures LotSum(lots) == LotSum(old(lots)) + cents
      ensures |lots| == |old(lots)| + (if cents == 0 then 0 else 1)
      ensures forall i :: |old(lots)| <= i < |lots| ==>
                && lots[i].holdingId == h.id && lots[i].familyId == h.familyId && lots[i].path == path
                && lots[i].unresolved == unresolved && lots[i].cents == cents != 0
                && (unresolved ==> lots[i].issuerId.None?) && lots[i].managerId == mgr && lots[i].assetClass == cls
                && (node.Some? ==> lots[i].nodeId == Some(node.value.id))
                && (node.Some? && node.value.kind == Fund ==> lots[i].issuerId.None?)
                && (node.Some? && node.value.kind == Asset && !unresolved ==> lots[i].issuerId == node.value.issuerId)
    {
      EmitSum(h, cents, node, path, cls, mgr, unresolved);
      LotSumConcat(lots, Emit(h, cents, node, path, cls, mgr, unresolved));
      lots := lots + Emit(h, cents, node, path, cls, mgr, unresolved);
    }

    /** `visit`; the result is false where the program throws the path-limit error. */
    method Visit(h: Holding, node: RiskNode, cents: nat, path: seq<string>, cls: string, mgr: Option<string>,
                 ghost depth: nat) returns (ok: bool)
      requires Expandable(data, node.id, depth)
      modifies this
      ensures ok <==> old(visits) + Visits(data, node, cents, depth) <= MAX_PATHS
      ensures ok ==> visits == old(visits) + Visits(data, node, cents, depth)
      ensures ok ==> lots == old(lots) + Expand(data, h, node, cents, path, cls, mgr, depth)
      decreases depth, 1, 0
    {
      hide Emit, Shares, Target, Expandable, FindNode, LotSum, ExpandKids, VisitsKids, Children;
      KidsExpandable(data, node.id, cents, depth);
      visits := visits + 1;
      if visits > MAX_PATHS { return false; }
      var here := path + [node.id];
      var cls' := if node.assetClass.Some? then node.assetClass.value else cls;
      var mgr' := Or(node.managerId, mgr);
      if node.kind == Asset {
        EmitLot(h, cents, Some(node), here, cls', mgr', false);
        return true;
      }
      var kids := Children(data.links, node.id);
      var allocations, residual := Allocate(cents, kids);
      ok := VisitKids(h, kids, allocations, here, cls', mgr', depth - 1);
      if ok {
        EmitLot(h, residual, Some(node), here, cls', mgr', true);
      }
    }

    method VisitKids(h: Holding, kids: seq<RiskLink>, allocations: seq<int>, path: seq<string>, cls: string,
                     mgr: Option<string>, ghost depth: nat) returns (ok: bool)
      requires |kids| == |allocations| && visits <= MAX_PATHS
      requires forall l :: l in kids ==> Expandable(data, l.childId, depth) && FindNode(data.nodes, l.childId).Some?
      modifies this
      ensures ok <==> old(visits) + VisitsKids(data, kids, allocations, depth) <= MAX_PATHS
      ensures ok ==> visits == old(visits) + VisitsKids(data, kids, allocations, depth)
      ensures ok ==> lots == old(lots) + ExpandKids(data, h, kids, allocations, path, cls, mgr, depth)
      decreases depth, 3, 0
    {
      hide Expandable, FindNode, VisitsChild, ExpandChild;
      var i := 0;
      while i < |kids|
        invariant 0 <= i <= |kids|
        invariant visits == old(visits) + VisitsKids(data, kids[..i], allocations[..i], depth) <= MAX_PATHS
        invariant lots == old(lots) + ExpandKids(data, h, kids[..i], allocations[..i], path, cls, mgr, depth)
      {
        assert kids[..i + 1][..i] == kids[..i] && allocations[..i + 1][..i] == allocations[..i];
        var fits := VisitChild(h, kids[i], allocations[i], path, cls, mgr, depth);
        if !fits {
          VisitsPrefix(data, kids, allocations, i + 1, depth);
          return false;
        }
        i := i + 1;
      }
      assert kids[..i] == kids && allocations[..i] == allocations;
      return true;
    }

    /** One link: a child that received no cents is not visited. */
    method VisitChild(h: Holding, link: RiskLink, allocation: int, path: seq<string>, cls: string,
                      mgr: Option<string>, ghost depth: nat) returns (ok: bool)
      requires visits <= MAX_PATHS
      requires Expandable(data, link.childId, depth) && FindNode(data.nodes, link.childId).Some?
      modifies this
      ensures ok <==> old(visits) + VisitsChild(data, link, allocation, depth) <= MAX_PATHS
      ensures ok ==> visits == old(visits) + VisitsChild(data, link, allocation, depth)
      ensures ok ==> lots == old(lots) + ExpandChild(data, h, link, allocation, path, cls, mgr, depth)
      decreases depth, 2, 0
    {
      hide Expandable, Visits, Expand;
      ok := true;
      if allocation > 0 {
        var child := FindNode(data.nodes, link.childId).value;
        ok := Visit(h, child, allocation, path, cls, mgr, depth);
      }
    }
  }

  lemma {:induction false} VisitsPrefix(data: RiskData, kids: seq<RiskLink>, shares: seq<int>, i: nat, depth: nat)
    requires |kids| == |shares| && i <= |kids|
    ensures VisitsKids(data, kids[..i], shares[..i], depth) <= VisitsKids(data, kids, shares, depth)
    decreases |kids|
  {
    if i < |kids| {
      var n := |kids| - 1;
      VisitsPrefix(data, kids[..n], shares[..n], i, depth);
      assert kids[..n][..i] == kids[..i] && shares[..n][..i] == shares[..i];
    } else {
      assert kids[..i] == kids && shares[..i] == shares;
    }
  }

  // --- The path limit counted over positions covers every holding -----------

  /** The weight a list of positions gives to one holding id. */
  function Mapped(positions: seq<Position>, f: string -> nat, holdingId: string): nat {
    match FindPosition(positions, holdingId)
    case None => 0
    case Some(nodeId) => f(nodeId)
  }

  function MappedTotal(positions: seq<Position>, f: string -> nat, ids: seq<string>): nat {
    if |ids| == 0 then 0
    else MappedTotal(positions, f, ids[..|ids| - 1]) + Mapped(positions, f, ids[|ids| - 1])
  }

  lemma {:induction false} DropPosition(positions: seq<Position>, f: string -> nat, ids: seq<string>)
    requires |positions| > 0 && Distinct(HoldingIds(positions)) && Distinct(ids)
    ensures var n := |positions| - 1;
            MappedTotal(positions, f, ids) <=
            MappedTotal(positions[..n], f, ids) + (if positions[n].holdingId in ids then f(positions[n].nodeId) else 0)
    decreases |ids|
  {
    var n := |positions| - 1;
    if |ids| > 0 {
      var front, last := ids[..|ids| - 1], ids[|ids| - 1];
      DropPosition(positions, f, front);
      assert ids == front + [last];
      DistinctSnoc(front, last);
    }
  }

  /** Distinct holdings use distinct positions, so the holdings' total is within the positions' total. */
  lemma {:induction false} HoldingsWithinPositions(positions: seq<Position>, f: string -> nat, ids: seq<string>)
    requires Distinct(HoldingIds(positions)) && Distinct(ids)
    ensures MappedTotal(positions, f, ids) <= SumBy(positions, (p: Position) => f(p.nodeId))
  {
    if |positions| == 0 {
      MappedNothing(f, ids);
    } else {
      var n := |positions| - 1;
      var front := positions[..n];
      assert forall i :: 0 <= i < n ==> HoldingIds(front)[i] == HoldingIds(positions)[i];
      HoldingsWithinPositions(front, f, ids);
      DropPosition(positions, f, ids);
      SumByEq(front, (p: Position) => f(p.nodeId), (p: Position) => f(p.nodeId));
    }
  }

  lemma {:induction false} MappedNothing(f: string -> nat, ids: seq<string>)
    ensures MappedTotal([], f, ids) == 0
  {
    if |ids| > 0 { MappedNothing(f, ids[..|ids| - 1]); }
  }

  lemma {:induction false} VisitsWithinMapped(data: RiskData, holdings: seq<Holding>, depth: nat, f: string -> nat)
    requires Shaped(data) && forall h :: h in holdings ==> HoldingOk(h)
    requires forall id :: f(id) == Paths(data.links, id, depth)
    ensures PortfolioVisits(data, holdings, depth) <= MappedTotal(data.positions, f, HoldingIdsOf(holdings))
  {
    hide Paths, Visits;
    if |holdings| > 0 {
      var n := |holdings| - 1;
      VisitsWithinMapped(data, holdings[..n], depth, f);
      assert HoldingIdsOf(holdings)[..n] == HoldingIdsOf(holdings[..n]);
      assert holdings[n] in holdings && HoldingOk(holdings[n]);
      match FindRoot(data, holdings[n].id)
      case Some(root) => VisitsBounded(data, root, holdings[n].valueCents, depth);
      case None =>
    }
  }

  /** The validator's path count bounds the calls `visit` makes over all holdings. */
  lemma StaticCountBoundsVisits(data: RiskData, holdings: seq<Holding>, depth: nat)
    requires Shaped(data) && Distinct(HoldingIds(data.positions))
    requires Distinct(HoldingIdsOf(holdings)) && forall h :: h in holdings ==> HoldingOk(h)
    ensures PortfolioVisits(data, holdings, depth) <=
            SumBy(data.positions, (p: Position) => Paths(data.links, p.nodeId, depth))
  {
    var f := (id: string) => Paths(data.links, id, depth);
    VisitsWithinMapped(data, holdings, depth, f);
    HoldingsWithinPositions(data.positions, f, HoldingIdsOf(holdings));
    SumByEq(data.positions, (p: Position) => f(p.nodeId), (p: Position) => Paths(data.links, p.nodeId, depth));
  }

  // --- Every holding's lots carry exactly its NAV ----------------------------

  lemma HoldingConserves(data: RiskData, h: Holding, depth: nat)
    requires AllExpandable(data, depth) && h.valueCents >= 0
    ensures LotSum(HoldingLots(data, h, depth)) == h.valueCents
    ensures DistinctIds(HoldingLots(data, h, depth))
    ensures forall l :: l in HoldingLots(data, h, depth) ==> Labelled(h, [], l)
  {
    hide Expand, Emit;
    match FindRoot(data, h.id)
    case Some(root) =>
      ExpandConserves(data, h, root, h.valueCents, [], h.assetClass, h.manager, depth);
      ExpandDistinct(data, h, root, h.valueCents, [], h.assetClass, h.manager, depth);
      ExpandLabelled(data, h, root, h.valueCents, [], h.assetClass, h.manager, depth);
    case None =>
      EmitSum(h, h.valueCents, None, [], h.assetClass, h.manager, true);
      UnmappedLabelled(h);
  }

  lemma UnmappedLabelled(h: Holding)
    requires h.valueCents >= 0
    ensures var lots := Emit(h, h.valueCents, None, [], h.assetClass, h.manager, true);
            DistinctIds(lots) && forall l :: l in lots ==> Labelled(h, [], l)
  {
  }

  /** A lot of the portfolio belongs to one of the holdings. */
  ghost predicate OwnedBy(holdings: seq<Holding>, l: Lot) {
    exists h :: h in holdings && h.valueKnown && Labelled(h, [], l)
  }

  lemma {:induction false} PortfolioFacts(data: RiskData, holdings: seq<Holding>, depth: nat)
    requires AllExpandable(data, depth)
    requires Distinct(HoldingIdsOf(holdings)) && forall h :: h in holdings ==> HoldingOk(h)
    ensures DistinctIds(PortfolioLots(data, holdings, depth))
    ensures forall l :: l in PortfolioLots(data, holdings, depth) ==> OwnedBy(holdings, l)
    ensures LotSum(PortfolioLots(data, holdings, depth)) == TotalValue(holdings)
  {
    if |holdings| == 0 {
    } else {
      FrontHoldings(holdings);
      var front, last := holdings[..|holdings| - 1], holdings[|holdings| - 1];
      PortfolioFacts(data, front, depth);
      JoinLots(data, holdings, depth);
    }
  }

  lemma JoinLots(data: RiskData, holdings: seq<Holding>, depth: nat)
    requires AllExpandable(data, depth) && |holdings| > 0 && forall h :: h in holdings ==> HoldingOk(h)
    requires var front := holdings[..|holdings| - 1];
             && (forall h :: h in front ==> h.id != holdings[|holdings| - 1].id)
             && DistinctIds(PortfolioLots(data, front, depth))
             && (forall l :: l in PortfolioLots(data, front, depth) ==> OwnedBy(front, l))
             && LotSum(PortfolioLots(data, front, depth)) == TotalValue(front)
    ensures DistinctIds(PortfolioLots(data, holdings, depth))
    ensures forall l :: l in PortfolioLots(data, holdings, depth) ==> OwnedBy(holdings, l)
    ensures LotSum(PortfolioLots(data, holdings, depth)) == TotalValue(holdings)
  {
    hide HoldingLots, AllExpandable;
    var front, last := holdings[..|holdings| - 1], holdings[|holdings| - 1];
    assert last in holdings && HoldingOk(last);
    HoldingConserves(data, last, depth);
    var a := PortfolioLots(data, front, depth);
    var b := LotsOfLast(data, last, depth);
    forall x, y | x in a && y in b ensures x.id != y.id {
      assert OwnedBy(front, x);
    }
    DistinctIdsConcat(a, b);
    LotSumConcat(a, b);
    forall l | l in a + b ensures OwnedBy(holdings, l) {
      if l in a {
        assert OwnedBy(front, l);
        StillOwned(holdings, l);
      } else {
        assert last.valueKnown && Labelled(last, [], l);
      }
    }
  }

  lemma StillOwned(holdings: seq<Holding>, l: Lot)
    requires |holdings| > 0 && OwnedBy(holdings[..|holdings| - 1], l)
    ensures OwnedBy(holdings, l)
  {
    var h :| h in holdings[..|holdings| - 1] && h.valueKnown && Labelled(h, [], l);
    assert h in holdings;
  }

  /** The lots of one valued holding within the whole portfolio sum to its NAV. */
  lemma {:induction false} PerHoldingConserves(data: RiskData, holdings: seq<Holding>, depth: nat, h: Holding)
    requires AllExpandable(data, depth)
    requires Distinct(HoldingIdsOf(holdings)) && forall h :: h in holdings ==> HoldingOk(h)
    requires h in holdings && h.valueKnown
    ensures LotSum(LotsOf(PortfolioLots(data, holdings, depth), h.id)) == h.valueCents
  {
    var n := |holdings| - 1;
    var front, last := holdings[..n], holdings[n];
    FrontHoldings(holdings);
    SplitLots(data, holdings, depth, h.id);
    hide *;
    if h == last {
      OthersLots(data, front, depth, h.id);
      OwnLots(data, last, depth);
    } else {
      assert h in front by { InFront(holdings, h); }
      PerHoldingConserves(data, front, depth, h);
      StrangerLots(data, last, depth, h.id);
    }
  }

  lemma InFront(holdings: seq<Holding>, h: Holding)
    requires h in holdings && h != holdings[|holdings| - 1]
    ensures h in holdings[..|holdings| - 1]
  {
  }

  lemma FrontHoldings(holdings: seq<Holding>)
    requires |holdings| > 0 && Distinct(HoldingIdsOf(holdings)) && forall h :: h in holdings ==> HoldingOk(h)
    ensures var front, last := holdings[..|holdings| - 1], holdings[|holdings| - 1];
            && Distinct(HoldingIdsOf(front)) && (forall h :: h in front ==> HoldingOk(h) && h.id != last.id)
            && HoldingOk(last)
  {
    var n := |holdings| - 1;
    var front := holdings[..n];
    assert forall i :: 0 <= i < n ==> HoldingIdsOf(front)[i] == HoldingIdsOf(holdings)[i];
    forall h | h in front ensures h.id != holdings[n].id {
      var i :| 0 <= i < n && front[i] == h;
      assert HoldingIdsOf(holdings)[i] != HoldingIdsOf(holdings)[n];
    }
  }

  function LotsOfLast(data: RiskData, last: Holding, depth: nat): seq<Lot>
    requires AllExpandable(data, depth) && HoldingOk(last)
  {
    if last.valueKnown then HoldingLots(data, last, depth) else []
  }

  /** The last holding adds its own lots and visits. */
  lemma LotsSnoc(data: RiskData, holdings: seq<Holding>, depth: nat)
    requires AllExpandable(data, depth) && |holdings| > 0 && forall h :: h in holdings ==> HoldingOk(h)
    ensures var front, last := holdings[..|holdings| - 1], holdings[|holdings| - 1];
            && HoldingOk(last)
            && PortfolioLots(data, holdings, depth) == PortfolioLots(data, front, depth) + LotsOfLast(data, last, depth)
            && PortfolioVisits(data, holdings, depth) ==
               PortfolioVisits(data, front, depth) + (if last.valueKnown then HoldingVisits(data, last, depth) else 0)
  {
    hide HoldingLots, HoldingVisits, AllExpandable;
    assert holdings[|holdings| - 1] in holdings;
  }

  lemma SplitLots(data: RiskData, holdings: seq<Holding>, depth: nat, id: string)
    requires AllExpandable(data, depth) && |holdings| > 0 && forall h :: h in holdings ==> HoldingOk(h)
    ensures LotSum(LotsOf(PortfolioLots(data, holdings, depth), id)) ==
            LotSum(LotsOf(PortfolioLots(data, holdings[..|holdings| - 1], depth), id))
            + LotSum(LotsOf(LotsOfLast(data, holdings[|holdings| - 1], depth), id))
  {
    hide HoldingLots, AllExpandable, LotSum, SumBy, Filter;
    var a, b := PortfolioLots(data, holdings[..|holdings| - 1], depth),
        LotsOfLast(data, holdings[|holdings| - 1], depth);
    FilterConcat(a, b, (l: Lot) => l.holdingId == id);
    LotSumConcat(LotsOf(a, id), LotsOf(b, id));
  }

  lemma OthersLots(data: RiskData, holdings: seq<Holding>, depth: nat, id: string)
    requires AllExpandable(data, depth) && Distinct(HoldingIdsOf(holdings))
    requires forall h :: h in holdings ==> HoldingOk(h) && h.id != id
    ensures LotSum(LotsOf(PortfolioLots(data, holdings, depth), id)) == 0
  {
    PortfolioFacts(data, holdings, depth);
    hide PortfolioLots, AllExpandable;
    var lots := PortfolioLots(data, holdings, depth);
    forall l | l in lots ensures l.holdingId != id {
      assert OwnedBy(holdings, l);
      var h :| h in holdings && h.valueKnown && Labelled(h, [], l);
    }
    FilterNone(lots, (l: Lot) => l.holdingId == id);
  }

  lemma OwnLots(data: RiskData, h: Holding, depth: nat)
    requires AllExpandable(data, depth) && HoldingOk(h) && h.valueKnown
    ensures LotSum(LotsOf(LotsOfLast(data, h, depth), h.id)) == h.valueCents
  {
    hide HoldingLots, AllExpandable;
    HoldingConserves(data, h, depth);
    FilterAll(HoldingLots(data, h, depth), (l: Lot) => l.holdingId == h.id);
  }

  lemma StrangerLots(data: RiskData, h: Holding, depth: nat, id: string)
    requires AllExpandable(data, depth) && HoldingOk(h) && h.id != id
    ensures LotSum(LotsOf(LotsOfLast(data, h, depth), id)) == 0
  {
    hide HoldingLots, AllExpandable;
    HoldingConserves(data, h, depth);
    FilterNone(LotsOfLast(data, h, depth), (l: Lot) => l.holdingId == id);
  }

  // --- The whole operation ---------------------------------------------------

  method ExpandHoldings(data: RiskData, holdings: seq<Holding>, ghost depth: nat)
    returns (ok: bool, lots: seq<Lot>)
    requires AllExpandable(data, depth) && forall h :: h in holdings ==> HoldingOk(h)
    ensures ok <==> PortfolioVisits(data, holdings, depth) <= MAX_PATHS
    ensures ok ==> lots == PortfolioLots(data, holdings, depth)
  {
    var expander := new Expander(data);
    lots := [];
    var i := 0;
    assert holdings[..0] == [] && PortfolioVisits(data, [], depth) == 0 && PortfolioLots(data, [], depth) == [];
    hide Visits, Expand, Emit, PortfolioVisits, PortfolioLots, HoldingVisits, HoldingLots, AllExpandable;
    while i < |holdings|
      invariant 0 <= i <= |holdings| && expander.data == data
      invariant expander.visits == PortfolioVisits(data, holdings[..i], depth) <= MAX_PATHS
      invariant expander.lots == PortfolioLots(data, holdings[..i], depth)
    {
      var h := holdings[i];
      assert holdings[..i + 1][..i] == holdings[..i];
      assert h in holdings && HoldingOk(h);
      LotsSnoc(data, holdings[..i + 1], depth);
      if h.valueKnown {
        var fits := ExpandHolding(expander, h, depth);
        if !fits {
          PortfolioVisitsPrefix(data, holdings, i + 1, depth);
          return false, [];
        }
      }
      i := i + 1;
    }
    assert holdings[..i] == holdings;
    return true, expander.lots;
  }

  method ExpandHolding(expander: Expander, h: Holding, ghost depth: nat) returns (ok: bool)
    requires AllExpandable(expander.data, depth) && h.valueCents >= 0 && expander.visits <= MAX_PATHS
    modifies expander
    ensures ok <==> old(expander.visits) + HoldingVisits(expander.data, h, depth) <= MAX_PATHS
    ensures ok ==> expander.visits == old(expander.visits) + HoldingVisits(expander.data, h, depth)
    ensures ok ==> expander.lots == old(expander.lots) + HoldingLots(expander.data, h, depth)
  {
    hide Visits, Expand, Emit;
    match FindRoot(expander.data, h.id)
    case Some(root) =>
      ok := expander.Visit(h, root, h.valueCents, [], h.assetClass, h.manager, depth);
    case None =>
      expander.EmitLot(h, h.valueCents, None, [], h.assetClass, h.manager, true);
      ok := true;
  }

  lemma {:induction false} PortfolioVisitsPrefix(data: RiskData, holdings: seq<Holding>, i: nat, depth: nat)
    requires i <= |holdings| && forall h :: h in holdings ==> HoldingOk(h)
    ensures PortfolioVisits(data, holdings[..i], depth) <= PortfolioVisits(data, holdings, depth)
    decreases |holdings|
  {
    hide HoldingVisits;
    if i < |holdings| {
      var n := |holdings| - 1;
      PortfolioVisitsPrefix(data, holdings[..n], i, depth);
      assert holdings[..n][..i] == holdings[..i];
    } else {
      assert holdings[..i] == holdings;
    }
  }

  /** The size limits of a risk file. */
  predicate Sized(data: RiskData) {
    |data.nodes| <= MAX_NODES && |data.links| <= MAX_LINKS && |data.positions| <= MAX_POSITIONS
  }

  /**
   `buildTotalExposure`; `dated` says whether the as-of date is a calendar date.  It succeeds
   on exactly the accepted graphs within the size limits, valid holding lists and dates:
   neither the run-time path limit nor the final reconciliation ever fails.
   */
  method BuildTotalExposure(holdings: seq<Holding>, data: RiskData, dated: bool, ghost depth: nat)
    returns (r: Result<TotalExposure, ExposureError>)
    requires Shaped(data) && depth == MAX_DEPTH
    ensures r.Ok? <==> Sized(data) && Accepted(data) && HoldingsOk(holdings) && dated
    ensures r.Err? ==> r.error != PathLimitExceeded && r.error != ReconciliationFailed
    ensures r.Ok? ==> r.value == TotalExposure(TotalValue(holdings), TotalUnfunded(holdings),
                                               PortfolioLots(data, holdings, depth))
    ensures r.Ok? ==> LotSum(r.value.lots) == r.value.totalCents && DistinctIds(r.value.lots)
  {
    if !Sized(data) { return Err(InvalidGraph); }
    var validator := new Validator(data);
    validator.Validate();
    if validator.issues != [] { return Err(InvalidGraph); }
    var bad := CheckHoldings(holdings);
    if bad.Some? { return Err(bad.value); }
    if !dated { return Err(DateInvalid); }
    AcceptedFits(data, holdings, depth);
    var ok, lots := ExpandHoldings(data, holdings, depth);
    if !ok { return Err(PathLimitExceeded); }
    PortfolioFacts(data, holdings, depth);
    var total := TotalValue(holdings);
    if LotSum(lots) != total { return Err(ReconciliationFailed); }
    return Ok(TotalExposure(total, TotalUnfunded(holdings), lots));
  }

  method CheckHoldings(holdings: seq<Holding>) returns (bad: Option<ExposureError>)
    ensures bad.None? <==> HoldingsOk(holdings)
    ensures bad.Some? ==> bad.value in {TooManyHoldings, DuplicateHoldings, InvalidAmount, TotalOutOfBounds}
  {
    if |holdings| > MAX_HOLDINGS { return Some(TooManyHoldings); }
    var ids := HoldingIdsOf(holdings);
    DistinctByCount(ids);
    if |ToSet(ids)| != |holdings| { return Some(DuplicateHoldings); }
    var i := 0;
    while i < |holdings|
      invariant 0 <= i <= |holdings|
      invariant forall j :: 0 <= j < i ==> HoldingOk(holdings[j])
    {
      if !HoldingOk(holdings[i]) { return Some(InvalidAmount); }
      i := i + 1;
    }
    if TotalValue(holdings) > MAX_VALUE_CENTS || TotalUnfunded(holdings) > MAX_VALUE_CENTS {
      return Some(TotalOutOfBounds);
    }
    return None;
  }

  lemma AcceptedFits(data: RiskData, holdings: seq<Holding>, depth: nat)
    requires Shaped(data) && Accepted(data) && HoldingsOk(holdings) && depth == MAX_DEPTH
    ensures AllExpandable(data, depth)
    ensures PortfolioVisits(data, holdings, depth) <= MAX_PATHS
  {
    hide Paths;
    StaticCountBoundsVisits(data, holdings, depth);
    SumByEq(data.positions, (p: Position) => Paths(data.links, p.nodeId, depth),
            (p: Position) => PathCount(data.links, p.nodeId));
  }
}
