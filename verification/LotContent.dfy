/**
 What a lot says about the money in it (lib/risk-engine.ts, `emit` and `visit`), from its path and
 the graph alone: where the path leads, what each classification is taken from, and how many
 cents go down each branch.
 */
module LotContent {
  import opened Common
  import opened RiskContract
  import opened Allocation
  import opened Exposure
  import opened ExposureBuilder

  // --- Classification -----------------------------------------------------------------------------

  /** A disclosed, positive weight. */
  ghost predicate Owns(links: seq<RiskLink>, a: string, b: string) {
    exists l :: l in links && l.parentId == a && l.childId == b && l.weight.Some? && l.weight.value > 0.0
  }

  /** Each node on the path owns the next one. */
  ghost predicate Descends(links: seq<RiskLink>, path: seq<string>) {
    forall i :: 0 <= i < |path| - 1 ==> Owns(links, path[i], path[i + 1])
  }

  function ManagerAt(data: RiskData, id: string): Option<string> {
    var n := FindNode(data.nodes, id);
    if n.Some? then n.value.managerId else None
  }

  function ClassAt(data: RiskData, id: string): Option<string> {
    var n := FindNode(data.nodes, id);
    if n.Some? then n.value.assetClass else None
  }

  /** The nearest statement on the path, read from its end; without one, what the holding says. */
  ghost predicate Nearest(stated: string -> Option<string>, path: seq<string>, reported: Option<string>,
                          x: Option<string>) {
    || (x == reported && forall i :: 0 <= i < |path| ==> stated(path[i]).None?)
    || (exists j :: 0 <= j < |path| && x == stated(path[j]) && x.Some?
                    && forall i :: j < i < |path| ==> stated(path[i]).None?)
  }

  function Managers(data: RiskData): string -> Option<string> { (id: string) => ManagerAt(data, id) }

  function Classes(data: RiskData): string -> Option<string> { (id: string) => ClassAt(data, id) }

  /** A resolved lot is an asset and has its issuer; an unresolved one is part of a fund and has none. */
  ghost predicate EndsAt(data: RiskData, l: Lot, n: RiskNode) {
    && n in data.nodes && |l.path| > 0 && n.id == l.path[|l.path| - 1] && l.nodeId == Some(n.id)
    && (l.unresolved <==> n.kind == Fund)
    && l.issuerId == (if l.unresolved then None else n.issuerId)
    && l.sector == n.sector && l.country == n.country && l.currency == n.currency
  }

  ghost predicate Mapped(data: RiskData, h: Holding, l: Lot) {
    && (exists p :: p in data.positions && p.holdingId == h.id && |l.path| > 0 && p.nodeId == l.path[0])
    && Descends(data.links, l.path)
    && (exists n :: EndsAt(data, l, n))
    && Nearest(Managers(data), l.path, h.manager, l.managerId)
    && Nearest(Classes(data), l.path, Some(h.assetClass), Some(l.assetClass))
  }

  /** All of an unmapped holding is one unresolved lot, of the holding's own class and manager. */
  ghost predicate Unmapped(data: RiskData, h: Holding, l: Lot) {
    && (forall p :: p in data.positions ==> p.holdingId != h.id)
    && l.path == [] && l.unresolved && l.nodeId.None? && l.cents == h.valueCents
    && l.issuerId.None? && l.sector.None? && l.country.None?
    && l.managerId == h.manager && l.assetClass == h.assetClass
    && l.currency == (if h.assetClass == "Cash" then Some(h.currency) else None)
  }

  /** What holds of a lot found below `path`, where `mgr` and `cls` were handed down. */
  ghost predicate Below(data: RiskData, path: seq<string>, from: string, cls: string, mgr: Option<string>, l: Lot) {
    && path + [from] <= l.path
    && Descends(data.links, l.path[|path|..]) && (exists n :: EndsAt(data, l, n))
    && Nearest(Managers(data), l.path[|path|..], mgr, l.managerId)
    && Nearest(Classes(data), l.path[|path|..], Some(cls), Some(l.assetClass))
  }

  lemma NearestCons(stated: string -> Option<string>, id: string, rest: seq<string>, reported: Option<string>,
                    x: Option<string>)
    requires Nearest(stated, rest, Or(stated(id), reported), x)
    ensures Nearest(stated, [id] + rest, reported, x)
  {
    var path := [id] + rest;
    assert forall i :: 0 <= i < |rest| ==> path[i + 1] == rest[i];
    if j :| 0 <= j < |rest| && x == stated(rest[j]) && x.Some? && forall i :: j < i < |rest| ==> stated(rest[i]).None? {
      assert x == stated(path[j + 1]);
      forall i | j + 1 < i < |path| ensures stated(path[i]).None? { assert path[i] == rest[i - 1]; }
    } else {
      forall i | 0 < i < |path| ensures stated(path[i]).None? { assert path[i] == rest[i - 1]; }
      if stated(id).Some? { assert x == stated(path[0]); }
    }
  }

  lemma NearestOne(stated: string -> Option<string>, id: string, reported: Option<string>)
    ensures Nearest(stated, [id], reported, Or(stated(id), reported))
  {
    if stated(id).Some? { assert [id][0] == id; }
  }

  lemma DescendsCons(links: seq<RiskLink>, id: string, rest: seq<string>)
    requires |rest| > 0 && Owns(links, id, rest[0]) && Descends(links, rest)
    ensures Descends(links, [id] + rest)
  {
    hide Owns;
    var path := [id] + rest;
    forall i | 0 <= i < |path| - 1 ensures Owns(links, path[i], path[i + 1]) {
      if i > 0 { assert Owns(links, rest[i - 1], rest[i]); }
    }
  }

  /** One level further up. */
  lemma BelowParent(data: RiskData, node: RiskNode, path: seq<string>, child: string, cls: string, mgr: Option<string>,
                    l: Lot)
    requires FindNode(data.nodes, node.id) == Some(node) && Owns(data.links, node.id, child)
    requires Below(data, path + [node.id], child, ClassOf(node, cls), Or(node.managerId, mgr), l)
    ensures Below(data, path, node.id, cls, mgr, l)
  {
    hide Nearest, EndsAt, Owns, Descends;
    var here := path + [node.id];
    var rest := l.path[|here|..];
    assert here + [child] <= l.path;
    assert rest[0] == l.path[|here|] == (here + [child])[|here|] == child;
    assert l.path[|path|] == here[|path|] == node.id;
    assert l.path[|path|..] == [node.id] + rest;
    DescendsCons(data.links, node.id, rest);
    NearestCons(Managers(data), node.id, rest, mgr, l.managerId);
    NearestCons(Classes(data), node.id, rest, Some(cls), Some(l.assetClass));
  }

  function ClassOf(node: RiskNode, cls: string): string {
    if node.assetClass.Some? then node.assetClass.value else cls
  }

  lemma EmitBelow(data: RiskData, h: Holding, node: RiskNode, cents: int, path: seq<string>, cls: string,
                  mgr: Option<string>, l: Lot)
    requires FindNode(data.nodes, node.id) == Some(node)
    requires l in Emit(h, cents, Some(node), path + [node.id], ClassOf(node, cls), Or(node.managerId, mgr),
                       node.kind == Fund)
    ensures Below(data, path, node.id, cls, mgr, l)
  {
    assert l.path == path + [node.id];
    assert l.path[|path|..] == [node.id];
    NearestOne(Managers(data), node.id, mgr);
    NearestOne(Classes(data), node.id, Some(cls));
    assert EndsAt(data, l, node);
    hide Nearest, EndsAt;
  }

  lemma {:induction false} ExpandBelow(data: RiskData, h: Holding, node: RiskNode, cents: nat, path: seq<string>,
                                       cls: string, mgr: Option<string>, depth: nat)
    requires Shaped(data) && FindNode(data.nodes, node.id) == Some(node)
    ensures forall l :: l in Expand(data, h, node, cents, path, cls, mgr, depth) ==>
              Below(data, path, node.id, cls, mgr, l)
    decreases depth, 0, 0
  {
    hide *;
    if depth > 0 {
      ExpandUnfold(data, h, node, cents, path, cls, mgr, depth);
      var kids := Children(data.links, node.id);
      if node.kind == Fund {
        PositiveShares(data, node.id, cents);
        KidsBelow(data, h, node, kids, Shares(cents, kids), path, cls, mgr, depth - 1);
      }
      forall l | l in OwnLot(h, node, cents, kids, path, cls, mgr) ensures Below(data, path, node.id, cls, mgr, l) {
        OwnLotBelow(data, h, node, cents, kids, path, cls, mgr, l);
      }
    } else {
      NoExpansion(data, h, node, cents, path, cls, mgr);
    }
  }

  lemma NoExpansion(data: RiskData, h: Holding, node: RiskNode, cents: nat, path: seq<string>, cls: string,
                    mgr: Option<string>)
    ensures Expand(data, h, node, cents, path, cls, mgr, 0) == []
  {
  }

  /** What `visit` leaves at the node itself: all of an asset, or what a fund does not pass on. */
  function OwnLot(h: Holding, node: RiskNode, cents: nat, kids: seq<RiskLink>, path: seq<string>, cls: string,
                  mgr: Option<string>): seq<Lot> {
    Emit(h, if node.kind == Asset then cents else cents - Target(cents, kids), Some(node), path + [node.id],
         ClassOf(node, cls), Or(node.managerId, mgr), node.kind == Fund)
  }

  lemma OwnLotBelow(data: RiskData, h: Holding, node: RiskNode, cents: nat, kids: seq<RiskLink>, path: seq<string>,
                    cls: string, mgr: Option<string>, l: Lot)
    requires FindNode(data.nodes, node.id) == Some(node) && l in OwnLot(h, node, cents, kids, path, cls, mgr)
    ensures Below(data, path, node.id, cls, mgr, l)
  {
    hide Emit, Below, Target;
    EmitBelow(data, h, node, if node.kind == Asset then cents else cents - Target(cents, kids), path, cls, mgr, l);
  }

  lemma ExpandUnfold(data: RiskData, h: Holding, node: RiskNode, cents: nat, path: seq<string>, cls: string,
                     mgr: Option<string>, depth: nat)
    requires depth > 0
    ensures var kids := Children(data.links, node.id);
            Expand(data, h, node, cents, path, cls, mgr, depth) ==
            (if node.kind == Asset then []
             else ExpandKids(data, h, kids, Shares(cents, kids), path + [node.id], ClassOf(node, cls),
                             Or(node.managerId, mgr), depth - 1))
            + OwnLot(h, node, cents, kids, path, cls, mgr)
  {
    hide Emit, Target, Shares, Children, ExpandKids, Or;
  }

  lemma PositiveShares(data: RiskData, id: string, cents: nat)
    requires Shaped(data)
    ensures var kids := Children(data.links, id);
            forall i :: 0 <= i < |kids| && Shares(cents, kids)[i] > 0 ==> Owns(data.links, id, kids[i].childId)
  {
    hide Shares;
    var kids := Children(data.links, id);
    forall i | 0 <= i < |kids| && Shares(cents, kids)[i] > 0 ensures Owns(data.links, id, kids[i].childId) {
      assert kids[i] in kids;
      ReceivingNeedsWeight(cents, kids, i);
    }
  }

  lemma {:induction false} KidsBelow(data: RiskData, h: Holding, node: RiskNode, kids: seq<RiskLink>, shares: seq<int>,
                                     path: seq<string>, cls: string, mgr: Option<string>, depth: nat)
    requires Shaped(data) && FindNode(data.nodes, node.id) == Some(node) && |kids| == |shares|
    requires forall i :: 0 <= i < |kids| && shares[i] > 0 ==> Owns(data.links, node.id, kids[i].childId)
    ensures forall l :: l in ExpandKids(data, h, kids, shares, path + [node.id], ClassOf(node, cls),
                                        Or(node.managerId, mgr), depth) ==>
                      Below(data, path, node.id, cls, mgr, l)
    decreases depth, 1, |kids|
  {
    hide *;
    var here, cls', mgr' := path + [node.id], ClassOf(node, cls), Or(node.managerId, mgr);
    KidsUnfold(data, h, kids, shares, here, cls', mgr', depth);
    if |kids| > 0 {
      var n := |kids| - 1;
      KidsBelow(data, h, node, kids[..n], shares[..n], path, cls, mgr, depth);
      ChildBelow(data, h, node, kids[n], shares[n], path, cls, mgr, depth);
    }
  }

  lemma {:induction false} ChildBelow(data: RiskData, h: Holding, node: RiskNode, link: RiskLink, share: int,
                                      path: seq<string>, cls: string, mgr: Option<string>, depth: nat)
    requires Shaped(data) && FindNode(data.nodes, node.id) == Some(node)
    requires share > 0 ==> Owns(data.links, node.id, link.childId)
    ensures forall l :: l in ExpandChild(data, h, link, share, path + [node.id], ClassOf(node, cls),
                                         Or(node.managerId, mgr), depth) ==>
                      Below(data, path, node.id, cls, mgr, l)
    decreases depth, 1, 0
  {
    var child := FindNode(data.nodes, link.childId);
    if share > 0 && child.Some? {
      hide Below, Expand, Owns, ClassOf, Or, FindNode;
      var here, cls', mgr' := path + [node.id], ClassOf(node, cls), Or(node.managerId, mgr);
      ExpandBelow(data, h, child.value, share, here, cls', mgr', depth);
      forall l | l in Expand(data, h, child.value, share, here, cls', mgr', depth)
        ensures Below(data, path, node.id, cls, mgr, l)
      {
        BelowParent(data, node, path, child.value.id, cls, mgr, l);
      }
    }
  }

  lemma NodeFound(data: RiskData, n: RiskNode)
    requires Distinct(NodeIds(data.nodes)) && n in data.nodes
    ensures FindNode(data.nodes, n.id) == Some(n)
  {
    var found := FindNode(data.nodes, n.id).value;
    var i: nat :| i < |data.nodes| && data.nodes[i] == n;
    var j: nat :| j < |data.nodes| && data.nodes[j] == found;
    assert NodeIds(data.nodes)[i] == NodeIds(data.nodes)[j];
  }

  lemma RootedBelow(data: RiskData, h: Holding, root: RiskNode, l: Lot)
    requires FindRoot(data, h.id) == Some(root)
    requires Below(data, [], root.id, h.assetClass, h.manager, l)
    ensures Mapped(data, h, l)
  {
    hide FindNode, Nearest, EndsAt, Descends;
    assert l.path[0..] == l.path && [] + [root.id] <= l.path;
    assert l.path[0] == ([] + [root.id])[0] == root.id;
  }

  /** Every lot of a holding, mapped or not, is classified by its own path. */
  lemma HoldingLotsSay(data: RiskData, h: Holding, depth: nat)
    requires Shaped(data) && WellFormed(data) && h.valueCents >= 0
    ensures forall l :: l in HoldingLots(data, h, depth) ==> Mapped(data, h, l) || Unmapped(data, h, l)
    ensures (forall p :: p in data.positions ==> p.holdingId != h.id) ==>
              |HoldingLots(data, h, depth)| == (if h.valueCents == 0 then 0 else 1)
  {
    hide Expand, Below, Mapped, FindNode;
    match FindRoot(data, h.id)
    case Some(root) =>
      RootFound(data, h.id);
      ExpandBelow(data, h, root, h.valueCents, [], h.assetClass, h.manager, depth);
      forall l | l in HoldingLots(data, h, depth) ensures Mapped(data, h, l) { RootedBelow(data, h, root, l); }
    case None => UnmappedSays(data, h);
  }

  lemma UnmappedSays(data: RiskData, h: Holding)
    requires WellFormed(data) && FindRoot(data, h.id).None?
    ensures forall p :: p in data.positions ==> p.holdingId != h.id
    ensures forall l :: l in Emit(h, h.valueCents, None, [], h.assetClass, h.manager, true) ==> Unmapped(data, h, l)
  {
    assert forall p :: p in data.positions ==> FindNode(data.nodes, p.nodeId).Some? by {
      hide FindNode;
      forall p | p in data.positions ensures FindNode(data.nodes, p.nodeId).Some? { assert HasNode(data, p.nodeId); }
    }
    hide FindNode;
  }

  lemma RootFound(data: RiskData, holdingId: string)
    requires Distinct(NodeIds(data.nodes)) && FindRoot(data, holdingId).Some?
    ensures FindNode(data.nodes, FindRoot(data, holdingId).value.id) == FindRoot(data, holdingId)
  {
    NodeFound(data, FindRoot(data, holdingId).value);
  }

  /** Every lot of the whole exposure belongs to one valued holding and is classified by its own path. */
  ghost predicate LotSays(data: RiskData, holdings: seq<Holding>, l: Lot) {
    exists h :: h in holdings && h.valueKnown && LotOf(data, h, l)
  }

  ghost predicate LotOf(data: RiskData, h: Holding, l: Lot) {
    && l.holdingId == h.id && l.familyId == h.familyId && l.id == LotId(h.id, l.path, l.unresolved) && l.cents > 0
    && (Mapped(data, h, l) || Unmapped(data, h, l))
  }

  lemma {:induction false} PortfolioLotsSay(data: RiskData, holdings: seq<Holding>, depth: nat)
    requires AllExpandable(data, depth) && forall h :: h in holdings ==> HoldingOk(h)
    ensures forall l :: l in PortfolioLots(data, holdings, depth) ==> LotSays(data, holdings, l)
  {
    hide *;
    if |holdings| > 0 {
      var front, last := holdings[..|holdings| - 1], holdings[|holdings| - 1];
      assert holdings == front + [last] && last in holdings;
      PortfolioLotsSay(data, front, depth);
      LotsSnoc(data, holdings, depth);
      LastLotsSay(data, last, depth);
      JoinedLotsSay(data, front, last, PortfolioLots(data, front, depth), LotsOfLast(data, last, depth));
    } else {
      NoPortfolioLots(data, depth);
    }
  }

  lemma NoPortfolioLots(data: RiskData, depth: nat)
    ensures PortfolioLots(data, [], depth) == []
  {
  }

  lemma LastLotsSay(data: RiskData, last: Holding, depth: nat)
    requires AllExpandable(data, depth) && HoldingOk(last)
    ensures forall l :: l in LotsOfLast(data, last, depth) ==> last.valueKnown && LotOf(data, last, l)
  {
    HoldingLotsAre(data, last, depth);
    hide HoldingLots, LotOf, AllExpandable;
  }

  lemma JoinedLotsSay(data: RiskData, front: seq<Holding>, last: Holding, a: seq<Lot>, b: seq<Lot>)
    requires forall l :: l in a ==> LotSays(data, front, l)
    requires forall l :: l in b ==> last.valueKnown && LotOf(data, last, l)
    ensures forall l :: l in a + b ==> LotSays(data, front + [last], l)
  {
    hide LotOf;
    forall l | l in a + b ensures LotSays(data, front + [last], l) {
      if l in a {
        var h :| h in front && h.valueKnown && LotOf(data, h, l);
        assert h in front + [last];
      } else {
        assert l in b && last in front + [last];
      }
    }
  }

  lemma HoldingLotsAre(data: RiskData, h: Holding, depth: nat)
    requires AllExpandable(data, depth) && h.valueCents >= 0
    ensures forall l :: l in HoldingLots(data, h, depth) ==> LotOf(data, h, l)
  {
    hide HoldingLots, Mapped, Unmapped, WellFormed, Shaped;
    HoldingConserves(data, h, depth);
    HoldingLotsSay(data, h, depth);
  }

  lemma IdsDistinct(holdings: seq<Holding>)
    ensures Distinct(HoldingIdsOf(holdings)) <==>
            forall i, j :: 0 <= i < j < |holdings| ==> holdings[i].id != holdings[j].id
  {
    var ids := HoldingIdsOf(holdings);
    assert forall i :: 0 <= i < |holdings| ==> ids[i] == holdings[i].id;
  }

  /** What is accepted at all: sizes of the risk file and of the holdings, and amounts up to a trillion. */
  lemma AcceptedSizes(data: RiskData, holdings: seq<Holding>)
    ensures Sized(data) <==> |data.nodes| <= 400 && |data.links| <= 800 && |data.positions| <= 200
    ensures HoldingsOk(holdings) <==>
            && |holdings| <= 200 && (forall i, j :: 0 <= i < j < |holdings| ==> holdings[i].id != holdings[j].id)
            && (forall h :: h in holdings ==>
                  && 0 <= h.valueCents && h.valueCents <= 100_000_000_000_000
                  && 0 <= h.unfundedCents && h.unfundedCents <= 100_000_000_000_000)
            && SumBy(holdings, (h: Holding) => if h.valueKnown then h.valueCents else 0) <= 100_000_000_000_000
            && SumBy(holdings, (h: Holding) => if h.unfundedKnown then h.unfundedCents else 0) <= 100_000_000_000_000
  {
    IdsDistinct(holdings);
    SumByEq(holdings, (h: Holding) => if h.valueKnown then h.valueCents else 0,
            (h: Holding) => if h.valueKnown then h.valueCents else 0);
    SumByEq(holdings, (h: Holding) => if h.unfundedKnown then h.unfundedCents else 0,
            (h: Holding) => if h.unfundedKnown then h.unfundedCents else 0);
    hide SumBy, HoldingIdsOf, Distinct;
  }

  /** `buildTotalExposure` classifies every lot by the path it was reached on. */
  lemma ExposureSays(data: RiskData, holdings: seq<Holding>)
    requires Shaped(data) && Accepted(data) && HoldingsOk(holdings)
    ensures AllExpandable(data, MAX_DEPTH)
    ensures forall l :: l in PortfolioLots(data, holdings, MAX_DEPTH) ==> LotSays(data, holdings, l)
  {
    AcceptedFits(data, holdings, MAX_DEPTH);
    hide AllExpandable, PortfolioLots, LotSays, Accepted, PortfolioVisits;
    PortfolioLotsSay(data, holdings, MAX_DEPTH);
  }

  // --- Amounts ------------------------------------------------------------------------------------

  /** The share allocated to a child. */
  function ShareOf(kids: seq<RiskLink>, shares: seq<int>, id: string): int
    requires |kids| == |shares|
  {
    if |kids| == 0 then 0
    else if kids[|kids| - 1].childId == id then shares[|kids| - 1]
    else ShareOf(kids[..|kids| - 1], shares[..|kids| - 1], id)
  }

  /** What reaches the end of a path when `cents` enter its first node, one allocation after another. */
  function Entering(data: RiskData, cents: nat, p: seq<string>): int
    decreases |p|
  {
    if |p| <= 1 then cents
    else
      var kids := Children(data.links, p[0]);
      var share := ShareOf(kids, Shares(cents, kids), p[1]);
      if share <= 0 then 0 else Entering(data, share, p[1..])
  }

  /** Lots on or below a path. */
  function Through(p: seq<string>): Lot -> bool { (l: Lot) => p <= l.path }

  function Passing(lots: seq<Lot>, p: seq<string>): int { LotSum(Filter(lots, Through(p))) }

  lemma PassingConcat(a: seq<Lot>, b: seq<Lot>, p: seq<string>)
    ensures Passing(a + b, p) == Passing(a, p) + Passing(b, p)
  {
    FilterConcat(a, b, Through(p));
    LotSumConcat(Filter(a, Through(p)), Filter(b, Through(p)));
    hide LotSum, Filter;
  }

  lemma PassingNone(lots: seq<Lot>, p: seq<string>)
    requires forall l :: l in lots ==> !(p <= l.path)
    ensures Passing(lots, p) == 0
  {
    FilterNone(lots, Through(p));
  }

  lemma PassingAll(lots: seq<Lot>, p: seq<string>)
    requires forall l :: l in lots ==> p <= l.path
    ensures Passing(lots, p) == LotSum(lots)
  {
    FilterAll(lots, Through(p));
  }

  lemma AssetsOwnNothing(data: RiskData, node: RiskNode)
    requires WellFormed(data) && node in data.nodes && node.kind == Asset
    ensures Children(data.links, node.id) == []
  {
    forall l | l in data.links ensures l.parentId != node.id {
      assert HasFund(data, l.parentId);
      var n :| n in data.nodes && n.id == l.parentId && n.kind == Fund;
      NodeFound(data, n);
      NodeFound(data, node);
    }
    FilterNone(data.links, (l: RiskLink) => l.parentId == node.id);
  }

  /** The lots on or below any path carry exactly what the allocations along it hand down. */
  lemma {:induction false} ExpandPasses(data: RiskData, h: Holding, node: RiskNode, cents: nat, path: seq<string>,
                                        cls: string, mgr: Option<string>, depth: nat, p: seq<string>)
    requires Expandable(data, node.id, depth) && FindNode(data.nodes, node.id) == Some(node)
    requires |p| > 0 && p[0] == node.id
    ensures Passing(Expand(data, h, node, cents, path, cls, mgr, depth), path + p) == Entering(data, cents, p)
    decreases depth, 0, 0
  {
    hide *;
    var lots := Expand(data, h, node, cents, path, cls, mgr, depth);
    KidsExpandable(data, node.id, cents, depth);
    if |p| == 1 {
      assert p == [node.id];
      ExpandableParts(data, node.id, depth);
      ExpandLabelled(data, h, node, cents, path, cls, mgr, depth);
      forall l | l in lots ensures path + p <= l.path { LabelledPath(h, path + p, l); }
      PassingAll(lots, path + p);
      ExpandConserves(data, h, node, cents, path, cls, mgr, depth);
      EnteringOne(data, cents, p);
    } else {
      var kids := Children(data.links, node.id);
      ExpandableParts(data, node.id, depth);
      ExpandUnfold(data, h, node, cents, path, cls, mgr, depth);
      forall l | l in OwnLot(h, node, cents, kids, path, cls, mgr) ensures !(path + p <= l.path) {
        OwnLotPath(h, node, cents, kids, path, cls, mgr, l);
      }
      PassingNone(OwnLot(h, node, cents, kids, path, cls, mgr), path + p);
      var here, cls', mgr' := path + [node.id], ClassOf(node, cls), Or(node.managerId, mgr);
      assert path + p == here + p[1..];
      EnteringMore(data, cents, p);
      if node.kind == Asset {
        AssetsOwnNothing(data, node);
        PassingNone([], path + p);
        PassingConcat([], OwnLot(h, node, cents, kids, path, cls, mgr), path + p);
        DownUnfold(data, kids, Shares(cents, kids), p[1..]);
      } else {
        ChildrenDistinct(data.links, node.id);
        KidsPass(data, h, kids, Shares(cents, kids), here, cls', mgr', depth - 1, p[1..]);
        PassingConcat(ExpandKids(data, h, kids, Shares(cents, kids), here, cls', mgr', depth - 1),
                      OwnLot(h, node, cents, kids, path, cls, mgr), path + p);
      }
    }
  }

  lemma ExpandableParts(data: RiskData, id: string, depth: nat)
    requires Expandable(data, id, depth)
    ensures WellFormed(data) && Shaped(data) && Distinct(LinkPairs(data.links)) && Distinct(NodeIds(data.nodes))
  {
  }

  lemma LabelledPath(h: Holding, path: seq<string>, l: Lot)
    requires Labelled(h, path, l)
    ensures path <= l.path
  {
  }

  lemma OwnLotPath(h: Holding, node: RiskNode, cents: nat, kids: seq<RiskLink>, path: seq<string>, cls: string,
                   mgr: Option<string>, l: Lot)
    requires l in OwnLot(h, node, cents, kids, path, cls, mgr)
    ensures l.path == path + [node.id]
  {
    hide Target;
  }

  lemma EnteringOne(data: RiskData, cents: nat, p: seq<string>)
    requires |p| == 1
    ensures Entering(data, cents, p) == cents
  {
  }

  lemma EnteringMore(data: RiskData, cents: nat, p: seq<string>)
    requires |p| > 1
    ensures var kids := Children(data.links, p[0]);
            Entering(data, cents, p) == Down(data, kids, Shares(cents, kids), p[1..])
  {
    hide Shares, Children, ShareOf;
  }

  /** What one of the children hands down the rest of the path. */
  function Down(data: RiskData, kids: seq<RiskLink>, shares: seq<int>, p: seq<string>): int
    requires |kids| == |shares| && |p| > 0
  {
    var share := ShareOf(kids, shares, p[0]);
    if share <= 0 then 0 else Entering(data, share, p)
  }

  lemma OffPath(path: seq<string>, p: seq<string>, q: seq<string>)
    requires |p| > 0 && |q| > |path| && q[|path|] != p[0]
    ensures !(path + p <= q)
  {
    assert (path + p)[|path|] == p[0];
  }

  lemma {:induction false} KidsPass(data: RiskData, h: Holding, kids: seq<RiskLink>, shares: seq<int>,
                                    path: seq<string>,
                                    cls: string, mgr: Option<string>, depth: nat, p: seq<string>)
    requires WellFormed(data) && Shaped(data) && |kids| == |shares| && DistinctChildren(kids) && |p| > 0
    requires forall l :: l in kids ==> Expandable(data, l.childId, depth) && FindNode(data.nodes, l.childId).Some?
    ensures Passing(ExpandKids(data, h, kids, shares, path, cls, mgr, depth), path + p) == Down(data, kids, shares, p)
    decreases depth, 1, |kids|
  {
    hide *;
    KidsUnfold(data, h, kids, shares, path, cls, mgr, depth);
    DownUnfold(data, kids, shares, p);
    if |kids| == 0 {
      PassingNone([], path + p);
    } else {
      var n := |kids| - 1;
      var a := ExpandKids(data, h, kids[..n], shares[..n], path, cls, mgr, depth);
      var b := ExpandChild(data, h, kids[n], shares[n], path, cls, mgr, depth);
      PassingConcat(a, b, path + p);
      FrontDistinct(kids);
      if kids[n].childId == p[0] {
        KidsLabelled(data, h, kids[..n], shares[..n], path, cls, mgr, depth);
        forall l | l in a ensures !(path + p <= l.path) {
          var k :| k in kids[..n] && k.childId == l.path[|path|];
          OffPath(path, p, l.path);
        }
        PassingNone(a, path + p);
        ChildPasses(data, h, kids[n], shares[n], path, cls, mgr, depth, p);
      } else {
        ChildLabelled(data, h, kids[n], shares[n], path, cls, mgr, depth);
        forall l | l in b ensures !(path + p <= l.path) {
          OffPath(path, p, l.path);
        }
        PassingNone(b, path + p);
        KidsPass(data, h, kids[..n], shares[..n], path, cls, mgr, depth, p);
      }
    }
  }

  lemma DownUnfold(data: RiskData, kids: seq<RiskLink>, shares: seq<int>, p: seq<string>)
    requires |kids| == |shares| && |p| > 0
    ensures Down(data, kids, shares, p) ==
            if |kids| == 0 then 0
            else
              var n := |kids| - 1;
              if kids[n].childId != p[0] then Down(data, kids[..n], shares[..n], p)
              else if shares[n] <= 0 then 0 else Entering(data, shares[n], p)
  {
    hide Entering;
  }

  lemma FrontDistinct(kids: seq<RiskLink>)
    requires |kids| > 0 && DistinctChildren(kids)
    ensures DistinctChildren(kids[..|kids| - 1])
    ensures forall k :: k in kids[..|kids| - 1] ==> k.childId != kids[|kids| - 1].childId
  {
    var front := kids[..|kids| - 1];
    forall k | k in front ensures k.childId != kids[|kids| - 1].childId {
      var i: nat :| i < |front| && front[i] == k;
      assert kids[i] == k;
    }
  }

  lemma {:induction false} ChildPasses(data: RiskData, h: Holding, link: RiskLink, share: int, path: seq<string>,
                                       cls: string, mgr: Option<string>, depth: nat, p: seq<string>)
    requires Expandable(data, link.childId, depth) && FindNode(data.nodes, link.childId).Some?
    requires |p| > 0 && p[0] == link.childId
    ensures Passing(ExpandChild(data, h, link, share, path, cls, mgr, depth), path + p) ==
            if share <= 0 then 0 else Entering(data, share, p)
    decreases depth, 1, 0
  {
    hide *;
    ChildUnfold(data, h, link, share, path, cls, mgr, depth);
    if share <= 0 {
      PassingNone([], path + p);
    } else {
      ExpandPasses(data, h, FindNode(data.nodes, link.childId).value, share, path, cls, mgr, depth, p);
    }
  }

  lemma ChildUnfold(data: RiskData, h: Holding, link: RiskLink, share: int, path: seq<string>, cls: string,
                    mgr: Option<string>, depth: nat)
    requires FindNode(data.nodes, link.childId).Some?
    ensures ExpandChild(data, h, link, share, path, cls, mgr, depth) ==
            if share <= 0 then []
            else Expand(data, h, FindNode(data.nodes, link.childId).value, share, path, cls, mgr, depth)
  {
  }

  /** A holding's lots on or below a path from its mapped node carry what the allocations hand down. */
  lemma HoldingPasses(data: RiskData, h: Holding, depth: nat, p: seq<string>)
    requires AllExpandable(data, depth) && h.valueCents >= 0
    requires |p| > 0 && FindRoot(data, h.id).Some? && FindRoot(data, h.id).value.id == p[0]
    ensures Passing(HoldingLots(data, h, depth), p) == Entering(data, h.valueCents, p)
  {
    hide Expand, Passing, Entering, FindNode, WellFormed, Shaped, IsWalk;
    var root := FindRoot(data, h.id).value;
    RootFits(data, h.id, depth);
    ExpandPasses(data, h, root, h.valueCents, [], h.assetClass, h.manager, depth, p);
    assert [] + p == p;
  }

  lemma RootFits(data: RiskData, holdingId: string, depth: nat)
    requires AllExpandable(data, depth) && FindRoot(data, holdingId).Some?
    ensures var root := FindRoot(data, holdingId).value;
            Expandable(data, root.id, depth) && FindNode(data.nodes, root.id) == Some(root)
  {
    hide FindRoot, FindNode, Shaped;
    RootFound(data, holdingId);
  }
}
