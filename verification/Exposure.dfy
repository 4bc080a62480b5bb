/**
 Look-through expansion of holdings into terminal lots (`buildTotalExposure` in
 lib/risk-engine.ts).  Money is in integer cents; descriptive text, provenance and
 warnings are not modelled.
 */
module Exposure {
  import opened Common
  import opened RiskContract
  import opened Allocation

  /** A registered position; an unreported NAV or commitment is a placeholder, not zero. */
  datatype Holding = Holding(
    id: string,
    familyId: string,
    assetClass: string,
    currency: string,
    manager: Option<string>,
    valueCents: int,
    valueKnown: bool,
    unfundedCents: int,
    unfundedKnown: bool
  )

  /** The triple the program serialises as a lot's identifier. */
  datatype LotId = LotId(holdingId: string, path: seq<string>, unresolved: bool)

  datatype Lot = Lot(
    id: LotId,
    holdingId: string,
    familyId: string,
    nodeId: Option<string>,
    cents: int,
    path: seq<string>,
    issuerId: Option<string>,
    managerId: Option<string>,
    assetClass: string,
    sector: Option<string>,
    country: Option<string>,
    currency: Option<string>,
    unresolved: bool
  )

  /** `node.x ?? inherited` */
  function Or<T>(a: Option<T>, b: Option<T>): Option<T> { if a.Some? then a else b }

  /** Map lookup after indexing: a later entry with the same key wins. */
  function FindNode(nodes: seq<RiskNode>, id: string): (r: Option<RiskNode>)
    ensures r.Some? ==> r.value in nodes && r.value.id == id
    ensures r.None? ==> forall n :: n in nodes ==> n.id != id
  {
    if |nodes| == 0 then None
    else if nodes[|nodes| - 1].id == id then Some(nodes[|nodes| - 1])
    else FindNode(nodes[..|nodes| - 1], id)
  }

  function FindPosition(positions: seq<Position>, holdingId: string): (r: Option<string>)
    ensures r.Some? ==> exists p :: p in positions && p.holdingId == holdingId && p.nodeId == r.value
    ensures r.None? ==> forall p :: p in positions ==> p.holdingId != holdingId
  {
    if |positions| == 0 then None
    else if positions[|positions| - 1].holdingId == holdingId then Some(positions[|positions| - 1].nodeId)
    else FindPosition(positions[..|positions| - 1], holdingId)
  }

  function FindRoot(data: RiskData, holdingId: string): Option<RiskNode> {
    match FindPosition(data.positions, holdingId)
    case None => None
    case Some(nodeId) => FindNode(data.nodes, nodeId)
  }

  /** `emit`: an amount of zero leaves no lot. */
  function Emit(h: Holding, cents: int, node: Option<RiskNode>, path: seq<string>, cls: string,
                mgr: Option<string>, unresolved: bool): seq<Lot>
  {
    if cents == 0 then []
    else [Lot(
            LotId(h.id, path, unresolved), h.id, h.familyId,
            if node.Some? then Some(node.value.id) else None,
            cents, path,
            if !unresolved && node.Some? && node.value.kind == Asset then node.value.issuerId else None,
            mgr, cls,
            if node.Some? then node.value.sector else None,
            if node.Some? then node.value.country else None,
            if node.Some? then node.value.currency
            else if h.assetClass == "Cash" then Some(h.currency) else None,
            unresolved)]
  }

  /** The lots `visit` adds below one node, descending at most `depth` levels. */
  function Expand(data: RiskData, h: Holding, node: RiskNode, cents: nat, path: seq<string>, cls: string,
                  mgr: Option<string>, depth: nat): seq<Lot>
    decreases depth, 0, 0
  {
    if depth == 0 then []
    else
      var here := path + [node.id];
      var cls' := if node.assetClass.Some? then node.assetClass.value else cls;
      var mgr' := Or(node.managerId, mgr);
      if node.kind == Asset then Emit(h, cents, Some(node), here, cls', mgr', false)
      else
        var kids := Children(data.links, node.id);
        ExpandKids(data, h, kids, Shares(cents, kids), here, cls', mgr', depth - 1)
        + Emit(h, cents - Target(cents, kids), Some(node), here, cls', mgr', true)
  }

  function ExpandKids(data: RiskData, h: Holding, kids: seq<RiskLink>, shares: seq<int>, path: seq<string>,
                      cls: string, mgr: Option<string>, depth: nat): seq<Lot>
    requires |kids| == |shares|
    decreases depth, 1, |kids|
  {
    if |kids| == 0 then []
    else
      var n := |kids| - 1;
      ExpandKids(data, h, kids[..n], shares[..n], path, cls, mgr, depth)
      + ExpandChild(data, h, kids[n], shares[n], path, cls, mgr, depth)
  }

  function ExpandChild(data: RiskData, h: Holding, link: RiskLink, share: int, path: seq<string>, cls: string,
                       mgr: Option<string>, depth: nat): seq<Lot>
    decreases depth, 1, 0
  {
    var child := FindNode(data.nodes, link.childId);
    if share > 0 && child.Some? then Expand(data, h, child.value, share, path, cls, mgr, depth) else []
  }

  /** How often `visit` is called below one node. */
  function Visits(data: RiskData, node: RiskNode, cents: nat, depth: nat): nat
    decreases depth, 0, 0
  {
    if depth == 0 then 0
    else if node.kind == Asset then 1
    else
      var kids := Children(data.links, node.id);
      1 + VisitsKids(data, kids, Shares(cents, kids), depth - 1)
  }

  function VisitsKids(data: RiskData, kids: seq<RiskLink>, shares: seq<int>, depth: nat): nat
    requires |kids| == |shares|
    decreases depth, 1, |kids|
  {
    if |kids| == 0 then 0
    else
      var n := |kids| - 1;
      VisitsKids(data, kids[..n], shares[..n], depth) + VisitsChild(data, kids[n], shares[n], depth)
  }

  function VisitsChild(data: RiskData, link: RiskLink, share: int, depth: nat): nat
    decreases depth, 1, 0
  {
    var child := FindNode(data.nodes, link.childId);
    if share > 0 && child.Some? then Visits(data, child.value, share, depth) else 0
  }

  /** All lots of one holding: an unmapped holding is one unresolved lot. */
  function HoldingLots(data: RiskData, h: Holding, depth: nat): seq<Lot>
    requires h.valueCents >= 0
  {
    match FindRoot(data, h.id)
    case Some(root) => Expand(data, h, root, h.valueCents, [], h.assetClass, h.manager, depth)
    case None => Emit(h, h.valueCents, None, [], h.assetClass, h.manager, true)
  }

  function HoldingVisits(data: RiskData, h: Holding, depth: nat): nat
    requires h.valueCents >= 0
  {
    match FindRoot(data, h.id)
    case Some(root) => Visits(data, root, h.valueCents, depth)
    case None => 0
  }

  function CentsOf(l: Lot): int { l.cents }

  function LotSum(lots: seq<Lot>): int { SumBy(lots, CentsOf) }

  lemma LotSumConcat(a: seq<Lot>, b: seq<Lot>)
    ensures LotSum(a + b) == LotSum(a) + LotSum(b)
  {
    SumByConcat(a, b, CentsOf);
  }

  // --- Conservation --------------------------------------------------------

  /** Every link below a node leads to a node, and every walk below it fits in `depth`. */
  ghost predicate Expandable(data: RiskData, id: string, depth: nat) {
    && WellFormed(data) && Shaped(data)
    && WalkBound(data.links, id, depth)
  }

  lemma KidExpandable(data: RiskData, id: string, depth: nat, link: RiskLink)
    requires Expandable(data, id, depth) && link in Children(data.links, id)
    ensures depth >= 2 && Expandable(data, link.childId, depth - 1)
    ensures FindNode(data.nodes, link.childId).Some?
  {
    ChildEdge(data.links, id, link);
    WalkBoundChild(data.links, id, depth, link.childId);
  }

  lemma DepthPositive(data: RiskData, id: string, depth: nat)
    requires WalkBound(data.links, id, depth)
    ensures depth >= 1
  {
    assert IsWalk(data.links, [id]) && [id][0] == id;
  }

  /** Terminal lots below a node sum to exactly the cents that entered it. */
  lemma {:induction false} ExpandConserves(data: RiskData, h: Holding, node: RiskNode, cents: nat,
                                           path: seq<string>, cls: string, mgr: Option<string>, depth: nat)
    requires Expandable(data, node.id, depth)
    ensures LotSum(Expand(data, h, node, cents, path, cls, mgr, depth)) == cents
    decreases depth, 0, 0
  {
    hide Shares, Target, Emit, Expandable;
    KidsExpandable(data, node.id, cents, depth);
    if node.kind == Asset {
      EmitSum(h, cents, Some(node), path + [node.id], if node.assetClass.Some? then node.assetClass.value else cls,
              Or(node.managerId, mgr), false);
    } else {
      var here := path + [node.id];
      var cls' := if node.assetClass.Some? then node.assetClass.value else cls;
      var mgr' := Or(node.managerId, mgr);
      var kids := Children(data.links, node.id);
      KidsConserve(data, h, kids, Shares(cents, kids), here, cls', mgr', depth - 1);
      LotSumConcat(ExpandKids(data, h, kids, Shares(cents, kids), here, cls', mgr', depth - 1),
                  Emit(h, cents - Target(cents, kids), Some(node), here, cls', mgr', true));
      EmitSum(h, cents - Target(cents, kids), Some(node), here, cls', mgr', true);
    }
  }

  lemma EmitSum(h: Holding, cents: int, node: Option<RiskNode>, path: seq<string>, cls: string,
                mgr: Option<string>, unresolved: bool)
    ensures LotSum(Emit(h, cents, node, path, cls, mgr, unresolved)) == cents
  {
    var lots := Emit(h, cents, node, path, cls, mgr, unresolved);
    if cents != 0 { SumBySnoc([], lots[0], CentsOf); }
  }

  lemma KidsExpandable(data: RiskData, id: string, cents: nat, depth: nat)
    requires Expandable(data, id, depth)
    ensures depth >= 1
    ensures var kids := Children(data.links, id);
            && (forall l :: l in kids ==>
                  Expandable(data, l.childId, depth - 1) && FindNode(data.nodes, l.childId).Some?)
            && (forall i :: 0 <= i < |kids| ==> Shares(cents, kids)[i] >= 0)
            && Sum(Shares(cents, kids)) == Target(cents, kids) && 0 <= Target(cents, kids) <= cents
  {
    hide Shares, Target;
    DepthPositive(data, id, depth);
    var kids := Children(data.links, id);
    SharesConserve(cents, kids);
    forall l | l in kids ensures Expandable(data, l.childId, depth - 1) && FindNode(data.nodes, l.childId).Some? {
      KidExpandable(data, id, depth, l);
    }
    forall i | 0 <= i < |kids| ensures Shares(cents, kids)[i] >= 0 {
      ShareIsFloorOrCeiling(cents, kids, i);
    }
  }

  lemma {:induction false} KidsConserve(data: RiskData, h: Holding, kids: seq<RiskLink>, shares: seq<int>,
                                        path: seq<string>, cls: string, mgr: Option<string>, depth: nat)
    requires |kids| == |shares|
    requires forall l :: l in kids ==> Expandable(data, l.childId, depth) && FindNode(data.nodes, l.childId).Some?
    requires forall i :: 0 <= i < |shares| ==> shares[i] >= 0
    ensures LotSum(ExpandKids(data, h, kids, shares, path, cls, mgr, depth)) == Sum(shares)
    decreases depth, 1, |kids|
  {
    hide *;
    KidsUnfold(data, h, kids, shares, path, cls, mgr, depth);
    SumUnfold(shares);
    if |kids| > 0 {
      var n := |kids| - 1;
      KidsConserve(data, h, kids[..n], shares[..n], path, cls, mgr, depth);
      assert kids[n] in kids;
      ChildConserves(data, h, kids[n], shares[n], path, cls, mgr, depth);
      LotSumConcat(ExpandKids(data, h, kids[..n], shares[..n], path, cls, mgr, depth),
                  ExpandChild(data, h, kids[n], shares[n], path, cls, mgr, depth));
    } else {
      NoLots();
    }
  }

  lemma {:induction false} ChildConserves(data: RiskData, h: Holding, link: RiskLink, share: int,
                                          path: seq<string>, cls: string, mgr: Option<string>, depth: nat)
    requires Expandable(data, link.childId, depth) && FindNode(data.nodes, link.childId).Some? && share >= 0
    ensures LotSum(ExpandChild(data, h, link, share, path, cls, mgr, depth)) == share
    decreases depth, 1, 0
  {
    hide Expandable, Expand, LotSum;
    NoLots();
    if share > 0 { ExpandConserves(data, h, FindNode(data.nodes, link.childId).value, share, path, cls, mgr, depth); }
  }

  lemma KidsUnfold(data: RiskData, h: Holding, kids: seq<RiskLink>, shares: seq<int>, path: seq<string>, cls: string,
                   mgr: Option<string>, depth: nat)
    requires |kids| == |shares|
    ensures ExpandKids(data, h, kids, shares, path, cls, mgr, depth) ==
            if |kids| == 0 then []
            else
              var n := |kids| - 1;
              ExpandKids(data, h, kids[..n], shares[..n], path, cls, mgr, depth)
              + ExpandChild(data, h, kids[n], shares[n], path, cls, mgr, depth)
  {
    hide ExpandChild;
  }

  lemma SumUnfold(xs: seq<int>)
    ensures Sum(xs) == if |xs| == 0 then 0 else Sum(xs[..|xs| - 1]) + xs[|xs| - 1]
  {
  }

  lemma NoLots()
    ensures LotSum([]) == 0
  {
  }

  // --- The static path count bounds the calls ------------------------------

  lemma {:induction false} VisitsBounded(data: RiskData, node: RiskNode, cents: nat, depth: nat)
    requires Shaped(data)
    ensures Visits(data, node, cents, depth) <= Paths(data.links, node.id, depth)
    decreases depth, 0, 0
  {
    hide Shares, Target;
    if depth > 0 && node.kind == Fund {
      var kids := Children(data.links, node.id);
      forall i | 0 <= i < |kids| && Shares(cents, kids)[i] > 0 ensures WeightOf(kids[i]) > 0.0 {
        ReceivingNeedsWeight(cents, kids, i);
      }
      KidsVisitsBounded(data, kids, Shares(cents, kids), depth - 1);
    }
  }

  lemma {:induction false} KidsVisitsBounded(data: RiskData, kids: seq<RiskLink>, shares: seq<int>, depth: nat)
    requires Shaped(data) && |kids| == |shares|
    requires forall i :: 0 <= i < |kids| && shares[i] > 0 ==> WeightOf(kids[i]) > 0.0
    ensures VisitsKids(data, kids, shares, depth) <= PathsBelow(data.links, kids, depth)
    decreases depth, 1, |kids|
  {
    if |kids| > 0 {
      var n := |kids| - 1;
      KidsVisitsBounded(data, kids[..n], shares[..n], depth);
      var child := FindNode(data.nodes, kids[n].childId);
      if shares[n] > 0 && child.Some? { VisitsBounded(data, child.value, shares[n], depth); }
    }
  }

  // --- Lots are well labelled and have distinct identifiers ----------------

  /** What every lot of holding `h` found at or below `path` looks like. */
  ghost predicate Labelled(h: Holding, path: seq<string>, l: Lot) {
    && l.holdingId == h.id && l.familyId == h.familyId
    && l.id == LotId(h.id, l.path, l.unresolved)
    && path <= l.path
    && l.cents > 0
    && (l.issuerId.Some? ==> !l.unresolved)
    && (!l.unresolved ==> |l.path| > 0)
  }

  lemma {:induction false} ExpandLabelled(data: RiskData, h: Holding, node: RiskNode, cents: nat,
                                          path: seq<string>, cls: string, mgr: Option<string>, depth: nat)
    requires Shaped(data)
    ensures forall l :: l in Expand(data, h, node, cents, path, cls, mgr, depth) ==> Labelled(h, path + [node.id], l)
    decreases depth, 0, 0
  {
    hide Shares, Target, Children, ExpandKids, Emit, Labelled;
    var here := path + [node.id];
    var cls' := if node.assetClass.Some? then node.assetClass.value else cls;
    var mgr' := Or(node.managerId, mgr);
    if depth > 0 && node.kind == Fund {
      var kids := Children(data.links, node.id);
      ChildWeights(data.links, node.id);
      SharesConserve(cents, kids);
      KidsLabelled(data, h, kids, Shares(cents, kids), here, cls', mgr', depth - 1);
      EmitLabelled(h, cents - Target(cents, kids), node, here, cls', mgr', true);
    } else {
      EmitLabelled(h, cents, node, here, cls', mgr', false);
    }
  }

  lemma ChildWeights(links: seq<RiskLink>, id: string)
    ensures forall l :: l in Children(links, id) ==> l in links
  {
  }

  lemma EmitLabelled(h: Holding, cents: nat, node: RiskNode, path: seq<string>, cls: string, mgr: Option<string>,
                     unresolved: bool)
    requires |path| > 0
    ensures forall l :: l in Emit(h, cents, Some(node), path, cls, mgr, unresolved) ==> Labelled(h, path, l)
  {
  }

  lemma {:induction false} KidsLabelled(data: RiskData, h: Holding, kids: seq<RiskLink>, shares: seq<int>,
                                        path: seq<string>, cls: string, mgr: Option<string>, depth: nat)
    requires Shaped(data) && |kids| == |shares|
    ensures forall l :: l in ExpandKids(data, h, kids, shares, path, cls, mgr, depth) ==>
              Labelled(h, path, l) && |l.path| > |path| && exists k :: k in kids && k.childId == l.path[|path|]
    decreases depth, 1, |kids|
  {
    if |kids| > 0 {
      var n := |kids| - 1;
      KidsLabelled(data, h, kids[..n], shares[..n], path, cls, mgr, depth);
      ChildLabelled(data, h, kids[n], shares[n], path, cls, mgr, depth);
      assert kids[n] in kids;
    }
  }

  lemma {:induction false} ChildLabelled(data: RiskData, h: Holding, link: RiskLink, share: int,
                                         path: seq<string>, cls: string, mgr: Option<string>, depth: nat)
    requires Shaped(data)
    ensures forall l :: l in ExpandChild(data, h, link, share, path, cls, mgr, depth) ==>
              Labelled(h, path, l) && |l.path| > |path| && l.path[|path|] == link.childId
    decreases depth, 1, 0
  {
    var child := FindNode(data.nodes, link.childId);
    if share > 0 && child.Some? {
      ExpandLabelled(data, h, child.value, share, path, cls, mgr, depth);
    }
  }

  ghost predicate DistinctIds(lots: seq<Lot>) {
    forall i, j :: 0 <= i < j < |lots| ==> lots[i].id != lots[j].id
  }

  lemma DistinctIdsConcat(a: seq<Lot>, b: seq<Lot>)
    requires DistinctIds(a) && DistinctIds(b)
    requires forall x, y :: x in a && y in b ==> x.id != y.id
    ensures DistinctIds(a + b)
  {
    var c := a + b;
    forall i, j | 0 <= i < j < |c| ensures c[i].id != c[j].id {
      if i < |a| <= j { assert c[i] in a && c[j] in b; }
    }
  }

  ghost predicate DistinctChildren(kids: seq<RiskLink>) {
    forall i, j :: 0 <= i < j < |kids| ==> kids[i].childId != kids[j].childId
  }

  lemma {:induction false} ChildrenDistinct(links: seq<RiskLink>, id: string)
    requires Distinct(LinkPairs(links))
    ensures DistinctChildren(Children(links, id))
  {
    if |links| > 0 {
      var front, last := links[..|links| - 1], links[|links| - 1];
      assert forall i :: 0 <= i < |front| ==> LinkPairs(front)[i] == LinkPairs(links)[i];
      ChildrenDistinct(front, id);
      forall l | l in Children(front, id) && last.parentId == id ensures l.childId != last.childId {
        var i :| 0 <= i < |front| && front[i] == l;
        assert LinkPairs(links)[i] != LinkPairs(links)[|links| - 1];
      }
    }
  }

  lemma {:induction false} ExpandDistinct(data: RiskData, h: Holding, node: RiskNode, cents: nat,
                                          path: seq<string>, cls: string, mgr: Option<string>, depth: nat)
    requires Shaped(data) && Distinct(LinkPairs(data.links))
    ensures DistinctIds(Expand(data, h, node, cents, path, cls, mgr, depth))
    decreases depth, 0, 0
  {
    hide Shares, Target, Children, Labelled, ExpandKids, Emit;
    var here := path + [node.id];
    var cls' := if node.assetClass.Some? then node.assetClass.value else cls;
    var mgr' := Or(node.managerId, mgr);
    if depth > 0 && node.kind == Fund {
      var kids := Children(data.links, node.id);
      ChildrenDistinct(data.links, node.id);
      KidsDistinct(data, h, kids, Shares(cents, kids), here, cls', mgr', depth - 1);
      ResidualDistinct(data, h, kids, Shares(cents, kids), cents - Target(cents, kids), node, here, cls', mgr',
                       depth - 1);
    } else {
      EmitDistinct(h, cents, Some(node), here, cls', mgr', false);
    }
  }

  lemma EmitDistinct(h: Holding, cents: int, node: Option<RiskNode>, path: seq<string>, cls: string,
                     mgr: Option<string>, unresolved: bool)
    ensures DistinctIds(Emit(h, cents, node, path, cls, mgr, unresolved))
  {
  }

  /** The residual lot stands at the node itself, its children's lots strictly below. */
  lemma ResidualDistinct(data: RiskData, h: Holding, kids: seq<RiskLink>, shares: seq<int>, residual: int,
                         node: RiskNode, path: seq<string>, cls: string, mgr: Option<string>, depth: nat)
    requires Shaped(data) && |kids| == |shares|
    requires DistinctIds(ExpandKids(data, h, kids, shares, path, cls, mgr, depth))
    ensures DistinctIds(ExpandKids(data, h, kids, shares, path, cls, mgr, depth)
                        + Emit(h, residual, Some(node), path, cls, mgr, true))
  {
    hide ExpandKids, Shaped;
    KidsLabelled(data, h, kids, shares, path, cls, mgr, depth);
    DistinctIdsConcat(ExpandKids(data, h, kids, shares, path, cls, mgr, depth),
                      Emit(h, residual, Some(node), path, cls, mgr, true));
  }

  lemma {:induction false} KidsDistinct(data: RiskData, h: Holding, kids: seq<RiskLink>, shares: seq<int>,
                                        path: seq<string>, cls: string, mgr: Option<string>, depth: nat)
    requires Shaped(data) && Distinct(LinkPairs(data.links)) && |kids| == |shares|
    requires DistinctChildren(kids)
    ensures DistinctIds(ExpandKids(data, h, kids, shares, path, cls, mgr, depth))
    decreases depth, 1, |kids|
  {
    if |kids| > 0 {
      var n := |kids| - 1;
      var child := FindNode(data.nodes, kids[n].childId);
      KidsDistinct(data, h, kids[..n], shares[..n], path, cls, mgr, depth);
      if shares[n] > 0 && child.Some? { ExpandDistinct(data, h, child.value, shares[n], path, cls, mgr, depth); }
      KidsLabelled(data, h, kids[..n], shares[..n], path, cls, mgr, depth);
      ChildLabelled(data, h, kids[n], shares[n], path, cls, mgr, depth);
      var a := ExpandKids(data, h, kids[..n], shares[..n], path, cls, mgr, depth);
      var b := ExpandChild(data, h, kids[n], shares[n], path, cls, mgr, depth);
      forall x, y | x in a && y in b ensures x.id != y.id {
        var k :| k in kids[..n] && k.childId == x.path[|path|];
        assert k.childId != kids[n].childId;
      }
      DistinctIdsConcat(a, b);
    }
  }
}
