/**
 Pruning the ownership graph to a selection of holdings (`scopedRiskData` in
 lib/reporting.ts; the same loop is in `scopeWorkspace`, lib/data-scope.ts).  The
 pruned graph is still accepted and expands the selected holdings identically.
 */
module RiskScope {
  import opened Common
  import opened RiskContract
  import opened Allocation
  import opened Exposure
  import opened ExposureBuilder

  /** Some walk leads from a root to `id`. */
  ghost predicate Reaches(links: seq<RiskLink>, roots: set<string>, id: string) {
    exists p :: IsWalk(links, p) && p[0] in roots && p[|p| - 1] == id
  }

  ghost predicate ClosedUnder(links: seq<RiskLink>, s: set<string>) {
    forall l :: l in links && l.parentId in s ==> l.childId in s
  }

  ghost predicate IsReach(links: seq<RiskLink>, roots: set<string>, s: set<string>) {
    forall id :: id in s <==> Reaches(links, roots, id)
  }

  function ScopedPositions(data: RiskData, ids: set<string>): seq<Position> {
    Filter(data.positions, (p: Position) => p.holdingId in ids)
  }

  function Roots(positions: seq<Position>): set<string> { set p | p in positions :: p.nodeId }

  function Pruned(data: RiskData, ids: set<string>, reach: set<string>): RiskData {
    RiskData(Filter(data.nodes, (n: RiskNode) => n.id in reach),
             Filter(data.links, (l: RiskLink) => l.parentId in reach && l.childId in reach),
             ScopedPositions(data, ids))
  }

  /** Grow the set until a whole pass over the links changes nothing. */
  method ScopedRiskData(data: RiskData, ids: set<string>) returns (scoped: RiskData, reach: set<string>)
    ensures IsReach(data.links, Roots(ScopedPositions(data, ids)), reach)
    ensures scoped == Pruned(data, ids, reach)
  {
    var positions := ScopedPositions(data, ids);
    ghost var roots := Roots(positions);
    reach := Roots(positions);
    ghost var universe := roots + (set l | l in data.links :: l.childId);
    SingletonsReach(data.links, roots);
    var changed := true;
    while changed
      invariant roots <= reach <= universe
      invariant forall id :: id in reach ==> Reaches(data.links, roots, id)
      invariant !changed ==> ClosedUnder(data.links, reach)
      decreases universe - reach, changed
    {
      var grown, more := GrowOnce(data.links, reach, roots, universe);
      changed := more;
      reach := grown;
    }
    ClosedCoversWalks(data.links, roots, reach);
    scoped := Pruned(data, ids, reach);
  }

  method GrowOnce(links: seq<RiskLink>, start: set<string>, ghost roots: set<string>, ghost universe: set<string>)
    returns (reach: set<string>, changed: bool)
    requires roots <= start <= universe && forall l :: l in links ==> l.childId in universe
    requires forall id :: id in start ==> Reaches(links, roots, id)
    ensures start <= reach <= universe
    ensures forall id :: id in reach ==> Reaches(links, roots, id)
    ensures changed ==> start < reach
    ensures !changed ==> reach == start && ClosedUnder(links, start)
  {
    reach, changed := start, false;
    var i := 0;
    while i < |links|
      invariant 0 <= i <= |links|
      invariant start <= reach <= universe
      invariant forall id :: id in reach ==> Reaches(links, roots, id)
      invariant changed ==> start < reach
      invariant !changed ==>
                  reach == start && forall j :: 0 <= j < i && links[j].parentId in start ==> links[j].childId in start
    {
      var l := links[i];
      if l.parentId in reach && l.childId !in reach {
        ReachesChild(links, roots, l);
        reach := reach + {l.childId};
        changed := true;
      }
      i := i + 1;
    }
  }

  lemma SingletonsReach(links: seq<RiskLink>, roots: set<string>)
    ensures forall id :: id in roots ==> Reaches(links, roots, id)
  {
    forall id | id in roots ensures Reaches(links, roots, id) {
      assert IsWalk(links, [id]) && [id][0] in roots;
    }
  }

  lemma ReachesChild(links: seq<RiskLink>, roots: set<string>, l: RiskLink)
    requires l in links && Reaches(links, roots, l.parentId)
    ensures Reaches(links, roots, l.childId)
  {
    var p :| IsWalk(links, p) && p[0] in roots && p[|p| - 1] == l.parentId;
    WalkSnoc(links, p, l.childId);
    var q := p + [l.childId];
    assert q[0] in roots && q[|q| - 1] == l.childId;
  }

  lemma {:induction false} ClosedHoldsWalk(links: seq<RiskLink>, s: set<string>, p: seq<string>)
    requires ClosedUnder(links, s) && IsWalk(links, p) && p[0] in s
    ensures p[|p| - 1] in s
    decreases |p|
  {
    if |p| >= 2 {
      WalkTail(links, p);
      ClosedHoldsWalk(links, s, p[1..]);
    }
  }

  lemma ClosedCoversWalks(links: seq<RiskLink>, roots: set<string>, s: set<string>)
    requires roots <= s && ClosedUnder(links, s)
    ensures forall id :: Reaches(links, roots, id) ==> id in s
  {
    forall id | Reaches(links, roots, id) ensures id in s {
      var p :| IsWalk(links, p) && p[0] in roots && p[|p| - 1] == id;
      ClosedHoldsWalk(links, s, p);
    }
  }

  lemma ReachIsClosed(links: seq<RiskLink>, roots: set<string>, s: set<string>)
    requires IsReach(links, roots, s)
    ensures roots <= s && ClosedUnder(links, s)
  {
    SingletonsReach(links, roots);
    forall l | l in links && l.parentId in s ensures l.childId in s {
      ReachesChild(links, roots, l);
    }
  }

  // --- The pruned graph agrees with the full one --------------------------------

  lemma {:induction false} SameChildren(links: seq<RiskLink>, reach: set<string>, id: string)
    requires forall l :: l in links && l.parentId in reach ==> l.childId in reach
    requires id in reach
    ensures Children(Filter(links, (l: RiskLink) => l.parentId in reach && l.childId in reach), id) ==
            Children(links, id)
  {
    FilterFilter(links, (l: RiskLink) => l.parentId in reach && l.childId in reach,
                 (l: RiskLink) => l.parentId == id, (l: RiskLink) => l.parentId == id);
  }

  lemma {:induction false} SameNode(nodes: seq<RiskNode>, reach: set<string>, id: string)
    requires id in reach
    ensures FindNode(Filter(nodes, (n: RiskNode) => n.id in reach), id) == FindNode(nodes, id)
  {
    if |nodes| > 0 {
      var front := nodes[..|nodes| - 1];
      SameNode(front, reach, id);
      var kept := Filter(front, (n: RiskNode) => n.id in reach);
      assert (kept + [nodes[|nodes| - 1]])[..|kept|] == kept;
    }
  }

  lemma {:induction false} SamePosition(positions: seq<Position>, ids: set<string>, holdingId: string)
    requires holdingId in ids
    ensures FindPosition(Filter(positions, (p: Position) => p.holdingId in ids), holdingId) ==
            FindPosition(positions, holdingId)
  {
    if |positions| > 0 {
      var front := positions[..|positions| - 1];
      SamePosition(front, ids, holdingId);
      var kept := Filter(front, (p: Position) => p.holdingId in ids);
      assert (kept + [positions[|positions| - 1]])[..|kept|] == kept;
    }
  }

  /** Everything below a reachable node expands to the same lots. */
  lemma {:induction false} SameExpansion(data: RiskData, ids: set<string>, reach: set<string>, h: Holding,
                                         node: RiskNode, cents: nat, path: seq<string>, cls: string,
                                         mgr: Option<string>, depth: nat)
    requires ClosedUnder(data.links, reach) && node.id in reach
    ensures Expand(Pruned(data, ids, reach), h, node, cents, path, cls, mgr, depth) ==
            Expand(data, h, node, cents, path, cls, mgr, depth)
    decreases depth, 0, 0
  {
    hide Shares, Target, Emit;
    if depth > 0 && node.kind == Fund {
      var here := path + [node.id];
      var cls' := if node.assetClass.Some? then node.assetClass.value else cls;
      var mgr' := Or(node.managerId, mgr);
      SameChildren(data.links, reach, node.id);
      var kids := Children(data.links, node.id);
      SameKids(data, ids, reach, h, kids, Shares(cents, kids), here, cls', mgr', depth - 1);
    }
  }

  lemma {:induction false} SameKids(data: RiskData, ids: set<string>, reach: set<string>, h: Holding,
                                    kids: seq<RiskLink>, shares: seq<int>, path: seq<string>, cls: string,
                                    mgr: Option<string>, depth: nat)
    requires ClosedUnder(data.links, reach) && |kids| == |shares|
    requires forall l :: l in kids ==> l.childId in reach
    ensures ExpandKids(Pruned(data, ids, reach), h, kids, shares, path, cls, mgr, depth) ==
            ExpandKids(data, h, kids, shares, path, cls, mgr, depth)
    decreases depth, 1, |kids|
  {
    hide Expand;
    if |kids| > 0 {
      var n := |kids| - 1;
      SameKids(data, ids, reach, h, kids[..n], shares[..n], path, cls, mgr, depth);
      assert kids[n] in kids;
      SameNode(data.nodes, reach, kids[n].childId);
      var child := FindNode(data.nodes, kids[n].childId);
      if shares[n] > 0 && child.Some? {
        SameExpansion(data, ids, reach, h, child.value, shares[n], path, cls, mgr, depth);
      }
    }
  }

  /** Expanding the pruned graph gives a selected holding the same lots. */
  lemma PruningKeepsLots(data: RiskData, ids: set<string>, reach: set<string>, h: Holding, depth: nat)
    requires IsReach(data.links, Roots(ScopedPositions(data, ids)), reach)
    requires h.id in ids && h.valueCents >= 0
    ensures HoldingLots(Pruned(data, ids, reach), h, depth) == HoldingLots(data, h, depth)
  {
    hide Expand, Emit, IsReach;
    var roots := Roots(ScopedPositions(data, ids));
    ReachIsClosed(data.links, roots, reach);
    SamePosition(data.positions, ids, h.id);
    var position := FindPosition(data.positions, h.id);
    if position.Some? {
      var p :| p in data.positions && p.holdingId == h.id && p.nodeId == position.value;
      assert p in ScopedPositions(data, ids);
      SameNode(data.nodes, reach, position.value);
      var root := FindNode(data.nodes, position.value);
      if root.Some? {
        SameExpansion(data, ids, reach, h, root.value, h.valueCents, [], h.assetClass, h.manager, depth);
      }
    }
  }

  lemma {:induction false} PruningKeepsPortfolio(data: RiskData, ids: set<string>, reach: set<string>,
                                                 holdings: seq<Holding>, depth: nat)
    requires IsReach(data.links, Roots(ScopedPositions(data, ids)), reach)
    requires forall h :: h in holdings ==> HoldingOk(h) && h.id in ids
    ensures PortfolioLots(Pruned(data, ids, reach), holdings, depth) == PortfolioLots(data, holdings, depth)
  {
    hide HoldingLots, IsReach, Pruned;
    if |holdings| > 0 {
      var n := |holdings| - 1;
      PruningKeepsPortfolio(data, ids, reach, holdings[..n], depth);
      assert holdings[n] in holdings && HoldingOk(holdings[n]);
      PruningKeepsLots(data, ids, reach, holdings[n], depth);
    }
  }

  // --- The pruned graph is still accepted ----------------------------------------

  lemma PrunedNodesDistinct(data: RiskData, ids: set<string>, reach: set<string>)
    requires Distinct(NodeIds(data.nodes))
    ensures Distinct(NodeIds(Pruned(data, ids, reach).nodes))
  {
    hide Filter;
    assert forall i :: 0 <= i < |data.nodes| ==> NodeIds(data.nodes)[i] == data.nodes[i].id;
    FilterDistinctBy(data.nodes, (n: RiskNode) => n.id in reach, (n: RiskNode) => n.id);
  }

  lemma PrunedLinksDistinct(data: RiskData, ids: set<string>, reach: set<string>)
    requires Distinct(LinkIds(data.links)) && Distinct(LinkPairs(data.links))
    ensures var links := Pruned(data, ids, reach).links; Distinct(LinkIds(links)) && Distinct(LinkPairs(links))
  {
    hide Filter;
    assert forall i :: 0 <= i < |data.links| ==> LinkIds(data.links)[i] == data.links[i].id;
    assert forall i :: 0 <= i < |data.links| ==>
             LinkPairs(data.links)[i] == (data.links[i].parentId, data.links[i].childId);
    var kept := (l: RiskLink) => l.parentId in reach && l.childId in reach;
    FilterDistinctBy(data.links, kept, (l: RiskLink) => l.id);
    FilterDistinctBy(data.links, kept, (l: RiskLink) => (l.parentId, l.childId));
    FilterEq(data.links, kept, (l: RiskLink) => l.parentId in reach && l.childId in reach);
  }

  lemma PrunedPositionsDistinct(data: RiskData, ids: set<string>, reach: set<string>)
    requires Distinct(HoldingIds(data.positions))
    ensures Distinct(HoldingIds(Pruned(data, ids, reach).positions))
  {
    hide Filter;
    assert forall i :: 0 <= i < |data.positions| ==> HoldingIds(data.positions)[i] == data.positions[i].holdingId;
    FilterDistinctBy(data.positions, (p: Position) => p.holdingId in ids, (p: Position) => p.holdingId);
  }

  lemma PrunedWellFormed(data: RiskData, ids: set<string>, reach: set<string>)
    requires WellFormed(data) && ClosedUnder(data.links, reach) && Roots(ScopedPositions(data, ids)) <= reach
    ensures WellFormed(Pruned(data, ids, reach))
  {
    var s := Pruned(data, ids, reach);
    PrunedNodesDistinct(data, ids, reach);
    PrunedLinksDistinct(data, ids, reach);
    PrunedPositionsDistinct(data, ids, reach);
    forall l | l in s.links
      ensures HasFund(s, l.parentId) && HasNode(s, l.childId)
      ensures WeightSum(Children(s.links, l.parentId)) <= 1.0 + WEIGHT_TOLERANCE
    {
      var n :| n in data.nodes && n.id == l.parentId && n.kind == Fund;
      assert n in s.nodes;
      var m :| m in data.nodes && m.id == l.childId;
      assert m in s.nodes;
      SameChildren(data.links, reach, l.parentId);
    }
    forall p | p in s.positions ensures HasNode(s, p.nodeId) {
      assert HasNode(data, p.nodeId);
      var n :| n in data.nodes && n.id == p.nodeId;
      assert n in s.nodes;
    }
  }

  lemma PrunedWalks(data: RiskData, ids: set<string>, reach: set<string>, p: seq<string>)
    requires IsWalk(Pruned(data, ids, reach).links, p)
    ensures IsWalk(data.links, p)
  {
    var s := Pruned(data, ids, reach);
    forall i | 0 <= i < |p| - 1 ensures Edge(data.links, p[i], p[i + 1]) {
      assert Edge(s.links, p[i], p[i + 1]);
    }
  }

  lemma {:induction false} SamePaths(data: RiskData, ids: set<string>, reach: set<string>, id: string, h: nat)
    requires ClosedUnder(data.links, reach) && id in reach
    ensures Paths(Pruned(data, ids, reach).links, id, h) == Paths(data.links, id, h)
    decreases h, 0, 0
  {
    hide *;
    PathsUnfold(data.links, id, h);
    PathsUnfold(Pruned(data, ids, reach).links, id, h);
    if h > 0 {
      PrunedChildren(data, ids, reach, id);
      ChildrenReached(data.links, reach, id);
      SamePathsBelow(data, ids, reach, Children(data.links, id), h - 1);
    }
  }

  lemma PrunedChildren(data: RiskData, ids: set<string>, reach: set<string>, id: string)
    requires ClosedUnder(data.links, reach) && id in reach
    ensures Children(Pruned(data, ids, reach).links, id) == Children(data.links, id)
  {
    hide Children, Filter;
    SameChildren(data.links, reach, id);
  }

  lemma ChildrenReached(links: seq<RiskLink>, reach: set<string>, id: string)
    requires ClosedUnder(links, reach) && id in reach
    ensures forall l :: l in Children(links, id) ==> l.childId in reach
  {
  }

  lemma {:induction false} SamePathsBelow(data: RiskData, ids: set<string>, reach: set<string>,
                                          kids: seq<RiskLink>, h: nat)
    requires ClosedUnder(data.links, reach) && forall l :: l in kids ==> l.childId in reach
    ensures PathsBelow(Pruned(data, ids, reach).links, kids, h) == PathsBelow(data.links, kids, h)
    decreases h, 1, |kids|
  {
    if |kids| > 0 {
      SamePathsBelow(data, ids, reach, kids[..|kids| - 1], h);
      SamePaths(data, ids, reach, kids[|kids| - 1].childId, h);
    }
  }

  lemma {:induction false} FilterSumLe<T(!new)>(xs: seq<T>, p: T -> bool, f: T -> int)
    requires forall x :: x in xs ==> f(x) >= 0
    ensures SumBy(Filter(xs, p), f) <= SumBy(xs, f)
  {
    if |xs| > 0 {
      var front, x := xs[..|xs| - 1], xs[|xs| - 1];
      FilterSumLe(front, p, f);
      if p(x) { SumBySnoc(Filter(front, p), x, f); }
    }
  }

  lemma PrunedPathsFewer(data: RiskData, ids: set<string>, reach: set<string>, depth: nat)
    requires ClosedUnder(data.links, reach) && Roots(ScopedPositions(data, ids)) <= reach
    ensures SumBy(Pruned(data, ids, reach).positions,
                  (p: Position) => Paths(Pruned(data, ids, reach).links, p.nodeId, depth))
            <= SumBy(data.positions, (p: Position) => Paths(data.links, p.nodeId, depth))
  {
    var s := Pruned(data, ids, reach);
    var f := (p: Position) => Paths(data.links, p.nodeId, depth);
    var g := (p: Position) => Paths(s.links, p.nodeId, depth);
    forall p | p in s.positions ensures f(p) == g(p) {
      assert p.nodeId in Roots(ScopedPositions(data, ids));
      SamePaths(data, ids, reach, p.nodeId, depth);
    }
    SumByEq(s.positions, f, g);
    FilterSumLe(data.positions, (p: Position) => p.holdingId in ids, f);
    SumByEq(data.positions, f, (p: Position) => Paths(data.links, p.nodeId, depth));
    SumByEq(s.positions, g, (p: Position) => Paths(Pruned(data, ids, reach).links, p.nodeId, depth));
  }

  /** Pruning an accepted graph leaves an accepted graph. */
  lemma PruningKeepsAcceptance(data: RiskData, ids: set<string>, reach: set<string>, depth: nat)
    requires Accepted(data) && depth == MAX_DEPTH
    requires IsReach(data.links, Roots(ScopedPositions(data, ids)), reach)
    ensures Accepted(Pruned(data, ids, reach))
  {
    hide Paths, IsReach, Pruned;
    var s := Pruned(data, ids, reach);
    ReachIsClosed(data.links, Roots(ScopedPositions(data, ids)), reach);
    PrunedWellFormed(data, ids, reach);
    forall p | IsWalk(s.links, p) ensures |p| <= MAX_DEPTH {
      PrunedWalks(data, ids, reach, p);
    }
    PrunedPathsFewer(data, ids, reach, depth);
    SumByEq(s.positions, (p: Position) => Paths(Pruned(data, ids, reach).links, p.nodeId, depth),
            (p: Position) => PathCount(s.links, p.nodeId));
    SumByEq(data.positions, (p: Position) => Paths(data.links, p.nodeId, depth),
            (p: Position) => PathCount(data.links, p.nodeId));
  }
}
