/**
 The ownership graph that maps holdings to what they own, and the declarative
 meaning of "this graph is accepted" (lib/risk-contract.ts).

 A link's weight is a share of its parent's NAV; a missing weight is undisclosed.
 */
module RiskContract {
  import opened Common

  datatype NodeKind = Fund | Asset

  datatype RiskNode = RiskNode(
    id: string,
    kind: NodeKind,
    assetClass: Option<string>,
    issuerId: Option<string>,
    managerId: Option<string>,
    sector: Option<string>,
    country: Option<string>,
    currency: Option<string>
  )

  datatype RiskLink = RiskLink(id: string, parentId: string, childId: string, weight: Option<real>)

  datatype Position = Position(holdingId: string, nodeId: string)

  datatype RiskData = RiskData(nodes: seq<RiskNode>, links: seq<RiskLink>, positions: seq<Position>)

  const MAX_DEPTH: nat := 20
  const MAX_PATHS: nat := 20000
  const MAX_NODES: nat := 400
  const MAX_LINKS: nat := 800
  const MAX_POSITIONS: nat := 200
  const WEIGHT_TOLERANCE: real := 0.0000000001

  /** Shape that the schema checks before the refinement looks at the graph. */
  ghost predicate Shaped(data: RiskData) {
    forall l :: l in data.links ==> WeightOf(l) >= 0.0 && WeightOf(l) <= 1.0
  }

  function WeightOf(l: RiskLink): real {
    if l.weight.Some? then l.weight.value else 0.0
  }

  function WeightSum(links: seq<RiskLink>): real {
    if |links| == 0 then 0.0 else WeightSum(links[..|links| - 1]) + WeightOf(links[|links| - 1])
  }

  /** The links that leave one node, in file order. */
  function Children(links: seq<RiskLink>, id: string): seq<RiskLink> {
    Filter(links, (l: RiskLink) => l.parentId == id)
  }

  function NodeIds(nodes: seq<RiskNode>): (r: seq<string>)
    ensures |r| == |nodes| && forall i :: 0 <= i < |nodes| ==> r[i] == nodes[i].id
  {
    seq(|nodes|, i requires 0 <= i < |nodes| => nodes[i].id)
  }

  function LinkIds(links: seq<RiskLink>): (r: seq<string>)
    ensures |r| == |links| && forall i :: 0 <= i < |links| ==> r[i] == links[i].id
  {
    seq(|links|, i requires 0 <= i < |links| => links[i].id)
  }

  function LinkPairs(links: seq<RiskLink>): (r: seq<(string, string)>)
    ensures |r| == |links| && forall i :: 0 <= i < |links| ==> r[i] == (links[i].parentId, links[i].childId)
  {
    seq(|links|, i requires 0 <= i < |links| => (links[i].parentId, links[i].childId))
  }

  function HoldingIds(positions: seq<Position>): (r: seq<string>)
    ensures |r| == |positions| && forall i :: 0 <= i < |positions| ==> r[i] == positions[i].holdingId
  {
    seq(|positions|, i requires 0 <= i < |positions| => positions[i].holdingId)
  }

  ghost predicate HasNode(data: RiskData, id: string) {
    exists n :: n in data.nodes && n.id == id
  }

  ghost predicate HasFund(data: RiskData, id: string) {
    exists n :: n in data.nodes && n.id == id && n.kind == Fund
  }

  // --- Walks ---------------------------------------------------------------

  ghost predicate Edge(links: seq<RiskLink>, a: string, b: string) {
    exists l :: l in links && l.parentId == a && l.childId == b
  }

  /** A non-empty list of nodes, each owning the next. */
  ghost predicate IsWalk(links: seq<RiskLink>, p: seq<string>) {
    |p| >= 1 && forall i :: 0 <= i < |p| - 1 ==> Edge(links, p[i], p[i + 1])
  }

  /** No walk from `id` visits more than `h` nodes. */
  ghost predicate WalkBound(links: seq<RiskLink>, id: string, h: nat) {
    forall p :: IsWalk(links, p) && p[0] == id ==> |p| <= h
  }

  ghost predicate ClosedWalk(links: seq<RiskLink>, p: seq<string>) {
    IsWalk(links, p) && |p| >= 2 && p[0] == p[|p| - 1]
  }

  ghost predicate HasCycle(links: seq<RiskLink>) {
    exists p :: ClosedWalk(links, p)
  }

  /** Number of positive-weight walks from `id` with at most `h` nodes. */
  function Paths(links: seq<RiskLink>, id: string, h: nat): (r: nat)
    decreases h, 0, 0
  {
    if h == 0 then 0 else 1 + PathsBelow(links, Children(links, id), h - 1)
  }

  function PathsBelow(links: seq<RiskLink>, kids: seq<RiskLink>, h: nat): (r: nat)
    decreases h, 1, |kids|
  {
    if |kids| == 0 then 0
    else
      var last := kids[|kids| - 1];
      PathsBelow(links, kids[..|kids| - 1], h) + (if WeightOf(last) > 0.0 then Paths(links, last.childId, h) else 0)
  }

  /** In an accepted graph no walk is longer than MAX_DEPTH, so this counts all of them. */
  function PathCount(links: seq<RiskLink>, id: string): nat {
    Paths(links, id, MAX_DEPTH)
  }

  function TotalPaths(data: RiskData): int {
    SumBy(data.positions, (p: Position) => PathCount(data.links, p.nodeId))
  }

  /** What an accepted graph is, without reference to how it is checked. */
  ghost predicate Accepted(data: RiskData) {
    && WellFormed(data)
    && (forall p :: IsWalk(data.links, p) ==> |p| <= MAX_DEPTH)
    && TotalPaths(data) <= MAX_PATHS
  }

  ghost predicate WellFormed(data: RiskData) {
    && Distinct(NodeIds(data.nodes))
    && Distinct(LinkIds(data.links))
    && Distinct(HoldingIds(data.positions))
    && Distinct(LinkPairs(data.links))
    && (forall l :: l in data.links ==> HasFund(data, l.parentId) && HasNode(data, l.childId))
    && (forall l :: l in data.links ==> WeightSum(Children(data.links, l.parentId)) <= 1.0 + WEIGHT_TOLERANCE)
    && (forall p :: p in data.positions ==> HasNode(data, p.nodeId))
  }

  // --- Facts about walks ---------------------------------------------------

  lemma WalkTail(links: seq<RiskLink>, p: seq<string>)
    requires IsWalk(links, p) && |p| >= 2
    ensures IsWalk(links, p[1..]) && Edge(links, p[0], p[1])
  {
    forall i | 0 <= i < |p[1..]| - 1 ensures Edge(links, p[1..][i], p[1..][i + 1]) {
      assert Edge(links, p[i + 1], p[i + 2]);
    }
  }

  lemma WalkCons(links: seq<RiskLink>, id: string, p: seq<string>)
    requires IsWalk(links, p) && Edge(links, id, p[0])
    ensures IsWalk(links, [id] + p)
  {
    var q := [id] + p;
    forall i | 0 <= i < |q| - 1 ensures Edge(links, q[i], q[i + 1]) {
      if i > 0 { assert Edge(links, p[i - 1], p[i]); }
    }
  }

  lemma WalkSnoc(links: seq<RiskLink>, p: seq<string>, id: string)
    requires IsWalk(links, p) && Edge(links, p[|p| - 1], id)
    ensures IsWalk(links, p + [id])
  {
    var q := p + [id];
    forall i | 0 <= i < |q| - 1 ensures Edge(links, q[i], q[i + 1]) {
      if i < |p| - 1 { assert Edge(links, p[i], p[i + 1]); }
    }
  }

  lemma WalkJoin(links: seq<RiskLink>, p: seq<string>, q: seq<string>)
    requires IsWalk(links, p) && IsWalk(links, q) && Edge(links, p[|p| - 1], q[0])
    ensures IsWalk(links, p + q)
  {
    var r := p + q;
    forall i | 0 <= i < |r| - 1 ensures Edge(links, r[i], r[i + 1]) {
      if i < |p| - 1 {
        assert Edge(links, p[i], p[i + 1]);
      } else if i >= |p| {
        assert Edge(links, q[i - |p|], q[i - |p| + 1]);
      }
    }
  }

  /** A cycle can be walked round as often as wanted: no depth limit holds. */
  lemma {:induction false} CycleUnbounded(links: seq<RiskLink>, p: seq<string>, n: nat) returns (w: seq<string>)
    requires ClosedWalk(links, p)
    ensures IsWalk(links, w) && |w| > n && w[0] == p[0] && w[|w| - 1] == p[0]
  {
    if n == 0 {
      w := p;
    } else {
      var shorter := CycleUnbounded(links, p, n - 1);
      WalkTail(links, p);
      WalkJoin(links, shorter, p[1..]);
      w := shorter + p[1..];
    }
  }

  /** A limit on the length of all walks rules out cycles. */
  lemma BoundedIsAcyclic(links: seq<RiskLink>, h: nat)
    requires forall p :: IsWalk(links, p) ==> |p| <= h
    ensures !HasCycle(links)
  {
    if HasCycle(links) {
      var p :| ClosedWalk(links, p);
      var w := CycleUnbounded(links, p, h);
      assert false;
    }
  }

  /** Going one link down leaves a smaller bound. */
  lemma WalkBoundChild(links: seq<RiskLink>, id: string, h: nat, child: string)
    requires WalkBound(links, id, h) && Edge(links, id, child)
    ensures h >= 2 && WalkBound(links, child, h - 1)
  {
    assert IsWalk(links, [child]);
    WalkCons(links, id, [child]);
    assert |[id] + [child]| <= h;
    forall p | IsWalk(links, p) && p[0] == child ensures |p| <= h - 1 {
      WalkCons(links, id, p);
      assert ([id] + p)[0] == id;
    }
  }

  lemma ChildEdge(links: seq<RiskLink>, id: string, l: RiskLink)
    requires l in Children(links, id)
    ensures l in links && l.parentId == id && Edge(links, id, l.childId)
  {
  }

  /** Once every walk fits, a larger allowance counts no further paths. */
  lemma {:induction false} PathsStable(links: seq<RiskLink>, id: string, h: nat, k: nat)
    requires WalkBound(links, id, h) && h <= k
    ensures Paths(links, id, h) == Paths(links, id, k)
    decreases h, 0, 0
  {
    hide *;
    PathsUnfold(links, id, h);
    PathsUnfold(links, id, k);
    BoundPositive(links, id, h);
    var kids := Children(links, id);
    forall l | l in kids ensures h >= 2 && WalkBound(links, l.childId, h - 1) {
      ChildEdge(links, id, l);
      WalkBoundChild(links, id, h, l.childId);
    }
    PathsBelowStable(links, kids, h - 1, k - 1);
  }

  lemma BoundPositive(links: seq<RiskLink>, id: string, h: nat)
    requires WalkBound(links, id, h)
    ensures h >= 1
  {
    assert IsWalk(links, [id]) && [id][0] == id;
  }

  lemma PathsUnfold(links: seq<RiskLink>, id: string, h: nat)
    ensures Paths(links, id, h) == if h == 0 then 0 else 1 + PathsBelow(links, Children(links, id), h - 1)
  {
    hide PathsBelow, Children;
  }

  lemma {:induction false} PathsBelowStable(links: seq<RiskLink>, kids: seq<RiskLink>, h: nat, k: nat)
    requires forall l :: l in kids ==> WalkBound(links, l.childId, h)
    requires h <= k
    ensures PathsBelow(links, kids, h) == PathsBelow(links, kids, k)
    decreases h, 1, |kids|
  {
    if |kids| > 0 {
      PathsBelowStable(links, kids[..|kids| - 1], h, k);
      PathsStable(links, kids[|kids| - 1].childId, h, k);
    }
  }
}
