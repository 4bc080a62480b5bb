/**
 The graph refinement of `riskDataSchema` (lib/risk-contract.ts): static checks, a
 depth-first search that memoises the longest descent and notices cycles, and a
 saturating count of positive-weight paths.  It accepts exactly the graphs that
 `RiskContract.Accepted` describes.
 */
module RiskValidator {
  import opened Common
  import opened RiskContract

  datatype Issue =
    | DuplicateNode
    | DuplicateLink
    | DuplicateHolding
    | MissingNode
    | ChildOfAsset
    | DuplicatePair
    | OverWeight
    | MissingRoot
    | TooDeep
    | Cyclic
    | TooManyPaths

  const SATURATED: nat := MAX_PATHS + 1

  class Validator {
    const data: RiskData
    var issues: seq<Issue>
    var nodes: map<string, RiskNode>
    var children: map<string, seq<RiskLink>>
    var memo: map<string, nat>
    var visiting: set<string>
    var cycle: bool
    var counts: map<string, nat>

    constructor (data: RiskData)
      ensures this.data == data && issues == [] && memo == map[] && visiting == {} && !cycle
      ensures nodes == map[] && children == map[] && counts == map[]
    {
      this.data := data;
      issues, nodes, children := [], map[], map[];
      memo, visiting, cycle, counts := map[], {}, false, map[];
    }

    // --- Static checks -----------------------------------------------------

    ghost predicate NodesIndexed()
      reads this`nodes
    {
      && (forall id :: id in nodes ==> nodes[id] in data.nodes && nodes[id].id == id)
      && (forall n :: n in data.nodes ==> n.id in nodes)
    }

    ghost predicate ChildrenIndexed(upTo: nat)
      reads this`children
      requires upTo <= |data.links|
    {
      forall id :: Kids(id) == Children(data.links[..upTo], id)
    }

    /** `children.get(id) ?? []` */
    function Kids(id: string): seq<RiskLink>
      reads this`children
    {
      if id in children then children[id] else []
    }

    /** The three "used twice" checks, each a comparison of a set's size with a list's. */
    ghost predicate Unique()
    {
      Distinct(NodeIds(data.nodes)) && Distinct(LinkIds(data.links)) && Distinct(HoldingIds(data.positions))
    }

    method CheckShape()
      requires nodes == map[] && children == map[] && issues == []
      modifies this`issues, this`nodes, this`children
      ensures NodesIndexed() && ChildrenIndexed(|data.links|)
      ensures issues == [] <==> WellFormed(data)
      ensures (MissingNode !in issues && MissingRoot !in issues) ==> Closed(data)
    {
      IndexNodes();
      CheckUnique();
      IndexLinks();
      CheckWeights();
      CheckRoots();
      ShapeMeaning();
    }

    lemma ShapeMeaning()
      requires NodesIndexed()
      ensures forall id :: id in nodes <==> HasNode(data, id)
      ensures Unique() ==> forall l: RiskLink :: LinkFits(l) <==> HasFund(data, l.parentId) && HasNode(data, l.childId)
    {
      if Unique() {
        forall l: RiskLink ensures LinkFits(l) <==> HasFund(data, l.parentId) && HasNode(data, l.childId) {
          if HasFund(data, l.parentId) && l.parentId in nodes {
            var n :| n in data.nodes && n.id == l.parentId && n.kind == Fund;
            SameNode(n, nodes[l.parentId]);
          }
        }
      }
    }

    lemma SameNode(n: RiskNode, m: RiskNode)
      requires Distinct(NodeIds(data.nodes)) && n in data.nodes && m in data.nodes && n.id == m.id
      ensures n == m
    {
      var i :| 0 <= i < |data.nodes| && data.nodes[i] == n;
      var j :| 0 <= j < |data.nodes| && data.nodes[j] == m;
      assert NodeIds(data.nodes)[i] == NodeIds(data.nodes)[j];
    }

    method IndexNodes()
      requires nodes == map[] && issues == []
      modifies this`issues, this`nodes
      ensures NodesIndexed()
      ensures issues == if Distinct(NodeIds(data.nodes)) then [] else [DuplicateNode]
    {
      var i := 0;
      while i < |data.nodes|
        invariant 0 <= i <= |data.nodes|
        invariant IndexedUpTo(i) && issues == []
      {
        PushNode(i, data.nodes[i]);
        i := i + 1;
      }
      IndexComplete();
      if |nodes| != |data.nodes| { issues := issues + [DuplicateNode]; }
    }

    ghost predicate IndexedUpTo(i: nat)
      requires i <= |data.nodes|
      reads this`nodes
    {
      && (forall id :: id in nodes ==> nodes[id] in data.nodes && nodes[id].id == id)
      && nodes.Keys == ToSet(NodeIds(data.nodes)[..i])
    }

    method PushNode(ghost i: nat, n: RiskNode)
      requires i < |data.nodes| && n == data.nodes[i] && IndexedUpTo(i)
      modifies this`nodes
      ensures IndexedUpTo(i + 1)
    {
      ToSetSnoc(NodeIds(data.nodes), i);
      nodes := nodes[n.id := n];
    }

    lemma IndexComplete()
      requires IndexedUpTo(|data.nodes|)
      ensures NodesIndexed()
      ensures |nodes| == |data.nodes| <==> Distinct(NodeIds(data.nodes))
    {
      var ids := NodeIds(data.nodes);
      assert ids[..|data.nodes|] == ids;
      DistinctByCount(ids);
      assert |nodes| == |nodes.Keys|;
      forall n | n in data.nodes ensures n.id in nodes {
        var j :| 0 <= j < |data.nodes| && data.nodes[j] == n;
        assert ids[j] in ids;
      }
    }

    method CheckUnique()
      requires issues == if Distinct(NodeIds(data.nodes)) then [] else [DuplicateNode]
      modifies this`issues
      ensures issues == [] <==> Unique()
    {
      var links := LinkIds(data.links);
      DistinctByCount(links);
      if |ToSet(links)| != |links| { issues := issues + [DuplicateLink]; }
      var holdings := HoldingIds(data.positions);
      DistinctByCount(holdings);
      if |ToSet(holdings)| != |holdings| { issues := issues + [DuplicateHolding]; }
    }

    ghost predicate LinkFits(l: RiskLink)
      reads this`nodes
    {
      l.parentId in nodes && l.childId in nodes && nodes[l.parentId].kind == Fund
    }

    method IndexLinks()
      requires NodesIndexed() && children == map[]
      modifies this`issues, this`children
      ensures ChildrenIndexed(|data.links|)
      ensures issues == [] <==>
                old(issues) == [] && Distinct(LinkPairs(data.links)) && forall l :: l in data.links ==> LinkFits(l)
      ensures MissingNode !in issues ==> forall l :: l in data.links ==> LinkKnown(l)
    {
      var pairs: set<(string, string)> := {};
      ghost var clean := issues == [];
      var i := 0;
      NothingIndexed(clean);
      hide LinksChecked, ChildrenIndexed, NodesIndexed, LinkFits;
      while i < |data.links|
        invariant 0 <= i <= |data.links|
        invariant ChildrenIndexed(i)
        invariant LinksChecked(i, clean, pairs)
      {
        pairs := IndexLink(i, data.links[i], clean, pairs);
        i := i + 1;
      }
      AllLinksChecked(clean, pairs);
    }

    lemma NothingIndexed(clean: bool)
      requires children == map[] && clean == (issues == [])
      ensures ChildrenIndexed(0) && LinksChecked(0, clean, {})
    {
    }

    lemma AllLinksChecked(clean: bool, pairs: set<(string, string)>)
      requires LinksChecked(|data.links|, clean, pairs)
      ensures issues == [] <==> clean && Distinct(LinkPairs(data.links)) && forall l :: l in data.links ==> LinkFits(l)
      ensures MissingNode !in issues ==> forall l :: l in data.links ==> LinkKnown(l)
    {
      assert LinkPairs(data.links)[..|data.links|] == LinkPairs(data.links);
    }

    ghost predicate LinksChecked(i: nat, clean: bool, pairs: set<(string, string)>)
      requires i <= |data.links|
      reads this`issues, this`nodes
    {
      && pairs == ToSet(LinkPairs(data.links)[..i])
      && (issues == [] <==>
          clean && Distinct(LinkPairs(data.links)[..i]) && forall j :: 0 <= j < i ==> LinkFits(data.links[j]))
      && (MissingNode !in issues ==> forall j :: 0 <= j < i ==> LinkKnown(data.links[j]))
    }

    method IndexLink(ghost i: nat, link: RiskLink, ghost clean: bool, pairs: set<(string, string)>)
      returns (pairs': set<(string, string)>)
      requires i < |data.links| && link == data.links[i]
      requires ChildrenIndexed(i) && LinksChecked(i, clean, pairs)
      modifies this`issues, this`children
      ensures ChildrenIndexed(i + 1) && LinksChecked(i + 1, clean, pairs')
    {
      CheckLink(link, pairs);
      ghost var all := LinkPairs(data.links);
      ToSetSnoc(all, i);
      DistinctSnoc(all[..i], all[i]);
      pairs' := pairs + {(link.parentId, link.childId)};
      PushChild(i, link);
    }

    predicate LinkKnown(l: RiskLink)
      reads this`nodes
    {
      l.parentId in nodes && l.childId in nodes
    }

    method CheckLink(link: RiskLink, pairs: set<(string, string)>)
      modifies this`issues
      ensures issues == [] <==> old(issues) == [] && LinkFits(link) && (link.parentId, link.childId) !in pairs
      ensures MissingNode in issues <==> MissingNode in old(issues) || !LinkKnown(link)
    {
      if !LinkKnown(link) { issues := issues + [MissingNode]; }
      if link.parentId !in nodes || nodes[link.parentId].kind != Fund { issues := issues + [ChildOfAsset]; }
      if (link.parentId, link.childId) in pairs { issues := issues + [DuplicatePair]; }
    }

    method PushChild(ghost i: nat, link: RiskLink)
      requires i < |data.links| && link == data.links[i] && ChildrenIndexed(i)
      modifies this`children
      ensures ChildrenIndexed(i + 1)
    {
      assert data.links[..i + 1] == data.links[..i] + [link];
      forall id ensures Children(data.links[..i + 1], id) ==
                        Children(data.links[..i], id) + (if link.parentId == id then [link] else [])
      {
        FilterSnoc(data.links[..i], link, (l: RiskLink) => l.parentId == id);
      }
      assert forall id :: Kids(id) == Children(data.links[..i], id);
      var rows := (if link.parentId in children then children[link.parentId] else []) + [link];
      assert Kids(link.parentId) + [link] == rows;
      label L:
      children := children[link.parentId := rows];
      forall id ensures Kids(id) == Children(data.links[..i + 1], id) {
        assert old@L(Kids(id)) == Children(data.links[..i], id);
      }
    }

    method CheckWeights()
      requires ChildrenIndexed(|data.links|)
      modifies this`issues
      ensures issues == [] <==>
                old(issues) == [] &&
                forall l :: l in data.links ==> WeightSum(Children(data.links, l.parentId)) <= 1.0 + WEIGHT_TOLERANCE
      ensures MissingNode in issues <==> MissingNode in old(issues)
    {
      assert data.links[..|data.links|] == data.links;
      var pending := children.Keys;
      while pending != {}
        invariant pending <= children.Keys
        invariant issues == [] <==>
                    old(issues) == [] &&
                    forall id :: id in children.Keys - pending ==> WeightSum(children[id]) <= 1.0 + WEIGHT_TOLERANCE
        invariant MissingNode in issues <==> MissingNode in old(issues)
        decreases pending
      {
        var id :| id in pending;
        pending := pending - {id};
        if WeightSum(children[id]) > 1.0 + WEIGHT_TOLERANCE { issues := issues + [OverWeight]; }
      }
      if forall id :: id in children ==> WeightSum(children[id]) <= 1.0 + WEIGHT_TOLERANCE {
        forall l | l in data.links ensures WeightSum(Children(data.links, l.parentId)) <= 1.0 + WEIGHT_TOLERANCE {
          assert l in Children(data.links, l.parentId);
          assert Kids(l.parentId) == Children(data.links, l.parentId);
        }
      } else {
        var id :| id in children && WeightSum(children[id]) > 1.0 + WEIGHT_TOLERANCE;
        assert Kids(id) == Children(data.links, id);
        assert children[id] != [];
        var l := children[id][0];
        assert l in data.links && l.parentId == id;
      }
    }

    method CheckRoots()
      requires NodesIndexed()
      modifies this`issues
      ensures issues == [] <==> old(issues) == [] && forall p :: p in data.positions ==> p.nodeId in nodes
      ensures MissingNode in issues <==> MissingNode in old(issues)
      ensures MissingRoot !in issues ==> forall p :: p in data.positions ==> p.nodeId in nodes
    {
      var i := 0;
      while i < |data.positions|
        invariant 0 <= i <= |data.positions|
        invariant issues == [] <==> old(issues) == [] && forall j :: 0 <= j < i ==> data.positions[j].nodeId in nodes
        invariant MissingNode in issues <==> MissingNode in old(issues)
        invariant MissingRoot !in issues ==> forall j :: 0 <= j < i ==> data.positions[j].nodeId in nodes
      {
        if data.positions[i].nodeId !in nodes { issues := issues + [MissingRoot]; }
        i := i + 1;
      }
    }

    // --- Depth-first search ------------------------------------------------

    /** Every id the search can meet. */
    ghost function Universe(): set<string> {
      (set n | n in data.nodes :: n.id) + (set l | l in data.links :: l.childId)
    }

    /** What the search knows, and that its stack is a walk ending at `top`'s caller. */
    ghost predicate Searching(stack: seq<string>)
      reads this`children, this`memo, this`visiting, this`cycle
    {
      && ChildrenIndexed(|data.links|)
      && (forall v :: v in visiting <==> v in stack)
      && (stack == [] || IsWalk(data.links, stack))
      && memo.Keys !! visiting
      && (cycle ==> HasCycle(data.links))
      && Realised()
      && (!cycle ==> Settled())
    }

    /** Each memoised depth is the length of an actual walk. */
    ghost predicate Realised()
      reads this`memo
    {
      forall n :: n in memo ==> exists p :: IsWalk(data.links, p) && p[0] == n && |p| == memo[n]
    }

    /** The memo is closed downwards and strictly decreasing along links. */
    ghost predicate Settled()
      reads this`memo
    {
      forall n, c :: n in memo && Edge(data.links, n, c) ==> c in memo && memo[c] < memo[n]
    }

    method Depth(id: string, ghost stack: seq<string>) returns (value: nat, ghost walk: seq<string>)
      requires id in Universe() && visiting <= Universe()
      requires Searching(stack)
      requires stack == [] || Edge(data.links, stack[|stack| - 1], id)
      modifies this`memo, this`visiting, this`cycle
      ensures Searching(stack) && visiting == old(visiting)
      ensures old(cycle) ==> cycle
      ensures Extends(memo, old(memo))
      ensures !cycle ==> id in memo && memo[id] == value
      ensures value > 0 ==> IsWalk(data.links, walk) && walk[0] == id && |walk| == value
      decreases Universe() - visiting, 0
    {
      if id in visiting {
        StackClosesCycle(stack, id);
        cycle := true;
        return 0, [];
      }
      if id in memo {
        ghost var p :| IsWalk(data.links, p) && p[0] == id && |p| == memo[id];
        return memo[id], p;
      }
      if stack != [] { WalkSnoc(data.links, stack, id); } else { assert IsWalk(data.links, [id]); }
      visiting := visiting + {id};
      assert data.links[..|data.links|] == data.links;
      var best;
      best, walk := DeepestChild(id, stack + [id]);
      value := 1 + best;
      Remember(id, value, stack, walk);
    }

    /** The node leaves the stack and its depth enters the memo. */
    method Remember(id: string, value: nat, ghost stack: seq<string>, ghost walk: seq<string>)
      requires Searching(stack + [id]) && id !in stack && (stack == [] || IsWalk(data.links, stack))
      requires IsWalk(data.links, walk) && walk[0] == id && |walk| == value
      requires !cycle ==> forall c :: Edge(data.links, id, c) ==> c in memo && memo[c] < value
      modifies this`memo, this`visiting
      ensures Searching(stack)
      ensures visiting == old(visiting) - {id} && memo == old(memo)[id := value]
    {
      hide IsWalk, Edge, HasCycle, ChildrenIndexed;
      assert id in visiting && forall v :: v in stack + [id] <==> v in stack || v == id;
      visiting := visiting - {id};
      memo := memo[id := value];
    }

    /** `Math.max(0, ...children.map(depth))` for the node on top of the stack. */
    method DeepestChild(id: string, ghost stack: seq<string>) returns (best: nat, ghost walk: seq<string>)
      requires visiting <= Universe() && id in visiting
      requires Searching(stack) && stack != [] && stack[|stack| - 1] == id
      modifies this`memo, this`visiting, this`cycle
      ensures Searching(stack) && visiting == old(visiting)
      ensures old(cycle) ==> cycle
      ensures Extends(memo, old(memo))
      ensures !cycle ==> forall c :: Edge(data.links, id, c) ==> c in memo && memo[c] <= best
      ensures IsWalk(data.links, walk) && walk[0] == id && |walk| == best + 1
      decreases Universe() - visiting, 2
    {
      best, walk := 0, [id];
      var kids := Kids(id);
      assert data.links[..|data.links|] == data.links;
      assert IsWalk(data.links, [id]) && kids == Children(data.links, id);
      hide Searching, IsWalk, Edge, Children, Universe;
      var i := 0;
      while i < |kids|
        invariant 0 <= i <= |kids|
        invariant Searching(stack) && visiting == old(visiting)
        invariant old(cycle) ==> cycle
        invariant Extends(memo, old(memo))
        invariant !cycle ==> Measured(memo, kids[..i], best)
        invariant IsWalk(data.links, walk) && walk[0] == id && |walk| == best + 1
      {
        assert kids[..i + 1] == kids[..i] + [kids[i]];
        best, walk := DeeperChild(id, kids[i], stack, best, walk);
        i := i + 1;
      }
      assert kids[..i] == kids;
      if !cycle { ChildrenDone(id, kids, best); }
    }

    method DeeperChild(id: string, link: RiskLink, ghost stack: seq<string>, best: nat, ghost walk: seq<string>)
      returns (best': nat, ghost walk': seq<string>)
      requires visiting <= Universe() && id in visiting && link in Children(data.links, id)
      requires Searching(stack) && stack != [] && stack[|stack| - 1] == id
      requires IsWalk(data.links, walk) && walk[0] == id && |walk| == best + 1
      modifies this`memo, this`visiting, this`cycle
      ensures Searching(stack) && visiting == old(visiting)
      ensures old(cycle) ==> cycle
      ensures Extends(memo, old(memo))
      ensures best' >= best && (!cycle ==> link.childId in memo && memo[link.childId] <= best')
      ensures IsWalk(data.links, walk') && walk'[0] == id && |walk'| == best' + 1
      decreases Universe() - visiting, 1
    {
      ChildEdge(data.links, id, link);
      best', walk' := best, walk;
      var value;
      ghost var deeper;
      value, deeper := Depth(link.childId, stack);
      if value > best {
        WalkCons(data.links, id, deeper);
        best', walk' := value, [id] + deeper;
      }
    }

    lemma StackClosesCycle(stack: seq<string>, id: string)
      requires id in stack && IsWalk(data.links, stack) && Edge(data.links, stack[|stack| - 1], id)
      ensures HasCycle(data.links)
    {
      var k :| 0 <= k < |stack| && stack[k] == id;
      var p := stack[k..];
      forall i | 0 <= i < |p| - 1 ensures Edge(data.links, p[i], p[i + 1]) {
        assert Edge(data.links, stack[k + i], stack[k + i + 1]);
      }
      WalkSnoc(data.links, p, id);
      assert ClosedWalk(data.links, p + [id]);
    }

    lemma ChildrenDone(id: string, kids: seq<RiskLink>, best: nat)
      requires kids == Children(data.links, id)
      requires Measured(memo, kids, best)
      ensures forall c :: Edge(data.links, id, c) ==> c in memo && memo[c] <= best
    {
      forall c | Edge(data.links, id, c) ensures c in memo && memo[c] <= best {
        var l :| l in data.links && l.parentId == id && l.childId == c;
        assert l in kids;
      }
    }

    // --- Depth limit -------------------------------------------------------

    lemma {:induction false} SettledBoundsWalks(p: seq<string>)
      requires Settled() && Realised() && IsWalk(data.links, p) && p[0] in memo
      ensures |p| <= memo[p[0]]
      decreases |p|
    {
      if |p| >= 2 {
        WalkTail(data.links, p);
        SettledBoundsWalks(p[1..]);
      } else {
        var q :| IsWalk(data.links, q) && q[0] == p[0] && |q| == memo[p[0]];
      }
    }

    /** The memo holds the true longest walk from each node it knows. */
    lemma MemoIsLongest(n: string)
      requires Settled() && Realised() && n in memo
      ensures WalkBound(data.links, n, memo[n])
      ensures exists p :: IsWalk(data.links, p) && p[0] == n && |p| == memo[n]
    {
      forall p | IsWalk(data.links, p) && p[0] == n ensures |p| <= memo[n] {
        SettledBoundsWalks(p);
      }
    }

    /** Runs the search from every node; stops at the first one that is too deep. */
    method CheckDepth() returns (tooDeep: bool)
      requires memo == map[] && visiting == {} && !cycle
      requires ChildrenIndexed(|data.links|)
      modifies this`memo, this`visiting, this`cycle
      ensures Searching([])
      ensures tooDeep ==> exists p :: IsWalk(data.links, p) && |p| > MAX_DEPTH
      ensures !tooDeep && !cycle ==> forall n :: n in data.nodes ==> n.id in memo && memo[n.id] <= MAX_DEPTH
    {
      var i := 0;
      while i < |data.nodes|
        invariant 0 <= i <= |data.nodes|
        invariant Searching([]) && visiting == {}
        invariant !cycle ==> forall j :: 0 <= j < i ==> data.nodes[j].id in memo && memo[data.nodes[j].id] <= MAX_DEPTH
      {
        var value;
        ghost var walk;
        value, walk := Depth(data.nodes[i].id, []);
        if value > MAX_DEPTH { return true; }
        i := i + 1;
      }
      return false;
    }

    // --- Saturating path count ---------------------------------------------

    ghost predicate Explored(limit: nat)
      reads this`children, this`memo, this`counts
    {
      && ChildrenIndexed(|data.links|)
      && Settled() && Realised()
      && (forall n :: n in memo ==> memo[n] <= limit)
      && (forall n :: n in counts ==> n in memo && counts[n] == Min(SATURATED, Paths(data.links, n, limit)))
    }

    /** Memoised; terminates because the longest descent shrinks along every link. */
    method CountPaths(id: string, ghost limit: nat) returns (count: nat)
      requires Explored(limit) && id in memo
      modifies this`counts
      ensures Explored(limit)
      ensures count == Min(SATURATED, Paths(data.links, id, limit))
      decreases memo[id], 1
    {
      if id in counts { return counts[id]; }
      assert limit > 0;
      var kids := Kids(id);
      assert data.links[..|data.links|] == data.links;
      var sum := CountBelow(id, kids, limit);
      count := Min(SATURATED, 1 + sum);
      counts := counts[id := count];
    }

    method CountBelow(id: string, kids: seq<RiskLink>, ghost limit: nat) returns (sum: nat)
      requires limit > 0 && Explored(limit) && id in memo && kids == Children(data.links, id)
      modifies this`counts
      ensures Explored(limit)
      ensures Min(SATURATED, sum) == Min(SATURATED, PathsBelow(data.links, kids, limit - 1))
      decreases memo[id], 0
    {
      sum := 0;
      var i := 0;
      while i < |kids|
        invariant 0 <= i <= |kids|
        invariant Explored(limit)
        invariant Min(SATURATED, sum) == Min(SATURATED, PathsBelow(data.links, kids[..i], limit - 1))
      {
        assert kids[..i + 1][..i] == kids[..i];
        var kid := kids[i];
        ChildEdge(data.links, id, kid);
        if WeightOf(kid) > 0.0 {
          ChildCount(id, kid.childId, limit);
          var below := CountPaths(kid.childId, limit);
          sum := sum + below;
        }
        i := i + 1;
      }
      assert kids[..i] == kids;
    }

    lemma ChildCount(id: string, child: string, limit: nat)
      requires Settled() && Realised() && id in memo && memo[id] <= limit && Edge(data.links, id, child)
      ensures limit > 0 && Paths(data.links, child, limit) == Paths(data.links, child, limit - 1)
    {
      MemoIsLongest(child);
      PathsStable(data.links, child, memo[child], limit - 1);
      PathsStable(data.links, child, memo[child], limit);
    }

    method CheckPaths(ghost limit: nat) returns (tooMany: bool)
      requires Explored(limit) && counts == map[] && limit == MAX_DEPTH
      requires forall p :: p in data.positions ==> p.nodeId in memo
      modifies this`counts
      ensures tooMany <==> TotalPaths(data) > MAX_PATHS
    {
      hide Paths;
      ghost var f := (p: Position) => Paths(data.links, p.nodeId, limit);
      var sum := 0;
      var i := 0;
      while i < |data.positions|
        invariant 0 <= i <= |data.positions|
        invariant Explored(limit)
        invariant sum >= 0 && SumBy(data.positions[..i], f) >= 0
        invariant Min(SATURATED, sum) == Min(SATURATED, SumBy(data.positions[..i], f))
      {
        assert data.positions[..i + 1] == data.positions[..i] + [data.positions[i]];
        SumBySnoc(data.positions[..i], data.positions[i], f);
        var count := CountPaths(data.positions[i].nodeId, limit);
        sum := sum + count;
        i := i + 1;
      }
      assert data.positions[..i] == data.positions;
      TotalIs(f, limit);
      tooMany := sum > MAX_PATHS;
    }

    lemma TotalIs(f: Position -> int, limit: nat)
      requires limit == MAX_DEPTH && forall p :: f(p) == Paths(data.links, p.nodeId, limit)
      ensures SumBy(data.positions, f) == TotalPaths(data)
    {
      SumByEq(data.positions, f, (p: Position) => PathCount(data.links, p.nodeId));
    }

    // --- The whole refinement ----------------------------------------------

    /**
     The program also starts the path count after a depth error or a dangling name,
     where it need not terminate; such data is already rejected, so the count is
     skipped here and the verdict is the same.
     */
    method Validate()
      requires issues == [] && nodes == map[] && children == map[]
      requires memo == map[] && visiting == {} && !cycle && counts == map[]
      modifies this
      ensures issues == [] <==> Accepted(data)
      ensures issues == [] ==> Searching([]) && !cycle
      ensures issues == [] ==> forall n :: n in data.nodes ==> n.id in memo && 1 <= memo[n.id] <= MAX_DEPTH
    {
      hide Paths, ChildrenIndexed, Settled, Realised, WellFormed;
      CheckShape();
      var dangling := MissingNode in issues || MissingRoot in issues;
      var tooDeep := CheckDepth();
      if tooDeep { issues := issues + [TooDeep]; }
      if cycle { issues := issues + [Cyclic]; CyclicRejected(); }
      if !cycle && !tooDeep && !dangling {
        AllExplored();
        var tooMany := CheckPaths(MAX_DEPTH);
        if tooMany { issues := issues + [TooManyPaths]; }
      }
      if issues == [] { DepthsPositive(); }
    }

    lemma CyclicRejected()
      requires HasCycle(data.links)
      ensures exists p :: IsWalk(data.links, p) && |p| > MAX_DEPTH
    {
      var p :| ClosedWalk(data.links, p);
      var w := CycleUnbounded(data.links, p, MAX_DEPTH);
    }

    lemma AllExplored()
      requires Closed(data) && Searching([]) && !cycle
      requires forall n :: n in data.nodes ==> n.id in memo && memo[n.id] <= MAX_DEPTH
      ensures forall p :: IsWalk(data.links, p) ==> |p| <= MAX_DEPTH
      ensures forall p :: p in data.positions ==> p.nodeId in memo
      ensures forall n :: n in memo ==> memo[n] <= MAX_DEPTH
    {
      forall p | IsWalk(data.links, p) ensures |p| <= MAX_DEPTH {
        if |p| >= 2 {
          assert Edge(data.links, p[0], p[1]);
          SettledBoundsWalks(p);
        }
      }
    }

    lemma DepthsPositive()
      requires Realised()
      ensures forall n :: n in memo ==> memo[n] >= 1
    {
    }
  }

  ghost predicate Extends(later: map<string, nat>, earlier: map<string, nat>) {
    forall n :: n in earlier ==> n in later && later[n] == earlier[n]
  }

  ghost predicate Measured(memo: map<string, nat>, kids: seq<RiskLink>, best: nat) {
    forall l :: l in kids ==> l.childId in memo && memo[l.childId] <= best
  }

  /** Every name the graph mentions is a node. */
  ghost predicate Closed(data: RiskData) {
    && (forall l :: l in data.links ==> HasNode(data, l.parentId) && HasNode(data, l.childId))
    && (forall p :: p in data.positions ==> HasNode(data, p.nodeId))
  }
}
