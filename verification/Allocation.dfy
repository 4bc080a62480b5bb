/**
 Splitting integer cents over weighted links by largest remainders
 (`allocate` in lib/risk-engine.ts).  Arithmetic on shares is exact.
 */
module Allocation {
  import opened Common
  import opened RiskContract

  function Round(x: real): int { (x + 0.5).Floor }

  function SumR(xs: seq<real>): real {
    if |xs| == 0 then 0.0 else SumR(xs[..|xs| - 1]) + xs[|xs| - 1]
  }

  function Divisor(links: seq<RiskLink>): (d: real)
    ensures d >= 1.0
  {
    if WeightSum(links) > 1.0 then WeightSum(links) else 1.0
  }

  /** The link's exact, usually fractional, share of the cents. */
  function ExactShare(cents: nat, w: real, divisor: real): real
    requires divisor >= 1.0
  {
    cents as real * w / divisor
  }

  function ExactShares(cents: nat, links: seq<RiskLink>): (r: seq<real>)
    ensures |r| == |links|
  {
    var d := Divisor(links);
    seq(|links|, i requires 0 <= i < |links| => ExactShare(cents, WeightOf(links[i]), d))
  }

  function Fraction(x: real): (f: real)
    ensures 0.0 <= f < 1.0
  {
    x - x.Floor as real
  }

  function Floors(exact: seq<real>): (r: seq<int>)
    ensures |r| == |exact| && forall i :: 0 <= i < |r| ==> r[i] == exact[i].Floor
  {
    seq(|exact|, i requires 0 <= i < |exact| => exact[i].Floor)
  }

  function Fractions(exact: seq<real>): (r: seq<real>)
    ensures |r| == |exact| && forall i :: 0 <= i < |r| ==> r[i] == Fraction(exact[i])
  {
    seq(|exact|, i requires 0 <= i < |exact| => Fraction(exact[i]))
  }

  /** The disclosed part of the cents, before rounding. */
  function Disclosed(cents: nat, links: seq<RiskLink>): real {
    Part(cents as real, DisclosedShare(links))
  }

  function Part(c: real, share: real): real { c * share }

  function DisclosedShare(links: seq<RiskLink>): real {
    if WeightSum(links) < 1.0 then WeightSum(links) else 1.0
  }

  /** Cents that go to disclosed links. */
  function Target(cents: nat, links: seq<RiskLink>): int {
    Min(cents, Round(Disclosed(cents, links)))
  }

  // --- The order in which links receive a leftover cent --------------------

  /** Larger remainder first, then file order. */
  predicate Before(fr: seq<real>, i: nat, j: nat)
    requires i < |fr| && j < |fr|
  {
    fr[i] > fr[j] || (fr[i] == fr[j] && i < j)
  }

  ghost predicate Ordered(fr: seq<real>, order: seq<nat>) {
    && (forall k :: 0 <= k < |order| ==> order[k] < |fr|)
    && (forall k, l :: 0 <= k < l < |order| ==> Before(fr, order[k], order[l]))
  }

  function Insert(fr: seq<real>, order: seq<nat>, i: nat): (r: seq<nat>)
    requires i < |fr| && Ordered(fr, order)
    requires forall x :: x in order ==> x < i
    ensures Ordered(fr, r) && |r| == |order| + 1
    ensures forall x :: x in r <==> x in order || x == i
  {
    if |order| == 0 then [i]
    else if Before(fr, i, order[0]) then [i] + order
    else
      assert forall x :: x in order[1..] ==> x in order;
      assert forall k, l :: 0 <= k < l < |order[1..]| ==> Before(fr, order[1..][k], order[1..][l]) by {
        assert forall k :: 0 <= k < |order| - 1 ==> order[1..][k] == order[k + 1];
      }
      assert forall x :: x in order[1..] ==> Before(fr, order[0], x);
      assert order[0] in order && Before(fr, order[0], i);
      var rest := Insert(fr, order[1..], i);
      assert forall k :: 0 <= k < |rest| ==> rest[k] in rest;
      assert forall x :: x in rest ==> x == i || x in order[1..];
      assert forall x :: x in rest ==> x < |fr| && Before(fr, order[0], x);
      [order[0]] + rest
  }

  /** The first `n` links, sorted. */
  function Order(fr: seq<real>, n: nat): (r: seq<nat>)
    requires n <= |fr|
    ensures Ordered(fr, r) && |r| == n
    ensures forall x :: x in r <==> 0 <= x < n
  {
    if n == 0 then [] else Insert(fr, Order(fr, n - 1), n - 1)
  }

  // --- Handing out leftover cents ------------------------------------------

  function Bump(xs: seq<int>, idx: seq<nat>): (r: seq<int>)
    requires forall k :: 0 <= k < |idx| ==> idx[k] < |xs|
    ensures |r| == |xs|
  {
    if |idx| == 0 then xs
    else
      var front := Bump(xs, idx[..|idx| - 1]);
      var last := idx[|idx| - 1];
      front[last := front[last] + 1]
  }

  lemma {:induction false} BumpAt(xs: seq<int>, idx: seq<nat>, i: nat)
    requires forall k :: 0 <= k < |idx| ==> idx[k] < |xs|
    requires Distinct(idx) && i < |xs|
    ensures Bump(xs, idx)[i] == xs[i] + (if i in idx then 1 else 0)
  {
    if |idx| > 0 {
      var front := idx[..|idx| - 1];
      BumpAt(xs, front, i);
      assert idx == front + [idx[|idx| - 1]];
    }
  }

  lemma {:induction false} SumUpdate(xs: seq<int>, i: nat, v: int)
    requires i < |xs|
    ensures Sum(xs[i := v]) == Sum(xs) - xs[i] + v
  {
    if i < |xs| - 1 {
      assert xs[i := v][..|xs| - 1] == xs[..|xs| - 1][i := v];
      SumUpdate(xs[..|xs| - 1], i, v);
    } else {
      assert xs[i := v][..|xs| - 1] == xs[..|xs| - 1];
    }
  }

  lemma {:induction false} BumpSum(xs: seq<int>, idx: seq<nat>)
    requires forall k :: 0 <= k < |idx| ==> idx[k] < |xs|
    ensures Sum(Bump(xs, idx)) == Sum(xs) + |idx|
  {
    if |idx| > 0 {
      var front := Bump(xs, idx[..|idx| - 1]);
      BumpSum(xs, idx[..|idx| - 1]);
      SumUpdate(front, idx[|idx| - 1], front[idx[|idx| - 1]] + 1);
    }
  }

  function Leftover(cents: nat, links: seq<RiskLink>): int {
    Target(cents, links) - Sum(Floors(ExactShares(cents, links)))
  }

  /** Link positions by falling fraction of their exact share. */
  function Queue(cents: nat, links: seq<RiskLink>): (r: seq<nat>)
    ensures |r| == |links| && Distinct(r)
    ensures forall j :: 0 <= j < |r| ==> r[j] < |links|
    ensures forall i :: 0 <= i < |links| ==> i in r
  {
    var fr := Fractions(ExactShares(cents, links));
    var order := Order(fr, |fr|);
    assert forall j :: 0 <= j < |order| ==> order[j] in order;
    order
  }

  /** How far down the queue the leftover cents reach. */
  function Cut(cents: nat, links: seq<RiskLink>): (k: nat)
    ensures k <= |links|
  {
    Max(0, Min(Leftover(cents, links), |links|))
  }

  /** The shares in whole cents. */
  function Shares(cents: nat, links: seq<RiskLink>): (r: seq<int>)
    ensures |r| == |links|
  {
    Bump(Floors(ExactShares(cents, links)), Queue(cents, links)[..Cut(cents, links)])
  }

  /** `allocate`: floors first, then one cent at a time down the sorted list. */
  method Allocate(cents: nat, links: seq<RiskLink>) returns (allocations: seq<int>, residual: int)
    ensures allocations == Shares(cents, links)
    ensures residual == cents - Target(cents, links)
  {
    var exact := ExactShares(cents, links);
    var target := Target(cents, links);
    var remainder := target - Sum(Floors(exact));
    allocations := HandOut(Floors(exact), Queue(cents, links), remainder);
    residual := cents - target;
  }

  method HandOut(floors: seq<int>, order: seq<nat>, leftover: int) returns (allocations: seq<int>)
    requires forall j :: 0 <= j < |order| ==> order[j] < |floors|
    ensures allocations == Bump(floors, order[..Max(0, Min(leftover, |order|))])
  {
    allocations := floors;
    var remainder := leftover;
    var k := 0;
    while k < |order|
      invariant 0 <= k <= |order| && |allocations| == |floors|
      invariant remainder == leftover - k && (k == 0 || remainder >= 0)
      invariant allocations == Bump(floors, order[..k])
    {
      if remainder <= 0 { break; }
      assert order[..k + 1][..k] == order[..k];
      allocations := allocations[order[k] := allocations[order[k]] + 1];
      remainder := remainder - 1;
      k := k + 1;
    }
  }

  // --- Exact shares add up -------------------------------------------------

  lemma ShareOfSum(cents: nat, s: real, w: real, d: real)
    requires d >= 1.0
    ensures ExactShare(cents, s + w, d) == ExactShare(cents, s, d) + ExactShare(cents, w, d)
  {
    var c := cents as real;
    assert c * (s + w) == c * s + c * w;
  }

  lemma {:induction false} ExactPrefixSum(cents: nat, links: seq<RiskLink>, n: nat)
    requires n <= |links|
    ensures SumR(ExactShares(cents, links)[..n]) == ExactShare(cents, WeightSum(links[..n]), Divisor(links))
  {
    if n > 0 {
      ExactPrefixSum(cents, links, n - 1);
      assert ExactShares(cents, links)[..n][..n - 1] == ExactShares(cents, links)[..n - 1];
      assert links[..n][..n - 1] == links[..n - 1];
      ShareOfSum(cents, WeightSum(links[..n - 1]), WeightOf(links[n - 1]), Divisor(links));
    }
  }

  /** The exact shares sum to the disclosed part of the cents. */
  lemma ExactSum(cents: nat, links: seq<RiskLink>)
    ensures SumR(ExactShares(cents, links)) == Disclosed(cents, links)
  {
    ExactPrefixSum(cents, links, |links|);
    assert links[..|links|] == links;
    assert ExactShares(cents, links)[..|links|] == ExactShares(cents, links);
    var c, s := cents as real, WeightSum(links);
    if s > 1.0 { assert c * s / s == c; }
  }

  lemma {:induction false} SumSplits(exact: seq<real>)
    ensures SumR(exact) == Sum(Floors(exact)) as real + SumR(Fractions(exact))
  {
    if |exact| > 0 {
      var front := exact[..|exact| - 1];
      SumSplits(front);
      assert Floors(exact)[..|exact| - 1] == Floors(front);
      assert Fractions(exact)[..|exact| - 1] == Fractions(front);
    }
  }

  lemma RoundShift(n: int, x: real)
    ensures Round(n as real + x) == n + Round(x)
  {
  }

  lemma {:induction false} WeightSumNonneg(links: seq<RiskLink>)
    requires forall l :: l in links ==> WeightOf(l) >= 0.0
    ensures WeightSum(links) >= 0.0
    ensures forall l :: l in links ==> WeightOf(l) <= WeightSum(links)
  {
    if |links| > 0 {
      WeightSumNonneg(links[..|links| - 1]);
      assert links == links[..|links| - 1] + [links[|links| - 1]];
    }
  }

  lemma MulNonneg(x: real, y: real)
    requires x >= 0.0 && y >= 0.0
    ensures x * y >= 0.0
  {
  }

  lemma PartOf(c: real, share: real)
    requires c >= 0.0 && 0.0 <= share <= 1.0
    ensures 0.0 <= Part(c, share) <= c
  {
    MulNonneg(c, share);
    MulNonneg(c, 1.0 - share);
    assert c * (1.0 - share) == c - c * share;
  }

  lemma DisclosedBounds(cents: nat, links: seq<RiskLink>)
    requires forall l :: l in links ==> WeightOf(l) >= 0.0
    ensures 0.0 <= Disclosed(cents, links) <= cents as real
  {
    hide Part;
    WeightSumNonneg(links);
    PartOf(cents as real, DisclosedShare(links));
  }

  /** The leftover is the rounded total of the fractions; the cap at `cents` never bites. */
  lemma LeftoverIsRoundedFractions(cents: nat, links: seq<RiskLink>)
    requires forall l :: l in links ==> WeightOf(l) >= 0.0
    ensures Leftover(cents, links) == Round(SumR(Fractions(ExactShares(cents, links))))
    ensures 0 <= Target(cents, links) <= cents
  {
    hide Disclosed, ExactShares;
    var exact := ExactShares(cents, links);
    ExactSum(cents, links);
    SumSplits(exact);
    DisclosedBounds(cents, links);
    RoundShift(Sum(Floors(exact)), SumR(Fractions(exact)));
  }

  /** If only links in `b` have a fraction, the fractions total at most |b|. */
  lemma {:induction false} FractionsBelowCount(fr: seq<real>, b: set<nat>)
    requires forall i :: 0 <= i < |fr| ==> 0.0 <= fr[i] < 1.0
    requires forall i :: 0 <= i < |fr| && i !in b ==> fr[i] == 0.0
    ensures 0.0 <= SumR(fr) <= |b| as real
  {
    if |fr| > 0 {
      var n := |fr| - 1;
      FractionsBelowCount(fr[..n], b - {n});
      if n in b { assert |b - {n}| == |b| - 1; } else { assert b - {n} == b; }
    }
  }

  lemma PrefixElement(order: seq<nat>, k: nat, x: nat)
    requires k <= |order| && x in order && x !in order[..k]
    ensures exists j :: k <= j < |order| && order[j] == x
  {
    assert order == order[..k] + order[k..];
    assert x in order[k..];
    var j :| 0 <= j < |order[k..]| && order[k..][j] == x;
    assert order[k + j] == x;
  }

  function FractionAt(cents: nat, links: seq<RiskLink>, i: nat): real
    requires i < |links|
  {
    Fraction(ExactShares(cents, links)[i])
  }

  lemma QueueFalls(cents: nat, links: seq<RiskLink>, j: nat, k: nat)
    requires j <= k < |links|
    ensures FractionAt(cents, links, Queue(cents, links)[j]) >= FractionAt(cents, links, Queue(cents, links)[k])
  {
    var fr := Fractions(ExactShares(cents, links));
    if j < k { assert Before(fr, Queue(cents, links)[j], Queue(cents, links)[k]); }
  }

  /** The leftover never exceeds the number of links. */
  lemma CutIsLeftover(cents: nat, links: seq<RiskLink>)
    requires forall l :: l in links ==> WeightOf(l) >= 0.0
    ensures Cut(cents, links) == Leftover(cents, links)
  {
    LeftoverIsRoundedFractions(cents, links);
    var queue := Queue(cents, links);
    DistinctByCount(queue);
    FractionsBelowCount(Fractions(ExactShares(cents, links)), ToSet(queue));
  }

  /** Leftover cents run out before links without a fraction are reached. */
  lemma OnlyFractionsBumped(cents: nat, links: seq<RiskLink>, k: nat)
    requires forall l :: l in links ==> WeightOf(l) >= 0.0
    requires k < Cut(cents, links)
    ensures FractionAt(cents, links, Queue(cents, links)[k]) > 0.0
  {
    var fr := Fractions(ExactShares(cents, links));
    var queue := Queue(cents, links);
    LeftoverIsRoundedFractions(cents, links);
    if fr[queue[k]] == 0.0 {
      var b := ToSet(queue[..k]);
      DistinctByCount(queue[..k]);
      forall i | 0 <= i < |fr| && i !in b ensures fr[i] == 0.0 {
        PrefixElement(queue, k, i);
        var j :| k <= j < |queue| && queue[j] == i;
        QueueFalls(cents, links, k, j);
      }
      FractionsBelowCount(fr, b);
      CutIsLeftover(cents, links);
      assert false;
    }
  }

  // --- What each link receives ---------------------------------------------

  ghost predicate Bumped(cents: nat, links: seq<RiskLink>, i: nat) {
    i in Queue(cents, links)[..Cut(cents, links)]
  }

  lemma ShareAt(cents: nat, links: seq<RiskLink>, i: nat)
    requires forall l :: l in links ==> WeightOf(l) >= 0.0
    requires i < |links|
    ensures Shares(cents, links)[i] ==
            ExactShares(cents, links)[i].Floor + (if Bumped(cents, links, i) then 1 else 0)
    ensures Bumped(cents, links, i) ==> FractionAt(cents, links, i) > 0.0
  {
    var queue, k := Queue(cents, links), Cut(cents, links);
    BumpAt(Floors(ExactShares(cents, links)), queue[..k], i);
    if Bumped(cents, links, i) {
      var j :| 0 <= j < k && queue[..k][j] == i;
      OnlyFractionsBumped(cents, links, j);
    }
  }

  /** Conservation: whole-cent shares plus the residual are the cents put in. */
  lemma SharesConserve(cents: nat, links: seq<RiskLink>)
    requires forall l :: l in links ==> WeightOf(l) >= 0.0
    ensures Sum(Shares(cents, links)) == Target(cents, links)
    ensures 0 <= Target(cents, links) <= cents
  {
    CutIsLeftover(cents, links);
    LeftoverIsRoundedFractions(cents, links);
    BumpSum(Floors(ExactShares(cents, links)), Queue(cents, links)[..Cut(cents, links)]);
  }

  lemma ExactNonneg(cents: nat, w: real, d: real)
    requires w >= 0.0 && d >= 1.0
    ensures ExactShare(cents, w, d) >= 0.0
    ensures w == 0.0 ==> ExactShare(cents, w, d) == 0.0
  {
    MulNonneg(cents as real, w);
  }

  /** Each link gets the floor or the ceiling of its exact share, and nothing without a weight. */
  lemma ShareIsFloorOrCeiling(cents: nat, links: seq<RiskLink>, i: nat)
    requires forall l :: l in links ==> WeightOf(l) >= 0.0
    requires i < |links|
    ensures Shares(cents, links)[i] >= 0
    ensures -1.0 < Shares(cents, links)[i] as real - ExactShares(cents, links)[i] < 1.0
    ensures WeightOf(links[i]) == 0.0 ==> Shares(cents, links)[i] == 0
  {
    ShareAt(cents, links, i);
    ExactNonneg(cents, WeightOf(links[i]), Divisor(links));
  }

  /** Only positive-weight links ever receive a cent. */
  lemma ReceivingNeedsWeight(cents: nat, links: seq<RiskLink>, i: nat)
    requires forall l :: l in links ==> WeightOf(l) >= 0.0
    requires i < |links| && Shares(cents, links)[i] > 0
    ensures WeightOf(links[i]) > 0.0
  {
    ShareIsFloorOrCeiling(cents, links, i);
  }

  // --- No integer split is closer ------------------------------------------

  /** Distance of a whole number of cents from an exact share. */
  function Miss(b: int, e: real): real {
    var x := b as real - e;
    if x < 0.0 then -x else x
  }

  /** Total absolute rounding error of a split into whole cents. */
  function RoundingError(b: seq<int>, exact: seq<real>): real
    requires |b| == |exact|
  {
    if |b| == 0 then 0.0
    else RoundingError(b[..|b| - 1], exact[..|b| - 1]) + Miss(b[|b| - 1], exact[|b| - 1])
  }

  function Scaled(price: real, n: int): real { price * n as real }

  lemma ScaledAdd(price: real, m: int, n: int)
    ensures Scaled(price, m + n) == Scaled(price, m) + Scaled(price, n)
  {
  }

  /** `a` minimises Miss(x, e) - price * x over the integers. */
  ghost predicate Supports(a: int, e: real, price: real) {
    forall b: int :: Miss(b, e) - Miss(a, e) >= Scaled(price, b - a)
  }

  lemma ScaledBound(n: real, lo: real, price: real, hi: real)
    requires n >= 0.0 && lo <= price <= hi
    ensures lo * n <= price * n <= hi * n
  {
    MulNonneg(price - lo, n);
    MulNonneg(hi - price, n);
    assert (price - lo) * n == price * n - lo * n;
    assert (hi - price) * n == hi * n - price * n;
  }

  /** Going up from the floor costs more than a price of `1 - 2 f` pays; going down costs one a cent. */
  lemma FloorCosts(m: int, f: real, price: real)
    requires 0.0 <= f < 1.0 && -1.0 <= price <= 1.0 - 2.0 * f
    ensures m >= 1 ==> Scaled(price, m) <= m as real - 2.0 * f
    ensures m <= 0 ==> Scaled(price, m) <= -(m as real)
  {
    var n := m as real;
    if n >= 1.0 {
      ScaledBound(n, -1.0, price, 1.0 - 2.0 * f);
      MulNonneg(2.0 * f, n - 1.0);
      assert (1.0 - 2.0 * f) * n == n - 2.0 * f - 2.0 * f * (n - 1.0);
    } else if n <= 0.0 {
      ScaledBound(-n, -1.0, price, 1.0);
      assert price * -n == -(price * n);
    }
  }

  /** Going down from the ceiling saves less than a price of `1 - 2 f` costs; going up costs one a cent. */
  lemma CeilingCosts(m: int, f: real, price: real)
    requires 0.0 < f < 1.0 && 1.0 - 2.0 * f <= price <= 1.0
    ensures m <= -1 ==> Scaled(price, m) <= -2.0 + 2.0 * f - m as real
    ensures m >= 0 ==> Scaled(price, m) <= m as real
  {
    var n := m as real;
    if n <= -1.0 {
      ScaledBound(-n, 1.0 - 2.0 * f, price, 1.0);
      MulNonneg(2.0 - 2.0 * f, -n - 1.0);
      assert (1.0 - 2.0 * f) * -n == 2.0 - 2.0 * f + n + (2.0 - 2.0 * f) * (-n - 1.0);
      assert price * -n == -(price * n);
    } else if n >= 0.0 {
      ScaledBound(n, 1.0 - 2.0 * f, price, 1.0);
    }
  }

  /** The error of a whole number, counted in cents from the floor. */
  lemma MissFromFloor(b: int, e: real)
    ensures var n := (b - e.Floor) as real;
            Miss(b, e) == if n <= 0.0 then Fraction(e) - n else n - Fraction(e)
  {
  }

  lemma FloorSupported(e: real, price: real)
    requires -1.0 <= price <= 1.0 - 2.0 * Fraction(e)
    ensures Supports(e.Floor, e, price)
  {
    forall b: int ensures Miss(b, e) - Miss(e.Floor, e) >= Scaled(price, b - e.Floor) {
      hide Miss, Scaled;
      FloorCosts(b - e.Floor, Fraction(e), price);
      MissFromFloor(b, e);
      MissFromFloor(e.Floor, e);
    }
  }

  lemma CeilingSupported(e: real, price: real)
    requires 1.0 - 2.0 * Fraction(e) <= price <= 1.0
    requires Fraction(e) > 0.0
    ensures Supports(e.Floor + 1, e, price)
  {
    forall b: int ensures Miss(b, e) - Miss(e.Floor + 1, e) >= Scaled(price, b - (e.Floor + 1)) {
      hide Miss, Scaled;
      CeilingCosts(b - (e.Floor + 1), Fraction(e), price);
      MissFromFloor(b, e);
      MissFromFloor(e.Floor + 1, e);
    }
  }

  lemma {:induction false} SupportedIsMinimal(a: seq<int>, b: seq<int>, exact: seq<real>, price: real)
    requires |a| == |b| == |exact|
    requires forall i :: 0 <= i < |a| ==> Supports(a[i], exact[i], price)
    ensures RoundingError(b, exact) - RoundingError(a, exact) >= Scaled(price, Sum(b) - Sum(a))
  {
    hide Scaled, Miss;
    if |a| > 0 {
      var n := |a| - 1;
      SupportedIsMinimal(a[..n], b[..n], exact[..n], price);
      assert Supports(a[n], exact[n], price);
      assert Miss(b[n], exact[n]) - Miss(a[n], exact[n]) >= Scaled(price, b[n] - a[n]);
      ScaledAdd(price, Sum(b[..n]) - Sum(a[..n]), b[n] - a[n]);
    } else {
      ScaledZero(price);
    }
  }

  lemma ScaledZero(price: real)
    ensures Scaled(price, 0) == 0.0
  {
  }

  /** The marginal price of one more cent at the cut of the queue. */
  function CutPrice(cents: nat, links: seq<RiskLink>): real {
    var k := Cut(cents, links);
    if k == 0 then -1.0 else 1.0 - 2.0 * FractionAt(cents, links, Queue(cents, links)[k - 1])
  }

  lemma CutSupports(cents: nat, links: seq<RiskLink>, i: nat)
    requires forall l :: l in links ==> WeightOf(l) >= 0.0
    requires i < |links|
    ensures Supports(Shares(cents, links)[i], ExactShares(cents, links)[i], CutPrice(cents, links))
  {
    hide Supports, ExactShares, Queue, Cut, Shares;
    ShareAt(cents, links, i);
    var e, price := ExactShares(cents, links)[i], CutPrice(cents, links);
    var queue, k := Queue(cents, links), Cut(cents, links);
    if Bumped(cents, links, i) {
      var j :| 0 <= j < k && queue[..k][j] == i;
      QueueFalls(cents, links, j, k - 1);
      CeilingSupported(e, price);
    } else {
      PrefixElement(queue, k, i);
      var j :| k <= j < |queue| && queue[j] == i;
      if k > 0 { QueueFalls(cents, links, k - 1, j); }
      FloorSupported(e, price);
    }
  }

  /** No other split of the same number of cents has a smaller total rounding error. */
  lemma SharesMinimiseError(cents: nat, links: seq<RiskLink>, b: seq<int>)
    requires forall l :: l in links ==> WeightOf(l) >= 0.0
    requires |b| == |links| && Sum(b) == Sum(Shares(cents, links))
    ensures RoundingError(Shares(cents, links), ExactShares(cents, links)) <=
            RoundingError(b, ExactShares(cents, links))
  {
    var price := CutPrice(cents, links);
    forall i | 0 <= i < |links|
      ensures Supports(Shares(cents, links)[i], ExactShares(cents, links)[i], price)
    {
      CutSupports(cents, links, i);
    }
    SupportedIsMinimal(Shares(cents, links), b, ExactShares(cents, links), price);
  }
}
