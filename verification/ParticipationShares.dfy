/**
 The participation projection (lib/participation.ts, `totals`, `share` and
 `projectParticipation`): which positions belong to which investment, and each family's
 share of an investment's known value.  Amounts are cents; a share is a whole number of
 millionths of one percent.
 */
module ParticipationShares {
  import opened Common
  import opened Grouping
  import opened CorrectionLog
  import opened Participation

  /** 100 percent. */
  const WHOLE := 100000000

  datatype Status = Owned | Ended | NotYetOpened | Unknown

  /** A history row: the position and its latest mark, if any. */
  datatype HistoryPosition = HistoryPosition(holdingId: string, familyId: string, status: Status, nav: Option<int>)

  datatype Position = Position(holdingId: string, familyId: string, nav: Option<int>, link: Option<Rec>)

  function InvestmentOf(p: Position): Option<string> {
    if p.link.Some? then Some(p.link.value.body.investmentId) else None
  }

  function FamilyOf(p: Position): string { p.familyId }

  function KnownCents(p: Position): int { if p.nav.Some? then p.nav.value else 0 }

  predicate HasNav(p: Position) { p.nav.Some? }

  predicate Held(p: HistoryPosition) { p.status == Owned || p.status == Unknown }

  /** Positions held on the date, each with the link then in force. */
  function Positions(rows: seq<HistoryPosition>, records: seq<Rec>, asOf: int): (ps: seq<Position>)
    ensures forall p :: p in ps ==> p.link == LinkAt(records, p.holdingId, asOf)
    ensures |ps| == |Filter(rows, Held)|
  {
    if |rows| == 0 then []
    else
      var front, row := Positions(rows[..|rows| - 1], records, asOf), rows[|rows| - 1];
      if Held(row) then front + [Position(row.holdingId, row.familyId, row.nav, LinkAt(records, row.holdingId, asOf))]
      else front
  }

  // --- Every selected position appears once --------------------------------------------------

  datatype Investment = Investment(id: string, members: seq<Position>)

  /** The investments that have members, in catalog order. */
  function Investments(catalog: seq<string>, selected: seq<Position>): (r: seq<Investment>)
    ensures forall i :: i in r ==> i.members != [] && i.id in catalog
    ensures forall i :: i in r ==> i.members == Members(selected, InvestmentOf, Some(i.id))
  {
    if |catalog| == 0 then []
    else
      var front, id := Investments(catalog[..|catalog| - 1], selected), catalog[|catalog| - 1];
      var members := Members(selected, InvestmentOf, Some(id));
      if members == [] then front else front + [Investment(id, members)]
  }

  function Unlinked(selected: seq<Position>): seq<Position> { Filter(selected, (p: Position) => InvestmentOf(p).None?) }

  function AllMembers(investments: seq<Investment>): seq<Position> {
    if |investments| == 0 then []
    else AllMembers(investments[..|investments| - 1]) + investments[|investments| - 1].members
  }

  function Linked(catalog: seq<string>): Position -> bool {
    (p: Position) => InvestmentOf(p).Some? && InvestmentOf(p).value in catalog
  }

  lemma AllMembersSnoc(investments: seq<Investment>, i: Investment)
    ensures AllMembers(investments + [i]) == AllMembers(investments) + i.members
  {
    assert (investments + [i])[..|investments|] == investments;
  }

  lemma {:induction false} MembersOfCatalog(catalog: seq<string>, selected: seq<Position>)
    requires Distinct(catalog)
    ensures multiset(AllMembers(Investments(catalog, selected))) ==
            multiset(Filter(selected, Linked(catalog)))
  {
    if |catalog| == 0 {
      FilterNone(selected, Linked(catalog));
    } else {
      var front, id := catalog[..|catalog| - 1], catalog[|catalog| - 1];
      assert catalog == front + [id];
      DistinctSnoc(front, id);
      MembersOfCatalog(front, selected);
      OneMore(front, id, selected);
      var members := Members(selected, InvestmentOf, Some(id));
      if members != [] { AllMembersSnoc(Investments(front, selected), Investment(id, members)); }
    }
  }

  lemma {:induction false} OneMore(front: seq<string>, id: string, selected: seq<Position>)
    requires id !in front
    ensures multiset(Filter(selected, Linked(front + [id]))) ==
            multiset(Filter(selected, Linked(front)))
            + multiset(Members(selected, InvestmentOf, Some(id)))
  {
    if |selected| > 0 {
      var ps, p := selected[..|selected| - 1], selected[|selected| - 1];
      OneMore(front, id, ps);
      assert selected == ps + [p];
      var l := InvestmentOf(p);
      assert Linked(front + [id])(p) <==> Linked(front)(p) || l == Some(id);
      assert !(Linked(front)(p) && l == Some(id));
      hide Filter, Members, Linked, InvestmentOf;
      FilterSnoc(ps, p, Linked(front + [id]));
      FilterSnoc(ps, p, Linked(front));
      MembersSnoc(ps, p, InvestmentOf);
    }
  }

  lemma {:induction false} LinkedOrNot(catalog: seq<string>, selected: seq<Position>)
    requires forall p :: p in selected && InvestmentOf(p).Some? ==> InvestmentOf(p).value in catalog
    ensures multiset(Filter(selected, Linked(catalog))) + multiset(Unlinked(selected)) ==
            multiset(selected)
  {
    if |selected| > 0 {
      var ps, p := selected[..|selected| - 1], selected[|selected| - 1];
      assert selected == ps + [p];
      LinkedOrNot(catalog, ps);
      FilterSnoc(ps, p, Linked(catalog));
      FilterSnoc(ps, p, (x: Position) => InvestmentOf(x).None?);
    }
  }

  /** Each selected position is in exactly one investment's list, or in the unlinked list. */
  lemma PositionsPartition(catalog: seq<string>, selected: seq<Position>)
    requires Distinct(catalog)
    requires forall p :: p in selected && InvestmentOf(p).Some? ==> InvestmentOf(p).value in catalog
    ensures multiset(AllMembers(Investments(catalog, selected))) + multiset(Unlinked(selected)) == multiset(selected)
  {
    MembersOfCatalog(catalog, selected);
    LinkedOrNot(catalog, selected);
  }

  /** Links in force in a reachable state, at any cutoff, name registered identities: the partition applies. */
  lemma ReachablePositionsPartition(s: State, rows: seq<HistoryPosition>, cutoff: Option<int>, asOf: int,
                                    selected: seq<Position>)
    requires StateOk(s)
    requires forall p :: p in selected ==> p in Positions(rows, Effective(s.records, cutoff), asOf)
    ensures multiset(AllMembers(Investments(s.investments, selected))) + multiset(Unlinked(selected)) ==
            multiset(selected)
  {
    var records := Effective(s.records, cutoff);
    forall p | p in selected && InvestmentOf(p).Some? ensures InvestmentOf(p).value in s.investments {
      LastMappingIn(records, p.holdingId, asOf);
      assert p.link.value in s.records by { hide StateOk, LastMapping; }
    }
    hide StateOk, Investments, AllMembers, Unlinked, Positions;
    assert Distinct(s.investments) by { CatalogDistinct(s); }
    PositionsPartition(s.investments, selected);
  }

  lemma CatalogDistinct(s: State)
    requires StateOk(s)
    ensures Distinct(s.investments)
  {
  }

  // --- Totals and shares ---------------------------------------------------------------------------

  datatype Totals = Totals(nav: Option<int>, knownNav: Option<int>, known: nat, total: nat, complete: bool)

  function TotalsOf(ps: seq<Position>): Totals {
    var known := Filter(ps, HasNav);
    var amount := if known == [] then None else Some(SumBy(known, KnownCents));
    var complete := ps != [] && |known| == |ps|;
    Totals(if complete then amount else None, amount, |known|, |ps|, complete)
  }

  /** Division as BigInt does it: towards zero. */
  function Truncate(a: int, b: int): int
    requires b > 0
  {
    if a >= 0 then a / b else -((-a) / b)
  }

  function Share(numerator: Option<int>, denominator: Option<int>): Option<int> {
    if numerator.None? || denominator.None? || denominator.value <= 0 then None
    else Some(Truncate(numerator.value * WHOLE, denominator.value))
  }

  /** A negative known mark withdraws the shares of its investment. */
  predicate PositiveBasis(members: seq<Position>) { forall p :: p in members ==> p.nav.None? || p.nav.value >= 0 }

  function FamilyShare(members: seq<Position>, family: string): Option<int> {
    if PositiveBasis(members)
    then Share(TotalsOf(Members(members, FamilyOf, family)).knownNav, TotalsOf(members).knownNav)
    else None
  }

  function ShareOr0(members: seq<Position>, family: string): int {
    var s := FamilyShare(members, family);
    if s.Some? then s.value else 0
  }

  function ShareSum(members: seq<Position>, families: seq<string>): int {
    if |families| == 0 then 0
    else ShareSum(members, families[..|families| - 1]) + ShareOr0(members, families[|families| - 1])
  }

  /** Families of the investment with a known amount. */
  function KnownFamilies(members: seq<Position>, families: seq<string>): nat {
    if |families| == 0 then 0
    else KnownFamilies(members, families[..|families| - 1])
         + (if FamilyShare(members, families[|families| - 1]).Some? then 1 else 0)
  }

  lemma {:induction false} KnownSum(ps: seq<Position>)
    ensures SumBy(Filter(ps, HasNav), KnownCents) == SumBy(ps, KnownCents)
  {
    if |ps| > 0 {
      var front, p := ps[..|ps| - 1], ps[|ps| - 1];
      KnownSum(front);
      if HasNav(p) { SumBySnoc(Filter(front, HasNav), p, KnownCents); }
    }
  }

  lemma {:induction false} NonNegativeSum(ps: seq<Position>)
    requires PositiveBasis(ps)
    ensures SumBy(ps, KnownCents) >= 0
  {
    if |ps| > 0 { NonNegativeSum(ps[..|ps| - 1]); }
  }

  function Times(a: int, b: int): int { a * b }

  lemma TimesPlus(a: int, b: int, c: int)
    ensures Times(a + b, c) == Times(a, c) + Times(b, c)
  {
  }

  lemma TimesUnit(c: int)
    ensures Times(0, c) == 0 && Times(1, c) == c
  {
  }

  /** One family: its share is its exact part, short of it by less than one unit. */
  lemma ShareIsFloor(members: seq<Position>, family: string, total: int)
    requires PositiveBasis(members) && TotalsOf(members).knownNav == Some(total) && total > 0
    ensures var part := GroupTotal(members, FamilyOf, KnownCents, family);
            && Times(ShareOr0(members, family), total) <= Times(part, WHOLE)
            && (FamilyShare(members, family).Some? ==>
                  Times(part, WHOLE) < Times(ShareOr0(members, family), total) + total)
            && (FamilyShare(members, family).None? ==> Times(part, WHOLE) == 0 && ShareOr0(members, family) == 0)
  {
    var own := Members(members, FamilyOf, family);
    KnownSum(own);
    NonNegativeSum(own);
    var part := GroupTotal(members, FamilyOf, KnownCents, family);
    assert part == SumBy(own, KnownCents);
    if Filter(own, HasNav) == [] {
      assert part == 0;
    } else {
      assert FamilyShare(members, family) == Some(Truncate(part * WHOLE, total));
      FloorBounds(part * WHOLE, total);
    }
  }

  lemma FloorBounds(a: int, b: int)
    requires a >= 0 && b > 0
    ensures Times(Truncate(a, b), b) <= a < Times(Truncate(a, b), b) + b
  {
  }

  lemma {:induction false} SharesBound(members: seq<Position>, families: seq<string>, total: int)
    requires PositiveBasis(members) && TotalsOf(members).knownNav == Some(total) && total > 0
    ensures var parts := Times(GroupTotals(members, FamilyOf, KnownCents, families), WHOLE);
            var n := KnownFamilies(members, families);
            && Times(ShareSum(members, families), total) <= parts
            && parts <= Times(ShareSum(members, families), total) + Times(n, total)
            && (n > 0 ==> parts < Times(ShareSum(members, families), total) + Times(n, total))
            && (n == 0 ==> ShareSum(members, families) == 0)
  {
    hide Times, ShareOr0, FamilyShare, GroupTotal, TotalsOf, PositiveBasis;
    TimesUnit(WHOLE);
    TimesUnit(total);
    if |families| > 0 {
      var front, f := families[..|families| - 1], families[|families| - 1];
      SharesBound(members, front, total);
      ShareIsFloor(members, f, total);
      TimesPlus(ShareSum(members, front), ShareOr0(members, f), total);
      TimesPlus(GroupTotals(members, FamilyOf, KnownCents, front), GroupTotal(members, FamilyOf, KnownCents, f), WHOLE);
      TimesPlus(KnownFamilies(members, front), 1, total);
    }
  }

  /**
   The families' shares of an investment with positive known value add up to at most 100
   percent and fall short by less than one millionth of a percent per family with a known value.
   */
  lemma SharesNearlyWhole(members: seq<Position>, families: seq<string>)
    requires PositiveBasis(members) && TotalsOf(members).knownNav.Some? && TotalsOf(members).knownNav.value > 0
    requires Distinct(families) && forall p :: p in members ==> p.familyId in families
    ensures KnownFamilies(members, families) > 0
    ensures WHOLE - KnownFamilies(members, families) < ShareSum(members, families) <= WHOLE
  {
    var total := TotalsOf(members).knownNav.value;
    KnownSum(members);
    GroupsPartition(members, FamilyOf, KnownCents, families);
    SharesBound(members, families, total);
    var sum, n := ShareSum(members, families), KnownFamilies(members, families);
    assert Times(total, WHOLE) <= Times(sum, total) + Times(n, total);
    Cancel(sum, n, total);
  }

  lemma Cancel(sum: int, n: nat, total: int)
    requires total > 0
    requires Times(sum, total) <= Times(total, WHOLE) <= Times(sum, total) + Times(n, total)
    requires n > 0 ==> Times(total, WHOLE) < Times(sum, total) + Times(n, total)
    requires n == 0 ==> sum == 0
    ensures n > 0 && WHOLE - n < sum <= WHOLE
  {
    assert sum - WHOLE > 0 ==> Times(sum - WHOLE, total) > 0;
    assert WHOLE - sum - n >= 0 ==> Times(WHOLE - sum - n, total) >= 0;
  }
}
