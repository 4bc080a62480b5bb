/**
 What a participation response says (lib/participation.ts, `totals`, `share` and
 `projectParticipation`): which positions it lists and under which investment, what its totals
 claim, and exactly when a share is given.
 */
module ParticipationContent {
  import opened Common
  import opened Grouping
  import opened Participation
  import opened ParticipationShares

  // --- Positions ----------------------------------------------------------------------------------

  /** A row that has neither ended nor still to be opened. */
  function Kept(): HistoryPosition -> bool { (r: HistoryPosition) => r.status != Ended && r.status != NotYetOpened }

  /** The position of a row: its own figures, and the mapping in force on the date. */
  ghost predicate PositionOf(row: HistoryPosition, records: seq<Rec>, asOf: int, p: Position) {
    && p.holdingId == row.holdingId && p.familyId == row.familyId && p.nav == row.nav
    && p.link == LinkAt(records, row.holdingId, asOf)
  }

  /** One position for each row, in order. */
  ghost predicate ListsRows(ps: seq<Position>, rows: seq<HistoryPosition>, records: seq<Rec>, asOf: int) {
    |ps| == |rows| && forall i :: 0 <= i < |ps| ==> PositionOf(rows[i], records, asOf, ps[i])
  }

  /** The response lists the rows held, or whose ownership is unknown, in order and each once. */
  lemma {:induction false} PositionsAre(rows: seq<HistoryPosition>, records: seq<Rec>, asOf: int)
    ensures ListsRows(Positions(rows, records, asOf), Filter(rows, Kept()), records, asOf)
  {
    if |rows| > 0 {
      hide *;
      var front, row := rows[..|rows| - 1], rows[|rows| - 1];
      PositionsAre(front, records, asOf);
      assert rows == front + [row];
      FilterSnoc(front, row, Kept());
      PositionsSnoc(front, row, records, asOf);
      if Kept()(row) {
        OneMoreRow(Positions(front, records, asOf), Filter(front, Kept()), row, records, asOf);
      } else {
        assert Positions(rows, records, asOf) == Positions(front, records, asOf);
        assert Filter(rows, Kept()) == Filter(front, Kept());
      }
    } else {
      hide *;
      NoRows(rows, records, asOf);
    }
  }

  lemma NoRows(rows: seq<HistoryPosition>, records: seq<Rec>, asOf: int)
    requires rows == []
    ensures Positions(rows, records, asOf) == [] && Filter(rows, Kept()) == []
    ensures ListsRows([], [], records, asOf)
  {
    hide LinkAt;
  }

  lemma OneMoreRow(ps: seq<Position>, rows: seq<HistoryPosition>, row: HistoryPosition, records: seq<Rec>, asOf: int)
    requires ListsRows(ps, rows, records, asOf)
    ensures ListsRows(ps + [PositionFor(row, records, asOf)], rows + [row], records, asOf)
  {
    hide LinkAt;
  }

  function PositionFor(row: HistoryPosition, records: seq<Rec>, asOf: int): Position {
    Position(row.holdingId, row.familyId, row.nav, LinkAt(records, row.holdingId, asOf))
  }

  lemma PositionsSnoc(front: seq<HistoryPosition>, row: HistoryPosition, records: seq<Rec>, asOf: int)
    ensures Positions(front + [row], records, asOf) ==
            Positions(front, records, asOf) + (if Kept()(row) then [PositionFor(row, records, asOf)] else [])
  {
    hide LinkAt;
    assert (front + [row])[..|front|] == front;
    assert row.status.Owned? || row.status.Unknown? || row.status.Ended? || row.status.NotYetOpened?;
  }

  // --- Investments --------------------------------------------------------------------------------

  ghost predicate Lists(investments: seq<Investment>, id: string) { exists i :: i in investments && i.id == id }

  ghost predicate DistinctInvestments(investments: seq<Investment>) {
    forall i, j :: 0 <= i < j < |investments| ==> investments[i].id != investments[j].id
  }

  /** The mapping in force for the position names this investment. */
  ghost predicate IsMappedTo(p: Position, id: string) {
    exists link :: p.link == Some(link) && link.body.investmentId == id
  }

  /** An investment is listed exactly when some position is mapped to it, and once, with all of those. */
  lemma {:induction false} InvestmentsAre(catalog: seq<string>, selected: seq<Position>)
    requires Distinct(catalog)
    ensures var investments := Investments(catalog, selected);
            && DistinctInvestments(investments)
            && (forall id :: Lists(investments, id) <==>
                             id in catalog && exists p :: p in selected && IsMappedTo(p, id))
            && forall i :: i in investments ==> forall p :: p in i.members <==> p in selected && IsMappedTo(p, i.id)
  {
    forall i | i in Investments(catalog, selected)
      ensures forall p :: p in i.members <==> p in selected && IsMappedTo(p, i.id)
    {
      MembersAre(selected, i.id);
    }
    hide InvestmentOf, Lists, IsMappedTo;
    if |catalog| == 0 {
      ListsNothing();
    } else {
      var front, last := catalog[..|catalog| - 1], catalog[|catalog| - 1];
      DistinctSnoc(front, last);
      assert catalog == front + [last];
      InvestmentsAre(front, selected);
      OneMoreInvestment(front, last, selected);
    }
  }

  lemma ListsNothing()
    ensures forall id :: !Lists([], id)
  {
  }

  lemma MembersAre(selected: seq<Position>, id: string)
    ensures forall p :: p in Members(selected, InvestmentOf, Some(id)) <==> p in selected && IsMappedTo(p, id)
  {
    forall p ensures InvestmentOf(p) == Some(id) <==> IsMappedTo(p, id) {
      if InvestmentOf(p) == Some(id) { assert p.link == Some(p.link.value); }
    }
    hide InvestmentOf, IsMappedTo;
  }

  lemma OneMoreInvestment(front: seq<string>, last: string, selected: seq<Position>)
    requires last !in front && DistinctInvestments(Investments(front, selected))
    requires forall id :: Lists(Investments(front, selected), id) <==>
                          id in front && exists p :: p in selected && IsMappedTo(p, id)
    ensures var investments := Investments(front + [last], selected);
            && DistinctInvestments(investments)
            && forall id :: Lists(investments, id) <==>
                            id in front + [last] && exists p :: p in selected && IsMappedTo(p, id)
  {
    var before, members := Investments(front, selected), Members(selected, InvestmentOf, Some(last));
    MembersExist(selected, last);
    assert (front + [last])[..|front|] == front;
    hide Members, InvestmentOf, IsMappedTo, Lists;
    if members != [] {
      forall id ensures Lists(before + [Investment(last, members)], id) <==> Lists(before, id) || id == last {
        ListsSnoc(before, Investment(last, members), id);
      }
      forall i | 0 <= i < |before| ensures before[i].id != last { Listed(before, i); }
    }
  }

  lemma Listed(investments: seq<Investment>, i: nat)
    requires i < |investments|
    ensures Lists(investments, investments[i].id)
  {
    assert investments[i] in investments;
  }

  lemma ListsSnoc(investments: seq<Investment>, i: Investment, id: string)
    ensures Lists(investments + [i], id) <==> Lists(investments, id) || id == i.id
  {
    if Lists(investments, id) {
      var x :| x in investments && x.id == id;
      assert x in investments + [i];
    }
    assert i in investments + [i];
  }

  lemma MembersExist(selected: seq<Position>, id: string)
    ensures Members(selected, InvestmentOf, Some(id)) != [] <==> exists p :: p in selected && IsMappedTo(p, id)
  {
    MembersAre(selected, id);
    var ms := Members(selected, InvestmentOf, Some(id));
    hide Members, IsMappedTo;
    if ms != [] { assert ms[0] in ms; }
  }

  // --- Totals -------------------------------------------------------------------------------------

  /** An unknown amount is never counted as zero, nor a partial total as the whole. */
  ghost predicate TotalsSay(ps: seq<Position>, t: Totals) {
    && t.total == |ps| && t.known <= t.total
    && (t.known == t.total <==> forall p :: p in ps ==> p.nav.Some?)
    && (t.knownNav.Some? <==> exists p :: p in ps && p.nav.Some?)
    && (t.knownNav.Some? ==> t.knownNav.value == SumBy(ps, KnownCents))
    && (t.complete <==> ps != [] && forall p :: p in ps ==> p.nav.Some?)
    && t.nav == (if t.complete then t.knownNav else None)
  }

  lemma TotalsAre(ps: seq<Position>)
    ensures TotalsSay(ps, TotalsOf(ps))
  {
    KnownSum(ps);
    KeptAll(ps);
    hide SumBy;
    var known := Filter(ps, HasNav);
    if known != [] { assert known[0] in known; }
    if p :| p in ps && p.nav.Some? { assert p in known; }
  }

  lemma {:induction false} KeptAll(ps: seq<Position>)
    ensures |Filter(ps, HasNav)| == |ps| <==> forall p :: p in ps ==> p.nav.Some?
  {
    if |ps| > 0 {
      var front, last := ps[..|ps| - 1], ps[|ps| - 1];
      KeptAll(front);
      assert ps == front + [last];
    }
  }

  // --- Shares -------------------------------------------------------------------------------------

  /** A share needs a known amount of the family, no negative amount at all, and something to share. */
  lemma ShareExactly(members: seq<Position>, family: string)
    ensures FamilyShare(members, family).Some? <==>
            && (forall p :: p in members && p.nav.Some? ==> p.nav.value >= 0)
            && (exists p :: p in members && p.familyId == family && p.nav.Some?)
            && SumBy(members, KnownCents) > 0
  {
    var own := Members(members, FamilyOf, family);
    TotalsAre(members);
    TotalsAre(own);
    OwnAre(members, family);
    hide TotalsOf, Members, SumBy, Truncate;
    if TotalsOf(own).knownNav.Some? {
      var p :| p in own && p.nav.Some?;
      assert p in members;
    }
  }

  lemma OwnAre(members: seq<Position>, family: string)
    ensures forall p :: p in Members(members, FamilyOf, family) <==> p in members && p.familyId == family
  {
    assert forall p: Position :: FamilyOf(p) == p.familyId;
  }

  /** A part divided by the whole, towards zero, in millionths of a percent: also of a negative part. */
  lemma ShareIsTruncated(part: int, whole: int)
    requires whole > 0
    ensures var x := Share(Some(part), Some(whole)).value;
            if part >= 0 then x >= 0 && Times(x, whole) <= Times(part, WHOLE) < Times(x, whole) + whole
            else x <= 0 && Times(x, whole) - whole < Times(part, WHOLE) <= Times(x, whole)
  {
    var a := part * WHOLE;
    if part >= 0 {
      assert a >= 0;
      TruncateUp(a, whole);
    } else {
      assert a < 0;
      TruncateUp(-a, whole);
      NegativeProduct((-a) / whole, whole);
    }
  }

  lemma TruncateUp(a: int, b: int)
    requires a >= 0 && b > 0
    ensures a / b >= 0 && Times(a / b, b) <= a < Times(a / b, b) + b
  {
  }

  lemma NegativeProduct(x: int, y: int)
    ensures Times(-x, y) == -Times(x, y)
  {
  }

  /** There is no share of nothing, of an unknown amount, or of a whole that is not positive. */
  lemma ShareGiven(part: Option<int>, whole: Option<int>)
    ensures Share(part, whole).Some? <==> part.Some? && whole.Some? && whole.value > 0
  {
  }

  /** How many of the families have a share. */
  lemma {:induction false} KnownFamiliesAre(members: seq<Position>, families: seq<string>)
    ensures KnownFamilies(members, families) == |Filter(families, (f: string) => FamilyShare(members, f).Some?)|
  {
    hide FamilyShare;
    if |families| > 0 {
      var front, last := families[..|families| - 1], families[|families| - 1];
      KnownFamiliesAre(members, front);
      FilterSnoc(front, last, (f: string) => FamilyShare(members, f).Some?);
      assert families == front + [last];
    }
  }
}
