/**
 What the aggregated views say (lib/risk-engine.ts, `groupLots`; lib/family-exposure.ts), lot by
 lot: which lots a row counts, in every one of the seven groupings, per family, and per manager and
 issuer.
 */
module ExposureViews {
  import opened Common
  import opened Grouping
  import opened Exposure
  import opened ExposureBuilder
  import opened ExposureGroups

  // --- Groupings ----------------------------------------------------------------------------------

  /** The lot states this identifier, or states none and the row is the unknown one. */
  predicate Falls(select: Lot -> Option<string>, id: string, l: Lot) {
    if select(l).Some? then select(l).value == id else id == "__unknown__"
  }

  function InRow(select: Lot -> Option<string>, id: string): Lot -> bool { (l: Lot) => Falls(select, id, l) }

  ghost predicate RowSays(lots: seq<Lot>, select: Lot -> Option<string>, g: ExposureGroup) {
    var own := Filter(lots, InRow(select, g.id));
    && own != [] && g.cents == SumBy(own, CentsOf) && g.pathCount == |own|
    && forall h :: h in g.holdingIds <==> exists l :: l in own && l.holdingId == h
  }

  /** Each row counts exactly the lots that fall in it; every lot falls in one row, and rows are not repeated. */
  lemma GroupsSay(lots: seq<Lot>, select: Lot -> Option<string>, groups: seq<ExposureGroup>)
    requires GroupsOf(lots, select, groups)
    ensures forall g :: g in groups ==> RowSays(lots, select, g)
    ensures forall i, j :: 0 <= i < j < |groups| ==> groups[i].id != groups[j].id
    ensures forall l :: l in lots ==> exists g :: g in groups && Falls(select, g.id, l)
  {
    forall g | g in groups ensures RowSays(lots, select, g) {
      MembersFall(lots, select, g.id);
      assert g == GroupRow(g.id, Members(lots, Keyed(select), g.id)) && g.pathCount > 0;
      hide Members, Falls;
    }
    forall l | l in lots ensures exists g :: g in groups && Falls(select, g.id, l) {
      var g :| g in groups && g.id == Keyed(select)(l);
    }
  }

  lemma MembersFall(lots: seq<Lot>, select: Lot -> Option<string>, id: string)
    ensures Filter(lots, InRow(select, id)) == Members(lots, Keyed(select), id)
  {
    forall l ensures InRow(select, id)(l) == (Keyed(select)(l) == id) { }
    hide InRow, Keyed;
    MembersIs(lots, Keyed(select), id, InRow(select, id));
  }

  /** What the seven groupings go by. */
  lemma SelectorsAre(l: Lot)
    ensures IssuerOf(l) == l.issuerId && ManagerOf(l) == l.managerId && ClassOf(l) == Some(l.assetClass)
    ensures SectorOf(l) == l.sector && CountryOf(l) == l.country && CurrencyOf(l) == l.currency
    ensures HoldingOf(l) == Some(l.holdingId)
  {
  }

  // --- Families -----------------------------------------------------------------------------------

  /** A lot is visible in a family when the selected holding it came from is the family's, and so is the lot. */
  lemma {:induction false} OwnerIs(holdings: seq<Holding>, id: string, family: string)
    requires Distinct(HoldingIdsOf(holdings))
    ensures OwnerFamily(holdings, id) == Some(family) <==>
              exists h :: h in holdings && h.id == id && h.familyId == family
  {
    if h :| h in holdings && h.id == id && h.familyId == family {
      OwnerFamilyOfHolding(holdings, h);
    } else if OwnerFamily(holdings, id).Some? {
      OwnerExists(holdings, id);
    }
  }

  lemma {:induction false} OwnerExists(holdings: seq<Holding>, id: string)
    requires OwnerFamily(holdings, id).Some?
    ensures exists h :: h in holdings && h.id == id && h.familyId == OwnerFamily(holdings, id).value
  {
    var n := |holdings| - 1;
    if holdings[n].id != id { OwnerExists(holdings[..n], id); }
  }

  lemma FamilyLotsAre(holdings: seq<Holding>, lots: seq<Lot>, family: string, l: Lot)
    requires Distinct(HoldingIdsOf(holdings))
    ensures l in FamilyLots(holdings, lots, family) <==>
            && l in lots && l.familyId == family
            && exists h :: h in holdings && h.id == l.holdingId && h.familyId == family
  {
    OwnerIs(holdings, l.holdingId, family);
    hide OwnerFamily;
  }

  /** A family's basis: its known value, and how many of its holdings have none. */
  lemma BasisSays(holdings: seq<Holding>, lots: seq<Lot>, families: seq<string>, bases: seq<FamilyBasis>, i: nat)
    requires BasesOf(holdings, lots, families, bases) && i < |bases|
    ensures var b := bases[i];
            var own := Filter(holdings, (h: Holding) => h.familyId == b.familyId);
            && own != [] && b.holdingCount == |own|
            && b.knownCents == SumBy(own, (h: Holding) => if h.valueKnown then h.valueCents else 0)
            && b.missingCount == |Filter(own, (h: Holding) => !h.valueKnown)|
  {
    var f := families[i];
    var own := Members(holdings, FamilyIdOf, f);
    assert f in families;
    OwnHoldings(holdings, f);
    SumByEq(own, ReportedCents, (h: Holding) => if h.valueKnown then h.valueCents else 0);
    FilterEq(own, Unvalued(), (h: Holding) => !h.valueKnown);
    var h :| h in holdings && h.familyId == f;
    assert h in own;
  }

  lemma OwnHoldings(holdings: seq<Holding>, f: string)
    ensures Members(holdings, FamilyIdOf, f) == Filter(holdings, (h: Holding) => h.familyId == f)
  {
    MembersIs(holdings, FamilyIdOf, f, (h: Holding) => h.familyId == f);
  }

  // --- Managers and issuers -----------------------------------------------------------------------

  /** A resolved lot of this manager and issuer. */
  function InCell(manager: string, issuer: string): Lot -> bool {
    (l: Lot) => !l.unresolved && l.managerId == Some(manager) && l.issuerId == Some(issuer)
  }

  /** A cell adds up exactly the resolved lots of its manager and issuer. */
  lemma CellSays(lots: seq<Lot>, cells: seq<MatrixCell>, c: MatrixCell)
    requires CellsOf(Filter(lots, Attributed), cells) && c in cells
    ensures c.cents == SumBy(Filter(lots, InCell(c.managerId, c.issuerId)), CentsOf)
  {
    var key, usable := (c.managerId, c.issuerId), Filter(lots, Attributed);
    var cell := InCell(c.managerId, c.issuerId);
    forall l ensures cell(l) == (Attributed(l) && cell(l)) { }
    forall l | l in usable ensures cell(l) == (CellKey(l) == key) { }
    hide InCell, CellKey, Members, Filter;
    FilterFilter(lots, Attributed, cell, cell);
    MembersIs(usable, CellKey, key, cell);
  }

  /** What is left out is every lot without a manager, without an issuer, or unresolved. */
  lemma OmittedIs(l: Lot)
    ensures Unattributed(l) <==> l.unresolved || l.managerId.None? || l.issuerId.None?
  {
  }
}
