/**
 Re-aggregations of terminal lots: `groupLots` (lib/risk-engine.ts) and the family and
 manager/issuer views (lib/family-exposure.ts).  Each is a partition of the same cents.
 Result rows are in first-seen order; the display sort is not modelled.
 */
module ExposureGroups {
  import opened Common
  import opened RiskContract
  import opened Exposure
  import opened ExposureBuilder
  import opened Grouping

  const UNKNOWN: string := "__unknown__"

  datatype ExposureGroup = ExposureGroup(id: string, cents: int, holdingIds: set<string>, pathCount: nat)

  function CentsOfGroup(g: ExposureGroup): int { g.cents }

  /** `item.id ?? '__unknown__'` */
  function Keyed(select: Lot -> Option<string>): Lot -> string {
    (l: Lot) => if select(l).Some? then select(l).value else UNKNOWN
  }

  function IssuerOf(l: Lot): Option<string> { l.issuerId }

  ghost predicate GroupsOf(lots: seq<Lot>, select: Lot -> Option<string>, groups: seq<ExposureGroup>) {
    && SumBy(groups, CentsOfGroup) == LotSum(lots)
    && (forall i, j :: 0 <= i < j < |groups| ==> groups[i].id != groups[j].id)
    && (forall g :: g in groups ==> g == GroupRow(g.id, Members(lots, Keyed(select), g.id)) && g.pathCount > 0)
    && (forall l :: l in lots ==> exists g :: g in groups && g.id == Keyed(select)(l))
  }

  method GroupLots(lots: seq<Lot>, select: Lot -> Option<string>) returns (groups: seq<ExposureGroup>)
    ensures GroupsOf(lots, select, groups)
  {
    hide Members, GroupRow, GroupsOf;
    var key := Keyed(select);
    var keys, table := GroupBy(lots, key);
    groups := [];
    var i := 0;
    while i < |keys|
      invariant 0 <= i <= |keys| && |groups| == i
      invariant forall j :: 0 <= j < i ==> groups[j] == GroupRow(keys[j], Members(lots, key, keys[j]))
    {
      groups := groups + [GroupRow(keys[i], table[keys[i]])];
      i := i + 1;
    }
    GroupRowsPartition(lots, select, keys, table, groups);
  }

  lemma GroupRowsPartition(lots: seq<Lot>, select: Lot -> Option<string>, keys: seq<string>,
                           table: map<string, seq<Lot>>, groups: seq<ExposureGroup>)
    requires Grouped(lots, Keyed(select), keys, table) && |groups| == |keys|
    requires forall j :: 0 <= j < |keys| ==> groups[j] == GroupRow(keys[j], Members(lots, Keyed(select), keys[j]))
    ensures GroupsOf(lots, select, groups)
  {
    var key := Keyed(select);
    hide Grouped, Members, SumBy, GroupRow, GroupTotal, Keyed;
    GroupedCovers(lots, key, keys, table);
    GroupedKeys(lots, key, keys, table);
    GroupSums(lots, key, keys, groups);
    forall j | 0 <= j < |groups| ensures groups[j].id == keys[j] && groups[j].pathCount > 0 {
      GroupRowMeans(lots, key, keys[j]);
      GroupNotEmpty(lots, key, keys, table, j);
    }
    forall l | l in lots ensures exists g :: g in groups && g.id == key(l) {
      var k :| 0 <= k < |keys| && keys[k] == key(l);
      assert groups[k] in groups;
    }
  }

  lemma GroupedKeys(lots: seq<Lot>, key: Lot -> string, keys: seq<string>, table: map<string, seq<Lot>>)
    requires Grouped(lots, key, keys, table)
    ensures Distinct(keys)
  {
    hide Members;
  }

  lemma GroupNotEmpty(lots: seq<Lot>, key: Lot -> string, keys: seq<string>, table: map<string, seq<Lot>>, j: nat)
    requires Grouped(lots, key, keys, table) && j < |keys|
    ensures GroupRow(keys[j], Members(lots, key, keys[j])).pathCount > 0
  {
    hide Members;
    assert keys[j] in table;
  }

  lemma GroupSums(lots: seq<Lot>, key: Lot -> string, keys: seq<string>, groups: seq<ExposureGroup>)
    requires Distinct(keys) && |groups| == |keys| && forall l :: l in lots ==> key(l) in keys
    requires forall j :: 0 <= j < |keys| ==> groups[j] == GroupRow(keys[j], Members(lots, key, keys[j]))
    ensures SumBy(groups, CentsOfGroup) == LotSum(lots)
  {
    hide Members, GroupTotal, GroupRow, Distinct, SumBy;
    forall j | 0 <= j < |groups| ensures CentsOfGroup(groups[j]) == GroupTotal(lots, key, CentsOf, keys[j]) {
      GroupRowMeans(lots, key, keys[j]);
    }
    TotalsOfRows(groups, CentsOfGroup, lots, key, CentsOf, keys);
    GroupsPartition(lots, key, CentsOf, keys);
  }

  lemma GroupRowMeans(lots: seq<Lot>, key: Lot -> string, id: string)
    ensures var r := GroupRow(id, Members(lots, key, id));
            && r.id == id && CentsOfGroup(r) == GroupTotal(lots, key, CentsOf, id)
  {
    hide Members, SumBy;
  }

  function GroupRow(id: string, members: seq<Lot>): ExposureGroup {
    ExposureGroup(id, LotSum(members), set l | l in members :: l.holdingId, |members|)
  }

  function ManagerOf(l: Lot): Option<string> { l.managerId }
  function ClassOf(l: Lot): Option<string> { Some(l.assetClass) }
  function SectorOf(l: Lot): Option<string> { l.sector }
  function CountryOf(l: Lot): Option<string> { l.country }
  function CurrencyOf(l: Lot): Option<string> { l.currency }
  function HoldingOf(l: Lot): Option<string> { Some(l.holdingId) }

  /** The seven partitions that `buildTotalExposure` returns. */
  method AllGroupings(lots: seq<Lot>) returns (views: seq<seq<ExposureGroup>>)
    ensures |views| == 7
    ensures GroupsOf(lots, IssuerOf, views[0]) && GroupsOf(lots, ManagerOf, views[1])
            && GroupsOf(lots, ClassOf, views[2])
    ensures GroupsOf(lots, SectorOf, views[3]) && GroupsOf(lots, CountryOf, views[4])
            && GroupsOf(lots, CurrencyOf, views[5])
    ensures GroupsOf(lots, HoldingOf, views[6])
    ensures forall v :: v in views ==> SumBy(v, CentsOfGroup) == LotSum(lots)
  {
    var issuer := GroupLots(lots, IssuerOf);
    var manager := GroupLots(lots, ManagerOf);
    var assetClass := GroupLots(lots, ClassOf);
    var sector := GroupLots(lots, SectorOf);
    var country := GroupLots(lots, CountryOf);
    var currency := GroupLots(lots, CurrencyOf);
    var holding := GroupLots(lots, HoldingOf);
    views := [issuer, manager, assetClass, sector, country, currency, holding];
    hide Members, GroupRow, Keyed, SumBy;
    forall v | v in views ensures SumBy(v, CentsOfGroup) == LotSum(lots) { }
  }

  // --- Families ---------------------------------------------------------------

  datatype FamilyBasis = FamilyBasis(
    familyId: string, knownCents: int, holdingCount: nat, missingCount: nat, lots: seq<Lot>)

  function FamilyIdOf(h: Holding): string { h.familyId }

  function ReportedCents(h: Holding): int { if h.valueKnown then h.valueCents else 0 }

  /** `allowed.get(holdingId)`: the family a visible holding belongs to. */
  function OwnerFamily(holdings: seq<Holding>, holdingId: string): Option<string> {
    if |holdings| == 0 then None
    else if holdings[|holdings| - 1].id == holdingId then Some(holdings[|holdings| - 1].familyId)
    else OwnerFamily(holdings[..|holdings| - 1], holdingId)
  }

  predicate InFamily(holdings: seq<Holding>, familyId: string, l: Lot) {
    l.familyId == familyId && OwnerFamily(holdings, l.holdingId) == Some(familyId)
  }

  function FamilyLots(holdings: seq<Holding>, lots: seq<Lot>, familyId: string): seq<Lot> {
    Filter(lots, (l: Lot) => InFamily(holdings, familyId, l))
  }

  function BasisRow(holdings: seq<Holding>, lots: seq<Lot>, familyId: string, members: seq<Holding>): FamilyBasis {
    var valued := Filter(members, (h: Holding) => h.valueKnown);
    FamilyBasis(familyId, SumBy(valued, (h: Holding) => h.valueCents), |members|, |members| - |valued|,
                FamilyLots(holdings, lots, familyId))
  }

  ghost predicate BasesOf(holdings: seq<Holding>, lots: seq<Lot>, families: seq<string>, bases: seq<FamilyBasis>) {
    && Distinct(families) && |bases| == |families|
    && (forall h :: h in holdings ==> h.familyId in families)
    && (forall f :: f in families ==> exists h :: h in holdings && h.familyId == f)
    && forall i :: 0 <= i < |bases| ==>
         && bases[i].familyId == families[i]
         && bases[i].knownCents == GroupTotal(holdings, FamilyIdOf, ReportedCents, families[i])
         && bases[i].holdingCount == |Members(holdings, FamilyIdOf, families[i])|
         && bases[i].missingCount == |Filter(Members(holdings, FamilyIdOf, families[i]), Unvalued())|
         && bases[i].lots == FamilyLots(holdings, lots, families[i])
  }

  function Unvalued(): Holding -> bool { (h: Holding) => !h.valueKnown }

  method FamilyBases(holdings: seq<Holding>, lots: seq<Lot>)
    returns (families: seq<string>, bases: seq<FamilyBasis>)
    ensures BasesOf(holdings, lots, families, bases)
  {
    hide Members, BasisRow;
    var table;
    families, table := GroupBy(holdings, FamilyIdOf);
    GroupedCovers(holdings, FamilyIdOf, families, table);
    FamiliesHold(holdings, families, table);
    bases := [];
    var i := 0;
    while i < |families|
      invariant 0 <= i <= |families| && |bases| == i
      invariant forall j :: 0 <= j < i ==>
                  bases[j] == BasisRow(holdings, lots, families[j], Members(holdings, FamilyIdOf, families[j]))
    {
      bases := bases + [BasisRow(holdings, lots, families[i], table[families[i]])];
      i := i + 1;
    }
    forall j | 0 <= j < |bases|
      ensures bases[j].familyId == families[j] && bases[j].lots == FamilyLots(holdings, lots, families[j])
      ensures bases[j].knownCents == GroupTotal(holdings, FamilyIdOf, ReportedCents, families[j])
      ensures bases[j].holdingCount == |Members(holdings, FamilyIdOf, families[j])|
      ensures bases[j].missingCount == |Filter(Members(holdings, FamilyIdOf, families[j]), Unvalued())|
    {
      BasisMeaning(holdings, lots, families[j]);
    }
  }

  lemma FamiliesHold(holdings: seq<Holding>, families: seq<string>, table: map<string, seq<Holding>>)
    requires Grouped(holdings, FamilyIdOf, families, table)
    ensures forall f :: f in families ==> exists h :: h in holdings && h.familyId == f
  {
    forall f | f in families ensures exists h :: h in holdings && h.familyId == f {
      assert f in table && table[f] != [] && Members(holdings, FamilyIdOf, f) == table[f];
      FirstMember(holdings, f);
    }
  }

  lemma FirstMember(holdings: seq<Holding>, f: string)
    requires Members(holdings, FamilyIdOf, f) != []
    ensures exists h :: h in holdings && h.familyId == f
  {
    var h := Members(holdings, FamilyIdOf, f)[0];
    assert h in Members(holdings, FamilyIdOf, f);
    assert h in holdings && FamilyIdOf(h) == f;
  }

  lemma BasisMeaning(holdings: seq<Holding>, lots: seq<Lot>, f: string)
    ensures var row := BasisRow(holdings, lots, f, Members(holdings, FamilyIdOf, f));
            row.familyId == f && row.lots == FamilyLots(holdings, lots, f) &&
            row.knownCents == GroupTotal(holdings, FamilyIdOf, ReportedCents, f) &&
            row.holdingCount == |Members(holdings, FamilyIdOf, f)| &&
            row.missingCount == |Filter(Members(holdings, FamilyIdOf, f), Unvalued())|
  {
    ValuedSum(Members(holdings, FamilyIdOf, f));
    ValuedOrNot(Members(holdings, FamilyIdOf, f));
  }

  lemma {:induction false} ValuedOrNot(hs: seq<Holding>)
    ensures |Filter(hs, (h: Holding) => h.valueKnown)| + |Filter(hs, Unvalued())| == |hs|
  {
    if |hs| > 0 { ValuedOrNot(hs[..|hs| - 1]); }
  }

  lemma {:induction false} ValuedSum(hs: seq<Holding>)
    ensures SumBy(Filter(hs, (h: Holding) => h.valueKnown), (h: Holding) => h.valueCents) == SumBy(hs, ReportedCents)
  {
    if |hs| > 0 {
      var front, last := hs[..|hs| - 1], hs[|hs| - 1];
      ValuedSum(front);
      if last.valueKnown {
        SumBySnoc(Filter(front, (h: Holding) => h.valueKnown), last, (h: Holding) => h.valueCents);
      }
    }
  }

  // --- The lots of a portfolio, seen per family ------------------------------

  function LotFamily(l: Lot): string { l.familyId }

  lemma {:induction false} OwnerFamilyOfHolding(holdings: seq<Holding>, h: Holding)
    requires Distinct(HoldingIdsOf(holdings)) && h in holdings
    ensures OwnerFamily(holdings, h.id) == Some(h.familyId)
  {
    var n := |holdings| - 1;
    if holdings[n] != h {
      assert h in holdings[..n];
      var i :| 0 <= i < n && holdings[i] == h;
      assert HoldingIdsOf(holdings)[i] != HoldingIdsOf(holdings)[n];
      assert forall j :: 0 <= j < n ==> HoldingIdsOf(holdings[..n])[j] == HoldingIdsOf(holdings)[j];
      OwnerFamilyOfHolding(holdings[..n], h);
    }
  }

  /** The visibility filter drops nothing from a portfolio's own lots. */
  lemma OwnedLotsVisible(holdings: seq<Holding>, lots: seq<Lot>)
    requires Distinct(HoldingIdsOf(holdings)) && forall l :: l in lots ==> OwnedBy(holdings, l)
    ensures forall l :: l in lots ==> OwnerFamily(holdings, l.holdingId) == Some(l.familyId)
    ensures forall f :: FamilyLots(holdings, lots, f) == Members(lots, LotFamily, f)
    ensures forall l :: l in lots ==> exists h :: h in holdings && h.familyId == l.familyId
  {
    forall l | l in lots
      ensures OwnerFamily(holdings, l.holdingId) == Some(l.familyId)
      ensures exists h :: h in holdings && h.familyId == l.familyId
    {
      var h :| h in holdings && h.valueKnown && Labelled(h, [], l);
      OwnerFamilyOfHolding(holdings, h);
    }
    forall f ensures FamilyLots(holdings, lots, f) == Members(lots, LotFamily, f) {
      MembersIs(lots, LotFamily, f, (l: Lot) => InFamily(holdings, f, l));
    }
  }

  /** Per family, terminal lots sum to the family's reported NAV. */
  lemma {:induction false} FamilyConserves(data: RiskData, holdings: seq<Holding>, depth: nat, f: string)
    requires AllExpandable(data, depth)
    requires Distinct(HoldingIdsOf(holdings)) && forall h :: h in holdings ==> HoldingOk(h)
    ensures LotSum(Members(PortfolioLots(data, holdings, depth), LotFamily, f)) ==
            GroupTotal(holdings, FamilyIdOf, ReportedCents, f)
  {
    hide *;
    if |holdings| == 0 {
      assert holdings == [];
      NoHoldings(data, depth, f);
    } else {
      var front, last := holdings[..|holdings| - 1], holdings[|holdings| - 1];
      FrontHoldings(holdings);
      LotsSnoc(data, holdings, depth);
      assert holdings == front + [last];
      FamilyConserves(data, front, depth, f);
      FamilyOfLast(data, last, depth, f);
      GroupTotalSnoc(front, last, f);
      MembersConcat(PortfolioLots(data, front, depth), LotsOfLast(data, last, depth), LotFamily, f);
      LotSumConcat(Members(PortfolioLots(data, front, depth), LotFamily, f),
                   Members(LotsOfLast(data, last, depth), LotFamily, f));
    }
  }

  lemma NoHoldings(data: RiskData, depth: nat, f: string)
    ensures LotSum(Members(PortfolioLots(data, [], depth), LotFamily, f)) == 0
    ensures GroupTotal([], FamilyIdOf, ReportedCents, f) == 0
  {
    MembersAll([], LotFamily, f);
    MembersAll([], FamilyIdOf, f);
  }

  lemma GroupTotalSnoc(holdings: seq<Holding>, last: Holding, f: string)
    ensures GroupTotal(holdings + [last], FamilyIdOf, ReportedCents, f) ==
            GroupTotal(holdings, FamilyIdOf, ReportedCents, f) + (if last.familyId == f then ReportedCents(last) else 0)
  {
    hide Members, SumBy;
    MembersSnoc(holdings, last, FamilyIdOf);
    SumBySnoc(Members(holdings, FamilyIdOf, f), last, ReportedCents);
    assert Members(holdings, FamilyIdOf, f) + [] == Members(holdings, FamilyIdOf, f);
  }

  lemma FamilyOfLast(data: RiskData, last: Holding, depth: nat, f: string)
    requires AllExpandable(data, depth) && HoldingOk(last)
    ensures LotSum(Members(LotsOfLast(data, last, depth), LotFamily, f)) ==
            if last.familyId == f then ReportedCents(last) else 0
  {
    hide HoldingLots, AllExpandable, Members;
    HoldingConserves(data, last, depth);
    var b := LotsOfLast(data, last, depth);
    if last.familyId == f { MembersAll(b, LotFamily, f); } else { MembersNone(b, LotFamily, f); }
  }

  // --- One issuer across families ---------------------------------------------

  datatype FamilyIssuerRow = FamilyIssuerRow(familyId: string, directCents: int, indirectCents: int, exposureCents: int)

  function ExposureOfRow(r: FamilyIssuerRow): int { r.exposureCents }

  predicate MatchesIssuer(issuerId: string, l: Lot) { !l.unresolved && l.issuerId == Some(issuerId) }

  function Matched(lots: seq<Lot>, issuerId: string): seq<Lot> {
    Filter(lots, (l: Lot) => MatchesIssuer(issuerId, l))
  }

  function Direct(lots: seq<Lot>): seq<Lot> { Filter(lots, (l: Lot) => |l.path| == 1) }

  function Indirect(lots: seq<Lot>): seq<Lot> { Filter(lots, (l: Lot) => |l.path| > 1) }

  method FamilyIssuerExposure(holdings: seq<Holding>, lots: seq<Lot>, issuerId: string)
    returns (rows: seq<FamilyIssuerRow>)
    requires Distinct(HoldingIdsOf(holdings)) && forall l :: l in lots ==> OwnedBy(holdings, l)
    ensures forall r :: r in rows ==>
              && r.exposureCents == r.directCents + r.indirectCents
              && r.exposureCents == LotSum(Matched(Members(lots, LotFamily, r.familyId), issuerId))
              && r.directCents == LotSum(Filter(Matched(Members(lots, LotFamily, r.familyId), issuerId), HeldItself()))
    ensures SumBy(rows, ExposureOfRow) == LotSum(Matched(lots, issuerId))
    ensures |rows| == |ToSet(FamilyIds(holdings))|
    ensures forall h :: h in holdings ==> exists r :: r in rows && r.familyId == h.familyId
  {
    hide *;
    var families, bases := FamilyBases(holdings, lots);
    OwnedLotsVisible(holdings, lots);
    BasesAre(holdings, lots, families, bases);
    rows := [];
    var i := 0;
    while i < |bases|
      invariant 0 <= i <= |bases| && |rows| == i
      invariant forall j :: 0 <= j < i ==>
                  rows[j] == IssuerRow(families[j], Members(lots, LotFamily, families[j]), issuerId)
    {
      rows := rows + [IssuerRow(families[i], bases[i].lots, issuerId)];
      i := i + 1;
    }
    IssuerRowsTotal(holdings, lots, families, issuerId, rows);
    RowForEachFamily(holdings, lots, families, bases, issuerId, rows);
  }

  /** The holding is mapped to the asset itself, not to a fund above it. */
  function HeldItself(): Lot -> bool { (l: Lot) => |l.path| == 1 }

  function FamilyIds(holdings: seq<Holding>): (r: seq<string>)
    ensures |r| == |holdings| && forall i :: 0 <= i < |r| ==> r[i] == holdings[i].familyId
  {
    seq(|holdings|, i requires 0 <= i < |holdings| => holdings[i].familyId)
  }

  lemma RowForEachFamily(holdings: seq<Holding>, lots: seq<Lot>, families: seq<string>, bases: seq<FamilyBasis>,
                         issuerId: string, rows: seq<FamilyIssuerRow>)
    requires BasesOf(holdings, lots, families, bases) && |rows| == |families|
    requires forall j :: 0 <= j < |rows| ==>
               rows[j] == IssuerRow(families[j], Members(lots, LotFamily, families[j]), issuerId)
    ensures |rows| == |ToSet(FamilyIds(holdings))|
    ensures forall h :: h in holdings ==> exists r :: r in rows && r.familyId == h.familyId
  {
    FamiliesOf(holdings, lots, families, bases);
    FamiliesCount(holdings, families);
    hide *;
    forall j | 0 <= j < |rows| ensures rows[j].familyId == families[j] {
      RowFamily(families[j], Members(lots, LotFamily, families[j]), issuerId);
    }
    forall h | h in holdings ensures exists r :: r in rows && r.familyId == h.familyId {
      var j: nat :| j < |families| && families[j] == h.familyId;
      assert rows[j] in rows;
    }
  }

  lemma FamiliesOf(holdings: seq<Holding>, lots: seq<Lot>, families: seq<string>, bases: seq<FamilyBasis>)
    requires BasesOf(holdings, lots, families, bases)
    ensures Distinct(families) && forall h :: h in holdings ==> h.familyId in families
    ensures forall f :: f in families ==> exists h :: h in holdings && h.familyId == f
  {
    hide FamilyLots, GroupTotal, Members, Distinct;
  }

  lemma RowFamily(f: string, lots: seq<Lot>, issuerId: string)
    ensures IssuerRow(f, lots, issuerId).familyId == f
  {
  }

  lemma FamiliesCount(holdings: seq<Holding>, families: seq<string>)
    requires Distinct(families) && forall h :: h in holdings ==> h.familyId in families
    requires forall f :: f in families ==> exists h :: h in holdings && h.familyId == f
    ensures |families| == |ToSet(FamilyIds(holdings))|
  {
    DistinctByCount(families);
    forall f ensures f in families <==> f in ToSet(FamilyIds(holdings)) {
      if f in families {
        var h :| h in holdings && h.familyId == f;
        var i: nat :| i < |holdings| && holdings[i] == h;
        assert FamilyIds(holdings)[i] == f;
      }
    }
    assert ToSet(families) == ToSet(FamilyIds(holdings));
  }

  lemma BasesAre(holdings: seq<Holding>, lots: seq<Lot>, families: seq<string>, bases: seq<FamilyBasis>)
    requires BasesOf(holdings, lots, families, bases)
    requires forall f :: FamilyLots(holdings, lots, f) == Members(lots, LotFamily, f)
    ensures |bases| == |families| && Distinct(families) && forall h :: h in holdings ==> h.familyId in families
    ensures forall j :: 0 <= j < |bases| ==>
              bases[j].familyId == families[j] && bases[j].lots == Members(lots, LotFamily, families[j])
              && bases[j].knownCents == GroupTotal(holdings, FamilyIdOf, ReportedCents, families[j])
  {
    hide FamilyLots, Members, GroupTotal, Distinct;
  }

  lemma IssuerRowMeaning(lots: seq<Lot>, f: string, issuerId: string)
    requires forall l :: l in lots && !l.unresolved ==> |l.path| > 0
    ensures var r := IssuerRow(f, Members(lots, LotFamily, f), issuerId);
            && r.familyId == f && r.exposureCents == r.directCents + r.indirectCents
            && r.exposureCents == LotSum(Matched(Members(lots, LotFamily, f), issuerId))
            && r.directCents == LotSum(Filter(Matched(Members(lots, LotFamily, f), issuerId), HeldItself()))
            && r.exposureCents == GroupTotal(Matched(lots, issuerId), LotFamily, CentsOf, f)
  {
    var own := Members(lots, LotFamily, f);
    DirectIndirect(Matched(own, issuerId));
    FilterEq(Matched(own, issuerId), (l: Lot) => |l.path| == 1, HeldItself());
    MatchCommutes(lots, f, issuerId);
    hide Members, Direct, Indirect, Matched, SumBy;
  }

  lemma IssuerRowsTotal(holdings: seq<Holding>, lots: seq<Lot>, families: seq<string>, issuerId: string,
                        rows: seq<FamilyIssuerRow>)
    requires (forall l :: l in lots ==> OwnedBy(holdings, l)) && Distinct(families) && |rows| == |families|
    requires forall l :: l in lots ==> exists h :: h in holdings && h.familyId == l.familyId
    requires forall h :: h in holdings ==> h.familyId in families
    requires forall j :: 0 <= j < |rows| ==>
               rows[j] == IssuerRow(families[j], Members(lots, LotFamily, families[j]), issuerId)
    ensures forall r :: r in rows ==>
              && r.exposureCents == r.directCents + r.indirectCents
              && r.exposureCents == LotSum(Matched(Members(lots, LotFamily, r.familyId), issuerId))
              && r.directCents == LotSum(Filter(Matched(Members(lots, LotFamily, r.familyId), issuerId), HeldItself()))
    ensures SumBy(rows, ExposureOfRow) == LotSum(Matched(lots, issuerId))
  {
    var matched := Matched(lots, issuerId);
    OwnedPaths(holdings, lots);
    hide OwnedBy, IssuerRow, Members, GroupTotal, SumBy, Filter, Distinct;
    forall j | 0 <= j < |rows|
      ensures rows[j].exposureCents == rows[j].directCents + rows[j].indirectCents
      ensures rows[j].exposureCents == LotSum(Matched(Members(lots, LotFamily, rows[j].familyId), issuerId))
      ensures rows[j].directCents ==
              LotSum(Filter(Matched(Members(lots, LotFamily, rows[j].familyId), issuerId), HeldItself()))
      ensures ExposureOfRow(rows[j]) == GroupTotal(matched, LotFamily, CentsOf, families[j])
    {
      IssuerRowMeaning(lots, families[j], issuerId);
    }
    TotalsOfRows(rows, ExposureOfRow, matched, LotFamily, CentsOf, families);
    forall l | l in matched ensures LotFamily(l) in families {
      var h :| h in holdings && h.familyId == l.familyId;
    }
    GroupsPartition(matched, LotFamily, CentsOf, families);
  }

  lemma OwnedPaths(holdings: seq<Holding>, lots: seq<Lot>)
    requires forall l :: l in lots ==> OwnedBy(holdings, l)
    ensures forall l :: l in lots && !l.unresolved ==> |l.path| > 0
  {
    forall l | l in lots && !l.unresolved ensures |l.path| > 0 {
      assert OwnedBy(holdings, l);
      var h :| h in holdings && h.valueKnown && Labelled(h, [], l);
    }
  }

  function IssuerRow(familyId: string, lots: seq<Lot>, issuerId: string): FamilyIssuerRow {
    var matched := Matched(lots, issuerId);
    var direct, indirect := LotSum(Direct(matched)), LotSum(Indirect(matched));
    FamilyIssuerRow(familyId, direct, indirect, direct + indirect)
  }

  lemma {:induction false} DirectIndirect(lots: seq<Lot>)
    requires forall l :: l in lots ==> |l.path| > 0
    ensures LotSum(Direct(lots)) + LotSum(Indirect(lots)) == LotSum(lots)
  {
    if |lots| > 0 {
      var front, last := lots[..|lots| - 1], lots[|lots| - 1];
      DirectIndirect(front);
      SumBySnoc(Direct(front), last, CentsOf);
      SumBySnoc(Indirect(front), last, CentsOf);
    }
  }

  lemma MatchCommutes(lots: seq<Lot>, f: string, issuerId: string)
    ensures Matched(Members(lots, LotFamily, f), issuerId) == Members(Matched(lots, issuerId), LotFamily, f)
  {
    MembersFilter(lots, LotFamily, f, (l: Lot) => MatchesIssuer(issuerId, l));
  }

  /** A named issuer's family rows add up to its issuer group. */
  lemma MatchedIsIssuerGroup(holdings: seq<Holding>, lots: seq<Lot>, issuerId: string)
    requires forall l :: l in lots ==> OwnedBy(holdings, l)
    requires issuerId != UNKNOWN
    ensures LotSum(Matched(lots, issuerId)) == GroupTotal(lots, Keyed(IssuerOf), CentsOf, issuerId)
  {
    var key := Keyed(IssuerOf);
    forall l | l in lots ensures MatchesIssuer(issuerId, l) == (key(l) == issuerId) {
      assert OwnedBy(holdings, l);
      assert key(l) == if IssuerOf(l).Some? then IssuerOf(l).value else UNKNOWN;
    }
    MembersIs(lots, key, issuerId, (l: Lot) => MatchesIssuer(issuerId, l));
  }

  // --- Managers by issuers -----------------------------------------------------

  datatype MatrixCell = MatrixCell(managerId: string, issuerId: string, cents: int)

  function CentsOfCell(c: MatrixCell): int { c.cents }

  predicate Attributed(l: Lot) { l.issuerId.Some? && l.managerId.Some? && !l.unresolved }

  function CellKey(l: Lot): (string, string) {
    (if l.managerId.Some? then l.managerId.value else "", if l.issuerId.Some? then l.issuerId.value else "")
  }

  /** Cells are the entries of the nested manager and issuer tables. */
  method ManagerIssuerMatrix(holdings: seq<Holding>, lots: seq<Lot>)
    returns (cells: seq<MatrixCell>, omittedCents: int)
    requires Distinct(HoldingIdsOf(holdings)) && forall l :: l in lots ==> OwnedBy(holdings, l)
    ensures SumBy(cells, CentsOfCell) + omittedCents == LotSum(lots)
    ensures CellsOf(Filter(lots, Attributed), cells)
  {
    var visible := Filter(lots, (l: Lot) => OwnerFamily(holdings, l.holdingId) == Some(l.familyId));
    OwnedLotsVisible(holdings, lots);
    FilterAll(lots, (l: Lot) => OwnerFamily(holdings, l.holdingId) == Some(l.familyId));
    assert visible == lots;
    var usable := Filter(visible, Attributed);
    cells := MatrixCells(usable);
    omittedCents := LotSum(Filter(visible, Unattributed));
    SplitSum(lots);
  }

  /** One cell per manager and issuer, holding exactly their lots. */
  ghost predicate CellsOf(usable: seq<Lot>, cells: seq<MatrixCell>) {
    && (forall i, j :: 0 <= i < j < |cells| ==>
          (cells[i].managerId, cells[i].issuerId) != (cells[j].managerId, cells[j].issuerId))
    && (forall c :: c in cells ==> c.cents == LotSum(Members(usable, CellKey, (c.managerId, c.issuerId))))
    && (forall l :: l in usable ==> exists c :: c in cells && (c.managerId, c.issuerId) == CellKey(l))
  }

  method MatrixCells(usable: seq<Lot>) returns (cells: seq<MatrixCell>)
    ensures SumBy(cells, CentsOfCell) == LotSum(usable)
    ensures CellsOf(usable, cells)
  {
    var keys, table := GroupBy(usable, CellKey);
    cells := [];
    var i := 0;
    while i < |keys|
      invariant 0 <= i <= |keys| && |cells| == i
      invariant forall j :: 0 <= j < i ==>
                  cells[j] == MatrixCell(keys[j].0, keys[j].1, LotSum(Members(usable, CellKey, keys[j])))
    {
      cells := cells + [MatrixCell(keys[i].0, keys[i].1, LotSum(table[keys[i]]))];
      i := i + 1;
    }
    GroupedCovers(usable, CellKey, keys, table);
    CellKeysDistinct(usable, keys, table);
    CellsPartition(usable, keys, cells);
  }

  lemma CellKeysDistinct(usable: seq<Lot>, keys: seq<(string, string)>, table: map<(string, string), seq<Lot>>)
    requires Grouped(usable, CellKey, keys, table)
    ensures Distinct(keys)
  {
    hide Members;
  }

  lemma CellListed(keys: seq<(string, string)>, cells: seq<MatrixCell>, key: (string, string))
    requires |cells| == |keys| && key in keys
    requires forall j :: 0 <= j < |keys| ==> cells[j].managerId == keys[j].0 && cells[j].issuerId == keys[j].1
    ensures exists c :: c in cells && (c.managerId, c.issuerId) == key
  {
    var j: nat :| j < |keys| && keys[j] == key;
    assert cells[j] in cells;
  }

  lemma CellsPartition(usable: seq<Lot>, keys: seq<(string, string)>, cells: seq<MatrixCell>)
    requires Distinct(keys) && |cells| == |keys| && forall l :: l in usable ==> CellKey(l) in keys
    requires forall j :: 0 <= j < |keys| ==>
               cells[j] == MatrixCell(keys[j].0, keys[j].1, LotSum(Members(usable, CellKey, keys[j])))
    ensures SumBy(cells, CentsOfCell) == LotSum(usable)
    ensures CellsOf(usable, cells)
  {
    forall l | l in usable ensures exists c :: c in cells && (c.managerId, c.issuerId) == CellKey(l) {
      CellListed(keys, cells, CellKey(l));
    }
    TotalsOfRows(cells, CentsOfCell, usable, CellKey, CentsOf, keys);
    GroupsPartition(usable, CellKey, CentsOf, keys);
  }

  predicate Unattributed(l: Lot) { !Attributed(l) }

  lemma {:induction false} SplitSum(lots: seq<Lot>)
    ensures LotSum(Filter(lots, Attributed)) + LotSum(Filter(lots, Unattributed)) == LotSum(lots)
  {
    if |lots| > 0 {
      var front, last := lots[..|lots| - 1], lots[|lots| - 1];
      SplitSum(front);
      SumBySnoc(Filter(front, Attributed), last, CentsOf);
      SumBySnoc(Filter(front, Unattributed), last, CentsOf);
    }
  }
}
