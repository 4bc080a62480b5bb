/**
 Deterministic stress scenarios over terminal lots: `runStressScenario` and
 `stressGroups` (lib/risk-engine.ts), and the family view of the same result
 (`familyStressExposure` in lib/family-exposure.ts).
 */
module Stress {
  import opened Common
  import opened RiskContract
  import opened Allocation
  import opened Exposure
  import opened ExposureBuilder
  import opened ExposureGroups
  import opened Grouping

  /** Shocks are relative value changes; a key that is absent means no shock. */
  datatype Scenario = Scenario(
    assetClassShocks: map<string, real>,
    issuerShocks: map<string, real>,
    sectorShocks: map<string, real>,
    currencyShocks: map<string, real>,
    capitalCallRate: real
  )

  datatype ShockSource = Issuer | Sector | AssetClass | NoShock

  datatype StressedLot = StressedLot(lot: Lot, afterCents: int, lossCents: int, source: ShockSource)

  datatype StressError = ScenarioRejected

  predicate ShocksOk(m: map<string, real>) { forall k :: k in m ==> -1.0 <= m[k] <= 3.0 }

  predicate ScenarioOk(sc: Scenario) {
    && ShocksOk(sc.assetClassShocks) && ShocksOk(sc.issuerShocks)
    && ShocksOk(sc.sectorShocks) && ShocksOk(sc.currencyShocks)
    && ("EUR" in sc.currencyShocks ==> sc.currencyShocks["EUR"] == 0.0)
    && |sc.issuerShocks| <= MAX_NODES && |sc.sectorShocks| <= MAX_NODES
    && 0.0 <= sc.capitalCallRate <= 1.0
  }

  function Hits(m: map<string, real>, key: Option<string>): bool { key.Some? && key.value in m }

  /** An issuer shock replaces a sector shock, which replaces an asset-class shock. */
  function SourceOf(l: Lot, sc: Scenario): ShockSource {
    if Hits(sc.issuerShocks, l.issuerId) then Issuer
    else if Hits(sc.sectorShocks, l.sector) then Sector
    else if l.assetClass in sc.assetClassShocks then AssetClass
    else NoShock
  }

  function ValuationShock(l: Lot, sc: Scenario): real {
    match SourceOf(l, sc)
    case Issuer => sc.issuerShocks[l.issuerId.value]
    case Sector => sc.sectorShocks[l.sector.value]
    case AssetClass => sc.assetClassShocks[l.assetClass]
    case NoShock => 0.0
  }

  function CurrencyShock(l: Lot, sc: Scenario): real {
    if l.currency.Some? && l.currency.value != "EUR" && l.currency.value in sc.currencyShocks
    then sc.currencyShocks[l.currency.value] else 0.0
  }

  /** The two shocks compound. */
  function Shocked(cents: int, v: real, c: real): int { Round(cents as real * ((1.0 + v) * (1.0 + c))) }

  function After(l: Lot, sc: Scenario): int { Shocked(l.cents, ValuationShock(l, sc), CurrencyShock(l, sc)) }

  function AfterIn(sc: Scenario): Lot -> int { (l: Lot) => After(l, sc) }

  function LossIn(sc: Scenario): Lot -> int { (l: Lot) => l.cents - After(l, sc) }

  function StressLot(l: Lot, sc: Scenario): StressedLot {
    StressedLot(l, After(l, sc), l.cents - After(l, sc), SourceOf(l, sc))
  }

  function StressAll(lots: seq<Lot>, sc: Scenario): (r: seq<StressedLot>)
    ensures |r| == |lots| && forall i :: 0 <= i < |r| ==> r[i] == StressLot(lots[i], sc)
  {
    seq(|lots|, i requires 0 <= i < |lots| => StressLot(lots[i], sc))
  }

  function AfterCents(s: StressedLot): int { s.afterCents }
  function LossCents(s: StressedLot): int { s.lossCents }
  function BeforeCents(s: StressedLot): int { s.lot.cents }

  datatype Contributor = Contributor(id: string, beforeCents: int, afterCents: int, lossCents: int)

  function ContributorLoss(c: Contributor): int { c.lossCents }

  datatype StressResult = StressResult(
    beforeCents: int, afterCents: int, lossCents: int, lots: seq<StressedLot>,
    byHolding: seq<Contributor>, byIssuer: seq<Contributor>)

  function HoldingKey(s: StressedLot): string { s.lot.holdingId }
  function IssuerKey(s: StressedLot): string { if s.lot.issuerId.Some? then s.lot.issuerId.value else UNKNOWN }

  // --- One lot -----------------------------------------------------------------

  lemma FactorBounds(v: real, c: real)
    requires -1.0 <= v && -1.0 <= c
    ensures (1.0 + v) * (1.0 + c) >= 0.0
  {
    MulNonneg(1.0 + v, 1.0 + c);
  }

  /** A scenario within its bounds never values a lot below zero, so no loss exceeds the value. */
  lemma LossWithinValue(l: Lot, sc: Scenario)
    requires ScenarioOk(sc) && l.cents >= 0
    ensures After(l, sc) >= 0
    ensures StressLot(l, sc).lossCents <= l.cents
  {
    hide Shocked, ScenarioOk, ValuationShock, CurrencyShock;
    ShocksBounded(l, sc);
    ShockedNonneg(l.cents, ValuationShock(l, sc), CurrencyShock(l, sc));
  }

  lemma ShocksBounded(l: Lot, sc: Scenario)
    requires ScenarioOk(sc)
    ensures -1.0 <= ValuationShock(l, sc) && -1.0 <= CurrencyShock(l, sc)
  {
  }

  lemma ShockedNonneg(cents: nat, v: real, c: real)
    requires -1.0 <= v && -1.0 <= c
    ensures Shocked(cents, v, c) >= 0
  {
    FactorBounds(v, c);
    MulNonneg(cents as real, (1.0 + v) * (1.0 + c));
  }

  ghost predicate DeeperMap(mild: map<string, real>, deep: map<string, real>) {
    mild.Keys == deep.Keys && forall k :: k in mild ==> deep[k] <= mild[k]
  }

  /** The same keys are shocked, each at least as severely. */
  ghost predicate Deeper(mild: Scenario, deep: Scenario) {
    && DeeperMap(mild.assetClassShocks, deep.assetClassShocks)
    && DeeperMap(mild.issuerShocks, deep.issuerShocks)
    && DeeperMap(mild.sectorShocks, deep.sectorShocks)
    && DeeperMap(mild.currencyShocks, deep.currencyShocks)
  }

  lemma ProductMonotone(a: real, b: real, a': real, b': real)
    requires 0.0 <= a' <= a && 0.0 <= b' <= b
    ensures a' * b' <= a * b
  {
    MulNonneg(a - a', b);
    MulNonneg(a', b - b');
    assert a * b - a' * b' == (a - a') * b + a' * (b - b');
  }

  /** Deeper shocks on the same keys never raise a lot's value. */
  lemma DeeperNeverRaises(l: Lot, mild: Scenario, deep: Scenario)
    requires ScenarioOk(mild) && ScenarioOk(deep) && Deeper(mild, deep) && l.cents >= 0
    ensures After(l, deep) <= After(l, mild)
    ensures SourceOf(l, deep) == SourceOf(l, mild)
  {
    hide Shocked, ScenarioOk;
    ShocksDeeper(l, mild, deep);
    ShockedMonotone(l.cents, ValuationShock(l, mild), CurrencyShock(l, mild),
                    ValuationShock(l, deep), CurrencyShock(l, deep));
  }

  lemma ShocksDeeper(l: Lot, mild: Scenario, deep: Scenario)
    requires ScenarioOk(mild) && ScenarioOk(deep) && Deeper(mild, deep)
    ensures SourceOf(l, deep) == SourceOf(l, mild)
    ensures -1.0 <= ValuationShock(l, deep) <= ValuationShock(l, mild)
    ensures -1.0 <= CurrencyShock(l, deep) <= CurrencyShock(l, mild)
  {
  }

  lemma ShockedMonotone(cents: nat, v: real, c: real, v': real, c': real)
    requires -1.0 <= v' <= v && -1.0 <= c' <= c
    ensures Shocked(cents, v', c') <= Shocked(cents, v, c)
  {
    ProductMonotone(1.0 + v, 1.0 + c, 1.0 + v', 1.0 + c');
    FactorBounds(v', c');
    ProductMonotone(cents as real, (1.0 + v) * (1.0 + c), cents as real, (1.0 + v') * (1.0 + c'));
  }

  /** Hence no sum over a common set of lots rises either. */
  lemma {:induction false} DeeperTotals(lots: seq<Lot>, mild: Scenario, deep: Scenario)
    requires ScenarioOk(mild) && ScenarioOk(deep) && Deeper(mild, deep)
    requires forall l :: l in lots ==> l.cents >= 0
    ensures SumBy(lots, AfterIn(deep)) <= SumBy(lots, AfterIn(mild))
    ensures SumBy(lots, LossIn(deep)) >= SumBy(lots, LossIn(mild))
  {
    forall l | l in lots ensures After(l, deep) <= After(l, mild) {
      DeeperNeverRaises(l, mild, deep);
    }
    SumByLe(lots, AfterIn(deep), AfterIn(mild));
    SumByLe(lots, LossIn(mild), LossIn(deep));
  }

  // --- The whole scenario ------------------------------------------------------

  lemma {:induction false} StressedSums(lots: seq<Lot>, sc: Scenario)
    ensures SumBy(StressAll(lots, sc), BeforeCents) == LotSum(lots)
    ensures SumBy(StressAll(lots, sc), AfterCents) == SumBy(lots, AfterIn(sc))
    ensures SumBy(StressAll(lots, sc), LossCents) == SumBy(lots, LossIn(sc))
  {
    hide After;
    if |lots| > 0 {
      StressedSums(lots[..|lots| - 1], sc);
      assert StressAll(lots, sc)[..|lots| - 1] == StressAll(lots[..|lots| - 1], sc);
    }
  }

  lemma LossIsDifference(lots: seq<Lot>, sc: Scenario)
    ensures SumBy(lots, LossIn(sc)) == LotSum(lots) - SumBy(lots, AfterIn(sc))
  {
    SumByAdd(lots, LossIn(sc), AfterIn(sc), CentsOf);
  }

  function ContributorRow(id: string, members: seq<StressedLot>): Contributor {
    var before, after := SumBy(members, BeforeCents), SumBy(members, AfterCents);
    Contributor(id, before, after, before - after)
  }

  /** Rows partition the lots, and a row's loss is the sum of its lots' losses. */
  ghost predicate ContributorsOf(lots: seq<StressedLot>, key: StressedLot -> string, rows: seq<Contributor>) {
    && SumBy(rows, ContributorLoss) == SumBy(lots, LossCents)
    && (forall r :: r in rows ==>
          && r.beforeCents - r.afterCents == r.lossCents
          && r.lossCents == GroupTotal(lots, key, LossCents, r.id)
          && r.afterCents == GroupTotal(lots, key, AfterCents, r.id))
  }

  method StressGroups(lots: seq<StressedLot>, key: StressedLot -> string) returns (rows: seq<Contributor>)
    requires forall s :: s in lots ==> s.lossCents == s.lot.cents - s.afterCents
    ensures ContributorsOf(lots, key, rows)
  {
    hide Members, ContributorRow;
    var keys, table := GroupBy(lots, key);
    rows := [];
    var i := 0;
    while i < |keys|
      invariant 0 <= i <= |keys| && |rows| == i
      invariant forall j :: 0 <= j < i ==> rows[j] == ContributorRow(keys[j], Members(lots, key, keys[j]))
    {
      rows := rows + [ContributorRow(keys[i], table[keys[i]])];
      i := i + 1;
    }
    forall j | 0 <= j < |rows|
      ensures rows[j].id == keys[j] && rows[j].beforeCents - rows[j].afterCents == rows[j].lossCents
      ensures rows[j].lossCents == GroupTotal(lots, key, LossCents, keys[j])
      ensures rows[j].afterCents == GroupTotal(lots, key, AfterCents, keys[j])
    {
      RowLoss(lots, key, keys[j]);
    }
    GroupedCovers(lots, key, keys, table);
    TotalsOfRows(rows, ContributorLoss, lots, key, LossCents, keys);
    GroupsPartition(lots, key, LossCents, keys);
  }

  lemma RowLoss(lots: seq<StressedLot>, key: StressedLot -> string, id: string)
    requires forall s :: s in lots ==> s.lossCents == s.lot.cents - s.afterCents
    ensures var row := ContributorRow(id, Members(lots, key, id));
            row.id == id && row.lossCents == row.beforeCents - row.afterCents &&
            row.lossCents == GroupTotal(lots, key, LossCents, id) &&
            row.afterCents == GroupTotal(lots, key, AfterCents, id)
  {
    SumByAdd(Members(lots, key, id), LossCents, AfterCents, BeforeCents);
  }

  method RunStressScenario(exposure: TotalExposure, sc: Scenario) returns (r: Result<StressResult, StressError>)
    requires LotSum(exposure.lots) == exposure.totalCents
    ensures r.Ok? <==> ScenarioOk(sc)
    ensures r.Ok? ==>
              && r.value.lots == StressAll(exposure.lots, sc)
              && r.value.beforeCents == exposure.totalCents
              && r.value.afterCents == SumBy(exposure.lots, AfterIn(sc))
              && r.value.lossCents == SumBy(exposure.lots, LossIn(sc))
              && ContributorsOf(r.value.lots, HoldingKey, r.value.byHolding)
              && ContributorsOf(r.value.lots, IssuerKey, r.value.byIssuer)
              && SumBy(r.value.byHolding, ContributorLoss) == r.value.lossCents
              && SumBy(r.value.byIssuer, ContributorLoss) == r.value.lossCents
  {
    hide After;
    if !ScenarioOk(sc) { return Err(ScenarioRejected); }
    var lots := StressAll(exposure.lots, sc);
    var after := SumBy(lots, AfterCents);
    StressedSums(exposure.lots, sc);
    LossIsDifference(exposure.lots, sc);
    var byHolding := StressGroups(lots, HoldingKey);
    var byIssuer := StressGroups(lots, IssuerKey);
    return Ok(StressResult(exposure.totalCents, after, exposure.totalCents - after, lots, byHolding, byIssuer));
  }

  // --- The family view ----------------------------------------------------------

  datatype FamilyStressRow = FamilyStressRow(familyId: string, knownCents: int, afterCents: int, lossCents: int)

  function FamilyLoss(r: FamilyStressRow): int { r.lossCents }

  /** `new Map(lots.map(lot => [lot.id, lot]))`, looked up. */
  function FindStressed(lots: seq<StressedLot>, id: LotId): (r: Option<StressedLot>)
    ensures r.Some? ==> r.value in lots && r.value.lot.id == id
    ensures r.None? ==> forall s :: s in lots ==> s.lot.id != id
  {
    if |lots| == 0 then None
    else if lots[|lots| - 1].lot.id == id then Some(lots[|lots| - 1])
    else FindStressed(lots[..|lots| - 1], id)
  }

  function Found(stressed: seq<StressedLot>, lots: seq<Lot>): seq<StressedLot> {
    if |lots| == 0 then []
    else
      var s := FindStressed(stressed, lots[|lots| - 1].id);
      Found(stressed, lots[..|lots| - 1]) + (if s.Some? then [s.value] else [])
  }

  /** Distinct lot identifiers make the lookup return each lot's own result. */
  lemma {:induction false} FoundIsStressed(all: seq<Lot>, lots: seq<Lot>, sc: Scenario)
    requires DistinctIds(all) && forall l :: l in lots ==> l in all
    ensures Found(StressAll(all, sc), lots) == StressAll(lots, sc)
  {
    hide DistinctIds, StressLot, FindStressed;
    if |lots| > 0 {
      var front, last := lots[..|lots| - 1], lots[|lots| - 1];
      FoundIsStressed(all, front, sc);
      assert last in lots;
      OneFound(all, last, sc);
      assert StressAll(lots, sc) == StressAll(front, sc) + [StressLot(last, sc)];
    }
  }

  lemma OneFound(all: seq<Lot>, l: Lot, sc: Scenario)
    requires DistinctIds(all) && l in all
    ensures FindStressed(StressAll(all, sc), l.id) == Some(StressLot(l, sc))
  {
    hide FindStressed;
    var i :| 0 <= i < |all| && all[i] == l;
    var stressed := StressAll(all, sc);
    assert stressed[i] in stressed && stressed[i].lot == l;
    var found := FindStressed(stressed, l.id);
    var j :| 0 <= j < |stressed| && stressed[j] == found.value;
    assert all[j].id == all[i].id;
  }

  method FamilyStressExposure(holdings: seq<Holding>, data: RiskData, ghost depth: nat, lots: seq<Lot>,
                              stressed: seq<StressedLot>, ghost sc: Scenario)
    returns (rows: seq<FamilyStressRow>)
    requires AllExpandable(data, depth) && HoldingsOk(holdings)
    requires lots == PortfolioLots(data, holdings, depth) && stressed == StressAll(lots, sc)
    ensures forall r :: r in rows ==>
              && r.knownCents - r.afterCents == r.lossCents
              && r.afterCents == GroupTotal(lots, LotFamily, AfterIn(sc), r.familyId)
    ensures SumBy(rows, FamilyLoss) == SumBy(lots, LossIn(sc))
  {
    hide AllExpandable, StressAll, PortfolioLots, After, OwnedBy, Members, RowOf, Found, FamilyRow, GroupTotal,
         SumBy, BasesOf, DistinctIds, OwnerFamily, FamilyLots, Distinct, HoldingOk;
    PortfolioFacts(data, holdings, depth);
    var families, bases := FamilyBases(holdings, lots);
    OwnedLotsVisible(holdings, lots);
    BasesAre(holdings, lots, families, bases);
    rows := [];
    var i := 0;
    while i < |bases|
      invariant 0 <= i <= |bases| && |rows| == i
      invariant forall j :: 0 <= j < i ==> rows[j] == RowOf(holdings, lots, stressed, families[j])
    {
      rows := rows + [FamilyRow(families[i], bases[i].knownCents, Found(stressed, bases[i].lots))];
      assert rows[i] == RowOf(holdings, lots, stressed, families[i]) by {
        RowIs(holdings, lots, stressed, families[i]);
      }
      i := i + 1;
    }
    FamilyRowsTotal(data, holdings, depth, lots, sc, families, rows);
  }

  ghost function RowOf(holdings: seq<Holding>, lots: seq<Lot>, stressed: seq<StressedLot>, f: string): FamilyStressRow {
    FamilyRow(f, GroupTotal(holdings, FamilyIdOf, ReportedCents, f), Found(stressed, Members(lots, LotFamily, f)))
  }

  lemma RowIs(holdings: seq<Holding>, lots: seq<Lot>, stressed: seq<StressedLot>, f: string)
    ensures RowOf(holdings, lots, stressed, f) ==
            FamilyRow(f, GroupTotal(holdings, FamilyIdOf, ReportedCents, f),
                      Found(stressed, Members(lots, LotFamily, f)))
  {
  }

  lemma FamilyRowsTotal(data: RiskData, holdings: seq<Holding>, depth: nat, lots: seq<Lot>, sc: Scenario,
                        families: seq<string>, rows: seq<FamilyStressRow>)
    requires AllExpandable(data, depth) && HoldingsOk(holdings)
    requires lots == PortfolioLots(data, holdings, depth) && DistinctIds(lots)
    requires Distinct(families) && |rows| == |families| && (forall h :: h in holdings ==> h.familyId in families)
    requires forall l :: l in lots ==> exists h :: h in holdings && h.familyId == l.familyId
    requires forall j :: 0 <= j < |rows| ==> rows[j] == RowOf(holdings, lots, StressAll(lots, sc), families[j])
    ensures forall r :: r in rows ==>
              && r.knownCents - r.afterCents == r.lossCents
              && r.afterCents == GroupTotal(lots, LotFamily, AfterIn(sc), r.familyId)
    ensures SumBy(rows, FamilyLoss) == SumBy(lots, LossIn(sc))
  {
    hide *;
    forall j | 0 <= j < |rows|
      ensures rows[j].knownCents - rows[j].afterCents == rows[j].lossCents
      ensures rows[j].afterCents == GroupTotal(lots, LotFamily, AfterIn(sc), rows[j].familyId)
      ensures FamilyLoss(rows[j]) == GroupTotal(lots, LotFamily, LossIn(sc), families[j])
    {
      RowIs(holdings, lots, StressAll(lots, sc), families[j]);
      FamilyRowMeaning(data, holdings, depth, lots, sc, families[j]);
      LossOfRow(rows[j]);
    }
    TotalsOfRows(rows, FamilyLoss, lots, LotFamily, LossIn(sc), families);
    FamiliesCover(holdings, lots, families);
    GroupsPartition(lots, LotFamily, LossIn(sc), families);
  }

  lemma LossOfRow(r: FamilyStressRow)
    ensures FamilyLoss(r) == r.lossCents
  {
  }

  function FamilyRow(familyId: string, knownCents: int, lots: seq<StressedLot>): FamilyStressRow {
    FamilyStressRow(familyId, knownCents, SumBy(lots, AfterCents), SumBy(lots, LossCents))
  }

  lemma FamiliesCover(holdings: seq<Holding>, lots: seq<Lot>, families: seq<string>)
    requires forall h :: h in holdings ==> h.familyId in families
    requires forall l :: l in lots ==> exists h :: h in holdings && h.familyId == l.familyId
    ensures forall l :: l in lots ==> LotFamily(l) in families
  {
  }

  lemma FamilyRowMeaning(data: RiskData, holdings: seq<Holding>, depth: nat, lots: seq<Lot>, sc: Scenario, f: string)
    requires AllExpandable(data, depth) && HoldingsOk(holdings)
    requires lots == PortfolioLots(data, holdings, depth) && DistinctIds(lots)
    ensures var own := Members(lots, LotFamily, f);
            var row := FamilyRow(f, GroupTotal(holdings, FamilyIdOf, ReportedCents, f),
                                 Found(StressAll(lots, sc), own));
            && row.familyId == f && row.knownCents - row.afterCents == row.lossCents
            && row.afterCents == GroupTotal(lots, LotFamily, AfterIn(sc), f)
            && row.lossCents == GroupTotal(lots, LotFamily, LossIn(sc), f)
  {
    hide AllExpandable, StressAll, PortfolioLots, After;
    var own := Members(lots, LotFamily, f);
    FoundIsStressed(lots, own, sc);
    StressedSums(own, sc);
    LossIsDifference(own, sc);
    FamilyConserves(data, holdings, depth, f);
  }
}
