/**
 What a stress scenario does to each lot (lib/risk-engine.ts, `runStressScenario`): which of its
 shocks applies, that values are exact to half a cent, and that a loss comes only from lots that
 the scenario reaches.
 */
module StressContent {
  import opened Common
  import opened Exposure
  import opened Stress

  ghost predicate InBand(m: map<string, real>) { forall k :: k in m ==> -1.0 <= m[k] && m[k] <= 3.0 }

  /**
   A scenario loses at most everything and at most quadruples a value, leaves the reporting currency alone,
   names at most 400 issuers and sectors, and calls at most all commitments.
   */
  lemma AcceptedScenarios(sc: Scenario)
    ensures ScenarioOk(sc) <==>
            && InBand(sc.assetClassShocks) && InBand(sc.issuerShocks) && InBand(sc.sectorShocks)
            && InBand(sc.currencyShocks) && ("EUR" in sc.currencyShocks ==> sc.currencyShocks["EUR"] == 0.0)
            && |sc.issuerShocks| <= 400 && |sc.sectorShocks| <= 400
            && 0.0 <= sc.capitalCallRate && sc.capitalCallRate <= 1.0
  {
  }

  /** The issuer's own shock first, then the sector's, then the asset class's. */
  ghost predicate ValueShockIs(l: Lot, sc: Scenario, v: real) {
    if l.issuerId.Some? && l.issuerId.value in sc.issuerShocks then v == sc.issuerShocks[l.issuerId.value]
    else if l.sector.Some? && l.sector.value in sc.sectorShocks then v == sc.sectorShocks[l.sector.value]
    else v == if l.assetClass in sc.assetClassShocks then sc.assetClassShocks[l.assetClass] else 0.0
  }

  /** The reporting currency and an undisclosed one are never shocked. */
  ghost predicate CurrencyShockIs(l: Lot, sc: Scenario, c: real) {
    if l.currency == Some("EUR") || l.currency.None? then c == 0.0
    else c == if l.currency.value in sc.currencyShocks then sc.currencyShocks[l.currency.value] else 0.0
  }

  /** Within half a cent; a tie goes up. */
  ghost predicate IsRounded(cents: int, exact: real) { -0.5 <= exact - cents as real < 0.5 }

  ghost predicate SourceIs(l: Lot, sc: Scenario, s: ShockSource) {
    match s
    case Issuer => l.issuerId.Some? && l.issuerId.value in sc.issuerShocks
    case Sector =>
      && (l.issuerId.Some? ==> l.issuerId.value !in sc.issuerShocks)
      && l.sector.Some? && l.sector.value in sc.sectorShocks
    case AssetClass =>
      && (l.issuerId.Some? ==> l.issuerId.value !in sc.issuerShocks)
      && (l.sector.Some? ==> l.sector.value !in sc.sectorShocks) && l.assetClass in sc.assetClassShocks
    case NoShock =>
      && (l.issuerId.Some? ==> l.issuerId.value !in sc.issuerShocks)
      && (l.sector.Some? ==> l.sector.value !in sc.sectorShocks) && l.assetClass !in sc.assetClassShocks
  }

  function Exact(cents: int, v: real, c: real): real { cents as real * ((1.0 + v) * (1.0 + c)) }

  /** One stressed lot. */
  ghost predicate Stressed(l: Lot, sc: Scenario, s: StressedLot) {
    && s.lot == l && s.lossCents == l.cents - s.afterCents && SourceIs(l, sc, s.source)
    && exists v, c ::
         ValueShockIs(l, sc, v) && CurrencyShockIs(l, sc, c) && IsRounded(s.afterCents, Exact(l.cents, v, c))
  }

  lemma RoundsHalfUp(cents: int, v: real, c: real)
    ensures IsRounded(Shocked(cents, v, c), Exact(cents, v, c))
  {
  }

  lemma ShocksAre(l: Lot, sc: Scenario)
    ensures ValueShockIs(l, sc, ValuationShock(l, sc)) && CurrencyShockIs(l, sc, CurrencyShock(l, sc))
    ensures SourceIs(l, sc, SourceOf(l, sc))
  {
  }

  /** Every lot of a scenario's result is stressed as its own classification says. */
  lemma LotsAreStressed(lots: seq<Lot>, sc: Scenario)
    ensures |StressAll(lots, sc)| == |lots|
    ensures forall i :: 0 <= i < |lots| ==> Stressed(lots[i], sc, StressAll(lots, sc)[i])
  {
    hide Shocked, ValueShockIs, CurrencyShockIs, IsRounded, Exact, ValuationShock, CurrencyShock, SourceIs, SourceOf;
    forall i | 0 <= i < |lots| ensures Stressed(lots[i], sc, StressAll(lots, sc)[i]) {
      ShocksAre(lots[i], sc);
      RoundsHalfUp(lots[i].cents, ValuationShock(lots[i], sc), CurrencyShock(lots[i], sc));
    }
  }

  /** Stressing a lot this way has only one outcome. */
  lemma StressedOnce(l: Lot, sc: Scenario, s: StressedLot, t: StressedLot)
    requires Stressed(l, sc, s) && Stressed(l, sc, t)
    ensures s == t
  {
    hide Exact;
  }

  /** No shock of the scenario reaches the lot. */
  predicate Spared(l: Lot, sc: Scenario) {
    && (l.issuerId.Some? ==> l.issuerId.value !in sc.issuerShocks)
    && (l.sector.Some? ==> l.sector.value !in sc.sectorShocks)
    && l.assetClass !in sc.assetClassShocks
    && (l.currency.Some? && l.currency.value != "EUR" ==> l.currency.value !in sc.currencyShocks)
  }

  lemma SparedKeepsValue(l: Lot, sc: Scenario)
    requires Spared(l, sc)
    ensures After(l, sc) == l.cents
  {
    ShocksAre(l, sc);
    hide SourceOf, ValuationShock, CurrencyShock;
    assert l.cents as real * ((1.0 + 0.0) * (1.0 + 0.0)) == l.cents as real;
  }

  function Reached(sc: Scenario): Lot -> bool { (l: Lot) => !Spared(l, sc) }

  /** The whole loss is the loss of the lots that the scenario reaches. */
  lemma LossIsFromReachedLots(lots: seq<Lot>, sc: Scenario)
    ensures SumBy(lots, LossIn(sc)) == SumBy(Filter(lots, Reached(sc)), LossIn(sc))
  {
    hide After, Spared, Filter, SumBy;
    forall l | l in lots && !Reached(sc)(l) ensures LossIn(sc)(l) == 0 { SparedKeepsValue(l, sc); }
    SumWithoutZeros(lots, Reached(sc), (l: Lot) => true, LossIn(sc));
    FilterAll(lots, (l: Lot) => true);
  }

  /** A shock to a lot's issuer replaces whatever its sector and asset class would suffer. */
  lemma IssuerShields(l: Lot, sc: Scenario, other: Scenario)
    requires l.issuerId.Some? && l.issuerId.value in sc.issuerShocks
    requires other.issuerShocks == sc.issuerShocks && other.currencyShocks == sc.currencyShocks
    ensures After(l, other) == After(l, sc) && SourceOf(l, other) == SourceOf(l, sc) == Issuer
  {
    hide Shocked;
  }

  /** The loss of everything leaves nothing, whatever the currencies do. */
  lemma TotalLossLeavesNothing(l: Lot, sc: Scenario)
    requires ValueShockIs(l, sc, -1.0)
    ensures After(l, sc) == 0 && StressLot(l, sc).lossCents == l.cents
  {
    ShocksAre(l, sc);
    hide SourceOf, ValuationShock, CurrencyShock;
    var c := CurrencyShock(l, sc);
    assert (1.0 + -1.0) * (1.0 + c) == 0.0;
    assert l.cents as real * ((1.0 + -1.0) * (1.0 + c)) == 0.0;
  }
}
