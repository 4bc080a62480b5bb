/**
 Period reports (lib/reporting.ts, `sourcedMark`, `evaluatePeriod`, `modifiedDietz`,
 `liquidity`, `scopedReportingInputs`) over the ledger's records.  Amounts are cents; returns
 are exact rationals.  Names, gap messages and other text are left out.
 */
module Reporting {
  import opened Common
  import opened Grouping
  import opened LedgerState
  import opened LedgerPosting
  import opened LedgerCommands
  import opened LedgerReplay
  import opened LedgerReconciliation

  /** The workspace: the families it serves, and its records. */
  datatype Office = Office(families: seq<string>, s: State)

  datatype Scope = Scope(familyIds: seq<string>, entityIds: Option<seq<string>>)

  datatype Query = Query(scope: Scope, from: int, to: int, liquidityAsOf: int, liquidityThrough: int,
                         liquidityCurrencies: Option<seq<string>>)

  datatype ReportError = ScopeInvalid | PeriodInvalid | LiquidityDateInvalid

  function InScope(scope: Scope): Holding -> bool {
    (h: Holding) => h.familyId in scope.familyIds && (scope.entityIds.None? || h.entityId in scope.entityIds.value)
  }

  predicate EntityKnown(entities: seq<Entity>, scope: Scope, id: string) {
    exists e :: e in entities && e.id == id && e.familyId in scope.familyIds
  }

  /** `reportingHoldings`: unknown families or entities are an error, not an empty selection. */
  function ReportingHoldings(o: Office, scope: Scope): Result<seq<Holding>, ReportError> {
    if exists id :: id in scope.familyIds && id !in o.families then Err(ScopeInvalid)
    else if scope.entityIds.Some? && exists id :: id in scope.entityIds.value && !EntityKnown(o.s.entities, scope, id)
      then Err(ScopeInvalid)
    else Ok(Filter(o.s.holdings, InScope(scope)))
  }

  // --- Marks -----------------------------------------------------------------------------------

  datatype Basis = Reported(basis: Method) | Statement

  datatype SourcedMark = SourcedMark(holdingId: string, date: int, value: int, amount: int, currency: string,
                                     sourceId: Option<string>, basis: Basis)

  /** Accepted, non-synthetic evidence of this holding. */
  predicate HasEvidence(evidence: seq<Evidence>, h: Holding, sourceId: string) {
    exists e :: e in evidence && e.id == sourceId && e.holdingId == h.id && e.accepted && !e.synthetic
  }

  predicate CountsFit(s: State, c: Coverage) { c.eventCount <= |s.events| && c.markCount <= |s.marks| }

  predicate IsCurrent(s: State, c: Coverage) { CountsFit(s, c) && CoverageCurrent(s, c) }

  /** The last reconciliation in the list that satisfies a condition. */
  function LastCoverage(cs: seq<Coverage>, p: Coverage -> bool): (r: Option<Coverage>)
    ensures r.Some? ==> r.value in cs && p(r.value)
    ensures r.None? ==> forall c :: c in cs ==> !p(c)
  {
    if |cs| == 0 then None
    else if p(cs[|cs| - 1]) then Some(cs[|cs| - 1])
    else LastCoverage(cs[..|cs| - 1], p)
  }

  function ClosesOn(s: State, h: Holding, date: int): Coverage -> bool {
    (c: Coverage) => c.to == date && h.id in c.cashIds && IsCurrent(s, c)
  }

  /** The statement balance of a current reconciliation ending on the date. */
  function StatementMark(s: State, h: Holding, date: int): Option<SourcedMark> {
    var period := LastCoverage(s.coverage, ClosesOn(s, h, date));
    if period.None? then None
    else
      var balance := FindClosing(period.value.closing, h.id);
      if balance.None? then None
      else Some(SourcedMark(h.id, date, balance.value.value, balance.value.native, h.currency,
                            period.value.source.sourceId, Statement))
  }

  function HoldingOwnMark(s: State, h: Holding, date: int): Option<SourcedMark> {
    if h.valueKnown && h.markDate == date && HasEvidence(s.evidence, h, h.sourceId)
       && h.basis != SyntheticMark && h.basis != PlusCapital && h.currency == "EUR"
    then Some(SourcedMark(h.id, date, h.value, h.native, h.currency, Some(h.sourceId), Reported(h.basis)))
    else None
  }

  /** `sourcedMark`: a dated mark, else a statement balance, else the holding's own sourced balance. */
  function SourcedMarkOf(s: State, h: Holding, date: int): Option<SourcedMark> {
    var mark := PriorMark(s.marks, h.id, date);
    if mark.Some? then
      var m := mark.value;
      if HasEvidence(s.evidence, h, m.sourceId) && m.basis != SyntheticMark && (m.currency == "EUR" || m.fx.Some?)
      then Some(SourcedMark(h.id, date, m.value, m.amount, m.currency, Some(m.sourceId), Reported(m.basis)))
      else None
    else if h.assetClass == Cash && StatementMark(s, h, date).Some? then StatementMark(s, h, date)
    else HoldingOwnMark(s, h, date)
  }

  // --- Rows, flows and cash --------------------------------------------------------------------------

  datatype Row = Row(holdingId: string, opening: Option<SourcedMark>, closing: Option<SourcedMark>)

  function RowsOf(s: State, hs: seq<Holding>, q: Query): seq<Row> {
    if |hs| == 0 then []
    else
      var h := hs[|hs| - 1];
      RowsOf(s, hs[..|hs| - 1], q) + [Row(h.id, SourcedMarkOf(s, h, q.from), SourcedMarkOf(s, h, q.to))]
  }

  function InPeriod(q: Query): Event -> bool { (e: Event) => q.from < e.date && e.date <= q.to }

  datatype Flow = Flow(eventId: string, txId: string, date: int, kind: Option<Kind>, amount: int)

  predicate TouchesSet(e: Event, ids: set<string>) { exists p :: p in e.postings && p.holdingId in ids }

  function IsFlow(q: Query, ids: set<string>): Event -> bool {
    (e: Event) => q.from < e.date && e.date <= q.to && e.flow != 0 && TouchesSet(e, ids)
  }

  function FlowOfEvent(txs: seq<Tx>, e: Event): Flow {
    var k := FindTx(txs, e.txId);
    Flow(e.id, e.txId, e.date, if k.Some? then Some(txs[k.value].kind) else None, e.flow)
  }

  function FlowsOf(txs: seq<Tx>, events: seq<Event>): seq<Flow> {
    if |events| == 0 then [] else FlowsOf(txs, events[..|events| - 1]) + [FlowOfEvent(txs, events[|events| - 1])]
  }

  function NativeOn(id: string): Event -> int { (e: Event) => Moved(e.postings, id).native }

  function CoversQuery(s: State, entityId: string, q: Query): Coverage -> bool {
    (c: Coverage) => c.entityId == entityId && c.from <= q.from && c.to >= q.to && IsCurrent(s, c)
  }

  datatype CashRow = CashRow(holdingId: string, opening: Option<int>, closing: Option<int>, movements: int,
                             residual: Option<int>, coverageId: Option<string>)

  /** Opening plus recorded movements against closing, in the balance's own currency. */
  function CashRowOf(s: State, h: Holding, q: Query): CashRow {
    var opening, closing := SourcedMarkOf(s, h, q.from), SourcedMarkOf(s, h, q.to);
    var movements := SumBy(Filter(s.events, InPeriod(q)), NativeOn(h.id));
    var period := LastCoverage(s.coverage, CoversQuery(s, h.entityId, q));
    CashRow(h.id, if opening.Some? then Some(opening.value.amount) else None,
            if closing.Some? then Some(closing.value.amount) else None, movements,
            if opening.Some? && closing.Some? && opening.value.currency == closing.value.currency
            then Some(closing.value.amount - opening.value.amount - movements) else None,
            if period.Some? then Some(period.value.id) else None)
  }

  function CashRowsOf(s: State, hs: seq<Holding>, q: Query): seq<CashRow> {
    if |hs| == 0 then []
    else
      CashRowsOf(s, hs[..|hs| - 1], q) + (if IsCash(hs[|hs| - 1]) then [CashRowOf(s, hs[|hs| - 1], q)] else [])
  }

  /** `hasReconciledCashflowCoverage` for the selected holdings. */
  predicate Covered(s: State, hs: seq<Holding>, q: Query) {
    hs != [] && q.from <= q.to
    && forall h :: h in hs ==> exists c :: c in s.coverage && CoversQuery(s, h.entityId, q)(c)
  }

  // --- Modified Dietz ----------------------------------------------------------------------------------

  /** Flow weights: the share of the period each flow was invested, counting it at the end of its day. */
  function WeightedFlows(flows: seq<Flow>, from: int, to: int): real
    requires from < to
  {
    if |flows| == 0 then 0.0
    else
      var f := flows[|flows| - 1];
      WeightedFlows(flows[..|flows| - 1], from, to) + (f.amount * (to - f.date)) as real / (to - from) as real
  }

  function FlowAmount(f: Flow): int { f.amount }

  /** The weighted capital is reported in whole cents. */
  datatype Estimate = Estimate(percent: Option<real>, denominator: Option<int>)

  function RoundCents(x: real): int { (x + 0.5).Floor }

  function ModifiedDietz(opening: int, closing: int, flows: seq<Flow>, from: int, to: int): Estimate {
    if to <= from || exists f :: f in flows && (f.date <= from || f.date > to) then Estimate(None, None)
    else
      var net := SumBy(flows, FlowAmount);
      var denominator := opening as real + WeightedFlows(flows, from, to);
      Estimate(if denominator > 0.0 then Some((closing - opening - net) as real / denominator * 100.0) else None,
               Some(RoundCents(denominator)))
  }

  // --- Liquidity ------------------------------------------------------------------------------------------

  datatype GroupKey = GroupKey(entityId: string, currency: string)

  /** What one cash balance or one leg of an obligation adds to its entity and currency. */
  datatype Contribution = Contribution(key: GroupKey, recorded: int, restricted: int, restrictionUnknown: nat,
                                       liquidityUnknown: nat, unavailable: nat, inflow: int, outflow: int, overdue: int,
                                       blocked: nat, available: int, asOf: Option<int>, obligation: Option<string>)

  const NOTHING := Contribution(GroupKey("", ""), 0, 0, 0, 0, 0, 0, 0, 0, 0, 0, None, None)

  function KeyOf(h: Holding): GroupKey { GroupKey(h.entityId, h.currency) }

  predicate Listed(q: Query, h: Holding) { q.liquidityCurrencies.None? || h.currency in q.liquidityCurrencies.value }

  /** The latest mark on or before a date; among equals, the last recorded. */
  function LatestMark(marks: seq<Mark>, id: string, asOf: int): Option<Mark> {
    if |marks| == 0 then None
    else
      var front, last := LatestMark(marks[..|marks| - 1], id, asOf), marks[|marks| - 1];
      if last.holdingId != id || last.date > asOf then front
      else if front.None? || front.value.date <= last.date then Some(last) else front
  }

  function Between(after: int, upTo: int): Event -> bool { (e: Event) => after < e.date && e.date <= upTo }

  datatype Balance = Known(amount: int, date: int) | Unavailable

  /** The recorded cash on a date: the balance itself, or an earlier sourced mark plus the postings since. */
  function CashOn(s: State, h: Holding, asOf: int): Balance {
    if h.valueKnown && h.markDate <= asOf then Known(h.native, h.markDate)
    else
      var m := LatestMark(s.marks, h.id, asOf);
      if m.Some? && SourcedMarkOf(s, h, m.value.date).Some?
      then Known(m.value.amount + SumBy(Filter(s.events, Between(m.value.date, asOf)), NativeOn(h.id)), m.value.date)
      else Unavailable
  }

  function CashContribution(s: State, h: Holding, q: Query): Contribution {
    var unknown := if h.liquidityKnown then 0 else 1;
    var base := NOTHING.(key := KeyOf(h), liquidityUnknown := unknown);
    match CashOn(s, h, q.liquidityAsOf)
    case Unavailable => base.(unavailable := 1)
    case Known(amount, date) =>
      base.(recorded := amount, asOf := Some(date),
            restrictionUnknown := if h.accountId in s.reviews then 0 else 1,
            restricted := if h.accountId in s.reviews && s.reviews[h.accountId].restricted then amount else 0)
  }

  function CashContributions(s: State, hs: seq<Holding>, q: Query): seq<Contribution> {
    if |hs| == 0 then []
    else
      var h := hs[|hs| - 1];
      CashContributions(s, hs[..|hs| - 1], q) + (if IsCash(h) && Listed(q, h) then [CashContribution(s, h, q)] else [])
  }

  function LegContribution(s: State, t: Tx, h: Holding, amount: int, q: Query): Contribution {
    var restriction := if h.accountId in s.reviews then Some(s.reviews[h.accountId].restricted) else None;
    NOTHING.(key := KeyOf(h), obligation := Some(t.id),
             available := if restriction == Some(false) && h.liquidityKnown then amount else 0,
             blocked := if amount < 0 && restriction == Some(true) then 1 else 0,
             inflow := if amount > 0 then amount else 0,
             outflow := if amount > 0 then 0 else -amount,
             overdue := if amount <= 0 && t.dueDate < q.liquidityAsOf then -amount else 0)
  }

  function OneLeg(s: State, t: Tx, hs: seq<Holding>, id: string, amount: int, q: Query): seq<Contribution> {
    var k := FindHolding(hs, id);
    if k.Some? && Listed(q, hs[k.value]) then [LegContribution(s, t, hs[k.value], amount, q)] else []
  }

  function TxContributions(s: State, t: Tx, hs: seq<Holding>, q: Query): seq<Contribution> {
    if StatusOf(s.events, t.id) != Reviewed || t.dueDate > q.liquidityThrough || FindHolding(hs, t.cashId).None? then []
    else
      OneLeg(s, t, hs, t.cashId, if Inflow(t.kind) then t.amount else 0 - t.amount as int, q)
      + (if t.destinationId.Some? then OneLeg(s, t, hs, t.destinationId.value, t.amount, q) else [])
  }

  function ObligationContributions(s: State, txs: seq<Tx>, hs: seq<Holding>, q: Query): seq<Contribution> {
    if |txs| == 0 then []
    else ObligationContributions(s, txs[..|txs| - 1], hs, q) + TxContributions(s, txs[|txs| - 1], hs, q)
  }

  function Contributions(s: State, hs: seq<Holding>, q: Query): seq<Contribution> {
    CashContributions(s, hs, q) + ObligationContributions(s, s.transactions, hs, q)
  }

  datatype LiquidityGroup = LiquidityGroup(key: GroupKey, recorded: int, restricted: int, inflows: int, outflows: int,
                                           overdue: int, blocked: int, projected: Option<int>, dates: set<int>,
                                           obligations: set<string>)

  function KeyOfContribution(c: Contribution): GroupKey { c.key }

  function Recorded(c: Contribution): int { c.recorded }
  function Restricted(c: Contribution): int { c.restricted }
  function InflowOf(c: Contribution): int { c.inflow }
  function OutflowOf(c: Contribution): int { c.outflow }
  function Overdue(c: Contribution): int { c.overdue }
  function Blocked(c: Contribution): int { c.blocked }
  function Unknowns(c: Contribution): int { c.unavailable + c.liquidityUnknown + c.restrictionUnknown }
  function Available(c: Contribution): int { c.available }

  /** One entity and currency: unknowns or a blocked outflow suppress the projection. */
  function GroupOf(key: GroupKey, cs: seq<Contribution>): LiquidityGroup {
    LiquidityGroup(key, SumBy(cs, Recorded), SumBy(cs, Restricted), SumBy(cs, InflowOf), SumBy(cs, OutflowOf),
                   SumBy(cs, Overdue), SumBy(cs, Blocked),
                   if SumBy(cs, Unknowns) != 0 || SumBy(cs, Blocked) > 0 then None
                   else Some(SumBy(cs, Recorded) - SumBy(cs, Restricted) + SumBy(cs, Available)),
                   set c | c in cs && c.asOf.Some? :: c.asOf.value,
                   set c | c in cs && c.obligation.Some? :: c.obligation.value)
  }

  /** Exactly the groups of the contributions, each once. */
  ghost predicate GroupsAre(cs: seq<Contribution>, groups: seq<LiquidityGroup>) {
    && (forall i, j :: 0 <= i < j < |groups| ==> groups[i].key != groups[j].key)
    && (forall g :: g in groups ==>
          Members(cs, KeyOfContribution, g.key) != [] && g == GroupOf(g.key, Members(cs, KeyOfContribution, g.key)))
    && (forall c :: c in cs ==> exists g :: g in groups && g.key == c.key)
  }

  /** `liquidity`: the table of groups, filled one contribution at a time. */
  method Liquidity(s: State, hs: seq<Holding>, q: Query) returns (groups: seq<LiquidityGroup>)
    ensures GroupsAre(Contributions(s, hs, q), groups)
  {
    var cs := Contributions(s, hs, q);
    hide Contributions, GroupOf;
    var keys, table := GroupBy(cs, KeyOfContribution);
    GroupedCovers(cs, KeyOfContribution, keys, table);
    groups := [];
    var i := 0;
    while i < |keys|
      invariant 0 <= i <= |keys| && |groups| == i
      invariant forall j :: 0 <= j < i ==> groups[j] == GroupOf(keys[j], table[keys[j]])
    {
      groups := groups + [GroupOf(keys[i], table[keys[i]])];
      i := i + 1;
    }
    forall j | 0 <= j < |groups| ensures groups[j].key == keys[j] { GroupKeyIs(keys[j], table[keys[j]]); }
    forall g | g in groups
      ensures Members(cs, KeyOfContribution, g.key) != [] && g == GroupOf(g.key, Members(cs, KeyOfContribution, g.key))
    {
      var j: nat :| j < |groups| && groups[j] == g;
      assert keys[j] in table;
    }
    forall c | c in cs ensures exists g :: g in groups && g.key == c.key {
      var j: nat :| j < |keys| && keys[j] == KeyOfContribution(c);
      assert groups[j] in groups;
    }
  }

  lemma GroupKeyIs(key: GroupKey, cs: seq<Contribution>)
    ensures GroupOf(key, cs).key == key
  {
  }

  // --- The report --------------------------------------------------------------------------------------------

  datatype Report = Report(rows: seq<Row>, flows: seq<Flow>, cash: seq<CashRow>, covered: bool,
                           openingValue: Option<int>, closingValue: Option<int>, knownFlow: int, netFlow: Option<int>,
                           result: Option<int>, estimate: Estimate, contributions: seq<Contribution>)

  function OpeningCents(r: Row): int { if r.opening.Some? then r.opening.value.value else 0 }

  function ClosingCents(r: Row): int { if r.closing.Some? then r.closing.value.value else 0 }

  /** Everything computed from the rows, flows and cash reconciliation. */
  function Compose(q: Query, rows: seq<Row>, flows: seq<Flow>, cash: seq<CashRow>, covered: bool,
                   cs: seq<Contribution>): Report {
    var opening := if rows != [] && (forall r :: r in rows ==> r.opening.Some?) then Some(SumBy(rows, OpeningCents))
                   else None;
    var closing := if rows != [] && (forall r :: r in rows ==> r.closing.Some?) then Some(SumBy(rows, ClosingCents))
                   else None;
    var known := SumBy(flows, FlowAmount);
    var reconciled := covered && cash != [] && forall r :: r in cash ==> r.residual == Some(0);
    var eligible := opening.Some? && closing.Some? && reconciled;
    Report(rows, flows, cash, covered, opening, closing, known, if reconciled then Some(known) else None,
           if eligible then Some(closing.value - opening.value - known) else None,
           if eligible then ModifiedDietz(opening.value, closing.value, flows, q.from, q.to)
           else Estimate(None, None), cs)
  }

  function HoldingIds(hs: seq<Holding>): set<string> { set h | h in hs :: h.id }

  function Evaluate(s: State, selected: seq<Holding>, q: Query): Report {
    Compose(q, RowsOf(s, selected, q), FlowsOf(s.transactions, Filter(s.events, IsFlow(q, HoldingIds(selected)))),
            CashRowsOf(s, selected, q), Covered(s, selected, q), Contributions(s, selected, q))
  }

  /** `evaluatePeriod`. */
  function EvaluatePeriod(o: Office, q: Query, today: int): Result<Report, ReportError> {
    if q.from >= q.to || q.to > today then Err(PeriodInvalid)
    else if q.liquidityAsOf > today || q.liquidityThrough < q.liquidityAsOf
        || q.liquidityThrough - q.liquidityAsOf > 3660
      then Err(LiquidityDateInvalid)
    else
      var selected := ReportingHoldings(o, q.scope);
      if selected.Err? then Err(selected.error) else Ok(Evaluate(o.s, selected.value, q))
  }

  // --- Scoped inputs -------------------------------------------------------------------------------------------

  predicate TxKept(t: Tx, ids: set<string>) {
    t.cashId in ids && (t.holdingId.Some? ==> t.holdingId.value in ids)
    && (t.destinationId.Some? ==> t.destinationId.value in ids)
  }

  function KeptTx(ids: set<string>): Tx -> bool { (t: Tx) => TxKept(t, ids) }

  function TxIds(txs: seq<Tx>): set<string> { set t | t in txs :: t.id }

  function KeptEvent(txIds: set<string>, ids: set<string>): Event -> bool {
    (e: Event) => e.txId in txIds && forall p :: p in e.postings ==> p.holdingId in ids
  }

  function KeptMark(ids: set<string>): Mark -> bool { (m: Mark) => m.holdingId in ids }

  function KeptCoverage(entities: set<string>, ids: set<string>): Coverage -> bool {
    (c: Coverage) => c.entityId in entities && forall id :: id in c.cashIds ==> id in ids
  }

  /** The counters move to where the kept prefix ends. */
  function Recount(s: State, txIds: set<string>, ids: set<string>, c: Coverage): Coverage {
    if !CountsFit(s, c) then c
    else c.(eventCount := |Filter(s.events[..c.eventCount], KeptEvent(txIds, ids))|,
            markCount := |Filter(s.marks[..c.markCount], KeptMark(ids))|)
  }

  function RecountAll(s: State, txIds: set<string>, ids: set<string>, cs: seq<Coverage>): (r: seq<Coverage>)
    ensures |r| == |cs| && forall i :: 0 <= i < |r| ==> r[i] == Recount(s, txIds, ids, cs[i])
  {
    seq(|cs|, i requires 0 <= i < |cs| => Recount(s, txIds, ids, cs[i]))
  }

  function EntityIds(hs: seq<Holding>): set<string> { set h | h in hs :: h.entityId }

  function AccountIds(hs: seq<Holding>): set<string> { set h | h in hs :: h.accountId }

  function ScopedState(s: State, hs: seq<Holding>): State {
    var ids, entities, accounts := HoldingIds(hs), EntityIds(hs), AccountIds(hs);
    var txs := Filter(s.transactions, KeptTx(ids));
    s.(holdings := hs,
       history := Filter(s.history, (r: HistoryRow) => r.holdingId in ids),
       evidence := Filter(s.evidence, (e: Evidence) => e.holdingId in ids),
       cashEvents := [],
       entities := Filter(s.entities, (e: Entity) => e.id in entities),
       accounts := Filter(s.accounts, (a: Account) => a.id in accounts),
       reviews := map id | id in s.reviews && id in accounts :: s.reviews[id],
       transactions := txs,
       events := Filter(s.events, KeptEvent(TxIds(txs), ids)),
       marks := Filter(s.marks, KeptMark(ids)),
       coverage := RecountAll(s, TxIds(txs), ids, Filter(s.coverage, KeptCoverage(entities, ids))))
  }

  /** `scopedReportingInputs`. */
  function ScopedInputs(o: Office, scope: Scope): Result<Office, ReportError> {
    var selected := ReportingHoldings(o, scope);
    if selected.Err? then Err(selected.error)
    else Ok(Office(Filter(o.families, (id: string) => id in scope.familyIds), ScopedState(o.s, selected.value)))
  }
}
