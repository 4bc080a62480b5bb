/**
 What a period report says (lib/reporting.ts, `sourcedMark`, `evaluatePeriod`, `modifiedDietz`),
 in terms of the ledger's records alone: the marks it may use, how marks, flows and the result
 add up, and what the return estimate is a percentage of.
 */
module ReportContent {
  import opened Common
  import opened LedgerState
  import opened LedgerCommands
  import opened LedgerReplay
  import opened LedgerReconciliation
  import opened Reporting

  // --- Sourced marks --------------------------------------------------------------------------

  /** The last recorded mark of the holding for exactly this date. */
  ghost predicate LastMarkOn(marks: seq<Mark>, id: string, date: int, k: nat) {
    && k < |marks| && marks[k].holdingId == id && marks[k].date == date
    && forall j :: k < j < |marks| ==> marks[j].holdingId != id || marks[j].date != date
  }

  ghost predicate NoMarkOn(marks: seq<Mark>, id: string, date: int) {
    forall m :: m in marks ==> m.holdingId != id || m.date != date
  }

  lemma {:induction false} PriorMarkIs(marks: seq<Mark>, id: string, date: int)
    ensures PriorMark(marks, id, date).None? <==> NoMarkOn(marks, id, date)
    ensures PriorMark(marks, id, date).Some? ==>
              exists k: nat :: LastMarkOn(marks, id, date, k) && PriorMark(marks, id, date) == Some(marks[k])
  {
    if |marks| > 0 {
      var n := |marks| - 1;
      PriorMarkIs(marks[..n], id, date);
      if marks[n].holdingId == id && marks[n].date == date {
        assert LastMarkOn(marks, id, date, n) && marks[n] in marks;
      } else {
        if PriorMark(marks[..n], id, date).Some? {
          var k: nat :| LastMarkOn(marks[..n], id, date, k) && PriorMark(marks[..n], id, date) == Some(marks[..n][k]);
          assert LastMarkOn(marks, id, date, k);
        }
        assert marks == marks[..n] + [marks[n]];
      }
    }
  }

  /** Accepted evidence of the holding itself, not invented for demonstration. */
  ghost predicate Evidenced(s: State, h: Holding, sourceId: string) {
    exists e :: e in s.evidence && e.id == sourceId && e.holdingId == h.id && e.accepted && !e.synthetic
  }

  /** A mark recorded for the date. */
  ghost predicate FromMark(s: State, h: Holding, date: int, m: SourcedMark) {
    exists k: nat ::
      LastMarkOn(s.marks, h.id, date, k)
      && var x := s.marks[k];
      && Evidenced(s, h, x.sourceId) && x.basis != SyntheticMark && (x.currency == "EUR" || x.fx.Some?)
      && m == SourcedMark(h.id, date, x.value, x.amount, x.currency, Some(x.sourceId), Reported(x.basis))
  }

  /** The last reconciliation that ends on the date, names the balance, and is still current. */
  ghost predicate LastStatement(s: State, h: Holding, date: int, k: nat) {
    && k < |s.coverage| && Closes(s, h, date, s.coverage[k])
    && forall j :: k < j < |s.coverage| ==> !Closes(s, h, date, s.coverage[j])
  }

  ghost predicate Closes(s: State, h: Holding, date: int, c: Coverage) {
    && c.to == date && h.id in c.cashIds
    && c.eventCount <= |s.events| && c.markCount <= |s.marks| && CoverageCurrent(s, c)
  }

  /** A statement balance, for cash without a mark on the date. */
  ghost predicate FromStatement(s: State, h: Holding, date: int, m: SourcedMark) {
    && NoMarkOn(s.marks, h.id, date) && h.assetClass == Cash
    && exists k: nat ::
         LastStatement(s, h, date, k)
         && var row := FindClosing(s.coverage[k].closing, h.id);
         && row.Some?
         && m == SourcedMark(h.id, date, row.value.value, row.value.native, h.currency,
                             s.coverage[k].source.sourceId, Statement)
  }

  /** The holding's own balance, when it stands on the date, is evidenced, and holds no capital moved since its mark. */
  ghost predicate FromHolding(s: State, h: Holding, date: int, m: SourcedMark) {
    && NoMarkOn(s.marks, h.id, date)
    && (h.assetClass == Cash ==>
          forall k: nat :: LastStatement(s, h, date, k) ==> FindClosing(s.coverage[k].closing, h.id).None?)
    && h.valueKnown && h.markDate == date && Evidenced(s, h, h.sourceId)
    && h.basis != SyntheticMark && h.basis != PlusCapital && h.currency == "EUR"
    && m == SourcedMark(h.id, date, h.value, h.native, h.currency, Some(h.sourceId), Reported(h.basis))
  }

  ghost predicate LastWith(cs: seq<Coverage>, p: Coverage -> bool, k: nat) {
    k < |cs| && p(cs[k]) && forall j :: k < j < |cs| ==> !p(cs[j])
  }

  lemma {:induction false} LastCoverageAt(cs: seq<Coverage>, p: Coverage -> bool) returns (k: nat)
    requires LastCoverage(cs, p).Some?
    ensures LastWith(cs, p, k) && LastCoverage(cs, p) == Some(cs[k])
  {
    var n := |cs| - 1;
    if p(cs[n]) {
      k := n;
    } else {
      k := LastCoverageAt(cs[..n], p);
      hide LastCoverage;
      assert cs[k] == cs[..n][k];
      forall j | k < j < |cs| ensures !p(cs[j]) { assert j < n ==> cs[j] == cs[..n][j]; }
    }
  }

  lemma StatementMarkIs(s: State, h: Holding, date: int)
    ensures StatementMark(s, h, date).None? <==>
            !exists k: nat :: LastStatement(s, h, date, k) && FindClosing(s.coverage[k].closing, h.id).Some?
    ensures StatementMark(s, h, date).Some? ==>
              exists k: nat :: LastStatement(s, h, date, k) && FindClosing(s.coverage[k].closing, h.id).Some?
                && var row := FindClosing(s.coverage[k].closing, h.id).value;
                   StatementMark(s, h, date) == Some(SourcedMark(h.id, date, row.value, row.native, h.currency,
                                                                 s.coverage[k].source.sourceId, Statement))
  {
    var p := ClosesOn(s, h, date);
    assert forall c :: p(c) == Closes(s, h, date, c) by { hide CoverageCurrent; }
    hide CoverageCurrent, FindClosing, ClosesOn, Closes;
    if LastCoverage(s.coverage, p).Some? {
      var k := LastCoverageAt(s.coverage, p);
      assert LastStatement(s, h, date, k);
      forall j: nat | LastStatement(s, h, date, j) ensures j == k { OneLast(s, h, date, j, k); }
    } else {
      forall j: nat ensures !LastStatement(s, h, date, j) { }
    }
  }

  lemma OneLast(s: State, h: Holding, date: int, j: nat, k: nat)
    requires LastStatement(s, h, date, j) && LastStatement(s, h, date, k)
    ensures j == k
  {
    hide Closes;
  }

  /** A sourced mark is exactly one of the three, in this order of preference. */
  lemma SourcedMarkIs(s: State, h: Holding, date: int, m: SourcedMark)
    ensures SourcedMarkOf(s, h, date) == Some(m) <==>
            FromMark(s, h, date, m) || FromStatement(s, h, date, m) || FromHolding(s, h, date, m)
  {
    PriorMarkIs(s.marks, h.id, date);
    StatementMarkIs(s, h, date);
    hide PriorMark, StatementMark, LastStatement, FindClosing;
    var prior := PriorMark(s.marks, h.id, date);
    if prior.Some? {
      var k: nat :| LastMarkOn(s.marks, h.id, date, k) && prior == Some(s.marks[k]);
      assert s.marks[k] in s.marks && !NoMarkOn(s.marks, h.id, date);
      forall j: nat | LastMarkOn(s.marks, h.id, date, j) ensures j == k { OneLastMark(s.marks, h.id, date, j, k); }
    } else {
      forall j: nat ensures !LastMarkOn(s.marks, h.id, date, j) { NotLast(s.marks, h.id, date, j); }
      StatementOrOwn(s, h, date, m);
    }
  }

  lemma OneLastMark(marks: seq<Mark>, id: string, date: int, j: nat, k: nat)
    requires LastMarkOn(marks, id, date, j) && LastMarkOn(marks, id, date, k)
    ensures j == k
  {
  }

  lemma NotLast(marks: seq<Mark>, id: string, date: int, j: nat)
    requires NoMarkOn(marks, id, date)
    ensures !LastMarkOn(marks, id, date, j)
  {
    if j < |marks| { assert marks[j] in marks; }
  }

  lemma StatementOrOwn(s: State, h: Holding, date: int, m: SourcedMark)
    requires PriorMark(s.marks, h.id, date).None? && NoMarkOn(s.marks, h.id, date)
    ensures SourcedMarkOf(s, h, date) == Some(m) <==> FromStatement(s, h, date, m) || FromHolding(s, h, date, m)
  {
    StatementMarkIs(s, h, date);
    hide PriorMark, StatementMark, LastStatement, FindClosing, NoMarkOn;
    forall j: nat, k: nat | LastStatement(s, h, date, j) && LastStatement(s, h, date, k) ensures j == k {
      OneLast(s, h, date, j, k);
    }
  }

  // --- Opening, closing and flows ----------------------------------------------------------------

  ghost predicate AllMarked(s: State, hs: seq<Holding>, date: int) {
    forall h :: h in hs ==> SourcedMarkOf(s, h, date).Some?
  }

  /** The EUR value of a holding's sourced mark, or nothing. */
  function ValueOn(s: State, date: int): Holding -> int {
    (h: Holding) =>
      var m := SourcedMarkOf(s, h, date);
      if m.Some? then m.value.value else 0
  }

  /** An event of the period that posts to a selected holding. */
  predicate InPeriodTouching(hs: seq<Holding>, from: int, to: int, e: Event) {
    from < e.date <= to && exists p, h :: p in e.postings && h in hs && p.holdingId == h.id
  }

  function PeriodEvent(hs: seq<Holding>, from: int, to: int): Event -> bool {
    (e: Event) => InPeriodTouching(hs, from, to, e)
  }

  function FlowCents(e: Event): int { e.flow }

  /** Money that crossed the boundary of the selection in the period. */
  function FlowSum(s: State, hs: seq<Holding>, from: int, to: int): int {
    SumBy(Filter(s.events, PeriodEvent(hs, from, to)), FlowCents)
  }

  /** A current reconciliation of each selected holding's entity spans the period. */
  ghost predicate Attested(s: State, hs: seq<Holding>, q: Query) {
    hs != [] && forall h :: h in hs ==> exists c :: c in s.coverage && Spans(s, h, q, c)
  }

  ghost predicate Spans(s: State, h: Holding, q: Query, c: Coverage) {
    && c.entityId == h.entityId && c.from <= q.from && q.to <= c.to
    && c.eventCount <= |s.events| && c.markCount <= |s.marks| && CoverageCurrent(s, c)
  }

  /** What the ledger posted to a balance in the period, in its own currency. */
  function PostedNative(s: State, id: string, from: int, to: int): int {
    SumBy(Filter(s.events, (e: Event) => from < e.date <= to), (e: Event) => Moved(e.postings, id).native)
  }

  /** A cash balance whose movements explain its two marks. */
  ghost predicate Explained(s: State, h: Holding, q: Query) {
    var opening, closing := SourcedMarkOf(s, h, q.from), SourcedMarkOf(s, h, q.to);
    && opening.Some? && closing.Some? && opening.value.currency == closing.value.currency
    && closing.value.amount == opening.value.amount + PostedNative(s, h.id, q.from, q.to)
  }

  ghost predicate AllExplained(s: State, hs: seq<Holding>, q: Query) {
    forall h :: h in hs && IsCash(h) ==> Explained(s, h, q)
  }

  ghost predicate HasCash(hs: seq<Holding>) { exists h :: h in hs && IsCash(h) }

  ghost predicate FullyReconciled(s: State, hs: seq<Holding>, q: Query) {
    Attested(s, hs, q) && HasCash(hs) && AllExplained(s, hs, q)
  }

  function RowFor(s: State, q: Query, h: Holding): Row {
    Row(h.id, SourcedMarkOf(s, h, q.from), SourcedMarkOf(s, h, q.to))
  }

  lemma RowsSnoc(s: State, hs: seq<Holding>, q: Query)
    requires |hs| > 0
    ensures RowsOf(s, hs, q) == RowsOf(s, hs[..|hs| - 1], q) + [RowFor(s, q, hs[|hs| - 1])]
  {
    hide SourcedMarkOf;
  }

  lemma {:induction false} RowsAre(s: State, hs: seq<Holding>, q: Query)
    ensures |RowsOf(s, hs, q)| == |hs|
    ensures forall i :: 0 <= i < |hs| ==> RowsOf(s, hs, q)[i] == RowFor(s, q, hs[i])
  {
    hide RowFor;
    if |hs| > 0 {
      RowsAre(s, hs[..|hs| - 1], q);
      RowsSnoc(s, hs, q);
      hide *;
    }
  }

  lemma {:induction false} RowSums(s: State, hs: seq<Holding>, q: Query)
    ensures SumBy(RowsOf(s, hs, q), OpeningCents) == SumBy(hs, ValueOn(s, q.from))
    ensures SumBy(RowsOf(s, hs, q), ClosingCents) == SumBy(hs, ValueOn(s, q.to))
  {
    if |hs| > 0 {
      hide *;
      var front, h := hs[..|hs| - 1], hs[|hs| - 1];
      RowSums(s, front, q);
      RowsSnoc(s, hs, q);
      RowCents(s, h, q);
      SumBySnoc(RowsOf(s, front, q), RowFor(s, q, h), OpeningCents);
      SumBySnoc(RowsOf(s, front, q), RowFor(s, q, h), ClosingCents);
      assert hs == front + [h];
      SumBySnoc(front, h, ValueOn(s, q.from));
      SumBySnoc(front, h, ValueOn(s, q.to));
    } else {
      hide SourcedMarkOf;
    }
  }

  lemma RowCents(s: State, h: Holding, q: Query)
    ensures OpeningCents(RowFor(s, q, h)) == ValueOn(s, q.from)(h)
    ensures ClosingCents(RowFor(s, q, h)) == ValueOn(s, q.to)(h)
  {
    hide SourcedMarkOf;
  }

  ghost predicate AllOpened(rows: seq<Row>) { forall r :: r in rows ==> r.opening.Some? }

  ghost predicate AllClosed(rows: seq<Row>) { forall r :: r in rows ==> r.closing.Some? }

  ghost predicate NoResidual(cash: seq<CashRow>) { forall r :: r in cash ==> r.residual == Some(0) }

  lemma RowsMarked(s: State, hs: seq<Holding>, q: Query)
    ensures RowsOf(s, hs, q) != [] <==> hs != []
    ensures AllOpened(RowsOf(s, hs, q)) <==> AllMarked(s, hs, q.from)
    ensures AllClosed(RowsOf(s, hs, q)) <==> AllMarked(s, hs, q.to)
  {
    RowsAre(s, hs, q);
    hide SourcedMarkOf, RowsOf;
    var rows := RowsOf(s, hs, q);
    forall h | h in hs ensures RowFor(s, q, h) in rows {
      var i: nat :| i < |hs| && hs[i] == h;
      assert rows[i] in rows;
    }
    forall r | r in rows
      ensures exists h :: h in hs && r == RowFor(s, q, h)
    {
      var i: nat :| i < |rows| && rows[i] == r;
      assert hs[i] in hs;
    }
  }

  lemma FlowsSnoc(txs: seq<Tx>, events: seq<Event>)
    requires |events| > 0
    ensures FlowsOf(txs, events) ==
            FlowsOf(txs, events[..|events| - 1]) + [FlowOfEvent(txs, events[|events| - 1])]
  {
  }

  lemma {:induction false} FlowsAre(txs: seq<Tx>, events: seq<Event>)
    ensures |FlowsOf(txs, events)| == |events|
    ensures forall i :: 0 <= i < |events| ==> FlowsOf(txs, events)[i] == FlowOfEvent(txs, events[i])
  {
    hide FlowOfEvent;
    if |events| > 0 {
      FlowsAre(txs, events[..|events| - 1]);
      FlowsSnoc(txs, events);
      hide *;
    }
  }

  lemma {:induction false} FlowSums(txs: seq<Tx>, events: seq<Event>)
    ensures SumBy(FlowsOf(txs, events), FlowAmount) == SumBy(events, FlowCents)
  {
    if |events| > 0 {
      hide *;
      var front, e := events[..|events| - 1], events[|events| - 1];
      FlowSums(txs, front);
      FlowsSnoc(txs, events);
      assert events == front + [e];
      SumBySnoc(FlowsOf(txs, front), FlowOfEvent(txs, e), FlowAmount);
      SumBySnoc(front, e, FlowCents);
      FlowAmountIs(txs, e);
    }
  }

  lemma FlowAmountIs(txs: seq<Tx>, e: Event)
    ensures FlowAmount(FlowOfEvent(txs, e)) == FlowCents(e) && FlowOfEvent(txs, e).date == e.date
  {
  }

  lemma FlowFilter(hs: seq<Holding>, q: Query, e: Event)
    ensures IsFlow(q, HoldingIds(hs))(e) <==> PeriodEvent(hs, q.from, q.to)(e) && e.flow != 0
  {
    assert TouchesSet(e, HoldingIds(hs)) <==> exists p, h :: p in e.postings && h in hs && p.holdingId == h.id;
  }

  lemma KnownFlowIs(s: State, hs: seq<Holding>, q: Query)
    ensures SumBy(FlowsOf(s.transactions, Filter(s.events, IsFlow(q, HoldingIds(hs)))), FlowAmount) ==
            FlowSum(s, hs, q.from, q.to)
  {
    FlowSums(s.transactions, Filter(s.events, IsFlow(q, HoldingIds(hs))));
    forall e ensures IsFlow(q, HoldingIds(hs))(e) <==> PeriodEvent(hs, q.from, q.to)(e) && e.flow != 0 {
      FlowFilter(hs, q, e);
    }
    hide IsFlow, PeriodEvent;
    SumWithoutZeros(s.events, IsFlow(q, HoldingIds(hs)), PeriodEvent(hs, q.from, q.to), FlowCents);
  }

  lemma CoveredIs(s: State, hs: seq<Holding>, q: Query)
    requires q.from <= q.to
    ensures Covered(s, hs, q) <==> Attested(s, hs, q)
  {
    forall h: Holding, c: Coverage ensures CoversQuery(s, h.entityId, q)(c) <==> Spans(s, h, q, c) {
      SpansIs(s, h, q, c);
    }
    hide CoversQuery, Spans;
  }

  /** The last reconciliation that spans the period for the holding's entity. */
  ghost predicate LastSpanning(s: State, h: Holding, q: Query, k: nat) {
    && k < |s.coverage| && Spans(s, h, q, s.coverage[k])
    && forall j :: k < j < |s.coverage| ==> !Spans(s, h, q, s.coverage[j])
  }

  /** What is listed about a cash balance. */
  ghost predicate DescribesCash(s: State, h: Holding, q: Query, r: CashRow) {
    var opening, closing := SourcedMarkOf(s, h, q.from), SourcedMarkOf(s, h, q.to);
    && r.holdingId == h.id && r.movements == PostedNative(s, h.id, q.from, q.to)
    && r.opening == (if opening.Some? then Some(opening.value.amount) else None)
    && r.closing == (if closing.Some? then Some(closing.value.amount) else None)
    && (r.residual.Some? <==> opening.Some? && closing.Some? && opening.value.currency == closing.value.currency)
    && (r.residual.Some? ==> r.closing.value == r.opening.value + r.movements + r.residual.value)
    && (r.coverageId.None? <==> forall k: nat :: !LastSpanning(s, h, q, k))
    && (r.coverageId.Some? ==> exists k: nat :: LastSpanning(s, h, q, k) && r.coverageId.value == s.coverage[k].id)
  }

  lemma CashRowIs(s: State, h: Holding, q: Query)
    ensures DescribesCash(s, h, q, CashRowOf(s, h, q))
    ensures CashRowOf(s, h, q).residual == Some(0) <==> Explained(s, h, q)
  {
    MovementsAre(s, h, q);
    LastSpanIs(s, h, q);
    hide SourcedMarkOf, LastCoverage, Moved, CoversQuery, Spans, SumBy, Filter, LastSpanning;
  }

  lemma MovementsAre(s: State, h: Holding, q: Query)
    ensures SumBy(Filter(s.events, InPeriod(q)), NativeOn(h.id)) ==
            SumBy(Filter(s.events, (e: Event) => q.from < e.date <= q.to), (e: Event) => Moved(e.postings, h.id).native)
  {
    FilterEq(s.events, InPeriod(q), (e: Event) => q.from < e.date <= q.to);
    SumByEq(Filter(s.events, InPeriod(q)), NativeOn(h.id), (e: Event) => Moved(e.postings, h.id).native);
    hide SumBy, Filter, Moved;
  }

  lemma LastSpanIs(s: State, h: Holding, q: Query)
    ensures var last := LastCoverage(s.coverage, CoversQuery(s, h.entityId, q));
            && (last.Some? ==> exists k: nat :: LastSpanning(s, h, q, k) && last == Some(s.coverage[k]))
            && (last.None? ==> forall k: nat :: !LastSpanning(s, h, q, k))
  {
    hide LastCoverage, CoversQuery, Spans;
    forall c: Coverage ensures CoversQuery(s, h.entityId, q)(c) <==> Spans(s, h, q, c) { SpansIs(s, h, q, c); }
    var p := CoversQuery(s, h.entityId, q);
    if LastCoverage(s.coverage, p).Some? {
      var k := LastCoverageAt(s.coverage, p);
      assert LastSpanning(s, h, q, k);
    } else {
      forall k: nat ensures !LastSpanning(s, h, q, k) { }
    }
  }

  lemma SpansIs(s: State, h: Holding, q: Query, c: Coverage)
    ensures CoversQuery(s, h.entityId, q)(c) <==> Spans(s, h, q, c)
  {
    hide CoverageCurrent;
  }

  function CashOf(): Holding -> bool { (h: Holding) => h.assetClass == Cash }

  /** One row for each cash balance, in order. */
  ghost predicate ListsCash(s: State, hs: seq<Holding>, q: Query, rows: seq<CashRow>) {
    && |rows| == |Filter(hs, CashOf())|
    && forall i :: 0 <= i < |rows| ==> DescribesCash(s, Filter(hs, CashOf())[i], q, rows[i])
  }

  lemma CashRowsSnoc(s: State, hs: seq<Holding>, q: Query)
    requires |hs| > 0
    ensures CashRowsOf(s, hs, q) == CashRowsOf(s, hs[..|hs| - 1], q)
                                    + (if IsCash(hs[|hs| - 1]) then [CashRowOf(s, hs[|hs| - 1], q)] else [])
  {
    hide CashRowOf;
  }

  lemma {:induction false} CashRowsListed(s: State, hs: seq<Holding>, q: Query)
    ensures ListsCash(s, hs, q, CashRowsOf(s, hs, q))
  {
    hide CashRowOf, DescribesCash;
    if |hs| > 0 {
      var front, h := hs[..|hs| - 1], hs[|hs| - 1];
      CashRowsListed(s, front, q);
      CashRowIs(s, h, q);
      CashRowsSnoc(s, hs, q);
      assert hs == front + [h];
      FilterSnoc(front, h, CashOf());
      hide CashRowsOf, Filter;
    }
  }

  lemma {:induction false} CashRowsAre(s: State, hs: seq<Holding>, q: Query)
    ensures CashRowsOf(s, hs, q) != [] <==> HasCash(hs)
    ensures NoResidual(CashRowsOf(s, hs, q)) <==> AllExplained(s, hs, q)
  {
    hide CashRowOf, Explained;
    if |hs| > 0 {
      var front, h := hs[..|hs| - 1], hs[|hs| - 1];
      CashRowsAre(s, front, q);
      CashRowIs(s, h, q);
      assert hs == front + [h] && h in hs;
      CashRowsSnoc(s, hs, q);
      hide CashRowsOf, DescribesCash;
      if IsCash(h) { assert CashRowOf(s, h, q) in CashRowsOf(s, hs, q); }
      assert forall r :: r in CashRowsOf(s, hs, q) <==>
                           r in CashRowsOf(s, front, q) || (IsCash(h) && r == CashRowOf(s, h, q));
    }
  }

  // --- The report ------------------------------------------------------------------------------------

  /** The lists of a report: a row for each holding, the flows of the period in order, and the cash balances. */
  ghost predicate Lists(s: State, hs: seq<Holding>, q: Query, r: Report) {
    && |r.rows| == |hs|
    && (forall i :: 0 <= i < |hs| ==>
          && r.rows[i].holdingId == hs[i].id && r.rows[i].opening == SourcedMarkOf(s, hs[i], q.from)
          && r.rows[i].closing == SourcedMarkOf(s, hs[i], q.to))
    && ListsFlows(s, hs, q, r.flows) && ListsCash(s, hs, q, r.cash) && r.contributions == Contributions(s, hs, q)
  }

  function CrossingEvent(hs: seq<Holding>, from: int, to: int): Event -> bool {
    (e: Event) => InPeriodTouching(hs, from, to, e) && e.flow != 0
  }

  ghost predicate ListsFlows(s: State, hs: seq<Holding>, q: Query, flows: seq<Flow>) {
    var events := Filter(s.events, CrossingEvent(hs, q.from, q.to));
    && |flows| == |events|
    && forall i :: 0 <= i < |flows| ==>
         && flows[i].eventId == events[i].id && flows[i].txId == events[i].txId
         && flows[i].date == events[i].date && flows[i].amount == events[i].flow
         && (flows[i].kind.Some? ==>
               exists t :: t in s.transactions && t.id == events[i].txId && flows[i].kind == Some(t.kind))
         && (flows[i].kind.None? ==> forall t :: t in s.transactions ==> t.id != events[i].txId)
  }

  lemma FlowsListed(s: State, hs: seq<Holding>, q: Query)
    ensures ListsFlows(s, hs, q, FlowsOf(s.transactions, Filter(s.events, IsFlow(q, HoldingIds(hs)))))
  {
    forall e ensures IsFlow(q, HoldingIds(hs))(e) <==> CrossingEvent(hs, q.from, q.to)(e) { FlowFilter(hs, q, e); }
    hide IsFlow, CrossingEvent;
    FilterEq(s.events, IsFlow(q, HoldingIds(hs)), CrossingEvent(hs, q.from, q.to));
    FlowsAre(s.transactions, Filter(s.events, CrossingEvent(hs, q.from, q.to)));
    hide FlowsOf, FindTx, Filter;
  }

  lemma ReportLists(s: State, hs: seq<Holding>, q: Query)
    ensures Lists(s, hs, q, Evaluate(s, hs, q))
  {
    RowsAre(s, hs, q);
    FlowsListed(s, hs, q);
    CashRowsListed(s, hs, q);
    hide RowsOf, FlowsOf, CashRowsOf, ListsFlows, ListsCash, Contributions, ModifiedDietz, SumBy, Covered, Filter,
         IsFlow;
  }

  /** Values, flows and the result of a report, from the ledger's records. */
  ghost predicate Reports(s: State, hs: seq<Holding>, q: Query, r: Report) {
    && r.openingValue == (if hs != [] && AllMarked(s, hs, q.from) then Some(SumBy(hs, ValueOn(s, q.from))) else None)
    && r.closingValue == (if hs != [] && AllMarked(s, hs, q.to) then Some(SumBy(hs, ValueOn(s, q.to))) else None)
    && r.knownFlow == FlowSum(s, hs, q.from, q.to)
    && (r.covered <==> Attested(s, hs, q))
    && r.netFlow == (if FullyReconciled(s, hs, q) then Some(r.knownFlow) else None)
    && (r.result.Some? <==>
          hs != [] && AllMarked(s, hs, q.from) && AllMarked(s, hs, q.to) && FullyReconciled(s, hs, q))
    && (r.result.Some? ==>
          SumBy(hs, ValueOn(s, q.to)) ==
          SumBy(hs, ValueOn(s, q.from)) + r.result.value + FlowSum(s, hs, q.from, q.to))
  }

  /**
   The selected marks at the end are those at the start, plus the result, plus the money that crossed
   the boundary in between; there is a result exactly when every mark is sourced, every entity is
   attested, and every cash balance is explained by its postings.
   */
  lemma ReportIs(s: State, hs: seq<Holding>, q: Query)
    requires q.from < q.to
    ensures Reports(s, hs, q, Evaluate(s, hs, q))
  {
    RowSums(s, hs, q);
    RowsMarked(s, hs, q);
    KnownFlowIs(s, hs, q);
    CoveredIs(s, hs, q);
    CashRowsAre(s, hs, q);
    hide Compose, RowsOf, FlowsOf, CashRowsOf, Covered, Contributions, AllMarked, Attested, HasCash, AllExplained,
         SumBy, FlowSum, Filter, IsFlow, AllOpened, AllClosed, NoResidual;
    Composed(q, RowsOf(s, hs, q), FlowsOf(s.transactions, Filter(s.events, IsFlow(q, HoldingIds(hs)))),
             CashRowsOf(s, hs, q), Covered(s, hs, q), Contributions(s, hs, q));
  }

  /** The report's figures, once each list has been looked through. */
  lemma Composed(q: Query, rows: seq<Row>, flows: seq<Flow>, cash: seq<CashRow>, covered: bool, cs: seq<Contribution>)
    ensures var r := Compose(q, rows, flows, cash, covered, cs);
            && r.openingValue == (if rows != [] && AllOpened(rows) then Some(SumBy(rows, OpeningCents)) else None)
            && r.closingValue == (if rows != [] && AllClosed(rows) then Some(SumBy(rows, ClosingCents)) else None)
            && r.knownFlow == SumBy(flows, FlowAmount) && r.covered == covered
            && r.netFlow == (if covered && cash != [] && NoResidual(cash) then Some(r.knownFlow) else None)
            && (r.result.Some? <==>
                  r.openingValue.Some? && r.closingValue.Some? && covered && cash != [] && NoResidual(cash))
            && (r.result.Some? ==> r.result.value == r.closingValue.value - r.openingValue.value - r.knownFlow)
  {
    hide SumBy, ModifiedDietz;
  }

  /** Every family asked for is served, and every entity asked for belongs to one of those families. */
  ghost predicate ScopeKnown(o: Office, scope: Scope) {
    && (forall id :: id in scope.familyIds ==> id in o.families)
    && (scope.entityIds.Some? ==>
          forall id :: id in scope.entityIds.value ==>
                         exists e :: e in o.s.entities && e.id == id && e.familyId in scope.familyIds)
  }

  /** The selection holds each holding of the families asked for, of those entities if any are named. */
  lemma SelectionIs(o: Office, scope: Scope)
    ensures ReportingHoldings(o, scope).Ok? <==> ScopeKnown(o, scope)
    ensures ReportingHoldings(o, scope).Ok? ==>
              forall h :: h in ReportingHoldings(o, scope).value <==>
                          h in o.s.holdings && h.familyId in scope.familyIds
                          && (scope.entityIds.Some? ==> h.entityId in scope.entityIds.value)
  {
    if scope.entityIds.Some? {
      forall id ensures EntityKnown(o.s.entities, scope, id) <==>
                        exists e :: e in o.s.entities && e.id == id && e.familyId in scope.familyIds { }
      hide EntityKnown;
    }
  }

  /** A report is refused for unordered or future dates, a horizon of more than ten years, or an unknown scope. */
  lemma RefusedExactly(o: Office, q: Query, today: int)
    ensures EvaluatePeriod(o, q, today).Ok? <==>
            q.from < q.to <= today && q.liquidityAsOf <= today
            && q.liquidityAsOf <= q.liquidityThrough <= q.liquidityAsOf + 3660 && ScopeKnown(o, q.scope)
  {
    SelectionIs(o, q.scope);
    hide Evaluate, ReportingHoldings, ScopeKnown;
  }

  lemma PeriodReportIs(o: Office, q: Query, today: int)
    requires EvaluatePeriod(o, q, today).Ok?
    ensures ReportingHoldings(o, q.scope).Ok?
    ensures var hs, r := ReportingHoldings(o, q.scope).value, EvaluatePeriod(o, q, today).value;
            Reports(o.s, hs, q, r) && Lists(o.s, hs, q, r)
  {
    hide Reports, Lists, Evaluate, ReportingHoldings;
    ReportIs(o.s, ReportingHoldings(o, q.scope).value, q);
    ReportLists(o.s, ReportingHoldings(o, q.scope).value, q);
  }

  // --- Adjacent periods -----------------------------------------------------------------------------------

  lemma {:induction false} FlowsAdjoin(events: seq<Event>, hs: seq<Holding>, a: int, b: int, c: int)
    requires a <= b <= c
    ensures SumBy(Filter(events, PeriodEvent(hs, a, c)), FlowCents) ==
            SumBy(Filter(events, PeriodEvent(hs, a, b)), FlowCents)
            + SumBy(Filter(events, PeriodEvent(hs, b, c)), FlowCents)
  {
    if |events| > 0 {
      var front, e := events[..|events| - 1], events[|events| - 1];
      assert events == front + [e];
      FlowsAdjoin(front, hs, a, b, c);
      OneMoreEvent(front, e, hs, a, b);
      OneMoreEvent(front, e, hs, b, c);
      OneMoreEvent(front, e, hs, a, c);
      hide Filter, SumBy;
    }
  }

  lemma OneMoreEvent(front: seq<Event>, e: Event, hs: seq<Holding>, from: int, to: int)
    ensures SumBy(Filter(front + [e], PeriodEvent(hs, from, to)), FlowCents) ==
            SumBy(Filter(front, PeriodEvent(hs, from, to)), FlowCents)
            + (if InPeriodTouching(hs, from, to, e) then e.flow else 0)
  {
    SumFilterSnoc(front, e, PeriodEvent(hs, from, to), FlowCents);
    hide Filter, SumBy, InPeriodTouching;
  }

  /** The results of two adjacent periods add up to the result of both. */
  lemma ResultsAdjoin(s: State, hs: seq<Holding>, q: Query, mid: int)
    requires q.from < mid < q.to
    requires Evaluate(s, hs, q.(to := mid)).result.Some? && Evaluate(s, hs, q.(from := mid)).result.Some?
    requires Evaluate(s, hs, q).result.Some?
    ensures Evaluate(s, hs, q).result.value ==
            Evaluate(s, hs, q.(to := mid)).result.value + Evaluate(s, hs, q.(from := mid)).result.value
  {
    hide Evaluate, AllMarked, Attested, FullyReconciled, SumBy, Filter;
    ReportIs(s, hs, q);
    ReportIs(s, hs, q.(to := mid));
    ReportIs(s, hs, q.(from := mid));
    FlowsAdjoin(s.events, hs, q.from, mid, q.to);
  }

  // --- The return estimate -----------------------------------------------------------------------------------

  function SumReal<T>(xs: seq<T>, f: T -> real): real {
    if |xs| == 0 then 0.0 else SumReal(xs[..|xs| - 1], f) + f(xs[|xs| - 1])
  }

  /** A flow counts for the part of the period that is left after its day. */
  function Weighted(from: int, to: int): Event -> real
    requires from < to
  {
    (e: Event) => (e.flow * (to - e.date)) as real / (to - from) as real
  }

  /** The capital at work over the period: what it opened with, and each flow for the time it was there. */
  function Capital(s: State, hs: seq<Holding>, from: int, to: int): real
    requires from < to
  {
    SumBy(hs, ValueOn(s, from)) as real + SumReal(Filter(s.events, PeriodEvent(hs, from, to)), Weighted(from, to))
  }

  lemma {:induction false} WeightedFlowsAre(txs: seq<Tx>, events: seq<Event>, from: int, to: int)
    requires from < to
    ensures WeightedFlows(FlowsOf(txs, events), from, to) == SumReal(events, Weighted(from, to))
  {
    if |events| > 0 {
      var front, e := events[..|events| - 1], events[|events| - 1];
      WeightedFlowsAre(txs, front, from, to);
      FlowsSnoc(txs, events);
      FlowAmountIs(txs, e);
      hide FlowsOf, FlowOfEvent, FlowCents;
    }
  }

  lemma {:induction false} WeightsWithoutZeros(events: seq<Event>, p: Event -> bool, q: Event -> bool, w: Event -> real)
    requires forall e :: e in events && p(e) ==> q(e)
    requires forall e :: e in events && q(e) && !p(e) ==> w(e) == 0.0
    ensures SumReal(Filter(events, p), w) == SumReal(Filter(events, q), w)
  {
    hide SumReal, Filter;
    if |events| == 0 {
      FilterNone(events, p);
      FilterNone(events, q);
    } else {
      var front, e := events[..|events| - 1], events[|events| - 1];
      assert events == front + [e] && e in events;
      WeightsWithoutZeros(front, p, q, w);
      SumRealFilterSnoc(front, e, p, w);
      SumRealFilterSnoc(front, e, q, w);
    }
  }

  lemma SumRealFilterSnoc<T(!new)>(xs: seq<T>, x: T, p: T -> bool, f: T -> real)
    ensures SumReal(Filter(xs + [x], p), f) == SumReal(Filter(xs, p), f) + (if p(x) then f(x) else 0.0)
  {
    hide *;
    FilterSnoc(xs, x, p);
    SumRealSnoc(Filter(xs, p), x, f);
    assert Filter(xs, p) + [] == Filter(xs, p);
  }

  lemma SumRealSnoc<T>(xs: seq<T>, x: T, f: T -> real)
    ensures SumReal(xs + [x], f) == SumReal(xs, f) + f(x)
  {
    assert (xs + [x])[..|xs|] == xs;
  }

  lemma ZeroWeight(e: Event, from: int, to: int)
    requires from < to && (e.flow == 0 || e.date == to)
    ensures Weighted(from, to)(e) == 0.0
  {
    assert e.flow * (to - e.date) == 0;
  }

  lemma CapitalIs(s: State, hs: seq<Holding>, q: Query)
    requires q.from < q.to
    ensures WeightedFlows(FlowsOf(s.transactions, Filter(s.events, IsFlow(q, HoldingIds(hs)))), q.from, q.to) ==
            SumReal(Filter(s.events, PeriodEvent(hs, q.from, q.to)), Weighted(q.from, q.to))
  {
    WeightedFlowsAre(s.transactions, Filter(s.events, IsFlow(q, HoldingIds(hs))), q.from, q.to);
    forall e ensures IsFlow(q, HoldingIds(hs))(e) <==> PeriodEvent(hs, q.from, q.to)(e) && e.flow != 0 {
      FlowFilter(hs, q, e);
    }
    forall e | e in s.events && e.flow == 0 ensures Weighted(q.from, q.to)(e) == 0.0 { ZeroWeight(e, q.from, q.to); }
    hide IsFlow, PeriodEvent, Weighted;
    WeightsWithoutZeros(s.events, IsFlow(q, HoldingIds(hs)), PeriodEvent(hs, q.from, q.to), Weighted(q.from, q.to));
  }

  function Of(percent: real, capital: real): real { percent * capital }

  /**
   The estimate is the result as a percentage of the capital at work, whenever there is a result and
   that capital is positive; the capital itself is reported to the nearest cent.
   */
  lemma EstimateIs(s: State, hs: seq<Holding>, q: Query)
    requires q.from < q.to
    ensures var r, capital := Evaluate(s, hs, q), Capital(s, hs, q.from, q.to);
            && (r.estimate.percent.Some? <==> r.result.Some? && capital > 0.0)
            && (r.estimate.percent.Some? ==> Of(r.estimate.percent.value, capital) == 100.0 * r.result.value as real)
            && (r.estimate.denominator.Some? <==> r.result.Some?)
            && (r.estimate.denominator.Some? ==>
                  -0.5 <= capital - r.estimate.denominator.value as real < 0.5)
  {
    var flows := FlowsOf(s.transactions, Filter(s.events, IsFlow(q, HoldingIds(hs))));
    var capital := Capital(s, hs, q.from, q.to);
    RowSums(s, hs, q);
    CapitalIs(s, hs, q);
    forall f | f in flows ensures q.from < f.date <= q.to { FlowDated(s, hs, q, f); }
    hide RowsOf, FlowsOf, CashRowsOf, Covered, Contributions, WeightedFlows, SumBy, Filter, IsFlow, SumReal,
         PeriodEvent;
    var r := Evaluate(s, hs, q);
    if r.result.Some? {
      Dietz(r.openingValue.value, r.closingValue.value, flows, q.from, q.to, capital);
    }
  }

  lemma FlowDated(s: State, hs: seq<Holding>, q: Query, f: Flow)
    requires f in FlowsOf(s.transactions, Filter(s.events, IsFlow(q, HoldingIds(hs))))
    ensures q.from < f.date <= q.to
  {
    var events := Filter(s.events, IsFlow(q, HoldingIds(hs)));
    FlowsAre(s.transactions, events);
    hide FlowsOf, TouchesSet;
    var i: nat :| i < |events| && FlowOfEvent(s.transactions, events[i]) == f;
    assert events[i] in events;
  }

  lemma Dietz(opening: int, closing: int, flows: seq<Flow>, from: int, to: int, capital: real)
    requires from < to && forall f :: f in flows ==> from < f.date <= to
    requires capital == opening as real + WeightedFlows(flows, from, to)
    ensures var e := ModifiedDietz(opening, closing, flows, from, to);
            && (e.percent.Some? <==> capital > 0.0)
            && (e.percent.Some? ==>
                  Of(e.percent.value, capital) == 100.0 * (closing - opening - SumBy(flows, FlowAmount)) as real)
            && e.denominator.Some? && -0.5 <= capital - e.denominator.value as real < 0.5
  {
    hide WeightedFlows;
    if capital > 0.0 { PercentOf((closing - opening - SumBy(flows, FlowAmount)) as real, capital); }
    hide SumBy;
  }

  lemma PercentOf(gain: real, capital: real)
    requires capital > 0.0
    ensures Of(gain / capital * 100.0, capital) == 100.0 * gain
  {
    var x := gain / capital;
    assert x * capital == gain;
    assert x * 100.0 * capital == 100.0 * (x * capital);
  }

  /** Without a flow before the last day, the capital at work is what the period opened with. */
  lemma CapitalWithoutFlows(s: State, hs: seq<Holding>, from: int, to: int)
    requires from < to
    requires forall e :: e in s.events && InPeriodTouching(hs, from, to, e) ==> e.flow == 0 || e.date == to
    ensures Capital(s, hs, from, to) == SumBy(hs, ValueOn(s, from)) as real
  {
    forall e | e in s.events && PeriodEvent(hs, from, to)(e) ensures Weighted(from, to)(e) == 0.0 {
      ZeroWeight(e, from, to);
    }
    hide PeriodEvent, Weighted, SumBy;
    WeightsWithoutZeros(s.events, (e: Event) => false, PeriodEvent(hs, from, to), Weighted(from, to));
    FilterNone(s.events, (e: Event) => false);
  }

  // --- What a scoped workspace shows -----------------------------------------------------------------

  ghost predicate Holds(hs: seq<Holding>, id: string) { exists h :: h in hs && h.id == id }

  ghost predicate OwnsHolding(hs: seq<Holding>, entityId: string) { exists h :: h in hs && h.entityId == entityId }

  ghost predicate KeepsHolding(hs: seq<Holding>, accountId: string) { exists h :: h in hs && h.accountId == accountId }

  ghost predicate AllLegsHeld(hs: seq<Holding>, t: Tx) {
    && Holds(hs, t.cashId) && (t.holdingId.Some? ==> Holds(hs, t.holdingId.value))
    && (t.destinationId.Some? ==> Holds(hs, t.destinationId.value))
  }

  ghost predicate AllPostingsHeld(hs: seq<Holding>, e: Event) { forall p :: p in e.postings ==> Holds(hs, p.holdingId) }

  /** Marks, rows and evidence of the selected holdings. */
  ghost predicate ShowsHeld(s: State, hs: seq<Holding>, t: State) {
    && (forall r :: r in t.history <==> r in s.history && Holds(hs, r.holdingId))
    && (forall e :: e in t.evidence <==> e in s.evidence && Holds(hs, e.holdingId))
    && (forall m :: m in t.marks <==> m in s.marks && Holds(hs, m.holdingId))
  }

  /** Entities and accounts that own and keep them. */
  ghost predicate ShowsOwners(s: State, hs: seq<Holding>, t: State) {
    && (forall e :: e in t.entities <==> e in s.entities && OwnsHolding(hs, e.id))
    && (forall a :: a in t.accounts <==> a in s.accounts && KeepsHolding(hs, a.id))
    && (forall id :: id in t.reviews <==> id in s.reviews && KeepsHolding(hs, id))
    && (forall id :: id in t.reviews ==> t.reviews[id] == s.reviews[id])
  }

  /** Transactions and events that touch nothing else. */
  ghost predicate ShowsPosted(s: State, hs: seq<Holding>, t: State) {
    && (forall x :: x in t.transactions <==> x in s.transactions && AllLegsHeld(hs, x))
    && (forall e :: e in t.events <==>
          e in s.events && AllPostingsHeld(hs, e) && exists x :: x in t.transactions && x.id == e.txId)
  }

  /** A scoped workspace shows exactly the records about its selection alone. */
  lemma ScopedShowsOnly(s: State, hs: seq<Holding>)
    ensures var t := ScopedState(s, hs);
            && t.holdings == hs && t.cashEvents == []
            && ShowsHeld(s, hs, t) && ShowsOwners(s, hs, t) && ShowsPosted(s, hs, t)
  {
    hide *;
    ScopedFields(s, hs);
    HeldShown(s, hs);
    OwnersShown(s, hs);
    PostedShown(s, hs);
  }

  lemma ScopedFields(s: State, hs: seq<Holding>)
    ensures var t, ids := ScopedState(s, hs), HoldingIds(hs);
            && t.holdings == hs && t.cashEvents == []
            && t.transactions == Filter(s.transactions, KeptTx(ids))
            && t.events == Filter(s.events, KeptEvent(TxIds(t.transactions), ids))
  {
    hide Filter, HoldingIds, EntityIds, AccountIds, TxIds, RecountAll, KeptCoverage, KeptEvent, KeptTx, KeptMark;
  }

  lemma IsHeld(hs: seq<Holding>)
    ensures forall id :: id in HoldingIds(hs) <==> Holds(hs, id)
  {
  }

  lemma HeldShown(s: State, hs: seq<Holding>)
    ensures ShowsHeld(s, hs, ScopedState(s, hs))
  {
    IsHeld(hs);
    hide HoldingIds, Holds, EntityIds, AccountIds, TxIds, RecountAll, KeptCoverage, KeptEvent, KeptTx;
  }

  lemma OwnersShown(s: State, hs: seq<Holding>)
    ensures ShowsOwners(s, hs, ScopedState(s, hs))
  {
    forall id ensures id in EntityIds(hs) <==> OwnsHolding(hs, id) { }
    forall id ensures id in AccountIds(hs) <==> KeepsHolding(hs, id) { }
    hide HoldingIds, EntityIds, AccountIds, OwnsHolding, KeepsHolding, TxIds, RecountAll, KeptCoverage, KeptEvent,
         KeptTx, KeptMark;
  }

  lemma TxHeld(hs: seq<Holding>)
    ensures forall x :: KeptTx(HoldingIds(hs))(x) <==> AllLegsHeld(hs, x)
  {
    IsHeld(hs);
    hide HoldingIds, Holds;
  }

  lemma EventHeld(hs: seq<Holding>, txs: seq<Tx>)
    ensures forall e :: KeptEvent(TxIds(txs), HoldingIds(hs))(e) <==>
                        AllPostingsHeld(hs, e) && exists x :: x in txs && x.id == e.txId
  {
    IsHeld(hs);
    hide HoldingIds, Holds;
  }

  lemma PostedShown(s: State, hs: seq<Holding>)
    ensures ShowsPosted(s, hs, ScopedState(s, hs))
  {
    ScopedFields(s, hs);
    TxHeld(hs);
    EventHeld(hs, ScopedState(s, hs).transactions);
    hide ScopedState, HoldingIds, KeptTx, KeptEvent, TxIds, AllLegsHeld, AllPostingsHeld;
  }
}
