/**
 What a history query answers (`displayMark`, `point`, `positions` and `points` in
 lib/portfolio-history.ts): the cohort of positions held on a date, the tally of their marks,
 the dates on the chart, and the as-known cutoff for all of it.  Money is cents.
 */
module HistoryPoints {
  import opened Common
  import opened Ordering
  import opened History
  import opened HistoryProjection
  import CorrectionLog
  import Lifecycle

  const MAX_HOLDINGS := 200

  /** Whose positions a point counts: those held on its date, or those held today. */
  datatype Basis = Historical | Present

  /** `asOf` and `today` are resolved by the caller from the query and the clock. */
  datatype Query = Query(from: Option<int>, to: Option<int>, asOf: int, knownAt: Option<int>, basis: Basis, today: int,
                         currency: string, sourceCurrency: Option<string>)

  /** The selected holdings, all valuations, the unsourced legacy rows, and the lifecycle log. */
  datatype Books = Books(holdings: seq<string>, valuations: seq<Record>, legacy: seq<Record>,
                         lifecycle: seq<Lifecycle.Rec>)

  function Chosen(b: Books): seq<Record> { Filter(b.valuations, (r: Record) => r.holdingId in b.holdings) }

  function RowsFor(b: Books, q: Query): seq<Record> { TimelineRows(Chosen(b), b.legacy, q.knownAt, q.asOf) }

  // --- The mark of the plain rule -----------------------------------------------------------------

  lemma {:induction false} LatestExists(rs: seq<Record>, h: string, date: int, d: int) returns (latest: int)
    requires d <= date && GroupOf(rs, h, d) != []
    ensures LatestDate(rs, h, date, latest)
    decreases date - d
  {
    if e :| d < e <= date && GroupOf(rs, h, e) != [] {
      latest := LatestExists(rs, h, date, e);
    } else {
      latest := d;
    }
  }

  lemma OneLatest(rs: seq<Record>, h: string, date: int, d: int, e: int)
    requires LatestDate(rs, h, date, d) && LatestDate(rs, h, date, e)
    ensures d == e
  {
  }

  lemma PlainMarkExists(rs: seq<Record>, h: string, date: int)
    ensures exists m :: PlainMark(rs, h, date, m)
  {
    hide GroupOf, SoleCurrent;
    if d :| d <= date && GroupOf(rs, h, d) != [] {
      var latest := LatestExists(rs, h, date, d);
      forall e | LatestDate(rs, h, date, e) ensures e == latest { OneLatest(rs, h, date, e, latest); }
      assert PlainMark(rs, h, date, SoleCurrent(GroupOf(rs, h, latest)));
    } else {
      assert PlainMark(rs, h, date, None);
    }
  }

  lemma PlainMarkUnique(rs: seq<Record>, h: string, date: int, a: Option<Record>, b: Option<Record>)
    requires PlainMark(rs, h, date, a) && PlainMark(rs, h, date, b)
    ensures a == b
  {
    hide GroupOf, SoleCurrent;
    if d :| d <= date && GroupOf(rs, h, d) != [] { var latest := LatestExists(rs, h, date, d); }
  }

  /** The one mark the plain rule allows. */
  ghost function MarkOf(rs: seq<Record>, h: string, date: int): (m: Option<Record>)
    ensures PlainMark(rs, h, date, m)
  {
    PlainMarkExists(rs, h, date);
    var m :| PlainMark(rs, h, date, m);
    m
  }

  // --- The cohort -----------------------------------------------------------------------------------

  /** `ownedAt`: neither not yet acquired nor given up; unknown ownership is retained. */
  predicate OwnedAt(life: seq<Lifecycle.Rec>, q: Query, h: string, date: int) {
    Lifecycle.LifecycleAt(life, h, if q.basis == Present then q.today else date, q.knownAt).0
    !in {Lifecycle.Ended, Lifecycle.NotYetOpened}
  }

  function HeldOn(life: seq<Lifecycle.Rec>, q: Query, date: int): string -> bool {
    (h: string) => OwnedAt(life, q, h, date)
  }

  function Cohort(b: Books, q: Query, date: int): seq<string> { Filter(b.holdings, HeldOn(b.lifecycle, q, date)) }

  function InCurrency(m: Option<Record>, currency: Option<string>): Option<Record> {
    if m.Some? && (currency.None? || m.value.currency == currency.value) then m else None
  }

  /** `displayMark`. */
  ghost function Shown(rs: seq<Record>, life: seq<Lifecycle.Rec>, q: Query, h: string, date: int): Option<Record> {
    if OwnedAt(life, q, h, date) then InCurrency(MarkOf(rs, h, date), q.sourceCurrency) else None
  }

  ghost function ShownMarks(rs: seq<Record>, life: seq<Lifecycle.Rec>, q: Query, hs: seq<string>, date: int)
    : (ms: seq<Option<Record>>)
    ensures |ms| == |hs| && forall i :: 0 <= i < |hs| ==> ms[i] == Shown(rs, life, q, hs[i], date)
  {
    seq(|hs|, i requires 0 <= i < |hs| => Shown(rs, life, q, hs[i], date))
  }

  method DisplayMark(t: Timeline, ghost rs: seq<Record>, life: seq<Lifecycle.Rec>, q: Query, h: string, date: int)
    returns (mark: Option<Record>)
    requires TimelineOf(t, rs)
    ensures mark == Shown(rs, life, q, h, date)
  {
    hide TimelineOf, PlainMark, OwnedAt;
    if !OwnedAt(life, q, h, date) { return None; }
    var reported := HoldingMark(t, rs, h, date);
    PlainMarkUnique(rs, h, date, reported, MarkOf(rs, h, date));
    return InCurrency(reported, q.sourceCurrency);
  }

  // --- Points -----------------------------------------------------------------------------------------

  datatype Coverage = Coverage(known: nat, unknown: nat, total: nat, complete: bool, carried: nat, unavailable: nat)

  /** `dated`: the observations dated on the point itself. */
  datatype HistoryPoint = HistoryPoint(date: int, amount: Option<int>, knownAmount: Option<int>, coverage: Coverage,
                                       dated: seq<int>)

  predicate HasAmount(m: Option<Record>, currency: string) { m.Some? && Amount(m.value, currency).Some? }

  function KnownCents(currency: string): Option<Record> -> int {
    (m: Option<Record>) => if HasAmount(m, currency) then Amount(m.value, currency).value else 0
  }

  function Known(currency: string): Option<Record> -> bool { (m: Option<Record>) => HasAmount(m, currency) }

  function CarriedTo(currency: string, date: int): Option<Record> -> bool {
    (m: Option<Record>) => HasAmount(m, currency) && m.value.date < date
  }

  function Unavailable(currency: string): Option<Record> -> bool {
    (m: Option<Record>) => m.Some? && !HasAmount(m, currency)
  }

  function DatedIds(marks: seq<Option<Record>>, date: int, currency: string): seq<int> {
    if |marks| == 0 then []
    else
      var front, m := DatedIds(marks[..|marks| - 1], date, currency), marks[|marks| - 1];
      if HasAmount(m, currency) && m.value.date == date then front + [m.value.id] else front
  }

  datatype Tally = Tally(total: int, known: nat, carried: nat, unavailable: nat, dated: seq<int>)

  function TallyOf(marks: seq<Option<Record>>, date: int, currency: string): Tally {
    Tally(SumBy(marks, KnownCents(currency)), |Filter(marks, Known(currency))|,
          |Filter(marks, CarriedTo(currency, date))|,
          |Filter(marks, Unavailable(currency))|, DatedIds(marks, date, currency))
  }

  lemma TallyStep(marks: seq<Option<Record>>, m: Option<Record>, date: int, currency: string)
    ensures var a, b := TallyOf(marks, date, currency), TallyOf(marks + [m], date, currency);
            if HasAmount(m, currency) then
              b == Tally(a.total + Amount(m.value, currency).value, a.known + 1,
                         a.carried + (if m.value.date < date then 1 else 0), a.unavailable,
                         a.dated + (if m.value.date == date then [m.value.id] else []))
            else
              b == a.(unavailable := a.unavailable + (if m.Some? then 1 else 0))
  {
    hide Filter, SumBy, Amount;
    assert (marks + [m])[..|marks|] == marks;
    SumBySnoc(marks, m, KnownCents(currency));
    FilterSnoc(marks, m, Known(currency));
    FilterSnoc(marks, m, CarriedTo(currency, date));
    FilterSnoc(marks, m, Unavailable(currency));
  }

  lemma TallyNone(date: int, currency: string)
    ensures TallyOf([], date, currency) == Tally(0, 0, 0, 0, [])
  {
  }

  /** A filter keeps the whole length exactly when it drops nothing. */
  lemma {:induction false} KeptAll<T(!new)>(xs: seq<T>, p: T -> bool)
    ensures |Filter(xs, p)| == |xs| <==> forall x :: x in xs ==> p(x)
  {
    if |xs| > 0 {
      var front, last := xs[..|xs| - 1], xs[|xs| - 1];
      KeptAll(front, p);
      assert xs == front + [last];
    }
  }

  /** The point a list of marks makes. */
  function PointOf(marks: seq<Option<Record>>, date: int, currency: string): HistoryPoint {
    var t := TallyOf(marks, date, currency);
    var knownAmount := if t.known > 0 then Some(t.total) else None;
    var complete := |marks| > 0 && t.known == |marks|;
    HistoryPoint(date, if complete then knownAmount else None, knownAmount,
                 Coverage(t.known, |marks| - t.known, |marks|, complete, t.carried, t.unavailable), t.dated)
  }

  /** A partial total is never presented as complete, nor an unknown value as zero. */
  lemma PointMeans(marks: seq<Option<Record>>, date: int, currency: string)
    ensures var p := PointOf(marks, date, currency);
            && (p.amount.Some? <==> marks != [] && forall m :: m in marks ==> HasAmount(m, currency))
            && (p.knownAmount.Some? <==> exists m :: m in marks && HasAmount(m, currency))
            && (p.amount.Some? ==> p.amount == p.knownAmount == Some(SumBy(marks, KnownCents(currency))))
            && p.coverage.known + p.coverage.unknown == p.coverage.total == |marks|
            && p.coverage.carried <= p.coverage.known && p.coverage.unavailable <= p.coverage.unknown
  {
    KeptAll(marks, Known(currency));
    CountSplits(marks, date, currency);
    if m :| m in marks && HasAmount(m, currency) { assert m in Filter(marks, Known(currency)); }
    if Filter(marks, Known(currency)) != [] {
      var m := Filter(marks, Known(currency))[0];
      assert m in Filter(marks, Known(currency));
    }
  }

  lemma {:induction false} CountSplits(marks: seq<Option<Record>>, date: int, currency: string)
    ensures var t := TallyOf(marks, date, currency);
            t.carried <= t.known && t.known + t.unavailable <= |marks|
  {
    if |marks| > 0 {
      var front, last := marks[..|marks| - 1], marks[|marks| - 1];
      CountSplits(front, date, currency);
      assert marks == front + [last];
      TallyStep(front, last, date, currency);
      hide TallyOf;
    } else {
      TallyNone(date, currency);
    }
  }

  ghost function PointFor(rs: seq<Record>, b: Books, q: Query, date: int): HistoryPoint {
    PointOf(ShownMarks(rs, b.lifecycle, q, Cohort(b, q, date), date), date, q.currency)
  }

  /** `point`: tallies the cohort's marks as it looks each one up. */
  method PointAt(t: Timeline, ghost rs: seq<Record>, b: Books, q: Query, date: int) returns (p: HistoryPoint)
    requires TimelineOf(t, rs)
    ensures p == PointFor(rs, b, q, date)
  {
    hide TimelineOf, Shown, TallyOf, OwnedAt, Amount;
    var included := Cohort(b, q, date);
    ghost var marks := ShownMarks(rs, b.lifecycle, q, included, date);
    var total, known: nat, carried: nat, unavailable: nat, ids: seq<int> := 0, 0, 0, 0, [];
    TallyNone(date, q.currency);
    var i := 0;
    while i < |included|
      invariant 0 <= i <= |included|
      invariant TallyOf(marks[..i], date, q.currency) == Tally(total, known, carried, unavailable, ids)
    {
      var mark := DisplayMark(t, rs, b.lifecycle, q, included[i], date);
      assert marks[..i + 1] == marks[..i] + [mark];
      TallyStep(marks[..i], mark, date, q.currency);
      if HasAmount(mark, q.currency) {
        total := total + Amount(mark.value, q.currency).value;
        known := known + 1;
        if mark.value.date < date { carried := carried + 1; }
        if mark.value.date == date { ids := ids + [mark.value.id]; }
      } else if mark.Some? {
        unavailable := unavailable + 1;
      }
      i := i + 1;
    }
    assert marks[..i] == marks;
    CountSplits(marks, date, q.currency);
    var unknown := |included| - known;
    var complete := |included| > 0 && unknown == 0;
    var knownAmount := if known > 0 then Some(total) else None;
    return HistoryPoint(date, if complete then knownAmount else None, knownAmount,
                        Coverage(known, unknown, |included|, complete, carried, unavailable), ids);
  }

  // --- The dates on the chart -------------------------------------------------------------------------

  function End(q: Query): int { if q.to.Some? && q.to.value < q.asOf then q.to.value else q.asOf }

  predicate Within(q: Query, date: int) { (q.from.Some? ==> q.from.value <= date) && date <= End(q) }

  predicate OnChart(q: Query, r: Record) {
    Within(q, r.date) && (q.sourceCurrency.None? || r.currency == q.sourceCurrency.value)
  }

  ghost predicate IsCurrentIn(rs: seq<Record>, r: Record) { r in rs && FinalStatus(rs, r) == Current }

  predicate Declared(b: Books, q: Query, e: Lifecycle.Rec) {
    q.basis == Historical && e.holdingId in b.holdings && Within(q, e.date)
  }

  ghost predicate IsPointDate(rs: seq<Record>, b: Books, q: Query, d: int) {
    || (exists r :: IsCurrentIn(rs, r) && OnChart(q, r) && r.date == d)
    || (exists e :: e in CorrectionLog.Visible(b.lifecycle, q.knownAt) && Declared(b, q, e) && e.date == d)
    || q.from == Some(d)
    || (d == End(q) && exists r :: IsCurrentIn(rs, r))
  }

  ghost predicate Increasing(dates: seq<int>) { forall i, j :: 0 <= i < j < |dates| ==> dates[i] < dates[j] }

  /** The dates of current marks; whether there are any at all. */
  method MarkDates(t: Timeline, ghost rs: seq<Record>, q: Query) returns (dates: seq<int>, any: bool)
    requires TimelineOf(t, rs)
    ensures Increasing(dates)
    ensures forall d :: d in dates <==> exists r :: IsCurrentIn(rs, r) && OnChart(q, r) && r.date == d
    ensures any <==> exists r :: IsCurrentIn(rs, r)
  {
    hide AllLineagesEnd, FinalStatus, Sorted, OnChart;
    dates, any := [], false;
    var i := 0;
    while i < |t.rows|
      invariant 0 <= i <= |t.rows| && Increasing(dates)
      invariant forall d :: d in dates <==>
                  exists k :: 0 <= k < i && t.statuses[k] == Current && OnChart(q, t.rows[k]) && t.rows[k].date == d
      invariant any <==> exists k :: 0 <= k < i && t.statuses[k] == Current
    {
      if t.statuses[i] == Current {
        any := true;
        if OnChart(q, t.rows[i]) { dates := InsertDate(dates, t.rows[i].date); }
      }
      i := i + 1;
    }
    forall r | IsCurrentIn(rs, r) ensures exists k :: 0 <= k < |rs| && rs[k] == r && t.statuses[k] == Current {
      var k: nat :| k < |rs| && rs[k] == r;
    }
    assert forall k :: 0 <= k < |rs| && t.statuses[k] == Current ==> IsCurrentIn(rs, rs[k]);
  }

  /** A historical chart also has a point at every declaration known by the cutoff, corrected or not. */
  method AddDeclarations(b: Books, q: Query, dates: seq<int>) returns (all: seq<int>)
    requires Increasing(dates)
    ensures Increasing(all)
    ensures forall d :: d in all <==>
              d in dates ||
              exists e :: e in CorrectionLog.Visible(b.lifecycle, q.knownAt) && Declared(b, q, e) && e.date == d
  {
    var seen := CorrectionLog.Visible(b.lifecycle, q.knownAt);
    hide CorrectionLog.Visible, Declared;
    all := dates;
    var i := 0;
    while i < |seen|
      invariant 0 <= i <= |seen| && Increasing(all)
      invariant forall d :: d in all <==>
                  d in dates || exists k :: 0 <= k < i && Declared(b, q, seen[k]) && seen[k].date == d
    {
      if Declared(b, q, seen[i]) { all := InsertDate(all, seen[i].date); }
      i := i + 1;
    }
    forall e | e in seen ensures exists k :: 0 <= k < |seen| && seen[k] == e { }
  }

  method PointDates(t: Timeline, ghost rs: seq<Record>, b: Books, q: Query) returns (dates: seq<int>)
    requires TimelineOf(t, rs)
    ensures Increasing(dates) && forall d :: d in dates <==> IsPointDate(rs, b, q, d)
  {
    hide TimelineOf, IsCurrentIn, OnChart, Declared, CorrectionLog.Visible;
    var any: bool;
    dates, any := MarkDates(t, rs, q);
    dates := AddDeclarations(b, q, dates);
    if q.from.Some? { dates := InsertDate(dates, q.from.value); }
    if any { dates := InsertDate(dates, End(q)); }
  }

  // --- The answer ------------------------------------------------------------------------------------

  /** A position as of the query's date: its displayed and reported marks, and its lifecycle. */
  datatype PositionView = PositionView(holdingId: string, latest: Option<Record>, latestReported: Option<Record>,
                                       ownership: Lifecycle.Ownership, details: Option<Lifecycle.Rec>)

  datatype Answer = Answer(points: seq<HistoryPoint>, summary: HistoryPoint, positions: seq<PositionView>)

  ghost function PositionFor(rs: seq<Record>, b: Books, q: Query, h: string): PositionView {
    var life := Lifecycle.LifecycleAt(b.lifecycle, h, q.asOf, q.knownAt);
    PositionView(h, Shown(rs, b.lifecycle, q, h, q.asOf), InCurrency(MarkOf(rs, h, q.asOf), q.sourceCurrency),
                 life.0, life.1)
  }

  /** One point for each date of the chart, in order. */
  ghost predicate PointsAre(rs: seq<Record>, b: Books, q: Query, points: seq<HistoryPoint>) {
    && (forall i, j :: 0 <= i < j < |points| ==> points[i].date < points[j].date)
    && (forall d :: IsPointDate(rs, b, q, d) <==> exists i :: 0 <= i < |points| && points[i].date == d)
    && (forall i :: 0 <= i < |points| ==> points[i] == PointFor(rs, b, q, points[i].date))
  }

  ghost predicate PositionsAre(rs: seq<Record>, b: Books, q: Query, positions: seq<PositionView>) {
    && |positions| == |b.holdings|
    && forall i :: 0 <= i < |b.holdings| ==> positions[i] == PositionFor(rs, b, q, b.holdings[i])
  }

  ghost predicate Answers(rs: seq<Record>, b: Books, q: Query, a: Answer) {
    PointsAre(rs, b, q, a.points) && a.summary == PointFor(rs, b, q, q.asOf) && PositionsAre(rs, b, q, a.positions)
  }

  /** Why a query is refused. */
  ghost function Refusal(b: Books, q: Query): Option<HistoryError> {
    if q.from.Some? && q.asOf < q.from.value then Some(DateInvalid)
    else if |b.holdings| > MAX_HOLDINGS || |Chosen(b)| > MAX_OBSERVATIONS then Some(Capacity)
    else Problem(Chosen(b), RowsFor(b, q))
  }

  /** `projectPortfolioHistory`, from the books to the chart. */
  method ProjectHistory(b: Books, q: Query) returns (r: Result<Answer, HistoryError>)
    requires LegacyOk(Chosen(b), b.legacy)
    ensures r.Ok? <==> Refusal(b, q).None?
    ensures r.Err? ==> Refusal(b, q) == Some(r.error)
    ensures r.Ok? ==> Answers(RowsFor(b, q), b, q, r.value)
  {
    if q.from.Some? && q.asOf < q.from.value { return Err(DateInvalid); }
    var chosen := Chosen(b);
    if |b.holdings| > MAX_HOLDINGS || |chosen| > MAX_OBSERVATIONS { return Err(Capacity); }
    hide Chosen, TimelineRows, TimelineOf, LegacyOk, PointFor, PointsAre, PositionsAre, Problem;
    var projected := Project(chosen, b.legacy, q.knownAt, q.asOf);
    if projected.Err? { return Err(projected.error); }
    ghost var rs := RowsFor(b, q);
    var points := Points(projected.value, rs, b, q);
    var positions := Positions(projected.value, rs, b, q);
    var summary := PointAt(projected.value, rs, b, q, q.asOf);
    return Ok(Answer(points, summary, positions));
  }

  method Points(t: Timeline, ghost rs: seq<Record>, b: Books, q: Query) returns (points: seq<HistoryPoint>)
    requires TimelineOf(t, rs)
    ensures PointsAre(rs, b, q, points)
  {
    hide *;
    var dates := PointDates(t, rs, b, q);
    points := [];
    var i := 0;
    while i < |dates|
      invariant 0 <= i <= |dates| && |points| == i
      invariant forall j :: 0 <= j < i ==> points[j] == PointFor(rs, b, q, dates[j])
    {
      var p := PointAt(t, rs, b, q, dates[i]);
      points := points + [p];
      i := i + 1;
    }
    PointsFor(rs, b, q, dates, points);
  }

  lemma PointsFor(rs: seq<Record>, b: Books, q: Query, dates: seq<int>, points: seq<HistoryPoint>)
    requires Increasing(dates) && forall d :: d in dates <==> IsPointDate(rs, b, q, d)
    requires |points| == |dates| && forall j :: 0 <= j < |dates| ==> points[j] == PointFor(rs, b, q, dates[j])
    ensures PointsAre(rs, b, q, points)
  {
    hide IsPointDate, PointFor;
    forall j | 0 <= j < |dates| ensures points[j].date == dates[j] { PointDated(rs, b, q, dates[j]); }
    forall d | IsPointDate(rs, b, q, d) ensures exists i :: 0 <= i < |points| && points[i].date == d {
      var k :| 0 <= k < |dates| && dates[k] == d;
      assert points[k].date == d;
    }
    assert forall i :: 0 <= i < |points| ==> dates[i] in dates;
  }

  lemma PointDated(rs: seq<Record>, b: Books, q: Query, date: int)
    ensures PointFor(rs, b, q, date).date == date
  {
    hide ShownMarks, Cohort, TallyOf;
  }

  method Positions(t: Timeline, ghost rs: seq<Record>, b: Books, q: Query) returns (positions: seq<PositionView>)
    requires TimelineOf(t, rs)
    ensures PositionsAre(rs, b, q, positions)
  {
    hide TimelineOf, PositionFor;
    positions := [];
    var i := 0;
    while i < |b.holdings|
      invariant 0 <= i <= |b.holdings| && |positions| == i
      invariant forall j :: 0 <= j < i ==> positions[j] == PositionFor(rs, b, q, b.holdings[j])
    {
      var position := PositionOn(t, rs, b, q, b.holdings[i]);
      positions := positions + [position];
      i := i + 1;
    }
  }

  method PositionOn(t: Timeline, ghost rs: seq<Record>, b: Books, q: Query, h: string) returns (position: PositionView)
    requires TimelineOf(t, rs)
    ensures position == PositionFor(rs, b, q, h)
  {
    hide TimelineOf, PlainMark, OwnedAt, Shown, Lifecycle.LifecycleAt;
    var life := Lifecycle.LifecycleAt(b.lifecycle, h, q.asOf, q.knownAt);
    var latest := DisplayMark(t, rs, b.lifecycle, q, h, q.asOf);
    var reported := HoldingMark(t, rs, h, q.asOf);
    PlainMarkUnique(rs, h, q.asOf, reported, MarkOf(rs, h, q.asOf));
    return PositionView(h, latest, InCurrency(reported, q.sourceCurrency), life.0, life.1);
  }

  lemma {:induction false} OneIncreasingList(xs: seq<int>, ys: seq<int>)
    requires Increasing(xs) && Increasing(ys) && forall d :: d in xs <==> d in ys
    ensures xs == ys
  {
    EmptyTogether(xs, ys);
    if |xs| > 0 {
      var m, n := |xs| - 1, |ys| - 1;
      assert xs[m] in ys && ys[n] in xs;
      assert xs[m] == ys[n];
      forall d ensures d in xs[..m] <==> d in ys[..n] {
        FrontOf(xs, d);
        FrontOf(ys, d);
      }
      OneIncreasingList(xs[..m], ys[..n]);
      assert xs == xs[..m] + [xs[m]] && ys == ys[..n] + [ys[n]];
    }
  }

  lemma EmptyTogether(xs: seq<int>, ys: seq<int>)
    requires forall d :: d in xs <==> d in ys
    ensures |xs| == 0 <==> |ys| == 0
  {
    var s, t := set d | d in xs, set d | d in ys;
    assert forall d: int :: d in s <==> d in t;
    if |xs| > 0 { assert xs[0] in s; }
    if |ys| > 0 { assert ys[0] in t; }
  }

  lemma FrontOf(xs: seq<int>, d: int)
    requires Increasing(xs) && |xs| > 0
    ensures d in xs[..|xs| - 1] <==> d in xs && d != xs[|xs| - 1]
  {
  }

  function DatesOf(points: seq<HistoryPoint>): (dates: seq<int>)
    ensures |dates| == |points| && forall i :: 0 <= i < |points| ==> dates[i] == points[i].date
  {
    seq(|points|, i requires 0 <= i < |points| => points[i].date)
  }

  /** A query has one answer. */
  lemma AnswerIsUnique(rs: seq<Record>, b: Books, q: Query, a: Answer, a': Answer)
    requires Answers(rs, b, q, a) && Answers(rs, b, q, a')
    ensures a == a'
  {
    hide PointFor, IsPointDate, PositionFor;
    var xs, ys := DatesOf(a.points), DatesOf(a'.points);
    forall d ensures d in xs <==> IsPointDate(rs, b, q, d) { DatesAre(rs, b, q, a.points, d); }
    forall d ensures d in ys <==> IsPointDate(rs, b, q, d) { DatesAre(rs, b, q, a'.points, d); }
    OneIncreasingList(xs, ys);
    assert a.points == a'.points && a.positions == a'.positions;
  }

  lemma DatesAre(rs: seq<Record>, b: Books, q: Query, points: seq<HistoryPoint>, d: int)
    requires PointsAre(rs, b, q, points)
    ensures d in DatesOf(points) <==> IsPointDate(rs, b, q, d)
  {
    hide PointFor, IsPointDate;
    if IsPointDate(rs, b, q, d) {
      var i :| 0 <= i < |points| && points[i].date == d;
      assert DatesOf(points)[i] == d;
    }
    if d in DatesOf(points) {
      var i :| 0 <= i < |points| && DatesOf(points)[i] == d;
      assert points[i].date == d;
    }
  }

  // --- What an answer depends on ------------------------------------------------------------------------

  /** The same accepted groups, the same declarations known. */
  ghost predicate SeeTheSame(rs: seq<Record>, b: Books, q: Query, rs': seq<Record>, b': Books, q': Query) {
    && (forall h, d :: GroupOf(rs, h, d) == GroupOf(rs', h, d))
    && CorrectionLog.Visible(b.lifecycle, q.knownAt) == CorrectionLog.Visible(b'.lifecycle, q'.knownAt)
    && b.holdings == b'.holdings && q' == q.(knownAt := q'.knownAt)
  }

  lemma SameMark(rs: seq<Record>, rs': seq<Record>, h: string, date: int)
    requires forall h, d :: GroupOf(rs, h, d) == GroupOf(rs', h, d)
    ensures MarkOf(rs, h, date) == MarkOf(rs', h, date)
  {
    hide GroupOf, SoleCurrent;
    assert forall d :: LatestDate(rs, h, date, d) <==> LatestDate(rs', h, date, d);
    assert PlainMark(rs', h, date, MarkOf(rs, h, date));
    PlainMarkUnique(rs', h, date, MarkOf(rs, h, date), MarkOf(rs', h, date));
  }

  lemma SameLife(b: Books, q: Query, b': Books, q': Query, h: string, date: int)
    requires CorrectionLog.Visible(b.lifecycle, q.knownAt) == CorrectionLog.Visible(b'.lifecycle, q'.knownAt)
    requires q' == q.(knownAt := q'.knownAt)
    ensures Lifecycle.LifecycleAt(b.lifecycle, h, date, q.knownAt) ==
            Lifecycle.LifecycleAt(b'.lifecycle, h, date, q'.knownAt)
    ensures OwnedAt(b.lifecycle, q, h, date) == OwnedAt(b'.lifecycle, q', h, date)
  {
    hide CorrectionLog.Visible, CorrectionLog.Active, CorrectionLog.OfHolding, Sort, Lifecycle.OwnershipAt,
         Lifecycle.DetailsAt;
  }

  lemma SameShown(rs: seq<Record>, b: Books, q: Query, rs': seq<Record>, b': Books, q': Query, h: string, date: int)
    requires SeeTheSame(rs, b, q, rs', b', q')
    ensures Shown(rs, b.lifecycle, q, h, date) == Shown(rs', b'.lifecycle, q', h, date)
  {
    hide GroupOf, CorrectionLog.Visible, OwnedAt, PlainMark;
    SameMark(rs, rs', h, date);
    SameLife(b, q, b', q', h, date);
  }

  lemma SamePoint(rs: seq<Record>, b: Books, q: Query, rs': seq<Record>, b': Books, q': Query, date: int)
    requires SeeTheSame(rs, b, q, rs', b', q')
    ensures PointFor(rs, b, q, date) == PointFor(rs', b', q', date)
  {
    assert b.holdings == b'.holdings && q.currency == q'.currency;
    hide SeeTheSame, OwnedAt, Shown, PointOf;
    forall h ensures HeldOn(b.lifecycle, q, date)(h) == HeldOn(b'.lifecycle, q', date)(h) {
      SameOwned(rs, b, q, rs', b', q', h, date);
    }
    FilterEq(b.holdings, HeldOn(b.lifecycle, q, date), HeldOn(b'.lifecycle, q', date));
    var hs := Cohort(b, q, date);
    forall i | 0 <= i < |hs|
      ensures Shown(rs, b.lifecycle, q, hs[i], date) == Shown(rs', b'.lifecycle, q', hs[i], date)
    {
      SameShown(rs, b, q, rs', b', q', hs[i], date);
    }
    assert ShownMarks(rs, b.lifecycle, q, hs, date) == ShownMarks(rs', b'.lifecycle, q', hs, date);
  }

  lemma SameOwned(rs: seq<Record>, b: Books, q: Query, rs': seq<Record>, b': Books, q': Query, h: string, date: int)
    requires SeeTheSame(rs, b, q, rs', b', q')
    ensures OwnedAt(b.lifecycle, q, h, date) == OwnedAt(b'.lifecycle, q', h, date)
  {
    hide OwnedAt, GroupOf, CorrectionLog.Visible;
    SameLife(b, q, b', q', h, date);
  }

  lemma SameCurrent(rs: seq<Record>, rs': seq<Record>, r: Record)
    requires forall h, d :: GroupOf(rs, h, d) == GroupOf(rs', h, d)
    ensures IsCurrentIn(rs, r) <==> IsCurrentIn(rs', r)
  {
    hide StatusOf, GroupOf;
    CurrentInGroup(rs, r);
    CurrentInGroup(rs', r);
  }

  lemma CurrentInGroup(rs: seq<Record>, r: Record)
    ensures IsCurrentIn(rs, r) <==>
            r in GroupOf(rs, r.holdingId, r.date) && StatusOf(GroupOf(rs, r.holdingId, r.date), r) == Current
  {
    hide StatusOf;
  }

  lemma SameDates(rs: seq<Record>, b: Books, q: Query, rs': seq<Record>, b': Books, q': Query, d: int)
    requires SeeTheSame(rs, b, q, rs', b', q')
    ensures IsPointDate(rs, b, q, d) <==> IsPointDate(rs', b', q', d)
  {
    hide GroupOf, CorrectionLog.Visible, IsCurrentIn;
    forall r ensures IsCurrentIn(rs, r) <==> IsCurrentIn(rs', r) { SameCurrent(rs, rs', r); }
    assert forall r :: OnChart(q, r) == OnChart(q', r);
    assert forall e :: Declared(b, q, e) == Declared(b', q', e);
  }

  lemma SamePosition(rs: seq<Record>, b: Books, q: Query, rs': seq<Record>, b': Books, q': Query, h: string)
    requires SeeTheSame(rs, b, q, rs', b', q')
    ensures PositionFor(rs, b, q, h) == PositionFor(rs', b', q', h)
  {
    SameShown(rs, b, q, rs', b', q', h, q.asOf);
    hide GroupOf, CorrectionLog.Visible, OwnedAt, PlainMark, Shown;
    SameMark(rs, rs', h, q.asOf);
    SameLife(b, q, b', q', h, q.asOf);
  }

  lemma SamePoints(rs: seq<Record>, b: Books, q: Query, rs': seq<Record>, b': Books, q': Query,
                   points: seq<HistoryPoint>)
    requires SeeTheSame(rs, b, q, rs', b', q')
    ensures PointsAre(rs, b, q, points) <==> PointsAre(rs', b', q', points)
  {
    hide SeeTheSame, PointFor, IsPointDate;
    forall d ensures PointFor(rs, b, q, d) == PointFor(rs', b', q', d) { SamePoint(rs, b, q, rs', b', q', d); }
    forall d ensures IsPointDate(rs, b, q, d) <==> IsPointDate(rs', b', q', d) { SameDates(rs, b, q, rs', b', q', d); }
  }

  lemma SamePositions(rs: seq<Record>, b: Books, q: Query, rs': seq<Record>, b': Books, q': Query,
                      positions: seq<PositionView>)
    requires SeeTheSame(rs, b, q, rs', b', q')
    ensures PositionsAre(rs, b, q, positions) <==> PositionsAre(rs', b', q', positions)
  {
    assert b.holdings == b'.holdings;
    hide SeeTheSame, PositionFor;
    forall h ensures PositionFor(rs, b, q, h) == PositionFor(rs', b', q', h) { SamePosition(rs, b, q, rs', b', q', h); }
  }

  /** Books that show the same have the same answer. */
  lemma SameAnswer(rs: seq<Record>, b: Books, q: Query, rs': seq<Record>, b': Books, q': Query, a: Answer)
    requires SeeTheSame(rs, b, q, rs', b', q')
    ensures Answers(rs, b, q, a) <==> Answers(rs', b', q', a)
  {
    assert q'.asOf == q.asOf;
    hide SeeTheSame, PointFor, PointsAre, PositionsAre;
    SamePoints(rs, b, q, rs', b', q', a.points);
    SamePoint(rs, b, q, rs', b', q', q.asOf);
    SamePositions(rs, b, q, rs', b', q', a.positions);
  }

  // --- As-known answers ------------------------------------------------------------------------------------

  lemma ChosenSnoc(b: Books, r: Record)
    ensures Chosen(b.(valuations := b.valuations + [r])) == Chosen(b) + (if r.holdingId in b.holdings then [r] else [])
  {
    FilterSnoc(b.valuations, r, (x: Record) => x.holdingId in b.holdings);
  }

  /** A valuation recorded after the cutoff, correction or not, leaves the whole as-known answer alone. */
  lemma LaterValuationInvisible(b: Books, q: Query, k: int, r: Record, a: Answer)
    requires q.knownAt == Some(k) && (r.recordedAt.Some? ==> r.recordedAt.value > k)
    ensures var b' := b.(valuations := b.valuations + [r]);
            Answers(RowsFor(b', q), b', q, a) <==> Answers(RowsFor(b, q), b, q, a)
  {
    var b' := b.(valuations := b.valuations + [r]);
    ChosenSnoc(b, r);
    assert RowsFor(b', q) == RowsFor(b, q) by {
      hide TimelineRows, Chosen;
      if r.holdingId in b.holdings {
        LaterRecordsInvisible(Chosen(b), b.legacy, k, q.asOf, r);
      } else {
        assert Chosen(b) + [] == Chosen(b);
      }
    }
    hide GroupOf, Chosen, RowsFor;
    SameAnswer(RowsFor(b', q), b', q, RowsFor(b, q), b, q, a);
  }

  /** With a fresh identifier and room for one more, it does not turn an answer into a refusal either. */
  lemma LaterValuationAccepted(b: Books, q: Query, k: int, r: Record)
    requires q.knownAt == Some(k) && (r.recordedAt.Some? ==> r.recordedAt.value > k)
    requires |Chosen(b)| < MAX_OBSERVATIONS && forall x :: x in b.valuations ==> x.id != r.id
    ensures Refusal(b.(valuations := b.valuations + [r]), q) == Refusal(b, q)
  {
    var b' := b.(valuations := b.valuations + [r]);
    ChosenSnoc(b, r);
    hide TimelineRows, AllLineagesEnd;
    if r.holdingId in b.holdings {
      LaterRecordsInvisible(Chosen(b), b.legacy, k, q.asOf, r);
      DistinctRecordsSnoc(Chosen(b), r);
    } else {
      assert Chosen(b) + [] == Chosen(b);
    }
  }

  lemma DistinctRecordsSnoc(rs: seq<Record>, r: Record)
    requires forall x :: x in rs ==> x.id != r.id
    ensures DistinctRecords(rs + [r]) <==> DistinctRecords(rs)
  {
    if DistinctRecords(rs + [r]) {
      forall i, j | 0 <= i < j < |rs| ensures rs[i].id != rs[j].id { assert (rs + [r])[i].id != (rs + [r])[j].id; }
    }
  }

  /** So does a lifecycle declaration recorded after the cutoff. */
  lemma LaterDeclarationInvisible(b: Books, q: Query, k: int, e: Lifecycle.Rec, a: Answer)
    requires q.knownAt == Some(k) && e.recordedAt > k
    ensures var b' := b.(lifecycle := b.lifecycle + [e]);
            && (Answers(RowsFor(b', q), b', q, a) <==> Answers(RowsFor(b, q), b, q, a))
            && Refusal(b', q) == Refusal(b, q)
  {
    var b' := b.(lifecycle := b.lifecycle + [e]);
    CorrectionLog.LaterEntryUnseen(b.lifecycle, e, k);
    hide GroupOf, TimelineRows, CorrectionLog.Visible;
    SameAnswer(RowsFor(b', q), b', q, RowsFor(b, q), b, q, a);
  }

  /** The books as they stood at time `k`, with any unsourced rows. */
  function Restated(b: Books, k: int, legacy: seq<Record>): Books {
    Books(b.holdings, KnownBy(b.valuations, k), legacy, Filter(b.lifecycle, (e: Lifecycle.Rec) => e.recordedAt <= k))
  }

  lemma ChosenRestated(b: Books, k: int, legacy: seq<Record>)
    ensures Chosen(Restated(b, k, legacy)) == KnownBy(Chosen(b), k)
  {
    var p, c := (r: Record) => r.recordedAt.Some? && r.recordedAt.value <= k, (r: Record) => r.holdingId in b.holdings;
    var both := (r: Record) => p(r) && c(r);
    FilterFilter(b.valuations, p, c, both);
    FilterFilter(b.valuations, c, p, both);
  }

  /** The as-known answer at `k` is the answer, without a cutoff, from the books as they stood at `k`. */
  lemma AsKnownAnswerIsRestated(b: Books, q: Query, k: int, legacy: seq<Record>, a: Answer)
    requires q.knownAt == Some(k)
    requires forall r :: r in b.legacy + legacy ==> !IsAccepted(r)
    ensures var b', q' := Restated(b, k, legacy), q.(knownAt := None);
            Answers(RowsFor(b, q), b, q, a) <==> Answers(RowsFor(b', q'), b', q', a)
  {
    var b', q' := Restated(b, k, legacy), q.(knownAt := None);
    SameGroups(b, q, k, legacy);
    CorrectionLog.VisibleIsTruncation(b.lifecycle, k);
    hide GroupOf, RowsFor, CorrectionLog.Visible;
    SameAnswer(RowsFor(b, q), b, q, RowsFor(b', q'), b', q', a);
  }

  /** In particular every point on the chart, at any date, is the restated point. */
  lemma AsKnownPointIsRestated(b: Books, q: Query, k: int, legacy: seq<Record>, date: int)
    requires q.knownAt == Some(k)
    requires forall r :: r in b.legacy + legacy ==> !IsAccepted(r)
    ensures var b', q' := Restated(b, k, legacy), q.(knownAt := None);
            PointFor(RowsFor(b, q), b, q, date) == PointFor(RowsFor(b', q'), b', q', date)
  {
    var b', q' := Restated(b, k, legacy), q.(knownAt := None);
    SameGroups(b, q, k, legacy);
    CorrectionLog.VisibleIsTruncation(b.lifecycle, k);
    hide GroupOf, RowsFor, CorrectionLog.Visible, PointFor;
    SamePoint(RowsFor(b, q), b, q, RowsFor(b', q'), b', q', date);
  }

  lemma SameGroups(b: Books, q: Query, k: int, legacy: seq<Record>)
    requires q.knownAt == Some(k)
    requires forall r :: r in b.legacy + legacy ==> !IsAccepted(r)
    ensures var b', q' := Restated(b, k, legacy), q.(knownAt := None);
            forall h, d :: GroupOf(RowsFor(b, q), h, d) == GroupOf(RowsFor(b', q'), h, d)
  {
    ChosenRestated(b, k, legacy);
    assert (forall r :: r in b.legacy ==> !IsAccepted(r)) && forall r :: r in legacy ==> !IsAccepted(r);
    hide GroupOf, TimelineRows, Chosen, KnownBy;
    forall h, d
      ensures GroupOf(RowsFor(b, q), h, d) == GroupOf(RowsFor(Restated(b, k, legacy), q.(knownAt := None)), h, d)
    {
      AsKnownIsTruncation(Chosen(b), b.legacy, legacy, k, q.asOf, h, d);
    }
  }

  /** Within capacity and with distinct identifiers, one is refused exactly when the other is. */
  lemma AsKnownRefusedAlike(b: Books, q: Query, k: int, legacy: seq<Record>)
    requires q.knownAt == Some(k)
    requires forall r :: r in b.legacy + legacy ==> !IsAccepted(r)
    requires DistinctRecords(Chosen(b)) && |Chosen(b)| <= MAX_OBSERVATIONS
    requires |RowsFor(Restated(b, k, legacy), q.(knownAt := None))| <= MAX_OBSERVATIONS
    ensures Refusal(b, q) == Refusal(Restated(b, k, legacy), q.(knownAt := None))
  {
    var b', q' := Restated(b, k, legacy), q.(knownAt := None);
    assert b'.holdings == b.holdings;
    hide *;
    SameGroups(b, q, k, legacy);
    SameLineages(RowsFor(b, q), RowsFor(b', q'));
    ChosenRestated(b, k, legacy);
    KnownRecords(Chosen(b), k);
    FewerRows(b, q);
    RefusalIs(b, q);
    RefusalIs(b', q');
  }

  lemma SameLineages(rs: seq<Record>, rs': seq<Record>)
    requires forall h, d :: GroupOf(rs, h, d) == GroupOf(rs', h, d)
    ensures AllLineagesEnd(rs) <==> AllLineagesEnd(rs')
  {
    hide GroupOf, LineagesEnd;
  }

  lemma KnownRecords(log: seq<Record>, k: int)
    requires DistinctRecords(log)
    ensures DistinctRecords(KnownBy(log, k)) && |KnownBy(log, k)| <= |log|
  {
    FilterDistinct(log, (r: Record) => r.recordedAt.Some? && r.recordedAt.value <= k);
  }

  lemma FewerRows(b: Books, q: Query)
    ensures q.knownAt.Some? ==> |RowsFor(b, q)| <= |Chosen(b)|
  {
    hide Chosen;
  }

  /** With few enough records and rows, only the dates, the number of holdings or a circular lineage refuse. */
  lemma RefusalIs(b: Books, q: Query)
    requires DistinctRecords(Chosen(b)) && |Chosen(b)| <= MAX_OBSERVATIONS && |RowsFor(b, q)| <= MAX_OBSERVATIONS
    ensures Refusal(b, q) ==
            if q.from.Some? && q.asOf < q.from.value then Some(DateInvalid)
            else if |b.holdings| > MAX_HOLDINGS then Some(Capacity)
            else if AllLineagesEnd(RowsFor(b, q)) then None
            else Some(CircularLineage)
  {
    hide DistinctRecords, Chosen, RowsFor, AllLineagesEnd;
  }
}
