/**
 Time-weighted returns and the daily return index (lib/finance.ts).  Values and flows
 are in cents; ratios are exact.
 */
module Returns {
  import opened Common
  import opened Grouping
  import opened Ordering

  datatype Period = Period(startCents: int, endCents: int, startFlow: int, endFlow: int)

  datatype Observation = Observation(holdingId: string, date: int, cents: int, flow: int, flowCovered: bool)

  datatype Day = Day(date: int, cents: int, flow: int, complete: bool)

  datatype Point = Point(date: int, cents: int, flow: int, index: Option<real>, complete: bool)

  datatype HistoryError = DuplicateObservation

  // --- Linking periods -----------------------------------------------------------

  predicate Defined(p: Period) { p.startCents + p.startFlow > 0 && p.endCents - p.endFlow >= 0 }

  function Growth(p: Period): real
    requires Defined(p)
  {
    (p.endCents - p.endFlow) as real / (p.startCents + p.startFlow) as real
  }

  function Times(a: real, b: real): real { a * b }

  /** Product of the growth factors; none when any period is undefined. */
  function Linked(periods: seq<Period>): Option<real> {
    if |periods| == 0 then Some(1.0)
    else
      var front, last := Linked(periods[..|periods| - 1]), periods[|periods| - 1];
      if front.None? || !Defined(last) then None else Some(Times(front.value, Growth(last)))
  }

  function TimeWeightedReturn(periods: seq<Period>): Option<real> {
    if |periods| == 0 || Linked(periods).None? then None else Some(Linked(periods).value - 1.0)
  }

  method CalculateTimeWeightedReturn(periods: seq<Period>) returns (r: Option<real>)
    ensures r == TimeWeightedReturn(periods)
  {
    hide Times, Growth;
    if |periods| == 0 { return None; }
    var linked := 1.0;
    var i := 0;
    while i < |periods|
      invariant 0 <= i <= |periods|
      invariant Linked(periods[..i]) == Some(linked)
    {
      var p := periods[i];
      assert periods[..i + 1] == periods[..i] + [p];
      LinkedSnoc(periods[..i], p);
      if !Defined(p) {
        UndefinedPrefix(periods, i + 1);
        return None;
      }
      linked := Times(linked, Growth(p));
      i := i + 1;
    }
    assert periods[..i] == periods;
    return Some(linked - 1.0);
  }

  lemma LinkedSnoc(periods: seq<Period>, p: Period)
    ensures Linked(periods + [p]) ==
            if Linked(periods).None? || !Defined(p) then None else Some(Times(Linked(periods).value, Growth(p)))
  {
    hide Times, Growth;
    assert (periods + [p])[..|periods|] == periods;
    assert (periods + [p])[|periods|] == p;
  }

  lemma {:induction false} UndefinedPrefix(periods: seq<Period>, i: nat)
    requires i <= |periods| && Linked(periods[..i]).None?
    ensures Linked(periods).None?
    decreases |periods|
  {
    if i == |periods| {
      assert periods[..i] == periods;
    } else {
      var front := periods[..|periods| - 1];
      assert front[..i] == periods[..i];
      UndefinedPrefix(front, i);
    }
  }

  // --- The daily index --------------------------------------------------------------

  function DayPeriod(previous: Day, day: Day): Period { Period(previous.cents, day.cents, 0, day.flow) }

  /** Days that can be linked: consecutive, both complete, with a defined return. */
  predicate Links(previous: Day, day: Day) {
    day.date == previous.date + 1 && previous.complete && day.complete && Defined(DayPeriod(previous, day))
  }

  /** The index after the days up to `i`, as the loop computes it. */
  function IndexAt(days: seq<Day>, i: nat): Option<real>
    requires i < |days|
  {
    if !days[i].complete then None
    else if i == 0 then Some(100.0)
    else
      match IndexAt(days, i - 1)
      case None => None
      case Some(x) =>
        if !Links(days[i - 1], days[i]) then None
        else Some(Compound(x, Growth(DayPeriod(days[i - 1], days[i])) - 1.0))
  }

  function Compound(x: real, result: real): real { x * (1.0 + result) }

  method IndexPoints(days: seq<Day>) returns (points: seq<Point>)
    ensures |points| == |days|
    ensures forall i :: 0 <= i < |days| ==>
              points[i] == Point(days[i].date, days[i].cents, days[i].flow, IndexAt(days, i), days[i].complete)
  {
    hide IndexAt;
    points := [];
    var index := Some(100.0);
    var i := 0;
    while i < |days|
      invariant 0 <= i <= |days| && |points| == i
      invariant index == if i == 0 then Some(100.0) else IndexAt(days, i - 1)
      invariant forall j :: 0 <= j < i ==>
                  points[j] == Point(days[j].date, days[j].cents, days[j].flow, IndexAt(days, j), days[j].complete)
    {
      index := NextIndex(days, i, points, index);
      points := points + [Point(days[i].date, days[i].cents, days[i].flow, index, days[i].complete)];
      i := i + 1;
    }
  }

  /** The body of the loop: the index after day `i`. */
  method NextIndex(days: seq<Day>, i: nat, points: seq<Point>, index: Option<real>) returns (next: Option<real>)
    requires i < |days| && |points| == i
    requires index == if i == 0 then Some(100.0) else IndexAt(days, i - 1)
    requires forall j :: 0 <= j < i ==>
               points[j] == Point(days[j].date, days[j].cents, days[j].flow, IndexAt(days, j), days[j].complete)
    ensures next == IndexAt(days, i)
  {
    hide Compound, Growth, TimeWeightedReturn;
    var day := days[i];
    if !day.complete { return None; }
    if |points| == 0 || index.None? { return index; }
    var previous := points[|points| - 1];
    if day.date - previous.date != 1 || !previous.complete { return None; }
    var period := Period(previous.cents, day.cents, 0, day.flow);
    var result := CalculateTimeWeightedReturn([period]);
    SinglePeriod(period);
    next := if result.None? then None else Some(Compound(index.value, result.value));
  }

  lemma SinglePeriod(p: Period)
    ensures TimeWeightedReturn([p]) == if Defined(p) then Some(Growth(p) - 1.0) else None
  {
    LinkedSnoc([], p);
    assert [] + [p] == [p];
    if Defined(p) { TimesOne(Growth(p)); }
  }

  /** The index lives exactly as long as every day so far is complete and links to the one before. */
  lemma {:induction false} IndexLivesWhileLinked(days: seq<Day>, i: nat)
    requires i < |days|
    ensures IndexAt(days, i).Some? <==> days[0].complete && forall k :: 0 < k <= i ==> Links(days[k - 1], days[k])
  {
    if i > 0 { IndexLivesWhileLinked(days, i - 1); }
  }

  /** Once null, always null. */
  lemma {:induction false} IndexStaysNull(days: seq<Day>, i: nat, j: nat)
    requires i <= j < |days| && IndexAt(days, i).None?
    ensures IndexAt(days, j).None?
  {
    IndexLivesWhileLinked(days, i);
    IndexLivesWhileLinked(days, j);
  }

  function PeriodsBetween(days: seq<Day>, i: nat, j: nat): (r: seq<Period>)
    requires i <= j < |days|
    ensures |r| == j - i
    ensures forall k :: 0 <= k < j - i ==> r[k] == DayPeriod(days[i + k], days[i + k + 1])
  {
    seq(j - i, k requires 0 <= k < j - i => DayPeriod(days[i + k], days[i + k + 1]))
  }

  lemma {:induction false} IndexIsLinkedGrowth(days: seq<Day>, i: nat, j: nat)
    requires i <= j < |days| && IndexAt(days, i).Some? && IndexAt(days, j).Some?
    ensures Linked(PeriodsBetween(days, i, j)).Some?
    ensures IndexAt(days, j).value == Times(IndexAt(days, i).value, Linked(PeriodsBetween(days, i, j)).value)
  {
    hide Growth, Compound, Times;
    TimesOne(IndexAt(days, i).value);
    if i < j {
      IndexIsLinkedGrowth(days, i, j - 1);
      var front, last := PeriodsBetween(days, i, j - 1), DayPeriod(days[j - 1], days[j]);
      assert PeriodsBetween(days, i, j) == front + [last];
      LinkedSnoc(front, last);
      CompoundLinked(IndexAt(days, i).value, Linked(front).value, Growth(last));
    } else {
      assert PeriodsBetween(days, i, j) == [];
    }
  }

  lemma CompoundLinked(a: real, l: real, g: real)
    ensures Compound(Times(a, l), g - 1.0) == Times(a, Times(l, g))
  {
    assert Compound(a * l, g - 1.0) == (a * l) * g;
  }

  lemma Quotient(a: real, l: real)
    requires a > 0.0
    ensures Times(a, l) / a == l
  {
  }

  lemma TimesOne(a: real)
    ensures Times(1.0, a) == a && Times(a, 1.0) == a
  {
  }

  // --- Returns read off the index -----------------------------------------------------

  ghost predicate PointsOf(days: seq<Day>, points: seq<Point>) {
    && |points| == |days|
    && (forall i :: 0 <= i < |days| ==>
          points[i] == Point(days[i].date, days[i].cents, days[i].flow, IndexAt(days, i), days[i].complete))
    && (forall i, j :: 0 <= i < j < |days| ==> days[i].date < days[j].date)
  }

  /** `points.find(p => p.date === date)` */
  function FindPoint(points: seq<Point>, date: int): (r: Option<Point>)
    ensures r.Some? ==> r.value in points && r.value.date == date
    ensures r.None? ==> forall p :: p in points ==> p.date != date
  {
    if |points| == 0 then None
    else if points[0].date == date then Some(points[0])
    else FindPoint(points[1..], date)
  }

  function IndexReturn(points: seq<Point>, from: int, to: int): Option<real> {
    var first, last := FindPoint(points, from), FindPoint(points, to);
    if first.None? || last.None? || first.value.index.None? || last.value.index.None? || first.value.index.value <= 0.0
    then None
    else Some(last.value.index.value / first.value.index.value - 1.0)
  }

  lemma FoundPoint(days: seq<Day>, points: seq<Point>, i: nat)
    requires PointsOf(days, points) && i < |points|
    ensures FindPoint(points, points[i].date) == Some(points[i])
  {
    assert points[i] in points;
    var r := FindPoint(points, points[i].date);
    var j :| 0 <= j < |points| && points[j] == r.value;
    assert points[j].date == days[j].date && points[i].date == days[i].date;
  }

  /** The index return is the time-weighted return over exactly the days between. */
  lemma IndexReturnIsTimeWeighted(days: seq<Day>, points: seq<Point>, i: nat, j: nat)
    requires PointsOf(days, points) && i < j < |days|
    requires IndexAt(days, i).Some? && IndexAt(days, i).value > 0.0 && IndexAt(days, j).Some?
    ensures IndexReturn(points, days[i].date, days[j].date) == TimeWeightedReturn(PeriodsBetween(days, i, j))
    ensures IndexReturn(points, days[i].date, days[j].date).Some?
  {
    hide Linked, IndexAt, Times;
    IndexIsLinkedGrowth(days, i, j);
    FoundPoint(days, points, i);
    FoundPoint(days, points, j);
    Quotient(IndexAt(days, i).value, Linked(PeriodsBetween(days, i, j)).value);
  }

  // --- Sampling by month ----------------------------------------------------------------

  function FlowOf(p: Point): int { p.flow }

  function MonthRow(members: seq<Point>): Point
    requires |members| > 0
  {
    members[|members| - 1].(flow := SumBy(members, FlowOf))
  }

  function MonthOfPoint(month: int -> int): Point -> int { (p: Point) => month(p.date) }

  /** The last point of its month, and the month's whole flow. */
  ghost predicate SamplesMonth(points: seq<Point>, month: int -> int, r: Point, k: nat) {
    && k < |points| && r == points[k].(flow := r.flow)
    && (forall j :: k < j < |points| ==> month(points[j].date) != month(r.date))
    && r.flow == GroupTotal(points, MonthOfPoint(month), FlowOf, month(r.date))
  }

  /** Each month with a point keeps one row: its last daily point, with the month's flows added up. */
  method MonthlyPoints(points: seq<Point>, month: int -> int) returns (rows: seq<Point>)
    ensures forall i, j :: 0 <= i < j < |rows| ==> month(rows[i].date) != month(rows[j].date)
    ensures forall p :: p in points ==> exists r :: r in rows && month(r.date) == month(p.date)
    ensures forall r :: r in rows ==> exists k :: SamplesMonth(points, month, r, k)
    ensures SumBy(rows, FlowOf) == SumBy(points, FlowOf)
  {
    hide Members, SamplesMonth, MonthRow;
    var key := MonthOfPoint(month);
    var keys, table := GroupBy(points, key);
    rows := [];
    var i := 0;
    while i < |keys|
      invariant 0 <= i <= |keys| && |rows| == i
      invariant forall j :: 0 <= j < i ==> MonthIs(points, month, keys[j], rows[j])
    {
      assert keys[i] in keys;
      LastOfMonth(points, month, keys[i]);
      rows := rows + [MonthRow(table[keys[i]])];
      i := i + 1;
    }
    GroupedCovers(points, key, keys, table);
    TotalsOfRows(rows, FlowOf, points, key, FlowOf, keys);
    GroupsPartition(points, key, FlowOf, keys);
    forall p | p in points ensures exists r :: r in rows && month(r.date) == month(p.date) {
      var j :| 0 <= j < |keys| && keys[j] == key(p);
      assert rows[j] in rows && MonthIs(points, month, keys[j], rows[j]);
    }
  }

  /** The row of one month. */
  ghost predicate MonthIs(points: seq<Point>, month: int -> int, m: int, r: Point) {
    && month(r.date) == m && r.flow == GroupTotal(points, MonthOfPoint(month), FlowOf, m)
    && exists k :: SamplesMonth(points, month, r, k)
  }

  lemma LastOfMonth(points: seq<Point>, month: int -> int, m: int)
    requires Members(points, MonthOfPoint(month), m) != []
    ensures MonthIs(points, month, m, MonthRow(Members(points, MonthOfPoint(month), m)))
  {
    var members := Members(points, MonthOfPoint(month), m);
    var r := MonthRow(members);
    var k := LastMember(points, MonthOfPoint(month), m);
    assert SamplesMonth(points, month, r, k);
  }

  /** The last member of a group is the last element with its key. */
  lemma {:induction false} LastMember(points: seq<Point>, key: Point -> int, m: int) returns (k: nat)
    requires Members(points, key, m) != []
    ensures var members := Members(points, key, m);
            k < |points| && key(points[k]) == m && points[k] == members[|members| - 1]
    ensures forall j :: k < j < |points| ==> key(points[j]) != m
  {
    var n := |points| - 1;
    if key(points[n]) == m { k := n; } else { k := LastMember(points[..n], key, m); }
  }

  // --- From observations to days -----------------------------------------------------------

  /** A day is complete when every selected holding has a usable, covered observation. */
  function DayOf(date: int, rows: seq<Observation>, selected: nat): Day {
    Day(date, SumBy(rows, (r: Observation) => r.cents), SumBy(rows, (r: Observation) => r.flow),
        |rows| == selected && forall r :: r in rows ==> r.cents >= 0 && r.flowCovered)
  }

  function OnDate(history: seq<Observation>, ids: set<string>, date: int): seq<Observation> {
    Filter(history, (r: Observation) => r.holdingId in ids && r.date == date)
  }

  ghost predicate NoDuplicates(history: seq<Observation>, ids: set<string>) {
    forall i, j :: 0 <= i < j < |history| && history[i].holdingId in ids ==>
      history[i].holdingId != history[j].holdingId || history[i].date != history[j].date
  }

  ghost predicate ObservedOn(history: seq<Observation>, ids: set<string>, date: int) {
    exists o :: o in history && o.holdingId in ids && o.date == date
  }

  lemma ObservedSnoc(history: seq<Observation>, o: Observation, ids: set<string>)
    ensures forall d :: ObservedOn(history + [o], ids, d) <==>
                        ObservedOn(history, ids, d) || (o.holdingId in ids && o.date == d)
  {
    assert o in history + [o];
  }

  ghost function SeenIn(history: seq<Observation>, ids: set<string>): set<(string, int)> {
    set o | o in history && o.holdingId in ids :: (o.holdingId, o.date)
  }

  lemma NoDuplicatesSnoc(history: seq<Observation>, o: Observation, ids: set<string>)
    ensures NoDuplicates(history + [o], ids) <==>
            NoDuplicates(history, ids) && !(o.holdingId in ids && (o.holdingId, o.date) in SeenIn(history, ids))
    ensures SeenIn(history + [o], ids) ==
            SeenIn(history, ids) + (if o.holdingId in ids then {(o.holdingId, o.date)} else {})
  {
    var all := history + [o];
    if NoDuplicates(all, ids) {
      forall i, j | 0 <= i < j < |history| && history[i].holdingId in ids
        ensures history[i].holdingId != history[j].holdingId || history[i].date != history[j].date
      {
        assert all[i] == history[i] && all[j] == history[j];
      }
      forall x | x in history && x.holdingId in ids ensures (x.holdingId, x.date) != (o.holdingId, o.date) {
        var i: nat :| i < |history| && history[i] == x;
        assert all[i] == x && all[|history|] == o;
      }
    }
    if NoDuplicates(history, ids) && !(o.holdingId in ids && (o.holdingId, o.date) in SeenIn(history, ids)) {
      forall i, j | 0 <= i < j < |all| && all[i].holdingId in ids
        ensures all[i].holdingId != all[j].holdingId || all[i].date != all[j].date
      {
        if j == |history| { assert history[i] in history; }
      }
    }
  }

  lemma {:induction false} DuplicateStays(history: seq<Observation>, ids: set<string>, i: nat)
    requires i <= |history| && !NoDuplicates(history[..i], ids)
    ensures !NoDuplicates(history, ids)
  {
    assert forall k :: 0 <= k < i ==> history[..i][k] == history[k];
  }

  /** The dates of the selected observations, in order, unless one is repeated. */
  method ObservedDates(history: seq<Observation>, ids: set<string>) returns (dates: Option<seq<int>>)
    ensures dates.Some? <==> NoDuplicates(history, ids)
    ensures dates.Some? ==>
              && (forall j, k :: 0 <= j < k < |dates.value| ==> dates.value[j] < dates.value[k])
              && forall d :: d in dates.value <==> ObservedOn(history, ids, d)
  {
    var seen: set<(string, int)> := {};
    var ds: seq<int> := [];
    var i := 0;
    assert history[..0] == [];
    hide NoDuplicates, ObservedOn, SeenIn;
    NothingObserved(ids);
    while i < |history|
      invariant 0 <= i <= |history|
      invariant seen == SeenIn(history[..i], ids) && NoDuplicates(history[..i], ids)
      invariant forall j, k :: 0 <= j < k < |ds| ==> ds[j] < ds[k]
      invariant forall d :: d in ds <==> ObservedOn(history[..i], ids, d)
    {
      var row := history[i];
      assert history[..i + 1] == history[..i] + [row];
      NoDuplicatesSnoc(history[..i], row, ids);
      ObservedSnoc(history[..i], row, ids);
      if row.holdingId in ids {
        if (row.holdingId, row.date) in seen {
          DuplicateStays(history, ids, i + 1);
          return None;
        }
        seen := seen + {(row.holdingId, row.date)};
        ds := InsertDate(ds, row.date);
      }
      i := i + 1;
    }
    assert history[..i] == history;
    return Some(ds);
  }

  lemma NothingObserved(ids: set<string>)
    ensures SeenIn([], ids) == {} && NoDuplicates([], ids) && forall d :: !ObservedOn([], ids, d)
  {
  }

  /** `aggregateValuationHistory(history, ids, 'daily')`: one day for each date observed, and no other. */
  method AggregateDaily(history: seq<Observation>, ids: set<string>)
    returns (r: Result<seq<Point>, HistoryError>, ghost days: seq<Day>)
    ensures ids != {} ==> (r.Ok? <==> NoDuplicates(history, ids))
    ensures r.Ok? ==> PointsOf(days, r.value)
    ensures r.Ok? ==> forall i, j :: 0 <= i < j < |days| ==> days[i].date < days[j].date
    ensures r.Ok? ==> forall i :: 0 <= i < |days| ==> ObservedOn(history, ids, days[i].date)
    ensures r.Ok? ==> forall d :: ObservedOn(history, ids, d) ==> exists i :: 0 <= i < |days| && days[i].date == d
    ensures r.Ok? && ids != {} ==>
              forall i :: 0 <= i < |days| ==> days[i] == DayOf(days[i].date, OnDate(history, ids, days[i].date), |ids|)
  {
    days := [];
    if ids == {} { return Ok([]), []; }
    var dates := ObservedDates(history, ids);
    if dates.None? { return Err(DuplicateObservation), []; }
    hide NoDuplicates, ObservedOn, DayOf, OnDate;
    var list := DayList(history, ids, dates.value);
    days := list;
    assert forall i :: 0 <= i < |list| ==> dates.value[i] in dates.value;
    forall d | ObservedOn(history, ids, d) ensures exists i :: 0 <= i < |list| && list[i].date == d {
      var i :| 0 <= i < |dates.value| && dates.value[i] == d;
      assert list[i].date == d;
    }
    var points := IndexPoints(list);
    return Ok(points), days;
  }

  function DayList(history: seq<Observation>, ids: set<string>, dates: seq<int>): (r: seq<Day>)
    ensures |r| == |dates|
    ensures forall i :: 0 <= i < |r| ==> r[i].date == dates[i]
    ensures forall i :: 0 <= i < |r| ==> r[i] == DayOf(dates[i], OnDate(history, ids, dates[i]), |ids|)
  {
    seq(|dates|, i requires 0 <= i < |dates| => DayOf(dates[i], OnDate(history, ids, dates[i]), |ids|))
  }
}
