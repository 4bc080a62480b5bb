/**
 What a day and an index point say about the observations (lib/finance.ts,
 `aggregateValuationHistory`, `calculateTimeWeightedReturn`): days add up every selected holding, and
 the index moves as the values do once the day's flows are taken out.
 */
module ReturnsContent {
  import opened Common
  import opened Returns

  // --- Days ---------------------------------------------------------------------------------------

  ghost predicate SeenOn(history: seq<Observation>, h: string, date: int, o: Observation) {
    o in history && o.holdingId == h && o.date == date
  }

  function ValueSeen(ids: set<string>, date: int): Observation -> int {
    (o: Observation) => if o.holdingId in ids && o.date == date then o.cents else 0
  }

  function FlowSeen(ids: set<string>, date: int): Observation -> int {
    (o: Observation) => if o.holdingId in ids && o.date == date then o.flow else 0
  }

  lemma {:induction false} SelectedSum(history: seq<Observation>, ids: set<string>, date: int)
    ensures var rows := OnDate(history, ids, date);
            && SumBy(rows, (r: Observation) => r.cents) == SumBy(history, ValueSeen(ids, date))
            && SumBy(rows, (r: Observation) => r.flow) == SumBy(history, FlowSeen(ids, date))
  {
    OnDaySum(history, ids, date, (r: Observation) => r.cents, ValueSeen(ids, date));
    OnDaySum(history, ids, date, (r: Observation) => r.flow, FlowSeen(ids, date));
    hide OnDate, SumBy;
  }

  lemma {:induction false} OnDaySum(history: seq<Observation>, ids: set<string>, date: int, f: Observation -> int,
                                    g: Observation -> int)
    requires forall o :: g(o) == if o.holdingId in ids && o.date == date then f(o) else 0
    ensures SumBy(OnDate(history, ids, date), f) == SumBy(history, g)
  {
    if |history| > 0 {
      hide *;
      var front, o := history[..|history| - 1], history[|history| - 1];
      OnDaySum(front, ids, date, f, g);
      assert history == front + [o];
      OnDaySnoc(front, o, ids, date, f);
      SumBySnoc(front, o, g);
    }
  }

  lemma OnDaySnoc(front: seq<Observation>, o: Observation, ids: set<string>, date: int, f: Observation -> int)
    ensures SumBy(OnDate(front + [o], ids, date), f) ==
            SumBy(OnDate(front, ids, date), f) + (if o.holdingId in ids && o.date == date then f(o) else 0)
  {
    SumFilterSnoc(front, o, (r: Observation) => r.holdingId in ids && r.date == date, f);
    hide SumBy, Filter;
  }

  function RowIds(rows: seq<Observation>): (r: seq<string>)
    ensures |r| == |rows| && forall i :: 0 <= i < |r| ==> r[i] == rows[i].holdingId
  {
    seq(|rows|, i requires 0 <= i < |rows| => rows[i].holdingId)
  }

  ghost predicate DistinctRows(rows: seq<Observation>) {
    forall i, j :: 0 <= i < j < |rows| ==> rows[i].holdingId != rows[j].holdingId
  }

  ghost predicate DistinctDays(history: seq<Observation>, ids: set<string>) {
    forall i, j :: 0 <= i < j < |history| && history[j].holdingId in ids
                   && history[i].holdingId == history[j].holdingId ==>
                     history[i].date != history[j].date
  }

  lemma {:induction false} RowsDistinct(history: seq<Observation>, ids: set<string>, date: int)
    requires DistinctDays(history, ids)
    ensures DistinctRows(OnDate(history, ids, date))
  {
    var p := (r: Observation) => r.holdingId in ids && r.date == date;
    if |history| > 0 {
      var front, o := history[..|history| - 1], history[|history| - 1];
      RowsDistinct(front, ids, date);
      assert history == front + [o];
      FilterSnoc(front, o, p);
      if p(o) { NewHolding(front, o, ids, date); }
      hide Filter, DistinctDays;
    }
  }

  /** The last observation of a day is of a holding not seen on it before. */
  lemma NewHolding(front: seq<Observation>, o: Observation, ids: set<string>, date: int)
    requires DistinctDays(front + [o], ids) && o.holdingId in ids && o.date == date
    ensures forall r :: r in OnDate(front, ids, date) ==> r.holdingId != o.holdingId
  {
    var history := front + [o];
    forall r | r in OnDate(front, ids, date) ensures r.holdingId != o.holdingId {
      var k: nat :| k < |front| && front[k] == r;
      assert history[k] == r && history[|front|] == o;
    }
  }

  /** Counting rows finds out whether every selected holding was observed. */
  lemma AllObserved(history: seq<Observation>, ids: set<string>, date: int)
    requires NoDuplicates(history, ids)
    ensures |OnDate(history, ids, date)| == |ids| <==>
            forall h :: h in ids ==> exists o :: SeenOn(history, h, date, o)
  {
    var rows := OnDate(history, ids, date);
    assert DistinctDays(history, ids);
    RowsDistinct(history, ids, date);
    var seen := RowIds(rows);
    DistinctByCount(seen);
    assert Distinct(seen);
    assert ToSet(seen) <= ids by {
      forall h | h in ToSet(seen) ensures h in ids {
        var i: nat :| i < |seen| && seen[i] == h;
        assert rows[i] in rows;
      }
    }
    forall h | h in ids ensures h in ToSet(seen) <==> exists o :: SeenOn(history, h, date, o) {
      if o :| SeenOn(history, h, date, o) {
        assert o in rows;
        var i: nat :| i < |rows| && rows[i] == o;
        assert seen[i] == h;
      }
      if h in ToSet(seen) {
        var i: nat :| i < |seen| && seen[i] == h;
        assert rows[i] in rows && SeenOn(history, h, date, rows[i]);
      }
    }
    hide OnDate, SeenOn;
    if |seen| == |ids| { SameSize(ToSet(seen), ids); }
    if forall h :: h in ids ==> h in ToSet(seen) { assert ToSet(seen) == ids; }
  }

  lemma SameSize(a: set<string>, b: set<string>)
    requires a <= b && |a| == |b|
    ensures a == b
  {
    if x :| x in b && x !in a { SubsetCount(a, b - {x}); }
  }

  /**
   A day adds up the selected observations of its date; it is complete exactly when every selected
   holding has one that is usable and covered.
   */
  lemma DayIs(history: seq<Observation>, ids: set<string>, date: int)
    requires NoDuplicates(history, ids)
    ensures var d := DayOf(date, OnDate(history, ids, date), |ids|);
            && d.date == date && d.cents == SumBy(history, ValueSeen(ids, date))
            && d.flow == SumBy(history, FlowSeen(ids, date))
            && (d.complete <==>
                  && (forall h :: h in ids ==> exists o :: SeenOn(history, h, date, o))
                  && forall h, o :: h in ids && SeenOn(history, h, date, o) ==> o.cents >= 0 && o.flowCovered)
  {
    SelectedSum(history, ids, date);
    AllObserved(history, ids, date);
    var rows := OnDate(history, ids, date);
    assert forall o :: o in rows <==> o.holdingId in ids && SeenOn(history, o.holdingId, date, o);
    hide SumBy, OnDate, NoDuplicates;
  }

  // --- The index ----------------------------------------------------------------------------------

  /** The return of a period is what its capital became, without the money that came at its end. */
  lemma GrowthIs(p: Period)
    ensures Defined(p) <==> p.startCents + p.startFlow > 0 && p.endFlow <= p.endCents
    ensures Defined(p) ==> Times(Growth(p), (p.startCents + p.startFlow) as real) == (p.endCents - p.endFlow) as real
  {
  }

  /** From one complete day to the next the index moves as the value without the day's flow. */
  lemma IndexMoves(days: seq<Day>, i: nat)
    requires 0 < i < |days| && IndexAt(days, i).Some?
    ensures IndexAt(days, i - 1).Some? && days[i].date == days[i - 1].date + 1 && days[i - 1].cents > 0
    ensures Times(IndexAt(days, i).value, days[i - 1].cents as real) ==
            Times(IndexAt(days, i - 1).value, (days[i].cents - days[i].flow) as real)
  {
    var p := DayPeriod(days[i - 1], days[i]);
    GrowthIs(p);
    var x, g, c := IndexAt(days, i - 1).value, Growth(p), days[i - 1].cents as real;
    hide Growth, IndexAt;
    CompoundIs(days, i);
    hide Compound;
    Associates(x, g, c);
  }

  lemma CompoundIs(days: seq<Day>, i: nat)
    requires 0 < i < |days| && IndexAt(days, i).Some?
    ensures IndexAt(days, i - 1).Some? && Links(days[i - 1], days[i])
    ensures IndexAt(days, i).value == Times(IndexAt(days, i - 1).value, Growth(DayPeriod(days[i - 1], days[i])))
  {
    hide Growth;
    var x, g := IndexAt(days, i - 1).value, Growth(DayPeriod(days[i - 1], days[i]));
    assert 1.0 + (g - 1.0) == g;
  }

  lemma Associates(x: real, g: real, c: real)
    ensures Times(Times(x, g), c) == Times(x, Times(g, c))
  {
    assert (x * g) * c == x * (g * c);
  }

  /** The index starts at one hundred. */
  lemma IndexStarts(days: seq<Day>)
    requires |days| > 0
    ensures IndexAt(days, 0) == (if days[0].complete then Some(100.0) else None)
  {
  }

  /** Over days without flows the index moves exactly as the value. */
  lemma {:induction false} IndexFollowsValue(days: seq<Day>, i: nat, j: nat)
    requires i <= j < |days| && IndexAt(days, i).Some? && IndexAt(days, j).Some?
    requires forall k :: i < k <= j ==> days[k].flow == 0
    ensures Times(IndexAt(days, j).value, days[i].cents as real) ==
            Times(IndexAt(days, i).value, days[j].cents as real)
  {
    hide IndexAt, Times;
    if i < j {
      IndexMoves(days, j);
      IndexFollowsValue(days, i, j - 1);
      CrossRatios(IndexAt(days, j).value, IndexAt(days, j - 1).value, IndexAt(days, i).value, days[j].cents as real,
                  days[j - 1].cents as real, days[i].cents as real);
    }
  }

  lemma CrossRatios(z: real, y: real, x: real, c: real, b: real, a: real)
    requires b > 0.0 && Times(z, b) == Times(y, c) && Times(y, a) == Times(x, b)
    ensures Times(z, a) == Times(x, c)
  {
    assert (z * a) * b == (z * b) * a == (y * c) * a == (y * a) * c == (x * b) * c == (x * c) * b;
    SameFactor(z * a, x * c, b);
  }

  lemma SameFactor(p: real, q: real, b: real)
    requires b > 0.0 && p * b == q * b
    ensures p == q
  {
    assert (p - q) * b == 0.0;
  }
}
