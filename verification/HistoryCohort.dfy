/**
 Which positions a point of the history counts (lib/portfolio-history.ts, `ownedAt` and `point`;
 lib/portfolio-history-lifecycle.ts, `lifecycleFromRecords`), from the lifecycle records in force as
 known, whatever log they stand in.
 */
module HistoryCohort {
  import opened Common
  import opened Ordering
  import opened CorrectionLog
  import opened History
  import opened HistoryProjection
  import opened HistoryPoints
  import Lifecycle

  ghost predicate Seen(cutoff: Option<int>, e: Lifecycle.Rec) { cutoff.Some? ==> e.recordedAt <= cutoff.value }

  /** Recorded by the cutoff for this position, and not corrected by then. */
  ghost predicate Stands(log: seq<Lifecycle.Rec>, cutoff: Option<int>, h: string, e: Lifecycle.Rec) {
    && e in log && Seen(cutoff, e) && e.holdingId == h
    && forall c :: c in log && Seen(cutoff, c) ==> c.correctionOf != Some(e.id)
  }

  lemma PeriodIs(log: seq<Lifecycle.Rec>, h: string, cutoff: Option<int>)
    ensures forall e :: e in Lifecycle.Period(log, h, cutoff) <==> Stands(log, cutoff, h, e)
    ensures Sorted(Lifecycle.Period(log, h, cutoff), Before)
  {
    var visible := CorrectionLog.Visible(log, cutoff);
    forall e
      ensures e in Active(visible) <==> e in visible && forall c :: c in visible ==> c.correctionOf != Some(e.id)
    {
      assert e.id in Replaced(visible) <==> exists c :: c in visible && c.correctionOf == Some(e.id);
    }
    hide Active;
    BeforeIsOrder<Lifecycle.Declaration>();
    SortIsSorted(Active(visible), Before);
    FilterSorted(Sort(Active(visible), Before), Before, (e: Lifecycle.Rec) => e.holdingId == h);
  }

  /** The first of a kind in effective order is the earliest. */
  lemma {:induction false} FirstIsEarliest(es: seq<Lifecycle.Rec>, k: Lifecycle.Kind)
    requires Sorted(es, Before) && Lifecycle.First(es, k).Some?
    ensures forall e :: e in es && e.body.kind == k ==> Lifecycle.First(es, k).value.date <= e.date
  {
    if es[0].body.kind == k {
      HeadIsEarliest(es);
    } else {
      TailSorted(es);
      hide Sorted;
      FirstIsEarliest(es[1..], k);
      assert es == [es[0]] + es[1..];
    }
  }

  lemma HeadIsEarliest(es: seq<Lifecycle.Rec>)
    requires Sorted(es, Before) && es != []
    ensures forall e :: e in es ==> es[0].date <= e.date
  {
    forall e | e in es ensures es[0].date <= e.date {
      var i: nat :| i < |es| && es[i] == e;
      if i > 0 { assert !Before(es[i], es[0]); }
    }
  }

  lemma TailSorted(es: seq<Lifecycle.Rec>)
    requires Sorted(es, Before) && es != []
    ensures Sorted(es[1..], Before)
  {
    var rest := es[1..];
    forall i, j | 0 <= i < j < |rest| ensures !Before(rest[j], rest[i]) { assert !Before(es[j + 1], es[i + 1]); }
  }

  /** No exit by the day, and an acquisition by then unless none is recorded. */
  ghost predicate IsHeld(log: seq<Lifecycle.Rec>, cutoff: Option<int>, h: string, day: int) {
    && (forall c :: Stands(log, cutoff, h, c) && c.body.kind == Lifecycle.Closed ==> day < c.date)
    && ((exists o :: Stands(log, cutoff, h, o) && o.body.kind == Lifecycle.Opened && o.date <= day)
        || forall o :: Stands(log, cutoff, h, o) ==> o.body.kind != Lifecycle.Opened)
  }

  lemma OwnershipIs(es: seq<Lifecycle.Rec>, day: int)
    requires Sorted(es, Before)
    ensures Lifecycle.OwnershipAt(es, day) in {Lifecycle.Owned, Lifecycle.Unknown} <==>
            && (forall c :: c in es && c.body.kind == Lifecycle.Closed ==> day < c.date)
            && ((exists o :: o in es && o.body.kind == Lifecycle.Opened && o.date <= day)
                || forall o :: o in es ==> o.body.kind != Lifecycle.Opened)
  {
    var opening, closing := Lifecycle.First(es, Lifecycle.Opened), Lifecycle.First(es, Lifecycle.Closed);
    if opening.Some? { FirstIsEarliest(es, Lifecycle.Opened); }
    if closing.Some? { FirstIsEarliest(es, Lifecycle.Closed); }
    hide Sorted;
  }

  /** The day that decides: the point's own, or today. */
  function DecidingDay(q: Query, date: int): int { if q.basis == Historical then date else q.today }

  lemma OwnedStatus(life: seq<Lifecycle.Rec>, q: Query, h: string, date: int)
    ensures OwnedAt(life, q, h, date) <==>
            Lifecycle.OwnershipAt(Lifecycle.Period(life, h, q.knownAt), DecidingDay(q, date))
            in {Lifecycle.Owned, Lifecycle.Unknown}
  {
    hide Lifecycle.Period, Lifecycle.OwnershipAt;
    var status := Lifecycle.OwnershipAt(Lifecycle.Period(life, h, q.knownAt), DecidingDay(q, date));
    assert status.Owned? || status.Unknown? || status.NotYetOpened? || status.Ended?;
  }

  lemma OwnedIsHeld(life: seq<Lifecycle.Rec>, q: Query, h: string, date: int)
    ensures OwnedAt(life, q, h, date) <==> IsHeld(life, q.knownAt, h, DecidingDay(q, date))
  {
    PeriodIs(life, h, q.knownAt);
    OwnershipIs(Lifecycle.Period(life, h, q.knownAt), DecidingDay(q, date));
    OwnedStatus(life, q, h, date);
    hide Lifecycle.Period, Lifecycle.OwnershipAt, Sorted, Stands, OwnedAt, Before;
  }

  /** A point counts exactly the selected positions that are held on the day that decides. */
  lemma CohortIs(b: Books, q: Query, date: int)
    ensures forall h :: h in Cohort(b, q, date) <==>
                        h in b.holdings && IsHeld(b.lifecycle, q.knownAt, h, DecidingDay(q, date))
    ensures Cohort(b, q, date) == Filter(b.holdings, HeldOn(b.lifecycle, q, date))
  {
    hide OwnedAt, IsHeld;
    forall h ensures OwnedAt(b.lifecycle, q, h, date) <==> IsHeld(b.lifecycle, q.knownAt, h, DecidingDay(q, date)) {
      OwnedIsHeld(b.lifecycle, q, h, date);
    }
  }

  /** A position without records is kept. */
  lemma UnrecordedIsKept(b: Books, q: Query, date: int, h: string)
    requires h in b.holdings && forall e :: !Stands(b.lifecycle, q.knownAt, h, e)
    ensures h in Cohort(b, q, date)
  {
    CohortIs(b, q, date);
    hide Stands, Cohort;
  }

  /** In a history that the commands can reach, that is: no exit by the day, and no later acquisition. */
  lemma HeldInOnePeriod(s: Lifecycle.State, h: string, day: int)
    requires Lifecycle.StateOk(s)
    ensures IsHeld(s.records, None, h, day) <==>
            && (forall c :: Stands(s.records, None, h, c) && c.body.kind == Lifecycle.Closed ==> day < c.date)
            && (forall o :: Stands(s.records, None, h, o) && o.body.kind == Lifecycle.Opened ==> o.date <= day)
  {
    assert Lifecycle.OnePeriod(Lifecycle.Current(s.records, h));
    assert Lifecycle.Current(s.records, h) == Lifecycle.Period(s.records, h, None);
    PeriodIs(s.records, h, None);
    hide Lifecycle.StateOk, Lifecycle.Period, Lifecycle.Current, Stands, Sorted;
    var es := Lifecycle.Period(s.records, h, None);
    forall o, p | o in es && p in es && o.body.kind == p.body.kind == Lifecycle.Opened ensures o == p {
      assert Lifecycle.SameEvent(o, p);
    }
  }

  /** Once every selected position has ended, a point counts nothing and shows no amount. */
  lemma NothingAfterTheEnd(rs: seq<Record>, b: Books, q: Query, date: int)
    requires forall h :: h in b.holdings ==>
               exists c :: Stands(b.lifecycle, q.knownAt, h, c) && c.body.kind == Lifecycle.Closed
                           && c.date <= DecidingDay(q, date)
    ensures Cohort(b, q, date) == []
    ensures var p := PointFor(rs, b, q, date);
            && p.coverage == Coverage(0, 0, 0, false, 0, 0) && p.amount.None? && p.knownAmount.None? && p.dated == []
  {
    hide Stands, OwnedAt;
    forall h | h in b.holdings ensures !HeldOn(b.lifecycle, q, date)(h) { OwnedIsHeld(b.lifecycle, q, h, date); }
    FilterNone(b.holdings, HeldOn(b.lifecycle, q, date));
    TallyNone(date, q.currency);
  }

  // --- What a point adds up ------------------------------------------------------------------------

  /** The cents a mark is worth in a currency: its own amount, or in EUR a value that its record supports. */
  function Worth(r: Record, currency: string): Option<int> {
    if currency != "EUR" then if r.currency == currency then r.native else None
    else if r.currency != "EUR" then if r.hasFx then r.retainedEUR else None
    else if r.native == r.retainedEUR then r.native
    else None
  }

  /** The mark the plain rule gives a position, in the source currency asked for. */
  ghost function MarkFor(rs: seq<Record>, q: Query, date: int, h: string): Option<Record> {
    var m := MarkOf(rs, h, date);
    if m.Some? && (q.sourceCurrency.Some? ==> m.value.currency == q.sourceCurrency.value) then m else None
  }

  ghost predicate IsKnown(rs: seq<Record>, q: Query, date: int, h: string) {
    MarkFor(rs, q, date, h).Some? && Worth(MarkFor(rs, q, date, h).value, q.currency).Some?
  }

  ghost function Valued(rs: seq<Record>, q: Query, date: int): string -> bool { (h: string) => IsKnown(rs, q, date, h) }

  ghost function Earlier(rs: seq<Record>, q: Query, date: int): string -> bool {
    (h: string) => IsKnown(rs, q, date, h) && MarkFor(rs, q, date, h).value.date < date
  }

  ghost function WithoutWorth(rs: seq<Record>, q: Query, date: int): string -> bool {
    (h: string) => MarkFor(rs, q, date, h).Some? && !IsKnown(rs, q, date, h)
  }

  ghost function CentsFor(rs: seq<Record>, q: Query, date: int): string -> int {
    (h: string) => if IsKnown(rs, q, date, h) then Worth(MarkFor(rs, q, date, h).value, q.currency).value else 0
  }

  /** The marks counted on the very day, in the order of the positions. */
  ghost function Fresh(rs: seq<Record>, q: Query, date: int, hs: seq<string>): seq<int> {
    if |hs| == 0 then []
    else
      var h := hs[|hs| - 1];
      Fresh(rs, q, date, hs[..|hs| - 1])
      + (if IsKnown(rs, q, date, h) && MarkFor(rs, q, date, h).value.date == date
         then [MarkFor(rs, q, date, h).value.id] else [])
  }

  /** Totals and counts of a point, over the positions held. */
  ghost predicate PointSays(rs: seq<Record>, q: Query, held: seq<string>, date: int, p: HistoryPoint) {
    var known := |Filter(held, Valued(rs, q, date))|;
    && p.date == date
    && p.coverage.total == |held| && p.coverage.known == known && p.coverage.unknown == |held| - known
    && p.coverage.carried == |Filter(held, Earlier(rs, q, date))|
    && p.coverage.unavailable == |Filter(held, WithoutWorth(rs, q, date))|
    && (p.coverage.complete <==> held != [] && forall h :: h in held ==> IsKnown(rs, q, date, h))
    && p.knownAmount == (if known > 0 then Some(SumBy(held, CentsFor(rs, q, date))) else None)
    && p.amount == (if p.coverage.complete then p.knownAmount else None)
    && p.dated == Fresh(rs, q, date, held)
  }

  lemma ShownIs(rs: seq<Record>, life: seq<Lifecycle.Rec>, q: Query, h: string, date: int)
    requires OwnedAt(life, q, h, date)
    ensures var m := Shown(rs, life, q, h, date);
            && m == MarkFor(rs, q, date, h)
            && (HasAmount(m, q.currency) <==> IsKnown(rs, q, date, h))
            && (HasAmount(m, q.currency) ==> Amount(m.value, q.currency) == Worth(m.value, q.currency))
  {
    hide OwnedAt, MarkOf;
  }

  /** The tally of the shown marks, position by position. */
  lemma {:induction false} TallySays(rs: seq<Record>, life: seq<Lifecycle.Rec>, q: Query, held: seq<string>, date: int)
    requires forall h :: h in held ==> OwnedAt(life, q, h, date)
    ensures TallyOf(ShownMarks(rs, life, q, held, date), date, q.currency) ==
            Tally(SumBy(held, CentsFor(rs, q, date)), |Filter(held, Valued(rs, q, date))|,
                  |Filter(held, Earlier(rs, q, date))|, |Filter(held, WithoutWorth(rs, q, date))|,
                  Fresh(rs, q, date, held))
  {
    hide OwnedAt, MarkOf, Shown, MarkFor, IsKnown, TallyOf, Amount, Worth;
    var marks := ShownMarks(rs, life, q, held, date);
    if |held| == 0 {
      TallyNone(date, q.currency);
    } else {
      var front, h := held[..|held| - 1], held[|held| - 1];
      assert held == front + [h] && h in held;
      TallySays(rs, life, q, front, date);
      assert marks == ShownMarks(rs, life, q, front, date) + [Shown(rs, life, q, h, date)];
      ShownIs(rs, life, q, h, date);
      TallyStep(ShownMarks(rs, life, q, front, date), Shown(rs, life, q, h, date), date, q.currency);
      SumBySnoc(front, h, CentsFor(rs, q, date));
      FilterSnoc(front, h, Valued(rs, q, date));
      FilterSnoc(front, h, Earlier(rs, q, date));
      FilterSnoc(front, h, WithoutWorth(rs, q, date));
      hide SumBy, Filter, ShownMarks;
    }
  }

  /** A point adds up the marks of the positions held, and says how many it could not value. */
  lemma PointIs(rs: seq<Record>, b: Books, q: Query, date: int)
    ensures PointSays(rs, q, Cohort(b, q, date), date, PointFor(rs, b, q, date))
  {
    var held := Cohort(b, q, date);
    TallySays(rs, b.lifecycle, q, held, date);
    KeptAll(held, Valued(rs, q, date));
    hide OwnedAt, TallyOf, Filter, SumBy, IsKnown, Shown, Cohort;
  }

  // --- The dates of the chart -----------------------------------------------------------------------

  /** From the first day asked for, to the last day asked for or the day the history stands on, if that is earlier. */
  ghost predicate OnAxis(q: Query, d: int) {
    && (q.from.Some? ==> q.from.value <= d) && d <= q.asOf && (q.to.Some? ==> d <= q.to.value)
  }

  ghost predicate IsLastDay(q: Query, d: int) {
    if q.to.Some? && q.to.value < q.asOf then d == q.to.value else d == q.asOf
  }

  /** A day on which a mark is current, in the source currency if one is asked for. */
  ghost predicate MarkedOn(rs: seq<Record>, q: Query, d: int) {
    exists r :: r in rs && FinalStatus(rs, r) == Current && r.date == d
                && (q.sourceCurrency.Some? ==> r.currency == q.sourceCurrency.value)
  }

  /** A day of a declaration about a selected position, known by the cutoff, corrected or not. */
  ghost predicate DeclaredOn(b: Books, q: Query, d: int) {
    exists e :: e in b.lifecycle && Seen(q.knownAt, e) && e.holdingId in b.holdings && e.date == d
  }

  /** The chart has a point on each such day of the axis, on its first day, and on its last once anything is current. */
  lemma PointDatesAre(rs: seq<Record>, b: Books, q: Query, d: int)
    ensures IsPointDate(rs, b, q, d) <==>
            || (OnAxis(q, d) && (MarkedOn(rs, q, d) || (q.basis == Historical && DeclaredOn(b, q, d))))
            || q.from == Some(d)
            || (IsLastDay(q, d) && exists r :: r in rs && FinalStatus(rs, r) == Current)
  {
    hide FinalStatus;
    WithinIs(q, d);
    DeclaredIs(b, q, d);
    MarkedIs(rs, q, d);
    assert (exists r :: IsCurrentIn(rs, r)) <==> exists r :: r in rs && FinalStatus(rs, r) == Current by {
      if r :| IsCurrentIn(rs, r) { }
      if r :| r in rs && FinalStatus(rs, r) == Current { assert IsCurrentIn(rs, r); }
    }
    hide OnChart, Declared, MarkedOn, DeclaredOn, OnAxis, Within, IsCurrentIn, CorrectionLog.Visible;
  }

  lemma WithinIs(q: Query, d: int)
    ensures Within(q, d) <==> OnAxis(q, d)
    ensures End(q) == d <==> IsLastDay(q, d)
  {
  }

  lemma MarkedIs(rs: seq<Record>, q: Query, d: int)
    ensures (exists r :: IsCurrentIn(rs, r) && OnChart(q, r) && r.date == d) <==> OnAxis(q, d) && MarkedOn(rs, q, d)
  {
    hide FinalStatus;
    WithinIs(q, d);
    if r :| IsCurrentIn(rs, r) && OnChart(q, r) && r.date == d { assert r in rs; }
    if OnAxis(q, d) && MarkedOn(rs, q, d) {
      var r :| r in rs && FinalStatus(rs, r) == Current && r.date == d
               && (q.sourceCurrency.Some? ==> r.currency == q.sourceCurrency.value);
      assert IsCurrentIn(rs, r) && OnChart(q, r);
    }
  }

  lemma DeclaredIs(b: Books, q: Query, d: int)
    ensures (exists e :: e in CorrectionLog.Visible(b.lifecycle, q.knownAt) && Declared(b, q, e) && e.date == d) <==>
            OnAxis(q, d) && q.basis == Historical && DeclaredOn(b, q, d)
  {
    WithinIs(q, d);
    if OnAxis(q, d) && q.basis == Historical && DeclaredOn(b, q, d) {
      var e :| e in b.lifecycle && Seen(q.knownAt, e) && e.holdingId in b.holdings && e.date == d;
      assert e in CorrectionLog.Visible(b.lifecycle, q.knownAt) && Declared(b, q, e);
    }
  }
}
