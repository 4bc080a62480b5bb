/**
 Statement reconciliation (lib/ledger.ts, `reconcilePeriod`, `cashflowCoverageCurrent`): a
 reconciliation is current when recorded, and while it is current the records dated within it
 reproduce every statement balance.
 */
module LedgerReconciliation {
  import opened Common
  import opened Ordering
  import opened LedgerState
  import opened LedgerPosting
  import opened LedgerCommands
  import opened LedgerRuns
  import opened LedgerReplay
  import opened LedgerLives

  // --- Currency of a reconciliation -----------------------------------------------------------

  function OpeningDate(h: Holding): int { if h.detail.Some? then h.detail.value.openingDate else h.markDate }

  function CashOpenedBy(hs: seq<Holding>, entityId: string, to: int): seq<Holding> {
    Filter(hs, (h: Holding) => h.entityId == entityId && h.assetClass == Cash && OpeningDate(h) <= to)
  }

  predicate TouchesAny(e: Event, ids: seq<string>) { exists p :: p in e.postings && p.holdingId in ids }

  /** `cashflowCoverageCurrent`: nothing dated within the period was recorded after it. */
  predicate CoverageCurrent(s: State, c: Coverage)
    requires c.eventCount <= |s.events| && c.markCount <= |s.marks|
  {
    var cash := CashOpenedBy(s.holdings, c.entityId, c.to);
    && |cash| == |ToSet(c.cashIds)| && (forall h :: h in cash ==> h.id in c.cashIds)
    && !(exists e :: e in s.events[c.eventCount..] && e.date <= c.to && TouchesAny(e, c.cashIds))
    && !(exists m :: m in s.marks[c.markCount..] && m.date <= c.to && m.holdingId in c.cashIds)
  }

  /** The dates of the holding's records never exceed the date its balance stands on. */
  ghost predicate DatesOk(s: State) {
    && (forall e, h :: e in s.events && h in s.holdings && IsCash(h) && Names(e.postings, h.id) ==>
          e.date <= h.markDate)
    && (forall m, h :: m in s.marks && h in s.holdings && m.holdingId == h.id ==> m.date <= h.markDate)
  }

  // --- Dates through a step ----------------------------------------------------------------------

  lemma PostedDates(s: State, t: State, e: Event, meta: Meta, i: nat)
    requires HoldingsOk(s.holdings) && Posts(s, t, e, meta) && i < |s.holdings|
    ensures i < |t.holdings| && SameIdentity(s.holdings[i], t.holdings[i])
            && s.holdings[i].markDate <= t.holdings[i].markDate
    ensures IsCash(s.holdings[i]) && Names(e.postings, s.holdings[i].id) ==> t.holdings[i].markDate == e.date
  {
    hide *;
    PostsMeans(s, t, e, meta);
    AppliedLength(s, e, |e.postings|, meta.id + "-source");
    AppliedDates(s, e, |e.postings|, meta.id + "-source", i);
    assert e.postings[..|e.postings|] == e.postings;
  }

  lemma PostsMeans(s: State, t: State, e: Event, meta: Meta)
    requires Posts(s, t, e, meta)
    ensures ApplyFirst(s, e, |e.postings|, meta.id + "-source").Ok?
    ensures t.holdings == ApplyFirst(s, e, |e.postings|, meta.id + "-source").value.holdings
    ensures t.events == s.events + [e] && t.marks == s.marks && t.coverage == s.coverage
  {
    hide ApplyFirst;
  }

  /** Postings never move a balance back in time. */
  lemma {:induction false} AppliedDates(s: State, e: Event, n: nat, sourceId: string, i: nat)
    requires HoldingsOk(s.holdings) && n <= |e.postings| && ApplyFirst(s, e, n, sourceId).Ok? && i < |s.holdings|
    ensures |ApplyFirst(s, e, n, sourceId).value.holdings| == |s.holdings|
    ensures var after := ApplyFirst(s, e, n, sourceId).value.holdings[i];
            && s.holdings[i].markDate <= after.markDate
            && (IsCash(s.holdings[i]) && Names(e.postings[..n], s.holdings[i].id) ==> after.markDate == e.date)
    decreases n
  {
    hide *;
    AppliedLength(s, e, n, sourceId);
    if n > 0 {
      ApplyUnfolds(s, e, n, sourceId);
      AppliedLength(s, e, n - 1, sourceId);
      AppliedDates(s, e, n - 1, sourceId, i);
      var before, p := ApplyFirst(s, e, n - 1, sourceId).value, e.postings[n - 1];
      PostOneDate(before, e, p, IsFirst(e, p), sourceId, i);
      IdentityParts(s.holdings[i], before.holdings[i]);
      assert e.postings[..n] == e.postings[..n - 1] + [p];
      NamesSnoc(e.postings[..n - 1], p, s.holdings[i].id);
    } else {
      ApplyNone(s, e, sourceId);
      assert e.postings[..0] == [];
      NamesNone(s.holdings[i].id);
    }
  }

  lemma IdentityParts(a: Holding, b: Holding)
    requires SameIdentity(a, b)
    ensures a.id == b.id && (IsCash(a) <==> IsCash(b)) && a.entityId == b.entityId
  {
  }

  lemma NamesNone(id: string)
    ensures !Names([], id)
  {
  }

  lemma NamesSnoc(ps: seq<Posting>, p: Posting, id: string)
    ensures Names(ps + [p], id) <==> Names(ps, id) || p.holdingId == id
  {
    if Names(ps, id) {
      var q :| q in ps && q.holdingId == id;
      assert q in ps + [p];
    }
    if p.holdingId == id { assert p in ps + [p]; }
  }

  lemma PostOneDate(s: State, e: Event, p: Posting, first: bool, sourceId: string, i: nat)
    requires HoldingsOk(s.holdings) && PostOne(s, e, p, first, sourceId).Ok? && i < |s.holdings|
    ensures var t := PostOne(s, e, p, first, sourceId).value;
            && |t.holdings| == |s.holdings| && s.holdings[i].markDate <= t.holdings[i].markDate
            && (IsCash(s.holdings[i]) && p.holdingId == s.holdings[i].id ==> t.holdings[i].markDate == e.date)
            && (t.holdings[i].markDate == s.holdings[i].markDate || t.holdings[i].markDate == e.date)
  {
    PostOneKeeps(s, e, p, first, sourceId);
    hide PostOne;
  }

  lemma DatesPosted(s: State, t: State, e: Event, meta: Meta)
    requires HoldingsOk(s.holdings) && DatesOk(s) && Posts(s, t, e, meta)
    ensures DatesOk(t)
  {
    PostsMeans(s, t, e, meta);
    AppliedLength(s, e, |e.postings|, meta.id + "-source");
    hide HoldingsOk, Posts, ApplyFirst;
    forall h | h in t.holdings
      ensures forall x :: x in t.events && IsCash(h) && Names(x.postings, h.id) ==> x.date <= h.markDate
      ensures forall m :: m in t.marks && m.holdingId == h.id ==> m.date <= h.markDate
    {
      var i: nat :| i < |t.holdings| && t.holdings[i] == h;
      PostedDates(s, t, e, meta, i);
      assert s.holdings[i] in s.holdings;
    }
  }

  lemma DatesValued(s: State, t: State, k: nat, m: Mark, meta: Meta)
    requires HoldingsOk(s.holdings) && DatesOk(s) && Values(s, t, k, m, meta)
    ensures DatesOk(t)
  {
    hide Names, InBounds, MoneyOk, HoldingOk;
    forall h | h in t.holdings
      ensures forall x :: x in t.events && IsCash(h) && Names(x.postings, h.id) ==> x.date <= h.markDate
      ensures forall x :: x in t.marks && x.holdingId == h.id ==> x.date <= h.markDate
    {
      var i: nat :| i < |t.holdings| && t.holdings[i] == h;
      assert s.holdings[i] in s.holdings && s.holdings[i].markDate <= h.markDate && s.holdings[i].id == h.id;
    }
  }

  lemma DatesOpened(s: State, t: State, h: Holding, m: Mark, meta: Meta)
    requires NamesOk(s) && Fresh(s, meta) && DatesOk(s) && Opens(s, t, h, m, meta)
    ensures DatesOk(t)
  {
    forall e | e in s.events ensures !Names(e.postings, h.id) {
      forall p | p in e.postings ensures p.holdingId != h.id { FoundIsOther(s.holdings, p.holdingId, h.id); }
    }
    forall x | x in s.marks ensures x.holdingId != h.id { FoundIsOther(s.holdings, x.holdingId, h.id); }
    hide Names, InBounds, FindHolding;
    forall x | x in t.holdings
      ensures forall e :: e in t.events && IsCash(x) && Names(e.postings, x.id) ==> e.date <= x.markDate
      ensures forall y :: y in t.marks && y.holdingId == x.id ==> y.date <= x.markDate
    {
      assert x in s.holdings || x == h;
    }
  }

  lemma DatesKept(s: State, t: State, meta: Meta)
    requires BooksOk(s) && Fresh(s, meta) && DatesOk(s) && Shaped(s, t, meta)
    ensures DatesOk(t)
  {
    hide HoldingsOk, TimesOk, NamesOk, Fresh, DatesOk, Marked, ApplyFirst, InBounds;
    if h, m :| Opens(s, t, h, m, meta) {
      DatesOpened(s, t, h, m, meta);
    } else if k: nat, m :| Values(s, t, k, m, meta) {
      DatesValued(s, t, k, m, meta);
    } else if e :| Posts(s, t, e, meta) {
      DatesPosted(s, t, e, meta);
    } else {
      DatesQuiet(s, t);
    }
  }

  lemma DatesQuiet(s: State, t: State)
    requires DatesOk(s) && Quiet(s, t)
    ensures DatesOk(t)
  {
  }

  // --- Replaying only what concerns a holding -------------------------------------------------------

  function Concerns(id: string): Event -> bool { (e: Event) => Names(e.postings, id) }

  function MarksOf(id: string): Mark -> bool { (m: Mark) => m.holdingId == id }

  lemma UntouchedPost(b: Balance, id: string, cash: bool, e: Event)
    requires !Names(e.postings, id)
    ensures PostTo(b, id, cash, e.postings, e.date) == b
  {
    NothingMoved(e.postings, id);
  }

  /** Records about other holdings make no difference. */
  lemma {:induction false} ReplayRelevant(start: Balance, id: string, cash: bool, events: seq<Event>, marks: seq<Mark>)
    requires Increasing(events, marks)
    ensures Replay(start, id, cash, events, marks) ==
            Replay(start, id, cash, Filter(events, Concerns(id)), Filter(marks, MarksOf(id)))
    decreases |events| + |marks|
  {
    if |events| == 0 && |marks| == 0 {
    } else if |marks| == 0 || (|events| > 0 && events[|events| - 1].at > marks[|marks| - 1].at) {
      ReplayRelevantEvent(start, id, cash, events, marks);
    } else {
      ReplayRelevantMark(start, id, cash, events, marks);
    }
  }

  lemma {:induction false} ReplayRelevantEvent(start: Balance, id: string, cash: bool, events: seq<Event>,
                                               marks: seq<Mark>)
    requires Increasing(events, marks) && |events| > 0
    requires |marks| == 0 || events[|events| - 1].at > marks[|marks| - 1].at
    ensures Replay(start, id, cash, events, marks) ==
            Replay(start, id, cash, Filter(events, Concerns(id)), Filter(marks, MarksOf(id)))
    decreases |events| + |marks|, 0
  {
    hide *;
    var front, e := events[..|events| - 1], events[|events| - 1];
    BeforeLast(events, marks);
    IncreasingFront(events, marks);
    ReplayRelevant(start, id, cash, front, marks);
    assert events == front + [e];
    ReplayEvent(start, id, cash, front, marks, e);
    RelevantSnoc(front, e, id);
    RelevantMarks(marks, id, e.at);
    ReplayEvent(start, id, cash, Filter(front, Concerns(id)), Filter(marks, MarksOf(id)), e);
    if !Names(e.postings, id) { UntouchedPost(Replay(start, id, cash, front, marks), id, cash, e); }
  }

  lemma BeforeLast(events: seq<Event>, marks: seq<Mark>)
    requires Increasing(events, marks) && |events| > 0
    requires |marks| == 0 || events[|events| - 1].at > marks[|marks| - 1].at
    ensures forall m :: m in marks ==> m.at < events[|events| - 1].at
  {
    hide Increasing;
    forall m | m in marks ensures m.at < events[|events| - 1].at { LastIsLatest(events, marks, m); }
  }

  lemma RelevantSnoc(front: seq<Event>, e: Event, id: string)
    ensures Filter(front + [e], Concerns(id)) ==
            if Names(e.postings, id) then Filter(front, Concerns(id)) + [e] else Filter(front, Concerns(id))
  {
    hide Filter, Names;
    FilterSnoc(front, e, Concerns(id));
    assert Filter(front, Concerns(id)) + [] == Filter(front, Concerns(id));
  }

  lemma RelevantMarks(marks: seq<Mark>, id: string, at: int)
    requires forall m :: m in marks ==> m.at < at
    ensures forall m :: m in Filter(marks, MarksOf(id)) ==> m.at < at
  {
  }

  lemma {:induction false} ReplayRelevantMark(start: Balance, id: string, cash: bool, events: seq<Event>,
                                              marks: seq<Mark>)
    requires Increasing(events, marks) && |marks| > 0
    requires |events| == 0 || events[|events| - 1].at <= marks[|marks| - 1].at
    ensures Replay(start, id, cash, events, marks) ==
            Replay(start, id, cash, Filter(events, Concerns(id)), Filter(marks, MarksOf(id)))
    decreases |events| + |marks|, 0
  {
    var front, m := marks[..|marks| - 1], marks[|marks| - 1];
    forall e | e in events ensures e.at < m.at { MarkIsLatest(events, marks, e); }
    IncreasingFrontMark(events, marks);
    ReplayRelevant(start, id, cash, events, front);
    assert marks == front + [m];
    hide Increasing, Names, Replay, Filter;
    ReplayMark(start, id, cash, events, front, m);
    FilterSnoc(front, m, MarksOf(id));
    ReplayMark(start, id, cash, Filter(events, Concerns(id)), Filter(front, MarksOf(id)), m);
    if m.holdingId != id { assert Filter(front, MarksOf(id)) + [] == Filter(front, MarksOf(id)); }
  }

  // --- Statement balances ------------------------------------------------------------------------------

  function DatedBy(to: int): Event -> bool { (e: Event) => e.date <= to }

  function MarkedBy(to: int): Mark -> bool { (m: Mark) => m.date <= to }

  /** The balance the records dated within a period amount to. */
  function Within(start: Balance, id: string, events: seq<Event>, marks: seq<Mark>, to: int): Balance {
    Replay(start, id, true, Filter(events, DatedBy(to)), Filter(marks, MarkedBy(to)))
  }

  ghost predicate RowHolds(s: State, openings: map<string, Balance>, c: Coverage, b: ClosingBalance)
    requires c.eventCount <= |s.events| && c.markCount <= |s.marks|
  {
    && b.holdingId in c.cashIds && b.holdingId in openings
    && var r := Replay(openings[b.holdingId], b.holdingId, true, s.events[..c.eventCount], s.marks[..c.markCount]);
    && r.native == b.native && r.value == b.value
  }

  /** What a reconciliation attested, in terms of the records it had before it. */
  ghost predicate CoverageOk(s: State, openings: map<string, Balance>, c: Coverage) {
    && c.eventCount <= |s.events| && c.markCount <= |s.marks|
    && (forall b :: b in c.closing ==> RowHolds(s, openings, c, b))
    && (forall e :: e in s.events[..c.eventCount] && TouchesAny(e, c.cashIds) ==> e.date <= c.to)
    && (forall m :: m in s.marks[..c.markCount] && m.holdingId in c.cashIds ==> m.date <= c.to)
    && (forall id :: id in c.cashIds ==>
          At(s.holdings, id).Some? && IsCash(At(s.holdings, id).value)
              && At(s.holdings, id).value.entityId == c.entityId)
  }

  ghost predicate CoveragesOk(s: State, openings: map<string, Balance>) {
    forall c :: c in s.coverage ==> CoverageOk(s, openings, c)
  }

  /** While a reconciliation is current, its period's records reproduce each statement balance. */
  lemma CurrentReproducesStatement(s: State, openings: map<string, Balance>, c: Coverage, b: ClosingBalance)
    requires TimesOk(s) && CoverageOk(s, openings, c) && CoverageCurrent(s, c) && b in c.closing
    ensures b.holdingId in openings
    ensures var r := Within(openings[b.holdingId], b.holdingId, s.events, s.marks, c.to);
            r.native == b.native && r.value == b.value
  {
    assert RowHolds(s, openings, c, b);
    var id, start := b.holdingId, openings[b.holdingId];
    var events, marks := s.events[..c.eventCount], s.marks[..c.markCount];
    SameEventsWithin(s, c, id);
    SameMarksWithin(s, c, id);
    IncreasingParts(s, c);
    hide Increasing, CoverageCurrent, TimesOk, CoverageOk, Replay, Filter;
    ReplayRelevant(start, id, true, events, marks);
    ReplayRelevant(start, id, true, Filter(s.events, DatedBy(c.to)), Filter(s.marks, MarkedBy(c.to)));
  }

  lemma IncreasingParts(s: State, c: Coverage)
    requires TimesOk(s) && c.eventCount <= |s.events| && c.markCount <= |s.marks|
    ensures Increasing(s.events[..c.eventCount], s.marks[..c.markCount])
    ensures Increasing(Filter(s.events, DatedBy(c.to)), Filter(s.marks, MarkedBy(c.to)))
  {
    FilterIncreasing(s.events, DatedBy(c.to));
    FilterIncreasingMarks(s.marks, MarkedBy(c.to));
    assert forall e :: e in s.events[..c.eventCount] ==> e in s.events;
    assert forall m :: m in s.marks[..c.markCount] ==> m in s.marks;
  }

  predicate NoLater(a: Event, b: Event) { a.at <= b.at }

  lemma FilterIncreasing(events: seq<Event>, p: Event -> bool)
    requires forall i, j :: 0 <= i < j < |events| ==> events[i].at < events[j].at
    ensures var r := Filter(events, p); forall i, j :: 0 <= i < j < |r| ==> r[i].at < r[j].at
  {
    FilterSorted(events, NoLater, p);
    var r := Filter(events, p);
    forall i, j | 0 <= i < j < |r| ensures r[i].at < r[j].at { assert !NoLater(r[j], r[i]); }
  }

  predicate NoLaterMark(a: Mark, b: Mark) { a.at <= b.at }

  lemma FilterIncreasingMarks(marks: seq<Mark>, p: Mark -> bool)
    requires forall i, j :: 0 <= i < j < |marks| ==> marks[i].at < marks[j].at
    ensures var r := Filter(marks, p); forall i, j :: 0 <= i < j < |r| ==> r[i].at < r[j].at
  {
    FilterSorted(marks, NoLaterMark, p);
    var r := Filter(marks, p);
    forall i, j | 0 <= i < j < |r| ensures r[i].at < r[j].at { assert !NoLaterMark(r[j], r[i]); }
  }

  lemma NamedTouches(e: Event, id: string, ids: seq<string>)
    requires Names(e.postings, id) && id in ids
    ensures TouchesAny(e, ids)
  {
  }

  lemma SameEventsWithin(s: State, c: Coverage, id: string)
    requires c.eventCount <= |s.events| && c.markCount <= |s.marks| && id in c.cashIds && CoverageCurrent(s, c)
    requires forall e :: e in s.events[..c.eventCount] && TouchesAny(e, c.cashIds) ==> e.date <= c.to
    ensures Filter(Filter(s.events, DatedBy(c.to)), Concerns(id)) == Filter(s.events[..c.eventCount], Concerns(id))
  {
    hide TouchesAny, Names;
    var before, after := s.events[..c.eventCount], s.events[c.eventCount..];
    var both := (e: Event) => DatedBy(c.to)(e) && Concerns(id)(e);
    FilterFilter(s.events, DatedBy(c.to), Concerns(id), both);
    assert s.events == before + after;
    FilterConcat(before, after, both);
    forall e | e in before ensures both(e) == Concerns(id)(e) {
      if Names(e.postings, id) { NamedTouches(e, id, c.cashIds); }
    }
    FilterEq(before, both, Concerns(id));
    forall e | e in after ensures !both(e) { if Names(e.postings, id) { NamedTouches(e, id, c.cashIds); } }
    FilterNone(after, both);
    assert Filter(before, both) + [] == Filter(before, both);
  }

  lemma SameMarksWithin(s: State, c: Coverage, id: string)
    requires c.eventCount <= |s.events| && c.markCount <= |s.marks| && id in c.cashIds && CoverageCurrent(s, c)
    requires forall m :: m in s.marks[..c.markCount] && m.holdingId in c.cashIds ==> m.date <= c.to
    ensures Filter(Filter(s.marks, MarkedBy(c.to)), MarksOf(id)) == Filter(s.marks[..c.markCount], MarksOf(id))
  {
    hide TouchesAny;
    var before, after := s.marks[..c.markCount], s.marks[c.markCount..];
    var both := (m: Mark) => MarkedBy(c.to)(m) && MarksOf(id)(m);
    FilterFilter(s.marks, MarkedBy(c.to), MarksOf(id), both);
    assert s.marks == before + after;
    FilterConcat(before, after, both);
    FilterEq(before, both, MarksOf(id));
    FilterNone(after, both);
    assert Filter(before, both) + [] == Filter(before, both);
  }

  // --- Recording a reconciliation ------------------------------------------------------------------------

  lemma CashHeld(s: State, cash: seq<Holding>, closing: seq<ClosingBalance>, from: int, to: int)
    requires CashProblem(s, cash, closing, from, to).None?
    ensures forall h :: h in cash ==> Balances(h, closing) && h.markDate <= to
  {
    if |cash| > 0 {
      hide Balances;
      assert CashProblem(s, cash[1..], closing, from, to).None?;
      CashHeld(s, cash[1..], closing, from, to);
      assert cash == [cash[0]] + cash[1..];
    }
  }

  /** As many rows as holdings, and as many identifiers as rows: every row is some holding's balance. */
  lemma RowsAreHoldings(cash: seq<Holding>, closing: seq<ClosingBalance>, b: ClosingBalance)
    requires |closing| == |cash| == |ClosingIds(closing)| && b in closing
    requires forall i, j :: 0 <= i < j < |cash| ==> cash[i].id != cash[j].id
    requires forall h :: h in cash ==> Balances(h, closing)
    ensures exists h :: h in cash && h.id == b.holdingId && h.native == b.native && h.value == b.value
  {
    var ids := Ids(cash);
    CountIds(cash);
    forall id | id in ids ensures id in ClosingIds(closing) {
      var h :| h in cash && h.id == id;
      assert Balances(h, closing);
    }
    EqualSets(ids, ClosingIds(closing));
    assert b.holdingId in ClosingIds(closing);
    var h :| h in cash && h.id == b.holdingId;
    OneRow(closing, b);
    assert Balances(h, closing);
  }

  lemma EqualSets(a: set<string>, b: set<string>)
    requires a <= b && |a| == |b|
    ensures a == b
  {
    if a != b {
      var x :| x in b && x !in a;
      assert a <= b - {x};
      SubsetCount(a, b - {x});
    }
  }

  lemma {:induction false} CountIds(hs: seq<Holding>)
    requires forall i, j :: 0 <= i < j < |hs| ==> hs[i].id != hs[j].id
    ensures |Ids(hs)| == |hs|
  {
    hide Ids;
    if |hs| == 0 {
      NoIds();
    } else {
      var front, last := hs[..|hs| - 1], hs[|hs| - 1];
      CountIds(front);
      assert hs == front + [last];
      IdsSnoc(front, last);
    }
  }

  lemma NoIds()
    ensures Ids([]) == {}
  {
  }

  lemma IdsSnoc(front: seq<Holding>, last: Holding)
    requires forall i :: 0 <= i < |front| ==> front[i].id != last.id
    ensures Ids(front + [last]) == Ids(front) + {last.id} && last.id !in Ids(front)
  {
  }

  lemma {:induction false} CountRows(closing: seq<ClosingBalance>)
    ensures |ClosingIds(closing)| <= |closing|
    ensures |ClosingIds(closing)| == |closing| ==> forall i, j :: 0 <= i < j < |closing| ==>
              closing[i].holdingId != closing[j].holdingId
  {
    if |closing| == 0 {
      assert ClosingIds(closing) == {};
    } else {
      var front, last := closing[..|closing| - 1], closing[|closing| - 1];
      CountRows(front);
      assert closing == front + [last];
      assert ClosingIds(closing) == ClosingIds(front) + {last.holdingId};
      if last.holdingId in ClosingIds(front) {
        assert ClosingIds(closing) == ClosingIds(front);
      } else {
        forall i | 0 <= i < |front| ensures front[i].holdingId != last.holdingId {
          assert front[i] in front;
        }
      }
    }
  }

  /** The row found for an identifier is the row itself. */
  lemma OneRow(closing: seq<ClosingBalance>, b: ClosingBalance)
    requires |closing| == |ClosingIds(closing)| && b in closing
    ensures FindClosing(closing, b.holdingId) == Some(b)
  {
    CountRows(closing);
    UniqueRow(closing, b);
  }

  lemma {:induction false} UniqueRow(closing: seq<ClosingBalance>, b: ClosingBalance)
    requires b in closing
    requires forall i, j :: 0 <= i < j < |closing| ==> closing[i].holdingId != closing[j].holdingId
    ensures FindClosing(closing, b.holdingId) == Some(b)
  {
    if closing[0] != b {
      assert b in closing[1..];
      var i: nat :| i < |closing[1..]| && closing[1..][i] == b;
      assert closing[i + 1] == b;
      UniqueRow(closing[1..], b);
    }
  }

  lemma CashDistinct(hs: seq<Holding>, entityId: string)
    requires HoldingsOk(hs)
    ensures var cash := CashOf(hs, entityId); forall i, j :: 0 <= i < j < |cash| ==> cash[i].id != cash[j].id
  {
    var isCash := (h: Holding) => h.entityId == entityId && h.assetClass == Cash;
    FilterDistinctBy(hs, isCash, HoldingId);
    var cash := CashOf(hs, entityId);
    forall i, j | 0 <= i < j < |cash| ensures cash[i].id != cash[j].id {
      assert HoldingId(cash[i]) != HoldingId(cash[j]);
    }
  }

  function HoldingId(h: Holding): string { h.id }

  /** The identifiers named are exactly those of the entity's cash holdings. */
  lemma CoveredIds(hs: seq<Holding>, entityId: string, cashIds: seq<string>)
    requires HoldingsOk(hs)
    requires var cash := CashOf(hs, entityId); |cash| == |ToSet(cashIds)| && forall h :: h in cash ==> h.id in cashIds
    ensures Ids(CashOf(hs, entityId)) == ToSet(cashIds)
  {
    CashDistinct(hs, entityId);
    hide CashOf;
    var cash := CashOf(hs, entityId);
    CountIds(cash);
    assert Ids(cash) <= ToSet(cashIds);
    EqualSets(Ids(cash), ToSet(cashIds));
  }

  ghost predicate Accepted(s: State, c: Coverage) {
    var cash := CashOf(s.holdings, c.entityId);
    && |cash| == |ToSet(c.cashIds)| && (forall h :: h in cash ==> h.id in c.cashIds)
    && |c.closing| == |cash| == |ClosingIds(c.closing)|
    && (forall h :: h in cash ==> Balances(h, c.closing) && h.markDate <= c.to)
    && c.eventCount == |s.events| && c.markCount == |s.marks|
  }

  lemma ReconcileShape(s: State, c: Command, meta: Meta) returns (row: Coverage)
    requires c.Reconcile? && ReconcileStep(s, c, meta).Ok?
    ensures var t := ReconcileStep(s, c, meta).value;
            && t.coverage == s.coverage + [row] && t.holdings == s.holdings && t.events == s.events
               && t.marks == s.marks
    ensures Accepted(s, row) && row.entityId == c.entityId && row.from == c.from && row.to == c.to
            && row.cashIds == c.cashIds && row.closing == c.closing
  {
    hide CashOf, SourceOk, ClosingIds, ToSet, CashProblem;
    row := ReconcileStep(s, c, meta).value.coverage[|s.coverage|];
    CashHeld(s, CashOf(s.holdings, c.entityId), c.closing, c.from, c.to);
  }

  /** A reconciliation is current as soon as it is recorded. */
  lemma RecordedIsCurrent(s: State, c: Command, meta: Meta)
    requires c.Reconcile? && HoldingsOk(s.holdings) && ReconcileStep(s, c, meta).Ok?
    ensures var t := ReconcileStep(s, c, meta).value;
            && |t.coverage| == |s.coverage| + 1
            && var row := t.coverage[|s.coverage|];
            && row.eventCount <= |t.events| && row.markCount <= |t.marks| && CoverageCurrent(t, row)
  {
    var row := ReconcileShape(s, c, meta);
    hide ReconcileStep, ClosingIds, ToSet, Balances;
    var cash := CashOf(s.holdings, c.entityId);
    forall h | h in s.holdings && h.entityId == c.entityId && h.assetClass == Cash ensures OpeningDate(h) <= c.to {
      assert h in cash && HoldingOk(h);
    }
    FilterEq(s.holdings, (h: Holding) => h.entityId == c.entityId && h.assetClass == Cash,
             (h: Holding) => h.entityId == c.entityId && h.assetClass == Cash && OpeningDate(h) <= c.to);
    assert CashOpenedBy(s.holdings, c.entityId, c.to) == cash;
  }

  /** What it attests, in terms of the records so far. */
  /** Every closing balance is the replayed balance of one cash holding. */
  lemma RowsHold(s: State, row: Coverage, openings: map<string, Balance>)
    requires HoldingsOk(s.holdings) && Replays(s, openings) && Accepted(s, row)
    ensures forall b :: b in row.closing ==> RowHolds(s, openings, row, b)
  {
    var cash := CashOf(s.holdings, row.entityId);
    CashDistinct(s.holdings, row.entityId);
    assert s.events[..row.eventCount] == s.events && s.marks[..row.markCount] == s.marks;
    hide CashOf, ClosingIds, Replay, HoldingsOk;
    forall b | b in row.closing ensures RowHolds(s, openings, row, b) {
      RowsAreHoldings(cash, row.closing, b);
      var h :| h in cash && h.id == b.holdingId && h.native == b.native && h.value == b.value;
      CashMember(s.holdings, row.entityId, h);
    }
  }

  lemma RecordedHolds(s: State, row: Coverage, openings: map<string, Balance>)
    requires HoldingsOk(s.holdings) && DatesOk(s) && Replays(s, openings) && Accepted(s, row)
    ensures CoverageOk(s, openings, row)
  {
    RowsHold(s, row, openings);
    forall id | id in row.cashIds ensures CoveredBy(s, row, id) { NamedIsCash(s, row, id); }
    assert s.events[..row.eventCount] == s.events && s.marks[..row.markCount] == s.marks;
    hide Replays, HoldingsOk, RowHolds, At, CashOf, Balances, ToSet, ClosingIds;
    forall e | e in s.events && TouchesAny(e, row.cashIds) ensures e.date <= row.to {
      var p :| p in e.postings && p.holdingId in row.cashIds;
      assert CoveredBy(s, row, p.holdingId) && Names(e.postings, p.holdingId);
    }
    forall m | m in s.marks && m.holdingId in row.cashIds ensures m.date <= row.to {
      assert CoveredBy(s, row, m.holdingId);
    }
  }

  /** The identifier is of a cash holding of the reconciled entity, last dated within the period. */
  ghost predicate CoveredBy(s: State, row: Coverage, id: string) {
    && At(s.holdings, id).Some?
    && var h := At(s.holdings, id).value;
    && h in s.holdings && h.id == id && IsCash(h) && h.entityId == row.entityId && h.markDate <= row.to
  }

  lemma NamedIsCash(s: State, row: Coverage, id: string)
    requires HoldingsOk(s.holdings) && Accepted(s, row) && id in row.cashIds
    ensures CoveredBy(s, row, id)
  {
    var cash := CashOf(s.holdings, row.entityId);
    CoveredIds(s.holdings, row.entityId, row.cashIds);
    hide CashOf, HoldingsOk, Balances, ClosingIds, At;
    assert id in Ids(cash);
    var h :| h in cash && h.id == id;
    CashMember(s.holdings, row.entityId, h);
    AtIs(s.holdings, h);
  }

  lemma CashMember(hs: seq<Holding>, entityId: string, h: Holding)
    requires h in CashOf(hs, entityId)
    ensures h in hs && IsCash(h) && h.entityId == entityId
  {
  }

  lemma AtIs(hs: seq<Holding>, h: Holding)
    requires HoldingsOk(hs) && h in hs
    ensures At(hs, h.id) == Some(h)
  {
    var i: nat :| i < |hs| && hs[i] == h;
  }

  /** Later records and openings leave an older attestation as it was. */
  lemma AttestationStays(s: State, t: State, before: map<string, Balance>, after: map<string, Balance>, c: Coverage)
    requires CoverageOk(s, before, c) && s.events <= t.events && s.marks <= t.marks && Keeps(s.holdings, t.holdings)
    requires forall id :: id in c.cashIds && id in before ==> id in after && after[id] == before[id]
    ensures CoverageOk(t, after, c)
  {
    assert t.events[..c.eventCount] == s.events[..c.eventCount] && t.marks[..c.markCount] == s.marks[..c.markCount];
    hide Keeps, Replay, TouchesAny;
    forall id | id in c.cashIds
      ensures At(t.holdings, id).Some? && IsCash(At(t.holdings, id).value)
              && At(t.holdings, id).value.entityId == c.entityId
    {
      LegStays(s.holdings, t.holdings, id);
    }
    forall b | b in c.closing ensures RowHolds(t, after, c, b) { assert RowHolds(s, before, c, b); }
  }
}
