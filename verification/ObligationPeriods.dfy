/**
 What every run of schedule commands and evaluations keeps: the materialised periods of a
 schedule never overlap, and active recurring versions leave no day out.
 */
module ObligationPeriods {
  import opened Common
  import opened Calendar
  import opened Obligations

  /** A version hands over to a later one on one of its own boundaries. */
  predicate Follows(a: Version, b: Version) {
    a.effectiveFrom < b.effectiveFrom && EndsBefore(a.definition, b.effectiveFrom)
  }

  ghost predicate ScheduleOk(s: Schedule) {
    && s.versions != [] && VersionsShaped(s)
    && forall i :: 0 <= i < |s.versions| - 1 ==> Follows(s.versions[i], s.versions[i + 1])
  }

  /** The period from `start` is one of version `k`'s own, and ends before the next version. */
  ghost predicate PeriodOf(s: Schedule, k: nat, start: nat, end: nat) {
    && k < |s.versions| && WellShaped(s.versions[k].definition)
    && var d := s.versions[k].definition;
    && s.versions[k].effectiveFrom <= start <= end
    && (d.cadence == OneOff ==> start == s.versions[k].effectiveFrom)
    && (d.cadence != OneOff ==> OnBoundary(start, d.cadence))
    && end == PeriodEnd(start, d)
    && (Bound(s, k).Some? ==> end < Bound(s, k).value)
  }

  /** The occurrence is exactly what its version prescribes. */
  ghost predicate Owned(clock: Clock, s: Schedule, o: Occurrence) {
    && o.id.scheduleId == s.id && PeriodOf(s, o.version, o.id.start, o.end)
    && var v := s.versions[o.version];
    && !v.paused && o.details == v.definition.details
    && clock.toInstant(o.end + v.definition.dueDays, v.definition.dueTime, v.definition.timezone) == Some(o.dueAt)
    && o.graceEndsAt == o.dueAt + v.definition.graceHours * HOUR
  }

  ghost predicate SchedulesOk(ss: seq<Schedule>) {
    && (forall s :: s in ss ==> ScheduleOk(s))
    && (forall i, j :: 0 <= i < j < |ss| ==> ss[i].id != ss[j].id)
  }

  ghost predicate OccurrencesOk(clock: Clock, ss: seq<Schedule>, os: seq<Occurrence>) {
    && (forall i, j :: 0 <= i < j < |os| ==> os[i].id != os[j].id)
    && (forall o :: o in os ==> exists s :: s in ss && Owned(clock, s, o))
  }

  // --- Versions -----------------------------------------------------------------------------

  lemma {:induction false} VersionsIncrease(s: Schedule, i: nat, j: nat)
    requires ScheduleOk(s) && i < j < |s.versions|
    ensures s.versions[i].effectiveFrom < s.versions[j].effectiveFrom
    ensures Bound(s, i).Some? && Bound(s, i).value <= s.versions[j].effectiveFrom
    decreases j - i
  {
    assert Follows(s.versions[i], s.versions[i + 1]);
    if i + 1 < j { VersionsIncrease(s, i + 1, j); }
  }

  /** A day in the reign of two versions can only be in one. */
  lemma OneVersion(s: Schedule, i: nat, j: nat, day: nat)
    requires ScheduleOk(s) && i < |s.versions| && j < |s.versions|
    requires s.versions[i].effectiveFrom <= day && (Bound(s, i).Some? ==> day < Bound(s, i).value)
    requires s.versions[j].effectiveFrom <= day && (Bound(s, j).Some? ==> day < Bound(s, j).value)
    ensures i == j
  {
    hide ScheduleOk;
    if i < j { VersionsIncrease(s, i, j); }
    if j < i { VersionsIncrease(s, j, i); }
  }

  /** Natural periods never reach past the boundary where the next version starts. */
  lemma PeriodEndsBeforeBound(s: Schedule, k: nat, start: nat)
    requires ScheduleOk(s) && k < |s.versions|
    requires var d := s.versions[k].definition;
             && WellShaped(d) && (d.cadence != OneOff ==> OnBoundary(start, d.cadence))
    requires Bound(s, k).Some? ==> start < Bound(s, k).value
    ensures var end := PeriodEnd(start, s.versions[k].definition);
            Bound(s, k).Some? ==> end < Bound(s, k).value
  {
    var d := s.versions[k].definition;
    if Bound(s, k).Some? {
      assert Follows(s.versions[k], s.versions[k + 1]);
      if d.cadence != OneOff { NextIsNextBoundary(start, d.cadence); }
    }
  }

  // --- Which periods are due -------------------------------------------------------------------

  ghost predicate OnStart(d: Definition, first: nat, start: nat) {
    first <= start && (if d.cadence == OneOff then start == first else OnBoundary(start, d.cadence))
  }

  /** Stepping from the first start visits every boundary in range, and nothing else. */
  lemma {:induction false} DuesFromExact(id: string, k: nat, d: Definition, first: nat, last: nat,
                                         bound: Option<nat>, x: Due)
    requires WellShaped(d) && (d.cadence != OneOff ==> OnBoundary(first, d.cadence))
    ensures x in DuesFrom(id, k, d, first, last, bound) <==>
            x == Due(id, k, d, x.start, bound) && OnStart(d, first, x.start) && InRange(x.start, last, bound)
    decreases last - first
  {
    hide OnBoundary, NextPeriodStart;
    if InRange(first, last, bound) && d.cadence != OneOff {
      NextIsNextBoundary(first, d.cadence);
      DuesFromExact(id, k, d, NextOrNone(first, d.cadence).value, last, bound, x);
    }
  }

  ghost predicate IsDue(clock: Clock, r: Range, s: Schedule, x: Due) {
    && x.scheduleId == s.id && x.version < |s.versions|
    && var v := s.versions[x.version];
    && !v.paused && x.definition == v.definition && x.bound == Bound(s, x.version)
    && OnStart(v.definition, v.effectiveFrom, x.start)
    && InRange(x.start, LocalThrough(clock, r, v.definition), x.bound)
  }

  lemma VersionDuesExact(clock: Clock, r: Range, s: Schedule, k: nat, x: Due)
    requires ScheduleOk(s) && k < |s.versions|
    ensures x in VersionDues(clock, r, s, k) <==> IsDue(clock, r, s, x) && x.version == k
  {
    var v := s.versions[k];
    assert v in s.versions;
    hide OnBoundary;
    DuesFromExact(s.id, k, v.definition, v.definition.firstPeriodStart, LocalThrough(clock, r, v.definition),
                  Bound(s, k), x);
  }

  lemma {:induction false} ScheduleDuesExact(clock: Clock, r: Range, s: Schedule, n: nat, x: Due)
    requires ScheduleOk(s) && n <= |s.versions|
    ensures x in ScheduleDues(clock, r, s, n) <==> IsDue(clock, r, s, x) && x.version < n
  {
    hide VersionDues, IsDue;
    if n > 0 {
      ScheduleDuesExact(clock, r, s, n - 1, x);
      VersionDuesExact(clock, r, s, n - 1, x);
    }
  }

  lemma {:induction false} AllDuesExact(clock: Clock, r: Range, ss: seq<Schedule>, x: Due)
    requires forall s :: s in ss ==> ScheduleOk(s)
    ensures forall s :: s in ss ==> VersionsShaped(s)
    ensures x in AllDues(clock, r, ss) <==> exists s :: s in ss && IsDue(clock, r, s, x)
  {
    if |ss| > 0 {
      var front, last := ss[..|ss| - 1], ss[|ss| - 1];
      assert last in ss && ss == front + [last];
      AllDuesExact(clock, r, front, x);
      ScheduleDuesExact(clock, r, last, |last.versions|, x);
      hide ScheduleDues;
      assert IsDue(clock, r, last, x) ==> x.version < |last.versions|;
    }
  }

  /** A due period of a well-formed schedule never splits at the next version. */
  lemma DueFits(clock: Clock, r: Range, s: Schedule, x: Due)
    requires ScheduleOk(s) && IsDue(clock, r, s, x)
    ensures DueOk(x)
    ensures PeriodOf(s, x.version, x.start, PeriodEnd(x.start, x.definition))
    ensures Build(clock, x, r.now).Some? ==> Owned(clock, s, Build(clock, x, r.now).value)
  {
    var v := s.versions[x.version];
    assert v in s.versions;
    PeriodEndsBeforeBound(s, x.version, x.start);
    if v.definition.cadence != OneOff { NextIsNextBoundary(x.start, v.definition.cadence); }
  }

  // --- What a pass does -------------------------------------------------------------------------

  function Ids(os: seq<Occurrence>): set<OccurrenceId> { set o | o in os :: o.id }

  ghost function DueIds(dues: seq<Due>, from: nat): set<OccurrenceId> {
    set x | x in dues && x.start >= from :: OccurrenceId(x.scheduleId, x.start)
  }

  ghost predicate AllFit(clock: Clock, r: Range, ss: seq<Schedule>, dues: seq<Due>) {
    forall x :: x in dues ==> exists s :: s in ss && ScheduleOk(s) && IsDue(clock, r, s, x)
  }

  lemma OneConsidered(clock: Clock, r: Range, ss: seq<Schedule>, x: Due, p: Pass)
    requires OccurrencesOk(clock, ss, p.occurrences)
    requires exists s :: s in ss && ScheduleOk(s) && IsDue(clock, r, s, x)
    ensures DueOk(x)
    ensures var q := Consider(clock, r, x, p);
            && q != Err(SplitsPeriod)
            && (q.Ok? ==>
                  && OccurrencesOk(clock, ss, q.value.occurrences)
                  && Ids(q.value.occurrences) == Ids(p.occurrences)
                     + (if x.start >= r.from then {OccurrenceId(x.scheduleId, x.start)} else {})
                  && p.occurrences <= q.value.occurrences)
  {
    var s :| s in ss && ScheduleOk(s) && IsDue(clock, r, s, x);
    hide ScheduleOk, IsDue, PeriodOf;
    DueFits(clock, r, s, x);
    BoundOfDue(clock, r, s, x);
    var q := Consider(clock, r, x, p);
    if q.Ok? {
      if q.value.occurrences != p.occurrences {
        var o := Build(clock, x, r.now).value;
        hide Build, Owned;
        assert q.value.occurrences == p.occurrences + [o];
        NewId(p.occurrences, o);
      }
    }
  }

  lemma BoundOfDue(clock: Clock, r: Range, s: Schedule, x: Due)
    requires ScheduleOk(s) && IsDue(clock, r, s, x) && DueOk(x)
    ensures x.bound.Some? ==> PeriodEnd(x.start, x.definition) < x.bound.value
  {
    DueFits(clock, r, s, x);
  }

  lemma NewId(os: seq<Occurrence>, o: Occurrence)
    ensures Ids(os + [o]) == Ids(os) + {o.id}
  {
    assert forall x :: x in os + [o] <==> x in os || x == o;
  }

  /** A whole pass: it never meets a split period, keeps every occurrence, and adds exactly the due ones. */
  lemma {:induction false} PassAdds(clock: Clock, r: Range, ss: seq<Schedule>, dues: seq<Due>, p: Pass)
    requires OccurrencesOk(clock, ss, p.occurrences) && AllFit(clock, r, ss, dues)
    ensures forall x :: x in dues ==> DueOk(x)
    ensures var q := ConsiderAll(clock, r, dues, p);
            && q != Err(SplitsPeriod)
            && (q.Ok? ==>
                  && OccurrencesOk(clock, ss, q.value.occurrences)
                  && Ids(q.value.occurrences) == Ids(p.occurrences) + DueIds(dues, r.from)
                  && p.occurrences <= q.value.occurrences)
  {
    hide OccurrencesOk, Consider, DueOk;
    if |dues| == 0 {
      assert DueIds(dues, r.from) == {};
    } else {
      FirstDue(dues, r.from);
      assert dues[0] in dues;
      OneConsidered(clock, r, ss, dues[0], p);
      var q := Consider(clock, r, dues[0], p);
      assert AllFit(clock, r, ss, dues[1..]);
      if q.Ok? { PassAdds(clock, r, ss, dues[1..], q.value); } else { PassAdds(clock, r, ss, dues[1..], p); }
    }
  }

  lemma FirstDue(dues: seq<Due>, from: nat)
    requires |dues| > 0
    ensures forall x :: x in dues <==> x == dues[0] || x in dues[1..]
    ensures DueIds(dues, from) ==
            (if dues[0].start >= from then {OccurrenceId(dues[0].scheduleId, dues[0].start)} else {})
                + DueIds(dues[1..], from)
  {
  }

  lemma DuesFit(clock: Clock, r: Range, ss: seq<Schedule>)
    requires SchedulesOk(ss)
    ensures AllFit(clock, r, ss, AllDues(clock, r, ss))
  {
    forall x | x in AllDues(clock, r, ss) ensures exists s :: s in ss && ScheduleOk(s) && IsDue(clock, r, s, x) {
      hide IsDue;
      AllDuesExact(clock, r, ss, x);
    }
  }

  /** An evaluation keeps the invariant, never reports a split, and owes exactly the due identifiers. */
  lemma MaterialisedKeeps(clock: Clock, ss: seq<Schedule>, os: seq<Occurrence>, r: Range)
    requires SchedulesOk(ss) && OccurrencesOk(clock, ss, os)
    ensures forall s :: s in ss ==> s.versions != [] && VersionsShaped(s)
    ensures var q := Materialised(clock, ss, os, r);
            && q != Err(SplitsPeriod)
            && (q.Ok? ==>
                  && OccurrencesOk(clock, ss, q.value)
                  && Ids(q.value) == Ids(os) + DueIds(AllDues(clock, r, ss), r.from)
                  && os <= q.value)
  {
    assert forall s :: s in ss ==> ScheduleOk(s);
    DuesFit(clock, r, ss);
    PassAdds(clock, r, ss, AllDues(clock, r, ss), Pass(0, 0, os));
    hide ConsiderAll, OccurrencesOk, AllFit, DueIds, Ids;
  }

  // --- Disjoint and gapless ----------------------------------------------------------------------

  lemma SameSchedule(ss: seq<Schedule>, a: Schedule, b: Schedule)
    requires SchedulesOk(ss) && a in ss && b in ss && a.id == b.id
    ensures a == b
  {
    var i: nat :| i < |ss| && ss[i] == a;
    var j: nat :| j < |ss| && ss[j] == b;
  }

  /** Two occurrences of one schedule cover no common day. */
  lemma PeriodsDisjoint(clock: Clock, ss: seq<Schedule>, os: seq<Occurrence>, a: Occurrence, b: Occurrence)
    requires SchedulesOk(ss) && OccurrencesOk(clock, ss, os)
    requires a in os && b in os && a != b && a.id.scheduleId == b.id.scheduleId
    ensures a.end < b.id.start || b.end < a.id.start
  {
    assert a.id != b.id by {
      var i: nat :| i < |os| && os[i] == a;
      var j: nat :| j < |os| && os[j] == b;
    }
    var s :| s in ss && Owned(clock, s, a);
    var t :| t in ss && Owned(clock, t, b);
    SameSchedule(ss, s, t);
    assert ScheduleOk(s);
    PeriodsOfSchedule(s, a.version, a.id.start, a.end, b.version, b.id.start, b.end);
  }

  lemma PeriodsOfSchedule(s: Schedule, i: nat, a: nat, aEnd: nat, j: nat, b: nat, bEnd: nat)
    requires ScheduleOk(s) && PeriodOf(s, i, a, aEnd) && PeriodOf(s, j, b, bEnd) && a != b
    ensures aEnd < b || bEnd < a
  {
    if i < j {
      VersionsIncrease(s, i, j);
    } else if j < i {
      VersionsIncrease(s, j, i);
    } else {
      var d := s.versions[i].definition;
      if d.cadence != OneOff {
        NextIsNextBoundary(a, d.cadence);
        NextIsNextBoundary(b, d.cadence);
      }
    }
  }

  /** After an evaluation every day an active recurring version governs, up to the horizon, is covered. */
  lemma NoDayMissing(clock: Clock, ss: seq<Schedule>, os: seq<Occurrence>, r: Range, s: Schedule, k: nat, day: nat)
    requires SchedulesOk(ss) && OccurrencesOk(clock, ss, os) && s in ss && s.versions != [] && k < |s.versions|
    requires forall x :: x in ss ==> x.versions != [] && VersionsShaped(x)
    requires Materialised(clock, ss, os, r).Ok?
    requires var v := s.versions[k];
             && !v.paused && v.definition.cadence != OneOff && v.effectiveFrom <= day
             && InRange(day, LocalThrough(clock, r, v.definition), Bound(s, k))
    ensures exists o :: o in Materialised(clock, ss, os, r).value && o.id.scheduleId == s.id && o.version == k
                        && o.id.start <= day <= o.end
  {
    hide OccurrencesOk, ConsiderAll;
    var v := s.versions[k];
    assert ScheduleOk(s) && v in s.versions;
    var start := PeriodStart(day, v.definition.cadence);
    PeriodStartIs(day, v.definition.cadence);
    StartsAfterVersion(v, start, day);
    MaterialisedKeeps(clock, ss, os, r);
    FromBeforeVersion(ss, r, s, k);
    var x := Due(s.id, k, v.definition, start, Bound(s, k));
    assert IsDue(clock, r, s, x);
    AllDuesExact(clock, r, ss, x);
    var result := Materialised(clock, ss, os, r).value;
    assert OccurrenceId(s.id, start) in DueIds(AllDues(clock, r, ss), r.from);
    hide Materialised, IsDue, ScheduleOk, SchedulesOk;
    CoveringOccurrence(clock, ss, result, s, k, start, day);
  }

  lemma StartsAfterVersion(v: Version, start: nat, day: nat)
    requires WellShaped(v.definition) && v.definition.firstPeriodStart == v.effectiveFrom
             && v.definition.cadence != OneOff
    requires OnBoundary(start, v.definition.cadence) && v.effectiveFrom <= day
    requires start <= day < NextPeriodStart(start, v.definition.cadence).value
    ensures v.effectiveFrom <= start
  {
    hide OnBoundary, NextPeriodStart;
    NextIsNextBoundary(start, v.definition.cadence);
  }

  lemma FromBeforeVersion(ss: seq<Schedule>, r: Range, s: Schedule, k: nat)
    requires SchedulesOk(ss) && s in ss && s.versions != [] && k < |s.versions|
    requires forall x :: x in ss ==> x.versions != []
    requires RangeProblem(ss, r).None?
    ensures r.from <= s.versions[k].effectiveFrom
  {
    assert ScheduleOk(s) && s.versions[0] in s.versions;
    if k > 0 { VersionsIncrease(s, 0, k); }
  }

  lemma CoveringOccurrence(clock: Clock, ss: seq<Schedule>, os: seq<Occurrence>, s: Schedule, k: nat, start: nat,
                           day: nat)
    requires SchedulesOk(ss) && OccurrencesOk(clock, ss, os) && s in ss && k < |s.versions| && ScheduleOk(s)
    requires OccurrenceId(s.id, start) in Ids(os)
    requires var v := s.versions[k];
             && WellShaped(v.definition) && v.definition.cadence != OneOff && v.effectiveFrom <= start
             && (Bound(s, k).Some? ==> start < Bound(s, k).value) && OnBoundary(start, v.definition.cadence)
             && start <= day < NextPeriodStart(start, v.definition.cadence).value
    ensures exists o :: o in os && o.id.scheduleId == s.id && o.version == k && o.id.start <= day <= o.end
  {
    hide OnBoundary, NextPeriodStart;
    var o :| o in os && o.id == OccurrenceId(s.id, start);
    var t :| t in ss && Owned(clock, t, o);
    SameSchedule(ss, s, t);
    OneVersion(s, k, o.version, start);
  }

  // --- Commands keep the invariant ------------------------------------------------------------------

  lemma CreatedKeeps(clock: Clock, ss: seq<Schedule>, os: seq<Occurrence>, id: string, d: Definition)
    requires SchedulesOk(ss) && OccurrencesOk(clock, ss, os) && Created(ss, id, d).Ok?
    ensures SchedulesOk(Created(ss, id, d).value) && OccurrencesOk(clock, Created(ss, id, d).value, os)
  {
    var next := Created(ss, id, d).value;
    assert forall s :: s in next <==> s in ss || s == next[|ss|];
    hide Owned;
    forall o | o in os ensures exists s :: s in next && Owned(clock, s, o) {
      var s :| s in ss && Owned(clock, s, o);
    }
    forall i, j | 0 <= i < j < |next| ensures next[i].id != next[j].id {
      if j == |ss| { assert ss[i] in ss; }
    }
  }

  lemma RevisedKeeps(clock: Clock, ss: seq<Schedule>, os: seq<Occurrence>, id: string, d: Definition,
                     effectiveFrom: nat, paused: bool, today: nat)
    requires SchedulesOk(ss) && OccurrencesOk(clock, ss, os)
    requires forall s :: s in ss ==> s.versions != []
    requires Revised(ss, os, id, d, effectiveFrom, paused, today).Ok?
    ensures var next := Revised(ss, os, id, d, effectiveFrom, paused, today).value;
            SchedulesOk(next) && OccurrencesOk(clock, next, os)
  {
    var next := Revised(ss, os, id, d, effectiveFrom, paused, today).value;
    var k := FindSchedule(ss, id).value;
    var before, after := ss[k], next[k];
    assert before in ss && ScheduleOk(before);
    ScheduleExtends(before, after, d, effectiveFrom, paused);
    forall s | s in next ensures ScheduleOk(s) {
      var i: nat :| i < |next| && next[i] == s;
      if i != k { assert ss[i] in ss; }
    }
    hide ScheduleOk, Owned, PeriodOf;
    forall o | o in os ensures exists s :: s in next && Owned(clock, s, o) {
      var s :| s in ss && Owned(clock, s, o);
      var i: nat :| i < |ss| && ss[i] == s;
      if i == k {
        assert !Reaches(o, id, effectiveFrom);
        OwnedExtends(clock, before, after, o, d, effectiveFrom, paused);
        assert next[k] in next;
      } else {
        assert next[i] in next;
      }
    }
  }

  lemma ScheduleExtends(s: Schedule, t: Schedule, d: Definition, effectiveFrom: nat, paused: bool)
    requires ScheduleOk(s) && t == Schedule(s.id, s.versions + [Version(effectiveFrom, paused, d)])
    requires WellShaped(d) && d.firstPeriodStart == effectiveFrom
    requires Follows(s.versions[|s.versions| - 1], Version(effectiveFrom, paused, d))
    ensures ScheduleOk(t)
  {
    forall i | 0 <= i < |t.versions| - 1 ensures Follows(t.versions[i], t.versions[i + 1]) {
      if i < |s.versions| - 1 { assert Follows(s.versions[i], s.versions[i + 1]); }
    }
  }

  lemma OwnedExtends(clock: Clock, s: Schedule, t: Schedule, o: Occurrence, d: Definition, effectiveFrom: nat,
                     paused: bool)
    requires s.versions != [] && t == Schedule(s.id, s.versions + [Version(effectiveFrom, paused, d)])
    requires Owned(clock, s, o) && o.end < effectiveFrom
    ensures Owned(clock, t, o)
  {
    assert t.versions[o.version] == s.versions[o.version];
    if o.version + 1 < |s.versions| { assert t.versions[o.version + 1] == s.versions[o.version + 1]; }
  }
}
