/**
 When the reporting calendar accepts a schedule, a revision, an evaluation range or a decision on an
 exception (lib/report-obligations.ts), which periods an evaluation considers, and all that a
 decision changes.
 */
module CalendarDecisions {
  import opened Common
  import opened Calendar
  import opened Ordering
  import opened Obligations
  import opened ObligationPeriods
  import opened Exceptions
  import opened ObligationBook
  import opened DeliveryReview

  // --- Schedules ----------------------------------------------------------------------------------

  /** One-off periods state an end; the others start with a month, a quarter or a year. */
  ghost predicate CanStart(d: Definition) {
    if d.cadence == OneOff then d.oneOffPeriodEnd.Some? && d.firstPeriodStart <= d.oneOffPeriodEnd.value
    else d.oneOffPeriodEnd.None? && BeginsPeriod(d.firstPeriodStart, d.cadence)
  }

  lemma ShapeIs(d: Definition)
    ensures WellShaped(d) <==> CanStart(d)
  {
    if d.cadence != OneOff { BoundaryIs(d.firstPeriodStart, d.cadence); }
    hide OnBoundary, BeginsPeriod;
  }

  lemma CreatesExactly(ss: seq<Schedule>, id: string, d: Definition)
    ensures Created(ss, id, d).Ok? <==>
            CanStart(d) && id != "" && |ss| < 2000 && forall s :: s in ss ==> s.id != id
    ensures Created(ss, id, d).Ok? ==>
              Created(ss, id, d).value == ss + [Schedule(id, [Version(d.firstPeriodStart, false, d)])]
  {
    ShapeIs(d);
    hide WellShaped, CanStart;
  }

  /** The version before hands over on a day on which its own periods begin, or after its only one. */
  ghost predicate HandsOver(d: Definition, day: nat) {
    if d.cadence == OneOff then d.oneOffPeriodEnd.Some? && d.oneOffPeriodEnd.value < day
    else BeginsPeriod(day, d.cadence)
  }

  lemma HandsOverIs(d: Definition, day: nat)
    ensures EndsBefore(d, day) <==> HandsOver(d, day)
  {
    if d.cadence != OneOff { BoundaryIs(day, d.cadence); }
    hide OnBoundary, BeginsPeriod;
  }

  /** A revision starts in the future, after the latest version and on its boundary, and rewrites no period. */
  ghost predicate CanRevise(s: Schedule, os: seq<Occurrence>, d: Definition, from: nat, today: nat)
    requires s.versions != []
  {
    var latest := s.versions[|s.versions| - 1];
    && CanStart(d) && d.firstPeriodStart == from && today < from && latest.effectiveFrom < from
    && HandsOver(latest.definition, from) && |s.versions| < 500
    && forall o :: o in os && o.id.scheduleId == s.id ==> o.id.start < from && o.end < from
  }

  lemma RevisesExactly(ss: seq<Schedule>, os: seq<Occurrence>, id: string, d: Definition, from: nat, paused: bool,
                       today: nat)
    requires forall s :: s in ss ==> s.versions != []
    ensures var k, r := FindSchedule(ss, id), Revised(ss, os, id, d, from, paused, today);
            && (r.Ok? <==> k.Some? && ss[k.value] in ss && CanRevise(ss[k.value], os, d, from, today))
            && (r.Ok? ==>
                  r.value == ss[k.value := Schedule(id, ss[k.value].versions + [Version(from, paused, d)])])
  {
    ShapeIs(d);
    var k := FindSchedule(ss, id);
    if k.Some? {
      assert ss[k.value] in ss;
      HandsOverIs(ss[k.value].versions[|ss[k.value].versions| - 1].definition, from);
    }
    hide WellShaped, CanStart, EndsBefore, HandsOver, FindSchedule;
  }

  // --- Evaluations --------------------------------------------------------------------------------

  /** A range of at most thirty years that skips no schedule's first period, with a usable limit. */
  lemma RangeExactly(ss: seq<Schedule>, r: Range)
    requires forall s :: s in ss ==> s.versions != []
    ensures RangeProblem(ss, r).None? <==>
            && r.from <= r.through <= r.from + 10980 && 1 <= r.limit <= 50000
            && forall s :: s in ss ==> r.from <= s.versions[0].definition.firstPeriodStart
  {
  }

  /** The start of one of the version's own periods. */
  ghost predicate StartsPeriod(d: Definition, first: nat, start: nat) {
    first <= start && if d.cadence == OneOff then start == first else BeginsPeriod(start, d.cadence)
  }

  /** A period to consider: of an active version, begun by the end of the range, and by today if only those count. */
  ghost predicate Considered(clock: Clock, r: Range, s: Schedule, x: Due) {
    && x.scheduleId == s.id && x.version < |s.versions|
    && var v := s.versions[x.version];
    && !v.paused && x.definition == v.definition && x.bound == Bound(s, x.version)
    && StartsPeriod(v.definition, v.effectiveFrom, x.start) && x.start <= r.through
    && (r.startedOnly ==> x.start <= clock.localDate(r.now, v.definition.timezone))
    && (x.version + 1 < |s.versions| ==> x.start < s.versions[x.version + 1].effectiveFrom)
  }

  /** An evaluation considers exactly the periods of active versions that have begun. */
  lemma ConsidersExactly(clock: Clock, r: Range, s: Schedule, x: Due)
    requires ScheduleOk(s)
    ensures x in ScheduleDues(clock, r, s, |s.versions|) <==> Considered(clock, r, s, x)
  {
    ScheduleDuesExact(clock, r, s, |s.versions|, x);
    if x.version < |s.versions| {
      var d := s.versions[x.version].definition;
      if d.cadence != OneOff { BoundaryIs(x.start, d.cadence); }
    }
    hide ScheduleDues, OnBoundary, MonthStart;
  }

  /** A new occurrence is built whole: the end before the next start, the deadline by the clock, the grace after it. */
  lemma BuildsExactly(clock: Clock, due: Due, now: int)
    requires DueOk(due)
    ensures var d, o := due.definition, Build(clock, due, now);
            && (o.Some? ==>
                  && o.value.id == OccurrenceId(due.scheduleId, due.start) && o.value.version == due.version
                  && clock.toInstant(o.value.end + d.dueDays, d.dueTime, d.timezone) == Some(o.value.dueAt)
                  && o.value.graceEndsAt == o.value.dueAt + d.graceHours * 3600000
                  && o.value.details == d.details && o.value.createdAt == now
                  && o.value.receipts == [] && o.value.disposition.None?)
            && (o.Some? && d.cadence == OneOff ==> Some(o.value.end) == d.oneOffPeriodEnd)
            && (o.Some? && d.cadence != OneOff ==>
                  due.start <= o.value.end && OnBoundary(o.value.end + 1, d.cadence)
                  && forall b :: due.start < b <= o.value.end ==> !OnBoundary(b, d.cadence))
            && (o.None? ==> clock.toInstant(PeriodEnd(due.start, d) + d.dueDays, d.dueTime, d.timezone).None?)
  {
    if due.definition.cadence != OneOff { NextIsNextBoundary(due.start, due.definition.cadence); }
    hide OnBoundary, NextPeriodStart;
  }

  /** The limits of a stored state. */
  lemma EvaluatedFits(clock: Clock, h: Handles, s: State, o: Options)
    requires forall x :: x in s.schedules ==> x.versions != [] && VersionsShaped(x)
    requires Evaluated(clock, h, s, o).Ok?
    ensures var next := Evaluated(clock, h, s, o).value;
            && |next.occurrences| <= 50000 && |next.exceptions| <= 50000
            && forall i :: i in next.exceptions ==> |i.history| <= 5000
  {
    hide Materialised, Reviewed, Sort;
  }

  /** Stored by the day a period starts, and within a day by the order of the schedules' names. */
  lemma EvaluatedInOrder(clock: Clock, h: Handles, s: State, o: Options)
    requires forall x :: x in s.schedules ==> x.versions != [] && VersionsShaped(x)
    requires Evaluated(clock, h, s, o).Ok?
    ensures var os := Evaluated(clock, h, s, o).value.occurrences;
            forall i, j :: 0 <= i < j < |os| ==>
              os[i].id.start < os[j].id.start
              || (os[i].id.start == os[j].id.start && h.collate(os[i].id.scheduleId) <= h.collate(os[j].id.scheduleId))
  {
    hide Materialised, Reviewed, Sort, WithinLimits;
    var os := Materialised(clock, s.schedules, s.occurrences, o.range).value;
    SortIsSorted(os, Earlier(h));
  }

  /** And nothing within them is refused by the final check. */
  lemma FinalCheckIs(s: State)
    ensures WithinLimits(s) <==>
            && |s.occurrences| <= 50000 && |s.exceptions| <= 50000
            && forall i :: i in s.exceptions ==> |i.history| <= 5000
  {
  }

  // --- Decisions ----------------------------------------------------------------------------------

  /** A snooze is for an active, undecided issue, and ends within 366 days. */
  ghost predicate MayAct(i: Issue, a: Action, now: int) {
    && |i.history| < 5000
    && (a.Snooze? ==> i.sourceActive && i.status in {Open, Snoozed} && now < a.until <= now + 31622400000)
  }

  /** What a decision changes: one field or the status, always the time and the history, never the facts. */
  ghost predicate Decides(i: Issue, j: Issue, a: Action, now: int) {
    && j.key == i.key && j.id == i.id && j.facts == i.facts && j.fingerprint == i.fingerprint
    && j.sourceActive == i.sourceActive && j.origin == i.origin && j.createdAt == i.createdAt && j.updatedAt == now
    && i.history < j.history && |j.history| == |i.history| + 1 && j.history[|i.history|].at == now
    && (if a.Assign? then j.assignee == a.user else j.assignee == i.assignee)
    && (if a.Prioritise? then j.priority == a.priority else j.priority == i.priority)
    && match a
       case Assign(_) => j.status == i.status && j.snoozedUntil == i.snoozedUntil
           && j.resolvedFingerprint == i.resolvedFingerprint
       case Prioritise(_) => j.status == i.status && j.snoozedUntil == i.snoozedUntil
           && j.resolvedFingerprint == i.resolvedFingerprint
       case Snooze(until) => j.status == Snoozed && j.snoozedUntil == Some(until)
           && j.resolvedFingerprint == i.resolvedFingerprint
       case Resolve => j.status == Resolved && j.snoozedUntil.None? && j.resolvedFingerprint == Some(i.fingerprint)
       case Waive => j.status == Waived && j.snoozedUntil.None? && j.resolvedFingerprint == Some(i.fingerprint)
       case Reopen => j.status == Open && j.snoozedUntil.None? && j.resolvedFingerprint.None?
  }

  lemma ActsExactly(issues: seq<Issue>, key: Key, a: Action, now: int)
    ensures var i, r := IssueOf(issues, key), Acted(issues, key, a, now);
            && (r.Ok? <==> i.Some? && MayAct(i.value, a, now))
            && (r.Ok? ==>
                  exists k: nat ::
                    k < |issues| == |r.value| && i == Some(issues[k]) && r.value == issues[k := r.value[k]]
                    && Decides(issues[k], r.value[k], a, now))
  {
    var k := FindIssue(issues, key);
    if k.Some? {
      var i := issues[k.value];
      assert i.status.Open? || i.status.Snoozed? || i.status.Resolved? || i.status.Waived?;
      DecidedIs(i, a, now);
      hide Decided, Decides, FindIssue;
    }
  }

  lemma DecidedIs(i: Issue, a: Action, now: int)
    ensures var next := Decided(i, a).(updatedAt := now);
            Decides(i, next.(history := next.history + [Entry(now, ActionName(a), i.facts, i.fingerprint)]), a, now)
  {
  }

  /** A manual issue is new, is no delivery, opens at once and leaves every other issue alone. */
  lemma AddsExactly(issues: seq<Issue>, s: Signal, idOf: Key -> int, now: int)
    ensures var r := AddedManually(issues, s, idOf, now);
            && (r.Ok? <==>
                  && !s.key.Delivery? && |issues| < 50000
                  && forall i :: i in issues ==> i.key != s.key && i.id != idOf(s.key))
            && (r.Ok? ==>
                  && |r.value| == |issues| + 1 && r.value[..|issues|] == issues
                  && var i := r.value[|issues|];
                     && i.key == s.key && i.id == idOf(s.key)
                     && i.status == Open && i.sourceActive && i.origin == Manual
                     && i.assignee == s.assignee && i.priority == s.priority && i.fingerprint == s.fingerprint
                     && i.snoozedUntil.None? && i.resolvedFingerprint.None? && i.createdAt == i.updatedAt == now
                     && |i.history| == 1
                     && forall f :: f in s.facts ==> f in i.facts && i.facts[f] == s.facts[f])
  {
    hide FindIssue;
  }
}
