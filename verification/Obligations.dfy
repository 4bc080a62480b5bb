/**
 Versioned report schedules and the periods they owe (lib/report-obligations.ts):
 creation, revision, and the materialisation pass of an evaluation.
 Local dates and deadline instants come from a fixed clock, a function of their arguments.
 */
module Obligations {
  import opened Common
  import opened Calendar

  const MAX_PERIODS := 50000
  const MAX_CONSIDERED := 200000
  const MAX_SCHEDULES := 2000
  const MAX_VERSIONS := 500
  const HOUR := 3600000

  datatype Clock = Clock(localDate: (int, string) -> nat, toInstant: (nat, string, string) -> Option<int>)

  datatype Details = Details(name: string, familyIds: seq<string>, holdingIds: seq<string>, managerId: Option<string>,
                             ownerUserId: string, reportType: string)

  datatype Definition = Definition(cadence: Cadence, firstPeriodStart: nat, oneOffPeriodEnd: Option<nat>,
                                   timezone: string, dueDays: nat, dueTime: string, graceHours: nat, details: Details)

  /** What the input schema accepts: recurring periods start on a boundary, one-off periods state their end. */
  predicate WellShaped(d: Definition) {
    if d.cadence == OneOff then d.oneOffPeriodEnd.Some? && d.firstPeriodStart <= d.oneOffPeriodEnd.value
    else d.oneOffPeriodEnd.None? && OnBoundary(d.firstPeriodStart, d.cadence)
  }

  datatype Version = Version(effectiveFrom: nat, paused: bool, definition: Definition)

  datatype Schedule = Schedule(id: string, versions: seq<Version>)

  datatype Receipt = Receipt(documentId: string, documentHash: string, matched: bool, receivedAt: int)

  datatype Disposition = Disposition(cancelled: bool, reason: string, at: int)

  /** The identifier is the schedule and the period start. */
  datatype OccurrenceId = OccurrenceId(scheduleId: string, start: nat)

  datatype Occurrence = Occurrence(id: OccurrenceId, version: nat, end: nat, dueAt: int, graceEndsAt: int,
                                   details: Details, createdAt: int, receipts: seq<Receipt>,
                                   disposition: Option<Disposition>)

  datatype Error = InvalidInput | ScheduleExists | ScheduleNotFound | NotInFuture | NotAfterLatest | NotAtBoundary |
                   WouldRewrite | WouldSplit | RangeInvalid | RangeSkips | LimitInvalid | BudgetExceeded |
                   OccurrenceLimit | NoDeadline | SplitsPeriod | TooLarge

  /** `reportPeriodEnd`: the day before the next start, or the stated end. */
  function PeriodEnd(start: nat, d: Definition): nat
    requires d.cadence == OneOff ==> d.oneOffPeriodEnd.Some?
    requires d.cadence != OneOff ==> OnBoundary(start, d.cadence)
  {
    if d.cadence == OneOff then d.oneOffPeriodEnd.value
    else NextIsNextBoundary(start, d.cadence); NextPeriodStart(start, d.cadence).value - 1
  }

  // --- Schedules -------------------------------------------------------------------------

  function FindSchedule(ss: seq<Schedule>, id: string): (k: Option<nat>)
    ensures k.Some? ==> k.value < |ss| && ss[k.value].id == id
    ensures k.None? <==> forall s :: s in ss ==> s.id != id
  {
    if |ss| == 0 then None
    else if ss[|ss| - 1].id == id then Some(|ss| - 1)
    else FindSchedule(ss[..|ss| - 1], id)
  }

  function Created(ss: seq<Schedule>, id: string, d: Definition): Result<seq<Schedule>, Error> {
    if !WellShaped(d) || id == "" then Err(InvalidInput)
    else if exists s :: s in ss && s.id == id then Err(ScheduleExists)
    else if |ss| >= MAX_SCHEDULES then Err(TooLarge)
    else Ok(ss + [Schedule(id, [Version(d.firstPeriodStart, false, d)])])
  }

  /** The previous version can end the day before `day`. */
  predicate EndsBefore(d: Definition, day: nat) {
    if d.cadence == OneOff then d.oneOffPeriodEnd.Some? && d.oneOffPeriodEnd.value < day else OnBoundary(day, d.cadence)
  }

  /** An occurrence of the schedule reaches the day or lies after it. */
  predicate Reaches(o: Occurrence, scheduleId: string, day: nat) {
    o.id.scheduleId == scheduleId && (o.id.start >= day || o.end >= day)
  }

  /** `reviseReportSchedule`; `today` is the local date in the new definition's zone. */
  function Revised(ss: seq<Schedule>, os: seq<Occurrence>, scheduleId: string, d: Definition, effectiveFrom: nat,
                   paused: bool, today: nat): Result<seq<Schedule>, Error>
    requires forall s :: s in ss ==> s.versions != []
  {
    if !WellShaped(d) then Err(InvalidInput)
    else
      var found := FindSchedule(ss, scheduleId);
      if found.None? then Err(ScheduleNotFound)
      else
        var k := found.value;
        assert ss[k] in ss;
        var latest := ss[k].versions[|ss[k].versions| - 1];
        if effectiveFrom <= today then Err(NotInFuture)
        else if effectiveFrom <= latest.effectiveFrom then Err(NotAfterLatest)
        else if d.firstPeriodStart != effectiveFrom then Err(NotAtBoundary)
        else if exists o :: o in os && Reaches(o, scheduleId, effectiveFrom) then Err(WouldRewrite)
        else if !EndsBefore(latest.definition, effectiveFrom) then Err(WouldSplit)
        else if |ss[k].versions| >= MAX_VERSIONS then Err(TooLarge)
        else Ok(ss[k := Schedule(scheduleId, ss[k].versions + [Version(effectiveFrom, paused, d)])])
  }

  // --- Materialising periods ----------------------------------------------------------------

  datatype Range = Range(from: nat, through: nat, now: int, startedOnly: bool, limit: int)

  function LocalThrough(clock: Clock, r: Range, d: Definition): nat {
    if r.startedOnly then Min(r.through, clock.localDate(r.now, d.timezone)) else r.through
  }

  /** A period to consider: of which version, from which day, and where the next version begins. */
  datatype Due = Due(scheduleId: string, version: nat, definition: Definition, start: nat, bound: Option<nat>)

  datatype Pass = Pass(considered: nat, added: nat, occurrences: seq<Occurrence>)

  predicate Known(os: seq<Occurrence>, id: OccurrenceId) { exists o :: o in os && o.id == id }

  /** `buildOccurrence`, unless the local deadline does not exist. */
  function Build(clock: Clock, due: Due, now: int): Option<Occurrence>
    requires WellShaped(due.definition)
    requires due.definition.cadence != OneOff ==> OnBoundary(due.start, due.definition.cadence)
  {
    var d := due.definition;
    var end := PeriodEnd(due.start, d);
    var at := clock.toInstant(end + d.dueDays, d.dueTime, d.timezone);
    if at.None? then None
    else Some(Occurrence(OccurrenceId(due.scheduleId, due.start), due.version, end, at.value,
                         at.value + d.graceHours * HOUR, d.details, now, [], None))
  }

  predicate DueOk(due: Due) {
    WellShaped(due.definition) && (due.definition.cadence != OneOff ==> OnBoundary(due.start, due.definition.cadence))
  }

  /** One considered period. */
  function Consider(clock: Clock, r: Range, due: Due, p: Pass): Result<Pass, Error>
    requires DueOk(due)
  {
    if p.considered + 1 > MAX_CONSIDERED then Err(BudgetExceeded)
    else
      var q := p.(considered := p.considered + 1);
      if due.start < r.from || Known(p.occurrences, OccurrenceId(due.scheduleId, due.start)) then Ok(q)
      else if p.added + 1 > r.limit || |p.occurrences| >= MAX_PERIODS then Err(OccurrenceLimit)
      else
        var o := Build(clock, due, r.now);
        if o.None? then Err(NoDeadline)
        else if due.bound.Some? && o.value.end >= due.bound.value then Err(SplitsPeriod)
        else Ok(Pass(q.considered, p.added + 1, p.occurrences + [o.value]))
  }

  function ConsiderAll(clock: Clock, r: Range, dues: seq<Due>, p: Pass): Result<Pass, Error>
    requires forall d :: d in dues ==> DueOk(d)
  {
    if |dues| == 0 then Ok(p)
    else
      var q := Consider(clock, r, dues[0], p);
      if q.Err? then q else ConsiderAll(clock, r, dues[1..], q.value)
  }

  lemma {:induction false} ConsiderConcat(clock: Clock, r: Range, a: seq<Due>, b: seq<Due>, p: Pass)
    requires forall d :: d in a ==> DueOk(d)
    requires forall d :: d in b ==> DueOk(d)
    ensures ConsiderAll(clock, r, a + b, p) ==
            var q := ConsiderAll(clock, r, a, p);
            if q.Err? then q else ConsiderAll(clock, r, b, q.value)
  {
    if |a| == 0 {
      assert a + b == b;
    } else {
      hide Consider, DueOk;
      assert (a + b)[1..] == a[1..] + b;
      var q := Consider(clock, r, a[0], p);
      if q.Ok? { ConsiderConcat(clock, r, a[1..], b, q.value); }
    }
  }

  predicate InRange(start: nat, last: nat, bound: Option<nat>) {
    start <= last && (bound.Some? ==> start < bound.value)
  }

  /** The starts a version owes from `start` on, in order. */
  function DuesFrom(id: string, k: nat, d: Definition, start: nat, last: nat, bound: Option<nat>): (r: seq<Due>)
    requires WellShaped(d) && (d.cadence != OneOff ==> OnBoundary(start, d.cadence))
    ensures forall x :: x in r ==> DueOk(x)
    decreases last - start
  {
    if !InRange(start, last, bound) then []
    else
      var due := Due(id, k, d, start, bound);
      if d.cadence == OneOff then [due]
      else
        NextIsNextBoundary(start, d.cadence);
        [due] + DuesFrom(id, k, d, NextPeriodStart(start, d.cadence).value, last, bound)
  }

  /** Where version `k` gives way to the next. */
  function Bound(s: Schedule, k: nat): Option<nat> {
    if k + 1 < |s.versions| then Some(s.versions[k + 1].effectiveFrom) else None
  }

  predicate VersionsShaped(s: Schedule) {
    forall v :: v in s.versions ==> WellShaped(v.definition) && v.definition.firstPeriodStart == v.effectiveFrom
  }

  function VersionDues(clock: Clock, r: Range, s: Schedule, k: nat): (dues: seq<Due>)
    requires k < |s.versions| && VersionsShaped(s)
    ensures forall x :: x in dues ==> DueOk(x)
  {
    var v := s.versions[k];
    assert v in s.versions;
    if v.paused then []
    else DuesFrom(s.id, k, v.definition, v.definition.firstPeriodStart, LocalThrough(clock, r, v.definition),
                  Bound(s, k))
  }

  function ScheduleDues(clock: Clock, r: Range, s: Schedule, n: nat): (dues: seq<Due>)
    requires n <= |s.versions| && VersionsShaped(s)
    ensures forall x :: x in dues ==> DueOk(x)
  {
    if n == 0 then [] else ScheduleDues(clock, r, s, n - 1) + VersionDues(clock, r, s, n - 1)
  }

  function AllDues(clock: Clock, r: Range, ss: seq<Schedule>): (dues: seq<Due>)
    requires forall s :: s in ss ==> VersionsShaped(s)
    ensures forall x :: x in dues ==> DueOk(x)
  {
    if |ss| == 0 then []
    else AllDues(clock, r, ss[..|ss| - 1]) + ScheduleDues(clock, r, ss[|ss| - 1], |ss[|ss| - 1].versions|)
  }

  function RangeProblem(ss: seq<Schedule>, r: Range): Option<Error>
    requires forall s :: s in ss ==> s.versions != []
  {
    if r.through < r.from || r.through - r.from > 366 * 30 then Some(RangeInvalid)
    else if exists s :: s in ss && s.versions[0].definition.firstPeriodStart < r.from then Some(RangeSkips)
    else if r.limit < 1 || r.limit > MAX_PERIODS then Some(LimitInvalid)
    else None
  }

  /** The occurrences after a catch-up, before sorting. */
  function Materialised(clock: Clock, ss: seq<Schedule>, os: seq<Occurrence>, r: Range): Result<seq<Occurrence>, Error>
    requires forall s :: s in ss ==> s.versions != [] && VersionsShaped(s)
  {
    var problem := RangeProblem(ss, r);
    if problem.Some? then Err(problem.value)
    else
      var pass := ConsiderAll(clock, r, AllDues(clock, r, ss), Pass(0, 0, os));
      if pass.Err? then Err(pass.error) else Ok(pass.value.occurrences)
  }

  // --- The nested loops ---------------------------------------------------------------------------

  method MaterialiseVersion(clock: Clock, r: Range, s: Schedule, k: nat, p: Pass) returns (q: Result<Pass, Error>)
    requires k < |s.versions| && VersionsShaped(s)
    ensures q == ConsiderAll(clock, r, VersionDues(clock, r, s, k), p)
  {
    hide Consider, NextPeriodStart, OnBoundary;
    var version := s.versions[k];
    assert version in s.versions;
    if version.paused { return Ok(p); }
    var d, bound := version.definition, Bound(s, k);
    var last := LocalThrough(clock, r, d);
    var start: Option<nat> := Some(d.firstPeriodStart);
    var pass := p;
    while start.Some? && InRange(start.value, last, bound)
      invariant start.Some? && d.cadence != OneOff ==> OnBoundary(start.value, d.cadence)
      invariant ConsiderAll(clock, r, VersionDues(clock, r, s, k), p) ==
                if start.None? then Ok(pass)
                else ConsiderAll(clock, r, DuesFrom(s.id, k, d, start.value, last, bound), pass)
      decreases if start.Some? then last - start.value + 1 else -1
    {
      var due := Due(s.id, k, d, start.value, bound);
      ghost var dues := DuesFrom(s.id, k, d, start.value, last, bound);
      assert dues[0] == due;
      var step := Consider(clock, r, due, pass);
      if step.Err? { return step; }
      pass := step.value;
      if d.cadence != OneOff {
        NextIsNextBoundary(start.value, d.cadence);
        assert dues[1..] == DuesFrom(s.id, k, d, NextOrNone(start.value, d.cadence).value, last, bound);
      } else {
        assert dues[1..] == [];
      }
      start := NextOrNone(start.value, d.cadence);
    }
    return Ok(pass);
  }

  function NextOrNone(start: nat, c: Cadence): (r: Option<nat>)
    ensures r == NextPeriodStart(start, c) && (r.None? <==> c == OneOff)
  {
    NextPeriodStart(start, c)
  }

  method MaterialiseSchedule(clock: Clock, r: Range, s: Schedule, p: Pass) returns (q: Result<Pass, Error>)
    requires VersionsShaped(s)
    ensures q == ConsiderAll(clock, r, ScheduleDues(clock, r, s, |s.versions|), p)
  {
    hide ConsiderAll, VersionDues, VersionsShaped;
    var pass := p;
    var k := 0;
    assert ConsiderAll(clock, r, ScheduleDues(clock, r, s, 0), p) == Ok(p) by { ConsiderNothing(clock, r, p); }
    while k < |s.versions|
      invariant 0 <= k <= |s.versions|
      invariant ConsiderAll(clock, r, ScheduleDues(clock, r, s, k), p) == Ok(pass)
    {
      ConsiderConcat(clock, r, ScheduleDues(clock, r, s, k), VersionDues(clock, r, s, k), p);
      var step := MaterialiseVersion(clock, r, s, k, pass);
      k := k + 1;
      if step.Err? {
        ScheduleErrs(clock, r, s, k, p);
        return step;
      }
      pass := step.value;
    }
    return Ok(pass);
  }

  lemma ConsiderNothing(clock: Clock, r: Range, p: Pass)
    ensures ConsiderAll(clock, r, [], p) == Ok(p)
  {
  }

  /** An error in a prefix of the versions is the error of the whole schedule. */
  lemma {:induction false} ScheduleErrs(clock: Clock, r: Range, s: Schedule, k: nat, p: Pass)
    requires k <= |s.versions| && VersionsShaped(s)
    requires ConsiderAll(clock, r, ScheduleDues(clock, r, s, k), p).Err?
    ensures ConsiderAll(clock, r, ScheduleDues(clock, r, s, |s.versions|), p) ==
            ConsiderAll(clock, r, ScheduleDues(clock, r, s, k), p)
    decreases |s.versions| - k
  {
    hide ConsiderAll, VersionDues, VersionsShaped;
    if k < |s.versions| {
      ConsiderConcat(clock, r, ScheduleDues(clock, r, s, k), VersionDues(clock, r, s, k), p);
      ScheduleErrs(clock, r, s, k + 1, p);
    }
  }

  method Materialise(clock: Clock, ss: seq<Schedule>, os: seq<Occurrence>, r: Range)
    returns (q: Result<seq<Occurrence>, Error>)
    requires forall s :: s in ss ==> s.versions != [] && VersionsShaped(s)
    ensures q == Materialised(clock, ss, os, r)
  {
    hide ConsiderAll, ScheduleDues, VersionsShaped;
    var problem := RangeProblem(ss, r);
    if problem.Some? { return Err(problem.value); }
    var pass := Pass(0, 0, os);
    var i := 0;
    assert ConsiderAll(clock, r, AllDues(clock, r, ss[..0]), Pass(0, 0, os)) == Ok(pass) by {
      ConsiderNothing(clock, r, pass);
    }
    while i < |ss|
      invariant 0 <= i <= |ss|
      invariant ConsiderAll(clock, r, AllDues(clock, r, ss[..i]), Pass(0, 0, os)) == Ok(pass)
    {
      assert ss[..i + 1][..i] == ss[..i];
      ConsiderConcat(clock, r, AllDues(clock, r, ss[..i]), ScheduleDues(clock, r, ss[i], |ss[i].versions|),
                     Pass(0, 0, os));
      var step := MaterialiseSchedule(clock, r, ss[i], pass);
      i := i + 1;
      if step.Err? {
        AllErr(clock, r, ss, i, Pass(0, 0, os));
        return Err(step.error);
      }
      pass := step.value;
    }
    assert ss[..i] == ss;
    return Ok(pass.occurrences);
  }

  lemma {:induction false} AllErr(clock: Clock, r: Range, ss: seq<Schedule>, i: nat, p: Pass)
    requires i <= |ss| && forall s :: s in ss ==> VersionsShaped(s)
    requires ConsiderAll(clock, r, AllDues(clock, r, ss[..i]), p).Err?
    ensures ConsiderAll(clock, r, AllDues(clock, r, ss), p) == ConsiderAll(clock, r, AllDues(clock, r, ss[..i]), p)
    decreases |ss| - i
  {
    hide ConsiderAll, ScheduleDues, VersionsShaped;
    if i < |ss| {
      assert ss[..i + 1][..i] == ss[..i];
      ConsiderConcat(clock, r, AllDues(clock, r, ss[..i]), ScheduleDues(clock, r, ss[i], |ss[i].versions|), p);
      AllErr(clock, r, ss, i + 1, p);
    } else {
      assert ss[..i] == ss;
    }
  }
}
