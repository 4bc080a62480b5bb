/**
 Catching up in stages (`evaluateReportObligations`, lib/report-obligations.ts): evaluating to one
 day and then to a later one succeeds whenever going straight there does, and promises the same.
 */
module CatchingUp {
  import opened Common
  import opened Calendar
  import opened Obligations
  import opened ObligationPeriods

  // --- What is owed grows -----------------------------------------------------------------------

  /** The same start and rules, evaluated no earlier and no less far. */
  ghost predicate Further(clock: Clock, r1: Range, r2: Range) {
    && r1.from == r2.from && r1.through <= r2.through && r1.startedOnly == r2.startedOnly
    && forall zone :: clock.localDate(r1.now, zone) <= clock.localDate(r2.now, zone)
  }

  /** A later horizon, seen no earlier, owes at least as much. */
  lemma DueGrows(clock: Clock, ss: seq<Schedule>, r1: Range, r2: Range)
    requires SchedulesOk(ss)
    requires Further(clock, r1, r2)
    ensures forall s :: s in ss ==> VersionsShaped(s)
    ensures DueIds(AllDues(clock, r1, ss), r1.from) <= DueIds(AllDues(clock, r2, ss), r2.from)
  {
    assert forall s :: s in ss ==> ScheduleOk(s);
    forall x | x in AllDues(clock, r1, ss) ensures x in AllDues(clock, r2, ss) {
      AllDuesExact(clock, r1, ss, x);
      AllDuesExact(clock, r2, ss, x);
      hide AllDues, ScheduleOk;
      var s :| s in ss && IsDue(clock, r1, s, x);
      assert IsDue(clock, r2, s, x);
    }
  }

  /** Everything an occurrence promises, apart from when it was written and what happened since. */
  datatype Obligation = Obligation(id: OccurrenceId, version: nat, end: nat, dueAt: int, graceEndsAt: int,
                                   details: Details)

  function Promise(o: Occurrence): Obligation {
    Obligation(o.id, o.version, o.end, o.dueAt, o.graceEndsAt, o.details)
  }

  function Promises(os: seq<Occurrence>): set<Obligation> { set o | o in os :: Promise(o) }

  lemma PromiseById(clock: Clock, ss: seq<Schedule>, s: Schedule, t: Schedule, a: Occurrence, b: Occurrence)
    requires SchedulesOk(ss) && s in ss && t in ss
    requires Owned(clock, s, a) && Owned(clock, t, b) && a.id == b.id
    ensures Promise(a) == Promise(b)
  {
    SameSchedule(ss, s, t);
    assert ScheduleOk(s);
    OneVersion(s, a.version, b.version, a.id.start);
  }

  /** With the same schedules, equal identifiers mean equal promises. */
  lemma PromisesById(clock: Clock, ss: seq<Schedule>, early: seq<Occurrence>, late: seq<Occurrence>)
    requires SchedulesOk(ss) && OccurrencesOk(clock, ss, early) && OccurrencesOk(clock, ss, late)
             && Ids(early) <= Ids(late)
    ensures Promises(early) <= Promises(late)
  {
    hide Owned, SchedulesOk;
    forall a | a in early ensures Promise(a) in Promises(late) {
      assert a.id in Ids(late);
      var b :| b in late && b.id == a.id;
      var s :| s in ss && Owned(clock, s, a);
      var t :| t in ss && Owned(clock, t, b);
      PromiseById(clock, ss, s, t, a, b);
    }
  }

  lemma {:induction false} DuesFromGrow(id: string, k: nat, d: Definition, start: nat, last1: nat, last2: nat,
                                        bound: Option<nat>)
    requires WellShaped(d) && (d.cadence != OneOff ==> OnBoundary(start, d.cadence)) && last1 <= last2
    ensures |DuesFrom(id, k, d, start, last1, bound)| <= |DuesFrom(id, k, d, start, last2, bound)|
    decreases last1 - start
  {
    hide OnBoundary, NextPeriodStart, WellShaped;
    if InRange(start, last1, bound) && d.cadence != OneOff {
      NextIsNextBoundary(start, d.cadence);
      DuesFromGrow(id, k, d, NextOrNone(start, d.cadence).value, last1, last2, bound);
    }
  }

  lemma {:induction false} ScheduleDuesGrow(clock: Clock, r1: Range, r2: Range, s: Schedule, n: nat)
    requires n <= |s.versions| && VersionsShaped(s) && Further(clock, r1, r2)
    ensures |ScheduleDues(clock, r1, s, n)| <= |ScheduleDues(clock, r2, s, n)|
  {
    if n > 0 {
      var v := s.versions[n - 1];
      assert v in s.versions;
      ScheduleDuesGrow(clock, r1, r2, s, n - 1);
      hide OnBoundary, DuesFrom;
      DuesFromGrow(s.id, n - 1, v.definition, v.definition.firstPeriodStart, LocalThrough(clock, r1, v.definition),
                   LocalThrough(clock, r2, v.definition), Bound(s, n - 1));
    }
  }

  /** No more periods are considered on the way than in going straight there. */
  lemma {:induction false} AllDuesGrow(clock: Clock, r1: Range, r2: Range, ss: seq<Schedule>)
    requires Further(clock, r1, r2) && forall s :: s in ss ==> VersionsShaped(s)
    ensures |AllDues(clock, r1, ss)| <= |AllDues(clock, r2, ss)|
  {
    hide VersionsShaped, Further, ScheduleDues;
    if |ss| > 0 {
      var front, last := ss[..|ss| - 1], ss[|ss| - 1];
      assert last in ss && forall s :: s in front ==> s in ss;
      AllDuesGrow(clock, r1, r2, front);
      ScheduleDuesGrow(clock, r1, r2, last, |last.versions|);
    }
  }

  // --- What a successful pass shows ---------------------------------------------------------------

  lemma {:induction false} PassCounts(clock: Clock, r: Range, dues: seq<Due>, p: Pass)
    requires forall d :: d in dues ==> DueOk(d)
    requires ConsiderAll(clock, r, dues, p).Ok?
    ensures ConsiderAll(clock, r, dues, p).value.considered == p.considered + |dues|
    ensures |dues| > 0 ==> p.considered + |dues| <= MAX_CONSIDERED
  {
    if |dues| > 0 {
      hide Build, Known, DueOk;
      PassCounts(clock, r, dues[1..], Consider(clock, r, dues[0], p).value);
    }
  }

  /** What a pass adds stays within the limits. */
  lemma {:induction false} PassRoom(clock: Clock, r: Range, dues: seq<Due>, p: Pass)
    requires forall d :: d in dues ==> DueOk(d)
    requires ConsiderAll(clock, r, dues, p).Ok?
    ensures var q := ConsiderAll(clock, r, dues, p).value;
            && q.added - p.added == |q.occurrences| - |p.occurrences|
            && p.added <= q.added <= Max(p.added, r.limit)
            && |q.occurrences| <= Max(|p.occurrences|, MAX_PERIODS)
  {
    if |dues| > 0 {
      hide Build, Known, DueOk;
      PassRoom(clock, r, dues[1..], Consider(clock, r, dues[0], p).value);
    }
  }

  lemma {:induction false} IdCount(os: seq<Occurrence>)
    requires forall i, j :: 0 <= i < j < |os| ==> os[i].id != os[j].id
    ensures |Ids(os)| == |os|
  {
    hide Ids;
    if |os| == 0 {
      NoIds();
    } else {
      var front, last := os[..|os| - 1], os[|os| - 1];
      IdCount(front);
      assert os == front + [last];
      NewId(front, last);
      NotAmong(front, last);
    }
  }

  lemma NoIds()
    ensures Ids([]) == {}
  {
  }

  lemma NotAmong(front: seq<Occurrence>, last: Occurrence)
    requires forall i :: 0 <= i < |front| ==> front[i].id != last.id
    ensures last.id !in Ids(front)
  {
  }

  lemma OwnerOf(clock: Clock, ss: seq<Schedule>, os: seq<Occurrence>, o: Occurrence) returns (s: Schedule)
    requires OccurrencesOk(clock, ss, os) && o in os
    ensures s in ss && Owned(clock, s, o)
  {
    hide Owned;
    s :| s in ss && Owned(clock, s, o);
  }

  /** A due period whose occurrence is on record has a deadline: it was built by the same version. */
  lemma DeadlineExists(clock: Clock, r: Range, ss: seq<Schedule>, x: Due, final: seq<Occurrence>)
    requires SchedulesOk(ss) && OccurrencesOk(clock, ss, final)
    requires exists s :: s in ss && ScheduleOk(s) && IsDue(clock, r, s, x)
    requires OccurrenceId(x.scheduleId, x.start) in Ids(final)
    ensures DueOk(x) && Build(clock, x, r.now).Some?
  {
    var o :| o in final && o.id == OccurrenceId(x.scheduleId, x.start);
    hide *;
    var s :| s in ss && ScheduleOk(s) && IsDue(clock, r, s, x);
    var t := OwnerOf(clock, ss, final, o);
    SameNames(clock, r, s, t, x, o);
    SameSchedule(ss, s, t);
    DueFits(clock, r, s, x);
    OwnedDeadline(clock, r, s, o, x);
  }

  lemma SameNames(clock: Clock, r: Range, s: Schedule, t: Schedule, x: Due, o: Occurrence)
    requires IsDue(clock, r, s, x) && Owned(clock, t, o) && o.id == OccurrenceId(x.scheduleId, x.start)
    ensures s.id == t.id
  {
    hide PeriodOf, OnStart, InRange;
  }

  lemma OwnedDeadline(clock: Clock, r: Range, s: Schedule, o: Occurrence, x: Due)
    requires ScheduleOk(s) && IsDue(clock, r, s, x) && Owned(clock, s, o) && DueOk(x)
    requires PeriodOf(s, x.version, x.start, PeriodEnd(x.start, x.definition))
    requires o.id == OccurrenceId(x.scheduleId, x.start)
    ensures Build(clock, x, r.now).Some?
  {
    hide ScheduleOk, WellShaped, OnBoundary, PeriodEnd;
    OneVersion(s, o.version, x.version, x.start);
  }

  // --- A pass that must succeed ----------------------------------------------------------------------

  /** Room for everything a pass may still add, measured by a list of occurrences that holds it all. */
  ghost predicate Roomy(r: Range, dues: seq<Due>, p: Pass, final: seq<Occurrence>) {
    && Ids(p.occurrences) <= Ids(final) && DueIds(dues, r.from) <= Ids(final)
    && p.considered + |dues| <= MAX_CONSIDERED
    && p.added + |final| - |p.occurrences| <= r.limit
    && (|final| <= MAX_PERIODS || DueIds(dues, r.from) <= Ids(p.occurrences))
  }

  function IdOfDue(x: Due): OccurrenceId { OccurrenceId(x.scheduleId, x.start) }

  lemma RoomNow(r: Range, dues: seq<Due>, p: Pass, final: seq<Occurrence>)
    requires |dues| > 0 && Roomy(r, dues, p, final)
    requires |Ids(p.occurrences)| == |p.occurrences| && |Ids(final)| == |final|
    ensures p.considered + 1 <= MAX_CONSIDERED
    ensures dues[0].start >= r.from ==> IdOfDue(dues[0]) in Ids(final)
    ensures dues[0].start >= r.from && !Known(p.occurrences, IdOfDue(dues[0])) ==>
              p.added + 1 <= r.limit && |p.occurrences| < MAX_PERIODS
  {
    var id := IdOfDue(dues[0]);
    FirstDue(dues, r.from);
    if dues[0].start >= r.from && !Known(p.occurrences, id) {
      assert id !in Ids(p.occurrences);
      hide Ids, DueIds;
      SubsetCount(Ids(p.occurrences), Ids(final) - {id});
    }
  }

  lemma RoomLeft(r: Range, dues: seq<Due>, p: Pass, q: Pass, final: seq<Occurrence>)
    requires |dues| > 0 && Roomy(r, dues, p, final)
    requires q.considered == p.considered + 1 && q.added - p.added == |q.occurrences| - |p.occurrences|
    requires Ids(q.occurrences) == Ids(p.occurrences) + (if dues[0].start >= r.from then {IdOfDue(dues[0])} else {})
    ensures Roomy(r, dues[1..], q, final)
  {
    FirstDue(dues, r.from);
    hide Ids, DueIds;
  }

  lemma Considered(clock: Clock, r: Range, x: Due, p: Pass)
    requires DueOk(x) && p.considered + 1 <= MAX_CONSIDERED && Consider(clock, r, x, p) != Err(SplitsPeriod)
    requires x.start >= r.from && !Known(p.occurrences, IdOfDue(x)) ==>
               p.added + 1 <= r.limit && |p.occurrences| < MAX_PERIODS && Build(clock, x, r.now).Some?
    ensures Consider(clock, r, x, p).Ok?
    ensures var q := Consider(clock, r, x, p).value;
            q.considered == p.considered + 1 && q.added - p.added == |q.occurrences| - |p.occurrences|
  {
    hide DueOk, Known, Build;
  }

  lemma OneSucceeds(clock: Clock, r: Range, ss: seq<Schedule>, dues: seq<Due>, p: Pass, final: seq<Occurrence>)
    requires SchedulesOk(ss) && OccurrencesOk(clock, ss, p.occurrences) && OccurrencesOk(clock, ss, final)
    requires |dues| > 0 && AllFit(clock, r, ss, dues) && Roomy(r, dues, p, final)
    ensures DueOk(dues[0])
    ensures Consider(clock, r, dues[0], p).Ok?
    ensures Roomy(r, dues[1..], Consider(clock, r, dues[0], p).value, final)
  {
    var x := dues[0];
    assert x in dues;
    assert exists s :: s in ss && ScheduleOk(s) && IsDue(clock, r, s, x);
    assert IdOfDue(x) == OccurrenceId(x.scheduleId, x.start);
    hide *;
    OneConsidered(clock, r, ss, x, p);
    CountedIds(clock, ss, p.occurrences);
    CountedIds(clock, ss, final);
    RoomNow(r, dues, p, final);
    if x.start >= r.from { DeadlineExists(clock, r, ss, x, final); }
    Considered(clock, r, x, p);
    RoomLeft(r, dues, p, Consider(clock, r, x, p).value, final);
  }

  lemma CountedIds(clock: Clock, ss: seq<Schedule>, os: seq<Occurrence>)
    requires OccurrencesOk(clock, ss, os)
    ensures |Ids(os)| == |os|
  {
    hide Owned, Ids;
    IdCount(os);
  }

  lemma {:induction false} PassSucceeds(clock: Clock, r: Range, ss: seq<Schedule>, dues: seq<Due>, p: Pass,
                                        final: seq<Occurrence>)
    requires SchedulesOk(ss) && OccurrencesOk(clock, ss, p.occurrences) && OccurrencesOk(clock, ss, final)
    requires AllFit(clock, r, ss, dues) && Roomy(r, dues, p, final)
    ensures forall x :: x in dues ==> DueOk(x)
    ensures ConsiderAll(clock, r, dues, p).Ok?
  {
    hide OccurrencesOk, Consider, DueOk, Roomy, SchedulesOk;
    if |dues| > 0 {
      OneSucceeds(clock, r, ss, dues, p, final);
      FirstDue(dues, r.from);
      assert dues[0] in dues;
      OneConsidered(clock, r, ss, dues[0], p);
      assert AllFit(clock, r, ss, dues[1..]);
      PassSucceeds(clock, r, ss, dues[1..], Consider(clock, r, dues[0], p).value, final);
    }
  }

  /** Going straight to the horizon leaves room for any pass no further, from any stage on the way. */
  lemma DirectIsRoomy(clock: Clock, ss: seq<Schedule>, os: seq<Occurrence>, stage: seq<Occurrence>, r: Range, r2: Range)
    requires SchedulesOk(ss) && OccurrencesOk(clock, ss, os) && OccurrencesOk(clock, ss, stage)
    requires forall s :: s in ss ==> s.versions != [] && VersionsShaped(s)
    requires Further(clock, r, r2) && r.limit == r2.limit && Materialised(clock, ss, os, r2).Ok?
    requires Ids(os) <= Ids(stage) <= Ids(Materialised(clock, ss, os, r2).value)
    ensures Roomy(r, AllDues(clock, r, ss), Pass(0, 0, stage), Materialised(clock, ss, os, r2).value)
  {
    var dues, direct := AllDues(clock, r, ss), Materialised(clock, ss, os, r2).value;
    hide *;
    MaterialisedKeeps(clock, ss, os, r2);
    DueGrows(clock, ss, r, r2);
    AllDuesGrow(clock, r, r2, ss);
    DirectCounts(clock, ss, os, r2);
    CountedIds(clock, ss, os);
    CountedIds(clock, ss, stage);
    SubsetCount(Ids(os), Ids(stage));
    SameFrom(clock, r, r2);
    MakesRoom(r, dues, os, stage, direct);
  }

  lemma SameFrom(clock: Clock, r: Range, r2: Range)
    requires Further(clock, r, r2)
    ensures r.from == r2.from
  {
  }

  lemma DirectCounts(clock: Clock, ss: seq<Schedule>, os: seq<Occurrence>, r: Range)
    requires forall s :: s in ss ==> s.versions != [] && VersionsShaped(s)
    requires Materialised(clock, ss, os, r).Ok?
    ensures |AllDues(clock, r, ss)| <= MAX_CONSIDERED
    ensures var direct := Materialised(clock, ss, os, r).value;
            |direct| - |os| <= r.limit && |direct| <= Max(|os|, MAX_PERIODS)
  {
    hide ConsiderAll, AllDues;
    PassCounts(clock, r, AllDues(clock, r, ss), Pass(0, 0, os));
    PassRoom(clock, r, AllDues(clock, r, ss), Pass(0, 0, os));
  }

  lemma MakesRoom(r: Range, dues: seq<Due>, os: seq<Occurrence>, stage: seq<Occurrence>, direct: seq<Occurrence>)
    requires os <= direct && Ids(os) <= Ids(stage) <= Ids(direct) && DueIds(dues, r.from) <= Ids(direct)
    requires |dues| <= MAX_CONSIDERED && |direct| - |os| <= r.limit && |direct| <= Max(|os|, MAX_PERIODS)
             && |os| <= |stage|
    ensures Roomy(r, dues, Pass(0, 0, stage), direct)
  {
    if |direct| > MAX_PERIODS { assert direct == os; }
    hide Ids, DueIds;
  }

  /** So a pass no further than the direct one succeeds from any such stage. */
  lemma StageSucceeds(clock: Clock, ss: seq<Schedule>, os: seq<Occurrence>, stage: seq<Occurrence>, r: Range, r2: Range)
    requires SchedulesOk(ss) && OccurrencesOk(clock, ss, os) && OccurrencesOk(clock, ss, stage)
    requires forall s :: s in ss ==> s.versions != [] && VersionsShaped(s)
    requires Further(clock, r, r2) && r.from <= r.through && r.limit == r2.limit && Materialised(clock, ss, os, r2).Ok?
    requires Ids(os) <= Ids(stage) <= Ids(Materialised(clock, ss, os, r2).value)
    ensures Materialised(clock, ss, stage, r).Ok?
  {
    var direct := Materialised(clock, ss, os, r2).value;
    DirectIsRoomy(clock, ss, os, stage, r, r2);
    MaterialisedKeeps(clock, ss, os, r2);
    DuesFit(clock, r, ss);
    hide OccurrencesOk, Roomy, SchedulesOk;
    PassSucceeds(clock, r, ss, AllDues(clock, r, ss), Pass(0, 0, stage), direct);
    hide ConsiderAll, AllDues;
  }

  /** The second stage may start from any list of what the first one left, in any order. */
  lemma SecondStage(clock: Clock, ss: seq<Schedule>, os: seq<Occurrence>, stage: seq<Occurrence>, r1: Range, r2: Range)
    requires SchedulesOk(ss) && OccurrencesOk(clock, ss, os) && OccurrencesOk(clock, ss, stage)
    requires forall s :: s in ss ==> s.versions != [] && VersionsShaped(s)
    requires Further(clock, r1, r2) && r1.limit == r2.limit
    requires Materialised(clock, ss, os, r1).Ok? && Materialised(clock, ss, os, r2).Ok?
    requires Ids(stage) == Ids(Materialised(clock, ss, os, r1).value)
    ensures Materialised(clock, ss, stage, r2).Ok?
    ensures Promises(Materialised(clock, ss, stage, r2).value) == Promises(Materialised(clock, ss, os, r2).value)
  {
    MaterialisedKeeps(clock, ss, os, r1);
    MaterialisedKeeps(clock, ss, os, r2);
    DueGrows(clock, ss, r1, r2);
    hide Materialised, Promises, Ids, OccurrencesOk, SchedulesOk, AllDues, DueIds;
    assert Further(clock, r2, r2) && r2.from <= r2.through by { RangeFits(clock, ss, os, r2); }
    StageSucceeds(clock, ss, os, stage, r2, r2);
    MaterialisedKeeps(clock, ss, stage, r2);
    PromisesById(clock, ss, Materialised(clock, ss, stage, r2).value, Materialised(clock, ss, os, r2).value);
    PromisesById(clock, ss, Materialised(clock, ss, os, r2).value, Materialised(clock, ss, stage, r2).value);
  }

  lemma RangeFits(clock: Clock, ss: seq<Schedule>, os: seq<Occurrence>, r: Range)
    requires forall s :: s in ss ==> s.versions != [] && VersionsShaped(s)
    requires Materialised(clock, ss, os, r).Ok?
    ensures Further(clock, r, r) && r.from <= r.through
  {
    hide ConsiderAll;
  }

  /**
   If going straight to the later day succeeds, so do both stages of catching up to an earlier day
   and then to it, and they promise the same.
   */
  lemma CatchUp(clock: Clock, ss: seq<Schedule>, os: seq<Occurrence>, r1: Range, r2: Range)
    requires SchedulesOk(ss) && OccurrencesOk(clock, ss, os)
    requires forall s :: s in ss ==> s.versions != [] && VersionsShaped(s)
    requires Further(clock, r1, r2) && r1.from <= r1.through && r1.limit == r2.limit
    requires Materialised(clock, ss, os, r2).Ok?
    ensures Materialised(clock, ss, os, r1).Ok?
    ensures var stage := Materialised(clock, ss, os, r1).value;
            && Materialised(clock, ss, stage, r2).Ok?
            && Promises(Materialised(clock, ss, stage, r2).value) == Promises(Materialised(clock, ss, os, r2).value)
  {
    MaterialisedKeeps(clock, ss, os, r2);
    hide Materialised, SchedulesOk, OccurrencesOk, Promises, Ids, Further, AllDues, DueIds;
    StageSucceeds(clock, ss, os, os, r1, r2);
    MaterialisedKeeps(clock, ss, os, r1);
    SecondStage(clock, ss, os, Materialised(clock, ss, os, r1).value, r1, r2);
  }
}
