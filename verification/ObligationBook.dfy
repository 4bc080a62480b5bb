/**
 The reporting calendar as one object (lib/report-obligations.ts): schedules, occurrences and
 exceptions change only through its commands, and a failed command changes nothing.
 Evaluating twice with the same options is evaluating once.
 */
module ObligationBook {
  import opened Common
  import opened Ordering
  import opened Obligations
  import opened ObligationPeriods
  import opened CatchingUp
  import opened Exceptions

  const MAX_EXCEPTIONS := 50000
  const MAX_HISTORY := 5000

  /** Identifier hashing and the collation of schedule identifiers. */
  datatype Handles = Handles(idOf: Key -> int, collate: string -> int)

  datatype Options = Options(range: Range, signals: seq<Signal>, complete: bool)

  datatype Failure = Period(error: Error) | Issues(error2: SignalError) | SchemaLimit

  datatype State = State(schedules: seq<Schedule>, occurrences: seq<Occurrence>, exceptions: seq<Issue>)

  function Earlier(h: Handles): (Occurrence, Occurrence) -> bool {
    (a: Occurrence, b: Occurrence) =>
      a.id.start < b.id.start || (a.id.start == b.id.start && h.collate(a.id.scheduleId) < h.collate(b.id.scheduleId))
  }

  predicate WithinLimits(s: State) {
    && |s.occurrences| <= MAX_PERIODS && |s.exceptions| <= MAX_EXCEPTIONS
    && forall i :: i in s.exceptions ==> |i.history| <= MAX_HISTORY
  }

  /** `evaluateReportObligations`. */
  function Evaluated(clock: Clock, h: Handles, s: State, o: Options): Result<State, Failure>
    requires forall x :: x in s.schedules ==> x.versions != [] && VersionsShaped(x)
  {
    var os := Materialised(clock, s.schedules, s.occurrences, o.range);
    if os.Err? then Err(Period(os.error))
    else
      var issues := Reviewed(s.exceptions, os.value, o.signals, o.complete, h.idOf, o.range.now);
      if issues.Err? then Err(Issues(issues.error))
      else
        var next := State(s.schedules, Sort(os.value, Earlier(h)), issues.value);
        if WithinLimits(next) then Ok(next) else Err(SchemaLimit)
  }

  /** Calendar issues are keyed by delivery and nothing else is. */
  ghost predicate IssuesOk(issues: seq<Issue>) {
    DistinctKeys(issues) && forall i :: i in issues && i.key.Delivery? ==> i.origin == Calendared
  }

  ghost predicate StateOk(clock: Clock, s: State) {
    SchedulesOk(s.schedules) && OccurrencesOk(clock, s.schedules, s.occurrences) && IssuesOk(s.exceptions)
  }

  lemma SchedulesReadable(ss: seq<Schedule>)
    requires SchedulesOk(ss)
    ensures forall x :: x in ss ==> x.versions != [] && VersionsShaped(x)
  {
    forall x | x in ss ensures x.versions != [] && VersionsShaped(x) { assert ScheduleOk(x); }
  }

  // --- Signals settle ------------------------------------------------------------------------------

  /** Applying the signal again would find nothing to change. */
  ghost predicate Settled(i: Issue, s: Signal) {
    && i.facts + s.facts == i.facts && i.fingerprint == s.fingerprint && i.sourceActive == s.active
    && (!s.active ==> i.status in {Resolved, Waived})
  }

  lemma UpdateSettles(i: Issue, s: Signal, now: int)
    ensures Settled(Update(i, s, now), s)
  {
    assert i.facts + s.facts + s.facts == i.facts + s.facts;
    assert i.status.Open? || i.status.Snoozed? || i.status.Resolved? || i.status.Waived?;
  }

  lemma SettledStays(i: Issue, s: Signal, now: int)
    requires Settled(i, s)
    ensures Update(i, s, now) == i && Settled(Woken(i, now), s)
  {
  }

  lemma NewSettles(s: Signal, id: int, now: int)
    ensures Settled(NewIssue(s, id, now), s)
  {
    assert Missing0() + s.facts + s.facts == Missing0() + s.facts;
  }

  /** The key is absent and the signal would not add it, or its issue is settled. */
  ghost predicate Quiet(issues: seq<Issue>, s: Signal, createInactive: bool) {
    && ((forall i :: i in issues ==> i.key != s.key) ==> !s.active && !createInactive)
    && forall i :: i in issues && i.key == s.key ==> Settled(i, s)
  }

  lemma QuietIsNoOp(issues: seq<Issue>, s: Signal, idOf: Key -> int, now: int, createInactive: bool)
    requires Quiet(issues, s, createInactive)
    ensures Apply(issues, s, idOf, now, createInactive) == Ok(issues)
  {
    var k := FindIssue(issues, s.key);
    if k.Some? {
      assert issues[k.value] in issues;
      hide Settled, Update;
      SettledStays(issues[k.value], s, now);
      assert issues[k.value := issues[k.value]] == issues;
    }
  }

  /** What a signal does to the issues: its own key settles, the others stand. */
  lemma ApplyQuiets(issues: seq<Issue>, s: Signal, idOf: Key -> int, now: int, createInactive: bool)
    requires IssuesOk(issues) && (s.key.Delivery? ==> s.origin == Calendared)
    requires Apply(issues, s, idOf, now, createInactive).Ok?
    ensures var next := Apply(issues, s, idOf, now, createInactive).value;
            && IssuesOk(next) && Quiet(next, s, createInactive)
            && (forall i: Issue :: i.key != s.key ==> (i in next <==> i in issues))
  {
    hide Settled, Update, NewIssue;
    var k := FindIssue(issues, s.key);
    var next := Apply(issues, s, idOf, now, createInactive).value;
    if k.Some? {
      var i := issues[k.value];
      assert i in issues;
      UpdateSettles(i, s, now);
      UpdateKeepsKey(i, s, now);
      ReplacedOne(issues, k.value, Update(i, s, now));
    } else if next != issues {
      NewSettles(s, idOf(s.key), now);
      AddedOne(issues, s, idOf(s.key), now);
    }
  }

  lemma ReplacedOne(issues: seq<Issue>, k: nat, i: Issue)
    requires IssuesOk(issues) && k < |issues| && i.key == issues[k].key && i.origin == issues[k].origin
    ensures var next := issues[k := i];
            && IssuesOk(next) && i in next
            && (forall x :: x in next && x.key == i.key ==> x == i)
            && (forall x: Issue :: x.key != i.key ==> (x in next <==> x in issues))
  {
    var next := issues[k := i];
    assert next[k] == i && issues[k] in issues;
    forall x | x in next ensures x == i || (x in issues && x.key != i.key) {
      var j: nat :| j < |next| && next[j] == x;
      if j != k { assert issues[j] == x; }
    }
    forall x | x in issues && x.key != i.key ensures x in next {
      var j: nat :| j < |issues| && issues[j] == x;
      assert next[j] == x;
    }
  }

  lemma AddedOne(issues: seq<Issue>, s: Signal, id: int, now: int)
    requires IssuesOk(issues) && (forall i :: i in issues ==> i.key != s.key)
             && (s.key.Delivery? ==> s.origin == Calendared)
    ensures var next := issues + [NewIssue(s, id, now)];
            && IssuesOk(next) && NewIssue(s, id, now) in next && NewIssue(s, id, now).key == s.key
            && forall x :: x in next <==> x in issues || x == NewIssue(s, id, now)
  {
    var next := issues + [NewIssue(s, id, now)];
    assert next[|issues|] == NewIssue(s, id, now);
    forall i, j | 0 <= i < j < |next| ensures next[i].key != next[j].key {
      if j == |issues| { assert issues[i] in issues; }
    }
  }

  /** Only the issues with its key can disturb a quiet signal. */
  lemma QuietSurvives(before: seq<Issue>, after: seq<Issue>, s: Signal, createInactive: bool)
    requires Quiet(before, s, createInactive)
    requires forall i: Issue :: i.key == s.key ==> (i in after <==> i in before)
    ensures Quiet(after, s, createInactive)
  {
    hide Settled;
    if forall i :: i in after ==> i.key != s.key {
      forall i | i in before ensures i.key != s.key { }
    }
  }

  ghost predicate DeliveriesQuiet(issues: seq<Issue>, os: seq<Occurrence>, now: int) {
    forall o :: o in os && DeliverySignal(o, now).Some? ==>
          Quiet(issues, DeliverySignal(o, now).value, RecordsLate(o, now))
  }

  ghost predicate ExternalsQuiet(issues: seq<Issue>, signals: seq<Signal>) {
    forall s :: s in signals ==> Quiet(issues, s, false)
  }

  lemma SignalKey(o: Occurrence, now: int)
    ensures DeliverySignal(o, now).Some? ==>
              DeliverySignal(o, now).value.key == Delivery(o.id) && DeliverySignal(o, now).value.origin == Calendared
  {
  }

  /** After the delivery pass every delivery signal is quiet. */
  lemma {:induction false} DeliveriesSettle(issues: seq<Issue>, os: seq<Occurrence>, idOf: Key -> int, now: int)
    requires IssuesOk(issues) && forall i, j :: 0 <= i < j < |os| ==> os[i].id != os[j].id
    requires ApplyDeliveries(issues, os, idOf, now).Ok?
    ensures var next := ApplyDeliveries(issues, os, idOf, now).value;
            IssuesOk(next) && DeliveriesQuiet(next, os, now)
  {
    hide IssuesOk, DeliverySignal, RecordsLate, Apply, Quiet;
    if |os| > 0 {
      var front, last := os[..|os| - 1], os[|os| - 1];
      DeliveriesSettle(issues, front, idOf, now);
      var before, next := ApplyDeliveries(issues, front, idOf, now).value, ApplyDeliveries(issues, os, idOf, now).value;
      SignalKey(last, now);
      if DeliverySignal(last, now).Some? {
        ApplyQuiets(before, DeliverySignal(last, now).value, idOf, now, RecordsLate(last, now));
        forall o | o in front && DeliverySignal(o, now).Some?
          ensures Quiet(next, DeliverySignal(o, now).value, RecordsLate(o, now))
        {
          SignalKey(o, now);
          var k: nat :| k < |front| && front[k] == o;
          assert os[k].id != os[|os| - 1].id;
          QuietSurvives(before, next, DeliverySignal(o, now).value, RecordsLate(o, now));
        }
      }
    }
  }

  /** After the external pass every external signal is quiet, and the delivery signals still are. */
  lemma {:induction false} ExternalsSettle(issues: seq<Issue>, signals: seq<Signal>, idOf: Key -> int, now: int,
                                           os: seq<Occurrence>)
    requires IssuesOk(issues) && DeliveriesQuiet(issues, os, now)
    requires ApplyExternals(issues, signals, idOf, now).Ok?
    ensures var next := ApplyExternals(issues, signals, idOf, now).value;
            && IssuesOk(next) && ExternalsQuiet(next, signals) && DeliveriesQuiet(next, os, now)
    ensures forall s :: s in signals ==> !s.key.Delivery?
  {
    hide IssuesOk, DeliverySignal, RecordsLate, Apply, Quiet;
    if |signals| > 0 {
      var front, last := signals[..|signals| - 1], signals[|signals| - 1];
      ExternalsSettle(issues, front, idOf, now, os);
      var before, next := ApplyExternals(issues, front, idOf, now).value,
          ApplyExternals(issues, signals, idOf, now).value;
      ApplyQuiets(before, last, idOf, now, false);
      forall s | s in front ensures Quiet(next, s, false) { QuietSurvives(before, next, s, false); }
      forall o | o in os && DeliverySignal(o, now).Some?
        ensures Quiet(next, DeliverySignal(o, now).value, RecordsLate(o, now))
      {
        SignalKey(o, now);
        QuietSurvives(before, next, DeliverySignal(o, now).value, RecordsLate(o, now));
      }
      forall s | s in signals ensures s in front || s == last { }
    }
  }

  // --- The rest of an evaluation --------------------------------------------------------------------

  /** Passes that treat each issue on its own, keeping key and origin, keep what is quiet. */
  lemma EachKeeps(before: seq<Issue>, after: seq<Issue>, s: Signal, createInactive: bool)
    requires IssuesOk(before) && |after| == |before|
    requires forall k :: 0 <= k < |before| ==> after[k].key == before[k].key && after[k].origin == before[k].origin
    requires Quiet(before, s, createInactive)
    requires forall k :: 0 <= k < |before| && before[k].key == s.key ==>
               (Settled(before[k], s) ==> Settled(after[k], s))
    ensures IssuesOk(after) && Quiet(after, s, createInactive)
  {
    hide Settled;
    forall k | 0 <= k < |before| ensures before[k] in before && after[k] in after { }
    forall i | i in after && i.key == s.key ensures Settled(i, s) {
      var k: nat :| k < |after| && after[k] == i;
    }
    if exists i :: i in before && i.key == s.key {
      var i :| i in before && i.key == s.key;
      var k: nat :| k < |before| && before[k] == i;
      assert after[k] in after;
    }
    EachKeepsOk(before, after);
  }

  lemma EachKeepsOk(before: seq<Issue>, after: seq<Issue>)
    requires IssuesOk(before) && |after| == |before|
    requires forall k :: 0 <= k < |before| ==> after[k].key == before[k].key && after[k].origin == before[k].origin
    ensures IssuesOk(after)
  {
    forall i | i in after && i.key.Delivery? ensures i.origin == Calendared {
      var k: nat :| k < |after| && after[k] == i;
      assert before[k] in before;
    }
  }

  lemma RetireKeeps(issues: seq<Issue>, signals: seq<Signal>, now: int, s: Signal, createInactive: bool)
    requires IssuesOk(issues) && Quiet(issues, s, createInactive)
    requires Listed(signals, s.key) || s.key.Delivery?
    ensures IssuesOk(RetireAll(issues, signals, now)) && Quiet(RetireAll(issues, signals, now), s, createInactive)
  {
    hide Quiet, Settled, Update, Listed;
    var after := RetireAll(issues, signals, now);
    forall k | 0 <= k < |issues|
      ensures after[k].key == issues[k].key && after[k].origin == issues[k].origin
      ensures issues[k].key == s.key ==> after[k] == issues[k]
    {
      UpdateKeepsKey(issues[k], RetireSignal(issues[k]), now);
      assert issues[k] in issues;
    }
    hide Retired, RetireAll;
    EachKeeps(issues, after, s, createInactive);
  }

  lemma WakeKeeps(issues: seq<Issue>, now: int, s: Signal, createInactive: bool)
    requires IssuesOk(issues) && Quiet(issues, s, createInactive)
    ensures IssuesOk(WakeAll(issues, now)) && Quiet(WakeAll(issues, now), s, createInactive)
  {
    var after := WakeAll(issues, now);
    forall k | 0 <= k < |issues| && Settled(issues[k], s) ensures Settled(after[k], s) {
      SettledStays(issues[k], s, now);
    }
    hide Quiet, Settled, IssuesOk;
    EachKeeps(issues, after, s, createInactive);
  }

  /** Nothing left to retire, and nobody left to wake. */
  ghost predicate AllRetired(issues: seq<Issue>, signals: seq<Signal>) {
    forall i :: i in issues ==> !Unreported(i, signals)
  }

  ghost predicate AllAwake(issues: seq<Issue>, now: int) { forall i :: i in issues ==> !Wakes(i, now) }

  lemma RetiringOnce(issues: seq<Issue>, signals: seq<Signal>, now: int)
    ensures AllRetired(RetireAll(issues, signals, now), signals)
    ensures AllRetired(issues, signals) ==> RetireAll(issues, signals, now) == issues
  {
    hide Listed;
    var after := RetireAll(issues, signals, now);
    forall i | i in after ensures !Unreported(i, signals) {
      var k: nat :| k < |after| && after[k] == i;
      assert after[k] == Retired(issues[k], signals, now);
    }
    if AllRetired(issues, signals) {
      forall k | 0 <= k < |issues| ensures after[k] == issues[k] { assert issues[k] in issues; }
    }
  }

  lemma WakingOnce(issues: seq<Issue>, signals: seq<Signal>, now: int)
    ensures AllAwake(WakeAll(issues, now), now)
    ensures AllAwake(issues, now) ==> WakeAll(issues, now) == issues
    ensures AllRetired(issues, signals) ==> AllRetired(WakeAll(issues, now), signals)
  {
    hide Listed;
    var after := WakeAll(issues, now);
    forall i | i in after ensures !Wakes(i, now) && (AllRetired(issues, signals) ==> !Unreported(i, signals)) {
      var k: nat :| k < |after| && after[k] == i;
      assert after[k] == Woken(issues[k], now) && issues[k] in issues;
    }
    if AllAwake(issues, now) {
      forall k | 0 <= k < |issues| ensures after[k] == issues[k] { assert issues[k] in issues; }
    }
  }

  /** Every signal of the evaluation is quiet, nothing is left to retire and nobody to wake. */
  ghost predicate AtRest(issues: seq<Issue>, os: seq<Occurrence>, signals: seq<Signal>, complete: bool, now: int) {
    && IssuesOk(issues) && DeliveriesQuiet(issues, os, now) && ExternalsQuiet(issues, signals)
    && (complete ==> AllRetired(issues, signals)) && AllAwake(issues, now)
  }

  lemma ReviewComesToRest(issues: seq<Issue>, os: seq<Occurrence>, signals: seq<Signal>, complete: bool,
                          idOf: Key -> int, now: int)
    requires IssuesOk(issues) && forall i, j :: 0 <= i < j < |os| ==> os[i].id != os[j].id
    requires Reviewed(issues, os, signals, complete, idOf, now).Ok?
    ensures AtRest(Reviewed(issues, os, signals, complete, idOf, now).value, os, signals, complete, now)
  {
    hide ApplyDeliveries, ApplyExternals, RetireAll, WakeAll, IssuesOk, DeliveriesQuiet, ExternalsQuiet, AllRetired,
         AllAwake;
    DeliveriesSettle(issues, os, idOf, now);
    var a := ApplyDeliveries(issues, os, idOf, now).value;
    ExternalsSettle(a, signals, idOf, now, os);
    var b := ApplyExternals(a, signals, idOf, now).value;
    var c := if complete then RetireAll(b, signals, now) else b;
    if complete {
      RetireRests(b, signals, now, os);
      RetiringOnce(b, signals, now);
    }
    WakeRests(c, signals, now, os);
    WakingOnce(c, signals, now);
  }

  lemma RetireRests(issues: seq<Issue>, signals: seq<Signal>, now: int, os: seq<Occurrence>)
    requires IssuesOk(issues) && DeliveriesQuiet(issues, os, now) && ExternalsQuiet(issues, signals)
    ensures var c := RetireAll(issues, signals, now);
            IssuesOk(c) && DeliveriesQuiet(c, os, now) && ExternalsQuiet(c, signals)
  {
    hide RetireAll, Quiet, DeliverySignal, RecordsLate, IssuesOk;
    forall o | o in os && DeliverySignal(o, now).Some?
      ensures Quiet(RetireAll(issues, signals, now), DeliverySignal(o, now).value, RecordsLate(o, now))
    {
      SignalKey(o, now);
      RetireKeeps(issues, signals, now, DeliverySignal(o, now).value, RecordsLate(o, now));
    }
    forall s | s in signals ensures Quiet(RetireAll(issues, signals, now), s, false) {
      assert Listed(signals, s.key);
      RetireKeeps(issues, signals, now, s, false);
    }
    RetireOk(issues, signals, now);
  }

  lemma RetireOk(issues: seq<Issue>, signals: seq<Signal>, now: int)
    requires IssuesOk(issues)
    ensures IssuesOk(RetireAll(issues, signals, now))
  {
    hide IssuesOk, Update, Listed;
    forall k | 0 <= k < |issues| { UpdateKeepsKey(issues[k], RetireSignal(issues[k]), now); }
    EachKeepsOk(issues, RetireAll(issues, signals, now));
  }

  lemma WakeRests(issues: seq<Issue>, signals: seq<Signal>, now: int, os: seq<Occurrence>)
    requires IssuesOk(issues) && DeliveriesQuiet(issues, os, now) && ExternalsQuiet(issues, signals)
    ensures var c := WakeAll(issues, now);
            IssuesOk(c) && DeliveriesQuiet(c, os, now) && ExternalsQuiet(c, signals)
  {
    EachKeepsOk(issues, WakeAll(issues, now));
    hide WakeAll, Quiet, DeliverySignal, RecordsLate, IssuesOk;
    forall o | o in os && DeliverySignal(o, now).Some?
      ensures Quiet(WakeAll(issues, now), DeliverySignal(o, now).value, RecordsLate(o, now))
    {
      WakeKeeps(issues, now, DeliverySignal(o, now).value, RecordsLate(o, now));
    }
    forall s | s in signals ensures Quiet(WakeAll(issues, now), s, false) { WakeKeeps(issues, now, s, false); }
  }

  lemma {:induction false} QuietDeliveries(issues: seq<Issue>, os: seq<Occurrence>, idOf: Key -> int, now: int)
    requires DeliveriesQuiet(issues, os, now)
    ensures ApplyDeliveries(issues, os, idOf, now) == Ok(issues)
  {
    hide DeliverySignal, RecordsLate, Quiet, Apply;
    if |os| > 0 {
      var last := os[|os| - 1];
      assert last in os && forall o :: o in os[..|os| - 1] ==> o in os;
      QuietDeliveries(issues, os[..|os| - 1], idOf, now);
      if DeliverySignal(last, now).Some? {
        QuietIsNoOp(issues, DeliverySignal(last, now).value, idOf, now, RecordsLate(last, now));
      }
    }
  }

  /** Externals that passed once pass again without effect. */
  lemma {:induction false} QuietExternals(first: seq<Issue>, issues: seq<Issue>, signals: seq<Signal>,
                                          idOf: Key -> int, now: int)
    requires ApplyExternals(first, signals, idOf, now).Ok? && ExternalsQuiet(issues, signals)
    ensures ApplyExternals(issues, signals, idOf, now) == Ok(issues)
  {
    hide Quiet, Apply, Listed;
    if |signals| > 0 {
      var last := signals[|signals| - 1];
      assert last in signals && forall s :: s in signals[..|signals| - 1] ==> s in signals;
      QuietExternals(first, issues, signals[..|signals| - 1], idOf, now);
      QuietIsNoOp(issues, last, idOf, now, false);
    }
  }

  /** Reviewing again, over the same occurrences in any order, changes no exception and no history. */
  lemma ReviewIsIdempotent(first: seq<Issue>, os: seq<Occurrence>, again: seq<Occurrence>, signals: seq<Signal>,
                           complete: bool, idOf: Key -> int, now: int)
    requires IssuesOk(first) && forall i, j :: 0 <= i < j < |os| ==> os[i].id != os[j].id
    requires Reviewed(first, os, signals, complete, idOf, now).Ok?
    requires forall o :: o in again ==> o in os
    ensures var issues := Reviewed(first, os, signals, complete, idOf, now).value;
            Reviewed(issues, again, signals, complete, idOf, now) == Ok(issues)
  {
    ReviewComesToRest(first, os, signals, complete, idOf, now);
    var issues := Reviewed(first, os, signals, complete, idOf, now).value;
    hide ApplyDeliveries, ApplyExternals, RetireAll, WakeAll, Quiet, DeliverySignal, RecordsLate, AllRetired, AllAwake;
    assert DeliveriesQuiet(issues, again, now);
    QuietDeliveries(issues, again, idOf, now);
    QuietExternals(ApplyDeliveries(first, os, idOf, now).value, issues, signals, idOf, now);
    RetiringOnce(issues, signals, now);
    WakingOnce(issues, signals, now);
  }

  // --- A whole evaluation -----------------------------------------------------------------------------

  lemma {:induction false} PassOverKnown(clock: Clock, r: Range, dues: seq<Due>, p: Pass)
    requires forall d :: d in dues ==> DueOk(d)
    requires forall d :: d in dues && d.start >= r.from ==> Known(p.occurrences, OccurrenceId(d.scheduleId, d.start))
    requires |dues| > 0 ==> p.considered + |dues| <= MAX_CONSIDERED
    ensures ConsiderAll(clock, r, dues, p) == Ok(p.(considered := p.considered + |dues|))
  {
    if |dues| > 0 {
      assert dues[0] in dues && forall d :: d in dues[1..] ==> d in dues;
      hide Known, DueOk;
      PassOverKnown(clock, r, dues[1..], p.(considered := p.considered + 1));
    }
  }

  /** Everything due is on record after a catch-up, so repeating it adds nothing. */
  lemma MaterialisingAgain(clock: Clock, ss: seq<Schedule>, os: seq<Occurrence>, again: seq<Occurrence>, r: Range)
    requires SchedulesOk(ss) && OccurrencesOk(clock, ss, os)
    requires forall s :: s in ss ==> s.versions != [] && VersionsShaped(s)
    requires Materialised(clock, ss, os, r).Ok?
    requires forall o :: o in again <==> o in Materialised(clock, ss, os, r).value
    ensures Materialised(clock, ss, again, r) == Ok(again)
  {
    MaterialisedKeeps(clock, ss, os, r);
    var dues := AllDues(clock, r, ss);
    PassCounts(clock, r, dues, Pass(0, 0, os));
    hide SchedulesOk, OccurrencesOk, ConsiderAll;
    forall d | d in dues && d.start >= r.from ensures Known(again, OccurrenceId(d.scheduleId, d.start)) {
      assert OccurrenceId(d.scheduleId, d.start) in DueIds(dues, r.from);
      var o :| o in Materialised(clock, ss, os, r).value && o.id == OccurrenceId(d.scheduleId, d.start);
      assert o in again;
    }
    PassOverKnown(clock, r, dues, Pass(0, 0, again));
  }

  function IdOf(o: Occurrence): OccurrenceId { o.id }

  lemma SortedKeeps(clock: Clock, h: Handles, ss: seq<Schedule>, os: seq<Occurrence>)
    requires OccurrencesOk(clock, ss, os)
    ensures OccurrencesOk(clock, ss, Sort(os, Earlier(h)))
    ensures Sort(Sort(os, Earlier(h)), Earlier(h)) == Sort(os, Earlier(h))
  {
    hide Owned;
    SortDistinctBy(os, Earlier(h), IdOf);
    SortIsSorted(os, Earlier(h));
    SortSorted(Sort(os, Earlier(h)), Earlier(h));
    var sorted := Sort(os, Earlier(h));
    forall i, j | 0 <= i < j < |sorted| ensures sorted[i].id != sorted[j].id {
      assert IdOf(sorted[i]) != IdOf(sorted[j]);
    }
  }

  /** An evaluation keeps the invariant, and no schedule version ever splits a period. */
  lemma EvaluatedKeeps(clock: Clock, h: Handles, s: State, o: Options)
    requires StateOk(clock, s)
    ensures forall x :: x in s.schedules ==> x.versions != [] && VersionsShaped(x)
    ensures Evaluated(clock, h, s, o) != Err(Period(SplitsPeriod))
    ensures Evaluated(clock, h, s, o).Ok? ==> StateOk(clock, Evaluated(clock, h, s, o).value)
  {
    SchedulesReadable(s.schedules);
    MaterialisedKeeps(clock, s.schedules, s.occurrences, o.range);
    var os := Materialised(clock, s.schedules, s.occurrences, o.range);
    if os.Ok? {
      hide Materialised, SchedulesOk, IssuesOk, Reviewed, WithinLimits;
      SortedKeeps(clock, h, s.schedules, os.value);
      assert forall i, j :: 0 <= i < j < |os.value| ==> os.value[i].id != os.value[j].id;
      hide OccurrencesOk;
      if Reviewed(s.exceptions, os.value, o.signals, o.complete, h.idOf, o.range.now).Ok? {
        ReviewComesToRest(s.exceptions, os.value, o.signals, o.complete, h.idOf, o.range.now);
      }
    }
  }

  /** Evaluating twice with the same options is evaluating once: occurrences, exceptions and histories. */
  lemma EvaluationIsIdempotent(clock: Clock, h: Handles, s: State, o: Options)
    requires StateOk(clock, s)
    requires forall x :: x in s.schedules ==> x.versions != [] && VersionsShaped(x)
    requires Evaluated(clock, h, s, o).Ok?
    ensures var next := Evaluated(clock, h, s, o).value;
            next.schedules == s.schedules && Evaluated(clock, h, next, o) == Ok(next)
  {
    var os := Materialised(clock, s.schedules, s.occurrences, o.range).value;
    var next := Evaluated(clock, h, s, o).value;
    MaterialisedKeeps(clock, s.schedules, s.occurrences, o.range);
    MaterialisingAgain(clock, s.schedules, s.occurrences, next.occurrences, o.range);
    assert forall i, j :: 0 <= i < j < |os| ==> os[i].id != os[j].id;
    hide Materialised, SchedulesOk, IssuesOk, Reviewed, WithinLimits;
    SortedKeeps(clock, h, s.schedules, os);
    hide OccurrencesOk;
    ReviewIsIdempotent(s.exceptions, os, next.occurrences, o.signals, o.complete, h.idOf, o.range.now);
  }

  /** What an evaluation leaves of the calendar: the materialised occurrences, sorted. */
  lemma EvaluatedCalendar(clock: Clock, h: Handles, s: State, o: Options)
    requires StateOk(clock, s) && forall x :: x in s.schedules ==> x.versions != [] && VersionsShaped(x)
    ensures var os := Materialised(clock, s.schedules, s.occurrences, o.range);
            && (Evaluated(clock, h, s, o).Err? && Evaluated(clock, h, s, o).error.Period? <==> os.Err?)
            && (Evaluated(clock, h, s, o).Ok? ==>
                  var next := Evaluated(clock, h, s, o).value;
                  && next.schedules == s.schedules && StateOk(clock, next)
                  && Ids(next.occurrences) == Ids(os.value) && Promises(next.occurrences) == Promises(os.value))
  {
    EvaluatedKeeps(clock, h, s, o);
    hide Materialised, Reviewed, WithinLimits, StateOk;
  }

  /**
   If evaluating straight to the later day succeeds, the calendar fails neither stage of evaluating
   to an earlier day and then to it, and the same obligations result.
   */
  lemma EvaluationsCatchUp(clock: Clock, h: Handles, s: State, o1: Options, o2: Options)
    requires StateOk(clock, s) && Further(clock, o1.range, o2.range)
    requires o1.range.from <= o1.range.through && o1.range.limit == o2.range.limit
    requires forall x :: x in s.schedules ==> x.versions != [] && VersionsShaped(x)
    requires Evaluated(clock, h, s, o2).Ok?
    ensures Evaluated(clock, h, s, o1).Err? ==> !Evaluated(clock, h, s, o1).error.Period?
    ensures Evaluated(clock, h, s, o1).Ok? ==>
              var stage, direct := Evaluated(clock, h, s, o1).value, Evaluated(clock, h, s, o2).value;
              && stage.schedules == s.schedules
              && var staged := Evaluated(clock, h, stage, o2);
              && (staged.Err? ==> !staged.error.Period?)
              && (staged.Ok? ==> staged.value.schedules == direct.schedules
                                 && Promises(staged.value.occurrences) == Promises(direct.occurrences))
  {
    var first, direct := Evaluated(clock, h, s, o1), Evaluated(clock, h, s, o2);
    EvaluatedCalendar(clock, h, s, o1);
    EvaluatedCalendar(clock, h, s, o2);
    hide Materialised, Evaluated, Promises, Ids, Further, SchedulesOk, OccurrencesOk, IssuesOk;
    CatchUp(clock, s.schedules, s.occurrences, o1.range, o2.range);
    if first.Ok? {
      SecondStage(clock, s.schedules, s.occurrences, first.value.occurrences, o1.range, o2.range);
      EvaluatedCalendar(clock, h, first.value, o2);
    }
  }

  // --- Decisions on exceptions --------------------------------------------------------------------------

  const DAY := 86400000

  datatype Action =
    Assign(user: Option<string>) | Prioritise(priority: string) | Snooze(until: int) | Resolve | Waive | Reopen

  datatype ActionError =
    IssueNotFound | NotSnoozable | WakeTimeInvalid | IssueExists | NotManual | HandleCollision | HistoryFull |
    IssuesFull

  function ActionName(a: Action): string {
    match a
    case Assign(_) => "assign" case Prioritise(_) => "priority" case Snooze(_) => "snooze"
    case Resolve => "resolve" case Waive => "waive" case Reopen => "reopen"
  }

  function Decided(i: Issue, a: Action): Issue {
    match a
    case Assign(user) => i.(assignee := user)
    case Prioritise(priority) => i.(priority := priority)
    case Snooze(until) => i.(status := Snoozed, snoozedUntil := Some(until))
    case Resolve => i.(status := Resolved, snoozedUntil := None, resolvedFingerprint := Some(i.fingerprint))
    case Waive => i.(status := Waived, snoozedUntil := None, resolvedFingerprint := Some(i.fingerprint))
    case Reopen => i.(status := Open, snoozedUntil := None, resolvedFingerprint := None)
  }

  /** `actOnReportException`. */
  function Acted(issues: seq<Issue>, key: Key, a: Action, now: int): Result<seq<Issue>, ActionError> {
    var k := FindIssue(issues, key);
    if k.None? then Err(IssueNotFound)
    else
      var i := issues[k.value];
      if a.Snooze? && (!i.sourceActive || i.status in {Resolved, Waived}) then Err(NotSnoozable)
      else if a.Snooze? && (a.until <= now || a.until - now > 366 * DAY) then Err(WakeTimeInvalid)
      else if |i.history| >= MAX_HISTORY then Err(HistoryFull)
      else
        var next := Decided(i, a).(updatedAt := now);
        Ok(issues[k.value := next.(history := next.history + [Entry(now, ActionName(a), i.facts, i.fingerprint)])])
  }

  /** `addManualReportException`. */
  function AddedManually(issues: seq<Issue>, s: Signal, idOf: Key -> int, now: int): Result<seq<Issue>, ActionError> {
    if exists i :: i in issues && i.key == s.key then Err(IssueExists)
    else if s.key.Delivery? then Err(NotManual)
    else
      var r := Apply(issues, s.(origin := Manual, active := true), idOf, now, false);
      if r.Err? then Err(HandleCollision)
      else if |r.value| > MAX_EXCEPTIONS then Err(IssuesFull)
      else Ok(r.value)
  }

  lemma ActedKeeps(issues: seq<Issue>, key: Key, a: Action, now: int)
    requires IssuesOk(issues) && Acted(issues, key, a, now).Ok?
    ensures IssuesOk(Acted(issues, key, a, now).value)
  {
    var k := FindIssue(issues, key).value;
    ReplacedOne(issues, k, Acted(issues, key, a, now).value[k]);
  }

  lemma AddedKeeps(issues: seq<Issue>, s: Signal, idOf: Key -> int, now: int)
    requires IssuesOk(issues) && AddedManually(issues, s, idOf, now).Ok?
    ensures IssuesOk(AddedManually(issues, s, idOf, now).value)
  {
    ApplyQuiets(issues, s.(origin := Manual, active := true), idOf, now, false);
  }

  // --- The object ------------------------------------------------------------------------------------------

  class Book {
    const clock: Clock
    const handles: Handles
    var schedules: seq<Schedule>
    var occurrences: seq<Occurrence>
    var exceptions: seq<Issue>

    function Contents(): State
      reads this
    {
      State(schedules, occurrences, exceptions)
    }

    ghost predicate Valid()
      reads this
    {
      StateOk(clock, Contents())
    }

    constructor (clock: Clock, handles: Handles)
      ensures this.clock == clock && this.handles == handles
      ensures Contents() == State([], [], []) && Valid()
    {
      this.clock, this.handles := clock, handles;
      schedules, occurrences, exceptions := [], [], [];
    }

    method CreateSchedule(id: string, d: Definition) returns (failure: Option<Error>)
      requires Valid()
      modifies this
      ensures Valid()
      ensures var r := Created(old(schedules), id, d);
              && failure == (if r.Ok? then None else Some(r.error))
              && Contents() == old(Contents()).(schedules := if r.Ok? then r.value else old(schedules))
    {
      var r := Created(schedules, id, d);
      if r.Err? { return Some(r.error); }
      CreatedKeeps(clock, schedules, occurrences, id, d);
      hide SchedulesOk, OccurrencesOk, IssuesOk, Created;
      schedules := r.value;
      return None;
    }

    method ReviseSchedule(id: string, d: Definition, effectiveFrom: nat, paused: bool, now: int)
      returns (failure: Option<Error>)
      requires Valid()
      modifies this
      ensures Valid()
      ensures forall x :: x in old(schedules) ==> x.versions != []
      ensures var r := Revised(old(schedules), old(occurrences), id, d, effectiveFrom, paused,
                               clock.localDate(now, d.timezone));
              && failure == (if r.Ok? then None else Some(r.error))
              && Contents() == old(Contents()).(schedules := if r.Ok? then r.value else old(schedules))
    {
      SchedulesReadable(schedules);
      var r := Revised(schedules, occurrences, id, d, effectiveFrom, paused, clock.localDate(now, d.timezone));
      if r.Err? { return Some(r.error); }
      RevisedKeeps(clock, schedules, occurrences, id, d, effectiveFrom, paused, clock.localDate(now, d.timezone));
      hide SchedulesOk, OccurrencesOk, IssuesOk, Revised;
      schedules := r.value;
      return None;
    }

    /** All or nothing: either the whole evaluation, or no change. */
    method Evaluate(o: Options) returns (failure: Option<Failure>)
      requires Valid()
      modifies this
      ensures Valid()
      ensures forall x :: x in old(schedules) ==> x.versions != [] && VersionsShaped(x)
      ensures var r := Evaluated(clock, handles, old(Contents()), o);
              && failure == (if r.Ok? then None else Some(r.error))
              && Contents() == (if r.Ok? then r.value else old(Contents()))
      ensures failure != Some(Period(SplitsPeriod))
    {
      EvaluatedKeeps(clock, handles, Contents(), o);
      var next := Plan(o);
      if next.Err? { return Some(next.error); }
      hide StateOk, Evaluated;
      assert next.value.schedules == schedules by { EvaluatedSchedules(clock, handles, Contents(), o); }
      occurrences, exceptions := next.value.occurrences, next.value.exceptions;
      return None;
    }

    /** The evaluation on copies, as far as its result. */
    method Plan(o: Options) returns (r: Result<State, Failure>)
      requires Valid()
      requires forall x :: x in schedules ==> x.versions != [] && VersionsShaped(x)
      ensures r == Evaluated(clock, handles, Contents(), o)
    {
      MaterialisedKeeps(clock, schedules, occurrences, o.range);
      assert IssuesOk(exceptions);
      hide Materialised, Reviewed, SchedulesOk, OccurrencesOk, IssuesOk, VersionsShaped, Ids, DueIds, AllDues,
           WithinLimits;
      var os := Materialise(clock, schedules, occurrences, o.range);
      if os.Err? { return Err(Period(os.error)); }
      var issues := ReviewAll(os.value, o);
      if issues.Err? { return Err(Issues(issues.error)); }
      var next := State(schedules, Sort(os.value, Earlier(handles)), issues.value);
      return if WithinLimits(next) then Ok(next) else Err(SchemaLimit);
    }

    method ReviewAll(os: seq<Occurrence>, o: Options) returns (r: Result<seq<Issue>, SignalError>)
      requires IssuesOk(exceptions) && OccurrencesOk(clock, schedules, os)
      ensures r == Reviewed(exceptions, os, o.signals, o.complete, handles.idOf, o.range.now)
    {
      hide ApplyDeliveries, ApplyExternals, RetireAll, WakeAll, IssuesOk, Owned;
      var a := ReviewDeliveries(exceptions, os, handles.idOf, o.range.now);
      if a.Err? { return a; }
      DeliveriesSettle(exceptions, os, handles.idOf, o.range.now);
      var b, seen := ReviewExternals(a.value, o.signals, handles.idOf, o.range.now);
      if b.Err? { return b; }
      ExternalsSettle(a.value, o.signals, handles.idOf, o.range.now, os);
      var issues := b.value;
      if o.complete {
        KeysDistinct(issues);
        issues := RetireUnreported(issues, o.signals, seen, handles.idOf, o.range.now);
      }
      issues := WakeSnoozed(issues, o.range.now);
      return Ok(issues);
    }

    method ActOnException(key: Key, a: Action, now: int) returns (failure: Option<ActionError>)
      requires Valid()
      modifies this
      ensures Valid()
      ensures var r := Acted(old(exceptions), key, a, now);
              && failure == (if r.Ok? then None else Some(r.error))
              && Contents() == old(Contents()).(exceptions := if r.Ok? then r.value else old(exceptions))
    {
      var r := Acted(exceptions, key, a, now);
      if r.Err? { return Some(r.error); }
      ActedKeeps(exceptions, key, a, now);
      hide SchedulesOk, OccurrencesOk, IssuesOk, Acted;
      exceptions := r.value;
      return None;
    }

    method AddManualException(s: Signal, now: int) returns (failure: Option<ActionError>)
      requires Valid()
      modifies this
      ensures Valid()
      ensures var r := AddedManually(old(exceptions), s, handles.idOf, now);
              && failure == (if r.Ok? then None else Some(r.error))
              && Contents() == old(Contents()).(exceptions := if r.Ok? then r.value else old(exceptions))
    {
      var r := AddedManually(exceptions, s, handles.idOf, now);
      if r.Err? { return Some(r.error); }
      AddedKeeps(exceptions, s, handles.idOf, now);
      hide SchedulesOk, OccurrencesOk, IssuesOk, AddedManually;
      exceptions := r.value;
      return None;
    }
  }

  lemma EvaluatedSchedules(clock: Clock, h: Handles, s: State, o: Options)
    requires forall x :: x in s.schedules ==> x.versions != [] && VersionsShaped(x)
    requires Evaluated(clock, h, s, o).Ok?
    ensures Evaluated(clock, h, s, o).value.schedules == s.schedules
  {
    hide Materialised, Reviewed, WithinLimits;
  }

  lemma KeysDistinct(issues: seq<Issue>)
    requires IssuesOk(issues)
    ensures DistinctKeys(issues)
  {
  }
}
