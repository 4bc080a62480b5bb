/**
 What an evaluation says about each report that is owed (lib/report-obligations.ts,
 `summarizeReportOccurrence`, `deliverySignal`, `applySignal`): from its deadline, its receipts and
 its disposition alone, whether its exception opens, stays, closes or is never created.
 */
module DeliveryReview {
  import opened Common
  import opened Obligations
  import opened ObligationPeriods
  import opened Exceptions
  import opened ObligationBook

  // --- When a report arrived ------------------------------------------------------------------

  ghost predicate Arrived(o: Occurrence) { exists r :: r in o.receipts && r.matched }

  /** The earliest matched receipt. */
  ghost predicate FirstAt(o: Occurrence, t: int) {
    && (exists r :: r in o.receipts && r.matched && r.receivedAt == t)
    && forall r :: r in o.receipts && r.matched ==> t <= r.receivedAt
  }

  lemma {:induction false} FirstReceivedIs(rs: seq<Receipt>)
    ensures FirstReceived(rs).None? <==> forall r :: r in rs ==> !r.matched
    ensures FirstReceived(rs).Some? ==>
              && (exists r :: r in rs && r.matched && r.receivedAt == FirstReceived(rs).value)
              && forall r :: r in rs && r.matched ==> FirstReceived(rs).value <= r.receivedAt
  {
    if |rs| > 0 {
      var front, last := rs[..|rs| - 1], rs[|rs| - 1];
      FirstReceivedIs(front);
      assert rs == front + [last] && last in rs;
    }
  }

  /** Nothing arrived, nobody excused it, and the grace period is over. */
  ghost predicate IsMissing(o: Occurrence, now: int) { o.disposition.None? && !Arrived(o) && now > o.graceEndsAt }

  /** Nothing arrived and nobody excused it, but there is still time. */
  ghost predicate IsAwaited(o: Occurrence, now: int) { o.disposition.None? && !Arrived(o) && now <= o.graceEndsAt }

  ghost predicate IsLate(o: Occurrence) { o.disposition.None? && exists t :: FirstAt(o, t) && t > o.dueAt }

  ghost predicate IsOnTime(o: Occurrence) { o.disposition.None? && exists t :: FirstAt(o, t) && t <= o.dueAt }

  /** The four cases, and being excused, leave no gap and no overlap. */
  lemma DeliveryIs(o: Occurrence, now: int)
    ensures var told := DeliveredAs(o, now);
            && (told.None? <==> IsAwaited(o, now))
            && (told == Some(Missing) <==> IsMissing(o, now))
            && (told.Some? && told.value.ReceivedLate? <==> IsLate(o))
            && (told == Some(Received) <==> IsOnTime(o))
            && (told.Some? && told.value.Disposed? <==> o.disposition.Some?)
            && (told.Some? && told.value.Disposed? ==> told.value.disposition == o.disposition.value)
    ensures IsLate(o) ==> exists t :: FirstAt(o, t) && HoursAfter(DeliveredAs(o, now).value.hours, o.dueAt, t)
  {
    FirstReceivedIs(o.receipts);
    hide FirstReceived;
    var first := FirstReceived(o.receipts);
    if first.Some? {
      assert FirstAt(o, first.value);
      forall t | FirstAt(o, t) ensures t == first.value { OneFirst(o, t, first.value); }
      if first.value > o.dueAt { WholeHours(o.dueAt, first.value); }
    } else {
      forall t ensures !FirstAt(o, t) { }
    }
  }

  lemma OneFirst(o: Occurrence, t: int, u: int)
    requires FirstAt(o, t) && FirstAt(o, u)
    ensures t == u
  {
  }

  /** The whole hours that cover the time from one instant to a later one. */
  ghost predicate HoursAfter(hours: int, due: int, at: int) { (hours - 1) * HOUR < at - due <= hours * HOUR }

  lemma WholeHours(due: int, at: int)
    ensures HoursAfter(CeilHours(at - due), due, at)
  {
  }

  // --- One key through the passes of an evaluation ---------------------------------------------

  function IssueOf(issues: seq<Issue>, key: Key): Option<Issue> {
    var k := FindIssue(issues, key);
    if k.Some? then Some(issues[k.value]) else None
  }

  lemma IssueIs(issues: seq<Issue>, key: Key, i: Issue)
    requires DistinctKeys(issues)
    ensures IssueOf(issues, key) == Some(i) <==> i in issues && i.key == key
    ensures IssueOf(issues, key).None? <==> forall j :: j in issues ==> j.key != key
  {
    if i in issues && i.key == key {
      var k: nat :| k < |issues| && issues[k] == i;
      FindsByIndex(issues, k);
    }
  }

  /** What one signal makes of the issue with its key. */
  function Told(i: Option<Issue>, s: Signal, id: int, now: int, createInactive: bool): Option<Issue> {
    if i.Some? then Some(Update(i.value, s, now))
    else if !s.active && !createInactive then None
    else Some(NewIssue(s, id, now))
  }

  lemma ApplyTells(issues: seq<Issue>, s: Signal, idOf: Key -> int, now: int, createInactive: bool, key: Key)
    requires DistinctKeys(issues) && Apply(issues, s, idOf, now, createInactive).Ok?
    ensures var next := Apply(issues, s, idOf, now, createInactive).value;
            && DistinctKeys(next)
            && IssueOf(next, key) == if key == s.key
              then Told(IssueOf(issues, key), s, idOf(s.key), now, createInactive)
                                     else IssueOf(issues, key)
  {
    hide Update, NewIssue;
    var k, next := FindIssue(issues, s.key), Apply(issues, s, idOf, now, createInactive).value;
    if k.Some? {
      UpdateKeepsKey(issues[k.value], s, now);
      ReplacedTells(issues, k.value, Update(issues[k.value], s, now), key);
      FindsByIndex(issues, k.value);
    } else if next != issues {
      NewKey(s, idOf(s.key), now);
      AddedTells(issues, NewIssue(s, idOf(s.key), now), key);
    }
  }

  lemma NewKey(s: Signal, id: int, now: int)
    ensures NewIssue(s, id, now).key == s.key
  {
  }

  lemma ReplacedTells(issues: seq<Issue>, k: nat, i: Issue, key: Key)
    requires DistinctKeys(issues) && k < |issues| && i.key == issues[k].key
    ensures DistinctKeys(issues[k := i])
    ensures IssueOf(issues[k := i], key) == if key == i.key then Some(i) else IssueOf(issues, key)
  {
    var next := issues[k := i];
    assert next[k] == i;
    var j := FindIssue(issues, key);
    if key == i.key {
      FindsByIndex(next, k);
    } else if j.Some? {
      assert next[j.value] == issues[j.value];
      FindsByIndex(next, j.value);
    } else {
      forall x | x in next ensures x.key != key {
        var m: nat :| m < |next| && next[m] == x;
        assert issues[m] in issues;
      }
    }
  }

  lemma AddedTells(issues: seq<Issue>, i: Issue, key: Key)
    requires DistinctKeys(issues) && forall x :: x in issues ==> x.key != i.key
    ensures DistinctKeys(issues + [i])
    ensures IssueOf(issues + [i], key) == if key == i.key then Some(i) else IssueOf(issues, key)
  {
    var next := issues + [i];
    forall a, b | 0 <= a < b < |next| ensures next[a].key != next[b].key {
      if b == |issues| { assert issues[a] in issues; }
    }
    var j := FindIssue(issues, key);
    if key == i.key {
      assert next[|issues|] == i;
      FindsByIndex(next, |issues|);
    } else if j.Some? {
      assert next[j.value] == issues[j.value];
      FindsByIndex(next, j.value);
    }
  }

  /** What the delivery pass makes of an occurrence's own issue. */
  function Delivered1(i: Option<Issue>, o: Occurrence, idOf: Key -> int, now: int): Option<Issue> {
    var s := DeliverySignal(o, now);
    if s.None? then i else Told(i, s.value, idOf(s.value.key), now, RecordsLate(o, now))
  }

  /** The pass reaches each occurrence's issue once, and no other delivery issue. */
  lemma {:induction false} DeliveriesTell(issues: seq<Issue>, os: seq<Occurrence>, idOf: Key -> int, now: int, key: Key)
    requires DistinctKeys(issues) && ApplyDeliveries(issues, os, idOf, now).Ok?
    requires forall i, j :: 0 <= i < j < |os| ==> os[i].id != os[j].id
    ensures var next := ApplyDeliveries(issues, os, idOf, now).value;
            && DistinctKeys(next)
            && ((forall o :: o in os ==> key != Delivery(o.id)) ==> IssueOf(next, key) == IssueOf(issues, key))
            && forall o :: o in os && key == Delivery(o.id) ==>
                             IssueOf(next, key) == Delivered1(IssueOf(issues, key), o, idOf, now)
  {
    hide DistinctKeys, DeliverySignal, RecordsLate, Apply, IssueOf, Told;
    if |os| > 0 {
      var front, last := os[..|os| - 1], os[|os| - 1];
      assert os == front + [last] && last in os;
      DeliveriesTell(issues, front, idOf, now, key);
      var before := ApplyDeliveries(issues, front, idOf, now).value;
      SignalKey(last, now);
      if DeliverySignal(last, now).Some? {
        ApplyTells(before, DeliverySignal(last, now).value, idOf, now, RecordsLate(last, now), key);
      }
      forall o | o in front ensures o.id != last.id {
        var k: nat :| k < |front| && front[k] == o;
        assert os[k].id != os[|os| - 1].id;
      }
    }
  }

  /** External signals leave delivery issues alone. */
  lemma {:induction false} ExternalsTell(issues: seq<Issue>, signals: seq<Signal>, idOf: Key -> int, now: int, key: Key)
    requires DistinctKeys(issues) && ApplyExternals(issues, signals, idOf, now).Ok?
    ensures var next := ApplyExternals(issues, signals, idOf, now).value;
            && DistinctKeys(next)
            && (!Listed(signals, key) ==> IssueOf(next, key) == IssueOf(issues, key))
            && (forall s :: s in signals && s.key == key ==>
                              IssueOf(next, key) == Told(IssueOf(issues, key), s, idOf(key), now, false))
    ensures forall s :: s in signals ==> !s.key.Delivery? && s.origin != Calendared
    ensures forall i, j :: 0 <= i < j < |signals| ==> signals[i].key != signals[j].key
  {
    hide DistinctKeys, Apply, IssueOf, Told;
    if |signals| > 0 {
      var front, last := signals[..|signals| - 1], signals[|signals| - 1];
      assert signals == front + [last] && last in signals;
      ExternalsTell(issues, front, idOf, now, key);
      var before := ApplyExternals(issues, front, idOf, now).value;
      ApplyTells(before, last, idOf, now, false, key);
      ListedSnoc(front, last);
      forall i | 0 <= i < |front| ensures front[i].key != last.key {
        assert front[i] in front;
      }
    }
  }

  /** A pass that treats each issue on its own, keeping keys, treats the issue with a key so. */
  lemma EachTells(before: seq<Issue>, after: seq<Issue>, key: Key)
    requires DistinctKeys(before) && |after| == |before|
    requires forall k :: 0 <= k < |before| ==> after[k].key == before[k].key
    ensures DistinctKeys(after)
    ensures IssueOf(after, key).Some? <==> IssueOf(before, key).Some?
    ensures IssueOf(before, key).Some? ==>
              exists k: nat :: k < |before| && IssueOf(before, key) == Some(before[k])
                  && IssueOf(after, key) == Some(after[k])
  {
    var k := FindIssue(before, key);
    if k.Some? {
      FindsByIndex(after, k.value);
    } else {
      forall x | x in after ensures x.key != key {
        var m: nat :| m < |after| && after[m] == x;
        assert before[m] in before;
      }
    }
  }

  lemma RetireTells(issues: seq<Issue>, signals: seq<Signal>, now: int, key: Key)
    requires DistinctKeys(issues)
    ensures var next := RetireAll(issues, signals, now);
            && DistinctKeys(next)
            && IssueOf(next, key) == if IssueOf(issues, key).None? then None
                                     else Some(Retired(IssueOf(issues, key).value, signals, now))
  {
    hide Update, Listed;
    var next := RetireAll(issues, signals, now);
    forall k | 0 <= k < |issues| ensures next[k].key == issues[k].key {
      UpdateKeepsKey(issues[k], RetireSignal(issues[k]), now);
    }
    hide Retired;
    EachTells(issues, next, key);
  }

  lemma WakeTells(issues: seq<Issue>, now: int, key: Key)
    requires DistinctKeys(issues)
    ensures var next := WakeAll(issues, now);
            && DistinctKeys(next)
            && IssueOf(next, key) ==
               if IssueOf(issues, key).None? then None else Some(Woken(IssueOf(issues, key).value, now))
  {
    EachTells(issues, WakeAll(issues, now), key);
  }

  function WokenIf(i: Option<Issue>, now: int): Option<Issue> { if i.None? then None else Some(Woken(i.value, now)) }

  /** An evaluation tells an occurrence's issue what its delivery says, and then wakes it if that is due. */
  lemma ReviewTells(issues: seq<Issue>, os: seq<Occurrence>, signals: seq<Signal>, complete: bool, idOf: Key -> int,
                    now: int, o: Occurrence)
    requires IssuesOk(issues) && (forall i, j :: 0 <= i < j < |os| ==> os[i].id != os[j].id) && o in os
    requires Reviewed(issues, os, signals, complete, idOf, now).Ok?
    ensures var key, next := Delivery(o.id), Reviewed(issues, os, signals, complete, idOf, now).value;
            && DistinctKeys(next)
            && IssueOf(next, key) == WokenIf(Delivered1(IssueOf(issues, key), o, idOf, now), now)
  {
    hide ApplyDeliveries, ApplyExternals, RetireAll, WakeAll, Woken, Delivered1, DistinctKeys, Listed, FindIssue,
         DeliveriesQuiet, ExternalsQuiet;
    var key := Delivery(o.id);
    DeliveriesTell(issues, os, idOf, now, key);
    DeliveriesSettle(issues, os, idOf, now);
    var a := ApplyDeliveries(issues, os, idOf, now).value;
    ExternalsTell(a, signals, idOf, now, key);
    ExternalsSettle(a, signals, idOf, now, os);
    NotListed(signals, key);
    var b := ApplyExternals(a, signals, idOf, now).value;
    if complete {
      RetireTells(b, signals, now, key);
      DeliveryNotRetired(b, key, signals, now);
    }
    WakeTells(if complete then RetireAll(b, signals, now) else b, now, key);
  }

  lemma NotListed(signals: seq<Signal>, key: Key)
    requires key.Delivery? && forall s :: s in signals ==> !s.key.Delivery?
    ensures !Listed(signals, key)
  {
  }

  lemma DeliveryNotRetired(issues: seq<Issue>, key: Key, signals: seq<Signal>, now: int)
    requires IssuesOk(issues) && key.Delivery?
    ensures IssueOf(issues, key).Some? ==>
              Retired(IssueOf(issues, key).value, signals, now) == IssueOf(issues, key).value
  {
    hide Update, Listed;
    if IssueOf(issues, key).Some? { assert IssueOf(issues, key).value in issues; }
  }

  // --- What becomes of an occurrence's exception -------------------------------------------------

  /** Identity, decisions and recorded history outlive any review; a change of status is recorded. */
  ghost predicate Continues(j: Issue, i: Issue, now: int) {
    && i.key == j.key && i.id == j.id && i.assignee == j.assignee && i.priority == j.priority && i.origin == j.origin
    && i.createdAt == j.createdAt && j.history <= i.history && (i.status != j.status ==> j.history < i.history)
    && (forall k :: |j.history| <= k < |i.history| ==> i.history[k].at == now)
    && i.snoozedUntil == (if i.status == j.status then j.snoozedUntil else None)
    && i.updatedAt == (if Differs(j, i) then now else j.updatedAt)
  }

  ghost predicate Differs(j: Issue, i: Issue) {
    i.status != j.status || i.facts != j.facts || i.fingerprint != j.fingerprint || i.sourceActive != j.sourceActive
  }

  ghost predicate SnoozeOver(j: Issue, now: int) {
    j.status == Snoozed && j.snoozedUntil.Some? && j.snoozedUntil.value <= now
  }

  function Fact0(i: Issue, f: Field): Option<Fact> { if f in i.facts then Some(i.facts[f]) else None }

  /** The exception describes this occurrence and the delivery state it is in. */
  ghost predicate Describes(i: Issue, o: Occurrence, category: string) {
    && i.key == Delivery(o.id) && Fact0(i, Category) == Some(Text(category))
    && Fact0(i, OccurrenceOf) == Some(About(Some(o.id))) && Fact0(i, DueAt) == Some(At(Some(o.graceEndsAt)))
    && Fact0(i, Families) == Some(Names(o.details.familyIds)) && Fact0(i, Holdings) == Some(Names(o.details.holdingIds))
    && i.fingerprint == OfOccurrence(o.id, o.version, o.disposition, o.receipts)
  }

  ghost predicate IsNew(i: Issue, o: Occurrence, now: int) {
    && i.origin == Calendared && i.assignee == Some(o.details.ownerUserId) && i.priority == "high"
    && i.createdAt == now && i.updatedAt == now && |i.history| == 1 && i.history[0].at == now
    && i.history[0].action == (if i.sourceActive then "detected" else "delivery_recorded") && i.snoozedUntil.None?
    && i.resolvedFingerprint == (if i.sourceActive then None else Some(i.fingerprint))
  }

  /** A missing report has an active exception; it is open unless someone's decision still stands. */
  ghost predicate Raised(before: Option<Issue>, after: Option<Issue>, o: Occurrence, now: int) {
    && after.Some? && after.value.sourceActive && Describes(after.value, o, "missing_report")
    && var i := after.value;
       if before.None? then IsNew(i, o, now) && i.status == Open
       else
         var j := before.value;
         && Continues(j, i, now)
         && i.status == (if j.status in {Resolved, Waived} then
                           if j.sourceActive && j.fingerprint == i.fingerprint then j.status else Open
                         else if SnoozeOver(j, now) then Open else j.status)
  }

  /** A report that arrived, or is excused, closes its exception; what was decided stays decided. */
  ghost predicate Closed(before: Option<Issue>, after: Option<Issue>, o: Occurrence, now: int, category: string) {
    && after.Some? && before.Some? && !after.value.sourceActive && Describes(after.value, o, category)
    && Continues(before.value, after.value, now)
    && after.value.status == (if before.value.status in {Open, Snoozed} then Resolved else before.value.status)
  }

  /** A late report without an exception leaves a record of its delay. */
  ghost predicate Recorded(after: Option<Issue>, o: Occurrence, now: int) {
    && after.Some? && !after.value.sourceActive && Describes(after.value, o, "late_report")
    && IsNew(after.value, o, now) && after.value.status == Resolved
  }

  /** Nothing is said about it; at most a snooze ends. */
  ghost predicate Untouched(before: Option<Issue>, after: Option<Issue>, now: int) {
    if before.None? then after.None?
    else
      var j := before.value;
      && after.Some? && Continues(j, after.value, now) && after.value.facts == j.facts
      && after.value.sourceActive == j.sourceActive
      && after.value.status == (if !SnoozeOver(j, now) then j.status else if j.sourceActive then Open else Resolved)
  }

  /** The exception of an occurrence before and after an evaluation. */
  ghost predicate DeliveryReviewed(before: Option<Issue>, after: Option<Issue>, o: Occurrence, now: int) {
    && (IsMissing(o, now) ==> Raised(before, after, o, now))
    && (IsAwaited(o, now) ==> Untouched(before, after, now))
    && (IsLate(o) ==>
          if before.None? then Recorded(after, o, now) else Closed(before, after, o, now, "late_report"))
    && (IsOnTime(o) || o.disposition.Some? ==>
          if before.None? then after.None? else Closed(before, after, o, now, "missing_report"))
  }

  lemma SignalIs(o: Occurrence, now: int)
    ensures var s, told := DeliverySignal(o, now), DeliveredAs(o, now);
            && (s.None? <==> told.None?)
            && (s.Some? ==>
                  && s.value.key == Delivery(o.id) && s.value.origin == Calendared && s.value.priority == "high"
                  && s.value.assignee == Some(o.details.ownerUserId)
                  && s.value.fingerprint == OfOccurrence(o.id, o.version, o.disposition, o.receipts)
                  && (s.value.active <==> told == Some(Missing))
                  && SignalSays(s.value.facts, o, if told.value.ReceivedLate? then "late_report" else "missing_report"))
            && (RecordsLate(o, now) <==> told.Some? && told.value.ReceivedLate?)
  {
    hide DeliveredAs;
  }

  ghost predicate SignalSays(facts: map<Field, Fact>, o: Occurrence, category: string) {
    && Category in facts && OccurrenceOf in facts && DueAt in facts && Families in facts && Holdings in facts
    && facts[Category] == Text(category) && facts[OccurrenceOf] == About(Some(o.id))
    && facts[DueAt] == At(Some(o.graceEndsAt)) && facts[Families] == Names(o.details.familyIds)
    && facts[Holdings] == Names(o.details.holdingIds)
  }

  /** What the signal and then the clock make of the status of a known issue. */
  ghost predicate StatusFollows(j: Issue, i: Issue, active: bool, now: int) {
    && i.sourceActive == active
    && i.status == (if !active then if j.status in {Open, Snoozed} then Resolved else j.status
                    else if j.status in {Resolved, Waived} then
                      if j.sourceActive && j.fingerprint == i.fingerprint then j.status else Open
                    else if SnoozeOver(j, now) then Open else j.status)
    && i.resolvedFingerprint == Settled(j, i)
  }

  /** The evidence an issue was resolved on: recorded when it closes, forgotten when it opens again. */
  function Settled(j: Issue, i: Issue): Option<Fingerprint> {
    if j.status in {Open, Snoozed} && i.status == Resolved then Some(i.fingerprint)
    else if j.status in {Resolved, Waived} && i.status == Open then None
    else j.resolvedFingerprint
  }

  lemma UpdatedStatus(j: Issue, s: Signal, now: int)
    ensures StatusFollows(j, Woken(Update(j, s, now), now), s.active, now)
  {
    assert j.status.Open? || j.status.Snoozed? || j.status.Resolved? || j.status.Waived?;
  }

  lemma UpdatedContinues(j: Issue, s: Signal, now: int)
    ensures Continues(j, Woken(Update(j, s, now), now), now)
  {
  }

  lemma UpdatedFacts(j: Issue, s: Signal, now: int)
    ensures Woken(Update(j, s, now), now).facts == j.facts + s.facts
    ensures Woken(Update(j, s, now), now).fingerprint == s.fingerprint
  {
  }

  /** A signal about a known issue, and then the clock. */
  lemma UpdatedThenWoken(j: Issue, s: Signal, o: Occurrence, now: int, category: string)
    requires j.key == Delivery(o.id) && SignalSays(s.facts, o, category)
    requires s.fingerprint == OfOccurrence(o.id, o.version, o.disposition, o.receipts)
    ensures var i := Woken(Update(j, s, now), now);
            Describes(i, o, category) && Continues(j, i, now) && StatusFollows(j, i, s.active, now)
  {
    UpdatedStatus(j, s, now);
    UpdatedContinues(j, s, now);
    UpdatedFacts(j, s, now);
    hide Update, Woken, StatusFollows, SnoozeOver;
  }

  lemma NewThenWoken(s: Signal, id: int, o: Occurrence, now: int, category: string)
    requires s.key == Delivery(o.id) && SignalSays(s.facts, o, category) && s.origin == Calendared
    requires s.priority == "high" && s.assignee == Some(o.details.ownerUserId)
    requires s.fingerprint == OfOccurrence(o.id, o.version, o.disposition, o.receipts)
    ensures var i := Woken(NewIssue(s, id, now), now);
            && Describes(i, o, category) && IsNew(i, o, now) && i.sourceActive == s.active
            && i.status == (if s.active then Open else Resolved)
  {
  }

  lemma JustWoken(j: Issue, now: int)
    ensures Untouched(Some(j), Some(Woken(j, now)), now)
  {
  }

  lemma DeliveredIs(before: Option<Issue>, o: Occurrence, idOf: Key -> int, now: int)
    requires before.Some? ==> before.value.key == Delivery(o.id)
    ensures DeliveryReviewed(before, WokenIf(Delivered1(before, o, idOf, now), now), o, now)
  {
    DeliveryIs(o, now);
    SignalIs(o, now);
    hide DeliveredAs, DeliverySignal, RecordsLate, Update, NewIssue, Woken, Describes, Continues, IsNew, SnoozeOver,
         SignalSays, IsMissing, IsAwaited, IsLate, IsOnTime, HoursAfter;
    var s := DeliverySignal(o, now);
    if s.None? {
      if before.Some? { JustWoken(before.value, now); }
    } else {
      var category := if DeliveredAs(o, now).value.ReceivedLate? then "late_report" else "missing_report";
      if before.Some? {
        UpdatedThenWoken(before.value, s.value, o, now, category);
      } else {
        NewThenWoken(s.value, idOf(s.value.key), o, now, category);
      }
    }
  }

  ghost predicate DistinctOccurrences(os: seq<Occurrence>) {
    forall i, j :: 0 <= i < j < |os| ==> os[i].id != os[j].id
  }

  /** The exceptions of an evaluation are those of a review of its own occurrences. */
  lemma EvaluatedParts(clock: Clock, h: Handles, s: State, o: Options) returns (os: seq<Occurrence>)
    requires StateOk(clock, s) && forall x :: x in s.schedules ==> x.versions != [] && VersionsShaped(x)
    requires Evaluated(clock, h, s, o).Ok?
    ensures var next := Evaluated(clock, h, s, o).value;
            && Reviewed(s.exceptions, os, o.signals, o.complete, h.idOf, o.range.now) == Ok(next.exceptions)
            && DistinctOccurrences(os) && IssuesOk(s.exceptions)
            && forall x :: x in next.occurrences <==> x in os
  {
    os := Materialised(clock, s.schedules, s.occurrences, o.range).value;
    MaterialisedKeeps(clock, s.schedules, s.occurrences, o.range);
    hide Materialised, Reviewed, WithinLimits, SchedulesOk, IssuesOk, Owned;
  }

  /** After an evaluation every occurrence's exception says what its delivery calls for. */
  lemma EvaluationReviews(clock: Clock, h: Handles, s: State, o: Options)
    requires StateOk(clock, s) && forall x :: x in s.schedules ==> x.versions != [] && VersionsShaped(x)
    requires Evaluated(clock, h, s, o).Ok?
    ensures var next := Evaluated(clock, h, s, o).value;
            forall x :: x in next.occurrences ==>
              DeliveryReviewed(IssueOf(s.exceptions, Delivery(x.id)), IssueOf(next.exceptions, Delivery(x.id)), x,
                               o.range.now)
  {
    var os := EvaluatedParts(clock, h, s, o);
    var next := Evaluated(clock, h, s, o).value;
    hide *;
    forall x | x in next.occurrences
      ensures DeliveryReviewed(IssueOf(s.exceptions, Delivery(x.id)), IssueOf(next.exceptions, Delivery(x.id)), x,
                               o.range.now)
    {
      OccurrenceReviewed(s.exceptions, os, o, h.idOf, x);
    }
  }

  lemma OccurrenceReviewed(issues: seq<Issue>, os: seq<Occurrence>, o: Options, idOf: Key -> int, x: Occurrence)
    requires IssuesOk(issues) && DistinctOccurrences(os) && x in os
    requires Reviewed(issues, os, o.signals, o.complete, idOf, o.range.now).Ok?
    ensures var next := Reviewed(issues, os, o.signals, o.complete, idOf, o.range.now).value;
            DeliveryReviewed(IssueOf(issues, Delivery(x.id)), IssueOf(next, Delivery(x.id)), x, o.range.now)
  {
    hide Reviewed, DeliveryReviewed, Delivered1, WokenIf, FindIssue;
    ReviewTells(issues, os, o.signals, o.complete, idOf, o.range.now, x);
    IssueKey(issues, Delivery(x.id));
    DeliveredIs(IssueOf(issues, Delivery(x.id)), x, idOf, o.range.now);
  }

  lemma IssueKey(issues: seq<Issue>, key: Key)
    ensures IssueOf(issues, key).Some? ==> IssueOf(issues, key).value.key == key
  {
  }

  // --- Issues from elsewhere -----------------------------------------------------------------------

  /** What an external signal makes of its issue: opened or reopened while active, resolved when not. */
  ghost predicate SignalReviewed(before: Option<Issue>, after: Option<Issue>, s: Signal, now: int) {
    if before.Some? then
      && after.Some? && Continues(before.value, after.value, now) && after.value.facts == before.value.facts + s.facts
      && after.value.fingerprint == s.fingerprint && StatusFollows(before.value, after.value, s.active, now)
    else if !s.active then after.None?
    else
      && after.Some? && after.value.status == Open && after.value.sourceActive && after.value.key == s.key
      && after.value.origin == s.origin && after.value.fingerprint == s.fingerprint
      && after.value.assignee == s.assignee && after.value.priority == s.priority
      && after.value.createdAt == now && after.value.updatedAt == now
      && after.value.snoozedUntil.None? && after.value.resolvedFingerprint.None?
      && forall f :: f in s.facts ==> f in after.value.facts && after.value.facts[f] == s.facts[f]
  }

  /** An external issue that a complete snapshot no longer lists loses its source and is resolved. */
  ghost predicate Dropped(before: Issue, after: Option<Issue>, now: int) {
    && after.Some? && Continues(before, after.value, now) && !after.value.sourceActive
    && after.value.facts == before.facts[Description := Text("The authoritative source no longer reports this issue.")]
    && after.value.fingerprint == before.fingerprint
    && after.value.status == (if before.status in {Open, Snoozed} then Resolved else before.status)
  }

  /** An issue that is neither a delivery nor listed. */
  ghost predicate UnlistedReviewed(before: Option<Issue>, after: Option<Issue>, complete: bool, now: int) {
    if complete && before.Some? && before.value.origin == External && before.value.sourceActive
    then Dropped(before.value, after, now)
    else Untouched(before, after, now)
  }

  lemma SignalledIs(before: Option<Issue>, s: Signal, id: int, now: int)
    ensures SignalReviewed(before, WokenIf(Told(before, s, id, now, false), now), s, now)
  {
    if before.Some? {
      UpdatedStatus(before.value, s, now);
      UpdatedContinues(before.value, s, now);
      UpdatedFacts(before.value, s, now);
      hide Update, Woken, StatusFollows, Continues;
    }
  }

  lemma UnlistedIs(before: Option<Issue>, signals: seq<Signal>, complete: bool, now: int)
    requires before.Some? ==> !Listed(signals, before.value.key)
    ensures var retired := if before.None? || !complete then before else Some(Retired(before.value, signals, now));
            UnlistedReviewed(before, WokenIf(retired, now), complete, now)
  {
    if before.Some? {
      var j := before.value;
      JustWoken(j, now);
      UpdatedStatus(j, RetireSignal(j), now);
      UpdatedContinues(j, RetireSignal(j), now);
      hide Update, Woken, Continues, RetireSignal, Listed;
      UpdatedFacts(j, RetireSignal(j), now);
      RetireIsInactive(j);
    }
  }

  lemma RetireIsInactive(j: Issue)
    ensures var s := RetireSignal(j);
            && !s.active && s.fingerprint == j.fingerprint
            && j.facts + s.facts ==
               j.facts[Description := Text("The authoritative source no longer reports this issue.")]
  {
  }

  /** After an evaluation every other issue says what the external signals call for. */
  lemma EvaluationHears(clock: Clock, h: Handles, s: State, o: Options, key: Key)
    requires StateOk(clock, s) && forall x :: x in s.schedules ==> x.versions != [] && VersionsShaped(x)
    requires Evaluated(clock, h, s, o).Ok? && !key.Delivery?
    ensures var before, after := IssueOf(s.exceptions, key), IssueOf(Evaluated(clock, h, s, o).value.exceptions, key);
            && (forall x :: x in o.signals && x.key == key ==> SignalReviewed(before, after, x, o.range.now))
            && (!Listed(o.signals, key) ==> UnlistedReviewed(before, after, o.complete, o.range.now))
  {
    var os := EvaluatedParts(clock, h, s, o);
    hide *;
    KeyReviewed(s.exceptions, os, o, h.idOf, key);
  }

  lemma KeyReviewed(issues: seq<Issue>, os: seq<Occurrence>, o: Options, idOf: Key -> int, key: Key)
    requires IssuesOk(issues) && DistinctOccurrences(os) && !key.Delivery?
    requires Reviewed(issues, os, o.signals, o.complete, idOf, o.range.now).Ok?
    ensures var before := IssueOf(issues, key);
            var after := IssueOf(Reviewed(issues, os, o.signals, o.complete, idOf, o.range.now).value, key);
            && (forall x :: x in o.signals && x.key == key ==> SignalReviewed(before, after, x, o.range.now))
            && (!Listed(o.signals, key) ==> UnlistedReviewed(before, after, o.complete, o.range.now))
  {
    hide ApplyDeliveries, ApplyExternals, RetireAll, WakeAll, Woken, DistinctKeys, Listed, FindIssue, SignalReviewed,
         UnlistedReviewed, Retired, Told;
    var signals, now := o.signals, o.range.now;
    DeliveriesTell(issues, os, idOf, now, key);
    var a := ApplyDeliveries(issues, os, idOf, now).value;
    ExternalsTell(a, signals, idOf, now, key);
    var b := ApplyExternals(a, signals, idOf, now).value;
    var before := IssueOf(issues, key);
    if o.complete { RetireTells(b, signals, now, key); }
    WakeTells(if o.complete then RetireAll(b, signals, now) else b, now, key);
    forall x | x in signals && x.key == key
      ensures SignalReviewed(before, IssueOf(Reviewed(issues, os, signals, o.complete, idOf, now).value, key), x, now)
    {
      SignalledIs(before, x, idOf(key), now);
      ListedStays(b, signals, x, now);
    }
    IssueKey(issues, key);
    if !Listed(signals, key) { UnlistedIs(before, signals, o.complete, now); }
  }

  lemma ListedStays(issues: seq<Issue>, signals: seq<Signal>, x: Signal, now: int)
    requires x in signals
    ensures IssueOf(issues, x.key).Some? ==>
              Retired(IssueOf(issues, x.key).value, signals, now) == IssueOf(issues, x.key).value
  {
    hide Update;
  }
}
