/**
 Reporting exceptions (lib/report-obligations.ts, `applySignal`, `deliverySignal` and the
 exception half of `evaluateReportObligations`).  Displayed values are facts that are only
 ever compared and carried; `idOf` stands for the identifier hash.
 */
module Exceptions {
  import opened Common
  import opened Obligations

  datatype Key = Delivery(id: OccurrenceId) | Plain(text: string)

  datatype Field = Category | Title | Description | Families | Holdings | Manager | OccurrenceOf | DueAt | Evidence

  datatype Delivered = Disposed(disposition: Disposition) | Missing | ReceivedLate(hours: int) | Received

  datatype Fact = Text(text: string) | Names(names: seq<string>) | Name(name: Option<string>) |
                  About(occurrence: Option<OccurrenceId>) | At(time: Option<int>) |
                  Told(subject: string, what: Delivered, period: OccurrenceId)

  datatype Fingerprint = OfOccurrence(id: OccurrenceId, version: nat, disposition: Option<Disposition>,
                                      receipts: seq<Receipt>) |
                         Given(text: string)

  datatype Origin = Calendared | External | Manual

  datatype Signal = Signal(key: Key, facts: map<Field, Fact>, assignee: Option<string>, priority: string,
                           fingerprint: Fingerprint, active: bool, origin: Origin)

  datatype Status = Open | Snoozed | Resolved | Waived

  datatype Entry = Entry(at: int, action: string, facts: map<Field, Fact>, fingerprint: Fingerprint)

  datatype Issue = Issue(key: Key, id: int, facts: map<Field, Fact>, assignee: Option<string>, priority: string,
                         fingerprint: Fingerprint, status: Status, snoozedUntil: Option<int>,
                         resolvedFingerprint: Option<Fingerprint>, sourceActive: bool, origin: Origin,
                         createdAt: int, updatedAt: int, history: seq<Entry>)

  datatype SignalError = Collision | DuplicateSignal | Impersonation

  // --- Delivery signals ------------------------------------------------------------------

  /** The earliest arrival among matched receipts. */
  function FirstReceived(rs: seq<Receipt>): Option<int> {
    if |rs| == 0 then None
    else
      var front, last := FirstReceived(rs[..|rs| - 1]), rs[|rs| - 1];
      if !last.matched then front
      else if front.None? || last.receivedAt < front.value then Some(last.receivedAt) else front
  }

  function CeilHours(ms: int): int { (ms + HOUR - 1) / HOUR }

  /** What there is to report about an occurrence; nothing while it is upcoming or just due. */
  function DeliveredAs(o: Occurrence, now: int): Option<Delivered> {
    var first := FirstReceived(o.receipts);
    if o.disposition.Some? then Some(Disposed(o.disposition.value))
    else if first.Some? then
      if first.value > o.dueAt then Some(ReceivedLate(CeilHours(first.value - o.dueAt))) else Some(Received)
    else if now > o.graceEndsAt then Some(Missing)
    else None
  }

  function MatchedDocuments(rs: seq<Receipt>): seq<string> {
    if |rs| == 0 then []
    else MatchedDocuments(rs[..|rs| - 1]) + (if rs[|rs| - 1].matched then [rs[|rs| - 1].documentId] else [])
  }

  function DeliverySignal(o: Occurrence, now: int): Option<Signal> {
    var told := DeliveredAs(o, now);
    if told.None? then None
    else
      var facts := map[
        Category := Text(if told.value.ReceivedLate? then "late_report" else "missing_report"),
        Title := Told(o.details.name, told.value, o.id),
        Description := Told("", told.value, o.id),
        Families := Names(o.details.familyIds),
        Holdings := Names(o.details.holdingIds),
        Manager := Name(o.details.managerId),
        OccurrenceOf := About(Some(o.id)),
        DueAt := At(Some(o.graceEndsAt)),
        Evidence := Names(MatchedDocuments(o.receipts))];
      Some(Signal(Delivery(o.id), facts, Some(o.details.ownerUserId), "high",
                  OfOccurrence(o.id, o.version, o.disposition, o.receipts), told.value.Missing?, Calendared))
  }

  predicate RecordsLate(o: Occurrence, now: int) {
    DeliveredAs(o, now).Some? && DeliveredAs(o, now).value.ReceivedLate?
  }

  // --- One signal ------------------------------------------------------------------------------

  function FindIssue(issues: seq<Issue>, key: Key): (k: Option<nat>)
    ensures k.Some? ==> k.value < |issues| && issues[k.value].key == key
    ensures k.None? <==> forall i :: i in issues ==> i.key != key
  {
    if |issues| == 0 then None
    else if issues[0].key == key then Some(0)
    else
      var rest := FindIssue(issues[1..], key);
      if rest.None? then None else Some(rest.value + 1)
  }

  function Missing0(): map<Field, Fact> { map[Manager := Name(None), OccurrenceOf := About(None), DueAt := At(None)] }

  function NewIssue(s: Signal, id: int, now: int): Issue {
    Issue(s.key, id, Missing0() + s.facts, s.assignee, s.priority, s.fingerprint,
          if s.active then Open else Resolved, None, if s.active then None else Some(s.fingerprint),
          s.active, s.origin, now, now,
          [Entry(now, if s.active then "detected" else "delivery_recorded", s.facts, s.fingerprint)])
  }

  /** A later signal about a known issue; assignment and priority are never overwritten. */
  function Update(i: Issue, s: Signal, now: int): Issue {
    var fingerprintChanged := i.fingerprint != s.fingerprint;
    var sourceChanged := i.sourceActive != s.active;
    var facts := i.facts + s.facts;
    var closes := !s.active && i.status in {Open, Snoozed};
    var reopens := s.active && i.status in {Resolved, Waived} && (fingerprintChanged || sourceChanged);
    var changed := facts != i.facts || closes || reopens || fingerprintChanged;
    var next := i.(facts := facts, sourceActive := s.active, fingerprint := s.fingerprint,
                   updatedAt := if changed || sourceChanged then now else i.updatedAt);
    if closes then
      next.(status := Resolved, snoozedUntil := None, resolvedFingerprint := Some(s.fingerprint),
            history := i.history + [Entry(now, "source_resolved", s.facts, s.fingerprint)])
    else if reopens then
      next.(status := Open, snoozedUntil := None, resolvedFingerprint := None,
            history := i.history + [Entry(now, "reopened_by_evidence", s.facts, s.fingerprint)])
    else if fingerprintChanged then
      next.(history := i.history + [Entry(now, "evidence_updated", s.facts, s.fingerprint)])
    else next
  }

  /** `applySignal`. */
  function Apply(issues: seq<Issue>, s: Signal, idOf: Key -> int, now: int, createInactive: bool)
      : Result<seq<Issue>, SignalError> {
    var k := FindIssue(issues, s.key);
    if k.Some? then Ok(issues[k.value := Update(issues[k.value], s, now)])
    else if !s.active && !createInactive then Ok(issues)
    else if exists i :: i in issues && i.id == idOf(s.key) then Err(Collision)
    else Ok(issues + [NewIssue(s, idOf(s.key), now)])
  }

  // --- The passes of an evaluation ----------------------------------------------------------------

  function ApplyDelivery(issues: seq<Issue>, o: Occurrence, idOf: Key -> int, now: int)
      : Result<seq<Issue>, SignalError> {
    var s := DeliverySignal(o, now);
    if s.None? then Ok(issues) else Apply(issues, s.value, idOf, now, RecordsLate(o, now))
  }

  function ApplyDeliveries(issues: seq<Issue>, os: seq<Occurrence>, idOf: Key -> int, now: int)
      : Result<seq<Issue>, SignalError> {
    if |os| == 0 then Ok(issues)
    else
      var before := ApplyDeliveries(issues, os[..|os| - 1], idOf, now);
      if before.Err? then before else ApplyDelivery(before.value, os[|os| - 1], idOf, now)
  }

  predicate Listed(signals: seq<Signal>, key: Key) { exists s :: s in signals && s.key == key }

  /** External signals: each key once, and none posing as the calendar. */
  function ApplyExternals(issues: seq<Issue>, signals: seq<Signal>, idOf: Key -> int, now: int)
      : Result<seq<Issue>, SignalError> {
    if |signals| == 0 then Ok(issues)
    else
      var front, s := signals[..|signals| - 1], signals[|signals| - 1];
      var before := ApplyExternals(issues, front, idOf, now);
      if before.Err? then before
      else if Listed(front, s.key) then Err(DuplicateSignal)
      else if s.key.Delivery? || s.origin == Calendared then Err(Impersonation)
      else Apply(before.value, s, idOf, now, false)
  }

  predicate Unreported(i: Issue, signals: seq<Signal>) {
    i.origin == External && i.sourceActive && !Listed(signals, i.key)
  }

  /** With a complete external snapshot, issues it no longer lists lose their source. */
  function RetireSignal(i: Issue): Signal {
    Signal(i.key, i.facts[Description := Text("The authoritative source no longer reports this issue.")],
           i.assignee, i.priority, i.fingerprint, false, i.origin)
  }

  function Retired(i: Issue, signals: seq<Signal>, now: int): Issue {
    if Unreported(i, signals) then Update(i, RetireSignal(i), now) else i
  }

  function RetireAll(issues: seq<Issue>, signals: seq<Signal>, now: int): (r: seq<Issue>)
    ensures |r| == |issues| && forall k :: 0 <= k < |r| ==> r[k] == Retired(issues[k], signals, now)
  {
    seq(|issues|, k requires 0 <= k < |issues| => Retired(issues[k], signals, now))
  }

  predicate Wakes(i: Issue, now: int) { i.status == Snoozed && i.snoozedUntil.Some? && i.snoozedUntil.value <= now }

  function Woken(i: Issue, now: int): Issue {
    if !Wakes(i, now) then i
    else i.(status := if i.sourceActive then Open else Resolved, snoozedUntil := None, updatedAt := now,
            history := i.history + [Entry(now, "snooze_expired", i.facts, i.fingerprint)])
  }

  function WakeAll(issues: seq<Issue>, now: int): (r: seq<Issue>)
    ensures |r| == |issues| && forall k :: 0 <= k < |r| ==> r[k] == Woken(issues[k], now)
  {
    seq(|issues|, k requires 0 <= k < |issues| => Woken(issues[k], now))
  }

  /** The exceptions after an evaluation over these occurrences. */
  function Reviewed(issues: seq<Issue>, os: seq<Occurrence>, signals: seq<Signal>, complete: bool,
                    idOf: Key -> int, now: int): Result<seq<Issue>, SignalError> {
    var a := ApplyDeliveries(issues, os, idOf, now);
    if a.Err? then a
    else
      var b := ApplyExternals(a.value, signals, idOf, now);
      if b.Err? then b
      else Ok(WakeAll(if complete then RetireAll(b.value, signals, now) else b.value, now))
  }

  // --- The loops ------------------------------------------------------------------------------------

  method ReviewDeliveries(issues: seq<Issue>, os: seq<Occurrence>, idOf: Key -> int, now: int)
    returns (r: Result<seq<Issue>, SignalError>)
    ensures r == ApplyDeliveries(issues, os, idOf, now)
  {
    hide ApplyDelivery;
    var current := issues;
    var k := 0;
    while k < |os|
      invariant 0 <= k <= |os|
      invariant ApplyDeliveries(issues, os[..k], idOf, now) == Ok(current)
    {
      assert os[..k + 1][..k] == os[..k];
      var step := ApplyDelivery(current, os[k], idOf, now);
      k := k + 1;
      if step.Err? {
        DeliveriesErr(issues, os, k, idOf, now);
        return step;
      }
      current := step.value;
    }
    assert os[..k] == os;
    return Ok(current);
  }

  lemma {:induction false} DeliveriesErr(issues: seq<Issue>, os: seq<Occurrence>, k: nat, idOf: Key -> int, now: int)
    requires k <= |os| && ApplyDeliveries(issues, os[..k], idOf, now).Err?
    ensures ApplyDeliveries(issues, os, idOf, now) == ApplyDeliveries(issues, os[..k], idOf, now)
    decreases |os| - k
  {
    if k < |os| {
      assert os[..k + 1][..k] == os[..k];
      DeliveriesErr(issues, os, k + 1, idOf, now);
    } else {
      assert os[..k] == os;
    }
  }

  method ReviewExternals(issues: seq<Issue>, signals: seq<Signal>, idOf: Key -> int, now: int)
    returns (r: Result<seq<Issue>, SignalError>, seen: set<Key>)
    ensures r == ApplyExternals(issues, signals, idOf, now)
    ensures r.Ok? ==> forall key :: key in seen <==> Listed(signals, key)
  {
    hide Apply, ApplyExternals, Listed;
    var current := issues;
    seen := {};
    ExternalsUnfold(issues, [], idOf, now);
    assert signals[..0] == [];
    var k := 0;
    while k < |signals|
      invariant 0 <= k <= |signals|
      invariant ApplyExternals(issues, signals[..k], idOf, now) == Ok(current)
      invariant forall key :: key in seen <==> Listed(signals[..k], key)
    {
      assert signals[..k + 1][..k] == signals[..k];
      var s := signals[k];
      ListedSnoc(signals[..k], s);
      assert signals[..k] + [s] == signals[..k + 1];
      ExternalsUnfold(issues, signals[..k + 1], idOf, now);
      if s.key in seen {
        ExternalsErr(issues, signals, k + 1, idOf, now);
        return Err(DuplicateSignal), seen;
      }
      if s.key.Delivery? || s.origin == Calendared {
        ExternalsErr(issues, signals, k + 1, idOf, now);
        return Err(Impersonation), seen;
      }
      seen := seen + {s.key};
      var step := Apply(current, s, idOf, now, false);
      k := k + 1;
      if step.Err? {
        ExternalsErr(issues, signals, k, idOf, now);
        return step, seen;
      }
      current := step.value;
    }
    assert signals[..k] == signals;
    return Ok(current), seen;
  }

  lemma ExternalsUnfold(issues: seq<Issue>, signals: seq<Signal>, idOf: Key -> int, now: int)
    ensures |signals| == 0 ==>
              ApplyExternals(issues, signals, idOf, now) == Ok(issues) && forall key :: !Listed(signals, key)
    ensures |signals| > 0 ==>
              var front, s := signals[..|signals| - 1], signals[|signals| - 1];
              var before := ApplyExternals(issues, front, idOf, now);
              ApplyExternals(issues, signals, idOf, now) ==
              if before.Err? then before
              else if Listed(front, s.key) then Err(DuplicateSignal)
              else if s.key.Delivery? || s.origin == Calendared then Err(Impersonation)
              else Apply(before.value, s, idOf, now, false)
  {
    hide Apply;
  }

  lemma ListedSnoc(signals: seq<Signal>, s: Signal)
    ensures forall key :: Listed(signals + [s], key) <==> Listed(signals, key) || key == s.key
  {
    forall key ensures Listed(signals + [s], key) <==> Listed(signals, key) || key == s.key {
      if Listed(signals, key) {
        var t :| t in signals && t.key == key;
        assert t in signals + [s];
      }
      if key == s.key { assert s in signals + [s]; }
    }
  }

  lemma {:induction false} ExternalsErr(issues: seq<Issue>, signals: seq<Signal>, k: nat, idOf: Key -> int, now: int)
    requires k <= |signals| && ApplyExternals(issues, signals[..k], idOf, now).Err?
    ensures ApplyExternals(issues, signals, idOf, now) == ApplyExternals(issues, signals[..k], idOf, now)
    decreases |signals| - k
  {
    hide Apply, Listed;
    if k < |signals| {
      assert signals[..k + 1][..k] == signals[..k];
      ExternalsErr(issues, signals, k + 1, idOf, now);
    } else {
      assert signals[..k] == signals;
    }
  }

  ghost predicate DistinctKeys(issues: seq<Issue>) {
    forall i, j :: 0 <= i < j < |issues| ==> issues[i].key != issues[j].key
  }

  /** Retiring looks each candidate up again by its key, as `applySignal` does. */
  method RetireUnreported(issues: seq<Issue>, signals: seq<Signal>, seen: set<Key>, idOf: Key -> int, now: int)
    returns (current: seq<Issue>)
    requires DistinctKeys(issues) && forall key :: key in seen <==> Listed(signals, key)
    ensures current == RetireAll(issues, signals, now)
  {
    hide Update, Listed, RetireSignal;
    current := issues;
    var k := 0;
    while k < |issues|
      invariant 0 <= k <= |issues| == |current|
      invariant forall j :: 0 <= j < k ==> current[j] == Retired(issues[j], signals, now)
      invariant forall j :: k <= j < |issues| ==> current[j] == issues[j]
    {
      var issue := issues[k];
      if issue.origin == External && issue.sourceActive && issue.key !in seen {
        RetireFinds(issues, current, signals, k, now);
        var step := Apply(current, RetireSignal(issue), idOf, now, false);
        current := step.value;
      }
      k := k + 1;
    }
  }

  lemma UpdateKeepsKey(i: Issue, s: Signal, now: int)
    ensures Update(i, s, now).key == i.key && Update(i, s, now).origin == i.origin && Update(i, s, now).id == i.id
  {
  }

  lemma RetireFinds(issues: seq<Issue>, current: seq<Issue>, signals: seq<Signal>, k: nat, now: int)
    requires DistinctKeys(issues) && k < |issues| == |current|
    requires forall j :: 0 <= j < k ==> current[j] == Retired(issues[j], signals, now)
    requires forall j :: k <= j < |issues| ==> current[j] == issues[j]
    ensures RetireSignal(issues[k]).key == issues[k].key
    ensures FindIssue(current, issues[k].key) == Some(k)
  {
    hide Update, Listed;
    forall j | 0 <= j < |current| ensures current[j].key == issues[j].key {
      UpdateKeepsKey(issues[j], RetireSignal(issues[j]), now);
    }
    FindsByIndex(current, k);
  }

  lemma FindsByIndex(issues: seq<Issue>, k: nat)
    requires DistinctKeys(issues) && k < |issues|
    ensures FindIssue(issues, issues[k].key) == Some(k)
  {
    assert issues[k] in issues;
  }

  method WakeSnoozed(issues: seq<Issue>, now: int) returns (current: seq<Issue>)
    ensures current == WakeAll(issues, now)
  {
    current := [];
    var k := 0;
    while k < |issues|
      invariant 0 <= k <= |issues|
      invariant current == WakeAll(issues[..k], now)
    {
      var issue := issues[k];
      if issue.status == Snoozed && issue.snoozedUntil.Some? && issue.snoozedUntil.value <= now {
        var status := if issue.sourceActive then Open else Resolved;
        issue := issue.(status := status, snoozedUntil := None, updatedAt := now,
                        history := issue.history + [Entry(now, "snooze_expired", issue.facts, issue.fingerprint)]);
      }
      current := current + [issue];
      k := k + 1;
    }
    assert issues[..k] == issues;
  }
}
