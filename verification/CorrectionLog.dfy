/**
 Append-only logs whose entries may replace earlier entries, as the lifecycle and
 participation histories keep them (`effectiveLifecycleRecords`,
 `effectiveParticipationRecords`): what is in force, and as known at a cutoff.
 Identifiers are numbers in their display order; times and dates are numbers.
 */
module CorrectionLog {
  import opened Common
  import opened Ordering

  /** `rank` separates kinds that fall on the same date. */
  datatype Entry<T> = Entry(id: int, holdingId: string, date: int, rank: int, recordedAt: int,
                            correctionOf: Option<int>, body: T)

  /** Effective date, rank of the kind, recording time, identifier. */
  predicate Before<T>(a: Entry<T>, b: Entry<T>) {
    a.date < b.date || (a.date == b.date && (a.rank < b.rank || (a.rank == b.rank &&
    (a.recordedAt < b.recordedAt || (a.recordedAt == b.recordedAt && a.id < b.id)))))
  }

  lemma BeforeIsOrder<T(!new)>()
    ensures StrictWeak<Entry<T>>(Before)
  {
  }

  predicate KnownAt<T>(cutoff: Option<int>, e: Entry<T>) { cutoff.None? || e.recordedAt <= cutoff.value }

  function Visible<T(!new)>(log: seq<Entry<T>>, cutoff: Option<int>): seq<Entry<T>> {
    Filter(log, (e: Entry<T>) => KnownAt(cutoff, e))
  }

  function Replaced<T(==)>(log: seq<Entry<T>>): set<int> {
    set e | e in log && e.correctionOf.Some? :: e.correctionOf.value
  }

  function Unreplaced<T>(replaced: set<int>): Entry<T> -> bool { (e: Entry<T>) => e.id !in replaced }

  /** Entries in force, in recording order. */
  function Active<T(!new, ==)>(log: seq<Entry<T>>): seq<Entry<T>> { Filter(log, Unreplaced(Replaced(log))) }

  /** Entries in force as known at the cutoff, in effective order. */
  function Effective<T(!new, ==)>(log: seq<Entry<T>>, cutoff: Option<int>): seq<Entry<T>> {
    Sort(Active(Visible(log, cutoff)), Before)
  }

  function InForce<T(!new, ==)>(log: seq<Entry<T>>): seq<Entry<T>> { Effective(log, None) }

  lemma InForceIs<T(!new)>(log: seq<Entry<T>>)
    ensures InForce(log) == Sort(Active(log), Before)
    ensures forall e :: e in InForce(log) <==> e in log && e.id !in Replaced(log)
    ensures Sorted(InForce(log), Before)
  {
    FilterAll(log, (e: Entry<T>) => KnownAt(None, e));
    BeforeIsOrder<T>();
    SortIsSorted(Active(log), Before);
  }

  // --- As-known views ------------------------------------------------------------------

  /** An entry recorded after the cutoff, even a correction, is invisible to an as-known view. */
  lemma LaterEntryInvisible<T(!new)>(log: seq<Entry<T>>, e: Entry<T>, k: int)
    requires e.recordedAt > k
    ensures Effective(log + [e], Some(k)) == Effective(log, Some(k))
  {
    LaterEntryUnseen(log, e, k);
  }

  lemma LaterEntryUnseen<T(!new)>(log: seq<Entry<T>>, e: Entry<T>, k: int)
    requires e.recordedAt > k
    ensures Visible(log + [e], Some(k)) == Visible(log, Some(k))
  {
    FilterSnoc(log, e, (x: Entry<T>) => KnownAt(Some(k), x));
    assert Visible(log + [e], Some(k)) == Visible(log, Some(k)) + [];
  }

  /** Hence so is any number of later entries. */
  lemma {:induction false} LaterEntriesInvisible<T(!new)>(log: seq<Entry<T>>, later: seq<Entry<T>>, k: int)
    requires forall e :: e in later ==> e.recordedAt > k
    ensures Effective(log + later, Some(k)) == Effective(log, Some(k))
  {
    hide Effective;
    if |later| == 0 {
      assert log + later == log;
    } else {
      var n := |later| - 1;
      LaterEntriesInvisible(log, later[..n], k);
      LaterEntryInvisible(log + later[..n], later[n], k);
      assert log + later == (log + later[..n]) + [later[n]];
    }
  }

  /** The as-known view is today's view of the log truncated at the cutoff. */
  lemma AsKnownIsTruncation<T(!new)>(log: seq<Entry<T>>, k: int)
    ensures Effective(log, Some(k)) == InForce(Filter(log, (e: Entry<T>) => e.recordedAt <= k))
  {
    VisibleIsTruncation(log, k);
  }

  lemma VisibleIsTruncation<T(!new)>(log: seq<Entry<T>>, k: int)
    ensures Visible(log, Some(k)) == Visible(Filter(log, (e: Entry<T>) => e.recordedAt <= k), None)
  {
    var cut := Filter(log, (e: Entry<T>) => e.recordedAt <= k);
    FilterEq(log, (e: Entry<T>) => e.recordedAt <= k, (e: Entry<T>) => KnownAt(Some(k), e));
    FilterAll(cut, (e: Entry<T>) => KnownAt(None, e));
  }

  // --- Well-formed logs ------------------------------------------------------------------

  /** A correction names an earlier entry of the same position and is not recorded before it. */
  ghost predicate CorrectsEarlier<T>(log: seq<Entry<T>>, j: nat)
    requires j < |log|
  {
    log[j].correctionOf.Some? ==>
      exists i: nat :: i < j && log[i].id == log[j].correctionOf.value && log[i].holdingId == log[j].holdingId
                       && log[i].recordedAt <= log[j].recordedAt
  }

  /** Identifiers are unique, corrections point backwards, and nothing is corrected twice. */
  ghost predicate WellFormed<T>(log: seq<Entry<T>>) {
    && (forall i, j :: 0 <= i < j < |log| ==> log[i].id != log[j].id)
    && (forall j: nat :: j < |log| ==> CorrectsEarlier(log, j))
    && (forall i, j :: 0 <= i < j < |log| && log[i].correctionOf.Some? ==> log[i].correctionOf != log[j].correctionOf)
  }

  lemma CorrectsEarlierSnoc<T(!new)>(log: seq<Entry<T>>, e: Entry<T>, j: nat)
    requires j < |log| && CorrectsEarlier(log, j)
    ensures CorrectsEarlier(log + [e], j)
  {
    if log[j].correctionOf.Some? {
      var i: nat :| i < j && log[i].id == log[j].correctionOf.value && log[i].holdingId == log[j].holdingId
                    && log[i].recordedAt <= log[j].recordedAt;
      assert (log + [e])[i] == log[i];
    }
  }

  lemma InForceUncorrected<T(!new)>(log: seq<Entry<T>>, p: Entry<T>)
    requires p in InForce(log)
    ensures p in log && forall k :: 0 <= k < |log| ==> log[k].correctionOf != Some(p.id)
  {
    hide InForce;
    InForceIs(log);
    forall k | 0 <= k < |log| ensures log[k].correctionOf != Some(p.id) { assert log[k] in log; }
  }

  lemma CorrectsPrevious<T(!new)>(log: seq<Entry<T>>, e: Entry<T>, p: Entry<T>)
    requires p in log && e.correctionOf == Some(p.id) && p.holdingId == e.holdingId && p.recordedAt <= e.recordedAt
    ensures CorrectsEarlier(log + [e], |log|)
  {
    var i: nat :| i < |log| && log[i] == p;
    assert (log + [e])[i] == p;
  }

  lemma NothingCorrected<T>(log: seq<Entry<T>>, j: nat)
    requires j < |log| && log[j].correctionOf.None?
    ensures CorrectsEarlier(log, j)
  {
  }

  /** Appending a fresh entry that corrects at most one entry in force keeps the log well formed. */
  lemma AppendWellFormed<T(!new)>(log: seq<Entry<T>>, e: Entry<T>)
    requires WellFormed(log) && forall x :: x in log ==> x.id != e.id
    requires e.correctionOf.Some? ==>
               exists p :: p in InForce(log) && p.id == e.correctionOf.value && p.holdingId == e.holdingId
                           && p.recordedAt <= e.recordedAt
    ensures WellFormed(log + [e])
  {
    hide InForce, CorrectsEarlier;
    var l := log + [e];
    if e.correctionOf.Some? {
      var p :| p in InForce(log) && p.id == e.correctionOf.value && p.holdingId == e.holdingId
               && p.recordedAt <= e.recordedAt;
      InForceUncorrected(log, p);
      CorrectsPrevious(log, e, p);
    } else {
      assert CorrectsEarlier(l, |log|) by { NothingCorrected(l, |log|); }
    }
    forall j: nat | j < |l| ensures CorrectsEarlier(l, j) {
      if j < |log| { CorrectsEarlierSnoc(log, e, j); }
    }
    forall i, j | 0 <= i < j < |l| && l[i].correctionOf.Some? ensures l[i].correctionOf != l[j].correctionOf { }
    forall i, j | 0 <= i < j < |l| ensures l[i].id != l[j].id {
      if j == |log| { assert l[i] in log; }
    }
  }

  lemma ReplacedSnoc<T(!new)>(log: seq<Entry<T>>, e: Entry<T>)
    ensures Replaced(log + [e]) == Replaced(log) + (if e.correctionOf.Some? then {e.correctionOf.value} else {})
  {
    var r := Replaced(log + [e]);
    forall id | id in Replaced(log) ensures id in r {
      var x :| x in log && x.correctionOf == Some(id);
      assert x in log + [e];
    }
    if e.correctionOf.Some? { assert e in log + [e]; }
    forall id | id in r ensures id in Replaced(log) || e.correctionOf == Some(id) {
      var x :| x in log + [e] && x.correctionOf == Some(id);
      assert x in log || x == e;
    }
  }

  function Spared<T>(e: Entry<T>): Entry<T> -> bool { (x: Entry<T>) => Some(x.id) != e.correctionOf }

  /** No earlier correction can already name a fresh identifier. */
  lemma FreshUnreplaced<T(!new)>(log: seq<Entry<T>>, id: int)
    requires WellFormed(log) && forall x :: x in log ==> x.id != id
    ensures id !in Replaced(log)
  {
    assert forall i: nat :: i < |log| ==> log[i] in log && log[i].id != id;
    forall x | x in log ensures x.correctionOf != Some(id) {
      var j: nat :| j < |log| && log[j] == x;
      assert CorrectsEarlier(log, j);
    }
  }

  /** What an append does to the entries in force: the corrected one leaves, the new one enters. */
  lemma InForceSnoc<T(!new)>(log: seq<Entry<T>>, e: Entry<T>)
    requires WellFormed(log + [e]) && WellFormed(log) && forall x :: x in log ==> x.id != e.id
    ensures InForce(log + [e]) == Insert(Filter(InForce(log), Spared(e)), e, Before)
  {
    hide Insert, WellFormed;
    ReplacedSnoc(log, e);
    FreshUnreplaced(log, e.id);
    SelfSpared(log, e);
    var after := Replaced(log + [e]);
    FilterSnoc(log, e, Unreplaced(after));
    FilterFilter(log, Unreplaced(Replaced(log)), Spared(e), Unreplaced(after));
    InForceIs(log);
    InForceIs(log + [e]);
    BeforeIsOrder<T>();
    FilterSort(Active(log), Before, Spared(e));
    SortSnoc(Filter(Active(log), Spared(e)), e, Before);
  }

  lemma SelfSpared<T(!new)>(log: seq<Entry<T>>, e: Entry<T>)
    requires WellFormed(log + [e]) && forall x :: x in log ==> x.id != e.id
    ensures e.correctionOf != Some(e.id)
  {
    var l := log + [e];
    assert forall i: nat :: i < |log| ==> l[i] in log && l[i].id != e.id;
    assert CorrectsEarlier(l, |log|);
  }

  // --- One position ------------------------------------------------------------------------

  function OfHolding<T(!new)>(es: seq<Entry<T>>, h: string): seq<Entry<T>> {
    Filter(es, (e: Entry<T>) => e.holdingId == h)
  }

  /** The position's own entries change as the log's do; other positions see nothing. */
  lemma OfHoldingSnoc<T(!new)>(log: seq<Entry<T>>, e: Entry<T>, h: string)
    requires WellFormed(log + [e]) && WellFormed(log) && forall x :: x in log ==> x.id != e.id
    ensures h == e.holdingId ==>
              OfHolding(InForce(log + [e]), h) == Insert(Filter(OfHolding(InForce(log), h), Spared(e)), e, Before)
    ensures h != e.holdingId ==> OfHolding(InForce(log + [e]), h) == OfHolding(InForce(log), h)
  {
    hide Insert;
    var own := (x: Entry<T>) => x.holdingId == h;
    InForceSnoc(log, e);
    InForceIs(log);
    BeforeIsOrder<T>();
    var kept := Filter(InForce(log), Spared(e));
    FilterSorted(InForce(log), Before, Spared(e));
    FilterInsert(kept, e, Before, own);
    FilterFilter(InForce(log), Spared(e), own, (x: Entry<T>) => Spared(e)(x) && own(x));
    FilterFilter(InForce(log), own, Spared(e), (x: Entry<T>) => Spared(e)(x) && own(x));
    if h != e.holdingId {
      forall x | x in OfHolding(InForce(log), h) ensures Spared(e)(x) { OtherHoldingSpared(log, e, x); }
      FilterAll(OfHolding(InForce(log), h), Spared(e));
    }
  }

  lemma OtherHoldingSpared<T(!new)>(log: seq<Entry<T>>, e: Entry<T>, x: Entry<T>)
    requires WellFormed(log + [e]) && x in log && x.holdingId != e.holdingId
    ensures Some(x.id) != e.correctionOf
  {
    var l := log + [e];
    var j: nat :| j < |log| && log[j] == x;
    assert l[j] == x;
    assert CorrectsEarlier(l, |log|);
  }
}
