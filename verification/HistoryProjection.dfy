/**
 The projected timeline (`projectPortfolioHistory`, `lastAt` and `markAt` in
 lib/portfolio-history.ts): sorting, grouping, the binary search for a mark, and the
 as-known cutoff.
 */
module HistoryProjection {
  import opened Common
  import opened History
  import opened Grouping
  import opened Ordering

  const MAX_OBSERVATIONS := 4000

  // --- Order -------------------------------------------------------------------------

  /** A missing timestamp sorts first, as the empty string does. */
  predicate TimeBefore(a: Option<int>, b: Option<int>) {
    b.Some? && (a.None? || a.value < b.value)
  }

  /** Effective date, then recording time, then identifier. */
  predicate Precedes(a: Record, b: Record) {
    a.date < b.date
    || (a.date == b.date && (TimeBefore(a.recordedAt, b.recordedAt) || (a.recordedAt == b.recordedAt && a.id < b.id)))
  }

  ghost predicate SortedRecords(rs: seq<Record>) { Sorted(rs, Precedes) }

  function SortRecords(rs: seq<Record>): seq<Record> { Sort(rs, Precedes) }

  lemma PrecedesIsOrder()
    ensures StrictWeak(Precedes)
  {
  }

  // --- The status of a row among all rows -------------------------------------------------

  predicate InGroup(r: Record, holdingId: string, date: int) {
    IsAccepted(r) && r.holdingId == holdingId && r.date == date
  }

  function GroupOf(rs: seq<Record>, holdingId: string, date: int): seq<Record> {
    Filter(rs, (r: Record) => InGroup(r, holdingId, date))
  }

  ghost function FinalStatus(rs: seq<Record>, r: Record): Status {
    if IsAccepted(r) then StatusOf(GroupOf(rs, r.holdingId, r.date), r) else Legacy
  }

  ghost predicate AllLineagesEnd(rs: seq<Record>) {
    forall h, d :: LineagesEnd(GroupOf(rs, h, d))
  }

  ghost function WithStatus(rs: seq<Record>, holdingId: string, s: Status): Record -> bool {
    (r: Record) => r.holdingId == holdingId && FinalStatus(rs, r) == s
  }

  ghost function Selected(rs: seq<Record>, holdingId: string, s: Status): seq<Record> {
    Filter(rs, WithStatus(rs, holdingId, s))
  }

  // --- The binary search ---------------------------------------------------------------------

  ghost predicate ByDate(rs: seq<Record>) { forall i, j :: 0 <= i < j < |rs| ==> rs[i].date <= rs[j].date }

  /** The last observation dated on or before `date`. */
  ghost predicate IsLastAt(rs: seq<Record>, date: int, r: Option<Record>) {
    match r
    case None => forall x :: x in rs ==> x.date > date
    case Some(o) => o in rs && o.date <= date && forall x :: x in rs && x.date <= date ==> x.date <= o.date
  }

  method LastAt(rs: seq<Record>, date: int) returns (r: Option<Record>)
    requires ByDate(rs)
    ensures IsLastAt(rs, date, r)
  {
    var low, high := 0, |rs|;
    while low < high
      invariant 0 <= low <= high <= |rs|
      invariant forall i :: 0 <= i < low ==> rs[i].date <= date
      invariant forall i :: high <= i < |rs| ==> rs[i].date > date
    {
      var mid := (low + high) / 2;
      if rs[mid].date <= date { low := mid + 1; } else { high := mid; }
    }
    return if low > 0 then Some(rs[low - 1]) else None;
  }

  /** `markAt`: a newer or same-day unresolved conflict invalidates a carried mark. */
  method MarkAt(current: seq<Record>, conflicted: seq<Record>, date: int) returns (r: Option<Record>)
    requires ByDate(current) && ByDate(conflicted)
    ensures exists mark, conflict :: IsLastAt(current, date, mark) && IsLastAt(conflicted, date, conflict) &&
              r == if conflict.Some? && (mark.None? || conflict.value.date >= mark.value.date) then None else mark
  {
    var mark := LastAt(current, date);
    var conflict := LastAt(conflicted, date);
    if conflict.Some? && (mark.None? || conflict.value.date >= mark.value.date) { return None; }
    return mark;
  }

  // --- The plain rule --------------------------------------------------------------------------

  /** `d` is the latest date on or before `date` with an accepted mark of the holding. */
  ghost predicate LatestDate(rs: seq<Record>, holdingId: string, date: int, d: int) {
    && d <= date && GroupOf(rs, holdingId, d) != []
    && forall e :: d < e <= date ==> GroupOf(rs, holdingId, e) == []
  }

  /** The sole current mark of a group, or nothing if it conflicts. */
  ghost function SoleCurrent(group: seq<Record>): Option<Record> {
    var heads := Heads(group);
    if heads == [] || !Agree(heads) then None else Some(heads[|heads| - 1])
  }

  ghost predicate PlainMark(rs: seq<Record>, holdingId: string, date: int, r: Option<Record>) {
    && (forall d :: LatestDate(rs, holdingId, date, d) ==> r == SoleCurrent(GroupOf(rs, holdingId, d)))
    && ((forall d :: d <= date ==> GroupOf(rs, holdingId, d) == []) ==> r == None)
  }

  /** What the group at one date contributes to the current and conflicted lists. */
  lemma GroupContribution(rs: seq<Record>, holdingId: string, d: int)
    requires DistinctRecords(rs) && AllLineagesEnd(rs)
    ensures var g := GroupOf(rs, holdingId, d);
            && (g != [] && Agree(Heads(g)) ==>
                  && SoleCurrent(g).Some? && SoleCurrent(g).value in Selected(rs, holdingId, Current)
                  && SoleCurrent(g).value.date == d
                  && (forall x :: x in Selected(rs, holdingId, Current) && x.date == d ==> x == SoleCurrent(g).value)
                  && (forall x :: x in Selected(rs, holdingId, Conflicted) ==> x.date != d))
            && (g != [] && !Agree(Heads(g)) ==>
                  && (exists x :: x in Selected(rs, holdingId, Conflicted) && x.date == d)
                  && (forall x :: x in Selected(rs, holdingId, Current) ==> x.date != d))
  {
    var g := GroupOf(rs, holdingId, d);
    FilterDistinct(rs, (r: Record) => InGroup(r, holdingId, d));
    assert LineagesEnd(g);
    hide AllLineagesEnd, LineagesEnd, GroupOf, Selected, Corrected, SoleCurrent, StatusOf, Heads, Agree;
    if g != [] {
      HeadExists(g);
      SelectedStatus(rs, holdingId, d);
      HeadStatuses(g);
    }
  }

  /** The selected rows of one date are the group's rows of that status. */
  lemma SelectedStatus(rs: seq<Record>, holdingId: string, d: int)
    ensures var g := GroupOf(rs, holdingId, d);
            forall x, s :: s == Current || s == Conflicted ==>
              (x in Selected(rs, holdingId, s) && x.date == d <==> x in g && StatusOf(g, x) == s)
    ensures forall x :: x in GroupOf(rs, holdingId, d) ==> x.date == d
  {
    hide StatusOf, Filter;
  }

  /** Agreeing heads: the last is current, nothing conflicts.  Otherwise the heads conflict, nothing is current. */
  lemma HeadStatuses(g: seq<Record>)
    requires Heads(g) != []
    ensures SoleCurrent(g).Some? <==> Agree(Heads(g))
    ensures SoleCurrent(g).Some? ==>
              var r := SoleCurrent(g).value;
              && r in g && StatusOf(g, r) == Current
              && forall x :: x in g ==> StatusOf(g, x) != Conflicted && (StatusOf(g, x) == Current ==> x == r)
    ensures SoleCurrent(g).None? ==>
              && (exists x :: x in g && StatusOf(g, x) == Conflicted)
              && forall x :: x in g ==> StatusOf(g, x) != Current
  {
    var heads := Heads(g);
    var last := heads[|heads| - 1];
    assert last in heads && last in g && !Corrected(g, last);
    hide Heads, Agree, Corrected;
    assert Agree(heads) ==> StatusOf(g, last) == Current;
    assert !Agree(heads) ==> StatusOf(g, last) == Conflicted;
  }

  lemma SelectedIsAccepted(rs: seq<Record>, holdingId: string, s: Status, x: Record)
    requires x in Selected(rs, holdingId, s) && (s == Current || s == Conflicted)
    ensures x in GroupOf(rs, holdingId, x.date)
  {
  }

  /** The binary-search answer is the plain rule's answer. */
  lemma MarkAtIsPlain(rs: seq<Record>, holdingId: string, date: int, mark: Option<Record>, conflict: Option<Record>)
    requires DistinctRecords(rs) && AllLineagesEnd(rs)
    requires IsLastAt(Selected(rs, holdingId, Current), date, mark)
    requires IsLastAt(Selected(rs, holdingId, Conflicted), date, conflict)
    ensures PlainMark(rs, holdingId, date,
              if conflict.Some? && (mark.None? || conflict.value.date >= mark.value.date) then None else mark)
  {
    hide AllLineagesEnd, GroupOf, Selected, Heads, Agree, SoleCurrent;
    var r := if conflict.Some? && (mark.None? || conflict.value.date >= mark.value.date) then None else mark;
    if mark.Some? { SelectedIsAccepted(rs, holdingId, Current, mark.value); }
    if conflict.Some? { SelectedIsAccepted(rs, holdingId, Conflicted, conflict.value); }
    forall d | LatestDate(rs, holdingId, date, d) ensures r == SoleCurrent(GroupOf(rs, holdingId, d)) {
      GroupContribution(rs, holdingId, d);
      ConflictedHasNoSole(GroupOf(rs, holdingId, d));
      if Agree(Heads(GroupOf(rs, holdingId, d))) {
        assert mark.Some? && mark.value.date == d;
      } else {
        assert conflict.Some? && conflict.value.date == d;
      }
    }
  }

  lemma ConflictedHasNoSole(g: seq<Record>)
    ensures !Agree(Heads(g)) ==> SoleCurrent(g) == None
  {
  }

  // --- Projecting a log ---------------------------------------------------------------------------

  /** Rows the query can see: known by the cutoff and effective by `asOf`. */
  predicate Sees(knownAt: Option<int>, asOf: int, r: Record) {
    (knownAt.None? || (r.recordedAt.Some? && r.recordedAt.value <= knownAt.value)) && r.date <= asOf
  }

  function Visible(log: seq<Record>, knownAt: Option<int>, asOf: int): seq<Record> {
    Filter(log, (r: Record) => Sees(knownAt, asOf, r))
  }

  /** The sorted rows, including legacy rows that are shown only without a cutoff. */
  function TimelineRows(log: seq<Record>, legacy: seq<Record>, knownAt: Option<int>, asOf: int): seq<Record> {
    SortRecords(Visible(log, knownAt, asOf) + (if knownAt.None? then legacy else []))
  }

  method FreshRows(rs: seq<Record>) returns (rows: seq<Row>)
    ensures |rows| == |rs| && DistinctRows(rows) && fresh(rows)
    ensures forall i :: 0 <= i < |rows| ==>
              rows[i].rec == rs[i] && rows[i].status == (if IsAccepted(rs[i]) then Current else Legacy)
  {
    rows := [];
    var i := 0;
    while i < |rs|
      invariant 0 <= i <= |rs| && |rows| == i && DistinctRows(rows) && fresh(rows)
      invariant forall j :: 0 <= j < i ==>
                  rows[j].rec == rs[j] && rows[j].status == (if IsAccepted(rs[j]) then Current else Legacy)
    {
      var row := new Row(rs[i]);
      rows := rows + [row];
      i := i + 1;
    }
  }

  function KeyOf(r: Record): (string, int) { (r.holdingId, r.date) }

  function HasKey(k: (string, int)): Record -> bool { (r: Record) => KeyOf(r) == k }

  function RowsWithKey(rows: seq<Row>, k: (string, int)): (s: seq<Row>)
    ensures forall x :: x in s ==> x in rows && KeyOf(x.rec) == k
    ensures forall x :: x in rows && KeyOf(x.rec) == k ==> x in s
  {
    if |rows| == 0 then []
    else
      var front := RowsWithKey(rows[..|rows| - 1], k);
      if KeyOf(rows[|rows| - 1].rec) == k then front + [rows[|rows| - 1]] else front
  }

  lemma RecordsEmpty()
    ensures Records([]) == []
  {
  }

  lemma RowsWithKeyUnfold(rows: seq<Row>, k: (string, int))
    ensures RowsWithKey(rows, k) ==
            if |rows| == 0 then []
            else
              var front, last := rows[..|rows| - 1], rows[|rows| - 1];
              RowsWithKey(front, k) + (if KeyOf(last.rec) == k then [last] else [])
    ensures Filter([], HasKey(k)) == []
    ensures |rows| > 0 ==> HasKey(k)(rows[|rows| - 1].rec) == (KeyOf(rows[|rows| - 1].rec) == k)
  {
    hide KeyOf;
  }

  lemma {:induction false} RowsWithKeyRecords(rows: seq<Row>, k: (string, int))
    ensures Records(RowsWithKey(rows, k)) == Filter(Records(rows), HasKey(k))
  {
    hide *;
    RecordsEmpty();
    RowsWithKeyUnfold(rows, k);
    if |rows| > 0 {
      var front, last := rows[..|rows| - 1], rows[|rows| - 1];
      RowsWithKeyRecords(front, k);
      assert rows == front + [last];
      RecordsSnoc(front, last);
      if KeyOf(last.rec) == k { RecordsSnoc(RowsWithKey(front, k), last); }
      FilterSnoc(Records(front), last.rec, HasKey(k));
    }
  }

  lemma {:induction false} RowsWithKeyDistinct(rows: seq<Row>, k: (string, int))
    requires DistinctRows(rows)
    ensures DistinctRows(RowsWithKey(rows, k))
  {
    if |rows| > 0 {
      var front, last := rows[..|rows| - 1], rows[|rows| - 1];
      RowsWithKeyDistinct(front, k);
      assert last !in front;
    }
  }

  lemma GroupOfKey(rs: seq<Record>, k: (string, int))
    ensures Filter(Filter(rs, HasKey(k)), IsAccepted) == GroupOf(rs, k.0, k.1)
  {
    FilterFilter(rs, HasKey(k), IsAccepted, (r: Record) => InGroup(r, k.0, k.1));
  }

  /** Resolves every group; the result lists the status of each sorted row. */
  method ResolveTimeline(rs: seq<Record>) returns (r: Result<seq<Status>, HistoryError>)
    requires DistinctRecords(rs)
    ensures r == Err(CircularLineage) || (r.Ok? && AllLineagesEnd(rs))
    ensures AllLineagesEnd(rs) ==> r.Ok?
    ensures r.Ok? ==> |r.value| == |rs| && forall i :: 0 <= i < |rs| ==> r.value[i] == FinalStatus(rs, rs[i])
  {
    hide FinalStatus, LineagesEnd, GroupOf, DistinctRecords, AllLineagesEnd, IsAccepted, KeyOf;
    var rows := FreshRows(rs);
    assert Records(rows) == rs;
    var keys, table := GroupBy(rs, KeyOf);
    GroupedCovers(rs, KeyOf, keys, table);
    var k := 0;
    while k < |keys|
      invariant 0 <= k <= |keys| && Records(rows) == rs
      invariant forall j :: 0 <= j < k ==> LineagesEnd(GroupOf(rs, keys[j].0, keys[j].1))
      invariant forall i :: 0 <= i < |rows| ==>
                  rows[i].status == if KeyOf(rs[i]) in keys[..k] then FinalStatus(rs, rs[i])
                                    else if IsAccepted(rs[i]) then Current else Legacy
    {
      assert keys[..k + 1] == keys[..k] + [keys[k]];
      DistinctSnoc(keys[..k], keys[k]);
      var ok := ResolveKey(rows, rs, keys[k]);
      if !ok {
        assert !AllLineagesEnd(rs) by { CircularSomewhere(rs, keys[k]); }
        return Err(CircularLineage);
      }
      k := k + 1;
    }
    assert keys[..k] == keys;
    UncoveredGroupsEmpty(rs, keys);
    return Ok(StatusList(rows));
  }

  lemma CircularSomewhere(rs: seq<Record>, k: (string, int))
    requires !LineagesEnd(GroupOf(rs, k.0, k.1))
    ensures !AllLineagesEnd(rs)
  {
    hide LineagesEnd;
  }

  function StatusList(rows: seq<Row>): (r: seq<Status>)
    reads rows
    ensures |r| == |rows| && forall i :: 0 <= i < |r| ==> r[i] == rows[i].status
  {
    seq(|rows|, i requires 0 <= i < |rows| reads rows => rows[i].status)
  }

  lemma UncoveredGroupsEmpty(rs: seq<Record>, keys: seq<(string, int)>)
    requires forall r :: r in rs ==> KeyOf(r) in keys
    requires forall j :: 0 <= j < |keys| ==> LineagesEnd(GroupOf(rs, keys[j].0, keys[j].1))
    ensures AllLineagesEnd(rs)
  {
    forall h, d ensures LineagesEnd(GroupOf(rs, h, d)) {
      if GroupOf(rs, h, d) != [] {
        var r := GroupOf(rs, h, d)[0];
        assert r in GroupOf(rs, h, d);
        var j: nat :| j < |keys| && keys[j] == KeyOf(r);
      }
    }
  }

  method ResolveKey(rows: seq<Row>, ghost rs: seq<Record>, k: (string, int)) returns (ok: bool)
    requires DistinctRows(rows) && Records(rows) == rs && DistinctRecords(rs)
    requires forall i :: 0 <= i < |rows| && KeyOf(rs[i]) == k ==>
               rows[i].status == if IsAccepted(rs[i]) then Current else Legacy
    modifies rows
    ensures ok <==> LineagesEnd(GroupOf(rs, k.0, k.1))
    ensures forall i :: 0 <= i < |rows| && KeyOf(rs[i]) != k ==> rows[i].status == old(rows[i].status)
    ensures ok ==> forall i :: 0 <= i < |rows| && KeyOf(rs[i]) == k ==> rows[i].status == FinalStatus(rs, rs[i])
  {
    hide StatusOf, LineagesEnd, GroupOf, RowsWithKey, FinalStatus, LineageIs, DistinctRecords, KeyOf, IsAccepted,
         DistinctRows;
    var group := RowsWithKey(rows, k);
    KeyGroup(rows, rs, k);
    ok := ResolveGroup(group);
    forall i | 0 <= i < |rows|
      ensures KeyOf(rs[i]) == k <==> rows[i] in group
      ensures KeyOf(rs[i]) == k ==>
                FinalStatus(rs, rs[i]) == (if IsAccepted(rs[i]) then StatusOf(GroupOf(rs, k.0, k.1), rs[i]) else Legacy)
    {
      assert rows[i] in rows && rows[i].rec == rs[i];
      FinalStatusOfKey(rs, rs[i], k);
    }
  }

  /** The rows of one key are a resolvable group, and their accepted records are its group of marks. */
  lemma KeyGroup(rows: seq<Row>, rs: seq<Record>, k: (string, int))
    requires DistinctRows(rows) && Records(rows) == rs && DistinctRecords(rs)
    ensures var group := RowsWithKey(rows, k);
            && DistinctRows(group) && DistinctRecords(Records(group))
            && Filter(Records(group), IsAccepted) == GroupOf(rs, k.0, k.1)
  {
    hide RowsWithKey, GroupOf, DistinctRecords, DistinctRows, Filter;
    RowsWithKeyRecords(rows, k);
    RowsWithKeyDistinct(rows, k);
    GroupOfKey(rs, k);
    FilterDistinct(rs, HasKey(k));
  }

  lemma FinalStatusOfKey(rs: seq<Record>, r: Record, k: (string, int))
    ensures KeyOf(r) == k ==>
              FinalStatus(rs, r) == (if IsAccepted(r) then StatusOf(GroupOf(rs, k.0, k.1), r) else Legacy)
  {
  }

  // --- The whole projection ---------------------------------------------------------------------------

  datatype Timeline = Timeline(rows: seq<Record>, statuses: seq<Status>)

  ghost predicate TimelineOf(t: Timeline, rs: seq<Record>) {
    && t.rows == rs && |t.statuses| == |rs|
    && SortedRecords(rs) && DistinctRecords(rs) && AllLineagesEnd(rs)
    && forall i :: 0 <= i < |rs| ==> t.statuses[i] == FinalStatus(rs, rs[i])
  }

  /** Legacy rows carry their own identifiers and are never accepted. */
  ghost predicate LegacyOk(log: seq<Record>, legacy: seq<Record>) {
    && DistinctRecords(legacy) && (forall r :: r in legacy ==> !IsAccepted(r))
    && forall a, b :: a in log && b in legacy ==> a.id != b.id
  }

  /** Why a list of records cannot be projected. */
  ghost function Problem(log: seq<Record>, rs: seq<Record>): Option<HistoryError> {
    if !DistinctRecords(log) then Some(DuplicateIdentity)
    else if |rs| > MAX_OBSERVATIONS then Some(Capacity)
    else if !AllLineagesEnd(rs) then Some(CircularLineage)
    else None
  }

  method Project(log: seq<Record>, legacy: seq<Record>, knownAt: Option<int>, asOf: int)
    returns (r: Result<Timeline, HistoryError>)
    requires LegacyOk(log, legacy)
    ensures r.Ok? <==> Problem(log, TimelineRows(log, legacy, knownAt, asOf)).None?
    ensures r.Err? ==> Problem(log, TimelineRows(log, legacy, knownAt, asOf)) == Some(r.error)
    ensures r.Ok? ==> TimelineOf(r.value, TimelineRows(log, legacy, knownAt, asOf))
  {
    hide DistinctRecords, Distinct, ToSet, AllLineagesEnd, TimelineRows, FinalStatus, LegacyOk, Sorted;
    var ids := seq(|log|, i requires 0 <= i < |log| => log[i].id);
    DistinctByCount(ids);
    DistinctIdsMeaning(log, ids);
    if |ToSet(ids)| != |log| { return Err(DuplicateIdentity); }
    var rs := TimelineRows(log, legacy, knownAt, asOf);
    if |rs| > MAX_OBSERVATIONS { return Err(Capacity); }
    TimelineDistinct(log, legacy, knownAt, asOf);
    TimelineSorted(log, legacy, knownAt, asOf);
    var resolved := ResolveTimeline(rs);
    match resolved
    case Err(e) => r := Err(e);
    case Ok(statuses) => r := Ok(Timeline(rs, statuses));
  }

  lemma DistinctIdsMeaning(log: seq<Record>, ids: seq<int>)
    requires |ids| == |log| && forall i :: 0 <= i < |log| ==> ids[i] == log[i].id
    ensures Distinct(ids) <==> DistinctRecords(log)
  {
    if Distinct(ids) {
      forall i, j | 0 <= i < j < |log| ensures log[i].id != log[j].id { assert ids[i] != ids[j]; }
    }
    if DistinctRecords(log) {
      forall i, j | 0 <= i < j < |ids| ensures ids[i] != ids[j] { assert log[i].id != log[j].id; }
    }
  }

  /** Sorting keeps every position of a record, so distinct ids stay distinct. */
  lemma SortDistinct(rs: seq<Record>)
    requires DistinctRecords(rs)
    ensures DistinctRecords(SortRecords(rs))
  {
    SortDistinctBy(rs, Precedes, IdOf);
  }

  lemma TimelineDistinct(log: seq<Record>, legacy: seq<Record>, knownAt: Option<int>, asOf: int)
    requires LegacyOk(log, legacy) && DistinctRecords(log)
    ensures DistinctRecords(TimelineRows(log, legacy, knownAt, asOf))
  {
    var seen, extra := Visible(log, knownAt, asOf), if knownAt.None? then legacy else [];
    FilterDistinct(log, (r: Record) => Sees(knownAt, asOf, r));
    var all := seen + extra;
    forall i, j | 0 <= i < j < |all| ensures all[i].id != all[j].id {
      if i < |seen| <= j { assert all[i] in seen && all[j] in extra; }
    }
    SortDistinct(all);
  }

  lemma TimelineSorted(log: seq<Record>, legacy: seq<Record>, knownAt: Option<int>, asOf: int)
    ensures SortedRecords(TimelineRows(log, legacy, knownAt, asOf))
  {
    PrecedesIsOrder();
    SortIsSorted(Visible(log, knownAt, asOf) + (if knownAt.None? then legacy else []), Precedes);
  }

  method RowsOf(t: Timeline, ghost rs: seq<Record>, holdingId: string, s: Status) returns (found: seq<Record>)
    requires TimelineOf(t, rs)
    ensures found == Selected(rs, holdingId, s) && ByDate(found)
  {
    hide FinalStatus, AllLineagesEnd, Sorted, ByDate, Filter;
    ghost var wanted := WithStatus(rs, holdingId, s);
    found := [];
    var i := 0;
    while i < |t.rows|
      invariant 0 <= i <= |t.rows|
      invariant found == Filter(rs[..i], wanted)
    {
      assert rs[..i + 1] == rs[..i] + [rs[i]];
      FilterSnoc(rs[..i], rs[i], wanted);
      if t.rows[i].holdingId == holdingId && t.statuses[i] == s { found := found + [t.rows[i]]; }
      i := i + 1;
    }
    assert rs[..i] == rs;
    FilterSorted(rs, Precedes, wanted);
    SortedByDate(found);
  }

  lemma SortedByDate(rs: seq<Record>)
    requires SortedRecords(rs)
    ensures ByDate(rs)
  {
    forall i, j | 0 <= i < j < |rs| ensures rs[i].date <= rs[j].date { assert !Precedes(rs[j], rs[i]); }
  }

  /** The mark of one holding on one date, end to end. */
  method HoldingMark(t: Timeline, ghost rs: seq<Record>, holdingId: string, date: int) returns (mark: Option<Record>)
    requires TimelineOf(t, rs)
    ensures PlainMark(rs, holdingId, date, mark)
  {
    hide Selected, PlainMark, AllLineagesEnd;
    var current := RowsOf(t, rs, holdingId, Current);
    var conflicted := RowsOf(t, rs, holdingId, Conflicted);
    mark := MarkAt(current, conflicted, date);
    ghost var m, c :| IsLastAt(current, date, m) && IsLastAt(conflicted, date, c) &&
      mark == if c.Some? && (m.None? || c.value.date >= m.value.date) then None else m;
    MarkAtIsPlain(rs, holdingId, date, m, c);
  }

  // --- As-known views ------------------------------------------------------------------------------------

  /** The log as it stood at time `k`. */
  function KnownBy(log: seq<Record>, k: int): seq<Record> {
    Filter(log, (r: Record) => r.recordedAt.Some? && r.recordedAt.value <= k)
  }

  /** Appending a later-recorded mark leaves an as-known timeline unchanged. */
  lemma LaterRecordsInvisible(log: seq<Record>, legacy: seq<Record>, k: int, asOf: int, r: Record)
    requires r.recordedAt.Some? ==> r.recordedAt.value > k
    ensures TimelineRows(log + [r], legacy, Some(k), asOf) == TimelineRows(log, legacy, Some(k), asOf)
  {
    FilterSnoc(log, r, (x: Record) => Sees(Some(k), asOf, x));
    assert Visible(log + [r], Some(k), asOf) == Visible(log, Some(k), asOf) + [];
  }

  lemma GroupOfTimeline(log: seq<Record>, legacy: seq<Record>, knownAt: Option<int>, asOf: int, h: string, d: int)
    requires forall r :: r in legacy ==> !IsAccepted(r)
    ensures GroupOf(TimelineRows(log, legacy, knownAt, asOf), h, d) ==
            SortRecords(GroupOf(Visible(log, knownAt, asOf), h, d))
  {
    var p := (r: Record) => InGroup(r, h, d);
    var seen, extra := Visible(log, knownAt, asOf), if knownAt.None? then legacy else [];
    PrecedesIsOrder();
    FilterSort(seen + extra, Precedes, p);
    FilterConcat(seen, extra, p);
    FilterNone(extra, p);
    assert Filter(seen, p) + [] == Filter(seen, p);
  }

  /** The as-known view at `k` has the same accepted groups as restating the log truncated at `k`. */
  lemma AsKnownIsTruncation(log: seq<Record>, legacy: seq<Record>, restated: seq<Record>, k: int, asOf: int,
                            h: string, d: int)
    requires forall r :: r in legacy ==> !IsAccepted(r)
    requires forall r :: r in restated ==> !IsAccepted(r)
    ensures GroupOf(TimelineRows(log, legacy, Some(k), asOf), h, d) ==
            GroupOf(TimelineRows(KnownBy(log, k), restated, None, asOf), h, d)
  {
    GroupOfTimeline(log, legacy, Some(k), asOf, h, d);
    GroupOfTimeline(KnownBy(log, k), restated, None, asOf, h, d);
    FilterFilter(log, (r: Record) => r.recordedAt.Some? && r.recordedAt.value <= k,
                 (r: Record) => Sees(None, asOf, r), (r: Record) => Sees(Some(k), asOf, r));
  }

  /** Hence every mark read as-known is the mark of the truncated log, restated. */
  lemma AsKnownMarks(log: seq<Record>, legacy: seq<Record>, restated: seq<Record>, k: int, asOf: int, h: string,
                     date: int, m: Option<Record>)
    requires forall r :: r in legacy ==> !IsAccepted(r)
    requires forall r :: r in restated ==> !IsAccepted(r)
    ensures PlainMark(TimelineRows(log, legacy, Some(k), asOf), h, date, m) <==>
            PlainMark(TimelineRows(KnownBy(log, k), restated, None, asOf), h, date, m)
  {
    hide TimelineRows, SoleCurrent;
    var a, b := TimelineRows(log, legacy, Some(k), asOf), TimelineRows(KnownBy(log, k), restated, None, asOf);
    forall d ensures GroupOf(a, h, d) == GroupOf(b, h, d) { AsKnownIsTruncation(log, legacy, restated, k, asOf, h, d); }
    hide GroupOf;
    forall d ensures LatestDate(a, h, date, d) <==> LatestDate(b, h, date, d) { }
  }
}
