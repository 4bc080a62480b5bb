/**
 Bitemporal history of valuation marks (`projectPortfolioHistory` in
 lib/portfolio-history.ts): resolution of corrections and conflicts among the accepted
 marks of one position and date.  Identifiers are numbers in their display order.
 */
module History {
  import opened Common

  datatype Status = Current | Legacy | Superseded | Conflicted

  /** A retained mark; `recordedAt` is absent when the stored timestamp is unusable. */
  datatype Record = Record(
    id: int,
    holdingId: string,
    date: int,
    recordedAt: Option<int>,
    trusted: bool,
    native: Option<int>,
    currency: string,
    retainedEUR: Option<int>,
    hasFx: bool,
    basis: string,
    correctionOf: Option<int>
  )

  /** Only sourced marks with a usable timestamp take part in totals. */
  predicate IsAccepted(r: Record) { r.trusted && r.recordedAt.Some? }

  /** The EUR value, unless currency and FX support do not establish one. */
  function ValueEUR(r: Record): Option<int> {
    if r.currency == "EUR" then (if r.native == r.retainedEUR then r.native else None)
    else if r.hasFx then r.retainedEUR else None
  }

  function Amount(r: Record, currency: string): Option<int> {
    if currency == "EUR" then ValueEUR(r) else if r.currency == currency then r.native else None
  }

  datatype Signature = Signature(native: Option<int>, currency: string, valueEUR: Option<int>, basis: string)

  function SignatureOf(r: Record): Signature { Signature(r.native, r.currency, ValueEUR(r), r.basis) }

  ghost predicate DistinctRecords(recs: seq<Record>) {
    forall i, j :: 0 <= i < j < |recs| ==> recs[i].id != recs[j].id
  }

  /** The accepted marks of one position and date. */
  ghost predicate AcceptedGroup(recs: seq<Record>) {
    DistinctRecords(recs) && forall r :: r in recs ==> IsAccepted(r)
  }

  // --- Corrections -------------------------------------------------------------------

  function FindRecord(recs: seq<Record>, id: int): (r: Option<Record>)
    ensures r.Some? ==> r.value in recs && r.value.id == id
    ensures r.None? ==> forall x :: x in recs ==> x.id != id
  {
    if |recs| == 0 then None
    else if recs[|recs| - 1].id == id then Some(recs[|recs| - 1])
    else FindRecord(recs[..|recs| - 1], id)
  }

  /** The record that `r` corrects, if it is in the same group. */
  function Predecessor(recs: seq<Record>, r: Record): Option<Record> {
    if r.correctionOf.Some? then FindRecord(recs, r.correctionOf.value) else None
  }

  /** `s` supersedes `r`: a correction counts only if recorded no earlier. */
  predicate Corrects(s: Record, r: Record) {
    s.correctionOf == Some(r.id) && s.id != r.id &&
    r.recordedAt.Some? && s.recordedAt.Some? && r.recordedAt.value <= s.recordedAt.value
  }

  ghost predicate Corrected(recs: seq<Record>, r: Record) { exists s :: s in recs && Corrects(s, r) }

  /** Following corrections backwards from `r` ends after `n` records. */
  ghost predicate LineageIs(recs: seq<Record>, r: Record, n: nat)
    decreases n
  {
    if n == 0 then false
    else
      match Predecessor(recs, r)
      case None => n == 1
      case Some(p) => LineageIs(recs, p, n - 1)
  }

  /** No correction lineage is circular. */
  ghost predicate LineagesEnd(recs: seq<Record>) {
    forall r :: r in recs ==> exists n :: LineageIs(recs, r, n)
  }

  lemma {:induction false} LineageUnique(recs: seq<Record>, r: Record, m: nat, n: nat)
    requires LineageIs(recs, r, m) && LineageIs(recs, r, n)
    ensures m == n
    decreases m
  {
    match Predecessor(recs, r)
    case None =>
    case Some(p) => LineageUnique(recs, p, m - 1, n - 1);
  }

  // --- Status of each record ------------------------------------------------------------

  ghost function Heads(recs: seq<Record>): seq<Record> { Filter(recs, (r: Record) => !Corrected(recs, r)) }

  ghost predicate Agree(heads: seq<Record>) {
    forall a, b :: a in heads && b in heads ==> SignatureOf(a) == SignatureOf(b)
  }

  /** Corrected marks are superseded; disagreeing heads conflict; of agreeing heads the last counts. */
  ghost function StatusOf(recs: seq<Record>, r: Record): Status {
    var heads := Heads(recs);
    if Corrected(recs, r) then Superseded
    else if !Agree(heads) then Conflicted
    else if |heads| > 0 && r == heads[|heads| - 1] then Current
    else Superseded
  }

  ghost function WithStatus(recs: seq<Record>, s: Status): seq<Record> {
    Filter(recs, (r: Record) => StatusOf(recs, r) == s)
  }

  /** The member with the longest lineage cannot have been corrected. */
  lemma {:induction false} LongestLineage(recs: seq<Record>, k: nat) returns (r: Record, n: nat)
    requires 0 < k <= |recs| && LineagesEnd(recs)
    ensures r in recs && LineageIs(recs, r, n)
    ensures forall i: nat, m: nat :: i < k && LineageIs(recs, recs[i], m) ==> m <= n
  {
    r := recs[k - 1];
    assert r in recs;
    n :| LineageIs(recs, r, n);
    forall m: nat | LineageIs(recs, r, m) ensures m == n { LineageUnique(recs, r, m, n); }
    if k > 1 {
      var r', n' := LongestLineage(recs, k - 1);
      if n' > n { r, n := r', n'; }
    }
  }

  lemma LineageLonger(recs: seq<Record>, s: Record, r: Record, n: nat)
    requires Predecessor(recs, s) == Some(r) && LineageIs(recs, r, n)
    ensures LineageIs(recs, s, n + 1)
  {
  }

  lemma InList(recs: seq<Record>, r: Record)
    requires r in recs
    ensures exists i: nat :: i < |recs| && recs[i] == r
  {
  }

  lemma HeadExists(recs: seq<Record>)
    requires recs != [] && DistinctRecords(recs) && LineagesEnd(recs)
    ensures Heads(recs) != []
  {
    var r, n := LongestLineage(recs, |recs|);
    if Corrected(recs, r) {
      var s :| s in recs && Corrects(s, r);
      FoundIsMember(recs, r);
      LineageLonger(recs, s, r, n);
      InList(recs, s);
    }
    assert r in Heads(recs);
  }

  lemma {:induction false} FoundIsMember(recs: seq<Record>, r: Record)
    requires DistinctRecords(recs) && r in recs
    ensures FindRecord(recs, r.id) == Some(r)
  {
    var f := FindRecord(recs, r.id);
    var i :| 0 <= i < |recs| && recs[i] == r;
    var j :| 0 <= j < |recs| && recs[j] == f.value;
  }

  /** Every group has exactly one current mark and no conflict, or no current mark and a conflict of several. */
  lemma OneCurrentOrConflict(recs: seq<Record>)
    requires recs != [] && DistinctRecords(recs) && LineagesEnd(recs)
    ensures if Agree(Heads(recs)) then |WithStatus(recs, Current)| == 1 && WithStatus(recs, Conflicted) == []
            else WithStatus(recs, Current) == [] && |WithStatus(recs, Conflicted)| >= 2
  {
    HeadExists(recs);
    if Agree(Heads(recs)) { AgreeingHeads(recs); } else { DisagreeingHeads(recs); }
  }

  lemma AgreeingHeads(recs: seq<Record>)
    requires DistinctRecords(recs) && Heads(recs) != [] && Agree(Heads(recs))
    ensures |WithStatus(recs, Current)| == 1 && WithStatus(recs, Conflicted) == []
  {
    var heads := Heads(recs);
    var last := heads[|heads| - 1];
    assert last in heads;
    forall r | r in recs ensures (StatusOf(recs, r) == Current <==> r == last) && StatusOf(recs, r) != Conflicted {
    }
    OnlyOne(recs, last, (r: Record) => StatusOf(recs, r) == Current);
    FilterNone(recs, (r: Record) => StatusOf(recs, r) == Conflicted);
  }

  /**
   A mark recorded twice without a correction, whose second copy alone is then corrected: the
   first copy stays in force, so the date is conflicted unless the correction restates it.
   */
  lemma CorrectedCopyConflicts(a: Record, b: Record, c: Record)
    requires DistinctRecords([a, b, c]) && AcceptedGroup([a, b, c])
    requires a.correctionOf.None? && b.correctionOf.None? && Corrects(c, b)
    ensures LineagesEnd([a, b, c])
    ensures StatusOf([a, b, c], b) == Superseded
    ensures StatusOf([a, b, c], a) == Conflicted == StatusOf([a, b, c], c) <==> SignatureOf(a) != SignatureOf(c)
  {
    var recs := [a, b, c];
    assert a == recs[0] && b == recs[1] && c == recs[2];
    assert a.id != b.id && b.id != c.id && a.id != c.id;
    FoundIsMember(recs, b);
    assert LineageIs(recs, a, 1) && LineageIs(recs, b, 1) && LineageIs(recs, c, 2);
    assert Corrected(recs, b) && !Corrected(recs, a) && !Corrected(recs, c);
    assert a in Heads(recs) && c in Heads(recs) && b !in Heads(recs);
    if SignatureOf(a) == SignatureOf(c) { assert Agree(Heads(recs)); }
  }

  lemma DisagreeingHeads(recs: seq<Record>)
    requires Heads(recs) != [] && !Agree(Heads(recs))
    ensures WithStatus(recs, Current) == [] && |WithStatus(recs, Conflicted)| >= 2
  {
    SeveralHeads(Heads(recs));
    hide Corrected, Agree;
    FilterNone(recs, (r: Record) => StatusOf(recs, r) == Current);
    FilterEq(recs, (r: Record) => StatusOf(recs, r) == Conflicted, (r: Record) => !Corrected(recs, r));
  }

  lemma SeveralHeads(heads: seq<Record>)
    requires !Agree(heads)
    ensures |heads| >= 2
  {
    var a, b :| a in heads && b in heads && SignatureOf(a) != SignatureOf(b);
    var i: nat :| i < |heads| && heads[i] == a;
    var j: nat :| j < |heads| && heads[j] == b;
    assert i != j;
  }

  lemma {:induction false} OnlyOne(recs: seq<Record>, r: Record, p: Record -> bool)
    requires DistinctRecords(recs) && r in recs && forall x :: x in recs ==> (p(x) <==> x == r)
    ensures Filter(recs, p) == [r]
  {
    var n := |recs| - 1;
    if recs[n] == r {
      forall x | x in recs[..n] ensures !p(x) {
        var i :| 0 <= i < n && recs[i] == x;
        assert recs[i].id != recs[n].id;
      }
      FilterNone(recs[..n], p);
    } else {
      assert r in recs[..n];
      OnlyOne(recs[..n], r, p);
    }
  }

  // --- Resolution in place ----------------------------------------------------------------

  datatype HistoryError = CircularLineage | DuplicateIdentity | Capacity | DateInvalid

  class Row {
    const rec: Record
    var status: Status
    var version: nat
    var supersededBy: Option<int>

    constructor (rec: Record)
      ensures this.rec == rec && status == (if IsAccepted(rec) then Current else Legacy) && version == 1
      ensures supersededBy == None
    {
      this.rec := rec;
      status := if IsAccepted(rec) then Current else Legacy;
      version := 1;
      supersededBy := None;
    }
  }

  function Records(rows: seq<Row>): (r: seq<Record>)
    ensures |r| == |rows| && forall i :: 0 <= i < |r| ==> r[i] == rows[i].rec
  {
    seq(|rows|, i requires 0 <= i < |rows| => rows[i].rec)
  }

  ghost predicate DistinctRows(rows: seq<Row>) { forall i, j :: 0 <= i < j < |rows| ==> rows[i] != rows[j] }

  function FindRow(rows: seq<Row>, id: int): (k: Option<nat>)
    ensures k.Some? ==> k.value < |rows| && rows[k.value].rec.id == id
    ensures k.None? ==> forall i :: 0 <= i < |rows| ==> rows[i].rec.id != id
  {
    if |rows| == 0 then None
    else if rows[|rows| - 1].rec.id == id then Some(|rows| - 1)
    else FindRow(rows[..|rows| - 1], id)
  }

  /** `s` for some `j < k` in the list corrects `r`. */
  ghost predicate CorrectedBefore(recs: seq<Record>, k: nat, r: Record)
    requires k <= |recs|
  {
    exists j :: 0 <= j < k && Corrects(recs[j], r)
  }

  method MarkCorrected(rows: seq<Row>)
    requires DistinctRows(rows) && AcceptedGroup(Records(rows))
    requires forall i :: 0 <= i < |rows| ==> rows[i].status == Current
    modifies rows
    ensures forall i :: 0 <= i < |rows| ==>
              rows[i].status == (if Corrected(Records(rows), rows[i].rec) then Superseded else Current)
    ensures forall i :: 0 <= i < |rows| ==> rows[i].version == old(rows[i].version)
  {
    ghost var recs := Records(rows);
    var k := 0;
    hide Corrected, CorrectedBefore;
    forall r ensures !CorrectedBefore(recs, 0, r) { CorrectedSteps(recs, 0, r); }
    while k < |rows|
      invariant 0 <= k <= |rows|
      invariant forall i :: 0 <= i < |rows| ==>
                  rows[i].status == (if CorrectedBefore(recs, k, recs[i]) then Superseded else Current)
      invariant forall i :: 0 <= i < |rows| ==> rows[i].version == old(rows[i].version)
    {
      var row := rows[k];
      if row.rec.correctionOf.Some? {
        var found := FindRow(rows, row.rec.correctionOf.value);
        if found.Some? && Corrects(row.rec, rows[found.value].rec) {
          rows[found.value].status := Superseded;
          rows[found.value].supersededBy := Some(row.rec.id);
        }
      }
      forall i | 0 <= i < |rows|
        ensures CorrectedBefore(recs, k + 1, recs[i]) <==>
                  CorrectedBefore(recs, k, recs[i]) || Corrects(recs[k], recs[i])
      {
        CorrectedSteps(recs, k, recs[i]);
      }
      k := k + 1;
    }
    forall i | 0 <= i < |rows| ensures CorrectedBefore(recs, |recs|, recs[i]) <==> Corrected(recs, recs[i]) {
      CorrectedSteps(recs, |recs|, recs[i]);
    }
  }

  lemma CorrectedSteps(recs: seq<Record>, k: nat, r: Record)
    requires k <= |recs|
    ensures !CorrectedBefore(recs, 0, r)
    ensures k < |recs| ==> (CorrectedBefore(recs, k + 1, r) <==> CorrectedBefore(recs, k, r) || Corrects(recs[k], r))
    ensures CorrectedBefore(recs, |recs|, r) <==> Corrected(recs, r)
  {
    hide Corrects;
  }

  // --- Lineage lengths, or a circular lineage ----------------------------------------------

  /** Each record of `chain` corrects the next one. */
  ghost predicate IsChain(recs: seq<Record>, chain: seq<Record>) {
    && |chain| > 0
    && (forall c :: c in chain ==> c in recs)
    && forall i :: 0 <= i < |chain| - 1 ==> Predecessor(recs, chain[i]) == Some(chain[i + 1])
  }

  lemma {:induction false} ChainEnds(recs: seq<Record>, chain: seq<Record>, i: nat)
    requires IsChain(recs, chain) && i < |chain| && Predecessor(recs, chain[|chain| - 1]).None?
    ensures LineageIs(recs, chain[i], |chain| - i)
    decreases |chain| - i
  {
    if i < |chain| - 1 { ChainEnds(recs, chain, i + 1); }
  }

  lemma {:induction false} LoopNeverEnds(recs: seq<Record>, chain: seq<Record>, j: nat, i: nat, n: nat)
    requires IsChain(recs, chain) && j < |chain| && i < |chain|
    requires Predecessor(recs, chain[|chain| - 1]) == Some(chain[j])
    ensures !LineageIs(recs, chain[i], n)
    decreases n
  {
    if n > 0 { LoopNeverEnds(recs, chain, j, if i < |chain| - 1 then i + 1 else j, n - 1); }
  }

  ghost function IdsOf(recs: seq<Record>): set<int> { set r | r in recs :: r.id }

  lemma IdsOfSnoc(recs: seq<Record>, r: Record)
    ensures IdsOf(recs + [r]) == IdsOf(recs) + {r.id}
  {
    forall id | id in IdsOf(recs) + {r.id} ensures id in IdsOf(recs + [r]) {
      if id in IdsOf(recs) {
        var x :| x in recs && x.id == id;
        assert x in recs + [r];
      } else {
        assert r in recs + [r];
      }
    }
  }

  /** The version walk: counts back along corrections, or notices that it goes round. */
  method MeasureLineage(recs: seq<Record>, r: Record) returns (version: Option<nat>)
    requires DistinctRecords(recs) && r in recs
    ensures version.Some? ==> LineageIs(recs, r, version.value)
    ensures version.None? ==> forall n :: !LineageIs(recs, r, n)
  {
    var seen := {r.id};
    ghost var chain := [r];
    ghost var all := set x | x in recs :: x.id;
    var count := 1;
    var predecessor := Predecessor(recs, r);
    while predecessor.Some?
      invariant IsChain(recs, chain) && chain[0] == r && |chain| == count
      invariant predecessor == Predecessor(recs, chain[|chain| - 1])
      invariant seen <= all && seen == IdsOf(chain)
      decreases all - seen
    {
      var p := predecessor.value;
      if p.id in seen {
        ghost var c :| c in chain && c.id == p.id;
        ghost var j: nat :| j < |chain| && chain[j] == c;
        SameRecord(recs, chain[j], p);
        forall n ensures !LineageIs(recs, r, n) {
          if n >= 0 { LoopNeverEnds(recs, chain, j, 0, n); }
        }
        return None;
      }
      seen := seen + {p.id};
      IdsOfSnoc(chain, p);
      chain := chain + [p];
      count := count + 1;
      predecessor := Predecessor(recs, p);
    }
    ChainEnds(recs, chain, 0);
    return Some(count);
  }

  lemma SameRecord(recs: seq<Record>, a: Record, b: Record)
    requires DistinctRecords(recs) && a in recs && b in recs && a.id == b.id
    ensures a == b
  {
    var i :| 0 <= i < |recs| && recs[i] == a;
    var j :| 0 <= j < |recs| && recs[j] == b;
  }

  method MeasureVersions(rows: seq<Row>) returns (ok: bool)
    requires DistinctRows(rows) && AcceptedGroup(Records(rows))
    modifies rows
    ensures ok <==> LineagesEnd(Records(rows))
    ensures ok ==> forall i :: 0 <= i < |rows| ==> LineageIs(Records(rows), rows[i].rec, rows[i].version)
    ensures forall i :: 0 <= i < |rows| ==> rows[i].status == old(rows[i].status)
  {
    ghost var recs := Records(rows);
    hide LineageIs, DistinctRecords;
    var k := 0;
    while k < |rows|
      invariant 0 <= k <= |rows|
      invariant forall i :: 0 <= i < k ==> LineageIs(recs, recs[i], rows[i].version)
      invariant forall i :: 0 <= i < |rows| ==> rows[i].status == old(rows[i].status)
    {
      assert recs[k] in recs;
      var version := MeasureLineage(Records(rows), rows[k].rec);
      if version.None? { return false; }
      rows[k].version := version.value;
      k := k + 1;
    }
    forall r | r in recs ensures exists n :: LineageIs(recs, r, n) {
      var i: nat :| i < |recs| && recs[i] == r;
    }
    return true;
  }

  // --- Choosing among the heads --------------------------------------------------------------

  function CurrentRows(rows: seq<Row>): seq<Row>
    reads rows
  {
    if |rows| == 0 then []
    else
      var front := CurrentRows(rows[..|rows| - 1]);
      if rows[|rows| - 1].status == Current then front + [rows[|rows| - 1]] else front
  }

  lemma {:induction false} CurrentRowsFacts(rows: seq<Row>)
    requires DistinctRows(rows)
    ensures forall r :: r in CurrentRows(rows) ==> r in rows && r.status == Current
    ensures forall r :: r in rows && r.status == Current ==> r in CurrentRows(rows)
    ensures DistinctRows(CurrentRows(rows))
  {
    if |rows| > 0 {
      var front, last := rows[..|rows| - 1], rows[|rows| - 1];
      CurrentRowsFacts(front);
      assert rows == front + [last];
      assert last !in front;
    }
  }

  lemma {:induction false} CurrentRowsAreHeads(rows: seq<Row>, recs: seq<Record>)
    requires forall r :: r in rows ==> (r.status == Current <==> !Corrected(recs, r.rec))
    ensures Records(CurrentRows(rows)) == Filter(Records(rows), (r: Record) => !Corrected(recs, r))
  {
    hide Corrected;
    if |rows| > 0 {
      var front, last := rows[..|rows| - 1], rows[|rows| - 1];
      CurrentRowsAreHeads(front, recs);
      assert Records(rows) == Records(front) + [last.rec];
      FilterSnoc(Records(front), last.rec, (r: Record) => !Corrected(recs, r));
    }
  }

  /** With several heads: all conflict if any two disagree, otherwise the last one stays. */
  method ResolveHeads(rows: seq<Row>)
    requires DistinctRows(rows) && AcceptedGroup(Records(rows))
    requires forall i :: 0 <= i < |rows| ==>
               rows[i].status == (if Corrected(Records(rows), rows[i].rec) then Superseded else Current)
    modifies rows
    ensures forall i :: 0 <= i < |rows| ==> rows[i].status == StatusOf(Records(rows), rows[i].rec)
    ensures forall i :: 0 <= i < |rows| ==> rows[i].version == old(rows[i].version)
  {
    hide Corrected, Heads, Agree, StatusOf, CurrentRows;
    ghost var recs := Records(rows);
    var active := CurrentRows(rows);
    CurrentRowsFacts(rows);
    assert forall k :: 0 <= k < |active| ==> active[k] in active && active[k] in rows;
    ActiveHeads(rows);
    var signatures := set r | r in active :: SignatureOf(r.rec);
    HeadsAgree(active, signatures);
    if |active| > 1 {
      if |signatures| > 1 {
        SetStatus(active, Conflicted, None);
      } else {
        SetStatus(active[..|active| - 1], Superseded, Some(active[|active| - 1].rec.id));
      }
    }
    SingleAgrees(Heads(recs));
    forall i | 0 <= i < |rows| ensures rows[i].status == StatusOf(recs, rows[i].rec) {
      SettledStatus(rows, active, i);
    }
  }

  lemma ActiveHeads(rows: seq<Row>)
    requires forall i :: 0 <= i < |rows| ==>
               rows[i].status == (if Corrected(Records(rows), rows[i].rec) then Superseded else Current)
    ensures Records(CurrentRows(rows)) == Heads(Records(rows))
  {
    CurrentRowsAreHeads(rows, Records(rows));
  }

  lemma SingleAgrees(heads: seq<Record>)
    ensures |heads| <= 1 ==> Agree(heads)
  {
    if !Agree(heads) { SeveralHeads(heads); }
  }

  /** What the choice among the heads leaves in row `i`. */
  lemma SettledStatus(rows: seq<Row>, active: seq<Row>, i: nat)
    requires i < |rows| && DistinctRows(rows) && AcceptedGroup(Records(rows)) && DistinctRows(active)
    requires Records(active) == Heads(Records(rows)) && forall r :: r in active ==> r in rows
    requires rows[i] in active <==> !Corrected(Records(rows), rows[i].rec)
    requires rows[i] !in active ==> rows[i].status == Superseded
    requires |Heads(Records(rows))| <= 1 ==> Agree(Heads(Records(rows)))
    requires rows[i] in active ==>
               rows[i].status == if !Agree(Heads(Records(rows))) then Conflicted
                                 else if rows[i] in active[..|active| - 1] then Superseded else Current
    ensures rows[i].status == StatusOf(Records(rows), rows[i].rec)
  {
    if rows[i] in active {
      var k: nat :| k < |active| && active[k] == rows[i];
      HeadAt(rows, active, Records(rows), i, k);
    }
  }

  /** Position `k` among the current rows decides the status of row `i`. */
  lemma HeadAt(rows: seq<Row>, active: seq<Row>, recs: seq<Record>, i: nat, k: nat)
    requires i < |rows| && k < |active| && active[k] == rows[i]
    requires recs == Records(rows) && DistinctRecords(recs) && DistinctRows(active)
    requires Records(active) == Heads(recs) && !Corrected(recs, rows[i].rec)
    requires forall r :: r in active ==> r in rows
    ensures StatusOf(recs, rows[i].rec) ==
            (if !Agree(Heads(recs)) then Conflicted else if k == |active| - 1 then Current else Superseded)
    ensures k < |active| - 1 <==> rows[i] in active[..|active| - 1]
  {
    var heads, last := Heads(recs), active[|active| - 1];
    assert heads[k] == rows[i].rec && heads[|heads| - 1] == last.rec;
    if k < |active| - 1 {
      assert active[..|active| - 1][k] == rows[i];
      assert last in active;
      var j: nat :| j < |rows| && rows[j] == last;
      assert recs[j].id != recs[i].id;
    }
  }

  lemma HeadsAgree(active: seq<Row>, signatures: set<Signature>)
    requires signatures == set r | r in active :: SignatureOf(r.rec)
    ensures |signatures| <= 1 <==> Agree(Records(active))
  {
    var heads := Records(active);
    if Agree(heads) {
      if |active| == 0 {
        assert signatures == {};
      } else {
        assert heads[0] in heads;
        forall x | x in signatures ensures x == SignatureOf(heads[0]) {
          var r :| r in active && SignatureOf(r.rec) == x;
          var i: nat :| i < |active| && active[i] == r;
          assert heads[i] in heads;
        }
        assert active[0] in active;
        assert signatures == {SignatureOf(heads[0])};
      }
    } else {
      var a, b :| a in heads && b in heads && SignatureOf(a) != SignatureOf(b);
      var i: nat :| i < |heads| && heads[i] == a;
      var j: nat :| j < |heads| && heads[j] == b;
      assert active[i] in active && active[j] in active;
      assert {SignatureOf(a), SignatureOf(b)} <= signatures;
      SubsetCount({SignatureOf(a), SignatureOf(b)}, signatures);
    }
  }

  method SetStatus(targets: seq<Row>, status: Status, successor: Option<int>)
    modifies targets
    ensures forall r :: r in targets ==> r.status == status
    ensures forall r :: r in targets ==> r.version == old(r.version)
  {
    var i := 0;
    while i < |targets|
      invariant 0 <= i <= |targets|
      invariant forall j :: 0 <= j < i ==> targets[j].status == status
      invariant forall r :: r in targets ==> r.version == old(r.version)
    {
      targets[i].status := status;
      if successor.Some? { targets[i].supersededBy := successor; }
      i := i + 1;
    }
  }

  // --- One group --------------------------------------------------------------------------------

  function AcceptedRows(rows: seq<Row>): (r: seq<Row>)
    ensures forall x :: x in r ==> x in rows && IsAccepted(x.rec)
    ensures forall x :: x in rows && IsAccepted(x.rec) ==> x in r
  {
    if |rows| == 0 then []
    else
      var front := AcceptedRows(rows[..|rows| - 1]);
      if IsAccepted(rows[|rows| - 1].rec) then front + [rows[|rows| - 1]] else front
  }

  lemma RecordsSnoc(rows: seq<Row>, last: Row)
    ensures Records(rows + [last]) == Records(rows) + [last.rec]
  {
  }

  lemma {:induction false} AcceptedRowsAre(rows: seq<Row>)
    ensures Records(AcceptedRows(rows)) == Filter(Records(rows), IsAccepted)
  {
    if |rows| > 0 {
      hide IsAccepted, Filter, Records;
      var front, last := rows[..|rows| - 1], rows[|rows| - 1];
      AcceptedRowsAre(front);
      RecordsSnoc(front, last);
      assert rows == front + [last];
      FilterSnoc(Records(front), last.rec, IsAccepted);
      RecordsSnoc(AcceptedRows(front), last);
    }
  }

  lemma {:induction false} AcceptedRowsDistinct(rows: seq<Row>)
    requires DistinctRows(rows)
    ensures DistinctRows(AcceptedRows(rows))
  {
    hide IsAccepted;
    if |rows| > 0 {
      var front, last := rows[..|rows| - 1], rows[|rows| - 1];
      AcceptedRowsDistinct(front);
      var kept := AcceptedRows(front);
      forall i | 0 <= i < |kept| ensures kept[i] != last {
        assert kept[i] in front;
        var k: nat :| k < |front| && front[k] == kept[i];
        assert rows[k] == kept[i];
      }
    }
  }

  function IdOf(r: Record): int { r.id }

  lemma FilterDistinct(rs: seq<Record>, p: Record -> bool)
    requires DistinctRecords(rs)
    ensures DistinctRecords(Filter(rs, p))
  {
    FilterDistinctBy(rs, p, IdOf);
  }

  lemma AcceptedRowsRecords(rows: seq<Row>)
    requires DistinctRows(rows) && DistinctRecords(Records(rows))
    ensures Records(AcceptedRows(rows)) == Filter(Records(rows), IsAccepted)
    ensures DistinctRows(AcceptedRows(rows)) && AcceptedGroup(Records(AcceptedRows(rows)))
  {
    hide IsAccepted, AcceptedRows;
    AcceptedRowsAre(rows);
    AcceptedRowsDistinct(rows);
    FilterDistinct(Records(rows), IsAccepted);
  }

  /** One (position, date) group: corrections, versions, then the heads. */
  method ResolveGroup(rows: seq<Row>) returns (ok: bool)
    requires DistinctRows(rows) && DistinctRecords(Records(rows))
    requires forall r :: r in rows ==> r.status == if IsAccepted(r.rec) then Current else Legacy
    modifies rows
    ensures ok <==> LineagesEnd(Filter(Records(rows), IsAccepted))
    ensures ok ==> forall r :: r in rows && IsAccepted(r.rec) ==>
                     && r.status == StatusOf(Filter(Records(rows), IsAccepted), r.rec)
                     && LineageIs(Filter(Records(rows), IsAccepted), r.rec, r.version)
    ensures forall r :: r in rows && !IsAccepted(r.rec) ==> r.status == Legacy
  {
    hide StatusOf, LineageIs, LineagesEnd, Corrected, DistinctRecords;
    var trusted := AcceptedRows(rows);
    AcceptedRowsRecords(rows);
    forall i | 0 <= i < |trusted| ensures trusted[i] in trusted { }
    MarkCorrected(trusted);
    ok := MeasureVersions(trusted);
    if ok { ResolveHeads(trusted); }
    forall r | r in rows && IsAccepted(r.rec) ensures exists i: nat :: i < |trusted| && trusted[i] == r {
      assert r in trusted;
    }
  }
}
