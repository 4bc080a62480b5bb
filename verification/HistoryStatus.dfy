/**
 Which retained marks count (lib/portfolio-history.ts, the resolution of a group in
 `projectPortfolioHistory`), read off the records themselves: usable, corrected, rivalled, or in force.
 */
module HistoryStatus {
  import opened Common
  import opened Ordering
  import opened History
  import opened HistoryProjection

  ghost predicate Usable(r: Record) { r.trusted && r.recordedAt != None }

  ghost predicate OfOneDay(r: Record, s: Record) { s.holdingId == r.holdingId && s.date == r.date }

  /** A usable mark of the same position and day corrects this one, and was recorded no earlier. */
  ghost predicate Replaced(rs: seq<Record>, r: Record) {
    exists s :: s in rs && Usable(s) && OfOneDay(r, s) && Supersedes(s, r)
  }

  ghost predicate Supersedes(s: Record, r: Record) {
    && s.id != r.id && s.correctionOf == Some(r.id) && r.recordedAt.Some? && s.recordedAt.Some?
    && s.recordedAt.value >= r.recordedAt.value
  }

  /** Usable and not replaced. */
  ghost predicate Stands(rs: seq<Record>, r: Record) { r in rs && Usable(r) && !Replaced(rs, r) }

  /** The value in EUR that a record supports. */
  function Euros(r: Record): Option<int> {
    if r.currency != "EUR" then if r.hasFx then r.retainedEUR else None
    else if r.native == r.retainedEUR then r.native
    else None
  }

  ghost predicate SayTheSame(r: Record, s: Record) {
    r.native == s.native && r.currency == s.currency && r.basis == s.basis && Euros(r) == Euros(s)
  }

  /** Another standing mark of the position and day says something else. */
  ghost predicate Rivalled(rs: seq<Record>, r: Record) {
    exists s :: Stands(rs, s) && OfOneDay(r, s) && !SayTheSame(r, s)
  }

  /** No standing mark of the position and day was recorded later, or as late with a later identifier. */
  ghost predicate RecordedLast(rs: seq<Record>, r: Record) {
    forall s :: Stands(rs, s) && OfOneDay(r, s) && s != r ==> NotLater(s, r)
  }

  ghost predicate NotLater(s: Record, r: Record) {
    s.recordedAt.Some? && r.recordedAt.Some?
    && (s.recordedAt.value < r.recordedAt.value || (s.recordedAt == r.recordedAt && s.id < r.id))
  }

  /** The status of a mark in a sorted history: exactly one of the four, each from the records alone. */
  lemma StatusSays(rs: seq<Record>, r: Record)
    requires SortedRecords(rs) && DistinctRecords(rs) && r in rs
    ensures FinalStatus(rs, r) == Legacy <==> !Usable(r)
    ensures FinalStatus(rs, r) == Conflicted <==> Stands(rs, r) && Rivalled(rs, r)
    ensures FinalStatus(rs, r) == Current <==> Stands(rs, r) && !Rivalled(rs, r) && RecordedLast(rs, r)
    ensures FinalStatus(rs, r) == Superseded <==>
            Usable(r) && (Replaced(rs, r) || (!Rivalled(rs, r) && !RecordedLast(rs, r)))
  {
    hide *;
    StatusFrom(rs, r);
    if Usable(r) {
      StandsIs(rs, r);
      HeadsAre(rs, r);
      var heads := Heads(GroupOf(rs, r.holdingId, r.date));
      if Stands(rs, r) {
        AgreeIs(rs, r, heads);
        LastIs(rs, r, heads);
      }
    }
    StandsNeeds(rs, r);
  }

  lemma StandsNeeds(rs: seq<Record>, r: Record)
    requires r in rs
    ensures Stands(rs, r) <==> Usable(r) && !Replaced(rs, r)
  {
    hide Usable, Replaced;
  }

  lemma StatusFrom(rs: seq<Record>, r: Record)
    ensures !Usable(r) ==> FinalStatus(rs, r) == Legacy
    ensures var group := GroupOf(rs, r.holdingId, r.date);
            var heads := Heads(group);
            Usable(r) ==> FinalStatus(rs, r) == if Corrected(group, r) then Superseded
                                                else if !Agree(heads) then Conflicted
                                                else if |heads| > 0 && r == heads[|heads| - 1] then Current
                                                else Superseded
  {
    hide GroupOf, Heads, Corrected, Agree;
  }

  lemma StandsIs(rs: seq<Record>, r: Record)
    requires r in rs && Usable(r)
    ensures Corrected(GroupOf(rs, r.holdingId, r.date), r) <==> Replaced(rs, r)
  {
    GroupIs(rs, r);
    var group := GroupOf(rs, r.holdingId, r.date);
    hide GroupOf, Usable;
    if s :| s in group && Corrects(s, r) { assert Supersedes(s, r); }
    if s :| s in rs && Usable(s) && OfOneDay(r, s) && Supersedes(s, r) { assert s in group && Corrects(s, r); }
  }

  lemma GroupIs(rs: seq<Record>, r: Record)
    ensures forall s :: s in GroupOf(rs, r.holdingId, r.date) <==> s in rs && Usable(s) && OfOneDay(r, s)
  {
  }

  /** The heads of a group are its standing marks, in order. */
  lemma HeadsAre(rs: seq<Record>, r: Record)
    requires SortedRecords(rs) && r in rs && Usable(r)
    ensures var heads := Heads(GroupOf(rs, r.holdingId, r.date));
            && (forall s :: s in heads <==> Stands(rs, s) && OfOneDay(r, s))
            && Sorted(heads, Precedes)
  {
    var group := GroupOf(rs, r.holdingId, r.date);
    GroupIs(rs, r);
    FilterSorted(rs, Precedes, (s: Record) => InGroup(s, r.holdingId, r.date));
    FilterSorted(group, Precedes, (s: Record) => !Corrected(group, s));
    forall s ensures s in Heads(group) <==> Stands(rs, s) && OfOneDay(r, s) {
      if s in group {
        StandsIs(rs, s);
      }
    }
  }

  lemma AgreeIs(rs: seq<Record>, r: Record, heads: seq<Record>)
    requires Stands(rs, r)
    requires forall s :: s in heads <==> Stands(rs, s) && OfOneDay(r, s)
    ensures Agree(heads) <==> !Rivalled(rs, r)
  {
    hide Stands;
    assert OfOneDay(r, r);
    forall s, t ensures SignatureOf(s) == SignatureOf(t) <==> SayTheSame(s, t) { SameSignature(s, t); }
    hide SignatureOf, SayTheSame;
    if !Rivalled(rs, r) {
      forall a, b | a in heads && b in heads ensures SignatureOf(a) == SignatureOf(b) {
        assert SayTheSame(r, a) && SayTheSame(r, b);
        assert SignatureOf(r) == SignatureOf(a) && SignatureOf(r) == SignatureOf(b);
      }
    }
    if Agree(heads) {
      forall s | Stands(rs, s) && OfOneDay(r, s) ensures SayTheSame(r, s) {
        assert SignatureOf(r) == SignatureOf(s);
      }
    }
  }

  lemma SameSignature(s: Record, t: Record)
    ensures SignatureOf(s) == SignatureOf(t) <==> SayTheSame(s, t)
  {
  }

  lemma LastIs(rs: seq<Record>, r: Record, heads: seq<Record>)
    requires DistinctRecords(rs) && Stands(rs, r) && Sorted(heads, Precedes)
    requires forall s :: s in heads <==> Stands(rs, s) && OfOneDay(r, s)
    ensures |heads| > 0 && (r == heads[|heads| - 1] <==> RecordedLast(rs, r))
  {
    assert OfOneDay(r, r) && r in heads;
    var last := heads[|heads| - 1];
    assert last in heads;
    hide Stands;
    if r != last {
      Comes(rs, heads, r, last);
      assert !NotLater(last, r);
    } else {
      forall s | Stands(rs, s) && OfOneDay(r, s) && s != r ensures NotLater(s, r) {
        Comes(rs, heads, s, r);
      }
    }
  }

  /** Of two marks of a day, a standing one before the last was recorded before it. */
  lemma Comes(rs: seq<Record>, heads: seq<Record>, s: Record, last: Record)
    requires DistinctRecords(rs) && Sorted(heads, Precedes) && |heads| > 0 && last == heads[|heads| - 1]
    requires Stands(rs, s) && Stands(rs, last) && OfOneDay(s, last) && s != last && s in heads
    ensures NotLater(s, last) && !NotLater(last, s)
  {
    hide Replaced;
    var i: nat :| i < |heads| && heads[i] == s;
    assert !Precedes(last, s);
    var j: nat :| j < |rs| && rs[j] == s;
    var k: nat :| k < |rs| && rs[k] == last;
    assert s.id != last.id;
  }
}
