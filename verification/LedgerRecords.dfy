/**
 What a posted event leaves on each balance it names (lib/ledger.ts, `applyPostings`): the figures, the
 day and source of cash, the capital an investment carries since its mark, and the row of the day.
 */
module LedgerRecords {
  import opened Common
  import opened LedgerState
  import opened LedgerPosting
  import opened LedgerCommands
  import opened LedgerLives
  import opened LedgerAdmission
  import opened LedgerDecisions

  /** Capital settled since the last mark. */
  function Pending(h: Holding): int { if h.detail.Some? then h.detail.value.pendingCapital else 0 }

  /** An investment whose value moves is marked plus capital, until what came in has gone out again. */
  ghost predicate Marks(h: Holding, g: Holding, moved: int) {
    if moved == 0 then g.basis == h.basis
    else if Pending(g) == 0 then UsuallyValued(h.assetClass, g.basis)
    else g.basis == PlusCapital
  }

  /** A posting on its balance: cash stands on the day and on the new evidence, an investment keeps its mark. */
  ghost predicate Records(h: Holding, g: Holding, date: int, p: Posting, sourceId: string) {
    && (g.id, g.familyId, g.entityId, g.accountId, g.assetClass, g.currency) ==
       (h.id, h.familyId, h.entityId, h.accountId, h.assetClass, h.currency)
    && g.native == h.native + p.native && g.value == h.value + p.value
    && g.commitment == h.commitment + p.commitment && g.cost == h.cost + p.cost
    && g.valueKnown == h.valueKnown && g.liquidityKnown == h.liquidityKnown
    && if h.assetClass == Cash then
         g.markDate == date && g.sourceId == sourceId && g.basis == CashBalance && Pending(g) == Pending(h)
       else
         && g.markDate == h.markDate && g.sourceId == h.sourceId
         && Pending(g) == Pending(h) + p.value && Marks(h, g, p.value)
  }

  lemma PostedRecords(h: Holding, date: int, p: Posting, sourceId: string)
    ensures Records(h, Posted(h, date, p, sourceId), date, p, sourceId)
  {
    UsualMethod(h.assetClass);
    hide UsuallyValued, BaseMethod;
  }

  /** The row of the day: the new value, and the boundary flow on the balance of the first leg. */
  function RowOf(s: State, e: Event, p: Posting, value: int): HistoryRow
    requires e.postings != []
  {
    var before := FindRow(s.history, p.holdingId, e.date);
    HistoryRow(p.holdingId, e.date, value,
               (if before.Some? then before.value.flow else 0)
               + (if p.holdingId == e.postings[0].holdingId then e.flow else 0))
  }

  /** One leg's balance and its row, in a state reached by posting the event. */
  ghost predicate LegRecorded(s: State, t: State, e: Event, p: Posting, sourceId: string)
    requires e.postings != []
  {
    var h, g := At(s.holdings, p.holdingId), At(t.holdings, p.holdingId);
    && h.Some? && g.Some? && Records(h.value, g.value, e.date, p, sourceId)
    && FindRow(t.history, p.holdingId, e.date) == Some(RowOf(s, e, p, g.value.value))
  }

  /** Balances and rows of one identifier that one posting does not name. */
  ghost predicate Spared(s: State, t: State, id: string) {
    && At(t.holdings, id) == At(s.holdings, id)
    && forall date :: FindRow(t.history, id, date) == FindRow(s.history, id, date)
  }

  lemma OneRecorded(s: State, e: Event, p: Posting, sourceId: string)
    requires e.postings != [] && PostOne(s, e, p, IsFirst(e, p), sourceId).Ok?
    ensures LegRecorded(s, PostOne(s, e, p, IsFirst(e, p), sourceId).value, e, p, sourceId)
  {
    hide PutRow, FindRow, LatestPosting, Records;
    var k := FindHolding(s.holdings, p.holdingId).value;
    var g := Posted(s.holdings[k], e.date, p, sourceId);
    PostedRecords(s.holdings[k], e.date, p, sourceId);
    assert g.id == s.holdings[k].id == p.holdingId;
    hide Posted;
    PutAt(s.holdings, k, g);
    PutRowIs(s.history, RowOf(s, e, p, g.value), p.holdingId, e.date);
    hide FindHolding;
  }

  lemma {:induction false} PutAt(hs: seq<Holding>, k: nat, g: Holding)
    requires FindHolding(hs, g.id) == Some(k)
    ensures At(hs[k := g], g.id) == Some(g)
  {
    if k > 0 {
      assert hs[k := g][1..] == hs[1..][k - 1 := g];
      PutAt(hs[1..], k - 1, g);
    }
  }

  lemma OneSpares(s: State, e: Event, p: Posting, first: bool, sourceId: string, id: string)
    requires PostOne(s, e, p, first, sourceId).Ok? && p.holdingId != id
    ensures Spared(s, PostOne(s, e, p, first, sourceId).value, id)
  {
    OtherStays(s, e, p, first, sourceId, id);
    hide PutRow, FindRow, LatestPosting, Posted, At;
    var t := PostOne(s, e, p, first, sourceId).value;
    var k := FindHolding(s.holdings, p.holdingId).value;
    var row := t.history;
    forall date ensures FindRow(t.history, id, date) == FindRow(s.history, id, date) {
      var next := Posted(s.holdings[k], e.date, p, sourceId);
      var existing := FindRow(s.history, s.holdings[k].id, e.date);
      var flow := (if existing.Some? then existing.value.flow else 0) + (if first then e.flow else 0);
      PutRowIs(s.history, HistoryRow(s.holdings[k].id, e.date, next.value, flow), id, date);
    }
  }

  lemma SparedThrough(s: State, t: State, u: State, e: Event, p: Posting, sourceId: string)
    requires e.postings != [] && LegRecorded(s, t, e, p, sourceId) && Spared(t, u, p.holdingId)
    ensures LegRecorded(s, u, e, p, sourceId)
  {
    hide At, FindRow, Records;
  }

  lemma SparedBefore(s: State, t: State, u: State, e: Event, p: Posting, sourceId: string)
    requires e.postings != [] && LegRecorded(t, u, e, p, sourceId) && Spared(s, t, p.holdingId)
    ensures LegRecorded(s, u, e, p, sourceId)
  {
    hide At, FindRow, Records;
  }

  lemma SparedTwice(s: State, t: State, u: State, id: string)
    requires Spared(s, t, id) && Spared(t, u, id)
    ensures Spared(s, u, id)
  {
    hide At, FindRow;
  }

  /** Posting an event records every leg on its own balance, and leaves every other balance alone. */
  lemma {:induction false} LegsRecorded(s: State, e: Event, n: nat, sourceId: string)
    requires n <= |e.postings| && DistinctLegs(e.postings) && ApplyFirst(s, e, n, sourceId).Ok?
    ensures var t := ApplyFirst(s, e, n, sourceId).value;
            && (forall i :: 0 <= i < n ==> LegRecorded(s, t, e, e.postings[i], sourceId))
            && forall id :: (forall i :: 0 <= i < n ==> e.postings[i].holdingId != id) ==> Spared(s, t, id)
    decreases n
  {
    hide At, FindRow, PostOne, IsFirst, LegRecorded, Spared;
    if n == 0 {
      forall id ensures Spared(s, s, id) { SparedSame(s, id); }
    } else {
      var t, p := ApplyFirst(s, e, n - 1, sourceId).value, e.postings[n - 1];
      var u := PostOne(t, e, p, IsFirst(e, p), sourceId).value;
      LegsRecorded(s, e, n - 1, sourceId);
      OneRecorded(t, e, p, sourceId);
      SparedBefore(s, t, u, e, p, sourceId);
      forall i | 0 <= i < n - 1 ensures LegRecorded(s, u, e, e.postings[i], sourceId) {
        OneSpares(t, e, p, IsFirst(e, p), sourceId, e.postings[i].holdingId);
        SparedThrough(s, t, u, e, e.postings[i], sourceId);
      }
      forall id | forall i :: 0 <= i < n ==> e.postings[i].holdingId != id ensures Spared(s, u, id) {
        OneSpares(t, e, p, IsFirst(e, p), sourceId, id);
        SparedTwice(s, t, u, id);
      }
    }
  }

  lemma SparedSame(s: State, id: string)
    ensures Spared(s, s, id)
  {
  }

  /** A decision on a transaction records its legs, its evidence and its event, and nothing else. */
  lemma DecisionRecords(s: State, tx: Tx, e: Event, meta: Meta)
    requires DistinctLegs(e.postings) && PostEvent(s, tx, e, meta).Ok?
    ensures var t := PostEvent(s, tx, e, meta).value;
            && (forall p :: p in e.postings ==> LegRecorded(s, t, e, p, meta.id + "-source"))
            && (forall id :: (forall p :: p in e.postings ==> p.holdingId != id) ==> Spared(s, t, id))
            && t.events == s.events + [e] && s.evidence < t.evidence && t.marks == s.marks
            && t.transactions == s.transactions && t.notices == s.notices && t.coverage == s.coverage
  {
    var cash := PayingCash(s, tx, e.source).value;
    var w, sourceId := WithEvidence(s, cash, meta), meta.id + "-source";
    hide PayingCash;
    LegsRecorded(w, e, |e.postings|, sourceId);
    KeepsTheRest(w, e, |e.postings|, sourceId);
    hide LegRecorded, Spared, ApplyFirst;
    var t := PostEvent(s, tx, e, meta).value;
    forall p | p in e.postings ensures LegRecorded(s, t, e, p, sourceId) {
      SameRecords(s, w, ApplyFirst(w, e, |e.postings|, sourceId).value, t, e, p, sourceId);
    }
    forall id | forall p :: p in e.postings ==> p.holdingId != id ensures Spared(s, t, id) {
      SameSpared(s, w, ApplyFirst(w, e, |e.postings|, sourceId).value, t, id);
    }
  }

  lemma SameRecords(s: State, w: State, u: State, t: State, e: Event, p: Posting, sourceId: string)
    requires w.holdings == s.holdings && w.history == s.history && u.holdings == t.holdings && u.history == t.history
    requires e.postings != [] && LegRecorded(w, u, e, p, sourceId)
    ensures LegRecorded(s, t, e, p, sourceId)
  {
    hide At, FindRow, Records;
  }

  lemma SameSpared(s: State, w: State, u: State, t: State, id: string)
    requires w.holdings == s.holdings && w.history == s.history && u.holdings == t.holdings && u.history == t.history
    requires Spared(w, u, id)
    ensures Spared(s, t, id)
  {
    hide At, FindRow;
  }

  lemma {:induction false} KeepsTheRest(s: State, e: Event, n: nat, sourceId: string)
    requires n <= |e.postings| && ApplyFirst(s, e, n, sourceId).Ok?
    ensures var t := ApplyFirst(s, e, n, sourceId).value;
            t == s.(holdings := t.holdings, history := t.history)
    decreases n
  {
    hide PutRow, FindRow, FindHolding, Posted, LatestPosting;
    if n > 0 { KeepsTheRest(s, e, n - 1, sourceId); }
  }

  /** What is recorded of an event and of every balance it names or spares. */
  ghost predicate EventRecorded(s: State, t: State, e: Event, sourceId: string) {
    && e.postings != [] && t.events == s.events + [e] && s.evidence < t.evidence
    && (forall p :: p in e.postings ==> LegRecorded(s, t, e, p, sourceId))
    && (forall id :: (forall p :: p in e.postings ==> p.holdingId != id) ==> Spared(s, t, id))
  }

  /** A settlement is recorded on each of its legs, and on nothing else. */
  lemma SettlementRecords(s: State, txId: string, date: int, source: Source, meta: Meta) returns (tx: Tx, e: Event)
    requires (forall t :: t in s.transactions ==> FxOk(t.fx)) && SettleStep(s, txId, date, source, meta).Ok?
    ensures tx in s.transactions && tx.id == txId && Postings(s, tx) == Ok(e.postings)
    ensures e.kind == Settled && e.txId == txId && e.date == date
    ensures EventRecorded(s, SettleStep(s, txId, date, source, meta).value, e, meta.id + "-source")
  {
    hide Postings, PostEvent, StatusOf, SettleNoticeProblem;
    var d := SettleDecision(s, txId, date, source, meta).value;
    tx, e := d.0, d.1;
    LegsDistinct(s, tx);
    DecisionRecords(s, tx, e, meta);
    SomePostings(s, tx);
    hide LegRecorded, Spared;
  }

  lemma SomePostings(s: State, t: Tx)
    requires FxOk(t.fx) && Postings(s, t).Ok?
    ensures Postings(s, t).value != []
  {
    hide TxProblem, RevaluationProblem, DestinationRevaluation;
  }

  /** So is a reversal, of the first settlement's postings with their signs turned. */
  lemma ReversalRecords(s: State, txId: string, date: int, source: Source, meta: Meta) returns (prior: Event, e: Event)
    requires ReverseStep(s, txId, date, source, meta).Ok?
    requires forall x :: x in s.events && x.kind == Settled ==> DistinctLegs(x.postings) && x.postings != []
    ensures prior in s.events && prior.txId == txId && prior.kind == Settled
    ensures |e.postings| == |prior.postings|
    ensures forall i :: 0 <= i < |e.postings| ==> e.postings[i] == Taken(prior.postings[i])
    ensures e.kind == Reversed && e.txId == txId && e.date == date
    ensures EventRecorded(s, ReverseStep(s, txId, date, source, meta).value, e, meta.id + "-source")
  {
    hide PostEvent, StatusOf;
    var d := ReverseDecision(s, txId, date, source, meta).value;
    e := d.1;
    prior := FirstSettled(s.events, txId).value;
    assert forall i :: 0 <= i < |e.postings| ==> e.postings[i] == Taken(prior.postings[i]);
    DecisionRecords(s, d.0, e, meta);
    hide LegRecorded, Spared;
  }

  /** An investment that a settlement moved carries, once that is taken back, the capital it carried before. */
  lemma TakenBack(h: Holding, g: Holding, f: Holding, d1: int, d2: int, p: Posting, s1: string, s2: string)
    requires Records(h, g, d1, p, s1) && Records(g, f, d2, Taken(p), s2)
    ensures Pending(f) == Pending(h)
    ensures (f.native, f.value, f.commitment, f.cost) == (h.native, h.value, h.commitment, h.cost)
    ensures h.assetClass != Cash ==> f.markDate == h.markDate && f.sourceId == h.sourceId
    ensures h.assetClass != Cash && p.value != 0 ==>
              if Pending(h) == 0 then UsuallyValued(h.assetClass, f.basis) else f.basis == PlusCapital
  {
    hide UsuallyValued;
  }
}
