/**
 The remaining decisions of the ledger (lib/ledger.ts, `postReviewedValuation`,
 `postReviewedCashNotice`, `applyLedgerAction`): when a valuation, a reversal, a reconciliation, a
 notice or a registration is accepted, and everything it changes.
 */
module LedgerDecisions {
  import opened Common
  import opened LedgerState
  import opened LedgerPosting
  import opened LedgerCommands
  import opened LedgerRuns
  import opened LedgerReplay
  import opened LedgerLives
  import opened LedgerAdmission

  // --- Valuations ---------------------------------------------------------------------------------

  /** The first history row of the holding for the date. */
  ghost predicate IsRow(rows: seq<HistoryRow>, id: string, date: int, k: nat) {
    && k < |rows| && rows[k].holdingId == id && rows[k].date == date
    && forall j :: 0 <= j < k ==> rows[j].holdingId != id || rows[j].date != date
  }

  lemma {:induction false} FindRowIs(rows: seq<HistoryRow>, id: string, date: int)
    ensures FindRow(rows, id, date).None? <==> forall r :: r in rows ==> r.holdingId != id || r.date != date
    ensures FindRow(rows, id, date).Some? ==>
              exists k: nat :: IsRow(rows, id, date, k) && FindRow(rows, id, date) == Some(rows[k])
  {
    if |rows| > 0 {
      if rows[0].holdingId == id && rows[0].date == date {
        assert IsRow(rows, id, date, 0) && rows[0] in rows;
      } else {
        FindRowIs(rows[1..], id, date);
        if FindRow(rows[1..], id, date).Some? {
          var k: nat :| IsRow(rows[1..], id, date, k) && FindRow(rows[1..], id, date) == Some(rows[1..][k]);
          assert IsRow(rows, id, date, k + 1);
        }
        assert rows == [rows[0]] + rows[1..];
      }
    }
  }

  /** The value on record for a date: of its last mark, else of its history row, else the balance's own. */
  ghost predicate OnRecord(s: State, h: Holding, date: int, value: int) {
    var mark := PriorMark(s.marks, h.id, date);
    if mark.Some? then value == mark.value.value
    else if k: nat :| IsRow(s.history, h.id, date, k) then
      exists k: nat :: IsRow(s.history, h.id, date, k) && value == s.history[k].value
    else h.markDate == date && value == h.value
  }

  /** The rate on record: the mark's, or the one behind the balance when it stands on the date. */
  ghost predicate RateOnRecord(s: State, h: Holding, date: int, f: Fx) {
    var mark := PriorMark(s.marks, h.id, date);
    || (mark.Some? && mark.value.fx == Some(f))
    || ((mark.None? || mark.value.fx.None?) && h.markDate == date && h.detail.Some? && h.detail.value.fx == Some(f))
  }

  ghost predicate SameRates(f: Fx, g: Fx) {
    f.numerator * g.denominator == g.numerator * f.denominator && f.date == g.date && f.source == g.source
  }

  /** The amount, its currency and its rate are those on record. */
  ghost predicate SameFacts(s: State, h: Holding, v: ValuationInput) {
    var mark := PriorMark(s.marks, h.id, v.date);
    && (mark.Some? ==> mark.value.amount == v.amount && mark.value.currency == v.currency)
    && (mark.None? && h.markDate == v.date ==> h.native == v.amount && h.currency == v.currency)
    && forall f :: RateOnRecord(s, h, v.date, f) ==> v.fx.Some? && SameRates(f, v.fx.value)
  }

  /** What is on record changes only by a reasoned correction of exactly that value. */
  ghost predicate CorrectsOnRecord(s: State, h: Holding, v: ValuationInput, value: int) {
    && (v.correction.Some? ==> OnRecord(s, h, v.date, v.correction.value.expected))
    && forall was :: OnRecord(s, h, v.date, was) && (was != value || !SameFacts(s, h, v)) ==>
                       v.correction.Some? && v.correction.value.expected == was && v.correction.value.reason != ""
  }

  lemma OldValueIs(s: State, h: Holding, date: int, value: int)
    ensures OldValue(s, h, PriorMark(s.marks, h.id, date), date) == Some(value) <==> OnRecord(s, h, date, value)
  {
    FindRowIs(s.history, h.id, date);
    hide PriorMark, FindRow;
    var row := FindRow(s.history, h.id, date);
    if row.Some? {
      var k: nat :| IsRow(s.history, h.id, date, k) && row == Some(s.history[k]);
      forall j: nat | IsRow(s.history, h.id, date, j) ensures j == k { OneRow(s.history, h.id, date, j, k); }
    } else {
      forall j: nat ensures !IsRow(s.history, h.id, date, j) { }
    }
  }

  lemma OneRow(rows: seq<HistoryRow>, id: string, date: int, j: nat, k: nat)
    requires IsRow(rows, id, date, j) && IsRow(rows, id, date, k)
    ensures j == k
  {
  }

  lemma PriorFxIs(s: State, h: Holding, date: int, f: Fx)
    ensures PriorFx(h, PriorMark(s.marks, h.id, date), date) == Some(f) <==> RateOnRecord(s, h, date, f)
  {
    hide PriorMark;
  }

  lemma FactsAre(s: State, h: Holding, v: ValuationInput)
    ensures var mark := PriorMark(s.marks, h.id, v.date);
            !NativeChanged(h, mark, v) && !FxChanged(PriorFx(h, mark, v.date), v.fx) <==> SameFacts(s, h, v)
  {
    hide PriorMark;
    var before := PriorFx(h, PriorMark(s.marks, h.id, v.date), v.date);
    forall f ensures before == Some(f) <==> RateOnRecord(s, h, v.date, f) { PriorFxIs(s, h, v.date, f); }
    hide RateOnRecord, PriorFx;
    assert FxChanged(before, v.fx) <==> !(before.Some? ==> v.fx.Some? && SameRates(before.value, v.fx.value));
  }

  lemma CorrectionIs(s: State, h: Holding, v: ValuationInput, value: int)
    ensures CorrectionProblem(s, h, v, value).None? <==> CorrectsOnRecord(s, h, v, value)
  {
    var mark := PriorMark(s.marks, h.id, v.date);
    forall x ensures OldValue(s, h, mark, v.date) == Some(x) <==> OnRecord(s, h, v.date, x) {
      OldValueIs(s, h, v.date, x);
    }
    FactsAre(s, h, v);
    hide PriorMark, OldValue, OnRecord, SameFacts, NativeChanged, FxChanged, PriorFx;
  }

  /** No settlement in force touches the holding on the date or after it. */
  ghost predicate NothingSettledSince(s: State, h: Holding, date: int) {
    forall e :: e in s.events && e.kind == Settled && StatusOf(s.events, e.txId) == Settled
                && Names(e.postings, h.id) ==>
                  e.date < date
  }

  ghost predicate CanValue(s: State, v: ValuationInput, meta: Meta)
    requires FxOk(v.fx)
  {
    var h := At(s.holdings, v.holdingId);
    && v.date <= meta.today && h.Some? && |s.marks| < 4000
    && (exists e :: e in s.evidence && (e.id, e.holdingId, e.familyId) == (v.sourceId, h.value.id, h.value.familyId))
    && (h.value.assetClass == Cash && h.value.accountId in s.reviews ==>
          s.reviews[h.value.accountId].currency == v.currency)
    && Convert(v.amount, v.currency, v.fx, v.date).Ok?
    && CorrectsOnRecord(s, h.value, v, Convert(v.amount, v.currency, v.fx, v.date).value)
    && NothingSettledSince(s, h.value, v.date)
  }

  /** How a class of assets is valued as long as nothing else is said. */
  ghost predicate UsuallyValued(c: AssetClass, m: Method) {
    && (m == CashBalance <==> c == Cash) && (m == EquityAppraisal <==> c == RealEstate)
    && (m == MarketMark <==> c in {PublicEquities, FixedIncome})
    && (m == FundNav <==> c !in {Cash, RealEstate, PublicEquities, FixedIncome})
  }

  lemma UsualMethod(c: AssetClass)
    ensures forall m :: UsuallyValued(c, m) <==> m == BaseMethod(c)
  {
  }

  /** A mark says how it was made, or is made as the one before it; capital added to a mark is part of the new one. */
  ghost predicate MadeAs(h: Holding, v: ValuationInput, m: Method) {
    if v.basis.Some? then m == v.basis.value
    else if h.basis in {PlusCapital, SyntheticMark} then UsuallyValued(h.assetClass, m)
    else m == h.basis
  }

  /** The mark joins the record; the balance follows it unless a later mark already stands. */
  ghost predicate Valued(s: State, t: State, v: ValuationInput, meta: Meta)
    requires FxOk(v.fx)
  {
    && |t.marks| == |s.marks| + 1 && t.marks[..|s.marks|] == s.marks && |t.holdings| == |s.holdings|
    && var m := t.marks[|s.marks|];
    && m.id == meta.id && m.holdingId == v.holdingId && m.amount == v.amount && m.currency == v.currency
    && m.date == v.date && m.at == meta.at && m.sourceId == v.sourceId && m.fx == v.fx
    && Convert(v.amount, v.currency, v.fx, v.date) == Ok(m.value)
    && At(s.holdings, v.holdingId).Some? && MadeAs(At(s.holdings, v.holdingId).value, v, m.basis)
    && (forall i :: 0 <= i < |s.holdings| ==> ValuedHolding(s.holdings[i], t.holdings[i], m))
    && (forall id, date :: (id, date) != (v.holdingId, v.date) ==>
          FindRow(t.history, id, date) == FindRow(s.history, id, date))
    && FindRow(t.history, v.holdingId, v.date) == Some(HistoryRow(v.holdingId, v.date, m.value, 0))
    && t == s.(marks := t.marks, holdings := t.holdings, history := t.history, revision := s.revision + 1)
  }

  ghost predicate ValuedHolding(h: Holding, g: Holding, m: Mark) {
    if h.id != m.holdingId || m.date < h.markDate then g == h
    else
      && SameIdentity(h, g) && g.native == m.amount && g.value == m.value && g.currency == m.currency
      && g.markDate == m.date && g.valueKnown && g.sourceId == m.sourceId && g.basis == m.basis
      && g.commitment == h.commitment && g.cost == h.cost && g.liquidityKnown == h.liquidityKnown
      && g.detail.Some? && g.detail.value.pendingCapital == 0 && g.detail.value.fx == m.fx
      && g.detail.value.openingDate == (if h.detail.Some? then h.detail.value.openingDate else m.date)
  }

  lemma {:induction false} RowsKept(rows: seq<HistoryRow>, row: HistoryRow, id: string, date: int)
    requires (id, date) != (row.holdingId, row.date)
    ensures FindRow(Filter(rows, (r: HistoryRow) => !(r.holdingId == row.holdingId && r.date == row.date)), id, date) ==
            FindRow(rows, id, date)
  {
    var p := (r: HistoryRow) => !(r.holdingId == row.holdingId && r.date == row.date);
    if |rows| > 0 {
      var front, last := rows[..|rows| - 1], rows[|rows| - 1];
      RowsKept(front, row, id, date);
      assert rows == front + [last];
      FindRowSnoc(front, last, id, date);
      FindRowSnoc(Filter(front, p), last, id, date);
      hide FindRow;
    }
  }

  lemma {:induction false} FindRowSnoc(rows: seq<HistoryRow>, row: HistoryRow, id: string, date: int)
    ensures FindRow(rows + [row], id, date) ==
            if FindRow(rows, id, date).Some? then FindRow(rows, id, date)
            else if row.holdingId == id && row.date == date then Some(row) else None
  {
    if |rows| > 0 {
      FindRowSnoc(rows[1..], row, id, date);
      assert (rows + [row])[1..] == rows[1..] + [row];
    }
  }

  /** A day's row replaces the one before it, and no other. */
  lemma PutRowIs(rows: seq<HistoryRow>, row: HistoryRow, id: string, date: int)
    ensures FindRow(PutRow(rows, row), id, date) ==
            if (id, date) == (row.holdingId, row.date) then Some(row) else FindRow(rows, id, date)
  {
    var p := (r: HistoryRow) => !(r.holdingId == row.holdingId && r.date == row.date);
    FindRowSnoc(Filter(rows, p), row, id, date);
    if (id, date) == (row.holdingId, row.date) {
      FindRowIs(Filter(rows, p), id, date);
    } else {
      RowsKept(rows, row, id, date);
    }
    hide FindRow;
  }

  /** A valuation is accepted exactly when it may replace what is on record, and then it does. */
  lemma ValuesExactly(s: State, v: ValuationInput, meta: Meta)
    requires MoneyOk(v.amount) && FxOk(v.fx)
    ensures AcceptValuationStep(s, v, meta).Ok? <==> CanValue(s, v, meta)
  {
    var k := FindHolding(s.holdings, v.holdingId);
    if k.Some? {
      var h := s.holdings[k.value];
      if Convert(v.amount, v.currency, v.fx, v.date).Ok? {
        CorrectionIs(s, h, v, Convert(v.amount, v.currency, v.fx, v.date).value);
      }
      hide CorrectionProblem, CorrectsOnRecord, FindHolding, Convert, Marked, PutRow, StatusOf, Touches;
    }
  }

  /** An accepted valuation, as the code builds it. */
  lemma Accepted(s: State, v: ValuationInput, meta: Meta) returns (k: nat, m: Mark)
    requires MoneyOk(v.amount) && FxOk(v.fx) && AcceptValuationStep(s, v, meta).Ok?
    ensures FindHolding(s.holdings, v.holdingId) == Some(k)
    ensures Convert(v.amount, v.currency, v.fx, v.date) == Ok(m.value)
    ensures m == Mark(meta.id, v.holdingId, v.amount, v.currency, m.value, v.date, meta.at, v.sourceId, v.fx,
                      MarkMethod(s.holdings[k], v))
    ensures AcceptValuationStep(s, v, meta).value ==
            s.(marks := s.marks + [m], holdings := s.holdings[k := Marked(s.holdings[k], m)],
               history := PutRow(s.history, HistoryRow(v.holdingId, v.date, m.value, 0)), revision := s.revision + 1)
  {
    hide CorrectionProblem, FindHolding, Convert, PutRow, Overlaps, Marked, MarkMethod;
    k := FindHolding(s.holdings, v.holdingId).value;
    m := AcceptValuationStep(s, v, meta).value.marks[|s.marks|];
  }

  lemma ValuationIs(s: State, v: ValuationInput, meta: Meta)
    requires MoneyOk(v.amount) && FxOk(v.fx) && HoldingsOk(s.holdings) && AcceptValuationStep(s, v, meta).Ok?
    ensures Valued(s, AcceptValuationStep(s, v, meta).value, v, meta)
  {
    var k, m := Accepted(s, v, meta);
    var h, t := s.holdings[k], AcceptValuationStep(s, v, meta).value;
    hide AcceptValuationStep;
    MethodIs(h, v);
    ValuedHoldings(s.holdings, k, m);
    forall id, date ensures FindRow(t.history, id, date) ==
                            if (id, date) == (v.holdingId, v.date)
                              then Some(HistoryRow(v.holdingId, v.date, m.value, 0))
                            else FindRow(s.history, id, date)
    {
      PutRowIs(s.history, HistoryRow(h.id, v.date, m.value, 0), id, date);
    }
    hide FindHolding, Convert, PutRow, FindRow, Marked, MarkMethod, ValuedHolding, HoldingsOk, MadeAs;
  }

  lemma ValuedHoldings(hs: seq<Holding>, k: nat, m: Mark)
    requires HoldingsOk(hs) && k < |hs| && hs[k].id == m.holdingId
    ensures forall i :: 0 <= i < |hs| ==> ValuedHolding(hs[i], hs[k := Marked(hs[k], m)][i], m)
  {
    MarkedIs(hs[k], m);
    hide Marked;
    forall i | 0 <= i < |hs| ensures ValuedHolding(hs[i], hs[k := Marked(hs[k], m)][i], m) {
      assert hs[i].id == m.holdingId ==> i == k;
    }
  }

  lemma MarkedIs(h: Holding, m: Mark)
    requires m.holdingId == h.id
    ensures ValuedHolding(h, Marked(h, m), m)
  {
  }

  lemma MethodIs(h: Holding, v: ValuationInput)
    ensures MadeAs(h, v, MarkMethod(h, v))
  {
    UsualMethod(h.assetClass);
    hide UsuallyValued, BaseMethod;
  }

  /** A valuation entered by hand is one from its own new evidence. */
  lemma RecordsValuationExactly(s: State, c: Command, meta: Meta)
    requires c.RecordValuation? && CommandOk(c)
    ensures var h := At(s.holdings, c.holdingId);
            var v := ValuationInput(c.holdingId, c.amount, c.currency, c.date, meta.id + "-source", c.fx,
                                    c.correction, None);
            && (RecordValuationStep(s, c, meta).Ok? <==>
                  h.Some? && CitesKnown(s, c.source, h.value.familyId)
                      && CanValue(Evidencing(s, h.value, meta), v, meta))
            && (RecordValuationStep(s, c, meta).Ok? ==>
                  RecordValuationStep(s, c, meta) == AcceptValuationStep(Evidencing(s, h.value, meta), v, meta))
  {
    var k := FindHolding(s.holdings, c.holdingId);
    if k.Some? {
      var h := s.holdings[k.value];
      SourceIs(s, c.source, h.familyId);
      ValuesExactly(WithEvidence(s, h, meta), ValuationInput(c.holdingId, c.amount, c.currency, c.date,
                                                             meta.id + "-source", c.fx, c.correction, None), meta);
    }
    hide FindHolding, CitesKnown, SourceOk, CanValue, AcceptValuationStep;
  }

  /** The books with one more piece of evidence, about the holding. */
  function Evidencing(s: State, h: Holding, meta: Meta): State {
    s.(evidence := s.evidence + [Evidence(meta.id + "-source", h.familyId, h.id, true, false)])
  }

  // --- Reversals and voids --------------------------------------------------------------------------

  /** A settlement can be taken back while nothing has been valued on top of it and the books have room. */
  ghost predicate CanReverse(s: State, t: Tx, prior: Event, date: int, source: Source, meta: Meta) {
    && prior.date <= date <= meta.today && StatusOf(s.events, t.id) == Settled
    && (forall m :: m in s.marks && Names(prior.postings, m.holdingId) ==> m.at <= prior.at)
    && (forall p :: p in prior.postings ==> Fits(s, date, Taken(p)))
    && At(s.holdings, t.cashId).Some? && CitesKnown(s, source, At(s.holdings, t.cashId).value.familyId)
  }

  function Taken(p: Posting): Posting { Posting(p.holdingId, -p.native, -p.value, -p.commitment, -p.cost) }

  lemma {:induction false} FirstSettledIs(events: seq<Event>, txId: string)
    ensures FirstSettled(events, txId).Some? ==>
              exists k: nat :: k < |events| && FirstSettled(events, txId) == Some(events[k])
                               && forall j :: 0 <= j < k ==> !(events[j].txId == txId && events[j].kind == Settled)
  {
    if |events| > 0 && !(events[0].txId == txId && events[0].kind == Settled) {
      FirstSettledIs(events[1..], txId);
      if FirstSettled(events[1..], txId).Some? {
        var k: nat :| k < |events[1..]| && FirstSettled(events[1..], txId) == Some(events[1..][k])
                      && forall j :: 0 <= j < k ==> !(events[1..][j].txId == txId && events[1..][j].kind == Settled);
        assert events[k + 1] == events[1..][k];
        forall j | 0 <= j < k + 1 ensures !(events[j].txId == txId && events[j].kind == Settled) {
          if j > 0 { assert events[j] == events[1..][j - 1]; }
        }
      }
    }
  }

  /** A reversal is accepted exactly when the first settlement of the transaction can be taken back. */
  lemma ReversesExactly(s: State, txId: string, date: int, source: Source, meta: Meta)
    requires forall e :: e in s.events ==> DistinctLegs(e.postings)
    ensures ReverseStep(s, txId, date, source, meta).Ok? <==>
            var k, prior := FindTx(s.transactions, txId), FirstSettled(s.events, txId);
            k.Some? && prior.Some? && CanReverse(s, s.transactions[k.value], prior.value, date, source, meta)
  {
    var k, prior := FindTx(s.transactions, txId), FirstSettled(s.events, txId);
    TouchesIs();
    hide FindHolding, ApplyFirst, Fits, Touches, Names, NegateAll, CitesKnown, FirstSettled, StatusOf;
    if k.Some? && prior.Some? {
      TakesBackExactly(s, s.transactions[k.value], prior.value, date, source, meta);
    }
    hide PostEvent;
  }

  lemma TakesBackExactly(s: State, t: Tx, prior: Event, date: int, source: Source, meta: Meta)
    requires DistinctLegs(prior.postings)
    ensures var e := Event(meta.id, t.id, Reversed, date, meta.at, NegateAll(prior.postings), -prior.flow,
                           Some(prior.id), source);
            PostEvent(s, t, e, meta).Ok? <==>
            && (forall p :: p in prior.postings ==> Fits(s, date, Taken(p)))
            && At(s.holdings, t.cashId).Some? && CitesKnown(s, source, At(s.holdings, t.cashId).value.familyId)
  {
    var ps := NegateAll(prior.postings);
    var e := Event(meta.id, t.id, Reversed, date, meta.at, ps, -prior.flow, Some(prior.id), source);
    hide FindHolding, ApplyFirst, Fits, SourceOk, CitesKnown;
    var k := FindHolding(s.holdings, t.cashId);
    if k.Some? {
      var cash := s.holdings[k.value];
      SourceIs(s, source, cash.familyId);
      var w := WithEvidence(s, cash, meta);
      AppliesExactly(w, e, |ps|, meta.id + "-source");
      forall i | 0 <= i < |ps| ensures Fits(w, date, ps[i]) <==> Fits(s, date, Taken(prior.postings[i])) {
        FitsAlike(s, w, date, ps[i]);
      }
      assert forall p :: p in prior.postings <==> exists i :: 0 <= i < |ps| && prior.postings[i] == p;
    }
  }

  /** Voiding records one event, without postings, of a transaction that is still only reviewed. */
  lemma VoidsExactly(s: State, txId: string, source: Source, meta: Meta)
    ensures var k, r := FindTx(s.transactions, txId), VoidStep(s, txId, source, meta);
            && (r.Ok? <==>
                  && k.Some? && StatusOf(s.events, txId) == Reviewed && source.date <= meta.today
                  && var cash := At(s.holdings, s.transactions[k.value].cashId);
                     cash.Some? && CitesKnown(s, source, cash.value.familyId))
            && (r.Ok? ==>
                  r.value == s.(events := s.events + [Event(meta.id, txId, Voided, source.date, meta.at, [], 0, None,
                                                            source)],
                                revision := s.revision + 1))
  {
    hide StatusOf, FindHolding, SourceOk, CitesKnown;
    var k := FindTx(s.transactions, txId);
    if k.Some? {
      var h := FindHolding(s.holdings, s.transactions[k.value].cashId);
      if h.Some? { SourceIs(s, source, s.holdings[h.value].familyId); }
    }
  }

  /** A transaction is recorded exactly when it converts, is valid and respects the notices. */
  lemma RecordsExactly(s: State, t: Tx, source: Source, meta: Meta)
    requires MoneyOk(t.amount) && FxOk(t.fx)
    ensures var r, value := RecordTransactionStep(s, t, source, meta), Convert(t.amount, t.currency, t.fx, t.dueDate);
            && (r.Ok? <==>
                  && t.amount > 0 && value.Ok?
                  && var tx := t.(id := meta.id, amountEUR := value.value, source := source);
                     ValidTx(s, tx) && AllocationProblem(s, tx, false).None?)
            && (r.Ok? ==>
                  r.value == s.(transactions := s.transactions
                                                + [t.(id := meta.id, amountEUR := value.value, source := source)],
                                revision := s.revision + 1))
  {
    ConvertInBounds(t.amount, t.currency, t.fx, t.dueDate);
    hide Convert, AllocationProblem, TxProblem, ValidTx;
    var value := Convert(t.amount, t.currency, t.fx, t.dueDate);
    if value.Ok? { ValidExactly(s, t.(id := meta.id, amountEUR := value.value, source := source)); }
  }

  // --- Reconciliations ------------------------------------------------------------------------------

  ghost predicate IsCashOf(h: Holding, entityId: string) { h.entityId == entityId && h.assetClass == Cash }

  lemma {:induction false} CashProblemIs(s: State, cash: seq<Holding>, closing: seq<ClosingBalance>, from: int, to: int)
    ensures CashProblem(s, cash, closing, from, to).None? <==>
            forall h :: h in cash ==> Balances(h, closing) && Covers(s, h, from, to)
  {
    hide Balances, Covers;
    if |cash| > 0 {
      CashProblemIs(s, cash[1..], closing, from, to);
      assert cash == [cash[0]] + cash[1..];
    }
  }

  lemma SameSizeSubset<T>(a: set<T>, b: set<T>)
    requires a <= b && |a| == |b|
    ensures a == b
  {
    if x :| x in b && x !in a {
      SubsetCount(a, b - {x});
    }
  }

  function HoldingId(h: Holding): string { h.id }

  function IdList(hs: seq<Holding>): (r: seq<string>)
    ensures |r| == |hs| && forall i :: 0 <= i < |hs| ==> r[i] == hs[i].id
  {
    seq(|hs|, i requires 0 <= i < |hs| => hs[i].id)
  }

  function BalanceIds(bs: seq<ClosingBalance>): (r: seq<string>)
    ensures |r| == |bs| && forall i :: 0 <= i < |bs| ==> r[i] == bs[i].holdingId
  {
    seq(|bs|, i requires 0 <= i < |bs| => bs[i].holdingId)
  }

  lemma IdsCount(hs: seq<Holding>)
    requires DistinctBy(hs, HoldingId)
    ensures |Ids(hs)| == |hs|
  {
    DistinctByCount(IdList(hs));
    forall i, j | 0 <= i < j < |hs| ensures IdList(hs)[i] != IdList(hs)[j] {
      assert HoldingId(hs[i]) != HoldingId(hs[j]);
    }
    assert ToSet(IdList(hs)) == Ids(hs) by {
      forall id | id in Ids(hs) ensures id in ToSet(IdList(hs)) {
        var h :| h in hs && h.id == id;
        var i: nat :| i < |hs| && hs[i] == h;
        assert IdList(hs)[i] == id;
      }
    }
  }

  lemma ClosingIdsAre(bs: seq<ClosingBalance>)
    ensures ToSet(BalanceIds(bs)) == ClosingIds(bs)
    ensures |ClosingIds(bs)| == |bs| <==> forall i, j :: 0 <= i < j < |bs| ==> bs[i].holdingId != bs[j].holdingId
  {
    forall id | id in ClosingIds(bs) ensures id in ToSet(BalanceIds(bs)) {
      var b :| b in bs && b.holdingId == id;
      var i: nat :| i < |bs| && bs[i] == b;
      assert BalanceIds(bs)[i] == id;
    }
    DistinctByCount(BalanceIds(bs));
    assert Distinct(BalanceIds(bs)) <==> forall i, j :: 0 <= i < j < |bs| ==> bs[i].holdingId != bs[j].holdingId by {
      var ids := BalanceIds(bs);
      assert forall i :: 0 <= i < |bs| ==> ids[i] == bs[i].holdingId;
    }
  }

  lemma {:induction false} FindClosingIs(bs: seq<ClosingBalance>, id: string)
    ensures FindClosing(bs, id).None? <==> forall b :: b in bs ==> b.holdingId != id
  {
    if |bs| > 0 {
      if bs[0].holdingId == id {
        assert bs[0] in bs;
      } else {
        FindClosingIs(bs[1..], id);
        assert bs == [bs[0]] + bs[1..];
      }
    }
  }

  /** With one balance for each identifier, the recorded figures are there or they are not. */
  lemma BalancesIs(h: Holding, bs: seq<ClosingBalance>)
    requires forall i, j :: 0 <= i < j < |bs| ==> bs[i].holdingId != bs[j].holdingId
    ensures Balances(h, bs) <==> Agrees(h, bs)
  {
    FindClosingIs(bs, h.id);
    hide FindClosing;
    var found := FindClosing(bs, h.id);
    if b :| b in bs && b.holdingId == h.id {
      var i: nat :| i < |bs| && bs[i] == b;
      var j: nat :| j < |bs| && bs[j] == found.value;
      assert i == j;
    }
  }

  /** The counts that the code compares say that the lists name the same balances, once each. */
  ghost predicate ListsMatch(cash: seq<Holding>, cashIds: seq<string>, closing: seq<ClosingBalance>) {
    && (forall id :: id in cashIds <==> exists h :: h in cash && h.id == id)
    && (forall b :: b in closing ==> exists h :: h in cash && h.id == b.holdingId)
    && (forall i, j :: 0 <= i < j < |closing| ==> closing[i].holdingId != closing[j].holdingId)
    && forall h :: h in cash ==> exists b :: b in closing && b.holdingId == h.id
  }

  ghost predicate CountsMatch(cash: seq<Holding>, cashIds: seq<string>, closing: seq<ClosingBalance>) {
    && |cash| == |ToSet(cashIds)| && (forall h :: h in cash ==> h.id in cashIds)
    && |closing| == |cash| && |ClosingIds(closing)| == |cash|
    && forall h :: h in cash ==> exists b :: b in closing && b.holdingId == h.id
  }

  lemma CountingMatches(cash: seq<Holding>, cashIds: seq<string>, closing: seq<ClosingBalance>)
    requires DistinctBy(cash, HoldingId)
    ensures CountsMatch(cash, cashIds, closing) <==> ListsMatch(cash, cashIds, closing)
  {
    IdsCount(cash);
    ClosingIdsAre(closing);
    if CountsMatch(cash, cashIds, closing) {
      assert Ids(cash) <= ToSet(cashIds) && Ids(cash) <= ClosingIds(closing);
      SameSizeSubset(Ids(cash), ToSet(cashIds));
      SameSizeSubset(Ids(cash), ClosingIds(closing));
      forall id ensures id in cashIds <==> exists h :: h in cash && h.id == id {
        assert id in cashIds <==> id in ToSet(cashIds);
      }
      forall b | b in closing ensures exists h :: h in cash && h.id == b.holdingId {
        assert b.holdingId in ClosingIds(closing);
      }
    }
    if ListsMatch(cash, cashIds, closing) {
      assert forall id :: id in Ids(cash) <==> id in cashIds;
      assert Ids(cash) == ToSet(cashIds);
      assert Ids(cash) == ClosingIds(closing);
    }
  }

  /** The statement covers the entity's cash, once each and at the recorded figures, and the records reach back. */
  ghost predicate Reconciles(s: State, cash: seq<Holding>, c: Command)
    requires c.Reconcile?
  {
    && ListsMatch(cash, c.cashIds, c.closing)
    && forall h :: h in cash ==> Agrees(h, c.closing) && Spanned(s, h, c.from, c.to)
  }

  ghost predicate Agrees(h: Holding, bs: seq<ClosingBalance>) {
    exists b :: b in bs && b.holdingId == h.id && b.native == h.native && b.value == h.value
  }

  ghost predicate Spanned(s: State, h: Holding, from: int, to: int) {
    h.markDate <= to && exists r :: r in s.history && r.holdingId == h.id && r.date <= from
  }

  /** A reconciliation is recorded exactly when the statement agrees with the books. */
  lemma ReconcilesExactly(s: State, c: Command, meta: Meta)
    requires c.Reconcile? && HoldingsOk(s.holdings)
    ensures forall h :: h in CashOf(s.holdings, c.entityId) <==> h in s.holdings && IsCashOf(h, c.entityId)
    ensures var cash, r := CashOf(s.holdings, c.entityId), ReconcileStep(s, c, meta);
            && (r.Ok? <==>
                  && c.from <= c.to <= meta.today && (exists e :: e in s.entities && e.id == c.entityId)
                  && Reconciles(s, cash, c)
                  && SourceOk(s, c.source, if cash == [] then None else Some(cash[0].familyId)))
            && (r.Ok? ==>
                  r.value == s.(coverage := s.coverage + [Coverage(meta.id, c.entityId, c.from, c.to, c.cashIds,
                                                                   |s.events|, |s.marks|, c.closing, c.source)],
                                revision := s.revision + 1))
  {
    var cash := CashOf(s.holdings, c.entityId);
    CashIs(s.holdings, c.entityId);
    StatementChecks(s, cash, c);
    ReconcileIs(s, c, meta);
    hide *;
  }

  /** The checks of the code, on counts. */
  ghost predicate PassesChecks(s: State, cash: seq<Holding>, c: Command)
    requires c.Reconcile?
  {
    && |cash| == |ToSet(c.cashIds)| && (forall h :: h in cash ==> h.id in c.cashIds)
    && |c.closing| == |cash| && |ClosingIds(c.closing)| == |cash|
    && CashProblem(s, cash, c.closing, c.from, c.to).None?
  }

  lemma ReconcileIs(s: State, c: Command, meta: Meta)
    requires c.Reconcile?
    ensures var cash, r := CashOf(s.holdings, c.entityId), ReconcileStep(s, c, meta);
            && (r.Ok? <==>
                  && c.from <= c.to <= meta.today && (exists e :: e in s.entities && e.id == c.entityId)
                  && PassesChecks(s, cash, c)
                  && SourceOk(s, c.source, if cash == [] then None else Some(cash[0].familyId)))
            && (r.Ok? ==>
                  r.value == s.(coverage := s.coverage + [Coverage(meta.id, c.entityId, c.from, c.to, c.cashIds,
                                                                   |s.events|, |s.marks|, c.closing, c.source)],
                                revision := s.revision + 1))
  {
    hide CashOf, CashProblem, SourceOk, ClosingIds, ToSet;
  }

  lemma StatementChecks(s: State, cash: seq<Holding>, c: Command)
    requires c.Reconcile? && DistinctBy(cash, HoldingId)
    ensures PassesChecks(s, cash, c) <==> Reconciles(s, cash, c)
  {
    hide *;
    ChecksAre(s, cash, c);
    CountingMatches(cash, c.cashIds, c.closing);
    if ListsMatch(cash, c.cashIds, c.closing) {
      ListsDistinct(cash, c.cashIds, c.closing);
      AllAgree(s, cash, c);
    }
    ReconcilesIs(s, cash, c);
  }

  ghost predicate AllBalance(s: State, cash: seq<Holding>, c: Command)
    requires c.Reconcile?
  {
    forall h :: h in cash ==> Balances(h, c.closing) && Covers(s, h, c.from, c.to)
  }

  lemma ChecksAre(s: State, cash: seq<Holding>, c: Command)
    requires c.Reconcile?
    ensures PassesChecks(s, cash, c) <==> CountsMatch(cash, c.cashIds, c.closing) && AllBalance(s, cash, c)
  {
    CashProblemIs(s, cash, c.closing, c.from, c.to);
    hide CashProblem, Covers, ClosingIds, ToSet;
    if AllBalance(s, cash, c) {
      forall h | h in cash ensures exists b :: b in c.closing && b.holdingId == h.id { BalanceListed(h, c.closing); }
    }
    hide Balances;
  }

  lemma AllAgree(s: State, cash: seq<Holding>, c: Command)
    requires c.Reconcile? && ListsMatch(cash, c.cashIds, c.closing)
    ensures AllBalance(s, cash, c) <==> forall h :: h in cash ==> Agrees(h, c.closing) && Spanned(s, h, c.from, c.to)
  {
    assert forall i, j :: 0 <= i < j < |c.closing| ==> c.closing[i].holdingId != c.closing[j].holdingId;
    hide ListsMatch, Agrees, Balances;
    forall h ensures Balances(h, c.closing) <==> Agrees(h, c.closing) { BalancesIs(h, c.closing); }
  }

  lemma ReconcilesIs(s: State, cash: seq<Holding>, c: Command)
    requires c.Reconcile?
    ensures Reconciles(s, cash, c) <==>
            && ListsMatch(cash, c.cashIds, c.closing)
            && forall h :: h in cash ==> Agrees(h, c.closing) && Spanned(s, h, c.from, c.to)
  {
    hide ListsMatch, Agrees, Spanned;
  }

  lemma ListsDistinct(cash: seq<Holding>, cashIds: seq<string>, closing: seq<ClosingBalance>)
    requires ListsMatch(cash, cashIds, closing)
    ensures |ClosingIds(closing)| == |closing|
  {
    ClosingIdsAre(closing);
    hide ClosingIds;
  }

  lemma BalanceListed(h: Holding, bs: seq<ClosingBalance>)
    requires Balances(h, bs)
    ensures exists b :: b in bs && b.holdingId == h.id
  {
  }

  lemma CashIs(hs: seq<Holding>, entityId: string)
    requires HoldingsOk(hs)
    ensures forall h :: h in CashOf(hs, entityId) <==> h in hs && IsCashOf(h, entityId)
    ensures DistinctBy(CashOf(hs, entityId), HoldingId)
  {
    FilterDistinctBy(hs, (h: Holding) => h.entityId == entityId && h.assetClass == Cash, HoldingId);
  }
}
