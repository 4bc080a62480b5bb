/**
 Cash notices and their reservations (lib/ledger.ts, `obligationSummary`,
 `validateObligationAllocation`, `requireUnallocatedObligation`): what every reachable state
 keeps between a notice and the transactions prepared from it.
 */
module LedgerNotices {
  import opened Common
  import opened LedgerState
  import opened LedgerPosting
  import opened LedgerCommands
  import opened LedgerRuns
  import opened LedgerLives

  /** Reviewed and settled amounts together: what the notice has reserved. */
  function Reserved(s: State, noticeId: string): nat {
    Allocated(s.transactions, s.events, noticeId, Settled) + Allocated(s.transactions, s.events, noticeId, Reviewed)
  }

  ghost predicate AmountOk(s: State, n: Notice) {
    && (n.cancelled || n.terms.amount.None? ==> Reserved(s, n.id) == 0)
    && (n.terms.amount.Some? ==> Reserved(s, n.id) <= n.terms.amount.value)
  }

  ghost predicate AllocationsMatch(s: State, n: Notice) {
    forall t :: t in s.transactions && t.obligationId == Some(n.id) && Live(StatusOf(s.events, t.id)) ==>
          MatchesTerms(t, n)
  }

  ghost predicate LinksOk(s: State) {
    && (forall t :: t in s.transactions && t.obligationId.Some? ==> FindNotice(s.notices, t.obligationId.value).Some?)
    && (forall i, j :: 0 <= i < j < |s.notices| ==> s.notices[i].id != s.notices[j].id)
  }

  /** Never over-reserved; a cancelled or unquantified notice holds nothing; live allocations match its terms. */
  ghost predicate NoticesOk(s: State) {
    LinksOk(s) && forall n :: n in s.notices ==> AmountOk(s, n) && AllocationsMatch(s, n)
  }

  // --- How allocations move --------------------------------------------------------------------

  /** The amount a transaction reserves on a notice. */
  function LinkedAmount(txs: seq<Tx>, txId: string, noticeId: string): nat {
    if |txs| == 0 then 0
    else
      var last := txs[|txs| - 1];
      LinkedAmount(txs[..|txs| - 1], txId, noticeId)
      + (if last.id == txId && last.obligationId == Some(noticeId) then last.amount else 0)
  }

  lemma StatusSnoc(events: seq<Event>, e: Event, id: string)
    ensures StatusOf(events + [e], id) == if id == e.txId then e.kind else StatusOf(events, id)
  {
    assert (events + [e])[..|events|] == events;
  }

  /** A new event takes its transaction's amount out of the old status and into the new. */
  lemma {:induction false} AllocatedEvent(txs: seq<Tx>, events: seq<Event>, e: Event, n: string, st: Status)
    ensures Allocated(txs, events + [e], n, st) ==
            Allocated(txs, events, n, st) + (if e.kind == st then LinkedAmount(txs, e.txId, n) else 0)
            - (if StatusOf(events, e.txId) == st then LinkedAmount(txs, e.txId, n) else 0)
  {
    if |txs| > 0 {
      hide StatusOf;
      AllocatedEvent(txs[..|txs| - 1], events, e, n, st);
      StatusSnoc(events, e, txs[|txs| - 1].id);
    }
  }

  lemma {:induction false} AllocatedLink(txs: seq<Tx>, k: nat, o: string, events: seq<Event>, n: string, st: Status)
    requires k < |txs| && txs[k].obligationId.None?
    ensures Allocated(txs[k := txs[k].(obligationId := Some(o))], events, n, st) ==
            Allocated(txs, events, n, st) + (if n == o && StatusOf(events, txs[k].id) == st then txs[k].amount else 0)
  {
    hide StatusOf;
    var m, linked := |txs| - 1, txs[k].(obligationId := Some(o));
    if k == m {
      assert txs[k := linked][..m] == txs[..m];
    } else {
      AllocatedLink(txs[..m], k, o, events, n, st);
      assert txs[k := linked][..m] == txs[..m][k := linked];
    }
  }

  lemma AllocatedSnoc(txs: seq<Tx>, t: Tx, events: seq<Event>, n: string, st: Status)
    ensures Allocated(txs + [t], events, n, st) ==
            Allocated(txs, events, n, st) + (if t.obligationId == Some(n)
                                             && StatusOf(events, t.id) == st then t.amount else 0)
  {
    hide StatusOf;
    assert (txs + [t])[..|txs|] == txs;
  }

  lemma {:induction false} NothingLinked(txs: seq<Tx>, events: seq<Event>, n: string, st: Status)
    requires forall t :: t in txs ==> t.obligationId != Some(n)
    ensures Allocated(txs, events, n, st) == 0
  {
    if |txs| > 0 {
      assert txs[|txs| - 1] in txs && forall t :: t in txs[..|txs| - 1] ==> t in txs;
      NothingLinked(txs[..|txs| - 1], events, n, st);
    }
  }

  /** With positive amounts, an empty total means no transaction in that status. */
  lemma {:induction false} NothingAllocated(txs: seq<Tx>, events: seq<Event>, n: string, st: Status, t: Tx)
    requires Allocated(txs, events, n, st) == 0 && t in txs && t.amount > 0
    ensures !(t.obligationId == Some(n) && StatusOf(events, t.id) == st)
  {
    hide StatusOf;
    if t != txs[|txs| - 1] { NothingAllocated(txs[..|txs| - 1], events, n, st, t); }
  }

  // --- Steps by what they change ---------------------------------------------------------------------

  /** Same transactions, events and notices: nothing to show. */
  lemma UnrelatedKeeps(s: State, t: State)
    requires NoticesOk(s) && t.transactions == s.transactions && t.events == s.events && t.notices == s.notices
    ensures NoticesOk(t)
  {
    hide Allocated, StatusOf, FindNotice, MatchesTerms;
    forall n | n in t.notices ensures AmountOk(t, n) && AllocationsMatch(t, n) { }
  }

  lemma EventKeeps(s: State, t: State, e: Event)
    requires NoticesOk(s) && t.transactions == s.transactions && t.notices == s.notices && t.events == s.events + [e]
    requires (StatusOf(s.events, e.txId) == Reviewed && e.kind in {Settled, Voided})
          || (StatusOf(s.events, e.txId) == Settled && e.kind == Reversed)
    ensures NoticesOk(t)
  {
    hide Allocated, StatusOf, FindNotice, MatchesTerms, LinkedAmount;
    forall n | n in t.notices ensures AmountOk(t, n) && AllocationsMatch(t, n) {
      assert AmountOk(s, n) && AllocationsMatch(s, n);
      AllocatedEvent(s.transactions, s.events, e, n.id, Settled);
      AllocatedEvent(s.transactions, s.events, e, n.id, Reviewed);
      forall x | x in t.transactions && x.obligationId == Some(n.id) && Live(StatusOf(t.events, x.id))
        ensures MatchesTerms(x, n)
      {
        StatusSnoc(s.events, e, x.id);
      }
    }
  }

  lemma AllocationFits(s: State, tx: Tx, matching: bool) returns (k: nat)
    requires tx.obligationId.Some? && AllocationProblem(s, tx, matching).None?
    ensures k < |s.notices| && s.notices[k].id == tx.obligationId.value
    ensures var n := s.notices[k];
            && !n.cancelled && n.terms.amount.Some? && MatchesTerms(tx, n)
            && tx.amount + Reserved(s, n.id) <= n.terms.amount.value
  {
    hide Allocated, RelatedTo, CouldMatch, MatchesTerms;
    k := FindNotice(s.notices, tx.obligationId.value).value;
    var summary := SummaryOf(s, s.notices[k]);
    assert Missing.PositiveAmount !in summary.missing by {
      assert Missing.PositiveAmount !in summary.missing - (if matching then {MatchingTransactions} else {});
    }
  }

  lemma LinkKeeps(s: State, t: State, o: string, id: string, source: Source, meta: Meta)
    requires NoticesOk(s) && LinkTransactionStep(s, o, id, source, meta) == Ok(t)
    ensures NoticesOk(t)
  {
    var k := LinkedIs(s, o, id, source, meta);
    var linked := s.transactions[k].(obligationId := Some(o));
    var j := AllocationFits(s, linked, true);
    hide LinkTransactionStep, Allocated, StatusOf, AllocationProblem;
    forall n | n in t.notices ensures AmountOk(t, n) && AllocationsMatch(t, n) {
      assert AmountOk(s, n) && AllocationsMatch(s, n);
      AllocatedLink(s.transactions, k, o, s.events, n.id, Settled);
      AllocatedLink(s.transactions, k, o, s.events, n.id, Reviewed);
      if n.id == o { SameNotice(s, n, j); }
      forall x | x in t.transactions && x.obligationId == Some(n.id) && Live(StatusOf(t.events, x.id))
        ensures MatchesTerms(x, n)
      {
        var i: nat :| i < |t.transactions| && t.transactions[i] == x;
        if i != k { assert s.transactions[i] in s.transactions; }
      }
    }
    LinkedExists(s, t, o, k, j);
  }

  /** Links still lead to notices once one more is made. */
  lemma LinkedExists(s: State, t: State, o: string, k: nat, j: nat)
    requires LinksOk(s) && t.notices == s.notices && k < |s.transactions| && j < |s.notices| && s.notices[j].id == o
    requires t.transactions == s.transactions[k := s.transactions[k].(obligationId := Some(o))]
    ensures LinksOk(t)
  {
    forall x | x in t.transactions && x.obligationId.Some? ensures FindNotice(t.notices, x.obligationId.value).Some? {
      var i: nat :| i < |t.transactions| && t.transactions[i] == x;
      if i != k { assert s.transactions[i] in s.transactions; } else { assert s.notices[j] in s.notices; }
    }
  }

  lemma SameNotice(s: State, n: Notice, j: nat)
    requires LinksOk(s) && n in s.notices && j < |s.notices| && s.notices[j].id == n.id
    ensures s.notices[j] == n
  {
    var i: nat :| i < |s.notices| && s.notices[i] == n;
  }

  lemma RecordKeeps(s: State, t: State, tx: Tx, source: Source, meta: Meta)
    requires NoticesOk(s) && MoneyOk(tx.amount) && FxOk(tx.fx) && RecordTransactionStep(s, tx, source, meta) == Ok(t)
    requires StatusOf(s.events, meta.id) == Reviewed
    ensures NoticesOk(t)
  {
    RecordedOk(s, tx, source, meta);
    var x := t.transactions[|s.transactions|];
    hide RecordTransactionStep, Allocated, StatusOf, TxOk;
    if x.obligationId.Some? {
      var j := AllocationFits(s, x, false);
      hide AllocationProblem;
      NewAllocation(s, t, x, j);
    } else {
      hide AllocationProblem;
      UnlinkedAllocation(s, t, x);
    }
  }

  lemma NewAllocation(s: State, t: State, x: Tx, j: nat)
    requires NoticesOk(s) && t.transactions == s.transactions + [x] && t.notices == s.notices && t.events == s.events
    requires StatusOf(s.events, x.id) == Reviewed && j < |s.notices| && x.obligationId == Some(s.notices[j].id)
    requires var n := s.notices[j];
             && !n.cancelled && n.terms.amount.Some? && MatchesTerms(x, n)
             && x.amount + Reserved(s, n.id) <= n.terms.amount.value
    ensures NoticesOk(t)
  {
    hide Allocated, StatusOf, MatchesTerms;
    forall n | n in t.notices ensures AmountOk(t, n) && AllocationsMatch(t, n) {
      assert AmountOk(s, n) && AllocationsMatch(s, n);
      AllocatedSnoc(s.transactions, x, s.events, n.id, Settled);
      AllocatedSnoc(s.transactions, x, s.events, n.id, Reviewed);
      if n.id == s.notices[j].id { SameNotice(s, n, j); }
    }
    assert s.notices[j] in s.notices;
  }

  lemma UnlinkedAllocation(s: State, t: State, x: Tx)
    requires NoticesOk(s) && t.transactions == s.transactions + [x] && t.notices == s.notices && t.events == s.events
    requires x.obligationId.None?
    ensures NoticesOk(t)
  {
    hide Allocated, StatusOf, MatchesTerms;
    forall n | n in t.notices ensures AmountOk(t, n) && AllocationsMatch(t, n) {
      assert AmountOk(s, n) && AllocationsMatch(s, n);
      AllocatedSnoc(s.transactions, x, s.events, n.id, Settled);
      AllocatedSnoc(s.transactions, x, s.events, n.id, Reviewed);
    }
  }

  lemma NewNoticeKeeps(s: State, t: State, n: Notice)
    requires NoticesOk(s) && t.transactions == s.transactions && t.events == s.events && t.notices == s.notices + [n]
    requires (forall x :: x in s.notices ==> x.id != n.id)
    ensures NoticesOk(t)
  {
    forall x | x in s.transactions ensures x.obligationId != Some(n.id) {
      if x.obligationId.Some? {
        var k := FindNotice(s.notices, x.obligationId.value).value;
        assert s.notices[k] in s.notices;
      }
    }
    NothingLinked(s.transactions, s.events, n.id, Settled);
    NothingLinked(s.transactions, s.events, n.id, Reviewed);
    hide Allocated, StatusOf, MatchesTerms;
    forall x | x in t.notices ensures AmountOk(t, x) && AllocationsMatch(t, x) {
      if x in s.notices { assert AmountOk(s, x) && AllocationsMatch(s, x); }
    }
    forall x | x in t.transactions && x.obligationId.Some? ensures FindNotice(t.notices, x.obligationId.value).Some? {
      var k := FindNotice(s.notices, x.obligationId.value).value;
      assert t.notices[k] in t.notices;
    }
    forall i, j | 0 <= i < j < |t.notices| ensures t.notices[i].id != t.notices[j].id {
      if j == |s.notices| { assert s.notices[i] in s.notices; }
    }
  }

  /** Changing one notice that reserves nothing, or whose terms and standing are kept. */
  lemma ChangedNoticeKeeps(s: State, t: State, k: nat, n: Notice)
    requires NoticesOk(s) && k < |s.notices| && n.id == s.notices[k].id
             && (forall x :: x in s.transactions ==> x.amount > 0)
    requires t.transactions == s.transactions && t.events == s.events && t.notices == s.notices[k := n]
    requires (Reserved(s, n.id) == 0) || (n.terms == s.notices[k].terms && n.cancelled == s.notices[k].cancelled
              && n.holdingId == s.notices[k].holdingId && n.kind == s.notices[k].kind)
    ensures NoticesOk(t)
  {
    assert s.notices[k] in s.notices;
    hide Allocated, StatusOf;
    forall x | x in t.notices ensures AmountOk(t, x) && AllocationsMatch(t, x) {
      var i: nat :| i < |t.notices| && t.notices[i] == x;
      if i != k {
        assert s.notices[i] in s.notices;
        assert AmountOk(s, x) && AllocationsMatch(s, x);
      } else if Reserved(s, n.id) == 0 {
        forall y | y in t.transactions && y.obligationId == Some(n.id) ensures !Live(StatusOf(t.events, y.id)) {
          NothingAllocated(s.transactions, s.events, n.id, Settled, y);
          NothingAllocated(s.transactions, s.events, n.id, Reviewed, y);
        }
      } else {
        assert AmountOk(s, s.notices[k]) && AllocationsMatch(s, s.notices[k]);
      }
    }
    forall i | 0 <= i < |t.notices| ensures t.notices[i].id == s.notices[i].id { }
    forall x | x in t.transactions && x.obligationId.Some? ensures FindNotice(t.notices, x.obligationId.value).Some? {
      var i := FindNotice(s.notices, x.obligationId.value).value;
      assert t.notices[i] in t.notices;
    }
  }

  lemma AmountsPositive(s: State)
    requires TxsOk(s)
    ensures forall x :: x in s.transactions ==> x.amount > 0
  {
    hide LegsOwned, Convert;
    forall x | x in s.transactions ensures x.amount > 0 { assert TxOk(s.holdings, x); }
  }

  /** No event is about a transaction that does not exist yet. */
  lemma FreshStatus(s: State, meta: Meta)
    requires EventsOwned(s) && Fresh(s, meta)
    ensures StatusOf(s.events, meta.id) == Reviewed
  {
    forall e | e in s.events ensures e.txId != meta.id { assert LegsOnly(s, e); }
    NoEventsAbout(s.events, meta.id);
  }

  lemma {:induction false} NoEventsAbout(events: seq<Event>, id: string)
    requires forall e :: e in events ==> e.txId != id
    ensures StatusOf(events, id) == Reviewed
  {
    if |events| > 0 {
      assert events[|events| - 1] in events;
      NoEventsAbout(events[..|events| - 1], id);
    }
  }

  lemma AcceptedNotice(s: State, t: State, input: NoticeInput, meta: Meta)
    requires NoticesOk(s) && Fresh(s, meta) && AcceptNoticeStep(s, input, meta) == Ok(t)
    ensures NoticesOk(t)
  {
    hide NoticesOk;
    if t != s { NewNoticeKeeps(s, t, t.notices[|s.notices|]); }
  }

  lemma AmendedNotice(s: State, t: State, c: Command, meta: Meta)
    requires NoticesOk(s) && TxsOk(s)
    requires (c.AmendNotice? && AmendStep(s, c.obligationId, c.terms, c.source, meta) == Ok(t))
          || (c.CancelNotice? && CancelStep(s, c.obligationId, c.duplicateOf, c.source, meta) == Ok(t))
          || (c.ConfirmDistinct? && ConfirmDistinctStep(s, c.obligationId, c.otherId, c.source, meta) == Ok(t))
    ensures NoticesOk(t)
  {
    hide *;
    AmountsPositive(s);
    var k, n := AmendedIs(s, t, c, meta);
    ChangedNoticeKeeps(s, t, k, n);
  }

  /** These commands change one notice, which reserves nothing or keeps its terms and standing. */
  lemma AmendedIs(s: State, t: State, c: Command, meta: Meta) returns (k: nat, n: Notice)
    requires (c.AmendNotice? && AmendStep(s, c.obligationId, c.terms, c.source, meta) == Ok(t))
          || (c.CancelNotice? && CancelStep(s, c.obligationId, c.duplicateOf, c.source, meta) == Ok(t))
          || (c.ConfirmDistinct? && ConfirmDistinctStep(s, c.obligationId, c.otherId, c.source, meta) == Ok(t))
    ensures k < |s.notices| && n.id == s.notices[k].id && t.notices == s.notices[k := n]
    ensures t.transactions == s.transactions && t.events == s.events
    ensures Reserved(s, n.id) == 0 || (n.terms == s.notices[k].terms && n.cancelled == s.notices[k].cancelled
                                       && n.holdingId == s.notices[k].holdingId && n.kind == s.notices[k].kind)
  {
    hide NoticeProblem, DuplicateProblem, RelatedTo, MissingDetails, Allocated, FindNotice;
    NoticeExists(s, c.obligationId, c.source, meta);
    k := FindNotice(s.notices, c.obligationId).value;
    n := t.notices[k];
  }

  lemma NoticeExists(s: State, obligationId: string, source: Source, meta: Meta)
    requires NoticeProblem(s, obligationId, source, meta).None?
    ensures FindNotice(s.notices, obligationId).Some?
  {
  }

  /** Every command keeps every notice honest. */
  lemma NoticesKept(s: State, c: Command, meta: Meta)
    requires CommandOk(c) && FxesOk(s) && HoldingsOk(s.holdings) && Fresh(s, meta) && LivesInv(s) && NoticesOk(s)
    requires Step(s, c, meta).Ok?
    ensures NoticesOk(Step(s, c, meta).value)
  {
    hide *;
    var t := Step(s, c, meta).value;
    InvParts(s);
    if c.Settle? {
      StepIsSettle(s, c, meta);
      var k, e := SettleShape(s, c.txId, c.date, c.source, meta);
      PostsEvents(s, t, e, meta);
      EventKeeps(s, t, e);
    } else if c.Reverse? {
      StepIsReverse(s, c, meta);
      var prior, e := ReverseShape(s, c.txId, c.date, c.source, meta);
      PostsEvents(s, t, e, meta);
      EventKeeps(s, t, e);
    } else if c.Void? {
      StepIsVoid(s, c, meta);
      var e := VoidShape(s, c.txId, c.source, meta);
      PostsEvents(s, t, e, meta);
      EventKeeps(s, t, e);
    } else {
      QuietNotices(s, c, meta);
    }
  }

  lemma InvParts(s: State)
    requires LivesInv(s)
    ensures TxsOk(s) && LivesOk(s.events) && EventsOwned(s)
  {
  }

  lemma QuietNotices(s: State, c: Command, meta: Meta)
    requires CommandOk(c) && FxesOk(s) && HoldingsOk(s.holdings) && Fresh(s, meta) && LivesInv(s) && NoticesOk(s)
    requires Step(s, c, meta).Ok? && !c.Settle? && !c.Reverse? && !c.Void?
    ensures NoticesOk(Step(s, c, meta).value)
  {
    hide HoldingsOk, NoticesOk, TxsOk, LivesOk, EventsOwned, Fresh, FxesOk, MoneyOk, FxOk, CreateHoldingStep,
         AcceptValuationStep, RecordValuationStep, LinkTransactionStep, AcceptNoticeStep, AmendStep, CancelStep,
         ConfirmDistinctStep, RecordTransactionStep, Marked, InBounds, FindCashEvent, SourceOk, CashProblem,
         FindAccount, ToSet, ClosingIds, CashOf, FirstEntity;
    var t := Step(s, c, meta).value;
    match c
    case LinkTransaction(o, id, source) => LinkKeeps(s, t, o, id, source, meta);
    case RegisterNotice(id) =>
      var e := FindCashEvent(s.cashEvents, id).value;
      AcceptedNotice(s, t, NoticeInput(e.holdingIds[0], if e.call then CapitalCall else Distribution, e.sourceId,
                                       "legacy-event:" + e.id, Terms(e.amount, e.currency, e.effectiveDate, None)),
                     meta);
    case AcceptNotice(input) => AcceptedNotice(s, t, input, meta);
    case AmendNotice(_, _, _) => AmendedNotice(s, t, c, meta);
    case CancelNotice(_, _, _) => AmendedNotice(s, t, c, meta);
    case ConfirmDistinct(_, _, _) => AmendedNotice(s, t, c, meta);
    case RecordTransaction(tx, source) =>
      FreshStatus(s, meta);
      RecordKeeps(s, t, tx, source, meta);
    case CreateHolding(_, _, _, _, _, _, _, _, _) =>
      var h, m := CreateShape(s, c, meta);
      OpensTransactions(s, t, h, m, meta);
      UnrelatedKeeps(s, t);
    case AcceptValuation(v) =>
      ValuationShape(s, v, meta);
      ValuesTransactions(s, t, meta);
      UnrelatedKeeps(s, t);
    case RecordValuation(_, _, _, _, _, _, _) =>
      RecordedValuationShape(s, c, meta);
      ValuesTransactions(s, t, meta);
      UnrelatedKeeps(s, t);
    case _ => UnrelatedKeeps(s, t);
  }

  // --- Settlement and reversal ---------------------------------------------------------------------------

  /** Settling moves a reservation from reviewed to settled: what is unallocated stays, what remains shrinks. */
  lemma SettlementKeepsUnallocated(s: State, txId: string, date: int, source: Source, meta: Meta, n: Notice)
    requires HoldingsOk(s.holdings) && FxesOk(s) && NoticesOk(s) && n in s.notices && n.terms.amount.Some?
    requires SettleStep(s, txId, date, source, meta).Ok?
    ensures var t := SettleStep(s, txId, date, source, meta).value;
            var before, after := SummaryOf(s, n), SummaryOf(t, n);
            && before.unallocated.Some? && after.unallocated.Some?
               && after.unallocated.value == before.unallocated.value
            && before.remaining.Some? && after.remaining.Some?
            && after.remaining.value == before.remaining.value - LinkedAmount(s.transactions, txId, n.id)
  {
    hide SettleStep, SummaryOf, HoldingsOk, NoticesOk, Posts, Allocated, LinkedAmount, Postings, StatusOf;
    var t := SettleStep(s, txId, date, source, meta).value;
    var k, e := SettleShape(s, txId, date, source, meta);
    PostsEvents(s, t, e, meta);
    SummaryMoves(s, t, e, n);
  }

  /** How an event of a transaction changes what its notice has left. */
  lemma SummaryMoves(s: State, t: State, e: Event, n: Notice)
    requires NoticesOk(s) && n in s.notices && n.terms.amount.Some?
    requires t.transactions == s.transactions && t.events == s.events + [e]
    requires (StatusOf(s.events, e.txId) == Reviewed && e.kind == Settled)
             || (StatusOf(s.events, e.txId) == Settled && e.kind == Reversed)
    ensures var before, after, linked := SummaryOf(s, n), SummaryOf(t, n), LinkedAmount(s.transactions, e.txId, n.id);
            && before.remaining.Some? && after.remaining.Some? && before.unallocated.Some? && after.unallocated.Some?
            && after.unallocated.value == before.unallocated.value + (if e.kind == Settled then 0 else linked)
            && after.remaining.value ==
               before.remaining.value + (if e.kind == Settled then 0 - linked as int else linked)
  {
    assert AmountOk(s, n);
    AllocatedEvent(s.transactions, s.events, e, n.id, Settled);
    AllocatedEvent(s.transactions, s.events, e, n.id, Reviewed);
    hide Allocated, StatusOf, LinkedAmount, MissingDetails, NoticesOk, LinksOk, AllocationsMatch;
  }

  /** Reversing releases the reservation: both amounts grow back by it. */
  lemma ReversalRestoresRemaining(s: State, txId: string, date: int, source: Source, meta: Meta, n: Notice)
    requires HoldingsOk(s.holdings) && NoticesOk(s) && n in s.notices && n.terms.amount.Some?
    requires ReverseStep(s, txId, date, source, meta).Ok?
    ensures var t := ReverseStep(s, txId, date, source, meta).value;
            var before, after := SummaryOf(s, n), SummaryOf(t, n);
            && before.remaining.Some? && after.remaining.Some? && before.unallocated.Some? && after.unallocated.Some?
            && after.remaining.value == before.remaining.value + LinkedAmount(s.transactions, txId, n.id)
            && after.unallocated.value == before.unallocated.value + LinkedAmount(s.transactions, txId, n.id)
  {
    hide *;
    var t := ReverseStep(s, txId, date, source, meta).value;
    var prior, e := ReverseShape(s, txId, date, source, meta);
    PostsEvents(s, t, e, meta);
    SummaryMoves(s, t, e, n);
  }
}
