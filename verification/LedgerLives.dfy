/**
 The life of a transaction (lib/ledger.ts): reviewed, then voided, or settled and at most once
 reversed.  Its postings stay with one legal owner, cancel out on reversal, and move total
 value only as its kind says.
 */
module LedgerLives {
  import opened Common
  import opened LedgerState
  import opened LedgerPosting
  import opened LedgerCommands
  import opened LedgerRuns
  import opened LedgerReplay

  // --- Transactions -------------------------------------------------------------------------

  function At(hs: seq<Holding>, id: string): Option<Holding> {
    var k := FindHolding(hs, id);
    if k.Some? then Some(hs[k.value]) else None
  }

  /** Both other legs, if any, belong to the owner of the cash. */
  predicate LegsOwned(hs: seq<Holding>, t: Tx) {
    var cash := At(hs, t.cashId);
    && cash.Some? && cash.value.assetClass == Cash
    && (t.holdingId.Some? ==>
          var h := At(hs, t.holdingId.value);
          h.Some? && h.value.assetClass != Cash && SameOwner(h.value, cash.value))
    && (t.destinationId.Some? ==>
          var d := At(hs, t.destinationId.value);
          d.Some? && d.value.assetClass == Cash && SameOwner(d.value, cash.value))
  }

  /** What recording a transaction established and nothing later changes. */
  predicate TxOk(hs: seq<Holding>, t: Tx) {
    && FxOk(t.fx) && t.amount > 0 && Convert(t.amount, t.currency, t.fx, t.dueDate) == Ok(t.amountEUR)
    && (t.holdingId.Some? <==> Invests(t.kind)) && (t.destinationId.Some? <==> t.kind == Transfer)
    && CarryingProblem(t).None? && CostProblem(t).None? && LegsOwned(hs, t)
  }

  ghost predicate TxsOk(s: State) {
    && (forall t :: t in s.transactions ==> TxOk(s.holdings, t))
    && (forall i, j :: 0 <= i < j < |s.transactions| ==> s.transactions[i].id != s.transactions[j].id)
  }

  lemma OwnedStays(a: seq<Holding>, b: seq<Holding>, t: Tx)
    requires Keeps(a, b) && LegsOwned(a, t)
    ensures LegsOwned(b, t)
  {
    hide Keeps, SameIdentity;
    LegStays(a, b, t.cashId);
    if t.holdingId.Some? { LegStays(a, b, t.holdingId.value); }
    if t.destinationId.Some? { LegStays(a, b, t.destinationId.value); }
  }

  lemma LegStays(a: seq<Holding>, b: seq<Holding>, id: string)
    requires Keeps(a, b) && At(a, id).Some?
    ensures At(b, id).Some? && At(b, id).value.assetClass == At(a, id).value.assetClass
    ensures At(b, id).value.entityId == At(a, id).value.entityId && At(b, id).value.familyId == At(a, id).value.familyId
    ensures At(b, id).value.id == id
  {
    var k := FindHolding(a, id).value;
    FirstAgain(a, b, id, k);
    assert SameIdentity(a[k], b[k]);
  }

  lemma FirstAgain(a: seq<Holding>, b: seq<Holding>, id: string, k: nat)
    requires Keeps(a, b) && FindHolding(a, id) == Some(k)
    ensures FindHolding(b, id) == Some(k)
  {
    hide FindHolding;
    assert SameIdentity(a[k], b[k]);
    assert b[k] in b;
    forall i | 0 <= i < k ensures b[i].id != id { assert SameIdentity(a[i], b[i]); }
  }

  lemma RecordedOk(s: State, t: Tx, source: Source, meta: Meta)
    requires MoneyOk(t.amount) && FxOk(t.fx) && RecordTransactionStep(s, t, source, meta).Ok?
    ensures var next := RecordTransactionStep(s, t, source, meta).value;
            && |next.transactions| == |s.transactions| + 1
            && var tx := next.transactions[|s.transactions|];
            && next.transactions == s.transactions + [tx] && tx.id == meta.id && TxOk(s.holdings, tx)
            && AllocationProblem(s, tx, false).None? && next.notices == s.notices && next.events == s.events
  {
    hide AllocationProblem, Convert, SourceOk, CarryingProblem, CostProblem, CommitmentProblem, AccountProblem;
    var next := RecordTransactionStep(s, t, source, meta).value;
    var tx := next.transactions[|s.transactions|];
    assert TxProblem(s, tx).None?;
    TxProblemLegs(s, tx);
  }

  lemma TxProblemLegs(s: State, tx: Tx)
    requires TxProblem(s, tx).None?
    ensures LegsOwned(s.holdings, tx) && CarryingProblem(tx).None? && CostProblem(tx).None?
    ensures (tx.holdingId.Some? <==> Invests(tx.kind)) && (tx.destinationId.Some? <==> tx.kind == Transfer)
    ensures AccountProblem(s, s.holdings[FindHolding(s.holdings, tx.cashId).value], tx.currency).None?
    ensures tx.destinationId.Some? ==> tx.destinationId.value != tx.cashId
  {
    hide SourceOk, CarryingProblem, CostProblem, CommitmentProblem, AccountProblem, FindHolding;
  }

  /** The transactions a step leaves: the same, one more, or one newly linked to a notice. */
  lemma TxsKept(s: State, c: Command, meta: Meta)
    requires CommandOk(c) && FxesOk(s) && BooksOk(s) && Fresh(s, meta) && TxsOk(s) && Step(s, c, meta).Ok?
    ensures TxsOk(Step(s, c, meta).value)
  {
    hide BooksOk, Fresh, TxOk, Shaped, Keeps, LinkTransactionStep, RecordTransactionStep, MoneyOk, FxOk;
    var t := Step(s, c, meta).value;
    assert HoldingsOk(s.holdings) by { BooksHoldings(s); }
    StepShape(s, c, meta);
    BooksKept(s, t, meta);
    forall x | x in s.transactions ensures TxOk(t.holdings, x) { TxOkStays(s.holdings, t.holdings, x); }
    match c
    case LinkTransaction(o, id, source) => LinkedTxs(s, t, o, id, source, meta);
    case RecordTransaction(tx, source) => RecordedTxs(s, t, tx, source, meta);
    case _ => SameTransactions(s, c, meta);
  }

  lemma TxOkStays(a: seq<Holding>, b: seq<Holding>, t: Tx)
    requires Keeps(a, b) && TxOk(a, t)
    ensures TxOk(b, t)
  {
    hide LegsOwned, Keeps;
    OwnedStays(a, b, t);
  }

  lemma SameTransactions(s: State, c: Command, meta: Meta)
    requires CommandOk(c) && FxesOk(s) && Step(s, c, meta).Ok? && HoldingsOk(s.holdings)
    requires !c.LinkTransaction? && !c.RecordTransaction?
    ensures Step(s, c, meta).value.transactions == s.transactions
  {
    hide HoldingsOk, CreateHoldingStep, AcceptValuationStep, RecordValuationStep, SettleStep, ReverseStep, VoidStep,
         MoneyOk, FxOk, SourceOk, UnallocatedProblem, NoticeProblem, DuplicateProblem, FindNotice, FindHolding,
         CashProblem, CashOf, FindAccount, RelatedTo, IsPrior, FindCashEvent, ToSet, ClosingIds, Opens, Values,
         Posts, FirstEntity;
    match c
    case CreateHolding(_, _, _, _, _, _, _, _, _) =>
      var h, m := CreateShape(s, c, meta);
      OpensTransactions(s, Step(s, c, meta).value, h, m, meta);
    case AcceptValuation(v) => ValuationShape(s, v, meta); ValuesTransactions(s, Step(s, c, meta).value, meta);
    case RecordValuation(_, _, _, _, _, _, _) =>
      RecordedValuationShape(s, c, meta);
      ValuesTransactions(s, Step(s, c, meta).value, meta);
    case Settle(id, date, source) =>
      var k, e := SettleShape(s, id, date, source, meta);
      PostsTransactions(s, Step(s, c, meta).value, e, meta);
    case Reverse(id, date, source) =>
      var p, e := ReverseShape(s, id, date, source, meta);
      PostsTransactions(s, Step(s, c, meta).value, e, meta);
    case Void(id, source) =>
      var e := VoidShape(s, id, source, meta);
      PostsTransactions(s, Step(s, c, meta).value, e, meta);
    case _ =>
  }

  lemma OpensTransactions(s: State, t: State, h: Holding, m: Mark, meta: Meta)
    requires Opens(s, t, h, m, meta)
    ensures KeepsAgreements(s, t)
  {
  }

  lemma ValuesTransactions(s: State, t: State, meta: Meta)
    requires exists k: nat, m :: Values(s, t, k, m, meta)
    ensures KeepsAgreements(s, t)
  {
  }

  lemma PostsTransactions(s: State, t: State, e: Event, meta: Meta)
    requires Posts(s, t, e, meta)
    ensures KeepsAgreements(s, t)
  {
  }

  lemma LinkedIs(s: State, o: string, id: string, source: Source, meta: Meta) returns (k: nat)
    requires LinkTransactionStep(s, o, id, source, meta).Ok?
    ensures k < |s.transactions| && s.transactions[k].id == id && s.transactions[k].obligationId.None?
    ensures var t := LinkTransactionStep(s, o, id, source, meta).value;
            && t.transactions == s.transactions[k := s.transactions[k].(obligationId := Some(o))]
            && t.notices == s.notices && t.events == s.events && t.holdings == s.holdings
            && Live(StatusOf(s.events, id))
               && AllocationProblem(s, s.transactions[k].(obligationId := Some(o)), true).None?
  {
    hide AllocationProblem, SourceOk, FindNotice, FindHolding;
    k := FindTx(s.transactions, id).value;
  }

  lemma LinkKeepsTx(hs: seq<Holding>, t: Tx, o: string)
    requires TxOk(hs, t)
    ensures TxOk(hs, t.(obligationId := Some(o)))
  {
    hide Convert, At;
  }

  lemma LinkedTxs(s: State, t: State, o: string, id: string, source: Source, meta: Meta)
    requires LinkTransactionStep(s, o, id, source, meta) == Ok(t) && TxsOk(s)
    ensures TxsOk(t)
  {
    var k := LinkedIs(s, o, id, source, meta);
    hide LinkTransactionStep, AllocationProblem, TxOk;
    forall x | x in t.transactions ensures TxOk(t.holdings, x) {
      var i: nat :| i < |t.transactions| && t.transactions[i] == x;
      assert s.transactions[i] in s.transactions;
      LinkKeepsTx(s.holdings, s.transactions[i], o);
    }
    forall i, j | 0 <= i < j < |t.transactions| ensures t.transactions[i].id != t.transactions[j].id {
      assert t.transactions[i].id == s.transactions[i].id && t.transactions[j].id == s.transactions[j].id;
    }
  }

  lemma RecordedTxs(s: State, t: State, tx: Tx, source: Source, meta: Meta)
    requires MoneyOk(tx.amount) && FxOk(tx.fx) && RecordTransactionStep(s, tx, source, meta) == Ok(t) && TxsOk(s)
             && Fresh(s, meta)
    ensures TxsOk(t)
  {
    hide TxOk;
    RecordedOk(s, tx, source, meta);
    assert t.holdings == s.holdings by { hide TxProblem, AllocationProblem, Convert; }
    hide RecordTransactionStep;
    forall i, j | 0 <= i < j < |t.transactions| ensures t.transactions[i].id != t.transactions[j].id {
      if j == |s.transactions| { assert s.transactions[i] in s.transactions; }
    }
  }

  // --- Events of one transaction ------------------------------------------------------------------

  function AboutTx(id: string): Event -> bool { (e: Event) => e.txId == id }

  function OfTx(events: seq<Event>, id: string): seq<Event> { Filter(events, AboutTx(id)) }

  /** Nothing; voided without postings; settled; or settled and then exactly undone. */
  ghost predicate Life(es: seq<Event>) {
    || |es| == 0
    || (|es| == 1 && (es[0].kind == Settled || (es[0].kind == Voided && es[0].postings == [] && es[0].flow == 0)))
    || (|es| == 2 && es[0].kind == Settled && es[1].kind == Reversed && es[1].postings == NegateAll(es[0].postings)
        && es[1].flow == -es[0].flow && es[1].reverses == Some(es[0].id) && es[0].date <= es[1].date)
  }

  ghost predicate LivesOk(events: seq<Event>) { forall id :: Life(OfTx(events, id)) }

  /** The status is the kind of the transaction's last event. */
  lemma {:induction false} StatusIsLast(events: seq<Event>, id: string)
    ensures StatusOf(events, id) == (var es := OfTx(events, id); if es == [] then Reviewed else es[|es| - 1].kind)
  {
    if |events| > 0 { StatusIsLast(events[..|events| - 1], id); }
  }

  lemma {:induction false} FirstIsFirst(events: seq<Event>, id: string)
    requires OfTx(events, id) != [] && OfTx(events, id)[0].kind == Settled
    ensures FirstSettled(events, id) == Some(OfTx(events, id)[0])
  {
    if events[0].txId == id {
      FirstKept(events, id);
    } else {
      SkipFirst(events, id);
      FirstIsFirst(events[1..], id);
    }
  }

  lemma SkipFirst(events: seq<Event>, id: string)
    requires |events| > 0
    ensures OfTx(events, id) == (if events[0].txId == id then [events[0]] else []) + OfTx(events[1..], id)
  {
    assert events == events[..1] + events[1..];
    FilterConcat(events[..1], events[1..], AboutTx(id));
    FilterSnoc([], events[0], AboutTx(id));
    assert events[..1] == [] + [events[0]];
  }

  lemma FirstKept(events: seq<Event>, id: string)
    requires |events| > 0 && events[0].txId == id && OfTx(events, id) != [] && OfTx(events, id)[0].kind == Settled
    ensures FirstSettled(events, id) == Some(OfTx(events, id)[0])
  {
    SkipFirst(events, id);
  }

  /** An event follows the rules of its command. */
  ghost predicate Follows(events: seq<Event>, e: Event) {
    || (e.kind == Settled && StatusOf(events, e.txId) == Reviewed)
    || (e.kind == Voided && StatusOf(events, e.txId) == Reviewed && e.postings == [] && e.flow == 0)
    || (e.kind == Reversed && StatusOf(events, e.txId) == Settled
        && exists prior :: FirstSettled(events, e.txId) == Some(prior) && e.postings == NegateAll(prior.postings)
                           && e.flow == -prior.flow && e.reverses == Some(prior.id) && prior.date <= e.date)
  }

  lemma LivesStep(events: seq<Event>, e: Event)
    requires LivesOk(events) && Follows(events, e)
    ensures LivesOk(events + [e])
  {
    hide Life, OfTx, Follows;
    forall id ensures Life(OfTx(events + [e], id)) {
      OfTxSnoc(events, e, id);
      assert Life(OfTx(events, id));
      if id == e.txId { LifeGoesOn(events, e, OfTx(events, id)); }
    }
  }

  lemma OfTxSnoc(events: seq<Event>, e: Event, id: string)
    ensures OfTx(events + [e], id) == if id == e.txId then OfTx(events, id) + [e] else OfTx(events, id)
  {
    FilterSnoc(events, e, AboutTx(id));
    assert OfTx(events, id) + [] == OfTx(events, id);
  }

  lemma LifeGoesOn(events: seq<Event>, e: Event, es: seq<Event>)
    requires es == OfTx(events, e.txId) && Life(es) && Follows(events, e)
    ensures Life(es + [e])
  {
    StatusIsLast(events, e.txId);
    if e.kind == Reversed { FirstIsFirst(events, e.txId); }
    hide OfTx, StatusOf, FirstSettled;
  }

  // --- Reversal nets to zero -----------------------------------------------------------------------

  function Opposite(d: Delta): Delta { Delta(-d.native, -d.value, -d.commitment, -d.cost) }

  lemma MovedSnoc(ps: seq<Posting>, p: Posting, id: string)
    ensures Moved(ps + [p], id) == Plus(Moved(ps, id), DeltaOf(p, id))
  {
    assert (ps + [p])[..|ps|] == ps;
  }

  lemma NegateSnoc(ps: seq<Posting>, p: Posting)
    ensures NegateAll(ps + [p]) == NegateAll(ps) + [Negated(p)]
  {
  }

  lemma OppositeSum(a: Delta, b: Delta, p: Posting, id: string)
    ensures Plus(Opposite(a), DeltaOf(Negated(p), id)) == Opposite(Plus(a, DeltaOf(p, id)))
    ensures Plus(a, Opposite(a)) == ZERO
  {
  }

  lemma NegateNone(id: string)
    ensures Moved(NegateAll([]), id) == Opposite(Moved([], id))
  {
    assert NegateAll([]) == [];
  }

  lemma {:induction false} NegatedMoves(ps: seq<Posting>, id: string)
    ensures Moved(NegateAll(ps), id) == Opposite(Moved(ps, id))
  {
    hide *;
    if |ps| > 0 {
      var front, last := ps[..|ps| - 1], ps[|ps| - 1];
      assert ps == front + [last];
      NegatedMoves(front, id);
      NegateSnoc(front, last);
      MovedSnoc(front, last, id);
      MovedSnoc(NegateAll(front), Negated(last), id);
      OppositeSum(Moved(front, id), ZERO, last, id);
    } else {
      NegateNone(id);
      assert ps == [];
    }
  }

  lemma MovedAllSnoc(events: seq<Event>, e: Event, id: string)
    ensures MovedAll(events + [e], id) == Plus(MovedAll(events, id), Moved(e.postings, id))
  {
    assert (events + [e])[..|events|] == events;
  }

  function FlowOf(e: Event): int { e.flow }

  lemma NothingYet(d: Delta, id: string)
    ensures Plus(ZERO, d) == d && MovedAll([], id) == ZERO && SumBy([], FlowOf) == 0
  {
  }

  lemma PairMoves(a: Event, b: Event, id: string)
    ensures MovedAll([a, b], id) == Plus(Moved(a.postings, id), Moved(b.postings, id))
    ensures SumBy([a, b], FlowOf) == a.flow + b.flow
  {
    hide *;
    assert [a] + [b] == [a, b] && [] + [a] == [a];
    MovedAllSnoc([], a, id);
    MovedAllSnoc([a], b, id);
    SumBySnoc([], a, FlowOf);
    SumBySnoc([a], b, FlowOf);
    NothingYet(Moved(a.postings, id), id);
    assert FlowOf(a) == a.flow && FlowOf(b) == b.flow by { FlowIs(a, b); }
  }

  lemma FlowIs(a: Event, b: Event)
    ensures FlowOf(a) == a.flow && FlowOf(b) == b.flow
  {
  }

  lemma ReversedPair(events: seq<Event>, id: string)
    requires LivesOk(events) && StatusOf(events, id) == Reversed
    ensures var es := OfTx(events, id);
            && |es| == 2 && es[1].postings == NegateAll(es[0].postings) && es[1].flow == -es[0].flow
  {
    StatusIsLast(events, id);
    assert Life(OfTx(events, id));
    hide OfTx;
  }

  /** A reversed transaction has moved nothing, on any holding, in any of the four amounts. */
  lemma ReversedNetsToZero(s: State, txId: string, holdingId: string)
    requires LivesOk(s.events) && StatusOf(s.events, txId) == Reversed
    ensures MovedAll(OfTx(s.events, txId), holdingId) == ZERO
    ensures SumBy(OfTx(s.events, txId), FlowOf) == 0
  {
    hide *;
    ReversedPair(s.events, txId);
    var es := OfTx(s.events, txId);
    assert es == [es[0], es[1]];
    NegatedMoves(es[0].postings, holdingId);
    PairMoves(es[0], es[1], holdingId);
    OppositeSum(Moved(es[0].postings, holdingId), ZERO, Posting("", 0, 0, 0, 0), holdingId);
  }

  // --- Postings stay with one owner ------------------------------------------------------------------

  predicate IsLeg(t: Tx, holdingId: string) {
    holdingId == t.cashId || t.holdingId == Some(holdingId) || t.destinationId == Some(holdingId)
  }

  ghost predicate LegsOnly(s: State, e: Event) {
    exists t :: t in s.transactions && t.id == e.txId && forall p :: p in e.postings ==> IsLeg(t, p.holdingId)
  }

  /** Every posting of an event is on a leg of its transaction. */
  ghost predicate EventsOwned(s: State) { forall e :: e in s.events ==> LegsOnly(s, e) }

  /** So every event stays within one legal entity and family. */
  lemma EventStaysWithOwner(s: State, e: Event, p: Posting, q: Posting)
    requires EventsOwned(s) && TxsOk(s) && e in s.events && p in e.postings && q in e.postings
    ensures At(s.holdings, p.holdingId).Some? && At(s.holdings, q.holdingId).Some?
    ensures SameOwner(At(s.holdings, p.holdingId).value, At(s.holdings, q.holdingId).value)
  {
    var t :| t in s.transactions && t.id == e.txId && forall x :: x in e.postings ==> IsLeg(t, x.holdingId);
    assert TxOk(s.holdings, t);
  }

  lemma PostingsOnLegs(s: State, t: Tx)
    requires FxOk(t.fx) && Postings(s, t).Ok?
    ensures forall p :: p in Postings(s, t).value ==> IsLeg(t, p.holdingId)
  {
    hide TxProblem, RevaluationProblem, DestinationRevaluation, Convert, CashCost;
    CashFound(s, t);
  }

  lemma CashFound(s: State, t: Tx)
    requires TxProblem(s, t).None?
    ensures FindHolding(s.holdings, t.cashId).Some?
            && s.holdings[FindHolding(s.holdings, t.cashId).value].id == t.cashId
  {
    hide SourceOk, CarryingProblem, CostProblem, CommitmentProblem, AccountProblem, InvestmentProblem,
         DestinationProblem;
  }

  lemma LegsPersist(before: seq<Tx>, after: seq<Tx>, s: State, t: State, e: Event)
    requires s.transactions == before && t.transactions == after && LegsOnly(s, e)
    requires forall x :: x in before ==> exists y :: y in after && y.id == x.id && forall h :: IsLeg(x, h) <==>
               IsLeg(y, h)
    ensures LegsOnly(t, e)
  {
    var x :| x in before && x.id == e.txId && forall p :: p in e.postings ==> IsLeg(x, p.holdingId);
    var y :| y in after && y.id == x.id && forall h :: IsLeg(x, h) <==> IsLeg(y, h);
  }

  // --- Steps keep the lives ---------------------------------------------------------------------------

  ghost predicate LivesInv(s: State) { TxsOk(s) && LivesOk(s.events) && EventsOwned(s) }

  lemma LivesKept(s: State, c: Command, meta: Meta)
    requires CommandOk(c) && FxesOk(s) && HoldingsOk(s.holdings) && LivesOk(s.events) && Step(s, c, meta).Ok?
    ensures LivesOk(Step(s, c, meta).value.events)
  {
    hide *;
    var t := Step(s, c, meta).value;
    if c.Settle? {
      StepIsSettle(s, c, meta);
      var k, e := SettleShape(s, c.txId, c.date, c.source, meta);
      PostsEvents(s, t, e, meta);
      assert Follows(s.events, e) by { FollowsSettled(s.events, e); }
      LivesStep(s.events, e);
    } else if c.Reverse? {
      StepIsReverse(s, c, meta);
      var prior, e := ReverseShape(s, c.txId, c.date, c.source, meta);
      PostsEvents(s, t, e, meta);
      FollowsReversed(s.events, e, prior);
      LivesStep(s.events, e);
    } else if c.Void? {
      StepIsVoid(s, c, meta);
      var e := VoidShape(s, c.txId, c.source, meta);
      PostsEvents(s, t, e, meta);
      FollowsVoided(s.events, e);
      LivesStep(s.events, e);
    } else {
      SameEvents(s, c, meta);
    }
  }

  lemma StepIsSettle(s: State, c: Command, meta: Meta)
    requires CommandOk(c) && FxesOk(s) && c.Settle? && Step(s, c, meta).Ok?
    ensures Step(s, c, meta) == SettleStep(s, c.txId, c.date, c.source, meta)
  {
    hide SettleStep;
  }

  lemma StepIsReverse(s: State, c: Command, meta: Meta)
    requires CommandOk(c) && FxesOk(s) && c.Reverse? && Step(s, c, meta).Ok?
    ensures Step(s, c, meta) == ReverseStep(s, c.txId, c.date, c.source, meta)
  {
    hide ReverseStep;
  }

  lemma StepIsVoid(s: State, c: Command, meta: Meta)
    requires CommandOk(c) && FxesOk(s) && c.Void? && Step(s, c, meta).Ok?
    ensures Step(s, c, meta) == VoidStep(s, c.txId, c.source, meta)
  {
    hide VoidStep;
  }

  lemma PostsEvents(s: State, t: State, e: Event, meta: Meta)
    requires Posts(s, t, e, meta)
    ensures t.events == s.events + [e] && t.transactions == s.transactions && t.notices == s.notices
            && t.marks == s.marks
  {
  }

  lemma FollowsSettled(events: seq<Event>, e: Event)
    requires e.kind == Settled && StatusOf(events, e.txId) == Reviewed
    ensures Follows(events, e)
  {
  }

  lemma FollowsVoided(events: seq<Event>, e: Event)
    requires e.kind == Voided && StatusOf(events, e.txId) == Reviewed && e.postings == [] && e.flow == 0
    ensures Follows(events, e)
  {
  }

  lemma FollowsReversed(events: seq<Event>, e: Event, prior: Event)
    requires e.kind == Reversed && StatusOf(events, e.txId) == Settled && FirstSettled(events, e.txId) == Some(prior)
    requires e.postings == NegateAll(prior.postings) && e.flow == -prior.flow && e.reverses == Some(prior.id)
             && prior.date <= e.date
    ensures Follows(events, e)
  {
  }

  lemma SameEvents(s: State, c: Command, meta: Meta)
    requires CommandOk(c) && FxesOk(s) && HoldingsOk(s.holdings) && Step(s, c, meta).Ok?
    requires !c.Settle? && !c.Reverse? && !c.Void?
    ensures Step(s, c, meta).value.events == s.events
  {
    hide HoldingsOk, CreateHoldingStep, AcceptValuationStep, RecordValuationStep, LinkTransactionStep,
         RegisterNoticeStep, AcceptNoticeStep, AmendStep, CancelStep, ConfirmDistinctStep, ReviewAccountStep,
         RecordTransactionStep, ReconcileStep, CreateEntityStep, CreateAccountStep, Marked, InBounds, MoneyOk, FxOk;
    match c
    case CreateHolding(_, _, _, _, _, _, _, _, _) => var h, m := CreateShape(s, c, meta);
    case AcceptValuation(v) => ValuationShape(s, v, meta);
    case RecordValuation(_, _, _, _, _, _, _) => RecordedValuationShape(s, c, meta);
    case CreateEntity(_, _, _, _) => RegisterShape(s, c, meta);
    case CreateAccount(_, _, _, _) => RegisterShape(s, c, meta);
    case _ => QuietShape(s, c, meta);
  }

  // --- Steps keep ownership -----------------------------------------------------------------------------

  lemma OwnedKept(s: State, c: Command, meta: Meta)
    requires CommandOk(c) && FxesOk(s) && HoldingsOk(s.holdings) && EventsOwned(s) && Step(s, c, meta).Ok?
    ensures EventsOwned(Step(s, c, meta).value)
  {
    hide *;
    var t := Step(s, c, meta).value;
    LegsOfTransactions(s, c, meta);
    if c.Settle? {
      StepIsSettle(s, c, meta);
      var k, e := SettleShape(s, c.txId, c.date, c.source, meta);
      PostsEvents(s, t, e, meta);
      PostingsOnLegs(s, s.transactions[k]);
      OwnedBy(s, e, s.transactions[k]);
      OwnedSnoc(s, t, e);
    } else if c.Reverse? {
      StepIsReverse(s, c, meta);
      var prior, e := ReverseShape(s, c.txId, c.date, c.source, meta);
      PostsEvents(s, t, e, meta);
      OwnedReversal(s, prior, e);
      OwnedSnoc(s, t, e);
    } else if c.Void? {
      StepIsVoid(s, c, meta);
      var e := VoidShape(s, c.txId, c.source, meta);
      PostsEvents(s, t, e, meta);
      OwnedBy(s, e, s.transactions[FindTx(s.transactions, c.txId).value]);
      OwnedSnoc(s, t, e);
    } else {
      SameEvents(s, c, meta);
      OwnedStaysSo(s, t);
    }
  }

  /** Each transaction survives with the same legs. */
  ghost predicate LegsSurvive(before: seq<Tx>, after: seq<Tx>) {
    forall x :: x in before ==> exists y :: y in after && y.id == x.id && forall h :: IsLeg(x, h) <==> IsLeg(y, h)
  }

  lemma LegsOfTransactions(s: State, c: Command, meta: Meta)
    requires CommandOk(c) && FxesOk(s) && HoldingsOk(s.holdings) && Step(s, c, meta).Ok?
    ensures LegsSurvive(s.transactions, Step(s, c, meta).value.transactions)
  {
    hide HoldingsOk, LinkTransactionStep, RecordTransactionStep, FxesOk, MoneyOk, FxOk, IsLeg, TxOk;
    var t := Step(s, c, meta).value;
    match c
    case LinkTransaction(o, id, source) =>
      var k := LinkedIs(s, o, id, source, meta);
      forall x | x in s.transactions
        ensures exists y :: y in t.transactions && y.id == x.id && forall h :: IsLeg(x, h) <==> IsLeg(y, h)
      {
        var i: nat :| i < |s.transactions| && s.transactions[i] == x;
        assert t.transactions[i] in t.transactions;
        SameLegs(x, o);
      }
    case RecordTransaction(tx, source) =>
      RecordedOk(s, tx, source, meta);
      forall x | x in s.transactions
        ensures exists y :: y in t.transactions && y.id == x.id && forall h :: IsLeg(x, h) <==> IsLeg(y, h)
      {
        assert x in t.transactions;
      }
    case _ =>
      SameTransactions(s, c, meta);
  }

  lemma SameLegs(x: Tx, o: string)
    ensures forall h :: IsLeg(x, h) <==> IsLeg(x.(obligationId := Some(o)), h)
  {
  }

  lemma OwnedStaysSo(s: State, t: State)
    requires EventsOwned(s) && t.events == s.events && LegsSurvive(s.transactions, t.transactions)
    ensures EventsOwned(t)
  {
    hide LegsOnly;
    forall e | e in t.events ensures LegsOnly(t, e) { LegsPersist(s.transactions, t.transactions, s, t, e); }
  }

  lemma OwnedBy(s: State, e: Event, x: Tx)
    requires x in s.transactions && x.id == e.txId && forall p :: p in e.postings ==> IsLeg(x, p.holdingId)
    ensures LegsOnly(s, e)
  {
  }

  lemma OwnedReversal(s: State, prior: Event, e: Event)
    requires EventsOwned(s) && FirstSettled(s.events, e.txId) == Some(prior) && e.postings == NegateAll(prior.postings)
    ensures LegsOnly(s, e)
  {
    assert LegsOnly(s, prior);
    var x :| x in s.transactions && x.id == prior.txId && forall p :: p in prior.postings ==> IsLeg(x, p.holdingId);
    forall p | p in e.postings ensures IsLeg(x, p.holdingId) {
      var i: nat :| i < |e.postings| && e.postings[i] == p;
      assert prior.postings[i] in prior.postings;
    }
  }

  lemma OwnedSnoc(s: State, t: State, e: Event)
    requires EventsOwned(s) && LegsOnly(s, e) && t.events == s.events + [e]
             && LegsSurvive(s.transactions, t.transactions)
    ensures EventsOwned(t)
  {
    hide LegsOnly;
    forall x | x in t.events ensures LegsOnly(t, x) { LegsPersist(s.transactions, t.transactions, s, t, x); }
  }

  // --- Total value ------------------------------------------------------------------------------------------

  function ValueOf(h: Holding): int { h.value }

  function CostOf(h: Holding): int { h.cost }

  function ValueMoved(p: Posting): int { p.value }

  function CostMoved(p: Posting): int { p.cost }

  lemma {:induction false} SumAfterUpdate(hs: seq<Holding>, k: nat, h: Holding, f: Holding -> int)
    requires k < |hs|
    ensures SumBy(hs[k := h], f) == SumBy(hs, f) - f(hs[k]) + f(h)
  {
    var n := |hs| - 1;
    if k == n {
      assert hs[k := h][..n] == hs[..n];
    } else {
      SumAfterUpdate(hs[..n], k, h, f);
      assert hs[k := h][..n] == hs[..n][k := h];
    }
  }

  lemma PostOneTotals(s: State, e: Event, p: Posting, first: bool, sourceId: string)
    requires HoldingsOk(s.holdings) && PostOne(s, e, p, first, sourceId).Ok?
    ensures var t := PostOne(s, e, p, first, sourceId).value;
            && SumBy(t.holdings, ValueOf) == SumBy(s.holdings, ValueOf) + p.value
            && SumBy(t.holdings, CostOf) == SumBy(s.holdings, CostOf) + p.cost
  {
    hide SumBy, HoldingsOk, LatestPosting, PutRow, FindRow, InBounds;
    var k := FindHolding(s.holdings, p.holdingId).value;
    var next := Posted(s.holdings[k], e.date, p, sourceId);
    SumAfterUpdate(s.holdings, k, next, ValueOf);
    SumAfterUpdate(s.holdings, k, next, CostOf);
  }

  /** Applying an event moves the total by the sum of its postings. */
  lemma {:induction false} ApplyTotals(s: State, e: Event, n: nat, sourceId: string)
    requires HoldingsOk(s.holdings) && n <= |e.postings| && ApplyFirst(s, e, n, sourceId).Ok?
    ensures var t := ApplyFirst(s, e, n, sourceId).value;
            && SumBy(t.holdings, ValueOf) == SumBy(s.holdings, ValueOf) + SumBy(e.postings[..n], ValueMoved)
            && SumBy(t.holdings, CostOf) == SumBy(s.holdings, CostOf) + SumBy(e.postings[..n], CostMoved)
    decreases n
  {
    hide *;
    if n > 0 {
      ApplyUnfolds(s, e, n, sourceId);
      AppliedLength(s, e, n - 1, sourceId);
      ApplyTotals(s, e, n - 1, sourceId);
      var before, p := ApplyFirst(s, e, n - 1, sourceId).value, e.postings[n - 1];
      PostOneTotals(before, e, p, IsFirst(e, p), sourceId);
      assert e.postings[..n] == e.postings[..n - 1] + [p];
      SumBySnoc(e.postings[..n - 1], p, ValueMoved);
      SumBySnoc(e.postings[..n - 1], p, CostMoved);
      MovedIs(p);
    } else {
      ApplyNone(s, e, sourceId);
      assert e.postings[..0] == [];
      NoPostings();
    }
  }

  lemma MovedIs(p: Posting)
    ensures ValueMoved(p) == p.value && CostMoved(p) == p.cost
  {
  }

  lemma NoPostings()
    ensures SumBy([], ValueMoved) == 0 && SumBy([], CostMoved) == 0
  {
  }

  /** The EUR value released or carried by the investment leg. */
  function CarriedEUR(t: Tx): int
    requires FxOk(t.fx)
  {
    var c := Convert(Carried(t), t.currency, t.fx, t.dueDate);
    if c.Ok? then c.value else 0
  }

  /** How much a settlement changes the owner's total recorded value. */
  function NetEffect(t: Tx): int
    requires FxOk(t.fx)
  {
    match t.kind
    case Transfer => 0
    case CapitalCall => 0
    case Purchase => 0
    case Deposit => t.amountEUR
    case Withdrawal => -t.amountEUR
    case Fee => -t.amountEUR
    case Sale => t.amountEUR - CarriedEUR(t)
    case Distribution => t.amountEUR - (if t.effect == NoEffect then 0 else CarriedEUR(t))
  }

  lemma PostingsTotal(s: State, t: Tx)
    requires TxOk(s.holdings, t) && Postings(s, t).Ok?
    ensures SumBy(Postings(s, t).value, ValueMoved) == NetEffect(t)
    ensures t.kind == Transfer ==> SumBy(Postings(s, t).value, CostMoved) == 0
  {
    hide TxProblem, RevaluationProblem, DestinationRevaluation, Convert, LegsOwned, FindHolding, At, CashCost,
         SumBy, Scale, MoneyOk;
    var cash := PostingsAre(s, t);
    var a, b, c := CashPosting(t, cash), DestinationPosting(t, cash), InvestmentPosting(t, CarriedEUR(t));
    hide Postings;
    ThreeSums(a, b, c, ValueMoved);
    ThreeSums(a, b, c, CostMoved);
    if t.effect == NoEffect { NothingCarried(t); }
  }

  lemma PostingsAre(s: State, t: Tx) returns (cash: Holding)
    requires FxOk(t.fx) && Postings(s, t).Ok?
    ensures Postings(s, t).value ==
            [CashPosting(t, cash)] + DestinationPosting(t, cash) + InvestmentPosting(t, CarriedEUR(t))
    ensures t.holdingId.Some? ==> Convert(Carried(t), t.currency, t.fx, t.dueDate).Ok?
  {
    hide TxProblem, RevaluationProblem, DestinationRevaluation, Convert, FindHolding;
    CashFound(s, t);
    cash := s.holdings[FindHolding(s.holdings, t.cashId).value];
  }

  lemma ThreeSums(a: Posting, b: seq<Posting>, c: seq<Posting>, f: Posting -> int)
    requires |b| <= 1 && |c| <= 1
    ensures SumBy([a] + b + c, f) == f(a) + (if b == [] then 0 else f(b[0])) + (if c == [] then 0 else f(c[0]))
  {
    SumByConcat([a] + b, c, f);
    SumByConcat([a], b, f);
    OneSum([a], f);
    OneSum(b, f);
    OneSum(c, f);
  }

  lemma OneSum(xs: seq<Posting>, f: Posting -> int)
    requires |xs| <= 1
    ensures SumBy(xs, f) == if xs == [] then 0 else f(xs[0])
  {
    if |xs| == 1 { assert xs[..0] == []; }
  }

  /** A distribution taken as income releases no carrying value. */
  lemma NothingCarried(t: Tx)
    requires FxOk(t.fx) && t.effect == NoEffect && Convert(t.amount, t.currency, t.fx, t.dueDate).Ok?
    ensures CarriedEUR(t) == 0
  {
    if t.currency != "EUR" { ScaledZero(t.fx.value); }
  }

  lemma ScaledZero(fx: Fx)
    requires fx.denominator > 0
    ensures Scale(0, fx) == 0
  {
    assert 0 * fx.numerator == 0;
  }

  /** A settlement changes total value only by what its kind brings in, takes out, or realises. */
  lemma SettlementMovesTotal(s: State, txId: string, date: int, source: Source, meta: Meta)
    requires HoldingsOk(s.holdings) && TxsOk(s) && FxesOk(s) && SettleStep(s, txId, date, source, meta).Ok?
    ensures var t, k := SettleStep(s, txId, date, source, meta).value, FindTx(s.transactions, txId);
            && k.Some? && FxOk(s.transactions[k.value].fx)
            && SumBy(t.holdings, ValueOf) == SumBy(s.holdings, ValueOf) + NetEffect(s.transactions[k.value])
            && (s.transactions[k.value].kind == Transfer ==> SumBy(t.holdings, CostOf) == SumBy(s.holdings, CostOf))
  {
    var k, e := SettleShape(s, txId, date, source, meta);
    var t := SettleStep(s, txId, date, source, meta).value;
    TxById(s, txId, k);
    hide *;
    PostsTotals(s, t, e, meta);
    PostingsTotal(s, s.transactions[k]);
  }

  lemma TxById(s: State, txId: string, k: nat)
    requires TxsOk(s) && k < |s.transactions| && s.transactions[k].id == txId
    ensures FindTx(s.transactions, txId) == Some(k) && TxOk(s.holdings, s.transactions[k])
  {
    assert s.transactions[k] in s.transactions;
  }

  lemma PostsTotals(s: State, t: State, e: Event, meta: Meta)
    requires HoldingsOk(s.holdings) && Posts(s, t, e, meta)
    ensures SumBy(t.holdings, ValueOf) == SumBy(s.holdings, ValueOf) + SumBy(e.postings, ValueMoved)
    ensures SumBy(t.holdings, CostOf) == SumBy(s.holdings, CostOf) + SumBy(e.postings, CostMoved)
  {
    hide ApplyFirst, SumBy, HoldingsOk;
    ApplyTotals(s, e, |e.postings|, meta.id + "-source");
    assert e.postings[..|e.postings|] == e.postings;
  }
}
