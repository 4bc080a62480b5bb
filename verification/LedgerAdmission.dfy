/**
 When the ledger accepts a transaction, and when it settles or reverses one (lib/ledger.ts,
 `validateTransaction`, `applyLedgerAction`): exactly the conditions, kind by kind and balance by
 balance, on the records alone.
 */
module LedgerAdmission {
  import opened Common
  import opened LedgerState
  import opened LedgerPosting
  import opened LedgerCommands
  import opened LedgerRuns
  import opened LedgerReplay
  import opened LedgerLives
  import opened LedgerSettlement

  // --- A valid transaction --------------------------------------------------------------------

  /** A cash balance that may pay or receive in the currency: registered, reviewed in it if at all, unrestricted. */
  ghost predicate Payable(s: State, h: Holding, currency: string) {
    && h.assetClass == Cash && h.currency == currency
    && (exists a :: a in s.accounts && a.id == h.accountId && a.entityId == h.entityId && a.familyId == h.familyId)
    && (h.accountId in s.reviews ==>
          s.reviews[h.accountId].currency == currency && !s.reviews[h.accountId].restricted)
  }

  ghost predicate SameOwners(a: Holding, b: Holding) { a.entityId == b.entityId && a.familyId == b.familyId }

  ghost predicate CitesKnown(s: State, source: Source, familyId: string) {
    source.sourceId.Some? ==>
      var e := FindEvidence(s.evidence, source.sourceId.value);
      e.Some? && e.value.familyId == familyId
  }

  /** The investment of a transaction: another holding of the same owner, in the transaction's currency. */
  ghost predicate InvestsIn(s: State, t: Tx, cash: Holding) {
    && t.destinationId.None? && t.holdingId.Some?
    && var h := At(s.holdings, t.holdingId.value);
       h.Some? && h.value.assetClass != Cash && SameOwners(h.value, cash) && h.value.currency == t.currency
  }

  ghost predicate TransfersTo(s: State, t: Tx, cash: Holding) {
    && t.holdingId.None? && t.destinationId.Some? && t.destinationId.value != cash.id
    && var d := At(s.holdings, t.destinationId.value);
       d.Some? && Payable(s, d.value, t.currency) && SameOwners(d.value, cash)
  }

  /** No carrying value, no cost. */
  ghost predicate CarriesNothing(t: Tx) {
    && t.effect == NoEffect && t.investmentCost == 0
    && (t.investmentAmount.Some? ==> t.investmentAmount.value == 0)
  }

  /** Carrying value leaves the investment, at a stated cost. */
  ghost predicate Releases(t: Tx) {
    t.effect == Reduce && t.investmentAmount.Some? && t.investmentAmount.value > 0
  }

  /** All of the cash becomes carrying value, at its EUR cost. */
  ghost predicate BuysIn(t: Tx) {
    && t.effect == Increase && t.amount > 0 && t.investmentAmount == Some(t.amount) && t.investmentCost == t.amountEUR
  }

  ghost predicate NoCommitment(t: Tx) { t.commitmentEffect == NoEffect && t.commitmentAmount == 0 }

  /** A commitment movement is positive and within the payment. */
  ghost predicate Commits(t: Tx, effect: Effect) {
    t.commitmentEffect == effect && 0 < t.commitmentAmount <= t.amountEUR
  }

  /** What each kind of transaction may state. */
  ghost predicate KindOk(s: State, t: Tx, cash: Holding) {
    match t.kind
    case Deposit => t.holdingId.None? && t.destinationId.None? && CarriesNothing(t) && NoCommitment(t)
    case Withdrawal => t.holdingId.None? && t.destinationId.None? && CarriesNothing(t) && NoCommitment(t)
    case Fee => t.holdingId.None? && t.destinationId.None? && CarriesNothing(t) && NoCommitment(t)
    case Transfer => TransfersTo(s, t, cash) && CarriesNothing(t) && NoCommitment(t)
    case Purchase => InvestsIn(s, t, cash) && BuysIn(t) && NoCommitment(t)
    case CapitalCall => InvestsIn(s, t, cash) && BuysIn(t) && (NoCommitment(t) || Commits(t, Reduce))
    case Sale => InvestsIn(s, t, cash) && Releases(t) && NoCommitment(t)
    case Distribution =>
      InvestsIn(s, t, cash) && (CarriesNothing(t) || Releases(t)) && (NoCommitment(t) || Commits(t, Increase))
  }

  ghost predicate ValidTx(s: State, t: Tx) {
    var cash := At(s.holdings, t.cashId);
    && cash.Some? && Payable(s, cash.value, t.currency) && KindOk(s, t, cash.value)
    && CitesKnown(s, t.source, cash.value.familyId)
  }

  lemma AccountIs(s: State, h: Holding, currency: string)
    ensures h.assetClass == Cash && AccountProblem(s, h, currency).None? <==> Payable(s, h, currency)
  {
  }

  lemma SourceIs(s: State, source: Source, familyId: string)
    ensures SourceOk(s, source, Some(familyId)) <==> CitesKnown(s, source, familyId)
  {
    hide FindEvidence;
  }

  lemma LegsAre(s: State, t: Tx, cash: Holding)
    requires cash.id == t.cashId
    ensures InvestmentProblem(s, t, cash).None? && DestinationProblem(s, t, cash).None? <==>
            match t.kind
            case Transfer => TransfersTo(s, t, cash)
            case CapitalCall => InvestsIn(s, t, cash)
            case Purchase => InvestsIn(s, t, cash)
            case Sale => InvestsIn(s, t, cash)
            case Distribution => InvestsIn(s, t, cash)
            case _ => t.holdingId.None? && t.destinationId.None?
  {
    hide AccountProblem, Payable;
    if t.destinationId.Some? {
      var k := FindHolding(s.holdings, t.destinationId.value);
      if k.Some? { AccountIs(s, s.holdings[k.value], t.currency); }
    }
    hide FindHolding;
  }

  lemma AmountsAre(t: Tx)
    requires t.amountEUR >= 0
    ensures CarryingProblem(t).None? && CostProblem(t).None? && CommitmentProblem(t).None? <==>
            match t.kind
            case Purchase => BuysIn(t) && NoCommitment(t)
            case CapitalCall => BuysIn(t) && (NoCommitment(t) || Commits(t, Reduce))
            case Sale => Releases(t) && NoCommitment(t)
            case Distribution => (CarriesNothing(t) || Releases(t)) && (NoCommitment(t) || Commits(t, Increase))
            case _ => CarriesNothing(t) && NoCommitment(t)
  {
  }

  /** The ledger's checks of a transaction accept exactly the valid ones. */
  lemma ValidExactly(s: State, t: Tx)
    requires t.amountEUR >= 0
    ensures TxProblem(s, t).None? <==> ValidTx(s, t)
  {
    hide AccountProblem, Payable, InvestmentProblem, DestinationProblem, CarryingProblem, CostProblem,
         CommitmentProblem, SourceOk, CitesKnown, TransfersTo, InvestsIn, BuysIn, Releases, CarriesNothing,
         NoCommitment, Commits;
    var k := FindHolding(s.holdings, t.cashId);
    if k.Some? {
      var cash := s.holdings[k.value];
      AccountIs(s, cash, t.currency);
      LegsAre(s, t, cash);
      AmountsAre(t);
      SourceIs(s, t.source, cash.familyId);
    }
    hide FindHolding;
  }

  // --- When postings fit ----------------------------------------------------------------------------

  /** The posting is not backdated, and leaves every figure of its holding within bounds. */
  ghost predicate Fits(s: State, date: int, p: Posting) {
    var h := At(s.holdings, p.holdingId);
    && h.Some? && h.value.markDate <= date
    && (forall e :: e in s.events && Names(e.postings, p.holdingId) ==> e.date <= date)
    && 0 <= h.value.native + p.native <= MAX_MINOR && 0 <= h.value.value + p.value <= MAX_MINOR
    && 0 <= h.value.commitment + p.commitment <= MAX_MINOR && 0 <= h.value.cost + p.cost <= MAX_MINOR
  }

  lemma TouchesIs()
    ensures forall e, id :: Touches(e, id) <==> Names(e.postings, id)
  {
    forall e, id ensures Touches(e, id) <==> Names(e.postings, id) {
      if Names(e.postings, id) { assert exists p :: p in e.postings && p.holdingId == id; }
    }
  }

  lemma {:induction false} LatestIs(events: seq<Event>, id: string)
    ensures LatestPosting(events, id).Some? ==>
              exists e :: e in events && Touches(e, id) && e.date == LatestPosting(events, id).value
  {
    hide Touches;
    if |events| > 0 {
      LatestIs(events[..|events| - 1], id);
      assert events == events[..|events| - 1] + [events[|events| - 1]];
    }
  }

  lemma PostsOne(s: State, e: Event, p: Posting, first: bool, sourceId: string)
    ensures PostOne(s, e, p, first, sourceId).Ok? <==> Fits(s, e.date, p)
  {
    TouchesIs();
    hide PutRow, FindRow, Touches, Names;
    var k := FindHolding(s.holdings, p.holdingId);
    if k.Some? {
      var h := s.holdings[k.value];
      LatestIs(s.events, h.id);
      PostedFigures(h, e.date, p, sourceId);
    }
    hide FindHolding, LatestPosting, Posted;
  }

  lemma PostedFigures(h: Holding, date: int, p: Posting, sourceId: string)
    ensures var g := Posted(h, date, p, sourceId);
            && g.native == h.native + p.native && g.value == h.value + p.value
            && g.commitment == h.commitment + p.commitment && g.cost == h.cost + p.cost
  {
  }

  ghost predicate DistinctLegs(ps: seq<Posting>) {
    forall i, j :: 0 <= i < j < |ps| ==> ps[i].holdingId != ps[j].holdingId
  }

  /** Posting to other holdings leaves this one, and what was posted before, alone. */
  lemma OtherStays(s: State, e: Event, p: Posting, first: bool, sourceId: string, id: string)
    requires PostOne(s, e, p, first, sourceId).Ok? && p.holdingId != id
    ensures var t := PostOne(s, e, p, first, sourceId).value;
            At(t.holdings, id) == At(s.holdings, id) && t.events == s.events
  {
    hide PutRow, FindRow, LatestPosting, InBounds;
    var k := FindHolding(s.holdings, p.holdingId).value;
    var next := Posted(s.holdings[k], e.date, p, sourceId);
    assert next.id == s.holdings[k].id;
    hide Posted;
    ReplacedElsewhere(s.holdings, k, next, id);
  }

  lemma {:induction false} ReplacedElsewhere(hs: seq<Holding>, k: nat, h: Holding, id: string)
    requires k < |hs| && h.id == hs[k].id != id
    ensures At(hs[k := h], id) == At(hs, id)
  {
    if hs[0].id != id {
      if k > 0 {
        ReplacedElsewhere(hs[1..], k - 1, h, id);
        assert hs[k := h][1..] == hs[1..][k - 1 := h];
      } else {
        assert hs[k := h][1..] == hs[1..];
      }
    }
  }

  lemma {:induction false} OthersStay(s: State, e: Event, n: nat, sourceId: string, id: string)
    requires n <= |e.postings| && ApplyFirst(s, e, n, sourceId).Ok?
    requires forall i :: 0 <= i < n ==> e.postings[i].holdingId != id
    ensures var t := ApplyFirst(s, e, n, sourceId).value;
            At(t.holdings, id) == At(s.holdings, id) && t.events == s.events
    decreases n
  {
    hide *;
    if n == 0 {
      ApplyNone(s, e, sourceId);
    } else {
      ApplyUnfolds(s, e, n, sourceId);
      OthersStay(s, e, n - 1, sourceId, id);
      OtherStays(ApplyFirst(s, e, n - 1, sourceId).value, e, e.postings[n - 1], IsFirst(e, e.postings[n - 1]),
                 sourceId, id);
    }
  }

  lemma FitsAlike(s: State, t: State, date: int, p: Posting)
    requires At(t.holdings, p.holdingId) == At(s.holdings, p.holdingId) && t.events == s.events
    ensures Fits(t, date, p) <==> Fits(s, date, p)
  {
    hide At;
  }

  /** Postings to different holdings apply exactly when each of them fits where it stands. */
  lemma {:induction false} AppliesExactly(s: State, e: Event, n: nat, sourceId: string)
    requires n <= |e.postings| && DistinctLegs(e.postings)
    ensures ApplyFirst(s, e, n, sourceId).Ok? <==> forall i :: 0 <= i < n ==> Fits(s, e.date, e.postings[i])
    decreases n
  {
    hide Fits, PostOne, IsFirst, At;
    if n > 0 {
      AppliesExactly(s, e, n - 1, sourceId);
      var before := ApplyFirst(s, e, n - 1, sourceId);
      if before.Ok? {
        var p := e.postings[n - 1];
        OthersStay(s, e, n - 1, sourceId, p.holdingId);
        PostsOne(before.value, e, p, IsFirst(e, p), sourceId);
        FitsAlike(s, before.value, e.date, p);
      }
    }
  }

  // --- When a transaction settles -------------------------------------------------------------------

  /** What the payment's cash is worth at the transaction's rate is what the books say. */
  ghost predicate AtRate(t: Tx, h: Holding)
    requires FxOk(t.fx)
  {
    h.native >= 0 && Convert(h.native, t.currency, t.fx, t.dueDate) == Ok(h.value)
  }

  /** Nothing is left to clarify about the notice, and no notice is left out. */
  ghost predicate NoticeAllows(s: State, t: Tx) {
    if t.obligationId.None? then forall n :: n in s.notices && !n.cancelled ==> !MatchesTerms(t, n)
    else
      var n := FindNotice(s.notices, t.obligationId.value);
      n.Some? && !s.notices[n.value].cancelled && SummaryOf(s, s.notices[n.value]).missing == {}
  }

  /** The legs convert, and each fits its holding on the day. */
  ghost predicate LegsFit(s: State, t: Tx, date: int)
    requires FxOk(t.fx)
  {
    Postings(s, t).Ok? && forall p :: p in Postings(s, t).value ==> Fits(s, date, p)
  }

  ghost predicate CanSettle(s: State, t: Tx, date: int, source: Source, meta: Meta)
    requires FxOk(t.fx)
  {
    && date <= meta.today && StatusOf(s.events, t.id) == Reviewed && (t.fx.Some? ==> t.fx.value.date <= date)
    && NoticeAllows(s, t) && LegsFit(s, t, date)
    && At(s.holdings, t.cashId).Some? && CitesKnown(s, source, At(s.holdings, t.cashId).value.familyId)
  }

  /** The legs of a transaction exist exactly when it is still valid and its balances stand at its rate. */
  lemma PostingsExactly(s: State, t: Tx)
    requires FxOk(t.fx) && t.amountEUR >= 0
    ensures Postings(s, t).Ok? <==>
            && ValidTx(s, t) && AtRate(t, At(s.holdings, t.cashId).value)
            && (t.destinationId.Some? ==>
                  At(s.holdings, t.destinationId.value).Some? && AtRate(t, At(s.holdings, t.destinationId.value).value))
            && (t.holdingId.Some? ==> Convert(Carried(t), t.currency, t.fx, t.dueDate).Ok?)
  {
    ValidExactly(s, t);
    if ValidTx(s, t) { ValidHasCash(s, t); }
    hide TxProblem, ValidTx, Convert, CashPosting, DestinationPosting, InvestmentPosting, Carried;
    var k := FindHolding(s.holdings, t.cashId);
    if k.None? {
      NoCash(s, t);
    }
    hide FindHolding;
  }

  lemma ValidHasCash(s: State, t: Tx)
    requires ValidTx(s, t)
    ensures At(s.holdings, t.cashId).Some?
  {
    hide At;
  }

  lemma NoCash(s: State, t: Tx)
    requires FindHolding(s.holdings, t.cashId).None?
    ensures TxProblem(s, t).Some?
  {
  }

  lemma NoticeIs(s: State, t: Tx)
    ensures SettleNoticeProblem(s, t).None? <==> NoticeAllows(s, t)
  {
    hide SummaryOf, FindNotice, MatchesTerms;
  }

  lemma LegsDistinct(s: State, t: Tx)
    requires FxOk(t.fx) && Postings(s, t).Ok?
    ensures DistinctLegs(Postings(s, t).value)
  {
    hide *;
    NoProblem(s, t);
    LegsDiffer(s, t);
    var cash := At(s.holdings, t.cashId).value;
    AtHasId(s.holdings, t.cashId);
    PostingsFrom(s, t, cash);
    PostingIds(t, cash, CarriedEUR(t));
    ThreeDistinct(CashPosting(t, cash), DestinationPosting(t, cash), InvestmentPosting(t, CarriedEUR(t)));
  }

  lemma ThreeDistinct(a: Posting, b: seq<Posting>, c: seq<Posting>)
    requires |b| <= 1 && |c| <= 1 && (b == [] || c == [])
    requires b != [] ==> b[0].holdingId != a.holdingId
    requires c != [] ==> c[0].holdingId != a.holdingId
    ensures DistinctLegs([a] + b + c)
  {
  }

  /** A settlement is accepted exactly when the transaction can settle on that day. */
  lemma SettlesExactly(s: State, txId: string, date: int, source: Source, meta: Meta)
    requires forall t :: t in s.transactions ==> FxOk(t.fx)
    ensures SettleStep(s, txId, date, source, meta).Ok? <==>
            var k := FindTx(s.transactions, txId);
            k.Some? && CanSettle(s, s.transactions[k.value], date, source, meta)
  {
    var k := FindTx(s.transactions, txId);
    if k.Some? {
      var t := s.transactions[k.value];
      NoticeIs(s, t);
      hide NoticeAllows, SettleNoticeProblem, StatusOf, Postings, FindHolding, ApplyFirst, Fits;
      if SettleDecision(s, txId, date, source, meta).Ok? { PostsExactly(s, t, date, source, meta); }
    }
  }

  lemma PostsExactly(s: State, t: Tx, date: int, source: Source, meta: Meta)
    requires FxOk(t.fx) && Postings(s, t).Ok?
    ensures var e := Event(meta.id, t.id, Settled, date, meta.at, Postings(s, t).value, ExternalFlow(t), None, source);
            PostEvent(s, t, e, meta).Ok? <==>
            LegsFit(s, t, date) && At(s.holdings, t.cashId).Some?
            && CitesKnown(s, source, At(s.holdings, t.cashId).value.familyId)
  {
    LegsDistinct(s, t);
    var ps := Postings(s, t).value;
    var e := Event(meta.id, t.id, Settled, date, meta.at, ps, ExternalFlow(t), None, source);
    hide Postings, FindHolding, ApplyFirst, Fits, SourceOk, CitesKnown, ExternalFlow;
    var k := FindHolding(s.holdings, t.cashId);
    if k.Some? {
      var cash := s.holdings[k.value];
      SourceIs(s, source, cash.familyId);
      var w := WithEvidence(s, cash, meta);
      AppliesExactly(w, e, |ps|, meta.id + "-source");
      forall p | p in ps ensures Fits(w, date, p) <==> Fits(s, date, p) { FitsAlike(s, w, date, p); }
      assert forall p :: p in ps <==> exists i :: 0 <= i < |ps| && ps[i] == p;
    }
  }
}
