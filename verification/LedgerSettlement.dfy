/**
 What settling a reviewed transaction does to each balance (lib/ledger.ts, `settlementPostings`
 and the settlement branch of `applyLedgerAction`), leg by leg and by kind: the paying cash, the
 receiving cash of a transfer, and the investment.
 */
module LedgerSettlement {
  import opened Common
  import opened LedgerState
  import opened LedgerPosting
  import opened LedgerCommands
  import opened LedgerRuns
  import opened LedgerReplay
  import opened LedgerLives

  // --- The legs ------------------------------------------------------------------------------

  lemma MovedNothing(id: string)
    ensures Moved([], id) == ZERO
  {
  }

  lemma {:induction false} MovedConcat(ps: seq<Posting>, qs: seq<Posting>, id: string)
    ensures Moved(ps + qs, id) == Plus(Moved(ps, id), Moved(qs, id))
  {
    if |qs| == 0 {
      assert ps + qs == ps;
    } else {
      var front, last := qs[..|qs| - 1], qs[|qs| - 1];
      assert ps + qs == (ps + front) + [last] && qs == front + [last];
      MovedConcat(ps, front, id);
      MovedSnoc(ps + front, last, id);
      MovedSnoc(front, last, id);
      hide Moved;
    }
  }

  lemma MovedOne(p: Posting, id: string)
    ensures Moved([p], id) == DeltaOf(p, id)
  {
    MovedSnoc([], p, id);
    assert [] + [p] == [p];
  }

  /** A valid transaction's legs are different holdings, and a transfer has no investment. */
  lemma LegsDiffer(s: State, t: Tx)
    requires TxProblem(s, t).None?
    ensures t.holdingId.Some? ==> t.holdingId.value != t.cashId && Invests(t.kind)
    ensures t.destinationId.Some? ==> t.destinationId.value != t.cashId && t.kind == Transfer && t.holdingId.None?
    ensures At(s.holdings, t.cashId).Some?
  {
    hide SourceOk, CarryingProblem, CostProblem, CommitmentProblem, AccountProblem;
  }

  lemma NoProblem(s: State, t: Tx)
    requires FxOk(t.fx) && Postings(s, t).Ok?
    ensures TxProblem(s, t).None? && CommitmentProblem(t).None? && CarryingProblem(t).None? && CostProblem(t).None?
  {
    hide SourceOk, CarryingProblem, CostProblem, CommitmentProblem, AccountProblem, InvestmentProblem,
         DestinationProblem, RevaluationProblem, DestinationRevaluation, Convert;
  }

  /** The three groups of postings, each on its own holding. */
  lemma LegsApart(s: State, t: Tx, id: string) returns (cash: Holding)
    requires FxOk(t.fx) && Postings(s, t).Ok?
    ensures At(s.holdings, t.cashId) == Some(cash) && cash.id == t.cashId
    ensures var ps := Postings(s, t).value;
            && (id == t.cashId ==> Moved(ps, id) == DeltaOf(CashPosting(t, cash), id))
            && (t.destinationId == Some(id) ==> id != t.cashId && t.kind == Transfer
                                                && Moved(ps, id) == DeltaOf(DestinationPosting(t, cash)[0], id))
            && (t.holdingId == Some(id) ==> id != t.cashId && Invests(t.kind)
                                            && Moved(ps, id) == DeltaOf(InvestmentPosting(t, CarriedEUR(t))[0], id))
            && (id != t.cashId && t.destinationId != Some(id) && t.holdingId != Some(id) ==> Moved(ps, id) == ZERO)
  {
    hide *;
    NoProblem(s, t);
    LegsDiffer(s, t);
    cash := At(s.holdings, t.cashId).value;
    AtHasId(s.holdings, t.cashId);
    PostingsFrom(s, t, cash);
    var a, b, c := CashPosting(t, cash), DestinationPosting(t, cash), InvestmentPosting(t, CarriedEUR(t));
    PostingIds(t, cash, CarriedEUR(t));
    PartsMoved(a, b, c, id);
  }

  lemma AtHasId(hs: seq<Holding>, id: string)
    requires At(hs, id).Some?
    ensures At(hs, id).value.id == id && At(hs, id).value in hs
  {
  }

  lemma PostingIds(t: Tx, cash: Holding, carriedEUR: int)
    ensures CashPosting(t, cash).holdingId == cash.id
    ensures var b := DestinationPosting(t, cash);
            |b| == (if t.destinationId.Some? then 1 else 0) && (b != [] ==> b[0].holdingId == t.destinationId.value)
    ensures var c := InvestmentPosting(t, carriedEUR);
            |c| == (if t.holdingId.Some? then 1 else 0) && (c != [] ==> c[0].holdingId == t.holdingId.value)
  {
  }

  lemma PartsMoved(a: Posting, b: seq<Posting>, c: seq<Posting>, id: string)
    requires |b| <= 1 && |c| <= 1 && (b == [] || c == [])
    requires b != [] ==> b[0].holdingId != a.holdingId
    requires c != [] ==> c[0].holdingId != a.holdingId
    ensures Moved([a] + b + c, id) ==
            if id == a.holdingId then DeltaOf(a, id)
            else if b != [] && b[0].holdingId == id then DeltaOf(b[0], id)
            else if c != [] && c[0].holdingId == id then DeltaOf(c[0], id)
            else ZERO
  {
    hide *;
    MovedConcat([a] + b, c, id);
    MovedConcat([a], b, id);
    PartMoved([a], id);
    PartMoved(b, id);
    PartMoved(c, id);
    Elsewhere(a, b, c, id);
  }

  lemma PartMoved(ps: seq<Posting>, id: string)
    requires |ps| <= 1
    ensures Moved(ps, id) == if ps == [] then ZERO else DeltaOf(ps[0], id)
  {
    hide Moved, DeltaOf;
    if ps == [] {
      MovedNothing(id);
    } else {
      assert ps == [ps[0]];
      MovedOne(ps[0], id);
    }
  }

  lemma Elsewhere(a: Posting, b: seq<Posting>, c: seq<Posting>, id: string)
    requires |b| <= 1 && |c| <= 1 && (b == [] || c == [])
    requires b != [] ==> b[0].holdingId != a.holdingId
    requires c != [] ==> c[0].holdingId != a.holdingId
    ensures var whole := Plus(Plus(DeltaOf(a, id), if b == [] then ZERO else DeltaOf(b[0], id)),
                              if c == [] then ZERO else DeltaOf(c[0], id));
            whole == if id == a.holdingId then DeltaOf(a, id)
                     else if b != [] && b[0].holdingId == id then DeltaOf(b[0], id)
                     else if c != [] && c[0].holdingId == id then DeltaOf(c[0], id)
                     else ZERO
  {
    hide Plus, DeltaOf;
    var x, y, z := DeltaOf(a, id), if b == [] then ZERO else DeltaOf(b[0], id),
        if c == [] then ZERO else DeltaOf(c[0], id);
    if id != a.holdingId { DeltaElsewhere(a, id); }
    if b != [] && id != b[0].holdingId { DeltaElsewhere(b[0], id); }
    if c != [] && id != c[0].holdingId { DeltaElsewhere(c[0], id); }
    PlusZero(x);
    PlusZero(y);
    PlusZero(z);
  }

  lemma PlusZero(d: Delta)
    ensures Plus(d, ZERO) == d && Plus(ZERO, d) == d
  {
  }

  lemma DeltaElsewhere(p: Posting, id: string)
    requires p.holdingId != id
    ensures DeltaOf(p, id) == ZERO
  {
  }

  lemma PostingsFrom(s: State, t: Tx, cash: Holding)
    requires FxOk(t.fx) && Postings(s, t).Ok? && At(s.holdings, t.cashId) == Some(cash)
    ensures Postings(s, t).value ==
            [CashPosting(t, cash)] + DestinationPosting(t, cash) + InvestmentPosting(t, CarriedEUR(t))
    ensures t.holdingId.Some? ==> Convert(Carried(t), t.currency, t.fx, t.dueDate).Ok?
  {
    hide TxProblem, RevaluationProblem, DestinationRevaluation, Convert, FindHolding;
    CashFound(s, t);
  }

  /** The book cost that leaves with an amount of cash: its share of the cost, rounded half up. */
  ghost predicate CostShare(part: int, cash: Holding, amount: nat) {
    if cash.native <= 0 then part == 0
    else IsHalfUp(part, cash.cost * amount, cash.native)
  }

  /** The quotient is within half a unit of the exact one, and a tie goes up. */
  ghost predicate IsHalfUp(q: int, x: int, n: int) { 2 * (n * q) - n <= 2 * x < 2 * (n * q) + n }

  lemma CashCostIsShare(t: Tx, cash: Holding)
    requires !Inflow(t.kind)
    ensures CostShare(CashCost(t, cash), cash, t.amount)
  {
    if cash.native > 0 {
      var x := cash.cost * t.amount;
      assert 2 * cash.cost * t.amount == 2 * x;
      HalfUp(x, cash.native);
    }
  }

  lemma HalfUp(x: int, n: int)
    requires n > 0
    ensures IsHalfUp((2 * x + n) / (2 * n), x, n)
  {
    var y, q := 2 * x + n, (2 * x + n) / (2 * n);
    assert y == (2 * n) * q + y % (2 * n);
    assert (2 * n) * q == 2 * (n * q);
  }

  /** The paying or receiving cash balance. */
  lemma CashLeg(s: State, t: Tx)
    requires TxOk(s.holdings, t) && Postings(s, t).Ok? && HoldingsOk(s.holdings)
    ensures At(s.holdings, t.cashId).Some?
    ensures var d := Moved(Postings(s, t).value, t.cashId);
            && (t.kind in {Deposit, Distribution, Sale} ==> d == Delta(t.amount, t.amountEUR, 0, t.amountEUR))
            && (t.kind in {Withdrawal, CapitalCall, Purchase, Fee, Transfer} ==>
                  && d.native == -(t.amount as int) && d.value == -t.amountEUR && d.commitment == 0
                  && CostShare(-d.cost, At(s.holdings, t.cashId).value, t.amount))
  {
    var cash := LegsApart(s, t, t.cashId);
    assert cash in s.holdings && HoldingOk(cash);
    hide Postings, TxOk, HoldingsOk, CashCost, At, CostShare;
    if !Inflow(t.kind) { CashCostIsShare(t, cash); } else { InflowCost(t, cash); }
  }

  lemma InflowCost(t: Tx, cash: Holding)
    requires Inflow(t.kind)
    ensures CashCost(t, cash) == t.amountEUR
  {
  }

  /** The second balance of a transfer receives exactly what the first one pays, cost included. */
  lemma DestinationLeg(s: State, t: Tx, id: string)
    requires FxOk(t.fx) && Postings(s, t).Ok? && t.destinationId == Some(id)
    ensures t.kind == Transfer && id != t.cashId
    ensures var paid, got := Moved(Postings(s, t).value, t.cashId), Moved(Postings(s, t).value, id);
            && got.native == t.amount == -paid.native && got.value == t.amountEUR == -paid.value
            && got.commitment == 0 && got.cost == -paid.cost
  {
    var cash := LegsApart(s, t, id);
    var again := LegsApart(s, t, t.cashId);
    hide Postings, CashCost, At;
  }

  /**
   What is called or bought comes in, what is sold or returned goes out; only calls and
   distributions move commitments.
   */
  ghost predicate InvestmentMove(t: Tx, d: Delta)
    requires FxOk(t.fx)
  {
    && (t.kind == CapitalCall ==> d == Delta(t.amount, t.amountEUR, -(t.commitmentAmount as int), t.amountEUR))
    && (t.kind == Purchase ==> d == Delta(t.amount, t.amountEUR, 0, t.amountEUR))
    && (t.kind in {Sale, Distribution} && t.effect == Reduce ==>
          && t.investmentAmount.Some? && d.native == -(t.investmentAmount.value as int)
          && Convert(t.investmentAmount.value, t.currency, t.fx, t.dueDate) == Ok(-d.value)
          && d.cost == -(t.investmentCost as int))
    && (t.kind == Sale ==> t.effect == Reduce && d.commitment == 0)
    && (t.kind == Distribution ==> t.effect != Increase && d.commitment == t.commitmentAmount)
    && (t.effect == NoEffect ==> d.native == 0 && d.value == 0 && d.cost == 0)
  }

  /** The investment leg of a settlement. */
  lemma InvestmentLeg(s: State, t: Tx, id: string)
    requires TxOk(s.holdings, t) && Postings(s, t).Ok? && t.holdingId == Some(id)
    ensures id != t.cashId && t.kind in {CapitalCall, Purchase, Sale, Distribution}
    ensures InvestmentMove(t, Moved(Postings(s, t).value, id))
  {
    var cash := LegsApart(s, t, id);
    hide *;
    assert FxOk(t.fx) && Convert(t.amount, t.currency, t.fx, t.dueDate) == Ok(t.amountEUR) by {
      TxConverts(s.holdings, t);
    }
    NoProblem(s, t);
    PostingsFrom(s, t, cash);
    if t.effect == NoEffect { NothingCarried(t); }
    InvestmentMoves(t, id);
    InvestsIs(t.kind);
  }

  lemma TxConverts(hs: seq<Holding>, t: Tx)
    requires TxOk(hs, t)
    ensures FxOk(t.fx) && Convert(t.amount, t.currency, t.fx, t.dueDate) == Ok(t.amountEUR)
  {
    hide LegsOwned, Convert;
  }

  lemma InvestsIs(k: Kind)
    ensures Invests(k) <==> k in {CapitalCall, Purchase, Sale, Distribution}
  {
  }

  lemma InvestmentMoves(t: Tx, id: string)
    requires FxOk(t.fx) && t.holdingId == Some(id) && Invests(t.kind)
    requires Convert(t.amount, t.currency, t.fx, t.dueDate) == Ok(t.amountEUR)
    requires CommitmentProblem(t).None? && CarryingProblem(t).None? && CostProblem(t).None?
    requires Convert(Carried(t), t.currency, t.fx, t.dueDate).Ok? && (t.effect == NoEffect ==> CarriedEUR(t) == 0)
    ensures InvestmentMove(t, DeltaOf(InvestmentPosting(t, CarriedEUR(t))[0], id))
  {
    hide Convert;
  }

  /** No other holding is moved at all. */
  lemma OtherLegs(s: State, t: Tx, id: string)
    requires FxOk(t.fx) && Postings(s, t).Ok?
    requires id != t.cashId && t.destinationId != Some(id) && t.holdingId != Some(id)
    ensures Moved(Postings(s, t).value, id) == ZERO
  {
    var cash := LegsApart(s, t, id);
  }

  // --- The balances after a settlement ---------------------------------------------------------

  /** How a settlement may change unfunded commitments. */
  function CommitmentMoved(t: Tx, id: string): int {
    if t.holdingId != Some(id) then 0
    else match t.kind
      case CapitalCall => -(t.commitmentAmount as int)
      case Distribution => t.commitmentAmount
      case _ => 0
  }

  /** Money that crosses the portfolio's boundary. */
  function BoundaryFlow(t: Tx): int {
    match t.kind
    case Deposit => t.amountEUR
    case Withdrawal => -t.amountEUR
    case _ => 0
  }

  lemma CommitmentLegs(s: State, t: Tx, id: string)
    requires TxOk(s.holdings, t) && Postings(s, t).Ok? && HoldingsOk(s.holdings)
    ensures Moved(Postings(s, t).value, id).commitment == CommitmentMoved(t, id)
  {
    hide Postings, HoldingsOk, Moved, Convert, CostShare;
    CashLeg(s, t);
    if t.destinationId == Some(id) { DestinationLeg(s, t, id); }
    if t.holdingId == Some(id) { InvestmentLeg(s, t, id); }
    var cash := LegsApart(s, t, id);
    hide TxOk;
  }

  /**
   Settling records one event, dated as commanded, whose postings move every balance exactly as the
   legs say; calls lower and recallable distributions raise commitments, and nothing else does.
   */
  lemma Settles(s: State, txId: string, date: int, source: Source, meta: Meta, i: nat) returns (tx: Tx, e: Event)
    requires HoldingsOk(s.holdings) && TxsOk(s) && FxesOk(s) && SettleStep(s, txId, date, source, meta).Ok?
    requires i < |s.holdings|
    ensures tx in s.transactions && tx.id == txId && TxOk(s.holdings, tx)
    ensures Postings(s, tx) == Ok(e.postings)
    ensures e.kind == Settled && e.txId == txId && e.date == date && e.flow == BoundaryFlow(tx) && e.at == meta.at
    ensures var t := SettleStep(s, txId, date, source, meta).value;
            && t.events == s.events + [e] && t.marks == s.marks && |t.holdings| == |s.holdings|
            && var h, g, d := s.holdings[i], t.holdings[i], Moved(e.postings, s.holdings[i].id);
            && g.id == h.id
            && g.native == h.native + d.native && g.value == h.value + d.value && g.cost == h.cost + d.cost
            && g.commitment == h.commitment + CommitmentMoved(tx, h.id)
            && g.markDate == (if IsCash(h) && Names(e.postings, h.id) then date else h.markDate)
  {
    var k: nat;
    k, e := SettleShape(s, txId, date, source, meta);
    var t := SettleStep(s, txId, date, source, meta).value;
    tx := s.transactions[k];
    TxById(s, txId, k);
    assert tx in s.transactions;
    hide *;
    FlowIs(tx);
    CommitmentLegs(s, tx, s.holdings[i].id);
    PostsBalances(s, t, e, meta, i);
  }

  lemma FlowIs(tx: Tx)
    ensures ExternalFlow(tx) == BoundaryFlow(tx)
  {
  }

  /** Any posted event moves every balance by exactly its own postings. */
  lemma PostsBalances(s: State, t: State, e: Event, meta: Meta, i: nat)
    requires HoldingsOk(s.holdings) && Posts(s, t, e, meta) && i < |s.holdings|
    ensures t.events == s.events + [e] && t.marks == s.marks && |t.holdings| == |s.holdings|
    ensures e.at == meta.at
    ensures var h, g, d := s.holdings[i], t.holdings[i], Moved(e.postings, s.holdings[i].id);
            && g.id == h.id
            && g.native == h.native + d.native && g.value == h.value + d.value
            && g.commitment == h.commitment + d.commitment && g.cost == h.cost + d.cost
            && g.markDate == (if IsCash(h) && Names(e.postings, h.id) then e.date else h.markDate)
  {
    hide ApplyFirst, HoldingsOk, Moved, Names;
    ApplyReplays(s, e, |e.postings|, meta.id + "-source", i);
    AppliedLength(s, e, |e.postings|, meta.id + "-source");
    assert e.postings[..|e.postings|] == e.postings;
  }

  /** Reversing takes back exactly what the settlement moved, on every balance and across the boundary. */
  lemma Reverses(s: State, txId: string, date: int, source: Source, meta: Meta, i: nat) returns (prior: Event, e: Event)
    requires HoldingsOk(s.holdings) && ReverseStep(s, txId, date, source, meta).Ok? && i < |s.holdings|
    ensures prior in s.events && prior.txId == txId && prior.kind == Settled && prior.date <= date
    ensures e.kind == Reversed && e.txId == txId && e.date == date && e.flow == -prior.flow
    ensures var t := ReverseStep(s, txId, date, source, meta).value;
            && t.events == s.events + [e] && t.marks == s.marks && |t.holdings| == |s.holdings|
            && var h, g, d := s.holdings[i], t.holdings[i], Moved(prior.postings, s.holdings[i].id);
            && g.native == h.native - d.native && g.value == h.value - d.value
            && g.commitment == h.commitment - d.commitment && g.cost == h.cost - d.cost
  {
    prior, e := ReverseShape(s, txId, date, source, meta);
    var t := ReverseStep(s, txId, date, source, meta).value;
    hide Moved, ApplyFirst, Posts, HoldingsOk, StatusOf, ReverseStep, MarkedSince, NegateAll;
    PostsBalances(s, t, e, meta, i);
    NegatedMoves(prior.postings, s.holdings[i].id);
  }
}
