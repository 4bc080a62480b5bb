/**
 From a reviewed transaction to balance changes (lib/ledger.ts, `validateTransaction`,
 `settlementPostings`, `applyPostings`).
 */
module LedgerPosting {
  import opened Common
  import opened LedgerState

  function BaseMethod(c: AssetClass): Method {
    match c
    case Cash => CashBalance
    case RealEstate => EquityAppraisal
    case PublicEquities => MarketMark
    case FixedIncome => MarketMark
    case _ => FundNav
  }

  // --- Validation ---------------------------------------------------------------------------

  predicate HasAccount(s: State, h: Holding) {
    exists a :: a in s.accounts && a.id == h.accountId && a.entityId == h.entityId && a.familyId == h.familyId
  }

  /** `ensureCurrencyAccount`. */
  function AccountProblem(s: State, h: Holding, currency: string): Option<LedgerError> {
    if !HasAccount(s, h) then Some(AccountLinkInvalid)
    else if h.currency != currency || (h.accountId in s.reviews && s.reviews[h.accountId].currency != currency)
      then Some(CurrencyMismatch)
    else if h.accountId in s.reviews && s.reviews[h.accountId].restricted then Some(CashRestricted)
    else None
  }

  predicate Invests(k: Kind) { k in {CapitalCall, Distribution, Purchase, Sale} }

  predicate SameOwner(a: Holding, b: Holding) { a.entityId == b.entityId && a.familyId == b.familyId }

  /** The investment leg: present exactly for investment kinds, with the cash's owner and currency. */
  function InvestmentProblem(s: State, tx: Tx, cash: Holding): Option<LedgerError> {
    if Invests(tx.kind) then
      if tx.holdingId.None? then Some(InvestmentRequired)
      else
        var k := FindHolding(s.holdings, tx.holdingId.value);
        if k.None? then Some(HoldingNotFound)
        else
          var investment := s.holdings[k.value];
          if investment.assetClass == Cash || !SameOwner(investment, cash) then Some(EntityMismatch)
          else if investment.currency != tx.currency then Some(CurrencyMismatch)
          else None
    else if tx.holdingId.Some? then Some(UnexpectedInvestment)
    else None
  }

  /** The second cash leg: present exactly for transfers, another balance of the same owner. */
  function DestinationProblem(s: State, tx: Tx, cash: Holding): Option<LedgerError> {
    if tx.kind == Transfer then
      if tx.destinationId.None? || tx.destinationId.value == cash.id then Some(TransferDestination)
      else
        var k := FindHolding(s.holdings, tx.destinationId.value);
        if k.None? then Some(HoldingNotFound)
        else
          var destination := s.holdings[k.value];
          if destination.assetClass != Cash || !SameOwner(destination, cash) then Some(EntityMismatch)
          else AccountProblem(s, destination, tx.currency)
    else if tx.destinationId.Some? then Some(UnexpectedDestination)
    else None
  }

  function CarryingProblem(tx: Tx): Option<LedgerError> {
    if tx.kind in {Purchase, CapitalCall} && tx.effect != Increase then Some(LedgerError.InvestmentEffect)
    else if tx.kind == Sale && tx.effect != Reduce then Some(LedgerError.InvestmentEffect)
    else if tx.kind !in {Purchase, CapitalCall, Sale, Distribution} && tx.effect != NoEffect
      then Some(LedgerError.InvestmentEffect)
    else if tx.kind == Distribution && tx.effect == Increase then Some(LedgerError.InvestmentEffect)
    else if tx.effect != NoEffect then
      if tx.investmentAmount.None? || tx.investmentAmount.value == 0 then Some(CarryingValueRequired)
      else if tx.kind in {CapitalCall, Purchase} && tx.investmentAmount.value != tx.amount
        then Some(CarryingValueRequired)
      else None
    else if tx.investmentAmount.Some? && tx.investmentAmount.value != 0 then Some(LedgerError.InvestmentEffect)
    else None
  }

  function CostProblem(tx: Tx): Option<LedgerError> {
    if tx.effect == NoEffect && tx.investmentCost != 0 then Some(CostBasisEffect)
    else if tx.kind in {CapitalCall, Purchase} && tx.investmentCost != tx.amountEUR then Some(CostBasisRequired)
    else None
  }

  function CommitmentProblem(tx: Tx): Option<LedgerError> {
    if tx.commitmentEffect != NoEffect && tx.kind !in {CapitalCall, Distribution}
      then Some(LedgerError.CommitmentEffect)
    else if (tx.commitmentEffect == Reduce && tx.kind != CapitalCall)
        || (tx.commitmentEffect == Increase && tx.kind != Distribution)
      then Some(LedgerError.CommitmentEffect)
    else if (tx.commitmentEffect == NoEffect && tx.commitmentAmount != 0)
         || (tx.commitmentEffect != NoEffect && tx.commitmentAmount <= 0)
      then Some(LedgerError.CommitmentEffect)
    else if tx.commitmentAmount > tx.amountEUR then Some(LedgerError.CommitmentEffect)
    else None
  }

  function OrElse(a: Option<LedgerError>, b: Option<LedgerError>): Option<LedgerError> { if a.Some? then a else b }

  /** `validateTransaction`. */
  function TxProblem(s: State, tx: Tx): Option<LedgerError> {
    var k := FindHolding(s.holdings, tx.cashId);
    if k.None? then Some(HoldingNotFound)
    else
      var cash := s.holdings[k.value];
      if cash.assetClass != Cash then Some(CashRequired)
      else
        OrElse(AccountProblem(s, cash, tx.currency),
        OrElse(InvestmentProblem(s, tx, cash),
        OrElse(DestinationProblem(s, tx, cash),
        OrElse(CarryingProblem(tx),
        OrElse(CostProblem(tx),
        OrElse(CommitmentProblem(tx),
               if SourceOk(s, tx.source, Some(cash.familyId)) then None else Some(SourceNotFound)))))))
  }

  // --- Settlement postings ------------------------------------------------------------------

  predicate Inflow(k: Kind) { k in {Deposit, Distribution, Sale} }

  /** The balance in EUR at the transaction's rate is the recorded one. */
  function RevaluationProblem(tx: Tx, h: Holding): Option<LedgerError>
    requires FxOk(tx.fx)
  {
    if h.native < 0 then Some(MoneyBounds)
    else
      var at := Convert(h.native, tx.currency, tx.fx, tx.dueDate);
      if at.Err? then Some(at.error) else if at.value != h.value then Some(CashFxRevaluationRequired) else None
  }

  /** Book cost leaves with the cash in proportion, rounded half up. */
  function CashCost(tx: Tx, cash: Holding): int {
    if Inflow(tx.kind) then tx.amountEUR
    else if cash.native > 0 then (2 * cash.cost * tx.amount + cash.native) / (2 * cash.native)
    else 0
  }

  function CashPosting(tx: Tx, cash: Holding): Posting {
    var sign := if Inflow(tx.kind) then 1 else -1;
    Posting(cash.id, sign * tx.amount, sign * tx.amountEUR, 0, sign * CashCost(tx, cash))
  }

  function DestinationPosting(tx: Tx, cash: Holding): seq<Posting> {
    if tx.destinationId.None? then []
    else [Posting(tx.destinationId.value, tx.amount, tx.amountEUR, 0, CashCost(tx, cash))]
  }

  function Carried(tx: Tx): nat {
    if tx.effect == NoEffect || tx.investmentAmount.None? then 0 else tx.investmentAmount.value
  }

  function CommitmentChange(tx: Tx): int {
    match tx.commitmentEffect
    case Reduce => 0 - tx.commitmentAmount as int
    case Increase => tx.commitmentAmount
    case NoEffect => 0
  }

  function InvestmentPosting(tx: Tx, carriedEUR: int): seq<Posting> {
    if tx.holdingId.None? then []
    else
      var direction := if tx.effect == Reduce then -1 else 1;
      [Posting(tx.holdingId.value, direction * Carried(tx), direction * carriedEUR, CommitmentChange(tx),
               direction * tx.investmentCost)]
  }

  /** `settlementPostings`. */
  function Postings(s: State, tx: Tx): Result<seq<Posting>, LedgerError>
    requires FxOk(tx.fx)
  {
    var problem := TxProblem(s, tx);
    if problem.Some? then Err(problem.value)
    else
      var cash := s.holdings[FindHolding(s.holdings, tx.cashId).value];
      var revaluation := OrElse(RevaluationProblem(tx, cash), DestinationRevaluation(s, tx));
      if revaluation.Some? then Err(revaluation.value)
      else
        var carried := Convert(Carried(tx), tx.currency, tx.fx, tx.dueDate);
        if tx.holdingId.Some? && carried.Err? then Err(carried.error)
        else
          Ok([CashPosting(tx, cash)] + DestinationPosting(tx, cash)
             + InvestmentPosting(tx, if carried.Ok? then carried.value else 0))
  }

  function DestinationRevaluation(s: State, tx: Tx): Option<LedgerError>
    requires FxOk(tx.fx)
  {
    if tx.destinationId.None? then None
    else
      var k := FindHolding(s.holdings, tx.destinationId.value);
      if k.None? then Some(HoldingNotFound) else RevaluationProblem(tx, s.holdings[k.value])
  }

  // --- Applying postings ----------------------------------------------------------------------

  predicate Touches(e: Event, holdingId: string) { exists p :: p in e.postings && p.holdingId == holdingId }

  /** The latest date of an event that posted to the holding. */
  function LatestPosting(events: seq<Event>, holdingId: string): (r: Option<int>)
    ensures forall e :: e in events && Touches(e, holdingId) ==> r.Some? && e.date <= r.value
  {
    if |events| == 0 then None
    else
      var front, last := LatestPosting(events[..|events| - 1], holdingId), events[|events| - 1];
      assert events == events[..|events| - 1] + [last];
      if !Touches(last, holdingId) then front
      else if front.None? || front.value < last.date then Some(last.date) else front
  }

  function FindRow(rows: seq<HistoryRow>, holdingId: string, date: int): Option<HistoryRow> {
    if |rows| == 0 then None
    else if rows[0].holdingId == holdingId && rows[0].date == date then Some(rows[0])
    else FindRow(rows[1..], holdingId, date)
  }

  /** Replace the day's row of the holding. */
  function PutRow(rows: seq<HistoryRow>, row: HistoryRow): seq<HistoryRow> {
    Filter(rows, (r: HistoryRow) => !(r.holdingId == row.holdingId && r.date == row.date)) + [row]
  }

  function DetailOf(h: Holding): Detail { if h.detail.Some? then h.detail.value else Detail(h.markDate, 0, None) }

  /** The holding after one posting. */
  function Posted(h: Holding, date: int, p: Posting, sourceId: string): Holding {
    var next := h.(native := h.native + p.native, value := h.value + p.value,
                   commitment := h.commitment + p.commitment, cost := h.cost + p.cost);
    var detail := DetailOf(h);
    if h.assetClass == Cash then
      next.(markDate := date, sourceId := sourceId, basis := CashBalance, detail := Some(detail))
    else
      var pending := detail.pendingCapital + p.value;
      next.(detail := Some(detail.(pendingCapital := pending)),
            basis := if p.value == 0 then h.basis else if pending == 0 then BaseMethod(h.assetClass) else PlusCapital)
  }

  predicate InBounds(h: Holding) { MoneyOk(h.native) && MoneyOk(h.value) && MoneyOk(h.commitment) && MoneyOk(h.cost) }

  /** Applying one posting of an event that is not yet in the log. */
  function PostOne(s: State, e: Event, p: Posting, first: bool, sourceId: string): Result<State, LedgerError> {
    var k := FindHolding(s.holdings, p.holdingId);
    if k.None? then Err(HoldingNotFound)
    else
      var h := s.holdings[k.value];
      var latest := LatestPosting(s.events, h.id);
      if e.date < h.markDate || (latest.Some? && e.date < latest.value) then Err(BackdatedPosting)
      else
        var next := Posted(h, e.date, p, sourceId);
        if !InBounds(next) then Err(InsufficientBalance)
        else
          var existing := FindRow(s.history, h.id, e.date);
          var flow := (if existing.Some? then existing.value.flow else 0) + (if first then e.flow else 0);
          Ok(s.(holdings := s.holdings[k.value := next],
                history := PutRow(s.history, HistoryRow(h.id, e.date, next.value, flow))))
  }

  /** The first posting's holding carries the event's external flow. */
  predicate IsFirst(e: Event, p: Posting) { e.postings != [] && p.holdingId == e.postings[0].holdingId }

  /** The first `n` postings, in order; the first failure stops. */
  function ApplyFirst(s: State, e: Event, n: nat, sourceId: string): Result<State, LedgerError>
    requires n <= |e.postings|
    decreases n
  {
    if n == 0 then Ok(s)
    else
      var before := ApplyFirst(s, e, n - 1, sourceId);
      if before.Err? then before
      else PostOne(before.value, e, e.postings[n - 1], IsFirst(e, e.postings[n - 1]), sourceId)
  }

  /** `applyPostings`, on the caller's private copy. */
  method ApplyPostings(s: State, e: Event, sourceId: string) returns (r: Result<State, LedgerError>)
    ensures r == ApplyFirst(s, e, |e.postings|, sourceId)
  {
    hide PostOne;
    var current := s;
    var n := 0;
    while n < |e.postings|
      invariant 0 <= n <= |e.postings|
      invariant ApplyFirst(s, e, n, sourceId) == Ok(current)
    {
      var step := PostOne(current, e, e.postings[n], IsFirst(e, e.postings[n]), sourceId);
      n := n + 1;
      if step.Err? {
        ApplyStops(s, e, n, sourceId);
        return step;
      }
      current := step.value;
    }
    return Ok(current);
  }

  lemma {:induction false} ApplyStops(s: State, e: Event, n: nat, sourceId: string)
    requires n <= |e.postings| && ApplyFirst(s, e, n, sourceId).Err?
    ensures ApplyFirst(s, e, |e.postings|, sourceId) == ApplyFirst(s, e, n, sourceId)
    decreases |e.postings| - n
  {
    hide PostOne;
    if n < |e.postings| { ApplyStops(s, e, n + 1, sourceId); }
  }
}
