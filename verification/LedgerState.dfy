/**
 The ledger's records and the computations that only read them (lib/ledger.ts): exact cents,
 currency conversion, transaction status, and what a cash notice has left to allocate.
 Dates and recording times are numbers.
 */
module LedgerState {
  import opened Common

  /** One trillion, in cents. */
  const MAX_MINOR := 100000000000000

  datatype AssetClass = PublicEquities | PrivateEquity | VentureCapital | RealEstate | FixedIncome | Cash

  datatype Method = SyntheticMark | FundNav | MarketMark | PlusCapital | EquityAppraisal | CashBalance

  /** A rate as an exact decimal fraction. */
  datatype Fx = Fx(numerator: nat, denominator: nat, date: int, source: string)

  datatype Detail = Detail(openingDate: int, pendingCapital: int, fx: Option<Fx>)

  datatype Holding = Holding(
    id: string, familyId: string, entityId: string, accountId: string,
    assetClass: AssetClass, currency: string,
    native: int, value: int, commitment: int, cost: int,
    markDate: int, sourceId: string, basis: Method, valueKnown: bool, liquidityKnown: bool,
    detail: Option<Detail>)

  datatype HistoryRow = HistoryRow(holdingId: string, date: int, value: int, flow: int)

  datatype Evidence = Evidence(id: string, familyId: string, holdingId: string, accepted: bool, synthetic: bool)

  /** A cash event read from a document, before review. */
  datatype CashEvent = CashEvent(id: string, call: bool, reported: bool, effectless: bool, holdingIds: seq<string>,
                                 sourceId: string, amount: Option<nat>, currency: Option<string>,
                                 effectiveDate: Option<int>)

  /** Names are compared without regard to case, so they are kept in lower case here. */
  datatype Entity = Entity(id: string, familyId: string, name: string)

  datatype Account = Account(id: string, entityId: string, familyId: string, name: string)

  datatype AccountReview = AccountReview(currency: string, restricted: bool, reviews: nat)

  /** A source reference: its date and, optionally, evidence in the workspace. */
  datatype Source = Source(date: int, sourceId: Option<string>)

  datatype Kind = Deposit | Withdrawal | CapitalCall | Distribution | Purchase | Sale | Fee | Transfer

  datatype Effect = NoEffect | Increase | Reduce

  datatype Tx = Tx(
    id: string, obligationId: Option<string>, kind: Kind,
    holdingId: Option<string>, cashId: string, destinationId: Option<string>,
    amount: nat, currency: string, amountEUR: int, fx: Option<Fx>, dueDate: int,
    effect: Effect, investmentAmount: Option<nat>, investmentCost: nat,
    commitmentEffect: Effect, commitmentAmount: nat, source: Source)

  datatype Status = Reviewed | Settled | Reversed | Voided

  datatype Posting = Posting(holdingId: string, native: int, value: int, commitment: int, cost: int)

  datatype Event = Event(id: string, txId: string, kind: Status, date: int, at: int, postings: seq<Posting>, flow: int,
                         reverses: Option<string>, source: Source)

  datatype Mark = Mark(id: string, holdingId: string, amount: nat, currency: string, value: int, date: int, at: int,
                       sourceId: string, fx: Option<Fx>, basis: Method)

  datatype Terms = Terms(amount: Option<nat>, currency: Option<string>, effectiveDate: Option<int>,
                         dueDate: Option<int>)

  /** An attestation that two notices differ, valid for these numbers of amendments. */
  datatype Distinctness = Distinctness(obligationId: string, noticeRevision: nat, otherRevision: nat)

  datatype Notice = Notice(id: string, holdingId: string, kind: Kind, sourceId: string, fingerprint: string,
                           terms: Terms, amendments: nat, distinctFrom: seq<Distinctness>, cancelled: bool)

  datatype ClosingBalance = ClosingBalance(holdingId: string, native: nat, value: nat)

  datatype Coverage = Coverage(id: string, entityId: string, from: int, to: int, cashIds: seq<string>,
                               eventCount: nat, markCount: nat, closing: seq<ClosingBalance>, source: Source)

  datatype State = State(
    holdings: seq<Holding>, history: seq<HistoryRow>, evidence: seq<Evidence>, cashEvents: seq<CashEvent>,
    entities: seq<Entity>, accounts: seq<Account>, reviews: map<string, AccountReview>,
    transactions: seq<Tx>, events: seq<Event>, marks: seq<Mark>, notices: seq<Notice>, coverage: seq<Coverage>,
    revision: nat)

  datatype LedgerError =
    MoneyBounds | CurrencyUnsupported | EurFxInvalid | FxRequired | FxDateInvalid | HoldingNotFound | InvalidActor |
    FuturePosting | SourceNotFound | InvestmentRequired | LedgerLimit | ObligationNotFound | ObligationCancelled |
    ObligationHasTransactions | ObligationLinkRequired | ObligationIncomplete | ObligationMismatch |
    ObligationOverallocated | CurrencyMismatch | CorrectionRequired | ValuationChanged | PostingRestatementRequired |
    AccountLinkInvalid | CashRestricted | CashRequired | EntityMismatch | UnexpectedInvestment | TransferDestination |
    UnexpectedDestination | InvestmentEffect | CarryingValueRequired | CostBasisEffect | CostBasisRequired |
    CommitmentEffect | CashFxRevaluationRequired | BackdatedPosting | InsufficientBalance | TransactionNotFound |
    TransactionChanged | NoticeNotFound | ObligationNotRelated | ObligationDuplicateInvalid | AccountNotFound |
    SourceFamilyMismatch | FamilyNotFound | EntityExists | AccountExists | HoldingLimit | EntityNotFound | CashExists |
    CashCommitmentInvalid | PositiveAmount | ReversalDate | ReversalRestatementRequired | CoverageDate |
    CoverageIncomplete | ReconciliationDifference

  // --- Money --------------------------------------------------------------------------------

  predicate MoneyOk(amount: int) { 0 <= amount <= MAX_MINOR }

  function NumberMoney(minor: int): Result<int, LedgerError> { if MoneyOk(minor) then Ok(minor) else Err(MoneyBounds) }

  predicate FxOk(fx: Option<Fx>) { fx.Some? ==> fx.value.numerator > 0 && fx.value.denominator > 0 }

  predicate Supported(currency: string) { currency in {"EUR", "USD", "GBP", "CHF"} }

  /** The product rounded half up to a whole number of cents. */
  function Scale(minor: nat, fx: Fx): int
    requires fx.denominator > 0
  {
    (minor * fx.numerator + fx.denominator / 2) / fx.denominator
  }

  /** The converted amount is the exact one to within half a cent. */
  lemma ScaleRoundsHalfUp(minor: nat, fx: Fx)
    requires fx.denominator > 0
    ensures 2 * (Scale(minor, fx) * fx.denominator - minor * fx.numerator) <= fx.denominator
    ensures 2 * (minor * fx.numerator - Scale(minor, fx) * fx.denominator) <= fx.denominator
  {
    assert minor * fx.numerator >= 0;
    var exact: nat := minor * fx.numerator;
    DivisionBounds(exact + fx.denominator / 2, fx.denominator);
  }

  lemma DivisionBounds(a: nat, b: nat)
    requires b > 0
    ensures (a / b) * b <= a < (a / b) * b + b
  {
  }

  /** `convertToEUR`. */
  function Convert(amount: nat, currency: string, fx: Option<Fx>, effectiveDate: int): Result<int, LedgerError>
    requires FxOk(fx)
  {
    if !Supported(currency) then Err(CurrencyUnsupported)
    else if currency == "EUR" then
      if fx.Some? && fx.value.numerator != fx.value.denominator then Err(EurFxInvalid) else NumberMoney(amount)
    else if fx.None? then Err(FxRequired)
    else if fx.value.date > effectiveDate then Err(FxDateInvalid)
    else NumberMoney(Scale(amount, fx.value))
  }

  lemma ConvertInBounds(amount: nat, currency: string, fx: Option<Fx>, effectiveDate: int)
    requires FxOk(fx)
    ensures Convert(amount, currency, fx, effectiveDate).Ok? ==>
              MoneyOk(Convert(amount, currency, fx, effectiveDate).value)
  {
    hide Scale, Supported;
  }

  // --- Lookups ------------------------------------------------------------------------------

  function FindHolding(hs: seq<Holding>, id: string): (k: Option<nat>)
    ensures k.Some? ==> k.value < |hs| && hs[k.value].id == id && forall i :: 0 <= i < k.value ==> hs[i].id != id
    ensures k.None? <==> forall h :: h in hs ==> h.id != id
  {
    if |hs| == 0 then None
    else if hs[0].id == id then Some(0)
    else
      var rest := FindHolding(hs[1..], id);
      if rest.None? then None else Some(rest.value + 1)
  }

  function FindTx(txs: seq<Tx>, id: string): (k: Option<nat>)
    ensures k.Some? ==> k.value < |txs| && txs[k.value].id == id
    ensures k.None? <==> forall t :: t in txs ==> t.id != id
  {
    if |txs| == 0 then None
    else if txs[0].id == id then Some(0)
    else
      var rest := FindTx(txs[1..], id);
      if rest.None? then None else Some(rest.value + 1)
  }

  function FindNotice(ns: seq<Notice>, id: string): (k: Option<nat>)
    ensures k.Some? ==> k.value < |ns| && ns[k.value].id == id
    ensures k.None? <==> forall n :: n in ns ==> n.id != id
  {
    if |ns| == 0 then None
    else if ns[0].id == id then Some(0)
    else
      var rest := FindNotice(ns[1..], id);
      if rest.None? then None else Some(rest.value + 1)
  }

  function FindEvidence(es: seq<Evidence>, id: string): (r: Option<Evidence>)
    ensures r.Some? ==> r.value in es && r.value.id == id
  {
    if |es| == 0 then None else if es[0].id == id then Some(es[0]) else FindEvidence(es[1..], id)
  }

  /** A cited source, if any, is evidence of the family (of any family when none is given). */
  predicate SourceOk(s: State, source: Source, familyId: Option<string>) {
    source.sourceId.Some? ==>
      var e := FindEvidence(s.evidence, source.sourceId.value);
      e.Some? && (familyId.Some? ==> e.value.familyId == familyId.value)
  }

  // --- Transactions ----------------------------------------------------------------------------

  /** The kind of the last event about the transaction. */
  function StatusOf(events: seq<Event>, txId: string): Status {
    if |events| == 0 then Reviewed
    else if events[|events| - 1].txId == txId then events[|events| - 1].kind
    else StatusOf(events[..|events| - 1], txId)
  }

  predicate Live(s: Status) { s == Reviewed || s == Settled }

  // --- Notices ------------------------------------------------------------------------------------

  predicate AttestsDistinct(a: Notice, b: Notice) {
    exists d :: d in a.distinctFrom && d.obligationId == b.id && d.noticeRevision == a.amendments
        && d.otherRevision == b.amendments
  }

  /** Similar enough that a reviewer must decide whether they are the same obligation. */
  predicate RelatedTo(notice: Notice, other: Notice) {
    var a, b := notice.terms, other.terms;
    && other.id != notice.id && !other.cancelled && !notice.cancelled
    && other.holdingId == notice.holdingId && other.kind == notice.kind
    && !AttestsDistinct(notice, other) && !AttestsDistinct(other, notice)
    && (|| (a.effectiveDate.Some? && a.effectiveDate == b.effectiveDate)
        || (a.dueDate.Some? && a.dueDate == b.dueDate)
        || ((a.effectiveDate.None? || b.effectiveDate.None?) && (a.dueDate.None? || b.dueDate.None?)
            && a.amount.Some? && a.amount == b.amount && a.currency == b.currency))
  }

  predicate MatchesTerms(t: Tx, n: Notice) {
    t.kind == n.kind && t.holdingId == Some(n.holdingId) && Some(t.currency) == n.terms.currency
        && Some(t.dueDate) == n.terms.dueDate
  }

  /** An unlinked live transaction that looks like the notice's payment. */
  predicate CouldMatch(events: seq<Event>, t: Tx, n: Notice) {
    t.obligationId.None? && MatchesTerms(t, n) && Live(StatusOf(events, t.id))
  }

  datatype Missing =
    PositiveAmount | SupportedCurrency | DueDate | SimilarNotices | MatchingTransactions | OverAllocated

  /** Total of the notice's transactions in one status. */
  function Allocated(txs: seq<Tx>, events: seq<Event>, noticeId: string, st: Status): (r: nat) {
    if |txs| == 0 then 0
    else
      var last := txs[|txs| - 1];
      Allocated(txs[..|txs| - 1], events, noticeId, st)
      + (if last.obligationId == Some(noticeId) && StatusOf(events, last.id) == st then last.amount else 0)
  }

  datatype Summary = Summary(settled: nat, reviewed: nat, remaining: Option<int>, unallocated: Option<int>,
                             missing: set<Missing>)

  function MissingDetails(s: State, n: Notice, settled: nat, reviewed: nat): set<Missing> {
    (if n.terms.amount.None? || n.terms.amount == Some(0) then {Missing.PositiveAmount} else {})
    + (if n.terms.currency.None? || !Supported(n.terms.currency.value) then {SupportedCurrency} else {})
    + (if n.terms.dueDate.None? then {DueDate} else {})
    + (if exists o :: o in s.notices && RelatedTo(n, o) then {SimilarNotices} else {})
    + (if exists t :: t in s.transactions && CouldMatch(s.events, t, n) then {MatchingTransactions} else {})
    + (if n.terms.amount.Some? && settled + reviewed > n.terms.amount.value then {OverAllocated} else {})
  }

  function SummaryOf(s: State, n: Notice): Summary {
    var settled := Allocated(s.transactions, s.events, n.id, Settled);
    var reviewed := Allocated(s.transactions, s.events, n.id, Reviewed);
    var total := n.terms.amount;
    Summary(settled, reviewed,
            if total.Some? && total.value >= settled then Some(total.value - settled) else None,
            if total.Some? && total.value >= settled + reviewed then Some(total.value - settled - reviewed) else None,
            MissingDetails(s, n, settled, reviewed))
  }

  /** `obligationSummary`: the sums in one pass over the notice's transactions. */
  method Summarise(s: State, n: Notice) returns (summary: Summary)
    ensures summary == SummaryOf(s, n)
  {
    var settled: nat, reviewed: nat := 0, 0;
    var i := 0;
    while i < |s.transactions|
      invariant 0 <= i <= |s.transactions|
      invariant settled == Allocated(s.transactions[..i], s.events, n.id, Settled)
      invariant reviewed == Allocated(s.transactions[..i], s.events, n.id, Reviewed)
    {
      assert s.transactions[..i + 1][..i] == s.transactions[..i];
      var tx := s.transactions[i];
      if tx.obligationId == Some(n.id) {
        var status := StatusOf(s.events, tx.id);
        if status == Settled { settled := settled + tx.amount; }
        if status == Reviewed { reviewed := reviewed + tx.amount; }
      }
      i := i + 1;
    }
    assert s.transactions[..i] == s.transactions;
    var total := n.terms.amount;
    summary := Summary(settled, reviewed,
      if total.Some? && total.value >= settled then Some(total.value - settled) else None,
      if total.Some? && total.value >= settled + reviewed then Some(total.value - settled - reviewed) else None,
      MissingDetails(s, n, settled, reviewed));
  }

  /** `validateObligationAllocation`; an existing transaction may be the one that matches. */
  function AllocationProblem(s: State, tx: Tx, matchingExisting: bool): Option<LedgerError> {
    if tx.obligationId.None? then
      if exists n :: n in s.notices && !n.cancelled && MatchesTerms(tx, n) then Some(ObligationLinkRequired) else None
    else
      var k := FindNotice(s.notices, tx.obligationId.value);
      if k.None? then Some(ObligationNotFound)
      else
        var n := s.notices[k.value];
        var summary := SummaryOf(s, n);
        if n.cancelled then Some(ObligationCancelled)
        else if summary.missing - (if matchingExisting then {MatchingTransactions} else {}) != {}
          then Some(ObligationIncomplete)
        else if !MatchesTerms(tx, n) then Some(ObligationMismatch)
        else if summary.unallocated.None? || tx.amount > summary.unallocated.value then Some(ObligationOverallocated)
        else None
  }

  /** `requireUnallocatedObligation`. */
  function UnallocatedProblem(s: State, n: Notice): Option<LedgerError> {
    if n.cancelled then Some(ObligationCancelled)
    else if SummaryOf(s, n).reviewed > 0 || SummaryOf(s, n).settled > 0 then Some(ObligationHasTransactions)
    else None
  }
}
