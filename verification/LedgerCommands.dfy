/**
 The ledger's commands (lib/ledger.ts, `applyLedgerAction`, `postReviewedValuation`,
 `postReviewedCashNotice`): each either yields the next state or an error and no change.
 Whether a family exists is an argument of the command that names it: families are not kept here.
 */
module LedgerCommands {
  import opened Common
  import opened LedgerState
  import opened LedgerPosting

  const MAX_TRANSACTIONS := 2000
  const MAX_EVENTS := 4000
  const MAX_COVERAGE := 500
  const MAX_MARKS := 4000
  const MAX_NOTICES := 2000
  const MAX_HOLDINGS := 200

  /** The recording identity: a fresh identifier, the reviewer, the instant and its calendar date. */
  datatype Meta = Meta(id: string, actorId: string, at: int, today: int)

  datatype Correction = Correction(expected: int, reason: string)

  datatype ValuationInput = ValuationInput(holdingId: string, amount: nat, currency: string, date: int,
                                           sourceId: string,
                                           fx: Option<Fx>, correction: Option<Correction>, basis: Option<Method>)

  datatype NoticeInput = NoticeInput(holdingId: string, kind: Kind, sourceId: string, fingerprint: string, terms: Terms)

  datatype Command =
    | LinkTransaction(obligationId: string, txId: string, source: Source)
    | RegisterNotice(eventId: string)
    | AcceptNotice(notice: NoticeInput)
    | AmendNotice(obligationId: string, terms: Terms, source: Source)
    | CancelNotice(obligationId: string, duplicateOf: Option<string>, source: Source)
    | ConfirmDistinct(obligationId: string, otherId: string, source: Source)
    | ReviewAccount(accountId: string, currency: string, restricted: bool, source: Source)
    | CreateEntity(familyId: string, familyKnown: bool, name: string, source: Source)
    | CreateAccount(entityId: string, name: string, currency: string, restricted: bool)
    | CreateHolding(accountId: string, assetClass: AssetClass, currency: string, amount: nat, fx: Option<Fx>,
                    cost: nat, commitment: nat, date: int, source: Source)
    | AcceptValuation(valuation: ValuationInput)
    | RecordValuation(holdingId: string, amount: nat, currency: string, date: int, fx: Option<Fx>,
                      correction: Option<Correction>, source: Source)
    | RecordTransaction(tx: Tx, source: Source)
    | Settle(txId: string, date: int, source: Source)
    | Reverse(txId: string, date: int, source: Source)
    | Void(txId: string, source: Source)
    | Reconcile(entityId: string, from: int, to: int, cashIds: seq<string>, closing: seq<ClosingBalance>,
                source: Source)

  /** What the command schema has already checked: money in range and positive rates. */
  predicate CommandOk(c: Command) {
    match c
    case CreateHolding(_, _, _, amount, fx, cost, commitment, _, _) =>
      MoneyOk(amount) && FxOk(fx) && MoneyOk(cost) && MoneyOk(commitment)
    case AcceptValuation(v) => MoneyOk(v.amount) && FxOk(v.fx)
    case RecordValuation(_, amount, _, _, fx, _, _) => MoneyOk(amount) && FxOk(fx)
    case RecordTransaction(tx, _) => MoneyOk(tx.amount) && FxOk(tx.fx)
    case _ => true
  }

  function Bump(s: State): State { s.(revision := s.revision + 1) }

  predicate InPast(date: int, meta: Meta) { date <= meta.today }

  // --- Notices ---------------------------------------------------------------------------------

  function LinkTransactionStep(s: State, obligationId: string, txId: string, source: Source, meta: Meta)
      : Result<State, LedgerError> {
    var k := FindTx(s.transactions, txId);
    if k.None? then Err(TransactionNotFound)
    else
      var tx := s.transactions[k.value];
      var linked := tx.(obligationId := Some(obligationId));
      if tx.obligationId.Some? || !Live(StatusOf(s.events, tx.id)) then Err(TransactionChanged)
      else
        var n := FindNotice(s.notices, obligationId);
        if n.None? then Err(ObligationNotFound)
        else
          var h := FindHolding(s.holdings, s.notices[n.value].holdingId);
          if h.None? then Err(HoldingNotFound)
          else if !SourceOk(s, source, Some(s.holdings[h.value].familyId)) then Err(SourceNotFound)
          else if !InPast(source.date, meta) then Err(FuturePosting)
          else if AllocationProblem(s, linked, true).Some? then Err(AllocationProblem(s, linked, true).value)
          else Ok(Bump(s.(transactions := s.transactions[k.value := linked])))
  }

  predicate IsPrior(input: NoticeInput, n: Notice) {
    n.fingerprint == input.fingerprint
        || (n.sourceId == input.sourceId && n.holdingId == input.holdingId && n.kind == input.kind)
  }

  /** `postReviewedCashNotice`: a repeated notice changes nothing, not even the revision. */
  function AcceptNoticeStep(s: State, input: NoticeInput, meta: Meta): Result<State, LedgerError> {
    var h := FindHolding(s.holdings, input.holdingId);
    if h.None? then Err(HoldingNotFound)
    else
      var holding := s.holdings[h.value];
      if !exists e :: e in s.evidence && e.id == input.sourceId && e.holdingId == holding.id
                      && e.familyId == holding.familyId && e.accepted then Err(SourceNotFound)
      else if holding.assetClass == Cash then Err(InvestmentRequired)
      else if exists n :: n in s.notices && IsPrior(input, n) then Ok(s)
      else if |s.notices| >= MAX_NOTICES then Err(LedgerLimit)
      else Ok(Bump(s.(notices := s.notices + [Notice(meta.id, holding.id, input.kind, input.sourceId, input.fingerprint,
                                                     input.terms, 0, [], false)])))
  }

  function FindCashEvent(es: seq<CashEvent>, id: string): (r: Option<CashEvent>)
    ensures r.Some? ==> r.value in es && r.value.id == id
  {
    if |es| == 0 then None else if es[0].id == id then Some(es[0]) else FindCashEvent(es[1..], id)
  }

  function RegisterNoticeStep(s: State, eventId: string, meta: Meta): Result<State, LedgerError> {
    var e := FindCashEvent(s.cashEvents, eventId);
    if e.None? || !e.value.reported || !e.value.effectless || |e.value.holdingIds| != 1 then Err(NoticeNotFound)
    else
      AcceptNoticeStep(s, NoticeInput(e.value.holdingIds[0], if e.value.call then CapitalCall else Distribution,
                                      e.value.sourceId, "legacy-event:" + e.value.id,
                                      Terms(e.value.amount, e.value.currency, e.value.effectiveDate, None)), meta)
  }

  /** The checks common to amending, cancelling and telling notices apart. */
  function NoticeProblem(s: State, obligationId: string, source: Source, meta: Meta): Option<LedgerError> {
    var n := FindNotice(s.notices, obligationId);
    if n.None? then Some(ObligationNotFound)
    else
      var h := FindHolding(s.holdings, s.notices[n.value].holdingId);
      if h.None? then Some(HoldingNotFound)
      else if !SourceOk(s, source, Some(s.holdings[h.value].familyId)) then Some(SourceNotFound)
      else if !InPast(source.date, meta) then Some(FuturePosting)
      else None
  }

  function AmendStep(s: State, obligationId: string, terms: Terms, source: Source, meta: Meta)
      : Result<State, LedgerError> {
    var problem := NoticeProblem(s, obligationId, source, meta);
    if problem.Some? then Err(problem.value)
    else
      var k := FindNotice(s.notices, obligationId).value;
      var n := s.notices[k];
      if UnallocatedProblem(s, n).Some? then Err(UnallocatedProblem(s, n).value)
      else if n.amendments >= 100 then Err(LedgerLimit)
      else Ok(Bump(s.(notices := s.notices[k := n.(terms := terms, amendments := n.amendments + 1)])))
  }

  function DuplicateProblem(s: State, n: Notice, duplicateOf: Option<string>): Option<LedgerError> {
    if duplicateOf.None? then None
    else
      var o := FindNotice(s.notices, duplicateOf.value);
      if o.None? then Some(ObligationNotFound)
      else
        var other := s.notices[o.value];
        if other.id == n.id || other.cancelled || other.holdingId != n.holdingId || other.kind != n.kind
        then Some(ObligationDuplicateInvalid) else None
  }

  function CancelStep(s: State, obligationId: string, duplicateOf: Option<string>, source: Source, meta: Meta)
      : Result<State, LedgerError> {
    var problem := NoticeProblem(s, obligationId, source, meta);
    if problem.Some? then Err(problem.value)
    else
      var k := FindNotice(s.notices, obligationId).value;
      var n := s.notices[k];
      if UnallocatedProblem(s, n).Some? then Err(UnallocatedProblem(s, n).value)
      else if DuplicateProblem(s, n, duplicateOf).Some? then Err(DuplicateProblem(s, n, duplicateOf).value)
      else Ok(Bump(s.(notices := s.notices[k := n.(cancelled := true)])))
  }

  function ConfirmDistinctStep(s: State, obligationId: string, otherId: string, source: Source, meta: Meta)
      : Result<State, LedgerError> {
    var problem := NoticeProblem(s, obligationId, source, meta);
    if problem.Some? then Err(problem.value)
    else
      var k := FindNotice(s.notices, obligationId).value;
      var o := FindNotice(s.notices, otherId);
      if o.None? then Err(ObligationNotFound)
      else
        var n, other := s.notices[k], s.notices[o.value];
        if !(exists r :: r in s.notices && RelatedTo(n, r) && r.id == other.id) then Err(ObligationNotRelated)
        else
          var d := Distinctness(other.id, n.amendments, other.amendments);
          Ok(Bump(s.(notices := s.notices[k := n.(distinctFrom := n.distinctFrom + [d])])))
  }

  // --- Accounts and holdings -------------------------------------------------------------------------

  function FindAccount(accounts: seq<Account>, id: string): (r: Option<Account>)
    ensures r.Some? ==> r.value in accounts && r.value.id == id
  {
    if |accounts| == 0 then None else if accounts[0].id == id then Some(accounts[0]) else FindAccount(accounts[1..], id)
  }

  function ReviewAccountStep(s: State, accountId: string, currency: string, restricted: bool, source: Source,
                             meta: Meta): Result<State, LedgerError> {
    var account := FindAccount(s.accounts, accountId);
    if account.None? then Err(AccountNotFound)
    else if exists h :: h in s.holdings && h.accountId == accountId && h.assetClass == Cash && h.currency != currency
      then Err(CurrencyMismatch)
    else if !SourceOk(s, source, None) then Err(SourceNotFound)
    else if !SourceOk(s, source, Some(account.value.familyId)) then Err(SourceFamilyMismatch)
    else if !InPast(source.date, meta) then Err(FuturePosting)
    else
      var reviews := if accountId in s.reviews then s.reviews[accountId].reviews else 0;
      if reviews >= 100 then Err(LedgerLimit)
      else Ok(Bump(s.(reviews := s.reviews[accountId := AccountReview(currency, restricted, reviews + 1)])))
  }

  function CreateEntityStep(s: State, familyId: string, familyKnown: bool, name: string, source: Source, meta: Meta)
      : Result<State, LedgerError> {
    if !familyKnown then Err(FamilyNotFound)
    else if exists e :: e in s.entities && e.familyId == familyId && e.name == name then Err(EntityExists)
    else if !SourceOk(s, source, None) then Err(SourceNotFound)
    else if !SourceOk(s, source, Some(familyId)) then Err(SourceFamilyMismatch)
    else Ok(Bump(s.(entities := s.entities + [Entity(meta.id, familyId, name)])))
  }

  function FirstEntity(es: seq<Entity>, id: string): (r: Option<Entity>)
    ensures r.Some? ==> r.value in es && r.value.id == id
    ensures r.None? ==> forall e :: e in es ==> e.id != id
  {
    if |es| == 0 then None else if es[0].id == id then Some(es[0]) else FirstEntity(es[1..], id)
  }

  function CreateAccountStep(s: State, entityId: string, name: string, currency: string, restricted: bool, meta: Meta)
      : Result<State, LedgerError> {
    var entity := FirstEntity(s.entities, entityId);
    if entity.None? then Err(EntityNotFound)
    else if exists a :: a in s.accounts && a.entityId == entityId && a.name == name then Err(AccountExists)
    else Ok(Bump(s.(accounts := s.accounts + [Account(meta.id, entityId, entity.value.familyId, name)],
                    reviews := s.reviews[meta.id := AccountReview(currency, restricted, 0)])))
  }

  function NewHolding(account: Account, entity: Entity, c: Command, value: int, meta: Meta): Holding
    requires c.CreateHolding?
  {
    Holding(meta.id, entity.familyId, entity.id, account.id, c.assetClass, c.currency, c.amount, value, c.commitment,
            c.cost, c.date, meta.id + "-source", BaseMethod(c.assetClass), true, true, Some(Detail(c.date, 0, c.fx)))
  }

  function FindEntity(es: seq<Entity>, id: string, familyId: string): (r: Option<Entity>)
    ensures r.Some? ==> r.value in es && r.value.id == id && r.value.familyId == familyId
  {
    if |es| == 0 then None
    else if es[0].id == id && es[0].familyId == familyId then Some(es[0])
    else FindEntity(es[1..], id, familyId)
  }

  /** `recordEvidence`, once the cited source is valid. */
  function WithEvidence(s: State, h: Holding, meta: Meta): State {
    s.(evidence := s.evidence + [Evidence(meta.id + "-source", h.familyId, h.id, true, false)])
  }

  function CreateHoldingStep(s: State, c: Command, meta: Meta): Result<State, LedgerError>
    requires c.CreateHolding? && CommandOk(c)
  {
    if |s.holdings| >= MAX_HOLDINGS then Err(HoldingLimit)
    else
      var account := FindAccount(s.accounts, c.accountId);
      if account.None? then Err(AccountNotFound)
      else
        var entity := FindEntity(s.entities, account.value.entityId, account.value.familyId);
        if entity.None? then Err(EntityNotFound)
        else if !InPast(c.date, meta) then Err(FuturePosting)
        else if c.assetClass == Cash
                && exists h :: h in s.holdings && h.accountId == c.accountId && h.assetClass == Cash
                               && h.currency == c.currency
          then Err(CashExists)
        else if c.assetClass == Cash && c.accountId in s.reviews && s.reviews[c.accountId].currency != c.currency
          then Err(CurrencyMismatch)
        else if c.assetClass == Cash && c.commitment != 0 then Err(CashCommitmentInvalid)
        else
          var value := Convert(c.amount, c.currency, c.fx, c.date);
          if value.Err? then Err(value.error)
          else
            var h := NewHolding(account.value, entity.value, c, value.value, meta);
            if !SourceOk(s, c.source, Some(h.familyId)) then Err(SourceNotFound)
            else
              var t := WithEvidence(s.(holdings := s.holdings + [h]), h, meta);
              Ok(Bump(t.(marks := t.marks + [Mark(meta.id + "-mark", h.id, c.amount, c.currency, value.value, c.date,
                                                  meta.at,
                                                   h.sourceId, c.fx, h.basis)],
                         history := t.history + [HistoryRow(h.id, c.date, value.value, 0)])))
  }

  // --- Valuations ---------------------------------------------------------------------------------------

  /** The last mark of the holding for exactly this date. */
  function PriorMark(marks: seq<Mark>, holdingId: string, date: int): Option<Mark> {
    if |marks| == 0 then None
    else
      var last := marks[|marks| - 1];
      if last.holdingId == holdingId && last.date == date then Some(last)
      else PriorMark(marks[..|marks| - 1], holdingId, date)
  }

  function OldValue(s: State, h: Holding, prior: Option<Mark>, date: int): Option<int> {
    var row := FindRow(s.history, h.id, date);
    if prior.Some? then Some(prior.value.value)
    else if row.Some? then Some(row.value.value)
    else if h.markDate == date then Some(h.value)
    else None
  }

  predicate NativeChanged(h: Holding, prior: Option<Mark>, v: ValuationInput) {
    if prior.Some? then prior.value.amount != v.amount || prior.value.currency != v.currency
    else h.markDate == v.date && (h.native != v.amount || h.currency != v.currency)
  }

  function PriorFx(h: Holding, prior: Option<Mark>, date: int): Option<Fx> {
    if prior.Some? && prior.value.fx.Some? then prior.value.fx
    else if h.markDate == date && h.detail.Some? then h.detail.value.fx
    else None
  }

  predicate SameRate(a: Fx, b: Fx) { a.numerator * b.denominator == b.numerator * a.denominator }

  predicate FxChanged(before: Option<Fx>, after: Option<Fx>) {
    before.Some? && (after.None? || !SameRate(before.value, after.value) || before.value.date != after.value.date
                     || before.value.source != after.value.source)
  }

  function CorrectionProblem(s: State, h: Holding, v: ValuationInput, value: int): Option<LedgerError> {
    var prior := PriorMark(s.marks, h.id, v.date);
    var previous := OldValue(s, h, prior, v.date);
    var differs := previous.Some? && (previous.value != value || NativeChanged(h, prior, v)
                                      || FxChanged(PriorFx(h, prior, v.date), v.fx));
    if differs && (v.correction.None? || v.correction.value.expected != previous.value
                   || v.correction.value.reason == "")
      then Some(CorrectionRequired)
    else if v.correction.Some? && (previous.None? || v.correction.value.expected != previous.value)
      then Some(ValuationChanged)
    else None
  }

  /** A settled posting on or after the date would be overwritten. */
  predicate Overlaps(s: State, h: Holding, date: int) {
    exists e :: e in s.events && e.kind == Settled && StatusOf(s.events, e.txId) == Settled && e.date >= date
        && Touches(e, h.id)
  }

  function MarkMethod(h: Holding, v: ValuationInput): Method {
    if v.basis.Some? then v.basis.value
    else if h.basis == PlusCapital || h.basis == SyntheticMark then BaseMethod(h.assetClass) else h.basis
  }

  /** The holding after a mark; an older mark only joins the record. */
  function Marked(h: Holding, m: Mark): Holding {
    if m.date < h.markDate then h
    else h.(native := m.amount, value := m.value, currency := m.currency, markDate := m.date, valueKnown := true,
            sourceId := m.sourceId, basis := m.basis,
            detail := Some(Detail(if h.detail.Some? then h.detail.value.openingDate else m.date, 0, m.fx)))
  }

  function AcceptValuationStep(s: State, v: ValuationInput, meta: Meta): Result<State, LedgerError>
    requires MoneyOk(v.amount) && FxOk(v.fx)
  {
    if !InPast(v.date, meta) then Err(FuturePosting)
    else
      var k := FindHolding(s.holdings, v.holdingId);
      if k.None? then Err(HoldingNotFound)
      else
        var h := s.holdings[k.value];
        if !exists e :: e in s.evidence && e.id == v.sourceId && e.holdingId == h.id && e.familyId == h.familyId
          then Err(SourceNotFound)
        else if h.assetClass == Cash && h.accountId in s.reviews && s.reviews[h.accountId].currency != v.currency
          then Err(CurrencyMismatch)
        else
          var value := Convert(v.amount, v.currency, v.fx, v.date);
          if value.Err? then Err(value.error)
          else
            var problem := CorrectionProblem(s, h, v, value.value);
            if problem.Some? then Err(problem.value)
            else if Overlaps(s, h, v.date) then Err(PostingRestatementRequired)
            else if |s.marks| >= MAX_MARKS then Err(LedgerLimit)
            else
              var m := Mark(meta.id, h.id, v.amount, v.currency, value.value, v.date, meta.at, v.sourceId, v.fx,
                            MarkMethod(h, v));
              Ok(Bump(s.(marks := s.marks + [m], holdings := s.holdings[k.value := Marked(h, m)],
                         history := PutRow(s.history, HistoryRow(h.id, v.date, value.value, 0)))))
  }

  function RecordValuationStep(s: State, c: Command, meta: Meta): Result<State, LedgerError>
    requires c.RecordValuation? && CommandOk(c)
  {
    var k := FindHolding(s.holdings, c.holdingId);
    if k.None? then Err(HoldingNotFound)
    else
      var h := s.holdings[k.value];
      if !SourceOk(s, c.source, Some(h.familyId)) then Err(SourceNotFound)
      else
        AcceptValuationStep(WithEvidence(s, h, meta),
          ValuationInput(c.holdingId, c.amount, c.currency, c.date, meta.id + "-source", c.fx, c.correction, None),
              meta)
  }

  // --- Transactions -----------------------------------------------------------------------------------------

  function RecordTransactionStep(s: State, t: Tx, source: Source, meta: Meta): Result<State, LedgerError>
    requires MoneyOk(t.amount) && FxOk(t.fx)
  {
    if t.amount == 0 then Err(LedgerError.PositiveAmount)
    else
      var value := Convert(t.amount, t.currency, t.fx, t.dueDate);
      if value.Err? then Err(value.error)
      else
        var tx := t.(id := meta.id, amountEUR := value.value, source := source);
        var problem := OrElse(TxProblem(s, tx), AllocationProblem(s, tx, false));
        if problem.Some? then Err(problem.value)
        else Ok(Bump(s.(transactions := s.transactions + [tx])))
  }

  /** A linked notice must still be complete; an unlinked transaction must still match no notice. */
  function SettleNoticeProblem(s: State, tx: Tx): Option<LedgerError> {
    if tx.obligationId.None? then AllocationProblem(s, tx, false)
    else
      var n := FindNotice(s.notices, tx.obligationId.value);
      if n.None? then Some(ObligationNotFound)
      else if s.notices[n.value].cancelled || SummaryOf(s, s.notices[n.value]).missing != {}
        then Some(ObligationIncomplete)
      else None
  }

  /** The cash holding a transaction moves, once the source is known to its family. */
  function PayingCash(s: State, tx: Tx, source: Source): Result<Holding, LedgerError> {
    var k := FindHolding(s.holdings, tx.cashId);
    if k.None? then Err(HoldingNotFound)
    else if !SourceOk(s, source, Some(s.holdings[k.value].familyId)) then Err(SourceNotFound)
    else Ok(s.holdings[k.value])
  }

  /** The common end of settling and reversing: evidence, postings, and the event on record. */
  function PostEvent(s: State, tx: Tx, e: Event, meta: Meta): Result<State, LedgerError> {
    var cash := PayingCash(s, tx, e.source);
    if cash.Err? then Err(cash.error)
    else
      var posted := ApplyFirst(WithEvidence(s, cash.value, meta), e, |e.postings|, meta.id + "-source");
      if posted.Err? then posted
      else Ok(Bump(posted.value.(events := posted.value.events + [e])))
  }

  function ExternalFlow(tx: Tx): int {
    match tx.kind case Deposit => tx.amountEUR case Withdrawal => -tx.amountEUR case _ => 0
  }

  /** The transaction to settle and the event that settles it. */
  function SettleDecision(s: State, txId: string, date: int, source: Source, meta: Meta)
      : Result<(Tx, Event), LedgerError>
    requires forall t :: t in s.transactions ==> FxOk(t.fx)
  {
    var k := FindTx(s.transactions, txId);
    if k.None? then Err(TransactionNotFound)
    else
      var tx := s.transactions[k.value];
      assert tx in s.transactions;
      if !InPast(date, meta) then Err(FuturePosting)
      else if StatusOf(s.events, tx.id) != Reviewed then Err(TransactionChanged)
      else if tx.fx.Some? && tx.fx.value.date > date then Err(FxDateInvalid)
      else if SettleNoticeProblem(s, tx).Some? then Err(SettleNoticeProblem(s, tx).value)
      else
        var postings := Postings(s, tx);
        if postings.Err? then Err(postings.error)
        else Ok((tx, Event(meta.id, tx.id, Settled, date, meta.at, postings.value, ExternalFlow(tx), None, source)))
  }

  function SettleStep(s: State, txId: string, date: int, source: Source, meta: Meta): Result<State, LedgerError>
    requires forall t :: t in s.transactions ==> FxOk(t.fx)
  {
    var d := SettleDecision(s, txId, date, source, meta);
    if d.Err? then Err(d.error) else PostEvent(s, d.value.0, d.value.1, meta)
  }

  function FirstSettled(events: seq<Event>, txId: string): (r: Option<Event>)
    ensures r.Some? ==> r.value in events && r.value.txId == txId && r.value.kind == Settled
    ensures r.None? ==> forall e :: e in events ==> !(e.txId == txId && e.kind == Settled)
  {
    if |events| == 0 then None
    else if events[0].txId == txId && events[0].kind == Settled then Some(events[0])
    else FirstSettled(events[1..], txId)
  }

  function Negated(p: Posting): Posting { Posting(p.holdingId, -p.native, -p.value, -p.commitment, -p.cost) }

  function NegateAll(ps: seq<Posting>): (r: seq<Posting>)
    ensures |r| == |ps| && forall i :: 0 <= i < |ps| ==> r[i] == Negated(ps[i])
  {
    seq(|ps|, i requires 0 <= i < |ps| => Negated(ps[i]))
  }

  /** A mark recorded after the settlement already incorporates it. */
  predicate MarkedSince(s: State, prior: Event) {
    exists m :: m in s.marks && Touches(prior, m.holdingId) && m.at > prior.at
  }

  /** The transaction to reverse and the event that undoes its settlement. */
  function ReverseDecision(s: State, txId: string, date: int, source: Source, meta: Meta)
      : Result<(Tx, Event), LedgerError> {
    var k := FindTx(s.transactions, txId);
    if k.None? then Err(TransactionNotFound)
    else
      var tx := s.transactions[k.value];
      if !InPast(date, meta) then Err(FuturePosting)
      else if StatusOf(s.events, tx.id) != Settled then Err(TransactionChanged)
      else
        var prior := FirstSettled(s.events, tx.id);
        if prior.None? then Err(TransactionChanged)
        else if date < prior.value.date then Err(LedgerError.ReversalDate)
        else if MarkedSince(s, prior.value) then Err(ReversalRestatementRequired)
        else Ok((tx, Event(meta.id, tx.id, Reversed, date, meta.at, NegateAll(prior.value.postings), -prior.value.flow,
                           Some(prior.value.id), source)))
  }

  function ReverseStep(s: State, txId: string, date: int, source: Source, meta: Meta): Result<State, LedgerError> {
    var d := ReverseDecision(s, txId, date, source, meta);
    if d.Err? then Err(d.error) else PostEvent(s, d.value.0, d.value.1, meta)
  }

  function VoidStep(s: State, txId: string, source: Source, meta: Meta): Result<State, LedgerError> {
    var k := FindTx(s.transactions, txId);
    if k.None? then Err(TransactionNotFound)
    else
      var tx := s.transactions[k.value];
      if StatusOf(s.events, tx.id) != Reviewed then Err(TransactionChanged)
      else if !InPast(source.date, meta) then Err(FuturePosting)
      else if PayingCash(s, tx, source).Err? then Err(PayingCash(s, tx, source).error)
      else Ok(Bump(s.(events := s.events + [Event(meta.id, tx.id, Voided, source.date, meta.at, [], 0, None, source)])))
  }

  // --- Reconciliation --------------------------------------------------------------------------------------------

  function CashOf(hs: seq<Holding>, entityId: string): seq<Holding> {
    Filter(hs, (h: Holding) => h.entityId == entityId && h.assetClass == Cash)
  }

  function FindClosing(closing: seq<ClosingBalance>, id: string): (r: Option<ClosingBalance>)
    ensures r.Some? ==> r.value in closing && r.value.holdingId == id
  {
    if |closing| == 0 then None
    else if closing[0].holdingId == id then Some(closing[0]) else FindClosing(closing[1..], id)
  }

  function Ids(hs: seq<Holding>): set<string> { set h | h in hs :: h.id }

  function ClosingIds(closing: seq<ClosingBalance>): set<string> { set b | b in closing :: b.holdingId }

  predicate Balances(h: Holding, closing: seq<ClosingBalance>) {
    var b := FindClosing(closing, h.id);
    b.Some? && b.value.native == h.native && b.value.value == h.value
  }

  predicate Covers(s: State, h: Holding, from: int, to: int) {
    h.markDate <= to && exists r :: r in s.history && r.holdingId == h.id && r.date <= from
  }

  function CashProblem(s: State, cash: seq<Holding>, closing: seq<ClosingBalance>, from: int, to: int)
      : Option<LedgerError> {
    if |cash| == 0 then None
    else if !Balances(cash[0], closing) then Some(ReconciliationDifference)
    else if !Covers(s, cash[0], from, to) then Some(CoverageIncomplete)
    else CashProblem(s, cash[1..], closing, from, to)
  }

  function ReconcileStep(s: State, c: Command, meta: Meta): Result<State, LedgerError>
    requires c.Reconcile?
  {
    if !InPast(c.to, meta) then Err(FuturePosting)
    else if c.from > c.to then Err(CoverageDate)
    else if !exists e :: e in s.entities && e.id == c.entityId then Err(EntityNotFound)
    else
      var cash := CashOf(s.holdings, c.entityId);
      if |cash| != |ToSet(c.cashIds)| || exists h :: h in cash && h.id !in c.cashIds then Err(CoverageIncomplete)
      else if |c.closing| != |cash| || |ClosingIds(c.closing)| != |cash| then Err(CoverageIncomplete)
      else if CashProblem(s, cash, c.closing, c.from, c.to).Some?
        then Err(CashProblem(s, cash, c.closing, c.from, c.to).value)
      else if !SourceOk(s, c.source, if cash == [] then None else Some(cash[0].familyId)) then Err(SourceNotFound)
      else Ok(Bump(s.(coverage := s.coverage + [Coverage(meta.id, c.entityId, c.from, c.to, c.cashIds, |s.events|,
                                                         |s.marks|, c.closing, c.source)])))
  }

  // --- All commands --------------------------------------------------------------------------------------------------

  predicate FxesOk(s: State) { forall t :: t in s.transactions ==> FxOk(t.fx) }

  function Step(s: State, c: Command, meta: Meta): Result<State, LedgerError>
    requires CommandOk(c) && FxesOk(s)
  {
    if meta.id == "" || meta.actorId == "" then Err(InvalidActor)
    else if !c.AcceptNotice? && !c.AcceptValuation?
         && (|s.transactions| >= MAX_TRANSACTIONS || |s.events| >= MAX_EVENTS || |s.coverage| >= MAX_COVERAGE)
      then Err(LedgerLimit)
    else
      match c
      case LinkTransaction(o, t, source) => LinkTransactionStep(s, o, t, source, meta)
      case RegisterNotice(e) => RegisterNoticeStep(s, e, meta)
      case AcceptNotice(input) => AcceptNoticeStep(s, input, meta)
      case AmendNotice(o, terms, source) => AmendStep(s, o, terms, source, meta)
      case CancelNotice(o, d, source) => CancelStep(s, o, d, source, meta)
      case ConfirmDistinct(o, other, source) => ConfirmDistinctStep(s, o, other, source, meta)
      case ReviewAccount(a, currency, restricted, source) => ReviewAccountStep(s, a, currency, restricted, source, meta)
      case CreateEntity(f, known, name, source) => CreateEntityStep(s, f, known, name, source, meta)
      case CreateAccount(e, name, currency, restricted) => CreateAccountStep(s, e, name, currency, restricted, meta)
      case CreateHolding(_, _, _, _, _, _, _, _, _) => CreateHoldingStep(s, c, meta)
      case AcceptValuation(v) => AcceptValuationStep(s, v, meta)
      case RecordValuation(_, _, _, _, _, _, _) => RecordValuationStep(s, c, meta)
      case RecordTransaction(tx, source) => RecordTransactionStep(s, tx, source, meta)
      case Settle(t, date, source) => SettleStep(s, t, date, source, meta)
      case Reverse(t, date, source) => ReverseStep(s, t, date, source, meta)
      case Void(t, source) => VoidStep(s, t, source, meta)
      case Reconcile(_, _, _, _, _, _) => ReconcileStep(s, c, meta)
  }
}
