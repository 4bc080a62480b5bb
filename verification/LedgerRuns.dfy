/**
 What every ledger command does to balances, transactions and events, and the invariants
 that hold in every reachable state: bounds, ownership, and the life of a transaction.
 */
module LedgerRuns {
  import opened Common
  import opened LedgerState
  import opened LedgerPosting
  import opened LedgerCommands

  // --- The four shapes of a step -----------------------------------------------------------

  /** Balances, events and marks stand; registers of notices, reviews or coverage may change. */
  ghost predicate KeepsBooks(s: State, t: State) {
    t.holdings == s.holdings && t.events == s.events && t.marks == s.marks && t.history == s.history
  }

  ghost predicate KeepsAgreements(s: State, t: State) {
    t.transactions == s.transactions && t.notices == s.notices && t.coverage == s.coverage && t.reviews == s.reviews
  }

  ghost predicate Opens(s: State, t: State, h: Holding, m: Mark, meta: Meta) {
    && t.holdings == s.holdings + [h] && t.marks == s.marks + [m] && t.events == s.events && KeepsAgreements(s, t)
    && h.id == meta.id && InBounds(h) && h.detail.Some? && h.detail.value.openingDate == h.markDate
    && (exists e :: e in s.entities && e.id == h.entityId && e.familyId == h.familyId)
    && m.holdingId == h.id && m.amount == h.native && m.value == h.value && m.date == h.markDate && m.at == meta.at
  }

  ghost predicate Values(s: State, t: State, k: nat, m: Mark, meta: Meta) {
    && k < |s.holdings| && t.holdings == s.holdings[k := Marked(s.holdings[k], m)] && t.marks == s.marks + [m]
    && t.events == s.events && KeepsAgreements(s, t)
    && m.holdingId == s.holdings[k].id && MoneyOk(m.amount) && MoneyOk(m.value) && m.at == meta.at
  }

  ghost predicate Posts(s: State, t: State, e: Event, meta: Meta) {
    && ApplyFirst(s, e, |e.postings|, meta.id + "-source").Ok?
    && t.holdings == ApplyFirst(s, e, |e.postings|, meta.id + "-source").value.holdings
    && t.events == s.events + [e] && t.marks == s.marks && KeepsAgreements(s, t)
    && e.at == meta.at && e.id == meta.id && e.date <= meta.today
  }

  ghost predicate Quiet(s: State, t: State) { KeepsBooks(s, t) }

  ghost predicate Shaped(s: State, t: State, meta: Meta) {
    || Quiet(s, t)
    || (exists h, m :: Opens(s, t, h, m, meta))
    || (exists k: nat, m :: Values(s, t, k, m, meta))
    || (exists e :: Posts(s, t, e, meta))
  }

  // --- Structure --------------------------------------------------------------------------------

  ghost predicate HoldingOk(h: Holding) { InBounds(h) && (h.detail.Some? ==> h.detail.value.openingDate <= h.markDate) }

  ghost predicate HoldingsOk(hs: seq<Holding>) {
    (forall h :: h in hs ==> HoldingOk(h)) && (forall i, j :: 0 <= i < j < |hs| ==> hs[i].id != hs[j].id)
  }

  /** Identity, owner and class of a holding never change. */
  predicate SameIdentity(a: Holding, b: Holding) {
    a.id == b.id && a.familyId == b.familyId && a.entityId == b.entityId && a.accountId == b.accountId
    && a.assetClass == b.assetClass
  }

  ghost predicate Keeps(before: seq<Holding>, after: seq<Holding>) {
    |before| <= |after| && forall i :: 0 <= i < |before| ==> SameIdentity(before[i], after[i])
  }

  lemma KeepsTransitive(a: seq<Holding>, b: seq<Holding>, c: seq<Holding>)
    requires Keeps(a, b) && Keeps(b, c)
    ensures Keeps(a, c)
  {
  }

  lemma PostedHolding(h: Holding, date: int, p: Posting, sourceId: string)
    requires HoldingOk(h) && h.markDate <= date && InBounds(Posted(h, date, p, sourceId))
    ensures HoldingOk(Posted(h, date, p, sourceId)) && SameIdentity(h, Posted(h, date, p, sourceId))
  {
  }

  lemma OneReplaced(hs: seq<Holding>, k: nat, h: Holding)
    requires HoldingsOk(hs) && k < |hs| && HoldingOk(h) && SameIdentity(hs[k], h)
    ensures HoldingsOk(hs[k := h]) && Keeps(hs, hs[k := h])
  {
    var next := hs[k := h];
    forall x | x in next ensures HoldingOk(x) {
      var i: nat :| i < |next| && next[i] == x;
      if i != k { assert hs[i] in hs; }
    }
    forall i, j | 0 <= i < j < |next| ensures next[i].id != next[j].id {
      assert next[i].id == hs[i].id && next[j].id == hs[j].id;
    }
  }

  /** Postings leave everything but balances and history as it was. */
  ghost predicate OnlyBalances(s: State, t: State) {
    && HoldingsOk(t.holdings) && Keeps(s.holdings, t.holdings) && |t.holdings| == |s.holdings|
    && t.events == s.events && t.marks == s.marks && KeepsAgreements(s, t)
    && t.entities == s.entities && t.accounts == s.accounts
  }

  lemma PostOneKeeps(s: State, e: Event, p: Posting, first: bool, sourceId: string)
    requires HoldingsOk(s.holdings) && PostOne(s, e, p, first, sourceId).Ok?
    ensures var t := PostOne(s, e, p, first, sourceId).value;
            && OnlyBalances(s, t)
            && var k := FindHolding(s.holdings, p.holdingId);
            && k.Some? && t.holdings == s.holdings[k.value := Posted(s.holdings[k.value], e.date, p, sourceId)]
            && s.holdings[k.value].markDate <= e.date
  {
    hide HoldingsOk, HoldingOk, Keeps, Posted, InBounds, LatestPosting, PutRow, FindRow;
    var k := FindHolding(s.holdings, p.holdingId).value;
    var h := s.holdings[k];
    assert HoldingOk(h) by { IsOk(s.holdings, k); }
    PostedHolding(h, e.date, p, sourceId);
    OneReplaced(s.holdings, k, Posted(h, e.date, p, sourceId));
  }

  lemma IsOk(hs: seq<Holding>, k: nat)
    requires HoldingsOk(hs) && k < |hs|
    ensures HoldingOk(hs[k])
  {
    assert hs[k] in hs;
  }

  lemma OnlyBalancesTransitive(a: State, b: State, c: State)
    requires OnlyBalances(a, b) && OnlyBalances(b, c)
    ensures OnlyBalances(a, c)
  {
    hide HoldingsOk;
    KeepsTransitive(a.holdings, b.holdings, c.holdings);
  }

  lemma OnlyBalancesSelf(s: State)
    requires HoldingsOk(s.holdings)
    ensures OnlyBalances(s, s)
  {
    hide HoldingsOk;
  }

  lemma {:induction false} ApplyKeeps(s: State, e: Event, n: nat, sourceId: string)
    requires HoldingsOk(s.holdings) && n <= |e.postings| && ApplyFirst(s, e, n, sourceId).Ok?
    ensures OnlyBalances(s, ApplyFirst(s, e, n, sourceId).value)
    decreases n
  {
    hide *;
    if n > 0 {
      ApplyUnfolds(s, e, n, sourceId);
      ApplyKeeps(s, e, n - 1, sourceId);
      var before := ApplyFirst(s, e, n - 1, sourceId).value;
      ApplyStep(s, before, e, n, sourceId);
    } else {
      ApplyNone(s, e, sourceId);
      OnlyBalancesSelf(s);
    }
  }

  lemma ApplyNone(s: State, e: Event, sourceId: string)
    ensures ApplyFirst(s, e, 0, sourceId) == Ok(s)
  {
  }

  lemma ApplyUnfolds(s: State, e: Event, n: nat, sourceId: string)
    requires 0 < n <= |e.postings| && ApplyFirst(s, e, n, sourceId).Ok?
    ensures var before := ApplyFirst(s, e, n - 1, sourceId);
            before.Ok? && ApplyFirst(s, e, n, sourceId) ==
              PostOne(before.value, e, e.postings[n - 1], IsFirst(e, e.postings[n - 1]), sourceId)
  {
    hide PostOne, IsFirst;
  }

  /** Every posting of an applied event names a holding. */
  lemma {:induction false} ApplyFinds(s: State, e: Event, n: nat, sourceId: string, i: nat)
    requires HoldingsOk(s.holdings) && n <= |e.postings| && ApplyFirst(s, e, n, sourceId).Ok? && i < n
    ensures FindHolding(s.holdings, e.postings[i].holdingId).Some?
    decreases n
  {
    hide *;
    ApplyUnfolds(s, e, n, sourceId);
    var before := ApplyFirst(s, e, n - 1, sourceId);
    if i < n - 1 {
      ApplyFinds(s, e, n - 1, sourceId, i);
    } else {
      ApplyKeeps(s, e, n - 1, sourceId);
      ApplyStep(s, before.value, e, n, sourceId);
    }
  }

  lemma ApplyStep(s: State, before: State, e: Event, n: nat, sourceId: string)
    requires 0 < n <= |e.postings| && OnlyBalances(s, before)
    requires PostOne(before, e, e.postings[n - 1], IsFirst(e, e.postings[n - 1]), sourceId).Ok?
    ensures OnlyBalances(s, PostOne(before, e, e.postings[n - 1], IsFirst(e, e.postings[n - 1]), sourceId).value)
    ensures FindHolding(s.holdings, e.postings[n - 1].holdingId).Some?
  {
    hide PostOne, IsFirst;
    PostOneKeeps(before, e, e.postings[n - 1], IsFirst(e, e.postings[n - 1]), sourceId);
    SameIds(s.holdings, before.holdings, e.postings[n - 1].holdingId);
    hide OnlyBalances;
    OnlyBalancesTransitive(s, before, PostOne(before, e, e.postings[n - 1], IsFirst(e, e.postings[n - 1]),
                                              sourceId).value);
  }

  lemma SameIds(a: seq<Holding>, b: seq<Holding>, id: string)
    requires Keeps(a, b) && |a| == |b|
    ensures FindHolding(a, id).Some? <==> FindHolding(b, id).Some?
  {
    var i, j := FindHolding(a, id), FindHolding(b, id);
    if i.Some? { assert b[i.value] in b; }
    if j.Some? { assert SameIdentity(a[j.value], b[j.value]) && a[j.value] in a; }
  }

  function Evidenced(r: Result<State, LedgerError>, es: seq<Evidence>): Result<State, LedgerError> {
    if r.Err? then r else Ok(r.value.(evidence := es))
  }

  lemma PostOneAnyEvidence(s: State, es: seq<Evidence>, e: Event, p: Posting, first: bool, sourceId: string)
    ensures PostOne(s.(evidence := es), e, p, first, sourceId) == Evidenced(PostOne(s, e, p, first, sourceId), es)
  {
    hide LatestPosting, PutRow, FindRow, Posted, InBounds, FindHolding;
  }

  /** Postings do not look at evidence. */
  lemma {:induction false} ApplyAnyEvidence(s: State, es: seq<Evidence>, e: Event, n: nat, sourceId: string)
    requires n <= |e.postings|
    ensures ApplyFirst(s.(evidence := es), e, n, sourceId) == Evidenced(ApplyFirst(s, e, n, sourceId), es)
    decreases n
  {
    hide PostOne, IsFirst;
    if n > 0 {
      ApplyAnyEvidence(s, es, e, n - 1, sourceId);
      var before := ApplyFirst(s, e, n - 1, sourceId);
      if before.Ok? {
        PostOneAnyEvidence(before.value, es, e, e.postings[n - 1], IsFirst(e, e.postings[n - 1]), sourceId);
      }
    }
  }

  // --- Every command has a shape ---------------------------------------------------------------

  lemma CreateShape(s: State, c: Command, meta: Meta) returns (h: Holding, m: Mark)
    requires c.CreateHolding? && CommandOk(c) && CreateHoldingStep(s, c, meta).Ok?
    ensures var t := CreateHoldingStep(s, c, meta).value;
            Opens(s, t, h, m, meta) && t.entities == s.entities && t.accounts == s.accounts
  {
    h := CreateHoldingStep(s, c, meta).value.holdings[|s.holdings|];
    m := CreateHoldingStep(s, c, meta).value.marks[|s.marks|];
    hide FindAccount, FindEntity, SourceOk, Convert;
    ConvertInBounds(c.amount, c.currency, c.fx, c.date);
  }

  lemma ValuationShape(s: State, v: ValuationInput, meta: Meta)
    requires MoneyOk(v.amount) && FxOk(v.fx) && AcceptValuationStep(s, v, meta).Ok?
    ensures var t := AcceptValuationStep(s, v, meta).value;
            && (exists k: nat, m :: Values(s, t, k, m, meta)) && t.entities == s.entities && t.accounts == s.accounts
  {
    hide CorrectionProblem, Overlaps, Convert, PutRow, MarkMethod, Marked;
    var t := AcceptValuationStep(s, v, meta).value;
    ConvertInBounds(v.amount, v.currency, v.fx, v.date);
    var k := FindHolding(s.holdings, v.holdingId).value;
    assert Values(s, t, k, t.marks[|s.marks|], meta);
  }

  lemma RecordedValuationShape(s: State, c: Command, meta: Meta)
    requires c.RecordValuation? && CommandOk(c) && RecordValuationStep(s, c, meta).Ok?
    ensures var t := RecordValuationStep(s, c, meta).value;
            && (exists k: nat, m :: Values(s, t, k, m, meta)) && t.entities == s.entities && t.accounts == s.accounts
  {
    hide AcceptValuationStep, SourceOk, Marked;
    var h := s.holdings[FindHolding(s.holdings, c.holdingId).value];
    var s0 := WithEvidence(s, h, meta);
    var v := ValuationInput(c.holdingId, c.amount, c.currency, c.date, meta.id + "-source", c.fx, c.correction, None);
    ValuationShape(s0, v, meta);
    var t := RecordValuationStep(s, c, meta).value;
    var k: nat, m :| Values(s0, t, k, m, meta);
    assert Values(s, t, k, m, meta);
  }

  lemma PostEventShape(s: State, tx: Tx, e: Event, meta: Meta)
    requires HoldingsOk(s.holdings) && e.at == meta.at && e.id == meta.id && e.date <= meta.today
             && PostEvent(s, tx, e, meta).Ok?
    ensures var t := PostEvent(s, tx, e, meta).value;
            && Posts(s, t, e, meta) && t.entities == s.entities && t.accounts == s.accounts
  {
    hide SourceOk, ApplyFirst, HoldingsOk;
    var cash := PayingCash(s, tx, e.source).value;
    ApplyAnyEvidence(s, WithEvidence(s, cash, meta).evidence, e, |e.postings|, meta.id + "-source");
    ApplyKeeps(s, e, |e.postings|, meta.id + "-source");
  }

  lemma SettleShape(s: State, txId: string, date: int, source: Source, meta: Meta) returns (k: nat, e: Event)
    requires HoldingsOk(s.holdings) && FxesOk(s) && SettleStep(s, txId, date, source, meta).Ok?
    ensures k < |s.transactions| && s.transactions[k].id == txId && FxOk(s.transactions[k].fx)
    ensures var t, tx := SettleStep(s, txId, date, source, meta).value, s.transactions[k];
            && Posts(s, t, e, meta) && t.entities == s.entities && t.accounts == s.accounts
            && StatusOf(s.events, txId) == Reviewed && e.kind == Settled && e.txId == txId && e.date == date
            && e.flow == ExternalFlow(tx) && Postings(s, tx) == Ok(e.postings)
  {
    hide SettleNoticeProblem, Postings, PostEvent, HoldingsOk;
    k := FindTx(s.transactions, txId).value;
    var tx := s.transactions[k];
    assert tx in s.transactions;
    e := Event(meta.id, tx.id, Settled, date, meta.at, Postings(s, tx).value, ExternalFlow(tx), None, source);
    PostEventShape(s, tx, e, meta);
  }

  lemma ReverseIs(s: State, txId: string, date: int, source: Source, meta: Meta)
    returns (tx: Tx, prior: Event, e: Event)
    requires ReverseStep(s, txId, date, source, meta).Ok?
    ensures ReverseStep(s, txId, date, source, meta) == PostEvent(s, tx, e, meta)
    ensures StatusOf(s.events, txId) == Settled && FirstSettled(s.events, txId) == Some(prior)
    ensures prior.date <= date <= meta.today && !MarkedSince(s, prior)
    ensures e == Event(meta.id, txId, Reversed, date, meta.at, NegateAll(prior.postings), -prior.flow,
                       Some(prior.id), source)
  {
    hide PostEvent, MarkedSince, NegateAll, FirstSettled, StatusOf;
    tx := s.transactions[FindTx(s.transactions, txId).value];
    prior := FirstSettled(s.events, tx.id).value;
    e := Event(meta.id, tx.id, Reversed, date, meta.at, NegateAll(prior.postings), -prior.flow, Some(prior.id), source);
  }

  lemma ReverseShape(s: State, txId: string, date: int, source: Source, meta: Meta) returns (prior: Event, e: Event)
    requires HoldingsOk(s.holdings) && ReverseStep(s, txId, date, source, meta).Ok?
    ensures var t := ReverseStep(s, txId, date, source, meta).value;
            && Posts(s, t, e, meta) && t.entities == s.entities && t.accounts == s.accounts
            && StatusOf(s.events, txId) == Settled && e.kind == Reversed && e.txId == txId && e.date == date
            && FirstSettled(s.events, txId) == Some(prior) && prior.date <= date && !MarkedSince(s, prior)
            && e.postings == NegateAll(prior.postings) && e.flow == -prior.flow && e.reverses == Some(prior.id)
  {
    hide *;
    var tx: Tx;
    tx, prior, e := ReverseIs(s, txId, date, source, meta);
    PostEventShape(s, tx, e, meta);
  }

  lemma VoidShape(s: State, txId: string, source: Source, meta: Meta) returns (e: Event)
    requires VoidStep(s, txId, source, meta).Ok?
    ensures var t := VoidStep(s, txId, source, meta).value;
            && Posts(s, t, e, meta) && t.entities == s.entities && t.accounts == s.accounts
            && StatusOf(s.events, txId) == Reviewed && e.kind == Voided && e.txId == txId && e.postings == []
               && e.flow == 0
            && FindTx(s.transactions, txId).Some?
  {
    hide SourceOk;
    var t := VoidStep(s, txId, source, meta).value;
    e := t.events[|s.events|];
  }

  /** Entities and accounts are only ever added, under the command's identifier. */
  ghost predicate RegistersGrow(s: State, t: State, meta: Meta) {
    && (t.entities == s.entities || exists e :: t.entities == s.entities + [e] && e.id == meta.id)
    && s.accounts <= t.accounts
  }

  lemma RegisterShape(s: State, c: Command, meta: Meta)
    requires CommandOk(c) && FxesOk(s) && (c.CreateEntity? || c.CreateAccount?) && Step(s, c, meta).Ok?
    ensures Quiet(s, Step(s, c, meta).value) && RegistersGrow(s, Step(s, c, meta).value, meta)
  {
    hide SourceOk, FirstEntity;
  }

  /** The commands about notices, accounts, transactions and coverage touch no balance, event or mark. */
  predicate NoBalances(c: Command) {
    c.LinkTransaction? || c.RegisterNotice? || c.AcceptNotice? || c.AmendNotice? || c.CancelNotice?
        || c.ConfirmDistinct?
    || c.ReviewAccount? || c.RecordTransaction? || c.Reconcile?
  }

  lemma QuietShape(s: State, c: Command, meta: Meta)
    requires CommandOk(c) && FxesOk(s) && NoBalances(c) && Step(s, c, meta).Ok?
    ensures var t := Step(s, c, meta).value;
            Quiet(s, t) && t.entities == s.entities && t.accounts == s.accounts
  {
    hide SourceOk, AllocationProblem, UnallocatedProblem, NoticeProblem, DuplicateProblem, FindNotice, FindTx,
         FindHolding, TxProblem, Convert, CashProblem, CashOf, FindAccount, RelatedTo, IsPrior, FindCashEvent,
         ToSet, ClosingIds, AmendStep, CancelStep, ConfirmDistinctStep, RecordTransactionStep, ReconcileStep;
    if c.AmendNotice? || c.CancelNotice? || c.ConfirmDistinct? {
      NoticeShape(s, c, meta);
    } else if c.RecordTransaction? || c.Reconcile? {
      RecordShape(s, c, meta);
    }
  }

  lemma RecordShape(s: State, c: Command, meta: Meta)
    requires CommandOk(c) && FxesOk(s) && (c.RecordTransaction? || c.Reconcile?) && Step(s, c, meta).Ok?
    ensures var t := Step(s, c, meta).value;
            Quiet(s, t) && t.entities == s.entities && t.accounts == s.accounts
  {
    hide SourceOk, AllocationProblem, TxProblem, Convert, CashProblem, CashOf, ToSet, ClosingIds, FindHolding;
  }

  lemma NoticeShape(s: State, c: Command, meta: Meta)
    requires CommandOk(c) && FxesOk(s) && (c.AmendNotice? || c.CancelNotice? || c.ConfirmDistinct?)
             && Step(s, c, meta).Ok?
    ensures var t := Step(s, c, meta).value;
            Quiet(s, t) && t.entities == s.entities && t.accounts == s.accounts
  {
    hide SourceOk, UnallocatedProblem, NoticeProblem, DuplicateProblem, FindNotice, FindHolding, RelatedTo;
  }

  lemma StepShape(s: State, c: Command, meta: Meta)
    requires CommandOk(c) && FxesOk(s) && HoldingsOk(s.holdings) && Step(s, c, meta).Ok?
    ensures var t := Step(s, c, meta).value;
            Shaped(s, t, meta) && RegistersGrow(s, t, meta)
  {
    hide Quiet, Opens, Values, Posts, CreateHoldingStep, AcceptValuationStep, RecordValuationStep, SettleStep,
         ReverseStep, VoidStep, HoldingsOk, LinkTransactionStep, RegisterNoticeStep, AcceptNoticeStep, AmendStep,
         CancelStep, ConfirmDistinctStep, ReviewAccountStep, RecordTransactionStep, ReconcileStep, CreateEntityStep,
         CreateAccountStep;
    match c
    case CreateEntity(_, _, _, _) => RegisterShape(s, c, meta);
    case CreateAccount(_, _, _, _) => RegisterShape(s, c, meta);
    case CreateHolding(_, _, _, _, _, _, _, _, _) => var h, m := CreateShape(s, c, meta);
    case AcceptValuation(v) => ValuationShape(s, v, meta);
    case RecordValuation(_, _, _, _, _, _, _) => RecordedValuationShape(s, c, meta);
    case Settle(id, date, source) => var k, e := SettleShape(s, id, date, source, meta);
    case Reverse(id, date, source) => var prior, e := ReverseShape(s, id, date, source, meta);
    case Void(id, source) => var e := VoidShape(s, id, source, meta);
    case _ => QuietShape(s, c, meta);
  }

  // --- Times and identities -------------------------------------------------------------------------

  /** Recording times increase strictly, across events and marks. */
  ghost predicate TimesOk(s: State) {
    && (forall i, j :: 0 <= i < j < |s.events| ==> s.events[i].at < s.events[j].at)
    && (forall i, j :: 0 <= i < j < |s.marks| ==> s.marks[i].at < s.marks[j].at)
    && (forall e, m :: e in s.events && m in s.marks ==> e.at != m.at)
  }

  /** A fresh identifier and a later time than anything on record. */
  ghost predicate Fresh(s: State, meta: Meta) {
    && (forall h :: h in s.holdings ==> h.id != meta.id) && (forall t :: t in s.transactions ==> t.id != meta.id)
    && (forall n :: n in s.notices ==> n.id != meta.id) && (forall e :: e in s.entities ==> e.id != meta.id)
    && (forall e :: e in s.events ==> e.at < meta.at) && (forall m :: m in s.marks ==> m.at < meta.at)
  }

  lemma StillFound(a: seq<Holding>, b: seq<Holding>, id: string)
    requires Keeps(a, b) && FindHolding(a, id).Some?
    ensures FindHolding(b, id).Some?
  {
    var k := FindHolding(a, id).value;
    assert SameIdentity(a[k], b[k]) && b[k] in b;
  }

  lemma MarkedKeeps(h: Holding, m: Mark)
    requires HoldingOk(h) && MoneyOk(m.amount) && MoneyOk(m.value)
    ensures HoldingOk(Marked(h, m)) && SameIdentity(h, Marked(h, m))
  {
  }

  lemma AddedHolding(hs: seq<Holding>, h: Holding)
    requires HoldingsOk(hs) && HoldingOk(h) && forall x :: x in hs ==> x.id != h.id
    ensures HoldingsOk(hs + [h]) && Keeps(hs, hs + [h])
  {
    var next := hs + [h];
    forall i, j | 0 <= i < j < |next| ensures next[i].id != next[j].id { if j == |hs| { assert hs[i] in hs; } }
  }

  /** Balances stay in range, identities stay put, and the books only grow. */
  lemma ShapeKeepsHoldings(s: State, t: State, meta: Meta)
    requires HoldingsOk(s.holdings) && Fresh(s, meta) && Shaped(s, t, meta)
    ensures HoldingsOk(t.holdings) && Keeps(s.holdings, t.holdings) && s.events <= t.events && s.marks <= t.marks
  {
    hide HoldingsOk, Marked, ApplyFirst, HoldingOk, InBounds;
    if h, m :| Opens(s, t, h, m, meta) {
      assert HoldingOk(h) by { OpenedOk(h); }
      AddedHolding(s.holdings, h);
    } else if k: nat, m :| Values(s, t, k, m, meta) {
      IsOk(s.holdings, k);
      MarkedKeeps(s.holdings[k], m);
      OneReplaced(s.holdings, k, Marked(s.holdings[k], m));
    } else if e :| Posts(s, t, e, meta) {
      ApplyKeeps(s, e, |e.postings|, meta.id + "-source");
    } else {
      assert Keeps(s.holdings, s.holdings);
    }
  }

  lemma OpenedOk(h: Holding)
    requires InBounds(h) && h.detail.Some? && h.detail.value.openingDate == h.markDate
    ensures HoldingOk(h)
  {
  }

  /** Postings and marks only name registered holdings. */
  ghost predicate NamesOk(s: State) {
    && (forall m :: m in s.marks ==>
          FindHolding(s.holdings, m.holdingId).Some? && MoneyOk(m.amount) && MoneyOk(m.value))
    && (forall e, p :: e in s.events && p in e.postings ==> FindHolding(s.holdings, p.holdingId).Some?)
  }

  ghost predicate BooksOk(s: State) { HoldingsOk(s.holdings) && TimesOk(s) && NamesOk(s) }

  lemma NamesKept(s: State, t: State, meta: Meta)
    requires HoldingsOk(s.holdings) && NamesOk(s) && Fresh(s, meta) && Shaped(s, t, meta)
    ensures NamesOk(t)
  {
    ShapeKeepsHoldings(s, t, meta);
    hide HoldingsOk, Marked, ApplyFirst, FindHolding, Keeps, InBounds, Fresh, MoneyOk;
    forall e, p | e in s.events && p in e.postings ensures FindHolding(t.holdings, p.holdingId).Some? {
      StillFound(s.holdings, t.holdings, p.holdingId);
    }
    forall m | m in s.marks
      ensures FindHolding(t.holdings, m.holdingId).Some? && MoneyOk(m.amount) && MoneyOk(m.value)
    {
      StillFound(s.holdings, t.holdings, m.holdingId);
    }
    if h, m :| Opens(s, t, h, m, meta) {
      NewestFound(s.holdings, h);
      OpenedMoney(h);
      NamesMarked(s, t, m);
    } else if k: nat, m :| Values(s, t, k, m, meta) {
      IndexFound(s.holdings, k);
      StillFound(s.holdings, t.holdings, m.holdingId);
      NamesMarked(s, t, m);
    } else if e :| Posts(s, t, e, meta) {
      forall p | p in e.postings ensures FindHolding(t.holdings, p.holdingId).Some? {
        var i: nat :| i < |e.postings| && e.postings[i] == p;
        ApplyFinds(s, e, |e.postings|, meta.id + "-source", i);
        StillFound(s.holdings, t.holdings, p.holdingId);
      }
    }
  }

  lemma NamesMarked(s: State, t: State, m: Mark)
    requires t.events == s.events && t.marks == s.marks + [m]
    requires forall x :: x in s.marks ==>
               FindHolding(t.holdings, x.holdingId).Some? && MoneyOk(x.amount) && MoneyOk(x.value)
    requires forall e, p :: e in s.events && p in e.postings ==> FindHolding(t.holdings, p.holdingId).Some?
    requires FindHolding(t.holdings, m.holdingId).Some? && MoneyOk(m.amount) && MoneyOk(m.value)
    ensures NamesOk(t)
  {
    hide FindHolding, MoneyOk;
  }

  lemma OpenedMoney(h: Holding)
    requires InBounds(h)
    ensures MoneyOk(h.native) && MoneyOk(h.value)
  {
  }

  lemma TimesKept(s: State, t: State, meta: Meta)
    requires TimesOk(s) && Fresh(s, meta) && Shaped(s, t, meta)
    ensures TimesOk(t)
  {
    hide Marked, ApplyFirst, InBounds, MoneyOk;
    forall i | 0 <= i < |s.events| ensures s.events[i].at < meta.at { assert s.events[i] in s.events; }
    forall i | 0 <= i < |s.marks| ensures s.marks[i].at < meta.at { assert s.marks[i] in s.marks; }
  }

  lemma BooksKept(s: State, t: State, meta: Meta)
    requires BooksOk(s) && Fresh(s, meta) && Shaped(s, t, meta)
    ensures BooksOk(t) && Keeps(s.holdings, t.holdings) && s.events <= t.events && s.marks <= t.marks
  {
    hide HoldingsOk, TimesOk, NamesOk, Fresh, Shaped, Keeps;
    ShapeKeepsHoldings(s, t, meta);
    NamesKept(s, t, meta);
    TimesKept(s, t, meta);
  }

  lemma NewestFound(hs: seq<Holding>, h: Holding)
    ensures FindHolding(hs + [h], h.id).Some?
  {
    assert (hs + [h])[|hs|] in hs + [h];
  }

  lemma IndexFound(hs: seq<Holding>, k: nat)
    requires k < |hs|
    ensures FindHolding(hs, hs[k].id).Some?
  {
    assert hs[k] in hs;
  }
}
