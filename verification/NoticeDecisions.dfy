/**
 Notices and registrations (lib/ledger.ts, `obligationSummary`, `validateObligationAllocation`,
 `postReviewedCashNotice` and the commands about notices, entities, accounts and holdings): when a
 notice can be paid, and for each command when it is accepted and all that it changes.
 */
module NoticeDecisions {
  import opened Common
  import opened LedgerState
  import opened LedgerPosting
  import opened LedgerCommands
  import opened LedgerLives
  import opened LedgerAdmission

  // --- What a notice still needs --------------------------------------------------------------------

  function AmountOf(t: Tx): int { t.amount }

  function PaysNotice(events: seq<Event>, id: string, st: Status): Tx -> bool {
    (t: Tx) => t.obligationId == Some(id) && StatusOf(events, t.id) == st
  }

  /** What has been settled, or is reserved, on a notice: the amounts of its transactions in that status. */
  lemma {:induction false} AllocatedIs(txs: seq<Tx>, events: seq<Event>, id: string, st: Status)
    ensures Allocated(txs, events, id, st) == SumBy(Filter(txs, PaysNotice(events, id, st)), AmountOf)
  {
    hide StatusOf, Filter, SumBy;
    if |txs| == 0 {
      FilterNone(txs, PaysNotice(events, id, st));
      SumNone();
    } else {
      var front, t := txs[..|txs| - 1], txs[|txs| - 1];
      AllocatedIs(front, events, id, st);
      assert txs == front + [t];
      SumFilterSnoc(front, t, PaysNotice(events, id, st), AmountOf);
    }
  }

  lemma SumNone()
    ensures SumBy([], AmountOf) == 0
  {
  }

  function Paid(s: State, n: Notice, st: Status): int {
    SumBy(Filter(s.transactions, PaysNotice(s.events, n.id, st)), AmountOf)
  }

  /** Someone has attested, for the notices as they now read, that they differ. */
  ghost predicate ToldApart(a: Notice, b: Notice) {
    exists d :: d in a.distinctFrom && d == Distinctness(b.id, a.amendments, b.amendments)
  }

  /** Two notices that might be the same demand. */
  ghost predicate MightRepeat(n: Notice, o: Notice) {
    && n.id != o.id && !n.cancelled && !o.cancelled && n.holdingId == o.holdingId && n.kind == o.kind
    && !ToldApart(n, o) && !ToldApart(o, n)
    && (|| (n.terms.effectiveDate.Some? && o.terms.effectiveDate == n.terms.effectiveDate)
        || (n.terms.dueDate.Some? && o.terms.dueDate == n.terms.dueDate)
        || (&& (n.terms.effectiveDate.None? || o.terms.effectiveDate.None?)
            && (n.terms.dueDate.None? || o.terms.dueDate.None?)
            && n.terms.amount.Some? && o.terms.amount == n.terms.amount && o.terms.currency == n.terms.currency))
  }

  /** A transaction with the terms of a notice. */
  ghost predicate HasTerms(t: Tx, n: Notice) {
    && t.kind == n.kind && t.holdingId == Some(n.holdingId)
    && n.terms.currency == Some(t.currency) && n.terms.dueDate == Some(t.dueDate)
  }

  /** An unlinked transaction, reviewed or settled, that looks like the notice's payment. */
  ghost predicate MightPay(s: State, t: Tx, n: Notice) {
    t.obligationId.None? && HasTerms(t, n) && StatusOf(s.events, t.id) in {Reviewed, Settled}
  }

  /** The terms are stated, nothing competes with the notice, and it is not paid twice over. */
  ghost predicate Payable(s: State, n: Notice, exceptUnlinked: bool) {
    && n.terms.amount.Some? && n.terms.amount.value > 0 && n.terms.dueDate.Some?
    && n.terms.currency.Some? && n.terms.currency.value in {"EUR", "USD", "GBP", "CHF"}
    && (forall o :: o in s.notices ==> !MightRepeat(n, o))
    && (exceptUnlinked || forall t :: t in s.transactions ==> !MightPay(s, t, n))
    && Paid(s, n, Settled) + Paid(s, n, Reviewed) <= n.terms.amount.value
  }

  lemma RepeatsIs(n: Notice, o: Notice)
    ensures RelatedTo(n, o) <==> MightRepeat(n, o)
  {
    assert AttestsDistinct(n, o) <==> ToldApart(n, o) by { AttestsIs(n, o); }
    assert AttestsDistinct(o, n) <==> ToldApart(o, n) by { AttestsIs(o, n); }
    hide AttestsDistinct, ToldApart;
  }

  lemma AttestsIs(a: Notice, b: Notice)
    ensures AttestsDistinct(a, b) <==> ToldApart(a, b)
  {
    if d :| d in a.distinctFrom && d.obligationId == b.id && d.noticeRevision == a.amendments
            && d.otherRevision == b.amendments {
      assert d == Distinctness(b.id, a.amendments, b.amendments);
    }
  }

  lemma MissingIs(s: State, n: Notice, matchingExisting: bool)
    ensures SummaryOf(s, n).missing - (if matchingExisting then {MatchingTransactions} else {}) == {} <==>
            Payable(s, n, matchingExisting)
  {
    AllocatedIs(s.transactions, s.events, n.id, Settled);
    AllocatedIs(s.transactions, s.events, n.id, Reviewed);
    forall o ensures RelatedTo(n, o) <==> MightRepeat(n, o) { RepeatsIs(n, o); }
    forall t ensures CouldMatch(s.events, t, n) <==> MightPay(s, t, n) { PayIs(s, t, n); }
    hide Allocated, RelatedTo, MightRepeat, CouldMatch, MightPay, SumBy, Filter, MissingDetails;
    MissingParts(s, n);
    NothingElse(SummaryOf(s, n).missing, matchingExisting);
  }

  lemma NothingElse(m: set<Missing>, matchingExisting: bool)
    ensures m - (if matchingExisting then {MatchingTransactions} else {}) == {} <==>
            && Missing.PositiveAmount !in m && SupportedCurrency !in m && DueDate !in m && SimilarNotices !in m
            && OverAllocated !in m && (matchingExisting || MatchingTransactions !in m)
  {
    var rest := m - (if matchingExisting then {MatchingTransactions} else {});
    assert forall x :: x in m && !(matchingExisting && x == MatchingTransactions) ==> x in rest;
    if rest != {} {
      var x :| x in rest;
      assert x.PositiveAmount? || x.SupportedCurrency? || x.DueDate? || x.SimilarNotices? || x.OverAllocated?
             || x.MatchingTransactions?;
    }
  }

  lemma PayIs(s: State, t: Tx, n: Notice)
    ensures CouldMatch(s.events, t, n) <==> MightPay(s, t, n)
  {
    hide StatusOf;
  }

  lemma MissingParts(s: State, n: Notice)
    ensures var m := SummaryOf(s, n).missing;
            && (Missing.PositiveAmount in m <==> n.terms.amount.None? || n.terms.amount == Some(0))
            && (SupportedCurrency in m <==>
                  n.terms.currency.None? || n.terms.currency.value !in {"EUR", "USD", "GBP", "CHF"})
            && (DueDate in m <==> n.terms.dueDate.None?)
            && (SimilarNotices in m <==> exists o :: o in s.notices && RelatedTo(n, o))
            && (MatchingTransactions in m <==> exists t :: t in s.transactions && CouldMatch(s.events, t, n))
            && (OverAllocated in m <==>
                  n.terms.amount.Some?
                  && Allocated(s.transactions, s.events, n.id, Settled)
                     + Allocated(s.transactions, s.events, n.id, Reviewed)
                     > n.terms.amount.value)
  {
    hide Allocated, RelatedTo, CouldMatch;
  }

  /** What a transaction may claim of a notice, or that no open notice asks for it. */
  ghost predicate MayClaim(s: State, t: Tx, matchingExisting: bool) {
    if t.obligationId.None? then forall n :: n in s.notices && !n.cancelled ==> !HasTerms(t, n)
    else
      var k := FindNotice(s.notices, t.obligationId.value);
      && k.Some?
      && var n := s.notices[k.value];
         && !n.cancelled && Payable(s, n, matchingExisting) && HasTerms(t, n)
         && Paid(s, n, Settled) + Paid(s, n, Reviewed) + t.amount <= n.terms.amount.value
  }

  /** `validateObligationAllocation` lets through exactly those claims. */
  lemma ClaimsExactly(s: State, t: Tx, matchingExisting: bool)
    ensures AllocationProblem(s, t, matchingExisting).None? <==> MayClaim(s, t, matchingExisting)
  {
    forall n ensures MatchesTerms(t, n) <==> HasTerms(t, n) { }
    hide HasTerms, MatchesTerms;
    if t.obligationId.Some? {
      var k := FindNotice(s.notices, t.obligationId.value);
      hide FindNotice;
      if k.Some? {
        var n := s.notices[k.value];
        MissingIs(s, n, matchingExisting);
        AllocatedIs(s.transactions, s.events, n.id, Settled);
        AllocatedIs(s.transactions, s.events, n.id, Reviewed);
        hide Allocated, MissingDetails, SumBy, Filter, MightRepeat, MightPay;
      }
    }
  }

  // --- Commands about notices -----------------------------------------------------------------------

  /** The notice exists, and the decision cites a known source that is not in the future. */
  ghost predicate Decidable(s: State, k: Option<nat>, source: Source, meta: Meta)
    requires k.Some? ==> k.value < |s.notices|
  {
    && k.Some? && source.date <= meta.today
    && var h := At(s.holdings, s.notices[k.value].holdingId);
       h.Some? && CitesKnown(s, source, h.value.familyId)
  }

  /** Nothing reviewed or settled is linked to it, and it is not cancelled. */
  ghost predicate Untouched(s: State, n: Notice) {
    !n.cancelled && Paid(s, n, Reviewed) <= 0 && Paid(s, n, Settled) <= 0
  }

  lemma DecidableIs(s: State, id: string, source: Source, meta: Meta)
    ensures NoticeProblem(s, id, source, meta).None? <==> Decidable(s, FindNotice(s.notices, id), source, meta)
  {
    hide SourceOk, CitesKnown;
    var k := FindNotice(s.notices, id);
    if k.Some? {
      var h := FindHolding(s.holdings, s.notices[k.value].holdingId);
      if h.Some? { SourceIs(s, source, s.holdings[h.value].familyId); }
    }
    hide FindNotice, FindHolding;
  }

  lemma UntouchedIs(s: State, n: Notice)
    ensures UnallocatedProblem(s, n).None? <==> Untouched(s, n)
  {
    AllocatedIs(s.transactions, s.events, n.id, Settled);
    AllocatedIs(s.transactions, s.events, n.id, Reviewed);
    hide Allocated, MissingDetails, SumBy, Filter;
  }

  lemma AmendsExactly(s: State, id: string, terms: Terms, source: Source, meta: Meta)
    ensures var k, r := FindNotice(s.notices, id), AmendStep(s, id, terms, source, meta);
            && (r.Ok? <==>
                  Decidable(s, k, source, meta) && Untouched(s, s.notices[k.value])
                      && s.notices[k.value].amendments < 100)
            && (r.Ok? ==>
                  var n := s.notices[k.value];
                  r.value == s.(notices := s.notices[k.value := n.(terms := terms, amendments := n.amendments + 1)],
                                revision := s.revision + 1))
  {
    DecidableIs(s, id, source, meta);
    var k := FindNotice(s.notices, id);
    if k.Some? { UntouchedIs(s, s.notices[k.value]); }
    hide NoticeProblem, Decidable, UnallocatedProblem, Untouched, FindNotice;
    DecidedNotice(s, k, source, meta);
  }

  lemma DecidedNotice(s: State, k: Option<nat>, source: Source, meta: Meta)
    requires k.Some? ==> k.value < |s.notices|
    ensures Decidable(s, k, source, meta) ==> k.Some?
  {
  }

  /** A notice is cancelled as a mistake, or as a duplicate of another open one of the same kind and holding. */
  lemma CancelsExactly(s: State, id: string, duplicateOf: Option<string>, source: Source, meta: Meta)
    ensures var k, r := FindNotice(s.notices, id), CancelStep(s, id, duplicateOf, source, meta);
            && (r.Ok? <==>
                  && Decidable(s, k, source, meta) && Untouched(s, s.notices[k.value])
                  && (duplicateOf.Some? ==>
                        var o := FindNotice(s.notices, duplicateOf.value);
                        && o.Some? && !s.notices[o.value].cancelled && s.notices[o.value].id != s.notices[k.value].id
                        && s.notices[o.value].holdingId == s.notices[k.value].holdingId
                        && s.notices[o.value].kind == s.notices[k.value].kind))
            && (r.Ok? ==>
                  r.value == s.(notices := s.notices[k.value := s.notices[k.value].(cancelled := true)],
                                revision := s.revision + 1))
  {
    DecidableIs(s, id, source, meta);
    var k := FindNotice(s.notices, id);
    if k.Some? { UntouchedIs(s, s.notices[k.value]); }
    hide NoticeProblem, Decidable, UnallocatedProblem, Untouched, FindNotice;
    DecidedNotice(s, k, source, meta);
  }

  /** Telling two notices apart is recorded for both as they now read, and only while they might be the same. */
  lemma TellsApartExactly(s: State, id: string, otherId: string, source: Source, meta: Meta)
    ensures var k, o, r := FindNotice(s.notices, id), FindNotice(s.notices, otherId),
                           ConfirmDistinctStep(s, id, otherId, source, meta);
            && (r.Ok? <==>
                  && Decidable(s, k, source, meta) && o.Some?
                  && exists x :: x in s.notices && x.id == s.notices[o.value].id && MightRepeat(s.notices[k.value], x))
            && (r.Ok? ==>
                  var n, other := s.notices[k.value], s.notices[o.value];
                  var d := Distinctness(other.id, n.amendments, other.amendments);
                  && r.value == s.(notices := r.value.notices, revision := s.revision + 1)
                  && r.value.notices == s.notices[k.value := n.(distinctFrom := n.distinctFrom + [d])]
                  && ToldApart(r.value.notices[k.value], other))
  {
    DecidableIs(s, id, source, meta);
    var k, o := FindNotice(s.notices, id), FindNotice(s.notices, otherId);
    if k.Some? {
      forall x ensures RelatedTo(s.notices[k.value], x) <==> MightRepeat(s.notices[k.value], x) {
        RepeatsIs(s.notices[k.value], x);
      }
    }
    hide NoticeProblem, Decidable, RelatedTo, MightRepeat, FindNotice, ToldApart;
    DecidedNotice(s, k, source, meta);
    if ConfirmDistinctStep(s, id, otherId, source, meta).Ok? {
      NowToldApart(s.notices[k.value], s.notices[o.value]);
    }
  }

  lemma NowToldApart(n: Notice, other: Notice)
    ensures var d := Distinctness(other.id, n.amendments, other.amendments);
            ToldApart(n.(distinctFrom := n.distinctFrom + [d]), other)
  {
    var d := Distinctness(other.id, n.amendments, other.amendments);
    assert d in n.distinctFrom + [d];
  }

  /** Linking a transaction that exists claims what is left of the notice. */
  lemma LinksExactly(s: State, id: string, txId: string, source: Source, meta: Meta)
    ensures var k, n, r := FindTx(s.transactions, txId), FindNotice(s.notices, id),
                           LinkTransactionStep(s, id, txId, source, meta);
            && (r.Ok? <==>
                  && k.Some? && s.transactions[k.value].obligationId.None?
                  && StatusOf(s.events, txId) in {Reviewed, Settled} && Decidable(s, n, source, meta)
                  && MayClaim(s, s.transactions[k.value].(obligationId := Some(id)), true))
            && (r.Ok? ==>
                  r.value == s.(transactions := s.transactions[k.value :=
                                                               s.transactions[k.value].(obligationId := Some(id))],
                                revision := s.revision + 1))
  {
    var k, n := FindTx(s.transactions, txId), FindNotice(s.notices, id);
    hide FindTx, FindNotice, FindHolding, SourceOk, CitesKnown, AllocationProblem, MayClaim, StatusOf;
    if k.Some? { ClaimsExactly(s, s.transactions[k.value].(obligationId := Some(id)), true); }
    if n.Some? {
      var h := FindHolding(s.holdings, s.notices[n.value].holdingId);
      if h.Some? { SourceIs(s, source, s.holdings[h.value].familyId); }
    }
  }

  /** The same document, or another reading of the same source for the same holding and kind. */
  ghost predicate AlreadyKnown(s: State, input: NoticeInput) {
    exists n :: n in s.notices && (n.fingerprint == input.fingerprint
                                   || (n.sourceId == input.sourceId && n.holdingId == input.holdingId
                                       && n.kind == input.kind))
  }

  /** A notice about an investment, from accepted evidence of it, is recorded once. */
  lemma AcceptsExactly(s: State, input: NoticeInput, meta: Meta)
    ensures var h, r := At(s.holdings, input.holdingId), AcceptNoticeStep(s, input, meta);
            && (r.Ok? <==>
                  && h.Some? && h.value.assetClass != Cash
                  && (exists e :: e in s.evidence && e.id == input.sourceId && e.holdingId == input.holdingId
                                  && e.familyId == h.value.familyId && e.accepted)
                  && (AlreadyKnown(s, input) || |s.notices| < 2000))
            && (r.Ok? ==>
                  r.value == if AlreadyKnown(s, input) then s
                             else s.(notices := s.notices + [Notice(meta.id, input.holdingId, input.kind,
                                                                    input.sourceId, input.fingerprint, input.terms,
                                                                    0, [], false)],
                                     revision := s.revision + 1))
  {
    assert AlreadyKnown(s, input) <==> exists n :: n in s.notices && IsPrior(input, n) by {
      forall n ensures IsPrior(input, n) <==> n.fingerprint == input.fingerprint
                                              || (n.sourceId == input.sourceId && n.holdingId == input.holdingId
                                                  && n.kind == input.kind) { }
      hide IsPrior;
    }
    hide AlreadyKnown, IsPrior;
    var k := FindHolding(s.holdings, input.holdingId);
    hide FindHolding;
  }

  // --- Registrations ------------------------------------------------------------------------------

  lemma CreatesEntityExactly(s: State, familyId: string, familyKnown: bool, name: string, source: Source, meta: Meta)
    ensures var r := CreateEntityStep(s, familyId, familyKnown, name, source, meta);
            && (r.Ok? <==>
                  && familyKnown && CitesKnown(s, source, familyId)
                  && forall e :: e in s.entities && e.familyId == familyId ==> e.name != name)
            && (r.Ok? ==> r.value == s.(entities := s.entities + [Entity(meta.id, familyId, name)],
                                        revision := s.revision + 1))
  {
    SourceIs(s, source, familyId);
    hide CitesKnown, FindEvidence;
  }

  /** An account belongs to its entity's family; its restriction is known from the start. */
  lemma CreatesAccountExactly(s: State, entityId: string, name: string, currency: string, restricted: bool, meta: Meta)
    ensures var r := CreateAccountStep(s, entityId, name, currency, restricted, meta);
            && (r.Ok? <==>
                  && (exists e :: e in s.entities && e.id == entityId)
                  && forall a :: a in s.accounts && a.entityId == entityId ==> a.name != name)
            && (r.Ok? ==>
                  exists e :: e in s.entities && e.id == entityId
                    && r.value == s.(accounts := s.accounts + [Account(meta.id, entityId, e.familyId, name)],
                                     reviews := s.reviews[meta.id := AccountReview(currency, restricted, 0)],
                                     revision := s.revision + 1))
  {
    hide FirstEntity;
  }

  lemma {:induction false} FindAccountIs(accounts: seq<Account>, id: string)
    ensures FindAccount(accounts, id).None? <==> forall a :: a in accounts ==> a.id != id
  {
    if |accounts| > 0 {
      if accounts[0].id == id {
        assert accounts[0] in accounts;
      } else {
        FindAccountIs(accounts[1..], id);
        assert accounts == [accounts[0]] + accounts[1..];
      }
    }
  }

  lemma {:induction false} FindEntityIs(es: seq<Entity>, id: string, familyId: string)
    ensures FindEntity(es, id, familyId).None? <==> forall e :: e in es ==> e.id != id || e.familyId != familyId
  {
    if |es| > 0 {
      if es[0].id == id && es[0].familyId == familyId {
        assert es[0] in es;
      } else {
        FindEntityIs(es[1..], id, familyId);
        assert es == [es[0]] + es[1..];
      }
    }
  }

  /** The reviewed currency must be that of the account's cash, and each review is counted. */
  lemma ReviewsExactly(s: State, id: string, currency: string, restricted: bool, source: Source, meta: Meta)
    ensures var a, r := FindAccount(s.accounts, id), ReviewAccountStep(s, id, currency, restricted, source, meta);
            var reviews := if id in s.reviews then s.reviews[id].reviews else 0;
            && (r.Ok? <==>
                  && a.Some? && CitesKnown(s, source, a.value.familyId) && source.date <= meta.today && reviews < 100
                  && forall h :: h in s.holdings && h.accountId == id && h.assetClass == Cash ==>
                       h.currency == currency)
            && (r.Ok? ==> r.value == s.(reviews := s.reviews[id := AccountReview(currency, restricted, reviews + 1)],
                                        revision := s.revision + 1))
  {
    var a := FindAccount(s.accounts, id);
    if a.Some? { SourceIs(s, source, a.value.familyId); }
    hide CitesKnown, FindEvidence, FindAccount;
  }

  /** An account holds one cash balance a currency, in its reviewed currency, and cash has no commitment. */
  ghost predicate CashFits(s: State, c: Command)
    requires c.CreateHolding?
  {
    c.assetClass == Cash ==>
      && c.commitment == 0 && (c.accountId in s.reviews ==> s.reviews[c.accountId].currency == c.currency)
      && forall h :: h in s.holdings && h.accountId == c.accountId && h.assetClass == Cash ==> h.currency != c.currency
  }

  ghost predicate CanCreate(s: State, c: Command, meta: Meta)
    requires c.CreateHolding? && FxOk(c.fx)
  {
    var a := FindAccount(s.accounts, c.accountId);
    && |s.holdings| < 200 && a.Some? && FindEntity(s.entities, a.value.entityId, a.value.familyId).Some?
    && c.date <= meta.today && CashFits(s, c) && Convert(c.amount, c.currency, c.fx, c.date).Ok?
    && CitesKnown(s, c.source, a.value.familyId)
  }

  /** The new holding has its account's owner and the stated figures; its first mark and history row say the same. */
  ghost predicate Created(s: State, t: State, c: Command, meta: Meta)
    requires c.CreateHolding? && FxOk(c.fx)
  {
    && |t.holdings| == |s.holdings| + 1 && t.holdings[..|s.holdings|] == s.holdings
    && |t.marks| == |s.marks| + 1 && t.marks[..|s.marks|] == s.marks
    && var h, m, a := t.holdings[|s.holdings|], t.marks[|s.marks|], FindAccount(s.accounts, c.accountId);
    && a.Some? && h.id == meta.id && h.accountId == a.value.id && h.entityId == a.value.entityId
    && h.familyId == a.value.familyId && h.assetClass == c.assetClass && h.currency == c.currency
    && h.native == c.amount && Convert(c.amount, c.currency, c.fx, c.date) == Ok(h.value)
       && h.commitment == c.commitment
    && h.cost == c.cost && h.markDate == c.date && h.valueKnown && h.liquidityKnown
       && h.detail == Some(Detail(c.date, 0, c.fx))
    && h.basis != PlusCapital && h.basis != SyntheticMark
    && m.holdingId == h.id && m.amount == c.amount && m.currency == c.currency && m.value == h.value && m.date == c.date
    && m.at == meta.at && m.sourceId == h.sourceId && m.fx == c.fx && m.basis == h.basis
    && t.evidence == s.evidence + [Evidence(h.sourceId, h.familyId, h.id, true, false)]
    && t.history == s.history + [HistoryRow(h.id, c.date, h.value, 0)]
    && t == s.(holdings := t.holdings, marks := t.marks, evidence := t.evidence, history := t.history,
               revision := s.revision + 1)
  }

  lemma CreatesExactly(s: State, c: Command, meta: Meta)
    requires c.CreateHolding? && CommandOk(c)
    ensures var r := CreateHoldingStep(s, c, meta);
            (r.Ok? <==> CanCreate(s, c, meta)) && (r.Ok? ==> Created(s, r.value, c, meta))
  {
    var a := FindAccount(s.accounts, c.accountId);
    if a.Some? { SourceIs(s, c.source, a.value.familyId); }
    MethodsAreReal(c.assetClass);
    hide CitesKnown, FindEvidence, FindAccount, FindEntity, Convert, BaseMethod;
  }

  lemma MethodsAreReal(k: AssetClass)
    ensures BaseMethod(k) != PlusCapital && BaseMethod(k) != SyntheticMark
  {
  }

  /** No command runs without an actor, nor past the size of the ledger. */
  lemma StepNeedsRoom(s: State, c: Command, meta: Meta)
    requires CommandOk(c) && FxesOk(s) && Step(s, c, meta).Ok?
    ensures meta.id != "" && meta.actorId != ""
    ensures c.AcceptNotice? || c.AcceptValuation?
            || (|s.transactions| < 2000 && |s.events| < 4000 && |s.coverage| < 500)
  {
    hide LinkTransactionStep, RegisterNoticeStep, AcceptNoticeStep, AmendStep, CancelStep, ConfirmDistinctStep,
         ReviewAccountStep, CreateEntityStep, CreateAccountStep, CreateHoldingStep, AcceptValuationStep,
         RecordValuationStep, RecordTransactionStep, SettleStep, ReverseStep, VoidStep, ReconcileStep;
  }

  /** A cash event read from a document becomes a notice only if it was reported, had no effect and has one holding. */
  lemma RegistersExactly(s: State, eventId: string, meta: Meta)
    requires RegisterNoticeStep(s, eventId, meta).Ok?
    ensures exists e :: e in s.cashEvents && e.id == eventId && e.reported && e.effectless && |e.holdingIds| == 1
              && RegisterNoticeStep(s, eventId, meta) ==
                 AcceptNoticeStep(s, NoticeInput(e.holdingIds[0], if e.call then CapitalCall else Distribution,
                                                 e.sourceId, "legacy-event:" + e.id,
                                                 Terms(e.amount, e.currency, e.effectiveDate, None)), meta)
  {
    hide AcceptNoticeStep, FindCashEvent;
  }
}
