/**
 What the liquidity table of a report says (lib/reporting.ts, `liquidity`), in terms of recorded
 balances and reviewed transactions: every group's totals, when it has a projection, and that the
 projection is what the unrestricted balances would be once everything due is settled.
 */
module LiquidityContent {
  import opened Common
  import opened Grouping
  import opened LedgerState
  import opened LedgerPosting
  import opened LedgerRuns
  import opened LedgerReplay
  import opened LedgerLives
  import opened LedgerSettlement
  import opened Reporting
  import opened ReportContent

  // --- Recorded cash ------------------------------------------------------------------------------

  /** The latest mark on or before a date; of several on that day, the last recorded. */
  ghost predicate LatestAt(marks: seq<Mark>, id: string, asOf: int, k: nat) {
    && k < |marks| && marks[k].holdingId == id && marks[k].date <= asOf
    && forall j :: 0 <= j < |marks| && marks[j].holdingId == id && marks[j].date <= asOf ==>
                     marks[j].date < marks[k].date || (marks[j].date == marks[k].date && j <= k)
  }

  lemma {:induction false} LatestMarkIs(marks: seq<Mark>, id: string, asOf: int)
    ensures LatestMark(marks, id, asOf).None? <==>
              forall j :: 0 <= j < |marks| ==> marks[j].holdingId != id || marks[j].date > asOf
    ensures LatestMark(marks, id, asOf).Some? ==>
              exists k: nat :: LatestAt(marks, id, asOf, k) && LatestMark(marks, id, asOf) == Some(marks[k])
  {
    if |marks| > 0 {
      var n := |marks| - 1;
      LatestMarkIs(marks[..n], id, asOf);
      assert forall j :: 0 <= j < n ==> marks[..n][j] == marks[j];
      var front := LatestMark(marks[..n], id, asOf);
      if front.Some? {
        var k: nat :| LatestAt(marks[..n], id, asOf, k) && front == Some(marks[..n][k]);
        LatestSnoc(marks, id, asOf, k);
      } else if marks[n].holdingId == id && marks[n].date <= asOf {
        assert LatestAt(marks, id, asOf, n);
      }
    }
  }

  lemma LatestSnoc(marks: seq<Mark>, id: string, asOf: int, k: nat)
    requires |marks| > 0 && LatestAt(marks[..|marks| - 1], id, asOf, k)
    ensures var n := |marks| - 1;
            if marks[n].holdingId == id && marks[k].date <= marks[n].date <= asOf
            then LatestAt(marks, id, asOf, n) else LatestAt(marks, id, asOf, k)
  {
    assert forall j :: 0 <= j < |marks| - 1 ==> marks[..|marks| - 1][j] == marks[j];
  }

  /** The balance itself when it is old enough, or else an earlier sourced mark and the postings since. */
  ghost predicate StandsAt(s: State, h: Holding, asOf: int, amount: int, date: int) {
    if h.valueKnown && h.markDate <= asOf then amount == h.native && date == h.markDate
    else exists k: nat ::
           LatestAt(s.marks, h.id, asOf, k) && s.marks[k].date == date && SourcedMarkOf(s, h, date).Some?
           && amount == s.marks[k].amount + PostedNative(s, h.id, date, asOf)
  }

  lemma CashOnIs(s: State, h: Holding, asOf: int, amount: int, date: int)
    ensures CashOn(s, h, asOf) == Known(amount, date) <==> StandsAt(s, h, asOf, amount, date)
  {
    LatestMarkIs(s.marks, h.id, asOf);
    hide LatestMark, SourcedMarkOf;
    var m := LatestMark(s.marks, h.id, asOf);
    if m.Some? {
      var k: nat :| LatestAt(s.marks, h.id, asOf, k) && m == Some(s.marks[k]);
      PostedSince(s, h.id, m.value.date, asOf);
      forall j: nat | LatestAt(s.marks, h.id, asOf, j) ensures j == k { OneLatest(s.marks, h.id, asOf, j, k); }
    } else {
      forall j: nat ensures !LatestAt(s.marks, h.id, asOf, j) { }
    }
    hide PostedNative;
  }

  lemma OneLatest(marks: seq<Mark>, id: string, asOf: int, j: nat, k: nat)
    requires LatestAt(marks, id, asOf, j) && LatestAt(marks, id, asOf, k)
    ensures j == k
  {
  }

  lemma PostedSince(s: State, id: string, after: int, upTo: int)
    ensures SumBy(Filter(s.events, Between(after, upTo)), NativeOn(id)) == PostedNative(s, id, after, upTo)
  {
    hide Moved;
    FilterEq(s.events, Between(after, upTo), (e: Event) => after < e.date <= upTo);
    SumByEq(Filter(s.events, Between(after, upTo)), NativeOn(id), (e: Event) => Moved(e.postings, id).native);
    hide SumBy, Filter;
  }

  // --- Totals of one group ------------------------------------------------------------------------

  predicate Belongs(q: Query, k: GroupKey, h: Holding) {
    (q.liquidityCurrencies.None? || h.currency in q.liquidityCurrencies.value)
    && h.entityId == k.entityId && h.currency == k.currency
  }

  /** The group's cash balances. */
  function InGroup(q: Query, k: GroupKey): Holding -> bool { (h: Holding) => IsCash(h) && Belongs(q, k, h) }

  function Cents(cs: seq<Contribution>, k: GroupKey, f: Contribution -> int): int {
    SumBy(Members(cs, KeyOfContribution, k), f)
  }

  lemma CentsConcat(a: seq<Contribution>, b: seq<Contribution>, k: GroupKey, f: Contribution -> int)
    ensures Cents(a + b, k, f) == Cents(a, k, f) + Cents(b, k, f)
  {
    MembersConcat(a, b, KeyOfContribution, k);
    SumByConcat(Members(a, KeyOfContribution, k), Members(b, KeyOfContribution, k), f);
    hide SumBy, Members;
  }

  lemma CentsOf(cs: seq<Contribution>, k: GroupKey, f: Contribution -> int)
    requires |cs| <= 1
    ensures Cents(cs, k, f) == if cs != [] && cs[0].key == k then f(cs[0]) else 0
  {
    if cs == [] || cs[0].key != k {
      MembersNone(cs, KeyOfContribution, k);
    } else {
      MembersAll(cs, KeyOfContribution, k);
      SumBySnoc([], cs[0], f);
      assert [] + [cs[0]] == cs;
    }
    hide Members;
  }

  function CashPart(s: State, q: Query, f: Contribution -> int): Holding -> int {
    (h: Holding) => f(CashContribution(s, h, q))
  }

  lemma CashKey(s: State, h: Holding, q: Query)
    ensures CashContribution(s, h, q).key == KeyOf(h)
  {
    hide CashOn;
  }

  lemma CashSnoc(s: State, hs: seq<Holding>, q: Query)
    requires |hs| > 0
    ensures CashContributions(s, hs, q) ==
            CashContributions(s, hs[..|hs| - 1], q)
            + (if IsCash(hs[|hs| - 1]) && Listed(q, hs[|hs| - 1]) then [CashContribution(s, hs[|hs| - 1], q)] else [])
  {
    hide CashContribution;
  }

  lemma {:induction false} CashCents(s: State, hs: seq<Holding>, q: Query, k: GroupKey, f: Contribution -> int)
    ensures Cents(CashContributions(s, hs, q), k, f) == SumBy(Filter(hs, InGroup(q, k)), CashPart(s, q, f))
  {
    hide Cents, SumBy, Filter, CashContribution, CashContributions;
    if |hs| == 0 {
      NoCash(s, hs, q, k, f);
    } else {
      var front, h := hs[..|hs| - 1], hs[|hs| - 1];
      var part := if IsCash(h) && Listed(q, h) then [CashContribution(s, h, q)] else [];
      CashCents(s, front, q, k, f);
      CashSnoc(s, hs, q);
      CentsConcat(CashContributions(s, front, q), part, k, f);
      CentsOf(part, k, f);
      CashKey(s, h, q);
      assert hs == front + [h];
      SumFilterSnoc(front, h, InGroup(q, k), CashPart(s, q, f));
    }
  }

  lemma NoCash(s: State, hs: seq<Holding>, q: Query, k: GroupKey, f: Contribution -> int)
    requires hs == []
    ensures Cents(CashContributions(s, hs, q), k, f) == SumBy(Filter(hs, InGroup(q, k)), CashPart(s, q, f)) == 0
  {
  }

  function TxPart(s: State, hs: seq<Holding>, q: Query, k: GroupKey, f: Contribution -> int): Tx -> int {
    (t: Tx) => Cents(TxContributions(s, t, hs, q), k, f)
  }

  lemma {:induction false} DueCents(s: State, txs: seq<Tx>, hs: seq<Holding>, q: Query, k: GroupKey,
                                    f: Contribution -> int)
    ensures Cents(ObligationContributions(s, txs, hs, q), k, f) == SumBy(txs, TxPart(s, hs, q, k, f))
  {
    hide Cents, TxContributions;
    if |txs| == 0 {
      CentsOf([], k, f);
    } else {
      var front, t := txs[..|txs| - 1], txs[|txs| - 1];
      DueCents(s, front, hs, q, k, f);
      CentsConcat(ObligationContributions(s, front, hs, q), TxContributions(s, t, hs, q), k, f);
    }
  }

  /** A reviewed transaction due by the horizon that pays from or into a selected balance. */
  predicate Due(s: State, hs: seq<Holding>, q: Query, t: Tx) {
    StatusOf(s.events, t.id) == Reviewed && t.dueDate <= q.liquidityThrough && At(hs, t.cashId).Some?
  }

  predicate Receives(t: Tx) { t.kind in {Deposit, Distribution, Sale} }

  function CashAmount(t: Tx): int { if Receives(t) then t.amount else 0 - t.amount as int }

  /** The selected balance with this identifier is in the group. */
  predicate LegIn(hs: seq<Holding>, q: Query, k: GroupKey, id: string) {
    At(hs, id).Some? && Belongs(q, k, At(hs, id).value)
  }

  function LegPart(s: State, t: Tx, hs: seq<Holding>, q: Query, k: GroupKey, id: string, amount: int,
                   f: Contribution -> int): int {
    if LegIn(hs, q, k, id) then f(LegContribution(s, t, At(hs, id).value, amount, q)) else 0
  }

  lemma OneLegCents(s: State, t: Tx, hs: seq<Holding>, q: Query, k: GroupKey, id: string, amount: int,
                    f: Contribution -> int)
    ensures Cents(OneLeg(s, t, hs, id, amount, q), k, f) == LegPart(s, t, hs, q, k, id, amount, f)
  {
    CentsOf(OneLeg(s, t, hs, id, amount, q), k, f);
    hide Cents, FindHolding;
  }

  lemma TxPartIs(s: State, t: Tx, hs: seq<Holding>, q: Query, k: GroupKey, f: Contribution -> int)
    ensures Cents(TxContributions(s, t, hs, q), k, f) ==
            if !Due(s, hs, q, t) then 0
            else LegPart(s, t, hs, q, k, t.cashId, CashAmount(t), f)
                 + (if t.destinationId.Some? then LegPart(s, t, hs, q, k, t.destinationId.value, t.amount, f) else 0)
  {
    hide Cents, LegPart, OneLeg, StatusOf, FindHolding;
    var paid := OneLeg(s, t, hs, t.cashId, CashAmount(t), q);
    OneLegCents(s, t, hs, q, k, t.cashId, CashAmount(t), f);
    CentsOf([], k, f);
    if t.destinationId.Some? {
      var got := OneLeg(s, t, hs, t.destinationId.value, t.amount, q);
      OneLegCents(s, t, hs, q, k, t.destinationId.value, t.amount, f);
      CentsConcat(paid, got, k, f);
    } else {
      CentsConcat(paid, [], k, f);
    }
  }

  /** A total over a group: its cash balances, and its legs of what is due. */
  lemma GroupCents(s: State, hs: seq<Holding>, q: Query, k: GroupKey, f: Contribution -> int)
    ensures Cents(Contributions(s, hs, q), k, f) ==
            SumBy(Filter(hs, InGroup(q, k)), CashPart(s, q, f)) + SumBy(s.transactions, TxPart(s, hs, q, k, f))
  {
    CentsConcat(CashContributions(s, hs, q), ObligationContributions(s, s.transactions, hs, q), k, f);
    CashCents(s, hs, q, k, f);
    DueCents(s, s.transactions, hs, q, k, f);
    hide Cents, SumBy, Filter, CashContributions, ObligationContributions;
  }

  // --- What the totals are ----------------------------------------------------------------------------

  predicate Restricts(s: State, h: Holding) { h.accountId in s.reviews && s.reviews[h.accountId].restricted }

  predicate Unrestricted(s: State, h: Holding) { h.accountId in s.reviews && !s.reviews[h.accountId].restricted }

  /** The recorded balance, or nothing. */
  function BalanceCents(s: State, q: Query): Holding -> int {
    (h: Holding) =>
      var b := CashOn(s, h, q.liquidityAsOf);
      if b.Known? then b.amount else 0
  }

  function RestrictedCents(s: State, q: Query): Holding -> int {
    (h: Holding) => if Restricts(s, h) then BalanceCents(s, q)(h) else 0
  }

  function FreeCents(s: State, q: Query): Holding -> int {
    (h: Holding) => if Restricts(s, h) then 0 else BalanceCents(s, q)(h)
  }

  function InflowOn(s: State, hs: seq<Holding>, q: Query, k: GroupKey): Tx -> int {
    (t: Tx) =>
      if !Due(s, hs, q, t) then 0
      else (if Receives(t) && LegIn(hs, q, k, t.cashId) then t.amount else 0)
           + (if t.destinationId.Some? && LegIn(hs, q, k, t.destinationId.value) then t.amount else 0)
  }

  predicate PaysFrom(s: State, hs: seq<Holding>, q: Query, k: GroupKey, t: Tx) {
    Due(s, hs, q, t) && !Receives(t) && LegIn(hs, q, k, t.cashId)
  }

  function OutflowOn(s: State, hs: seq<Holding>, q: Query, k: GroupKey): Tx -> int {
    (t: Tx) => if PaysFrom(s, hs, q, k, t) then t.amount else 0
  }

  function OverdueOn(s: State, hs: seq<Holding>, q: Query, k: GroupKey): Tx -> int {
    (t: Tx) => if PaysFrom(s, hs, q, k, t) && t.dueDate < q.liquidityAsOf then t.amount else 0
  }

  /** A payment due from a restricted account. */
  predicate IsBlocked(s: State, hs: seq<Holding>, q: Query, k: GroupKey, t: Tx) {
    PaysFrom(s, hs, q, k, t) && t.amount > 0 && Restricts(s, At(hs, t.cashId).value)
  }

  function BlockedOn(s: State, hs: seq<Holding>, q: Query, k: GroupKey): Tx -> int {
    (t: Tx) => if IsBlocked(s, hs, q, k, t) then 1 else 0
  }

  /** A leg on an account known to be unrestricted, of a balance known to be liquid. */
  predicate LegUsable(s: State, hs: seq<Holding>, q: Query, k: GroupKey, id: string) {
    LegIn(hs, q, k, id) && Unrestricted(s, At(hs, id).value) && At(hs, id).value.liquidityKnown
  }

  function AvailableOn(s: State, hs: seq<Holding>, q: Query, k: GroupKey): Tx -> int {
    (t: Tx) =>
      if !Due(s, hs, q, t) then 0
      else (if LegUsable(s, hs, q, k, t.cashId) then CashAmount(t) else 0)
           + (if t.destinationId.Some? && LegUsable(s, hs, q, k, t.destinationId.value) then t.amount else 0)
  }

  /** The balance is recorded, classified and on a reviewed account. */
  predicate Certain(s: State, q: Query, h: Holding) {
    CashOn(s, h, q.liquidityAsOf).Known? && h.liquidityKnown && h.accountId in s.reviews
  }

  function Uncertain(s: State, q: Query): Holding -> int {
    (h: Holding) =>
      (if h.liquidityKnown then 0 else 1)
      + (if CashOn(s, h, q.liquidityAsOf).Unavailable? || h.accountId !in s.reviews then 1 else 0)
  }

  ghost predicate AllCertain(s: State, hs: seq<Holding>, q: Query, k: GroupKey) {
    forall h :: h in hs && InGroup(q, k)(h) ==> Certain(s, q, h)
  }

  ghost predicate NothingBlocked(s: State, hs: seq<Holding>, q: Query, k: GroupKey) {
    forall t :: t in s.transactions ==> !IsBlocked(s, hs, q, k, t)
  }

  /** One row of the table. */
  ghost predicate GroupSays(s: State, hs: seq<Holding>, q: Query, g: LiquidityGroup) {
    var k, cash := g.key, Filter(hs, InGroup(q, g.key));
    && g.recorded == SumBy(cash, BalanceCents(s, q)) && g.restricted == SumBy(cash, RestrictedCents(s, q))
    && g.inflows == SumBy(s.transactions, InflowOn(s, hs, q, k))
    && g.outflows == SumBy(s.transactions, OutflowOn(s, hs, q, k))
    && g.overdue == SumBy(s.transactions, OverdueOn(s, hs, q, k))
    && g.blocked == SumBy(s.transactions, BlockedOn(s, hs, q, k))
    && (g.projected.Some? <==> AllCertain(s, hs, q, k) && NothingBlocked(s, hs, q, k))
    && (g.projected.Some? ==>
          g.projected.value == SumBy(cash, FreeCents(s, q)) + SumBy(s.transactions, AvailableOn(s, hs, q, k)))
    && (forall d :: d in g.dates <==> IsDated(s, hs, q, k, d))
    && (forall id :: id in g.obligations <==> IsOwed(s, hs, q, k, id))
  }

  /** The day on which some balance of the group is recorded. */
  ghost predicate IsDated(s: State, hs: seq<Holding>, q: Query, k: GroupKey, date: int) {
    exists h :: h in hs && InGroup(q, k)(h)
                && CashOn(s, h, q.liquidityAsOf).Known? && CashOn(s, h, q.liquidityAsOf).date == date
  }

  /** The transaction is due, and one of its legs is in the group. */
  ghost predicate IsOwed(s: State, hs: seq<Holding>, q: Query, k: GroupKey, id: string) {
    exists t :: t in s.transactions && t.id == id && Due(s, hs, q, t) && HasLeg(hs, q, k, t)
  }

  predicate HasLeg(hs: seq<Holding>, q: Query, k: GroupKey, t: Tx) {
    LegIn(hs, q, k, t.cashId) || (t.destinationId.Some? && LegIn(hs, q, k, t.destinationId.value))
  }

  ghost predicate CashPartOf(s: State, hs: seq<Holding>, q: Query, c: Contribution) {
    exists h :: h in hs && IsCash(h) && Listed(q, h) && c == CashContribution(s, h, q)
  }

  lemma {:induction false} CashParts(s: State, hs: seq<Holding>, q: Query)
    ensures forall c :: c in CashContributions(s, hs, q) <==> CashPartOf(s, hs, q, c)
  {
    hide CashContribution, CashContributions;
    if |hs| == 0 {
      assert CashContributions(s, hs, q) == [] by { NoParts(s, hs, q); }
    } else {
      var front, h := hs[..|hs| - 1], hs[|hs| - 1];
      CashParts(s, front, q);
      CashSnoc(s, hs, q);
      assert hs == front + [h];
      forall c ensures CashPartOf(s, hs, q, c) <==>
                       CashPartOf(s, front, q, c) || (IsCash(h) && Listed(q, h) && c == CashContribution(s, h, q))
      {
      }
      hide CashPartOf;
    }
  }

  lemma NoParts(s: State, hs: seq<Holding>, q: Query)
    requires hs == []
    ensures CashContributions(s, hs, q) == []
  {
  }

  ghost predicate DuePartOf(s: State, txs: seq<Tx>, hs: seq<Holding>, q: Query, c: Contribution) {
    exists t :: t in txs && c in TxContributions(s, t, hs, q)
  }

  lemma {:induction false} DueParts(s: State, txs: seq<Tx>, hs: seq<Holding>, q: Query)
    ensures forall c :: c in ObligationContributions(s, txs, hs, q) <==> DuePartOf(s, txs, hs, q, c)
  {
    hide TxContributions;
    if |txs| > 0 {
      var front, t := txs[..|txs| - 1], txs[|txs| - 1];
      DueParts(s, front, hs, q);
      assert txs == front + [t];
      forall c ensures DuePartOf(s, txs, hs, q, c) <==>
                       DuePartOf(s, front, hs, q, c) || c in TxContributions(s, t, hs, q)
      {
      }
      hide DuePartOf;
    }
  }

  lemma LegsOf(s: State, t: Tx, hs: seq<Holding>, q: Query, k: GroupKey)
    ensures forall c :: c in TxContributions(s, t, hs, q) ==> c.obligation == Some(t.id) && c.asOf.None?
    ensures (exists c :: c in TxContributions(s, t, hs, q) && c.key == k) <==> Due(s, hs, q, t) && HasLeg(hs, q, k, t)
  {
    OneLegIs(s, t, hs, q, k, t.cashId, CashAmount(t));
    if t.destinationId.Some? { OneLegIs(s, t, hs, q, k, t.destinationId.value, t.amount); }
    hide OneLeg, LegIn, StatusOf, FindHolding;
  }

  lemma OneLegIs(s: State, t: Tx, hs: seq<Holding>, q: Query, k: GroupKey, id: string, amount: int)
    ensures forall c :: c in OneLeg(s, t, hs, id, amount, q) ==> c.obligation == Some(t.id) && c.asOf.None?
    ensures (exists c :: c in OneLeg(s, t, hs, id, amount, q) && c.key == k) <==> LegIn(hs, q, k, id)
  {
    hide FindHolding;
    var leg := OneLeg(s, t, hs, id, amount, q);
    if leg != [] { assert leg[0] in leg; }
  }

  lemma CashSays(s: State, h: Holding, q: Query)
    ensures var c := CashContribution(s, h, q);
            && c.obligation.None? && c.key == KeyOf(h)
            && c.asOf == if CashOn(s, h, q.liquidityAsOf).Known? then Some(CashOn(s, h, q.liquidityAsOf).date) else None
  {
    hide CashOn;
  }

  lemma DatesAre(s: State, hs: seq<Holding>, q: Query, k: GroupKey, date: int)
    ensures IsDated(s, hs, q, k, date) <==>
            exists c :: c in Contributions(s, hs, q) && c.key == k && c.asOf == Some(date)
  {
    CashParts(s, hs, q);
    DueParts(s, s.transactions, hs, q);
    forall h ensures CashContribution(s, h, q).key == KeyOf(h) { CashSays(s, h, q); }
    hide CashContribution, CashContributions, ObligationContributions, TxContributions, CashOn;
    if IsDated(s, hs, q, k, date) {
      var h :| h in hs && InGroup(q, k)(h) && CashOn(s, h, q.liquidityAsOf).Known?
               && CashOn(s, h, q.liquidityAsOf).date == date;
      CashSays(s, h, q);
      assert CashPartOf(s, hs, q, CashContribution(s, h, q));
    }
    if c :| c in Contributions(s, hs, q) && c.key == k && c.asOf == Some(date) {
      if CashPartOf(s, hs, q, c) {
        var h :| h in hs && IsCash(h) && Listed(q, h) && c == CashContribution(s, h, q);
        CashSays(s, h, q);
      } else {
        var t :| t in s.transactions && c in TxContributions(s, t, hs, q);
        LegsOf(s, t, hs, q, k);
      }
    }
  }

  lemma OwedAre(s: State, hs: seq<Holding>, q: Query, k: GroupKey, id: string)
    ensures IsOwed(s, hs, q, k, id) <==>
            exists c :: c in Contributions(s, hs, q) && c.key == k && c.obligation == Some(id)
  {
    CashParts(s, hs, q);
    DueParts(s, s.transactions, hs, q);
    hide CashContribution, CashContributions, ObligationContributions, TxContributions, Due, HasLeg;
    if IsOwed(s, hs, q, k, id) {
      var t :| t in s.transactions && t.id == id && Due(s, hs, q, t) && HasLeg(hs, q, k, t);
      LegsOf(s, t, hs, q, k);
      var c :| c in TxContributions(s, t, hs, q) && c.key == k;
      assert DuePartOf(s, s.transactions, hs, q, c);
    }
    if c :| c in Contributions(s, hs, q) && c.key == k && c.obligation == Some(id) {
      if CashPartOf(s, hs, q, c) {
        var h :| h in hs && IsCash(h) && Listed(q, h) && c == CashContribution(s, h, q);
        CashSays(s, h, q);
      } else {
        var t :| t in s.transactions && c in TxContributions(s, t, hs, q);
        LegsOf(s, t, hs, q, k);
      }
    }
  }

  lemma InMembers(cs: seq<Contribution>, k: GroupKey)
    ensures forall c :: c in Members(cs, KeyOfContribution, k) <==> c in cs && c.key == k
  {
    forall c ensures c in Members(cs, KeyOfContribution, k) <==> c in cs && c.key == k {
      assert KeyOfContribution(c) == c.key;
    }
  }

  /** The days and the transactions a row names. */
  lemma NamedIs(s: State, hs: seq<Holding>, q: Query, k: GroupKey)
    ensures var g := GroupOf(k, Members(Contributions(s, hs, q), KeyOfContribution, k));
            && (forall d :: d in g.dates <==> IsDated(s, hs, q, k, d))
            && forall id :: id in g.obligations <==> IsOwed(s, hs, q, k, id)
  {
    hide Contributions, IsDated, IsOwed;
    var cs := Contributions(s, hs, q);
    var g := GroupOf(k, Members(cs, KeyOfContribution, k));
    InMembers(cs, k);
    hide Members;
    forall d ensures d in g.dates <==> IsDated(s, hs, q, k, d) { DatesAre(s, hs, q, k, d); }
    forall id ensures id in g.obligations <==> IsOwed(s, hs, q, k, id) { OwedAre(s, hs, q, k, id); }
  }

  lemma {:induction false} SumZero<T>(xs: seq<T>, f: T -> int)
    requires forall x :: x in xs ==> f(x) == 0
    ensures SumBy(xs, f) == 0
  {
    if |xs| > 0 { SumZero(xs[..|xs| - 1], f); }
  }

  /** A total that only cash balances add to. */
  lemma CashOnly(s: State, hs: seq<Holding>, q: Query, k: GroupKey, f: Contribution -> int, g: Holding -> int)
    requires forall h :: CashPart(s, q, f)(h) == g(h)
    requires forall t :: TxPart(s, hs, q, k, f)(t) == 0
    ensures Cents(Contributions(s, hs, q), k, f) == SumBy(Filter(hs, InGroup(q, k)), g)
  {
    hide *;
    GroupCents(s, hs, q, k, f);
    SumByEq(Filter(hs, InGroup(q, k)), CashPart(s, q, f), g);
    SumZero(s.transactions, TxPart(s, hs, q, k, f));
  }

  /** A total that only legs of transactions add to. */
  lemma LegsOnly(s: State, hs: seq<Holding>, q: Query, k: GroupKey, f: Contribution -> int, g: Tx -> int)
    requires forall h :: CashPart(s, q, f)(h) == 0
    requires forall t :: TxPart(s, hs, q, k, f)(t) == g(t)
    ensures Cents(Contributions(s, hs, q), k, f) == SumBy(s.transactions, g)
  {
    hide *;
    GroupCents(s, hs, q, k, f);
    SumZero(Filter(hs, InGroup(q, k)), CashPart(s, q, f));
    SumByEq(s.transactions, TxPart(s, hs, q, k, f), g);
  }

  lemma RecordedIs(s: State, hs: seq<Holding>, q: Query, k: GroupKey)
    ensures Cents(Contributions(s, hs, q), k, Recorded) == SumBy(Filter(hs, InGroup(q, k)), BalanceCents(s, q))
    ensures Cents(Contributions(s, hs, q), k, Restricted) == SumBy(Filter(hs, InGroup(q, k)), RestrictedCents(s, q))
  {
    hide Cents, CashOn, LegIn, Due, Contributions, TxContributions;
    forall t ensures TxPart(s, hs, q, k, Recorded)(t) == 0 == TxPart(s, hs, q, k, Restricted)(t) {
      TxPartIs(s, t, hs, q, k, Recorded);
      TxPartIs(s, t, hs, q, k, Restricted);
    }
    forall h ensures CashPart(s, q, Recorded)(h) == BalanceCents(s, q)(h) {
      assert CashPart(s, q, Recorded)(h) == Recorded(CashContribution(s, h, q));
    }
    CashOnly(s, hs, q, k, Recorded, BalanceCents(s, q));
    forall h ensures CashPart(s, q, Restricted)(h) == RestrictedCents(s, q)(h) {
      assert CashPart(s, q, Restricted)(h) == Restricted(CashContribution(s, h, q));
    }
    CashOnly(s, hs, q, k, Restricted, RestrictedCents(s, q));
  }

  lemma InflowIs(s: State, hs: seq<Holding>, q: Query, k: GroupKey)
    ensures Cents(Contributions(s, hs, q), k, InflowOf) == SumBy(s.transactions, InflowOn(s, hs, q, k))
  {
    hide Cents, CashOn, LegIn, Due, Contributions, TxContributions;
    forall t ensures TxPart(s, hs, q, k, InflowOf)(t) == InflowOn(s, hs, q, k)(t) {
      TxPartIs(s, t, hs, q, k, InflowOf);
    }
    forall h ensures CashPart(s, q, InflowOf)(h) == 0 {
      assert CashPart(s, q, InflowOf)(h) == InflowOf(CashContribution(s, h, q));
    }
    LegsOnly(s, hs, q, k, InflowOf, InflowOn(s, hs, q, k));
  }

  lemma OutflowIs(s: State, hs: seq<Holding>, q: Query, k: GroupKey)
    ensures Cents(Contributions(s, hs, q), k, OutflowOf) == SumBy(s.transactions, OutflowOn(s, hs, q, k))
    ensures Cents(Contributions(s, hs, q), k, Overdue) == SumBy(s.transactions, OverdueOn(s, hs, q, k))
  {
    hide Cents, CashOn, LegIn, Due, Contributions, TxContributions;
    forall t ensures TxPart(s, hs, q, k, OutflowOf)(t) == OutflowOn(s, hs, q, k)(t)
             ensures TxPart(s, hs, q, k, Overdue)(t) == OverdueOn(s, hs, q, k)(t)
    {
      TxPartIs(s, t, hs, q, k, OutflowOf);
      TxPartIs(s, t, hs, q, k, Overdue);
    }
    forall h ensures CashPart(s, q, OutflowOf)(h) == 0 {
      assert CashPart(s, q, OutflowOf)(h) == OutflowOf(CashContribution(s, h, q));
    }
    LegsOnly(s, hs, q, k, OutflowOf, OutflowOn(s, hs, q, k));
    forall h ensures CashPart(s, q, Overdue)(h) == 0 {
      assert CashPart(s, q, Overdue)(h) == Overdue(CashContribution(s, h, q));
    }
    LegsOnly(s, hs, q, k, Overdue, OverdueOn(s, hs, q, k));
  }

  lemma BlockedIs(s: State, hs: seq<Holding>, q: Query, k: GroupKey)
    ensures Cents(Contributions(s, hs, q), k, Blocked) == SumBy(s.transactions, BlockedOn(s, hs, q, k))
  {
    hide Cents, CashOn, LegIn, Due, Contributions, TxContributions;
    forall t ensures TxPart(s, hs, q, k, Blocked)(t) == BlockedOn(s, hs, q, k)(t) {
      TxPartIs(s, t, hs, q, k, Blocked);
    }
    forall h ensures CashPart(s, q, Blocked)(h) == 0 {
      assert CashPart(s, q, Blocked)(h) == Blocked(CashContribution(s, h, q));
    }
    LegsOnly(s, hs, q, k, Blocked, BlockedOn(s, hs, q, k));
  }

  lemma AvailableIs(s: State, hs: seq<Holding>, q: Query, k: GroupKey)
    ensures Cents(Contributions(s, hs, q), k, Available) == SumBy(s.transactions, AvailableOn(s, hs, q, k))
  {
    hide Cents, CashOn, LegIn, Due, Contributions, TxContributions;
    forall t ensures TxPart(s, hs, q, k, Available)(t) == AvailableOn(s, hs, q, k)(t) {
      TxPartIs(s, t, hs, q, k, Available);
    }
    forall h ensures CashPart(s, q, Available)(h) == 0 {
      assert CashPart(s, q, Available)(h) == Available(CashContribution(s, h, q));
    }
    LegsOnly(s, hs, q, k, Available, AvailableOn(s, hs, q, k));
  }

  lemma {:induction false} SumOfCounts<T>(xs: seq<T>, f: T -> int)
    requires forall x :: x in xs ==> f(x) >= 0
    ensures SumBy(xs, f) >= 0
    ensures SumBy(xs, f) == 0 <==> forall x :: x in xs ==> f(x) == 0
  {
    if |xs| > 0 {
      SumOfCounts(xs[..|xs| - 1], f);
      assert xs == xs[..|xs| - 1] + [xs[|xs| - 1]];
    }
  }

  lemma UnknownsAre(s: State, hs: seq<Holding>, q: Query, k: GroupKey)
    ensures Cents(Contributions(s, hs, q), k, Unknowns) != 0 <==> !AllCertain(s, hs, q, k)
  {
    hide Cents, CashOn, LegIn, Due, Contributions, TxContributions;
    forall t ensures TxPart(s, hs, q, k, Unknowns)(t) == 0 { TxPartIs(s, t, hs, q, k, Unknowns); }
    forall h ensures CashPart(s, q, Unknowns)(h) == Uncertain(s, q)(h) {
      assert CashPart(s, q, Unknowns)(h) == Unknowns(CashContribution(s, h, q));
    }
    CashOnly(s, hs, q, k, Unknowns, Uncertain(s, q));
    hide Filter;
    SumOfCounts(Filter(hs, InGroup(q, k)), Uncertain(s, q));
  }

  lemma BlockedCounts(s: State, hs: seq<Holding>, q: Query, k: GroupKey)
    ensures SumBy(s.transactions, BlockedOn(s, hs, q, k)) > 0 <==> !NothingBlocked(s, hs, q, k)
  {
    hide IsBlocked;
    SumOfCounts(s.transactions, BlockedOn(s, hs, q, k));
  }

  lemma FreeIs(s: State, cash: seq<Holding>, q: Query)
    ensures SumBy(cash, BalanceCents(s, q)) - SumBy(cash, RestrictedCents(s, q)) == SumBy(cash, FreeCents(s, q))
  {
    hide CashOn;
    SumByAdd(cash, RestrictedCents(s, q), FreeCents(s, q), BalanceCents(s, q));
    hide SumBy;
  }

  lemma GroupIs(s: State, hs: seq<Holding>, q: Query, k: GroupKey)
    ensures GroupSays(s, hs, q, GroupOf(k, Members(Contributions(s, hs, q), KeyOfContribution, k)))
  {
    RecordedIs(s, hs, q, k);
    InflowIs(s, hs, q, k);
    OutflowIs(s, hs, q, k);
    BlockedIs(s, hs, q, k);
    AvailableIs(s, hs, q, k);
    UnknownsAre(s, hs, q, k);
    BlockedCounts(s, hs, q, k);
    FreeIs(s, Filter(hs, InGroup(q, k)), q);
    NamedIs(s, hs, q, k);
    hide SumBy, Filter, Members, Contributions, AllCertain, NothingBlocked, IsDated, IsOwed;
  }

  // --- The table ------------------------------------------------------------------------------------------

  /** A group is listed for each entity and currency that has cash, or a leg of something due. */
  ghost predicate HasGroup(s: State, hs: seq<Holding>, q: Query, k: GroupKey) {
    || (exists h :: h in hs && InGroup(q, k)(h))
    || (exists t :: t in s.transactions && Due(s, hs, q, t) && HasLeg(hs, q, k, t))
  }

  ghost predicate TableSays(s: State, hs: seq<Holding>, q: Query, groups: seq<LiquidityGroup>) {
    && (forall i, j :: 0 <= i < j < |groups| ==> groups[i].key != groups[j].key)
    && (forall g :: g in groups ==> GroupSays(s, hs, q, g))
    && (forall k :: HasGroup(s, hs, q, k) <==> exists g :: g in groups && g.key == k)
  }

  function One(c: Contribution): int { 1 }

  function LegsOn(s: State, hs: seq<Holding>, q: Query, k: GroupKey): Tx -> int {
    (t: Tx) =>
      if !Due(s, hs, q, t) then 0
      else (if LegIn(hs, q, k, t.cashId) then 1 else 0)
           + (if t.destinationId.Some? && LegIn(hs, q, k, t.destinationId.value) then 1 else 0)
  }

  lemma GroupExists(s: State, hs: seq<Holding>, q: Query, k: GroupKey)
    ensures Members(Contributions(s, hs, q), KeyOfContribution, k) != [] <==> HasGroup(s, hs, q, k)
  {
    hide Cents, CashOn, LegIn, Due, Contributions, TxContributions;
    forall t ensures TxPart(s, hs, q, k, One)(t) == LegsOn(s, hs, q, k)(t) { TxPartIs(s, t, hs, q, k, One); }
    CountIs(s, hs, q, k);
    SumOfCounts(s.transactions, LegsOn(s, hs, q, k));
    forall h ensures CashPart(s, q, One)(h) == 1 {
      assert CashPart(s, q, One)(h) == One(CashContribution(s, h, q));
    }
    SumOfCounts(Filter(hs, InGroup(q, k)), CashPart(s, q, One));
    MembersCount(Contributions(s, hs, q), k);
    hide Filter, Members;
    if Filter(hs, InGroup(q, k)) != [] { assert Filter(hs, InGroup(q, k))[0] in Filter(hs, InGroup(q, k)); }
  }

  lemma CountIs(s: State, hs: seq<Holding>, q: Query, k: GroupKey)
    requires forall t :: TxPart(s, hs, q, k, One)(t) == LegsOn(s, hs, q, k)(t)
    ensures Cents(Contributions(s, hs, q), k, One) ==
            SumBy(Filter(hs, InGroup(q, k)), CashPart(s, q, One)) + SumBy(s.transactions, LegsOn(s, hs, q, k))
  {
    hide *;
    GroupCents(s, hs, q, k, One);
    SumByEq(s.transactions, TxPart(s, hs, q, k, One), LegsOn(s, hs, q, k));
  }

  lemma MembersCount(cs: seq<Contribution>, k: GroupKey)
    ensures Cents(cs, k, One) >= 0
    ensures Cents(cs, k, One) != 0 <==> Members(cs, KeyOfContribution, k) != []
  {
    var ms := Members(cs, KeyOfContribution, k);
    hide Members, Filter;
    SumOfCounts(ms, One);
    if ms != [] { assert ms[0] in ms; }
  }

  /** The table lists exactly the groups there are, each once, and every row says what it should. */
  lemma TableIs(s: State, hs: seq<Holding>, q: Query, groups: seq<LiquidityGroup>)
    requires GroupsAre(Contributions(s, hs, q), groups)
    ensures TableSays(s, hs, q, groups)
  {
    hide GroupSays, GroupOf, Contributions, Filter;
    forall g | g in groups ensures GroupSays(s, hs, q, g) { GroupIs(s, hs, q, g.key); }
    var cs := Contributions(s, hs, q);
    forall k ensures HasGroup(s, hs, q, k) <==> exists g :: g in groups && g.key == k {
      GroupExists(s, hs, q, k);
      hide HasGroup;
      var ms := Members(cs, KeyOfContribution, k);
      if ms != [] { assert ms[0] in ms && ms[0] in cs && ms[0].key == k; }
    }
  }

  // --- The projection ------------------------------------------------------------------------------------

  /** Unrestricted cash of the group. */
  function FreeCash(s: State, q: Query, k: GroupKey): Holding -> bool {
    (h: Holding) => InGroup(q, k)(h) && Unrestricted(s, h)
  }

  /** What settling a transaction posts to a cash balance, in its own currency. */
  function LegOn(t: Tx, id: string): int {
    (if t.cashId == id then CashAmount(t) else 0) + (if t.destinationId == Some(id) then t.amount else 0)
  }

  /** It is what the settlement's own postings move. */
  lemma LegIsPosted(s: State, t: Tx, id: string)
    requires TxOk(s.holdings, t) && Postings(s, t).Ok? && HoldingsOk(s.holdings)
    requires At(s.holdings, id).Some? && IsCash(At(s.holdings, id).value)
    ensures Moved(Postings(s, t).value, id).native == LegOn(t, id)
  {
    hide Postings, HoldingsOk, Moved, Convert, CostShare, At;
    CashLeg(s, t);
    if t.destinationId == Some(id) { DestinationLeg(s, t, id); }
    var cash := LegsApart(s, t, id);
  }

  function IsDue(s: State, hs: seq<Holding>, q: Query): Tx -> bool { (t: Tx) => Due(s, hs, q, t) }

  function OnBalance(id: string): Tx -> int { (t: Tx) => LegOn(t, id) }

  function OnBalances(t: Tx): Holding -> int { (h: Holding) => LegOn(t, h.id) }

  /** A balance once everything due has been settled. */
  function AfterDue(s: State, hs: seq<Holding>, q: Query): Holding -> int {
    (h: Holding) => BalanceCents(s, q)(h) + SumBy(Filter(s.transactions, IsDue(s, hs, q)), OnBalance(h.id))
  }

  ghost predicate DistinctIds(hs: seq<Holding>) { forall i, j :: 0 <= i < j < |hs| ==> hs[i].id != hs[j].id }

  /** A selection of the ledger's holdings, each with its own identifier. */
  ghost predicate Selection(s: State, hs: seq<Holding>) {
    (forall h :: h in hs ==> h in s.holdings) && DistinctIds(hs)
  }

  function Pick(id: string, x: int): Holding -> int { (h: Holding) => if h.id == id then x else 0 }

  ghost predicate Holds(hs: seq<Holding>, id: string) { exists h :: h in hs && h.id == id }

  lemma {:induction false} SumPick(hs: seq<Holding>, id: string, x: int)
    requires DistinctIds(hs)
    ensures SumBy(hs, Pick(id, x)) == if Holds(hs, id) then x else 0
  {
    if |hs| > 0 {
      var front, h := hs[..|hs| - 1], hs[|hs| - 1];
      SumPick(front, id, x);
      assert hs == front + [h];
      assert Holds(hs, id) <==> Holds(front, id) || h.id == id by { assert h in hs; }
      if Holds(front, id) {
        var g :| g in front && g.id == id;
        var i: nat :| i < |front| && front[i] == g;
        assert hs[i].id != hs[|hs| - 1].id;
      }
    }
  }

  lemma SumOnBalances(hs: seq<Holding>, t: Tx)
    requires DistinctIds(hs)
    ensures SumBy(hs, OnBalances(t)) ==
            (if Holds(hs, t.cashId) then CashAmount(t) else 0)
            + (if t.destinationId.Some? && Holds(hs, t.destinationId.value) then t.amount else 0)
  {
    SumPick(hs, t.cashId, CashAmount(t));
    if t.destinationId.Some? {
      SumPick(hs, t.destinationId.value, t.amount);
      SumByAdd(hs, Pick(t.cashId, CashAmount(t)), Pick(t.destinationId.value, t.amount), OnBalances(t));
    } else {
      SumByEq(hs, Pick(t.cashId, CashAmount(t)), OnBalances(t));
    }
  }

  /** A leg is usable exactly when its balance is among the unrestricted cash. */
  lemma UsableIsFree(s: State, hs: seq<Holding>, q: Query, k: GroupKey, id: string)
    requires DistinctIds(hs) && AllCertain(s, hs, q, k)
    requires At(hs, id).Some? ==> IsCash(At(hs, id).value)
    ensures LegUsable(s, hs, q, k, id) <==> Holds(Filter(hs, FreeCash(s, q, k)), id)
  {
    hide Filter, CashOn;
    var free := Filter(hs, FreeCash(s, q, k));
    if LegUsable(s, hs, q, k, id) {
      AtHasId(hs, id);
      assert At(hs, id).value in free;
    }
    if Holds(free, id) {
      var h :| h in free && h.id == id;
      AtIs(hs, h);
      assert InGroup(q, k)(h);
    }
  }

  lemma AtIs(hs: seq<Holding>, h: Holding)
    requires DistinctIds(hs) && h in hs
    ensures At(hs, h.id) == Some(h)
  {
  }

  lemma LegsOnFree(s: State, hs: seq<Holding>, q: Query, k: GroupKey, t: Tx)
    requires HoldingsOk(s.holdings) && Selection(s, hs) && AllCertain(s, hs, q, k)
    requires TxOk(s.holdings, t) && Due(s, hs, q, t)
    ensures SumBy(Filter(hs, FreeCash(s, q, k)), OnBalances(t)) == AvailableOn(s, hs, q, k)(t)
  {
    hide SumBy, Filter, FreeCash, AllCertain, LegUsable, OnBalances, Due, Holds, At;
    FilterDistinctBy(hs, FreeCash(s, q, k), (h: Holding) => h.id);
    SumOnBalances(Filter(hs, FreeCash(s, q, k)), t);
    LegIsCash(s, hs, t);
    UsableIsFree(s, hs, q, k, t.cashId);
    if t.destinationId.Some? { UsableIsFree(s, hs, q, k, t.destinationId.value); }
  }

  lemma LegIsCash(s: State, hs: seq<Holding>, t: Tx)
    requires HoldingsOk(s.holdings) && Selection(s, hs) && TxOk(s.holdings, t)
    ensures At(hs, t.cashId).Some? ==> IsCash(At(hs, t.cashId).value)
    ensures t.destinationId.Some? && At(hs, t.destinationId.value).Some? ==> IsCash(At(hs, t.destinationId.value).value)
  {
    hide At, Convert, HoldingOk;
    if At(hs, t.cashId).Some? { SameAt(s, hs, t.cashId); }
    if t.destinationId.Some? && At(hs, t.destinationId.value).Some? { SameAt(s, hs, t.destinationId.value); }
  }

  lemma SameAt(s: State, hs: seq<Holding>, id: string)
    requires HoldingsOk(s.holdings) && Selection(s, hs) && At(hs, id).Some?
    ensures At(s.holdings, id) == At(hs, id)
  {
    hide At, HoldingOk;
    AtHasId(hs, id);
    AtIs(s.holdings, At(hs, id).value);
  }

  function PostedBy(due: seq<Tx>): Holding -> int { (h: Holding) => SumBy(due, OnBalance(h.id)) }

  function PostedTo(cash: seq<Holding>): Tx -> int { (t: Tx) => SumBy(cash, OnBalances(t)) }

  /** Summing by balance or by transaction is the same. */
  lemma {:induction false} SumBothWays(cash: seq<Holding>, due: seq<Tx>)
    ensures SumBy(cash, PostedBy(due)) == SumBy(due, PostedTo(cash))
  {
    hide LegOn;
    if |due| == 0 {
      SumZero(cash, PostedBy(due));
    } else {
      var front, t := due[..|due| - 1], due[|due| - 1];
      SumBothWays(cash, front);
      assert due == front + [t];
      forall h ensures PostedBy(due)(h) == PostedBy(front)(h) + OnBalances(t)(h) {
        SumBySnoc(front, t, OnBalance(h.id));
      }
      SumByAdd(cash, PostedBy(front), OnBalances(t), PostedBy(due));
      SumBySnoc(front, t, PostedTo(cash));
    }
  }

  lemma RestrictedIsNotFree(s: State, q: Query, h: Holding)
    requires Certain(s, q, h) && !Unrestricted(s, h)
    ensures FreeCents(s, q)(h) == 0
  {
    assert Restricts(s, h);
    assert FreeCents(s, q)(h) == if Restricts(s, h) then 0 else BalanceCents(s, q)(h);
  }

  lemma FreeIsUnrestricted(s: State, hs: seq<Holding>, q: Query, k: GroupKey)
    requires AllCertain(s, hs, q, k)
    ensures SumBy(Filter(hs, InGroup(q, k)), FreeCents(s, q)) ==
            SumBy(Filter(hs, FreeCash(s, q, k)), BalanceCents(s, q))
  {
    hide CashOn, Filter, SumBy, Belongs;
    forall h | h in hs && InGroup(q, k)(h) && !FreeCash(s, q, k)(h) ensures FreeCents(s, q)(h) == 0 {
      RestrictedIsNotFree(s, q, h);
    }
    SumWithoutZeros(hs, FreeCash(s, q, k), InGroup(q, k), FreeCents(s, q));
    SumByEq(Filter(hs, FreeCash(s, q, k)), FreeCents(s, q), BalanceCents(s, q));
  }

  lemma AvailableIsDue(s: State, hs: seq<Holding>, q: Query, k: GroupKey)
    ensures SumBy(s.transactions, AvailableOn(s, hs, q, k)) ==
            SumBy(Filter(s.transactions, IsDue(s, hs, q)), AvailableOn(s, hs, q, k))
  {
    hide Due, LegUsable, Filter, SumBy;
    SumWithoutZeros(s.transactions, IsDue(s, hs, q), (t: Tx) => true, AvailableOn(s, hs, q, k));
    FilterAll(s.transactions, (t: Tx) => true);
  }

  /** The projection is what the unrestricted balances come to once everything due has been settled. */
  lemma ProjectionSettlesDue(s: State, hs: seq<Holding>, q: Query, groups: seq<LiquidityGroup>, g: LiquidityGroup)
    requires HoldingsOk(s.holdings) && TxsOk(s) && Selection(s, hs)
    requires GroupsAre(Contributions(s, hs, q), groups) && g in groups && g.projected.Some?
    ensures g.projected.value == SumBy(Filter(hs, FreeCash(s, q, g.key)), AfterDue(s, hs, q))
  {
    hide *;
    TableIs(s, hs, q, groups);
    RowProjects(s, hs, q, groups, g);
    var k := g.key;
    var free, due := Filter(hs, FreeCash(s, q, k)), Filter(s.transactions, IsDue(s, hs, q));
    FreeIsUnrestricted(s, hs, q, k);
    AvailableIsDue(s, hs, q, k);
    DueOnFree(s, hs, q, k);
    SumBothWays(free, due);
    AfterDueIs(s, hs, q, free, due);
  }

  lemma RowProjects(s: State, hs: seq<Holding>, q: Query, groups: seq<LiquidityGroup>, g: LiquidityGroup)
    requires TableSays(s, hs, q, groups) && g in groups && g.projected.Some?
    ensures AllCertain(s, hs, q, g.key)
    ensures g.projected.value == SumBy(Filter(hs, InGroup(q, g.key)), FreeCents(s, q))
                                 + SumBy(s.transactions, AvailableOn(s, hs, q, g.key))
  {
    hide SumBy, Filter, HasGroup, AllCertain, NothingBlocked;
  }

  lemma DueOnFree(s: State, hs: seq<Holding>, q: Query, k: GroupKey)
    requires HoldingsOk(s.holdings) && TxsOk(s) && Selection(s, hs) && AllCertain(s, hs, q, k)
    ensures SumBy(Filter(s.transactions, IsDue(s, hs, q)), AvailableOn(s, hs, q, k)) ==
            SumBy(Filter(s.transactions, IsDue(s, hs, q)), PostedTo(Filter(hs, FreeCash(s, q, k))))
  {
    hide HoldingsOk, Selection, AllCertain, TxOk, Due, AvailableOn, Filter, SumBy, FreeCash;
    var free := Filter(hs, FreeCash(s, q, k));
    forall t | t in Filter(s.transactions, IsDue(s, hs, q)) ensures AvailableOn(s, hs, q, k)(t) == PostedTo(free)(t) {
      LegsOnFree(s, hs, q, k, t);
    }
    SumByEq(Filter(s.transactions, IsDue(s, hs, q)), AvailableOn(s, hs, q, k), PostedTo(free));
  }

  lemma AfterDueIs(s: State, hs: seq<Holding>, q: Query, free: seq<Holding>, due: seq<Tx>)
    requires due == Filter(s.transactions, IsDue(s, hs, q))
    ensures SumBy(free, AfterDue(s, hs, q)) == SumBy(free, BalanceCents(s, q)) + SumBy(free, PostedBy(due))
  {
    hide CashOn, Filter, SumBy, Due;
    SumByAdd(free, BalanceCents(s, q), PostedBy(due), AfterDue(s, hs, q));
  }
}
