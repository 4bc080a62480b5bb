/**
 Projecting the workspace down to a scope never changes a period report (lib/reporting.ts,
 `scopedReportingInputs`; the same finance projection is in `scopeWorkspace`,
 lib/data-scope.ts).  The argument rests on what every reachable ledger keeps: an event's
 postings stay with one owner, and a reconciliation covers one entity's cash.
 */
module ReportingScope {
  import opened Common
  import opened LedgerState
  import opened LedgerPosting
  import opened LedgerCommands
  import opened LedgerRuns
  import opened LedgerReplay
  import opened LedgerLives
  import opened LedgerNotices
  import opened LedgerReconciliation
  import opened LedgerBook
  import opened Reporting

  // --- The register of owners ----------------------------------------------------------------

  /** Entity identifiers are unique, and every holding belongs to a registered entity of its family. */
  ghost predicate RegisterOk(s: State) {
    && (forall e, f :: e in s.entities && f in s.entities && e.id == f.id ==> e == f)
    && (forall h :: h in s.holdings ==> exists e :: e in s.entities && e.id == h.entityId && e.familyId == h.familyId)
  }

  lemma RegisterKept(s: State, c: Command, meta: Meta)
    requires CommandOk(c) && FxesOk(s) && HoldingsOk(s.holdings) && Fresh(s, meta) && RegisterOk(s)
             && Step(s, c, meta).Ok?
    ensures RegisterOk(Step(s, c, meta).value)
  {
    hide *;
    var t := Step(s, c, meta).value;
    StepShape(s, c, meta);
    ShapeKeepsHoldings(s, t, meta);
    EntitiesFresh(s, meta);
    RegisterGrows(s, t, meta);
  }

  lemma EntitiesFresh(s: State, meta: Meta)
    requires Fresh(s, meta)
    ensures forall e :: e in s.entities ==> e.id != meta.id
  {
  }

  lemma RegisterGrows(s: State, t: State, meta: Meta)
    requires RegisterOk(s) && RegistersGrow(s, t, meta) && Keeps(s.holdings, t.holdings)
    requires Shaped(s, t, meta) && HoldingsOk(s.holdings) && forall e :: e in s.entities ==> e.id != meta.id
    ensures RegisterOk(t)
  {
    hide HoldingsOk, Marked, ApplyFirst, InBounds;
    assert forall e :: e in s.entities ==> e in t.entities;
    forall i | 0 <= i < |s.holdings|
      ensures exists e :: e in t.entities && e.id == t.holdings[i].entityId && e.familyId == t.holdings[i].familyId
    {
      assert s.holdings[i] in s.holdings && SameIdentity(s.holdings[i], t.holdings[i]);
    }
    forall h | h in t.holdings ensures exists e :: e in t.entities && e.id == h.entityId && e.familyId == h.familyId {
      var i: nat :| i < |t.holdings| && t.holdings[i] == h;
      if i >= |s.holdings| { OnlyOpeningAdds(s, t, meta, i); }
    }
  }

  lemma OnlyOpeningAdds(s: State, t: State, meta: Meta, i: nat)
    requires Shaped(s, t, meta) && HoldingsOk(s.holdings) && |s.holdings| <= i < |t.holdings|
    ensures exists e :: e in s.entities && e.id == t.holdings[i].entityId && e.familyId == t.holdings[i].familyId
  {
    hide HoldingsOk, Marked, ApplyFirst, InBounds;
    if h, m :| Opens(s, t, h, m, meta) {
    } else if k: nat, m :| Values(s, t, k, m, meta) {
    } else if e :| Posts(s, t, e, meta) {
      AppliedLength(s, e, |e.postings|, meta.id + "-source");
    }
  }

  /** A selection that takes whole entities. */
  ghost predicate Selects(s: State, scope: Scope, hs: seq<Holding>) {
    hs == Filter(s.holdings, InScope(scope)) && RegisterOk(s) && HoldingsOk(s.holdings)
  }

  lemma SameEntitySelected(s: State, scope: Scope, hs: seq<Holding>, h: Holding, g: Holding)
    requires Selects(s, scope, hs) && h in hs && g in s.holdings && g.entityId == h.entityId
    ensures g in hs && g.familyId == h.familyId
  {
  }

  lemma IdSelected(s: State, scope: Scope, hs: seq<Holding>, h: Holding)
    requires Selects(s, scope, hs) && h in s.holdings
    ensures h.id in HoldingIds(hs) <==> h in hs
  {
    hide InScope, RegisterOk;
    if h.id in HoldingIds(hs) {
      var g :| g in hs && g.id == h.id;
      assert g in s.holdings;
      var i: nat :| i < |s.holdings| && s.holdings[i] == g;
      var j: nat :| j < |s.holdings| && s.holdings[j] == h;
    }
  }

  /** Holdings of one owner are selected together. */
  lemma OwnersTogether(s: State, scope: Scope, hs: seq<Holding>, a: string, b: string)
    requires Selects(s, scope, hs) && At(s.holdings, a).Some? && At(s.holdings, b).Some?
    requires At(s.holdings, a).value.entityId == At(s.holdings, b).value.entityId && a in HoldingIds(hs)
    ensures b in HoldingIds(hs)
  {
    var x, y := At(s.holdings, a).value, At(s.holdings, b).value;
    assert x in s.holdings && y in s.holdings && x.id == a && y.id == b;
    hide At, Selects, HoldingIds;
    IdSelected(s, scope, hs, x);
    IdSelected(s, scope, hs, y);
    SameEntitySelected(s, scope, hs, x, y);
  }

  // --- Transactions and events -----------------------------------------------------------------

  lemma LegFound(s: State, t: Tx, id: string)
    requires LegsOwned(s.holdings, t) && IsLeg(t, id)
    ensures At(s.holdings, t.cashId).Some? && At(s.holdings, id).Some?
    ensures At(s.holdings, id).value.entityId == At(s.holdings, t.cashId).value.entityId
  {
    hide At;
  }

  /** One selected leg means the whole transaction is kept. */
  lemma TxTogether(s: State, scope: Scope, hs: seq<Holding>, t: Tx, id: string)
    requires Selects(s, scope, hs) && TxsOk(s) && t in s.transactions && IsLeg(t, id) && id in HoldingIds(hs)
    ensures TxKept(t, HoldingIds(hs)) && forall x :: IsLeg(t, x) ==> x in HoldingIds(hs)
  {
    assert TxOk(s.holdings, t);
    hide Selects, HoldingIds, At, TxsOk, Convert;
    forall x | IsLeg(t, x) ensures x in HoldingIds(hs) {
      LegFound(s, t, id);
      LegFound(s, t, x);
      OwnersTogether(s, scope, hs, id, x);
    }
  }

  /** What a scope keeps of the transactions. */
  function KeptTxs(s: State, hs: seq<Holding>): seq<Tx> { Filter(s.transactions, KeptTx(HoldingIds(hs))) }

  function Kept(s: State, hs: seq<Holding>): Event -> bool { KeptEvent(TxIds(KeptTxs(s, hs)), HoldingIds(hs)) }

  lemma ScopedFields(s: State, hs: seq<Holding>)
    ensures var t := ScopedState(s, hs);
            && t.holdings == hs && t.transactions == KeptTxs(s, hs) && t.events == Filter(s.events, Kept(s, hs))
            && t.marks == Filter(s.marks, KeptMark(HoldingIds(hs)))
            && t.evidence == Filter(s.evidence, (e: Evidence) => e.holdingId in HoldingIds(hs))
            && t.entities == Filter(s.entities, (e: Entity) => e.id in EntityIds(hs))
            && t.reviews == (map id | id in s.reviews && id in AccountIds(hs) :: s.reviews[id])
            && t.coverage == RecountAll(s, TxIds(KeptTxs(s, hs)), HoldingIds(hs),
                                        Filter(s.coverage, KeptCoverage(EntityIds(hs), HoldingIds(hs))))
  {
  }

  /** Events of a kept transaction are kept. */
  lemma EventOfKeptTx(s: State, scope: Scope, hs: seq<Holding>, e: Event, t: Tx)
    requires Selects(s, scope, hs) && TxsOk(s) && EventsOwned(s) && e in s.events
    requires t in s.transactions && t.id == e.txId && TxKept(t, HoldingIds(hs))
    ensures Kept(s, hs)(e)
  {
    assert LegsOnly(s, e);
    var x :| x in s.transactions && x.id == e.txId && forall p :: p in e.postings ==> IsLeg(x, p.holdingId);
    SameTx(s, t, x);
    assert t in KeptTxs(s, hs);
    hide Selects, HoldingIds, EventsOwned, TxsOk;
    assert IsLeg(t, t.cashId);
    TxTogether(s, scope, hs, t, t.cashId);
  }

  lemma SameTx(s: State, a: Tx, b: Tx)
    requires TxsOk(s) && a in s.transactions && b in s.transactions && a.id == b.id
    ensures a == b
  {
    hide TxOk;
    var i: nat :| i < |s.transactions| && s.transactions[i] == a;
    var j: nat :| j < |s.transactions| && s.transactions[j] == b;
  }

  /** An event that touches a selected holding is kept, and so is its transaction. */
  lemma TouchingEventKept(s: State, scope: Scope, hs: seq<Holding>, e: Event, p: Posting)
    requires Selects(s, scope, hs) && TxsOk(s) && EventsOwned(s) && e in s.events
    requires p in e.postings && p.holdingId in HoldingIds(hs)
    ensures Kept(s, hs)(e)
  {
    assert LegsOnly(s, e);
    var t :| t in s.transactions && t.id == e.txId && forall q :: q in e.postings ==> IsLeg(t, q.holdingId);
    hide Selects, HoldingIds, EventsOwned, TxsOk, Kept;
    TxTogether(s, scope, hs, t, p.holdingId);
    EventOfKeptTx(s, scope, hs, e, t);
  }

  lemma {:induction false} StatusFiltered(events: seq<Event>, k: Event -> bool, id: string)
    requires forall e :: e in events && e.txId == id ==> k(e)
    ensures StatusOf(Filter(events, k), id) == StatusOf(events, id)
  {
    if |events| > 0 {
      var front, last := events[..|events| - 1], events[|events| - 1];
      assert events == front + [last];
      StatusFiltered(front, k, id);
      if k(last) { StatusSnoc(Filter(front, k), last, id); }
    }
  }

  /** Kept transactions keep their status. */
  lemma StatusKept(s: State, scope: Scope, hs: seq<Holding>, t: Tx)
    requires Selects(s, scope, hs) && TxsOk(s) && EventsOwned(s) && t in KeptTxs(s, hs)
    ensures StatusOf(Filter(s.events, Kept(s, hs)), t.id) == StatusOf(s.events, t.id)
  {
    assert t in s.transactions && TxKept(t, HoldingIds(hs));
    hide Selects, HoldingIds, EventsOwned, TxsOk, Kept, KeptTxs, TxKept;
    forall e | e in s.events && e.txId == t.id ensures Kept(s, hs)(e) { EventOfKeptTx(s, scope, hs, e, t); }
    StatusFiltered(s.events, Kept(s, hs), t.id);
  }

  // --- Reconciliations ---------------------------------------------------------------------------

  /** The remapped counters cut the filtered lists where the original ones cut the full lists. */
  lemma SuffixFiltered<T(!new)>(xs: seq<T>, n: nat, p: T -> bool)
    requires n <= |xs|
    ensures |Filter(xs[..n], p)| <= |Filter(xs, p)|
    ensures Filter(xs, p)[|Filter(xs[..n], p)|..] == Filter(xs[n..], p)
  {
    assert xs == xs[..n] + xs[n..];
    FilterConcat(xs[..n], xs[n..], p);
  }

  lemma EntityCash(s: State, scope: Scope, hs: seq<Holding>, entityId: string, to: int)
    requires Selects(s, scope, hs) && entityId in EntityIds(hs)
    ensures CashOpenedBy(hs, entityId, to) == CashOpenedBy(s.holdings, entityId, to)
  {
    var p := (h: Holding) => h.entityId == entityId && h.assetClass == Cash && OpeningDate(h) <= to;
    var x :| x in hs && x.entityId == entityId;
    forall h | h in s.holdings && p(h) ensures InScope(scope)(h) {
      SameEntitySelected(s, scope, hs, x, h);
    }
    FilterFilter(s.holdings, InScope(scope), p, p);
  }

  /** A reconciliation of a selected entity names only selected cash. */
  lemma CoverageTogether(s: State, scope: Scope, hs: seq<Holding>, openings: map<string, LedgerReplay.Balance>,
                         c: Coverage)
    requires Selects(s, scope, hs) && CoverageOk(s, openings, c) && c.entityId in EntityIds(hs)
    ensures KeptCoverage(EntityIds(hs), HoldingIds(hs))(c)
  {
    var x :| x in hs && x.entityId == c.entityId;
    hide RowHolds, TouchesAny;
    forall id | id in c.cashIds ensures id in HoldingIds(hs) {
      var h := At(s.holdings, id).value;
      assert h in s.holdings && h.id == id;
      SameEntitySelected(s, scope, hs, x, h);
    }
  }

  ghost predicate EventAfter(events: seq<Event>, c: Coverage) {
    exists e :: e in events && e.date <= c.to && TouchesAny(e, c.cashIds)
  }

  ghost predicate MarkAfter(marks: seq<Mark>, c: Coverage) {
    exists m :: m in marks && m.date <= c.to && m.holdingId in c.cashIds
  }

  lemma NoTouching(s: State, scope: Scope, hs: seq<Holding>, c: Coverage, events: seq<Event>)
    requires Selects(s, scope, hs) && TxsOk(s) && EventsOwned(s) && (forall e :: e in events ==> e in s.events)
    requires forall id :: id in c.cashIds ==> id in HoldingIds(hs)
    ensures EventAfter(events, c) <==> EventAfter(Filter(events, Kept(s, hs)), c)
  {
    hide Selects, HoldingIds, EventsOwned, TxsOk, Kept;
    forall e | e in events && TouchesAny(e, c.cashIds) ensures Kept(s, hs)(e) {
      var p :| p in e.postings && p.holdingId in c.cashIds;
      TouchingEventKept(s, scope, hs, e, p);
    }
  }

  lemma NoMarks(hs: seq<Holding>, c: Coverage, marks: seq<Mark>)
    requires forall id :: id in c.cashIds ==> id in HoldingIds(hs)
    ensures MarkAfter(marks, c) <==> MarkAfter(Filter(marks, KeptMark(HoldingIds(hs))), c)
  {
  }

  lemma CurrentMeans(s: State, c: Coverage)
    requires CountsFit(s, c)
    ensures CoverageCurrent(s, c) <==>
              var cash := CashOpenedBy(s.holdings, c.entityId, c.to);
              && |cash| == |ToSet(c.cashIds)| && (forall h :: h in cash ==> h.id in c.cashIds)
              && !EventAfter(s.events[c.eventCount..], c) && !MarkAfter(s.marks[c.markCount..], c)
  {
    hide CashOpenedBy, ToSet, TouchesAny;
  }

  lemma CurrentFrom(s: State, c: Coverage, t: State, d: Coverage)
    requires CountsFit(s, c) && CountsFit(t, d) && d.cashIds == c.cashIds && d.to == c.to && d.entityId == c.entityId
    requires CashOpenedBy(t.holdings, c.entityId, c.to) == CashOpenedBy(s.holdings, c.entityId, c.to)
    requires EventAfter(t.events[d.eventCount..], c) <==> EventAfter(s.events[c.eventCount..], c)
    requires MarkAfter(t.marks[d.markCount..], c) <==> MarkAfter(s.marks[c.markCount..], c)
    ensures IsCurrent(t, d) == IsCurrent(s, c)
  {
    CurrentMeans(s, c);
    CurrentMeans(t, d);
    hide CoverageCurrent, CashOpenedBy, ToSet;
    assert EventAfter(t.events[d.eventCount..], c) <==> EventAfter(t.events[d.eventCount..], d);
    assert MarkAfter(t.marks[d.markCount..], c) <==> MarkAfter(t.marks[d.markCount..], d);
  }

  lemma RecountedFits(s: State, hs: seq<Holding>, c: Coverage)
    requires CountsFit(s, c)
    ensures var d := Recount(s, TxIds(KeptTxs(s, hs)), HoldingIds(hs), c);
            && CountsFit(ScopedState(s, hs), d) && d.cashIds == c.cashIds && d.to == c.to && d.entityId == c.entityId
            && ScopedState(s, hs).holdings == hs
            && ScopedState(s, hs).events[d.eventCount..] == Filter(s.events[c.eventCount..], Kept(s, hs))
            && ScopedState(s, hs).marks[d.markCount..] == Filter(s.marks[c.markCount..], KeptMark(HoldingIds(hs)))
  {
    ScopedFields(s, hs);
    hide ScopedState, KeptTxs, TxIds, HoldingIds, Filter, KeptMark;
    SuffixFiltered(s.events, c.eventCount, Kept(s, hs));
    SuffixFiltered(s.marks, c.markCount, KeptMark(HoldingIds(hs)));
  }

  /** Currency survives the projection with its remapped counters. */
  lemma CurrentAlike(s: State, scope: Scope, hs: seq<Holding>, openings: map<string, LedgerReplay.Balance>, c: Coverage)
    requires Selects(s, scope, hs) && TxsOk(s) && EventsOwned(s) && CoverageOk(s, openings, c)
    requires c.entityId in EntityIds(hs)
    ensures IsCurrent(ScopedState(s, hs), Recount(s, TxIds(KeptTxs(s, hs)), HoldingIds(hs), c)) == IsCurrent(s, c)
  {
    hide *;
    CoverageTogether(s, scope, hs, openings, c);
    KeptIds(hs, c);
    CoverageFits(s, openings, c);
    RecountedFits(s, hs, c);
    EntityCash(s, scope, hs, c.entityId, c.to);
    FitCounts(s, c);
    NoTouching(s, scope, hs, c, s.events[c.eventCount..]);
    NoMarks(hs, c, s.marks[c.markCount..]);
    CurrentFrom(s, c, ScopedState(s, hs), Recount(s, TxIds(KeptTxs(s, hs)), HoldingIds(hs), c));
  }

  lemma FitCounts(s: State, c: Coverage)
    requires CountsFit(s, c)
    ensures c.eventCount <= |s.events| && c.markCount <= |s.marks|
  {
  }

  lemma KeptIds(hs: seq<Holding>, c: Coverage)
    requires KeptCoverage(EntityIds(hs), HoldingIds(hs))(c)
    ensures forall id :: id in c.cashIds ==> id in HoldingIds(hs)
  {
  }

  lemma CoverageFits(s: State, openings: map<string, LedgerReplay.Balance>, c: Coverage)
    requires CoverageOk(s, openings, c)
    ensures CountsFit(s, c)
  {
  }

  /** The same condition picks the same reconciliation from the projected list. */
  lemma {:induction false} LastAlike(cs: seq<Coverage>, keep: Coverage -> bool, p: Coverage -> bool,
                                     q: Coverage -> bool, s: State, txIds: set<string>, ids: set<string>)
    requires forall c :: c in cs && p(c) ==> keep(c)
    requires forall c :: c in cs && keep(c) ==> q(Recount(s, txIds, ids, c)) == p(c)
    ensures var a, b := LastCoverage(cs, p), LastCoverage(RecountAll(s, txIds, ids, Filter(cs, keep)), q);
            && (a.Some? <==> b.Some?) && (a.Some? ==> b.value == Recount(s, txIds, ids, a.value))
  {
    if |cs| == 0 {
      assert Filter(cs, keep) == [];
    } else {
      hide *;
      var front, last := cs[..|cs| - 1], cs[|cs| - 1];
      assert cs == front + [last] && last in cs && forall c :: c in front ==> c in cs;
      LastAlike(front, keep, p, q, s, txIds, ids);
      FilterSnoc(front, last, keep);
      var kept := Filter(front, keep);
      LastSnoc(front, last, p);
      if keep(last) {
        RecountSnoc(s, txIds, ids, kept, last);
        LastSnoc(RecountAll(s, txIds, ids, kept), Recount(s, txIds, ids, last), q);
      } else {
        assert kept + [] == kept;
      }
    }
  }

  lemma LastSnoc(cs: seq<Coverage>, c: Coverage, p: Coverage -> bool)
    ensures LastCoverage(cs + [c], p) == if p(c) then Some(c) else LastCoverage(cs, p)
  {
    assert (cs + [c])[..|cs|] == cs;
  }

  lemma RecountSnoc(s: State, txIds: set<string>, ids: set<string>, cs: seq<Coverage>, c: Coverage)
    ensures RecountAll(s, txIds, ids, cs + [c]) == RecountAll(s, txIds, ids, cs) + [Recount(s, txIds, ids, c)]
  {
    hide Recount;
  }

  // --- Each part of the report --------------------------------------------------------------------

  ghost predicate Scoping(s: State, scope: Scope, hs: seq<Holding>, openings: map<string, LedgerReplay.Balance>) {
    Selects(s, scope, hs) && TxsOk(s) && EventsOwned(s) && CoveragesOk(s, openings)
  }

  lemma {:induction false} PriorMarkFiltered(marks: seq<Mark>, ids: set<string>, id: string, date: int)
    requires id in ids
    ensures PriorMark(Filter(marks, KeptMark(ids)), id, date) == PriorMark(marks, id, date)
  {
    if |marks| > 0 { PriorMarkFiltered(marks[..|marks| - 1], ids, id, date); }
  }

  lemma {:induction false} LatestMarkFiltered(marks: seq<Mark>, ids: set<string>, id: string, asOf: int)
    requires id in ids
    ensures LatestMark(Filter(marks, KeptMark(ids)), id, asOf) == LatestMark(marks, id, asOf)
  {
    if |marks| > 0 { LatestMarkFiltered(marks[..|marks| - 1], ids, id, asOf); }
  }

  lemma InIds(hs: seq<Holding>, h: Holding)
    requires h in hs
    ensures h.id in HoldingIds(hs) && h.entityId in EntityIds(hs) && h.accountId in AccountIds(hs)
  {
  }

  lemma AtSelected(s: State, scope: Scope, hs: seq<Holding>, h: Holding)
    requires Selects(s, scope, hs) && h in hs
    ensures h in s.holdings && At(s.holdings, h.id) == Some(h)
  {
    assert h in s.holdings;
    hide Selects;
    AtIs(s.holdings, h) by { SelectsHoldings(s, scope, hs); }
  }

  lemma SelectsHoldings(s: State, scope: Scope, hs: seq<Holding>)
    requires Selects(s, scope, hs)
    ensures HoldingsOk(s.holdings)
  {
  }

  /** A reconciliation that names a selected balance is one of its entity, and is kept. */
  lemma NamingCoverageKept(s: State, scope: Scope, hs: seq<Holding>, openings: map<string, LedgerReplay.Balance>,
                           c: Coverage, h: Holding)
    requires Scoping(s, scope, hs, openings) && c in s.coverage && h in hs && h.id in c.cashIds
    ensures KeptCoverage(EntityIds(hs), HoldingIds(hs))(c)
  {
    hide Selects, TxsOk, EventsOwned, RowHolds, TouchesAny;
    AtSelected(s, scope, hs, h);
    InIds(hs, h);
    assert CoverageOk(s, openings, c);
    CoverageTogether(s, scope, hs, openings, c);
  }

  lemma KeptCurrentAlike(s: State, scope: Scope, hs: seq<Holding>, openings: map<string, LedgerReplay.Balance>,
                         c: Coverage)
    requires Scoping(s, scope, hs, openings) && c in s.coverage && KeptCoverage(EntityIds(hs), HoldingIds(hs))(c)
    ensures var d := Recount(s, TxIds(KeptTxs(s, hs)), HoldingIds(hs), c);
            && IsCurrent(ScopedState(s, hs), d) == IsCurrent(s, c)
            && d == c.(eventCount := d.eventCount, markCount := d.markCount)
  {
    hide Selects, TxsOk, EventsOwned, CoverageOk, IsCurrent, ScopedState, CountsFit;
    assert CoverageOk(s, openings, c);
    CurrentAlike(s, scope, hs, openings, c);
  }

  lemma StatementAlike(s: State, scope: Scope, hs: seq<Holding>, openings: map<string, LedgerReplay.Balance>,
                       h: Holding, date: int)
    requires Scoping(s, scope, hs, openings) && h in hs
    ensures StatementMark(ScopedState(s, hs), h, date) == StatementMark(s, h, date)
  {
    var t, txIds, ids, keep := ScopedState(s, hs), TxIds(KeptTxs(s, hs)), HoldingIds(hs),
        KeptCoverage(EntityIds(hs), HoldingIds(hs));
    ScopedFields(s, hs);
    hide Scoping, ScopedState, IsCurrent, KeptCoverage, KeptTxs, TxIds, HoldingIds, EntityIds, CountsFit;
    forall c | c in s.coverage && ClosesOn(s, h, date)(c) ensures keep(c) {
      NamingCoverageKept(s, scope, hs, openings, c, h);
    }
    forall c | c in s.coverage && keep(c)
      ensures ClosesOn(t, h, date)(Recount(s, txIds, ids, c)) == ClosesOn(s, h, date)(c)
    {
      KeptCurrentAlike(s, scope, hs, openings, c);
    }
    LastAlike(s.coverage, keep, ClosesOn(s, h, date), ClosesOn(t, h, date), s, txIds, ids);
    hide ClosesOn, RecountAll;
    var a := LastCoverage(s.coverage, ClosesOn(s, h, date));
    if a.Some? { RecountKeeps(s, txIds, ids, a.value); }
  }

  lemma RecountKeeps(s: State, txIds: set<string>, ids: set<string>, c: Coverage)
    ensures var d := Recount(s, txIds, ids, c);
            d.id == c.id && d.closing == c.closing && d.source == c.source && d.cashIds == c.cashIds && d.to == c.to
            && d.entityId == c.entityId && d.from == c.from
  {
  }

  lemma EvidenceAlike(evidence: seq<Evidence>, hs: seq<Holding>, h: Holding, sourceId: string)
    requires h in hs
    ensures HasEvidence(Filter(evidence, (e: Evidence) => e.holdingId in HoldingIds(hs)), h, sourceId) ==
            HasEvidence(evidence, h, sourceId)
  {
    InIds(hs, h);
  }

  /** A selected holding has the same sourced mark on every date. */
  lemma SourcedAlike(s: State, scope: Scope, hs: seq<Holding>, openings: map<string, LedgerReplay.Balance>,
                     h: Holding, date: int)
    requires Scoping(s, scope, hs, openings) && h in hs
    ensures SourcedMarkOf(ScopedState(s, hs), h, date) == SourcedMarkOf(s, h, date)
  {
    ScopedFields(s, hs);
    InIds(hs, h);
    StatementAlike(s, scope, hs, openings, h, date);
    PriorMarkFiltered(s.marks, HoldingIds(hs), h.id, date);
    hide Scoping, ScopedState, StatementMark, PriorMark, HasEvidence, KeptMark, HoldingIds, Filter;
    EvidenceAlike(s.evidence, hs, h, h.sourceId);
    var mark := PriorMark(s.marks, h.id, date);
    if mark.Some? { EvidenceAlike(s.evidence, hs, h, mark.value.sourceId); }
  }

  lemma {:induction false} RowsAlike(s: State, scope: Scope, hs: seq<Holding>,
                                     openings: map<string, LedgerReplay.Balance>, xs: seq<Holding>, q: Query)
    requires Scoping(s, scope, hs, openings) && forall h :: h in xs ==> h in hs
    ensures RowsOf(ScopedState(s, hs), xs, q) == RowsOf(s, xs, q)
    decreases |xs|
  {
    hide Scoping, ScopedState, SourcedMarkOf;
    if |xs| > 0 {
      var h := xs[|xs| - 1];
      assert h in xs && forall x :: x in xs[..|xs| - 1] ==> x in xs;
      RowsAlike(s, scope, hs, openings, xs[..|xs| - 1], q);
      SourcedAlike(s, scope, hs, openings, h, q.from);
      SourcedAlike(s, scope, hs, openings, h, q.to);
    }
  }

  // --- Flows ------------------------------------------------------------------------------------------

  lemma TouchedKept(s: State, scope: Scope, hs: seq<Holding>, openings: map<string, LedgerReplay.Balance>, e: Event)
    requires Scoping(s, scope, hs, openings) && e in s.events && TouchesSet(e, HoldingIds(hs))
    ensures Kept(s, hs)(e)
  {
    hide Selects, TxsOk, EventsOwned, CoveragesOk, Kept, HoldingIds;
    var p :| p in e.postings && p.holdingId in HoldingIds(hs);
    TouchingEventKept(s, scope, hs, e, p);
  }

  lemma FlowEventsAlike(s: State, scope: Scope, hs: seq<Holding>, openings: map<string, LedgerReplay.Balance>, q: Query)
    requires Scoping(s, scope, hs, openings)
    ensures Filter(Filter(s.events, Kept(s, hs)), IsFlow(q, HoldingIds(hs))) ==
            Filter(s.events, IsFlow(q, HoldingIds(hs)))
  {
    var p := IsFlow(q, HoldingIds(hs));
    hide Scoping, Kept, HoldingIds, TouchesSet;
    forall e | e in s.events ensures p(e) == (Kept(s, hs)(e) && p(e)) {
      if p(e) { TouchedKept(s, scope, hs, openings, e); }
    }
    FilterFilter(s.events, Kept(s, hs), p, p);
  }

  lemma FindKeptTx(s: State, hs: seq<Holding>, t: Tx)
    requires TxsOk(s) && t in KeptTxs(s, hs)
    ensures FindTx(KeptTxs(s, hs), t.id).Some? && KeptTxs(s, hs)[FindTx(KeptTxs(s, hs), t.id).value] == t
    ensures FindTx(s.transactions, t.id).Some? && s.transactions[FindTx(s.transactions, t.id).value] == t
  {
    hide TxOk, TxsOk;
    var txs := KeptTxs(s, hs);
    var a, b := FindTx(txs, t.id).value, FindTx(s.transactions, t.id).value;
    assert txs[a] in txs && s.transactions[b] in s.transactions;
    SameTx(s, txs[a], t);
    SameTx(s, s.transactions[b], t);
  }

  lemma FlowAlike(s: State, scope: Scope, hs: seq<Holding>, openings: map<string, LedgerReplay.Balance>, e: Event)
    requires Scoping(s, scope, hs, openings) && e in s.events && Kept(s, hs)(e)
    ensures FlowOfEvent(KeptTxs(s, hs), e) == FlowOfEvent(s.transactions, e)
  {
    var t :| t in KeptTxs(s, hs) && t.id == e.txId;
    hide Selects, EventsOwned, CoveragesOk, KeptTxs, TxsOk;
    FindKeptTx(s, hs, t);
  }

  lemma {:induction false} FlowListAlike(s: State, scope: Scope, hs: seq<Holding>,
                                         openings: map<string, LedgerReplay.Balance>, events: seq<Event>)
    requires Scoping(s, scope, hs, openings) && forall e :: e in events ==> e in s.events && Kept(s, hs)(e)
    ensures FlowsOf(KeptTxs(s, hs), events) == FlowsOf(s.transactions, events)
    decreases |events|
  {
    hide Scoping, Kept, KeptTxs, FlowOfEvent;
    if |events| > 0 {
      var e := events[|events| - 1];
      assert e in events && forall x :: x in events[..|events| - 1] ==> x in events;
      FlowListAlike(s, scope, hs, openings, events[..|events| - 1]);
      FlowAlike(s, scope, hs, openings, e);
    }
  }

  lemma FlowsAlike(s: State, scope: Scope, hs: seq<Holding>, openings: map<string, LedgerReplay.Balance>, q: Query)
    requires Scoping(s, scope, hs, openings)
    ensures FlowsOf(ScopedState(s, hs).transactions, Filter(ScopedState(s, hs).events, IsFlow(q, HoldingIds(hs)))) ==
            FlowsOf(s.transactions, Filter(s.events, IsFlow(q, HoldingIds(hs))))
  {
    ScopedFields(s, hs);
    hide Scoping, ScopedState, Kept, KeptTxs, HoldingIds, TouchesSet;
    FlowEventsAlike(s, scope, hs, openings, q);
    var events := Filter(s.events, IsFlow(q, HoldingIds(hs)));
    forall e | e in events ensures e in s.events && Kept(s, hs)(e) { TouchedKept(s, scope, hs, openings, e); }
    FlowListAlike(s, scope, hs, openings, events);
  }

  // --- Cash --------------------------------------------------------------------------------------------

  /** Elements that contribute nothing can be dropped from a sum. */
  lemma {:induction false} SumDropped<T(!new)>(xs: seq<T>, p: T -> bool, q: T -> bool, f: T -> int)
    requires forall x :: x in xs ==> (q(x) ==> p(x)) && (p(x) && !q(x) ==> f(x) == 0)
    ensures SumBy(Filter(xs, q), f) == SumBy(Filter(xs, p), f)
  {
    hide *;
    if |xs| > 0 {
      var front, last := xs[..|xs| - 1], xs[|xs| - 1];
      assert xs == front + [last] && last in xs;
      forall x | x in front ensures x in xs { }
      SumDropped(front, p, q, f);
      FilteredSum(front, last, p, f);
      FilteredSum(front, last, q, f);
    } else {
      assert Filter(xs, p) == [] == Filter(xs, q);
    }
  }

  lemma FilteredSum<T(!new)>(xs: seq<T>, x: T, p: T -> bool, f: T -> int)
    ensures SumBy(Filter(xs + [x], p), f) == SumBy(Filter(xs, p), f) + (if p(x) then f(x) else 0)
  {
    hide *;
    FilterSnoc(xs, x, p);
    SumBySnoc(Filter(xs, p), x, f);
    assert Filter(xs, p) + [] == Filter(xs, p);
  }

  /** Events left out moved nothing on a selected holding. */
  lemma SumKept(events: seq<Event>, k: Event -> bool, p: Event -> bool, id: string)
    requires forall e :: e in events && Names(e.postings, id) ==> k(e)
    ensures SumBy(Filter(Filter(events, k), p), NativeOn(id)) == SumBy(Filter(events, p), NativeOn(id))
  {
    var both := (e: Event) => k(e) && p(e);
    FilterFilter(events, k, p, both);
    forall e | e in events && p(e) && !both(e) ensures NativeOn(id)(e) == 0 { NativeZero(e, id); }
    SumDropped(events, p, both, NativeOn(id));
  }

  lemma NativeZero(e: Event, id: string)
    requires !Names(e.postings, id)
    ensures NativeOn(id)(e) == 0
  {
    NothingMoved(e.postings, id);
  }

  lemma MovementsAlike(s: State, scope: Scope, hs: seq<Holding>, openings: map<string, LedgerReplay.Balance>,
                       h: Holding, p: Event -> bool)
    requires Scoping(s, scope, hs, openings) && h in hs
    ensures SumBy(Filter(ScopedState(s, hs).events, p), NativeOn(h.id)) == SumBy(Filter(s.events, p), NativeOn(h.id))
  {
    ScopedFields(s, hs);
    InIds(hs, h);
    hide Scoping, ScopedState, Kept, HoldingIds, Filter, SumBy, NativeOn;
    forall e | e in s.events && Names(e.postings, h.id) ensures Kept(s, hs)(e) {
      assert TouchesSet(e, HoldingIds(hs));
      TouchedKept(s, scope, hs, openings, e);
    }
    SumKept(s.events, Kept(s, hs), p, h.id);
  }

  lemma EntityCoverageKept(s: State, scope: Scope, hs: seq<Holding>, openings: map<string, LedgerReplay.Balance>,
                           c: Coverage, h: Holding)
    requires Scoping(s, scope, hs, openings) && c in s.coverage && h in hs && c.entityId == h.entityId
    ensures KeptCoverage(EntityIds(hs), HoldingIds(hs))(c)
  {
    hide Selects, TxsOk, EventsOwned, CoverageOk;
    InIds(hs, h);
    assert CoverageOk(s, openings, c);
    CoverageTogether(s, scope, hs, openings, c);
  }

  lemma PeriodAlike(s: State, scope: Scope, hs: seq<Holding>, openings: map<string, LedgerReplay.Balance>,
                    h: Holding, q: Query)
    requires Scoping(s, scope, hs, openings) && h in hs
    ensures var a := LastCoverage(s.coverage, CoversQuery(s, h.entityId, q));
            var b := LastCoverage(ScopedState(s, hs).coverage, CoversQuery(ScopedState(s, hs), h.entityId, q));
            (a.Some? <==> b.Some?) && (a.Some? ==> b.value.id == a.value.id)
  {
    var t, txIds, ids, keep := ScopedState(s, hs), TxIds(KeptTxs(s, hs)), HoldingIds(hs),
        KeptCoverage(EntityIds(hs), HoldingIds(hs));
    ScopedFields(s, hs);
    hide Scoping, ScopedState, IsCurrent, KeptCoverage, KeptTxs, TxIds, HoldingIds, EntityIds, CountsFit;
    forall c | c in s.coverage && CoversQuery(s, h.entityId, q)(c) ensures keep(c) {
      EntityCoverageKept(s, scope, hs, openings, c, h);
    }
    forall c | c in s.coverage && keep(c)
      ensures CoversQuery(t, h.entityId, q)(Recount(s, txIds, ids, c)) == CoversQuery(s, h.entityId, q)(c)
    {
      KeptCurrentAlike(s, scope, hs, openings, c);
    }
    LastAlike(s.coverage, keep, CoversQuery(s, h.entityId, q), CoversQuery(t, h.entityId, q), s, txIds, ids);
    hide CoversQuery, RecountAll;
    var a := LastCoverage(s.coverage, CoversQuery(s, h.entityId, q));
    if a.Some? { RecountKeeps(s, txIds, ids, a.value); }
  }

  lemma CashRowAlike(s: State, scope: Scope, hs: seq<Holding>, openings: map<string, LedgerReplay.Balance>,
                     h: Holding, q: Query)
    requires Scoping(s, scope, hs, openings) && h in hs
    ensures CashRowOf(ScopedState(s, hs), h, q) == CashRowOf(s, h, q)
  {
    hide Scoping, ScopedState, SourcedMarkOf, CoversQuery, InPeriod, NativeOn, Filter, SumBy, LastCoverage;
    SourcedAlike(s, scope, hs, openings, h, q.from);
    SourcedAlike(s, scope, hs, openings, h, q.to);
    MovementsAlike(s, scope, hs, openings, h, InPeriod(q));
    PeriodAlike(s, scope, hs, openings, h, q);
  }

  lemma {:induction false} CashRowsAlike(s: State, scope: Scope, hs: seq<Holding>,
                                         openings: map<string, LedgerReplay.Balance>, xs: seq<Holding>, q: Query)
    requires Scoping(s, scope, hs, openings) && forall h :: h in xs ==> h in hs
    ensures CashRowsOf(ScopedState(s, hs), xs, q) == CashRowsOf(s, xs, q)
    decreases |xs|
  {
    hide Scoping, ScopedState, CashRowOf;
    if |xs| > 0 {
      assert xs[|xs| - 1] in xs && forall x :: x in xs[..|xs| - 1] ==> x in xs;
      CashRowsAlike(s, scope, hs, openings, xs[..|xs| - 1], q);
      CashRowAlike(s, scope, hs, openings, xs[|xs| - 1], q);
    }
  }

  lemma CoveredAlike(s: State, scope: Scope, hs: seq<Holding>, openings: map<string, LedgerReplay.Balance>, q: Query)
    requires Scoping(s, scope, hs, openings)
    ensures Covered(ScopedState(s, hs), hs, q) == Covered(s, hs, q)
  {
    hide Scoping, ScopedState, CoversQuery;
    var t := ScopedState(s, hs);
    forall h | h in hs
      ensures (exists c :: c in t.coverage && CoversQuery(t, h.entityId, q)(c)) <==>
              (exists c :: c in s.coverage && CoversQuery(s, h.entityId, q)(c))
    {
      PeriodAlike(s, scope, hs, openings, h, q);
      LastExists(s.coverage, CoversQuery(s, h.entityId, q));
      LastExists(t.coverage, CoversQuery(t, h.entityId, q));
    }
  }

  lemma LastExists(cs: seq<Coverage>, p: Coverage -> bool)
    ensures LastCoverage(cs, p).Some? <==> exists c :: c in cs && p(c)
  {
  }

  // --- Liquidity ------------------------------------------------------------------------------------------

  lemma ReviewAlike(s: State, hs: seq<Holding>, h: Holding)
    requires h in hs
    ensures var r := ScopedState(s, hs).reviews;
            (h.accountId in r <==> h.accountId in s.reviews)
                && (h.accountId in r ==> r[h.accountId] == s.reviews[h.accountId])
  {
    InIds(hs, h);
    ScopedFields(s, hs);
    hide ScopedState, AccountIds;
  }

  lemma LatestAlike(s: State, hs: seq<Holding>, h: Holding, asOf: int)
    requires h in hs
    ensures LatestMark(ScopedState(s, hs).marks, h.id, asOf) == LatestMark(s.marks, h.id, asOf)
  {
    ScopedFields(s, hs);
    InIds(hs, h);
    hide ScopedState, LatestMark, HoldingIds, KeptMark;
    LatestMarkFiltered(s.marks, HoldingIds(hs), h.id, asOf);
  }

  /** `CashOn`, without looking into the mark and the movements it reads. */
  lemma CashOnUnfold(s: State, h: Holding, asOf: int)
    ensures CashOn(s, h, asOf) ==
            if h.valueKnown && h.markDate <= asOf then Known(h.native, h.markDate)
            else
              var m := LatestMark(s.marks, h.id, asOf);
              if m.Some? && SourcedMarkOf(s, h, m.value.date).Some? then
                var moved := SumBy(Filter(s.events, Between(m.value.date, asOf)), NativeOn(h.id));
                Known(m.value.amount + moved, m.value.date)
              else Unavailable
  {
    hide SourcedMarkOf, LatestMark, Filter, SumBy, Between, NativeOn;
  }

  lemma CashOnAlike(s: State, scope: Scope, hs: seq<Holding>, openings: map<string, LedgerReplay.Balance>,
                    h: Holding, asOf: int)
    requires Scoping(s, scope, hs, openings) && h in hs
    ensures CashOn(ScopedState(s, hs), h, asOf) == CashOn(s, h, asOf)
  {
    hide *;
    LatestAlike(s, hs, h, asOf);
    CashOnUnfold(s, h, asOf);
    CashOnUnfold(ScopedState(s, hs), h, asOf);
    var m := LatestMark(s.marks, h.id, asOf);
    if m.Some? {
      SourcedAlike(s, scope, hs, openings, h, m.value.date);
      MovementsAlike(s, scope, hs, openings, h, Between(m.value.date, asOf));
    }
  }

  lemma {:induction false} CashContributionsAlike(s: State, scope: Scope, hs: seq<Holding>,
                                                  openings: map<string, LedgerReplay.Balance>,
                                                  xs: seq<Holding>, q: Query)
    requires Scoping(s, scope, hs, openings) && forall h :: h in xs ==> h in hs
    ensures CashContributions(ScopedState(s, hs), xs, q) == CashContributions(s, xs, q)
    decreases |xs|
  {
    hide Scoping, ScopedState, CashOn;
    if |xs| > 0 {
      var h := xs[|xs| - 1];
      assert h in xs && forall x :: x in xs[..|xs| - 1] ==> x in xs;
      CashContributionsAlike(s, scope, hs, openings, xs[..|xs| - 1], q);
      CashOnAlike(s, scope, hs, openings, h, q.liquidityAsOf);
      ReviewAlike(s, hs, h);
    }
  }

  lemma LegAlike(s: State, hs: seq<Holding>, t: Tx, id: string, amount: int, q: Query)
    ensures OneLeg(ScopedState(s, hs), t, hs, id, amount, q) == OneLeg(s, t, hs, id, amount, q)
  {
    hide ScopedState;
    var k := FindHolding(hs, id);
    if k.Some? { ReviewAlike(s, hs, hs[k.value]); }
  }

  lemma TxContributionAlike(s: State, scope: Scope, hs: seq<Holding>, openings: map<string, LedgerReplay.Balance>,
                            t: Tx, q: Query)
    requires Scoping(s, scope, hs, openings) && t in s.transactions
    ensures TxKept(t, HoldingIds(hs)) ==> TxContributions(ScopedState(s, hs), t, hs, q) == TxContributions(s, t, hs, q)
    ensures !TxKept(t, HoldingIds(hs)) ==> TxContributions(s, t, hs, q) == []
  {
    ScopedFields(s, hs);
    hide Selects, TxsOk, EventsOwned, CoveragesOk, ScopedState, OneLeg, TxKept, StatusOf, Kept, FindHolding;
    if TxKept(t, HoldingIds(hs)) {
      assert t in KeptTxs(s, hs);
      StatusKept(s, scope, hs, t);
      LegAlike(s, hs, t, t.cashId, if Inflow(t.kind) then t.amount else 0 - t.amount as int, q);
      if t.destinationId.Some? { LegAlike(s, hs, t, t.destinationId.value, t.amount, q); }
    } else if FindHolding(hs, t.cashId).Some? {
      assert hs[FindHolding(hs, t.cashId).value] in hs;
      TxTogether(s, scope, hs, t, t.cashId);
      assert false;
    }
  }

  lemma {:induction false} ObligationsAlike(s: State, scope: Scope, hs: seq<Holding>,
                                            openings: map<string, LedgerReplay.Balance>, txs: seq<Tx>, q: Query)
    requires Scoping(s, scope, hs, openings) && forall t :: t in txs ==> t in s.transactions
    ensures ObligationContributions(ScopedState(s, hs), Filter(txs, KeptTx(HoldingIds(hs))), hs, q) ==
            ObligationContributions(s, txs, hs, q)
    decreases |txs|
  {
    if |txs| == 0 {
    } else {
      hide *;
      var front, t := txs[..|txs| - 1], txs[|txs| - 1];
      assert txs == front + [t];
      assert t in txs && forall x :: x in front ==> x in txs;
      ObligationsAlike(s, scope, hs, openings, front, q);
      TxContributionAlike(s, scope, hs, openings, t, q);
      KeptMeans(t, HoldingIds(hs));
      ObligationsSnoc(s, front, t, hs, q);
      KeptObligations(ScopedState(s, hs), front, t, KeptTx(HoldingIds(hs)), hs, q);
    }
  }

  lemma KeptObligations(s: State, txs: seq<Tx>, t: Tx, k: Tx -> bool, hs: seq<Holding>, q: Query)
    ensures ObligationContributions(s, Filter(txs + [t], k), hs, q) ==
            ObligationContributions(s, Filter(txs, k), hs, q) + (if k(t) then TxContributions(s, t, hs, q) else [])
  {
    hide *;
    FilterSnoc(txs, t, k);
    var kept := Filter(txs, k);
    if k(t) { ObligationsSnoc(s, kept, t, hs, q); } else { assert kept + [] == kept; }
  }

  lemma KeptMeans(t: Tx, ids: set<string>)
    ensures KeptTx(ids)(t) == TxKept(t, ids)
  {
  }

  lemma ObligationsSnoc(s: State, txs: seq<Tx>, t: Tx, hs: seq<Holding>, q: Query)
    ensures ObligationContributions(s, txs + [t], hs, q) ==
            ObligationContributions(s, txs, hs, q) + TxContributions(s, t, hs, q)
  {
    assert (txs + [t])[..|txs|] == txs;
  }

  lemma ContributionsAlike(s: State, scope: Scope, hs: seq<Holding>, openings: map<string, LedgerReplay.Balance>,
                           q: Query)
    requires Scoping(s, scope, hs, openings)
    ensures Contributions(ScopedState(s, hs), hs, q) == Contributions(s, hs, q)
  {
    ScopedFields(s, hs);
    hide Scoping, ScopedState, CashContributions, ObligationContributions;
    CashContributionsAlike(s, scope, hs, openings, hs, q);
    ObligationsAlike(s, scope, hs, openings, s.transactions, q);
  }

  // --- The report ----------------------------------------------------------------------------------------------

  lemma EvaluateAlike(s: State, scope: Scope, hs: seq<Holding>, openings: map<string, LedgerReplay.Balance>, q: Query)
    requires Scoping(s, scope, hs, openings)
    ensures Evaluate(ScopedState(s, hs), hs, q) == Evaluate(s, hs, q)
  {
    hide Scoping, ScopedState, Compose, RowsOf, FlowsOf, CashRowsOf, Covered, Contributions, HoldingIds, IsFlow;
    RowsAlike(s, scope, hs, openings, hs, q);
    FlowsAlike(s, scope, hs, openings, q);
    CashRowsAlike(s, scope, hs, openings, hs, q);
    CoveredAlike(s, scope, hs, openings, q);
    ContributionsAlike(s, scope, hs, openings, q);
  }

  /** Every entity named by the scope owns at least one holding. */
  ghost predicate EntitiesHold(s: State, scope: Scope) {
    scope.entityIds.Some? ==> forall id :: id in scope.entityIds.value ==>
          exists h :: h in s.holdings && h.entityId == id
  }

  lemma SelectionAlike(o: Office, scope: Scope, hs: seq<Holding>)
    requires ReportingHoldings(o, scope) == Ok(hs) && Selects(o.s, scope, hs) && EntitiesHold(o.s, scope)
    ensures ReportingHoldings(ScopedInputs(o, scope).value, scope) == Ok(hs)
  {
    var p := ScopedInputs(o, scope).value;
    ScopedFields(o.s, hs);
    hide ScopedState;
    FilterAll(hs, InScope(scope));
    if scope.entityIds.Some? {
      forall id | id in scope.entityIds.value ensures EntityKnown(p.s.entities, scope, id) {
        assert EntityKnown(o.s.entities, scope, id);
        EntityStillKnown(o, scope, hs, id);
      }
    }
  }

  lemma EntityStillKnown(o: Office, scope: Scope, hs: seq<Holding>, id: string)
    requires Selects(o.s, scope, hs) && EntitiesHold(o.s, scope) && scope.entityIds.Some? && id in scope.entityIds.value
    requires EntityKnown(o.s.entities, scope, id)
    ensures EntityKnown(Filter(o.s.entities, (e: Entity) => e.id in EntityIds(hs)), scope, id)
  {
    var e :| e in o.s.entities && e.id == id && e.familyId in scope.familyIds;
    var h :| h in o.s.holdings && h.entityId == id;
    var f :| f in o.s.entities && f.id == h.entityId && f.familyId == h.familyId;
    assert e == f && h in hs;
    InIds(hs, h);
  }

  /**
   In every reachable ledger, for every query whose selected entities each own a holding, the
   report from the scoped inputs is the report from the whole workspace.
   */
  lemma ScopeChangesNothing(o: Office, q: Query, today: int, openings: map<string, LedgerReplay.Balance>)
    requires Sound(o.s, openings) && RegisterOk(o.s) && EntitiesHold(o.s, q.scope)
    ensures ScopedInputs(o, q.scope).Ok? <==> ReportingHoldings(o, q.scope).Ok?
    ensures ScopedInputs(o, q.scope).Ok? ==>
              EvaluatePeriod(ScopedInputs(o, q.scope).value, q, today) == EvaluatePeriod(o, q, today)
  {
    SoundParts(o.s, openings);
    var selected := ReportingHoldings(o, q.scope);
    if selected.Ok? {
      var hs := selected.value;
      hide Sound, BooksOk, LivesInv, NoticesOk, DatesOk, HoldingsOk, TxsOk, LivesOk, EventsOwned, Replays,
           CoveragesOk, Evaluate, RegisterOk, EntitiesHold, ScopedState;
      assert Selects(o.s, q.scope, hs);
      SelectionAlike(o, q.scope, hs);
      EvaluateAlike(o.s, q.scope, hs, openings, q);
    }
  }

  /** The period and the liquidity window are acceptable. */
  predicate WindowsOk(q: Query, today: int) {
    && q.from < q.to <= today
    && q.liquidityAsOf <= today && q.liquidityAsOf <= q.liquidityThrough <= q.liquidityAsOf + 3660
  }

  /** A selected entity without a holding is dropped from the scoped register, which then refuses the query. */
  lemma EmptyEntityRefused(o: Office, q: Query, today: int)
    requires WindowsOk(q, today) && ReportingHoldings(o, q.scope).Ok? && !EntitiesHold(o.s, q.scope)
    ensures EvaluatePeriod(o, q, today).Ok? && ScopedInputs(o, q.scope).Ok?
    ensures EvaluatePeriod(ScopedInputs(o, q.scope).value, q, today) == Err(ScopeInvalid)
  {
    hide ScopedState, Evaluate, ReportingHoldings;
    var p := ScopedInputs(o, q.scope).value;
    var id := EmptyEntityUnknown(o, q.scope, p);
    UnknownRefused(p, q.scope, id);
  }

  lemma EmptyEntityUnknown(o: Office, scope: Scope, p: Office) returns (id: string)
    requires ScopedInputs(o, scope) == Ok(p) && !EntitiesHold(o.s, scope)
    ensures scope.entityIds.Some? && id in scope.entityIds.value && !EntityKnown(p.s.entities, scope, id)
  {
    var hs := ReportingHoldings(o, scope).value;
    id :| id in scope.entityIds.value && !exists h :: h in o.s.holdings && h.entityId == id;
    ScopedFields(o.s, hs);
    hide ScopedState;
  }

  lemma UnknownRefused(p: Office, scope: Scope, id: string)
    requires scope.entityIds.Some? && id in scope.entityIds.value && !EntityKnown(p.s.entities, scope, id)
    ensures ReportingHoldings(p, scope) == Err(ScopeInvalid)
  {
    hide EntityKnown;
  }

  /** For acceptable dates and a known scope, that is the one way the two reports can differ. */
  lemma ScopeChangesNothingExactly(o: Office, q: Query, today: int, openings: map<string, LedgerReplay.Balance>)
    requires Sound(o.s, openings) && RegisterOk(o.s) && WindowsOk(q, today) && ReportingHoldings(o, q.scope).Ok?
    ensures ScopedInputs(o, q.scope).Ok?
    ensures EvaluatePeriod(ScopedInputs(o, q.scope).value, q, today) == EvaluatePeriod(o, q, today) <==>
            EntitiesHold(o.s, q.scope)
  {
    hide *;
    if EntitiesHold(o.s, q.scope) {
      ScopeChangesNothing(o, q, today, openings);
    } else {
      EmptyEntityRefused(o, q, today);
    }
  }

  /** Such a query on a new office: the whole workspace reports, the scoped inputs refuse. */
  lemma EmptyEntityExample() returns (o: Office, q: Query)
    ensures Unrecorded(o.s) && RegisterOk(o.s)
    ensures EvaluatePeriod(o, q, 3).Ok? && ScopedInputs(o, q.scope).Ok?
    ensures EvaluatePeriod(ScopedInputs(o, q.scope).value, q, 3) == Err(ScopeInvalid)
  {
    var e := Entity("e", "f", "holding company");
    o := Office(["f"], State([], [], [], [], [e], [], map[], [], [], [], [], [], 0));
    q := Query(Scope(["f"], Some(["e"])), 1, 2, 1, 2, None);
    assert EntityKnown(o.s.entities, q.scope, "e");
    assert "e" in q.scope.entityIds.value;
    EmptyEntityRefused(o, q, 3);
  }

  // --- Runs ---------------------------------------------------------------------------------------

  /** What `RegisterKept` needs of a reachable world. */
  lemma SoundHoldings(s: State, openings: map<string, LedgerReplay.Balance>)
    requires Sound(s, openings)
    ensures HoldingsOk(s.holdings)
  {
    hide *;
    SoundParts(s, openings);
  }

  lemma {:induction false} RunsKeepRegister(s: State, inputs: seq<Input>)
    requires Unrecorded(s) && RegisterOk(s) && Admitted(World(s, OpeningsOf(s.holdings)), inputs)
    ensures RegisterOk(After(World(s, OpeningsOf(s.holdings)), inputs).state)
    decreases |inputs|
  {
    hide Sound, Unrecorded, RegisterOk, Step, OpeningsOf, Fresh, CommandOk, FxesOk, HoldingsOk;
    if |inputs| > 0 {
      var front, last := inputs[..|inputs| - 1], inputs[|inputs| - 1];
      RunsKeepRegister(s, front);
      RunsStaySound(s, front);
      var w := After(World(s, OpeningsOf(s.holdings)), front);
      SoundHoldings(w.state, w.openings);
      if Step(w.state, last.c, last.meta).Ok? { RegisterKept(w.state, last.c, last.meta); }
    }
  }

  /** After any run of commands, a scoped report is the report from the whole workspace. */
  lemma RunsReportAlike(families: seq<string>, s: State, inputs: seq<Input>, q: Query, today: int)
    requires Unrecorded(s) && RegisterOk(s) && Admitted(World(s, OpeningsOf(s.holdings)), inputs)
    requires EntitiesHold(After(World(s, OpeningsOf(s.holdings)), inputs).state, q.scope)
    ensures var o := Office(families, After(World(s, OpeningsOf(s.holdings)), inputs).state);
            && (ScopedInputs(o, q.scope).Ok? <==> ReportingHoldings(o, q.scope).Ok?)
            && (ScopedInputs(o, q.scope).Ok? ==>
                  EvaluatePeriod(ScopedInputs(o, q.scope).value, q, today) == EvaluatePeriod(o, q, today))
  {
    hide *;
    RunsStaySound(s, inputs);
    RunsKeepRegister(s, inputs);
    var w := After(World(s, OpeningsOf(s.holdings)), inputs);
    ScopeChangesNothing(Office(families, w.state), q, today, w.openings);
  }
}
