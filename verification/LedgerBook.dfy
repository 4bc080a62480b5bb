/**
 The ledger as one object (lib/ledger.ts): commands either change it as specified or leave it
 alone, and every run from a fresh workspace keeps all of its invariants.
 */
module LedgerBook {
  import opened Common
  import opened LedgerState
  import opened LedgerPosting
  import opened LedgerCommands
  import opened LedgerRuns
  import opened LedgerReplay
  import opened LedgerLives
  import opened LedgerNotices
  import opened LedgerReconciliation

  /** Balances in range, records in order and owned, notices honest, balances replayed, statements attested. */
  ghost predicate Sound(s: State, openings: map<string, Balance>) {
    && BooksOk(s) && LivesInv(s) && NoticesOk(s) && DatesOk(s) && Replays(s, openings) && CoveragesOk(s, openings)
  }

  /** A workspace whose holdings are in range and whose ledger has no records yet. */
  ghost predicate Unrecorded(s: State) {
    && HoldingsOk(s.holdings) && s.events == [] && s.marks == [] && s.transactions == [] && s.notices == []
       && s.coverage == []
  }

  function OpeningsOf(hs: seq<Holding>): map<string, Balance> {
    if |hs| == 0 then map[] else OpeningsOf(hs[..|hs| - 1])[hs[|hs| - 1].id := BalanceOf(hs[|hs| - 1])]
  }

  lemma {:induction false} OpeningsAre(hs: seq<Holding>)
    requires forall i, j :: 0 <= i < j < |hs| ==> hs[i].id != hs[j].id
    ensures forall h :: h in hs ==> h.id in OpeningsOf(hs) && OpeningsOf(hs)[h.id] == BalanceOf(h)
  {
    if |hs| > 0 {
      var front, last := hs[..|hs| - 1], hs[|hs| - 1];
      OpeningsAre(front);
      assert hs == front + [last];
      forall h | h in front ensures h.id != last.id {
        var i: nat :| i < |front| && front[i] == h;
        assert hs[i] == h;
      }
    }
  }

  lemma StartsSound(s: State)
    requires Unrecorded(s)
    ensures Sound(s, OpeningsOf(s.holdings))
  {
    OpeningsAre(s.holdings);
    forall id ensures Life(OfTx(s.events, id)) { }
    forall h | h in s.holdings
      ensures h.id in OpeningsOf(s.holdings)
           && BalanceOf(h) == Replay(OpeningsOf(s.holdings)[h.id], h.id, IsCash(h), s.events, s.marks) { }
  }

  lemma SoundParts(s: State, openings: map<string, Balance>)
    requires Sound(s, openings)
    ensures BooksOk(s) && LivesInv(s) && NoticesOk(s) && DatesOk(s) && Replays(s, openings) && CoveragesOk(s, openings)
    ensures HoldingsOk(s.holdings) && TimesOk(s) && TxsOk(s) && LivesOk(s.events) && EventsOwned(s)
  {
    hide HoldingsOk, TimesOk, NamesOk, TxsOk, LivesOk, EventsOwned, NoticesOk, DatesOk, Replays, CoveragesOk;
  }

  lemma RatesOk(s: State)
    requires TxsOk(s)
    ensures FxesOk(s)
  {
    hide LegsOwned, Convert;
    forall t | t in s.transactions ensures FxOk(t.fx) { assert TxOk(s.holdings, t); }
  }

  lemma SameCoverage(s: State, c: Command, meta: Meta)
    requires CommandOk(c) && FxesOk(s) && HoldingsOk(s.holdings) && Step(s, c, meta).Ok? && !c.Reconcile?
    ensures Step(s, c, meta).value.coverage == s.coverage
  {
    hide HoldingsOk, CreateHoldingStep, AcceptValuationStep, RecordValuationStep, SettleStep, ReverseStep, VoidStep,
         MoneyOk, FxOk, SourceOk, UnallocatedProblem, NoticeProblem, DuplicateProblem, FindNotice, FindHolding,
         FindAccount, AllocationProblem, RelatedTo, IsPrior, FindCashEvent, TxProblem, Convert, FindTx, Opens,
         Values, Posts, FirstEntity;
    match c
    case CreateHolding(_, _, _, _, _, _, _, _, _) =>
      var h, m := CreateShape(s, c, meta);
      OpensTransactions(s, Step(s, c, meta).value, h, m, meta);
    case AcceptValuation(v) => ValuationShape(s, v, meta); ValuesTransactions(s, Step(s, c, meta).value, meta);
    case RecordValuation(_, _, _, _, _, _, _) =>
      RecordedValuationShape(s, c, meta);
      ValuesTransactions(s, Step(s, c, meta).value, meta);
    case Settle(id, date, source) =>
      var k, e := SettleShape(s, id, date, source, meta);
      PostsTransactions(s, Step(s, c, meta).value, e, meta);
    case Reverse(id, date, source) =>
      var p, e := ReverseShape(s, id, date, source, meta);
      PostsTransactions(s, Step(s, c, meta).value, e, meta);
    case Void(id, source) =>
      var e := VoidShape(s, id, source, meta);
      PostsTransactions(s, Step(s, c, meta).value, e, meta);
    case _ =>
  }

  lemma StepIsReconcile(s: State, c: Command, meta: Meta)
    requires CommandOk(c) && FxesOk(s) && c.Reconcile? && Step(s, c, meta).Ok?
    ensures Step(s, c, meta) == ReconcileStep(s, c, meta)
  {
    hide ReconcileStep;
  }

  lemma OpeningsGrow(s: State, t: State, openings: map<string, Balance>, meta: Meta)
    requires Shaped(s, t, meta) && Fresh(s, meta) && HoldingsOk(s.holdings)
    requires Replays(s, openings)
    ensures forall h :: h in s.holdings ==>
              h.id in Opened(openings, s.holdings, t.holdings)
                  && Opened(openings, s.holdings, t.holdings)[h.id] == openings[h.id]
  {
    hide HoldingsOk, Replay, Marked, ApplyFirst, InBounds;
    if h, m :| Opens(s, t, h, m, meta) {
    } else if k: nat, m :| Values(s, t, k, m, meta) {
    } else if e :| Posts(s, t, e, meta) {
      AppliedLength(s, e, |e.postings|, meta.id + "-source");
    } else {
    }
  }

  lemma CoveragesKept(s: State, t: State, openings: map<string, Balance>, after: map<string, Balance>)
    requires CoveragesOk(s, openings) && s.events <= t.events && s.marks <= t.marks && Keeps(s.holdings, t.holdings)
    requires forall h :: h in s.holdings && h.id in openings ==> h.id in after && after[h.id] == openings[h.id]
    ensures forall c :: c in s.coverage ==> CoverageOk(t, after, c)
  {
    hide Keeps, RowHolds, TouchesAny;
    forall c | c in s.coverage ensures CoverageOk(t, after, c) {
      forall id | id in c.cashIds && id in openings ensures id in after && after[id] == openings[id] {
        assert At(s.holdings, id).Some?;
        assert s.holdings[FindHolding(s.holdings, id).value] in s.holdings;
      }
      hide CoverageOk, At;
      AttestationStays(s, t, openings, after, c);
    }
  }

  lemma CoverageStep(s: State, openings: map<string, Balance>, c: Command, meta: Meta)
    requires CommandOk(c) && FxesOk(s) && Fresh(s, meta) && BooksOk(s) && HoldingsOk(s.holdings) && DatesOk(s)
    requires Replays(s, openings) && CoveragesOk(s, openings) && Step(s, c, meta).Ok?
    ensures var t := Step(s, c, meta).value;
            CoveragesOk(t, Opened(openings, s.holdings, t.holdings))
  {
    hide *;
    var t := Step(s, c, meta).value;
    var after := Opened(openings, s.holdings, t.holdings);
    StepShape(s, c, meta);
    BooksKept(s, t, meta);
    OpeningsGrow(s, t, openings, meta);
    CoveragesKept(s, t, openings, after);
    if c.Reconcile? {
      StepIsReconcile(s, c, meta);
      var row := ReconcileShape(s, c, meta);
      RecordedHolds(s, row, openings);
      AttestedSnoc(s, t, openings, after, row);
    } else {
      SameCoverage(s, c, meta);
      AllAttested(t, after);
    }
  }

  lemma AllAttested(t: State, openings: map<string, Balance>)
    requires forall c :: c in t.coverage ==> CoverageOk(t, openings, c)
    ensures CoveragesOk(t, openings)
  {
    hide CoverageOk;
  }

  lemma AttestedSnoc(s: State, t: State, openings: map<string, Balance>, after: map<string, Balance>, row: Coverage)
    requires t.coverage == s.coverage + [row] && t.holdings == s.holdings && t.events == s.events && t.marks == s.marks
    requires after == Opened(openings, s.holdings, t.holdings)
    requires (forall c :: c in s.coverage ==> CoverageOk(t, after, c)) && CoverageOk(s, openings, row)
    ensures CoveragesOk(t, after)
  {
    hide RowHolds, TouchesAny, At;
    assert after == openings;
    forall b | b in row.closing ensures RowHolds(t, after, row, b) { SameRow(s, t, openings, row, b); }
  }

  lemma SameRow(s: State, t: State, openings: map<string, Balance>, row: Coverage, b: ClosingBalance)
    requires t.events == s.events && t.marks == s.marks && row.eventCount <= |s.events| && row.markCount <= |s.marks|
    requires RowHolds(s, openings, row, b)
    ensures RowHolds(t, openings, row, b)
  {
    hide Replay;
  }

  /** Every accepted command keeps the whole invariant. */
  lemma StepKeepsSound(s: State, openings: map<string, Balance>, c: Command, meta: Meta)
    requires CommandOk(c) && Fresh(s, meta) && Sound(s, openings)
    ensures FxesOk(s)
    ensures Step(s, c, meta).Ok? ==>
              var t := Step(s, c, meta).value;
              Sound(t, Opened(openings, s.holdings, t.holdings)) && Keeps(s.holdings, t.holdings)
  {
    hide *;
    SoundParts(s, openings);
    RatesOk(s);
    if Step(s, c, meta).Ok? {
      var t := Step(s, c, meta).value;
      StepShape(s, c, meta);
      BooksKept(s, t, meta);
      TxsKept(s, c, meta);
      LivesKept(s, c, meta);
      OwnedKept(s, c, meta);
      NoticesKept(s, c, meta);
      DatesKept(s, t, meta);
      StepReplays(s, t, meta, openings);
      CoverageStep(s, openings, c, meta);
      Assemble(t, Opened(openings, s.holdings, t.holdings));
    }
  }

  lemma Assemble(t: State, openings: map<string, Balance>)
    requires BooksOk(t) && TxsOk(t) && LivesOk(t.events) && EventsOwned(t) && NoticesOk(t) && DatesOk(t)
    requires Replays(t, openings) && CoveragesOk(t, openings)
    ensures Sound(t, openings)
  {
    hide BooksOk, TxsOk, LivesOk, EventsOwned, NoticesOk, DatesOk, Replays, CoveragesOk;
  }

  // --- Runs ---------------------------------------------------------------------------------------

  datatype Input = Input(c: Command, meta: Meta)

  /** The ledger together with the balance each holding first had. */
  datatype World = World(state: State, openings: map<string, Balance>)

  ghost predicate Admissible(w: World, i: Input) { CommandOk(i.c) && Fresh(w.state, i.meta) && FxesOk(w.state) }

  function Next(w: World, i: Input): World
    requires CommandOk(i.c) && FxesOk(w.state)
  {
    var r := Step(w.state, i.c, i.meta);
    if r.Err? then w else World(r.value, Opened(w.openings, w.state.holdings, r.value.holdings))
  }

  /** Each input in turn has a fresh identity and a later time than anything recorded before it. */
  ghost predicate Admitted(start: World, inputs: seq<Input>)
    decreases |inputs|, 0
  {
    |inputs| == 0 || (Admitted(start, inputs[..|inputs| - 1])
                      && Admissible(After(start, inputs[..|inputs| - 1]), inputs[|inputs| - 1]))
  }

  /** The world after a run of commands, accepted or refused. */
  ghost function After(start: World, inputs: seq<Input>): World
    requires Admitted(start, inputs)
    decreases |inputs|, 1
  {
    if |inputs| == 0 then start else Next(After(start, inputs[..|inputs| - 1]), inputs[|inputs| - 1])
  }

  /** Every reachable ledger is sound, whatever was commanded. */
  lemma {:induction false} RunsStaySound(s: State, inputs: seq<Input>)
    requires Unrecorded(s) && Admitted(World(s, OpeningsOf(s.holdings)), inputs)
    ensures var after := After(World(s, OpeningsOf(s.holdings)), inputs);
            Sound(after.state, after.openings) && Keeps(s.holdings, after.state.holdings)
    decreases |inputs|
  {
    hide Sound, Unrecorded, Step, Keeps, OpeningsOf, Fresh, CommandOk, FxesOk;
    if |inputs| == 0 {
      StartsSound(s);
      KeepsSelf(s.holdings);
    } else {
      var front, last := inputs[..|inputs| - 1], inputs[|inputs| - 1];
      RunsStaySound(s, front);
      var w := After(World(s, OpeningsOf(s.holdings)), front);
      StepKeepsSound(w.state, w.openings, last.c, last.meta);
      if Step(w.state, last.c, last.meta).Ok? {
        KeepsTransitive(s.holdings, w.state.holdings, Next(w, last).state.holdings);
      }
    }
  }

  lemma KeepsSelf(hs: seq<Holding>)
    ensures Keeps(hs, hs)
  {
  }

  // --- Main results over runs ------------------------------------------------------------------------

  /** Cost and commitment are the opening plus all postings; amounts stay between zero and one trillion. */
  lemma ReachableBalances(s: State, openings: map<string, Balance>, h: Holding)
    requires Sound(s, openings) && h in s.holdings
    ensures h.id in openings && InBounds(h)
    ensures h.cost == openings[h.id].cost + MovedAll(s.events, h.id).cost
    ensures h.commitment == openings[h.id].commitment + MovedAll(s.events, h.id).commitment
  {
    SoundParts(s, openings);
    assert HoldingOk(h);
    hide Sound, Replay, BooksOk, LivesInv, NoticesOk, DatesOk, CoveragesOk;
    CostIsOpeningPlusPostings(openings[h.id], h.id, IsCash(h), s.events, s.marks);
  }

  /** Native amount and EUR value are the last applied mark plus the postings recorded since. */
  lemma ReachableValue(s: State, openings: map<string, Balance>, h: Holding) returns (i: Option<nat>)
    requires Sound(s, openings) && h in s.holdings
    ensures h.id in openings && IsLastApplied(openings[h.id], h.id, IsCash(h), s.events, s.marks, i)
    ensures StandsOn(BalanceOf(h), openings[h.id], h.id, s.events, s.marks, i)
  {
    SoundParts(s, openings);
    hide Sound, Replay, BooksOk, LivesInv, NoticesOk, DatesOk, CoveragesOk, HoldingsOk, TxsOk, LivesOk, EventsOwned,
         IsLastApplied, StandsOn;
    i := BalanceIsMarkPlusPostings(openings[h.id], h.id, IsCash(h), s.events, s.marks);
  }

  /** While a reconciliation is current, every closing balance is reproduced by the records dated by its end. */
  lemma ReachableStatements(s: State, openings: map<string, Balance>, c: Coverage, b: ClosingBalance)
    requires Sound(s, openings) && c in s.coverage && b in c.closing
    ensures c.eventCount <= |s.events| && c.markCount <= |s.marks|
    ensures CoverageCurrent(s, c) ==>
              b.holdingId in openings
              && var r := Within(openings[b.holdingId], b.holdingId, s.events, s.marks, c.to);
              r.native == b.native && r.value == b.value
  {
    SoundParts(s, openings);
    assert CoverageOk(s, openings, c);
    hide Sound, BooksOk, LivesInv, NoticesOk, DatesOk, HoldingsOk, TxsOk, LivesOk, EventsOwned, Replays,
         CoverageCurrent, Within, RowHolds;
    if CoverageCurrent(s, c) { CurrentReproducesStatement(s, openings, c, b); }
  }

  // --- The object --------------------------------------------------------------------------------------

  class Ledger {
    var state: State
    ghost var openings: map<string, Balance>

    ghost predicate Valid()
      reads this
    {
      Sound(state, openings)
    }

    constructor (initial: State)
      requires Unrecorded(initial)
      ensures Valid() && state == initial && openings == OpeningsOf(initial.holdings)
    {
      StartsSound(initial);
      state := initial;
      openings := OpeningsOf(initial.holdings);
    }

    /** A command takes effect as specified, or fails without effect. */
    method Apply(c: Command, meta: Meta) returns (failure: Option<LedgerError>)
      requires Valid() && CommandOk(c) && Fresh(state, meta)
      modifies this
      ensures FxesOk(old(state))
      ensures var r := Step(old(state), c, meta);
              && failure == (if r.Ok? then None else Some(r.error))
              && state == (if r.Ok? then r.value else old(state))
      ensures Valid()
      ensures openings == Opened(old(openings), old(state.holdings), state.holdings)
    {
      hide Sound, Step, Fresh, CommandOk, FxesOk, Keeps, Opened;
      StepKeepsSound(state, openings, c, meta);
      var r := Outcome(state, c, meta);
      if r.Err? {
        OpenedSame(openings, state.holdings);
        return Some(r.error);
      }
      openings := Opened(openings, state.holdings, r.value.holdings);
      state := r.value;
      return None;
    }
  }

  lemma OpenedSame(openings: map<string, Balance>, hs: seq<Holding>)
    ensures Opened(openings, hs, hs) == openings
  {
  }

  /** The next state, with settlements and reversals posted one leg at a time on a private copy. */
  method Outcome(s: State, c: Command, meta: Meta) returns (r: Result<State, LedgerError>)
    requires CommandOk(c) && FxesOk(s)
    ensures r == Step(s, c, meta)
  {
    hide SettleDecision, ReverseDecision, PostEvent;
    var open := meta.id != "" && meta.actorId != "" && |s.transactions| < MAX_TRANSACTIONS && |s.events| < MAX_EVENTS
                && |s.coverage| < MAX_COVERAGE;
    if open && c.Settle? {
      r := DecidedOutcome(s, SettleDecision(s, c.txId, c.date, c.source, meta), meta);
    } else if open && c.Reverse? {
      r := DecidedOutcome(s, ReverseDecision(s, c.txId, c.date, c.source, meta), meta);
    } else {
      r := Step(s, c, meta);
    }
  }

  method DecidedOutcome(s: State, d: Result<(Tx, Event), LedgerError>, meta: Meta)
    returns (r: Result<State, LedgerError>)
    ensures r == if d.Err? then Err(d.error) else PostEvent(s, d.value.0, d.value.1, meta)
  {
    if d.Err? { return Err(d.error); }
    hide ApplyFirst;
    var e := d.value.1;
    var cash := PayingCash(s, d.value.0, e.source);
    if cash.Err? { return Err(cash.error); }
    var posted := ApplyPostings(WithEvidence(s, cash.value, meta), e, meta.id + "-source");
    if posted.Err? { return posted; }
    return Ok(Bump(posted.value.(events := posted.value.events + [e])));
  }
}
