/**
 Replaying the ledger's records: in every reachable state each balance is its opening,
 its latest applied mark, and the postings since (lib/ledger.ts, `applyPostings`,
 `postReviewedValuation`).
 */
module LedgerReplay {
  import opened Common
  import opened LedgerState
  import opened LedgerPosting
  import opened LedgerCommands
  import opened LedgerRuns

  datatype Balance = Balance(native: int, value: int, commitment: int, cost: int, date: int)

  function BalanceOf(h: Holding): Balance { Balance(h.native, h.value, h.commitment, h.cost, h.markDate) }

  datatype Delta = Delta(native: int, value: int, commitment: int, cost: int)

  function Plus(a: Delta, b: Delta): Delta {
    Delta(a.native + b.native, a.value + b.value, a.commitment + b.commitment, a.cost + b.cost)
  }

  const ZERO := Delta(0, 0, 0, 0)

  function DeltaOf(p: Posting, id: string): Delta {
    if p.holdingId == id then Delta(p.native, p.value, p.commitment, p.cost) else ZERO
  }

  /** What a list of postings moves on one holding. */
  function Moved(ps: seq<Posting>, id: string): Delta {
    if |ps| == 0 then ZERO else Plus(Moved(ps[..|ps| - 1], id), DeltaOf(ps[|ps| - 1], id))
  }

  predicate Names(ps: seq<Posting>, id: string) { exists p :: p in ps && p.holdingId == id }

  function Move(b: Balance, d: Delta): Balance {
    Balance(b.native + d.native, b.value + d.value, b.commitment + d.commitment, b.cost + d.cost, b.date)
  }

  /** Cash carries the date of its last posting; an investment keeps that of its mark. */
  function PostTo(b: Balance, id: string, cash: bool, ps: seq<Posting>, date: int): Balance {
    Move(b, Moved(ps, id)).(date := if cash && Names(ps, id) then date else b.date)
  }

  function MarkTo(b: Balance, id: string, m: Mark): Balance {
    if m.holdingId == id && b.date <= m.date then Balance(m.amount, m.value, b.commitment, b.cost, m.date) else b
  }

  /** Events and marks merged by the time they were recorded. */
  function Replay(start: Balance, id: string, cash: bool, events: seq<Event>, marks: seq<Mark>): Balance
    decreases |events| + |marks|
  {
    if |events| == 0 && |marks| == 0 then start
    else if |marks| == 0 || (|events| > 0 && events[|events| - 1].at > marks[|marks| - 1].at) then
      var e := events[|events| - 1];
      PostTo(Replay(start, id, cash, events[..|events| - 1], marks), id, cash, e.postings, e.date)
    else
      MarkTo(Replay(start, id, cash, events, marks[..|marks| - 1]), id, marks[|marks| - 1])
  }

  lemma ReplayEvent(start: Balance, id: string, cash: bool, events: seq<Event>, marks: seq<Mark>, e: Event)
    requires forall m :: m in marks ==> m.at < e.at
    ensures Replay(start, id, cash, events + [e], marks) ==
            PostTo(Replay(start, id, cash, events, marks), id, cash, e.postings, e.date)
  {
    hide PostTo, MarkTo;
    assert (events + [e])[..|events|] == events;
    if |marks| > 0 { assert marks[|marks| - 1] in marks; }
  }

  lemma ReplayMark(start: Balance, id: string, cash: bool, events: seq<Event>, marks: seq<Mark>, m: Mark)
    requires forall e :: e in events ==> e.at < m.at
    ensures Replay(start, id, cash, events, marks + [m]) == MarkTo(Replay(start, id, cash, events, marks), id, m)
  {
    hide PostTo, MarkTo;
    assert (marks + [m])[..|marks|] == marks;
    if |events| > 0 { assert events[|events| - 1] in events; }
  }

  // --- One step replays ------------------------------------------------------------------------

  lemma PostToSnoc(b: Balance, id: string, cash: bool, ps: seq<Posting>, p: Posting, date: int)
    ensures PostTo(b, id, cash, ps + [p], date) ==
            Move(PostTo(b, id, cash, ps, date), DeltaOf(p, id)).(
              date := if cash && p.holdingId == id then date else PostTo(b, id, cash, ps, date).date)
  {
    assert (ps + [p])[..|ps|] == ps;
    assert Names(ps + [p], id) <==> Names(ps, id) || p.holdingId == id by {
      if Names(ps, id) {
        var q :| q in ps && q.holdingId == id;
        assert q in ps + [p];
      }
      if p.holdingId == id { assert p in ps + [p]; }
    }
  }

  predicate IsCash(h: Holding) { h.assetClass == Cash }

  lemma PostedBalance(h: Holding, date: int, p: Posting, sourceId: string)
    requires p.holdingId == h.id
    ensures BalanceOf(Posted(h, date, p, sourceId)) ==
            Move(BalanceOf(h), DeltaOf(p, h.id)).(date := if IsCash(h) then date else h.markDate)
  {
  }

  lemma AppliedLength(s: State, e: Event, n: nat, sourceId: string)
    requires HoldingsOk(s.holdings) && n <= |e.postings| && ApplyFirst(s, e, n, sourceId).Ok?
    ensures |ApplyFirst(s, e, n, sourceId).value.holdings| == |s.holdings|
    ensures HoldingsOk(ApplyFirst(s, e, n, sourceId).value.holdings)
    ensures forall i :: 0 <= i < |s.holdings| ==>
              SameIdentity(s.holdings[i], ApplyFirst(s, e, n, sourceId).value.holdings[i])
  {
    hide ApplyFirst, HoldingsOk, SameIdentity;
    ApplyKeeps(s, e, n, sourceId);
  }

  /** Applying the first `n` postings of an event moves every balance by exactly those postings. */
  lemma {:induction false} ApplyReplays(s: State, e: Event, n: nat, sourceId: string, i: nat)
    requires HoldingsOk(s.holdings) && n <= |e.postings| && ApplyFirst(s, e, n, sourceId).Ok? && i < |s.holdings|
    ensures |ApplyFirst(s, e, n, sourceId).value.holdings| == |s.holdings|
    ensures BalanceOf(ApplyFirst(s, e, n, sourceId).value.holdings[i]) ==
            PostTo(BalanceOf(s.holdings[i]), s.holdings[i].id, IsCash(s.holdings[i]), e.postings[..n], e.date)
    decreases n
  {
    hide *;
    AppliedLength(s, e, n, sourceId);
    if n > 0 {
      ApplyUnfolds(s, e, n, sourceId);
      var before := ApplyFirst(s, e, n - 1, sourceId).value;
      AppliedLength(s, e, n - 1, sourceId);
      ApplyReplays(s, e, n - 1, sourceId, i);
      ReplayNext(s, before, e, n, sourceId, i);
    } else {
      ApplyNone(s, e, sourceId);
      PostNothing(BalanceOf(s.holdings[i]), s.holdings[i].id, IsCash(s.holdings[i]), e.date);
      assert e.postings[..0] == [];
    }
  }

  lemma PostNothing(b: Balance, id: string, cash: bool, date: int)
    ensures PostTo(b, id, cash, [], date) == b
  {
  }

  lemma ReplayNext(s: State, before: State, e: Event, n: nat, sourceId: string, i: nat)
    requires HoldingsOk(before.holdings) && 0 < n <= |e.postings| && i < |s.holdings| == |before.holdings|
    requires SameIdentity(s.holdings[i], before.holdings[i])
    requires PostOne(before, e, e.postings[n - 1], IsFirst(e, e.postings[n - 1]), sourceId).Ok?
    requires BalanceOf(before.holdings[i]) ==
             PostTo(BalanceOf(s.holdings[i]), s.holdings[i].id, IsCash(s.holdings[i]), e.postings[..n - 1], e.date)
    ensures var t := PostOne(before, e, e.postings[n - 1], IsFirst(e, e.postings[n - 1]), sourceId).value;
            && |t.holdings| == |s.holdings|
            && BalanceOf(t.holdings[i]) ==
               PostTo(BalanceOf(s.holdings[i]), s.holdings[i].id, IsCash(s.holdings[i]), e.postings[..n], e.date)
  {
    hide PostOne, HoldingsOk, IsFirst, PostTo, DeltaOf;
    assert e.postings[..n] == e.postings[..n - 1] + [e.postings[n - 1]];
    PostToSnoc(BalanceOf(s.holdings[i]), s.holdings[i].id, IsCash(s.holdings[i]), e.postings[..n - 1],
               e.postings[n - 1], e.date);
    ReplayOne(before, e, e.postings[n - 1], IsFirst(e, e.postings[n - 1]), sourceId, i);
  }

  lemma ReplayOne(s: State, e: Event, p: Posting, first: bool, sourceId: string, i: nat)
    requires HoldingsOk(s.holdings) && PostOne(s, e, p, first, sourceId).Ok? && i < |s.holdings|
    ensures var t := PostOne(s, e, p, first, sourceId).value;
            && |t.holdings| == |s.holdings|
            && BalanceOf(t.holdings[i]) ==
               Move(BalanceOf(s.holdings[i]), DeltaOf(p, s.holdings[i].id)).(
                 date := if IsCash(s.holdings[i]) && p.holdingId == s.holdings[i].id then e.date
                         else s.holdings[i].markDate)
  {
    PostOneKeeps(s, e, p, first, sourceId);
    hide PostOne;
    var k := FindHolding(s.holdings, p.holdingId).value;
    if i == k { PostedBalance(s.holdings[k], e.date, p, sourceId); }
  }

  /** Every holding is its opening, replayed. */
  ghost predicate Replays(s: State, openings: map<string, Balance>) {
    forall h :: h in s.holdings ==>
      h.id in openings && BalanceOf(h) == Replay(openings[h.id], h.id, IsCash(h), s.events, s.marks)
  }

  /** A new holding opens at its first recorded balance. */
  function Opened(openings: map<string, Balance>, before: seq<Holding>, after: seq<Holding>): map<string, Balance> {
    if |after| > |before| then openings[after[|after| - 1].id := BalanceOf(after[|after| - 1])] else openings
  }

  /** Records that never name the holding leave its opening alone. */
  lemma {:induction false} ReplayUntouched(start: Balance, id: string, cash: bool, events: seq<Event>, marks: seq<Mark>)
    requires forall e :: e in events ==> !Names(e.postings, id)
    requires forall m :: m in marks ==> m.holdingId != id
    ensures Replay(start, id, cash, events, marks) == start
    decreases |events| + |marks|
  {
    if |events| == 0 && |marks| == 0 {
    } else if |marks| == 0 || (|events| > 0 && events[|events| - 1].at > marks[|marks| - 1].at) {
      var e := events[|events| - 1];
      assert e in events;
      ReplayUntouched(start, id, cash, events[..|events| - 1], marks);
      NothingMoved(e.postings, id);
    } else {
      assert marks[|marks| - 1] in marks;
      ReplayUntouched(start, id, cash, events, marks[..|marks| - 1]);
    }
  }

  lemma {:induction false} NothingMoved(ps: seq<Posting>, id: string)
    requires !Names(ps, id)
    ensures Moved(ps, id) == ZERO
  {
    if |ps| > 0 {
      var front := ps[..|ps| - 1];
      assert ps[|ps| - 1] in ps && forall p :: p in front ==> p in ps;
      NothingMoved(front, id);
    }
  }

  lemma OpensReplays(s: State, t: State, h: Holding, m: Mark, meta: Meta, openings: map<string, Balance>)
    requires BooksOk(s) && Fresh(s, meta) && Opens(s, t, h, m, meta) && Replays(s, openings)
    ensures Replays(t, openings[h.id := BalanceOf(h)])
  {
    hide HoldingsOk, TimesOk, InBounds;
    var next := openings[h.id := BalanceOf(h)];
    forall e | e in s.events ensures !Names(e.postings, h.id) {
      forall p | p in e.postings ensures p.holdingId != h.id { FoundIsOther(s.holdings, p.holdingId, h.id); }
    }
    forall x | x in s.marks ensures x.holdingId != h.id { FoundIsOther(s.holdings, x.holdingId, h.id); }
    hide Replay;
    forall x | x in t.holdings
      ensures x.id in next && BalanceOf(x) == Replay(next[x.id], x.id, IsCash(x), t.events, t.marks)
    {
      ReplayMark(next[x.id], x.id, IsCash(x), s.events, s.marks, m);
      if x !in s.holdings { ReplayUntouched(BalanceOf(h), h.id, IsCash(h), s.events, s.marks); }
    }
  }

  lemma FoundIsOther(hs: seq<Holding>, id: string, newId: string)
    requires FindHolding(hs, id).Some? && forall h :: h in hs ==> h.id != newId
    ensures id != newId
  {
    assert hs[FindHolding(hs, id).value] in hs;
  }

  lemma ValuesReplays(s: State, t: State, k: nat, m: Mark, meta: Meta, openings: map<string, Balance>)
    requires BooksOk(s) && Fresh(s, meta) && Values(s, t, k, m, meta) && Replays(s, openings)
    ensures Replays(t, openings)
  {
    hide TimesOk, NamesOk, InBounds, Replay, HoldingOk;
    forall x | x in t.holdings
      ensures x.id in openings && BalanceOf(x) == Replay(openings[x.id], x.id, IsCash(x), t.events, t.marks)
    {
      var i: nat :| i < |t.holdings| && t.holdings[i] == x;
      var h := s.holdings[i];
      assert h in s.holdings && s.holdings[k] in s.holdings;
      ReplayMark(openings[h.id], h.id, IsCash(h), s.events, s.marks, m);
    }
  }

  lemma PostsReplays(s: State, t: State, e: Event, meta: Meta, openings: map<string, Balance>)
    requires BooksOk(s) && Fresh(s, meta) && Posts(s, t, e, meta) && Replays(s, openings)
    ensures Replays(t, openings)
  {
    ApplyKeeps(s, e, |e.postings|, meta.id + "-source");
    hide TimesOk, NamesOk, HoldingsOk, Replay, ApplyFirst;
    assert e.postings[..|e.postings|] == e.postings;
    forall x | x in t.holdings
      ensures x.id in openings && BalanceOf(x) == Replay(openings[x.id], x.id, IsCash(x), t.events, t.marks)
    {
      var i: nat :| i < |t.holdings| && t.holdings[i] == x;
      var h := s.holdings[i];
      assert h in s.holdings && SameIdentity(h, x);
      ApplyReplays(s, e, |e.postings|, meta.id + "-source", i);
      ReplayEvent(openings[h.id], h.id, IsCash(h), s.events, s.marks, e);
    }
  }

  /** Every step of every kind keeps balances equal to their replayed records. */
  lemma StepReplays(s: State, t: State, meta: Meta, openings: map<string, Balance>)
    requires BooksOk(s) && Fresh(s, meta) && Shaped(s, t, meta) && Replays(s, openings)
    ensures Replays(t, Opened(openings, s.holdings, t.holdings))
  {
    hide BooksOk, Fresh, Replays, Marked, ApplyFirst, InBounds;
    if h, m :| Opens(s, t, h, m, meta) {
      OpensReplays(s, t, h, m, meta, openings);
    } else if k: nat, m :| Values(s, t, k, m, meta) {
      ValuesReplays(s, t, k, m, meta, openings);
    } else if e :| Posts(s, t, e, meta) {
      assert HoldingsOk(s.holdings) by { BooksHoldings(s); }
      ApplyKeeps(s, e, |e.postings|, meta.id + "-source");
      PostsReplays(s, t, e, meta, openings);
    } else {
      QuietReplays(s, t, openings);
    }
  }

  lemma BooksHoldings(s: State)
    requires BooksOk(s)
    ensures HoldingsOk(s.holdings)
  {
  }

  lemma QuietReplays(s: State, t: State, openings: map<string, Balance>)
    requires Quiet(s, t) && Replays(s, openings)
    ensures Replays(t, openings)
  {
  }

  // --- What a replay amounts to --------------------------------------------------------------------

  /** All postings on the holding, of every event. */
  function MovedAll(events: seq<Event>, id: string): Delta {
    if |events| == 0 then ZERO else Plus(MovedAll(events[..|events| - 1], id), Moved(events[|events| - 1].postings, id))
  }

  /** Postings of events recorded after an instant. */
  function MovedAfter(events: seq<Event>, id: string, at: int): Delta {
    if |events| == 0 then ZERO
    else
      var front, last := MovedAfter(events[..|events| - 1], id, at), events[|events| - 1];
      if last.at > at then Plus(front, Moved(last.postings, id)) else front
  }

  /** Events recorded before an instant. */
  function Until(events: seq<Event>, at: int): seq<Event> {
    if |events| == 0 || events[|events| - 1].at < at then events else Until(events[..|events| - 1], at)
  }

  /** The mark was older than what the balance then stood on, so it only joined the record. */
  ghost predicate Skipped(start: Balance, id: string, cash: bool, events: seq<Event>, marks: seq<Mark>, j: nat)
    requires j < |marks|
  {
    marks[j].date < Replay(start, id, cash, Until(events, marks[j].at), marks[..j]).date
  }

  ghost predicate Increasing(events: seq<Event>, marks: seq<Mark>) {
    && (forall i, j :: 0 <= i < j < |events| ==> events[i].at < events[j].at)
    && (forall i, j :: 0 <= i < j < |marks| ==> marks[i].at < marks[j].at)
    && (forall e, m :: e in events && m in marks ==> e.at != m.at)
  }

  /** Book cost and commitment: the opening plus every posting ever made. */
  lemma {:induction false} CostIsOpeningPlusPostings(start: Balance, id: string, cash: bool, events: seq<Event>,
                                                     marks: seq<Mark>)
    ensures Replay(start, id, cash, events, marks).cost == start.cost + MovedAll(events, id).cost
    ensures Replay(start, id, cash, events, marks).commitment == start.commitment + MovedAll(events, id).commitment
    decreases |events| + |marks|
  {
    hide Moved, Names;
    if |events| == 0 && |marks| == 0 {
    } else if |marks| == 0 || (|events| > 0 && events[|events| - 1].at > marks[|marks| - 1].at) {
      CostIsOpeningPlusPostings(start, id, cash, events[..|events| - 1], marks);
    } else {
      CostIsOpeningPlusPostings(start, id, cash, events, marks[..|marks| - 1]);
    }
  }

  /** The last mark that was applied, if any. */
  ghost predicate IsLastApplied(start: Balance, id: string, cash: bool, events: seq<Event>, marks: seq<Mark>,
                                i: Option<nat>) {
    && (i.Some? ==>
          i.value < |marks| && marks[i.value].holdingId == id && !Skipped(start, id, cash, events, marks, i.value))
    && (forall j: nat :: j < |marks| && (i.Some? ==> i.value < j) && marks[j].holdingId == id ==>
          Skipped(start, id, cash, events, marks, j))
  }

  ghost predicate StandsOn(b: Balance, start: Balance, id: string, events: seq<Event>, marks: seq<Mark>, i: Option<nat>)
  {
    if i.Some? && i.value < |marks| then
      var since := MovedAfter(events, id, marks[i.value].at);
      b.native == marks[i.value].amount + since.native && b.value == marks[i.value].value + since.value
    else
      var moved := MovedAll(events, id);
      b.native == start.native + moved.native && b.value == start.value + moved.value
  }

  lemma LaterEventKeeps(start: Balance, id: string, cash: bool, events: seq<Event>, marks: seq<Mark>, i: Option<nat>)
    requires |events| > 0 && Increasing(events, marks) && forall m :: m in marks ==> m.at < events[|events| - 1].at
    requires IsLastApplied(start, id, cash, events[..|events| - 1], marks, i)
    ensures IsLastApplied(start, id, cash, events, marks, i)
  {
    hide Replay;
    forall j: nat | j < |marks|
      ensures Skipped(start, id, cash, events, marks, j) <==> Skipped(start, id, cash, events[..|events| - 1], marks, j)
    {
      assert marks[j] in marks;
    }
  }

  lemma LaterMarkKeeps(start: Balance, id: string, cash: bool, events: seq<Event>, marks: seq<Mark>, j: nat)
    requires |marks| > 0 && j < |marks| - 1
    ensures Skipped(start, id, cash, events, marks, j) <==> Skipped(start, id, cash, events, marks[..|marks| - 1], j)
  {
    assert marks[..|marks| - 1][..j] == marks[..j];
  }

  lemma {:induction false} AllBefore(events: seq<Event>, id: string, at: int)
    requires forall e :: e in events ==> e.at < at
    ensures Until(events, at) == events && MovedAfter(events, id, at) == ZERO
  {
    if |events| > 0 {
      assert events[|events| - 1] in events;
      AllBefore(events[..|events| - 1], id, at);
    }
  }

  lemma EventStands(start: Balance, id: string, cash: bool, events: seq<Event>, marks: seq<Mark>, i: Option<nat>)
    requires |events| > 0 && Increasing(events, marks)
    requires |marks| == 0 || events[|events| - 1].at > marks[|marks| - 1].at
    requires i.Some? ==> i.value < |marks|
    requires StandsOn(Replay(start, id, cash, events[..|events| - 1], marks), start, id, events[..|events| - 1],
                      marks, i)
    ensures StandsOn(Replay(start, id, cash, events, marks), start, id, events, marks, i)
  {
    hide Increasing, Moved, Names;
    if i.Some? {
      assert marks[i.value] in marks;
      LastIsLatest(events, marks, marks[i.value]);
    }
  }

  lemma MarkStands(start: Balance, id: string, cash: bool, events: seq<Event>, marks: seq<Mark>, i: Option<nat>)
    returns (k: Option<nat>)
    requires |marks| > 0 && Increasing(events, marks)
    requires |events| == 0 || events[|events| - 1].at <= marks[|marks| - 1].at
    requires IsLastApplied(start, id, cash, events, marks[..|marks| - 1], i)
    requires StandsOn(Replay(start, id, cash, events, marks[..|marks| - 1]), start, id, events, marks[..|marks| - 1], i)
    ensures IsLastApplied(start, id, cash, events, marks, k)
    ensures StandsOn(Replay(start, id, cash, events, marks), start, id, events, marks, k)
  {
    var front, m := marks[..|marks| - 1], marks[|marks| - 1];
    forall e | e in events ensures e.at < m.at { MarkIsLatest(events, marks, e); }
    AllBefore(events, id, m.at);
    ReplayLastMark(start, id, cash, events, marks);
    hide Increasing, Moved, Names, Until, MovedAfter, MovedAll, PostTo, Replay, Skipped;
    if m.holdingId == id && !Skipped(start, id, cash, events, marks, |marks| - 1) {
      k := Some(|marks| - 1);
    } else {
      k := i;
      hide StandsOn;
      StillLastApplied(start, id, cash, events, marks, i);
      assert StandsOn(Replay(start, id, cash, events, marks), start, id, events, marks, i) by {
        StandsSame(start, id, cash, events, marks, i);
      }
    }
  }

  lemma StandsSame(start: Balance, id: string, cash: bool, events: seq<Event>, marks: seq<Mark>, i: Option<nat>)
    requires |marks| > 0 && (i.Some? ==> i.value < |marks| - 1)
    requires Replay(start, id, cash, events, marks) == Replay(start, id, cash, events, marks[..|marks| - 1])
    requires StandsOn(Replay(start, id, cash, events, marks[..|marks| - 1]), start, id, events, marks[..|marks| - 1], i)
    ensures StandsOn(Replay(start, id, cash, events, marks), start, id, events, marks, i)
  {
    hide MovedAfter, MovedAll, Replay;
  }

  /** A mark of another holding, or one that was skipped, leaves the last applied mark what it was. */
  lemma StillLastApplied(start: Balance, id: string, cash: bool, events: seq<Event>, marks: seq<Mark>, i: Option<nat>)
    requires |marks| > 0 && IsLastApplied(start, id, cash, events, marks[..|marks| - 1], i)
    requires marks[|marks| - 1].holdingId != id || Skipped(start, id, cash, events, marks, |marks| - 1)
    ensures IsLastApplied(start, id, cash, events, marks, i)
  {
    hide Skipped;
    forall j: nat | j < |marks| && (i.Some? ==> i.value < j) && marks[j].holdingId == id
      ensures Skipped(start, id, cash, events, marks, j)
    {
      if j < |marks| - 1 { LaterMarkKeeps(start, id, cash, events, marks, j); }
    }
    if i.Some? { LaterMarkKeeps(start, id, cash, events, marks, i.value); }
  }

  lemma ReplayLastMark(start: Balance, id: string, cash: bool, events: seq<Event>, marks: seq<Mark>)
    requires |marks| > 0 && (forall e :: e in events ==> e.at < marks[|marks| - 1].at)
    requires Until(events, marks[|marks| - 1].at) == events
    ensures var b := Replay(start, id, cash, events, marks[..|marks| - 1]);
            && Replay(start, id, cash, events, marks) == MarkTo(b, id, marks[|marks| - 1])
            && (Skipped(start, id, cash, events, marks, |marks| - 1) <==> marks[|marks| - 1].date < b.date)
  {
    hide PostTo, MarkTo, Until;
    if |events| > 0 { assert events[|events| - 1] in events; }
  }

  /**
   Native amount and EUR value: the last applied mark plus the postings recorded since, or the
   opening plus all postings.
   */
  lemma {:induction false} BalanceIsMarkPlusPostings(start: Balance, id: string, cash: bool, events: seq<Event>,
                                                     marks: seq<Mark>)
    returns (i: Option<nat>)
    requires Increasing(events, marks)
    ensures IsLastApplied(start, id, cash, events, marks, i)
    ensures StandsOn(Replay(start, id, cash, events, marks), start, id, events, marks, i)
    decreases |events| + |marks|
  {
    if |events| == 0 && |marks| == 0 {
      i := None;
    } else {
      hide IsLastApplied, StandsOn, Replay, Increasing;
      if |marks| == 0 || (|events| > 0 && events[|events| - 1].at > marks[|marks| - 1].at) {
        IncreasingFront(events, marks);
        i := BalanceIsMarkPlusPostings(start, id, cash, events[..|events| - 1], marks);
        forall m | m in marks ensures m.at < events[|events| - 1].at { LastIsLatest(events, marks, m); }
        LaterEventKeeps(start, id, cash, events, marks, i);
        AppliedIndex(start, id, cash, events, marks, i);
        EventStands(start, id, cash, events, marks, i);
      } else {
        IncreasingFrontMark(events, marks);
        var j := BalanceIsMarkPlusPostings(start, id, cash, events, marks[..|marks| - 1]);
        AppliedIndex(start, id, cash, events, marks[..|marks| - 1], j);
        i := MarkStands(start, id, cash, events, marks, j);
      }
    }
  }

  lemma AppliedIndex(start: Balance, id: string, cash: bool, events: seq<Event>, marks: seq<Mark>, i: Option<nat>)
    requires IsLastApplied(start, id, cash, events, marks, i)
    ensures i.Some? ==> i.value < |marks|
  {
  }

  lemma IncreasingFront(events: seq<Event>, marks: seq<Mark>)
    requires Increasing(events, marks) && |events| > 0
    ensures Increasing(events[..|events| - 1], marks)
  {
    assert forall e :: e in events[..|events| - 1] ==> e in events;
  }

  lemma IncreasingFrontMark(events: seq<Event>, marks: seq<Mark>)
    requires Increasing(events, marks) && |marks| > 0
    ensures Increasing(events, marks[..|marks| - 1])
  {
    assert forall m :: m in marks[..|marks| - 1] ==> m in marks;
  }

  lemma LastIsLatest(events: seq<Event>, marks: seq<Mark>, m: Mark)
    requires Increasing(events, marks) && m in marks && |events| > 0
    requires events[|events| - 1].at > marks[|marks| - 1].at
    ensures m.at < events[|events| - 1].at
  {
    var k: nat :| k < |marks| && marks[k] == m;
  }

  lemma MarkIsLatest(events: seq<Event>, marks: seq<Mark>, e: Event)
    requires Increasing(events, marks) && e in events && |marks| > 0
    requires events[|events| - 1].at <= marks[|marks| - 1].at
    ensures e.at < marks[|marks| - 1].at
  {
    var k: nat :| k < |events| && events[k] == e;
    assert marks[|marks| - 1] in marks && events[|events| - 1] in events;
  }
}
