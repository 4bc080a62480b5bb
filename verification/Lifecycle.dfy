/**
 Acquisition, exit and classification declarations (lib/portfolio-history-lifecycle.ts):
 an append-only log whose entries in force always describe one ownership period per position.
 */
module Lifecycle {
  import opened Common
  import opened Ordering
  import opened CorrectionLog
  import opened Register

  const HISTORY_LIFECYCLE_LIMIT := 2000

  datatype Kind = Opened | Closed | Classified

  datatype Details = Details(familyId: string, entityId: string, accountId: string, classification: string)

  datatype Declaration = Declaration(kind: Kind, details: Option<Details>, sourceId: string)

  type Rec = Entry<Declaration>

  datatype State = State(records: seq<Rec>, revision: nat)

  datatype Command = Command(holdingId: string, kind: Kind, date: int, details: Option<Details>,
                             correctionOf: Option<int>, sourceId: string)

  datatype Error = HoldingNotFound | SourceRequired | ActorInvalid | Capacity | IdConflict | IdentityInvalid |
                   CorrectionInvalid | CorrectionTooEarly | AlreadyExists | OrderInvalid

  /** Exits carry no details; acquisitions and classifications do. */
  predicate WellShaped(c: Command) { c.details.Some? <==> c.kind != Closed }

  function RankOf(k: Kind): int { if k == Opened then 0 else 1 }

  function First(es: seq<Rec>, k: Kind): (r: Option<Rec>)
    ensures r.Some? ==> r.value in es && r.value.body.kind == k
    ensures r.None? <==> forall e :: e in es ==> e.body.kind != k
  {
    if |es| == 0 then None else if es[0].body.kind == k then Some(es[0]) else First(es[1..], k)
  }

  // --- Reading -------------------------------------------------------------------------

  datatype Ownership = NotYetOpened | Owned | Ended | Unknown

  /** `lifecycleFromRecords`: the ownership status on a date. */
  function OwnershipAt(es: seq<Rec>, date: int): Ownership {
    var opening, closing := First(es, Opened), First(es, Closed);
    if opening.Some? && date < opening.value.date then NotYetOpened
    else if closing.Some? && closing.value.date <= date then Ended
    else if opening.Some? then Owned
    else Unknown
  }

  /** The last entry with details on or before a date. */
  function DetailsAt(es: seq<Rec>, date: int): Option<Rec> {
    if |es| == 0 then None
    else if es[|es| - 1].body.details.Some? && es[|es| - 1].date <= date then Some(es[|es| - 1])
    else DetailsAt(es[..|es| - 1], date)
  }

  function Period(log: seq<Rec>, h: string, cutoff: Option<int>): seq<Rec> { OfHolding(Effective(log, cutoff), h) }

  /** The entries of one position now in force. */
  function Current(log: seq<Rec>, h: string): seq<Rec> { OfHolding(InForce(log), h) }

  function LifecycleAt(log: seq<Rec>, h: string, date: int, cutoff: Option<int>): (Ownership, Option<Rec>) {
    (OwnershipAt(Period(log, h, cutoff), date), DetailsAt(Period(log, h, cutoff), date))
  }

  // --- Appending -----------------------------------------------------------------------

  predicate IdentityOk(office: Office, h: Holding, d: Details) {
    && (exists e :: e in office.entities && e.id == d.entityId && e.familyId == d.familyId)
    && (exists a :: a in office.accounts && a.id == d.accountId && a.entityId == d.entityId && a.familyId == d.familyId)
    && d.familyId == h.familyId && d.entityId == h.entityId
  }

  function FindActive(es: seq<Rec>, id: int, k: Kind): (r: Option<Rec>)
    ensures r.Some? ==> r.value in es && r.value.id == id && r.value.body.kind == k
    ensures r.None? <==> forall e :: e in es ==> !(e.id == id && e.body.kind == k)
  {
    if |es| == 0 then None
    else if es[0].id == id && es[0].body.kind == k then Some(es[0])
    else FindActive(es[1..], id, k)
  }

  predicate Repeats(c: Command, e: Rec) { e.body.kind == c.kind && (c.kind == Classified ==> e.date == c.date) }

  /** Another entry in force already states this event. */
  predicate Clashes(c: Command, previous: Option<Rec>, e: Rec) {
    Repeats(c, e) && (previous.Some? ==> e.id != previous.value.id)
  }

  /** The closing order and the classifications of one position, as checked after the append. */
  predicate InOrder(es: seq<Rec>) {
    var opening, closing := First(es, Opened), First(es, Closed);
    && (opening.Some? && closing.Some? ==> opening.value.date < closing.value.date)
    && (forall e :: e in es && e.body.kind == Classified ==>
          && (opening.Some? ==> opening.value.date <= e.date)
          && (closing.Some? ==> e.date < closing.value.date))
  }

  function NewRecord(c: Command, id: int, at: int): Rec {
    Entry(id, c.holdingId, c.date, RankOf(c.kind), at, c.correctionOf, Declaration(c.kind, c.details, c.sourceId))
  }

  /** `appendHistoryLifecycle`: the checks in program order; a failure leaves the caller's state as it was. */
  function Append(office: Office, state: State, c: Command, meta: Meta): Result<State, Error>
    requires WellShaped(c)
  {
    var holding := FindHolding(office.holdings, c.holdingId);
    if holding.None? then Err(HoldingNotFound)
    else if !HasSource(office, c.sourceId, holding.value) || !meta.digestOk then Err(SourceRequired)
    else if meta.actorId == "" || meta.id.None? || meta.at.None? then Err(ActorInvalid)
    else if |state.records| >= HISTORY_LIFECYCLE_LIMIT then Err(Capacity)
    else if exists r :: r in state.records && r.id == meta.id.value then Err(IdConflict)
    else if c.details.Some? && !IdentityOk(office, holding.value, c.details.value) then Err(IdentityInvalid)
    else
      var active := Current(state.records, c.holdingId);
      var previous := if c.correctionOf.Some? then FindActive(active, c.correctionOf.value, c.kind) else None;
      if c.correctionOf.Some? && previous.None? then Err(CorrectionInvalid)
      else if previous.Some? && meta.at.value < previous.value.recordedAt then Err(CorrectionTooEarly)
      else if exists e :: e in active && Clashes(c, previous, e) then Err(AlreadyExists)
      else
        var records := state.records + [NewRecord(c, meta.id.value, meta.at.value)];
        if !InOrder(Current(records, c.holdingId)) then Err(OrderInvalid)
        else Ok(State(records, state.revision + 1))
  }

  // --- What every run keeps -----------------------------------------------------------------

  predicate SameEvent(a: Rec, b: Rec) { a.body.kind == b.body.kind && (a.body.kind == Classified ==> a.date == b.date) }

  ghost predicate OneOfEach(es: seq<Rec>) { forall a, b :: a in es && b in es && SameEvent(a, b) ==> a == b }

  /** One event of each kind (one classification a day), in economic order. */
  ghost predicate OnePeriod(es: seq<Rec>) {
    && OneOfEach(es)
    && (forall o, c :: o in es && c in es && o.body.kind == Opened && c.body.kind == Closed ==> o.date < c.date)
    && (forall o, x :: o in es && x in es && o.body.kind == Opened && x.body.kind == Classified ==> o.date <= x.date)
    && (forall c, x :: c in es && x in es && c.body.kind == Closed && x.body.kind == Classified ==> x.date < c.date)
  }

  ghost predicate Shaped(e: Rec) {
    e.rank == RankOf(e.body.kind) && (e.body.details.Some? <==> e.body.kind != Closed)
  }

  ghost predicate StateOk(s: State) {
    && WellFormed(s.records) && |s.records| <= HISTORY_LIFECYCLE_LIMIT
    && (forall e :: e in s.records ==> Shaped(e))
    && (forall h :: OnePeriod(Current(s.records, h)))
  }

  lemma EmptyOk()
    ensures StateOk(State([], 0))
  {
    forall h ensures OnePeriod(Current([], h)) { InForceIs<Declaration>([]); }
  }

  /** Every accepted declaration or correction keeps the invariant. */
  lemma AppendKeeps(office: Office, s: State, c: Command, meta: Meta)
    requires StateOk(s) && WellShaped(c) && Append(office, s, c, meta).Ok?
    ensures StateOk(Append(office, s, c, meta).value)
  {
    hide OnePeriod, InOrder, WellFormed, InForce, Append;
    AppendAdmits(office, s, c, meta);
    AppendMeans(office, s, c, meta);
    var e := NewRecord(c, meta.id.value, meta.at.value);
    var next := Append(office, s, c, meta).value;
    assert next.records == s.records + [e];
    forall h ensures OnePeriod(Current(next.records, h)) {
      OfHoldingSnoc(s.records, e, h);
      assert OnePeriod(Current(s.records, h));
      if h == c.holdingId { PeriodStep(office, s, c, meta); }
    }
  }

  lemma AppendMeans(office: Office, s: State, c: Command, meta: Meta)
    requires WellShaped(c) && Append(office, s, c, meta).Ok?
    ensures meta.id.Some? && meta.at.Some? && |s.records| < HISTORY_LIFECYCLE_LIMIT
    ensures forall r :: r in s.records ==> r.id != meta.id.value
    ensures c.correctionOf.Some? ==>
              exists p :: p in Current(s.records, c.holdingId) && p.id == c.correctionOf.value
                          && p.recordedAt <= meta.at.value
    ensures forall e :: e in Current(s.records, c.holdingId) && Repeats(c, e) ==> c.correctionOf == Some(e.id)
    ensures Append(office, s, c, meta).value.records == s.records + [NewRecord(c, meta.id.value, meta.at.value)]
    ensures InOrder(Current(s.records + [NewRecord(c, meta.id.value, meta.at.value)], c.holdingId))
  {
    hide FindHolding, HasSource, IdentityOk, Current, InOrder;
    var active := Current(s.records, c.holdingId);
    var previous := if c.correctionOf.Some? then FindActive(active, c.correctionOf.value, c.kind) else None;
    assert forall e :: e in active ==> !Clashes(c, previous, e);
  }

  lemma AppendAdmits(office: Office, s: State, c: Command, meta: Meta)
    requires StateOk(s) && WellShaped(c) && Append(office, s, c, meta).Ok?
    ensures meta.id.Some? && meta.at.Some?
    ensures WellFormed(s.records + [NewRecord(c, meta.id.value, meta.at.value)])
  {
    hide OnePeriod, InOrder, WellFormed, InForce, Replaced, Append;
    AppendMeans(office, s, c, meta);
    AppendWellFormed(s.records, NewRecord(c, meta.id.value, meta.at.value));
  }

  lemma PeriodStep(office: Office, s: State, c: Command, meta: Meta)
    requires StateOk(s) && WellShaped(c) && Append(office, s, c, meta).Ok?
    ensures OnePeriod(Current(Append(office, s, c, meta).value.records, c.holdingId))
  {
    hide WellFormed, Insert, InForce, Append, InOrder;
    AppendMeans(office, s, c, meta);
    AppendAdmits(office, s, c, meta);
    var e := NewRecord(c, meta.id.value, meta.at.value);
    OfHoldingSnoc(s.records, e, c.holdingId);
    var prior, es := Current(s.records, c.holdingId), Current(s.records + [e], c.holdingId);
    assert OnePeriod(prior);
    forall x | x in es && x != e ensures x in prior && Some(x.id) != c.correctionOf { }
    StillOneOfEach(prior, es, e, c.correctionOf);
    OrderedOnce(es);
  }

  lemma StillOneOfEach(prior: seq<Rec>, es: seq<Rec>, e: Rec, corrected: Option<int>)
    requires OneOfEach(prior)
    requires forall x :: x in es && x != e ==> x in prior && Some(x.id) != corrected
    requires forall x :: x in prior && SameEvent(e, x) ==> Some(x.id) == corrected
    ensures OneOfEach(es)
  {
  }

  lemma OrderedOnce(es: seq<Rec>)
    requires InOrder(es) && OneOfEach(es)
    ensures OnePeriod(es)
  {
    hide First;
  }

  datatype Input = Input(office: Office, c: Command, meta: Meta)

  /** Rejected commands leave the state; accepted ones replace it. */
  function Run(s: State, inputs: seq<Input>): State
    requires forall i :: i in inputs ==> WellShaped(i.c)
  {
    if |inputs| == 0 then s
    else
      var before := Run(s, inputs[..|inputs| - 1]);
      var last := inputs[|inputs| - 1];
      var r := Append(last.office, before, last.c, last.meta);
      if r.Ok? then r.value else before
  }

  /** So every history reachable from the empty one describes one period per position. */
  lemma {:induction false} RunsStayOk(inputs: seq<Input>)
    requires forall i :: i in inputs ==> WellShaped(i.c)
    ensures StateOk(Run(State([], 0), inputs))
  {
    hide StateOk, Append;
    if |inputs| == 0 {
      EmptyOk();
    } else {
      RunsStayOk(inputs[..|inputs| - 1]);
      var before, last := Run(State([], 0), inputs[..|inputs| - 1]), inputs[|inputs| - 1];
      assert last in inputs;
      if Append(last.office, before, last.c, last.meta).Ok? { AppendKeeps(last.office, before, last.c, last.meta); }
    }
  }

  // --- What the invariant gives readers ---------------------------------------------------------

  /** Before the acquisition, and from the exit on, each status is exactly its own condition. */
  lemma StatusIsPeriod(es: seq<Rec>, date: int)
    requires OnePeriod(es)
    ensures OwnershipAt(es, date) == NotYetOpened <==> exists o :: o in es && o.body.kind == Opened && date < o.date
    ensures OwnershipAt(es, date) == Ended <==> exists c :: c in es && c.body.kind == Closed && c.date <= date
    ensures OwnershipAt(es, date) == Unknown ==> forall o :: o in es ==> o.body.kind != Opened
  {
    var opening, closing := First(es, Opened), First(es, Closed);
    if opening.Some? { assert opening.value in es; }
    if closing.Some? { assert closing.value in es; }
  }

  /** Ownership ends once and starts once; no classification is dated outside it. */
  lemma OwnershipIsOneInterval(es: seq<Rec>, d1: int, d2: int, x: Rec)
    requires OnePeriod(es) && d1 <= d2
    ensures OwnershipAt(es, d1) == Ended ==> OwnershipAt(es, d2) == Ended
    ensures OwnershipAt(es, d2) == NotYetOpened ==> OwnershipAt(es, d1) == NotYetOpened
    ensures x in es && x.body.kind == Classified ==> OwnershipAt(es, x.date) in {Owned, Unknown}
  {
    StatusIsPeriod(es, d1);
    StatusIsPeriod(es, d2);
    StatusIsPeriod(es, x.date);
    hide OwnershipAt;
  }

  ghost predicate Beats(d: Rec, e: Rec) {
    e == d || e.date < d.date || (e.date == d.date && e.body.kind == Opened && d.body.kind == Classified)
  }

  ghost predicate ShapedPeriod(es: seq<Rec>) {
    Sorted(es, Before) && OnePeriod(es) && forall e :: e in es ==> Shaped(e)
  }

  lemma LastPrevails(es: seq<Rec>)
    requires ShapedPeriod(es) && |es| > 0
    ensures ShapedPeriod(es[..|es| - 1])
    ensures forall e :: e in es && e.body.kind != Closed && es[|es| - 1].body.details.Some? ==> Beats(es[|es| - 1], e)
  {
    var front, last := es[..|es| - 1], es[|es| - 1];
    assert forall e :: e in front ==> e in es;
    forall i, j | 0 <= i < j < |front| ensures !Before(front[j], front[i]) { assert !Before(es[j], es[i]); }
    assert last in es && Shaped(last);
    if last.body.details.Some? {
      forall e | e in es && e.body.kind != Closed ensures Beats(last, e) {
        var i: nat :| i < |es| && es[i] == e;
        assert Shaped(e);
        if i < |es| - 1 {
          assert !Before(es[|es| - 1], es[i]);
          assert SameEvent(e, last) ==> e == last;
        }
      }
    }
  }

  /** Every reachable history satisfies what the readers below rely on. */
  lemma CurrentIsShaped(s: State, h: string)
    requires StateOk(s)
    ensures ShapedPeriod(Current(s.records, h))
  {
    InForceIs(s.records);
    FilterSorted(InForce(s.records), Before, (e: Rec) => e.holdingId == h);
  }

  /** The details in force are the latest ones; on an acquisition day a classification prevails. */
  lemma {:induction false} DetailsAreLatest(es: seq<Rec>, date: int)
    requires ShapedPeriod(es)
    ensures DetailsAt(es, date).None? <==> forall e :: e in es && e.date <= date ==> e.body.kind == Closed
    ensures DetailsAt(es, date).Some? ==>
              var d := DetailsAt(es, date).value;
              && d in es && d.date <= date && d.body.details.Some?
              && forall e :: e in es && e.date <= date && e.body.kind != Closed ==> Beats(d, e)
  {
    if |es| > 0 {
      var front, last := es[..|es| - 1], es[|es| - 1];
      assert es == front + [last];
      assert Shaped(last);
      LastPrevails(es);
      hide ShapedPeriod, Beats;
      DetailsAreLatest(front, date);
    }
  }

  /** A declaration recorded after the cutoff, accepted or not, changes nothing known at the cutoff. */
  lemma AppendInvisibleBefore(office: Office, s: State, c: Command, meta: Meta, k: int, h: string, date: int)
    requires WellShaped(c) && Append(office, s, c, meta).Ok? && meta.at.Some? && meta.at.value > k
    ensures LifecycleAt(Append(office, s, c, meta).value.records, h, date, Some(k)) ==
            LifecycleAt(s.records, h, date, Some(k))
  {
    hide Effective, InOrder, OfHolding, OwnershipAt, DetailsAt;
    LaterEntryInvisible(s.records, NewRecord(c, meta.id.value, meta.at.value), k);
  }

  /** Restating an entry in force unchanged, as a correction of itself, is always admitted. */
  lemma RestatingIsAccepted(office: Office, s: State, r: Rec, meta: Meta)
    requires StateOk(s) && |s.records| < HISTORY_LIFECYCLE_LIMIT && r in InForce(s.records)
    requires meta.actorId != "" && meta.id.Some? && meta.at.Some? && meta.digestOk && r.recordedAt <= meta.at.value
    requires forall x :: x in s.records ==> x.id != meta.id.value
    requires FindHolding(office.holdings, r.holdingId).Some?
    requires var h := FindHolding(office.holdings, r.holdingId).value;
             HasSource(office, r.body.sourceId, h)
                 && (r.body.details.Some? ==> IdentityOk(office, h, r.body.details.value))
    ensures WellShaped(Restate(r)) && Append(office, s, Restate(r), meta).Ok?
  {
    hide StateOk, InForce, InOrder, First, FindHolding, HasSource, IdentityOk, OfHolding, FindActive, WellFormed;
    RestatedFits(s, r, meta.id.value, meta.at.value);
  }

  function Restate(r: Rec): Command {
    Command(r.holdingId, r.body.kind, r.date, r.body.details, Some(r.id), r.body.sourceId)
  }

  lemma RestatedFits(s: State, r: Rec, id: int, at: int)
    requires StateOk(s) && r in InForce(s.records) && r.recordedAt <= at && forall x :: x in s.records ==> x.id != id
    ensures WellShaped(Restate(r))
    ensures var es := Current(s.records, r.holdingId);
            && FindActive(es, r.id, r.body.kind) == Some(r)
            && forall e :: e in es ==> !Clashes(Restate(r), Some(r), e)
    ensures InOrder(Current(s.records + [NewRecord(Restate(r), id, at)], r.holdingId))
  {
    hide InForce, InOrder, First, Replaced, WellFormed, Insert, FindActive;
    InForceIs(s.records);
    assert Shaped(r);
    var prior := Current(s.records, r.holdingId);
    assert r in prior && OnePeriod(prior);
    OnlyOneWithId(s.records, r);
    RestatedStands(prior, r);
    var e := NewRecord(Restate(r), id, at);
    AppendWellFormed(s.records, e);
    OfHoldingSnoc(s.records, e, r.holdingId);
    hide OnePeriod;
    StillInOrder(prior, Current(s.records + [e], r.holdingId), r, e);
  }

  lemma RestatedStands(prior: seq<Rec>, r: Rec)
    requires OnePeriod(prior) && r in prior && forall x :: x in prior && x.id == r.id ==> x == r
    ensures FindActive(prior, r.id, r.body.kind) == Some(r)
    ensures forall e :: e in prior ==> !Clashes(Restate(r), Some(r), e)
  {
    hide FindActive;
    forall e | e in prior ensures !Clashes(Restate(r), Some(r), e) { assert SameEvent(r, e) ==> r == e; }
  }

  lemma OnlyOneWithId(log: seq<Rec>, r: Rec)
    requires WellFormed(log) && r in log
    ensures forall x :: x in log && x.id == r.id ==> x == r
  {
  }

  lemma StillInOrder(prior: seq<Rec>, es: seq<Rec>, r: Rec, e: Rec)
    requires OnePeriod(prior) && r in prior && e.body.kind == r.body.kind && e.date == r.date
    requires forall x :: x in es ==> x == e || x in prior
    ensures InOrder(es)
  {
    hide First;
  }
}
