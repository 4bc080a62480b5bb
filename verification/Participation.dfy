/**
 Reviewed investment identities (lib/participation.ts, `appendParticipation` and the readers
 it uses): link, unlink and ownership declarations whose mapping periods alternate.
 */
module Participation {
  import opened Common
  import opened Ordering
  import opened CorrectionLog
  import opened Register

  const MAX_RECORDS := 2000
  const MAX_INVESTMENTS := 200

  datatype Kind = Link | Unlink | Ownership

  datatype Declaration = Declaration(kind: Kind, investmentId: string, linkId: int, sourceId: string)

  type Rec = Entry<Declaration>

  datatype State = State(investments: seq<string>, records: seq<Rec>, revision: nat)

  /** A link names a registered identity or registers a new one. */
  datatype Target = Existing(id: string) | Registered

  datatype Command = Command(holdingId: string, kind: Kind, target: Target, date: int, sourceId: string,
                             correctionOf: Option<int>)

  datatype Error = HoldingNotFound | SourceRequired | ActorInvalid | Capacity | IdConflict | CorrectionInvalid |
                   CorrectionTooEarly | DateConflict | InvestmentNotFound | LinkRequired | PeriodConflict

  function RankOf(k: Kind): int { if k == Ownership then 1 else 0 }

  predicate IsMapping(e: Rec) { e.body.kind != Ownership }

  // --- Reading the mapping ------------------------------------------------------------------

  /** The mapping declaration that decides a date: the last one on or before it. */
  function LastMapping(es: seq<Rec>, h: string, date: int): Option<Rec> {
    if |es| == 0 then None
    else
      var last := es[|es| - 1];
      if last.holdingId == h && last.date <= date && IsMapping(last) then Some(last)
      else LastMapping(es[..|es| - 1], h, date)
  }

  function LinkAt(es: seq<Rec>, h: string, date: int): Option<Rec> {
    var m := LastMapping(es, h, date);
    if m.Some? && m.value.body.kind == Link then m else None
  }

  /** `participationLinkAt`: the scan with a running link. */
  method ScanLink(es: seq<Rec>, h: string, date: int) returns (link: Option<Rec>)
    ensures link == LinkAt(es, h, date)
  {
    link := None;
    var i := 0;
    while i < |es|
      invariant 0 <= i <= |es|
      invariant link == LinkAt(es[..i], h, date)
    {
      assert es[..i + 1][..i] == es[..i];
      var record := es[i];
      if record.holdingId == h && record.date <= date {
        if record.body.kind == Link { link := Some(record); }
        else if record.body.kind == Unlink { link := None; }
      }
      i := i + 1;
    }
    assert es[..i] == es;
  }

  function Mappings(es: seq<Rec>): seq<Rec> { Filter(es, IsMapping) }

  /** Link, unlink, link, unlink, ... */
  predicate Alternates(maps: seq<Rec>) {
    forall i :: 0 <= i < |maps| ==> (maps[i].body.kind == Link <==> i % 2 == 0)
  }

  /** The alternation check with its running flag. */
  method ScanAlternation(maps: seq<Rec>) returns (ok: bool)
    requires forall e :: e in maps ==> IsMapping(e)
    ensures ok <==> Alternates(maps)
  {
    var linked := false;
    var i := 0;
    while i < |maps|
      invariant 0 <= i <= |maps|
      invariant linked <==> i % 2 == 1
      invariant Alternates(maps[..i])
    {
      assert maps[i] in maps;
      if (maps[i].body.kind == Link && linked) || (maps[i].body.kind == Unlink && !linked) {
        return false;
      }
      linked := maps[i].body.kind == Link;
      i := i + 1;
    }
    assert maps[..i] == maps;
    return true;
  }

  // --- Appending ---------------------------------------------------------------------------

  predicate Matches(c: Command, e: Rec) {
    c.correctionOf == Some(e.id) && e.holdingId == c.holdingId && e.body.kind == c.kind
  }

  function FindPrevious(active: seq<Rec>, c: Command): (r: Option<Rec>)
    ensures r.Some? ==> r.value in active && Matches(c, r.value)
    ensures r.None? <==> forall e :: e in active ==> !Matches(c, e)
  {
    if |active| == 0 then None
    else if Matches(c, active[0]) then Some(active[0])
    else FindPrevious(active[1..], c)
  }

  /** Another declaration of the same class already holds this date. */
  predicate Clashes(c: Command, e: Rec) {
    && e.holdingId == c.holdingId && e.date == c.date && c.correctionOf != Some(e.id)
    && (c.kind == Ownership <==> e.body.kind == Ownership)
  }

  function Remaining(active: seq<Rec>, c: Command): seq<Rec> {
    Filter(active, (e: Rec) => c.correctionOf != Some(e.id))
  }

  function NewRecord(c: Command, id: int, at: int, investmentId: string, linkId: int): Rec {
    Entry(id, c.holdingId, c.date, RankOf(c.kind), at, c.correctionOf,
          Declaration(c.kind, investmentId, linkId, c.sourceId))
  }

  /** The identity a declaration is about, and the identity catalog after it. */
  function Resolve(s: State, c: Command, link: Option<Rec>, freshId: string): Result<(string, seq<string>), Error> {
    if c.kind != Link then
      if link.None? then Err(LinkRequired) else Ok((link.value.body.investmentId, s.investments))
    else if c.target.Registered? then
      if |s.investments| >= MAX_INVESTMENTS then Err(Capacity)
      else if freshId in s.investments then Err(IdConflict)
      else Ok((freshId, s.investments + [freshId]))
    else if c.target.id in s.investments then Ok((c.target.id, s.investments))
    else Err(InvestmentNotFound)
  }

  /** The checks up to the append, in program order. */
  function Precheck(office: Office, s: State, c: Command, meta: Meta, investmentId: string): Option<Error> {
    var holding := FindHolding(office.holdings, c.holdingId);
    if holding.None? then Some(HoldingNotFound)
    else if !HasSource(office, c.sourceId, holding.value) || !meta.digestOk then Some(SourceRequired)
    else if meta.id.None? || investmentId == "" || meta.actorId == "" || meta.at.None? then Some(ActorInvalid)
    else if |s.records| >= MAX_RECORDS then Some(Capacity)
    else if exists r :: r in s.records && r.id == meta.id.value then Some(IdConflict)
    else
      var active := InForce(s.records);
      var previous := FindPrevious(active, c);
      if c.correctionOf.Some? && previous.None? then Some(CorrectionInvalid)
      else if c.correctionOf.Some? && meta.at.value < previous.value.recordedAt then Some(CorrectionTooEarly)
      else if exists e :: e in active && Clashes(c, e) then Some(DateConflict)
      else None
  }

  /** The state after a declaration, if it is admitted. */
  function Appended(office: Office, s: State, c: Command, meta: Meta, investmentId: string): Result<State, Error> {
    var problem := Precheck(office, s, c, meta, investmentId);
    if problem.Some? then Err(problem.value)
    else
      var link := LinkAt(Remaining(InForce(s.records), c), c.holdingId, c.date);
      var found := Resolve(s, c, link, investmentId);
      if found.Err? then Err(found.error)
      else
        var linkId := if c.kind == Link then meta.id.value else link.value.id;
        var records := s.records + [NewRecord(c, meta.id.value, meta.at.value, found.value.0, linkId)];
        if !Alternates(Mappings(OfHolding(InForce(records), c.holdingId))) then Err(PeriodConflict)
        else Ok(State(found.value.1, records, s.revision + 1))
  }

  /** `appendParticipation`, with its two scans. */
  method AppendParticipation(office: Office, s: State, c: Command, meta: Meta, investmentId: string)
    returns (r: Result<State, Error>)
    ensures r == Appended(office, s, c, meta, investmentId)
  {
    hide LinkAt, Alternates, InForce, Precheck;
    var problem := Precheck(office, s, c, meta, investmentId);
    if problem.Some? { return Err(problem.value); }
    assert meta.id.Some? && meta.at.Some? by { PrecheckMeans(office, s, c, meta, investmentId); }
    var atDate := ScanLink(Remaining(InForce(s.records), c), c.holdingId, c.date);
    var found := Resolve(s, c, atDate, investmentId);
    if found.Err? { return Err(found.error); }
    var linkId := if c.kind == Link then meta.id.value else atDate.value.id;
    var records := s.records + [NewRecord(c, meta.id.value, meta.at.value, found.value.0, linkId)];
    var ok := ScanAlternation(Mappings(OfHolding(InForce(records), c.holdingId)));
    if !ok { return Err(PeriodConflict); }
    return Ok(State(found.value.1, records, s.revision + 1));
  }

  lemma PrecheckMeans(office: Office, s: State, c: Command, meta: Meta, investmentId: string)
    requires Precheck(office, s, c, meta, investmentId).None?
    ensures meta.id.Some? && meta.at.Some? && |s.records| < MAX_RECORDS
    ensures forall r :: r in s.records ==> r.id != meta.id.value
    ensures c.correctionOf.Some? ==>
              exists p :: p in InForce(s.records) && Matches(c, p) && p.recordedAt <= meta.at.value
    ensures forall e :: e in InForce(s.records) ==> !Clashes(c, e)
  {
    hide FindHolding, HasSource, InForce, Clashes;
  }

  // --- What every run keeps -------------------------------------------------------------------

  predicate SameSlot(a: Rec, b: Rec) { a.date == b.date && (IsMapping(a) <==> IsMapping(b)) }

  /** One mapping and one ownership declaration a day. */
  ghost predicate OneASlot(es: seq<Rec>) { forall a, b :: a in es && b in es && SameSlot(a, b) ==> a == b }

  ghost predicate PeriodsOk(es: seq<Rec>) { OneASlot(es) && Alternates(Mappings(es)) }

  function Current(s: State, h: string): seq<Rec> { OfHolding(InForce(s.records), h) }

  ghost predicate StateOk(s: State) {
    && WellFormed(s.records) && |s.records| <= MAX_RECORDS
    && Distinct(s.investments) && |s.investments| <= MAX_INVESTMENTS
    && (forall e :: e in s.records ==> e.rank == RankOf(e.body.kind) && e.body.investmentId in s.investments)
    && (forall h :: PeriodsOk(Current(s, h)))
  }

  lemma EmptyOk()
    ensures StateOk(State([], [], 0))
  {
    forall h ensures PeriodsOk(Current(State([], [], 0), h)) { InForceIs<Declaration>([]); }
  }

  /** What an admitted declaration adds. */
  ghost predicate Adds(s: State, c: Command, meta: Meta, e: Rec, next: State) {
    && meta.id.Some? && meta.at.Some?
    && next.records == s.records + [e] && next.revision == s.revision + 1
    && e == NewRecord(c, meta.id.value, meta.at.value, e.body.investmentId, e.body.linkId)
    && e.body.investmentId in next.investments && s.investments <= next.investments
    && WellFormed(next.records) && (forall x :: x in s.records ==> x.id != e.id)
  }

  lemma AppendAdds(office: Office, s: State, c: Command, meta: Meta, investmentId: string) returns (e: Rec)
    requires StateOk(s) && Appended(office, s, c, meta, investmentId).Ok?
    ensures Adds(s, c, meta, e, Appended(office, s, c, meta, investmentId).value)
  {
    hide LinkAt, Alternates, InForce, Replaced, WellFormed, PeriodsOk, Precheck, Distinct, Mappings, OfHolding,
         Remaining;
    var next := Appended(office, s, c, meta, investmentId).value;
    PrecheckMeans(office, s, c, meta, investmentId);
    e := next.records[|s.records|];
    LinkIsRegistered(s, c);
    AppendWellFormed(s.records, e);
  }

  lemma LinkIsRegistered(s: State, c: Command)
    requires StateOk(s)
    ensures var l := LinkAt(Remaining(InForce(s.records), c), c.holdingId, c.date);
            l.Some? ==> l.value.body.investmentId in s.investments
  {
    hide InForce, Replaced, WellFormed, PeriodsOk;
    InForceIs(s.records);
    LastMappingIn(Remaining(InForce(s.records), c), c.holdingId, c.date);
  }

  lemma {:induction false} LastMappingIn(es: seq<Rec>, h: string, date: int)
    ensures var m := LastMapping(es, h, date);
            m.Some? ==> m.value in es && m.value.holdingId == h && m.value.date <= date && IsMapping(m.value)
  {
    if |es| > 0 { LastMappingIn(es[..|es| - 1], h, date); }
  }

  /** Every admitted declaration or correction keeps the invariant. */
  lemma AppendKeeps(office: Office, s: State, c: Command, meta: Meta, investmentId: string)
    requires StateOk(s) && Appended(office, s, c, meta, investmentId).Ok?
    ensures StateOk(Appended(office, s, c, meta, investmentId).value)
  {
    hide Appended, WellFormed, PeriodsOk, Distinct, Current;
    var next := Appended(office, s, c, meta, investmentId).value;
    var e := AppendAdds(office, s, c, meta, investmentId);
    CatalogGrows(office, s, c, meta, investmentId);
    forall h ensures PeriodsOk(Current(next, h)) { EachHoldingKeeps(office, s, c, meta, investmentId, e, h); }
    forall x | x in next.records ensures x.rank == RankOf(x.body.kind) && x.body.investmentId in next.investments {
      assert x in s.records || x == e;
    }
  }

  lemma EachHoldingKeeps(office: Office, s: State, c: Command, meta: Meta, investmentId: string, e: Rec, h: string)
    requires StateOk(s) && Appended(office, s, c, meta, investmentId).Ok?
    requires Adds(s, c, meta, e, Appended(office, s, c, meta, investmentId).value)
    ensures PeriodsOk(Current(Appended(office, s, c, meta, investmentId).value, h))
  {
    hide Appended, InForce, WellFormed, PeriodsOk, Insert, Distinct;
    OfHoldingSnoc(s.records, e, h);
    assert PeriodsOk(Current(s, h));
    if h == c.holdingId { PeriodStep(office, s, c, meta, investmentId, e); }
  }

  lemma CatalogGrows(office: Office, s: State, c: Command, meta: Meta, investmentId: string)
    requires StateOk(s) && Appended(office, s, c, meta, investmentId).Ok?
    ensures var next := Appended(office, s, c, meta, investmentId).value;
            Distinct(next.investments) && |next.investments| <= MAX_INVESTMENTS && |next.records| <= MAX_RECORDS
  {
    hide LinkAt, Alternates, InForce, WellFormed, PeriodsOk, Precheck, Distinct;
    PrecheckMeans(office, s, c, meta, investmentId);
    DistinctSnoc(s.investments, investmentId);
  }

  lemma PeriodStep(office: Office, s: State, c: Command, meta: Meta, investmentId: string, e: Rec)
    requires StateOk(s) && Appended(office, s, c, meta, investmentId).Ok?
    requires Adds(s, c, meta, e, Appended(office, s, c, meta, investmentId).value)
    ensures PeriodsOk(Current(Appended(office, s, c, meta, investmentId).value, c.holdingId))
  {
    hide LinkAt, InForce, WellFormed, Precheck, Distinct, Alternates, Insert, Mappings;
    PrecheckMeans(office, s, c, meta, investmentId);
    InForceIs(s.records);
    var prior, es := Current(s, c.holdingId), OfHolding(InForce(s.records + [e]), c.holdingId);
    OfHoldingSnoc(s.records, e, c.holdingId);
    assert PeriodsOk(prior);
    forall x | x in prior && SameSlot(e, x) ensures c.correctionOf == Some(x.id) { assert !Clashes(c, x); }
    StillOneASlot(prior, es, e, c.correctionOf);
  }

  lemma StillOneASlot(prior: seq<Rec>, es: seq<Rec>, e: Rec, corrected: Option<int>)
    requires OneASlot(prior)
    requires forall x :: x in es && x != e ==> x in prior && corrected != Some(x.id)
    requires forall x :: x in prior && SameSlot(e, x) ==> corrected == Some(x.id)
    ensures OneASlot(es)
  {
  }

  datatype Input = Input(office: Office, c: Command, meta: Meta, investmentId: string)

  function Run(s: State, inputs: seq<Input>): State {
    if |inputs| == 0 then s
    else
      var before, last := Run(s, inputs[..|inputs| - 1]), inputs[|inputs| - 1];
      var r := Appended(last.office, before, last.c, last.meta, last.investmentId);
      if r.Ok? then r.value else before
  }

  /**
   Over every run of commands, accepted or refused: mapping periods alternate, one
   declaration of a class a day, and (`WellFormed`) nothing is corrected twice.
   */
  lemma {:induction false} RunsStayOk(inputs: seq<Input>)
    ensures StateOk(Run(State([], [], 0), inputs))
  {
    hide StateOk, Appended;
    if |inputs| == 0 {
      EmptyOk();
    } else {
      RunsStayOk(inputs[..|inputs| - 1]);
      var before, last := Run(State([], [], 0), inputs[..|inputs| - 1]), inputs[|inputs| - 1];
      if Appended(last.office, before, last.c, last.meta, last.investmentId).Ok? {
        AppendKeeps(last.office, before, last.c, last.meta, last.investmentId);
      }
    }
  }

  // --- What the invariant gives readers -----------------------------------------------------------

  /** The deciding mapping is the latest one on or before the date. */
  lemma {:induction false} LastMappingIsLatest(es: seq<Rec>, h: string, date: int)
    requires Sorted(es, Before)
    ensures var m := LastMapping(es, h, date);
            && (m.None? ==> forall x :: x in es && x.holdingId == h && IsMapping(x) ==> date < x.date)
            && (m.Some? ==>
                  forall x :: x in es && x.holdingId == h && IsMapping(x) && x.date <= date ==> x.date <= m.value.date)
  {
    if |es| > 0 {
      var front, last := es[..|es| - 1], es[|es| - 1];
      assert es == front + [last];
      SortedFront(es);
      hide Sorted;
      LastMappingIsLatest(front, h, date);
    }
  }

  lemma SortedFront(es: seq<Rec>)
    requires Sorted(es, Before) && |es| > 0
    ensures Sorted(es[..|es| - 1], Before) && forall x :: x in es ==> x.date <= es[|es| - 1].date
  {
    forall x | x in es ensures x.date <= es[|es| - 1].date {
      var i: nat :| i < |es| && es[i] == x;
      if i < |es| - 1 { assert !Before(es[|es| - 1], es[i]); }
    }
  }

  ghost predicate Decides(es: seq<Rec>, h: string, date: int, r: Rec) {
    && r in es && r.holdingId == h && IsMapping(r) && r.date <= date
    && forall m :: m in es && m.holdingId == h && IsMapping(m) && r.date < m.date ==> date < m.date
  }

  ghost predicate SlotPerDay(es: seq<Rec>, h: string) {
    forall a, b :: a in es && b in es && a.holdingId == h == b.holdingId && SameSlot(a, b) ==> a == b
  }

  lemma DecidesIsLast(es: seq<Rec>, h: string, date: int, r: Rec)
    requires Sorted(es, Before)
    requires SlotPerDay(es, h)
    ensures LastMapping(es, h, date) == Some(r) <==> Decides(es, h, date, r)
  {
    LastMappingIn(es, h, date);
    LastMappingIsLatest(es, h, date);
    var m := LastMapping(es, h, date);
    if m.Some? && Decides(es, h, date, r) {
      assert SameSlot(m.value, r);
    }
  }

  lemma OneASlotEach(s: State, h: string)
    requires StateOk(s)
    ensures SlotPerDay(InForce(s.records), h)
  {
    hide InForce, WellFormed, Alternates, Mappings;
    assert PeriodsOk(Current(s, h));
    forall a, b | a in InForce(s.records) && b in InForce(s.records) && a.holdingId == h == b.holdingId
        && SameSlot(a, b)
      ensures a == b
    {
      assert a in Current(s, h) && b in Current(s, h);
    }
  }

  /** The scan finds exactly the link in force: none later replaces or ends it by that date. */
  lemma LinkAtIsInForce(s: State, h: string, date: int, r: Rec)
    requires StateOk(s)
    ensures LinkAt(InForce(s.records), h, date) == Some(r) <==>
            Decides(InForce(s.records), h, date, r) && r.body.kind == Link
  {
    InForceIs(s.records);
    OneASlotEach(s, h);
    hide StateOk, InForce, LastMapping, Decides;
    DecidesIsLast(InForce(s.records), h, date, r);
    var m := LastMapping(InForce(s.records), h, date);
    if m.Some? { DecidesIsLast(InForce(s.records), h, date, m.value); }
  }

  /** Entries in force after an append: the new one, and the earlier ones it does not correct. */
  lemma InForceAfter(s: State, c: Command, meta: Meta, e: Rec, next: State)
    requires StateOk(s) && Adds(s, c, meta, e, next)
    ensures e in InForce(next.records)
    ensures forall x :: x in InForce(next.records) && x != e ==> x in InForce(s.records) && c.correctionOf != Some(x.id)
    ensures forall x :: x in InForce(s.records) && c.correctionOf != Some(x.id) ==> x in InForce(next.records)
  {
    hide InForce, PeriodsOk, Insert;
    InForceSnoc(s.records, e);
  }

  /** A declaration does what it says on its date: links to the identity, unlinks, or stays on the same link. */
  lemma AppendTakesEffect(office: Office, s: State, c: Command, meta: Meta, investmentId: string) returns (e: Rec)
    requires StateOk(s) && Appended(office, s, c, meta, investmentId).Ok?
    ensures var next := Appended(office, s, c, meta, investmentId).value;
            && Adds(s, c, meta, e, next)
            && (c.kind == Link ==> LinkAt(InForce(next.records), c.holdingId, c.date) == Some(e))
            && (c.kind == Link && c.target.Existing? ==> e.body.investmentId == c.target.id)
            && (c.kind == Link && c.target.Registered? ==>
                  e.body.investmentId == investmentId && investmentId !in s.investments)
            && (c.kind == Unlink ==> LinkAt(InForce(next.records), c.holdingId, c.date).None?)
            && (c.kind == Ownership ==>
                  exists l :: LinkAt(InForce(next.records), c.holdingId, c.date) == Some(l)
                              && e.body.linkId == l.id && e.body.investmentId == l.body.investmentId)
  {
    hide StateOk, Appended, InForce, LinkAt, Remaining;
    var next := Appended(office, s, c, meta, investmentId).value;
    e := AppendAdds(office, s, c, meta, investmentId);
    TargetOf(office, s, c, meta, investmentId, e);
    if c.kind == Ownership {
      OwnershipKeepsLink(office, s, c, meta, investmentId, e);
    } else {
      AppendKeeps(office, s, c, meta, investmentId);
      NewMappingDecides(s, c, meta, e, next);
    }
  }

  lemma NewMappingDecides(s: State, c: Command, meta: Meta, e: Rec, next: State)
    requires StateOk(s) && Adds(s, c, meta, e, next) && StateOk(next) && c.kind != Ownership
    ensures LinkAt(InForce(next.records), c.holdingId, c.date) == if c.kind == Link then Some(e) else None
  {
    hide StateOk, InForce, LastMapping, Sorted, SlotPerDay, Replaced, WellFormed;
    assert Decides(InForce(next.records), c.holdingId, c.date, e) by { InForceAfter(s, c, meta, e, next); }
    hide Decides;
    InForceIs(next.records);
    OneASlotEach(next, c.holdingId);
    DecidesIsLast(InForce(next.records), c.holdingId, c.date, e);
  }

  lemma TargetOf(office: Office, s: State, c: Command, meta: Meta, investmentId: string, e: Rec)
    requires StateOk(s) && Appended(office, s, c, meta, investmentId).Ok?
    requires Adds(s, c, meta, e, Appended(office, s, c, meta, investmentId).value)
    ensures c.kind == Link && c.target.Existing? ==> e.body.investmentId == c.target.id
    ensures c.kind == Link && c.target.Registered? ==>
              e.body.investmentId == investmentId && investmentId !in s.investments
    ensures c.kind != Link ==>
              var l := LinkAt(Remaining(InForce(s.records), c), c.holdingId, c.date);
              l.Some? && e.body.linkId == l.value.id && e.body.investmentId == l.value.body.investmentId
  {
    hide StateOk, InForce, LinkAt, Precheck, Mappings, Remaining, Alternates, OfHolding, WellFormed;
    PrecheckMeans(office, s, c, meta, investmentId);
    assert Appended(office, s, c, meta, investmentId).value.records[|s.records|] == e;
  }

  lemma OwnershipKeepsLink(office: Office, s: State, c: Command, meta: Meta, investmentId: string, e: Rec)
    requires StateOk(s) && Appended(office, s, c, meta, investmentId).Ok? && c.kind == Ownership
    requires Adds(s, c, meta, e, Appended(office, s, c, meta, investmentId).value)
    ensures LinkAt(InForce(Appended(office, s, c, meta, investmentId).value.records), c.holdingId, c.date) ==
            LinkAt(Remaining(InForce(s.records), c), c.holdingId, c.date)
  {
    var next := Appended(office, s, c, meta, investmentId).value;
    InForceAfter(s, c, meta, e, next);
    AppendKeeps(office, s, c, meta, investmentId);
    InForceIs(s.records);
    InForceIs(next.records);
    OneASlotEach(s, c.holdingId);
    OneASlotEach(next, c.holdingId);
    var before, after := Remaining(InForce(s.records), c), InForce(next.records);
    FilterSorted(InForce(s.records), Before, (x: Rec) => c.correctionOf != Some(x.id));
    hide StateOk, Appended, InForce;
    assert forall x :: x in after && IsMapping(x) <==> x in before && IsMapping(x);
    SameLastMapping(before, after, c.holdingId, c.date);
  }

  lemma SameLastMapping(before: seq<Rec>, after: seq<Rec>, h: string, date: int)
    requires Sorted(before, Before) && Sorted(after, Before)
    requires SlotPerDay(before, h)
    requires SlotPerDay(after, h)
    requires forall x: Rec :: x.holdingId == h && IsMapping(x) && x.date <= date ==> (x in before <==> x in after)
    ensures LinkAt(after, h, date) == LinkAt(before, h, date)
  {
    hide LastMapping, Sorted;
    var m, n := LastMapping(before, h, date), LastMapping(after, h, date);
    if m.Some? {
      DecidesIsLast(before, h, date, m.value);
      DecidesIsLast(after, h, date, m.value);
    } else if n.Some? {
      DecidesIsLast(after, h, date, n.value);
      DecidesIsLast(before, h, date, n.value);
    }
  }

  /** A declaration that corrects nothing leaves every other position, and every earlier date, as it was. */
  lemma AppendIsLocal(office: Office, s: State, c: Command, meta: Meta, investmentId: string, h: string, date: int)
    requires StateOk(s) && Appended(office, s, c, meta, investmentId).Ok?
    requires h != c.holdingId || (date < c.date && c.correctionOf.None?)
    ensures LinkAt(InForce(Appended(office, s, c, meta, investmentId).value.records), h, date) ==
            LinkAt(InForce(s.records), h, date)
  {
    var next := Appended(office, s, c, meta, investmentId).value;
    var e := AppendAdds(office, s, c, meta, investmentId);
    AppendKeeps(office, s, c, meta, investmentId);
    InForceAfter(s, c, meta, e, next);
    InForceIs(s.records);
    InForceIs(next.records);
    OneASlotEach(s, h);
    OneASlotEach(next, h);
    if h != c.holdingId {
      forall x | x in InForce(s.records) && x.holdingId == h ensures c.correctionOf != Some(x.id) {
        OtherHoldingSpared(s.records, e, x);
      }
    }
    hide StateOk, Appended, InForce;
    SameLastMapping(InForce(s.records), InForce(next.records), h, date);
  }

  /** A declaration recorded after the cutoff changes no link known at the cutoff. */
  lemma AppendInvisibleBefore(office: Office, s: State, c: Command, meta: Meta, investmentId: string, k: int,
                              h: string, date: int)
    requires StateOk(s) && Appended(office, s, c, meta, investmentId).Ok? && meta.at.Some? && meta.at.value > k
    ensures LinkAt(Effective(Appended(office, s, c, meta, investmentId).value.records, Some(k)), h, date) ==
            LinkAt(Effective(s.records, Some(k)), h, date)
  {
    var e := AppendAdds(office, s, c, meta, investmentId);
    hide Effective, Appended, StateOk, LinkAt;
    LaterEntryInvisible(s.records, e, k);
  }
}
