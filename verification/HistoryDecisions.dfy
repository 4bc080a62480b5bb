/**
 When a lifecycle declaration or a participation declaration is accepted
 (lib/portfolio-history-lifecycle.ts, `appendHistoryLifecycle`; lib/participation.ts,
 `appendParticipation`): exactly the conditions on the register, the sources and the log.
 */
module HistoryDecisions {
  import opened Common
  import opened CorrectionLog
  import opened Register
  import Lifecycle
  import Participation

  // --- Sources and actors -------------------------------------------------------------------------

  /** Accepted, retained, real evidence of this very position. */
  ghost predicate Sourced(office: Office, sourceId: string, h: Holding) {
    exists e :: e in office.evidence && e.id == sourceId && e.holdingId == h.id && e.familyId == h.familyId
                && e.accepted && !e.synthetic && e.documentId.Some?
  }

  lemma SourcedIs(office: Office, sourceId: string, h: Holding)
    ensures HasSource(office, sourceId, h) <==> Sourced(office, sourceId, h)
  {
  }

  /** A reviewer, a time, a fresh identifier and an intact source, about a registered position. */
  ghost predicate Admissible<T>(office: Office, records: seq<Entry<T>>, holdingId: string, sourceId: string,
                                meta: Meta) {
    && FindHolding(office.holdings, holdingId).Some?
    && Sourced(office, sourceId, FindHolding(office.holdings, holdingId).value)
    && meta.digestOk && meta.actorId != "" && meta.id.Some? && meta.at.Some? && |records| < 2000
    && forall r :: r in records ==> r.id != meta.id.value
  }

  /** In force: on the log, and not corrected. */
  ghost predicate Stands<T>(log: seq<Entry<T>>, e: Entry<T>) {
    e in log && forall c :: c in log ==> c.correctionOf != Some(e.id)
  }

  lemma InForceStands<T(!new)>(log: seq<Entry<T>>)
    ensures forall e :: e in InForce(log) <==> Stands(log, e)
  {
    InForceIs(log);
    forall e | e in log ensures e.id !in Replaced(log) <==> forall c :: c in log ==> c.correctionOf != Some(e.id) {
      if e.id in Replaced(log) {
        var c :| c in log && c.correctionOf.Some? && c.correctionOf.value == e.id;
      }
    }
    hide InForce;
  }

  // --- Lifecycles ---------------------------------------------------------------------------------

  /** The stated owner and account exist, and are the position's own family and entity. */
  ghost predicate OwnerStated(office: Office, h: Holding, d: Lifecycle.Details) {
    && d.familyId == h.familyId && d.entityId == h.entityId
    && (exists e :: e in office.entities && e.id == d.entityId && e.familyId == d.familyId)
    && exists a :: a in office.accounts && a.id == d.accountId && a.entityId == d.entityId && a.familyId == d.familyId
  }

  /** The record corrected is in force for the position and states the same kind of event. */
  ghost predicate CanCorrect(log: seq<Lifecycle.Rec>, c: Lifecycle.Command, id: int) {
    exists e :: Stands(log, e) && e.holdingId == c.holdingId && e.id == id && e.body.kind == c.kind
  }

  /** Nothing else in force states the event: an acquisition, an exit, or a classification of that day. */
  ghost predicate StatesAnew(log: seq<Lifecycle.Rec>, c: Lifecycle.Command) {
    forall e :: Stands(log, e) && e.holdingId == c.holdingId && e.body.kind == c.kind
                && (c.kind == Lifecycle.Classified ==> e.date == c.date) ==>
                  c.correctionOf == Some(e.id)
  }

  ghost predicate CanDeclare(office: Office, s: Lifecycle.State, c: Lifecycle.Command, meta: Meta) {
    && Admissible(office, s.records, c.holdingId, c.sourceId, meta)
    && (c.details.Some? ==> OwnerStated(office, FindHolding(office.holdings, c.holdingId).value, c.details.value))
    && (c.correctionOf.Some? ==> CanCorrect(s.records, c, c.correctionOf.value)
                                 && NotEarlier(s.records, c, meta.at.value))
    && StatesAnew(s.records, c)
    && Lifecycle.InOrder(Lifecycle.Current(s.records + [Declared(c, meta.id.value, meta.at.value)], c.holdingId))
  }

  ghost predicate NotEarlier(log: seq<Lifecycle.Rec>, c: Lifecycle.Command, at: int) {
    forall e :: Stands(log, e) && e.holdingId == c.holdingId && c.correctionOf == Some(e.id)
                && e.body.kind == c.kind ==>
                  e.recordedAt <= at
  }

  /** The record of a declaration; on one day an acquisition comes before everything else. */
  function Declared(c: Lifecycle.Command, id: int, at: int): Lifecycle.Rec {
    Entry(id, c.holdingId, c.date, if c.kind == Lifecycle.Opened then 0 else 1, at, c.correctionOf,
          Lifecycle.Declaration(c.kind, c.details, c.sourceId))
  }

  ghost predicate DistinctIds(log: seq<Lifecycle.Rec>) {
    forall a, b :: a in log && b in log && a.id == b.id ==> a == b
  }

  /** A lifecycle declaration is accepted exactly then, and it only adds its record. */
  lemma DeclaresExactly(office: Office, s: Lifecycle.State, c: Lifecycle.Command, meta: Meta)
    requires Lifecycle.WellShaped(c) && DistinctIds(s.records)
    ensures var r := Lifecycle.Append(office, s, c, meta);
            && (r.Ok? <==> CanDeclare(office, s, c, meta))
            && (r.Ok? ==>
                  r.value == Lifecycle.State(s.records + [Declared(c, meta.id.value, meta.at.value)], s.revision + 1))
  {
    hide *;
    AppendChecks(office, s, c, meta);
    AdmissibleIs(office, s.records, c.holdingId, c.sourceId, meta);
    var active := Lifecycle.Current(s.records, c.holdingId);
    ActiveIs(s.records, c.holdingId);
    if c.correctionOf.Some? { PreviousIs(s, c, active); }
    AnewIs(s, c, active);
    DeclareIs(office, s, c, meta);
  }

  /** The code's own list of checks. */
  ghost predicate Passes(office: Office, s: Lifecycle.State, c: Lifecycle.Command, meta: Meta) {
    && Registered(office, s.records, c.holdingId, c.sourceId, meta)
    && (c.details.Some? ==> OwnerStated(office, FindHolding(office.holdings, c.holdingId).value, c.details.value))
    && var active := Lifecycle.Current(s.records, c.holdingId);
       var p := if c.correctionOf.Some? then Lifecycle.FindActive(active, c.correctionOf.value, c.kind) else None;
    && (c.correctionOf.Some? ==> p.Some? && p.value.recordedAt <= meta.at.value)
    && (forall e :: e in active ==> !Lifecycle.Clashes(c, p, e))
    && Lifecycle.InOrder(Lifecycle.Current(s.records + [Declared(c, meta.id.value, meta.at.value)], c.holdingId))
  }

  ghost predicate Registered<T>(office: Office, records: seq<Entry<T>>, holdingId: string, sourceId: string,
                                meta: Meta) {
    && FindHolding(office.holdings, holdingId).Some?
    && HasSource(office, sourceId, FindHolding(office.holdings, holdingId).value)
    && meta.digestOk && meta.actorId != "" && meta.id.Some? && meta.at.Some? && |records| < 2000
    && forall r :: r in records ==> r.id != meta.id.value
  }

  lemma AdmissibleIs<T>(office: Office, records: seq<Entry<T>>, holdingId: string, sourceId: string, meta: Meta)
    ensures Registered(office, records, holdingId, sourceId, meta) <==>
            Admissible(office, records, holdingId, sourceId, meta)
  {
    var h := FindHolding(office.holdings, holdingId);
    hide FindHolding;
    if h.Some? { SourcedIs(office, sourceId, h.value); }
    hide HasSource, Sourced;
  }

  lemma AppendChecks(office: Office, s: Lifecycle.State, c: Lifecycle.Command, meta: Meta)
    requires Lifecycle.WellShaped(c)
    ensures var r := Lifecycle.Append(office, s, c, meta);
            && (r.Ok? <==> Passes(office, s, c, meta))
            && (r.Ok? ==>
                  r.value == Lifecycle.State(s.records + [Declared(c, meta.id.value, meta.at.value)], s.revision + 1))
  {
    hide *;
    if Lifecycle.Append(office, s, c, meta).Ok? {
      Appended(office, s, c, meta);
      ChecksPass(office, s, c, meta);
    }
    if Passes(office, s, c, meta) {
      ChecksPass(office, s, c, meta);
      Appends(office, s, c, meta);
    }
  }

  /** The checks, with the owner and the record as the code writes them. */
  ghost predicate Checks(office: Office, s: Lifecycle.State, c: Lifecycle.Command, meta: Meta) {
    && Registered(office, s.records, c.holdingId, c.sourceId, meta)
    && (c.details.Some? ==>
          Lifecycle.IdentityOk(office, FindHolding(office.holdings, c.holdingId).value, c.details.value))
    && var active := Lifecycle.Current(s.records, c.holdingId);
       var p := if c.correctionOf.Some? then Lifecycle.FindActive(active, c.correctionOf.value, c.kind) else None;
    && (c.correctionOf.Some? ==> p.Some? && p.value.recordedAt <= meta.at.value)
    && (forall e :: e in active ==> !Lifecycle.Clashes(c, p, e))
    && Lifecycle.InOrder(Lifecycle.Current(s.records + [Lifecycle.NewRecord(c, meta.id.value, meta.at.value)],
                                           c.holdingId))
  }

  lemma ChecksPass(office: Office, s: Lifecycle.State, c: Lifecycle.Command, meta: Meta)
    ensures Checks(office, s, c, meta) <==> Passes(office, s, c, meta)
    ensures Checks(office, s, c, meta) ==>
              meta.id.Some? && meta.at.Some?
              && Lifecycle.NewRecord(c, meta.id.value, meta.at.value) == Declared(c, meta.id.value, meta.at.value)
  {
    var h := FindHolding(office.holdings, c.holdingId);
    if h.Some? && c.details.Some? { OwnerIs(office, h.value, c.details.value); }
    if meta.id.Some? && meta.at.Some? { RecordIs(c, meta.id.value, meta.at.value); }
    hide HasSource, Lifecycle.Current, Lifecycle.InOrder, FindHolding, Lifecycle.FindActive, Lifecycle.Clashes,
         Lifecycle.NewRecord, Declared, Lifecycle.IdentityOk, OwnerStated;
  }

  lemma Appended(office: Office, s: Lifecycle.State, c: Lifecycle.Command, meta: Meta)
    requires Lifecycle.WellShaped(c) && Lifecycle.Append(office, s, c, meta).Ok?
    ensures Checks(office, s, c, meta)
    ensures var records := s.records + [Lifecycle.NewRecord(c, meta.id.value, meta.at.value)];
            Lifecycle.Append(office, s, c, meta).value == Lifecycle.State(records, s.revision + 1)
  {
    hide HasSource, Lifecycle.Current, Lifecycle.InOrder, FindHolding, Lifecycle.FindActive, Lifecycle.Clashes,
         Lifecycle.NewRecord, Lifecycle.IdentityOk;
  }

  lemma Appends(office: Office, s: Lifecycle.State, c: Lifecycle.Command, meta: Meta)
    requires Lifecycle.WellShaped(c) && Checks(office, s, c, meta)
    ensures Lifecycle.Append(office, s, c, meta).Ok?
  {
    hide HasSource, Lifecycle.Current, Lifecycle.InOrder, FindHolding, Lifecycle.FindActive, Lifecycle.Clashes,
         Lifecycle.NewRecord, Lifecycle.IdentityOk;
  }

  lemma OwnerIs(office: Office, h: Holding, d: Lifecycle.Details)
    ensures Lifecycle.IdentityOk(office, h, d) <==> OwnerStated(office, h, d)
  {
  }

  lemma RecordIs(c: Lifecycle.Command, id: int, at: int)
    ensures Lifecycle.NewRecord(c, id, at) == Declared(c, id, at)
  {
  }

  lemma DeclareIs(office: Office, s: Lifecycle.State, c: Lifecycle.Command, meta: Meta)
    requires Registered(office, s.records, c.holdingId, c.sourceId, meta) <==>
             Admissible(office, s.records, c.holdingId, c.sourceId, meta)
    requires var active := Lifecycle.Current(s.records, c.holdingId);
             var p := if c.correctionOf.Some? then Lifecycle.FindActive(active, c.correctionOf.value, c.kind) else None;
             && (c.correctionOf.Some? ==>
                   && (p.Some? <==> CanCorrect(s.records, c, c.correctionOf.value))
                   && (p.Some? ==> forall at :: NotEarlier(s.records, c, at) <==> p.value.recordedAt <= at))
             && (c.correctionOf.None? || p.Some? ==>
                   ((exists e :: e in active && Lifecycle.Clashes(c, p, e)) <==> !StatesAnew(s.records, c)))
    ensures Passes(office, s, c, meta) <==> CanDeclare(office, s, c, meta)
  {
    assert Registered(office, s.records, c.holdingId, c.sourceId, meta) ==> meta.id.Some? && meta.at.Some?;
    hide Registered, Admissible, OwnerStated, Lifecycle.Current, Lifecycle.InOrder, Lifecycle.FindActive,
         Lifecycle.Clashes, Declared, CanCorrect, NotEarlier, StatesAnew;
  }

  lemma ActiveIs(log: seq<Lifecycle.Rec>, h: string)
    ensures forall e :: e in Lifecycle.Current(log, h) <==> Stands(log, e) && e.holdingId == h
  {
    InForceStands(log);
    hide InForce, Stands;
  }

  lemma PreviousIs(s: Lifecycle.State, c: Lifecycle.Command, active: seq<Lifecycle.Rec>)
    requires c.correctionOf.Some? && DistinctIds(s.records)
    requires forall e :: e in active <==> Stands(s.records, e) && e.holdingId == c.holdingId
    ensures var p := Lifecycle.FindActive(active, c.correctionOf.value, c.kind);
            && (p.Some? <==> CanCorrect(s.records, c, c.correctionOf.value))
            && (p.Some? ==> forall at :: NotEarlier(s.records, c, at) <==> p.value.recordedAt <= at)
  {
    var p := Lifecycle.FindActive(active, c.correctionOf.value, c.kind);
    hide Lifecycle.FindActive;
    assert forall e :: Stands(s.records, e) ==> e in s.records;
    hide Stands;
    if p.Some? {
      forall e | Stands(s.records, e) && e.holdingId == c.holdingId && c.correctionOf == Some(e.id)
        ensures e == p.value
      {
      }
    }
  }

  lemma AnewIs(s: Lifecycle.State, c: Lifecycle.Command, active: seq<Lifecycle.Rec>)
    requires DistinctIds(s.records)
    requires forall e :: e in active <==> Stands(s.records, e) && e.holdingId == c.holdingId
    ensures var p := if c.correctionOf.Some? then Lifecycle.FindActive(active, c.correctionOf.value, c.kind) else None;
            (c.correctionOf.None? || p.Some?) ==>
              ((exists e :: e in active && Lifecycle.Clashes(c, p, e)) <==> !StatesAnew(s.records, c))
  {
    hide Lifecycle.FindActive, Stands;
  }

  /** With one statement of each event, the order asked for is that of one ownership period. */
  lemma OrderIsOnePeriod(es: seq<Lifecycle.Rec>)
    requires Lifecycle.OneOfEach(es)
    ensures Lifecycle.InOrder(es) <==> Lifecycle.OnePeriod(es)
  {
    OnlyOf(es, Lifecycle.Opened);
    OnlyOf(es, Lifecycle.Closed);
    hide Lifecycle.First, Lifecycle.SameEvent;
  }

  lemma OnlyOf(es: seq<Lifecycle.Rec>, k: Lifecycle.Kind)
    requires Lifecycle.OneOfEach(es) && k != Lifecycle.Classified
    ensures Lifecycle.First(es, k).None? ==> forall e :: e in es ==> e.body.kind != k
    ensures Lifecycle.First(es, k).Some? ==>
              Lifecycle.First(es, k).value in es
              && forall e :: e in es && e.body.kind == k <==> e == Lifecycle.First(es, k).value
  {
    var first := Lifecycle.First(es, k);
    hide Lifecycle.First;
    if first.Some? {
      forall e | e in es && e.body.kind == k ensures e == first.value { assert Lifecycle.SameEvent(e, first.value); }
    }
  }

  // --- Participation ------------------------------------------------------------------------------

  /** A declaration of the same class already stands on the day, other than the one corrected. */
  ghost predicate DayTaken(log: seq<Participation.Rec>, c: Participation.Command) {
    exists e :: Stands(log, e) && e.holdingId == c.holdingId && e.date == c.date && c.correctionOf != Some(e.id)
                && (c.kind == Participation.Ownership <==> e.body.kind == Participation.Ownership)
  }

  ghost predicate CorrectsMapping(log: seq<Participation.Rec>, c: Participation.Command, at: int) {
    c.correctionOf.Some? ==>
      && (exists e :: Stands(log, e) && Corrected(c, e))
      && forall e :: Stands(log, e) && Corrected(c, e) ==> e.recordedAt <= at
  }

  ghost predicate Corrected(c: Participation.Command, e: Participation.Rec) {
    c.correctionOf == Some(e.id) && e.holdingId == c.holdingId && e.body.kind == c.kind
  }

  ghost predicate MayDeclare(office: Office, s: Participation.State, c: Participation.Command, meta: Meta,
                             freshId: string) {
    && Admissible(office, s.records, c.holdingId, c.sourceId, meta) && freshId != ""
    && CorrectsMapping(s.records, c, meta.at.value) && !DayTaken(s.records, c)
  }

  ghost predicate UniqueIds(log: seq<Participation.Rec>) {
    forall a, b :: a in log && b in log && a.id == b.id ==> a == b
  }

  lemma PrecheckExactly(office: Office, s: Participation.State, c: Participation.Command, meta: Meta, freshId: string)
    requires UniqueIds(s.records)
    ensures Participation.Precheck(office, s, c, meta, freshId).None? <==> MayDeclare(office, s, c, meta, freshId)
  {
    hide *;
    AdmissibleIs(office, s.records, c.holdingId, c.sourceId, meta);
    PrecheckIs(office, s, c, meta, freshId);
    ClashIs(s, c);
    if c.correctionOf.Some? { MappingIs(s, c); }
    MayDeclareIs(office, s, c, meta, freshId);
  }

  ghost predicate PrecheckPasses(office: Office, s: Participation.State, c: Participation.Command, meta: Meta,
                                 freshId: string) {
    var active := InForce(s.records);
    var previous := Participation.FindPrevious(active, c);
    && Registered(office, s.records, c.holdingId, c.sourceId, meta) && freshId != ""
    && (c.correctionOf.Some? ==> previous.Some? && previous.value.recordedAt <= meta.at.value)
    && !Clashing(s, c)
  }

  ghost predicate Clashing(s: Participation.State, c: Participation.Command) {
    exists e :: e in InForce(s.records) && Participation.Clashes(c, e)
  }

  lemma PrecheckIs(office: Office, s: Participation.State, c: Participation.Command, meta: Meta, freshId: string)
    ensures Participation.Precheck(office, s, c, meta, freshId).None? <==> PrecheckPasses(office, s, c, meta, freshId)
  {
    hide FindHolding, HasSource, InForce, Participation.FindPrevious, Participation.Clashes;
  }

  lemma ClashIs(s: Participation.State, c: Participation.Command)
    ensures Clashing(s, c) <==> DayTaken(s.records, c)
  {
    InForceStands(s.records);
    hide InForce, Stands;
    if e :| Stands(s.records, e) && e.holdingId == c.holdingId && e.date == c.date && c.correctionOf != Some(e.id)
            && (c.kind == Participation.Ownership <==> e.body.kind == Participation.Ownership) {
      assert Participation.Clashes(c, e);
    }
  }

  lemma MappingIs(s: Participation.State, c: Participation.Command)
    requires c.correctionOf.Some? && UniqueIds(s.records)
    ensures var p := Participation.FindPrevious(InForce(s.records), c);
            forall at :: CorrectsMapping(s.records, c, at) <==> p.Some? && p.value.recordedAt <= at
  {
    InForceStands(s.records);
    var p := Participation.FindPrevious(InForce(s.records), c);
    assert forall e :: Stands(s.records, e) ==> e in s.records;
    assert forall e :: Participation.Matches(c, e) <==> Corrected(c, e);
    hide InForce, Stands, Participation.FindPrevious, Participation.Matches;
  }

  lemma MayDeclareIs(office: Office, s: Participation.State, c: Participation.Command, meta: Meta, freshId: string)
    requires Registered(office, s.records, c.holdingId, c.sourceId, meta) <==>
             Admissible(office, s.records, c.holdingId, c.sourceId, meta)
    requires Clashing(s, c) <==> DayTaken(s.records, c)
    requires c.correctionOf.Some? ==>
               var p := Participation.FindPrevious(InForce(s.records), c);
               forall at :: CorrectsMapping(s.records, c, at) <==> p.Some? && p.value.recordedAt <= at
    ensures PrecheckPasses(office, s, c, meta, freshId) <==> MayDeclare(office, s, c, meta, freshId)
  {
    assert Registered(office, s.records, c.holdingId, c.sourceId, meta) ==> meta.id.Some? && meta.at.Some?;
    assert c.correctionOf.None? ==> forall at :: CorrectsMapping(s.records, c, at);
    hide Registered, Admissible, InForce, Participation.FindPrevious, Clashing, DayTaken, CorrectsMapping;
  }

  /** What a declaration is about: a link names or registers an investment, the others the one linked on the day. */
  lemma NamesExactly(s: Participation.State, c: Participation.Command, link: Option<Participation.Rec>, freshId: string)
    ensures var r := Participation.Resolve(s, c, link, freshId);
            && (r.Ok? <==>
                  if c.kind != Participation.Link then link.Some?
                  else if c.target.Registered? then |s.investments| < 200 && freshId !in s.investments
                  else c.target.id in s.investments)
            && (r.Ok? ==>
                  && r.value.1 == (if c.kind == Participation.Link && c.target.Registered? then
                                     s.investments + [freshId]
                                   else s.investments)
                  && r.value.0 == (if c.kind != Participation.Link then link.value.body.investmentId
                                   else if c.target.Registered? then freshId else c.target.id))
  {
  }

  /** The link in force on the day, leaving out the record being corrected. */
  function LinkOf(s: Participation.State, c: Participation.Command): Option<Participation.Rec> {
    Participation.LinkAt(Participation.Remaining(InForce(s.records), c), c.holdingId, c.date)
  }

  /** The record the declaration adds: a link is its own period, the others belong to the link of the day. */
  function AddedRecord(s: Participation.State, c: Participation.Command, meta: Meta, freshId: string): Participation.Rec
    requires meta.id.Some? && meta.at.Some? && Participation.Resolve(s, c, LinkOf(s, c), freshId).Ok?
  {
    MappingRecord(c, meta.id.value, meta.at.value, Participation.Resolve(s, c, LinkOf(s, c), freshId).value.0,
                  if c.kind == Participation.Link then meta.id.value else LinkOf(s, c).value.id)
  }

  ghost predicate MayParticipate(office: Office, s: Participation.State, c: Participation.Command, meta: Meta,
                                 freshId: string) {
    && MayDeclare(office, s, c, meta, freshId) && meta.id.Some? && meta.at.Some?
    && Participation.Resolve(s, c, LinkOf(s, c), freshId).Ok?
    && KeepsPeriods(s, AddedRecord(s, c, meta, freshId))
  }

  /** A participation declaration is accepted exactly when it may be made, names something and keeps the periods. */
  lemma ParticipatesExactly(office: Office, s: Participation.State, c: Participation.Command, meta: Meta,
                            freshId: string)
    requires UniqueIds(s.records)
    ensures var r := Participation.Appended(office, s, c, meta, freshId);
            && (r.Ok? <==> MayParticipate(office, s, c, meta, freshId))
            && (r.Ok? ==>
                  r.value == Participation.State(Participation.Resolve(s, c, LinkOf(s, c), freshId).value.1,
                                                 s.records + [AddedRecord(s, c, meta, freshId)], s.revision + 1))
  {
    hide *;
    PrecheckExactly(office, s, c, meta, freshId);
    if MayDeclare(office, s, c, meta, freshId) { DeclaredBy(office, s, c, meta, freshId); }
    if Participation.Precheck(office, s, c, meta, freshId).Some? {
      Refused(office, s, c, meta, freshId);
      NotWithout(office, s, c, meta, freshId);
    } else if Participation.Resolve(s, c, LinkOf(s, c), freshId).Err? {
      Unnamed(office, s, c, meta, freshId);
      NotWithout(office, s, c, meta, freshId);
    } else {
      AddedIs(office, s, c, meta, freshId);
      PeriodsDecide(office, s, c, meta, freshId);
    }
  }

  lemma NotWithout(office: Office, s: Participation.State, c: Participation.Command, meta: Meta, freshId: string)
    ensures MayParticipate(office, s, c, meta, freshId) ==>
              MayDeclare(office, s, c, meta, freshId) && Participation.Resolve(s, c, LinkOf(s, c), freshId).Ok?
  {
    hide MayDeclare, Participation.Resolve, LinkOf, KeepsPeriods, AddedRecord;
  }

  lemma Refused(office: Office, s: Participation.State, c: Participation.Command, meta: Meta, freshId: string)
    requires Participation.Precheck(office, s, c, meta, freshId).Some?
    ensures Participation.Appended(office, s, c, meta, freshId).Err?
  {
    hide Participation.Precheck;
  }

  lemma Unnamed(office: Office, s: Participation.State, c: Participation.Command, meta: Meta, freshId: string)
    requires Participation.Resolve(s, c, LinkOf(s, c), freshId).Err?
    ensures Participation.Appended(office, s, c, meta, freshId).Err?
  {
    hide Participation.Precheck, Participation.Resolve, Participation.LinkAt, Participation.Remaining, InForce;
  }

  /** With the record named, only the periods still decide. */
  lemma PeriodsDecide(office: Office, s: Participation.State, c: Participation.Command, meta: Meta, freshId: string)
    requires Participation.Precheck(office, s, c, meta, freshId).None? && MayDeclare(office, s, c, meta, freshId)
    requires meta.id.Some? && meta.at.Some? && Participation.Resolve(s, c, LinkOf(s, c), freshId).Ok?
    requires AddedRecord(s, c, meta, freshId) == NewlyAdded(s, c, meta, freshId)
    ensures var r := Participation.Appended(office, s, c, meta, freshId);
            && (r.Ok? <==> MayParticipate(office, s, c, meta, freshId))
            && (r.Ok? ==>
                  r.value == Participation.State(Participation.Resolve(s, c, LinkOf(s, c), freshId).value.1,
                                                 s.records + [AddedRecord(s, c, meta, freshId)], s.revision + 1))
  {
    hide *;
    AppendedIs(office, s, c, meta, freshId);
    PeriodsIs(s, AddedRecord(s, c, meta, freshId));
    AddedFor(s, c, meta, freshId);
    MayParticipateIs(office, s, c, meta, freshId);
  }

  lemma MayParticipateIs(office: Office, s: Participation.State, c: Participation.Command, meta: Meta, freshId: string)
    requires MayDeclare(office, s, c, meta, freshId)
    requires meta.id.Some? && meta.at.Some? && Participation.Resolve(s, c, LinkOf(s, c), freshId).Ok?
    ensures MayParticipate(office, s, c, meta, freshId) <==> KeepsPeriods(s, AddedRecord(s, c, meta, freshId))
  {
    hide MayDeclare, Participation.Resolve, LinkOf, KeepsPeriods, AddedRecord;
  }

  lemma AppendedIs(office: Office, s: Participation.State, c: Participation.Command, meta: Meta, freshId: string)
    requires Participation.Precheck(office, s, c, meta, freshId).None?
    requires meta.id.Some? && meta.at.Some? && Participation.Resolve(s, c, LinkOf(s, c), freshId).Ok?
    ensures var r, e := Participation.Appended(office, s, c, meta, freshId), NewlyAdded(s, c, meta, freshId);
            && (r.Ok? <==> PeriodsTakeTurns(s, e, c.holdingId))
            && (r.Ok? ==>
                  r.value == Participation.State(Participation.Resolve(s, c, LinkOf(s, c), freshId).value.1,
                                                 s.records + [e], s.revision + 1))
  {
    hide Participation.Precheck, Participation.Resolve, Participation.LinkAt, Participation.Remaining, InForce,
         Participation.NewRecord, OfHolding, Participation.Mappings, Participation.Alternates;
  }

  /** The code's own check and its own record. */
  ghost predicate PeriodsTakeTurns(s: Participation.State, e: Participation.Rec, h: string) {
    Participation.Alternates(Participation.Mappings(OfHolding(InForce(s.records + [e]), h)))
  }

  ghost function NewlyAdded(s: Participation.State, c: Participation.Command, meta: Meta, freshId: string):
    Participation.Rec
    requires meta.id.Some? && meta.at.Some? && Participation.Resolve(s, c, LinkOf(s, c), freshId).Ok?
  {
    Participation.NewRecord(c, meta.id.value, meta.at.value, Participation.Resolve(s, c, LinkOf(s, c), freshId).value.0,
                            if c.kind == Participation.Link then meta.id.value else LinkOf(s, c).value.id)
  }

  lemma AddedIs(office: Office, s: Participation.State, c: Participation.Command, meta: Meta, freshId: string)
    requires meta.id.Some? && meta.at.Some? && Participation.Resolve(s, c, LinkOf(s, c), freshId).Ok?
    ensures AddedRecord(s, c, meta, freshId) == NewlyAdded(s, c, meta, freshId)
  {
    var found := Participation.Resolve(s, c, LinkOf(s, c), freshId).value.0;
    SameRecord(c, meta.id.value, meta.at.value, found,
               if c.kind == Participation.Link then meta.id.value else LinkOf(s, c).value.id);
    hide LinkOf, MappingRecord, Participation.NewRecord;
  }

  lemma AddedFor(s: Participation.State, c: Participation.Command, meta: Meta, freshId: string)
    requires meta.id.Some? && meta.at.Some? && Participation.Resolve(s, c, LinkOf(s, c), freshId).Ok?
    ensures AddedRecord(s, c, meta, freshId).holdingId == c.holdingId
  {
    hide LinkOf;
  }

  lemma DeclaredBy(office: Office, s: Participation.State, c: Participation.Command, meta: Meta, freshId: string)
    ensures MayDeclare(office, s, c, meta, freshId) ==> meta.id.Some? && meta.at.Some?
  {
    hide Sourced, CorrectsMapping, DayTaken;
  }

  lemma SameRecord(c: Participation.Command, id: int, at: int, investmentId: string, linkId: int)
    ensures Participation.NewRecord(c, id, at, investmentId, linkId) == MappingRecord(c, id, at, investmentId, linkId)
  {
  }

  lemma PeriodsIs(s: Participation.State, e: Participation.Rec)
    ensures KeepsPeriods(s, e) <==> PeriodsTakeTurns(s, e, e.holdingId)
  {
    hide InForce, OfHolding, Participation.Mappings;
  }

  function MappingRecord(c: Participation.Command, id: int, at: int, investmentId: string, linkId: int)
      : Participation.Rec {
    Entry(id, c.holdingId, c.date, if c.kind == Participation.Ownership then 1 else 0, at, c.correctionOf,
          Participation.Declaration(c.kind, investmentId, linkId, c.sourceId))
  }

  /** With the record, links and unlinks of the position still take turns, a link first. */
  ghost predicate KeepsPeriods(s: Participation.State, e: Participation.Rec) {
    var maps := Participation.Mappings(OfHolding(InForce(s.records + [e]), e.holdingId));
    forall i :: 0 <= i < |maps| ==> (maps[i].body.kind == Participation.Link <==> i % 2 == 0)
  }
}
