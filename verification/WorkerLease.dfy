/**
 Document workers fenced by queue leases: the start, completion and failure
 transactions of `iteration` (scripts/worker.ts), the claim and renewal statements
 (lib/server/worker-scope.ts) and the retry rule (lib/server/worker-retry.ts).

 A transaction reads the database clock at two points `t1 <= t2`; a lease may expire
 between them.  Locks make each transaction atomic with respect to the others.
 */
module WorkerLease {
  import opened Common

  datatype Status = Queued | Processing | AwaitingReview | Accepted | Failed | Cancelled | Rejected

  /** `results` counts how many extraction results were ever stored for the job. */
  datatype Job = Job(status: Status, results: nat, errorCode: Option<string>, pinned: bool)

  datatype Lease = Free | Held(owner: string, until: int)

  datatype QueueRow = QueueRow(lease: Lease, availableAt: int, attempts: nat, deferrals: nat)

  datatype Db = Db(jobs: map<string, Job>, queue: map<string, QueueRow>)

  datatype Decision = Shutdown | Capacity | Retry | Fail

  const LEASE_SECONDS: int := 90
  const RETRY_SECONDS: int := 30

  predicate Pending(s: Status) { s == Queued || s == Processing }

  /** `lease_owner = w AND lease_until > t` */
  predicate Live(db: Db, w: string, id: string, t: int) {
    id in db.queue && db.queue[id].lease.Held? && db.queue[id].lease.owner == w && db.queue[id].lease.until > t
  }

  /** The retry rule: capacity is bounded apart from failures; rejected requests never retry. */
  function RetryDecision(stopping: bool, code: string, attempts: int, deferrals: int): Decision {
    if stopping then Shutdown
    else if code == "PROCESSOR_HTTP_503" then (if deferrals < 30 then Capacity else Fail)
    else if code in {"PROCESSOR_HTTP_400", "PROCESSOR_HTTP_413", "PROCESSOR_HTTP_415", "PROCESSOR_HTTP_422"} then Fail
    else if attempts < 3 then Retry
    else Fail
  }

  // --- What each statement does to the database ---------------------------------

  function SetStatus(db: Db, id: string, status: Status, error: Option<string>): Db
    requires id in db.jobs
  {
    db.(jobs := db.jobs[id := db.jobs[id].(status := status, errorCode := error)])
  }

  /** `UPDATE app_jobs ... WHERE status='processing'`: no row, no effect. */
  function IfProcessing(db: Db, id: string, status: Status, error: Option<string>): Db {
    if id in db.jobs && db.jobs[id].status == Processing then SetStatus(db, id, status, error) else db
  }

  function DeleteRow(db: Db, id: string): Db { db.(queue := db.queue - {id}) }

  function ReleaseRow(db: Db, id: string, availableAt: int, refund: bool, deferral: nat): Db
    requires id in db.queue
  {
    var row := db.queue[id];
    var attempts := if refund then Max(row.attempts - 1, 0) else row.attempts;
    db.(queue := db.queue[id := QueueRow(Free, availableAt, attempts, row.deferrals + deferral)])
  }

  datatype Outcome = Committed | Nothing | RolledBack

  /** The start transaction: `trouble` is any exception raised while pinning or auditing. */
  function StartTx(db: Db, w: string, id: string, t1: int, t2: int, trouble: bool): (Db, Outcome) {
    if id !in db.jobs || !Pending(db.jobs[id].status) || !Live(db, w, id, t1) then (db, Nothing)
    else if trouble || !Live(db, w, id, t2) then (db, RolledBack)
    else (db.(jobs := db.jobs[id := Job(Processing, db.jobs[id].results, None, true)]), Committed)
  }

  /** Removing the row of a job the start transaction could not use. */
  function DropTx(db: Db, w: string, id: string, t: int): Db {
    if Live(db, w, id, t) then DeleteRow(db, id) else db
  }

  function StoreResult(db: Db, id: string): Db {
    if id in db.jobs && db.jobs[id].status == Processing
    then db.(jobs := db.jobs[id := db.jobs[id].(status := AwaitingReview, results := db.jobs[id].results + 1,
                                                errorCode := None)])
    else db
  }

  function CompleteTx(db: Db, w: string, id: string, t1: int, t2: int): (Db, Outcome) {
    if !Live(db, w, id, t1) then (db, Nothing)
    else if !Live(db, w, id, t2) then (db, RolledBack)
    else (DeleteRow(StoreResult(db, id), id), Committed)
  }

  function FailTx(db: Db, w: string, id: string, t1: int, t2: int, decision: Decision, code: string): (Db, Outcome) {
    if !Live(db, w, id, t1) then (db, Nothing)
    else if !Live(db, w, id, t2) then (db, RolledBack)
    else
      match decision
      case Shutdown => (ReleaseRow(IfProcessing(db, id, Queued, None), id, t1, true, 0), Committed)
      case Capacity => (ReleaseRow(IfProcessing(db, id, Queued, Some("PROCESSOR_BUSY")), id, t1 + RETRY_SECONDS,
                                   true, 1),
                        Committed)
      case Retry => (ReleaseRow(IfProcessing(db, id, Queued, Some(code)), id, t1 + RETRY_SECONDS, false, 0), Committed)
      case Fail => (DeleteRow(IfProcessing(db, id, Failed, Some(code)), id), Committed)
  }

  /** `claimDocumentJob`: only an available row whose lease is free or has expired. */
  predicate Claimable(db: Db, id: string, now: int) {
    id in db.queue && db.queue[id].availableAt <= now
    && (db.queue[id].lease.Free? || db.queue[id].lease.until < now)
  }

  function ClaimRow(db: Db, w: string, id: string, now: int): Db
    requires id in db.queue
  {
    db.(queue := db.queue[id := db.queue[id].(lease := Held(w, now + LEASE_SECONDS),
                                              attempts := db.queue[id].attempts + 1)])
  }

  /** `renewDocumentLease`: extends only a live lease of the caller. */
  function RenewLease(db: Db, w: string, id: string, now: int): Db {
    if Live(db, w, id, now)
    then db.(queue := db.queue[id := db.queue[id].(lease := Held(w, now + LEASE_SECONDS))]) else db
  }

  // --- The transactions, statement by statement -----------------------------------

  class Store {
    var jobs: map<string, Job>
    var queue: map<string, QueueRow>

    constructor ()
      ensures Contents() == Db(map[], map[])
    {
      jobs, queue := map[], map[];
    }

    function Contents(): Db
      reads this
    {
      Db(jobs, queue)
    }

    method Start(w: string, id: string, t1: int, t2: int, trouble: bool) returns (outcome: Outcome)
      requires t1 <= t2
      modifies this
      ensures (Contents(), outcome) == StartTx(old(Contents()), w, id, t1, t2, trouble)
    {
      if id !in jobs || !Pending(jobs[id].status) { return Nothing; }
      if !Live(Contents(), w, id, t1) { return Nothing; }
      var saved := jobs;
      if !jobs[id].pinned {
        if trouble { return RolledBack; }
        jobs := jobs[id := jobs[id].(pinned := true)];
      }
      jobs := jobs[id := jobs[id].(status := Processing, errorCode := None)];
      assert jobs == saved[id := Job(Processing, saved[id].results, None, true)];
      if trouble || !Live(Contents(), w, id, t2) {
        jobs := saved;
        return RolledBack;
      }
      return Committed;
    }

    /** Only the caller's own live row can go: no other row, no other holder's, and no job changes. */
    method Drop(w: string, id: string, t: int)
      modifies this`queue
      ensures Contents() == DropTx(old(Contents()), w, id, t)
      ensures forall x :: x in old(queue) && (x != id || !old(Live(Contents(), w, id, t))) ==>
                x in queue && queue[x] == old(queue)[x]
      ensures forall x :: x in queue ==> x in old(queue)
      ensures old(Live(Contents(), w, id, t)) ==> id !in queue
    {
      if Live(Contents(), w, id, t) { queue := queue - {id}; }
    }

    method Complete(w: string, id: string, t1: int, t2: int) returns (outcome: Outcome)
      requires t1 <= t2
      modifies this
      ensures (Contents(), outcome) == CompleteTx(old(Contents()), w, id, t1, t2)
    {
      if !Live(Contents(), w, id, t1) { return Nothing; }
      var saved := jobs;
      if id in jobs && jobs[id].status == Processing {
        jobs := jobs[id := jobs[id].(status := AwaitingReview, results := jobs[id].results + 1, errorCode := None)];
      }
      if !Live(Contents(), w, id, t2) {
        jobs := saved;
        return RolledBack;
      }
      queue := queue - {id};
      return Committed;
    }

    method FailJob(w: string, id: string, t1: int, t2: int, stopping: bool, code: string, attempts: int, deferrals: int)
      returns (outcome: Outcome)
      requires t1 <= t2
      modifies this
      ensures (Contents(), outcome) ==
              FailTx(old(Contents()), w, id, t1, t2, RetryDecision(stopping, code, attempts, deferrals), code)
    {
      if !Live(Contents(), w, id, t1) { return Nothing; }
      var decision := RetryDecision(stopping, code, attempts, deferrals);
      var saved := jobs;
      if id in jobs && jobs[id].status == Processing {
        var status := if decision == Fail then Failed else Queued;
        var error := match decision
          case Shutdown => None
          case Capacity => Some("PROCESSOR_BUSY")
          case Retry => Some(code)
          case Fail => Some(code);
        jobs := jobs[id := jobs[id].(status := status, errorCode := error)];
      }
      if !Live(Contents(), w, id, t2) {
        jobs := saved;
        return RolledBack;
      }
      var row := queue[id];
      match decision {
        case Shutdown => queue := queue[id := QueueRow(Free, t1, Max(row.attempts - 1, 0), row.deferrals)];
        case Capacity =>
          queue := queue[id := QueueRow(Free, t1 + RETRY_SECONDS, Max(row.attempts - 1, 0), row.deferrals + 1)];
        case Retry => queue := queue[id := QueueRow(Free, t1 + RETRY_SECONDS, row.attempts, row.deferrals)];
        case Fail => queue := queue - {id};
      }
      return Committed;
    }
  }

  // --- Fencing ---------------------------------------------------------------------

  /** A transaction whose caller has no live lease at both clock readings changes nothing. */
  lemma NoLeaseNoChange(db: Db, w: string, id: string, t1: int, t2: int, trouble: bool, d: Decision, code: string)
    requires t1 <= t2 && !(Live(db, w, id, t1) && Live(db, w, id, t2))
    ensures StartTx(db, w, id, t1, t2, trouble).0 == db
    ensures CompleteTx(db, w, id, t1, t2).0 == db
    ensures FailTx(db, w, id, t1, t2, d, code).0 == db
    ensures DropTx(db, w, id, t2) == db
  {
  }

  // --- Many workers ------------------------------------------------------------------

  /** What one worker is doing; `troubled` records that its start transaction threw. */
  datatype Phase =
    | Idle
    | Claimed(id: string, attempts: int, deferrals: int)
    | Running(id: string, attempts: int, deferrals: int)
    | Dropping(id: string)
    | Failing(id: string, attempts: int, deferrals: int, troubled: bool)

  datatype System = System(db: Db, now: int, phase: map<string, Phase>)

  function PhaseOf(s: System, w: string): Phase { if w in s.phase then s.phase[w] else Idle }

  datatype Step =
    | Tick(t: int)
    | Enqueue(id: string, legacy: bool)
    | Claim(w: string, id: string)
    | Renew(w: string, id: string)
    | StartJob(w: string, t1: int, t2: int, trouble: bool)
    | DropJob(w: string, t: int)
    | Break(w: string)
    | CompleteJob(w: string, t1: int, t2: int, publishFails: bool)
    | Abandon(w: string)
    | EndFailed(w: string, t1: int, t2: int, stopping: bool, code: string)
    | Cancel(id: string)
    | Requeue(id: string)
    | Review(id: string, accept: bool)

  /** When a step can happen. */
  ghost predicate Enabled(s: System, step: Step) {
    match step
    case Tick(t) => s.now <= t
    case Enqueue(id, _) => id !in s.db.jobs
    case Claim(w, id) => PhaseOf(s, w) == Idle && Claimable(s.db, id, s.now)
    case Renew(_, _) => true
    case StartJob(w, t1, t2, _) => PhaseOf(s, w).Claimed? && s.now <= t1 <= t2
    case DropJob(w, t) => PhaseOf(s, w).Dropping? && s.now <= t
    case Break(w) => PhaseOf(s, w).Running?
    case CompleteJob(w, t1, t2, _) => PhaseOf(s, w).Running? && s.now <= t1 <= t2
    case Abandon(_) => true
    case EndFailed(w, t1, t2, _, _) => PhaseOf(s, w).Failing? && s.now <= t1 <= t2
    case Cancel(id) => id in s.db.jobs && Pending(s.db.jobs[id].status)
    case Requeue(id) => id in s.db.jobs && s.db.jobs[id].status in {Failed, Cancelled}
    case Review(id, _) => id in s.db.jobs && s.db.jobs[id].status == AwaitingReview
  }

  function SetPhase(s: System, db: Db, now: int, w: string, p: Phase): System {
    System(db, now, s.phase[w := p])
  }

  ghost function Next(s: System, step: Step): System
    requires Enabled(s, step)
  {
    match step
    case Tick(t) => s.(now := t)
    case Enqueue(id, legacy) =>
      s.(db := Db(s.db.jobs[id := Job(Queued, 0, None, !legacy)], s.db.queue[id := QueueRow(Free, s.now, 0, 0)]))
    case Claim(w, id) =>
      SetPhase(s, ClaimRow(s.db, w, id, s.now), s.now, w,
               Claimed(id, s.db.queue[id].attempts + 1, s.db.queue[id].deferrals))
    case Renew(w, id) => s.(db := RenewLease(s.db, w, id, s.now))
    case StartJob(w, t1, t2, trouble) =>
      var p := PhaseOf(s, w);
      var r := StartTx(s.db, w, p.id, t1, t2, trouble);
      SetPhase(s, r.0, t2, w,
               match r.1
               case Committed => Running(p.id, p.attempts, p.deferrals)
               case Nothing => Dropping(p.id)
               case RolledBack => Failing(p.id, p.attempts, p.deferrals, trouble))
    case DropJob(w, t) => SetPhase(s, DropTx(s.db, w, PhaseOf(s, w).id, t), t, w, Idle)
    case Break(w) =>
      var p := PhaseOf(s, w);
      SetPhase(s, s.db, s.now, w, Failing(p.id, p.attempts, p.deferrals, false))
    case Abandon(w) => SetPhase(s, s.db, s.now, w, Idle)
    case CompleteJob(w, t1, t2, publishFails) =>
      var p := PhaseOf(s, w);
      var r := CompleteTx(s.db, w, p.id, t1, t2);
      SetPhase(s, r.0, t2, w,
               if r.1 == RolledBack || publishFails then Failing(p.id, p.attempts, p.deferrals, false) else Idle)
    case EndFailed(w, t1, t2, stopping, code) =>
      var p := PhaseOf(s, w);
      SetPhase(s, FailTx(s.db, w, p.id, t1, t2, RetryDecision(stopping, code, p.attempts, p.deferrals), code).0, t2,
               w, Idle)
    case Cancel(id) => s.(db := DeleteRow(SetStatus(s.db, id, Cancelled, None), id))
    case Requeue(id) =>
      s.(db := Db(SetStatus(s.db, id, Queued, None).jobs, s.db.queue[id := QueueRow(Free, s.now, 0, 0)]))
    case Review(id, accept) => s.(db := SetStatus(s.db, id, if accept then Accepted else Rejected, None))
  }

  ghost predicate IsRun(states: seq<System>, steps: seq<Step>) {
    && |states| == |steps| + 1
    && states[0] == System(Db(map[], map[]), 0, map[])
    && forall i :: 0 <= i < |steps| ==> Enabled(states[i], steps[i]) && states[i + 1] == Next(states[i], steps[i])
  }

  /** A result is stored once, when the job leaves processing for review. */
  ghost predicate OneResult(j: Job) { j.results == if j.status in {AwaitingReview, Accepted, Rejected} then 1 else 0 }

  ghost predicate OneResultEach(jobs: map<string, Job>) { forall id :: id in jobs ==> OneResult(jobs[id]) }

  ghost predicate ResultsOnce(s: System) { OneResultEach(s.db.jobs) }

  ghost predicate ProcessingKeepsRow(s: System) {
    forall id :: id in s.db.jobs && s.db.jobs[id].status == Processing ==> id in s.db.queue
  }

  ghost predicate QueuedKeepsRow(s: System) {
    forall id :: id in s.db.jobs && s.db.jobs[id].status == Queued ==> id in s.db.queue
  }

  /** What a worker may rely on while its lease is live. */
  ghost predicate PhaseOk(s: System, w: string) {
    match PhaseOf(s, w)
    case Running(id, _, _) => Live(s.db, w, id, s.now) ==> id in s.db.jobs && s.db.jobs[id].status == Processing
    case Failing(id, _, _, troubled) =>
      Live(s.db, w, id, s.now) ==> id in s.db.jobs && Pending(s.db.jobs[id].status) &&
                                   (troubled || s.db.jobs[id].status == Processing)
    case Dropping(id) => Live(s.db, w, id, s.now) ==> id !in s.db.jobs || !Pending(s.db.jobs[id].status)
    case _ => true
  }

  ghost predicate Inv(s: System) {
    && ResultsOnce(s) && ProcessingKeepsRow(s)
    && (forall w :: PhaseOk(s, w))
    && (forall id :: id in s.db.queue ==> id in s.db.jobs)
  }

  /** The step that loses a queued job's row: final failure of a job whose start threw. */
  ghost predicate Orphans(s: System, step: Step) {
    step.EndFailed? && PhaseOf(s, step.w).Failing? &&
    var p := PhaseOf(s, step.w);
    && Live(s.db, step.w, p.id, step.t1) && Live(s.db, step.w, p.id, step.t2)
    && RetryDecision(step.stopping, step.code, p.attempts, p.deferrals) == Fail
    && p.id in s.db.jobs && s.db.jobs[p.id].status == Queued
  }

  lemma LiveEarlier(db: Db, w: string, id: string, t: int, later: int)
    requires t <= later && Live(db, w, id, later)
    ensures Live(db, w, id, t)
  {
  }

  lemma StartResults(db: Db, w: string, id: string, t1: int, t2: int, trouble: bool)
    requires OneResultEach(db.jobs)
    ensures OneResultEach(StartTx(db, w, id, t1, t2, trouble).0.jobs)
  {
    hide Live;
  }

  lemma CompleteResults(db: Db, w: string, id: string, t1: int, t2: int)
    requires OneResultEach(db.jobs)
    ensures OneResultEach(CompleteTx(db, w, id, t1, t2).0.jobs)
  {
    hide Live;
  }

  lemma FailResults(db: Db, w: string, id: string, t1: int, t2: int, decision: Decision, code: string)
    requires OneResultEach(db.jobs)
    ensures OneResultEach(FailTx(db, w, id, t1, t2, decision, code).0.jobs)
  {
    FailJobs(db, w, id, t1, t2, decision, code);
    hide FailTx;
  }

  /** What a failure transaction does to the jobs. */
  lemma FailJobs(db: Db, w: string, id: string, t1: int, t2: int, decision: Decision, code: string)
    ensures var after := FailTx(db, w, id, t1, t2, decision, code).0;
            || after.jobs == db.jobs
            || (id in db.jobs && db.jobs[id].status == Processing && id in after.jobs &&
                after.jobs == db.jobs[id := db.jobs[id].(status := if decision == Fail then Failed else Queued,
                                                         errorCode := after.jobs[id].errorCode)])
  {
    hide Live;
  }

  lemma StepResults(s: System, step: Step)
    requires Inv(s) && Enabled(s, step)
    ensures ResultsOnce(Next(s, step))
  {
    hide PhaseOk, ProcessingKeepsRow, StartTx, DropTx, CompleteTx, FailTx, RetryDecision, OneResult;
    match step
    case StartJob(w, t1, t2, trouble) => StartResults(s.db, w, PhaseOf(s, w).id, t1, t2, trouble);
    case DropJob(w, t) => DropKeepsJobs(s.db, w, PhaseOf(s, w).id, t);
    case CompleteJob(w, t1, t2, _) => CompleteResults(s.db, w, PhaseOf(s, w).id, t1, t2);
    case EndFailed(w, t1, t2, stopping, code) =>
      var p := PhaseOf(s, w);
      FailResults(s.db, w, p.id, t1, t2, RetryDecision(stopping, code, p.attempts, p.deferrals), code);
    case _ => OtherResults(s, step);
  }

  lemma DropKeepsJobs(db: Db, w: string, id: string, t: int)
    ensures DropTx(db, w, id, t).jobs == db.jobs
  {
  }

  lemma OtherResults(s: System, step: Step)
    requires ResultsOnce(s) && Enabled(s, step)
    requires !step.StartJob? && !step.DropJob? && !step.CompleteJob? && !step.EndFailed?
    ensures ResultsOnce(Next(s, step))
  {
    hide Live, Claimable;
  }

  lemma StepProcessing(s: System, step: Step)
    requires Inv(s) && Enabled(s, step)
    ensures ProcessingKeepsRow(Next(s, step))
    ensures forall id :: id in Next(s, step).db.queue ==> id in Next(s, step).db.jobs
  {
    ActorOk(s, step);
  }

  /** The acting worker's own expectation, at the time of its transaction. */
  lemma ActorOk(s: System, step: Step)
    requires Inv(s) && Enabled(s, step)
    ensures step.StartJob? || step.DropJob? || step.Break? || step.CompleteJob? || step.EndFailed? ==>
              PhaseOk(s, step.w)
  {
  }

  lemma StartPhases(s: System, step: Step, w: string)
    requires PhaseOk(s, w) && Enabled(s, step) && (step.StartJob? || step.DropJob?)
    ensures PhaseOk(Next(s, step), w)
  {
    hide RetryDecision;
  }

  lemma CompletePhases(s: System, step: Step, w: string)
    requires PhaseOk(s, w) && Enabled(s, step) && step.CompleteJob? && PhaseOk(s, step.w)
    ensures PhaseOk(Next(s, step), w)
  {
    hide RetryDecision;
  }

  lemma FailPhases(s: System, step: Step, w: string)
    requires PhaseOk(s, w) && Enabled(s, step) && step.EndFailed? && PhaseOk(s, step.w)
    ensures PhaseOk(Next(s, step), w)
  {
    hide RetryDecision;
  }

  lemma OtherPhases(s: System, step: Step, w: string)
    requires PhaseOk(s, w) && Enabled(s, step)
    requires forall id :: id in s.db.queue ==> id in s.db.jobs
    requires !step.StartJob? && !step.DropJob? && !step.CompleteJob? && !step.EndFailed?
    ensures PhaseOk(Next(s, step), w)
  {
    hide RetryDecision;
  }

  lemma StepPhases(s: System, step: Step, w: string)
    requires Inv(s) && Enabled(s, step)
    ensures PhaseOk(Next(s, step), w)
  {
    ActorOk(s, step);
    assert PhaseOk(s, w);
    hide PhaseOk, Next, Enabled, ResultsOnce, ProcessingKeepsRow;
    if step.StartJob? || step.DropJob? {
      StartPhases(s, step, w);
    } else if step.CompleteJob? {
      CompletePhases(s, step, w);
    } else if step.EndFailed? {
      FailPhases(s, step, w);
    } else {
      OtherPhases(s, step, w);
    }
  }

  lemma StepInv(s: System, step: Step)
    requires Inv(s) && Enabled(s, step)
    ensures Inv(Next(s, step))
  {
    StepResults(s, step);
    StepProcessing(s, step);
    forall w ensures PhaseOk(Next(s, step), w) { StepPhases(s, step, w); }
  }

  /** Exactly one kind of step can strip a queued job of its row. */
  lemma QueuedRowsKeptExactly(s: System, step: Step)
    requires Inv(s) && QueuedKeepsRow(s) && Enabled(s, step)
    ensures QueuedKeepsRow(Next(s, step)) <==> !Orphans(s, step)
  {
    if Orphans(s, step) {
      var id := PhaseOf(s, step.w).id;
      var s' := Next(s, step);
      assert id in s'.db.jobs && s'.db.jobs[id].status == Queued && id !in s'.db.queue;
    } else {
      QueuedRowsKept(s, step);
    }
  }

  lemma QueuedRowsKept(s: System, step: Step)
    requires Inv(s) && QueuedKeepsRow(s) && Enabled(s, step) && !Orphans(s, step)
    ensures QueuedKeepsRow(Next(s, step))
  {
    ActorOk(s, step);
  }

  /** Over every run: one result per job at most, and a processing job has its queue row. */
  lemma {:induction false} RunsAreFenced(states: seq<System>, steps: seq<Step>)
    requires IsRun(states, steps)
    ensures Inv(states[|steps|])
    decreases |steps|
  {
    if |steps| > 0 {
      var n := |steps| - 1;
      RunsAreFenced(states[..n + 1], steps[..n]);
      assert states[..n + 1][n] == states[n];
      StepInv(states[n], steps[n]);
    }
  }

  /** A run keeps every queued job's row throughout exactly when none of its steps orphans one. */
  lemma RunsKeepRowsExactly(states: seq<System>, steps: seq<Step>)
    requires IsRun(states, steps)
    ensures (forall i :: 0 <= i < |states| ==> QueuedKeepsRow(states[i])) <==>
            (forall i :: 0 <= i < |steps| ==> !Orphans(states[i], steps[i]))
  {
    hide Enabled, Next, Inv, Orphans, QueuedKeepsRow;
    if forall i :: 0 <= i < |states| ==> QueuedKeepsRow(states[i]) {
      forall i | 0 <= i < |steps| ensures !Orphans(states[i], steps[i]) { StepInRun(states, steps, i); }
    }
    if forall i :: 0 <= i < |steps| ==> !Orphans(states[i], steps[i]) {
      forall i | 0 <= i < |states| ensures QueuedKeepsRow(states[i]) { KeptUpTo(states, steps, i); }
    }
  }

  lemma StepInRun(states: seq<System>, steps: seq<Step>, i: nat)
    requires IsRun(states, steps) && i < |steps| && QueuedKeepsRow(states[i])
    ensures QueuedKeepsRow(states[i + 1]) <==> !Orphans(states[i], steps[i])
  {
    hide Enabled, Next, Inv, Orphans, QueuedKeepsRow;
    RunFront(states, steps, i);
    RunsAreFenced(states[..i + 1], steps[..i]);
    assert Enabled(states[i], steps[i]) && states[i + 1] == Next(states[i], steps[i]);
    QueuedRowsKeptExactly(states[i], steps[i]);
  }

  lemma {:induction false} KeptUpTo(states: seq<System>, steps: seq<Step>, i: nat)
    requires IsRun(states, steps) && i < |states|
    requires forall j :: 0 <= j < i ==> !Orphans(states[j], steps[j])
    ensures QueuedKeepsRow(states[i])
  {
    hide Enabled, Next, Orphans, QueuedKeepsRow;
    if i == 0 {
      NoRowsYet(states[0]);
    } else {
      KeptUpTo(states, steps, i - 1);
      StepInRun(states, steps, i - 1);
    }
  }

  lemma NoRowsYet(s: System)
    requires s.db.jobs == map[]
    ensures QueuedKeepsRow(s)
  {
  }

  lemma RunFront(states: seq<System>, steps: seq<Step>, n: nat)
    requires IsRun(states, steps) && n <= |steps|
    ensures IsRun(states[..n + 1], steps[..n]) && states[..n + 1][n] == states[n]
  {
    hide Enabled, Next;
  }

  /** No start transaction threw for a reason other than a lost lease. */
  ghost predicate CleanStarts(steps: seq<Step>) {
    forall i :: 0 <= i < |steps| && steps[i].StartJob? ==> !steps[i].trouble
  }

  ghost predicate Untroubled(s: System) {
    forall w :: PhaseOf(s, w).Failing? ==> !PhaseOf(s, w).troubled
  }

  /** If starts never throw, every queued or processing job keeps its queue row. */
  lemma {:induction false} CleanRunsKeepRows(states: seq<System>, steps: seq<Step>)
    requires IsRun(states, steps) && CleanStarts(steps)
    ensures QueuedKeepsRow(states[|steps|]) && Untroubled(states[|steps|])
    decreases |steps|
  {
    if |steps| > 0 {
      var n := |steps| - 1;
      CleanRunsKeepRows(states[..n + 1], steps[..n]);
      RunsAreFenced(states[..n + 1], steps[..n]);
      assert states[..n + 1][n] == states[n];
      var s, step := states[n], steps[n];
      if step.EndFailed? {
        assert PhaseOk(s, step.w);
        var p := PhaseOf(s, step.w);
        if Live(s.db, step.w, p.id, step.t1) { LiveEarlier(s.db, step.w, p.id, s.now, step.t1); }
      }
      QueuedRowsKept(s, step);
      StepUntroubled(s, step);
    }
  }

  lemma StepUntroubled(s: System, step: Step)
    requires Enabled(s, step) && Untroubled(s) && (step.StartJob? ==> !step.trouble)
    ensures Untroubled(Next(s, step))
  {
    forall w | PhaseOf(Next(s, step), w).Failing? ensures !PhaseOf(Next(s, step), w).troubled {
      if PhaseOf(s, w).Failing? { assert !PhaseOf(s, w).troubled; }
    }
  }

  // --- A worker works alone --------------------------------------------------------------

  /** The worker that takes a step, if it is a worker's. */
  function WorkerOf(step: Step): Option<string> {
    match step
    case Claim(w, _) => Some(w)
    case Renew(w, _) => Some(w)
    case StartJob(w, _, _, _) => Some(w)
    case DropJob(w, _) => Some(w)
    case Break(w) => Some(w)
    case CompleteJob(w, _, _, _) => Some(w)
    case Abandon(w) => Some(w)
    case EndFailed(w, _, _, _, _) => Some(w)
    case _ => None
  }

  /** The job changed, or it lost its queue row. */
  ghost predicate Touched(before: Db, after: Db, id: string) {
    (id in before.jobs && (id !in after.jobs || after.jobs[id] != before.jobs[id]))
    || (id !in before.jobs && id in after.jobs)
    || (id in before.queue && id !in after.queue)
  }

  /**
   A worker's step touches a job only while its own lease on it is live, from before the step to
   its last clock reading.
   */
  lemma TouchNeedsLease(s: System, step: Step, w: string, id: string)
    requires Enabled(s, step) && WorkerOf(step) == Some(w) && Touched(s.db, Next(s, step).db, id)
    ensures Live(s.db, w, id, s.now) && Live(s.db, w, id, Next(s, step).now)
    ensures forall v, t :: v != w ==> !Live(s.db, v, id, t)
  {
    hide RetryDecision, Claimable, IfProcessing, StoreResult;
    match step
    case StartJob(_, t1, t2, trouble) => OnlyItsJob(s.db, w, PhaseOf(s, w).id, t1, t2, trouble, Fail, "", id);
    case DropJob(_, t) => LiveAt(s.db, w, PhaseOf(s, w).id, s.now, t);
    case CompleteJob(_, t1, t2, _) => OnlyItsJob(s.db, w, PhaseOf(s, w).id, t1, t2, false, Fail, "", id);
    case EndFailed(_, t1, t2, stopping, code) =>
      var p := PhaseOf(s, w);
      OnlyItsJob(s.db, w, p.id, t1, t2, false, RetryDecision(stopping, code, p.attempts, p.deferrals), code, id);
    case _ =>
  }

  lemma LiveAt(db: Db, w: string, id: string, t: int, later: int)
    requires t <= later
    ensures Live(db, w, id, later) ==> Live(db, w, id, t)
  {
  }

  /** The transactions about one job touch no other, and this one only between two live readings. */
  lemma OnlyItsJob(db: Db, w: string, job: string, t1: int, t2: int, trouble: bool, d: Decision, code: string,
                   id: string)
    requires t1 <= t2
    requires || Touched(db, StartTx(db, w, job, t1, t2, trouble).0, id)
             || Touched(db, CompleteTx(db, w, job, t1, t2).0, id)
             || Touched(db, FailTx(db, w, job, t1, t2, d, code).0, id)
    ensures id == job && Live(db, w, id, t1) && Live(db, w, id, t2)
  {
    if !(Live(db, w, job, t1) && Live(db, w, job, t2)) {
      NoLeaseNoChange(db, w, job, t1, t2, trouble, d, code);
    }
  }

  /** How a step leaves a row leased to `w`: by its own claim, or already leased and never expired since. */
  lemma LeaseComesFrom(s: System, step: Step, w: string, id: string)
    requires Enabled(s, step) && Live(Next(s, step).db, w, id, Next(s, step).now)
    ensures step == Claim(w, id) || Live(s.db, w, id, s.now)
  {
    hide RetryDecision;
  }

  /** A live lease goes back, unbroken, to its holder's claim. */
  lemma {:induction false} TenureIsUnbroken(states: seq<System>, steps: seq<Step>, i: nat, w: string, id: string)
    returns (k: nat)
    requires IsRun(states, steps) && i < |states| && Live(states[i].db, w, id, states[i].now)
    ensures k < i && steps[k] == Claim(w, id)
    ensures forall j :: k < j <= i ==> Live(states[j].db, w, id, states[j].now)
    decreases i
  {
    hide Enabled, Next;
    if i == 0 {
      assert false;
    } else {
      assert Enabled(states[i - 1], steps[i - 1]) && states[i] == Next(states[i - 1], steps[i - 1]);
      LeaseComesFrom(states[i - 1], steps[i - 1], w, id);
      if steps[i - 1] == Claim(w, id) {
        k := i - 1;
      } else {
        k := TenureIsUnbroken(states, steps, i - 1, w, id);
      }
    }
  }

  /** From its claim to any step by which a worker touches a job, no other worker touches that job. */
  lemma WorksAlone(states: seq<System>, steps: seq<Step>, i: nat, w: string, id: string) returns (k: nat)
    requires IsRun(states, steps) && i < |steps| && WorkerOf(steps[i]) == Some(w)
    requires Touched(states[i].db, states[i + 1].db, id)
    ensures k < i && steps[k] == Claim(w, id)
    ensures forall j :: k < j <= i ==> Live(states[j].db, w, id, states[j].now)
    ensures Live(states[i].db, w, id, states[i + 1].now)
    ensures forall j :: k < j < i && WorkerOf(steps[j]).Some? && WorkerOf(steps[j]) != Some(w) ==>
              !Touched(states[j].db, states[j + 1].db, id)
  {
    hide Enabled, Next, Touched, Live;
    assert Enabled(states[i], steps[i]) && states[i + 1] == Next(states[i], steps[i]);
    TouchNeedsLease(states[i], steps[i], w, id);
    k := TenureIsUnbroken(states, steps, i, w, id);
    forall j | k < j < i && WorkerOf(steps[j]).Some? && WorkerOf(steps[j]) != Some(w)
      ensures !Touched(states[j].db, states[j + 1].db, id)
    {
      assert Enabled(states[j], steps[j]) && states[j + 1] == Next(states[j], steps[j]);
      if Touched(states[j].db, states[j + 1].db, id) {
        TouchNeedsLease(states[j], steps[j], WorkerOf(steps[j]).value, id);
      }
    }
  }

  /** Dropping the row of a job the start could not use never strands a pending job. */
  lemma DropSparesPending(s: System, w: string, t: int, id: string)
    requires Inv(s) && Enabled(s, DropJob(w, t))
    requires id in s.db.jobs && Pending(s.db.jobs[id].status) && id in s.db.queue
    ensures id in Next(s, DropJob(w, t)).db.queue
    ensures Next(s, DropJob(w, t)).db.queue[id] == s.db.queue[id]
    ensures Next(s, DropJob(w, t)).db.jobs == s.db.jobs
  {
    hide ResultsOnce, ProcessingKeepsRow;
    assert PhaseOk(s, w);
    LiveAt(s.db, w, PhaseOf(s, w).id, s.now, t);
  }

  // --- A run in which a queued job is orphaned ----------------------------------------

  /** Job "j" waiting with a free row, after `n` attempts, seen by worker "w". */
  ghost predicate Waiting(s: System, n: nat) {
    && "j" in s.db.jobs
    && s.db.jobs == map["j" := Job(Queued, 0, s.db.jobs["j"].errorCode, false)]
    && s.db.queue == map["j" := QueueRow(Free, s.now, n, 0)]
    && PhaseOf(s, "w") == Idle
  }

  function Attempt(now: int): seq<Step> {
    [Claim("w", "j"), StartJob("w", now, now, true),
     EndFailed("w", now, now + RETRY_SECONDS, false, "PROCESSING_FAILED")]
  }

  ghost function AfterAttempt(s: System): System
    requires "j" in s.db.jobs && "j" in s.db.queue && Waiting(s, s.db.queue["j"].attempts)
  {
    AttemptEnabled(s);
    Next(Next(Next(s, Attempt(s.now)[0]), Attempt(s.now)[1]), Attempt(s.now)[2])
  }

  lemma AttemptEnabled(s: System)
    requires "j" in s.db.jobs && "j" in s.db.queue && Waiting(s, s.db.queue["j"].attempts)
    ensures Enabled(s, Attempt(s.now)[0])
    ensures Enabled(Next(s, Attempt(s.now)[0]), Attempt(s.now)[1])
    ensures Enabled(Next(Next(s, Attempt(s.now)[0]), Attempt(s.now)[1]), Attempt(s.now)[2])
  {
  }

  lemma AttemptEffect(s: System)
    requires "j" in s.db.jobs && "j" in s.db.queue && Waiting(s, s.db.queue["j"].attempts)
    ensures s.db.queue["j"].attempts < 2 ==>
              var t := AfterAttempt(s);
              "j" in t.db.jobs && "j" in t.db.queue && Waiting(t, s.db.queue["j"].attempts + 1)
    ensures s.db.queue["j"].attempts == 2 ==> !QueuedKeepsRow(AfterAttempt(s))
  {
    var s1 := Next(s, Attempt(s.now)[0]);
    AttemptEnabled(s);
    var n := s.db.queue["j"].attempts;
    assert s1.db.queue == map["j" := QueueRow(Held("w", s.now + LEASE_SECONDS), s.now, n + 1, 0)];
    var s2 := Next(s1, Attempt(s.now)[1]);
    assert s2.db == s1.db && PhaseOf(s2, "w") == Failing("j", n + 1, 0, true);
    var s3 := Next(s2, Attempt(s.now)[2]);
    assert s3.db.jobs == s.db.jobs;
    if n < 2 {
      assert s3.db.queue == map["j" := QueueRow(Free, s.now + RETRY_SECONDS, n + 1, 0)];
    } else if n == 2 {
      assert "j" in s3.db.jobs && s3.db.jobs["j"].status == Queued && "j" !in s3.db.queue;
    }
  }

  /** Without clean starts the claim fails: three thrown starts leave a queued job without a row. */
  lemma TroubledStartsOrphan() returns (states: seq<System>, steps: seq<Step>)
    ensures IsRun(states, steps) && !QueuedKeepsRow(states[|steps|])
  {
    var s0 := System(Db(map[], map[]), 0, map[]);
    var s1 := Next(s0, Enqueue("j", true));
    assert Waiting(s1, 0);
    states, steps := [s0, s1], [Enqueue("j", true)];
    var k := 0;
    while k < 3
      invariant 0 <= k <= 3 && |states| == |steps| + 1
      invariant IsRun(states, steps)
      invariant k < 3 ==> var s := states[|steps|]; "j" in s.db.jobs && "j" in s.db.queue && Waiting(s, k)
      invariant k == 3 ==> !QueuedKeepsRow(states[|steps|])
    {
      var s := states[|steps|];
      AttemptEnabled(s);
      AttemptEffect(s);
      states, steps := ExtendRun(states, steps, Attempt(s.now)[0]);
      states, steps := ExtendRun(states, steps, Attempt(s.now)[1]);
      states, steps := ExtendRun(states, steps, Attempt(s.now)[2]);
      k := k + 1;
    }
  }

  lemma ExtendRun(states: seq<System>, steps: seq<Step>, step: Step) returns (states': seq<System>, steps': seq<Step>)
    requires IsRun(states, steps) && Enabled(states[|steps|], step)
    ensures IsRun(states', steps') && |steps'| == |steps| + 1
    ensures states'[|steps'|] == Next(states[|steps|], step)
  {
    states', steps' := states + [Next(states[|steps|], step)], steps + [step];
  }
}
