/**
 Leases and retries over whole runs (scripts/worker.ts, lib/server/worker-scope.ts,
 lib/server/worker-retry.ts): a live lease keeps everyone else off its queue row, waiting for
 capacity ends after thirty deferrals, and a retry is granted only below three attempts.
 */
module WorkerRetries {
  import opened Common
  import opened WorkerLease

  // --- Leases -------------------------------------------------------------------------------------

  /** The clock, the office and reviewers act for themselves; every other step is a worker's own. */
  lemma WorkersAre(step: Step)
    ensures WorkerOf(step).None? <==> step.Tick? || step.Enqueue? || step.Cancel? || step.Requeue? || step.Review?
    ensures WorkerOf(step).Some? ==> WorkerOf(step).value == step.w
  {
  }

  /** While a lease is live, no step of another worker changes or removes the row. */
  lemma LeaseIsExclusive(s: System, step: Step, w: string, id: string)
    requires Enabled(s, step) && Live(s.db, w, id, s.now)
    requires WorkerOf(step).Some? && WorkerOf(step) != Some(w)
    ensures id in Next(s, step).db.queue && Next(s, step).db.queue[id] == s.db.queue[id]
  {
    hide RetryDecision;
  }

  /** A row may be claimed once it is available and every lease on it has run out before now. */
  lemma ClaimsExactly(s: System, w: string, id: string)
    ensures Enabled(s, Claim(w, id)) <==>
            && PhaseOf(s, w) == Idle && id in s.db.queue && s.db.queue[id].availableAt <= s.now
            && forall v, until :: s.db.queue[id].lease == Held(v, until) ==> until < s.now
  {
    if id in s.db.queue && s.db.queue[id].lease.Held? {
      var lease := s.db.queue[id].lease;
      assert lease == Held(lease.owner, lease.until);
    }
  }

  /** Claiming grants the row for ninety seconds, counts an attempt, and changes nothing else. */
  lemma ClaimGrants(s: System, w: string, id: string)
    requires Enabled(s, Claim(w, id))
    ensures var t, row := Next(s, Claim(w, id)), s.db.queue[id];
            && row.availableAt <= s.now && (forall v :: !Live(s.db, v, id, s.now))
            && (forall v, at :: Live(t.db, v, id, at) <==> v == w && at < s.now + 90)
            && t.db.queue[id].attempts == row.attempts + 1 && t.db.queue[id].deferrals == row.deferrals
            && t.db.queue[id].availableAt == row.availableAt
            && t.db.jobs == s.db.jobs && t.db.queue.Keys == s.db.queue.Keys
            && forall x :: x in s.db.queue && x != id ==> t.db.queue[x] == s.db.queue[x]
  {
  }

  /** Renewing moves only a live lease of its holder, to ninety seconds from now. */
  lemma RenewalExtends(s: System, w: string, id: string)
    ensures var t := Next(s, Renew(w, id));
            if Live(s.db, w, id, s.now) then
              && t.db == Db(s.db.jobs, s.db.queue[id := s.db.queue[id].(lease := Held(w, s.now + 90))])
            else t == s
  {
  }

  // --- The retry rule -----------------------------------------------------------------------------

  lemma RetryIs(stopping: bool, code: string, attempts: int, deferrals: int)
    ensures var d := RetryDecision(stopping, code, attempts, deferrals);
            && (d == Shutdown <==> stopping)
            && (d == Capacity <==> !stopping && code == "PROCESSOR_HTTP_503" && deferrals < 30)
            && (d == Retry <==>
                  !stopping && attempts < 3
                  && code !in {"PROCESSOR_HTTP_400", "PROCESSOR_HTTP_413", "PROCESSOR_HTTP_415", "PROCESSOR_HTTP_422",
                               "PROCESSOR_HTTP_503"})
  {
  }

  /** What a failure leaves of the row: its lease is given up, and the decision sets the time and the counts. */
  lemma ReleaseIs(db: Db, w: string, id: string, t1: int, t2: int, d: Decision, code: string)
    requires FailTx(db, w, id, t1, t2, d, code).1 == Committed
    ensures id in db.queue && Live(db, w, id, t1) && Live(db, w, id, t2)
    ensures var after, row := FailTx(db, w, id, t1, t2, d, code).0, db.queue[id];
            && (d == Fail <==> id !in after.queue)
            && (d != Fail ==>
                  var left := after.queue[id];
                  && left.lease.Free? && left.availableAt == (if d == Shutdown then t1 else t1 + 30)
                  && left.attempts == (if d == Retry || row.attempts == 0 then row.attempts else row.attempts - 1)
                  && left.deferrals == row.deferrals + (if d == Capacity then 1 else 0))
            && (forall x :: x != id ==> (x in after.queue <==> x in db.queue))
            && forall x :: x in db.queue && x != id ==> after.queue[x] == db.queue[x]
  {
    hide IfProcessing;
    QueueUnchanged(db, id);
  }

  lemma QueueUnchanged(db: Db, id: string)
    ensures forall status, error :: IfProcessing(db, id, status, error).queue == db.queue
  {
  }

  // --- Bounded waiting ----------------------------------------------------------------------------

  /** While its lease is live, a worker's counts are the row's. */
  ghost predicate CountsMatch(s: System, w: string) {
    match PhaseOf(s, w)
    case Claimed(id, a, d) => Live(s.db, w, id, s.now) ==> s.db.queue[id].attempts == a && s.db.queue[id].deferrals == d
    case Running(id, a, d) => Live(s.db, w, id, s.now) ==> s.db.queue[id].attempts == a && s.db.queue[id].deferrals == d
    case Failing(id, a, d, _) => Live(s.db, w, id, s.now) ==>
          s.db.queue[id].attempts == a && s.db.queue[id].deferrals == d
    case _ => true
  }

  ghost predicate Bounded(db: Db) { forall id :: id in db.queue ==> db.queue[id].deferrals <= 30 }

  ghost predicate CountsInv(s: System) { Bounded(s.db) && forall w :: CountsMatch(s, w) }

  lemma StepKeepsCount(s: System, step: Step, w: string)
    requires Enabled(s, step) && CountsMatch(s, w)
    ensures CountsMatch(Next(s, step), w)
  {
    hide RetryDecision;
    if WorkerOf(step) == Some(w) { OwnStepCounts(s, step, w); }
    else if WorkerOf(step).Some? { OthersCount(s, step, w); }
    else { OfficeCounts(s, step, w); }
  }

  lemma OwnStepCounts(s: System, step: Step, w: string)
    requires Enabled(s, step) && CountsMatch(s, w) && WorkerOf(step) == Some(w)
    ensures CountsMatch(Next(s, step), w)
  {
    hide RetryDecision;
  }

  lemma OthersCount(s: System, step: Step, w: string)
    requires Enabled(s, step) && CountsMatch(s, w) && WorkerOf(step).Some? && WorkerOf(step) != Some(w)
    ensures CountsMatch(Next(s, step), w)
  {
    hide RetryDecision;
  }

  lemma OfficeCounts(s: System, step: Step, w: string)
    requires Enabled(s, step) && CountsMatch(s, w) && WorkerOf(step).None?
    ensures CountsMatch(Next(s, step), w)
  {
    hide RetryDecision;
  }

  lemma StepKeepsBound(s: System, step: Step)
    requires Enabled(s, step) && CountsInv(s)
    ensures Bounded(Next(s, step).db)
  {
    if step.EndFailed? {
      assert CountsMatch(s, step.w);
      var p := PhaseOf(s, step.w);
      RetryIs(step.stopping, step.code, p.attempts, p.deferrals);
      var d := RetryDecision(step.stopping, step.code, p.attempts, p.deferrals);
      hide RetryDecision;
      var r := FailTx(s.db, step.w, p.id, step.t1, step.t2, d, step.code);
      if r.1 == Committed {
        LiveEarlier(s.db, step.w, p.id, s.now, step.t1);
        ReleaseIs(s.db, step.w, p.id, step.t1, step.t2, d, step.code);
        hide FailTx;
      }
    }
  }

  /** In every run no job waits for capacity more than thirty times. */
  lemma {:induction false} RunsBoundWaiting(states: seq<System>, steps: seq<Step>)
    requires IsRun(states, steps)
    ensures CountsInv(states[|steps|])
    decreases |steps|
  {
    hide Enabled, Next, CountsMatch, Bounded;
    if |steps| == 0 {
      NothingYet(states[0]);
    } else {
      var n := |steps| - 1;
      RunFront(states, steps, n);
      RunsBoundWaiting(states[..n + 1], steps[..n]);
      var s, step := states[n], steps[n];
      assert Enabled(s, step) && states[n + 1] == Next(s, step);
      StepKeepsBound(s, step);
      forall w ensures CountsMatch(Next(s, step), w) { StepKeepsCount(s, step, w); }
    }
  }

  lemma NothingYet(s: System)
    requires s == System(Db(map[], map[]), 0, map[])
    ensures CountsInv(s)
  {
  }

  /** A retry is granted only to a job claimed fewer than three times, and it keeps that count. */
  lemma RetryKeepsCount(states: seq<System>, steps: seq<Step>, i: nat)
    requires IsRun(states, steps) && i < |steps| && steps[i].EndFailed?
    requires Enabled(states[i], steps[i])
    requires var s, p := states[i], PhaseOf(states[i], steps[i].w);
             && RetryDecision(steps[i].stopping, steps[i].code, p.attempts, p.deferrals) == Retry
             && FailTx(s.db, steps[i].w, p.id, steps[i].t1, steps[i].t2, Retry, steps[i].code).1 == Committed
    ensures var id := PhaseOf(states[i], steps[i].w).id;
            id in states[i + 1].db.queue && states[i + 1].db.queue[id].attempts < 3
  {
    var s, step, p := states[i], steps[i], PhaseOf(states[i], steps[i].w);
    RunFront(states, steps, i);
    RunsBoundWaiting(states[..i + 1], steps[..i]);
    assert CountsMatch(s, step.w);
    RetryIs(step.stopping, step.code, p.attempts, p.deferrals);
    ReleaseIs(s.db, step.w, p.id, step.t1, step.t2, Retry, step.code);
    LiveEarlier(s.db, step.w, p.id, s.now, step.t1);
    assert states[i + 1] == Next(s, step);
    hide RetryDecision, FailTx;
  }
}
