/** The job table as the server and the worker use it (src/database/evaluation_jobs.py,
    src/evaluation_worker.py, src/evaluation.py). Between two statements of a method other processes may
    run; what they do is a parameter. */
module JobWorker {
  import opened Basics
  import opened Jobs
  import opened JobQueue

  datatype Creation = Created(id: nat) | Existing(id: nat) | Conflict

  /** How a start was answered: by promoting or retargeting the active job, by that job as it was read, by a new
      job, or by the one that kept it out. */
  datatype Route = Promoted | Retargeted | AsRead | Inserted | Clashed

  /** `shown` is the row that is returned to the caller. */
  datatype Start = Refused | Started(id: nat, shown: Job, route: Route) | HeldByOther

  predicate IsStale(j: Job, now: int) { Marker(j) <= now - TIMEOUT_SECONDS }

  /** A job that times out. */
  function TimedOut(j: Job, now: int): Job {
    j.(status := Failed, finishedAt := Some(now), error := Some("Evaluation job timed out"))
  }

  /** It has been waiting, or running, for less than five minutes. */
  predicate IsYoung(j: Job, now: int) {
    now - (if j.status == Running && j.startedAt != None then j.startedAt.value else j.createdAt) < 5 * 60
  }

  /** A job that has been running for five minutes times out, no other does. */
  predicate IsSwept(was: Job, now_: Job, now: int) {
    now_ == if was.status == Running && !IsYoung(was, now) then TimedOut(was, now) else was
  }

  lemma StaleIsNotYoung(j: Job, now: int)
    requires IsActive(j)
    ensures IsStale(j, now) <==> !IsYoung(j, now)
    ensures Changed(j, FailStale(0, j, now)) == TimedOut(j, now)
  {
  }

  lemma FailedAreSwept(was: Table, now_: Table, now: int)
    requires OnlyFailed(was, now_, StaleRunning(was, now), now)
    ensures forall i :: 0 <= i < |was| ==> IsSwept(was[i], now_[i], now)
  {
    forall i | 0 <= i < |was| ensures IsSwept(was[i], now_[i], now) {
      assert i in StaleRunning(was, now) <==> was[i].status.Running? && IsStale(was[i], now);
      if was[i].status.Running? { StaleIsNotYoung(was[i], now); }
    }
  }

  function StaleRunning(t: Table, now: int): set<nat> { set i | i in RunningIds(t) && IsStale(t[i], now) }

  predicate ActiveFor(j: Job, session: string, user: Option<string>) {
    j.sessionId == session && j.userId == user && IsActive(j)
  }

  /** Exactly the jobs in `done` were failed, at time `at`. */
  predicate OnlyFailed(was: Table, now: Table, done: set<nat>, at: int) {
    |now| == |was| &&
    forall i :: 0 <= i < |was| ==> now[i] == if i in done then Changed(was[i], FailStale(i, was[i], at)) else was[i]
  }

  lemma OneMoreFailed(was: Table, now: Table, done: set<nat>, n: nat, at: int)
    requires OnlyFailed(was, now, done, at) && n < |was| && n !in done && now[n].status.Running?
    ensures OnlyFailed(was, Apply(now, FailStale(n, now[n], at)), done + {n}, at)
  {
  }

  lemma FailingIsLater(was: Table, now: Table, done: set<nat>, at: int)
    requires OnlyFailed(was, now, done, at) && done <= RunningIds(was)
    ensures Later(was, now)
  {
  }

  function StaleBelow(t: Table, now: int, n: nat): set<nat> { set i | i in StaleRunning(t, now) && i < n }

  lemma StaleGrows(t: Table, now: int, n: nat)
    requires n < |t|
    ensures StaleBelow(t, now, n + 1) ==
      StaleBelow(t, now, n) + (if t[n].status.Running? && IsStale(t[n], now) then {n} else {})
    ensures n !in StaleBelow(t, now, n)
  {
  }

  // What other processes run meanwhile: `others(k)` are their statements in the k-th gap between two of ours.

  ghost predicate Lawful(others: nat -> seq<Op>) { forall k :: AllLegal(others(k)) }

  /** Only this worker claims. */
  ghost predicate Unclaiming(others: nat -> seq<Op>) { forall k :: NoClaims(others(k)) }

  /** From some gap on no new jobs arrive. */
  ghost predicate SettledFrom(others: nat -> seq<Op>, settled: nat) { forall k :: settled <= k ==> IsQuiet(others(k)) }

  /** How many creations others attempt in gaps `first` up to `end`, excluded. */
  function Arrivals(others: nat -> seq<Op>, first: nat, end: nat): nat
    decreases end
  {
    if end <= first then 0 else Arrivals(others, first, end - 1) + Creations(others(end - 1))
  }

  datatype Config = Config(maxConcurrent: nat, bufferMultiplier: nat, autoEnabled: bool, evaluator: string)

  class JobTable {
    var jobs: Table

    constructor ()
      ensures jobs == [] && Valid(jobs)
    {
      jobs := [];
    }

    /** A single guarded statement; tells whether it changed a row. */
    method Execute(op: Op) returns (changed: bool)
      requires Valid(jobs) && IsLegal(op) && !op.Create?
      modifies this
      ensures Valid(jobs) && Later(old(jobs), jobs) && jobs == Apply(old(jobs), op)
      ensures changed <==> op.id < |old(jobs)| && Applies(old(jobs)[op.id], op)
    {
      ApplyKeepsValid(jobs, op);
      changed := op.id < |jobs| && Applies(jobs[op.id], op);
      if changed { jobs := jobs[op.id := Changed(jobs[op.id], op)]; }
    }

    /** Other processes run. */
    method Others(ops: seq<Op>)
      requires Valid(jobs) && AllLegal(ops)
      modifies this
      ensures Valid(jobs) && Later(old(jobs), jobs) && jobs == ApplyAll(old(jobs), ops)
      ensures |jobs| <= |old(jobs)| + Creations(ops)
    {
      ApplyAllKeepsValid(jobs, ops);
      RowsAreCreated(jobs, ops);
      ghost var start := jobs;
      for k := 0 to |ops|
        invariant jobs == ApplyAll(start, ops[..k])
      {
        assert ops[..k + 1][..k] == ops[..k];
        jobs := Apply(jobs, ops[k]);
      }
      assert ops[..|ops|] == ops;
    }

    method IsHeld(session: string) returns (held: bool)
      ensures held <==> ActiveSession(jobs, session)
    {
      held := false;
      for n := 0 to |jobs|
        invariant !held && forall i :: 0 <= i < n ==> !(jobs[i].sessionId == session && IsActive(jobs[i]))
      {
        if jobs[n].sessionId == session && IsActive(jobs[n]) { return true; }
      }
    }

    method ActiveJobOf(session: string, user: Option<string>) returns (r: Option<nat>)
      ensures r.Some? ==> r.value < |jobs| && ActiveFor(jobs[r.value], session, user)
      ensures r.None? ==> forall i :: 0 <= i < |jobs| ==> !ActiveFor(jobs[i], session, user)
    {
      for n := 0 to |jobs|
        invariant forall i :: 0 <= i < n ==> !ActiveFor(jobs[i], session, user)
      {
        if ActiveFor(jobs[n], session, user) { return Some(n); }
      }
      return None;
    }

    /** `create_session_evaluation_job`: when the unique index refuses the insert, the user's active job of the
        session is looked up in a new transaction and returned instead; if it is gone by then, or another user holds
        the session, the error is passed on. `between` runs before the row is read back. */
    method CreateJob(session: string, user: Option<string>, trigger: Trigger, evaluator: string, now: int,
                     between: seq<Op>)
      returns (r: Creation)
      requires Valid(jobs) && AllLegal(between)
      modifies this
      ensures Valid(jobs) && Later(old(jobs), jobs)
      ensures jobs == ApplyAll(Apply(old(jobs), Create(session, user, trigger, evaluator, now)), between)
      ensures |jobs| <= |old(jobs)| + Creations(between) + 1
      ensures r.Created? <==> !ActiveSession(old(jobs), session)
      ensures r.Created? ==> r.id == |old(jobs)| < |jobs|
      ensures r.Existing? ==> r.id < |jobs| && ActiveFor(jobs[r.id], session, user)
      ensures r.Conflict? ==> forall i :: 0 <= i < |jobs| ==> !ActiveFor(jobs[i], session, user)
    {
      var op := Create(session, user, trigger, evaluator, now);
      ApplyKeepsValid(jobs, op);
      var held := IsHeld(session);
      var id := |jobs|;
      if !held { jobs := jobs + [NewJob(op)]; }
      ghost var inserted := jobs;
      Others(between);
      LaterIsTransitive(old(jobs), inserted, jobs);
      if !held { return Created(id); }
      var active := ActiveJobOf(session, user);
      r := if active.Some? then Existing(active.value) else Conflict;
    }

    /** `find_active_session_evaluation_job`: a fresh active job, after failing the stale ones. */
    method FindActive(session: string, user: Option<string>, now: int) returns (r: Option<nat>)
      requires Valid(jobs)
      modifies this
      ensures Valid(jobs) && Later(old(jobs), jobs) && |jobs| == |old(jobs)|
      ensures r.Some? ==> r.value < |jobs| && ActiveFor(jobs[r.value], session, user) && !IsStale(jobs[r.value], now) &&
                          jobs[r.value] == old(jobs)[r.value]
      ensures r.None? ==> forall i :: 0 <= i < |jobs| ==> !ActiveFor(jobs[i], session, user)
      ensures forall i :: 0 <= i < |jobs| && !(ActiveFor(old(jobs)[i], session, user) && IsStale(old(jobs)[i], now)) ==>
                jobs[i] == old(jobs)[i]
      ensures r.Some? ==> IsYoung(jobs[r.value], now)
      ensures r.None? ==> forall i :: 0 <= i < |jobs| && ActiveFor(old(jobs)[i], session, user) ==>
                !IsYoung(old(jobs)[i], now) && jobs[i] == TimedOut(old(jobs)[i], now)
    {
      r := None;
      for n := 0 to |jobs|
        invariant Valid(jobs) && Later(old(jobs), jobs) && |jobs| == |old(jobs)|
        invariant forall i :: n <= i < |jobs| ==> jobs[i] == old(jobs)[i]
        invariant forall i :: 0 <= i < n ==> !ActiveFor(jobs[i], session, user)
        invariant forall i :: 0 <= i < n && ActiveFor(old(jobs)[i], session, user) ==>
                    !IsYoung(old(jobs)[i], now) && jobs[i] == TimedOut(old(jobs)[i], now)
        invariant forall i :: 0 <= i < n && !(ActiveFor(old(jobs)[i], session, user) && IsStale(old(jobs)[i], now)) ==>
                    jobs[i] == old(jobs)[i]
      {
        if ActiveFor(jobs[n], session, user) {
          StaleIsNotYoung(jobs[n], now);
          if !IsStale(jobs[n], now) { return Some(n); }
          ghost var before := jobs;
          var _ := Execute(FailStale(n, jobs[n], now));
          LaterIsTransitive(old(jobs), before, jobs);
        }
      }
    }

    /** `fail_stale_running_evaluation_jobs` in one transaction: fails exactly the running jobs whose start is
        at least five minutes ago, and counts them. */
    method FailStaleRunning(now: int) returns (failed: nat)
      requires Valid(jobs)
      modifies this
      ensures Valid(jobs) && Later(old(jobs), jobs)
      ensures failed == |StaleRunning(old(jobs), now)|
      ensures OnlyFailed(old(jobs), jobs, StaleRunning(old(jobs), now), now)
      ensures forall i :: 0 <= i < |jobs| ==> IsSwept(old(jobs)[i], jobs[i], now)
    {
      failed := 0;
      ghost var done: set<nat> := {};
      for n := 0 to |jobs|
        invariant Valid(jobs)
        invariant done == StaleBelow(old(jobs), now, n) && failed == |done|
        invariant OnlyFailed(old(jobs), jobs, done, now)
      {
        StaleGrows(old(jobs), now, n);
        assert jobs[n] == old(jobs)[n];
        if jobs[n].status.Running? && IsStale(jobs[n], now) {
          OneMoreFailed(old(jobs), jobs, done, n, now);
          var changed := Execute(FailStale(n, jobs[n], now));
          failed := failed + 1;
          done := done + {n};
        }
      }
      assert done == StaleRunning(old(jobs), now);
      FailingIsLater(old(jobs), jobs, done, now);
      FailedAreSwept(old(jobs), jobs, now);
    }

    /** A guarded update of a job that was active, in a transaction of its own, and the row as read back after it.
        `before` and `after` are what others run around the update. */
    method UpdateActive(op: Op, before: seq<Op>, after: seq<Op>) returns (changed: bool, shown: Job)
      requires Valid(jobs) && AllLegal(before) && AllLegal(after) && (op.Promote? || op.Retarget?)
      requires op.id < |jobs| && IsActive(jobs[op.id])
      modifies this
      ensures Valid(jobs) && Later(old(jobs), jobs) && |jobs| <= |old(jobs)| + Creations(before) + Creations(after)
      ensures jobs == ApplyAll(old(jobs), before + [op] + after) && op.id < |jobs| && shown == jobs[op.id]
      ensures changed <==> IsUpdated(old(jobs), op, before)
      ensures shown.sessionId == old(jobs)[op.id].sessionId && shown.userId == old(jobs)[op.id].userId
    {
      Others(before);
      ghost var reached := jobs;
      changed := Execute(op);
      ghost var updated := jobs;
      Others(after);
      LaterChain(old(jobs), reached, updated, updated, jobs);
      Joined(old(jobs), before, op, after);
      shown := jobs[op.id];
      assert MovedOn(old(jobs)[op.id], jobs[op.id]);
    }

    /** The part of `start_session_evaluation_job` that answers with the job found. */
    method AnswerWithActive(id: nat, trigger: Trigger, evaluator: string, before: seq<Op>, after: seq<Op>)
      returns (r: Start, ghost since: seq<Op>)
      requires Valid(jobs) && AllLegal(before) && AllLegal(after) && id < |jobs| && IsActive(jobs[id])
      modifies this
      ensures Valid(jobs) && Later(old(jobs), jobs) && |jobs| <= |old(jobs)| + Creations(before) + Creations(after)
      ensures r.Started? && r.id == id && !r.route.Clashed? && !r.route.Inserted? && IsAnswer(r, old(jobs), since, jobs)
      ensures IsActive(r.shown) <==> !EndedBy(old(jobs), since, id)
      ensures r.shown.sessionId == old(jobs)[id].sessionId && r.shown.userId == old(jobs)[id].userId
      ensures trigger.Manual? ==> IsManual(r.shown)
      ensures before == [] && after == [] ==>
        r.shown == Answered(old(jobs)[id], trigger, evaluator) && jobs == old(jobs)[id := r.shown]
    {
      var read := jobs[id];
      if trigger.Manual? && read.trigger.Auto? {
        var op := Promote(id, Some(evaluator), None);
        var _, shown := UpdateActive(op, before, after);
        r, since := Started(id, shown, Promoted), before + [op] + after;
        UpdateIsAnswer(old(jobs), op, before, after);
      } else if read.status.Queued? && read.trigger == trigger {
        var op := Retarget(id, evaluator, None);
        var changed, shown := UpdateActive(op, before, after);
        r, since := Started(id, shown, Retargeted), before + [op] + after;
        UpdateIsAnswer(old(jobs), op, before, after);
        if !changed {
          r, since := Started(id, read, AsRead), [];
          ActiveUnlessEnded(old(jobs), [], id);
        }
      } else {
        r, since := Started(id, read, AsRead), [];
        ActiveUnlessEnded(old(jobs), [], id);
        Others(before);
      }
    }

    /** The part that creates a job, or finds the one whose arrival kept it out. */
    method AnswerWithNew(session: string, user: Option<string>, trigger: Trigger, evaluator: string, now: int,
                         before: seq<Op>, after: seq<Op>)
      returns (r: Start, ghost base: Table, ghost since: seq<Op>)
      requires Valid(jobs) && AllLegal(before) && AllLegal(after)
      modifies this
      ensures Valid(jobs) && Later(old(jobs), jobs) && |jobs| <= |old(jobs)| + Creations(before) + Creations(after) + 1
      ensures !r.Refused?
      ensures r.Started? ==> (r.route.Inserted? || r.route.Clashed?) && IsAnswer(r, base, since, jobs)
      ensures r.Started? ==>
        ActiveFor(base[r.id], session, user) && (IsActive(r.shown) <==> !EndedBy(base, since, r.id))
      ensures r.Started? && r.route.Inserted? && trigger.Manual? ==> IsManual(r.shown)
      ensures r.Started? && r.route.Inserted? ==>
        base[r.id] == Job(session, user, trigger, evaluator, Queued, now, None, None, None)
      ensures r.HeldByOther? ==> forall i :: 0 <= i < |jobs| ==> !ActiveFor(jobs[i], session, user)
      ensures r.HeldByOther? ==> ActiveSession(base, session)
      ensures before == [] && after == [] && ActiveSession(old(jobs), session) ==>
        !(r.Started? && r.route.Inserted?) && jobs == old(jobs)
      ensures before == [] && after == [] && !ActiveSession(old(jobs), session) ==>
        var row := Job(session, user, trigger, evaluator, Queued, now, None, None, None);
        r == Started(|old(jobs)|, row, Inserted) && jobs == old(jobs) + [row]
      ensures before == [] && after == [] && r.Started? && r.route.Clashed? ==> ActiveFor(jobs[r.id], session, user)
      ensures r.Started? ==> r.shown.sessionId == session && r.shown.userId == user
    {
      Others(before);
      ghost var reached := jobs;
      var op := Create(session, user, trigger, evaluator, now);
      ApplyKeepsValid(reached, op);
      var c := CreateJob(session, user, trigger, evaluator, now, after);
      LaterIsTransitive(old(jobs), reached, jobs);
      base, since, r := reached, [], HeldByOther;
      if c.Created? {
        base, since, r := Apply(reached, op), after, Started(c.id, jobs[c.id], Inserted);
        assert base[c.id] == NewJob(op);
        ApplyAllKeepsValid(base, since);
        assert MovedOn(base[c.id], jobs[c.id]);
        ActiveUnlessEnded(base, since, c.id);
      } else if c.Existing? {
        base, r := jobs, Started(c.id, jobs[c.id], Clashed);
        ActiveUnlessEnded(base, [], c.id);
      }
    }

    /** `start_session_evaluation_job` once the session has been looked up. Its transactions are separate, and
        others run in the gaps: before the search, and before and after the update or insert. At most one job is
        created here. `base` is the table when the row was last known to be active, and `since` what was run until it
        was read for the answer: the row shown is active exactly when nothing of that finished it. */
    method StartSession(session: string, user: Option<string>, trigger: Trigger, evaluator: string,
                        known: bool, manuallyEvaluated: bool, now: int, others: nat -> seq<Op>)
      returns (r: Start, ghost base: Table, ghost since: seq<Op>)
      requires Valid(jobs) && Lawful(others)
      modifies this
      ensures Valid(jobs) && Later(old(jobs), jobs)
      ensures |jobs| <= |old(jobs)| + Creations(others(0)) + Creations(others(1)) + Creations(others(2)) + 1
      ensures r.Refused? <==> !known || manuallyEvaluated
      ensures r.Refused? ==> jobs == old(jobs)
      ensures r.Started? ==> IsAnswer(r, base, since, jobs) && ActiveFor(base[r.id], session, user)
      ensures r.Started? ==> (IsActive(r.shown) <==> !EndedBy(base, since, r.id))
      ensures r.Started? && r.route.Inserted? ==>
        base[r.id] == Job(session, user, trigger, evaluator, Queued, now, None, None, None)
      ensures r.Started? && trigger.Manual? && !r.route.Clashed? ==> IsManual(r.shown)
      ensures r.HeldByOther? ==>
        ActiveSession(base, session) && forall i :: 0 <= i < |jobs| ==> !ActiveFor(jobs[i], session, user)
      ensures r.Started? ==> r.shown.sessionId == session && r.shown.userId == user
      ensures r.HeldByOther? ==> forall j :: j in jobs ==>
        !(j.sessionId == session && j.userId == user && j.status in {Queued, Running})
      ensures Alone(others) && known && !manuallyEvaluated ==>
        IsStartAlone(r, old(jobs), jobs, session, user, trigger, evaluator, now)
    {
      base, since := jobs, [];
      if !known || manuallyEvaluated { return Refused, base, since; }
      assert AllLegal(others(0)) && AllLegal(others(1)) && AllLegal(others(2));
      assert Alone(others) ==> others(0) == [] && others(1) == [] && others(2) == [];
      Others(others(0));
      ghost var looked := jobs;
      r, base, since := Answer(session, user, trigger, evaluator, now, others(1), others(2));
      LaterIsTransitive(old(jobs), looked, jobs);
    }

    /** The search for the session's active job, and the answer with it or with a new one. */
    method Answer(session: string, user: Option<string>, trigger: Trigger, evaluator: string, now: int,
                  before: seq<Op>, after: seq<Op>)
      returns (r: Start, ghost base: Table, ghost since: seq<Op>)
      requires Valid(jobs) && AllLegal(before) && AllLegal(after)
      modifies this
      ensures Valid(jobs) && Later(old(jobs), jobs)
      ensures |jobs| <= |old(jobs)| + Creations(before) + Creations(after) + 1
      ensures !r.Refused?
      ensures r.Started? ==> IsAnswer(r, base, since, jobs) && ActiveFor(base[r.id], session, user)
      ensures r.Started? ==> (IsActive(r.shown) <==> !EndedBy(base, since, r.id))
      ensures r.Started? && r.route.Inserted? ==>
        base[r.id] == Job(session, user, trigger, evaluator, Queued, now, None, None, None)
      ensures r.Started? && trigger.Manual? && !r.route.Clashed? ==> IsManual(r.shown)
      ensures r.HeldByOther? ==>
        ActiveSession(base, session) && forall i :: 0 <= i < |jobs| ==> !ActiveFor(jobs[i], session, user)
      ensures r.Started? ==> r.shown.sessionId == session && r.shown.userId == user
      ensures before == after == [] ==>
        IsStartAlone(r, old(jobs), jobs, session, user, trigger, evaluator, now)
    {
      var active := FindActive(session, user, now);
      ghost var found := jobs;
      if active.Some? {
        base := found;
        r, since := AnswerWithActive(active.value, trigger, evaluator, before, after);
        if before == after == [] {
          ActiveAlone(r, old(jobs), found, jobs, session, user, trigger, evaluator, now);
        }
      } else {
        r, base, since := AnswerWithNew(session, user, trigger, evaluator, now, before, after);
        if before == after == [] {
          NewAlone(r, old(jobs), found, jobs, session, user, trigger, evaluator, now);
        }
      }
      LaterIsTransitive(old(jobs), found, jobs);
    }

    /** `claim_next_evaluation_job`. The query and the guarded update are two statements: if the job found was
        taken or failed in between, the loop asks again. Once no new jobs arrive it ends, because every lost round has
        one waiting job less. Without interference the claim is the head of the ranking. */
    method ClaimNext(ss: Sessions, now: int, others: nat -> seq<Op>, at: nat, ghost settled: nat)
      returns (claimed: Option<nat>, next: nat)
      requires Valid(jobs) && Unclaiming(others) && SettledFrom(others, settled)
      modifies this
      ensures Valid(jobs) && Later(old(jobs), jobs) && at <= next
      ensures claimed.Some? ==> at < next && IsClaim(old(jobs), jobs, claimed.value, now)
      ensures RunningIds(jobs) <= RunningIds(old(jobs)) + (if claimed.Some? then {claimed.value} else {})
      ensures claimed.None? ==> forall i :: !Waits(jobs, ss, i)
      ensures Alone(others) && claimed.None? ==> jobs == old(jobs)
      ensures settled <= at ==> QueuedIds(jobs) <= QueuedIds(old(jobs))
      ensures settled <= at && claimed.Some? ==> claimed.value in QueuedIds(old(jobs))
      ensures Alone(others) && claimed.Some? ==>
        Waits(old(jobs), ss, claimed.value) && jobs == Claimed(old(jobs), claimed.value, now) &&
        forall i :: Waits(old(jobs), ss, i) ==> !Before(old(jobs), ss, i, claimed.value)
    {
      next := at;
      while true
        invariant Valid(jobs) && Later(old(jobs), jobs) && at <= next
        invariant RunningIds(jobs) <= RunningIds(old(jobs))
        invariant settled <= at ==> QueuedIds(jobs) <= QueuedIds(old(jobs))
        invariant Alone(others) ==> jobs == old(jobs)
        decreases if next < settled then settled - next else 0, |QueuedIds(jobs)|
      {
        var q := RankQueue(jobs, ss);
        if q == [] {
          assert forall i :: Waits(jobs, ss, i) ==> Lists(q, i);
          return None, next;
        }
        ghost var seen := jobs;
        HeadIsFirst(seen, ss, q);
        assert NoClaims(others(next)) && (Alone(others) ==> others(next) == []);
        var changed := TryClaim(q[0], now, others(next));
        LaterIsTransitive(old(jobs), seen, jobs);
        next := next + 1;
        if changed {
          if q[0] < |old(jobs)| { assert MovedOn(old(jobs)[q[0]], seen[q[0]]); }
          return Some(q[0]), next;
        }
      }
    }

    /** The guarded update of a claim, after others have run. */
    method TryClaim(id: nat, now: int, ops: seq<Op>) returns (changed: bool)
      requires Valid(jobs) && NoClaims(ops) && id in QueuedIds(jobs)
      modifies this
      ensures Valid(jobs) && Later(old(jobs), jobs) && id !in QueuedIds(jobs) && id < |jobs|
      ensures RunningIds(jobs) <= RunningIds(old(jobs)) + (if changed then {id} else {})
      ensures changed ==> jobs[id].status.Running? && jobs[id].startedAt == Some(now)
      ensures Creations(ops) == 0 ==>
        QueuedIds(jobs) <= QueuedIds(old(jobs)) && |QueuedIds(jobs)| < |QueuedIds(old(jobs))|
      ensures ops == [] ==> changed && jobs == Claimed(old(jobs), id, now)
    {
      WithoutClaims(jobs, ops);
      Others(ops);
      ghost var between := jobs;
      changed := Execute(MarkRunning(id, now));
      LaterIsTransitive(old(jobs), between, jobs);
      assert QueuedIds(jobs) == QueuedIds(between) - {id};
      if Creations(ops) == 0 { SmallerSet(QueuedIds(jobs), QueuedIds(old(jobs))); }
    }

    /** Creates one automatic job, or finds its session taken; others run before it is read back. */
    method CreateAutomatic(session: string, user: Option<string>, evaluator: string, now: int, between: seq<Op>)
      returns (ok: bool)
      requires Valid(jobs) && NoClaims(between)
      modifies this
      ensures Valid(jobs) && Later(old(jobs), jobs) && RunningIds(jobs) <= RunningIds(old(jobs))
      ensures |ActiveIds(jobs)| <= |ActiveIds(old(jobs))| + 1 + Creations(between)
      ensures HasJob(jobs, session)
      ensures between == [] ==> jobs == Apply(old(jobs), Create(session, user, Auto, evaluator, now))
    {
      CreationAndOthers(jobs, Create(session, user, Auto, evaluator, now), between);
      var c := CreateJob(session, user, Auto, evaluator, now, between);
      ok := !c.Conflict?;
      HasJobAfter(old(jobs), Create(session, user, Auto, evaluator, now), between);
    }

    /** Creates automatic jobs for at most `slots` candidates. */
    method FillSlots(slots: nat, evaluator: string, candidates: seq<(string, Option<string>)>, now: int,
                     others: nat -> seq<Op>, at: nat) returns (ok: bool, next: nat)
      requires Valid(jobs) && Unclaiming(others)
      modifies this
      ensures Valid(jobs) && Later(old(jobs), jobs) && at <= next
      ensures RunningIds(jobs) <= RunningIds(old(jobs))
      ensures |ActiveIds(jobs)| <= |ActiveIds(old(jobs))| + slots + Arrivals(others, at, next)
      ensures ok ==> HaveJobs(jobs, candidates, Min(slots, |candidates|))
      ensures ok && Alone(others) ==> jobs == Filled(old(jobs), candidates, Min(slots, |candidates|), evaluator, now)
    {
      next := at;
      var n := 0;
      FillingStarts(jobs, candidates, evaluator, now, others, at);
      while n < |candidates| && n < slots
        invariant n <= slots && next == at + n && Valid(jobs)
        invariant IsFilling(old(jobs), jobs, candidates, n, evaluator, now, others, at)
      {
        ghost var before := jobs;
        assert NoClaims(others(next));
        ok := CreateAutomatic(candidates[n].0, candidates[n].1, evaluator, now, others(next));
        FillingGrows(old(jobs), before, jobs, candidates, n, evaluator, now, others, at);
        n, next := n + 1, next + 1;
        if !ok { return false, next; }
      }
      return true, next;
    }

    /** `enqueue_auto_evaluation_jobs`: the queue is filled up to the target depth and no further, beside what others
        add meanwhile. A refused insert that finds no job of the user ends the attempt with an error. */
    method Enqueue(config: Config, candidates: seq<(string, Option<string>)>, now: int, others: nat -> seq<Op>, at: nat)
      returns (ok: bool, next: nat)
      requires Valid(jobs) && Unclaiming(others)
      modifies this
      ensures Valid(jobs) && Later(old(jobs), jobs) && at <= next
      ensures RunningIds(jobs) <= RunningIds(old(jobs))
      ensures |ActiveIds(jobs)| <=
        Max(|ActiveIds(old(jobs))|, config.maxConcurrent * config.bufferMultiplier) + Arrivals(others, at, next)
      ensures !config.autoEnabled ==> jobs == old(jobs)
      ensures ok && config.autoEnabled ==>
        HaveJobs(jobs, candidates, Min(FreeSlots(old(jobs), config), |candidates|))
      ensures ok && config.autoEnabled && Alone(others) ==>
        var n := Min(FreeSlots(old(jobs), config), |candidates|);
        jobs == Filled(old(jobs), candidates, n, config.evaluator, now)
    {
      if !config.autoEnabled { return true, at; }
      var active := CountActive();
      var target := config.maxConcurrent * config.bufferMultiplier;
      ok, next := FillSlots(if active < target then target - active else 0, config.evaluator, candidates, now, others,
        at);
    }

    method CountActive() returns (n: nat)
      ensures n == |ActiveIds(jobs)|
    {
      n := 0;
      ghost var counted: set<nat> := {};
      for k := 0 to |jobs|
        invariant counted == (set i | i in ActiveIds(jobs) && i < k) && n == |counted|
      {
        if IsActive(jobs[k]) {
          n := n + 1;
          counted := counted + {k};
        }
      }
      assert counted == ActiveIds(jobs);
    }

    /** `count_running_evaluation_jobs`. */
    method CountRunning() returns (n: nat)
      ensures n == |RunningIds(jobs)|
    {
      n := 0;
      ghost var counted: set<nat> := {};
      for k := 0 to |jobs|
        invariant counted == (set i | i in RunningIds(jobs) && i < k) && n == |counted|
      {
        if jobs[k].status.Running? {
          n := n + 1;
          counted := counted + {k};
        }
      }
      assert counted == RunningIds(jobs);
    }

    /** One turn of the claim loop: others run after the count, then one job is claimed if any waits. */
    method ClaimOne(ss: Sessions, now: int, others: nat -> seq<Op>, at: nat, ghost settled: nat)
      returns (claimed: Option<nat>, next: nat)
      requires Valid(jobs) && Unclaiming(others) && SettledFrom(others, settled)
      modifies this
      ensures Valid(jobs) && Later(old(jobs), jobs) && at < next
      ensures |RunningIds(jobs)| <= |RunningIds(old(jobs))| + (if claimed.Some? then 1 else 0)
      ensures claimed.Some? ==> HasLeft(old(jobs), jobs, claimed.value) && jobs[claimed.value].startedAt == Some(now)
      ensures claimed.None? ==> forall i :: !Waits(jobs, ss, i)
      ensures settled <= at && claimed.Some? ==> |QueuedIds(jobs)| < |QueuedIds(old(jobs))|
      ensures Alone(others) && claimed.None? ==> jobs == old(jobs)
      ensures Alone(others) && claimed.Some? ==>
        Waits(old(jobs), ss, claimed.value) && jobs == Claimed(old(jobs), claimed.value, now) &&
        forall i :: Waits(old(jobs), ss, i) ==> !Before(old(jobs), ss, i, claimed.value)
    {
      assert NoClaims(others(at));
      assert Alone(others) ==> others(at) == [];
      WithoutClaims(jobs, others(at));
      Others(others(at));
      ghost var before := jobs;
      claimed, next := ClaimNext(ss, now, others, at + 1, settled);
      LaterIsTransitive(old(jobs), before, jobs);
      SmallerSet(RunningIds(jobs), RunningIds(old(jobs)) + (if claimed.Some? then {claimed.value} else {}));
      if claimed.Some? {
        var id := claimed.value;
        if id < |old(jobs)| { assert MovedOn(old(jobs)[id], before[id]); }
        assert settled <= at ==> id in QueuedIds(before) && id !in QueuedIds(jobs);
        if settled <= at { SmallerSet(QueuedIds(jobs), QueuedIds(old(jobs))); }
      }
    }

    /** The claim loop of `_claim_evaluation_jobs`: whatever arrives meanwhile, it never lets more than the configured
        number run; once no new jobs arrive it ends. Each job it returns was waiting when it was claimed, and is
        returned once. */
    method ClaimUpTo(ss: Sessions, now: int, maxConcurrent: nat, others: nat -> seq<Op>, at: nat, ghost settled: nat)
      returns (claimed: seq<nat>, next: nat)
      requires Valid(jobs) && Unclaiming(others) && SettledFrom(others, settled)
      modifies this
      ensures Valid(jobs) && Later(old(jobs), jobs) && at <= next
      ensures |RunningIds(jobs)| <= Max(|RunningIds(old(jobs))|, maxConcurrent)
      ensures WereClaimed(claimed, old(jobs), jobs)
      ensures |RunningIds(jobs)| >= maxConcurrent || forall i :: !Waits(jobs, ss, i)
      ensures Alone(others) ==>
        ClaimRun(old(jobs), ss, claimed, now) && jobs == AfterClaims(old(jobs), claimed, now)
    {
      claimed, next := [], at;
      var running := CountRunning();
      while running < maxConcurrent
        invariant Valid(jobs) && Later(old(jobs), jobs) && at <= next
        invariant running == |RunningIds(jobs)| <= Max(|RunningIds(old(jobs))|, maxConcurrent)
        invariant WereClaimed(claimed, old(jobs), jobs)
        invariant Alone(others) ==>
          ClaimRun(old(jobs), ss, claimed, now) && jobs == AfterClaims(old(jobs), claimed, now)
        decreases if next < settled then settled - next else 0, |QueuedIds(jobs)|
      {
        ghost var counted := jobs;
        var c;
        c, next := ClaimOne(ss, now, others, next, settled);
        LaterIsTransitive(old(jobs), counted, jobs);
        ClaimedStay(claimed, old(jobs), counted, jobs);
        if c.None? { break; }
        ClaimedOneMore(claimed, old(jobs), counted, jobs, c.value);
        if Alone(others) { ClaimRunGrows(old(jobs), ss, claimed, c.value, now); }
        claimed := claimed + [c.value];
        running := CountRunning();
      }
    }

    /** One tick of the worker: fail stale jobs, fill the queue, claim. Requests may create jobs at any moment of it; an
        error while filling the queue ends it. */
    method Tick(ss: Sessions, now: int, config: Config, candidates: seq<(string, Option<string>)>,
                others: nat -> seq<Op>, ghost settled: nat) returns (ok: bool, claimed: seq<nat>, next: nat)
      requires Valid(jobs) && Unclaiming(others) && SettledFrom(others, settled)
      modifies this
      ensures Valid(jobs) && Later(old(jobs), jobs)
      ensures |RunningIds(jobs)| <= Max(|RunningIds(old(jobs))|, config.maxConcurrent)
      ensures forall i :: 0 <= i < |old(jobs)| && old(jobs)[i].status == Running && !IsYoung(old(jobs)[i], now) ==>
        jobs[i] == TimedOut(old(jobs)[i], now)
      ensures WereClaimed(claimed, old(jobs), jobs)
      ensures ok ==> |RunningIds(jobs)| >= config.maxConcurrent || forall i :: !Waits(jobs, ss, i)
      ensures ok && config.autoEnabled && Alone(others) ==> exists filled: Table ::
        filled == Filled(Swept(old(jobs), now), candidates,
          Min(FreeSlots(Swept(old(jobs), now), config), |candidates|), config.evaluator, now) &&
        ClaimRun(filled, ss, claimed, now) && jobs == AfterClaims(filled, claimed, now)
    {
      var _ := FailStaleRunning(now);
      assert RunningIds(jobs) <= RunningIds(old(jobs));
      ghost var failed := jobs;
      assert failed == Swept(old(jobs), now);
      ok, next := Enqueue(config, candidates, now, others, 0);
      SmallerSet(RunningIds(jobs), RunningIds(old(jobs)));
      ghost var filled := jobs;
      LaterIsTransitive(old(jobs), failed, filled);
      claimed := [];
      if ok {
        claimed, next := ClaimUpTo(ss, now, config.maxConcurrent, others, next, settled);
        LaterIsTransitive(old(jobs), filled, jobs);
        ClaimedSince(claimed, old(jobs), filled, jobs);
      }
      TimedOutStay(old(jobs), failed, jobs, now);
    }
  }

  /** The table after a sweep of the stale running jobs. */
  function Swept(t: Table, now: int): Table {
    seq(|t|, i requires 0 <= i < |t| =>
      if t[i].status == Running && !IsYoung(t[i], now) then TimedOut(t[i], now) else t[i])
  }

  lemma TimedOutStay(was: Table, swept: Table, now_: Table, now: int)
    requires Valid(was) && swept == Swept(was, now) && Later(swept, now_)
    ensures forall i :: 0 <= i < |was| && was[i].status == Running && !IsYoung(was[i], now) ==>
      now_[i] == TimedOut(was[i], now)
  {
    forall i | 0 <= i < |was| && was[i].status == Running && !IsYoung(was[i], now)
      ensures now_[i] == TimedOut(was[i], now)
    {
      assert MovedOn(swept[i], now_[i]);
    }
  }

  /** What has been claimed since a later table has been claimed since an earlier one. */
  lemma ClaimedSince(claimed: seq<nat>, first: Table, was: Table, now_: Table)
    requires Later(first, was) && WereClaimed(claimed, was, now_)
    ensures WereClaimed(claimed, first, now_)
  {
    forall k | 0 <= k < |claimed| ensures HasLeft(first, now_, claimed[k]) {
      assert HasLeft(was, now_, claimed[k]);
      if claimed[k] < |first| { assert MovedOn(first[claimed[k]], was[claimed[k]]); }
    }
  }

  /** A job of the session is in the table. */
  predicate HasJob(t: Table, session: string) { exists i :: 0 <= i < |t| && t[i].sessionId == session }

  /** What creating jobs for the first `n` candidates has done, one in each gap from `at` on. */
  ghost predicate IsFilling(was: Table, now_: Table, candidates: seq<(string, Option<string>)>, n: nat,
                            evaluator: string, now: int, others: nat -> seq<Op>, at: nat) {
    HaveJobs(now_, candidates, n) && Later(was, now_) && RunningIds(now_) <= RunningIds(was) &&
    |ActiveIds(now_)| <= |ActiveIds(was)| + n + Arrivals(others, at, at + n) &&
    (Alone(others) ==> now_ == Filled(was, candidates, n, evaluator, now))
  }

  lemma FillingStarts(t: Table, candidates: seq<(string, Option<string>)>, evaluator: string, now: int,
                      others: nat -> seq<Op>, at: nat)
    requires Valid(t)
    ensures IsFilling(t, t, candidates, 0, evaluator, now, others, at)
  {
  }

  lemma FillingGrows(was: Table, before: Table, after: Table, candidates: seq<(string, Option<string>)>, n: nat,
                     evaluator: string, now: int, others: nat -> seq<Op>, at: nat)
    requires n < |candidates| && IsFilling(was, before, candidates, n, evaluator, now, others, at)
    requires Later(before, after) && RunningIds(after) <= RunningIds(before) && HasJob(after, candidates[n].0)
    requires |ActiveIds(after)| <= |ActiveIds(before)| + 1 + Creations(others(at + n))
    requires others(at + n) == [] ==>
      after == Apply(before, Create(candidates[n].0, candidates[n].1, Auto, evaluator, now))
    ensures IsFilling(was, after, candidates, n + 1, evaluator, now, others, at)
  {
    LaterIsTransitive(was, before, after);
    OneMoreHasJob(before, after, candidates, n);
    assert Alone(others) ==> others(at + n) == [];
  }

  /** The sessions of the first `n` candidates have jobs. */
  predicate HaveJobs(t: Table, candidates: seq<(string, Option<string>)>, n: nat) {
    n <= |candidates| && forall k :: 0 <= k < n ==> HasJob(t, candidates[k].0)
  }

  lemma OneMoreHasJob(was: Table, now_: Table, candidates: seq<(string, Option<string>)>, n: nat)
    requires n < |candidates| && HaveJobs(was, candidates, n) && Later(was, now_) && HasJob(now_, candidates[n].0)
    ensures HaveJobs(now_, candidates, n + 1)
  {
    forall k | 0 <= k < n ensures HasJob(now_, candidates[k].0) { JobsStay(was, now_, candidates[k].0); }
  }

  lemma JobsStay(was: Table, now_: Table, session: string)
    requires HasJob(was, session) && Later(was, now_)
    ensures HasJob(now_, session)
  {
    var i :| 0 <= i < |was| && was[i].sessionId == session;
    assert MovedOn(was[i], now_[i]);
  }

  lemma HasJobAfter(t: Table, op: Op, ops: seq<Op>)
    requires Valid(t) && op.Create? && AllLegal(ops)
    ensures HasJob(ApplyAll(Apply(t, op), ops), op.sessionId)
  {
    ApplyKeepsValid(t, op);
    ApplyAllKeepsValid(Apply(t, op), ops);
    if !ActiveSession(t, op.sessionId) { assert Apply(t, op)[|t|].sessionId == op.sessionId; }
    JobsStay(Apply(t, op), ApplyAll(Apply(t, op), ops), op.sessionId);
  }

  /** How far the queue is from its target depth. */
  function FreeSlots(t: Table, config: Config): nat {
    Max(config.maxConcurrent * config.bufferMultiplier - |ActiveIds(t)|, 0)
  }

  /** The table with an automatic job for each of the first `n` candidates whose session has no active one. */
  function Filled(t: Table, candidates: seq<(string, Option<string>)>, n: nat, evaluator: string, now: int): Table
    requires n <= |candidates|
  {
    if n == 0 then t
    else
      Apply(Filled(t, candidates, n - 1, evaluator, now),
            Create(candidates[n - 1].0, candidates[n - 1].1, Auto, evaluator, now))
  }

  lemma CreationAndOthers(t: Table, op: Op, ops: seq<Op>)
    requires Valid(t) && op.Create? && NoClaims(ops)
    ensures var t' := ApplyAll(Apply(t, op), ops);
      RunningIds(t') <= RunningIds(t) && |ActiveIds(t')| <= |ActiveIds(t)| + 1 + Creations(ops)
  {
    ApplyKeepsValid(t, op);
    CreationAddsOne(t, op);
    WithoutClaims(Apply(t, op), ops);
  }

  predicate IsUpdated(t: Table, op: Op, before: seq<Op>)
    requires !op.Create?
  {
    op.id < |ApplyAll(t, before)| && Applies(ApplyAll(t, before)[op.id], op)
  }

  /** The row of an answer was active in `base` and is the one `since` left; the table has only moved on from it. */
  ghost predicate IsAnswer(r: Start, base: Table, since: seq<Op>, now: Table)
    requires r.Started?
  {
    r.id < |base| && IsActive(base[r.id]) && r.id < |ApplyAll(base, since)| && r.shown == ApplyAll(base, since)[r.id] &&
    r.id < |now| && MovedOn(r.shown, now[r.id])
  }

  /** What becomes of an active job that is asked for again: while it waits, asking by hand makes it a manual one with
      the evaluator asked for, and asking the same way again gives it that evaluator. */
  function Answered(j: Job, trigger: Trigger, evaluator: string): Job {
    if j.status != Queued then j
    else if trigger == Manual then j.(trigger := Manual, evaluator := evaluator)
    else if j.trigger == Auto then j.(evaluator := evaluator)
    else j
  }

  /** The session's job of the user that is not stale. */
  predicate IsFresh(t: Table, session: string, user: Option<string>, now: int, i: nat) {
    i < |t| && ActiveFor(t[i], session, user) && IsYoung(t[i], now)
  }

  /** The table once the user's stale job of the session has timed out. */
  function Expired(t: Table, session: string, user: Option<string>, now: int): Table {
    seq(|t|, i requires 0 <= i < |t| =>
      if ActiveFor(t[i], session, user) && !IsYoung(t[i], now) then TimedOut(t[i], now) else t[i])
  }

  /** The answer when nobody else is at work: the fresh job, as it is after the request; else, if the session is held by
      someone else, that; else a new job. */
  ghost predicate IsStartAlone(r: Start, was: Table, now_: Table, session: string, user: Option<string>,
                               trigger: Trigger, evaluator: string, now: int) {
    if i: nat :| IsFresh(was, session, user, now, i) then
      r.Started? && IsFresh(was, session, user, now, r.id) &&
      r.shown == Answered(was[r.id], trigger, evaluator) && now_ == was[r.id := r.shown]
    else
      var expired, row := Expired(was, session, user, now), Job(session, user, trigger, evaluator, Queued, now, None,
        None, None);
      if ActiveSession(expired, session) then r.HeldByOther? && now_ == expired
      else r == Started(|was|, row, Inserted) && now_ == expired + [row]
  }

  lemma NewAlone(r: Start, was: Table, found: Table, now_: Table, session: string, user: Option<string>,
                 trigger: Trigger, evaluator: string, now: int)
    requires |found| == |was| && forall i :: 0 <= i < |was| ==>
      if ActiveFor(was[i], session, user) then !IsYoung(was[i], now) && found[i] == TimedOut(was[i], now)
      else found[i] == was[i]
    requires r.Started? && r.route.Clashed? ==> r.id < |now_| && ActiveFor(now_[r.id], session, user)
    requires ActiveSession(found, session) ==> now_ == found && (r.HeldByOther? || (r.Started? && r.route.Clashed?))
    requires !ActiveSession(found, session) ==>
      var row := Job(session, user, trigger, evaluator, Queued, now, None, None, None);
      r == Started(|found|, row, Inserted) && now_ == found + [row]
    ensures IsStartAlone(r, was, now_, session, user, trigger, evaluator, now)
  {
    assert found == Expired(was, session, user, now);
    assert forall i: nat :: !IsFresh(was, session, user, now, i);
    forall i | 0 <= i < |found| ensures !ActiveFor(found[i], session, user) {}
  }

  lemma ActiveAlone(r: Start, was: Table, found: Table, now_: Table, session: string, user: Option<string>,
                    trigger: Trigger, evaluator: string, now: int)
    requires Valid(was) && |found| == |was| && r.Started? && r.id < |was|
    requires ActiveFor(found[r.id], session, user) && IsYoung(found[r.id], now) && found[r.id] == was[r.id]
    requires forall i :: 0 <= i < |was| && i != r.id && !ActiveFor(was[i], session, user) ==> found[i] == was[i]
    requires r.shown == Answered(found[r.id], trigger, evaluator) && now_ == found[r.id := r.shown]
    ensures IsStartAlone(r, was, now_, session, user, trigger, evaluator, now)
  {
    assert IsFresh(was, session, user, now, r.id);
    assert forall i :: 0 <= i < |was| && i != r.id ==> !ActiveFor(was[i], session, user);
    assert found == was;
  }

  ghost predicate Alone(others: nat -> seq<Op>) { forall k :: others(k) == [] }

  /** Asked for by hand, or past being asked for. */
  predicate IsManual(j: Job) { j.trigger.Manual? || !j.status.Queued? }

  lemma StaysManual(was: Job, now: Job)
    requires MovedOn(was, now)
    ensures IsManual(was) ==> IsManual(now)
  {
  }

  lemma UpdateIsManual(t: Table, op: Op)
    requires (op.Promote? || op.Retarget?) && op.id < |t| && (op.Promote? ==> op.user.None?)
    ensures |Apply(t, op)| == |t| && (op.Promote? || IsManual(t[op.id]) ==> IsManual(Apply(t, op)[op.id]))
  {
  }

  lemma UpdateIsAnswer(t: Table, op: Op, before: seq<Op>, after: seq<Op>)
    requires Valid(t) && AllLegal(before) && AllLegal(after) && (op.Promote? || op.Retarget?)
    requires op.id < |t| && IsActive(t[op.id]) && (op.Promote? ==> op.user.None?)
    ensures op.id < |ApplyAll(t, before + [op] + after)|
    ensures var since := before + [op] + after; var shown := ApplyAll(t, since)[op.id];
      (IsActive(shown) <==> !EndedBy(t, since, op.id)) && (op.Promote? || t[op.id].trigger.Manual? ==> IsManual(shown))
    ensures before == [] && after == [] ==> ApplyAll(t, before + [op] + after) == Apply(t, op)
  {
    var reached := ApplyAll(t, before);
    Joined(t, before, op, after);
    ActiveUnlessEnded(t, before + [op] + after, op.id);
    ApplyAllKeepsValid(t, before);
    ApplyKeepsValid(reached, op);
    ApplyAllKeepsValid(Apply(reached, op), after);
    StaysManual(t[op.id], reached[op.id]);
    UpdateIsManual(reached, op);
    StaysManual(Apply(reached, op)[op.id], ApplyAll(Apply(reached, op), after)[op.id]);
  }

  lemma LaterChain(a: Table, b: Table, c: Table, d: Table, e: Table)
    requires Later(a, b) && Later(b, c) && Later(c, d) && Later(d, e)
    ensures Later(a, c) && Later(a, d) && Later(a, e) && Later(b, d) && Later(b, e) && Later(c, e)
  {
    LaterIsTransitive(a, b, c);
    LaterIsTransitive(a, c, d);
    LaterIsTransitive(a, d, e);
    LaterIsTransitive(b, c, d);
    LaterIsTransitive(b, d, e);
    LaterIsTransitive(c, d, e);
  }

  lemma Joined(t: Table, a: seq<Op>, op: Op, b: seq<Op>)
    ensures ApplyAll(t, a + [op] + b) == ApplyAll(Apply(ApplyAll(t, a), op), b)
    ensures AllLegal(a) && IsLegal(op) && AllLegal(b) ==> AllLegal(a + [op] + b)
  {
    ApplyAllConcat(t, a + [op], b);
    assert (a + [op])[..|a|] == a;
  }

  /** The job runs since `at`, and had never left the queue before. */
  predicate IsClaim(was: Table, now: Table, id: nat, at: int) {
    id < |now| && now[id].status.Running? && now[id].startedAt == Some(at) && (id < |was| ==> was[id].status.Queued?)
  }

  /** Jobs that left the queue for good, each once. */
  ghost predicate WereClaimed(claimed: seq<nat>, was: Table, now: Table) {
    (forall k :: 0 <= k < |claimed| ==> HasLeft(was, now, claimed[k])) &&
    forall j, k :: 0 <= j < k < |claimed| ==> claimed[j] != claimed[k]
  }

  predicate HasLeft(was: Table, now: Table, id: nat) {
    id < |now| && !now[id].status.Queued? && (id < |was| ==> was[id].status.Queued?)
  }

  lemma ClaimedStay(claimed: seq<nat>, was: Table, now: Table, later: Table)
    requires WereClaimed(claimed, was, now) && Later(now, later)
    ensures WereClaimed(claimed, was, later)
  {
    forall k | 0 <= k < |claimed| ensures HasLeft(was, later, claimed[k]) {
      assert HasLeft(was, now, claimed[k]) && MovedOn(now[claimed[k]], later[claimed[k]]);
    }
  }

  lemma ClaimedOneMore(claimed: seq<nat>, was: Table, counted: Table, now: Table, id: nat)
    requires WereClaimed(claimed, was, counted) && WereClaimed(claimed, was, now)
    requires Later(was, counted) && HasLeft(counted, now, id)
    ensures WereClaimed(claimed + [id], was, now)
  {
    forall k | 0 <= k < |claimed| ensures claimed[k] != id {
      assert HasLeft(was, counted, claimed[k]);
    }
    if id < |was| { assert MovedOn(was[id], counted[id]); }
    assert HasLeft(was, now, id);
  }

  lemma HeadIsFirst(t: Table, ss: Sessions, q: seq<nat>)
    requires IsRanking(t, ss, q) && q != []
    ensures Waits(t, ss, q[0]) && forall i :: Waits(t, ss, i) ==> !Before(t, ss, i, q[0])
  {
    forall i | Waits(t, ss, i) ensures !Before(t, ss, i, q[0]) {
      assert Lists(q, i);
      BeforeIsAnOrder(t, ss, q[0], q[0], q[0]);
    }
  }
}
