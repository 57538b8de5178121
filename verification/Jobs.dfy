/** The evaluation job queue (src/database/evaluation_jobs.py): guarded updates on a table with a partial
    unique index, run by many processes at once. */
module Jobs {
  import opened Basics

  const TIMEOUT_SECONDS := 300

  datatype Status = Queued | Running | Succeeded | Failed
  datatype Trigger = Manual | Auto

  /** A job row; its id is its position. Times are seconds. */
  datatype Job = Job(
    sessionId: string, userId: Option<string>, trigger: Trigger, evaluator: string, status: Status,
    createdAt: int, startedAt: Option<int>, finishedAt: Option<int>, error: Option<string>)

  type Table = seq<Job>

  predicate IsActive(j: Job) { j.status.Queued? || j.status.Running? }

  predicate IsFinished(j: Job) { !IsActive(j) }

  /** What `_fail_stale_evaluation_job` compares besides the status: start time of a running job, else creation. */
  function Marker(j: Job): int { if j.status.Running? && j.startedAt.Some? then j.startedAt.value else j.createdAt }

  /** The marker column of `now_`, as chosen by the row that was read. */
  predicate MarkerUnchanged(read: Job, now_: Job) {
    if read.status.Running? && read.startedAt.Some? then now_.startedAt == read.startedAt
    else now_.createdAt == read.createdAt
  }

  // ---------------------------------------------------------------- the guarded updates

  /** One statement against the table. Everything but the table itself may come from an older read. */
  datatype Op =
    | Create(sessionId: string, userId: Option<string>, trigger: Trigger, evaluator: string, createdAt: int)
    | Promote(id: nat, newEvaluator: Option<string>, user: Option<string>)
    | Retarget(id: nat, evaluator: string, user: Option<string>)
    | MarkRunning(id: nat, now: int)
    | FailStale(id: nat, read: Job, now: int)
    | Succeed(id: nat, now: int)
    | Fail(id: nat, message: string, now: int)

  predicate ActiveSession(t: Table, sessionId: string) {
    exists i :: 0 <= i < |t| && t[i].sessionId == sessionId && IsActive(t[i])
  }

  /** The WHERE clause. */
  predicate Applies(j: Job, op: Op) {
    match op
    case Create(_, _, _, _, _) => false
    case Promote(_, _, user) => j.status.Queued? && j.trigger.Auto? && (user.Some? ==> j.userId == user)
    case Retarget(_, _, user) => j.status.Queued? && (user.Some? ==> j.userId == user)
    case MarkRunning(_, _) => j.status.Queued?
    case FailStale(_, read, _) => j.status == read.status && MarkerUnchanged(read, j)
    case Succeed(_, _) => j.status.Running?
    case Fail(_, _, _) => j.status.Running?
  }

  /** The SET clause. */
  function Changed(j: Job, op: Op): Job {
    match op
    case Create(_, _, _, _, _) => j
    case Promote(_, e, _) => j.(trigger := Manual, evaluator := if e.Some? then e.value else j.evaluator)
    case Retarget(_, e, _) => j.(evaluator := e)
    case MarkRunning(_, now) => j.(status := Running, startedAt := Some(now), error := None)
    case FailStale(_, _, now) => j.(status := Failed, error := Some("Evaluation job timed out"),
      finishedAt := Some(now))
    case Succeed(_, now) => j.(status := Succeeded, finishedAt := Some(now), error := None)
    case Fail(_, message, now) => j.(status := Failed, finishedAt := Some(now), error := Some(message))
  }

  function NewJob(op: Op): Job
    requires op.Create?
  {
    Job(op.sessionId, op.userId, op.trigger, op.evaluator, Queued, op.createdAt, None, None, None)
  }

  /** The insert fails on the partial unique index; an update without a match does nothing. */
  function Apply(t: Table, op: Op): Table {
    if op.Create? then (if ActiveSession(t, op.sessionId) then t else t + [NewJob(op)])
    else if op.id < |t| && Applies(t[op.id], op) then t[op.id := Changed(t[op.id], op)]
    else t
  }

  predicate AllLegal(ops: seq<Op>) { forall k :: 0 <= k < |ops| ==> IsLegal(ops[k]) }

  function ApplyAll(t: Table, ops: seq<Op>): Table {
    if ops == [] then t else Apply(ApplyAll(t, ops[..|ops| - 1]), ops[|ops| - 1])
  }

  /** A stale failure only ever carries a row that was active when it was read. */
  predicate IsLegal(op: Op) { op.FailStale? ==> IsActive(op.read) }

  // ---------------------------------------------------------------- processes that read, then update

  datatype Seen = Seen(id: nat, job: Job)

  /** The table, and every active row any process has ever read and may still act on. */
  datatype System = System(table: Table, seen: seq<Seen>)

  datatype Step = Look(id: nat) | FailLooked(read: nat, now: int) | Do(op: Op)

  const EMPTY_SYSTEM := System([], [])

  function StepFrom(s: System, step: Step): System {
    match step
    case Look(id) =>
      if id < |s.table| && IsActive(s.table[id]) then s.(seen := s.seen + [Seen(id, s.table[id])]) else s
    case FailLooked(k, now) =>
      if k < |s.seen| then s.(table := Apply(s.table, FailStale(s.seen[k].id, s.seen[k].job, now))) else s
    case Do(op) => if op.FailStale? then s else s.(table := Apply(s.table, op))
  }

  function RunFrom(s: System, steps: seq<Step>): System {
    if steps == [] then s else StepFrom(RunFrom(s, steps[..|steps| - 1]), steps[|steps| - 1])
  }

  // ---------------------------------------------------------------- what every step keeps

  predicate Sound(j: Job) {
    (j.finishedAt.Some? <==> IsFinished(j)) && (j.status.Queued? ==> j.startedAt.None?) &&
    (j.status.Running? ==> j.startedAt.Some?)
  }

  /** Sound rows, and at most one queued or running job per session. */
  ghost predicate Valid(t: Table) {
    (forall i :: 0 <= i < |t| ==> Sound(t[i])) &&
    forall i, j :: 0 <= i < j < |t| && IsActive(t[i]) && IsActive(t[j]) ==> t[i].sessionId != t[j].sessionId
  }

  function Stage(s: Status): nat { match s case Queued => 0 case Running => 1 case Succeeded => 2 case Failed => 2 }

  /** How a row may have moved on: forward only, and not at all once finished. */
  predicate MovedOn(was: Job, now: Job) {
    now.sessionId == was.sessionId && now.userId == was.userId && now.createdAt == was.createdAt &&
    Stage(was.status) <= Stage(now.status) &&
    (IsFinished(was) ==> now == was) &&
    (was.status.Running? && now.status.Running? ==> now == was) &&
    (was.status.Queued? && now.status.Queued? ==>
      now == was.(trigger := now.trigger, evaluator := now.evaluator) && (was.trigger.Manual? ==> now.trigger.Manual?))
  }

  ghost predicate Later(was: Table, now: Table) {
    |was| <= |now| && forall i :: 0 <= i < |was| ==> MovedOn(was[i], now[i])
  }

  lemma LaterIsTransitive(a: Table, b: Table, c: Table)
    requires Later(a, b) && Later(b, c)
    ensures Later(a, c)
  {
    forall i | 0 <= i < |a| ensures MovedOn(a[i], c[i]) {
      assert MovedOn(a[i], b[i]) && MovedOn(b[i], c[i]);
    }
  }

  lemma ApplyKeepsValid(t: Table, op: Op)
    requires Valid(t) && IsLegal(op)
    ensures Valid(Apply(t, op)) && Later(t, Apply(t, op))
  {
    if !op.Create? && op.id < |t| && Applies(t[op.id], op) {
      assert Sound(Changed(t[op.id], op)) && MovedOn(t[op.id], Changed(t[op.id], op));
      assert IsActive(Changed(t[op.id], op)) ==> IsActive(t[op.id]);
    }
  }

  lemma {:induction false} ApplyAllKeepsValid(t: Table, ops: seq<Op>)
    requires Valid(t) && AllLegal(ops)
    ensures Valid(ApplyAll(t, ops)) && Later(t, ApplyAll(t, ops))
    decreases |ops|
  {
    if ops != [] {
      var before := ApplyAll(t, ops[..|ops| - 1]);
      ApplyAllKeepsValid(t, ops[..|ops| - 1]);
      ApplyKeepsValid(before, ops[|ops| - 1]);
      LaterIsTransitive(t, before, ApplyAll(t, ops));
    }
  }

  /** Reads hold active rows of the past of the table. */
  ghost predicate ValidSystem(s: System) {
    Valid(s.table) &&
    forall k :: 0 <= k < |s.seen| ==>
      s.seen[k].id < |s.table| && IsActive(s.seen[k].job) && MovedOn(s.seen[k].job, s.table[s.seen[k].id])
  }

  lemma StepKeepsValid(s: System, step: Step)
    requires ValidSystem(s)
    ensures ValidSystem(StepFrom(s, step)) && Later(s.table, StepFrom(s, step).table) &&
      s.seen <= StepFrom(s, step).seen
  {
    var s' := StepFrom(s, step);
    match step
    case Look(id) =>
    case FailLooked(k, now) =>
      if k < |s.seen| { ApplyKeepsValid(s.table, FailStale(s.seen[k].id, s.seen[k].job, now)); }
    case Do(op) => if !op.FailStale? { ApplyKeepsValid(s.table, op); }
    forall k | 0 <= k < |s.seen| ensures MovedOn(s.seen[k].job, s'.table[s.seen[k].id]) {
      assert MovedOn(s.seen[k].job, s.table[s.seen[k].id]);
      assert MovedOn(s.table[s.seen[k].id], s'.table[s.seen[k].id]);
    }
  }

  /** Safety over any interleaving: in every reachable state a session has at most one queued or running job
      and `finished_at` is set exactly on finished jobs; and from any reachable state on, jobs only move
      forward and a finished job never changes again. */
  lemma {:induction false} EveryRunIsSafe(s: System, steps: seq<Step>)
    requires ValidSystem(s)
    ensures ValidSystem(RunFrom(s, steps)) && Later(s.table, RunFrom(s, steps).table) &&
      s.seen <= RunFrom(s, steps).seen
    decreases |steps|
  {
    if steps != [] {
      var before := RunFrom(s, steps[..|steps| - 1]);
      EveryRunIsSafe(s, steps[..|steps| - 1]);
      StepKeepsValid(before, steps[|steps| - 1]);
      LaterIsTransitive(s.table, before.table, RunFrom(s, steps).table);
    }
  }

  // ---------------------------------------------------------------- what each statement does to its row

  /** Only the row changes, and only if the condition holds. */
  predicate ChangesRow(was: Table, now: Table, id: nat, applies: bool, row: Job) {
    now == if id < |was| && applies then was[id := row] else was
  }

  /** A waiting job starts to run; a running one ends as reported; anything else is left alone. */
  lemma ClaimsAndReports(t: Table, id: nat, at: int, message: string)
    requires id < |t|
    ensures ChangesRow(t, Apply(t, MarkRunning(id, at)), id, t[id].status == Queued,
                       t[id].(status := Running, startedAt := Some(at), error := None))
    ensures ChangesRow(t, Apply(t, Succeed(id, at)), id, t[id].status == Running,
                       t[id].(status := Succeeded, finishedAt := Some(at), error := None))
    ensures ChangesRow(t, Apply(t, Fail(id, message, at)), id, t[id].status == Running,
                       t[id].(status := Failed, finishedAt := Some(at), error := Some(message)))
  {
  }

  /** Asking by hand for a waiting automatic job makes it a manual one; a waiting job can be given another evaluator.
      With a user, only that user's. */
  lemma PromotionsAndRetargets(t: Table, id: nat, user: Option<string>, evaluator: string)
    requires id < |t|
    ensures ChangesRow(t, Apply(t, Promote(id, Some(evaluator), user)), id,
                       t[id].status == Queued && t[id].trigger == Auto && (user == None || user == t[id].userId),
                       t[id].(trigger := Manual, evaluator := evaluator))
    ensures ChangesRow(t, Apply(t, Promote(id, None, user)), id,
                       t[id].status == Queued && t[id].trigger == Auto && (user == None || user == t[id].userId),
                       t[id].(trigger := Manual))
    ensures ChangesRow(t, Apply(t, Retarget(id, evaluator, user)), id,
                       t[id].status == Queued && (user == None || user == t[id].userId),
                       t[id].(evaluator := evaluator))
  {
  }

  /** A stale job fails if it still has the status it was read with, and the start (if it was running) or the creation
      (if it was waiting) it was read with. */
  lemma StaleJobsFail(t: Table, id: nat, read: Job, at: int)
    requires id < |t| && Sound(t[id]) && Sound(read) && IsActive(read)
    ensures ChangesRow(t, Apply(t, FailStale(id, read, at)), id,
                       t[id].status == read.status &&
                       (if read.status == Running then t[id].startedAt == read.startedAt
                        else t[id].createdAt == read.createdAt),
                       t[id].(status := Failed, finishedAt := Some(at), error := Some("Evaluation job timed out")))
  {
  }

  /** A job is created waiting, unless the session has one that waits or runs. */
  lemma CreationsWait(t: Table, session: string, user: Option<string>, trigger: Trigger, evaluator: string, at: int)
    ensures Apply(t, Create(session, user, trigger, evaluator, at)) ==
      if exists j :: j in t && j.sessionId == session && j.status in {Queued, Running} then t
      else t + [Job(session, user, trigger, evaluator, Queued, at, None, None, None)]
  {
    if j :| j in t && j.sessionId == session && j.status in {Queued, Running} {
      var i :| 0 <= i < |t| && t[i] == j;
      assert ActiveSession(t, session);
    }
  }

  /** A late report of success or failure after a job has finished (say, after a stale failure) does nothing. */
  lemma LateReportsDoNothing(s: System, steps: seq<Step>, id: nat, now: int, message: string)
    requires ValidSystem(s) && id < |s.table| && IsFinished(s.table[id])
    ensures var later := RunFrom(s, steps);
      id < |later.table| && later.table[id] == s.table[id] &&
      StepFrom(later, Do(Succeed(id, now))) == later && StepFrom(later, Do(Fail(id, message, now))) == later
  {
    EveryRunIsSafe(s, steps);
    assert MovedOn(s.table[id], RunFrom(s, steps).table[id]);
  }

  /** A stale check fails its job exactly when the row is still as it was read, up to trigger and evaluator:
      one that read the job as queued cannot fail it once it has been claimed, however much later it acts. */
  lemma StaleCheckSeesTheClaim(s: System, steps: seq<Step>, k: nat, now: int)
    requires ValidSystem(s) && k < |s.seen|
    ensures var later, read := RunFrom(s, steps), s.seen[k];
      read.id < |later.table| &&
      (StepFrom(later, FailLooked(k, now)).table != later.table <==> later.table[read.id].status == read.job.status) &&
      (read.job.status.Queued? && !s.table[read.id].status.Queued? ==>
        StepFrom(later, FailLooked(k, now)) == later)
  {
    EveryRunIsSafe(s, steps);
    var later := RunFrom(s, steps);
    var read := s.seen[k];
    assert later.seen[k] == read;
    assert MovedOn(read.job, later.table[read.id]);
    assert MovedOn(s.table[read.id], later.table[read.id]);
    assert Sound(later.table[read.id]);
  }

  // ---------------------------------------------------------------- counting

  function QueuedIds(t: Table): set<nat> { set i: nat | i < |t| && t[i].status.Queued? }

  function RunningIds(t: Table): set<nat> { set i: nat | i < |t| && t[i].status.Running? }

  function ActiveIds(t: Table): set<nat> { set i: nat | i < |t| && IsActive(t[i]) }

  lemma SmallerSet<T>(a: set<T>, b: set<T>)
    requires a <= b
    ensures |a| <= |b| && (a != b ==> |a| < |b|)
  {
    assert b == a + (b - a);
    if a != b { assert b - a != {}; }
  }

  /** What other processes do beside the worker: report results, fail stale jobs, change waiting ones, and create
      jobs. They do not claim. */
  predicate NoClaims(ops: seq<Op>) { AllLegal(ops) && forall k :: 0 <= k < |ops| ==> !ops[k].MarkRunning? }

  /** The same while no new jobs arrive. */
  predicate IsQuiet(ops: seq<Op>) { NoClaims(ops) && Creations(ops) == 0 }

  /** How many statements try to create a job. */
  function Creations(ops: seq<Op>): nat {
    if ops == [] then 0 else Creations(ops[..|ops| - 1]) + (if ops[|ops| - 1].Create? then 1 else 0)
  }

  /** Without claims the running jobs only become fewer, and every new active job is a created one; without
      creations the waiting and active ones only become fewer too. */
  lemma {:induction false} WithoutClaims(t: Table, ops: seq<Op>)
    requires Valid(t) && NoClaims(ops)
    ensures var t' := ApplyAll(t, ops);
      Valid(t') && Later(t, t') && |t'| <= |t| + Creations(ops) &&
      RunningIds(t') <= RunningIds(t) && |ActiveIds(t')| <= |ActiveIds(t)| + Creations(ops) &&
      (Creations(ops) == 0 ==> |t'| == |t| && QueuedIds(t') <= QueuedIds(t) && ActiveIds(t') <= ActiveIds(t))
    decreases |ops|
  {
    if ops != [] {
      var before, op := ApplyAll(t, ops[..|ops| - 1]), ops[|ops| - 1];
      WithoutClaims(t, ops[..|ops| - 1]);
      ApplyKeepsValid(before, op);
      if op.Create? { CreationAddsOne(before, op); } else { QuietStepOnlyShrinks(before, op); }
      LaterIsTransitive(t, before, Apply(before, op));
    }
  }

  lemma CreationAddsOne(t: Table, op: Op)
    requires op.Create?
    ensures var t' := Apply(t, op);
      |ActiveIds(t')| <= |ActiveIds(t)| + 1 && RunningIds(t') == RunningIds(t) && |t'| <= |t| + 1
  {
    var t' := Apply(t, op);
    if t' != t {
      assert ActiveIds(t') == ActiveIds(t) + {|t|};
    }
  }

  lemma QuietStepOnlyShrinks(t: Table, op: Op)
    requires Valid(t) && IsLegal(op) && !op.Create? && !op.MarkRunning?
    ensures var t' := Apply(t, op);
      |t'| == |t| && QueuedIds(t') <= QueuedIds(t) && RunningIds(t') <= RunningIds(t) &&
      ActiveIds(t') <= ActiveIds(t) && |ActiveIds(t')| <= |ActiveIds(t)|
  {
    if op.id < |t| && Applies(t[op.id], op) {
      var was, now := t[op.id], Changed(t[op.id], op);
      assert now.status.Queued? ==> was.status.Queued?;
      assert now.status.Running? ==> was.status.Running?;
    }
    SmallerSet(ActiveIds(Apply(t, op)), ActiveIds(t));
  }

  /** Any legal statements at all: every new row is a created one. */
  lemma {:induction false} RowsAreCreated(t: Table, ops: seq<Op>)
    ensures |ApplyAll(t, ops)| <= |t| + Creations(ops)
    decreases |ops|
  {
    if ops != [] { RowsAreCreated(t, ops[..|ops| - 1]); }
  }

  // ---------------------------------------------------------------- who ends a job

  /** The statement finishes this job. */
  predicate Ends(t: Table, op: Op, id: nat) {
    (op.Succeed? || op.Fail? || op.FailStale?) && op.id == id && id < |t| && Applies(t[id], op)
  }

  /** One of the statements, when its turn comes, finishes this job. */
  predicate EndedBy(t: Table, ops: seq<Op>, id: nat) {
    exists k :: 0 <= k < |ops| && Ends(ApplyAll(t, ops[..k]), ops[k], id)
  }

  lemma EndedByOneMore(t: Table, ops: seq<Op>, op: Op, id: nat)
    ensures EndedBy(t, ops + [op], id) <==> EndedBy(t, ops, id) || Ends(ApplyAll(t, ops), op, id)
  {
    var all := ops + [op];
    assert all[..|ops|] == ops;
    if k :| 0 <= k < |ops| && Ends(ApplyAll(t, ops[..k]), ops[k], id) {
      assert all[..k] == ops[..k] && Ends(ApplyAll(t, all[..k]), all[k], id);
    }
    if k :| 0 <= k < |all| && Ends(ApplyAll(t, all[..k]), all[k], id) {
      assert k < |ops| ==> all[..k] == ops[..k];
    }
    if Ends(ApplyAll(t, ops), op, id) { assert Ends(ApplyAll(t, all[..|ops|]), all[|ops|], id); }
  }

  lemma StepEnds(t: Table, op: Op, id: nat)
    requires Valid(t) && IsLegal(op) && id < |t|
    ensures id < |Apply(t, op)| && (IsActive(Apply(t, op)[id]) <==> IsActive(t[id]) && !Ends(t, op, id))
  {
    ApplyKeepsValid(t, op);
    assert MovedOn(t[id], Apply(t, op)[id]);
  }

  /** An active job stays active over any statements exactly when none of them finishes it. */
  lemma {:induction false} ActiveUnlessEnded(t: Table, ops: seq<Op>, id: nat)
    requires Valid(t) && id < |t| && IsActive(t[id]) && AllLegal(ops)
    ensures id < |ApplyAll(t, ops)| && (IsActive(ApplyAll(t, ops)[id]) <==> !EndedBy(t, ops, id))
    decreases |ops|
  {
    if ops != [] {
      var front, op := ops[..|ops| - 1], ops[|ops| - 1];
      assert ops == front + [op] && AllLegal(front) && IsLegal(op);
      ActiveUnlessEnded(t, front, id);
      ApplyAllKeepsValid(t, front);
      StepEnds(ApplyAll(t, front), op, id);
      EndedByOneMore(t, front, op, id);
      assert ApplyAll(t, ops) == Apply(ApplyAll(t, front), op);
    }
  }

  lemma {:induction false} ApplyAllConcat(t: Table, a: seq<Op>, b: seq<Op>)
    ensures ApplyAll(t, a + b) == ApplyAll(ApplyAll(t, a), b)
    decreases |b|
  {
    if b == [] {
      assert a + b == a;
    } else {
      assert (a + b)[..|a + b| - 1] == a + b[..|b| - 1];
      ApplyAllConcat(t, a, b[..|b| - 1]);
    }
  }
}
