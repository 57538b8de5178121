/** The worker's loop and its ticks in their smallest steps (`run_evaluation_worker` in src/evaluation_worker.py): a
    tick runs in a thread of its own, one database statement at a time, while requests and evaluations run too. */
module WorkerRuns {
  import opened Basics
  import opened Jobs
  import opened JobQueue
  import opened JobWorker

  /** Where a tick stands. `Picking` and `Claiming` come after it counted fewer running jobs than the bound. */
  datatype Phase =
    | Begun
    | Listing
    | Filling(slots: nat)
    | Counting
    | Picking
    | Claiming(id: nat)
    | Ended

  /** The table, every tick ever begun, and the loop's `tick_task`. */
  datatype World = World(table: Table, ticks: seq<Phase>, current: Option<nat>)

  /** What a statement of a tick finds outside the table: the time, a candidate for a job, the head of the ordered
      query, or an error that ends the tick. */
  datatype Input = Input(now: int, candidate: Option<(string, Option<string>)>, head: Option<nat>, fails: bool)

  datatype Turn =
    | Loop
    | Next(tick: nat, input: Input)
    | Other(op: Op)

  /** `fail_stale_running_evaluation_jobs`. */
  function StaleFailed(t: Table, now: int): Table {
    seq(|t|, i requires 0 <= i < |t| =>
      if t[i].status.Running? && IsStale(t[i], now) then Changed(t[i], FailStale(i, t[i], now)) else t[i])
  }

  /** One statement of a tick. */
  function Stepped(t: Table, p: Phase, config: Config, input: Input): (Table, Phase) {
    if input.fails then (t, Ended)
    else
      match p
      case Begun => (StaleFailed(t, input.now), Listing)
      case Listing =>
        var target := config.maxConcurrent * config.bufferMultiplier;
        var active := |ActiveIds(t)|;
        (t, Filling(if config.autoEnabled && active < target then target - active else 0))
      case Filling(n) =>
        if n == 0 || input.candidate.None? then (t, Counting)
        else
          var (session, user) := input.candidate.value;
          (Apply(t, Create(session, user, Auto, config.evaluator, input.now)), Filling(n - 1))
      case Counting => (t, if |RunningIds(t)| < config.maxConcurrent then Picking else Ended)
      case Picking => (t, if input.head.Some? then Claiming(input.head.value) else Ended)
      case Claiming(id) =>
        if id < |t| && t[id].status.Queued? then (Apply(t, MarkRunning(id, input.now)), Counting) else (t, Picking)
      case Ended => (t, Ended)
  }

  /** The statements of a tick are those of the whole tick: sweep what is stale, find the free slots, create a job for a
      candidate, count, and claim the job at the head. */
  lemma StatementsAreThoseOfATick(t: Table, config: Config, input: Input, n: nat, id: nat)
    requires Valid(t) && !input.fails
    ensures Stepped(t, Begun, config, input) == (Swept(t, input.now), Listing)
    ensures Stepped(t, Listing, config, input) == (t, Filling(if config.autoEnabled then FreeSlots(t, config) else 0))
    ensures n > 0 && input.candidate.Some? ==>
      Stepped(t, Filling(n), config, input) ==
        (Filled(t, [input.candidate.value], 1, config.evaluator, input.now), Filling(n - 1))
    ensures n == 0 || input.candidate.None? ==> Stepped(t, Filling(n), config, input) == (t, Counting)
    ensures Stepped(t, Counting, config, input) ==
            (t, if |RunningIds(t)| < config.maxConcurrent then Picking else Ended)
    ensures Stepped(t, Picking, config, input) ==
            (t, if input.head.None? then Ended else Claiming(input.head.value))
    ensures Stepped(t, Claiming(id), config, input) ==
            if id in QueuedIds(t) then (Claimed(t, id, input.now), Counting) else (t, Picking)
  {
    forall i | 0 <= i < |t| && t[i].status.Running? ensures IsStale(t[i], input.now) <==> !IsYoung(t[i], input.now) {
      StaleIsNotYoung(t[i], input.now);
    }
    assert StaleFailed(t, input.now) == Swept(t, input.now);
    if input.candidate.Some? { FilledOnce(t, input.candidate.value, config.evaluator, input.now); }
  }

  lemma FilledOnce(t: Table, candidate: (string, Option<string>), evaluator: string, now: int)
    ensures Filled(t, [candidate], 1, evaluator, now) ==
            Apply(t, Create(candidate.0, candidate.1, Auto, evaluator, now))
  {
    assert Filled(t, [candidate], 0, evaluator, now) == t;
  }

  /** The loop begins a tick when it has none, and forgets one that is done; a tick that is not done when the wait
      times out stays the current one. */
  function After(w: World, turn: Turn, config: Config): World {
    match turn
    case Loop =>
      if w.current.None? then World(w.table, w.ticks + [Begun], Some(|w.ticks|))
      else if w.current.value < |w.ticks| && w.ticks[w.current.value].Ended? then w.(current := None)
      else w
    case Next(i, input) =>
      if i < |w.ticks| then
        var (t, p) := Stepped(w.table, w.ticks[i], config, input);
        World(t, w.ticks[i := p], w.current)
      else w
    case Other(op) => w.(table := Apply(w.table, op))
  }

  function AfterAll(w: World, turns: seq<Turn>, config: Config): World {
    if turns == [] then w else After(AfterAll(w, turns[..|turns| - 1], config), turns[|turns| - 1], config)
  }

  /** Others do anything but claim. */
  predicate OnlyWorkerClaims(turns: seq<Turn>) {
    forall k :: 0 <= k < |turns| ==> MayRun(turns[k])
  }

  predicate MayRun(turn: Turn) { turn.Other? ==> IsLegal(turn.op) && !turn.op.MarkRunning? }

  predicate HasCounted(p: Phase) { p.Picking? || p.Claiming? }

  /** Every tick but the current one is over. */
  predicate NoOverlap(w: World) {
    forall i :: 0 <= i < |w.ticks| && !w.ticks[i].Ended? ==> w.current == Some(i)
  }

  /** The bound holds, strictly while a tick relies on what it counted. */
  ghost predicate WithinBound(w: World, max: nat) {
    |RunningIds(w.table)| <= max &&
    forall i :: 0 <= i < |w.ticks| && HasCounted(w.ticks[i]) ==> |RunningIds(w.table)| < max
  }

  ghost predicate Safe(w: World, max: nat) { Valid(w.table) && NoOverlap(w) && WithinBound(w, max) }

  lemma StaleFailedIsValid(t: Table, now: int)
    requires Valid(t)
    ensures Valid(StaleFailed(t, now)) && RunningIds(StaleFailed(t, now)) <= RunningIds(t)
  {
  }

  lemma StaleFailedKeepsBound(t: Table, now: int)
    requires Valid(t)
    ensures Valid(StaleFailed(t, now)) && |RunningIds(StaleFailed(t, now))| <= |RunningIds(t)|
  {
    StaleFailedIsValid(t, now);
    SmallerSet(RunningIds(StaleFailed(t, now)), RunningIds(t));
  }

  lemma CreationKeepsBound(t: Table, op: Op)
    requires Valid(t) && op.Create?
    ensures Valid(Apply(t, op)) && |RunningIds(Apply(t, op))| == |RunningIds(t)|
  {
    ApplyKeepsValid(t, op);
    CreationAddsOne(t, op);
  }

  lemma ClaimAddsOne(t: Table, id: nat, now: int)
    requires Valid(t) && id < |t| && t[id].status.Queued?
    ensures Valid(Apply(t, MarkRunning(id, now))) && |RunningIds(Apply(t, MarkRunning(id, now)))| == |RunningIds(t)| + 1
  {
    ApplyKeepsValid(t, MarkRunning(id, now));
    assert RunningIds(Apply(t, MarkRunning(id, now))) == RunningIds(t) + {id};
  }

  /** What one statement of a tick does to the running jobs: only a claim adds one, and it comes after a count. */
  lemma StatementKeepsBound(t: Table, p: Phase, config: Config, input: Input)
    requires Valid(t) && |RunningIds(t)| <= config.maxConcurrent
    requires HasCounted(p) ==> |RunningIds(t)| < config.maxConcurrent
    ensures var (t', p') := Stepped(t, p, config, input);
      Valid(t') && |RunningIds(t')| <= config.maxConcurrent &&
      (HasCounted(p') ==> |RunningIds(t')| < config.maxConcurrent) && (p.Ended? ==> p'.Ended? && t' == t)
  {
    if !input.fails {
      match p
      case Begun => StaleFailedKeepsBound(t, input.now);
      case Filling(n) =>
        if n > 0 && input.candidate.Some? {
          CreationKeepsBound(t, Create(input.candidate.value.0, input.candidate.value.1, Auto, config.evaluator,
            input.now));
        }
      case Claiming(id) => if id < |t| && t[id].status.Queued? { ClaimAddsOne(t, id, input.now); }
      case _ =>
    }
  }

  lemma TurnKeepsSafe(w: World, turn: Turn, config: Config)
    requires Safe(w, config.maxConcurrent) && MayRun(turn)
    ensures Safe(After(w, turn, config), config.maxConcurrent)
  {
    match turn
    case Loop =>
    case Next(i, input) =>
      if i < |w.ticks| { StatementKeepsBound(w.table, w.ticks[i], config, input); }
    case Other(op) =>
      ApplyKeepsValid(w.table, op);
      if op.Create? { CreationAddsOne(w.table, op); } else { QuietStepOnlyShrinks(w.table, op); }
      SmallerSet(RunningIds(Apply(w.table, op)), RunningIds(w.table));
  }

  /** However the statements of the ticks, the turns of the loop, new requests and finishing evaluations are
      interleaved: at most one tick is ever under way, and the running jobs never exceed the bound. */
  lemma {:induction false} WorkerStaysWithinBound(w: World, turns: seq<Turn>, config: Config)
    requires Safe(w, config.maxConcurrent) && OnlyWorkerClaims(turns)
    ensures Safe(AfterAll(w, turns, config), config.maxConcurrent)
    ensures forall i, j :: 0 <= i < j < |AfterAll(w, turns, config).ticks| ==>
      AfterAll(w, turns, config).ticks[i].Ended? || AfterAll(w, turns, config).ticks[j].Ended?
    decreases |turns|
  {
    if turns != [] {
      WorkerStaysWithinBound(w, turns[..|turns| - 1], config);
      TurnKeepsSafe(AfterAll(w, turns[..|turns| - 1], config), turns[|turns| - 1], config);
    }
  }

  lemma {:induction false} AfterConcat(w: World, a: seq<Turn>, b: seq<Turn>, config: Config)
    ensures AfterAll(w, a + b, config) == AfterAll(AfterAll(w, a, config), b, config)
    decreases |b|
  {
    if b == [] {
      assert a + b == a;
    } else {
      assert (a + b)[..|a + b| - 1] == a + b[..|b| - 1];
      AfterConcat(w, a, b[..|b| - 1], config);
    }
  }

  lemma AfterOneMore(w: World, a: seq<Turn>, turn: Turn, config: Config)
    ensures AfterAll(w, a + [turn], config) == After(AfterAll(w, a, config), turn, config)
  {
    assert (a + [turn])[..|a|] == a;
  }

  /** The statements of a tick up to its claim, when it finds the job and does not fill the queue. */
  function UpToClaim(tick: nat, id: nat): seq<Turn> {
    var turn := Next(tick, Input(5, None, Some(id), false));
    [turn] + [turn] + [turn] + [turn] + [turn]
  }

  /** With nothing running, a tick that has just begun gets as far as its claim and has changed nothing yet. */
  lemma TickGetsToClaim(w: World, tick: nat, id: nat, config: Config)
    requires tick < |w.ticks| && w.ticks[tick].Begun? && !config.autoEnabled && config.maxConcurrent > 0
    requires RunningIds(w.table) == {}
    ensures AfterAll(w, UpToClaim(tick, id), config) == w.(ticks := w.ticks[tick := Claiming(id)])
  {
    var turn := Next(tick, Input(5, None, Some(id), false));
    forall i | 0 <= i < |w.table| ensures !w.table[i].status.Running? {
      assert i !in RunningIds(w.table);
    }
    assert StaleFailed(w.table, 5) == w.table;
    AfterOneMore(w, [], turn, config);
    AfterOneMore(w, [turn], turn, config);
    AfterOneMore(w, [turn] + [turn], turn, config);
    AfterOneMore(w, [turn] + [turn] + [turn], turn, config);
    AfterOneMore(w, [turn] + [turn] + [turn] + [turn], turn, config);
    assert [] + [turn] == [turn];
  }

  const FIRST := Job("a", None, Auto, "codex", Queued, 0, None, None, None)
  const SECOND := FIRST.(sessionId := "b")
  const ONE_AT_A_TIME := Config(1, 1, false, "codex")

  /** Two ticks that both stand before their claim. */
  lemma BothClaim(w: World, last: Input)
    requires w.table == [FIRST, SECOND] && w.ticks == [Claiming(0), Claiming(1)] && !last.fails
    ensures AfterAll(w, [Next(0, last)] + [Next(1, last)], ONE_AT_A_TIME).table ==
            [Changed(FIRST, MarkRunning(0, last.now)), Changed(SECOND, MarkRunning(1, last.now))]
  {
    var w1 := After(w, Next(0, last), ONE_AT_A_TIME);
    assert w1.table == [Changed(FIRST, MarkRunning(0, last.now)), SECOND] && w1.ticks == [Counting, Claiming(1)];
    AfterOneMore(w, [], Next(0, last), ONE_AT_A_TIME);
    AfterOneMore(w, [Next(0, last)], Next(1, last), ONE_AT_A_TIME);
    assert [] + [Next(0, last)] == [Next(0, last)];
  }

  lemma BothGetToClaim(w: World)
    requires w.table == [FIRST, SECOND] && w.ticks == [Begun, Begun]
    ensures AfterAll(w, UpToClaim(0, 0) + UpToClaim(1, 1), ONE_AT_A_TIME) == w.(ticks := [Claiming(0), Claiming(1)])
  {
    var w1 := w.(ticks := [Claiming(0), Begun]);
    assert RunningIds(w.table) == {};
    TickGetsToClaim(w, 0, 0, ONE_AT_A_TIME);
    TickGetsToClaim(w1, 1, 1, ONE_AT_A_TIME);
    AfterConcat(w, UpToClaim(0, 0), UpToClaim(1, 1), ONE_AT_A_TIME);
    assert w.ticks[0 := Claiming(0)] == w1.ticks && w1.ticks[1 := Claiming(1)] == [Claiming(0), Claiming(1)];
  }

  /** The bound does rest on ticks not overlapping: two ticks that begin together both count before either claims, and
      then exceed it. */
  lemma OverlapBreaksBound()
    ensures exists w: World, turns: seq<Turn>, config: Config ::
      Valid(w.table) && RunningIds(w.table) == {} && w.ticks == [Begun, Begun] && OnlyWorkerClaims(turns) &&
      !WithinBound(AfterAll(w, turns, config), config.maxConcurrent)
  {
    var w, last := World([FIRST, SECOND], [Begun, Begun], Some(1)), Input(5, None, None, false);
    var counted, claims := UpToClaim(0, 0) + UpToClaim(1, 1), [Next(0, last)] + [Next(1, last)];
    assert "a"[0] != "b"[0];
    assert RunningIds(w.table) == {};
    BothGetToClaim(w);
    BothClaim(w.(ticks := [Claiming(0), Claiming(1)]), last);
    AfterConcat(w, counted, claims, ONE_AT_A_TIME);
    assert RunningIds(AfterAll(w, counted + claims, ONE_AT_A_TIME).table) == {0, 1};
    assert OnlyWorkerClaims(counted + claims);
  }
}
