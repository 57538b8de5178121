/** Requests and their duplicates, the operations on the usage table, and what a run of them does to the
    session ids of its rows (src/recorder.py, src/database/usage.py). */
module Recording {
  import opened Basics
  import opened Rates
  import opened Requests
  import opened UsageRows
  import opened PriceMaps

  const DEDUP_WINDOW_MICROS := 15_000_000

  // ---------------------------------------------------------------- one request, and its duplicate

  function Family(clientSource: Option<string>): Option<string> {
    if clientSource.None? then None
    else if clientSource.value in {"claude", "claude-code"} then Some("claude")
    else if clientSource.value == "codex" then Some("codex")
    else if clientSource.value in {"gemini", "gemini-cli"} then Some("gemini")
    else if clientSource.value in {"opencode", "kilo"} then Some("opencode")
    else None
  }

  predicate IsOtlp(endpoint: string) { endpoint == "otlp" }

  function Distance(u: Usage, q: Request): nat { if u.ts < q.ts then q.ts - u.ts else u.ts - q.ts }

  /** A row of the other collection path with the same shape, within the time window. */
  predicate Duplicates(u: Usage, q: Request) {
    Family(q.clientSource).Some? && Family(u.clientSource) == Family(q.clientSource) &&
    IsOtlp(u.endpoint) != IsOtlp(q.endpoint) &&
    u.userId == q.userId && u.model == q.model &&
    u.tokens.prompt == q.tokens.prompt && u.tokens.completion == q.tokens.completion &&
    u.tokens.cached == q.tokens.cached && u.totalTokens == q.totalTokens &&
    OrZero(u.tokens.cacheCreation) == OrZero(q.tokens.cacheCreation) &&
    Distance(u, q) <= DEDUP_WINDOW_MICROS
  }

  predicate ClosestDuplicate(rows: seq<Usage>, q: Request, i: nat) {
    i < |rows| && Duplicates(rows[i], q) &&
    forall j :: 0 <= j < |rows| && Duplicates(rows[j], q) ==> Distance(rows[i], q) <= Distance(rows[j], q)
  }

  /** The client labels that stand for one client, whichever path reports it. */
  const CLIENTS: set<set<string>> :=
    {{"claude", "claude-code"}, {"codex"}, {"gemini", "gemini-cli"}, {"opencode", "kilo"}}

  predicate SameClient(a: Option<string>, b: Option<string>) {
    a.Some? && b.Some? && exists labels :: labels in CLIENTS && a.value in labels && b.value in labels
  }

  /** The row and the request report one call, from the two paths: at most fifteen seconds apart, of one client, user
      and model, with the same counts, where no cache-write count is as good as zero. */
  predicate ReportsSameCall(u: Usage, q: Request) {
    ((u.endpoint == "otlp" && q.endpoint != "otlp") || (u.endpoint != "otlp" && q.endpoint == "otlp")) &&
    u.ts - 15_000_000 <= q.ts <= u.ts + 15_000_000 && SameClient(u.clientSource, q.clientSource) &&
    u.userId == q.userId && u.model == q.model && u.totalTokens == q.totalTokens &&
    u.tokens.prompt == q.tokens.prompt && u.tokens.completion == q.tokens.completion &&
    u.tokens.cached == q.tokens.cached &&
    (u.tokens.cacheCreation == q.tokens.cacheCreation ||
     (u.tokens.cacheCreation in {None, Some(0)} && q.tokens.cacheCreation in {None, Some(0)}))
  }

  lemma FamiliesAreClients(a: Option<string>, b: Option<string>)
    ensures Family(b).Some? && Family(a) == Family(b) <==> SameClient(a, b)
  {
    if a.Some? && b.Some? {
      if labels :| labels in CLIENTS && a.value in labels && b.value in labels {
        assert Family(b).Some?;
      }
      if Family(b).Some? && Family(a) == Family(b) {
        var labels := if Family(a).value == "claude" then {"claude", "claude-code"}
          else if Family(a).value == "codex" then {"codex"}
          else if Family(a).value == "gemini" then {"gemini", "gemini-cli"} else {"opencode", "kilo"};
        assert labels in CLIENTS && a.value in labels && b.value in labels;
      }
    }
  }

  /** Exactly the reports of one call by the two paths are taken for duplicates. */
  lemma DuplicatesAreReportsOfOneCall(u: Usage, q: Request)
    ensures Duplicates(u, q) <==> ReportsSameCall(u, q)
  {
    FamiliesAreClients(u.clientSource, q.clientSource);
  }

  /** What recording a request does to the rows: nothing for an empty success; else the row in which the other path
      reported the same call, the nearest in time, is enriched; and only if there is none a row is added. */
  ghost predicate IsRecording(q: Request, was: seq<Usage>, now: seq<Usage>, id: Option<nat>) {
    (id.None? <==> IsEmptySuccess(q)) && (id.None? ==> now == was) &&
    (id.Some? ==> id.value < |now| && (|now| == |was| <==> exists u :: u in was && ReportsSameCall(u, q))) &&
    (id.Some? && |now| == |was| ==>
      IsNearest(q, was, id.value) && IsEnriched(was[id.value], now[id.value], q) &&
      now == was[id.value := now[id.value]]) &&
    (id.Some? && |now| != |was| ==> id.value == |was| && now == was + [now[|was|]] && IsRowOf(now[|was|], q))
  }

  /** The row reports the same call, and none that does is nearer in time. */
  predicate IsNearest(q: Request, rows: seq<Usage>, i: nat) {
    i < |rows| && ReportsSameCall(rows[i], q) &&
    forall u :: u in rows && ReportsSameCall(u, q) ==> Abs(rows[i].ts - q.ts) <= Abs(u.ts - q.ts)
  }

  lemma ClosestIsNearest(q: Request, rows: seq<Usage>, i: nat)
    requires ClosestDuplicate(rows, q, i)
    ensures IsNearest(q, rows, i)
  {
    DuplicatesAreReportsOfOneCall(rows[i], q);
    forall u | u in rows && ReportsSameCall(u, q) ensures Abs(rows[i].ts - q.ts) <= Abs(u.ts - q.ts) {
      DuplicatesAreReportsOfOneCall(u, q);
      var j :| 0 <= j < |rows| && rows[j] == u;
      assert Distance(rows[i], q) <= Distance(rows[j], q);
    }
  }

  lemma SkippedSays(q: Request, rows: seq<Usage>)
    requires Skipped(q)
    ensures IsRecording(q, rows, rows, None)
  {
  }

  lemma MergedSays(q: Request, rows: seq<Usage>, i: nat)
    requires !Skipped(q) && ClosestDuplicate(rows, q, i)
    ensures IsRecording(q, rows, rows[i := Merged(rows[i], q)], Some(i))
  {
    RowsSayWhatWasReported(rows[i], q, FREE, None);
    ClosestIsNearest(q, rows, i);
    assert rows[i] in rows;
  }

  lemma InsertedSays(q: Request, rows: seq<Usage>, cost: ModelCost, snapshotId: Option<nat>)
    requires !Skipped(q) && forall u :: u in rows ==> !Duplicates(u, q)
    ensures IsRecording(q, rows, rows + [RowFor(q, cost, snapshotId)], Some(|rows|))
  {
    RowsSayWhatWasReported(RowFor(q, cost, snapshotId), q, cost, snapshotId);
    forall u | u in rows ensures !ReportsSameCall(u, q) { DuplicatesAreReportsOfOneCall(u, q); }
  }

  /** The lookup of `merge_duplicate_usage`, nearest in time first. */
  method FindDuplicate(rows: seq<Usage>, q: Request) returns (r: Option<nat>)
    ensures r.Some? ==> ClosestDuplicate(rows, q, r.value)
    ensures r.None? ==> forall u :: u in rows ==> !Duplicates(u, q)
  {
    r := None;
    for n := 0 to |rows|
      invariant r.Some? ==> ClosestDuplicate(rows[..n], q, r.value)
      invariant r.None? ==> forall u :: u in rows[..n] ==> !Duplicates(u, q)
    {
      assert rows[..n + 1] == rows[..n] + [rows[n]];
      if Duplicates(rows[n], q) && (r.None? || Distance(rows[n], q) < Distance(rows[r.value], q)) {
        r := Some(n);
      }
    }
    assert rows[..|rows|] == rows;
  }

  /** OTLP overwrites the session and the address; the proxy only fills them in. */
  function Merged(u: Usage, q: Request): Usage {
    u.(sessionId := if q.sessionId.Some? && (IsOtlp(q.endpoint) || u.sessionId.None?) then q.sessionId else u.sessionId,
       clientIp := if q.clientIp.Some? && (IsOtlp(q.endpoint) || u.clientIp.None?) then q.clientIp else u.clientIp)
  }

  /** The sessions whose rows change hands when a merge replaces a session id that was already there. */
  function MovedBy(u: Usage, v: Usage): set<string> {
    if Present(u.sessionId) && v.sessionId != u.sessionId
    then {u.sessionId.value} + (if v.sessionId.Some? then {v.sessionId.value} else {})
    else {}
  }

  function RowFor(q: Request, cost: ModelCost, snapshotId: Option<nat>): Usage {
    Usage(q.userId, q.ts, q.provider, q.model, q.clientSource, q.sessionId, q.endpoint, q.tokens,
          OrZero(q.promptLength), q.reasoningTokens, q.toolTokens, q.totalTokens, q.latencyMs, q.ttftMs,
          CalculateCosts(q.tokens, cost), q.status, q.clientIp, snapshotId)
  }

  /** A success that reports no tokens at all. */
  predicate IsEmptySuccess(q: Request) {
    q.status == Some(200) && q.tokens.prompt in {None, Some(0)} && q.tokens.completion in {None, Some(0)} &&
    q.tokens.cached in {None, Some(0)} && q.totalTokens in {None, Some(0)}
  }

  /** A row that says what the request said. */
  predicate IsRowOf(v: Usage, q: Request) {
    v.userId == q.userId && v.ts == q.ts && v.provider == q.provider && v.model == q.model &&
    v.clientSource == q.clientSource && v.sessionId == q.sessionId && v.endpoint == q.endpoint &&
    v.tokens == q.tokens && v.promptLength == (if q.promptLength.Some? then q.promptLength.value else 0) &&
    v.reasoningTokens == q.reasoningTokens && v.toolTokens == q.toolTokens && v.totalTokens == q.totalTokens &&
    v.latencyMs == q.latencyMs && v.ttftMs == q.ttftMs && v.status == q.status && v.clientIp == q.clientIp
  }

  /** A row a request was merged into: its session and address are what OTLP says of them, or else what the proxy says
      where nothing was known; all else stays. */
  predicate IsEnriched(u: Usage, v: Usage, q: Request) {
    v == u.(sessionId := v.sessionId, clientIp := v.clientIp) &&
    (if q.endpoint == "otlp" then
       (q.sessionId != None ==> v.sessionId == q.sessionId) && (q.sessionId == None ==> v.sessionId == u.sessionId) &&
       (q.clientIp != None ==> v.clientIp == q.clientIp) && (q.clientIp == None ==> v.clientIp == u.clientIp)
     else
       (u.sessionId != None ==> v.sessionId == u.sessionId) && (u.sessionId == None ==> v.sessionId == q.sessionId) &&
       (u.clientIp != None ==> v.clientIp == u.clientIp) && (u.clientIp == None ==> v.clientIp == q.clientIp))
  }

  lemma RowsSayWhatWasReported(u: Usage, q: Request, cost: ModelCost, snapshotId: Option<nat>)
    ensures Skipped(q) <==> IsEmptySuccess(q)
    ensures IsRowOf(RowFor(q, cost, snapshotId), q) && RowFor(q, cost, snapshotId).snapshotId == snapshotId
    ensures IsEnriched(u, Merged(u, q), q)
  {
  }

  /** A new row is charged, count by count, at the prices that hold for it. */
  lemma RowIsChargedAtItsPrices(q: Request, cost: ModelCost, snapshotId: Option<nat>, p: Prices)
    requires OrderedTiers(cost.tiers) && PricesFor(cost, InputCount(q.tokens), p)
    ensures RowFor(q, cost, snapshotId).costs == ChargeFor(q.tokens, p)
  {
    RequestIsChargedAtItsPrices(q.tokens, cost, p);
  }

  /** The rates one recalculation or recording uses: the current price maps, and whether the best-effort
      write of a snapshot succeeds. */
  datatype Pricing = Pricing(costs: Dict, snapshotWrites: bool)

  /** `fetch_estimated_usage_ids` picks rows by these filters; empty text and None mean "any". */
  datatype Window = Window(provider: string, model: string, since: Option<int>, until: Option<int>)

  /** The operations that change the tables, each carrying the prices current when it runs. */
  datatype Operation =
    | Record(request: Request, pricing: Pricing)
    | Recalc(id: nat, scope: Option<string>, pricing: Pricing)
    | RepriceAll(window: Window, limit: Option<int>, costs: Dict, writes: seq<bool>)
    | RebuildAll

  /** The facts of a row that no operation changes. */
  predicate KeptFacts(u: Usage, v: Usage) {
    v == u.(costs := v.costs, snapshotId := v.snapshotId, sessionId := v.sessionId, clientIp := v.clientIp)
  }

  /** No row was dropped, and none changed in those facts. */
  predicate AllKept(was: seq<Usage>, now: seq<Usage>) {
    |was| <= |now| && forall i :: 0 <= i < |was| ==> KeptFacts(was[i], now[i])
  }

  lemma AllKeptIsTransitive(a: seq<Usage>, b: seq<Usage>, c: seq<Usage>)
    requires AllKept(a, b) && AllKept(b, c)
    ensures AllKept(a, c)
  {
    forall i | 0 <= i < |a| ensures KeptFacts(a[i], c[i]) {
      assert KeptFacts(a[i], b[i]) && KeptFacts(b[i], c[i]);
    }
  }

  predicate UsersNamed(ops: seq<Operation>) { forall op :: op in ops && op.Record? ==> op.request.userId != Some("") }

  // ---------------------------------------------------------------- the rows over a run

  /** What an operation may do to the rows: a request adds its row or enriches its closest duplicate; nothing
      else touches a session id. */
  ghost predicate IsRowStep(op: Operation, was: seq<Usage>, now: seq<Usage>) {
    match op
    case Record(q, _) => IsRecorded(q, was, now)
    case _ => |now| == |was| && forall i :: 0 <= i < |was| ==> KeptSession(was[i], now[i])
  }

  predicate KeptSession(u: Usage, v: Usage) { KeptFacts(u, v) && v.sessionId == u.sessionId }

  ghost predicate IsRecorded(q: Request, was: seq<Usage>, now: seq<Usage>) {
    if Skipped(q) then now == was
    else if exists u :: u in was && Duplicates(u, q) then
      exists i: nat :: ClosestDuplicate(was, q, i) && now == was[i := Merged(was[i], q)]
    else
      exists cost: ModelCost, id: Option<nat> :: now == was + [RowFor(q, cost, id)]
  }

  /** `history[n]` are the rows before operation `n`. */
  ghost predicate IsHistory(ops: seq<Operation>, history: seq<seq<Usage>>) {
    |history| == |ops| + 1 && forall n :: 0 <= n < |ops| ==> IsRowStep(ops[n], history[n], history[n + 1])
  }

  /** The sessions between which rows changed hands in one step. */
  function MovedBetween(was: seq<Usage>, now: seq<Usage>): set<string> {
    set i, s | 0 <= i < |was| && i < |now| && s in MovedBy(was[i], now[i]) :: s
  }

  /** A rebuild puts all of them right again. */
  function MovedAfter(moved: set<string>, op: Operation, was: seq<Usage>, now: seq<Usage>): set<string> {
    if op.RebuildAll? then {} else moved + MovedBetween(was, now)
  }

  function MovedIn(moved: set<string>, ops: seq<Operation>, history: seq<seq<Usage>>): set<string>
    requires |ops| < |history|
  {
    if ops == [] then moved
    else
      var n := |ops| - 1;
      MovedAfter(MovedIn(moved, ops[..n], history), ops[n], history[n], history[n + 1])
  }

  lemma {:induction false} MovedInPrefix(moved: set<string>, ops: seq<Operation>, a: seq<seq<Usage>>,
                                         b: seq<seq<Usage>>)
    requires |ops| < |a| && a <= b
    ensures MovedIn(moved, ops, a) == MovedIn(moved, ops, b)
    decreases |ops|
  {
    if ops != [] { MovedInPrefix(moved, ops[..|ops| - 1], a, b); }
  }

  lemma HistoryGrows(ops: seq<Operation>, n: nat, history: seq<seq<Usage>>, now: seq<Usage>, moved: set<string>)
    requires n < |ops| && IsHistory(ops[..n], history) && IsRowStep(ops[n], history[n], now)
    ensures IsHistory(ops[..n + 1], history + [now])
    ensures MovedIn(moved, ops[..n + 1], history + [now]) ==
            MovedAfter(MovedIn(moved, ops[..n], history), ops[n], history[n], now)
  {
    var ops', history' := ops[..n + 1], history + [now];
    assert ops'[..n] == ops[..n] && history <= history';
    MovedInPrefix(moved, ops[..n], history, history');
    forall k | 0 <= k < |ops'| ensures IsRowStep(ops'[k], history'[k], history'[k + 1]) {
      if k < n { assert IsRowStep(ops[..n][k], history[k], history[k + 1]); }
    }
  }

  lemma OneRowMoves(rows: seq<Usage>, i: nat, v: Usage)
    requires i < |rows|
    ensures MovedBetween(rows, rows[i := v]) == MovedBy(rows[i], v)
  {
    var now := rows[i := v];
    forall s ensures s in MovedBetween(rows, now) <==> s in MovedBy(rows[i], v) {
      if s in MovedBy(rows[i], v) { assert s in MovedBy(rows[i], now[i]); }
    }
  }

  lemma NoRowMoves(was: seq<Usage>, now: seq<Usage>)
    requires |was| <= |now| && forall i :: 0 <= i < |was| ==> now[i].sessionId == was[i].sessionId
    ensures MovedBetween(was, now) == {}
  {
  }

  // ---------------------------------------------------------------- when no session is moved

  /** The request has the shape of the row and lies within its window, whichever path either came by. */
  predicate Fits(u: Usage, q: Request) {
    u.userId == q.userId && u.model == q.model &&
    u.tokens.prompt == q.tokens.prompt && u.tokens.completion == q.tokens.completion &&
    u.tokens.cached == q.tokens.cached && u.totalTokens == q.totalTokens &&
    OrZero(u.tokens.cacheCreation) == OrZero(q.tokens.cacheCreation) &&
    Distance(u, q) <= DEDUP_WINDOW_MICROS
  }

  /** Two requests that could be reports of one call: same user, model and token counts, at most two windows apart. */
  predicate Alike(a: Request, b: Request) {
    a.userId == b.userId && a.model == b.model &&
    a.tokens.prompt == b.tokens.prompt && a.tokens.completion == b.tokens.completion &&
    a.tokens.cached == b.tokens.cached && a.totalTokens == b.totalTokens &&
    OrZero(a.tokens.cacheCreation) == OrZero(b.tokens.cacheCreation) &&
    -2 * DEDUP_WINDOW_MICROS <= a.ts - b.ts <= 2 * DEDUP_WINDOW_MICROS
  }

  /** Requests that could be reports of one call never name two different sessions. */
  predicate ConsistentSessions(ops: seq<Operation>) {
    forall m, n :: 0 <= m < |ops| && 0 <= n < |ops| && ops[m].Record? && ops[n].Record? ==>
      AgreeOnSession(ops[m].request, ops[n].request)
  }

  predicate AgreeOnSession(a: Request, b: Request) {
    Alike(a, b) && Present(a.sessionId) && b.sessionId.Some? ==> a.sessionId == b.sessionId
  }

  /** One of the first `n` requests fits the row and named its session. */
  predicate Named(ops: seq<Operation>, n: nat, u: Usage)
    requires n <= |ops|
  {
    exists m :: 0 <= m < n && ops[m].Record? && Fits(u, ops[m].request) && ops[m].request.sessionId == u.sessionId
  }

  predicate AllNamed(ops: seq<Operation>, n: nat, rows: seq<Usage>)
    requires n <= |ops|
  {
    forall i :: 0 <= i < |rows| && Present(rows[i].sessionId) ==> Named(ops, n, rows[i])
  }

  lemma StillNamed(ops: seq<Operation>, n: nat, u: Usage, v: Usage)
    requires n < |ops| && Named(ops, n, u) && KeptSession(u, v)
    ensures Named(ops, n + 1, v)
  {
    var m :| 0 <= m < n && ops[m].Record? && Fits(u, ops[m].request) && ops[m].request.sessionId == u.sessionId;
    assert Fits(v, ops[m].request);
  }

  /** A merge under consistent sessions replaces no session id, and the row's session is one a request named. */
  lemma ConsistentMerge(ops: seq<Operation>, n: nat, u: Usage)
    requires n < |ops| && ops[n].Record? && ConsistentSessions(ops) && Duplicates(u, ops[n].request)
    requires Present(u.sessionId) ==> Named(ops, n, u)
    ensures MovedBy(u, Merged(u, ops[n].request)) == {}
    ensures Present(Merged(u, ops[n].request).sessionId) ==> Named(ops, n + 1, Merged(u, ops[n].request))
  {
    var q, v := ops[n].request, Merged(u, ops[n].request);
    assert Fits(u, q) && Fits(v, q);
    if Present(u.sessionId) {
      var m :| 0 <= m < n && ops[m].Record? && Fits(u, ops[m].request) && ops[m].request.sessionId == u.sessionId;
      assert AgreeOnSession(ops[m].request, q) && Alike(ops[m].request, q);
      assert KeptSession(u, v);
      StillNamed(ops, n, u, v);
    } else if Present(v.sessionId) {
      assert v.sessionId == q.sessionId;
    }
  }

  lemma ConsistentStep(ops: seq<Operation>, n: nat, was: seq<Usage>, now: seq<Usage>)
    requires n < |ops| && ConsistentSessions(ops) && AllNamed(ops, n, was) && IsRowStep(ops[n], was, now)
    ensures MovedBetween(was, now) == {} && AllNamed(ops, n + 1, now)
  {
    forall i | 0 <= i < |was| && i < |now| && Present(was[i].sessionId) && KeptSession(was[i], now[i])
      ensures Named(ops, n + 1, now[i])
    {
      StillNamed(ops, n, was[i], now[i]);
    }
    if !ops[n].Record? {
      NoRowMoves(was, now);
    } else {
      var q := ops[n].request;
      if Skipped(q) {
        NoRowMoves(was, now);
      } else if exists u :: u in was && Duplicates(u, q) {
        var i: nat :| ClosestDuplicate(was, q, i) && now == was[i := Merged(was[i], q)];
        ConsistentMerge(ops, n, was[i]);
        OneRowMoves(was, i, now[i]);
      } else {
        NoRowMoves(was, now);
        var cost: ModelCost, id: Option<nat> :| now == was + [RowFor(q, cost, id)];
        assert Fits(now[|was|], q);
      }
    }
  }

  lemma {:induction false} ConsistentPrefix(ops: seq<Operation>, history: seq<seq<Usage>>, n: nat)
    requires IsHistory(ops, history) && history[0] == [] && ConsistentSessions(ops) && n <= |ops|
    ensures MovedIn({}, ops[..n], history) == {} && AllNamed(ops, n, history[n])
    decreases n
  {
    if n > 0 {
      ConsistentPrefix(ops, history, n - 1);
      assert IsRowStep(ops[n - 1], history[n - 1], history[n]);
      ConsistentStep(ops, n - 1, history[n - 1], history[n]);
      assert ops[..n][..n - 1] == ops[..n - 1];
    }
  }

  /** A run on empty tables whose requests name sessions consistently moves no session at all. */
  lemma ConsistentSessionsStayPut(ops: seq<Operation>, history: seq<seq<Usage>>)
    requires IsHistory(ops, history) && history[0] == [] && ConsistentSessions(ops)
    ensures MovedIn({}, ops, history) == {}
  {
    ConsistentPrefix(ops, history, |ops|);
    assert ops[..|ops|] == ops;
  }

  // ---------------------------------------------------------------- only the user's own rows matter

  /** The rows of one user, in table order. */
  function RowsOf(rows: seq<Usage>, user: Option<string>): (r: seq<Usage>)
    ensures forall u :: u in r <==> u in rows && u.userId == user
  {
    if rows == [] then []
    else
      var last := rows[|rows| - 1];
      RowsOf(rows[..|rows| - 1], user) + (if last.userId == user then [last] else [])
  }

  /** Whether a request finds a duplicate, and which rows can be the one, is decided by its user's rows alone. */
  lemma OwnRowsDecideTheMerge(rows: seq<Usage>, other: seq<Usage>, q: Request)
    requires RowsOf(rows, q.userId) == RowsOf(other, q.userId)
    ensures (exists u :: u in rows && Duplicates(u, q)) <==> (exists u :: u in other && Duplicates(u, q))
    ensures forall i: nat :: ClosestDuplicate(rows, q, i) ==>
      exists j: nat :: ClosestDuplicate(other, q, j) && other[j] == rows[i] && Merged(other[j], q) == Merged(rows[i], q)
  {
    forall u | Duplicates(u, q) ensures u in rows <==> u in other {
      assert u in RowsOf(rows, q.userId) <==> u in rows;
      assert u in RowsOf(other, q.userId) <==> u in other;
    }
    forall i: nat | ClosestDuplicate(rows, q, i)
      ensures exists j: nat ::
        ClosestDuplicate(other, q, j) && other[j] == rows[i] && Merged(other[j], q) == Merged(rows[i], q)
    {
      assert rows[i] in rows && rows[i] in other;
      var j :| 0 <= j < |other| && other[j] == rows[i];
      forall k | 0 <= k < |other| && Duplicates(other[k], q) ensures Distance(other[j], q) <= Distance(other[k], q) {
        assert other[k] in other && other[k] in rows;
        var m :| 0 <= m < |rows| && rows[m] == other[k];
      }
      assert ClosestDuplicate(other, q, j);
    }
  }
}
