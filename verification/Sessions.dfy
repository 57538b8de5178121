/** The session table: the record kept step by step and the record rebuilt from sorted rows
    (src/database/sessions.py, src/database/usage.py). */
module Sessions {
  import opened Basics
  import opened Rates
  import opened UsageRows

  datatype SessionRecord = SessionRecord(
    userId: Option<string>, started: int, ended: int,
    requestCount: int, successful: int, failed: int,
    totalTokens: int, promptTokens: int, completionTokens: int, cachedTokens: int, cacheCreationTokens: int,
    totalCost: real, latencySumMs: int, avgLatencyMs: real, avgTtftMs: Option<real>,
    models: map<string, real>, providers: map<string, real>)

  function Mean(sum: int, count: int): real
    requires count != 0
  {
    sum as real / count as real
  }

  /** The running mean of `n` values after one more. */
  function NextMean(mean: real, n: int, x: int): real
    requires n + 1 != 0
  {
    (mean * n as real + x as real) / (n + 1) as real
  }

  function AddCost(costs: map<string, real>, name: string, cost: real): map<string, real> {
    costs[name := (if name in costs then costs[name] else 0.0) + cost]
  }

  /** `_cost_maps_from_usage`, one map at a time. */
  function ModelCosts(us: seq<Usage>): map<string, real> {
    if us == [] then map[]
    else var u := us[|us| - 1]; AddCost(ModelCosts(us[..|us| - 1]), u.model, u.costs.total)
  }

  function ProviderCosts(us: seq<Usage>): map<string, real> {
    if us == [] then map[]
    else var u := us[|us| - 1]; AddCost(ProviderCosts(us[..|us| - 1]), u.provider, u.costs.total)
  }

  /** `_session_record_kwargs`: the record of a non-empty list of rows, first and last giving the bounds. */
  function RecordOf(us: seq<Usage>, missingTtftAsZero: bool): SessionRecord
    requires us != [] && MeasureOf(us, Everything).totals.requestCount != 0
  {
    var m := MeasureOf(us, Everything);
    var t := m.totals;
    SessionRecord(
      us[0].userId, us[0].ts, us[|us| - 1].ts,
      t.requestCount, t.successful, t.failed,
      t.totalTokens, t.promptTokens, t.completionTokens, t.cachedTokens, t.cacheCreationTokens,
      t.totalCost, t.latencySumMs, Mean(t.latencySumMs, t.requestCount),
      if missingTtftAsZero then Some(Mean(m.ttftSum, t.requestCount))
      else if m.ttftCount == 0 then None else Some(Mean(m.ttftSum, m.ttftCount)),
      ModelCosts(us), ProviderCosts(us))
  }

  /** The update branch of `upsert_session_from_usage`. */
  function Updated(r: SessionRecord, u: Usage): SessionRecord
    requires r.requestCount + 1 != 0
  {
    var n := r.requestCount + 1;
    var ok := Succeeded(u);
    var latency := r.latencySumMs + OrZero(u.latencyMs);
    SessionRecord(
      r.userId, if u.ts < r.started then u.ts else r.started, if u.ts > r.ended then u.ts else r.ended,
      n, r.successful + (if ok then 1 else 0), r.failed + (if ok then 0 else 1),
      r.totalTokens + OrZero(u.totalTokens), r.promptTokens + OrZero(u.tokens.prompt),
      r.completionTokens + OrZero(u.tokens.completion), r.cachedTokens + OrZero(u.tokens.cached),
      r.cacheCreationTokens + OrZero(u.tokens.cacheCreation),
      r.totalCost + u.costs.total, latency, Mean(latency, n),
      Some(NextMean(RealOrZero(r.avgTtftMs), r.requestCount, OrZero(u.ttftMs))),
      AddCost(r.models, u.model, u.costs.total), AddCost(r.providers, u.provider, u.costs.total))
  }

  /** The session part of a recalculation: the cost delta is added to the total and to both maps. */
  function Repriced(r: SessionRecord, u: Usage, delta: real): SessionRecord {
    r.(totalCost := r.totalCost + delta,
       models := AddCost(r.models, u.model, delta),
       providers := AddCost(r.providers, u.provider, delta))
  }

  // ---------------------------------------------------------------- agreement with the rows

  /** The selections a session record is compared with. */
  predicate AboutSession(s: Selection, sid: string) {
    (s.OfSession? || s.OfSessionModel? || s.OfSessionProvider?) && s.sid == sid
  }

  ghost predicate HasRows(rows: seq<Usage>, sid: string) { exists u :: u in rows && InSession(u, sid) }

  /** A name is in a cost map exactly when it has rows, and then with the sum of their costs. */
  predicate EntryIs(costs: map<string, real>, t: Totals, name: string) {
    (name in costs <==> t.requestCount > 0) && (name in costs ==> costs[name] == t.totalCost)
  }

  predicate MapEntryAgrees(costs: map<string, real>, rows: seq<Usage>, s: Selection, name: string) {
    EntryIs(costs, SumOf(rows, s), name)
  }

  ghost predicate ModelMapAgrees(costs: map<string, real>, rows: seq<Usage>, sid: string) {
    forall name :: MapEntryAgrees(costs, rows, OfSessionModel(sid, name), name)
  }

  ghost predicate ProviderMapAgrees(costs: map<string, real>, rows: seq<Usage>, sid: string) {
    forall name :: MapEntryAgrees(costs, rows, OfSessionProvider(sid, name), name)
  }

  /** The figures that are plain sums or quotients of sums. */
  predicate FiguresAgree(r: SessionRecord, m: Measure) {
    var t := m.totals;
    t.requestCount > 0 &&
    r.requestCount == t.requestCount && r.successful == t.successful && r.failed == t.failed &&
    r.totalTokens == t.totalTokens && r.promptTokens == t.promptTokens &&
    r.completionTokens == t.completionTokens && r.cachedTokens == t.cachedTokens &&
    r.cacheCreationTokens == t.cacheCreationTokens &&
    r.totalCost == t.totalCost && r.latencySumMs == t.latencySumMs &&
    r.avgLatencyMs == Mean(t.latencySumMs, t.requestCount) &&
    (m.ttftCount == t.requestCount ==> r.avgTtftMs == Some(Mean(m.ttftSum, t.requestCount)))
  }

  /** The bounds are attained by rows of the session, and every row of it lies between them and has its user. */
  ghost predicate BoundsAgree(r: SessionRecord, rows: seq<Usage>, sid: string) {
    (exists u :: u in rows && InSession(u, sid) && u.ts == r.started) &&
    (exists u :: u in rows && InSession(u, sid) && u.ts == r.ended) &&
    (forall u :: u in rows && InSession(u, sid) ==> r.started <= u.ts <= r.ended && u.userId == r.userId)
  }

  /** What a session record must say about the rows of its session. */
  ghost predicate Agrees(r: SessionRecord, rows: seq<Usage>, sid: string) {
    FiguresAgree(r, MeasureOf(rows, OfSession(sid))) && BoundsAgree(r, rows, sid) &&
    ModelMapAgrees(r.models, rows, sid) && ProviderMapAgrees(r.providers, rows, sid)
  }

  /** Two records that agree with the same rows are the same, but for the mean time to first token,
      which is the same when every row of the session has one. */
  lemma AgreementDeterminesRecord(a: SessionRecord, b: SessionRecord, rows: seq<Usage>, sid: string)
    requires Agrees(a, rows, sid) && Agrees(b, rows, sid)
    ensures a == b.(avgTtftMs := a.avgTtftMs)
    ensures var m := MeasureOf(rows, OfSession(sid)); m.ttftCount == m.totals.requestCount ==> a == b
  {
    assert a.started == b.started && a.ended == b.ended && a.userId == b.userId;
    forall name ensures (name in a.models <==> name in b.models) &&
                        (name in a.models ==> a.models[name] == b.models[name]) {
      var s := OfSessionModel(sid, name);
      assert MapEntryAgrees(a.models, rows, s, name) && MapEntryAgrees(b.models, rows, s, name);
    }
    forall name ensures (name in a.providers <==> name in b.providers) &&
                        (name in a.providers ==> a.providers[name] == b.providers[name]) {
      var s := OfSessionProvider(sid, name);
      assert MapEntryAgrees(a.providers, rows, s, name) && MapEntryAgrees(b.providers, rows, s, name);
    }
    assert a.models == b.models && a.providers == b.providers;
  }

  // ---------------------------------------------------------------- the rebuild agrees

  /** The first-token times of the rows that have one, and their number. */
  function TtftSum(rows: seq<Usage>, sid: string): int {
    if rows == [] then 0
    else
      var u := rows[|rows| - 1];
      TtftSum(rows[..|rows| - 1], sid) + (if InSession(u, sid) && u.ttftMs.Some? then u.ttftMs.value else 0)
  }

  function TtftCount(rows: seq<Usage>, sid: string): nat {
    if rows == [] then 0
    else
      var u := rows[|rows| - 1];
      TtftCount(rows[..|rows| - 1], sid) + (if InSession(u, sid) && u.ttftMs.Some? then 1 else 0)
  }

  lemma {:induction false} TtftsAreCounted(rows: seq<Usage>, sid: string)
    ensures MeasureOf(rows, OfSession(sid)).ttftSum == TtftSum(rows, sid)
    ensures MeasureOf(rows, OfSession(sid)).ttftCount == TtftCount(rows, sid)
    decreases |rows|
  {
    if rows != [] { TtftsAreCounted(rows[..|rows| - 1], sid); }
  }

  /** The figures of a session record, by the column they show. */
  function FigureAt(r: SessionRecord, c: Column): int {
    match c
    case RequestCount => r.requestCount
    case Successes => r.successful
    case Failures => r.failed
    case TotalTokens => r.totalTokens
    case PromptTokens => r.promptTokens
    case CompletionTokens => r.completionTokens
    case CachedTokens => r.cachedTokens
    case CacheCreationTokens => r.cacheCreationTokens
    case Latencies => r.latencySumMs
    case _ => 0
  }

  predicate IsFigure(c: Column) {
    c in {RequestCount, Successes, Failures, TotalTokens, PromptTokens, CompletionTokens, CachedTokens,
          CacheCreationTokens, Latencies}
  }

  lemma FiguresAreColumns(r: SessionRecord, m: Measure, c: Column)
    requires FiguresAgree(r, m) && IsFigure(c)
    ensures FigureAt(r, c) == ColumnOf(m.totals, c)
  {
  }

  /** Each figure of a session record adds up its own field over the session's rows, and its cost theirs. */
  lemma RecordsCountTheirRows(r: SessionRecord, rows: seq<Usage>, sid: string, c: Column)
    requires Agrees(r, rows, sid) && IsFigure(c)
    ensures FigureAt(r, c) == ColumnSum(rows, OfSession(sid), c)
    ensures r.totalCost == MoneySum(rows, OfSession(sid), TotalCost)
  {
    FiguresAreColumns(r, MeasureOf(rows, OfSession(sid)), c);
    ColumnsAreSums(rows, OfSession(sid), c);
    MoneyIsSummed(rows, OfSession(sid), TotalCost);
  }

  /** Its mean latency is over all its requests; so is its mean time to first token, if they all have one. */
  lemma RecordsShowMeans(r: SessionRecord, rows: seq<Usage>, sid: string)
    requires Agrees(r, rows, sid)
    ensures r.requestCount > 0 && r.avgLatencyMs == r.latencySumMs as real / r.requestCount as real
    ensures TtftCount(rows, sid) == r.requestCount ==>
      r.avgTtftMs == Some(TtftSum(rows, sid) as real / r.requestCount as real)
  {
    TtftsAreCounted(rows, sid);
  }

  /** A session's rows, and those of them with one model or provider. */
  lemma SessionSelects(sid: string, name: string, u: Usage)
    ensures Selects(OfSession(sid), u) <==> u.sessionId == Some(sid)
    ensures Selects(OfSessionModel(sid, name), u) <==> u.sessionId == Some(sid) && u.model == name
    ensures Selects(OfSessionProvider(sid, name), u) <==> u.sessionId == Some(sid) && u.provider == name
  {
  }

  /** The cost maps name exactly the models and providers the session used, each with what it cost. */
  lemma CostMapsShowTheirRows(r: SessionRecord, rows: seq<Usage>, sid: string, name: string)
    requires Agrees(r, rows, sid)
    ensures name in r.models <==> exists u :: u in rows && u.sessionId == Some(sid) && u.model == name
    ensures name in r.models ==> r.models[name] == MoneySum(rows, OfSessionModel(sid, name), TotalCost)
    ensures name in r.providers <==> exists u :: u in rows && u.sessionId == Some(sid) && u.provider == name
    ensures name in r.providers ==> r.providers[name] == MoneySum(rows, OfSessionProvider(sid, name), TotalCost)
  {
    assert MapEntryAgrees(r.models, rows, OfSessionModel(sid, name), name);
    assert MapEntryAgrees(r.providers, rows, OfSessionProvider(sid, name), name);
    CountsRows(rows, OfSessionModel(sid, name));
    CountsRows(rows, OfSessionProvider(sid, name));
    MoneyIsSummed(rows, OfSessionModel(sid, name), TotalCost);
    MoneyIsSummed(rows, OfSessionProvider(sid, name), TotalCost);
    forall u { SessionSelects(sid, name, u); }
  }

  predicate SortedByTs(us: seq<Usage>) {
    forall i, j :: 0 <= i < j < |us| ==> us[i].ts <= us[j].ts
  }

  lemma {:induction false} CostMapsAreSums(us: seq<Usage>, sid: string)
    requires forall u :: u in us ==> InSession(u, sid)
    ensures ModelMapAgrees(ModelCosts(us), us, sid) && ProviderMapAgrees(ProviderCosts(us), us, sid)
    decreases |us|
  {
    if us != [] {
      var rest, u := us[..|us| - 1], us[|us| - 1];
      assert us == rest + [u];
      CostMapsAreSums(rest, sid);
      MapsGainRow(ModelCosts(rest), ProviderCosts(rest), rest, us, u, sid) by {
        forall s { SumAppend(rest, u, s); }
      }
    }
  }

  /** Adding one row's cost to the maps keeps them in agreement. */
  lemma MapsGainRow(models: map<string, real>, providers: map<string, real>, rows: seq<Usage>, after: seq<Usage>,
                    u: Usage, sid: string)
    requires ModelMapAgrees(models, rows, sid) && ProviderMapAgrees(providers, rows, sid)
    requires InSession(u, sid)
    requires forall s :: AboutSession(s, sid) ==> MeasureOf(after, s) == Plus(MeasureOf(rows, s), Part(s, u))
    ensures ModelMapAgrees(AddCost(models, u.model, u.costs.total), after, sid)
    ensures ProviderMapAgrees(AddCost(providers, u.provider, u.costs.total), after, sid)
  {
    forall name
      ensures MapEntryAgrees(AddCost(models, u.model, u.costs.total), after, OfSessionModel(sid, name), name)
    {
      assert AboutSession(OfSessionModel(sid, name), sid);
      EntryGainsRow(models, u.model, rows, after, u, OfSessionModel(sid, name), name);
    }
    forall name
      ensures MapEntryAgrees(AddCost(providers, u.provider, u.costs.total), after, OfSessionProvider(sid, name), name)
    {
      assert AboutSession(OfSessionProvider(sid, name), sid);
      EntryGainsRow(providers, u.provider, rows, after, u, OfSessionProvider(sid, name), name);
    }
  }

  lemma EntryGainsRow(costs: map<string, real>, group: string, rows: seq<Usage>, after: seq<Usage>,
                      u: Usage, s: Selection, name: string)
    requires MapEntryAgrees(costs, rows, s, name)
    requires Selects(s, u) <==> group == name
    requires MeasureOf(after, s) == Plus(MeasureOf(rows, s), Part(s, u))
    ensures MapEntryAgrees(AddCost(costs, group, u.costs.total), after, s, name)
  {
    var t, t' := SumOf(rows, s), SumOf(after, s);
    assert t.requestCount >= 0 by { CountsRows(rows, s); }
    assert t.requestCount <= 0 ==> t.totalCost == 0.0 by { if t.requestCount <= 0 { NoRowsNothing(rows, s); } }
    assert t'.requestCount == t.requestCount + (if group == name then 1 else 0) &&
           t'.totalCost == t.totalCost + (if group == name then u.costs.total else 0.0) by {
      PlusPart(MeasureOf(rows, s), s, u);
    }
    EntryStep(costs, group, u.costs.total, t, t', name);
  }

  lemma EntryStep(costs: map<string, real>, group: string, cost: real, t: Totals, t': Totals, name: string)
    requires EntryIs(costs, t, name) && t.requestCount >= 0
    requires t.requestCount <= 0 ==> t.totalCost == 0.0
    requires t'.requestCount == t.requestCount + (if group == name then 1 else 0)
    requires t'.totalCost == t.totalCost + (if group == name then cost else 0.0)
    ensures EntryIs(AddCost(costs, group, cost), t', name)
  {
  }

  predicate OneUser(us: seq<Usage>) {
    forall u, v :: u in us && v in us ==> u.userId == v.userId
  }

  /** The session's rows in time order, as the rebuild query returns them (ties in any order). */
  predicate IsRebuildInput(us: seq<Usage>, rows: seq<Usage>, sid: string) {
    SortedByTs(us) && multiset(us) == multiset(Picked(rows, OfSession(sid)))
  }

  lemma RebuildInputSums(us: seq<Usage>, rows: seq<Usage>, sid: string, s: Selection)
    requires IsRebuildInput(us, rows, sid) && AboutSession(s, sid)
    ensures MeasureOf(us, s) == MeasureOf(rows, s)
    ensures forall u :: u in us <==> u in rows && InSession(u, sid)
    ensures MeasureOf(us, OfSession(sid)) == MeasureOf(us, Everything)
  {
    var picked := Picked(rows, OfSession(sid));
    FoldOfPermutation(us, picked, PartsOf(s));
    SumOfPicked(rows, OfSession(sid), s);
    forall u ensures u in us <==> u in picked {
      assert u in us <==> u in multiset(us);
      assert u in picked <==> u in multiset(picked);
    }
    SameSelection(us, OfSession(sid), Everything);
  }

  lemma SessionHasCount(rows: seq<Usage>, sid: string)
    ensures SumOf(rows, OfSession(sid)).requestCount >= 0
    ensures HasRows(rows, sid) <==> SumOf(rows, OfSession(sid)).requestCount > 0
    ensures !HasRows(rows, sid) ==> MeasureOf(rows, OfSession(sid)) == NOTHING
    ensures MeasureOf(rows, OfSession(sid)).ttftCount <= SumOf(rows, OfSession(sid)).requestCount
  {
    CountsRows(rows, OfSession(sid));
    if !HasRows(rows, sid) { NoRowsNothing(rows, OfSession(sid)); }
  }

  /** The rebuilt record agrees with the rows, whatever order equal timestamps come in. */
  lemma RebuildAgrees(us: seq<Usage>, rows: seq<Usage>, sid: string)
    requires IsRebuildInput(us, rows, sid) && OneUser(us) && HasRows(rows, sid)
    ensures us != [] && MeasureOf(us, Everything).totals.requestCount > 0
    ensures Agrees(RecordOf(us, false), rows, sid)
  {
    RebuildInputSums(us, rows, sid, OfSession(sid));
    SessionHasCount(rows, sid);
    var r := RecordOf(us, false);
    assert FiguresAgree(r, MeasureOf(rows, OfSession(sid)));
    assert BoundsAgree(r, rows, sid) by {
      assert us[0] in us && us[|us| - 1] in us;
    }
    RebuiltMapsAgree(us, rows, sid);
  }

  lemma RebuiltMapsAgree(us: seq<Usage>, rows: seq<Usage>, sid: string)
    requires IsRebuildInput(us, rows, sid)
    ensures ModelMapAgrees(ModelCosts(us), rows, sid) && ProviderMapAgrees(ProviderCosts(us), rows, sid)
  {
    RebuildInputSums(us, rows, sid, OfSession(sid));
    CostMapsAreSums(us, sid);
    forall name ensures MapEntryAgrees(ModelCosts(us), rows, OfSessionModel(sid, name), name) {
      RebuildInputSums(us, rows, sid, OfSessionModel(sid, name));
      assert MapEntryAgrees(ModelCosts(us), us, OfSessionModel(sid, name), name);
    }
    forall name ensures MapEntryAgrees(ProviderCosts(us), rows, OfSessionProvider(sid, name), name) {
      RebuildInputSums(us, rows, sid, OfSessionProvider(sid, name));
      assert MapEntryAgrees(ProviderCosts(us), us, OfSessionProvider(sid, name), name);
    }
  }

  // ---------------------------------------------------------------- one step agrees

  /** From `rows` to `after`, the session gains the row `u` and nothing else changes for it. */
  ghost predicate GainsRow(rows: seq<Usage>, after: seq<Usage>, u: Usage, sid: string) {
    InSession(u, sid) &&
    (forall s :: AboutSession(s, sid) ==> MeasureOf(after, s) == Plus(MeasureOf(rows, s), Part(s, u))) &&
    (forall v :: v in after && InSession(v, sid) <==> (v in rows && InSession(v, sid)) || v == u)
  }

  lemma MeanStep(sum: int, n: int, x: int)
    requires n > 0
    ensures NextMean(Mean(sum, n), n, x) == Mean(sum + x, n + 1)
  {
    assert Mean(sum, n) * n as real == sum as real;
  }

  lemma FiguresStep(r: SessionRecord, m: Measure, u: Usage)
    requires FiguresAgree(r, m) && m.ttftCount <= m.totals.requestCount
    ensures FiguresAgree(Updated(r, u), Plus(m, RowMeasure(u)))
  {
    if m.ttftCount == m.totals.requestCount && u.ttftMs.Some? {
      MeanStep(m.ttftSum, m.totals.requestCount, u.ttftMs.value);
    }
  }

  /** The update branch keeps a record in agreement when its session gains a row of the same user,
      early, late or in between. */
  lemma UpdateAgrees(r: SessionRecord, rows: seq<Usage>, after: seq<Usage>, u: Usage, sid: string)
    requires Agrees(r, rows, sid) && GainsRow(rows, after, u, sid) && u.userId == r.userId
    ensures Agrees(Updated(r, u), after, sid)
  {
    var m := MeasureOf(rows, OfSession(sid));
    assert AboutSession(OfSession(sid), sid) && Part(OfSession(sid), u) == RowMeasure(u);
    CountsRows(rows, OfSession(sid));
    FiguresStep(r, m, u);
    var r' := Updated(r, u);
    assert BoundsAgree(r', after, sid) by {
      var first :| first in rows && InSession(first, sid) && first.ts == r.started;
      var last :| last in rows && InSession(last, sid) && last.ts == r.ended;
      assert first in after && last in after && u in after;
    }
    MapsGainRow(r.models, r.providers, rows, after, u, sid);
  }

  /** The insert branch: the first row of a session creates an agreeing record. */
  lemma CreateAgrees(rows: seq<Usage>, after: seq<Usage>, u: Usage, sid: string)
    requires !HasRows(rows, sid) && GainsRow(rows, after, u, sid)
    ensures MeasureOf([u], Everything).totals.requestCount == 1
    ensures Agrees(RecordOf([u], true), after, sid)
  {
    SingletonRecord(u);
    FirstRowMeasure(rows, after, u, sid);
    FirstRowBounds(RecordOf([u], true), rows, after, u, sid);
    EmptyMapsAgree(rows, sid);
    MapsGainRow(map[], map[], rows, after, u, sid);
  }

  lemma FirstRowMeasure(rows: seq<Usage>, after: seq<Usage>, u: Usage, sid: string)
    requires !HasRows(rows, sid) && GainsRow(rows, after, u, sid)
    ensures MeasureOf(after, OfSession(sid)) == RowMeasure(u)
  {
    SessionHasCount(rows, sid);
    assert AboutSession(OfSession(sid), sid) && Part(OfSession(sid), u) == RowMeasure(u);
    PlusIsAbelian(RowMeasure(u), NOTHING, NOTHING);
  }

  lemma FirstRowBounds(r: SessionRecord, rows: seq<Usage>, after: seq<Usage>, u: Usage, sid: string)
    requires !HasRows(rows, sid) && GainsRow(rows, after, u, sid)
    requires r.started == r.ended == u.ts && r.userId == u.userId
    ensures BoundsAgree(r, after, sid)
  {
    assert u in after;
  }

  lemma SingletonRecord(u: Usage)
    ensures MeasureOf([u], Everything) == RowMeasure(u) && RowTotals(u).requestCount == 1
    ensures FiguresAgree(RecordOf([u], true), RowMeasure(u))
    ensures RecordOf([u], true).models == AddCost(map[], u.model, u.costs.total)
    ensures RecordOf([u], true).providers == AddCost(map[], u.provider, u.costs.total)
    ensures var r := RecordOf([u], true); r.started == r.ended == u.ts && r.userId == u.userId
  {
    FoldSingleton(u, PartsOf(Everything));
    assert [u][..0] == [];
    assert ModelCosts([u]) == AddCost(ModelCosts([u][..0]), u.model, u.costs.total);
    assert ProviderCosts([u]) == AddCost(ProviderCosts([u][..0]), u.provider, u.costs.total);
  }

  lemma EmptyMapsAgree(rows: seq<Usage>, sid: string)
    requires !HasRows(rows, sid)
    ensures ModelMapAgrees(map[], rows, sid) && ProviderMapAgrees(map[], rows, sid)
  {
    forall name ensures MapEntryAgrees(map[], rows, OfSessionModel(sid, name), name) {
      CountsRows(rows, OfSessionModel(sid, name));
    }
    forall name ensures MapEntryAgrees(map[], rows, OfSessionProvider(sid, name), name) {
      CountsRows(rows, OfSessionProvider(sid, name));
    }
  }

  lemma NoPart(s: Selection, u: Usage, sid: string)
    requires AboutSession(s, sid) && !InSession(u, sid)
    ensures !Selects(s, u) && Part(s, u) == NOTHING
  {
  }

  lemma PlusNothing(m: Measure)
    ensures Plus(m, NOTHING) == m == Plus(NOTHING, m)
  {
  }

  lemma GainsByAppend(rows: seq<Usage>, u: Usage, sid: string)
    requires InSession(u, sid)
    ensures GainsRow(rows, rows + [u], u, sid)
  {
    forall s | AboutSession(s, sid) ensures MeasureOf(rows + [u], s) == Plus(MeasureOf(rows, s), Part(s, u)) {
      SumAppend(rows, u, s);
    }
  }

  /** A row that had no session (or another one) joins: for the new session this is a gain. */
  lemma GainsByJoin(rows: seq<Usage>, i: nat, v: Usage, sid: string)
    requires i < |rows| && !InSession(rows[i], sid) && InSession(v, sid)
    ensures GainsRow(rows, rows[i := v], v, sid)
  {
    var after := rows[i := v];
    forall s | AboutSession(s, sid) ensures MeasureOf(after, s) == Plus(MeasureOf(rows, s), Part(s, v)) {
      SumReplace(rows, i, v, s);
      NoPart(s, rows[i], sid);
      PlusNothing(MeasureOf(after, s));
    }
    JoinMembers(rows, i, v, sid);
  }

  lemma JoinMembers(rows: seq<Usage>, i: nat, v: Usage, sid: string)
    requires i < |rows| && !InSession(rows[i], sid) && InSession(v, sid)
    ensures forall w :: w in rows[i := v] && InSession(w, sid) <==> (w in rows && InSession(w, sid)) || w == v
  {
    var after := rows[i := v];
    forall w ensures w in after && InSession(w, sid) <==> (w in rows && InSession(w, sid)) || w == v {
      MembersAfterReplace(rows, i, v, w);
    }
  }

  lemma MembersAfterReplace<T>(rows: seq<T>, i: nat, v: T, w: T)
    requires i < |rows|
    ensures w in rows[i := v] ==> w == v || w in rows
    ensures w in rows && w != rows[i] ==> w in rows[i := v]
    ensures v in rows[i := v]
  {
    if w in rows && w != rows[i] {
      var j :| 0 <= j < |rows| && rows[j] == w;
      assert rows[i := v][j] == w;
    }
    assert rows[i := v][i] == v;
  }

  // ---------------------------------------------------------------- other sessions are untouched

  ghost predicate SameFor(rows: seq<Usage>, after: seq<Usage>, sid: string) {
    (forall s :: AboutSession(s, sid) ==> MeasureOf(after, s) == MeasureOf(rows, s)) &&
    (forall v :: v in after && InSession(v, sid) <==> v in rows && InSession(v, sid))
  }

  lemma SameByAppend(rows: seq<Usage>, u: Usage, sid: string)
    requires !InSession(u, sid)
    ensures SameFor(rows, rows + [u], sid)
  {
    forall s | AboutSession(s, sid) ensures MeasureOf(rows + [u], s) == MeasureOf(rows, s) {
      SumAppend(rows, u, s);
      NoPart(s, u, sid);
      PlusNothing(MeasureOf(rows, s));
    }
  }

  lemma SameByReplace(rows: seq<Usage>, i: nat, v: Usage, sid: string)
    requires i < |rows| && !InSession(rows[i], sid) && !InSession(v, sid)
    ensures SameFor(rows, rows[i := v], sid)
  {
    forall s | AboutSession(s, sid) ensures MeasureOf(rows[i := v], s) == MeasureOf(rows, s) {
      NoPart(s, rows[i], sid);
      NoPart(s, v, sid);
      SumReplace(rows, i, v, s);
    }
    forall w ensures w in rows[i := v] && InSession(w, sid) <==> w in rows && InSession(w, sid) {
      MembersAfterReplace(rows, i, v, w);
    }
  }

  lemma AgreesIsFramed(r: SessionRecord, rows: seq<Usage>, after: seq<Usage>, sid: string)
    requires SameFor(rows, after, sid) && Agrees(r, rows, sid)
    ensures Agrees(r, after, sid)
  {
    assert AboutSession(OfSession(sid), sid);
    assert BoundsAgree(r, after, sid);
    forall name ensures MapEntryAgrees(r.models, after, OfSessionModel(sid, name), name) {
      assert AboutSession(OfSessionModel(sid, name), sid);
      assert MapEntryAgrees(r.models, rows, OfSessionModel(sid, name), name);
    }
    forall name ensures MapEntryAgrees(r.providers, after, OfSessionProvider(sid, name), name) {
      assert AboutSession(OfSessionProvider(sid, name), sid);
      assert MapEntryAgrees(r.providers, rows, OfSessionProvider(sid, name), name);
    }
  }

  // ---------------------------------------------------------------- repricing one row

  /** `v` is `u` up to its costs, its snapshot binding and its client address. */
  predicate SameButCosts(u: Usage, v: Usage) {
    v == u.(costs := v.costs, snapshotId := v.snapshotId, clientIp := v.clientIp)
  }

  lemma CostShift(m: Measure, m': Measure, u: Usage, v: Usage)
    requires SameButCosts(u, v)
    requires Plus(m', RowMeasure(u)) == Plus(m, RowMeasure(v))
    ensures m'.ttftSum == m.ttftSum && m'.ttftCount == m.ttftCount
    ensures m'.totals == m.totals.(inputCost := m.totals.inputCost + v.costs.input - u.costs.input,
                                   outputCost := m.totals.outputCost + v.costs.output - u.costs.output,
                                   totalCost := m.totals.totalCost + v.costs.total - u.costs.total)
  {
  }

  lemma EntryShift(costs: map<string, real>, group: string, rows: seq<Usage>, i: nat, v: Usage, s: Selection,
                   name: string)
    requires i < |rows| && SameButCosts(rows[i], v)
    requires MapEntryAgrees(costs, rows, s, name) && group in costs
    requires Selects(s, rows[i]) == Selects(s, v) == (group == name)
    ensures MapEntryAgrees(AddCost(costs, group, v.costs.total - rows[i].costs.total), rows[i := v], s, name)
  {
    SumReplace(rows, i, v, s);
    if group == name {
      CostShift(MeasureOf(rows, s), MeasureOf(rows[i := v], s), rows[i], v);
    }
  }

  /** Recalculating a row of the session keeps its record in agreement. */
  lemma RepriceAgrees(r: SessionRecord, rows: seq<Usage>, i: nat, v: Usage, sid: string)
    requires i < |rows| && SameButCosts(rows[i], v) && InSession(v, sid) && Agrees(r, rows, sid)
    ensures Agrees(Repriced(r, v, v.costs.total - rows[i].costs.total), rows[i := v], sid)
  {
    var after, delta := rows[i := v], v.costs.total - rows[i].costs.total;
    SumReplace(rows, i, v, OfSession(sid));
    CostShift(MeasureOf(rows, OfSession(sid)), MeasureOf(after, OfSession(sid)), rows[i], v);
    RepriceBounds(r, rows, i, v, sid);
    NamesPresent(r, rows, i, sid);
    forall name ensures MapEntryAgrees(AddCost(r.models, v.model, delta), after, OfSessionModel(sid, name), name) {
      assert MapEntryAgrees(r.models, rows, OfSessionModel(sid, name), name);
      EntryShift(r.models, v.model, rows, i, v, OfSessionModel(sid, name), name);
    }
    forall name
      ensures MapEntryAgrees(AddCost(r.providers, v.provider, delta), after, OfSessionProvider(sid, name), name)
    {
      assert MapEntryAgrees(r.providers, rows, OfSessionProvider(sid, name), name);
      EntryShift(r.providers, v.provider, rows, i, v, OfSessionProvider(sid, name), name);
    }
  }

  lemma NamesPresent(r: SessionRecord, rows: seq<Usage>, i: nat, sid: string)
    requires i < |rows| && InSession(rows[i], sid) && Agrees(r, rows, sid)
    ensures rows[i].model in r.models && rows[i].provider in r.providers
  {
    var u := rows[i];
    CountsRows(rows, OfSessionModel(sid, u.model));
    CountsRows(rows, OfSessionProvider(sid, u.provider));
    assert u in rows && Selects(OfSessionModel(sid, u.model), u) && Selects(OfSessionProvider(sid, u.provider), u);
    assert MapEntryAgrees(r.models, rows, OfSessionModel(sid, u.model), u.model);
    assert MapEntryAgrees(r.providers, rows, OfSessionProvider(sid, u.provider), u.provider);
  }

  lemma RepriceBounds(r: SessionRecord, rows: seq<Usage>, i: nat, v: Usage, sid: string)
    requires i < |rows| && SameButCosts(rows[i], v) && InSession(v, sid) && BoundsAgree(r, rows, sid)
    ensures BoundsAgree(r, rows[i := v], sid)
  {
    var after := rows[i := v];
    var first :| first in rows && InSession(first, sid) && first.ts == r.started;
    var last :| last in rows && InSession(last, sid) && last.ts == r.ended;
    MembersAfterReplace(rows, i, v, first);
    MembersAfterReplace(rows, i, v, last);
    assert exists u :: u in after && InSession(u, sid) && u.ts == r.started by {
      assert (if first == rows[i] then v else first) in after;
    }
    assert exists u :: u in after && InSession(u, sid) && u.ts == r.ended by {
      assert (if last == rows[i] then v else last) in after;
    }
    forall u | u in after && InSession(u, sid) ensures r.started <= u.ts <= r.ended && u.userId == r.userId {
      MembersAfterReplace(rows, i, v, u);
    }
  }

  /** A zero delta leaves the record as it is, so skipping the write is the same as making it. */
  lemma ZeroDelta(r: SessionRecord, rows: seq<Usage>, i: nat, sid: string)
    requires i < |rows| && InSession(rows[i], sid) && Agrees(r, rows, sid)
    ensures Repriced(r, rows[i], 0.0) == r
  {
    NamesPresent(r, rows, i, sid);
  }

  // ---------------------------------------------------------------- arrival order does not matter

  /** The record kept step by step while rows of one session arrive in the order of `us`. */
  function Incremental(us: seq<Usage>): (r: SessionRecord)
    requires us != []
    ensures r.requestCount == |us|
  {
    if |us| == 1 then SingletonRecord(us[0]); RecordOf(us, true)
    else Updated(Incremental(us[..|us| - 1]), us[|us| - 1])
  }

  lemma FirstArrivalAgrees(u: Usage, sid: string)
    requires InSession(u, sid)
    ensures Agrees(Incremental([u]), [u], sid)
  {
    var rest: seq<Usage> := [];
    GainsByAppend(rest, u, sid);
    assert rest + [u] == [u] && !HasRows(rest, sid);
    CreateAgrees(rest, [u], u, sid);
  }

  lemma NextArrivalAgrees(r: SessionRecord, rest: seq<Usage>, u: Usage, sid: string)
    requires rest != [] && InSession(u, sid) && InSession(rest[0], sid) && rest[0].userId == u.userId
    requires Agrees(r, rest, sid)
    ensures Agrees(Updated(r, u), rest + [u], sid)
  {
    assert rest[0] in rest;
    GainsByAppend(rest, u, sid);
    UpdateAgrees(r, rest, rest + [u], u, sid);
  }

  lemma {:induction false} IncrementalAgrees(us: seq<Usage>, sid: string)
    requires us != [] && OneUser(us) && forall u :: u in us ==> InSession(u, sid)
    ensures Agrees(Incremental(us), us, sid)
    decreases |us|
  {
    var rest, u := us[..|us| - 1], us[|us| - 1];
    assert us == rest + [u] && u in us;
    if |us| == 1 {
      assert us == [u];
      FirstArrivalAgrees(u, sid);
    } else {
      assert rest[0] == us[0] && us[0] in us;
      IncrementalAgrees(rest, sid);
      NextArrivalAgrees(Incremental(rest), rest, u, sid);
    }
  }

  lemma MeanAfter(r: SessionRecord, sum: int, u: Usage)
    requires r.requestCount > 0 && r.avgTtftMs == Some(Mean(sum, r.requestCount))
    ensures Updated(r, u).avgTtftMs == Some(Mean(sum + OrZero(u.ttftMs), r.requestCount + 1))
  {
    MeanStep(sum, r.requestCount, OrZero(u.ttftMs));
  }

  /** The step-by-step mean counts a missing time to first token as zero. */
  lemma {:induction false} IncrementalMean(us: seq<Usage>)
    requires us != []
    ensures Incremental(us).avgTtftMs == Some(Mean(MeasureOf(us, Everything).ttftSum, |us|))
    decreases |us|
  {
    var rest, u := us[..|us| - 1], us[|us| - 1];
    if |us| == 1 {
      assert us == [u];
      SingletonRecord(u);
    } else {
      IncrementalMean(rest);
      MeanAfter(Incremental(rest), MeasureOf(rest, Everything).ttftSum, u);
    }
  }

  /** For any arrival order of one user's session rows, the record kept step by step is the record
      rebuilt from the rows sorted by time, up to the mean time to first token. That mean is the same
      exactly when every row has one, or some row has one and they add up to zero: the step-by-step
      mean counts a missing value as zero, the rebuilt one leaves it out. */
  lemma ArrivalOrderDoesNotMatter(us: seq<Usage>, sorted: seq<Usage>, sid: string)
    requires us != [] && OneUser(us) && forall u :: u in us ==> InSession(u, sid)
    requires SortedByTs(sorted) && multiset(sorted) == multiset(us)
    ensures sorted != [] && MeasureOf(sorted, Everything).totals.requestCount > 0
    ensures var step, rebuilt := Incremental(us), RecordOf(sorted, false);
      step.(avgTtftMs := rebuilt.avgTtftMs) == rebuilt
    ensures var step, rebuilt, m := Incremental(us), RecordOf(sorted, false), MeasureOf(us, Everything);
      step.avgTtftMs == rebuilt.avgTtftMs <==>
      m.ttftCount == |us| || (m.ttftCount > 0 && m.ttftSum == 0)
  {
    RebuildOfArrivals(us, sorted, sid);
    IncrementalAgrees(us, sid);
    IncrementalMean(us);
    AgreementDeterminesRecord(Incremental(us), RecordOf(sorted, false), us, sid);
    var m := MeasureOf(us, OfSession(sid));
    MeansEqualIff(m.ttftSum, |us|, m.ttftCount);
  }

  lemma RebuildOfArrivals(us: seq<Usage>, sorted: seq<Usage>, sid: string)
    requires us != [] && OneUser(us) && forall u :: u in us ==> InSession(u, sid)
    requires SortedByTs(sorted) && multiset(sorted) == multiset(us)
    ensures sorted != [] && MeasureOf(sorted, Everything).totals.requestCount > 0
    ensures Agrees(RecordOf(sorted, false), us, sid)
    ensures MeasureOf(sorted, Everything) == MeasureOf(us, Everything) == MeasureOf(us, OfSession(sid))
    ensures 0 <= MeasureOf(us, Everything).ttftCount <= |us|
  {
    PickedAll(us, sid);
    assert us[0] in us;
    forall u ensures u in sorted <==> u in us {
      assert u in sorted <==> u in multiset(sorted);
      assert u in us <==> u in multiset(us);
    }
    RebuildAgrees(sorted, us, sid);
    SameSelection(us, OfSession(sid), Everything);
    RebuildInputSums(sorted, us, sid, OfSession(sid));
    CountsRows(us, OfSession(sid));
  }

  lemma MeansEqualIff(sum: int, n: int, k: int)
    requires 0 <= k <= n && n > 0
    ensures k > 0 ==> (Mean(sum, n) == Mean(sum, k) <==> k == n || sum == 0)
  {
    if k > 0 && Mean(sum, n) == Mean(sum, k) {
      assert Mean(sum, n) * n as real == sum as real;
      assert Mean(sum, k) * k as real == sum as real;
      assert Mean(sum, n) * (n - k) as real == 0.0;
    }
  }

  lemma {:induction false} PickedAll(us: seq<Usage>, sid: string)
    requires forall u :: u in us ==> InSession(u, sid)
    ensures Picked(us, OfSession(sid)) == us
    decreases |us|
  {
    if us != [] {
      var rest, u := us[..|us| - 1], us[|us| - 1];
      assert us == rest + [u] && u in us;
      PickedAll(rest, sid);
      assert Picked(us, OfSession(sid)) == Picked(rest, OfSession(sid)) + [u];
    }
  }

  /** Two rows of a session, the second without a time to first token: kept step by step the mean is half the first
      row's, rebuilt it is the first row's. */
  lemma MissingTtft(u: Usage, v: Usage, sid: string)
    requires InSession(u, sid) && u.ttftMs == Some(10) && v == u.(ttftMs := None)
    ensures RebuildsTo([u, v], 10.0) && Incremental([u, v]).avgTtftMs == Some(5.0)
  {
    var us := [u, v];
    assert us[..1] == [u] && [u][..0] == [];
    assert MeasureOf(us, Everything) == Plus(MeasureOf([u], Everything), RowMeasure(v));
    SingletonRecord(u);
    CountsRows(us, Everything);
    IncrementalMean(us);
  }

  ghost predicate RebuildsTo(us: seq<Usage>, ttft: real) {
    MeasureOf(us, Everything).totals.requestCount > 0 && us != [] && RecordOf(us, false).avgTtftMs == Some(ttft)
  }
}
