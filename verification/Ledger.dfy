/** The usage table and its roll-ups, written together (src/recorder.py, src/database/usage.py,
    src/database/sessions.py). */
module Ledger {
  import opened Basics
  import opened Rates
  import opened Requests
  import opened UsageRows
  import opened Sessions
  import opened Snapshots
  import opened PriceMaps
  import opened Recording

  // ---------------------------------------------------------------- the daily roll-up as a group-by

  /** `usage_daily` is the group-by of the rows: one entry per key that occurs, holding the sums. */
  ghost predicate DailyAgrees(rows: seq<Usage>, daily: map<DailyKey, Totals>) {
    forall k :: EntryAgrees(rows, daily, k)
  }

  predicate EntryAgrees(rows: seq<Usage>, daily: map<DailyKey, Totals>, k: DailyKey) {
    var t := SumOf(rows, OfKey(k));
    (k in daily <==> t.requestCount > 0) && (k in daily ==> daily[k] == t)
  }

  /** The upsert of one row: insert, or add to the row with the same key. */
  function DailyAfter(daily: map<DailyKey, Totals>, u: Usage): map<DailyKey, Totals> {
    var k := KeyOf(u);
    daily[k := if k in daily then Add(daily[k], RowTotals(u)) else RowTotals(u)]
  }

  lemma DailyUpsertAgrees(rows: seq<Usage>, daily: map<DailyKey, Totals>, u: Usage)
    requires DailyAgrees(rows, daily)
    ensures DailyAgrees(rows + [u], DailyAfter(daily, u))
  {
    forall k ensures EntryAgrees(rows + [u], DailyAfter(daily, u), k) {
      assert EntryAgrees(rows, daily, k);
      SumAppend(rows, u, OfKey(k));
      if k == KeyOf(u) {
        KeyedSumGrows(rows, u);
      } else {
        assert Part(OfKey(k), u) == NOTHING;
        PlusNothing(MeasureOf(rows, OfKey(k)));
      }
    }
  }

  lemma KeyedSumGrows(rows: seq<Usage>, u: Usage)
    ensures var s := OfKey(KeyOf(u)); var t := SumOf(rows + [u], s);
      t == Add(SumOf(rows, s), RowTotals(u)) && t.requestCount > 0 &&
      (SumOf(rows, s).requestCount <= 0 ==> t == RowTotals(u))
  {
    var s := OfKey(KeyOf(u));
    SumAppend(rows, u, s);
    CountsRows(rows, s);
    assert RowTotals(u).requestCount == 1;
    if SumOf(rows, s).requestCount <= 0 {
      NoRowsNothing(rows, s);
      PlusNothing(RowMeasure(u));
    }
  }

  /** A change that leaves a row's key and its contribution alone leaves the roll-up in agreement. */
  lemma DailyIgnores(rows: seq<Usage>, daily: map<DailyKey, Totals>, i: nat, v: Usage)
    requires DailyAgrees(rows, daily) && i < |rows|
    requires KeyOf(v) == KeyOf(rows[i]) && RowMeasure(v) == RowMeasure(rows[i])
    ensures DailyAgrees(rows[i := v], daily)
  {
    var after := rows[i := v];
    forall k ensures EntryAgrees(after, daily, k) {
      assert EntryAgrees(rows, daily, k);
      SumReplace(rows, i, v, OfKey(k));
    }
  }

  // ---------------------------------------------------------------- recalculation of the daily row

  /** The daily table has a row exactly for the days, providers, models, clients and users that have requests, and each
      of its columns adds up that column's own field over them. */
  lemma DailyRowsCountTheirRequests(rows: seq<Usage>, daily: map<DailyKey, Totals>, k: DailyKey, c: Column,
                                    m: MoneyColumn)
    requires DailyAgrees(rows, daily)
    ensures k in daily <==> exists u :: u in rows && KeyOf(u) == k
    ensures k in daily ==>
      ColumnOf(daily[k], c) == ColumnSum(rows, OfKey(k), c) && MoneyOf(daily[k], m) == MoneySum(rows, OfKey(k), m)
  {
    assert EntryAgrees(rows, daily, k);
    CountsRows(rows, OfKey(k));
    forall u ensures Selects(OfKey(k), u) == (KeyOf(u) == k) {}
    ColumnsAreSums(rows, OfKey(k), c);
    MoneyIsSummed(rows, OfKey(k), m);
  }

  /** `_usage_daily_match`: a NULL user and an empty user id are matched alike. */
  predicate DailyMatch(k: DailyKey, u: Usage) {
    k.day == DayOf(u.ts) && k.provider == u.provider && k.model == u.model &&
    k.clientSource == OrEmpty(u.clientSource) && OrEmpty(k.userId) == OrEmpty(u.userId)
  }

  function AddCosts(t: Totals, d: Costs): Totals {
    t.(inputCost := t.inputCost + d.input, outputCost := t.outputCost + d.output, totalCost := t.totalCost + d.total)
  }

  function Delta(was: Costs, now: Costs): Costs {
    Costs(now.input - was.input, now.output - was.output, now.total - was.total)
  }

  /** `UPDATE usage_daily SET col = col + delta WHERE match`. */
  function DailyRecosted(daily: map<DailyKey, Totals>, u: Usage, d: Costs): map<DailyKey, Totals> {
    map k | k in daily :: if DailyMatch(k, u) then AddCosts(daily[k], d) else daily[k]
  }

  /** The key the update reaches by mistake when one user id is NULL and the other the empty string. */
  function TwinKey(u: Usage): DailyKey {
    KeyOf(u).(userId := if u.userId.None? then Some("") else None)
  }

  lemma KeyedSumShifts(rows: seq<Usage>, i: nat, v: Usage)
    requires i < |rows| && SameButCosts(rows[i], v)
    ensures forall k :: k != KeyOf(v) ==> SumOf(rows[i := v], OfKey(k)) == SumOf(rows, OfKey(k))
    ensures SumOf(rows[i := v], OfKey(KeyOf(v))) ==
            AddCosts(SumOf(rows, OfKey(KeyOf(v))), Delta(rows[i].costs, v.costs))
  {
    forall k | k != KeyOf(v) ensures SumOf(rows[i := v], OfKey(k)) == SumOf(rows, OfKey(k)) {
      SumReplace(rows, i, v, OfKey(k));
    }
    var s := OfKey(KeyOf(v));
    SumReplace(rows, i, v, s);
    CostShift(MeasureOf(rows, s), MeasureOf(rows[i := v], s), rows[i], v);
  }

  /** A recalculation keeps the daily table in agreement exactly when it has no delta to apply, or the
      NULL user and the empty user id do not both have a daily row for this key. */
  lemma RecalculationKeepsDailyIff(rows: seq<Usage>, daily: map<DailyKey, Totals>, i: nat, v: Usage)
    requires DailyAgrees(rows, daily) && i < |rows| && SameButCosts(rows[i], v)
    ensures DailyAgrees(rows[i := v], DailyRecosted(daily, v, Delta(rows[i].costs, v.costs))) <==>
      rows[i].costs == v.costs || Present(v.userId) || TwinKey(v) !in daily
  {
    var d := Delta(rows[i].costs, v.costs);
    var after, daily' := rows[i := v], DailyRecosted(daily, v, d);
    KeyedSumShifts(rows, i, v);
    if rows[i].costs == v.costs || Present(v.userId) || TwinKey(v) !in daily {
      forall k ensures EntryAgrees(after, daily', k) {
        assert EntryAgrees(rows, daily, k);
        if k in daily && k != KeyOf(v) && DailyMatch(k, v) { assert k == TwinKey(v); }
      }
    } else {
      var k := TwinKey(v);
      assert EntryAgrees(rows, daily, k);
      assert DailyMatch(k, v) && daily'[k] == AddCosts(daily[k], d) != daily[k];
      assert !EntryAgrees(after, daily', k);
    }
  }

  // ---------------------------------------------------------------- session agreement over the table

  ghost predicate SingleUser(rows: seq<Usage>, sid: string) {
    forall u, v :: u in rows && v in rows && InSession(u, sid) && InSession(v, sid) ==> u.userId == v.userId
  }

  /** A session of a single user has a record exactly when it has rows, and the record agrees with them. */
  ghost predicate SessionOk(rows: seq<Usage>, sessions: map<string, SessionRecord>, sid: string) {
    sid != "" && SingleUser(rows, sid) ==>
      (sid in sessions <==> HasRows(rows, sid)) && (sid in sessions ==> Agrees(sessions[sid], rows, sid))
  }

  /** `upsert_session_from_usage`. The session id alone is the primary key: when another user already
      holds it the insert fails and, as in `log_usage`, the failure is swallowed. */
  function SessionsAfter(sessions: map<string, SessionRecord>, u: Usage): (r: map<string, SessionRecord>)
    requires forall sid :: sid in sessions ==> sessions[sid].requestCount > 0
    ensures forall sid :: sid in r ==> r[sid].requestCount > 0
    ensures forall sid :: Some(sid) != u.sessionId ==>
      (sid in r <==> sid in sessions) && (sid in sessions ==> r[sid] == sessions[sid])
  {
    if !Present(u.sessionId) then sessions
    else
      var sid := u.sessionId.value;
      if sid !in sessions then SingletonRecord(u); sessions[sid := RecordOf([u], true)]
      else if sessions[sid].userId == u.userId then sessions[sid := Updated(sessions[sid], u)]
      else sessions
  }

  lemma SessionUpsertOk(rows: seq<Usage>, after: seq<Usage>, sessions: map<string, SessionRecord>, u: Usage,
                        sid: string)
    requires forall s :: s in sessions ==> sessions[s].requestCount > 0
    requires SessionOk(rows, sessions, sid)
    requires sid != "" && InSession(u, sid) && GainsRow(rows, after, u, sid)
    ensures SessionOk(after, SessionsAfter(sessions, u), sid)
  {
    if SingleUser(after, sid) {
      assert u in after && InSession(u, sid);
      assert SingleUser(rows, sid);
      if HasRows(rows, sid) {
        var w :| w in rows && InSession(w, sid);
        assert w in after;
        assert sessions[sid].userId == w.userId == u.userId;
        UpdateAgrees(sessions[sid], rows, after, u, sid);
      } else {
        SingletonRecord(u);
        CreateAgrees(rows, after, u, sid);
      }
    }
  }

  lemma SessionFrameOk(rows: seq<Usage>, after: seq<Usage>, sessions: map<string, SessionRecord>,
                       sessions': map<string, SessionRecord>, sid: string)
    requires SessionOk(rows, sessions, sid) && SameFor(rows, after, sid)
    requires sid in sessions <==> sid in sessions'
    requires sid in sessions ==> sessions'[sid] == sessions[sid]
    ensures SessionOk(after, sessions', sid)
  {
    if sid != "" && SingleUser(after, sid) {
      assert SingleUser(rows, sid);
      assert HasRows(rows, sid) <==> HasRows(after, sid);
      if sid in sessions { AgreesIsFramed(sessions[sid], rows, after, sid); }
    }
  }

  lemma MergeKeepsSessionsOk(rows: seq<Usage>, i: nat, q: Request, sessions: map<string, SessionRecord>, sid: string)
    requires forall s :: s in sessions ==> sessions[s].requestCount > 0
    requires i < |rows| && SessionOk(rows, sessions, sid)
    requires var u, v := rows[i], Merged(rows[i], q); sid !in MovedBy(u, v)
    ensures var u, v := rows[i], Merged(rows[i], q);
      SessionOk(rows[i := v], if Present(u.sessionId) then sessions else SessionsAfter(sessions, v), sid)
  {
    var u, v := rows[i], Merged(rows[i], q);
    var after := rows[i := v];
    if InSession(u, sid) {
      if sid != "" {
        assert v.sessionId == u.sessionId && SameButCosts(u, v);
        TouchOk(rows, i, v, sessions, sid);
      }
    } else if InSession(v, sid) {
      if sid != "" {
        assert !Present(u.sessionId);
        GainsByJoin(rows, i, v, sid);
        SessionUpsertOk(rows, after, sessions, v, sid);
      }
    } else {
      SameByReplace(rows, i, v, sid);
      SessionFrameOk(rows, after, sessions, if Present(u.sessionId) then sessions else SessionsAfter(sessions, v), sid);
    }
  }

  /** A merge keeps every session in agreement exactly when it does not replace a session id that was
      already there: the record of the old session keeps counting a row that left it. */
  lemma MergeKeepsSessionsIff(rows: seq<Usage>, i: nat, q: Request, sessions: map<string, SessionRecord>)
    requires forall s :: s in sessions ==> sessions[s].requestCount > 0
    requires i < |rows| && forall sid :: SessionOk(rows, sessions, sid)
    requires Present(rows[i].sessionId) ==> SingleUser(rows, rows[i].sessionId.value)
    ensures var u, v := rows[i], Merged(rows[i], q); var after := rows[i := v];
      var sessions' := if Present(u.sessionId) then sessions else SessionsAfter(sessions, v);
      (forall sid :: SessionOk(after, sessions', sid)) <==> !(Present(u.sessionId) && v.sessionId != u.sessionId)
  {
    var u, v := rows[i], Merged(rows[i], q);
    var after := rows[i := v];
    var sessions' := if Present(u.sessionId) then sessions else SessionsAfter(sessions, v);
    if Present(u.sessionId) && v.sessionId != u.sessionId {
      MovedRowIsMissed(rows, i, v, sessions);
    } else {
      forall sid ensures SessionOk(after, sessions', sid) { MergeKeepsSessionsOk(rows, i, q, sessions, sid); }
    }
  }

  lemma MovedRowIsMissed(rows: seq<Usage>, i: nat, v: Usage, sessions: map<string, SessionRecord>)
    requires i < |rows| && Present(rows[i].sessionId) && v.sessionId != rows[i].sessionId
    requires SingleUser(rows, rows[i].sessionId.value) && SessionOk(rows, sessions, rows[i].sessionId.value)
    ensures !SessionOk(rows[i := v], sessions, rows[i].sessionId.value)
  {
    var sid, after := rows[i].sessionId.value, rows[i := v];
    assert rows[i] in rows && InSession(rows[i], sid);
    assert SingleUser(after, sid) by {
      forall w | w in after && InSession(w, sid) ensures w in rows { MembersAfterReplace(rows, i, v, w); }
    }
    SumReplace(rows, i, v, OfSession(sid));
    NoPart(OfSession(sid), v, sid);
    PlusNothing(MeasureOf(rows, OfSession(sid)));
    assert SumOf(after, OfSession(sid)).requestCount == SumOf(rows, OfSession(sid)).requestCount - 1;
  }

  /** A session belongs to the user whose row opened it: rows of anyone else change no session record. */
  lemma SessionsStayWithTheirUser(sessions: map<string, SessionRecord>, u: Usage, sid: string, delta: real)
    requires forall s :: s in sessions ==> sessions[s].requestCount > 0
    requires sid in sessions && (u.sessionId != Some(sid) || sessions[sid].userId != u.userId)
    ensures sid in SessionsAfter(sessions, u) && SessionsAfter(sessions, u)[sid] == sessions[sid]
    ensures SessionsRecosted(sessions, u, delta)[sid] == sessions[sid]
  {
  }

  /** A call of 10 prompt tokens, as the proxy sees it once a first OTLP report has given it session "a", and a second
      report of it that names session "b". */
  const REPORTED_IN_A := Usage(
    Some("u"), 0, "openai", "m", Some("codex"), Some("a"), "/v1/responses", Tokens(Some(10), None, None, None), 0,
    None, None, Some(10), None, None, Costs(0.0, 0.0, 0.0), Some(200), None, None)

  const REPORTED_IN_B := Request(
    0, "openai", "m", Some("u"), Some("codex"), Some("b"), "otlp", Tokens(Some(10), None, None, None), None,
    None, None, Some(10), None, None, Some(200), None)

  lemma SecondReportIsDuplicate()
    ensures ClosestDuplicate([REPORTED_IN_A], REPORTED_IN_B, 0)
    ensures Merged(REPORTED_IN_A, REPORTED_IN_B).sessionId == Some("b")
  {
    assert Duplicates(REPORTED_IN_A, REPORTED_IN_B);
  }

  lemma FirstRowOk(u: Usage, sid: string)
    ensures SessionOk([u], SessionsAfter(map[], u), sid)
  {
    assert SessionOk([], map[], sid);
    InsertKeepsSessionsOk([], u, map[], sid);
    assert [] + [u] == [u];
  }

  lemma OnlyRowLeaves(u: Usage, v: Usage, sid: string)
    requires sid != "" && u.sessionId == Some(sid) && v.sessionId != Some(sid)
    ensures !SessionOk([u][0 := v], SessionsAfter(map[], u), sid)
  {
    FirstRowOk(u, sid);
    assert [u][0] == u && SingleUser([u], sid);
    MovedRowIsMissed([u], 0, v, SessionsAfter(map[], u));
  }

  /** Merging the second report leaves session "a" with a record of a row it no longer has. */
  lemma MovedSession()
    ensures var u, q := REPORTED_IN_A, REPORTED_IN_B;
      ClosestDuplicate([u], q, 0) && (forall sid :: SessionOk([u], SessionsAfter(map[], u), sid)) &&
      !SessionOk([u][0 := Merged(u, q)], SessionsAfter(map[], u), "a")
  {
    var u, q := REPORTED_IN_A, REPORTED_IN_B;
    SecondReportIsDuplicate();
    forall sid ensures SessionOk([u], SessionsAfter(map[], u), sid) { FirstRowOk(u, sid); }
    assert "a"[0] != "b"[0];
    OnlyRowLeaves(u, Merged(u, q), "a");
  }

  /** Changing nothing a session record shows (here only the client address) keeps it in agreement. */
  lemma TouchOk(rows: seq<Usage>, i: nat, v: Usage, sessions: map<string, SessionRecord>, sid: string)
    requires i < |rows| && SessionOk(rows, sessions, sid)
    requires sid != "" && InSession(rows[i], sid) && SameButCosts(rows[i], v) && rows[i].costs == v.costs
    ensures SessionOk(rows[i := v], sessions, sid)
  {
    var after := rows[i := v];
    if SingleUser(after, sid) {
      ReplaceKeepsUsers(rows, i, v, sid);
      assert rows[i] in rows && after[i] in after;
      RepriceAgrees(sessions[sid], rows, i, v, sid);
      ZeroDelta(sessions[sid], rows, i, sid);
    }
  }

  lemma ReplaceKeepsUsers(rows: seq<Usage>, i: nat, v: Usage, sid: string)
    requires i < |rows| && InSession(rows[i], sid) && InSession(v, sid) && rows[i].userId == v.userId
    ensures SingleUser(rows, sid) <==> SingleUser(rows[i := v], sid)
    ensures HasRows(rows, sid) && HasRows(rows[i := v], sid)
  {
    var after := rows[i := v];
    assert rows[i] in rows && after[i] in after;
    if SingleUser(after, sid) {
      forall w | w in rows && InSession(w, sid) ensures w.userId == v.userId { MembersAfterReplace(rows, i, v, w); }
    }
    if SingleUser(rows, sid) {
      forall w | w in after && InSession(w, sid) ensures w.userId == v.userId { MembersAfterReplace(rows, i, v, w); }
    }
  }

  /** The session write of `recalculate_usage_cost`: skipped without a session, for a zero delta, or when
      the record belongs to another user. */
  function SessionsRecosted(sessions: map<string, SessionRecord>, u: Usage, delta: real)
    : (r: map<string, SessionRecord>)
    ensures forall sid :: sid in r <==> sid in sessions
    ensures forall sid :: sid in sessions ==> r[sid].requestCount == sessions[sid].requestCount
  {
    if Present(u.sessionId) && delta != 0.0 && u.sessionId.value in sessions &&
       sessions[u.sessionId.value].userId == u.userId
    then sessions[u.sessionId.value := Repriced(sessions[u.sessionId.value], u, delta)]
    else sessions
  }

  lemma RecalculationKeepsSessionsOk(rows: seq<Usage>, i: nat, v: Usage, sessions: map<string, SessionRecord>,
                                     sid: string)
    requires i < |rows| && SessionOk(rows, sessions, sid) && SameButCosts(rows[i], v)
    ensures SessionOk(rows[i := v], SessionsRecosted(sessions, v, v.costs.total - rows[i].costs.total), sid)
  {
    var after, delta := rows[i := v], v.costs.total - rows[i].costs.total;
    if InSession(v, sid) {
      if sid != "" && SingleUser(after, sid) {
        ReplaceKeepsUsers(rows, i, v, sid);
        assert rows[i] in rows;
        assert sessions[sid].userId == v.userId;
        RepriceAgrees(sessions[sid], rows, i, v, sid);
        ZeroDelta(sessions[sid], rows, i, sid);
      }
    } else {
      SameByReplace(rows, i, v, sid);
      SessionFrameOk(rows, after, sessions, SessionsRecosted(sessions, v, delta), sid);
    }
  }

  // ---------------------------------------------------------------- the rebuild query

  function InsertByTime(us: seq<Usage>, u: Usage): seq<Usage> {
    if us == [] || us[|us| - 1].ts <= u.ts then us + [u]
    else InsertByTime(us[..|us| - 1], u) + [us[|us| - 1]]
  }

  /** The rows that have a session, in time order. */
  function SessionRowsByTime(rows: seq<Usage>): seq<Usage> {
    if rows == [] then []
    else
      var u := rows[|rows| - 1];
      var rest := SessionRowsByTime(rows[..|rows| - 1]);
      if Present(u.sessionId) then InsertByTime(rest, u) else rest
  }

  lemma {:induction false} InsertKeepsRows(us: seq<Usage>, u: Usage)
    ensures multiset(InsertByTime(us, u)) == multiset(us) + multiset{u}
    decreases |us|
  {
    if us != [] && us[|us| - 1].ts > u.ts {
      InsertKeepsRows(us[..|us| - 1], u);
      assert us == us[..|us| - 1] + [us[|us| - 1]];
    }
  }

  lemma {:induction false} InsertSorts(us: seq<Usage>, u: Usage)
    requires SortedByTs(us)
    ensures SortedByTs(InsertByTime(us, u))
    ensures forall w :: w in InsertByTime(us, u) ==> w in us || w == u
    decreases |us|
  {
    if us != [] && us[|us| - 1].ts > u.ts {
      var rest, last := us[..|us| - 1], us[|us| - 1];
      InsertSorts(rest, u);
      var r := InsertByTime(rest, u);
      forall k | 0 <= k < |r| ensures r[k].ts <= last.ts {
        assert r[k] in r;
      }
    }
  }

  lemma {:induction false} PickedCounts(rows: seq<Usage>, s: Selection, u: Usage)
    ensures multiset(Picked(rows, s))[u] == if Selects(s, u) then multiset(rows)[u] else 0
    decreases |rows|
  {
    if rows != [] {
      var rest, last := rows[..|rows| - 1], rows[|rows| - 1];
      PickedCounts(rest, s, u);
      assert rows == rest + [last];
      assert multiset(rows) == multiset(rest) + multiset{last};
      if Selects(s, last) {
        assert multiset(Picked(rows, s)) == multiset(Picked(rest, s)) + multiset{last};
      } else {
        assert Picked(rows, s) == Picked(rest, s);
      }
    }
  }

  lemma {:induction false} RowsByTimeAreSorted(rows: seq<Usage>)
    ensures SortedByTs(SessionRowsByTime(rows))
    decreases |rows|
  {
    if rows != [] {
      RowsByTimeAreSorted(rows[..|rows| - 1]);
      InsertSorts(SessionRowsByTime(rows[..|rows| - 1]), rows[|rows| - 1]);
    }
  }

  lemma {:induction false} RowsByTimeCount(rows: seq<Usage>, u: Usage)
    ensures multiset(SessionRowsByTime(rows))[u] == if Present(u.sessionId) then multiset(rows)[u] else 0
    decreases |rows|
  {
    if rows != [] {
      var rest, last := rows[..|rows| - 1], rows[|rows| - 1];
      RowsByTimeCount(rest, u);
      InsertKeepsRows(SessionRowsByTime(rest), last);
      assert rows == rest + [last];
      assert multiset(rows) == multiset(rest) + multiset{last};
    }
  }

  lemma {:induction false} PickedStaysSorted(us: seq<Usage>, s: Selection)
    requires SortedByTs(us)
    ensures SortedByTs(Picked(us, s))
    decreases |us|
  {
    if us != [] {
      var rest, u := us[..|us| - 1], us[|us| - 1];
      PickedStaysSorted(rest, s);
      forall w | w in rest ensures w.ts <= u.ts {
        var j :| 0 <= j < |rest| && rest[j] == w;
        assert us[j] == w;
      }
    }
  }

  /** Grouping the query's rows by session hands each session its rebuild input. */
  lemma GroupIsRebuildInput(rows: seq<Usage>, sid: string)
    requires sid != ""
    ensures IsRebuildInput(Picked(SessionRowsByTime(rows), OfSession(sid)), rows, sid)
  {
    var q := SessionRowsByTime(rows);
    RowsByTimeAreSorted(rows);
    PickedStaysSorted(q, OfSession(sid));
    forall u ensures multiset(Picked(q, OfSession(sid)))[u] == multiset(Picked(rows, OfSession(sid)))[u] {
      RowsByTimeCount(rows, u);
      PickedCounts(q, OfSession(sid), u);
      PickedCounts(rows, OfSession(sid), u);
    }
  }

  lemma PickedGrows(query: seq<Usage>, n: nat, s: Selection)
    requires n < |query|
    ensures Picked(query[..n + 1], s) == Picked(query[..n], s) + (if Selects(s, query[n]) then [query[n]] else [])
  {
    assert query[..n + 1][..n] == query[..n] && query[..n + 1][n] == query[n];
  }

  predicate GroupIs(grouped: map<string, seq<Usage>>, us: seq<Usage>, sid: string) {
    if sid in grouped then grouped[sid] == Picked(us, OfSession(sid)) && grouped[sid] != []
    else Picked(us, OfSession(sid)) == []
  }

  lemma GroupStep(grouped: map<string, seq<Usage>>, query: seq<Usage>, n: nat, sid: string)
    requires n < |query| && query[n].sessionId.Some? && GroupIs(grouped, query[..n], sid)
    ensures var key := query[n].sessionId.value;
      var group := (if key in grouped then grouped[key] else []) + [query[n]];
      GroupIs(grouped[key := group], query[..n + 1], sid)
  {
    PickedGrows(query, n, OfSession(sid));
    assert Selects(OfSession(sid), query[n]) <==> sid == query[n].sessionId.value;
  }

  /** The grouping loop: the rows of each session, in query order. */
  method GroupBySession(query: seq<Usage>) returns (grouped: map<string, seq<Usage>>)
    requires forall u :: u in query ==> Present(u.sessionId)
    ensures forall sid :: GroupIs(grouped, query, sid)
    ensures "" !in grouped
  {
    grouped := map[];
    for n := 0 to |query|
      invariant forall sid :: GroupIs(grouped, query[..n], sid)
      invariant "" !in grouped
    {
      assert query[n] in query;
      var key := query[n].sessionId.value;
      var after := grouped[key := (if key in grouped then grouped[key] else []) + [query[n]]];
      ghost var prefix := query[..n + 1];
      forall sid ensures GroupIs(after, prefix, sid) { GroupStep(grouped, query, n, sid); }
      grouped := after;
    }
    assert query[..|query|] == query;
  }

  /** `rebuild_sessions_from_usage`: group the sorted rows by session id alone, then one record per group. */
  method RebuildSessions(rows: seq<Usage>) returns (sessions: map<string, SessionRecord>)
    ensures forall sid :: sid in sessions ==> sessions[sid].requestCount > 0
    ensures forall sid :: SessionOk(rows, sessions, sid)
    ensures "" !in sessions
  {
    var query := SessionRowsByTime(rows);
    QueryMembers(rows);
    var grouped := GroupBySession(query);
    sessions := map[];
    var todo := grouped.Keys;
    while todo != {}
      invariant todo <= grouped.Keys
      invariant sessions.Keys == grouped.Keys - todo
      invariant forall sid :: sid in sessions ==> sessions[sid].requestCount > 0
      invariant forall sid :: sid in sessions && SingleUser(rows, sid) ==> Agrees(sessions[sid], rows, sid)
    {
      var sid :| sid in todo;
      assert GroupIs(grouped, query, sid);
      GroupIsRebuildInput(rows, sid);
      GroupHasCount(rows, grouped[sid], sid);
      sessions := sessions[sid := RecordOf(grouped[sid], false)];
      todo := todo - {sid};
    }
    forall sid | sid != "" ensures sid in sessions <==> HasRows(rows, sid) {
      assert GroupIs(grouped, query, sid);
      GroupsAreSessions(rows, sid);
    }
  }

  lemma QueryMembers(rows: seq<Usage>)
    ensures forall u :: u in SessionRowsByTime(rows) ==> Present(u.sessionId)
  {
    forall u | u in SessionRowsByTime(rows) ensures Present(u.sessionId) {
      RowsByTimeCount(rows, u);
      assert u in multiset(SessionRowsByTime(rows));
    }
  }

  lemma GroupsAreSessions(rows: seq<Usage>, sid: string)
    requires sid != ""
    ensures Picked(SessionRowsByTime(rows), OfSession(sid)) != [] <==> HasRows(rows, sid)
  {
    var us := Picked(SessionRowsByTime(rows), OfSession(sid));
    GroupIsRebuildInput(rows, sid);
    RebuildInputSums(us, rows, sid, OfSession(sid));
    if us != [] { assert us[0] in us; }
  }

  lemma GroupHasCount(rows: seq<Usage>, us: seq<Usage>, sid: string)
    requires IsRebuildInput(us, rows, sid) && us != []
    ensures MeasureOf(us, Everything).totals.requestCount > 0
    ensures RecordOf(us, false).requestCount > 0
    ensures SingleUser(rows, sid) ==> Agrees(RecordOf(us, false), rows, sid)
  {
    RebuildInputSums(us, rows, sid, OfSession(sid));
    assert us[0] in us;
    SessionHasCount(rows, sid);
    if SingleUser(rows, sid) {
      RebuildAgrees(us, rows, sid);
    }
  }

  // ---------------------------------------------------------------- the tables

  datatype Recalculation =
    | NotFound
    | Unpriced
    | Recosted(old_: Costs, new_: Costs, snapshotId: Option<nat>)

  class Tables {
    var rows: seq<Usage>
    var daily: map<DailyKey, Totals>
    var sessions: map<string, SessionRecord>
    var snapshots: seq<Snapshot>
    /** Sessions that lost or gained a row through a merge that replaced a session id. */
    ghost var moved: set<string>

    /** What holds between any two operations. */
    ghost predicate Valid()
      reads this
    {
      DailyAgrees(rows, daily) &&
      (forall sid :: sid !in moved ==> SessionOk(rows, sessions, sid)) &&
      (forall sid :: sid in sessions ==> sessions[sid].requestCount > 0) &&
      Distinct(snapshots) &&
      (forall u :: u in rows ==> Replays(u, snapshots)) &&
      (forall u :: u in rows ==> u.userId != Some(""))
    }

    constructor ()
      ensures Valid()
      ensures rows == [] && daily == map[] && sessions == map[] && snapshots == [] && moved == {}
    {
      rows, daily, sessions, snapshots, moved := [], map[], map[], [], {};
    }

    /** `log_usage`: insert the row, then both roll-ups. */
    method LogUsage(u: Usage)
      requires Valid() && u.userId != Some("") && Replays(u, snapshots)
      modifies this`rows, this`daily, this`sessions
      ensures Valid()
      ensures rows == old(rows) + [u]
      ensures daily == DailyAfter(old(daily), u) && sessions == SessionsAfter(old(sessions), u)
    {
      rows := rows + [u];
      daily := DailyAfter(daily, u);
      sessions := SessionsAfter(sessions, u);
      DailyUpsertAgrees(old(rows), old(daily), u);
      forall sid | sid !in moved ensures SessionOk(rows, sessions, sid) {
        InsertKeepsSessionsOk(old(rows), u, old(sessions), sid);
      }
    }

    /** `record_usage`. */
    method RecordUsage(q: Request, pricing: Pricing) returns (id: Option<nat>)
      requires Valid() && q.userId != Some("")
      modifies this
      ensures Valid()
      ensures Skipped(q) <==> id.None?
      ensures id.None? ==> rows == old(rows) && daily == old(daily) && sessions == old(sessions)
      ensures id.None? ==> snapshots == old(snapshots) && moved == old(moved)
      ensures id.Some? && (exists u :: u in old(rows) && Duplicates(u, q)) ==>
        ClosestDuplicate(old(rows), q, id.value) && snapshots == old(snapshots) &&
        rows == old(rows)[id.value := Merged(old(rows)[id.value], q)] &&
        moved == old(moved) + MovedBy(old(rows)[id.value], rows[id.value])
      ensures id.Some? && (forall u :: u in old(rows) ==> !Duplicates(u, q)) ==>
        id.value == |old(rows)| && moved == old(moved) && old(snapshots) <= snapshots &&
        exists sid: Option<nat> ::
          (sid.Some? <==> pricing.snapshotWrites && MatchOf(pricing.costs, q.model).Some?) &&
          rows == old(rows) + [RowFor(q, ResolvePricing(pricing.costs, q.model, q.ts).cost, sid)]
      ensures IsRecording(q, old(rows), rows, id)
      ensures id.Some? && id.value == |old(rows)| ==>
        IsSnapshotFor(snapshots, rows[id.value].snapshotId, rows[id.value], pricing.costs)
    {
      if Skipped(q) {
        SkippedSays(q, rows);
        return None;
      }
      id := FindDuplicate(rows, q);
      if id.Some? {
        MergeInto(id.value, q);
        MergedSays(q, old(rows), id.value);
        return;
      }
      var resolved := ResolvePricing(pricing.costs, q.model, q.ts);
      var sid := RecordSnapshot(resolved, q.model, q.ts, pricing.snapshotWrites);
      id := Some(|rows|);
      LogUsage(RowFor(q, resolved.cost, sid));
      InsertedSays(q, old(rows), resolved.cost, sid);
    }

    /** `_record_price_snapshot`, also the rebinding step of a recalculation. */
    method RecordSnapshot(resolved: Resolved, model: string, ts: int, writes: bool) returns (sid: Option<nat>)
      requires Valid() && resolved.cost.timeRates == []
      modifies this`snapshots
      ensures Valid() && old(snapshots) <= snapshots
      ensures sid.Some? <==> writes && resolved.match_.Some?
      ensures sid.Some? ==>
        sid.value < |snapshots| && snapshots[sid.value] ==
          Snapshot(DayOf(ts), model, resolved.match_.value.source, SerializeRates(resolved.cost))
      ensures snapshots == old(snapshots) || (sid.Some? && sid.value == |old(snapshots)| == |snapshots| - 1)
    {
      if !writes || resolved.match_.None? {
        return None;
      }
      var after, id := EnsureSnapshot(
        snapshots, Snapshot(DayOf(ts), model, resolved.match_.value.source, SerializeRates(resolved.cost)));
      forall u | u in rows ensures Replays(u, after) { assert Replays(u, snapshots); }
      snapshots := after;
      sid := Some(id);
    }

    /** The enriching branch of `merge_duplicate_usage`. */
    method MergeInto(i: nat, q: Request)
      requires Valid() && i < |rows|
      modifies this`rows, this`sessions, this`moved
      ensures Valid()
      ensures rows == old(rows)[i := Merged(old(rows)[i], q)]
      ensures moved == old(moved) + MovedBy(old(rows)[i], rows[i])
      ensures !Present(old(rows)[i].sessionId) && Present(rows[i].sessionId) ==>
        sessions == SessionsAfter(old(sessions), rows[i])
      ensures Present(old(rows)[i].sessionId) || !Present(rows[i].sessionId) ==> sessions == old(sessions)
    {
      var u, v := rows[i], Merged(rows[i], q);
      rows := rows[i := v];
      if !Present(u.sessionId) && Present(v.sessionId) {
        sessions := SessionsAfter(sessions, v);
      }
      moved := moved + MovedBy(u, v);
      DailyIgnores(old(rows), daily, i, v);
      forall sid | sid !in moved ensures SessionOk(rows, sessions, sid) {
        MergeKeepsSessionsOk(old(rows), i, q, old(sessions), sid);
      }
      forall w | w in rows ensures Replays(w, snapshots) && w.userId != Some("") {
        MembersAfterReplace(old(rows), i, v, w);
        assert u in old(rows) && Replays(u, snapshots);
      }
    }

    /** `recalculate_usage_cost`: one transaction over the row and both roll-ups. A `scope` restricts it
        to one user's rows. */
    method Recalculate(id: nat, scope: Option<string>, pricing: Pricing) returns (r: Recalculation)
      requires Valid()
      modifies this`rows, this`daily, this`sessions, this`snapshots
      ensures Valid() && old(snapshots) <= snapshots
      ensures r.NotFound? <==> id >= |old(rows)| || (scope.Some? && old(rows)[id].userId != scope)
      ensures r.Unpriced? <==> !r.NotFound? && MatchOf(pricing.costs, old(rows)[id].model).None?
      ensures !r.Recosted? ==>
        rows == old(rows) && daily == old(daily) && sessions == old(sessions) && snapshots == old(snapshots)
      ensures r.Recosted? ==>
        var u := old(rows)[id];
        r.old_ == u.costs && (r.snapshotId.Some? <==> pricing.snapshotWrites) &&
        r.new_ == CalculateCosts(u.tokens, ResolvePricing(pricing.costs, u.model, u.ts).cost) &&
        rows == old(rows)[id := u.(costs := r.new_, snapshotId := r.snapshotId)] &&
        IsSnapshotFor(snapshots, r.snapshotId, u, pricing.costs) &&
        daily == DailyRecosted(old(daily), u, Delta(u.costs, r.new_)) &&
        sessions == SessionsRecosted(old(sessions), u, r.new_.total - u.costs.total)
    {
      if id >= |rows| || (scope.Some? && rows[id].userId != scope) {
        return NotFound;
      }
      var u := rows[id];
      var resolved := ResolvePricing(pricing.costs, u.model, u.ts);
      if resolved.match_.None? {
        return Unpriced;
      }
      var now := CalculateCosts(u.tokens, resolved.cost);
      var sid := RecordSnapshot(resolved, u.model, u.ts, pricing.snapshotWrites);
      ApplyCosts(id, u.(costs := now, snapshotId := sid), resolved);
      r := Recosted(u.costs, now, sid);
    }

    /** One turn of the bulk loop: a failed lookup or a failed snapshot write does not count as repriced. */
    method RepriceOne(id: nat, pricing: Pricing) returns (bound: bool)
      requires Valid() && id < |rows| && rows[id].snapshotId.None?
      modifies this`rows, this`daily, this`sessions, this`snapshots
      ensures Valid() && old(snapshots) <= snapshots
      ensures |rows| == |old(rows)| && SameButCosts(old(rows)[id], rows[id])
      ensures forall j :: 0 <= j < |rows| && j != id ==> rows[j] == old(rows)[j]
      ensures bound <==> rows[id].snapshotId.Some?
      ensures IsRepricing(old(rows)[id], rows[id], pricing.costs, pricing.snapshotWrites)
    {
      var r := Recalculate(id, None, pricing);
      bound := r.Recosted? && r.snapshotId.Some?;
    }

    /** `reprice_estimated_rows`: recalculates the unbound rows of a window until `limit` of them are
        bound. `writes[k]` says whether the k-th snapshot write succeeds. Rows already bound are never
        touched, and the reported numbers add up. */
    method RepriceEstimated(w: Window, limit: Option<int>, costs: Dict, writes: seq<bool>)
      returns (ids: seq<nat>, candidates: nat, repriced: nat, skipped: nat)
      requires Valid()
      modifies this`rows, this`daily, this`sessions, this`snapshots
      ensures Valid() && old(snapshots) <= snapshots
      ensures EstimatedIds(old(rows), w, ids)
      ensures candidates == repriced + skipped && candidates <= |ids|
      ensures OnlyRepriced(old(rows), rows, ids[..candidates])
      ensures repriced == BoundCount(rows, ids[..candidates])
      ensures AreRepriced(old(rows), rows, ids[..candidates], costs, writes)
      ensures limit.Some? && limit.value >= 0 ==> repriced <= limit.value
      ensures candidates < |ids| ==> limit.Some? && repriced >= limit.value
    {
      ids := FetchEstimatedIds(rows, w);
      candidates, repriced, skipped := 0, 0, 0;
      while candidates < |ids| && !(limit.Some? && repriced >= limit.value)
        invariant Valid() && old(snapshots) <= snapshots
        invariant candidates <= |ids| && IsRepriced(old(rows), rows, ids[..candidates], repriced, costs, writes)
        invariant candidates == repriced + skipped
        invariant limit.Some? && limit.value >= 0 ==> repriced <= limit.value
      {
        var id := ids[candidates];
        ghost var was := rows;
        NotYetRepriced(old(rows), was, w, ids, candidates);
        var bound := RepriceOne(id, Pricing(costs, candidates < |writes| && writes[candidates]));
        OneMoreCounted(old(rows), was, rows, ids, candidates, repriced, costs, writes);
        if bound {
          repriced := repriced + 1;
        } else {
          skipped := skipped + 1;
        }
        candidates := candidates + 1;
      }
    }

    /** `rebuild_sessions_from_usage` on the stored rows: afterwards every single-user session agrees again,
        also those a merge had moved. */
    method Rebuild()
      requires Valid()
      modifies this`sessions, this`moved
      ensures Valid() && moved == {}
    {
      sessions := RebuildSessions(rows);
      moved := {};
    }

    /** Any run of operations, in any order and with any prices, stays in agreement; rows are never
        dropped, and their token counts, users and times never change. `history` are the rows before the
        first operation and after each. The sessions exempt from agreement are exactly those a row changed
        its session id in, since the last rebuild. */
    method Run(ops: seq<Operation>) returns (ghost history: seq<seq<Usage>>)
      requires Valid() && UsersNamed(ops)
      modifies this
      ensures Valid()
      ensures old(snapshots) <= snapshots
      ensures AllKept(old(rows), rows)
      ensures IsHistory(ops, history) && history[0] == old(rows) && history[|ops|] == rows
      ensures forall n :: 0 <= n < |ops| ==> IsOperation(ops[n], history[n], history[n + 1])
      ensures moved == MovedIn(old(moved), ops, history)
    {
      history := [rows];
      for n := 0 to |ops|
        invariant Valid()
        invariant old(snapshots) <= snapshots
        invariant AllKept(old(rows), rows)
        invariant IsHistory(ops[..n], history) && history[0] == old(rows) && history[n] == rows
        invariant forall k :: 0 <= k < n ==> IsOperation(ops[k], history[k], history[k + 1])
        invariant moved == MovedIn(old(moved), ops[..n], history)
      {
        ghost var was, wasMoved := rows, moved;
        assert ops[n] in ops;
        Do(ops[n]);
        AllKeptIsTransitive(old(rows), was, rows);
        HistoryGrows(ops, n, history, rows, old(moved));
        history := history + [rows];
      }
      assert ops[..|ops|] == ops;
    }

    method DoRecord(q: Request, pricing: Pricing)
      requires Valid() && q.userId != Some("")
      modifies this
      ensures Valid() && old(snapshots) <= snapshots
      ensures AllKept(old(rows), rows) && IsRecorded(q, old(rows), rows)
      ensures IsPricedRecording(q, pricing, old(rows), rows)
      ensures moved == old(moved) + MovedBetween(old(rows), rows)
    {
      var id := RecordUsage(q, pricing);
      if id.Some? && exists u :: u in old(rows) && Duplicates(u, q) {
        OneRowMoves(old(rows), id.value, rows[id.value]);
      } else {
        NoRowMoves(old(rows), rows);
      }
    }

    /** One operation of a run. */
    method Do(op: Operation)
      requires Valid() && (op.Record? ==> op.request.userId != Some(""))
      modifies this
      ensures Valid()
      ensures old(snapshots) <= snapshots
      ensures AllKept(old(rows), rows) && IsRowStep(op, old(rows), rows) && IsOperation(op, old(rows), rows)
      ensures moved == MovedAfter(old(moved), op, old(rows), rows)
    {
      match op
      case Record(q, pricing) =>
        DoRecord(q, pricing);
      case Recalc(id, scope, pricing) =>
        var _ := Recalculate(id, scope, pricing);
        NoRowMoves(old(rows), rows);
      case RepriceAll(window, limit, costs, writes) =>
        var ids, candidates, _, _ := RepriceEstimated(window, limit, costs, writes);
        RepricedStep(old(rows), rows, ids[..candidates]);
        assert IsBulkRepricing(window, limit, costs, writes, old(rows), rows, ids, candidates);
      case RebuildAll =>
        Rebuild();
    }

    /** A run on new tables. If its requests name sessions consistently, every session of a single user ends in
        agreement with the rows; and whatever they name, every session that no row was moved from or to does. */
    static method RunFromScratch(ops: seq<Operation>) returns (t: Tables, ghost history: seq<seq<Usage>>)
      requires UsersNamed(ops)
      ensures fresh(t) && t.Valid()
      ensures IsHistory(ops, history) && history[0] == [] && history[|ops|] == t.rows
      ensures forall sid :: sid !in MovedIn({}, ops, history) ==> SessionOk(t.rows, t.sessions, sid)
      ensures ConsistentSessions(ops) ==> forall sid :: SessionOk(t.rows, t.sessions, sid)
    {
      t := new Tables();
      history := t.Run(ops);
      if ConsistentSessions(ops) { ConsistentSessionsStayPut(ops, history); }
    }

    /** The three writes of a recalculation: daily row, session record, usage row. */
    method ApplyCosts(id: nat, v: Usage, resolved: Resolved)
      requires Valid() && id < |rows| && SameButCosts(rows[id], v) && resolved.match_.Some?
      requires v.costs == CalculateCosts(v.tokens, resolved.cost)
      requires v.snapshotId.Some? ==> PricedBy(v, resolved, snapshots)
      modifies this`rows, this`daily, this`sessions
      ensures Valid()
      ensures rows == old(rows)[id := v]
      ensures daily == DailyRecosted(old(daily), old(rows)[id], Delta(old(rows)[id].costs, v.costs))
      ensures sessions == SessionsRecosted(old(sessions), old(rows)[id], v.costs.total - old(rows)[id].costs.total)
    {
      var u := rows[id];
      var delta := Delta(u.costs, v.costs);
      daily := DailyRecosted(daily, u, delta);
      sessions := SessionsRecosted(sessions, v, delta.total);
      SessionsRecostedAlike(old(sessions), u, v, delta.total);
      rows := rows[id := v];
      RecalculationKeepsRows(old(rows), id, v, resolved, snapshots);
      RecalculationKeepsDaily(old(rows), old(daily), id, v);
      forall s | s !in moved ensures SessionOk(rows, sessions, s) {
        RecalculationKeepsSessionsOk(old(rows), id, v, old(sessions), s);
      }
    }
  }

  lemma SessionsRecostedAlike(sessions: map<string, SessionRecord>, u: Usage, v: Usage, delta: real)
    requires SameButCosts(u, v)
    ensures SessionsRecosted(sessions, u, delta) == SessionsRecosted(sessions, v, delta)
  {
  }

  predicate ListsRows(ids: seq<nat>, count: nat) {
    forall k :: 0 <= k < |ids| ==> ids[k] < count
  }

  /** What recording does to the rows, a new one being charged at the price of its model and time. */
  ghost predicate IsPricedRecording(q: Request, pricing: Pricing, was: seq<Usage>, now: seq<Usage>) {
    (exists id :: IsRecording(q, was, now, id)) &&
    (|now| > |was| ==>
      now[|was|].costs == CalculateCosts(q.tokens, ResolvePricing(pricing.costs, q.model, q.ts).cost))
  }

  /** The first `n` listed rows of the window were repriced, all of them unless so many are bound that the limit is
      reached. */
  ghost predicate IsBulkRepricing(w: Window, limit: Option<int>, costs: Dict, writes: seq<bool>, was: seq<Usage>,
                                  now: seq<Usage>, ids: seq<nat>, n: nat) {
    n <= |ids| && EstimatedIds(was, w, ids) && OnlyRepriced(was, now, ids[..n]) && ListsRows(ids, |now|) &&
    AreRepriced(was, now, ids[..n], costs, writes) &&
    (n < |ids| ==> limit.Some? && BoundCount(now, ids[..n]) >= limit.value)
  }

  /** What an operation does to the rows. */
  ghost predicate IsOperation(op: Operation, was: seq<Usage>, now: seq<Usage>) {
    match op
    case Record(q, pricing) => IsPricedRecording(q, pricing, was, now)
    case Recalc(id, scope, pricing) =>
      if id < |was| && (scope == None || scope == was[id].userId) then
        |now| == |was| && now == was[id := now[id]] &&
        IsRepricing(was[id], now[id], pricing.costs, pricing.snapshotWrites)
      else now == was
    case RepriceAll(w, limit, costs, writes) =>
      exists ids, n :: IsBulkRepricing(w, limit, costs, writes, was, now, ids, n)
    case RebuildAll => now == was
  }

  /** A row whose model has a price is charged at it, and bound to it if the snapshot could be written; one without is
      left alone. */
  predicate IsRepricing(was: Usage, now: Usage, costs: Dict, writes: bool) {
    if MatchOf(costs, was.model).None? then now == was
    else
      now == was.(costs := now.costs, snapshotId := now.snapshotId) && (now.snapshotId.Some? <==> writes) &&
      now.costs == CalculateCosts(was.tokens, ResolvePricing(costs, was.model, was.ts).cost)
  }

  /** Every listed row is, the k-th with the k-th attempt to write its snapshot. */
  predicate AreRepriced(was: seq<Usage>, now: seq<Usage>, ids: seq<nat>, costs: Dict, writes: seq<bool>) {
    forall k :: 0 <= k < |ids| ==>
      ids[k] < |was| && ids[k] < |now| && IsRepricing(was[ids[k]], now[ids[k]], costs, k < |writes| && writes[k])
  }

  lemma OneMoreAtItsPrice(was: seq<Usage>, now: seq<Usage>, next: seq<Usage>, ids: seq<nat>, n: nat, costs: Dict,
                          writes: seq<bool>)
    requires n < |ids| && ids[n] < |was| == |now| == |next| && AreRepriced(was, now, ids[..n], costs, writes)
    requires forall k :: 0 <= k < n ==> ids[k] != ids[n]
    requires now[ids[n]] == was[ids[n]] && forall j :: 0 <= j < |now| && j != ids[n] ==> next[j] == now[j]
    requires IsRepricing(now[ids[n]], next[ids[n]], costs, n < |writes| && writes[n])
    ensures AreRepriced(was, next, ids[..n + 1], costs, writes)
  {
    forall k | 0 <= k < n + 1
      ensures ids[k] < |was| && IsRepricing(was[ids[k]], next[ids[k]], costs, k < |writes| && writes[k])
    {
      if k < n { assert ids[..n][k] == ids[k] && next[ids[k]] == now[ids[k]]; }
    }
  }

  /** The unbound rows of a window: each filter that is given holds. */
  lemma EstimatedRows(rows: seq<Usage>, w: Window, ids: seq<nat>, id: nat)
    requires EstimatedIds(rows, w, ids)
    ensures id in ids ==> id < |rows|
    ensures id < |rows| ==> (id in ids <==>
      rows[id].snapshotId == None && w.provider in {"", rows[id].provider} && w.model in {"", rows[id].model} &&
      (w.since == None || w.since.value <= rows[id].ts) && (w.until == None || rows[id].ts <= w.until.value))
  {
  }

  /** The listed rows may have other costs; all others are untouched. */
  predicate OnlyRepriced(was: seq<Usage>, now: seq<Usage>, ids: seq<nat>) {
    |now| == |was| && forall id: nat :: id < |was| ==>
      SameButCosts(was[id], now[id]) && (id in ids || now[id] == was[id])
  }

  lemma RepricedStep(was: seq<Usage>, now: seq<Usage>, ids: seq<nat>)
    requires OnlyRepriced(was, now, ids)
    ensures AllKept(was, now) && MovedBetween(was, now) == {}
    ensures forall i :: 0 <= i < |was| ==> KeptSession(was[i], now[i])
  {
    forall i: nat | i < |was| ensures KeptSession(was[i], now[i]) { assert SameButCosts(was[i], now[i]); }
    NoRowMoves(was, now);
  }

  lemma NotYetRepriced(was: seq<Usage>, now: seq<Usage>, w: Window, ids: seq<nat>, n: nat)
    requires EstimatedIds(was, w, ids) && n < |ids| && OnlyRepriced(was, now, ids[..n])
    ensures ids[n] < |now| && ids[n] !in ids[..n] && now[ids[n]] == was[ids[n]] && now[ids[n]].snapshotId.None?
    ensures ListsRows(ids, |now|) && forall k :: 0 <= k < n ==> ids[k] != ids[n]
  {
    assert ids[n] in ids && Estimated(was[ids[n]], w);
    assert forall k :: 0 <= k < n ==> ids[k] != ids[n];
  }

  /** The listed rows, and only they, were repriced, and so many of them are bound. */
  ghost predicate IsRepriced(was: seq<Usage>, now: seq<Usage>, ids: seq<nat>, bound: nat, costs: Dict,
                             writes: seq<bool>) {
    OnlyRepriced(was, now, ids) && ListsRows(ids, |now|) && bound == BoundCount(now, ids) &&
    AreRepriced(was, now, ids, costs, writes)
  }

  lemma OneMoreCounted(was: seq<Usage>, now: seq<Usage>, next: seq<Usage>, ids: seq<nat>, n: nat, bound: nat,
                       costs: Dict, writes: seq<bool>)
    requires n < |ids| && ids[n] < |was| == |next| && IsRepriced(was, now, ids[..n], bound, costs, writes)
    requires ListsRows(ids, |now|) && forall k :: 0 <= k < n ==> ids[k] != ids[n]
    requires SameButCosts(now[ids[n]], next[ids[n]]) && now[ids[n]] == was[ids[n]]
    requires forall j :: 0 <= j < |now| && j != ids[n] ==> next[j] == now[j]
    requires IsRepricing(now[ids[n]], next[ids[n]], costs, n < |writes| && writes[n])
    ensures IsRepriced(was, next, ids[..n + 1], bound + (if next[ids[n]].snapshotId.Some? then 1 else 0), costs, writes)
  {
    assert forall k :: 0 <= k < n ==> ids[..n][k] == ids[k];
    BoundCountStep(now, next, ids, n);
    OneMoreRepriced(was, now, next, ids, n);
    OneMoreAtItsPrice(was, now, next, ids, n, costs, writes);
  }

  lemma OneMoreRepriced(was: seq<Usage>, now: seq<Usage>, next: seq<Usage>, ids: seq<nat>, n: nat)
    requires n < |ids| && ids[n] < |was| && OnlyRepriced(was, now, ids[..n]) && |next| == |now|
    requires SameButCosts(now[ids[n]], next[ids[n]])
    requires forall j :: 0 <= j < |now| && j != ids[n] ==> next[j] == now[j]
    ensures OnlyRepriced(was, next, ids[..n + 1])
  {
    assert ids[..n + 1] == ids[..n] + [ids[n]];
    forall id: nat | id < |was| ensures SameButCosts(was[id], next[id]) && (id in ids[..n + 1] || next[id] == was[id]) {
      assert SameButCosts(was[id], now[id]) && (id in ids[..n] || now[id] == was[id]);
    }
  }

  /** How many of the listed rows are bound to a snapshot. */
  function BoundCount(rows: seq<Usage>, ids: seq<nat>): (n: nat)
    requires ListsRows(ids, |rows|)
    ensures n <= |ids|
  {
    if ids == [] then 0
    else BoundCount(rows, ids[..|ids| - 1]) + (if rows[ids[|ids| - 1]].snapshotId.Some? then 1 else 0)
  }

  lemma {:induction false} BoundCountDependsOnListed(rows: seq<Usage>, after: seq<Usage>, ids: seq<nat>)
    requires |rows| == |after| && ListsRows(ids, |rows|)
    requires forall k :: 0 <= k < |ids| ==> after[ids[k]] == rows[ids[k]]
    ensures BoundCount(rows, ids) == BoundCount(after, ids)
  {
    if ids != [] { BoundCountDependsOnListed(rows, after, ids[..|ids| - 1]); }
  }

  lemma BoundCountStep(rows: seq<Usage>, after: seq<Usage>, ids: seq<nat>, n: nat)
    requires |rows| == |after| && ListsRows(ids, |rows|) && n < |ids|
    requires forall k :: 0 <= k < n ==> after[ids[k]] == rows[ids[k]]
    ensures BoundCount(after, ids[..n + 1]) ==
            BoundCount(rows, ids[..n]) + (if after[ids[n]].snapshotId.Some? then 1 else 0)
  {
    assert ids[..n + 1][..n] == ids[..n];
    BoundCountDependsOnListed(rows, after, ids[..n]);
  }

  predicate Estimated(u: Usage, w: Window) {
    u.snapshotId.None? &&
    (w.provider != "" ==> u.provider == w.provider) && (w.model != "" ==> u.model == w.model) &&
    (w.since.Some? ==> u.ts >= w.since.value) && (w.until.Some? ==> u.ts <= w.until.value)
  }

  /** Ids in time order, each once. */
  predicate OrderedIds(rows: seq<Usage>, ids: seq<nat>) {
    ListsRows(ids, |rows|) &&
    forall j, k :: 0 <= j < k < |ids| ==> ids[j] != ids[k] && rows[ids[j]].ts <= rows[ids[k]].ts
  }

  /** The ids of the unbound rows of a window, each once, in time order. */
  ghost predicate EstimatedIds(rows: seq<Usage>, w: Window, ids: seq<nat>) {
    OrderedIds(rows, ids) && forall id: nat :: id in ids <==> id < |rows| && Estimated(rows[id], w)
  }

  function InsertId(rows: seq<Usage>, ids: seq<nat>, id: nat): seq<nat>
    requires id < |rows| && ListsRows(ids, |rows|)
  {
    if ids == [] || rows[ids[|ids| - 1]].ts <= rows[id].ts then ids + [id]
    else InsertId(rows, ids[..|ids| - 1], id) + [ids[|ids| - 1]]
  }

  lemma {:induction false} InsertIdKeepsOrder(rows: seq<Usage>, ids: seq<nat>, id: nat)
    requires OrderedIds(rows, ids) && id < |rows| && id !in ids
    ensures OrderedIds(rows, InsertId(rows, ids, id))
    ensures forall j :: j in InsertId(rows, ids, id) <==> j in ids || j == id
    decreases |ids|
  {
    if ids != [] && rows[ids[|ids| - 1]].ts > rows[id].ts {
      var rest, last := ids[..|ids| - 1], ids[|ids| - 1];
      assert ids == rest + [last];
      InsertIdKeepsOrder(rows, rest, id);
      var r := InsertId(rows, rest, id);
      forall k | 0 <= k < |r| ensures r[k] != last && rows[r[k]].ts <= rows[last].ts {
        assert r[k] in r;
        if r[k] != id {
          var j :| 0 <= j < |rest| && rest[j] == r[k];
          assert ids[j] == r[k];
        }
      }
    }
  }

  method FetchEstimatedIds(rows: seq<Usage>, w: Window) returns (ids: seq<nat>)
    ensures EstimatedIds(rows, w, ids)
  {
    ids := [];
    for n := 0 to |rows|
      invariant OrderedIds(rows, ids)
      invariant forall id: nat :: id in ids <==> id < n && Estimated(rows[id], w)
    {
      if Estimated(rows[n], w) {
        InsertIdKeepsOrder(rows, ids, n);
        ids := InsertId(rows, ids, n);
      }
    }
  }

  /** The snapshot a row is bound to is of its UTC day and model, and holds the source and the rates of its price
      then. */
  predicate IsSnapshotFor(snapshots: seq<Snapshot>, id: Option<nat>, u: Usage, costs: Dict) {
    id.Some? ==>
      id.value < |snapshots| && MatchOf(costs, u.model).Some? &&
      var s, rates := snapshots[id.value], ResolvePricing(costs, u.model, u.ts).cost;
      s.day == u.ts / 86_400_000_000 && s.model == u.model && s.source == MatchOf(costs, u.model).value.source &&
      s.rates == Payload(rates.input, rates.output, rates.cacheRead, rates.cacheWrite, rates.tiers)
  }

  /** The row's snapshot holds exactly the resolved rates, for its own day and model. */
  predicate PricedBy(v: Usage, resolved: Resolved, snapshots: seq<Snapshot>)
    requires v.snapshotId.Some? && resolved.match_.Some?
  {
    v.snapshotId.value < |snapshots| &&
    snapshots[v.snapshotId.value] ==
      Snapshot(DayOf(v.ts), v.model, resolved.match_.value.source, SerializeRates(resolved.cost))
  }

  lemma RecalculationKeepsDaily(rows: seq<Usage>, daily: map<DailyKey, Totals>, i: nat, v: Usage)
    requires DailyAgrees(rows, daily) && i < |rows| && SameButCosts(rows[i], v)
    requires forall w :: w in rows ==> w.userId != Some("")
    ensures DailyAgrees(rows[i := v], DailyRecosted(daily, rows[i], Delta(rows[i].costs, v.costs)))
  {
    assert rows[i] in rows;
    RecalculationKeepsDailyIff(rows, daily, i, v);
    UserKeyHasNoTwin(rows, daily, rows[i]);
    assert TwinKey(rows[i]) == TwinKey(v);
    assert DailyRecosted(daily, rows[i], Delta(rows[i].costs, v.costs)) ==
           DailyRecosted(daily, v, Delta(rows[i].costs, v.costs));
  }

  lemma RecalculationKeepsRows(rows: seq<Usage>, i: nat, v: Usage, resolved: Resolved, snapshots: seq<Snapshot>)
    requires i < |rows| && SameButCosts(rows[i], v) && resolved.match_.Some?
    requires forall w :: w in rows ==> Replays(w, snapshots) && w.userId != Some("")
    requires v.costs == CalculateCosts(v.tokens, resolved.cost)
    requires v.snapshotId.Some? ==> PricedBy(v, resolved, snapshots)
    ensures forall w :: w in rows[i := v] ==> Replays(w, snapshots) && w.userId != Some("")
  {
    PayloadRoundTrip(resolved.cost, resolved.cost, v.tokens);
    assert Replays(v, snapshots) && rows[i] in rows;
    forall w | w in rows[i := v] ensures Replays(w, snapshots) && w.userId != Some("") {
      MembersAfterReplace(rows, i, v, w);
    }
  }

  lemma InsertKeepsSessionsOk(rows: seq<Usage>, u: Usage, sessions: map<string, SessionRecord>, sid: string)
    requires forall s :: s in sessions ==> sessions[s].requestCount > 0
    requires SessionOk(rows, sessions, sid)
    ensures SessionOk(rows + [u], SessionsAfter(sessions, u), sid)
  {
    if InSession(u, sid) {
      if sid != "" {
        GainsByAppend(rows, u, sid);
        SessionUpsertOk(rows, rows + [u], sessions, u, sid);
      }
    } else {
      SameByAppend(rows, u, sid);
      SessionFrameOk(rows, rows + [u], sessions, SessionsAfter(sessions, u), sid);
    }
  }

  /** With no empty user ids in the table, no row has a twin key. */
  lemma UserKeyHasNoTwin(rows: seq<Usage>, daily: map<DailyKey, Totals>, u: Usage)
    requires DailyAgrees(rows, daily) && u in rows
    requires forall w :: w in rows ==> w.userId != Some("")
    ensures Present(u.userId) || TwinKey(u) !in daily
  {
    if !Present(u.userId) {
      var k := TwinKey(u);
      assert EntryAgrees(rows, daily, k);
      CountsRows(rows, OfKey(k));
    }
  }
}
