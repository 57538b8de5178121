/** Usage rows and the one notion of "sum over the rows that ..." that every roll-up refines
    (src/database/models.py, src/database/usage.py). */
module UsageRows {
  import opened Basics
  import opened Rates

  /** One recorded request. The row's id is its position in the table. */
  datatype Usage = Usage(
    userId: Option<string>,
    ts: int,
    provider: string,
    model: string,
    clientSource: Option<string>,
    sessionId: Option<string>,
    endpoint: string,
    tokens: Tokens,
    promptLength: int,
    reasoningTokens: Option<int>,
    toolTokens: Option<int>,
    totalTokens: Option<int>,
    latencyMs: Option<int>,
    ttftMs: Option<int>,
    costs: Costs,
    status: Option<int>,
    clientIp: Option<string>,
    snapshotId: Option<nat>)

  /** The summed columns of `usage_daily`. */
  datatype Totals = Totals(
    requestCount: int, promptTokens: int, completionTokens: int, reasoningTokens: int, cachedTokens: int,
    totalTokens: int, toolTokens: int, cacheCreationTokens: int, promptLength: int,
    inputCost: real, outputCost: real, totalCost: real,
    successful: int, failed: int, latencySumMs: int,
    status429: int, status4xx: int, status5xx: int, statusUnknown: int)

  const ZERO := Totals(0, 0, 0, 0, 0, 0, 0, 0, 0, 0.0, 0.0, 0.0, 0, 0, 0, 0, 0, 0, 0)

  function Add(a: Totals, b: Totals): Totals {
    Totals(
      a.requestCount + b.requestCount, a.promptTokens + b.promptTokens, a.completionTokens + b.completionTokens,
      a.reasoningTokens + b.reasoningTokens, a.cachedTokens + b.cachedTokens, a.totalTokens + b.totalTokens,
      a.toolTokens + b.toolTokens, a.cacheCreationTokens + b.cacheCreationTokens, a.promptLength + b.promptLength,
      a.inputCost + b.inputCost, a.outputCost + b.outputCost, a.totalCost + b.totalCost,
      a.successful + b.successful, a.failed + b.failed, a.latencySumMs + b.latencySumMs,
      a.status429 + b.status429, a.status4xx + b.status4xx, a.status5xx + b.status5xx,
      a.statusUnknown + b.statusUnknown)
  }

  predicate Succeeded(u: Usage) { u.status.None? || u.status.value < 400 }

  /** What one row adds to its daily row: the insert values of `upsert_daily_aggregate`. */
  function RowTotals(u: Usage): Totals {
    var ok := Succeeded(u);
    var s := if u.status.Some? then u.status.value else 0;
    Totals(
      1, OrZero(u.tokens.prompt), OrZero(u.tokens.completion), OrZero(u.reasoningTokens), OrZero(u.tokens.cached),
      OrZero(u.totalTokens), OrZero(u.toolTokens), OrZero(u.tokens.cacheCreation), u.promptLength,
      u.costs.input, u.costs.output, u.costs.total,
      if ok then 1 else 0, if ok then 0 else 1, OrZero(u.latencyMs),
      if !ok && s == 429 then 1 else 0,
      if !ok && s != 429 && 400 <= s < 500 then 1 else 0,
      if !ok && s != 429 && s >= 500 then 1 else 0,
      if !ok && s != 429 && !(400 <= s < 500) && s < 500 then 1 else 0)
  }

  datatype DailyKey = DailyKey(day: int, provider: string, model: string, clientSource: string, userId: Option<string>)

  function KeyOf(u: Usage): DailyKey {
    DailyKey(DayOf(u.ts), u.provider, u.model, OrEmpty(u.clientSource), u.userId)
  }

  /** The optional filters of the reporting functions; empty text means "no filter". */
  datatype Filter = Filter(userId: Option<string>, provider: string, model: string, clientSource: string)

  /** One line of a report: all rows of a provider and model. */
  datatype Group = Group(provider: string, model: string)

  /** A first-order name for a set of rows. */
  datatype Selection =
    | Everything
    | OfKey(key: DailyKey)
    | OfSession(sid: string)
    | OfSessionModel(sid: string, model: string)
    | OfSessionProvider(sid: string, provider: string)
    | OfReport(filter: Filter, since: int, until: int, group: Option<Group>)
    | OfKeys(keys: set<DailyKey>, filter: Filter, firstDay: int, lastDay: int, group: Option<Group>)

  predicate InSession(u: Usage, sid: string) { u.sessionId == Some(sid) }

  predicate PassesFilter(f: Filter, userId: Option<string>, provider: string, model: string, clientSource: string) {
    (f.userId.Some? ==> userId == f.userId) &&
    (f.provider != "" ==> provider == f.provider) &&
    (f.model != "" ==> model == f.model) &&
    (f.clientSource != "" ==> clientSource == f.clientSource)
  }

  /** The same filters read off a daily row, with dates instead of times. */
  predicate KeyPasses(k: DailyKey, f: Filter, first: int, last: int, g: Option<Group>) {
    first <= k.day <= last && (g.Some? ==> g.value == Group(k.provider, k.model)) &&
    PassesFilter(f, k.userId, k.provider, k.model, k.clientSource)
  }

  predicate Selects(s: Selection, u: Usage) {
    match s
    case Everything => true
    case OfKey(k) => KeyOf(u) == k
    case OfSession(sid) => InSession(u, sid)
    case OfSessionModel(sid, m) => InSession(u, sid) && u.model == m
    case OfSessionProvider(sid, p) => InSession(u, sid) && u.provider == p
    case OfReport(f, since, until, g) =>
      since <= u.ts <= until && (g.Some? ==> g.value == Group(u.provider, u.model)) &&
      PassesFilter(f, u.userId, u.provider, u.model, OrEmpty(u.clientSource))
    case OfKeys(keys, f, first, last, g) => KeyOf(u) in keys && KeyPasses(KeyOf(u), f, first, last, g)
  }

  /** The summed columns together with the two time-to-first-token figures the session table needs. */
  datatype Measure = Measure(totals: Totals, ttftSum: int, ttftCount: int)

  const NOTHING := Measure(ZERO, 0, 0)

  function Plus(a: Measure, b: Measure): Measure {
    Measure(Add(a.totals, b.totals), a.ttftSum + b.ttftSum, a.ttftCount + b.ttftCount)
  }

  function RowMeasure(u: Usage): Measure {
    Measure(RowTotals(u), OrZero(u.ttftMs), if u.ttftMs.Some? then 1 else 0)
  }

  function Part(s: Selection, u: Usage): Measure { if Selects(s, u) then RowMeasure(u) else NOTHING }

  function PartsOf(s: Selection): Usage -> Measure { u => Part(s, u) }

  /** Adds up a measure over a sequence. */
  function Fold<T>(xs: seq<T>, f: T -> Measure): Measure {
    if xs == [] then NOTHING else Plus(Fold(xs[..|xs| - 1], f), f(xs[|xs| - 1]))
  }

  /** The measure of the selected rows: SQL's SUM/COUNT ... WHERE. */
  function MeasureOf(rows: seq<Usage>, s: Selection): Measure { Fold(rows, PartsOf(s)) }

  function SumOf(rows: seq<Usage>, s: Selection): Totals { MeasureOf(rows, s).totals }

  /** The rows a selection picks, in table order. */
  function Picked(rows: seq<Usage>, s: Selection): (r: seq<Usage>)
    ensures forall u :: u in r <==> u in rows && Selects(s, u)
    ensures |r| <= |rows|
  {
    if rows == [] then []
    else
      var u := rows[|rows| - 1];
      Picked(rows[..|rows| - 1], s) + (if Selects(s, u) then [u] else [])
  }

  // ---------------------------------------------------------------- laws of the sums

  lemma PlusIsAbelian(a: Measure, b: Measure, c: Measure)
    ensures Plus(a, b) == Plus(b, a)
    ensures Plus(Plus(a, b), c) == Plus(a, Plus(b, c))
    ensures Plus(NOTHING, a) == a == Plus(a, NOTHING)
  {
  }

  lemma PlusCancels(a: Measure, b: Measure, c: Measure)
    requires Plus(a, c) == Plus(b, c)
    ensures a == b
  {
  }

  lemma FoldAppend<T>(xs: seq<T>, x: T, f: T -> Measure)
    ensures Fold(xs + [x], f) == Plus(Fold(xs, f), f(x))
  {
    assert (xs + [x])[..|xs|] == xs;
  }

  lemma FoldSingleton<T>(x: T, f: T -> Measure)
    ensures Fold([x], f) == f(x)
  {
    assert [x][..0] == [];
    PlusIsAbelian(f(x), NOTHING, NOTHING);
  }

  lemma {:induction false} FoldConcat<T>(a: seq<T>, b: seq<T>, f: T -> Measure)
    ensures Fold(a + b, f) == Plus(Fold(a, f), Fold(b, f))
    decreases |b|
  {
    if b == [] {
      assert a + b == a;
      PlusIsAbelian(Fold(a, f), NOTHING, NOTHING);
    } else {
      var b', x := b[..|b| - 1], b[|b| - 1];
      FoldConcat(a, b', f);
      assert a + b == (a + b') + [x];
      FoldAppend(a + b', x, f);
      PlusIsAbelian(Fold(a, f), Fold(b', f), f(x));
    }
  }

  lemma FoldSplit<T>(xs: seq<T>, i: nat, x: T, f: T -> Measure)
    requires i < |xs|
    ensures var rest := xs[..i] + xs[i + 1..]; Fold(xs[i := x], f) == Plus(Fold(rest, f), f(x))
  {
    var a, b := xs[..i], xs[i + 1..];
    assert xs[i := x] == (a + [x]) + b;
    FoldConcat(a + [x], b, f);
    FoldAppend(a, x, f);
    FoldConcat(a, b, f);
    var fa, fb := Fold(a, f), Fold(b, f);
    PlusIsAbelian(fa, f(x), fb);
    PlusIsAbelian(fa, fb, f(x));
    PlusIsAbelian(f(x), fb, fa);
  }

  /** Replacing one element changes a fold by exactly the difference of the two values. */
  lemma FoldReplace<T>(xs: seq<T>, i: nat, x: T, f: T -> Measure)
    requires i < |xs|
    ensures Plus(Fold(xs[i := x], f), f(xs[i])) == Plus(Fold(xs, f), f(x))
  {
    FoldSplit(xs, i, x, f);
    FoldSplit(xs, i, xs[i], f);
    assert xs[i := xs[i]] == xs;
    var r := Fold(xs[..i] + xs[i + 1..], f);
    PlusIsAbelian(r, f(x), f(xs[i]));
    PlusIsAbelian(r, f(xs[i]), f(x));
    PlusIsAbelian(f(x), f(xs[i]), r);
  }

  lemma LastIsSomewhere<T>(a: seq<T>, b: seq<T>) returns (i: nat)
    requires multiset(a) == multiset(b) && a != []
    ensures i < |b| && b[i] == a[|a| - 1]
    ensures multiset(a[..|a| - 1]) == multiset(b[..i] + b[i + 1..])
  {
    var x := a[|a| - 1];
    assert x in multiset(b);
    i :| 0 <= i < |b| && b[i] == x;
    assert a == a[..|a| - 1] + [x];
    WithoutOne(b, i);
  }

  lemma WithoutOne<T>(b: seq<T>, i: nat)
    requires i < |b|
    ensures multiset(b[..i] + b[i + 1..]) == multiset(b) - multiset{b[i]}
  {
    assert b == b[..i] + ([b[i]] + b[i + 1..]);
  }

  lemma {:induction false} FoldOfNothing<T>(xs: seq<T>, f: T -> Measure)
    requires forall x :: x in xs ==> f(x) == NOTHING
    ensures Fold(xs, f) == NOTHING
    decreases |xs|
  {
    if xs != [] { FoldOfNothing(xs[..|xs| - 1], f); }
  }

  lemma {:induction false} FoldSame<T>(xs: seq<T>, f: T -> Measure, g: T -> Measure)
    requires forall x :: x in xs ==> f(x) == g(x)
    ensures Fold(xs, f) == Fold(xs, g)
    decreases |xs|
  {
    if xs != [] { FoldSame(xs[..|xs| - 1], f, g); }
  }

  /** Sums do not depend on the order of the rows. */
  lemma {:induction false} FoldOfPermutation<T>(a: seq<T>, b: seq<T>, f: T -> Measure)
    requires multiset(a) == multiset(b)
    ensures Fold(a, f) == Fold(b, f)
    decreases |a|
  {
    if a == [] {
      assert |b| == |multiset(b)| == |multiset(a)|;
    } else {
      var i := LastIsSomewhere(a, b);
      FoldOfPermutation(a[..|a| - 1], b[..i] + b[i + 1..], f);
      FoldSplit(b, i, b[i], f);
      assert b[i := b[i]] == b;
    }
  }

  /** A newly inserted row adds its own part to every sum that selects it, and nothing elsewhere. */
  lemma SumAppend(rows: seq<Usage>, u: Usage, s: Selection)
    ensures MeasureOf(rows + [u], s) == Plus(MeasureOf(rows, s), Part(s, u))
  {
    FoldAppend(rows, u, PartsOf(s));
  }

  lemma SumReplace(rows: seq<Usage>, i: nat, v: Usage, s: Selection)
    requires i < |rows|
    ensures Plus(MeasureOf(rows[i := v], s), Part(s, rows[i])) == Plus(MeasureOf(rows, s), Part(s, v))
    ensures Part(s, rows[i]) == Part(s, v) ==> MeasureOf(rows[i := v], s) == MeasureOf(rows, s)
  {
    FoldReplace(rows, i, v, PartsOf(s));
    if Part(s, rows[i]) == Part(s, v) {
      PlusCancels(MeasureOf(rows[i := v], s), MeasureOf(rows, s), Part(s, v));
    }
  }

  lemma PickedSplit(rest: seq<Usage>, u: Usage, s: Selection, t: Selection)
    requires Selects(t, u) ==> Selects(s, u)
    ensures MeasureOf(Picked(rest + [u], s), t) == Plus(MeasureOf(Picked(rest, s), t), Part(t, u))
  {
    assert (rest + [u])[..|rest|] == rest;
    if Selects(s, u) {
      SumAppend(Picked(rest, s), u, t);
    } else {
      assert Picked(rest, s) + [] == Picked(rest, s);
      PlusIsAbelian(MeasureOf(Picked(rest, s), t), NOTHING, NOTHING);
    }
  }

  /** Filtering on `s` loses nothing for any selection that implies `s`. */
  lemma {:induction false} SumOfPicked(rows: seq<Usage>, s: Selection, t: Selection)
    requires forall u :: u in rows && Selects(t, u) ==> Selects(s, u)
    ensures MeasureOf(Picked(rows, s), t) == MeasureOf(rows, t)
    decreases |rows|
  {
    if rows != [] {
      var rest, u := rows[..|rows| - 1], rows[|rows| - 1];
      assert rows == rest + [u];
      forall v | v in rest && Selects(t, v) ensures Selects(s, v) { assert v in rows; }
      SumOfPicked(rest, s, t);
      assert u in rows;
      PickedSplit(rest, u, s, t);
      SumAppend(rest, u, t);
      assert MeasureOf(Picked(rows, s), t) == Plus(MeasureOf(rest, t), Part(t, u));
    }
  }

  /** What one row can contribute to the counters. */
  lemma PartCounts(s: Selection, u: Usage)
    ensures var m := Part(s, u); var t := m.totals;
      t.requestCount == (if Selects(s, u) then 1 else 0) &&
      t.successful + t.failed == t.requestCount && t.successful >= 0 && t.failed >= 0 &&
      t.failed == t.status429 + t.status4xx + t.status5xx && t.statusUnknown == 0 &&
      0 <= m.ttftCount <= t.requestCount
  {
  }

  /** The request count of a sum is the number of selected rows; it splits into successes and failures,
      and every failure falls in exactly one of the three status classes ("unknown" stays empty). */
  lemma {:induction false} CountsRows(rows: seq<Usage>, s: Selection)
    ensures var m := MeasureOf(rows, s); var t := m.totals;
      t.requestCount == |Picked(rows, s)| &&
      t.successful + t.failed == t.requestCount && t.successful >= 0 && t.failed >= 0 &&
      t.failed == t.status429 + t.status4xx + t.status5xx && t.statusUnknown == 0 &&
      0 <= m.ttftCount <= t.requestCount
    ensures (exists u :: u in rows && Selects(s, u)) <==> SumOf(rows, s).requestCount > 0
    decreases |rows|
  {
    if rows != [] {
      var rest, u := rows[..|rows| - 1], rows[|rows| - 1];
      CountsRows(rest, s);
      PartCounts(s, u);
    }
    if SumOf(rows, s).requestCount > 0 {
      assert Picked(rows, s)[0] in Picked(rows, s);
    }
    if u :| u in rows && Selects(s, u) {
      assert u in Picked(rows, s);
    }
  }

  /** A sum over no rows is nothing at all. */
  lemma NoRowsNothing(rows: seq<Usage>, s: Selection)
    requires SumOf(rows, s).requestCount <= 0
    ensures MeasureOf(rows, s) == NOTHING
  {
    CountsRows(rows, s);
    FoldOfNothing(rows, PartsOf(s));
  }

  /** The two figures of a sum that the cost maps are compared with. */
  lemma PlusPart(m: Measure, s: Selection, u: Usage)
    ensures var t := Plus(m, Part(s, u)).totals;
      t.requestCount == m.totals.requestCount + (if Selects(s, u) then 1 else 0) &&
      t.totalCost == m.totals.totalCost + (if Selects(s, u) then u.costs.total else 0.0)
  {
  }

  /** Selections that pick the same rows of a table have the same sum over it. */
  lemma SameSelection(rows: seq<Usage>, s: Selection, t: Selection)
    requires forall u :: u in rows ==> Selects(s, u) == Selects(t, u)
    ensures MeasureOf(rows, s) == MeasureOf(rows, t)
  {
    FoldSame(rows, PartsOf(s), PartsOf(t));
  }

  /** A selection that is the disjoint union of two others sums to their two sums. */
  lemma {:induction false} SumSplits(rows: seq<Usage>, s: Selection, a: Selection, b: Selection)
    requires forall u :: u in rows ==> (Selects(s, u) <==> Selects(a, u) || Selects(b, u))
    requires forall u :: u in rows ==> !(Selects(a, u) && Selects(b, u))
    ensures MeasureOf(rows, s) == Plus(MeasureOf(rows, a), MeasureOf(rows, b))
    decreases |rows|
  {
    if rows != [] {
      var rest, u := rows[..|rows| - 1], rows[|rows| - 1];
      SumSplits(rest, s, a, b);
      PartSplits(u, s, a, b);
      PlusShuffles(MeasureOf(rest, a), MeasureOf(rest, b), Part(a, u), Part(b, u));
    }
  }

  lemma PartSplits(u: Usage, s: Selection, a: Selection, b: Selection)
    requires (Selects(s, u) <==> Selects(a, u) || Selects(b, u)) && !(Selects(a, u) && Selects(b, u))
    ensures Part(s, u) == Plus(Part(a, u), Part(b, u))
  {
    PlusIsAbelian(RowMeasure(u), NOTHING, NOTHING);
    PlusIsAbelian(NOTHING, NOTHING, NOTHING);
  }

  lemma PlusShuffles(a: Measure, b: Measure, c: Measure, d: Measure)
    ensures Plus(Plus(a, b), Plus(c, d)) == Plus(Plus(a, c), Plus(b, d))
  {
  }

  // ---------------------------------------------------------------- what the columns count

  /** The columns of the tables and reports, each with the field of a row, or the rows, it stands for. */
  datatype Column =
    | RequestCount | PromptTokens | CompletionTokens | ReasoningTokens | CachedTokens | TotalTokens | ToolTokens
    | CacheCreationTokens | PromptLengths | Latencies
    | Successes | Failures | TooManyRequests | OtherClientErrors | ServerErrors | UnknownErrors
  datatype MoneyColumn = InputCost | OutputCost | TotalCost

  /** What a row counts for in a column. */
  function CountIn(u: Usage, c: Column): int {
    match c
    case RequestCount => 1
    case PromptTokens => IfAny(u.tokens.prompt)
    case CompletionTokens => IfAny(u.tokens.completion)
    case ReasoningTokens => IfAny(u.reasoningTokens)
    case CachedTokens => IfAny(u.tokens.cached)
    case TotalTokens => IfAny(u.totalTokens)
    case ToolTokens => IfAny(u.toolTokens)
    case CacheCreationTokens => IfAny(u.tokens.cacheCreation)
    case PromptLengths => u.promptLength
    case Latencies => IfAny(u.latencyMs)
    case Successes => if u.status == None || u.status.value < 400 then 1 else 0
    case Failures => if u.status != None && u.status.value >= 400 then 1 else 0
    case TooManyRequests => if u.status == Some(429) then 1 else 0
    case OtherClientErrors =>
      if u.status != None && 400 <= u.status.value <= 499 && u.status.value != 429 then 1 else 0
    case ServerErrors => if u.status != None && u.status.value >= 500 then 1 else 0
    case UnknownErrors => 0
  }

  function IfAny(o: Option<int>): int { if o.Some? then o.value else 0 }

  function MoneyIn(u: Usage, c: MoneyColumn): real {
    match c
    case InputCost => u.costs.input
    case OutputCost => u.costs.output
    case TotalCost => u.costs.total
  }

  /** The sum of a column over the selected rows. */
  function ColumnSum(rows: seq<Usage>, s: Selection, c: Column): int {
    if rows == [] then 0
    else
      ColumnSum(rows[..|rows| - 1], s, c) + (if Selects(s, rows[|rows| - 1]) then CountIn(rows[|rows| - 1], c) else 0)
  }

  function MoneySum(rows: seq<Usage>, s: Selection, c: MoneyColumn): real {
    if rows == [] then 0.0
    else
      MoneySum(rows[..|rows| - 1], s, c) + (if Selects(s, rows[|rows| - 1]) then MoneyIn(rows[|rows| - 1], c) else 0.0)
  }

  function ColumnOf(t: Totals, c: Column): int {
    match c
    case RequestCount => t.requestCount
    case PromptTokens => t.promptTokens
    case CompletionTokens => t.completionTokens
    case ReasoningTokens => t.reasoningTokens
    case CachedTokens => t.cachedTokens
    case TotalTokens => t.totalTokens
    case ToolTokens => t.toolTokens
    case CacheCreationTokens => t.cacheCreationTokens
    case PromptLengths => t.promptLength
    case Latencies => t.latencySumMs
    case Successes => t.successful
    case Failures => t.failed
    case TooManyRequests => t.status429
    case OtherClientErrors => t.status4xx
    case ServerErrors => t.status5xx
    case UnknownErrors => t.statusUnknown
  }

  function MoneyOf(t: Totals, c: MoneyColumn): real {
    match c
    case InputCost => t.inputCost
    case OutputCost => t.outputCost
    case TotalCost => t.totalCost
  }

  lemma PartOfColumn(s: Selection, u: Usage, c: Column)
    ensures ColumnOf(Part(s, u).totals, c) == if Selects(s, u) then CountIn(u, c) else 0
  {
  }

  lemma PartOfMoney(s: Selection, u: Usage, c: MoneyColumn)
    ensures MoneyOf(Part(s, u).totals, c) == if Selects(s, u) then MoneyIn(u, c) else 0.0
  {
  }

  lemma ColumnAdds(a: Measure, b: Measure, c: Column)
    ensures ColumnOf(Plus(a, b).totals, c) == ColumnOf(a.totals, c) + ColumnOf(b.totals, c)
  {
  }

  lemma MoneyAdds(a: Measure, b: Measure, c: MoneyColumn)
    ensures MoneyOf(Plus(a, b).totals, c) == MoneyOf(a.totals, c) + MoneyOf(b.totals, c)
  {
  }

  /** Every column of a sum is the sum of its own field over the selected rows; the status columns count the rows
      without a status or below 400, from 400, at 429, at the other 4xx, and from 500. */
  lemma {:induction false} ColumnsAreSums(rows: seq<Usage>, s: Selection, c: Column)
    ensures ColumnOf(SumOf(rows, s), c) == ColumnSum(rows, s, c)
    decreases |rows|
  {
    if rows != [] {
      var rest, u := rows[..|rows| - 1], rows[|rows| - 1];
      ColumnsAreSums(rest, s, c);
      PartOfColumn(s, u, c);
      ColumnAdds(MeasureOf(rest, s), Part(s, u), c);
    }
  }

  lemma {:induction false} MoneyIsSummed(rows: seq<Usage>, s: Selection, c: MoneyColumn)
    ensures MoneyOf(SumOf(rows, s), c) == MoneySum(rows, s, c)
    decreases |rows|
  {
    if rows != [] {
      var rest, u := rows[..|rows| - 1], rows[|rows| - 1];
      MoneyIsSummed(rest, s, c);
      PartOfMoney(s, u, c);
      MoneyAdds(MeasureOf(rest, s), Part(s, u), c);
    }
  }

  // ---------------------------------------------------------------- which rows are meant

  /** The rows of a report: the time range, ends included, the group, and every filter that is given. */
  lemma ReportSelects(f: Filter, since: int, until: int, g: Group, u: Usage)
    ensures Selects(OfReport(f, since, until, Some(g)), u) <==>
      since <= u.ts && u.ts <= until && u.provider == g.provider && u.model == g.model &&
      (f.userId == None || f.userId == u.userId) && (f.provider == "" || f.provider == u.provider) &&
      (f.model == "" || f.model == u.model) &&
      (f.clientSource == "" || u.clientSource == Some(f.clientSource))
  {
  }

  /** Two rows share a daily row exactly when they are of one UTC day, provider, model, client and user, where no client
      counts as the empty one. */
  lemma SameDailyRow(u: Usage, v: Usage)
    ensures KeyOf(u) == KeyOf(v) <==>
      u.ts / 86_400_000_000 == v.ts / 86_400_000_000 && u.provider == v.provider && u.model == v.model &&
      u.userId == v.userId &&
      (u.clientSource == v.clientSource || (!Present(u.clientSource) && !Present(v.clientSource)))
    ensures Selects(OfKey(KeyOf(u)), v) <==> KeyOf(v) == KeyOf(u)
  {
  }
}
