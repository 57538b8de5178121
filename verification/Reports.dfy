/** The two ways of answering a usage report: from the daily table or from the raw rows
    (`count_usage`, `summarize_usage_daily`, `_summarize_usage_raw` in src/database/usage.py). */
module Reports {
  import opened Basics
  import opened Rates
  import opened UsageRows
  import opened Sessions
  import opened Ledger

  /** One line of a report: the columns both queries select. */
  datatype Line = Line(
    requests: int, promptTokens: int, completionTokens: int, reasoningTokens: int, cachedTokens: int,
    cacheCreationTokens: int, totalTokens: int, latencySumMs: int,
    inputCost: real, outputCost: real, totalCost: real,
    successful: int, failed: int, status429: int, status4xx: int, status5xx: int, statusUnknown: int)

  type Report = map<Group, Line>

  /** The summed columns of the daily table that a report shows. */
  function LineOf(t: Totals): Line {
    Line(t.requestCount, t.promptTokens, t.completionTokens, t.reasoningTokens, t.cachedTokens, t.cacheCreationTokens,
         t.totalTokens, t.latencySumMs, t.inputCost, t.outputCost, t.totalCost, t.successful, t.failed, t.status429,
         t.status4xx, t.status5xx, t.statusUnknown)
  }

  /** What the query on the raw rows counts for one row: its own cases, column by column. */
  function RawLine(u: Usage): Line {
    Line(1, OrZero(u.tokens.prompt), OrZero(u.tokens.completion), OrZero(u.reasoningTokens), OrZero(u.tokens.cached),
         OrZero(u.tokens.cacheCreation), OrZero(u.totalTokens), OrZero(u.latencyMs),
         u.costs.input, u.costs.output, u.costs.total,
         if u.status.None? || u.status.value < 400 then 1 else 0,
         if u.status.Some? && u.status.value >= 400 then 1 else 0,
         if u.status == Some(429) then 1 else 0,
         if u.status.Some? && u.status.value >= 400 && u.status.value < 500 && u.status.value != 429 then 1 else 0,
         if u.status.Some? && u.status.value >= 500 then 1 else 0,
         0)
  }

  function AddLines(a: Line, b: Line): Line {
    Line(a.requests + b.requests, a.promptTokens + b.promptTokens, a.completionTokens + b.completionTokens,
         a.reasoningTokens + b.reasoningTokens, a.cachedTokens + b.cachedTokens,
         a.cacheCreationTokens + b.cacheCreationTokens, a.totalTokens + b.totalTokens, a.latencySumMs + b.latencySumMs,
         a.inputCost + b.inputCost, a.outputCost + b.outputCost, a.totalCost + b.totalCost,
         a.successful + b.successful, a.failed + b.failed, a.status429 + b.status429, a.status4xx + b.status4xx,
         a.status5xx + b.status5xx, a.statusUnknown + b.statusUnknown)
  }

  /** The cases of the raw query and those of the daily upsert classify every row alike. */
  lemma QueriesClassifyAlike(u: Usage)
    ensures RawLine(u) == LineOf(RowTotals(u))
  {
  }

  /** A report line exists exactly for the groups with a matching row, and holds that group's sums. */
  ghost predicate IsReport(r: Report, rows: seq<Usage>, f: Filter, since: int, until: int) {
    forall g :: LineIs(r, g, SumOf(rows, OfReport(f, since, until, Some(g))))
  }

  predicate LineIs(r: Report, g: Group, t: Totals) {
    (g in r <==> t.requestCount > 0) && (g in r ==> r[g] == LineOf(t))
  }

  /** Both paths are held to the same description, so wherever both meet it they give the same report. */
  lemma ReportIsUnique(a: Report, b: Report, rows: seq<Usage>, f: Filter, since: int, until: int)
    requires IsReport(a, rows, f, since, until) && IsReport(b, rows, f, since, until)
    ensures a == b
  {
    forall g ensures (g in a <==> g in b) && (g in a ==> a[g] == b[g]) {
      assert LineIs(a, g, SumOf(rows, OfReport(f, since, until, Some(g))));
      assert LineIs(b, g, SumOf(rows, OfReport(f, since, until, Some(g))));
    }
  }

  /** The rows a line of a report is about. */
  predicate IsReported(u: Usage, f: Filter, since: int, until: int, g: Group) {
    since <= u.ts <= until && u.provider == g.provider && u.model == g.model &&
    (f.userId.None? || u.userId == f.userId) && (f.provider == "" || u.provider == f.provider) &&
    (f.model == "" || u.model == f.model) && (f.clientSource == "" || u.clientSource == Some(f.clientSource))
  }

  /** The columns of a line by name. */
  function CountAt(l: Line, c: Column): int {
    match c
    case RequestCount => l.requests
    case PromptTokens => l.promptTokens
    case CompletionTokens => l.completionTokens
    case ReasoningTokens => l.reasoningTokens
    case CachedTokens => l.cachedTokens
    case CacheCreationTokens => l.cacheCreationTokens
    case TotalTokens => l.totalTokens
    case Latencies => l.latencySumMs
    case Successes => l.successful
    case Failures => l.failed
    case TooManyRequests => l.status429
    case OtherClientErrors => l.status4xx
    case ServerErrors => l.status5xx
    case UnknownErrors => l.statusUnknown
    case _ => 0
  }

  predicate IsShown(c: Column) { !c.ToolTokens? && !c.PromptLengths? }

  function MoneyAt(l: Line, c: MoneyColumn): real {
    match c
    case InputCost => l.inputCost
    case OutputCost => l.outputCost
    case TotalCost => l.totalCost
  }

  lemma LineShowsColumns(t: Totals, c: Column, m: MoneyColumn)
    requires IsShown(c)
    ensures CountAt(LineOf(t), c) == ColumnOf(t, c) && MoneyAt(LineOf(t), m) == MoneyOf(t, m)
  {
  }

  /** A report has a line exactly for the groups with a reported row, and each of its columns adds up that column's
      own field over those rows. */
  lemma LinesCountTheirRows(r: Report, rows: seq<Usage>, f: Filter, since: int, until: int, g: Group, c: Column,
                            m: MoneyColumn)
    requires IsReport(r, rows, f, since, until) && IsShown(c)
    ensures g in r <==> exists u :: u in rows && IsReported(u, f, since, until, g)
    ensures g in r ==>
      CountAt(r[g], c) == ColumnSum(rows, OfReport(f, since, until, Some(g)), c) &&
      MoneyAt(r[g], m) == MoneySum(rows, OfReport(f, since, until, Some(g)), m)
    ensures forall u :: Selects(OfReport(f, since, until, Some(g)), u) <==> IsReported(u, f, since, until, g)
  {
    var s := OfReport(f, since, until, Some(g));
    assert LineIs(r, g, SumOf(rows, s));
    CountsRows(rows, s);
    forall u ensures Selects(s, u) == IsReported(u, f, since, until, g) {
      ReportSelects(f, since, until, g, u);
    }
    ColumnsAreSums(rows, s, c);
    MoneyIsSummed(rows, s, m);
    LineShowsColumns(SumOf(rows, s), c, m);
  }

  /** Adding one amount to the line of its group. */
  function Grown(r: Report, g: Group, l: Line): Report {
    r[g := if g in r then AddLines(r[g], l) else l]
  }

  lemma PlusTotals(a: Measure, b: Measure)
    ensures LineOf(Plus(a, b).totals) == AddLines(LineOf(a.totals), LineOf(b.totals))
    ensures Plus(a, b).totals.requestCount == a.totals.requestCount + b.totals.requestCount
  {
  }

  /** Adding to the line of `g` keeps every line right: `g` now stands for the larger sum. */
  lemma LineGrows(r: Report, g: Group, h: Group, before: Totals, m: Totals, sum: Totals)
    requires LineIs(r, h, before) && m.requestCount > 0 && before.requestCount >= 0
    requires sum.requestCount == before.requestCount + m.requestCount
    requires LineOf(sum) == if before.requestCount == 0 then LineOf(m) else AddLines(LineOf(before), LineOf(m))
    ensures LineIs(Grown(r, g, LineOf(m)), h, if g == h then sum else before)
  {
  }

  /** One more part, going to group `g` unless it was filtered out, keeps a report line right. */
  lemma LineTakes(r: Report, g: Group, h: Group, rows: seq<Usage>, before: Selection, m: Measure, counted: bool)
    requires LineIs(r, h, SumOf(rows, before)) && m.totals.requestCount > 0
    ensures LineIs(if counted then Grown(r, g, LineOf(m.totals)) else r, h,
                   Plus(MeasureOf(rows, before), if counted && g == h then m else NOTHING).totals)
  {
    CountsRows(rows, before);
    var b := MeasureOf(rows, before);
    PlusTotals(b, m);
    PlusNothing(b);
    PlusNothing(m);
    if b.totals.requestCount == 0 { NoRowsNothing(rows, before); }
    LineGrows(r, g, h, b.totals, m.totals, Plus(b, m).totals);
  }

  /** `_summarize_usage_raw`: one pass over the rows that meet the query's conditions, grouped by provider and model. */
  method SummarizeRaw(rows: seq<Usage>, f: Filter, since: int, until: int) returns (r: Report)
    ensures IsReport(r, rows, f, since, until)
  {
    r := map[];
    for n := 0 to |rows|
      invariant IsReport(r, rows[..n], f, since, until)
    {
      var u := rows[n];
      var g := Group(u.provider, u.model);
      var counted := IsReported(u, f, since, until, g);
      ghost var was, prefix := r, rows[..n + 1];
      assert prefix == rows[..n] + [u];
      if counted { r := Grown(r, g, RawLine(u)); }
      QueriesClassifyAlike(u);
      ReportSelects(f, since, until, g, u);
      forall h ensures LineIs(r, h, SumOf(prefix, OfReport(f, since, until, Some(h)))) {
        var s := OfReport(f, since, until, Some(h));
        SumAppend(rows[..n], u, s);
        LineTakes(was, g, h, rows[..n], s, RowMeasure(u), counted);
      }
    }
    assert rows[..|rows|] == rows;
  }

  /** The daily rows with key in `keys + {k}`: those of `keys`, and the rows of `k` if it passes. */
  lemma KeysSplit(rows: seq<Usage>, keys: set<DailyKey>, k: DailyKey, f: Filter, first: int, last: int,
                  g: Option<Group>)
    requires k !in keys
    ensures MeasureOf(rows, OfKeys(keys + {k}, f, first, last, g)) ==
            Plus(MeasureOf(rows, OfKeys(keys, f, first, last, g)),
                 if KeyPasses(k, f, first, last, g) then MeasureOf(rows, OfKey(k)) else NOTHING)
  {
    var one := OfKeys({k}, f, first, last, g);
    SumSplits(rows, OfKeys(keys + {k}, f, first, last, g), OfKeys(keys, f, first, last, g), one);
    if KeyPasses(k, f, first, last, g) {
      SameSelection(rows, one, OfKey(k));
    } else {
      FoldOfNothing(rows, PartsOf(one));
    }
  }

  /** Once every daily key is taken, the filter on dates is the filter on whole days of the rows. */
  lemma AllKeysAreAllRows(rows: seq<Usage>, daily: map<DailyKey, Totals>, f: Filter, first: int, last: int,
                          g: Option<Group>)
    requires DailyAgrees(rows, daily)
    ensures MeasureOf(rows, OfKeys(daily.Keys, f, first, last, g)) ==
            MeasureOf(rows, OfReport(f, DayStart(first), DayEnd(last), g))
  {
    var s := OfKeys(daily.Keys, f, first, last, g);
    forall u | u in rows ensures Selects(s, u) == Selects(OfReport(f, DayStart(first), DayEnd(last), g), u) {
      assert EntryAgrees(rows, daily, KeyOf(u));
      CountsRows(rows, OfKey(KeyOf(u)));
      WholeDays(u.ts, first, last);
    }
    SameSelection(rows, s, OfReport(f, DayStart(first), DayEnd(last), g));
  }

  function DayStart(day: int): int { day * MICROS_PER_DAY }

  function DayEnd(day: int): int { (day + 1) * MICROS_PER_DAY - 1 }

  lemma WholeDays(ts: int, first: int, last: int)
    ensures first <= DayOf(ts) <= last <==> DayStart(first) <= ts <= DayEnd(last)
  {
  }

  /** `summarize_usage_daily` on the daily table: adds up the daily rows whose date and names pass. While
      the table agrees with the rows, it reports exactly the rows of the whole days from `first` to `last`. */
  method SummarizeDaily(daily: map<DailyKey, Totals>, f: Filter, first: int, last: int, ghost rows: seq<Usage>)
    returns (r: Report)
    requires DailyAgrees(rows, daily)
    ensures IsReport(r, rows, f, DayStart(first), DayEnd(last))
  {
    r := map[];
    var todo := daily.Keys;
    ghost var done: set<DailyKey> := {};
    forall h ensures LineIs(r, h, SumOf(rows, OfKeys(done, f, first, last, Some(h)))) {
      FoldOfNothing(rows, PartsOf(OfKeys(done, f, first, last, Some(h))));
    }
    while todo != {}
      invariant done !! todo && done + todo == daily.Keys
      invariant forall h :: LineIs(r, h, SumOf(rows, OfKeys(done, f, first, last, Some(h))))
      decreases todo
    {
      var k :| k in todo;
      assert EntryAgrees(rows, daily, k);
      var g := Group(k.provider, k.model);
      var counted := KeyPasses(k, f, first, last, Some(g));
      ghost var was := r;
      if counted { r := Grown(r, g, LineOf(daily[k])); }
      forall h ensures LineIs(r, h, SumOf(rows, OfKeys(done + {k}, f, first, last, Some(h)))) {
        KeysSplit(rows, done, k, f, first, last, Some(h));
        LineTakes(was, g, h, rows, OfKeys(done, f, first, last, Some(h)), MeasureOf(rows, OfKey(k)), counted);
      }
      todo, done := todo - {k}, done + {k};
    }
    assert done == daily.Keys;
    forall g ensures LineIs(r, g, SumOf(rows, OfReport(f, DayStart(first), DayEnd(last), Some(g)))) {
      AllKeysAreAllRows(rows, daily, f, first, last, Some(g));
    }
  }

  /** The number of rows behind some daily rows. */
  function CountOfKeys(rows: seq<Usage>, keys: set<DailyKey>, f: Filter, first: int, last: int): int {
    SumOf(rows, OfKeys(keys, f, first, last, None)).requestCount
  }

  lemma CountOneMore(rows: seq<Usage>, daily: map<DailyKey, Totals>, keys: set<DailyKey>, k: DailyKey, f: Filter,
                     first: int, last: int)
    requires DailyAgrees(rows, daily) && k in daily && k !in keys
    ensures CountOfKeys(rows, keys + {k}, f, first, last) ==
            CountOfKeys(rows, keys, f, first, last) +
            (if KeyPasses(k, f, first, last, None) then daily[k].requestCount else 0)
  {
    assert EntryAgrees(rows, daily, k);
    KeysSplit(rows, keys, k, f, first, last, None);
  }

  lemma CountOfAll(rows: seq<Usage>, daily: map<DailyKey, Totals>, f: Filter, first: int, last: int)
    requires DailyAgrees(rows, daily)
    ensures CountOfKeys(rows, {}, f, first, last) == 0
    ensures CountOfKeys(rows, daily.Keys, f, first, last) ==
            |Picked(rows, OfReport(f, DayStart(first), DayEnd(last), None))|
  {
    FoldOfNothing(rows, PartsOf(OfKeys({}, f, first, last, None)));
    AllKeysAreAllRows(rows, daily, f, first, last, None);
    CountsRows(rows, OfReport(f, DayStart(first), DayEnd(last), None));
  }

  /** `count_usage` on the daily table is the number of raw rows in those days. */
  method CountDaily(daily: map<DailyKey, Totals>, f: Filter, first: int, last: int, ghost rows: seq<Usage>)
    returns (n: int)
    requires DailyAgrees(rows, daily)
    ensures n == |Picked(rows, OfReport(f, DayStart(first), DayEnd(last), None))|
  {
    n := 0;
    var todo := daily.Keys;
    ghost var done: set<DailyKey> := {};
    CountOfAll(rows, daily, f, first, last);
    while todo != {}
      invariant done !! todo && done + todo == daily.Keys
      invariant n == CountOfKeys(rows, done, f, first, last)
      decreases todo
    {
      var k :| k in todo;
      CountOneMore(rows, daily, done, k, f, first, last);
      if KeyPasses(k, f, first, last, None) { n := n + daily[k].requestCount; }
      todo, done := todo - {k}, done + {k};
    }
    assert done == daily.Keys;
  }

  /** The end of a range as it is written: a moment, and the offset from UTC of its text. */
  datatype Instant = Instant(micros: int, offset: int)

  /** The first ten characters of the text: the date where it was written. */
  function WrittenDate(i: Instant): int { DayOf(i.micros + i.offset) }

  /** `_should_use_daily_table` for a range with both ends. */
  predicate WideEnough(since: Instant, until: Instant) { until.micros - since.micros >= 2 * MICROS_PER_DAY }

  /** `summarize_usage_daily`: raw rows for short ranges, the daily table for long ones, which takes whole UTC days from
      the date written in `since` to the one written in `until`. */
  method Summarize(rows: seq<Usage>, daily: map<DailyKey, Totals>, f: Filter, since: Instant, until: Instant)
    returns (r: Report)
    requires DailyAgrees(rows, daily)
    ensures !WideEnough(since, until) ==> IsReport(r, rows, f, since.micros, until.micros)
    ensures WideEnough(since, until) ==> IsReport(r, rows, f, DayStart(WrittenDate(since)), DayEnd(WrittenDate(until)))
  {
    if WideEnough(since, until) {
      r := SummarizeDaily(daily, f, WrittenDate(since), WrittenDate(until), rows);
    } else {
      r := SummarizeRaw(rows, f, since.micros, until.micros);
    }
  }

  /** The offsets a time can be written with. */
  predicate IsOffset(offset: int) { -MICROS_PER_DAY < offset < MICROS_PER_DAY }

  /** A range that is answered from the daily table starts no later than it ends in its written dates too. */
  lemma WideRangesKeepTheirOrder(since: Instant, until: Instant)
    requires WideEnough(since, until) && IsOffset(since.offset) && IsOffset(until.offset)
    ensures since.micros <= until.micros && WrittenDate(since) <= WrittenDate(until)
  {
  }

  predicate OnlyWidens(since: Instant, until: Instant) {
    DayStart(WrittenDate(since)) <= since.micros <= until.micros <= DayEnd(WrittenDate(until))
  }

  /** Ranges written in UTC are only ever widened. */
  lemma UtcOnlyWidens(since: Instant, until: Instant)
    requires since.offset == 0 && until.offset == 0 && since.micros <= until.micros
    ensures OnlyWidens(since, until)
  {
  }

  /** What the rows of a group add up to over a range. */
  function SumLine(rows: seq<Usage>, f: Filter, since: int, until: int, g: Group): Line {
    LineOf(SumOf(rows, OfReport(f, since, until, Some(g))))
  }

  /** What a path counts for a group beside the range of the other path, at the start and at the end. */
  function Aside(rows: seq<Usage>, f: Filter, first: int, since: int, until: int, last: int, g: Group): Line {
    AddLines(SumLine(rows, f, first, since - 1, g), SumLine(rows, f, until + 1, last, g))
  }

  /** The raw rows of a range and the daily rows of its written dates give the same report exactly when, for every
      group, the rows the daily path adds at the two ends sum to what it leaves out there. */
  lemma PathsAgreeIff(raw: Report, daily: Report, rows: seq<Usage>, f: Filter, since: Instant, until: Instant)
    requires since.micros <= until.micros && WrittenDate(since) <= WrittenDate(until)
    requires IsReport(raw, rows, f, since.micros, until.micros)
    requires IsReport(daily, rows, f, DayStart(WrittenDate(since)), DayEnd(WrittenDate(until)))
    ensures var from, to := DayStart(WrittenDate(since)), DayEnd(WrittenDate(until));
      raw == daily <==> forall g ::
        Aside(rows, f, from, since.micros, until.micros, to, g) ==
        Aside(rows, f, since.micros, from, to, until.micros, g)
  {
    RangesAgreeIff(raw, daily, rows, f, since.micros, until.micros, DayStart(WrittenDate(since)),
      DayEnd(WrittenDate(until)));
  }

  /** Both ranges pick the same rows. */
  predicate SameRows(rows: seq<Usage>, f: Filter, since: int, until: int, from: int, to: int) {
    forall u :: u in rows ==> Selects(OfReport(f, since, until, None), u) == Selects(OfReport(f, from, to, None), u)
  }

  /** It is enough that no matching row lies in one range only. Where one range holds the other, as when a range is
      only widened, this is also necessary, because counts cannot make up for each other. */
  lemma RowsDecide(raw: Report, daily: Report, rows: seq<Usage>, f: Filter, since: Instant, until: Instant)
    requires since.micros <= until.micros
    requires IsReport(raw, rows, f, since.micros, until.micros)
    requires IsReport(daily, rows, f, DayStart(WrittenDate(since)), DayEnd(WrittenDate(until)))
    ensures var from, to := DayStart(WrittenDate(since)), DayEnd(WrittenDate(until));
      (SameRows(rows, f, since.micros, until.micros, from, to) ==> raw == daily) &&
      (OnlyWidens(since, until) || since.micros <= from <= to <= until.micros ==>
        (raw == daily <==> SameRows(rows, f, since.micros, until.micros, from, to)))
  {
    var from, to := DayStart(WrittenDate(since)), DayEnd(WrittenDate(until));
    if SameRows(rows, f, since.micros, until.micros, from, to) {
      SameRowsSameReport(raw, daily, rows, f, since.micros, until.micros, from, to);
    } else if OnlyWidens(since, until) {
      WideningIff(raw, daily, rows, f, from, since.micros, until.micros, to);
    } else if since.micros <= from <= to <= until.micros {
      WideningIff(daily, raw, rows, f, since.micros, from, to, until.micros);
    }
  }

  lemma SameRowsSameReport(raw: Report, daily: Report, rows: seq<Usage>, f: Filter, since: int, until: int, from: int,
                           to: int)
    requires IsReport(raw, rows, f, since, until) && IsReport(daily, rows, f, from, to)
    requires SameRows(rows, f, since, until, from, to)
    ensures raw == daily
  {
    forall g ensures SumLine(rows, f, since, until, g) == SumLine(rows, f, from, to, g) {
      var s, t := OfReport(f, since, until, Some(g)), OfReport(f, from, to, Some(g));
      forall u | u in rows ensures Selects(s, u) == Selects(t, u) {
        assert Selects(OfReport(f, since, until, None), u) == Selects(OfReport(f, from, to, None), u);
      }
      SameSelection(rows, s, t);
    }
    SameLinesSameReport(raw, daily, rows, f, since, until, from, to);
  }

  /** Two reports are the same exactly when all their sums are. */
  lemma SameLinesSameReport(a: Report, b: Report, rows: seq<Usage>, f: Filter, since: int, until: int, from: int,
                            to: int)
    requires IsReport(a, rows, f, since, until) && IsReport(b, rows, f, from, to)
    ensures a == b <==>
      forall g :: SumLine(rows, f, since, until, g) == SumLine(rows, f, from, to, g)
  {
    forall g
      ensures ((g in a <==> g in b) && (g in a && g in b ==> a[g] == b[g])) <==>
        SumLine(rows, f, since, until, g) == SumLine(rows, f, from, to, g)
    {
      var s, t := OfReport(f, since, until, Some(g)), OfReport(f, from, to, Some(g));
      assert LineIs(a, g, SumOf(rows, s)) && LineIs(b, g, SumOf(rows, t));
      if SumOf(rows, s).requestCount <= 0 { NoRowsNothing(rows, s); }
      if SumOf(rows, t).requestCount <= 0 { NoRowsNothing(rows, t); }
    }
  }

  /** The rows between the outermost ends of two ranges are those of one range, and those beside it. */
  lemma OuterRange(rows: seq<Usage>, f: Filter, since: int, until: int, from: int, to: int, g: Group)
    requires since <= until
    ensures SumLine(rows, f, Min(since, from), Max(until, to), g) ==
            AddLines(SumLine(rows, f, since, until, g), Aside(rows, f, from, since, until, to, g))
  {
    var group, first := Some(g), Min(since, from);
    SumSplits(rows, OfReport(f, first, Max(until, to), group), OfReport(f, first, until, group),
              OfReport(f, until + 1, to, group));
    SumSplits(rows, OfReport(f, first, until, group), OfReport(f, since, until, group),
              OfReport(f, from, since - 1, group));
    PlusTotals(MeasureOf(rows, OfReport(f, first, until, group)), MeasureOf(rows, OfReport(f, until + 1, to, group)));
    PlusTotals(MeasureOf(rows, OfReport(f, since, until, group)),
               MeasureOf(rows, OfReport(f, from, since - 1, group)));
    AddShuffles(SumLine(rows, f, since, until, g), SumLine(rows, f, from, since - 1, g),
                SumLine(rows, f, until + 1, to, g));
  }

  lemma AddShuffles(a: Line, b: Line, c: Line)
    ensures AddLines(AddLines(a, b), c) == AddLines(a, AddLines(b, c))
  {
  }

  lemma AddBalances(a: Line, b: Line, x: Line, y: Line)
    requires AddLines(a, x) == AddLines(b, y)
    ensures a == b <==> x == y
  {
  }

  lemma RangesAgreeIff(raw: Report, daily: Report, rows: seq<Usage>, f: Filter, since: int, until: int, from: int,
                       to: int)
    requires since <= until && from <= to
    requires IsReport(raw, rows, f, since, until) && IsReport(daily, rows, f, from, to)
    ensures raw == daily <==>
      forall g :: Aside(rows, f, from, since, until, to, g) == Aside(rows, f, since, from, to, until, g)
  {
    SameLinesSameReport(raw, daily, rows, f, since, until, from, to);
    forall g
      ensures SumLine(rows, f, since, until, g) == SumLine(rows, f, from, to, g) <==>
        Aside(rows, f, from, since, until, to, g) == Aside(rows, f, since, from, to, until, g)
    {
      OuterRange(rows, f, since, until, from, to, g);
      OuterRange(rows, f, from, to, since, until, g);
      AddBalances(SumLine(rows, f, since, until, g), SumLine(rows, f, from, to, g),
                  Aside(rows, f, from, since, until, to, g), Aside(rows, f, since, from, to, until, g));
    }
  }

  lemma WideningIff(raw: Report, daily: Report, rows: seq<Usage>, f: Filter, from: int, since: int, until: int, to: int)
    requires from <= since <= until <= to
    requires IsReport(raw, rows, f, since, until) && IsReport(daily, rows, f, from, to)
    ensures raw == daily <==>
      forall u :: u in rows && Selects(OfReport(f, from, to, None), u) ==> since <= u.ts <= until
  {
    if u :| u in rows && Selects(OfReport(f, from, to, None), u) && !(since <= u.ts <= until) {
      var g := Some(Group(u.provider, u.model));
      WideningCounts(rows, f, from, since, until, to, g);
      CountsRows(rows, OfReport(f, from, since - 1, g));
      CountsRows(rows, OfReport(f, until + 1, to, g));
      CountsRows(rows, OfReport(f, since, until, g));
      assert LineIs(raw, g.value, SumOf(rows, OfReport(f, since, until, g)));
      assert LineIs(daily, g.value, SumOf(rows, OfReport(f, from, to, g)));
    } else {
      forall g ensures LineIs(daily, g, SumOf(rows, OfReport(f, since, until, Some(g)))) {
        forall u | u in rows
          ensures Selects(OfReport(f, from, to, Some(g)), u) == Selects(OfReport(f, since, until, Some(g)), u)
        {
          assert Selects(OfReport(f, from, to, Some(g)), u) ==> Selects(OfReport(f, from, to, None), u);
        }
        SameSelection(rows, OfReport(f, from, to, Some(g)), OfReport(f, since, until, Some(g)));
        assert LineIs(daily, g, SumOf(rows, OfReport(f, from, to, Some(g))));
      }
      ReportIsUnique(raw, daily, rows, f, since, until);
    }
  }

  const ANYTHING := Filter(None, "", "", "")

  /** A range from one microsecond after midnight counts a row of midnight only on the daily path. */
  lemma WidenedRange(u: Usage, raw: Report, daily: Report)
    requires u.ts == 0
    requires IsReport(raw, [u], ANYTHING, 1, 1 + 2 * MICROS_PER_DAY)
    requires IsReport(daily, [u], ANYTHING, DayStart(DayOf(1)), DayEnd(DayOf(1 + 2 * MICROS_PER_DAY)))
    ensures WideEnough(Instant(1, 0), Instant(1 + 2 * MICROS_PER_DAY, 0)) && raw != daily
  {
    assert u in [u] && Selects(OfReport(ANYTHING, 0, DayEnd(2), None), u);
    WideningIff(raw, daily, [u], ANYTHING, 0, 1, 1 + 2 * MICROS_PER_DAY, DayEnd(2));
  }

  /** A range written with an offset of two hours starts an hour before midnight UTC under the next date: a row of that
      hour is counted on the raw path only. */
  lemma OffsetShiftsTheDate(u: Usage, raw: Report, daily: Report)
    requires u.ts == -3_600_000_000
    requires IsReport(raw, [u], ANYTHING, -3_600_000_000, 3 * MICROS_PER_DAY)
    requires IsReport(daily, [u], ANYTHING, DayStart(WrittenDate(Instant(-3_600_000_000, 7_200_000_000))), DayEnd(3))
    ensures Group(u.provider, u.model) in raw && Group(u.provider, u.model) !in daily
  {
    var g := Group(u.provider, u.model);
    CountsRows([u], OfReport(ANYTHING, -3_600_000_000, 3 * MICROS_PER_DAY, Some(g)));
    CountsRows([u], OfReport(ANYTHING, 0, DayEnd(3), Some(g)));
    assert u in [u] && Selects(OfReport(ANYTHING, -3_600_000_000, 3 * MICROS_PER_DAY, Some(g)), u);
    assert LineIs(raw, g, SumOf([u], OfReport(ANYTHING, -3_600_000_000, 3 * MICROS_PER_DAY, Some(g))));
    assert LineIs(daily, g, SumOf([u], OfReport(ANYTHING, 0, DayEnd(3), Some(g))));
  }

  lemma WideningCounts(rows: seq<Usage>, f: Filter, from: int, since: int, until: int, to: int, g: Option<Group>)
    requires from <= since <= until <= to
    ensures SumOf(rows, OfReport(f, from, to, g)).requestCount ==
            SumOf(rows, OfReport(f, since, until, g)).requestCount +
            SumOf(rows, OfReport(f, from, since - 1, g)).requestCount +
            SumOf(rows, OfReport(f, until + 1, to, g)).requestCount
  {
    SumSplits(rows, OfReport(f, from, to, g), OfReport(f, from, until, g), OfReport(f, until + 1, to, g));
    SumSplits(rows, OfReport(f, from, until, g), OfReport(f, since, until, g), OfReport(f, from, since - 1, g));
  }
}
