/** Model rates, tiers and time-of-day windows (src/pricing/models.py, src/pricing/costs.py).
    Prices and money are exact reals, timestamps are integer microseconds. */
module Rates {
  import opened Basics

  /** Prices for a token count in [minTokens, maxTokens). */
  datatype Tier = Tier(
    minTokens: int, maxTokens: Option<int>,
    input: real, output: real, cacheRead: real, cacheWrite: Option<real>)

  /** A time-of-day window with its own rates; `days` None means every day. */
  datatype TimeRate = TimeRate(days: Option<set<int>>, startMinute: int, endMinute: int, cost: ModelCost)

  datatype ModelCost = ModelCost(
    input: real, output: real, cacheRead: real, cacheWrite: Option<real>,
    tiers: seq<Tier>, timeRates: seq<TimeRate>)

  const MINUTES_PER_DAY := 1440
  const MICROS_PER_DAY := 86_400_000_000

  const FREE := ModelCost(0.0, 0.0, 0.0, None, [], [])

  function RealOrZero(o: Option<real>): real {
    match o
    case None => 0.0
    case Some(x) => x
  }

  // ---------------------------------------------------------------- tiers

  /** The tier the selection loop settles on, scanning `tiers` from position `i` with `chosen` so far. */
  function TierFrom(tiers: seq<Tier>, tokens: int, i: nat, chosen: Tier): Tier
    requires i <= |tiers|
    decreases |tiers| - i
  {
    if i == |tiers| || tokens < tiers[i].minTokens then chosen
    else if tiers[i].maxTokens.None? || tokens < tiers[i].maxTokens.value then tiers[i]
    else TierFrom(tiers, tokens, i + 1, tiers[i])
  }

  function TierFor(tiers: seq<Tier>, tokens: int): Tier
    requires tiers != []
  {
    TierFrom(tiers, tokens, 0, tiers[0])
  }

  /** `_select_tier`: the loop with its two early exits. */
  method SelectTier(tiers: seq<Tier>, tokens: int) returns (chosen: Tier)
    requires tiers != []
    ensures chosen == TierFor(tiers, tokens)
  {
    chosen := tiers[0];
    var i := 0;
    while i < |tiers|
      invariant 0 <= i <= |tiers|
      invariant TierFor(tiers, tokens) == TierFrom(tiers, tokens, i, chosen)
    {
      if tokens < tiers[i].minTokens {
        return;
      }
      chosen := tiers[i];
      if tiers[i].maxTokens.None? || tokens < tiers[i].maxTokens.value {
        return;
      }
      i := i + 1;
    }
  }

  /** Tiers in increasing order of start, each ending (if at all) no later than the next one starts;
      only the last may be open-ended. */
  predicate OrderedTiers(tiers: seq<Tier>) {
    forall i :: 0 <= i < |tiers| - 1 ==>
      tiers[i].maxTokens.Some? &&
      tiers[i].minTokens < tiers[i].maxTokens.value <= tiers[i + 1].minTokens
  }

  /** Position `k` holds the last tier starting at or below `tokens`. */
  predicate LastStartingAtOrBelow(tiers: seq<Tier>, tokens: int, k: nat) {
    k < |tiers| && tiers[k].minTokens <= tokens &&
    forall j :: k < j < |tiers| ==> tokens < tiers[j].minTokens
  }

  lemma {:induction false} OrderedStarts(tiers: seq<Tier>, i: nat, j: nat)
    requires OrderedTiers(tiers) && i < j < |tiers|
    ensures tiers[i].maxTokens.Some? && tiers[i].minTokens < tiers[i].maxTokens.value <= tiers[j].minTokens
    decreases j - i
  {
    if i + 1 < j { OrderedStarts(tiers, i + 1, j); }
  }

  lemma {:induction false} TierFromFindsLast(tiers: seq<Tier>, tokens: int, i: nat, chosen: Tier)
    requires OrderedTiers(tiers) && i <= |tiers|
    ensures var r := TierFrom(tiers, tokens, i, chosen);
      (exists k: nat :: i <= k && LastStartingAtOrBelow(tiers, tokens, k) && r == tiers[k])
      || (r == chosen && forall j :: i <= j < |tiers| ==> tokens < tiers[j].minTokens)
    decreases |tiers| - i
  {
    if i == |tiers| {
    } else if tokens < tiers[i].minTokens {
      forall j | i < j < |tiers| ensures tokens < tiers[j].minTokens { OrderedStarts(tiers, i, j); }
    } else if tiers[i].maxTokens.None? || tokens < tiers[i].maxTokens.value {
      forall j | i < j < |tiers| ensures tokens < tiers[j].minTokens { OrderedStarts(tiers, i, j); }
      assert LastStartingAtOrBelow(tiers, tokens, i);
    } else {
      TierFromFindsLast(tiers, tokens, i + 1, tiers[i]);
      var r := TierFrom(tiers, tokens, i + 1, tiers[i]);
      if !(exists k: nat :: i + 1 <= k && LastStartingAtOrBelow(tiers, tokens, k) && r == tiers[k]) {
        assert LastStartingAtOrBelow(tiers, tokens, i);
      }
    }
  }

  /** On ordered tiers the loop picks the last tier that starts at or below the token count, and the
      first tier exactly when every tier starts above it. A gap between two tiers is billed at the
      tier before the gap, and counts beyond a closed last tier at that last tier. */
  lemma TierIsLastStartingAtOrBelow(tiers: seq<Tier>, tokens: int)
    requires tiers != [] && OrderedTiers(tiers)
    ensures tokens < tiers[0].minTokens ==> TierFor(tiers, tokens) == tiers[0]
    ensures tiers[0].minTokens <= tokens ==>
      exists k: nat :: LastStartingAtOrBelow(tiers, tokens, k) && TierFor(tiers, tokens) == tiers[k]
  {
    TierFromFindsLast(tiers, tokens, 0, tiers[0]);
    if tokens < tiers[0].minTokens {
      forall j | 0 < j < |tiers| ensures tokens < tiers[j].minTokens { OrderedStarts(tiers, 0, j); }
    }
  }

  /** `_tier_prices`: the flat prices that apply to a token count. */
  function TierPrices(cost: ModelCost, tokens: int): ModelCost {
    if cost.tiers == [] then cost
    else
      var t := TierFor(cost.tiers, tokens);
      ModelCost(t.input, t.output, t.cacheRead,
                if t.cacheWrite.Some? then t.cacheWrite else cost.cacheWrite, [], [])
  }

  // ---------------------------------------------------------------- time-of-day windows

  /** `_window_matches`: the window test as written, with an end of 0 read as 24:00. */
  predicate WindowMatches(rate: TimeRate, weekday: int, minute: int) {
    if rate.days.Some? && weekday !in rate.days.value then false
    else
      var end := if rate.endMinute == 0 && rate.startMinute != 0 then MINUTES_PER_DAY else rate.endMinute;
      if end > rate.startMinute then rate.startMinute <= minute < end
      else minute >= rate.startMinute || minute < rate.endMinute
  }

  /** A window is an arc of the 24-hour circle: going forward from its start, the minute is reached
      before the end. One formula covers plain, wrapping and end-of-day windows. */
  lemma WindowIsArc(rate: TimeRate, weekday: int, minute: int)
    requires 0 <= rate.startMinute < MINUTES_PER_DAY && 0 <= rate.endMinute < MINUTES_PER_DAY
    requires rate.startMinute != rate.endMinute
    requires 0 <= minute < MINUTES_PER_DAY
    ensures WindowMatches(rate, weekday, minute) <==>
      (rate.days.Some? ==> weekday in rate.days.value) &&
      (minute - rate.startMinute) % MINUTES_PER_DAY < (rate.endMinute - rate.startMinute) % MINUTES_PER_DAY
  {
    ModIsWrap(minute - rate.startMinute);
    ModIsWrap(rate.endMinute - rate.startMinute);
  }

  lemma ModIsWrap(d: int)
    requires -MINUTES_PER_DAY < d < MINUTES_PER_DAY
    ensures d % MINUTES_PER_DAY == if d < 0 then d + MINUTES_PER_DAY else d
  {
    if d < 0 { assert d == (-1) * MINUTES_PER_DAY + (d + MINUTES_PER_DAY); }
  }

  /** The UTC date of a timestamp, as a day number since 1970-01-01. */
  function DayOf(tsMicros: int): int { tsMicros / MICROS_PER_DAY }

  function MinuteOf(tsMicros: int): int { (tsMicros / 1_000_000) % 86_400 / 60 }

  /** Monday is 0; day 0 of the epoch was a Thursday. */
  function WeekdayOf(tsMicros: int): int { ((tsMicros / 1_000_000) / 86_400 + 3) % 7 }

  predicate MatchesAt(rates: seq<TimeRate>, i: nat, tsMicros: int) {
    i < |rates| && WindowMatches(rates[i], WeekdayOf(tsMicros), MinuteOf(tsMicros))
  }

  /** The last matching window among the first `n`, if any. */
  function LastMatch(rates: seq<TimeRate>, tsMicros: int, n: nat): (r: Option<nat>)
    requires n <= |rates|
    ensures r.Some? ==> r.value < n && MatchesAt(rates, r.value, tsMicros)
    ensures r.Some? ==> forall j :: r.value < j < n ==> !MatchesAt(rates, j, tsMicros)
    ensures r.None? ==> forall j :: 0 <= j < n ==> !MatchesAt(rates, j, tsMicros)
  {
    if n == 0 then None
    else if MatchesAt(rates, n - 1, tsMicros) then Some(n - 1)
    else LastMatch(rates, tsMicros, n - 1)
  }

  function EffectiveCost(cost: ModelCost, tsMicros: int): ModelCost {
    if cost.timeRates == [] then cost
    else
      match LastMatch(cost.timeRates, tsMicros, |cost.timeRates|)
      case None => cost.(timeRates := [])
      case Some(k) => cost.timeRates[k].cost.(timeRates := [])
  }

  /** `resolve_effective_cost`: the loop over the windows that keeps the last match. The result carries
      no windows, and it is the base rates exactly when no window holds the timestamp. */
  method ResolveEffectiveCost(cost: ModelCost, tsMicros: int) returns (r: ModelCost)
    ensures r == EffectiveCost(cost, tsMicros)
    ensures r.timeRates == []
    ensures forall k: nat ::
              (MatchesAt(cost.timeRates, k, tsMicros) &&
               forall j :: k < j < |cost.timeRates| ==> !MatchesAt(cost.timeRates, j, tsMicros))
              ==> r == cost.timeRates[k].cost.(timeRates := [])
    ensures (forall k: nat :: !MatchesAt(cost.timeRates, k, tsMicros)) ==> r == cost.(timeRates := [])
  {
    if cost.timeRates == [] {
      return cost;
    }
    var matched: Option<nat> := None;
    for i := 0 to |cost.timeRates|
      invariant matched == LastMatch(cost.timeRates, tsMicros, i)
    {
      if WindowMatches(cost.timeRates[i], WeekdayOf(tsMicros), MinuteOf(tsMicros)) {
        matched := Some(i);
      }
    }
    r := if matched.None? then cost.(timeRates := []) else cost.timeRates[matched.value].cost.(timeRates := []);
  }

  // ---------------------------------------------------------------- costs of one request

  datatype InputSplit = InputSplit(normal: real, cacheRead: real, cacheWrite: real)

  datatype Costs = Costs(input: real, output: real, total: real)

  /** The four token counts a price depends on. */
  datatype Tokens = Tokens(prompt: Option<int>, completion: Option<int>, cached: Option<int>,
    cacheCreation: Option<int>)

  function Uncached(t: Tokens): int { Max(OrZero(t.prompt) - OrZero(t.cached), 0) }

  /** Total input tokens: what tier selection looks at. */
  function ContextTokens(t: Tokens): int {
    Uncached(t) + OrZero(t.cached) + OrZero(t.cacheCreation)
  }

  /** The price of `count` tokens at a per-million rate. */
  function Price(count: int, rate: real): real { count as real * rate / 1_000_000.0 }

  function SplitAt(t: Tokens, e: ModelCost): InputSplit {
    InputSplit(Price(Uncached(t), e.input),
               Price(OrZero(t.cached), e.cacheRead),
               Price(OrZero(t.cacheCreation), RealOrZero(e.cacheWrite)))
  }

  /** `compute_input_split`. */
  function SplitInput(t: Tokens, cost: ModelCost): InputSplit { SplitAt(t, TierPrices(cost, ContextTokens(t))) }

  /** `calculate_costs` for a known model cost. */
  function CalculateCosts(t: Tokens, cost: ModelCost): Costs {
    var s := SplitInput(t, cost);
    var input := s.normal + s.cacheRead + s.cacheWrite;
    var output := Price(OrZero(t.completion), TierPrices(cost, ContextTokens(t)).output);
    Costs(input, output, input + output)
  }

  // ---------------------------------------------------------------- what a request is charged

  /** The four prices of one million tokens. */
  datatype Prices = Prices(input: real, output: real, cacheRead: real, cacheWrite: real)

  /** Tier `k` holds the count: the last one to start at or below it, or the first if all start above it. */
  predicate IsTierFor(tiers: seq<Tier>, tokens: int, k: nat) {
    LastStartingAtOrBelow(tiers, tokens, k) || (k == 0 && tiers != [] && tokens < tiers[0].minTokens)
  }

  /** The prices for a token count: the flat ones, or those of the tier that holds the count. A tier without a
      cache-write price takes the flat one. */
  predicate PricesFor(cost: ModelCost, tokens: int, p: Prices) {
    if cost.tiers == [] then
      p.input == cost.input && p.output == cost.output && p.cacheRead == cost.cacheRead &&
      p.cacheWrite == (if cost.cacheWrite.Some? then cost.cacheWrite.value else 0.0)
    else
      exists k: nat :: k < |cost.tiers| && IsTierFor(cost.tiers, tokens, k) && PricesOfTier(cost, k, p)
  }

  predicate PricesOfTier(cost: ModelCost, k: nat, p: Prices)
    requires k < |cost.tiers|
  {
    var t := cost.tiers[k];
    p.input == t.input && p.output == t.output && p.cacheRead == t.cacheRead &&
    p.cacheWrite == (if t.cacheWrite.Some? then t.cacheWrite.value
                     else if cost.cacheWrite.Some? then cost.cacheWrite.value else 0.0)
  }

  function Count(o: Option<int>): int { if o.Some? then o.value else 0 }

  /** The prompt tokens that were not read from the cache; `prompt` includes the cached ones. */
  function Missed(t: Tokens): int {
    if Count(t.prompt) > Count(t.cached) then Count(t.prompt) - Count(t.cached) else 0
  }

  /** What counts cost at these prices: cache misses, cache reads and cache writes, each at its own price, and the
      completion. */
  function ChargeOf(missed: int, cached: int, created: int, completion: int, p: Prices): Costs {
    var input := missed as real * p.input / 1_000_000.0 + cached as real * p.cacheRead / 1_000_000.0 +
      created as real * p.cacheWrite / 1_000_000.0;
    var output := completion as real * p.output / 1_000_000.0;
    Costs(input, output, input + output)
  }

  /** The charge of a request's token counts. */
  function ChargeFor(t: Tokens, p: Prices): Costs {
    ChargeOf(Missed(t), Count(t.cached), Count(t.cacheCreation), Count(t.completion), p)
  }

  /** The input tokens that select the tier. */
  function InputCount(t: Tokens): int { Max(Count(t.prompt), Count(t.cached)) + Count(t.cacheCreation) }

  lemma PricesAreTheTiers(cost: ModelCost, tokens: int, p: Prices)
    requires OrderedTiers(cost.tiers) && PricesFor(cost, tokens, p)
    ensures var e := TierPrices(cost, tokens);
      p == Prices(e.input, e.output, e.cacheRead, RealOrZero(e.cacheWrite))
  {
    if cost.tiers != [] {
      var k: nat :| k < |cost.tiers| && IsTierFor(cost.tiers, tokens, k) && PricesOfTier(cost, k, p);
      TierIsLastStartingAtOrBelow(cost.tiers, tokens);
      if cost.tiers[0].minTokens <= tokens {
        var j: nat :| LastStartingAtOrBelow(cost.tiers, tokens, j) && TierFor(cost.tiers, tokens) == cost.tiers[j];
        assert LastStartingAtOrBelow(cost.tiers, tokens, k);
        assert j == k;
      } else if LastStartingAtOrBelow(cost.tiers, tokens, k) && k > 0 {
        OrderedStarts(cost.tiers, 0, k);
      }
    }
  }

  /** There are such prices for every count. */
  lemma SomePricesApply(cost: ModelCost, tokens: int) returns (p: Prices)
    requires OrderedTiers(cost.tiers)
    ensures PricesFor(cost, tokens, p)
  {
    if cost.tiers == [] {
      p := Prices(cost.input, cost.output, cost.cacheRead, RealOrZero(cost.cacheWrite));
    } else {
      TierIsLastStartingAtOrBelow(cost.tiers, tokens);
      var k: nat := 0;
      if cost.tiers[0].minTokens <= tokens { k :| LastStartingAtOrBelow(cost.tiers, tokens, k); }
      var t := cost.tiers[k];
      p := Prices(t.input, t.output, t.cacheRead,
                  RealOrZero(if t.cacheWrite.Some? then t.cacheWrite else cost.cacheWrite));
      assert IsTierFor(cost.tiers, tokens, k) && PricesOfTier(cost, k, p);
    }
  }

  /** The parts of a charge, each count at its own price. */
  predicate IsSplit(s: InputSplit, output: real, t: Tokens, p: Prices) {
    s.normal == Missed(t) as real * p.input / 1_000_000.0 &&
    s.cacheRead == Count(t.cached) as real * p.cacheRead / 1_000_000.0 &&
    s.cacheWrite == Count(t.cacheCreation) as real * p.cacheWrite / 1_000_000.0 &&
    output == Count(t.completion) as real * p.output / 1_000_000.0
  }

  lemma PartsAreThePrices(t: Tokens, cost: ModelCost, p: Prices)
    requires OrderedTiers(cost.tiers) && PricesFor(cost, InputCount(t), p)
    ensures IsSplit(SplitInput(t, cost), CalculateCosts(t, cost).output, t, p)
  {
    ContextIsInputCount(t);
    PricesAreTheTiers(cost, InputCount(t), p);
    EachAtItsPrice(t, TierPrices(cost, InputCount(t)), p);
  }

  lemma ContextIsInputCount(t: Tokens)
    ensures ContextTokens(t) == InputCount(t)
  {
  }

  lemma EachAtItsPrice(t: Tokens, e: ModelCost, p: Prices)
    requires p == Prices(e.input, e.output, e.cacheRead, RealOrZero(e.cacheWrite))
    ensures IsSplit(SplitAt(t, e), Price(OrZero(t.completion), e.output), t, p)
  {
    assert Uncached(t) == Missed(t);
  }

  predicate AddsUp(c: Costs, s: InputSplit) {
    c.input == s.normal + s.cacheRead + s.cacheWrite && c.total == c.input + c.output
  }

  lemma PartsMakeTheCharge(c: Costs, s: InputSplit, t: Tokens, p: Prices)
    requires IsSplit(s, c.output, t, p) && AddsUp(c, s)
    ensures c == ChargeFor(t, p)
  {
  }

  lemma CostsAddUp(t: Tokens, cost: ModelCost)
    ensures AddsUp(CalculateCosts(t, cost), SplitInput(t, cost))
  {
  }

  /** A request is charged, count by count, at the prices of the tier its input tokens fall in. */
  lemma RequestIsChargedAtItsPrices(t: Tokens, cost: ModelCost, p: Prices)
    requires OrderedTiers(cost.tiers) && PricesFor(cost, InputCount(t), p)
    ensures CalculateCosts(t, cost) == ChargeFor(t, p)
  {
    PartsAreThePrices(t, cost, p);
    CostsAddUp(t, cost);
    PartsMakeTheCharge(CalculateCosts(t, cost), SplitInput(t, cost), t, p);
  }

  // ---------------------------------------------------------------- the clock

  /** A time of day is read off the microseconds since the epoch: day, hour, minute, second, and the rest. */
  function AtTime(day: int, hour: int, minute: int, second: int, micros: int): int {
    ((((day * 24 + hour) * 60 + minute) * 60) + second) * 1_000_000 + micros
  }

  lemma ClockReadsTime(day: int, hour: int, minute: int, second: int, micros: int)
    requires 0 <= hour < 24 && 0 <= minute < 60 && 0 <= second < 60 && 0 <= micros < 1_000_000
    ensures var ts := AtTime(day, hour, minute, second, micros);
      DayOf(ts) == day && MinuteOf(ts) == hour * 60 + minute && WeekdayOf(ts) == (day + 3) % 7
  {
    var ts, inDay := AtTime(day, hour, minute, second, micros), (hour * 60 + minute) * 60 + second;
    assert ts == (day * 86_400 + inDay) * 1_000_000 + micros;
    assert ts / 1_000_000 == day * 86_400 + inDay;
    assert ts == day * MICROS_PER_DAY + (inDay * 1_000_000 + micros);
    assert (day * 86_400 + inDay) / 86_400 == day && (day * 86_400 + inDay) % 86_400 == inDay;
  }

  /** 1 January 2024, day 19723, was a Monday; each day the weekday moves on by one. */
  lemma WeekdaysGoRound(ts: int)
    ensures WeekdayOf(AtTime(19_723, 0, 0, 0, 0)) == 0
    ensures WeekdayOf(ts + MICROS_PER_DAY) == (WeekdayOf(ts) + 1) % 7 && 0 <= WeekdayOf(ts) < 7
  {
    ClockReadsTime(19_723, 0, 0, 0, 0);
    var n := ts / 1_000_000;
    assert (ts + MICROS_PER_DAY) / 1_000_000 == n + 86_400;
    NextDay(n);
    NextWeekday(n / 86_400 + 3);
  }

  lemma NextDay(n: int)
    ensures (n + 86_400) / 86_400 == n / 86_400 + 1
  {
  }

  lemma NextWeekday(d: int)
    ensures (d + 1) % 7 == (d % 7 + 1) % 7 && 0 <= d % 7 < 7
  {
  }
}
