/** Content-addressed price snapshots and the replay of a row's cost (src/pricing/snapshots.py). */
module Snapshots {
  import opened Basics
  import opened Rates
  import opened UsageRows
  import opened PriceMaps

  /** The serialised rate set. Its SHA-256 digest is taken to be injective, so the payload is its own hash. */
  datatype Payload = Payload(input: real, output: real, cacheRead: real, cacheWrite: Option<real>, tiers: seq<Tier>)

  function SerializeRates(cost: ModelCost): Payload {
    Payload(cost.input, cost.output, cost.cacheRead, cost.cacheWrite, cost.tiers)
  }

  function ParseRates(p: Payload): ModelCost {
    ModelCost(p.input, p.output, p.cacheRead, p.cacheWrite, p.tiers, [])
  }

  datatype Snapshot = Snapshot(day: int, model: string, source: string, rates: Payload)

  /** The unique index over (date, model, source, rates_hash). */
  predicate Distinct(snapshots: seq<Snapshot>) {
    forall i, j :: 0 <= i < j < |snapshots| ==> snapshots[i] != snapshots[j]
  }

  /** `ensure_price_snapshot`: insert unless present, then read back the id (here the position).
      Snapshots already there are never changed. */
  method EnsureSnapshot(snapshots: seq<Snapshot>, s: Snapshot) returns (after: seq<Snapshot>, id: nat)
    requires Distinct(snapshots)
    ensures Distinct(after) && snapshots <= after
    ensures id < |after| && after[id] == s
    ensures s in snapshots ==> after == snapshots
    ensures s !in snapshots ==> after == snapshots + [s]
  {
    id := 0;
    while id < |snapshots| && snapshots[id] != s
      invariant 0 <= id <= |snapshots|
      invariant s !in snapshots[..id]
    {
      id := id + 1;
    }
    after := if id < |snapshots| then snapshots else snapshots + [s];
    assert snapshots[..|snapshots|] == snapshots;
  }

  /** The row is bound to the snapshot of its own day and model, and was charged at its rates. */
  predicate BoundTo(u: Usage, s: Snapshot) {
    s.day == DayOf(u.ts) && s.model == u.model && u.costs == CalculateCosts(u.tokens, ParseRates(s.rates))
  }

  predicate Replays(u: Usage, snapshots: seq<Snapshot>) {
    u.snapshotId.Some? ==> u.snapshotId.value < |snapshots| && BoundTo(u, snapshots[u.snapshotId.value])
  }

  /** What the read path shows for a row. */
  datatype Detail = Detail(split: InputSplit, shown: ModelCost, tier: Option<Tier>, estimated: bool)

  /** `_split` and `build_pricing_detail` from one set of rates. */
  function DetailAt(u: Usage, cost: ModelCost, estimated: bool): Detail {
    var n := ContextTokens(u.tokens);
    Detail(SplitInput(u.tokens, cost), TierPrices(cost, n),
           if cost.tiers == [] then None else Some(TierFor(cost.tiers, n)), estimated)
  }

  predicate ShowsTier(d: Detail, tiers: seq<Tier>, tokens: int, k: nat) {
    k < |tiers| && IsTierFor(tiers, tokens, k) && d.tier == Some(tiers[k])
  }

  /** The rates shown are the prices that hold for the row. */
  lemma DetailShowsThePrices(u: Usage, cost: ModelCost, estimated: bool, p: Prices)
    requires OrderedTiers(cost.tiers) && PricesFor(cost, InputCount(u.tokens), p)
    ensures var d := DetailAt(u, cost, estimated);
      d.shown.input == p.input && d.shown.output == p.output && d.shown.cacheRead == p.cacheRead &&
      (if d.shown.cacheWrite.Some? then d.shown.cacheWrite.value else 0.0) == p.cacheWrite &&
      d.estimated == estimated
  {
    ContextIsInputCount(u.tokens);
    PricesAreTheTiers(cost, InputCount(u.tokens), p);
  }

  /** The input cost is split into the counts that were charged, each at its price. */
  lemma DetailSplitsTheCharge(u: Usage, cost: ModelCost, estimated: bool, p: Prices)
    requires OrderedTiers(cost.tiers) && PricesFor(cost, InputCount(u.tokens), p)
    ensures IsSplit(DetailAt(u, cost, estimated).split, CalculateCosts(u.tokens, cost).output, u.tokens, p)
  {
    PartsAreThePrices(u.tokens, cost, p);
  }

  /** And the tier shown is the one that holds its input tokens. */
  lemma DetailShowsTheTier(u: Usage, cost: ModelCost, estimated: bool)
    requires OrderedTiers(cost.tiers)
    ensures var d := DetailAt(u, cost, estimated);
      (d.tier.None? <==> cost.tiers == []) &&
      (d.tier.Some? ==> exists k: nat :: ShowsTier(d, cost.tiers, InputCount(u.tokens), k))
  {
    if cost.tiers != [] {
      var n := InputCount(u.tokens);
      ContextIsInputCount(u.tokens);
      TierIsLastStartingAtOrBelow(cost.tiers, n);
      var k: nat := 0;
      if cost.tiers[0].minTokens <= n {
        k :| LastStartingAtOrBelow(cost.tiers, n, k) && TierFor(cost.tiers, n) == cost.tiers[k];
      }
      assert ShowsTier(DetailAt(u, cost, estimated), cost.tiers, n, k);
    }
  }

  /** The newest snapshot of a day and model; snapshots are recorded in the order of their ids. */
  function NewestFor(snapshots: seq<Snapshot>, day: int, model: string): (r: Option<nat>)
    ensures r.Some? ==> r.value < |snapshots| && snapshots[r.value].day == day && snapshots[r.value].model == model
    ensures forall i :: 0 <= i < |snapshots| && snapshots[i].day == day && snapshots[i].model == model ==>
      r.Some? && i <= r.value
  {
    if snapshots == [] then None
    else
      var last := |snapshots| - 1;
      if snapshots[last].day == day && snapshots[last].model == model then Some(last)
      else NewestFor(snapshots[..last], day, model)
  }

  /** `_resolve_row_rates`: the bound snapshot; else the newest one of the row's day and model, else the current
      price, both as estimates; nothing for a row without a model or a price. */
  function RowRates(u: Usage, snapshots: seq<Snapshot>, costs: Dict): Option<(ModelCost, bool)> {
    if u.model == "" then None
    else if u.snapshotId.Some? && u.snapshotId.value < |snapshots| then
      Some((ParseRates(snapshots[u.snapshotId.value].rates), false))
    else
      var newest := NewestFor(snapshots, DayOf(u.ts), u.model);
      if newest.Some? then Some((ParseRates(snapshots[newest.value].rates), true))
      else
        var current := MatchOf(costs, u.model);
        if current.Some? then Some((current.value.cost, true)) else None
  }

  function Shown(u: Usage, snapshots: seq<Snapshot>, costs: Dict): Option<Detail> {
    var rates := RowRates(u, snapshots, costs);
    if rates.Some? then Some(DetailAt(u, rates.value.0, rates.value.1)) else None
  }

  lemma RowIsShown(u: Usage, snapshots: seq<Snapshot>, costs: Dict)
    requires Replays(u, snapshots)
    ensures IsShownAs(u, Shown(u, snapshots, costs), snapshots, costs)
  {
    if u.snapshotId.Some? && u.model != "" { ReplayShowsCharge(u, snapshots[u.snapshotId.value]); }
  }

  /** `enrich_rows`. Every bound row is shown with its own charge; an unbound one as an estimate, at the newest rates
      there are for its day and model, or the current ones; a row without a model, or without any rates, bare. */
  method EnrichRows(rows: seq<Usage>, snapshots: seq<Snapshot>, costs: Dict) returns (result: seq<Option<Detail>>)
    requires forall u :: u in rows ==> Replays(u, snapshots)
    ensures |result| == |rows| && forall i :: 0 <= i < |rows| ==> IsShownAs(rows[i], result[i], snapshots, costs)
  {
    result := [];
    for n := 0 to |rows|
      invariant |result| == n
      invariant forall i :: 0 <= i < n ==> IsShownAs(rows[i], result[i], snapshots, costs)
    {
      RowIsShown(rows[n], snapshots, costs);
      result := result + [Shown(rows[n], snapshots, costs)];
    }
  }

  /** A bound row is shown with its charge and not as an estimate, any other as its estimate. */
  predicate IsShownAs(u: Usage, d: Option<Detail>, snapshots: seq<Snapshot>, costs: Dict) {
    if u.snapshotId.Some? && u.model != "" then d.Some? && !d.value.estimated && ShowsCharge(u, d.value)
    else IsEstimate(u, d, snapshots, costs)
  }

  predicate IsEstimate(u: Usage, d: Option<Detail>, snapshots: seq<Snapshot>, costs: Dict) {
    var newest, current := NewestFor(snapshots, DayOf(u.ts), u.model), MatchOf(costs, u.model);
    if u.model == "" then d == None
    else if newest.Some? then d == Some(DetailAt(u, ParseRates(snapshots[newest.value].rates), true))
    else if current.Some? then d == Some(DetailAt(u, current.value.cost, true))
    else d == None
  }

  /** The three shown input parts add up to the stored input cost, the shown output rate times the
      completion tokens is the stored output cost, and the two make the stored total. */
  predicate ShowsCharge(u: Usage, d: Detail) {
    d.split.normal + d.split.cacheRead + d.split.cacheWrite == u.costs.input &&
    Price(OrZero(u.tokens.completion), d.shown.output) == u.costs.output &&
    d.split.normal == Price(Uncached(u.tokens), d.shown.input) &&
    d.split.cacheRead == Price(OrZero(u.tokens.cached), d.shown.cacheRead) &&
    d.split.cacheWrite == Price(OrZero(u.tokens.cacheCreation), RealOrZero(d.shown.cacheWrite)) &&
    u.costs.total == u.costs.input + u.costs.output
  }

  lemma ReplayShowsCharge(u: Usage, s: Snapshot)
    requires BoundTo(u, s)
    ensures ShowsCharge(u, DetailAt(u, ParseRates(s.rates), false))
  {
  }

  /** Storing rates and reading them back prices every request as before, and two rate sets share a
      payload only when they price every request alike. */
  lemma PayloadRoundTrip(a: ModelCost, b: ModelCost, t: Tokens)
    ensures ParseRates(SerializeRates(a)) == a.(timeRates := [])
    ensures CalculateCosts(t, ParseRates(SerializeRates(a))) == CalculateCosts(t, a)
    ensures SerializeRates(a) == SerializeRates(b) ==> CalculateCosts(t, a) == CalculateCosts(t, b)
  {
    var a' := ParseRates(SerializeRates(a));
    assert TierPrices(a', ContextTokens(t)).(timeRates := []) == TierPrices(a, ContextTokens(t)).(timeRates := []);
    var b' := ParseRates(SerializeRates(b));
    assert TierPrices(b', ContextTokens(t)).(timeRates := []) == TierPrices(b, ContextTokens(t)).(timeRates := []);
  }
}
