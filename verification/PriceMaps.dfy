/** Layered price sources and the lookup by trailing path segment
    (src/pricing/maps.py, src/pricing/models.py, src/pricing/costs.py). */
module PriceMaps {
  import opened Basics
  import opened Rates

  /** A dict entry; a dict is the sequence of its entries in insertion order. */
  datatype Entry = Entry(key: string, cost: ModelCost, source: string)

  type Dict = seq<Entry>

  /** Position of a key, the first if it were repeated. */
  function Position(d: Dict, key: string): (r: Option<nat>)
    ensures r.Some? ==> r.value < |d| && d[r.value].key == key && forall j :: 0 <= j < r.value ==> d[j].key != key
    ensures r.None? ==> forall j :: 0 <= j < |d| ==> d[j].key != key
  {
    PositionBelow(d, key, |d|)
  }

  function PositionBelow(d: Dict, key: string, n: nat): (r: Option<nat>)
    requires n <= |d|
    ensures r.Some? ==> r.value < n && d[r.value].key == key && forall j :: 0 <= j < r.value ==> d[j].key != key
    ensures r.None? ==> forall j :: 0 <= j < n ==> d[j].key != key
  {
    if n == 0 then None
    else
      var r := PositionBelow(d, key, n - 1);
      if r.Some? then r else if d[n - 1].key == key then Some(n - 1) else None
  }

  predicate DistinctKeys(d: Dict) {
    forall i, j :: 0 <= i < j < |d| ==> d[i].key != d[j].key
  }

  function Lookup(d: Dict, key: string): Option<Entry> {
    var p := Position(d, key);
    if p.Some? then Some(d[p.value]) else None
  }

  /** `d[key] = value`: keeps the key's place, or appends a new key. */
  function Put(d: Dict, e: Entry): Dict {
    var p := Position(d, e.key);
    if p.Some? then d[p.value := e] else d + [e]
  }

  lemma PutLooksUp(d: Dict, e: Entry)
    requires DistinctKeys(d)
    ensures DistinctKeys(Put(d, e))
    ensures forall k :: Lookup(Put(d, e), k) == if k == e.key then Some(e) else Lookup(d, k)
  {
    var p, r := Position(d, e.key), Put(d, e);
    forall k ensures Lookup(r, k) == if k == e.key then Some(e) else Lookup(d, k) {
      var was := Position(d, k);
      if k == e.key {
        assert r[if p.Some? then p.value else |d|] == e;
      } else if was.Some? {
        assert r[was.value] == d[was.value];
      }
    }
  }

  // ---------------------------------------------------------------- layering

  datatype Source = Source(name: string, priority: int, entries: seq<(string, ModelCost)>)

  /** One model of the YAML file: `parse` gives its cost over the cost already there, or None when the
      entry carries no usable price. */
  datatype YamlEntry = YamlEntry(name: string, parse: Option<ModelCost> -> Option<ModelCost>)

  /** The last price a source lists for a key, among its first `n` entries. */
  function LastPrice(s: Source, key: string, n: nat): Option<ModelCost>
    requires n <= |s.entries|
  {
    if n == 0 then None
    else if s.entries[n - 1].0 == key then Some(s.entries[n - 1].1)
    else LastPrice(s, key, n - 1)
  }

  function Offers(s: Source, key: string): Option<ModelCost> { LastPrice(s, key, |s.entries|) }

  /** Source `i` is layered below source `j`: larger priority number, or equal and later in the list. */
  predicate Below(fetched: seq<Source>, i: nat, j: nat)
    requires i < |fetched| && j < |fetched|
  {
    fetched[i].priority > fetched[j].priority || (fetched[i].priority == fetched[j].priority && i > j)
  }

  /** An order in which all sources are applied, lowest layer first. */
  predicate LayerOrder(fetched: seq<Source>, order: seq<nat>) {
    (forall k :: 0 <= k < |order| ==> order[k] < |fetched|) &&
    (forall a, b :: 0 <= a < b < |order| ==> Below(fetched, order[a], order[b]))
  }

  /** `sorted(enumerate(fetched), key=(priority, index), reverse=True)`. */
  method SortLayers(fetched: seq<Source>) returns (order: seq<nat>)
    ensures LayerOrder(fetched, order)
    ensures forall i: nat :: i < |fetched| ==> i in order
  {
    order := [];
    for n := 0 to |fetched|
      invariant LayerOrder(fetched, order)
      invariant forall k :: 0 <= k < |order| ==> order[k] < n
      invariant forall i: nat :: i < n ==> i in order
    {
      var at := 0;
      while at < |order| && Below(fetched, order[at], n)
        invariant 0 <= at <= |order|
        invariant forall k :: 0 <= k < at ==> Below(fetched, order[k], n)
      {
        at := at + 1;
      }
      InsertedLayer(fetched, order, n, at);
      order := order[..at] + [n] + order[at..];
    }
  }

  lemma InsertedLayer(fetched: seq<Source>, was: seq<nat>, n: nat, at: nat)
    requires LayerOrder(fetched, was) && n < |fetched| && at <= |was|
    requires forall k :: 0 <= k < |was| ==> was[k] < n
    requires forall k :: 0 <= k < at ==> Below(fetched, was[k], n)
    requires at < |was| ==> !Below(fetched, was[at], n)
    ensures var order := was[..at] + [n] + was[at..];
      LayerOrder(fetched, order) && (forall k :: 0 <= k < |order| ==> order[k] < n + 1) &&
      forall i: nat :: i in order <==> i in was || i == n
  {
    var front, back := was[..at], was[at..];
    assert was == front + back;
    forall k | 0 <= k < |back| ensures Below(fetched, n, back[k]) {
      if k > 0 { assert Below(fetched, was[at], was[at + k]); }
    }
    LayersJoin(fetched, front, n, back);
  }

  lemma LayersJoin(fetched: seq<Source>, front: seq<nat>, n: nat, back: seq<nat>)
    requires LayerOrder(fetched, front + back) && n < |fetched|
    requires forall k :: 0 <= k < |front| ==> front[k] < |fetched| && Below(fetched, front[k], n)
    requires forall k :: 0 <= k < |back| ==> back[k] < |fetched| && Below(fetched, n, back[k])
    ensures LayerOrder(fetched, front + [n] + back)
  {
    var was, order := front + back, front + [n] + back;
    forall a, b | 0 <= a < b < |order|
      ensures order[a] < |fetched| && order[b] < |fetched| && Below(fetched, order[a], order[b])
    {
      var a', b' := if a < |front| then a else a - 1, if b < |front| then b else b - 1;
      if a != |front| && b != |front| { assert was[a'] == order[a] && was[b'] == order[b]; }
    }
    forall k | 0 <= k < |order| ensures order[k] < |fetched| {
      if k < |front| { assert order[k] == was[k]; } else if k > |front| { assert order[k] == was[k - 1]; }
    }
  }

  /** The source a plain search picks for a key: least priority number, then earliest in the list. */
  predicate Wins(fetched: seq<Source>, key: string, i: nat) {
    i < |fetched| && Offers(fetched[i], key).Some? &&
    forall j: nat :: j < |fetched| && j != i && Offers(fetched[j], key).Some? ==> Below(fetched, j, i)
  }

  function WinnerAmong(fetched: seq<Source>, key: string, n: nat): (r: Option<nat>)
    requires n <= |fetched|
    ensures r.Some? ==> r.value < n && Offers(fetched[r.value], key).Some?
    ensures r.Some? ==>
      forall j: nat :: j < n && j != r.value && Offers(fetched[j], key).Some? ==> Below(fetched, j, r.value)
    ensures r.None? ==> forall j: nat :: j < n ==> Offers(fetched[j], key).None?
  {
    if n == 0 then None
    else
      var r := WinnerAmong(fetched, key, n - 1);
      if Offers(fetched[n - 1], key).None? then r
      else if r.None? || Below(fetched, r.value, n - 1) then Some(n - 1)
      else r
  }

  /** What the fetched sources say about a key. */
  function FetchedEntry(fetched: seq<Source>, key: string): Option<Entry> {
    var w := WinnerAmong(fetched, key, |fetched|);
    if w.None? then None
    else Some(Entry(key, Offers(fetched[w.value], key).value, fetched[w.value].name))
  }

  /** The YAML layer over `base`: each parsable entry for the key replaces what is there. */
  function YamlOver(base: Option<Entry>, yaml: seq<YamlEntry>, key: string, n: nat): Option<Entry>
    requires n <= |yaml|
  {
    if n == 0 then base
    else
      var below := YamlOver(base, yaml, key, n - 1);
      if yaml[n - 1].name != key then below
      else
        var c := yaml[n - 1].parse(if below.Some? then Some(below.value.cost) else None);
        if c.Some? then Some(Entry(key, c.value, "yaml")) else below
  }

  /** Applying the sources in `order`, the entry standing after the first `n`. */
  function Applied(fetched: seq<Source>, order: seq<nat>, key: string, n: nat): Option<Entry>
    requires LayerOrder(fetched, order) && n <= |order|
  {
    if n == 0 then None
    else
      var s := fetched[order[n - 1]];
      if Offers(s, key).Some? then Some(Entry(key, Offers(s, key).value, s.name))
      else Applied(fetched, order, key, n - 1)
  }

  /** The first `n` entries of a source laid over what stands below it. */
  function OverLayer(s: Source, key: string, n: nat, below: Option<Entry>): Option<Entry>
    requires n <= |s.entries|
  {
    var price := LastPrice(s, key, n);
    if price.Some? then Some(Entry(key, price.value, s.name)) else below
  }

  /** The highest of the first `n` layers that offers the key decides. */
  lemma {:induction false} AppliedFindsTop(fetched: seq<Source>, order: seq<nat>, key: string, n: nat)
    returns (top: Option<nat>)
    requires LayerOrder(fetched, order) && n <= |order|
    ensures top.None? ==> Applied(fetched, order, key, n).None?
    ensures top.Some? ==>
      top.value < n && Offers(fetched[order[top.value]], key).Some? && Applied(fetched, order, key, n) ==
        Some(Entry(key, Offers(fetched[order[top.value]], key).value, fetched[order[top.value]].name))
    ensures forall l :: (if top.Some? then top.value + 1 else 0) <= l < n ==> Offers(fetched[order[l]], key).None?
  {
    if n == 0 {
      top := None;
    } else if Offers(fetched[order[n - 1]], key).None? {
      top := AppliedFindsTop(fetched, order, key, n - 1);
    } else {
      top := Some(n - 1);
    }
  }

  /** Overwriting from the lowest layer up leaves, for every key, the plain search's answer. */
  lemma LayeringIsPlainSearch(fetched: seq<Source>, order: seq<nat>, key: string)
    requires LayerOrder(fetched, order) && forall i: nat :: i < |fetched| ==> i in order
    ensures Applied(fetched, order, key, |order|) == FetchedEntry(fetched, key)
  {
    var top := AppliedFindsTop(fetched, order, key, |order|);
    var w := WinnerAmong(fetched, key, |fetched|);
    if w.Some? {
      assert w.value in order;
      var p :| 0 <= p < |order| && order[p] == w.value;
      assert top.Some? && p <= top.value;
    }
  }

  /** `resolve_all_costs`: layered overwrites, lowest layer first, YAML last. */
  method ResolveAllCosts(yaml: seq<YamlEntry>, fetched: seq<Source>) returns (costs: Dict)
    ensures DistinctKeys(costs)
    ensures forall k :: Lookup(costs, k) == YamlOver(FetchedEntry(fetched, k), yaml, k, |yaml|)
  {
    var order := SortLayers(fetched);
    costs := [];
    for n := 0 to |order|
      invariant DistinctKeys(costs)
      invariant forall k :: Lookup(costs, k) == Applied(fetched, order, k, n)
    {
      var s := fetched[order[n]];
      for m := 0 to |s.entries|
        invariant DistinctKeys(costs)
        invariant forall k :: Lookup(costs, k) == OverLayer(s, k, m, Applied(fetched, order, k, n))
      {
        var e := Entry(s.entries[m].0, s.entries[m].1, s.name);
        PutLooksUp(costs, e);
        costs := Put(costs, e);
      }
    }
    forall k ensures Applied(fetched, order, k, |order|) == FetchedEntry(fetched, k) {
      LayeringIsPlainSearch(fetched, order, k);
    }
    for n := 0 to |yaml|
      invariant DistinctKeys(costs)
      invariant forall k :: Lookup(costs, k) == YamlOver(FetchedEntry(fetched, k), yaml, k, n)
    {
      var base := Lookup(costs, yaml[n].name);
      var c := yaml[n].parse(if base.Some? then Some(base.value.cost) else None);
      if c.Some? {
        var e := Entry(yaml[n].name, c.value, "yaml");
        PutLooksUp(costs, e);
        costs := Put(costs, e);
      }
    }
  }

  /** Whether the `i`-th YAML entry prices the key, over what stands below it. */
  predicate Prices(base: Option<Entry>, yaml: seq<YamlEntry>, key: string, i: nat)
    requires i < |yaml|
  {
    yaml[i].name == key && ParsedAt(base, yaml, key, i).Some?
  }

  function ParsedAt(base: Option<Entry>, yaml: seq<YamlEntry>, key: string, i: nat): Option<ModelCost>
    requires i < |yaml|
  {
    var below := YamlOver(base, yaml, key, i);
    yaml[i].parse(if below.Some? then Some(below.value.cost) else None)
  }

  /** The last of the first `n` YAML entries that prices the key. */
  function LastPricing(base: Option<Entry>, yaml: seq<YamlEntry>, key: string, n: nat): (r: Option<nat>)
    requires n <= |yaml|
    ensures r.Some? ==> r.value < n && Prices(base, yaml, key, r.value)
    ensures forall i :: (if r.Some? then r.value + 1 else 0) <= i < n ==> !Prices(base, yaml, key, i)
  {
    if n == 0 then None
    else if Prices(base, yaml, key, n - 1) then Some(n - 1)
    else LastPricing(base, yaml, key, n - 1)
  }

  /** The last YAML entry of the key that parses, over what stands below it, sets the price and the source; without
      one the fetched entry stands. */
  lemma {:induction false} YamlWinsElsePriority(base: Option<Entry>, yaml: seq<YamlEntry>, key: string, n: nat)
    requires n <= |yaml|
    ensures var last := LastPricing(base, yaml, key, n);
      YamlOver(base, yaml, key, n) ==
      if last.None? then base else Some(Entry(key, ParsedAt(base, yaml, key, last.value).value, "yaml"))
    decreases n
  {
    if n > 0 {
      YamlStep(base, yaml, key, n - 1);
      if !Prices(base, yaml, key, n - 1) { YamlWinsElsePriority(base, yaml, key, n - 1); }
    }
  }

  lemma YamlStep(base: Option<Entry>, yaml: seq<YamlEntry>, key: string, i: nat)
    requires i < |yaml|
    ensures YamlOver(base, yaml, key, i + 1) ==
      if Prices(base, yaml, key, i) then Some(Entry(key, ParsedAt(base, yaml, key, i).value, "yaml"))
      else YamlOver(base, yaml, key, i)
  {
  }

  /** The place of the last price a source lists for a key. */
  predicate LastListed(s: Source, key: string, k: nat) {
    k < |s.entries| && s.entries[k].0 == key && forall j :: k < j < |s.entries| ==> s.entries[j].0 != key
  }

  predicate ListsKey(s: Source, key: string) { exists k :: 0 <= k < |s.entries| && s.entries[k].0 == key }

  lemma {:induction false} LastPriceIsLastListed(s: Source, key: string, n: nat)
    requires n <= |s.entries| && forall j :: n <= j < |s.entries| ==> s.entries[j].0 != key
    ensures LastPrice(s, key, n).Some? <==> ListsKey(s, key)
    ensures forall k: nat :: LastListed(s, key, k) ==> LastPrice(s, key, n) == Some(s.entries[k].1)
    decreases n
  {
    if n > 0 && s.entries[n - 1].0 != key {
      LastPriceIsLastListed(s, key, n - 1);
    } else if n > 0 {
      assert ListsKey(s, key);
      forall k: nat | LastListed(s, key, k) ensures k == n - 1 {}
    }
  }

  /** Of the sources that list a key, the one with the smallest priority number gives its price, the earliest in the
      configuration on ties; and it gives the last price it lists. */
  lemma FetchedEntryIsTheWinner(fetched: seq<Source>, key: string, i: nat, k: nat)
    requires i < |fetched| && LastListed(fetched[i], key, k)
    requires forall j :: 0 <= j < |fetched| && j != i && ListsKey(fetched[j], key) ==>
      fetched[i].priority < fetched[j].priority || (fetched[i].priority == fetched[j].priority && i < j)
    ensures FetchedEntry(fetched, key) == Some(Entry(key, fetched[i].entries[k].1, fetched[i].name))
  {
    LastPriceIsLastListed(fetched[i], key, |fetched[i].entries|);
    assert fetched[i].entries[k].0 == key;
    forall j: nat | j < |fetched| && j != i && Offers(fetched[j], key).Some? ensures Below(fetched, j, i) {
      LastPriceIsLastListed(fetched[j], key, |fetched[j].entries|);
    }
    assert Wins(fetched, key, i);
  }

  // ---------------------------------------------------------------- lookup by trailing segment

  /** `key.rsplit("/", maxsplit=1)[-1]`: what follows the last slash. */
  function Segment(key: string): (r: string)
    ensures '/' !in r
    ensures |r| <= |key| && key[|key| - |r|..] == r
    ensures r != key ==> key[|key| - |r| - 1] == '/'
  {
    if key == "" || key[|key| - 1] == '/' then ""
    else Segment(key[..|key| - 1]) + [key[|key| - 1]]
  }

  /** What follows the last slash is the name itself, or what a key with a vendor's prefix ends in. */
  lemma SegmentIsTheEnd(key: string, name: string)
    ensures Segment(key) == name <==> IsEnd(key, name)
  {
    if IsEnd(key, name) { OneEnd(key, Segment(key), name); }
  }

  /** The name has no slash, and is all of the key or follows a slash up to its end. */
  predicate IsEnd(key: string, name: string) {
    '/' !in name && |name| <= |key| && key[|key| - |name|..] == name &&
    (|name| == |key| || key[|key| - |name| - 1] == '/')
  }

  lemma OneEnd(key: string, a: string, b: string)
    requires IsEnd(key, a) && IsEnd(key, b)
    ensures a == b
  {
  }

  /** `cost_rank`: the tuple by which prices are compared, cheapest first. */
  function CostRank(c: ModelCost): (r: seq<real>)
    ensures |r| == 5
  {
    [c.input + c.output + c.cacheRead + RealOrZero(c.cacheWrite),
     c.input, c.output, c.cacheRead, RealOrZero(c.cacheWrite)]
  }

  /** Tuple comparison: the first differing position decides. */
  predicate Less(a: seq<real>, b: seq<real>)
    requires |a| == |b|
  {
    a != [] && (a[0] < b[0] || (a[0] == b[0] && Less(a[1..], b[1..])))
  }

  /** Tuple comparison is a strict order in which "not comparable" means equal rank. */
  lemma {:induction false} LessIsOrder(a: seq<real>, b: seq<real>, c: seq<real>)
    requires |a| == |b| == |c| && Less(a, b)
    ensures !Less(b, a)
    ensures !Less(c, b) ==> Less(a, c)
  {
    if a[0] == b[0] {
      LessIsOrder(a[1..], b[1..], c[1..]);
    }
  }

  /** The order in which entries of a dict compete for a segment. */
  function CheaperIn(d: Dict): (nat, nat) -> bool {
    (i: nat, j: nat) => i < |d| && j < |d| && Less(CostRank(d[i].cost), CostRank(d[j].cost))
  }

  function Segments(d: Dict): (r: seq<string>)
    ensures |r| == |d| && forall i :: 0 <= i < |d| ==> r[i] == Segment(d[i].key)
  {
    seq(|d|, (i: nat) requires i < |d| => Segment(d[i].key))
  }

  /** A strict order in which "not comparable" means equal rank. */
  predicate StrictRanking(lt: (nat, nat) -> bool, n: nat) {
    forall i: nat, j: nat, k: nat :: i < n && j < n && k < n && lt(i, j) ==> !lt(j, i) && (!lt(k, j) ==> lt(i, k))
  }

  lemma CheaperIsRanking(d: Dict)
    ensures StrictRanking(CheaperIn(d), |d|)
  {
    var lt := CheaperIn(d);
    forall i: nat, j: nat, k: nat | i < |d| && j < |d| && k < |d| && lt(i, j)
      ensures !lt(j, i) && (!lt(k, j) ==> lt(i, k))
    {
      LessIsOrder(CostRank(d[i].cost), CostRank(d[j].cost), CostRank(d[k].cost));
    }
  }

  /** Among the first `n` entries, `i` is the least-ranked one with that segment, the first on ties. */
  predicate LeastWith(segs: seq<string>, lt: (nat, nat) -> bool, segment: string, n: nat, i: nat) {
    n <= |segs| && i < n && segs[i] == segment &&
    (forall j: nat :: j < n && segs[j] == segment ==> !lt(j, i)) &&
    (forall j: nat :: j < i && segs[j] == segment ==> lt(i, j))
  }

  predicate LeastForSegment(d: Dict, segment: string, i: nat) {
    LeastWith(Segments(d), CheaperIn(d), segment, |d|, i)
  }

  /** The least entry so far, and the next one. */
  lemma LeastWithNext(segs: seq<string>, lt: (nat, nat) -> bool, s: string, n: nat, was: Option<nat>)
    requires StrictRanking(lt, |segs|) && n < |segs|
    requires if was.Some? then LeastWith(segs, lt, s, n, was.value) else s !in segs[..n]
    ensures segs[n] == s && (was.None? || lt(n, was.value)) ==> LeastWith(segs, lt, s, n + 1, n)
    ensures was.Some? && !(segs[n] == s && lt(n, was.value)) ==> LeastWith(segs, lt, s, n + 1, was.value)
  {
    forall j: nat | j < n ensures segs[j] in segs[..n] { assert segs[..n][j] == segs[j]; }
  }

  /** The build loop: one pass, replacing an entry only by a strictly cheaper one. */
  method IndexBy(segs: seq<string>, lt: (nat, nat) -> bool) returns (index: map<string, nat>)
    requires StrictRanking(lt, |segs|)
    ensures forall s :: s in index <==> s in segs
    ensures forall s :: s in index ==> LeastWith(segs, lt, s, |segs|, index[s])
  {
    index := map[];
    for n := 0 to |segs|
      invariant forall s :: s in index ==> LeastWith(segs, lt, s, n, index[s])
      invariant forall s :: s in index <==> s in segs[..n]
    {
      assert segs[..n + 1] == segs[..n] + [segs[n]];
      ghost var was := index;
      if segs[n] !in index || lt(n, index[segs[n]]) {
        index := index[segs[n] := n];
      }
      forall s | s in index ensures LeastWith(segs, lt, s, n + 1, index[s]) {
        LeastWithNext(segs, lt, s, n, if s in was then Some(was[s]) else None);
      }
    }
    assert segs[..|segs|] == segs;
  }

  /** `build_segment_index`. */
  method BuildSegmentIndex(costs: Dict) returns (index: map<string, nat>)
    ensures forall s :: s in index <==> s in Segments(costs)
    ensures forall s :: s in index ==> LeastForSegment(costs, s, index[s])
  {
    CheaperIsRanking(costs);
    index := IndexBy(Segments(costs), CheaperIn(costs));
  }

  /** The plain search: scan everything, keep the first least-ranked entry with that segment. */
  function ScanBy(segs: seq<string>, lt: (nat, nat) -> bool, segment: string, n: nat): (r: Option<nat>)
    requires n <= |segs|
    ensures r.Some? ==> r.value < n && segs[r.value] == segment
    ensures r.None? <==> segment !in segs[..n]
  {
    if n == 0 then None
    else
      assert segs[..n] == segs[..n - 1] + [segs[n - 1]];
      var r := ScanBy(segs, lt, segment, n - 1);
      if segs[n - 1] == segment && (r.None? || lt(n - 1, r.value)) then Some(n - 1) else r
  }

  lemma {:induction false} ScanFindsLeast(segs: seq<string>, lt: (nat, nat) -> bool, segment: string, n: nat)
    requires StrictRanking(lt, |segs|) && n <= |segs|
    ensures var r := ScanBy(segs, lt, segment, n); r.Some? ==> LeastWith(segs, lt, segment, n, r.value)
  {
    if n > 0 {
      ScanFindsLeast(segs, lt, segment, n - 1);
      assert segs[..n] == segs[..n - 1] + [segs[n - 1]];
    }
  }

  lemma LeastIsUnique(segs: seq<string>, lt: (nat, nat) -> bool, segment: string, i: nat, j: nat)
    requires LeastWith(segs, lt, segment, |segs|, i) && LeastWith(segs, lt, segment, |segs|, j)
    ensures i == j
  {
  }

  function LeastScan(costs: Dict, segment: string): Option<nat> {
    ScanBy(Segments(costs), CheaperIn(costs), segment, |costs|)
  }

  /** The index built in one pass answers every segment exactly as a scan of the whole dict would. */
  lemma IndexAgreesWithScan(costs: Dict, segment: string, index: map<string, nat>)
    requires forall s :: s in index <==> s in Segments(costs)
    requires forall s :: s in index ==> LeastForSegment(costs, s, index[s])
    ensures LeastScan(costs, segment) == if segment in index then Some(index[segment]) else None
  {
    CheaperIsRanking(costs);
    var segs, lt := Segments(costs), CheaperIn(costs);
    ScanFindsLeast(segs, lt, segment, |costs|);
    assert segs[..|costs|] == segs;
    if segment in index {
      LeastIsUnique(segs, lt, segment, LeastScan(costs, segment).value, index[segment]);
    }
  }

  /** The entry a model name resolves to: its own key, else the least-ranked key ending in it. */
  function MatchOf(costs: Dict, model: string): (r: Option<Entry>)
    ensures r.Some? ==> r.value in costs
  {
    var exact := Position(costs, model);
    if exact.Some? then Some(costs[exact.value])
    else
      var r := LeastScan(costs, model);
      if r.Some? then Some(costs[r.value]) else None
  }

  /** `resolve_cost_match` through the index: exactly the plain search's answer, and none exactly
      when neither the key nor a key with that last path segment exists. */
  method ResolveCostMatch(costs: Dict, model: string) returns (r: Option<Entry>)
    ensures r == MatchOf(costs, model)
    ensures r.None? <==> forall i :: 0 <= i < |costs| ==> costs[i].key != model && Segment(costs[i].key) != model
  {
    var exact := Position(costs, model);
    if exact.Some? {
      return Some(costs[exact.value]);
    }
    var segments := BuildSegmentIndex(costs);
    IndexAgreesWithScan(costs, model, segments);
    if model in segments {
      return Some(costs[segments[model]]);
    }
    return None;
  }

  lemma ScanIsLeast(costs: Dict, model: string)
    ensures LeastScan(costs, model).None? <==> model !in Segments(costs)
    ensures LeastScan(costs, model).Some? ==> LeastForSegment(costs, model, LeastScan(costs, model).value)
  {
    CheaperIsRanking(costs);
    var segs := Segments(costs);
    ScanFindsLeast(segs, CheaperIn(costs), model, |costs|);
    assert segs[..|costs|] == segs;
  }

  /** Without an exact key, the answer is the least-ranked entry ending in the name, first on ties. */
  lemma MatchIsLeastRanked(costs: Dict, model: string)
    requires Position(costs, model).None?
    ensures MatchOf(costs, model).None? <==> model !in Segments(costs)
    ensures MatchOf(costs, model).Some? ==>
      exists i: nat :: LeastForSegment(costs, model, i) && MatchOf(costs, model) == Some(costs[i])
  {
    ScanIsLeast(costs, model);
  }

  /** What a million tokens of every kind cost together. */
  function Altogether(c: ModelCost): real {
    c.input + c.output + c.cacheRead + (if c.cacheWrite.Some? then c.cacheWrite.value else 0.0)
  }

  /** Cheaper altogether; if equal, by the input price, then the output, the cache reads and the cache writes. */
  predicate IsCheaper(a: ModelCost, b: ModelCost) {
    Altogether(a) < Altogether(b) ||
    (Altogether(a) == Altogether(b) &&
     (a.input < b.input || (a.input == b.input &&
      (a.output < b.output || (a.output == b.output &&
       (a.cacheRead < b.cacheRead ||
        (a.cacheRead == b.cacheRead && RealOrZero(a.cacheWrite) < RealOrZero(b.cacheWrite))))))))
  }

  lemma LessIsCheaper(a: ModelCost, b: ModelCost)
    ensures Less(CostRank(a), CostRank(b)) <==> IsCheaper(a, b)
  {
    var x, y := CostRank(a), CostRank(b);
    assert Less(x[4..], y[4..]) == (x[4] < y[4]) by { assert x[4..][1..] == []; }
    LessAt(x, y, 3);
    LessAt(x, y, 2);
    LessAt(x, y, 1);
    LessAt(x, y, 0);
    assert x[0..] == x && y[0..] == y;
  }

  lemma LessAt(x: seq<real>, y: seq<real>, k: nat)
    requires |x| == |y| && k < |x|
    ensures Less(x[k..], y[k..]) <==> x[k] < y[k] || (x[k] == y[k] && Less(x[k + 1..], y[k + 1..]))
  {
    assert x[k..][1..] == x[k + 1..] && y[k..][1..] == y[k + 1..];
  }

  /** The price of a model: the entry of its own name; else the cheapest entry whose key ends in it after a slash, the
      first of equally cheap ones; else none. */
  lemma PriceLookup(costs: Dict, model: string)
    ensures (exists e :: e in costs && e.key == model) ==>
      exists i :: 0 <= i < |costs| && costs[i].key == model && MatchOf(costs, model) == Some(costs[i])
    ensures (forall e :: e in costs ==> e.key != model) && (exists e :: e in costs && Segment(e.key) == model) ==>
      exists i :: 0 <= i < |costs| && Segment(costs[i].key) == model && MatchOf(costs, model) == Some(costs[i]) &&
        IsCheapest(costs, model, i)
    ensures (forall e :: e in costs ==> e.key != model && Segment(e.key) != model) ==> MatchOf(costs, model) == None
  {
    ScanIsLeast(costs, model);
    if Position(costs, model).None? && LeastScan(costs, model).Some? {
      var i := LeastScan(costs, model).value;
      forall j: nat | j < |costs| && Segment(costs[j].key) == model
        ensures !IsCheaper(costs[j].cost, costs[i].cost) && (j < i ==> IsCheaper(costs[i].cost, costs[j].cost))
      {
        assert Segments(costs)[j] == model;
        LessIsCheaper(costs[j].cost, costs[i].cost);
        LessIsCheaper(costs[i].cost, costs[j].cost);
      }
      assert IsCheapest(costs, model, i);
    }
    forall e | e in costs && Segment(e.key) == model ensures model in Segments(costs) {
      var j :| 0 <= j < |costs| && costs[j] == e;
      assert Segments(costs)[j] == model;
    }
  }

  predicate IsCheapest(costs: Dict, segment: string, i: nat) {
    i < |costs| && forall j: nat :: j < |costs| && Segment(costs[j].key) == segment ==>
      !IsCheaper(costs[j].cost, costs[i].cost) && (j < i ==> IsCheaper(costs[i].cost, costs[j].cost))
  }

  // ---------------------------------------------------------------- pricing one row

  /** `ResolvedPricing`: the matched entry, and its cost resolved for the row's time of day. */
  datatype Resolved = Resolved(match_: Option<Entry>, cost: ModelCost)

  function ResolvePricing(costs: Dict, model: string, tsMicros: int): (r: Resolved)
    ensures r.cost.timeRates == []
  {
    var m := MatchOf(costs, model);
    if m.None? then Resolved(None, FREE) else Resolved(m, EffectiveCost(m.value.cost, tsMicros))
  }

  /** The window that sets a rate at a time: it holds the time, and no later one in the list does. */
  predicate IsLastWindow(rates: seq<TimeRate>, tsMicros: int, k: nat) {
    MatchesAt(rates, k, tsMicros) && forall j :: k < j < |rates| ==> !MatchesAt(rates, j, tsMicros)
  }

  /** A row is priced at the rates of its time of day: those of the last window that holds it, or the entry's own; and
      at none if its model has no entry. */
  lemma PriceIsOfItsTime(costs: Dict, model: string, tsMicros: int)
    ensures var m, r := MatchOf(costs, model), ResolvePricing(costs, model, tsMicros);
      r.match_ == m && (m.None? ==> r.cost == ModelCost(0.0, 0.0, 0.0, None, [], [])) &&
      (m.Some? ==>
        var rates := m.value.cost.timeRates;
        (forall k: nat :: IsLastWindow(rates, tsMicros, k) ==> r.cost == rates[k].cost.(timeRates := [])) &&
        ((forall k: nat :: !MatchesAt(rates, k, tsMicros)) ==> r.cost == m.value.cost.(timeRates := [])))
  {
    var m := MatchOf(costs, model);
    if m.Some? && m.value.cost.timeRates != [] {
      var rates := m.value.cost.timeRates;
      var last := LastMatch(rates, tsMicros, |rates|);
      forall k: nat | IsLastWindow(rates, tsMicros, k) ensures last == Some(k) {
        assert MatchesAt(rates, k, tsMicros);
      }
    }
  }
}
