/** The request timeline (`buildTimelineData` in frontend/src/components/RequestTimeline.tsx): placing tool
    calls on an axis, clustering and merging them, and filling what is left. Milliseconds are exact numbers. */
module Timeline {
  import opened Basics

  datatype Tool = Tool(
    id: string, name: string, ts: Option<real>, durationMs: Option<real>, startMs: Option<real>, isParallel: bool)

  /** A stretch of the axis, its end excluded. */
  datatype Span = Span(start: real, end: real)

  datatype Placed = Placed(tool: Tool, span: Span)

  function Hi(a: real, b: real): real { if a < b then b else a }

  function Lo(a: real, b: real): real { if b < a then b else a }

  function Duration(t: Tool): real { if t.durationMs.Some? then t.durationMs.value else 0.0 }

  function Length(s: Span): real { s.end - s.start }

  predicate In(x: real, s: Span) { s.start <= x < s.end }

  predicate Covers(spans: seq<Span>, x: real) { exists k :: 0 <= k < |spans| && In(x, spans[k]) }

  /** Non-empty stretches in order, none touching into the next. */
  predicate Spread(spans: seq<Span>) {
    (forall k :: 0 <= k < |spans| ==> spans[k].start < spans[k].end) &&
    forall j, k :: 0 <= j < k < |spans| ==> spans[j].end <= spans[k].start
  }

  predicate Within(spans: seq<Span>, from: real, to: real) {
    forall k :: 0 <= k < |spans| ==> from <= spans[k].start && spans[k].end <= to
  }

  function Total(spans: seq<Span>): real {
    if spans == [] then 0.0 else Total(spans[..|spans| - 1]) + Length(spans[|spans| - 1])
  }

  lemma TotalSnoc(spans: seq<Span>, s: Span)
    ensures Total(spans + [s]) == Total(spans) + Length(s)
  {
    assert (spans + [s])[..|spans|] == spans;
  }

  lemma CoversSnoc(spans: seq<Span>, s: Span, x: real)
    ensures Covers(spans + [s], x) <==> Covers(spans, x) || In(x, s)
  {
    var all := spans + [s];
    assert all[|spans|] == s && forall k :: 0 <= k < |spans| ==> all[k] == spans[k];
    if k :| 0 <= k < |spans| && In(x, spans[k]) { assert In(x, all[k]); }
    if In(x, s) { assert In(x, all[|spans|]); }
  }

  // ---------------------------------------------------------------- placing the tools

  predicate AllTimed(tools: seq<Tool>) { forall k :: 0 <= k < |tools| ==> Duration(tools[k]) > 0.0 }

  predicate AllStarted(tools: seq<Tool>) { forall k :: 0 <= k < |tools| ==> tools[k].startMs.Some? }

  predicate AllStamped(tools: seq<Tool>) { forall k :: 0 <= k < |tools| ==> tools[k].ts.Some? }

  /** More than one tool, all with timestamps, at least two of them different. */
  predicate DistinctStamps(tools: seq<Tool>) {
    AllStamped(tools) && exists j, k :: 0 <= j < k < |tools| && tools[j].ts != tools[k].ts
  }

  /** Tools recorded with one and the same timestamp ran at once. */
  predicate SameStamps(tools: seq<Tool>) { AllStamped(tools) && |tools| > 1 && !DistinctStamps(tools) }

  predicate IsEarliest(tools: seq<Tool>, ts: real) {
    (exists k :: 0 <= k < |tools| && tools[k].ts == Some(ts)) &&
    forall k :: 0 <= k < |tools| && tools[k].ts.Some? ==> ts <= tools[k].ts.value
  }

  /** The running offset: tools without a start, a parallel mark or a shared timestamp follow each other. */
  function Offset(tools: seq<Tool>, ttft: real, together: bool, n: nat): real
    requires n <= |tools|
  {
    if n == 0 then ttft
    else
      var t := tools[n - 1];
      Offset(tools, ttft, together, n - 1) + (if Advances(t, together) then Duration(t) else 0.0)
  }

  predicate Advances(t: Tool, together: bool) { t.startMs.None? && !t.isParallel && !together }

  /** Where the tools start: by timestamp when starts are missing and the timestamps tell them apart, else
      by their own start or the running offset. */
  ghost predicate IsPlacement(tools: seq<Tool>, ttft: real, ps: seq<Placed>) {
    if DistinctStamps(tools) && !AllStarted(tools) then
      exists first :: IsEarliest(tools, first) && PlacedByStamp(tools, ttft, first, ps)
    else PlacedByOffset(tools, ttft, SameStamps(tools), ps)
  }

  method Earliest(tools: seq<Tool>) returns (first: real)
    requires tools != [] && AllStamped(tools)
    ensures IsEarliest(tools, first)
  {
    first := tools[0].ts.value;
    for n := 1 to |tools|
      invariant exists k :: 0 <= k < n && tools[k].ts == Some(first)
      invariant forall k :: 0 <= k < n ==> first <= tools[k].ts.value
    {
      first := Lo(first, tools[n].ts.value);
    }
  }

  /** With distinct timestamps and a start missing: the first tool starts at TTFT, the others by their distance. */
  method PlaceByStamp(tools: seq<Tool>, ttft: real) returns (ps: seq<Placed>)
    requires tools != [] && AllStamped(tools)
    ensures exists first :: IsEarliest(tools, first) && PlacedByStamp(tools, ttft, first, ps)
  {
    ps := [];
    var first := Earliest(tools);
    for n := 0 to |tools|
      invariant PlacedByStamp(tools[..n], ttft, first, ps)
    {
      ps := ps + [PlacedAt(tools[n], ttft + Hi(0.0, tools[n].ts.value - first))];
    }
    assert tools[..|tools|] == tools;
  }

  predicate PlacedByStamp(tools: seq<Tool>, ttft: real, first: real, ps: seq<Placed>)
    requires AllStamped(tools)
  {
    |ps| == |tools| && forall k :: 0 <= k < |ps| ==> ps[k] == PlacedAt(tools[k], ttft + (tools[k].ts.value - first))
  }

  method PlaceByOffset(tools: seq<Tool>, ttft: real) returns (ps: seq<Placed>)
    ensures PlacedByOffset(tools, ttft, SameStamps(tools), ps)
  {
    ps := [];
    var together, offset := SameStamps(tools), ttft;
    for n := 0 to |tools|
      invariant |ps| == n && offset == Offset(tools, ttft, together, n)
      invariant forall k :: 0 <= k < n ==> ps[k] == PlacedAt(tools[k], OffsetStart(tools, ttft, together, k))
    {
      var t := tools[n];
      var start := if t.startMs.Some? then Hi(0.0, t.startMs.value) else offset;
      assert start == OffsetStart(tools, ttft, together, n);
      ps := ps + [PlacedAt(t, start)];
      if Advances(t, together) { offset := offset + Duration(t); }
    }
  }

  function OffsetStart(tools: seq<Tool>, ttft: real, together: bool, k: nat): real
    requires k < |tools|
  {
    if tools[k].startMs.Some? then Hi(0.0, tools[k].startMs.value) else Offset(tools, ttft, together, k)
  }

  predicate PlacedByOffset(tools: seq<Tool>, ttft: real, together: bool, ps: seq<Placed>) {
    |ps| == |tools| && forall k :: 0 <= k < |ps| ==> ps[k] == PlacedAt(tools[k], OffsetStart(tools, ttft, together, k))
  }

  /** The first part of `buildTimelineData`: start and end offsets of the timed tools. */
  method PlaceTools(tools: seq<Tool>, ttft: real) returns (ps: seq<Placed>)
    requires AllTimed(tools)
    ensures IsPlacement(tools, ttft, ps)
  {
    if DistinctStamps(tools) && !AllStarted(tools) {
      ps := PlaceByStamp(tools, ttft);
    } else {
      ps := PlaceByOffset(tools, ttft);
    }
  }

  function PlacedAt(t: Tool, start: real): Placed { Placed(t, Span(start, start + Duration(t))) }

  // ---------------------------------------------------------------- where the tools end up

  /** Every tool is drawn with its own duration. */
  lemma ToolsKeepTheirDuration(tools: seq<Tool>, ttft: real, ps: seq<Placed>, k: nat)
    requires IsPlacement(tools, ttft, ps) && k < |tools|
    ensures |ps| == |tools| && ps[k].tool == tools[k]
    ensures ps[k].span.end - ps[k].span.start ==
            if tools[k].durationMs == None then 0.0 else tools[k].durationMs.value
  {
  }

  /** Told apart by their timestamps, with a start missing, the tools are as far apart as their timestamps, and the
      earliest starts with the first token. */
  lemma StampedToolsKeepTheirDistance(tools: seq<Tool>, ttft: real, ps: seq<Placed>)
    requires IsPlacement(tools, ttft, ps) && forall t :: t in tools ==> t.ts != None
    requires exists s, t :: s in tools && t in tools && s.ts != t.ts
    requires exists t :: t in tools && t.startMs == None
    ensures forall j, k :: 0 <= j < |tools| && 0 <= k < |tools| ==>
      ps[k].span.start - ps[j].span.start == tools[k].ts.value - tools[j].ts.value
    ensures exists k :: 0 <= k < |tools| && ps[k].span.start == ttft
    ensures forall k :: 0 <= k < |tools| ==> ps[k].span.start >= ttft
  {
    StampsAreDistinct(tools);
    assert !AllStarted(tools) by {
      var t :| t in tools && t.startMs == None;
      var k :| 0 <= k < |tools| && tools[k] == t;
    }
    var first :| IsEarliest(tools, first) && PlacedByStamp(tools, ttft, first, ps);
    StampsKeepDistance(tools, ttft, first, ps);
  }

  lemma StampsKeepDistance(tools: seq<Tool>, ttft: real, first: real, ps: seq<Placed>)
    requires AllStamped(tools) && IsEarliest(tools, first) && PlacedByStamp(tools, ttft, first, ps)
    ensures forall j, k :: 0 <= j < |tools| && 0 <= k < |tools| ==>
      ps[k].span.start - ps[j].span.start == tools[k].ts.value - tools[j].ts.value
    ensures exists k :: 0 <= k < |tools| && ps[k].span.start == ttft
    ensures forall k :: 0 <= k < |tools| ==> ps[k].span.start >= ttft
  {
    var e :| 0 <= e < |tools| && tools[e].ts == Some(first);
    assert ps[e].span.start == ttft;
  }

  lemma StampsAreDistinct(tools: seq<Tool>)
    requires forall t :: t in tools ==> t.ts != None
    requires exists s, t :: s in tools && t in tools && s.ts != t.ts
    ensures DistinctStamps(tools)
  {
    var s, t :| s in tools && t in tools && s.ts != t.ts;
    var j :| 0 <= j < |tools| && tools[j] == s;
    var k :| 0 <= k < |tools| && tools[k] == t;
    if j < k { assert tools[j].ts != tools[k].ts; } else { assert tools[k].ts != tools[j].ts; }
  }

  /** A tool that says when it started is drawn there, though not before the request. */
  lemma StartedToolsStartThere(tools: seq<Tool>, ttft: real, ps: seq<Placed>, k: nat)
    requires IsPlacement(tools, ttft, ps) && k < |tools| && tools[k].startMs.Some?
    requires forall t :: t in tools ==> t.startMs.Some?
    ensures ps[k].span.start == if tools[k].startMs.value < 0.0 then 0.0 else tools[k].startMs.value
  {
    assert AllStarted(tools);
  }

  lemma {:induction false} OffsetStays(tools: seq<Tool>, ttft: real, together: bool, m: nat, n: nat)
    requires m <= n <= |tools| && forall k :: m <= k < n ==> !Advances(tools[k], together)
    ensures Offset(tools, ttft, together, n) == Offset(tools, ttft, together, m)
    decreases n
  {
    if m < n { OffsetStays(tools, ttft, together, m, n - 1); }
  }

  /** Without timestamps to go by, a tool that does not say when it started begins when the one before it ends that is
      neither marked parallel nor says so; the first ones with the first token. */
  lemma UnstampedToolsFollowEachOther(tools: seq<Tool>, ttft: real, ps: seq<Placed>, j: nat)
    requires IsPlacement(tools, ttft, ps) && j < |tools| && tools[j].startMs == None
    requires exists t :: t in tools && t.ts == None
    ensures NoneInLine(tools, 0, j) ==> ps[j].span.start == ttft
    ensures forall i :: 0 <= i < j && !NoneInLine(tools, i, i + 1) && NoneInLine(tools, i + 1, j) ==>
      ps[j].span.start == ps[i].span.end
  {
    assert !AllStamped(tools);
    if NoneInLine(tools, 0, j) { OffsetStays(tools, ttft, false, 0, j); }
    forall i | 0 <= i < j && !NoneInLine(tools, i, i + 1) && NoneInLine(tools, i + 1, j)
      ensures ps[j].span.start == ps[i].span.end
    {
      OffsetStays(tools, ttft, false, i + 1, j);
      assert Advances(tools[i], false);
    }
  }

  /** From `m` up to `n` every tool is marked parallel or says when it started. */
  predicate NoneInLine(tools: seq<Tool>, m: nat, n: nat)
    requires n <= |tools|
  {
    forall k :: m <= k < n ==> tools[k].startMs != None || tools[k].isParallel
  }

  /** Tools with one and the same timestamp, and no start, all start with the first token. */
  lemma ToolsOfOneMomentStartTogether(tools: seq<Tool>, ttft: real, ps: seq<Placed>, k: nat, ts: real)
    requires IsPlacement(tools, ttft, ps) && k < |tools| && tools[k].startMs == None && |tools| > 1
    requires forall t :: t in tools ==> t.ts == Some(ts)
    ensures ps[k].span.start == ttft
  {
    assert forall i :: 0 <= i < |tools| ==> tools[i] in tools;
    assert SameStamps(tools);
    OffsetStays(tools, ttft, true, 0, k);
  }

  // ---------------------------------------------------------------- sorting

  /** By start, then by end. */
  lemma SortedIsByTime(ps: seq<Placed>, j: nat, k: nat)
    requires Sorted(ps) && j < k < |ps|
    ensures ps[j].span.start <= ps[k].span.start
    ensures ps[j].span.start == ps[k].span.start ==> ps[j].span.end <= ps[k].span.end
  {
  }

  predicate NotAfter(a: Placed, b: Placed) {
    a.span.start < b.span.start || (a.span.start == b.span.start && a.span.end <= b.span.end)
  }

  predicate Sorted(ps: seq<Placed>) { forall j, k :: 0 <= j < k < |ps| ==> NotAfter(ps[j], ps[k]) }

  method SortPlaced(ps: seq<Placed>) returns (r: seq<Placed>)
    ensures Sorted(r) && multiset(r) == multiset(ps)
  {
    r := [];
    for n := 0 to |ps|
      invariant Sorted(r) && multiset(r) == multiset(ps[..n])
    {
      var at := |r|;
      while at > 0 && !NotAfter(r[at - 1], ps[n])
        invariant 0 <= at <= |r|
        invariant forall k :: at <= k < |r| ==> !NotAfter(r[k], ps[n])
      {
        at := at - 1;
      }
      InsertedInOrder(r, ps[n], at);
      InsertedOnce(r, ps[n], at);
      assert ps[..n + 1] == ps[..n] + [ps[n]];
      r := r[..at] + [ps[n]] + r[at..];
    }
    assert ps[..|ps|] == ps;
  }

  lemma InsertedInOrder(r: seq<Placed>, p: Placed, at: nat)
    requires Sorted(r) && at <= |r|
    requires at > 0 ==> NotAfter(r[at - 1], p)
    requires forall k :: at <= k < |r| ==> !NotAfter(r[k], p)
    ensures Sorted(r[..at] + [p] + r[at..])
  {
    forall k | 0 <= k < at ensures NotAfter(r[k], p) {
      if k < at - 1 { NotAfterIsTransitive(r[k], r[at - 1], p); }
    }
    assert r == r[..at] + r[at..];
    SortedJoin(r[..at], p, r[at..]);
  }

  lemma InsertedOnce<T>(r: seq<T>, p: T, at: nat)
    requires at <= |r|
    ensures multiset(r[..at] + [p] + r[at..]) == multiset(r) + multiset{p}
  {
    assert r == r[..at] + r[at..];
  }

  lemma NotAfterIsTransitive(a: Placed, b: Placed, c: Placed)
    ensures NotAfter(a, b) && NotAfter(b, c) ==> NotAfter(a, c)
    ensures NotAfter(a, b) || NotAfter(b, a)
  {
  }

  lemma SortedJoin(before: seq<Placed>, p: Placed, after: seq<Placed>)
    requires Sorted(before + after)
    requires forall k :: 0 <= k < |before| ==> NotAfter(before[k], p)
    requires forall k :: 0 <= k < |after| ==> !NotAfter(after[k], p)
    ensures Sorted(before + [p] + after)
  {
    var was, r := before + after, before + [p] + after;
    forall j, k | 0 <= j < k < |r| ensures NotAfter(r[j], r[k]) {
      if j == |before| {
        NotAfterIsTransitive(p, r[k], p);
      } else if k != |before| {
        var j', k' := if j < |before| then j else j - 1, if k < |before| then k else k - 1;
        assert was[j'] == r[j] && was[k'] == r[k] && NotAfter(was[j'], was[k']);
      }
    }
  }

  // ---------------------------------------------------------------- clusters

  type Cluster = seq<Placed>

  function Concat(cs: seq<Cluster>): seq<Placed> {
    if cs == [] then [] else Concat(cs[..|cs| - 1]) + cs[|cs| - 1]
  }

  predicate EndsBy(c: Cluster, x: real) { forall k :: 0 <= k < |c| ==> c[k].span.end <= x }

  predicate StartsFrom(c: Cluster, x: real) { forall k :: 0 <= k < |c| ==> x <= c[k].span.start }

  /** Some moment separates two clusters. */
  predicate Apart(a: Cluster, b: Cluster) {
    forall i, j :: 0 <= i < |a| && 0 <= j < |b| ==> a[i].span.end <= b[j].span.start
  }

  /** A tool joins a cluster only because it overlaps what is already there, or is marked parallel. */
  predicate Linked(c: Cluster) { c != [] && forall k :: 0 < k < |c| ==> Joins(c, k) }

  predicate Joins(c: Cluster, k: nat)
    requires k < |c|
  {
    c[k].tool.isParallel || exists j :: 0 <= j < k && c[k].span.start < c[j].span.end
  }

  ghost predicate AreClusters(cs: seq<Cluster>, ps: seq<Placed>) {
    Concat(cs) == ps && (forall k :: 0 <= k < |cs| ==> Linked(cs[k])) &&
    (forall k :: 0 < k < |cs| ==> !IsJoining(cs[k])) &&
    forall j, k :: 0 <= j < k < |cs| ==> Apart(cs[j], cs[k])
  }

  /** Its first tool is marked parallel, and so belongs to the cluster before it. */
  predicate IsJoining(c: Cluster) { c != [] && c[0].tool.isParallel }

  function MaxEnd(c: Cluster): (x: real)
    requires c != []
    ensures EndsBy(c, x) && exists k :: 0 <= k < |c| && c[k].span.end == x
  {
    var last := c[|c| - 1].span.end;
    if |c| == 1 then assert c[0].span.end == last; last
    else
      var rest := c[..|c| - 1];
      var m := MaxEnd(rest);
      assert forall k :: 0 <= k < |rest| ==> c[k] == rest[k];
      assert last >= m ==> c[|c| - 1].span.end == last;
      Hi(m, last)
  }

  function MinStart(c: Cluster): (x: real)
    requires c != []
    ensures StartsFrom(c, x) && exists k :: 0 <= k < |c| && c[k].span.start == x
  {
    var last := c[|c| - 1].span.start;
    if |c| == 1 then assert c[0].span.start == last; last
    else
      var rest := c[..|c| - 1];
      var m := MinStart(rest);
      assert forall k :: 0 <= k < |rest| ==> c[k] == rest[k];
      assert last <= m ==> c[|c| - 1].span.start == last;
      Lo(m, last)
  }

  /** Where a tool goes: into the last cluster if it starts before that ends, or is marked parallel. */
  function Joined(cs: seq<Cluster>, p: Placed): seq<Cluster>
    requires forall k :: 0 <= k < |cs| ==> cs[k] != []
  {
    if cs == [] then [[p]]
    else
      var last := cs[|cs| - 1];
      var overlaps := p.span.start < MaxEnd(last) && p.span.end > MinStart(last);
      if overlaps || p.tool.isParallel then cs[..|cs| - 1] + [last + [p]] else cs + [[p]]
  }

  /** The grouping loop. Tools of different clusters never overlap, no cluster is larger than its overlaps and
      parallel marks require, and no tool marked parallel opens a cluster behind another. */
  method MakeClusters(ps: seq<Placed>) returns (cs: seq<Cluster>)
    requires Sorted(ps) && forall k :: 0 <= k < |ps| ==> Length(ps[k].span) > 0.0
    ensures AreClusters(cs, ps)
  {
    cs := [];
    for n := 0 to |ps|
      invariant AreClusters(cs, ps[..n])
    {
      assert ps[..n + 1] == ps[..n] + [ps[n]];
      JoinedAreClusters(cs, ps[n], ps[..n]);
      cs := Joined(cs, ps[n]);
    }
    assert ps[..|ps|] == ps;
  }

  lemma JoinedAreClusters(cs: seq<Cluster>, p: Placed, ps: seq<Placed>)
    requires AreClusters(cs, ps) && Length(p.span) > 0.0 && forall q :: q in ps ==> NotAfter(q, p)
    ensures forall k :: 0 <= k < |cs| ==> cs[k] != []
    ensures AreClusters(Joined(cs, p), ps + [p])
  {
    assert forall k :: 0 <= k < |cs| ==> Linked(cs[k]);
    if cs == [] {
      assert [[p]][..0] == [] && Concat([[p]]) == [p];
    } else {
      var front, last := cs[..|cs| - 1], cs[|cs| - 1];
      assert cs == front + [last];
      LastMembers(front, last, ps);
      if (p.span.start < MaxEnd(last) && p.span.end > MinStart(last)) || p.tool.isParallel {
        LinkedGrows(last, p);
        LastClusterGrows(front, last, p, ps);
      } else {
        EndsBefore(last, p);
        NewClusterIsApart(front, last, p, ps);
      }
    }
  }

  /** Every tool of every cluster is one of the tools so far. */
  lemma {:induction false} ConcatMembers(cs: seq<Cluster>, ps: seq<Placed>)
    requires Concat(cs) == ps
    ensures forall k, i :: 0 <= k < |cs| && 0 <= i < |cs[k]| ==> cs[k][i] in ps
    decreases |cs|
  {
    if cs != [] {
      var front, last := cs[..|cs| - 1], cs[|cs| - 1];
      ConcatMembers(front, Concat(front));
      forall k, i | 0 <= k < |cs| && 0 <= i < |cs[k]| ensures cs[k][i] in ps {
        if k < |front| { assert cs[k] == front[k] && front[k][i] in Concat(front); } else { assert last[i] in last; }
      }
    }
  }

  lemma LastMembers(front: seq<Cluster>, last: Cluster, ps: seq<Placed>)
    requires Concat(front + [last]) == ps
    ensures forall i :: 0 <= i < |last| ==> last[i] in ps
  {
    var cs := front + [last];
    ConcatMembers(cs, ps);
    forall i | 0 <= i < |last| ensures last[i] in ps { assert cs[|front|][i] in ps; }
  }

  lemma LastClusterGrows(front: seq<Cluster>, last: Cluster, p: Placed, ps: seq<Placed>)
    requires AreClusters(front + [last], ps)
    requires last != [] && Linked(last + [p])
    requires forall q :: q in ps ==> NotAfter(q, p)
    ensures AreClusters(front + [last + [p]], ps + [p])
  {
    var cs, cs' := front + [last], front + [last + [p]];
    assert cs[..|front|] == front && cs'[..|front|] == front;
    assert cs[|front|] == last && Linked(last);
    forall k | 0 <= k < |cs'| ensures Linked(cs'[k]) {
      if k < |front| { assert cs[k] == cs'[k] && Linked(cs[k]); }
    }
    forall k | 0 < k < |cs'| ensures !IsJoining(cs'[k]) { assert !IsJoining(cs[k]) && cs'[k][0] == cs[k][0]; }
    forall j, k | 0 <= j < k < |cs'| ensures Apart(cs'[j], cs'[k]) {
      assert cs[j] == cs'[j] && Apart(cs[j], cs[k]);
      if k == |front| {
        ConcatMembers(cs, ps);
        assert last[0] in ps by { assert cs[|front|][0] in ps; }
        assert last[0].span.start <= p.span.start;
        forall i | 0 <= i < |cs[j]| ensures cs[j][i].span.end <= p.span.start {
          assert cs[j][i].span.end <= last[0].span.start;
        }
      }
    }
  }

  lemma LinkedGrows(c: Cluster, p: Placed)
    requires Linked(c) && (p.tool.isParallel || p.span.start < MaxEnd(c))
    ensures Linked(c + [p])
  {
    var c' := c + [p];
    assert forall k :: 0 <= k < |c| ==> c'[k] == c[k];
    forall k | 0 < k < |c'| ensures Joins(c', k) {
      if k == |c| {
        if !p.tool.isParallel {
          var j :| 0 <= j < |c| && c[j].span.end == MaxEnd(c);
          assert c'[k].span.start < c'[j].span.end;
        }
      } else {
        assert Joins(c, k);
        if !c[k].tool.isParallel {
          var j :| 0 <= j < k && c[k].span.start < c[j].span.end;
          assert c'[k].span.start < c'[j].span.end;
        }
      }
    }
  }

  lemma NewClusterIsApart(front: seq<Cluster>, last: Cluster, p: Placed, ps: seq<Placed>)
    requires AreClusters(front + [last], ps)
    requires last != [] && NotAfter(last[0], p) && Apart(last, [p]) && !p.tool.isParallel
    ensures AreClusters(front + [last] + [[p]], ps + [p])
  {
    var cs := front + [last];
    var cs' := cs + [[p]];
    assert cs'[..|cs|] == cs && cs[|front|] == last;
    assert forall k :: 0 <= k < |cs| ==> cs'[k] == cs[k] && Linked(cs[k]);
    forall k | 0 < k < |cs'| ensures !IsJoining(cs'[k]) { assert k < |cs| ==> !IsJoining(cs[k]); }
    forall j, k | 0 <= j < k < |cs'| ensures Apart(cs'[j], cs'[k]) {
      if k < |cs| {
        assert Apart(cs[j], cs[k]);
      } else if j < |front| {
        assert Apart(cs[j], last);
        ApartFromLater(cs[j], last, p);
      }
    }
  }

  lemma EndsBefore(last: Cluster, p: Placed)
    requires last != [] && Length(p.span) > 0.0 && !(p.span.start < MaxEnd(last) && p.span.end > MinStart(last))
    requires forall i :: 0 <= i < |last| ==> NotAfter(last[i], p)
    ensures Apart(last, [p])
  {
    var first :| 0 <= first < |last| && last[first].span.start == MinStart(last);
    assert MinStart(last) <= p.span.start < p.span.end;
  }

  lemma ApartFromLater(c: Cluster, last: Cluster, p: Placed)
    requires Apart(c, last) && last != [] && NotAfter(last[0], p)
    ensures Apart(c, [p])
  {
    forall i | 0 <= i < |c| ensures c[i].span.end <= p.span.start {
      assert c[i].span.end <= last[0].span.start;
    }
  }

  predicate Overlap(a: Span, b: Span) { a.start < b.end && b.start < a.end }

  /** Tools of different clusters never overlap. */
  lemma DifferentClustersNeverOverlap(cs: seq<Cluster>, ps: seq<Placed>, j: nat, k: nat, a: nat, b: nat)
    requires AreClusters(cs, ps) && j < |cs| && k < |cs| && a < |cs[j]| && b < |cs[k]| && j != k
    ensures !Overlap(cs[j][a].span, cs[k][b].span)
  {
    if j < k {
      assert Apart(cs[j], cs[k]);
    } else {
      assert Apart(cs[k], cs[j]);
    }
  }

  // ---------------------------------------------------------------- merging

  predicate ByStart(spans: seq<Span>) { forall j, k :: 0 <= j < k < |spans| ==> spans[j].start <= spans[k].start }

  predicate NonEmpty(spans: seq<Span>) { forall k :: 0 <= k < |spans| ==> spans[k].start < spans[k].end }

  /** The clipped intervals that are left, still in order of their starts. */
  function Clipped(ps: seq<Placed>, from: real, to: real): (r: seq<Span>)
    ensures NonEmpty(r) && Within(r, from, to)
  {
    if ps == [] then []
    else
      var s := Span(Hi(from, ps[|ps| - 1].span.start), Lo(to, ps[|ps| - 1].span.end));
      Clipped(ps[..|ps| - 1], from, to) + (if s.end > s.start then [s] else [])
  }

  predicate SomeTool(ps: seq<Placed>, x: real) { exists k :: 0 <= k < |ps| && In(x, ps[k].span) }

  lemma {:induction false} ClippedCovers(ps: seq<Placed>, from: real, to: real, x: real)
    ensures Covers(Clipped(ps, from, to), x) <==> from <= x < to && SomeTool(ps, x)
    decreases |ps|
  {
    if ps != [] {
      var rest, p := ps[..|ps| - 1], ps[|ps| - 1];
      var s := Span(Hi(from, p.span.start), Lo(to, p.span.end));
      ClippedCovers(rest, from, to, x);
      CoversSnoc(Clipped(rest, from, to), s, x);
      assert Clipped(rest, from, to) + [] == Clipped(rest, from, to);
      assert forall k :: 0 <= k < |rest| ==> ps[k] == rest[k];
      assert SomeTool(ps, x) <==> SomeTool(rest, x) || In(x, p.span) by {
        if In(x, p.span) { assert In(x, ps[|ps| - 1].span); }
        if k :| 0 <= k < |rest| && In(x, rest[k].span) { assert In(x, ps[k].span); }
      }
    }
  }

  /** The clipped intervals keep the order of the tools, and none starts before the first tool does. */
  lemma {:induction false} ClippedByStart(ps: seq<Placed>, from: real, to: real)
    requires Sorted(ps)
    ensures ByStart(Clipped(ps, from, to))
    ensures ps != [] ==> StartsBetween(Clipped(ps, from, to), ps[0].span.start, Hi(from, ps[|ps| - 1].span.start))
    decreases |ps|
  {
    if ps != [] {
      var rest, last := ps[..|ps| - 1], ps[|ps| - 1];
      ClippedByStart(rest, from, to);
      if rest != [] {
        assert NotAfter(rest[|rest| - 1], last) && NotAfter(rest[0], last);
        SpansSnoc(Clipped(rest, from, to), Span(Hi(from, last.span.start), Lo(to, last.span.end)), ps[0].span.start,
                  Hi(from, rest[|rest| - 1].span.start));
      }
    }
  }

  predicate StartsBetween(spans: seq<Span>, a: real, b: real) {
    forall k :: 0 <= k < |spans| ==> a <= spans[k].start <= b
  }

  lemma SpansSnoc(spans: seq<Span>, s: Span, a: real, b: real)
    requires ByStart(spans) && StartsBetween(spans, a, b) && b <= s.start && a <= s.start
    ensures ByStart(spans + [s]) && StartsBetween(spans + [s], a, s.start) && StartsBetween(spans, a, s.start)
  {
  }

  /** In order, with a gap between any two. */
  predicate Separate(spans: seq<Span>) {
    NonEmpty(spans) && forall j, k :: 0 <= j < k < |spans| ==> spans[j].end < spans[k].start
  }

  /** The merging loop: sorted, disjoint intervals with exactly the same points. */
  method Merge(clipped: seq<Span>, from: real, to: real) returns (merged: seq<Span>)
    requires NonEmpty(clipped) && ByStart(clipped) && Within(clipped, from, to)
    ensures Separate(merged) && Within(merged, from, to)
    ensures forall x :: Covers(merged, x) <==> Covers(clipped, x)
  {
    merged := [];
    for n := 0 to |clipped|
      invariant Separate(merged) && Within(merged, from, to)
      invariant forall x :: Covers(merged, x) <==> Covers(clipped[..n], x)
      invariant merged == [] <==> n == 0
      invariant n > 0 ==> merged[|merged| - 1].start <= clipped[n - 1].start
    {
      var s := clipped[n];
      ghost var was := merged;
      assert clipped[..n + 1] == clipped[..n] + [s];
      if merged != [] && s.start <= merged[|merged| - 1].end {
        var last := merged[|merged| - 1];
        merged := merged[|merged| - 1 := Span(last.start, Hi(last.end, s.end))];
        forall x ensures Covers(merged, x) <==> Covers(clipped[..n + 1], x) {
          ExtendedCovers(was, s, x);
          CoversSnoc(clipped[..n], s, x);
          assert Covers(was, x) <==> Covers(clipped[..n], x);
        }
      } else {
        merged := merged + [s];
        forall x ensures Covers(merged, x) <==> Covers(clipped[..n + 1], x) {
          CoversSnoc(was, s, x);
          CoversSnoc(clipped[..n], s, x);
          assert Covers(was, x) <==> Covers(clipped[..n], x);
        }
      }
    }
    assert clipped[..|clipped|] == clipped;
  }

  /** Extending the last interval over an overlapping one covers both. */
  lemma ExtendedCovers(spans: seq<Span>, s: Span, x: real)
    requires spans != [] && spans[|spans| - 1].start <= s.start <= spans[|spans| - 1].end
    ensures var last := spans[|spans| - 1];
      Covers(spans[|spans| - 1 := Span(last.start, Hi(last.end, s.end))], x) <==> Covers(spans, x) || In(x, s)
  {
    var front, last := spans[..|spans| - 1], spans[|spans| - 1];
    var grown := Span(last.start, Hi(last.end, s.end));
    assert spans == front + [last] && spans[|spans| - 1 := grown] == front + [grown];
    CoversSnoc(front, last, x);
    CoversSnoc(front, grown, x);
  }

  // ---------------------------------------------------------------- filling the gaps

  /** Every moment is in one of the two and not in both. */
  ghost predicate AreOpposite(gaps: seq<Span>, busy: seq<Span>, from: real, to: real) {
    forall x :: from <= x < to ==> (Covers(gaps, x) <==> !Covers(busy, x))
  }

  /** The gap loop: `busy` and the gaps together fill the axis from `from` to `to`. */
  ghost predicate FillsGaps(gaps: seq<Span>, busy: seq<Span>, from: real, to: real) {
    Spread(gaps) && Within(gaps, from, to) &&
    AreOpposite(gaps, busy, from, to) && Total(gaps) + Total(busy) == to - from
  }

  /** One turn of the gap loop: the gap in front of a busy interval, then the cursor moves behind it. */
  method StepOver(gaps: seq<Span>, ghost done: seq<Span>, from: real, cursor: real, s: Span)
    returns (after: seq<Span>, next: real)
    requires FillsGaps(gaps, done, from, cursor) && Within(done, from, cursor) && from <= cursor <= s.start < s.end
    ensures FillsGaps(after, done + [s], from, next) && Within(done + [s], from, next) && next == s.end
  {
    after := gaps;
    if s.start > cursor {
      GapGrows(gaps, done, from, cursor, s.start);
      after := gaps + [Span(cursor, s.start)];
    }
    BusyGrows(after, done, from, s);
    next := Hi(cursor, s.end);
  }

  method LastGap(gaps: seq<Span>, ghost busy: seq<Span>, from: real, cursor: real, to: real) returns (after: seq<Span>)
    requires FillsGaps(gaps, busy, from, cursor) && Within(busy, from, cursor) && from <= cursor <= to
    ensures FillsGaps(after, busy, from, to)
  {
    after := gaps;
    if to > cursor {
      GapGrows(gaps, busy, from, cursor, to);
      after := gaps + [Span(cursor, to)];
    }
  }

  method Gaps(busy: seq<Span>, from: real, to: real) returns (gaps: seq<Span>)
    requires Separate(busy) && Within(busy, from, to) && from <= to
    ensures FillsGaps(gaps, busy, from, to)
  {
    gaps := [];
    var cursor := from;
    assert Total([]) == 0.0;
    for n := 0 to |busy|
      invariant from <= cursor <= to && FillsGaps(gaps, busy[..n], from, cursor) && Within(busy[..n], from, cursor)
      invariant n < |busy| ==> cursor <= busy[n].start
    {
      assert busy[..n + 1] == busy[..n] + [busy[n]];
      gaps, cursor := StepOver(gaps, busy[..n], from, cursor, busy[n]);
    }
    assert busy[..|busy|] == busy;
    gaps := LastGap(gaps, busy, from, cursor, to);
  }

  lemma SpreadGrows(gaps: seq<Span>, from: real, gap: Span)
    requires Spread(gaps) && Within(gaps, from, gap.start) && from <= gap.start < gap.end
    ensures Spread(gaps + [gap]) && Within(gaps + [gap], from, gap.end)
  {
  }

  lemma NothingBeyond(spans: seq<Span>, from: real, to: real, x: real)
    requires Within(spans, from, to) && to <= x
    ensures !Covers(spans, x)
  {
  }

  lemma OppositeGrows(gaps: seq<Span>, busy: seq<Span>, from: real, gap: Span)
    requires AreOpposite(gaps, busy, from, gap.start) && Within(gaps, from, gap.start) && Within(busy, from, gap.start)
    ensures AreOpposite(gaps + [gap], busy, from, gap.end)
  {
    forall x | from <= x < gap.end ensures Covers(gaps + [gap], x) <==> !Covers(busy, x) {
      CoversSnoc(gaps, gap, x);
      if gap.start <= x {
        NothingBeyond(busy, from, gap.start, x);
        NothingBeyond(gaps, from, gap.start, x);
      }
    }
  }

  lemma GapGrows(gaps: seq<Span>, busy: seq<Span>, from: real, cursor: real, next: real)
    requires FillsGaps(gaps, busy, from, cursor) && Within(busy, from, cursor) && from <= cursor < next
    ensures FillsGaps(gaps + [Span(cursor, next)], busy, from, next)
  {
    var gap := Span(cursor, next);
    TotalSnoc(gaps, gap);
    SpreadGrows(gaps, from, gap);
    OppositeGrows(gaps, busy, from, gap);
  }

  lemma BusyGrows(gaps: seq<Span>, busy: seq<Span>, from: real, s: Span)
    requires FillsGaps(gaps, busy, from, s.start) && Within(gaps, from, s.start) && from <= s.start < s.end
    ensures FillsGaps(gaps, busy + [s], from, s.end)
  {
    TotalSnoc(busy, s);
    forall x | from <= x < s.end ensures Covers(gaps, x) <==> !Covers(busy + [s], x) {
      CoversSnoc(busy, s, x);
    }
  }

  /** The second gap loop, after measured tools: intervals are clipped again to start where generation ended. */
  method OtherGaps(busy: seq<Span>, from: real, to: real) returns (gaps: seq<Span>)
    requires Separate(busy) && Within(busy, from, to) && from <= to
    ensures FillsGaps(gaps, busy, from, to)
  {
    gaps := [];
    var cursor := from;
    assert Total([]) == 0.0;
    for n := 0 to |busy|
      invariant from <= cursor <= to && FillsGaps(gaps, busy[..n], from, cursor) && Within(busy[..n], from, cursor)
      invariant n < |busy| ==> cursor <= busy[n].start
    {
      assert busy[..n + 1] == busy[..n] + [busy[n]];
      var clipped := Span(Hi(from, busy[n].start), Lo(to, busy[n].end));
      assert clipped == busy[n];
      if clipped.end > clipped.start {
        gaps, cursor := StepOver(gaps, busy[..n], from, cursor, clipped);
      }
    }
    assert busy[..|busy|] == busy;
    gaps := LastGap(gaps, busy, from, cursor, to);
  }

  lemma {:induction false} TotalIsPositive(spans: seq<Span>)
    requires NonEmpty(spans)
    ensures Total(spans) >= 0.0 && (Total(spans) == 0.0 <==> spans == [])
    decreases |spans|
  {
    if spans != [] { TotalIsPositive(spans[..|spans| - 1]); }
  }

  // ---------------------------------------------------------------- the whole timeline

  function TimedOnly(tools: seq<Tool>, timed: bool): (r: seq<Tool>)
    ensures forall t :: t in r <==> t in tools && (Duration(t) > 0.0) == timed
  {
    if tools == [] then []
    else TimedOnly(tools[..|tools| - 1], timed) +
         (if (Duration(tools[|tools| - 1]) > 0.0) == timed then [tools[|tools| - 1]] else [])
  }

  function NonNegative(o: Option<real>): real { if o.Some? then Hi(o.value, 0.0) else 0.0 }

  /** TTFT, clamped to the latency when that is known. */
  function Ttft(latencyMs: Option<real>, ttftMs: Option<real>): real {
    var latency := NonNegative(latencyMs);
    if latency > 0.0 then Lo(NonNegative(ttftMs), latency) else NonNegative(ttftMs)
  }

  /** The first token comes when it was measured, but not before the request and, if it is known how long that took,
      not after its end. */
  lemma TtftIsWithinTheRequest(latencyMs: Option<real>, ttftMs: Option<real>)
    ensures var measured := if ttftMs != None && ttftMs.value > 0.0 then ttftMs.value else 0.0;
      Ttft(latencyMs, ttftMs) ==
        if latencyMs != None && 0.0 < latencyMs.value < measured then latencyMs.value else measured
  {
  }

  /** The axis: TTFT up to `ttft`, then tool time, generation and other up to `total`. */
  datatype Axis = Axis(
    ttft: real, total: real, busy: seq<Span>, generation: seq<Span>, generationMs: real, other: seq<Span>,
      otherMs: real)

  datatype Layout = Layout(clusters: seq<Cluster>, untimed: seq<Tool>, displayTotal: real, axis: Axis)

  /** From TTFT to the total, every moment is exactly one of tool time, generation and other; the segments are
      in order and do not overlap, and each row's duration is the sum of its segments. */
  ghost predicate SplitsTheAxis(r: Axis, ps: seq<Placed>) {
    0.0 <= r.ttft <= r.total &&
    Separate(r.busy) && Within(r.busy, r.ttft, r.total) &&
    (forall x :: Covers(r.busy, x) <==> r.ttft <= x < r.total && SomeTool(ps, x)) &&
    Spread(r.generation) && Within(r.generation, r.ttft, r.total) &&
    Spread(r.other) && Within(r.other, r.ttft, r.total) &&
    (forall x :: r.ttft <= x < r.total ==>
      ExactlyOne(Covers(r.busy, x), Covers(r.generation, x), Covers(r.other, x))) &&
    r.generationMs == Total(r.generation) && r.otherMs == Total(r.other) &&
    Total(r.busy) + r.generationMs + r.otherMs == r.total - r.ttft
  }

  predicate ExactlyOne(a: bool, b: bool, c: bool) { (a && !b && !c) || (!a && b && !c) || (!a && !b && c) }

  /** Generation before the first tool, when the tools' starts are measured; all gaps, when they are not. */
  ghost predicate NamesTheGaps(r: Axis, ps: seq<Placed>, measured: bool) {
    if measured then
      ps != [] &&
      var end := Hi(r.ttft, Lo(r.total, ps[0].span.start));
      r.generation == (if end > r.ttft then [Span(r.ttft, end)] else []) && Within(r.other, end, r.total)
    else r.other == []
  }

  /** What merging leaves of the tools between TTFT and the total; nothing starts before `end`, where generation
      ends. */
  method MergeTools(ps: seq<Placed>, ttft: real, total: real, end: real) returns (busy: seq<Span>)
    requires Sorted(ps) && (end == ttft || (ps != [] && end <= Hi(ttft, ps[0].span.start)))
    ensures Separate(busy) && Within(busy, end, total)
    ensures forall x :: Covers(busy, x) <==> ttft <= x < total && SomeTool(ps, x)
  {
    ClippedByStart(ps, ttft, total);
    var clipped := Clipped(ps, ttft, total);
    assert Within(clipped, ttft, total) && NonEmpty(clipped);
    busy := Merge(clipped, end, total);
    forall x ensures Covers(busy, x) <==> ttft <= x < total && SomeTool(ps, x) {
      ClippedCovers(ps, ttft, total, x);
    }
  }

  method MeasuredAxis(ps: seq<Placed>, ttft: real, total: real) returns (r: Axis)
    requires Sorted(ps) && 0.0 <= ttft <= total && ps != []
    ensures r.ttft == ttft && r.total == total && SplitsTheAxis(r, ps) && NamesTheGaps(r, ps, true)
  {
    var end := Hi(ttft, Lo(total, ps[0].span.start));
    var busy := MergeTools(ps, ttft, total, end);
    var generation := if end > ttft then [Span(ttft, end)] else [];
    TotalSnoc([], Span(ttft, end));
    assert [] + [Span(ttft, end)] == [Span(ttft, end)];
    var other := OtherGaps(busy, end, total);
    MeasuredSplit(busy, other, ttft, end, total);
    r := Axis(ttft, total, busy, generation, Hi(0.0, end - ttft), other, Total(other));
  }

  method PlainAxis(ps: seq<Placed>, ttft: real, total: real) returns (r: Axis)
    requires Sorted(ps) && 0.0 <= ttft <= total
    ensures r.ttft == ttft && r.total == total && SplitsTheAxis(r, ps) && NamesTheGaps(r, ps, false)
  {
    var busy := MergeTools(ps, ttft, total, ttft);
    var generationMs := Hi(0.0, total - ttft - Total(busy));
    var gaps := Gaps(busy, ttft, total);
    TotalIsPositive(gaps);
    r := Axis(ttft, total, busy, if generationMs > 0.0 then gaps else [], generationMs, [], 0.0);
  }

  method FillAxis(ps: seq<Placed>, measured: bool, ttft: real, total: real) returns (r: Axis)
    requires Sorted(ps) && 0.0 <= ttft <= total && (measured ==> ps != [])
    ensures r.ttft == ttft && r.total == total
    ensures SplitsTheAxis(r, ps)
    ensures NamesTheGaps(r, ps, measured)
  {
    var start := Hi(0.0, Lo(ttft, total));
    if measured { r := MeasuredAxis(ps, start, total); } else { r := PlainAxis(ps, start, total); }
  }

  method BuildTimeline(latencyMs: Option<real>, ttftMs: Option<real>, tools: seq<Tool>)
    returns (r: Layout, ghost placed: seq<Placed>, ghost ps: seq<Placed>)
    ensures IsPlacement(TimedOnly(tools, true), Ttft(latencyMs, ttftMs), placed)
    ensures Sorted(ps) && multiset(ps) == multiset(placed)
    ensures AreClusters(r.clusters, ps)
    ensures r.untimed == TimedOnly(tools, false)
    ensures r.axis.ttft == Ttft(latencyMs, ttftMs)
    ensures IsMax(r.axis.total, NonNegative(latencyMs), r.axis.ttft, ps)
    ensures r.displayTotal == if NonNegative(latencyMs) > 0.0 then NonNegative(latencyMs) else r.axis.total
    ensures SplitsTheAxis(r.axis, ps)
    ensures NamesTheGaps(r.axis, ps, AllStarted(TimedOnly(tools, true)) && ps != [])
  {
    var latency, ttft := NonNegative(latencyMs), Ttft(latencyMs, ttftMs);
    var timed := TimedOnly(tools, true);
    var unsorted := PlaceTools(timed, ttft);
    placed := unsorted;
    AllPositive(timed, ttft, placed);
    var sorted := SortPlaced(unsorted);
    ps := sorted;
    forall k | 0 <= k < |ps| ensures Length(ps[k].span) > 0.0 {
      assert ps[k] in multiset(ps) && ps[k] in multiset(placed);
    }
    var clusters := MakeClusters(sorted);
    var total := Hi(Hi(latency, if sorted == [] then ttft else MaxEnd(sorted)), ttft);
    var axis := FillAxis(sorted, AllStarted(timed) && sorted != [], ttft, total);
    r := Layout(clusters, TimedOnly(tools, false), if latency > 0.0 then latency else total, axis);
  }

  predicate IsMax(total: real, latency: real, ttft: real, ps: seq<Placed>) {
    latency <= total && ttft <= total && EndsBy(ps, total) &&
    (total == latency || total == ttft || exists k :: 0 <= k < |ps| && ps[k].span.end == total)
  }

  lemma AllPositive(tools: seq<Tool>, ttft: real, ps: seq<Placed>)
    requires IsPlacement(tools, ttft, ps) && AllTimed(tools)
    ensures forall p :: p in ps ==> Length(p.span) > 0.0
  {
    forall p | p in ps ensures Length(p.span) > 0.0 {
      var k :| 0 <= k < |ps| && ps[k] == p;
      assert Duration(tools[k]) > 0.0;
    }
  }

  /** One generation segment before the tools, and the gaps after it, split the axis. */
  lemma MeasuredSplit(busy: seq<Span>, other: seq<Span>, start: real, end: real, total: real)
    requires start <= end <= total && Within(busy, end, total) && FillsGaps(other, busy, end, total)
    ensures var generation := if end > start then [Span(start, end)] else [];
      forall x :: start <= x < total ==> ExactlyOne(Covers(busy, x), Covers(generation, x), Covers(other, x))
  {
    var generation := if end > start then [Span(start, end)] else [];
    forall x | start <= x < total ensures ExactlyOne(Covers(busy, x), Covers(generation, x), Covers(other, x)) {
      if x < end { assert In(x, generation[0]); }
    }
  }
}
