/** Keys, tool buffers and prompt queues: the small state pieces of the OTLP receiver (src/otlp.py). */
module Correlation {
  import opened Basics

  // ---------------------------------------------------------------- keys scoped to a user

  predicate IsUser(user: string) { user != "" && ':' !in user }

  /** `_scoped_id`, for the non-empty user ids that posts carry. */
  function Scoped(user: string, id: string): string { user + ":" + id }

  predicate Owns(user: string, key: string) { user + ":" <= key }

  /** A scoped key names its user and its identifier; it belongs to that user and to no other. */
  lemma ScopedIsInjective(u: string, v: string, i: string, j: string)
    requires IsUser(u) && IsUser(v)
    ensures Scoped(u, i) == Scoped(v, j) <==> u == v && i == j
    ensures Owns(v, Scoped(u, i)) <==> u == v
  {
    var a := Scoped(u, i);
    if Owns(v, a) {
      assert a[|v|] == ':' && a[..|v|] == v;
      assert a[|u|] == ':' && a[..|u|] == u;
      assert forall k :: 0 <= k < |u| ==> a[k] == u[k] && u[k] in u;
      assert forall k :: 0 <= k < |v| ==> a[k] == v[k] && v[k] in v;
      assert |u| == |v|;
    }
    assert Owns(u, a);
    if a == Scoped(v, j) {
      assert Owns(v, a);
      assert i == a[|u| + 1..] && j == a[|v| + 1..];
    }
  }

  // ---------------------------------------------------------------- tool buffers

  /** A tool call waiting for the event that completes it. */
  datatype Waiting = Waiting(id: string, name: string, ts: int, durationMs: Option<int>)

  type Buffer = map<string, seq<Waiting>>

  function At(b: Buffer, key: string): (ws: seq<Waiting>)
    ensures key !in b ==> ws == []
  {
    if key in b then b[key] else []
  }

  predicate Holds(ws: seq<Waiting>, id: string) { exists k :: 0 <= k < |ws| && ws[k].id == id }

  predicate DistinctIds(ws: seq<Waiting>) {
    forall j, k :: 0 <= j < k < |ws| ==> ws[j].id != ws[k].id
  }

  /** A redelivered decision only completes the entry that is already there. */
  function Redelivered(old_: Waiting, w: Waiting): Waiting {
    old_.(name := if w.name != "" then w.name else old_.name,
          durationMs := if w.durationMs.Some? then w.durationMs else old_.durationMs)
  }

  /** `_buffer_tool_call` on the list under a key. */
  function Noted(ws: seq<Waiting>, w: Waiting): (r: seq<Waiting>)
    ensures r != []
  {
    if ws == [] then [w]
    else if ws[0].id == w.id then [Redelivered(ws[0], w)] + ws[1..]
    else [ws[0]] + Noted(ws[1..], w)
  }

  /** A decision adds its id, or completes the entry that has it; ids stay distinct. */
  lemma {:induction false} NotedHolds(ws: seq<Waiting>, w: Waiting)
    ensures forall id :: Holds(Noted(ws, w), id) <==> Holds(ws, id) || id == w.id
    ensures DistinctIds(ws) ==> DistinctIds(Noted(ws, w))
    ensures |Noted(ws, w)| == |ws| + (if Holds(ws, w.id) then 0 else 1)
  {
    if ws == [] {
      HoldsCons(w, []);
      assert [w] + [] == [w];
    } else {
      HoldsCons(ws[0], ws[1..]);
      assert ws == [ws[0]] + ws[1..];
      if ws[0].id == w.id {
        SameIdsSameHolds(ws, [Redelivered(ws[0], w)] + ws[1..]);
      } else {
        NotedHolds(ws[1..], w);
        HoldsCons(ws[0], Noted(ws[1..], w));
      }
    }
  }

  lemma SameIdsSameHolds(a: seq<Waiting>, b: seq<Waiting>)
    requires |a| == |b| && forall k :: 0 <= k < |a| ==> a[k].id == b[k].id
    ensures forall id :: Holds(a, id) <==> Holds(b, id)
    ensures DistinctIds(a) <==> DistinctIds(b)
  {
    forall id ensures Holds(a, id) <==> Holds(b, id) {
      if k :| 0 <= k < |a| && a[k].id == id { assert b[k].id == id; }
      if k :| 0 <= k < |b| && b[k].id == id { assert a[k].id == id; }
    }
  }

  lemma HoldsCons(w: Waiting, ws: seq<Waiting>)
    ensures forall id :: Holds([w] + ws, id) <==> w.id == id || Holds(ws, id)
    ensures DistinctIds([w] + ws) <==> DistinctIds(ws) && !Holds(ws, w.id)
  {
    var all := [w] + ws;
    assert all[0] == w && forall k :: 0 <= k < |ws| ==> all[k + 1] == ws[k];
    forall id ensures Holds(all, id) <==> w.id == id || Holds(ws, id) {
      if k :| 0 <= k < |ws| && ws[k].id == id { assert all[k + 1].id == id; }
      if k :| 0 <= k < |all| && all[k].id == id { assert k > 0 ==> ws[k - 1].id == id; }
    }
    if DistinctIds(all) {
      forall j, k | 0 <= j < k < |ws| ensures ws[j].id != ws[k].id {
        assert all[j + 1].id != all[k + 1].id;
      }
    }
  }

  /** The first entry with this id, if any. */
  function Find(ws: seq<Waiting>, id: string): (r: Option<Waiting>)
    ensures r.Some? <==> Holds(ws, id)
    ensures r.Some? ==> r.value.id == id
  {
    if ws == [] then None
    else
      HoldsCons(ws[0], ws[1..]);
      assert ws == [ws[0]] + ws[1..];
      if ws[0].id == id then Some(ws[0]) else Find(ws[1..], id)
  }

  /** The entries with the first occurrence of this id taken out. */
  function Without(ws: seq<Waiting>, id: string): seq<Waiting> {
    if ws == [] then []
    else if ws[0].id == id then ws[1..]
    else [ws[0]] + Without(ws[1..], id)
  }

  lemma {:induction false} WithoutHolds(ws: seq<Waiting>, id: string)
    requires DistinctIds(ws)
    ensures DistinctIds(Without(ws, id))
    ensures forall i :: Holds(Without(ws, id), i) <==> Holds(ws, i) && i != id
  {
    if ws != [] {
      HoldsCons(ws[0], ws[1..]);
      assert ws == [ws[0]] + ws[1..];
      WithoutHolds(ws[1..], id);
      HoldsCons(ws[0], Without(ws[1..], id));
    }
  }

  /** The first entry with this id gets the duration. */
  function Timed(ws: seq<Waiting>, id: string, durationMs: int): (r: seq<Waiting>)
    ensures |r| == |ws| && forall k :: 0 <= k < |ws| ==> r[k] == ws[k].(durationMs := r[k].durationMs)
    ensures !Holds(ws, id) ==> r == ws
  {
    if ws == [] then []
    else
      HoldsCons(ws[0], ws[1..]);
      assert ws == [ws[0]] + ws[1..];
      if ws[0].id == id then [ws[0].(durationMs := Some(durationMs))] + ws[1..]
      else [ws[0]] + Timed(ws[1..], id, durationMs)
  }

  /** The entries decided at or after `start` (`late`), or before it. */
  function Since(ws: seq<Waiting>, start: int, late: bool): (r: seq<Waiting>)
    ensures forall i :: Holds(r, i) ==> Holds(ws, i)
    ensures DistinctIds(ws) ==> DistinctIds(r)
  {
    if ws == [] then []
    else
      var rest := Since(ws[1..], start, late);
      HoldsCons(ws[0], ws[1..]);
      HoldsCons(ws[0], rest);
      assert ws == [ws[0]] + ws[1..];
      if (ws[0].ts >= start) == late then [ws[0]] + rest else rest
  }

  lemma {:induction false} SincePartitions(ws: seq<Waiting>, start: int, id: string)
    requires DistinctIds(ws)
    ensures Holds(ws, id) <==> Holds(Since(ws, start, true), id) || Holds(Since(ws, start, false), id)
    ensures !(Holds(Since(ws, start, true), id) && Holds(Since(ws, start, false), id))
  {
    if ws != [] {
      SincePartitions(ws[1..], start, id);
      HoldsCons(ws[0], ws[1..]);
      assert ws == [ws[0]] + ws[1..];
      HoldsCons(ws[0], Since(ws[1..], start, true));
      HoldsCons(ws[0], Since(ws[1..], start, false));
      assert !Holds(ws[1..], ws[0].id);
    }
  }

  /** A list that becomes empty is removed with its key. */
  function Put<V>(m: map<string, seq<V>>, key: string, vs: seq<V>): map<string, seq<V>> {
    if vs == [] then m - {key} else m[key := vs]
  }

  // ---------------------------------------------------------------- prompt lengths

  /** Prompt lengths queued for the usage event that follows, with the time of the latest one. */
  datatype Queue = Queue(ts: int, values: seq<int>)

  type Prompts = map<string, Queue>

  function Queued(p: Prompts, key: string, length: int, now: int): Prompts {
    p[key := Queue(now, (if key in p then p[key].values else []) + [length])]
  }

  function NextLength(p: Prompts, key: string): int {
    if key in p && p[key].values != [] then p[key].values[0] else 0
  }

  function Consumed(p: Prompts, key: string): Prompts {
    if key !in p then p
    else if |p[key].values| <= 1 then p - {key}
    else p[key := p[key].(values := p[key].values[1..])]
  }
}
