/** The order of the waiting jobs, the positions reported for them, and claiming
    (src/database/evaluation_jobs.py). */
module JobQueue {
  import opened Basics
  import opened Jobs

  /** When each session was last updated; waiting jobs are joined with their session. */
  type Sessions = map<string, int>

  predicate Waits(t: Table, ss: Sessions, i: nat) { i < |t| && t[i].status.Queued? && t[i].sessionId in ss }

  function TriggerRank(j: Job): nat { if j.trigger.Manual? then 0 else 1 }

  /** `_queued_job_order`: manual before automatic, then latest session first, then oldest job first. */
  predicate Before(t: Table, ss: Sessions, i: nat, j: nat)
    requires Waits(t, ss, i) && Waits(t, ss, j)
  {
    var a, b := t[i], t[j];
    TriggerRank(a) < TriggerRank(b) ||
    (TriggerRank(a) == TriggerRank(b) &&
     (ss[a.sessionId] > ss[b.sessionId] || (ss[a.sessionId] == ss[b.sessionId] && a.createdAt < b.createdAt)))
  }

  predicate AllWait(t: Table, ss: Sessions, q: seq<nat>) { forall k :: 0 <= k < |q| ==> Waits(t, ss, q[k]) }

  predicate InOrder(t: Table, ss: Sessions, q: seq<nat>)
    requires AllWait(t, ss, q)
  {
    forall j, k :: 0 <= j < k < |q| ==> q[j] != q[k] && !Before(t, ss, q[k], q[j])
  }

  predicate Lists(q: seq<nat>, i: nat) { exists k :: 0 <= k < |q| && q[k] == i }

  /** An answer to the ordered query: every waiting job once, in an order the keys allow. */
  ghost predicate IsRanking(t: Table, ss: Sessions, q: seq<nat>) {
    AllWait(t, ss, q) && InOrder(t, ss, q) && forall i :: Waits(t, ss, i) ==> Lists(q, i)
  }

  /** No two waiting jobs have the same order key. */
  ghost predicate DistinctKeys(t: Table, ss: Sessions) {
    forall i, j :: Waits(t, ss, i) && Waits(t, ss, j) && i != j ==> Before(t, ss, i, j) || Before(t, ss, j, i)
  }

  lemma BeforeIsAnOrder(t: Table, ss: Sessions, i: nat, j: nat, k: nat)
    requires Waits(t, ss, i) && Waits(t, ss, j) && Waits(t, ss, k)
    ensures !(Before(t, ss, i, j) && Before(t, ss, j, i))
    ensures Before(t, ss, i, j) && Before(t, ss, j, k) ==> Before(t, ss, i, k)
    ensures !Before(t, ss, j, i) && !Before(t, ss, k, j) ==> !Before(t, ss, k, i)
  {
  }

  /** Two orderings of the same jobs, with distinct keys, are the same list. */
  lemma {:induction false} OrderIsUnique(t: Table, ss: Sessions, q: seq<nat>, p: seq<nat>)
    requires DistinctKeys(t, ss) && AllWait(t, ss, q) && AllWait(t, ss, p) && InOrder(t, ss, q) && InOrder(t, ss, p)
    requires forall i :: Lists(q, i) <==> Lists(p, i)
    ensures q == p
    decreases |q|
  {
    if q == [] {
      if p != [] { assert Lists(p, p[0]); }
    } else {
      assert Lists(q, q[0]);
      var m :| 0 <= m < |p| && p[m] == q[0];
      assert Lists(p, p[0]);
      var n :| 0 <= n < |q| && q[n] == p[0];
      BeforeIsAnOrder(t, ss, q[0], p[0], p[0]);
      assert q[0] == p[0];
      forall i ensures Lists(q[1..], i) <==> Lists(p[1..], i) {
        TailLists(q, i);
        TailLists(p, i);
      }
      OrderIsUnique(t, ss, q[1..], p[1..]);
      assert q == [q[0]] + q[1..] && p == [p[0]] + p[1..];
    }
  }

  lemma TailLists(q: seq<nat>, i: nat)
    requires q != [] && forall j, k :: 0 <= j < k < |q| ==> q[j] != q[k]
    ensures Lists(q[1..], i) <==> Lists(q, i) && i != q[0]
  {
    if k :| 0 <= k < |q| && q[k] == i && i != q[0] { assert q[1..][k - 1] == i; }
    if k :| 0 <= k < |q[1..]| && q[1..][k] == i { assert q[k + 1] == i && q[0] != q[k + 1]; }
  }

  /** With distinct keys the query has one answer. */
  lemma RankingIsUnique(t: Table, ss: Sessions, q: seq<nat>, p: seq<nat>)
    requires DistinctKeys(t, ss) && IsRanking(t, ss, q) && IsRanking(t, ss, p)
    ensures q == p
  {
    forall i ensures Lists(q, i) <==> Lists(p, i) {
      if Lists(q, i) { assert Waits(t, ss, i); }
      if Lists(p, i) { assert Waits(t, ss, i); }
    }
    OrderIsUnique(t, ss, q, p);
  }

  // ---------------------------------------------------------------- claims follow the ranking

  function Claimed(t: Table, id: nat, now: int): Table { Apply(t, MarkRunning(id, now)) }

  /** A claim takes the head and leaves the rest as it was. */
  lemma ClaimTakesHead(t: Table, ss: Sessions, q: seq<nat>, now: int)
    requires IsRanking(t, ss, q) && q != []
    ensures IsRanking(Claimed(t, q[0], now), ss, q[1..])
    ensures DistinctKeys(t, ss) ==> DistinctKeys(Claimed(t, q[0], now), ss)
    ensures RunningIds(Claimed(t, q[0], now)) == RunningIds(t) + {q[0]}
  {
    var t' := Claimed(t, q[0], now);
    assert Waits(t, ss, q[0]);
    forall i ensures Waits(t', ss, i) <==> Waits(t, ss, i) && i != q[0] {}
    forall i | Waits(t', ss, i) ensures Lists(q[1..], i) {
      assert Lists(q, i);
      TailLists(q, i);
    }
  }

  /** The claims of `n` turns, each taking a best waiting job. `heads[k]` is the job the k-th query returned. */
  ghost predicate ClaimRun(t: Table, ss: Sessions, heads: seq<nat>, now: int)
    decreases |heads|
  {
    heads == [] ||
    (Waits(t, ss, heads[0]) &&
     (forall i :: Waits(t, ss, i) ==> !Before(t, ss, i, heads[0])) &&
     ClaimRun(Claimed(t, heads[0], now), ss, heads[1..], now))
  }

  /** The table after some claims. */
  function AfterClaims(t: Table, heads: seq<nat>, now: int): Table
    decreases |heads|
  {
    if heads == [] then t else AfterClaims(Claimed(t, heads[0], now), heads[1..], now)
  }

  /** One more claim of a best waiting job. */
  lemma {:induction false} ClaimRunGrows(t: Table, ss: Sessions, heads: seq<nat>, id: nat, now: int)
    requires ClaimRun(t, ss, heads, now)
    requires var after := AfterClaims(t, heads, now);
      Waits(after, ss, id) && forall i :: Waits(after, ss, i) ==> !Before(after, ss, i, id)
    ensures ClaimRun(t, ss, heads + [id], now)
    ensures AfterClaims(t, heads + [id], now) == Claimed(AfterClaims(t, heads, now), id, now)
    decreases |heads|
  {
    var all := heads + [id];
    if heads == [] {
      assert all[1..] == [];
    } else {
      assert all[1..] == heads[1..] + [id];
      ClaimRunGrows(Claimed(t, heads[0], now), ss, heads[1..], id, now);
    }
  }

  /** Repeated claims take the waiting jobs in exactly the order the progress report ranks them. */
  lemma {:induction false} ClaimsFollowRanking(t: Table, ss: Sessions, q: seq<nat>, heads: seq<nat>, now: int)
    requires IsRanking(t, ss, q) && DistinctKeys(t, ss) && ClaimRun(t, ss, heads, now)
    ensures |heads| <= |q| && heads == q[..|heads|]
    decreases |heads|
  {
    if heads != [] {
      assert Lists(q, heads[0]);
      var n :| 0 <= n < |q| && q[n] == heads[0];
      assert Waits(t, ss, q[0]) && !Before(t, ss, q[0], heads[0]);
      assert heads[0] == q[0];
      ClaimTakesHead(t, ss, q, now);
      ClaimsFollowRanking(Claimed(t, q[0], now), ss, q[1..], heads[1..], now);
      assert q[..|heads|] == [q[0]] + q[1..][..|heads| - 1];
    }
  }

  // ---------------------------------------------------------------- reported positions

  datatype Progress = Progress(ahead: nat, position: nat)

  /** `_active_progress_map` for all users: running jobs are first; the k-th waiting job has everything that
      runs and k waiting jobs ahead of it. */
  ghost predicate IsProgress(t: Table, ss: Sessions, q: seq<nat>, p: map<nat, Progress>) {
    (forall i :: i in p <==> i in RunningIds(t) || Lists(q, i)) &&
    (forall i :: i in RunningIds(t) ==> i in p && p[i] == Progress(0, 1)) &&
    forall k :: 0 <= k < |q| ==> q[k] in p && p[q[k]] == Progress(|RunningIds(t)| + k, |RunningIds(t)| + k + 1)
  }

  /** A claim leaves the position of every job that keeps waiting unchanged. */
  lemma ClaimKeepsPositions(t: Table, ss: Sessions, q: seq<nat>, p: map<nat, Progress>, q': seq<nat>,
                            p': map<nat, Progress>, now: int)
    requires IsRanking(t, ss, q) && DistinctKeys(t, ss) && q != [] && IsProgress(t, ss, q, p)
    requires IsRanking(Claimed(t, q[0], now), ss, q') && IsProgress(Claimed(t, q[0], now), ss, q', p')
    ensures forall i :: Waits(t, ss, i) && i != q[0] ==> i in p && i in p' && p'[i] == p[i]
    ensures p'[q[0]] == Progress(0, 1)
  {
    ClaimTakesHead(t, ss, q, now);
    RankingIsUnique(Claimed(t, q[0], now), ss, q', q[1..]);
    assert q[0] !in RunningIds(t);
    HeadRuns(|RunningIds(t)|, |RunningIds(Claimed(t, q[0], now))|, q, p, p');
    forall i | Waits(t, ss, i) && i != q[0] ensures i in p && i in p' && p'[i] == p[i] { assert Lists(q, i); }
    assert q[0] in RunningIds(Claimed(t, q[0], now));
  }

  /** One more runs and one less waits ahead. */
  lemma HeadRuns(running: nat, running': nat, q: seq<nat>, p: map<nat, Progress>, p': map<nat, Progress>)
    requires q != [] && running' == running + 1
    requires forall k :: 0 <= k < |q| ==> q[k] in p && p[q[k]] == Progress(running + k, running + k + 1)
    requires forall k :: 0 <= k < |q[1..]| ==>
      q[1..][k] in p' && p'[q[1..][k]] == Progress(running' + k, running' + k + 1)
    ensures forall i :: Lists(q, i) && i != q[0] ==> i in p && i in p' && p'[i] == p[i]
  {
    forall i | Lists(q, i) && i != q[0] ensures i in p && i in p' && p'[i] == p[i] {
      var k :| 0 <= k < |q| && q[k] == i;
      assert q[1..][k - 1] == i;
    }
  }

  predicate MovedUp(p: map<nat, Progress>, p': map<nat, Progress>, i: nat) {
    i in p && i in p' && p'[i].ahead == p[i].ahead - 1 && p'[i].position == p[i].position - 1
  }

  predicate EndsJob(t: Table, op: Op) {
    (op.Succeed? || op.Fail? || (op.FailStale? && op.read.status.Running?)) && op.id < |t| && Applies(t[op.id], op)
  }

  predicate SameWaiting(t: Table, t': Table, ss: Sessions, i: nat) {
    (Waits(t', ss, i) <==> Waits(t, ss, i)) && (Waits(t, ss, i) ==> t'[i] == t[i])
  }

  lemma EndKeepsQueue(t: Table, ss: Sessions, op: Op)
    requires EndsJob(t, op)
    ensures var t' := Apply(t, op);
      (forall i :: SameWaiting(t, t', ss, i)) &&
      op.id !in RunningIds(t') && RunningIds(t) == RunningIds(t') + {op.id}
  {
  }

  lemma SameQueue(t: Table, t': Table, ss: Sessions, q: seq<nat>)
    requires forall i :: SameWaiting(t, t', ss, i)
    requires IsRanking(t', ss, q)
    ensures IsRanking(t, ss, q)
  {
    forall k | 0 <= k < |q| ensures Waits(t, ss, q[k]) && t[q[k]] == t'[q[k]] {
      assert SameWaiting(t, t', ss, q[k]) && Waits(t', ss, q[k]);
    }
    forall i | Waits(t, ss, i) ensures Lists(q, i) {
      assert SameWaiting(t, t', ss, i);
    }
  }

  /** The end of a running job, by success, failure or timeout, moves every waiting job up by exactly one. */
  lemma EndMovesUp(t: Table, ss: Sessions, q: seq<nat>, p: map<nat, Progress>, op: Op, q': seq<nat>,
                   p': map<nat, Progress>)
    requires EndsJob(t, op)
    requires IsRanking(t, ss, q) && DistinctKeys(t, ss) && IsProgress(t, ss, q, p)
    requires IsRanking(Apply(t, op), ss, q') && IsProgress(Apply(t, op), ss, q', p')
    ensures q' == q
    ensures forall i :: Waits(t, ss, i) ==> MovedUp(p, p', i)
  {
    EndKeepsQueue(t, ss, op);
    SameQueue(t, Apply(t, op), ss, q');
    RankingIsUnique(t, ss, q, q');
    PositionsFollowRunning(t, Apply(t, op), ss, q, p, p', op.id);
  }

  lemma PositionsFollowRunning(t: Table, t': Table, ss: Sessions, q: seq<nat>, p: map<nat, Progress>,
                               p': map<nat, Progress>, id: nat)
    requires IsRanking(t, ss, q) && IsProgress(t, ss, q, p) && IsProgress(t', ss, q, p')
    requires id !in RunningIds(t') && RunningIds(t) == RunningIds(t') + {id}
    ensures forall i :: Waits(t, ss, i) ==> MovedUp(p, p', i)
  {
    assert |RunningIds(t)| == |RunningIds(t')| + 1;
    forall i | Waits(t, ss, i) ensures MovedUp(p, p', i) {
      assert Lists(q, i);
    }
  }

  // ---------------------------------------------------------------- the query

  /** Places one job in an ordered list. */
  method Place(t: Table, ss: Sessions, q: seq<nat>, i: nat) returns (r: seq<nat>)
    requires AllWait(t, ss, q) && InOrder(t, ss, q) && Waits(t, ss, i) && !Lists(q, i)
    ensures AllWait(t, ss, r) && InOrder(t, ss, r)
    ensures forall j :: Lists(r, j) <==> Lists(q, j) || j == i
  {
    var n := 0;
    while n < |q| && !Before(t, ss, i, q[n])
      invariant 0 <= n <= |q|
      invariant forall k :: 0 <= k < n ==> !Before(t, ss, i, q[k])
    {
      n := n + 1;
    }
    r := q[..n] + [i] + q[n..];
    PlaceIsInOrder(t, ss, q, i, n);
  }

  lemma PlaceIsInOrder(t: Table, ss: Sessions, q: seq<nat>, i: nat, n: nat)
    requires AllWait(t, ss, q) && InOrder(t, ss, q) && Waits(t, ss, i) && !Lists(q, i) && n <= |q|
    requires forall k :: 0 <= k < n ==> !Before(t, ss, i, q[k])
    requires n < |q| ==> Before(t, ss, i, q[n])
    ensures var r := q[..n] + [i] + q[n..];
      AllWait(t, ss, r) && InOrder(t, ss, r) && forall j :: Lists(r, j) <==> Lists(q, j) || j == i
  {
    var r := q[..n] + [i] + q[n..];
    assert r[n] == i && (forall k :: 0 <= k < n ==> r[k] == q[k]) && forall k :: n < k < |r| ==> r[k] == q[k - 1];
    forall k | n <= k < |q| ensures !Before(t, ss, q[k], i) {
      BeforeIsAnOrder(t, ss, i, q[n], q[k]);
      BeforeIsAnOrder(t, ss, i, q[k], q[k]);
    }
    forall k | 0 <= k < |q| ensures q[k] != i { assert Lists(q, q[k]); }
    forall j ensures Lists(r, j) <==> Lists(q, j) || j == i {
      if k :| 0 <= k < |q| && q[k] == j { assert r[if k < n then k else k + 1] == j; }
      if k :| 0 <= k < |r| && r[k] == j { assert k < n ==> q[k] == j; assert k > n ==> q[k - 1] == j; }
      if j == i { assert r[n] == j; }
    }
  }

  /** The ordered query over the waiting jobs. */
  method RankQueue(t: Table, ss: Sessions) returns (q: seq<nat>)
    ensures IsRanking(t, ss, q)
  {
    q := [];
    for n := 0 to |t|
      invariant AllWait(t, ss, q) && InOrder(t, ss, q)
      invariant forall i: nat :: Lists(q, i) <==> Waits(t, ss, i) && i < n
    {
      if t[n].status.Queued? && t[n].sessionId in ss {
        q := Place(t, ss, q, n);
      }
    }
  }

  /** The order of the queue: manual jobs before automatic ones; among these the session updated last comes first, and
      of one session, or sessions updated at once, the older job. */
  lemma RankingIsInOrder(t: Table, ss: Sessions, q: seq<nat>, j: nat, k: nat)
    requires IsRanking(t, ss, q) && j < k < |q|
    ensures q[j] < |t| && q[k] < |t| && t[q[j]].sessionId in ss && t[q[k]].sessionId in ss
    ensures var a, b := t[q[j]], t[q[k]];
      q[j] != q[k] && a.status == b.status == Queued && !(a.trigger == Auto && b.trigger == Manual) &&
      (a.trigger == b.trigger ==>
        ss[a.sessionId] > ss[b.sessionId] || (ss[a.sessionId] == ss[b.sessionId] && a.createdAt <= b.createdAt))
  {
    assert Waits(t, ss, q[j]) && Waits(t, ss, q[k]) && !Before(t, ss, q[k], q[j]);
  }

  /** No waiting job of a known session is left out. */
  lemma RankingIsComplete(t: Table, ss: Sessions, q: seq<nat>, i: nat)
    requires IsRanking(t, ss, q) && i < |t| && t[i].status == Queued && t[i].sessionId in ss
    ensures i in q
  {
    assert Waits(t, ss, i);
    assert Lists(q, i);
  }

  function RunningBelow(t: Table, n: nat): set<nat> { set i | i in RunningIds(t) && i < n }

  /** The entries of the running jobs, and their number. */
  method RunningProgress(t: Table) returns (p: map<nat, Progress>, running: nat)
    ensures p == map i | i in RunningIds(t) :: Progress(0, 1)
    ensures running == |RunningIds(t)|
  {
    p, running := map[], 0;
    for n := 0 to |t|
      invariant p == map i | i in RunningBelow(t, n) :: Progress(0, 1)
      invariant running == |RunningBelow(t, n)|
    {
      if t[n].status.Running? {
        assert RunningBelow(t, n + 1) == RunningBelow(t, n) + {n};
        p := p[n := Progress(0, 1)];
        running := running + 1;
      } else {
        assert RunningBelow(t, n + 1) == RunningBelow(t, n);
      }
    }
    assert RunningBelow(t, |t|) == RunningIds(t);
  }

  /** `_active_progress_map` without a user filter. */
  method ActiveProgressMap(t: Table, ss: Sessions) returns (q: seq<nat>, p: map<nat, Progress>)
    ensures IsRanking(t, ss, q) && IsProgress(t, ss, q, p)
  {
    var running;
    p, running := RunningProgress(t);
    q := RankQueue(t, ss);
    for k := 0 to |q|
      invariant forall i: nat :: i in p <==> i in RunningIds(t) || Lists(q[..k], i)
      invariant forall i :: i in RunningIds(t) ==> i in p && p[i] == Progress(0, 1)
      invariant forall j :: 0 <= j < k ==> q[j] in p && p[q[j]] == Progress(running + j, running + j + 1)
    {
      assert Waits(t, ss, q[k]);
      ListsSnoc(q, k);
      p := p[q[k] := Progress(running + k, running + k + 1)];
    }
    assert q[..|q|] == q;
  }

  lemma ListsSnoc(q: seq<nat>, k: nat)
    requires k < |q|
    ensures forall i :: Lists(q[..k + 1], i) <==> Lists(q[..k], i) || i == q[k]
  {
    forall i ensures Lists(q[..k + 1], i) <==> Lists(q[..k], i) || i == q[k] {
      if j :| 0 <= j < k + 1 && q[j] == i { assert j < k ==> q[..k][j] == i; assert q[..k + 1][j] == i; }
    }
  }
}
