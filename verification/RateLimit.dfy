/** The sliding-window rate limiter in front of the receiver (`_check_rate_limit` in src/otlp.py): deques of
    recent timestamps per key, with a clean-up of all keys every minute. Times are seconds. */
module RateLimit {
  import opened Basics

  const WINDOW := 60.0

  /** How many of the times are at or after `from`. */
  function CountSince(h: seq<real>, from: real): (n: nat)
    ensures n <= |h|
  {
    if h == [] then 0 else CountSince(h[..|h| - 1], from) + (if h[|h| - 1] >= from then 1 else 0)
  }

  predicate Ordered(h: seq<real>) { forall j, k :: 0 <= j < k < |h| ==> h[j] <= h[k] }

  predicate AllBefore(h: seq<real>, t: real) { forall k :: 0 <= k < |h| ==> h[k] < t }

  predicate AllFrom(h: seq<real>, t: real) { forall k :: 0 <= k < |h| ==> h[k] >= t }

  predicate AllUpTo(h: seq<real>, t: real) { forall k :: 0 <= k < |h| ==> h[k] <= t }

  lemma {:induction false} CountSplit(old_: seq<real>, recent: seq<real>, from: real)
    requires AllBefore(old_, from) && AllFrom(recent, from)
    ensures CountSince(old_ + recent, from) == |recent|
    decreases |old_| + |recent|
  {
    var all := old_ + recent;
    if recent != [] {
      assert all[..|all| - 1] == old_ + recent[..|recent| - 1];
      CountSplit(old_, recent[..|recent| - 1], from);
    } else if old_ != [] {
      assert all[..|all| - 1] == old_[..|old_| - 1] + [];
      CountSplit(old_[..|old_| - 1], [], from);
    }
  }

  /** Any `limit + 1` accepted times in a row span more than a window. */
  predicate Sparse(h: seq<real>, limit: nat) {
    forall k :: 0 <= k < |h| - limit ==> h[k + limit] - h[k] > WINDOW
  }

  /** The accepted times inside a closed interval. */
  function Inside(h: seq<real>, from: real, to: real): set<nat> {
    set k: nat | k < |h| && from <= h[k] <= to
  }

  lemma {:induction false} CountIsInside(h: seq<real>, from: real, to: real)
    requires AllUpTo(h, to)
    ensures CountSince(h, from) == |Inside(h, from, to)|
    decreases |h|
  {
    if h == [] {
      assert Inside(h, from, to) == {};
    } else {
      var rest, n := h[..|h| - 1], |h| - 1;
      CountIsInside(rest, from, to);
      assert Inside(h, from, to) == Inside(rest, from, to) + (if h[n] >= from then {n} else {});
    }
  }

  /** No closed interval of sixty seconds, wherever it starts, holds more than `limit` accepted requests. */
  lemma AnyWindowHoldsAtMostLimit(h: seq<real>, limit: nat, from: real)
    requires Ordered(h) && Sparse(h, limit)
    ensures |Inside(h, from, from + WINDOW)| <= limit
  {
    var inside := Inside(h, from, from + WINDOW);
    if inside != {} {
      var first := LeastOf(inside);
      forall k | k in inside ensures first <= k < first + limit {
        assert first + limit < |h| ==> h[first + limit] - h[first] > WINDOW;
      }
      RangeSize(inside, first, limit);
    }
  }

  lemma {:induction false} RangeSize(s: set<nat>, from: nat, n: nat)
    requires forall k :: k in s ==> from <= k < from + n
    ensures |s| <= n
    decreases n
  {
    if n == 0 {
      assert s == {};
    } else {
      var last := from + n - 1;
      RangeSize(s - {last}, from, n - 1);
      assert s <= (s - {last}) + {last};
      if last in s { assert |s| == |s - {last}| + 1; } else { assert s - {last} == s; }
    }
  }

  type Times = map<string, seq<real>>

  function At(m: Times, key: string): seq<real> { if key in m then m[key] else [] }

  /** A key's deque is what is left of its history: whatever was dropped has left the window for good. */
  predicate KeyOk(h: seq<real>, dq: seq<real>, clock: real, limit: nat) {
    Ordered(h) && AllUpTo(h, clock) && Sparse(h, limit) &&
    |dq| <= |h| && dq == h[|h| - |dq|..] && AllBefore(h[..|h| - |dq|], clock - WINDOW)
  }

  lemma LaterIsOk(h: seq<real>, dq: seq<real>, clock: real, now: real, limit: nat)
    requires KeyOk(h, dq, clock, limit) && clock <= now
    ensures KeyOk(h, dq, now, limit)
  {
  }

  /** Forgetting a deque whose last entry has left the window. */
  lemma ForgettingIsOk(h: seq<real>, dq: seq<real>, clock: real, limit: nat)
    requires KeyOk(h, dq, clock, limit) && (dq == [] || dq[|dq| - 1] < clock - WINDOW)
    ensures KeyOk(h, [], clock, limit)
  {
    assert h[..|h| - 0] == h;
    if dq != [] { assert dq[|dq| - 1] == h[|h| - 1]; }
  }

  lemma PoppingIsOk(h: seq<real>, dq: seq<real>, clock: real, limit: nat)
    requires KeyOk(h, dq, clock, limit) && dq != [] && dq[0] < clock - WINDOW
    ensures KeyOk(h, dq[1..], clock, limit)
  {
    var n := |h| - |dq|;
    assert h[..n + 1] == h[..n] + [dq[0]];
  }

  /** Accepting a request while fewer than `limit` are in the window keeps the history sparse. */
  lemma AcceptingIsOk(h: seq<real>, dq: seq<real>, now: real, limit: nat)
    requires KeyOk(h, dq, now, limit) && |dq| < limit
    ensures KeyOk(h + [now], dq + [now], now, limit)
  {
    var h' := h + [now];
    var dropped := h[..|h| - |dq|];
    forall k | 0 <= k < |h'| - limit ensures h'[k + limit] - h'[k] > WINDOW {
      if k + limit == |h| {
        assert dropped[k] == h[k];
      } else {
        assert h[k + limit] - h[k] > WINDOW;
      }
    }
    assert h'[..|h'| - |dq + [now]|] == dropped;
  }

  /** With the stale entries popped, the deque's length is the number of accepted requests in the window. */
  lemma DequeCounts(h: seq<real>, dq: seq<real>, now: real, limit: nat)
    requires KeyOk(h, dq, now, limit) && (dq == [] || dq[0] >= now - WINDOW)
    ensures CountSince(h, now - WINDOW) == |dq|
  {
    var dropped := h[..|h| - |dq|];
    assert h == dropped + dq;
    assert forall k :: 0 <= k < |dq| ==> dq[k] == h[|h| - |dq| + k];
    CountSplit(dropped, dq, now - WINDOW);
  }

  ghost predicate AllOk(accepted: Times, recent: Times, clock: real, limit: nat) {
    forall key :: KeyOk(At(accepted, key), At(recent, key), clock, limit)
  }

  lemma AllOkLater(accepted: Times, recent: Times, clock: real, now: real, limit: nat)
    requires AllOk(accepted, recent, clock, limit) && clock <= now
    ensures AllOk(accepted, recent, now, limit)
  {
    forall k ensures KeyOk(At(accepted, k), At(recent, k), now, limit) {
      LaterIsOk(At(accepted, k), At(recent, k), clock, now, limit);
    }
  }

  lemma AllOkAfter(accepted: Times, recent: Times, key: string, h: seq<real>, dq: seq<real>, clock: real, limit: nat)
    requires AllOk(accepted, recent, clock, limit) && KeyOk(h, dq, clock, limit)
    ensures AllOk(accepted[key := h], recent[key := dq], clock, limit)
  {
    var accepted', recent' := accepted[key := h], recent[key := dq];
    forall k ensures KeyOk(At(accepted', k), At(recent', k), clock, limit) {
      if k != key { assert KeyOk(At(accepted, k), At(recent, k), clock, limit); }
    }
  }

  /** Pops what has left the window from the front of a deque. */
  method PopStale(deque: seq<real>, now: real, ghost h: seq<real>, ghost limit: nat) returns (dq: seq<real>)
    requires KeyOk(h, deque, now, limit)
    ensures KeyOk(h, dq, now, limit) && (dq == [] || dq[0] >= now - WINDOW)
  {
    dq := deque;
    while dq != [] && dq[0] < now - WINDOW
      invariant KeyOk(h, dq, now, limit)
    {
      PoppingIsOk(h, dq, now, limit);
      dq := dq[1..];
    }
  }

  /** The decision for one key: the deque afterwards, and the history it stands for. */
  method Decide(recent: Times, key: string, now: real, limit: nat, ghost accepted: Times)
    returns (allowed: bool, dq: seq<real>, ghost h: seq<real>)
    requires AllOk(accepted, recent, now, limit)
    ensures AllOk(accepted[key := h], recent[key := dq], now, limit)
    ensures allowed <==> CountSince(At(accepted, key), now - WINDOW) < limit
    ensures h == At(accepted, key) + (if allowed then [now] else [])
  {
    h := At(accepted, key);
    assert KeyOk(h, At(recent, key), now, limit);
    dq := PopStale(At(recent, key), now, h, limit);
    DequeCounts(h, dq, now, limit);
    allowed := |dq| < limit;
    if allowed {
      AcceptingIsOk(h, dq, now, limit);
      dq, h := dq + [now], h + [now];
    } else {
      assert h == h + [];
    }
    AllOkAfter(accepted, recent, key, h, dq, now, limit);
  }

  /** Exactly the keys with a request in the last sixty seconds are left, as they were. */
  ghost predicate IsCleaned(was: Times, now_: Times, now: real) {
    (forall k :: k in now_ <==> HasRecent(was, k, now)) && forall k :: k in now_ ==> k in was && now_[k] == was[k]
  }

  predicate HasRecent(m: Times, key: string, now: real) {
    key in m && m[key] != [] && m[key][|m[key]| - 1] >= now - 60.0
  }

  /** How many requests were accepted in the sixty seconds up to now. */
  function LastMinute(h: seq<real>, now: real): nat { |Inside(h, now - 60.0, now)| }

  lemma AcceptedInLastMinute(accepted: Times, recent: Times, key: string, now: real, limit: nat)
    requires AllOk(accepted, recent, now, limit)
    ensures LastMinute(At(accepted, key), now) == CountSince(At(accepted, key), now - WINDOW)
  {
    assert KeyOk(At(accepted, key), At(recent, key), now, limit);
    CountIsInside(At(accepted, key), now - WINDOW, now);
  }

  class Limiter {
    const limit: nat
    var recent: Times
    var lastCleanup: real
    /** Every time ever accepted for a key, and the latest time seen. */
    ghost var accepted: Times
    ghost var clock: real

    ghost predicate Valid()
      reads this
    {
      AllOk(accepted, recent, clock, limit)
    }

    constructor (limit: nat, start: real)
      ensures Valid() && this.limit == limit && accepted == map[] && clock == start
    {
      this.limit := limit;
      recent, lastCleanup, accepted, clock := map[], 0.0, map[], start;
    }

    /** The request is let through exactly when fewer than `limit` of all requests ever accepted for the key
        lie in the last sixty seconds; clean-ups, and requests for other keys, make no difference. */
    method Check(key: string, now: real) returns (allowed: bool)
      requires Valid() && clock <= now
      modifies this
      ensures Valid() && clock == now
      ensures allowed <==> LastMinute(At(old(accepted), key), now) < limit
      ensures accepted == old(accepted)[key := At(old(accepted), key) + (if allowed then [now] else [])]
    {
      AllOkLater(accepted, recent, clock, now, limit);
      clock := now;
      CleanUpIfDue(now);
      ghost var h;
      var dq;
      AcceptedInLastMinute(accepted, recent, key, now, limit);
      allowed, dq, h := Decide(recent, key, now, limit, accepted);
      recent, accepted := recent[key := dq], accepted[key := h];
    }

    /** Once a minute. */
    method CleanUpIfDue(now: real)
      requires Valid() && now == clock
      modifies this`recent, this`lastCleanup
      ensures Valid()
      ensures now - old(lastCleanup) >= 60.0 ==> IsCleaned(old(recent), recent, now) && lastCleanup == now
      ensures now - old(lastCleanup) < 60.0 ==> recent == old(recent) && lastCleanup == old(lastCleanup)
    {
      if now - lastCleanup >= WINDOW {
        CleanUp(now);
        lastCleanup := now;
      }
    }

    /** Deletes the keys without a recent request. */
    method CleanUp(now: real)
      requires Valid() && now == clock
      modifies this`recent
      ensures Valid()
      ensures IsCleaned(old(recent), recent, now)
    {
      var stale := set k | k in recent && (recent[k] == [] || recent[k][|recent[k]| - 1] < now - WINDOW);
      forall k ensures KeyOk(At(accepted, k), At(recent - stale, k), clock, limit) {
        if k in stale { ForgettingIsOk(At(accepted, k), At(recent, k), clock, limit); }
      }
      recent := recent - stale;
    }

    /** After any run of checks, no closed interval of sixty seconds holds more than the limit for a key. */
    lemma NoWindowOverflows(key: string, from: real)
      requires Valid()
      ensures |Inside(At(accepted, key), from, from + 60.0)| <= limit
    {
      assert KeyOk(At(accepted, key), At(recent, key), clock, limit);
      AnyWindowHoldsAtMostLimit(At(accepted, key), limit, from);
    }
  }
}
