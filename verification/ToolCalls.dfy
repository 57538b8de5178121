/** The stored tool calls and the per-session counters kept beside them (`record_tool_call` and
    `update_tool_call_duration` in src/recorder.py, the tool counters in src/database/sessions.py). */
module ToolCalls {
  import opened Basics
  import opened Requests
  import opened Correlation
  import opened Otlp
  import opened OtlpFates

  type Calls = map<string, ToolCall>
  type Counters = map<string, map<string, nat>>

  /** `counted` are the calls that raised a session counter. */
  datatype Stored = Stored(calls: Calls, owners: map<string, string>, counters: Counters, counted: set<string>)

  const NO_CALLS := Stored(map[], map[], map[], {})

  // ---------------------------------------------------------------- counting calls

  /** The calls among `ids` that belong to a session and carry a name. */
  function Matching(calls: Calls, ids: set<string>, session: string, name: string): set<string> {
    set id | id in ids && id in calls && calls[id].sessionId == Some(session) && calls[id].name == name
  }

  function CountOf(counters: Counters, session: string, name: string): nat {
    if session in counters && name in counters[session] then counters[session][name] else 0
  }

  function Raised(counters: Counters, session: string, name: string): Counters {
    var names := if session in counters then counters[session] else map[];
    counters[session := names[name := (if name in names then names[name] else 0) + 1]]
  }

  lemma RaisedCounts(counters: Counters, session: string, name: string)
    ensures forall s, n :: CountOf(Raised(counters, session, name), s, n) ==
                           CountOf(counters, s, n) + (if s == session && n == name then 1 else 0)
  {
  }

  // ---------------------------------------------------------------- the operations

  /** Whether `upsert_session_from_tool_call` finds the call's session. */
  predicate HasSession(t: Stored, c: ToolCall) {
    Present(c.sessionId) && c.sessionId.value in t.owners && t.owners[c.sessionId.value] == c.userId
  }

  /** `record_tool_call`: an id that is already stored is left alone. */
  function Recording(t: Stored, c: ToolCall): Stored {
    if c.toolUseId in t.calls then t
    else
      var calls := t.calls[c.toolUseId := c];
      if HasSession(t, c) then
        Stored(calls, t.owners, Raised(t.counters, c.sessionId.value, c.name), t.counted + {c.toolUseId})
      else t.(calls := calls)
  }

  /** `update_tool_call_duration`. */
  function Timing(t: Stored, id: string, user: string, source: string, durationMs: int): Stored {
    if id in t.calls && t.calls[id].userId == user && t.calls[id].clientSource == source
    then t.(calls := t.calls[id := t.calls[id].(durationMs := Some(durationMs))])
    else t
  }

  /** A usage row creates its session record if there is none; it starts without counters. */
  function Opening(t: Stored, session: string, user: string): Stored {
    if session in t.owners then t else t.(owners := t.owners[session := user])
  }

  function Applied(t: Stored, e: Entry): Stored {
    match e
    case UsageEntry(user, _, ref) =>
      if ref.Some? && Present(ref.value.sessionId) then Opening(t, ref.value.sessionId.value, user) else t
    case CallEntry(_, call, _) => Recording(t, call)
    case DurationEntry(user, id, source, durationMs) => Timing(t, id, user, source, durationMs)
  }

  /** The tables after a log of recorder calls, in whatever order and however often they arrive. */
  function StoredBy(log: Log): Stored {
    if log == [] then NO_CALLS else Applied(StoredBy(log[..|log| - 1]), log[|log| - 1])
  }

  // ---------------------------------------------------------------- exactly once

  /** The counters count exactly the calls that raised them, each of them once. */
  ghost predicate Consistent(t: Stored) {
    t.counted <= t.calls.Keys && (forall id :: id in t.calls ==> t.calls[id].toolUseId == id) &&
    forall session, name :: CountOf(t.counters, session, name) == |Matching(t.calls, t.counted, session, name)|
  }

  /** A new call is one more of its session and name if it is counted, and otherwise changes no count. */
  lemma MatchingGrows(calls: Calls, ids: set<string>, c: ToolCall, counted: bool, session: string, name: string)
    requires ids <= calls.Keys && c.toolUseId !in calls
    ensures |Matching(calls[c.toolUseId := c], if counted then ids + {c.toolUseId} else ids, session, name)| ==
            |Matching(calls, ids, session, name)| +
            (if counted && c.sessionId == Some(session) && c.name == name then 1 else 0)
  {
    var was := Matching(calls, ids, session, name);
    var now := Matching(calls[c.toolUseId := c], if counted then ids + {c.toolUseId} else ids, session, name);
    if counted && c.sessionId == Some(session) && c.name == name {
      assert now == was + {c.toolUseId};
    } else {
      assert now == was;
    }
  }

  lemma RecordingKeepsConsistent(t: Stored, c: ToolCall)
    requires Consistent(t)
    ensures Consistent(Recording(t, c))
  {
    var t' := Recording(t, c);
    if c.toolUseId !in t.calls {
      RaisedCounts(t.counters, OrEmpty(c.sessionId), c.name);
      forall s, n ensures CountOf(t'.counters, s, n) == |Matching(t'.calls, t'.counted, s, n)| {
        assert CountOf(t.counters, s, n) == |Matching(t.calls, t.counted, s, n)|;
        MatchingGrows(t.calls, t.counted, c, HasSession(t, c), s, n);
      }
    }
  }

  lemma TimingKeepsConsistent(t: Stored, id: string, user: string, source: string, d: int)
    requires Consistent(t)
    ensures Consistent(Timing(t, id, user, source, d))
  {
    var t' := Timing(t, id, user, source, d);
    forall s, n ensures CountOf(t'.counters, s, n) == |Matching(t'.calls, t'.counted, s, n)| {
      assert CountOf(t.counters, s, n) == |Matching(t.calls, t.counted, s, n)|;
      assert Matching(t'.calls, t'.counted, s, n) == Matching(t.calls, t.counted, s, n);
    }
  }

  /** Over any sequence of recorder calls the counters stay exact. */
  lemma {:induction false} CountersAreExact(log: Log)
    ensures Consistent(StoredBy(log))
    decreases |log|
  {
    if log == [] {
      forall s, n ensures CountOf(map[], s, n) == |Matching(map[], {}, s, n)| {
        assert Matching(map[], {}, s, n) == {};
      }
    } else {
      var t, e := StoredBy(log[..|log| - 1]), log[|log| - 1];
      CountersAreExact(log[..|log| - 1]);
      match e
      case UsageEntry(user, _, ref) =>
        forall s, n ensures CountOf(t.counters, s, n) == |Matching(t.calls, t.counted, s, n)| {}
      case CallEntry(_, call, _) => RecordingKeepsConsistent(t, call);
      case DurationEntry(user, id, source, d) => TimingKeepsConsistent(t, id, user, source, d);
    }
  }

  predicate IsCall(e: Entry, id: string) { e.CallEntry? && e.call.toolUseId == id }

  /** Where a tool id was first delivered. */
  function FirstOf(log: Log, id: string): (r: Option<nat>)
    ensures r.Some? ==> r.value < |log| && IsCall(log[r.value], id) && forall j :: 0 <= j < r.value ==>
      !IsCall(log[j], id)
    ensures r.None? ==> forall j :: 0 <= j < |log| ==> !IsCall(log[j], id)
  {
    if log == [] then None
    else
      var earlier := FirstOf(log[..|log| - 1], id);
      if earlier.Some? then earlier
      else if IsCall(log[|log| - 1], id) then Some(|log| - 1)
      else None
  }

  /** An id is stored exactly when it was delivered; what is stored is its first delivery, whatever came
      again later (only a late duration may have been filled in). It raised its session's counter, once,
      exactly when that session existed for the same user at that first delivery. */
  lemma {:induction false} FirstDeliveryWins(log: Log, id: string)
    ensures var first, t := FirstOf(log, id), StoredBy(log);
      (id in t.calls <==> first.Some?) &&
      (first.Some? ==>
        var call := log[first.value].call;
        t.calls[id] == call.(durationMs := t.calls[id].durationMs) &&
        (id in t.counted <==> HasSession(StoredBy(log[..first.value]), call)))
    ensures StoredBy(log).counted <= StoredBy(log).calls.Keys
    decreases |log|
  {
    if log != [] {
      var n := |log| - 1;
      FirstDeliveryWins(log[..n], id);
      if FirstOf(log[..n], id).Some? {
        assert log[..n][..FirstOf(log[..n], id).value] == log[..FirstOf(log, id).value];
      }
    }
  }

  /** The counters `rebuild_sessions_from_usage` computes: all stored calls of a session, for the sessions that have
      a usage row. The others get no record, and their calls are not counted anywhere. */
  function RebuiltCount(t: Stored, session: string, name: string): nat {
    if session in t.owners then |Matching(t.calls, t.calls.Keys, session, name)| else 0
  }

  /** A usage row of the session was recorded. */
  predicate HasUsage(log: Log, session: string) { exists k :: 0 <= k < |log| && IsUsageOf(log[k], session) }

  predicate IsUsageOf(e: Entry, session: string) {
    session != "" && e.UsageEntry? && e.ref.Some? && e.ref.value.sessionId == Some(session)
  }

  /** The session records are those of the usage rows, and there are no counters without a record. */
  lemma {:induction false} RecordsAreOfUsage(log: Log, session: string)
    ensures session in StoredBy(log).owners <==> HasUsage(log, session)
    ensures session in StoredBy(log).counters ==> session in StoredBy(log).owners
    decreases |log|
  {
    if log != [] {
      var rest, e := log[..|log| - 1], log[|log| - 1];
      RecordsAreOfUsage(rest, session);
      if k :| 0 <= k < |rest| && IsUsageOf(rest[k], session) { assert IsUsageOf(log[k], session); }
      if IsUsageOf(e, session) { assert IsUsageOf(log[|log| - 1], session); }
      if k :| 0 <= k < |log| && IsUsageOf(log[k], session) { assert k < |rest| ==> IsUsageOf(rest[k], session); }
    }
  }

  /** When the call with this id was first stored, `upsert_session_from_tool_call` found its session. */
  predicate FoundItsSession(log: Log, id: string) {
    var first := FirstOf(log, id);
    first.Some? && HasSession(StoredBy(log[..first.value]), log[first.value].call)
  }

  /** Where the first usage row of a session is in the log. */
  predicate IsFirstUsage(log: Log, session: string, k: nat) {
    k < |log| && IsUsageOf(log[k], session) && forall j :: 0 <= j < k ==> !IsUsageOf(log[j], session)
  }

  lemma {:induction false} OwnerIsOfFirstUsage(log: Log, session: string, k: nat)
    requires IsFirstUsage(log, session, k)
    ensures session in StoredBy(log).owners && StoredBy(log).owners[session] == log[k].user
    decreases |log|
  {
    var n := |log| - 1;
    if k < n {
      assert IsFirstUsage(log[..n], session, k);
      OwnerIsOfFirstUsage(log[..n], session, k);
    } else {
      RecordsAreOfUsage(log[..n], session);
      assert !HasUsage(log[..n], session);
    }
  }

  /** A call finds its session exactly when the first usage row of that session came before the call did, and was of the
      call's user. */
  lemma FoundMeansUsageBefore(log: Log, id: string, session: string)
    requires FirstNames(log, id, session)
    ensures var first := FirstOf(log, id).value;
      FoundItsSession(log, id) <==>
        exists k: nat :: k < first && IsFirstUsage(log, session, k) && log[k].user == log[first].call.userId
  {
    var first := FirstOf(log, id).value;
    var before := log[..first];
    RecordsAreOfUsage(before, session);
    if k :| 0 <= k < |before| && IsUsageOf(before[k], session) {
      var m := EarliestUsage(before, session, k);
      OwnerIsOfFirstUsage(before, session, m);
      assert IsFirstUsage(log, session, m);
      forall j: nat | j < first && IsFirstUsage(log, session, j) ensures j == m {}
    } else {
      forall k: nat | k < first ensures !IsFirstUsage(log, session, k) { assert log[k] == before[k]; }
    }
  }

  lemma {:induction false} EarliestUsage(log: Log, session: string, k: nat) returns (m: nat)
    requires k < |log| && IsUsageOf(log[k], session)
    ensures IsFirstUsage(log, session, m)
    decreases k
  {
    m := k;
    if j :| 0 <= j < k && IsUsageOf(log[j], session) { m := EarliestUsage(log, session, j); }
  }

  /** A late duration is filled into the stored call of that id if it is of the same user and client, and nowhere
      else. */
  lemma DurationsAreFilledIn(log: Log, user: string, id: string, source: string, d: int, other: string)
    ensures var was, now := StoredBy(log), StoredBy(log + [DurationEntry(user, id, source, d)]);
      now.owners == was.owners && now.counters == was.counters && (other in now.calls <==> other in was.calls) &&
      (other in was.calls && other == id && was.calls[id].userId == user && was.calls[id].clientSource == source ==>
        now.calls[other] == was.calls[id].(durationMs := Some(d))) &&
      (other in was.calls && !(other == id && was.calls[id].userId == user && was.calls[id].clientSource == source) ==>
        now.calls[other] == was.calls[other])
  {
    var all := log + [DurationEntry(user, id, source, d)];
    assert all[..|all| - 1] == log;
  }

  /** The first delivery of the id names the session. */
  predicate FirstNames(log: Log, id: string, session: string) {
    var first := FirstOf(log, id);
    first.Some? && log[first.value].call.sessionId == Some(session)
  }

  /** Stepwise counting never exceeds the rebuild. It agrees with it for a session exactly when the session has no
      usage row, or every id whose first delivery names the session found the session's record, of the same user, at
      that moment. */
  lemma CountersAgreeWithRebuildIff(log: Log, session: string)
    ensures var t := StoredBy(log);
      (forall name :: CountOf(t.counters, session, name) <= RebuiltCount(t, session, name)) &&
      ((forall name :: CountOf(t.counters, session, name) == RebuiltCount(t, session, name)) <==>
       (HasUsage(log, session) ==> forall id :: FirstNames(log, id, session) ==> FoundItsSession(log, id)))
  {
    var t := StoredBy(log);
    RecordsAreOfUsage(log, session);
    if session in t.owners {
      CountsAgreeIffCounted(log, session);
      forall id
        ensures id in t.calls && t.calls[id].sessionId == Some(session) <==> FirstNames(log, id, session)
        ensures id in t.calls ==> (id in t.counted <==> FoundItsSession(log, id))
      {
        FirstDeliveryWins(log, id);
      }
    }
  }

  lemma CountsAgreeIffCounted(log: Log, session: string)
    requires session in StoredBy(log).owners
    ensures var t := StoredBy(log);
      (forall name :: CountOf(t.counters, session, name) <= RebuiltCount(t, session, name)) &&
      ((forall name :: CountOf(t.counters, session, name) == RebuiltCount(t, session, name)) <==>
       (forall id :: id in t.calls && t.calls[id].sessionId == Some(session) ==> id in t.counted))
  {
    var t := StoredBy(log);
    CountersAreExact(log);
    forall name
      ensures CountOf(t.counters, session, name) <= RebuiltCount(t, session, name)
      ensures CountOf(t.counters, session, name) == RebuiltCount(t, session, name) <==>
              Matching(t.calls, t.counted, session, name) == Matching(t.calls, t.calls.Keys, session, name)
    {
      var counted, all := Matching(t.calls, t.counted, session, name), Matching(t.calls, t.calls.Keys, session, name);
      assert CountOf(t.counters, session, name) == |counted|;
      SubsetSize(counted, all);
    }
    if forall name :: CountOf(t.counters, session, name) == RebuiltCount(t, session, name) {
      forall id | id in t.calls && t.calls[id].sessionId == Some(session) ensures id in t.counted {
        var name := t.calls[id].name;
        assert CountOf(t.counters, session, name) == RebuiltCount(t, session, name);
        assert id in Matching(t.calls, t.calls.Keys, session, name);
      }
    }
    if forall id :: id in t.calls && t.calls[id].sessionId == Some(session) ==> id in t.counted {
      forall name ensures CountOf(t.counters, session, name) == RebuiltCount(t, session, name) {
        assert Matching(t.calls, t.counted, session, name) == Matching(t.calls, t.calls.Keys, session, name);
      }
    }
  }

  /** A call stored before the usage row that creates its session: the step-by-step counter stays at zero, the
      rebuild counts one. Without the usage row both show nothing. */
  lemma UncountedCall(call: ToolCall, slot: Slot, q: Request, row: string)
    requires call.sessionId == Some("s")
    ensures var early := CallEntry(call.userId, call, slot);
      var t := StoredBy([early, UsageEntry(call.userId, q, Some(UsageRef(row, Some("s"))))]);
      CountOf(t.counters, "s", call.name) == 0 && RebuiltCount(t, "s", call.name) == 1 &&
      RebuiltCount(StoredBy([early]), "s", call.name) == 0
  {
    var early, late := CallEntry(call.userId, call, slot), UsageEntry(call.userId, q, Some(UsageRef(row, Some("s"))));
    var log := [early, late];
    assert log[..1] == [early] && [early][..0] == [] && StoredBy([]) == NO_CALLS;
    assert !HasSession(NO_CALLS, call);
    assert StoredBy([early]) == Applied(NO_CALLS, early) == Recording(NO_CALLS, call);
    var t := StoredBy(log);
    assert t == Applied(StoredBy([early]), late) == Opening(Recording(NO_CALLS, call), "s", call.userId);
    assert Matching(t.calls, t.calls.Keys, "s", call.name) == {call.toolUseId};
  }

  lemma SubsetSize<T>(a: set<T>, b: set<T>)
    requires a <= b
    ensures |a| <= |b| && (|a| == |b| <==> a == b)
  {
    assert b == a + (b - a) && |b| == |a| + |b - a|;
    if |a| == |b| { assert b - a == {}; }
  }

  // ---------------------------------------------------------------- from posts to stored calls

  /** After any run of posts, an id names at most one stored call; it belongs to the user whose prefix it
      carries, so the same tool id used by two users is two calls and neither can hide the other. */
  lemma StoredCallsBelongToTheirUser(env: Env, limit: nat, posts: seq<Post>, user: string, toolId: string)
    requires IsUser(user) && forall i :: 0 <= i < |posts| ==> IsUser(posts[i].user)
    ensures var log := Run(EMPTY, env, limit, posts).log; var t := StoredBy(log); var id := Scoped(user, toolId);
      (id in t.calls <==> exists k ::
        0 <= k < |log| && log[k].CallEntry? && log[k].user == user && log[k].from.id == toolId) &&
      (id in t.calls ==> t.calls[id].userId == user)
  {
    var log := Run(EMPTY, env, limit, posts).log;
    var id := Scoped(user, toolId);
    RunIsItsSteps(env, limit, posts);
    RecordedIdsAreScoped(env, StepsOf(posts, limit));
    FirstDeliveryWins(log, id);
    var first := FirstOf(log, id);
    LogUsers(env, limit, posts);
    if first.Some? {
      var e := log[first.value];
      assert Plain(e, e.user);
      ScopedIsInjective(e.user, user, e.from.id, toolId);
    }
    if k :| 0 <= k < |log| && log[k].CallEntry? && log[k].user == user && log[k].from.id == toolId {
      assert Plain(log[k], log[k].user) && IsCall(log[k], id);
    }
  }

  // ---------------------------------------------------------------- the tables, changed in place

  class ToolTables {
    var calls: Calls
    var owners: map<string, string>
    var counters: Counters
    ghost var counted: set<string>
    /** Every call into the recorder so far. */
    ghost var past: Log

    ghost function Current(): Stored
      reads this
    {
      Stored(calls, owners, counters, counted)
    }

    ghost predicate Valid()
      reads this
    {
      Current() == StoredBy(past)
    }

    constructor ()
      ensures Valid() && past == []
    {
      calls, owners, counters, counted, past := map[], map[], map[], {}, [];
    }

    /** `record_tool_call`: the insert, and the counter of the session if there is one. */
    method RecordToolCall(c: ToolCall)
      modifies this`calls, this`counters, this`counted
      ensures Current() == Recording(old(Current()), c)
    {
      if c.toolUseId !in calls {
        calls := calls[c.toolUseId := c];
        if Present(c.sessionId) && c.sessionId.value in owners && owners[c.sessionId.value] == c.userId {
          var names := if c.sessionId.value in counters then counters[c.sessionId.value] else map[];
          names := names[c.name := (if c.name in names then names[c.name] else 0) + 1];
          counters := counters[c.sessionId.value := names];
          counted := counted + {c.toolUseId};
        }
      }
    }

    method StoreOne(e: Entry)
      requires Valid()
      modifies this
      ensures Valid() && past == old(past) + [e]
    {
      assert (past + [e])[..|past|] == past;
      match e {
        case UsageEntry(user, _, ref) =>
          if ref.Some? && Present(ref.value.sessionId) && ref.value.sessionId.value !in owners {
            owners := owners[ref.value.sessionId.value := user];
          }
        case CallEntry(_, call, _) => RecordToolCall(call);
        case DurationEntry(user, id, source, durationMs) =>
          if id in calls && calls[id].userId == user && calls[id].clientSource == source {
            calls := calls[id := calls[id].(durationMs := Some(durationMs))];
          }
      }
      past := past + [e];
    }

    /** The recorder runs over any further calls, redelivered and reordered as they may be: there is one stored call
        per id that ever arrived, the first that did; and every counter is the number of stored calls of its session
        and name that found their session when they came. */
    method Store(log: Log)
      requires Valid()
      modifies this
      ensures Valid() && past == old(past) + log
      ensures forall id :: id in calls <==> FirstOf(past, id).Some?
      ensures forall id :: id in calls ==>
        calls[id] == past[FirstOf(past, id).value].call.(durationMs := calls[id].durationMs)
      ensures forall s, n :: CountOf(counters, s, n) == |set id | id in calls && IsCounted(past, calls[id], id, s, n)|
    {
      for k := 0 to |log|
        invariant past == old(past) + log[..k] && Valid()
      {
        assert log[..k + 1] == log[..k] + [log[k]];
        StoreOne(log[k]);
      }
      assert log[..|log|] == log;
      forall id
        ensures id in calls <==> FirstOf(past, id).Some?
        ensures id in calls ==> calls[id] == past[FirstOf(past, id).value].call.(durationMs := calls[id].durationMs)
      {
        FirstDeliveryWins(past, id);
      }
      forall s, n ensures CountOf(counters, s, n) == |set id | id in calls && IsCounted(past, calls[id], id, s, n)| {
        CounterCountsFound(past, s, n);
      }
    }
  }

  predicate IsCounted(log: Log, c: ToolCall, id: string, session: string, name: string) {
    c.sessionId == Some(session) && c.name == name && FoundItsSession(log, id)
  }

  /** Every counter is the number of distinct stored calls that found their session. */
  lemma CounterCountsFound(log: Log, session: string, name: string)
    ensures var t := StoredBy(log);
      CountOf(t.counters, session, name) == |set id | id in t.calls && IsCounted(log, t.calls[id], id, session, name)|
  {
    var t := StoredBy(log);
    CountersAreExact(log);
    forall id | id in t.calls ensures id in t.counted <==> FoundItsSession(log, id) {
      FirstDeliveryWins(log, id);
    }
    assert (set id | id in t.calls && IsCounted(log, t.calls[id], id, session, name)) ==
           Matching(t.calls, t.counted, session, name);
  }
}
